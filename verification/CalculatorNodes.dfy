/** The part of a calculator node that its status mutex guards: life-cycle status, scheduling state
    and the number of invocations in flight. Each function is one critical section. */
module CalculatorNodes {
  datatype Status = StatePrepared | StateOpened | StateActive | StateClosed

  datatype SchedulingState = Idle | Scheduling | SchedulingPending

  datatype Node = Node(status: Status, scheduling: SchedulingState, inFlight: int, maxInFlight: int)

  /** The node after a critical section, and whether the calling thread must go on to schedule. */
  datatype Outcome = Outcome(node: Node, goOn: bool)

  function CheckIfBecameReady(n: Node): Outcome {
    if n.status != StateOpened then Outcome(n, false)
    else if n.scheduling == Idle && n.inFlight < n.maxInFlight then Outcome(n.(scheduling := Scheduling), true)
    else if n.scheduling == Scheduling then Outcome(n.(scheduling := SchedulingPending), false)
    else Outcome(n, false)
  }

  function EndScheduling(n: Node): Outcome {
    if n.status != StateOpened && n.status != StateActive then Outcome(n, false) else
    var n' := n.(inFlight := n.inFlight - 1);
    match n.scheduling
    case Scheduling => Outcome(n'.(scheduling := SchedulingPending), false)
    case SchedulingPending => Outcome(n', false)
    case Idle => Outcome(n'.(scheduling := Scheduling), true)
  }

  /** The start of the scheduling loop. */
  function EnterLoop(n: Node): Outcome {
    if n.status == StateClosed then Outcome(n.(scheduling := Idle), false) else Outcome(n, true)
  }

  /** The end of each round of the scheduling loop. */
  function LeaveLoop(n: Node): Outcome {
    if n.scheduling == SchedulingPending && n.inFlight < n.maxInFlight then Outcome(n.(scheduling := Scheduling), true)
    else Outcome(n.(scheduling := Idle), false)
  }

  function TryToBeginScheduling(n: Node): Outcome {
    if n.inFlight < n.maxInFlight then Outcome(n.(inFlight := n.inFlight + 1), true) else Outcome(n, false)
  }
}

/** The node object. Every method is one critical section, proved to do what the function of the
    same name in `CalculatorNodes` does to the node's contents. */
module CalculatorNodeObjects {
  import N = CalculatorNodes

  class CalculatorNode {
    var status: N.Status
    var schedulingState: N.SchedulingState
    var currentInFlight: int
    const maxInFlight: int

    ghost function Contents(): N.Node
      reads this
    {
      N.Node(status, schedulingState, currentInFlight, maxInFlight)
    }

    constructor (maxInFlight: int)
      ensures Contents() == N.Node(N.StatePrepared, N.Idle, 0, maxInFlight)
    {
      status, schedulingState, currentInFlight := N.StatePrepared, N.Idle, 0;
      this.maxInFlight := maxInFlight;
    }

    method CheckIfBecameReady() returns (schedule: bool)
      modifies this
      ensures N.Outcome(Contents(), schedule) == N.CheckIfBecameReady(old(Contents()))
    {
      if status != N.StateOpened { return false; }
      if schedulingState == N.Idle && currentInFlight < maxInFlight {
        schedulingState := N.Scheduling;
      } else {
        if schedulingState == N.Scheduling { schedulingState := N.SchedulingPending; }
        return false;
      }
      return true;
    }

    /** The caller holds a slot, unless the node was closed meanwhile. */
    method EndScheduling() returns (schedule: bool)
      requires status == N.StateOpened || status == N.StateActive ==> currentInFlight > 0
      modifies this
      ensures N.Outcome(Contents(), schedule) == N.EndScheduling(old(Contents()))
    {
      if status != N.StateOpened && status != N.StateActive { return false; }
      currentInFlight := currentInFlight - 1;
      assert currentInFlight >= 0;
      if schedulingState == N.Scheduling {
        schedulingState := N.SchedulingPending;
        return false;
      } else if schedulingState == N.SchedulingPending {
        return false;
      }
      schedulingState := N.Scheduling;
      return true;
    }

    method EnterLoop() returns (stay: bool, maxAllowance: int)
      modifies this
      ensures N.Outcome(Contents(), stay) == N.EnterLoop(old(Contents()))
      ensures stay ==> maxAllowance == maxInFlight - currentInFlight
    {
      if status == N.StateClosed {
        schedulingState := N.Idle;
        return false, 0;
      }
      return true, maxInFlight - currentInFlight;
    }

    method LeaveLoop() returns (again: bool, maxAllowance: int)
      modifies this
      ensures N.Outcome(Contents(), again) == N.LeaveLoop(old(Contents()))
      ensures again ==> maxAllowance == maxInFlight - currentInFlight
    {
      if schedulingState == N.SchedulingPending && currentInFlight < maxInFlight {
        schedulingState := N.Scheduling;
        return true, maxInFlight - currentInFlight;
      }
      schedulingState := N.Idle;
      return false, 0;
    }

    method TryToBeginScheduling() returns (begun: bool)
      modifies this
      ensures N.Outcome(Contents(), begun) == N.TryToBeginScheduling(old(Contents()))
    {
      if currentInFlight < maxInFlight {
        currentInFlight := currentInFlight + 1;
        return true;
      }
      return false;
    }

    method ActivateNode()
      requires status == N.StateOpened
      modifies this
      ensures Contents() == old(Contents()).(status := N.StateActive)
    {
      status := N.StateActive;
    }
  }
}
