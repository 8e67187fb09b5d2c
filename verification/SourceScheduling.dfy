/** The scheduling protocol of one source node that runs one invocation at a time. Its scheduling
    loop proposes one invocation each round without looking at any stream, unless the node is
    throttled; threads that unthrottle the node propose one too; slots alone keep it to one. */
module SourceScheduling {
  import opened CalculatorNodes

  datatype Place = Enter | Propose | Commit | Leave

  /** `activating` and `wanted` count the threads that still owe a look at the throttle, or a
      proposal after it; `ending` the invocations that have run and owe the end of their scheduling. */
  datatype State = State(node: Node, throttled: bool, loops: seq<Place>, activating: nat, wanted: nat,
                         queued: nat, running: nat, ending: nat)

  datatype Step =
    | Open
    | Activate
    | Throttle                           // one of the streams downstream becomes full
    | Unthrottle                         // the last full one is not full any more: the node is proposed
    | Look                               // the activating thread looks at the throttle
    | Add                                // a thread that wants the node to run proposes it
    | Start
    | RunOn                              // an invocation returns and the source goes on
    | RunLast                            // an invocation returns and the source is closed
    | End
    | EnterAt(l: nat)
    | ProposeAt(l: nat)
    | CommitAt(l: nat)
    | LeaveAt(l: nat)

  predicate At(s: State, l: nat, p: Place) {
    l < |s.loops| && s.loops[l] == p
  }

  predicate Enabled(s: State, step: Step) {
    match step
    case Open => s.node.status == StatePrepared
    case Activate => s.node.status == StateOpened
    case Throttle => !s.throttled
    case Unthrottle => true
    case Look => s.activating > 0
    case Add => s.wanted > 0
    case Start => s.queued > 0
    case RunOn => s.running > 0
    case RunLast => s.running > 0
    case End => s.ending > 0
    case EnterAt(l) => At(s, l, Enter)
    case ProposeAt(l) => At(s, l, Propose)
    case CommitAt(l) => At(s, l, Commit)
    case LeaveAt(l) => At(s, l, Leave)
  }

  /** A proposal is queued if it gets a slot and dropped if not. */
  function Proposed(s: State): State {
    var o := TryToBeginScheduling(s.node);
    s.(node := o.node, queued := if o.goOn then s.queued + 1 else s.queued)
  }

  function Joined(s: State, o: Outcome): State {
    s.(node := o.node, loops := if o.goOn then s.loops + [Enter] else s.loops)
  }

  function Moved(s: State, l: nat, o: Outcome): State
    requires l < |s.loops|
  {
    s.(node := o.node, loops := if o.goOn then s.loops[l := Propose] else s.loops[..l] + s.loops[l + 1..])
  }

  function Do(s: State, step: Step): State
    requires Enabled(s, step)
  {
    match step
    case Open => s.(node := s.node.(status := StateOpened))
    case Activate => s.(node := s.node.(status := StateActive), activating := s.activating + 1)
    case Throttle => s.(throttled := true)
    case Unthrottle => s.(throttled := false, wanted := if s.node.status == StateActive then s.wanted + 1 else s.wanted)
    case Look => s.(activating := s.activating - 1, wanted := if s.throttled then s.wanted else s.wanted + 1)
    case Add => Proposed(s.(wanted := s.wanted - 1))
    case Start => s.(queued := s.queued - 1, running := s.running + 1)
    case RunOn => s.(running := s.running - 1, ending := s.ending + 1)
    case RunLast => s.(running := s.running - 1, ending := s.ending + 1, node := s.node.(status := StateClosed))
    case End => Joined(s.(ending := s.ending - 1), EndScheduling(s.node))
    case EnterAt(l) => Moved(s, l, EnterLoop(s.node))
    case ProposeAt(l) => s.(loops := s.loops[l := if s.throttled then Leave else Commit])
    case CommitAt(l) => Proposed(s.(loops := s.loops[l := Leave]))
    case LeaveAt(l) => Moved(s, l, LeaveLoop(s.node))
  }

  /** The CHECKs of the code: no invocation starts on a closed node, the node is closed once, and no
      slot is given back twice. */
  predicate Safe(s: State, step: Step) {
    match step
    case Start => s.node.status != StateClosed
    case RunLast => s.node.status != StateClosed
    case End => EndScheduling(s.node).node.inFlight >= 0
    case _ => true
  }

  predicate Init(s: State) {
    s == State(Node(StatePrepared, Idle, 0, 1), s.throttled, [], 0, 0, 0, 0, 0)
  }

  /** Someone will yet propose the node, or give back its slot and then propose it. */
  predicate ProposalComing(s: State) {
    || s.activating > 0 || s.wanted > 0 || s.node.inFlight > 0
    || (s.loops != [] && (s.loops[0] != Leave || s.node.scheduling == SchedulingPending))
  }

  predicate Inv(s: State) {
    var n := s.node;
    && n.maxInFlight == 1 && 0 <= n.inFlight <= 1
    && |s.loops| == (if n.scheduling == Idle then 0 else 1)
    && match n.status
       case StateActive => n.inFlight == s.queued + s.running + s.ending && (s.throttled || ProposalComing(s))
       case StateClosed => n.inFlight == 1 && s.queued == s.running == 0
       case _ => n.inFlight == s.queued == s.running == s.ending == s.wanted == s.activating == 0 && s.loops == []
  }

  lemma {:induction false} StepKeepsInv(s: State, step: Step)
    requires Inv(s) && Enabled(s, step)
    ensures Safe(s, step) && Inv(Do(s, step))
  {}

  ghost predicate IsRun(states: seq<State>, steps: seq<Step>) {
    && |states| == |steps| + 1 && Init(states[0])
    && forall i :: 0 <= i < |steps| ==> Enabled(states[i], steps[i]) && states[i + 1] == Do(states[i], steps[i])
  }

  lemma {:induction false} RunKeepsInv(states: seq<State>, steps: seq<Step>, i: nat)
    requires IsRun(states, steps) && i < |states|
    ensures Inv(states[i])
  {
    if i > 0 {
      RunKeepsInv(states, steps, i - 1);
      StepKeepsInv(states[i - 1], steps[i - 1]);
    }
  }

  lemma {:induction false} ClosedStays(states: seq<State>, steps: seq<Step>, i: nat, j: nat)
    requires IsRun(states, steps) && i <= j < |states| && states[i].node.status == StateClosed
    ensures states[j].node.status == StateClosed
  {
    if i < j { ClosedStays(states, steps, i, j - 1); }
  }

  /** Whatever threads propose, at most one invocation of a source is queued, running or ending while
      it is active, at most one thread schedules it, and no step breaks a check. */
  lemma {:induction false} OneAtATime(states: seq<State>, steps: seq<Step>, i: nat)
    requires IsRun(states, steps) && i < |states|
    ensures var s := states[i];
            && |s.loops| == (if s.node.scheduling == Idle then 0 else 1)
            && (s.node.status == StateActive ==> s.queued + s.running + s.ending == s.node.inFlight <= 1)
            && forall step :: Enabled(s, step) ==> Safe(s, step)
  {
    RunKeepsInv(states, steps, i);
    forall step | Enabled(states[i], step) ensures Safe(states[i], step) { StepKeepsInv(states[i], step); }
  }

  /** An active source that is not throttled never stalls: it is queued or running, or some thread
      will yet propose it. */
  lemma {:induction false} UnthrottledSourceGoesOn(states: seq<State>, steps: seq<Step>, i: nat)
    requires IsRun(states, steps) && i < |states|
    requires states[i].node.status == StateActive && !states[i].throttled
    ensures var s := states[i];
            s.activating > 0 || s.wanted > 0 || s.queued > 0 || s.running > 0 || s.ending > 0 || s.loops != []
  {
    RunKeepsInv(states, steps, i);
  }

  /** A closed source keeps the slot of the invocation that closed it for the rest of the run, so
      that no later proposal, by its own loop or by an unthrottling thread, is ever queued or started. */
  lemma {:induction false} NothingAfterClosing(states: seq<State>, steps: seq<Step>, i: nat, j: nat)
    requires IsRun(states, steps) && i <= j < |states| && states[i].node.status == StateClosed
    ensures states[j].node.status == StateClosed && states[j].node.inFlight == 1
    ensures states[j].queued == states[j].running == 0 && !Enabled(states[j], Start)
  {
    ClosedStays(states, steps, i, j);
    RunKeepsInv(states, steps, j);
  }
}
