/** The scheduler's life cycle: starting, pausing, resuming and cancelling a run, handling idleness
    and activating layers of sources. All of it happens under one mutex, except that the thread
    handling idleness releases it while it activates sources or unthrottles; and each queue's
    running count has a mutex of its own. */
module Schedulers {
  datatype RunState = NotStarted | Running | Paused | Cancelling | Terminated

  /** Who holds the state mutex. A `Switching` thread is setting the queues running or not, one after
      the other; `k` is the next queue and `after` what follows. */
  datatype Lock = Free | Idling | Switching(from: int, to: int, k: nat, after: Then)

  datatype Then = ThenRelease | ThenHandleIdle | ThenTerminate | ThenCancelling

  /** Where the one thread inside the idle handler is. Only at `Top` does it hold the mutex. */
  datatype Handler = NoHandler | Top | Down(k: nat) | Activating | Up(k: nat) | Unthrottling | Back(again: bool)

  /** `counts` are the queues' running counts; `active` and `waiting` the numbers of active and of not
      yet active sources; `quits` counts terminations. */
  datatype State = State(state: RunState, lock: Lock, handler: Handler, handling: nat, nonIdle: int, counts: seq<int>,
                         active: nat, waiting: nat, inputsClosed: bool, hasError: bool, quits: nat)

  datatype Step =
    | Start | Pause | Resume | Cancel
    | IdleChanged(idle: bool)            // a queue became idle or active
    | CloseInputs                        // the last graph input stream is closed
    | Poke                               // a packet was added to a graph input stream
    | Fail                               // some node reports an error
    | SwitchQueue                        // the switching thread sets the next queue
    | EndSwitch
    | Handle(closed: nat, activated: nat, blocked: bool, throttled: bool)  // one round of the idle handler
    | Proceed(did: bool)                 // the idle handler goes on without the mutex
    | Relock                             // and takes the mutex back

  function Runs(state: RunState): int {
    if state == Running || state == Cancelling then 1 else 0
  }

  predicate Enabled(s: State, step: Step) {
    match step
    case Start => s.lock == Free && s.state == NotStarted
    case Pause => s.lock == Free
    case Resume => s.lock == Free
    case Cancel => s.lock == Free
    case IdleChanged(_) => s.lock == Free
    case CloseInputs => s.lock == Free
    case Poke => s.lock == Free
    case Fail => true
    case SwitchQueue => s.lock.Switching? && s.lock.k < |s.counts|
    case EndSwitch => s.lock.Switching? && s.lock.k == |s.counts|
    case Handle(closed, activated, _, _) =>
      s.lock == Idling && s.handler == Top && closed <= s.active && activated <= s.waiting
          && (s.waiting > 0 ==> activated > 0)
    case Proceed(_) => s.handler.Down? || s.handler.Activating? || s.handler.Up? || s.handler.Unthrottling?
    case Relock => s.lock == Free && s.handler.Back?
  }

  /** The entry of the idle handler, with the mutex held. */
  function HandleIdle(s: State): State {
    if s.handling > 0 then s.(handling := s.handling + 1, lock := Free)
    else s.(handling := 1, handler := Top, lock := Idling)
  }

  function Leave(s: State): State {
    s.(handling := 0, handler := NoHandler, lock := Free)
  }

  function Switch(s: State, from: int, to: int, after: Then): State {
    s.(lock := Switching(from, to, 0, after))
  }

  predicate MayQuit(s: State) {
    s.hasError || (s.active == 0 && s.waiting == 0 && s.inputsClosed)
  }

  /** One round of the handler's loop. `closed` sources are removed from the active ones; `activated`
      are in the next layer, which is `blocked` if a lower source is not opened yet. */
  function HandleRound(s: State, closed: nat, activated: nat, blocked: bool, throttled: bool): State
    requires closed <= s.active && activated <= s.waiting
  {
    if s.nonIdle != 0 || Runs(s.state) == 0 then Leave(s) else
    var s' := s.(active := s.active - closed);
    if MayQuit(s') then Switch(s'.(quits := s'.quits + 1), 1, 0, ThenTerminate)
    else if s'.active == 0 && s'.waiting > 0 then
      if blocked then s'.(hasError := s'.inputsClosed)
      else s'.(active := activated, waiting := s'.waiting - activated, handler := Down(0), lock := Free)
    else if s'.active > 0 || throttled then s'.(handler := Unthrottling, lock := Free)
    else NothingDone(s')
  }

  /** The handler goes round again if it was called meanwhile. */
  function NothingDone(s: State): State {
    if s.handling > 1 then s.(handling := 1, handler := Top, lock := Idling) else Leave(s)
  }

  function Proceeded(s: State, did: bool): State
    requires Enabled(s, Proceed(did))
  {
    match s.handler
    case Down(k) =>
      if k < |s.counts| then s.(counts := s.counts[k := s.counts[k] - 1], handler := Down(k + 1))
      else s.(handler := Activating)
    case Activating => s.(handler := Up(0))
    case Up(k) =>
      if k < |s.counts| then s.(counts := s.counts[k := s.counts[k] + 1], handler := Up(k + 1))
      else s.(handler := Back(true))
    case _ => s.(handler := Back(did))
  }

  function Do(s: State, step: Step): State
    requires Enabled(s, step)
  {
    match step
    case Start => Switch(s.(state := Running), 0, 1, ThenHandleIdle)
    case Pause => if s.state != Running then s else Switch(s.(state := Paused), 1, 0, ThenRelease)
    case Resume => if s.state != Paused then s else Switch(s.(state := Running), 0, 1, ThenHandleIdle)
    case Cancel =>
      if s.state == Running then HandleIdle(s.(hasError := true, state := Cancelling))
      else if s.state == Paused then Switch(s.(hasError := true), 0, 1, ThenCancelling)
      else s
    case IdleChanged(idle) =>
      var s' := s.(nonIdle := s.nonIdle + if idle then -1 else 1);
      if s'.nonIdle == 0 then HandleIdle(s') else s'
    case CloseInputs => HandleIdle(s.(inputsClosed := true))
    case Poke => if s.state == Terminated then s else HandleIdle(s)
    case Fail => s.(hasError := true)
    case SwitchQueue =>
      var k := s.lock.k;
      s.(counts := s.counts[k := s.counts[k] + s.lock.to - s.lock.from], lock := s.lock.(k := k + 1))
    case EndSwitch =>
      match s.lock.after {
        case ThenRelease => s.(lock := Free)
        case ThenHandleIdle => HandleIdle(s)
        case ThenTerminate => Leave(s.(state := Terminated))
        case ThenCancelling => HandleIdle(s.(state := Cancelling))
      }
    case Handle(closed, activated, blocked, throttled) => HandleRound(s, closed, activated, blocked, throttled)
    case Proceed(did) => Proceeded(s, did)
    case Relock => if s.handler.again then s.(handler := Top, lock := Idling) else NothingDone(s)
  }

  predicate Init(s: State) {
    && s.state == NotStarted && s.lock == Free && s.handler == NoHandler && s.handling == 0 && s.quits == 0
        && !s.hasError
    && forall q :: 0 <= q < |s.counts| ==> s.counts[q] == 0
  }

  // ---------- the invariant ----------

  /** The running count that a queue owes to the state of the run. */
  function Base(s: State, q: nat): int {
    if s.lock.Switching? then (if q < s.lock.k then s.lock.to else s.lock.from) else Runs(s.state)
  }

  /** Source activation has stopped the queue and not set it running again. */
  predicate Stopped(h: Handler, q: nat) {
    match h
    case Down(k) => q < k
    case Activating => true
    case Up(k) => q >= k
    case _ => false
  }

  predicate CountsInv(s: State) {
    forall q :: 0 <= q < |s.counts| ==> s.counts[q] == Base(s, q) - if Stopped(s.handler, q) then 1 else 0
  }

  predicate SwitchInv(s: State) {
    s.lock.Switching? ==>
      && s.lock.k <= |s.counts|
      && match s.lock.after
         case ThenRelease => s.state == Paused && s.lock.from == 1 && s.lock.to == 0
         case ThenHandleIdle => s.state == Running && s.lock.from == 0 && s.lock.to == 1
         case ThenCancelling => s.state == Paused && s.lock.from == 0 && s.lock.to == 1 && s.hasError
         case ThenTerminate => Runs(s.state) == 1 && s.lock.from == 1 && s.lock.to == 0 && s.nonIdle == 0
  }

  predicate Terminating(s: State) {
    s.lock.Switching? && s.lock.after == ThenTerminate
  }

  predicate HandlerInv(s: State) {
    && (s.handler != NoHandler <==> s.handling > 0)
    && (s.handler == Top <==> s.lock == Idling || Terminating(s))
    && s.quits == (if s.state == Terminated || Terminating(s) then 1 else 0)
    && (s.state == Cancelling ==> s.hasError)
    && (s.state == Cancelling && s.lock == Free && s.handler == NoHandler ==> s.nonIdle != 0)
    && (s.state == Cancelling && s.handler != NoHandler && s.handler != Top ==> s.handling > 1)
  }

  predicate Inv(s: State) {
    CountsInv(s) && SwitchInv(s) && HandlerInv(s)
  }

  lemma {:induction false} SwitchQueueKeepsInv(s: State)
    requires Inv(s) && Enabled(s, SwitchQueue)
    ensures Inv(Do(s, SwitchQueue))
  {}

  lemma {:induction false} RoundKeepsInv(s: State, step: Step)
    requires Inv(s) && Enabled(s, step) && step.Handle?
    ensures Inv(Do(s, step))
  {}

  lemma {:induction false} ProceedKeepsInv(s: State, did: bool)
    requires Inv(s) && Enabled(s, Proceed(did))
    ensures Inv(Do(s, Proceed(did)))
  {
    var s' := Do(s, Proceed(did));
    forall q: nat | q < |s.counts|
      ensures s'.counts[q] == Base(s', q) - if Stopped(s'.handler, q) then 1 else 0
    {
      ProceedKeepsCount(s, did, q);
    }
    ProceedKeepsRest(s, did);
  }

  lemma {:induction false} ProceedKeepsRest(s: State, did: bool)
    requires HandlerInv(s) && SwitchInv(s) && Enabled(s, Proceed(did))
    ensures HandlerInv(Do(s, Proceed(did))) && SwitchInv(Do(s, Proceed(did)))
    ensures |Do(s, Proceed(did)).counts| == |s.counts|
  {}

  lemma {:induction false} ProceedKeepsCount(s: State, did: bool, q: nat)
    requires Enabled(s, Proceed(did)) && q < |s.counts|
    requires s.counts[q] == Base(s, q) - if Stopped(s.handler, q) then 1 else 0
    ensures var s' := Do(s, Proceed(did));
            q < |s'.counts| && s'.counts[q] == Base(s', q) - if Stopped(s'.handler, q) then 1 else 0
  {
    assert Do(s, Proceed(did)) == Proceeded(s, did);
    assert Base(Proceeded(s, did), q) == Base(s, q);
  }

  lemma {:induction false} RelockKeepsInv(s: State)
    requires Inv(s) && Enabled(s, Relock)
    ensures Inv(Do(s, Relock))
  {}

  lemma {:induction false} EndSwitchKeepsInv(s: State)
    requires Inv(s) && Enabled(s, EndSwitch)
    ensures Inv(Do(s, EndSwitch))
  {}

  lemma {:induction false} RequestKeepsInv(s: State, step: Step)
    requires Inv(s) && Enabled(s, step) && !step.Handle? && !step.Proceed? && !step.Relock? && !step.SwitchQueue?
        && !step.EndSwitch?
    ensures Inv(Do(s, step))
  {}

  lemma {:induction false} StepKeepsInv(s: State, step: Step)
    requires Inv(s) && Enabled(s, step)
    ensures Inv(Do(s, step))
  {
    match step
    case SwitchQueue => SwitchQueueKeepsInv(s);
    case EndSwitch => EndSwitchKeepsInv(s);
    case Handle(_, _, _, _) => RoundKeepsInv(s, step);
    case Proceed(did) => ProceedKeepsInv(s, did);
    case Relock => RelockKeepsInv(s);
    case _ => RequestKeepsInv(s, step);
  }

  // ---------- every run ----------

  ghost predicate IsRun(states: seq<State>, steps: seq<Step>) {
    && |states| == |steps| + 1 && Init(states[0])
    && forall i :: 0 <= i < |steps| ==> Enabled(states[i], steps[i]) && states[i + 1] == Do(states[i], steps[i])
  }

  lemma {:induction false} RunKeepsInv(states: seq<State>, steps: seq<Step>, i: nat)
    requires IsRun(states, steps) && i < |states|
    ensures Inv(states[i])
  {
    if i > 0 {
      RunKeepsInv(states, steps, i - 1);
      StepKeepsInv(states[i - 1], steps[i - 1]);
    }
  }

  /** Whenever no thread is switching the queues, each queue's running count is one while the run is
      running or being cancelled and zero otherwise, less one while source activation has it stopped;
      and it never exceeds one. */
  lemma {:induction false} RunningCounts(states: seq<State>, steps: seq<Step>, i: nat, q: nat)
    requires IsRun(states, steps) && i < |states| && q < |states[i].counts|
    ensures var s := states[i];
            && (!s.lock.Switching? ==> s.counts[q] == Runs(s.state) - if Stopped(s.handler, q) then 1 else 0)
            && s.counts[q] <= 1
  {
    RunKeepsInv(states, steps, i);
  }

  lemma {:induction false} QuitFindsIdle(s: State, step: Step)
    requires Enabled(s, step) && Do(s, step).quits > s.quits
    ensures s.nonIdle == 0 && Runs(s.state) == 1 && s.handler == Top && MayQuit(Do(s, step))
  {}

  lemma {:induction false} TerminationFindsZero(s: State, step: Step)
    requires Inv(s) && Enabled(s, step) && s.state != Terminated && Do(s, step).state == Terminated
    ensures Do(s, step).nonIdle == 0
  {}

  /** The run is terminated at most once, by the one thread in the idle handler, while it runs or is
      being cancelled and no queue is active; and only after an error or when no source is left. */
  lemma {:induction false} QuitsOnceWhenIdle(states: seq<State>, steps: seq<Step>, i: nat)
    requires IsRun(states, steps) && i < |states|
    ensures states[i].quits <= 1
    ensures i < |steps| && states[i + 1].quits > states[i].quits ==>
              states[i].nonIdle == 0 && Runs(states[i].state) == 1 && states[i].handler == Top && MayQuit(states[i + 1])
    ensures i < |steps| && states[i + 1].state == Terminated && states[i].state != Terminated ==>
              states[i + 1].nonIdle == 0
  {
    RunKeepsInv(states, steps, i);
    if i < |steps| {
      assert states[i + 1] == Do(states[i], steps[i]);
      if states[i + 1].quits > states[i].quits { QuitFindsIdle(states[i], steps[i]); }
      if states[i].state != Terminated && states[i + 1].state == Terminated {
        TerminationFindsZero(states[i], steps[i]);
      }
    }
  }

  /** A cancelled run is never left idle: while nobody holds the mutex or handles idleness, some queue
      is still active, and its becoming idle will end the run. */
  lemma {:induction false} CancelledRunGoesOn(states: seq<State>, steps: seq<Step>, i: nat)
    requires IsRun(states, steps) && i < |states|
    requires states[i].state == Cancelling && states[i].lock == Free && states[i].handler == NoHandler
    ensures states[i].nonIdle != 0
  {
    RunKeepsInv(states, steps, i);
  }
}

/** The scheduler object: its sections under the state mutex, over the objects of its queues. */
module SchedulerObjects {
  import Q = SchedulerQueues
  import opened SchedulerQueueObjects
  import opened Schedulers

  class Scheduler {
    const queues: seq<SchedulerQueue>
    var state: RunState
    var handlingIdle: nat
    var nonIdleQueueCount: int
    var hasError: bool
    var stopping: bool
    var graphInputStreamsClosed: bool
    var throttledGraphInputStreamCount: int

    ghost predicate Valid() {
      forall i, j :: 0 <= i < j < |queues| ==> queues[i] != queues[j]
    }

    constructor (queues: seq<SchedulerQueue>)
      requires forall i, j :: 0 <= i < j < |queues| ==> queues[i] != queues[j]
      ensures Valid() && this.queues == queues && state == NotStarted && handlingIdle == 0 && nonIdleQueueCount == 0
      ensures !hasError && !stopping && !graphInputStreamsClosed && throttledGraphInputStreamCount == 0
    {
      this.queues := queues;
      state, handlingIdle, nonIdleQueueCount := NotStarted, 0, 0;
      hasError, stopping, graphInputStreamsClosed, throttledGraphInputStreamCount := false, false, false, 0;
    }

    /** Prepares a run; `closed` says whether the graph has no open graph input stream. */
    method Reset(closed: bool)
      requires Valid()
      modifies this`state, this`hasError, this`stopping, this`graphInputStreamsClosed,
               this`throttledGraphInputStreamCount, queues
      ensures state == NotStarted && !hasError && !stopping
      ensures graphInputStreamsClosed == closed && throttledGraphInputStreamCount == 0
      ensures forall i :: 0 <= i < |queues| ==> queues[i].Contents() == Q.Restarted(old(queues[i].Contents()))
    {
      state := NotStarted;
      graphInputStreamsClosed := closed;
      throttledGraphInputStreamCount := 0;
      var k := 0;
      while k < |queues|
        invariant k <= |queues|
        invariant forall i :: 0 <= i < k ==> queues[i].Contents() == Q.Restarted(old(queues[i].Contents()))
        invariant forall i :: k <= i < |queues| ==> queues[i].Contents() == old(queues[i].Contents())
        invariant state == NotStarted && graphInputStreamsClosed == closed && throttledGraphInputStreamCount == 0
      {
        queues[k].Reset();
        k := k + 1;
      }
      stopping, hasError := false, false;
    }

    method SetQueuesRunning(running: bool)
      requires Valid()
      modifies queues
      ensures forall i :: 0 <= i < |queues| ==> queues[i].Contents() == Q.SetRunning(old(queues[i].Contents()), running)
    {
      var k := 0;
      while k < |queues|
        invariant k <= |queues|
        invariant forall i :: 0 <= i < k ==> queues[i].Contents() == Q.SetRunning(old(queues[i].Contents()), running)
        invariant forall i :: k <= i < |queues| ==> queues[i].Contents() == old(queues[i].Contents())
      {
        queues[k].SetRunning(running);
        k := k + 1;
      }
    }

    /** Queues change by the difference of what the old and the new state of the run demand. */
    ghost predicate Switched(i: nat, before: Q.Queue, from: RunState, to: RunState)
      requires i < |queues|
      reads queues[i]
    {
      queues[i].Contents() == before.(running := before.running + Runs(to) - Runs(from))
    }

    /** The locked part of `SubmitWaitingTasksToExecutor` for every queue: how many tasks each submits. */
    method SubmitWaitingTasksOnQueues() returns (tasks: seq<int>)
      requires Valid()
      modifies queues
      ensures |tasks| == |queues|
      ensures forall i :: 0 <= i < |queues| ==>
                && queues[i].Contents() == Q.Collect(old(queues[i].Contents()))
                && tasks[i] == Q.Collected(old(queues[i].Contents()))
    {
      tasks := [];
      var k := 0;
      while k < |queues|
        invariant k <= |queues| && |tasks| == k
        invariant forall i :: 0 <= i < k ==>
                    && queues[i].Contents() == Q.Collect(old(queues[i].Contents()))
                    && tasks[i] == Q.Collected(old(queues[i].Contents()))
        invariant forall i :: k <= i < |queues| ==> queues[i].Contents() == old(queues[i].Contents())
      {
        var n := queues[k].CollectWaitingTasks();
        tasks := tasks + [n];
        k := k + 1;
      }
    }

    /** Up to the loop of the idle handler, like `Resume` and `Cancel`: the result says whether this
        thread goes on into it. After it each of them submits the waiting tasks. */
    method Start() returns (handle: bool)
      requires Valid() && state == NotStarted
      modifies this`state, this`handlingIdle, queues
      ensures state == Running
      ensures forall i :: 0 <= i < |queues| ==> Switched(i, old(queues[i].Contents()), NotStarted, Running)
      ensures handlingIdle == old(handlingIdle) + 1 && handle == (old(handlingIdle) == 0)
    {
      state := Running;
      SetQueuesRunning(true);
      handle := EnterHandleIdle();
    }

    method Pause()
      requires Valid()
      modifies this`state, queues
      ensures state == if old(state) == Running then Paused else old(state)
      ensures forall i :: 0 <= i < |queues| ==> Switched(i, old(queues[i].Contents()), old(state), state)
    {
      if state != Running { return; }
      state := Paused;
      SetQueuesRunning(false);
    }

    method Resume() returns (handle: bool)
      requires Valid()
      modifies this`state, this`handlingIdle, queues
      ensures state == if old(state) == Paused then Running else old(state)
      ensures forall i :: 0 <= i < |queues| ==> Switched(i, old(queues[i].Contents()), old(state), state)
      ensures handlingIdle == old(handlingIdle) + if old(state) == Paused then 1 else 0
      ensures handle <==> old(state) == Paused && old(handlingIdle) == 0
    {
      if state != Paused { return false; }
      state := Running;
      SetQueuesRunning(true);
      handle := EnterHandleIdle();
    }

    method Cancel() returns (handle: bool)
      requires Valid()
      modifies this`state, this`hasError, this`handlingIdle, queues
      ensures var cancels := old(state) == Running || old(state) == Paused;
              && state == (if cancels then Cancelling else old(state))
              && hasError == (cancels || old(hasError))
              && handlingIdle == old(handlingIdle) + (if cancels then 1 else 0)
              && (handle <==> cancels && old(handlingIdle) == 0)
      ensures forall i :: 0 <= i < |queues| ==> Switched(i, old(queues[i].Contents()), old(state), state)
    {
      if state != Running && state != Paused { return false; }
      hasError := true;
      if state == Paused { SetQueuesRunning(true); }
      state := Cancelling;
      handle := EnterHandleIdle();
    }

    method ClosedAllGraphInputStreams() returns (handle: bool)
      modifies this`graphInputStreamsClosed, this`handlingIdle
      ensures graphInputStreamsClosed && handlingIdle == old(handlingIdle) + 1 && handle == (old(handlingIdle) == 0)
    {
      graphInputStreamsClosed := true;
      handle := EnterHandleIdle();
    }

    /** Only the idle handler calls this, with no queue active. */
    method Quit()
      requires Valid() && Runs(state) == 1 && nonIdleQueueCount == 0
      modifies this`state, queues
      ensures state == Terminated
      ensures forall i :: 0 <= i < |queues| ==> Switched(i, old(queues[i].Contents()), old(state), Terminated)
    {
      SetQueuesRunning(false);
      state := Terminated;
    }

    /** Returns whether the caller goes on into the idle handler's loop. */
    method QueueIdleStateChanged(idle: bool) returns (handle: bool)
      modifies this`nonIdleQueueCount, this`handlingIdle
      ensures nonIdleQueueCount == old(nonIdleQueueCount) + if idle then -1 else 1
      ensures handlingIdle == old(handlingIdle) + if nonIdleQueueCount == 0 then 1 else 0
      ensures handle <==> nonIdleQueueCount == 0 && old(handlingIdle) == 0
    {
      nonIdleQueueCount := nonIdleQueueCount + if idle then -1 else 1;
      handle := false;
      if nonIdleQueueCount == 0 { handle := EnterHandleIdle(); }
    }

    method EnterHandleIdle() returns (handle: bool)
      modifies this`handlingIdle
      ensures handlingIdle == old(handlingIdle) + 1 && handle == (old(handlingIdle) == 0)
    {
      handlingIdle := handlingIdle + 1;
      handle := handlingIdle <= 1;
    }
  }
}
