/** Two runs that the scheduler terminates although a queue is not idle. */
module EarlyTerminations {
  import opened SchedulerItems
  import opened SchedulerQueues
  import opened SchedulerRuns
  import S = Schedulers
  import Q = QueueRuns

  ghost predicate Reachable(s: State, guarded: bool) {
    exists states: seq<State>, steps: seq<Step> ::
      IsRun(states, steps) && (guarded ==> IsGuardedRun(states, steps)) && states[|steps|] == s
  }

  predicate Leads(s: State, step: Step, next: State, guarded: bool) {
    Goes(s, step, next) && (guarded ==> Guarded(s, step))
  }

  lemma {:induction false} Extended(states: seq<State>, steps: seq<Step>, step: Step, next: State, guarded: bool)
    requires IsRun(states, steps) && (guarded ==> IsGuardedRun(states, steps))
    requires Leads(states[|steps|], step, next, guarded)
    ensures Reachable(next, guarded)
  {
    var states', steps' := states + [next], steps + [step];
    forall i | 0 <= i < |steps'| ensures Leads(states'[i], steps'[i], states'[i + 1], guarded) {
      if i < |steps| { assert Goes(states[i], steps[i], states[i + 1]); }
    }
    assert IsRun(states', steps') && states'[|steps'|] == next;
  }

  lemma {:induction false} Reaches(s: State, step: Step, next: State, guarded: bool)
    requires Reachable(s, guarded) && Leads(s, step, next, guarded)
    ensures Reachable(next, guarded)
  {
    var states: seq<State>, steps: seq<Step> :|
      IsRun(states, steps) && (guarded ==> IsGuardedRun(states, steps)) && states[|steps|] == s;
    assert IsRun(states, steps);
    Extended(states, steps, step, next, guarded);
  }

  lemma {:induction false} ReachesInTwo(s: State, a: Step, t: State, b: Step, u: State, guarded: bool)
    requires Reachable(s, guarded) && Leads(s, a, t, guarded) && Leads(t, b, u, guarded)
    ensures Reachable(u, guarded)
  {
    Reaches(s, a, t, guarded);
    Reaches(t, b, u, guarded);
  }

  lemma {:induction false} StartIsReachable(s: State, guarded: bool)
    requires Init(s)
    ensures Reachable(s, guarded)
  {
    var steps: seq<Step> := [];
    assert IsRun([s], steps) && IsGuardedRun([s], steps) && [s][|steps|] == s;
  }

  /** A scheduler without sources; its idle handler has been called at most once. */
  function Sched(state: S.RunState, lock: S.Lock, handler: S.Handler, nonIdle: int, counts: seq<int>,
                 inputsClosed: bool, quits: nat): S.State
  {
    var handling := if handler == S.NoHandler then 0 else 1;
    S.State(state, lock, handler, handling, nonIdle, counts, 0, 0, inputsClosed, false, quits)
  }

  const HANDLE := Scheduler(S.Handle(0, 0, false, false))

  // ---------- one queue, no pause: an item that is not reported in time ----------

  function Single(state: S.RunState, lock: S.Lock, handler: S.Handler, count: int, closed: bool, quits: nat,
                  q: Q.State): State
  {
    State(Sched(state, lock, handler, 0, [count], closed, quits), [q])
  }

  lemma {:induction false} StartSwitches(q0: Q.State, q1: Q.State)
    requires q0.q.running == 0 && q1 == Q.Do(q0, Q.Run(true))
    ensures var s0 := Single(S.NotStarted, S.Free, S.NoHandler, 0, false, 0, q0);
            var s1 := Single(S.Running, S.Switching(0, 1, 0, S.ThenHandleIdle), S.NoHandler, 0, false, 0, q0);
            var s2 := Single(S.Running, S.Switching(0, 1, 1, S.ThenHandleIdle), S.NoHandler, 1, false, 0, q1);
            Leads(s0, Scheduler(S.Start), s1, true) && Leads(s1, Scheduler(S.SwitchQueue), s2, true)
  {}

  lemma {:induction false} StartEnds(q1: Q.State)
    requires q1.q.running == 1
    ensures var s2 := Single(S.Running, S.Switching(0, 1, 1, S.ThenHandleIdle), S.NoHandler, 1, false, 0, q1);
            var s3 := Single(S.Running, S.Idling, S.Top, 1, false, 0, q1);
            var s4 := Single(S.Running, S.Free, S.NoHandler, 1, false, 0, q1);
            Leads(s2, Scheduler(S.EndSwitch), s3, true) && Leads(s3, HANDLE, s4, true)
  {}

  lemma {:induction false} CloseQuits(q2: Q.State)
    requires q2.q.running == 1
    ensures var s5 := Single(S.Running, S.Free, S.NoHandler, 1, false, 0, q2);
            var s6 := Single(S.Running, S.Idling, S.Top, 1, true, 0, q2);
            var s7 := Single(S.Running, S.Switching(1, 0, 0, S.ThenTerminate), S.Top, 1, true, 1, q2);
            Leads(s5, Scheduler(S.CloseInputs), s6, true) && Leads(s6, HANDLE, s7, true)
  {}

  lemma {:induction false} QuitEnds(q2: Q.State, q3: Q.State)
    requires q2.q.running == 1 && q3 == Q.Do(q2, Q.Run(false))
    ensures var s7 := Single(S.Running, S.Switching(1, 0, 0, S.ThenTerminate), S.Top, 1, true, 1, q2);
            var s8 := Single(S.Running, S.Switching(1, 0, 1, S.ThenTerminate), S.Top, 0, true, 1, q3);
            var s9 := Single(S.Terminated, S.Free, S.NoHandler, 0, true, 1, q3);
            Leads(s7, Scheduler(S.SwitchQueue), s8, true) && Leads(s8, Scheduler(S.EndSwitch), s9, true)
  {}

  lemma {:induction false} PushGoes(x: Item, q1: Q.State, q2: Q.State)
    requires q2 == Q.Do(q1, Q.Push(x)) && q2.q.running == 1 && Q.Guarded(q1, Q.Push(x))
    ensures var s4 := Single(S.Running, S.Free, S.NoHandler, 1, false, 0, q1);
            var s5 := Single(S.Running, S.Free, S.NoHandler, 1, false, 0, q2);
            Leads(s4, OfQueue(0, Q.Push(x)), s5, true)
  {}

  lemma {:induction false} ItemStays(x: Item, q1: Q.State, q2: Q.State, q3: Q.State)
    requires q1 == Q.Do(Q.START, Q.Run(true)) && q2 == Q.Do(q1, Q.Push(x)) && q3 == Q.Do(q2, Q.Run(false))
    ensures q1.q.running == q2.q.running == 1 && !IsIdle(q3.q) && Q.Guarded(q1, Q.Push(x))
  {
    assert x in q3.q.items;
  }

  lemma {:induction false} RunningIsReachable(q1: Q.State)
    requires q1 == Q.Do(Q.START, Q.Run(true)) && q1.q.running == 1
    ensures Reachable(Single(S.Running, S.Free, S.NoHandler, 1, false, 0, q1), true)
  {
    var s0 := Single(S.NotStarted, S.Free, S.NoHandler, 0, false, 0, Q.START);
    var s1 := Single(S.Running, S.Switching(0, 1, 0, S.ThenHandleIdle), S.NoHandler, 0, false, 0, Q.START);
    var s2 := Single(S.Running, S.Switching(0, 1, 1, S.ThenHandleIdle), S.NoHandler, 1, false, 0, q1);
    var s3 := Single(S.Running, S.Idling, S.Top, 1, false, 0, q1);
    var s4 := Single(S.Running, S.Free, S.NoHandler, 1, false, 0, q1);
    StartIsReachable(s0, true);
    StartSwitches(Q.START, q1);
    StartEnds(q1);
    ReachesInTwo(s0, Scheduler(S.Start), s1, Scheduler(S.SwitchQueue), s2, true);
    ReachesInTwo(s2, Scheduler(S.EndSwitch), s3, HANDLE, s4, true);
  }

  lemma {:induction false} AddThenClose(x: Item, q1: Q.State, q2: Q.State, q3: Q.State)
    requires q1 == Q.Do(Q.START, Q.Run(true)) && q2 == Q.Do(q1, Q.Push(x)) && q3 == Q.Do(q2, Q.Run(false))
    requires q1.q.running == q2.q.running == 1 && Q.Guarded(q1, Q.Push(x))
    ensures Reachable(Single(S.Running, S.Switching(1, 0, 1, S.ThenTerminate), S.Top, 0, true, 1, q3), true)
  {
    var s4 := Single(S.Running, S.Free, S.NoHandler, 1, false, 0, q1);
    var s5 := Single(S.Running, S.Free, S.NoHandler, 1, false, 0, q2);
    var s6 := Single(S.Running, S.Idling, S.Top, 1, true, 0, q2);
    var s7 := Single(S.Running, S.Switching(1, 0, 0, S.ThenTerminate), S.Top, 1, true, 1, q2);
    var s8 := Single(S.Running, S.Switching(1, 0, 1, S.ThenTerminate), S.Top, 0, true, 1, q3);
    RunningIsReachable(q1);
    PushGoes(x, q1, q2);
    CloseQuits(q2);
    QuitEnds(q2, q3);
    ReachesInTwo(s4, OfQueue(0, Q.Push(x)), s5, Scheduler(S.CloseInputs), s6, true);
    ReachesInTwo(s6, HANDLE, s7, Scheduler(S.SwitchQueue), s8, true);
  }

  /** The last packet source is closed after an item was added and before it is reported: the run is
      terminated although the queue is not idle. The run has no pause, and it is guarded. */
  lemma {:induction false} TerminationCanComeTooEarly(x: Item) returns (s: State, step: Step)
    ensures Reachable(s, true) && SameSize(s) && Enabled(s, step) && Guarded(s, step)
    ensures s.scheduler.state == S.Running && Do(s, step).scheduler.state == S.Terminated
    ensures |Do(s, step).queues| == 1 && !IsIdle(Do(s, step).queues[0].q)
  {
    var q1 := Q.Do(Q.START, Q.Run(true));
    var q2 := Q.Do(q1, Q.Push(x));
    var q3 := Q.Do(q2, Q.Run(false));
    ItemStays(x, q1, q2, q3);
    AddThenClose(x, q1, q2, q3);
    QuitEnds(q2, q3);
    s := Single(S.Running, S.Switching(1, 0, 1, S.ThenTerminate), S.Top, 0, true, 1, q3);
    step := Scheduler(S.EndSwitch);
  }

  // ---------- two queues and a pause: one queue's silence hides the other's task ----------

  /** Two queues, closed graph inputs and nobody holding the mutex. */
  function Rest(state: S.RunState, count: int, nonIdle: int, a: Q.State, b: Q.State): State {
    State(Sched(state, S.Free, S.NoHandler, nonIdle, [count, count], true, 0), [a, b])
  }

  function Switching(sched: S.State, from: int, to: int, k: nat, after: S.Then, a: Q.State, b: Q.State): State {
    State(sched.(lock := S.Switching(from, to, k, after),
                 counts := [if k > 0 then to else from, if k > 1 then to else from]), [a, b])
  }

  lemma {:induction false} BothSwitch(sched: S.State, from: int, to: int, after: S.Then, a: Q.State, b: Q.State,
                                      a': Q.State, b': Q.State)
    requires (from == 0 && to == 1) || (from == 1 && to == 0)
    requires a.q.running == b.q.running == from && a' == Q.Do(a, Q.Run(to == 1)) && b' == Q.Do(b, Q.Run(to == 1))
    ensures Leads(Switching(sched, from, to, 0, after, a, b), Scheduler(S.SwitchQueue),
                  Switching(sched, from, to, 1, after, a', b), false)
    ensures Leads(Switching(sched, from, to, 1, after, a', b), Scheduler(S.SwitchQueue),
                  Switching(sched, from, to, 2, after, a', b'), false)
  {}

  lemma {:induction false} BothSwitched(sched: S.State, from: int, to: int, after: S.Then, a: Q.State, b: Q.State,
                                        a': Q.State, b': Q.State)
    requires (from == 0 && to == 1) || (from == 1 && to == 0)
    requires a.q.running == b.q.running == from && a' == Q.Do(a, Q.Run(to == 1)) && b' == Q.Do(b, Q.Run(to == 1))
    requires Reachable(Switching(sched, from, to, 0, after, a, b), false)
    ensures Reachable(Switching(sched, from, to, 2, after, a', b'), false)
  {
    BothSwitch(sched, from, to, after, a, b, a', b');
    ReachesInTwo(Switching(sched, from, to, 0, after, a, b), Scheduler(S.SwitchQueue),
                 Switching(sched, from, to, 1, after, a', b), Scheduler(S.SwitchQueue),
                 Switching(sched, from, to, 2, after, a', b'), false);
  }

  /** The run is started or resumed while some queue is active. */
  lemma {:induction false} BothStart(state: S.RunState, nonIdle: int, a: Q.State, b: Q.State, a': Q.State, b': Q.State)
    requires (state == S.NotStarted || state == S.Paused) && nonIdle != 0
    requires Reachable(Rest(state, 0, nonIdle, a, b), false)
    requires a.q.running == b.q.running == 0 && a' == Q.Do(a, Q.Run(true)) && b' == Q.Do(b, Q.Run(true))
    ensures Reachable(Rest(S.Running, 1, nonIdle, a', b'), false)
  {
    var sched := Rest(S.Running, 0, nonIdle, a, b).scheduler;
    var t0 := Switching(sched, 0, 1, 0, S.ThenHandleIdle, a, b);
    var t2 := Switching(sched, 0, 1, 2, S.ThenHandleIdle, a', b');
    var t3 := State(Sched(S.Running, S.Idling, S.Top, nonIdle, [1, 1], true, 0), [a', b']);
    StartLeads(state, nonIdle, a, b, t0);
    Reaches(Rest(state, 0, nonIdle, a, b), Scheduler(if state == S.NotStarted then S.Start else S.Resume), t0, false);
    BothSwitched(sched, 0, 1, S.ThenHandleIdle, a, b, a', b');
    EndStartLeads(nonIdle, a', b', t2, t3);
    ReachesInTwo(t2, Scheduler(S.EndSwitch), t3, HANDLE, Rest(S.Running, 1, nonIdle, a', b'), false);
  }

  lemma {:induction false} StartLeads(state: S.RunState, nonIdle: int, a: Q.State, b: Q.State, t0: State)
    requires state == S.NotStarted || state == S.Paused
    requires a.q.running == b.q.running == 0
    requires t0 == Switching(Rest(S.Running, 0, nonIdle, a, b).scheduler, 0, 1, 0, S.ThenHandleIdle, a, b)
    ensures var step := Scheduler(if state == S.NotStarted then S.Start else S.Resume);
            Leads(Rest(state, 0, nonIdle, a, b), step, t0, false)
  {}

  lemma {:induction false} EndStartLeads(nonIdle: int, a: Q.State, b: Q.State, t2: State, t3: State)
    requires nonIdle != 0 && a.q.running == b.q.running == 1
    requires t2 == Switching(Rest(S.Running, 0, nonIdle, a, b).scheduler, 0, 1, 2, S.ThenHandleIdle, a, b)
    requires t3 == State(Sched(S.Running, S.Idling, S.Top, nonIdle, [1, 1], true, 0), [a, b])
    ensures Leads(t2, Scheduler(S.EndSwitch), t3, false) && Leads(t3, HANDLE, Rest(S.Running, 1, nonIdle, a, b), false)
  {}

  lemma {:induction false} BothPause(nonIdle: int, a: Q.State, b: Q.State, a': Q.State, b': Q.State)
    requires Reachable(Rest(S.Running, 1, nonIdle, a, b), false)
    requires a.q.running == b.q.running == 1 && a' == Q.Do(a, Q.Run(false)) && b' == Q.Do(b, Q.Run(false))
    ensures Reachable(Rest(S.Paused, 0, nonIdle, a', b'), false)
  {
    var sched := Rest(S.Paused, 1, nonIdle, a, b).scheduler;
    var t0 := Switching(sched, 1, 0, 0, S.ThenRelease, a, b);
    var t2 := Switching(sched, 1, 0, 2, S.ThenRelease, a', b');
    PauseLeads(nonIdle, a, b, t0);
    Reaches(Rest(S.Running, 1, nonIdle, a, b), Scheduler(S.Pause), t0, false);
    BothSwitched(sched, 1, 0, S.ThenRelease, a, b, a', b');
    EndPauseLeads(nonIdle, a', b', t2);
    Reaches(t2, Scheduler(S.EndSwitch), Rest(S.Paused, 0, nonIdle, a', b'), false);
  }

  lemma {:induction false} PauseLeads(nonIdle: int, a: Q.State, b: Q.State, t0: State)
    requires a.q.running == b.q.running == 1
    requires t0 == Switching(Rest(S.Paused, 1, nonIdle, a, b).scheduler, 1, 0, 0, S.ThenRelease, a, b)
    ensures Leads(Rest(S.Running, 1, nonIdle, a, b), Scheduler(S.Pause), t0, false)
  {}

  lemma {:induction false} EndPauseLeads(nonIdle: int, a: Q.State, b: Q.State, t2: State)
    requires a.q.running == b.q.running == 0
    requires t2 == Switching(Rest(S.Paused, 1, nonIdle, a, b).scheduler, 1, 0, 2, S.ThenRelease, a, b)
    ensures Leads(t2, Scheduler(S.EndSwitch), Rest(S.Paused, 0, nonIdle, a, b), false)
  {}

  /** Some thread acts on the first queue; the second lemma is for the other one. */
  lemma {:induction false} FirstActs(state: S.RunState, count: int, nonIdle: int, a: Q.State, b: Q.State, own: Q.Step)
    requires Reachable(Rest(state, count, nonIdle, a, b), false)
    requires !own.Run? && !IsReport(own) && Q.Enabled(a, own)
    ensures Reachable(Rest(state, count, nonIdle, Q.Do(a, own), b), false)
  {
    Reaches(Rest(state, count, nonIdle, a, b), OfQueue(0, own), Rest(state, count, nonIdle, Q.Do(a, own), b), false);
  }

  lemma {:induction false} SecondActs(state: S.RunState, count: int, nonIdle: int, a: Q.State, b: Q.State, own: Q.Step)
    requires Reachable(Rest(state, count, nonIdle, a, b), false)
    requires !own.Run? && !IsReport(own) && Q.Enabled(b, own)
    ensures Reachable(Rest(state, count, nonIdle, a, Q.Do(b, own)), false)
  {
    Reaches(Rest(state, count, nonIdle, a, b), OfQueue(1, own), Rest(state, count, nonIdle, a, Q.Do(b, own)), false);
  }

  lemma {:induction false} SecondReports(a: Q.State, b: Q.State)
    requires Reachable(Rest(S.NotStarted, 0, 0, a, b), false) && Q.Enabled(b, Q.ReportActive(0))
    ensures Reachable(Rest(S.NotStarted, 0, 1, a, Q.Do(b, Q.ReportActive(0))), false)
  {
    var own := Q.ReportActive(0);
    Reaches(Rest(S.NotStarted, 0, 0, a, b), OfQueue(1, own), Rest(S.NotStarted, 0, 1, a, Q.Do(b, own)), false);
  }

  /** The first queue's report "became idle" brings the count to zero, and the handler quits. */
  lemma {:induction false} ReportQuits(a: Q.State, b: Q.State, c: Q.State)
    requires Reachable(Rest(S.Running, 1, 1, a, b), false)
    requires Q.Enabled(a, Q.ReportIdle) && c == Q.Do(a, Q.ReportIdle) && a.q.running == b.q.running == c.q.running == 1
    ensures var sched := Sched(S.Running, S.Free, S.Top, 0, [1, 1], true, 1);
            Reachable(Switching(sched, 1, 0, 0, S.ThenTerminate, c, b), false)
  {
    var idling := State(Sched(S.Running, S.Idling, S.Top, 0, [1, 1], true, 0), [c, b]);
    var t0 := Switching(Sched(S.Running, S.Free, S.Top, 0, [1, 1], true, 1), 1, 0, 0, S.ThenTerminate, c, b);
    HandlerQuits(c, b, idling, t0);
    ReachesInTwo(Rest(S.Running, 1, 1, a, b), OfQueue(0, Q.ReportIdle), idling, HANDLE, t0, false);
  }

  lemma {:induction false} HandlerQuits(a: Q.State, b: Q.State, idling: State, t0: State)
    requires a.q.running == b.q.running == 1
    requires idling == State(Sched(S.Running, S.Idling, S.Top, 0, [1, 1], true, 0), [a, b])
    requires t0 == Switching(Sched(S.Running, S.Free, S.Top, 0, [1, 1], true, 1), 1, 0, 0, S.ThenTerminate, a, b)
    ensures Leads(idling, HANDLE, t0, false)
  {}

  /** The first queue: an item was added in a pause and is not reported yet when others collect its task
      and run it. */
  lemma {:induction false} FirstRuns(x: Item, a: Q.State, b: Q.State) returns (ended: Q.State)
    requires a == Q.State(Queue(multiset{x}, 0, 1, 1), [Q.Thread(true, 0)], 0, 0, 0, 0)
    requires Reachable(Rest(S.Running, 1, 1, a, b), false)
    ensures Reachable(Rest(S.Running, 1, 1, ended, b), false)
    ensures ended == Q.State(Queue(multiset{}, 0, 0, 1), [Q.Thread(true, 0), Q.Thread(false, 0)], 0, 0, 1, 0)
  {
    var one, none, threads := multiset{x}, multiset{}, [Q.Thread(true, 0), Q.Thread(false, 0)];
    var added := a.(q := Queue(one, 0, 1, 0));
    var s3 := Q.State(Queue(one, 1, 0, 1), [Q.Thread(true, 0), Q.Thread(false, 1)], 0, 0, 0, 0);
    var s4 := Q.State(Queue(one, 1, 0, 1), threads, 1, 0, 0, 0);
    var s5 := Q.State(Queue(none, 1, 0, 1), threads, 0, 1, 0, 0);
    ended := Q.State(Queue(none, 0, 0, 1), threads, 0, 0, 1, 0);
    Q.PausedAndResumed(Q.START, x, added, a, s3);
    Q.SubmittedAndRun(x, s3, s4, s5, ended, ended.(idleOwed := 0, net := -1));
    FirstActs(S.Running, 1, 1, a, b, Q.SubmitWaiting);
    FirstActs(S.Running, 1, 1, s3, b, Q.Submit(1));
    FirstActs(S.Running, 1, 1, s4, b, Q.TakeNext(x));
    FirstActs(S.Running, 1, 1, s5, b, Q.EndTask);
  }

  /** The second queue: an item was added and reported before the start, and its task is running. */
  lemma {:induction false} SecondRuns(y: Item, a: Q.State, b: Q.State) returns (busy: Q.State)
    requires b == Q.State(Queue(multiset{y}, 0, 1, 1), [Q.Thread(false, 0)], 0, 0, 0, 1)
    requires Reachable(Rest(S.Running, 1, 1, a, b), false)
    ensures busy == Q.State(Queue(multiset{}, 1, 0, 1), [Q.Thread(false, 0), Q.Thread(false, 0)], 0, 1, 0, 1)
    ensures Reachable(Rest(S.Running, 1, 1, a, busy), false)
  {
    var one, none := multiset{y}, multiset{};
    var b4 := Q.State(Queue(one, 1, 0, 1), [Q.Thread(false, 0), Q.Thread(false, 1)], 0, 0, 0, 1);
    var b5 := Q.State(Queue(one, 1, 0, 1), [Q.Thread(false, 0), Q.Thread(false, 0)], 1, 0, 0, 1);
    busy := Q.State(Queue(none, 1, 0, 1), b5.threads, 0, 1, 0, 1);
    TaskStarts(y, b, b4, b5, busy);
    SecondActs(S.Running, 1, 1, a, b, Q.SubmitWaiting);
    SecondActs(S.Running, 1, 1, a, b4, Q.Submit(1));
    SecondActs(S.Running, 1, 1, a, b5, Q.TakeNext(y));
  }

  lemma {:induction false} TaskStarts(y: Item, b: Q.State, b4: Q.State, b5: Q.State, busy: Q.State)
    requires b == Q.State(Queue(multiset{y}, 0, 1, 1), [Q.Thread(false, 0)], 0, 0, 0, 1)
    requires b4 == Q.State(Queue(multiset{y}, 1, 0, 1), [Q.Thread(false, 0), Q.Thread(false, 1)], 0, 0, 0, 1)
    requires b5 == Q.State(Queue(multiset{y}, 1, 0, 1), [Q.Thread(false, 0), Q.Thread(false, 0)], 1, 0, 0, 1)
    requires busy == Q.State(Queue(multiset{}, 1, 0, 1), b5.threads, 0, 1, 0, 1)
    ensures Q.Do(b, Q.SubmitWaiting) == b4 && Q.Enabled(b4, Q.Submit(1)) && Q.Do(b4, Q.Submit(1)) == b5
    ensures Q.Enabled(b5, Q.TakeNext(y)) && Q.Do(b5, Q.TakeNext(y)) == busy
  {
    RunsAfterIsStrictWeakOrder(y, y, y);
    var none: multiset<Item> := multiset{};
    assert multiset{y} - multiset{y} == none;
  }

  lemma {:induction false} ItemIsReported(y: Item) returns (added: Q.State, told: Q.State)
    ensures added == Q.Do(Q.START, Q.Push(y)) && Q.Enabled(added, Q.ReportActive(0))
    ensures told == Q.Do(added, Q.ReportActive(0))
    ensures told == Q.State(Queue(multiset{y}, 0, 1, 0), [Q.Thread(false, 0)], 0, 0, 0, 1)
  {
    var none: multiset<Item> := multiset{};
    assert none + multiset{y} == multiset{y};
    added := Q.State(Queue(multiset{y}, 0, 1, 0), [Q.Thread(true, 0)], 0, 0, 0, 0);
    told := Q.State(Queue(multiset{y}, 0, 1, 0), [Q.Thread(false, 0)], 0, 0, 0, 1);
  }

  /** Before the start the second queue gets an item, which is reported; after the start its task runs. */
  lemma {:induction false} BusyIsReachable(y: Item) returns (busy: Q.State)
    ensures busy == Q.State(Queue(multiset{}, 1, 0, 1), [Q.Thread(false, 0), Q.Thread(false, 0)], 0, 1, 0, 1)
    ensures Reachable(Rest(S.Running, 1, 1, Q.Do(Q.START, Q.Run(true)), busy), false)
  {
    var added, told := ItemIsReported(y);
    StartIsReachable(Rest(S.NotStarted, 0, 0, Q.START, Q.START), false);
    SecondActs(S.NotStarted, 0, 0, Q.START, Q.START, Q.Push(y));
    SecondReports(Q.START, added);
    BothStart(S.NotStarted, 1, Q.START, told, Q.Do(Q.START, Q.Run(true)), Q.Do(told, Q.Run(true)));
    busy := SecondRuns(y, Q.Do(Q.START, Q.Run(true)), Q.Do(told, Q.Run(true)));
  }

  /** In a pause the first queue gets an item whose adder is held up; then the run is resumed. */
  lemma {:induction false} SilentItemIsReachable(x: Item, busy: Q.State) returns (a: Q.State)
    requires busy == Q.State(Queue(multiset{}, 1, 0, 1), [Q.Thread(false, 0), Q.Thread(false, 0)], 0, 1, 0, 1)
    requires Reachable(Rest(S.Running, 1, 1, Q.Do(Q.START, Q.Run(true)), busy), false)
    ensures a == Q.State(Queue(multiset{x}, 0, 1, 1), [Q.Thread(true, 0)], 0, 0, 0, 0)
    ensures Reachable(Rest(S.Running, 1, 1, a, busy), false)
  {
    var paused := Q.Do(busy, Q.Run(false));
    BothPause(1, Q.Do(Q.START, Q.Run(true)), busy, Q.START, paused);
    FirstActs(S.Paused, 0, 1, Q.START, paused, Q.Push(x));
    var added := Q.State(Queue(multiset{x}, 0, 1, 0), [Q.Thread(true, 0)], 0, 0, 0, 0);
    a := added.(q := Queue(multiset{x}, 0, 1, 1));
    var none: multiset<Item> := multiset{};
    assert none + multiset{x} == multiset{x};
    assert added == Q.Do(Q.START, Q.Push(x));
    BothStart(S.Paused, 1, added, paused, a, busy);
  }

  lemma {:induction false} QuitsOver(ended: Q.State, busy: Q.State)
    returns (s: State, stopped: Q.State, paused: Q.State)
    requires ended == Q.State(Queue(multiset{}, 0, 0, 1), [Q.Thread(true, 0), Q.Thread(false, 0)], 0, 0, 1, 0)
    requires busy == Q.State(Queue(multiset{}, 1, 0, 1), [Q.Thread(false, 0), Q.Thread(false, 0)], 0, 1, 0, 1)
    requires Reachable(Rest(S.Running, 1, 1, ended, busy), false)
    ensures Reachable(s, false)
    ensures var sched := Sched(S.Running, S.Free, S.Top, 0, [1, 1], true, 1);
            s == Switching(sched, 1, 0, 2, S.ThenTerminate, stopped, paused)
    ensures stopped == Q.State(Queue(multiset{}, 0, 0, 0), ended.threads, 0, 0, 0, -1)
    ensures paused == Q.State(Queue(multiset{}, 1, 0, 0), busy.threads, 0, 1, 0, 1)
  {
    var sched := Sched(S.Running, S.Free, S.Top, 0, [1, 1], true, 1);
    var reported := ended.(idleOwed := 0, net := -1);
    stopped, paused := Q.Do(reported, Q.Run(false)), Q.Do(busy, Q.Run(false));
    ReportQuits(ended, busy, reported);
    BothSwitched(sched, 1, 0, S.ThenTerminate, reported, busy, stopped, paused);
    s := Switching(sched, 1, 0, 2, S.ThenTerminate, stopped, paused);
  }

  lemma {:induction false} SwitchTerminates(s: State, a: Q.State, b: Q.State)
    requires a.q.running == b.q.running == 0
    requires s == Switching(Sched(S.Running, S.Free, S.Top, 0, [1, 1], true, 1), 1, 0, 2, S.ThenTerminate, a, b)
    ensures s.scheduler.state == S.Running
    ensures Goes(s, Scheduler(S.EndSwitch), State(Sched(S.Terminated, S.Free, S.NoHandler, 0, [0, 0], true, 1), [a, b]))
  {}

  lemma {:induction false} OwingOfTwo(c: bool, n: int, m: int)
    ensures Q.Owing([Q.Thread(c, n), Q.Thread(false, m)]) == if c then 1 else 0
  {
    Q.Appended([], Q.Thread(c, n));
    Q.Appended([Q.Thread(c, n)], Q.Thread(false, m));
    assert [] + [Q.Thread(c, n)] == [Q.Thread(c, n)];
  }

  /** The run is terminated while a task of one queue is running, and nobody owes a report about that
      queue: the report that is owed is about the other one, whose item was added in a pause, and whose
      "became idle" came before its "became active". */
  lemma {:induction false} PauseCanHideTask(x: Item, y: Item) returns (s: State, step: Step)
    ensures Reachable(s, false) && SameSize(s) && Enabled(s, step)
    ensures s.scheduler.state == S.Running && Do(s, step).scheduler.state == S.Terminated
    ensures var qs := Do(s, step).queues;
            && |qs| == 2 && AtRest(qs[0]) && Q.Owing(qs[0].threads) == 1
            && qs[1].tasks == 1 && !IsIdle(qs[1].q) && Q.Owing(qs[1].threads) == 0
  {
    var busy := BusyIsReachable(y);
    var a := SilentItemIsReachable(x, busy);
    var ended := FirstRuns(x, a, busy);
    var stopped, paused;
    s, stopped, paused := QuitsOver(ended, busy);
    OwingOfTwo(true, 0, 0);
    OwingOfTwo(false, 0, 0);
    SwitchTerminates(s, stopped, paused);
    step := Scheduler(S.EndSwitch);
  }
}
