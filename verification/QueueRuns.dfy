/** Everything that threads can do to one scheduler queue over a run: add items, collect waiting
    tasks, hand them to the executor, run them, and report between the locks that the queue became
    active or idle. */
module QueueRuns {
  import opened SchedulerItems
  import opened SchedulerQueues

  /** A thread between its locked section and what it still owes: the report "became active", and
      after it the tasks it collected. */
  datatype Thread = Thread(callback: bool, toSubmit: int)

  /** `inExecutor` counts tasks the executor holds, `tasks` those that took their item and have not
      ended, `idleOwed` ended tasks that owe the report "became idle". `net` is the number of
      reports "became active" made so far less those of "became idle". */
  datatype State = State(q: Queue, threads: seq<Thread>, inExecutor: nat, tasks: nat, idleOwed: nat, net: int)

  datatype Step =
    | Push(item: Item)
    | SubmitWaiting
    | Run(running: bool)
    | ReportActive(i: nat)
    | Submit(i: nat)
    | TakeNext(item: Item)
    | EndTask
    | ReportIdle
    | Cleanup

  predicate Enabled(s: State, step: Step) {
    match step
    case ReportActive(i) => i < |s.threads| && s.threads[i].callback
    case Submit(i) => i < |s.threads| && !s.threads[i].callback && s.threads[i].toSubmit > 0
    case TakeNext(x) => s.inExecutor > 0 && (s.q.items != multiset{} ==> IsTop(s.q.items, x))
    case EndTask => s.tasks > 0
    case ReportIdle => s.idleOwed > 0
    case Cleanup => s.q.pending == 0
    case _ => true
  }

  function Do(s: State, step: Step): State
    requires Enabled(s, step)
  {
    match step
    case Push(x) =>
      var q := Added(s.q, x);
      s.(q := Collect(q), threads := s.threads + [Thread(IsIdle(s.q), Collected(q))])
    case SubmitWaiting => s.(q := Collect(s.q), threads := s.threads + [Thread(false, Collected(s.q))])
    case Run(r) => s.(q := SetRunning(s.q, r))
    case ReportActive(i) =>
      s.(threads := s.threads[i := s.threads[i].(callback := false)], net := s.net + 1)
    case Submit(i) =>
      var t := s.threads[i];
      s.(threads := s.threads[i := t.(toSubmit := t.toSubmit - 1)], inExecutor := s.inExecutor + 1)
    case TakeNext(x) => s.(q := Taken(s.q, x), inExecutor := s.inExecutor - 1, tasks := s.tasks + 1)
    case EndTask =>
      var q := TaskEnded(s.q);
      s.(q := q, tasks := s.tasks - 1, idleOwed := if IsIdle(q) then s.idleOwed + 1 else s.idleOwed)
    case ReportIdle => s.(idleOwed := s.idleOwed - 1, net := s.net - 1)
    case Cleanup => s.(q := CleanedUp(s.q), idleOwed := if IsIdle(s.q) then s.idleOwed else s.idleOwed + 1)
  }

  /** The CHECKs of the code. */
  predicate Safe(s: State, step: Step) {
    match step
    case TakeNext(_) => s.q.items != multiset{}
    case EndTask => s.q.pending > 0
    case Cleanup => s.q.toAdd == |s.q.items|
    case _ => true
  }

  const START := State(Queue(multiset{}, 0, 0, 0), [], 0, 0, 0, 0)

  predicate Init(s: State) {
    s == START
  }

  function ToSubmit(ts: seq<Thread>): int {
    if ts == [] then 0 else ToSubmit(ts[..|ts| - 1]) + ts[|ts| - 1].toSubmit
  }

  function Owing(ts: seq<Thread>): nat {
    if ts == [] then 0 else Owing(ts[..|ts| - 1]) + if ts[|ts| - 1].callback then 1 else 0
  }

  function NonIdle(q: Queue): int {
    if IsIdle(q) then 0 else 1
  }

  /** Task accounting: every waiting item has exactly one task, waiting, being submitted or in the executor. */
  predicate TasksInv(s: State) {
    && |s.q.items| + s.tasks == s.q.toAdd + s.q.pending
    && s.q.pending == ToSubmit(s.threads) + s.inExecutor + s.tasks
    && 0 <= s.q.toAdd && forall i :: 0 <= i < |s.threads| ==> 0 <= s.threads[i].toSubmit
  }

  /** Report accounting: the net count is what the queue is, corrected by what is owed. */
  predicate ReportsInv(s: State) {
    s.net == NonIdle(s.q) - Owing(s.threads) + s.idleOwed
  }

  predicate Inv(s: State) {
    TasksInv(s) && ReportsInv(s)
  }

  lemma {:induction false} Appended(ts: seq<Thread>, t: Thread)
    ensures ToSubmit(ts + [t]) == ToSubmit(ts) + t.toSubmit
    ensures Owing(ts + [t]) == Owing(ts) + if t.callback then 1 else 0
  {
    assert (ts + [t])[..|ts|] == ts;
  }

  lemma {:induction false} Updated(ts: seq<Thread>, i: nat, t: Thread)
    requires i < |ts|
    ensures ToSubmit(ts[i := t]) == ToSubmit(ts) + t.toSubmit - ts[i].toSubmit
    ensures Owing(ts[i := t]) == Owing(ts) + (if t.callback then 1 else 0) - if ts[i].callback then 1 else 0
  {
    var n := |ts| - 1;
    if i == n {
      assert ts[i := t][..n] == ts[..n];
    } else {
      Updated(ts[..n], i, t);
      assert ts[i := t][..n] == ts[..n][i := t];
    }
  }

  /** What all threads have still to submit bounds what each has. */
  lemma {:induction false} EachWithinSum(ts: seq<Thread>, i: nat)
    requires i < |ts| && forall j :: 0 <= j < |ts| ==> 0 <= ts[j].toSubmit
    ensures 0 <= ts[i].toSubmit <= ToSubmit(ts)
  {
    var n := |ts| - 1;
    if n > 0 { EachWithinSum(ts[..n], if i < n then i else 0); }
    if n == 0 { assert ToSubmit(ts[..0]) == 0; }
  }

  lemma {:induction false} SumIsNatural(ts: seq<Thread>)
    requires forall j :: 0 <= j < |ts| ==> 0 <= ts[j].toSubmit
    ensures 0 <= ToSubmit(ts)
  {
    if ts != [] { EachWithinSum(ts, 0); }
  }

  /** A queue without items has no task waiting to be added. */
  lemma {:induction false} NoItemsNothingToAdd(s: State)
    requires TasksInv(s)
    ensures s.q.items == multiset{} <==> |s.q.items| == 0
    ensures s.q.items == multiset{} ==> s.q.toAdd == 0
  {
    SumIsNatural(s.threads);
    if |s.q.items| == 0 { assert s.q.items == multiset{}; }
  }

  lemma {:induction false} PushKeepsTasks(s: State, x: Item)
    requires TasksInv(s)
    ensures TasksInv(Do(s, Push(x)))
  {
    Sizes(s.q.items, x);
    Appended(s.threads, Thread(IsIdle(s.q), Collected(Added(s.q, x))));
  }

  lemma {:induction false} PushKeepsReports(s: State, x: Item)
    requires ReportsInv(s)
    ensures ReportsInv(Do(s, Push(x)))
  {
    Appended(s.threads, Thread(IsIdle(s.q), Collected(Added(s.q, x))));
    assert x in Do(s, Push(x)).q.items;
  }

  lemma {:induction false} CollectKeepsTasks(s: State)
    requires TasksInv(s)
    ensures TasksInv(Do(s, SubmitWaiting))
  {
    Appended(s.threads, Thread(false, Collected(s.q)));
  }

  lemma {:induction false} CollectKeepsIdle(q: Queue)
    requires q.items == multiset{} ==> q.toAdd == 0
    ensures IsIdle(Collect(q)) == IsIdle(q)
  {}

  lemma {:induction false} CollectKeepsReports(s: State)
    requires ReportsInv(s) && (s.q.items == multiset{} ==> s.q.toAdd == 0)
    ensures ReportsInv(Do(s, SubmitWaiting))
  {
    Appended(s.threads, Thread(false, Collected(s.q)));
    CollectKeepsIdle(s.q);
  }

  lemma {:induction false} CollectKeepsInv(s: State)
    requires Inv(s)
    ensures Inv(Do(s, SubmitWaiting))
  {
    CollectKeepsTasks(s);
    NoItemsNothingToAdd(s);
    CollectKeepsReports(s);
  }

  lemma {:induction false} ThreadKeepsInv(s: State, i: nat, step: Step)
    requires Inv(s) && Enabled(s, step) && (step == ReportActive(i) || step == Submit(i))
    ensures Inv(Do(s, step))
  {
    var t := s.threads[i];
    Updated(s.threads, i, if step.Submit? then t.(toSubmit := t.toSubmit - 1) else t.(callback := false));
  }

  lemma {:induction false} TakeKeepsInv(s: State, x: Item)
    requires Inv(s) && Enabled(s, TakeNext(x))
    ensures Safe(s, TakeNext(x)) && Inv(Do(s, TakeNext(x)))
  {
    SumIsNatural(s.threads);
    NoItemsNothingToAdd(s);
    Sizes(s.q.items, x);
  }

  lemma {:induction false} EndKeepsInv(s: State)
    requires Inv(s) && Enabled(s, EndTask)
    ensures Safe(s, EndTask) && Inv(Do(s, EndTask))
  {
    SumIsNatural(s.threads);
  }

  lemma {:induction false} CleanupKeepsInv(s: State)
    requires Inv(s) && Enabled(s, Cleanup)
    ensures Safe(s, Cleanup) && Inv(Do(s, Cleanup))
  {
    SumIsNatural(s.threads);
    NoItemsNothingToAdd(s);
  }

  lemma {:induction false} StepKeepsInv(s: State, step: Step)
    requires Inv(s) && Enabled(s, step)
    ensures Safe(s, step) && Inv(Do(s, step))
  {
    match step
    case Push(x) =>
      PushKeepsTasks(s, x);
      PushKeepsReports(s, x);
    case TakeNext(x) => TakeKeepsInv(s, x);
    case EndTask => EndKeepsInv(s);
    case Cleanup => CleanupKeepsInv(s);
    case SubmitWaiting => CollectKeepsInv(s);
    case ReportActive(i) => ThreadKeepsInv(s, i, step);
    case Submit(i) => ThreadKeepsInv(s, i, step);
    case ReportIdle =>
    case Run(_) =>
  }

  lemma {:induction false} StartHasTasks()
    ensures TasksInv(START)
  {
    assert ToSubmit([]) == 0;
  }

  lemma {:induction false} StartHasReports()
    ensures ReportsInv(START)
  {
    assert Owing([]) == 0;
  }

  lemma {:induction false} InitHasInv(s: State)
    requires Init(s)
    ensures Inv(s)
  {
    StartHasTasks();
    StartHasReports();
  }

  ghost predicate IsRunFrom(s: State, states: seq<State>, steps: seq<Step>) {
    && |states| == |steps| + 1 && states[0] == s
    && forall i :: 0 <= i < |steps| ==> Enabled(states[i], steps[i]) && states[i + 1] == Do(states[i], steps[i])
  }

  lemma {:induction false} RunKeepsInv(s: State, states: seq<State>, steps: seq<Step>, i: nat)
    requires Inv(s) && IsRunFrom(s, states, steps) && i < |states|
    ensures Inv(states[i])
  {
    if i > 0 {
      RunKeepsInv(s, states, steps, i - 1);
      StepKeepsInv(states[i - 1], steps[i - 1]);
    }
  }

  lemma {:induction false} EveryRunKeepsInv(s: State, states: seq<State>, steps: seq<Step>, i: nat)
    requires Init(s) && IsRunFrom(s, states, steps) && i < |states|
    ensures Inv(states[i])
  {
    InitHasInv(s);
    RunKeepsInv(s, states, steps, i);
  }

  /** Task accounting, in every run with any pauses and resumes: waiting items and running tasks
      always equal the tasks to add and the pending ones, so a task never finds the queue empty and
      the cleanup's equality check holds; and reports are never lost or doubled. */
  lemma {:induction false} TasksAreAccountedFor(s: State, states: seq<State>, steps: seq<Step>, i: nat)
    requires Init(s) && IsRunFrom(s, states, steps) && i < |states|
    ensures |states[i].q.items| + states[i].tasks == states[i].q.toAdd + states[i].q.pending
    ensures states[i].net == NonIdle(states[i].q) - Owing(states[i].threads) + states[i].idleOwed
  {
    EveryRunKeepsInv(s, states, steps, i);
  }

  lemma {:induction false} NoTaskFindsTheQueueEmpty(s: State, states: seq<State>, steps: seq<Step>, i: nat, step: Step)
    requires Init(s) && IsRunFrom(s, states, steps) && i < |states| && Enabled(states[i], step)
    ensures Safe(states[i], step)
  {
    EveryRunKeepsInv(s, states, steps, i);
    StepKeepsInv(states[i], step);
  }

  // ---------- when "became idle" can overtake "became active" ----------

  /** No thread owes the report for an item whose task another thread could submit. */
  predicate ReportsFirst(s: State) {
    forall i :: 0 <= i < |s.threads| && s.threads[i].callback ==> s.threads[i].toSubmit > 0
  }

  /** The documented order of reports needs this much: whoever collects waiting tasks finds no thread
      that added one while the queue was paused and has not yet reported it; and nobody owes a
      report at cleanup. */
  predicate Guarded(s: State, step: Step) {
    match step
    case Push(_) => s.q.running > 0 ==> ReportsFirst(s)
    case SubmitWaiting => s.q.running > 0 ==> ReportsFirst(s)
    case Cleanup => Owing(s.threads) == 0
    case _ => true
  }

  /** What guarded runs keep: at most one report "became active" is owed, by a thread whose own
      task is not in the executor yet. */
  predicate InOrder(s: State) {
    && Owing(s.threads) <= 1
    && forall i :: 0 <= i < |s.threads| && s.threads[i].callback ==> s.threads[i].toSubmit > 0 || s.q.toAdd > 0
  }

  lemma {:induction false} NobodyOwes(ts: seq<Thread>)
    ensures Owing(ts) == 0 <==> forall i :: 0 <= i < |ts| ==> !ts[i].callback
  {
    if ts != [] { NobodyOwes(ts[..|ts| - 1]); }
  }

  lemma {:induction false} StartIsInOrder()
    ensures InOrder(START)
  {
    NobodyOwes([]);
  }

  lemma {:induction false} OwingMeansActive(s: State)
    requires Inv(s) && InOrder(s)
    ensures Owing(s.threads) <= NonIdle(s.q)
  {
    NobodyOwes(s.threads);
    if Owing(s.threads) > 0 {
      var i :| 0 <= i < |s.threads| && s.threads[i].callback;
      EachWithinSum(s.threads, i);
    }
  }

  lemma {:induction false} PushKeepsOrder(s: State, x: Item)
    requires Inv(s) && InOrder(s) && Guarded(s, Push(x))
    ensures InOrder(Do(s, Push(x)))
  {
    Appended(s.threads, Thread(IsIdle(s.q), Collected(Added(s.q, x))));
    OwingMeansActive(s);
    NobodyOwes(s.threads);
  }

  lemma {:induction false} StepKeepsOrder(s: State, step: Step)
    requires Inv(s) && InOrder(s) && Enabled(s, step) && Guarded(s, step)
    ensures InOrder(Do(s, step))
  {
    NobodyOwes(s.threads);
    match step
    case Push(x) => PushKeepsOrder(s, x);
    case SubmitWaiting => Appended(s.threads, Thread(false, Collected(s.q)));
    case ReportActive(i) => Updated(s.threads, i, s.threads[i].(callback := false));
    case Submit(i) => Updated(s.threads, i, s.threads[i].(toSubmit := s.threads[i].toSubmit - 1));
    case _ =>
  }

  ghost predicate IsGuardedRun(s: State, states: seq<State>, steps: seq<Step>) {
    && IsRunFrom(s, states, steps)
    && forall i :: 0 <= i < |steps| ==> Guarded(states[i], steps[i])
  }

  lemma {:induction false} GuardedRunKeepsOrder(s: State, states: seq<State>, steps: seq<Step>, i: nat)
    requires Inv(s) && InOrder(s) && IsGuardedRun(s, states, steps) && i < |states|
    ensures Inv(states[i]) && InOrder(states[i]) && states[i].net >= 0
  {
    if i > 0 {
      GuardedRunKeepsOrder(s, states, steps, i - 1);
      StepKeepsInv(states[i - 1], steps[i - 1]);
      StepKeepsOrder(states[i - 1], steps[i - 1]);
    }
    OwingMeansActive(states[i]);
  }

  lemma {:induction false} ExtendRun(s: State, step: Step, states: seq<State>, steps: seq<Step>)
    returns (states': seq<State>, steps': seq<Step>)
    requires Enabled(s, step) && IsRunFrom(Do(s, step), states, steps)
    ensures states' == [s] + states && steps' == [step] + steps && IsRunFrom(s, states', steps')
    ensures states'[|steps'|] == states[|steps|]
  {
    states', steps' := [s] + states, [step] + steps;
    forall i | 0 <= i < |steps'| ensures Enabled(states'[i], steps'[i]) && states'[i + 1] == Do(states'[i], steps'[i]) {
      if i > 0 { assert states'[i] == states[i - 1] && steps'[i] == steps[i - 1] && states'[i + 1] == states[i]; }
    }
  }

  lemma {:induction false} Extend(s: State, step: Step, states: seq<State>, steps: seq<Step>)
    requires Enabled(s, step) && Guarded(s, step) && IsGuardedRun(Do(s, step), states, steps)
    ensures IsGuardedRun(s, [s] + states, [step] + steps)
  {
    var ss, ps := ExtendRun(s, step, states, steps);
    forall i | 0 <= i < |ps| ensures Guarded(ss[i], ps[i]) {
      if i > 0 { assert ss[i] == states[i - 1] && ps[i] == steps[i - 1]; }
    }
  }

  lemma {:induction false} SomeoneSubmits(ts: seq<Thread>) returns (i: nat)
    requires ToSubmit(ts) > 0 && forall j :: 0 <= j < |ts| ==> 0 <= ts[j].toSubmit
    ensures i < |ts| && ts[i].toSubmit > 0
  {
    i := |ts| - 1;
    if ts[i].toSubmit == 0 { i := SomeoneSubmits(ts[..i]); }
  }

  /** Thread `t` stays silent about an item whose task is already in other hands. */
  predicate SilentThread(s: State, t: nat) {
    t < |s.threads| && s.threads[t] == Thread(true, 0) && s.q.toAdd == 0
  }

  /** The next step of everyone but the silent thread, if one is left. */
  lemma {:induction false} NextOfOthers(s: State, t: nat) returns (step: Step)
    requires Inv(s) && SilentThread(s, t)
    requires ToSubmit(s.threads) > 0 || s.inExecutor > 0 || s.tasks > 0 || s.idleOwed > 0
    ensures Enabled(s, step) && Guarded(s, step) && (step.ReportActive? || step.Submit? ==> step.i != t)
    ensures step.ReportActive? || step.Submit? || step.TakeNext? || step.EndTask? || step.ReportIdle?
  {
    if ToSubmit(s.threads) > 0 {
      var i := SomeoneSubmits(s.threads);
      step := if s.threads[i].callback then ReportActive(i) else Submit(i);
    } else if s.inExecutor > 0 {
      SumIsNatural(s.threads);
      assert s.q.items != multiset{};
      var x := TopExists(s.q.items);
      step := TakeNext(x);
    } else {
      step := if s.tasks > 0 then EndTask else ReportIdle;
    }
  }

  lemma {:induction false} OthersProgress(s: State, t: nat, step: Step)
    requires Inv(s) && SilentThread(s, t) && Enabled(s, step)
    requires step.ReportActive? || step.Submit? ==> step.i != t
    requires step.ReportActive? || step.Submit? || step.TakeNext? || step.EndTask? || step.ReportIdle?
    ensures Inv(Do(s, step)) && SilentThread(Do(s, step), t)
  {
    StepKeepsInv(s, step);
  }

  /** If the others go on and the silent thread does not, the reports end one below the truth. */
  lemma {:induction false} OthersFinish(s: State, t: nat) returns (states: seq<State>, steps: seq<Step>)
    requires Inv(s) && SilentThread(s, t)
    ensures IsGuardedRun(s, states, steps) && states[|steps|].net < 0
    decreases ToSubmit(s.threads), s.inExecutor, s.tasks, s.idleOwed, Owing(s.threads)
  {
    SumIsNatural(s.threads);
    if ToSubmit(s.threads) > 0 || s.inExecutor > 0 || s.tasks > 0 || s.idleOwed > 0 {
      var step := NextOfOthers(s, t);
      OthersProgress(s, t, step);
      Smaller(s, step);
      states, steps := OthersFinish(Do(s, step), t);
      Extend(s, step, states, steps);
      states, steps := [s] + states, [step] + steps;
    } else {
      states, steps := [s], [];
      NobodyOwes(s.threads);
      assert IsIdle(s.q);
    }
  }

  lemma {:induction false} Smaller(s: State, step: Step)
    requires Inv(s) && Enabled(s, step)
    requires step.ReportActive? || step.Submit? || step.TakeNext? || step.EndTask? || step.ReportIdle?
    ensures var s' := Do(s, step);
            && (step.Submit? ==> ToSubmit(s'.threads) == ToSubmit(s.threads) - 1)
            && (step.ReportActive? ==>
                  ToSubmit(s'.threads) == ToSubmit(s.threads) && Owing(s'.threads) < Owing(s.threads))
  {
    match step
    case ReportActive(i) => Updated(s.threads, i, s.threads[i].(callback := false));
    case Submit(i) => Updated(s.threads, i, s.threads[i].(toSubmit := s.threads[i].toSubmit - 1));
    case _ =>
  }

  ghost predicate StaysNonNegative(s: State) {
    forall states: seq<State>, steps: seq<Step> :: IsGuardedRun(s, states, steps) ==> states[|steps|].net >= 0
  }

  lemma {:induction false} GuardedStepIsFine(s: State, step: Step)
    requires Inv(s) && InOrder(s) && Enabled(s, step) && Guarded(s, step)
    ensures StaysNonNegative(Do(s, step))
  {
    StepKeepsInv(s, step);
    StepKeepsOrder(s, step);
    var s' := Do(s, step);
    forall states: seq<State>, steps: seq<Step> | IsGuardedRun(s', states, steps) ensures states[|steps|].net >= 0 {
      GuardedRunKeepsOrder(s', states, steps, |steps|);
    }
  }

  lemma {:induction false} UnguardedStepIsNot(s: State, step: Step)
    requires Inv(s) && InOrder(s) && Enabled(s, step) && !Guarded(s, step)
    ensures !StaysNonNegative(Do(s, step))
  {
    StepKeepsInv(s, step);
    NobodyOwes(s.threads);
    var t := FindSilent(s, step);
    var states, steps := OthersFinish(Do(s, step), t);
    assert IsGuardedRun(Do(s, step), states, steps);
  }

  lemma {:induction false} FindSilent(s: State, step: Step) returns (t: nat)
    requires Inv(s) && InOrder(s) && Enabled(s, step) && !Guarded(s, step)
    ensures SilentThread(Do(s, step), t)
  {
    NobodyOwes(s.threads);
    if step.Cleanup? {
      t :| t < |s.threads| && s.threads[t].callback;
      EachWithinSum(s.threads, t);
    } else {
      t :| t < |s.threads| && s.threads[t].callback && s.threads[t].toSubmit <= 0;
    }
  }

  /** The documented promise that no "became idle" precedes its "became active" is not kept across
      pauses. It is kept by every continuation exactly when the step is guarded. */
  lemma {:induction false} ReportsStayInOrderIffGuarded(s: State, step: Step)
    requires Inv(s) && InOrder(s) && Enabled(s, step)
    ensures StaysNonNegative(Do(s, step)) <==> Guarded(s, step)
  {
    if Guarded(s, step) { GuardedStepIsFine(s, step); } else { UnguardedStepIsNot(s, step); }
  }

  /** A queue that stays running keeps the promise: from a state with no waiting task, in every run
      without pauses and cleanup, the net count is never negative, and once it is zero with no report
      owed the queue is really idle. */
  lemma {:induction false} RunningQueueReportsInOrder(s: State, states: seq<State>, steps: seq<Step>, i: nat)
    requires Inv(s) && InOrder(s) && s.q.running > 0 && s.q.toAdd == 0
    requires IsRunFrom(s, states, steps) && i < |states|
    requires forall j :: 0 <= j < |steps| ==> !steps[j].Run? && !steps[j].Cleanup?
    ensures var t := states[i];
            && Inv(t) && InOrder(t) && t.q.running > 0 && t.q.toAdd == 0 && t.net >= 0
            && (t.net == 0 && Owing(t.threads) == 0 && t.idleOwed == 0 ==> IsIdle(t.q))
  {
    if i > 0 {
      RunningQueueReportsInOrder(s, states, steps, i - 1);
      StepKeepsInv(states[i - 1], steps[i - 1]);
      StepKeepsOrder(states[i - 1], steps[i - 1]);
    }
    OwingMeansActive(states[i]);
  }

  /** A run that breaks the promise: an item is added while the queue is paused, another thread
      resumes the queue, submits the item's task and runs it, and only then would the adder report. */
  lemma {:induction false} PauseCanReorderReports(s: State, x: Item) returns (steps: seq<Step>, states: seq<State>)
    requires Init(s)
    ensures IsRunFrom(s, states, steps) && states[|steps|].net == -1
  {
    var one, none, silent := multiset{x}, multiset{}, Thread(true, 0);
    var s1 := State(Queue(one, 0, 1, 0), [silent], 0, 0, 0, 0);
    var s2 := s1.(q := Queue(one, 0, 1, 1));
    var s3 := State(Queue(one, 1, 0, 1), [silent, Thread(false, 1)], 0, 0, 0, 0);
    var s4 := State(Queue(one, 1, 0, 1), [silent, Thread(false, 0)], 1, 0, 0, 0);
    var s5 := State(Queue(none, 1, 0, 1), s4.threads, 0, 1, 0, 0);
    var s6 := State(Queue(none, 0, 0, 1), s4.threads, 0, 0, 1, 0);
    var s7 := State(Queue(none, 0, 0, 1), s4.threads, 0, 0, 0, -1);
    PausedAndResumed(s, x, s1, s2, s3);
    SubmittedAndRun(x, s3, s4, s5, s6, s7);
    states, steps := ExtendRun(s6, ReportIdle, [s7], []);
    states, steps := ExtendRun(s5, EndTask, states, steps);
    states, steps := ExtendRun(s4, TakeNext(x), states, steps);
    states, steps := ExtendRun(s3, Submit(1), states, steps);
    states, steps := ExtendRun(s2, SubmitWaiting, states, steps);
    states, steps := ExtendRun(s1, Run(true), states, steps);
    states, steps := ExtendRun(s, Push(x), states, steps);
  }

  lemma {:induction false} PausedAndResumed(s: State, x: Item, s1: State, s2: State, s3: State)
    requires Init(s)
    requires s1 == State(Queue(multiset{x}, 0, 1, 0), [Thread(true, 0)], 0, 0, 0, 0)
    requires s2 == s1.(q := Queue(multiset{x}, 0, 1, 1))
    requires s3 == State(Queue(multiset{x}, 1, 0, 1), [Thread(true, 0), Thread(false, 1)], 0, 0, 0, 0)
    ensures Do(s, Push(x)) == s1 && Do(s1, Run(true)) == s2 && Do(s2, SubmitWaiting) == s3
  {
    var none: multiset<Item> := multiset{};
    assert none + multiset{x} == multiset{x};
  }

  lemma {:induction false} SubmittedAndRun(x: Item, s3: State, s4: State, s5: State, s6: State, s7: State)
    requires s3 == State(Queue(multiset{x}, 1, 0, 1), [Thread(true, 0), Thread(false, 1)], 0, 0, 0, 0)
    requires s4 == State(s3.q, [Thread(true, 0), Thread(false, 0)], 1, 0, 0, 0)
    requires s5 == State(Queue(multiset{}, 1, 0, 1), s4.threads, 0, 1, 0, 0)
    requires s6 == State(Queue(multiset{}, 0, 0, 1), s4.threads, 0, 0, 1, 0)
    requires s7 == s6.(idleOwed := 0, net := -1)
    ensures Enabled(s3, Submit(1)) && Do(s3, Submit(1)) == s4
    ensures Enabled(s4, TakeNext(x)) && Do(s4, TakeNext(x)) == s5
    ensures Do(s5, EndTask) == s6 && Do(s6, ReportIdle) == s7
  {
    RunsAfterIsStrictWeakOrder(x, x, x);
    var none: multiset<Item> := multiset{};
    assert multiset{x} - multiset{x} == none;
  }

  // ---------- what a net count of zero tells ----------

  /** Under the guard a net count of zero means that no report "became idle" is owed, and that the queue
      is idle exactly if no report "became active" is. */
  lemma {:induction false} NetTellsIdle(s: State)
    requires Inv(s) && InOrder(s)
    ensures s.net >= 0
    ensures s.net == 0 ==> s.idleOwed == 0 && Owing(s.threads) <= 1 && (IsIdle(s.q) <==> Owing(s.threads) == 0)
  {
    OwingMeansActive(s);
  }

  /** The documentation says that when the count reaches zero the queue is idle. A queue that is never
      paused may have got a new item by then, whose adder has not reported yet. */
  lemma {:induction false} ZeroCanComeTooEarly(s: State, x: Item) returns (steps: seq<Step>, states: seq<State>)
    requires Init(s)
    ensures IsGuardedRun(s, states, steps) && EndsTooEarly(states, steps)
  {
    var s1 := s.(q := Queue(multiset{}, 0, 0, 1));
    var s2 := State(Queue(multiset{x}, 1, 0, 1), [Thread(true, 1)], 0, 0, 0, 0);
    var s3 := s2.(threads := [Thread(false, 1)], net := 1);
    var s4 := s2.(threads := [Thread(false, 0)], inExecutor := 1, net := 1);
    AddedAndReported(s, x, s1, s2, s3, s4);
    states, steps := RunOnceMore(x, s4);
    states, steps := Prepend(s3, Submit(0), states, steps);
    states, steps := Prepend(s2, ReportActive(0), states, steps);
    states, steps := Prepend(s1, Push(x), states, steps);
    states, steps := Prepend(s, Run(true), states, steps);
  }

  lemma {:induction false} RunOnceMore(x: Item, s4: State) returns (states: seq<State>, steps: seq<Step>)
    requires s4 == State(Queue(multiset{x}, 1, 0, 1), [Thread(false, 0)], 1, 0, 0, 1)
    ensures IsGuardedRun(s4, states, steps) && EndsTooEarly(states, steps)
  {
    var s5 := State(Queue(multiset{}, 1, 0, 1), s4.threads, 0, 1, 0, 1);
    var s6 := State(Queue(multiset{}, 0, 0, 1), s4.threads, 0, 0, 1, 1);
    var s7 := State(Queue(multiset{x}, 1, 0, 1), [Thread(false, 0), Thread(true, 1)], 0, 0, 1, 1);
    var s8 := s7.(idleOwed := 0, net := 0);
    RunAndAddedAgain(x, s4, s5, s6, s7, s8);
    Extend(s7, ReportIdle, [s8], []);
    states, steps := [s7, s8], [ReportIdle];
    states, steps := Prepend(s6, Push(x), states, steps);
    states, steps := Prepend(s5, EndTask, states, steps);
    states, steps := Prepend(s4, TakeNext(x), states, steps);
  }

  /** The last step is a report "became idle" that brings the net count to zero on a queue that is not idle. */
  predicate EndsTooEarly(states: seq<State>, steps: seq<Step>) {
    && |states| == |steps| + 1 && |steps| > 0 && steps[|steps| - 1] == ReportIdle && Run(false) !in steps
    && states[|steps| - 1].net == 1 && states[|steps|].net == 0 && !IsIdle(states[|steps|].q)
  }

  lemma {:induction false} Prepend(s: State, step: Step, states: seq<State>, steps: seq<Step>)
    returns (states': seq<State>, steps': seq<Step>)
    requires Enabled(s, step) && Guarded(s, step) && IsGuardedRun(Do(s, step), states, steps)
    requires EndsTooEarly(states, steps) && step != Run(false)
    ensures IsGuardedRun(s, states', steps') && EndsTooEarly(states', steps')
  {
    Extend(s, step, states, steps);
    states', steps' := [s] + states, [step] + steps;
  }

  lemma {:induction false} AddedAndReported(s: State, x: Item, s1: State, s2: State, s3: State, s4: State)
    requires Init(s)
    requires s1 == s.(q := Queue(multiset{}, 0, 0, 1))
    requires s2 == State(Queue(multiset{x}, 1, 0, 1), [Thread(true, 1)], 0, 0, 0, 0)
    requires s3 == s2.(threads := [Thread(false, 1)], net := 1)
    requires s4 == s2.(threads := [Thread(false, 0)], inExecutor := 1, net := 1)
    ensures Do(s, Run(true)) == s1 && Guarded(s1, Push(x)) && Do(s1, Push(x)) == s2
    ensures Enabled(s2, ReportActive(0)) && Do(s2, ReportActive(0)) == s3
    ensures Enabled(s3, Submit(0)) && Do(s3, Submit(0)) == s4
  {
    var none: multiset<Item> := multiset{};
    assert none + multiset{x} == multiset{x};
  }

  lemma {:induction false} RunAndAddedAgain(x: Item, s4: State, s5: State, s6: State, s7: State, s8: State)
    requires s4 == State(Queue(multiset{x}, 1, 0, 1), [Thread(false, 0)], 1, 0, 0, 1)
    requires s5 == State(Queue(multiset{}, 1, 0, 1), s4.threads, 0, 1, 0, 1)
    requires s6 == State(Queue(multiset{}, 0, 0, 1), s4.threads, 0, 0, 1, 1)
    requires s7 == State(Queue(multiset{x}, 1, 0, 1), [Thread(false, 0), Thread(true, 1)], 0, 0, 1, 1)
    requires s8 == s7.(idleOwed := 0, net := 0)
    ensures Enabled(s4, TakeNext(x)) && Do(s4, TakeNext(x)) == s5
    ensures Do(s5, EndTask) == s6 && Guarded(s6, Push(x)) && Do(s6, Push(x)) == s7 && Do(s7, ReportIdle) == s8
    ensures !IsIdle(s8.q)
  {
    RunsAfterIsStrictWeakOrder(x, x, x);
    var none: multiset<Item> := multiset{};
    assert multiset{x} - multiset{x} == none && none + multiset{x} == multiset{x};
    assert x in s8.q.items;
  }
}
