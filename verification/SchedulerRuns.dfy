/** The scheduler together with its queues: every switch of a running count happens to a queue, and the
    count of active queues moves with the queues' own reports. */
module SchedulerRuns {
  import opened SchedulerItems
  import opened SchedulerQueues
  import S = Schedulers
  import Q = QueueRuns

  datatype State = State(scheduler: S.State, queues: seq<Q.State>)

  datatype Step = Scheduler(step: S.Step) | OfQueue(q: nat, own: Q.Step)

  predicate IsReport(step: Q.Step) {
    step.ReportActive? || step.ReportIdle?
  }

  /** Reports take the scheduler's mutex; queues are switched by the scheduler alone. */
  predicate Enabled(s: State, step: Step) {
    match step
    case Scheduler(step) => !step.IdleChanged? && S.Enabled(s.scheduler, step)
    case OfQueue(q, own) =>
      && q < |s.queues| && !own.Run? && Q.Enabled(s.queues[q], own)
      && (IsReport(own) ==> s.scheduler.lock == S.Free)
  }

  /** A queue whose running count was moved. */
  function Followed(q: Q.State, count: int): Q.State {
    if count > q.q.running then Q.Do(q, Q.Run(true)) else if count < q.q.running then Q.Do(q, Q.Run(false)) else q
  }

  function AllFollowed(qs: seq<Q.State>, counts: seq<int>): seq<Q.State>
    requires |counts| == |qs|
  {
    seq(|qs|, i requires 0 <= i < |qs| => Followed(qs[i], counts[i]))
  }

  predicate SameSize(s: State) {
    |s.scheduler.counts| == |s.queues|
  }

  function Do(s: State, step: Step): State
    requires SameSize(s) && Enabled(s, step)
  {
    match step
    case Scheduler(step) =>
      var scheduler := S.Do(s.scheduler, step);
      State(scheduler, if |scheduler.counts| == |s.queues| then AllFollowed(s.queues, scheduler.counts) else s.queues)
    case OfQueue(q, own) =>
      State(if IsReport(own) then S.Do(s.scheduler, S.IdleChanged(own.ReportIdle?)) else s.scheduler,
            s.queues[q := Q.Do(s.queues[q], own)])
  }

  predicate Init(s: State) {
    && SameSize(s) && S.Init(s.scheduler) && s.scheduler.nonIdle == 0
    && forall q :: 0 <= q < |s.queues| ==> Q.Init(s.queues[q])
  }

  // ---------- the invariant ----------

  function Total(qs: seq<Q.State>, f: Q.State -> int): int {
    if qs == [] then 0 else Total(qs[..|qs| - 1], f) + f(qs[|qs| - 1])
  }

  function Net(q: Q.State): int { q.net }

  function NonIdle(q: Q.State): int { Q.NonIdle(q.q) }

  /** The reports "became active" that a queue owes. */
  function ActiveOwed(q: Q.State): int { Q.Owing(q.threads) }

  /** And its reports "became idle". */
  function IdleOwed(q: Q.State): int { q.idleOwed }

  predicate Coupled(s: State) {
    && SameSize(s) && s.scheduler.nonIdle == Total(s.queues, Net)
    && forall q :: 0 <= q < |s.queues| ==> s.queues[q].q.running == s.scheduler.counts[q]
  }

  predicate Inv(s: State) {
    S.Inv(s.scheduler) && Coupled(s) && forall q :: 0 <= q < |s.queues| ==> Q.Inv(s.queues[q])
  }

  lemma {:induction false} TotalAfterUpdate(qs: seq<Q.State>, q: nat, st: Q.State)
    requires q < |qs|
    ensures Total(qs[q := st], Net) == Total(qs, Net) + st.net - qs[q].net
  {
    var n := |qs| - 1;
    if q == n {
      assert qs[q := st][..n] == qs[..n];
    } else {
      TotalAfterUpdate(qs[..n], q, st);
      assert qs[q := st][..n] == qs[..n][q := st];
    }
  }

  lemma {:induction false} TotalOfSameNets(qs: seq<Q.State>, rs: seq<Q.State>)
    requires |qs| == |rs| && forall q :: 0 <= q < |qs| ==> qs[q].net == rs[q].net
    ensures Total(qs, Net) == Total(rs, Net)
  {
    if qs != [] { TotalOfSameNets(qs[..|qs| - 1], rs[..|rs| - 1]); }
  }

  /** Every step of the scheduler moves each running count by at most one. */
  lemma {:induction false} CountsMoveByOne(s: S.State, step: S.Step, q: nat)
    requires S.SwitchInv(s) && S.Enabled(s, step) && !step.IdleChanged? && q < |s.counts|
    ensures var s' := S.Do(s, step);
            |s'.counts| == |s.counts| && -1 <= s'.counts[q] - s.counts[q] <= 1 && s'.nonIdle == s.nonIdle
  {
    if step.Proceed? { assert S.Do(s, step) == S.Proceeded(s, step.did); }
  }

  lemma {:induction false} FollowingKeepsQueue(q: Q.State, count: int)
    requires Q.Inv(q) && -1 <= count - q.q.running <= 1
    ensures Q.Inv(Followed(q, count)) && Followed(q, count).q.running == count && Followed(q, count).net == q.net
  {
    Q.StepKeepsInv(q, Q.Run(true));
    Q.StepKeepsInv(q, Q.Run(false));
  }

  lemma {:induction false} SchedulerSizes(s: S.State, step: S.Step)
    requires S.Enabled(s, step) && !step.IdleChanged?
    ensures |S.Do(s, step).counts| == |s.counts| && S.Do(s, step).nonIdle == s.nonIdle
  {}

  lemma {:induction false} SchedulerKeepsInv(s: State, step: S.Step)
    requires Inv(s) && Enabled(s, Scheduler(step))
    ensures Inv(Do(s, Scheduler(step)))
  {
    var s' := Do(s, Scheduler(step));
    S.StepKeepsInv(s.scheduler, step);
    SchedulerSizes(s.scheduler, step);
    forall q: nat | q < |s.queues|
      ensures Q.Inv(s'.queues[q]) && s'.queues[q].q.running == s'.scheduler.counts[q]
      ensures s'.queues[q].net == s.queues[q].net
    {
      CountsMoveByOne(s.scheduler, step, q);
      FollowingKeepsQueue(s.queues[q], s'.scheduler.counts[q]);
    }
    TotalOfSameNets(s.queues, s'.queues);
  }

  /** The net count of a queue moves with its reports, and its running count not at all. */
  lemma {:induction false} ReportsMoveNet(q: Q.State, own: Q.Step)
    requires Q.Enabled(q, own) && !own.Run?
    ensures Q.Do(q, own).net - q.net == if own.ReportActive? then 1 else if own.ReportIdle? then -1 else 0
    ensures Q.Do(q, own).q.running == q.q.running
  {}

  lemma {:induction false} IdleChangedKeepsCounts(s: S.State, idle: bool)
    requires S.Enabled(s, S.IdleChanged(idle))
    ensures var s' := S.Do(s, S.IdleChanged(idle));
            s'.counts == s.counts && s'.nonIdle == s.nonIdle + if idle then -1 else 1
  {}

  lemma {:induction false} SchedulerHearsReports(s: State, q: nat, own: Q.Step)
    requires S.Inv(s.scheduler) && SameSize(s) && Enabled(s, OfQueue(q, own))
    ensures var s' := Do(s, OfQueue(q, own)).scheduler;
            && S.Inv(s') && s'.counts == s.scheduler.counts
            && s'.nonIdle == s.scheduler.nonIdle + if own.ReportActive? then 1 else if own.ReportIdle? then -1 else 0
  {
    if IsReport(own) {
      S.StepKeepsInv(s.scheduler, S.IdleChanged(own.ReportIdle?));
      IdleChangedKeepsCounts(s.scheduler, own.ReportIdle?);
    }
  }

  lemma {:induction false} QueueKeepsInv(s: State, q: nat, own: Q.Step)
    requires Inv(s) && Enabled(s, OfQueue(q, own))
    ensures Inv(Do(s, OfQueue(q, own)))
  {
    Q.StepKeepsInv(s.queues[q], own);
    ReportsMoveNet(s.queues[q], own);
    TotalAfterUpdate(s.queues, q, Q.Do(s.queues[q], own));
    SchedulerHearsReports(s, q, own);
  }

  /** Every step, however it is interleaved, keeps the running counts and the count of active queues in
      step with the queues. */
  lemma {:induction false} StepKeepsInv(s: State, step: Step)
    requires Inv(s) && Enabled(s, step)
    ensures Inv(Do(s, step))
  {
    match step
    case Scheduler(step) => SchedulerKeepsInv(s, step);
    case OfQueue(q, own) => QueueKeepsInv(s, q, own);
  }

  // ---------- every run ----------

  predicate Goes(s: State, step: Step, next: State) {
    SameSize(s) && Enabled(s, step) && next == Do(s, step)
  }

  /** A run with any pauses, errors and source activations. */
  ghost predicate IsRun(states: seq<State>, steps: seq<Step>) {
    && |states| == |steps| + 1 && Init(states[0])
    && forall i :: 0 <= i < |steps| ==> Goes(states[i], steps[i], states[i + 1])
  }

  lemma {:induction false} NoNets(qs: seq<Q.State>)
    requires forall q :: 0 <= q < |qs| ==> qs[q].net == 0
    ensures Total(qs, Net) == 0
  {
    if qs != [] { NoNets(qs[..|qs| - 1]); }
  }

  lemma {:induction false} StartingCounts(q: Q.State)
    requires Q.Init(q)
    ensures q.net == 0 && q.q.running == 0
  {}

  lemma {:induction false} InitIsCoupled(s: State)
    requires Init(s)
    ensures S.Inv(s.scheduler) && Coupled(s)
  {
    forall q | 0 <= q < |s.queues| ensures s.queues[q].net == 0 && s.queues[q].q.running == 0 {
      StartingCounts(s.queues[q]);
    }
    NoNets(s.queues);
  }

  lemma {:induction false} InitHasInv(s: State)
    requires Init(s)
    ensures Inv(s)
  {
    InitIsCoupled(s);
    forall q: nat | q < |s.queues| ensures Q.Inv(s.queues[q]) { Q.InitHasInv(s.queues[q]); }
  }

  lemma {:induction false} RunKeepsInv(states: seq<State>, steps: seq<Step>, i: nat)
    requires IsRun(states, steps) && i < |states|
    ensures Inv(states[i])
  {
    if i == 0 {
      InitHasInv(states[0]);
    } else {
      RunKeepsInv(states, steps, i - 1);
      assert Goes(states[i - 1], steps[i - 1], states[i - 1 + 1]);
      StepKeepsInv(states[i - 1], steps[i - 1]);
    }
  }

  // ---------- what the count of active queues tells ----------

  lemma {:induction false} TotalsAddUp(qs: seq<Q.State>)
    requires forall q :: 0 <= q < |qs| ==> Q.Inv(qs[q])
    ensures Total(qs, Net) == Total(qs, NonIdle) - Total(qs, ActiveOwed) + Total(qs, IdleOwed)
  {
    if qs != [] { TotalsAddUp(qs[..|qs| - 1]); }
  }

  lemma {:induction false} TotalIsZero(qs: seq<Q.State>, f: Q.State -> int)
    requires forall q :: 0 <= q < |qs| ==> f(qs[q]) >= 0
    ensures Total(qs, f) >= 0
    ensures Total(qs, f) == 0 <==> forall q :: 0 <= q < |qs| ==> f(qs[q]) == 0
  {
    if qs != [] {
      var n := |qs| - 1;
      TotalIsZero(qs[..n], f);
      if Total(qs, f) == 0 {
        forall q | 0 <= q < |qs| ensures f(qs[q]) == 0 { if q < n { assert qs[..n][q] == qs[q]; } }
      }
    }
  }

  /** The queue is idle and has said so. */
  predicate AtRest(q: Q.State) {
    IsIdle(q.q) && q.idleOwed == 0
  }

  predicate AllAtRest(qs: seq<Q.State>) {
    forall q :: 0 <= q < |qs| ==> AtRest(qs[q])
  }

  predicate NobodyOwes(qs: seq<Q.State>) {
    forall q :: 0 <= q < |qs| ==> Q.Owing(qs[q].threads) == 0
  }

  lemma {:induction false} AllAtRestIff(qs: seq<Q.State>)
    requires (forall q :: 0 <= q < |qs| ==> Q.Inv(qs[q])) && Total(qs, Net) == 0
    ensures Total(qs, NonIdle) + Total(qs, IdleOwed) == Total(qs, ActiveOwed)
    ensures AllAtRest(qs) <==> NobodyOwes(qs)
  {
    TotalsAddUp(qs);
    TotalIsZero(qs, NonIdle);
    TotalIsZero(qs, IdleOwed);
    TotalIsZero(qs, ActiveOwed);
    assert forall q :: 0 <= q < |qs| ==> (AtRest(qs[q]) <==> NonIdle(qs[q]) == 0 && IdleOwed(qs[q]) == 0);
    assert forall q :: 0 <= q < |qs| ==> ActiveOwed(qs[q]) == Q.Owing(qs[q].threads);
  }

  /** In every run, what the scheduler knows when its count of active queues is zero: the queues that are
      not idle and the reports "became idle" still owed are as many as the reports "became active" still
      owed. So all queues are at rest exactly if nobody owes one. */
  lemma {:induction false} ZeroCountMeansIdleIff(states: seq<State>, steps: seq<Step>, i: nat)
    requires IsRun(states, steps) && i < |states| && states[i].scheduler.nonIdle == 0
    ensures var qs := states[i].queues;
            && Total(qs, NonIdle) + Total(qs, IdleOwed) == Total(qs, ActiveOwed)
            && (AllAtRest(qs) <==> NobodyOwes(qs))
  {
    RunKeepsInv(states, steps, i);
    AllAtRestIff(states[i].queues);
  }

  /** And so at the step that terminates a run. */
  lemma {:induction false} TerminatedMeansIdleIff(states: seq<State>, steps: seq<Step>, i: nat)
    requires IsRun(states, steps) && i < |steps|
    requires states[i].scheduler.state != S.Terminated && states[i + 1].scheduler.state == S.Terminated
    ensures var qs := states[i + 1].queues;
            && Total(qs, NonIdle) + Total(qs, IdleOwed) == Total(qs, ActiveOwed)
            && (AllAtRest(qs) <==> NobodyOwes(qs))
  {
    TerminationFindsZero(states, steps, i);
    ZeroCountMeansIdleIff(states, steps, i + 1);
  }

  lemma {:induction false} TerminationFindsZero(states: seq<State>, steps: seq<Step>, i: nat)
    requires IsRun(states, steps) && i < |steps|
    requires states[i].scheduler.state != S.Terminated && states[i + 1].scheduler.state == S.Terminated
    ensures states[i + 1].scheduler.nonIdle == 0
  {
    var s, step := states[i], steps[i];
    RunKeepsInv(states, steps, i);
    assert Goes(s, step, states[i + 1]);
    if step.Scheduler? { S.TerminationFindsZero(s.scheduler, step.step); }
  }

  // ---------- runs that keep their reports in order ----------

  /** The condition under which the queues keep their reports in order. */
  predicate Guarded(s: State, step: Step) {
    step.OfQueue? && step.q < |s.queues| ==> Q.Guarded(s.queues[step.q], step.own)
  }

  ghost predicate IsGuardedRun(states: seq<State>, steps: seq<Step>) {
    IsRun(states, steps) && forall i :: 0 <= i < |steps| ==> Guarded(states[i], steps[i])
  }

  lemma {:induction false} FollowingKeepsOrder(q: Q.State, count: int)
    requires Q.Inv(q) && Q.InOrder(q)
    ensures Q.InOrder(Followed(q, count))
  {
    Q.StepKeepsOrder(q, Q.Run(true));
    Q.StepKeepsOrder(q, Q.Run(false));
  }

  predicate AllInOrder(s: State) {
    forall q :: 0 <= q < |s.queues| ==> Q.InOrder(s.queues[q])
  }

  lemma {:induction false} StepKeepsOrder(s: State, step: Step, next: State)
    requires Inv(s) && Goes(s, step, next) && Guarded(s, step) && AllInOrder(s)
    ensures AllInOrder(next)
  {
    match step
    case Scheduler(own) =>
      SchedulerSizes(s.scheduler, own);
      forall q: nat | q < |s.queues| ensures Q.InOrder(next.queues[q]) {
        FollowingKeepsOrder(s.queues[q], next.scheduler.counts[q]);
      }
    case OfQueue(q, own) => Q.StepKeepsOrder(s.queues[q], own);
  }

  predicate OrderInv(s: State) {
    Inv(s) && AllInOrder(s)
  }

  lemma {:induction false} StepKeepsOrderInv(s: State, step: Step, next: State)
    requires OrderInv(s) && Goes(s, step, next) && Guarded(s, step)
    ensures OrderInv(next)
  {
    StepKeepsInv(s, step);
    StepKeepsOrder(s, step, next);
  }

  lemma {:induction false} StartingOrder(q: Q.State)
    requires Q.Init(q)
    ensures Q.InOrder(q) && Quiet(q) && Q.ReportsFirst(q)
  {
    Q.StartIsInOrder();
  }

  lemma {:induction false} StartingOrders(s: State)
    requires Init(s)
    ensures AllInOrder(s) && AllQuiet(s) && AllReportFirst(s)
  {
    forall q: nat | q < |s.queues|
      ensures Q.InOrder(s.queues[q]) && Quiet(s.queues[q]) && Q.ReportsFirst(s.queues[q])
    {
      StartingOrder(s.queues[q]);
    }
  }

  lemma {:induction false} InitIsInOrder(s: State)
    requires Init(s)
    ensures OrderInv(s) && QuietInv(s) && FirstInv(s)
  {
    InitHasInv(s);
    StartingOrders(s);
  }

  lemma {:induction false} RunKeepsOrder(states: seq<State>, steps: seq<Step>, i: nat)
    requires IsGuardedRun(states, steps) && i < |states|
    ensures OrderInv(states[i])
  {
    if i == 0 {
      InitIsInOrder(states[0]);
    } else {
      RunKeepsOrder(states, steps, i - 1);
      assert Goes(states[i - 1], steps[i - 1], states[i - 1 + 1]);
      StepKeepsOrderInv(states[i - 1], steps[i - 1], states[i]);
    }
  }

  lemma {:induction false} NetWithinTotal(qs: seq<Q.State>, q: nat)
    requires q < |qs| && forall r :: 0 <= r < |qs| ==> Q.Inv(qs[r]) && Q.InOrder(qs[r])
    ensures 0 <= qs[q].net <= Total(qs, Net)
  {
    var n := |qs| - 1;
    Q.NetTellsIdle(qs[n]);
    if q < n { NetWithinTotal(qs[..n], q); } else { NetsAreNatural(qs[..n]); }
  }

  lemma {:induction false} NetsAreNatural(qs: seq<Q.State>)
    requires forall r :: 0 <= r < |qs| ==> Q.Inv(qs[r]) && Q.InOrder(qs[r])
    ensures 0 <= Total(qs, Net)
  {
    if qs != [] {
      Q.NetTellsIdle(qs[|qs| - 1]);
      NetsAreNatural(qs[..|qs| - 1]);
    }
  }

  /** In a guarded run each queue can be judged by itself: at a count of zero it owes no report "became
      idle", at most one thread owes its "became active", and it is idle exactly if none does. */
  lemma {:induction false} ZeroCountMeansIdle(states: seq<State>, steps: seq<Step>, i: nat, q: nat)
    requires IsGuardedRun(states, steps) && i < |states| && q < |states[i].queues| && states[i].scheduler.nonIdle == 0
    ensures var queue := states[i].queues[q];
            && queue.net == 0 && queue.idleOwed == 0 && Q.Owing(queue.threads) <= 1
            && (IsIdle(queue.q) <==> Q.Owing(queue.threads) == 0)
  {
    var qs := states[i].queues;
    RunKeepsOrder(states, steps, i);
    NetWithinTotal(qs, q);
    Q.NetTellsIdle(qs[q]);
  }

  lemma {:induction false} TerminatedMeansIdle(states: seq<State>, steps: seq<Step>, i: nat, q: nat)
    requires IsGuardedRun(states, steps) && i < |steps| && q < |states[i + 1].queues|
    requires states[i].scheduler.state != S.Terminated && states[i + 1].scheduler.state == S.Terminated
    ensures var queue := states[i + 1].queues[q];
            && queue.net == 0 && queue.idleOwed == 0 && Q.Owing(queue.threads) <= 1
            && (IsIdle(queue.q) <==> Q.Owing(queue.threads) == 0)
  {
    TerminationFindsZero(states, steps, i);
    ZeroCountMeansIdle(states, steps, i + 1, q);
  }

  // ---------- when a run is guarded ----------

  /** No queue starts to run while the report of an item added to it is owed, and none is cleaned up
      while any is. */
  predicate StartsQuietly(s: State, step: Step) {
    && SameSize(s) && Enabled(s, step)
    && (step.OfQueue? && step.own.Cleanup? ==> Q.Owing(s.queues[step.q].threads) == 0)
    && forall q :: 0 <= q < |s.queues| && q < |Do(s, step).queues| ==>
         s.queues[q].q.running <= 0 < Do(s, step).queues[q].q.running ==> Q.ReportsFirst(s.queues[q])
  }

  /** In a running queue whoever owes "became active" still holds a task of the queue. */
  predicate Quiet(q: Q.State) {
    q.q.running > 0 ==> Q.ReportsFirst(q)
  }

  lemma {:induction false} OwnStepStaysQuiet(q: Q.State, own: Q.Step)
    requires Q.Inv(q) && Quiet(q) && Q.Enabled(q, own) && !own.Run? && (own.Cleanup? ==> Q.Owing(q.threads) == 0)
    ensures Quiet(Q.Do(q, own)) && Q.Guarded(q, own)
  {}

  lemma {:induction false} FollowedThreads(q: Q.State, count: int)
    ensures Followed(q, count).threads == q.threads
  {}

  predicate AllQuiet(s: State) {
    forall q :: 0 <= q < |s.queues| ==> Quiet(s.queues[q])
  }

  lemma {:induction false} StepStaysQuiet(s: State, step: Step, next: State)
    requires Inv(s) && Goes(s, step, next) && StartsQuietly(s, step) && AllQuiet(s)
    ensures Guarded(s, step) && AllQuiet(next)
  {
    match step
    case Scheduler(own) =>
      SchedulerSizes(s.scheduler, own);
      forall q: nat | q < |s.queues| ensures Quiet(next.queues[q]) {
        FollowedThreads(s.queues[q], next.scheduler.counts[q]);
      }
    case OfQueue(q, own) => OwnStepStaysQuiet(s.queues[q], own);
  }

  ghost predicate IsQuietRun(states: seq<State>, steps: seq<Step>) {
    IsRun(states, steps) && forall i :: 0 <= i < |steps| ==> StartsQuietly(states[i], steps[i])
  }

  predicate QuietInv(s: State) {
    Inv(s) && AllQuiet(s)
  }

  lemma {:induction false} StepKeepsQuietInv(s: State, step: Step, next: State)
    requires QuietInv(s) && Goes(s, step, next) && StartsQuietly(s, step)
    ensures Guarded(s, step) && QuietInv(next)
  {
    StepKeepsInv(s, step);
    StepStaysQuiet(s, step, next);
  }

  lemma {:induction false} RunStaysQuiet(states: seq<State>, steps: seq<Step>, i: nat)
    requires IsQuietRun(states, steps) && i < |states|
    ensures QuietInv(states[i])
  {
    if i == 0 {
      InitIsInOrder(states[0]);
    } else {
      RunStaysQuiet(states, steps, i - 1);
      assert Goes(states[i - 1], steps[i - 1], states[i - 1 + 1]);
      StepKeepsQuietInv(states[i - 1], steps[i - 1], states[i]);
    }
  }

  /** Guarded is every run in which queues start, resume and are activated quietly. */
  lemma {:induction false} QuietRunIsGuarded(states: seq<State>, steps: seq<Step>)
    requires IsQuietRun(states, steps)
    ensures IsGuardedRun(states, steps)
  {
    forall i: nat | i < |steps| ensures Guarded(states[i], steps[i]) {
      RunStaysQuiet(states, steps, i);
      assert Goes(states[i], steps[i], states[i + 1]);
      StepKeepsQuietInv(states[i], steps[i], states[i + 1]);
    }
  }

  /** The step adds no item to a stopped queue and cleans none up. */
  predicate AddsToRunning(s: State, step: Step) {
    step.OfQueue? && step.q < |s.queues| ==>
      !step.own.Cleanup? && (step.own.Push? ==> s.queues[step.q].q.running > 0)
  }

  predicate AllReportFirst(s: State) {
    forall q :: 0 <= q < |s.queues| ==> Q.ReportsFirst(s.queues[q])
  }

  lemma {:induction false} OwnStepReportsFirst(q: Q.State, own: Q.Step)
    requires Q.Inv(q) && Q.ReportsFirst(q) && Q.Enabled(q, own) && !own.Cleanup? && (own.Push? ==> q.q.running > 0)
    ensures Q.ReportsFirst(Q.Do(q, own))
  {}

  lemma {:induction false} StepReportsFirst(s: State, step: Step, next: State)
    requires Inv(s) && Goes(s, step, next) && AddsToRunning(s, step) && AllReportFirst(s)
    ensures StartsQuietly(s, step) && AllReportFirst(next)
  {
    match step
    case Scheduler(own) =>
      SchedulerSizes(s.scheduler, own);
      forall q: nat | q < |s.queues| ensures Q.ReportsFirst(next.queues[q]) {
        FollowedThreads(s.queues[q], next.scheduler.counts[q]);
      }
    case OfQueue(q, own) => OwnStepReportsFirst(s.queues[q], own);
  }

  predicate FirstInv(s: State) {
    Inv(s) && AllReportFirst(s)
  }

  lemma {:induction false} StepKeepsFirstInv(s: State, step: Step, next: State)
    requires FirstInv(s) && Goes(s, step, next) && AddsToRunning(s, step)
    ensures StartsQuietly(s, step) && FirstInv(next)
  {
    StepKeepsInv(s, step);
    StepReportsFirst(s, step, next);
  }

  ghost predicate IsAddingRun(states: seq<State>, steps: seq<Step>) {
    IsRun(states, steps) && forall i :: 0 <= i < |steps| ==> AddsToRunning(states[i], steps[i])
  }

  lemma {:induction false} RunReportsFirst(states: seq<State>, steps: seq<Step>, i: nat)
    requires IsAddingRun(states, steps) && i < |states|
    ensures FirstInv(states[i])
  {
    if i == 0 {
      InitIsInOrder(states[0]);
    } else {
      RunReportsFirst(states, steps, i - 1);
      assert Goes(states[i - 1], steps[i - 1], states[i - 1 + 1]);
      StepKeepsFirstInv(states[i - 1], steps[i - 1], states[i]);
    }
  }

  /** In particular every run in which items are added to running queues only. */
  lemma {:induction false} AddingWhileRunningIsGuarded(states: seq<State>, steps: seq<Step>)
    requires IsAddingRun(states, steps)
    ensures IsGuardedRun(states, steps)
  {
    forall i: nat | i < |steps| ensures StartsQuietly(states[i], steps[i]) {
      assert Goes(states[i], steps[i], states[i + 1]);
      RunReportsFirst(states, steps, i);
      StepKeepsFirstInv(states[i], steps[i], states[i + 1]);
    }
    QuietRunIsGuarded(states, steps);
  }
}
