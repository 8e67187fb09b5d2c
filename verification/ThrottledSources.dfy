/** One source together with the table that throttles it: the source's throttle is what the table says,
    and the callback that empties the source's set proposes it. */
module ThrottledSources {
  import opened Streams
  import T = Throttling
  import S = SourceScheduling
  import N = CalculatorNodes

  datatype State = State(table: T.State, source: S.State)

  datatype Step =
    | Change(i: nat, op: T.Op)   // some thread updates a stream
    | Callback(i: nat)           // a thread makes the callback it owes about a stream
    | Source(step: S.Step)       // the source's own steps

  /** `n` is the source's number. */
  predicate Enabled(c: T.Config, n: nat, s: State, step: Step) {
    match step
    case Change(i, op) => T.Enabled(c, s.table, T.Change(i, op))
    case Callback(i) => T.Enabled(c, s.table, T.Callback(i))
    case Source(step) => !step.Throttle? && !step.Unthrottle? && S.Enabled(s.source, step)
  }

  predicate IsThrottled(c: T.Config, t: T.State, n: nat) {
    n < |t.table.full| && T.IsNodeThrottled(c, t.table, n)
  }

  predicate HasFull(t: T.State, n: nat) {
    n < |t.table.full| && t.table.full[n] != {}
  }

  /** What a callback does to the source: it may be throttled; and if its set was emptied, it is
      proposed whether or not the graph limits its queues. */
  function Told(c: T.Config, n: nat, before: T.State, after: T.State, source: S.State): S.State {
    if HasFull(before, n) && !HasFull(after, n) then S.Do(source, S.Unthrottle)
    else if IsThrottled(c, after, n) && S.Enabled(source, S.Throttle) then S.Do(source, S.Throttle)
    else source
  }

  function Do(c: T.Config, n: nat, s: State, step: Step): State
    requires Enabled(c, n, s, step)
  {
    match step
    case Change(i, op) => s.(table := T.Do(c, s.table, T.Change(i, op)))
    case Callback(i) =>
      var table := T.Do(c, s.table, T.Callback(i));
      State(table, Told(c, n, s.table, table, s.source))
    case Source(step) => s.(source := S.Do(s.source, step))
  }

  predicate Init(c: T.Config, s: State) {
    T.Init(c, s.table) && S.Init(s.source) && !s.source.throttled
  }

  predicate Inv(c: T.Config, n: nat, s: State) {
    T.Inv(c, s.table) && S.Inv(s.source) && s.source.throttled == IsThrottled(c, s.table, n)
  }

  lemma {:induction false} CallbackKeepsInv(c: T.Config, n: nat, s: State, i: nat)
    requires n < c.nodes && Inv(c, n, s) && Enabled(c, n, s, Callback(i))
    ensures Inv(c, n, Do(c, n, s, Callback(i)))
  {
    var table := T.Do(c, s.table, T.Callback(i));
    T.StepKeepsInv(c, s.table, T.Callback(i));
    if HasFull(s.table, n) && !HasFull(table, n) {
      S.StepKeepsInv(s.source, S.Unthrottle);
    } else if IsThrottled(c, table, n) && S.Enabled(s.source, S.Throttle) {
      S.StepKeepsInv(s.source, S.Throttle);
    }
  }

  lemma {:induction false} StepKeepsInv(c: T.Config, n: nat, s: State, step: Step)
    requires n < c.nodes && Inv(c, n, s) && Enabled(c, n, s, step)
    ensures Inv(c, n, Do(c, n, s, step))
  {
    match step
    case Change(i, op) => T.StepKeepsInv(c, s.table, T.Change(i, op));
    case Callback(i) => CallbackKeepsInv(c, n, s, i);
    case Source(step) => S.StepKeepsInv(s.source, step);
  }

  ghost predicate IsRun(c: T.Config, n: nat, states: seq<State>, steps: seq<Step>) {
    && |states| == |steps| + 1 && Init(c, states[0])
    && forall i :: 0 <= i < |steps| ==>
         Enabled(c, n, states[i], steps[i]) && states[i + 1] == Do(c, n, states[i], steps[i])
  }

  lemma {:induction false} RunKeepsInv(c: T.Config, n: nat, states: seq<State>, steps: seq<Step>, i: nat)
    requires n < c.nodes && IsRun(c, n, states, steps) && i < |states|
    ensures Inv(c, n, states[i])
  {
    if i == 0 {
      T.NoneThrottled(states[0].table.table.full, c.calculators);
    } else {
      RunKeepsInv(c, n, states, steps, i - 1);
      StepKeepsInv(c, n, states[i - 1], steps[i - 1]);
    }
  }

  /** The graph limits its queues, and a stream that the source feeds is full or is owed a callback. */
  ghost predicate MayBeThrottled(c: T.Config, t: T.State, n: nat) {
    && c.maxQueueSize != -1 && |t.streams| == |t.owed| == |c.upstream|
    && exists i :: 0 <= i < |c.upstream| && n in c.upstream[i] && (IsFull(t.streams[i]) || t.owed[i] > 0)
  }

  lemma {:induction false} ThrottledForReason(c: T.Config, t: T.State, n: nat)
    requires T.Inv(c, t) && IsThrottled(c, t, n)
    ensures MayBeThrottled(c, t, n)
  {
    var i: nat :| i in t.table.full[n];
    assert t.reported[i] && n in c.upstream[i];
  }

  /** An active source never stalls unless a stream that it feeds is full or is owed the callback that
      says it is not: otherwise the source is queued or running, or some thread will yet propose it. */
  lemma {:induction false} SourceGoesOn(c: T.Config, n: nat, states: seq<State>, steps: seq<Step>, k: nat)
    requires n < c.nodes && IsRun(c, n, states, steps) && k < |states|
    requires states[k].source.node.status == N.StateActive && !MayBeThrottled(c, states[k].table, n)
    ensures var s := states[k].source;
            s.activating > 0 || s.wanted > 0 || s.queued > 0 || s.running > 0 || s.ending > 0 || s.loops != []
  {
    RunKeepsInv(c, n, states, steps, k);
    if IsThrottled(c, states[k].table, n) { ThrottledForReason(c, states[k].table, n); }
  }
}
