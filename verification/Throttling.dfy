/** Throttling of packet sources: when an input stream becomes full, every source upstream of its
    producer is throttled until it is not full any more. The stream reports changes of its fullness
    after its own critical section, so reports may arrive late and out of order. */
module Throttling {
  import opened Timestamps
  import opened Options
  import opened Streams
  import StreamRuns

  /** Nodes are numbered calculators first, then graph inputs. `upstream[i]` lists the sources and
      graph inputs from which stream `i` may be fed, each once. A graph with a maximum queue size of -1
      keeps the table but throttles no node by it. */
  datatype Config = Config(calculators: nat, nodes: nat, upstream: seq<seq<nat>>, maxQueueSize: int)

  /** For each node the full streams that throttle it, and the number of throttled graph inputs. */
  datatype Table = Table(full: seq<set<nat>>, throttledInputs: int)

  /** `reported` is the fullness of each stream as the table last saw it; `owed` counts the
      callbacks about it that are still to come. */
  datatype State = State(streams: seq<Stream>, reported: seq<bool>, owed: seq<nat>, table: Table)

  datatype Op =
    | Add(packets: seq<Packet>) | Raise(bound: Timestamp) | Select(time: Timestamp) | Shut | Resize(maxSize: int)

  datatype Step = Change(i: nat, op: Op) | Callback(i: nat)

  datatype Effect = Effect(stream: Stream, ok: bool, reports: bool)

  function Apply(st: Stream, op: Op): Effect {
    match op
    case Add(ps) => var u := AddPackets(st, ps); Effect(u.stream, u.ok, u.becameFull)
    case Raise(b) => var u := SetNextTimestampBound(st, b); Effect(u.stream, u.ok, false)
    case Select(t) => var r := PopPacketAtTimestamp(st, t); Effect(r.stream, true, r.becameNotFull)
    case Shut => Effect(Close(st), true, false)
    case Resize(m) => var u := SetMaxQueueSize(st, m); Effect(u.stream, true, u.becameFull || u.becameNotFull)
  }

  predicate WellFormed(c: Config) {
    && c.calculators <= c.nodes
    && forall i :: 0 <= i < |c.upstream| ==> Enumerates(c.upstream[i], c.nodes)
  }

  predicate Enumerates(ns: seq<nat>, nodes: nat) {
    && (forall k :: 0 <= k < |ns| ==> ns[k] < nodes)
    && forall k, l :: 0 <= k < l < |ns| ==> ns[k] != ns[l]
  }

  /** One round of the loop over the upstream nodes. */
  function Mark(calculators: nat, t: Table, n: nat, i: nat, isFull: bool): Table
    requires n < |t.full|
  {
    var was, now := t.full[n], if isFull then t.full[n] + {i} else t.full[n] - {i};
    Table(t.full[n := now],
          if n < calculators then t.throttledInputs
          else if now == {} then t.throttledInputs - 1
          else if was == {} then t.throttledInputs + 1
          else t.throttledInputs)
  }

  function MarkAll(calculators: nat, t: Table, ns: seq<nat>, i: nat, isFull: bool): (r: Table)
    requires forall k :: 0 <= k < |ns| ==> ns[k] < |t.full|
    ensures |r.full| == |t.full|
  {
    if ns == [] then t else
    Mark(calculators, MarkAll(calculators, t, ns[..|ns| - 1], i, isFull), ns[|ns| - 1], i, isFull)
  }

  /** The callback: fullness is looked up again under the table's own mutex. */
  function Called(c: Config, s: State, i: nat): State
    requires Shaped(c, s) && i < |s.streams|
  {
    var isFull := IsFull(s.streams[i]);
    if s.reported[i] == isFull then s else
    s.(reported := s.reported[i := isFull], table := MarkAll(c.calculators, s.table, c.upstream[i], i, isFull))
  }

  predicate Shaped(c: Config, s: State) {
    WellFormed(c) && |s.streams| == |s.reported| == |s.owed| == |c.upstream| && |s.table.full| == c.nodes
  }

  /** A batch that is refused after the packets taken have filled the queue. */
  predicate FillsAndFails(st: Stream, op: Op) {
    && op.Add? && !st.closed && !IsFull(st) && StreamRuns.Taken(st, op.packets) < |op.packets|
    && 0 <= st.maxSize <= |st.queue| + StreamRuns.Taken(st, op.packets)
  }

  /** Any update of a stream, but for a batch whose refusal leaves the stream's fullness unreported. */
  predicate Enabled(c: Config, s: State, step: Step) {
    Shaped(c, s) && step.i < |s.streams| &&
    match step
    case Change(i, op) => !FillsAndFails(s.streams[i], op)
    case Callback(i) => s.owed[i] > 0
  }

  function Do(c: Config, s: State, step: Step): State
    requires Enabled(c, s, step)
  {
    match step
    case Change(i, op) =>
      var e := Apply(s.streams[i], op);
      s.(streams := s.streams[i := e.stream], owed := s.owed[i := s.owed[i] + if e.reports then 1 else 0])
    case Callback(i) => Called(c, s, i).(owed := s.owed[i := s.owed[i] - 1])
  }

  predicate Init(c: Config, s: State) {
    && Shaped(c, s) && s.table.throttledInputs == 0
    && (forall i :: 0 <= i < |s.streams| ==> s.streams[i].queue == [] && s.streams[i].maxSize != 0)
    && (forall i :: 0 <= i < |s.streams| ==> !s.reported[i])
    && forall n :: 0 <= n < c.nodes ==> s.table.full[n] == {}
  }

  // ---------- the invariant ----------

  function ThrottledInputs(full: seq<set<nat>>, calculators: nat): nat {
    if |full| <= calculators then 0 else
    ThrottledInputs(full[..|full| - 1], calculators) + if full[|full| - 1] != {} then 1 else 0
  }

  /** The streams that node `n` feeds among those last seen full. */
  function Throttlers(c: Config, reported: seq<bool>, n: nat): set<nat> {
    set i: nat | i < |reported| && i < |c.upstream| && reported[i] && n in c.upstream[i]
  }

  predicate Exact(c: Config, s: State)
    requires Shaped(c, s)
  {
    forall n :: 0 <= n < c.nodes ==> s.table.full[n] == Throttlers(c, s.reported, n)
  }

  /** What the table last saw is the truth unless a callback is on its way. */
  predicate ReportsComing(s: State)
    requires |s.streams| == |s.reported| == |s.owed|
  {
    forall i :: 0 <= i < |s.streams| ==> s.reported[i] == IsFull(s.streams[i]) || s.owed[i] > 0
  }

  predicate Inv(c: Config, s: State) {
    && Shaped(c, s) && Exact(c, s) && ReportsComing(s)
    && s.table.throttledInputs == ThrottledInputs(s.table.full, c.calculators)
  }

  // ---------- reports ----------

  /** An update reports exactly if it changes the stream's fullness, with one exception: a batch that
      fills the queue and is then refused. */
  lemma {:induction false} ReportsExactly(st: Stream, op: Op)
    ensures (Apply(st, op).reports <==> IsFull(st) != IsFull(Apply(st, op).stream)) <==> !FillsAndFails(st, op)
    ensures Apply(st, op).ok ==> !FillsAndFails(st, op)
  {
    if op.Add? && !st.closed {
      StreamRuns.AddedQueue(st, op.packets);
      StreamRuns.FullReportIsLostIff(st, op.packets);
    }
  }

  lemma {:induction false} ChangeKeepsInv(c: Config, s: State, i: nat, op: Op)
    requires Inv(c, s) && Enabled(c, s, Change(i, op))
    ensures Inv(c, Do(c, s, Change(i, op)))
  {
    ReportsExactly(s.streams[i], op);
  }

  // ---------- the table ----------

  lemma {:induction false} CountAfterUpdate(full: seq<set<nat>>, calculators: nat, n: nat, now: set<nat>)
    requires n < |full|
    ensures ThrottledInputs(full[n := now], calculators) == ThrottledInputs(full, calculators)
              + if n < calculators || (now == {} <==> full[n] == {}) then 0 else if now == {} then -1 else 1
    decreases |full|
  {
    var k := |full| - 1;
    if |full| > calculators {
      if n < k {
        CountAfterUpdate(full[..k], calculators, n, now);
        assert full[n := now][..k] == full[..k][n := now];
      } else {
        assert full[n := now][..k] == full[..k];
      }
    }
  }

  /** The table counts one change right if the stream joins or leaves the node's set by it. */
  lemma {:induction false} MarkCounts(calculators: nat, t: Table, n: nat, i: nat, isFull: bool)
    requires n < |t.full| && (i in t.full[n] <==> !isFull)
    requires t.throttledInputs == ThrottledInputs(t.full, calculators)
    ensures var r := Mark(calculators, t, n, i, isFull);
            r.throttledInputs == ThrottledInputs(r.full, calculators)
  {
    CountAfterUpdate(t.full, calculators, n, if isFull then t.full[n] + {i} else t.full[n] - {i});
  }

  ghost predicate Marked(before: seq<set<nat>>, after: seq<set<nat>>, ns: seq<nat>, i: nat, isFull: bool) {
    && |before| == |after|
    && forall n :: 0 <= n < |before| ==>
         after[n] == if n !in ns then before[n] else if isFull then before[n] + {i} else before[n] - {i}
  }

  lemma {:induction false} MarkAllMarks(calculators: nat, t: Table, ns: seq<nat>, i: nat, isFull: bool)
    requires Enumerates(ns, |t.full|)
    ensures Marked(t.full, MarkAll(calculators, t, ns, i, isFull).full, ns, i, isFull)
    decreases |ns|
  {
    if ns != [] { MarkAllMarks(calculators, t, ns[..|ns| - 1], i, isFull); }
  }

  lemma {:induction false} MarkAllCounts(calculators: nat, t: Table, ns: seq<nat>, i: nat, isFull: bool)
    requires Enumerates(ns, |t.full|)
    requires forall k :: 0 <= k < |ns| ==> (i in t.full[ns[k]] <==> !isFull)
    requires t.throttledInputs == ThrottledInputs(t.full, calculators)
    ensures var r := MarkAll(calculators, t, ns, i, isFull);
            r.throttledInputs == ThrottledInputs(r.full, calculators)
    decreases |ns|
  {
    if ns != [] {
      var k := |ns| - 1;
      MarkAllCounts(calculators, t, ns[..k], i, isFull);
      MarkAllMarks(calculators, t, ns[..k], i, isFull);
      MarkCounts(calculators, MarkAll(calculators, t, ns[..k], i, isFull), ns[k], i, isFull);
    }
  }

  lemma {:induction false} CalledIsExact(c: Config, s: State, i: nat)
    requires Shaped(c, s) && Exact(c, s) && i < |s.streams|
    ensures Exact(c, Called(c, s, i))
  {
    var isFull, s' := IsFull(s.streams[i]), Called(c, s, i);
    MarkAllMarks(c.calculators, s.table, c.upstream[i], i, isFull);
    if s.reported[i] != isFull {
      forall n: nat | n < c.nodes ensures s'.table.full[n] == Throttlers(c, s'.reported, n) {
        OneMoreOrLess(c, s.reported, n, i, isFull);
      }
    }
  }

  lemma {:induction false} OneMoreOrLess(c: Config, reported: seq<bool>, n: nat, i: nat, now: bool)
    requires i < |reported| == |c.upstream|
    ensures var before := Throttlers(c, reported, n);
            Throttlers(c, reported[i := now], n)
            == if n !in c.upstream[i] then before else if now then before + {i} else before - {i}
  {}

  lemma {:induction false} CalledCounts(c: Config, s: State, i: nat)
    requires Inv(c, s) && i < |s.streams|
    ensures Called(c, s, i).table.throttledInputs == ThrottledInputs(Called(c, s, i).table.full, c.calculators)
  {
    if s.reported[i] != IsFull(s.streams[i]) {
      MarkAllCounts(c.calculators, s.table, c.upstream[i], i, IsFull(s.streams[i]));
    }
  }

  lemma {:induction false} CallbackKeepsInv(c: Config, s: State, i: nat)
    requires Inv(c, s) && Enabled(c, s, Callback(i))
    ensures Inv(c, Do(c, s, Callback(i)))
  {
    CalledIsExact(c, s, i);
    CalledCounts(c, s, i);
  }

  lemma {:induction false} StepKeepsInv(c: Config, s: State, step: Step)
    requires Inv(c, s) && Enabled(c, s, step)
    ensures Inv(c, Do(c, s, step))
  {
    match step
    case Change(i, op) => ChangeKeepsInv(c, s, i, op);
    case Callback(i) => CallbackKeepsInv(c, s, i);
  }

  // ---------- every run ----------

  ghost predicate IsRun(c: Config, states: seq<State>, steps: seq<Step>) {
    && |states| == |steps| + 1 && Init(c, states[0])
    && forall i :: 0 <= i < |steps| ==> Enabled(c, states[i], steps[i]) && states[i + 1] == Do(c, states[i], steps[i])
  }

  lemma {:induction false} NoneThrottled(full: seq<set<nat>>, calculators: nat)
    requires forall n :: 0 <= n < |full| ==> full[n] == {}
    ensures ThrottledInputs(full, calculators) == 0
  {
    if |full| > calculators { NoneThrottled(full[..|full| - 1], calculators); }
  }

  lemma {:induction false} RunKeepsInv(c: Config, states: seq<State>, steps: seq<Step>, i: nat)
    requires IsRun(c, states, steps) && i < |states|
    ensures Inv(c, states[i])
  {
    if i == 0 {
      NoneThrottled(states[0].table.full, c.calculators);
    } else {
      RunKeepsInv(c, states, steps, i - 1);
      StepKeepsInv(c, states[i - 1], steps[i - 1]);
    }
  }

  /** Throttling is exact however callbacks are delayed and reordered: a stream stands in a node's set
      exactly if the node feeds it and it was last seen full; what was last seen differs from the
      truth only while a callback is owed; and throttled graph inputs are counted right. */
  lemma {:induction false} ThrottlingIsExact(c: Config, states: seq<State>, steps: seq<Step>, k: nat, n: nat, i: nat)
    requires IsRun(c, states, steps) && k < |states| && n < c.nodes && i < |c.upstream|
    ensures var s := states[k];
            && Shaped(c, s)
            && (i in s.table.full[n] <==> s.reported[i] && n in c.upstream[i])
            && (s.reported[i] != IsFull(s.streams[i]) ==> s.owed[i] > 0)
            && s.table.throttledInputs == ThrottledInputs(s.table.full, c.calculators)
  {
    RunKeepsInv(c, states, steps, k);
  }

  predicate Settled(s: State) {
    forall i :: 0 <= i < |s.owed| ==> s.owed[i] == 0
  }

  ghost predicate FeedsFullStream(c: Config, s: State, n: nat)
    requires |s.streams| == |c.upstream|
  {
    exists i :: 0 <= i < |s.streams| && IsFull(s.streams[i]) && n in c.upstream[i]
  }

  lemma {:induction false} SettledTable(c: Config, s: State, n: nat)
    requires Inv(c, s) && Settled(s) && n < c.nodes
    ensures s.table.full[n] != {} <==> FeedsFullStream(c, s, n)
  {
    if s.table.full[n] != {} {
      var i: nat :| i in s.table.full[n];
      assert s.reported[i];
    }
    if FeedsFullStream(c, s, n) {
      var i :| 0 <= i < |s.streams| && IsFull(s.streams[i]) && n in c.upstream[i];
      assert i in s.table.full[n];
    }
  }

  predicate IsNodeThrottled(c: Config, t: Table, n: nat)
    requires n < |t.full|
  {
    c.maxQueueSize != -1 && t.full[n] != {}
  }

  /** Once every callback has arrived, a node is throttled exactly if it feeds a full stream, in a graph
      that limits its queues. */
  lemma {:induction false} SettledThrottling(c: Config, states: seq<State>, steps: seq<Step>, k: nat, n: nat)
    requires IsRun(c, states, steps) && k < |states| && n < c.nodes && Settled(states[k])
    ensures Shaped(c, states[k])
    ensures IsNodeThrottled(c, states[k].table, n) <==> c.maxQueueSize != -1 && FeedsFullStream(c, states[k], n)
  {
    RunKeepsInv(c, states, steps, k);
    SettledTable(c, states[k], n);
  }

  // ---------- breaking a deadlock ----------

  /** `UnthrottleSources` lets a stream grow by one packet; if it was full, the callback follows at once
      in the same thread. */
  function Relieved(c: Config, s: State, i: nat): State
    requires Shaped(c, s) && i < |s.streams|
  {
    var s' := s.(streams := s.streams[i := s.streams[i].(maxSize := |s.streams[i].queue| + 1)]);
    if IsFull(s.streams[i]) then Called(c, s', i) else s'
  }

  function RelievedAll(c: Config, s: State, chosen: seq<nat>): (r: State)
    requires Shaped(c, s) && forall k :: 0 <= k < |chosen| ==> chosen[k] < |s.streams|
    ensures Shaped(c, r) && |r.streams| == |s.streams| && r.owed == s.owed
  {
    if chosen == [] then s else Relieved(c, RelievedAll(c, s, chosen[..|chosen| - 1]), chosen[|chosen| - 1])
  }

  /** Relieving a stream is a change of it, followed by the callback that the change owes. */
  lemma {:induction false} RelievingIsTwoSteps(c: Config, s: State, i: nat)
    requires Shaped(c, s) && i < |s.streams|
    ensures var resize := Change(i, Resize(|s.streams[i].queue| + 1));
            && Enabled(c, s, resize)
            && var mid := Do(c, s, resize);
               if IsFull(s.streams[i]) then Enabled(c, mid, Callback(i)) && Relieved(c, s, i) == Do(c, mid, Callback(i))
               else Relieved(c, s, i) == mid
  {
    var mid := Do(c, s, Change(i, Resize(|s.streams[i].queue| + 1)));
    assert mid.owed[i := s.owed[i]] == s.owed;
  }

  /** The pass leaves no chosen stream full; the table forgets those that were. */
  lemma {:induction false} RelievedKeepsInv(c: Config, s: State, i: nat)
    requires Inv(c, s) && i < |s.streams|
    ensures var s' := Relieved(c, s, i);
            && Inv(c, s') && |s'.streams| == |s.streams|
            && (forall j :: 0 <= j < |s.streams| ==> (IsFull(s'.streams[j]) <==> IsFull(s.streams[j]) && j != i))
            && s'.reported == s.reported[i := s.reported[i] && !IsFull(s.streams[i])]
  {
    var resize := Change(i, Resize(|s.streams[i].queue| + 1));
    RelievingIsTwoSteps(c, s, i);
    StepKeepsInv(c, s, resize);
    if IsFull(s.streams[i]) { StepKeepsInv(c, Do(c, s, resize), Callback(i)); }
  }

  lemma {:induction false} RelievedAllKeepsInv(c: Config, s: State, chosen: seq<nat>)
    requires Inv(c, s) && Enumerates(chosen, |s.streams|)
    ensures var s' := RelievedAll(c, s, chosen);
            && Inv(c, s') && |s'.streams| == |s.streams|
            && (forall j :: 0 <= j < |s.streams| ==> (IsFull(s'.streams[j]) <==> IsFull(s.streams[j]) && j !in chosen))
            && (forall j :: 0 <= j < |s.streams| ==>
                  (s'.reported[j] <==> s.reported[j] && !(j in chosen && IsFull(s.streams[j]))))
    decreases |chosen|
  {
    if chosen != [] {
      var k := |chosen| - 1;
      RelievedAllKeepsInv(c, s, chosen[..k]);
      RelievedKeepsInv(c, RelievedAll(c, s, chosen[..k]), chosen[k]);
    }
  }

  /** The streams that throttle something and are not read by the application. */
  ghost predicate Chosen(s: State, outputs: set<nat>, chosen: seq<nat>) {
    && Enumerates(chosen, |s.streams|)
    && forall i: nat :: i in chosen <==> i !in outputs && exists n :: 0 <= n < |s.table.full| && i in s.table.full[n]
  }

  /** A stream throttles a node after the pass exactly if it did before and is a graph output, or is not
      full any more and a callback about it was already on its way. */
  lemma {:induction false} StillThrottling(c: Config, s: State, outputs: set<nat>, chosen: seq<nat>, n: nat, i: nat)
    requires Inv(c, s) && Chosen(s, outputs, chosen) && n < c.nodes
    ensures i in RelievedAll(c, s, chosen).table.full[n]
       <==> i in s.table.full[n] && (i in outputs || (!IsFull(s.streams[i]) && s.owed[i] > 0))
  {
    var s' := RelievedAll(c, s, chosen);
    RelievedAllKeepsInv(c, s, chosen);
    if i < |s.streams| {
      if i in s.table.full[n] { assert i in chosen <==> i !in outputs; }
    } else {
      assert i !in s.table.full[n] && i !in s'.table.full[n];
    }
  }

  /** The deadlock breaker, whatever callbacks are still owed: afterwards a source is throttled only by
      graph outputs and by streams whose callback is on its way, and it finds something to do exactly if
      a stream that is no graph output throttles a source. In a settled table what remains is exactly
      the full graph outputs. */
  lemma {:induction false} UnthrottlingIsComplete(c: Config, s: State, outputs: set<nat>, chosen: seq<nat>, n: nat)
    requires Inv(c, s) && Chosen(s, outputs, chosen) && n < c.nodes
    ensures var s' := RelievedAll(c, s, chosen);
            && Inv(c, s')
            && (forall i :: i in s'.table.full[n]
                  <==> i in s.table.full[n] && (i in outputs || (!IsFull(s.streams[i]) && s.owed[i] > 0)))
            && (Settled(s) ==> s'.table.full[n] == s.table.full[n] * outputs)
    ensures chosen != [] <==> exists m, i :: 0 <= m < c.nodes && i in s.table.full[m] && i !in outputs
  {
    var s' := RelievedAll(c, s, chosen);
    RelievedAllKeepsInv(c, s, chosen);
    forall i: nat
      ensures i in s'.table.full[n]
         <==> i in s.table.full[n] && (i in outputs || (!IsFull(s.streams[i]) && s.owed[i] > 0))
    {
      StillThrottling(c, s, outputs, chosen, n, i);
    }
    if chosen != [] { assert chosen[0] in chosen; }
  }

  predicate AddsTo(step: Step, i: nat) {
    step.Change? && step.i == i && step.op.Add?
  }

  predicate Resizes(step: Step, i: nat) {
    step.Change? && step.i == i && step.op.Resize?
  }

  lemma {:induction false} OnlyAddingGrows(c: Config, s: State, step: Step, i: nat)
    requires Enabled(c, s, step) && i < |s.streams| && !AddsTo(step, i)
    ensures var s' := Do(c, s, step);
            && i < |s'.streams| && |s'.streams[i].queue| <= |s.streams[i].queue|
            && (!Resizes(step, i) ==> s'.streams[i].maxSize == s.streams[i].maxSize)
  {}

  lemma {:induction false} QueueOnlyShrinks(c: Config, states: seq<State>, steps: seq<Step>, r: nat, k: nat, i: nat)
    requires IsRun(c, states, steps) && r <= k < |states| && i < |states[r].streams|
    requires forall m :: r <= m < k ==> !AddsTo(steps[m], i)
    ensures i < |states[k].streams| && |states[k].streams[i].queue| <= |states[r].streams[i].queue|
  {
    if r < k {
      QueueOnlyShrinks(c, states, steps, r, k - 1, i);
      OnlyAddingGrows(c, states[k - 1], steps[k - 1], i);
    }
  }

  lemma {:induction false} MaximumStays(c: Config, states: seq<State>, steps: seq<Step>, j: nat, k: nat, i: nat)
    requires IsRun(c, states, steps) && j <= k < |states| && i < |states[j].streams|
    requires forall m :: j <= m < k ==> !AddsTo(steps[m], i) && !Resizes(steps[m], i)
    ensures i < |states[k].streams| && states[k].streams[i].maxSize == states[j].streams[i].maxSize
  {
    if j < k {
      MaximumStays(c, states, steps, j, k - 1, i);
      OnlyAddingGrows(c, states[k - 1], steps[k - 1], i);
    }
  }

  /** The breaker reads a stream's size at one moment and raises its maximum at a later one, while other
      threads go on. Whatever they do in between and afterwards, short of adding to this stream or
      resizing it, the stream is not full from then on and, once its callbacks have arrived, throttles
      no source. */
  lemma {:induction false} GrownStreamThrottlesNothing(c: Config, states: seq<State>, steps: seq<Step>,
      r: nat, j: nat, k: nat, i: nat)
    requires IsRun(c, states, steps) && r <= j < k < |states| && i < |states[r].streams|
    requires steps[j] == Change(i, Resize(|states[r].streams[i].queue| + 1))
    requires forall m :: r <= m < k ==> !AddsTo(steps[m], i)
    requires forall m :: j < m < k ==> !Resizes(steps[m], i)
    ensures var s := states[k];
            && Inv(c, s) && i < |s.streams| && !IsFull(s.streams[i])
            && (s.owed[i] == 0 ==> forall n :: 0 <= n < c.nodes ==> i !in s.table.full[n])
  {
    QueueOnlyShrinks(c, states, steps, r, j, i);
    assert states[j + 1] == Do(c, states[j], steps[j]);
    QueueOnlyShrinks(c, states, steps, r, k, i);
    MaximumStays(c, states, steps, j + 1, k, i);
    RunKeepsInv(c, states, steps, k);
  }
}
