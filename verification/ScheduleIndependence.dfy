/** One node with a single sync set, fed by concurrent producers. The consumer reads the streams one
    lock at a time, decides, and pops them one lock at a time; producers add packets and raise
    bounds at any point in between. What the calculator sees does not depend on the interleaving. */
module ScheduleIndependence {
  import opened Timestamps
  import opened Options
  import opened Streams
  import opened StreamRuns
  import opened Merging
  import opened SyncSets

  /** Fixed over a run: all that each producer will ever send, and the process-timestamps setting. */
  datatype Config = Config(histories: seq<seq<Packet>>, processBounds: bool)

  datatype Phase =
    | Reading(k: nat, seen: Minima)
    | Filling(time: Timestamp, taken: seq<Option<Packet>>)
    | Closing

  datatype State = State(streams: seq<Stream>, future: seq<seq<Packet>>, last: Timestamp, phase: Phase,
                         delivered: seq<InputSet>)

  datatype Step =
    | Produce(i: nat, n: nat)            // a producer adds its next n packets in one critical section
    | Promise(i: nat, bound: Timestamp)    // a producer promises nothing earlier than the bound
    | Read                               // the consumer reads the next stream
    | Judge                              // the consumer decides on what it has read
    | Pop                                // the consumer pops the next stream
    | Deliver                            // the input set is complete

  const FROM_START := Reading(0, NOTHING_READ)

  /** Producers keep the documented rules: their packets are legal for a stream, are not empty, and
      are never earlier than a bound they promised. */
  ghost predicate WellFormed(c: Config) {
    forall i :: 0 <= i < |c.histories| ==>
      LegalPast(c.histories[i]) && forall j :: 0 <= j < |c.histories[i]| ==> c.histories[i][j].content.Some?
  }

  ghost predicate Init(c: Config, s: State) {
    && |s.streams| == |c.histories| && s.future == c.histories && s.last == UNSET
    && s.phase == FROM_START && s.delivered == []
    && forall i :: 0 <= i < |s.streams| ==>
         && s.streams[i] == Prepared(s.streams[i].maxSize, s.streams[i].accepts)
         && forall j :: 0 <= j < |c.histories[i]| ==> s.streams[i].accepts(c.histories[i][j])
  }

  predicate Enabled(s: State, step: Step) {
    |s.future| == |s.streams| &&
    match step
    case Produce(i, n) => i < |s.streams| && n <= |s.future[i]|
    case Promise(i, b) => i < |s.streams| && s.streams[i].bound <= b
        && (s.future[i] == [] || b <= s.future[i][0].timestamp)
    case Read => s.phase.Reading? && s.phase.k < |s.streams|
    case Judge => s.phase.Reading? && s.phase.k == |s.streams|
    case Pop => s.phase.Filling? && |s.phase.taken| < |s.streams|
    case Deliver => s.phase.Filling? && |s.phase.taken| == |s.streams|
  }

  function Update(s: State, i: nat, st: Stream, future: seq<Packet>): State
    requires i < |s.streams| == |s.future|
  {
    s.(streams := s.streams[i := st], future := s.future[i := future])
  }

  function AfterRead(phase: Phase, streams: seq<Stream>): Phase
    requires phase.Reading? && phase.k < |streams|
  {
    Reading(phase.k + 1, Include(phase.seen, MinTimestampOrBound(streams[phase.k])))
  }

  function AfterJudging(r: Readiness): Phase {
    match r
    case NotReady => FROM_START
    case ReadyForProcess(t) => Filling(t, [])
    case ReadyForClose => Closing
  }

  function DoPop(s: State): State
    requires s.phase.Filling? && |s.phase.taken| < |s.streams|
  {
    var k := |s.phase.taken|;
    var r := PopPacketAtTimestamp(s.streams[k], s.phase.time);
    s.(streams := s.streams[k := r.stream],
       phase := Filling(s.phase.time, s.phase.taken + [if r.packet.content.Some? then Some(r.packet) else None]))
  }

  function Do(c: Config, s: State, step: Step): State
    requires Enabled(s, step)
  {
    match step
    case Produce(i, n) =>
      Update(s, i, AddPackets(s.streams[i], s.future[i][..n]).stream, s.future[i][n..])
    case Promise(i, b) =>
      Update(s, i, SetNextTimestampBound(s.streams[i], b).stream, s.future[i])
    case Read => s.(phase := AfterRead(s.phase, s.streams))
    case Judge =>
      var r := Decide(s.phase.seen, s.last, c.processBounds);
      s.(last := LastProcessed(r, s.last), phase := AfterJudging(r))
    case Pop => DoPop(s)
    case Deliver =>
      s.(phase := FROM_START, delivered := s.delivered + [InputSet(s.phase.time, s.phase.taken)])
  }

  /** What a step must find true besides being enabled: the CHECKs of the code. */
  predicate Safe(s: State, step: Step)
    requires Enabled(s, step)
  {
    match step
    case Produce(i, n) => AddPackets(s.streams[i], s.future[i][..n]).ok
    case Promise(i, b) => SetNextTimestampBound(s.streams[i], b).ok
    case Pop =>
      var st := s.streams[|s.phase.taken|];
      st.lastSelect <= s.phase.time && PopPacketAtTimestamp(st, s.phase.time).dropped == 0
    case _ => true
  }

  // ---------- the invariant ----------

  /** The packet already taken from stream `i` for the input set being filled, if any. */
  function Held(s: State, i: nat): seq<Packet> {
    if s.phase.Filling? && i < |s.phase.taken| && s.phase.taken[i].Some? then [s.phase.taken[i].value] else []
  }

  /** All packets of stream `i` that no delivered input set contains. */
  function Undelivered(s: State, i: nat): seq<Packet>
    requires i < |s.streams| == |s.future|
  {
    Held(s, i) + s.streams[i].queue + s.future[i]
  }

  function AllUndelivered(s: State): seq<seq<Packet>>
    requires |s.streams| == |s.future|
  {
    seq(|s.streams|, i requires 0 <= i < |s.streams| => Undelivered(s, i))
  }

  function WithPackets(m: seq<InputSet>): seq<InputSet> {
    if m == [] then [] else
    WithPackets(m[..|m| - 1]) + if HasPacket(m[|m| - 1]) then [m[|m| - 1]] else []
  }

  /** One stream agrees with the history its producer follows. */
  ghost predicate Follows(st: Stream, held: seq<Packet>, future: seq<Packet>, history: seq<Packet>) {
    var rest := held + st.queue + future;
    && LegalPast(history)
    && (forall j :: 0 <= j < |history| ==> st.accepts(history[j]) && history[j].content.Some?)
    && EndsWith(history, rest)
    && st.added + |future| == |history|
    && !st.closed
    && (st.queue != [] ==> st.queue[|st.queue| - 1].timestamp < st.bound)
    && NotBefore(future, st.bound)
    && UNSTARTED <= st.lastSelect
  }

  function Now(st: Stream): Timestamp {
    MinTimestampOrBound(st).time
  }

  /** A reading taken earlier still says the truth: the head seen is there, or nothing can come
      before the bound seen. */
  predicate StillHolds(st: Stream, seen: Minima) {
    (st.queue != [] && seen.packet <= st.queue[0].timestamp) || seen.bound <= Now(st)
  }

  ghost predicate ReadingInv(phase: Phase, streams: seq<Stream>, last: Timestamp)
    requires phase.Reading?
  {
    var k, seen := phase.k, phase.seen;
    && k <= |streams|
    && (forall i :: 0 <= i < |streams| ==> last < Now(streams[i]) && streams[i].lastSelect <= Greatest(last, UNSTARTED))
    && (forall i :: 0 <= i < k ==> StillHolds(streams[i], seen))
    && (seen.packet == DONE || HeadSeen(streams, k, seen.packet))
  }

  ghost predicate HeadSeen(streams: seq<Stream>, k: nat, t: Timestamp)
    requires k <= |streams|
  {
    exists i :: 0 <= i < k && streams[i].queue != [] && streams[i].queue[0].timestamp == t
  }

  ghost predicate FillingInv(phase: Phase, streams: seq<Stream>, last: Timestamp)
    requires phase.Filling?
  {
    var t, k := phase.time, |phase.taken|;
    && k <= |streams| && IsAllowedInStream(t) && last == t
    && (forall i :: 0 <= i < k ==> t < Now(streams[i]) && streams[i].lastSelect == t
                                   && (phase.taken[i].Some? ==> phase.taken[i].value.timestamp == t))
    && (forall i :: k <= i < |streams| ==> streams[i].lastSelect <= t && t <= Now(streams[i])
                                           && (streams[i].queue == [] ==> t < streams[i].bound))
  }

  ghost predicate AllFollow(c: Config, s: State) {
    && |s.streams| == |s.future| == |c.histories|
    && forall i :: 0 <= i < |s.streams| ==> Follows(s.streams[i], Held(s, i), s.future[i], c.histories[i])
  }

  ghost predicate PhaseInv(c: Config, s: State)
    requires |s.streams| == |s.future|
  {
    match s.phase
    case Reading(_, _) => ReadingInv(s.phase, s.streams, s.last)
    case Filling(t, _) => FillingInv(s.phase, s.streams, s.last) && (!c.processBounds ==> HasHead(AllUndelivered(s), t))
    case Closing => AllEmpty(AllUndelivered(s))
  }

  /** The input sets delivered so far: in order, behind the current one, and without empty sets
      unless bounds are processed. */
  ghost predicate DeliveredInv(c: Config, s: State) {
    && Ascending(s.delivered)
    && (s.delivered != [] && s.phase.Reading? ==> s.delivered[|s.delivered| - 1].time <= s.last)
    && (s.delivered != [] && s.phase.Filling? ==> s.delivered[|s.delivered| - 1].time < s.last)
    && (!c.processBounds ==> forall k :: 0 <= k < |s.delivered| ==> HasPacket(s.delivered[k]))
  }

  /** Nothing is lost or doubled: what was delivered and what remains make up the merge. */
  ghost predicate Accounted(c: Config, s: State)
    requires |s.streams| == |s.future|
  {
    WithPackets(s.delivered) + Merge(AllUndelivered(s)) == Merge(c.histories)
  }

  ghost predicate Inv(c: Config, s: State) {
    AllFollow(c, s) && PhaseInv(c, s) && DeliveredInv(c, s) && Accounted(c, s)
  }

  // ---------- one stream ----------

  /** The packets a producer still has to send are acceptable one after the other. */
  ghost predicate Sendable(st: Stream, future: seq<Packet>) {
    && !st.closed && Increasing(future) && NotBefore(future, st.bound)
    && forall j :: 0 <= j < |future| ==>
         && st.accepts(future[j]) && IsAllowedInStream(future[j].timestamp)
         && (IsSummary(future[j]) ==> |future| == 1 && st.added == 0)
  }

  lemma {:induction false} SendSucceeds(st: Stream, future: seq<Packet>, n: nat)
    requires Sendable(st, future) && n <= |future|
    ensures AppendAll(st, future[..n]).ok
    ensures AppendAll(st, future[..n]).stream
         == st.(queue := st.queue + future[..n], added := st.added + n,
                bound := if n == 0 then st.bound else NextAllowedInStream(future[n - 1].timestamp))
  {
    if n > 0 {
      assert future[..n][..n - 1] == future[..n - 1];
      SendSucceeds(st, future, n - 1);
    }
  }

  lemma {:induction false} FollowsSendable(st: Stream, held: seq<Packet>, future: seq<Packet>, history: seq<Packet>)
    requires Follows(st, held, future, history)
    ensures Sendable(st, future)
  {
    var k := |history| - |future|;
    assert forall j :: 0 <= j < |future| ==>
             future[j] == (held + st.queue + future)[|held + st.queue| + j] == history[k + j];
  }

  lemma {:induction false} ProduceEffect(st: Stream, future: seq<Packet>, n: nat)
    requires Sendable(st, future) && n <= |future|
    ensures var u := AddPackets(st, future[..n]);
            && u.ok && u.stream == st.(queue := u.stream.queue, added := st.added + n, bound := u.stream.bound)
            && u.stream.queue == st.queue + future[..n]
            && st.bound <= u.stream.bound && Now(st) <= Now(u.stream)
            && NotBefore(future[n..], u.stream.bound)
            && (n > 0 ==> future[n - 1].timestamp < u.stream.bound) && (n == 0 ==> u.stream.bound == st.bound)
  {
    SendSucceeds(st, future, n);
  }

  lemma {:induction false} ProduceKeepsFollowing(st: Stream, held: seq<Packet>, future: seq<Packet>,
      history: seq<Packet>, n: nat)
    requires Follows(st, held, future, history) && Sendable(st, future) && n <= |future|
    ensures Follows(AddPackets(st, future[..n]).stream, held, future[n..], history)
  {
    ProduceEffect(st, future, n);
    assert held + (st.queue + future[..n]) + future[n..] == held + st.queue + future;
  }

  /** Nothing undelivered is earlier than what the stream shows now. */
  lemma {:induction false} RestNotBefore(st: Stream, held: seq<Packet>, future: seq<Packet>, history: seq<Packet>)
    requires Follows(st, held, future, history)
    ensures NotBefore(st.queue + future, Now(st))
    ensures Increasing(held + st.queue + future)
    ensures st.queue != [] ==> IsAllowedInStream(st.queue[0].timestamp) && st.queue[0].timestamp < st.bound
  {
    var rest, k := held + st.queue + future, |held|;
    assert Increasing(rest);
    assert forall i :: 0 <= i < |st.queue + future| ==> (st.queue + future)[i] == rest[k + i];
    if st.queue != [] {
      assert st.queue[0] == rest[k] && st.queue[|st.queue| - 1] == rest[k + |st.queue| - 1];
    }
  }

  /** Popping a stream that shows nothing before `t` takes the packet at `t` if there is one, skips
      nothing, and leaves the stream showing something later. */
  lemma {:induction false} PopTakesHead(st: Stream, future: seq<Packet>, history: seq<Packet>, t: Timestamp)
    requires Follows(st, [], future, history) && t <= Now(st) && (st.queue == [] ==> t < st.bound)
        && IsAllowedInStream(t)
    ensures var r := PopPacketAtTimestamp(st, t);
            var hit := st.queue != [] && st.queue[0].timestamp == t;
            && r.dropped == 0
            && r.packet.content.Some? == hit && (hit ==> r.packet == st.queue[0])
            && r.stream == st.(lastSelect := t, queue := if hit then st.queue[1..] else st.queue)
            && t < Now(r.stream)
  {
    var q := st.queue;
    RestNotBefore(st, [], future, history);
    assert [] + q + future == q + future;
    if q != [] {
      assert q[0] == (q + future)[0];
      assert |q| > 1 ==> q[0].timestamp < (q + future)[1].timestamp == q[1].timestamp;
      assert EndsWith(history, [] + q + future);
      assert history[|history| - |[] + q + future|] == q[0];
      var n := if q[0].timestamp == t then 1 else 0;
      assert Increasing(q) by { assert forall i :: 0 <= i < |q| ==> q[i] == (q + future)[i]; }
      SplitIsUnique(q, t, n);
    }
  }

  // ---------- the producers' steps ----------

  /** What a producer's critical section may do to a stream, as far as its reader can tell. */
  ghost predicate Grown(st: Stream, future: seq<Packet>, st': Stream, future': seq<Packet>) {
    && st.queue + future == st'.queue + future'
    && |st.queue| <= |st'.queue| && (st.queue != [] ==> st'.queue[0] == st.queue[0])
    && st.bound <= st'.bound && Now(st) <= Now(st') && st'.lastSelect == st.lastSelect
  }

  lemma {:induction false} GrowthKeepsReading(phase: Phase, streams: seq<Stream>, last: Timestamp, i: nat,
      future: seq<Packet>, st: Stream, future': seq<Packet>)
    requires phase.Reading? && ReadingInv(phase, streams, last) && i < |streams|
    requires Grown(streams[i], future, st, future')
    ensures ReadingInv(phase, streams[i := st], last)
  {
    if phase.seen.packet != DONE {
      var j :| 0 <= j < phase.k && streams[j].queue != [] && streams[j].queue[0].timestamp == phase.seen.packet;
      assert streams[i := st][j].queue != [] && streams[i := st][j].queue[0].timestamp == phase.seen.packet;
    }
  }

  lemma {:induction false} GrowthKeepsUndelivered(s: State, i: nat, st: Stream, future: seq<Packet>)
    requires i < |s.streams| == |s.future|
    requires s.streams[i].queue + s.future[i] == st.queue + future
    ensures AllUndelivered(Update(s, i, st, future)) == AllUndelivered(s)
  {
    var s', held := Update(s, i, st, future), Held(s, i);
    assert held + s.streams[i].queue + s.future[i] == held + (s.streams[i].queue + s.future[i]);
    assert held + st.queue + future == held + (st.queue + future);
    assert forall j :: 0 <= j < |s.streams| ==> Undelivered(s', j) == Undelivered(s, j);
  }

  lemma {:induction false} GrowthKeepsFollowing(c: Config, s: State, i: nat, st: Stream, future: seq<Packet>)
    requires AllFollow(c, s) && i < |s.streams|
    requires Follows(st, Held(s, i), future, c.histories[i])
    ensures AllFollow(c, Update(s, i, st, future))
  {
    var s' := Update(s, i, st, future);
    forall j | 0 <= j < |s.streams| ensures Follows(s'.streams[j], Held(s', j), s'.future[j], c.histories[j]) {
      assert Held(s', j) == Held(s, j);
    }
  }

  lemma {:induction false} GrowthKeepsPhase(c: Config, s: State, i: nat, st: Stream, future: seq<Packet>)
    requires i < |s.streams| == |s.future| && PhaseInv(c, s)
    requires Grown(s.streams[i], s.future[i], st, future)
    ensures PhaseInv(c, Update(s, i, st, future))
  {
    GrowthKeepsUndelivered(s, i, st, future);
    if s.phase.Reading? { GrowthKeepsReading(s.phase, s.streams, s.last, i, s.future[i], st, future); }
  }

  lemma {:induction false} GrowthKeepsInv(c: Config, s: State, i: nat, st: Stream, future: seq<Packet>)
    requires Inv(c, s) && i < |s.streams|
    requires Grown(s.streams[i], s.future[i], st, future)
    requires Follows(st, Held(s, i), future, c.histories[i])
    ensures Inv(c, Update(s, i, st, future))
  {
    GrowthKeepsUndelivered(s, i, st, future);
    GrowthKeepsFollowing(c, s, i, st, future);
    GrowthKeepsPhase(c, s, i, st, future);
  }

  lemma {:induction false} ProduceGrows(st: Stream, held: seq<Packet>, future: seq<Packet>, history: seq<Packet>,
      n: nat)
    requires Follows(st, held, future, history) && n <= |future|
    ensures var u := AddPackets(st, future[..n]);
            u.ok && Grown(st, future, u.stream, future[n..]) && Follows(u.stream, held, future[n..], history)
  {
    FollowsSendable(st, held, future, history);
    ProduceEffect(st, future, n);
    ProduceKeepsFollowing(st, held, future, history, n);
    assert future == future[..n] + future[n..];
  }

  lemma {:induction false} PromiseGrows(st: Stream, held: seq<Packet>, future: seq<Packet>, history: seq<Packet>,
      b: Timestamp)
    requires Follows(st, held, future, history) && st.bound <= b && (future == [] || b <= future[0].timestamp)
    ensures var u := SetNextTimestampBound(st, b);
            u.ok && Grown(st, future, u.stream, future) && Follows(u.stream, held, future, history)
  {
    FollowsSendable(st, held, future, history);
  }

  lemma {:induction false} ProduceKeepsInv(c: Config, s: State, i: nat, n: nat)
    requires Inv(c, s) && Enabled(s, Produce(i, n))
    ensures Safe(s, Produce(i, n)) && Inv(c, Do(c, s, Produce(i, n)))
  {
    ProduceGrows(s.streams[i], Held(s, i), s.future[i], c.histories[i], n);
    GrowthKeepsInv(c, s, i, AddPackets(s.streams[i], s.future[i][..n]).stream, s.future[i][n..]);
  }

  lemma {:induction false} PromiseKeepsInv(c: Config, s: State, i: nat, b: Timestamp)
    requires Inv(c, s) && Enabled(s, Promise(i, b))
    ensures Safe(s, Promise(i, b)) && Inv(c, Do(c, s, Promise(i, b)))
  {
    PromiseGrows(s.streams[i], Held(s, i), s.future[i], c.histories[i], b);
    GrowthKeepsInv(c, s, i, SetNextTimestampBound(s.streams[i], b).stream, s.future[i]);
  }

  // ---------- the consumer's steps ----------

  predicate NothingHeld(phase: Phase) {
    phase.Filling? ==> phase.taken == []
  }

  /** A change of phase that takes no packet moves no packet. */
  lemma {:induction false} PhaseMovesNothing(c: Config, s: State, phase: Phase, last: Timestamp)
    requires AllFollow(c, s) && NothingHeld(s.phase) && NothingHeld(phase)
    ensures var s' := s.(phase := phase, last := last);
            AllFollow(c, s') && AllUndelivered(s') == AllUndelivered(s)
  {
    var s' := s.(phase := phase, last := last);
    forall i | 0 <= i < |s.streams|
      ensures Undelivered(s', i) == Undelivered(s, i)
          && Follows(s'.streams[i], Held(s', i), s'.future[i], c.histories[i])
    {
      assert Held(s', i) == Held(s, i);
    }
    assert AllUndelivered(s') == AllUndelivered(s);
  }

  lemma {:induction false} ReadKeepsReading(phase: Phase, streams: seq<Stream>, last: Timestamp)
    requires phase.Reading? && ReadingInv(phase, streams, last) && phase.k < |streams|
    ensures ReadingInv(AfterRead(phase, streams), streams, last)
  {
    var k, seen, seen' := phase.k, phase.seen, AfterRead(phase, streams).seen;
    assert forall i :: 0 <= i < k && StillHolds(streams[i], seen) ==> StillHolds(streams[i], seen');
    assert HeadSeen(streams, k, seen.packet) ==> HeadSeen(streams, k + 1, seen.packet);
  }

  lemma {:induction false} ReadKeepsInv(c: Config, s: State)
    requires Inv(c, s) && Enabled(s, Read)
    ensures Inv(c, Do(c, s, Read))
  {
    ReadKeepsReading(s.phase, s.streams, s.last);
    PhaseMovesNothing(c, s, AfterRead(s.phase, s.streams), s.last);
  }

  /** What a complete pass knows about each stream. */
  lemma {:induction false} PassIsTrue(phase: Phase, streams: seq<Stream>, last: Timestamp, i: nat)
    requires phase.Reading? && ReadingInv(phase, streams, last) && phase.k == |streams| && i < |streams|
    ensures Least(phase.seen.packet, phase.seen.bound) <= Now(streams[i])
    ensures streams[i].queue == [] ==> phase.seen.bound <= streams[i].bound
    ensures streams[i].lastSelect <= Greatest(last, UNSTARTED)
  {
    assert StillHolds(streams[i], phase.seen);
  }

  /** The least head seen is a head that is still there, later than everything processed. */
  lemma {:induction false} HeadIsTrue(c: Config, s: State)
    requires AllFollow(c, s) && s.phase.Reading? && ReadingInv(s.phase, s.streams, s.last)
        && s.phase.seen.packet != DONE
    ensures IsAllowedInStream(s.phase.seen.packet) && s.last < s.phase.seen.packet
    ensures HasHead(AllUndelivered(s), s.phase.seen.packet)
  {
    var i :| 0 <= i < s.phase.k && s.streams[i].queue != [] && s.streams[i].queue[0].timestamp == s.phase.seen.packet;
    RestNotBefore(s.streams[i], Held(s, i), s.future[i], c.histories[i]);
    assert AllUndelivered(s)[i][0] == s.streams[i].queue[0];
  }

  lemma {:induction false} JudgeReadyStartsFilling(phase: Phase, streams: seq<Stream>, last: Timestamp, t: Timestamp)
    requires phase.Reading? && ReadingInv(phase, streams, last) && phase.k == |streams|
    requires IsAllowedInStream(t) && last < t <= phase.seen.packet && t < phase.seen.bound
    ensures FillingInv(Filling(t, []), streams, t)
  {
    forall i | 0 <= i < |streams|
      ensures streams[i].lastSelect <= t && t <= Now(streams[i]) && (streams[i].queue == [] ==> t < streams[i].bound)
    {
      PassIsTrue(phase, streams, last, i);
    }
  }

  lemma {:induction false} JudgeReadyKeepsInv(c: Config, s: State)
    requires Inv(c, s) && Enabled(s, Judge) && Decide(s.phase.seen, s.last, c.processBounds).ReadyForProcess?
    ensures Inv(c, Do(c, s, Judge))
  {
    var t := Decide(s.phase.seen, s.last, c.processBounds).time;
    if s.phase.seen.packet != DONE { HeadIsTrue(c, s); }
    DecisionIsSettled(s.phase.seen, s.last, c.processBounds);
    JudgeReadyStartsFilling(s.phase, s.streams, s.last, t);
    PhaseMovesNothing(c, s, Filling(t, []), t);
    assert Do(c, s, Judge) == s.(phase := Filling(t, []), last := t);
  }

  lemma {:induction false} StreamIsExhausted(st: Stream, future: seq<Packet>, history: seq<Packet>)
    requires Follows(st, [], future, history) && Now(st) >= ONE_OVER_POST_STREAM
    ensures st.queue == [] && future == []
  {
    RestNotBefore(st, [], future, history);
    FollowsSendable(st, [], future, history);
    var soonest := if future == [] then st.bound else future[0].timestamp;
    assert st.bound <= soonest;
  }

  lemma {:induction false} NothingLeft(c: Config, s: State)
    requires AllFollow(c, s) && s.phase.Reading? && ReadingInv(s.phase, s.streams, s.last) && s.phase.k == |s.streams|
    requires Least(s.phase.seen.packet, s.phase.seen.bound) >= ONE_OVER_POST_STREAM
    ensures AllEmpty(AllUndelivered(s))
  {
    forall i | 0 <= i < |s.streams| ensures Undelivered(s, i) == [] {
      PassIsTrue(s.phase, s.streams, s.last, i);
      assert Held(s, i) == [];
      StreamIsExhausted(s.streams[i], s.future[i], c.histories[i]);
    }
  }

  lemma {:induction false} JudgeCloseKeepsInv(c: Config, s: State)
    requires Inv(c, s) && Enabled(s, Judge) && Decide(s.phase.seen, s.last, c.processBounds).ReadyForClose?
    ensures Inv(c, Do(c, s, Judge))
  {
    NothingLeft(c, s);
    PhaseMovesNothing(c, s, Closing, PreviousAllowedInStream(DONE));
    assert Do(c, s, Judge) == s.(phase := Closing, last := PreviousAllowedInStream(DONE));
  }

  lemma {:induction false} JudgeNotReadyKeepsInv(c: Config, s: State)
    requires Inv(c, s) && Enabled(s, Judge) && Decide(s.phase.seen, s.last, c.processBounds).NotReady?
    ensures Inv(c, Do(c, s, Judge))
  {
    PhaseMovesNothing(c, s, FROM_START, s.last);
    assert Do(c, s, Judge) == s.(phase := FROM_START, last := s.last);
  }

  lemma {:induction false} FollowsAfterTaking(st: Stream, st': Stream, held: seq<Packet>, future: seq<Packet>,
      history: seq<Packet>)
    requires Follows(st, [], future, history) && held + st'.queue == st.queue
    requires st' == st.(queue := st'.queue, lastSelect := st'.lastSelect) && UNSTARTED <= st'.lastSelect
    ensures Follows(st', held, future, history)
  {
    assert held + st'.queue + future == [] + st.queue + future;
  }

  lemma {:induction false} PopFollows(st: Stream, future: seq<Packet>, history: seq<Packet>, t: Timestamp)
    requires Follows(st, [], future, history) && t <= Now(st) && (st.queue == [] ==> t < st.bound)
        && IsAllowedInStream(t)
    ensures var r := PopPacketAtTimestamp(st, t);
            var held := if r.packet.content.Some? then [r.packet] else [];
            held + r.stream.queue == st.queue && Follows(r.stream, held, future, history)
  {
    PopTakesHead(st, future, history, t);
    var r := PopPacketAtTimestamp(st, t);
    FollowsAfterTaking(st, r.stream, if r.packet.content.Some? then [r.packet] else [], future, history);
  }

  lemma {:induction false} PopMovesHead(c: Config, s: State)
    requires AllFollow(c, s) && s.phase.Filling? && FillingInv(s.phase, s.streams, s.last)
        && |s.phase.taken| < |s.streams|
    ensures var k, s' := |s.phase.taken|, DoPop(s);
            && Undelivered(s', k) == Undelivered(s, k)
            && Follows(s'.streams[k], Held(s', k), s.future[k], c.histories[k])
  {
    var k := |s.phase.taken|;
    var st, r := s.streams[k], PopPacketAtTimestamp(s.streams[k], s.phase.time);
    var held := if r.packet.content.Some? then [r.packet] else [];
    PopFollows(st, s.future[k], c.histories[k], s.phase.time);
    assert Held(s, k) == [] && Held(DoPop(s), k) == held;
    assert [] + st.queue + s.future[k] == held + r.stream.queue + s.future[k];
  }

  lemma {:induction false} PopLeavesOthers(c: Config, s: State, i: nat)
    requires AllFollow(c, s) && s.phase.Filling? && |s.phase.taken| < |s.streams|
    requires i < |s.streams| && i != |s.phase.taken|
    ensures Undelivered(DoPop(s), i) == Undelivered(s, i)
    ensures Follows(DoPop(s).streams[i], Held(DoPop(s), i), s.future[i], c.histories[i])
  {
    assert Held(DoPop(s), i) == Held(s, i) && DoPop(s).streams[i] == s.streams[i];
  }

  lemma {:induction false} PopMovesNothing(c: Config, s: State)
    requires AllFollow(c, s) && s.phase.Filling? && FillingInv(s.phase, s.streams, s.last)
        && |s.phase.taken| < |s.streams|
    ensures AllFollow(c, DoPop(s)) && AllUndelivered(DoPop(s)) == AllUndelivered(s)
  {
    forall i | 0 <= i < |s.streams|
      ensures Undelivered(DoPop(s), i) == Undelivered(s, i)
      ensures Follows(DoPop(s).streams[i], Held(DoPop(s), i), s.future[i], c.histories[i])
    {
      if i == |s.phase.taken| { PopMovesHead(c, s); } else { PopLeavesOthers(c, s, i); }
    }
    assert AllUndelivered(DoPop(s)) == AllUndelivered(s);
  }

  lemma {:induction false} PopKeepsFilling(c: Config, s: State)
    requires AllFollow(c, s) && s.phase.Filling? && FillingInv(s.phase, s.streams, s.last)
        && |s.phase.taken| < |s.streams|
    ensures Safe(s, Pop) && FillingInv(DoPop(s).phase, DoPop(s).streams, s.last)
  {
    var k := |s.phase.taken|;
    PopTakesHead(s.streams[k], s.future[k], c.histories[k], s.phase.time);
  }

  lemma {:induction false} PopKeepsInv(c: Config, s: State)
    requires Inv(c, s) && Enabled(s, Pop)
    ensures Safe(s, Pop) && Inv(c, Do(c, s, Pop))
  {
    PopMovesNothing(c, s);
    PopKeepsFilling(c, s);
  }

  lemma {:induction false} CompleteSet(st: Stream, slot: Option<Packet>, future: seq<Packet>, history: seq<Packet>,
                                       t: Timestamp)
    requires Follows(st, if slot.Some? then [slot.value] else [], future, history) && t < Now(st)
    requires slot.Some? ==> slot.value.timestamp == t
    ensures var whole := (if slot.Some? then [slot.value] else []) + st.queue + future;
            Slot(whole, t) == slot && Beyond(whole, t) == st.queue + future && NotBefore(whole, t)
  {
    var held := if slot.Some? then [slot.value] else [];
    RestNotBefore(st, held, future, history);
    assert held + st.queue + future == held + (st.queue + future);
  }

  lemma {:induction false} EarliestIsHead(hs: seq<seq<Packet>>, t: Timestamp)
    requires HasHead(hs, t) && forall i :: 0 <= i < |hs| ==> NotBefore(hs[i], t)
    ensures !AllEmpty(hs) && Earliest(hs) == t
  {}

  /** The input set just completed is the next one of the merge of what is undelivered; one without
      packets leaves that merge as it is. */
  lemma {:induction false} DeliverSplitsMerge(c: Config, s: State)
    requires AllFollow(c, s) && s.phase.Filling? && FillingInv(s.phase, s.streams, s.last) && Enabled(s, Deliver)
    ensures var set_, hs := InputSet(s.phase.time, s.phase.taken), AllUndelivered(s);
            && AllUndelivered(Do(c, s, Deliver)) == Rest(hs, s.phase.time)
            && s.phase.taken == Slots(hs, s.phase.time)
            && (forall i :: 0 <= i < |hs| ==> NotBefore(hs[i], s.phase.time))
  {
    var t, hs, s' := s.phase.time, AllUndelivered(s), Do(c, s, Deliver);
    forall i | 0 <= i < |hs|
      ensures s.phase.taken[i] == Slot(hs[i], t) && Undelivered(s', i) == Beyond(hs[i], t) && NotBefore(hs[i], t)
    {
      CompleteSet(s.streams[i], s.phase.taken[i], s.future[i], c.histories[i], t);
      assert [] + s.streams[i].queue + s.future[i] == s.streams[i].queue + s.future[i];
    }
    assert AllUndelivered(s') == Rest(hs, t);
    assert s.phase.taken == Slots(hs, t);
  }

  lemma {:induction false} MergeOfNextSet(hs: seq<seq<Packet>>, t: Timestamp)
    requires forall i :: 0 <= i < |hs| ==> NotBefore(hs[i], t)
    ensures HasPacket(InputSet(t, Slots(hs, t))) <==> HasHead(hs, t)
    ensures HasHead(hs, t) ==> Merge(hs) == [InputSet(t, Slots(hs, t))] + Merge(Rest(hs, t))
    ensures !HasHead(hs, t) ==> Rest(hs, t) == hs
  {
    if HasHead(hs, t) {
      EarliestIsHead(hs, t);
      var i :| 0 <= i < |hs| && hs[i] != [] && hs[i][0].timestamp == t;
      assert Slots(hs, t)[i].Some?;
    } else {
      assert Rest(hs, t) == hs;
    }
  }

  lemma {:induction false} DeliverKeepsReading(phase: Phase, streams: seq<Stream>, last: Timestamp)
    requires phase.Filling? && FillingInv(phase, streams, last) && |phase.taken| == |streams|
    ensures ReadingInv(FROM_START, streams, last)
  {}

  lemma {:induction false} DeliverKeepsFollowing(c: Config, s: State)
    requires AllFollow(c, s) && Enabled(s, Deliver)
    ensures AllFollow(c, Do(c, s, Deliver))
  {
    var s' := Do(c, s, Deliver);
    forall i | 0 <= i < |s.streams| ensures Follows(s'.streams[i], Held(s', i), s'.future[i], c.histories[i]) {
      LessHeldFollows(s.streams[i], Held(s, i), s.future[i], c.histories[i]);
    }
  }

  lemma {:induction false} LessHeldFollows(st: Stream, held: seq<Packet>, future: seq<Packet>, history: seq<Packet>)
    requires Follows(st, held, future, history)
    ensures Follows(st, [], future, history)
  {
    var more, less := held + st.queue + future, [] + st.queue + future;
    assert forall i :: 0 <= i < |less| ==> less[i] == more[|held| + i];
  }

  function OrNothing(set_: InputSet): seq<InputSet> {
    if HasPacket(set_) then [set_] else []
  }

  lemma {:induction false} DeliverExtends(delivered: seq<InputSet>, set_: InputSet)
    ensures WithPackets(delivered + [set_]) == WithPackets(delivered) + OrNothing(set_)
  {
    assert (delivered + [set_])[..|delivered|] == delivered;
  }

  lemma {:induction false} MergeStartsWithNext(hs: seq<seq<Packet>>, t: Timestamp)
    requires forall i :: 0 <= i < |hs| ==> NotBefore(hs[i], t)
    ensures Merge(hs) == OrNothing(InputSet(t, Slots(hs, t))) + Merge(Rest(hs, t))
  {
    MergeOfNextSet(hs, t);
  }

  lemma {:induction false} Regroup(a: seq<InputSet>, b: seq<InputSet>, c: seq<InputSet>)
    ensures a + b + c == a + (b + c)
  {}

  lemma {:induction false} AppendKeepsAccount(delivered: seq<InputSet>, hs: seq<seq<Packet>>, t: Timestamp)
    requires forall i :: 0 <= i < |hs| ==> NotBefore(hs[i], t)
    ensures WithPackets(delivered + [InputSet(t, Slots(hs, t))]) + Merge(Rest(hs, t))
         == WithPackets(delivered) + Merge(hs)
  {
    var next := InputSet(t, Slots(hs, t));
    MergeStartsWithNext(hs, t);
    DeliverExtends(delivered, next);
    Regroup(WithPackets(delivered), OrNothing(next), Merge(Rest(hs, t)));
  }

  lemma {:induction false} DeliverKeepsAccount(c: Config, s: State)
    requires AllFollow(c, s) && PhaseInv(c, s) && Accounted(c, s) && Enabled(s, Deliver)
    ensures Accounted(c, Do(c, s, Deliver))
    ensures !c.processBounds ==> HasPacket(InputSet(s.phase.time, s.phase.taken))
  {
    var t, hs := s.phase.time, AllUndelivered(s);
    DeliverSplitsMerge(c, s);
    AppendKeepsAccount(s.delivered, hs, t);
    MergeOfNextSet(hs, t);
  }

  lemma {:induction false} DeliverKeepsDelivered(c: Config, s: State)
    requires DeliveredInv(c, s) && Enabled(s, Deliver) && s.last == s.phase.time
    requires !c.processBounds ==> HasPacket(InputSet(s.phase.time, s.phase.taken))
    ensures DeliveredInv(c, Do(c, s, Deliver))
  {}

  lemma {:induction false} DeliverKeepsInv(c: Config, s: State)
    requires Inv(c, s) && Enabled(s, Deliver)
    ensures Inv(c, Do(c, s, Deliver))
  {
    DeliverKeepsFollowing(c, s);
    DeliverKeepsReading(s.phase, s.streams, s.last);
    DeliverKeepsAccount(c, s);
    DeliverKeepsDelivered(c, s);
  }

  // ---------- every run ----------

  lemma {:induction false} FreshStreamFollows(st: Stream, history: seq<Packet>)
    requires LegalPast(history) && st == Prepared(st.maxSize, st.accepts)
    requires forall j :: 0 <= j < |history| ==> history[j].content.Some? && st.accepts(history[j])
    ensures Follows(st, [], history, history) && [] + st.queue + history == history
  {
    assert [] + st.queue + history == history;
  }

  lemma {:induction false} InitFollows(c: Config, s: State)
    requires WellFormed(c) && Init(c, s)
    ensures AllFollow(c, s) && AllUndelivered(s) == c.histories
  {
    forall i | 0 <= i < |s.streams|
      ensures Undelivered(s, i) == c.histories[i] && Follows(s.streams[i], Held(s, i), s.future[i], c.histories[i])
    {
      FreshStreamFollows(s.streams[i], c.histories[i]);
    }
    assert AllUndelivered(s) == c.histories;
  }

  lemma {:induction false} InitHasInv(c: Config, s: State)
    requires WellFormed(c) && Init(c, s)
    ensures Inv(c, s)
  {
    InitFollows(c, s);
    assert ReadingInv(s.phase, s.streams, s.last);
    assert Accounted(c, s) by { assert WithPackets([]) + Merge(c.histories) == Merge(c.histories); }
  }

  lemma {:induction false} StepKeepsInv(c: Config, s: State, step: Step)
    requires Inv(c, s) && Enabled(s, step)
    ensures Safe(s, step) && Inv(c, Do(c, s, step))
  {
    match step
    case Produce(i, n) => ProduceKeepsInv(c, s, i, n);
    case Promise(i, b) => PromiseKeepsInv(c, s, i, b);
    case Read => ReadKeepsInv(c, s);
    case Judge =>
      match Decide(s.phase.seen, s.last, c.processBounds) {
        case ReadyForProcess(_) => JudgeReadyKeepsInv(c, s);
        case ReadyForClose => JudgeCloseKeepsInv(c, s);
        case NotReady => JudgeNotReadyKeepsInv(c, s);
      }
    case Pop => PopKeepsInv(c, s);
    case Deliver => DeliverKeepsInv(c, s);
  }

  /** A run: the states it passes through and the step taken from each. */
  ghost predicate IsRun(c: Config, states: seq<State>, steps: seq<Step>) {
    && |states| == |steps| + 1 && Init(c, states[0])
    && forall i :: 0 <= i < |steps| ==> Enabled(states[i], steps[i]) && states[i + 1] == Do(c, states[i], steps[i])
  }

  lemma {:induction false} RunKeepsInv(c: Config, states: seq<State>, steps: seq<Step>, i: nat)
    requires WellFormed(c) && IsRun(c, states, steps) && i < |states|
    ensures Inv(c, states[i])
  {
    if i == 0 {
      InitHasInv(c, states[0]);
    } else {
      RunKeepsInv(c, states, steps, i - 1);
      StepKeepsInv(c, states[i - 1], steps[i - 1]);
    }
  }

  /** Schedule independence. At every point of every run, whatever the interleaving: the input sets
      delivered, less the empty ones that only the process-timestamps setting adds, are a prefix of
      the merge-join of the complete histories; they are all of it once the node is told to close;
      times strictly increase; and whatever step comes next, no producer is refused and no packet
      dropped. */
  lemma {:induction false} DeliveryIsPrefixOfMerge(c: Config, states: seq<State>, steps: seq<Step>, i: nat)
    requires WellFormed(c) && IsRun(c, states, steps) && i < |states|
    ensures var s := states[i];
            && WithPackets(s.delivered) <= Merge(c.histories)
            && (s.phase.Closing? ==> WithPackets(s.delivered) == Merge(c.histories))
            && (!c.processBounds ==> WithPackets(s.delivered) == s.delivered)
            && Ascending(s.delivered)
            && forall step :: Enabled(s, step) ==> Safe(s, step)
  {
    var s := states[i];
    RunKeepsInv(c, states, steps, i);
    if !c.processBounds { NothingToFilter(s.delivered); }
    forall step | Enabled(s, step) ensures Safe(s, step) { StepKeepsInv(c, s, step); }
  }

  lemma {:induction false} NothingToFilter(m: seq<InputSet>)
    requires forall k :: 0 <= k < |m| ==> HasPacket(m[k])
    ensures WithPackets(m) == m
  {
    if m != [] {
      var n := |m| - 1;
      NothingToFilter(m[..n]);
      assert HasPacket(m[n]) && m == m[..n] + [m[n]];
    }
  }

  /** Two runs over the same histories that both end with closing, under any two interleavings and
      either setting of process-timestamps, hand the calculator the same packets at the same times. */
  lemma {:induction false} CompleteRunsAgree(c: Config, states: seq<State>, steps: seq<Step>, c': Config,
      states': seq<State>, steps': seq<Step>)
    requires WellFormed(c) && c'.histories == c.histories
    requires IsRun(c, states, steps) && states[|steps|].phase.Closing?
    requires IsRun(c', states', steps') && states'[|steps'|].phase.Closing?
    ensures WithPackets(states[|steps|].delivered) == WithPackets(states'[|steps'|].delivered)
  {
    DeliveryIsPrefixOfMerge(c, states, steps, |steps|);
    DeliveryIsPrefixOfMerge(c', states', steps', |steps'|);
  }

  /** While an input set is filled, its time is settled: every stream already popped can only send
      later packets, and every other one nothing earlier. */
  lemma {:induction false} FillingTimeIsSettled(c: Config, states: seq<State>, steps: seq<Step>, i: nat, j: nat)
    requires WellFormed(c) && IsRun(c, states, steps) && i < |states|
    requires states[i].phase.Filling? && j < |states[i].streams| == |states[i].future|
    ensures var s := states[i];
            var rest := s.streams[j].queue + s.future[j];
            if j < |s.phase.taken| then LaterThan(rest, s.phase.time) else NotBefore(rest, s.phase.time)
  {
    var s := states[i];
    RunKeepsInv(c, states, steps, i);
    RestNotBefore(s.streams[j], Held(s, j), s.future[j], c.histories[j]);
  }

  lemma {:induction false} SummaryOfFinished(views: seq<View>, last: Timestamp)
    requires forall i :: 0 <= i < |views| ==>
               if views[i].empty then views[i].time >= ONE_OVER_POST_STREAM
               else IsAllowedInStream(views[i].time) && last < views[i].time
    ensures var m := Summary(views);
            m.bound >= ONE_OVER_POST_STREAM && (m.packet == DONE || (IsAllowedInStream(m.packet) && last < m.packet))
  {
    if views != [] { SummaryOfFinished(views[..|views| - 1], last); }
  }

  /** Once every producer has promised to send nothing more, a pass over the streams never answers
      "not ready": the consumer goes on delivering until it is told to close. */
  lemma {:induction false} FinishedProducersNeverStall(c: Config, s: State, views: seq<View>)
    requires Inv(c, s) && s.phase.Reading?
    requires forall i :: 0 <= i < |s.streams| ==> s.streams[i].bound >= ONE_OVER_POST_STREAM
    requires |views| == |s.streams| && forall i :: 0 <= i < |views| ==> views[i] == MinTimestampOrBound(s.streams[i])
    ensures Decide(Summary(views), s.last, c.processBounds) != NotReady
  {
    forall i | 0 <= i < |views| && !views[i].empty ensures IsAllowedInStream(views[i].time) && s.last < views[i].time {
      RestNotBefore(s.streams[i], Held(s, i), s.future[i], c.histories[i]);
    }
    SummaryOfFinished(views, s.last);
  }
}
