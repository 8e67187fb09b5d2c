/** One output stream of a sequential calculator over a run: the calculator's calls write to the
    shard, the framework computes a bound after each call and propagates it with the packets to the
    mirrors, one mirror and one critical section at a time, while consumers go on reading. */
module OutputRuns {
  import opened Timestamps
  import opened Options
  import opened Streams
  import opened StreamRuns
  import opened Merging
  import opened OutputStreams
  import I = ScheduleIndependence

  /** `Sending` knows the bound the mirrors had before, the next mirror, whether that one has its
      packets already, and whether the stream is closed afterwards. */
  datatype Phase =
    | Resting
    | Running(shard: Shard, input: Timestamp)
    | Sending(packets: seq<Packet>, bound: Timestamp, from: Timestamp, k: nat, half: bool, last: bool)

  /** `sent` holds all packets ever propagated. */
  datatype State = State(bound: Timestamp, closed: bool, mirrors: seq<Stream>, sent: seq<Packet>, phase: Phase)

  datatype Step =
    | Begin(input: Timestamp)            // a call of the calculator starts with a fresh shard
    | Emit(packet: Packet)
    | Promise(bound: Timestamp)
    | Shut                               // the calculator closes the stream
    | End                                // the call returns
    | EndLast                            // the closing call of the calculator returns
    | Advance(inputBound: Timestamp)     // the inputs cannot deliver anything earlier
    | SendPackets
    | SendBound
    | Sent
    | Consume(m: nat, time: Timestamp)   // a consumer reads a mirror at a settled time
    | ShutMirror(m: nat)                 // a consumer closes a mirror

  predicate AllAccept(mirrors: seq<Stream>, p: Packet) {
    forall m :: 0 <= m < |mirrors| ==> mirrors[m].accepts(p)
  }

  /** The calculator obeys the rules of a stream: it only raises bounds, and a packet at PRE_STREAM or
      POST_STREAM is the only one. */
  predicate Enabled(spec: Spec, s: State, step: Step) {
    match step
    case Begin(t) => s.phase.Resting? && !s.closed && (t == UNSTARTED || IsAllowedInStream(t))
    case Emit(p) =>
      && s.phase.Running? && p.content.Some? && AllAccept(s.mirrors, p)
      && AddPacket(s.phase.shard, p, _ => true).ok && s.phase.shard.bound <= p.timestamp
      && (p.timestamp == POST_STREAM ==> s.sent == [] && s.phase.shard.queue == [])
    case Promise(b) => s.phase.Running? && s.phase.shard.bound <= b && SetShardBound(s.phase.shard, b).ok
    case Shut => s.phase.Running?
    case End => s.phase.Running?
    case EndLast => s.phase.Running?
    case Advance(b) =>
      s.phase.Resting? && !s.closed && IsRangeValue(b) && spec.offsetEnabled && Plus(b, spec.offset) > s.bound
    case SendPackets => s.phase.Sending? && s.phase.k < |s.mirrors| && !s.phase.half
    case SendBound => s.phase.Sending? && s.phase.k < |s.mirrors| && s.phase.half
    case Sent => s.phase.Sending? && s.phase.k == |s.mirrors| && !s.phase.half
    case Consume(m, t) => m < |s.mirrors| && t < s.mirrors[m].bound
    case ShutMirror(m) => m < |s.mirrors|
  }

  function StartSending(s: State, packets: seq<Packet>, b: Timestamp, last: bool): State {
    s.(bound := if b == UNSET then s.bound else b, sent := s.sent + packets,
       phase := Sending(packets, b, s.bound, 0, false, last))
  }

  function Do(spec: Spec, s: State, step: Step): State
    requires Enabled(spec, s, step)
  {
    match step
    case Begin(t) => s.(phase := Running(Reset(s.bound, s.closed), t))
    case Emit(p) => s.(phase := s.phase.(shard := AddPacket(s.phase.shard, p, _ => true).shard))
    case Promise(b) => s.(phase := s.phase.(shard := SetShardBound(s.phase.shard, b).shard))
    case Shut => s.(phase := s.phase.(shard := CloseShard(s.phase.shard)))
    case End =>
      var shard := s.phase.shard;
      StartSending(s, shard.queue, ComputeOutputTimestampBound(spec, shard, s.phase.input), shard.closed)
    case EndLast => StartSending(s, s.phase.shard.queue, DONE, true)
    case Advance(b) => StartSending(s, [], Plus(b, spec.offset), false)
    case SendPackets =>
      var k := s.phase.k;
      s.(mirrors := s.mirrors[k := AfterPackets(s.mirrors[k], s.phase.packets).stream], phase := s.phase.(half := true))
    case SendBound =>
      var k := s.phase.k;
      s.(mirrors := s.mirrors[k := AfterBound(s.mirrors[k], s.phase.packets, s.phase.bound).stream],
         phase := s.phase.(half := false, k := k + 1))
    case Sent => if s.phase.last then StartSending(s.(closed := true), [], DONE, false) else s.(phase := Resting)
    case Consume(m, t) => s.(mirrors := s.mirrors[m := PopPacketAtTimestamp(s.mirrors[m], t).stream])
    case ShutMirror(m) => s.(mirrors := s.mirrors[m := Close(s.mirrors[m])])
  }

  /** No mirror refuses what it is sent. */
  predicate Safe(s: State, step: Step) {
    match step
    case SendPackets =>
      s.phase.Sending? && s.phase.k < |s.mirrors| ==> AfterPackets(s.mirrors[s.phase.k], s.phase.packets).ok
    case SendBound =>
      s.phase.Sending? && s.phase.k < |s.mirrors| ==>
        AfterBound(s.mirrors[s.phase.k], s.phase.packets, s.phase.bound).ok
    case _ => true
  }

  ghost predicate Init(s: State) {
    && s.bound == PRE_STREAM && !s.closed && s.sent == [] && s.phase == Resting
    && forall m :: 0 <= m < |s.mirrors| ==> s.mirrors[m] == Prepared(s.mirrors[m].maxSize, s.mirrors[m].accepts)
  }

  // ---------- the invariant ----------

  /** The mirror is open and has got the packets `sent` and the bound `b`, or it is closed. */
  ghost predicate InStep(m: Stream, b: Timestamp, sent: seq<Packet>) {
    m.closed || (m.bound == b && m.added == |sent| && EndsWith(sent, m.queue))
  }

  function LastBound(packets: seq<Packet>, b: Timestamp): Timestamp {
    if packets == [] then b else NextAllowedInStream(packets[|packets| - 1].timestamp)
  }

  /** Packets that every mirror at bound `from` with `count` packets so far will accept. */
  ghost predicate Sendable(packets: seq<Packet>, from: Timestamp, count: nat, mirrors: seq<Stream>) {
    && Increasing(packets) && NotBefore(packets, from)
    && forall j :: 0 <= j < |packets| ==>
         && AllAccept(mirrors, packets[j]) && IsAllowedInStream(packets[j].timestamp)
         && (IsSummary(packets[j]) ==> |packets| == 1 && count == 0)
  }

  ghost predicate ShardInv(s: Shard, from: Timestamp, count: nat, mirrors: seq<Stream>) {
    && from <= s.bound && (s.closed ==> s.bound == DONE)
    && (if s.updated == UNSET then s.bound == from && s.queue == [] && !s.closed else s.updated == s.bound)
    && Sendable(s.queue, from, count, mirrors) && LastBound(s.queue, from) <= s.bound
  }

  /** What each mirror has got while a propagation is under way. */
  ghost predicate MirrorInv(s: State, m: nat)
    requires s.phase.Sending? && m < |s.mirrors| && |s.phase.packets| <= |s.sent|
  {
    var p, before := s.phase, s.sent[..|s.sent| - |s.phase.packets|];
    if m < p.k then InStep(s.mirrors[m], s.bound, s.sent)
    else if m == p.k && p.half then InStep(s.mirrors[m], LastBound(p.packets, p.from), s.sent)
    else InStep(s.mirrors[m], p.from, before)
  }

  ghost predicate BatchInv(s: State)
    requires s.phase.Sending?
  {
    var p := s.phase;
    && p.k <= |s.mirrors| && (p.half ==> p.k < |s.mirrors|) && |p.packets| <= |s.sent|
    && p.packets == s.sent[|s.sent| - |p.packets|..]
    && Sendable(p.packets, p.from, |s.sent| - |p.packets|, s.mirrors)
    && s.bound == (if p.bound == UNSET then p.from else p.bound)
    && p.from <= s.bound && LastBound(p.packets, p.from) <= s.bound && (p.bound == UNSET ==> p.packets == [])
    && (p.last ==> !s.closed)
  }

  ghost predicate SendingInv(s: State)
    requires s.phase.Sending?
  {
    BatchInv(s) && forall m :: 0 <= m < |s.mirrors| ==> MirrorInv(s, m)
  }

  ghost predicate Inv(s: State) {
    && PRE_STREAM <= s.bound && (s.sent != [] ==> PRE_STREAM < s.bound)
    && match s.phase
       case Resting => forall m :: 0 <= m < |s.mirrors| ==> InStep(s.mirrors[m], s.bound, s.sent)
       case Running(shard, input) =>
         && !s.closed && ShardInv(shard, s.bound, |s.sent|, s.mirrors)
             && (input == UNSTARTED || IsAllowedInStream(input))
         && forall m :: 0 <= m < |s.mirrors| ==> InStep(s.mirrors[m], s.bound, s.sent)
       case Sending(_, _, _, _, _, _) => SendingInv(s)
  }

  // ---------- the calculator's calls ----------

  lemma {:induction false} EmitKeepsShard(s: Shard, from: Timestamp, count: nat, mirrors: seq<Stream>, p: Packet)
    requires PRE_STREAM <= from && (count > 0 ==> PRE_STREAM < from)
    requires ShardInv(s, from, count, mirrors) && p.content.Some? && AllAccept(mirrors, p)
    requires AddPacket(s, p, _ => true).ok && s.bound <= p.timestamp
    requires p.timestamp == POST_STREAM ==> count == 0 && s.queue == []
    ensures ShardInv(AddPacket(s, p, _ => true).shard, from, count, mirrors)
  {
    var q := s.queue;
    if q != [] {
      var last := q[|q| - 1];
      assert last.timestamp < NextAllowedInStream(last.timestamp) <= p.timestamp;
      assert !IsSummary(last);
      assert forall j :: 0 <= j < |q| ==> q[j].timestamp <= last.timestamp;
    }
  }

  lemma {:induction false} CallKeepsInv(spec: Spec, s: State, step: Step)
    requires Inv(s) && Enabled(spec, s, step) && (step.Begin? || step.Emit? || step.Promise? || step.Shut?)
    ensures Inv(Do(spec, s, step))
  {
    if step.Emit? { EmitKeepsShard(s.phase.shard, s.bound, |s.sent|, s.mirrors, step.packet); }
  }

  /** The bound after a call is the greater of what the calculator and its input establish. */
  lemma {:induction false} BoundIsGreatest(spec: Spec, s: Shard, from: Timestamp, count: nat, mirrors: seq<Stream>,
      input: Timestamp)
    requires PRE_STREAM <= from && ShardInv(s, from, count, mirrors) && (input == UNSTARTED || IsAllowedInStream(input))
    ensures var b := ComputeOutputTimestampBound(spec, s, input);
            && Greatest(s.bound, InputBound(spec, input)) == (if b == UNSET then from else b)
            && (b == UNSET ==> s.queue == [])
  {}

  // ---------- propagation ----------

  lemma {:induction false} StartSendingKeepsInv(s: State, packets: seq<Packet>, b: Timestamp, last: bool)
    requires PRE_STREAM <= s.bound && (s.sent != [] ==> PRE_STREAM < s.bound) && (last ==> !s.closed)
    requires forall m :: 0 <= m < |s.mirrors| ==> InStep(s.mirrors[m], s.bound, s.sent)
    requires Sendable(packets, s.bound, |s.sent|, s.mirrors) && (b == UNSET ==> packets == [])
    requires b == UNSET || (s.bound <= b && LastBound(packets, s.bound) <= b)
    ensures Inv(StartSending(s, packets, b, last))
  {
    var s' := StartSending(s, packets, b, last);
    assert s'.sent[..|s'.sent| - |packets|] == s.sent;
    assert s'.sent[|s'.sent| - |packets|..] == packets;
    if packets != [] { assert packets[|packets| - 1].timestamp < LastBound(packets, s.bound); }
  }

  lemma {:induction false} EndKeepsInv(spec: Spec, s: State, step: Step)
    requires Inv(s) && Enabled(spec, s, step) && (step.End? || step.EndLast? || step.Advance?)
    ensures Inv(Do(spec, s, step))
  {
    if step.Advance? {
      StartSendingKeepsInv(s, [], Plus(step.inputBound, spec.offset), false);
    } else {
      var shard := s.phase.shard;
      BoundIsGreatest(spec, shard, s.bound, |s.sent|, s.mirrors, s.phase.input);
      var b := if step.End? then ComputeOutputTimestampBound(spec, shard, s.phase.input) else DONE;
      StartSendingKeepsInv(s, shard.queue, b, step.EndLast? || shard.closed);
    }
  }

  lemma {:induction false} MirrorTakesPackets(m: Stream, packets: seq<Packet>, from: Timestamp, sent: seq<Packet>,
      mirrors: seq<Stream>, i: nat)
    requires i < |mirrors| && mirrors[i] == m && InStep(m, from, sent) && Sendable(packets, from, |sent|, mirrors)
    ensures var u := AfterPackets(m, packets);
            && u.ok && u.stream.accepts == m.accepts
            && InStep(u.stream, LastBound(packets, from), sent + packets)
  {
    if packets != [] && !m.closed {
      assert I.Sendable(m, packets);
      I.SendSucceeds(m, packets, |packets|);
      assert packets[..|packets|] == packets;
    }
    if packets == [] { assert sent + packets == sent; }
  }

  lemma {:induction false} SendableStays(packets: seq<Packet>, from: Timestamp, count: nat, mirrors: seq<Stream>,
      k: nat, st: Stream)
    requires k < |mirrors| && st.accepts == mirrors[k].accepts && Sendable(packets, from, count, mirrors)
    ensures Sendable(packets, from, count, mirrors[k := st])
  {
    forall j | 0 <= j < |packets| ensures AllAccept(mirrors[k := st], packets[j]) {
      assert AllAccept(mirrors, packets[j]);
    }
  }

  function Moved(s: State, st: Stream, half: bool): State
    requires s.phase.Sending? && s.phase.k < |s.mirrors|
  {
    var k := s.phase.k;
    s.(mirrors := s.mirrors[k := st], phase := s.phase.(half := half, k := if half then k else k + 1))
  }

  lemma {:induction false} MoveKeepsBatch(s: State, st: Stream, half: bool)
    requires s.phase.Sending? && BatchInv(s) && s.phase.k < |s.mirrors| && st.accepts == s.mirrors[s.phase.k].accepts
    ensures BatchInv(Moved(s, st, half))
  {
    SendableStays(s.phase.packets, s.phase.from, |s.sent| - |s.phase.packets|, s.mirrors, s.phase.k, st);
  }

  lemma {:induction false} MoveKeepsMirror(s: State, st: Stream, half: bool, m: nat)
    requires s.phase.Sending? && s.phase.k < |s.mirrors| && half == !s.phase.half
    requires m < |s.mirrors| && |s.phase.packets| <= |s.sent| && MirrorInv(s, m)
    requires InStep(st, if half then LastBound(s.phase.packets, s.phase.from) else s.bound, s.sent)
    ensures MirrorInv(Moved(s, st, half), m)
  {}

  /** One mirror moves on; the others are as they were. */
  lemma {:induction false} MirrorMoves(s: State, st: Stream, half: bool)
    requires s.phase.Sending? && SendingInv(s) && s.phase.k < |s.mirrors| && half == !s.phase.half
    requires st.accepts == s.mirrors[s.phase.k].accepts
    requires InStep(st, if half then LastBound(s.phase.packets, s.phase.from) else s.bound, s.sent)
    ensures SendingInv(Moved(s, st, half))
  {
    MoveKeepsBatch(s, st, half);
    forall m | 0 <= m < |s.mirrors| ensures MirrorInv(Moved(s, st, half), m) { MoveKeepsMirror(s, st, half, m); }
  }

  lemma {:induction false} NextMirrorTakesPackets(s: State)
    requires s.phase.Sending? && SendingInv(s) && s.phase.k < |s.mirrors| && !s.phase.half
    ensures var u := AfterPackets(s.mirrors[s.phase.k], s.phase.packets);
            && u.ok && u.stream.accepts == s.mirrors[s.phase.k].accepts
            && InStep(u.stream, LastBound(s.phase.packets, s.phase.from), s.sent)
  {
    var p, k, before := s.phase, s.phase.k, s.sent[..|s.sent| - |s.phase.packets|];
    assert InStep(s.mirrors[k], p.from, before) by { assert MirrorInv(s, k); }
    MirrorTakesPackets(s.mirrors[k], p.packets, p.from, before, s.mirrors, k);
    assert before + p.packets == s.sent;
  }

  lemma {:induction false} SendPacketsKeepsInv(spec: Spec, s: State)
    requires Inv(s) && Enabled(spec, s, SendPackets)
    ensures Safe(s, SendPackets) && Inv(Do(spec, s, SendPackets))
  {
    var st := AfterPackets(s.mirrors[s.phase.k], s.phase.packets).stream;
    NextMirrorTakesPackets(s);
    MirrorMoves(s, st, true);
    assert Do(spec, s, SendPackets) == Moved(s, st, true);
  }

  lemma {:induction false} MirrorTakesBound(m: Stream, packets: seq<Packet>, from: Timestamp, b: Timestamp,
      sent: seq<Packet>)
    requires InStep(m, LastBound(packets, from), sent) && (b == UNSET ==> packets == [])
    requires b != UNSET ==> LastBound(packets, from) <= b
    ensures var u := AfterBound(m, packets, b);
            u.ok && u.stream.accepts == m.accepts && InStep(u.stream, if b == UNSET then from else b, sent)
  {}

  lemma {:induction false} SendBoundKeepsInv(spec: Spec, s: State)
    requires Inv(s) && Enabled(spec, s, SendBound)
    ensures Safe(s, SendBound) && Inv(Do(spec, s, SendBound))
  {
    var p, k := s.phase, s.phase.k;
    assert MirrorInv(s, k);
    MirrorTakesBound(s.mirrors[k], p.packets, p.from, p.bound, s.sent);
    var st := AfterBound(s.mirrors[k], p.packets, p.bound).stream;
    MirrorMoves(s, st, false);
    assert Do(spec, s, SendBound) == Moved(s, st, false);
  }

  lemma {:induction false} SentKeepsInv(spec: Spec, s: State)
    requires Inv(s) && Enabled(spec, s, Sent)
    ensures Inv(Do(spec, s, Sent))
  {
    forall m | 0 <= m < |s.mirrors| ensures InStep(s.mirrors[m], s.bound, s.sent) { assert MirrorInv(s, m); }
    if s.phase.last { StartSendingKeepsInv(s.(closed := true), [], DONE, false); }
  }

  // ---------- the consumers ----------

  lemma {:induction false} ReadingKeepsStep(m: Stream, b: Timestamp, sent: seq<Packet>, t: Timestamp)
    requires InStep(m, b, sent) && t < m.bound
    ensures InStep(PopPacketAtTimestamp(m, t).stream, b, sent)
  {}

  /** What a consumer does to a mirror leaves it in step. */
  ghost predicate Consumed(m: Stream, m': Stream) {
    && m'.accepts == m.accepts
    && forall b, sent :: InStep(m, b, sent) ==> InStep(m', b, sent)
  }

  lemma {:induction false} ConsumedKeepsInv(s: State, m: nat, st: Stream)
    requires Inv(s) && m < |s.mirrors| && Consumed(s.mirrors[m], st)
    ensures Inv(s.(mirrors := s.mirrors[m := st]))
  {
    var s' := s.(mirrors := s.mirrors[m := st]);
    match s.phase
    case Resting =>
    case Running(shard, _) => SendableStays(shard.queue, s.bound, |s.sent|, s.mirrors, m, st);
    case Sending(packets, _, from, _, _, _) =>
      SendableStays(packets, from, |s.sent| - |packets|, s.mirrors, m, st);
      forall l | 0 <= l < |s.mirrors| ensures MirrorInv(s', l) { assert MirrorInv(s, l); }
  }

  lemma {:induction false} ConsumerKeepsInv(spec: Spec, s: State, step: Step)
    requires Inv(s) && Enabled(spec, s, step) && (step.Consume? || step.ShutMirror?)
    ensures Inv(Do(spec, s, step))
  {
    var st := s.mirrors[step.m];
    var st' := if step.Consume? then PopPacketAtTimestamp(st, step.time).stream else Close(st);
    forall b, sent | InStep(st, b, sent) ensures InStep(st', b, sent) {
      if step.Consume? { ReadingKeepsStep(st, b, sent, step.time); }
    }
    ConsumedKeepsInv(s, step.m, st');
  }

  lemma {:induction false} StepKeepsInv(spec: Spec, s: State, step: Step)
    requires Inv(s) && Enabled(spec, s, step)
    ensures Safe(s, step) && Inv(Do(spec, s, step))
  {
    match step
    case SendPackets => SendPacketsKeepsInv(spec, s);
    case SendBound => SendBoundKeepsInv(spec, s);
    case Sent => SentKeepsInv(spec, s);
    case Consume(_, _) => ConsumerKeepsInv(spec, s, step);
    case ShutMirror(_) => ConsumerKeepsInv(spec, s, step);
    case End => EndKeepsInv(spec, s, step);
    case EndLast => EndKeepsInv(spec, s, step);
    case Advance(_) => EndKeepsInv(spec, s, step);
    case _ => CallKeepsInv(spec, s, step);
  }

  // ---------- every run ----------

  ghost predicate IsRun(spec: Spec, states: seq<State>, steps: seq<Step>) {
    && |states| == |steps| + 1 && Init(states[0])
    && forall i :: 0 <= i < |steps| ==>
         Enabled(spec, states[i], steps[i]) && states[i + 1] == Do(spec, states[i], steps[i])
  }

  lemma {:induction false} RunKeepsInv(spec: Spec, states: seq<State>, steps: seq<Step>, i: nat)
    requires IsRun(spec, states, steps) && i < |states|
    ensures Inv(states[i])
  {
    if i > 0 {
      RunKeepsInv(spec, states, steps, i - 1);
      StepKeepsInv(spec, states[i - 1], steps[i - 1]);
    }
  }

  /** Bound propagation refines maximum: when a call returns, the stream's bound becomes the greater of
      the bound the calculator left in its shard and the one its input timestamp implies. */
  lemma {:induction false} BoundAfterCall(spec: Spec, states: seq<State>, steps: seq<Step>, i: nat)
    requires IsRun(spec, states, steps) && i < |steps| && steps[i] == End
    ensures states[i + 1].bound == Greatest(states[i].phase.shard.bound, InputBound(spec, states[i].phase.input))
  {
    var s := states[i];
    RunKeepsInv(spec, states, steps, i);
    BoundIsGreatest(spec, s.phase.shard, s.bound, |s.sent|, s.mirrors, s.phase.input);
  }

  /** Between propagations every open mirror holds the manager's bound, has accepted all packets sent,
      and its unread packets are the last of them in order; and at no point is a mirror sent
      anything that it refuses. */
  lemma {:induction false} MirrorsAgree(spec: Spec, states: seq<State>, steps: seq<Step>, i: nat, m: nat)
    requires IsRun(spec, states, steps) && i < |states| && m < |states[i].mirrors|
    ensures var s := states[i];
            !s.phase.Sending? && !s.mirrors[m].closed ==>
              s.mirrors[m].bound == s.bound && s.mirrors[m].added == |s.sent| && EndsWith(s.sent, s.mirrors[m].queue)
    ensures i < |steps| ==> Safe(states[i], steps[i])
  {
    RunKeepsInv(spec, states, steps, i);
    if i < |steps| { StepKeepsInv(spec, states[i], steps[i]); }
  }

  lemma {:induction false} StepNeverLowersBound(spec: Spec, s: State, step: Step)
    requires Inv(s) && Enabled(spec, s, step)
    ensures s.bound <= Do(spec, s, step).bound
  {
    if step.End? { BoundIsGreatest(spec, s.phase.shard, s.bound, |s.sent|, s.mirrors, s.phase.input); }
  }

  /** The bound of the stream never goes back. */
  lemma {:induction false} BoundNeverFalls(spec: Spec, states: seq<State>, steps: seq<Step>, i: nat)
    requires IsRun(spec, states, steps) && i < |steps|
    ensures states[i].bound <= states[i + 1].bound
  {
    RunKeepsInv(spec, states, steps, i);
    StepNeverLowersBound(spec, states[i], steps[i]);
  }

  /** The same for the objects, whose handler finishes one propagation before the next: a returned call
      leaves the manager with the greater bound and every open mirror in step with it. */
  lemma {:induction false} CallKeepsMirrorsInStep(spec: Spec, m: Manager, shard: Shard, input: Timestamp,
      sent: seq<Packet>, i: nat)
    requires PRE_STREAM <= m.bound && !m.closed && !shard.closed && (input == UNSTARTED || IsAllowedInStream(input))
    requires ShardInv(shard, m.bound, |sent|, m.mirrors)
    requires i < |m.mirrors| && InStep(m.mirrors[i], m.bound, sent)
    ensures var m' := AfterCall(spec, m, shard, input);
            && m'.bound == Greatest(shard.bound, InputBound(spec, input))
            && i < |m'.mirrors| && InStep(m'.mirrors[i], m'.bound, sent + shard.queue)
  {
    var b := ComputeOutputTimestampBound(spec, shard, input);
    BoundIsGreatest(spec, shard, m.bound, |sent|, m.mirrors, input);
    MirrorTakesPackets(m.mirrors[i], shard.queue, m.bound, sent, m.mirrors, i);
    MirrorTakesBound(AfterPackets(m.mirrors[i], shard.queue).stream, shard.queue, m.bound, b, sent + shard.queue);
  }

  // ---------- calculators that keep to their offset ----------

  /** The earliest time of the next input, as far as the steps taken tell. */
  function Horizon(steps: seq<Step>): Timestamp {
    if steps == [] then PRE_STREAM else
    var h := Horizon(steps[..|steps| - 1]);
    match steps[|steps| - 1]
    case Begin(t) => if t == UNSTARTED then h else NextInput(t)
    case Advance(b) => Greatest(h, b)
    case _ => h
  }

  /** The calculator reads at increasing times, no earlier than its inputs were announced; it writes
      only at input time plus offset, without clamping; and it neither promises bounds of its own nor
      closes the stream. */
  predicate KeepsToOffset(spec: Spec, s: State, step: Step, h: Timestamp) {
    match step
    case Begin(t) => t == UNSTARTED || h <= t
    case Emit(p) =>
      && s.phase.Running? && p.timestamp == OutputTime(spec, s.phase.input)
      && (s.phase.input == POST_STREAM
          || (IsRangeValue(s.phase.input) && MIN as int <= s.phase.input as int + spec.offset as int < MAX as int))
    case Promise(_) => false
    case Shut => false
    case EndLast => false
    case _ => true
  }

  ghost predicate IsOffsetRun(spec: Spec, states: seq<State>, steps: seq<Step>) {
    && spec.offsetEnabled && IsRun(spec, states, steps)
    && forall i :: 0 <= i < |steps| ==> KeepsToOffset(spec, states[i], steps[i], Horizon(steps[..i]))
  }

  /** The bound leaves room for what the calculator will write. */
  predicate Room(spec: Spec, s: State, h: Timestamp) {
    && PRE_STREAM <= h <= ONE_OVER_POST_STREAM
    && match s.phase
       case Resting => s.bound <= OutputTime(spec, h)
       case Sending(_, _, _, _, _, last) => s.bound <= OutputTime(spec, h) && !last
       case Running(shard, t) =>
         && !shard.closed
         && if t == UNSTARTED then shard.bound <= OutputTime(spec, h) else
            && IsAllowedInStream(t) && h == NextInput(t)
            && if shard.queue == [] then shard.bound <= OutputTime(spec, t) else shard.bound <= OutputTime(spec, h)
  }

  lemma {:induction false} EmitLeavesRoom(spec: Spec, s: State, p: Packet, h: Timestamp)
    requires Inv(s) && Room(spec, s, h) && Enabled(spec, s, Emit(p)) && KeepsToOffset(spec, s, Emit(p), h)
    ensures Room(spec, Do(spec, s, Emit(p)), h)
  {
    if IsRangeValue(s.phase.input) { WritingOutrunsIffClamped(spec, s.phase.input); }
  }

  lemma {:induction false} EndLeavesRoom(spec: Spec, s: State, h: Timestamp)
    requires spec.offsetEnabled && Inv(s) && Room(spec, s, h) && Enabled(spec, s, End)
    ensures Room(spec, Do(spec, s, End), h)
  {
    var shard, t := s.phase.shard, s.phase.input;
    BoundIsGreatest(spec, shard, s.bound, |s.sent|, s.mirrors, t);
    if t != UNSTARTED {
      InputBoundNeverOutruns(spec, t, h);
      OutputTimeIsMonotone(spec, t, h);
    }
  }

  lemma {:induction false} StepLeavesRoom(spec: Spec, s: State, step: Step, h: Timestamp, h': Timestamp)
    requires spec.offsetEnabled && Inv(s) && Room(spec, s, h)
    requires Enabled(spec, s, step) && KeepsToOffset(spec, s, step, h)
    requires h' == match step
                   case Begin(t) => if t == UNSTARTED then h else NextInput(t)
                   case Advance(b) => Greatest(h, b)
                   case _ => h
    ensures Room(spec, Do(spec, s, step), h')
  {
    match step
    case Begin(t) => if t != UNSTARTED { OutputTimeIsMonotone(spec, h, t); }
    case Emit(p) => EmitLeavesRoom(spec, s, p, h);
    case End => EndLeavesRoom(spec, s, h);
    case Advance(b) => OutputTimeIsMonotone(spec, b, h');
    case _ =>
  }

  lemma {:induction false} OffsetRunLeavesRoom(spec: Spec, states: seq<State>, steps: seq<Step>, i: nat)
    requires IsOffsetRun(spec, states, steps) && i < |states|
    ensures Room(spec, states[i], Horizon(steps[..i]))
  {
    if i > 0 {
      OffsetRunLeavesRoom(spec, states, steps, i - 1);
      RunKeepsInv(spec, states, steps, i - 1);
      assert steps[..i][..i - 1] == steps[..i - 1];
      StepLeavesRoom(spec, states[i - 1], steps[i - 1], Horizon(steps[..i - 1]), Horizon(steps[..i]));
    }
  }

  /** In every run of a calculator that keeps to its offset, no bound that the framework derives or
      propagates is ever beyond the packet the calculator has yet to write for its current input. */
  lemma {:induction false} OffsetNeverOutrunsCalculator(spec: Spec, states: seq<State>, steps: seq<Step>, i: nat)
    requires IsOffsetRun(spec, states, steps) && i < |states|
    requires states[i].phase.Running? && states[i].phase.input != UNSTARTED && states[i].phase.shard.queue == []
    ensures states[i].bound <= states[i].phase.shard.bound <= OutputTime(spec, states[i].phase.input)
  {
    OffsetRunLeavesRoom(spec, states, steps, i);
    RunKeepsInv(spec, states, steps, i);
  }
}
