/** The queue between one output stream and one consumer, as a value: each function on `Stream` is
    one critical section under the stream mutex. */
module Streams {
  import opened Timestamps
  import opened Options

  /** A packet without content is the empty packet that stands for "nothing at this time". */
  datatype Packet = Packet(timestamp: Timestamp, content: Option<int>)

  datatype Stream = Stream(queue: seq<Packet>, added: nat, bound: Timestamp, lastSelect: Timestamp,
                           closed: bool, maxSize: int, accepts: Packet -> bool)

  /** What a reader of the stream can observe: whether the queue is empty, and the earliest
      timestamp at which a packet may appear. */
  datatype View = View(empty: bool, time: Timestamp)

  function MinTimestampOrBound(s: Stream): View {
    if s.queue == [] then View(true, s.bound) else View(false, s.queue[0].timestamp)
  }

  /** A maximum of -1 means no maximum; the other negative values act alike, because the
      comparison with the queue size is unsigned. */
  predicate IsFull(s: Stream) {
    0 <= s.maxSize <= |s.queue|
  }

  function Prepared(maxSize: int, accepts: Packet -> bool): Stream {
    Stream([], 0, PRE_STREAM, UNSTARTED, false, maxSize, accepts)
  }

  /** A new stream together with what the critical section tells its caller: success, whether the
      consumer must be notified, and which fullness callback is owed. */
  datatype Update = Update(stream: Stream, ok: bool, notify: bool, becameFull: bool, becameNotFull: bool)

  predicate Acceptable(s: Stream, p: Packet) {
    && s.accepts(p)
    && IsAllowedInStream(p.timestamp)
    && !(p.timestamp == POST_STREAM && s.added > 0)
    && s.bound <= p.timestamp
  }

  function Append(s: Stream, p: Packet): Stream {
    s.(queue := s.queue + [p], added := s.added + 1, bound := NextAllowedInStream(p.timestamp))
  }

  datatype Appended = Appended(stream: Stream, ok: bool)

  /** Packets are taken one at a time; the first unacceptable one ends the batch, and the ones
      before it stay. */
  function AppendAll(s: Stream, ps: seq<Packet>): Appended {
    if ps == [] then Appended(s, true) else
    var before := AppendAll(s, ps[..|ps| - 1]);
    var p := ps[|ps| - 1];
    if before.ok && Acceptable(before.stream, p) then Appended(Append(before.stream, p), true)
    else Appended(before.stream, false)
  }

  function AddPackets(s: Stream, ps: seq<Packet>): Update {
    if s.closed then Update(s, true, false, false, false) else
    var r := AppendAll(s, ps);
    if !r.ok then Update(r.stream, false, false, false, false)
    else Update(r.stream, true, s.queue == [] && ps != [], !IsFull(s) && IsFull(r.stream), false)
  }

  function SetNextTimestampBound(s: Stream, bound: Timestamp): Update {
    if s.closed then Update(s, true, false, false, false)
    else if bound < s.bound then Update(s, false, false, false, false)
    else Update(s.(bound := bound), true, bound > s.bound && s.queue == [], false, false)
  }

  function Close(s: Stream): Stream {
    if s.closed then s else s.(bound := DONE, lastSelect := DONE, closed := true)
  }

  function SetMaxQueueSize(s: Stream, maxSize: int): Update {
    var s' := s.(maxSize := maxSize);
    Update(s', true, false, !IsFull(s) && IsFull(s'), IsFull(s) && !IsFull(s'))
  }

  /** The number of packets at the front of the queue that are not later than `t`. */
  function LeadingUpTo(q: seq<Packet>, t: Timestamp): (n: nat)
    ensures n <= |q|
    ensures forall i :: 0 <= i < n ==> q[i].timestamp <= t
    ensures n < |q| ==> t < q[n].timestamp
  {
    if q == [] || t < q[0].timestamp then 0 else 1 + LeadingUpTo(q[1..], t)
  }

  datatype Popped = Popped(stream: Stream, packet: Packet, dropped: int, done: bool, becameNotFull: bool)

  function LastOf(ps: seq<Packet>): Packet {
    if ps == [] then Packet(UNSET, None) else ps[|ps| - 1]
  }

  /** Time moves to `t`: the packets up to `t` leave the queue, and no later producer may use `t`. */
  function Advanced(s: Stream, t: Timestamp): Stream {
    s.(lastSelect := t, bound := if s.bound <= t then NextAllowedInStream(t) else s.bound,
       queue := s.queue[LeadingUpTo(s.queue, t)..])
  }

  function PopPacketAtTimestamp(s: Stream, t: Timestamp): Popped {
    var n := LeadingUpTo(s.queue, t);
    var s' := Advanced(s, t);
    var last := LastOf(s.queue[..n]);
    Popped(s',
           if last.timestamp == t then last else Packet(PreviousAllowedInStream(MinTimestampOrBound(s').time), None),
           if last.timestamp == t then n - 1 else n,
           s'.queue == [] && s'.bound == DONE,
           IsFull(s) && |s'.queue| < s.maxSize)
  }

  lemma {:induction false} AcceptedNext(s: Stream, ps: seq<Packet>, i: nat)
    requires i < |ps|
    requires AppendAll(s, ps[..i]).ok && Acceptable(AppendAll(s, ps[..i]).stream, ps[i])
    ensures AppendAll(s, ps[..i + 1]) == Appended(Append(AppendAll(s, ps[..i]).stream, ps[i]), true)
  {
    assert ps[..i + 1][..i] == ps[..i];
  }

  /** When an unacceptable packet follows an accepted prefix, the batch ends at that prefix. */
  lemma {:induction false} RejectedPrefix(s: Stream, ps: seq<Packet>, i: nat)
    requires i < |ps|
    requires AppendAll(s, ps[..i]).ok && !Acceptable(AppendAll(s, ps[..i]).stream, ps[i])
    ensures AppendAll(s, ps) == Appended(AppendAll(s, ps[..i]).stream, false)
    decreases |ps|
  {
    if i < |ps| - 1 {
      assert ps[..|ps| - 1][..i] == ps[..i];
      RejectedPrefix(s, ps[..|ps| - 1], i);
    }
  }
}
