/** Everything that can happen to one stream over a run, and what every run keeps. */
module StreamRuns {
  import opened Timestamps
  import opened Options
  import opened Streams

  /** A stream with its past: the packets it ever accepted, and how many of them were handed to
      the consumer and how many were skipped over. */
  datatype History = History(stream: Stream, accepted: seq<Packet>, returned: nat, skipped: int)

  datatype Op =
    | Add(packets: seq<Packet>) | Raise(bound: Timestamp) | Select(time: Timestamp) | Shut | Resize(maxSize: int)

  /** Only reading is restricted: at a time a packet may carry, and never back in time. */
  predicate Enabled(s: Stream, op: Op) {
    op.Select? ==> IsAllowedInStream(op.time) && s.lastSelect <= op.time
  }

  /** How many packets of the batch the critical section takes before it stops. */
  function Taken(s: Stream, ps: seq<Packet>): (n: nat)
    ensures n <= |ps|
  {
    if ps == [] then 0 else
    var before := AppendAll(s, ps[..|ps| - 1]);
    if before.ok && Acceptable(before.stream, ps[|ps| - 1]) then |ps| else Taken(s, ps[..|ps| - 1])
  }

  predicate Found(s: Stream, t: Timestamp) {
    exists i :: 0 <= i < |s.queue| && s.queue[i].timestamp == t
  }

  function Apply(h: History, op: Op): History {
    match op
    case Add(ps) =>
      h.(stream := AddPackets(h.stream, ps).stream,
         accepted := h.accepted + if h.stream.closed then [] else ps[..Taken(h.stream, ps)])
    case Raise(b) => h.(stream := SetNextTimestampBound(h.stream, b).stream)
    case Select(t) =>
      var r := PopPacketAtTimestamp(h.stream, t);
      h.(stream := r.stream, returned := h.returned + if Found(h.stream, t) then 1 else 0,
         skipped := h.skipped + r.dropped)
    case Shut => h.(stream := Close(h.stream))
    case Resize(n) => h.(stream := SetMaxQueueSize(h.stream, n).stream)
  }

  ghost predicate Increasing(ps: seq<Packet>) {
    forall i, j :: 0 <= i < j < |ps| ==> ps[i].timestamp < ps[j].timestamp
  }

  predicate IsSummary(p: Packet) {
    p.timestamp == PRE_STREAM || p.timestamp == POST_STREAM
  }

  /** What the documentation of the input stream promises about all packets of a run. */
  ghost predicate LegalPast(ps: seq<Packet>) {
    && Increasing(ps)
    && (forall i :: 0 <= i < |ps| ==> IsAllowedInStream(ps[i].timestamp))
    && (forall i :: 0 <= i < |ps| && IsSummary(ps[i]) ==> |ps| == 1)
  }

  /** `tail` is the end of `all`. */
  ghost predicate EndsWith(all: seq<Packet>, tail: seq<Packet>) {
    |tail| <= |all| && forall i :: 0 <= i < |tail| ==> tail[i] == all[|all| - |tail| + i]
  }

  ghost predicate Inv(h: History) {
    var s, past := h.stream, h.accepted;
    && LegalPast(past)
    && s.added == |past|
    && EndsWith(past, s.queue)
    && (past != [] ==> NextAllowedInStream(past[|past| - 1].timestamp) <= s.bound)
    && (s.closed ==> s.bound == DONE)
    && |past| == |s.queue| + h.returned + h.skipped
  }

  lemma {:induction false} TakenPrefix(s: Stream, ps: seq<Packet>)
    ensures AppendAll(s, ps).ok <==> Taken(s, ps) == |ps|
    ensures AppendAll(s, ps).stream == AppendAll(s, ps[..Taken(s, ps)]).stream
    ensures AppendAll(s, ps[..Taken(s, ps)]).ok
    decreases |ps|
  {
    if ps != [] {
      TakenPrefix(s, ps[..|ps| - 1]);
      assert ps[..|ps|] == ps;
      if Taken(s, ps) != |ps| { assert ps[..|ps| - 1][..Taken(s, ps)] == ps[..Taken(s, ps)]; }
    }
  }

  lemma {:induction false} AppendKeepsInv(h: History, p: Packet)
    requires Inv(h) && !h.stream.closed && Acceptable(h.stream, p)
    ensures Inv(h.(stream := Append(h.stream, p), accepted := h.accepted + [p]))
  {}

  lemma {:induction false} AppendAllKeepsInv(h: History, ps: seq<Packet>)
    requires Inv(h) && !h.stream.closed && AppendAll(h.stream, ps).ok
    ensures Inv(h.(stream := AppendAll(h.stream, ps).stream, accepted := h.accepted + ps))
    ensures !AppendAll(h.stream, ps).stream.closed
    decreases |ps|
  {
    if ps == [] {
      assert h.accepted + ps == h.accepted;
    } else {
      var n := |ps| - 1;
      AppendAllKeepsInv(h, ps[..n]);
      AppendKeepsInv(h.(stream := AppendAll(h.stream, ps[..n]).stream, accepted := h.accepted + ps[..n]), ps[n]);
      assert h.accepted + ps[..n] + [ps[n]] == h.accepted + ps;
    }
  }

  /** Where the queue splits at `t`: everything before position `n` is no later, everything from it is. */
  ghost predicate SplitsAt(q: seq<Packet>, t: Timestamp, n: nat) {
    && n <= |q|
    && (forall i :: 0 <= i < n ==> q[i].timestamp <= t)
    && (forall i :: n <= i < |q| ==> t < q[i].timestamp)
  }

  /** Reading at `t` returns the packet at `t` if it is queued, leaves exactly the later packets in
      order, and counts exactly the earlier ones as dropped. */
  lemma {:induction false} PopIsExact(s: Stream, t: Timestamp, n: nat)
    requires Increasing(s.queue) && t != UNSET && SplitsAt(s.queue, t, n)
    ensures var r := PopPacketAtTimestamp(s, t);
            && r.stream.queue == s.queue[n..]
            && (if Found(s, t) then n > 0 && r.packet == s.queue[n - 1] && r.packet.timestamp == t && r.dropped == n - 1
                else r.packet.content == None && r.dropped == n)
  {
    SplitIsUnique(s.queue, t, n);
    if n > 0 && s.queue[n - 1].timestamp == t { assert Found(s, t); }
    if Found(s, t) {
      var i :| 0 <= i < |s.queue| && s.queue[i].timestamp == t;
      assert i == n - 1;
    }
  }

  lemma {:induction false} SplitIsUnique(q: seq<Packet>, t: Timestamp, n: nat)
    requires SplitsAt(q, t, n)
    ensures LeadingUpTo(q, t) == n
  {
    var k := LeadingUpTo(q, t);
    var atK, atN := if k < |q| then q[k].timestamp else t, if n < |q| then q[n].timestamp else t;
    assert n > 0 ==> q[n - 1].timestamp <= t;
  }

  lemma {:induction false} LeadingSplits(q: seq<Packet>, t: Timestamp)
    requires Increasing(q)
    ensures SplitsAt(q, t, LeadingUpTo(q, t))
  {
    var k := LeadingUpTo(q, t);
    forall i | k <= i < |q| ensures t < q[i].timestamp {
      assert q[k].timestamp <= q[i].timestamp;
    }
  }

  lemma {:induction false} QueueIsIncreasing(h: History)
    requires Inv(h)
    ensures Increasing(h.stream.queue)
  {
  }

  lemma {:induction false} DroppingFrontKeepsInv(h: History, h': History, n: nat)
    requires Inv(h) && n <= |h.stream.queue|
    requires h'.accepted == h.accepted && h'.stream.queue == h.stream.queue[n..] && h'.stream.added == h.stream.added
    requires h.stream.bound <= h'.stream.bound && (h.stream.closed ==> h'.stream.bound == DONE)
    requires h'.stream.closed == h.stream.closed && h'.returned + h'.skipped == h.returned + h.skipped + n
    ensures Inv(h')
  {}

  lemma {:induction false} SelectKeepsInv(h: History, t: Timestamp)
    requires Inv(h) && Enabled(h.stream, Select(t))
    ensures Inv(Apply(h, Select(t)))
  {
    var n := LeadingUpTo(h.stream.queue, t);
    QueueIsIncreasing(h);
    LeadingSplits(h.stream.queue, t);
    PopIsExact(h.stream, t, n);
    DroppingFrontKeepsInv(h, Apply(h, Select(t)), n);
  }

  lemma {:induction false} StepKeepsInv(h: History, op: Op)
    requires Inv(h) && Enabled(h.stream, op)
    ensures Inv(Apply(h, op))
  {
    match op
    case Add(ps) =>
      if !h.stream.closed {
        TakenPrefix(h.stream, ps);
        AppendAllKeepsInv(h, ps[..Taken(h.stream, ps)]);
      } else { assert h.accepted + [] == h.accepted; }
    case Select(t) => SelectKeepsInv(h, t);
    case _ =>
  }

  /** No step moves the earliest possible next packet back. */
  lemma {:induction false} StepNeverGoesBack(h: History, op: Op)
    requires Inv(h) && Enabled(h.stream, op)
    ensures MinTimestampOrBound(h.stream).time <= MinTimestampOrBound(Apply(h, op).stream).time
  {
    StepKeepsInv(h, op);
    match op
    case Add(ps) =>
      if !h.stream.closed {
        TakenPrefix(h.stream, ps);
        FirstAppended(h.stream, ps[..Taken(h.stream, ps)]);
      }
    case _ =>
  }

  lemma {:induction false} FirstAppended(s: Stream, ps: seq<Packet>)
    requires AppendAll(s, ps).ok
    ensures AppendAll(s, ps).stream.queue == s.queue + ps
    ensures ps != [] ==> s.bound <= ps[0].timestamp
    ensures ps == [] ==> AppendAll(s, ps).stream == s
    decreases |ps|
  {
    if ps != [] { FirstAppended(s, ps[..|ps| - 1]); }
  }

  // ---------- what a refused batch leaves unreported ----------

  /** `Taken` is where the batch first meets a packet that cannot be appended. */
  lemma {:induction false} TakenStopsAtRefused(s: Stream, ps: seq<Packet>)
    requires Taken(s, ps) < |ps|
    ensures AppendAll(s, ps[..Taken(s, ps)]).ok
    ensures !Acceptable(AppendAll(s, ps[..Taken(s, ps)]).stream, ps[Taken(s, ps)])
    decreases |ps|
  {
    var n, k := |ps| - 1, Taken(s, ps);
    TakenPrefix(s, ps);
    TakenPrefix(s, ps[..n]);
    if k < n {
      TakenStopsAtRefused(s, ps[..n]);
      assert ps[..n][..k] == ps[..k];
    }
  }

  lemma {:induction false} AppendKeepsMaximum(s: Stream, ps: seq<Packet>)
    ensures AppendAll(s, ps).stream.maxSize == s.maxSize && AppendAll(s, ps).stream.closed == s.closed
    decreases |ps|
  {
    if ps != [] {
      var p, before := ps[|ps| - 1], AppendAll(s, ps[..|ps| - 1]);
      AppendKeepsMaximum(s, ps[..|ps| - 1]);
      var after := if before.ok && Acceptable(before.stream, p) then Append(before.stream, p) else before.stream;
      assert AppendAll(s, ps).stream == after;
    }
  }

  /** What adding a batch leaves, accepted or not: its first `Taken` packets are in the queue. */
  lemma {:induction false} AddedQueue(s: Stream, ps: seq<Packet>)
    requires !s.closed
    ensures AddPackets(s, ps).stream.queue == s.queue + ps[..Taken(s, ps)]
    ensures AddPackets(s, ps).stream.maxSize == s.maxSize
    ensures AddPackets(s, ps).ok <==> Taken(s, ps) == |ps|
    ensures Taken(s, ps) == 0 ==> AddPackets(s, ps).stream == s
  {
    TakenPrefix(s, ps);
    FirstAppended(s, ps[..Taken(s, ps)]);
    AppendKeepsMaximum(s, ps);
  }

  /** The documentation promises a notification whenever adding packets makes the queue non-empty. The
      promise is broken exactly by a batch, added to an empty open stream, that is refused after some
      packets have been taken. */
  lemma {:induction false} NotificationIsLostIff(s: Stream, ps: seq<Packet>)
    ensures var u := AddPackets(s, ps);
            (s.queue == [] && u.stream.queue != [] && !u.notify)
            <==> (!s.closed && s.queue == [] && 0 < Taken(s, ps) < |ps|)
  {
    if !s.closed { AddedQueue(s, ps); }
  }

  /** Likewise the report that the queue became full is missing exactly if a batch is refused after the
      packets taken have filled a queue that was not full. */
  lemma {:induction false} FullReportIsLostIff(s: Stream, ps: seq<Packet>)
    ensures var u := AddPackets(s, ps);
            (!IsFull(s) && IsFull(u.stream) && !u.becameFull)
            <==> (!s.closed && !IsFull(s) && Taken(s, ps) < |ps| && 0 <= s.maxSize <= |s.queue| + Taken(s, ps))
  {
    if !s.closed { AddedQueue(s, ps); }
  }

  /** A batch that loses both: the second packet repeats the timestamp of the first, which fills the queue. */
  lemma {:induction false} RefusedBatchIsSilent() returns (s: Stream, ps: seq<Packet>)
    ensures s == Prepared(1, s.accepts) && |ps| == 2 && Taken(s, ps) == 1
    ensures var u := AddPackets(s, ps);
            !u.ok && u.stream.queue == [ps[0]] && IsFull(u.stream) && !u.notify && !u.becameFull
  {
    var p := Packet(0, Some(0));
    s, ps := Prepared(1, _ => true), [p, p];
    assert ps[..1] == [p] && [p][..0] == [];
    assert AppendAll(s, [p]) == Appended(Append(s, p), true) by { assert AppendAll(s, []) == Appended(s, true); }
    assert !Acceptable(Append(s, p), p);
    AddedQueue(s, ps);
  }

  function Run(h: History, ops: seq<Op>): History {
    if ops == [] then h else Apply(Run(h, ops[..|ops| - 1]), ops[|ops| - 1])
  }

  predicate Legal(h: History, ops: seq<Op>) {
    ops == [] || (Legal(h, ops[..|ops| - 1]) && Enabled(Run(h, ops[..|ops| - 1]).stream, ops[|ops| - 1]))
  }

  /** In every run of a freshly prepared stream, whatever producers send: the accepted packets are
      strictly increasing and a packet at PRE_STREAM or POST_STREAM is the only one; the queue is
      the unread end of them and lies below the bound; and no packet is lost uncounted. */
  lemma {:induction false} EveryRun(maxSize: int, accepts: Packet -> bool, ops: seq<Op>)
    requires Legal(History(Prepared(maxSize, accepts), [], 0, 0), ops)
    ensures Inv(Run(History(Prepared(maxSize, accepts), [], 0, 0), ops))
    decreases |ops|
  {
    if ops != [] {
      EveryRun(maxSize, accepts, ops[..|ops| - 1]);
      StepKeepsInv(Run(History(Prepared(maxSize, accepts), [], 0, 0), ops[..|ops| - 1]), ops[|ops| - 1]);
    }
  }
}
