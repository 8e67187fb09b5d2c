/** What a calculator writes to one of its output streams, and the bound that its framework derives
    from it. Each function is one call on the shard or the manager of the stream. */
module OutputStreams {
  import opened Timestamps
  import opened Options
  import opened Streams

  /** One invocation's view of the stream. `updated` is the bound if the invocation has set it. */
  datatype Shard = Shard(queue: seq<Packet>, bound: Timestamp, updated: Timestamp, closed: bool)

  /** The offset between input and output timestamps that the calculator declared, if any. */
  datatype Spec = Spec(offsetEnabled: bool, offset: Timestamp)

  datatype Written = Written(shard: Shard, ok: bool)

  function Reset(bound: Timestamp, closed: bool): Shard {
    Shard([], bound, UNSET, closed)
  }

  function SetShardBound(s: Shard, b: Timestamp): Written {
    if !IsAllowedInStream(b) && b != ONE_OVER_POST_STREAM then Written(s, false)
    else Written(s.(bound := b, updated := b), true)
  }

  function CloseShard(s: Shard): Shard {
    s.(closed := true, bound := DONE, updated := DONE)
  }

  /** An empty packet only moves the bound. */
  function AddPacket(s: Shard, p: Packet, accepts: Packet -> bool): Written {
    if s.closed then Written(s, false)
    else if p.content.None? then SetShardBound(s, NextAllowedInStream(p.timestamp))
    else if !IsAllowedInStream(p.timestamp) || !accepts(p) then Written(s, false)
    else
      var b := NextAllowedInStream(p.timestamp);
      Written(s.(queue := s.queue + [p], bound := b, updated := b), true)
  }

  /** The bound that a declared offset derives from the input timestamp of a call; UNSET if none. */
  function InputBound(spec: Spec, input: Timestamp): Timestamp {
    if !spec.offsetEnabled || input == UNSTARTED then UNSET
    else if input == PRE_STREAM then MIN
    else if input == MAX then
      if spec.offset >= 0 then POST_STREAM else NextAllowedInStream(Plus(input, spec.offset))
    else if input == POST_STREAM then ONE_OVER_POST_STREAM
    else if IsRangeValue(input) then Plus(NextAllowedInStream(input), spec.offset)
    else UNSET
  }

  /** Where a calculator that keeps to its offset writes for an input; the special times are not moved. */
  function OutputTime(spec: Spec, t: Timestamp): Timestamp {
    if IsRangeValue(t) then Plus(t, spec.offset) else t
  }

  /** The earliest time at which an input may follow one at `t`. */
  function NextInput(t: Timestamp): Timestamp {
    if t == PRE_STREAM then MIN
    else if IsRangeValue(t) then (if t == MAX then POST_STREAM else t + 1)
    else ONE_OVER_POST_STREAM
  }

  lemma {:induction false} OutputTimeIsMonotone(spec: Spec, t: Timestamp, u: Timestamp)
    requires PRE_STREAM <= t <= u <= ONE_OVER_POST_STREAM
    ensures OutputTime(spec, t) <= OutputTime(spec, u)
  {}

  /** The bound derived from an offset never outruns a calculator that writes at input time plus offset,
      whatever its next input. It is the highest such bound except after MAX with a negative offset and
      after PRE_STREAM with a positive one. */
  lemma {:induction false} InputBoundNeverOutruns(spec: Spec, t: Timestamp, next: Timestamp)
    requires spec.offsetEnabled && IsAllowedInStream(t) && NextInput(t) <= next <= ONE_OVER_POST_STREAM
    ensures InputBound(spec, t) <= OutputTime(spec, next)
    ensures InputBound(spec, t) == OutputTime(spec, NextInput(t))
       <==> !(t == MAX && spec.offset < 0) && !(t == PRE_STREAM && spec.offset > 0)
  {
    OutputTimeIsMonotone(spec, NextInput(t), next);
  }

  /** What clamping breaks: once the packet for `t` is written, the packet for the next input may still
      be written exactly if the first was inside the range, not clamped to its ends. */
  lemma {:induction false} WritingOutrunsIffClamped(spec: Spec, t: Timestamp)
    requires IsRangeValue(t)
    ensures NextAllowedInStream(OutputTime(spec, t)) <= OutputTime(spec, NextInput(t))
       <==> MIN as int <= t as int + spec.offset as int < MAX as int
  {
    var w := OutputTime(spec, t);
    assert NextAllowedInStream(w) == if w == MAX then ONE_OVER_POST_STREAM else w + 1;
    assert w as int == Clamp(t as int + spec.offset as int);
    assert t < MAX ==> OutputTime(spec, NextInput(t)) as int == Clamp(t as int + 1 + spec.offset as int);
  }

  function ComputeOutputTimestampBound(spec: Spec, s: Shard, input: Timestamp): Timestamp {
    if input != UNSTARTED && !IsAllowedInStream(input) then UNSET else
    var fromInput := if InputBound(spec, input) > s.bound then InputBound(spec, input) else UNSET;
    var b := Greatest(fromInput, s.updated);
    if s.queue == [] then b else Greatest(b, NextAllowedInStream(s.queue[|s.queue| - 1].timestamp))
  }

  /** What one mirror gets from one propagation: the packets, and the bound unless the last packet
      implies it. */
  function SendsBound(packets: seq<Packet>, b: Timestamp): bool {
    b != UNSET && (packets == [] || NextAllowedInStream(packets[|packets| - 1].timestamp) != b)
  }

  function AfterPackets(m: Stream, packets: seq<Packet>): Update {
    if packets == [] then Update(m, true, false, false, false) else AddPackets(m, packets)
  }

  function AfterBound(m: Stream, packets: seq<Packet>, b: Timestamp): Update {
    if SendsBound(packets, b) then SetNextTimestampBound(m, b) else Update(m, true, false, false, false)
  }

  /** A manager with the streams it feeds. */
  datatype Manager = Manager(bound: Timestamp, closed: bool, mirrors: seq<Stream>)

  function Propagated(m: Manager, packets: seq<Packet>, b: Timestamp): Manager {
    Manager(if b == UNSET then m.bound else b, m.closed,
            seq(|m.mirrors|, i requires 0 <= i < |m.mirrors| =>
                  AfterBound(AfterPackets(m.mirrors[i], packets).stream, packets, b).stream))
  }

  function Closed(m: Manager): Manager {
    if m.closed then m else
    Manager(DONE, true,
            seq(|m.mirrors|, i requires 0 <= i < |m.mirrors| => SetNextTimestampBound(m.mirrors[i], DONE).stream))
  }

  /** What a returned call of the calculator does to one of its output streams. */
  function AfterCall(spec: Spec, m: Manager, s: Shard, input: Timestamp): Manager {
    if m.closed then m else
    var sent := Propagated(m, s.queue, ComputeOutputTimestampBound(spec, s, input));
    if s.closed then Closed(sent) else sent
  }

  /** What a bound on the inputs does to it. */
  function AfterInputBound(spec: Spec, m: Manager, b: Timestamp): Manager {
    if IsRangeValue(b) && spec.offsetEnabled && !m.closed && Plus(b, spec.offset) > m.bound
    then Propagated(m, [], Plus(b, spec.offset)) else m
  }
}

/** The shard and manager objects of an output stream; the manager's mirrors are the input stream
    objects of its consumers. */
module OutputStreamObjects {
  import opened Timestamps
  import opened Options
  import opened Streams
  import opened InputStreams
  import O = OutputStreams

  class OutputStreamShard {
    var outputQueue: seq<Packet>
    var closed: bool
    var nextTimestampBound: Timestamp
    var updatedNextTimestampBound: Timestamp
    const packetType: Packet -> bool

    ghost function Contents(): O.Shard
      reads this
    {
      O.Shard(outputQueue, nextTimestampBound, updatedNextTimestampBound, closed)
    }

    constructor (packetType: Packet -> bool, bound: Timestamp, close: bool)
      ensures Contents() == O.Reset(bound, close) && this.packetType == packetType
    {
      outputQueue, nextTimestampBound, updatedNextTimestampBound, closed := [], bound, UNSET, close;
      this.packetType := packetType;
    }

    method Reset(bound: Timestamp, close: bool)
      modifies this
      ensures Contents() == O.Reset(bound, close)
    {
      outputQueue, nextTimestampBound, updatedNextTimestampBound, closed := [], bound, UNSET, close;
    }

    method SetNextTimestampBound(bound: Timestamp) returns (ok: bool)
      modifies this
      ensures O.Written(Contents(), ok) == O.SetShardBound(old(Contents()), bound)
    {
      if !IsAllowedInStream(bound) && bound != ONE_OVER_POST_STREAM { return false; }
      nextTimestampBound := bound;
      updatedNextTimestampBound := nextTimestampBound;
      ok := true;
    }

    method Close()
      modifies this
      ensures Contents() == O.CloseShard(old(Contents()))
    {
      closed := true;
      nextTimestampBound := DONE;
      updatedNextTimestampBound := nextTimestampBound;
    }

    method AddPacket(packet: Packet) returns (ok: bool)
      modifies this
      ensures O.Written(Contents(), ok) == O.AddPacket(old(Contents()), packet, packetType)
    {
      if closed { return false; }
      if packet.content.None? {
        ok := SetNextTimestampBound(NextAllowedInStream(packet.timestamp));
        return;
      }
      if !IsAllowedInStream(packet.timestamp) { return false; }
      if !packetType(packet) { return false; }
      outputQueue := outputQueue + [packet];
      nextTimestampBound := NextAllowedInStream(packet.timestamp);
      updatedNextTimestampBound := nextTimestampBound;
      ok := true;
    }
  }

  class OutputStreamManager {
    const spec: O.Spec
    const mirrors: seq<InputStreamManager>
    var nextTimestampBound: Timestamp
    var closed: bool

    ghost predicate Valid() {
      forall i, j :: 0 <= i < j < |mirrors| ==> mirrors[i] != mirrors[j]
    }

    ghost function Contents(): (m: O.Manager)
      reads this, mirrors
      ensures |m.mirrors| == |mirrors|
    {
      O.Manager(nextTimestampBound, closed,
                seq(|mirrors|, i requires 0 <= i < |mirrors| reads mirrors => mirrors[i].Contents()))
    }

    constructor (spec: O.Spec, mirrors: seq<InputStreamManager>)
      requires forall i, j :: 0 <= i < j < |mirrors| ==> mirrors[i] != mirrors[j]
      ensures Valid() && nextTimestampBound == PRE_STREAM && !closed && this.spec == spec && this.mirrors == mirrors
    {
      this.spec, this.mirrors := spec, mirrors;
      nextTimestampBound, closed := PRE_STREAM, false;
    }

    method ComputeOutputTimestampBound(shard: OutputStreamShard,
                                       inputTimestamp: Timestamp) returns (newBound: Timestamp)
      ensures newBound == O.ComputeOutputTimestampBound(spec, shard.Contents(), inputTimestamp)
    {
      if inputTimestamp != UNSTARTED && !IsAllowedInStream(inputTimestamp) { return UNSET; }
      var inputBound := UNSET;
      if spec.offsetEnabled && inputTimestamp != UNSTARTED {
        if inputTimestamp == PRE_STREAM {
          inputBound := MIN;
        } else if inputTimestamp == MAX {
          if spec.offset >= 0 {
            inputBound := POST_STREAM;
          } else {
            inputBound := NextAllowedInStream(Plus(inputTimestamp, spec.offset));
          }
        } else if inputTimestamp == POST_STREAM {
          inputBound := ONE_OVER_POST_STREAM;
        } else {
          inputBound := Plus(NextAllowedInStream(inputTimestamp), spec.offset);
        }
      }
      newBound := UNSET;
      if inputBound > shard.nextTimestampBound { newBound := Greatest(newBound, inputBound); }
      newBound := Greatest(newBound, shard.updatedNextTimestampBound);
      if shard.outputQueue != [] {
        newBound := Greatest(newBound, NextAllowedInStream(shard.outputQueue[|shard.outputQueue| - 1].timestamp));
      }
    }

    /** Every mirror gets the packets of the shard and then the bound. */
    method PropagateUpdatesToMirrors(bound: Timestamp, shard: OutputStreamShard)
      requires Valid()
      modifies this`nextTimestampBound, shard`outputQueue, mirrors
      ensures Contents() == O.Propagated(old(Contents()), old(shard.outputQueue), bound) && shard.outputQueue == []
    {
      if bound != UNSET { nextTimestampBound := bound; }
      var packets := shard.outputQueue;
      var addPackets := packets != [];
      var setBound := bound != UNSET && (!addPackets || NextAllowedInStream(packets[|packets| - 1].timestamp) != bound);
      var idx := 0;
      while idx < |mirrors|
        invariant idx <= |mirrors|
        invariant forall i :: idx <= i < |mirrors| ==> mirrors[i].Contents() == old(mirrors[i].Contents())
        invariant forall i :: 0 <= i < idx ==>
                    var sent := O.AfterPackets(old(mirrors[i].Contents()), packets).stream;
                    mirrors[i].Contents() == O.AfterBound(sent, packets, bound).stream
        modifies mirrors
      {
        PropagateTo(mirrors[idx], packets, addPackets, bound, setBound);
        idx := idx + 1;
      }
      shard.outputQueue := [];
    }

    method PropagateTo(mirror: InputStreamManager, packets: seq<Packet>, addPackets: bool, bound: Timestamp,
                       setBound: bool)
      requires addPackets == (packets != []) && setBound == O.SendsBound(packets, bound)
      modifies mirror
      ensures var sent := O.AfterPackets(old(mirror.Contents()), packets).stream;
              mirror.Contents() == O.AfterBound(sent, packets, bound).stream
    {
      if addPackets {
        var ok, notify, becameFull := mirror.AddPackets(packets);
      }
      if setBound {
        var ok, notify := mirror.SetNextTimestampBound(bound);
      }
    }

    /** Closes the stream once; its mirrors get the last bound. */
    method Close()
      requires Valid()
      modifies this`nextTimestampBound, this`closed, mirrors
      ensures Contents() == O.Closed(old(Contents()))
    {
      if closed { return; }
      closed := true;
      nextTimestampBound := DONE;
      var idx := 0;
      while idx < |mirrors|
        invariant idx <= |mirrors|
        invariant forall i :: idx <= i < |mirrors| ==> mirrors[i].Contents() == old(mirrors[i].Contents())
        invariant forall i :: 0 <= i < idx ==>
                    mirrors[i].Contents() == SetNextTimestampBound(old(mirrors[i].Contents()), DONE).stream
        modifies mirrors
      {
        var ok, notify := mirrors[idx].SetNextTimestampBound(DONE);
        idx := idx + 1;
      }
    }

    method ResetShard(shard: OutputStreamShard)
      modifies shard
      ensures shard.Contents() == O.Reset(nextTimestampBound, closed)
    {
      shard.Reset(nextTimestampBound, closed);
    }
  }

  /** All output streams of a sequential calculator. */
  class OutputStreamHandler {
    const managers: seq<OutputStreamManager>

    /** Streams do not share mirrors. */
    ghost predicate Valid() {
      && (forall i :: 0 <= i < |managers| ==> managers[i].Valid())
      && (forall i, j :: 0 <= i < j < |managers| ==> managers[i] != managers[j])
      && forall i, j, x ::
           0 <= i < |managers| && 0 <= j < |managers| && x in managers[i].mirrors && x in managers[j].mirrors ==> i == j
    }

    ghost predicate AllApart(shards: seq<OutputStreamShard>) {
      forall i, j :: 0 <= i < j < |shards| ==> shards[i] != shards[j]
    }

    ghost function Footprint(): set<object> {
      var own: set<object> := set i | 0 <= i < |managers| :: managers[i];
      var mirrors: set<object> := set i, x: InputStreamManager | 0 <= i < |managers| && x in managers[i].mirrors :: x;
      own + mirrors
    }

    constructor (managers: seq<OutputStreamManager>)
      ensures this.managers == managers
    {
      this.managers := managers;
    }

    method PropagateOutput(manager: OutputStreamManager, shard: OutputStreamShard, inputTimestamp: Timestamp)
      requires manager.Valid()
      modifies manager`nextTimestampBound, manager`closed, manager.mirrors, shard`outputQueue
      ensures manager.Contents()
           == O.AfterCall(manager.spec, old(manager.Contents()), old(shard.Contents()), inputTimestamp)
    {
      if manager.closed { return; }
      var bound := manager.ComputeOutputTimestampBound(shard, inputTimestamp);
      manager.PropagateUpdatesToMirrors(bound, shard);
      if shard.closed { manager.Close(); }
    }

    /** One round of the loop: the other streams are not touched. */
    method PropagateAt(id: nat, inputTimestamp: Timestamp, shards: seq<OutputStreamShard>)
      requires Valid() && id < |managers| == |shards| && AllApart(shards)
      modifies Footprint(), shards
      ensures managers[id].Contents()
           == O.AfterCall(managers[id].spec, old(managers[id].Contents()), old(shards[id].Contents()), inputTimestamp)
      ensures forall i :: 0 <= i < |managers| && i != id ==>
                managers[i].Contents() == old(managers[i].Contents())
                    && shards[i].Contents() == old(shards[i].Contents())
    {
      Within(id);
      PropagateOutput(managers[id], shards[id], inputTimestamp);
      forall i | 0 <= i < |managers| && i != id ensures managers[i].Contents() == old(managers[i].Contents()) {
        var other := managers[i];
        assert other != managers[id];
        forall k | 0 <= k < |other.mirrors| ensures other.mirrors[k].Contents() == old(other.mirrors[k].Contents()) {
          assert other.mirrors[k] in other.mirrors && other.mirrors[k] !in managers[id].mirrors;
        }
      }
    }

    lemma {:induction false} Within(i: nat)
      requires i < |managers|
      ensures managers[i] in Footprint() && forall x :: x in managers[i].mirrors ==> x in Footprint()
    {}

    method PropagateOutputPackets(inputTimestamp: Timestamp, shards: seq<OutputStreamShard>)
      requires Valid() && |shards| == |managers| && AllApart(shards)
      modifies Footprint(), shards
      ensures forall i :: 0 <= i < |managers| ==>
                managers[i].Contents()
                == O.AfterCall(managers[i].spec, old(managers[i].Contents()), old(shards[i].Contents()), inputTimestamp)
    {
      var id := 0;
      while id < |managers|
        invariant id <= |managers|
        invariant forall i :: id <= i < |managers| ==>
                    managers[i].Contents() == old(managers[i].Contents())
                        && shards[i].Contents() == old(shards[i].Contents())
        invariant forall i :: 0 <= i < id ==>
                    managers[i].Contents()
                    == O.AfterCall(managers[i].spec, old(managers[i].Contents()), old(shards[i].Contents()),
                                   inputTimestamp)
      {
        PropagateAt(id, inputTimestamp, shards);
        id := id + 1;
      }
    }

    /** The packets that stream `i` has still to propagate, if there are shards. */
    ghost function Written(shards: Option<seq<OutputStreamShard>>, i: nat): Option<seq<Packet>>
      requires i < |managers| && (shards.Some? ==> |shards.value| == |managers|)
      reads if shards.Some? then shards.value else []
    {
      if shards.Some? then Some(shards.value[i].outputQueue) else None
    }

    ghost function ClosedOutput(m: O.Manager, written: Option<seq<Packet>>): O.Manager {
      O.Closed(if written.Some? then O.Propagated(m, written.value, DONE) else m)
    }

    /** What closing the node does to one stream, with the shard of its last call if there is one. */
    method CloseOutput(manager: OutputStreamManager, shard: OutputStreamShard?)
      requires manager.Valid()
      modifies manager`nextTimestampBound, manager`closed, manager.mirrors, shard
      ensures manager.Contents()
           == ClosedOutput(old(manager.Contents()), if shard == null then None else Some(old(shard.outputQueue)))
    {
      if shard != null { manager.PropagateUpdatesToMirrors(DONE, shard); }
      manager.Close();
    }

    method CloseAt(id: nat, shards: Option<seq<OutputStreamShard>>)
      requires Valid() && id < |managers| && (shards.Some? ==> |shards.value| == |managers| && AllApart(shards.value))
      modifies Footprint(), if shards.Some? then shards.value else []
      ensures managers[id].Contents() == ClosedOutput(old(managers[id].Contents()), old(Written(shards, id)))
      ensures forall i :: 0 <= i < |managers| && i != id ==>
                managers[i].Contents() == old(managers[i].Contents()) && Written(shards, i) == old(Written(shards, i))
    {
      Within(id);
      CloseOutput(managers[id], if shards.Some? then shards.value[id] else null);
      forall i | 0 <= i < |managers| && i != id ensures managers[i].Contents() == old(managers[i].Contents()) {
        var other := managers[i];
        assert other != managers[id];
        forall k | 0 <= k < |other.mirrors| ensures other.mirrors[k].Contents() == old(other.mirrors[k].Contents()) {
          assert other.mirrors[k] in other.mirrors && other.mirrors[k] !in managers[id].mirrors;
        }
      }
    }

    /** Closing the node closes every stream, once what its last call wrote has reached the mirrors. */
    method Close(shards: Option<seq<OutputStreamShard>>)
      requires Valid() && (shards.Some? ==> |shards.value| == |managers| && AllApart(shards.value))
      modifies Footprint(), if shards.Some? then shards.value else []
      ensures forall i :: 0 <= i < |managers| ==>
                managers[i].Contents() == ClosedOutput(old(managers[i].Contents()), old(Written(shards, i)))
    {
      var id := 0;
      while id < |managers|
        invariant id <= |managers|
        invariant forall i :: id <= i < |managers| ==>
                    && managers[i].Contents() == old(managers[i].Contents())
                    && Written(shards, i) == old(Written(shards, i))
        invariant forall i :: 0 <= i < id ==>
                    managers[i].Contents() == ClosedOutput(old(managers[i].Contents()), old(Written(shards, i)))
      {
        CloseAt(id, shards);
        id := id + 1;
      }
    }

    method RaiseOutput(manager: OutputStreamManager, inputBound: Timestamp)
      requires manager.Valid()
      modifies manager`nextTimestampBound, manager.mirrors
      ensures manager.Contents() == O.AfterInputBound(manager.spec, old(manager.Contents()), inputBound)
    {
      if !IsRangeValue(inputBound) { return; }
      if manager.spec.offsetEnabled && !manager.closed
          && Plus(inputBound, manager.spec.offset) > manager.nextTimestampBound {
        var emptyOutput := new OutputStreamShard(_ => false, UNSET, false);
        manager.PropagateUpdatesToMirrors(Plus(inputBound, manager.spec.offset), emptyOutput);
      }
    }

    method RaiseAt(id: nat, inputBound: Timestamp)
      requires Valid() && id < |managers|
      modifies Footprint()
      ensures managers[id].Contents() == O.AfterInputBound(managers[id].spec, old(managers[id].Contents()), inputBound)
      ensures forall i :: 0 <= i < |managers| && i != id ==> managers[i].Contents() == old(managers[i].Contents())
    {
      Within(id);
      RaiseOutput(managers[id], inputBound);
      forall i | 0 <= i < |managers| && i != id ensures managers[i].Contents() == old(managers[i].Contents()) {
        var other := managers[i];
        assert other != managers[id];
        forall k | 0 <= k < |other.mirrors| ensures other.mirrors[k].Contents() == old(other.mirrors[k].Contents()) {
          assert other.mirrors[k] in other.mirrors && other.mirrors[k] !in managers[id].mirrors;
        }
      }
    }

    method TryPropagateTimestampBound(inputBound: Timestamp)
      requires Valid()
      modifies Footprint()
      ensures forall i :: 0 <= i < |managers| ==>
                managers[i].Contents() == O.AfterInputBound(managers[i].spec, old(managers[i].Contents()), inputBound)
    {
      var id := 0;
      while id < |managers|
        invariant id <= |managers|
        invariant forall i :: id <= i < |managers| ==> managers[i].Contents() == old(managers[i].Contents())
        invariant forall i :: 0 <= i < id ==>
                    managers[i].Contents()
                    == O.AfterInputBound(managers[i].spec, old(managers[i].Contents()), inputBound)
      {
        RaiseAt(id, inputBound);
        id := id + 1;
      }
    }
  }
}
