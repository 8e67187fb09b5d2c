/** The input stream object. Every method is one critical section and is proved to do what the
    function of the same name in `Streams` does to the stream's contents. */
module InputStreams {
  import opened Timestamps
  import opened Options
  import S = Streams

  class InputStreamManager {
    var queue: seq<S.Packet>
    var numPacketsAdded: nat
    var nextTimestampBound: Timestamp
    var lastSelectTimestamp: Timestamp
    var closed: bool
    var maxQueueSize: int
    const packetType: S.Packet -> bool

    ghost function Contents(): S.Stream
      reads this
    {
      S.Stream(queue, numPacketsAdded, nextTimestampBound, lastSelectTimestamp, closed, maxQueueSize, packetType)
    }

    constructor (packetType: S.Packet -> bool)
      ensures Contents() == S.Prepared(-1, packetType)
    {
      queue, numPacketsAdded, closed, maxQueueSize := [], 0, false, -1;
      nextTimestampBound, lastSelectTimestamp := PRE_STREAM, UNSTARTED;
      this.packetType := packetType;
    }

    method PrepareForRun()
      modifies this
      ensures Contents() == S.Prepared(old(maxQueueSize), packetType)
    {
      queue, numPacketsAdded, closed := [], 0, false;
      nextTimestampBound, lastSelectTimestamp := PRE_STREAM, UNSTARTED;
    }

    method AddPackets(container: seq<S.Packet>) returns (ok: bool, notify: bool, becameFull: bool)
      modifies this
      ensures var u := S.AddPackets(old(Contents()), container);
              Contents() == u.stream && ok == u.ok && notify == u.notify && becameFull == u.becameFull
    {
      if closed { return true, false, false; }
      var wasFull := 0 <= maxQueueSize <= |queue|;
      notify := queue == [] && container != [];
      var i := 0;
      while i < |container|
        invariant i <= |container|
        invariant S.AppendAll(old(Contents()), container[..i]) == S.Appended(Contents(), true)
      {
        var p := container[i];
        if !packetType(p) || !IsAllowedInStream(p.timestamp)
           || (p.timestamp == POST_STREAM && numPacketsAdded > 0) || p.timestamp < nextTimestampBound {
          S.RejectedPrefix(old(Contents()), container, i);
          return false, false, false;
        }
        S.AcceptedNext(old(Contents()), container, i);
        nextTimestampBound := NextAllowedInStream(p.timestamp);
        numPacketsAdded := numPacketsAdded + 1;
        queue := queue + [p];
        i := i + 1;
      }
      assert container[..i] == container;
      return true, notify, !wasFull && 0 <= maxQueueSize <= |queue|;
    }

    method SetNextTimestampBound(bound: Timestamp) returns (ok: bool, notify: bool)
      modifies this
      ensures var u := S.SetNextTimestampBound(old(Contents()), bound);
              Contents() == u.stream && ok == u.ok && notify == u.notify
    {
      if closed { return true, false; }
      if bound < nextTimestampBound { return false, false; }
      notify := false;
      if bound > nextTimestampBound {
        nextTimestampBound := bound;
        notify := queue == [];
      }
      ok := true;
    }

    method Close()
      modifies this
      ensures Contents() == S.Close(old(Contents()))
    {
      if closed { return; }
      nextTimestampBound := DONE;
      lastSelectTimestamp := DONE;
      closed := true;
    }

    /** The loop of `PopPacketAtTimestamp`: takes the leading packets up to `timestamp`, keeping the last. */
    method TakeLeading(timestamp: Timestamp) returns (packet: S.Packet, taken: nat)
      modifies this`queue
      ensures taken == S.LeadingUpTo(old(queue), timestamp) && queue == old(queue)[taken..]
      ensures packet == S.LastOf(old(queue)[..taken])
    {
      taken := 0;
      packet := S.Packet(UNSET, None);
      while queue != [] && queue[0].timestamp <= timestamp
        invariant taken <= |old(queue)| && queue == old(queue)[taken..]
        invariant S.LeadingUpTo(old(queue), timestamp) == taken + S.LeadingUpTo(queue, timestamp)
        invariant packet == S.LastOf(old(queue)[..taken])
        decreases |queue|
      {
        assert old(queue)[..taken + 1] == old(queue)[..taken] + [queue[0]];
        packet := queue[0];
        queue := queue[1..];
        taken := taken + 1;
      }
    }

    /** The caller must not go back in time; a prepared stream was last read at UNSTARTED. */
    method PopPacketAtTimestamp(timestamp: Timestamp)
      returns (packet: S.Packet, numPacketsDropped: int, streamIsDone: bool, becameNotFull: bool)
      requires UNSET < lastSelectTimestamp <= timestamp
      modifies this
      ensures S.Popped(Contents(), packet, numPacketsDropped, streamIsDone, becameNotFull)
              == S.PopPacketAtTimestamp(old(Contents()), timestamp)
    {
      ghost var r := S.PopPacketAtTimestamp(Contents(), timestamp);
      lastSelectTimestamp := timestamp;
      if nextTimestampBound <= timestamp {
        nextTimestampBound := NextAllowedInStream(timestamp);
      }
      var wasFull := 0 <= maxQueueSize <= |queue|;
      var taken: int;
      packet, taken := TakeLeading(timestamp);
      numPacketsDropped := taken - 1;
      assert Contents() == r.stream && packet == S.LastOf(old(queue)[..taken]);
      if packet.timestamp != timestamp {
        var earliest := if queue == [] then nextTimestampBound else queue[0].timestamp;
        packet := S.Packet(PreviousAllowedInStream(earliest), None);
        numPacketsDropped := numPacketsDropped + 1;
      }
      assert packet == r.packet;
      assert numPacketsDropped == r.dropped;
      becameNotFull := wasFull && |queue| < maxQueueSize;
      streamIsDone := queue == [] && nextTimestampBound == DONE;
    }

    method SetMaxQueueSize(maxSize: int) returns (becameFull: bool, becameNotFull: bool)
      modifies this
      ensures var u := S.SetMaxQueueSize(old(Contents()), maxSize);
              Contents() == u.stream && becameFull == u.becameFull && becameNotFull == u.becameNotFull
    {
      var wasFull := 0 <= maxQueueSize <= |queue|;
      maxQueueSize := maxSize;
      var isFull := 0 <= maxQueueSize <= |queue|;
      becameFull, becameNotFull := !wasFull && isFull, wasFull && !isFull;
    }
  }
}
