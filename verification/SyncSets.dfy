/** The policy that decides when a timestamp is settled on a set of input streams. */
module SyncSets {
  import opened Timestamps
  import opened Options
  import opened Streams
  import opened InputStreams

  datatype Readiness = NotReady | ReadyForProcess(time: Timestamp) | ReadyForClose

  /** The two minima of one pass over the streams: of the bounds of the empty ones, and of the
      queue heads of the others. */
  datatype Minima = Minima(bound: Timestamp, packet: Timestamp)

  const NOTHING_READ := Minima(DONE, DONE)

  function Include(m: Minima, v: View): Minima {
    if v.empty then m.(bound := Least(m.bound, v.time)) else m.(packet := Least(m.packet, v.time))
  }

  function Summary(views: seq<View>): Minima {
    if views == [] then NOTHING_READ else Include(Summary(views[..|views| - 1]), views[|views| - 1])
  }

  /** The highest timestamp at which no packet can still arrive. POST_STREAM is treated apart
      because no bound has it as a predecessor. */
  function Settled(m: Minima): Timestamp {
    if m.packet == POST_STREAM && m.bound > m.packet then m.packet else PreviousAllowedInStream(m.bound)
  }

  function Decide(m: Minima, last: Timestamp, processBounds: bool): Readiness {
    if Least(m.packet, m.bound) >= ONE_OVER_POST_STREAM then ReadyForClose
    else if !processBounds then
      if m.bound > m.packet then ReadyForProcess(Least(m.packet, m.bound)) else NotReady
    else
      var time := Least(m.packet, Settled(m));
      if time > Greatest(last, UNSTARTED) then ReadyForProcess(time) else NotReady
  }

  function LastProcessed(r: Readiness, last: Timestamp): Timestamp {
    match r
    case NotReady => last
    case ReadyForProcess(t) => t
    case ReadyForClose => PreviousAllowedInStream(DONE)
  }

  /** A time chosen for processing may be carried by packets, is later than every processed one
      when bounds are processed, is not later than any packet seen, and is settled: every stream
      seen empty has a bound beyond it. */
  lemma {:induction false} DecisionIsSettled(m: Minima, last: Timestamp, processBounds: bool)
    requires Decide(m, last, processBounds).ReadyForProcess?
    requires m.packet == DONE || IsAllowedInStream(m.packet)
    ensures var t := Decide(m, last, processBounds).time;
            && IsAllowedInStream(t) && t <= m.packet && t < m.bound
            && (processBounds ==> t > last) && (!processBounds ==> t == m.packet)
  {}

  class SyncSet {
    const streams: seq<InputStreamManager>
    const processTimestamps: bool
    var lastProcessed: Timestamp

    ghost predicate Valid() {
      forall i, j :: 0 <= i < j < |streams| ==> streams[i] != streams[j]
    }

    ghost function Views(): (v: seq<View>)
      reads streams
      ensures |v| == |streams|
    {
      seq(|streams|, i requires 0 <= i < |streams| reads streams => MinTimestampOrBound(streams[i].Contents()))
    }

    constructor (streams: seq<InputStreamManager>, processTimestamps: bool)
      requires forall i, j :: 0 <= i < j < |streams| ==> streams[i] != streams[j]
      ensures Valid() && this.streams == streams && this.processTimestamps == processTimestamps
      ensures lastProcessed == UNSET
    {
      this.streams, this.processTimestamps := streams, processTimestamps;
      lastProcessed := UNSET;
    }

    method GetReadiness() returns (readiness: Readiness, minStreamTimestamp: Timestamp)
      modifies this`lastProcessed
      ensures readiness == Decide(Summary(Views()), old(lastProcessed), processTimestamps)
      ensures lastProcessed == LastProcessed(readiness, old(lastProcessed))
      ensures minStreamTimestamp == match readiness
                                    case NotReady => Least(Summary(Views()).packet, Summary(Views()).bound)
                                    case ReadyForProcess(t) => t
                                    case ReadyForClose => DONE
    {
      ghost var views := Views();
      var minBound, minPacket := DONE, DONE;
      var i := 0;
      while i < |streams|
        invariant i <= |streams|
        invariant Minima(minBound, minPacket) == Summary(views[..i])
      {
        var stream := streams[i];
        assert views[..i + 1] == views[..i] + [MinTimestampOrBound(stream.Contents())];
        if stream.queue == [] {
          minBound := Least(minBound, stream.nextTimestampBound);
        } else {
          minPacket := Least(minPacket, stream.queue[0].timestamp);
        }
        i := i + 1;
      }
      assert views[..i] == views;
      minStreamTimestamp := Least(minPacket, minBound);
      if minStreamTimestamp >= ONE_OVER_POST_STREAM {
        lastProcessed := PreviousAllowedInStream(DONE);
        return ReadyForClose, DONE;
      }
      if !processTimestamps {
        if minBound > minPacket {
          lastProcessed := minStreamTimestamp;
          return ReadyForProcess(minStreamTimestamp), minStreamTimestamp;
        }
      } else {
        var settled := if minPacket == POST_STREAM && minBound > minPacket then minPacket
                       else PreviousAllowedInStream(minBound);
        var inputTimestamp := Least(minPacket, settled);
        if inputTimestamp > Greatest(lastProcessed, UNSTARTED) {
          lastProcessed := inputTimestamp;
          return ReadyForProcess(inputTimestamp), inputTimestamp;
        }
      }
      return NotReady, minStreamTimestamp;
    }

    /** Pops every stream at the input time, which must not skip a packet anywhere. */
    method FillInputSet(inputTimestamp: Timestamp) returns (inputSet: seq<Packet>)
      requires Valid() && IsAllowedInStream(inputTimestamp)
      requires forall i :: 0 <= i < |streams| ==> UNSET < streams[i].lastSelectTimestamp <= inputTimestamp
      requires forall i :: 0 <= i < |streams| ==>
                 PopPacketAtTimestamp(streams[i].Contents(), inputTimestamp).dropped == 0
      modifies streams
      ensures |inputSet| == |streams|
      ensures forall i :: 0 <= i < |streams| ==>
                var r := PopPacketAtTimestamp(old(streams[i].Contents()), inputTimestamp);
                streams[i].Contents() == r.stream && inputSet[i] == r.packet
    {
      inputSet := [];
      var i := 0;
      while i < |streams|
        invariant i <= |streams| == |Views()| && |inputSet| == i
        invariant forall j :: i <= j < |streams| ==> streams[j].Contents() == old(streams[j].Contents())
        invariant forall j :: i <= j < |streams| ==>
                    streams[j].lastSelectTimestamp == old(streams[j].lastSelectTimestamp)
        invariant forall j :: 0 <= j < i ==>
                    var r := PopPacketAtTimestamp(old(streams[j].Contents()), inputTimestamp);
                    streams[j].Contents() == r.stream && inputSet[j] == r.packet
      {
        var packet, dropped, done, becameNotFull := streams[i].PopPacketAtTimestamp(inputTimestamp);
        assert dropped == 0;
        inputSet := inputSet + [packet];
        i := i + 1;
      }
    }
  }
}
