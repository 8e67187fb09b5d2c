/** The part of the calculator graph that throttles packet sources, as an object. Its methods are
    proved to do what the functions of `Throttling` say. */
module ThrottlingObjects {
  import opened Streams
  import T = Throttling

  class Throttle {
    const config: T.Config
    var streams: seq<Stream>
    var streamWasFull: seq<bool>
    var fullInputStreams: seq<set<nat>>
    var throttledGraphInputStreamCount: int
    ghost var owed: seq<nat>

    ghost function Contents(): T.State
      reads this
    {
      T.State(streams, streamWasFull, owed, T.Table(fullInputStreams, throttledGraphInputStreamCount))
    }

    constructor (config: T.Config, streams: seq<Stream>)
      requires T.WellFormed(config) && |streams| == |config.upstream|
      requires forall i :: 0 <= i < |streams| ==> streams[i].queue == [] && streams[i].maxSize != 0
      ensures this.config == config && this.streams == streams && T.Init(config, Contents())
    {
      this.config, this.streams := config, streams;
      streamWasFull := seq(|streams|, _ => false);
      owed := seq(|streams|, _ => 0);
      fullInputStreams := seq(config.nodes, _ => {});
      throttledGraphInputStreamCount := 0;
    }

    ghost function Table(): T.Table
      reads this
    {
      T.Table(fullInputStreams, throttledGraphInputStreamCount)
    }

    method MarkNode(n: nat, i: nat, streamIsFull: bool) returns (isThrottled: bool)
      requires n < |fullInputStreams|
      modifies this`fullInputStreams, this`throttledGraphInputStreamCount
      ensures Table() == T.Mark(config.calculators, old(Table()), n, i, streamIsFull)
      ensures isThrottled == (fullInputStreams[n] != {}) && (streamIsFull ==> isThrottled)
    {
      var wasThrottled := fullInputStreams[n] != {};
      var streams := if streamIsFull then fullInputStreams[n] + {i} else fullInputStreams[n] - {i};
      assert streamIsFull ==> i in streams;
      fullInputStreams := fullInputStreams[n := streams];
      isThrottled := streams != {};
      if n >= config.calculators {
        if !isThrottled {
          throttledGraphInputStreamCount := throttledGraphInputStreamCount - 1;
        } else if !wasThrottled {
          throttledGraphInputStreamCount := throttledGraphInputStreamCount + 1;
        }
      }
    }

    /** An active calculator that no full stream throttles. */
    ghost predicate IsFree(n: nat, active: seq<bool>)
      requires |active| == config.calculators <= |fullInputStreams|
      reads this
    {
      n < config.calculators && active[n] && fullInputStreams[n] == {}
    }

    /** The callback of stream `i`. Every calculator that no full stream throttles any more and that is
        active is returned, to be proposed to its scheduler queue. */
    method UpdateThrottledNodes(i: nat, active: seq<bool>) returns (nodesToSchedule: seq<nat>)
      requires T.Shaped(config, Contents()) && i < |streams| && |active| == config.calculators
      modifies this`streamWasFull, this`fullInputStreams, this`throttledGraphInputStreamCount
      ensures Contents() == T.Called(config, old(Contents()), i)
      ensures forall n :: n in nodesToSchedule <==>
                old(streamWasFull)[i] && !IsFull(streams[i]) && n in config.upstream[i] && IsFree(n, active)
    {
      nodesToSchedule := [];
      var streamIsFull := IsFull(streams[i]);
      if streamWasFull[i] != streamIsFull {
        var upstream := config.upstream[i];
        assert T.Enumerates(upstream, config.nodes);
        var k := 0;
        ghost var before := Table();
        while k < |upstream|
          invariant k <= |upstream| && |fullInputStreams| == config.nodes && streamWasFull == old(streamWasFull)
          invariant Table() == T.MarkAll(config.calculators, before, upstream[..k], i, streamIsFull)
          invariant forall n :: n in nodesToSchedule <==> !streamIsFull && n in upstream[..k] && IsFree(n, active)
        {
          var n := upstream[k];
          assert upstream[..k + 1][..k] == upstream[..k] && n !in upstream[..k];
          var isThrottled := MarkNode(n, i, streamIsFull);
          if n < config.calculators && !isThrottled && active[n] { nodesToSchedule := nodesToSchedule + [n]; }
          k := k + 1;
        }
        assert upstream[..k] == upstream;
      }
      assert streamWasFull[i] == streamIsFull ==> streamWasFull[i := streamIsFull] == streamWasFull;
      streamWasFull := streamWasFull[i := streamIsFull];
    }

    /** Raises the maximum of stream `i` above its size; the callback follows if it was full. */
    method Relieve(i: nat, active: seq<bool>)
      requires T.Shaped(config, Contents()) && i < |streams| && |active| == config.calculators
      modifies this`streams, this`streamWasFull, this`fullInputStreams, this`throttledGraphInputStreamCount
      ensures Contents() == T.Relieved(config, old(Contents()), i)
    {
      var newSize := |streams[i].queue| + 1;
      var wasFull := IsFull(streams[i]);
      streams := streams[i := streams[i].(maxSize := newSize)];
      if wasFull { var scheduled := UpdateThrottledNodes(i, active); }
    }

    /** The streams other than graph outputs that throttle some source. */
    method FullStreams(outputs: set<nat>) returns (found: set<nat>)
      ensures forall i: nat :: i in found <==>
                i !in outputs && exists n :: 0 <= n < |fullInputStreams| && i in fullInputStreams[n]
    {
      found := {};
      var n := 0;
      while n < |fullInputStreams|
        invariant n <= |fullInputStreams|
        invariant forall i: nat :: i in found <==>
                    i !in outputs && exists m :: 0 <= m < n && i in fullInputStreams[m]
      {
        found := found + (fullInputStreams[n] - outputs);
        n := n + 1;
      }
    }

    /** The elements of a hash set in some order. */
    method InSomeOrder(found: set<nat>) returns (list: seq<nat>)
      ensures forall i :: i in list <==> i in found
      ensures forall k, l :: 0 <= k < l < |list| ==> list[k] != list[l]
    {
      list := [];
      var left := found;
      while left != {}
        invariant forall i :: i in found <==> i in left || i in list
        invariant forall i :: i in list ==> i !in left
        invariant forall k, l :: 0 <= k < l < |list| ==> list[k] != list[l]
        decreases |left|
      {
        var i :| i in left;
        left := left - {i};
        list := list + [i];
      }
    }

    method IsNodeThrottled(n: nat) returns (throttled: bool)
      requires n < |fullInputStreams|
      ensures throttled == T.IsNodeThrottled(config, Table(), n)
    {
      throttled := config.maxQueueSize != -1 && fullInputStreams[n] != {};
    }

    /** Lets the chosen full streams grow, each followed by its callback; or only reports them. */
    method UnthrottleSources(outputs: set<nat>, reportDeadlock: bool, active: seq<bool>)
      returns (didUnthrottle: bool, errors: nat, fullStreams: seq<nat>)
      requires T.Inv(config, Contents()) && |active| == config.calculators
      modifies this`streams, this`streamWasFull, this`fullInputStreams, this`throttledGraphInputStreamCount
      ensures T.Chosen(old(Contents()), outputs, fullStreams) && didUnthrottle == (fullStreams != [])
      ensures reportDeadlock ==> Contents() == old(Contents()) && errors == |fullStreams|
      ensures !reportDeadlock ==> Contents() == T.RelievedAll(config, old(Contents()), fullStreams) && errors == 0
    {
      var found := FullStreams(outputs);
      fullStreams := InSomeOrder(found);
      ghost var before := Contents();
      ThrottlingStreamsExist(before, fullStreams);
      errors := 0;
      var k := 0;
      while k < |fullStreams|
        invariant k <= |fullStreams|
        invariant errors == if reportDeadlock then k else 0
        invariant Contents() == if reportDeadlock then before else T.RelievedAll(config, before, fullStreams[..k])
      {
        if reportDeadlock {
          errors := errors + 1;
        } else {
          assert fullStreams[..k + 1][..k] == fullStreams[..k];
          Relieve(fullStreams[k], active);
        }
        k := k + 1;
      }
      assert fullStreams[..k] == fullStreams;
      return fullStreams != [], errors, fullStreams;
    }

    lemma {:induction false} ThrottlingStreamsExist(s: T.State, list: seq<nat>)
      requires T.Inv(config, s)
      requires forall i: nat :: i in list ==> exists n :: 0 <= n < |s.table.full| && i in s.table.full[n]
      ensures forall k :: 0 <= k < |list| ==> list[k] < |s.streams|
    {
      forall k | 0 <= k < |list| ensures list[k] < |s.streams| {
        assert list[k] in list;
        var n :| 0 <= n < |s.table.full| && list[k] in s.table.full[n];
      }
    }
  }
}
