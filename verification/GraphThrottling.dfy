/** Throttling in an analysed graph: which sources a full stream throttles is the source dependence that
    the static analysis has computed for the stream's producer. */
module GraphThrottling {
  import opened Streams
  import opened GraphConfigs
  import T = Throttling

  /** The elements of a set below `n`, in ascending order. */
  function Ascending(s: set<nat>, n: nat): (r: seq<nat>)
    ensures forall x :: x in r <==> x in s && x < n
  {
    if n == 0 then [] else Ascending(s, n - 1) + if n - 1 in s then [n - 1] else []
  }

  lemma {:induction false} AscendingEnumerates(s: set<nat>, n: nat)
    ensures T.Enumerates(Ascending(s, n), n)
  {
    if n > 0 { AscendingEnumerates(s, n - 1); }
  }

  /** What a callback looks up for a stream that reads output edge `u`: a graph input throttles itself,
      a calculator's stream the sources the calculator depends on. */
  function UpstreamOf(a: Analysis, u: nat): set<nat>
    requires Wired(a) && u < |a.outs|
  {
    var p := a.outs[u].parent;
    if p >= |a.graph.nodes| then {p} else AncestorSources(a, |a.graph.nodes|)[p]
  }

  function NodeCount(a: Analysis): nat {
    |a.graph.nodes| + |a.graph.inputs|
  }

  predicate ReadsOutputs(a: Analysis, taps: seq<nat>) {
    forall i :: 0 <= i < |taps| ==> taps[i] < |a.outs|
  }

  /** The throttling of a graph whose input stream `i` reads output edge `taps[i]`. */
  function ThrottleConfig(a: Analysis, taps: seq<nat>, maxQueueSize: int): T.Config
    requires Wired(a) && ReadsOutputs(a, taps)
  {
    T.Config(|a.graph.nodes|, NodeCount(a),
             seq(|taps|, i requires 0 <= i < |taps| => Ascending(UpstreamOf(a, taps[i]), NodeCount(a))), maxQueueSize)
  }

  /** Node `s` supplies output edge `u`: it is the graph input itself, or a source or graph input on
      which the calculator that writes it depends. */
  ghost predicate Supplies(a: Analysis, s: nat, u: nat)
    requires Wired(a) && u < |a.outs|
  {
    var p := a.outs[u].parent;
    if p >= |a.graph.nodes| then s == p else DependsOn(a, p, s)
  }

  lemma {:induction false} ParentsExist(a: Analysis, u: nat)
    requires Finished(a) && u < |a.outs|
    ensures a.outs[u].parent < NodeCount(a)
  {
    assert a.outs[u] in AllOuts(a.graph);
    OutsMembers(a.graph, |a.graph.nodes|, a.outs[u]);
  }

  lemma {:induction false} SourcesExist(a: Analysis, v: nat, s: nat)
    requires Finished(a) && Wired(a) && v < |a.graph.nodes| && DependsOn(a, v, s)
    ensures s < NodeCount(a)
  {
    var p :| RisingPath(a, p) && p[0] == s && p[|p| - 1] == v;
    if |p| > 1 {
      assert Feeds(a, p[0], p[1]);
      var j :| 0 <= j < |a.graph.nodes[p[1]].inputs| && Feeder(a, p[1], j) == s;
      assert WiredAt(a, p[1], j);
      ParentsExist(a, EdgeOf(a, p[1], j).upstream);
    }
  }

  lemma {:induction false} UpstreamIsSupply(a: Analysis, taps: seq<nat>, maxQueueSize: int, i: nat, s: nat)
    requires Finished(a) && Wired(a) && ReadsOutputs(a, taps) && i < |taps|
    ensures s in ThrottleConfig(a, taps, maxQueueSize).upstream[i] <==> Supplies(a, s, taps[i])
  {
    var p := a.outs[taps[i]].parent;
    ParentsExist(a, taps[i]);
    if p < |a.graph.nodes| {
      AncestorSourcesAreExact(a, p, s);
      if DependsOn(a, p, s) { SourcesExist(a, p, s); }
    }
  }

  lemma {:induction false} ConfigIsWellFormed(a: Analysis, taps: seq<nat>, maxQueueSize: int)
    requires Wired(a) && ReadsOutputs(a, taps)
    ensures T.WellFormed(ThrottleConfig(a, taps, maxQueueSize))
  {
    forall i | 0 <= i < |taps|
      ensures T.Enumerates(ThrottleConfig(a, taps, maxQueueSize).upstream[i], NodeCount(a))
    {
      AscendingEnumerates(UpstreamOf(a, taps[i]), NodeCount(a));
    }
  }

  ghost predicate SuppliesFullStream(a: Analysis, taps: seq<nat>, streams: seq<Stream>, s: nat)
    requires Wired(a) && ReadsOutputs(a, taps) && |streams| == |taps|
  {
    exists i :: 0 <= i < |taps| && IsFull(streams[i]) && Supplies(a, s, taps[i])
  }

  /** In every run of an analysed graph: stream `i` stands in the set of node `s` exactly if it was last
      seen full and `s` supplies it; and once no callback is owed, a node is throttled exactly if the
      graph limits its queues and the node supplies a full stream. */
  lemma {:induction false} ThrottlingFollowsDependence(a: Analysis, taps: seq<nat>, maxQueueSize: int,
      states: seq<T.State>, steps: seq<T.Step>, k: nat, s: nat, i: nat)
    requires Finished(a) && Wired(a) && ReadsOutputs(a, taps)
    requires T.IsRun(ThrottleConfig(a, taps, maxQueueSize), states, steps) && k < |states|
    requires s < NodeCount(a) && i < |taps|
    ensures T.Shaped(ThrottleConfig(a, taps, maxQueueSize), states[k])
    ensures i in states[k].table.full[s] <==> states[k].reported[i] && Supplies(a, s, taps[i])
    ensures T.Settled(states[k]) ==>
              (T.IsNodeThrottled(ThrottleConfig(a, taps, maxQueueSize), states[k].table, s)
               <==> maxQueueSize != -1 && SuppliesFullStream(a, taps, states[k].streams, s))
  {
    var c := ThrottleConfig(a, taps, maxQueueSize);
    T.ThrottlingIsExact(c, states, steps, k, s, i);
    UpstreamIsSupply(a, taps, maxQueueSize, i, s);
    if T.Settled(states[k]) {
      T.SettledThrottling(c, states, steps, k, s);
      forall j: nat | j < |taps| ensures s in c.upstream[j] <==> Supplies(a, s, taps[j]) {
        UpstreamIsSupply(a, taps, maxQueueSize, j, s);
      }
    }
  }
}
