/** The validated graph configuration as an object whose passes append to its vectors and map. */
module GraphConfigObjects {
  import opened Options
  import opened GraphConfigs

  /** The map from stream names to producers agrees with the output edges. */
  ghost predicate Indexes(producers: map<nat, nat>, outs: seq<OutputEdge>) {
    forall name :: if name in producers then producers[name] == Find(outs, name) else Find(outs, name) == -1
  }

  lemma {:induction false} FindInLonger(outs: seq<OutputEdge>, e: OutputEdge, name: nat)
    ensures Find(outs + [e], name)
         == if Find(outs, name) >= 0 then Find(outs, name) else if e.name == name then |outs| else -1
  {
    assert (outs + [e])[..|outs|] == outs;
  }

  lemma {:induction false} AddingIndexes(producers: map<nat, nat>, outs: seq<OutputEdge>, e: OutputEdge)
    requires Indexes(producers, outs) && e.name !in producers
    ensures Indexes(producers[e.name := |outs|], outs + [e])
  {
    forall name: nat
      ensures var m, found := producers[e.name := |outs|], Find(outs + [e], name);
              if name in m then m[name] == found else found == -1
    {
      FindInLonger(outs, e, name);
    }
  }

  lemma {:induction false} AddingStaysDistinct(outs: seq<OutputEdge>, e: OutputEdge)
    requires Distinct(outs)
    ensures Distinct(outs + [e]) <==> Find(outs, e.name) == -1
  {
    var more, r := outs + [e], Find(outs, e.name);
    if r >= 0 { assert more[r].name == more[|outs|].name; }
  }

  lemma {:induction false} PrefixIsDistinct(outs: seq<OutputEdge>, more: seq<OutputEdge>)
    requires outs <= more && Distinct(more)
    ensures Distinct(outs)
  {}

  class ValidatedGraphConfig {
    var graph: Graph
    var outputStreams: seq<OutputEdge>
    var inputStreams: seq<InputEdge>
    var streamToProducer: map<nat, nat>
    var ancestorSources: seq<set<nat>>

    constructor (graph: Graph)
      ensures this.graph == graph
    {
      this.graph := graph;
      outputStreams, inputStreams, streamToProducer, ancestorSources := [], [], map[], [];
    }

    method AddOutputStream(parent: nat, name: nat) returns (ok: bool)
      requires Indexes(streamToProducer, outputStreams) && Distinct(outputStreams)
      modifies this`outputStreams, this`streamToProducer
      ensures outputStreams == old(outputStreams) + [OutputEdge(name, parent)] && ok == Distinct(outputStreams)
      ensures ok ==> Indexes(streamToProducer, outputStreams)
    {
      AddingStaysDistinct(outputStreams, OutputEdge(name, parent));
      outputStreams := outputStreams + [OutputEdge(name, parent)];
      if name in streamToProducer { return false; }
      AddingIndexes(streamToProducer, old(outputStreams), OutputEdge(name, parent));
      streamToProducer := streamToProducer[name := |outputStreams| - 1];
      ok := true;
    }

    /** Adds the edges in order until one is defined twice. */
    method AddOutputStreams(edges: seq<OutputEdge>) returns (ok: bool)
      requires Indexes(streamToProducer, outputStreams) && Distinct(outputStreams)
      modifies this`outputStreams, this`streamToProducer
      ensures ok == Distinct(old(outputStreams) + edges)
      ensures ok ==> outputStreams == old(outputStreams) + edges && Indexes(streamToProducer, outputStreams)
    {
      var i := 0;
      while i < |edges|
        invariant i <= |edges| && outputStreams == old(outputStreams) + edges[..i]
        invariant Distinct(outputStreams) && Indexes(streamToProducer, outputStreams)
      {
        ok := AddOutputStream(edges[i].parent, edges[i].name);
        assert old(outputStreams) + edges[..i] + [edges[i]] == old(outputStreams) + edges[..i + 1];
        assert old(outputStreams) + edges[..i + 1] <= old(outputStreams) + edges;
        if !ok { return; }
        i := i + 1;
      }
      assert edges[..i] == edges;
      ok := true;
    }

    /** Fails if a stream that must be known is not, unless the nodes may still be sorted. */
    method AddInputStreamsForNode(k: nat, mayNeedSorting: bool) returns (ok: bool, needSorting: bool)
      requires k < |graph.nodes| && Indexes(streamToProducer, outputStreams)
      modifies this`inputStreams
      ensures var own := NodeIns(graph.nodes[k], k, outputStreams);
              && ok == (mayNeedSorting || NoneMissing(own))
              && (ok ==> inputStreams == old(inputStreams) + own && needSorting == !NoneMissing(own))
    {
      var node := graph.nodes[k];
      ghost var own := NodeIns(node, k, outputStreams);
      needSorting := false;
      var j := 0;
      while j < |node.inputs|
        invariant j <= |node.inputs| == |own| && inputStreams == old(inputStreams) + own[..j]
        invariant needSorting == !NoneMissing(own[..j]) && (!mayNeedSorting ==> NoneMissing(own[..j]))
      {
        var input := node.inputs[j];
        var upstream: int := -1;
        if input.name in streamToProducer {
          if !input.backEdge { upstream := streamToProducer[input.name]; }
        } else if !input.backEdge {
          assert Missing(own[j]);
          if mayNeedSorting {
            needSorting := true;
          } else {
            return false, false;
          }
        }
        inputStreams := inputStreams + [InputEdge(k, input.name, input.backEdge, upstream)];
        assert own[j] == InputEdge(k, input.name, input.backEdge, upstream);
        MissingInNext(own, j);
        j := j + 1;
      }
      assert own[..j] == own;
      ok := true;
    }

    lemma {:induction false} MissingInNext(own: seq<InputEdge>, j: nat)
      requires j < |own|
      ensures NoneMissing(own[..j + 1]) <==> NoneMissing(own[..j]) && !Missing(own[j])
    {
      assert forall i :: 0 <= i < j ==> own[..j + 1][i] == own[..j][i];
      assert own[..j + 1][j] == own[j];
    }

    /** The inputs of a node come before its outputs, so that reading its own stream is a back edge. */
    method AddNode(k: nat, mayNeedSorting: bool) returns (ok: bool, missing: bool)
      requires k < |graph.nodes| && outputStreams == Outs(graph, k) && inputStreams == Ins(graph, k)
      requires Distinct(outputStreams) && Indexes(streamToProducer, outputStreams)
      modifies this`outputStreams, this`inputStreams, this`streamToProducer
      ensures var own := NodeIns(graph.nodes[k], k, Outs(graph, k));
              && ok == (Distinct(Outs(graph, k + 1)) && (mayNeedSorting || NoneMissing(own)))
              && (ok ==> missing == !NoneMissing(own))
      ensures ok ==> outputStreams == Outs(graph, k + 1) && inputStreams == Ins(graph, k + 1)
      ensures ok ==> Indexes(streamToProducer, outputStreams)
    {
      ok, missing := AddInputStreamsForNode(k, mayNeedSorting);
      if !ok { return; }
      ok := AddOutputStreams(NodeOuts(graph.nodes[k], k));
    }

    /** What one more node does to the question whether inputs are missing. */
    lemma {:induction false} NodeDecides(g: Graph, k: nat)
      requires k < |g.nodes|
      ensures var own, n := NodeIns(g.nodes[k], k, Outs(g, k)), |g.nodes|;
              && (NoneMissing(Ins(g, k + 1)) <==> NoneMissing(Ins(g, k)) && NoneMissing(own))
              && (NoneMissing(Ins(g, n)) ==> NoneMissing(own))
              && (Distinct(AllOuts(g)) ==> Distinct(Outs(g, k + 1)))
    {
      MissingInParts(Ins(g, k), NodeIns(g.nodes[k], k, Outs(g, k)));
      InsGrow(g, k + 1, |g.nodes|);
      OutsGrow(g, k + 1, |g.nodes|);
      if NoneMissing(Ins(g, |g.nodes|)) { MissingInLonger(Ins(g, k + 1), Ins(g, |g.nodes|)); }
      if Distinct(AllOuts(g)) { PrefixIsDistinct(Outs(g, k + 1), AllOuts(g)); }
    }

    ghost predicate UpTo(k: nat)
      reads this
    {
      && k <= |graph.nodes| && outputStreams == Outs(graph, k) && inputStreams == Ins(graph, k)
      && Distinct(outputStreams) && Indexes(streamToProducer, outputStreams)
    }

    method AddNodes(mayNeedSorting: bool) returns (ok: bool, needSorting: bool)
      requires UpTo(0)
      modifies this`outputStreams, this`inputStreams, this`streamToProducer
      ensures ok == (Distinct(AllOuts(graph)) && (mayNeedSorting || NoneMissing(Ins(graph, |graph.nodes|))))
      ensures ok ==> UpTo(|graph.nodes|) && needSorting == !NoneMissing(Ins(graph, |graph.nodes|))
    {
      needSorting := false;
      var k := 0;
      while k < |graph.nodes|
        invariant UpTo(k) && needSorting == !NoneMissing(Ins(graph, k)) && (!mayNeedSorting ==> !needSorting)
      {
        var missing: bool;
        NodeDecides(graph, k);
        ok, missing := AddNode(k, mayNeedSorting);
        if !ok { return; }
        needSorting := needSorting || missing;
        k := k + 1;
      }
      ok := true;
    }

    method InitializeStreamInfo(mayNeedSorting: bool) returns (ok: bool, needSorting: bool)
      modifies this`outputStreams, this`inputStreams, this`streamToProducer
      ensures ok == (Distinct(AllOuts(graph)) && (mayNeedSorting || NoneMissing(Ins(graph, |graph.nodes|))))
      ensures ok ==> UpTo(|graph.nodes|) && needSorting == !NoneMissing(Ins(graph, |graph.nodes|))
    {
      outputStreams, inputStreams, streamToProducer, needSorting := [], [], map[], false;
      ok := AddOutputStreams(VirtualOuts(graph));
      assert [] + VirtualOuts(graph) == Outs(graph, 0);
      if !ok {
        OutsGrow(graph, 0, |graph.nodes|);
        if Distinct(AllOuts(graph)) { PrefixIsDistinct(Outs(graph, 0), AllOuts(graph)); }
        return;
      }
      ok, needSorting := AddNodes(mayNeedSorting);
    }

    lemma {:induction false} MissingInParts(a: seq<InputEdge>, b: seq<InputEdge>)
      ensures NoneMissing(a + b) <==> NoneMissing(a) && NoneMissing(b)
    {
      assert forall i :: 0 <= i < |a| ==> (a + b)[i] == a[i];
      assert forall i :: 0 <= i < |b| ==> (a + b)[|a| + i] == b[i];
    }

    lemma {:induction false} MissingInLonger(a: seq<InputEdge>, b: seq<InputEdge>)
      requires a <= b && NoneMissing(b)
      ensures NoneMissing(a)
    {}

    method FillUpstreamFieldForBackEdges() returns (ok: bool)
      requires Indexes(streamToProducer, outputStreams) && NoneMissing(inputStreams)
      requires forall i :: 0 <= i < |inputStreams| && inputStreams[i].backEdge ==> inputStreams[i].upstream == -1
      requires forall i :: 0 <= i < |inputStreams| ==> inputStreams[i].upstream >= -1
      modifies this`inputStreams
      ensures ok == AllLinked(Filled(old(inputStreams), outputStreams))
      ensures ok ==> inputStreams == Filled(old(inputStreams), outputStreams)
    {
      var index := 0;
      ghost var final := Filled(inputStreams, outputStreams);
      while index < |inputStreams|
        invariant index <= |inputStreams| == |old(inputStreams)|
        invariant inputStreams[..index] == final[..index] && inputStreams[index..] == old(inputStreams)[index..]
        invariant AllLinked(final[..index])
      {
        var edge := inputStreams[index];
        assert edge == old(inputStreams)[index];
        if edge.backEdge {
          if edge.name !in streamToProducer {
            assert final[index].upstream == -1;
            return false;
          }
          inputStreams := inputStreams[index := edge.(upstream := streamToProducer[edge.name])];
        } else {
          assert !Missing(edge);
        }
        assert inputStreams[index] == final[index];
        index := index + 1;
      }
      ok := true;
    }
  
    ghost function Found(): Analysis
      reads this
    {
      Analysis(graph, outputStreams, inputStreams)
    }

    /** What the inputs of one node bring; `base` is where its edges begin. */
    method InputSources(nodeIndex: nat, base: nat) returns (sources: set<nat>)
      requires Wired(Found()) && nodeIndex < |graph.nodes| && base == Base(graph, nodeIndex)
      requires |ancestorSources| == nodeIndex
      ensures sources == BroughtBy(Found(), nodeIndex, |graph.nodes[nodeIndex].inputs|, ancestorSources)
    {
      sources := {};
      var j := 0;
      while j < |graph.nodes[nodeIndex].inputs|
        invariant j <= |graph.nodes[nodeIndex].inputs|
        invariant sources == BroughtBy(Found(), nodeIndex, j, ancestorSources)
      {
        assert WiredAt(Found(), nodeIndex, j);
        var parent := outputStreams[inputStreams[base + j].upstream].parent;
        if parent >= |graph.nodes| {
          sources := sources + {parent};
        } else if parent < nodeIndex {
          sources := sources + ancestorSources[parent];
        }
        j := j + 1;
      }
    }

    /** The sources of a node are its own number if it reads nothing, and otherwise what its inputs bring. */
    method ComputeSourceDependence()
      requires Finished(Found())
      modifies this`ancestorSources
      ensures Wired(Found()) && ancestorSources == AncestorSources(Found(), |graph.nodes|)
    {
      SuccessIsWired(Found());
      ancestorSources := [];
      var nodeIndex, base := 0, 0;
      while nodeIndex < |graph.nodes|
        invariant nodeIndex <= |graph.nodes| && base == Base(graph, nodeIndex)
        invariant ancestorSources == AncestorSources(Found(), nodeIndex)
      {
        var node := graph.nodes[nodeIndex];
        var sources := {nodeIndex};
        if node.inputs != [] { sources := InputSources(nodeIndex, base); }
        ancestorSources := ancestorSources + [sources];
        base := base + |node.inputs|;
        nodeIndex := nodeIndex + 1;
      }
    }

    /** `answer` is what the topological sorter says about the graph, if it is asked. */
    method Initialize(answer: Option<seq<nat>>) returns (ok: bool)
      requires answer.Some? ==> IsPermutation(answer.value, |graph.nodes|)
      modifies this
      ensures ok == GraphConfigs.Initialize(old(graph), answer).Some?
      ensures ok ==> Found() == GraphConfigs.Initialize(old(graph), answer).value
      ensures ok ==> Wired(Found()) && ancestorSources == AncestorSources(Found(), |graph.nodes|)
    {
      var needSorting: bool;
      ok, needSorting := InitializeStreamInfo(true);
      if !ok { return; }
      if needSorting {
        if answer.None? { return false; }
        graph := Reordered(graph, answer.value);
        ok, needSorting := InitializeStreamInfo(false);
        if !ok { return; }
      }
      InsAreFresh(graph, |graph.nodes|);
      ok := FillUpstreamFieldForBackEdges();
      if !ok { return; }
      ComputeSourceDependence();
    }
  }

  lemma {:induction false} InsAreFresh(g: Graph, k: nat)
    requires k <= |g.nodes|
    ensures forall i :: 0 <= i < |Ins(g, k)| ==>
              var e := Ins(g, k)[i]; e.upstream >= -1 && (e.backEdge ==> e.upstream == -1)
    decreases k
  {
    if k > 0 { InsAreFresh(g, k - 1); }
  }
}
