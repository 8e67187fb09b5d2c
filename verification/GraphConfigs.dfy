/** Static analysis of a graph's streams: which output each input reads, in which order calculators
    come, and on which packet sources each of them depends. */
module GraphConfigs {
  import opened FiniteSets
  import opened Options

  /** Stream names are opaque. A back edge may read a stream of a later node. */
  datatype Input = Input(name: nat, backEdge: bool)

  datatype Node = Node(inputs: seq<Input>, outputs: seq<nat>)

  /** `inputs` names the graph input streams. Calculators have the numbers below |nodes|, graph inputs,
      as virtual nodes, the ones from there on. */
  datatype Graph = Graph(inputs: seq<nat>, nodes: seq<Node>)

  datatype OutputEdge = OutputEdge(name: nat, parent: nat)

  /** `upstream` is the place of the output edge that is read, or -1. */
  datatype InputEdge = InputEdge(node: nat, name: nat, backEdge: bool, upstream: int)

  // ---------- one pass over the nodes ----------

  function VirtualOuts(g: Graph): seq<OutputEdge> {
    seq(|g.inputs|, i requires 0 <= i < |g.inputs| => OutputEdge(g.inputs[i], |g.nodes| + i))
  }

  function NodeOuts(node: Node, k: nat): seq<OutputEdge> {
    seq(|node.outputs|, i requires 0 <= i < |node.outputs| => OutputEdge(node.outputs[i], k))
  }

  /** The output edges known before node `k` is reached. */
  function Outs(g: Graph, k: nat): seq<OutputEdge>
    requires k <= |g.nodes|
  {
    if k == 0 then VirtualOuts(g) else Outs(g, k - 1) + NodeOuts(g.nodes[k - 1], k - 1)
  }

  function AllOuts(g: Graph): seq<OutputEdge> {
    Outs(g, |g.nodes|)
  }

  /** The place of the first output edge of this name, or -1. */
  function Find(outs: seq<OutputEdge>, name: nat): (r: int)
    ensures -1 <= r < |outs| && (r >= 0 ==> outs[r].name == name)
    ensures r == -1 ==> forall i :: 0 <= i < |outs| ==> outs[i].name != name
  {
    if outs == [] then -1 else
    var n := |outs| - 1;
    var r := Find(outs[..n], name);
    if r >= 0 then r else if outs[n].name == name then n else -1
  }

  function NodeIns(node: Node, k: nat, outs: seq<OutputEdge>): seq<InputEdge> {
    seq(|node.inputs|, j requires 0 <= j < |node.inputs| =>
      var i := node.inputs[j];
      InputEdge(k, i.name, i.backEdge, if i.backEdge then -1 else Find(outs, i.name)))
  }

  /** The input edges of the first `k` nodes. */
  function Ins(g: Graph, k: nat): seq<InputEdge>
    requires k <= |g.nodes|
  {
    if k == 0 then [] else Ins(g, k - 1) + NodeIns(g.nodes[k - 1], k - 1, Outs(g, k - 1))
  }

  predicate Distinct(outs: seq<OutputEdge>) {
    forall i, j :: 0 <= i < j < |outs| ==> outs[i].name != outs[j].name
  }

  predicate Missing(e: InputEdge) {
    !e.backEdge && e.upstream == -1
  }

  predicate NoneMissing(ins: seq<InputEdge>) {
    forall i :: 0 <= i < |ins| ==> !Missing(ins[i])
  }

  /** A back edge looks its producer up when all nodes are known. */
  function Filled(ins: seq<InputEdge>, outs: seq<OutputEdge>): seq<InputEdge> {
    seq(|ins|, i requires 0 <= i < |ins| =>
      if ins[i].backEdge then ins[i].(upstream := Find(outs, ins[i].name)) else ins[i])
  }

  predicate AllLinked(ins: seq<InputEdge>) {
    forall i :: 0 <= i < |ins| ==> ins[i].upstream >= 0
  }

  // ---------- the topological sorter, as its documentation specifies it ----------

  predicate IsPermutation(order: seq<nat>, n: nat) {
    && |order| == n && (forall i :: 0 <= i < n ==> order[i] < n)
    && forall i, j :: 0 <= i < j < n ==> order[i] != order[j]
  }

  /** `u` must come before `v`. */
  predicate MustPrecede(g: Graph, u: nat, v: nat) {
    u < |g.nodes| && v < |g.nodes| &&
    exists j :: 0 <= j < |g.nodes[v].inputs| && !g.nodes[v].inputs[j].backEdge
        && g.nodes[v].inputs[j].name in g.nodes[u].outputs
  }

  predicate IsTopological(g: Graph, order: seq<nat>) {
    && IsPermutation(order, |g.nodes|)
    && forall a, b :: 0 <= a < |order| && 0 <= b < |order| && MustPrecede(g, order[a], order[b]) ==> a < b
  }

  /** A sorter returns a topological order if there is one, and reports a cycle if not. */
  ghost predicate IsSorted(g: Graph, answer: Option<seq<nat>>) {
    match answer
    case Some(order) => IsTopological(g, order)
    case None => forall order :: !IsTopological(g, order)
  }

  function Reordered(g: Graph, order: seq<nat>): Graph
    requires IsPermutation(order, |g.nodes|)
  {
    g.(nodes := seq(|order|, i requires 0 <= i < |order| => g.nodes[order[i]]))
  }

  // ---------- initialisation ----------

  /** The graph in its final order with its edges. */
  datatype Analysis = Analysis(graph: Graph, outs: seq<OutputEdge>, ins: seq<InputEdge>)

  function Finish(g: Graph): Option<Analysis> {
    var ins := Filled(Ins(g, |g.nodes|), AllOuts(g));
    if AllLinked(ins) then Some(Analysis(g, AllOuts(g), ins)) else None
  }

  /** `answer` is what the topological sorter says about this graph, if it is asked. */
  function Initialize(g: Graph, answer: Option<seq<nat>>): Option<Analysis>
    requires answer.Some? ==> IsPermutation(answer.value, |g.nodes|)
  {
    if !Distinct(AllOuts(g)) then None
    else if NoneMissing(Ins(g, |g.nodes|)) then Finish(g)
    else match answer
      case None => None
      case Some(order) =>
        var sorted := Reordered(g, order);
        if Distinct(AllOuts(sorted)) && NoneMissing(Ins(sorted, |sorted.nodes|)) then Finish(sorted) else None
  }

  // ---------- what an analysis means ----------

  predicate Produces(g: Graph, parent: nat, name: nat) {
    if parent < |g.nodes| then name in g.nodes[parent].outputs
    else parent < |g.nodes| + |g.inputs| && g.inputs[parent - |g.nodes|] == name
  }

  lemma {:induction false} OutsMembers(g: Graph, k: nat, e: OutputEdge)
    requires k <= |g.nodes|
    ensures e in Outs(g, k) <==> Produces(g, e.parent, e.name) && (e.parent < k || e.parent >= |g.nodes|)
    decreases k
  {
    if k == 0 {
      if Produces(g, e.parent, e.name) && e.parent >= |g.nodes| { assert VirtualOuts(g)[e.parent - |g.nodes|] == e; }
    } else {
      OutsMembers(g, k - 1, e);
      if e.parent == k - 1 && Produces(g, e.parent, e.name) {
        var i :| 0 <= i < |g.nodes[k - 1].outputs| && g.nodes[k - 1].outputs[i] == e.name;
        assert NodeOuts(g.nodes[k - 1], k - 1)[i] == e;
      }
    }
  }

  lemma {:induction false} OutsGrow(g: Graph, k: nat, l: nat)
    requires k <= l <= |g.nodes|
    ensures Outs(g, k) <= Outs(g, l)
    decreases l
  {
    if k < l { OutsGrow(g, k, l - 1); }
  }

  lemma {:induction false} FindIsStable(outs: seq<OutputEdge>, more: seq<OutputEdge>, name: nat)
    requires outs <= more && Find(outs, name) >= 0
    ensures Find(more, name) == Find(outs, name)
    decreases |more|
  {
    if |outs| < |more| {
      FindIsStable(outs, more[..|more| - 1], name);
    } else {
      assert outs == more;
    }
  }

  /** Where the edges of node `v` stand among all input edges. */
  function Base(g: Graph, v: nat): nat
    requires v <= |g.nodes|
  {
    if v == 0 then 0 else Base(g, v - 1) + |g.nodes[v - 1].inputs|
  }

  lemma {:induction false} InsGrow(g: Graph, k: nat, l: nat)
    requires k <= l <= |g.nodes|
    ensures Ins(g, k) <= Ins(g, l)
    decreases l
  {
    if k < l { InsGrow(g, k, l - 1); }
  }

  lemma {:induction false} OwnInsAt(g: Graph, v: nat, j: nat)
    requires v < |g.nodes| && j < |g.nodes[v].inputs|
    ensures Base(g, v) + j < |Ins(g, v + 1)|
    ensures Ins(g, v + 1)[Base(g, v) + j] == NodeIns(g.nodes[v], v, Outs(g, v))[j]
  {
    InsLength(g, v);
    assert Ins(g, v + 1) == Ins(g, v) + NodeIns(g.nodes[v], v, Outs(g, v));
  }

  lemma {:induction false} InsAt(g: Graph, k: nat, v: nat, j: nat)
    requires v < k <= |g.nodes| && j < |g.nodes[v].inputs|
    ensures |Ins(g, k)| == Base(g, k) && Base(g, v) + j < |Ins(g, k)|
    ensures Ins(g, k)[Base(g, v) + j] == NodeIns(g.nodes[v], v, Outs(g, v))[j]
  {
    InsLength(g, k);
    OwnInsAt(g, v, j);
    InsGrow(g, v + 1, k);
  }

  lemma {:induction false} InsLength(g: Graph, k: nat)
    requires k <= |g.nodes|
    ensures |Ins(g, k)| == Base(g, k)
    decreases k
  {
    if k > 0 { InsLength(g, k - 1); }
  }

  /** Every place among the input edges belongs to some node's input. */
  lemma {:induction false} InsOwner(g: Graph, k: nat, i: nat) returns (v: nat, j: nat)
    requires k <= |g.nodes| && i < |Ins(g, k)|
    ensures v < k && j < |g.nodes[v].inputs| && i == Base(g, v) + j
    decreases k
  {
    InsLength(g, k - 1);
    if i < |Ins(g, k - 1)| { v, j := InsOwner(g, k - 1, i); } else { v, j := k - 1, i - |Ins(g, k - 1)|; }
  }

  /** The edge of input `j` of node `v` in a successful analysis. */
  function EdgeOf(a: Analysis, v: nat, j: nat): InputEdge
    requires v < |a.graph.nodes| && j < |a.graph.nodes[v].inputs| && Base(a.graph, v) + j < |a.ins|
  {
    a.ins[Base(a.graph, v) + j]
  }

  /** A finished analysis: every input edge leads to the first output of its name. */
  predicate Finished(a: Analysis) {
    && Distinct(AllOuts(a.graph)) && NoneMissing(Ins(a.graph, |a.graph.nodes|)) && Finish(a.graph) == Some(a)
  }

  lemma {:induction false} ForwardFind(g: Graph, v: nat, name: nat)
    requires v < |g.nodes| && Distinct(AllOuts(g)) && Find(Outs(g, v), name) >= 0
    ensures Find(Outs(g, v), name) == Find(AllOuts(g), name)
  {
    OutsGrow(g, v, |g.nodes|);
    FindIsStable(Outs(g, v), AllOuts(g), name);
  }

  lemma {:induction false} EdgeIsFound(a: Analysis, v: nat, j: nat)
    requires Finished(a) && v < |a.graph.nodes| && j < |a.graph.nodes[v].inputs|
    ensures Base(a.graph, v) + j < |a.ins|
    ensures var i, e := a.graph.nodes[v].inputs[j], EdgeOf(a, v, j);
            && e == InputEdge(v, i.name, i.backEdge, Find(a.outs, i.name)) && e.upstream >= 0
            && (!i.backEdge ==> Find(Outs(a.graph, v), i.name) == e.upstream)
  {
    var g := a.graph;
    InsAt(g, |g.nodes|, v, j);
    var i := g.nodes[v].inputs[j];
    assert !Missing(Ins(g, |g.nodes|)[Base(g, v) + j]);
    if !i.backEdge { ForwardFind(g, v, i.name); }
  }

  lemma {:induction false} SuccessIsFinished(g: Graph, answer: Option<seq<nat>>)
    requires answer.Some? ==> IsPermutation(answer.value, |g.nodes|)
    requires Initialize(g, answer).Some?
    ensures var a := Initialize(g, answer).value;
            Finished(a) && (a.graph == g || (answer.Some? && a.graph == Reordered(g, answer.value)))
  {}

  /** A successful analysis links every input to the one producer of its name, and every input that is
      not a back edge to a graph input or a strictly earlier calculator. */
  lemma {:induction false} InputsAreLinked(g: Graph, answer: Option<seq<nat>>, v: nat, j: nat)
    requires answer.Some? ==> IsPermutation(answer.value, |g.nodes|)
    requires Initialize(g, answer).Some?
    requires var h := Initialize(g, answer).value.graph; v < |h.nodes| && j < |h.nodes[v].inputs|
    ensures var a := Initialize(g, answer).value;
            Base(a.graph, v) + j < |a.ins| &&
            var i, e := a.graph.nodes[v].inputs[j], EdgeOf(a, v, j);
            && e.node == v && e.name == i.name && 0 <= e.upstream < |a.outs|
            && var p := a.outs[e.upstream].parent;
               && Produces(a.graph, p, i.name)
               && (forall q :: Produces(a.graph, q, i.name) ==> q == p)
               && (!i.backEdge ==> p < v || p >= |a.graph.nodes|)
  {
    SuccessIsFinished(g, answer);
    var a := Initialize(g, answer).value;
    EdgeIsFound(a, v, j);
    ProducerIsUnique(a, v, j);
  }

  lemma {:induction false} ProducerIsUnique(a: Analysis, v: nat, j: nat)
    requires Finished(a) && v < |a.graph.nodes| && j < |a.graph.nodes[v].inputs|
    requires Base(a.graph, v) + j < |a.ins|
    requires var i := a.graph.nodes[v].inputs[j];
             EdgeOf(a, v, j).upstream == Find(a.outs, i.name) >= 0
                 && (!i.backEdge ==> Find(Outs(a.graph, v), i.name) == Find(a.outs, i.name))
    ensures var i, p := a.graph.nodes[v].inputs[j], a.outs[EdgeOf(a, v, j).upstream].parent;
            && Produces(a.graph, p, i.name)
            && (forall q :: Produces(a.graph, q, i.name) ==> q == p)
            && (!i.backEdge ==> p < v || p >= |a.graph.nodes|)
  {
    var g, i := a.graph, a.graph.nodes[v].inputs[j];
    var u := Find(a.outs, i.name);
    var e := a.outs[u];
    assert e in AllOuts(g);
    OutsMembers(g, |g.nodes|, e);
    forall q | Produces(g, q, i.name) ensures q == e.parent {
      var d := OutputEdge(i.name, q);
      OutsMembers(g, |g.nodes|, d);
      var w :| 0 <= w < |a.outs| && a.outs[w] == d;
      assert w == u;
    }
    if !i.backEdge {
      OutsGrow(g, v, |g.nodes|);
      assert Outs(g, v)[u] == e;
      OutsMembers(g, v, e);
    }
  }

  // ---------- when an analysis succeeds ----------

  predicate DistinctNames(names: seq<nat>) {
    forall i, j :: 0 <= i < j < |names| ==> names[i] != names[j]
  }

  predicate Disjoint(a: seq<nat>, b: seq<nat>) {
    forall x :: x in a ==> x !in b
  }

  /** No stream name is defined twice among the graph inputs and the first `k` nodes. */
  predicate UniqueNames(g: Graph, k: nat)
    requires k <= |g.nodes|
  {
    && DistinctNames(g.inputs)
    && (forall u :: 0 <= u < k ==> DistinctNames(g.nodes[u].outputs) && Disjoint(g.nodes[u].outputs, g.inputs))
    && forall u, v :: 0 <= u < k && 0 <= v < k && u != v ==> Disjoint(g.nodes[u].outputs, g.nodes[v].outputs)
  }

  predicate NamesApart(a: seq<OutputEdge>, b: seq<OutputEdge>) {
    forall i, j :: 0 <= i < |a| && 0 <= j < |b| ==> a[i].name != b[j].name
  }

  lemma {:induction false} DistinctParts(a: seq<OutputEdge>, b: seq<OutputEdge>)
    ensures Distinct(a + b) <==> Distinct(a) && Distinct(b) && NamesApart(a, b)
  {
    var c := a + b;
    assert forall i :: 0 <= i < |a| ==> c[i] == a[i];
    assert forall j :: 0 <= j < |b| ==> c[|a| + j] == b[j];
  }

  /** No graph input and no node before node `k` has an output of its names. */
  predicate NodeNamesApart(g: Graph, k: nat)
    requires k < |g.nodes|
  {
    && Disjoint(g.nodes[k].outputs, g.inputs)
    && forall u :: 0 <= u < k ==> Disjoint(g.nodes[u].outputs, g.nodes[k].outputs)
  }

  lemma {:induction false} NodeApart(g: Graph, k: nat)
    requires k < |g.nodes|
    ensures NamesApart(Outs(g, k), NodeOuts(g.nodes[k], k))
       <==> NodeNamesApart(g, k)
  {
    var outs, names := Outs(g, k), g.nodes[k].outputs;
    if NamesApart(outs, NodeOuts(g.nodes[k], k)) {
      forall e: OutputEdge | e in outs ensures e.name !in names { NameApart(g, k, e); }
      forall i | 0 <= i < |g.inputs| ensures g.inputs[i] !in names {
        OutsMembers(g, k, OutputEdge(g.inputs[i], |g.nodes| + i));
      }
      forall u: nat, x: nat | u < k
          && x in g.nodes[u].outputs ensures x !in names { OutsMembers(g, k, OutputEdge(x, u)); }
    } else {
      var i, j :| 0 <= i < |outs| && 0 <= j < |names| && outs[i].name == NodeOuts(g.nodes[k], k)[j].name;
      assert outs[i] in outs && names[j] in names && outs[i].name == names[j];
      OutsMembers(g, k, outs[i]);
    }
  }

  lemma {:induction false} NameApart(g: Graph, k: nat, e: OutputEdge)
    requires k < |g.nodes| && NamesApart(Outs(g, k), NodeOuts(g.nodes[k], k)) && e in Outs(g, k)
    ensures e.name !in g.nodes[k].outputs
  {
    var i :| 0 <= i < |Outs(g, k)| && Outs(g, k)[i] == e;
    forall j | 0 <= j < |g.nodes[k].outputs| ensures g.nodes[k].outputs[j] != e.name {
      assert NodeOuts(g.nodes[k], k)[j].name == g.nodes[k].outputs[j];
    }
  }

  lemma {:induction false} NodeDistinct(node: Node, k: nat)
    ensures Distinct(NodeOuts(node, k)) <==> DistinctNames(node.outputs)
  {
    var outs := NodeOuts(node, k);
    assert forall j :: 0 <= j < |outs| ==> outs[j].name == node.outputs[j];
  }

  lemma {:induction false} InputsDistinct(g: Graph)
    ensures Distinct(VirtualOuts(g)) <==> DistinctNames(g.inputs)
  {
    assert forall i :: 0 <= i < |g.inputs| ==> VirtualOuts(g)[i].name == g.inputs[i];
  }

  lemma {:induction false} UniqueInParts(g: Graph, k: nat)
    requires k < |g.nodes|
    ensures UniqueNames(g, k + 1) <==> UniqueNames(g, k) && DistinctNames(g.nodes[k].outputs) && NodeNamesApart(g, k)
  {}

  lemma {:induction false} DistinctInParts(g: Graph, k: nat)
    requires k < |g.nodes|
    ensures Distinct(Outs(g, k + 1))
       <==> Distinct(Outs(g, k)) && DistinctNames(g.nodes[k].outputs) && NodeNamesApart(g, k)
  {
    var own := NodeOuts(g.nodes[k], k);
    assert Outs(g, k + 1) == Outs(g, k) + own;
    DistinctParts(Outs(g, k), own);
    NodeDistinct(g.nodes[k], k);
    NodeApart(g, k);
  }

  lemma {:induction false} UniqueIffDistinct(g: Graph, k: nat)
    requires k <= |g.nodes|
    ensures UniqueNames(g, k) <==> Distinct(Outs(g, k))
    decreases k
  {
    if k == 0 {
      InputsDistinct(g);
    } else {
      UniqueIffDistinct(g, k - 1);
      UniqueInParts(g, k - 1);
      DistinctInParts(g, k - 1);
    }
  }

  lemma {:induction false} ReorderingKeepsDistinct(g: Graph, order: seq<nat>)
    requires IsPermutation(order, |g.nodes|) && Distinct(AllOuts(g))
    ensures Distinct(AllOuts(Reordered(g, order)))
  {
    var h := Reordered(g, order);
    UniqueIffDistinct(g, |g.nodes|);
    UniqueIffDistinct(h, |h.nodes|);
    forall u, v | 0 <= u < |h.nodes| && 0 <= v < |h.nodes|
        && u != v ensures Disjoint(h.nodes[u].outputs, h.nodes[v].outputs) {
      assert order[u] != order[v];
    }
  }

  function Elements(order: seq<nat>): (r: set<nat>)
    ensures forall x :: x in r <==> x in order
  {
    if order == [] then {} else Elements(order[..|order| - 1]) + {order[|order| - 1]}
  }

  function Range(n: nat): (r: set<nat>)
    ensures |r| == n && forall x: nat :: x in r <==> x < n
  {
    if n == 0 then {} else Range(n - 1) + {n - 1}
  }

  lemma {:induction false} SizeOfElements(order: seq<nat>)
    requires forall i, j :: 0 <= i < j < |order| ==> order[i] != order[j]
    ensures |Elements(order)| == |order|
  {
    if order != [] { SizeOfElements(order[..|order| - 1]); }
  }

  /** A permutation reaches every node. */
  lemma {:induction false} PlaceInOrder(order: seq<nat>, n: nat, v: nat) returns (x: nat)
    requires IsPermutation(order, n) && v < n
    ensures x < n && order[x] == v
  {
    SizeOfElements(order);
    SubsetOfSameSize(Elements(order), Range(n));
    assert v in Elements(order);
    x :| 0 <= x < |order| && order[x] == v;
  }

  ghost predicate IsProduced(g: Graph, name: nat) {
    exists p: nat :: Produces(g, p, name)
  }

  ghost predicate AllProduced(g: Graph) {
    forall v, j :: 0 <= v < |g.nodes| && 0 <= j < |g.nodes[v].inputs| ==> IsProduced(g, g.nodes[v].inputs[j].name)
  }

  ghost predicate HasOrder(g: Graph) {
    exists order :: IsTopological(g, order)
  }

  lemma {:induction false} FoundIffProducedBefore(g: Graph, k: nat, name: nat, p: nat)
    requires k <= |g.nodes| && Produces(g, p, name) && (p < k || p >= |g.nodes|)
    ensures Find(Outs(g, k), name) >= 0
  {
    OutsMembers(g, k, OutputEdge(name, p));
  }

  /** If nothing is missing before its node, everything that is produced at all gets linked. */
  lemma {:induction false} FinishSucceeds(g: Graph)
    requires NoneMissing(Ins(g, |g.nodes|)) && AllProduced(g)
    ensures Finish(g).Some?
  {
    var ins := Ins(g, |g.nodes|);
    forall i | 0 <= i < |ins| ensures Filled(ins, AllOuts(g))[i].upstream >= 0 {
      var v, j := InsOwner(g, |g.nodes|, i);
      InsAt(g, |g.nodes|, v, j);
      assert !Missing(ins[i]);
      if ins[i].backEdge {
        var name := g.nodes[v].inputs[j].name;
        assert IsProduced(g, name);
        var p: nat :| Produces(g, p, name);
        FoundIffProducedBefore(g, |g.nodes|, name, p);
      }
    }
  }

  lemma {:induction false} ReorderingKeepsProduced(g: Graph, order: seq<nat>, name: nat)
    requires IsPermutation(order, |g.nodes|)
    ensures IsProduced(g, name) <==> IsProduced(Reordered(g, order), name)
  {
    var h := Reordered(g, order);
    if p: nat :| Produces(g, p, name) {
      if p < |g.nodes| {
        var x := PlaceInOrder(order, |g.nodes|, p);
        assert Produces(h, x, name);
      } else {
        assert Produces(h, p, name);
      }
    }
    if p: nat :| Produces(h, p, name) {
      if p < |h.nodes| { assert Produces(g, order[p], name); } else { assert Produces(g, p, name); }
    }
  }

  /** In topological order, what is produced at all is produced before it is read. */
  lemma {:induction false} NothingMissingInOrder(g: Graph, order: seq<nat>)
    requires IsTopological(g, order) && AllProduced(g)
    ensures NoneMissing(Ins(Reordered(g, order), |g.nodes|)) && AllProduced(Reordered(g, order))
  {
    var h, n := Reordered(g, order), |g.nodes|;
    forall v, j | 0 <= v < n && 0 <= j < |h.nodes[v].inputs| ensures IsProduced(h, h.nodes[v].inputs[j].name) {
      ReorderingKeepsProduced(g, order, h.nodes[v].inputs[j].name);
    }
    var ins := Ins(h, n);
    forall i | 0 <= i < |ins| ensures !Missing(ins[i]) {
      var v, j := InsOwner(h, n, i);
      InsAt(h, n, v, j);
      if !ins[i].backEdge { ReadAfterProduced(g, order, v, j); }
    }
  }

  lemma {:induction false} ReadAfterProduced(g: Graph, order: seq<nat>, v: nat, j: nat)
    requires IsTopological(g, order) && v < |order|
    requires var h := Reordered(g, order);
             j < |h.nodes[v].inputs| && !h.nodes[v].inputs[j].backEdge && IsProduced(h, h.nodes[v].inputs[j].name)
    ensures var h := Reordered(g, order); Find(Outs(h, v), h.nodes[v].inputs[j].name) >= 0
  {
    var h := Reordered(g, order);
    var name := h.nodes[v].inputs[j].name;
    var p: nat :| Produces(h, p, name);
    if p < |h.nodes| { assert MustPrecede(g, order[p], order[v]); }
    FoundIffProducedBefore(h, v, name, p);
  }

  lemma {:induction false} SuccessHasProducers(g: Graph, answer: Option<seq<nat>>)
    requires answer.Some? ==> IsPermutation(answer.value, |g.nodes|)
    requires Initialize(g, answer).Some?
    ensures AllProduced(g)
  {
    SuccessIsFinished(g, answer);
    var h := Initialize(g, answer).value.graph;
    forall v, j | 0 <= v < |g.nodes| && 0 <= j < |g.nodes[v].inputs| ensures IsProduced(g, g.nodes[v].inputs[j].name) {
      var x: nat := v;
      if h != g { x := PlaceInOrder(answer.value, |g.nodes|, v); }
      InputsAreLinked(g, answer, x, j);
      if h != g { ReorderingKeepsProduced(g, answer.value, g.nodes[v].inputs[j].name); }
    }
  }

  function Identity(n: nat): seq<nat> {
    seq(n, i => i)
  }

  /** A graph that needs no sorting is in topological order already. */
  lemma {:induction false} UnsortedIsInOrder(a: Analysis)
    requires Finished(a)
    ensures IsTopological(a.graph, Identity(|a.graph.nodes|))
  {
    var g, order := a.graph, Identity(|a.graph.nodes|);
    forall u, v | 0 <= u < |order| && 0 <= v < |order| && MustPrecede(g, order[u], order[v]) ensures u < v {
      var j :| 0 <= j < |g.nodes[v].inputs| && !g.nodes[v].inputs[j].backEdge
          && g.nodes[v].inputs[j].name in g.nodes[u].outputs;
      EdgeIsFound(a, v, j);
      ProducerIsUnique(a, v, j);
      assert Produces(g, u, g.nodes[v].inputs[j].name);
    }
  }

  /** With a correct sorter, initialisation succeeds exactly if no stream is defined twice, every stream
      that is read is produced, and the edges that are not back edges have no cycle. */
  lemma {:induction false} InitializeSucceedsIff(g: Graph, answer: Option<seq<nat>>)
    requires IsSorted(g, answer)
    ensures Initialize(g, answer).Some? <==> UniqueNames(g, |g.nodes|) && AllProduced(g) && HasOrder(g)
  {
    UniqueIffDistinct(g, |g.nodes|);
    if Initialize(g, answer).Some? {
      SuccessHasProducers(g, answer);
      SuccessIsFinished(g, answer);
      var a := Initialize(g, answer).value;
      if a.graph == g { UnsortedIsInOrder(a); }
    } else if Distinct(AllOuts(g)) && AllProduced(g) && HasOrder(g) {
      if NoneMissing(Ins(g, |g.nodes|)) {
        FinishSucceeds(g);
      } else {
        var order := answer.value;
        ReorderingKeepsDistinct(g, order);
        NothingMissingInOrder(g, order);
        FinishSucceeds(Reordered(g, order));
      }
    }
  }

  // ---------- source dependence ----------

  /** The node that feeds input `j` of node `v`. */
  function Feeder(a: Analysis, v: nat, j: nat): nat
    requires Wired(a) && v < |a.graph.nodes| && j < |a.graph.nodes[v].inputs|
  {
    assert WiredAt(a, v, j);
    a.outs[EdgeOf(a, v, j).upstream].parent
  }

  predicate WiredAt(a: Analysis, v: nat, j: nat)
    requires v < |a.graph.nodes| && j < |a.graph.nodes[v].inputs|
  {
    Base(a.graph, v) + j < |a.ins| && 0 <= EdgeOf(a, v, j).upstream < |a.outs|
  }

  predicate Wired(a: Analysis) {
    forall v, j :: 0 <= v < |a.graph.nodes| && 0 <= j < |a.graph.nodes[v].inputs| ==> WiredAt(a, v, j)
  }

  /** What an input brings, given the sets computed so far: later nodes have none yet. */
  function Brings(a: Analysis, v: nat, j: nat, sets: seq<set<nat>>): set<nat>
    requires Wired(a) && v < |a.graph.nodes| && j < |a.graph.nodes[v].inputs|
  {
    var u := Feeder(a, v, j);
    if u >= |a.graph.nodes| then {u} else if u < |sets| then sets[u] else {}
  }

  function BroughtBy(a: Analysis, v: nat, n: nat, sets: seq<set<nat>>): set<nat>
    requires Wired(a) && v < |a.graph.nodes| && n <= |a.graph.nodes[v].inputs|
  {
    if n == 0 then {} else BroughtBy(a, v, n - 1, sets) + Brings(a, v, n - 1, sets)
  }

  function AncestorSources(a: Analysis, k: nat): (sets: seq<set<nat>>)
    requires Wired(a) && k <= |a.graph.nodes|
    ensures |sets| == k
  {
    if k == 0 then [] else
    var sets := AncestorSources(a, k - 1);
    var node := a.graph.nodes[k - 1];
    sets + [if node.inputs == [] then {k - 1} else BroughtBy(a, k - 1, |node.inputs|, sets)]
  }

  predicate Feeds(a: Analysis, u: nat, v: nat)
    requires Wired(a)
  {
    v < |a.graph.nodes| && exists j :: 0 <= j < |a.graph.nodes[v].inputs| && Feeder(a, v, j) == u
  }

  /** A path along edges that go from a graph input or from a lower to a higher node. */
  ghost predicate RisingPath(a: Analysis, p: seq<nat>)
    requires Wired(a)
  {
    && p != [] && p[|p| - 1] < |a.graph.nodes|
    && forall i :: 0 <= i < |p| - 1 ==> Feeds(a, p[i], p[i + 1]) && (p[i] < p[i + 1] || p[i] >= |a.graph.nodes|)
  }

  predicate IsPacketSource(a: Analysis, s: nat) {
    s >= |a.graph.nodes| || a.graph.nodes[s].inputs == []
  }

  ghost predicate DependsOn(a: Analysis, v: nat, s: nat)
    requires Wired(a)
  {
    IsPacketSource(a, s) && exists p :: RisingPath(a, p) && p[0] == s && p[|p| - 1] == v
  }

  lemma {:induction false} SetIsFinal(a: Analysis, v: nat, k: nat)
    requires Wired(a) && v < k <= |a.graph.nodes|
    ensures AncestorSources(a, k)[v] == AncestorSources(a, v + 1)[v]
    decreases k
  {
    if v < k - 1 { SetIsFinal(a, v, k - 1); }
  }

  lemma {:induction false} BroughtFromInput(a: Analysis, v: nat, n: nat, sets: seq<set<nat>>, s: nat)
    requires Wired(a) && v < |a.graph.nodes| && n <= |a.graph.nodes[v].inputs|
    ensures s in BroughtBy(a, v, n, sets) <==> exists j :: 0 <= j < n && s in Brings(a, v, j, sets)
    decreases n
  {
    if n > 0 { BroughtFromInput(a, v, n - 1, sets, s); }
  }

  lemma {:induction false} PathGrows(a: Analysis, q: seq<nat>, v: nat, j: nat)
    requires Wired(a) && RisingPath(a, q) && v < |a.graph.nodes| && j < |a.graph.nodes[v].inputs|
    requires q[|q| - 1] == Feeder(a, v, j) && q[|q| - 1] < v
    ensures RisingPath(a, q + [v])
  {
    var p := q + [v];
    forall i | 0 <= i < |p| - 1 ensures Feeds(a, p[i], p[i + 1]) && (p[i] < p[i + 1] || p[i] >= |a.graph.nodes|) {
      if i < |q| - 1 { assert Feeds(a, q[i], q[i + 1]); }
    }
  }

  lemma {:induction false} SourceHasPath(a: Analysis, v: nat, s: nat) returns (p: seq<nat>)
    requires Wired(a) && v < |a.graph.nodes| && s in AncestorSources(a, v + 1)[v]
    ensures IsPacketSource(a, s) && RisingPath(a, p) && p[0] == s && p[|p| - 1] == v
    decreases v
  {
    var node, sets := a.graph.nodes[v], AncestorSources(a, v);
    if node.inputs == [] {
      p := [v];
    } else {
      BroughtFromInput(a, v, |node.inputs|, sets, s);
      var j :| 0 <= j < |node.inputs| && s in Brings(a, v, j, sets);
      var u := Feeder(a, v, j);
      if u >= |a.graph.nodes| {
        assert Feeds(a, u, v);
        p := [s, v];
      } else {
        SetIsFinal(a, u, v);
        var q := SourceHasPath(a, u, s);
        PathGrows(a, q, v, j);
        p := q + [v];
      }
    }
  }

  lemma {:induction false} PathBringsSource(a: Analysis, p: seq<nat>)
    requires Wired(a) && RisingPath(a, p) && IsPacketSource(a, p[0])
    ensures p[0] in AncestorSources(a, p[|p| - 1] + 1)[p[|p| - 1]]
    decreases |p|
  {
    var n := |p| - 1;
    var v := p[n];
    if n > 0 {
      var u := p[n - 1];
      assert Feeds(a, u, v);
      var j :| 0 <= j < |a.graph.nodes[v].inputs| && Feeder(a, v, j) == u;
      assert n > 1 ==> Feeds(a, p[n - 2], p[n - 1]);
      if u < |a.graph.nodes| {
        PathBringsSource(a, p[..n]);
        SetIsFinal(a, u, v);
      }
      assert p[0] in Brings(a, v, j, AncestorSources(a, v));
      BroughtFromInput(a, v, |a.graph.nodes[v].inputs|, AncestorSources(a, v), p[0]);
    }
  }

  lemma {:induction false} SuccessIsWired(a: Analysis)
    requires Finished(a)
    ensures Wired(a)
  {
    forall v, j | 0 <= v < |a.graph.nodes| && 0 <= j < |a.graph.nodes[v].inputs|
      ensures WiredAt(a, v, j)
    {
      EdgeIsFound(a, v, j);
    }
  }

  /** The source dependence of a node is exactly the sources and graph inputs that reach it by edges
      going from lower to higher nodes. */
  lemma {:induction false} AncestorSourcesAreExact(a: Analysis, v: nat, s: nat)
    requires Finished(a) && v < |a.graph.nodes|
    ensures Wired(a) && (s in AncestorSources(a, |a.graph.nodes|)[v] <==> DependsOn(a, v, s))
  {
    SuccessIsWired(a);
    SetIsFinal(a, v, |a.graph.nodes|);
    if s in AncestorSources(a, v + 1)[v] {
      var p := SourceHasPath(a, v, s);
      assert RisingPath(a, p) && p[0] == s && p[|p| - 1] == v;
    }
    if DependsOn(a, v, s) {
      var p :| RisingPath(a, p) && p[0] == s && p[|p| - 1] == v;
      PathBringsSource(a, p);
    }
  }
}
