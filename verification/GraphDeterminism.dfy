/** A whole graph of deterministic calculators: whatever the timing inside its nodes, the history of every
    stream is a function of the graph inputs and of what the sources write. */
module GraphDeterminism {
  import opened Timestamps
  import opened Options
  import opened Streams
  import opened Merging
  import opened GraphConfigs
  import opened OutputHistories
  import R = StreamRuns
  import I = ScheduleIndependence
  import O = OutputRuns
  import OutputStreams

  /** A deterministic calculator as seen at one of its outputs: what it writes when it is opened, for no input
      sets, or when it is called with the last of the sets so far; and what it writes when it is closed. */
  datatype Writer = Writer(call: seq<InputSet> -> seq<Packet>, close: seq<InputSet> -> seq<Packet>)

  function WrittenBy(w: Writer, m: seq<InputSet>): seq<Packet> {
    if m == [] then w.call([]) else WrittenBy(w, m[..|m| - 1]) + w.call(m)
  }

  function AllWrittenBy(w: Writer, m: seq<InputSet>): seq<Packet> {
    WrittenBy(w, m) + w.close(m)
  }

  // ---------- the reference meaning ----------

  /** An analysed graph without back edges, with a writer for each output of each calculator. */
  predicate Fits(a: Analysis, calcs: seq<seq<Writer>>) {
    && Finished(a) && |calcs| == |a.graph.nodes|
    && forall v :: 0 <= v < |calcs| ==>
         |calcs[v]| == |a.graph.nodes[v].outputs|
         && forall j :: 0 <= j < |a.graph.nodes[v].inputs| ==> !a.graph.nodes[v].inputs[j].backEdge
  }

  /** The output edge that input `j` of node `v` reads, among those of graph inputs and earlier nodes. */
  lemma {:induction false} ReadsEarlier(a: Analysis, calcs: seq<seq<Writer>>, v: nat, j: nat)
    requires Fits(a, calcs) && v < |a.graph.nodes| && j < |a.graph.nodes[v].inputs|
    ensures Base(a.graph, v) + j < |a.ins| && 0 <= EdgeOf(a, v, j).upstream < |Outs(a.graph, v)|
  {
    EdgeIsFound(a, v, j);
  }

  function ReadBy(a: Analysis, calcs: seq<seq<Writer>>, v: nat, hs: seq<seq<Packet>>): seq<seq<Packet>>
    requires Fits(a, calcs) && v < |a.graph.nodes| && |hs| >= |Outs(a.graph, v)|
  {
    seq(|a.graph.nodes[v].inputs|, j requires 0 <= j < |a.graph.nodes[v].inputs| =>
      ReadsEarlier(a, calcs, v, j);
      hs[EdgeOf(a, v, j).upstream])
  }

  function NodeWrites(ws: seq<Writer>, m: seq<InputSet>): seq<seq<Packet>> {
    seq(|ws|, i requires 0 <= i < |ws| => AllWrittenBy(ws[i], m))
  }

  function SourceWrites(a: Analysis, v: nat, given: seq<seq<Packet>>): seq<seq<Packet>>
    requires v < |a.graph.nodes| && |given| == |AllOuts(a.graph)|
  {
    var first, n := |Outs(a.graph, v)|, |a.graph.nodes[v].outputs|;
    seq(n, i requires 0 <= i < n => if first + i < |given| then given[first + i] else [])
  }

  /** The histories of the output edges of graph inputs and of the first `k` nodes. `given` are those of graph
      inputs and sources; each other node writes what it must on the merge-join of what it reads. */
  ghost function Meaning(a: Analysis, calcs: seq<seq<Writer>>, given: seq<seq<Packet>>, k: nat): (hs: seq<seq<Packet>>)
    requires Fits(a, calcs) && |given| == |AllOuts(a.graph)| && k <= |a.graph.nodes|
    ensures |hs| == |Outs(a.graph, k)|
    decreases k
  {
    if k == 0 then
      seq(|a.graph.inputs|, i requires 0 <= i < |a.graph.inputs| => if i < |given| then given[i] else [])
    else
    var hs := Meaning(a, calcs, given, k - 1);
    if a.graph.nodes[k - 1].inputs == [] then hs + SourceWrites(a, k - 1, given)
    else hs + NodeWrites(calcs[k - 1], Merge(ReadBy(a, calcs, k - 1, hs)))
  }

  // ---------- executions ----------

  datatype NodeRun = NodeRun(config: I.Config, states: seq<I.State>, steps: seq<I.Step>)

  datatype OutputRun = OutputRun(spec: OutputStreams.Spec, states: seq<O.State>, steps: seq<O.Step>)

  /** One run of each node and of each output stream. */
  datatype Execution = Execution(nodes: seq<NodeRun>, outputs: seq<OutputRun>)

  /** The input sets with packets that a node was called with. */
  function Delivered(r: NodeRun): seq<InputSet> {
    if r.states == [] then [] else I.WithPackets(r.states[|r.states| - 1].delivered)
  }

  /** What has come to edge `u`. */
  function History(a: Analysis, given: seq<seq<Packet>>, e: Execution, u: nat): seq<Packet>
    requires |given| == |a.outs| == |e.outputs| && u < |a.outs|
  {
    if IsGiven(a, u) then given[u] else Emitted(e.outputs[u].steps)
  }

  /** A graph input or an output of a source. */
  predicate IsGiven(a: Analysis, u: nat)
    requires u < |a.outs|
  {
    a.outs[u].parent >= |a.graph.nodes| || a.graph.nodes[a.outs[u].parent].inputs == []
  }

  ghost predicate IsLegal(h: seq<Packet>) {
    R.LegalPast(h) && forall j :: 0 <= j < |h| ==> h[j].content.Some?
  }

  predicate Sized(a: Analysis, calcs: seq<seq<Writer>>, given: seq<seq<Packet>>, e: Execution) {
    Fits(a, calcs) && |given| == |a.outs| == |e.outputs| && |a.graph.nodes| == |e.nodes|
  }

  /** The node reads what the producers of its streams have sent, and was told to close. */
  ghost predicate NodeIsRun(a: Analysis, calcs: seq<seq<Writer>>, given: seq<seq<Packet>>, e: Execution, v: nat)
    requires Sized(a, calcs, given, e) && v < |a.graph.nodes|
  {
    var r := e.nodes[v];
    && I.IsRun(r.config, r.states, r.steps) && r.states[|r.steps|].phase.Closing?
    && |r.config.histories| == |a.graph.nodes[v].inputs|
    && forall j :: 0 <= j < |a.graph.nodes[v].inputs| ==>
         && Base(a.graph, v) + j < |a.ins| && 0 <= EdgeOf(a, v, j).upstream < |a.outs|
         && r.config.histories[j] == History(a, given, e, EdgeOf(a, v, j).upstream)
  }

  /** An output stream got all that its calculator writes on the sets delivered. */
  ghost predicate OutputIsRun(r: OutputRun, w: Writer, delivered: seq<InputSet>) {
    && O.IsRun(r.spec, r.states, r.steps) && !r.states[|r.steps|].phase.Running?
    && Emitted(r.steps) == AllWrittenBy(w, delivered)
  }

  /** Output `i` of node `v`: what a source writes is given. */
  ghost predicate OutputHasRun(a: Analysis, calcs: seq<seq<Writer>>, given: seq<seq<Packet>>, e: Execution,
                               v: nat, i: nat)
    requires Sized(a, calcs, given, e) && v < |a.graph.nodes| && i < |calcs[v]|
  {
    var u := |Outs(a.graph, v)| + i;
    && u < |a.outs|
    && if a.graph.nodes[v].inputs == [] then IsLegal(given[u])
       else OutputIsRun(e.outputs[u], calcs[v][i], Delivered(e.nodes[v]))
  }

  ghost predicate NodeHasRun(a: Analysis, calcs: seq<seq<Writer>>, given: seq<seq<Packet>>, e: Execution, v: nat)
    requires Sized(a, calcs, given, e) && v < |a.graph.nodes|
  {
    && (a.graph.nodes[v].inputs != [] ==> NodeIsRun(a, calcs, given, e, v))
    && forall i :: 0 <= i < |calcs[v]| ==> OutputHasRun(a, calcs, given, e, v, i)
  }

  /** The first `k` nodes have run completely on legal graph inputs. */
  ghost predicate HaveRun(a: Analysis, calcs: seq<seq<Writer>>, given: seq<seq<Packet>>, e: Execution, k: nat)
    requires Sized(a, calcs, given, e) && k <= |a.graph.nodes|
  {
    if k == 0 then forall u :: 0 <= u < |a.graph.inputs| ==> u < |given| && IsLegal(given[u])
    else HaveRun(a, calcs, given, e, k - 1) && NodeHasRun(a, calcs, given, e, k - 1)
  }

  /** A complete execution. */
  ghost predicate IsExecution(a: Analysis, calcs: seq<seq<Writer>>, given: seq<seq<Packet>>, e: Execution) {
    Sized(a, calcs, given, e) && HaveRun(a, calcs, given, e, |a.graph.nodes|)
  }

  // ---------- every execution has the reference meaning ----------

  lemma {:induction false} OutAt(a: Analysis, calcs: seq<seq<Writer>>, v: nat, i: nat)
    requires Fits(a, calcs) && v < |a.graph.nodes| && i < |a.graph.nodes[v].outputs|
    ensures |Outs(a.graph, v + 1)| == |Outs(a.graph, v)| + |a.graph.nodes[v].outputs|
    ensures |Outs(a.graph, v)| + i < |a.outs| && a.outs[|Outs(a.graph, v)| + i].parent == v
  {
    var g := a.graph;
    assert Outs(g, v + 1) == Outs(g, v) + NodeOuts(g.nodes[v], v);
    OutsGrow(g, v + 1, |g.nodes|);
    assert Outs(g, v + 1)[|Outs(g, v)| + i] == NodeOuts(g.nodes[v], v)[i];
  }

  lemma {:induction false} InputAt(a: Analysis, calcs: seq<seq<Writer>>, i: nat)
    requires Fits(a, calcs) && i < |a.graph.inputs|
    ensures i < |a.outs| && IsGiven(a, i)
  {
    OutsGrow(a.graph, 0, |a.graph.nodes|);
    assert Outs(a.graph, 0)[i] == VirtualOuts(a.graph)[i];
  }

  /** What a calculator has written, once no call is running, is legal for the readers of its stream. */
  lemma {:induction false} EmittedIsLegal(r: OutputRun)
    requires O.IsRun(r.spec, r.states, r.steps) && !r.states[|r.steps|].phase.Running?
    ensures IsLegal(Emitted(r.steps))
  {
    SentIsLegal(r.spec, r.states, r.steps, |r.steps|);
    SentIsEmitted(r.spec, r.states, r.steps, |r.steps|);
    assert r.steps[..|r.steps|] == r.steps;
    var s := r.states[|r.steps|];
    assert s.sent + Pending(s) == s.sent;
  }

  lemma {:induction false} RunSeesMerge(r: NodeRun)
    requires I.IsRun(r.config, r.states, r.steps) && I.WellFormed(r.config) && r.states[|r.steps|].phase.Closing?
    ensures Delivered(r) == Merge(r.config.histories)
  {
    I.DeliveryIsPrefixOfMerge(r.config, r.states, r.steps, |r.steps|);
  }

  lemma {:induction false} RunSeesPrefix(r: NodeRun, k: nat)
    requires I.IsRun(r.config, r.states, r.steps) && I.WellFormed(r.config) && k < |r.states|
    ensures I.WithPackets(r.states[k].delivered) <= Merge(r.config.histories)
  {
    I.DeliveryIsPrefixOfMerge(r.config, r.states, r.steps, k);
  }

  lemma {:induction false} OutputSendsPrefix(r: OutputRun, j: nat)
    requires O.IsRun(r.spec, r.states, r.steps) && j < |r.states|
    ensures r.states[j].sent <= Emitted(r.steps)
  {
    SentIsEmitted(r.spec, r.states, r.steps, j);
    EmittedGrows(r.steps, j);
  }

  lemma {:induction false} NodeOf(a: Analysis, calcs: seq<seq<Writer>>, given: seq<seq<Packet>>, e: Execution,
                                  k: nat, v: nat)
    requires Sized(a, calcs, given, e) && v < k <= |a.graph.nodes| && HaveRun(a, calcs, given, e, k)
    ensures NodeHasRun(a, calcs, given, e, v)
    decreases k
  {
    if v < k - 1 { NodeOf(a, calcs, given, e, k - 1, v); }
  }

  ghost predicate Agrees(a: Analysis, given: seq<seq<Packet>>, e: Execution, hs: seq<seq<Packet>>, u: nat)
    requires |given| == |a.outs| == |e.outputs|
  {
    u < |a.outs| && u < |hs| && History(a, given, e, u) == hs[u] && IsLegal(hs[u])
  }

  ghost predicate AllAgree(a: Analysis, given: seq<seq<Packet>>, e: Execution, hs: seq<seq<Packet>>)
    requires |given| == |a.outs| == |e.outputs|
  {
    forall u :: 0 <= u < |hs| ==> Agrees(a, given, e, hs, u)
  }

  lemma {:induction false} NodeReadsMeaning(a: Analysis, calcs: seq<seq<Writer>>, given: seq<seq<Packet>>, e: Execution,
                                            v: nat, hs: seq<seq<Packet>>)
    requires Sized(a, calcs, given, e) && v < |a.graph.nodes|
    requires NodeIsRun(a, calcs, given, e, v) && |hs| == |Outs(a.graph, v)| && AllAgree(a, given, e, hs)
    ensures e.nodes[v].config.histories == ReadBy(a, calcs, v, hs) && I.WellFormed(e.nodes[v].config)
  {
    var c, read := e.nodes[v].config, ReadBy(a, calcs, v, hs);
    forall j | 0 <= j < |read| ensures c.histories[j] == read[j] && IsLegal(read[j]) {
      ReadsEarlier(a, calcs, v, j);
      assert Agrees(a, given, e, hs, EdgeOf(a, v, j).upstream);
    }
  }

  /** What node `v` adds to the histories of the edges before it. */
  ghost function NextHistories(a: Analysis, calcs: seq<seq<Writer>>, given: seq<seq<Packet>>, v: nat,
                               hs: seq<seq<Packet>>): (more: seq<seq<Packet>>)
    requires Fits(a, calcs) && |given| == |AllOuts(a.graph)| && v < |a.graph.nodes| && |hs| == |Outs(a.graph, v)|
    ensures |more| == |a.graph.nodes[v].outputs|
  {
    if a.graph.nodes[v].inputs == [] then SourceWrites(a, v, given)
    else NodeWrites(calcs[v], Merge(ReadBy(a, calcs, v, hs)))
  }

  lemma {:induction false} NodeAgrees(a: Analysis, calcs: seq<seq<Writer>>, given: seq<seq<Packet>>, e: Execution,
                                      v: nat, i: nat, hs: seq<seq<Packet>>)
    requires Sized(a, calcs, given, e) && v < |a.graph.nodes| && i < |calcs[v]|
    requires NodeIsRun(a, calcs, given, e, v) && |hs| == |Outs(a.graph, v)| && AllAgree(a, given, e, hs)
    requires |hs| + i < |a.outs| && OutputIsRun(e.outputs[|hs| + i], calcs[v][i], Delivered(e.nodes[v]))
    ensures var h := Emitted(e.outputs[|hs| + i].steps);
            h == NodeWrites(calcs[v], Merge(ReadBy(a, calcs, v, hs)))[i] && IsLegal(h)
  {
    NodeReadsMeaning(a, calcs, given, e, v, hs);
    RunSeesMerge(e.nodes[v]);
    EmittedIsLegal(e.outputs[|hs| + i]);
  }

  /** The next node's outputs agree if all edges before them do. */
  lemma {:induction false} NextAgrees(a: Analysis, calcs: seq<seq<Writer>>, given: seq<seq<Packet>>, e: Execution,
                                      v: nat, i: nat, hs: seq<seq<Packet>>)
    requires Sized(a, calcs, given, e) && v < |a.graph.nodes| && i < |calcs[v]|
    requires NodeHasRun(a, calcs, given, e, v) && |hs| == |Outs(a.graph, v)| && AllAgree(a, given, e, hs)
    ensures |hs| + i < |a.outs|
    ensures var h := History(a, given, e, |hs| + i); h == NextHistories(a, calcs, given, v, hs)[i] && IsLegal(h)
  {
    OutAt(a, calcs, v, i);
    assert OutputHasRun(a, calcs, given, e, v, i);
    if a.graph.nodes[v].inputs != [] { NodeAgrees(a, calcs, given, e, v, i, hs); }
  }

  lemma {:induction false} MoreAgree(a: Analysis, calcs: seq<seq<Writer>>, given: seq<seq<Packet>>, e: Execution,
                                     v: nat, hs: seq<seq<Packet>>)
    requires Sized(a, calcs, given, e) && v < |a.graph.nodes|
    requires NodeHasRun(a, calcs, given, e, v) && |hs| == |Outs(a.graph, v)| && AllAgree(a, given, e, hs)
    ensures AllAgree(a, given, e, hs + NextHistories(a, calcs, given, v, hs))
  {
    var more := NextHistories(a, calcs, given, v, hs);
    forall u: nat | u < |hs + more| ensures Agrees(a, given, e, hs + more, u) {
      if u < |hs| {
        assert Agrees(a, given, e, hs, u);
      } else {
        NextAgrees(a, calcs, given, e, v, u - |hs|, hs);
      }
    }
  }

  lemma {:induction false} InputsAgree(a: Analysis, calcs: seq<seq<Writer>>, given: seq<seq<Packet>>, e: Execution)
    requires Sized(a, calcs, given, e) && HaveRun(a, calcs, given, e, 0)
    ensures AllAgree(a, given, e, Meaning(a, calcs, given, 0))
  {
    var hs := Meaning(a, calcs, given, 0);
    forall u: nat | u < |hs| ensures Agrees(a, given, e, hs, u) { InputAt(a, calcs, u); }
  }

  lemma {:induction false} HistoriesAgree(a: Analysis, calcs: seq<seq<Writer>>, given: seq<seq<Packet>>, e: Execution,
                                          k: nat)
    requires Sized(a, calcs, given, e) && k <= |a.graph.nodes| && HaveRun(a, calcs, given, e, k)
    ensures AllAgree(a, given, e, Meaning(a, calcs, given, k))
    decreases k
  {
    if k == 0 {
      InputsAgree(a, calcs, given, e);
    } else {
      HistoriesAgree(a, calcs, given, e, k - 1);
      MoreAgree(a, calcs, given, e, k - 1, Meaning(a, calcs, given, k - 1));
    }
  }

  lemma {:induction false} FewerHaveRun(a: Analysis, calcs: seq<seq<Writer>>, given: seq<seq<Packet>>, e: Execution,
                                        k: nat, l: nat)
    requires Sized(a, calcs, given, e) && k <= l <= |a.graph.nodes| && HaveRun(a, calcs, given, e, l)
    ensures HaveRun(a, calcs, given, e, k)
    decreases l
  {
    if k < l { FewerHaveRun(a, calcs, given, e, k, l - 1); }
  }

  /** Determinism of a graph: in every complete execution, under every interleaving in its nodes and between
      them, each stream's history is what the reference meaning says. */
  lemma {:induction false} GraphIsDeterministic(a: Analysis, calcs: seq<seq<Writer>>, given: seq<seq<Packet>>,
                                                e: Execution, u: nat)
    requires IsExecution(a, calcs, given, e) && u < |a.outs|
    ensures History(a, given, e, u) == Meaning(a, calcs, given, |a.graph.nodes|)[u]
    ensures IsLegal(History(a, given, e, u))
  {
    HistoriesAgree(a, calcs, given, e, |a.graph.nodes|);
    assert Agrees(a, given, e, Meaning(a, calcs, given, |a.graph.nodes|), u);
  }

  /** So two complete executions on the same inputs agree on every stream. */
  lemma {:induction false} ExecutionsAgree(a: Analysis, calcs: seq<seq<Writer>>, given: seq<seq<Packet>>, e: Execution,
                                           e': Execution, u: nat)
    requires IsExecution(a, calcs, given, e) && IsExecution(a, calcs, given, e') && u < |a.outs|
    ensures History(a, given, e, u) == History(a, given, e', u)
  {
    GraphIsDeterministic(a, calcs, given, e, u);
    GraphIsDeterministic(a, calcs, given, e', u);
  }

  /** At every moment of it, what a node has been called with is a prefix of the merge-join of the histories that
      it reads. */
  lemma {:induction false} CallsArePrefix(a: Analysis, calcs: seq<seq<Writer>>, given: seq<seq<Packet>>, e: Execution,
                                          v: nat, k: nat)
    requires IsExecution(a, calcs, given, e) && v < |a.graph.nodes| && a.graph.nodes[v].inputs != []
    requires k < |e.nodes[v].states|
    ensures I.WithPackets(e.nodes[v].states[k].delivered) <= Merge(ReadBy(a, calcs, v, Meaning(a, calcs, given, v)))
  {
    NodeOf(a, calcs, given, e, |a.graph.nodes|, v);
    FewerHaveRun(a, calcs, given, e, v, |a.graph.nodes|);
    HistoriesAgree(a, calcs, given, e, v);
    NodeReadsMeaning(a, calcs, given, e, v, Meaning(a, calcs, given, v));
    RunSeesPrefix(e.nodes[v], k);
  }

  lemma {:induction false} SentIsPrefix(r: OutputRun, w: Writer, delivered: seq<InputSet>, j: nat)
    requires OutputIsRun(r, w, delivered) && j < |r.states|
    ensures r.states[j].sent <= Emitted(r.steps)
  {
    OutputSendsPrefix(r, j);
  }

  /** And what the readers of a stream have been sent is a prefix of its history. */
  lemma {:induction false} StreamsArePrefix(a: Analysis, calcs: seq<seq<Writer>>, given: seq<seq<Packet>>, e: Execution,
                                            v: nat, i: nat, j: nat)
    requires IsExecution(a, calcs, given, e) && v < |a.graph.nodes| && a.graph.nodes[v].inputs != [] && i < |calcs[v]|
    requires |Outs(a.graph, v)| + i < |a.outs| && j < |e.outputs[|Outs(a.graph, v)| + i].states|
    ensures var u := |Outs(a.graph, v)| + i;
            e.outputs[u].states[j].sent <= Meaning(a, calcs, given, |a.graph.nodes|)[u]
  {
    var u := |Outs(a.graph, v)| + i;
    OutAt(a, calcs, v, i);
    NodeOf(a, calcs, given, e, |a.graph.nodes|, v);
    assert OutputHasRun(a, calcs, given, e, v, i);
    SentIsPrefix(e.outputs[u], calcs[v][i], Delivered(e.nodes[v]), j);
    GraphIsDeterministic(a, calcs, given, e, u);
  }
}
