/** Packet types as a union-find forest: a type may be declared the same as another, and types that
    accept anything take over the type of what they are connected to. */
module PacketTypes {
  import opened Options

  /** Types live in one arena; `other` is the place of the type a link points to. */
  datatype TypeSpec = Unset | AnyType | NoType | Single(id: int) | OneOf(ids: seq<int>) | SameAs(other: nat)

  /** `rank` shows that following links ends: it falls along every link. */
  datatype Types = Types(specs: seq<TypeSpec>, rank: seq<nat>)

  predicate Forest(t: Types) {
    && |t.rank| == |t.specs|
    && forall i :: 0 <= i < |t.specs| && t.specs[i].SameAs? ==>
         t.specs[i].other < |t.specs| && t.rank[t.specs[i].other] < t.rank[i]
  }

  /** The end of the chain of links. */
  function GetSameAs(t: Types, i: nat): (r: nat)
    requires Forest(t) && i < |t.specs|
    ensures r < |t.specs| && !t.specs[r].SameAs?
    decreases t.rank[i]
  {
    if t.specs[i].SameAs? then GetSameAs(t, t.specs[i].other) else i
  }

  /** The rank only shows that the chain ends; it has no influence on where. */
  lemma {:induction false} RankDoesNotMatter(t: Types, u: Types, i: nat)
    requires Forest(t) && Forest(u) && t.specs == u.specs && i < |t.specs|
    ensures GetSameAs(t, i) == GetSameAs(u, i)
    decreases t.rank[i]
  {
    if t.specs[i].SameAs? { RankDoesNotMatter(t, u, t.specs[i].other); }
  }

  function SetSpec(t: Types, i: nat, spec: TypeSpec): Types
    requires i < |t.specs|
  {
    t.(specs := t.specs[i := spec])
  }

  /** Root `r` goes below all others. */
  function Lowered(rank: seq<nat>, r: nat): seq<nat> {
    seq(|rank|, k requires 0 <= k < |rank| => if k == r then 0 else rank[k] + 1)
  }

  /** Type `i` is declared the same as type `j`; a type that would then be the same as itself accepts
      anything. */
  function SetSameAs(t: Types, i: nat, j: nat): (u: Types)
    requires Forest(t) && i < |t.specs| && j < |t.specs|
    ensures Forest(u) && |u.specs| == |t.specs|
  {
    var r := GetSameAs(t, j);
    if r == i then SetSpec(t, i, AnyType) else Types(t.specs[i := SameAs(r)], Lowered(t.rank, r))
  }

  // ---------- any sequence of calls ----------

  datatype Call =
    | MakeAny(i: nat) | MakeNone(i: nat) | MakeSingle(i: nat, id: int) | MakeOneOf(i: nat, ids: seq<int>)
    | MakeSame(i: nat, j: nat)

  predicate InRange(t: Types, call: Call) {
    call.i < |t.specs| && (call.MakeSame? ==> call.j < |t.specs|)
  }

  function Perform(t: Types, call: Call): (u: Types)
    requires Forest(t) && InRange(t, call)
    ensures Forest(u) && |u.specs| == |t.specs|
  {
    match call
    case MakeAny(i) => SetSpec(t, i, AnyType)
    case MakeNone(i) => SetSpec(t, i, NoType)
    case MakeSingle(i, id) => SetSpec(t, i, Single(id))
    case MakeOneOf(i, ids) => SetSpec(t, i, OneOf(ids))
    case MakeSame(i, j) => SetSameAs(t, i, j)
  }

  /** What every type's chain of links ends in after one of them is redirected: chains that passed
      through it end where it now ends, all others end where they did. */
  ghost predicate PassesThrough(t: Types, k: nat, i: nat)
    requires Forest(t) && k < |t.specs|
    decreases t.rank[k]
  {
    k == i || (t.specs[k].SameAs? && PassesThrough(t, t.specs[k].other, i))
  }

  lemma {:induction false} SetSameAsRedirects(t: Types, i: nat, j: nat, k: nat)
    requires Forest(t) && i < |t.specs| && j < |t.specs| && k < |t.specs|
    ensures GetSameAs(SetSameAs(t, i, j), k) == if PassesThrough(t, k, i) then GetSameAs(t, j) else GetSameAs(t, k)
    decreases t.rank[k]
  {
    if k != i && t.specs[k].SameAs? { SetSameAsRedirects(t, i, j, t.specs[k].other); }
  }

  lemma {:induction false} RootsPass(t: Types, k: nat, i: nat)
    requires Forest(t) && k < |t.specs| && i < |t.specs| && !t.specs[i].SameAs?
    ensures PassesThrough(t, k, i) <==> GetSameAs(t, k) == i
    decreases t.rank[k]
  {
    if k != i && t.specs[k].SameAs? { RootsPass(t, t.specs[k].other, i); }
  }

  // ---------- resolving Any types ----------

  /** An edge connects an input's type to the type of the output it reads. */
  datatype Edge = Edge(input: nat, output: nat)

  predicate Connects(t: Types, e: Edge) {
    e.input < |t.specs| && e.output < |t.specs|
  }

  predicate AllConnect(t: Types, es: seq<Edge>) {
    forall n :: 0 <= n < |es| ==> Connects(t, es[n])
  }

  function ResolveEdge(t: Types, e: Edge): (u: Types)
    requires Forest(t) && Connects(t, e)
    ensures Forest(u) && |u.specs| == |t.specs|
  {
    var inputRoot, outputRoot := GetSameAs(t, e.input), GetSameAs(t, e.output);
    if t.specs[inputRoot].AnyType? then SetSameAs(t, inputRoot, e.output)
    else if t.specs[outputRoot].AnyType? then SetSameAs(t, outputRoot, e.input)
    else t
  }

  function ResolveAll(t: Types, es: seq<Edge>): (u: Types)
    requires Forest(t) && AllConnect(t, es)
    ensures Forest(u) && |u.specs| == |t.specs|
  {
    if es == [] then t else
    var n := |es| - 1;
    var u := ResolveAll(t, es[..n]);
    assert Connects(t, es[n]);
    ResolveEdge(u, es[n])
  }

  /** What one root `i` taking over root `j` does to all roots. */
  ghost predicate Merged(t: Types, u: Types, i: nat, j: nat)
    requires Forest(t) && Forest(u) && |u.specs| == |t.specs|
  {
    && i < |t.specs| && j < |t.specs|
    && (forall k :: 0 <= k < |t.specs| ==> GetSameAs(u, k) == if GetSameAs(t, k) == i then j else GetSameAs(t, k))
    && forall k :: 0 <= k < |t.specs| && k != i ==> u.specs[k] == t.specs[k]
  }

  lemma {:induction false} SetSameAsMerges(t: Types, i: nat, j: nat)
    requires Forest(t) && i < |t.specs| && j < |t.specs| && t.specs[i].AnyType?
    ensures Merged(t, SetSameAs(t, i, j), i, GetSameAs(t, j))
    ensures GetSameAs(t, j) == i ==> SetSameAs(t, i, j) == t
  {
    forall k: nat | k < |t.specs|
      ensures GetSameAs(SetSameAs(t, i, j), k) == if GetSameAs(t, k) == i then GetSameAs(t, j) else GetSameAs(t, k)
    {
      SetSameAsRedirects(t, i, j, k);
      RootsPass(t, k, i);
    }
  }

  /** How the forest develops: types that share a root go on sharing it, and a root that does not
      accept just anything stays as it is. */
  ghost predicate Develops(t: Types, u: Types)
    requires Forest(t) && Forest(u)
  {
    && |u.specs| == |t.specs|
    && (forall k, l :: 0 <= k < |t.specs| && 0 <= l < |t.specs| && GetSameAs(t, k) == GetSameAs(t, l) ==>
          GetSameAs(u, k) == GetSameAs(u, l))
    && forall k :: 0 <= k < |t.specs| && !t.specs[GetSameAs(t, k)].AnyType? ==>
         GetSameAs(u, k) == GetSameAs(t, k) && u.specs[GetSameAs(t, k)] == t.specs[GetSameAs(t, k)]
  }

  lemma {:induction false} MergeDevelops(t: Types, u: Types, i: nat, j: nat)
    requires Forest(t) && Forest(u) && |u.specs| == |t.specs| && Merged(t, u, i, j) && t.specs[i].AnyType?
    ensures Develops(t, u)
  {}

  /** Both ends of the edge have the same type now, or neither accepts just anything. */
  predicate Agreed(t: Types, e: Edge)
    requires Forest(t) && Connects(t, e)
  {
    || GetSameAs(t, e.input) == GetSameAs(t, e.output)
    || (!t.specs[GetSameAs(t, e.input)].AnyType? && !t.specs[GetSameAs(t, e.output)].AnyType?)
  }

  lemma {:induction false} AgreementStays(t: Types, u: Types, e: Edge)
    requires Forest(t) && Forest(u) && Connects(t, e) && Develops(t, u) && Agreed(t, e)
    ensures Agreed(u, e)
  {}

  /** A tagging of types respects the links: every type has the tag of its root. */
  ghost predicate Respects(t: Types, tag: seq<int>)
    requires Forest(t)
  {
    |tag| == |t.specs| && forall k :: 0 <= k < |t.specs| ==> tag[GetSameAs(t, k)] == tag[k]
  }

  /** The step on one edge merges two roots or changes nothing. */
  lemma {:induction false} ResolveEdgeMerges(t: Types, e: Edge)
    requires Forest(t) && Connects(t, e)
    ensures var i, j, u := GetSameAs(t, e.input), GetSameAs(t, e.output), ResolveEdge(t, e);
            if t.specs[i].AnyType? then Merged(t, u, i, j)
            else if t.specs[j].AnyType? then Merged(t, u, j, i)
            else u == t
  {
    var i, j := GetSameAs(t, e.input), GetSameAs(t, e.output);
    if t.specs[i].AnyType? { SetSameAsMerges(t, i, e.output); }
    else if t.specs[j].AnyType? { SetSameAsMerges(t, j, e.input); }
  }

  lemma {:induction false} ResolveEdgeDevelops(t: Types, e: Edge)
    requires Forest(t) && Connects(t, e)
    ensures Develops(t, ResolveEdge(t, e))
  {
    var i, j, u := GetSameAs(t, e.input), GetSameAs(t, e.output), ResolveEdge(t, e);
    ResolveEdgeMerges(t, e);
    if t.specs[i].AnyType? {
      MergeDevelops(t, u, i, j);
    } else if t.specs[j].AnyType? {
      MergeDevelops(t, u, j, i);
    }
  }

  lemma {:induction false} ResolveEdgeAgrees(t: Types, e: Edge)
    requires Forest(t) && Connects(t, e)
    ensures Agreed(ResolveEdge(t, e), e)
  {
    ResolveEdgeMerges(t, e);
  }

  lemma {:induction false} ResolveEdgeRespects(t: Types, e: Edge, tag: seq<int>)
    requires Forest(t) && Connects(t, e) && Respects(t, tag) && tag[e.input] == tag[e.output]
    ensures Respects(ResolveEdge(t, e), tag)
  {
    ResolveEdgeMerges(t, e);
  }

  /** The tags agree along every edge. */
  predicate TagsEdges(t: Types, es: seq<Edge>, tag: seq<int>) {
    && |tag| == |t.specs| && AllConnect(t, es)
    && forall n :: 0 <= n < |es| ==> tag[es[n].input] == tag[es[n].output]
  }

  lemma {:induction false} PassDevelops(t: Types, es: seq<Edge>)
    requires Forest(t) && AllConnect(t, es)
    ensures Develops(t, ResolveAll(t, es))
    decreases |es|
  {
    if es != [] {
      var n := |es| - 1;
      PassDevelops(t, es[..n]);
      ResolveEdgeDevelops(ResolveAll(t, es[..n]), es[n]);
      DevelopsFurther(t, ResolveAll(t, es[..n]), ResolveAll(t, es));
    }
  }

  lemma {:induction false} NextEdgeKeepsAgreement(u: Types, next: Edge, e: Edge)
    requires Forest(u) && Connects(u, next) && Connects(u, e) && Agreed(u, e)
    ensures Agreed(ResolveEdge(u, next), e)
  {
    ResolveEdgeDevelops(u, next);
    AgreementStays(u, ResolveEdge(u, next), e);
  }

  lemma {:induction false} PassAgrees(t: Types, es: seq<Edge>, m: nat)
    requires Forest(t) && m < |es| && AllConnect(t, es)
    ensures Agreed(ResolveAll(t, es), es[m])
    decreases |es|
  {
    var n := |es| - 1;
    var u := ResolveAll(t, es[..n]);
    if m == n {
      ResolveEdgeAgrees(u, es[n]);
    } else {
      assert es[..n][m] == es[m];
      PassAgrees(t, es[..n], m);
      NextEdgeKeepsAgreement(u, es[n], es[m]);
    }
  }

  lemma {:induction false} PassRespects(t: Types, es: seq<Edge>, tag: seq<int>)
    requires Forest(t) && Respects(t, tag) && TagsEdges(t, es, tag)
    ensures Respects(ResolveAll(t, es), tag)
    decreases |es|
  {
    if es != [] {
      var n := |es| - 1;
      PassRespects(t, es[..n], tag);
      ResolveEdgeRespects(ResolveAll(t, es[..n]), es[n], tag);
    }
  }

  /** After one pass, in any order of the edges, both ends of every edge share a root or neither root
      accepts just anything; types are only merged along links and edges, so that tags constant along
      both are constant on what was merged; and a type that was known keeps its root. */
  lemma {:induction false} OnePassResolves(t: Types, es: seq<Edge>)
    requires Forest(t) && AllConnect(t, es)
    ensures forall n :: 0 <= n < |es| ==> Agreed(ResolveAll(t, es), es[n])
    ensures Develops(t, ResolveAll(t, es))
    ensures forall tag :: Respects(t, tag) && TagsEdges(t, es, tag) ==> Respects(ResolveAll(t, es), tag)
  {
    forall n | 0 <= n < |es| ensures Agreed(ResolveAll(t, es), es[n]) { PassAgrees(t, es, n); }
    PassDevelops(t, es);
    forall tag | Respects(t, tag) && TagsEdges(t, es, tag) ensures Respects(ResolveAll(t, es), tag) {
      PassRespects(t, es, tag);
    }
  }

  lemma {:induction false} DevelopsFurther(t: Types, u: Types, v: Types)
    requires Forest(t) && Forest(u) && Forest(v) && Develops(t, u) && Develops(u, v)
    ensures Develops(t, v)
  {}

  predicate Linked(size: nat, inputs: seq<nat>, upstream: seq<int>, outputs: seq<nat>) {
    && |upstream| == |inputs|
    && (forall k :: 0 <= k < |inputs| ==> inputs[k] < size && -1 <= upstream[k] < |outputs|)
    && forall k :: 0 <= k < |outputs| ==> outputs[k] < size
  }

  /** The connected edges, in the order of the inputs. */
  function Edges(size: nat, inputs: seq<nat>, upstream: seq<int>, outputs: seq<nat>): (es: seq<Edge>)
    requires Linked(size, inputs, upstream, outputs)
    ensures forall n :: 0 <= n < |es| ==> es[n].input < size && es[n].output < size
  {
    if inputs == [] then [] else
    var k := |inputs| - 1;
    Edges(size, inputs[..k], upstream[..k], outputs)
      + if upstream[k] == -1 then [] else [Edge(inputs[k], outputs[upstream[k]])]
  }

  lemma {:induction false} ResolveNext(t: Types, es: seq<Edge>, e: Edge)
    requires Forest(t) && AllConnect(t, es) && Connects(t, e)
    ensures AllConnect(t, es + [e]) && ResolveAll(t, es + [e]) == ResolveEdge(ResolveAll(t, es), e)
  {
    assert (es + [e])[..|es|] == es;
  }

  lemma {:induction false} NextEdge(size: nat, inputs: seq<nat>, upstream: seq<int>, outputs: seq<nat>, k: nat)
    requires Linked(size, inputs, upstream, outputs) && k < |inputs|
    ensures Linked(size, inputs[..k], upstream[..k], outputs)
        && Linked(size, inputs[..k + 1], upstream[..k + 1], outputs)
    ensures Edges(size, inputs[..k + 1], upstream[..k + 1], outputs)
         == Edges(size, inputs[..k], upstream[..k], outputs)
            + if upstream[k] == -1 then [] else [Edge(inputs[k], outputs[upstream[k]])]
  {
    assert inputs[..k + 1][..k] == inputs[..k] && upstream[..k + 1][..k] == upstream[..k];
  }

  // ---------- consistency ----------

  function TypeSpan(spec: TypeSpec): seq<int> {
    match spec
    case Single(id) => [id]
    case OneOf(ids) => ids
    case _ => []
  }

  predicate HaveCommonType(a: seq<int>, b: seq<int>) {
    exists x :: x in a && x in b
  }

  predicate IsSpecial(spec: TypeSpec) {
    spec.AnyType? || spec.NoType?
  }

  predicate AcceptsSpec(special: TypeSpec, spec: TypeSpec) {
    special.AnyType? || IsSpecial(spec)
  }

  /** `IsConsistentWith` on two roots. */
  predicate IsConsistentWith(a: TypeSpec, b: TypeSpec) {
    if TypeSpan(a) != [] && TypeSpan(b) != [] then HaveCommonType(TypeSpan(a), TypeSpan(b))
    else if IsSpecial(a) then AcceptsSpec(a, b)
    else if IsSpecial(b) then AcceptsSpec(b, a)
    else false
  }

  /** `Validate` of a packet that stores type `content`, or is empty, against a root. */
  predicate Accepts(spec: TypeSpec, content: Option<int>) {
    content.Some? &&
    match spec
    case Single(id) => content.value == id
    case OneOf(ids) => content.value in ids
    case AnyType => true
    case _ => false
  }

  predicate IsDefinite(spec: TypeSpec) {
    spec.Single? || spec.AnyType? || (spec.OneOf? && spec.ids != [])
  }

  lemma {:induction false} CommonPacketIsConsistent(a: TypeSpec, b: TypeSpec, p: Option<int>)
    requires Accepts(a, p) && Accepts(b, p)
    ensures IsConsistentWith(a, b)
  {
    if !a.AnyType? && !b.AnyType? {
      var x := p.value;
      assert x in TypeSpan(a) && x in TypeSpan(b);
      assert HaveCommonType(TypeSpan(a), TypeSpan(b));
      assert TypeSpan(a) != [] && TypeSpan(b) != [];
    }
  }

  lemma {:induction false} ConsistentHaveCommonPacket(a: TypeSpec, b: TypeSpec) returns (p: Option<int>)
    requires IsConsistentWith(a, b) && IsDefinite(a) && IsDefinite(b)
    ensures Accepts(a, p) && Accepts(b, p)
  {
    if a.AnyType? {
      p := Some(if b.AnyType? then 0 else TypeSpan(b)[0]);
    } else if b.AnyType? {
      p := Some(TypeSpan(a)[0]);
    } else {
      var x :| x in TypeSpan(a) && x in TypeSpan(b);
      p := Some(x);
    }
  }

  /** Consistency is symmetric, and for types that accept some packet it says that some packet is
      accepted by both; the empty type is consistent with itself and with Any only. */
  lemma {:induction false} ConsistencyMeansCommonPackets(a: TypeSpec, b: TypeSpec)
    ensures IsConsistentWith(a, b) == IsConsistentWith(b, a)
    ensures IsDefinite(a) && IsDefinite(b) ==> (IsConsistentWith(a, b) <==> exists p :: Accepts(a, p) && Accepts(b, p))
    ensures a.NoType? ==> (IsConsistentWith(a, b) <==> IsSpecial(b))
  {
    if IsDefinite(a) && IsDefinite(b) && IsConsistentWith(a, b) {
      var p := ConsistentHaveCommonPacket(a, b);
    }
    forall p | Accepts(a, p) && Accepts(b, p) ensures IsConsistentWith(a, b) { CommonPacketIsConsistent(a, b, p); }
  }
}

/** All packet types of a graph as one object. */
module PacketTypeObjects {
  import T = PacketTypes

  class PacketTypeArena {
    var specs: seq<T.TypeSpec>
    ghost var rank: seq<nat>

    ghost function Contents(): T.Types
      reads this
    {
      T.Types(specs, rank)
    }

    ghost predicate Valid()
      reads this
    {
      T.Forest(Contents())
    }

    constructor (size: nat)
      ensures Valid() && |specs| == size && forall i :: 0 <= i < size ==> specs[i] == T.Unset
    {
      specs := seq(size, _ => T.Unset);
      rank := seq(size, _ => 0);
    }

    /** Follows links to their end. */
    method GetSameAs(i: nat) returns (root: nat)
      requires Valid() && i < |specs|
      ensures root == T.GetSameAs(Contents(), i)
      decreases rank[i]
    {
      if !specs[i].SameAs? { return i; }
      root := GetSameAs(specs[i].other);
    }

    method SetAny(i: nat)
      requires Valid() && i < |specs|
      modifies this`specs
      ensures Valid() && Contents() == T.Perform(old(Contents()), T.MakeAny(i))
    {
      specs := specs[i := T.AnyType];
    }

    method SetNone(i: nat)
      requires Valid() && i < |specs|
      modifies this`specs
      ensures Valid() && Contents() == T.Perform(old(Contents()), T.MakeNone(i))
    {
      specs := specs[i := T.NoType];
    }

    method SetSameAs(i: nat, j: nat)
      requires Valid() && i < |specs| && j < |specs|
      modifies this
      ensures Valid() && Contents() == T.SetSameAs(old(Contents()), i, j)
    {
      var sameAs := GetSameAs(j);
      if sameAs == i {
        SetAny(i);
        return;
      }
      specs := specs[i := T.SameAs(sameAs)];
      rank := T.Lowered(rank, sameAs);
    }

    /** `upstream[k]` is the place in `outputs` of the output that input `k` reads, or -1. */
    method ResolveAnyTypes(inputs: seq<nat>, upstream: seq<int>, outputs: seq<nat>)
      requires Valid() && T.Linked(|specs|, inputs, upstream, outputs)
      modifies this
      ensures Valid() && Contents() == T.ResolveAll(old(Contents()), T.Edges(|old(specs)|, inputs, upstream, outputs))
    {
      ghost var before := Contents();
      var k := 0;
      ghost var size: nat, es: seq<T.Edge> := |specs|, [];
      while k < |inputs|
        invariant k <= |inputs| && Valid() && |specs| == size && T.Linked(size, inputs[..k], upstream[..k], outputs)
        invariant es == T.Edges(size, inputs[..k], upstream[..k], outputs)
        invariant T.AllConnect(before, es) && Contents() == T.ResolveAll(before, es)
      {
        T.NextEdge(size, inputs, upstream, outputs, k);
        if upstream[k] != -1 {
          T.ResolveNext(before, es, T.Edge(inputs[k], outputs[upstream[k]]));
          ResolveEdge(inputs[k], outputs[upstream[k]]);
          es := es + [T.Edge(inputs[k], outputs[upstream[k]])];
        }
        k := k + 1;
      }
      assert inputs[..k] == inputs && upstream[..k] == upstream;
    }

    method ResolveEdge(input: nat, output: nat)
      requires Valid() && input < |specs| && output < |specs|
      modifies this
      ensures Valid() && Contents() == T.ResolveEdge(old(Contents()), T.Edge(input, output))
    {
      var inputRoot := GetSameAs(input);
      var outputRoot := GetSameAs(output);
      if specs[inputRoot].AnyType? {
        SetSameAs(inputRoot, output);
      } else if specs[outputRoot].AnyType? {
        SetSameAs(outputRoot, input);
      }
    }
  }
}
