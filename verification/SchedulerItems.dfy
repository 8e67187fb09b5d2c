/** The priority order of the scheduler's queues. */
module SchedulerItems {
  /** `isOpen` marks the item that opens a node; `layer` and `order` matter for sources only. */
  datatype Item = Item(id: int, isSource: bool, isOpen: bool, layer: int, order: int)

  /** "This runs after that". */
  predicate RunsAfter(a: Item, b: Item) {
    if a.isOpen || b.isOpen then
      b.isOpen && (!a.isOpen || a.id > b.id)
    else if a.isSource then
      if !b.isSource then true
      else if a.layer != b.layer then a.layer > b.layer
      else if a.order != b.order then a.order > b.order
      else a.id > b.id
    else
      !b.isSource && a.id < b.id
  }

  /** The documented priorities as one key, smaller first: opening before processing; non-sources
      before sources; opened nodes by id; non-sources by descending id; sources by layer, then by
      their own order, then by id. */
  function Priority(a: Item): seq<int> {
    if a.isOpen then [0, a.id, 0, 0] else if !a.isSource then [1, -a.id, 0, 0] else [2, a.layer, a.order, a.id]
  }

  predicate Precedes(k: seq<int>, l: seq<int>) {
    k != [] && l != [] && (k[0] < l[0] || (k[0] == l[0] && Precedes(k[1..], l[1..])))
  }

  lemma {:induction false} RunsAfterIsPriority(a: Item, b: Item)
    ensures RunsAfter(a, b) <==> Precedes(Priority(b), Priority(a))
  {
    var k, l := Priority(b), Priority(a);
    assert Precedes(k, l) <==> k[0] < l[0] || (k[0] == l[0] && Precedes(k[1..], l[1..]));
    assert Precedes(k[1..], l[1..]) <==> k[1] < l[1] || (k[1] == l[1] && Precedes(k[2..], l[2..])) by {
      assert k[1..][1..] == k[2..] && l[1..][1..] == l[2..];
    }
    assert Precedes(k[2..], l[2..]) <==> k[2] < l[2] || (k[2] == l[2] && Precedes(k[3..], l[3..])) by {
      assert k[2..][1..] == k[3..] && l[2..][1..] == l[3..];
    }
    assert Precedes(k[3..], l[3..]) <==> k[3] < l[3];
  }

  /** A strict weak order, as a priority queue demands: and two items tie only if their keys are equal. */
  lemma {:induction false} RunsAfterIsStrictWeakOrder(a: Item, b: Item, c: Item)
    ensures !RunsAfter(a, a) && (RunsAfter(a, b) ==> !RunsAfter(b, a))
    ensures RunsAfter(a, b) && RunsAfter(b, c) ==> RunsAfter(a, c)
    ensures RunsAfter(a, c) ==> RunsAfter(a, b) || RunsAfter(b, c)
    ensures !RunsAfter(a, b) && !RunsAfter(b, a) <==> Priority(a) == Priority(b)
  {}

  /** What a priority queue may hand out next. */
  predicate IsTop(items: multiset<Item>, x: Item) {
    x in items && forall y :: y in items ==> !RunsAfter(x, y)
  }

  lemma {:induction false} TopExists(items: multiset<Item>) returns (x: Item)
    requires items != multiset{}
    ensures IsTop(items, x)
    decreases |items|
  {
    var y :| y in items;
    var rest := items - multiset{y};
    if rest == multiset{} {
      x := y;
    } else {
      var z := TopExists(rest);
      x := if RunsAfter(z, y) then y else z;
    }
    forall w | w in items ensures !RunsAfter(x, w) {
      assert w == y || w in rest;
    }
  }

  lemma {:induction false} Sizes(items: multiset<Item>, x: Item)
    ensures |items + multiset{x}| == |items| + 1
    ensures x in items ==> |items - multiset{x}| == |items| - 1
    ensures |items| == 0 <==> items == multiset{}
  {
    if x in items { assert items == items - multiset{x} + multiset{x}; }
  }

  /** A source gets its turn only when nothing but sources waits, none of a lower layer; a node is
      processed only when none waits to be opened. */
  lemma {:induction false} SourcesRunLast(items: multiset<Item>, x: Item, y: Item)
    requires IsTop(items, x) && y in items
    ensures !x.isOpen ==> !y.isOpen
    ensures !x.isOpen && x.isSource ==> y.isSource && x.layer <= y.layer
    ensures !x.isOpen && !x.isSource && !y.isSource ==> y.id <= x.id
  {}
}
