/** Side packets that get defined twice: a given packet whose name some generator declares too. */
module GeneratorClashes {
  import opened FiniteSets
  import opened Generators

  /** The generators not run before that declare a name of a given packet: if one runs, that packet is
      defined twice. */
  function Clashing(c: seq<Gen>, given: Packets, before: seq<bool>): set<nat>
    requires |before| == |c|
  {
    set g: nat | g < |c| && !before[g] && !(c[g].outputs !! given.Keys)
  }

  /** The generators with those made to deliver nothing. */
  function Clean(c: seq<Gen>, given: Packets, before: seq<bool>): (d: seq<Gen>)
    requires |before| == |c|
    ensures |d| == |c|
  {
    seq(|c|, g requires 0 <= g < |c| =>
      if g in Clashing(c, given, before) then Gen(c[g].inputs, {}, _ => map[]) else c[g])
  }

  function NoneRun(c: seq<Gen>): (before: seq<bool>)
    ensures |before| == |c|
  {
    seq(|c|, _ => false)
  }

  /** From the given packets some clashing generator becomes runnable, whatever the others deliver. */
  ghost predicate MustClash(c: seq<Gen>, given: Packets, before: seq<bool>)
    requires |before| == |c|
  {
    exists g: nat :: g in Clashing(c, given, before) && AlwaysRunnable(Clean(c, given, before), given, c[g])
  }

  ghost predicate AlwaysRunnable(d: seq<Gen>, given: Packets, gen: Gen) {
    forall q :: IsSolution(d, given, q) ==> Runnable(gen, q)
  }

  lemma {:induction false} CleanIsWellFormed(c: seq<Gen>, given: Packets, before: seq<bool>)
    requires WellFormed(c) && |before| == |c|
    ensures WellFormed(Clean(c, given, before))
  {}

  /** A clashing generator that runs is certain to run. */
  lemma {:induction false} ClashIsCertain(c: seq<Gen>, given: Packets, before: seq<bool>, p: Packets, g: nat)
    requires |before| == |c| && LeastInv(Clean(c, given, before), given, p)
    requires g in Clashing(c, given, before) && Runnable(c[g], p)
    ensures MustClash(c, given, before)
  {
    assert AlwaysRunnable(Clean(c, given, before), given, c[g]);
  }

  /** The packets of an execution in which nothing is defined twice. */
  ghost predicate Succeeds(c: seq<Gen>, given: Packets, before: seq<bool>, p: Packets)
    requires |before| == |c|
  {
    IsLeastSolution(c, given, p) && forall g :: g in Clashing(c, given, before) ==> !Runnable(c[g], p)
  }

  /** If no clashing generator gets runnable, it makes no difference that they deliver nothing. */
  lemma {:induction false} CleanIsEnough(c: seq<Gen>, given: Packets, before: seq<bool>, p: Packets)
    requires |before| == |c| && IsLeastSolution(Clean(c, given, before), given, p)
    requires forall g :: g in Clashing(c, given, before) ==> !Runnable(c[g], p)
    ensures Succeeds(c, given, before, p) && !MustClash(c, given, before)
  {
    var d := Clean(c, given, before);
    forall g | 0 <= g < |c| && Runnable(c[g], p) ensures Ran(c[g], p) { assert d[g] == c[g]; }
    forall q | IsSolution(c, given, q) ensures IsSolution(d, given, q) {
      forall g | 0 <= g < |d| && Runnable(d[g], q) ensures Ran(d[g], q) {
        if g !in Clashing(c, given, before) { assert Ran(c[g], q); }
      }
    }
  }

  // ---------- two phases ----------

  /** Every execution that starts from within a solution comes to a least one. */
  lemma {:induction false} LeastExists(c: seq<Gen>, given: Packets, p: Packets, q: Packets) returns (r: Packets)
    requires WellFormed(c) && LeastInv(c, given, p) && IsSolution(c, given, q)
    ensures IsLeastSolution(c, given, r)
    decreases |NotRan(c, p)|
  {
    if forall g :: 0 <= g < |c| && Runnable(c[g], p) ==> Ran(c[g], p) {
      r := p;
    } else {
      var g: nat :| g < |c| && Runnable(c[g], p) && !Ran(c[g], p);
      var p' := OneMoreRun(c, given, p, q, g);
      FewerNotRan(c, p, p', g);
      r := LeastExists(c, given, p', q);
    }
  }

  function NotRan(c: seq<Gen>, p: Packets): set<nat> {
    set g: nat | g < |c| && !Ran(c[g], p)
  }

  lemma {:induction false} FewerNotRan(c: seq<Gen>, p: Packets, q: Packets, g: nat)
    requires Within(p, q) && g < |c| && !Ran(c[g], p) && Ran(c[g], q)
    ensures |NotRan(c, q)| < |NotRan(c, p)|
  {
    forall h | h in NotRan(c, q) ensures h in NotRan(c, p) {
      if Ran(c[h], p) { RanStays(c[h], p, q); }
    }
    assert g in NotRan(c, p) && g !in NotRan(c, q);
    ProperSubsetIsSmaller(NotRan(c, q), NotRan(c, p), g);
  }

  lemma {:induction false} OneMoreRun(c: seq<Gen>, given: Packets, p: Packets, q: Packets, g: nat) returns (p': Packets)
    requires LeastInv(c, given, p) && IsSolution(c, given, q) && g < |c| && Runnable(c[g], p)
    ensures LeastInv(c, given, p') && Within(p, p') && Ran(c[g], p')
  {
    p' := p + c[g].generate(Values(c[g], p));
    forall r | IsSolution(c, given, r) ensures Within(p', r) {
      StillRunnable(c[g], p, r);
      assert Ran(c[g], r);
    }
    assert Within(p', q) && Within(p, q);
    StillRunnable(c[g], p, p');
  }

  /** What is not given was delivered by a generator that is runnable in the end. */
  lemma {:induction false} SomeoneDelivered(c: seq<Gen>, given: Packets, p: Packets, x: nat)
    requires WellFormed(c) && IsLeastSolution(c, given, p) && x in p && x !in given
    ensures exists g :: 0 <= g < |c| && Runnable(c[g], p) && x in c[g].outputs
  {
    if forall g :: 0 <= g < |c| && Runnable(c[g], p) ==> x !in c[g].outputs {
      var q := p - {x};
      forall g | 0 <= g < |c| && Runnable(c[g], q) ensures Ran(c[g], q) {
        StillRunnable(c[g], q, p);
        assert Ran(c[g], p);
      }
      assert IsSolution(c, given, q);
      assert false;
    }
  }

  /** The generators that a first phase with packets `p` has run. */
  function RunOn(c: seq<Gen>, p: Packets): (before: seq<bool>)
    ensures |before| == |c|
  {
    seq(|c|, g requires 0 <= g < |c| => Runnable(c[g], p))
  }

  ghost predicate TwoPhasesSucceed(c: seq<Gen>, a: Packets, b: Packets, p: Packets, q: Packets) {
    Succeeds(c, a, NoneRun(c), p) && p.Keys !! b.Keys && Succeeds(c, p + b, RunOn(c, p), q)
  }

  /** What the first phase runs declares nothing that is given in either phase. */
  lemma {:induction false} RunInFirst(c: seq<Gen>, a: Packets, b: Packets, p: Packets, q: Packets, g: nat)
    requires WellFormed(c) && TwoPhasesSucceed(c, a, b, p, q) && g < |c|
    ensures Runnable(c[g], p) ==> g !in Clashing(c, a + b, NoneRun(c))
  {
    if Runnable(c[g], p) {
      assert g !in Clashing(c, a, NoneRun(c)) && Ran(c[g], p);
      assert c[g].generate(Values(c[g], p)).Keys == c[g].outputs;
    }
  }

  lemma {:induction false} TwoAreOne(c: seq<Gen>, a: Packets, b: Packets, p: Packets, q: Packets)
    requires WellFormed(c) && a.Keys !! b.Keys && TwoPhasesSucceed(c, a, b, p, q)
    ensures Succeeds(c, a + b, NoneRun(c), q)
  {
    LeastOfLeast(c, a, b, p, q);
    forall g | g in Clashing(c, a + b, NoneRun(c)) ensures !Runnable(c[g], q) {
      RunInFirst(c, a, b, p, q, g);
      assert g in Clashing(c, p + b, RunOn(c, p));
    }
  }

  lemma {:induction false} OneHasFirst(c: seq<Gen>, a: Packets, b: Packets, p: Packets, q: Packets)
    requires WellFormed(c) && a.Keys !! b.Keys && Succeeds(c, a + b, NoneRun(c), q) && IsLeastSolution(c, a, p)
    ensures Succeeds(c, a, NoneRun(c), p) && p.Keys !! b.Keys && Within(p, q)
  {
    assert IsSolution(c, a, q);
    forall g | g in Clashing(c, a, NoneRun(c)) ensures !Runnable(c[g], p) {
      assert g in Clashing(c, a + b, NoneRun(c));
    }
    forall x | x in p ensures x !in b {
      if x !in a {
        SomeoneDelivered(c, a, p, x);
        var g :| 0 <= g < |c| && Runnable(c[g], p) && x in c[g].outputs;
        assert g !in Clashing(c, a + b, NoneRun(c));
      }
    }
  }

  lemma {:induction false} OneIsTwo(c: seq<Gen>, a: Packets, b: Packets, p: Packets, q: Packets)
    requires WellFormed(c) && a.Keys !! b.Keys && Succeeds(c, a + b, NoneRun(c), q) && IsLeastSolution(c, a, p)
    ensures TwoPhasesSucceed(c, a, b, p, q)
  {
    OneHasFirst(c, a, b, p, q);
    SecondIsLeast(c, a, b, p, q);
    forall g | g in Clashing(c, p + b, RunOn(c, p)) ensures !Runnable(c[g], q) {
      var x :| x in c[g].outputs && x in p + b;
      if x in a + b {
        assert g in Clashing(c, a + b, NoneRun(c));
      } else {
        SomeoneDelivered(c, a, p, x);
      }
    }
  }

  lemma {:induction false} SecondIsLeast(c: seq<Gen>, a: Packets, b: Packets, p: Packets, q: Packets)
    requires a.Keys !! b.Keys && p.Keys !! b.Keys && Within(p, q)
    requires IsLeastSolution(c, a, p) && IsLeastSolution(c, a + b, q)
    ensures IsLeastSolution(c, p + b, q)
  {
    forall r | IsSolution(c, p + b, r) ensures Within(q, r) { assert IsSolution(c, a + b, r); }
  }

  /** Initialising with some packets and setting a run up with the others succeeds exactly if one execution
      on all of them does, and then with the same packets. */
  lemma {:induction false} TwoPhasesSucceedAsOne(c: seq<Gen>, a: Packets, b: Packets, q: Packets)
    requires WellFormed(c) && a.Keys !! b.Keys
    ensures Succeeds(c, a + b, NoneRun(c), q) <==> exists p :: TwoPhasesSucceed(c, a, b, p, q)
  {
    if Succeeds(c, a + b, NoneRun(c), q) {
      assert IsSolution(c, a, q);
      var p := LeastExists(c, a, a, q);
      OneIsTwo(c, a, b, p, q);
    }
    if p :| TwoPhasesSucceed(c, a, b, p, q) {
      assert TwoPhasesSucceed(c, a, b, p, q);
      TwoAreOne(c, a, b, p, q);
    }
  }
}
