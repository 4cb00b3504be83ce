// A cover of three cubes that the minimizer makes smaller.
module EsopExample {
  import opened EsopRules
  import opened EsopCube
  import opened EsopLink
  import opened EsopStore
  import opened EsopCheck
  import opened EsopCost
  import opened EsopQueue
  import opened EsopGain
  import opened EsopTrace
  import opened EsopMain

  // x0 x1, its complement x0' x1', and x1 x2, over three variables.
  const First := Prod([2, 2, 3], [true])
  const Second := Prod([1, 1, 3], [true])
  const Third := Prod([3, 2, 2], [true])

  lemma ThreeDiffs(p: seq<nat>, q: seq<nat>)
    requires |p| == |q| == 3
    ensures Diffs(p, q, 3) == (if p[0] != q[0] then [0] else []) + (if p[1] != q[1] then [1] else []) +
      (if p[2] != q[2] then [2] else [])
  {
    assert Diffs(p, q, 0) == [];
    assert Diffs(p, q, 1) == if p[0] != q[0] then [0] else [];
    assert Diffs(p, q, 2) == Diffs(p, q, 1) + if p[1] != q[1] then [1] else [];
  }

  lemma Distances()
    ensures Distance(First, Second) == Distance(Second, First) == 2 == Distance(First, Third) == Distance(Third, First)
    ensures Distance(Second, Third) == Distance(Third, Second) == 3
  {
    ThreeDiffs(First.lits, Second.lits);
    ThreeDiffs(Second.lits, First.lits);
    ThreeDiffs(First.lits, Third.lits);
    ThreeDiffs(Third.lits, First.lits);
    ThreeDiffs(Second.lits, Third.lits);
    ThreeDiffs(Third.lits, Second.lits);
  }

  // Joining the first two cubes leaves x1, next to the third one; joining the first and the third leaves
  // x0' x1, next to the second one.
  lemma Linked()
    ensures Distance(First, Second) == Distance(Second, First) == 2 == Distance(First, Third) == Distance(Third, First)
    ensures RuleProd(First, Second, 0, 0).lits == RuleProd(Second, First, 0, 1).lits == [3, 2, 3]
    ensures RuleProd(First, Third, 0, 0).lits == RuleProd(Third, First, 0, 1).lits == [1, 2, 3]
    ensures RuleProd(First, Second, 0, 0).outs == RuleProd(Second, First, 0, 1).outs == [true]
    ensures RuleProd(First, Third, 0, 0).outs == RuleProd(Third, First, 0, 1).outs == [true]
  {
    Distances();
    ThreeDiffs(First.lits, Second.lits);
    ThreeDiffs(Second.lits, First.lits);
    ThreeDiffs(First.lits, Third.lits);
    ThreeDiffs(Third.lits, First.lits);
  }

  lemma Near()
    ensures Distance(First, Second) == Distance(Second, First) == 2 == Distance(First, Third) == Distance(Third, First)
    ensures Distance(RuleProd(First, Second, 0, 0), Third) < 2 && Distance(RuleProd(Second, First, 0, 1), Third) < 2
    ensures Distance(RuleProd(First, Third, 0, 0), Second) < 2 && Distance(RuleProd(Third, First, 0, 1), Second) < 2
  {
    hide RuleProd;
    Linked();
    ThreeDiffs([3, 2, 3], Third.lits);
    ThreeDiffs([1, 2, 3], Second.lits);
  }

  // The handles a, b and c of the three cubes.
  ghost predicate Three(s: Store, a: nat, b: nat, c: nat) {
    && s.cover == [c, b, a] && a < |s.data| && b < |s.data| && c < |s.data| && |s.data| == |s.info|
    && s.data[a] == First && s.data[b] == Second && s.data[c] == Third
  }

  // Cube k of the table for p1 and p2 is next to the cube h.
  lemma Improves(s: Store, p1: nat, p2: nat, k: nat, g: nat, i: nat, h: nat)
    requires Linkable(s, p1, p2, 0) && k < 4 && g < 2 && i < 2 && GroupRule(0, g)[i] == k
    requires h in s.cover && h != p1 && h != p2 && h < |s.data| && |s.data[h].lits| == |s.data[p1].lits|
    requires Distance(RuleProd(s.data[p1], s.data[p2], 0, k), s.data[h]) < 2
    ensures Improvable(s, p1, p2, 0)
  {
    hide Distance, RuleProd;
    GroupShape(0, g);
    hide GroupRule;
    assert LinkCube(s, p1, p2, 0, g, i) == RuleProd(s.data[p1], s.data[p2], 0, k);
    assert !FarRest(s, p1, p2, LinkCube(s, p1, p2, 0, g, i));
    assert CloseGroup(s, p1, p2, 0, g);
  }

  lemma ThreeRipe(s: Store, a: nat, b: nat, c: nat)
    requires Three(s, a, b, c)
    ensures Ripe(s)
  {
    hide Improvable, Distance;
    Distances();
    forall g: nat, h: nat | g in s.cover && h in s.cover && g != h && AtDistance(s, g, h, 0)
      ensures Improvable(s, g, h, 0)
    {
      PairImproves(s, a, b, c, g, h);
    }
    SomePair(s, a, b, c);
  }

  lemma SomePair(s: Store, a: nat, b: nat, c: nat)
    requires Three(s, a, b, c)
    ensures a in s.cover && b in s.cover && a != b && AtDistance(s, a, b, 0)
  {
    hide Distance;
    Distances();
  }

  lemma PairImproves(s: Store, a: nat, b: nat, c: nat, g: nat, h: nat)
    requires Three(s, a, b, c) && g in s.cover && h in s.cover && g != h && AtDistance(s, g, h, 0)
    ensures Improvable(s, g, h, 0)
  {
    hide Improvable, RuleProd, Distance;
    Distances();
    Near();
    if g == a && h == b {
      Improves(s, a, b, 0, 0, 0, c);
    } else if g == b && h == a {
      Improves(s, b, a, 1, 1, 1, c);
    } else if g == a && h == c {
      Improves(s, a, c, 0, 0, 0, b);
    } else if g == c && h == a {
      Improves(s, c, a, 1, 1, 1, b);
    }
  }

  // The terms of the three cubes.
  function Terms(): seq<Term> {
    [Term([Literal(0, false), Literal(1, false)], 0), Term([Literal(0, true), Literal(1, true)], 0),
     Term([Literal(1, false), Literal(2, false)], 0)]
  }

  lemma TermCubesAre()
    ensures CubeOf(Terms()[0], 3, 1) == First && CubeOf(Terms()[1], 3, 1) == Second && CubeOf(Terms()[2], 3, 1) == Third
  {
    assert OneOutput(0, 1) == [true];
  }

  lemma TermsApart()
    ensures TermsFar(Terms(), 3, 1)
  {
    hide CubeOf, Distance;
    TermCubesAre();
    Distances();
  }

  lemma StartCubes(v: View)
    requires Starts(v, Terms(), 3, 1)
    ensures CubesOf(v.st) == [Third, Second, First]
  {
    hide CubeOf, TermSum, SumOf, Spread, Complete, CubesOf, Still, TermsFar, Handles;
    TermsApart();
    TermCubesAre();
  }

  lemma StartQueue(v: View)
    requires Starts(v, Terms(), 3, 1)
    ensures |v.que| == 3 && v.outs == [0, 0, 0] && Still(v, v) && Complete(v.st, v.que[0], 0) && v.que[0].posIn < 64
  {
    hide CubeOf, TermSum, SumOf, Spread, Complete, CubesOf, Still, TermsFar, Handles;
    assert PairsOf(3) == PairsOf(2) + 2 == PairsOf(1) + 3 == 3;
  }

  lemma ThreeCubes(v: View)
    requires CubesOf(v.st) == [Third, Second, First] && Still(v, v)
    ensures |v.st.cover| == 3 && Three(v.st, v.st.cover[2], v.st.cover[1], v.st.cover[0])
  {
    hide Alike, Kin;
    var cubes := CubesOf(v.st);
    assert |cubes| == 3;
    assert v.st.cover == [v.st.cover[0], v.st.cover[1], v.st.cover[2]];
    assert cubes[0] == Third && cubes[1] == Second && cubes[2] == First;
  }

  // From these terms every run of the minimizer comes to fewer than three cubes.
  lemma FewerCubes(r: Reduction, v: View, w: View, quality: int, counted: bool, quantum: bool)
    requires Starts(v, Terms(), 3, 1) && Reduced(r, Setting(1, Places(3), quantum), v, w, quality, counted)
    ensures |w.st.cover| < 3
  {
    hide Reduced, Ripe, Complete, Starts, Three, Still, CubesOf;
    StartCubes(v);
    StartQueue(v);
    ThreeCubes(v);
    ThreeRipe(v.st, v.st.cover[2], v.st.cover[1], v.st.cover[0]);
    CoverShrinks(r, Setting(1, Places(3), quantum), v, w, quality, counted);
  }
}
