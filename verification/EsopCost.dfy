// What a minimizer works on: the number of literals of the cover, and the distances in it.
module EsopCost {
  import opened EsopRules
  import opened EsopCube
  import opened EsopLink
  import opened EsopPool
  import opened EsopStore
  import opened EsopCheck

  // The cubes below n of the cover, with the number of literals of each.
  ghost function Weight(a: seq<int>, cover: seq<nat>, n: nat): int
    requires n <= |a|
  {
    if n == 0 then 0 else (if n - 1 in cover then a[n - 1] else 0) + Weight(a, cover, n - 1)
  }

  // The literals of the whole cover.
  ghost function Lits(s: Store): int {
    Weight(s.a, s.cover, |s.a|)
  }

  lemma {:induction false} WeightSame(a: seq<int>, c: seq<nat>, b: seq<int>, d: seq<nat>, n: nat)
    requires n <= |a| == |b| && forall h: nat :: h < n ==> (h in d <==> h in c) && (h in c ==> b[h] == a[h])
    ensures Weight(b, d, n) == Weight(a, c, n)
  {
    if n > 0 { WeightSame(a, c, b, d, n - 1); }
  }

  // One more cube.
  lemma {:induction false} WeightMore(a: seq<int>, c: seq<nat>, b: seq<int>, d: seq<nat>, p: nat, n: nat)
    requires n <= |a| == |b| && p !in c && p < |a|
    requires forall h: nat :: h < n ==> (h in d <==> h in c || h == p) && (h in c ==> b[h] == a[h])
    ensures Weight(b, d, n) == Weight(a, c, n) + if p < n then b[p] else 0
  {
    if n > 0 { WeightMore(a, c, b, d, p, n - 1); }
  }

  lemma LitsSame(s: Store, t: Store)
    requires Alike(s, t) && |s.a| == |s.data|
    ensures Lits(t) == Lits(s)
  {
    WeightSame(s.a, s.cover, t.a, t.cover, |s.a|);
  }

  lemma LitsInserted(s: Store, p: nat)
    requires p !in s.cover && p < |s.a| && p < |s.info| && -1 <= s.list < |s.info|
    ensures Lits(Inserted(s, p)) == Lits(s) + s.a[p]
  {
    WeightMore(s.a, s.cover, s.a, [p] + s.cover, p, |s.a|);
  }

  lemma LitsWithout(a: seq<int>, cover: seq<nat>, k: nat)
    requires Distinct(cover) && k < |cover| && cover[k] < |a|
    ensures Weight(a, Without(cover, k), |a|) == Weight(a, cover, |a|) - a[cover[k]]
  {
    WithoutMembers(cover, k);
    WeightMore(a, Without(cover, k), a, cover, cover[k], |a|);
  }

  // A merge takes the other cube out and puts the merged one in.
  lemma LitsMerged(s: Store, t: Store, p: nat, c: Change, nv: nat, no: nat)
    requires Ok(s, nv, no, -1) && Out(s, p) && Merged(s, t, p, c)
    ensures |t.a| == |s.a| && p < |t.a| && Lits(t) == Lits(s) - c.prevQa + t.a[p]
    ensures forall h: nat :: h != p && h < |s.a| ==> t.a[h] == s.a[h]
  {
    var k: nat :| MergedAt(s, t, p, k, c);
    ListedDistinct(s.info, s.list, s.cover);
    LitsWithout(s.a, s.cover, k);
    WithoutMembers(s.cover, k);
    hide Ok, Listed, Chained;
    WeightMore(s.a, Without(s.cover, k), t.a, t.cover, p, |s.a|);
  }

  // ---- Distances in the cover ----

  ghost predicate FarApart(p: Prod, q: Prod) {
    |p.lits| == |q.lits| ==> Distance(p, q) >= 2
  }

  // No cube of the cover could be merged with d.
  ghost predicate FarFrom(s: Store, d: Prod) {
    forall h: nat :: h in s.cover && h < |s.data| ==> FarApart(d, s.data[h])
  }

  // No two cubes of the cover could be merged.
  ghost predicate Spread(s: Store) {
    forall g: nat, h: nat :: g in s.cover && h in s.cover && g != h && g < |s.data| && h < |s.data| ==>
        FarApart(s.data[g], s.data[h])
  }

  lemma {:induction false} DiffsBack(p: seq<nat>, q: seq<nat>, k: nat)
    requires k <= |p| == |q|
    ensures Diffs(q, p, k) == Diffs(p, q, k)
  {
    if k > 0 { DiffsBack(p, q, k - 1); }
  }

  lemma FarBack(p: Prod, q: Prod)
    ensures FarApart(p, q) <==> FarApart(q, p)
  {
    if |p.lits| == |q.lits| { DiffsBack(p.lits, q.lits, |p.lits|); }
  }

  lemma SpreadSame(s: Store, t: Store)
    requires Alike(s, t) && |s.a| == |s.data|
    ensures Spread(s) ==> Spread(t)
    ensures forall d :: FarFrom(s, d) ==> FarFrom(t, d)
  {
    hide FarApart;
  }

  // Fewer cubes, the others unchanged.
  lemma SpreadLess(s: Store, t: Store)
    requires Spread(s) && |t.data| == |s.data|
    requires forall h: nat :: h in t.cover ==> h in s.cover && (h < |s.data| ==> t.data[h] == s.data[h])
    ensures Spread(t)
  {
    hide FarApart;
  }

  // One more cube that is far from the others.
  lemma SpreadMore(s: Store, t: Store, p: nat)
    requires Spread(s) && p < |s.data| && FarFrom(s, s.data[p]) && t.data == s.data
    requires forall h: nat :: h in t.cover <==> h in s.cover || h == p
    ensures Spread(t)
  {
    hide FarApart;
    forall g: nat, h: nat | g in t.cover && h in t.cover && g != h && g < |t.data| && h < |t.data|
      ensures FarApart(t.data[g], t.data[h])
    {
      FarBack(t.data[g], t.data[h]);
    }
  }

  // ---- Distances in a group ----

  // Different rules give different values.
  lemma PickDiffers(r: nat, s: nat, a: nat, b: nat)
    requires 1 <= a <= 3 && 1 <= b <= 3 && a != b && r <= 2 && s <= 2 && r != s
    ensures Pick(r, a, b) != Pick(s, a, b)
  {
  }

  lemma PickOutsDiffers(r: nat, s: nat, a: seq<bool>, b: seq<bool>)
    requires |a| == |b| && a != b && true in a && true in b && r <= 2 && s <= 2 && r != s
    ensures PickOuts(r, a, b) != PickOuts(s, a, b)
  {
    var i :| 0 <= i < |a| && a[i];
    var j :| 0 <= j < |b| && b[j];
    assert ExorOuts(a, b)[i] != b[i] && ExorOuts(a, b)[j] != a[j];
  }

  // Two table cubes differ wherever their rules do.
  lemma RulesDiffer(p: Prod, q: Prod, dist: nat, k: nat, m: nat, i: nat, nv: nat, no: nat)
    requires Apart(p, q, dist, nv, no) && k < CubeCount(dist) && m < CubeCount(dist) && i < dist + 2
    requires |CubeRule(dist, k)| == |CubeRule(dist, m)| == dist + 2 && CubeRule(dist, k)[i] != CubeRule(dist, m)[i]
    ensures var ds := Diffs(p.lits, q.lits, nv);
      if i < |ds| then RuleProd(p, q, dist, k).lits[ds[i]] != RuleProd(p, q, dist, m).lits[ds[i]]
      else i == dist + 1 && RuleProd(p, q, dist, k).outs != RuleProd(p, q, dist, m).outs
  {
    RuleShape(dist, k);
    RuleShape(dist, m);
    hide CubeRule;
    var ds := Diffs(p.lits, q.lits, nv);
    if i < |ds| {
      DiffAll(p.lits, q.lits, nv, i);
      PickDiffers(CubeRule(dist, k)[i], CubeRule(dist, m)[i], p.lits[ds[i]], q.lits[ds[i]]);
    } else {
      PickOutsDiffers(CubeRule(dist, k)[i], CubeRule(dist, m)[i], p.outs, q.outs);
    }
  }

  // The two cubes of a group at distance two.
  lemma GroupFar(p: Prod, q: Prod, g: nat, nv: nat, no: nat)
    requires Apart(p, q, 0, nv, no) && g < GroupCount(0)
    ensures |GroupRule(0, g)| == 2 && GroupRule(0, g)[0] < CubeCount(0) && GroupRule(0, g)[1] < CubeCount(0)
    ensures FarApart(RuleProd(p, q, 0, GroupRule(0, g)[0]), RuleProd(p, q, 0, GroupRule(0, g)[1]))
  {
    hide RuleProd;
    var k, m := GroupRule(0, g)[0], GroupRule(0, g)[1];
    RulesDiffer(p, q, 0, k, m, 0, nv, no);
    RulesDiffer(p, q, 0, k, m, 1, nv, no);
    hide CubeRule, GroupRule;
    var ds, u, v := Diffs(p.lits, q.lits, nv), RuleProd(p, q, 0, k), RuleProd(p, q, 0, m);
    DiffPlace(u.lits, v.lits, nv, ds[0]);
    if |ds| == 2 { DiffPlace(u.lits, v.lits, nv, ds[1]); }
  }
}
