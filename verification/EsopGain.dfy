// What replacing a pair of cubes can gain, said of the cover alone.
module EsopGain {
  import opened EsopRules
  import opened EsopCube
  import opened EsopLink
  import opened EsopStore
  import opened EsopCheck
  import opened EsopCost
  import opened EsopPair

  // The cubes p1 and p2 have the distance of table d.
  ghost predicate Linkable(e: Store, p1: nat, p2: nat, d: nat) {
    && d < 3 && p1 < |e.data| && p2 < |e.data|
    && |e.data[p1].lits| == |e.data[p2].lits| && |e.data[p1].outs| == |e.data[p2].outs|
    && Distance(e.data[p1], e.data[p2]) == d + 2
  }

  // Cube k of the table, and the cube at place c of group g.
  ghost function TableCube(e: Store, p1: nat, p2: nat, d: nat, k: nat): Prod
    requires Linkable(e, p1, p2, d) && k < CubeCount(d)
  {
    RuleProd(e.data[p1], e.data[p2], d, k)
  }

  ghost function LinkCube(e: Store, p1: nat, p2: nat, d: nat, g: nat, c: nat): Prod
    requires Linkable(e, p1, p2, d) && g < GroupCount(d) && c < d + 2
  {
    GroupShape(d, g);
    TableCube(e, p1, p2, d, GroupRule(d, g)[c])
  }

  // No cube of the cover but the pair could be merged with x.
  ghost predicate FarRest(e: Store, p1: nat, p2: nat, x: Prod) {
    forall h: nat :: h in e.cover && h != p1 && h != p2 && h < |e.data| ==> FarApart(x, e.data[h])
  }

  // Some cube of group g could be merged with a cube of the rest of the cover.
  ghost predicate CloseGroup(e: Store, p1: nat, p2: nat, d: nat, g: nat)
    requires Linkable(e, p1, p2, d) && g < GroupCount(d)
  {
    exists c :: 0 <= c < d + 2 && !FarRest(e, p1, p2, LinkCube(e, p1, p2, d, g, c))
  }

  ghost predicate Improvable(e: Store, p1: nat, p2: nat, d: nat) {
    Linkable(e, p1, p2, d) && exists g :: 0 <= g < GroupCount(d) && CloseGroup(e, p1, p2, d, g)
  }

  // The literals of group g are fewer than those of the pair.
  ghost predicate Lighter(e: Store, p1: nat, p2: nat, d: nat, g: nat)
    requires Linkable(e, p1, p2, d) && g < GroupCount(d)
  {
    GroupLiterals(e.data[p1], e.data[p2], d, g, d + 2) < Literals(e.data[p1].lits) + Literals(e.data[p2].lits)
  }

  ghost predicate SomeLighter(e: Store, p1: nat, p2: nat, d: nat)
    requires Linkable(e, p1, p2, d)
  {
    exists g :: 0 <= g < GroupCount(d) && Lighter(e, p1, p2, d, g)
  }

  // The cubes among marks are far from the rest of the cover.
  ghost predicate MarkedFar(e: Store, p1: nat, p2: nat, d: nat, marks: set<nat>)
    requires Linkable(e, p1, p2, d)
  {
    forall k :: k in marks && k < CubeCount(d) ==> FarRest(e, p1, p2, TableCube(e, p1, p2, d, k))
  }

  // x can be merged with the cube q of the rest of the cover, and the result with no further one.
  ghost predicate Once(e: Store, p1: nat, p2: nat, x: Prod, q: nat) {
    && q in e.cover && q != p1 && q != p2 && q < |e.data| && |x.lits| == |e.data[q].lits|
    && |x.outs| == |e.data[q].outs| && Distance(x, e.data[q]) == 1
    && forall h: nat :: h in e.cover && h != p1 && h != p2 && h != q && h < |e.data| ==>
         FarApart(Joined(x, e.data[q]), e.data[h])
  }

  // The cube at place c of the group can be merged once, and then the group has more literals than the pair
  // and the cube it is merged with.
  ghost predicate HeavyAt(e: Store, p1: nat, p2: nat, g: nat, c: nat, q: nat)
    requires Linkable(e, p1, p2, 1) && g < GroupCount(1) && c < 3
  {
    var x := LinkCube(e, p1, p2, 1, g, c);
    && Once(e, p1, p2, x, q)
    && GroupLiterals(e.data[p1], e.data[p2], 1, g, 3) - Literals(x.lits) + Literals(Joined(x, e.data[q]).lits) >
         Literals(e.data[p1].lits) + Literals(e.data[p2].lits) + Literals(e.data[q].lits)
  }

  ghost predicate Heavy(e: Store, p1: nat, p2: nat, g: nat)
    requires Linkable(e, p1, p2, 1) && g < GroupCount(1)
  {
    exists c: nat, q: nat :: c < 3 && HeavyAt(e, p1, p2, g, c, q)
  }

  // Group g is not to be taken.
  ghost predicate LeftThree(e: Store, p1: nat, p2: nat, g: nat, counting: bool, quantum: bool)
    requires Linkable(e, p1, p2, 1) && g < GroupCount(1)
  {
    !CloseGroup(e, p1, p2, 1, g) || (counting && (quantum || Heavy(e, p1, p2, g)))
  }

  // What trying a pair at distance three comes to.
  ghost predicate TriedThree(e: Store, t: Store, p1: nat, p2: nat, taken: bool, counting: bool, quantum: bool) {
    && (taken ==> Improvable(e, p1, p2, 1))
    && (!counting ==> (taken <==> Improvable(e, p1, p2, 1)))
    && (Linkable(e, p1, p2, 1) && !taken ==>
          forall g :: 0 <= g < GroupCount(1) ==> LeftThree(e, p1, p2, g, counting, quantum))
    && (counting && !quantum && taken ==>
          |t.cover| < |e.cover| || (|t.cover| == |e.cover| && Lits(t) <= Lits(e)))
  }

  // What trying a pair at distance two comes to: e before and t after; counting: literals count, quantum: by
  // the quantum cost, which is not modelled.
  ghost predicate TriedTwo(e: Store, t: Store, p1: nat, p2: nat, taken: bool, counting: bool, quantum: bool) {
    && (|t.cover| < |e.cover| <==> Improvable(e, p1, p2, 0))
    && (taken ==> Linkable(e, p1, p2, 0))
    && (|t.cover| < |e.cover| ==> taken)
    && (!counting ==> (taken <==> Linkable(e, p1, p2, 0)))
    && (counting && !quantum && Linkable(e, p1, p2, 0) && |t.cover| >= |e.cover| ==>
          (taken <==> SomeLighter(e, p1, p2, 0)))
    && (counting && !quantum && taken ==>
          |t.cover| < |e.cover| || (|t.cover| == |e.cover| && Lits(t) < Lits(e)))
  }

  // Checking a group of four: c is the first cube that can be merged, with q, and -1 when none can; total is
  // the number of cubes gained. Marked cubes are not checked.
  datatype Trial = Trial(g: nat, marks: set<nat>, c: int, q: nat, total: nat)

  ghost predicate Checked(tr: Trial, d: nat)
    requires tr.g < GroupCount(2) && d < 4
  {
    GroupShape(2, tr.g);
    GroupRule(2, tr.g)[d] !in tr.marks
  }

  // y can be merged with no cube once x has been merged with q.
  ghost predicate FarAfter(e: Store, p1: nat, p2: nat, x: Prod, q: nat, y: Prod) {
    && q < |e.data| && |x.lits| == |e.data[q].lits| && |x.outs| == |e.data[q].outs|
    && FarApart(y, Joined(x, e.data[q]))
    && forall h: nat :: h in e.cover && h != p1 && h != p2 && h != q && h < |e.data| ==> FarApart(y, e.data[h])
  }

  // What the first n cubes of the group have come to.
  ghost predicate Looked(e: Store, p1: nat, p2: nat, tr: Trial, n: nat)
    requires Linkable(e, p1, p2, 2) && tr.g < GroupCount(2) && n <= 4
  {
    && -1 <= tr.c < n && (tr.c == -1 <==> tr.total == 0)
    && (forall d: nat :: d < n && (tr.c == -1 || d < tr.c) && Checked(tr, d) ==>
          FarRest(e, p1, p2, LinkCube(e, p1, p2, 2, tr.g, d)))
    && (tr.c >= 0 ==> Checked(tr, tr.c) && !FarRest(e, p1, p2, LinkCube(e, p1, p2, 2, tr.g, tr.c)))
    && (tr.total == 1 ==> var x := LinkCube(e, p1, p2, 2, tr.g, tr.c);
          && Once(e, p1, p2, x, tr.q)
          && forall d: nat :: tr.c < d < n && Checked(tr, d) ==>
               FarAfter(e, p1, p2, x, tr.q, LinkCube(e, p1, p2, 2, tr.g, d)))
  }

  // A group that is left has all its cubes marked but the one that could be merged.
  ghost function AfterMarks(tr: Trial): set<nat>
    requires tr.g < GroupCount(2)
  {
    GroupShape(2, tr.g);
    (tr.marks + set d | 0 <= d < 4 :: GroupRule(2, tr.g)[d]) -
    if 0 <= tr.c < 4 then {GroupRule(2, tr.g)[tr.c]} else {}
  }

  // Groups tried one after the other, none of them twice; only the last may gain two cubes or more.
  ghost predicate Trials(e: Store, p1: nat, p2: nat, trials: seq<Trial>)
    requires Linkable(e, p1, p2, 2)
  {
    && (forall i :: 0 <= i < |trials| ==> trials[i].g < GroupCount(2) && Looked(e, p1, p2, trials[i], 4))
    && (forall i :: 0 <= i < |trials| - 1 ==> trials[i].total < 2)
    && (forall i :: 0 <= i < |trials| ==> trials[i].marks == MarksBefore(trials, i))
    && forall i, j :: 0 <= i < j < |trials| ==> trials[i].g != trials[j].g
  }

  ghost function MarksBefore(trials: seq<Trial>, i: nat): set<nat> {
    if 0 < i <= |trials| && trials[i - 1].g < GroupCount(2) then AfterMarks(trials[i - 1]) else {}
  }

  ghost predicate Among(trials: seq<Trial>, g: nat) {
    exists i :: 0 <= i < |trials| && trials[i].g == g
  }

  // The trials end with a group that is taken, or when all groups have been tried.
  ghost predicate Ended(e: Store, t: Store, p1: nat, p2: nat, trials: seq<Trial>, taken: bool)
    requires Linkable(e, p1, p2, 2)
  {
    && trials != [] && Trials(e, p1, p2, trials) && var total := trials[|trials| - 1].total;
    && (taken <==> total >= 2) && (taken ==> |t.cover| + total <= |e.cover| + 2)
    && (!taken ==> forall g: nat :: g < GroupCount(2) ==> Among(trials, g))
  }

  // What trying a pair at distance four comes to.
  ghost predicate TriedFour(e: Store, t: Store, p1: nat, p2: nat, taken: bool) {
    (taken ==> Linkable(e, p1, p2, 2)) && (Linkable(e, p1, p2, 2) ==> exists trials ::
    Ended(e, t, p1, p2, trials, taken))
  }

  // A pair is replaced only when some cube of the table can be merged.
  lemma TakenFour(e: Store, t: Store, p1: nat, p2: nat, taken: bool)
    requires TriedFour(e, t, p1, p2, taken) && taken
    ensures Improvable(e, p1, p2, 2)
  {
    hide Linkable, FarRest, LinkCube, Once, FarAfter, Checked;
    var trials :| Ended(e, t, p1, p2, trials, taken);
    var tr := trials[|trials| - 1];
    assert Looked(e, p1, p2, tr, 4);
    assert CloseGroup(e, p1, p2, 2, tr.g);
  }

  // The cubes that are in both covers are the same.
  ghost predicate Kin(e: Store, t: Store) {
    && |t.info| == |e.info| && |t.data| == |e.data|
    && forall h: nat :: h in e.cover && h in t.cover && h < |e.data| && h < |e.info| ==>
         t.data[h] == e.data[h] && t.info[h].id == e.info[h].id
  }

  lemma KinSelf(e: Store)
    ensures Kin(e, e)
  {
  }

  // ---- While the pair is out ----

  // Only created cubes are marked, none of them was in the cover of e, and the others are as they were.
  ghost predicate Held(el: seq<int>, e: Store, s: Store) {
    && MarksIn(el, s, 0) && Kin(e, s)
    && forall k, h: nat :: 0 <= k < |el| && h in e.cover ==> el[k] != h
  }

  // A created cube has been given to the cover.
  lemma HeldStep(el: seq<int>, e: Store, s: Store, t: Store, k: nat)
    requires Held(el, e, s) && k < |el| && el[k] >= 0 && Steady(s, t, el[k])
    ensures Held(el, e, t)
  {
    MarksSame(Link(0, 0, 0, Prod([], []), Prod([], []), el, 0), s, t);
  }

  // The pair is that of e, and all cubes of the cover of e are as they were.
  ghost predicate Bound(l: Link, e: Store, s: Store) {
    && Held(l.el, e, s) && SameIds(e, s) && Linkable(e, l.pa, l.pb, l.dist) && l.pa in e.cover && l.pb in e.cover
    && l.da == e.data[l.pa] && l.db == e.data[l.pb]
  }

  // The cubes outside the cover of e.
  lemma Strangers(l: Link, e: Store, s: Store, both: bool, nv: nat, no: nat)
    requires Creating(l, s, both, nv, no)
    requires forall h: nat :: h in e.cover ==> h in s.cover || h == l.pa || h == l.pb
    ensures forall k, h: nat :: 0 <= k < |l.el| && h in e.cover ==> l.el[k] != h
  {
    hide RuleHeld, Ok, Outside, Roomy;
    forall k, h: nat | 0 <= k < |l.el| && h in e.cover ensures l.el[k] != h {
      if l.el[k] != -1 {
        NoneUsed(l, k);
        assert Made(l, s, k) && RuleHeld(l, s, k, nv, no);
        RuleOut(l, s, k, nv, no);
      }
    }
  }

  lemma RuleOut(l: Link, s: Store, k: nat, nv: nat, no: nat)
    requires RuleHeld(l, s, k, nv, no)
    ensures k < |l.el| && l.el[k] >= 0 && Out(s, l.el[k]) && l.el[k] != l.pa && l.el[k] != l.pb
  {
  }
}
