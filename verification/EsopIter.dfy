// The ExorLink iterator: it creates the cubes of one group after the other.
module EsopIter {
  import opened EsopRules
  import opened EsopCube
  import opened EsopLink
  import opened EsopPool
  import opened EsopStore
  import opened EsopCheck
  import opened EsopPair
  import opened EsopList

  // No group still to be visited has more literals.
  predicate Cheapest(visited: seq<bool>, costs: seq<nat>, best: int) {
    0 <= best < |costs| && forall i :: 0 <= i < |visited| && i < |costs| && !visited[i] ==> costs[i] <= costs[best]
  }

  // Created cubes stay.
  predicate Grown(e: seq<int>, f: seq<int>) {
    |e| == |f| && forall k :: 0 <= k < |e| && e[k] != -1 ==> f[k] == e[k]
  }

  // The first c cubes of a group exist.
  predicate Placed(group: seq<nat>, c: nat, el: seq<int>) {
    c <= |group| && forall i :: 0 <= i < c ==> group[i] < |el| && el[group[i]] != -1
  }

  lemma PlacedMore(group: seq<nat>, c: nat, el: seq<int>, f: seq<int>)
    requires Placed(group, c, el) && Grown(el, f) && c < |group| && group[c] < |f| && f[group[c]] != -1
    ensures Placed(group, c + 1, f)
  {
  }

  lemma PlacedKept(group: seq<nat>, c: nat, el: seq<int>, f: seq<int>)
    requires Placed(group, c, el) && Grown(el, f)
    ensures Placed(group, c, f)
  {
  }

  lemma StartPlaced(group: seq<nat>, el: seq<int>)
    ensures Placed(group, 0, el) && Grown(el, el)
  {
  }

  lemma GrownTwice(e: seq<int>, f: seq<int>, h: seq<int>)
    requires Grown(e, f) && Grown(f, h)
    ensures Grown(e, h)
  {
  }

  method AllCosts(p: Prod, q: Prod, starting: int, counts: seq<nat>, d: nat) returns (costs: seq<nat>)
    requires Counts(p, q, d, starting, counts)
    ensures d < 3 && Costs(counts, d, costs) && |costs| == GroupCount(d)
  {
    hide GroupRule, Counts;
    CountsShape(p, q, d, starting, counts);
    costs := [];
    for i := 0 to GroupCount(d)
      invariant |costs| == i && forall j :: 0 <= j < i ==> costs[j] == GroupCost(counts, d, j, d + 2)
    {
      costs := costs + [GroupCost(counts, d, i, d + 2)];
    }
  }

  predicate Costs(counts: seq<nat>, d: nat, costs: seq<nat>) {
    && d < 3 && |counts| == CubeCount(d) && |costs| == GroupCount(d)
    && forall i :: 0 <= i < GroupCount(d) ==> costs[i] == GroupCost(counts, d, i, d + 2)
  }

  class LinkIterator {
    var dist: nat
    var pa: nat                 // pCA
    var pb: nat                 // pCB
    var el: seq<int>            // ELCubes
    var g: nat                  // the last group
    var visited: seq<bool>      // VisitedGroups
    var starting: int           // StartingLiterals
    var counts: seq<nat>        // CubeLiterals
    var costs: seq<nat>         // GroupCosts
    ghost var da: Prod
    ghost var db: Prod

    constructor ()
    {
      dist, pa, pb, el, g, visited, starting, counts, costs := 0, 0, 0, [], 0, [], 0, [], [];
      da, db := Prod([], []), Prod([], []);
    }

    ghost function L(): Link
      reads this
    {
      Link(dist, pa, pb, da, db, el, g)
    }

    // The literals of the pair have been counted.
    ghost predicate Counted()
      reads this`da, this`db, this`dist, this`starting, this`counts, this`costs
    {
      Counts(da, db, dist, starting, counts) && Costs(counts, dist, costs)
    }

    // All cubes of the current group exist.
    ghost predicate GroupMade()
      reads this
    {
      dist < 3 && |el| == 32 && g < GroupCount(dist) && |GroupRule(dist, g)| == dist + 2 &&
      Placed(GroupRule(dist, g), dist + 2, el)
    }

    // Once a group has been visited its cubes stay.
    ghost predicate VisitedMade()
      reads this
    {
      dist < 3 && |el| == 32 && |visited| == |costs| == GroupCount(dist) && Counted() &&
      forall i :: 0 <= i < GroupCount(dist) && visited[i] ==> Placed(GroupRule(dist, i), |GroupRule(dist, i)|, el)
    }

    // Bring cube k from the free list and fill it.
    method CreateCube(s: Exorcism, k: nat, ghost both: bool)
      requires s.Valid() && s.Queues() && Creating(L(), s.St(), both, s.nv, s.no) && Counted() && dist < 3
      requires k < CubeCount(dist) && |el| == 32 && el[k] == -1
      modifies this`el, s`data, s`info, s`a, s`z, s`free, s`pool, s`nCubesFree, s`cIDs
      ensures s.Valid() && s.Queues() && Creating(L(), s.St(), both, s.nv, s.no) && s.cover == old(s.cover)
      ensures SameSum(old(s.St()), s.St()) && Fetched(old(s.St()), s.St())
      ensures |s.data| == |old(s.data)| && el == old(el)[k := el[k]] && el[k] != -1
    {
      hide Ok, Creating, SameSum, RuleProd, CubeRule, Counts, Fetched;
      PairContents(L(), s.St(), both, s.nv, s.no);
      CreatingRoom(L(), s.St(), both, k, s.nv, s.no);
      var p, q := s.data[pa], s.data[pb];
      var d := RuleProd(p, q, dist, k);
      CountedLiterals(p, q, dist, k, starting, counts, s.nv, s.no);
      RuleOuts(p, q, dist, k);
      var a := starting + counts[k];
      var z := if p.outs == q.outs then s.z[pa] else Ones(d.outs);
      MakeOk(L(), s.St(), k, a, z, s.cIDs, both, s.nv, s.no);
      CreatingOk(L().(el := el[k := s.free]), Filled(Taken(s.St()), s.free, d, a, z, s.cIDs), both, s.nv, s.no);
      CreatingOk(L(), s.St(), both, s.nv, s.no);
      FetchedOne(s.St(), d, a, z, s.cIDs, s.nv, s.no);
      Fill(s, k, d, a, z);
    }

    method Fill(s: Exorcism, k: nat, d: Prod, a: int, z: int)
      requires s.Valid() && s.Queues() && s.pool != [] && k < |el|
      requires 0 <= s.free < |s.info| == |s.data| == |s.a| == |s.z|
      requires Ok(Filled(Taken(s.St()), s.free, d, a, z, s.cIDs), s.nv, s.no, -1)
      modifies this`el, s`data, s`info, s`a, s`z, s`free, s`pool, s`nCubesFree, s`cIDs
      ensures s.Valid() && s.Queues() && s.St() == Filled(Taken(old(s.St())), old(s.free), d, a, z, old(s.cIDs))
      ensures el == old(el)[k := old(s.free)] && old(s.free) >= 0
    {
      var p := s.NewCube(d, a, z);
      el := el[k := p];
    }

    // Create the cubes of group g that do not exist yet.
    method CreateGroup(s: Exorcism, ghost both: bool)
      requires s.Valid() && s.Queues() && Counted() && Creating(L(), s.St(), both, s.nv, s.no)
      modifies this`el, s`data, s`info, s`a, s`z, s`free, s`pool, s`nCubesFree, s`cIDs
      ensures s.Valid() && s.Queues() && Creating(L(), s.St(), both, s.nv, s.no) && s.cover == old(s.cover)
      ensures SameSum(old(s.St()), s.St()) && Fetched(old(s.St()), s.St())
      ensures GroupMade() && |s.data| == |old(s.data)| && Grown(old(el), el)
    {
      hide Fetched, Ok, Creating, SameSum, GroupRule, CubeRule, Grown, Placed, Exorcism.Valid, Exorcism.Queues,
        LinkIterator.Counted;
      CreatingShape(L(), s.St(), both, s.nv, s.no);
      CreatingOk(L(), s.St(), both, s.nv, s.no);
      GroupShape(dist, g);
      SumSelf(s.St(), s.nv, s.no);
      FetchedSelf(s.St());
      var group := GroupRule(dist, g);
      StartPlaced(group, el);
      for c := 0 to dist + 2
        invariant s.Valid() && s.Queues() && Creating(L(), s.St(), both, s.nv, s.no) && s.cover == old(s.cover)
        invariant SameSum(old(s.St()), s.St()) && Fetched(old(s.St()), s.St())
        invariant |s.data| == |old(s.data)| && |el| == 32 && Grown(old(el), el) && Placed(group, c, el)
      {
        ghost var t, e := s.St(), el;
        CreateIfMissing(s, group[c], both);
        SumTwice(old(s.St()), t, s.St());
        FetchedTwice(old(s.St()), t, s.St());
        PlacedMore(group, c, e, el);
        GrownTwice(old(el), e, el);
      }
    }

    method CreateIfMissing(s: Exorcism, k: nat, ghost both: bool)
      requires s.Valid() && s.Queues() && Creating(L(), s.St(), both, s.nv, s.no) && Counted() && dist < 3
      requires k < CubeCount(dist) && |el| == 32
      modifies this`el, s`data, s`info, s`a, s`z, s`free, s`pool, s`nCubesFree, s`cIDs
      ensures s.Valid() && s.Queues() && Creating(L(), s.St(), both, s.nv, s.no) && s.cover == old(s.cover)
      ensures SameSum(old(s.St()), s.St()) && Fetched(old(s.St()), s.St())
      ensures |s.data| == |old(s.data)| && Grown(old(el), el) && |el| == 32 && el[k] != -1
    {
      hide Fetched, Ok, Creating, SameSum, GroupRule, CubeRule, Exorcism.Valid, Exorcism.Queues, LinkIterator.Counted;
      CreatingOk(L(), s.St(), both, s.nv, s.no);
      SumSelf(s.St(), s.nv, s.no);
      FetchedSelf(s.St());
      if el[k] == -1 {
        CreateCube(s, k, both);
      }
    }

    // The best group not visited yet.
    method BestGroup() returns (best: int)
      requires dist < 3 && |visited| == |costs| == GroupCount(dist)
      ensures best == -1 ==> forall i :: 0 <= i < GroupCount(dist) ==> visited[i]
      ensures best != -1 ==> 0 <= best < GroupCount(dist) && !visited[best] && Cheapest(visited, costs, best)
    {
      best := -1;
      for i := 0 to GroupCount(dist)
        invariant best == -1 ==> forall j :: 0 <= j < i ==> visited[j]
        invariant best != -1 ==> 0 <= best < i && !visited[best] && Cheapest(visited[..i], costs, best)
      {
        if !visited[i] && (best == -1 || costs[best] < costs[i]) {
          best := i;
        }
      }
    }

    // ExorLinkCubeIteratorStart: false when the distance is not the expected one.
    method Start(s: Exorcism, p1: nat, p2: nat, d: nat) returns (ok: bool)
      requires s.Valid() && s.Queues() && NoneOut(s.St()) && |s.pool| >= 32 && d < 3 && p1 in s.cover && p2 in s.cover
      modifies this, s`data, s`info, s`a, s`z, s`free, s`pool, s`nCubesFree, s`cIDs
      ensures s.Valid() && s.Queues() && s.cover == old(s.cover) && SameSum(old(s.St()), s.St())
      ensures |s.data| == |old(s.data)|
      ensures Fetched(old(s.St()), s.St())
      ensures p1 < |old(s.data)| && p2 < |old(s.data)| && |old(s.data)[p1].lits| == |old(s.data)[p2].lits|
      ensures ok <==> Distance(old(s.data)[p1], old(s.data)[p2]) == d + 2
      ensures !ok ==> s.St() == old(s.St())
      ensures ok ==> da == old(s.data)[p1] && db == old(s.data)[p2]
      ensures ok ==>
        Creating(L(), s.St(), false, s.nv, s.no) && GroupMade() && VisitedMade() && dist == d && pa == p1 && pb == p2
      ensures ok ==>
        g < |costs| == |visited| && (forall i :: 0 <= i < |visited| ==> (visited[i] <==> i == g)) && forall i ::
        0 <= i < |costs| ==> costs[i] <= costs[g]
    {
      hide SameSum, GroupRule, CubeRule, RuleProd, Creating, Grown, Placed, NoneOut, Fetched, Ok, Distance, Literals,
        Exorcism.Queues;
      FetchedSelf(s.St());
      CoverCube(s.St(), p1, s.nv, s.no);
      CoverCube(s.St(), p2, s.nv, s.no);
      SumSelf(s.St(), s.nv, s.no);
      if Distance(s.data[p1], s.data[p2]) != d + 2 {
        return false;
      }
      DifferentCubes(s.data, p1, p2);
      CoverLiterals(s.St(), p1, s.nv, s.no);
      Begin(s.data[p1], s.data[p2], p1, p2, d, s.a[p1], s.nv, s.no);
      StartCreating(L(), s.St(), s.nv, s.no);
      FirstGroup(s);
      ok := true;
    }

    // Remember the pair, compute the costs and choose the first group.
    method Begin(p: Prod, q: Prod, p1: nat, p2: nat, d: nat, a: int, ghost nv: nat, ghost no: nat)
      requires Apart(p, q, d, nv, no) && a == Literals(p.lits)
      modifies this
      ensures dist == d && pa == p1 && pb == p2 && da == p && db == q && |el| == 32
      ensures forall k :: 0 <= k < 32 ==> el[k] == -1
      ensures |visited| == |costs| == GroupCount(d) && (forall i :: 0 <= i < |visited| ==> !visited[i])
      ensures g < GroupCount(d)
      ensures Counted() && forall i :: 0 <= i < |costs| ==> costs[i] <= costs[g]
    {
      hide GroupRule, CubeRule, Counts, Apart, Costs, Literals;
      starting, counts := CountPair(p, q, d, a, nv, no);
      dist, pa, pb, da, db := d, p1, p2, p, q;
      el := seq(32, i => -1);
      visited := seq(GroupCount(d), i => false);
      costs := AllCosts(p, q, starting, counts, d);
      var best := BestGroup();
      assert !visited[0];
      g := best;
    }

    method FirstGroup(s: Exorcism)
      requires s.Valid() && s.Queues() && Counted() && Creating(L(), s.St(), false, s.nv, s.no) && dist < 3
      requires |el| == 32
      requires |visited| == |costs| == GroupCount(dist) && (forall i :: 0 <= i < |visited| ==> !visited[i])
      requires g < GroupCount(dist)
      modifies this`el, this`visited, s`data, s`info, s`a, s`z, s`free, s`pool, s`nCubesFree, s`cIDs
      ensures s.Valid() && s.Queues() && Creating(L(), s.St(), false, s.nv, s.no) && s.cover == old(s.cover)
      ensures SameSum(old(s.St()), s.St()) && Fetched(old(s.St()), s.St())
      ensures GroupMade() && VisitedMade() && |s.data| == |old(s.data)| && visited == old(visited)[g := true]
    {
      hide Fetched, Ok, Creating, SameSum, GroupRule, CubeRule, Grown, Placed, Exorcism.Valid, Exorcism.Queues;
      CreateGroup(s, false);
      visited := visited[g := true];
    }

    // ExorLinkCubeIteratorNext while the pair is out of the cover.
    method Next(s: Exorcism, ghost s0: Store) returns (ok: bool)
      requires s.Valid() && s.Queues() && Creating(L(), s.St(), true, s.nv, s.no)
      requires Pairing(L(), s0, s.St(), NoFlags(dist), 0, s.nv, s.no) && VisitedMade()
      modifies this`el, this`g, this`visited, s`data, s`info, s`a, s`z, s`free, s`pool, s`nCubesFree, s`cIDs
      ensures s.Valid() && s.Queues() && Creating(L(), s.St(), true, s.nv, s.no)
      ensures Pairing(L(), s0, s.St(), NoFlags(dist), 0, s.nv, s.no)
      ensures VisitedMade() && |s.data| == |old(s.data)| && SameSum(old(s.St()), s.St()) && s.cover == old(s.cover)
      ensures Fetched(old(s.St()), s.St()) && Grown(old(el), el)
      ensures ok ==>
        GroupMade() && g < |old(visited)| == |visited| && !old(visited)[g] && visited == old(visited)[g := true]
      ensures ok ==> Cheapest(old(visited), costs, g)
      ensures !ok ==>
        (forall i :: 0 <= i < |visited| ==> visited[i]) && visited == old(visited) && s.St() == old(s.St())
    {
      hide Ok, SameSum, GroupRule, CubeRule, RuleProd, Creating, Pairing, Placed, Grown, Fetched;
      StartPlaced([], el);
      FetchedSelf(s.St());
      var best := BestGroup();
      PairingSelf(L(), s0, s.St(), s.nv, s.no);
      if best == -1 {
        return false;
      }
      SwitchGroup(L(), s0, s.St(), best, s.nv, s.no);
      g := best;
      ghost var l, t := L(), s.St();
      CreateGroup(s, true);
      CreatedPair(l, L(), s0, t, s.St(), s.nv, s.no);
      GroupShape(dist, g);
      forall i | 0 <= i < GroupCount(dist) && old(visited)[i]
        ensures Placed(GroupRule(dist, i), |GroupRule(dist, i)|, el)
      {
        PlacedKept(GroupRule(dist, i), |GroupRule(dist, i)|, old(el), el);
      }
      visited := visited[g := true];
      ok := true;
    }
  }

  lemma PairContents(l: Link, s: Store, both: bool, nv: nat, no: nat)
    requires Creating(l, s, both, nv, no)
    ensures l.pa < |s.data| == |s.a| == |s.z| && l.pb < |s.data| && s.data[l.pa] == l.da && s.data[l.pb] == l.db
    ensures Apart(l.da, l.db, l.dist, nv, no) && s.a[l.pa] == Literals(l.da.lits) && s.z[l.pa] == Ones(l.da.outs)
    ensures s.a[l.pb] == Literals(l.db.lits)
  {
    assert CubeOk(s, l.pa, nv, no) && CubeOk(s, l.pb, nv, no);
  }

  lemma RuleOuts(p: Prod, q: Prod, dist: nat, k: nat)
    requires dist < 3 && k < CubeCount(dist) && |p.lits| == |q.lits| && |p.outs| == |q.outs|
    requires Distance(p, q) == dist + 2
    ensures p.outs == q.outs ==> RuleProd(p, q, dist, k).outs == p.outs
  {
    hide CubeRule;
  }

  lemma CreatingRoom(l: Link, s: Store, both: bool, k: nat, nv: nat, no: nat)
    requires Creating(l, s, both, nv, no) && k < 32 && l.el[k] == -1
    ensures s.pool != [] && l.pa < |s.data| && l.pb < |s.data|
    requires |l.el| == 32
  {
    RoomLeft(l, s, k);
  }

  lemma CreatingOk(l: Link, s: Store, both: bool, nv: nat, no: nat)
    requires Creating(l, s, both, nv, no)
    ensures Ok(s, nv, no, -1)
  {
  }

  lemma CreatingShape(l: Link, s: Store, both: bool, nv: nat, no: nat)
    requires Creating(l, s, both, nv, no)
    ensures l.dist < 3 && l.g < GroupCount(l.dist) && |l.el| == 32
  {
  }

  lemma SumSelf(s: Store, nv: nat, no: nat)
    requires Ok(s, nv, no, -1)
    ensures SameSum(s, s)
  {
    OkHandles(s, nv, no, -1);
  }

  lemma PairingSelf(l: Link, s0: Store, s: Store, nv: nat, no: nat)
    requires Pairing(l, s0, s, NoFlags(l.dist), 0, nv, no)
    ensures SameSum(s, s)
  {
    SumSelf(s, nv, no);
  }

  lemma SumTwice(s: Store, t: Store, u: Store)
    requires SameSum(s, t) && SameSum(t, u)
    ensures SameSum(s, u)
  {
    hide SumOf;
  }

  lemma CoverCube(s: Store, p: nat, nv: nat, no: nat)
    requires Ok(s, nv, no, -1) && p in s.cover
    ensures p < |s.data| && Good(s.data[p], nv, no) && p !in s.pool
  {
    ListedRange(s.info, s.list, s.cover);
    assert CubeOk(s, p, nv, no);
  }

  lemma CoverLiterals(s: Store, p: nat, nv: nat, no: nat)
    requires Ok(s, nv, no, -1) && p in s.cover
    ensures p < |s.a| && p < |s.data| && s.a[p] == Literals(s.data[p].lits)
  {
    CoverCube(s, p, nv, no);
    assert CubeOk(s, p, nv, no);
  }

  lemma DifferentCubes(data: seq<Prod>, p: nat, q: nat)
    requires p < |data| && q < |data| && |data[p].lits| == |data[q].lits| && Distance(data[p], data[q]) != 0
    ensures p != q
  {
    if p == q { NoDiffs(data[p].lits, |data[p].lits|); }
  }

  lemma StartCreating(l: Link, s: Store, nv: nat, no: nat)
    requires Ok(s, nv, no, -1) && NoneOut(s) && |s.pool| >= 32 && Usable(l, nv, no)
    requires forall k :: 0 <= k < 32 ==> l.el[k] == -1
    requires l.pa < |s.data| && l.pb < |s.data| && s.data[l.pa] == l.da && s.data[l.pb] == l.db && l.pa !in s.pool
    requires l.pb !in s.pool
    ensures Creating(l, s, false, nv, no)
  {
    hide Ok;
    assert MadeSet(l.el) == {};
  }
}
