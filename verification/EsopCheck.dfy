// What checking a cube against the cover, and taking that back, does to the store.
module EsopCheck {
  import opened EsopCube
  import opened EsopPool
  import opened EsopStore

  // s_ChangeStore.
  datatype Change = Change(fInput: bool, p: nat, prevQa: int, prevPa: int, prevPz: int, v: nat, value: nat, prevId: nat)

  // Adding the value of d to the sum of the cover.
  ghost predicate Added(s: Store, t: Store, d: Prod) {
    && Handles(s.data, s.cover) && Handles(t.data, t.cover)
    && forall o: nat, x: Input :: SumOf(t, o, x) == (SumOf(s, o, x) != Value(d, o, x))
  }

  // The same cubes are in the cover, in whatever order.
  ghost predicate Alike(s: Store, t: Store) {
    && |t.data| == |s.data| && |t.a| == |s.a| && |t.cover| == |s.cover|
    && (forall h: nat :: h in t.cover <==> h in s.cover)
    && (forall h: nat :: h in s.cover && h < |s.data| && h < |s.a| ==> t.data[h] == s.data[h] && t.a[h] == s.a[h])
  }

  ghost predicate SameSum(s: Store, t: Store) {
    && Handles(s.data, s.cover) && Handles(t.data, t.cover) && Alike(s, t)
    && forall o: nat, x: Input :: SumOf(t, o, x) == SumOf(s, o, x)
  }

  // Nothing but the cover, the free list and p has changed, and no cube is lost.
  ghost predicate Kept(s: Store, t: Store, p: nat) {
    && |t.data| == |s.data| && |t.info| == |s.info| && |t.a| == |s.a| && |t.z| == |s.z|
    && (forall h: nat :: h in s.cover || h in s.pool || h == p <==> h in t.cover || h in t.pool)
    && (forall h: nat :: h in s.pool ==> h in t.pool)
    && (forall h: nat :: Out(s, h) && h != p && h < |s.info| && h < |s.a| && h < |s.z| ==>
          t.data[h] == s.data[h] && t.info[h] == s.info[h] && t.a[h] == s.a[h] && t.z[h] == s.z[h])
  }

  // What checking the cube p leaves alone: all marks and IDs, and the cubes that stay in the cover.
  ghost predicate Steady(s: Store, t: Store, p: nat) {
    && |t.info| == |s.info| && |t.data| == |s.data|
    && (forall h: nat :: h < |s.info| ==> t.info[h].mark == s.info[h].mark)
    && (forall h: nat :: h in t.cover && h < |s.info| ==> t.info[h].id == s.info[h].id)
    && (forall h: nat :: h in t.cover && h != p ==> h in s.cover && (h < |s.data| ==> t.data[h] == s.data[h]))
  }

  lemma SteadySelf(s: Store, p: nat)
    ensures Steady(s, s, p)
  {
  }

  lemma SteadyTwice(s: Store, t: Store, u: Store, p: nat)
    requires Steady(s, t, p) && Steady(t, u, p) && (p < |s.info| ==> t.info[p].id == s.info[p].id)
    ensures Steady(s, u, p)
  {
  }

  lemma SteadyInsert(s: Store, p: nat, nv: nat, no: nat)
    requires Ok(s, nv, no, -1) && Out(s, p)
    ensures p < |s.info| && -1 <= s.list < |s.info| && Steady(s, Inserted(s, p), p)
  {
    InsertOk(s, p, nv, no, -1);
    hide Ok, AfterInsert;
  }

  lemma SteadyMerge(s: Store, k: nat, p: nat, d: Prod, a: int, z: int, nv: nat, no: nat)
    requires Ok(s, nv, no, -1) && k < |s.cover| && Out(s, p) && Good(d, nv, no) && a == Literals(d.lits)
    requires z == Ones(d.outs)
    ensures s.cover[k] < |s.info| == |s.data| && -1 <= s.info[s.cover[k]].prev < |s.info|
    ensures -1 <= s.info[s.cover[k]].next < |s.info| && p < |s.data| == |s.a| == |s.z| == |s.info|
    ensures var t := AfterMerge(s, k, p, d, a, z); Steady(s, t, p) && t.info[p].id == s.info[p].id
  {
    MergeOk(s, k, p, d, a, z, nv, no);
    ListedDistinct(s.info, s.list, s.cover);
    WithoutMembers(s.cover, k);
    assert s.cover[k] in s.cover;
    hide Ok, AfterMerge, Listed, Chained, Without;
  }

  lemma SteadyAnnul(s: Store, k: nat, p: nat, nv: nat, no: nat)
    requires Ok(s, nv, no, -1) && k < |s.cover| && Out(s, p) && CubeAt(s, k) == s.data[p]
    ensures s.cover[k] < |s.info| && -1 <= s.info[s.cover[k]].prev < |s.info|
    ensures -1 <= s.info[s.cover[k]].next < |s.info| && p != s.cover[k] && p < |s.info|
    ensures Steady(s, Annulled(s, k, p), p)
  {
    AnnulOk(s, k, p, nv, no);
    FreeOk(s, p, nv, no);
    ExtractOk(Freed(s, p), k, nv, no);
    ListedDistinct(s.info, s.list, s.cover);
    WithoutMembers(s.cover, k);
    hide Ok, Listed, Chained, Without, AfterExtract;
  }

  // Replacing the data of p, which is outside the lists.
  function Changed(s: Store, p: nat, d: Prod, a: int, z: int): Store
    requires p < |s.data| == |s.a| == |s.z|
  {
    s.(data := s.data[p := d], a := s.a[p := a], z := s.z[p := z])
  }

  // The cubes p and q are at distance one, and r is what they make together.
  ghost predicate Joins(p: Prod, q: Prod, r: Prod) {
    |p.lits| == |q.lits| && |p.outs| == |q.outs| && Distance(p, q) == 1 && r == Joined(p, q)
  }

  // The cube p merged with the cube at place k, which is now at the head of the free list.
  ghost predicate MergedAt(s: Store, t: Store, p: nat, k: nat, c: Change) {
    && k < |s.cover| && p < |s.data| == |s.info| == |s.a| == |s.z| && s.cover[k] < |s.data|
    && |t.data| == |t.info| == |t.a| == |t.z| == |s.data|
    && t.cover == [p] + Without(s.cover, k) && t.pool == [s.cover[k]] + s.pool
    && t.data == s.data[p := t.data[p]] && t.a == s.a[p := t.a[p]] && t.z == s.z[p := t.z[p]]
    && Joins(s.data[p], s.data[s.cover[k]], t.data[p])
    && c.p == p && c.prevQa == s.a[s.cover[k]] && c.prevId == s.info[s.cover[k]].id && c.prevPa == s.a[p]
    && c.prevPz == s.z[p]
    && (if c.fInput then
          && c.v < |s.data[p].lits|
          && t.data[p] == s.data[p].(lits := s.data[p].lits[c.v := ExorCode(s.data[p].lits[c.v], c.value)])
          && ExorCode(ExorCode(s.data[p].lits[c.v], c.value), c.value) == s.data[p].lits[c.v] && t.z[p] == s.z[p]
        else
          && |s.data[p].outs| == |s.data[s.cover[k]].outs|
          && t.data[p] == s.data[p].(outs := ExorOuts(s.data[p].outs, s.data[s.cover[k]].outs)) && t.a[p] == s.a[p])
    && (forall h: nat :: h < |s.info| && h != s.cover[k] ==> t.info[h].id == s.info[h].id)
    && (forall h: nat :: h < |s.info| ==> t.info[h].mark == s.info[h].mark)
  }

  ghost predicate Merged(s: Store, t: Store, p: nat, c: Change) {
    exists k: nat :: MergedAt(s, t, p, k, c)
  }

  // ---- Inserting ----

  lemma InsertAdds(s: Store, p: nat, nv: nat, no: nat)
    requires Ok(s, nv, no, -1) && Out(s, p)
    ensures -1 <= s.list < |s.info|
    ensures Added(s, Inserted(s, p), s.data[p]) && Kept(s, Inserted(s, p), p)
  {
    hide Listed, Chained, AfterInsert;
    InsertOk(s, p, nv, no, -1);
    OkHandles(s, nv, no, -1);
    forall o: nat, x: Input ensures SumOf(Inserted(s, p), o, x) == (SumOf(s, o, x) != Value(s.data[p], o, x)) {
      InsertSum(s.data, s.cover, p, o, x);
    }
    assert Handles(s.data, [p] + s.cover);
  }

  // ---- Merging with the cube at place k ----

  // The state in which the merged cube is checked again: q is free, p has new data.
  function AfterMerge(s: Store, k: nat, p: nat, d: Prod, a: int, z: int): Store
    requires k < |s.cover| && s.cover[k] < |s.info| && p < |s.data| == |s.a| == |s.z| == |s.info|
    requires -1 <= s.info[s.cover[k]].prev < |s.info| && -1 <= s.info[s.cover[k]].next < |s.info|
  {
    Freed(Changed(Extracted(s, k), p, d, a, z), s.cover[k])
  }

  lemma ChangeOk(s: Store, p: nat, d: Prod, a: int, z: int, nv: nat, no: nat)
    requires Ok(s, nv, no, -1) && Out(s, p) && Good(d, nv, no) && a == Literals(d.lits) && z == Ones(d.outs)
    ensures Ok(Changed(s, p, d, a, z), nv, no, -1)
  {
    hide Listed, Chained;
    var t := Changed(s, p, d, a, z);
    assert CubeOk(s, p, nv, no);
    forall h: nat | 0 <= h < |t.data| && h !in t.pool ensures CubeOk(t, h, nv, no) { assert CubeOk(s, h, nv, no); }
    forall h: nat | Out(t, h) ensures Loose(t.info, h) { assert Out(s, h); }
  }

  lemma MergeOk(s: Store, k: nat, p: nat, d: Prod, a: int, z: int, nv: nat, no: nat)
    requires Ok(s, nv, no, -1) && k < |s.cover| && Out(s, p) && Good(d, nv, no) && a == Literals(d.lits)
    requires z == Ones(d.outs)
    ensures s.cover[k] < |s.info| == |s.data| && -1 <= s.info[s.cover[k]].prev < |s.info|
    ensures -1 <= s.info[s.cover[k]].next < |s.info|
    ensures var t := AfterMerge(s, k, p, d, a, z);
      && Ok(t, nv, no, -1) && Out(t, p) && t.cover == Without(s.cover, k) && t.pool == [s.cover[k]] + s.pool
      && t.data == s.data[p := d] && t.a == s.a[p := a] && t.z == s.z[p := z]
      && (forall h: nat :: h < |s.info| && h != s.cover[k] ==> t.info[h].id == s.info[h].id)
      && (forall h: nat :: h < |s.info| ==> t.info[h].mark == s.info[h].mark)
      && (forall h: nat :: Out(s, h) && h != p ==> Out(t, h) && t.info[h] == s.info[h])
      && (forall h: nat :: h in s.cover || h in s.pool <==> h in t.cover || h in t.pool)
  {
    ExtractOk(s, k, nv, no);
    var u := Extracted(s, k);
    assert Out(u, p) by { assert p !in s.cover; }
    ChangeOk(u, p, d, a, z, nv, no);
    var w := Changed(u, p, d, a, z);
    assert Out(w, s.cover[k]);
    FreeOk(w, s.cover[k], nv, no);
    hide Ok, Listed, Chained, AfterExtract;
    assert s.cover[k] in s.cover;
  }

  // Merging with the cube at place k and adding the result adds the cube itself.
  lemma MergeAdds(s: Store, k: nat, p: nat, d: Prod, a: int, z: int, t: Store, nv: nat, no: nat)
    requires Ok(s, nv, no, -1) && k < |s.cover| && Out(s, p) && Good(d, nv, no) && a == Literals(d.lits)
    requires z == Ones(d.outs)
    requires forall o: nat, x: Input :: Value(d, o, x) == (Value(s.data[p], o, x) != Value(CubeAt(s, k), o, x))
    requires s.cover[k] < |s.info| == |s.data| && -1 <= s.info[s.cover[k]].prev < |s.info|
    requires -1 <= s.info[s.cover[k]].next < |s.info|
    requires |s.a| == |s.z| == |s.data| && Added(AfterMerge(s, k, p, d, a, z), t, d)
    ensures Added(s, t, s.data[p])
  {
    hide Ok, Listed, Chained, AfterMerge;
    MergeOk(s, k, p, d, a, z, nv, no);
    OkHandles(s, nv, no, -1);
    var m := AfterMerge(s, k, p, d, a, z);
    forall o: nat, x: Input ensures SumOf(t, o, x) == (SumOf(s, o, x) != Value(s.data[p], o, x)) {
      ExtractSum(s, k, o, x);
      forall i | 0 <= i < |m.cover| ensures m.data[m.cover[i]] == s.data[m.cover[i]] { assert m.cover[i] in m.cover; }
      SumFrame(m.data, s.data, m.cover, o, x);
      assert Value(d, o, x) == (Value(s.data[p], o, x) != Value(CubeAt(s, k), o, x));
    }
  }

  // The data of the cube at place k of the cover.
  function CubeAt(s: Store, k: nat): Prod {
    if k < |s.cover| && s.cover[k] < |s.data| then s.data[s.cover[k]] else Prod([], [])
  }

  // The merge seen from before, once the merged cube has been put in.
  lemma MergeKept(s: Store, k: nat, p: nat, d: Prod, a: int, z: int, t: Store, nv: nat, no: nat)
    requires Ok(s, nv, no, -1) && k < |s.cover| && Out(s, p) && Good(d, nv, no) && a == Literals(d.lits)
    requires z == Ones(d.outs)
    requires s.cover[k] < |s.info| == |s.data| && -1 <= s.info[s.cover[k]].prev < |s.info|
    requires -1 <= s.info[s.cover[k]].next < |s.info|
    requires |s.a| == |s.z| == |s.data| && Kept(AfterMerge(s, k, p, d, a, z), t, p)
    ensures Kept(s, t, p)
  {
    MergeOk(s, k, p, d, a, z, nv, no);
    hide Ok, Listed, Chained, AfterMerge;
    var m := AfterMerge(s, k, p, d, a, z);
    forall h: nat | Out(s, h) && h != p && h < |s.info|
      ensures t.data[h] == s.data[h] && t.info[h] == s.info[h] && t.a[h] == s.a[h] && t.z[h] == s.z[h]
    {
      assert Out(m, h);
    }
    assert forall h: nat :: h in s.pool ==> h in m.pool;
  }

  lemma MergeMerged(s: Store, k: nat, p: nat, d: Prod, a: int, z: int, c: Change, nv: nat, no: nat)
    requires Ok(s, nv, no, -1) && k < |s.cover| && Out(s, p) && Good(d, nv, no) && a == Literals(d.lits)
    requires z == Ones(d.outs)
    requires s.cover[k] < |s.info| == |s.data| && -1 <= s.info[s.cover[k]].prev < |s.info|
    requires -1 <= s.info[s.cover[k]].next < |s.info|
    requires |s.a| == |s.z| == |s.data| && c.p == p && c.prevQa == s.a[s.cover[k]]
    requires c.prevId == s.info[s.cover[k]].id && c.prevPa == s.a[p] && c.prevPz == s.z[p]
    requires Joins(s.data[p], s.data[s.cover[k]], d)
    requires if c.fInput then
        && c.v < |s.data[p].lits|
        && d == s.data[p].(lits := s.data[p].lits[c.v := ExorCode(s.data[p].lits[c.v], c.value)])
        && ExorCode(ExorCode(s.data[p].lits[c.v], c.value), c.value) == s.data[p].lits[c.v] && z == s.z[p]
      else
        && |s.data[p].outs| == |s.data[s.cover[k]].outs|
        && d == s.data[p].(outs := ExorOuts(s.data[p].outs, s.data[s.cover[k]].outs)) && a == s.a[p]
    ensures var m := AfterMerge(s, k, p, d, a, z);
      -1 <= m.list < |m.info| && p < |m.info| && Merged(s, Inserted(m, p), p, c)
  {
    MergeOk(s, k, p, d, a, z, nv, no);
    var m := AfterMerge(s, k, p, d, a, z);
    InsertOk(m, p, nv, no, -1);
    hide Ok, Listed, Chained, AfterMerge, AfterInsert, Joins;
    assert MergedAt(s, Inserted(m, p), p, k, c);
  }

  // ---- Cancelling two equal cubes ----

  function Annulled(s: Store, k: nat, p: nat): Store
    requires k < |s.cover| && s.cover[k] < |s.info| && p < |s.info| && p != s.cover[k]
    requires -1 <= s.info[s.cover[k]].prev < |s.info| && -1 <= s.info[s.cover[k]].next < |s.info|
  {
    Freed(Extracted(Freed(s, p), k), s.cover[k])
  }

  lemma AnnulOk(s: Store, k: nat, p: nat, nv: nat, no: nat)
    requires Ok(s, nv, no, -1) && k < |s.cover| && Out(s, p) && CubeAt(s, k) == s.data[p]
    ensures s.cover[k] < |s.info| && -1 <= s.info[s.cover[k]].prev < |s.info|
    ensures -1 <= s.info[s.cover[k]].next < |s.info| && p != s.cover[k]
    ensures p < |s.info|
    ensures var t := Annulled(s, k, p);
      Ok(t, nv, no, -1) && Added(s, t, s.data[p]) && Kept(s, t, p) && |t.cover| == |s.cover| - 1
  {
    ExtractOk(s, k, nv, no);
    assert s.cover[k] in s.cover;
    FreeOk(s, p, nv, no);
    var u := Freed(s, p);
    ExtractOk(u, k, nv, no);
    var w := Extracted(u, k);
    FreeOk(w, s.cover[k], nv, no);
    OkHandles(s, nv, no, -1);
    hide Ok, Listed, Chained, AfterExtract;
    var t := Freed(w, s.cover[k]);
    forall o: nat, x: Input
      ensures SumOf(t, o, x) == (SumOf(s, o, x) != Value(s.data[p], o, x))
    { ExtractSum(s, k, o, x); }
    forall h: nat | Out(s, h) && h != p && h < |s.info| ensures t.info[h] == s.info[h] { assert Out(u, h); }
  }

  // ---- Taking the last merge back ----

  // What is left after the last merge has been taken back: everything but the order of the cover.
  ghost predicate Restored(s: Store, u: Store, p: nat) {
    && u.data == s.data && u.a == s.a && u.z == s.z && u.pool == s.pool && |u.info| == |s.info|
    && |u.cover| == |s.cover|
    && (forall h: nat :: h in u.cover <==> h in s.cover)
    && (forall h: nat :: h < |s.info| ==> u.info[h].id == s.info[h].id && u.info[h].mark == s.info[h].mark)
    && Out(u, p) && SameSum(s, u)
  }

  // The first half: the freed cube is taken back and inserted, and p is extracted.
  function Reinserted(t: Store, id: nat): Store
    requires t.pool != [] && 0 <= t.free < |t.info| == |t.data| == |t.a| == |t.z|
  {
    var u := Taken(t);
    Filled(u, t.free, u.data[t.free], u.a[t.free], u.z[t.free], id)
  }

  lemma ReinsertOk(s: Store, t: Store, p: nat, k: nat, c: Change, nv: nat, no: nat)
    requires Ok(s, nv, no, -1) && Ok(t, nv, no, -1) && Out(s, p) && MergedAt(s, t, p, k, c)
    ensures 0 <= t.free < |t.info| == |t.data| == |t.a| == |t.z| && t.pool != [] && t.free == s.cover[k]
    ensures c.prevId != 0
    ensures var u := Reinserted(t, c.prevId);
      && Ok(u, nv, no, -1) && Out(u, t.free) && u.cover == t.cover && u.pool == s.pool && u.data == t.data
      && u.a == t.a && u.z == t.z
      && |u.info| == |s.info|
      && forall h: nat :: h < |s.info| ==> u.info[h].id == s.info[h].id && u.info[h].mark == s.info[h].mark
  {
    TakeOk(t, nv, no);
    var q, u := t.free, Taken(t);
    assert s.cover[k] in s.cover;
    assert CubeOk(s, q, nv, no);
    assert t.pool[1..] == s.pool;
    assert u.data[q] == s.data[q];
    FillOk(u, q, u.data[q], u.a[q], u.z[q], c.prevId, nv, no, q);
    hide Ok, Listed, Chained;
  }

  lemma UndoOk(s: Store, t: Store, p: nat, k: nat, c: Change, nv: nat, no: nat)
    requires Ok(s, nv, no, -1) && Ok(t, nv, no, -1) && Out(s, p) && MergedAt(s, t, p, k, c)
    ensures 0 <= t.free < |t.info| == |t.data| == |t.a| == |t.z| && t.pool != []
    ensures var u := Reinserted(t, c.prevId); -1 <= u.list < |u.info| && t.free < |u.info|
    ensures var w := Inserted(Reinserted(t, c.prevId), t.free);
        && |w.cover| > 1 && w.cover[1] == p && p < |w.info| && -1 <= w.info[p].prev < |w.info|
        && -1 <= w.info[p].next < |w.info|
        && Ok(w, nv, no, -1)
        && var y := Extracted(w, 1);
          && Ok(y, nv, no, -1) && y.cover == [s.cover[k]] + Without(s.cover, k) && y.pool == s.pool
          && y.data == t.data && y.a == t.a && y.z == t.z && Out(y, p) && |y.info| == |s.info|
          && (forall h: nat :: h < |s.info| ==> y.info[h].id == s.info[h].id && y.info[h].mark == s.info[h].mark)
  {
    hide Reinserted;
    ReinsertOk(s, t, p, k, c, nv, no);
    var u := Reinserted(t, c.prevId);
    InsertOk(u, t.free, nv, no, -1);
    var w := Inserted(u, t.free);
    assert w.cover == [t.free, p] + Without(s.cover, k);
    ExtractOk(w, 1, nv, no);
    hide Ok, Listed, Chained, AfterInsert, AfterExtract;
    assert Extracted(w, 1).cover == [s.cover[k]] + Without(s.cover, k);
  }

  // With the data of p set back, the cover has its old sum.
  lemma UndoRestores(s: Store, t: Store, y: Store, p: nat, k: nat, c: Change, nv: nat, no: nat)
    requires Ok(s, nv, no, -1) && Out(s, p) && MergedAt(s, t, p, k, c)
    requires Ok(y, nv, no, -1) && y.cover == [s.cover[k]] + Without(s.cover, k) && y.pool == s.pool
    requires y.data == t.data && y.a == t.a && y.z == t.z && Out(y, p) && |y.info| == |s.info|
    requires forall h: nat :: h < |s.info| ==> y.info[h].id == s.info[h].id && y.info[h].mark == s.info[h].mark
    ensures p < |y.data| == |y.a| == |y.z|
    ensures var r := Changed(y, p, s.data[p], s.a[p], s.z[p]); Ok(r, nv, no, -1) && Restored(s, r, p)
  {
    hide Ok, Without, SameSum, Good;
    CubeFacts(s, p, nv, no);
    CubeFacts(y, p, nv, no);
    OkHandles(s, nv, no, -1);
    ChangeOk(y, p, s.data[p], s.a[p], s.z[p], nv, no);
    var r := Changed(y, p, s.data[p], s.a[p], s.z[p]);
    assert r.data == s.data && r.a == s.a && r.z == s.z;
    FrontSame(s, r, k, nv, no);
  }

  lemma CubeFacts(s: Store, p: nat, nv: nat, no: nat)
    requires Ok(s, nv, no, -1) && Out(s, p)
    ensures p < |s.data| == |s.a| == |s.z| && Good(s.data[p], nv, no) && s.a[p] == Literals(s.data[p].lits)
    ensures s.z[p] == Ones(s.data[p].outs)
  {
    hide Listed, Chained;
    assert CubeOk(s, p, nv, no);
  }

  // Moving a cube to the front of the cover changes neither its members nor its sum.
  lemma FrontSame(s: Store, r: Store, k: nat, nv: nat, no: nat)
    requires Ok(s, nv, no, -1) && k < |s.cover| && Handles(s.data, s.cover) && r.data == s.data
    requires r.cover == [s.cover[k]] + Without(s.cover, k) && r.a == s.a
    ensures |r.cover| == |s.cover| && (forall h: nat :: h in r.cover <==> h in s.cover) && SameSum(s, r)
  {
    ListedDistinct(s.info, s.list, s.cover);
    WithoutMembers(s.cover, k);
    hide Ok, Listed, Chained;
    assert Handles(r.data, r.cover);
    forall o: nat, x: Input ensures SumOf(r, o, x) == SumOf(s, o, x) {
      ExtractSum(s, k, o, x);
      InsertSum(s.data, Without(s.cover, k), s.cover[k], o, x);
    }
  }

  lemma UndoCounts(s: Store, t: Store, p: nat, k: nat, c: Change)
    requires MergedAt(s, t, p, k, c)
    ensures k < |s.cover| && p < |s.data| == |s.a| == |s.z| == |s.info| && s.cover[k] < |s.data| == |t.data|
    ensures c.prevPa == s.a[p] && c.prevPz == s.z[p]
  {
  }

  // Restoring the literal or the outputs of p gives its old data.
  lemma UndoData(s: Store, t: Store, p: nat, k: nat, c: Change, nv: nat, no: nat)
    requires Ok(s, nv, no, -1) && Out(s, p) && MergedAt(s, t, p, k, c)
    ensures c.fInput ==> c.v < |t.data[p].lits|
    ensures c.fInput ==>
      t.data[p].(lits := t.data[p].lits[c.v := ExorCode(t.data[p].lits[c.v], c.value)]) == s.data[p] &&
      t.z[p] == s.z[p]
    ensures !c.fInput ==> t.data[s.cover[k]] == s.data[s.cover[k]] && |t.data[p].outs| == |s.data[s.cover[k]].outs|
    ensures !c.fInput ==>
      t.data[p].(outs := ExorOuts(t.data[p].outs, s.data[s.cover[k]].outs)) == s.data[p] && t.a[p] == s.a[p]
  {
    hide Ok, Listed, Chained;
    assert s.cover[k] in s.cover;
    if c.fInput {
      assert t.data[p].lits[c.v := s.data[p].lits[c.v]] == s.data[p].lits;
    } else {
      assert ExorOuts(t.data[p].outs, s.data[s.cover[k]].outs) == s.data[p].outs;
    }
  }
}
