// All cubes as a value: the cover, the free cubes, and those taken out of both.
module EsopStore {
  import opened EsopCube
  import opened EsopPool

  datatype Store = Store(data: seq<Prod>, info: seq<Info>, a: seq<int>, z: seq<int>,
                         list: int, free: int, cover: seq<nat>, pool: seq<nat>)

  // A cube in use: it has an ID, and its counts are right.
  ghost predicate CubeOk(s: Store, h: nat, nv: nat, no: nat) {
    && h < |s.data| == |s.info| == |s.a| == |s.z|
    && s.info[h].id != 0 && Good(s.data[h], nv, no) && s.a[h] == Literals(s.data[h].lits)
    && s.z[h] == Ones(s.data[h].outs)
  }

  ghost predicate Out(s: Store, h: nat) {
    h < |s.data| && h !in s.cover && h !in s.pool
  }

  // Cover and free list are disjoint, the cubes outside both are not linked, and an ID is zero
  // exactly in the free list. Cube ex is still being filled.
  ghost predicate Ok(s: Store, nv: nat, no: nat, ex: int) {
    && |s.data| == |s.info| == |s.a| == |s.z|
    && Listed(s.info, s.list, s.cover) && Chained(s.info, s.free, s.pool)
    && (forall h :: h in s.cover ==> h !in s.pool)
    && (forall h :: 0 <= h < |s.data| && h !in s.pool && h != ex ==> CubeOk(s, h, nv, no))
    && (forall h :: h in s.pool ==> h < |s.data| && s.info[h].id == 0)
    && (forall h: nat :: Out(s, h) ==> Loose(s.info, h))
  }

  ghost function SumOf(s: Store, o: nat, x: Input): bool
    requires Handles(s.data, s.cover)
  {
    Sum(s.data, s.cover, o, x)
  }

  lemma OkHandles(s: Store, nv: nat, no: nat, ex: int)
    requires Ok(s, nv, no, ex)
    ensures Handles(s.data, s.cover) && forall h :: h in s.cover ==> h < |s.data|
  {
    hide Listed, Chained;
    ListedRange(s.info, s.list, s.cover);
    forall i | 0 <= i < |s.cover| ensures s.cover[i] < |s.data| { assert s.cover[i] in s.cover; }
  }

  // ---- The list operations ----

  function Inserted(s: Store, p: nat): Store
    requires p < |s.info| && -1 <= s.list < |s.info|
  {
    s.(info := AfterInsert(s.info, s.list, p), list := p, cover := [p] + s.cover)
  }

  lemma InsertOk(s: Store, p: nat, nv: nat, no: nat, ex: int)
    requires Ok(s, nv, no, ex) && Out(s, p)
    ensures -1 <= s.list < |s.info| && Ok(Inserted(s, p), nv, no, ex)
    ensures forall h :: 0 <= h < |s.info| ==>
      Inserted(s, p).info[h].id == s.info[h].id && Inserted(s, p).info[h].mark == s.info[h].mark
    ensures forall h: nat :: Out(s, h) && h != p ==> Inserted(s, p).info[h] == s.info[h]
  {
    hide Listed, Chained;
    InsertListed(s.info, s.list, s.cover, p);
    var t := Inserted(s, p);
    forall h: nat | h < |s.info|
      ensures t.info[h].id == s.info[h].id && t.info[h].mark == s.info[h].mark &&
        (h != p && h !in s.cover ==> t.info[h] == s.info[h])
    {
      InsertFrame(s.info, s.list, s.cover, p, h);
    }
    ChainedFrame(s.info, t.info, s.free, s.pool);
    forall h: nat | 0 <= h < |t.data| && h !in t.pool && h != ex
      ensures CubeOk(t, h, nv, no)
    { assert CubeOk(s, h, nv, no); }
    forall h: nat | Out(t, h) ensures Loose(t.info, h) { assert Out(s, h); }
  }

  function Extracted(s: Store, k: nat): Store
    requires k < |s.cover| && s.cover[k] < |s.info|
    requires -1 <= s.info[s.cover[k]].prev < |s.info| && -1 <= s.info[s.cover[k]].next < |s.info|
  {
    s.(info := AfterExtract(s.info, s.list, s.cover[k]),
       list := if k == 0 then s.info[s.cover[k]].next else s.list, cover := Without(s.cover, k))
  }

  lemma ExtractOk(s: Store, k: nat, nv: nat, no: nat)
    requires Ok(s, nv, no, -1) && k < |s.cover|
    ensures s.cover[k] < |s.info| && -1 <= s.info[s.cover[k]].prev < |s.info|
    ensures -1 <= s.info[s.cover[k]].next < |s.info|
    ensures var t := Extracted(s, k);
      && Ok(t, nv, no, -1) && Out(t, s.cover[k])
      && (forall h :: 0 <= h < |s.info| ==> t.info[h].id == s.info[h].id && t.info[h].mark == s.info[h].mark)
      && (forall h: nat :: Out(s, h) ==> t.info[h] == s.info[h])
      && (forall h :: h in t.cover <==> h in s.cover && h != s.cover[k])
  {
    ExtractListed(s.info, s.list, s.cover, k);
    ListedDistinct(s.info, s.list, s.cover);
    WithoutMembers(s.cover, k);
    hide Listed, Chained, AfterExtract;
    var t := Extracted(s, k);
    forall h: nat | h < |s.info|
      ensures t.info[h].id == s.info[h].id && t.info[h].mark == s.info[h].mark
      ensures (h !in s.cover ==> t.info[h] == s.info[h]) && Loose(t.info, s.cover[k])
    {
      ExtractFrame(s.info, s.list, s.cover, k, h);
    }
    assert s.cover[k] in s.cover;
    ChainedFrame(s.info, t.info, s.free, s.pool);
    forall h: nat | 0 <= h < |t.data| && h !in t.pool ensures CubeOk(t, h, nv, no) { assert CubeOk(s, h, nv, no); }
    forall h: nat | Out(t, h) ensures Loose(t.info, h) { assert h == s.cover[k] || Out(s, h); }
  }

  function Freed(s: Store, p: nat): Store
    requires p < |s.info|
  {
    s.(info := s.info[p := s.info[p].(next := s.free, id := 0)], free := p, pool := [p] + s.pool)
  }

  lemma FreeOk(s: Store, p: nat, nv: nat, no: nat)
    requires Ok(s, nv, no, -1) && Out(s, p)
    ensures Ok(Freed(s, p), nv, no, -1)
  {
    hide Listed, Chained;
    var t := Freed(s, p);
    ListedRange(s.info, s.list, s.cover);
    ChainPush(s.info, s.free, s.pool, p, t.info);
    ListedFrame(s.info, t.info, s.list, s.cover);
    forall h: nat | 0 <= h < |t.data| && h !in t.pool ensures CubeOk(t, h, nv, no) { assert CubeOk(s, h, nv, no); }
    forall h: nat | Out(t, h) ensures Loose(t.info, h) { assert Out(s, h) && h != p; }
  }

  function Taken(s: Store): Store
    requires 0 <= s.free < |s.info| && s.pool != []
  {
    s.(info := s.info[s.free := s.info[s.free].(next := -1)], free := s.info[s.free].next, pool := s.pool[1..])
  }

  lemma TakeOk(s: Store, nv: nat, no: nat)
    requires Ok(s, nv, no, -1) && s.pool != []
    ensures 0 <= s.free < |s.info| && s.free == s.pool[0]
    ensures Ok(Taken(s), nv, no, s.free) && Out(Taken(s), s.free)
    ensures forall h :: h in Taken(s).pool <==> h in s.pool && h != s.free
  {
    hide Listed, Chained;
    ChainPop(s.info, s.free, s.pool);
    var t := Taken(s);
    assert forall h :: h in s.pool[1..] ==> h in s.pool;
    assert s.pool == [s.pool[0]] + s.pool[1..];
    assert s.free in s.pool;
    ListedFrame(s.info, t.info, s.list, s.cover);
    forall h: nat | 0 <= h < |t.data| && h !in t.pool && h != s.free
      ensures CubeOk(t, h, nv, no)
    { assert CubeOk(s, h, nv, no); }
    forall h: nat | Out(t, h) ensures Loose(t.info, h) { assert h == s.free || Out(s, h); }
  }

  // Giving a cube outside the lists new contents.
  function Filled(s: Store, p: nat, d: Prod, a: int, z: int, id: nat): Store
    requires p < |s.data| == |s.info| == |s.a| == |s.z|
  {
    s.(data := s.data[p := d], a := s.a[p := a], z := s.z[p := z], info := s.info[p := s.info[p].(id := id)])
  }

  lemma FillOk(s: Store, p: nat, d: Prod, a: int, z: int, id: nat, nv: nat, no: nat, ex: int)
    requires Ok(s, nv, no, ex) && Out(s, p) && (ex == -1 || ex == p)
    requires id != 0 && Good(d, nv, no) && a == Literals(d.lits) && z == Ones(d.outs)
    ensures Ok(Filled(s, p, d, a, z, id), nv, no, -1)
  {
    hide Listed, Chained;
    var t := Filled(s, p, d, a, z, id);
    ListedFrame(s.info, t.info, s.list, s.cover);
    ChainedFrame(s.info, t.info, s.free, s.pool);
    forall h: nat | 0 <= h < |t.data| && h !in t.pool ensures CubeOk(t, h, nv, no) {
      if h != p { assert CubeOk(s, h, nv, no); }
    }
    forall h: nat | Out(t, h) ensures Loose(t.info, h) { assert Out(s, h); }
  }

  // The mark of a cube is free.
  function Marked(s: Store, p: nat, m: bool): Store
    requires p < |s.info|
  {
    s.(info := s.info[p := s.info[p].(mark := m)])
  }

  lemma MarkOk(s: Store, p: nat, m: bool, nv: nat, no: nat)
    requires Ok(s, nv, no, -1) && p < |s.info|
    ensures Ok(Marked(s, p, m), nv, no, -1)
  {
    hide Listed, Chained;
    var t := Marked(s, p, m);
    ListedFrame(s.info, t.info, s.list, s.cover);
    ChainedFrame(s.info, t.info, s.free, s.pool);
    forall h: nat | 0 <= h < |t.data| && h !in t.pool ensures CubeOk(t, h, nv, no) { assert CubeOk(s, h, nv, no); }
    forall h: nat | Out(t, h) ensures Loose(t.info, h) { assert Out(s, h); }
  }

  // ---- Counts ----

  lemma {:induction false} LiteralsChanged(lits: seq<nat>, v: nat, c: nat)
    requires v < |lits|
    ensures Literals(lits[v := c]) == Literals(lits) - (if lits[v] == 3 then 0 else 1) + (if c == 3 then 0 else 1)
  {
    var n := |lits| - 1;
    if v < n {
      LiteralsChanged(lits[..n], v, c);
      assert lits[v := c][..n] == lits[..n][v := c];
    } else {
      assert lits[v := c][..n] == lits[..n];
    }
  }

  // ---- Sums ----

  // Extracting a cube takes its value out of the sum.
  lemma ExtractSum(s: Store, k: nat, o: nat, x: Input)
    requires Handles(s.data, s.cover) && k < |s.cover|
    ensures Handles(s.data, Without(s.cover, k))
    ensures Sum(s.data, Without(s.cover, k), o, x) == (SumOf(s, o, x) != Value(s.data[s.cover[k]], o, x))
  {
    SumWithout(s.data, s.cover, k, o, x);
  }

  lemma InsertSum(d: seq<Prod>, hs: seq<nat>, p: nat, o: nat, x: Input)
    requires Handles(d, hs) && p < |d|
    ensures Handles(d, [p] + hs) && Sum(d, [p] + hs, o, x) == (Sum(d, hs, o, x) != Value(d[p], o, x))
  {
    assert ([p] + hs)[1..] == hs;
  }
}
