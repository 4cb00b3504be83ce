// The state of the store while a pair of cubes is being replaced by a group.
module EsopPair {
  import opened EsopRules
  import opened EsopCube
  import opened EsopLink
  import opened EsopPool
  import opened EsopStore
  import opened EsopCheck

  // The pair, its contents, the cubes created so far (ELCubes) and the current group.
  datatype Link = Link(dist: nat, pa: nat, pb: nat, da: Prod, db: Prod, el: seq<int>, g: nat)

  ghost predicate Usable(l: Link, nv: nat, no: nat) {
    Apart(l.da, l.db, l.dist, nv, no) && l.g < GroupCount(l.dist) && |l.el| == 32 && l.pa != l.pb
  }

  // Cube k is at a flagged place of the current group: it has been given to the cover.
  ghost predicate Used(l: Link, flags: seq<bool>, k: nat) {
    exists c :: 0 <= c < |flags| && flags[c] && At(GroupOf(l), c) == k
  }

  ghost function GroupOf(l: Link): seq<nat> {
    if l.dist < 3 then GroupRule(l.dist, l.g) else []
  }

  // Cube k has been created: it is a cube of its own.
  ghost predicate Made(l: Link, s: Store, k: nat) {
    k < |l.el| && l.el[k] >= 0 && l.dist < 3 && k < CubeCount(l.dist) && l.el[k] < |s.data| && l.el[k] != l.pa &&
    l.el[k] != l.pb
  }

  ghost predicate RuleHeld(l: Link, s: Store, k: nat, nv: nat, no: nat) {
    Made(l, s, k) && Apart(l.da, l.db, l.dist, nv, no) && Out(s, l.el[k]) &&
    s.data[l.el[k]] == RuleProd(l.da, l.db, l.dist, k)
  }

  // The created cubes are different cubes outside the lists, apart from those given away.
  ghost predicate Cubes(l: Link, s: Store, flags: seq<bool>, nv: nat, no: nat) {
    && Usable(l, nv, no) && l.pa < |s.data| && l.pb < |s.data|
    && (forall k :: 0 <= k < 32 && l.el[k] != -1 ==> Made(l, s, k))
    && (forall j, k :: 0 <= j < k < 32 && l.el[j] != -1 ==> l.el[j] != l.el[k])
    && (forall k :: 0 <= k < 32 && l.el[k] != -1 && !Used(l, flags, k) ==> RuleHeld(l, s, k, nv, no))
  }

  // Nothing else is outside the lists; both: whether the pair is too.
  ghost predicate Outside(l: Link, s: Store, flags: seq<bool>, both: bool) {
    forall h: nat :: Out(s, h) <==>
      h < |s.data| &&
      ((both && (h == l.pa || h == l.pb)) || exists k :: 0 <= k < |l.el| && l.el[k] == h && !Used(l, flags, k))
  }

  // The sum of the flagged cubes of the group from place c on.
  ghost function PartSum(l: Link, flags: seq<bool>, c: nat, o: nat, x: Input): bool
    requires l.dist < 3 && l.g < GroupCount(l.dist) && |flags| == l.dist + 2 && c <= |flags|
    requires |l.da.lits| == |l.db.lits| && |l.da.outs| == |l.db.outs| && Distance(l.da, l.db) == l.dist + 2
    decreases |flags| - c
  {
    GroupShape(l.dist, l.g);
    if c == |flags| then false
    else (flags[c] && Value(RuleProd(l.da, l.db, l.dist, GroupRule(l.dist, l.g)[c]), o, x)) !=
         PartSum(l, flags, c + 1, o, x)
  }

  function Count(flags: seq<bool>): nat {
    if flags == [] then 0 else (if flags[|flags| - 1] then 1 else 0) + Count(flags[..|flags| - 1])
  }

  // The cover has the sum of s0 without the pair and with the flagged cubes.
  ghost predicate OpenSum(l: Link, s0: Store, s: Store, flags: seq<bool>, nv: nat, no: nat) {
    && Usable(l, nv, no) && |flags| == l.dist + 2 && Handles(s0.data, s0.cover) && Handles(s.data, s.cover)
    && forall o: nat, x: Input ::
         SumOf(s, o, x) == (SumOf(s0, o, x) != ((Value(l.da, o, x) != Value(l.db, o, x)) != PartSum(l, flags, 0, o, x)))
  }

  lemma {:induction false} PartSumSet(l: Link, flags: seq<bool>, c: nat, d: nat, o: nat, x: Input)
    requires l.dist < 3 && l.g < GroupCount(l.dist) && |flags| == l.dist + 2 && c <= |flags| && d < |flags| && !flags[d]
    requires |l.da.lits| == |l.db.lits| && |l.da.outs| == |l.db.outs| && Distance(l.da, l.db) == l.dist + 2
    ensures |GroupRule(l.dist, l.g)| == l.dist + 2 && GroupRule(l.dist, l.g)[d] < CubeCount(l.dist)
    ensures PartSum(l, flags[d := true], c, o, x) ==
      (PartSum(l, flags, c, o, x) != (c <= d && Value(RuleProd(l.da, l.db, l.dist, GroupRule(l.dist, l.g)[d]), o, x)))
    decreases |flags| - c
  {
    hide GroupRule, CubeRule, RuleProd, Value;
    GroupShape(l.dist, l.g);
    if c < |flags| { PartSumSet(l, flags, c + 1, d, o, x); }
  }

  lemma {:induction false} PartSumNone(l: Link, flags: seq<bool>, c: nat, o: nat, x: Input)
    requires l.dist < 3 && l.g < GroupCount(l.dist) && |flags| == l.dist + 2 && c <= |flags|
    requires forall d :: 0 <= d < |flags| ==> !flags[d]
    requires |l.da.lits| == |l.db.lits| && |l.da.outs| == |l.db.outs| && Distance(l.da, l.db) == l.dist + 2
    ensures !PartSum(l, flags, c, o, x)
    decreases |flags| - c
  {
    if c < |flags| { PartSumNone(l, flags, c + 1, o, x); }
  }

  lemma {:induction false} PartSumAll(l: Link, flags: seq<bool>, c: nat, o: nat, x: Input)
    requires l.dist < 3 && l.g < GroupCount(l.dist) && |flags| == l.dist + 2 && c <= |flags|
    requires forall d :: 0 <= d < |flags| ==> flags[d]
    requires |l.da.lits| == |l.db.lits| && |l.da.outs| == |l.db.outs| && Distance(l.da, l.db) == l.dist + 2
    ensures PartSum(l, flags, c, o, x) == GroupValue(l.da, l.db, l.dist, l.g, c, o, x)
    decreases |flags| - c
  {
    hide GroupRule, CubeRule, RuleProd, Value;
    GroupShape(l.dist, l.g);
    if c < |flags| { PartSumAll(l, flags, c + 1, o, x); }
  }

  // When the whole group has been given to the cover, the old sum is back.
  lemma GroupDone(l: Link, s0: Store, s: Store, flags: seq<bool>, nv: nat, no: nat)
    requires OpenSum(l, s0, s, flags, nv, no) && forall c :: 0 <= c < |flags| ==> flags[c]
    ensures forall o: nat, x: Input :: o < no ==> SumOf(s, o, x) == SumOf(s0, o, x)
  {
    hide PartSum, SumOf, Value, GroupValue;
    forall o: nat, x: Input | o < no ensures SumOf(s, o, x) == SumOf(s0, o, x) {
      PartSumAll(l, flags, 0, o, x);
      LinkIdentity(l.da, l.db, l.dist, l.g, nv, no, o, x);
      assert SumOf(s, o, x) ==
          (SumOf(s0, o, x) != ((Value(l.da, o, x) != Value(l.db, o, x)) != PartSum(l, flags, 0, o, x)));
    }
  }

  lemma {:induction false} CountSet(flags: seq<bool>, d: nat)
    requires d < |flags| && !flags[d]
    ensures Count(flags[d := true]) == Count(flags) + 1
  {
    var n := |flags| - 1;
    if d < n {
      CountSet(flags[..n], d);
      assert flags[d := true][..n] == flags[..n][d := true];
    } else {
      assert flags[d := true][..n] == flags[..n];
    }
  }

  lemma {:induction false} CountAll(flags: seq<bool>)
    ensures (forall c :: 0 <= c < |flags| ==> flags[c]) ==> Count(flags) == |flags|
    ensures (forall c :: 0 <= c < |flags| ==> !flags[c]) ==> Count(flags) == 0
  {
    if flags != [] { CountAll(flags[..|flags| - 1]); }
  }

  // The whole state: gain is the number of cubes saved so far.
  ghost predicate Pairing(l: Link, s0: Store, s: Store, flags: seq<bool>, gain: int, nv: nat, no: nat) {
    && Ok(s, nv, no, -1) && Cubes(l, s, flags, nv, no) && Outside(l, s, flags, true) && OpenSum(l, s0, s, flags, nv, no)
    && |s.cover| + gain == |s0.cover| - 2 + Count(flags)
    && |s.data| == |s0.data|
  }

  // Flagging place c uses one more cube.
  lemma UsedMore(l: Link, flags: seq<bool>, c: nat, k: nat, nv: nat, no: nat)
    requires Usable(l, nv, no) && |flags| == l.dist + 2 && c < |flags|
    ensures Used(l, flags[c := true], k) <==> Used(l, flags, k) || At(GroupOf(l), c) == k
  {
    if Used(l, flags[c := true], k) {
      var d :| 0 <= d < |flags| && flags[c := true][d] && At(GroupOf(l), d) == k;
      assert d == c || flags[d];
    }
    if Used(l, flags, k) {
      var d :| 0 <= d < |flags| && flags[d] && At(GroupOf(l), d) == k;
      assert flags[c := true][d];
    }
    if At(GroupOf(l), c) == k { assert flags[c := true][c]; }
  }

  // Places of a group are different cubes, so an unflagged place is not used.
  lemma NotUsed(l: Link, flags: seq<bool>, c: nat, nv: nat, no: nat)
    requires Usable(l, nv, no) && |flags| == l.dist + 2 && c < |flags| && !flags[c]
    ensures c < |GroupOf(l)| == l.dist + 2 && GroupOf(l)[c] < CubeCount(l.dist) && !Used(l, flags, GroupOf(l)[c])
  {
    hide GroupRule;
    GroupShape(l.dist, l.g);
    forall d | 0 <= d < |flags| && flags[d] ensures At(GroupOf(l), d) != GroupOf(l)[c] { }
  }

  // A cube of the group has gone to the cover.
  lemma GiveCube(l: Link, s0: Store, s: Store, t: Store, flags: seq<bool>, c: nat, gain: int, more: int, nv: nat,
                 no: nat)
    requires Pairing(l, s0, s, flags, gain, nv, no) && c < |flags| && !flags[c]
    requires c < |GroupOf(l)| && GroupOf(l)[c] < 32 && l.el[GroupOf(l)[c]] >= 0
    requires var p := l.el[GroupOf(l)[c]]; p < |s.data| && Added(s, t, s.data[p]) && Kept(s, t, p)
    requires Ok(t, nv, no, -1) && |t.cover| + more == |s.cover| + 1
    ensures Pairing(l, s0, t, flags[c := true], gain + more, nv, no)
  {
    hide Ok, Listed, Chained, GroupRule, CubeRule, RuleProd, Value, PartSum, SumOf;
    GiveCubes(l, s, t, flags, c, nv, no);
    GiveOutside(l, s, t, flags, c, nv, no);
    GiveSum(l, s0, s, t, flags, c, nv, no);
    CountSet(flags, c);
  }

  lemma GiveCubes(l: Link, s: Store, t: Store, flags: seq<bool>, c: nat, nv: nat, no: nat)
    requires Cubes(l, s, flags, nv, no) && |flags| == l.dist + 2 && c < |flags| && !flags[c] && Ok(s, nv, no, -1)
    requires Ok(t, nv, no, -1)
    requires c < |GroupOf(l)| && GroupOf(l)[c] < 32 && l.el[GroupOf(l)[c]] >= 0 && Kept(s, t, l.el[GroupOf(l)[c]])
    ensures Cubes(l, t, flags[c := true], nv, no)
  {
    hide Ok, Listed, Chained, GroupRule, CubeRule, RuleProd;
    OkSizes2(s, nv, no);
    var k0 := GroupOf(l)[c];
    forall k: nat | k < 32 && l.el[k] != -1 ensures Made(l, t, k) { assert Made(l, s, k); }
    forall k: nat | k < 32 && l.el[k] != -1 && !Used(l, flags[c := true], k) ensures RuleHeld(l, t, k, nv, no) {
      UsedMore(l, flags, c, k, nv, no);
      assert k != k0 && RuleHeld(l, s, k, nv, no);
      assert l.el[k] != l.el[k0];
      assert Out(s, l.el[k]);
    }
  }

  lemma OkSizes2(s: Store, nv: nat, no: nat)
    requires Ok(s, nv, no, -1)
    ensures |s.data| == |s.info| == |s.a| == |s.z|
  {
  }

  lemma GiveOutside(l: Link, s: Store, t: Store, flags: seq<bool>, c: nat, nv: nat, no: nat)
    requires Cubes(l, s, flags, nv, no) && Outside(l, s, flags, true) && |flags| == l.dist + 2 && c < |flags|
    requires !flags[c]
    requires c < |GroupOf(l)| && GroupOf(l)[c] < 32 && l.el[GroupOf(l)[c]] >= 0 && Kept(s, t, l.el[GroupOf(l)[c]])
    ensures Outside(l, t, flags[c := true], true)
  {
    var k0 := GroupOf(l)[c];
    var p := l.el[k0];
    var more := flags[c := true];
    assert Made(l, s, k0);
    forall h: nat ensures Out(t, h) <==>
      h < |t.data| && (h == l.pa || h == l.pb || exists k :: 0 <= k < |l.el| && l.el[k] == h && !Used(l, more, k))
    {
      assert Out(t, h) <==> Out(s, h) && h != p;
      if k: nat :| k < |l.el| && l.el[k] == h && !Used(l, more, k) {
        UsedMore(l, flags, c, k, nv, no);
        assert k != k0;
      }
      if k: nat :| k < |l.el| && l.el[k] == h && !Used(l, flags, k) && k != k0 {
        UsedMore(l, flags, c, k, nv, no);
        assert !Used(l, more, k);
      }
    }
  }

  lemma GiveSum(l: Link, s0: Store, s: Store, t: Store, flags: seq<bool>, c: nat, nv: nat, no: nat)
    requires Cubes(l, s, flags, nv, no) && OpenSum(l, s0, s, flags, nv, no) && c < |flags| && !flags[c]
    requires c < |GroupOf(l)| && GroupOf(l)[c] < 32 && l.el[GroupOf(l)[c]] >= 0
    requires l.el[GroupOf(l)[c]] < |s.data| && Added(s, t, s.data[l.el[GroupOf(l)[c]]])
    ensures OpenSum(l, s0, t, flags[c := true], nv, no)
  {
    hide GroupRule, CubeRule, RuleProd, Value, PartSum, SumOf;
    var k := GroupOf(l)[c];
    NotUsed(l, flags, c, nv, no);
    assert RuleHeld(l, s, k, nv, no);
    var p := l.el[k];
    forall o: nat, x: Input ensures
      SumOf(t, o, x) ==
        (SumOf(s0, o, x) != ((Value(l.da, o, x) != Value(l.db, o, x)) != PartSum(l, flags[c := true], 0, o, x)))
    {
      PartSumSet(l, flags, 0, c, o, x);
      assert SumOf(t, o, x) == (SumOf(s, o, x) != Value(s.data[p], o, x));
      assert SumOf(s, o, x) ==
          (SumOf(s0, o, x) != ((Value(l.da, o, x) != Value(l.db, o, x)) != PartSum(l, flags, 0, o, x)));
    }
  }

  // ---- Taking the last cube back ----

  lemma UndoPair(l: Link, s0: Store, s: Store, u: Store, flags: seq<bool>, gain: int, p: nat, nv: nat, no: nat)
    requires Pairing(l, s0, s, flags, gain, nv, no) && Ok(u, nv, no, -1) && Restored(s, u, p)
    ensures Pairing(l, s0, u, flags, gain, nv, no)
  {
    hide Ok, Listed, Chained, GroupRule, CubeRule, RuleProd, Value, PartSum, SumOf;
    assert forall h: nat :: Out(u, h) <==> Out(s, h);
    forall k: nat | k < 32 && l.el[k] != -1 ensures Made(l, u, k) { assert Made(l, s, k); }
    forall k: nat | k < 32 && l.el[k] != -1 && !Used(l, flags, k)
      ensures RuleHeld(l, u, k, nv, no)
    { assert RuleHeld(l, s, k, nv, no); }
  }

  // Marks do not matter.
  lemma MarkPair(l: Link, s0: Store, s: Store, flags: seq<bool>, gain: int, p: nat, m: bool, nv: nat, no: nat)
    requires Pairing(l, s0, s, flags, gain, nv, no) && p < |s.info|
    ensures Pairing(l, s0, Marked(s, p, m), flags, gain, nv, no)
  {
    hide Ok, Listed, Chained, GroupRule, CubeRule, RuleProd, Value, PartSum;
    MarkOk(s, p, m, nv, no);
    var u := Marked(s, p, m);
    assert forall h: nat :: Out(u, h) <==> Out(s, h);
    forall k: nat | k < 32 && l.el[k] != -1 ensures Made(l, u, k) { assert Made(l, s, k); }
    forall k: nat | k < 32 && l.el[k] != -1 && !Used(l, flags, k)
      ensures RuleHeld(l, u, k, nv, no)
    { assert RuleHeld(l, s, k, nv, no); }
    forall o: nat, x: Input ensures SumOf(u, o, x) == SumOf(s, o, x) { }
  }

  // ---- Creating cubes ----

  function NoFlags(dist: nat): (r: seq<bool>)
    ensures |r| == dist + 2 && forall c :: 0 <= c < |r| ==> !r[c]
  {
    seq(dist + 2, c => false)
  }

  lemma NoneUsed(l: Link, k: nat)
    ensures !Used(l, NoFlags(l.dist), k)
  {
  }

  ghost function MadeSet(el: seq<int>): set<nat> {
    set k: nat | k < |el| && el[k] != -1
  }

  // There are enough free cubes for the cubes still to be created.
  ghost predicate Roomy(l: Link, s: Store) {
    |s.pool| + |MadeSet(l.el)| >= 32
  }

  // Cubes are being created for the pair; both: whether the pair has left the cover.
  ghost predicate Creating(l: Link, s: Store, both: bool, nv: nat, no: nat) {
    && Ok(s, nv, no, -1) && Cubes(l, s, NoFlags(l.dist), nv, no) && Outside(l, s, NoFlags(l.dist), both) && Roomy(l, s)
    && l.pa < |s.data| && l.pb < |s.data| && s.data[l.pa] == l.da && s.data[l.pb] == l.db && l.pa !in s.pool
    && l.pb !in s.pool
  }

  lemma MadeMore(el: seq<int>, k: nat, p: nat)
    requires |el| == 32 && k < 32 && el[k] == -1
    ensures MadeSet(el[k := p]) == MadeSet(el) + {k} && |MadeSet(el[k := p])| == |MadeSet(el)| + 1 && |MadeSet(el)| < 32
  {
    assert MadeSet(el[k := p]) == MadeSet(el) + {k};
    Bounded(MadeSet(el) + {k}, 32);
  }

  lemma {:induction false} Bounded(s: set<nat>, n: nat)
    requires forall x :: x in s ==> x < n
    ensures |s| <= n
  {
    if n > 0 { Bounded(s - {n - 1}, n - 1); } else { assert s == {}; }
  }

  lemma RoomLeft(l: Link, s: Store, k: nat)
    requires Roomy(l, s) && |l.el| == 32 && k < 32 && l.el[k] == -1
    ensures s.pool != []
  {
    MadeMore(l.el, k, 0);
  }

  // A free cube becomes cube k.
  lemma MakeOk(l: Link, s: Store, k: nat, a: int, z: int, id: nat, both: bool, nv: nat, no: nat)
    requires Creating(l, s, both, nv, no) && k < CubeCount(l.dist) && l.dist < 3 && k < 32 && l.el[k] == -1 && id != 0
    requires Apart(l.da, l.db, l.dist, nv, no)
    requires var d := RuleProd(l.da, l.db, l.dist, k); a == Literals(d.lits) && z == Ones(d.outs)
    ensures s.pool != [] && 0 <= s.free < |s.info| && s.free < |s.data| == |s.a| == |s.z| == |s.info|
    ensures var t := Filled(Taken(s), s.free, RuleProd(l.da, l.db, l.dist, k), a, z, id);
      Creating(l.(el := l.el[k := s.free]), t, both, nv, no) && t.cover == s.cover && SameSum(s, t)
  {
    hide Ok, Listed, Chained, CubeRule, RuleProd, GroupRule;
    RoomLeft(l, s, k);
    RuleGood(l.da, l.db, l.dist, k, nv, no);
    NewCube(s, RuleProd(l.da, l.db, l.dist, k), a, z, id, nv, no);
    MadeMore(l.el, k, s.free);
    var t := Filled(Taken(s), s.free, RuleProd(l.da, l.db, l.dist, k), a, z, id);
    assert s.free != l.pa && s.free != l.pb;
    MakeCubes(l, s, t, k, both, nv, no);
  }

  // A free cube with new contents.
  lemma NewCube(s: Store, d: Prod, a: int, z: int, id: nat, nv: nat, no: nat)
    requires Ok(s, nv, no, -1) && s.pool != [] && id != 0 && Good(d, nv, no) && a == Literals(d.lits)
    requires z == Ones(d.outs)
    ensures 0 <= s.free < |s.info| && s.free < |s.data| == |s.a| == |s.z| == |s.info| && s.free == s.pool[0]
    ensures s.free in s.pool && s.free !in s.cover
    ensures var t := Filled(Taken(s), s.free, d, a, z, id);
      && Ok(t, nv, no, -1) && SameSum(s, t) && t.cover == s.cover && t.pool == s.pool[1..]
      && t.data == s.data[s.free := d]
      && forall h :: h in t.pool <==> h in s.pool && h != s.free
  {
    InCoverNotPool(s, nv, no);
    TakeOk(s, nv, no);
    OkHandles(s, nv, no, -1);
    assert s.free in s.pool;
    FillOk(Taken(s), s.free, d, a, z, id, nv, no, s.free);
    hide Ok, Listed, Chained;
    var t := Filled(Taken(s), s.free, d, a, z, id);
    forall o: nat, x: Input ensures SumOf(t, o, x) == SumOf(s, o, x) {
      forall i | 0 <= i < |s.cover| ensures t.data[s.cover[i]] == s.data[s.cover[i]] { assert s.cover[i] in s.cover; }
      SumFrame(t.data, s.data, s.cover, o, x);
    }
  }

  lemma InCoverNotPool(s: Store, nv: nat, no: nat)
    requires Ok(s, nv, no, -1)
    ensures forall h :: h in s.cover ==> h !in s.pool
    ensures |s.data| == |s.info| == |s.a| == |s.z| && forall h :: h in s.pool ==> h < |s.data|
  {
  }

  // Cube k is created from the free cube p.
  ghost predicate Makes(l: Link, s: Store, t: Store, k: nat, p: nat) {
    && k < 32 == |l.el| && l.el[k] == -1 && l.dist < 3 && k < CubeCount(l.dist)
    && Apart(l.da, l.db, l.dist, |l.da.lits|, |l.da.outs|)
    && p < |s.data| && p in s.pool && p != l.pa && p != l.pb && p !in s.cover
    && t.cover == s.cover && (forall h :: h in t.pool <==> h in s.pool && h != p)
    && t.data == s.data[p := RuleProd(l.da, l.db, l.dist, k)]
  }

  lemma MakeCubes(l: Link, s: Store, t: Store, k: nat, both: bool, nv: nat, no: nat)
    requires Cubes(l, s, NoFlags(l.dist), nv, no) && Outside(l, s, NoFlags(l.dist), both) && k < 32 && l.el[k] == -1
    requires l.dist < 3 && k < CubeCount(l.dist)
    requires s.pool != [] && s.free == s.pool[0] && 0 <= s.free < |s.data| && s.free != l.pa && s.free != l.pb
    requires t.cover == s.cover && t.pool == s.pool[1..] && (forall h :: h in t.pool <==> h in s.pool && h != s.free)
    requires s.free !in s.cover
    requires t.data == s.data[s.free := RuleProd(l.da, l.db, l.dist, k)]
    ensures Cubes(l.(el := l.el[k := s.free]), t, NoFlags(l.dist), nv, no)
    ensures Outside(l.(el := l.el[k := s.free]), t, NoFlags(l.dist), both)
  {
    hide CubeRule, RuleProd, GroupRule, Made, RuleHeld, Outside, Diffs, Distance;
    assert s.free in s.pool;
    assert Makes(l, s, t, k, s.free);
    MadeStays(l, s, t, k, s.free, nv, no);
    OneOutMore(l, s, t, k, s.free, both);
  }

  lemma MadeStays(l: Link, s: Store, t: Store, k: nat, p: nat, nv: nat, no: nat)
    requires Makes(l, s, t, k, p) && Cubes(l, s, NoFlags(l.dist), nv, no)
    ensures Cubes(l.(el := l.el[k := p]), t, NoFlags(l.dist), nv, no)
  {
    hide CubeRule, RuleProd, GroupRule, Good, Diffs, Distance;
    var l' := l.(el := l.el[k := p]);
    forall i: nat | i < 32 && l'.el[i] != -1 ensures Made(l', t, i) && RuleHeld(l', t, i, nv, no) {
      NoneUsed(l, i);
      if i != k { assert l'.el[i] == l.el[i] && RuleHeld(l, s, i, nv, no) && Out(s, l.el[i]); }
    }
    forall i, j | 0 <= i < j < 32 && l'.el[i] != -1 ensures l'.el[i] != l'.el[j] {
      var e := if i == k then j else i;
      if (i == k || j == k) && l.el[e] != -1 {
        NoneUsed(l, e);
        assert RuleHeld(l, s, e, nv, no);
      }
    }
  }

  lemma OneOutMore(l: Link, s: Store, t: Store, k: nat, p: nat, both: bool)
    requires Makes(l, s, t, k, p) && Outside(l, s, NoFlags(l.dist), both)
    ensures Outside(l.(el := l.el[k := p]), t, NoFlags(l.dist), both)
  {
    hide CubeRule, RuleProd, GroupRule, Good, Diffs, Distance;
    var l' := l.(el := l.el[k := p]);
    forall h: nat ensures Out(t, h) <==>
      h < |t.data| &&
      ((both && (h == l.pa || h == l.pb)) ||
       exists i :: 0 <= i < |l'.el| && l'.el[i] == h && !Used(l', NoFlags(l.dist), i))
    {
      assert Out(t, h) <==> Out(s, h) || h == p;
      if Out(s, h) && !(both && (h == l.pa || h == l.pb)) {
        var i :| 0 <= i < |l.el| && l.el[i] == h && !Used(l, NoFlags(l.dist), i);
        assert l'.el[i] == h && i != k;
        NoneUsed(l', i);
      }
      if h == p {
        assert l'.el[k] == h;
        NoneUsed(l', k);
      }
      if i: nat :| i < |l'.el| && l'.el[i] == h && i != k {
        NoneUsed(l, i);
        assert l.el[i] == h;
      }
    }
  }

  // ---- Marks ----

  // Every marked cube is one of the cubes el from place c on.
  ghost predicate MarksIn(el: seq<int>, s: Store, c: int) {
    forall h: nat :: h < |s.info| && s.info[h].mark ==> exists k :: 0 <= k < |el| && c <= k && el[k] == h
  }

  ghost predicate NoMarks(s: Store) {
    forall h: nat :: h < |s.info| ==> !s.info[h].mark
  }

  // The marked cubes of the table.
  ghost function Marks(l: Link, s: Store): set<nat> {
    set k: nat | k < |l.el| && 0 <= l.el[k] < |s.info| && s.info[l.el[k]].mark
  }

  ghost predicate SameMarks(s: Store, t: Store) {
    |t.info| == |s.info| && forall h: nat :: h < |s.info| ==> t.info[h].mark == s.info[h].mark
  }

  lemma MarksSame(l: Link, s: Store, t: Store)
    requires SameMarks(s, t)
    ensures Marks(l, t) == Marks(l, s) && (MarksIn(l.el, s, 0) ==> MarksIn(l.el, t, 0))
  {
  }

  // Only free cubes have been filled.
  ghost predicate Fetched(s: Store, t: Store) {
    && SameMarks(s, t) && |t.data| == |s.data| && (forall h: nat :: h in t.pool ==> h in s.pool)
    && (forall h: nat :: h < |s.info| && h !in s.pool ==> t.info[h].id == s.info[h].id)
    && (forall h: nat :: h < |s.data| && h !in s.pool ==> t.data[h] == s.data[h])
  }

  lemma FetchedSelf(s: Store)
    ensures Fetched(s, s)
  {
  }

  lemma FetchedTwice(s: Store, t: Store, u: Store)
    requires Fetched(s, t) && Fetched(t, u)
    ensures Fetched(s, u)
  {
  }

  lemma FetchedOne(s: Store, d: Prod, a: int, z: int, id: nat, nv: nat, no: nat)
    requires Ok(s, nv, no, -1) && s.pool != []
    ensures 0 <= s.free < |s.info| && s.free < |s.data| == |s.a| == |s.z| == |s.info|
    ensures Fetched(s, Filled(Taken(s), s.free, d, a, z, id))
  {
    TakeOk(s, nv, no);
    assert s.free in s.pool;
    hide Ok;
  }

  // The cubes of the cover of e have their IDs.
  ghost predicate SameIds(e: Store, t: Store) {
    |t.info| == |e.info| && forall h: nat :: h in e.cover && h < |e.info| ==> t.info[h].id == e.info[h].id
  }

  // The cube at place c is no longer marked.
  lemma MarksNext(el: seq<int>, s: Store, t: Store, c: nat)
    requires MarksIn(el, s, c) && c < |el| && |t.info| == |s.info|
    requires forall h: nat :: h < |s.info| && h != el[c] ==> t.info[h].mark == s.info[h].mark
    requires 0 <= el[c] < |t.info| ==> !t.info[el[c]].mark
    ensures MarksIn(el[c := -1], t, c + 1)
  {
    var f := el[c := -1];
    forall h: nat | h < |t.info| && t.info[h].mark ensures exists k :: 0 <= k < |f| && c + 1 <= k && f[k] == h {
      var k :| 0 <= k < |el| && c <= k && el[k] == h;
      assert f[k] == h;
    }
  }

  lemma MarksGone(el: seq<int>, s: Store, c: int)
    requires MarksIn(el, s, c) && forall k :: 0 <= k < |el| ==> el[k] == -1
    ensures NoMarks(s)
  {
  }

  // Cubes created since are not marked.
  lemma MarksMade(l: Link, m: Link, s: Store, t: Store, flags: seq<bool>, nv: nat, no: nat)
    requires SameMarks(s, t) && MarksIn(l.el, s, 0) && |l.el| == |m.el| && Cubes(m, t, flags, nv, no)
    requires forall k :: 0 <= k < |l.el| && l.el[k] != -1 ==> m.el[k] == l.el[k]
    ensures Marks(m, t) == Marks(l, s) && MarksIn(m.el, t, 0)
  {
    hide RuleHeld, Made;
    forall h: nat | h < |t.info| && t.info[h].mark ensures exists k :: 0 <= k < |m.el| && m.el[k] == h {
      var k :| 0 <= k < |l.el| && l.el[k] == h;
      assert m.el[k] == h;
    }
    forall k: nat ensures k in Marks(m, t) <==> k in Marks(l, s) {
      if k in Marks(m, t) {
        var j :| 0 <= j < |l.el| && l.el[j] == m.el[k];
        assert m.el[j] == m.el[k];
      }
    }
  }

  // ---- From the cover to the pair and back ----

  ghost predicate NoneOut(s: Store) {
    forall h: nat :: !Out(s, h)
  }

  // The pair leaves the cover.
  lemma OpenPair(l: Link, s: Store, t: Store, u: Store, i: nat, j: nat, nv: nat, no: nat)
    requires Creating(l, s, false, nv, no) && i < |s.cover| && s.cover[i] == l.pa
    requires l.pa < |s.info| && -1 <= s.info[l.pa].prev < |s.info| && -1 <= s.info[l.pa].next < |s.info|
    requires t == Extracted(s, i)
    requires j < |t.cover| && t.cover[j] == l.pb
    requires l.pb < |t.info| && -1 <= t.info[l.pb].prev < |t.info| && -1 <= t.info[l.pb].next < |t.info|
    requires u == Extracted(t, j)
    ensures Pairing(l, s, u, NoFlags(l.dist), 0, nv, no) && Creating(l, u, true, nv, no)
  {
    hide Ok, Listed, Chained, CubeRule, RuleProd, GroupRule, AfterExtract, PartSum, Value, SumOf;
    ExtractOk(s, i, nv, no);
    ExtractOk(t, j, nv, no);
    OkHandles(s, nv, no, -1);
    OkHandles(u, nv, no, -1);
    CountAll(NoFlags(l.dist));
    assert forall h: nat :: Out(u, h) <==> Out(s, h) || h == l.pa || h == l.pb;
    forall k: nat | k < 32 && l.el[k] != -1 ensures Made(l, u, k) && RuleHeld(l, u, k, nv, no) {
      NoneUsed(l, k);
      assert RuleHeld(l, s, k, nv, no);
    }
    forall o: nat, x: Input ensures
      SumOf(u, o, x) ==
        (SumOf(s, o, x) != ((Value(l.da, o, x) != Value(l.db, o, x)) != PartSum(l, NoFlags(l.dist), 0, o, x)))
    {
      TwoOut(s, t, u, i, j, o, x);
      PartSumNone(l, NoFlags(l.dist), 0, o, x);
    }
  }

  lemma TwoOut(s: Store, t: Store, u: Store, i: nat, j: nat, o: nat, x: Input)
    requires Handles(s.data, s.cover) && i < |s.cover| && t.cover == Without(s.cover, i) && t.data == s.data
    requires j < |t.cover| && u.cover == Without(t.cover, j) && u.data == s.data
    ensures Handles(u.data, u.cover)
    ensures SumOf(u, o, x) == (SumOf(s, o, x) != (Value(s.data[s.cover[i]], o, x) != Value(s.data[t.cover[j]], o, x)))
  {
    ExtractSum(s, i, o, x);
    ExtractSum(t, j, o, x);
  }

  // Another group: as long as nothing has been given away, only the number changes.
  lemma SwitchGroup(l: Link, s0: Store, s: Store, g: nat, nv: nat, no: nat)
    requires Pairing(l, s0, s, NoFlags(l.dist), 0, nv, no) && g < GroupCount(l.dist)
    ensures Pairing(l.(g := g), s0, s, NoFlags(l.dist), 0, nv, no)
    ensures Creating(l, s, true, nv, no) ==> Creating(l.(g := g), s, true, nv, no)
  {
    hide Ok, CubeRule, RuleProd, GroupRule, Value, SumOf, Used, PartSum;
    var m := l.(g := g);
    forall k ensures !Used(l, NoFlags(l.dist), k) && !Used(m, NoFlags(l.dist), k) {
      NoneUsed(l, k);
      NoneUsed(m, k);
    }
    forall k: nat | k < 32 && l.el[k] != -1
      ensures Made(m, s, k) && RuleHeld(m, s, k, nv, no)
    { assert RuleHeld(l, s, k, nv, no); }
    forall o: nat, x: Input ensures PartSum(m, NoFlags(l.dist), 0, o, x) == PartSum(l, NoFlags(l.dist), 0, o, x) {
      PartSumNone(l, NoFlags(l.dist), 0, o, x);
      PartSumNone(m, NoFlags(l.dist), 0, o, x);
    }
  }

  // More cubes created while the pair is out.
  lemma CreatedPair(l: Link, m: Link, s0: Store, s: Store, t: Store, nv: nat, no: nat)
    requires Pairing(l, s0, s, NoFlags(l.dist), 0, nv, no) && Creating(m, t, true, nv, no)
    requires m == l.(el := m.el) && t.cover == s.cover && SameSum(s, t) && |t.data| == |s.data|
    ensures Pairing(m, s0, t, NoFlags(l.dist), 0, nv, no)
  {
    hide Ok, Made, RuleHeld, Outside, Value, SumOf, PartSum;
    forall o: nat, x: Input ensures PartSum(m, NoFlags(l.dist), 0, o, x) == PartSum(l, NoFlags(l.dist), 0, o, x) {
      PartSumNone(l, NoFlags(l.dist), 0, o, x);
      PartSumNone(m, NoFlags(l.dist), 0, o, x);
    }
  }

  // ---- Putting the cubes back ----

  // A created cube goes back to the free list.
  lemma FreeMade(l: Link, s: Store, flags: seq<bool>, k: nat, both: bool, nv: nat, no: nat)
    requires Ok(s, nv, no, -1) && Cubes(l, s, flags, nv, no) && Outside(l, s, flags, both) && k < 32 && l.el[k] != -1
    requires !Used(l, flags, k)
    ensures l.el[k] >= 0 && Out(s, l.el[k]) && l.el[k] < |s.info|
    ensures var t := Freed(s, l.el[k]);
      && Ok(t, nv, no, -1) && Cubes(l.(el := l.el[k := -1]), t, flags, nv, no)
      && Outside(l.(el := l.el[k := -1]), t, flags, both)
      && t.cover == s.cover && t.data == s.data
  {
    var p, m := l.el[k], l.(el := l.el[k := -1]);
    assert RuleHeld(l, s, k, nv, no);
    FreeOk(s, p, nv, no);
    assert p < |s.info|;
    var t := Freed(s, p);
    hide Ok, Listed, Chained, CubeRule, RuleProd, GroupRule;
    assert forall i :: 0 <= i < 32 && m.el[i] != -1 ==> m.el[i] == l.el[i];
    SameUsed(l, m, flags);
    forall i: nat | i < 32 && m.el[i] != -1 ensures Made(m, t, i) { assert Made(l, s, i); }
    forall i: nat | i < 32 && m.el[i] != -1 && !Used(m, flags, i) ensures RuleHeld(m, t, i, nv, no) {
      assert RuleHeld(l, s, i, nv, no) && l.el[i] != l.el[k];
      assert Out(s, l.el[i]);
    }
    FreeOutside(l, s, t, flags, k, both);
  }

  lemma SameUsed(l: Link, m: Link, flags: seq<bool>)
    requires m.dist == l.dist && m.g == l.g
    ensures forall k :: Used(m, flags, k) <==> Used(l, flags, k)
  {
    assert GroupOf(m) == GroupOf(l);
  }

  lemma FreeOutside(l: Link, s: Store, t: Store, flags: seq<bool>, k: nat, both: bool)
    requires Outside(l, s, flags, both) && |l.el| == 32 && k < 32 && l.el[k] >= 0 && !Used(l, flags, k)
    requires l.el[k] != l.pa && l.el[k] != l.pb
    requires forall i, j :: 0 <= i < j < 32 && l.el[i] != -1 ==> l.el[i] != l.el[j]
    requires t.cover == s.cover && t.pool == [l.el[k]] + s.pool && |t.data| == |s.data|
    ensures Outside(l.(el := l.el[k := -1]), t, flags, both)
  {
    var p, m := l.el[k], l.(el := l.el[k := -1]);
    SameUsed(l, m, flags);
    forall h: nat ensures Out(t, h) <==>
      h < |t.data| &&
      ((both && (h == l.pa || h == l.pb)) || exists i :: 0 <= i < |m.el| && m.el[i] == h && !Used(m, flags, i))
    {
      assert Out(t, h) <==> Out(s, h) && h != p;
      if i: nat :| i < |m.el| && m.el[i] == h && !Used(m, flags, i) {
        assert i != k && l.el[i] == h;
      }
      if i: nat :| i < |l.el| && l.el[i] == h && !Used(l, flags, i) && i != k {
        assert m.el[i] == h;
      }
    }
  }

  // Cubes of the last group are only forgotten.
  lemma ForgetUsed(l: Link, s: Store, flags: seq<bool>, k: nat, both: bool, nv: nat, no: nat)
    requires Cubes(l, s, flags, nv, no) && Outside(l, s, flags, both) && k < 32 && Used(l, flags, k)
    ensures Cubes(l.(el := l.el[k := -1]), s, flags, nv, no) && Outside(l.(el := l.el[k := -1]), s, flags, both)
  {
    hide CubeRule, RuleProd, GroupRule;
    var m := l.(el := l.el[k := -1]);
    SameUsed(l, m, flags);
    assert forall i :: 0 <= i < 32 && m.el[i] != -1 ==> m.el[i] == l.el[i];
    forall i: nat | i < 32 && m.el[i] != -1 ensures Made(m, s, i) { assert Made(l, s, i); }
    forall i: nat | i < 32 && m.el[i] != -1 && !Used(m, flags, i)
      ensures RuleHeld(m, s, i, nv, no)
    { assert RuleHeld(l, s, i, nv, no); }
    forall h: nat ensures Out(s, h) <==>
      h < |s.data| &&
      ((both && (h == l.pa || h == l.pb)) || exists i :: 0 <= i < |m.el| && m.el[i] == h && !Used(m, flags, i))
    {
      if i: nat :| i < |l.el| && l.el[i] == h && !Used(l, flags, i) { assert m.el[i] == h; }
      if i: nat :| i < |m.el| && m.el[i] == h && !Used(m, flags, i) { assert l.el[i] == h; }
    }
  }

  lemma NothingLeft(l: Link, s: Store, flags: seq<bool>, both: bool)
    requires Outside(l, s, flags, both) && forall k :: 0 <= k < |l.el| ==> l.el[k] == -1
    ensures forall h: nat :: Out(s, h) <==> h < |s.data| && both && (h == l.pa || h == l.pb)
  {
  }

  // ---- Counting the cubes ----

  function Elems(hs: seq<nat>): set<nat> {
    set h | h in hs
  }

  lemma {:induction false} DistinctCount(hs: seq<nat>)
    requires Distinct(hs)
    ensures |Elems(hs)| == |hs|
  {
    if hs != [] {
      DistinctCount(hs[1..]);
      assert hs == [hs[0]] + hs[1..];
      assert Elems(hs) == {hs[0]} + Elems(hs[1..]);
    }
  }

  function Below(n: nat): (r: set<nat>)
    ensures |r| == n && forall x: nat :: x in r <==> x < n
  {
    if n == 0 then {} else Below(n - 1) + {n - 1}
  }

  // With nothing outside the lists every cube is in the cover or free.
  lemma Conservation(s: Store, nv: nat, no: nat)
    requires Ok(s, nv, no, -1) && NoneOut(s)
    ensures |s.cover| + |s.pool| == |s.data|
  {
    ListedRange(s.info, s.list, s.cover);
    DistinctCount(s.cover);
    DistinctCount(s.pool);
    var c, p := Elems(s.cover), Elems(s.pool);
    assert c !! p;
    forall h: nat ensures h in c + p <==> h in Below(|s.data|) { assert !Out(s, h); }
    assert c + p == Below(|s.data|);
  }
}
