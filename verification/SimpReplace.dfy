// Replacing the clauses of a variable by their resolvents.
module SimpReplace {
  import opened Cnf
  import opened SatState
  import opened SimpRecords
  import opened SimpMerge
  import opened SimpElim
  import opened SimpQuiet
  import opened SimpStore

  // The records belong to the eliminated variables.
  ghost predicate Recorded(rs: seq<Clause>, elim: seq<nat>, eliminated: seq<bool>) {
    && elim == Flat(rs) && Layered(rs, |eliminated|)
    && (forall k :: 0 <= k < |rs| ==> rs[k] != [] && rs[k][0].v < |eliminated| && eliminated[rs[k][0].v])
    && (forall v: nat :: v < |eliminated| && eliminated[v] ==> HasDefault(rs, |rs|, v))
  }

  lemma NotRecorded(rs: seq<Clause>, elim: seq<nat>, eliminated: seq<bool>, lits: Clause)
    requires Recorded(rs, elim, eliminated)
    requires forall i :: 0 <= i < |lits| ==> lits[i].v < |eliminated| && !eliminated[lits[i].v]
    ensures forall l, k :: l in lits && 0 <= k < |rs| ==> rs[k] != [] && rs[k][0].v != l.v
  {
  }

  // ---- Elimination ----

  lemma HasVarNext(c: Clause, i: nat, v: nat)
    requires i < |c|
    ensures HasVar(c[..i + 1], v) <==> HasVar(c[..i], v) || c[i].v == v
  {
    assert c[..i + 1] == c[..i] + [c[i]];
    if HasVar(c[..i + 1], v) && c[i].v != v {
      var j :| 0 <= j < i + 1 && c[..i + 1][j].v == v;
      assert c[..i][j].v == v;
    }
    if c[i].v == v { assert c[..i + 1][i].v == v; }
    if HasVar(c[..i], v) {
      var j :| 0 <= j < i && c[..i][j].v == v;
      assert c[..i + 1][j].v == v;
    }
  }

  // The codes of c, that of variable v exchanged with the first one.
  method FrontCodes(c: Clause, v: nat) returns (codes: seq<nat>, k: nat)
    requires HasVar(c, v)
    ensures k < |c| && c[k].v == v && codes == Codes(Front(c, k))
  {
    codes, k := [], 0;
    for i := 0 to |c|
      invariant codes == Codes(c)[..i] && (HasVar(c[..i], v) ==> k < |c| && c[k].v == v)
    {
      codes := codes + [Code(c[i])];
      if c[i].v == v {
        k := i;
      }
      HasVarNext(c, i, v);
    }
    assert c[..|c|] == c;
    CodesFront(c, k);
    codes := codes[k := codes[0]][0 := codes[k]];
  }

  lemma CodesFront(c: Clause, k: nat)
    requires k < |c|
    ensures Codes(c)[k := Codes(c)[0]][0 := Codes(c)[k]] == Codes(Front(c, k))
  {
  }

  function ClausesOf(db: Clauses, hs: seq<nat>): (r: seq<Clause>)
    requires forall k :: 0 <= k < |hs| ==> hs[k] in db
    ensures |r| == |hs| && forall k :: 0 <= k < |hs| ==> r[k] == db[hs[k]]
  {
    seq(|hs|, k requires 0 <= k < |hs| => db[hs[k]])
  }

  lemma FrontsNone(side: seq<Clause>, v: nat)
    ensures Fronts([], side[..0], v)
  {
  }

  lemma FrontsMore(ts: seq<Clause>, side: seq<Clause>, i: nat, v: nat, r: Clause)
    requires i < |side| && Fronts(ts, side[..i], v) && DistinctVars(side[i])
    requires FrontOf(r, side[i], v)
    ensures Fronts(ts + [r], side[..i + 1], v)
  {
    var u, w := ts + [r], side[..i + 1];
    forall k | 0 <= k < |w| ensures FrontOf(u[k], w[k], v) {
      if k < i { assert w[k] == side[..i][k] && u[k] == ts[k]; } else { assert w[k] == side[i] && u[k] == r; }
    }
  }

  lemma OtherSign(c: Clause, v: nat)
    requires HasVar(c, v) && Lit(v, false) !in c
    ensures Lit(v, true) in c
  {
    var j :| 0 <= j < |c| && c[j].v == v;
    assert c[j] == Lit(v, c[j].neg);
  }

  // The number of resolvents of p with the first j clauses of q, and of all of them.
  ghost function Row(p: Clause, q: seq<Clause>, v: nat, j: nat): nat
    requires j <= |q|
  {
    if j == 0 then 0 else Row(p, q, v, j - 1) + if Clash(p, q[j - 1], v) then 0 else 1
  }

  ghost function Total(p: seq<Clause>, q: seq<Clause>, v: nat, i: nat): nat
    requires i <= |p|
  {
    if i == 0 then 0 else Total(p, q, v, i - 1) + Row(p[i - 1], q, v, |q|)
  }

  ghost predicate ShortRow(p: Clause, q: seq<Clause>, v: nat, lim: int, j: nat) {
    j <= |q| && forall y :: 0 <= y < j && !Clash(p, q[y], v) ==> lim == -1 || |Resolvent(p, q[y], v)| <= lim
  }

  ghost predicate ShortUpTo(p: seq<Clause>, q: seq<Clause>, v: nat, lim: int, i: nat) {
    i <= |p| && forall x :: 0 <= x < i ==> ShortRow(p[x], q, v, lim, |q|)
  }

  // The number of clauses grows by no more than grow, and no resolvent is too long.
  ghost predicate Growth(p: seq<Clause>, q: seq<Clause>, v: nat, size: nat, grow: int, lim: int) {
    (Total(p, q, v, |p|) == 0 || Total(p, q, v, |p|) <= size + grow) && ShortUpTo(p, q, v, lim, |p|)
  }

  lemma {:induction false} RowMore(p: Clause, q: seq<Clause>, v: nat, j: nat, k: nat)
    requires j <= k <= |q|
    ensures Row(p, q, v, j) <= Row(p, q, v, k)
    decreases k - j
  {
    if j < k { RowMore(p, q, v, j, k - 1); }
  }

  lemma {:induction false} TotalMore(p: seq<Clause>, q: seq<Clause>, v: nat, i: nat, k: nat)
    requires i <= k <= |p|
    ensures Total(p, q, v, i) <= Total(p, q, v, k)
    decreases k - i
  {
    if i < k { TotalMore(p, q, v, i, k - 1); }
  }

  // The pairs before (i, j) have been counted.
  ghost predicate Counted(p: seq<Clause>, q: seq<Clause>, v: nat, i: nat, j: nat, cnt: nat, size: nat, grow: int,
                          lim: int) {
    && i <= |p| && j <= |q| && cnt == Total(p, q, v, i) + (if i < |p| then Row(p[i], q, v, j) else 0)
    && (cnt == 0 || cnt <= size + grow) && ShortUpTo(p, q, v, lim, i) && (i < |p| ==> ShortRow(p[i], q, v, lim, j))
  }

  lemma CountStart(p: seq<Clause>, q: seq<Clause>, v: nat, size: nat, grow: int, lim: int)
    ensures Counted(p, q, v, 0, 0, 0, size, grow, lim)
  {
  }

  lemma CountNext(p: seq<Clause>, q: seq<Clause>, v: nat, i: nat, j: nat, cnt: nat, size: nat, grow: int, lim: int)
    requires i < |p| && j < |q| && Counted(p, q, v, i, j, cnt, size, grow, lim)
    ensures Clash(p[i], q[j], v) ==> Counted(p, q, v, i, j + 1, cnt, size, grow, lim)
    ensures !Clash(p[i], q[j], v) ==>
      if cnt + 1 > size + grow || (lim != -1 && |Resolvent(p[i], q[j], v)| > lim) then !Growth(p, q, v, size, grow, lim)
      else Counted(p, q, v, i, j + 1, cnt + 1, size, grow, lim)
  {
    hide Clash, Resolvent;
    if !Clash(p[i], q[j], v) {
      if cnt + 1 > size + grow {
        TooMany(p, q, v, i, j, size, grow, lim);
      } else if lim != -1 && |Resolvent(p[i], q[j], v)| > lim {
        TooLong(p, q, v, i, j, size, grow, lim);
      }
    }
  }

  lemma TooMany(p: seq<Clause>, q: seq<Clause>, v: nat, i: nat, j: nat, size: nat, grow: int, lim: int)
    requires i < |p| && j < |q| && !Clash(p[i], q[j], v) && Total(p, q, v, i) + Row(p[i], q, v, j) + 1 > size + grow
    ensures !Growth(p, q, v, size, grow, lim)
  {
    hide Clash, Resolvent;
    RowMore(p[i], q, v, j + 1, |q|);
    TotalMore(p, q, v, i + 1, |p|);
  }

  lemma TooLong(p: seq<Clause>, q: seq<Clause>, v: nat, i: nat, j: nat, size: nat, grow: int, lim: int)
    requires i < |p| && j < |q| && !Clash(p[i], q[j], v) && lim != -1 && |Resolvent(p[i], q[j], v)| > lim
    ensures !Growth(p, q, v, size, grow, lim)
  {
    hide Clash, Resolvent, Total;
    assert !ShortRow(p[i], q, v, lim, |q|);
  }

  lemma CountRow(p: seq<Clause>, q: seq<Clause>, v: nat, i: nat, cnt: nat, size: nat, grow: int, lim: int)
    requires i < |p| && Counted(p, q, v, i, |q|, cnt, size, grow, lim)
    ensures Counted(p, q, v, i + 1, 0, cnt, size, grow, lim)
  {
    hide Clash, Resolvent;
  }

  lemma CountEnd(p: seq<Clause>, q: seq<Clause>, v: nat, cnt: nat, size: nat, grow: int, lim: int)
    requires Counted(p, q, v, |p|, 0, cnt, size, grow, lim)
    ensures Growth(p, q, v, size, grow, lim)
  {
    hide Clash, Resolvent;
  }

  // What has been added since db0 makes, for each pair up to (i, j), what is left of one of the
  // two clauses true.
  ghost predicate Crossed(db0: Clauses, db: Clauses, vals: seq<Value>, p: seq<Clause>, q: seq<Clause>, v: nat,
                          i: nat, j: nat) {
    i <= |p| && j <= |q| && forall a: Assignment :: Sat(db - db0.Keys, vals, a) ==> PairsHold(a, p, q, v, i, j)
  }

  ghost predicate PairsHold(a: Assignment, p: seq<Clause>, q: seq<Clause>, v: nat, i: nat, j: nat)
    requires i <= |p| && j <= |q|
  {
    forall x, y :: 0 <= x < |p| && 0 <= y < |q| && (x < i || (x == i && y < j)) ==>
        OthersHold(a, p[x], v) || OthersHold(a, q[y], v)
  }

  // The clauses of db0 are still there, and the new ones have no eliminated variable.
  ghost predicate NewFree(db0: Clauses, db: Clauses, eliminated: seq<bool>, v: nat) {
    && (forall h :: h in db0 ==> h in db && db[h] == db0[h])
    && (forall h, i :: h in db && h !in db0 && 0 <= i < |db[h]| ==>
        db[h][i].v < |eliminated| && !eliminated[db[h][i].v] && db[h][i].v != v)
  }

  lemma NothingNew(db: Clauses, vals: seq<Value>, eliminated: seq<bool>, v: nat, p: seq<Clause>, q: seq<Clause>)
    ensures Crossed(db, db, vals, p, q, v, 0, 0) && NewFree(db, db, eliminated, v)
  {
  }

  lemma RowDone(db0: Clauses, db: Clauses, vals: seq<Value>, p: seq<Clause>, q: seq<Clause>, v: nat, i: nat)
    requires i < |p| && Crossed(db0, db, vals, p, q, v, i, |q|)
    ensures Crossed(db0, db, vals, p, q, v, i + 1, 0)
  {
    hide Sat, OthersHold;
  }

  lemma StillThere(db0: Clauses, db: Clauses, eliminated: seq<bool>, v: nat, h: nat)
    requires NewFree(db0, db, eliminated, v) && h in db0
    ensures h in db && db[h] == db0[h]
  {
  }

  lemma ClashCrossed(db0: Clauses, db: Clauses, vals: seq<Value>, p: seq<Clause>, q: seq<Clause>, v: nat, i: nat,
                     j: nat)
    requires i < |p| && j < |q| && Crossed(db0, db, vals, p, q, v, i, j) && Clash(p[i], q[j], v)
    ensures Crossed(db0, db, vals, p, q, v, i, j + 1)
  {
    hide Sat, OthersHold, Clash;
    forall a: Assignment ensures OthersHold(a, p[i], v) || OthersHold(a, q[j], v) { ClashHolds(a, p[i], q[j], v); }
  }

  lemma ResolventRange(p: Clause, q: Clause, v: nat, n: nat, eliminated: seq<bool>)
    requires !Clash(p, q, v) && |eliminated| == n
    requires forall i :: 0 <= i < |p| && p[i].v != v ==> p[i].v < n && !eliminated[p[i].v]
    requires forall i :: 0 <= i < |q| && q[i].v != v ==> q[i].v < n && !eliminated[q[i].v]
    ensures forall l :: l in Resolvent(p, q, v) ==> l.v < n && !eliminated[l.v] && l.v != v
  {
    ResolventLits(p, q, v);
  }

  // The resolvent follows from the two clauses.
  lemma ResolventSame(db0: Clauses, vals0: seq<Value>, db1: Clauses, vals1: seq<Value>, db2: Clauses, vals2: seq<Value>,
                      p: seq<Clause>, q: seq<Clause>, v: nat, i: nat, j: nat)
    requires i < |p| && j < |q| && !Clash(p[i], q[j], v) && Same(db0, vals0, db1, vals1)
    requires (exists h :: h in db0 && db0[h] == p[i]) && (exists h :: h in db0 && db0[h] == q[j])
    requires DistinctVars(p[i]) && DistinctVars(q[j]) && Lit(v, false) in p[i] && Lit(v, true) in q[j]
    ensures Adds(db1, vals1, db2, vals2, Resolvent(p[i], q[j], v)) ==> Same(db0, vals0, db2, vals2)
    ensures Refutes(db1, vals1, Resolvent(p[i], q[j], v)) ==> Never(db0, vals0)
  {
    var r := Resolvent(p[i], q[j], v);
    forall a: Assignment | Sat(db0, vals0, a) ensures SomeHolds(a, LitSet(r)) {
      assert SomeHolds(a, LitSet(p[i])) && SomeHolds(a, LitSet(q[j]));
      ResolventHolds(a, p[i], q[j], v);
      OneSide(a, p[i], q[j], v);
    }
    hide Sat, SomeHolds, Resolvent, Clash;
  }

  lemma OneSide(a: Assignment, p: Clause, q: Clause, v: nat)
    requires SomeHolds(a, LitSet(p)) && SomeHolds(a, LitSet(q)) && DistinctVars(p) && DistinctVars(q)
    requires Lit(v, false) in p && Lit(v, true) in q
    ensures OthersHold(a, p, v) || OthersHold(a, q, v)
  {
    var l :| l in LitSet(p) && Holds(a, l);
    var m :| m in LitSet(q) && Holds(a, m);
    if l.v == v && m.v == v {
      SameSign(p, Lit(v, false), l);
      SameSign(q, Lit(v, true), m);
    }
  }

  lemma SameSign(c: Clause, x: Lit, l: Lit)
    requires DistinctVars(c) && x in c && l in c && x.v == l.v
    ensures x == l
  {
  }

  lemma ResolventCrossed(db0: Clauses, db1: Clauses, vals1: seq<Value>, db2: Clauses, vals2: seq<Value>,
                         p: seq<Clause>, q: seq<Clause>, v: nat, i: nat, j: nat, out: Clause, next: nat,
                         eliminated: seq<bool>)
    requires i < |p| && j < |q| && !Clash(p[i], q[j], v) && out == Resolvent(p[i], q[j], v)
    requires Crossed(db0, db1, vals1, p, q, v, i, j)
    requires Carried(db1, db2, vals2, out) && Only(db1, db2, out, next) && Keeps(vals1, vals2)
    requires NewFree(db0, db1, eliminated, v)
    ensures Crossed(db0, db2, vals2, p, q, v, i, j + 1)
  {
    hide OthersHold, Clash, Resolvent;
    forall a: Assignment | Sat(db2 - db0.Keys, vals2, a) ensures PairsHold(a, p, q, v, i, j + 1) {
      LessSat(db2 - db0.Keys, vals2, db1 - db0.Keys, vals1, a);
      assert PairsHold(a, p, q, v, i, j);
      LessSat(db2 - db0.Keys, vals2, db2 - db1.Keys, vals2, a);
      ResolventHolds(a, p[i], q[j], v);
    }
  }

  lemma LessSat(db: Clauses, vals: seq<Value>, db': Clauses, vals': seq<Value>, a: Assignment)
    requires Sat(db, vals, a) && Keeps(vals', vals) && forall h :: h in db' ==> h in db && db[h] == db'[h]
    ensures Sat(db', vals', a)
  {
  }

  lemma ResolventFree(db0: Clauses, db1: Clauses, db2: Clauses, eliminated: seq<bool>, v: nat, out: Clause, next: nat)
    requires NewFree(db0, db1, eliminated, v) && Only(db1, db2, out, next)
    requires forall l :: l in out ==> l.v < |eliminated| && !eliminated[l.v] && l.v != v
    ensures NewFree(db0, db2, eliminated, v)
  {

  }

  // ---- The elimination as a whole ----

  lemma AllOccurrences(n: nat, db: Clauses, vals: seq<Value>, occurs: seq<seq<nat>>, next: nat, v: nat)
    requires Stored(n, db, vals, occurs, next) && v < n && forall h :: h in occurs[v] ==> h in db
    ensures forall h :: h in db ==> DistinctVars(db[h]) && (HasVar(db[h], v) <==> h in occurs[v])
    ensures Apart(occurs[v])
  {
    assert ListOk(db, occurs[v], v, next);
    forall h | h in db ensures DistinctVars(db[h]) && (HasVar(db[h], v) <==> h in occurs[v]) {
      assert Fits(db[h], n) && Listed(db[h], h, occurs) && ListOk(db, occurs[v], v, next);
    }
  }

  // cls are the clauses with v, split into those with v and those with ~v.
  ghost predicate Occurring(db: Clauses, v: nat, cls: seq<nat>, pos: seq<nat>, neg: seq<nat>) {
    && |pos| + |neg| == |cls| && Apart(pos) && Apart(neg)
    && (forall h :: h in cls ==> h in db && (h in pos || h in neg))
    && (forall h :: h in pos ==> h in cls && Lit(v, false) in db[h])
    && (forall h :: h in neg ==> h in cls && Lit(v, true) in db[h])
    && forall h :: h in db ==> DistinctVars(db[h]) && (HasVar(db[h], v) <==> h in cls)
  }

  lemma OccurringLists(db: Clauses, v: nat, cls: seq<nat>, pos: seq<nat>, neg: seq<nat>)
    requires Occurring(db, v, cls, pos, neg)
    ensures (forall h :: h in cls ==> h in db) && (forall h :: h in pos ==> h in db && Lit(v, false) in db[h])
    ensures forall h :: h in neg ==> h in db && Lit(v, true) in db[h]
  {
  }

  ghost predicate Sides(p: seq<Clause>, q: seq<Clause>, side: seq<Clause>, others: seq<Clause>) {
    (side == p && others == q) || (side == q && others == p)
  }

  lemma RecordedFlat(rs: seq<Clause>, elim: seq<nat>, eliminated: seq<bool>)
    requires Recorded(rs, elim, eliminated)
    ensures elim == Flat(rs)
  {
  }

  lemma OthersFree(db: Clauses, eliminated: seq<bool>, v: nat)
    requires Free(db, eliminated) && v < |eliminated|
    ensures forall h, i :: h in db && 0 <= i < |db[h]| && db[h][i].v != v ==>
      db[h][i].v < |eliminated| && !eliminated[v := true][db[h][i].v]
    ensures forall h, i :: h in db && 0 <= i < |db[h]| ==> db[h][i].v < |eliminated| && !eliminated[db[h][i].v]
  {
  }

  lemma RecordedMore(rs: seq<Clause>, elim: seq<nat>, eliminated: seq<bool>, ts: seq<Clause>, d: Lit,
                     side: seq<Clause>, v: nat, elim': seq<nat>)
    requires Recorded(rs, elim, eliminated) && Fronts(ts, side, v) && d.v == v < |eliminated|
    requires elim' == Flat(rs + (ts + [[d]]))
    requires forall k, i :: 0 <= k < |side| && 0 <= i < |side[k]| ==>
      side[k][i].v < |eliminated| && !eliminated[side[k][i].v]
    ensures Recorded(rs + (ts + [[d]]), elim', eliminated[v := true])
  {
    hide Flat;
    var us: seq<Clause>, e := rs + (ts + [[d]]), eliminated[v := true];
    forall k | 0 <= k < |ts|
      ensures ts[k] != [] && ts[k][0].v == v
      ensures forall i :: 0 <= i < |ts[k]| ==>
        ts[k][i].v < |e| && (1 <= i ==> ts[k][i].v != v && !eliminated[ts[k][i].v])
    {
      FrontFree(ts[k], side[k], v, eliminated);
    }
    forall k | 0 <= k < |us|
      ensures us[k] != [] && us[k][0].v < |e| && e[us[k][0].v] && forall i :: 0 <= i < |us[k]| ==> us[k][i].v < |e|
    {
      if k >= |rs| { assert us[k] == (ts + [[d]])[k - |rs|]; }
    }
    forall k, m, i | 0 <= m <= k < |us| && 1 <= i < |us[k]| ensures us[k][i].v != us[m][0].v {
      if k >= |rs| {
        assert us[k] == (ts + [[d]])[k - |rs|];
        if m >= |rs| { assert us[m] == (ts + [[d]])[m - |rs|]; }
      }
    }
    forall u: nat | u < |e| && e[u] ensures HasDefault(us, |us|, u) {
      if u == v {
        assert us[|us| - 1] == [d];
        assert Default(us, |us| - 1, v);
      } else {
        var m: nat :| m < |rs| && Default(rs, m, u);
        assert Default(us, m, u);
      }
    }
  }

  lemma FrontFree(r: Clause, c: Clause, v: nat, eliminated: seq<bool>)
    requires FrontOf(r, c, v) && forall i :: 0 <= i < |c| ==> c[i].v < |eliminated| && !eliminated[c[i].v]
    ensures r != [] && r[0].v == v
    ensures forall i :: 0 <= i < |r| ==> r[i].v < |eliminated| && (1 <= i ==> r[i].v != v && !eliminated[r[i].v])
  {
    var k :| 0 <= k < |c| && c[k].v == v && r == Front(c, k);
    FrontRest((u: nat) => true, c, k, v);
  }

  lemma SplitBySign(db: Clauses, v: nat, cls: seq<nat>, pos: seq<nat>, neg: seq<nat>, d: Lit, side: seq<Clause>,
                    others: seq<Clause>)
    requires forall h :: h in pos ==> h in db && Lit(v, false) in db[h]
    requires forall h :: h in neg ==> h in db && Lit(v, true) in db[h]
    requires (forall h :: h in cls ==> h in pos || h in neg) && forall h :: h in db && HasVar(db[h], v) ==> h in cls
    requires d == Lit(v, |pos| <= |neg|)
    requires side == ClausesOf(db, if |pos| > |neg| then neg else pos)
    requires others == ClausesOf(db, if |pos| > |neg| then pos else neg)
    ensures Split(db, v, side, others, d)
  {
    hide HasVar;
    forall h | h in db && HasVar(db[h], v) ensures db[h] in side || db[h] in others {
      var hs := if h in pos then pos else neg;
      assert h in hs;
      var k :| 0 <= k < |hs| && hs[k] == h;
      assert ClausesOf(db, hs)[k] == db[h];
    }
    var hs, gs := if |pos| > |neg| then neg else pos, if |pos| > |neg| then pos else neg;
    forall k | 0 <= k < |side| ensures d.Not() in side[k] { assert hs[k] in hs; }
    forall k | 0 <= k < |others| ensures d in others[k] { assert gs[k] in gs; }
  }

  // After the elimination both directions hold again, and no clause has v.
  lemma EliminatedProjected(db0: Clauses, vals0: seq<Value>, db1: Clauses, vals1: seq<Value>, db2: Clauses,
                            cls: seq<nat>, v: nat, pos: seq<nat>, neg: seq<nat>, side: seq<Clause>,
                            others: seq<Clause>, d: Lit, ts: seq<Clause>, eliminated: seq<bool>)
    requires Same(db0, vals0, db1, vals1) && Keeps(vals0, vals1) && Occurring(db0, v, cls, pos, neg)
    requires Crossed(db0, db1, vals1, ClausesOf(db0, pos), ClausesOf(db0, neg), v, |pos|, 0)
    requires NewFree(db0, db1, eliminated, v)
    requires db2 == db1 - (set h | h in cls) && v < |vals0| && vals0[v] == X
    requires Split(db0, v, side, others, d) && Sides(ClausesOf(db0, pos), ClausesOf(db0, neg), side, others)
    requires Fronts(ts, side, v)
    ensures Projected(db0, vals0, db2, vals1, v)
  {
    hide Keeps, Crossed, NewFree, Split, Sides, Fronts, SomeHolds, AgreeBut, Occurring;
    forall a: Assignment | Sat(db0, vals0, a) ensures Sat(db2, vals1, a) { assert Sat(db1, vals1, a); }
    forall a: Assignment | Sat(db2, vals1, a)
      ensures exists b: Assignment :: Sat(db0, vals0, b) && AgreeBut(a, b, v)
    {
      LeftOver(db0, vals0, db1, vals1, db2, cls, v, pos, neg, side, others, eliminated, a);
      Reversed(db0, vals0, v, side, others, d, ts, a);
    }
  }

  lemma EliminatedSound(orig: set<Clause>, db0: Clauses, vals0: seq<Value>, db1: Clauses, vals1: seq<Value>,
                        db2: Clauses, cls: seq<nat>)
    requires Sound(orig, db0, vals0) && Same(db0, vals0, db1, vals1) && db2 == db1 - (set h | h in cls)
    ensures Sound(orig, db2, vals1)
  {
    forall a: Assignment | Models(a, orig) ensures Sat(db2, vals1, a) {
      assert Sat(db0, vals0, a) && Sat(db1, vals1, a);
    }
  }

  lemma EliminatedComplete(orig: set<Clause>, db0: Clauses, vals0: seq<Value>, rs: seq<Clause>, db1: Clauses,
                           vals1: seq<Value>, db2: Clauses,
                           cls: seq<nat>, v: nat, pos: seq<nat>, neg: seq<nat>, side: seq<Clause>,
                           others: seq<Clause>, d: Lit, ts: seq<Clause>,
                           eliminated: seq<bool>)
    requires Complete(orig, db0, vals0, rs) && Keeps(vals0, vals1) && Occurring(db0, v, cls, pos, neg)
    requires Crossed(db0, db1, vals1, ClausesOf(db0, pos), ClausesOf(db0, neg), v, |pos|, 0)
    requires NewFree(db0, db1, eliminated, v)
    requires db2 == db1 - (set h | h in cls) && v < |vals0| && vals0[v] == X
    requires Split(db0, v, side, others, d) && Sides(ClausesOf(db0, pos), ClausesOf(db0, neg), side, others)
    requires Fronts(ts, side, v)
    ensures Complete(orig, db2, vals1, rs + (ts + [[d]]))
  {
    hide Sat, Keeps, Crossed, NewFree, Split, Sides, Fronts, Models;
    var us := ts + [[d]];
    FrontsStart(ts, side, d, v);
    forall a: Assignment | Sat(db2, vals1, a) ensures Models(Extend(rs + us, a), orig) {
      LeftOver(db0, vals0, db1, vals1, db2, cls, v, pos, neg, side, others, eliminated, a);
      Reversed(db0, vals0, v, side, others, d, ts, a);
      ExtendAppend(rs, us, a);
      assert Models(Extend(rs, Extend(us, a)), orig);
    }
  }

  lemma FrontsStart(ts: seq<Clause>, side: seq<Clause>, d: Lit, v: nat)
    requires Fronts(ts, side, v)
    ensures forall k :: 0 <= k < |ts + [[d]]| ==> (ts + [[d]])[k] != []
  {
    forall k | 0 <= k < |ts| ensures ts[k] != [] { assert FrontOf(ts[k], side[k], v); }
  }

  lemma LeftFree(db0: Clauses, db1: Clauses, db2: Clauses, cls: seq<nat>, v: nat, eliminated: seq<bool>,
                 pos: seq<nat>, neg: seq<nat>)
    requires v < |eliminated| && NewFree(db0, db1, eliminated[v := true], v) && Free(db0, eliminated)
    requires db2 == db1 - (set h | h in cls) && Occurring(db0, v, cls, pos, neg)
    ensures Free(db2, eliminated[v := true]) && forall h :: h in db2 ==> !HasVar(db2[h], v)
  {
    forall h | h in db2
      ensures !HasVar(db2[h], v) && forall i :: 0 <= i < |db2[h]| ==>
        db2[h][i].v < |eliminated| && !eliminated[v := true][db2[h][i].v]
    {
      if h in db0 { assert !HasVar(db0[h], v); }
    }
  }

  lemma LeftOver(db0: Clauses, vals0: seq<Value>, db1: Clauses, vals1: seq<Value>, db2: Clauses, cls: seq<nat>, v: nat,
                 pos: seq<nat>, neg: seq<nat>, side: seq<Clause>, others: seq<Clause>, eliminated: seq<bool>,
                 a: Assignment)
    requires Occurring(db0, v, cls, pos, neg) && NewFree(db0, db1, eliminated, v) && Keeps(vals0, vals1)
    requires Crossed(db0, db1, vals1, ClausesOf(db0, pos), ClausesOf(db0, neg), v, |pos|, 0)
    requires db2 == db1 - (set h | h in cls) && Sides(ClausesOf(db0, pos), ClausesOf(db0, neg), side, others)
    requires Sat(db2, vals1, a)
    ensures SatWithout(db0, vals0, v, side, others, a)
  {
    hide HasVar, OthersHold, DistinctVars;
    var p, q := ClausesOf(db0, pos), ClausesOf(db0, neg);
    LessSat(db2, vals1, db1 - db0.Keys, vals1, a);
    assert PairsHold(a, p, q, v, |p|, 0);
    forall i, j | 0 <= i < |side| && 0 <= j < |others|
      ensures OthersHold(a, side[i], v) || OthersHold(a, others[j], v)
    {
      var x, y := if side == p && others == q then i else j, if side == p && others == q then j else i;
      assert OthersHold(a, p[x], v) || OthersHold(a, q[y], v);
    }
    forall h | h in db0 && !HasVar(db0[h], v)
      ensures SomeHolds(a, LitSet(db0[h]))
    { assert h in db2 && db2[h] == db0[h]; }
  }

  lemma EmptiedStored(n: nat, db: Clauses, vals: seq<Value>, occurs: seq<seq<nat>>, next: nat, v: nat)
    requires Stored(n, db, vals, occurs, next) && v < n && forall h :: h in db ==> !HasVar(db[h], v)
    ensures |occurs| == n && Stored(n, db, vals, occurs[v := []], next)
  {
    var o := occurs[v := []];
    forall h | h in db ensures h < next && Fits(db[h], n) && Listed(db[h], h, o) {
      assert Listed(db[h], h, occurs);
      forall i | 0 <= i < |db[h]| ensures db[h][i].v != v { assert !HasVar(db[h], v); }
    }
    forall u: nat | u < n ensures ListOk(db, o[u], u, next) { assert ListOk(db, occurs[u], u, next); }
  }

  lemma ShrunkFree(db: Clauses, db': Clauses, eliminated: seq<bool>)
    requires Shrunk(db, db') && Free(db, eliminated)
    ensures Free(db', eliminated)
  {
    forall h, i | h in db' && 0 <= i < |db'[h]| ensures db'[h][i].v < |eliminated| && !eliminated[db'[h][i].v] {
      assert db'[h][i] in db[h];
      var j :| 0 <= j < |db[h]| && db[h][j] == db'[h][i];
    }
  }

  // A new variable changes nothing.
  lemma OneMoreVar(n: nat, db: Clauses, vals: seq<Value>, occurs: seq<seq<nat>>, next: nat, eliminated: seq<bool>,
                   rs: seq<Clause>,
                   elim: seq<nat>, orig: set<Clause>, trail: seq<Lit>, queue: seq<Item>)
    requires Stored(n, db, vals, occurs, next) && |eliminated| == n && Free(db, eliminated)
    requires Recorded(rs, elim, eliminated)
    requires Sound(orig, db, vals) && Complete(orig, db, vals, rs)
    ensures Stored(n + 1, db, vals + [X], occurs + [[]], next) && Free(db, eliminated + [false])
    ensures Recorded(rs, elim, eliminated + [false])
    ensures Sound(orig, db, vals + [X]) && Complete(orig, db, vals + [X], rs)
    ensures forall l: Lit :: l.v < |vals| ==> ModelValue(vals + [X], l) == ModelValue(vals, l)
  {
    var o := occurs + [[]];
    forall h | h in db
      ensures h < next && Fits(db[h], n + 1) && Listed(db[h], h, o)
    { assert Fits(db[h], n) && Listed(db[h], h, occurs); }
    forall u: nat | u < n + 1 ensures ListOk(db, o[u], u, next) { if u < n { assert ListOk(db, occurs[u], u, next); } }
    SameWider(db, vals);
    SameSound(orig, db, vals, db, vals + [X], rs);
    hide Sat, Stored;
  }

  lemma SameWider(db: Clauses, vals: seq<Value>)
    ensures Same(db, vals, db, vals + [X])
  {
    var w := vals + [X];
    forall a: Assignment ensures Sat(db, vals, a) <==> Sat(db, w, a) {
      assert forall v: nat :: v < |vals| ==> w[v] == vals[v];
    }
  }

  lemma DefaultsLeft(model: seq<Value>, rs: seq<Clause>, elim: seq<nat>, eliminated: seq<bool>)
    requires Recorded(rs, elim, eliminated) && |model| == |eliminated|
    requires forall v :: 0 <= v < |model| && !eliminated[v] ==> model[v] != X
    ensures elim == Flat(rs) && Layered(rs, |model|) && DefinedBut(model, rs, |rs|)
    ensures forall k :: 0 <= k < |rs| ==> rs[k] != [] && rs[k][0].v < |eliminated| && eliminated[rs[k][0].v]
  {
    hide Flat, Layered;
  }

  lemma ModelsSame(orig: set<Clause>, a: Assignment, b: Assignment)
    requires SameValues(b, a) && Models(a, orig)
    ensures Models(b, orig)
  {
    forall c | c in orig ensures SomeHolds(b, LitSet(c)) {
      var l :| l in LitSet(c) && Holds(a, l);
      assert Holds(b, l);
    }
  }
}
