// The stored clauses with their occurrence lists, and what cleaning, subsumption and
// strengthening do to them.
module SimpStore {
  import opened Cnf
  import opened SatState
  import opened SatInput
  import opened SimpRecords
  import opened SimpMerge
  import opened SimpElim
  import opened SimpUnits
  import opened SimpQuiet

  ghost predicate Fits(c: Clause, n: nat) {
    |c| >= 2 && DistinctVars(c) && forall i :: 0 <= i < |c| ==> c[i].v < n
  }

  // Clause h is in the list of each of its variables.
  ghost predicate Listed(c: Clause, h: nat, occurs: seq<seq<nat>>) {
    forall i :: 0 <= i < |c| ==> c[i].v < |occurs| && h in occurs[c[i].v]
  }

  ghost predicate Apart(hs: seq<nat>) {
    forall i, j :: 0 <= i < j < |hs| ==> hs[i] != hs[j]
  }

  lemma ApartFront(hs: seq<nat>, r: seq<nat>)
    requires hs != [] && forall h :: h in r ==> h in hs[1..]
    ensures Apart(hs) ==> Apart(hs[1..]) && (Apart(r) ==> Apart([hs[0]] + r))
  {
    if Apart(hs) && Apart(r) {
      forall i, j | 0 <= i < j < |[hs[0]] + r| ensures ([hs[0]] + r)[i] != ([hs[0]] + r)[j] {
        assert r[j - 1] in hs[1..];
        var k :| 0 <= k < |hs[1..]| && hs[1..][k] == r[j - 1];
        assert hs[k + 1] == r[j - 1];
      }
    }
  }

  lemma ApartNone()
    ensures Apart([])
  {
  }

  lemma ApartEnd(hs: seq<nat>, h: nat)
    requires Apart(hs) && h !in hs
    ensures Apart(hs + [h])
  {
    forall i, j | 0 <= i < j < |hs + [h]| ensures (hs + [h])[i] != (hs + [h])[j] { assert hs[i] in hs; }
  }

  // The list of v holds clauses with v and removed ones, each of them once.
  ghost predicate ListOk(db: Clauses, hs: seq<nat>, v: nat, next: nat) {
    Apart(hs) && forall h :: h in hs ==> h < next && (h in db ==> HasVar(db[h], v))
  }

  // The structure of what is stored.
  ghost predicate Stored(n: nat, db: Clauses, vals: seq<Value>, occurs: seq<seq<nat>>, next: nat) {
    && |vals| == |occurs| == n
    && (forall h :: h in db ==> h < next && Fits(db[h], n) && Listed(db[h], h, occurs))
    && (forall v: nat :: v < n ==> ListOk(db, occurs[v], v, next))
  }

  // No stored clause has an eliminated variable.
  ghost predicate Free(db: Clauses, eliminated: seq<bool>) {
    forall h, i :: h in db && 0 <= i < |db[h]| ==> db[h][i].v < |eliminated| && !eliminated[db[h][i].v]
  }

  // Nothing has changed but that clauses with literals among lits have been added.
  ghost predicate Only(db: Clauses, db': Clauses, lits: Clause, next: nat) {
    && (forall h :: h in db ==> h in db' && db'[h] == db[h])
    && (forall h :: h in db' && h !in db ==> h >= next && forall l :: l in db'[h] ==> l in lits)
  }

  // ---- Subsumption ----

  // Clause::subsumes: 1 when c is part of e, 2 when it is but for the literal of e at k, whose
  // negation is in c, and 0 otherwise.
  method Subsumes(c: Clause, e: Clause) returns (how: nat, k: nat)
    requires DistinctVars(c)
    ensures how == 1 <==> Subsuming(c, e)
    ensures how == 2 ==> Strengthening(c, e, k)
    ensures how == 0 ==> Quiet(c, e)
    ensures how <= 2
  {
    hide Quiet;
    how, k := 1, 0;
    for i := 0 to |c|
      invariant how == 1 || (how == 2 && k < |e| && e[k].Not() in c[..i] && e[k].Not() !in e)
      invariant forall m :: 0 <= m < i ==> c[m] in e || (how == 2 && c[m] == e[k].Not())
    {
      if c[i] !in e {
        if how == 2 || c[i].Not() !in e {
          if how == 2 {
            var m :| 0 <= m < i && c[m] == e[k].Not();
            assert c[m].v != c[i].v;
            TwoMissing(c, e, c[i], c[m]);
          } else {
            OneMissing(c, e, c[i]);
          }
          return 0, 0;
        }
        k :| 0 <= k < |e| && e[k] == c[i].Not();
        assert e[k].Not() == c[i];
        how := 2;
      }
    }
    assert c[..|c|] == c;
  }

  function LiveOnly(hs: seq<nat>, db: Clauses): (r: seq<nat>)
    ensures forall h :: h in r <==> h in hs && h in db
    ensures Apart(hs) ==> Apart(r)
  {
    if hs == [] then []
    else
      var r := LiveOnly(hs[1..], db);
      ApartFront(hs, r);
      if hs[0] in db then [hs[0]] + r else r
  }

  // lookup: a list without the removed clauses.
  lemma StoredLists(n: nat, db: Clauses, vals: seq<Value>, occurs: seq<seq<nat>>, next: nat, v: nat)
    requires Stored(n, db, vals, occurs, next) && v < n
    ensures |occurs| == n && Stored(n, db, vals, occurs[v := LiveOnly(occurs[v], db)], next)
  {
    var o := occurs[v := LiveOnly(occurs[v], db)];
    forall h | h in db ensures h < next && Fits(db[h], n) && Listed(db[h], h, o) { assert Listed(db[h], h, occurs); }
    forall u: nat | u < n ensures ListOk(db, o[u], u, next) { assert ListOk(db, occurs[u], u, next); }
  }

  lemma ItemFits(n: nat, db: Clauses, vals: seq<Value>, occurs: seq<seq<nat>>, next: nat, item: Item)
    requires Stored(n, db, vals, occurs, next) && if item.Handle? then item.h in db else item.l.v < n
    ensures |occurs| == |vals| == n
    ensures item.Handle? ==> db[item.h] != [] && DistinctVars(db[item.h]) && forall i :: 0 <= i < |db[item.h]| ==>
      db[item.h][i].v < n
    ensures item.Unit? ==> DistinctVars([item.l])
  {
    if item.Handle? { assert Fits(db[item.h], n); }
  }

  lemma ItemHolds(db: Clauses, vals: seq<Value>, item: Item, c: Clause)
    requires item.Handle? ==> item.h in db && c == db[item.h]
    requires item.Unit? ==> c == [item.l] && item.l.v < |vals| && ModelValue(vals, item.l) == One
    ensures forall a: Assignment :: Sat(db, vals, a) ==> SomeHolds(a, LitSet(c))
  {
    forall a: Assignment | Sat(db, vals, a) ensures SomeHolds(a, LitSet(c)) {
      if item.Unit? {
        TrueHolds(db, vals, a, item.l);
        assert c[0] == item.l && item.l in LitSet(c);
      }
    }
  }

  lemma SubsumedSame(db: Clauses, vals: seq<Value>, g: nat, c: Clause)
    requires g in db && Subsuming(c, db[g])
    requires forall a: Assignment :: Sat(db - {g}, vals, a) ==> SomeHolds(a, LitSet(c))
    ensures Same(db, vals, db - {g}, vals)
  {
    forall a: Assignment | Sat(db - {g}, vals, a) ensures SomeHolds(a, LitSet(db[g])) {
      var l :| l in LitSet(c) && Holds(a, l);
      assert l in LitSet(db[g]);
    }
    RemoveSame(db, vals, g);
  }

  lemma ResolvedHolds(db: Clauses, vals: seq<Value>, g: nat, c: Clause, k: nat)
    requires g in db && DistinctVars(db[g]) && DistinctVars(c) && Strengthening(c, db[g], k)
    requires forall a: Assignment :: Sat(db, vals, a) ==> SomeHolds(a, LitSet(c))
    ensures forall a: Assignment :: Sat(db, vals, a) ==> SomeHolds(a, LitSet(Dropped(db[g], k)))
  {
    var e, x := db[g], db[g][k];
    DroppedOk(e, k);
    assert x.Not().Not() == x;
    NotBoth(c, x);
    forall a: Assignment | Sat(db, vals, a) ensures SomeHolds(a, LitSet(Dropped(e, k))) {
      assert SomeHolds(a, LitSet(e));
      SubsumptionResolves(a, c, e, x.Not(), Dropped(e, k));
    }
  }

  lemma NotBoth(c: Clause, x: Lit)
    requires DistinctVars(c) && x.Not() in c
    ensures x !in c
  {
  }

  lemma ShrunkSelf(db: Clauses)
    ensures Shrunk(db, db)
  {
  }

  lemma ShrunkTwice(db: Clauses, db': Clauses, db'': Clauses)
    requires Shrunk(db, db') && Shrunk(db', db'')
    ensures Shrunk(db, db'')
  {
  }

  lemma NeverBefore(db: Clauses, vals: seq<Value>, db': Clauses, vals': seq<Value>)
    requires Same(db, vals, db', vals')
    ensures Never(db', vals') ==> Never(db, vals)
  {
    hide Sat;
  }

  // What has been added and assigned since db makes the clause true.
  ghost predicate Carried(db: Clauses, db': Clauses, vals': seq<Value>, lits: Clause) {
    forall a: Assignment :: Sat(db' - db.Keys, vals', a) ==> SomeHolds(a, LitSet(lits))
  }

  lemma SatisfiedCarried(db: Clauses, vals: seq<Value>, lits: Clause, sorted: Clause)
    requires multiset(sorted) == multiset(lits) && SatisfiedOrTautology(vals, sorted)
    ensures Carried(db, db, vals, lits)
  {
    SatisfiedAdds(db - db.Keys, vals, lits, sorted);
  }

  // The cleaned clause c is stored, or its only literal is assigned.
  lemma CleanedCarried(db: Clauses, db': Clauses, vals: seq<Value>, vals': seq<Value>, lits: Clause, sorted: Clause,
                       c: Clause)
    requires multiset(sorted) == multiset(lits) && Cleaned(vals, sorted, c) && Keeps(vals, vals')
    requires (exists h :: h in db' && h !in db && db'[h] == c) ||
      (|c| == 1 && c[0].v < |vals'| && ModelValue(vals', c[0]) == One)
    ensures Carried(db, db', vals', lits)
  {
    CleanedKept(vals, vals', sorted, c);
    var w := db' - db.Keys;
    forall a: Assignment | Sat(w, vals', a) ensures SomeHolds(a, LitSet(lits)) {
      if h :| h in db' && h !in db && db'[h] == c {
        assert h in w && w[h] == c;
      } else {
        TrueHolds(w, vals', a, c[0]);
        assert c[0] in LitSet(c);
      }
      var l :| l in LitSet(c) && Holds(a, l);
      SameLiterals(sorted, lits);
      assert l in sorted && l in LitSet(lits);
    }
  }

  lemma CleanedKept(vals: seq<Value>, vals': seq<Value>, lits: Clause, c: Clause)
    requires Cleaned(vals, lits, c)
    ensures forall l :: l in c ==> l in lits
  {
    forall l | l in c ensures l in lits { var i :| 0 <= i < |c| && c[i] == l; }
  }

  // ---- Occurrence lists ----

  // The clause c with handle h goes into the list of each of its variables.
  method ListClause(occurs: seq<seq<nat>>, c: Clause, h: nat) returns (lists: seq<seq<nat>>)
    requires DistinctVars(c) && forall i :: 0 <= i < |c| ==> c[i].v < |occurs|
    ensures ListedUpTo(occurs, lists, c, h, |c|)
  {
    hide HasVar, DistinctVars, ListedUpTo;
    lists := occurs;
    ListedNone(occurs, c, h);
    for i := 0 to |c|
      invariant |lists| == |occurs| && ListedUpTo(occurs, lists, c, h, i)
    {
      ListedMore(occurs, lists, c, h, i);
      lists := lists[c[i].v := lists[c[i].v] + [h]];
    }
  }

  ghost predicate ListedUpTo(was: seq<seq<nat>>, occurs: seq<seq<nat>>, c: Clause, h: nat, i: nat) {
    && |occurs| == |was| && i <= |c|
    && forall v :: 0 <= v < |was| ==> occurs[v] == if HasVar(c[..i], v) then was[v] + [h] else was[v]
  }

  lemma ListedNone(was: seq<seq<nat>>, c: Clause, h: nat)
    ensures ListedUpTo(was, was, c, h, 0)
  {
  }

  lemma ListedMore(was: seq<seq<nat>>, occurs: seq<seq<nat>>, c: Clause, h: nat, i: nat)
    requires ListedUpTo(was, occurs, c, h, i) && DistinctVars(c) && i < |c| && c[i].v < |was|
    ensures ListedUpTo(was, occurs[c[i].v := occurs[c[i].v] + [h]], c, h, i + 1)
  {
    forall v | 0 <= v < |was| ensures HasVar(c[..i + 1], v) <==> HasVar(c[..i], v) || v == c[i].v {
      if HasVar(c[..i], v) {
        var j :| 0 <= j < i && c[..i][j].v == v;
        assert c[..i + 1][j].v == v;
      }
      if v == c[i].v { assert c[..i + 1][i].v == v; }
      if HasVar(c[..i + 1], v) && v != c[i].v {
        var j :| 0 <= j < i + 1 && c[..i + 1][j].v == v;
        assert c[..i][j].v == v;
      }
    }
    assert !HasVar(c[..i], c[i].v);
  }

  lemma StoredMore(n: nat, db: Clauses, vals: seq<Value>, was: seq<seq<nat>>, h: nat, occurs: seq<seq<nat>>, c: Clause)
    requires Stored(n, db, vals, was, h) && ListedUpTo(was, occurs, c, h, |c|)
    requires |c| >= 2 && DistinctVars(c) && forall i :: 0 <= i < |c| ==> c[i].v < n
    ensures h !in db && Stored(n, db[h := c], vals, occurs, h + 1)
  {
    assert c[..|c|] == c;
    var w: Clauses := db[h := c];
    forall g | g in w ensures g < h + 1 && Fits(w[g], n) && Listed(w[g], g, occurs) {
      if g == h {
        forall i | 0 <= i < |c| ensures h in occurs[c[i].v] { assert HasVar(c, c[i].v); }
      } else {
        assert Listed(db[g], g, was);
      }
    }
    forall v: nat | v < n ensures ListOk(w, occurs[v], v, h + 1) {
      assert ListOk(db, was[v], v, h);
      ApartEnd(was[v], h);
    }
  }

  lemma RemovedStored(n: nat, db: Clauses, vals: seq<Value>, occurs: seq<seq<nat>>, next: nat, h: nat)
    requires Stored(n, db, vals, occurs, next)
    ensures Stored(n, db - {h}, vals, occurs, next)
  {
    forall v: nat | v < n ensures ListOk(db - {h}, occurs[v], v, next) { assert ListOk(db, occurs[v], v, next); }
  }

  function WithoutHandle(hs: seq<nat>, h: nat): (r: seq<nat>)
    ensures forall g :: g in r <==> g in hs && g != h
    ensures Apart(hs) ==> Apart(r)
  {
    if hs == [] then []
    else
      var r := WithoutHandle(hs[1..], h);
      ApartFront(hs, r);
      if hs[0] == h then r else [hs[0]] + r
  }

  // ---- Cleaned and shortened clauses ----

  lemma StoredSize(n: nat, db: Clauses, vals: seq<Value>, occurs: seq<seq<nat>>, next: nat)
    requires Stored(n, db, vals, occurs, next)
    ensures |vals| == |occurs| == n && next !in db
  {
  }

  lemma StoredAt(n: nat, db: Clauses, vals: seq<Value>, occurs: seq<seq<nat>>, next: nat, h: nat)
    requires Stored(n, db, vals, occurs, next) && h in db
    ensures h < next && |db[h]| >= 2 && DistinctVars(db[h]) && |vals| == |occurs| == n
    ensures forall i :: 0 <= i < |db[h]| ==> db[h][i].v < n
  {
  }

  lemma SortedRange(ps: Clause, sorted: Clause, n: nat)
    requires multiset(sorted) == multiset(ps) && forall i :: 0 <= i < |ps| ==> ps[i].v < n
    ensures forall i :: 0 <= i < |sorted| ==> sorted[i].v < n
  {
    SameLiterals(sorted, ps);
    forall i | 0 <= i < |sorted| ensures sorted[i].v < n { assert sorted[i] in ps; }
  }

  lemma CleanedUnits(vals: seq<Value>, lits: Clause, c: Clause)
    requires Cleaned(vals, lits, c)
    ensures DistinctVars(c) && forall i :: 0 <= i < |c| ==> c[i].v < |vals| && vals[c[i].v] == X
  {
  }

  lemma NothingElse(db: Clauses, lits: Clause, next: nat)
    ensures Only(db, db, lits, next)
  {
  }

  lemma OnlyStored(db: Clauses, next: nat, c: Clause, lits: Clause)
    requires next !in db && forall l :: l in c ==> l in lits
    ensures Only(db, db[next := c], lits, next)
  {
  }

  lemma RefutesAs(db: Clauses, vals: seq<Value>, lits: Clause, c: Clause)
    requires forall a: Assignment :: Sat(db, vals, a) ==> (SomeHolds(a, LitSet(lits)) <==> SomeHolds(a, LitSet(c)))
    ensures Refutes(db, vals, c) ==> Refutes(db, vals, lits)
  {
    hide Sat, SomeHolds;
  }

  lemma FreeMore(db: Clauses, db': Clauses, eliminated: seq<bool>, lits: Clause, next: nat)
    requires Free(db, eliminated) && Only(db, db', lits, next)
    requires forall i :: 0 <= i < |lits| ==> lits[i].v < |eliminated| && !eliminated[lits[i].v]
    ensures Free(db', eliminated)
  {
    forall h, i | h in db' && 0 <= i < |db'[h]| ensures db'[h][i].v < |eliminated| && !eliminated[db'[h][i].v] {
      if h !in db {
        assert db'[h][i] in lits;
        var j :| 0 <= j < |lits| && lits[j] == db'[h][i];
      }
    }
  }

  // The clause without its literal at position k.
  function Dropped(c: Clause, k: nat): (r: Clause)
    requires k < |c|
    ensures |r| == |c| - 1
  {
    c[..k] + c[k + 1..]
  }

  lemma DroppedOk(c: Clause, k: nat)
    requires k < |c| && DistinctVars(c)
    ensures var r := Dropped(c, k);
      && DistinctVars(r) && (forall l :: l in r <==> l in c && l != c[k])
      && (forall v :: HasVar(r, v) <==> HasVar(c, v) && v != c[k].v)
  {
    var r := Dropped(c, k);
    forall l: Lit ensures l in r <==> l in c && l != c[k] {
      if l in c && l != c[k] {
        var j :| 0 <= j < |c| && c[j] == l;
        assert r[if j < k then j else j - 1] == l;
      }
    }
    forall v: nat ensures HasVar(r, v) <==> HasVar(c, v) && v != c[k].v {
      if HasVar(c, v) && v != c[k].v {
        var j :| 0 <= j < |c| && c[j].v == v;
        assert r[if j < k then j else j - 1].v == v;
      }
      if HasVar(r, v) {
        var j :| 0 <= j < |r| && r[j].v == v;
        assert c[if j < k then j else j + 1].v == v;
      }
    }
  }

  lemma StoredDropped(n: nat, db: Clauses, vals: seq<Value>, occurs: seq<seq<nat>>, next: nat, h: nat, k: nat)
    requires Stored(n, db, vals, occurs, next) && h in db && k < |db[h]| && |db[h]| > 2
    ensures var v := db[h][k].v;
      v < n && Stored(n, db[h := Dropped(db[h], k)], vals, occurs[v := WithoutHandle(occurs[v], h)], next)
  {
    DroppedOk(db[h], k);
    var v: nat, w: Clauses := db[h][k].v, db[h := Dropped(db[h], k)];
    var o := occurs[v := WithoutHandle(occurs[v], h)];
    forall g | g in w ensures g < next && Fits(w[g], n) && Listed(w[g], g, o) {
      assert Listed(db[g], g, occurs) && Fits(db[g], n);
      if g == h { DroppedListed(db[h], k, h, occurs, v, o); }
    }
    forall u: nat | u < n ensures ListOk(w, o[u], u, next) { assert ListOk(db, occurs[u], u, next); }
  }

  lemma DroppedListed(c: Clause, k: nat, h: nat, occurs: seq<seq<nat>>, v: nat, o: seq<seq<nat>>)
    requires k < |c| && DistinctVars(c) && Listed(c, h, occurs) && v == c[k].v && v < |occurs|
    requires o == occurs[v := WithoutHandle(occurs[v], h)]
    ensures Listed(Dropped(c, k), h, o)
    ensures forall i :: 0 <= i < |c| - 1 ==> exists j :: 0 <= j < |c| && c[j] == Dropped(c, k)[i]
  {
    var r := Dropped(c, k);
    forall i | 0 <= i < |r| ensures r[i].v < |o| && h in o[r[i].v] && exists j :: 0 <= j < |c| && c[j] == r[i] {
      var j := if i < k then i else i + 1;
      assert r[i] == c[j] && c[j].v != c[k].v;
    }
  }

  // The number of stored literals.
  function Weight(db: Clauses, k: nat): nat {
    if k == 0 then 0 else Weight(db, k - 1) + if k - 1 in db then |db[k - 1]| else 0
  }

  lemma {:induction false} WeightSame(db: Clauses, db': Clauses, k: nat)
    requires forall h :: 0 <= h < k ==> (h in db <==> h in db') && (h in db ==> db'[h] == db[h])
    ensures Weight(db, k) == Weight(db', k)
  {
    if k > 0 { WeightSame(db, db', k - 1); }
  }

  lemma {:induction false} WeightLess(db: Clauses, db': Clauses, h: nat, k: nat)
    requires h < k && h in db && (h in db' ==> |db'[h]| < |db[h]|) && |db[h]| > 0
    requires forall g :: g != h ==> (g in db <==> g in db') && (g in db ==> db'[g] == db[g])
    ensures Weight(db', k) < Weight(db, k)
  {
    if h == k - 1 { WeightSame(db, db', k - 1); } else { WeightLess(db, db', h, k - 1); }
  }

  // ---- A clause reduced to one literal ----

  lemma UnitReplaces(db: Clauses, vals: seq<Value>, h: nat, x: Lit)
    requires h in db && x in db[h] && forall a: Assignment :: Sat(db, vals, a) ==> SomeHolds(a, LitSet([x]))
    ensures forall a: Assignment :: Sat(db, vals, a) <==> Sat(db - {h}, vals, a) && SomeHolds(a, LitSet([x]))
  {
    forall a: Assignment ensures Sat(db, vals, a) <==> Sat(db - {h}, vals, a) && SomeHolds(a, LitSet([x])) {
      if Sat(db - {h}, vals, a) && SomeHolds(a, LitSet([x])) {
        var l :| l in LitSet([x]) && Holds(a, l);
        assert x in LitSet(db[h]);
        forall g | g in db ensures SomeHolds(a, LitSet(db[g])) { assert g != h ==> g in db - {h}; }
      }
    }
  }

  lemma FalseUnit(db: Clauses, vals: seq<Value>, x: Lit)
    requires x.v < |vals| && ModelValue(vals, x) == Zero
    requires forall a: Assignment :: Sat(db, vals, a) ==> SomeHolds(a, LitSet([x]))
    ensures Never(db, vals)
  {
    forall a: Assignment ensures !Sat(db, vals, a) {
      if Sat(db, vals, a) {
        FalseFails(db, vals, a, x);
        assert false;
      }
    }
  }

  lemma TrueUnit(db: Clauses, vals: seq<Value>, h: nat, x: Lit)
    requires x.v < |vals| && ModelValue(vals, x) == One
    requires forall a: Assignment :: Sat(db, vals, a) <==> Sat(db - {h}, vals, a) && SomeHolds(a, LitSet([x]))
    ensures Same(db, vals, db - {h}, vals)
  {
    forall a: Assignment | Sat(db - {h}, vals, a) ensures Sat(db, vals, a) {
      TrueHolds(db - {h}, vals, a, x);
      assert [x][0] == x && x in LitSet([x]);
    }
  }

  lemma StrongSame(db0: Clauses, vals0: seq<Value>, db: Clauses, vals: seq<Value>, x: Lit)
    requires forall a: Assignment :: Sat(db0, vals0, a) <==> Sat(db, vals0, a) && SomeHolds(a, LitSet([x]))
    ensures Adds(db, vals0, db, vals, [x]) ==> Same(db0, vals0, db, vals)
    ensures Refutes(db, vals0, [x]) ==> Never(db0, vals0)
  {
    hide Sat, SomeHolds;
  }

  function Undefined(vals: seq<Value>): nat {
    if vals == [] then 0 else Undefined(vals[..|vals| - 1]) + if vals[|vals| - 1] == X then 1 else 0
  }

  lemma {:induction false} UndefinedAt(vals: seq<Value>, v: nat, x: Value)
    requires v < |vals| && vals[v] == X && x != X
    ensures Undefined(vals[v := x]) < Undefined(vals)
  {
    var m := |vals| - 1;
    if v == m {
      assert vals[v := x][..m] == vals[..m];
    } else {
      UndefinedAt(vals[..m], v, x);
      assert vals[v := x][..m] == vals[..m][v := x];
    }
  }

  lemma FewerUndefined(vals: seq<Value>, l: Lit)
    requires l.v < |vals| && vals[l.v] == X
    ensures Undefined(Assigned(vals, l)) < Undefined(vals)
  {
    UndefinedAt(vals, l.v, if l.neg then Zero else One);
  }

  lemma KeepsAll(vals: seq<Value>)
    ensures Keeps(vals, vals)
  {
  }

  lemma KeptTrue(vals: seq<Value>, vals': seq<Value>, l: Lit)
    requires Keeps(vals, vals') && l.v < |vals| && ModelValue(vals, l) == One
    ensures l.v < |vals'| && ModelValue(vals', l) == One
  {
  }

  lemma SameAll(db: Clauses, vals: seq<Value>)
    ensures Same(db, vals, db, vals)
  {
  }

  lemma StillStored(n: nat, db: Clauses, vals: seq<Value>, occurs: seq<seq<nat>>, next: nat, vals': seq<Value>)
    requires Stored(n, db, vals, occurs, next) && |vals'| == |vals|
    ensures Stored(n, db, vals', occurs, next)
  {
  }

  lemma StillTrue(trail: seq<Lit>, queue: seq<Item>, vals: seq<Value>, l: Lit, n: nat)
    requires |vals| == n && l.v < n && vals[l.v] == X
    requires forall k :: 0 <= k < |trail| ==> trail[k].v < n && ModelValue(vals, trail[k]) == One
    requires forall k :: 0 <= k < |queue| && queue[k].Unit? ==> queue[k].l.v < n && ModelValue(vals, queue[k].l) == One
    ensures forall k :: 0 <= k < |trail + [l]| ==>
      (trail + [l])[k].v < n && ModelValue(Assigned(vals, l), (trail + [l])[k]) == One
    ensures forall k :: 0 <= k < |queue| && queue[k].Unit? ==> ModelValue(Assigned(vals, l), queue[k].l) == One
  {
  }
}
