// What the clauses mean for an assignment, and how a model is extended when a variable has
// been eliminated.
module SimpElim {
  import opened Cnf
  import opened SatState
  import opened SimpRecords
  import opened SimpMerge

  type Clauses = map<nat, Clause>

  // a satisfies the stored clauses and the assigned variables.
  ghost predicate Sat(db: Clauses, vals: seq<Value>, a: Assignment) {
    && (forall h :: h in db ==> SomeHolds(a, LitSet(db[h])))
    && (forall v: nat :: v < |vals| && vals[v] != X ==> a(v) == (vals[v] == One))
  }

  ghost predicate Same(db: Clauses, vals: seq<Value>, db': Clauses, vals': seq<Value>) {
    forall a: Assignment :: Sat(db, vals, a) <==> Sat(db', vals', a)
  }

  // The clause c has been added.
  ghost predicate Adds(db: Clauses, vals: seq<Value>, db': Clauses, vals': seq<Value>, c: Clause) {
    forall a: Assignment :: Sat(db', vals', a) <==> Sat(db, vals, a) && SomeHolds(a, LitSet(c))
  }

  ghost predicate Refutes(db: Clauses, vals: seq<Value>, c: Clause) {
    forall a: Assignment :: Sat(db, vals, a) ==> !SomeHolds(a, LitSet(c))
  }

  ghost predicate Never(db: Clauses, vals: seq<Value>) {
    forall a: Assignment :: !Sat(db, vals, a)
  }

  // What is left says of the other variables what was said before: v has been projected away.
  ghost predicate Projected(db: Clauses, vals: seq<Value>, db': Clauses, vals': seq<Value>, v: nat) {
    && (forall a: Assignment :: Sat(db, vals, a) ==> Sat(db', vals', a))
    && forall a: Assignment :: Sat(db', vals', a) ==> exists b: Assignment :: Sat(db, vals, b) && AgreeBut(a, b, v)
  }

  ghost predicate AgreeBut(a: Assignment, b: Assignment, v: nat) {
    forall u: nat :: u != v ==> a(u) == b(u)
  }

  lemma ProjectedSame(db: Clauses, vals: seq<Value>, db1: Clauses, vals1: seq<Value>, db2: Clauses, vals2: seq<Value>,
                      v: nat)
    requires Projected(db, vals, db1, vals1, v) && Same(db1, vals1, db2, vals2)
    ensures Projected(db, vals, db2, vals2, v)
  {
    hide Sat, AgreeBut;
  }

  // What has been assigned stays assigned.
  ghost predicate Keeps(vals: seq<Value>, vals': seq<Value>) {
    |vals'| == |vals| && forall v :: 0 <= v < |vals| && vals[v] != X ==> vals'[v] == vals[v]
  }

  // ---- The two directions ----

  // Every model of the clauses given satisfies what is stored.
  ghost predicate Sound(orig: set<Clause>, db: Clauses, vals: seq<Value>) {
    forall a: Assignment :: Models(a, orig) ==> Sat(db, vals, a)
  }

  // Every assignment that satisfies what is stored extends to a model of the clauses given.
  ghost predicate Complete(orig: set<Clause>, db: Clauses, vals: seq<Value>, rs: seq<Clause>) {
    (forall k :: 0 <= k < |rs| ==> rs[k] != []) &&
    forall a: Assignment :: Sat(db, vals, a) ==> Models(Extend(rs, a), orig)
  }

  lemma SameSound(orig: set<Clause>, db: Clauses, vals: seq<Value>, db': Clauses, vals': seq<Value>, rs: seq<Clause>)
    requires Same(db, vals, db', vals')
    ensures Sound(orig, db, vals) ==> Sound(orig, db', vals')
    ensures Complete(orig, db, vals, rs) ==> Complete(orig, db', vals', rs)
  {
    hide Sat, Models;
  }

  lemma NeverUnsat(orig: set<Clause>, db: Clauses, vals: seq<Value>)
    requires Sound(orig, db, vals) && Never(db, vals)
    ensures Refuted(orig, {})
  {
    hide Sat, Models;
  }

  // A clause is given that contains no eliminated variable.
  lemma GivenClause(orig: set<Clause>, db: Clauses, vals: seq<Value>, db': Clauses, vals': seq<Value>,
                    rs: seq<Clause>, c: Clause)
    requires Sound(orig, db, vals) && Complete(orig, db, vals, rs) && Adds(db, vals, db', vals', c)
    requires forall l, k :: l in c && 0 <= k < |rs| ==> rs[k][0].v != l.v
    ensures Sound(orig + {c}, db', vals') && Complete(orig + {c}, db', vals', rs)
  {
    hide Sat;
    forall a: Assignment | Models(a, orig + {c}) ensures Sat(db', vals', a) {
      assert Models(a, orig) && c in orig + {c};
    }
    forall a: Assignment | Sat(db', vals', a) ensures Models(Extend(rs, a), orig + {c}) {
      assert Models(Extend(rs, a), orig);
      var l :| l in LitSet(c) && Holds(a, l);
      ExtendElsewhere(rs, a, l.v);
      assert Holds(Extend(rs, a), l);
    }
  }

  lemma GivenRefuted(orig: set<Clause>, db: Clauses, vals: seq<Value>, c: Clause)
    requires Sound(orig, db, vals) && Refutes(db, vals, c)
    ensures Refuted(orig + {c}, {})
  {
    hide Sat;
    forall a: Assignment ensures !Models(a, orig + {c}) {
      assert c in orig + {c} && (Models(a, orig + {c}) ==> Models(a, orig));
    }
  }

  // ---- One variable ----

  // c with the literal of variable v in front.
  function Front(c: Clause, k: nat): (r: Clause)
    requires k < |c|
    ensures |r| == |c| && r[0] == c[k]
  {
    c[k := c[0]][0 := c[k]]
  }

  lemma FrontRest(a: Assignment, c: Clause, k: nat, v: nat)
    requires k < |c| && c[k].v == v && DistinctVars(c)
    ensures RestHolds(a, Front(c, k)) <==> OthersHold(a, c, v)
    ensures forall i :: 1 <= i < |c| ==> Front(c, k)[i].v != v && Front(c, k)[i] in c
  {
    var r := Front(c, k);
    if OthersHold(a, c, v) {
      var l: Lit :| l in c && l.v != v && Holds(a, l);
      var j :| 0 <= j < |c| && c[j] == l;
      assert r[if j == 0 then k else j] == l;
    }
  }

  // The records of one side: each starts with the literal x.
  ghost predicate SideRecords(ts: seq<Clause>, x: Lit) {
    forall k :: 0 <= k < |ts| ==> ts[k] != [] && ts[k][0] == x && forall i :: 1 <= i < |ts[k]| ==> ts[k][i].v != x.v
  }

  ghost predicate SomeOpen(ts: seq<Clause>, a: Assignment) {
    exists k :: 0 <= k < |ts| && !RestHolds(a, ts[k])
  }

  // The scan makes x true when some record needs it.
  lemma {:induction false} ScanSide(ts: seq<Clause>, x: Lit, a: Assignment)
    requires SideRecords(ts, x)
    ensures forall u: nat :: u != x.v ==> Extend(ts, a)(u) == a(u)
    ensures Extend(ts, a)(x.v) == if SomeOpen(ts, a) then !x.neg else a(x.v)
  {
    if ts != [] {
      var m := |ts| - 1;
      var r, b := ts[m], Fix(a, ts[m]);
      ScanSide(ts[..m], x, b);
      forall k | 0 <= k < |ts| ensures RestHolds(a, ts[k]) == RestHolds(b, ts[k]) { SameRest(a, b, ts[k], x.v); }
      if SomeOpen(ts, a) && RestHolds(a, r) {
        var k :| 0 <= k < |ts| && !RestHolds(a, ts[k]);
        assert ts[..m][k] == ts[k];
      }
      if SomeOpen(ts[..m], b) {
        var k :| 0 <= k < m && !RestHolds(b, ts[..m][k]);
        assert !RestHolds(a, ts[k]);
      }
    }
  }

  lemma SameRest(a: Assignment, b: Assignment, r: Clause, v: nat)
    requires (forall u: nat :: u != v ==> a(u) == b(u)) && forall i :: 1 <= i < |r| ==> r[i].v != v
    ensures RestHolds(a, r) == RestHolds(b, r)
  {
    forall i | 1 <= i < |r| ensures Holds(a, r[i]) == Holds(b, r[i]) { }
  }

  // ts is side with the literal of v in front of each clause.
  ghost predicate Fronts(ts: seq<Clause>, side: seq<Clause>, v: nat) {
    |ts| == |side| && forall k :: 0 <= k < |side| ==> FrontOf(ts[k], side[k], v)
  }

  ghost predicate FrontOf(r: Clause, c: Clause, v: nat) {
    DistinctVars(c) && exists j :: 0 <= j < |c| && c[j].v == v && r == Front(c, j)
  }

  lemma FrontSide(ts: seq<Clause>, side: seq<Clause>, x: Lit)
    requires Fronts(ts, side, x.v) && forall k :: 0 <= k < |side| ==> x in side[k]
    ensures SideRecords(ts, x)
  {
    forall k | 0 <= k < |ts|
      ensures ts[k] != [] && ts[k][0] == x && forall i :: 1 <= i < |ts[k]| ==> ts[k][i].v != x.v
    {
      assert FrontOf(ts[k], side[k], x.v);
      var j :| 0 <= j < |side[k]| && side[k][j].v == x.v && ts[k] == Front(side[k], j);
      FrontRest((v: nat) => true, side[k], j, x.v);
      var m :| 0 <= m < |side[k]| && side[k][m] == x;
      assert m == j;
    }
  }

  // The clauses with v, split into those of the recorded side and the others.
  ghost predicate Split(db: Clauses, v: nat, side: seq<Clause>, others: seq<Clause>, d: Lit) {
    && d.v == v
    && (forall k :: 0 <= k < |side| ==> d.Not() in side[k])
    && (forall k :: 0 <= k < |others| ==> d in others[k])
    && (forall h :: h in db && HasVar(db[h], v) ==> db[h] in side || db[h] in others)
  }

  // a satisfies, for every clause of one side and every clause of the other, what is left of
  // one of them, and everything without v.
  ghost predicate SatWithout(db: Clauses, vals: seq<Value>, v: nat, side: seq<Clause>, others: seq<Clause>,
                             a: Assignment) {
    && (forall i, j :: 0 <= i < |side| && 0 <= j < |others| ==>
        OthersHold(a, side[i], v) || OthersHold(a, others[j], v))
    && (forall h :: h in db && !HasVar(db[h], v) ==> SomeHolds(a, LitSet(db[h])))
    && (forall u: nat :: u < |vals| && vals[u] != X ==> a(u) == (vals[u] == One))
  }

  // Elimination is reversible: the default d for v, then the recorded side.
  lemma Reversed(db: Clauses, vals: seq<Value>, v: nat, side: seq<Clause>, others: seq<Clause>, d: Lit,
                 ts: seq<Clause>, a: Assignment)
    requires Split(db, v, side, others, d) && SatWithout(db, vals, v, side, others, a)
    requires Fronts(ts, side, v) && v < |vals| && vals[v] == X
    ensures (forall k :: 0 <= k < |ts + [[d]]| ==> (ts + [[d]])[k] != []) && Sat(db, vals, Extend(ts + [[d]], a))
    ensures AgreeBut(a, Extend(ts + [[d]], a), v)
  {
    hide Fronts, HasVar, OthersHold;
    FrontSide(ts, side, d.Not());
    assert (ts + [[d]])[..|ts|] == ts && (ts + [[d]])[|ts|] == [d];
    var b := Set(a, d);
    assert !RestHolds(a, [d]);
    var e := Extend(ts, b);
    ScanSide(ts, d.Not(), b);
    forall h | h in db ensures SomeHolds(e, LitSet(db[h])) {
      if !HasVar(db[h], v) {
        Untouched(a, e, db[h], v);
      } else if db[h] in side {
        var k :| 0 <= k < |side| && side[k] == db[h];
        SideHolds(a, b, e, ts, side, k, d);
      } else {
        var k :| 0 <= k < |others| && others[k] == db[h];
        OtherHolds(a, b, e, ts, side, others[k], d);
      }
    }
    assert Extend(ts + [[d]], a) == Extend(ts, Fix(a, [d]));
  }

  lemma Untouched(a: Assignment, e: Assignment, c: Clause, v: nat)
    requires !HasVar(c, v) && SomeHolds(a, LitSet(c)) && forall u: nat :: u != v ==> e(u) == a(u)
    ensures SomeHolds(e, LitSet(c))
  {
    var l :| l in LitSet(c) && Holds(a, l);
    var j :| 0 <= j < |c| && c[j] == l;
    assert Holds(e, l);
  }

  lemma SideHolds(a: Assignment, b: Assignment, e: Assignment, ts: seq<Clause>, side: seq<Clause>, k: nat, d: Lit)
    requires Fronts(ts, side, d.v) && k < |side| && d.Not() in side[k]
    requires (forall u: nat :: u != d.v ==> b(u) == a(u)) && (forall u: nat :: u != d.v ==> e(u) == b(u))
    requires e(d.v) == if SomeOpen(ts, b) then d.neg else b(d.v)
    ensures SomeHolds(e, LitSet(side[k]))
  {
    var c := side[k];
    assert FrontOf(ts[k], c, d.v);
    var j :| 0 <= j < |c| && c[j].v == d.v && ts[k] == Front(c, j);
    FrontRest(b, c, j, d.v);
    if OthersHold(b, c, d.v) {
      var l: Lit :| l in c && l.v != d.v && Holds(b, l);
      assert l in LitSet(c) && Holds(e, l);
    } else {
      assert !RestHolds(b, ts[k]);
      assert d.Not() in LitSet(c) && Holds(e, d.Not());
    }
  }

  lemma OtherHolds(a: Assignment, b: Assignment, e: Assignment, ts: seq<Clause>, side: seq<Clause>, c: Clause, d: Lit)
    requires Fronts(ts, side, d.v) && d in c && b(d.v) == !d.neg
    requires (forall u: nat :: u != d.v ==> b(u) == a(u)) && (forall u: nat :: u != d.v ==> e(u) == b(u))
    requires e(d.v) == if SomeOpen(ts, b) then d.neg else b(d.v)
    requires forall i :: 0 <= i < |side| ==> OthersHold(a, side[i], d.v) || OthersHold(a, c, d.v)
    ensures SomeHolds(e, LitSet(c))
  {
    if SomeOpen(ts, b) {
      var k :| 0 <= k < |ts| && !RestHolds(b, ts[k]);
      assert FrontOf(ts[k], side[k], d.v);
      var j :| 0 <= j < |side[k]| && side[k][j].v == d.v && ts[k] == Front(side[k], j);
      FrontRest(b, side[k], j, d.v);
      if OthersHold(a, side[k], d.v) {
        var l: Lit :| l in side[k] && l.v != d.v && Holds(a, l);
        assert Holds(b, l);
        assert false;
      }
      var l: Lit :| l in c && l.v != d.v && Holds(a, l);
      assert l in LitSet(c) && Holds(e, l);
    } else {
      assert d in LitSet(c) && Holds(e, d);
    }
  }
}
