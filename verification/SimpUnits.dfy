// Unit clauses and cleaned clauses under the assignment of decision level 0.
module SimpUnits {
  import opened Cnf
  import opened SatState
  import opened SatInput
  import opened SimpRecords
  import opened SimpElim

  function Assigned(vals: seq<Value>, l: Lit): (r: seq<Value>)
    requires l.v < |vals|
    ensures |r| == |vals|
  {
    vals[l.v := if l.neg then Zero else One]
  }

  // All literals of c but the one at i are false.
  ghost predicate FalseBut(vals: seq<Value>, c: Clause, i: nat) {
    forall j :: 0 <= j < |c| ==> c[j].v < |vals| && (j != i ==> ModelValue(vals, c[j]) == Zero)
  }

  // No literal of c is true and at most one is unassigned: c is a unit or false.
  ghost predicate Ripe(vals: seq<Value>, c: Clause) {
    exists i :: 0 <= i <= |c| && FalseBut(vals, c, i) && (i < |c| ==> vals[c[i].v] == X)
  }

  // Propagation has come to its end: no stored clause is a unit or false.
  ghost predicate Settled(db: Clauses, vals: seq<Value>) {
    forall h :: h in db ==> !Ripe(vals, db[h])
  }

  lemma NotRipe(vals: seq<Value>, c: Clause, j: nat, k: nat)
    requires j < |c| && k < |c| && c[j].v < |vals| && c[k].v < |vals|
    requires ModelValue(vals, c[j]) == One || (j != k && vals[c[j].v] == X == vals[c[k].v])
    ensures !Ripe(vals, c)
  {
    if Ripe(vals, c) {
      var i :| 0 <= i <= |c| && FalseBut(vals, c, i) && (i < |c| ==> vals[c[i].v] == X);
    }
  }

  // A clause of unassigned literals is none of them.
  lemma SettledMore(db: Clauses, vals: seq<Value>, h: nat, c: Clause)
    requires Settled(db, vals) && |c| >= 2 && forall i :: 0 <= i < |c| ==> c[i].v < |vals| && vals[c[i].v] == X
    ensures Settled(db[h := c], vals)
  {
    NotRipe(vals, c, 0, 1);
  }

  lemma FalseFails(db: Clauses, vals: seq<Value>, a: Assignment, l: Lit)
    requires Sat(db, vals, a) && l.v < |vals| && ModelValue(vals, l) == Zero
    ensures !Holds(a, l)
  {
  }

  lemma TrueHolds(db: Clauses, vals: seq<Value>, a: Assignment, l: Lit)
    requires Sat(db, vals, a) && l.v < |vals| && ModelValue(vals, l) == One
    ensures Holds(a, l)
  {
  }

  lemma ConflictNever(db: Clauses, vals: seq<Value>, h: nat)
    requires h in db && FalseBut(vals, db[h], |db[h]|)
    ensures Never(db, vals)
  {
    forall a: Assignment ensures !Sat(db, vals, a) {
      if Sat(db, vals, a) {
        var l :| l in LitSet(db[h]) && Holds(a, l);
        var j :| 0 <= j < |db[h]| && db[h][j] == l;
        FalseFails(db, vals, a, l);
        assert false;
      }
    }
  }

  // Assigning a literal that has to hold.
  lemma AssignAdds(db: Clauses, vals: seq<Value>, l: Lit)
    requires l.v < |vals| && vals[l.v] == X
    ensures Adds(db, vals, db, Assigned(vals, l), [l]) && Keeps(vals, Assigned(vals, l))
  {
    var w := Assigned(vals, l);
    forall a: Assignment ensures Sat(db, w, a) <==> Sat(db, vals, a) && SomeHolds(a, LitSet([l])) {
      assert [l][0] == l;
      assert SomeHolds(a, LitSet([l])) <==> Holds(a, l) by {
        if Holds(a, l) { assert l in LitSet([l]); }
      }
      if Sat(db, w, a) {
        assert w[l.v] != X;
      }
    }
  }

  lemma UnitSame(db: Clauses, vals: seq<Value>, h: nat, i: nat)
    requires h in db && i < |db[h]| && FalseBut(vals, db[h], i) && vals[db[h][i].v] == X
    ensures Same(db, vals, db, Assigned(vals, db[h][i])) && Keeps(vals, Assigned(vals, db[h][i]))
  {
    var l := db[h][i];
    AssignAdds(db, vals, l);
    forall a: Assignment | Sat(db, vals, a) ensures SomeHolds(a, LitSet([l])) {
      var m :| m in LitSet(db[h]) && Holds(a, m);
      var j :| 0 <= j < |db[h]| && db[h][j] == m;
      if j != i { FalseFails(db, vals, a, m); }
      assert l in [l];
    }
    hide Sat;
  }

  lemma SameTwice(db: Clauses, u: seq<Value>, db': Clauses, v: seq<Value>, db'': Clauses, w: seq<Value>)
    requires Same(db, u, db', v)
    ensures Same(db', v, db'', w) ==> Same(db, u, db'', w)
    ensures Never(db', v) ==> Never(db, u)
  {
    hide Sat;
  }

  lemma KeepsTwice(u: seq<Value>, v: seq<Value>, w: seq<Value>)
    requires Keeps(u, v) && Keeps(v, w)
    ensures Keeps(u, w)
  {
  }

  // ---- Adding a clause ----

  lemma SatisfiedAdds(db: Clauses, vals: seq<Value>, lits: Clause, sorted: Clause)
    requires multiset(sorted) == multiset(lits) && SatisfiedOrTautology(vals, sorted)
    ensures Adds(db, vals, db, vals, lits)
  {
    SameLiterals(sorted, lits);
    forall a: Assignment | Sat(db, vals, a) ensures SomeHolds(a, LitSet(lits)) {
      if l :| l in sorted && l.v < |vals| && vals[l.v] == ValueOf(l) {
        TrueHolds(db, vals, a, l);
        assert l in LitSet(lits);
      } else {
        var l :| l in sorted && l.Not() in sorted;
        var k := if Holds(a, l) then l else l.Not();
        assert Holds(a, k) && k in LitSet(lits);
      }
    }
  }

  lemma CleanedSame(db: Clauses, vals: seq<Value>, lits: Clause, sorted: Clause, c: Clause)
    requires multiset(sorted) == multiset(lits) && Cleaned(vals, sorted, c)
    ensures forall a: Assignment :: Sat(db, vals, a) ==> (SomeHolds(a, LitSet(lits)) <==> SomeHolds(a, LitSet(c)))
    ensures forall l :: l in c ==> l in lits
  {
    SameLiterals(sorted, lits);
    forall a: Assignment | Sat(db, vals, a) ensures SomeHolds(a, LitSet(lits)) <==> SomeHolds(a, LitSet(c)) {
      if l :| l in LitSet(lits) && Holds(a, l) {
        if l !in c {
          assert l in sorted;
          FalseFails(db, vals, a, l);
        }
        assert l in LitSet(c);
      }
      if l :| l in LitSet(c) && Holds(a, l) { assert l in LitSet(lits); }
    }
  }

  lemma EmptyRefutes(db: Clauses, vals: seq<Value>, lits: Clause)
    requires forall a: Assignment :: Sat(db, vals, a) ==> (SomeHolds(a, LitSet(lits)) <==> SomeHolds(a, LitSet([])))
    ensures Refutes(db, vals, lits)
  {
    hide Sat;
    forall a: Assignment ensures !SomeHolds(a, LitSet([])) { }
  }

  // The same clause in other words.
  lemma AddsAs(db: Clauses, vals: seq<Value>, db': Clauses, vals': seq<Value>, lits: Clause, c: Clause)
    requires forall a: Assignment :: Sat(db, vals, a) ==> (SomeHolds(a, LitSet(lits)) <==> SomeHolds(a, LitSet(c)))
    requires Adds(db, vals, db', vals', c)
    ensures Adds(db, vals, db', vals', lits)
    ensures Never(db', vals') ==> Refutes(db, vals, lits)
  {
    hide Sat, SomeHolds;
  }

  lemma AddsSame(db: Clauses, vals: seq<Value>, db': Clauses, vals': seq<Value>, vals'': seq<Value>, c: Clause)
    requires Adds(db, vals, db', vals', c)
    ensures Same(db', vals', db', vals'') ==> Adds(db, vals, db', vals'', c)
    ensures Never(db', vals') ==> Refutes(db, vals, c)
  {
    hide Sat, SomeHolds;
  }

  lemma StoreAdds(db: Clauses, vals: seq<Value>, h: nat, c: Clause)
    requires h !in db
    ensures Adds(db, vals, db[h := c], vals, c)
  {
    var w := db[h := c];
    forall a: Assignment ensures Sat(w, vals, a) <==> Sat(db, vals, a) && SomeHolds(a, LitSet(c)) {
      if Sat(w, vals, a) {
        assert SomeHolds(a, LitSet(w[h]));
        forall g | g in db ensures SomeHolds(a, LitSet(db[g])) { assert w[g] == db[g]; }
      }
    }
  }

  // ---- Removing and strengthening ----

  // A clause that the others imply can go.
  lemma RemoveSame(db: Clauses, vals: seq<Value>, h: nat)
    requires h in db && forall a: Assignment :: Sat(db - {h}, vals, a) ==> SomeHolds(a, LitSet(db[h]))
    ensures Same(db, vals, db - {h}, vals)
  {
    var w := db - {h};
    forall a: Assignment ensures Sat(db, vals, a) <==> Sat(w, vals, a) {
      if Sat(w, vals, a) {
        forall g | g in db ensures SomeHolds(a, LitSet(db[g])) { assert g != h ==> g in w && w[g] == db[g]; }
      }
    }
  }

  lemma StrengthenSame(db: Clauses, vals: seq<Value>, h: nat, c: Clause)
    requires h in db && (forall l :: l in c ==> l in db[h])
    requires forall a: Assignment :: Sat(db, vals, a) ==> SomeHolds(a, LitSet(c))
    ensures Same(db, vals, db[h := c], vals)
  {
    var w := db[h := c];
    forall a: Assignment ensures Sat(db, vals, a) <==> Sat(w, vals, a) {
      if Sat(w, vals, a) {
        var l :| l in LitSet(w[h]) && Holds(a, l);
        assert l in LitSet(db[h]);
        forall g | g in db ensures SomeHolds(a, LitSet(db[g])) { assert g != h ==> w[g] == db[g]; }
      }
    }
  }

  // A clause that contains another one but for the sign of l loses this literal.
  lemma SubsumptionResolves(a: Assignment, c: Clause, e: Clause, l: Lit, r: Clause)
    requires SomeHolds(a, LitSet(c)) && SomeHolds(a, LitSet(e)) && (forall m :: m in c && m != l ==> m in e)
    requires forall m :: m in e && m != l.Not() ==> m in r
    requires (forall m :: m in c && m != l ==> m in r)
    ensures SomeHolds(a, LitSet(r))
  {
    var m :| m in LitSet(c) && Holds(a, m);
    if m == l {
      var k :| k in LitSet(e) && Holds(a, k);
      assert k != l.Not();
      assert k in LitSet(r);
    } else {
      assert m in LitSet(r);
    }
  }
}
