// Subsumption and strengthening as relations between clauses, and which stored clauses have been checked.
module SimpQuiet {
  import opened Cnf
  import opened SimpMerge
  import opened SimpElim

  // An entry of subsumption_queue: a stored clause, or the dummy unit clause.
  datatype Item = Handle(h: nat) | Unit(l: Lit)

  // All literals of c are in e.
  ghost predicate Subsuming(c: Clause, e: Clause) {
    forall l :: l in c ==> l in e
  }

  // The same but for the literal of e at k, whose negation is in c.
  ghost predicate Strengthening(c: Clause, e: Clause, k: nat) {
    k < |e| && e[k].Not() in c && forall l :: l in c && l != e[k].Not() ==> l in e
  }

  // c says nothing new about e.
  ghost predicate Quiet(c: Clause, e: Clause) {
    !Subsuming(c, e) && forall k: nat :: !Strengthening(c, e, k)
  }

  // Two literals of c that are not in e.
  lemma TwoMissing(c: Clause, e: Clause, l: Lit, m: Lit)
    requires l in c && m in c && l !in e && m !in e && l != m
    ensures Quiet(c, e)
  {
  }

  lemma OneMissing(c: Clause, e: Clause, l: Lit)
    requires l in c && l !in e && l.Not() !in e
    ensures Quiet(c, e)
  {
    forall k: nat | k < |e| ensures e[k].Not() != l { assert e[k].Not().Not() == e[k]; }
  }

  // A clause with fewer literals.
  lemma QuietLess(c: Clause, e: Clause, r: Clause)
    requires Quiet(c, e) && forall l :: l in r ==> l in e
    ensures Quiet(c, r)
  {
    forall k: nat ensures !Strengthening(c, r, k) {
      if Strengthening(c, r, k) {
        assert r[k] in r;
        var j :| 0 <= j < |e| && e[j] == r[k];
        assert Strengthening(c, e, j);
      }
    }
  }

  // A clause without the variable of a literal of c.
  lemma QuietWithout(c: Clause, e: Clause, l: Lit)
    requires l in c && !HasVar(e, l.v)
    ensures Quiet(c, e)
  {
    assert forall j :: 0 <= j < |e| ==> e[j] != l && e[j] != l.Not();
    OneMissing(c, e, l);
  }

  // ---- The stored clauses ----

  ghost predicate Within(lim: int, e: Clause) {
    lim == -1 || |e| < lim
  }

  // c, which is not g itself, says nothing new about the clause g if that was short enough at the start.
  ghost predicate QuietAt(db0: Clauses, db: Clauses, lim: int, c: Clause, item: Item, g: nat) {
    g in db && g in db0 && item != Handle(g) && Within(lim, db0[g]) ==> Quiet(c, db[g])
  }

  ghost predicate QuietFor(db0: Clauses, db: Clauses, lim: int, c: Clause, item: Item) {
    forall g: nat :: QuietAt(db0, db, lim, c, item, g)
  }

  // The clause of the item, once it has been checked.
  ghost predicate Swept(db0: Clauses, db: Clauses, lim: int, item: Item) {
    match item
    case Handle(h) => h in db ==> QuietFor(db0, db, lim, db[h], item)
    case Unit(l) => QuietFor(db0, db, lim, [l], item)
  }

  // Clauses only disappear or lose literals.
  ghost predicate Shrunk(db: Clauses, db': Clauses) {
    forall h :: h in db' ==> h in db && |db'[h]| <= |db[h]| && forall l :: l in db'[h] ==> l in db[h]
  }

  // Clauses that have lost literals are in the queue.
  ghost predicate Requeued(db: Clauses, db': Clauses, queue: seq<Item>) {
    forall h: nat :: h in db && h in db' && db'[h] != db[h] ==> Handle(h) in queue
  }

  lemma SweptLess(db0: Clauses, db: Clauses, db': Clauses, lim: int, item: Item, queue: seq<Item>)
    requires Swept(db0, db, lim, item) && Shrunk(db, db') && Requeued(db, db', queue) && item !in queue
    ensures Swept(db0, db', lim, item)
  {
    hide Quiet, Within;
    forall g: nat, c: Clause | QuietAt(db0, db, lim, c, item, g) ensures QuietAt(db0, db', lim, c, item, g) {
      if g in db' && g in db && Quiet(c, db[g]) { QuietLess(c, db[g], db'[g]); }
    }
  }
}
