// The preprocessor: its fields, the clause operations, variable elimination, backward
// subsumption and the extension of models.
module SimpSolver {
  import opened Cnf
  import opened SatState
  import opened SatInput
  import opened SimpRecords
  import opened SimpMerge
  import opened SimpElim
  import opened SimpUnits
  import opened SimpQuiet
  import opened SimpStore
  import opened SimpSweep
  import opened SimpReplace
  import opened SimpWorth

  class Simplifier {
    var n: nat
    var ok: bool
    var db: Clauses
    var vals: seq<Value>
    var trail: seq<Lit>
    var next: nat
    var occurs: seq<seq<nat>>
    var eliminated: seq<bool>
    var frozen: seq<bool>
    var elimclauses: seq<nat>
    var queue: seq<Item>        // subsumption_queue
    var bwdsub: nat             // bwdsub_assigns
    var grow: int
    var clauseLim: int
    var subsumptionLim: int
    var model: seq<Value>
    ghost var rs: seq<Clause>   // the records that elimclauses holds
    ghost var orig: set<Clause> // the clauses given so far

    ghost predicate Shape()
      reads this`n, this`db, this`vals, this`occurs, this`next, this`trail, this`queue
    {
      && Stored(n, db, vals, occurs, next)
      && (forall k :: 0 <= k < |trail| ==> trail[k].v < n && ModelValue(vals, trail[k]) == One)
      && forall k :: 0 <= k < |queue| && queue[k].Unit? ==> queue[k].l.v < n && ModelValue(vals, queue[k].l) == One
    }

    // Between two operations.
    ghost predicate Valid()
      reads this`n, this`db, this`vals, this`occurs, this`next, this`trail, this`queue, this`eliminated, this`frozen,
            this`elimclauses, this`rs, this`orig
    {
      && Shape() && |eliminated| == |frozen| == n && Free(db, eliminated) && Recorded(rs, elimclauses, eliminated)
      && Sound(orig, db, vals) && Complete(orig, db, vals, rs)
    }

    constructor (grow: int, clauseLim: int, subsumptionLim: int)
      ensures Valid() && ok && n == 0 && orig == {} && Settled(db, vals)
    {
      n, ok, db, vals, trail, next, occurs, eliminated, frozen := 0, true, map[], [], [], 0, [], [], [];
      elimclauses, queue, bwdsub, model, rs, orig := [], [], 0, [], [], {};
      this.grow, this.clauseLim, this.subsumptionLim := grow, clauseLim, subsumptionLim;
    }

    // ---- Unit propagation ----

    // What the clause is under the current assignment: FalseBut at i, where i is its length
    // when all literals are false.
    method Scan(c: Clause) returns (ripe: bool, i: nat)
      requires forall j :: 0 <= j < |c| ==> c[j].v < |vals|
      ensures ripe ==> i <= |c| && FalseBut(vals, c, i) && (i < |c| ==> vals[c[i].v] == X)
      ensures ripe <==> Ripe(vals, c)
    {
      i := |c|;
      for j := 0 to |c|
        invariant i == |c| || (i < j && vals[c[i].v] == X)
        invariant forall m :: 0 <= m < j && m != i ==> ModelValue(vals, c[m]) == Zero
      {
        var x := ModelValue(vals, c[j]);
        if x == One || (x == X && i < |c|) {
          NotRipe(vals, c, j, if i < |c| then i else j);
          return false, i;
        }
        if x == X {
          i := j;
        }
      }
      ripe := true;
    }

    // A stored clause that is unit or false.
    method FindRipe() returns (found: bool, h: nat, i: nat)
      requires Stored(n, db, vals, occurs, next)
      ensures found ==>
        h in db && i <= |db[h]| && FalseBut(vals, db[h], i) &&
        (i < |db[h]| ==> vals[db[h][i].v] == X && db[h][i].v < n)
      ensures !found ==> Settled(db, vals)
    {
      hide FalseBut, Ripe;
      h, i := 0, 0;
      var todo := db.Keys;
      while todo != {}
        invariant todo <= db.Keys && forall g :: g in db && g !in todo ==> !Ripe(vals, db[g])
        decreases |todo|
      {
        h :| h in todo;
        todo := todo - {h};
        found, i := Scan(db[h]);
        if found {
          return;
        }
      }
      found := false;
    }

    // propagate: assign the literals of unit clauses until there are none, or a clause is false;
    // without a conflict no stored clause is a unit or false afterwards.
    method Propagate() returns (confl: bool)
      requires Shape()
      modifies this`vals, this`trail
      ensures Shape() && Keeps(old(vals), vals)
      ensures if confl then Never(db, old(vals)) else Same(db, old(vals), db, vals) && Settled(db, vals)
      ensures old(trail) <= trail
    {
      hide Stored, Sat, Same, Never, FalseBut, Keeps, Settled;
      KeepsAll(vals);
      SameAll(db, vals);
      while true
        invariant Shape() && Keeps(old(vals), vals) && Same(db, old(vals), db, vals) && old(trail) <= trail
        decreases Undefined(vals)
      {
        var found, h, i := FindRipe();
        if !found {
          return false;
        }
        ghost var was := vals;
        SameTwice(db, old(vals), db, was, db, was);
        if i == |db[h]| {
          ConflictNever(db, vals, h);
          return true;
        }
        UnitSame(db, vals, h, i);
        StoredSize(n, db, vals, occurs, next);
        FewerUndefined(vals, db[h][i]);
        StillStored(n, db, vals, occurs, next, Assigned(vals, db[h][i]));
        StillTrue(trail, queue, vals, db[h][i], n);
        trail := trail + [db[h][i]];
        vals := Assigned(vals, db[h][i]);
        SameTwice(db, old(vals), db, was, db, vals);
        KeepsTwice(old(vals), was, vals);
      }
    }

    // Enqueue l, which is not assigned, and propagate.
    method Assert(l: Lit) returns (good: bool)
      requires Shape() && l.v < n && vals[l.v] == X
      modifies this`vals, this`trail
      ensures Shape() && Keeps(old(vals), vals)
      ensures if good then Adds(db, old(vals), db, vals, [l]) else Refutes(db, old(vals), [l])
      ensures l.v < |vals| && ModelValue(vals, l) == One && (good ==> Settled(db, vals)) && old(trail) <= trail
    {
      hide Sat, Same, Never, Adds, Refutes, Keeps, Settled;
      AssignAdds(db, vals, l);
      StillStored(n, db, vals, occurs, next, Assigned(vals, l));
      StillTrue(trail, queue, vals, l, n);
      ghost var was := vals;
      trail := trail + [l];
      vals := Assigned(vals, l);
      ghost var mid := vals;
      var confl := Propagate();
      AddsSame(db, was, db, mid, vals, [l]);
      KeepsTwice(was, mid, vals);
      KeptTrue(mid, vals, l);
      good := !confl;
    }

    // ---- Clauses ----

    // A new clause of two or more literals.
    method Store(c: Clause)
      requires Shape() && |c| >= 2 && DistinctVars(c) && forall i :: 0 <= i < |c| ==> c[i].v < n
      modifies this`db, this`occurs, this`queue, this`next
      ensures Shape() && next == old(next) + 1 && old(next) !in old(db) && db == old(db)[old(next) := c]
      ensures queue == old(queue) + [Handle(old(next))]
    {
      hide DistinctVars, ListedUpTo, Stored;
      StoredSize(n, db, vals, occurs, next);
      var h := next;
      var lists := ListClause(occurs, c, h);
      StoredMore(n, db, vals, occurs, next, lists, c);
      occurs := lists;
      db := db[h := c];
      queue := queue + [Handle(h)];
      next := next + 1;
    }

    // Add a clause after cleaning it; false when the clauses and units refute it.
    method AddLits(ps: Clause) returns (good: bool)
      requires Shape() && forall i :: 0 <= i < |ps| ==> ps[i].v < n
      modifies this`db, this`vals, this`trail, this`occurs, this`queue, this`next
      ensures Shape() && Keeps(old(vals), vals) && Only(old(db), db, ps, old(next)) && next >= old(next)
      ensures if good then Adds(old(db), old(vals), db, vals, ps) else Refutes(old(db), old(vals), ps)
      ensures good ==> Carried(old(db), db, vals, ps) && (Settled(old(db), old(vals)) ==> Settled(db, vals))
      ensures queue == if db == old(db) then old(queue) else old(queue) + [Handle(old(next))]
    {
      hide Carried, Settled, Stored, Sat, Adds, Refutes, Keeps, Cleaned, SatisfiedOrTautology, DistinctVars,
        SortedCodes,
        SomeHolds, Only;
      StoredSize(n, db, vals, occurs, next);
      var sorted := SortLits(ps);
      SortedRange(ps, sorted, n);
      var taut, c := CleanClause(vals, sorted);
      KeepsAll(vals);
      NothingElse(db, ps, next);
      if taut {
        SatisfiedAdds(db, vals, ps, sorted);
        SatisfiedCarried(db, vals, ps, sorted);
        return true;
      }
      CleanedSame(db, vals, ps, sorted, c);
      CleanedUnits(vals, sorted, c);
      ghost var db0, vals0 := db, vals;
      if c == [] {
        EmptyRefutes(db, vals, ps);
        return false;
      }
      if |c| == 1 {
        assert c == [c[0]];
        good := Assert(c[0]);
        RefutesAs(db0, vals0, ps, c);
      } else {
        StoreAdds(db, vals, next, c);
        if Settled(db, vals) { SettledMore(db, vals, next, c); }
        OnlyStored(db, next, c, ps);
        Store(c);
        good := true;
      }
      if good {
        AddsAs(db0, vals0, db, vals, ps, c);
        CleanedCarried(db0, db, vals0, vals, ps, sorted, c);
      }
    }

    // Add a clause given by the caller.
    method AddClause(ps: Clause) returns (good: bool)
      requires Valid() && forall i :: 0 <= i < |ps| ==> ps[i].v < n && !eliminated[ps[i].v]
      modifies this`db, this`vals, this`trail, this`occurs, this`queue, this`next, this`orig, this`ok
      ensures orig == old(orig) + {ps}
      ensures if good then Valid() && ok == old(ok) else !ok && Refuted(orig, {})
      ensures good && Settled(old(db), old(vals)) ==> Settled(db, vals)
      ensures queue == if db == old(db) then old(queue) else old(queue) + [Handle(old(next))]
    {
      hide Settled, Stored, Sat, Adds, Refutes, Keeps, Free, Sound, Complete, Recorded, Only, Shape;
      ghost var db0, vals0 := db, vals;
      good := AddLits(ps);
      orig := orig + {ps};
      if good {
        FreeMore(db0, db, eliminated, ps, old(next));
        NotRecorded(rs, elimclauses, eliminated, ps);
        GivenClause(old(orig), db0, vals0, db, vals, rs, ps);
      } else {
        GivenRefuted(old(orig), db0, vals0, ps);
        ok := false;
      }
    }

    // removeClause.
    method RemoveClause(h: nat)
      requires Shape() && h in db
      modifies this`db
      ensures Shape() && db == old(db) - {h}
    {
      RemovedStored(n, db, vals, occurs, next, h);
      db := db - {h};
    }

    // strengthenClause: the literal at position k goes; false when a conflict follows.
    method StrengthenClause(h: nat, k: nat) returns (good: bool)
      requires Shape() && h in db && k < |db[h]|
      requires forall a: Assignment :: Sat(db, vals, a) ==> SomeHolds(a, LitSet(Dropped(db[h], k)))
      modifies this`db, this`vals, this`trail, this`occurs, this`queue
      ensures Shape() && Keeps(old(vals), vals) && Shrunk(old(db), db) && Weight(db, next) < Weight(old(db), next)
      ensures if good then Same(old(db), old(vals), db, vals) else Never(old(db), old(vals))
      ensures db == Strengthened(old(db), h, k) && queue == old(queue) + [Handle(h)] && old(trail) <= trail
      ensures occurs == if |old(db)[h]| == 2 || old(db)[h][k].v >= |old(occurs)| then old(occurs)
        else old(occurs)[old(db)[h][k].v := WithoutHandle(old(occurs)[old(db)[h][k].v], h)]
    {
      hide Sat, Same, Never, Adds, Refutes, Keeps, Stored, HasVar, DistinctVars, LitSet, SomeHolds, Weight, Dropped;
      StoredAt(n, db, vals, occurs, next, h);
      var c := Dropped(db[h], k);
      var l := db[h][k];
      ghost var db0, vals0 := db, vals;
      queue := queue + [Handle(h)];
      DroppedOk(db[h], k);
      KeepsAll(vals);
      if |db[h]| == 2 {
        assert c == [c[0]];
        WeightLess(db, db - {h}, h, next);
        RemoveClause(h);
        good := AssertStrong(db0, h, c[0]);
      } else {
        WeightLess(db, db[h := c], h, next);
        StrengthenSame(db, vals, h, c);
        StoredDropped(n, db, vals, occurs, next, h, k);
        db, occurs := db[h := c], occurs[l.v := WithoutHandle(occurs[l.v], h)];
        good := true;
      }
    }

    // The clause h of db0 has been reduced to the literal x and removed: enqueue and propagate.
    method AssertStrong(ghost db0: Clauses, ghost h: nat, x: Lit) returns (good: bool)
      requires Shape() && h in db0 && db == db0 - {h} && x in db0[h] && x.v < n
      requires forall a: Assignment :: Sat(db0, vals, a) ==> SomeHolds(a, LitSet([x]))
      modifies this`vals, this`trail
      ensures Shape() && Keeps(old(vals), vals) && old(trail) <= trail
      ensures if good then Same(db0, old(vals), db, vals) else Never(db0, old(vals))
    {
      hide Stored, Sat, Same, Never, Adds, Refutes, Keeps, LitSet, SomeHolds;
      StoredSize(n, db, vals, occurs, next);
      ghost var vals0 := vals;
      KeepsAll(vals);
      UnitReplaces(db0, vals, h, x);
      if vals[x.v] != X {
        if ModelValue(vals, x) == Zero {
          FalseUnit(db0, vals, x);
          return false;
        }
        TrueUnit(db0, vals, h, x);
        var confl := Propagate();
        SameTwice(db0, vals0, db, vals0, db, vals);
        return !confl;
      }
      good := Assert(x);
      StrongSame(db0, vals0, db, vals, x);
    }

    // ---- Backward subsumption ----

    function ItemClause(item: Item): Clause
      requires item.Handle? ==> item.h in db
      reads this`db
    {
      match item
      case Handle(h) => db[h]
      case Unit(l) => [l]
    }

    // A clause that may subsume others: it is stored, or true at level 0.
    ghost predicate Live(item: Item)
      reads this`db, this`vals, this`n
    {
      if item.Handle? then item.h in db else item.l.v < n && item.l.v < |vals| && ModelValue(vals, item.l) == One
    }

    // The variable of the clause with the shortest list.
    method BestVar(c: Clause) returns (best: nat)
      requires c != [] && forall i :: 0 <= i < |c| ==> c[i].v < |occurs|
      ensures best < |occurs| && forall i :: 0 <= i < |c| ==> |occurs[best]| <= |occurs[c[i].v]|
      ensures HasVar(c, best)
    {
      best := c[0].v;
      for i := 1 to |c|
        invariant best < |occurs| && forall j :: 0 <= j < i ==> |occurs[best]| <= |occurs[c[j].v]|
        invariant HasVar(c, best)
      {
        if |occurs[c[i].v]| < |occurs[best]| {
          best := c[i].v;
        }
      }
    }

    // One entry of the queue against all clauses with one of its variables; base: the clauses when the
    // check was started.
    method CheckItem(item: Item, ghost base: Clauses) returns (good: bool)
      requires Shape() && Live(item) && Shrunk(base, db)
      modifies this`db, this`vals, this`trail, this`occurs, this`queue
      ensures Shape() && Keeps(old(vals), vals) && Shrunk(old(db), db)
      ensures Weight(db, next) < Weight(old(db), next) || (db == old(db) && trail == old(trail) && queue == old(queue))
      ensures if good then Same(old(db), old(vals), db, vals) else Never(old(db), old(vals))
      ensures good ==> Swept(base, db, subsumptionLim, item) && Requeued(old(db), db, queue)
      ensures old(queue) <= queue && old(trail) <= trail
    {
      hide Stored, Sat, Same, Never, Keeps, Shrunk, Weight, HasVar, Requeued, QuietAt, QuietUpTo,
        Swept, WithoutHandle, LiveOnly, DistinctVars;
      ItemFits(n, db, vals, occurs, next, item);
      ghost var c := ItemClause(item);
      var best := BestVar(ItemClause(item));
      StoredLists(n, db, vals, occurs, next, best);
      occurs := occurs[best := LiveOnly(occurs[best], db)];
      KeepsAll(vals);
      SameAll(db, vals);
      ShrunkSelf(db);
      RequeuedSelf(db, queue);
      QuietStart(base, db, subsumptionLim, c, item, occurs[best]);
      var j := 0;
      while j < |occurs[best]|
        invariant Shape() && best < |occurs| && Keeps(old(vals), vals) && Shrunk(old(db), db) && Shrunk(base, db)
        invariant Same(old(db), old(vals), db, vals) && Requeued(old(db), db, queue)
        invariant Weight(db, next) < Weight(old(db), next) ||
          (db == old(db) && trail == old(trail) && queue == old(queue))
        invariant Live(item) && ItemClause(item) == c && old(queue) <= queue && old(trail) <= trail
        invariant j <= |occurs[best]| && QuietUpTo(base, db, subsumptionLim, c, item, occurs[best], j)
        decreases Weight(db, next), |occurs[best]| - j
      {
        if item.Handle? && item.h !in db {
          break;
        }
        ghost var db1, list := db, occurs[best];
        ListApart(n, db, vals, occurs, next, best);
        var step;
        good, step := CheckCandidate(item, best, j, old(db), old(vals), base);
        if !good {
          return false;
        }
        RequeuedTwice(old(db), db1, db, queue);
        QuietOn(base, db1, db, subsumptionLim, c, item, list, occurs[best], j, step);
        if step {
          j := j + 1;
        }
      }
      AllQuiet(n, base, db, vals, occurs, next, subsumptionLim, c, item, best);
      good := true;
    }

    // Candidate j of the list of best; step: go on to the next one.
    method CheckCandidate(item: Item, best: nat, j: nat, ghost db0: Clauses, ghost vals0: seq<Value>,
                          ghost base: Clauses)
      returns (good: bool, step: bool)
      requires Shape() && Live(item) && best < |occurs| && j < |occurs[best]|
      requires Keeps(vals0, vals) && Shrunk(db0, db) && Same(db0, vals0, db, vals) && Shrunk(base, db)
      modifies this`db, this`vals, this`trail, this`occurs, this`queue
      ensures Shape() && best < |occurs| && Keeps(vals0, vals) && Shrunk(db0, db) && Shrunk(base, db)
      ensures Weight(db, next) < Weight(old(db), next) ||
        (db == old(db) && trail == old(trail) && queue == old(queue) && occurs == old(occurs) && step)
      ensures if good then Same(db0, vals0, db, vals) else Never(db0, vals0)
      ensures Shrunk(old(db), db) && Requeued(old(db), db, queue) && old(queue) <= queue && old(trail) <= trail
      ensures Live(item) && ItemClause(item) == old(ItemClause(item))
      ensures occurs[best] == old(occurs)[best] ||
        (occurs[best] == WithoutHandle(old(occurs)[best], old(occurs)[best][j]) && !step)
      ensures QuietAt(base, db, subsumptionLim, ItemClause(item), item, old(occurs)[best][j])
    {
      hide Sat, Same, Never, Keeps, Shrunk, Weight, Stored, SomeHolds, Dropped, Requeued, QuietAt, Quiet,
        Strengthening, Subsuming, DistinctVars, Strengthened, WithoutHandle;
      ghost var db1, vals1 := db, vals;
      StoredSize(n, db, vals, occurs, next);
      RequeuedSelf(db, queue);
      ShrunkSelf(db);
      var g := occurs[best][j];
      ghost var c := ItemClause(item);
      NotChecked(base, db, subsumptionLim, c, item, g);
      if g in db && item != Handle(g) && (subsumptionLim == -1 || |db[g]| < subsumptionLim) {
        ItemFits(n, db, vals, occurs, next, item);
        StoredAt(n, db, vals, occurs, next, g);
        var how, k := Subsumes(ItemClause(item), db[g]);
        QuietHow(base, db, subsumptionLim, c, item, g, how);
        if how == 1 {
          DropSubsumed(item, g, db0, vals0, base);
        } else if how == 2 {
          ItemHolds(db, vals, item, c);
          ResolvedHolds(db, vals, g, c, k);
          StrengthenedQuiet(base, db, subsumptionLim, c, item, g, k, queue);
          StrengthenedItem(db, g, k, item);
          step := db[g][k].v != best;
          good := Strengthen(g, k, item, db0, vals0);
          ShrunkTwice(base, db1, db);
          return;
        }
      }
      good, step := true, true;
    }

    method DropSubsumed(ghost item: Item, g: nat, ghost db0: Clauses, ghost vals0: seq<Value>, ghost base: Clauses)
      requires Shape() && Live(item) && g in db && item != Handle(g) && Subsuming(ItemClause(item), db[g])
      requires Keeps(vals0, vals) && Shrunk(db0, db) && Same(db0, vals0, db, vals) && Shrunk(base, db)
      modifies this`db
      ensures Shape() && Shrunk(db0, db) && Shrunk(base, db) && Shrunk(old(db), db) && db == old(db) - {g}
      ensures Weight(db, next) < Weight(old(db), next) && Same(db0, vals0, db, vals) && Requeued(old(db), db, queue)
      ensures QuietAt(base, db, subsumptionLim, ItemClause(item), item, g)
    {
      hide Sat, Same, Never, Keeps, Shrunk, Weight, Stored, SomeHolds, Requeued, QuietAt, Quiet, Subsuming;
      ghost var db1, c := db, ItemClause(item);
      StoredAt(n, db, vals, occurs, next, g);
      ItemHolds(db - {g}, vals, item, c);
      SubsumedSame(db, vals, g, c);
      WeightLess(db, db - {g}, g, next);
      RemoveClause(g);
      GoneQuiet(base, db1, subsumptionLim, c, item, g, queue);
      ShrunkTwice(db0, db1, db);
      ShrunkTwice(base, db1, db);
      SameTwice(db0, vals0, db1, vals, db, vals);
    }

    method Strengthen(g: nat, k: nat, ghost item: Item, ghost db0: Clauses, ghost vals0: seq<Value>)
      returns (good: bool)
      requires Shape() && g in db && k < |db[g]| && Keeps(vals0, vals) && Shrunk(db0, db) && Same(db0, vals0, db, vals)
      requires item.Unit? ==> Live(item)
      requires forall a: Assignment :: Sat(db, vals, a) ==> SomeHolds(a, LitSet(Dropped(db[g], k)))
      modifies this`db, this`vals, this`trail, this`occurs, this`queue
      ensures Shape() && |occurs| == n && Keeps(vals0, vals) && Shrunk(db0, db) && (item.Unit? ==> Live(item))
      ensures Weight(db, next) < Weight(old(db), next) && Shrunk(old(db), db)
      ensures if good then Same(db0, vals0, db, vals) else Never(db0, vals0)
      ensures db == Strengthened(old(db), g, k) && queue == old(queue) + [Handle(g)] && old(trail) <= trail
      ensures |old(occurs)| == n
      ensures occurs == if |old(db)[g]| == 2 || old(db)[g][k].v >= n then old(occurs)
        else old(occurs)[old(db)[g][k].v := WithoutHandle(old(occurs)[old(db)[g][k].v], g)]
    {
      hide Sat, Same, Never, Keeps, Shrunk, Weight, Stored, SomeHolds, Dropped;
      ghost var db1, vals1 := db, vals;
      StoredSize(n, db, vals, occurs, next);
      good := StrengthenClause(g, k);
      StoredSize(n, db, vals, occurs, next);
      ShrunkTwice(db0, db1, db);
      KeepsTwice(vals0, vals1, vals);
      if item.Unit? { KeptTrue(vals1, vals, item.l); }
      SameTwice(db0, vals0, db1, vals1, db, vals);
      NeverBefore(db0, vals0, db1, vals1);
    }

    // The first item of the queue: a clause that is no longer stored is passed over.
    method CheckNext(ghost db0: Clauses, ghost vals0: seq<Value>, ghost queue0: seq<Item>, ghost low: nat)
      returns (good: bool)
      requires Shape() && queue != [] && Keeps(vals0, vals) && Shrunk(db0, db) && Same(db0, vals0, db, vals)
      requires Sweeping(db0, queue0, db, queue, trail, low, bwdsub, subsumptionLim) && low <= bwdsub
      requires bwdsub == low || bwdsub <= |trail|
      modifies this`db, this`vals, this`trail, this`occurs, this`queue
      ensures Shape() && Keeps(vals0, vals) && Shrunk(db0, db) && old(trail) <= trail
      ensures if good then Same(db0, vals0, db, vals) else Never(db0, vals0)
      ensures good ==> Sweeping(db0, queue0, db, queue, trail, low, bwdsub, subsumptionLim)
      ensures Weight(db, next) < Weight(old(db), next) ||
        (db == old(db) && trail == old(trail) && queue == old(queue)[1..])
    {
      hide Stored, Sat, Same, Never, Keeps, Shrunk, Weight, Sweeping, Swept, Requeued;
      var item := queue[0];
      ghost var all, db1, vals1, trail1 := queue, db, vals, trail;
      queue := queue[1..];
      if item.Unit? || item.h in db {
        StoredSize(n, db, vals, occurs, next);
        good := CheckItem(item, db0);
        ShrunkTwice(db0, db1, db);
        KeepsTwice(vals0, vals1, vals);
        SameTwice(db0, vals0, db1, vals1, db, vals);
        NeverBefore(db0, vals0, db1, vals1);
        if good {
          SweepingNext(db0, queue0, db1, db, all, queue, trail1, trail, low, bwdsub, subsumptionLim);
        }
      } else {
        SweepingGone(db0, queue0, db, all, trail, low, bwdsub, subsumptionLim);
        good := true;
      }
    }

    // backwardSubsumptionCheck: unless it is interrupted, every clause that was queued or has lost literals, and
    // every literal not yet looked at, has been checked against all stored clauses that were short enough.
    method BackwardSubsumptionCheck() returns (good: bool, ghost interrupted: bool)
      requires Shape()
      modifies this`db, this`vals, this`trail, this`occurs, this`queue, this`bwdsub
      ensures Shape() && Keeps(old(vals), vals) && Shrunk(old(db), db)
      ensures if good then Same(old(db), old(vals), db, vals) else Never(old(db), old(vals))
      ensures good ==> queue == [] && bwdsub >= |trail| && old(trail) <= trail
      ensures good && !interrupted ==>
        Sweeping(old(db), old(queue), db, [], trail, old(bwdsub), |trail|, subsumptionLim)
    {
      hide Stored, Sat, Same, Never, Keeps, Shrunk, Weight, Sweeping, Swept;
      KeepsAll(vals);
      SameAll(db, vals);
      ShrunkSelf(db);
      SweepingStart(db, queue, trail, bwdsub, subsumptionLim);
      interrupted := false;
      while queue != [] || bwdsub < |trail|
        invariant Shape() && Keeps(old(vals), vals) && Shrunk(old(db), db) && Same(old(db), old(vals), db, vals)
        invariant old(trail) <= trail && (bwdsub == old(bwdsub) || old(bwdsub) <= bwdsub <= |trail|)
        invariant Sweeping(old(db), old(queue), db, queue, trail, old(bwdsub), bwdsub, subsumptionLim)
        decreases Weight(db, next), if bwdsub < |trail| then |trail| - bwdsub else 0, |queue|
      {
        var stop: bool := *;
        if stop {
          queue, bwdsub := [], |trail|;
          return true, true;
        }
        if queue == [] {
          SweepingUnit(old(db), old(queue), db, trail, old(bwdsub), bwdsub, subsumptionLim);
          queue := [Unit(trail[bwdsub])];
          bwdsub := bwdsub + 1;
        }
        good := CheckNext(old(db), old(vals), old(queue), old(bwdsub));
        if !good {
          return;
        }
      }
      SweepingDone(old(db), old(queue), db, trail, old(bwdsub), bwdsub, subsumptionLim);
      good := true;
    }

    // ---- Variable elimination ----

    // mkElimClause for a clause with variable v, which is written first.
    method MkElimClause(c: Clause, v: nat)
      requires DistinctVars(c) && HasVar(c, v) && elimclauses == Flat(rs)
      modifies this`elimclauses, this`rs
      ensures |rs| == |old(rs)| + 1 && rs[..|old(rs)|] == old(rs) && elimclauses == Flat(rs)
      ensures FrontOf(rs[|old(rs)|], c, v)
    {
      hide Flat;
      ghost var k;
      var codes;
      codes, k := FrontCodes(c, v);
      FlatMore(rs, Front(c, k));
      elimclauses := elimclauses + codes + [|c|];
      rs := rs + [Front(c, k)];
    }

    // mkElimClause for the default value.
    method MkElimUnit(x: Lit)
      requires elimclauses == Flat(rs)
      modifies this`elimclauses, this`rs
      ensures rs == old(rs) + [[x]] && elimclauses == Flat(rs)
    {
      FlatMore(rs, [x]);
      assert Codes([x]) == [Code(x)];
      elimclauses := elimclauses + [Code(x)] + [1];
      rs := rs + [[x]];
    }

    // Record one side and the default: after this the new records are ts + [[d]].
    method RecordSide(side: seq<nat>, d: Lit) returns (ghost ts: seq<Clause>)
      requires elimclauses == Flat(rs)
      requires forall k :: 0 <= k < |side| ==> side[k] in db && DistinctVars(db[side[k]]) && HasVar(db[side[k]], d.v)
      modifies this`elimclauses, this`rs
      ensures Fronts(ts, ClausesOf(db, side), d.v) && rs == old(rs) + (ts + [[d]]) && elimclauses == Flat(rs)
    {
      hide Flat, Fronts, FrontOf, DistinctVars, HasVar;
      ts := [];
      FrontsNone(ClausesOf(db, side), d.v);
      for i := 0 to |side|
        invariant rs == old(rs) + ts && elimclauses == Flat(rs) && Fronts(ts, ClausesOf(db, side)[..i], d.v)
      {
        ghost var was := rs;
        MkElimClause(db[side[i]], d.v);
        FrontsMore(ts, ClausesOf(db, side), i, d.v, rs[|was|]);
        ts := ts + [rs[|was|]];
        assert rs == was + [rs[|was|]];
      }
      assert ClausesOf(db, side)[..|side|] == ClausesOf(db, side);
      MkElimUnit(d);
    }

    // The clauses with v, split by the sign of v.
    method SplitOccurrences(cls: seq<nat>, v: nat) returns (pos: seq<nat>, neg: seq<nat>)
      requires Apart(cls) && forall h :: h in cls ==> h in db && HasVar(db[h], v)
      ensures forall h :: h in pos ==> h in cls && Lit(v, false) in db[h]
      ensures forall h :: h in neg ==> h in cls && Lit(v, true) in db[h]
      ensures |pos| + |neg| == |cls| && forall h :: h in cls ==> h in pos || h in neg
      ensures Apart(pos) && Apart(neg)
    {
      hide HasVar, Apart;
      pos, neg := [], [];
      ApartNone();
      for i := 0 to |cls|
        invariant forall h :: h in pos ==> h in cls[..i] && Lit(v, false) in db[h]
        invariant forall h :: h in neg ==> h in cls[..i] && Lit(v, true) in db[h]
        invariant |pos| + |neg| == i && forall h :: h in cls[..i] ==> h in pos || h in neg
        invariant Apart(pos) && Apart(neg)
      {
        ApartAt(cls, i);
        if cls[i] !in pos { ApartEnd(pos, cls[i]); }
        if cls[i] !in neg { ApartEnd(neg, cls[i]); }
        if Lit(v, false) in db[cls[i]] {
          pos := pos + [cls[i]];
        } else {
          OtherSign(db[cls[i]], v);
          neg := neg + [cls[i]];
        }
      }
      assert cls[..|cls|] == cls;
    }

    // Are there few enough resolvents, and none too long?
    method FewResolvents(pos: seq<nat>, neg: seq<nat>, v: nat, size: nat) returns (few: bool)
      requires forall h :: h in pos || h in neg ==> h in db && DistinctVars(db[h]) && HasVar(db[h], v)
      ensures few <==> Growth(ClausesOf(db, pos), ClausesOf(db, neg), v, size, grow, clauseLim)
    {
      hide DistinctVars, HasVar, Clash, Resolvent, Counted, Growth;
      var cnt := 0;
      ghost var p, q := ClausesOf(db, pos), ClausesOf(db, neg);
      CountStart(p, q, v, size, grow, clauseLim);
      for i := 0 to |pos|
        invariant Counted(p, q, v, i, 0, cnt, size, grow, clauseLim)
      {
        for j := 0 to |neg|
          invariant Counted(p, q, v, i, j, cnt, size, grow, clauseLim)
        {
          assert pos[i] in pos && neg[j] in neg;
          var ok, length := MergeSize(db[pos[i]], db[neg[j]], v);
          CountNext(p, q, v, i, j, cnt, size, grow, clauseLim);
          if ok {
            cnt := cnt + 1;
            if cnt > size + grow || (clauseLim != -1 && length > clauseLim) {
              return false;
            }
          }
        }
        CountRow(p, q, v, i, cnt, size, grow, clauseLim);
      }
      CountEnd(p, q, v, cnt, size, grow, clauseLim);
      few := true;
    }

    // Add all resolvents.
    method CrossProduct(pos: seq<nat>, neg: seq<nat>, v: nat) returns (good: bool)
      requires Shape() && |eliminated| == n && v < n
      requires forall h :: h in pos ==> h in db && Lit(v, false) in db[h]
      requires forall h :: h in neg ==> h in db && Lit(v, true) in db[h]
      requires forall h, i :: h in db && 0 <= i < |db[h]| && db[h][i].v != v ==>
        db[h][i].v < n && !eliminated[db[h][i].v]
      modifies this`db, this`vals, this`trail, this`occurs, this`queue, this`next
      ensures Shape() && Keeps(old(vals), vals)
      ensures if good then Same(old(db), old(vals), db, vals) else Never(old(db), old(vals))
      ensures good ==>
        Crossed(old(db), db, vals, ClausesOf(old(db), pos), ClausesOf(old(db), neg), v, |pos|, 0) &&
        NewFree(old(db), db, eliminated, v)
    {
      hide Stored, Sat, Same, Never, Keeps, Crossed, NewFree, HasVar, Shape;
      ghost var db0, vals0 := db, vals;
      ghost var p, q := ClausesOf(db0, pos), ClausesOf(db0, neg);
      KeepsAll(vals);
      SameAll(db, vals);
      NothingNew(db, vals, eliminated, v, p, q);
      for i := 0 to |pos|
        invariant Shape() && Keeps(vals0, vals) && Same(db0, vals0, db, vals)
        invariant Crossed(db0, db, vals, p, q, v, i, 0) && NewFree(db0, db, eliminated, v)
      {
        for j := 0 to |neg|
          invariant Shape() && Keeps(vals0, vals) && Same(db0, vals0, db, vals)
          invariant Crossed(db0, db, vals, p, q, v, i, j) && NewFree(db0, db, eliminated, v)
        {
          assert pos[i] in pos && neg[j] in neg;
          good := AddResolvent(db0, vals0, pos, neg, i, j, v);
          if !good {
            return;
          }
        }
        RowDone(db0, db, vals, p, q, v, i);
      }
      good := true;
    }

    // The resolvent of clause i of pos and clause j of neg.
    method AddResolvent(ghost db0: Clauses, ghost vals0: seq<Value>, pos: seq<nat>, neg: seq<nat>, i: nat, j: nat,
                        v: nat) returns (good: bool)
      requires Shape() && |eliminated| == n && v < n && i < |pos| && j < |neg|
      requires forall h :: h in pos ==> h in db0 && Lit(v, false) in db0[h]
      requires forall h :: h in neg ==> h in db0 && Lit(v, true) in db0[h]
      requires forall h, i :: h in db0 && 0 <= i < |db0[h]| && db0[h][i].v != v ==>
        db0[h][i].v < n && !eliminated[db0[h][i].v]
      requires Keeps(vals0, vals) && Same(db0, vals0, db, vals) && NewFree(db0, db, eliminated, v)
      requires Crossed(db0, db, vals, ClausesOf(db0, pos), ClausesOf(db0, neg), v, i, j)
      modifies this`db, this`vals, this`trail, this`occurs, this`queue, this`next
      ensures Shape() && Keeps(vals0, vals)
      ensures if good then Same(db0, vals0, db, vals) else Never(db0, vals0)
      ensures good ==>
        Crossed(db0, db, vals, ClausesOf(db0, pos), ClausesOf(db0, neg), v, i, j + 1) &&
        NewFree(db0, db, eliminated, v)
    {
      hide Stored, Sat, Same, Never, Keeps, Crossed, NewFree, HasVar, Clash, Resolvent, Adds, Refutes, Carried, Only,
        DistinctVars;
      ghost var p, q := ClausesOf(db0, pos), ClausesOf(db0, neg);
      assert pos[i] in pos && neg[j] in neg;
      StillThere(db0, db, eliminated, v, pos[i]);
      StillThere(db0, db, eliminated, v, neg[j]);
      StoredAt(n, db, vals, occurs, next, pos[i]);
      StoredAt(n, db, vals, occurs, next, neg[j]);
      StoredSize(n, db, vals, occurs, next);
      var ok, out := Merge(db[pos[i]], db[neg[j]], v);
      if !ok {
        ClashCrossed(db0, db, vals, p, q, v, i, j);
        return true;
      }
      ghost var db1, vals1, next1 := db, vals, next;
      ResolventRange(p[i], q[j], v, n, eliminated);
      good := AddLits(out);
      KeepsTwice(vals0, vals1, vals);
      ResolventSame(db0, vals0, db1, vals1, db, vals, p, q, v, i, j);
      if good {
        ResolventCrossed(db0, db1, vals1, db, vals, p, q, v, i, j, out, next1, eliminated);
        ResolventFree(db0, db1, db, eliminated, v, out, next1);
      }
    }

    // Remove the clauses with the eliminated variable.
    method RemoveAll(cls: seq<nat>)
      requires Shape()
      modifies this`db
      ensures Shape() && db == old(db) - (set h | h in cls)
    {
      hide Stored;
      for i := 0 to |cls|
        invariant Shape() && db == old(db) - (set h | h in cls[..i])
      {
        assert cls[..i + 1] == cls[..i] + [cls[i]];
        if cls[i] in db {
          RemoveClause(cls[i]);
        }
      }
      assert cls[..|cls|] == cls;
    }

    // The occurrences of v, split by sign; few: whether v is worth eliminating.
    method Occurrences(v: nat) returns (cls: seq<nat>, pos: seq<nat>, neg: seq<nat>, few: bool)
      requires Shape() && v < n
      modifies this`occurs
      ensures Shape() && Occurring(db, v, cls, pos, neg)
      ensures few <==> Worth(db, v, grow, clauseLim)
    {
      hide Stored, Growth, HasVar, DistinctVars, Worth, Apart;
      StoredLists(n, db, vals, occurs, next, v);
      cls := LiveOnly(occurs[v], db);
      occurs := occurs[v := cls];
      AllOccurrences(n, db, vals, occurs, next, v);
      pos, neg := SplitOccurrences(cls, v);
      few := FewResolvents(pos, neg, v, |cls|);
      GrowthWorth(db, v, cls, pos, neg, grow, clauseLim);
    }

    // eliminateVar: v is kept when that would make too many or too long resolvents, and projected
    // away otherwise.
    method EliminateVar(v: nat) returns (good: bool)
      requires Valid() && v < n && !frozen[v] && !eliminated[v] && vals[v] == X
      modifies this`db, this`vals, this`trail, this`occurs, this`queue, this`next, this`bwdsub, this`eliminated,
               this`elimclauses, this`rs
      ensures if good then Valid() else Refuted(orig, {})
      ensures good ==> eliminated == old(eliminated)[v := Worth(old(db), v, grow, clauseLim)]
      ensures good && eliminated[v] ==> Projected(old(db), old(vals), db, vals, v)
      ensures good && !eliminated[v] ==> db == old(db) && vals == old(vals) && elimclauses == old(elimclauses)
      ensures good ==> Idle() || (!eliminated[v] && queue == old(queue) && bwdsub == old(bwdsub) && trail == old(trail))
    {
      hide Stored, Sat, Sound, Complete, Free, Recorded, Occurring, Refuted, Shape, Worth, Projected, Same;
      var cls, pos, neg, few := Occurrences(v);
      if !few {
        return true;
      }
      good := Replace(v, cls, pos, neg);
      if good {
        ghost var db1, vals1, interrupted := db, vals, false;
        good, interrupted := FinishElimination();
        if good { ProjectedSame(old(db), old(vals), db1, vals1, db, vals, v); }
      }
    }

    // Record one side and the default value of v.
    method Record(v: nat, cls: seq<nat>, pos: seq<nat>, neg: seq<nat>)
      returns (ghost ts: seq<Clause>, ghost d: Lit, ghost side: seq<Clause>, ghost others: seq<Clause>)
      requires Occurring(db, v, cls, pos, neg) && Free(db, eliminated) && Recorded(rs, elimclauses, eliminated)
      requires v < |eliminated|
      modifies this`eliminated, this`elimclauses, this`rs
      ensures eliminated == old(eliminated)[v := true] && Recorded(rs, elimclauses, eliminated)
      ensures rs == old(rs) + (ts + [[d]])
      ensures Fronts(ts, side, v) && Split(db, v, side, others, d)
      ensures Sides(ClausesOf(db, pos), ClausesOf(db, neg), side, others)
    {
      hide Free, Recorded, HasVar, DistinctVars, Fronts, Split, Flat;
      RecordedFlat(rs, elimclauses, eliminated);
      OthersFree(db, eliminated, v);
      eliminated := eliminated[v := true];
      d := Lit(v, |pos| <= |neg|);
      if |pos| > |neg| {
        side, others := ClausesOf(db, neg), ClausesOf(db, pos);
        ts := RecordSide(neg, Lit(v, false));
      } else {
        side, others := ClausesOf(db, pos), ClausesOf(db, neg);
        ts := RecordSide(pos, Lit(v, true));
      }
      RecordedMore(old(rs), old(elimclauses), old(eliminated), ts, d, side, v, elimclauses);
      SplitBySign(db, v, cls, pos, neg, d, side, others);
    }

    // The clauses with v are replaced by their resolvents.
    method Replace(v: nat, cls: seq<nat>, pos: seq<nat>, neg: seq<nat>) returns (good: bool)
      requires Valid() && v < n && !eliminated[v] && vals[v] == X && Occurring(db, v, cls, pos, neg)
      modifies this`db, this`vals, this`trail, this`occurs, this`queue, this`next, this`eliminated, this`elimclauses,
               this`rs
      ensures if good then Valid() && eliminated == old(eliminated)[v := true] else Refuted(orig, {})
      ensures good ==> Projected(old(db), old(vals), db, vals, v)
    {
      hide Stored, Sat, Sound, Complete, Free, Recorded, Never, Same, Keeps, Occurring, Fronts, Split, Sides,
        Crossed, NewFree, HasVar, Shape, Refuted, Projected;
      ghost var db0, vals0, rs0, eliminated0 := db, vals, rs, eliminated;
      OccurringLists(db, v, cls, pos, neg);
      OthersFree(db, eliminated, v);
      ShapeSize();
      ghost var ts, d, side, others := Record(v, cls, pos, neg);
      good := CrossProduct(pos, neg, v);
      if !good {
        NeverUnsat(orig, db0, vals0);
        return;
      }
      ghost var db1 := db;
      RemoveAll(cls);
      EliminatedSound(orig, db0, vals0, db1, vals, db, cls);
      EliminatedProjected(db0, vals0, db1, vals, db, cls, v, pos, neg, side, others, d, ts, eliminated);
      EliminatedComplete(orig, db0, vals0, rs0, db1, vals, db, cls, v, pos, neg, side, others, d, ts, eliminated);
      LeftFree(db0, db1, db, cls, v, eliminated0, pos, neg);
      EmptyList(v);
    }

    method EmptyList(v: nat)
      requires Shape() && v < n && forall h :: h in db ==> !HasVar(db[h], v)
      modifies this`occurs
      ensures Shape()
    {
      hide HasVar;
      assert v < |occurs|;
      EmptiedStored(n, db, vals, occurs, next, v);
      occurs := occurs[v := []];
    }

    // Nothing is left to be checked.
    ghost predicate Idle()
      reads this`queue, this`bwdsub, this`trail
    {
      queue == [] && bwdsub >= |trail|
    }

    method FinishElimination() returns (good: bool, ghost interrupted: bool)
      requires Valid()
      modifies this`db, this`vals, this`trail, this`occurs, this`queue, this`bwdsub
      ensures if good then Valid() && Same(old(db), old(vals), db, vals) && Shrunk(old(db), db) else Refuted(orig, {})
      ensures good ==> Idle()
      ensures good && !interrupted ==>
        Sweeping(old(db), old(queue), db, [], trail, old(bwdsub), |trail|, subsumptionLim)
    {
      hide Stored, Sat, Sound, Complete, Free, Recorded, Never, Same, Keeps, Shrunk, Shape, Sweeping;
      ghost var db0, vals0 := db, vals;
      good, interrupted := BackwardSubsumptionCheck();
      if good {
        SameSound(orig, db0, vals0, db, vals, rs);
        ShrunkFree(db0, db, eliminated);
      } else {
        NeverUnsat(orig, db0, vals0);
      }
    }

    // The main loop of eliminate; order is the order in which the heap hands out variables, and
    // turns what is stored before each of them and at the end.
    method Eliminate(order: seq<nat>) returns (good: bool, ghost turns: seq<Turn>)
      requires Valid() && forall i :: 0 <= i < |order| ==> order[i] < n
      modifies this`db, this`vals, this`trail, this`occurs, this`queue, this`next, this`bwdsub, this`eliminated,
               this`elimclauses, this`rs, this`ok
      ensures if good then Valid() else !ok && Refuted(orig, {})
      ensures good ==> forall v :: 0 <= v < n && (old(eliminated)[v] || frozen[v]) ==>
        eliminated[v] == old(eliminated)[v]
      ensures good ==> Turned(turns, order, n, frozen, grow, clauseLim) && |turns| == |order| + 1
      ensures good ==> turns[0].eliminated == old(eliminated) && turns[|order|] == Turn(db, vals, eliminated)
      ensures good ==> Same(old(db), old(vals), turns[0].db, turns[0].vals) && Shrunk(old(db), turns[0].db) && Idle()
    {
      hide Stored, Sat, Sound, Complete, Free, Recorded, Never, Same, Keeps, Shrunk, Shape, Turned, Worth, Projected;
      turns := [];
      ghost var interrupted;
      good, interrupted := FinishElimination();
      if !good {
        ok := false;
        return;
      }
      turns := [Turn(db, vals, eliminated)];
      NoTurn(turns, n, frozen, grow, clauseLim);
      for i := 0 to |order|
        invariant Valid() && |eliminated| == n == |frozen|
        invariant forall v :: 0 <= v < n && (old(eliminated)[v] || frozen[v]) ==> eliminated[v] == old(eliminated)[v]
        invariant Turned(turns, order[..i], n, frozen, grow, clauseLim) && |turns| == i + 1
        invariant turns[0].eliminated == old(eliminated) && turns[i] == Turn(db, vals, eliminated)
        invariant Same(old(db), old(vals), turns[0].db, turns[0].vals) && Shrunk(old(db), turns[0].db) && Idle()
      {
        var v := order[i];
        ShapeSize();
        if !eliminated[v] && vals[v] == X && !frozen[v] {
          good := EliminateVar(v);
          if !good {
            ok := false;
            return;
          }
        }
        ghost var t := Turn(db, vals, eliminated);
        OneMoreTurn(turns, order, i, t, n, frozen, grow, clauseLim);
        turns := turns + [t];
      }
      assert order[..|order|] == order;
      good := true;
    }

    lemma ShapeSize()
      requires Shape()
      ensures |vals| == n
    {
    }

    // setFrozen.
    method SetFrozen(v: nat, on: bool)
      requires Valid() && v < n
      modifies this`frozen
      ensures Valid() && frozen == old(frozen)[v := on]
    {
      hide Stored, Sat, Sound, Complete, Free, Recorded;
      frozen := frozen[v := on];
    }

    // newVar.
    method NewVar() returns (v: nat)
      requires Valid()
      modifies this`n, this`vals, this`occurs, this`eliminated, this`frozen
      ensures Valid() && v == old(n) && n == old(n) + 1 && eliminated == old(eliminated) + [false]
    {
      hide Sound, Complete, Free, Recorded, Stored;
      StoredSize(n, db, vals, occurs, next);
      v := n;
      OneMoreVar(n, db, vals, occurs, next, eliminated, rs, elimclauses, orig, trail, queue);
      n := n + 1;
      vals, occurs, eliminated, frozen := vals + [X], occurs + [[]], eliminated + [false], frozen + [false];
    }

    // extendModel, for a model of what is left: it becomes a model of all clauses given.
    method ExtendModel()
      requires Valid() && |model| == n && (forall v :: 0 <= v < n && !eliminated[v] ==> model[v] != X)
      requires Sat(db, vals, ModelAssignment(model))
      modifies this`model
      ensures |model| == n && (forall v :: 0 <= v < n ==> model[v] != X) && Models(ModelAssignment(model), orig)
      ensures forall v :: 0 <= v < n && !eliminated[v] ==> model[v] == old(model)[v]
    {
      hide Stored, Sat, Sound, Free, Models, Shape;
      DefaultsLeft(model, rs, elimclauses, eliminated);
      ghost var was := model;
      model := SimpRecords.ExtendModel(elimclauses, model, rs);
      ModelsSame(orig, Extend(rs, ModelAssignment(was)), ModelAssignment(model));
      forall v | 0 <= v < n && !eliminated[v] ensures model[v] == was[v] {
        ExtendElsewhere(rs, ModelAssignment(was), v);
        assert ModelAssignment(model)(v) == ModelAssignment(was)(v);
      }
    }
  }
}
