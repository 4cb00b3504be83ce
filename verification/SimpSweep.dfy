// What the backward subsumption check has gone through.
module SimpSweep {
  import opened Cnf
  import opened SatState
  import opened SimpMerge
  import opened SimpElim
  import opened SimpQuiet
  import opened SimpStore

  // The clauses after the literal at position k of clause h is dropped: a unit is not stored.
  function Strengthened(db: Clauses, h: nat, k: nat): Clauses
    requires h in db && k < |db[h]|
  {
    if |db[h]| == 2 then db - {h} else db[h := Dropped(db[h], k)]
  }

  lemma RequeuedSelf(db: Clauses, queue: seq<Item>)
    ensures Requeued(db, db, queue)
  {
  }

  lemma RequeuedTwice(db: Clauses, db': Clauses, db'': Clauses, queue: seq<Item>)
    requires exists q :: q <= queue && Requeued(db, db', q)
    requires Requeued(db', db'', queue) && Shrunk(db', db'')
    ensures Requeued(db, db'', queue)
  {
  }

  // ---- One candidate ----

  lemma NotChecked(base: Clauses, db: Clauses, lim: int, c: Clause, item: Item, g: nat)
    requires Shrunk(base, db)
    ensures !(g in db && item != Handle(g) && Within(lim, db[g])) ==> QuietAt(base, db, lim, c, item, g)
  {
    hide Quiet;
  }

  lemma QuietHow(base: Clauses, db: Clauses, lim: int, c: Clause, item: Item, g: nat, how: nat)
    requires g in db && (how == 0 ==> Quiet(c, db[g]))
    ensures how == 0 ==> QuietAt(base, db, lim, c, item, g)
  {
    hide Quiet;
  }

  lemma GoneQuiet(base: Clauses, db: Clauses, lim: int, c: Clause, item: Item, g: nat, queue: seq<Item>)
    requires g in db
    ensures QuietAt(base, db - {g}, lim, c, item, g) && Shrunk(db, db - {g}) && Requeued(db, db - {g}, queue)
  {
  }

  lemma StrengthenedQuiet(base: Clauses, db: Clauses, lim: int, c: Clause, item: Item, g: nat, k: nat, queue: seq<Item>)
    requires g in db && DistinctVars(db[g]) && Strengthening(c, db[g], k) && |db[g]| >= 2
    ensures k < |db[g]|
    ensures QuietAt(base, Strengthened(db, g, k), lim, c, item, g)
    ensures Shrunk(db, Strengthened(db, g, k)) && Requeued(db, Strengthened(db, g, k), queue + [Handle(g)])
  {
    hide Quiet;
    DroppedOk(db[g], k);
    var r, l := Dropped(db[g], k), db[g][k].Not();
    assert l.Not() == db[g][k];
    OneMissing(c, r, l);
  }

  lemma StrengthenedItem(db: Clauses, g: nat, k: nat, item: Item)
    requires g in db && k < |db[g]| && item != Handle(g)
    ensures item.Handle? && item.h in db ==>
      item.h in Strengthened(db, g, k) && Strengthened(db, g, k)[item.h] == db[item.h]
  {
  }

  // ---- The list of one variable ----

  lemma {:induction false} WithoutPrefix(hs: seq<nat>, j: nat)
    requires Apart(hs) && j < |hs|
    ensures j <= |WithoutHandle(hs, hs[j])| && WithoutHandle(hs, hs[j])[..j] == hs[..j]
  {
    if j > 0 {
      var t := hs[1..];
      assert Apart(t) by { forall i, m | 0 <= i < m < |t| ensures t[i] != t[m] { assert hs[i + 1] != hs[m + 1]; } }
      WithoutPrefix(t, j - 1);
      assert hs[0] != hs[j];
    }
  }

  // The candidates before the current one.
  ghost predicate QuietUpTo(base: Clauses, db: Clauses, lim: int, c: Clause, item: Item, list: seq<nat>, j: nat) {
    j <= |list| && forall i :: 0 <= i < j ==> QuietAt(base, db, lim, c, item, list[i])
  }

  lemma QuietStart(base: Clauses, db: Clauses, lim: int, c: Clause, item: Item, list: seq<nat>)
    ensures QuietUpTo(base, db, lim, c, item, list, 0)
  {
  }

  lemma QuietOn(base: Clauses, db: Clauses, db': Clauses, lim: int, c: Clause, item: Item, list: seq<nat>,
                list': seq<nat>, j: nat, step: bool)
    requires QuietUpTo(base, db, lim, c, item, list, j) && j < |list| && QuietAt(base, db', lim, c, item, list[j])
    requires Shrunk(db, db') && Apart(list)
    requires list' == list || (list' == WithoutHandle(list, list[j]) && !step)
    ensures QuietUpTo(base, db', lim, c, item, list', if step then j + 1 else j) && j <= |list'|
    ensures step ==> j < |list'|
  {
    hide Quiet, Within, Shrunk;
    WithoutPrefix(list, j);
    forall i | 0 <= i < j ensures QuietAt(base, db', lim, c, item, list'[i]) {
      assert list'[i] == list'[..j][i] == list[..j][i];
      QuietStays(base, db, db', lim, c, item, list[i]);
    }
  }

  lemma QuietStays(base: Clauses, db: Clauses, db': Clauses, lim: int, c: Clause, item: Item, g: nat)
    requires QuietAt(base, db, lim, c, item, g) && Shrunk(db, db')
    ensures QuietAt(base, db', lim, c, item, g)
  {
    hide Quiet, Within;
    if g in db' && g in base && item != Handle(g) && Within(lim, base[g]) { QuietLess(c, db[g], db'[g]); }
  }

  // All other clauses lack the variable.
  lemma AllQuiet(n: nat, base: Clauses, db: Clauses, vals: seq<Value>, occurs: seq<seq<nat>>, next: nat, lim: int,
                 c: Clause, item: Item, v: nat)
    requires Stored(n, db, vals, occurs, next) && v < |occurs| && HasVar(c, v)
    requires QuietUpTo(base, db, lim, c, item, occurs[v], |occurs[v]|)
    requires if item.Handle? then item.h in db && c == db[item.h] else c == [item.l]
    ensures Swept(base, db, lim, item)
  {
    hide Quiet, Within;
    forall g: nat ensures QuietAt(base, db, lim, c, item, g) {
      if g in db {
        if HasVar(db[g], v) {
          assert Listed(db[g], g, occurs);
          assert g in occurs[v];
          var i :| 0 <= i < |occurs[v]| && occurs[v][i] == g;
        } else {
          var j :| 0 <= j < |c| && c[j].v == v;
          QuietWithout(c, db[g], c[j]);
        }
      }
    }
  }

  lemma ListApart(n: nat, db: Clauses, vals: seq<Value>, occurs: seq<seq<nat>>, next: nat, v: nat)
    requires Stored(n, db, vals, occurs, next) && v < |occurs|
    ensures Apart(occurs[v])
  {
    assert ListOk(db, occurs[v], v, next);
  }

  // ---- The whole queue ----

  // What has been checked since the start: all that was queued or has lost literals and is not queued any more,
  // and the literals of the trail from low to high.
  ghost predicate Sweeping(db0: Clauses, queue0: seq<Item>, db: Clauses, queue: seq<Item>, trail: seq<Lit>, low: nat,
                           high: nat, lim: int) {
    && (forall item :: item in queue0 && item !in queue ==> Swept(db0, db, lim, item))
    && (forall h: nat :: h in db && h in db0 && db[h] != db0[h] && Handle(h) !in queue ==>
          Swept(db0, db, lim, Handle(h)))
    && forall k :: low <= k < high && k < |trail| && Unit(trail[k]) !in queue ==> Swept(db0, db, lim, Unit(trail[k]))
  }

  lemma SweepingStart(db: Clauses, queue: seq<Item>, trail: seq<Lit>, low: nat, lim: int)
    ensures Sweeping(db, queue, db, queue, trail, low, low, lim)
  {
  }

  lemma SweepingUnit(db0: Clauses, queue0: seq<Item>, db: Clauses, trail: seq<Lit>, low: nat, high: nat, lim: int)
    requires Sweeping(db0, queue0, db, [], trail, low, high, lim) && high < |trail|
    ensures Sweeping(db0, queue0, db, [Unit(trail[high])], trail, low, high + 1, lim)
  {
    hide Swept;
  }

  // The first item has been checked.
  lemma SweepingNext(db0: Clauses, queue0: seq<Item>, db1: Clauses, db: Clauses, all: seq<Item>, queue: seq<Item>,
                     trail1: seq<Lit>, trail: seq<Lit>, low: nat, high: nat, lim: int)
    requires Sweeping(db0, queue0, db1, all, trail1, low, high, lim) && all != [] && all[1..] <= queue
    requires trail1 <= trail && (high == low || high <= |trail1|) && Swept(db0, db, lim, all[0])
    requires Shrunk(db1, db) && Requeued(db1, db, queue)
    ensures Sweeping(db0, queue0, db, queue, trail, low, high, lim)
  {
    hide Swept, Shrunk;
    forall item | item !in queue && Swept(db0, db1, lim, item) ensures Swept(db0, db, lim, item) {
      SweptLess(db0, db1, db, lim, item, queue);
    }
    assert all == [all[0]] + all[1..];
    ShrunkIn(db1, db);
  }

  lemma ShrunkIn(db: Clauses, db': Clauses)
    requires Shrunk(db, db')
    ensures forall h :: h in db' ==> h in db
  {
  }

  // The first item is a clause that is no longer stored.
  lemma SweepingGone(db0: Clauses, queue0: seq<Item>, db: Clauses, all: seq<Item>, trail: seq<Lit>, low: nat, high: nat,
                     lim: int)
    requires Sweeping(db0, queue0, db, all, trail, low, high, lim) && all != [] && all[0].Handle? && all[0].h !in db
    ensures Sweeping(db0, queue0, db, all[1..], trail, low, high, lim)
  {
    assert Swept(db0, db, lim, all[0]);
    SweepingNext(db0, queue0, db, db, all, all[1..], trail, trail, low, if high <= |trail| then high else |trail|, lim);
  }

  lemma SweepingDone(db0: Clauses, queue0: seq<Item>, db: Clauses, trail: seq<Lit>, low: nat, high: nat, lim: int)
    requires Sweeping(db0, queue0, db, [], trail, low, high, lim) && high >= |trail|
    ensures Sweeping(db0, queue0, db, [], trail, low, |trail|, lim)
  {
    hide Swept;
  }
}
