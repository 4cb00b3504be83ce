// Adding problem and learnt clauses, and deleting learnt ones.
module SatClauses {
  import opened Cnf
  import opened SatState
  import opened SatUndo
  import opened SatWatches

  function AddTo(wl: Watches, l: Lit, w: Watch): Watches {
    if l in wl then wl[l := wl[l] + [w]] else wl
  }

  // The watch lists after sat_solver_clause_new for the clause c stored under handle h.
  function Listed(wl: Watches, h: nat, c: seq<Lit>): Watches
    requires |c| >= 2
  {
    if |c| > 2 then AddTo(AddTo(wl, c[0].Not(), ClauseWatch(h)), c[1].Not(), ClauseWatch(h))
    else AddTo(AddTo(wl, c[0].Not(), BinWatch(c[1])), c[1].Not(), BinWatch(c[0]))
  }

  // A problem clause of two literals is not stored: it lives in the watch lists only.
  function WithClause(s: State, h: nat, c: seq<Lit>, learnt: bool): State
    requires |c| >= 2
  {
    if |c| == 2 && !learnt then s.(wl := Listed(s.wl, h, c))
    else
      s.(arena := s.arena[h := c], learnts := if learnt then s.learnts + {h} else s.learnts, wl := Listed(s.wl, h, c))
  }

  lemma ListedMembers(s: State, h: nat, c: seq<Lit>)
    requires s.WatchesOk() && |c| >= 2 && c[0].v < s.n && c[1].v < s.n && c[0].v != c[1].v
    ensures var wl := Listed(s.wl, h, c);
      && wl.Keys == s.wl.Keys && c[0].Not() in s.wl && c[1].Not() in s.wl
      && (forall l :: l in s.wl ==> s.wl[l] <= wl[l] && |wl[l]| <= |s.wl[l]| + 1)
      && (forall l, i :: l in s.wl && |s.wl[l]| <= i < |wl[l]| ==>
            (l == c[0].Not() && wl[l][i] == if |c| > 2 then ClauseWatch(h) else BinWatch(c[1])) ||
            (l == c[1].Not() && wl[l][i] == if |c| > 2 then ClauseWatch(h) else BinWatch(c[0])))
      && (if |c| > 2 then ClauseWatch(h) else BinWatch(c[1])) in wl[c[0].Not()]
      && (if |c| > 2 then ClauseWatch(h) else BinWatch(c[0])) in wl[c[1].Not()]
  {
    hide State.EntryOk, State.Watched;
    var wl := Listed(s.wl, h, c);
    var x, y := c[0].Not(), c[1].Not();
    assert x != y;
    assert wl[x][|s.wl[x]|] == if |c| > 2 then ClauseWatch(h) else BinWatch(c[1]);
    assert wl[y][|s.wl[y]|] == if |c| > 2 then ClauseWatch(h) else BinWatch(c[0]);
  }

  lemma OldEntry(s: State, t: State, l: Lit, w: Watch)
    requires s.EntryOk(l, w) && t.f == s.f && t.n == s.n
    requires forall g :: g in s.arena ==> g in t.arena && t.arena[g] == s.arena[g]
    requires forall m :: m in s.wl ==> m in t.wl && s.wl[m] <= t.wl[m]
    ensures t.EntryOk(l, w)
  {
    hide Entails;
  }

  lemma NewEntries(s: State, h: nat, c: seq<Lit>, learnt: bool, l: Lit, i: nat)
    requires s.WatchesOk() && s.ClauseOk(c) && h !in s.arena
    requires l in s.wl && i < |WithClause(s, h, c, learnt).wl[l]|
    ensures WithClause(s, h, c, learnt).EntryOk(l, WithClause(s, h, c, learnt).wl[l][i])
  {
    hide Entails, State.Watched;
    ListedMembers(s, h, c);
    var t := WithClause(s, h, c, learnt);
    assert c[0].v != c[1].v;
    if i < |s.wl[l]| {
      assert s.EntryOk(l, s.wl[l][i]) && t.wl[l][i] == s.wl[l][i];
      OldEntry(s, t, l, s.wl[l][i]);
    } else if |c| == 2 {
      PairSet(c);
      assert c[0].Not().Not() == c[0] && c[1].Not().Not() == c[1];
    }
  }

  lemma PairSet(c: seq<Lit>)
    requires |c| == 2
    ensures LitSet(c) == {c[0], c[1]} == {c[1], c[0]}
  {
  }

  lemma NewDistinct(s: State, h: nat, c: seq<Lit>, l: Lit)
    requires s.WatchesOk() && s.ClauseOk(c) && h !in s.arena && l in s.wl
    ensures l in Listed(s.wl, h, c) && DistinctClauses(Listed(s.wl, h, c)[l])
  {
    hide Entails, State.Watched;
    assert c[0].v != c[1].v;
    ListedMembers(s, h, c);
    var ws := Listed(s.wl, h, c)[l];
    assert DistinctClauses(s.wl[l]);
    forall i, j | 0 <= i < j < |ws| && ws[i].ClauseWatch? ensures ws[i] != ws[j] {
      assert s.EntryOk(l, s.wl[l][i]);
    }
  }

  lemma NewWatches(s: State, h: nat, c: seq<Lit>, learnt: bool)
    requires s.WatchesOk() && s.ClauseOk(c) && h !in s.arena
    ensures WithClause(s, h, c, learnt).WatchesOk()
  {
    hide Entails, State.EntryOk, State.Watched, State.Paired, DistinctClauses;
    assert c[0].v != c[1].v;
    ListedMembers(s, h, c);
    var t := WithClause(s, h, c, learnt);
    forall l, i | l in t.wl && 0 <= i < |t.wl[l]|
      ensures t.EntryOk(l, t.wl[l][i])
    { NewEntries(s, h, c, learnt, l, i); }
    forall l | l in t.wl ensures DistinctClauses(t.wl[l]) { NewDistinct(s, h, c, l); }
    NewWatched(s, h, c, learnt);
  }

  // Stored clauses stay in the lists of their watched literals, and the new one is in its own.
  lemma NewWatched(s: State, h: nat, c: seq<Lit>, learnt: bool)
    requires s.WatchesOk() && s.ClauseOk(c) && h !in s.arena
    ensures var t := WithClause(s, h, c, learnt);
      && (forall g :: g in t.arena && |t.arena[g]| >= 3 ==> t.Watched(g))
      && (forall g :: g in t.arena && |t.arena[g]| == 2 ==> t.Paired(g))
  {
    assert c[0].v != c[1].v;
    ListedMembers(s, h, c);
    hide Entails, State.EntryOk, Listed, DistinctClauses;
    var t := WithClause(s, h, c, learnt);
    forall g | g in t.arena && |t.arena[g]| >= 3 ensures t.Watched(g) {
      if g != h { assert s.Watched(g); }
    }
    forall g | g in t.arena && |t.arena[g]| == 2 ensures t.Paired(g) {
      if g != h { assert s.Paired(g); }
    }
  }

  lemma GrowReasons(s: State, t: State)
    requires s.ReasonsOk() && t.levels == s.levels && t.reasons == s.reasons && t.trail == s.trail && t.lims == s.lims
    requires t.root == s.root && t.assumed == s.assumed
    requires forall g :: g in s.arena ==> g in t.arena && t.arena[g] == s.arena[g]
    requires forall c :: c in s.f ==> c in t.f
    ensures t.ReasonsOk()
  {
    forall k | 0 <= k < |t.trail| ensures t.trail[k].v < |t.levels| && t.ReasonAt(k) {
      assert s.ReasonAt(k);
      if s.reasons[s.trail[k].v].BinReason? {
        EntailsInMore(s.f, t.f, {s.trail[k], s.reasons[s.trail[k].v].q.Not()});
      }
    }
  }

  lemma EntailsInMore(f: set<Clause>, g: set<Clause>, s: set<Lit>)
    requires forall c :: c in f ==> c in g
    ensures Entails(f, s) ==> Entails(g, s)
  {
    forall a: Assignment | Models(a, g) ensures Models(a, f) {
    }
  }

  lemma NewClauseBase(s: State, h: nat, c: seq<Lit>, learnt: bool)
    requires s.Base() && s.ClauseOk(c) && h !in s.arena
    ensures WithClause(s, h, c, learnt).Base()
  {
    hide Entails, State.TrailOk, State.LimsOk, State.LevelsOk, State.ReasonsOk, State.WatchesOk;
    var t := WithClause(s, h, c, learnt);
    NewWatches(s, h, c, learnt);
    GrowReasons(s, t);
    SameLevels(s, t);
    forall g | g in t.arena ensures t.ClauseOk(t.arena[g]) {
      if g != h { assert s.ClauseOk(s.arena[g]); }
    }
  }

  lemma NewClauseCovered(s: State, h: nat, c: seq<Lit>, learnt: bool)
    requires s.Covered() && s.WatchesOk() && s.ClauseOk(c) && h !in s.arena
    ensures WithClause(s, h, c, learnt).Covered()
  {
    hide Entails, State.Watched, State.EntryOk;
    assert c[0].v != c[1].v;
    ListedMembers(s, h, c);
    SameCovered(s, WithClause(s, h, c, learnt));
  }

  // The new clause does not disturb a propagated prefix that leaves one watched literal not false.
  lemma NewClauseNoneFalse(s: State, h: nat, c: seq<Lit>, learnt: bool, t: seq<Lit>)
    requires s.NoneFalse(t) && s.WatchesOk() && s.ClauseOk(c) && h !in s.arena && !BothFalse(c, t)
    ensures WithClause(s, h, c, learnt).NoneFalse(t)
  {
    hide Entails, State.Watched, State.EntryOk;
    assert c[0].v != c[1].v;
    ListedMembers(s, h, c);
    var u := WithClause(s, h, c, learnt);
    forall l, q | l in u.wl && BinWatch(q) in u.wl[l] ensures !(l in t && q.Not() in t) {
      var i :| 0 <= i < |u.wl[l]| && u.wl[l][i] == BinWatch(q);
      if i < |s.wl[l]| {
        assert s.wl[l][i] == BinWatch(q);
      }
    }
  }

  // One more problem clause: everything but its coverage carries over.
  lemma Widen(s: State, c: Clause)
    requires s.Base()
    ensures s.(f := s.f + {c}).Base()
  {
    hide Entails;
    var t := s.(f := s.f + {c});
    GrowReasons(s, t);
    assert forall ls: set<Lit> :: Entails(s.f, ls) ==> Entails(t.f, ls) by {
      forall ls: set<Lit> ensures Entails(s.f, ls) ==> Entails(t.f, ls) { EntailsInMore(s.f, t.f, ls); }
    }
    WidenRest(s, t);
  }

  lemma WidenRest(s: State, t: State)
    requires s.Base() && t == s.(f := t.f) && t.ReasonsOk()
    requires forall ls: set<Lit> :: Entails(s.f, ls) ==> Entails(t.f, ls)
    ensures t.Base()
  {
    hide Entails, State.ReasonsOk, State.TrailOk, State.ArenaOk, State.LevelsOk, State.WatchesOk;
    WidenTrail(s, t);
    WidenArena(s, t);
    WidenWatches(s, t);
  }

  lemma WidenTrail(s: State, t: State)
    requires t == s.(f := t.f)
    requires forall ls: set<Lit> :: Entails(s.f, ls) ==> Entails(t.f, ls)
    ensures s.TrailOk() ==> t.TrailOk()
    ensures s.LimsOk() ==> t.LimsOk()
    ensures s.LevelsOk() ==> t.LevelsOk()
  {
    hide Entails;
    if s.LevelsOk() {
      forall k | 0 <= k < |t.trail| ensures t.trail[k].v < |t.levels| && t.LevelAt(k) { assert s.LevelAt(k); }
    }
  }

  lemma WidenArena(s: State, t: State)
    requires s.ArenaOk() && t == s.(f := t.f)
    requires forall ls: set<Lit> :: Entails(s.f, ls) ==> Entails(t.f, ls)
    ensures t.ArenaOk()
  {
    hide Entails;
    assert forall c :: s.ClauseOk(c) ==> t.ClauseOk(c);
  }

  lemma WidenWatches(s: State, t: State)
    requires s.WatchesOk() && t == s.(f := t.f)
    requires forall ls: set<Lit> :: Entails(s.f, ls) ==> Entails(t.f, ls)
    ensures t.WatchesOk()
  {
    hide State.EntryOk, State.Watched, State.Paired, Entails;
    WidenEntries(s, t);
  }

  lemma WidenEntries(s: State, t: State)
    requires t == s.(f := t.f)
    requires forall ls: set<Lit> :: Entails(s.f, ls) ==> Entails(t.f, ls)
    ensures forall l, w :: s.EntryOk(l, w) ==> t.EntryOk(l, w)
    ensures forall h :: h in s.arena && |s.arena[h]| >= 2 && s.Watched(h) ==> t.Watched(h)
    ensures forall h :: h in s.arena && |s.arena[h]| >= 2 && s.Paired(h) ==> t.Paired(h)
  {
    hide Entails;
  }

  lemma WidenCovered(s: State, c: Clause, t: State)
    requires s.Covered() && t == s.(f := s.f + {c}) && t.CoveredClause(c)
    ensures t.Covered()
  {
    forall d | d in t.f ensures t.CoveredClause(d) {
      if d != c { assert s.CoveredClause(d); }
    }
  }

  // ---- Deleting learnt clauses ----

  function Kept(ws: seq<Watch>, dead: set<nat>): seq<Watch> {
    if ws == [] then []
    else if ws[0].ClauseWatch? && ws[0].h in dead then Kept(ws[1..], dead)
    else [ws[0]] + Kept(ws[1..], dead)
  }

  lemma {:induction false} KeptMembers(ws: seq<Watch>, dead: set<nat>)
    ensures forall w :: w in Kept(ws, dead) <==> w in ws && !(w.ClauseWatch? && w.h in dead)
    ensures DistinctClauses(ws) ==> DistinctClauses(Kept(ws, dead))
  {
    if ws != [] {
      KeptMembers(ws[1..], dead);
      assert ws == [ws[0]] + ws[1..];
      assert DistinctClauses(ws) ==> DistinctClauses(ws[1..]);
    }
  }

  function Without(s: State, dead: set<nat>): State {
    s.(arena := s.arena - dead, learnts := s.learnts - dead, wl := map l | l in s.wl :: Kept(s.wl[l], dead))
  }

  predicate NotLocked(s: State, h: nat)
    requires h in s.arena && |s.arena[h]| >= 1
  {
    s.arena[h][0].v < |s.reasons| ==> s.reasons[s.arena[h][0].v] != ClauseReason(h)
  }

  // Learnt clauses of three or more literals that are no variable's reason may go.
  ghost predicate Deletable(s: State, dead: set<nat>) {
    && dead <= s.learnts
    && forall h :: h in dead ==> h in s.arena && |s.arena[h]| >= 3 && NotLocked(s, h)
  }

  lemma DeleteEntry(s: State, dead: set<nat>, l: Lit, i: nat)
    requires s.WatchesOk() && l in s.wl && i < |Without(s, dead).wl[l]|
    ensures Without(s, dead).EntryOk(l, Without(s, dead).wl[l][i])
  {
    hide Entails, State.Watched, DistinctClauses;
    var t := Without(s, dead);
    KeptMembers(s.wl[l], dead);
    assert t.wl[l][i] in t.wl[l];
    var j :| 0 <= j < |s.wl[l]| && s.wl[l][j] == t.wl[l][i];
    assert s.EntryOk(l, s.wl[l][j]);
    if t.wl[l][i].BinWatch? { KeptMembers(s.wl[t.wl[l][i].q.Not()], dead); }
  }

  lemma DeleteWatched(s: State, dead: set<nat>, g: nat)
    requires s.WatchesOk() && g in s.arena && g !in dead && |s.arena[g]| >= 3
    ensures Without(s, dead).Watched(g)
  {
    hide Entails, State.EntryOk, DistinctClauses;
    assert s.Watched(g);
    KeptMembers(s.wl[s.arena[g][0].Not()], dead);
    KeptMembers(s.wl[s.arena[g][1].Not()], dead);
  }

  lemma DeletePaired(s: State, dead: set<nat>, g: nat)
    requires s.WatchesOk() && g in s.arena && g !in dead && |s.arena[g]| == 2
    ensures Without(s, dead).Paired(g)
  {
    assert s.Paired(g);
    KeptMembers(s.wl[s.arena[g][1].Not()], dead);
  }

  lemma DeleteWatches(s: State, dead: set<nat>)
    requires s.WatchesOk()
    ensures Without(s, dead).WatchesOk()
  {
    hide Entails, State.EntryOk, State.Watched;
    var t := Without(s, dead);
    forall l | l in s.wl ensures DistinctClauses(t.wl[l]) {
      KeptMembers(s.wl[l], dead);
      assert DistinctClauses(s.wl[l]);
    }
    forall l, i | l in t.wl && 0 <= i < |t.wl[l]| ensures t.EntryOk(l, t.wl[l][i]) { DeleteEntry(s, dead, l, i); }
    forall g | g in t.arena && |t.arena[g]| >= 3 ensures t.Watched(g) { DeleteWatched(s, dead, g); }
    forall g | g in t.arena && |t.arena[g]| == 2 ensures t.Paired(g) { DeletePaired(s, dead, g); }
  }

  lemma DeleteReasons(s: State, dead: set<nat>)
    requires s.ReasonsOk() && Deletable(s, dead)
    ensures Without(s, dead).ReasonsOk()
  {
    hide Entails;
    var t := Without(s, dead);
    forall k | 0 <= k < |t.trail| ensures t.trail[k].v < |t.levels| && t.ReasonAt(k) { assert s.ReasonAt(k); }
  }

  lemma DeleteRest(s: State, dead: set<nat>)
    requires s.Base() && s.Covered() && Deletable(s, dead)
    ensures Without(s, dead).LevelsOk() && Without(s, dead).ArenaOk() && Without(s, dead).Covered()
  {
    hide Entails, State.WatchesOk, State.ReasonsOk, NotLocked, State.CoveredClause, State.Covered;
    var t := Without(s, dead);
    forall k | 0 <= k < |t.trail| ensures t.trail[k].v < |t.levels| && t.LevelAt(k) { assert s.LevelAt(k); }
    assert forall c :: s.ClauseOk(c) ==> t.ClauseOk(c);
    forall l, q | l in s.wl && BinWatch(q) in s.wl[l]
      ensures l in t.wl && BinWatch(q) in t.wl[l]
    { KeptMembers(s.wl[l], dead); }
    SameCovered(s, t);
  }

  lemma DeleteInv(s: State, dead: set<nat>)
    requires s.Inv() && Deletable(s, dead)
    ensures Without(s, dead).Inv()
  {
    hide Entails, State.LevelsOk, State.WatchesOk, State.ReasonsOk, State.ArenaOk, State.Covered, Deletable;
    DeleteWatches(s, dead);
    DeleteReasons(s, dead);
    DeleteRest(s, dead);
  }

  lemma DeleteNoneFalse(s: State, dead: set<nat>, u: seq<Lit>)
    requires s.NoneFalse(u)
    ensures Without(s, dead).NoneFalse(u)
  {
    var t := Without(s, dead);
    forall l, q | l in t.wl && BinWatch(q) in t.wl[l] ensures !(l in u && q.Not() in u) { KeptMembers(s.wl[l], dead); }
  }
}
