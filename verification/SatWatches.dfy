// Watch lists during propagation: reordering the literals of a clause, moving a watch,
// and the state of the lists while the list of one literal is being visited.
module SatWatches {
  import opened Cnf
  import opened SatState

  function Swap(c: seq<Lit>, i: nat, k: nat): (r: seq<Lit>)
    requires i < |c| && k < |c|
    ensures |r| == |c| && LitSet(r) == LitSet(c)
    ensures DistinctVars(c) ==> DistinctVars(r)
  {
    var r := c[i := c[k]][k := c[i]];
    assert LitSet(r) == LitSet(c) by {
      forall l | l in c ensures l in r {
        var x :| 0 <= x < |c| && c[x] == l;
        assert l == r[if x == i then k else if x == k then i else x];
      }
    }
    r
  }

  // Exchange the two watched literals.
  function Swapped(s: State, h: nat): State
    requires h in s.arena && |s.arena[h]| >= 2
  {
    s.(arena := s.arena[h := Swap(s.arena[h], 0, 1)])
  }

  function RemoveAt<T>(ws: seq<T>, j: nat): seq<T>
    requires j < |ws|
  {
    ws[..j] + ws[j + 1..]
  }

  // Let literal k replace literal 1 as a watched literal; entry j of the list of p goes.
  function Moved(s: State, h: nat, k: nat, p: Lit, j: nat): State
    requires h in s.arena && 2 <= k < |s.arena[h]|
    requires p in s.wl && j < |s.wl[p]| && s.arena[h][k].Not() in s.wl
  {
    var w := s.arena[h][k].Not();
    var wl := s.wl[w := s.wl[w] + [ClauseWatch(h)]];
    s.(arena := s.arena[h := Swap(s.arena[h], 1, k)], wl := wl[p := RemoveAt(s.wl[p], j)])
  }

  ghost predicate SameButClauses(s: State, t: State) {
    && t.n == s.n && t.f == s.f && t.assigns == s.assigns && t.levels == s.levels && t.reasons == s.reasons
    && t.trail == s.trail && t.lims == s.lims && t.root == s.root && t.assumed == s.assumed
  }

  lemma SameLevels(s: State, t: State)
    requires SameButClauses(s, t) && s.TrailOk() && s.LimsOk() && s.LevelsOk()
    ensures t.TrailOk() && t.LimsOk() && t.LevelsOk()
  {
    hide Entails;
    forall k | 0 <= k < |t.trail| ensures t.LevelAt(k) { assert s.LevelAt(k); }
  }

  // Reordering a clause that is no literal's reason.
  lemma ReplaceReasonAt(s: State, h: nat, t: State, k: nat)
    requires SameButClauses(s, t)
    requires k < |s.trail| && s.trail[k].v < |s.levels| == |s.reasons| && s.ReasonAt(k)
    requires h in s.arena && |s.arena[h]| >= 1 && s.arena[h][0] !in s.trail
    requires forall g :: g in s.arena && g != h ==> g in t.arena && t.arena[g] == s.arena[g]
    ensures t.ReasonAt(k)
  {
    hide Entails;
    assert s.trail[k] in s.trail;
  }

  lemma ReplaceReasons(s: State, h: nat, t: State)
    requires SameButClauses(s, t) && s.ReasonsOk()
    requires h in s.arena && |s.arena[h]| >= 1 && s.arena[h][0] !in s.trail
    requires forall g :: g in s.arena && g != h ==> g in t.arena && t.arena[g] == s.arena[g]
    ensures t.ReasonsOk()
  {
    forall k | 0 <= k < |t.trail| ensures t.trail[k].v < |t.levels| && t.ReasonAt(k) { ReplaceReasonAt(s, h, t, k); }
  }

  lemma ReorderArena(s: State, h: nat, t: State)
    requires s.ArenaOk() && h in s.arena
    requires t == s.(arena := t.arena, wl := t.wl)
    requires t.arena.Keys == s.arena.Keys && forall g :: g in s.arena && g != h ==> t.arena[g] == s.arena[g]
    requires |t.arena[h]| == |s.arena[h]| && LitSet(t.arena[h]) == LitSet(s.arena[h]) && DistinctVars(t.arena[h])
    ensures t.ArenaOk()
  {
    forall g | g in t.arena ensures t.ClauseOk(t.arena[g]) {
      assert s.ClauseOk(s.arena[g]);
      if g == h {
        forall i | 0 <= i < |t.arena[h]| ensures t.arena[h][i].v < t.n {
          assert t.arena[h][i] in LitSet(s.arena[h]);
        }
      }
    }
  }

  lemma ReorderCovered(s: State, t: State)
    requires s.Covered()
    requires t == s.(arena := t.arena, wl := t.wl)
    requires forall g :: g in s.arena ==> g in t.arena && LitSet(t.arena[g]) == LitSet(s.arena[g])
    requires forall l, q :: l in s.wl && BinWatch(q) in s.wl[l] ==> l in t.wl && BinWatch(q) in t.wl[l]
    ensures t.Covered()
  {
    forall c | c in t.f ensures t.CoveredClause(c) {
      assert s.CoveredClause(c);
      if g :| g in s.arena && g !in s.learnts && LitSet(s.arena[g]) <= LitSet(c) {
        assert LitSet(t.arena[g]) <= LitSet(c);
      } else if x: Lit, y :| x in c && y in c && x.Not() in s.wl && BinWatch(y) in s.wl[x.Not()] {
        assert BinWatch(y) in t.wl[x.Not()];
      }
    }
  }

  lemma ReorderInv(s: State, h: nat, t: State)
    requires s.Inv() && h in s.arena && |s.arena[h]| >= 3 && s.arena[h][0] !in s.trail
    requires t == s.(arena := t.arena, wl := t.wl)
    requires t.arena.Keys == s.arena.Keys && forall g :: g in s.arena && g != h ==> t.arena[g] == s.arena[g]
    requires |t.arena[h]| == |s.arena[h]| && LitSet(t.arena[h]) == LitSet(s.arena[h]) && DistinctVars(t.arena[h])
    requires t.WatchesOk()
    requires forall l, q :: l in s.wl && BinWatch(q) in s.wl[l] ==> l in t.wl && BinWatch(q) in t.wl[l]
    ensures t.Inv()
  {
    hide Entails, State.TrailOk, State.LimsOk, State.LevelsOk, State.ReasonsOk, State.ArenaOk, State.WatchesOk,
      State.Covered;
    SameLevels(s, t);
    ReplaceReasons(s, h, t);
    ReorderArena(s, h, t);
    ReorderCovered(s, t);
  }

  lemma SwapWatches(s: State, h: nat)
    requires s.WatchesOk() && h in s.arena && |s.arena[h]| >= 3
    ensures Swapped(s, h).WatchesOk()
  {
    hide State.EntryOk, State.Watched, State.Paired, DistinctClauses, Swap;
    var t := Swapped(s, h);
    forall l, i | l in t.wl && 0 <= i < |t.wl[l]| ensures t.EntryOk(l, t.wl[l][i]) {
      assert s.EntryOk(l, s.wl[l][i]);
      SwapEntry(s, h, l, s.wl[l][i]);
    }
    forall g | g in t.arena && |t.arena[g]| >= 3 ensures t.Watched(g) {
      assert s.Watched(g);
      SwapWatched(s, h, g);
    }
    forall g | g in t.arena && |t.arena[g]| == 2 ensures t.Paired(g) {
      assert s.Paired(g);
      SwapPaired(s, h, g);
    }
  }

  lemma SwapEntry(s: State, h: nat, l: Lit, w: Watch)
    requires h in s.arena && |s.arena[h]| >= 3 && s.EntryOk(l, w)
    ensures Swapped(s, h).EntryOk(l, w)
  {
    hide Entails;
  }

  lemma SwapWatched(s: State, h: nat, g: nat)
    requires h in s.arena && g in s.arena && |s.arena[h]| >= 3 && |s.arena[g]| >= 2 && s.Watched(g)
    ensures Swapped(s, h).Watched(g)
  {
  }

  lemma SwapPaired(s: State, h: nat, g: nat)
    requires h in s.arena && g in s.arena && |s.arena[h]| >= 3 && |s.arena[g]| == 2 && s.Paired(g)
    ensures Swapped(s, h).Paired(g)
  {
  }

  lemma StoredClause(s: State, h: nat)
    requires s.Inv() && h in s.arena
    ensures DistinctVars(s.arena[h]) && s.WatchesOk()
  {
    hide Entails, State.TrailOk, State.LimsOk, State.LevelsOk, State.ReasonsOk, State.WatchesOk, State.Covered;
    assert s.ClauseOk(s.arena[h]);
  }

  lemma SwapInv(s: State, h: nat)
    requires s.Inv() && h in s.arena && |s.arena[h]| >= 3 && s.arena[h][0] !in s.trail
    ensures Swapped(s, h).Inv()
  {
    hide State.Inv, State.WatchesOk, DistinctVars;
    StoredClause(s, h);
    SwapWatches(s, h);
    ReorderInv(s, h, Swapped(s, h));
  }

  lemma MoveLists(s: State, h: nat, k: nat, p: Lit, j: nat)
    requires s.WatchesOk() && h in s.arena && 2 <= k < |s.arena[h]| && DistinctVars(s.arena[h])
    requires p in s.wl && j < |s.wl[p]| && s.wl[p][j] == ClauseWatch(h)
    requires s.arena[h][1] == p.Not() && s.arena[h][k].Not() in s.wl
    ensures var t := Moved(s, h, k, p, j);
      && (forall l :: l in s.wl && l != p && l != s.arena[h][k].Not() ==> t.wl[l] == s.wl[l])
      && s.arena[h][k].Not() != p && ClauseWatch(h) !in s.wl[s.arena[h][k].Not()]
      && (forall l, w :: l in s.wl && w != ClauseWatch(h) ==> (w in s.wl[l] <==> w in t.wl[l]))
      && ClauseWatch(h) !in t.wl[p]
  {
    hide State.Watched, State.Paired;
    var w := s.arena[h][k].Not();
    var t := Moved(s, h, k, p, j);
    assert s.arena[h][k].v != s.arena[h][1].v && s.arena[h][k].v != s.arena[h][0].v;
    forall i | 0 <= i < |s.wl[w]| ensures s.wl[w][i] != ClauseWatch(h) {
      assert s.EntryOk(w, s.wl[w][i]);
    }
    assert DistinctClauses(s.wl[p]);
    forall l, x | l in s.wl && x != ClauseWatch(h) ensures x in s.wl[l] <==> x in t.wl[l] {
      if l == p && x in s.wl[p] {
        var i :| 0 <= i < |s.wl[p]| && s.wl[p][i] == x;
        assert t.wl[p][if i < j then i else i - 1] == x;
      }
    }
  }

  lemma MoveEntry(s: State, h: nat, k: nat, p: Lit, j: nat, l: Lit, i: nat)
    requires s.WatchesOk() && h in s.arena && 2 <= k < |s.arena[h]| && DistinctVars(s.arena[h])
    requires p in s.wl && j < |s.wl[p]| && s.wl[p][j] == ClauseWatch(h)
    requires s.arena[h][1] == p.Not() && s.arena[h][k].Not() in s.wl
    requires l in s.wl && i < |Moved(s, h, k, p, j).wl[l]|
    ensures Moved(s, h, k, p, j).EntryOk(l, Moved(s, h, k, p, j).wl[l][i])
  {
    MoveLists(s, h, k, p, j);
    var t := Moved(s, h, k, p, j);
    var e := t.wl[l][i];
    if e != ClauseWatch(h) || l != s.arena[h][k].Not() {
      assert e in t.wl[l];
      assert e in s.wl[l];
      var x :| 0 <= x < |s.wl[l]| && s.wl[l][x] == e;
      assert s.EntryOk(l, s.wl[l][x]);
      match e
      case BinWatch(q) => assert BinWatch(l.Not()) in t.wl[q.Not()];
      case ClauseWatch(g) =>
    }
  }

  lemma MoveDistinct(s: State, h: nat, k: nat, p: Lit, j: nat, l: Lit)
    requires s.WatchesOk() && h in s.arena && 2 <= k < |s.arena[h]| && DistinctVars(s.arena[h])
    requires p in s.wl && j < |s.wl[p]| && s.wl[p][j] == ClauseWatch(h)
    requires s.arena[h][1] == p.Not() && s.arena[h][k].Not() in s.wl
    requires l in s.wl
    ensures DistinctClauses(Moved(s, h, k, p, j).wl[l])
  {
    MoveLists(s, h, k, p, j);
    assert DistinctClauses(s.wl[l]);
  }

  lemma MoveWatched(s: State, h: nat, k: nat, p: Lit, j: nat, g: nat)
    requires s.WatchesOk() && h in s.arena && 2 <= k < |s.arena[h]| && DistinctVars(s.arena[h])
    requires p in s.wl && j < |s.wl[p]| && s.wl[p][j] == ClauseWatch(h)
    requires s.arena[h][1] == p.Not() && s.arena[h][k].Not() in s.wl
    requires g in s.arena && |s.arena[g]| >= 3
    ensures Moved(s, h, k, p, j).Watched(g)
  {
    MoveLists(s, h, k, p, j);
    assert s.Watched(g);
    var w := s.arena[h][k].Not();
    var t := Moved(s, h, k, p, j);
    if g == h {
      assert t.wl[w][|s.wl[w]|] == ClauseWatch(h);
    }
  }

  lemma MoveWatches(s: State, h: nat, k: nat, p: Lit, j: nat)
    requires s.WatchesOk() && h in s.arena && 2 <= k < |s.arena[h]| && DistinctVars(s.arena[h])
    requires p in s.wl && j < |s.wl[p]| && s.wl[p][j] == ClauseWatch(h)
    requires s.arena[h][1] == p.Not() && s.arena[h][k].Not() in s.wl
    ensures Moved(s, h, k, p, j).WatchesOk()
  {
    hide State.EntryOk, State.Watched, State.Paired, DistinctClauses, DistinctVars, Swap, RemoveAt;
    var t := Moved(s, h, k, p, j);
    forall l, i | l in t.wl && 0 <= i < |t.wl[l]| ensures t.EntryOk(l, t.wl[l][i]) { MoveEntry(s, h, k, p, j, l, i); }
    forall l | l in t.wl ensures DistinctClauses(t.wl[l]) { MoveDistinct(s, h, k, p, j, l); }
    forall g | g in t.arena && |t.arena[g]| >= 3 ensures t.Watched(g) { MoveWatched(s, h, k, p, j, g); }
    forall g | g in t.arena && |t.arena[g]| == 2 ensures t.Paired(g) { MovePaired(s, h, k, p, j, g); }
  }

  lemma MovePaired(s: State, h: nat, k: nat, p: Lit, j: nat, g: nat)
    requires s.WatchesOk() && h in s.arena && 2 <= k < |s.arena[h]| && DistinctVars(s.arena[h])
    requires p in s.wl && j < |s.wl[p]| && s.wl[p][j] == ClauseWatch(h)
    requires s.arena[h][1] == p.Not() && s.arena[h][k].Not() in s.wl
    requires g in s.arena && |s.arena[g]| == 2
    ensures Moved(s, h, k, p, j).Paired(g)
  {
    assert s.Paired(g) && g != h;
    hide State.WatchesOk;
    MoveLists(s, h, k, p, j);
  }

  lemma MoveInv(s: State, h: nat, k: nat, p: Lit, j: nat)
    requires s.Inv() && h in s.arena && 2 <= k < |s.arena[h]| && s.arena[h][0] !in s.trail
    requires p in s.wl && j < |s.wl[p]| && s.wl[p][j] == ClauseWatch(h)
    requires s.arena[h][1] == p.Not() && s.arena[h][k].Not() in s.wl
    ensures Moved(s, h, k, p, j).Inv()
  {
    hide State.Inv, State.WatchesOk, DistinctVars, RemoveAt;
    StoredClause(s, h);
    MoveLists(s, h, k, p, j);
    MoveWatches(s, h, k, p, j);
    ReorderInv(s, h, Moved(s, h, k, p, j));
  }

  // The list of p, the last literal of t, is visited up to entry j: a clause can have
  // both watched literals false under t only if its entry in that list is still to come.
  ghost predicate Visited(s: State, t: seq<Lit>, p: Lit, j: nat) {
    && p in s.wl && j <= |s.wl[p]|
    && (forall h :: h in s.arena && |s.arena[h]| >= 3 && BothFalse(s.arena[h], t) ==> ClauseWatch(h) in s.wl[p][j..])
    && (forall l, q :: l in s.wl && BinWatch(q) in s.wl[l] && l in t && q.Not() in t ==>
          || (l == p && BinWatch(q) in s.wl[p][j..])
          || (q == p.Not() && BinWatch(l.Not()) in s.wl[p][j..]))
  }

  lemma BinarySymmetric(s: State, l: Lit, q: Lit)
    requires s.WatchesOk() && l in s.wl && BinWatch(q) in s.wl[l]
    ensures s.EntryOk(l, BinWatch(q))
  {
    var x :| 0 <= x < |s.wl[l]| && s.wl[l][x] == BinWatch(q);
    assert s.EntryOk(l, s.wl[l][x]);
  }

  lemma VisitStart(s: State, lo: nat, i: nat)
    requires s.WatchesOk() && lo <= i < |s.trail| && s.trail[i].v < s.n && s.NoneFalse(s.trail[lo..i])
    requires forall k :: lo <= k < i ==> s.trail[k].v != s.trail[i].v
    ensures Visited(s, s.trail[lo..i + 1], s.trail[i], 0)
  {
    hide State.WatchesOk, State.NoneFalse, BothFalse;
    var p := s.trail[i];
    var t := s.trail[lo..i + 1];
    assert t == s.trail[lo..i] + [p];
    StoredToVisit(s, s.trail[lo..i], p);
    BinaryToVisit(s, s.trail[lo..i], p);
    assert p in s.wl ==> s.wl[p][0..] == s.wl[p];
  }

  // A clause that p makes false has its entry in the list of p.
  lemma StoredToVisit(s: State, t0: seq<Lit>, p: Lit)
    requires s.WatchesOk() && p.v < s.n && s.NoneFalse(t0)
    ensures p in s.wl
    ensures forall h :: h in s.arena && |s.arena[h]| >= 3 && BothFalse(s.arena[h], t0 + [p]) ==>
      ClauseWatch(h) in s.wl[p]
  {
    hide State.EntryOk, State.Paired, DistinctClauses;
    forall h | h in s.arena && |s.arena[h]| >= 3 && BothFalse(s.arena[h], t0 + [p]) ensures ClauseWatch(h) in s.wl[p] {
      assert s.Watched(h);
      assert !BothFalse(s.arena[h], t0);
    }
  }

  lemma BinaryToVisit(s: State, t0: seq<Lit>, p: Lit)
    requires s.WatchesOk() && p in s.wl && s.NoneFalse(t0)
    ensures forall l, q :: l in s.wl && BinWatch(q) in s.wl[l] && l in t0 + [p] && q.Not() in t0 + [p] ==>
      (l == p && BinWatch(q) in s.wl[p]) || (q == p.Not() && BinWatch(l.Not()) in s.wl[p])
  {
    hide State.WatchesOk;
    forall l, q | l in s.wl && BinWatch(q) in s.wl[l] && l in t0 + [p] && q.Not() in t0 + [p]
      ensures (l == p && BinWatch(q) in s.wl[p]) || (q == p.Not() && BinWatch(l.Not()) in s.wl[p])
    {
      assert !(l in t0 && q.Not() in t0);
      BinarySymmetric(s, l, q);
      assert q.Not().Not() == q;
    }
  }

  lemma VisitEnd(s: State, t: seq<Lit>, p: Lit)
    requires p in s.wl && Visited(s, t, p, |s.wl[p]|)
    ensures s.NoneFalse(t)
  {
  }

  // Entry j needs no more work: its clause has a watched literal that is not false.
  lemma VisitNext(s: State, t: seq<Lit>, p: Lit, j: nat)
    requires p in s.wl && j < |s.wl[p]| && Visited(s, t, p, j)
    requires match s.wl[p][j]
      case BinWatch(q) => q.Not() !in t
      case ClauseWatch(h) => h in s.arena && |s.arena[h]| >= 2 && !BothFalse(s.arena[h], t)
    ensures Visited(s, t, p, j + 1)
  {
    assert s.wl[p][j..] == [s.wl[p][j]] + s.wl[p][j + 1..];
    forall l, q | l in s.wl && BinWatch(q) in s.wl[l] && l in t && q.Not() in t
      ensures (l == p && BinWatch(q) in s.wl[p][j + 1..]) || (q == p.Not() && BinWatch(l.Not()) in s.wl[p][j + 1..])
    {
      assert l.Not().Not() == l;
    }
  }

  lemma VisitSwap(s: State, t: seq<Lit>, p: Lit, j: nat, h: nat)
    requires h in s.arena && |s.arena[h]| >= 3 && Visited(s, t, p, j)
    ensures Visited(Swapped(s, h), t, p, j)
  {
  }

  lemma VisitMove(s: State, t: seq<Lit>, h: nat, k: nat, p: Lit, j: nat)
    requires s.WatchesOk() && h in s.arena && 2 <= k < |s.arena[h]| && DistinctVars(s.arena[h])
    requires p in s.wl && j < |s.wl[p]| && s.wl[p][j] == ClauseWatch(h)
    requires s.arena[h][1] == p.Not() && s.arena[h][k].Not() in s.wl
    requires Visited(s, t, p, j) && s.arena[h][k].Not() !in t
    ensures Visited(Moved(s, h, k, p, j), t, p, j)
  {
    hide State.WatchesOk, Swap, RemoveAt, BothFalse, DistinctVars;
    MoveLists(s, h, k, p, j);
    MoveFalse(s, t, h, k, p, j);
    RestOfList(s, h, k, p, j);
    var r := Moved(s, h, k, p, j);
    forall l, q | l in r.wl && BinWatch(q) in r.wl[l] && l in t && q.Not() in t
      ensures (l == p && BinWatch(q) in r.wl[p][j..]) || (q == p.Not() && BinWatch(l.Not()) in r.wl[p][j..])
    {
      assert BinWatch(q) in s.wl[l];
    }
  }

  // What comes after the removed entry is still to be visited.
  lemma RestOfList(s: State, h: nat, k: nat, p: Lit, j: nat)
    requires h in s.arena && 2 <= k < |s.arena[h]| && p in s.wl && j < |s.wl[p]| && s.wl[p][j] == ClauseWatch(h)
    requires s.arena[h][k].Not() in s.wl && s.arena[h][k].Not() != p
    ensures var r := Moved(s, h, k, p, j);
      && j <= |r.wl[p]| && r.wl[p][j..] == s.wl[p][j + 1..]
      && forall w :: w in s.wl[p][j..] && w != ClauseWatch(h) ==> w in r.wl[p][j..]
  {
    assert s.wl[p][j..] == [s.wl[p][j]] + s.wl[p][j + 1..];
    assert Moved(s, h, k, p, j).wl[p][j..] == s.wl[p][j + 1..];
  }

  // The new watched literal of the clause is not false under t.
  lemma MoveFalse(s: State, t: seq<Lit>, h: nat, k: nat, p: Lit, j: nat)
    requires h in s.arena && 2 <= k < |s.arena[h]| && p in s.wl && j < |s.wl[p]| && s.arena[h][k].Not() in s.wl
    requires s.arena[h][k].Not() !in t
    ensures var r := Moved(s, h, k, p, j);
      forall g :: g in r.arena && |r.arena[g]| >= 3 && BothFalse(r.arena[g], t) ==>
        g in s.arena && g != h && |s.arena[g]| >= 3 && BothFalse(s.arena[g], t)
  {
  }

  lemma NoneFalseSwap(s: State, t: seq<Lit>, h: nat)
    requires h in s.arena && |s.arena[h]| >= 3 && s.NoneFalse(t)
    ensures Swapped(s, h).NoneFalse(t)
  {
  }

  lemma NoneFalseMove(s: State, t: seq<Lit>, h: nat, k: nat, p: Lit, j: nat)
    requires s.WatchesOk() && h in s.arena && 2 <= k < |s.arena[h]| && DistinctVars(s.arena[h])
    requires p in s.wl && j < |s.wl[p]| && s.wl[p][j] == ClauseWatch(h)
    requires s.arena[h][1] == p.Not() && s.arena[h][k].Not() in s.wl
    requires s.NoneFalse(t) && s.arena[h][k].Not() !in t
    ensures Moved(s, h, k, p, j).NoneFalse(t)
  {
    MoveLists(s, h, k, p, j);
    var r := Moved(s, h, k, p, j);
    forall l, q | l in r.wl && BinWatch(q) in r.wl[l] ensures !(l in t && q.Not() in t) {
      assert BinWatch(q) in s.wl[l];
    }
  }

  // Fewer true literals falsify fewer watched literals, so undoing assignments is free.
  lemma NoneFalsePrefix(s: State, t: seq<Lit>, u: seq<Lit>)
    requires s.NoneFalse(t) && forall l :: l in u ==> l in t
    ensures s.NoneFalse(u)
  {
  }
}
