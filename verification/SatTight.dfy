// The watch invariant over whole runs: what has been propagated stays propagated when levels
// are opened and cut and when clauses are learnt, added and deleted.
module SatTight {
  import opened Cnf
  import opened SatState
  import opened SatSteps
  import opened SatPropagation
  import opened SatUndo
  import opened SatAnalysis
  import opened SatClauses
  import opened SatLevels
  import opened SatCalls
  import opened SatGrow

  // The levels to which the search, or the end of a call, may return.
  ghost predicate Returnable(s: State, i: nat) {
    i < |s.lims| && (i == 0 || s.root <= i)
  }

  // What a return to level i leaves is closed under propagation when no clause recorded since then
  // was unit there already, and this is so at the levels the search returns to.
  ghost predicate CutsClosed(s: State) {
    && (forall i: nat :: Returnable(s, i) ==> !s.Overdue(s.lims[i]))
    && (forall i: nat :: i < |s.lims| && !s.Overdue(s.lims[i]) ==> s.Closed(s.lims[i]))
  }

  // The first q literals of the trail have been propagated, now and after a return.
  ghost predicate Tight(s: State, q: nat) {
    && q <= |s.trail| && (forall i :: 0 <= i < |s.lims| ==> s.lims[i] <= q)
    && CutsClosed(s) && s.Settled(s.trail[..q], s.trail)
  }

  // A literal that is overdue is forced by a clause in the list of a literal before it.
  lemma OverdueOpen(s: State, e: nat)
    requires s.Inv() && s.Overdue(e)
    ensures !s.Closed(e)
  {
    hide Entails, State.LimsOk, State.LevelsOk, State.ReasonsOk, State.ArenaOk, State.WatchesOk, State.Covered,
      State.ForcedBefore;
    var k :| e <= k < |s.trail| && s.ForcedBefore(k, e);
    ForcedEntry(s, k, e);
    var h := s.reasons[s.trail[k].v].h;
    var u, l := s.trail[..e], s.arena[h][1].Not();
    OnlyPlace(s, k, e);
    NotFalse(s, l);
    assert l.Not() == s.arena[h][1];
    var i :| 0 <= i < |s.wl[l]| && s.wl[l][i] == EntryOf(s.arena[h], h);
    assert !s.Held(s.wl[l][i], u);
  }

  // The entry of clause h in the list of its second literal.
  function EntryOf(c: seq<Lit>, h: nat): Watch
    requires |c| >= 2
  {
    if |c| >= 3 then ClauseWatch(h) else BinWatch(c[0])
  }

  lemma ForcedEntry(s: State, k: nat, e: nat)
    requires s.Inv() && k < |s.trail| && e <= |s.trail| && s.ForcedBefore(k, e)
    ensures s.trail[k].v < |s.reasons| && s.reasons[s.trail[k].v].ClauseReason?
    ensures var h := s.reasons[s.trail[k].v].h;
      && h in s.arena && |s.arena[h]| >= 2 && s.arena[h][0] == s.trail[k]
      && var l := s.arena[h][1].Not();
         l in s.trail[..e] && l in s.wl && EntryOf(s.arena[h], h) in s.wl[l]
  {
    hide Entails, State.TrailOk, State.LimsOk, State.LevelsOk, State.ArenaOk, State.Covered, State.EntryOk;
    assert s.ReasonAt(k);
    var h := s.reasons[s.trail[k].v].h;
    assert if |s.arena[h]| >= 3 then s.Watched(h) else s.Paired(h);
  }

  // The exact condition for a level: it is closed unless something above it is overdue.
  lemma ClosedExactly(s: State, i: nat)
    requires s.Inv() && CutsClosed(s) && i < |s.lims|
    ensures s.Closed(s.lims[i]) <==> !s.Overdue(s.lims[i])
  {
    hide State.Inv, State.Closed, State.Overdue;
    if s.Overdue(s.lims[i]) { OverdueOpen(s, s.lims[i]); }
  }

  lemma SameWatchesSettled(s: State, t: State, x: seq<Lit>, u: seq<Lit>)
    requires t.arena == s.arena && t.wl == s.wl && s.Settled(x, u)
    ensures t.Settled(x, u)
  {
    forall l, i | l in x && l in t.wl && 0 <= i < |t.wl[l]|
      ensures t.Held(t.wl[l][i], u)
    { assert s.Held(s.wl[l][i], u); }
  }

  // ---- Propagation ----

  lemma GrownCuts(s: State, t: State, q: nat)
    requires Grown(s, t) && KeptOverdue(s, t, q) && CutsClosed(s)
    requires forall i :: 0 <= i < |s.lims| ==> s.lims[i] <= q && s.lims[i] <= |s.trail|
    ensures CutsClosed(t)
  {
    hide State.Settled, State.Overdue;
    forall i: nat | i < |t.lims|
      ensures t.Overdue(t.lims[i]) <==> s.Overdue(s.lims[i])
      ensures !t.Overdue(t.lims[i]) ==> t.Closed(t.lims[i])
    {
      var m := s.lims[i];
      assert t.Overdue(m) <==> s.Overdue(m);
      if !s.Overdue(m) {
        assert s.Closed(m) && t.trail[..m] == s.trail[..m];
        assert t.Settled(s.trail[..m], s.trail[..m]);
      }
    }
    forall i: nat | Returnable(t, i) ensures !t.Overdue(t.lims[i]) { assert Returnable(s, i); }
  }

  lemma KeptTight(s: State, t: State, q: nat)
    requires Grown(s, t) && KeptOverdue(s, t, q)
    ensures Tight(s, q) ==> CutsClosed(t) && (t.Closed(|t.trail|) ==> Tight(t, |t.trail|))
  {
    hide Grown, KeptOverdue, State.Closed, CutsClosed, State.Settled;
    if Tight(s, q) {
      GrownCuts(s, t, q);
      GrownTrail(s, t);
      SameLims(s, t);
      if t.Closed(|t.trail|) { ClosedSettled(t); }
    }
  }

  lemma SameLims(s: State, t: State)
    requires Grown(s, t)
    ensures t.lims == s.lims
  {
  }

  lemma ClosedSettled(s: State)
    requires s.Closed(|s.trail|)
    ensures s.Settled(s.trail[..|s.trail|], s.trail)
  {
    assert s.trail[..|s.trail|] == s.trail;
  }

  // ---- Cutting ----

  lemma CutOverdue(s: State, t: State, level: nat, e: nat)
    requires s.TrailOk() && CancelledTo(s, t, level) && e <= s.lims[level]
    ensures t.Overdue(e) ==> s.Overdue(e)
    ensures s.Overdue(e) ==> t.Overdue(e) || s.Overdue(s.lims[level])
  {
    TrailDistinct(s);
    assert t.trail[..e] == s.trail[..e];
    forall k: nat | e <= k < s.lims[level] ensures t.ForcedBefore(k, e) <==> s.ForcedBefore(k, e) {
      KeptSame(s, t, level, k);
    }
    if t.Overdue(e) {
      var k :| e <= k < |t.trail| && t.ForcedBefore(k, e);
      assert s.ForcedBefore(k, e);
    }
    if s.Overdue(e) {
      var k :| e <= k < |s.trail| && s.ForcedBefore(k, e);
      if k < s.lims[level] {
        assert t.ForcedBefore(k, e);
      } else {
        assert s.trail[..e] == s.trail[..s.lims[level]][..e];
        assert s.ForcedBefore(k, s.lims[level]);
      }
    }
  }

  lemma CutClosed(s: State, t: State, level: nat, i: nat)
    requires s.TrailOk() && s.LimsOk() && CancelledTo(s, t, level) && i < level
    requires CutsClosed(s) && !s.Overdue(s.lims[level])
    ensures t.Overdue(t.lims[i]) <==> s.Overdue(s.lims[i])
    ensures !t.Overdue(t.lims[i]) ==> t.Closed(t.lims[i])
  {
    hide State.Settled, State.Overdue, State.TrailOk;
    assert s.lims[i] <= s.lims[level];
    CutOverdue(s, t, level, s.lims[i]);
    if !s.Overdue(s.lims[i]) {
      assert s.Closed(s.lims[i]) && t.trail[..t.lims[i]] == s.trail[..s.lims[i]];
      SameWatchesSettled(s, t, s.trail[..s.lims[i]], s.trail[..s.lims[i]]);
    }
  }

  lemma CutTight(s: State, t: State, level: nat)
    requires CutsClosed(s) && s.TrailOk() && s.LimsOk() && CancelledTo(s, t, level) && !s.Overdue(s.lims[level])
    requires t.root == s.root || t.root == level
    ensures Tight(t, |t.trail|)
  {
    hide State.Settled, State.Overdue, State.TrailOk;
    forall i: nat | i < |t.lims|
      ensures t.Overdue(t.lims[i]) <==> s.Overdue(s.lims[i])
      ensures !t.Overdue(t.lims[i]) ==> t.Closed(t.lims[i])
    {
      CutClosed(s, t, level, i);
    }
    forall i: nat | Returnable(t, i) ensures !t.Overdue(t.lims[i]) { assert Returnable(s, i); }
    assert s.Closed(s.lims[level]) && t.trail[..|t.trail|] == t.trail == s.trail[..s.lims[level]];
    SameWatchesSettled(s, t, t.trail, t.trail);
  }

  // A return to a level the search returns to.
  lemma ReturnTight(s: State, t: State, level: nat)
    requires s.Inv() && CancelledTo(s, t, level) && (t.root == s.root || t.root == level)
    ensures CutsClosed(s) && Returnable(s, level) ==> Tight(t, |t.trail|)
  {
    hide Entails, State.LevelsOk, State.ReasonsOk, State.ArenaOk, State.WatchesOk, State.Covered, State.Closed,
      State.Overdue, Tight;
    if CutsClosed(s) && Returnable(s, level) { CutTight(s, t, level); }
  }

  // ---- Opening a level ----

  lemma OpenTight(s: State, t: State)
    requires Tight(s, |s.trail|) && t.arena == s.arena && t.wl == s.wl && SameForced(s, t)
    requires t.lims == s.lims + [|s.trail|] && s.root <= t.root
    ensures Tight(t, |s.trail|)
  {
    hide State.Settled, State.Overdue, SameForced;
    var m := |s.trail|;
    SameForcedOverdue(s, t);
    assert s.trail[..m] == s.trail && t.trail[..m] == s.trail;
    forall i: nat | i < |t.lims|
      ensures !t.Overdue(t.lims[i]) ==> t.Closed(t.lims[i])
    {
      var e := t.lims[i];
      if !t.Overdue(e) && i < |s.lims| { assert s.Closed(s.lims[i]); }
      assert t.trail[..e] == s.trail[..e];
      if !t.Overdue(e) { SameWatchesSettled(s, t, s.trail[..e], s.trail[..e]); }
    }
    forall i: nat | Returnable(t, i) ensures !t.Overdue(t.lims[i]) {
      if i < |s.lims| { assert Returnable(s, i); }
    }
    SameWatchesSettled(s, t, s.trail, s.trail);
    SettledMore(t, s.trail, s.trail, t.trail);
  }

  // The trail may have grown, but not by a literal that a stored clause forces.
  ghost predicate SameForced(s: State, t: State) {
    && s.trail <= t.trail && t.arena == s.arena
    && (forall k :: 0 <= k < |s.trail| && s.trail[k].v < |t.reasons| ==>
          s.trail[k].v < |s.reasons| && t.reasons[s.trail[k].v] == s.reasons[s.trail[k].v])
    && (forall k :: 0 <= k < |s.trail| && s.trail[k].v < |s.reasons| ==> s.trail[k].v < |t.reasons|)
    && forall k :: |s.trail| <= k < |t.trail| && t.trail[k].v < |t.reasons| ==>
         !t.reasons[t.trail[k].v].ClauseReason?
  }

  lemma SameForcedOverdue(s: State, t: State)
    requires SameForced(s, t)
    ensures s.trail <= t.trail && forall e: nat :: e <= |s.trail| ==> (t.Overdue(e) <==> s.Overdue(e))
    ensures !t.Overdue(|s.trail|)
  {
    forall e: nat | e <= |s.trail| ensures t.Overdue(e) <==> s.Overdue(e) {
      assert t.trail[..e] == s.trail[..e];
      assert forall k: nat :: e <= k < |s.trail| ==> (t.ForcedBefore(k, e) <==> s.ForcedBefore(k, e));
      if s.Overdue(e) {
        var k :| e <= k < |s.trail| && s.ForcedBefore(k, e);
        assert t.ForcedBefore(k, e);
      }
    }
  }

  // A literal is added to the trail.
  lemma EnqueueTight(s: State, t: State, q: nat)
    requires Tight(s, q) && t.arena == s.arena && t.wl == s.wl && SameForced(s, t) && t.lims == s.lims
    requires t.root == s.root
    ensures Tight(t, q)
  {
    hide State.Settled, State.Overdue, SameForced;
    SameForcedOverdue(s, t);
    forall i: nat | i < |t.lims|
      ensures !t.Overdue(t.lims[i]) ==> t.Closed(t.lims[i])
    {
      var e := t.lims[i];
      if !t.Overdue(e) {
        assert s.Closed(s.lims[i]) && t.trail[..e] == s.trail[..e];
        SameWatchesSettled(s, t, s.trail[..e], s.trail[..e]);
      }
    }
    forall i: nat | Returnable(t, i) ensures !t.Overdue(t.lims[i]) { assert Returnable(s, i); }
    assert t.trail[..q] == s.trail[..q];
    SameWatchesSettled(s, t, s.trail[..q], s.trail);
    SettledMore(t, s.trail[..q], s.trail, t.trail);
  }

  // ---- Clauses ----

  // The second literal of the learnt clause is not false in what remains after a return.
  ghost predicate CutApart(s: State, c: seq<Lit>) {
    |c| > 1 ==> forall i: nat :: Returnable(s, i) && s.lims[i] <= |s.trail| ==> c[1].Not() !in s.trail[..s.lims[i]]
  }

  lemma JumpApart(s: State, t: State, c: seq<Lit>)
    requires s.Inv() && s.root < |s.lims| && Learnt(s, c) && CancelledTo(s, t, BackLevel(s, c)) && t.root == s.root
    ensures CutApart(t, c)
  {
    hide Entails, State.ReasonsOk, State.ArenaOk, State.WatchesOk, State.Covered;
    if |c| > 1 {
      BackLevelLower(s, c);
      assert FalseBelow(s, c[1]);
      forall i: nat | Returnable(t, i) && t.lims[i] <= |t.trail| ensures c[1].Not() !in t.trail[..t.lims[i]] {
        forall k: nat | k < t.lims[i] ensures t.trail[k] != c[1].Not() { NotBeforeCut(s, t, c, i, k); }
      }
    }
  }

  lemma NotBeforeCut(s: State, t: State, c: seq<Lit>, i: nat, k: nat)
    requires s.LimsOk() && s.LevelsOk() && s.root < |s.lims| && |c| > 1 && c[1].v < |s.levels| && s.levels[c[1].v] > 0
    requires BackLevel(s, c) < |s.lims| && CancelledTo(s, t, BackLevel(s, c)) && t.root == s.root && Returnable(t, i)
    requires k < t.lims[i] <= |t.trail|
    ensures t.trail[k] != c[1].Not()
  {
    hide Entails;
    var lv := s.levels[c[1].v];
    assert s.lims[i] <= s.lims[lv - 1];
    assert s.trail[k] == t.trail[k] && s.LevelAt(k);
  }

  lemma OldHeld(s: State, h: nat, c: seq<Lit>, learnt: bool, w: Watch, u: seq<Lit>, v: seq<Lit>)
    requires s.Held(w, u) && h !in s.arena && |c| >= 2 && u <= v
    ensures WithClause(s, h, c, learnt).Held(w, v)
  {
    hide Listed;
  }

  // The old entries of the watch lists.
  lemma OldSettled(s: State, t: State, h: nat, c: seq<Lit>, learnt: bool, x: seq<Lit>, u: seq<Lit>)
    requires s.WatchesOk() && s.ClauseOk(c) && h !in s.arena && s.Settled(x, u)
    requires t.arena == WithClause(s, h, c, learnt).arena && t.wl == WithClause(s, h, c, learnt).wl
    requires c[0].Not() !in x && c[1].Not() !in x
    ensures t.Settled(x, u)
  {
    ListedMembers(s, h, c);
    hide State.WatchesOk, Listed, State.ClauseOk;
    forall l, i | l in x && l in t.wl && 0 <= i < |t.wl[l]| ensures t.Held(t.wl[l][i], u) {
      assert t.wl[l][i] == s.wl[l][i] && s.Held(s.wl[l][i], u);
      OldHeld(s, h, c, learnt, s.wl[l][i], u, u);
    }
  }

  // The levels below keep what they had.
  lemma KeptCuts(s: State, t: State, q: nat)
    requires Tight(s, q) && t.lims == s.lims && t.root == s.root && |s.trail| <= |t.trail|
    requires forall i: nat :: i < |s.lims| ==> (t.Overdue(s.lims[i]) <==> s.Overdue(s.lims[i]))
    requires forall i: nat :: i < |s.lims| && s.Closed(s.lims[i]) ==> t.Closed(s.lims[i])
    requires t.Settled(t.trail[..q], t.trail)
    ensures Tight(t, q)
  {
    hide State.Settled, State.Overdue, State.Closed;
    forall i: nat | Returnable(t, i) ensures !t.Overdue(t.lims[i]) { assert Returnable(s, i); }
  }

  // t is s with the learnt clause stored under h and its first literal forced by it.
  ghost predicate RecordedAs(s: State, t: State, h: nat, c: seq<Lit>) {
    && h !in s.arena && |c| >= 2 && c[0].v < |s.assigns| == |s.levels| == |s.reasons|
    && t == Enqueued(WithClause(s, h, c, true), c[0], ClauseReason(h))
  }

  // Recording makes overdue exactly the levels at which the second literal was false.
  lemma RecordedOverdue(s: State, t: State, h: nat, c: seq<Lit>, e: nat)
    requires RecordedAs(s, t, h, c) && s.ReasonsOk() && e <= |s.trail|
    requires forall i :: 0 <= i < |s.trail| ==> s.trail[i].v != c[0].v
    ensures t.Overdue(e) <==> s.Overdue(e) || c[1].Not() in s.trail[..e]
  {
    hide Entails, Listed, Enqueued, State.Overdue;
    var u := WithClause(s, h, c, true);
    forall k | 0 <= k < |s.trail| && s.trail[k].v < |s.reasons| && s.reasons[s.trail[k].v].ClauseReason?
      ensures s.reasons[s.trail[k].v].h in s.arena
    { assert s.ReasonAt(k); }
    assert SameReasons(s, u);
    SameReasonsOverdue(s, u, c[0]);
    EnqueuedOverdue(u, c[0], ClauseReason(h), e);
  }

  // What was closed stays closed exactly when the second literal is not false there.
  lemma RecordedClosed(s: State, t: State, h: nat, c: seq<Lit>, e: nat)
    requires RecordedAs(s, t, h, c) && s.WatchesOk() && s.ClauseOk(c) && e <= |s.trail| && s.Closed(e)
    requires forall i :: 0 <= i < |s.trail| ==> s.trail[i].v != c[0].v
    requires c[1].v < |s.assigns| && s.TrailOk()
    ensures t.Closed(e) <==> c[1].Not() !in s.trail[..e]
  {
    hide State.WatchesOk, State.ClauseOk, State.TrailOk;
    var x := s.trail[..e];
    RecordedFields(s, t, h, c);
    assert t.trail[..e] == x;
    assert c[0].Not() !in x && c[0] !in x;
    if c[1].Not() in x {
      NotFalse(s, c[1].Not());
      assert c[1].Not().Not() == c[1];
      NewUnheld(s, t, h, c, x);
    } else {
      OldSettled(s, t, h, c, true, x, x);
    }
  }

  lemma RecordedFields(s: State, t: State, h: nat, c: seq<Lit>)
    requires RecordedAs(s, t, h, c)
    ensures t.arena == WithClause(s, h, c, true).arena && t.wl == WithClause(s, h, c, true).wl
    ensures t.trail == s.trail + [c[0]] && t.lims == s.lims && t.root == s.root
    ensures h !in s.arena && |c| >= 2 && |t.levels| == |s.levels| && t.assumed == s.assumed && t.f == s.f
    ensures c[0].v < |s.levels| && t.levels[c[0].v] == |s.lims|
  {
    hide Listed;
  }

  // The new entry in the list of the second literal has nothing that is true among x.
  lemma NewUnheld(s: State, t: State, h: nat, c: seq<Lit>, x: seq<Lit>)
    requires s.WatchesOk() && s.ClauseOk(c)
    requires t.arena == WithClause(s, h, c, true).arena && t.wl == WithClause(s, h, c, true).wl
    requires c[1].Not() in x && c[0] !in x && c[1] !in x
    ensures !t.Settled(x, x)
  {
    hide Entails, State.EntryOk, State.Watched, State.Paired, DistinctClauses;
    ListedMembers(s, h, c);
    hide Listed;
    var l := c[1].Not();
    var w := if |c| > 2 then ClauseWatch(h) else BinWatch(c[0]);
    var i :| 0 <= i < |t.wl[l]| && t.wl[l][i] == w;
    assert !t.Held(t.wl[l][i], x);
  }

  // A learnt clause is stored and its first literal, not assigned before, becomes true.
  lemma RecordTight(s: State, t: State, h: nat, c: seq<Lit>)
    requires Tight(s, |s.trail|) && s.Inv() && s.ClauseOk(c) && RecordedAs(s, t, h, c) && s.Unassigned(c[0])
    requires CutApart(s, c)
    ensures Tight(t, |s.trail|)
  {
    hide Entails, State.Settled, State.ClauseOk, State.LimsOk, State.LevelsOk, State.ReasonsOk, State.ArenaOk,
      State.WatchesOk, State.Covered, State.Overdue, RecordedAs;
    RecordedFields(s, t, h, c);
    UnassignedNotOnTrail(s, c[0]);
    ClauseLength(s, c);
    assert t.trail[..|s.trail|] == s.trail && s.trail[..|s.trail|] == s.trail;
    RecordSettled(s, t, h, c);
    forall i: nat | i < |t.lims|
      ensures t.Overdue(t.lims[i]) <==> s.Overdue(s.lims[i]) || c[1].Not() in s.trail[..s.lims[i]]
      ensures !t.Overdue(t.lims[i]) ==> t.Closed(t.lims[i])
    {
      RecordedOverdue(s, t, h, c, s.lims[i]);
      if !t.Overdue(t.lims[i]) { RecordedClosed(s, t, h, c, s.lims[i]); }
    }
    forall i: nat | Returnable(t, i) ensures !t.Overdue(t.lims[i]) { assert Returnable(s, i); }
  }

  lemma ClauseLength(s: State, c: seq<Lit>)
    requires s.ClauseOk(c) && |s.assigns| == s.n
    ensures |c| >= 2 && c[0].v < |s.assigns| && c[1].v < |s.assigns|
  {
    hide Entails;
  }

  lemma RecordSettled(s: State, t: State, h: nat, c: seq<Lit>)
    requires s.WatchesOk() && s.ClauseOk(c) && h !in s.arena && c[0].Not() !in s.trail && s.Settled(s.trail, s.trail)
    requires t.arena == WithClause(s, h, c, true).arena && t.wl == WithClause(s, h, c, true).wl
    requires t.trail == s.trail + [c[0]]
    ensures t.Settled(s.trail, t.trail)
  {
    ListedMembers(s, h, c);
    hide State.WatchesOk, Listed;
    forall l, i | l in s.trail && l in t.wl && 0 <= i < |t.wl[l]| ensures t.Held(t.wl[l][i], t.trail) {
      if i < |s.wl[l]| {
        assert t.wl[l][i] == s.wl[l][i] && s.Held(s.wl[l][i], s.trail);
        OldHeld(s, h, c, true, s.wl[l][i], s.trail, t.trail);
      } else {
        assert t.trail[|s.trail|] == c[0];
      }
    }
  }

  // A clause with two unassigned watched literals is stored.
  lemma AddTight(s: State, t: State, h: nat, c: seq<Lit>, q: nat)
    requires Tight(s, q) && s.WatchesOk() && s.ReasonsOk() && s.ClauseOk(c) && h !in s.arena
    requires c[0].Not() !in s.trail && c[1].Not() !in s.trail && t == WithClause(s, h, c, false)
    ensures Tight(t, q)
  {
    hide Entails, State.Settled, State.Overdue, State.WatchesOk, State.ReasonsOk, State.ClauseOk, SameReasons;
    AddedReasons(s, h, c);
    SameReasonsOverdue(s, t, c[0]);
    WithClauseTrail(s, h, c);
    OldSettled(s, t, h, c, false, s.trail[..q], s.trail);
    forall i: nat | i < |s.lims| && s.Closed(s.lims[i]) ensures t.Closed(s.lims[i]) {
      OldSettled(s, t, h, c, false, s.trail[..s.lims[i]], s.trail[..s.lims[i]]);
    }
    KeptCuts(s, t, q);
  }

  lemma AddedReasons(s: State, h: nat, c: seq<Lit>)
    requires s.ReasonsOk() && h !in s.arena && s.ClauseOk(c)
    ensures |c| >= 2 && SameReasons(s, WithClause(s, h, c, false))
  {
    hide Entails, Listed;
    forall k | 0 <= k < |s.trail| && s.trail[k].v < |s.reasons| && s.reasons[s.trail[k].v].ClauseReason?
      ensures s.reasons[s.trail[k].v].h in s.arena
    { assert s.ReasonAt(k); }
  }

  // Learnt clauses are deleted, but no reasons.
  lemma DeleteTight(s: State, dead: set<nat>, q: nat)
    requires Tight(s, q) && s.Inv() && Deletable(s, dead)
    ensures Tight(Without(s, dead), q)
  {
    hide Entails, State.Inv, State.Settled, State.Overdue, SameReasons, Deletable;
    var t := Without(s, dead);
    DeleteSettled(s, dead, s.trail[..q], s.trail);
    DeleteReasonsSame(s, dead);
    SameReasonsOverdue(s, t, Lit(0, false));
    forall i: nat | i < |s.lims| && s.Closed(s.lims[i]) ensures t.Closed(s.lims[i]) {
      DeleteSettled(s, dead, s.trail[..s.lims[i]], s.trail[..s.lims[i]]);
    }
    KeptCuts(s, t, q);
  }

  lemma DeleteReasonsSame(s: State, dead: set<nat>)
    requires s.Inv() && Deletable(s, dead)
    ensures SameReasons(s, Without(s, dead))
  {
    hide Entails, State.LimsOk, State.LevelsOk, State.ArenaOk, State.WatchesOk, State.Covered, Kept;
    forall k | 0 <= k < |s.trail| && s.trail[k].v < |s.reasons| && s.reasons[s.trail[k].v].ClauseReason?
      ensures var h := s.reasons[s.trail[k].v].h; h in s.arena && h !in dead
    { assert s.ReasonAt(k); }
  }

  lemma DeleteSettled(s: State, dead: set<nat>, x: seq<Lit>, u: seq<Lit>)
    requires s.Settled(x, u)
    ensures Without(s, dead).Settled(x, u)
  {
    var t := Without(s, dead);
    forall l, i | l in x && l in t.wl && 0 <= i < |t.wl[l]| ensures t.Held(t.wl[l][i], u) {
      KeptMembers(s.wl[l], dead);
      var w := t.wl[l][i];
      assert w in t.wl[l];
      var j :| 0 <= j < |s.wl[l]| && s.wl[l][j] == w;
      assert s.Held(s.wl[l][j], u);
    }
  }

  // A new variable has empty watch lists.
  lemma VarTight(s: State, q: nat)
    requires Tight(s, q) && s.Inv()
    ensures Tight(WithVar(s), q)
  {
    hide Entails, State.LimsOk, State.LevelsOk, State.ReasonsOk, State.ArenaOk, State.WatchesOk, State.Covered,
      State.Settled, State.Overdue;
    var t := WithVar(s);
    VarSettled(s, s.trail[..q], s.trail);
    SameForcedOverdue(s, t);
    forall i: nat | i < |s.lims| && s.Closed(s.lims[i]) ensures t.Closed(s.lims[i]) {
      VarSettled(s, s.trail[..s.lims[i]], s.trail[..s.lims[i]]);
    }
    KeptCuts(s, t, q);
  }

  lemma VarReady(s: State, q: nat)
    requires s.Inv() && q <= |s.trail| && s.NoneFalse(s.trail[..q])
    ensures var t := WithVar(s);
      && t.Inv() && t.NoneFalse(s.trail[..q]) && t.trail == s.trail && t.lims == s.lims && t.root == s.root
      && t.n == s.n + 1 && (s.AssumedOk(s.root) ==> t.AssumedOk(t.root)) && (Tight(s, q) ==> Tight(t, q))
  {
    hide State.Inv, State.NoneFalse, State.AssumedOk, Tight;
    WithVarReady(s, s.trail[..q]);
    if Tight(s, q) { VarTight(s, q); }
  }

  lemma VarSettled(s: State, x: seq<Lit>, u: seq<Lit>)
    requires s.Settled(x, u)
    ensures WithVar(s).Settled(x, u)
  {
    var t := WithVar(s);
    forall l, i | l in x && l in t.wl && 0 <= i < |t.wl[l]| ensures t.Held(t.wl[l][i], u) {
      assert l in s.wl && t.wl[l] == s.wl[l] && s.Held(s.wl[l][i], u);
    }
  }

  // ---- As the solver uses them ----

  // Recording keeps closed what was closed, now and after a return to any level of the search; at
  // any level it does so exactly when the second literal of the clause is not false there.
  lemma RecordedTight(s: State, t: State, h: nat, c: seq<Lit>)
    requires s.Inv() && RecordedAs(s, t, h, c) && DistinctVars(c) && Entails(s.f, LitSet(c))
    requires s.Unassigned(c[0]) && forall i :: 1 <= i < |c| ==> c[i].Not() in s.trail && c[i].v < s.n
    ensures Tight(s, |s.trail|) && CutApart(s, c) ==> Tight(t, |s.trail|)
    ensures forall i: nat :: i < |s.lims| && s.Closed(s.lims[i]) ==>
      (t.Closed(s.lims[i]) <==> c[1].Not() !in s.trail[..s.lims[i]])
  {
    hide Entails, State.LimsOk, State.LevelsOk, State.ReasonsOk, State.ArenaOk, State.WatchesOk, State.Covered,
      State.Settled, Tight, CutApart, RecordedAs;
    RecordedFields(s, t, h, c);
    RecordedClause(s, c);
    UnassignedNotOnTrail(s, c[0]);
    if Tight(s, |s.trail|) && CutApart(s, c) { RecordTight(s, t, h, c); }
    forall i: nat | i < |s.lims| && s.Closed(s.lims[i])
      ensures t.Closed(s.lims[i]) <==> c[1].Not() !in s.trail[..s.lims[i]]
    { RecordedClosed(s, t, h, c, s.lims[i]); }
  }

  lemma RecordedClause(s: State, c: seq<Lit>)
    requires |c| >= 2 && DistinctVars(c) && Entails(s.f, LitSet(c)) && s.Unassigned(c[0]) && s.TrailOk()
    requires forall i :: 1 <= i < |c| ==> c[i].v < s.n
    ensures s.ClauseOk(c) && c[0].v < |s.assigns| == |s.levels| == |s.reasons| && c[1].v < |s.assigns|
  {
  }

  // After a conflict and the return, in terms of the level of the second literal: below the root a
  // level that was closed is open exactly from that level on.
  lemma LearntExactly(s: State, t: State, u: State, h: nat, c: seq<Lit>, i: nat)
    requires s.Inv() && s.root < |s.lims| && Learnt(s, c) && |c| > 1 && t.Inv()
    requires CancelledTo(s, t, BackLevel(s, c)) && t.root == s.root && RecordedAs(t, u, h, c)
    requires i < s.root && s.Closed(s.lims[i])
    ensures i < |u.lims| && c[1].v < |s.levels| && (u.Closed(u.lims[i]) <==> i < s.levels[c[1].v])
  {
    hide Entails, State.LevelsOk, State.ReasonsOk, State.ArenaOk, State.WatchesOk, State.Covered, State.Settled,
      RecordedAs, Learnt;
    LearntAfterCut(s, t, c);
    BackLevelLower(s, c);
    LearntParts(s, t, c);
    RecordedFields(t, u, h, c);
    CutLims(s, t, BackLevel(s, c));
    assert t.trail[..s.lims[i]] == s.trail[..s.lims[i]];
    SameWatchesSettled(s, t, s.trail[..s.lims[i]], s.trail[..s.lims[i]]);
    RecordedTight(t, u, h, c);
    SecondLevel(s, c, i);
  }

  // The second literal is false at a level exactly from its own level on.
  lemma SecondLevel(s: State, c: seq<Lit>, i: nat)
    requires s.Inv() && s.lims != [] && Learnt(s, c) && |c| > 1 && i < |s.lims|
    ensures c[1].v < |s.levels| && s.lims[i] <= |s.trail|
    ensures c[1].Not() in s.trail[..s.lims[i]] <==> s.levels[c[1].v] <= i
  {
    hide Entails, State.ReasonsOk, State.ArenaOk, State.WatchesOk, State.Covered, State.LevelAt;
    assert FalseBelow(s, c[1]);
    var k :| 0 <= k < Top(s) && s.trail[..Top(s)][k] == c[1].Not();
    PositionLevel(s, k, i);
    OnlyPlace(s, k, s.lims[i]);
  }

  // A literal above level 0 comes before the end of level i exactly when its level is not higher.
  lemma PositionLevel(s: State, k: nat, i: nat)
    requires s.LimsOk() && s.LevelsOk() && k < |s.trail| && i < |s.lims|
    requires s.trail[k].v < |s.levels| && s.levels[s.trail[k].v] > 0
    ensures k < s.lims[i] <==> s.levels[s.trail[k].v] <= i
  {
    hide Entails;
    var lv := s.levels[s.trail[k].v];
    assert s.LevelAt(k);
    if lv <= i {
      assert s.SegEnd(lv) <= s.lims[i];
    } else {
      assert s.lims[i] <= s.lims[lv - 1];
    }
  }

  lemma OnlyPlace(s: State, k: nat, e: nat)
    requires s.TrailOk() && k < |s.trail| && e <= |s.trail|
    ensures s.trail[k] in s.trail[..e] <==> k < e
  {
    TrailDistinct(s);
    if k < e { assert s.trail[..e][k] == s.trail[k]; }
  }

  lemma AddedTight(s: State, t: State, h: nat, c: seq<Lit>, q: nat)
    requires s.Base() && h !in s.arena && |c| >= 2 && DistinctVars(c) && Entails(s.f, LitSet(c))
    requires forall i :: 0 <= i < |c| ==> c[i].v < s.n && s.Unassigned(c[i])
    requires t == WithClause(s, h, c, false)
    ensures Tight(s, q) ==> Tight(t, q)
  {
    hide Entails, State.LimsOk, State.LevelsOk, State.ReasonsOk, State.ArenaOk, State.WatchesOk, Tight, WithClause;
    TrueIffOnTrail(s, c[0]);
    TrueIffOnTrail(s, c[1]);
    if Tight(s, q) { AddTight(s, t, h, c, q); }
  }

  lemma WithClauseTrail(s: State, h: nat, c: seq<Lit>)
    requires |c| >= 2
    ensures var t := WithClause(s, h, c, false);
      && t.trail == s.trail && t.lims == s.lims && t.root == s.root
      && t.arena == WithClause(s, h, c, false).arena && t.wl == WithClause(s, h, c, false).wl
  {
    hide Listed;
  }

  lemma PushedTight(s: State, p: Lit, q: nat)
    requires s.Inv() && p.v < |s.assigns| == |s.levels| == |s.reasons|
    ensures Tight(s, q) && q == |s.trail| ==> Tight(Pushed(s, p), q)
  {
    hide Tight, SameForced, State.Inv;
    PushedForced(s, p);
    if Tight(s, q) && q == |s.trail| { OpenTight(s, Pushed(s, p)); }
  }

  lemma PushedForced(s: State, p: Lit)
    requires s.Inv() && p.v < |s.assigns| == |s.levels| == |s.reasons|
    ensures SameForced(s, Pushed(s, p))
  {
    hide Entails, State.LimsOk, State.LevelsOk, State.ReasonsOk, State.ArenaOk, State.WatchesOk, State.Covered;
    if s.Unassigned(p) { UnassignedForced(s, Pushed(s, p), p); }
  }

  // An unassigned literal goes to the trail without a reason.
  lemma UnassignedForced(s: State, t: State, l: Lit)
    requires s.Base() && s.Unassigned(l) && l.v < |s.reasons|
    requires t.trail == s.trail + [l] && t.reasons == s.reasons[l.v := NoReason] && t.arena == s.arena
    ensures SameForced(s, t)
  {
    hide Entails, State.LimsOk, State.LevelsOk, State.ReasonsOk, State.ArenaOk, State.WatchesOk;
    UnassignedNotOnTrail(s, l);
  }

  // The newest assumptions have been removed. What remains is closed under propagation if and only
  // if nothing on the trail that went is overdue there.
  lemma PoppedReady(s: State, t: State, level: nat)
    requires s.Inv() && level < s.root == |s.lims| && s.AssumedOk(s.root - 1)
    requires CancelledTo(s, t, level) && t.root == level && t.assumed == s.assumed[..level]
    ensures t.Inv() && t.AssumedOk(t.root) && |t.lims| == t.root
    ensures t.NoneFalse(t.trail) <==> s.SafeCut(level)
    ensures CutsClosed(s) ==> (Tight(t, |t.trail|) <==> !s.Overdue(s.lims[level]))
    ensures CutsClosed(s) && level == 0 ==> Tight(t, |t.trail|)
  {
    hide Entails, State.NoneFalse, State.AssumedOk, State.LevelsOk, State.ReasonsOk, State.ArenaOk, State.WatchesOk,
      State.Covered, State.Settled, State.Overdue, CutsClosed, Tight;
    PoppedInv(s, t, level);
    SameNoneFalse(s, t, t.trail);
    ReturnTight(s, t, level);
    if CutsClosed(s) { PoppedExactly(s, t, level); }
  }

  lemma PoppedExactly(s: State, t: State, level: nat)
    requires s.Inv() && CutsClosed(s) && CancelledTo(s, t, level) && t.root == level
    ensures Tight(t, |t.trail|) <==> !s.Overdue(s.lims[level])
  {
    hide Entails, State.LevelsOk, State.ReasonsOk, State.ArenaOk, State.WatchesOk, State.Covered, State.Settled,
      State.Overdue, CutsClosed;
    if s.Overdue(s.lims[level]) {
      OverdueOpen(s, s.lims[level]);
      assert t.trail[..|t.trail|] == t.trail == s.trail[..s.lims[level]];
      if t.Settled(t.trail, t.trail) { SameWatchesSettled(t, s, t.trail, t.trail); }
    } else {
      CutTight(s, t, level);
    }
  }
}
