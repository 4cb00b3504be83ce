// Undoing assignments and deleting learnt clauses.
module SatUndo {
  import opened Cnf
  import opened SatState
  import opened SatSteps
  import opened SatWatches
  import opened SatAnalysis

  // sat_solver_canceluntil: t is s with the trail cut at the end of the given level.
  ghost predicate CancelledTo(s: State, t: State, level: nat) {
    && level < |s.lims| && s.lims[level] <= |s.trail|
    && t == s.(assigns := t.assigns, reasons := t.reasons, trail := s.trail[..s.lims[level]], lims := s.lims[..level],
               root := t.root, assumed := t.assumed)
    && (forall k :: s.lims[level] <= k < |s.trail| ==> s.trail[k].v < |t.assigns| && t.assigns[s.trail[k].v] == X)
    && Unset(s.trail, s.lims[level], s.assigns, t.assigns) && Unset(s.trail, s.lims[level], s.reasons, t.reasons)
  }

  // Only the variables of the trail from bound on have lost their entry.
  ghost predicate Unset<T(!new)>(trail: seq<Lit>, bound: nat, a: seq<T>, b: seq<T>) {
    |b| == |a| && forall v :: 0 <= v < |a| ==> b[v] == a[v] || exists k :: bound <= k < |trail| && trail[k].v == v
  }

  // The variables of the trail from bound up to position last have their value saved as polarity.
  ghost predicate Saved(trail: seq<Lit>, bound: nat, last: nat, was: seq<bool>, now: seq<bool>) {
    && last <= |trail| && Unset(trail[..last], bound, was, now)
    && forall k :: bound <= k < last ==> trail[k].v < |now| && now[trail[k].v] == !trail[k].neg
  }

  lemma SavedNone(trail: seq<Lit>, bound: nat, last: nat, was: seq<bool>)
    requires last <= |trail|
    ensures Saving(trail, bound, last, |trail|, was, was)
  {
  }

  // The positions from c on have been dealt with.
  ghost predicate Saving(trail: seq<Lit>, bound: nat, last: nat, c: int, was: seq<bool>, now: seq<bool>) {
    && last <= |trail| && Unset(trail[..last], bound, was, now)
    && forall k :: c <= k < last && bound <= k ==> trail[k].v < |now| && now[trail[k].v] == !trail[k].neg
  }

  lemma SavedOne(s: State, bound: nat, last: nat, c: nat, was: seq<bool>, now: seq<bool>)
    requires s.TrailOk() && Saving(s.trail, bound, last, c + 1, was, now) && bound <= c < |s.trail|
    requires s.trail[c].v < |now|
    ensures Saving(s.trail, bound, last, c, was, if c < last then now[s.trail[c].v := !s.trail[c].neg] else now)
  {
    if c < last { UnsetMore(s.trail[..last], bound, was, now, c, !s.trail[c].neg); }
  }

  lemma TrailSizes(s: State)
    requires s.TrailOk()
    ensures |s.assigns| == |s.reasons| == s.n && forall k :: 0 <= k < |s.trail| ==> s.trail[k].v < s.n
  {
  }

  lemma SavedAll(trail: seq<Lit>, bound: nat, last: nat, was: seq<bool>, now: seq<bool>)
    requires Saving(trail, bound, last, bound, was, now)
    ensures Saved(trail, bound, last, was, now)
  {
  }

  lemma AllSet<T(!new)>(trail: seq<Lit>, bound: nat, a: seq<T>)
    ensures Unset(trail, bound, a, a)
  {
  }

  lemma UnsetMore<T(!new)>(trail: seq<Lit>, bound: nat, a: seq<T>, b: seq<T>, k: nat, x: T)
    requires Unset(trail, bound, a, b) && bound <= k < |trail| && trail[k].v < |b|
    ensures Unset(trail, bound, a, b[trail[k].v := x])
  {
  }

  // The root level after the cut: unchanged, or the level cut to (one assumption removed).
  ghost predicate RootAfter(s: State, t: State, level: nat) {
    t.root <= level && t.root <= s.root <= |s.assumed| && (t.root == s.root || t.root == level) &&
    t.assumed == s.assumed[..t.root]
  }

  lemma KeptSame(s: State, t: State, level: nat, k: nat)
    requires DistinctTrail(s) && CancelledTo(s, t, level) && k < s.lims[level]
    ensures t.trail[k] == s.trail[k]
    ensures s.trail[k].v < |t.assigns| ==> t.assigns[s.trail[k].v] == s.assigns[s.trail[k].v]
    ensures s.trail[k].v < |t.reasons| ==> t.reasons[s.trail[k].v] == s.reasons[s.trail[k].v]
  {
  }

  lemma CancelTrail(s: State, t: State, level: nat)
    requires s.TrailOk() && s.LimsOk() && CancelledTo(s, t, level) && RootAfter(s, t, level)
    ensures t.TrailOk() && t.LimsOk()
  {
    TrailDistinct(s);
    forall k | 0 <= k < |t.trail| ensures t.trail[k].v < t.n && t.assigns[t.trail[k].v] == ValueOf(t.trail[k]) {
      KeptSame(s, t, level, k);
    }
    forall v | 0 <= v < t.n && t.assigns[v] != X ensures Lit(v, t.assigns[v] == Zero) in t.trail {
      var k :| 0 <= k < |s.trail| && s.trail[k] == Lit(v, s.assigns[v] == Zero);
      if k < s.lims[level] {
        assert t.trail[k] == s.trail[k];
      }
    }
  }

  lemma CancelLevels(s: State, t: State, level: nat)
    requires s.LimsOk() && s.LevelsOk() && CancelledTo(s, t, level) && RootAfter(s, t, level)
    ensures t.LevelsOk()
  {
    hide Entails;
    forall k | 0 <= k < |t.trail| ensures t.trail[k].v < |t.levels| && t.LevelAt(k) {
      assert s.LevelAt(k) && t.trail[k] == s.trail[k];
    }
  }

  lemma ReasonFrame(s: State, t: State, k: nat)
    requires k < |s.trail| && s.trail[k].v < |s.levels| == |s.reasons| && s.ReasonAt(k)
    requires k < |t.trail| && t.trail[k] == s.trail[k] && t.trail[..k] == s.trail[..k]
    requires t.levels == s.levels && |t.reasons| == |s.reasons| && t.f == s.f && t.arena == s.arena
    requires t.reasons[s.trail[k].v] == s.reasons[s.trail[k].v]
    requires var lv := s.levels[s.trail[k].v];
      0 < lv <= |s.lims| && s.lims[lv - 1] == k ==>
        lv <= |t.lims| && t.lims[lv - 1] == k &&
        (lv <= t.root ==> lv <= s.root && (lv <= |s.assumed| ==>
            lv <= |t.assumed| && t.assumed[lv - 1] == s.assumed[lv - 1]))
    ensures t.ReasonAt(k)
  {
    hide Entails;
  }

  lemma LevelBelowCut(s: State, level: nat, k: nat)
    requires s.LimsOk() && level < |s.lims| && k < s.lims[level] <= |s.trail|
    requires s.trail[k].v < |s.levels| && s.LevelAt(k)
    ensures s.levels[s.trail[k].v] <= level
  {
    hide Entails;
  }

  lemma CancelReasonAt(s: State, t: State, level: nat, k: nat)
    requires DistinctTrail(s) && s.LimsOk() && CancelledTo(s, t, level) && RootAfter(s, t, level)
    requires k < s.lims[level] && s.trail[k].v < |s.levels| == |s.reasons| && s.ReasonAt(k) && s.LevelAt(k)
    ensures t.ReasonAt(k)
  {
    hide Entails, State.ReasonAt, State.LevelAt;
    KeptSame(s, t, level, k);
    LevelBelowCut(s, level, k);
    assert t.trail[..k] == s.trail[..k];
    ReasonFrame(s, t, k);
  }

  lemma CancelDecision(s: State, t: State, level: nat, j: nat)
    requires DistinctTrail(s) && CancelledTo(s, t, level) && j < level
    requires s.lims[j] < s.lims[level] && s.trail[s.lims[j]].v < |s.reasons|
    requires s.reasons[s.trail[s.lims[j]].v].NoReason?
    ensures t.lims[j] < |t.trail| && t.trail[t.lims[j]].v < |t.reasons| && t.reasons[t.trail[t.lims[j]].v].NoReason?
  {
    KeptSame(s, t, level, s.lims[j]);
  }

  lemma CancelReasons(s: State, t: State, level: nat)
    requires DistinctTrail(s) && s.LimsOk() && s.LevelsOk() && s.ReasonsOk() && CancelledTo(s, t, level)
    requires RootAfter(s, t, level)
    ensures t.ReasonsOk()
  {
    hide Entails, State.ReasonAt, State.LevelAt, DistinctTrail;
    forall k | 0 <= k < |t.trail| ensures t.trail[k].v < |t.levels| && t.ReasonAt(k) {
      assert s.LevelAt(k) && s.ReasonAt(k);
      assert t.trail[k] == s.trail[k];
      CancelReasonAt(s, t, level, k);
    }
    forall j | t.root <= j < |t.lims| ensures t.lims[j] < |t.trail| && t.reasons[t.trail[t.lims[j]].v].NoReason? {
      assert s.lims[j] < s.SegEnd(j + 1) <= s.lims[level];
      CancelDecision(s, t, level, j);
    }
  }

  lemma SameClausesOk(s: State, t: State)
    requires t.n == s.n && t.f == s.f && t.arena == s.arena && t.learnts == s.learnts && t.wl == s.wl
    ensures s.ArenaOk() ==> t.ArenaOk()
    ensures s.WatchesOk() ==> t.WatchesOk()
  {
    hide Entails;
    assert forall c :: s.ClauseOk(c) ==> t.ClauseOk(c);
    SameWatchesOk(s, t);
  }

  // The part of the trail that no cancellation removes.
  function Fixed(s: State): seq<Lit> {
    s.trail[..if 0 < |s.lims| && s.lims[0] <= |s.trail| then s.lims[0] else |s.trail|]
  }

  lemma SameCovered(s: State, t: State)
    requires s.Covered() && t.f == s.f
    requires forall l :: l in Fixed(s) ==> l in Fixed(t)
    requires forall h :: h in s.arena && h !in s.learnts ==>
      h in t.arena && h !in t.learnts && LitSet(t.arena[h]) <= LitSet(s.arena[h])
    requires forall l, q :: l in s.wl && BinWatch(q) in s.wl[l] ==> l in t.wl && BinWatch(q) in t.wl[l]
    ensures t.Covered()
  {
    forall c | c in t.f ensures t.CoveredClause(c) {
      assert s.CoveredClause(c);
      if l :| l in c && l in Fixed(s) {
        assert l in Fixed(t);
      } else if h :| h in s.arena && h !in s.learnts && LitSet(s.arena[h]) <= LitSet(c) {
        assert LitSet(t.arena[h]) <= LitSet(c);
      } else if x: Lit, y :| x in c && y in c && x.Not() in s.wl && BinWatch(y) in s.wl[x.Not()] {
        assert BinWatch(y) in t.wl[x.Not()];
      }
    }
  }

  lemma CancelCovered(s: State, t: State, level: nat)
    requires s.Covered() && s.LimsOk() && CancelledTo(s, t, level)
    ensures t.Covered()
  {
    hide Entails, State.CoveredClause, State.Covered;
    assert forall l :: l in Fixed(s) ==> l in Fixed(t);
    SameCovered(s, t);
  }

  lemma CancelInv(s: State, t: State, level: nat)
    requires s.Inv() && CancelledTo(s, t, level) && RootAfter(s, t, level)
    ensures t.Inv()
  {
    hide Entails, State.TrailOk, State.LimsOk, State.LevelsOk, State.ReasonsOk, State.ArenaOk, State.WatchesOk,
      State.Covered, RootAfter;
    TrailDistinct(s);
    CancelTrail(s, t, level);
    CancelLevels(s, t, level);
    CancelReasons(s, t, level);
    SameClausesOk(s, t);
    CancelCovered(s, t, level);
  }

  lemma PopStart(s: State)
    requires s.Inv() && 0 < s.root
    ensures s.TrailOk() && s.LimsOk() && s.root <= |s.lims|
  {
    hide Entails;
  }

  lemma CancelFrame(s: State, t: State, level: nat)
    requires CancelledTo(s, t.(root := s.root, assumed := s.assumed), level)
    ensures CancelledTo(s, t, level)
  {
  }

  // Some assumptions, the newest ones, are removed.
  lemma PoppedInv(s: State, t: State, level: nat)
    requires s.Inv() && level < s.root == |s.lims| && s.AssumedOk(s.root - 1)
    requires CancelledTo(s, t, level) && t.root == level && t.assumed == s.assumed[..level]
    ensures t.Inv() && t.AssumedOk(t.root) && |t.lims| == t.root && t.trail == s.trail[..s.lims[t.root]]
  {
    hide Entails, State.LevelsOk, State.ReasonsOk, State.ArenaOk, State.WatchesOk, State.Covered;
    CancelInv(s, t, level);
    CutAssumed(s, t, level, level);
  }

  lemma CutAssumed(s: State, t: State, level: nat, m: nat)
    requires s.LimsOk() && CancelledTo(s, t, level) && s.AssumedOk(m) && m <= level
    requires m <= |t.assumed| && t.assumed <= s.assumed
    ensures t.AssumedOk(m)
  {
    forall i | 0 <= i < m
      ensures t.assumed[i] in t.trail[..if t.SegEnd(i + 1) <= |t.trail| then t.SegEnd(i + 1) else |t.trail|]
    {
      assert s.assumed[i] in s.trail[..s.SegEnd(i + 1)];
      assert s.lims[i + 1] <= s.lims[level];
      assert t.trail[..s.SegEnd(i + 1)] == s.trail[..s.SegEnd(i + 1)];
    }
  }

  lemma SameNoneFalse(s: State, t: State, u: seq<Lit>)
    requires t.arena == s.arena && t.wl == s.wl
    ensures t.NoneFalse(u) <==> s.NoneFalse(u)
  {
  }

  lemma CutNoneFalse(s: State, t: State, u: seq<Lit>, level: nat)
    requires CancelledTo(s, t, level) && s.NoneFalse(u) && s.trail[..s.lims[level]] <= u
    ensures t.NoneFalse(t.trail)
  {
    NoneFalsePrefix(s, u, t.trail);
  }
}
