// Where the analysis of a conflict stops: at the first unique implication point.
module SatUip {
  import opened Cnf
  import opened SatState
  import opened SatAnalysis
  import opened SatCore
  import opened SatRedundant

  // t holds the variables of vars above level 0, and the antecedents of its variables assigned after position p.
  ghost predicate ResolvedTo(s: State, vars: set<nat>, p: int, t: set<nat>) {
    && (forall v :: v in vars && AboveZero(s, v) ==> v in t)
    && forall k: nat, v: nat ::
         p < k < |s.trail| && s.trail[k].v in t && Antecedent(s, s.trail[k].v, v) && AboveZero(s, v) ==> v in t
  }

  // Resolving the conflict on everything assigned after position p leaves the variable v.
  ghost predicate ReachesTo(s: State, vars: set<nat>, p: int, v: nat) {
    forall t: set<nat> :: ResolvedTo(s, vars, p, t) ==> v in t
  }

  // Then trail[p] is the only literal of the current level up to p.
  ghost predicate UipAt(s: State, vars: set<nat>, p: int) {
    && s.lims != [] && Top(s) <= p < |s.trail| && ReachesTo(s, vars, p, s.trail[p].v)
    && forall k :: Top(s) <= k < p ==> !ReachesTo(s, vars, p, s.trail[k].v)
  }

  // The last such position on the trail.
  ghost predicate FirstUip(s: State, vars: set<nat>, p: int) {
    UipAt(s, vars, p) && forall k :: p < k < |s.trail| ==> !UipAt(s, vars, k)
  }

  // The clause derived: the negation of that literal, and those of the lower levels that are left.
  ghost predicate Derived(s: State, vars: set<nat>, p: int, tags: seq<nat>, c: seq<Lit>) {
    && FirstUip(s, vars, p) && |tags| == |s.levels| && c != [] && c[0] == s.trail[p].Not()
    && (forall l: Lit :: l in c[1..] <==> FalseBelow(s, l) && ReachesTo(s, vars, p, l.v))
    && forall v :: 0 <= v < |tags| ==> (tags[v] != 0 <==> ReachesTo(s, vars, p, v))
  }

  lemma ReachesStart(s: State, vars: set<nat>, p: int, v: nat)
    requires v in vars && AboveZero(s, v)
    ensures ReachesTo(s, vars, p, v)
  {
  }

  lemma ReachesLower(s: State, vars: set<nat>, p: int, q: int, v: nat)
    requires ReachesTo(s, vars, p, v) && q <= p
    ensures ReachesTo(s, vars, q, v)
  {
    hide Antecedent;
    forall t: set<nat> | ResolvedTo(s, vars, q, t) ensures v in t { assert ResolvedTo(s, vars, p, t); }
  }

  lemma ReachesOn(s: State, vars: set<nat>, p: int, k: nat, v: nat)
    requires p < k < |s.trail| && ReachesTo(s, vars, p, s.trail[k].v) && Antecedent(s, s.trail[k].v, v)
    requires AboveZero(s, v)
    ensures ReachesTo(s, vars, p, v)
  {
    hide Antecedent;
    forall t: set<nat> | ResolvedTo(s, vars, p, t) ensures v in t { assert s.trail[k].v in t; }
  }

  // ---- The walk down the trail ----

  // Only what is reached is tagged.
  ghost predicate TagsReached(s: State, vars: set<nat>, tags: seq<nat>, p: int) {
    && |tags| == |s.levels| == |s.reasons|
    && forall v: nat :: v < |tags| && tags[v] != 0 ==> AboveZero(s, v) && ReachesTo(s, vars, p, v)
  }

  ghost predicate TaggedAt(s: State, tags: seq<nat>, k: int)
    requires k < |s.trail|
  {
    0 <= k && s.trail[k].v < |tags| && s.trail[k].v < |s.reasons| && tags[s.trail[k].v] != 0
  }

  // All of it is tagged.
  ghost predicate TagsClosed(s: State, vars: set<nat>, tags: seq<nat>, p: int) {
    && (forall v :: v in vars ==> Known(s, tags, v))
    && forall k :: p < k < |s.trail| && TaggedAt(s, tags, k) ==> ReasonKnown(s, tags, s.trail[k].v)
  }

  lemma TagsExact(s: State, vars: set<nat>, tags: seq<nat>, p: int, v: nat)
    requires TagsReached(s, vars, tags, p) && TagsClosed(s, vars, tags, p)
    ensures ReachesTo(s, vars, p, v) <==> v < |tags| && tags[v] != 0
  {
    hide Antecedent, ReasonKnown;
    var all := TaggedSet(tags);
    forall k: nat, w: nat |
      p < k < |s.trail| && s.trail[k].v in all && Antecedent(s, s.trail[k].v, w) && AboveZero(s, w)
      ensures w in all
    {
      KnownAntecedent(s, tags, s.trail[k].v, w);
    }
    assert ResolvedTo(s, vars, p, all);
  }

  // No implication point lies above position p.
  ghost predicate UipWalk(s: State, vars: set<nat>, tags: seq<nat>, p: int) {
    && TagsReached(s, vars, tags, p) && TagsClosed(s, vars, tags, p)
    && forall k :: p < k < |s.trail| ==> !UipAt(s, vars, k)
  }

  lemma UipStart(s: State, vars: set<nat>, tags: seq<nat>)
    requires |tags| == |s.levels| == |s.reasons| && forall v :: 0 <= v < |tags| ==> tags[v] == 0
    ensures TagsReached(s, vars, tags, |s.trail| - 1)
  {
  }

  lemma UipFirst(s: State, vars: set<nat>, tags: seq<nat>)
    requires TagsReached(s, vars, tags, |s.trail| - 1) && forall v :: v in vars ==> Known(s, tags, v)
    ensures UipWalk(s, vars, tags, |s.trail| - 1)
  {
  }

  lemma TagsLower(s: State, vars: set<nat>, tags: seq<nat>, p: int)
    requires TagsReached(s, vars, tags, p)
    ensures TagsReached(s, vars, tags, p - 1)
  {
    hide ReachesTo, AboveZero;
    forall v: nat | v < |tags| && tags[v] != 0 ensures ReachesTo(s, vars, p - 1, v) {
      ReachesLower(s, vars, p, p - 1, v);
    }
  }

  // A literal that is not tagged is passed over.
  lemma UipSkip(s: State, vars: set<nat>, tags: seq<nat>, p: nat)
    requires UipWalk(s, vars, tags, p) && p < |s.trail| && s.trail[p].v < |tags| && tags[s.trail[p].v] == 0
    ensures UipWalk(s, vars, tags, p - 1)
  {
    hide ReachesTo, AboveZero, ReasonKnown, Known;
    TagsLower(s, vars, tags, p);
    TagsExact(s, vars, tags, p, s.trail[p].v);
  }

  // Another tagged literal of the level: no implication point.
  lemma NoUip(s: State, vars: set<nat>, tags: seq<nat>, p: nat, k: nat)
    requires UipWalk(s, vars, tags, p) && p < |s.trail| && s.lims != [] && Top(s) <= k < p
    requires s.trail[k].v < |tags| && tags[s.trail[k].v] != 0
    ensures !UipAt(s, vars, p)
  {
    hide AboveZero, ReasonKnown, Known;
    TagsExact(s, vars, tags, p, s.trail[k].v);
  }

  // The antecedents of trail[p] have been tagged.
  lemma UipResolved(s: State, vars: set<nat>, was: seq<nat>, tags: seq<nat>, p: nat)
    requires UipWalk(s, vars, was, p) && !UipAt(s, vars, p) && TagsReached(s, vars, tags, p - 1)
    requires p < |s.trail| && s.trail[p].v < |s.reasons| && ReasonKnown(s, tags, s.trail[p].v)
    requires forall v: nat :: v < |tags| && v < |was| && was[v] != 0 ==> tags[v] != 0
    requires forall k :: p < k < |s.trail| && s.trail[k].v < |tags| && s.trail[k].v < |was| ==>
      (tags[s.trail[k].v] != 0 <==> was[s.trail[k].v] != 0)
    ensures UipWalk(s, vars, tags, p - 1)
  {
    hide ReachesTo, AboveZero, ReasonKnown, UipAt;
    assert forall v :: v in vars ==> Known(s, tags, v);
    forall k | p - 1 < k < |s.trail| && TaggedAt(s, tags, k)
      ensures ReasonKnown(s, tags, s.trail[k].v)
    {
      if k != p { ReasonKnownMore(s, was, tags, s.trail[k].v); }
    }
  }

  lemma ConflictReached(s: State, vars: set<nat>, lits: seq<Lit>)
    requires vars == VarSet(lits)
    ensures forall j :: 0 <= j < |lits| && AboveZero(s, lits[j].v) ==> ReachesTo(s, vars, |s.trail| - 1, lits[j].v)
  {
    hide ReachesTo;
    forall j | 0 <= j < |lits| && AboveZero(s, lits[j].v) ensures ReachesTo(s, vars, |s.trail| - 1, lits[j].v) {
      ReachesStart(s, vars, |s.trail| - 1, lits[j].v);
    }
  }

  // The antecedents of trail[p].
  lemma ReasonReached(s: State, vars: set<nat>, tags: seq<nat>, p: nat)
    requires UipWalk(s, vars, tags, p) && p < |s.trail| && s.trail[p].v < |tags| && tags[s.trail[p].v] != 0
    ensures forall v: nat :: Antecedent(s, s.trail[p].v, v) && AboveZero(s, v) ==> ReachesTo(s, vars, p - 1, v)
  {
    hide Antecedent, ReachesTo, AboveZero;
    ReachesLower(s, vars, p, p - 1, s.trail[p].v);
    forall v: nat | Antecedent(s, s.trail[p].v, v) && AboveZero(s, v) ensures ReachesTo(s, vars, p - 1, v) {
      ReachesOn(s, vars, p - 1, p, v);
    }
  }

  lemma TagReached(s: State, vars: set<nat>, tags: seq<nat>, p: int, v: nat)
    requires TagsReached(s, vars, tags, p) && v < |tags| && AboveZero(s, v) && ReachesTo(s, vars, p, v)
    ensures TagsReached(s, vars, tags[v := 1], p)
  {
    hide ReachesTo;
  }

  lemma NoneOpen(s: State, tags: seq<nat>, learnt: seq<Lit>, ind: int)
    requires Marks(s, tags, learnt, ind, 0)
    ensures forall k :: Top(s) <= k <= ind && s.trail[k].v < |tags| ==> tags[s.trail[k].v] == 0
  {
    assert Open(s, tags, ind) == {};
    forall k | Top(s) <= k <= ind && s.trail[k].v < |tags| ensures tags[s.trail[k].v] == 0 {
      assert k !in Open(s, tags, ind);
    }
  }

  // What the tags say at the end.
  ghost predicate UipTags(s: State, vars: set<nat>, tags: seq<nat>, p: int) {
    && |tags| == |s.levels| && (forall v: nat :: ReachesTo(s, vars, p, v) <==> v < |tags| && tags[v] != 0)
    && forall k :: 0 <= k < |s.trail| ==> s.trail[k].v < |s.levels|
  }

  // No other tagged literal of the level: the first implication point, and the clause derived.
  lemma UipEnd(s: State, vars: set<nat>, tags: seq<nat>, learnt: seq<Lit>, ind: int)
    requires UipWalk(s, vars, tags, ind + 1) && Marks(s, tags, learnt, ind, 0) && 0 <= ind + 1 < |s.trail|
    requires Top(s) <= ind + 1 && s.trail[ind + 1].v < |tags| && tags[s.trail[ind + 1].v] != 0 && |s.lims| > 0
    requires Top(s) <= |s.trail| && forall k :: 0 <= k < |s.trail| ==> s.trail[k].v < |s.levels|
    ensures Derived(s, vars, ind + 1, tags, learnt[0 := s.trail[ind + 1].Not()])
  {
    hide TagsReached, TagsClosed, ReachesTo, Marks;
    MarksBounds(s, tags, learnt, ind, 0);
    var p := ind + 1;
    forall v: nat ensures ReachesTo(s, vars, p, v) <==> v < |tags| && tags[v] != 0 { TagsExact(s, vars, tags, p, v); }
    NoneOpen(s, tags, learnt, ind);
    var c := learnt[0 := s.trail[p].Not()];
    assert c[1..] == learnt[1..];
    forall l: Lit ensures l in c[1..] <==> FalseBelow(s, l) && ReachesTo(s, vars, p, l.v) {
      UipLit(s, vars, tags, learnt, ind, l);
    }
  }

  lemma UipLit(s: State, vars: set<nat>, tags: seq<nat>, learnt: seq<Lit>, ind: int, l: Lit)
    requires Marks(s, tags, learnt, ind, 0) && UipTags(s, vars, tags, ind + 1) && Top(s) <= |s.trail|
    ensures l in learnt[1..] <==> FalseBelow(s, l) && ReachesTo(s, vars, ind + 1, l.v)
  {
    hide ReachesTo;
    if l in learnt[1..] {
      var i :| 0 <= i < |learnt[1..]| && learnt[1..][i] == l;
      assert learnt[i + 1] == l;
    }
    if FalseBelow(s, l) && ReachesTo(s, vars, ind + 1, l.v) {
      var k :| 0 <= k < Top(s) && s.trail[..Top(s)][k] == l.Not();
      assert s.trail[k] == l.Not() && l == s.trail[k].Not();
    }
  }

  // ---- Marking the literals of a clause ----

  // Nothing but what is reached is tagged, and nothing assigned after position ind is tagged anew.
  ghost predicate MarkedOn(s: State, vars: set<nat>, was: seq<nat>, tags: seq<nat>, ind: int) {
    && TagsReached(s, vars, tags, ind) && |was| == |tags|
    && (forall v: nat :: v < |tags| && was[v] != 0 ==> tags[v] != 0)
    && forall k: nat :: ind < k < |s.trail| && s.trail[k].v < |tags| ==>
         (tags[s.trail[k].v] != 0 <==> was[s.trail[k].v] != 0)
  }

  lemma MarkedSelf(s: State, vars: set<nat>, tags: seq<nat>, ind: int)
    requires TagsReached(s, vars, tags, ind)
    ensures MarkedOn(s, vars, tags, tags, ind)
  {
    hide TagsReached;
  }

  lemma MarkedTwice(s: State, vars: set<nat>, was: seq<nat>, mid: seq<nat>, tags: seq<nat>, ind: int)
    requires MarkedOn(s, vars, was, mid, ind) && MarkedOn(s, vars, mid, tags, ind)
    ensures MarkedOn(s, vars, was, tags, ind)
    ensures forall v: nat :: Known(s, mid, v) ==> Known(s, tags, v)
  {
    hide TagsReached;
  }

  lemma MarkedReached(s: State, vars: set<nat>, was: seq<nat>, tags: seq<nat>, ind: int)
    requires MarkedOn(s, vars, was, tags, ind)
    ensures TagsReached(s, vars, tags, ind)
  {
    hide TagsReached;
  }

  // The variable of a literal that is false by position ind.
  lemma MarkedOne(s: State, vars: set<nat>, tags: seq<nat>, ind: nat, v: nat)
    requires s.Inv() && TagsReached(s, vars, tags, ind) && v < |tags| && AboveZero(s, v) && ReachesTo(s, vars, ind, v)
    requires ind < |s.trail| && exists k :: 0 <= k <= ind && s.trail[k].v == v
    ensures MarkedOn(s, vars, tags, tags[v := 1], ind) && Known(s, tags[v := 1], v)
  {
    hide Entails, State.LimsOk, State.LevelsOk, State.ReasonsOk, State.ArenaOk, State.WatchesOk, State.Covered,
      TagsReached,
      ReachesTo, AboveZero;
    TrailDistinct(s);
    TagReached(s, vars, tags, ind, v);
    TagsLength(s, vars, tags, ind);
  }

  lemma TagsLength(s: State, vars: set<nat>, tags: seq<nat>, p: int)
    requires TagsReached(s, vars, tags, p)
    ensures |tags| == |s.levels| == |s.reasons|
  {
  }

  lemma NotAt(trail: seq<Lit>, ind: nat, l: Lit)
    requires ind < |trail| && l.Not() in trail[..ind + 1]
    ensures exists k :: 0 <= k <= ind && trail[k].v == l.v
  {
    var k :| 0 <= k <= ind && trail[..ind + 1][k] == l.Not();
    assert trail[k].v == l.v;
  }

  lemma ReasonAntecedents(s: State, p: nat)
    requires p < |s.trail| && s.trail[p].v < |s.reasons|
    ensures match s.reasons[s.trail[p].v]
      case NoReason => true
      case BinReason(q) => Antecedent(s, s.trail[p].v, q.v)
      case ClauseReason(h) => h in s.arena ==> forall i :: 1 <= i < |s.arena[h]| ==>
          Antecedent(s, s.trail[p].v, s.arena[h][i].v)
  {
  }

  lemma WalkLower(s: State, vars: set<nat>, tags: seq<nat>, p: int)
    requires UipWalk(s, vars, tags, p)
    ensures TagsReached(s, vars, tags, p - 1)
  {
    hide TagsReached;
    TagsLower(s, vars, tags, p);
  }

  // Open literals below p.
  lemma OtherOpen(s: State, vars: set<nat>, tags: seq<nat>, learnt: seq<Lit>, p: nat, cnt: nat)
    requires UipWalk(s, vars, tags, p) && Marks(s, tags, learnt, p - 1, cnt) && cnt > 0 && p < |s.trail|
    ensures !UipAt(s, vars, p)
  {
    hide UipWalk, UipAt;
    assert Open(s, tags, p - 1) != {};
    var k :| k in Open(s, tags, p - 1);
    NoUip(s, vars, tags, p, k);
  }

  lemma MarkedResolved(s: State, vars: set<nat>, was: seq<nat>, tags: seq<nat>, p: nat)
    requires UipWalk(s, vars, was, p) && !UipAt(s, vars, p) && MarkedOn(s, vars, was, tags, p - 1)
    requires p < |s.trail| && s.trail[p].v < |s.reasons| && ReasonKnown(s, tags, s.trail[p].v)
    ensures UipWalk(s, vars, tags, p - 1)
  {
    hide UipWalk, UipAt, TagsReached, ReasonKnown;
    UipResolved(s, vars, was, tags, p);
  }

  lemma StateSizes(s: State)
    requires s.Inv()
    ensures |s.levels| == |s.reasons| == s.n && forall k :: 0 <= k < |s.trail| ==> s.trail[k].v < |s.levels|
    ensures s.lims != [] ==> Top(s) <= |s.trail|
  {
  }

  // ---- The learnt clause ----

  // The learnt clause has exactly the necessary literals of the clause derived at the first implication point.
  ghost predicate Shortened(s: State, vars: set<nat>, learnt: seq<Lit>) {
    exists p: nat, tags: seq<nat>, all: seq<Lit> :: ShortenedFrom(s, vars, p, tags, all, learnt)
  }

  ghost predicate ShortenedFrom(s: State, vars: set<nat>, p: nat, tags: seq<nat>, all: seq<Lit>, learnt: seq<Lit>) {
    && Derived(s, vars, p, tags, all)
    && multiset(learnt) == multiset(Necessary(s, tags, LevelMask(s, all, |all|), all, |all|))
  }

  lemma ShortenedSame(s: State, vars: set<nat>, c: seq<Lit>, d: seq<Lit>)
    requires Shortened(s, vars, c) && multiset(d) == multiset(c)
    ensures Shortened(s, vars, d)
  {
    hide Derived, Necessary, LevelMask;
    var p: nat, tags: seq<nat>, all: seq<Lit> :| ShortenedFrom(s, vars, p, tags, all, c);
    assert ShortenedFrom(s, vars, p, tags, all, d);
  }

  lemma VarsKnown(s: State, tags: seq<nat>, lits: seq<Lit>)
    requires forall j :: 0 <= j < |lits| ==> Known(s, tags, lits[j].v)
    ensures forall v :: v in VarSet(lits) ==> Known(s, tags, v)
  {
    hide Known;
  }
}
