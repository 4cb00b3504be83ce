// Which assumptions the final conflict clause names: exactly those that have a part in the conflict.
module SatCore {
  import opened Cnf
  import opened SatState
  import opened SatAnalysis
  import opened SatVerdict

  // u is on the trail and was forced by a clause with variable v.
  ghost predicate Antecedent(s: State, u: nat, v: nat) {
    && u < |s.reasons| && (exists k :: 0 <= k < |s.trail| && s.trail[k].v == u)
    && match s.reasons[u]
       case NoReason => false
       case BinReason(q) => q.v == v
       case ClauseReason(h) => h in s.arena && exists j :: 1 <= j < |s.arena[h]| && s.arena[h][j].v == v
  }

  ghost predicate AboveZero(s: State, v: nat) {
    v < |s.levels| && s.levels[v] > 0
  }

  // t holds the variables of vars above level 0, and with each variable its antecedents above level 0.
  ghost predicate Reasoned(s: State, vars: set<nat>, t: set<nat>) {
    && (forall v :: v in vars && AboveZero(s, v) ==> v in t)
    && (forall u, v :: u in t && Antecedent(s, u, v) && AboveZero(s, v) ==> v in t)
  }

  // Going back from vars through the reasons one comes to v.
  ghost predicate Reaches(s: State, vars: set<nat>, v: nat) {
    forall t: set<nat> :: Reasoned(s, vars, t) ==> v in t
  }

  // An assumption with a part in what forced the variables of vars.
  ghost predicate Involved(s: State, vars: set<nat>, a: Lit) {
    a in s.trail && a.v < |s.reasons| && s.reasons[a.v].NoReason? && AboveZero(s, a.v) && Reaches(s, vars, a.v)
  }

  // conf holds the negations of these assumptions and nothing else.
  ghost predicate CoreOf(s: State, vars: set<nat>, conf: seq<Lit>) {
    forall l: Lit :: l in conf <==> Involved(s, vars, l.Not())
  }

  // The clause lits of the solver is false.
  ghost predicate FalseClause(s: State, lits: seq<Lit>) {
    && (forall i :: 0 <= i < |lits| ==> lits[i].Not() in s.trail)
    && Present(s, lits)
  }

  ghost predicate Present(s: State, lits: seq<Lit>) {
    || (exists h :: h in s.arena && s.arena[h] == lits)
    || (|lits| == 2 && lits[1].Not() in s.wl && BinWatch(lits[0]) in s.wl[lits[1].Not()])
  }

  // Where the explanation of a false assumption with variable v starts: at the other literals of
  // the clause that forced it, or at itself.
  ghost function Behind(s: State, v: nat): set<nat>
    requires v < |s.reasons|
  {
    match s.reasons[v]
    case NoReason => {v}
    case BinReason(q) => {v}
    case ClauseReason(h) => if h in s.arena && s.arena[h] != [] then VarSet(s.arena[h][1..]) else {}
  }

  // conf is the core of a false clause, or explains why the newest assumption is false.
  ghost predicate FinalCore(s: State, conf: seq<Lit>) {
    s.Inv() &&
    ((exists lits :: FalseClause(s, lits) && CoreOf(s, VarSet(lits), conf)) ||
     (s.assumed != [] && FalseAssumption(s, s.assumed[|s.assumed| - 1], conf)))
  }

  // p is false already: conf is its negation with the core of what made it false.
  ghost predicate FalseAssumption(s: State, p: Lit, conf: seq<Lit>) {
    && p.Not() in s.trail && p.v < |s.reasons|
    && forall l: Lit :: l in conf <==> l == p.Not() || Involved(s, Behind(s, p.v), l.Not())
  }

  // ---- The walk down the trail ----

  // Above position i: what is tagged is reached, and conf has the negations of the tagged assumptions.
  ghost predicate CoreWalk(s: State, vars: set<nat>, tags: seq<nat>, conf: seq<Lit>, i: int) {
    && |tags| == |s.levels| == |s.reasons| && -1 <= i < |s.trail|
    && (forall v :: 0 <= v < |tags| && tags[v] != 0 ==> AboveZero(s, v) && Reaches(s, vars, v))
    && (forall k :: i < k < |s.trail| && TaggedRoot(s, tags, k) ==> s.trail[k].Not() in conf)
    && (forall l :: l in conf ==> exists k :: i < k < |s.trail| && s.trail[k].Not() == l && TaggedRoot(s, tags, k))
  }

  ghost predicate TaggedRoot(s: State, tags: seq<nat>, k: nat)
    requires k < |s.trail|
  {
    var v := s.trail[k].v;
    v < |tags| && v < |s.reasons| && tags[v] != 0 && s.reasons[v].NoReason?
  }

  lemma CoreStart(s: State, vars: set<nat>, tags: seq<nat>)
    requires |tags| == |s.levels| == |s.reasons| && forall v :: 0 <= v < |tags| ==> tags[v] == 0
    ensures CoreWalk(s, vars, tags, [], |s.trail| - 1)
  {
  }

  lemma CoreSkip(s: State, vars: set<nat>, tags: seq<nat>, conf: seq<Lit>, i: nat)
    requires CoreWalk(s, vars, tags, conf, i) && !TaggedRoot(s, tags, i)
    ensures CoreWalk(s, vars, tags, conf, i - 1)
  {
    hide Reaches;
    forall l | l in conf ensures exists k :: i - 1 < k < |s.trail| && s.trail[k].Not() == l && TaggedRoot(s, tags, k) {
      var k :| i < k < |s.trail| && s.trail[k].Not() == l && TaggedRoot(s, tags, k);
    }
  }

  lemma CoreAssumption(s: State, vars: set<nat>, tags: seq<nat>, conf: seq<Lit>, i: nat)
    requires CoreWalk(s, vars, tags, conf, i) && TaggedRoot(s, tags, i)
    ensures CoreWalk(s, vars, tags, conf + [s.trail[i].Not()], i - 1)
  {
    hide Reaches;
    var c := conf + [s.trail[i].Not()];
    forall l | l in c ensures exists k :: i - 1 < k < |s.trail| && s.trail[k].Not() == l && TaggedRoot(s, tags, k) {
      if l in conf {
        var k :| i < k < |s.trail| && s.trail[k].Not() == l && TaggedRoot(s, tags, k);
      }
    }
  }

  lemma CoreTag(s: State, vars: set<nat>, tags: seq<nat>, conf: seq<Lit>, i: int, v: nat)
    requires CoreWalk(s, vars, tags, conf, i) && v < |tags| && s.levels[v] > 0 && Reaches(s, vars, v)
    requires forall k :: i < k < |s.trail| ==> s.trail[k].v != v
    ensures CoreWalk(s, vars, tags[v := 1], conf, i)
  {
    hide Reaches;
    forall k | i < k < |s.trail| ensures TaggedRoot(s, tags[v := 1], k) <==> TaggedRoot(s, tags, k) { }
    forall l | l in conf
      ensures exists k :: i < k < |s.trail| && s.trail[k].Not() == l && TaggedRoot(s, tags[v := 1], k)
    {
      var k :| i < k < |s.trail| && s.trail[k].Not() == l && TaggedRoot(s, tags, k);
    }
  }

  lemma StartReached(s: State, vars: set<nat>, v: nat)
    requires v in vars && AboveZero(s, v)
    ensures Reaches(s, vars, v)
  {
  }

  lemma AntecedentReached(s: State, vars: set<nat>, u: nat, v: nat)
    requires Reaches(s, vars, u) && Antecedent(s, u, v) && AboveZero(s, v)
    ensures Reaches(s, vars, v)
  {
    forall t: set<nat> | Reasoned(s, vars, t) ensures v in t { assert u in t; }
  }

  // ---- The end of the walk ----

  function TaggedSet(tags: seq<nat>): set<nat> {
    set v | 0 <= v < |tags| && tags[v] != 0
  }

  // What is tagged at the end has all its antecedents tagged.
  lemma TagsReasoned(s: State, vars: set<nat>, tags: seq<nat>, conf: seq<Lit>, i: int)
    requires s.LevelsOk() && s.LimsOk() && s.lims != [] && i < s.lims[0]
    requires CoreWalk(s, vars, tags, conf, i) && FinalWalk(s, tags, conf, i)
    requires forall v :: v in vars ==> Known(s, tags, v)
    ensures Reasoned(s, vars, TaggedSet(tags))
  {
    hide Reaches, Entails;
    forall u, v | u in TaggedSet(tags) && Antecedent(s, u, v) && AboveZero(s, v) ensures v in TaggedSet(tags) {
      var k :| 0 <= k < |s.trail| && s.trail[k].v == u;
      AboveWalked(s, k);
      assert i < k;
      if u in VarSet(conf) { ConfRoot(s, vars, tags, conf, i, u); }
      assert ReasonKnown(s, tags, u);
    }
  }

  // A literal above level 0 lies at or above the first limit.
  lemma AboveWalked(s: State, k: nat)
    requires s.LevelsOk() && s.LimsOk() && s.lims != [] && k < |s.trail| && AboveZero(s, s.trail[k].v)
    ensures s.lims[0] <= k
  {
    hide Entails;
    assert s.LevelAt(k);
  }

  lemma ConfRoot(s: State, vars: set<nat>, tags: seq<nat>, conf: seq<Lit>, i: int, u: nat)
    requires CoreWalk(s, vars, tags, conf, i) && u in VarSet(conf)
    ensures u < |s.reasons| && s.reasons[u].NoReason?
  {
    hide Reaches;
    var l :| l in conf && l.v == u;
  }

  lemma CoreEnd(s: State, vars: set<nat>, tags: seq<nat>, conf: seq<Lit>, i: int)
    requires s.LevelsOk() && s.LimsOk() && s.lims != [] && i < s.lims[0]
    requires CoreWalk(s, vars, tags, conf, i) && FinalWalk(s, tags, conf, i)
    requires forall v :: v in vars ==> Known(s, tags, v)
    ensures CoreOf(s, vars, conf)
  {
    hide Entails, Reasoned, Reaches, State.LevelsOk, State.LimsOk, FinalWalk;
    TagsReasoned(s, vars, tags, conf, i);
    forall l: Lit ensures l in conf <==> Involved(s, vars, l.Not()) {
      if l in conf {
        var k :| i < k < |s.trail| && s.trail[k].Not() == l && TaggedRoot(s, tags, k);
        assert l.Not() == s.trail[k];
      }
      if Involved(s, vars, l.Not()) {
        var k :| 0 <= k < |s.trail| && s.trail[k] == l.Not();
        AboveWalked(s, k);
        ReachedIn(s, vars, TaggedSet(tags), l.v);
        assert TaggedRoot(s, tags, k) && s.trail[k].Not() == l;
      }
    }
  }

  lemma ReachedIn(s: State, vars: set<nat>, t: set<nat>, v: nat)
    requires Reaches(s, vars, v) && Reasoned(s, vars, t)
    ensures v in t
  {
  }

  // The reason of a reached literal.
  lemma BinaryReached(s: State, vars: set<nat>, i: nat, q: Lit)
    requires i < |s.trail| && s.trail[i].v < |s.reasons| && s.reasons[s.trail[i].v] == BinReason(q)
    requires Reaches(s, vars, s.trail[i].v)
    ensures AboveZero(s, q.v) ==> Reaches(s, vars, q.v)
  {
    hide Reaches;
    if AboveZero(s, q.v) { AntecedentReached(s, vars, s.trail[i].v, q.v); }
  }

  lemma ClauseReached(s: State, vars: set<nat>, i: nat, h: nat)
    requires i < |s.trail| && s.trail[i].v < |s.reasons| && s.reasons[s.trail[i].v] == ClauseReason(h) && h in s.arena
    requires Reaches(s, vars, s.trail[i].v)
    ensures forall j :: 1 <= j < |s.arena[h]| && AboveZero(s, s.arena[h][j].v) ==> Reaches(s, vars, s.arena[h][j].v)
  {
    hide Reaches;
    forall j | 1 <= j < |s.arena[h]| && AboveZero(s, s.arena[h][j].v) ensures Reaches(s, vars, s.arena[h][j].v) {
      AntecedentReached(s, vars, s.trail[i].v, s.arena[h][j].v);
    }
  }

  // Both sides of the walk: the clause explains the conflict, and nothing in it could be left out.
  ghost predicate Walk(s: State, vars: set<nat>, tags: seq<nat>, conf: seq<Lit>, i: int) {
    FinalWalk(s, tags, conf, i) && CoreWalk(s, vars, tags, conf, i)
  }

  lemma WalkStart(s: State, vars: set<nat>, tags: seq<nat>)
    requires s.Inv() && |tags| == s.n && forall v :: 0 <= v < |tags| ==> tags[v] == 0
    ensures Walk(s, vars, tags, [], |s.trail| - 1)
  {
    hide State.Inv, FinalWalk, CoreWalk;
    FinalStart(s, tags);
    TrailBounds(s);
    CoreStart(s, vars, tags);
  }

  lemma WalkSkip(s: State, vars: set<nat>, tags: seq<nat>, conf: seq<Lit>, i: nat)
    requires Walk(s, vars, tags, conf, i) && i < |s.trail| && s.trail[i].v < |tags| && tags[s.trail[i].v] == 0
    ensures Walk(s, vars, tags, conf, i - 1)
  {
    hide FinalWalk, CoreWalk;
    FinalSkip(s, tags, conf, i);
    CoreSkip(s, vars, tags, conf, i);
  }

  lemma WalkAssumption(s: State, vars: set<nat>, tags: seq<nat>, conf: seq<Lit>, i: nat)
    requires Walk(s, vars, tags, conf, i) && s.Inv() && s.root == |s.lims| && i < |s.trail|
    requires s.trail[i].v < |tags| && tags[s.trail[i].v] != 0
    requires s.trail[i].v < |s.reasons| && s.reasons[s.trail[i].v].NoReason?
    ensures Walk(s, vars, tags, conf + [s.trail[i].Not()], i - 1)
  {
    hide State.Inv, FinalWalk, CoreWalk;
    RootAssumption(s, tags, conf, i);
    CoreAssumption(s, vars, tags, conf, i);
  }

  lemma WalkReason(s: State, vars: set<nat>, tags: seq<nat>, conf: seq<Lit>, i: nat)
    requires Walk(s, vars, tags, conf, i) && i < |s.trail|
    requires s.trail[i].v < |tags| && s.trail[i].v < |s.reasons| && ReasonKnown(s, tags, s.trail[i].v)
    ensures Walk(s, vars, tags, conf, i - 1)
  {
    hide FinalWalk, CoreWalk;
    FinalReason(s, tags, conf, i);
    CoreSkip(s, vars, tags, conf, i);
  }

  lemma WalkTag(s: State, vars: set<nat>, tags: seq<nat>, conf: seq<Lit>, i: int, v: nat)
    requires Walk(s, vars, tags, conf, i) && v < |tags| && AboveZero(s, v) && Reaches(s, vars, v)
    requires forall k :: i < k < |s.trail| ==> s.trail[k].v != v
    ensures Walk(s, vars, tags[v := 1], conf, i)
  {
    hide FinalWalk, CoreWalk, Reaches;
    FinalTag(s, tags, conf, i, v);
    CoreTag(s, vars, tags, conf, i, v);
  }

  // What is tagged has been reached.
  lemma WalkReached(s: State, vars: set<nat>, tags: seq<nat>, conf: seq<Lit>, i: int, v: nat)
    requires Walk(s, vars, tags, conf, i) && v < |tags| && tags[v] != 0
    ensures Reaches(s, vars, v)
  {
    hide Reaches;
  }

  lemma WalkEnd(s: State, vars: set<nat>, tags: seq<nat>, conf: seq<Lit>, i: int)
    requires s.Inv() && Walk(s, vars, tags, conf, i) && s.lims != [] && i < s.lims[0]
    requires forall v :: v in vars ==> Known(s, tags, v)
    ensures Explained(s, vars, conf) && CoreOf(s, vars, conf)
  {
    hide Explained, CoreOf, FinalWalk, CoreWalk, Known, State.LevelsOk, State.LimsOk, State.TrailOk, State.ReasonsOk,
      State.ArenaOk, State.WatchesOk, State.Covered;
    FinalExplained(s, tags, conf, i, vars);
    CoreEnd(s, vars, tags, conf, i);
  }

  // Without a decision or an assumption nothing is above level 0.
  lemma CoreNone(s: State, vars: set<nat>)
    requires s.LevelsOk() && s.lims == []
    ensures CoreOf(s, vars, [])
  {
    hide Entails, Reaches;
    forall k | 0 <= k < |s.trail| ensures !AboveZero(s, s.trail[k].v) { assert s.LevelAt(k); }
  }

  // A literal without a reason is explained by itself.
  lemma CoreItself(s: State, p: Lit)
    requires p.Not() in s.trail && p.v < |s.reasons| == |s.levels| && s.reasons[p.v].NoReason?
    requires s.TrailOk()
    ensures CoreOf(s, {p.v}, if s.levels[p.v] > 0 then [p] else [])
  {
    hide Entails;
    var t: set<nat> := if s.levels[p.v] > 0 then {p.v} else {};
    assert Reasoned(s, {p.v}, t);
    forall l: Lit ensures Involved(s, {p.v}, l.Not()) <==> s.levels[p.v] > 0 && l == p {
      if Involved(s, {p.v}, l.Not()) {
        ReachedIn(s, {p.v}, t, l.v);
        var i :| 0 <= i < |s.trail| && s.trail[i] == p.Not();
        var j :| 0 <= j < |s.trail| && s.trail[j] == l.Not();
      }
      if s.levels[p.v] > 0 && l == p { StartReached(s, {p.v}, p.v); }
    }
  }

  lemma ZeroCore(s: State, vars: set<nat>)
    requires s.Inv() && s.lims == []
    ensures CoreOf(s, vars, [])
  {
    hide Entails, State.TrailOk, State.LimsOk, State.LevelsOk, State.ReasonsOk, State.ArenaOk, State.WatchesOk,
      State.Covered, CoreOf;
    CoreNone(s, vars);
  }

  lemma ItselfCore(s: State, p: Lit, conf: seq<Lit>)
    requires s.Inv() && p.Not() in s.trail && p.v < |s.reasons| == |s.levels| && s.reasons[p.v].NoReason?
    requires conf == if s.levels[p.v] > 0 then [p.Not(), p] else [p.Not()]
    ensures FalseAssumption(s, p, conf)
  {
    hide Entails, State.TrailOk, State.LimsOk, State.LevelsOk, State.ReasonsOk, State.ArenaOk, State.WatchesOk,
      State.Covered, Involved;
    CoreItself(s, p);
  }

  lemma ReasonCore(s: State, p: Lit, vars: set<nat>, core: seq<Lit>)
    requires p.Not() in s.trail && p.v < |s.reasons| && vars == Behind(s, p.v) && CoreOf(s, vars, core)
    ensures FalseAssumption(s, p, core + [p.Not()])
  {
    hide Involved;
  }

  lemma AssumptionCore(s: State, conf: seq<Lit>)
    requires s.Inv() && s.assumed != [] && FalseAssumption(s, s.assumed[|s.assumed| - 1], conf)
    ensures FinalCore(s, conf)
  {
    hide State.Inv, FalseAssumption;
  }

  lemma BinaryVars(p: Lit, q: Lit)
    ensures VarSet([q, p.Not()][1..]) == {p.v}
  {
    assert [q, p.Not()][1..] == [p.Not()];
    assert [p.Not()][0].v == p.v;
  }

  lemma ConflictCore(s: State, lits: seq<Lit>, conf: seq<Lit>)
    requires s.Inv() && CoreOf(s, VarSet(lits[0..]), conf) && Present(s, lits)
    requires forall i :: 0 <= i < |lits| ==> lits[i].Not() in s.trail
    ensures FinalCore(s, conf)
  {
    hide CoreOf, Present, State.Inv;
    assert lits[0..] == lits;
    assert FalseClause(s, lits);
  }
}
