// Conflict analysis: what the tags mean while a conflict is resolved backwards along the
// trail, and why literals with tagged antecedents can be dropped from the learnt clause.
module SatAnalysis {
  import opened Counting
  import opened Cnf
  import opened SatState
  import opened SatPropagation

  // Start of the segment of the current decision level.
  function Top(s: State): nat
    requires s.lims != []
  {
    s.lims[|s.lims| - 1]
  }

  lemma LevelOfPosition(s: State, k: nat)
    requires s.LimsOk() && s.LevelsOk() && s.root < |s.lims| && k < |s.trail|
    ensures k >= Top(s) ==> s.trail[k].v < |s.levels| && s.levels[s.trail[k].v] == |s.lims|
    ensures k < Top(s) ==> s.trail[k].v < |s.levels| && s.levels[s.trail[k].v] < |s.lims|
  {
    assert s.trail[k].v < |s.levels| && s.LevelAt(k);
    LevelFromBounds(s, k);
  }

  lemma LevelFromBounds(s: State, k: nat)
    requires s.LimsOk() && s.root < |s.lims| && k < |s.trail| && s.trail[k].v < |s.levels| && s.LevelAt(k)
    ensures k >= Top(s) <==> s.levels[s.trail[k].v] == |s.lims|
    ensures s.levels[s.trail[k].v] <= |s.lims|
  {
    hide Entails, State.LimsOk;
    LimBelowTop(s, s.root);
    LimBelowTop(s, s.levels[s.trail[k].v]);
  }

  lemma LimBelowTop(s: State, i: nat)
    requires s.LimsOk() && s.lims != []
    ensures i < |s.lims| ==> s.lims[i] <= Top(s)
  {
  }

  // Positions of the current level, up to ind, whose variable is tagged.
  ghost function Open(s: State, tags: seq<nat>, ind: int): set<int>
    requires s.lims != [] && ind < |s.trail|
  {
    set k: int | Top(s) <= k <= ind && s.trail[k].v < |tags| && tags[s.trail[k].v] != 0
  }

  ghost function OpenLits(s: State, tags: seq<nat>, ind: int): set<Lit>
    requires s.lims != [] && ind < |s.trail|
  {
    set k: int | k in Open(s, tags, ind) :: s.trail[k].Not()
  }

  // The clause resolved so far: the tail of learnt and the open literals.
  ghost function Resolvent(s: State, tags: seq<nat>, learnt: seq<Lit>, ind: int): set<Lit>
    requires s.lims != [] && ind < |s.trail| && learnt != []
  {
    LitSet(learnt[1..]) + OpenLits(s, tags, ind)
  }

  ghost predicate Marks(s: State, tags: seq<nat>, learnt: seq<Lit>, ind: int, cnt: nat) {
    && s.lims != [] && |tags| == |s.levels| && learnt != [] && Top(s) - 1 <= ind < |s.trail|
    && (forall i :: 1 <= i < |learnt| ==> FalseBelow(s, learnt[i]) && tags[learnt[i].v] != 0)
    && DistinctVars(learnt[1..])
    && (forall k :: 0 <= k < |s.trail| && s.trail[k].v < |tags| && tags[s.trail[k].v] != 0 ==>
          s.levels[s.trail[k].v] > 0 && (k < Top(s) ==> s.trail[k].Not() in learnt[1..]))
    && cnt == |Open(s, tags, ind)|
  }

  // l is false, above level 0 and below the current level.
  ghost predicate FalseBelow(s: State, l: Lit) {
    s.lims != [] && Top(s) <= |s.trail| && l.Not() in s.trail[..Top(s)] && l.v < |s.levels| && s.levels[l.v] > 0
  }

  // The literal r of a clause being resolved has been accounted for.
  ghost predicate Accounted(s: State, tags: seq<nat>, learnt: seq<Lit>, ind: int, r: Lit)
    requires s.lims != [] && ind < |s.trail| && learnt != []
  {
    (r.v < |s.levels| && s.levels[r.v] == 0) || r in Resolvent(s, tags, learnt, ind)
  }

  ghost predicate DistinctTrail(s: State) {
    forall i, k :: 0 <= i < |s.trail| && 0 <= k < |s.trail| && i != k ==> s.trail[i].v != s.trail[k].v
  }

  lemma TrailDistinct(s: State)
    requires s.TrailOk()
    ensures DistinctTrail(s)
  {
  }

  lemma MarkOpenSet(s: State, tags: seq<nat>, learnt: seq<Lit>, ind: int, cnt: nat, k: nat)
    requires DistinctTrail(s) && Marks(s, tags, learnt, ind, cnt)
    requires k <= ind && k >= Top(s) && s.trail[k].v < |tags| && tags[s.trail[k].v] == 0
    ensures Open(s, tags[s.trail[k].v := 1], ind) == Open(s, tags, ind) + {k}
    ensures k !in Open(s, tags, ind)
  {
  }

  lemma MarkOpen(s: State, tags: seq<nat>, learnt: seq<Lit>, ind: int, cnt: nat, k: nat)
    requires DistinctTrail(s) && Marks(s, tags, learnt, ind, cnt)
    requires k <= ind && k >= Top(s) && s.trail[k].v < |tags| && tags[s.trail[k].v] == 0 && s.levels[s.trail[k].v] > 0
    ensures Marks(s, tags[s.trail[k].v := 1], learnt, ind, cnt + 1)
    ensures s.trail[k].Not() in Resolvent(s, tags[s.trail[k].v := 1], learnt, ind)
    ensures Resolvent(s, tags, learnt, ind) <= Resolvent(s, tags[s.trail[k].v := 1], learnt, ind)
  {
    MarkOpenSet(s, tags, learnt, ind, cnt, k);
    var tags' := tags[s.trail[k].v := 1];
    assert k in Open(s, tags', ind);
    assert |Open(s, tags', ind)| == cnt + 1;
    assert forall i :: 0 <= i < |s.trail| && i != k && s.trail[i].v < |tags| ==>
      tags'[s.trail[i].v] == tags[s.trail[i].v];
    assert OpenLits(s, tags, ind) <= OpenLits(s, tags', ind);
  }

  lemma MarkLowerSets(s: State, tags: seq<nat>, learnt: seq<Lit>, ind: int, cnt: nat, k: nat)
    requires DistinctTrail(s) && Marks(s, tags, learnt, ind, cnt)
    requires k <= ind && k < Top(s) && s.trail[k].v < |tags| && tags[s.trail[k].v] == 0
    ensures Open(s, tags[s.trail[k].v := 1], ind) == Open(s, tags, ind)
    ensures (learnt + [s.trail[k].Not()])[1..] == learnt[1..] + [s.trail[k].Not()]
    ensures Top(s) <= |s.trail| && s.trail[k] in s.trail[..Top(s)]
    ensures forall i :: 1 <= i < |learnt| ==> learnt[i].v != s.trail[k].v
  {
    assert s.trail[..Top(s)][k] == s.trail[k];
  }

  lemma MarkLower(s: State, tags: seq<nat>, learnt: seq<Lit>, ind: int, cnt: nat, k: nat)
    requires DistinctTrail(s) && Marks(s, tags, learnt, ind, cnt)
    requires k <= ind && k < Top(s) && s.trail[k].v < |tags| && tags[s.trail[k].v] == 0 && s.levels[s.trail[k].v] > 0
    ensures Marks(s, tags[s.trail[k].v := 1], learnt + [s.trail[k].Not()], ind, cnt)
    ensures s.trail[k].Not() in Resolvent(s, tags[s.trail[k].v := 1], learnt + [s.trail[k].Not()], ind)
    ensures Resolvent(s, tags, learnt, ind) <= Resolvent(s, tags[s.trail[k].v := 1], learnt + [s.trail[k].Not()], ind)
  {
    hide Open;
    MarkLowerSets(s, tags, learnt, ind, cnt, k);
    var learnt' := learnt + [s.trail[k].Not()];
    assert s.trail[k].Not().Not() == s.trail[k];
    assert learnt'[1..][|learnt| - 1] == s.trail[k].Not();
  }

  // A tagged literal is already accounted for.
  lemma MarkedAlready(s: State, tags: seq<nat>, learnt: seq<Lit>, ind: int, cnt: nat, k: nat)
    requires Marks(s, tags, learnt, ind, cnt) && k <= ind && s.trail[k].v < |tags|
    requires tags[s.trail[k].v] != 0
    ensures Accounted(s, tags, learnt, ind, s.trail[k].Not())
  {
    if k < Top(s) {
      assert s.trail[k].Not() in learnt[1..];
    } else {
      assert k in Open(s, tags, ind);
    }
  }

  lemma AccountedMore(s: State, tags: seq<nat>, learnt: seq<Lit>, tags': seq<nat>, learnt': seq<Lit>, ind: int, r: Lit)
    requires s.lims != [] && ind < |s.trail| && learnt != [] && learnt' != []
    requires Accounted(s, tags, learnt, ind, r)
    requires Resolvent(s, tags, learnt, ind) <= Resolvent(s, tags', learnt', ind)
    ensures Accounted(s, tags', learnt', ind, r)
  {
  }

  // All literals of an entailed clause but p are accounted for: resolve on p.
  lemma ResolveOn(s: State, was: set<Lit>, p: Lit, r: set<Lit>, tags: seq<nat>, learnt: seq<Lit>, ind: int)
    requires s.Inv() && s.lims != [] && ind < |s.trail| && learnt != []
    requires Entails(s.f, was + {p.Not()}) && Entails(s.f, r)
    requires was <= Resolvent(s, tags, learnt, ind)
    requires forall l :: l in r && l != p ==> l.Not() in s.trail && Accounted(s, tags, learnt, ind, l)
    ensures Entails(s.f, Resolvent(s, tags, learnt, ind))
  {
    hide Entails, State.Inv, State.TrailOk, Resolvent;
    ZeroRefuted(s, r, p);
    Resolution(s.f, was, p, r, Resolvent(s, tags, learnt, ind));
  }

  lemma ZeroRefuted(s: State, r: set<Lit>, p: Lit)
    requires s.Inv()
    requires forall l :: l in r && l != p ==> l.Not() in s.trail
    ensures forall l :: l in r && l != p && l.v < |s.levels| && s.levels[l.v] == 0 ==> Entails(s.f, {l.Not()})
  {
    hide Entails, State.TrailOk, State.LimsOk, State.ReasonsOk, State.ArenaOk, State.WatchesOk, State.Covered;
    forall l | l in r && l != p && l.v < |s.levels| && s.levels[l.v] == 0 ensures Entails(s.f, {l.Not()}) {
      var k :| 0 <= k < |s.trail| && s.trail[k] == l.Not();
      assert s.LevelAt(k);
    }
  }

  lemma ResolveConflict(s: State, r: set<Lit>, tags: seq<nat>, learnt: seq<Lit>, ind: int)
    requires s.Inv() && s.lims != [] && ind < |s.trail| && learnt != [] && Entails(s.f, r)
    requires forall l :: l in r ==> l.Not() in s.trail && Accounted(s, tags, learnt, ind, l)
    ensures Entails(s.f, Resolvent(s, tags, learnt, ind))
  {
    forall l | l in r && s.levels[l.v] == 0 ensures Entails(s.f, {l.Not()}) {
      ZeroRefuted(s, {l}, l.Not());
    }
    hide Entails, State.Inv, State.TrailOk, Resolvent;
    DropRefuted(s.f, r, Resolvent(s, tags, learnt, ind));
  }

  // Closing the last open position: the next literal to resolve on.
  lemma CloseOpen(s: State, tags: seq<nat>, learnt: seq<Lit>, ind: int, cnt: nat)
    requires Marks(s, tags, learnt, ind, cnt) && ind >= Top(s) && s.trail[ind].v < |tags| && tags[s.trail[ind].v] != 0
    ensures cnt > 0 && Marks(s, tags, learnt, ind - 1, cnt - 1)
    ensures Resolvent(s, tags, learnt, ind) == Resolvent(s, tags, learnt, ind - 1) + {s.trail[ind].Not()}
  {
    assert Open(s, tags, ind) == Open(s, tags, ind - 1) + {ind};
    assert OpenLits(s, tags, ind) == OpenLits(s, tags, ind - 1) + {s.trail[ind].Not()};
  }

  lemma SkipUntagged(s: State, tags: seq<nat>, learnt: seq<Lit>, ind: int, cnt: nat)
    requires Marks(s, tags, learnt, ind, cnt) && ind >= Top(s) && s.trail[ind].v < |tags| && tags[s.trail[ind].v] == 0
    ensures Marks(s, tags, learnt, ind - 1, cnt)
    ensures Resolvent(s, tags, learnt, ind) == Resolvent(s, tags, learnt, ind - 1)
  {
    assert Open(s, tags, ind) == Open(s, tags, ind - 1);
  }

  lemma OpenNonEmpty(s: State, tags: seq<nat>, learnt: seq<Lit>, ind: int, cnt: nat)
    requires Marks(s, tags, learnt, ind, cnt) && cnt > 0
    ensures ind >= Top(s)
  {
    var k :| k in Open(s, tags, ind);
  }

  // A literal with open ones below it at its level has a reason.
  lemma HasReason(s: State, tags: seq<nat>, learnt: seq<Lit>, ind: nat, cnt: nat)
    requires s.LimsOk() && s.LevelsOk() && s.ReasonsOk()
    requires s.root < |s.lims| && Marks(s, tags, learnt, ind - 1, cnt) && cnt > 0 && ind < |s.trail|
    ensures s.trail[ind].v < |s.reasons| == |s.levels| == |tags| && !s.reasons[s.trail[ind].v].NoReason?
    ensures s.levels[s.trail[ind].v] == |s.lims| && s.ReasonAt(ind)
  {
    OpenNonEmpty(s, tags, learnt, ind - 1, cnt);
    LevelOfPosition(s, ind);
    DecidedOnlyFirst(s, ind);
  }

  lemma DecidedOnlyFirst(s: State, k: nat)
    requires s.ReasonsOk() && s.lims != [] && Top(s) < k < |s.trail|
    requires s.trail[k].v < |s.levels| && s.levels[s.trail[k].v] == |s.lims|
    ensures !s.reasons[s.trail[k].v].NoReason? && s.ReasonAt(k)
  {
    hide Entails;
    assert s.ReasonAt(k);
  }

  // ---- Dropping redundant literals ----

  ghost function VarSet(c: seq<Lit>): set<nat> {
    set i | 0 <= i < |c| :: c[i].v
  }

  // v is tagged or was assigned at level 0.
  ghost predicate Known(s: State, tags: seq<nat>, v: nat) {
    v < |s.levels| && v < |tags| && (s.levels[v] == 0 || tags[v] != 0)
  }

  // Variable v was forced, and every other literal of its reason is known.
  ghost predicate ReasonKnown(s: State, tags: seq<nat>, v: nat)
    requires v < |s.reasons|
  {
    match s.reasons[v]
    case NoReason => false
    case BinReason(q) => Known(s, tags, q.v)
    case ClauseReason(h) =>
      h in s.arena && forall i :: 1 <= i < |s.arena[h]| ==> Known(s, tags, s.arena[h][i].v)
  }

  // Every tagged variable of the first m trail positions that is outside the set except
  // has a known reason.
  ghost predicate ClosedBut(s: State, tags: seq<nat>, except: set<nat>, m: nat) {
    m <= |s.trail| && |tags| == |s.levels| == |s.reasons| &&
    forall k :: 0 <= k < m && s.trail[k].v < |tags| && tags[s.trail[k].v] != 0 ==>
      s.trail[k].v in except || ReasonKnown(s, tags, s.trail[k].v)
  }

  lemma ReasonHolds(s: State, a: Assignment, k: nat)
    requires s.ReasonsOk() && k < |s.trail| && !s.reasons[s.trail[k].v].NoReason?
    requires forall h :: h in s.arena ==> Entails(s.f, LitSet(s.arena[h]))
    requires Models(a, s.f)
    requires match s.reasons[s.trail[k].v]
      case NoReason => true
      case BinReason(q) => Holds(a, q)
      case ClauseReason(h) => h in s.arena && forall i :: 1 <= i < |s.arena[h]| ==> !Holds(a, s.arena[h][i])
    ensures Holds(a, s.trail[k])
  {
    assert s.ReasonAt(k);
    var l := s.trail[k];
    match s.reasons[l.v]
    case NoReason =>
    case BinReason(q) =>
      var m :| m in {l, q.Not()} && Holds(a, m);
    case ClauseReason(h) =>
      var m :| m in LitSet(s.arena[h]) && Holds(a, m);
  }

  // If the negations of the kept literals hold, so do all tagged literals of
  // the first m positions: induction along the trail.
  lemma {:induction false} TaggedHold(s: State, tags: seq<nat>, kept: seq<Lit>, m: nat, a: Assignment, k: nat)
    requires s.LevelsOk() && s.ReasonsOk() && DistinctTrail(s)
    requires forall h :: h in s.arena ==> Entails(s.f, LitSet(s.arena[h]))
    requires Models(a, s.f) && ClosedBut(s, tags, VarSet(kept), m)
    requires forall i :: 0 <= i < |kept| ==> kept[i].Not() in s.trail && Holds(a, kept[i].Not())
    requires k < m && Known(s, tags, s.trail[k].v)
    ensures Holds(a, s.trail[k])
  {
    hide Entails, Models, DistinctTrail;
    if s.levels[s.trail[k].v] == 0 {
      ZeroHolds(s, a, k);
    } else if s.trail[k].v in VarSet(kept) {
      KeptHolds(s, kept, a, k);
    } else {
      assert s.ReasonAt(k);
      var l := s.trail[k];
      assert ReasonKnown(s, tags, l.v);
      match s.reasons[l.v] {
        case NoReason =>
        case BinReason(q) =>
          var j :| 0 <= j < k && s.trail[..k][j] == q;
          TaggedHold(s, tags, kept, m, a, j);
        case ClauseReason(h) =>
          forall i | 1 <= i < |s.arena[h]| ensures !Holds(a, s.arena[h][i]) {
            var j :| 0 <= j < k && s.trail[..k][j] == s.arena[h][i].Not();
            TaggedHold(s, tags, kept, m, a, j);
          }
      }
      ReasonHolds(s, a, k);
    }
  }

  lemma ZeroHolds(s: State, a: Assignment, k: nat)
    requires s.LevelsOk() && k < |s.trail| && s.levels[s.trail[k].v] == 0 && Models(a, s.f)
    ensures Holds(a, s.trail[k])
  {
    assert s.LevelAt(k);
    assert SomeHolds(a, {s.trail[k]});
  }

  lemma KeptHolds(s: State, kept: seq<Lit>, a: Assignment, k: nat)
    requires DistinctTrail(s) && k < |s.trail| && s.trail[k].v in VarSet(kept)
    requires forall i :: 0 <= i < |kept| ==> kept[i].Not() in s.trail && Holds(a, kept[i].Not())
    ensures Holds(a, s.trail[k])
  {
    var i :| 0 <= i < |kept| && kept[i].v == s.trail[k].v;
    var j :| 0 <= j < |s.trail| && s.trail[j] == kept[i].Not();
    assert j == k;
  }

  // Dropping literals whose antecedents are all known keeps the clause entailed.
  lemma DropRedundant(s: State, tags: seq<nat>, first: set<Lit>, all: seq<Lit>, kept: seq<Lit>, m: nat)
    requires s.LevelsOk() && s.ReasonsOk() && DistinctTrail(s)
    requires forall h :: h in s.arena ==> Entails(s.f, LitSet(s.arena[h]))
    requires Entails(s.f, first + LitSet(all)) && ClosedBut(s, tags, VarSet(kept), m)
    requires forall i :: 0 <= i < |all| ==> all[i].Not() in s.trail[..m] && Known(s, tags, all[i].v)
    requires forall i :: 0 <= i < |kept| ==> kept[i].Not() in s.trail
    ensures Entails(s.f, first + LitSet(kept))
  {
    forall a: Assignment | Models(a, s.f) ensures SomeHolds(a, first + LitSet(kept)) {
      if SomeHolds(a, LitSet(kept)) {
        var l :| l in LitSet(kept) && Holds(a, l);
        assert l in first + LitSet(kept);
      } else {
        forall i | 0 <= i < |kept| ensures kept[i].Not() in s.trail && Holds(a, kept[i].Not()) {
          assert kept[i] in LitSet(kept);
        }
        forall i | 0 <= i < |all| ensures !Holds(a, all[i]) {
          var k :| 0 <= k < m && s.trail[..m][k] == all[i].Not();
          TaggedHold(s, tags, kept, m, a, k);
        }
        var l :| l in first + LitSet(all) && Holds(a, l);
      }
    }
  }

  // tagged lists exactly the variables with a tag.
  ghost predicate TaggedOk(tags: seq<nat>, tagged: seq<nat>) {
    && (forall i :: 0 <= i < |tagged| ==> tagged[i] < |tags|)
    && (forall i, j :: 0 <= i < j < |tagged| ==> tagged[i] != tagged[j])
    && (forall v :: 0 <= v < |tags| ==> (tags[v] != 0 <==> v in tagged))
  }

  lemma NoTags(tags: seq<nat>)
    requires forall v :: 0 <= v < |tags| ==> tags[v] == 0
    ensures TaggedOk(tags, [])
  {
  }

  lemma TagOne(tags: seq<nat>, tagged: seq<nat>, v: nat)
    requires TaggedOk(tags, tagged) && v < |tags| && tags[v] == 0
    ensures TaggedOk(tags[v := 1], tagged + [v])
  {
    assert (tagged + [v])[|tagged|] == v;
  }

  // Marking the false literal l of a clause that is being resolved.
  lemma MarkStep(s: State, tags: seq<nat>, learnt: seq<Lit>, ind: nat, cnt: nat, l: Lit)
    requires s.Inv() && s.root < |s.lims| && Marks(s, tags, learnt, ind, cnt) && l.Not() in s.trail[..ind + 1]
    ensures l.v < |tags| == |s.levels|
    ensures tags[l.v] != 0 || s.levels[l.v] == 0 ==> Accounted(s, tags, learnt, ind, l)
    ensures tags[l.v] == 0 && s.levels[l.v] == |s.lims| ==>
      Marks(s, tags[l.v := 1], learnt, ind, cnt + 1) && Accounted(s, tags[l.v := 1], learnt, ind, l) &&
      Resolvent(s, tags, learnt, ind) <= Resolvent(s, tags[l.v := 1], learnt, ind)
    ensures tags[l.v] == 0 && s.levels[l.v] > 0 && s.levels[l.v] != |s.lims| ==>
      Marks(s, tags[l.v := 1], learnt + [l], ind, cnt) && Accounted(s, tags[l.v := 1], learnt + [l], ind, l) &&
      Resolvent(s, tags, learnt, ind) <= Resolvent(s, tags[l.v := 1], learnt + [l], ind)
  {
    hide Entails, State.LimsOk, State.LevelsOk, State.ReasonsOk, State.ArenaOk, State.WatchesOk, State.Covered,
      Marks, Resolvent, DistinctTrail;
    MarksBounds(s, tags, learnt, ind, cnt);
    var k :| 0 <= k < |s.trail[..ind + 1]| && s.trail[..ind + 1][k] == l.Not();
    assert s.trail[k] == l.Not() && l == s.trail[k].Not();
    TrailDistinct(s);
    LevelOfPosition(s, k);
    if tags[l.v] != 0 {
      MarkedAlready(s, tags, learnt, ind, cnt, k);
    } else if k >= Top(s) {
      MarkOpen(s, tags, learnt, ind, cnt, k);
    } else if s.levels[l.v] > 0 {
      MarkLower(s, tags, learnt, ind, cnt, k);
    }
  }

  lemma MarksBounds(s: State, tags: seq<nat>, learnt: seq<Lit>, ind: int, cnt: nat)
    requires Marks(s, tags, learnt, ind, cnt)
    ensures s.lims != [] && ind < |s.trail| && learnt != [] && |tags| == |s.levels|
  {
  }

  // Before the first clause nothing is marked.
  lemma MarksStart(s: State, tags: seq<nat>, dummy: Lit)
    requires s.lims != [] && s.LimsOk() && |tags| == |s.levels| && Top(s) < |s.trail|
    requires forall v :: 0 <= v < |tags| ==> tags[v] == 0
    ensures Marks(s, tags, [dummy], |s.trail| - 1, 0)
    ensures Resolvent(s, tags, [dummy], |s.trail| - 1) == {}
  {
    assert Open(s, tags, |s.trail| - 1) == {};
    assert OpenLits(s, tags, |s.trail| - 1) == {};
    assert [dummy][1..] == [];
  }

  // A literal of the current level that has been accounted for is open.
  lemma AccountedOpen(s: State, tags: seq<nat>, learnt: seq<Lit>, ind: nat, cnt: nat, l: Lit, k: nat)
    requires s.Inv() && s.root < |s.lims| && Marks(s, tags, learnt, ind, cnt)
    requires Accounted(s, tags, learnt, ind, l) && Top(s) <= k < |s.trail| && s.trail[k] == l.Not()
    ensures cnt > 0
  {
    hide Entails, State.LimsOk, State.LevelsOk, State.ReasonsOk, State.ArenaOk, State.WatchesOk, State.Covered;
    LevelOfPosition(s, k);
    TrailDistinct(s);
    if l in LitSet(learnt[1..]) {
      NotBelow(s, learnt, l, k);
    }
    assert l in OpenLits(s, tags, ind);
    var j :| j in Open(s, tags, ind) && s.trail[j].Not() == l;
  }

  lemma NotBelow(s: State, learnt: seq<Lit>, l: Lit, k: nat)
    requires DistinctTrail(s) && s.lims != [] && learnt != [] && Top(s) <= k < |s.trail| && s.trail[k] == l.Not()
    requires forall i :: 1 <= i < |learnt| ==> FalseBelow(s, learnt[i])
    ensures l !in learnt[1..]
  {
    forall i | 1 <= i < |learnt| ensures learnt[i] != l { assert FalseBelow(s, learnt[i]); }
  }

  // The state of affairs when the resolution has reached the first unique implication point.
  ghost predicate Resolved(s: State, tags: seq<nat>, learnt: seq<Lit>) {
    && s.lims != [] && |learnt| >= 1 && |tags| == |s.levels| && DistinctVars(learnt) && Entails(s.f, LitSet(learnt))
    && (exists k :: Top(s) <= k < |s.trail| && s.trail[k] == learnt[0].Not())
    && (forall i :: 1 <= i < |learnt| ==> FalseBelow(s, learnt[i]) && tags[learnt[i].v] != 0)
    && ClosedBut(s, tags, VarSet(learnt[1..]), Top(s))
  }

  lemma ResolvedEnd(s: State, tags: seq<nat>, learnt: seq<Lit>, ind: int)
    requires s.Inv() && s.root < |s.lims| && Marks(s, tags, learnt, ind, 0) && 0 <= ind + 1 < |s.trail|
    requires Top(s) <= ind + 1
    requires Entails(s.f, Resolvent(s, tags, learnt, ind) + {s.trail[ind + 1].Not()})
    ensures Resolved(s, tags, learnt[0 := s.trail[ind + 1].Not()])
  {
    hide Entails, State.LimsOk, State.LevelsOk, State.ReasonsOk, State.ArenaOk, State.WatchesOk, State.Covered;
    var p := s.trail[ind + 1];
    var c := learnt[0 := p.Not()];
    TrailDistinct(s);
    assert Open(s, tags, ind) == {};
    assert c[1..] == learnt[1..];
    assert LitSet(c) == Resolvent(s, tags, learnt, ind) + {p.Not()} by {
      assert c == [p.Not()] + learnt[1..];
    }
    ResolvedDistinct(s, learnt, c, ind + 1);
    ResolvedClosed(s, tags, learnt, ind);
    assert p == c[0].Not();
  }

  lemma ResolvedDistinct(s: State, learnt: seq<Lit>, c: seq<Lit>, k: nat)
    requires DistinctTrail(s) && s.lims != [] && learnt != [] && DistinctVars(learnt[1..]) && Top(s) <= k < |s.trail|
    requires c == learnt[0 := s.trail[k].Not()]
    requires forall i :: 1 <= i < |learnt| ==> FalseBelow(s, learnt[i])
    ensures DistinctVars(c)
  {
    forall i, j | 0 <= i < j < |c| ensures c[i].v != c[j].v {
      if i > 0 {
        assert learnt[1..][i - 1] == c[i] && learnt[1..][j - 1] == c[j];
      } else {
        assert FalseBelow(s, learnt[j]);
        var m :| 0 <= m < Top(s) && s.trail[..Top(s)][m] == learnt[j].Not();
      }
    }
  }

  lemma ResolvedClosed(s: State, tags: seq<nat>, learnt: seq<Lit>, ind: int)
    requires Marks(s, tags, learnt, ind, 0) && s.LimsOk() && |s.reasons| == |s.levels|
    ensures ClosedBut(s, tags, VarSet(learnt[1..]), Top(s))
  {
    forall k | 0 <= k < Top(s) && s.trail[k].v < |tags| && tags[s.trail[k].v] != 0
      ensures s.trail[k].v in VarSet(learnt[1..])
    {
      var i :| 0 <= i < |learnt[1..]| && learnt[1..][i] == s.trail[k].Not();
    }
  }

  lemma ResolveStart(s: State, tags: seq<nat>, lits: seq<Lit>, p: Lit)
    requires s.Inv() && s.root < |s.lims| && |tags| == |s.levels| && forall v :: 0 <= v < |tags| ==> tags[v] == 0
    requires Conflicting(s, lits, p)
    ensures 0 < |s.trail| && Marks(s, tags, [Lit(0, false)], |s.trail| - 1, 0)
    ensures forall j :: 0 <= j < |lits| ==> lits[j].Not() in s.trail[..|s.trail|]
  {
    hide Entails, State.LevelsOk, State.ReasonsOk, State.ArenaOk, State.WatchesOk, State.Covered;
    assert s.lims[|s.lims| - 1] < s.SegEnd(|s.lims|);
    assert s.trail[..|s.trail|] == s.trail;
    MarksStart(s, tags, Lit(0, false));
  }

  lemma ConflictResolved(s: State, tags: seq<nat>, learnt: seq<Lit>, cnt: nat, lits: seq<Lit>, p: Lit, k: nat)
    requires s.Inv() && s.root < |s.lims| && 0 < |s.trail| && Marks(s, tags, learnt, |s.trail| - 1, cnt) && learnt != []
    requires Conflicting(s, lits, p) && Top(s) <= k < |s.trail| && s.trail[k] == p
    requires forall j :: 0 <= j < |lits| ==> Accounted(s, tags, learnt, |s.trail| - 1, lits[j])
    ensures cnt > 0 && Entails(s.f, Resolvent(s, tags, learnt, |s.trail| - 1))
  {
    hide State.Inv, Accounted, Resolvent, Marks, Entails;
    var ind := |s.trail| - 1;
    forall l | l in LitSet(lits) ensures l.Not() in s.trail && Accounted(s, tags, learnt, ind, l) {
      var j :| 0 <= j < |lits| && lits[j] == l;
    }
    ResolveConflict(s, LitSet(lits), tags, learnt, ind);
    assert p.Not() in LitSet(lits) && s.trail[k] == p.Not().Not();
    AccountedOpen(s, tags, learnt, ind, cnt, p.Not(), k);
  }

  lemma ReasonFacts(s: State, tags: seq<nat>, learnt: seq<Lit>, k: nat, cnt: nat)
    requires s.Inv() && s.root < |s.lims| && Marks(s, tags, learnt, k - 1, cnt) && cnt > 0 && k < |s.trail|
    ensures s.trail[k].v < |s.reasons| && !s.reasons[s.trail[k].v].NoReason?
    ensures match s.reasons[s.trail[k].v]
      case NoReason => true
      case BinReason(q) =>
        q in s.trail[..k] && q.v < |s.levels| && (s.levels[q.v] == 0 || s.levels[q.v] == |s.lims|) &&
        Entails(s.f, {s.trail[k], q.Not()})
      case ClauseReason(h) =>
        h in s.arena && |s.arena[h]| >= 2 && s.arena[h][0] == s.trail[k] && Entails(s.f, LitSet(s.arena[h])) &&
        forall j :: 1 <= j < |s.arena[h]| ==> s.arena[h][j].Not() in s.trail[..k]
  {
    ArenaEntailed(s);
    hide Entails, Marks, State.TrailOk, State.WatchesOk, State.Covered, State.ArenaOk;
    HasReason(s, tags, learnt, k, cnt);
  }

  lemma ArenaEntailed(s: State)
    requires s.ArenaOk()
    ensures forall h :: h in s.arena ==> Entails(s.f, LitSet(s.arena[h]))
  {
    hide Entails;
    forall h | h in s.arena ensures Entails(s.f, LitSet(s.arena[h])) { assert s.ClauseOk(s.arena[h]); }
  }

  lemma BinaryResolved(s: State, tags: seq<nat>, learnt: seq<Lit>, ind: nat, was: set<Lit>, p: Lit, q: Lit)
    requires s.Inv() && s.lims != [] && ind < |s.trail| && learnt != []
    requires Entails(s.f, was + {p.Not()}) && Entails(s.f, {p, q.Not()}) && q in s.trail
    requires was <= Resolvent(s, tags, learnt, ind) && Accounted(s, tags, learnt, ind, q.Not())
    ensures Entails(s.f, Resolvent(s, tags, learnt, ind))
  {
    hide State.Inv, Accounted, Resolvent, Entails;
    assert q.Not().Not() == q;
    ResolveOn(s, was, p, {p, q.Not()}, tags, learnt, ind);
  }

  lemma ClauseResolved(s: State, tags: seq<nat>, learnt: seq<Lit>, ind: nat, was: set<Lit>, p: Lit, h: nat)
    requires s.Inv() && s.lims != [] && ind < |s.trail| && learnt != []
    requires Entails(s.f, was + {p.Not()}) && h in s.arena && |s.arena[h]| >= 1 && s.arena[h][0] == p
    requires Entails(s.f, LitSet(s.arena[h])) && was <= Resolvent(s, tags, learnt, ind)
    requires forall j :: 1 <= j < |s.arena[h]| ==>
      s.arena[h][j].Not() in s.trail && Accounted(s, tags, learnt, ind, s.arena[h][j])
    ensures Entails(s.f, Resolvent(s, tags, learnt, ind))
  {
    hide State.Inv, Accounted, Resolvent, Entails;
    forall l | l in LitSet(s.arena[h]) && l != p ensures l.Not() in s.trail && Accounted(s, tags, learnt, ind, l) {
      var j :| 0 <= j < |s.arena[h]| && s.arena[h][j] == l;
    }
    ResolveOn(s, was, p, LitSet(s.arena[h]), tags, learnt, ind);
  }

  // ---- The search for removable literals ----

  // Variable v is assigned by one of the first m trail literals.
  ghost predicate AssignedBelow(s: State, v: nat, m: nat) {
    m <= |s.trail| && v < |s.levels| && exists k :: 0 <= k < m && s.trail[k].v == v
  }

  lemma TagStep(s: State, tags: seq<nat>, except: set<nat>, v: nat, m: nat)
    requires ClosedBut(s, tags, except, m) && v < |tags|
    ensures ClosedBut(s, tags[v := 1], except + {v}, m)
  {
    hide Entails;
    var tags' := tags[v := 1];
    forall k | 0 <= k < m && s.trail[k].v < |tags| && tags'[s.trail[k].v] != 0
      ensures s.trail[k].v in except + {v} || ReasonKnown(s, tags', s.trail[k].v)
    {
      if s.trail[k].v != v && s.trail[k].v !in except {
        assert ReasonKnown(s, tags, s.trail[k].v);
        ReasonKnownMore(s, tags, tags', s.trail[k].v);
      }
    }
  }

  lemma ReasonKnownMore(s: State, tags: seq<nat>, tags': seq<nat>, v: nat)
    requires v < |s.reasons| && |tags'| == |tags| && ReasonKnown(s, tags, v)
    requires forall u :: 0 <= u < |tags| && tags[u] != 0 ==> tags'[u] != 0
    ensures ReasonKnown(s, tags', v)
  {
  }

  lemma CloseStep(s: State, tags: seq<nat>, except: set<nat>, v: nat, m: nat)
    requires ClosedBut(s, tags, except + {v}, m) && v < |s.reasons| && ReasonKnown(s, tags, v)
    ensures ClosedBut(s, tags, except, m)
  {
  }

  // The other literals of the reason of v are assigned before v.
  lemma ReasonVars(s: State, v: nat, m: nat)
    requires s.TrailOk() && s.ReasonsOk() && AssignedBelow(s, v, m) && !s.reasons[v].NoReason?
    ensures match s.reasons[v]
      case NoReason => true
      case BinReason(q) => AssignedBelow(s, q.v, m)
      case ClauseReason(h) => h in s.arena && |s.arena[h]| >= 2 && forall i :: 1 <= i < |s.arena[h]| ==>
          AssignedBelow(s, s.arena[h][i].v, m)
  {
    hide Entails, State.TrailOk;
    var k :| 0 <= k < m && s.trail[k].v == v;
    assert s.ReasonAt(k);
    match s.reasons[v]
    case NoReason =>
    case BinReason(q) =>
      assert q in s.trail[..k];
      var j :| 0 <= j < k && s.trail[..k][j] == q;
      assert s.trail[j].v == q.v;
    case ClauseReason(h) =>
      forall i | 1 <= i < |s.arena[h]| ensures AssignedBelow(s, s.arena[h][i].v, m) {
        assert s.arena[h][i].Not() in s.trail[..k];
        var j :| 0 <= j < k && s.trail[..k][j] == s.arena[h][i].Not();
        assert s.trail[j].v == s.arena[h][i].v;
      }
  }

  // The depth-first search: all that is tagged is closed but for the stack.
  ghost predicate Searching(s: State, tags: seq<nat>, except: set<nat>, stack: seq<nat>, m: nat) {
    && |s.reasons| == |s.levels| == |tags|
    && ClosedBut(s, tags, except + Members(stack), m)
    && forall v :: v in stack ==> AssignedBelow(s, v, m) && tags[v] != 0 && !s.reasons[v].NoReason?
  }

  lemma SearchPush(s: State, tags: seq<nat>, except: set<nat>, stack: seq<nat>, m: nat, u: nat)
    requires Searching(s, tags, except, stack, m) && AssignedBelow(s, u, m) && !s.reasons[u].NoReason?
    ensures Searching(s, tags[u := 1], except, stack + [u], m)
  {
    TagStep(s, tags, except + Members(stack), u, m);
    assert Members(stack + [u]) == Members(stack) + {u};
    assert except + Members(stack) + {u} == except + Members(stack + [u]);
  }

  lemma SearchPop(s: State, tags: seq<nat>, except: set<nat>, stack: seq<nat>, m: nat)
    requires Searching(s, tags, except, stack, m) && stack != []
    ensures Searching(s, tags, except + {stack[|stack| - 1]}, stack[..|stack| - 1], m)
    ensures var v := stack[|stack| - 1]; AssignedBelow(s, v, m) && v < |s.reasons| && !s.reasons[v].NoReason?
  {
    var v := stack[|stack| - 1];
    var r := stack[..|stack| - 1];
    assert v in stack && stack == r + [v];
    assert Members(stack) == Members(r) + {v};
    assert except + Members(stack) == except + {v} + Members(r);
  }

  lemma SearchDone(s: State, tags: seq<nat>, except: set<nat>, stack: seq<nat>, m: nat, v: nat)
    requires Searching(s, tags, except + {v}, stack, m) && v < |s.reasons| && ReasonKnown(s, tags, v)
    ensures Searching(s, tags, except, stack, m)
  {
    assert except + {v} + Members(stack) == except + Members(stack) + {v};
    CloseStep(s, tags, except + Members(stack), v, m);
  }

  // Tags have only been added, to the variables listed from position |tagged0| on.
  ghost predicate TagsGrown(tags0: seq<nat>, tagged0: seq<nat>, tags: seq<nat>, tagged: seq<nat>) {
    && |tags| == |tags0| && TaggedOk(tags0, tagged0) && TaggedOk(tags, tagged) && tagged0 <= tagged
    && forall v :: 0 <= v < |tags| && v !in tagged[|tagged0|..] ==> tags[v] == tags0[v]
  }

  lemma TagsGrownTransitive(tags0: seq<nat>, tagged0: seq<nat>, tags1: seq<nat>, tagged1: seq<nat>, tags: seq<nat>,
                            tagged: seq<nat>)
    requires TagsGrown(tags0, tagged0, tags1, tagged1) && TagsGrown(tags1, tagged1, tags, tagged)
    ensures TagsGrown(tags0, tagged0, tags, tagged)
  {
    assert tagged[|tagged0|..] == tagged1[|tagged0|..] + tagged[|tagged1|..];
  }

  lemma TagsGrownOne(tags: seq<nat>, tagged: seq<nat>, v: nat)
    requires TaggedOk(tags, tagged) && v < |tags| && tags[v] == 0
    ensures TagsGrown(tags, tagged, tags[v := 1], tagged + [v])
  {
    TagOne(tags, tagged, v);
    assert (tagged + [v])[|tagged|..] == [v];
  }

  // What was tagged stays tagged.
  lemma TagsKept(tags0: seq<nat>, tagged0: seq<nat>, tags: seq<nat>, tagged: seq<nat>)
    requires TagsGrown(tags0, tagged0, tags, tagged)
    ensures forall v :: 0 <= v < |tags| && tags0[v] != 0 ==> tags[v] != 0
  {
    forall v | 0 <= v < |tags| && tags0[v] != 0 ensures tags[v] != 0 {
      assert v in tagged0;
      var i :| 0 <= i < |tagged0| && tagged0[i] == v;
      assert tagged[i] == v;
    }
  }

  // Clearing the added tags restores the old ones.
  lemma TagsRestored(tags0: seq<nat>, tagged0: seq<nat>, tags: seq<nat>, tagged: seq<nat>)
    requires TagsGrown(tags0, tagged0, tags, tagged)
    ensures forall v :: 0 <= v < |tags| ==> (if v in tagged[|tagged0|..] then 0 else tags[v]) == tags0[v]
    ensures tagged[..|tagged0|] == tagged0
  {
    forall v | 0 <= v < |tags| && v in tagged[|tagged0|..] ensures tags0[v] == 0 {
      var i :| 0 <= i < |tagged| - |tagged0| && tagged[|tagged0|..][i] == v;
      assert tagged[|tagged0| + i] == v;
      forall j | 0 <= j < |tagged0| ensures tagged0[j] != v { assert tagged[j] == tagged0[j]; }
    }
  }

  lemma TaggedFits(tags: seq<nat>, tagged: seq<nat>)
    requires TaggedOk(tags, tagged)
    ensures |tagged| <= |tags|
  {
    DistinctBelow(tagged, |tags|);
  }

  lemma AntecedentsBelow(s: State, v: nat, m: nat)
    requires s.Inv() && AssignedBelow(s, v, m) && !s.reasons[v].NoReason?
    ensures match s.reasons[v]
      case NoReason => true
      case BinReason(q) => AssignedBelow(s, q.v, m)
      case ClauseReason(h) => h in s.arena && |s.arena[h]| >= 2 && forall i :: 1 <= i < |s.arena[h]| ==>
          AssignedBelow(s, s.arena[h][i].v, m)
  {
    hide Entails, State.LimsOk, State.LevelsOk, State.ArenaOk, State.WatchesOk, State.Covered, AssignedBelow;
    ReasonVars(s, v, m);
  }

  lemma NoTagsGrown(tags: seq<nat>, tagged: seq<nat>)
    requires TaggedOk(tags, tagged)
    ensures TagsGrown(tags, tagged, tags, tagged)
  {
  }

  lemma TagsGrownOk(tags0: seq<nat>, tagged0: seq<nat>, tags: seq<nat>, tagged: seq<nat>)
    requires TagsGrown(tags0, tagged0, tags, tagged)
    ensures TaggedOk(tags, tagged) && |tags| == |tags0| && |tagged0| <= |tagged|
  {
  }

  lemma KnownMore(s: State, tags0: seq<nat>, tagged0: seq<nat>, tags: seq<nat>, tagged: seq<nat>, v: nat)
    requires TagsGrown(tags0, tagged0, tags, tagged) && Known(s, tags0, v)
    ensures Known(s, tags, v)
  {
    TagsKept(tags0, tagged0, tags, tagged);
  }

  lemma AntecedentsKnown(s: State, tags: seq<nat>, v: nat)
    requires v < |s.reasons|
    requires match s.reasons[v]
      case NoReason => false
      case BinReason(q) => Known(s, tags, q.v)
      case ClauseReason(h) => h in s.arena && forall i :: 1 <= i < |s.arena[h]| ==> Known(s, tags, s.arena[h][i].v)
    ensures ReasonKnown(s, tags, v)
  {
  }

  lemma SearchBounds(s: State, tags: seq<nat>, except: set<nat>, stack: seq<nat>, m: nat, u: nat)
    requires Searching(s, tags, except, stack, m) && AssignedBelow(s, u, m)
    ensures |s.reasons| == |s.levels| == |tags| && u < |tags|
  {
  }

  lemma ClearedOk(tags: seq<nat>, tagged: seq<nat>, start: nat, tags': seq<nat>)
    requires TaggedOk(tags, tagged) && start <= |tagged| && |tags'| == |tags|
    requires forall v :: 0 <= v < |tags| ==> tags'[v] == if v in tagged[start..] then 0 else tags[v]
    ensures TaggedOk(tags', tagged[..start])
  {
    forall v | 0 <= v < |tags| ensures tags'[v] != 0 <==> v in tagged[..start] {
      assert tagged == tagged[..start] + tagged[start..];
      if v in tagged[..start] {
        var i :| 0 <= i < start && tagged[i] == v;
        forall j | start <= j < |tagged| ensures tagged[j] != v { }
      }
    }
  }

  lemma SearchInit(s: State, tags: seq<nat>, except: set<nat>, x: nat, m: nat)
    requires s.Inv() && |tags| == s.n && ClosedBut(s, tags, except + {x}, m) && AssignedBelow(s, x, m)
    requires tags[x] != 0 && !s.reasons[x].NoReason?
    ensures Searching(s, tags, except, [x], m)
  {
    hide Entails, State.LevelsOk, State.ReasonsOk, State.ArenaOk, State.WatchesOk, State.Covered;
    assert Members([x]) == {x};
  }

  lemma SearchEnd(s: State, tags: seq<nat>, except: set<nat>, m: nat)
    requires Searching(s, tags, except, [], m)
    ensures ClosedBut(s, tags, except, m)
  {
    assert except + Members([]) == except;
  }

  // ---- Minimising the learnt clause ----

  // Literals 1 to j of learnt are kept, those of all from i on are still to be examined.
  ghost predicate Minimizing(s: State, tags: seq<nat>, all: seq<Lit>, learnt: seq<Lit>, i: nat, j: nat) {
    && s.lims != [] && 1 <= j <= i <= |all| == |learnt| && |tags| == |s.levels| == |s.reasons|
    && learnt[0] == all[0] && learnt[i..] == all[i..]
    && (forall x :: 1 <= x < |all| ==> FalseBelow(s, all[x]) && tags[all[x].v] != 0)
    && (forall x :: 1 <= x < j ==> learnt[x] in all[1..i])
    && DistinctVars(all) && DistinctVars(learnt[..j])
    && ClosedBut(s, tags, VarSet(learnt[1..j]) + VarSet(all[i..]), Top(s))
  }

  lemma MinimizingStart(s: State, tags: seq<nat>, all: seq<Lit>)
    requires s.Inv() && Resolved(s, tags, all)
    ensures Minimizing(s, tags, all, all, 1, 1)
  {
    hide Entails, State.LimsOk, State.LevelsOk, State.ReasonsOk, State.ArenaOk, State.WatchesOk, State.Covered,
      ClosedBut, FalseBelow;
    assert VarSet(all[1..1]) + VarSet(all[1..]) == VarSet(all[1..]);
  }

  // What examining literal i needs.
  lemma MinimizingNext(s: State, tags: seq<nat>, all: seq<Lit>, learnt: seq<Lit>, i: nat, j: nat)
    requires Minimizing(s, tags, all, learnt, i, j) && i < |all|
    ensures learnt[i] == all[i] && all[i].v < |tags| && tags[all[i].v] != 0 && AssignedBelow(s, all[i].v, Top(s))
    ensures ClosedBut(s, tags, VarSet(learnt[1..j]) + VarSet(all[i + 1..]) + {all[i].v}, Top(s))
  {
    hide Entails, ClosedBut;
    assert learnt[i] == learnt[i..][0];
    assert FalseBelow(s, all[i]);
    var k :| 0 <= k < Top(s) && s.trail[..Top(s)][k] == all[i].Not();
    assert s.trail[k].v == all[i].v;
    VarSetHead(all, i);
    assert VarSet(learnt[1..j]) + VarSet(all[i + 1..]) + {all[i].v} == VarSet(learnt[1..j]) + VarSet(all[i..]);
  }

  lemma VarSetHead(all: seq<Lit>, i: nat)
    requires i < |all|
    ensures VarSet(all[i..]) == {all[i].v} + VarSet(all[i + 1..])
  {
    assert all[i..][0] == all[i];
    forall v | v in VarSet(all[i..]) ensures v in {all[i].v} + VarSet(all[i + 1..]) {
      var x :| 0 <= x < |all| - i && all[i..][x].v == v;
      if x > 0 { assert all[i + 1..][x - 1].v == v; }
    }
    forall v | v in VarSet(all[i + 1..]) ensures v in VarSet(all[i..]) {
      var x :| 0 <= x < |all| - i - 1 && all[i + 1..][x].v == v;
      assert all[i..][x + 1].v == v;
    }
  }

  lemma VarSetSnoc(c: seq<Lit>, l: Lit)
    ensures VarSet(c + [l]) == VarSet(c) + {l.v}
  {
    forall v | v in VarSet(c) ensures v in VarSet(c + [l]) {
      var x :| 0 <= x < |c| && c[x].v == v;
      assert (c + [l])[x].v == v;
    }
    assert (c + [l])[|c|] == l;
  }

  lemma MinimizingKeep(s: State, tags: seq<nat>, all: seq<Lit>, learnt: seq<Lit>, i: nat, j: nat)
    requires Minimizing(s, tags, all, learnt, i, j) && i < |all|
    ensures Minimizing(s, tags, all, learnt[j := learnt[i]], i + 1, j + 1)
  {
    hide Entails, ClosedBut, FalseBelow;
    MinimizingNext(s, tags, all, learnt, i, j);
    var r := learnt[j := learnt[i]];
    assert r[i + 1..] == all[i + 1..] by { assert r[i + 1..] == learnt[i..][1..]; }
    assert r[1..j + 1] == learnt[1..j] + [all[i]];
    VarSetSnoc(learnt[1..j], all[i]);
    VarSetHead(all, i);
    assert VarSet(r[1..j + 1]) + VarSet(all[i + 1..]) == VarSet(learnt[1..j]) + VarSet(all[i + 1..]) + {all[i].v};
    KeptIn(all, learnt, r, i, j);
  }

  lemma KeptIn(all: seq<Lit>, learnt: seq<Lit>, r: seq<Lit>, i: nat, j: nat)
    requires 1 <= j <= i < |all| == |learnt| && r == learnt[j := all[i]] && learnt[0] == all[0]
    requires DistinctVars(all) && DistinctVars(learnt[..j])
    requires forall x :: 1 <= x < j ==> learnt[x] in all[1..i]
    ensures forall x :: 1 <= x < j + 1 ==> r[x] in all[1..i + 1]
    ensures DistinctVars(r[..j + 1])
  {
    assert all[1..i + 1] == all[1..i] + [all[i]];
    forall x, y | 0 <= x < y < j + 1 ensures r[x].v != r[y].v {
      if y == j {
        if x > 0 {
          var z :| 0 <= z < i - 1 && all[1..i][z] == learnt[x];
          assert all[z + 1] == learnt[x];
        }
      } else {
        assert learnt[..j][x].v != learnt[..j][y].v;
      }
    }
  }

  lemma MinimizingDrop(s: State, tags: seq<nat>, tags': seq<nat>, all: seq<Lit>, learnt: seq<Lit>, i: nat, j: nat)
    requires Minimizing(s, tags, all, learnt, i, j) && i < |all| && |tags'| == |tags|
    requires forall v :: 0 <= v < |tags| && tags[v] != 0 ==> tags'[v] != 0
    requires ClosedBut(s, tags', VarSet(learnt[1..j]) + VarSet(all[i + 1..]), Top(s))
    ensures Minimizing(s, tags', all, learnt, i + 1, j)
  {
    hide Entails, ClosedBut;
    assert learnt[i + 1..] == learnt[i..][1..];
    assert all[1..i + 1] == all[1..i] + [all[i]];
  }

  // All literals examined: the kept clause is entailed.
  lemma MinimizingEnd(s: State, tags: seq<nat>, all: seq<Lit>, learnt: seq<Lit>, j: nat)
    requires s.Inv() && Minimizing(s, tags, all, learnt, |all|, j) && Entails(s.f, LitSet(all))
    requires exists k :: Top(s) <= k < |s.trail| && s.trail[k] == all[0].Not()
    ensures var c := learnt[..j];
      && |c| >= 1 && DistinctVars(c) && Entails(s.f, LitSet(c)) && c[0] == all[0]
      && (exists k :: Top(s) <= k < |s.trail| && s.trail[k] == c[0].Not())
      && (forall i :: 1 <= i < |c| ==> FalseBelow(s, c[i]))
  {
    hide Entails, ClosedBut, State.LimsOk, State.ArenaOk, State.WatchesOk, State.Covered, State.LevelsOk,
      State.ReasonsOk;
    ArenaEntailed(s);
    var c := learnt[..j];
    var first := {all[0]};
    TrailDistinct(s);
    assert c[1..] == learnt[1..j];
    assert VarSet(learnt[1..j]) + VarSet(all[|all|..]) == VarSet(c[1..]);
    forall i | 0 <= i < |all[1..]| ensures all[1..][i].Not() in s.trail[..Top(s)] && Known(s, tags, all[1..][i].v) {
      assert FalseBelow(s, all[i + 1]);
    }
    forall i | 1 <= i < |c| ensures FalseBelow(s, c[i]) && c[i].Not() in s.trail { KeptFalse(s, all, learnt, i); }
    assert LitSet(all) == first + LitSet(all[1..]) by { assert all == [all[0]] + all[1..]; }
    assert LitSet(c) == first + LitSet(c[1..]) by { assert c == [c[0]] + c[1..]; }
    hide FalseBelow, Known;
    forall i | 0 <= i < |c[1..]| ensures c[1..][i].Not() in s.trail { assert c[1..][i] == c[i + 1]; }
    DropRedundant(s, tags, first, all[1..], c[1..], Top(s));
  }

  lemma KeptFalse(s: State, all: seq<Lit>, learnt: seq<Lit>, i: nat)
    requires 1 <= i < |learnt| == |all| && learnt[i] in all[1..]
    requires forall x :: 1 <= x < |all| ==> FalseBelow(s, all[x])
    ensures FalseBelow(s, learnt[i]) && learnt[i].Not() in s.trail
  {
    var x :| 0 <= x < |all| - 1 && all[1..][x] == learnt[i];
    assert FalseBelow(s, all[x + 1]);
    var k :| 0 <= k < Top(s) && s.trail[..Top(s)][k] == learnt[i].Not();
    assert s.trail[k] == learnt[i].Not();
  }

  lemma ResolvedFacts(s: State, tags: seq<nat>, c: seq<Lit>)
    requires s.Inv() && Resolved(s, tags, c)
    ensures Entails(s.f, LitSet(c)) && |c| >= 1 && |tags| == |s.levels| == |s.reasons|
    ensures s.lims != [] && exists k :: Top(s) <= k < |s.trail| && s.trail[k] == c[0].Not()
    ensures forall i :: 1 <= i < |c| ==> c[i].v < |s.levels|
  {
    hide Entails, ClosedBut, State.LimsOk, State.LevelsOk, State.ReasonsOk, State.ArenaOk, State.WatchesOk,
      State.Covered;
  }

  lemma AllCleared(tags: seq<nat>, tagged: seq<nat>)
    requires TaggedOk(tags, tagged) && tagged == []
    ensures forall v :: 0 <= v < |tags| ==> tags[v] == 0
  {
  }
}
