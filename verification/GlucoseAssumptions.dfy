// Minimising assumptions by divide and conquer over an exact oracle: which prefixes of the
// array refute the clauses.
module GlucoseAssumptions {
  import opened Cnf
  import opened SatMinimize

  // The solver's verdicts: whether the clauses have no model under these assumptions.
  type Oracle = seq<Lit> -> bool

  ghost predicate Exact(oracle: Oracle, f: set<Clause>) {
    forall q: seq<Lit> :: oracle(q) <==> Refuted(f, LitSet(q))
  }

  lemma PrefixVerdict(oracle: Oracle, f: set<Clause>, q: seq<Lit>, lo: nat, mid: nat)
    requires Exact(oracle, f) && lo <= mid <= |q|
    ensures oracle(q[..mid]) <==> Refutes(f, Part(q, 0, lo), Part(q, lo, mid))
    ensures q[..mid] == Part(q, 0, mid) == Part(q, 0, lo) + Part(q, lo, mid)
    ensures oracle(q[..mid]) <==> Refuted(f, LitSet(Part(q, 0, mid)))
  {
    assert q[..mid] == q[..lo] + q[lo..mid];
  }

  // What lies before the reordered part is the same.
  lemma SamePrefix(q: seq<Lit>, r: seq<Lit>, lo: nat, mid: nat, end: nat)
    requires Reordered(q, r, mid, end) && lo <= mid
    ensures Part(r, 0, lo) == Part(q, 0, lo) && Part(r, lo, mid) == Part(q, lo, mid)
  {
    assert r[..lo] == r[..mid][..lo] && q[..lo] == q[..mid][..lo];
    assert r[lo..mid] == r[..mid][lo..] && q[lo..mid] == q[..mid][lo..];
  }

  // bmcg_sat_solver_minimize_assumptions: the first pivot literals stay, and of the others the
  // first ret are needed and are enough.
  method MinimizeAssumptions(oracle: Oracle, p: array<Lit>, nlits: nat, pivot: nat, ghost f: set<Clause>)
    returns (ret: nat)
    requires Exact(oracle, f) && pivot < nlits <= p.Length
    requires Refutes(f, Part(p[..], 0, pivot), Part(p[..], pivot, nlits))
    modifies p
    ensures ret <= nlits - pivot && Reordered(old(p[..]), p[..], pivot, nlits)
    ensures Irredundant(f, Part(p[..], 0, pivot), Part(p[..], pivot, pivot + ret))
    decreases nlits - pivot, 1, 0
  {
    hide Refuted, LitSet, Irredundant, Reordered, Refutes, Part, Exact;
    ghost var q := p[..];
    ReorderedSelf(q, pivot, nlits);
    if nlits - pivot == 1 {
      PrefixVerdict(oracle, f, q, pivot, pivot);
      if oracle(p[..pivot]) {
        NoLiteral(f, Part(q, 0, pivot), q, pivot);
        return 0;
      }
      OneLiteral(f, Part(q, 0, pivot), q, pivot);
      return 1;
    }
    var nL := (nlits - pivot) / 2;
    PrefixVerdict(oracle, f, q, pivot, pivot + nL);
    if oracle(p[..pivot + nL]) {
      ret := MinimizeAssumptions(oracle, p, pivot + nL, pivot, f);
      ReorderedWiden(q, p[..], pivot, pivot + nL, pivot, nlits);
    } else {
      ret := BothHalves(oracle, p, nlits, pivot, nL, f);
    }
  }

  // The left half is not enough.
  method BothHalves(oracle: Oracle, p: array<Lit>, nlits: nat, pivot: nat, nL: nat, ghost f: set<Clause>)
    returns (ret: nat)
    requires Exact(oracle, f) && 1 <= nL && pivot + nL < nlits <= p.Length
    requires Refutes(f, Part(p[..], 0, pivot), Part(p[..], pivot, nlits))
    requires !Refuted(f, LitSet(Part(p[..], 0, pivot + nL)))
    modifies p
    ensures ret <= nlits - pivot && Reordered(old(p[..]), p[..], pivot, nlits)
    ensures Irredundant(f, Part(p[..], 0, pivot), Part(p[..], pivot, pivot + ret))
    decreases nlits - pivot, 0, 1
  {
    hide Refuted, LitSet, Irredundant, Reordered, Refutes, Part, Exact;
    ghost var q := p[..];
    var k := RightFirst(oracle, p, nlits, pivot, nL, f);
    ghost var r := p[..];
    ret := LeftThen(oracle, p, nlits, pivot, nL, k, f);
    ReorderedWiden(r, p[..], pivot, pivot + k + nL, pivot, nlits);
    ReorderedTwice(q, r, p[..], pivot, nlits);
  }

  // Without the side there is a model: one literal is needed, more of them are minimised.
  method MinimizeSide(oracle: Oracle, p: array<Lit>, at: nat, end: nat, ghost f: set<Clause>) returns (m: nat)
    requires Exact(oracle, f) && at < end <= p.Length
    requires Refutes(f, Part(p[..], 0, at), Part(p[..], at, end)) && !Refuted(f, LitSet(Part(p[..], 0, at)))
    modifies p
    ensures m <= end - at && Reordered(old(p[..]), p[..], at, end)
    ensures Irredundant(f, Part(p[..], 0, at), Part(p[..], at, at + m))
    decreases end - at, 2, 0
  {
    hide Refuted, LitSet, Irredundant, Reordered, Refutes, Part, Exact;
    if end - at == 1 {
      OneLiteral(f, Part(p[..], 0, at), p[..], at);
      ReorderedSelf(p[..], at, end);
      m := 1;
    } else {
      m := MinimizeAssumptions(oracle, p, end, at, f);
    }
  }

  // Minimise the right part under the left one and move what is left of it to the front.
  method RightFirst(oracle: Oracle, p: array<Lit>, nlits: nat, pivot: nat, nL: nat, ghost f: set<Clause>)
    returns (k: nat)
    requires Exact(oracle, f) && 1 <= nL && pivot + nL < nlits <= p.Length
    requires Refutes(f, Part(p[..], 0, pivot), Part(p[..], pivot, nlits))
    requires !Refuted(f, LitSet(Part(p[..], 0, pivot + nL)))
    modifies p
    ensures pivot + nL + k <= nlits && Reordered(old(p[..]), p[..], pivot, nlits)
    ensures Irredundant(f, Part(p[..], 0, pivot) + Part(p[..], pivot + k, pivot + k + nL),
      Part(p[..], pivot, pivot + k))
    decreases nlits - pivot, 0, 0
  {
    hide Refuted, LitSet, Irredundant, Reordered, Refutes, Part, Exact, Fronted;
    ghost var q, base := p[..], Part(p[..], 0, pivot);
    var mid := pivot + nL;
    RefutesRest(f, base, q, pivot, mid, nlits);
    PartJoin(q, 0, pivot, mid);
    k := MinimizeSide(oracle, p, mid, nlits, f);
    ghost var r := p[..];
    SamePrefix(q, r, pivot, mid, nlits);
    SamePrefix(q, r, mid, mid, nlits);
    MoveToFront(p, pivot, mid, k);
    FrontedFacts(q, r, pivot, mid, k, nlits);
    SamePrefix(q, p[..], pivot, pivot, nlits);
  }

  lemma FrontedFacts(q: seq<Lit>, r: seq<Lit>, lo: nat, mid: nat, k: nat, end: nat)
    requires lo <= mid && mid + k <= end <= |q| == |r| && Reordered(q, r, mid, end)
    ensures var t := Fronted(r, lo, mid, k);
      && |t| == |q| && Reordered(q, t, lo, end)
      && Part(t, lo, lo + k) == Part(r, mid, mid + k) && Part(t, lo + k, mid + k) == Part(q, lo, mid)
  {
    hide Reordered, Fronted, Part;
    ReorderedLength(q, r, mid, end);
    var t := Fronted(r, lo, mid, k);
    ReorderedWiden(q, r, mid, end, lo, end);
    ReorderedLeft(q, r, lo, mid, end);
    FrontedReordered(r, lo, mid, k);
    ReorderedWiden(r, t, lo, mid + k, lo, end);
    ReorderedTwice(q, r, t, lo, end);
    ReorderedLength(q, t, lo, end);
  }

  // The oracle says that what is left of the right part is enough, which then is needed as well.
  lemma RightEnough(oracle: Oracle, f: set<Clause>, q: seq<Lit>, pivot: nat, at: nat, end: nat)
    requires Exact(oracle, f) && pivot <= at <= end <= |q| && oracle(q[..at])
    requires Irredundant(f, Part(q, 0, pivot) + Part(q, at, end), Part(q, pivot, at))
    ensures Irredundant(f, Part(q, 0, pivot), Part(q, pivot, at))
  {
    hide Refuted, LitSet, Irredundant, Part, Exact;
    PrefixVerdict(oracle, f, q, pivot, at);
    FewerAssumptions(f, Part(q, 0, pivot), Part(q, at, end), Part(q, pivot, at));
  }

  // The left part refutes under what is left of the right one.
  lemma LeftRefutes(f: set<Clause>, q: seq<Lit>, pivot: nat, at: nat, end: nat)
    requires pivot <= at <= end <= |q|
    requires Irredundant(f, Part(q, 0, pivot) + Part(q, at, end), Part(q, pivot, at))
    ensures Refutes(f, Part(q, 0, at), Part(q, at, end))
  {
    hide Refuted, LitSet, Irredundant, Part, Refutes;
    IrredundantRefutes(f, Part(q, 0, pivot) + Part(q, at, end), Part(q, pivot, at));
    SwapParts(f, Part(q, 0, pivot), Part(q, at, end), Part(q, pivot, at));
    PartJoin(q, 0, pivot, at);
  }

  lemma NotYet(oracle: Oracle, f: set<Clause>, q: seq<Lit>, at: nat)
    requires Exact(oracle, f) && at <= |q|
    ensures oracle(q[..at]) <==> Refuted(f, LitSet(Part(q, 0, at)))
  {
    PrefixVerdict(oracle, f, q, 0, at);
  }

  // What is left of the right part is in front of the left one: see whether it is enough, and
  // minimise the left part under it if it is not.
  method LeftThen(oracle: Oracle, p: array<Lit>, nlits: nat, pivot: nat, nL: nat, k: nat, ghost f: set<Clause>)
    returns (ret: nat)
    requires Exact(oracle, f) && 1 <= nL && pivot + k + nL <= nlits <= p.Length && nL < nlits - pivot
    requires Irredundant(f, Part(p[..], 0, pivot) + Part(p[..], pivot + k, pivot + k + nL),
      Part(p[..], pivot, pivot + k))
    modifies p
    ensures ret <= k + nL && Reordered(old(p[..]), p[..], pivot, pivot + k + nL)
    ensures Irredundant(f, Part(p[..], 0, pivot), Part(p[..], pivot, pivot + ret))
    decreases nlits - pivot, 0, 0
  {
    hide Refuted, LitSet, Irredundant, Reordered, Refutes, Part, Exact;
    ghost var q := p[..];
    var at := pivot + k;
    var end := at + nL;
    NotYet(oracle, f, q, at);
    if oracle(p[..at]) {
      RightEnough(oracle, f, q, pivot, at, end);
      ReorderedSelf(q, pivot, end);
      return k;
    }
    LeftRefutes(f, q, pivot, at, end);
    var m := MinimizeSide(oracle, p, at, end, f);
    ret := k + m;
    JoinParts(f, q, p[..], pivot, at, m, end);
  }

  // The left part has been minimised under the right one.
  lemma JoinParts(f: set<Clause>, q: seq<Lit>, t: seq<Lit>, pivot: nat, at: nat, m: nat, end: nat)
    requires pivot <= at && at + m <= end <= |q| == |t| && Reordered(q, t, at, end)
    requires Irredundant(f, Part(q, 0, pivot) + Part(q, at, end), Part(q, pivot, at))
    requires Irredundant(f, Part(t, 0, at), Part(t, at, at + m))
    ensures Reordered(q, t, pivot, end) && Irredundant(f, Part(t, 0, pivot), Part(t, pivot, at + m))
  {
    hide Irredundant, Reordered, Part;
    SamePrefix(q, t, pivot, at, end);
    PartJoin(t, 0, pivot, at);
    PartJoin(t, pivot, at, at + m);
    ReorderedMembers(q, t, at, end, at + m);
    ReorderedWiden(q, t, at, end, pivot, end);
    Join(f, Part(q, 0, pivot), Part(q, at, end), Part(q, pivot, at), Part(t, at, at + m));
  }
}
