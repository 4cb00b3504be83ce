// The tree of the search: which states its nodes are in, that these are all different, and how
// many there can be.
module CubTree {
  import opened CubGraph
  import opened CubState
  import opened CubSteps

  // Sibling nodes, the last one tried first, each with the nodes below it.
  datatype Forest = None | Tree(before: Forest, at: Node, below: Forest)

  ghost function Size(f: Forest): nat {
    if f.None? then 0 else Size(f.before) + 1 + Size(f.below)
  }

  ghost function Visited(f: Forest): set<Node> {
    if f.None? then {} else Visited(f.before) + {f.at} + Visited(f.below)
  }

  // What propagation makes of s: the forced classes are added, and nothing is forced any more.
  ghost predicate Reached(gr: Graph, s: Node, u: Node) {
    Tally(gr, u) && Extends(s, u) && Sound(gr, s, u) && Pending(gr, u, {})
  }

  // b holds what is searched below a node in state s: nothing, or tries at one vertex after propagation.
  ghost predicate Below(gr: Graph, s: Node, b: Forest)
    decreases b, 4
  {
    b == None || exists u, v, i :: i <= 3 && Reached(gr, s, u) && Tries(gr, u, v, i, b)
  }

  // The tries at the first i slots of v: one for each unclassified edge, which is left out.
  ghost predicate Tries(gr: Graph, u: Node, v: nat, i: nat, f: Forest)
    decreases f, i
  {
    && i <= 3 && Tally(gr, u) && v < gr.nv && u.dout[v] == 0
    && if i == 0 then f == None
       else if !OpenSlot(gr, u, v, i - 1) then Tries(gr, u, v, i - 1, f)
       else
         && f.Tree? && f.at == OutNode(u, v, gr.g[v][i - 1], gr.eno[v][i - 1])
         && Tries(gr, u, v, i - 1, f.before) && Below(gr, f.at, f.below)
  }

  ghost predicate OpenSlot(gr: Graph, u: Node, v: nat, i: nat)
    requires gr.Ok() && v < gr.nv && i < 3
  {
    0 <= gr.g[v][i] && OpenEdge(gr, u, v, gr.g[v][i], gr.eno[v][i])
  }

  lemma NothingBelow(gr: Graph, s: Node)
    ensures Below(gr, s, None)
  {
  }

  lemma TriesBelow(gr: Graph, s: Node, u: Node, v: nat, i: nat, b: Forest)
    requires Tally(gr, u) && Extends(s, u) && Sound(gr, s, u) && Pending(gr, u, {}) && i <= 3 && Tries(gr, u, v, i, b)
    ensures Below(gr, s, b)
  {
    hide Tally, Extends, Sound, Pending, Tries;
    assert Reached(gr, s, u);
  }

  lemma NoTries(gr: Graph, u: Node, v: nat)
    requires Tally(gr, u) && v < gr.nv && u.dout[v] == 0
    ensures Tries(gr, u, v, 0, None)
  {
  }

  lemma TryNot(gr: Graph, u: Node, v: nat, i: nat, f: Forest)
    requires Tries(gr, u, v, i, f) && i < 3 && gr.eno[v][i] < |u.cls| && u.cls[gr.eno[v][i]] != Dunno
    ensures Tries(gr, u, v, i + 1, f)
  {
  }

  lemma TryMade(gr: Graph, u: Node, v: nat, i: nat, f: Forest, b: Forest)
    requires Tries(gr, u, v, i, f) && i < 3 && gr.Ok() && OpenSlot(gr, u, v, i)
    requires Below(gr, OutNode(u, v, gr.g[v][i], gr.eno[v][i]), b)
    ensures Tries(gr, u, v, i + 1, Tree(f, OutNode(u, v, gr.g[v][i], gr.eno[v][i]), b))
  {
  }

  // ---- All nodes are different ----

  // No vertex has two edges out.
  ghost predicate Single(gr: Graph, x: Node) {
    Tally(gr, x) && forall w :: 0 <= w < gr.nv ==> x.dout[w] <= 1
  }

  lemma OutSingle(gr: Graph, u: Node, v: nat, w: nat, en: nat)
    requires Tally(gr, u) && Pending(gr, u, {}) && OpenEdge(gr, u, v, w, en)
    ensures Single(gr, OutNode(u, v, w, en)) && Extends(u, OutNode(u, v, w, en))
  {
    TallyOut(gr, u, v, w, en);
    OutAt(gr, u, v, en);
    OutAt(gr, u, w, en);
    forall x | 0 <= x < gr.nv ensures OutNode(u, v, w, en).dout[x] <= 1 { assert !Unsettled(u, x); }
  }

  // A settled vertex with an unclassified edge has no edge out.
  lemma OutAt(gr: Graph, u: Node, v: nat, en: nat)
    requires Tally(gr, u) && Pending(gr, u, {}) && v < gr.nv && en < gr.ne && u.cls[en] == Dunno
    requires gr.v1[en] == v || gr.v2[en] == v
    ensures u.dout[v] == 0
  {
    assert TallyAt(gr, u, v) && !Unsettled(u, v);
    SlotEdge(gr, v, 0);
    SlotEdge(gr, v, 1);
    SlotEdge(gr, v, 2);
    var i := EdgeSlot(gr, en, v);
  }

  // Two slots of one vertex are not both out.
  lemma OneSlotOut(gr: Graph, x: Node, v: nat, i: nat, k: nat)
    requires Single(gr, x) && v < gr.nv && i < k < 3
    ensures gr.eno[v][i] <= gr.ne && gr.eno[v][k] <= gr.ne
    ensures !(x.cls[gr.eno[v][i]] == No && x.cls[gr.eno[v][k]] == No)
  {
    assert TallyAt(gr, x, v);
    SlotEdge(gr, v, 0);
    SlotEdge(gr, v, 1);
    SlotEdge(gr, v, 2);
  }

  // The nodes below s extend s and have fewer unclassified edges.
  ghost predicate Deeper(gr: Graph, s: Node, x: Node) {
    && Single(gr, x) && Extends(s, x) && |s.cls| == gr.ne + 1
    && |OpenEdges(gr, x)| < |OpenEdges(gr, s)|
  }

  lemma {:induction false} BelowDeeper(gr: Graph, s: Node, b: Forest, x: Node)
    requires Below(gr, s, b) && |s.cls| == gr.ne + 1 && x in Visited(b)
    ensures Deeper(gr, s, x)
    decreases b, 4
  {
    hide Single, Tally, Extends, Sound, OpenEdges, Pending;
    var u, v, i :| i <= 3 && Reached(gr, s, u) && Tries(gr, u, v, i, b);
    var k := TriesDeeper(gr, u, v, i, b, x);
    ExtendsTwice(s, u, x);
    NoMoreOpen(gr, s, u);
  }

  // A node among the tries leaves out the edge of one slot.
  lemma {:induction false} TriesDeeper(gr: Graph, u: Node, v: nat, i: nat, f: Forest, x: Node) returns (k: nat)
    requires Tries(gr, u, v, i, f) && Pending(gr, u, {}) && x in Visited(f)
    ensures Deeper(gr, u, x) && k < i && gr.eno[v][k] < gr.ne && x.cls[gr.eno[v][k]] == No
    decreases f, i
  {
    hide Single, Tally, Sound, OpenEdges, Pending;
    TallySized(gr, u);
    if !OpenSlot(gr, u, v, i - 1) || x in Visited(f.before) {
      k := TriesDeeper(gr, u, v, i - 1, if OpenSlot(gr, u, v, i - 1) then f.before else f, x);
    } else {
      k := i - 1;
      var w, en := gr.g[v][k], gr.eno[v][k];
      OutSingle(gr, u, v, w, en);
      FewerOpen(gr, u, f.at, en);
      if x != f.at { BelowDeeper(gr, f.at, f.below, x); }
    }
  }

  lemma TallySized(gr: Graph, u: Node)
    requires Tally(gr, u)
    ensures gr.Ok() && Sized(gr, u)
  {
  }

  // The number of nodes is the number of different states.
  lemma {:induction false} BelowDistinct(gr: Graph, s: Node, b: Forest)
    requires Below(gr, s, b) && |s.cls| == gr.ne + 1
    ensures |Visited(b)| == Size(b) && s !in Visited(b)
    decreases b, 4
  {
    hide Single, Tally, Extends, Sound, OpenEdges, Pending;
    if b != None {
      var u, v, i :| i <= 3 && Reached(gr, s, u) && Tries(gr, u, v, i, b);
      TriesDistinct(gr, u, v, i, b);
      if s in Visited(b) { BelowDeeper(gr, s, b, s); }
    }
  }

  lemma {:induction false} TriesDistinct(gr: Graph, u: Node, v: nat, i: nat, f: Forest)
    requires Tries(gr, u, v, i, f) && Pending(gr, u, {})
    ensures |Visited(f)| == Size(f)
    decreases f, i
  {
    hide Single, Tally, Sound, OpenEdges, Pending;
    TallySized(gr, u);
    if i > 0 {
      if !OpenSlot(gr, u, v, i - 1) {
        TriesDistinct(gr, u, v, i - 1, f);
      } else {
        TriesDistinct(gr, u, v, i - 1, f.before);
        BelowDistinct(gr, f.at, f.below);
        forall x | x in Visited(f.before) ensures x != f.at && x !in Visited(f.below) {
          Elsewhere(gr, u, v, i - 1, f, x);
        }
        assert Visited(f.before) !! {f.at} + Visited(f.below);
      }
    }
  }

  // The tries at earlier slots have another edge out.
  lemma Elsewhere(gr: Graph, u: Node, v: nat, i: nat, f: Forest, x: Node)
    requires i < 3 && Tries(gr, u, v, i + 1, f) && Pending(gr, u, {}) && OpenSlot(gr, u, v, i)
    requires x in Visited(f.before)
    ensures x != f.at && x !in Visited(f.below)
  {
    hide Single, Tally, Sound, OpenEdges, Pending;
    TallySized(gr, u);
    var k := TriesDeeper(gr, u, v, i, f.before, x);
    OneSlotOut(gr, x, v, k, i);
    if x in Visited(f.below) { BelowDeeper(gr, f.at, f.below, x); }
  }

  // ---- How many nodes there can be ----

  // The most nodes of a search with k unclassified edges: three tries, each with one edge less.
  function Most(k: nat): nat {
    if k == 0 then 1 else 1 + 3 * Most(k - 1)
  }

  lemma {:induction false} MostGrows(j: nat, k: nat)
    requires j <= k
    ensures Most(j) <= Most(k)
    decreases k - j
  {
    if j < k { MostGrows(j, k - 1); }
  }

  lemma {:induction false} BelowFew(gr: Graph, s: Node, b: Forest)
    requires Below(gr, s, b) && |s.cls| == gr.ne + 1
    ensures 1 + Size(b) <= Most(|OpenEdges(gr, s)|)
    decreases b, 4
  {
    hide Tally, Extends, Sound, OpenEdges, Pending;
    if b != None {
      var u, v, i :| i <= 3 && Reached(gr, s, u) && Tries(gr, u, v, i, b);
      TallySized(gr, u);
      NoMoreOpen(gr, s, u);
      TriesFew(gr, u, v, i, b, |OpenEdges(gr, s)|);
      AtMostThree(i, Most(|OpenEdges(gr, s)| - 1));
    }
  }

  // What i tries with at most m nodes each come to.
  function Sum(i: nat, m: nat): nat {
    if i == 0 then 0 else Sum(i - 1, m) + m
  }

  lemma AtMostThree(i: nat, m: nat)
    requires i <= 3
    ensures Sum(i, m) <= 3 * m
  {
    assert Sum(1, m) == m && Sum(2, m) == m + m;
  }

  lemma {:induction false} TriesFew(gr: Graph, u: Node, v: nat, i: nat, f: Forest, n: nat)
    requires Tries(gr, u, v, i, f) && Pending(gr, u, {}) && |u.cls| == gr.ne + 1 && |OpenEdges(gr, u)| <= n
    ensures f == None || (n > 0 && Size(f) <= Sum(i, Most(n - 1)))
    decreases f, i
  {
    hide Tally, Sound, OpenEdges, Pending, Extends, Single, Below, Most, OpenEdge;
    TallySized(gr, u);
    if i > 0 {
      if !OpenSlot(gr, u, v, i - 1) {
        TriesFew(gr, u, v, i - 1, f, n);
      } else {
        TriesFew(gr, u, v, i - 1, f.before, n);
        OneEdgeLess(gr, u, v, gr.g[v][i - 1], gr.eno[v][i - 1]);
        BelowFew(gr, f.at, f.below);
        MostGrows(|OpenEdges(gr, f.at)|, n - 1);
      }
    }
  }

  lemma OneEdgeLess(gr: Graph, u: Node, v: nat, w: nat, en: nat)
    requires Tally(gr, u) && Pending(gr, u, {}) && OpenEdge(gr, u, v, w, en)
    ensures |u.cls| == gr.ne + 1 == |OutNode(u, v, w, en).cls|
    ensures |OpenEdges(gr, OutNode(u, v, w, en))| < |OpenEdges(gr, u)|
  {
    hide Tally, Pending, OpenEdges, Single;
    OutSingle(gr, u, v, w, en);
    FewerOpen(gr, u, OutNode(u, v, w, en), en);
  }
}
