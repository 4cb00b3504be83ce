// The stack of classifications and how popping it restores the state.
module CubUndo {
  import opened CubGraph
  import opened CubState

  // An entry is an edge number, or a farend value below the code -x-1 of its vertex.
  ghost predicate StackOk(gr: Graph, st: seq<int>) {
    st == [] ||
    (var p := st[|st| - 1];
     if p >= 0 then p < gr.ne && StackOk(gr, st[..|st| - 1])
     else |st| >= 2 && -p - 1 < gr.nv && 0 <= st[|st| - 2] < gr.nv && StackOk(gr, st[..|st| - 2]))
  }

  function Declassified(gr: Graph, s: Node, e: nat): Node
    requires e < |s.cls| && e < |gr.v1| && e < |gr.v2|
    requires gr.v1[e] < |s.din| == |s.dout| && gr.v2[e] < |s.din|
  {
    var x, y := gr.v1[e], gr.v2[e];
    if s.cls[e] == Yes then
      (var d := s.din[x := s.din[x] - 1]; s.(din := d[y := d[y] - 1], cls := s.cls[e := Dunno]))
    else
      (var d := s.dout[x := s.dout[x] - 1]; s.(dout := d[y := d[y] - 1], cls := s.cls[e := Dunno]))
  }

  // One step of the undo loop.
  ghost function Popped(gr: Graph, s: Node, st: seq<int>): (r: (Node, seq<int>))
    requires gr.Ok() && Sized(gr, s) && StackOk(gr, st) && st != []
    ensures Sized(gr, r.0) && StackOk(gr, r.1) && |r.1| < |st|
  {
    var p := st[|st| - 1];
    if p >= 0 then (Declassified(gr, s, p), st[..|st| - 1])
    else (s.(farend := s.farend[-p - 1 := st[|st| - 2]]), st[..|st| - 2])
  }

  ghost function Unwound(gr: Graph, s: Node, st: seq<int>, mark: nat): (r: (Node, seq<int>))
    requires gr.Ok() && Sized(gr, s) && StackOk(gr, st)
    ensures Sized(gr, r.0) && StackOk(gr, r.1) && |r.1| <= |st|
    decreases |st|
  {
    if |st| <= mark then (s, st)
    else
      var t := Popped(gr, s, st);
      Unwound(gr, t.0, t.1, mark)
  }

  // Popping t back to the height of a gives the state s.
  ghost predicate Undoable(gr: Graph, s: Node, a: seq<int>, t: Node, b: seq<int>) {
    && gr.Ok() && Sized(gr, s) && StackOk(gr, a) && Sized(gr, t) && StackOk(gr, b)
    && |a| <= |b| && Unwound(gr, t, b, |a|) == (s, a)
  }

  lemma EmptyStackOk(gr: Graph)
    ensures StackOk(gr, [])
  {
  }

  lemma UndoStacks(gr: Graph, s: Node, a: seq<int>, t: Node, b: seq<int>)
    requires Undoable(gr, s, a, t, b)
    ensures StackOk(gr, a) && StackOk(gr, b)
  {
  }

  lemma UndoNothing(gr: Graph, s: Node, a: seq<int>)
    requires gr.Ok() && Sized(gr, s) && StackOk(gr, a)
    ensures Undoable(gr, s, a, s, a)
  {
  }

  lemma {:induction false} UnwoundTwice(gr: Graph, s: Node, st: seq<int>, m: nat, k: nat)
    requires gr.Ok() && Sized(gr, s) && StackOk(gr, st) && k <= m
    ensures var t := Unwound(gr, s, st, m); Unwound(gr, t.0, t.1, k) == Unwound(gr, s, st, k)
    decreases |st|
  {
    if |st| > m {
      var t := Popped(gr, s, st);
      UnwoundTwice(gr, t.0, t.1, m, k);
    }
  }

  lemma UndoBoth(gr: Graph, s: Node, a: seq<int>, t: Node, b: seq<int>, u: Node, c: seq<int>)
    requires Undoable(gr, s, a, t, b) && Undoable(gr, t, b, u, c)
    ensures Undoable(gr, s, a, u, c)
  {
    UnwoundTwice(gr, u, c, |b|, |a|);
  }

  lemma UndoOut(gr: Graph, s: Node, a: seq<int>, v: nat, w: nat, en: nat)
    requires gr.Ok() && StackOk(gr, a) && OpenEdge(gr, s, v, w, en)
    ensures Undoable(gr, s, a, OutNode(s, v, w, en), a + [en])
  {
    hide Unwound;
    var t, b := OutNode(s, v, w, en), a + [en];
    assert b[..|b| - 1] == a;
    assert Declassified(gr, t, en).dout == s.dout && Declassified(gr, t, en).cls == s.cls;
    assert Popped(gr, t, b) == (s, a);
    PoppedOnce(gr, s, a, t, b);
  }

  lemma UndoIn(gr: Graph, s: Node, a: seq<int>, v: nat, w: nat, en: nat)
    requires gr.Ok() && StackOk(gr, a) && OpenEdge(gr, s, v, w, en)
    ensures Undoable(gr, s, a, InNode(s, v, w, en), a + [en])
  {
    hide Unwound;
    var t, b := InNode(s, v, w, en), a + [en];
    assert b[..|b| - 1] == a;
    assert Declassified(gr, t, en).din == s.din && Declassified(gr, t, en).cls == s.cls;
    assert Popped(gr, t, b) == (s, a);
    PoppedOnce(gr, s, a, t, b);
  }

  // One pop is enough.
  lemma PoppedOnce(gr: Graph, s: Node, a: seq<int>, t: Node, b: seq<int>)
    requires gr.Ok() && Sized(gr, s) && Sized(gr, t) && StackOk(gr, a) && StackOk(gr, b) && |a| + 1 == |b|
    requires Popped(gr, t, b) == (s, a)
    ensures Undoable(gr, s, a, t, b)
  {
    hide Popped, StackOk;
    assert Unwound(gr, s, a, |a|) == (s, a);
  }

  function FarEntry(x: int, far: int): seq<int> {
    [far, -x - 1]
  }

  lemma PopFar(gr: Graph, t: Node, a: seq<int>, x: nat, f: nat)
    requires gr.Ok() && Sized(gr, t) && StackOk(gr, a) && x < gr.nv && f < gr.nv
    ensures var b := a + FarEntry(x, f);
      StackOk(gr, b) && Popped(gr, t, b) == (t.(farend := t.farend[x := f]), a)
  {
    var b := a + FarEntry(x, f);
    assert b[..|b| - 2] == a;
  }

  // The two entries of each path end are pushed before both ends are changed.
  lemma UndoFar(gr: Graph, s: Node, a: seq<int>, x: nat, y: nat)
    requires gr.Ok() && Sized(gr, s) && StackOk(gr, a) && x < gr.nv && y < gr.nv
    requires 0 <= s.farend[x] < gr.nv && 0 <= s.farend[y] < gr.nv
    ensures Undoable(gr, s, a, FarNode(s, x, y), a + FarEntry(x, s.farend[x]) + FarEntry(y, s.farend[y]))
  {
    hide StackOk, Popped, Unwound;
    var t := FarNode(s, x, y);
    var a1 := a + FarEntry(x, s.farend[x]);
    PopFar(gr, t, a1, y, s.farend[y]);
    var u := t.(farend := t.farend[y := s.farend[y]]);
    PopFar(gr, u, a, x, s.farend[x]);
    assert u.farend[x := s.farend[x]] == s.farend;
    UnwindStep(gr, t, a1 + FarEntry(y, s.farend[y]), u, a1, |a|);
    UnwindStep(gr, u, a1, s, a, |a|);
    UnwindNone(gr, s, a);
  }

  lemma UnwindNone(gr: Graph, s: Node, a: seq<int>)
    requires gr.Ok() && Sized(gr, s) && StackOk(gr, a)
    ensures Unwound(gr, s, a, |a|) == (s, a)
  {
  }

  lemma UnwindStep(gr: Graph, t: Node, c: seq<int>, u: Node, b: seq<int>, mark: nat)
    requires gr.Ok() && Sized(gr, t) && StackOk(gr, c) && mark < |c| && Popped(gr, t, c) == (u, b)
    ensures Sized(gr, u) && StackOk(gr, b) && Unwound(gr, t, c, mark) == Unwound(gr, u, b, mark)
  {
  }

  lemma UndoneTo(gr: Graph, s: Node, a: seq<int>, t: Node, b: seq<int>)
    requires Undoable(gr, s, a, t, b)
    ensures gr.Ok() && Sized(gr, t) && StackOk(gr, a) && StackOk(gr, b) && Unwound(gr, t, b, |a|) == (s, a)
  {
  }

  // The top entry tells what one step of the undo loop does.
  lemma PopIt(gr: Graph, s: Node, a: seq<int>, mark: nat)
    requires gr.Ok() && Sized(gr, s) && StackOk(gr, a) && mark < |a|
    ensures var t := Popped(gr, s, a); Unwound(gr, s, a, mark) == Unwound(gr, t.0, t.1, mark)
    ensures var p := a[|a| - 1];
      if p >= 0 then p < gr.ne && Popped(gr, s, a) == (Declassified(gr, s, p), a[..|a| - 1])
      else
        |a| >= 2 && -p - 1 < gr.nv &&
        Popped(gr, s, a) == (s.(farend := s.farend[-p - 1 := a[|a| - 2]]), a[..|a| - 2])
  {
  }

  lemma PopNone(gr: Graph, s: Node, a: seq<int>, mark: nat)
    requires gr.Ok() && Sized(gr, s) && StackOk(gr, a) && |a| <= mark
    ensures Unwound(gr, s, a, mark) == (s, a)
  {
  }
}
