// The search for a Hamiltonian cycle with forced and forbidden edges.
module CubHam {
  import opened Counting
  import opened CubGraph
  import opened CubCycles
  import opened CubState
  import opened CubUndo
  import opened CubSteps
  import opened CubStart
  import opened CubTree

  datatype Status = YES | NO | DUNNO | HABORT

  class Ham {
    const gr: Graph
    const cls: array<Class>
    const din: array<int>
    const dout: array<int>
    const farend: array<int>
    const onstack: array<int>
    var stack: seq<nat>
    var stacklev: int
    var classstack: seq<int>
    var nodecount: nat
    const maxnodes: nat
    const noLimit: bool
    ghost var comp: seq<nat>    // the component of every vertex

    ghost function St(): Node
      reads cls, din, dout, farend
    {
      Node(cls[..], din[..], dout[..], farend[..])
    }

    ghost predicate Shaped() {
      && gr.Ok() && cls.Length == gr.ne + 1 && din.Length == dout.Length == farend.Length == onstack.Length == gr.nv
      && din != dout && din != farend && dout != farend && onstack != din && onstack != dout && onstack != farend
    }

    // The stack holds different vertices, and onstack tells which.
    ghost predicate Synced()
      reads this`stack, this`stacklev, onstack
    {
      && onstack.Length == gr.nv && 1 <= stacklev
      && (forall i, j :: 0 <= i < j < |stack| ==> stack[i] != stack[j])
      && (forall x :: x in stack ==> x < gr.nv)
      && forall u :: 0 <= u < gr.nv ==> onstack[u] <= stacklev && (onstack[u] == stacklev <==> u in stack)
    }

    // PUSH.
    method Push(x: nat)
      requires Synced() && x < gr.nv
      modifies this`stack, onstack
      ensures Synced() && Members(stack) == Members(old(stack)) + {x} && |stack| <= |old(stack)| + 1
    {
      if onstack[x] != stacklev {
        onstack[x] := stacklev;
        stack := stack + [x];
      }
      assert forall u :: u in stack <==> u in old(stack) || u == x;
    }

    // POP.
    method Pop() returns (x: nat)
      requires Synced() && stack != []
      modifies this`stack, onstack
      ensures Synced() && x < gr.nv && |stack| == |old(stack)| - 1 && Members(old(stack)) == Members(stack) + {x}
    {
      x := stack[|stack| - 1];
      assert x in stack;
      stack := stack[..|stack| - 1];
      onstack[x] := 0;
      assert forall u :: u in old(stack) <==> u in stack || u == x;
    }

    // RESETSTACK.
    method ResetStack()
      requires Synced()
      modifies this`stack, this`stacklev
      ensures Synced() && stack == []
    {
      stacklev := stacklev + 1;
      stack := [];
    }

    // classout.
    method ClassOut(v: nat, w: nat, en: nat)
      requires Shaped() && OpenEdge(gr, St(), v, w, en)
      modifies cls, dout, this`classstack
      ensures St() == OutNode(old(St()), v, w, en) && classstack == old(classstack) + [en]
    {
      dout[v] := dout[v] + 1;
      dout[w] := dout[w] + 1;
      cls[en] := No;
      classstack := classstack + [en];
    }

    // The first lines of classin.
    method MarkIn(v: nat, w: nat, en: nat)
      requires Shaped() && OpenEdge(gr, St(), v, w, en)
      modifies cls, din, this`classstack
      ensures St() == InNode(old(St()), v, w, en) && classstack == old(classstack) + [en]
    {
      din[v] := din[v] + 1;
      din[w] := din[w] + 1;
      cls[en] := Yes;
      classstack := classstack + [en];
    }

    // Record and set the far ends of the new path.
    method SetFarEnds(fv: nat, fw: nat)
      requires Shaped() && fv < gr.nv && fw < gr.nv
      modifies farend, this`classstack
      ensures St() == FarNode(old(St()), fv, fw)
      ensures classstack == old(classstack) + FarEntry(fv, old(farend[fv])) + FarEntry(fw, old(farend[fw]))
    {
      classstack := classstack + [farend[fv], -(fv as int) - 1];
      classstack := classstack + [farend[fw], -(fw as int) - 1];
      farend[fv] := fw;
      farend[fw] := fv;
    }

    // The state since s and a: what can be undone, what is kept, what waits on the stack.
    ghost predicate Since(s: Node, a: seq<int>, waiting: set<nat>, ends: set<nat>)
      reads this`stack, this`stacklev, onstack, this`classstack, cls, din, dout, farend
    {
      && Shaped() && Synced() && Tally(gr, St()) && Undoable(gr, s, a, St(), classstack) && Extends(s, St())
      && waiting <= Members(stack) && Changed(gr, s, St(), ends, Members(stack))
    }

    ghost predicate Standing(nin: int)
      reads this`comp, cls, din, dout, farend
    {
      |comp| == gr.nv && (Doomed(St()) || Live(gr, St(), comp, nin))
    }

    // classin.
    method ClassIn(v: nat, w: nat, en: nat, nin: nat) returns (nin2: nat)
      requires Shaped() && Synced() && StackOk(gr, classstack) && |comp| == gr.nv
      requires Ready(gr, St(), comp, nin, v, w, en)
      modifies cls, din, dout, farend, onstack, this`stack, this`classstack, this`comp
      ensures Since(old(St()), old(classstack), Members(old(stack)), {v, w}) && Standing(nin2)
      ensures en < cls.Length && cls[en] == Yes && SoundIf(gr, old(St()), St(), en)
      decreases if nin + 1 == gr.nv then 0 else 3
    {
      hide Tally, Live, Doomed, Undoable, Unwound, StackOk, Graph.HamSet, Agrees;
      ghost var s, a := St(), classstack;
      UndoIn(gr, s, a, v, w, en);
      InStep(gr, s, comp, nin, v, w, en);
      MarkIn(v, w, en);
      nin2 := nin + 1;
      InIf(gr, s, St(), v, w, en);
      InChanged(gr, s, St(), v, w, en, Members(stack));
      if nin2 == gr.nv {
        if !Doomed(St()) { FormedLive(gr, St(), comp, nin2); }
        return;
      }
      ghost var t, b, was := St(), classstack, Members(stack);
      UndoStacks(gr, s, a, t, b);
      FarStep(gr, s, comp, nin, v, w, en);
      nin2 := JoinPaths(v, w, en, nin2, s);
      UndoBoth(gr, s, a, t, b, St(), classstack);
      ExtendsTwice(s, t, St());
      ChangedTwice(gr, s, t, St(), {v, w}, was, Members(stack));
      SoundIfTwice(gr, s, t, St(), en);
    }

    // The second half of classin: set the far ends, and decide the edge between them.
    method JoinPaths(v: nat, w: nat, ghost en: nat, nin: nat, ghost s: Node) returns (nin2: nat)
      requires Shaped() && Synced() && StackOk(gr, classstack) && |comp| == gr.nv && v < gr.nv && w < gr.nv
      requires en < gr.ne
      requires Sized(gr, s) && 0 <= s.farend[v] < gr.nv && 0 <= s.farend[w] < gr.nv && St() == InNode(s, v, w, en)
      requires Tally(gr, St())
      requires var t := FarNode(St(), s.farend[v], s.farend[w]);
        Linking(gr, t, if Doomed(t) then comp else Merged(comp, comp[v], comp[w], s.farend[v]), nin,
                s.farend[v], s.farend[w])
      modifies cls, din, dout, farend, onstack, this`stack, this`classstack, this`comp
      ensures Since(old(St()), old(classstack), Members(old(stack)), {}) && Standing(nin2) && Sound(gr, old(St()), St())
      ensures cls[en] == Yes
      decreases 2, 1
    {
      hide Tally, Live, Doomed, Undoable, Unwound, StackOk, Graph.HamSet, Agrees, Linking;
      ghost var t, b, was := St(), classstack, Members(stack);
      FarInRange(gr, t);
      var fv, fw := farend[v], farend[w];
      UndoFar(gr, t, b, fv, fw);
      SetFarEnds(fv, fw);
      if !Doomed(St()) { comp := Merged(comp, comp[v], comp[w], fv); }
      ghost var u, c := St(), classstack;
      UndoStacks(gr, t, b, u, c);
      nin2 := LinkEnds(fv, fw, nin);
      UndoBoth(gr, t, b, u, c, St(), classstack);
      SameClasses(gr, t, u, St(), Members(stack));
    }

    // Decide the edge between the two ends of the path just formed, if there is one.
    method LinkEnds(fv: nat, fw: nat, nin: nat) returns (nin2: nat)
      requires Shaped() && Synced() && StackOk(gr, classstack) && |comp| == gr.nv
      requires Linking(gr, St(), comp, nin, fv, fw)
      modifies cls, din, dout, farend, onstack, this`stack, this`classstack, this`comp
      ensures Since(old(St()), old(classstack), Members(old(stack)), {}) && Standing(nin2) && Sound(gr, old(St()), St())
      decreases 2, 0
    {
      hide Tally, Live, Doomed, Undoable, Unwound, StackOk, Graph.HamSet, Agrees, Linking;
      ghost var s, a := St(), classstack;
      LinkingRange(gr, s, comp, nin, fv, fw);
      nin2 := nin;
      var gp := gr.g[fv];
      var i;
      if gp[0] == fw {
        i := 0;
      } else if gp[1] == fw {
        i := 1;
      } else if gp[2] == fw {
        i := 2;
      } else {
        NoSlot(gr, fv, fw);
        LinkingDone(gr, s, comp, nin, fv, fw);
        UndoNothing(gr, s, a);
        return;
      }
      SlotEdge(gr, fv, i);
      var e := gr.eno[fv][i];
      if cls[e] == Dunno {
        Push(fv);
        Push(fw);
        nin2 := DecideChord(fv, fw, e, nin);
      } else {
        forall d | 0 <= d < gr.ne && gr.Joins(d, fv, fw) ensures s.cls[d] != Dunno { FoundSlot(gr, fv, fw, i, d); }
        LinkingDone(gr, s, comp, nin, fv, fw);
        UndoNothing(gr, s, a);
      }
    }

    // The edge closes the cycle when the path visits every vertex, and is out otherwise.
    method DecideChord(fv: nat, fw: nat, e: nat, nin: nat) returns (nin2: nat)
      requires Shaped() && Synced() && StackOk(gr, classstack) && |comp| == gr.nv
      requires Linking(gr, St(), comp, nin, fv, fw)
      requires OpenEdge(gr, St(), fv, fw, e) && fv in stack && fw in stack
      modifies cls, din, dout, farend, onstack, this`stack, this`classstack, this`comp
      ensures Since(old(St()), old(classstack), Members(old(stack)), {}) && Standing(nin2) && Sound(gr, old(St()), St())
      decreases 1
    {
      hide Tally, Live, Doomed, Undoable, Unwound, StackOk, Graph.HamSet, Agrees, Linking;
      ghost var s, a := St(), classstack;
      if nin == gr.nv - 1 {
        LinkingReady(gr, s, comp, nin, fv, fw, e);
        nin2 := ClassIn(fv, fw, e, nin);
        LinkingSound(gr, s, old(comp), nin, fv, fw, e, St());
        assert {fv, fw} <= Members(stack);
        EndsWaiting(gr, s, St(), {fv, fw}, Members(stack));
      } else {
        UndoOut(gr, s, a, fv, fw, e);
        ClassOut(fv, fw, e);
        nin2 := nin;
        LinkingOut(gr, s, comp, nin, fv, fw, e);
        LinkingSound(gr, s, comp, nin, fv, fw, e, St());
        OutChanged(gr, s, fv, fw, e, Members(stack));
      }
    }

    // ---- Propagation ----

    // The state of the propagation loop since its start.
    ghost predicate Running(s: Node, a: seq<int>, nin: int, extra: set<nat>)
      reads this`stack, this`stacklev, onstack, this`classstack, this`comp, cls, din, dout, farend
    {
      && Shaped() && Synced() && Tally(gr, St()) && Undoable(gr, s, a, St(), classstack) && Extends(s, St())
      && Sound(gr, s, St())
      && Standing(nin) && Pending(gr, St(), extra + Members(stack))
    }

    // Fewer unclassified edges, or as many and no more waiting vertices.
    ghost predicate Fewer(t: Node, was: nat)
      reads this`stack, cls, din, dout, farend
    {
      |t.cls| == cls.Length == gr.ne + 1 &&
      (|OpenEdges(gr, St())| < |OpenEdges(gr, t)| || (|OpenEdges(gr, St())| == |OpenEdges(gr, t)| && |stack| <= was))
    }

    // What is left when propagation finds a contradiction.
    ghost predicate Refused(s: Node, a: seq<int>)
      reads this`stack, this`stacklev, onstack, this`classstack, this`comp, cls, din, dout, farend
    {
      Hopeless(gr, s) && Shaped() && Synced() && Undoable(gr, s, a, St(), classstack)
    }

    // A vertex with no edge out: a third edge has to go, and three edges in are too many.
    method NoneOut(v: nat, nin: nat, ghost s: Node, ghost a: seq<int>) returns (status: Status)
      requires Running(s, a, nin, {v}) && v < gr.nv && dout[v] == 0
      modifies cls, din, dout, farend, onstack, this`stack, this`classstack, this`comp
      ensures status == DUNNO ==> Running(s, a, nin, {}) && Fewer(old(St()), old(|stack|))
      ensures status != DUNNO ==> status == NO && Refused(s, a)
    {
      hide Tally, Live, Doomed, Undoable, Unwound, StackOk, Graph.HamSet, Agrees, Sound, Pending, Hopeless, Extends;
      TallyRange(gr, St(), v);
      status := DUNNO;
      if din[v] == 2 {
        LeaveThird(v, nin, s, a);
      } else if din[v] == 3 {
        TooMany(gr, St(), v);
        HopelessBack(gr, s, St());
        status := NO;
      } else {
        Settle(gr, St(), v, Members(stack));
      }
    }

    // The third edge of a vertex with two edges in is out.
    method LeaveThird(v: nat, nin: nat, ghost s: Node, ghost a: seq<int>)
      requires Running(s, a, nin, {v}) && v < gr.nv && dout[v] == 0 && din[v] == 2
      modifies cls, dout, onstack, this`stack, this`classstack
      ensures Running(s, a, nin, {}) && Fewer(old(St()), old(|stack|))
    {
      hide Tally, Live, Doomed, Undoable, Unwound, StackOk, Graph.HamSet, Agrees, Sound, Pending, Extends, OpenEdge,
        Unsettled, OpenEdges;
      ghost var t, b, was := St(), classstack, Members(stack);
      ThirdSlot(gr, t, v);
      var i := if cls[gr.eno[v][0]] == Dunno then 0 else if cls[gr.eno[v][1]] == Dunno then 1 else 2;
      SlotOpen(gr, t, v, i);
      ThirdOut(gr, s, a, t, b, comp, nin, v, gr.g[v][i], gr.eno[v][i], was);
      var w, en := gr.g[v][i], gr.eno[v][i];
      ClassOut(v, w, en);
      Push(w);
    }

    // A vertex with one edge out: its other edges are in.
    method OneOut(v: nat, nin: nat, ghost s: Node, ghost a: seq<int>) returns (nin2: nat)
      requires Running(s, a, nin, {v}) && v < gr.nv && dout[v] == 1
      modifies cls, din, dout, farend, onstack, this`stack, this`classstack, this`comp
      ensures Running(s, a, nin2, {}) && Fewer(old(St()), old(|stack|))
    {
      hide Tally, Live, Doomed, Undoable, Unwound, StackOk, Graph.HamSet, Agrees, Sound, Pending, Extends,
        Ham.Synced, OpenEdge, Unsettled, OpenEdges, SlotsGiven;
      nin2 := nin;
      ghost var start, height := St(), |stack|;
      NoSlots(gr, start, v);
      var i := 0;
      while i < 3
        invariant 0 <= i <= 3 && Running(s, a, nin2, {v}) && Fewer(start, height)
        invariant 1 <= dout[v] && (dout[v] == 1 || v in stack)
        invariant SlotsGiven(gr, St(), v, i)
      {
        ghost var t := St();
        SlotOpen(gr, t, v, i);
        if cls[gr.eno[v][i]] == Dunno {
          nin2 := PutIn(v, i, nin2, s, a);
          SlotsKept(gr, t, St(), v, i);
        }
        MoreSlots(gr, St(), v, i);
        i := i + 1;
      }
      OneSettles(gr, St(), v, Members(stack));
    }

    method PutIn(v: nat, i: nat, nin: nat, ghost s: Node, ghost a: seq<int>) returns (nin2: nat)
      requires Running(s, a, nin, {v}) && v < gr.nv && 1 <= dout[v] && (dout[v] == 1 || v in stack)
      requires i < 3 && gr.eno[v][i] <= gr.ne && cls[gr.eno[v][i]] == Dunno
      modifies cls, din, dout, farend, onstack, this`stack, this`classstack, this`comp
      ensures Running(s, a, nin2, {v}) && 1 <= dout[v] && (dout[v] == 1 || v in stack)
      ensures Extends(old(St()), St()) && cls[gr.eno[v][i]] != Dunno
      ensures |OpenEdges(gr, St())| < |OpenEdges(gr, old(St()))|
    {
      hide Tally, Live, Doomed, Undoable, Unwound, StackOk, Graph.HamSet, Agrees, Sound, Pending, Extends, SoundIf;
      ghost var t, b, was := St(), classstack, Members(stack);
      SlotOpen(gr, t, v, i);
      var w, en := gr.g[v][i], gr.eno[v][i];
      UndoStacks(gr, s, a, t, b);
      nin2 := ClassIn(v, w, en, nin);
      ghost var u, now := St(), Members(stack);
      Push(w);
      InPending(gr, t, u, v, w, was, now, Members(stack));
      InSound(gr, t, u, v, w, en);
      CountsGrow(gr, t, u, v);
      UndoBoth(gr, s, a, t, b, u, classstack);
      SoundTwice(gr, s, t, u);
      ExtendsTwice(s, t, u);
      FewerOpen(gr, t, u, en);
      Stacked(stack, was, v);
    }

    // One vertex from the stack.
    method NextVertex(nin: nat, ghost s: Node, ghost a: seq<int>) returns (status: Status, nin2: nat)
      requires Running(s, a, nin, {}) && stack != []
      modifies cls, din, dout, farend, onstack, this`stack, this`classstack, this`comp
      ensures status == DUNNO || status == NO
      ensures status == DUNNO ==> Running(s, a, nin2, {}) && Fewer(old(St()), |old(stack)| - 1)
      ensures status == NO ==> Refused(s, a)
    {
      hide Tally, Live, Doomed, Undoable, Unwound, StackOk, Graph.HamSet, Agrees, Sound, Pending, Extends, Hopeless,
        OpenEdges;
      status, nin2 := DUNNO, nin;
      var v := Pop();
      PendingPopped(gr, St(), v, Members(stack));
      if dout[v] == 0 {
        status := NoneOut(v, nin2, s, a);
      } else if dout[v] == 1 {
        nin2 := OneOut(v, nin2, s, a);
      } else {
        TallyRange(gr, St(), v);
        TooMany(gr, St(), v);
        HopelessBack(gr, s, St());
        status := NO;
      }
    }

    // propagate.
    method Propagate(nin: nat) returns (status: Status, nin2: nat)
      requires Shaped() && Synced() && StackOk(gr, classstack) && Tally(gr, St()) && Standing(nin)
      requires Pending(gr, St(), Members(stack))
      modifies cls, din, dout, farend, onstack, this`stack, this`classstack, this`comp
      ensures status == YES || status == NO || status == DUNNO
      ensures status != NO ==> Running(old(St()), old(classstack), nin2, {}) && !Doomed(St()) && Pending(gr, St(), {})
      ensures status == NO ==> Refused(old(St()), old(classstack))
      ensures status != NO ==> (status == YES <==> nin2 == gr.nv)
    {
      hide Tally, Live, Doomed, Undoable, Unwound, StackOk, Graph.HamSet, Agrees, Sound, Pending, Extends, Hopeless;
      ghost var s, a := St(), classstack;
      StartRun(gr, s, a, Members(stack));
      status, nin2 := DUNNO, nin;
      while status == DUNNO && stack != []
        invariant status == DUNNO || status == NO
        invariant status == DUNNO ==> Running(s, a, nin2, {})
        invariant status == NO ==> Refused(s, a)
        decreases status == DUNNO, if cls.Length == gr.ne + 1 then |OpenEdges(gr, St())| else 0, |stack|
      {
        status, nin2 := NextVertex(nin2, s, a);
      }
      if status != NO {
        EmptyMembers(stack);
        NothingPending(gr, St());
        SettledLive(gr, St());
        if nin2 == gr.nv {
          status := YES;
        }
      }
    }

    // ---- Backtracking ----

    // Pop classifications down to the given height.
    method UndoTo(mark: nat)
      requires Shaped() && StackOk(gr, classstack)
      modifies cls, din, dout, farend, this`classstack
      ensures (St(), classstack) == Unwound(gr, old(St()), old(classstack), mark)
    {
      hide StackOk, Unwound, Popped;
      ghost var s0, a0 := St(), classstack;
      while |classstack| > mark
        invariant Shaped() && StackOk(gr, classstack)
        invariant Unwound(gr, St(), classstack, mark) == Unwound(gr, s0, a0, mark)
      {
        ghost var s, a := St(), classstack;
        PopIt(gr, s, a, mark);
        var p := classstack[|classstack| - 1];
        if p >= 0 {
          classstack := classstack[..|classstack| - 1];
          Declassify(p);
        } else {
          var q := classstack[|classstack| - 2];
          classstack := classstack[..|classstack| - 2];
          farend[-p - 1] := q;
        }
        assert (St(), classstack) == Popped(gr, s, a);
      }
      PopNone(gr, St(), classstack, mark);
    }

    method Declassify(p: nat)
      requires Shaped() && p < gr.ne
      modifies cls, din, dout
      ensures St() == Declassified(gr, old(St()), p)
    {
      var x, y := gr.v1[p], gr.v2[p];
      if cls[p] == Yes {
        din[x] := din[x] - 1;
        din[y] := din[y] - 1;
      } else {
        dout[x] := dout[x] - 1;
        dout[y] := dout[y] - 1;
      }
      cls[p] := Dunno;
    }

    // Nothing is left to propagate and nothing is spoiled.
    ghost predicate Quiet(nin: int)
      reads this`comp, cls, din, dout, farend
    {
      && Shaped() && Tally(gr, St()) && |comp| == gr.nv && Live(gr, St(), comp, nin) && !Doomed(St())
      && Pending(gr, St(), {})
    }

    // The edges in form a Hamiltonian cycle and every edge is classified.
    ghost predicate Found()
      reads cls, din, dout, farend
    {
      Shaped() && Tally(gr, St()) && CycleFormed(gr, St(), gr.nv) && Pending(gr, St(), {})
    }

    ghost function Remaining(): nat
      reads cls, din, dout, farend
    {
      if cls.Length == gr.ne + 1 then |OpenEdges(gr, St())| else 0
    }

    // The limit is passed by one node, and then the search stops.
    ghost predicate Within(was: nat, status: Status)
      reads this`nodecount
    {
      if status == HABORT then !noLimit && nodecount == 1 + if was > maxnodes then was else maxnodes
      else noLimit || nodecount <= maxnodes
    }

    // hamnode; below holds the nodes searched under this one.
    method HamNode(nin: nat) returns (status: Status, ghost below: Forest)
      requires gr.nv > 0 && Shaped() && Synced() && StackOk(gr, classstack) && Tally(gr, St()) && Standing(nin)
      requires Pending(gr, St(), Members(stack))
      modifies cls, din, dout, farend, onstack, this`stack, this`stacklev, this`classstack, this`comp, this`nodecount
      ensures Shaped() && Synced() && Undoable(gr, old(St()), old(classstack), St(), classstack)
      ensures status == YES || status == NO || status == HABORT
      ensures status == NO ==> Hopeless(gr, old(St()))
      ensures status == YES ==> Found() && Extends(old(St()), St())
      ensures Below(gr, old(St()), below) && nodecount == old(nodecount) + 1 + Size(below)
      ensures Within(old(nodecount), status)
      decreases Remaining(), 1
    {
      hide Tally, Live, Doomed, Undoable, Unwound, StackOk, Graph.HamSet, Agrees, Sound, Pending, Extends, Hopeless,
        Tries, Below, OpenEdges;
      ghost var s, a := St(), classstack;
      below := None;
      NothingBelow(gr, s);
      nodecount := nodecount + 1;
      if nodecount > maxnodes && !noLimit {
        UndoNothing(gr, s, a);
        return HABORT, below;
      }
      var nin2: nat;
      status, nin2 := Propagate(nin);
      if status != DUNNO {
        if status == YES { LiveFull(gr, St(), comp); }
        return;
      }
      ghost var t, b := St(), classstack;
      UndoStacks(gr, s, a, t, b);
      NoMoreOpen(gr, s, t);
      var v := ChooseVertex(nin2);
      ghost var i;
      status, below, i := BranchAt(v, nin2);
      TriesBelow(gr, s, t, v, i, below);
      UndoBoth(gr, s, a, t, b, St(), classstack);
      if status == YES { ExtendsTwice(s, t, St()); }
      if status == NO { HopelessBack(gr, s, t); }
    }

    // The last end of a path, or vertex 0 when there is none.
    method ChooseVertex(nin: nat) returns (v: nat)
      requires gr.nv > 0 && Quiet(nin) && nin != gr.nv
      ensures v < gr.nv && dout[v] == 0 && din[v] <= 1
    {
      hide Tally, Live, Doomed, Pending;
      var u := gr.nv - 1;
      while u >= 0 && din[u] != 1
        invariant -1 <= u < gr.nv && forall x :: u < x < gr.nv ==> din[x] != 1
      {
        u := u - 1;
      }
      v := if u < 0 then 0 else u;
      ChoiceOpen(gr, St(), comp, nin, v);
    }

    // Try to leave out each unclassified edge at v.
    method BranchAt(v: nat, nin: nat) returns (status: Status, ghost f: Forest, ghost k: nat)
      requires gr.nv > 0 && Quiet(nin) && Synced() && StackOk(gr, classstack) && v < gr.nv && dout[v] == 0
      requires din[v] <= 1 && (noLimit || nodecount <= maxnodes)
      modifies cls, din, dout, farend, onstack, this`stack, this`stacklev, this`classstack, this`comp, this`nodecount
      ensures Shaped() && Synced() && Undoable(gr, old(St()), old(classstack), St(), classstack)
      ensures status == YES || status == NO || status == HABORT
      ensures status == NO ==> Hopeless(gr, old(St()))
      ensures status == YES ==> Found() && Extends(old(St()), St())
      ensures k <= 3 && Tries(gr, old(St()), v, k, f) && nodecount == old(nodecount) + Size(f)
      ensures Within(old(nodecount), status)
      decreases Remaining(), 0, 1
    {
      hide Tally, Live, Doomed, Undoable, Unwound, StackOk, Graph.HamSet, Agrees, Pending, Extends, Hopeless, Tries,
        OpenEdge, Below;
      ghost var t, b := St(), classstack;
      NoTries(gr, t, v);
      status, f, k := DUNNO, None, 0;
      var i := 0;
      while i < 3
        invariant 0 <= i <= 3 && St() == t && classstack == b && Quiet(nin) && Synced()
        invariant status == DUNNO || status == NO
        invariant SlotsTried(gr, t, v, i)
        invariant status == DUNNO ==> SlotsGiven(gr, t, v, i)
        invariant k == i && Tries(gr, t, v, k, f) && nodecount == old(nodecount) + Size(f)
        invariant noLimit || nodecount <= maxnodes
      {
        SlotOpen(gr, t, v, i);
        var en := gr.eno[v][i];
        if cls[en] == Dunno {
          ghost var below;
          status, below := TryOut(v, gr.g[v][i], en, nin);
          TryMade(gr, t, v, i, f, below);
          f, k := Tree(f, OutNode(t, v, gr.g[v][i], en), below), i + 1;
          if status != NO { return; }
          SlotTried(gr, t, v, i);
        } else {
          SlotSkipped(gr, t, v, i);
          TryNot(gr, t, v, i, f);
          k := i + 1;
        }
        i := i + 1;
      }
      UndoNothing(gr, t, b);
      AllTried(gr, t, v);
      SlotsLeft(gr, t, v);
    }

    // Leave one edge out and search; undo unless a cycle has been found.
    method TryOut(v: nat, w: nat, en: nat, nin: nat) returns (status: Status, ghost below: Forest)
      requires (noLimit || nodecount <= maxnodes) && gr.nv > 0 && Quiet(nin) && Synced() && StackOk(gr, classstack)
      requires OpenEdge(gr, St(), v, w, en)
      modifies cls, din, dout, farend, onstack, this`stack, this`stacklev, this`classstack, this`comp, this`nodecount
      ensures Shaped() && Synced() && Undoable(gr, old(St()), old(classstack), St(), classstack)
      ensures status == YES || status == NO || status == HABORT
      ensures status == YES ==> Found() && Extends(old(St()), St())
      ensures status != YES ==> St() == old(St()) && classstack == old(classstack) && comp == old(comp)
      ensures status == NO ==> Hopeless(gr, OutNode(old(St()), v, w, en))
      ensures Below(gr, OutNode(old(St()), v, w, en), below) && nodecount == old(nodecount) + 1 + Size(below)
      ensures Within(old(nodecount), status)
      decreases Remaining(), 0, 0
    {
      hide Tally, Live, Doomed, Undoable, Unwound, StackOk, Graph.HamSet, Agrees, Pending, Extends, Hopeless, Below;
      ghost var t, b, c := St(), classstack, comp;
      var csptr := |classstack|;
      LeaveOut(v, w, en, nin);
      ghost var u, d := St(), classstack;
      status, below := HamNode(nin);
      UndoBoth(gr, t, b, u, d, St(), classstack);
      if status == YES {
        ExtendsTwice(t, u, St());
        return;
      }
      UndoStacks(gr, t, b, St(), classstack);
      UndoneTo(gr, t, b, St(), classstack);
      UndoTo(csptr);
      comp := c;
      UndoNothing(gr, t, b);
    }

    method LeaveOut(v: nat, w: nat, en: nat, ghost nin: nat)
      requires Quiet(nin) && Synced() && StackOk(gr, classstack) && OpenEdge(gr, St(), v, w, en)
      modifies cls, dout, onstack, this`stack, this`stacklev, this`classstack
      ensures Shaped() && Synced() && StackOk(gr, classstack) && Tally(gr, St()) && Standing(nin)
      ensures Pending(gr, St(), Members(stack))
      ensures St() == OutNode(old(St()), v, w, en) && Undoable(gr, old(St()), old(classstack), St(), classstack)
      ensures Extends(old(St()), St()) && Remaining() < old(Remaining())
    {
      hide Tally, Live, Doomed, Undoable, Unwound, StackOk, Pending, Extends, Ham.Synced, OpenEdge, Unsettled,
        OpenEdges, Graph.Ok;
      TriedOut(gr, St(), classstack, comp, nin, v, w, en);
      ClassOut(v, w, en);
      Requeue(v, w);
    }

    // Only v and w wait.
    method Requeue(v: nat, w: nat)
      requires Synced() && v < gr.nv && w < gr.nv
      modifies onstack, this`stack, this`stacklev
      ensures Synced() && Members(stack) == {v, w}
    {
      ResetStack();
      Push(v);
      Push(w);
    }

    // ---- The external interface ----

    constructor (graph: Graph, limit: nat, unlimited: bool)
      requires graph.Ok()
      ensures Shaped() && gr == graph && maxnodes == limit && noLimit == unlimited
      ensures fresh(cls) && fresh(din) && fresh(dout) && fresh(farend) && fresh(onstack)
    {
      gr, maxnodes, noLimit := graph, limit, unlimited;
      cls := new Class[graph.ne + 1];
      din := new int[graph.nv];
      dout := new int[graph.nv];
      farend := new int[graph.nv];
      onstack := new int[graph.nv];
      stack, stacklev, classstack, nodecount, comp := [], 0, [], 0, [];
    }

    // The first loops of cubham.
    method Reset()
      requires Shaped()
      modifies cls, din, dout, farend, onstack, this`stack, this`stacklev, this`classstack, this`comp
      ensures Shaped() && Synced() && stack == [] && classstack == [] && Blank(gr, St())
      ensures (forall v :: 0 <= v < gr.nv ==> dout[v] == 0) && comp == seq(gr.nv, (i: nat) => i)
    {
      ResetClasses();
      ResetVertices();
      stacklev := 1;
      stack := [];
      classstack := [];
      comp := seq(gr.nv, (i: nat) => i);
    }

    method ResetClasses()
      requires Shaped()
      modifies cls
      ensures forall e :: 0 <= e < gr.ne ==> cls[e] == Dunno
      ensures 3 * gr.nv > 2 * gr.ne ==> cls[gr.ne] == No
    {
      var i := gr.ne;
      while i > 0
        invariant 0 <= i <= gr.ne && forall e :: i <= e < gr.ne ==> cls[e] == Dunno
      {
        i := i - 1;
        cls[i] := Dunno;
      }
      if 3 * gr.nv > 2 * gr.ne {
        cls[gr.ne] := No;
      }
    }

    method ResetVertices()
      requires Shaped()
      modifies din, dout, farend, onstack
      ensures forall v :: 0 <= v < gr.nv ==> din[v] == 0 && dout[v] == 0 && farend[v] == v && onstack[v] == 0
    {
      var i := gr.nv;
      while i > 0
        invariant 0 <= i <= gr.nv
        invariant forall v :: i <= v < gr.nv ==> din[v] == 0 && dout[v] == 0 && farend[v] == v && onstack[v] == 0
      {
        i := i - 1;
        din[i], dout[i] := 0, 0;
        farend[i] := i;
        onstack[i] := 0;
      }
    }

    // Vertices of degree two lack an edge already; with a smaller degree there is no cycle.
    method CheckDegrees() returns (low: int)
      requires gr.nv > 0 && Shaped() && Synced() && classstack == [] && Blank(gr, St())
      requires comp == seq(gr.nv, (i: nat) => i)
      requires forall v :: 0 <= v < gr.nv ==> dout[v] == 0
      modifies dout, onstack, this`stack
      ensures low >= 0 ==> low < gr.nv && gr.g[low][1] < 0
      ensures low < 0 ==>
        Shaped() && Synced() && Tally(gr, St()) && Standing(0) && Pending(gr, St(), Members(stack)) && Blank(gr, St())
    {
      var i := gr.nv;
      while i > 0
        invariant 0 <= i <= gr.nv && Shaped() && Synced() && Blank(gr, St())
        invariant forall v :: i <= v < gr.nv ==> gr.g[v][1] >= 0 && dout[v] == (if gr.g[v][2] < 0 then 1 else 0)
        invariant forall v :: 0 <= v < i ==> dout[v] == 0
        invariant forall v :: i <= v < gr.nv && gr.g[v][2] < 0 ==> v in Members(stack)
      {
        i := i - 1;
        if gr.g[i][1] < 0 {
          return i;
        }
        if gr.g[i][2] < 0 {
          dout[i] := 1;
          Push(i);
        }
      }
      BlankTally(gr, St(), Members(stack));
      low := -1;
    }

    // The state while the initial classes are given.
    ghost predicate Giving(init: seq<Class>, nin: int, i: int)
      reads this`stack, this`stacklev, onstack, this`classstack, this`comp, cls, din, dout, farend
    {
      && Shaped() && Synced() && StackOk(gr, classstack) && Tally(gr, St()) && Standing(nin)
      && Pending(gr, St(), Members(stack))
      && SoundFrom(gr, init, St()) && Given(gr, init, St(), i)
    }

    // One initially forbidden edge.
    method Forbid(init: seq<Class>, i: nat, nin: nat) returns (status: Status)
      requires Giving(init, nin, i) && i < gr.ne && init[i] == No
      modifies cls, din, dout, farend, onstack, this`stack, this`classstack, this`comp
      ensures status == DUNNO ==> Giving(init, nin, i + 1)
      ensures status != DUNNO ==> status == NO && Impossible(gr, init)
    {
      hide Tally, Live, Doomed, StackOk, Pending, SoundFrom, Given, Extends, Impossible, Ham.Synced;
      ghost var s := St();
      var v, w := gr.v1[i], gr.v2[i];
      status := DUNNO;
      if cls[i] == Yes {
        Clash(gr, init, s, i);
        status := NO;
      } else if cls[i] == Dunno {
        if dout[v] == 0 {
          TakeOut(init, i, nin, v, w);
        } else {
          NoRoomOut(gr, init, s, v, w, i);
          status := NO;
        }
      } else {
        GivenMore(gr, init, s, i);
      }
    }

    method TakeOut(init: seq<Class>, i: nat, ghost nin: nat, v: nat, w: nat)
      requires Giving(init, nin, i) && i < gr.ne && init[i] == No && OpenEdge(gr, St(), v, w, i)
      modifies cls, dout, onstack, this`stack, this`classstack
      ensures Giving(init, nin, i + 1)
    {
      hide Tally, Live, Doomed, StackOk, Pending, SoundFrom, Given, Extends, Ham.Synced, Undoable;
      ghost var s, a, was := St(), classstack, Members(stack);
      UndoOut(gr, s, a, v, w, i);
      OutStanding(gr, s, comp, nin, v, w, i);
      ClassOut(v, w, i);
      UndoStacks(gr, s, a, St(), classstack);
      Push(v);
      Push(w);
      OutEnds(gr, s, v, w, i, was, Members(stack));
      SoundOut(gr, init, s, v, w, i);
      GivenKept(gr, init, s, St(), i);
      GivenMore(gr, init, St(), i);
    }

    // One initially forced edge.
    method Force(init: seq<Class>, i: nat, nin: nat) returns (status: Status, nin2: nat)
      requires Giving(init, nin, i) && i < gr.ne && init[i] == Yes
      modifies cls, din, dout, farend, onstack, this`stack, this`classstack, this`comp
      ensures status == DUNNO ==> Giving(init, nin2, i + 1)
      ensures status != DUNNO ==> status == NO && Impossible(gr, init)
    {
      hide Tally, Live, Doomed, StackOk, Pending, SoundFrom, Given, Extends, Impossible, SoundIf, Ham.Synced;
      ghost var s, a, was := St(), classstack, Members(stack);
      var v, w := gr.v1[i], gr.v2[i];
      status, nin2 := DUNNO, nin;
      if cls[i] == No {
        Clash(gr, init, s, i);
        status := NO;
      } else if cls[i] == Dunno {
        if din[v] < 2 {
          nin2 := ClassIn(v, w, i, nin);
          ghost var t, now := St(), Members(stack);
          UndoStacks(gr, s, a, t, classstack);
          Push(v);
          Push(w);
          PendingEnds(gr, s, t, v, w, was, now, Members(stack));
          SoundIn(gr, init, s, t, i);
          GivenKept(gr, init, s, t, i);
          GivenMore(gr, init, t, i);
        } else {
          NoRoomIn(gr, init, s, v, w, i);
          status := NO;
        }
      } else {
        GivenMore(gr, init, s, i);
      }
    }

    // The loop over the initial classes.
    method GiveClasses(init: seq<Class>) returns (status: Status, nin: nat)
      requires Giving(init, 0, 0)
      modifies cls, din, dout, farend, onstack, this`stack, this`classstack, this`comp
      ensures status == DUNNO ==> Giving(init, nin, gr.ne)
      ensures status != DUNNO ==> status == NO && Impossible(gr, init)
    {
      hide Tally, Live, Doomed, StackOk, Pending, SoundFrom, Extends, Impossible, Ham.Synced;
      status, nin := DUNNO, 0;
      var i := 0;
      while i < gr.ne && status == DUNNO
        invariant 0 <= i <= gr.ne
        invariant status == DUNNO ==> Giving(init, nin, i)
        invariant status != DUNNO ==> status == NO && Impossible(gr, init)
      {
        if init[i] == No {
          status := Forbid(init, i, nin);
        } else if init[i] == Yes {
          status, nin := Force(init, i, nin);
        } else {
          GivenMore(gr, init, St(), i);
        }
        i := i + 1;
      }
    }

    // Follow the edges in from vertex 0.
    method WalkCycle() returns (cycle: seq<nat>)
      requires gr.nv > 0 && Found()
      ensures |cycle| == gr.nv && Walk(gr, YesSet(gr, cls[..]), cycle)
    {
      hide Walk, Tally, CycleFormed, Pending, Graph.HamSet;
      WalkFrom(gr, St(), gr.nv);
      cycle := [0];
      var w, v, i := -1, 0, 1;
      while i < gr.nv
        invariant 1 <= i == |cycle| <= gr.nv && v == cycle[i - 1] && w == if i > 1 then cycle[i - 2] else -1
        invariant Walk(gr, YesSet(gr, cls[..]), cycle)
      {
        var j := NextSlot(cycle, v, w);
        WalkOn(gr, St(), cycle, j, w);
        w := v;
        v := gr.g[v][j];
        cycle := cycle + [v];
        i := i + 1;
      }
    }

    method NextSlot(ghost c: seq<nat>, v: nat, w: int) returns (j: nat)
      requires gr.nv > 0 && Found() && |c| > 0 && c[|c| - 1] == v && gr.HamSet(YesSet(gr, cls[..]))
      requires Walk(gr, YesSet(gr, cls[..]), c)
      ensures j < 3 && v < gr.nv && TakesSlot(gr, St(), v, j, w)
    {
      hide Tally, CycleFormed, Pending, Graph.HamSet;
      WalkSlot(gr, St(), c, v, w);
      ghost var i :| 0 <= i < 3 && TakesSlot(gr, St(), v, i, w);
      j := 0;
      while gr.g[v][j] == w || cls[gr.eno[v][j]] != Yes
        invariant 0 <= j <= i
        decreases i - j
      {
        j := j + 1;
      }
    }

    // cubham: find a Hamiltonian cycle with the forced edges and without the forbidden ones.
    // tree holds the nodes of the search, none when an answer is found before it.
    method Cubham(init: seq<Class>)
      returns (status: Status, cycle: seq<nat>, outclass: seq<Class>, ghost tree: Forest)
      requires gr.nv > 0 && Shaped() && |init| == gr.ne
      modifies cls, din, dout, farend, onstack, this`stack, this`stacklev, this`classstack, this`comp, this`nodecount
      ensures status == YES ==> gr.HamCycle(cycle) && Consistent(gr, init, cycle)
      ensures status == YES ==> |outclass| == gr.ne && forall e :: 0 <= e < gr.ne ==>
        outclass[e] == if gr.OnCycle(cycle, e) then Yes else No
      ensures status == NO ==> forall c :: gr.HamCycle(c) ==> !Consistent(gr, init, c)
      ensures status == YES || status == NO || status == HABORT
      ensures nodecount == old(nodecount) + |Visited(tree)| <= old(nodecount) + Most(gr.ne)
      ensures tree == None ==> status == NO
      ensures tree != None ==> Within(old(nodecount), status) && Searched(gr, init, tree)
      ensures status == HABORT ==> !noLimit && maxnodes < old(nodecount) + Most(gr.ne)
    {
      hide Tally, Live, Doomed, StackOk, Pending, SoundFrom, Impossible, Ham.Synced, Blank, Consistent, Given,
        Extends, Undoable, Walk, Hopeless, Graph.HamCycle, Graph.OnCycle, Below, Searched, Most;
      cycle, outclass, tree := [], [], None;
      Reset();
      var low := CheckDegrees();
      if low >= 0 {
        LowImpossible(gr, init, low);
        NoCycle(gr, init);
        return NO, cycle, outclass, tree;
      }
      BlankSound(gr, init, St());
      EmptyStackOk(gr);
      var nin: nat;
      status, nin := GiveClasses(init);
      ghost var s := St();
      if status == DUNNO {
        ghost var below;
        status, below := HamNode(nin);
        tree := Tree(None, s, below);
        OneTree(gr, init, s, below);
        if status == NO { HopelessImpossible(gr, init, s); }
      }
      if status == NO {
        NoCycle(gr, init);
      }
      if status == YES {
        GivenKept(gr, init, s, St(), gr.ne);
        cycle := WalkCycle();
        Answer(gr, init, St(), gr.nv, cycle);
        outclass := cls[..gr.ne];
      }
    }
  }

  // The tree of a whole search: its root has the initial classes and loses no cycle that agrees with them.
  ghost predicate Searched(gr: Graph, init: seq<Class>, tree: Forest) {
    && tree.Tree? && tree.before == None && Tally(gr, tree.at) && Given(gr, init, tree.at, gr.ne)
    && SoundFrom(gr, init, tree.at) && Below(gr, tree.at, tree.below)
  }

  lemma OneTree(gr: Graph, init: seq<Class>, s: Node, below: Forest)
    requires Tally(gr, s) && Given(gr, init, s, gr.ne) && SoundFrom(gr, init, s) && Below(gr, s, below)
    ensures Searched(gr, init, Tree(None, s, below))
    ensures |Visited(Tree(None, s, below))| == 1 + Size(below) <= Most(gr.ne)
  {
    hide Given, SoundFrom, Below, Most;
    BelowDistinct(gr, s, below);
    BelowFew(gr, s, below);
    SizeMonotone(OpenEdges(gr, s), Range(gr.ne));
    MostGrows(|OpenEdges(gr, s)|, gr.ne);
  }

  // The third edge of v goes out during propagation.
  lemma ThirdOut(gr: Graph, s: Node, a: seq<int>, t: Node, b: seq<int>, comp: seq<nat>, nin: int, v: nat, w: nat,
                 en: nat, was: set<nat>)
    requires OpenEdge(gr, t, v, w, en) && Tally(gr, t) && (Doomed(t) || Live(gr, t, comp, nin)) && t.dout[v] == 0
    requires t.din[v] == 2
    requires Undoable(gr, s, a, t, b) && Extends(s, t) && Sound(gr, s, t) && Pending(gr, t, {v} + was)
    ensures v < gr.nv && w < gr.nv && en < |t.cls|
    ensures var u := OutNode(t, v, w, en);
      && Tally(gr, u) && (Doomed(u) || Live(gr, u, comp, nin)) && Undoable(gr, s, a, u, b + [en]) && Extends(s, u)
      && Sound(gr, s, u)
      && Pending(gr, u, {} + (was + {w})) && |OpenEdges(gr, u)| < |OpenEdges(gr, t)|
  {
    hide Live, Doomed, Unwound, StackOk, Graph.HamSet, Agrees, Sound, Pending, Extends, Tally, Undoable;
    UndoStacks(gr, s, a, t, b);
    UndoneGraph(gr, s, a, t, b);
    OutSound(gr, t, v, w, en);
    UndoOut(gr, t, b, v, w, en);
    OutStanding(gr, t, comp, nin, v, w, en);
    var u := OutNode(t, v, w, en);
    OutPending(gr, t, v, w, en, was, was + {w});
    UndoBoth(gr, s, a, t, b, u, b + [en]);
    SoundTwice(gr, s, t, u);
    ExtendsTwice(s, t, u);
    FewerOpen(gr, t, u, en);
  }

  lemma UndoneGraph(gr: Graph, s: Node, a: seq<int>, t: Node, b: seq<int>)
    requires Undoable(gr, s, a, t, b)
    ensures gr.Ok() && Sized(gr, t)
  {
  }

  // The edge is left out in the search.
  lemma TriedOut(gr: Graph, t: Node, b: seq<int>, comp: seq<nat>, nin: int, v: nat, w: nat, en: nat)
    requires gr.Ok() && OpenEdge(gr, t, v, w, en) && Tally(gr, t) && (Doomed(t) || Live(gr, t, comp, nin))
    requires StackOk(gr, b) && Pending(gr, t, {})
    ensures v < gr.nv && w < gr.nv && en < |t.cls|
    ensures var u := OutNode(t, v, w, en);
      && Tally(gr, u) && (Doomed(u) || Live(gr, u, comp, nin)) && Undoable(gr, t, b, u, b + [en])
      && StackOk(gr, b + [en]) && Extends(t, u)
      && Pending(gr, u, {v, w}) && |OpenEdges(gr, u)| < |OpenEdges(gr, t)|
  {
    hide Live, Doomed, Unwound, StackOk, Graph.HamSet, Agrees, Pending, Extends, Tally, Undoable;
    UndoOut(gr, t, b, v, w, en);
    OutStanding(gr, t, comp, nin, v, w, en);
    var u := OutNode(t, v, w, en);
    UndoStacks(gr, t, b, u, b + [en]);
    FewerOpen(gr, t, u, en);
    OutWaits(gr, t, v, w, en, {v, w});
  }

  // All edges of v have been given a class.
  lemma OneSettles(gr: Graph, s: Node, v: nat, waiting: set<nat>)
    requires Tally(gr, s) && v < gr.nv && SlotsGiven(gr, s, v, 3) && 1 <= s.dout[v] && (s.dout[v] == 1 || v in waiting)
    requires Pending(gr, s, {v} + waiting)
    ensures Pending(gr, s, {} + waiting)
  {
    AllSlots(gr, s, v);
    hide Tally, Pending, SlotsGiven;
    Settle(gr, s, v, waiting);
  }

  lemma NoSlots(gr: Graph, s: Node, v: nat)
    requires gr.Ok() && v < gr.nv && |s.cls| == gr.ne + 1
    ensures SlotsGiven(gr, s, v, 0)
  {
  }

  lemma MoreSlots(gr: Graph, s: Node, v: nat, i: nat)
    requires gr.Ok() && v < gr.nv && |s.cls| == gr.ne + 1 && i < 3 && SlotsGiven(gr, s, v, i)
    requires gr.eno[v][i] <= gr.ne && s.cls[gr.eno[v][i]] != Dunno
    ensures SlotsGiven(gr, s, v, i + 1)
  {
  }
}
