// The variable order of the solver: a binary max-heap on activity with an index from
// variables to heap positions.
module SatHeap {
  function Parent(i: int): int { (i - 1) / 2 }

  // pos is the exact inverse of heap, -1 for the variables that are not in it.
  ghost predicate Indexed(n: nat, heap: seq<nat>, pos: seq<int>) {
    && |pos| == n
    && (forall i :: 0 <= i < |heap| ==> heap[i] < n && pos[heap[i]] == i)
    && (forall v :: 0 <= v < n ==> pos[v] == -1 || (0 <= pos[v] < |heap| && heap[pos[v]] == v))
  }

  ghost predicate Above(act: seq<nat>, heap: seq<nat>, i: int, j: int)
    requires 0 <= i < |heap| && 0 <= j < |heap|
  {
    heap[i] < |act| && heap[j] < |act| && act[heap[i]] >= act[heap[j]]
  }

  ghost predicate HeapOrdered(act: seq<nat>, heap: seq<nat>) {
    forall j :: 0 < j < |heap| ==> Above(act, heap, Parent(j), j)
  }

  // Ordered but for position i, which may be too large for its parent.
  ghost predicate OrderedBelow(act: seq<nat>, heap: seq<nat>, i: int) {
    && (forall j :: 0 < j < |heap| && j != i ==> Above(act, heap, Parent(j), j))
    && (forall j :: 0 < j < |heap| && Parent(j) == i && 0 < i ==> Above(act, heap, Parent(i), j))
  }

  // Ordered but for position i, which may be too small for its children.
  ghost predicate OrderedAbove(act: seq<nat>, heap: seq<nat>, i: int) {
    && (forall j :: 0 < j < |heap| && Parent(j) != i ==> Above(act, heap, Parent(j), j))
    && (forall j :: 0 < j < |heap| && Parent(j) == i && 0 < i ==> Above(act, heap, Parent(i), j))
  }

  ghost predicate HeapOk(n: nat, act: seq<nat>, heap: seq<nat>, pos: seq<int>) {
    |act| == n && Indexed(n, heap, pos) && HeapOrdered(act, heap)
  }

  function Exchanged(heap: seq<nat>, i: int, j: int): seq<nat>
    requires 0 <= i < |heap| && 0 <= j < |heap|
  {
    heap[i := heap[j]][j := heap[i]]
  }

  function Repositioned(pos: seq<int>, heap: seq<nat>, i: int, j: int): seq<int>
    requires 0 <= i < |heap| && 0 <= j < |heap| && heap[i] < |pos| && heap[j] < |pos|
  {
    pos[heap[j] := i][heap[i] := j]
  }

  lemma ExchangeIndexed(n: nat, heap: seq<nat>, pos: seq<int>, i: int, j: int)
    requires Indexed(n, heap, pos) && 0 <= i < |heap| && 0 <= j < |heap| && i != j
    ensures Indexed(n, Exchanged(heap, i, j), Repositioned(pos, heap, i, j))
    ensures forall v :: 0 <= v < n ==> (Repositioned(pos, heap, i, j)[v] == -1 <==> pos[v] == -1)
  {
  }

  // Moving position i up past its smaller parent.
  lemma SiftUpStep(n: nat, act: seq<nat>, heap: seq<nat>, pos: seq<int>, i: int)
    requires |act| == n && Indexed(n, heap, pos) && 0 < i < |heap| && OrderedBelow(act, heap, i)
    requires act[heap[i]] > act[heap[Parent(i)]]
    ensures OrderedBelow(act, Exchanged(heap, i, Parent(i)), Parent(i))
  {
    var h := Exchanged(heap, i, Parent(i));
    var p := Parent(i);
    forall j | 0 < j < |h| && j != p ensures Above(act, h, Parent(j), j) {
      assert 0 <= Parent(j) < j;
      assert j != i ==> Above(act, heap, Parent(j), j);
      if Parent(j) == p && j != i { assert Above(act, heap, p, j); }
    }
    forall j | 0 < j < |h| && Parent(j) == p && 0 < p ensures Above(act, h, Parent(p), j) {
      assert Above(act, heap, Parent(p), p);
      assert j != i ==> Above(act, heap, p, j);
    }
  }

  lemma SiftUpDone(act: seq<nat>, heap: seq<nat>, i: int)
    requires 0 <= i < |heap| && OrderedBelow(act, heap, i) && heap[i] < |act|
    requires i == 0 || (heap[Parent(i)] < |act| && act[heap[i]] <= act[heap[Parent(i)]])
    ensures HeapOrdered(act, heap)
  {
  }

  // Moving position i down past its larger child c.
  lemma SiftDownStep(n: nat, act: seq<nat>, heap: seq<nat>, pos: seq<int>, i: int, c: int)
    requires |act| == n && Indexed(n, heap, pos) && 0 <= i && 0 < c < |heap| && Parent(c) == i
    requires OrderedAbove(act, heap, i)
    requires act[heap[i]] < act[heap[c]]
    requires forall j :: 0 < j < |heap| && Parent(j) == i ==> act[heap[j]] <= act[heap[c]]
    ensures OrderedAbove(act, Exchanged(heap, i, c), c)
  {
    var h := Exchanged(heap, i, c);
    forall j | 0 < j < |h| && Parent(j) != c ensures Above(act, h, Parent(j), j) {
      assert 0 <= Parent(j) < j;
      if Parent(j) != i { assert Above(act, heap, Parent(j), j); }
      if j == i { assert Above(act, heap, Parent(i), c); }
    }
    forall j | 0 < j < |h| && Parent(j) == c && 0 < c ensures Above(act, h, Parent(c), j) {
      assert Above(act, heap, c, j);
    }
  }

  lemma SiftDownDone(act: seq<nat>, heap: seq<nat>, i: int)
    requires 0 <= i < |heap| && OrderedAbove(act, heap, i) && heap[i] < |act|
    requires forall j :: 0 < j < |heap| && Parent(j) == i ==> heap[j] < |act| && act[heap[j]] <= act[heap[i]]
    ensures HeapOrdered(act, heap)
  {
  }

  // The root of the heap has the largest activity.
  lemma {:induction false} RootIsMaximum(act: seq<nat>, heap: seq<nat>, i: int)
    requires HeapOrdered(act, heap) && 0 <= i < |heap| && heap[0] < |act|
    ensures Above(act, heap, 0, i)
  {
    if i > 0 {
      assert Above(act, heap, Parent(i), i);
      RootIsMaximum(act, heap, Parent(i));
    }
  }

  // Raising one activity can only break the order at that variable.
  lemma BumpOrdered(n: nat, act: seq<nat>, heap: seq<nat>, pos: seq<int>, v: nat, a: nat)
    requires HeapOk(n, act, heap, pos) && v < n && a >= act[v]
    ensures pos[v] == -1 ==> HeapOk(n, act[v := a], heap, pos)
    ensures pos[v] != -1 ==> OrderedBelow(act[v := a], heap, pos[v])
  {
    var act' := act[v := a];
    forall j | 0 < j < |heap| && j != pos[v] ensures Above(act', heap, Parent(j), j) {
      assert Above(act, heap, Parent(j), j);
    }
    if pos[v] != -1 {
      var i := pos[v];
      forall j | 0 < j < |heap| && Parent(j) == i && 0 < i ensures Above(act', heap, Parent(i), j) {
        assert Above(act, heap, Parent(i), i);
        assert Above(act, heap, i, j);
      }
    }
  }

  function Rescaled(act: seq<nat>): (r: seq<nat>)
    ensures |r| == |act| && forall v :: 0 <= v < |act| ==> r[v] == act[v] / 0x80000
  {
    seq(|act|, v requires 0 <= v < |act| => act[v] / 0x80000)
  }

  lemma RescaleAbove(act: seq<nat>, heap: seq<nat>, i: int, j: int)
    requires 0 <= i < |heap| && 0 <= j < |heap| && Above(act, heap, i, j)
    ensures Above(Rescaled(act), heap, i, j)
  {
  }

  lemma RescaleOrdered(act: seq<nat>, heap: seq<nat>, i: int)
    ensures HeapOrdered(act, heap) ==> HeapOrdered(Rescaled(act), heap)
    ensures OrderedBelow(act, heap, i) ==> OrderedBelow(Rescaled(act), heap, i)
  {
    forall j, k | 0 <= j < |heap| && 0 <= k < |heap| && Above(act, heap, j, k)
      ensures Above(Rescaled(act), heap, j, k)
    {
      RescaleAbove(act, heap, j, k);
    }
  }

  // ---- The loops: position i is a hole into which x is going to be written ----

  ghost predicate Hole(n: nat, act: seq<nat>, heap: seq<nat>, pos: seq<int>, x: nat, i: int) {
    && |act| == n && |pos| == n && x < n && 0 <= i < |heap|
    && Indexed(n, heap[i := x], pos[x := i])
  }

  ghost predicate SameMembers(pos: seq<int>, was: seq<int>, x: nat) {
    |pos| == |was| && forall u :: 0 <= u < |pos| && u != x ==> (pos[u] == -1 <==> was[u] == -1)
  }

  lemma TopHole(n: nat, act: seq<nat>, heap: seq<nat>, pos: seq<int>, x: nat)
    requires |act| == |pos| == n && x < n && heap != [] && Indexed(n, heap[0 := x], pos[x := 0])
    ensures Hole(n, act, heap, pos, x, 0) && SameMembers(pos, pos, x)
  {
  }

  lemma HoleFacts(n: nat, act: seq<nat>, heap: seq<nat>, pos: seq<int>, x: nat, i: int, k: int)
    requires Hole(n, act, heap, pos, x, i) && 0 <= k < |heap| && k != i
    ensures heap[k] < n && heap[k] != x && heap[i := x][k] == heap[k]
  {
    assert heap[i := x][k] == heap[k];
    assert heap[i := x][i] == x;
  }

  lemma HoleMove(n: nat, act: seq<nat>, heap: seq<nat>, pos: seq<int>, was: seq<int>, x: nat, i: int, k: int)
    requires Hole(n, act, heap, pos, x, i) && 0 <= k < |heap| && k != i && SameMembers(pos, was, x)
    ensures heap[k] < n
    ensures Hole(n, act, heap[i := heap[k]], pos[heap[k] := i], x, k) && SameMembers(pos[heap[k] := i], was, x)
    ensures heap[i := heap[k]][k := x] == Exchanged(heap[i := x], i, k)
  {
    HoleFacts(n, act, heap, pos, x, i, k);
    var h, p := heap[i := x], pos[x := i];
    ExchangeIndexed(n, h, p, i, k);
    assert heap[i := heap[k]][k := x] == Exchanged(h, i, k);
    assert pos[heap[k] := i][x := k] == Repositioned(p, h, i, k);
    assert p[h[k]] == k;
  }

  lemma SiftUpMove(n: nat, act: seq<nat>, heap: seq<nat>, pos: seq<int>, was: seq<int>, x: nat, i: int)
    requires Hole(n, act, heap, pos, x, i) && SameMembers(pos, was, x) && OrderedBelow(act, heap[i := x], i) && i > 0
    requires heap[Parent(i)] < n && act[x] > act[heap[Parent(i)]]
    ensures var k := Parent(i);
      0 <= k < i && Hole(n, act, heap[i := heap[k]], pos[heap[k] := i], x, k) &&
      SameMembers(pos[heap[k] := i], was, x) &&
      OrderedBelow(act, heap[i := heap[k]][k := x], k)
  {
    var k := Parent(i);
    HoleMove(n, act, heap, pos, was, x, i, k);
    HoleFacts(n, act, heap, pos, x, i, k);
    SiftUpStep(n, act, heap[i := x], pos[x := i], i);
  }

  lemma SiftUpFill(n: nat, act: seq<nat>, heap: seq<nat>, pos: seq<int>, x: nat, i: int)
    requires Hole(n, act, heap, pos, x, i) && OrderedBelow(act, heap[i := x], i)
    requires i == 0 || (heap[Parent(i)] < n && act[x] <= act[heap[Parent(i)]])
    ensures HeapOk(n, act, heap[i := x], pos[x := i])
  {
    if i > 0 { HoleFacts(n, act, heap, pos, x, i, Parent(i)); }
    SiftUpDone(act, heap[i := x], i);
  }

  // c is a larger child of i.
  ghost predicate LargerChild(act: seq<nat>, heap: seq<nat>, i: int, c: int) {
    && 0 <= i < c < |heap| && Parent(c) == i && heap[c] < |act|
    && forall j :: 0 < j < |heap| && Parent(j) == i ==> heap[j] < |act| && act[heap[j]] <= act[heap[c]]
  }

  lemma SiftDownMove(n: nat, act: seq<nat>, heap: seq<nat>, pos: seq<int>, was: seq<int>, x: nat, i: int, c: int)
    requires Hole(n, act, heap, pos, x, i) && SameMembers(pos, was, x) && OrderedAbove(act, heap[i := x], i)
    requires LargerChild(act, heap, i, c) && act[x] < act[heap[c]]
    ensures Hole(n, act, heap[i := heap[c]], pos[heap[c] := i], x, c) && SameMembers(pos[heap[c] := i], was, x)
    ensures OrderedAbove(act, heap[i := heap[c]][c := x], c)
  {
    HoleMove(n, act, heap, pos, was, x, i, c);
    HoleFacts(n, act, heap, pos, x, i, c);
    SiftDownStep(n, act, heap[i := x], pos[x := i], i, c);
  }

  lemma SiftDownFill(n: nat, act: seq<nat>, heap: seq<nat>, pos: seq<int>, x: nat, i: int)
    requires Hole(n, act, heap, pos, x, i) && OrderedAbove(act, heap[i := x], i)
    requires forall j :: 0 < j < |heap| && Parent(j) == i ==> heap[j] < n && act[heap[j]] <= act[x]
    ensures HeapOk(n, act, heap[i := x], pos[x := i])
  {
    SiftDownDone(act, heap[i := x], i);
  }

  lemma HoleAll(n: nat, act: seq<nat>, heap: seq<nat>, pos: seq<int>, x: nat, i: int)
    requires Hole(n, act, heap, pos, x, i)
    ensures forall k :: 0 <= k < |heap| && k != i ==> heap[k] < n
  {
    forall k | 0 <= k < |heap| && k != i ensures heap[k] < n { HoleFacts(n, act, heap, pos, x, i, k); }
  }

  lemma HeapSize(n: nat, act: seq<nat>, heap: seq<nat>, pos: seq<int>)
    requires HeapOk(n, act, heap, pos)
    ensures |pos| == n && |act| == n
    ensures heap == [] ==> forall v :: 0 <= v < n ==> pos[v] == -1
  {
  }

  // act_var_bump for integer activities: the new activities and the new increment.
  function Bumped(act: seq<nat>, inc: nat, v: nat): (seq<nat>, nat)
    requires v < |act|
  {
    var act' := act[v := act[v] + inc];
    if act'[v] / 0x80000000 % 2 == 1 then
      (Rescaled(act'), if inc / 0x80000 < 16 then 16 else inc / 0x80000)
    else (act', inc)
  }

  lemma BumpKeepsOrder(n: nat, act: seq<nat>, heap: seq<nat>, pos: seq<int>, inc: nat, v: nat)
    requires HeapOk(n, act, heap, pos) && v < n
    ensures |Bumped(act, inc, v).0| == n
    ensures pos[v] == -1 ==> HeapOk(n, Bumped(act, inc, v).0, heap, pos)
    ensures pos[v] != -1 ==> OrderedBelow(Bumped(act, inc, v).0, heap, pos[v])
  {
    BumpOrdered(n, act, heap, pos, v, act[v] + inc);
    RescaleOrdered(act[v := act[v] + inc], heap, pos[v]);
  }
}
