// The linked list of the cover and the list of free cubes.
module EsopPool {
  import opened EsopCube

  // ID, fMark, Prev and Next of a cube; -1 is the null pointer.
  datatype Info = Info(id: nat, mark: bool, prev: int, next: int)

  function At(hs: seq<nat>, i: int): int {
    if 0 <= i < |hs| then hs[i] else -1
  }

  ghost predicate Distinct(hs: seq<nat>) {
    forall i, j :: 0 <= i < j < |hs| ==> hs[i] != hs[j]
  }

  ghost predicate LinkOk(info: seq<Info>, hs: seq<nat>, i: int) {
    0 <= i < |hs| ==> hs[i] < |info| && info[hs[i]].next == At(hs, i + 1) && info[hs[i]].prev == At(hs, i - 1)
  }

  // The doubly linked list from head holds the cubes hs.
  ghost predicate Listed(info: seq<Info>, head: int, hs: seq<nat>) {
    head == At(hs, 0) && Distinct(hs) && forall i :: 0 <= i < |hs| ==> LinkOk(info, hs, i)
  }

  ghost predicate ChainOk(info: seq<Info>, hs: seq<nat>, i: int) {
    0 <= i < |hs| ==> hs[i] < |info| && info[hs[i]].next == At(hs, i + 1) && info[hs[i]].prev == -1
  }

  // The singly linked list from head holds the cubes hs.
  ghost predicate Chained(info: seq<Info>, head: int, hs: seq<nat>) {
    head == At(hs, 0) && Distinct(hs) && forall i :: 0 <= i < |hs| ==> ChainOk(info, hs, i)
  }

  lemma ListedRange(info: seq<Info>, head: int, hs: seq<nat>)
    requires Listed(info, head, hs)
    ensures -1 <= head < |info| && forall h :: h in hs ==> h < |info|
  {
    if hs != [] { assert LinkOk(info, hs, 0); }
    forall h | h in hs ensures h < |info| {
      var i :| 0 <= i < |hs| && hs[i] == h;
      assert LinkOk(info, hs, i);
    }
  }

  predicate Loose(info: seq<Info>, p: nat) {
    p < |info| && info[p].prev == -1 && info[p].next == -1
  }

  function AfterInsert(info: seq<Info>, head: int, p: nat): seq<Info>
    requires p < |info| && -1 <= head < |info|
  {
    if head == -1 then info
    else
      var t := info[p := info[p].(next := head)];
      t[head := t[head].(prev := p)]
  }

  lemma InsertListed(info: seq<Info>, head: int, hs: seq<nat>, p: nat)
    requires Listed(info, head, hs) && Loose(info, p) && p !in hs
    ensures -1 <= head < |info| && Listed(AfterInsert(info, head, p), p, [p] + hs)
  {
    ListedRange(info, head, hs);
    var t, ps := AfterInsert(info, head, p), [p] + hs;
    forall i | 0 <= i < |ps| ensures LinkOk(t, ps, i) {
      if i > 0 {
        assert ps[i] == hs[i - 1] && LinkOk(info, hs, i - 1);
        if i > 1 { assert hs[i - 1] != hs[0]; }
        assert At(ps, i + 1) == At(hs, i);
      } else {
        assert At(ps, 1) == At(hs, 0);
      }
    }
  }

  function AfterExtract(info: seq<Info>, head: int, p: nat): seq<Info>
    requires p < |info| && -1 <= info[p].prev < |info| && -1 <= info[p].next < |info|
  {
    var t := if head == p || info[p].prev == -1 then info
      else info[info[p].prev := info[info[p].prev].(next := info[p].next)];
    var u := if info[p].next == -1 then t else t[info[p].next := t[info[p].next].(prev := info[p].prev)];
    u[p := u[p].(prev := -1, next := -1)]
  }

  // What extraction does to one cube.
  lemma ExtractAt(info: seq<Info>, head: int, p: nat, h: nat)
    requires p < |info| && -1 <= info[p].prev < |info| && -1 <= info[p].next < |info| && h < |info|
    requires info[p].prev != p && info[p].next != p
    ensures var t := AfterExtract(info, head, p);
      |t| == |info| && t[h].id == info[h].id && t[h].mark == info[h].mark
      && t[h].prev == (if h == p then -1 else if h == info[p].next then info[p].prev else info[h].prev)
      && t[h].next == (if h == p then -1 else if head != p && h == info[p].prev then info[p].next else info[h].next)
  {
  }

  lemma ExtractRange(info: seq<Info>, head: int, hs: seq<nat>, k: nat)
    requires Listed(info, head, hs) && k < |hs|
    ensures var p := hs[k];
      && p < |info| && -1 <= info[p].prev < |info| && -1 <= info[p].next < |info| && info[p].prev != p
      && info[p].next != p
      && info[p].prev == At(hs, k - 1) && info[p].next == At(hs, k + 1) && (head == p <==> k == 0)
  {
    assert LinkOk(info, hs, k);
    if k > 0 { assert LinkOk(info, hs, k - 1); }
    if k + 1 < |hs| { assert LinkOk(info, hs, k + 1); }
  }

  lemma ExtractListed(info: seq<Info>, head: int, hs: seq<nat>, k: nat)
    requires Listed(info, head, hs) && k < |hs|
    ensures var p := hs[k];
      && p < |info| && -1 <= info[p].prev < |info| && -1 <= info[p].next < |info|
      && (head == p <==> k == 0) && (k > 0 ==> info[p].prev >= 0)
      && Listed(AfterExtract(info, head, p), if k == 0 then info[p].next else head, Without(hs, k))
  {
    hide AfterExtract;
    ExtractRange(info, head, hs, k);
    WithoutMembers(hs, k);
    var p, t, ps := hs[k], AfterExtract(info, head, hs[k]), Without(hs, k);
    forall i | 0 <= i < |ps| ensures LinkOk(t, ps, i) {
      var j := if i < k then i else i + 1;
      assert ps[i] == hs[j] && LinkOk(info, hs, j);
      ExtractAt(info, head, p, hs[j]);
      assert At(ps, i + 1) == if j + 1 == k then At(hs, k + 1) else At(hs, j + 1);
      assert At(ps, i - 1) == if j - 1 == k then At(hs, k - 1) else At(hs, j - 1);
      assert (hs[j] == info[p].next <==> j == k + 1) && (hs[j] == info[p].prev <==> j == k - 1);
    }
  }

  ghost predicate SameLinks(info: seq<Info>, t: seq<Info>, hs: seq<nat>) {
    |t| == |info| && forall h: nat :: h in hs && h < |info| ==> t[h].next == info[h].next && t[h].prev == info[h].prev
  }

  // Changing the links of other cubes keeps a list.
  lemma ListedFrame(info: seq<Info>, t: seq<Info>, head: int, hs: seq<nat>)
    requires Listed(info, head, hs) && SameLinks(info, t, hs)
    ensures Listed(t, head, hs)
  {
    forall i | 0 <= i < |hs| ensures LinkOk(t, hs, i) { assert LinkOk(info, hs, i); }
  }

  lemma ChainedFrame(info: seq<Info>, t: seq<Info>, head: int, hs: seq<nat>)
    requires Chained(info, head, hs) && SameLinks(info, t, hs)
    ensures Chained(t, head, hs)
  {
    forall i | 0 <= i < |hs| ensures ChainOk(t, hs, i) { assert ChainOk(info, hs, i); }
  }

  // What extraction and insertion leave alone.
  lemma InsertFrame(info: seq<Info>, head: int, hs: seq<nat>, p: nat, h: nat)
    requires Listed(info, head, hs) && p < |info| && h < |info|
    ensures -1 <= head < |info|
    ensures var t := AfterInsert(info, head, p);
      |t| == |info| && t[h].id == info[h].id && t[h].mark == info[h].mark && (h != p && h !in hs ==> t[h] == info[h])
  {
    ListedRange(info, head, hs);
    if head != -1 { assert hs[0] in hs; }
  }

  lemma ExtractFrame(info: seq<Info>, head: int, hs: seq<nat>, k: nat, h: nat)
    requires Listed(info, head, hs) && k < |hs| && h < |info|
    ensures var p := hs[k];
      && p < |info| && -1 <= info[p].prev < |info| && -1 <= info[p].next < |info|
      && var t := AfterExtract(info, head, p);
        |t| == |info| && t[h].id == info[h].id && t[h].mark == info[h].mark && (h !in hs ==> t[h] == info[h]) &&
        Loose(t, p)
  {
    ExtractRange(info, head, hs, k);
    ExtractAt(info, head, hs[k], h);
    ExtractAt(info, head, hs[k], hs[k]);
  }

  lemma ChainPush(info: seq<Info>, head: int, hs: seq<nat>, p: nat, t: seq<Info>)
    requires Chained(info, head, hs) && Loose(info, p) && p !in hs && t == info[p := info[p].(next := head, id := 0)]
    ensures Chained(t, p, [p] + hs)
  {
    var ps := [p] + hs;
    forall i | 0 <= i < |ps| ensures ChainOk(t, ps, i) {
      if i > 0 { assert ps[i] == hs[i - 1] && ChainOk(info, hs, i - 1) && At(ps, i + 1) == At(hs, i); }
      else { assert At(ps, 1) == At(hs, 0); }
    }
  }

  lemma ChainPop(info: seq<Info>, head: int, hs: seq<nat>)
    requires Chained(info, head, hs) && hs != []
    ensures 0 <= head < |info| && head == hs[0] && hs[0] !in hs[1..] && info[head].prev == -1
    ensures Chained(info[head := info[head].(next := -1)], info[head].next, hs[1..])
  {
    assert ChainOk(info, hs, 0);
    var t, ps := info[head := info[head].(next := -1)], hs[1..];
    forall i | 0 <= i < |ps| ensures ChainOk(t, ps, i) {
      assert ps[i] == hs[i + 1] && ChainOk(info, hs, i + 1) && At(ps, i + 1) == At(hs, i + 2);
    }
    assert At(ps, 0) == At(hs, 1);
  }

  lemma ListedDistinct(info: seq<Info>, head: int, hs: seq<nat>)
    requires Listed(info, head, hs)
    ensures Distinct(hs)
  {
  }

  // Removing one element of a list without repetition.
  lemma WithoutMembers(hs: seq<nat>, k: nat)
    requires Distinct(hs) && k < |hs|
    ensures Distinct(Without(hs, k)) && forall h :: h in Without(hs, k) <==> h in hs && h != hs[k]
  {
    forall h ensures h in Without(hs, k) <==> h in hs && h != hs[k] {
      if h in hs && h != hs[k] {
        var i :| 0 <= i < |hs| && hs[i] == h;
        assert h == if i < k then Without(hs, k)[i] else Without(hs, k)[i - 1];
      }
    }
  }
}
