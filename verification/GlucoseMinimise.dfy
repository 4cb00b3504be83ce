// Minimisation of a learnt clause with the binary clauses of its first literal.
module GlucoseMinimise {
  import opened Cnf
  import opened SatState
  import opened SimpRecords

  // The positions from 1 on whose variables carry the mark.
  ghost predicate MarkedVars(learnt: Clause, perm: seq<nat>, flag: nat, wbin: seq<Lit>, k: nat) {
    k <= |wbin| && forall i :: 1 <= i < |learnt| ==>
    learnt[i].v < |perm| && (perm[learnt[i].v] == flag <==> learnt[i].Not() !in wbin[..k])
  }

  // The number of literals from position 1 up to i whose mark has been taken away.
  function Dropped(learnt: Clause, perm: seq<nat>, flag: nat, i: nat): nat
    requires 1 <= i <= |learnt| && forall j :: 0 <= j < |learnt| ==> learnt[j].v < |perm|
  {
    if i == 1 then 0 else Dropped(learnt, perm, flag, i - 1) + if perm[learnt[i - 1].v] != flag then 1 else 0
  }

  lemma {:induction false} DroppedNone(learnt: Clause, perm: seq<nat>, flag: nat, i: nat)
    requires 1 <= i <= |learnt| && (forall j :: 0 <= j < |learnt| ==> learnt[j].v < |perm|)
    requires forall j :: 1 <= j < i ==> perm[learnt[j].v] == flag
    ensures Dropped(learnt, perm, flag, i) == 0
  {
    if i > 1 { DroppedNone(learnt, perm, flag, i - 1); }
  }

  lemma {:induction false} DroppedSame(learnt: Clause, p: seq<nat>, q: seq<nat>, flag: nat, i: nat)
    requires 1 <= i <= |learnt| && |p| == |q| && (forall j :: 0 <= j < |learnt| ==> learnt[j].v < |p|)
    requires forall j :: 1 <= j < i ==> (p[learnt[j].v] == flag <==> q[learnt[j].v] == flag)
    ensures Dropped(learnt, p, flag, i) == Dropped(learnt, q, flag, i)
  {
    if i > 1 { DroppedSame(learnt, p, q, flag, i - 1); }
  }

  // One more mark is taken away.
  lemma {:induction false} DroppedOne(learnt: Clause, perm: seq<nat>, flag: nat, k: nat, x: nat, i: nat)
    requires k < i <= |learnt| && 1 <= k && DistinctVars(learnt)
    requires forall j :: 0 <= j < |learnt| ==> learnt[j].v < |perm|
    requires perm[learnt[k].v] == flag && x != flag
    ensures Dropped(learnt, perm[learnt[k].v := x], flag, i) == Dropped(learnt, perm, flag, i) + 1
  {
    if k == i - 1 {
      DroppedSame(learnt, perm, perm[learnt[k].v := x], flag, i - 1);
    } else {
      DroppedOne(learnt, perm, flag, k, x, i - 1);
    }
  }

  // Mark the variables from position 1 on.
  method MarkAll(learnt: Clause, perm0: seq<nat>, flag: nat) returns (perm: seq<nat>)
    requires learnt != [] && DistinctVars(learnt) && (forall j :: 0 <= j < |learnt| ==> learnt[j].v < |perm0|)
    requires forall v :: 0 <= v < |perm0| ==> perm0[v] < flag
    ensures |perm| == |perm0|
    ensures forall v :: 0 <= v < |perm| ==>
      perm[v] <= flag && (perm[v] == flag <==> exists j :: 1 <= j < |learnt| && learnt[j].v == v)
  {
    perm := perm0;
    for i := 1 to |learnt|
      invariant |perm| == |perm0|
      invariant forall v :: 0 <= v < |perm| ==>
        perm[v] <= flag && (perm[v] == flag <==> exists j :: 1 <= j < i && learnt[j].v == v)
    {
      perm := perm[learnt[i].v := flag];
    }
  }

  // Take the mark away from every variable whose literal is implied false by a binary clause
  // of the first literal; nb is their number.
  method Unmark(learnt: Clause, wbin: seq<Lit>, vals: seq<Value>, perm0: seq<nat>, flag: nat)
    returns (perm: seq<nat>, nb: nat)
    requires learnt != [] && DistinctVars(learnt) && flag > 0 && |vals| == |perm0|
    requires forall j :: 0 <= j < |learnt| ==> learnt[j].v < |perm0| && ModelValue(vals, learnt[j]) == Zero
    requires forall v :: 0 <= v < |perm0| ==>
      perm0[v] <= flag && (perm0[v] == flag <==> exists j :: 1 <= j < |learnt| && learnt[j].v == v)
    requires forall k :: 0 <= k < |wbin| ==> wbin[k].v < |vals|
    ensures |perm| == |perm0| && MarkedVars(learnt, perm, flag, wbin, |wbin|)
    ensures nb == Dropped(learnt, perm, flag, |learnt|)
    ensures forall v :: 0 <= v < |perm| ==> perm[v] <= flag
  {
    hide DistinctVars;
    perm, nb := perm0, 0;
    DroppedNone(learnt, perm, flag, |learnt|);
    for k := 0 to |wbin|
      invariant |perm| == |perm0| && MarkedVars(learnt, perm, flag, wbin, k)
      invariant nb == Dropped(learnt, perm, flag, |learnt|)
      invariant forall v :: 0 <= v < |perm| ==>
        perm[v] <= flag && (perm[v] == flag ==> exists j :: 1 <= j < |learnt| && learnt[j].v == v)
    {
      var imp := wbin[k];
      if perm[imp.v] == flag && ModelValue(vals, imp) == One {
        ghost var j :| 1 <= j < |learnt| && learnt[j].v == imp.v;
        Opposite(vals, learnt[j], imp);
        DroppedOne(learnt, perm, flag, j, flag - 1, |learnt|);
        UnmarkOne(learnt, perm, flag, wbin, k, j);
        nb := nb + 1;
        perm := perm[imp.v := flag - 1];
      } else {
        UnmarkNone(learnt, perm, flag, wbin, vals, k);
      }
    }
  }

  lemma Opposite(vals: seq<Value>, l: Lit, imp: Lit)
    requires l.v == imp.v < |vals| && ModelValue(vals, l) == Zero && ModelValue(vals, imp) == One
    ensures imp == l.Not()
  {
  }

  lemma UnmarkOne(learnt: Clause, perm: seq<nat>, flag: nat, wbin: seq<Lit>, k: nat, j: nat)
    requires MarkedVars(learnt, perm, flag, wbin, k) && k < |wbin| && DistinctVars(learnt) && flag > 0
    requires 1 <= j < |learnt| && wbin[k] == learnt[j].Not() && wbin[k].v < |perm|
    ensures MarkedVars(learnt, perm[wbin[k].v := flag - 1], flag, wbin, k + 1)
  {
    assert wbin[..k + 1] == wbin[..k] + [wbin[k]];
    forall i | 1 <= i < |learnt| && i != j ensures learnt[i].v != learnt[j].v { }
  }

  lemma UnmarkNone(learnt: Clause, perm: seq<nat>, flag: nat, wbin: seq<Lit>, vals: seq<Value>, k: nat)
    requires MarkedVars(learnt, perm, flag, wbin, k) && k < |wbin| && |vals| == |perm| && wbin[k].v < |perm|
    requires forall j :: 0 <= j < |learnt| ==> learnt[j].v < |perm| && ModelValue(vals, learnt[j]) == Zero
    requires perm[wbin[k].v] != flag || ModelValue(vals, wbin[k]) != One
    ensures MarkedVars(learnt, perm, flag, wbin, k + 1)
  {
    assert wbin[..k + 1] == wbin[..k] + [wbin[k]];
    forall i | 1 <= i < |learnt| && learnt[i].Not() == wbin[k] ensures perm[learnt[i].v] != flag {
      assert ModelValue(vals, learnt[i]) == Zero;
    }
  }

  // ---- The partition ----

  // out is a rearrangement of learnt with the first literal in place; what lies behind
  // position l has lost its mark, what lies before position i has it.
  ghost predicate Partition(learnt: Clause, out: Clause, perm: seq<nat>, flag: nat, nb: nat, i: nat, l: int) {
    && |out| == |learnt| && 1 <= i && i - 1 <= l < |out| && nb < |out| && multiset(out) == multiset(learnt)
    && out[0] == learnt[0]
    && (forall j :: 0 <= j < |out| ==> out[j].v < |perm|)
    && (forall j :: 1 <= j < i ==> j <= l && perm[out[j].v] == flag)
    && (forall j :: l < j < |out| ==> perm[out[j].v] != flag)
    && nb == Dropped(out, perm, flag, l + 1) + (|out| - 1 - l)
  }

  lemma {:induction false} DroppedPrefix(a: Clause, b: Clause, perm: seq<nat>, flag: nat, i: nat)
    requires 1 <= i <= |a| && i <= |b| && (forall j :: 0 <= j < |a| ==> a[j].v < |perm|)
    requires forall j :: 0 <= j < |b| ==> b[j].v < |perm|
    requires forall j :: 1 <= j < i ==> a[j] == b[j]
    ensures Dropped(a, perm, flag, i) == Dropped(b, perm, flag, i)
  {
    if i > 1 { DroppedPrefix(a, b, perm, flag, i - 1); }
  }

  // Replacing a literal without mark.
  lemma {:induction false} DroppedMove(a: Clause, perm: seq<nat>, flag: nat, k: nat, x: Lit, i: nat)
    requires 1 <= k < i <= |a| && (forall j :: 0 <= j < |a| ==> a[j].v < |perm|) && x.v < |perm| && perm[a[k].v] != flag
    ensures Dropped(a[k := x], perm, flag, i) == Dropped(a, perm, flag, i) - if perm[x.v] == flag then 1 else 0
    ensures Dropped(a, perm, flag, i) >= 1
  {
    if k == i - 1 {
      DroppedPrefix(a, a[k := x], perm, flag, i - 1);
    } else {
      DroppedMove(a, perm, flag, k, x, i - 1);
    }
  }

  lemma {:induction false} DroppedBound(a: Clause, perm: seq<nat>, flag: nat, i: nat, k: nat)
    requires 1 <= i <= k <= |a| && (forall j :: 0 <= j < |a| ==> a[j].v < |perm|)
    ensures Dropped(a, perm, flag, i) <= Dropped(a, perm, flag, k) <= Dropped(a, perm, flag, i) + (k - i)
    decreases k
  {
    if i < k { DroppedBound(a, perm, flag, i, k - 1); }
  }

  // The literal at i has no mark: exchange it with the one at l.
  lemma PartitionSwap(learnt: Clause, out: Clause, perm: seq<nat>, flag: nat, nb: nat, i: nat, l: int)
    requires Partition(learnt, out, perm, flag, nb, i, l) && i < |out| - nb && perm[out[i].v] != flag
    ensures i < l && Partition(learnt, out[l := out[i]][i := out[l]], perm, flag, nb, i, l - 1)
  {
    DroppedNone(out, perm, flag, i);
    assert Dropped(out, perm, flag, i + 1) == 1;
    assert i < l;
    DroppedBound(out, perm, flag, i + 1, l + 1);
    var r := out[l := out[i]][i := out[l]];
    DroppedMove(out, perm, flag, i, out[l], l + 1);
    DroppedPrefix(r, out[i := out[l]], perm, flag, l);
    assert Dropped(out[i := out[l]], perm, flag, l + 1) ==
        Dropped(out[i := out[l]], perm, flag, l) + if perm[out[l].v] != flag then 1 else 0;
    SwapMultiset(out, i, l);
  }

  lemma SwapMultiset(out: Clause, i: nat, l: nat)
    requires i < |out| && l < |out|
    ensures multiset(out[l := out[i]][i := out[l]]) == multiset(out)
  {
  }

  // At the end the last nb literals are the dropped ones.
  lemma PartitionEnd(learnt: Clause, out: Clause, perm: seq<nat>, flag: nat, nb: nat, i: nat, l: int)
    requires Partition(learnt, out, perm, flag, nb, i, l) && i >= |out| - nb
    ensures forall j :: 1 <= j < |out| - nb ==> perm[out[j].v] == flag
    ensures forall j :: |out| - nb <= j < |out| ==> perm[out[j].v] != flag
  {
    DroppedNone(out, perm, flag, |out| - nb);
    DroppedBound(out, perm, flag, |out| - nb, l + 1);
    AllDropped(out, perm, flag, |out| - nb, l + 1);
  }

  lemma {:induction false} AllDropped(a: Clause, perm: seq<nat>, flag: nat, i: nat, k: nat)
    requires 1 <= i <= k <= |a| && (forall j :: 0 <= j < |a| ==> a[j].v < |perm|)
    requires Dropped(a, perm, flag, k) == Dropped(a, perm, flag, i) + (k - i)
    ensures forall j :: i <= j < k ==> perm[a[j].v] != flag
    decreases k
  {
    if i < k {
      DroppedBound(a, perm, flag, i, k - 1);
      AllDropped(a, perm, flag, i, k - 1);
    }
  }

  lemma PartitionStart(learnt: Clause, perm: seq<nat>, flag: nat, nb: nat)
    requires learnt != [] && (forall j :: 0 <= j < |learnt| ==> learnt[j].v < |perm|)
    requires nb == Dropped(learnt, perm, flag, |learnt|)
    ensures Partition(learnt, learnt, perm, flag, nb, 1, |learnt| - 1)
  {
    DroppedBound(learnt, perm, flag, 1, |learnt|);
  }

  // minimisationWithBinaryResolution, when the clause is to be minimised: wbin are the other
  // literals of the binary clauses with the first literal.
  method MinimiseBinary(learnt: Clause, wbin: seq<Lit>, vals: seq<Value>, perm0: seq<nat>, flag0: nat)
    returns (out: Clause, perm: seq<nat>, flag: nat)
    requires learnt != [] && DistinctVars(learnt) && |vals| == |perm0|
    requires forall v :: 0 <= v < |perm0| ==> perm0[v] <= flag0
    requires forall j :: 0 <= j < |learnt| ==> learnt[j].v < |perm0| && ModelValue(vals, learnt[j]) == Zero
    requires forall k :: 0 <= k < |wbin| ==> wbin[k].v < |vals|
    ensures |perm| == |perm0| && forall v :: 0 <= v < |perm| ==> perm[v] <= flag
    ensures out != [] && out[0] == learnt[0] && DistinctVars(out)
    ensures forall l :: l in out <==> l in learnt && (l == learnt[0] || l.Not() !in wbin)
  {
    hide DistinctVars, MarkedVars, Partition;
    flag := flag0 + 1;
    perm := MarkAll(learnt, perm0, flag);
    var nb;
    perm, nb := Unmark(learnt, wbin, vals, perm, flag);
    out := learnt;
    var l := |learnt| - 1;
    var i := 1;
    PartitionStart(learnt, perm, flag, nb);
    if nb > 0 {
      while i < |out| - nb
        invariant |out| == |learnt| && 1 <= i && i - 1 <= l < |out| && Partition(learnt, out, perm, flag, nb, i, l)
        decreases |out| - i, l
      {
        Positions(learnt, out, perm, flag, nb, i, l);
        if perm[out[i].v] != flag {
          PartitionSwap(learnt, out, perm, flag, nb, i, l);
          out := out[l := out[i]][i := out[l]];
          l := l - 1;
        } else {
          PartitionNext(learnt, out, perm, flag, nb, i, l);
          i := i + 1;
        }
      }
    } else {
      NothingDropped(learnt, perm, flag, l);
      i := |out|;
    }
    PartitionEnd(learnt, out, perm, flag, nb, i, l);
    KeptLiterals(learnt, out, wbin, perm, flag, nb, i, l);
    out := out[..|out| - nb];
  }

  lemma Positions(learnt: Clause, out: Clause, perm: seq<nat>, flag: nat, nb: nat, i: nat, l: int)
    requires Partition(learnt, out, perm, flag, nb, i, l)
    ensures forall j :: 0 <= j < |out| ==> out[j].v < |perm|
  {
  }

  lemma PartitionNext(learnt: Clause, out: Clause, perm: seq<nat>, flag: nat, nb: nat, i: nat, l: int)
    requires Partition(learnt, out, perm, flag, nb, i, l) && i < |out| - nb && perm[out[i].v] == flag
    ensures i <= l && Partition(learnt, out, perm, flag, nb, i + 1, l)
  {
    DroppedNone(out, perm, flag, i);
  }

  lemma {:induction false} NothingDropped(learnt: Clause, perm: seq<nat>, flag: nat, l: int)
    requires Partition(learnt, learnt, perm, flag, 0, 1, l) && l == |learnt| - 1
    ensures Partition(learnt, learnt, perm, flag, 0, |learnt|, l)
  {
    NoneMissing(learnt, perm, flag, |learnt|);
  }

  lemma {:induction false} NoneMissing(learnt: Clause, perm: seq<nat>, flag: nat, i: nat)
    requires 1 <= i <= |learnt| && (forall j :: 0 <= j < |learnt| ==> learnt[j].v < |perm|)
    requires Dropped(learnt, perm, flag, i) == 0
    ensures forall j :: 1 <= j < i ==> perm[learnt[j].v] == flag
  {
    if i > 1 { NoneMissing(learnt, perm, flag, i - 1); }
  }

  // What is kept: the first literal, and those whose negation no binary clause implies.
  lemma KeptLiterals(learnt: Clause, out: Clause, wbin: seq<Lit>, perm: seq<nat>, flag: nat, nb: nat, i: nat, l: int)
    requires Partition(learnt, out, perm, flag, nb, i, l) && MarkedVars(learnt, perm, flag, wbin, |wbin|)
    requires DistinctVars(learnt)
    requires forall j :: 1 <= j < |out| - nb ==> perm[out[j].v] == flag
    requires forall j :: |out| - nb <= j < |out| ==> perm[out[j].v] != flag
    ensures var r := out[..|out| - nb];
      r != [] && r[0] == learnt[0] && DistinctVars(r) && forall x :: x in r <==>
      x in learnt && (x == learnt[0] || x.Not() !in wbin)
  {
    assert wbin[..|wbin|] == wbin;
    DistinctOut(learnt, out);
    var r := out[..|out| - nb];
    forall x: Lit ensures x in r <==> x in learnt && (x == learnt[0] || x.Not() !in wbin) {
      assert x in out <==> x in multiset(out);
      assert x in learnt <==> x in multiset(learnt);
      if x in learnt {
        var j :| 0 <= j < |out| && out[j] == x;
        var k :| 0 <= k < |learnt| && learnt[k] == x;
        if j > 0 { assert out[j].v != out[0].v; }
        if k > 0 { assert perm[x.v] == flag <==> x.Not() !in wbin; }
        if x in r {
          var m :| 0 <= m < |r| && r[m] == x;
          assert out[m] == x && m == j;
        }
        if j < |out| - nb { assert r[j] == x; }
      }
    }
  }

  // A rearrangement of distinct variables.
  lemma DistinctOut(learnt: Clause, out: Clause)
    requires multiset(out) == multiset(learnt) && DistinctVars(learnt)
    ensures DistinctVars(out)
  {
    forall i, j | 0 <= i < j < |out| ensures out[i].v != out[j].v {
      assert out[i] in multiset(out) && out[j] in multiset(out);
      var a :| 0 <= a < |learnt| && learnt[a] == out[i];
      var b :| 0 <= b < |learnt| && learnt[b] == out[j];
      if a == b {
        Twice(out, i, j);
        Once(learnt, a);
        assert false;
      }
    }
  }

  lemma Twice(s: Clause, i: nat, j: nat)
    requires i < j < |s| && s[i] == s[j]
    ensures multiset(s)[s[i]] >= 2
  {
    assert s == s[..i] + [s[i]] + s[i + 1..j] + [s[j]] + s[j + 1..];
  }

  lemma Once(s: Clause, a: nat)
    requires a < |s| && DistinctVars(s)
    ensures multiset(s)[s[a]] == 1
  {
    assert s == s[..a] + [s[a]] + s[a + 1..];
    assert s[a] !in s[..a] && s[a] !in s[a + 1..];
  }

  // The shortened clause still follows.
  lemma MinimisedEntailed(f: set<Clause>, learnt: Clause, out: Clause, wbin: seq<Lit>)
    requires learnt != [] && Entails(f, LitSet(learnt))
    requires forall k :: 0 <= k < |wbin| ==> Entails(f, {learnt[0], wbin[k]})
    requires forall l :: l in out <==> l in learnt && (l == learnt[0] || l.Not() !in wbin)
    ensures Entails(f, LitSet(out))
  {
    forall a: Assignment | Models(a, f) ensures SomeHolds(a, LitSet(out)) {
      var l :| l in LitSet(learnt) && Holds(a, l);
      if l in out {
        assert l in LitSet(out);
      } else {
        var k :| 0 <= k < |wbin| && wbin[k] == l.Not();
        var m :| m in {learnt[0], wbin[k]} && Holds(a, m);
        assert m == learnt[0] && m in learnt && m in LitSet(out);
      }
    }
  }
}
