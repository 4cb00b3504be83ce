// The restart sequence and why it ends the search.
module SatRestarts {
  import opened SatRank

  // The exponents of the Luby sequence in blocks: two copies of the previous block, then one
  // larger exponent.
  ghost function Block(k: nat): seq<nat> {
    if k == 0 then [] else Block(k - 1) + Block(k - 1) + [k - 1]
  }

  lemma {:induction false} BlockPrefix(j: nat, k: nat)
    requires j <= k
    ensures Block(j) <= Block(k)
  {
    if j < k {
      BlockPrefix(j, k - 1);
      assert Block(k - 1) <= Block(k);
    }
  }

  lemma {:induction false} BlockLength(k: nat)
    ensures |Block(k)| == Pow(2, k) - 1 && |Block(k)| >= k
  {
    if k > 0 { BlockLength(k - 1); }
  }

  // The blocks agree: the sequence does not depend on the block it is read from.
  lemma SameElement(j: nat, k: nat, x: nat)
    requires x < |Block(j)| && x < |Block(k)|
    ensures Block(j)[x] == Block(k)[x]
  {
    if j <= k { BlockPrefix(j, k); } else { BlockPrefix(k, j); }
  }

  lemma Modulo(x: nat, size: nat)
    requires x < 2 * size
    ensures x % size == if x < size then x else x - size
  {
  }

  // Every element but the last is found in the block before.
  lemma InFormerHalf(e: nat, x: nat)
    requires x + 1 < |Block(e + 1)|
    ensures e > 0 && |Block(e)| > 0 && (|Block(e + 1)| - 1) / 2 == |Block(e)|
    ensures x % |Block(e)| < |Block(e)| && Block(e + 1)[x] == Block(e)[x % |Block(e)|]
  {
    Modulo(x, |Block(e)|);
  }

  // luby for base 2: the element at position x of every long enough block.
  method Luby(x0: nat) returns (r: nat)
    ensures forall k: nat :: x0 < |Block(k)| ==> r == Pow(2, Block(k)[x0])
  {
    hide Pow;
    var size: nat, e: nat := 1, 0;
    while size < x0 + 1
      invariant size == |Block(e + 1)|
      decreases x0 + 1 - size
    {
      e := e + 1;
      size := 2 * size + 1;
    }
    ghost var top := e + 1;
    var x: nat := x0;
    while size - 1 != x
      invariant x < size == |Block(e + 1)| && x0 < |Block(top)| && Block(e + 1)[x] == Block(top)[x0]
      decreases size
    {
      InFormerHalf(e, x);
      size := (size - 1) / 2;
      e := e - 1;
      x := x % size;
    }
    r := Pow(2, e);
    forall k: nat | x0 < |Block(k)| ensures Block(k)[x0] == e {
      SameElement(k, top, x0);
    }
  }

  lemma {:induction false} PowAbove(m: nat)
    ensures Pow(2, m) > m
  {
    if m > 0 { PowAbove(m - 1); }
  }

  // The restart at the end of block m + 1 allows more than m conflicts.
  lemma RestartLarge(m: nat, r: nat)
    requires |Block(m + 1)| >= 1 && r == Pow(2, Block(m + 1)[|Block(m + 1)| - 1])
    ensures 100 * r > m
  {
    PowAbove(m);
  }
}
