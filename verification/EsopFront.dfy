// The function exorcism of the library: cubes of the interface become terms, the minimizer runs, and
// its cubes are handed back.
module EsopFront {
  import opened EsopCube
  import opened EsopCost
  import opened EsopQueue
  import opened EsopTrace
  import opened EsopMain

  // A cube of the interface: the variables in the mask, with their values. 32 variables at most.
  datatype Cube32 = Cube32(bits: seq<bool>, mask: seq<bool>)

  ghost predicate Fits(c: Cube32) {
    |c.bits| == |c.mask| == 32
  }

  ghost predicate CubeValue(c: Cube32, n: nat, x: Input)
    requires Fits(c) && n <= 32
  {
    forall v :: 0 <= v < n && c.mask[v] ==> x(v) == c.bits[v]
  }

  ghost function CubeSum(cubes: seq<Cube32>, k: nat, n: nat, x: Input): bool
    requires k <= |cubes| && n <= 32 && forall i :: 0 <= i < |cubes| ==> Fits(cubes[i])
  {
    if k == 0 then false else CubeValue(cubes[k - 1], n, x) != CubeSum(cubes, k - 1, n, x)
  }

  // ---- Cubes to terms ----

  // The literals of the first k variables.
  ghost predicate TermOf(c: Cube32, k: nat, lits: seq<Literal>)
    requires Fits(c) && k <= 32
  {
    && (forall i, j :: 0 <= i < j < |lits| ==> lits[i].v < lits[j].v)
    && (forall i :: 0 <= i < |lits| ==> lits[i].v < k && c.mask[lits[i].v] && lits[i].neg == !c.bits[lits[i].v])
    && (forall v :: 0 <= v < k && c.mask[v] ==> exists i :: 0 <= i < |lits| && lits[i].v == v)
  }

  method ToTerm(c: Cube32, n: nat) returns (t: Term)
    requires Fits(c) && n <= 32
    ensures t.out == 0 && TermOf(c, n, t.lits) && TermOk(t, n, 1)
  {
    var lits: seq<Literal> := [];
    for v := 0 to n
      invariant TermOf(c, v, lits)
    {
      ghost var before := lits;
      if c.mask[v] {
        lits := lits + [Literal(v, !c.bits[v])];
        assert lits[|before|].v == v;
      }
      forall u | 0 <= u < v + 1 && c.mask[u] ensures exists i :: 0 <= i < |lits| && lits[i].v == u {
        if u < v {
          var i :| 0 <= i < |before| && before[i].v == u;
          assert lits[i].v == u;
        }
      }
    }
    t := Term(lits, 0);
  }

  lemma TermSame(c: Cube32, n: nat, t: Term, x: Input)
    requires Fits(c) && n <= 32 && t.out == 0 && TermOf(c, n, t.lits)
    ensures TermValue(t, 0, x) == CubeValue(c, n, x)
  {
    if TermValue(t, 0, x) {
      forall v | 0 <= v < n && c.mask[v] ensures x(v) == c.bits[v] {
        var i :| 0 <= i < |t.lits| && t.lits[i].v == v;
        assert x(t.lits[i].v) != t.lits[i].neg;
      }
    }
  }

  lemma {:induction false} TermsSame(cubes: seq<Cube32>, terms: seq<Term>, k: nat, n: nat, x: Input)
    requires k <= |cubes| == |terms| && n <= 32 && (forall i :: 0 <= i < |cubes| ==> Fits(cubes[i]))
    requires forall i :: 0 <= i < |terms| ==> terms[i].out == 0 && TermOf(cubes[i], n, terms[i].lits)
    ensures TermSum(terms, k, 0, x) == CubeSum(cubes, k, n, x)
  {
    if k > 0 {
      TermsSame(cubes, terms, k - 1, n, x);
      TermSame(cubes[k - 1], n, terms[k - 1], x);
    }
  }

  // ---- Cubes back ----

  // onCube: VAR_NEG and VAR_POS put the variable into the mask.
  method FromProd(p: Prod, n: nat) returns (c: Cube32)
    requires Good(p, n, 1) && n <= 32
    ensures Fits(c) && Shown(p, n, c)
  {
    c := Cube32(seq(32, v => false), seq(32, v => false));
    for v := 0 to n
      invariant Fits(c)
      invariant forall u :: 0 <= u < v ==> c.mask[u] == (p.lits[u] != 3) && c.bits[u] == (p.lits[u] == 2)
      invariant forall u :: v <= u < 32 ==> !c.mask[u] && !c.bits[u]
    {
      if p.lits[v] == 1 {
        c := c.(mask := c.mask[v := true]);
      } else if p.lits[v] == 2 {
        c := c.(mask := c.mask[v := true], bits := c.bits[v := true]);
      }
    }
  }

  // The interface's cube of a product: no bit outside the mask or above the variables.
  ghost predicate Shown(p: Prod, n: nat, c: Cube32)
    requires n <= 32 && Fits(c)
  {
    && |p.lits| == n
    && (forall u :: 0 <= u < n ==> c.mask[u] == (p.lits[u] != 3) && c.bits[u] == (p.lits[u] == 2))
    && forall u :: n <= u < 32 ==> !c.mask[u] && !c.bits[u]
  }

  lemma ProdSame(p: Prod, n: nat, c: Cube32, x: Input)
    requires Good(p, n, 1) && n <= 32 && Fits(c) && Shown(p, n, c)
    ensures Value(p, 0, x) == CubeValue(c, n, x)
  {
    assert p.outs[0];
    if CubeValue(c, n, x) {
      forall v | 0 <= v < n ensures LitVal(p.lits[v], x(v)) { assert c.mask[v] ==> x(v) == c.bits[v]; }
    }
    if Product(p.lits, x) {
      forall v | 0 <= v < n && c.mask[v] ensures x(v) == c.bits[v] { assert LitVal(p.lits[v], x(v)); }
    }
  }

  lemma {:induction false} SumLast(cubes: seq<Prod>, p: Prod, o: nat, x: Input)
    ensures ProdSum(cubes + [p], o, x) == (Value(p, o, x) != ProdSum(cubes, o, x))
  {
    if cubes == [] {
      assert [p][1..] == [];
    } else {
      SumLast(cubes[1..], p, o, x);
      assert (cubes + [p])[1..] == cubes[1..] + [p];
    }
  }

  lemma {:induction false} ProdsSame(prods: seq<Prod>, cubes: seq<Cube32>, k: nat, n: nat, x: Input)
    requires k <= |cubes| == |prods| && n <= 32 && (forall i :: 0 <= i < |cubes| ==> Fits(cubes[i]))
    requires forall i :: 0 <= i < |prods| ==> Good(prods[i], n, 1) && Shown(prods[i], n, cubes[i])
    ensures ProdSum(prods[..k], 0, x) == CubeSum(cubes, k, n, x)
  {
    if k > 0 {
      ProdsSame(prods, cubes, k - 1, n, x);
      ProdSame(prods[k - 1], n, cubes[k - 1], x);
      SumLast(prods[..k - 1], prods[k - 1], 0, x);
      assert prods[..k] == prods[..k - 1] + [prods[k - 1]];
    }
  }

  // Two variables at which the cubes differ.
  ghost predicate DifferTwice(c: Cube32, d: Cube32, n: nat)
    requires Fits(c) && Fits(d) && n <= 32
  {
    exists u, v :: 0 <= u < v < n && DifferAt(c, d, u) && DifferAt(c, d, v)
  }

  ghost predicate DifferAt(c: Cube32, d: Cube32, v: nat)
    requires Fits(c) && Fits(d) && v < 32
  {
    c.mask[v] != d.mask[v] || c.bits[v] != d.bits[v]
  }

  lemma FarDiffer(p: Prod, q: Prod, n: nat, c: Cube32, d: Cube32)
    requires Good(p, n, 1) && Good(q, n, 1) && n <= 32 && Fits(c) && Fits(d) && Shown(p, n, c) && Shown(q, n, d)
    requires FarApart(p, q)
    ensures DifferTwice(c, d, n)
  {
    assert p.outs == q.outs == [true];
    var ds := Diffs(p.lits, q.lits, n);
    DiffersAt(p.lits, q.lits, n, 0);
    DiffersAt(p.lits, q.lits, n, 1);
    DiffsOrdered(p.lits, q.lits, n);
    assert DifferAt(c, d, ds[0]) && DifferAt(c, d, ds[1]);
  }

  // ---- The whole function ----

  method ToTerms(esop: seq<Cube32>, n: nat) returns (terms: seq<Term>)
    requires n <= 32 && forall i :: 0 <= i < |esop| ==> Fits(esop[i])
    ensures |terms| == |esop| && forall i :: 0 <= i < |terms| ==> TermOk(terms[i], n, 1)
    ensures forall i :: 0 <= i < |terms| ==> terms[i].out == 0 && TermOf(esop[i], n, terms[i].lits)
  {
    hide TermOf, TermOk;
    terms := [];
    for i := 0 to |esop|
      invariant |terms| == i && forall j :: 0 <= j < i ==> TermOk(terms[j], n, 1)
      invariant forall j :: 0 <= j < i ==> terms[j].out == 0 && TermOf(esop[j], n, terms[j].lits)
    {
      var t := ToTerm(esop[i], n);
      terms := terms + [t];
    }
  }

  method FromProds(prods: seq<Prod>, n: nat) returns (r: seq<Cube32>)
    requires n <= 32 && forall i :: 0 <= i < |prods| ==> Good(prods[i], n, 1)
    ensures |r| == |prods| && forall i :: 0 <= i < |r| ==> Fits(r[i]) && Shown(prods[i], n, r[i])
  {
    hide Fits;
    r := [];
    for i := 0 to |prods|
      invariant |r| == i && forall j :: 0 <= j < i ==> Fits(r[j]) && Shown(prods[j], n, r[j])
    {
      var c := FromProd(prods[i], n);
      r := r + [c];
    }
  }

  // How the result has come about: the terms handed on, the starting cover, the end, and what lies between.
  datatype Origins = Origins(terms: seq<Term>, start: View, end: View, red: Reduction)

  ghost predicate Reached(esop: seq<Cube32>, n: nat, g: Origins, r: seq<Cube32>)
    requires n <= 32 && (forall i :: 0 <= i < |esop| ==> Fits(esop[i])) && forall i :: 0 <= i < |r| ==> Fits(r[i])
  {
    && |g.terms| == |esop|
    && (forall i :: 0 <= i < |esop| ==> g.terms[i].out == 0 && TermOf(esop[i], n, g.terms[i].lits))
    && Starts(g.start, g.terms, n, 1)
    && Reduced(g.red, Setting(1, Places(|esop|), false), g.start, g.end, 2, false)
    && |r| == |g.end.st.cover| && forall i :: 0 <= i < |r| ==> Shown(CubesOf(g.end.st)[i], n, r[i])
  }

  // exorcism: cubes with the same exclusive or, no more of them, each two different at two variables. They are
  // those at the end of a reduction, and fewer than at its start when all pairs at distance two could be improved.
  method ExorcismCubes(esop: seq<Cube32>, numVars: nat) returns (r: seq<Cube32>, ghost g: Origins)
    requires 0 < numVars <= 32 && forall i :: 0 <= i < |esop| ==> Fits(esop[i])
    ensures |r| <= |esop| && forall i :: 0 <= i < |r| ==> Fits(r[i])
    ensures forall x: Input :: CubeSum(r, |r|, numVars, x) == CubeSum(esop, |esop|, numVars, x)
    ensures forall i, j :: 0 <= i < j < |r| ==> DifferTwice(r[i], r[j], numVars)
    ensures Reached(esop, numVars, g, r)
    ensures Ripe(g.start.st) && PairsOf(|esop|) < Places(|esop|) ==> |r| < |g.start.st.cover|
  {
    hide Fits, TermOf, TermOk, CubeSum, TermSum, ProdSum, Good, FarApart, DifferTwice, Shown, Starts, Reduced, Ripe;
    var terms := ToTerms(esop, numVars);
    var ok, prods;
    ghost var counted, start, end, red;
    ok, prods, counted, start, end, red := Minimize(terms, numVars, 1, 2, 4 * |esop|, false);
    g := Origins(terms, start, end, red);
    r := FromProds(prods, numVars);
    assert prods[..|prods|] == prods;
    forall x: Input ensures CubeSum(r, |r|, numVars, x) == CubeSum(esop, |esop|, numVars, x) {
      TermsSame(esop, terms, |esop|, numVars, x);
      ProdsSame(prods, r, |r|, numVars, x);
    }
    forall i, j | 0 <= i < j < |r| ensures DifferTwice(r[i], r[j], numVars) {
      FarDiffer(prods[i], prods[j], numVars, r[i], r[j]);
    }
  }
}
