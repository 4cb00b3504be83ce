// The whole minimizer: the starting cover is built from the given cubes and reduced.
module EsopMain {
  import opened EsopCube
  import opened EsopPool
  import opened EsopStore
  import opened EsopCheck
  import opened EsopCost
  import opened EsopPair
  import opened EsopQueue
  import opened EsopList
  import opened EsopIter
  import opened EsopApply
  import opened EsopTrace
  import opened EsopReduce

  const ADDITIONAL_CUBES: nat := 33
  const CUBE_PAIR_FACTOR: nat := 20

  // A literal and a cube of the incoming cover, for one output.
  datatype Literal = Literal(v: nat, neg: bool)
  datatype Term = Term(lits: seq<Literal>, out: nat)

  ghost predicate TermOk(t: Term, nv: nat, no: nat) {
    && t.out < no && (forall i :: 0 <= i < |t.lits| ==> t.lits[i].v < nv)
    && forall i, j :: 0 <= i < j < |t.lits| ==> t.lits[i].v != t.lits[j].v
  }

  // All literals of the cube are true.
  ghost predicate TermValue(t: Term, o: nat, x: Input) {
    o == t.out && forall i :: 0 <= i < |t.lits| ==> x(t.lits[i].v) != t.lits[i].neg
  }

  ghost function TermSum(terms: seq<Term>, n: nat, o: nat, x: Input): bool
    requires n <= |terms|
  {
    if n == 0 then false else TermValue(terms[n - 1], o, x) != TermSum(terms, n - 1, o, x)
  }

  // The codes after the first k literals.
  ghost predicate Coded(t: Term, k: nat, codes: seq<nat>, nv: nat) {
    && k <= |t.lits| && |codes| == nv
    && (forall i :: 0 <= i < k && t.lits[i].v < nv ==> codes[t.lits[i].v] == if t.lits[i].neg then 1 else 2)
    && forall v :: 0 <= v < nv ==> 1 <= codes[v] <= 3 && (codes[v] != 3 ==> exists i :: 0 <= i < k && t.lits[i].v == v)
  }

  // The cube of a term.
  ghost function CodeAt(t: Term, k: nat, v: nat): nat
    requires k <= |t.lits|
  {
    if k == 0 then 3
    else if t.lits[k - 1].v == v then if t.lits[k - 1].neg then 1 else 2
    else CodeAt(t, k - 1, v)
  }

  ghost function CubeOf(t: Term, nv: nat, no: nat): Prod {
    Prod(seq(nv, v requires 0 <= v => CodeAt(t, |t.lits|, v)), OneOutput(t.out, no))
  }

  // s_LevelValues: every variable absent but those of the literals.
  method Codes(t: Term, nv: nat, no: nat) returns (codes: seq<nat>)
    requires TermOk(t, nv, no)
    ensures Coded(t, |t.lits|, codes, nv) && Literals(codes) == |t.lits|
    ensures Prod(codes, OneOutput(t.out, no)) == CubeOf(t, nv, no)
  {
    hide Literals;
    codes := seq(nv, v => 3);
    NoLiterals(codes);
    for k := 0 to |t.lits|
      invariant Coded(t, k, codes, nv) && Literals(codes) == k
      invariant |codes| == nv && forall v :: 0 <= v < nv ==> codes[v] == CodeAt(t, k, v)
    {
      CodedStep(t, k, codes, nv, no);
      codes := codes[t.lits[k].v := if t.lits[k].neg then 1 else 2];
    }
  }

  lemma CodedStep(t: Term, k: nat, codes: seq<nat>, nv: nat, no: nat)
    requires TermOk(t, nv, no) && Coded(t, k, codes, nv) && k < |t.lits|
    ensures t.lits[k].v < nv
    ensures var next := codes[t.lits[k].v := if t.lits[k].neg then 1 else 2];
      Coded(t, k + 1, next, nv) && Literals(next) == Literals(codes) + 1
  {
    hide Literals;
    var v := t.lits[k].v;
    var next := codes[v := if t.lits[k].neg then 1 else 2];
    assert codes[v] == 3;
    LiteralsChanged(codes, v, next[v]);
    forall u | 0 <= u < nv && next[u] != 3 ensures exists i :: 0 <= i < k + 1 && t.lits[i].v == u {
      if u == v { assert t.lits[k].v == u; } else { var i :| 0 <= i < k && t.lits[i].v == u; }
    }
  }

  lemma {:induction false} NoLiterals(codes: seq<nat>)
    requires forall i :: 0 <= i < |codes| ==> codes[i] == 3
    ensures Literals(codes) == 0
  {
    if codes != [] { NoLiterals(codes[..|codes| - 1]); }
  }

  lemma CodedValue(t: Term, codes: seq<nat>, nv: nat, no: nat, o: nat, x: Input)
    requires TermOk(t, nv, no) && Coded(t, |t.lits|, codes, nv)
    ensures Value(Prod(codes, OneOutput(t.out, no)), o, x) == TermValue(t, o, x)
  {
    if TermValue(t, o, x) {
      forall v | 0 <= v < nv ensures LitVal(codes[v], x(v)) {
        if codes[v] != 3 { var i :| 0 <= i < |t.lits| && t.lits[i].v == v; }
      }
    }
    if Product(codes, x) {
      forall i | 0 <= i < |t.lits| ensures x(t.lits[i].v) != t.lits[i].neg {
        assert LitVal(codes[t.lits[i].v], x(t.lits[i].v));
      }
    }
  }

  function OneOutput(out: nat, no: nat): (r: seq<bool>)
    ensures |r| == no && forall o :: 0 <= o < no ==> r[o] == (o == out)
  {
    seq(no, o => o == out)
  }

  lemma {:induction false} OnesOf(outs: seq<bool>, out: nat)
    requires forall o :: 0 <= o < |outs| ==> outs[o] == (o == out)
    ensures Ones(outs) == if out < |outs| then 1 else 0
  {
    if outs != [] { OnesOf(outs[..|outs| - 1], out); }
  }

  // What the minimizer is at rest with, room apart.
  ghost predicate Resting(s: Exorcism)
    reads s
  {
    s.Valid() && s.Queues() && NoneOut(s.St()) && Spread(s.St()) && NoMarks(s.St())
  }

  // AddCubesToStartingCover, for one cube.
  method AddCube(s: Exorcism, t: Term)
    requires Resting(s) && TermOk(t, s.nv, s.no) && s.pool != []
    modifies s`data, s`info, s`a, s`z, s`list, s`free, s`cover, s`pool, s`nCubesInUse, s`nCubesFree, s`change, s`que,
             s`cIDs
    ensures Resting(s) && |s.cover| <= |old(s.cover)| + 1 && |s.data| == |old(s.data)| && Handles(s.data, s.cover)
    ensures Handles(old(s.data), old(s.cover))
    ensures forall o: nat, x: Input :: SumOf(s.St(), o, x) == (SumOf(old(s.St()), o, x) != TermValue(t, o, x))
    ensures QueuedOn(old(s.St()), s.St(), old(s.que), s.que, s.enabled, s.places)
    ensures FarFrom(old(s.St()), CubeOf(t, s.nv, s.no)) ==>
      CubesOf(s.St()) == [CubeOf(t, s.nv, s.no)] + CubesOf(old(s.St()))
  {
    hide Ok, QueueOk, Spread, SumOf, Value, TermValue, FarFrom, TermOk, Coded, Merged, NoMarks, Fetched, Steady,
      Enqueued,
      QueuedOn, Stayed, CubeOf, CubesOf, AfterInsert;
    FarFilled(s.St(), CubeOf(t, s.nv, s.no));
    ghost var e := s.St();
    var codes := Codes(t, s.nv, s.no);
    var d := Prod(codes, OneOutput(t.out, s.no));
    TermGood(t, codes, s.nv, s.no);
    NewCube(e, d, |t.lits|, 1, s.cIDs, s.nv, s.no);
    FetchedOne(e, d, |t.lits|, 1, s.cIDs, s.nv, s.no);
    var p := s.NewCube(d, |t.lits|, 1);
    ghost var u := s.St();
    FilledIn(e, u, d, |t.lits|, 1, p, old(s.cIDs));
    var gain := s.CheckForCloseCubes(p, true);
    AddedTerm(e, u, s.St(), t, codes, p, s.nv, s.no);
    StillUnmarked(e, u, s.St(), p);
    OthersStayed(e, u, s.St(), p, s.nv, s.no);
    if gain == 0 { JustAdded(e, u, s.St(), p, d); }
    CompleteStep(e, s.St(), p, old(s.que), s.que, s.enabled, s.places);
  }

  lemma StillUnmarked(e: Store, u: Store, v: Store, p: nat)
    requires NoMarks(e) && Fetched(e, u) && Steady(u, v, p)
    ensures NoMarks(v)
  {
  }

  // The cubes in the order of the list.
  ghost function CubesOf(s: Store): seq<Prod> {
    seq(|s.cover|, i requires 0 <= i < |s.cover| =>
      if s.cover[i] < |s.data| then s.data[s.cover[i]] else Prod([], []))
  }

  lemma JustAdded(e: Store, u: Store, v: Store, p: nat, d: Prod)
    requires Alike(e, u) && u.cover == e.cover && Handles(e.data, e.cover) && p < |u.data| && u.data[p] == d
    requires |u.a| == |u.data| && v.data == u.data && v.cover == [p] + u.cover
    ensures CubesOf(v) == [d] + CubesOf(e)
  {
    forall i | 0 <= i < |e.cover| ensures CubesOf(v)[i + 1] == CubesOf(e)[i] {
      assert e.cover[i] in e.cover;
    }
  }

  lemma FarFilled(e: Store, d: Prod)
    ensures forall u :: Alike(e, u) && |e.a| == |e.data| && FarFrom(e, d) ==> FarFrom(u, d)
  {
    hide FarApart;
  }

  lemma OthersStayed(e: Store, u: Store, v: Store, p: nat, nv: nat, no: nat)
    requires Ok(e, nv, no, -1) && Fetched(e, u) && Steady(u, v, p) && u.cover == e.cover
    ensures Stayed(e, v, p)
  {
    InCoverNotPool(e, nv, no);
    OkHandles(e, nv, no, -1);
    OkSizes(e, nv, no);
    hide Ok;
  }

  lemma TermGood(t: Term, codes: seq<nat>, nv: nat, no: nat)
    requires TermOk(t, nv, no) && Coded(t, |t.lits|, codes, nv)
    ensures Good(Prod(codes, OneOutput(t.out, no)), nv, no) && Ones(OneOutput(t.out, no)) == 1
  {
    OnesOf(OneOutput(t.out, no), t.out);
    assert OneOutput(t.out, no)[t.out];
  }

  // The new cube is the only one outside the lists.
  lemma FilledIn(e: Store, u: Store, d: Prod, a: int, z: int, p: nat, id: nat)
    requires NoneOut(e) && e.pool != [] && 0 <= e.free < |e.info| && e.free < |e.data| == |e.a| == |e.z| == |e.info|
    requires p == e.free == e.pool[0] && p !in e.cover && u == Filled(Taken(e), e.free, d, a, z, id) && SameSum(e, u)
    requires forall h :: h in u.pool <==> h in e.pool && h != p
    ensures forall h: nat :: Out(u, h) <==> h == p
    ensures u.data[p] == d && |u.data| == |e.data| && (Spread(e) ==> Spread(u))
  {
    forall h: nat ensures Out(u, h) <==> h == p { assert !Out(e, h); }
    SpreadSame(e, u);
  }

  lemma AddedTerm(e: Store, u: Store, v: Store, t: Term, codes: seq<nat>, p: nat, nv: nat, no: nat)
    requires TermOk(t, nv, no) && Coded(t, |t.lits|, codes, nv) && (forall h: nat :: Out(u, h) <==> h == p)
    requires p < |u.data| == |e.data|
    requires SameSum(e, u) && Added(u, v, Prod(codes, OneOutput(t.out, no))) && Kept(u, v, p)
    ensures NoneOut(v) && Handles(v.data, v.cover) && Handles(e.data, e.cover)
    ensures forall o: nat, x: Input :: SumOf(v, o, x) == (SumOf(e, o, x) != TermValue(t, o, x))
  {
    hide SumOf, TermOk, Coded, Value, TermValue;
    forall o: nat, x: Input ensures SumOf(v, o, x) == (SumOf(e, o, x) != TermValue(t, o, x)) {
      CodedValue(t, codes, nv, no, o, x);
    }
    forall h: nat ensures !Out(v, h) { assert Out(u, h) <==> h == p; }
  }

  // The sum of the cover after the first n terms.
  ghost predicate Covers(s: Exorcism, terms: seq<Term>, n: nat)
    reads s
  {
    n <= |terms| && Handles(s.data, s.cover) && forall o: nat, x: Input ::
    SumOf(s.St(), o, x) == TermSum(terms, n, o, x)
  }

  // The pairs of n cubes.
  function PairsOf(n: nat): nat {
    if n == 0 then 0 else PairsOf(n - 1) + n - 1
  }

  lemma {:induction false} PairsMore(m: nat, n: nat)
    requires m <= n
    ensures PairsOf(m) <= PairsOf(n)
  {
    if m < n { PairsMore(m, n - 1); }
  }

  // After i of n cubes: the queue holds all pairs at distance two, when it has places for all pairs.
  ghost predicate Queued(s: Exorcism, i: nat, n: nat)
    reads s
  {
    && |s.que| == |s.enabled| == 3 && s.enabled[0]
    && (PairsOf(n) < s.places ==>
          Complete(s.St(), s.que[0], 0) && forall d :: 0 <= d < 3 ==> s.que[d].posIn <= PairsOf(i))
  }

  lemma QueuedMore(s: Exorcism, e: Store, was: seq<Queue>, i: nat, n: nat)
    requires QueuedOn(e, s.St(), was, s.que, s.enabled, s.places) && |e.cover| <= i < n && s.enabled[0]
    requires PairsOf(n) < s.places ==> |was| == 3 && Complete(e, was[0], 0) && forall d :: 0 <= d < 3 ==>
      was[d].posIn <= PairsOf(i)
    ensures Queued(s, i + 1, n)
  {
    hide Complete;
    PairsMore(i + 1, n);
    assert PairsOf(i + 1) == PairsOf(i) + i;
  }

  // The cubes of the first n terms, the last one first.
  ghost function TermCubes(terms: seq<Term>, n: nat, nv: nat, no: nat): (r: seq<Prod>)
    requires n <= |terms|
    ensures |r| == n && forall i :: 0 <= i < n ==> r[i] == CubeOf(terms[n - 1 - i], nv, no)
  {
    seq(n, i requires 0 <= i < n => CubeOf(terms[n - 1 - i], nv, no))
  }

  // No two of the terms could be merged.
  ghost predicate TermsFar(terms: seq<Term>, nv: nat, no: nat) {
    forall i, j :: 0 <= i < j < |terms| ==> FarApart(CubeOf(terms[j], nv, no), CubeOf(terms[i], nv, no))
  }

  lemma NextFar(terms: seq<Term>, n: nat, s: Store, nv: nat, no: nat)
    requires TermsFar(terms, nv, no) && n < |terms| && CubesOf(s) == TermCubes(terms, n, nv, no)
    ensures FarFrom(s, CubeOf(terms[n], nv, no))
    ensures TermCubes(terms, n + 1, nv, no) == [CubeOf(terms[n], nv, no)] + TermCubes(terms, n, nv, no)
  {
    hide FarApart, CubeOf;
    forall h: nat | h in s.cover && h < |s.data| ensures FarApart(CubeOf(terms[n], nv, no), s.data[h]) {
      var k :| 0 <= k < |s.cover| && s.cover[k] == h;
      assert CubesOf(s)[k] == s.data[h] == CubeOf(terms[n - 1 - k], nv, no);
    }
  }

  method AddCubesToStartingCover(s: Exorcism, terms: seq<Term>)
    requires Resting(s) && s.cover == [] && |s.data| >= |terms| + 32
    requires forall i :: 0 <= i < |terms| ==> TermOk(terms[i], s.nv, s.no)
    requires |s.que| == |s.enabled| == 3 && s.enabled[0] && forall d :: 0 <= d < 3 ==> s.que[d].posIn == 0
    modifies s`data, s`info, s`a, s`z, s`list, s`free, s`cover, s`pool, s`nCubesInUse, s`nCubesFree, s`change, s`que,
             s`cIDs
    ensures Ready(s) && |s.cover| <= |terms| && Covers(s, terms, |terms|)
    ensures Queued(s, |terms|, |terms|)
    ensures TermsFar(terms, s.nv, s.no) ==> CubesOf(s.St()) == TermCubes(terms, |terms|, s.nv, s.no)
  {
    hide Ok, QueueOk, Exorcism.Queues, Spread, SumOf, TermValue, TermOk, NoneOut, Complete, PairsOf, QueuedOn, TermsFar,
      FarFrom, CubeOf;
    Starting(s, terms);
    for i := 0 to |terms|
      invariant Resting(s) && |s.cover| <= i && |s.data| == |old(s.data)| && Covers(s, terms, i)
      invariant Queued(s, i, |terms|)
      invariant TermsFar(terms, s.nv, s.no) ==> CubesOf(s.St()) == TermCubes(terms, i, s.nv, s.no)
    {
      if TermsFar(terms, s.nv, s.no) { NextFar(terms, i, s.St(), s.nv, s.no); }
      Conservation(s.St(), s.nv, s.no);
      ghost var e, was := s.St(), s.que;
      AddCube(s, terms[i]);
      QueuedMore(s, e, was, i, |terms|);
    }
    Conservation(s.St(), s.nv, s.no);
  }

  lemma Starting(s: Exorcism, terms: seq<Term>)
    requires s.cover == [] && |s.que| == |s.enabled| == 3 && s.enabled[0]
    requires forall d :: 0 <= d < 3 ==> s.que[d].posIn == 0
    ensures Covers(s, terms, 0) && Queued(s, 0, |terms|)
  {
  }

  // ---- The result ----

  // The exclusive or of a list of cubes.
  ghost function ProdSum(cubes: seq<Prod>, o: nat, x: Input): bool {
    if cubes == [] then false else Value(cubes[0], o, x) != ProdSum(cubes[1..], o, x)
  }

  function Contents(data: seq<Prod>, hs: seq<nat>): (r: seq<Prod>)
    requires forall i :: 0 <= i < |hs| ==> hs[i] < |data|
    ensures |r| == |hs| && forall i :: 0 <= i < |r| ==> r[i] == data[hs[i]]
  {
    seq(|hs|, i requires 0 <= i < |hs| => data[hs[i]])
  }

  lemma {:induction false} ContentsSum(data: seq<Prod>, hs: seq<nat>, o: nat, x: Input)
    requires Handles(data, hs)
    ensures ProdSum(Contents(data, hs), o, x) == Sum(data, hs, o, x)
  {
    if hs != [] {
      ContentsSum(data, hs[1..], o, x);
      assert Contents(data, hs)[1..] == Contents(data, hs[1..]);
    }
  }

  // IterCubeSetStart and IterCubeSetNext: the cubes in the order of the list.
  method Output(s: Exorcism) returns (cubes: seq<Prod>)
    requires s.Valid()
    ensures Handles(s.data, s.cover) && cubes == Contents(s.data, s.cover)
  {
    hide Ok;
    OkHandles(s.St(), s.nv, s.no, -1);
    OkSizes(s.St(), s.nv, s.no);
    cubes := [];
    var p := s.list;
    ghost var k := 0;
    while p != -1
      invariant 0 <= k <= |s.cover| && p == At(s.cover, k) && cubes == Contents(s.data, s.cover)[..k]
      decreases |s.cover| - k
    {
      NextPlace(s.St(), k, s.nv, s.no);
      cubes := cubes + [s.data[p]];
      p := s.info[p].next;
      k := k + 1;
    }
  }

  // The starting cover: its cubes and queues before the reduction. No two cubes could be merged, and with
  // places for all pairs the queue holds every pair at distance two. Terms that cannot be merged are the cover.
  ghost predicate Starts(v: View, terms: seq<Term>, nv: nat, no: nat) {
    && Handles(v.st.data, v.st.cover) && |v.st.cover| <= |terms| && Spread(v.st)
    && (forall o: nat, x: Input :: SumOf(v.st, o, x) == TermSum(terms, |terms|, o, x))
    && (TermsFar(terms, nv, no) ==> CubesOf(v.st) == TermCubes(terms, |terms|, nv, no))
    && |v.que| == 3 && v.outs == [0, 0, 0] && Still(v, v)
    && (PairsOf(|terms|) < Places(|terms|) ==>
          Complete(v.st, v.que[0], 0) && v.que[0].posIn <= PairsOf(|terms|))
  }

  function Places(n: nat): nat {
    (n + ADDITIONAL_CUBES) * (n + ADDITIONAL_CUBES) / CUBE_PAIR_FACTOR
  }

  // The function Exorcism: false when there are too many cubes. Otherwise the cubes have the function of the
  // given ones, there are no more of them, and no two could be merged. They are those at the end of a
  // reduction r from start: every pass tries the pairs it reads, and the rounds go on until as many as asked
  // for gain nothing. counted tells whether literals count in the rounds before the last: they do not,
  // whatever useQCost asks for.
  method Minimize(terms: seq<Term>, nIns: nat, nOuts: nat, quality: int, nCubesMax: int, useQCost: bool)
    returns (ok: bool, cubes: seq<Prod>, ghost counted: bool, ghost start: View, ghost end: View, ghost r: Reduction)
    requires nIns > 0 && forall i :: 0 <= i < |terms| ==> TermOk(terms[i], nIns, nOuts)
    ensures ok <==> |terms| <= nCubesMax
    ensures ok ==> forall o: nat, x: Input :: o < nOuts ==> ProdSum(cubes, o, x) == TermSum(terms, |terms|, o, x)
    ensures ok ==> |cubes| <= |terms| && (forall i :: 0 <= i < |cubes| ==> Good(cubes[i], nIns, nOuts))
    ensures ok ==> forall i, j :: 0 <= i < j < |cubes| ==> FarApart(cubes[i], cubes[j])
    ensures !counted
    ensures ok ==> Starts(start, terms, nIns, nOuts) && cubes == CubesOf(end.st)
    ensures ok ==> Reduced(r, Setting(nOuts, Places(|terms|), useQCost), start, end, quality, counted)
    ensures ok && Ripe(start.st) && PairsOf(|terms|) < Places(|terms|) ==> |cubes| < |start.st.cover|
  {
    hide Ready, Good, FarApart, TermOk, TermSum, ProdSum, Value, Passed, SumOf, Reduced, Starts, Ripe, TermsFar, Queued,
      Complete, Exorcism.Queues, Exorcism.Valid, PairsOf, NoMarks, Resting;
    if |terms| > nCubesMax {
      start, end, r := NoRun();
      return false, [], false, start, end, r;
    }
    var n := |terms| + ADDITIONAL_CUBES;
    PlacesLeft(n);
    var s := new Exorcism(nIns, nOuts, n, n * n / CUBE_PAIR_FACTOR, useQCost);
    AtRest(s);
    AddCubesToStartingCover(s, terms);
    ghost var e := s.St();
    start := s.Now();
    Started(s, terms);
    var it := new LinkIterator();
    ghost var mid;
    mid, counted, r := ReduceEsopCover(s, it, quality);
    end := s.Now();
    ReadyValid(s);
    cubes := Output(s);
    ok := true;
    Finished(s, e, terms, cubes);
    Smaller(r, Setting(nOuts, Places(|terms|), useQCost), start, end, quality, counted, terms, nIns, nOuts);
  }

  lemma PlacesLeft(n: nat)
    requires n >= ADDITIONAL_CUBES
    ensures n * n / CUBE_PAIR_FACTOR > 0
  {
    assert n * n >= ADDITIONAL_CUBES * ADDITIONAL_CUBES;
  }

  lemma AtRest(s: Exorcism)
    requires s.Valid() && s.Queues() && s.cover == [] && NoMarks(s.St()) && forall h: nat :: !Out(s.St(), h)
    ensures Resting(s)
  {
  }

  lemma NoRun() returns (start: View, end: View, r: Reduction)
  {
    var s := Store([], [], [], [], 0, 0, [], []);
    start, end := View(s, [], []), View(s, [], []);
    r := Reduction([], [], [], start, end);
  }

  lemma Started(s: Exorcism, terms: seq<Term>)
    requires Ready(s) && |s.cover| <= |terms| && Covers(s, terms, |terms|) && Queued(s, |terms|, |terms|)
    requires TermsFar(terms, s.nv, s.no) ==> CubesOf(s.St()) == TermCubes(terms, |terms|, s.nv, s.no)
    requires s.places == Places(|terms|) && s.posOut == [0, 0, 0]
    ensures Starts(s.Now(), terms, s.nv, s.no)
  {
    hide TermsFar, SumOf, TermSum, Complete, PairsOf, QueueOk, Spread;
    OkHandles(s.St(), s.nv, s.no, -1);
    OkSizes(s.St(), s.nv, s.no);
  }

  lemma Smaller(r: Reduction, c: Setting, v: View, w: View, quality: int, counted: bool, terms: seq<Term>, nv: nat,
                no: nat)
    requires Starts(v, terms, nv, no) && Reduced(r, c, v, w, quality, counted) && c.places == Places(|terms|)
    ensures Ripe(v.st) && PairsOf(|terms|) < Places(|terms|) ==> |w.st.cover| < |v.st.cover|
  {
    hide TermsFar, SumOf, TermSum, Complete, PairsOf, Spread, Ripe, Reduced, Still;
    if Ripe(v.st) && PairsOf(|terms|) < Places(|terms|) { CoverShrinks(r, c, v, w, quality, counted); }
  }

  lemma ReadyValid(s: Exorcism)
    requires Ready(s)
    ensures s.Valid()
  {
  }

  lemma Finished(s: Exorcism, e: Store, terms: seq<Term>, cubes: seq<Prod>)
    requires Ready(s) && Passed(e, s.St(), s.no, false) && Handles(s.data, s.cover)
    requires cubes == Contents(s.data, s.cover) && |e.cover| <= |terms|
    requires Handles(e.data, e.cover) && forall o: nat, x: Input :: SumOf(e, o, x) == TermSum(terms, |terms|, o, x)
    ensures forall o: nat, x: Input :: o < s.no ==> ProdSum(cubes, o, x) == TermSum(terms, |terms|, o, x)
    ensures |cubes| <= |terms| && (forall i :: 0 <= i < |cubes| ==> Good(cubes[i], s.nv, s.no))
    ensures forall i, j :: 0 <= i < j < |cubes| ==> FarApart(cubes[i], cubes[j])
  {
    hide TermSum, ProdSum, FarApart, Good;
    forall o: nat, x: Input | o < s.no ensures ProdSum(cubes, o, x) == TermSum(terms, |terms|, o, x) {
      ContentsSum(s.data, s.cover, o, x);
      assert SumOf(s.St(), o, x) == SumOf(e, o, x);
    }
    forall i | 0 <= i < |cubes| ensures Good(cubes[i], s.nv, s.no) {
      CoverCube(s.St(), s.cover[i], s.nv, s.no);
    }
    CoverOnce(s);
    forall i, j | 0 <= i < j < |cubes| ensures FarApart(cubes[i], cubes[j]) {
      assert s.cover[i] != s.cover[j] && s.cover[i] in s.cover && s.cover[j] in s.cover;
    }
  }

  lemma CoverOnce(s: Exorcism)
    requires s.Valid()
    ensures Distinct(s.cover)
  {
    ListedDistinct(s.info, s.list, s.cover);
  }
}
