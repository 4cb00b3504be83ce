// Lowpoints of a depth-first search: what they say about cut vertices.
module CubLowpoint {

  // Three neighbours of each vertex, -1 for none.
  type Cub = seq<seq<int>>

  ghost predicate Graph(g: Cub) {
    && (forall v :: 0 <= v < |g| ==> |g[v]| == 3 && forall i :: 0 <= i < 3 ==> -1 <= g[v][i] < |g| && g[v][i] != v)
    && forall u: nat, v: nat :: Edge(g, u, v) ==> Edge(g, v, u)
  }

  ghost predicate Edge(g: Cub, u: nat, v: nat) {
    u < |g| && v < |g| && |g[u]| == 3 && (g[u][0] == v || g[u][1] == v || g[u][2] == v)
  }

  // t is a union of components of the graph on x.
  ghost predicate ClosedIn(g: Cub, x: set<nat>, t: set<nat>) {
    t <= x && forall u, v :: u in t && v in x && Edge(g, u, v) ==> v in t
  }

  ghost predicate Connected(g: Cub, x: set<nat>) {
    forall t: set<nat> :: ClosedIn(g, x, t) && t != {} ==> t == x
  }

  // At least three vertices, connected, and no cut vertex.
  ghost predicate TwoConnected(g: Cub, x: set<nat>) {
    |x| >= 3 && Connected(g, x) && forall c :: c in x ==> Connected(g, x - {c})
  }

  // parent[root] is root itself.
  datatype Search = Search(visited: set<nat>, num: seq<nat>, lp: seq<nat>, stack: seq<nat>, parent: seq<nat>)
  {
    ghost predicate Sized() {
      && |num| == |lp| == |parent| && stack != [] && (forall v :: v in visited ==> v < |num|)
      && (forall k :: 0 <= k < |stack| ==> stack[k] in visited)
      && (forall v :: 0 <= v < |parent| ==> parent[v] < |parent|)
    }

    function Root(): nat
      requires stack != []
    {
      stack[0]
    }

    // The k-th ancestor.
    ghost function Up(d: nat, k: nat): nat
      requires Sized() && d < |parent|
      decreases k
    {
      if k == 0 then d else Up(parent[d], k - 1)
    }

    ghost predicate Desc(d: nat, u: nat)
      requires Sized() && d < |parent|
    {
      exists k: nat :: Up(d, k) == u
    }

    ghost predicate Numbered()
      requires Sized()
    {
      && (forall u :: u in visited ==> num[u] < |visited|)
      && (forall u, v :: u in visited && v in visited && u != v ==> num[u] != num[v])
      && num[Root()] == 0 && parent[Root()] == Root()
    }

    ghost predicate TreeAt(g: Cub, u: nat)
      requires Sized() && u in visited
    {
      parent[u] in visited && Edge(g, parent[u], u) && num[parent[u]] < num[u]
    }

    ghost predicate Tree(g: Cub)
      requires Sized()
    {
      && (forall u {:trigger TreeAt(g, u)} :: u in visited && u != Root() ==> TreeAt(g, u))
      && (forall k :: 0 < k < |stack| ==> parent[stack[k]] == stack[k - 1] && stack[k] != Root())
    }

    // The neighbours of what has been left are visited.
    ghost predicate Left(g: Cub, x: set<nat>) {
      forall u, v :: u in visited && u !in stack && v in x && Edge(g, u, v) ==> v in visited
    }

    // Edges join descendants with ancestors.
    ghost predicate Relatives(g: Cub)
      requires Sized()
    {
      forall u, v :: u in visited && v in visited && Edge(g, u, v) && num[v] < num[u] ==> Desc(u, v)
    }

    ghost predicate Low(g: Cub)
      requires Sized()
    {
      LowEdges(g) && LowChildren() && LowReached(g)
    }

    ghost predicate LowEdges(g: Cub)
      requires Sized()
    {
      forall u, v :: u in visited && v in visited && Edge(g, u, v) && num[v] < num[u] && v != parent[u] ==>
          lp[u] <= num[v]
    }

    ghost predicate LowChildren()
      requires Sized()
    {
      forall u :: u in visited && u !in stack ==> lp[parent[u]] <= lp[u]
    }

    ghost predicate LowReached(g: Cub)
      requires Sized()
    {
      forall u :: u in visited ==> lp[u] <= num[u] && (lp[u] < num[u] ==> Reached(g, u))
    }

    // Some descendant has an edge to the vertex with the low number.
    ghost predicate Reached(g: Cub, u: nat)
      requires Sized() && u in visited
    {
      exists d, a :: d in visited && a in visited && Desc(d, u) && Edge(g, d, a) && num[a] == lp[u]
    }

    // No cut vertex has been found.
    ghost predicate Checked()
      requires Sized()
    {
      forall u :: u in visited && u !in stack && parent[u] != Root() ==> lp[u] < num[parent[u]]
    }

    ghost predicate OneChild()
      requires Sized()
    {
      forall u :: u in visited && u != Root() && parent[u] == Root() ==> |stack| >= 2 && u == stack[1]
    }

    ghost predicate Valid(g: Cub, x: set<nat>) {
      && Sized() && |num| == |g| && visited <= x && Numbered() && Tree(g) && Left(g, x) && Relatives(g) && Low(g)
      && Checked() && OneChild()
    }
  }

  // ---- Ancestors ----

  lemma {:induction false} UpTwice(s: Search, d: nat, i: nat, j: nat)
    requires s.Sized() && d < |s.parent|
    ensures s.Up(d, i) < |s.parent| && s.Up(s.Up(d, i), j) == s.Up(d, i + j)
    decreases i
  {
    if i > 0 { UpTwice(s, s.parent[d], i - 1, j); }
  }

  lemma {:induction false} UpVisited(s: Search, g: Cub, d: nat, k: nat)
    requires s.Sized() && s.Numbered() && s.Tree(g) && d in s.visited
    ensures s.Up(d, k) in s.visited && s.num[s.Up(d, k)] <= s.num[d]
    ensures k > 0 && d != s.Root() ==> s.num[s.Up(d, k)] <= s.num[s.parent[d]] < s.num[d]
    decreases k
  {
    if k > 0 {
      if d != s.Root() { assert s.TreeAt(g, d); }
      UpVisited(s, g, s.parent[d], k - 1);
    }
  }

  lemma {:induction false} UpRoot(s: Search, g: Cub, k: nat)
    requires s.Sized() && s.Numbered() && s.Tree(g)
    ensures s.Up(s.Root(), k) == s.Root()
  {
    if k > 0 { UpRoot(s, g, k - 1); }
  }

  // A vertex of the stack is an ancestor of those above it.
  lemma {:induction false} StackUp(s: Search, g: Cub, i: nat, k: nat)
    requires s.Sized() && s.Numbered() && s.Tree(g) && i + k < |s.stack|
    ensures s.Up(s.stack[i + k], k) == s.stack[i]
  {
    if k > 0 { StackUp(s, g, i, k - 1); }
  }

  // ---- No cut vertex ----

  // On a closed set of the graph without c, a vertex and its ancestor u lie on the same side
  // when c has a smaller number than u.
  lemma {:induction false} SameSideUp(s: Search, g: Cub, x: set<nat>, c: nat, t: set<nat>, d: nat, u: nat, k: nat)
    requires Graph(g) && s.Sized() && s.Numbered() && s.Tree(g) && s.visited <= x && ClosedIn(g, x - {c}, t)
    requires d in s.visited && u in s.visited && s.Up(d, k) == u && u != s.Root()
    requires c in s.visited ==> s.num[c] < s.num[u]
    ensures d in t <==> u in t
    decreases k
  {
    if k > 0 {
      if d == s.Root() { UpRoot(s, g, k); }
      UpVisited(s, g, d, k);
      assert s.TreeAt(g, d);
      hide Graph;
      SameSideUp(s, g, x, c, t, s.parent[d], u, k - 1);
      Across(g, x, c, t, s.parent[d], d);
    }
  }

  // Both ends of an edge without c are on the same side.
  lemma Across(g: Cub, x: set<nat>, c: nat, t: set<nat>, u: nat, v: nat)
    requires Graph(g) && ClosedIn(g, x - {c}, t) && Edge(g, u, v) && u in x && v in x && u != c && v != c
    ensures u in t <==> v in t
  {
    assert Edge(g, v, u);
    hide Edge;
  }

  // Everything visited is on the side of the root.
  lemma {:induction false} RootSide(s: Search, g: Cub, x: set<nat>, c: nat, t: set<nat>, u: nat)
    requires Graph(g) && s.Sized() && s.Numbered() && s.Tree(g) && s.visited <= x && ClosedIn(g, x - {c}, t)
    requires u in s.visited && u != c && c != s.Root()
    requires forall w :: w in s.visited && w != s.Root() && s.parent[w] == c ==> s.lp[w] < s.num[c] && s.Reached(g, w)
    ensures u in t <==> s.Root() in t
    decreases s.num[u]
  {
    hide Graph, ClosedIn, Edge;
    if u != s.Root() {
      assert s.TreeAt(g, u);
      var p := s.parent[u];
      if p != c {
        RootSide(s, g, x, c, t, p);
        Across(g, x, c, t, p, u);
      } else {
        assert s.Reached(g, u);
        var d, a :| d in s.visited && a in s.visited && s.Desc(d, u) && Edge(g, d, a) && s.num[a] == s.lp[u];
        var k: nat :| s.Up(d, k) == u;
        SameSideUp(s, g, x, c, t, d, u, k);
        UpVisited(s, g, d, k);
        RootSide(s, g, x, c, t, a);
        Across(g, x, c, t, d, a);
      }
    }
  }

  // Without the root everything is on the side of its only child.
  lemma {:induction false} ChildSide(s: Search, g: Cub, x: set<nat>, t: set<nat>, u: nat)
    requires Graph(g) && s.Valid(g, x) && ClosedIn(g, x - {s.Root()}, t) && u in s.visited && u != s.Root()
    ensures |s.stack| >= 2 && (u in t <==> s.stack[1] in t)
    decreases s.num[u]
  {
    var p := s.parent[u];
    assert s.TreeAt(g, u) && Edge(g, u, p);
    if p != s.Root() { ChildSide(s, g, x, t, p); }
  }

  // When everything has been visited and left but the root and its child, there is no cut vertex.
  lemma SearchedConnected(s: Search, g: Cub, x: set<nat>)
    requires Graph(g) && s.Valid(g, x) && s.visited == x && |s.stack| <= 2 && |x| >= 3
    ensures TwoConnected(g, x)
  {
    forall t: set<nat> | ClosedIn(g, x, t) && t != {} ensures t == x {
      var c := |g|;
      assert c !in x && x - {c} == x;
      OneSide(s, g, x, c, t);
    }
    forall c | c in x ensures Connected(g, x - {c}) {
      forall t: set<nat> | ClosedIn(g, x - {c}, t) && t != {} ensures t == x - {c} {
        OneSide(s, g, x, c, t);
      }
    }
  }

  lemma OneSide(s: Search, g: Cub, x: set<nat>, c: nat, t: set<nat>)
    requires Graph(g) && s.Valid(g, x) && s.visited == x && |s.stack| <= 2 && ClosedIn(g, x - {c}, t) && t != {}
    ensures t == x - {c}
  {
    var u :| u in t;
    if c == s.Root() {
      ChildSide(s, g, x, t, u);
      forall v | v in x - {c} ensures v in t { ChildSide(s, g, x, t, v); }
    } else {
      forall w | w in s.visited && w != s.Root() && s.parent[w] == c
        ensures s.lp[w] < s.num[c] && s.Reached(g, w)
      { ChildLow(s, g, x, c, w); }
      RootSide(s, g, x, c, t, u);
      forall v | v in x - {c} ensures v in t { RootSide(s, g, x, c, t, v); }
    }
  }

  lemma ChildLow(s: Search, g: Cub, x: set<nat>, c: nat, w: nat)
    requires s.Valid(g, x) && |s.stack| <= 2 && w in s.visited && w != s.Root() && s.parent[w] == c && c != s.Root()
    ensures s.lp[w] < s.num[c] && s.Reached(g, w)
  {
    assert s.TreeAt(g, w);
    assert s.parent[w] != s.Root() && (|s.stack| == 2 ==> s.parent[s.stack[1]] == s.stack[0]);
  }

  // ---- A cut vertex ----

  // The descendants of w.
  ghost function Below(s: Search, w: nat): set<nat>
    requires s.Sized()
  {
    set d | d in s.visited && s.Desc(d, w)
  }

  // The top of the stack has been left by all its edges, and nothing below it reaches above
  // its parent: the parent is a cut vertex.
  lemma CutVertex(s: Search, g: Cub, x: set<nat>)
    requires Graph(g) && s.Valid(g, x) && |s.stack| >= 3
    requires var w, v := s.stack[|s.stack| - 1], s.stack[|s.stack| - 2];
      s.lp[w] >= s.num[v] && forall y :: y in x && Edge(g, w, y) ==> y in s.visited
    ensures !TwoConnected(g, x)
  {
    var w, v := s.stack[|s.stack| - 1], s.stack[|s.stack| - 2];
    var t := Below(s, w);
    UpVisited(s, g, w, 1);
    UpVisited(s, g, v, 1);
    assert s.Up(w, 0) == w;
    assert w in t;
    forall d | d in t ensures d in x - {v} && d != s.Root() {
      var k: nat :| s.Up(d, k) == w;
      UpVisited(s, g, d, k);
    }
    forall d, y | d in t && y in x - {v} && Edge(g, d, y) ensures y in t { BelowClosed(s, g, x, w, v, d, y); }
    assert ClosedIn(g, x - {v}, t);
    assert s.Root() in x - {v};
    assert !Connected(g, x - {v});
  }

  lemma BelowClosed(s: Search, g: Cub, x: set<nat>, w: nat, v: nat, d: nat, y: nat)
    requires Graph(g) && s.Valid(g, x) && |s.stack| >= 3 && w == s.stack[|s.stack| - 1] && v == s.stack[|s.stack| - 2]
    requires s.lp[w] >= s.num[v] && forall z :: z in x && Edge(g, w, z) ==> z in s.visited
    requires d in Below(s, w) && y in x && y != v && Edge(g, d, y)
    ensures y in Below(s, w)
  {
    var j: nat :| s.Up(d, j) == w;
    BelowLeft(s, g, x, w, d, j);
    assert y in s.visited && Edge(g, y, d);
    if s.num[y] > s.num[d] {
      assert s.Desc(y, d);
      var i: nat :| s.Up(y, i) == d;
      UpTwice(s, y, i, j);
      assert s.Up(y, i + j) == w;
    } else {
      assert y != d;
      if y == s.parent[d] {
        assert s.parent[w] == v;
        assert s.Up(y, j - 1) == w;
      } else {
        LowBelow(s, g, x, w, d, j);
        assert s.Desc(d, y);
        var i: nat :| s.Up(d, i) == y;
        AncestorBelow(s, g, x, w, v, d, y, i, j);
      }
    }
  }

  // An ancestor y of d with a larger number than v is below w.
  lemma AncestorBelow(s: Search, g: Cub, x: set<nat>, w: nat, v: nat, d: nat, y: nat, i: nat, j: nat)
    requires s.Valid(g, x) && w in s.visited && w != s.Root() && v == s.parent[w] && d in s.visited && y in s.visited
    requires s.Up(d, i) == y && s.Up(d, j) == w && s.num[y] > s.num[v]
    ensures s.Desc(y, w)
  {
    hide Edge, Search.Left, Search.Relatives, Search.Low, Search.Checked, Search.OneChild;
    if i <= j {
      UpTwice(s, d, i, j - i);
      assert s.Up(y, j - i) == w;
    } else {
      UpTwice(s, d, j, i - j);
      UpVisited(s, g, w, i - j);
      assert false;
    }
  }

  // What is below the top of the stack, apart from the top itself, has been left.
  lemma BelowLeft(s: Search, g: Cub, x: set<nat>, w: nat, d: nat, j: nat)
    requires s.Valid(g, x) && w == s.stack[|s.stack| - 1] && d in s.visited && s.Up(d, j) == w
    ensures d == w || d !in s.stack
  {
    if d in s.stack && d != w {
      var k :| 0 <= k < |s.stack| && s.stack[k] == d;
      StackUp(s, g, k, |s.stack| - 1 - k);
      UpVisited(s, g, w, |s.stack| - 1 - k);
      UpVisited(s, g, d, j);
      assert false;
    }
  }

  lemma {:induction false} LowBelow(s: Search, g: Cub, x: set<nat>, w: nat, d: nat, j: nat)
    requires s.Valid(g, x) && w == s.stack[|s.stack| - 1] && d in s.visited && s.Up(d, j) == w && w != s.Root()
    ensures s.lp[w] <= s.lp[d]
    decreases j
  {
    hide Edge, Search.Relatives, Search.Left, Search.LowEdges, Search.LowReached, Search.Checked, Search.OneChild;
    BelowLeft(s, g, x, w, d, j);
    if d != w {
      if d == s.Root() { UpRoot(s, g, j); }
      assert s.TreeAt(g, d);
      LowBelow(s, g, x, w, s.parent[d], j - 1);
    }
  }

  // The search is back at the root and something has not been visited.
  lemma NotAllVisited(s: Search, g: Cub, x: set<nat>)
    requires Graph(g) && s.Valid(g, x) && s.visited != x && |s.stack| <= 2 && |x| >= 3
    requires forall y :: y in x && Edge(g, s.stack[|s.stack| - 1], y) ==> y in s.visited
    ensures !TwoConnected(g, x)
  {
    var r := s.Root();
    var t := s.visited - {r};
    if t == {} {
      assert s.visited == {r} && s.stack[|s.stack| - 1] in s.visited;
      assert ClosedIn(g, x, {r});
      assert !Connected(g, x);
    } else {
      forall u, y | u in t && y in x - {r} && Edge(g, u, y) ensures y in t {
        if u in s.stack { assert u == s.stack[|s.stack| - 1]; }
      }
      assert ClosedIn(g, x - {r}, t);
      var y :| y in x && y !in s.visited;
      assert y in x - {r};
      assert !Connected(g, x - {r});
    }
  }
}
