// The tests for cut vertices of a cubic graph: an iterative depth-first search with lowpoints,
// on the whole graph or without one vertex.
module CubBiconnected {
  import opened CubLowpoint

  // ---- The steps of the search ----

  function Start(n: nat, r: nat): Search
    requires r < n
  {
    var zeros := seq(n, i => 0);
    Search({r}, zeros, zeros, [r], seq(n, i requires 0 <= i => i))
  }

  lemma StartValid(g: Cub, x: set<nat>, r: nat)
    requires Graph(g) && r in x && r < |g|
    ensures Start(|g|, r).Valid(g, x)
  {
  }

  // The new vertex v, a neighbour of the top of the stack, gets the next number.
  function Visit(s: Search, v: nat, low: nat): Search
    requires v < |s.num| == |s.lp| == |s.parent| && s.stack != []
  {
    Search(s.visited + {v}, s.num[v := |s.visited|], s.lp[v := low], s.stack + [v],
        s.parent[v := s.stack[|s.stack| - 1]])
  }

  // low is the least number among the visited neighbours of v but w, or the number of v.
  ghost predicate LowStart(s: Search, g: Cub, v: nat, w: nat, low: nat)
    requires s.Sized()
  {
    && low <= |s.visited| && (forall y :: y in s.visited && Edge(g, v, y) && y != w ==> low <= s.num[y])
    && (low < |s.visited| ==> exists y :: y in s.visited && Edge(g, v, y) && y != w && s.num[y] == low)
  }

  ghost predicate Visitable(s: Search, g: Cub, x: set<nat>, v: nat, low: nat) {
    && Graph(g) && s.Valid(g, x) && v in x && v !in s.visited && v < |g|
    && Edge(g, s.stack[|s.stack| - 1], v) && LowStart(s, g, v, s.stack[|s.stack| - 1], low)
  }

  lemma VisitSized(s: Search, g: Cub, x: set<nat>, v: nat, low: nat)
    requires Visitable(s, g, x, v, low)
    ensures v < |s.num| == |s.lp| == |s.parent| && Visit(s, v, low).Sized() && Visit(s, v, low).Numbered()
  {
    hide Edge, Graph, LowStart, Search.Tree, Search.Left, Search.Relatives, Search.Low, Search.Checked, Search.OneChild;
    var t := Visit(s, v, low);
    assert |t.visited| == |s.visited| + 1;
  }

  // Ancestors of what had been visited are the same.
  lemma {:induction false} UpFrame(s: Search, t: Search, g: Cub, d: nat, k: nat)
    requires s.Sized() && s.Numbered() && s.Tree(g) && t.Sized() && |t.parent| == |s.parent| && d in s.visited
    requires forall u :: u in s.visited ==> t.parent[u] == s.parent[u]
    ensures t.Up(d, k) == s.Up(d, k)
    decreases k
  {
    if k > 0 {
      if d != s.Root() { assert s.TreeAt(g, d); }
      UpFrame(s, t, g, s.parent[d], k - 1);
    }
  }

  lemma DescFrame(s: Search, t: Search, g: Cub, d: nat, u: nat)
    requires s.Sized() && s.Numbered() && s.Tree(g) && t.Sized() && |t.parent| == |s.parent| && d in s.visited
    requires s.Desc(d, u)
    requires forall u :: u in s.visited ==> t.parent[u] == s.parent[u]
    ensures t.Desc(d, u)
  {
    var k: nat :| s.Up(d, k) == u;
    UpFrame(s, t, g, d, k);
  }

  lemma VisitTree(s: Search, g: Cub, x: set<nat>, v: nat, low: nat)
    requires Visitable(s, g, x, v, low)
    ensures v < |s.num| == |s.lp| == |s.parent| && Visit(s, v, low).Sized() && Visit(s, v, low).Tree(g)
  {
    hide Edge, Graph, LowStart, Search.Relatives, Search.Low, Search.Left, Search.Checked, Search.OneChild;
    VisitSized(s, g, x, v, low);
    var t := Visit(s, v, low);
    assert t.stack[0] == s.stack[0];
    forall u | u in t.visited && u != t.Root() ensures t.TreeAt(g, u) {
      if u != v { assert s.TreeAt(g, u); }
    }
    forall k | 0 < k < |t.stack|
      ensures t.parent[t.stack[k]] == t.stack[k - 1] && t.stack[k] != t.Root()
    { VisitStack(s, g, x, v, low, k); }
  }

  lemma VisitStack(s: Search, g: Cub, x: set<nat>, v: nat, low: nat, k: nat)
    requires Visitable(s, g, x, v, low) && 0 < k <= |s.stack|
    ensures v < |s.num| == |s.lp| == |s.parent| && s.stack + [v] != []
    ensures var t := Visit(s, v, low);
      t.stack[k] < |t.parent| && t.parent[t.stack[k]] == t.stack[k - 1] && t.stack[k] != t.stack[0]
  {
    hide Edge, Graph, LowStart, Search.Relatives, Search.Low, Search.Left, Search.Checked, Search.OneChild,
      Search.TreeAt;
    var t := Visit(s, v, low);
    assert t.stack[k - 1] == s.stack[k - 1] && t.stack[0] == s.stack[0];
    if k < |s.stack| { assert t.stack[k] == s.stack[k] && s.stack[k] in s.visited; }
  }

  // The visited neighbours of the new vertex are on the stack.
  lemma NeighbourOnStack(s: Search, g: Cub, x: set<nat>, v: nat, low: nat, y: nat)
    requires Visitable(s, g, x, v, low) && y in s.visited && Edge(g, v, y)
    ensures v < |s.num| == |s.lp| == |s.parent| && Visit(s, v, low).Sized() && Visit(s, v, low).Desc(v, y)
  {
    hide Search.Low, Search.Relatives, Search.Checked, Search.OneChild, LowStart;
    VisitSized(s, g, x, v, low);
    VisitTree(s, g, x, v, low);
    var t := Visit(s, v, low);
    assert Edge(g, y, v);
    assert y in s.stack;
    var i :| 0 <= i < |s.stack| && s.stack[i] == y;
    assert t.stack[i] == y && t.stack[|s.stack|] == v;
    StackUp(t, g, i, |s.stack| - i);
  }

  lemma VisitRelatives(s: Search, g: Cub, x: set<nat>, v: nat, low: nat)
    requires Visitable(s, g, x, v, low)
    ensures v < |s.num| == |s.lp| == |s.parent| && Visit(s, v, low).Sized() && Visit(s, v, low).Relatives(g)
  {
    hide Graph, Edge, Search.Low, Search.Left, Search.Checked, Search.OneChild, Search.Desc, LowStart;
    VisitSized(s, g, x, v, low);
    var t := Visit(s, v, low);
    forall a, b | a in t.visited && b in t.visited && Edge(g, a, b) && t.num[b] < t.num[a] ensures t.Desc(a, b) {
      if a == v {
        assert b != v;
        NeighbourOnStack(s, g, x, v, low, b);
      } else {
        assert b != v;
        DescFrame(s, t, g, a, b);
      }
    }
  }

  lemma VisitLow(s: Search, g: Cub, x: set<nat>, v: nat, low: nat)
    requires Visitable(s, g, x, v, low)
    ensures v < |s.num| == |s.lp| == |s.parent| && Visit(s, v, low).Sized() && Visit(s, v, low).Low(g)
  {
    hide Graph, Edge, LowStart, Search.Relatives, Search.Left, Search.Checked, Search.OneChild, Search.Tree,
      Search.Low, Search.Numbered;
    hide Search.LowEdges, Search.LowChildren, Search.LowReached;
    VisitSized(s, g, x, v, low);
    VisitLowEdges(s, g, x, v, low);
    VisitLowChildren(s, g, x, v, low);
    VisitLowReached(s, g, x, v, low);
    LowParts(Visit(s, v, low), g);
  }

  lemma LowParts(t: Search, g: Cub)
    requires t.Sized() && t.LowEdges(g) && t.LowChildren() && t.LowReached(g)
    ensures t.Low(g)
  {
  }

  lemma VisitLowEdges(s: Search, g: Cub, x: set<nat>, v: nat, low: nat)
    requires Visitable(s, g, x, v, low)
    ensures v < |s.num| == |s.lp| == |s.parent| && Visit(s, v, low).Sized() && Visit(s, v, low).LowEdges(g)
  {
    hide Graph, Edge, LowStart, Search.Relatives, Search.Left, Search.Checked, Search.OneChild, Search.Tree,
      Search.LowChildren, Search.LowReached;
    VisitSized(s, g, x, v, low);
    var t := Visit(s, v, low);
    var w := s.stack[|s.stack| - 1];
    forall a, b | a in t.visited && b in t.visited && Edge(g, a, b) && t.num[b] < t.num[a] && b != t.parent[a]
      ensures t.lp[a] <= t.num[b]
    {
      if a == v { LowBound(s, g, v, w, low, b); }
    }
  }

  lemma VisitLowChildren(s: Search, g: Cub, x: set<nat>, v: nat, low: nat)
    requires Visitable(s, g, x, v, low)
    ensures v < |s.num| == |s.lp| == |s.parent| && Visit(s, v, low).Sized() && Visit(s, v, low).LowChildren()
  {
    hide Graph, Edge, LowStart, Search.Relatives, Search.Left, Search.Checked, Search.OneChild, Search.Tree,
      Search.LowEdges, Search.LowReached;
    VisitSized(s, g, x, v, low);
    var t := Visit(s, v, low);
    forall u | u in t.visited && u !in t.stack ensures t.lp[t.parent[u]] <= t.lp[u] {
      assert u in s.visited && u !in s.stack;
      LeftParent(s, g, x, u);
    }
  }

  lemma VisitLowReached(s: Search, g: Cub, x: set<nat>, v: nat, low: nat)
    requires Visitable(s, g, x, v, low)
    ensures v < |s.num| == |s.lp| == |s.parent| && Visit(s, v, low).Sized() && Visit(s, v, low).LowReached(g)
  {
    hide Graph, Edge, LowStart, Search.Relatives, Search.Left, Search.Checked, Search.OneChild, Search.Tree,
      Search.LowEdges, Search.LowChildren, Search.Reached;
    VisitSized(s, g, x, v, low);
    var t := Visit(s, v, low);
    forall u | u in t.visited ensures t.lp[u] <= t.num[u] && (t.lp[u] < t.num[u] ==> t.Reached(g, u)) {
      if u == v { VisitReached(s, g, x, v, low); } else if s.lp[u] < s.num[u] { StillReached(s, t, g, u); }
    }
  }

  lemma LowBound(s: Search, g: Cub, v: nat, w: nat, low: nat, y: nat)
    requires s.Sized() && LowStart(s, g, v, w, low) && y in s.visited && Edge(g, v, y) && y != w
    ensures low <= s.num[y]
  {
  }

  lemma VisitReached(s: Search, g: Cub, x: set<nat>, v: nat, low: nat)
    requires Visitable(s, g, x, v, low)
    ensures v < |s.num| == |s.lp| == |s.parent| && Visit(s, v, low).Sized()
    ensures low <= |s.visited| && (low < |s.visited| ==> Visit(s, v, low).Reached(g, v))
  {
    hide Graph, Edge, Search.Relatives, Search.Left, Search.Checked, Search.OneChild, Search.Low, Search.Tree;
    VisitSized(s, g, x, v, low);
    var t := Visit(s, v, low);
    if low < |s.visited| {
      var y :| y in s.visited && Edge(g, v, y) && y != s.stack[|s.stack| - 1] && s.num[y] == low;
      assert t.Up(v, 0) == v;
      assert t.Desc(v, v) && t.num[y] == low;
    }
  }

  lemma StillReached(s: Search, t: Search, g: Cub, u: nat)
    requires s.Sized() && s.Numbered() && s.Tree(g) && u in s.visited && s.Reached(g, u)
    requires t.Sized() && |t.parent| == |s.parent| && s.visited <= t.visited && t.lp[u] == s.lp[u]
    requires forall v :: v in s.visited ==> t.parent[v] == s.parent[v] && t.num[v] == s.num[v]
    ensures t.Reached(g, u)
  {
    hide Edge, Search.Numbered, Search.Tree;
    var d, a :| d in s.visited && a in s.visited && s.Desc(d, u) && Edge(g, d, a) && s.num[a] == s.lp[u];
    DescFrame(s, t, g, d, u);
    assert t.num[a] == t.lp[u];
  }

  lemma VisitLeft(s: Search, g: Cub, x: set<nat>, v: nat, low: nat)
    requires Visitable(s, g, x, v, low)
    ensures v < |s.num| == |s.lp| == |s.parent| && Visit(s, v, low).Sized() && Visit(s, v, low).Left(g, x)
    ensures Visit(s, v, low).Checked()
  {
    hide Edge, Graph, LowStart, Search.Relatives, Search.Low, Search.Tree, Search.OneChild;
    VisitSized(s, g, x, v, low);
    var t := Visit(s, v, low);
    forall u, y | u in t.visited && u !in t.stack && y in x && Edge(g, u, y)
      ensures y in t.visited
    { assert u in s.visited && u !in s.stack; }
    forall u | u in t.visited && u !in t.stack && t.parent[u] != t.Root() ensures t.lp[u] < t.num[t.parent[u]] {
      assert u in s.visited && u !in s.stack;
      LeftParent(s, g, x, u);
    }
  }

  lemma VisitValid(s: Search, g: Cub, x: set<nat>, v: nat, low: nat)
    requires Visitable(s, g, x, v, low)
    ensures v < |s.num| == |s.lp| == |s.parent| && Visit(s, v, low).Valid(g, x)
  {
    hide Edge, Graph, LowStart, Search.Numbered, Search.Relatives, Search.Low, Search.Tree, Search.Left,
      Search.Checked, Search.OneChild;
    VisitSized(s, g, x, v, low);
    VisitTree(s, g, x, v, low);
    VisitRelatives(s, g, x, v, low);
    VisitLow(s, g, x, v, low);
    VisitLeft(s, g, x, v, low);
    VisitOneChild(s, g, x, v, low);
  }

  lemma LeftParent(s: Search, g: Cub, x: set<nat>, u: nat)
    requires s.Valid(g, x) && u in s.visited && u !in s.stack
    ensures s.parent[u] in s.visited
  {
    assert s.TreeAt(g, u);
  }

  lemma VisitOneChild(s: Search, g: Cub, x: set<nat>, v: nat, low: nat)
    requires Visitable(s, g, x, v, low)
    ensures v < |s.num| == |s.lp| == |s.parent| && Visit(s, v, low).Sized() && Visit(s, v, low).OneChild()
  {
    hide Edge, Graph, LowStart, Search.Relatives, Search.Low, Search.Left, Search.Checked;
    VisitSized(s, g, x, v, low);
    var t := Visit(s, v, low);
    forall u | u in t.visited && u != t.Root() && t.parent[u] == t.Root() ensures |t.stack| >= 2 && u == t.stack[1] {
      if u == v { assert s.stack[|s.stack| - 1] == s.Root(); }
    }
  }

  // Back to the parent, which gets the lower lowpoint.
  function Back(s: Search): Search
    requires |s.stack| >= 2 && |s.num| == |s.lp| && s.stack[|s.stack| - 1] < |s.lp| && s.stack[|s.stack| - 2] < |s.lp|
  {
    var w, v := s.stack[|s.stack| - 1], s.stack[|s.stack| - 2];
    s.(stack := s.stack[..|s.stack| - 1], lp := if s.lp[w] < s.lp[v] then s.lp[v := s.lp[w]] else s.lp)
  }

  ghost predicate Finished(s: Search, g: Cub, x: set<nat>) {
    && Graph(g) && s.Valid(g, x) && |s.stack| >= 3
    && (forall y :: y in x && Edge(g, s.stack[|s.stack| - 1], y) ==> y in s.visited)
    && s.lp[s.stack[|s.stack| - 1]] < s.num[s.stack[|s.stack| - 2]]
  }

  lemma BackSized(s: Search, g: Cub, x: set<nat>)
    requires Finished(s, g, x)
    ensures s.stack[|s.stack| - 1] < |s.lp| == |s.num| && s.stack[|s.stack| - 2] < |s.lp|
    ensures var t := Back(s); t.Sized() && t.Numbered() && |t.num| == |g|
  {
    hide Edge, Graph, Search.Low, Search.Left, Search.Relatives, Search.Checked, Search.Tree, Search.OneChild;
    var t := Back(s);
    assert forall k :: 0 <= k < |t.stack| ==> t.stack[k] == s.stack[k];
  }

  lemma BackTree(s: Search, g: Cub, x: set<nat>)
    requires Finished(s, g, x)
    ensures s.stack[|s.stack| - 1] < |s.lp| == |s.num| && s.stack[|s.stack| - 2] < |s.lp|
    ensures var t := Back(s); t.Sized() && t.Tree(g) && t.OneChild()
  {
    hide Edge, Graph, Search.Low, Search.Left, Search.Relatives, Search.Checked, Search.Numbered;
    BackSized(s, g, x);
    var t := Back(s);
    assert forall k :: 0 <= k < |t.stack| ==> t.stack[k] == s.stack[k];
    forall u | u in t.visited && u != t.Root() ensures t.TreeAt(g, u) { assert s.TreeAt(g, u); }
  }

  lemma BackRelatives(s: Search, g: Cub, x: set<nat>)
    requires Finished(s, g, x)
    ensures s.stack[|s.stack| - 1] < |s.lp| == |s.num| && s.stack[|s.stack| - 2] < |s.lp| && Back(s).Sized()
    ensures Back(s).Relatives(g)
  {
    hide Edge, Graph, Search.Low, Search.Left, Search.Checked, Search.Desc;
    BackSized(s, g, x);
    var t := Back(s);
    forall a, b | a in t.visited && b in t.visited && Edge(g, a, b) && t.num[b] < t.num[a]
      ensures t.Desc(a, b)
    { DescFrame(s, t, g, a, b); }
  }

  // What is not on the stack any more.
  lemma Popped(s: Search, u: nat)
    requires |s.stack| >= 2 && u !in s.stack[..|s.stack| - 1]
    ensures u !in s.stack || u == s.stack[|s.stack| - 1]
  {
  }

  lemma BackLow(s: Search, g: Cub, x: set<nat>)
    requires Finished(s, g, x)
    ensures s.stack[|s.stack| - 1] < |s.lp| == |s.num| && s.stack[|s.stack| - 2] < |s.lp| && Back(s).Sized()
    ensures Back(s).Low(g)
  {
    hide Graph, Edge, Search.Relatives, Search.Left, Search.Checked, Search.OneChild, Search.Reached;
    BackSized(s, g, x);
    var t := Back(s);
    var w, v := s.stack[|s.stack| - 1], s.stack[|s.stack| - 2];
    assert s.parent[w] == v && s.TreeAt(g, w);
    assert v == t.stack[|t.stack| - 1];
    forall u | u in t.visited && u !in t.stack ensures t.lp[t.parent[u]] <= t.lp[u] {
      Popped(s, u);
      assert u != v;
    }
    forall u | u in t.visited ensures t.lp[u] <= t.num[u] && (t.lp[u] < t.num[u] ==> t.Reached(g, u)) {
      if u == v && s.lp[w] < s.lp[v] { ReachedUp(s, t, g, w, v); }
      else if s.lp[u] < s.num[u] { StillReached(s, t, g, u); }
    }
  }

  lemma ReachedUp(s: Search, t: Search, g: Cub, w: nat, v: nat)
    requires s.Sized() && s.Numbered() && s.Tree(g) && w in s.visited && s.Reached(g, w) && v == s.parent[w]
    requires v in s.visited
    requires t.Sized() && t.visited == s.visited && t.parent == s.parent && t.num == s.num && t.lp[v] == s.lp[w]
    ensures t.Reached(g, v)
  {
    var d, a :| d in s.visited && a in s.visited && s.Desc(d, w) && Edge(g, d, a) && s.num[a] == s.lp[w];
    var k: nat :| s.Up(d, k) == w;
    UpTwice(s, d, k, 1);
    assert s.Up(w, 1) == s.Up(v, 0) == v;
    assert s.Desc(d, v);
    DescFrame(s, t, g, d, v);
    assert t.num[a] == t.lp[v];
  }

  lemma BackValid(s: Search, g: Cub, x: set<nat>)
    requires Finished(s, g, x)
    ensures s.stack[|s.stack| - 1] < |s.lp| == |s.num| && s.stack[|s.stack| - 2] < |s.lp| && Back(s).Valid(g, x)
  {
    hide Graph, Edge, Search.Relatives, Search.Low, Search.Tree, Search.Numbered, Search.OneChild, Search.Left,
      Search.Checked;
    BackSized(s, g, x);
    BackTree(s, g, x);
    BackRelatives(s, g, x);
    BackLow(s, g, x);
    BackLeft(s, g, x);
  }

  lemma BackLeft(s: Search, g: Cub, x: set<nat>)
    requires Finished(s, g, x)
    ensures s.stack[|s.stack| - 1] < |s.lp| == |s.num| && s.stack[|s.stack| - 2] < |s.lp| && Back(s).Sized()
    ensures Back(s).Left(g, x) && Back(s).Checked()
  {
    hide Graph, Edge, Search.Relatives, Search.Low, Search.OneChild;
    BackSized(s, g, x);
    var t := Back(s);
    var w, v := s.stack[|s.stack| - 1], s.stack[|s.stack| - 2];
    assert s.parent[w] == v && t.stack[|t.stack| - 1] == v;
    forall u, y | u in t.visited && u !in t.stack && y in x && Edge(g, u, y) ensures y in t.visited { Popped(s, u); }
    forall u | u in t.visited && u !in t.stack && t.parent[u] != t.Root() ensures t.lp[u] < t.num[t.parent[u]] {
      Popped(s, u);
      assert u != v;
    }
  }

  // ---- The procedure ----

  // The vertices but the one taken away.
  function Alive(n: nat, gone: int): (r: set<nat>)
    ensures forall v: nat :: v in r <==> v < n && v != gone
  {
    if n == 0 then {} else Alive(n - 1, gone) + if n - 1 == gone then {} else {n - 1}
  }

  // A neighbour not yet visited.
  method NextChild(g: Cub, v: nat, visited: seq<bool>) returns (i: nat)
    requires Graph(g) && v < |g| == |visited|
    ensures |g[v]| == 3 && i <= 3 && (i < 3 ==> 0 <= g[v][i] < |g| && !visited[g[v][i]])
    ensures i == 3 ==> forall y: nat :: Edge(g, v, y) ==> y < |visited| && visited[y]
  {
    i := 0;
    while i < 3
      invariant i <= 3 && |g[v]| == 3 && forall j :: 0 <= j < i ==> g[v][j] == -1 || visited[g[v][j]]
    {
      if g[v][i] >= 0 && !visited[g[v][i]] {
        return;
      }
      i := i + 1;
    }
  }

  // The lowpoint of a new vertex from its visited neighbours.
  method LowOf(g: Cub, v: nat, w: nat, gone: int, visited: seq<bool>, num: seq<nat>, number: nat) returns (low: nat)
    requires Graph(g) && v < |g| == |visited| == |num| && visited[v]
    ensures low <= number
    ensures forall y: nat :: Edge(g, v, y) && y != w && y != gone && visited[y] ==> low <= num[y]
    ensures low < number ==>
      exists y: nat :: y < |g| && Edge(g, v, y) && y != w && y != gone && visited[y] && num[y] == low
  {
    low := number;
    for i := 0 to 3
      invariant low <= number && |g[v]| == 3
      invariant forall j :: 0 <= j < i && g[v][j] >= 0 && g[v][j] != w && g[v][j] != gone && visited[g[v][j]] ==>
        low <= num[g[v][j]]
      invariant low < number ==>
        exists y: nat :: y < |g| && Edge(g, v, y) && y != w && y != gone && visited[y] && num[y] == low
    {
      var x := g[v][i];
      if x >= 0 && x != w && x != gone && visited[x] {
        if num[x] < low {
          assert Edge(g, v, x);
          low := num[x];
        }
      }
    }
  }

  // The arrays and counters of the procedure.
  datatype Frame = Frame(visited: seq<bool>, num: seq<nat>, lp: seq<nat>, stack: seq<nat>, v: nat, numvis: nat)

  ghost predicate Holds(s: Search, g: Cub, gone: int, f: Frame) {
    && |f.visited| == |g| && f.num == s.num && f.lp == s.lp && f.stack == s.stack && f.stack != []
    && f.v == f.stack[|f.stack| - 1]
    && f.numvis == |s.visited| && (forall u: nat :: u < |g| ==> (u in s.visited <==> f.visited[u] && u != gone))
    && (0 <= gone < |g| ==> f.visited[gone])
  }

  // The state of the search behind the arrays.
  ghost predicate Searching(s: Search, g: Cub, gone: int, f: Frame) {
    Graph(g) && s.Valid(g, Alive(|g|, gone)) && Holds(s, g, gone, f)
  }

  lemma SearchingSizes(s: Search, g: Cub, gone: int, f: Frame)
    requires Searching(s, g, gone, f)
    ensures Graph(g) && f.v < |g| == |f.visited| == |f.num| == |f.lp| && f.stack != [] && f.stack == s.stack
    ensures f.v == f.stack[|f.stack| - 1]
    ensures f.lp == s.lp && f.num == s.num && forall k :: 0 <= k < |f.stack| ==> f.stack[k] < |g|
  {
    hide Graph, Search.Numbered, Search.Tree, Search.Left, Search.Relatives, Search.Low, Search.Checked,
      Search.OneChild;
  }

  lemma StartSearching(g: Cub, gone: int, start: nat, f: Frame)
    requires Graph(g) && start < |g| && start != gone && |f.visited| == |g|
    requires forall u: nat :: u < |g| ==> f.visited[u] == (u == start || u == gone)
    requires f.num == f.lp == seq(|g|, u => 0) && f.stack == [start] && f.v == start && f.numvis == 1
    ensures Searching(Start(|g|, start), g, gone, f)
  {
    StartValid(g, Alive(|g|, gone), start);
  }

  // Go on to a neighbour not yet visited.
  method Descend(g: Cub, gone: int, f: Frame, i: nat, ghost s: Search) returns (r: Frame, ghost t: Search)
    requires Searching(s, g, gone, f) && f.v < |g| && i < 3 && |g[f.v]| == 3 && 0 <= g[f.v][i] < |f.visited|
    requires !f.visited[g[f.v][i]]
    ensures Searching(t, g, gone, r) && r.numvis == f.numvis + 1 <= |Alive(|g|, gone)|
  {
    hide Graph, Edge, Search.Valid, Visit, Holds, LowStart, Visitable;
    SearchingSizes(s, g, gone, f);
    var w, v := f.v, g[f.v][i];
    ChildAlive(s, g, gone, f, i);
    var visited, num := f.visited[v := true], f.num[v := f.numvis];
    var low := LowOf(g, v, w, gone, visited, num, f.numvis);
    LowStarts(s, g, gone, f, v, low);
    VisitValid(s, g, Alive(|g|, gone), v, low);
    r := Frame(visited, num, f.lp[v := low], f.stack + [v], v, f.numvis + 1);
    t := Visit(s, v, low);
    VisitHolds(s, g, gone, f, v, low);
  }

  lemma ChildAlive(s: Search, g: Cub, gone: int, f: Frame, i: nat)
    requires Searching(s, g, gone, f) && f.v < |g| && i < 3 && |g[f.v]| == 3 && 0 <= g[f.v][i] < |f.visited|
    requires !f.visited[g[f.v][i]]
    ensures g[f.v][i] in Alive(|g|, gone) && g[f.v][i] !in s.visited && Edge(g, f.v, g[f.v][i])
    ensures f.numvis == |s.visited|
  {
    hide Graph, Search.Valid;
  }

  lemma LowStarts(s: Search, g: Cub, gone: int, f: Frame, v: nat, low: nat)
    requires Searching(s, g, gone, f) && f.v < |g| && v in Alive(|g|, gone) && v !in s.visited && Edge(g, f.v, v)
    requires low <= f.numvis
    requires |f.num| == |f.visited| == |g|
    requires forall y: nat :: Edge(g, v, y) && y != f.v && y != gone && f.visited[v := true][y] ==>
      low <= f.num[v := f.numvis][y]
    requires low < f.numvis ==>
      exists y: nat :: y < |g| && Edge(g, v, y) && y != f.v && y != gone && f.visited[v := true][y] &&
          f.num[v := f.numvis][y] == low
    ensures Visitable(s, g, Alive(|g|, gone), v, low)
  {
    hide Edge, Graph, Search.Tree, Search.Left, Search.Relatives, Search.Low, Search.Checked, Search.OneChild,
      Search.Numbered;
    forall y | y in s.visited && Edge(g, v, y) && y != f.v ensures low <= s.num[y] {
      assert y != v && f.visited[v := true][y] && y != gone;
    }
    if low < f.numvis {
      var y: nat :| y < |g| && Edge(g, v, y) && y != f.v && y != gone && f.visited[v := true][y] &&
          f.num[v := f.numvis][y] == low;
      NoLoop(g, v, y);
      assert y in s.visited;
    }
  }

  lemma NoLoop(g: Cub, u: nat, v: nat)
    requires Graph(g) && Edge(g, u, v)
    ensures u != v
  {
  }

  lemma VisitHolds(s: Search, g: Cub, gone: int, f: Frame, v: nat, low: nat)
    requires Searching(s, g, gone, f) && v in Alive(|g|, gone) && v !in s.visited
    ensures v < |s.num| == |s.lp| == |s.parent| == |f.num| == |f.lp| == |f.visited|
    ensures |s.visited| + 1 <= |Alive(|g|, gone)|
    ensures Holds(Visit(s, v, low), g, gone, Frame(f.visited[v := true], f.num[v := f.numvis], f.lp[v := low],
        f.stack + [v], v, f.numvis + 1))
  {
    hide Edge, Graph, Search.Tree, Search.Left, Search.Relatives, Search.Low, Search.Checked, Search.OneChild,
      Search.Numbered;
    assert |s.visited + {v}| == |s.visited| + 1;
    SubsetSize(s.visited + {v}, Alive(|g|, gone));
  }

  lemma SubsetSize(a: set<nat>, b: set<nat>)
    requires a <= b
    ensures |a| <= |b|
    ensures |a| == |b| ==> a == b
  {
    assert b == a + (b - a);
  }

  lemma NothingLeft(s: Search, g: Cub, gone: int, f: Frame)
    requires Searching(s, g, gone, f) && forall y: nat :: Edge(g, f.v, y) ==> y < |f.visited| && f.visited[y]
    ensures f.v == s.stack[|s.stack| - 1] && forall y :: y in Alive(|g|, gone) && Edge(g, f.v, y) ==> y in s.visited
  {
    hide Graph, Search.Valid;
  }

  // Back up to the parent; bad: the parent is a cut vertex.
  method BackUp(g: Cub, gone: int, f: Frame, ghost s: Search) returns (bad: bool, r: Frame, ghost t: Search)
    requires Searching(s, g, gone, f) && |f.stack| >= 3
    requires forall y: nat :: Edge(g, f.v, y) ==> y < |f.visited| && f.visited[y]
    ensures bad ==> !TwoConnected(g, Alive(|g|, gone))
    ensures !bad ==> Searching(t, g, gone, r) && r.numvis == f.numvis && |r.stack| == |f.stack| - 1
  {
    hide Graph, Edge, TwoConnected, Search.Valid, Back, Holds;
    SearchingSizes(s, g, gone, f);
    NothingLeft(s, g, gone, f);
    var w, v := f.v, f.stack[|f.stack| - 2];
    r, t := f, s;
    bad := f.lp[w] >= f.num[v];
    if bad {
      CutVertex(s, g, Alive(|g|, gone));
      return;
    }
    BackValid(s, g, Alive(|g|, gone));
    BackHolds(s, g, gone, f);
    var lp := f.lp;
    if lp[w] < lp[v] {
      lp := lp[v := lp[w]];
    }
    r := f.(lp := lp, stack := f.stack[..|f.stack| - 1], v := v);
    t := Back(s);
  }

  lemma BackHolds(s: Search, g: Cub, gone: int, f: Frame)
    requires Searching(s, g, gone, f) && |f.stack| >= 3
    ensures f.v < |f.lp| && f.stack[|f.stack| - 2] < |f.lp| && s.stack[|s.stack| - 1] < |s.lp| == |s.num|
    ensures s.stack[|s.stack| - 2] < |s.lp|
    ensures var v := f.stack[|f.stack| - 2]; var lp := if f.lp[f.v] < f.lp[v] then f.lp[v := f.lp[f.v]] else f.lp;
      Holds(Back(s), g, gone, f.(lp := lp, stack := f.stack[..|f.stack| - 1], v := v))
  {
    hide Graph, Search.Tree, Search.Left, Search.Relatives, Search.Low, Search.Checked, Search.OneChild,
      Search.Numbered;
  }

  lemma AtRoot(s: Search, g: Cub, gone: int, f: Frame)
    requires Searching(s, g, gone, f) && |Alive(|g|, gone)| >= 3
    requires |f.stack| <= 2 && forall y: nat :: Edge(g, f.v, y) ==> y < |f.visited| && f.visited[y]
    ensures f.numvis == |Alive(|g|, gone)| <==> TwoConnected(g, Alive(|g|, gone))
  {
    hide Graph, Edge, TwoConnected, Search.Tree, Search.Left, Search.Relatives, Search.Low, Search.Checked,
      Search.OneChild;
    NothingLeft(s, g, gone, f);
    var x := Alive(|g|, gone);
    SubsetSize(s.visited, x);
    if s.visited == x { SearchedConnected(s, g, x); } else { NotAllVisited(s, g, x); }
  }

  // The search of biconnected_cub (gone is no vertex) and biconnected_cub_v.
  method SearchCutVertex(g: Cub, gone: int, start: nat, size: nat) returns (yes: bool)
    requires Graph(g) && start < |g| && start != gone && size == |Alive(|g|, gone)| && size >= 3
    ensures yes <==> TwoConnected(g, Alive(|g|, gone))
  {
    hide Graph, Edge, TwoConnected, Searching;
    ghost var s := Start(|g|, start);
    var f := Frame(seq(|g|, u => u == start || u == gone), seq(|g|, u => 0), seq(|g|, u => 0), [start], start, 1);
    StartSearching(g, gone, start, f);
    while true
      invariant Searching(s, g, gone, f) && f.numvis <= size
      decreases size - f.numvis, |f.stack|
    {
      SearchingSizes(s, g, gone, f);
      var i := NextChild(g, f.v, f.visited);
      if i < 3 {
        f, s := Descend(g, gone, f, i, s);
      } else if |f.stack| <= 2 {
        AtRoot(s, g, gone, f);
        return f.numvis == size;
      } else {
        var bad;
        bad, f, s := BackUp(g, gone, f, s);
        if bad {
          return false;
        }
      }
    }
  }

  // biconnected_cub.
  method BiconnectedCub(g: Cub) returns (yes: bool)
    requires Graph(g)
    ensures yes <==> TwoConnected(g, Alive(|g|, -1))
  {
    AliveSize(|g|, -1);
    if |g| <= 2 {
      return false;
    }
    yes := SearchCutVertex(g, -1, 0, |g|);
  }

  // biconnected_cub_v.
  method BiconnectedCubV(g: Cub, vv: nat) returns (yes: bool)
    requires Graph(g) && vv < |g|
    ensures yes <==> TwoConnected(g, Alive(|g|, vv))
  {
    AliveSize(|g|, vv);
    if |g| <= 3 {
      return false;
    }
    yes := SearchCutVertex(g, vv, if vv == 0 then 1 else 0, |g| - 1);
  }

  lemma {:induction false} AliveAll(n: nat)
    ensures |Alive(n, -1)| == n
  {
    if n > 0 { AliveAll(n - 1); }
  }

  lemma AliveSize(n: nat, gone: int)
    requires -1 <= gone < n
    ensures |Alive(n, gone)| == if gone == -1 then n else n - 1
  {
    AliveAll(n);
    if gone != -1 { assert Alive(n, -1) == Alive(n, gone) + {gone}; }
  }

  // Taking away any two vertices leaves the graph connected.
  ghost predicate Triconnected(g: Cub) {
    |g| >= 4 && forall a: nat, b: nat :: a < |g| && b < |g| ==> Connected(g, Alive(|g|, a) - {b})
  }

  // triconnected_cub: the last vertex is never taken away on its own.
  method TriconnectedCub(g: Cub) returns (yes: bool)
    requires Graph(g)
    ensures yes <==> Triconnected(g)
  {
    hide Graph, TwoConnected, Connected;
    if |g| <= 3 {
      return false;
    }
    var vv := |g| - 1;
    while vv > 0
      invariant 0 <= vv < |g| && forall u: nat :: vv <= u < |g| - 1 ==> TwoConnected(g, Alive(|g|, u))
    {
      vv := vv - 1;
      yes := BiconnectedCubV(g, vv);
      if !yes {
        NotTriconnected(g, vv);
        return;
      }
    }
    AllPairs(g);
    yes := true;
  }

  lemma NotTriconnected(g: Cub, v: nat)
    requires |g| >= 4 && v < |g| && !TwoConnected(g, Alive(|g|, v))
    ensures !Triconnected(g)
  {
    hide Connected;
    AliveSize(|g|, v);
    assert Alive(|g|, v) - {v} == Alive(|g|, v);
  }

  // Without the last vertex and another one is without the other one and the last.
  lemma AllPairs(g: Cub)
    requires |g| >= 4 && forall u: nat :: u < |g| - 1 ==> TwoConnected(g, Alive(|g|, u))
    ensures Triconnected(g)
  {
    hide Connected, TwoConnected;
    forall a: nat, b: nat | a < |g| && b < |g| ensures Connected(g, Alive(|g|, a) - {b}) {
      if a < |g| - 1 {
        WithoutBoth(g, |g|, a, b);
      } else if b < |g| - 1 {
        WithoutBoth(g, |g|, b, a);
        assert Alive(|g|, a) - {b} == Alive(|g|, b) - {a};
      } else {
        LastAlone(g);
        assert Alive(|g|, a) - {b} == Alive(|g|, a);
      }
    }
  }

  lemma WithoutBoth(g: Cub, n: nat, a: nat, b: nat)
    requires TwoConnected(g, Alive(n, a)) && b < n
    ensures Connected(g, Alive(n, a) - {b})
  {
    hide Connected;
    if a == b { assert Alive(n, a) - {b} == Alive(n, a); }
  }

  // Without the last vertex alone: of two vertices at most one is a component of its own.
  lemma LastAlone(g: Cub)
    requires |g| >= 4 && forall u: nat :: u < |g| - 1 ==> TwoConnected(g, Alive(|g|, u))
    ensures Connected(g, Alive(|g|, |g| - 1))
  {
    var n := |g|;
    var x := Alive(n, n - 1);
    forall t: set<nat> | ClosedIn(g, x, t) && t != {} ensures t == x {
      var a :| a in t;
      var c: nat := if a == 0 then 1 else 0;
      var e: nat := if a <= 1 then 2 else 1;
      assert e in x && c in x && e != c && e != a;
      hide Edge;
      InPart(g, n, t, a, c);
      InPart(g, n, t, a, e);
    }
  }

  // Without the vertices c and n - 1 the rest is connected, and it holds the vertex a of t.
  lemma InPart(g: Cub, n: nat, t: set<nat>, a: nat, c: nat)
    requires n == |g| >= 4 && c < n - 1 && TwoConnected(g, Alive(n, c)) && ClosedIn(g, Alive(n, n - 1), t) && a in t
    requires a != c
    ensures Alive(n, n - 1) - {c} <= t
  {
    var x := Alive(n, c) - {n - 1};
    assert x == Alive(n, n - 1) - {c};
    assert n - 1 in Alive(n, c) && Connected(g, x);
    assert ClosedIn(g, x, t - {c});
    assert a in t - {c};
  }
}
