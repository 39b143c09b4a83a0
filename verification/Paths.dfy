/** Reachability queries: a breadth first search that returns a shortest path, and a depth first yes or no. */
module Paths {
  import opened Vertices
  import opened Digraphs
  import opened PointerGraph
  import opened Sorts

  /** The search tree: `dist` gives every visited vertex its depth, `parent` the vertex it was found from. */
  ghost predicate Tree(a: Adjacency, start: Vertex, parent: map<Vertex, Vertex>, dist: map<Vertex, nat>) {
    && start in dist && dist[start] == 0
    && parent.Keys == dist.Keys - {start}
    && forall n | n in parent ::
        parent[n] in dist && HasEdge(a, parent[n], n) && dist[n] == dist[parent[n]] + 1
  }

  /** `pending` lists the visited vertices whose edges were not all followed, in order of depth; the others
      have all their successors visited at most one level deeper. */
  ghost predicate Frontier(a: Adjacency, dist: map<Vertex, nat>, pending: seq<Vertex>) {
    Ordered(dist, pending) && Settled(a, dist, Elements(pending))
  }

  ghost predicate Ordered(dist: map<Vertex, nat>, pending: seq<Vertex>) {
    && Distinct(pending)
    && (forall i | 0 <= i < |pending| :: pending[i] in dist)
    && (forall i, j | 0 <= i < j < |pending| :: dist[pending[i]] <= dist[pending[j]] <= dist[pending[0]] + 1)
  }

  ghost predicate Settled(a: Adjacency, dist: map<Vertex, nat>, pending: set<Vertex>) {
    && (forall u, w | u in dist && u !in pending && HasEdge(a, u, w) :: w in dist && dist[w] <= dist[u] + 1)
    && (forall u, x | u in dist && u !in pending && x in dist && x in pending :: dist[u] <= dist[x])
  }

  /** The children of `v` outside `rest` have been followed. */
  ghost predicate Followed(a: Adjacency, dist: map<Vertex, nat>, v: Vertex, rest: set<Vertex>) {
    v in dist && forall n | HasEdge(a, v, n) && n !in rest :: n in dist && dist[n] <= dist[v] + 1
  }

  /** Every path from the start to within depth `d` of it stays in what was visited, at no less than its depth. */
  lemma {:induction false} ShallowIsVisited(a: Adjacency, start: Vertex, dist: map<Vertex, nat>, d: nat, p: seq<Vertex>)
    requires start in dist && dist[start] == 0
    requires forall u, w | u in dist && dist[u] < d && HasEdge(a, u, w) :: w in dist && dist[w] <= dist[u] + 1
    requires IsPath(a, p) && p[0] == start && |p| - 1 <= d
    ensures p[|p| - 1] in dist && dist[p[|p| - 1]] <= |p| - 1
  {
    if |p| > 1 {
      SubPath(a, p, 0, |p| - 1);
      ShallowIsVisited(a, start, dist, d, p[..|p| - 1]);
      assert HasEdge(a, p[|p| - 2], p[|p| - 2 + 1]);
    }
  }

  /** A vertex found for the first time while following `v` has no path shorter than one step beyond `v`. */
  lemma FirstFindIsShortest(a: Adjacency, start: Vertex, dist: map<Vertex, nat>, v: Vertex, queue: seq<Vertex>, n: Vertex)
    requires start in dist && dist[start] == 0
    requires Frontier(a, dist, [v] + queue) && n !in dist
    ensures v in dist && forall p | PathBetween(a, start, n, p) :: dist[v] + 1 <= |p| - 1
  {
    var pending := [v] + queue;
    assert pending[0] == v;
    AllWithinOne(dist, pending);
    forall p | PathBetween(a, start, n, p) ensures dist[v] + 1 <= |p| - 1 {
      if |p| - 1 <= dist[v] {
        ShallowIsVisited(a, start, dist, dist[v], p);
      }
    }
  }

  lemma Discover(a: Adjacency, dist: map<Vertex, nat>, v: Vertex, queue: seq<Vertex>, n: Vertex)
    requires Frontier(a, dist, [v] + queue) && n !in dist
    ensures v in dist && Frontier(a, dist[n := dist[v] + 1], [v] + queue + [n])
  {
    var pending := [v] + queue;
    assert pending[0] == v;
    ElementsConcat(pending, [n]);
    AllWithinOne(dist, pending);
  }

  lemma AllWithinOne(dist: map<Vertex, nat>, pending: seq<Vertex>)
    requires Ordered(dist, pending) && pending != []
    ensures forall x | x in pending :: x in dist && dist[pending[0]] <= dist[x] <= dist[pending[0]] + 1
  {
    forall x | x in pending ensures x in dist && dist[pending[0]] <= dist[x] <= dist[pending[0]] + 1 {
      var i :| 0 <= i < |pending| && pending[i] == x;
      if i > 0 { assert dist[pending[0]] <= dist[pending[i]]; }
    }
  }

  lemma Finished(a: Adjacency, dist: map<Vertex, nat>, v: Vertex, queue: seq<Vertex>)
    requires Frontier(a, dist, [v] + queue) && Followed(a, dist, v, {})
    ensures Frontier(a, dist, queue)
  {
    var pending := [v] + queue;
    assert pending[0] == v;
    AllWithinOne(dist, pending);
    ElementsConcat([v], queue);
    assert forall x | x in queue :: x in pending;
    FinishedOrdered(dist, v, queue);
  }

  lemma FinishedOrdered(dist: map<Vertex, nat>, v: Vertex, queue: seq<Vertex>)
    requires Ordered(dist, [v] + queue)
    ensures Ordered(dist, queue)
  {
    var p := [v] + queue;
    assert forall i | 0 <= i < |queue| :: queue[i] == p[i + 1];
    forall i, j | 0 <= i < j < |queue|
      ensures queue[i] != queue[j] && dist[queue[i]] <= dist[queue[j]] <= dist[queue[0]] + 1
    {
      assert p[i + 1] != p[j + 1];
      assert dist[p[i + 1]] <= dist[p[j + 1]] <= dist[p[0]] + 1;
      assert dist[p[0]] <= dist[p[1]];
    }
  }

  lemma NothingPending(a: Adjacency, start: Vertex, dist: map<Vertex, nat>, b: Vertex)
    requires start in dist && dist[start] == 0
    requires Frontier(a, dist, []) && b !in dist
    ensures !Reachable(a, start, b)
  {
    forall p | PathBetween(a, start, b, p) ensures false {
      ShallowIsVisited(a, start, dist, |p|, p);
    }
  }

  lemma FrontierHead(a: Adjacency, dist: map<Vertex, nat>, v: Vertex, queue: seq<Vertex>)
    requires Frontier(a, dist, [v] + queue)
    ensures Followed(a, dist, v, Row(a, v))
  {
    assert ([v] + queue)[0] == v;
  }

  lemma TreeGrows(a: Adjacency, start: Vertex, parent: map<Vertex, Vertex>, dist: map<Vertex, nat>, v: Vertex, n: Vertex)
    requires Tree(a, start, parent, dist) && v in dist && n !in dist && HasEdge(a, v, n)
    ensures Tree(a, start, parent[n := v], dist[n := dist[v] + 1])
  {
  }

  lemma OutsideReachesNothing(a: Adjacency, u: Vertex, v: Vertex)
    requires u !in a && u != v
    ensures !Reachable(a, u, v)
  {
    forall p ensures !PathBetween(a, u, v, p) {
      if |p| >= 2 && p[0] == u {
        assert !HasEdge(a, p[0], p[0 + 1]);
      }
    }
  }

  /** Walks the tree from `b` back to the start, then reverses the walk in place. */
  method Reconstruct(adj: Adjacency, parent: map<Vertex, Vertex>, a: Vertex, b: Vertex, ghost dist: map<Vertex, nat>)
    returns (path: seq<Vertex>)
    requires Tree(adj, a, parent, dist) && b in dist
    ensures PathBetween(adj, a, b, path) && |path| - 1 == dist[b]
  {
    path := [b];
    var v := b;
    while v != a
      invariant v in dist && path != [] && path[0] == b && path[|path| - 1] == v
      invariant dist[v] + |path| - 1 == dist[b]
      invariant forall i | 0 <= i < |path| - 1 :: HasEdge(adj, path[i + 1], path[i])
      decreases dist[v]
    {
      v := parent[v];
      path := path + [v];
    }
    ghost var walk := path;
    var i, j := 0, |path| - 1;
    while i < j
      invariant 0 <= i <= |walk| && j == |walk| - 1 - i && |path| == |walk| && i <= j + 2
      invariant forall k | i <= k <= j :: path[k] == walk[k]
      invariant forall k | 0 <= k < i || j < k < |walk| :: path[k] == walk[|walk| - 1 - k]
    {
      path := path[i := path[j]][j := path[i]];
      i, j := i + 1, j - 1;
    }
    forall k | 0 <= k < |path| - 1 ensures HasEdge(adj, path[k], path[k + 1]) {
      assert HasEdge(adj, walk[|walk| - 2 - k + 1], walk[|walk| - 2 - k]);
    }
  }

  /** Follows the edges of one vertex taken off the queue, and stops early when it meets `b`. */
  method Expand(adj: Adjacency, a: Vertex, b: Vertex, v: Vertex, visited0: set<Vertex>, parent0: map<Vertex, Vertex>,
                queue0: seq<Vertex>, ghost dist0: map<Vertex, nat>)
    returns (visited: set<Vertex>, parent: map<Vertex, Vertex>, queue: seq<Vertex>, found: bool, ghost dist: map<Vertex, nat>)
    requires Closed(adj) && dist0.Keys == visited0 <= adj.Keys && Tree(adj, a, parent0, dist0)
    requires Frontier(adj, dist0, [v] + queue0) && (b in visited0 ==> b == a)
    ensures dist.Keys == visited <= adj.Keys && Tree(adj, a, parent, dist)
    ensures !found ==> Frontier(adj, dist, queue) && (b in visited ==> b == a)
    ensures !found ==> |adj.Keys - visited| + |queue| == |adj.Keys - visited0| + |queue0|
    ensures found ==> b in dist && b != a && forall p | PathBetween(adj, a, b, p) :: dist[b] <= |p| - 1
  {
    hide Tree, Frontier, Followed, Reachable, PathBetween;
    visited, parent, queue, found, dist := visited0, parent0, queue0, false, dist0;
    FrontierHead(adj, dist, v, queue);
    TreeRoot(adj, a, parent, dist);
    var rest := Row(adj, v);
    while rest != {}
      invariant dist.Keys == visited <= adj.Keys && Tree(adj, a, parent, dist)
      invariant rest <= Row(adj, v) && v in visited && !found
      invariant Frontier(adj, dist, [v] + queue) && Followed(adj, dist, v, rest)
      invariant b in visited ==> b == a
      invariant |adj.Keys - visited| + |queue| == |adj.Keys - visited0| + |queue0|
    {
      var n :| n in rest;
      assert HasEdge(adj, v, n);
      FollowOne(adj, dist, v, queue, rest, n);
      rest := rest - {n};
      if n !in visited {
        TreeGrows(adj, a, parent, dist, v, n);
        TreeRoot(adj, a, parent, dist);
        FirstFindIsShortest(adj, a, dist, v, queue, n);
        assert adj.Keys - visited == adj.Keys - (visited + {n}) + {n};
        visited := visited + {n};
        parent := parent[n := v];
        dist := dist[n := dist[v] + 1];
        if n == b {
          found := true;
          return;
        }
        assert [v] + (queue + [n]) == [v] + queue + [n];
        queue := queue + [n];
      }
    }
    Finished(adj, dist, v, queue);
  }

  /** Levels outwards from `a` until `b` is seen or nothing is left. */
  method SearchFrom(adj: Adjacency, a: Vertex, b: Vertex)
    returns (found: bool, parent: map<Vertex, Vertex>, ghost dist: map<Vertex, nat>)
    requires Closed(adj) && a in adj
    ensures Tree(adj, a, parent, dist)
    ensures found ==> b in dist && b != a && forall p | PathBetween(adj, a, b, p) :: dist[b] <= |p| - 1
    ensures !found && a != b ==> !Reachable(adj, a, b)
  {
    hide *;
    var visited, queue;
    parent, visited, queue, found := map[], {a}, [a], false;
    dist := map[a := 0];
    StartSearch(adj, a);
    while |queue| > 0 && !found
      invariant dist.Keys == visited <= adj.Keys && Tree(adj, a, parent, dist)
      invariant !found ==> Frontier(adj, dist, queue) && (b in visited ==> b == a)
      invariant found ==> b in dist && b != a && forall p | PathBetween(adj, a, b, p) :: dist[b] <= |p| - 1
      decreases !found, |adj.Keys - visited| + |queue|
    {
      var v, rest := queue[0], queue[1..];
      HeadAndTail(queue);
      visited, parent, queue, found, dist := Expand(adj, a, b, v, visited, parent, rest, dist);
    }
    TreeRoot(adj, a, parent, dist);
    if !found && a != b {
      NothingPending(adj, a, dist, b);
    }
  }

  /** The shortest path by edge count with both ends included; empty when there is none, and when `a == b`. */
  method BfsShortestPath(g: Graph, a: Vertex, b: Vertex) returns (path: seq<Vertex>)
    requires g.Valid()
    ensures path == [] <==> a == b || !Reachable(g.adjacency, a, b)
    ensures path != [] ==> PathBetween(g.adjacency, a, b, path)
    ensures path != [] ==> forall p | PathBetween(g.adjacency, a, b, p) :: |path| <= |p|
  {
    hide Tree, Transposed, Reachable, Closed;
    var adj := g.adjacency;
    TransposedIsClosed(adj, g.revadjmap);
    if a !in adj {
      if a != b { OutsideReachesNothing(adj, a, b); }
      return [];
    }
    var found, parent;
    ghost var dist;
    found, parent, dist := SearchFrom(adj, a, b);
    TreeRoot(adj, a, parent, dist);
    if !found { return []; }
    path := Reconstruct(adj, parent, a, b, dist);
    ReachableBy(adj, a, b, path);
  }

  lemma HeadAndTail(q: seq<Vertex>)
    requires q != []
    ensures q == [q[0]] + q[1..]
  {
  }

  lemma StartSearch(a: Adjacency, start: Vertex)
    ensures Tree(a, start, map[], map[start := 0]) && Frontier(a, map[start := 0], [start])
  {
  }

  lemma TreeRoot(a: Adjacency, start: Vertex, parent: map<Vertex, Vertex>, dist: map<Vertex, nat>)
    requires Tree(a, start, parent, dist)
    ensures start in dist && dist[start] == 0
  {
  }

  lemma ReachableBy(a: Adjacency, u: Vertex, v: Vertex, p: seq<Vertex>)
    requires PathBetween(a, u, v, p)
    ensures Reachable(a, u, v)
  {
  }

  /** Following one child of `v`: it was visited before, or it is visited now, one level below `v`. */
  lemma FollowOne(a: Adjacency, dist: map<Vertex, nat>, v: Vertex, queue: seq<Vertex>, rest: set<Vertex>, n: Vertex)
    requires Frontier(a, dist, [v] + queue) && Followed(a, dist, v, rest) && n in rest && HasEdge(a, v, n)
    ensures n in dist ==> Followed(a, dist, v, rest - {n})
    ensures n !in dist ==>
      var d := dist[n := dist[v] + 1];
      Frontier(a, d, [v] + queue + [n]) && Followed(a, d, v, rest - {n})
  {
    var p := [v] + queue;
    assert p[0] == v;
    AllWithinOne(dist, p);
    if n !in dist {
      Discover(a, dist, v, queue, n);
    } else if n !in p {
      assert n !in Elements(p) && v in Elements(p);
    }
  }

  /** Whether `b` is `a` itself or can be reached from it; both must be in the graph. */
  method HasPath(g: Graph, a: Vertex, b: Vertex) returns (r: bool)
    requires g.Valid()
    ensures r <==> a in g.adjacency && b in g.adjacency && Reachable(g.adjacency, a, b)
  {
    var adj := g.adjacency;
    TransposedIsClosed(adj, g.revadjmap);
    if a !in adj || b !in adj { return false; }
    if a == b {
      ReachableSelf(adj, a);
      return true;
    }
    var stack, visited := [a], {a};
    ReachableSelf(adj, a);
    while |stack| > 0
      invariant a in visited && b !in visited && visited <= adj.Keys && Elements(stack) <= visited
      invariant forall u | u in visited :: Reachable(adj, a, u)
      invariant forall u, w | u in visited && u !in stack && HasEdge(adj, u, w) :: w in visited
      decreases |adj.Keys - visited|, |stack|
    {
      hide Transposed, Reachable;
      var last := |stack| - 1;
      var v := stack[last];
      ghost var before := visited;
      assert v in Elements(stack);
      assert stack == stack[..last] + [v];
      ElementsConcat(stack[..last], [v]);
      stack := stack[..last];
      var rest := Row(adj, v);
      while rest != {}
        invariant rest <= Row(adj, v) && before <= visited && v in visited
        invariant b !in visited && visited <= adj.Keys && Elements(stack) <= visited
        invariant visited == before ==> |stack| == last
        invariant forall u | u in visited :: Reachable(adj, a, u)
        invariant forall u, w | u in visited && u !in stack && u != v && HasEdge(adj, u, w) :: w in visited
        invariant forall w | HasEdge(adj, v, w) && w !in rest :: w in visited
      {
        var n :| n in rest;
        assert HasEdge(adj, v, n);
        ReachableEdge(adj, v, n);
        ReachableTransitive(adj, a, v, n);
        if n == b { return true; }
        rest := rest - {n};
        if n !in visited {
          visited := visited + {n};
          ElementsConcat(stack, [n]);
          stack := stack + [n];
        }
      }
      SubsetSize(adj.Keys - visited, adj.Keys - before);
    }
    if Reachable(adj, a, b) {
      var p :| PathBetween(adj, a, b, p);
      ClosedUnderSuccessors(adj, visited, p);
    }
    r := false;
  }

  /** The shortest path in a DAG; a graph with a cycle is refused, whether or not the cycle is on the way. */
  method Reachability(g: Graph, a: Option<Vertex>, b: Option<Vertex>) returns (r: Result<seq<Vertex>>)
    requires g.Valid()
    ensures a == None || b == None <==> r == Err(EmptyVertex)
    ensures a.Some? && b.Some? ==> (r.Ok? <==> Acyclic(g.adjacency))
    ensures r.Ok? ==> (r.value == [] <==> a == b || !Reachable(g.adjacency, a.value, b.value))
    ensures r.Ok? && r.value != [] ==> PathBetween(g.adjacency, a.value, b.value, r.value)
    ensures r.Ok? ==> forall p | PathBetween(g.adjacency, a.value, b.value, p) :: |r.value| <= |p|
  {
    if a == None || b == None { return Err(EmptyVertex); }
    var sorted := TopologicalSort(g);
    if sorted.Err? { return Err(sorted.error); }
    var path := BfsShortestPath(g, a.value, b.value);
    return Ok(path);
  }

  /** The two queries agree on different vertices, and differ on `a == b`: one says yes, the other is empty. */
  method QueriesAgree(g: Graph, a: Vertex, b: Vertex) returns (path: seq<Vertex>, has: bool)
    requires g.Valid()
    ensures path != [] <==> has && a != b
    ensures a == b ==> (has <==> a in g.adjacency)
  {
    path := BfsShortestPath(g, a, b);
    has := HasPath(g, a, b);
    ReachableSelf(g.adjacency, a);
    TransposedIsClosed(g.adjacency, g.revadjmap);
    if path != [] {
      assert HasEdge(g.adjacency, path[0], path[0 + 1]);
      assert HasEdge(g.adjacency, path[|path| - 2], path[|path| - 2 + 1]);
    }
  }
}
