/** Directed graphs as values: the adjacency index of a pointer graph, and what its paths and cycles are. */
module Digraphs {
  import opened Vertices

  /** For each vertex, the vertices it points to and the edge object on the way. */
  type Adjacency = map<Vertex, map<Vertex, Edge>>

  predicate HasEdge(a: Adjacency, u: Vertex, v: Vertex) {
    u in a && v in a[u]
  }

  /** The vertices that point at `v`. */
  ghost function Preds(a: Adjacency, v: Vertex): set<Vertex> {
    set u | u in a && HasEdge(a, u, v)
  }

  /** The vertices that `v` points at. */
  ghost function Succs(a: Adjacency, v: Vertex): set<Vertex> {
    set u | u in a && HasEdge(a, v, u)
  }

  /** The edge objects on the way into `v`, and on the way out of it. */
  ghost function EdgesInto(a: Adjacency, v: Vertex): set<Edge> {
    set u | u in a && HasEdge(a, u, v) :: a[u][v]
  }

  ghost function EdgesFrom(a: Adjacency, v: Vertex): set<Edge> {
    set u | HasEdge(a, v, u) && u in a :: a[v][u]
  }

  /** No edge points outside the graph. */
  ghost predicate Closed(a: Adjacency) {
    forall u, v | HasEdge(a, u, v) :: v in a
  }

  /** `r` is the mirror of `a`: the same vertices, and the same edges backwards. */
  ghost predicate Transposed(a: Adjacency, r: Adjacency) {
    && a.Keys == r.Keys
    && (forall u, v :: HasEdge(a, u, v) <==> HasEdge(r, v, u))
    && (forall u, v | HasEdge(a, u, v) :: a[u][v] == r[v][u])
  }

  lemma TransposedIsClosed(a: Adjacency, r: Adjacency)
    requires Transposed(a, r)
    ensures Closed(a)
  {
    forall u, v | HasEdge(a, u, v) ensures v in a {
      assert HasEdge(r, v, u);
    }
  }

  /* ----- what one mutation does to an adjacency index ----- */

  function WithVertex(a: Adjacency, v: Vertex): Adjacency {
    if v in a then a else a[v := map[]]
  }

  function WithVertices(a: Adjacency, xv: seq<Vertex>): Adjacency
    decreases |xv|
  {
    if xv == [] then a else WithVertices(WithVertex(a, xv[0]), xv[1..])
  }

  function WithEdge(a: Adjacency, v1: Vertex, v2: Vertex, e: Edge): Adjacency {
    var b := WithVertex(WithVertex(a, v1), v2);
    b[v1 := b[v1][v2 := e]]
  }

  lemma WithEdgeEdges(a: Adjacency, x: Vertex, y: Vertex, e: Edge)
    ensures forall u, v :: HasEdge(WithEdge(a, x, y, e), u, v) <==> HasEdge(a, u, v) || (u == x && v == y)
    ensures HasEdge(WithEdge(a, x, y, e), x, y) && WithEdge(a, x, y, e)[x][y] == e
    ensures forall u, v | HasEdge(a, u, v) && !(u == x && v == y) :: WithEdge(a, x, y, e)[u][v] == a[u][v]
  {
  }

  function WithoutVertex(a: Adjacency, v: Vertex): Adjacency {
    map u | u in a && u != v :: a[u] - {v}
  }

  function WithoutEdge(a: Adjacency, v1: Vertex, v2: Vertex): Adjacency {
    if v1 in a then a[v1 := a[v1] - {v2}] else a
  }

  /** The subgraph on the vertices in `s`, with every edge between two of them. */
  function Induced(a: Adjacency, s: set<Vertex>): Adjacency {
    map u | u in a && u in s :: map v | v in a[u] && v in s :: a[u][v]
  }

  /** All edges as vertex pairs. */
  function Pairs(a: Adjacency): set<(Vertex, Vertex)> {
    set u, v | u in a && v in a[u] :: (u, v)
  }

  /* ----- paths ----- */

  ghost predicate IsPath(a: Adjacency, p: seq<Vertex>) {
    && |p| >= 1
    && forall i | 0 <= i < |p| - 1 :: HasEdge(a, p[i], p[i + 1])
  }

  ghost predicate PathBetween(a: Adjacency, u: Vertex, v: Vertex, p: seq<Vertex>) {
    IsPath(a, p) && p[0] == u && p[|p| - 1] == v
  }

  ghost predicate Reachable(a: Adjacency, u: Vertex, v: Vertex) {
    exists p :: PathBetween(a, u, v, p)
  }

  /** A closed walk along real edges: at least one edge, and the last vertex equals the first. */
  ghost predicate Cycle(a: Adjacency, p: seq<Vertex>) {
    |p| >= 2 && PathBetween(a, p[0], p[0], p)
  }

  ghost predicate SimpleCycle(a: Adjacency, p: seq<Vertex>) {
    Cycle(a, p) && Distinct(p[..|p| - 1])
  }

  ghost predicate Acyclic(a: Adjacency) {
    forall p :: !Cycle(a, p)
  }

  lemma ReachableSelf(a: Adjacency, u: Vertex)
    ensures Reachable(a, u, u)
  {
    assert PathBetween(a, u, u, [u]);
  }

  lemma ReachableEdge(a: Adjacency, u: Vertex, v: Vertex)
    requires HasEdge(a, u, v)
    ensures Reachable(a, u, v)
  {
    assert PathBetween(a, u, v, [u, v]);
  }

  lemma PathJoin(a: Adjacency, p: seq<Vertex>, q: seq<Vertex>)
    requires IsPath(a, p) && IsPath(a, q) && p[|p| - 1] == q[0]
    ensures PathBetween(a, p[0], q[|q| - 1], p + q[1..])
  {
    var r := p + q[1..];
    forall i | 0 <= i < |r| - 1 ensures HasEdge(a, r[i], r[i + 1]) {
      if i < |p| - 1 {
        assert r[i] == p[i] && r[i + 1] == p[i + 1];
      } else {
        assert r[i] == q[i - |p| + 1] && r[i + 1] == q[i - |p| + 1 + 1];
      }
    }
  }

  lemma ReachableTransitive(a: Adjacency, u: Vertex, v: Vertex, w: Vertex)
    requires Reachable(a, u, v) && Reachable(a, v, w)
    ensures Reachable(a, u, w)
  {
    var p :| PathBetween(a, u, v, p);
    var q :| PathBetween(a, v, w, q);
    PathJoin(a, p, q);
  }

  lemma PathPrepend(a: Adjacency, u: Vertex, p: seq<Vertex>)
    requires IsPath(a, p) && HasEdge(a, u, p[0])
    ensures PathBetween(a, u, p[|p| - 1], [u] + p)
  {
    PathJoin(a, [u, p[0]], p);
    assert [u, p[0]] + p[1..] == [u] + p;
  }

  lemma SubPath(a: Adjacency, p: seq<Vertex>, i: int, j: int)
    requires IsPath(a, p) && 0 <= i < j <= |p|
    ensures IsPath(a, p[i..j]) && p[i..j][0] == p[i] && p[i..j][j - i - 1] == p[j - 1]
  {
    var q := p[i..j];
    forall k | 0 <= k < |q| - 1 ensures HasEdge(a, q[k], q[k + 1]) {
      assert q[k] == p[i + k] && q[k + 1] == p[i + k + 1];
    }
  }

  /** A set closed under successors that contains `u` contains everything reachable from `u`. */
  lemma {:induction false} ClosedUnderSuccessors(a: Adjacency, s: set<Vertex>, p: seq<Vertex>)
    requires IsPath(a, p) && p[0] in s
    requires forall u, v | u in s && HasEdge(a, u, v) :: v in s
    ensures forall x | x in p :: x in s
  {
    if |p| > 1 {
      assert HasEdge(a, p[0], p[0 + 1]);
      SubPath(a, p, 1, |p|);
      ClosedUnderSuccessors(a, s, p[1..]);
      assert p == [p[0]] + p[1..];
    }
  }

  /** Every edge of `a` leads forward in `b`, so paths of `a` are reachability facts of `b`. */
  lemma {:induction false} PathLifts(a: Adjacency, b: Adjacency, p: seq<Vertex>)
    requires IsPath(a, p)
    requires forall u, v | HasEdge(a, u, v) :: Reachable(b, u, v)
    ensures Reachable(b, p[0], p[|p| - 1])
  {
    if |p| == 1 {
      ReachableSelf(b, p[0]);
    } else {
      assert HasEdge(a, p[0], p[0 + 1]);
      SubPath(a, p, 1, |p|);
      PathLifts(a, b, p[1..]);
      ReachableTransitive(b, p[0], p[1], p[|p| - 1]);
    }
  }

  /* ----- topological orders ----- */

  /** Every vertex once, and no edge that points backwards or stays in place. */
  ghost predicate TopologicalOrder(a: Adjacency, l: seq<Vertex>) {
    && Distinct(l)
    && Elements(l) == a.Keys
    && forall i, j | 0 <= i <= j < |l| :: !HasEdge(a, l[j], l[i])
  }

  ghost function IndexOf(l: seq<Vertex>, v: Vertex): (i: nat)
    requires v in l
    ensures i < |l| && l[i] == v
  {
    var i :| 0 <= i < |l| && l[i] == v;
    i
  }

  /** The order says the same as the usual reading: the source of an edge comes before its target. */
  lemma ForwardEdges(a: Adjacency, l: seq<Vertex>, u: Vertex, v: Vertex)
    requires TopologicalOrder(a, l) && Closed(a) && HasEdge(a, u, v)
    ensures u in l && v in l && IndexOf(l, u) < IndexOf(l, v)
  {
    assert u in Elements(l) && v in Elements(l);
    var i, j := IndexOf(l, u), IndexOf(l, v);
    assert HasEdge(a, l[i], l[j]);
  }

  lemma {:induction false} PathGoesForward(a: Adjacency, l: seq<Vertex>, p: seq<Vertex>)
    requires TopologicalOrder(a, l) && Closed(a) && IsPath(a, p) && |p| >= 2
    ensures p[0] in l && p[|p| - 1] in l && IndexOf(l, p[0]) < IndexOf(l, p[|p| - 1])
  {
    assert HasEdge(a, p[0], p[0 + 1]);
    ForwardEdges(a, l, p[0], p[1]);
    if |p| > 2 {
      SubPath(a, p, 1, |p|);
      PathGoesForward(a, l, p[1..]);
    }
  }

  lemma TopologicalOrderIsAcyclic(a: Adjacency, l: seq<Vertex>)
    requires TopologicalOrder(a, l) && Closed(a)
    ensures Acyclic(a)
  {
    forall p | Cycle(a, p) ensures false {
      PathGoesForward(a, l, p);
    }
  }

  /* ----- where no order exists there is a cycle ----- */

  lemma {:induction false} DistinctLength(p: seq<Vertex>, s: set<Vertex>)
    requires Distinct(p) && forall x | x in p :: x in s
    ensures |p| <= |s|
  {
    if p != [] {
      var last := p[|p| - 1];
      DistinctLength(p[..|p| - 1], s - {last});
    }
  }

  ghost predicate HasPredecessorIn(a: Adjacency, s: set<Vertex>, v: Vertex) {
    exists u :: u in s && HasEdge(a, u, v)
  }

  ghost predicate NoSource(a: Adjacency, s: set<Vertex>) {
    forall v {:trigger HasPredecessorIn(a, s, v)} | v in s :: HasPredecessorIn(a, s, v)
  }

  /** If every vertex of `s` has a predecessor in `s`, arbitrarily long paths stay inside `s`. */
  lemma {:induction false} LongPathWithin(a: Adjacency, s: set<Vertex>, n: nat) returns (p: seq<Vertex>)
    requires s != {} && n >= 1
    requires NoSource(a, s)
    ensures |p| == n && IsPath(a, p) && forall x | x in p :: x in s
  {
    if n == 1 {
      var v :| v in s;
      p := [v];
    } else {
      var q := LongPathWithin(a, s, n - 1);
      assert HasPredecessorIn(a, s, q[0]);
      var u :| u in s && HasEdge(a, u, q[0]);
      p := [u] + q;
      PathPrepend(a, u, q);
    }
  }

  lemma NoSourceMeansCycle(a: Adjacency, s: set<Vertex>)
    requires s != {}
    requires NoSource(a, s)
    ensures !Acyclic(a)
  {
    var p := LongPathWithin(a, s, |s| + 1);
    if Distinct(p) {
      DistinctLength(p, s);
    } else {
      var i, j :| 0 <= i < j < |p| && p[i] == p[j];
      SubPath(a, p, i, j + 1);
      assert Cycle(a, p[i..j + 1]);
    }
  }

  /** Without a cycle there is an order: put first, again and again, a vertex that has no predecessor left. */
  lemma {:induction false} OrderWithin(a: Adjacency, s: set<Vertex>) returns (l: seq<Vertex>)
    requires Acyclic(a)
    ensures Distinct(l) && Elements(l) == s
    ensures forall i, j | 0 <= i <= j < |l| :: !HasEdge(a, l[j], l[i])
  {
    if s == {} {
      l := [];
    } else {
      if NoSource(a, s) {
        NoSourceMeansCycle(a, s);
      }
      var v :| v in s && !HasPredecessorIn(a, s, v);
      var rest := OrderWithin(a, s - {v});
      l := [v] + rest;
      assert forall i | 0 < i < |l| :: l[i] in Elements(rest);
      assert Elements(l) == {v} + Elements(rest);
    }
  }

  lemma AcyclicHasOrder(a: Adjacency) returns (l: seq<Vertex>)
    requires Acyclic(a)
    ensures TopologicalOrder(a, l)
  {
    l := OrderWithin(a, a.Keys);
  }

  /* ----- graphs that look the same ----- */

  /** `f` renames the vertices of `a` one to one onto those of `b`, carrying edges to edges. */
  ghost predicate Isomorphism(a: Adjacency, b: Adjacency, f: map<Vertex, Vertex>) {
    && f.Keys == a.Keys
    && f.Values == b.Keys
    && (forall u, v | u in f && v in f && f[u] == f[v] :: u == v)
    && (forall u, v | u in f && v in f :: HasEdge(a, u, v) <==> HasEdge(b, f[u], f[v]))
  }

  /** An isomorphism carries acyclicity back: a cycle of `b` would be a cycle of `a`. */
  lemma IsomorphicToAcyclic(a: Adjacency, b: Adjacency, f: map<Vertex, Vertex>)
    requires Isomorphism(a, b, f) && Closed(b) && Acyclic(a)
    ensures Acyclic(b)
  {
    forall p | Cycle(b, p) ensures false {
      forall i | 0 <= i < |p| ensures exists u :: u in f && f[u] == p[i] {
        if i < |p| - 1 {
          assert HasEdge(b, p[i], p[i + 1]);
        } else {
          assert HasEdge(b, p[i - 1], p[i - 1 + 1]);
        }
        assert p[i] in f.Values;
      }
      var q := seq(|p|, i requires 0 <= i < |p| => var u :| u in f && f[u] == p[i]; u);
      forall i | 0 <= i < |q| - 1 ensures HasEdge(a, q[i], q[i + 1]) {
        assert HasEdge(b, p[i], p[i + 1]);
      }
      assert f[q[0]] == f[q[|q| - 1]];
      assert Cycle(a, q);
    }
  }
}
