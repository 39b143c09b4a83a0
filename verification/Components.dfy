/** Splitting a graph into its weakly connected parts. */
module Components {
  import opened Vertices
  import opened Digraphs
  import opened PointerGraph
  import opened Sorts

  /** An edge between the two, in either direction. */
  predicate Linked(a: Adjacency, u: Vertex, v: Vertex) {
    HasEdge(a, u, v) || HasEdge(a, v, u)
  }

  /** `a` with its directions forgotten. */
  ghost function Undirected(a: Adjacency): Adjacency {
    map u | u in a :: map v | v in a && Linked(a, u, v) :: Edge(0, "")
  }

  ghost predicate Connected(a: Adjacency, u: Vertex, v: Vertex) {
    Reachable(Undirected(a), u, v)
  }

  /** The weakly connected component of `v`. */
  ghost function Component(a: Adjacency, v: Vertex): set<Vertex> {
    set w | w in a && Connected(a, v, w)
  }

  lemma UndirectedEdges(a: Adjacency)
    requires Closed(a)
    ensures forall u, v :: HasEdge(Undirected(a), u, v) <==> Linked(a, u, v)
  {
  }

  lemma {:induction false} ConnectedBackwards(a: Adjacency, p: seq<Vertex>)
    requires Closed(a) && IsPath(Undirected(a), p)
    ensures Connected(a, p[|p| - 1], p[0])
  {
    UndirectedEdges(a);
    var b := Undirected(a);
    if |p| == 1 {
      ReachableSelf(b, p[0]);
    } else {
      assert HasEdge(b, p[0], p[0 + 1]);
      SubPath(b, p, 1, |p|);
      ConnectedBackwards(a, p[1..]);
      ReachableEdge(b, p[1], p[0]);
      ReachableTransitive(b, p[|p| - 1], p[1], p[0]);
    }
  }

  lemma ConnectedSymmetric(a: Adjacency, u: Vertex, v: Vertex)
    requires Closed(a) && Connected(a, u, v)
    ensures Connected(a, v, u)
  {
    var p :| PathBetween(Undirected(a), u, v, p);
    ConnectedBackwards(a, p);
  }

  /** Two components that share a vertex are the same. */
  lemma SameComponent(a: Adjacency, u: Vertex, v: Vertex)
    requires Closed(a) && Connected(a, u, v)
    ensures Component(a, u) == Component(a, v)
  {
    ConnectedSymmetric(a, u, v);
    forall w | w in a ensures Connected(a, u, w) <==> Connected(a, v, w) {
      if Connected(a, u, w) { ReachableTransitive(Undirected(a), v, u, w); }
      if Connected(a, v, w) { ReachableTransitive(Undirected(a), u, v, w); }
    }
  }

  /** No edge leads into or out of `s`. */
  ghost predicate CutOff(a: Adjacency, s: set<Vertex>) {
    forall u, v | HasEdge(a, u, v) :: u in s <==> v in s
  }

  lemma LinkedIsConnected(a: Adjacency, u: Vertex, v: Vertex)
    requires Closed(a) && (HasEdge(a, u, v) || HasEdge(a, v, u))
    ensures Connected(a, u, v)
  {
    UndirectedEdges(a);
    ReachableEdge(Undirected(a), u, v);
  }

  lemma {:induction false} PathStaysCutOff(a: Adjacency, s: set<Vertex>, p: seq<Vertex>)
    requires Closed(a) && CutOff(a, s) && IsPath(Undirected(a), p) && p[0] in s
    ensures p[|p| - 1] in s
  {
    UndirectedEdges(a);
    if |p| > 1 {
      assert HasEdge(Undirected(a), p[0], p[0 + 1]);
      SubPath(Undirected(a), p, 1, |p|);
      PathStaysCutOff(a, s, p[1..]);
    }
  }

  /** The component of a vertex is the least set around it that no edge, in either direction, leads out of. */
  lemma ComponentIsLeast(a: Adjacency, v: Vertex, s: set<Vertex>)
    requires Closed(a) && v in a
    ensures v in Component(a, v) && CutOff(a, Component(a, v))
    ensures v in s && CutOff(a, s) ==> Component(a, v) <= s
  {
    hide Undirected;
    ReachableSelf(Undirected(a), v);
    forall u, w | HasEdge(a, u, w) ensures u in Component(a, v) <==> w in Component(a, v) {
      LinkedIsConnected(a, u, w);
      LinkedIsConnected(a, w, u);
      if Connected(a, v, u) { ReachableTransitive(Undirected(a), v, u, w); }
      if Connected(a, v, w) { ReachableTransitive(Undirected(a), v, w, u); }
    }
    if v in s && CutOff(a, s) {
      forall w | w in Component(a, v) ensures w in s {
        var p :| PathBetween(Undirected(a), v, w, p);
        PathStaysCutOff(a, s, p);
      }
    }
  }

  method GraphVertices(g: Graph, v: Vertex) returns (s: seq<Vertex>)
    requires g.Valid()
    ensures Elements(s) == set w | w in g.adjacency && Linked(g.adjacency, v, w)
  {
    var incoming := g.IncomingGraphVertices(v);
    var outgoing := g.OutgoingGraphVertices(v);
    ElementsConcat(incoming, outgoing);
    s := incoming + outgoing;
  }

  /** Everything discovered or stacked is connected to the start, and links of the discovered stay inside. */
  ghost predicate Exploring(a: Adjacency, start: Vertex, d: set<Vertex>, s: set<Vertex>) {
    && start in d + s
    && (forall u | u in d + s :: u in a && Connected(a, start, u))
    && (forall u, w | u in d && Linked(a, u, w) :: w in d + s)
  }

  lemma Discover(a: Adjacency, start: Vertex, d: set<Vertex>, s: set<Vertex>, v: Vertex, ws: set<Vertex>)
    requires Closed(a) && Exploring(a, start, d, s + {v})
    requires ws == set w | w in a && Linked(a, v, w)
    ensures Exploring(a, start, d + {v}, s + ws)
  {
    hide Connected;
    forall w | w in ws ensures Connected(a, start, w) {
      assert v in d + (s + {v});
      ConnectedStep(a, start, v, w);
    }
  }

  lemma Popped(s: seq<Vertex>)
    requires s != []
    ensures Elements(s) == Elements(s[..|s| - 1]) + {s[|s| - 1]}
  {
    assert s == s[..|s| - 1] + [s[|s| - 1]];
    ElementsConcat(s[..|s| - 1], [s[|s| - 1]]);
  }

  lemma Appended(s: seq<Vertex>, v: Vertex)
    requires Distinct(s) && v !in Elements(s)
    ensures Distinct(s + [v]) && Elements(s + [v]) == Elements(s) + {v}
  {
    ElementsConcat(s, [v]);
  }

  lemma FewerLeft(all: set<Vertex>, d: set<Vertex>, v: Vertex)
    requires v in all && v !in d
    ensures |all - (d + {v})| < |all - d|
  {
    assert all - d == (all - (d + {v})) + {v};
  }

  /** A depth first search that ignores directions finds exactly the component, each vertex once. */
  method Dfs(g: Graph, start: Vertex) returns (result: seq<Vertex>)
    requires g.Valid()
    ensures start !in g.adjacency ==> result == []
    ensures start in g.adjacency ==> Distinct(result) && Elements(result) == Component(g.adjacency, start)
  {
    hide Transposed, Connected, Undirected, Closed, Exploring, Linked, Component, Elements, Distinct;
    var a := g.adjacency;
    TransposedIsClosed(a, g.revadjmap);
    result := [];
    if start !in a { return; }
    var s, d := [start], {};
    StartExploring(a, start);
    NothingFound();
    while |s| > 0
      invariant d <= a.Keys && Distinct(result) && Elements(result) == d
      invariant Exploring(a, start, d, Elements(s))
      decreases |a.Keys - d|, |s|
    {
      var v := s[|s| - 1];
      Popped(s);
      s := s[..|s| - 1];
      if v !in d {
        ExploredIsInside(a, start, d, Elements(s) + {v});
        FewerLeft(a.Keys, d, v);
        Appended(result, v);
        var ws := GraphVertices(g, v);
        ElementsConcat(s, ws);
        Discover(a, start, d, Elements(s), v, Elements(ws));
        d := d + {v};
        result := result + [v];
        s := s + ws;
      } else {
        AlreadyThere(a, start, d, Elements(s), v);
      }
    }
    ElementsEmpty(s);
    Explored(a, start, d);
  }

  lemma NothingFound()
    ensures Distinct<Vertex>([]) && Elements<Vertex>([]) == {}
  {
  }

  lemma StartExploring(a: Adjacency, start: Vertex)
    requires start in a
    ensures Exploring(a, start, {}, Elements([start]))
  {
    ReachableSelf(Undirected(a), start);
  }

  lemma ExploredIsInside(a: Adjacency, start: Vertex, d: set<Vertex>, s: set<Vertex>)
    requires Exploring(a, start, d, s)
    ensures s <= a.Keys
  {
    hide Connected, Linked;
    forall x | x in s ensures x in a { assert x in d + s; }
  }

  lemma AlreadyThere(a: Adjacency, start: Vertex, d: set<Vertex>, s: set<Vertex>, v: Vertex)
    requires Exploring(a, start, d, s + {v}) && v in d
    ensures Exploring(a, start, d, s)
  {
    hide Connected, Linked;
    assert d + (s + {v}) == d + s;
  }

  lemma Explored(a: Adjacency, start: Vertex, d: set<Vertex>)
    requires Closed(a) && Exploring(a, start, d, {})
    ensures d == Component(a, start)
  {
    hide Connected;
    assert d + {} == d;
    forall w | w in Component(a, start) ensures w in d {
      ClosedComponent(a, start, d, w);
    }
  }

  lemma LinkedIsInside(a: Adjacency, v: Vertex, w: Vertex)
    requires Closed(a) && Linked(a, v, w)
    ensures w in a
  {
  }

  lemma ConnectedStep(a: Adjacency, u: Vertex, v: Vertex, w: Vertex)
    requires Closed(a) && Connected(a, u, v) && Linked(a, v, w)
    ensures Connected(a, u, w)
  {
    UndirectedEdges(a);
    ReachableEdge(Undirected(a), v, w);
    ReachableTransitive(Undirected(a), u, v, w);
  }

  lemma ClosedComponent(a: Adjacency, u: Vertex, d: set<Vertex>, w: Vertex)
    requires Closed(a) && u in d && Connected(a, u, w)
    requires forall x, y | x in d && Linked(a, x, y) :: y in d
    ensures w in d
  {
    UndirectedEdges(a);
    var p :| PathBetween(Undirected(a), u, w, p);
    ClosedUnderSuccessors(Undirected(a), d, p);
  }

  /* ----- filtering ----- */

  /** The match function answers, or fails. */
  type Filter = Vertex -> Option<bool>

  ghost function Matching(a: Adjacency, fn: Filter): set<Vertex> {
    set v | v in a && fn(v) == Some(true)
  }

  /** The vertices and edges of `Induced(a, s)` found so far: all of those whose row is in `rows`. */
  ghost predicate PartlyInduced(a: Adjacency, s: set<Vertex>, rows: set<Vertex>, b: Adjacency) {
    && b.Keys <= s && (forall u | u in rows && u in s :: u in b)
    && (forall u, v :: HasEdge(b, u, v) ==> HasEdge(a, u, v) && u in s && v in s && b[u][v] == a[u][v])
    && (forall u, v | u in rows && u in s && v in s && HasEdge(a, u, v) :: HasEdge(b, u, v))
  }

  lemma PartlyWithVertex(a: Adjacency, s: set<Vertex>, rows: set<Vertex>, b: Adjacency, v: Vertex)
    requires PartlyInduced(a, s, rows, b) && v in s
    ensures PartlyInduced(a, s, rows, WithVertices(b, [v]))
  {
    assert WithVertices(b, [v]) == WithVertices(WithVertex(b, v), [v][1..]);
    assert forall x, y :: HasEdge(WithVertex(b, v), x, y) <==> HasEdge(b, x, y);
  }

  lemma PartlyWithEdge(a: Adjacency, s: set<Vertex>, rows: set<Vertex>, b: Adjacency, u: Vertex, v: Vertex)
    requires PartlyInduced(a, s, rows, b) && u in s && v in s && HasEdge(a, u, v)
    ensures PartlyInduced(a, s, rows, WithEdge(b, u, v, a[u][v]))
  {
    assert forall x, y :: HasEdge(WithEdge(b, u, v, a[u][v]), x, y) <==> HasEdge(b, x, y) || (x == u && y == v);
  }

  lemma FullyInduced(a: Adjacency, s: set<Vertex>, b: Adjacency)
    requires PartlyInduced(a, s, a.Keys, b) && s <= a.Keys
    ensures b == Induced(a, s)
  {
    var c := Induced(a, s);
    forall u | u in c ensures b[u] == c[u] {
      forall v ensures v in b[u] <==> v in c[u] {
        assert HasEdge(b, u, v) <==> v in b[u];
      }
      forall v | v in b[u] ensures b[u][v] == c[u][v] {
        assert HasEdge(b, u, v);
      }
    }
  }

  /** The subgraph on the vertices that match; the only failures are an empty name and a failing function. */
  method FilterGraphWithFn(g: Graph, fn: Filter) returns (r: Result<Graph>)
    requires g.Valid()
    ensures r == Err(EmptyName) <==> g.name == ""
    ensures g.name != "" ==> (r == Err(UserFunction) <==> exists v :: v in g.adjacency && fn(v) == None)
    ensures r.Err? ==> r.error in {EmptyName, UserFunction}
    ensures r.Ok? ==> fresh(r.value) && r.value.Valid() && r.value.name == g.name
    ensures r.Ok? ==> r.value.adjacency == Induced(g.adjacency, Matching(g.adjacency, fn))
  {
    hide PartlyInduced, Transposed, Closed;
    var made := Graph.NewGraph(g.name);
    if made.Err? { return Err(made.error); }
    var newGraph := made.value;
    var a := g.adjacency;
    TransposedIsClosed(a, g.revadjmap);
    ghost var s := Matching(a, fn);
    PartlyNothing(a, s);
    var rows := a.Keys;
    while rows != {}
      invariant newGraph.Valid() && newGraph.name == g.name && fresh(newGraph) && rows <= a.Keys
      invariant PartlyInduced(a, s, a.Keys - rows, newGraph.adjacency)
      invariant forall v | v in a.Keys - rows :: fn(v).Some?
    {
      var k1 :| k1 in rows;
      var contains := fn(k1);
      if contains == None { return Err(UserFunction); }
      if contains.value {
        PartlyWithVertex(a, s, a.Keys - rows, newGraph.adjacency, k1);
        newGraph.AddVertex([k1]);
        AddedIsThere(newGraph.adjacency, k1);
      }
      var rest := a[k1].Keys;
      while rest != {}
        invariant newGraph.Valid() && newGraph.name == g.name && fresh(newGraph) && rest <= a[k1].Keys
        invariant PartlyInduced(a, s, a.Keys - rows, newGraph.adjacency)
        invariant contains.value ==> k1 in newGraph.adjacency
        invariant forall v | v in a[k1].Keys - rest && contains.value && v in s :: HasEdge(newGraph.adjacency, k1, v)
      {
        var k2 :| k2 in rest;
        InsideRow(a, k1, k2);
        var inner := fn(k2);
        if inner == None { return Err(UserFunction); }
        if contains.value && inner.value {
          PartlyWithEdge(a, s, a.Keys - rows, newGraph.adjacency, k1, k2);
          newGraph.AddEdge(k1, k2, a[k1][k2]);
        }
        rest := rest - {k2};
      }
      PartlyOneRow(a, s, a.Keys - rows, newGraph.adjacency, k1);
      assert a.Keys - (rows - {k1}) == a.Keys - rows + {k1};
      rows := rows - {k1};
    }
    assert a.Keys - rows == a.Keys;
    FullyInduced(a, s, newGraph.adjacency);
    return Ok(newGraph);
  }

  lemma PartlyNothing(a: Adjacency, s: set<Vertex>)
    ensures PartlyInduced(a, s, {}, map[]) && a.Keys - a.Keys == {}
  {
  }

  lemma AddedIsThere(b: Adjacency, v: Vertex)
    ensures v in WithVertices(b, [v])
  {
    assert WithVertices(b, [v]) == WithVertices(WithVertex(b, v), [v][1..]);
  }

  lemma InsideRow(a: Adjacency, u: Vertex, v: Vertex)
    requires Closed(a) && u in a && v in a[u]
    ensures HasEdge(a, u, v) && v in a
  {
    assert HasEdge(a, u, v);
  }

  lemma PartlyOneRow(a: Adjacency, s: set<Vertex>, rows: set<Vertex>, b: Adjacency, u: Vertex)
    requires PartlyInduced(a, s, rows, b) && u in a
    requires u in s ==> u in b && forall v | v in a[u].Keys && v in s :: HasEdge(b, u, v)
    ensures PartlyInduced(a, s, rows + {u}, b)
  {
  }

  /** Keeps the vertices in a list. */
  method FilterGraph(g: Graph, vertices: seq<Vertex>) returns (r: Result<Graph>)
    requires g.Valid()
    ensures r.Err? <==> g.name == ""
    ensures r.Err? ==> r.error == EmptyName
    ensures r.Ok? ==> fresh(r.value) && r.value.Valid() && r.value.name == g.name
    ensures r.Ok? ==> r.value.adjacency == Induced(g.adjacency, Elements(vertices))
  {
    var fn := (v: Vertex) => Some(v in vertices);
    r := FilterGraphWithFn(g, fn);
    InducedInside(g.adjacency, Elements(vertices), Matching(g.adjacency, fn));
  }

  lemma InducedInside(a: Adjacency, s: set<Vertex>, t: set<Vertex>)
    requires t == s * a.Keys
    ensures forall x | x in a && x in s :: x in t
    ensures Closed(a) ==> Induced(a, s) == Induced(a, t)
  {
    if Closed(a) {
      forall u | u in a && u in s ensures Induced(a, s)[u] == Induced(a, t)[u] {
        forall v | v in a[u] ensures v in a { assert HasEdge(a, u, v); }
      }
    }
  }

  /* ----- the partition ----- */

  ghost predicate IsPart(a: Adjacency, part: Adjacency) {
    exists v :: v in a && part == Induced(a, Component(a, v))
  }

  ghost predicate Disjoint(parts: seq<Adjacency>) {
    forall i, j | 0 <= i < j < |parts| :: parts[i].Keys !! parts[j].Keys
  }

  ghost predicate InSome(parts: seq<Adjacency>, v: Vertex) {
    exists i :: 0 <= i < |parts| && v in parts[i]
  }

  /** Each part is the subgraph induced by one component; parts are disjoint and cover all vertices. */
  ghost predicate Partition(a: Adjacency, parts: seq<Adjacency>) {
    && (forall i | 0 <= i < |parts| :: IsPart(a, parts[i]))
    && Disjoint(parts)
    && (forall v | v in a :: InSome(parts, v))
  }

  lemma ComponentIsInside(a: Adjacency, v: Vertex)
    requires v in a
    ensures v in Component(a, v) && Component(a, v) <= a.Keys
    ensures Induced(a, Component(a, v)).Keys == Component(a, v)
    ensures IsPart(a, Induced(a, Component(a, v)))
  {
    ReachableSelf(Undirected(a), v);
  }

  /** The edge is in part `i`, with the same edge object, and neither it nor its ends are in any other part. */
  ghost predicate OnlyIn(a: Adjacency, parts: seq<Adjacency>, u: Vertex, v: Vertex, i: int) {
    && 0 <= i < |parts| && HasEdge(a, u, v) && HasEdge(parts[i], u, v) && parts[i][u][v] == a[u][v] && v in parts[i]
    && forall j | 0 <= j < |parts| && j != i :: u !in parts[j] && v !in parts[j]
  }

  /** Every vertex and every edge is in exactly one part. */
  lemma PartitionIsExact(a: Adjacency, parts: seq<Adjacency>, u: Vertex, v: Vertex)
    requires Closed(a) && Partition(a, parts) && HasEdge(a, u, v)
    ensures exists i :: OnlyIn(a, parts, u, v, i)
  {
    hide IsPart, Induced;
    assert InSome(parts, u);
    var i :| 0 <= i < |parts| && u in parts[i];
    PartHasEdge(a, parts[i], u, v);
    forall j | 0 <= j < |parts| && j != i ensures u !in parts[j] && v !in parts[j] {
      assert parts[if i < j then i else j].Keys !! parts[if i < j then j else i].Keys;
    }
    assert OnlyIn(a, parts, u, v, i);
  }

  lemma PartHasEdge(a: Adjacency, part: Adjacency, u: Vertex, v: Vertex)
    requires Closed(a) && IsPart(a, part) && u in part && HasEdge(a, u, v)
    ensures v in part && HasEdge(part, u, v) && part[u][v] == a[u][v]
  {
    var s :| s in a && part == Induced(a, Component(a, s));
    hide Connected;
    assert Linked(a, u, v);
    ConnectedStep(a, s, u, v);
    LinkedIsInside(a, u, v);
  }

  /** All weakly connected parts.  A graph without a name has no subgraphs, so it can only be split when empty. */
  method DisconnectedGraphs(g: Graph) returns (r: Result<seq<Graph>>, ghost parts: seq<Adjacency>)
    requires g.Valid()
    ensures r.Err? <==> g.name == "" && g.adjacency != map[]
    ensures r.Ok? ==> |r.value| == |parts| && Partition(g.adjacency, parts)
    ensures r.Ok? ==> forall i | 0 <= i < |parts| :: r.value[i].Valid() && r.value[i].adjacency == parts[i]
  {
    hide Transposed, Closed, Induced, PartsCover, Component, Partition;
    var a := g.adjacency;
    TransposedIsClosed(a, g.revadjmap);
    var graphs: seq<Graph>, d := [], {};
    parts := [];
    var c := |a.Keys|;
    SizeOfKeys(a);
    NothingCovered(a);
    while |d| < c
      invariant d <= a.Keys && |graphs| == |parts|
      invariant if graphs == [] then d == {} else g.name != "" && c > 0
      invariant forall i | 0 <= i < |parts| :: fresh(graphs[i]) && graphs[i].Valid() && graphs[i].adjacency == parts[i]
      invariant PartsCover(a, parts, d)
      decreases |a.Keys - d|
    {
      var start := Undiscovered(a, d);
      var found := Dfs(g, start);
      var made := FilterGraph(g, found);
      if made.Err? { return Err(made.error), parts; }
      ComponentIsInside(a, start);
      OnePartMore(a, parts, d, start);
      Shrinks(a.Keys, d, Elements(found), start);
      d := d + Elements(found);
      graphs, parts := graphs + [made.value], parts + [made.value.adjacency];
    }
    AllDiscovered(a, parts, d);
    return Ok(graphs), parts;
  }

  lemma NothingCovered(a: Adjacency)
    ensures PartsCover(a, [], {})
  {
  }

  lemma SizeOfKeys(a: Adjacency)
    ensures a == map[] <==> |a.Keys| == 0
  {
    if |a.Keys| == 0 { assert a.Keys == {}; }
  }

  method Undiscovered(a: Adjacency, d: set<Vertex>) returns (start: Vertex)
    requires d <= a.Keys && |d| < |a.Keys|
    ensures start in a && start !in d
  {
    assert d != a.Keys;
    start :| start in a.Keys && start !in d;
  }

  lemma Shrinks(all: set<Vertex>, d: set<Vertex>, found: set<Vertex>, start: Vertex)
    requires start in found && start in all && start !in d
    ensures |all - (d + found)| < |all - d|
  {
    SubsetSize(all - (d + found), all - d);
    assert start in all - d && start !in all - (d + found);
  }

  /** The parts so far: components, disjoint, and together exactly `d`, which is closed under links. */
  ghost predicate PartsCover(a: Adjacency, parts: seq<Adjacency>, d: set<Vertex>) {
    && (forall i | 0 <= i < |parts| :: IsPart(a, parts[i]) && parts[i].Keys <= d)
    && Disjoint(parts)
    && (forall v | v in d :: InSome(parts, v))
    && (forall u, v | u in d && Linked(a, u, v) :: v in d)
  }

  lemma NewComponentIsNew(a: Adjacency, d: set<Vertex>, v: Vertex)
    requires Closed(a) && v in a && v !in d
    requires forall x, y | x in d && Linked(a, x, y) :: y in d
    ensures Component(a, v) !! d
    ensures forall x, y | x in d + Component(a, v) && Linked(a, x, y) :: y in d + Component(a, v)
  {
    hide Connected;
    forall w | w in Component(a, v) ensures w !in d {
      ConnectedSymmetric(a, v, w);
      if w in d { ClosedComponent(a, w, d, v); }
    }
    forall x, y | x in Component(a, v) && Linked(a, x, y) ensures y in Component(a, v) {
      ConnectedStep(a, v, x, y);
      LinkedIsInside(a, x, y);
    }
  }

  lemma OnePartMore(a: Adjacency, parts: seq<Adjacency>, d: set<Vertex>, v: Vertex)
    requires Closed(a) && PartsCover(a, parts, d) && v in a && v !in d
    ensures PartsCover(a, parts + [Induced(a, Component(a, v))], d + Component(a, v))
  {
    hide Component, Induced, IsPart, Linked, Disjoint, InSome;
    ComponentIsInside(a, v);
    NewComponentIsNew(a, d, v);
    var c := Component(a, v);
    InducedKeys(a, c);
    DisjointMore(parts, Induced(a, c), d);
    forall w | w in d + c ensures InSome(parts + [Induced(a, c)], w) {
      InSomeMore(parts, Induced(a, c), w);
    }
  }

  lemma InducedKeys(a: Adjacency, c: set<Vertex>)
    requires c <= a.Keys
    ensures Induced(a, c).Keys == c
  {
  }

  lemma DisjointMore(parts: seq<Adjacency>, p: Adjacency, d: set<Vertex>)
    requires Disjoint(parts) && p.Keys !! d && forall i | 0 <= i < |parts| :: parts[i].Keys <= d
    ensures Disjoint(parts + [p])
  {
  }

  lemma InSomeMore(parts: seq<Adjacency>, p: Adjacency, w: Vertex)
    requires InSome(parts, w) || w in p
    ensures InSome(parts + [p], w)
  {
    if InSome(parts, w) {
      var i :| 0 <= i < |parts| && w in parts[i];
      assert (parts + [p])[i] == parts[i];
    } else {
      assert w in (parts + [p])[|parts|];
    }
  }

  lemma AllDiscovered(a: Adjacency, parts: seq<Adjacency>, d: set<Vertex>)
    requires PartsCover(a, parts, d) && d <= a.Keys && |d| >= |a.Keys|
    ensures Partition(a, parts)
  {
    hide IsPart, InSome, Linked;
    SubsetSize(d, a.Keys);
  }
}
