/** Flattening a subgraph into a host graph, with an edge to (or from) every vertex of it or only the ends. */
module Subgraphs {
  import opened Vertices
  import opened Digraphs
  import opened PointerGraph

  /** Generates the edge object for a new link. */
  type EdgeGen = (Vertex, Vertex) -> Edge

  /** The vertices that get a link: all of them, or in light mode the ones with no edge on that side. */
  ghost predicate Linked(sub: Adjacency, reverse: bool, light: bool, v: Vertex) {
    v in sub && (light ==> if reverse then Succs(sub, v) == {} else Preds(sub, v) == {})
  }

  ghost function Links(sub: Adjacency, vertex: Option<Vertex>, reverse: bool, light: bool): set<(Vertex, Vertex)> {
    if vertex == None then {}
    else if reverse then set v | v in sub && Linked(sub, reverse, light, v) :: (v, vertex.value)
    else set v | v in sub && Linked(sub, reverse, light, v) :: (vertex.value, v)
  }

  ghost function Ends(links: set<(Vertex, Vertex)>): set<Vertex> {
    (set p | p in links :: p.0) + set p | p in links :: p.1
  }

  /** `b` is the host with the subgraph and the links added; an edge of the subgraph beats a link, and a link beats
      an edge that was there. */
  ghost predicate Flattened(host: Adjacency, sub: Adjacency, links: set<(Vertex, Vertex)>, gen: EdgeGen, b: Adjacency) {
    && b.Keys == host.Keys + sub.Keys + Ends(links)
    && (forall x, y :: HasEdge(b, x, y) <==> HasEdge(host, x, y) || HasEdge(sub, x, y) || (x, y) in links)
    && (forall x, y | HasEdge(b, x, y) :: b[x][y] ==
          if HasEdge(sub, x, y) then sub[x][y] else if (x, y) in links then gen(x, y)
          else if HasEdge(host, x, y) then host[x][y] else b[x][y])
  }

  /** The host with some vertices, some links and some edges of the subgraph added so far. */
  ghost predicate Growing(host: Adjacency, sub: Adjacency, vs: set<Vertex>, links: set<(Vertex, Vertex)>,
                          done: set<(Vertex, Vertex)>, gen: EdgeGen, b: Adjacency) {
    && b.Keys == host.Keys + vs + Ends(links) + Ends(done)
    && (forall x, y :: HasEdge(b, x, y) <==> HasEdge(host, x, y) || (x, y) in links || (x, y) in done)
    && GrowingLabels(host, sub, links, done, gen, b)
  }

  ghost predicate GrowingLabels(host: Adjacency, sub: Adjacency, links: set<(Vertex, Vertex)>, done: set<(Vertex, Vertex)>,
                                gen: EdgeGen, b: Adjacency) {
    forall x, y | HasEdge(b, x, y) :: Labelled(host, sub, links, done, gen, x, y, b[x][y])
  }

  ghost predicate Labelled(host: Adjacency, sub: Adjacency, links: set<(Vertex, Vertex)>, done: set<(Vertex, Vertex)>,
                           gen: EdgeGen, x: Vertex, y: Vertex, e: Edge) {
    if (x, y) in done then HasEdge(sub, x, y) && e == sub[x][y]
    else if (x, y) in links then e == gen(x, y)
    else HasEdge(host, x, y) && e == host[x][y]
  }

  lemma EndsOneMore(links: set<(Vertex, Vertex)>, x: Vertex, y: Vertex)
    ensures Ends(links + {(x, y)}) == Ends(links) + {x, y}
  {
    assert (x, y) in links + {(x, y)};
    forall z | z in Ends(links) ensures z in Ends(links + {(x, y)}) {
      if p :| p in links && (z == p.0 || z == p.1) { assert p in links + {(x, y)}; }
    }
  }

  lemma GrowVertex(host: Adjacency, sub: Adjacency, vs: set<Vertex>, links: set<(Vertex, Vertex)>, gen: EdgeGen,
                   b: Adjacency, v: Vertex)
    requires Growing(host, sub, vs, links, {}, gen, b)
    ensures Growing(host, sub, vs + {v}, links, {}, gen, WithVertices(b, [v]))
  {
    hide Labelled, Ends, WithVertex, WithVertices;
    OneVertexMore(b, v);
    OneKeyMore(host.Keys, vs, Ends(links), v);
  }

  lemma OneVertexMore(b: Adjacency, v: Vertex)
    ensures WithVertices(b, [v]).Keys == b.Keys + {v}
    ensures forall x, y :: HasEdge(WithVertices(b, [v]), x, y) <==> HasEdge(b, x, y)
    ensures forall x, y | HasEdge(b, x, y) :: HasEdge(WithVertices(b, [v]), x, y) && WithVertices(b, [v])[x][y] == b[x][y]
  {
    assert WithVertices(b, [v]) == WithVertices(WithVertex(b, v), [v][1..]) == WithVertex(b, v);
  }

  lemma OneKeyMore(host: set<Vertex>, vs: set<Vertex>, ends: set<Vertex>, v: Vertex)
    ensures host + vs + ends + {v} == host + (vs + {v}) + ends
  {
  }

  lemma GrowLink(host: Adjacency, sub: Adjacency, vs: set<Vertex>, links: set<(Vertex, Vertex)>, gen: EdgeGen,
                 b: Adjacency, x: Vertex, y: Vertex)
    requires Growing(host, sub, vs, links, {}, gen, b)
    ensures Growing(host, sub, vs, links + {(x, y)}, {}, gen, WithEdge(b, x, y, gen(x, y)))
  {
    hide Ends, WithEdge;
    EndsOneMore(links, x, y);
    KeysWithEdge(b, x, y, gen(x, y));
    WithEdgeEdges(b, x, y, gen(x, y));
  }

  lemma KeysWithEdge(b: Adjacency, x: Vertex, y: Vertex, e: Edge)
    ensures WithEdge(b, x, y, e).Keys == b.Keys + {x, y}
  {
  }

  lemma GrowEdge(host: Adjacency, sub: Adjacency, vs: set<Vertex>, links: set<(Vertex, Vertex)>,
                 done: set<(Vertex, Vertex)>, gen: EdgeGen, b: Adjacency, x: Vertex, y: Vertex)
    requires Growing(host, sub, vs, links, done, gen, b) && HasEdge(sub, x, y)
    ensures Growing(host, sub, vs, links, done + {(x, y)}, gen, WithEdge(b, x, y, sub[x][y]))
  {
    hide Ends, WithEdge;
    EndsOneMore(done, x, y);
    KeysWithEdge(b, x, y, sub[x][y]);
    WithEdgeEdges(b, x, y, sub[x][y]);
  }

  /** In light mode a vertex without a link still comes in, at the end of an edge. */
  lemma Grown(host: Adjacency, sub: Adjacency, vs: set<Vertex>, links: set<(Vertex, Vertex)>, gen: EdgeGen,
              b: Adjacency, reverse: bool, light: bool)
    requires Growing(host, sub, vs, links, Pairs(sub), gen, b) && Closed(sub)
    requires vs == set v | v in sub && Linked(sub, reverse, light, v)
    ensures Flattened(host, sub, links, gen, b)
  {
    forall v ensures v in sub.Keys <==> v in vs + Ends(Pairs(sub)) {
      if v in sub && v !in vs {
        if reverse {
          var u :| u in Succs(sub, v);
          assert (v, u) in Pairs(sub);
        } else {
          var u :| u in Preds(sub, v);
          assert (u, v) in Pairs(sub);
        }
      }
      if v in Ends(Pairs(sub)) {
        var p :| p in Pairs(sub) && (v == p.0 || v == p.1);
        assert HasEdge(sub, p.0, p.1);
      }
    }
    forall x, y ensures (x, y) in Pairs(sub) <==> HasEdge(sub, x, y) {
    }
  }

  /** The helper behind the five public ways to add a subgraph. */
  method AddEdgeVertexGraphHelper(obj: Graph, vertex: Option<Vertex>, graph: Graph?, gen: EdgeGen, reverse: bool, light: bool)
    requires obj.Valid() && (graph != null ==> graph.Valid())
    modifies obj
    ensures obj.Valid() && obj.name == old(obj.name)
    ensures graph == null ==> obj.adjacency == old(obj.adjacency)
    ensures graph != null ==> var sub := old(graph.adjacency);
      Flattened(old(obj.adjacency), sub, Links(sub, vertex, reverse, light), gen, obj.adjacency)
  {
    if graph == null { return; }
    hide Growing, Transposed, Flattened, Closed, Ends, LinkedSoFar, Links, WithEdge;
    var sub := graph.adjacency; // if this is the host itself, nothing added below is new to the last loop
    TransposedIsClosed(sub, graph.revadjmap);
    ghost var host := obj.adjacency;
    var degree: map<Vertex, nat> := map[];
    if light && reverse {
      degree := graph.OutDegree();
    } else if light {
      degree := graph.InDegree();
    }
    ghost var vs, links := AddVertices(obj, vertex, sub, degree, gen, reverse, light);
    AddEdges(obj, sub, gen, host, vs, links);
    Grown(host, sub, vs, links, gen, obj.adjacency, reverse, light);
  }

  /** The last loop: all edges of the subgraph. */
  method AddEdges(obj: Graph, sub: Adjacency, gen: EdgeGen, ghost host: Adjacency, ghost vs: set<Vertex>,
                  ghost links: set<(Vertex, Vertex)>)
    requires obj.Valid() && Growing(host, sub, vs, links, {}, gen, obj.adjacency)
    modifies obj
    ensures obj.Valid() && obj.name == old(obj.name)
    ensures Growing(host, sub, vs, links, Pairs(sub), gen, obj.adjacency)
  {
    hide Growing, Transposed, WithEdge;
    var rest := Pairs(sub);
    assert Pairs(sub) - rest == {};
    while rest != {}
      invariant obj.Valid() && obj.name == old(obj.name) && rest <= Pairs(sub)
      invariant Growing(host, sub, vs, links, Pairs(sub) - rest, gen, obj.adjacency)
      decreases |rest|
    {
      var p :| p in rest;
      GrowEdge(host, sub, vs, links, Pairs(sub) - rest, gen, obj.adjacency, p.0, p.1) by { assert HasEdge(sub, p.0, p.1); }
      obj.AddEdge(p.0, p.1, sub[p.0][p.1]);
      assert Pairs(sub) - (rest - {p}) == Pairs(sub) - rest + {(p.0, p.1)};
      rest := rest - {p};
    }
    assert Pairs(sub) - rest == Pairs(sub);
  }

  /** The first loop: each vertex, in sorted order, with its link; in light mode the others are skipped here. */
  method AddVertices(obj: Graph, vertex: Option<Vertex>, sub: Adjacency, degree: map<Vertex, nat>, gen: EdgeGen,
                     reverse: bool, light: bool)
    returns (ghost vs: set<Vertex>, ghost links: set<(Vertex, Vertex)>)
    requires obj.Valid()
    requires light ==> degree.Keys == sub.Keys && forall v | v in degree ::
      degree[v] == if reverse then |Succs(sub, v)| else |Preds(sub, v)|
    modifies obj
    ensures obj.Valid() && obj.name == old(obj.name)
    ensures vs == set v | v in sub && Linked(sub, reverse, light, v)
    ensures links == Links(sub, vertex, reverse, light)
    ensures Growing(old(obj.adjacency), sub, vs, links, {}, gen, obj.adjacency)
  {
    hide Growing, Transposed, LinkedSoFar, Links, WithEdge, Linked, Preds, Succs;
    ghost var host := obj.adjacency;
    var vertices := SortVertices(sub.Keys);
    vs, links := {}, {};
    GrowNothing(host, sub, gen);
    NothingLinked(sub, vertices, vertex, reverse, light);
    for i := 0 to |vertices|
      invariant obj.Valid() && obj.name == old(obj.name)
      invariant Growing(host, sub, vs, links, {}, gen, obj.adjacency)
      invariant LinkedSoFar(sub, vertices[..i], vertex, reverse, light, vs, links)
    {
      var v := vertices[i];
      assert v in Elements(vertices);
      assert vertices[..i + 1] == vertices[..i] + [v];
      DegreeTells(sub, reverse, light, v);
      LinkNext(sub, vertices[..i], v, vertex, reverse, light, vs, links);
      if light && degree[v] != 0 { continue; }
      GrowVertex(host, sub, vs, links, gen, obj.adjacency, v);
      obj.AddVertex([v]);
      vs := vs + {v};
      if vertex != None && reverse {
        var edge := gen(v, vertex.value);
        GrowLink(host, sub, vs, links, gen, obj.adjacency, v, vertex.value);
        obj.AddEdge(v, vertex.value, edge);
        links := links + {(v, vertex.value)};
      } else if vertex != None {
        var edge := gen(vertex.value, v);
        GrowLink(host, sub, vs, links, gen, obj.adjacency, vertex.value, v);
        obj.AddEdge(vertex.value, v, edge);
        links := links + {(vertex.value, v)};
      }
    }
    AllLinked(sub, vertices, vertex, reverse, light, vs, links);
  }

  lemma NothingLinked(sub: Adjacency, l: seq<Vertex>, vertex: Option<Vertex>, reverse: bool, light: bool)
    ensures LinkedSoFar(sub, l[..0], vertex, reverse, light, {}, {})
  {
  }

  lemma GrowNothing(host: Adjacency, sub: Adjacency, gen: EdgeGen)
    ensures Growing(host, sub, {}, {}, {}, gen, host)
  {
  }

  lemma DegreeTells(sub: Adjacency, reverse: bool, light: bool, v: Vertex)
    requires v in sub
    ensures Linked(sub, reverse, light, v)
      <==> !light || (if reverse then |Succs(sub, v)| else |Preds(sub, v)|) == 0
  {
  }

  ghost predicate LinkedSoFar(sub: Adjacency, l: seq<Vertex>, vertex: Option<Vertex>, reverse: bool, light: bool,
                              vs: set<Vertex>, links: set<(Vertex, Vertex)>) {
    && vs == (set v | v in Elements(l) && Linked(sub, reverse, light, v))
    && links == if vertex == None then {}
       else if reverse then set v | v in vs :: (v, vertex.value) else set v | v in vs :: (vertex.value, v)
  }

  lemma LinkNext(sub: Adjacency, l: seq<Vertex>, v: Vertex, vertex: Option<Vertex>, reverse: bool, light: bool,
                 vs: set<Vertex>, links: set<(Vertex, Vertex)>)
    requires LinkedSoFar(sub, l, vertex, reverse, light, vs, links) && v in sub
    ensures !Linked(sub, reverse, light, v) ==> LinkedSoFar(sub, l + [v], vertex, reverse, light, vs, links)
    ensures Linked(sub, reverse, light, v) ==> LinkedSoFar(sub, l + [v], vertex, reverse, light, vs + {v},
        if vertex == None then links
        else if reverse then links + {(v, vertex.value)} else links + {(vertex.value, v)})
  {
    ElementsConcat(l, [v]);
  }

  lemma AllLinked(sub: Adjacency, l: seq<Vertex>, vertex: Option<Vertex>, reverse: bool, light: bool,
                  vs: set<Vertex>, links: set<(Vertex, Vertex)>)
    requires LinkedSoFar(sub, l[..|l|], vertex, reverse, light, vs, links) && Elements(l) == sub.Keys
    ensures links == Links(sub, vertex, reverse, light)
    ensures vs == set v | v in sub && Linked(sub, reverse, light, v)
  {
    assert l[..|l|] == l;
  }

  /* ----- the public wrappers ----- */

  method AddGraph(obj: Graph, graph: Graph?)
    requires obj.Valid() && (graph != null ==> graph.Valid())
    modifies obj
    ensures obj.Valid() && obj.name == old(obj.name)
    ensures graph == null ==> obj.adjacency == old(obj.adjacency)
    ensures graph != null ==>
      Flattened(old(obj.adjacency), old(graph.adjacency), {}, (u: Vertex, v: Vertex) => Edge(0, ""), obj.adjacency)
  {
    AddEdgeVertexGraphHelper(obj, None, graph, (u: Vertex, v: Vertex) => Edge(0, ""), false, false);
  }

  method AddEdgeVertexGraph(obj: Graph, vertex: Vertex, graph: Graph?, gen: EdgeGen)
    requires obj.Valid() && (graph != null ==> graph.Valid())
    modifies obj
    ensures obj.Valid() && obj.name == old(obj.name)
    ensures graph == null ==> obj.adjacency == old(obj.adjacency)
    ensures graph != null ==> var sub := old(graph.adjacency);
      Flattened(old(obj.adjacency), sub, Links(sub, Some(vertex), false, false), gen, obj.adjacency)
  {
    AddEdgeVertexGraphHelper(obj, Some(vertex), graph, gen, false, false);
  }

  method AddEdgeVertexGraphLight(obj: Graph, vertex: Vertex, graph: Graph?, gen: EdgeGen)
    requires obj.Valid() && (graph != null ==> graph.Valid())
    modifies obj
    ensures obj.Valid() && obj.name == old(obj.name)
    ensures graph == null ==> obj.adjacency == old(obj.adjacency)
    ensures graph != null ==> var sub := old(graph.adjacency);
      Flattened(old(obj.adjacency), sub, Links(sub, Some(vertex), false, true), gen, obj.adjacency)
  {
    AddEdgeVertexGraphHelper(obj, Some(vertex), graph, gen, false, true);
  }

  method AddEdgeGraphVertex(obj: Graph, graph: Graph?, vertex: Vertex, gen: EdgeGen)
    requires obj.Valid() && (graph != null ==> graph.Valid())
    modifies obj
    ensures obj.Valid() && obj.name == old(obj.name)
    ensures graph == null ==> obj.adjacency == old(obj.adjacency)
    ensures graph != null ==> var sub := old(graph.adjacency);
      Flattened(old(obj.adjacency), sub, Links(sub, Some(vertex), true, false), gen, obj.adjacency)
  {
    AddEdgeVertexGraphHelper(obj, Some(vertex), graph, gen, true, false);
  }

  method AddEdgeGraphVertexLight(obj: Graph, graph: Graph?, vertex: Vertex, gen: EdgeGen)
    requires obj.Valid() && (graph != null ==> graph.Valid())
    modifies obj
    ensures obj.Valid() && obj.name == old(obj.name)
    ensures graph == null ==> obj.adjacency == old(obj.adjacency)
    ensures graph != null ==> var sub := old(graph.adjacency);
      Flattened(old(obj.adjacency), sub, Links(sub, Some(vertex), true, true), gen, obj.adjacency)
  {
    AddEdgeVertexGraphHelper(obj, Some(vertex), graph, gen, true, true);
  }

  /** The edges afterwards: those of the host, those of the subgraph, and one between the vertex and each vertex of the
      subgraph, in light mode only where the subgraph has no edge on that side. */
  lemma FlattenedEdges(host: Adjacency, sub: Adjacency, vertex: Vertex, reverse: bool, light: bool, gen: EdgeGen,
                       b: Adjacency, x: Vertex, y: Vertex)
    requires Closed(sub) && Flattened(host, sub, Links(sub, Some(vertex), reverse, light), gen, b)
    ensures var linked := if reverse then y == vertex && x in sub && (light ==> forall z :: !HasEdge(sub, x, z))
                          else x == vertex && y in sub && (light ==> forall z :: !HasEdge(sub, z, y));
      && (HasEdge(b, x, y) <==> HasEdge(host, x, y) || HasEdge(sub, x, y) || linked)
      && (HasEdge(sub, x, y) ==> b[x][y] == sub[x][y])
      && (!HasEdge(sub, x, y) && linked ==> b[x][y] == gen(x, y))
      && (HasEdge(host, x, y) && !HasEdge(sub, x, y) && !linked ==> b[x][y] == host[x][y])
  {
    hide Ends;
    assert forall z :: z in Preds(sub, y) <==> HasEdge(sub, z, y);
    assert forall z :: z in Succs(sub, x) <==> HasEdge(sub, x, z);
  }

  /* ----- what light mode preserves ----- */

  /** Reading the edges backwards. */
  ghost function Flip(a: Adjacency): Adjacency {
    map u | u in a :: map v | v in a && HasEdge(a, v, u) :: a[v][u]
  }

  lemma FlipEdges(a: Adjacency)
    requires Closed(a)
    ensures Closed(Flip(a)) && forall u, v :: HasEdge(Flip(a), u, v) <==> HasEdge(a, v, u)
  {
  }

  ghost function Reversed(p: seq<Vertex>): (r: seq<Vertex>)
    ensures |r| == |p| && forall i | 0 <= i < |p| :: r[i] == p[|p| - 1 - i]
  {
    seq(|p|, i requires 0 <= i < |p| => p[|p| - 1 - i])
  }

  lemma FlipPath(a: Adjacency, p: seq<Vertex>)
    requires Closed(a) && IsPath(Flip(a), p)
    ensures PathBetween(a, p[|p| - 1], p[0], Reversed(p))
  {
    FlipEdges(a);
    var r := Reversed(p);
    forall i | 0 <= i < |r| - 1 ensures HasEdge(a, r[i], r[i + 1]) {
      var k := |p| - 2 - i;
      assert HasEdge(Flip(a), p[k], p[k + 1]);
    }
  }

  lemma FlipAcyclic(a: Adjacency)
    requires Closed(a) && Acyclic(a)
    ensures Acyclic(Flip(a))
  {
    forall p ensures !Cycle(Flip(a), p) {
      if Cycle(Flip(a), p) {
        FlipPath(a, p);
        assert Cycle(a, Reversed(p));
      }
    }
  }

  /** In a DAG every vertex can be reached from one without incoming edges. */
  lemma SourceReaches(a: Adjacency, v: Vertex) returns (s: Vertex)
    requires Closed(a) && Acyclic(a) && v in a
    ensures s in a && Preds(a, s) == {} && Reachable(a, s, v)
  {
    ReachableSelf(a, v);
    var ancestors := set u | u in a && Reachable(a, u, v);
    assert v in ancestors;
    if forall u | u in ancestors :: Preds(a, u) != {} {
      forall u {:trigger HasPredecessorIn(a, ancestors, u)} | u in ancestors ensures HasPredecessorIn(a, ancestors, u) {
        var w :| w in Preds(a, u);
        ReachableEdge(a, w, u);
        ReachableTransitive(a, w, u, v);
      }
      NoSourceMeansCycle(a, ancestors);
      s := v;
    } else {
      s :| s in ancestors && Preds(a, s) == {};
    }
  }

  lemma ReachesSink(a: Adjacency, v: Vertex) returns (s: Vertex)
    requires Closed(a) && Acyclic(a) && v in a
    ensures s in a && Succs(a, s) == {} && Reachable(a, v, s)
  {
    FlipEdges(a);
    FlipAcyclic(a);
    s := SourceReaches(Flip(a), v);
    assert Succs(a, s) == Preds(Flip(a), s);
    var p :| PathBetween(Flip(a), s, v, p);
    FlipPath(a, p);
  }

  /** Every vertex of an acyclic subgraph can be reached from the given one, or reaches it in reverse mode. */
  lemma LightReachesAll(host: Adjacency, sub: Adjacency, vertex: Vertex, reverse: bool, gen: EdgeGen, b: Adjacency, v: Vertex)
    requires Closed(sub) && Acyclic(sub) && v in sub
    requires Flattened(host, sub, Links(sub, Some(vertex), reverse, true), gen, b)
    ensures v in b && if reverse then Reachable(b, v, vertex) else Reachable(b, vertex, v)
  {
    forall x, y | HasEdge(sub, x, y) ensures Reachable(b, x, y) { ReachableEdge(b, x, y); }
    if reverse {
      var s := ReachesSink(sub, v);
      var p :| PathBetween(sub, v, s, p);
      PathLifts(sub, b, p);
      assert (s, vertex) in Links(sub, Some(vertex), reverse, true);
      ReachableEdge(b, s, vertex);
      ReachableTransitive(b, v, s, vertex);
    } else {
      var s := SourceReaches(sub, v);
      var p :| PathBetween(sub, s, v, p);
      PathLifts(sub, b, p);
      assert (vertex, s) in Links(sub, Some(vertex), reverse, true);
      ReachableEdge(b, vertex, s);
      ReachableTransitive(b, vertex, s, v);
    }
  }

  /** Light and full flattening of an acyclic subgraph reach the same vertices from everywhere. */
  lemma LightReachesAsFull(host: Adjacency, sub: Adjacency, vertex: Vertex, reverse: bool, gen: EdgeGen,
                           light: Adjacency, full: Adjacency, x: Vertex, y: Vertex)
    requires Closed(sub) && Acyclic(sub)
    requires Flattened(host, sub, Links(sub, Some(vertex), reverse, true), gen, light)
    requires Flattened(host, sub, Links(sub, Some(vertex), reverse, false), gen, full)
    ensures Reachable(light, x, y) <==> Reachable(full, x, y)
    ensures light.Keys == full.Keys
  {
    forall u, v | HasEdge(light, u, v) ensures Reachable(full, u, v) {
      ReachableEdge(full, u, v);
    }
    forall u, v | HasEdge(full, u, v) ensures Reachable(light, u, v) {
      if HasEdge(light, u, v) {
        ReachableEdge(light, u, v);
      } else {
        LightReachesAll(host, sub, vertex, reverse, gen, light, if reverse then u else v);
      }
    }
    if Reachable(light, x, y) {
      var p :| PathBetween(light, x, y, p);
      PathLifts(light, full, p);
    }
    if Reachable(full, x, y) {
      var p :| PathBetween(full, x, y, p);
      PathLifts(full, light, p);
    }
    SameKeys(host, sub, vertex, reverse, gen, light, full);
  }

  lemma SameKeys(host: Adjacency, sub: Adjacency, vertex: Vertex, reverse: bool, gen: EdgeGen, light: Adjacency, full: Adjacency)
    requires Closed(sub) && Acyclic(sub)
    requires Flattened(host, sub, Links(sub, Some(vertex), reverse, true), gen, light)
    requires Flattened(host, sub, Links(sub, Some(vertex), reverse, false), gen, full)
    ensures light.Keys == full.Keys
  {
    var l, f := Links(sub, Some(vertex), reverse, true), Links(sub, Some(vertex), reverse, false);
    assert light.Keys == host.Keys + sub.Keys + Ends(l) && full.Keys == host.Keys + sub.Keys + Ends(f);
    hide Flattened;
    forall x | x in Ends(f) ensures x in sub.Keys + Ends(l) {
      var p :| p in f && (x == p.0 || x == p.1);
      if x !in sub { VertexIsLinked(sub, vertex, reverse, if reverse then p.0 else p.1); }
    }
    assert Ends(l) <= Ends(f) by { assert l <= f; }
  }

  lemma VertexIsLinked(sub: Adjacency, vertex: Vertex, reverse: bool, v: Vertex)
    requires Closed(sub) && Acyclic(sub) && v in sub
    ensures vertex in Ends(Links(sub, Some(vertex), reverse, true))
  {
    if reverse {
      var s := ReachesSink(sub, v);
      assert (s, vertex) in Links(sub, Some(vertex), reverse, true);
    } else {
      var s := SourceReaches(sub, v);
      assert (vertex, s) in Links(sub, Some(vertex), reverse, true);
    }
  }

  /** No edge leaves the lower half, so a cycle stays in one half. */
  lemma CycleStaysInHalf(b: Adjacency, low: set<Vertex>, p: seq<Vertex>)
    requires Cycle(b, p)
    requires forall u, v | u in low && HasEdge(b, u, v) :: v in low
    ensures (forall x | x in p :: x in low) || (forall x | x in p :: x !in low)
  {
    if p[0] in low {
      ClosedUnderSuccessors(b, low, p);
    } else {
      forall i | 0 <= i < |p| ensures p[i] !in low {
        if p[i] in low { StaysLow(b, low, p, i); }
      }
    }
  }

  lemma StaysLow(b: Adjacency, low: set<Vertex>, p: seq<Vertex>, i: nat)
    requires IsPath(b, p) && i < |p| && p[i] in low
    requires forall u, v | u in low && HasEdge(b, u, v) :: v in low
    ensures p[|p| - 1] in low
  {
    SubPath(b, p, i, |p|);
    ClosedUnderSuccessors(b, low, p[i..]);
    assert p[i..][|p| - 1 - i] in p[i..];
  }

  lemma CycleOfHalf(a: Adjacency, b: Adjacency, p: seq<Vertex>)
    requires Cycle(b, p)
    requires forall u, v | u in p && v in p && HasEdge(b, u, v) :: HasEdge(a, u, v)
    ensures Cycle(a, p)
  {
  }

  /** Flattening a DAG that shares no vertex with the host DAG and the given vertex leaves a DAG. */
  lemma FlatteningKeepsAcyclic(host: Adjacency, sub: Adjacency, vertex: Vertex, reverse: bool, light: bool, gen: EdgeGen,
                               b: Adjacency)
    requires Closed(host) && Closed(sub) && Acyclic(host) && Acyclic(sub)
    requires host.Keys !! sub.Keys && vertex !in sub
    requires Flattened(host, sub, Links(sub, Some(vertex), reverse, light), gen, b)
    ensures Acyclic(b)
  {
    var low := if reverse then host.Keys + {vertex} else sub.Keys;
    forall u, v | u in low && HasEdge(b, u, v) ensures v in low {
      if HasEdge(sub, u, v) { assert u in sub && v in sub; }
      if HasEdge(host, u, v) { assert u in host && v in host; }
    }
    forall p ensures !Cycle(b, p) {
      if Cycle(b, p) {
        CycleStaysInHalf(b, low, p);
        OneHalf(host, sub, vertex, reverse, light, gen, b, p, low);
      }
    }
  }

  lemma OneHalf(host: Adjacency, sub: Adjacency, vertex: Vertex, reverse: bool, light: bool, gen: EdgeGen,
                b: Adjacency, p: seq<Vertex>, low: set<Vertex>)
    requires Closed(host) && Closed(sub) && host.Keys !! sub.Keys && vertex !in sub
    requires Flattened(host, sub, Links(sub, Some(vertex), reverse, light), gen, b) && Cycle(b, p)
    requires low == if reverse then host.Keys + {vertex} else sub.Keys
    requires (forall x | x in p :: x in low) || (forall x | x in p :: x !in low)
    ensures Cycle(host, p) || Cycle(sub, p)
  {
    var inSub := (p[0] in low) != reverse;
    assert p[0] in p;
    forall u, v | u in p && v in p && HasEdge(b, u, v)
      ensures if inSub then HasEdge(sub, u, v) else HasEdge(host, u, v)
    {
      if HasEdge(sub, u, v) { assert u in sub && v in sub; }
      if HasEdge(host, u, v) { assert u in host && v in host; }
    }
    if inSub { CycleOfHalf(sub, b, p); } else { CycleOfHalf(host, b, p); }
  }

  /** A path that comes in from outside enters through a link, and then stays. */
  lemma {:induction false} EntersByLink(host: Adjacency, sub: Adjacency, vertex: Vertex, gen: EdgeGen, b: Adjacency, p: seq<Vertex>)
    returns (s: Vertex)
    requires Closed(host) && Closed(sub) && host.Keys !! sub.Keys && vertex !in sub
    requires Flattened(host, sub, Links(sub, Some(vertex), false, true), gen, b)
    requires IsPath(b, p) && p[0] !in sub && p[|p| - 1] in sub
    ensures Linked(sub, false, true, s) && Reachable(sub, s, p[|p| - 1])
    decreases |p|
  {
    hide Linked, Reachable;
    assert HasEdge(b, p[0], p[0 + 1]);
    SubPath(b, p, 1, |p|);
    if p[1] in sub {
      s := p[1];
      assert s !in host;
      assert (p[0], p[1]) in Links(sub, Some(vertex), false, true);
      StaysInside(host, sub, vertex, gen, b, p[1..]);
    } else {
      s := EntersByLink(host, sub, vertex, gen, b, p[1..]);
    }
  }

  lemma StaysInside(host: Adjacency, sub: Adjacency, vertex: Vertex, gen: EdgeGen, b: Adjacency, p: seq<Vertex>)
    requires Closed(sub) && host.Keys !! sub.Keys && vertex !in sub
    requires Flattened(host, sub, Links(sub, Some(vertex), false, true), gen, b)
    requires IsPath(b, p) && p[0] in sub
    ensures Reachable(sub, p[0], p[|p| - 1])
  {
    hide Linked;
    forall u, v | u in sub && HasEdge(b, u, v) ensures HasEdge(sub, u, v) && v in sub {
      assert u !in host;
    }
    ClosedUnderSuccessors(b, sub.Keys, p);
    forall i | 0 <= i < |p| - 1 ensures HasEdge(sub, p[i], p[i + 1]) {
      assert p[i] in p && HasEdge(b, p[i], p[i + 1]);
    }
    assert PathBetween(sub, p[0], p[|p| - 1], p);
  }

  /** In reverse mode a path leaves the subgraph through a link only. */
  lemma {:induction false} LeavesByLink(host: Adjacency, sub: Adjacency, vertex: Vertex, gen: EdgeGen, b: Adjacency, p: seq<Vertex>)
    returns (s: Vertex)
    requires Closed(sub) && host.Keys !! sub.Keys && vertex !in sub
    requires Flattened(host, sub, Links(sub, Some(vertex), true, true), gen, b)
    requires IsPath(b, p) && p[0] in sub && p[|p| - 1] !in sub
    ensures Linked(sub, true, true, s) && Reachable(sub, p[0], s)
    decreases |p|
  {
    hide Linked, Reachable;
    assert HasEdge(b, p[0], p[0 + 1]) && p[0] !in host;
    SubPath(b, p, 1, |p|);
    if p[1] in sub {
      assert (p[0], p[1]) !in Links(sub, Some(vertex), true, true);
      s := LeavesByLink(host, sub, vertex, gen, b, p[1..]);
      ReachableEdge(sub, p[0], p[1]);
      ReachableTransitive(sub, p[0], p[1], s);
    } else {
      s := p[0];
      assert !HasEdge(sub, p[0], p[1]);
      ReachableSelf(sub, p[0]);
    }
  }

  lemma LinkReaches(host: Adjacency, sub: Adjacency, vertex: Vertex, reverse: bool, gen: EdgeGen, b: Adjacency, s: Vertex, v: Vertex)
    requires Flattened(host, sub, Links(sub, Some(vertex), reverse, true), gen, b) && Linked(sub, reverse, true, s)
    ensures !reverse && Reachable(sub, s, v) ==> Reachable(b, vertex, v)
    ensures reverse && Reachable(sub, v, s) ==> Reachable(b, v, vertex)
  {
    forall x, y | HasEdge(sub, x, y) ensures Reachable(b, x, y) { ReachableEdge(b, x, y); }
    if reverse && Reachable(sub, v, s) {
      var p :| PathBetween(sub, v, s, p);
      PathLifts(sub, b, p);
      assert (s, vertex) in Links(sub, Some(vertex), reverse, true);
      ReachableEdge(b, s, vertex);
      ReachableTransitive(b, v, s, vertex);
    } else if !reverse && Reachable(sub, s, v) {
      var p :| PathBetween(sub, s, v, p);
      PathLifts(sub, b, p);
      assert (vertex, s) in Links(sub, Some(vertex), reverse, true);
      ReachableEdge(b, vertex, s);
      ReachableTransitive(b, vertex, s, v);
    }
  }

  /** In a disjoint host, with or without cycles, light mode connects exactly the vertices that a vertex without an incoming
      edge reaches; in reverse, those that reach one without an outgoing edge. */
  lemma LightReachesIff(host: Adjacency, sub: Adjacency, vertex: Vertex, reverse: bool, gen: EdgeGen, b: Adjacency, v: Vertex)
    requires Closed(host) && Closed(sub) && host.Keys !! sub.Keys && vertex !in sub && v in sub
    requires Flattened(host, sub, Links(sub, Some(vertex), reverse, true), gen, b)
    ensures !reverse ==>
      (Reachable(b, vertex, v) <==> exists s :: s in sub && Preds(sub, s) == {} && Reachable(sub, s, v))
    ensures reverse ==>
      (Reachable(b, v, vertex) <==> exists s :: s in sub && Succs(sub, s) == {} && Reachable(sub, v, s))
  {
    hide Flattened;
    forall s | Linked(sub, reverse, true, s)
      ensures !reverse && Reachable(sub, s, v) ==> Reachable(b, vertex, v)
      ensures reverse && Reachable(sub, v, s) ==> Reachable(b, v, vertex)
    {
      LinkReaches(host, sub, vertex, reverse, gen, b, s, v);
    }
    if !reverse && Reachable(b, vertex, v) {
      var p :| PathBetween(b, vertex, v, p);
      var s := EntersByLink(host, sub, vertex, gen, b, p);
    } else if reverse && Reachable(b, v, vertex) {
      var p :| PathBetween(b, v, vertex, p);
      var s := LeavesByLink(host, sub, vertex, gen, b, p);
    }
  }

  /** On a subgraph that is only a cycle light mode links nothing, so nothing in it is reached. */
  lemma LightMissesCycles(vertex: Vertex, u: Vertex, v: Vertex, e: Edge, gen: EdgeGen, b: Adjacency)
    requires u != v && vertex != u && vertex != v
    requires Flattened(map[vertex := map[]], map[u := map[v := e], v := map[u := e]],
                       Links(map[u := map[v := e], v := map[u := e]], Some(vertex), false, true), gen, b)
    ensures !Reachable(b, vertex, u)
  {
    var sub := map[u := map[v := e], v := map[u := e]];
    assert v in Preds(sub, u) && u in Preds(sub, v);
    assert Links(sub, Some(vertex), false, true) == {};
    forall p ensures !PathBetween(b, vertex, u, p) {
      if PathBetween(b, vertex, u, p) {
        ClosedUnderSuccessors(b, {vertex}, p);
      }
    }
  }
}
