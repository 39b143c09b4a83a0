/** The mutable pointer graph: an adjacency index and its mirror, kept in step by every mutation.

    Both indexes are maps that the methods reassign.  A vertex without edges has an empty inner map. */
module PointerGraph {
  import opened Vertices
  import opened Digraphs

  datatype GraphError =
    | EmptyName
    | UserFunction
    | NotAcyclic(cycle: seq<Vertex>)
    | EmptyVertex
    | ProgrammingError

  datatype Result<+T> = Ok(value: T) | Err(error: GraphError)

  /** The edges of `a` whose edge object is not in `xe`. */
  function WithoutEdges(a: Adjacency, xe: set<Edge>): Adjacency {
    map u | u in a :: map v | v in a[u] && a[u][v] !in xe :: a[u][v]
  }

  function WithoutVertices(a: Adjacency, xv: seq<Vertex>): Adjacency
    decreases |xv|
  {
    if xv == [] then a else WithoutVertices(WithoutVertex(a, xv[0]), xv[1..])
  }

  /** The vertices in one row of an index; a vertex that is not there has no row. */
  function Row(a: Adjacency, v: Vertex): set<Vertex> {
    if v in a then a[v].Keys else {}
  }

  /** `a` with `v` already removed from the rows in `done`. */
  function RowsCleared(a: Adjacency, v: Vertex, done: set<Vertex>): Adjacency {
    map u | u in a :: if u in done then a[u] - {v} else a[u]
  }

  lemma WithTwoVertices(a: Adjacency, v1: Vertex, v2: Vertex)
    ensures WithVertices(a, [v1, v2]) == WithVertex(WithVertex(a, v1), v2)
  {
    assert [v1, v2][1..] == [v2];
    assert WithVertices(WithVertex(a, v1), [v2]) == WithVertices(WithVertex(WithVertex(a, v1), v2), [v2][1..]);
  }

  lemma RowsClearedStep(a: Adjacency, v: Vertex, done: set<Vertex>, k: Vertex)
    requires k in a
    ensures var b := RowsCleared(a, v, done); b[k := b[k] - {v}] == RowsCleared(a, v, done + {k})
  {
    var b, c := RowsCleared(a, v, done), RowsCleared(a, v, done + {k});
    var d := b[k := b[k] - {v}];
    assert d.Keys == c.Keys;
    assert forall u | u in c :: d[u] == c[u];
  }

  lemma RowsClearedAll(a: Adjacency, r: Adjacency, v: Vertex)
    requires Transposed(a, r)
    ensures RowsCleared(a, v, Row(r, v)) - {v} == WithoutVertex(a, v)
  {
    forall u | u in a && u !in Row(r, v) ensures a[u] == a[u] - {v} {
      assert HasEdge(a, u, v) <==> HasEdge(r, v, u);
    }
  }

  lemma RowsClearedAllMirror(a: Adjacency, r: Adjacency, v: Vertex)
    requires Transposed(a, r)
    ensures Row(RowsCleared(a, v, Row(r, v)), v) <= r.Keys
    ensures RowsCleared(r, v, Row(RowsCleared(a, v, Row(r, v)), v)) - {v} == WithoutVertex(r, v)
  {
    var targets := Row(RowsCleared(a, v, Row(r, v)), v);
    forall u | u in targets ensures u in r {
      assert HasEdge(a, v, u);
      assert HasEdge(r, u, v);
    }
    forall u | u in r && u != v && u !in targets ensures r[u] == r[u] - {v} {
      assert HasEdge(r, u, v) <==> HasEdge(a, v, u);
    }
  }

  lemma WithoutVertexTransposed(a: Adjacency, r: Adjacency, v: Vertex)
    requires Transposed(a, r)
    ensures Transposed(WithoutVertex(a, v), WithoutVertex(r, v))
  {
    var a', r' := WithoutVertex(a, v), WithoutVertex(r, v);
    forall x, y ensures HasEdge(a', x, y) <==> HasEdge(r', y, x) {
      assert HasEdge(a, x, y) <==> HasEdge(r, y, x);
    }
    forall x, y | HasEdge(a', x, y) ensures a'[x][y] == r'[y][x] {
      assert HasEdge(a, x, y);
    }
  }

  /** `a` after every pair outside `rest` has been looked at, and its edge dropped if in `xe`. */
  function Prune(a: Adjacency, xe: set<Edge>, rest: set<(Vertex, Vertex)>): Adjacency {
    map u | u in a :: map v | v in a[u] && !(a[u][v] in xe && (u, v) !in rest) :: a[u][v]
  }

  lemma PruneNone(a: Adjacency, xe: set<Edge>, rest: set<(Vertex, Vertex)>)
    requires rest == Pairs(a)
    ensures Prune(a, xe, rest) == a
  {
    forall u | u in a ensures Prune(a, xe, rest)[u] == a[u] {
    }
  }

  lemma PruneAll(a: Adjacency, xe: set<Edge>)
    ensures Prune(a, xe, {}) == WithoutEdges(a, xe)
  {
    forall u | u in a ensures Prune(a, xe, {})[u] == WithoutEdges(a, xe)[u] {
    }
  }

  lemma WithoutNoEdges(a: Adjacency)
    ensures WithoutEdges(a, {}) == a
  {
    forall u | u in a ensures WithoutEdges(a, {})[u] == a[u] {
    }
  }

  lemma PruneStep(a: Adjacency, xe: set<Edge>, rest: set<(Vertex, Vertex)>, p: (Vertex, Vertex))
    requires p in rest && rest <= Pairs(a)
    ensures var b := Prune(a, xe, rest);
      && HasEdge(b, p.0, p.1) && b[p.0][p.1] == a[p.0][p.1]
      && Prune(a, xe, rest - {p}) == if a[p.0][p.1] in xe then WithoutEdge(b, p.0, p.1) else b
  {
    assert HasEdge(a, p.0, p.1);
    var b, c := Prune(a, xe, rest), Prune(a, xe, rest - {p});
    var d := if a[p.0][p.1] in xe then WithoutEdge(b, p.0, p.1) else b;
    forall u | u in a ensures c[u] == d[u] {
      assert forall v :: v in c[u] <==> v in d[u];
    }
  }

  /** The vertices of a set in some order: iterating over a map promises no more. */
  method Listing(s: set<Vertex>) returns (l: seq<Vertex>)
    ensures Distinct(l) && Elements(l) == s && |l| == |s|
  {
    var rest := s;
    l := [];
    while rest != {}
      invariant rest <= s && Elements(l) == s - rest && Distinct(l) && |l| + |rest| == |s|
    {
      var v :| v in rest;
      ElementsConcat(l, [v]);
      assert v !in Elements(l);
      l := l + [v];
      rest := rest - {v};
    }
  }

  class Graph {
    var name: string
    var adjacency: Adjacency
    var revadjmap: Adjacency

    /** The mirror index is the exact transpose of the adjacency index; no edge dangles. */
    ghost predicate Valid()
      reads this
    {
      Transposed(adjacency, revadjmap)
    }

    constructor (name: string)
      ensures Valid() && this.name == name && adjacency == map[] && revadjmap == map[]
    {
      this.name := name;
      adjacency, revadjmap := map[], map[];
    }

    /** A graph with an empty name cannot be initialised. */
    static method NewGraph(name: string) returns (r: Result<Graph>)
      ensures r.Err? <==> name == ""
      ensures r.Err? ==> r.error == EmptyName
      ensures r.Ok? ==> fresh(r.value) && r.value.Valid() && r.value.name == name && r.value.adjacency == map[]
    {
      if name == "" { return Err(EmptyName); }
      var g := new Graph(name);
      return Ok(g);
    }

    /** A copy of the structure; vertices and edges stay the same objects. */
    method Copy() returns (g: Graph)
      requires Valid()
      ensures fresh(g) && g.Valid()
      ensures g.name == name && g.adjacency == adjacency && g.revadjmap == revadjmap
    {
      g := new Graph(name);
      g.adjacency, g.revadjmap := adjacency, revadjmap;
    }

    method AddVertex(xv: seq<Vertex>)
      requires Valid()
      modifies this
      ensures Valid() && name == old(name)
      ensures adjacency == WithVertices(old(adjacency), xv)
    {
      var i := 0;
      while i < |xv|
        invariant 0 <= i <= |xv| && Valid() && name == old(name)
        invariant WithVertices(adjacency, xv[i..]) == WithVertices(old(adjacency), xv)
      {
        var v := xv[i];
        assert xv[i..][0] == v && xv[i..][1..] == xv[i + 1..];
        ghost var a, r := adjacency, revadjmap;
        adjacency, revadjmap := WithVertex(adjacency, v), WithVertex(revadjmap, v);
        assert forall x, y :: HasEdge(adjacency, x, y) <==> HasEdge(a, x, y);
        assert forall x, y :: HasEdge(revadjmap, x, y) <==> HasEdge(r, x, y);
        i := i + 1;
      }
    }

    method AddEdge(v1: Vertex, v2: Vertex, e: Edge)
      requires Valid()
      modifies this
      ensures Valid() && name == old(name)
      ensures adjacency == WithEdge(old(adjacency), v1, v2, e)
    {
      AddVertex([v1, v2]);
      WithTwoVertices(old(adjacency), v1, v2);
      ghost var a, r := adjacency, revadjmap;
      adjacency := adjacency[v1 := adjacency[v1][v2 := e]];
      revadjmap := revadjmap[v2 := revadjmap[v2][v1 := e]];
      assert forall x, y :: HasEdge(adjacency, x, y) <==> HasEdge(a, x, y) || (x == v1 && y == v2);
      assert forall x, y :: HasEdge(revadjmap, x, y) <==> HasEdge(r, x, y) || (x == v2 && y == v1);
    }

    /** Clears the rows of the vertices that point to `v`, which the mirror index lists. */
    method ClearIncoming(v: Vertex)
      requires Valid()
      modifies this`adjacency
      ensures adjacency == RowsCleared(old(adjacency), v, Row(revadjmap, v))
    {
      ghost var a := adjacency;
      var incoming := Row(revadjmap, v);
      while incoming != {}
        invariant incoming <= Row(revadjmap, v)
        invariant adjacency == RowsCleared(a, v, Row(revadjmap, v) - incoming)
      {
        var k :| k in incoming;
        assert HasEdge(revadjmap, v, k);
        assert HasEdge(a, k, v);
        RowsClearedStep(a, v, Row(revadjmap, v) - incoming, k);
        adjacency := adjacency[k := adjacency[k] - {v}];
        assert Row(revadjmap, v) - incoming + {k} == Row(revadjmap, v) - (incoming - {k});
        incoming := incoming - {k};
      }
      assert Row(revadjmap, v) - incoming == Row(revadjmap, v);
    }

    /** Clears the mirror rows of the vertices that `v` points to. */
    method ClearOutgoing(v: Vertex)
      requires Row(adjacency, v) <= revadjmap.Keys
      modifies this`revadjmap
      ensures revadjmap == RowsCleared(old(revadjmap), v, Row(adjacency, v))
    {
      ghost var r := revadjmap;
      var outgoing := Row(adjacency, v);
      while outgoing != {}
        invariant outgoing <= Row(adjacency, v)
        invariant revadjmap == RowsCleared(r, v, Row(adjacency, v) - outgoing)
      {
        var k :| k in outgoing;
        RowsClearedStep(r, v, Row(adjacency, v) - outgoing, k);
        revadjmap := revadjmap[k := revadjmap[k] - {v}];
        assert Row(adjacency, v) - outgoing + {k} == Row(adjacency, v) - (outgoing - {k});
        outgoing := outgoing - {k};
      }
      assert Row(adjacency, v) - outgoing == Row(adjacency, v);
    }

    /** Removes one vertex by walking the mirror entries of its edges, self-loops included. */
    method DeleteOneVertex(v: Vertex)
      requires Valid()
      modifies this
      ensures Valid() && name == old(name)
      ensures adjacency == WithoutVertex(old(adjacency), v)
    {
      ghost var a, r := adjacency, revadjmap;
      RowsClearedAll(a, r, v);
      ClearIncoming(v);
      RowsClearedAllMirror(a, r, v);
      ClearOutgoing(v);
      adjacency, revadjmap := adjacency - {v}, revadjmap - {v};
      WithoutVertexTransposed(a, r, v);
    }

    method DeleteVertex(xv: seq<Vertex>)
      requires Valid()
      modifies this
      ensures Valid() && name == old(name)
      ensures adjacency == WithoutVertices(old(adjacency), xv)
    {
      for i := 0 to |xv|
        invariant Valid() && name == old(name)
        invariant WithoutVertices(adjacency, xv[i..]) == WithoutVertices(old(adjacency), xv)
      {
        assert xv[i..][0] == xv[i] && xv[i..][1..] == xv[i + 1..];
        DeleteOneVertex(xv[i]);
      }
    }

    method DeleteEdgeBetween(v1: Vertex, v2: Vertex)
      requires Valid()
      modifies this
      ensures Valid() && name == old(name)
      ensures adjacency == WithoutEdge(old(adjacency), v1, v2)
    {
      ghost var a, r := adjacency, revadjmap;
      if v1 in adjacency { adjacency := adjacency[v1 := adjacency[v1] - {v2}]; }
      if v2 in revadjmap { revadjmap := revadjmap[v2 := revadjmap[v2] - {v1}]; }
      assert forall x, y :: HasEdge(adjacency, x, y) <==> HasEdge(a, x, y) && !(x == v1 && y == v2);
      assert forall x, y :: HasEdge(revadjmap, x, y) <==> HasEdge(r, x, y) && !(x == v2 && y == v1);
    }

    /** Removes an edge object wherever it appears. */
    method DeleteEdge(xe: seq<Edge>)
      requires Valid()
      modifies this
      ensures Valid() && name == old(name)
      ensures adjacency == WithoutEdges(old(adjacency), Elements(xe))
    {
      if |xe| == 0 {
        WithoutNoEdges(adjacency);
        ElementsEmpty(xe);
        return;
      }
      ghost var a, gone := adjacency, Elements(xe);
      var pairs := Pairs(adjacency);
      PruneNone(a, gone, pairs);
      while pairs != {}
        invariant Valid() && name == old(name) && pairs <= Pairs(a)
        invariant adjacency == Prune(a, gone, pairs)
        decreases |pairs|
      {
        var p :| p in pairs;
        PruneStep(a, gone, pairs, p);
        if adjacency[p.0][p.1] in xe {
          DeleteEdgeBetween(p.0, p.1);
        }
        pairs := pairs - {p};
      }
      PruneAll(a, gone);
    }

    method NumEdges() returns (count: nat)
      ensures count == |Pairs(adjacency)|
    {
      count := 0;
      var rest := adjacency.Keys;
      while rest != {}
        invariant rest <= adjacency.Keys
        invariant count == |set u, v | u in adjacency && u !in rest && v in adjacency[u] :: (u, v)|
      {
        var k :| k in rest;
        ghost var seen := set u, v | u in adjacency && u !in rest && v in adjacency[u] :: (u, v);
        ghost var row := set v | v in adjacency[k] :: (k, v);
        RowSize(k, adjacency[k].Keys);
        assert row == (set v | v in adjacency[k].Keys :: (k, v));
        count := count + |adjacency[k]|;
        rest := rest - {k};
        assert (set u, v | u in adjacency && u !in rest && v in adjacency[u] :: (u, v)) == seen + row;
      }
      assert Pairs(adjacency) == set u, v | u in adjacency && u !in rest && v in adjacency[u] :: (u, v);
    }

    /** The mirror index answers "who points at `v`" exactly as a scan of all edges would. */
    method IncomingGraphVertices(v: Vertex) returns (s: seq<Vertex>)
      requires Valid()
      ensures Distinct(s) && Elements(s) == Preds(adjacency, v)
    {
      s := Listing(Row(revadjmap, v));
      forall u ensures u in Elements(s) <==> u in adjacency && HasEdge(adjacency, u, v) {
        assert HasEdge(adjacency, u, v) <==> HasEdge(revadjmap, v, u);
      }
    }

    method OutgoingGraphVertices(v: Vertex) returns (s: seq<Vertex>)
      requires Valid()
      ensures Distinct(s) && Elements(s) == Succs(adjacency, v)
    {
      TransposedIsClosed(adjacency, revadjmap);
      s := Listing(Row(adjacency, v));
      forall u ensures u in Elements(s) <==> u in adjacency && HasEdge(adjacency, v, u) {
        assert HasEdge(adjacency, v, u) ==> u in adjacency;
      }
    }

    method IncomingGraphEdges(v: Vertex) returns (s: seq<Edge>)
      requires Valid()
      ensures Elements(s) == EdgesInto(adjacency, v)
    {
      s := [];
      if v !in revadjmap {
        forall u ensures !HasEdge(adjacency, u, v) {
          assert !HasEdge(revadjmap, v, u);
        }
        return;
      }
      var rest := revadjmap[v].Keys;
      while rest != {}
        invariant rest <= revadjmap[v].Keys
        invariant Elements(s) == set u | u in revadjmap[v].Keys - rest :: revadjmap[v][u]
      {
        var u :| u in rest;
        ElementsConcat(s, [revadjmap[v][u]]);
        rest := rest - {u};
        assert (set x | x in revadjmap[v].Keys - rest :: revadjmap[v][x])
            == (set x | x in revadjmap[v].Keys - rest - {u} :: revadjmap[v][x]) + {revadjmap[v][u]};
        s := s + [revadjmap[v][u]];
      }
      forall u ensures HasEdge(adjacency, u, v) <==> u in revadjmap[v].Keys {
        assert HasEdge(adjacency, u, v) <==> HasEdge(revadjmap, v, u);
      }
      forall u | u in revadjmap[v] ensures HasEdge(adjacency, u, v) && adjacency[u][v] == revadjmap[v][u] {
        assert HasEdge(adjacency, u, v) <==> HasEdge(revadjmap, v, u);
      }
      assert Elements(s) == set u | u in revadjmap[v].Keys :: revadjmap[v][u];
      assert forall e | e in EdgesInto(adjacency, v) :: e in Elements(s);
    }

    method OutgoingGraphEdges(v: Vertex) returns (s: seq<Edge>)
      requires Valid()
      ensures Elements(s) == EdgesFrom(adjacency, v)
    {
      s := [];
      if v !in adjacency { return; }
      TransposedIsClosed(adjacency, revadjmap);
      var rest := adjacency[v].Keys;
      while rest != {}
        invariant rest <= adjacency[v].Keys
        invariant Elements(s) == set u | u in adjacency[v].Keys - rest :: adjacency[v][u]
      {
        var u :| u in rest;
        ElementsConcat(s, [adjacency[v][u]]);
        rest := rest - {u};
        assert (set x | x in adjacency[v].Keys - rest :: adjacency[v][x])
            == (set x | x in adjacency[v].Keys - rest - {u} :: adjacency[v][x]) + {adjacency[v][u]};
        s := s + [adjacency[v][u]];
      }
      assert forall u :: HasEdge(adjacency, v, u) <==> u in adjacency[v].Keys;
      assert forall e | e in EdgesFrom(adjacency, v) :: e in Elements(s);
    }

    /** In-degrees read off the mirror index are the numbers of edges a full scan would count. */
    method InDegree() returns (result: map<Vertex, nat>)
      requires Valid()
      ensures result.Keys == adjacency.Keys
      ensures forall v | v in result :: result[v] == |Preds(adjacency, v)|
    {
      result := map k | k in adjacency :: |revadjmap[k]|;
      forall v | v in result ensures result[v] == |Preds(adjacency, v)| {
        forall u ensures u in revadjmap[v].Keys <==> u in adjacency && HasEdge(adjacency, u, v) {
          assert HasEdge(adjacency, u, v) <==> HasEdge(revadjmap, v, u);
        }
        assert revadjmap[v].Keys == set u | u in adjacency && HasEdge(adjacency, u, v);
      }
    }

    method OutDegree() returns (result: map<Vertex, nat>)
      requires Valid()
      ensures result.Keys == adjacency.Keys
      ensures forall v | v in result :: result[v] == |Succs(adjacency, v)|
    {
      TransposedIsClosed(adjacency, revadjmap);
      result := map k | k in adjacency :: |adjacency[k]|;
      forall v | v in result ensures result[v] == |Succs(adjacency, v)| {
        forall u ensures u in adjacency[v].Keys <==> u in adjacency && HasEdge(adjacency, v, u) {
          assert HasEdge(adjacency, v, u) <==> u in adjacency[v];
        }
        assert adjacency[v].Keys == set u | u in adjacency && HasEdge(adjacency, v, u);
      }
    }
  }

  lemma {:induction false} RowSize(k: Vertex, s: set<Vertex>)
    ensures |set v | v in s :: (k, v)| == |s|
    decreases |s|
  {
    if s != {} {
      var v :| v in s;
      RowSize(k, s - {v});
      assert (set x | x in s :: (k, x)) == (set x | x in s - {v} :: (k, x)) + {(k, v)};
    }
  }
}
