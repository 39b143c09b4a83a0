/** Extracting a cycle from a graph that is not a DAG: a depth first search whose closure state (visited set,
    recursion stack, current path, result) is shared by all its recursive calls. */
module Cycles {
  import opened Vertices
  import opened Digraphs
  import opened PointerGraph

  class CycleSearch {
    const adjacency: Adjacency
    var visited: set<Vertex>
    var stack: set<Vertex>
    var path: seq<Vertex>
    var result: seq<Vertex>
    var found: bool
    ghost var finished: seq<Vertex>  // vertices whose calls have returned, last one first

    constructor (a: Adjacency)
      requires Closed(a)
      ensures Valid() && !found && adjacency == a && path == [] && visited == {} && finished == []
    {
      adjacency := a;
      visited, stack, path, result, found, finished := {}, {}, [], [], false, [];
    }

    /** While nothing is found: the stack is the current path, and the finished vertices are in topological
        order and closed under successors.  Once found: the result is a simple cycle of real edges. */
    ghost predicate Valid()
      reads this
    {
      && Closed(adjacency)
      && visited <= adjacency.Keys
      && (found ==> SimpleCycle(adjacency, result))
      && (!found ==> Searching())
    }

    ghost predicate Searching()
      reads this
    {
      && result == []
      && Distinct(path) && stack == Elements(path)
      && (forall i | 0 <= i < |path| - 1 :: HasEdge(adjacency, path[i], path[i + 1]))
      && visited == stack + Elements(finished) && stack !! Elements(finished)
      && FinishedInOrder(adjacency, finished)
    }

    /** The closure `dfs`.  It returns true exactly when a cycle has been found. */
    method Dfs(v: Vertex) returns (b: bool)
      requires Valid() && v in adjacency
      requires !found ==> v !in visited && (path != [] ==> HasEdge(adjacency, path[|path| - 1], v))
      modifies this
      ensures Valid() && b == found && (old(found) ==> found)
      ensures old(visited) <= visited
      ensures !found ==> path == old(path) && v in finished
      ensures !found ==> Elements(old(finished)) <= Elements(finished)
      decreases adjacency.Keys - visited, 0
    {
      hide Searching, SimpleCycle, Transposed;
      if found { return true; }
      Enter(v);
      var children := SortVertices(Row(adjacency, v));
      var i := 0;
      while i < |children|
        invariant 0 <= i <= |children|
        invariant Valid() && !found && path == old(path) + [v]
        invariant old(visited) + {v} <= visited
        invariant Elements(old(finished)) <= Elements(finished)
        invariant forall k | 0 <= k < i :: children[k] in Elements(finished)
      {
        var n := children[i];
        assert n in Elements(children);
        b := Child(n);
        if b { return; }
        i := i + 1;
      }
      Finish(v, children);
      b := false;
    }

    /** One child of the vertex on top of the path. */
    method Child(n: Vertex) returns (b: bool)
      requires Valid() && !found && path != [] && HasEdge(adjacency, path[|path| - 1], n)
      modifies this
      ensures Valid() && b == found
      ensures old(visited) <= visited
      ensures !found ==> path == old(path) && n in finished
      ensures !found ==> Elements(old(finished)) <= Elements(finished)
      decreases adjacency.Keys - visited, 1
    {
      if n !in visited {
        b := Dfs(n);
      } else if n in stack {
        b := CloseCycle(n);
      } else {
        b := false;
      }
    }

    /** The start of a call: `v` is marked visited and goes onto the stack and the path. */
    method Enter(v: Vertex)
      requires Valid() && !found && v in adjacency && v !in visited
      requires path != [] ==> HasEdge(adjacency, path[|path| - 1], v)
      modifies this`visited, this`stack, this`path
      ensures Valid() && path == old(path) + [v] && visited == old(visited) + {v}
    {
      visited, stack := visited + {v}, stack + {v};
      ElementsConcat(path, [v]);
      assert v !in Elements(path);
      path := path + [v];
    }

    /** A child on the stack: walk the path back to it and close the cycle there. */
    method CloseCycle(n: Vertex) returns (b: bool)
      requires Valid() && !found && path != [] && HasEdge(adjacency, path[|path| - 1], n) && n in stack
      modifies this`result, this`found
      ensures Valid() && b && found
    {
      var idx := |path| - 1;
      while idx >= 0 && path[idx] != n
        invariant -1 <= idx < |path|
        invariant forall k | idx < k < |path| :: path[k] != n
      {
        idx := idx - 1;
      }
      assert n in Elements(path);
      if idx >= 0 {
        ClosePath(adjacency, path, idx, n);
        result := path[idx..] + [n];
        found := true;
        return true;
      }
      b := false;
    }

    /** The end of a call that found nothing: `v` leaves the stack. */
    method Finish(v: Vertex, children: seq<Vertex>)
      requires Valid() && !found && path != [] && path[|path| - 1] == v && v in adjacency
      requires Elements(children) == Row(adjacency, v)
      requires forall k | 0 <= k < |children| :: children[k] in Elements(finished)
      modifies this`stack, this`path, this`finished
      ensures Valid() && path == old(path)[..|old(path)| - 1] && v in finished
      ensures Elements(old(finished)) <= Elements(finished)
    {
      ghost var p, f := path, finished;
      assert v in stack by { assert path[|path| - 1] == v; }
      assert v !in Elements(f);
      forall w | HasEdge(adjacency, v, w) ensures w in f {
        assert w in Elements(children);
      }
      stack := stack - {v};
      path := path[..|path| - 1];
      finished := [v] + finished;
      ElementsConcat(p[..|p| - 1], [v]);
      assert p[..|p| - 1] + [v] == p;
      ElementsConcat([v], f);
      FinishOneMore(adjacency, f, v);
    }
  }

  /** Distinct, closed under successors, and with no edge pointing backwards. */
  ghost predicate FinishedInOrder(a: Adjacency, f: seq<Vertex>) {
    && Distinct(f)
    && (forall u, w | u in f && HasEdge(a, u, w) :: w in f)
    && forall i, j | 0 <= i <= j < |f| :: !HasEdge(a, f[j], f[i])
  }

  lemma FinishOneMore(a: Adjacency, f: seq<Vertex>, v: Vertex)
    requires FinishedInOrder(a, f) && v !in f
    requires forall w | HasEdge(a, v, w) :: w in f
    ensures FinishedInOrder(a, [v] + f)
  {
    var g := [v] + f;
    forall i, j | 0 <= i <= j < |g| ensures !HasEdge(a, g[j], g[i]) {
      if i > 0 { assert !HasEdge(a, f[j - 1], f[i - 1]); }
    }
  }

  /** Following the path from where it met `n` and then the edge back to `n` is a simple cycle. */
  lemma ClosePath(a: Adjacency, path: seq<Vertex>, idx: nat, n: Vertex)
    requires idx < |path| && path[idx] == n && Distinct(path)
    requires forall i | 0 <= i < |path| - 1 :: HasEdge(a, path[i], path[i + 1])
    requires HasEdge(a, path[|path| - 1], n)
    ensures SimpleCycle(a, path[idx..] + [n])
  {
    var c := path[idx..] + [n];
    forall i | 0 <= i < |c| - 1 ensures HasEdge(a, c[i], c[i + 1]) {
      assert c[i] == path[idx + i];
      if i < |c| - 2 { assert c[i + 1] == path[idx + i + 1]; }
    }
    assert c[..|c| - 1] == path[idx..];
  }

  /** On any graph with a cycle, a simple cycle of real edges; on an acyclic one, nothing. */
  method FindCycleDfs(g: Graph) returns (cycle: seq<Vertex>)
    requires g.Valid()
    ensures cycle == [] <==> Acyclic(g.adjacency)
    ensures cycle != [] ==> SimpleCycle(g.adjacency, cycle)
  {
    var a := g.adjacency;
    TransposedIsClosed(a, g.revadjmap);
    var search := new CycleSearch(a);
    var vertices := SortVertices(a.Keys);
    var i := 0;
    while i < |vertices|
      invariant 0 <= i <= |vertices| && search.Valid() && search.adjacency == a && fresh(search)
      invariant !search.found ==> search.path == [] && Elements(vertices[..i]) <= Elements(search.finished)
    {
      var v := vertices[i];
      assert v in Elements(vertices);
      assert vertices[..i + 1] == vertices[..i] + [v];
      ElementsConcat(vertices[..i], [v]);
      if v !in search.visited {
        var hit := search.Dfs(v);
        if hit { break; }
      }
      i := i + 1;
    }
    cycle := search.result;
    if search.found {
      assert Cycle(a, cycle);
    } else {
      var l := search.finished;
      forall v | v in a ensures v in Elements(l) {
        assert v in Elements(vertices) && vertices[..i] == vertices;
      }
      assert Elements(l) == a.Keys;
      TopologicalOrderIsAcyclic(a, l);
    }
  }
}
