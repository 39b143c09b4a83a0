/** The rule that orders runs of Process: a vertex may run only when each of its prerequisites completed later than it
    did itself. */
module Timestamps {
  import opened Vertices
  import opened Digraphs

  type Stamps = map<Vertex, int>

  /** The prerequisites that are not newer than the vertex. */
  ghost function Bad(g: Adjacency, stamps: Stamps, v: Vertex): set<Vertex>
    requires g.Keys <= stamps.Keys && v in stamps
  {
    set u | u in Preds(g, v) && stamps[v] >= stamps[u]
  }

  ghost predicate MayRun(g: Adjacency, stamps: Stamps, v: Vertex)
    requires g.Keys <= stamps.Keys && v in stamps
  {
    Bad(g, stamps, v) == {}
  }

  /* ----- a whole sweep ----- */

  /** The timestamps after the first `n` vertices of `order` completed at the times in `times`. */
  function Swept(stamps: Stamps, order: seq<Vertex>, times: seq<int>, n: nat): (r: Stamps)
    requires n <= |order| == |times|
    ensures stamps.Keys <= r.Keys
  {
    if n == 0 then stamps else Swept(stamps, order, times, n - 1)[order[n - 1] := times[n - 1]]
  }

  lemma {:induction false} SweptAt(stamps: Stamps, order: seq<Vertex>, times: seq<int>, n: nat, v: Vertex)
    requires n <= |order| == |times| && Distinct(order)
    requires v in order ==> v in stamps
    ensures v in order && IndexOf(order, v) < n ==> v in Swept(stamps, order, times, n)
    ensures v in order && IndexOf(order, v) < n ==> Swept(stamps, order, times, n)[v] == times[IndexOf(order, v)]
    ensures v in stamps && (v in order ==> n <= IndexOf(order, v)) ==> Swept(stamps, order, times, n)[v] == stamps[v]
  {
    if n > 0 {
      SweptAt(stamps, order, times, n - 1, v);
      if v in order && IndexOf(order, v) == n - 1 {
        assert order[n - 1] == v;
      } else if v in order {
        assert order[IndexOf(order, v)] != order[n - 1];
      }
    }
  }

  /** When all vertices run in topological order from arbitrary timestamps and each completes, the `n`th is turned back
      exactly if one of its prerequisites was stamped with a time no later than the vertex had before the sweep. */
  lemma SweepTurnsBackIff(g: Adjacency, stamps: Stamps, order: seq<Vertex>, times: seq<int>, n: nat)
    requires Closed(g) && TopologicalOrder(g, order) && |times| == |order| && g.Keys <= stamps.Keys && n < |order|
    ensures order[n] in stamps
    ensures MayRun(g, Swept(stamps, order, times, n), order[n])
       <==> forall u | u in Preds(g, order[n]) && u in order :: times[IndexOf(order, u)] > stamps[order[n]]
  {
    hide Swept, Acyclic;
    var v, now := order[n], Swept(stamps, order, times, n);
    assert v in Elements(order) && v in stamps;
    forall u | u in Preds(g, v)
      ensures u in order && now[v] == stamps[v] && now[u] == times[IndexOf(order, u)]
    {
      ForwardEdges(g, order, u, v);
      assert IndexOf(order, v) == n;
      SweptAt(stamps, order, times, n, u);
      SweptAt(stamps, order, times, n, v);
    }
    assert forall u | u in Preds(g, v) :: u in Bad(g, now, v) <==> times[IndexOf(order, u)] <= stamps[v];
    if !MayRun(g, now, v) {
      var u :| u in Bad(g, now, v);
      assert u in Preds(g, v);
    }
  }

  /** So a clock that moved on since the last completion lets the whole sweep through, and afterwards everything is
      settled: every edge leads from an older to a newer completion if the clock kept moving. */
  lemma SweepNeverTurnsBack(g: Adjacency, stamps: Stamps, order: seq<Vertex>, times: seq<int>)
    requires Closed(g) && TopologicalOrder(g, order) && |times| == |order| && g.Keys <= stamps.Keys
    requires forall v, i | v in stamps && 0 <= i < |times| :: stamps[v] < times[i]
    requires forall i, j | 0 <= i < j < |times| :: times[i] < times[j]
    ensures forall n: nat | n < |order| :: order[n] in stamps && MayRun(g, Swept(stamps, order, times, n), order[n])
    ensures var last := Swept(stamps, order, times, |order|);
      forall u, v | HasEdge(g, u, v) :: u in last && v in last && last[u] < last[v]
  {
    forall n: nat | n < |order|
      ensures order[n] in stamps && MayRun(g, Swept(stamps, order, times, n), order[n])
    {
      SweepTurnsBackIff(g, stamps, order, times, n);
    }
    forall u, v | HasEdge(g, u, v)
      ensures var last := Swept(stamps, order, times, |order|); u in last && v in last && last[u] < last[v]
    {
      ForwardEdges(g, order, u, v);
      SweptAt(stamps, order, times, |order|, u);
      SweptAt(stamps, order, times, |order|, v);
    }
  }

  /* ----- backpokes ----- */

  lemma AcyclicPathIsDistinct(g: Adjacency, p: seq<Vertex>)
    requires Acyclic(g) && IsPath(g, p)
    ensures Distinct(p)
  {
    forall i, j | 0 <= i < j < |p| ensures p[i] != p[j] {
      SubPath(g, p, i, j + 1);
      assert !Cycle(g, p[i..j + 1]);
    }
  }

  /** A chain of refusals: each vertex on it is a reason why the next one may not run. */
  ghost predicate BackpokeChain(g: Adjacency, stamps: Stamps, p: seq<Vertex>)
    requires g.Keys <= stamps.Keys
  {
    && p != [] && (forall x | x in p :: x in g)
    && forall i | 0 <= i < |p| - 1 :: p[i] in Bad(g, stamps, p[i + 1])
  }

  lemma {:induction false} ExtendChain(g: Adjacency, stamps: Stamps, p: seq<Vertex>) returns (q: seq<Vertex>)
    requires Acyclic(g) && g.Keys <= stamps.Keys && BackpokeChain(g, stamps, p)
    ensures BackpokeChain(g, stamps, q) && |q| <= |g| && q[|q| - 1] == p[|p| - 1] && MayRun(g, stamps, q[0])
    decreases |g| - |p|
  {
    assert IsPath(g, p) by {
      assert forall i | 0 <= i < |p| - 1 :: p[i] in Bad(g, stamps, p[i + 1]);
    }
    AcyclicPathIsDistinct(g, p);
    DistinctLength(p, g.Keys);
    if MayRun(g, stamps, p[0]) {
      q := p;
    } else {
      var u :| u in Bad(g, stamps, p[0]);
      var r := [u] + p;
      forall i | 0 <= i < |r| - 1 ensures r[i] in Bad(g, stamps, r[i + 1]) {
        if i > 0 {
          assert r[i] == p[i - 1] && r[i + 1] == p[i - 1 + 1];
        }
      }
      if |p| == |g| {
        AllOnChain(g, stamps, r);
      } else {
        q := ExtendChain(g, stamps, r);
      }
    }
  }

  lemma AllOnChain(g: Adjacency, stamps: Stamps, r: seq<Vertex>)
    requires Acyclic(g) && g.Keys <= stamps.Keys && |r| > |g|
    ensures !BackpokeChain(g, stamps, r)
  {
    if BackpokeChain(g, stamps, r) {
      assert IsPath(g, r);
      AcyclicPathIsDistinct(g, r);
      DistinctLength(r, g.Keys);
    }
  }

  /** Whatever the timestamps, following refusals backwards from any vertex ends, after fewer hops than there are
      vertices, at one that may run. */
  lemma BackpokesReachRunnable(g: Adjacency, stamps: Stamps, v: Vertex) returns (p: seq<Vertex>)
    requires Acyclic(g) && g.Keys <= stamps.Keys && v in g
    ensures BackpokeChain(g, stamps, p) && |p| <= |g| && p[|p| - 1] == v && MayRun(g, stamps, p[0])
  {
    p := ExtendChain(g, stamps, [v]);
  }

  /* ----- pokes ----- */

  /** When `v` completes, a successor that still may not run has a stale prerequisite other than `v`, provided the
      clock is past the successor's own timestamp; otherwise `v` itself is the stale one. */
  lemma SkippedPokeHasAnotherReason(g: Adjacency, stamps: Stamps, v: Vertex, now: int, u: Vertex)
    requires g.Keys <= stamps.Keys && u in g && HasEdge(g, v, u) && u != v
    ensures var after := stamps[v := now];
      && (v in Bad(g, after, u) <==> stamps[u] >= now)
      && (stamps[u] < now && !MayRun(g, after, u) ==> exists w :: w != v && w in Bad(g, after, u) && w in Bad(g, stamps, u))
  {
    var after := stamps[v := now];
    assert v in Preds(g, u);
    if stamps[u] < now && !MayRun(g, after, u) {
      var w :| w in Bad(g, after, u);
      assert w != v && w in Bad(g, stamps, u);
    }
  }
}
