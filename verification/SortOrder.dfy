/** Which of the topological orders the deterministic sort picks: it goes on with the vertex that became free last. */
module SortOrder {
  import opened Vertices
  import opened Digraphs
  import opened PointerGraph
  import opened Sorts

  /** Once `l` is listed, `v` has no incoming edge left. */
  ghost predicate Free(a: Adjacency, l: seq<Vertex>, v: Vertex) {
    Preds(a, v) <= Elements(l)
  }

  /** How many vertices were listed when `v` became free. */
  ghost function FreeSince(a: Adjacency, l: seq<Vertex>, v: Vertex): (n: nat)
    requires Free(a, l, v)
    ensures n <= |l|
    decreases |l|
  {
    if l != [] && Free(a, l[..|l| - 1], v) then FreeSince(a, l[..|l| - 1], v) else |l|
  }

  /** `x` is to wait for `y`: `y` became free later, or at once with it and sorts after it. */
  ghost predicate YieldsTo(a: Adjacency, l: seq<Vertex>, x: Vertex, y: Vertex)
    requires Free(a, l, x) && Free(a, l, y)
  {
    FreeSince(a, l, x) < FreeSince(a, l, y) || (FreeSince(a, l, x) == FreeSince(a, l, y) && Less(x, y))
  }

  /** From position `from` on, every free vertex that is listed later yields to the one that is listed. */
  ghost predicate LatestFirstFrom(a: Adjacency, r: seq<Vertex>, from: nat) {
    forall k, j | from <= k < j < |r| && Free(a, r[..k], r[j]) :: Free(a, r[..k], r[k]) && YieldsTo(a, r[..k], r[j], r[k])
  }

  ghost predicate LatestFirst(a: Adjacency, r: seq<Vertex>) {
    LatestFirstFrom(a, r, 0)
  }

  /* ----- the stack ----- */

  /** The stack `s` holds the free vertices that are not listed yet, each below those that it yields to. */
  ghost predicate Stacked(a: Adjacency, l: seq<Vertex>, s: seq<Vertex>) {
    && Distinct(l) && (forall x | x in l :: x in a && Free(a, l, x))
    && (forall x :: x in s <==> x in a && x !in l && Free(a, l, x))
    && forall i, j | 0 <= i < j < |s| :: YieldsTo(a, l, s[i], s[j])
  }

  lemma StillFree(a: Adjacency, l: seq<Vertex>, v: Vertex, x: Vertex)
    requires Free(a, l, x)
    ensures Free(a, l + [v], x) && FreeSince(a, l + [v], x) == FreeSince(a, l, x)
  {
    assert (l + [v])[..|l|] == l;
    ElementsConcat(l, [v]);
  }

  lemma NewlyFree(a: Adjacency, l: seq<Vertex>, v: Vertex, x: Vertex)
    requires Free(a, l + [v], x) && !Free(a, l, x)
    ensures FreeSince(a, l + [v], x) == |l| + 1 && HasEdge(a, v, x)
  {
    assert (l + [v])[..|l|] == l;
    ElementsConcat(l, [v]);
    var p :| p in Preds(a, x) && p !in Elements(l);
  }

  lemma {:induction false} ReadyIsSorted(a: Adjacency, l: seq<Vertex>, children: seq<Vertex>)
    requires Sorted(children)
    ensures Sorted(Ready(a, l, children))
    ensures forall x :: x in Ready(a, l, children) <==> x in children && Free(a, l, x)
  {
    hide Less;
    if children != [] {
      ReadyIsSorted(a, l, children[1..]);
      var rest := Ready(a, l, children[1..]);
      assert children == [children[0]] + children[1..];
      forall x | x in rest ensures Less(children[0], x) {
        assert x in children[1..];
        var i :| 0 <= i < |children| - 1 && children[1..][i] == x;
        assert children[i + 1] == x;
      }
    }
  }

  /** The listed vertex is the top of the stack, so every other free one yields to it. */
  lemma TopIsLatest(a: Adjacency, l: seq<Vertex>, s: seq<Vertex>, x: Vertex)
    requires Stacked(a, l, s) && s != [] && x in a && x !in l && Free(a, l, x) && x != s[|s| - 1]
    ensures Free(a, l, s[|s| - 1]) && YieldsTo(a, l, x, s[|s| - 1])
  {
    hide YieldsTo;
    assert x in s && s[|s| - 1] in s;
    var i :| 0 <= i < |s| && s[i] == x;
  }

  lemma PoppedStack(a: Adjacency, l: seq<Vertex>, s: seq<Vertex>)
    requires Closed(a) && Stacked(a, l, s) && s != []
    ensures var v := s[|s| - 1]; Stacked(a, l + [v], s[..|s| - 1] + Ready(a, l + [v], SortedSeq(Row(a, v))))
  {
    hide FreeSince, Closed;
    var v := s[|s| - 1];
    var l', news := l + [v], Ready(a, l + [v], SortedSeq(Row(a, v)));
    var s' := s[..|s| - 1] + news;
    assert v in s;
    ReadyIsSorted(a, l', SortedSeq(Row(a, v)));
    forall x | Free(a, l, x) ensures Free(a, l', x) {
      StillFree(a, l, v, x);
    }
    ListGrows(a, l, v);
    StackHolds(a, l, s, news);
    StackOrder(a, l, s, news);
  }

  lemma ListGrows(a: Adjacency, l: seq<Vertex>, v: Vertex)
    requires Distinct(l) && v !in l
    ensures Distinct(l + [v])
  {
  }

  /** A vertex yields to no vertex that it does not precede in the stack, so the stack has no vertex twice. */
  lemma StackIsDistinct(a: Adjacency, l: seq<Vertex>, s: seq<Vertex>, i: nat)
    requires Stacked(a, l, s) && i < |s| - 1
    ensures s[i] != s[|s| - 1]
  {
    assert s[i] in s && s[|s| - 1] in s;
    assert YieldsTo(a, l, s[i], s[|s| - 1]);
    LessTrichotomy(s[i], s[|s| - 1]);
  }

  lemma StackHolds(a: Adjacency, l: seq<Vertex>, s: seq<Vertex>, news: seq<Vertex>)
    requires Closed(a) && Stacked(a, l, s) && s != []
    requires forall x :: x in news <==> x in SortedSeq(Row(a, s[|s| - 1])) && Free(a, l + [s[|s| - 1]], x)
    ensures forall x :: x in s[..|s| - 1] + news <==> x in a && x !in l + [s[|s| - 1]] && Free(a, l + [s[|s| - 1]], x)
  {
    hide YieldsTo, FreeSince, SortedSeq;
    var v := s[|s| - 1];
    assert v in s;
    forall x ensures x in s[..|s| - 1] + news <==> x in a && x !in l + [v] && Free(a, l + [v], x) {
      assert x in SortedSeq(Row(a, v)) <==> x in Elements(SortedSeq(Row(a, v)));
      OnStack(a, l, s, x);
      if Free(a, l, x) {
        StillFree(a, l, v, x);
        ChildIsNotFree(a, l, v, x);
      } else if Free(a, l + [v], x) {
        NewlyFree(a, l, v, x);
      }
    }
  }

  lemma ChildIsNotFree(a: Adjacency, l: seq<Vertex>, v: Vertex, x: Vertex)
    requires Free(a, l, x) && v !in l && v in a
    ensures !HasEdge(a, v, x)
  {
    assert HasEdge(a, v, x) <==> v in Preds(a, x);
  }

  lemma OnStack(a: Adjacency, l: seq<Vertex>, s: seq<Vertex>, x: Vertex)
    requires Stacked(a, l, s) && s != []
    ensures x in s[..|s| - 1] <==> x in a && x !in l && Free(a, l, x) && x != s[|s| - 1]
  {
    hide YieldsTo;
    if x in s[..|s| - 1] {
      var i :| 0 <= i < |s| - 1 && s[i] == x;
      StackIsDistinct(a, l, s, i);
      assert s[i] in s;
    }
    assert s == s[..|s| - 1] + [s[|s| - 1]];
  }

  lemma StackOrder(a: Adjacency, l: seq<Vertex>, s: seq<Vertex>, news: seq<Vertex>)
    requires Stacked(a, l, s) && s != [] && Sorted(news)
    requires forall x | x in news :: x in SortedSeq(Row(a, s[|s| - 1])) && Free(a, l + [s[|s| - 1]], x)
    ensures var s', l' := s[..|s| - 1] + news, l + [s[|s| - 1]];
      forall i, j | 0 <= i < j < |s'| :: Free(a, l', s'[i]) && Free(a, l', s'[j]) && YieldsTo(a, l', s'[i], s'[j])
  {
    hide FreeSince, Less, SortedSeq;
    var v := s[|s| - 1];
    var s', l', m := s[..|s| - 1] + news, l + [v], |s| - 1;
    assert v in s;
    forall i | 0 <= i < m
      ensures Free(a, l, s[i]) && Free(a, l', s'[i]) && FreeSince(a, l', s'[i]) == FreeSince(a, l, s[i])
    {
      assert s[i] in s;
      StillFree(a, l, v, s[i]);
    }
    forall i | m <= i < |s'| ensures Free(a, l', s'[i]) && FreeSince(a, l', s'[i]) == |l| + 1 {
      assert s'[i] == news[i - m] && s'[i] in news;
      FreshIsNew(a, l, v, s'[i]);
    }
  }

  lemma FreshIsNew(a: Adjacency, l: seq<Vertex>, v: Vertex, x: Vertex)
    requires v !in l && v in a && x in SortedSeq(Row(a, v)) && Free(a, l + [v], x)
    ensures FreeSince(a, l + [v], x) == |l| + 1
  {
    hide SortedSeq;
    assert x in Elements(SortedSeq(Row(a, v)));
    if Free(a, l, x) {
      ChildIsNotFree(a, l, v, x);
    } else {
      NewlyFree(a, l, v, x);
    }
  }

  lemma {:induction false} KahnIsLatestFirst(a: Adjacency, l: seq<Vertex>, s: seq<Vertex>, n: nat)
    requires Closed(a) && Stacked(a, l, s)
    ensures var r := KahnOrder(a, l, s, n);
      l <= r && Distinct(r) && (forall x | x in r :: x in a) && LatestFirstFrom(a, r, |l|)
    decreases n
  {
    hide Stacked, Closed, YieldsTo, Free, Ready, SortedSeq;
    var r := KahnOrder(a, l, s, n);
    if s == [] || n == 0 {
      ListIsKnown(a, l, s);
    } else {
      var v := s[|s| - 1];
      PoppedStack(a, l, s);
      KahnOrderStep(a, l, s, n);
      KahnIsLatestFirst(a, l + [v], s[..|s| - 1] + Ready(a, l + [v], SortedSeq(Row(a, v))), n - 1);
      OneStepFurther(a, l, s, r);
    }
  }

  lemma ListIsKnown(a: Adjacency, l: seq<Vertex>, s: seq<Vertex>)
    requires Stacked(a, l, s)
    ensures Distinct(l) && forall x | x in l :: x in a
  {
    hide YieldsTo, Free;
  }

  lemma OneStepFurther(a: Adjacency, l: seq<Vertex>, s: seq<Vertex>, r: seq<Vertex>)
    requires Stacked(a, l, s) && s != [] && l + [s[|s| - 1]] <= r && Distinct(r) && (forall x | x in r :: x in a)
    requires LatestFirstFrom(a, r, |l| + 1)
    ensures LatestFirstFrom(a, r, |l|)
  {
    hide Stacked, YieldsTo, Free;
    var v := s[|s| - 1];
    assert r[..|l|] == l && r[|l|] == v;
    forall j | |l| < j < |r| && Free(a, l, r[j]) ensures Free(a, l, v) && YieldsTo(a, l, r[j], v) {
      assert r[j] in r && r[j] != v;
      assert r[j] !in l by { assert forall i | 0 <= i < |l| :: l[i] == r[i]; }
      TopIsLatest(a, l, s, r[j]);
    }
  }

  lemma StartsStacked(a: Adjacency)
    ensures Stacked(a, [], SortedSeq(Sources(a)))
  {
    var s := SortedSeq(Sources(a));
    assert forall x :: x in s <==> x in Elements(s);
    forall x ensures Free(a, [], x) <==> Preds(a, x) == {} {
    }
  }

  /** The deterministic sort lists, of all vertices that are free, the one that became so last; of those that did so at once,
      the last by string and address. */
  lemma DeterministicIsLatestFirst(a: Adjacency)
    requires Closed(a)
    ensures LatestFirst(a, DeterministicOrder(a))
  {
    hide KahnOrder, Stacked, Closed, LatestFirstFrom;
    StartsStacked(a);
    KahnIsLatestFirst(a, [], SortedSeq(Sources(a)), |a|);
  }

  /* ----- there is only one such order ----- */

  lemma PrefixIsFree(a: Adjacency, r: seq<Vertex>, k: nat)
    requires Closed(a) && TopologicalOrder(a, r) && k < |r|
    ensures Free(a, r[..k], r[k]) && r[k] in a && r[k] !in r[..k]
  {
    assert r[k] in Elements(r);
    forall p | p in Preds(a, r[k]) ensures p in Elements(r[..k]) {
      ForwardEdges(a, r, p, r[k]);
      assert r[..k][IndexOf(r, p)] == p;
    }
  }

  lemma {:induction false} SamePrefix(a: Adjacency, r: seq<Vertex>, q: seq<Vertex>, k: nat)
    requires Closed(a) && TopologicalOrder(a, r) && TopologicalOrder(a, q) && LatestFirst(a, r) && LatestFirst(a, q)
    requires k <= |r| == |q|
    ensures r[..k] == q[..k]
  {
    hide TopologicalOrder, Closed, LatestFirst, Free;
    if k > 0 {
      SamePrefix(a, r, q, k - 1);
      PrefixIsFree(a, r, k - 1);
      PrefixIsFree(a, q, k - 1);
      if r[k - 1] != q[k - 1] {
        NextYields(a, r, q, k - 1);
        NextYields(a, q, r, k - 1);
        LessTrichotomy(r[k - 1], q[k - 1]);
      }
      assert r[..k] == r[..k - 1] + [r[k - 1]] && q[..k] == q[..k - 1] + [q[k - 1]];
    }
  }

  lemma NextYields(a: Adjacency, r: seq<Vertex>, q: seq<Vertex>, k: nat)
    requires TopologicalOrder(a, q) && LatestFirst(a, q) && k < |r| == |q| && r[..k] == q[..k] && r[k] != q[k]
    requires r[k] in a && r[k] !in r[..k] && Free(a, q[..k], r[k]) && Free(a, q[..k], q[k])
    ensures YieldsTo(a, q[..k], r[k], q[k])
  {
    hide YieldsTo, Free;
    assert r[k] in Elements(q);
    var j :| 0 <= j < |q| && q[j] == r[k];
    assert forall i | 0 <= i < k :: q[..k][i] == q[i];
  }

  /** At most one topological order is like that, so the result is determined by the graph, the strings and the addresses. */
  lemma LatestFirstIsUnique(a: Adjacency, r: seq<Vertex>, q: seq<Vertex>)
    requires Closed(a) && TopologicalOrder(a, r) && TopologicalOrder(a, q) && LatestFirst(a, r) && LatestFirst(a, q)
    ensures r == q
  {
    hide Closed, LatestFirst;
    DistinctSize(r);
    DistinctSize(q);
    SamePrefix(a, r, q, |r|);
    assert r[..|r|] == r && q[..|r|] == q;
  }
}
