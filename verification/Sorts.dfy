/** The two Kahn sorts: any topological order, and the one order that depends on nothing but the labels. */
module Sorts {
  import opened Vertices
  import opened Digraphs
  import opened PointerGraph
  import opened Cycles

  /** Reading a counter map: a missing key counts zero. */
  function Count(m: map<Vertex, int>, v: Vertex): int {
    if v in m then m[v] else 0
  }

  /** The state between two pops: `l` is sorted, `s` holds exactly the other vertices with no edge left, and
      `remaining` counts the edges that do not start in `l`. */
  ghost predicate KahnState(a: Adjacency, remaining: map<Vertex, int>, l: seq<Vertex>, s: seq<Vertex>) {
    Popping(a, remaining, l, {}, s)
  }

  /** The state while the edges out of the last vertex of `l` are removed; its children `rest` are still to do. */
  ghost predicate Popping(a: Adjacency, remaining: map<Vertex, int>, l: seq<Vertex>, rest: set<Vertex>, s: seq<Vertex>) {
    && (rest != {} ==> l != [] && forall n | n in rest :: HasEdge(a, l[|l| - 1], n))
    && Split(a, l, s)
    && Counted(a, remaining, l, rest)
    && FreeOnes(a, l, rest, s)
    && NoneBackwards(a, l)
  }

  ghost predicate Split(a: Adjacency, l: seq<Vertex>, s: seq<Vertex>) {
    && Distinct(l) && Distinct(s) && Elements(l) !! Elements(s)
    && Elements(l) <= a.Keys && Elements(s) <= a.Keys
  }

  ghost predicate Counted(a: Adjacency, remaining: map<Vertex, int>, l: seq<Vertex>, rest: set<Vertex>) {
    forall v | v in a :: Count(remaining, v) == |Preds(a, v) - Elements(l)| + if v in rest then 1 else 0
  }

  ghost predicate FreeOnes(a: Adjacency, l: seq<Vertex>, rest: set<Vertex>, s: seq<Vertex>) {
    forall v | v in a :: v in Elements(l) || v in Elements(s) <==> v !in rest && Preds(a, v) <= Elements(l)
  }

  ghost predicate NoneBackwards(a: Adjacency, l: seq<Vertex>) {
    forall i, j | 0 <= i <= j < |l| :: !HasEdge(a, l[j], l[i])
  }

  lemma NoneLeft(s: set<Vertex>, t: set<Vertex>)
    ensures |s - t| == 0 <==> s <= t
  {
    if s <= t { assert s - t == {}; }
    if |s - t| == 0 {
      assert s <= (s - t) + t;
    }
  }

  lemma KahnStart(a: Adjacency, remaining: map<Vertex, int>, s: seq<Vertex>)
    requires forall v | v in a :: Count(remaining, v) == |Preds(a, v)|
    requires Distinct(s) && Elements(s) == set v | v in a && Count(remaining, v) == 0
    ensures KahnState(a, remaining, [], s)
  {
    forall v | v in a
      ensures Preds(a, v) - Elements<Vertex>([]) == Preds(a, v)
      ensures v in Elements(s) <==> Preds(a, v) <= Elements<Vertex>([])
    {
      assert Preds(a, v) - Elements<Vertex>([]) == Preds(a, v);
      NoneLeft(Preds(a, v), Elements<Vertex>([]));
    }
  }

  lemma KahnPop(a: Adjacency, remaining: map<Vertex, int>, l: seq<Vertex>, s: seq<Vertex>)
    requires Closed(a) && KahnState(a, remaining, l, s) && s != []
    ensures var v := s[|s| - 1];
      v in a && v !in l && Popping(a, remaining, l + [v], a[v].Keys, s[..|s| - 1])
  {
    hide Split, Counted, FreeOnes, NoneBackwards;
    var v, s' := s[|s| - 1], s[..|s| - 1];
    assert s' + [v] == s;
    PopSplit(a, l, s', v);
    PopCounted(a, remaining, l, v);
    PopFreeOnes(a, l, s', v);
    PopNoneBackwards(a, l, s, v);
  }

  lemma PopSplit(a: Adjacency, l: seq<Vertex>, s: seq<Vertex>, v: Vertex)
    requires Split(a, l, s + [v])
    ensures v in a && v !in Elements(l) && v !in Elements(s) && v in Elements(s + [v])
    ensures Split(a, l + [v], s)
  {
    ElementsConcat(l, [v]);
    ElementsConcat(s, [v]);
    var t := s + [v];
    assert t[|s|] == v;
    assert forall i | 0 <= i < |s| :: s[i] == t[i];
  }

  lemma CountedOne(a: Adjacency, l: seq<Vertex>, v: Vertex, w: Vertex)
    requires v in a && v !in Elements(l)
    ensures |Preds(a, w) - Elements(l)|
         == |Preds(a, w) - Elements(l + [v])| + if HasEdge(a, v, w) then 1 else 0
  {
    ElementsConcat(l, [v]);
    if HasEdge(a, v, w) {
      assert Preds(a, w) - Elements(l) == (Preds(a, w) - Elements(l + [v])) + {v};
    } else {
      assert Preds(a, w) - Elements(l) == Preds(a, w) - Elements(l + [v]);
    }
  }

  lemma PopCounted(a: Adjacency, remaining: map<Vertex, int>, l: seq<Vertex>, v: Vertex)
    requires Counted(a, remaining, l, {}) && v in a && v !in Elements(l)
    ensures Counted(a, remaining, l + [v], a[v].Keys)
  {
    hide Preds;
    forall w | w in a
      ensures Count(remaining, w) == |Preds(a, w) - Elements(l + [v])| + if w in a[v].Keys then 1 else 0
    {
      CountedOne(a, l, v, w);
    }
  }

  lemma PopFreeOnes(a: Adjacency, l: seq<Vertex>, s: seq<Vertex>, v: Vertex)
    requires FreeOnes(a, l, {}, s + [v]) && v in a && v !in Elements(l) && v !in Elements(s)
    ensures FreeOnes(a, l + [v], a[v].Keys, s)
  {
    ElementsConcat(l, [v]);
    ElementsConcat(s, [v]);
    forall w | w in a
      ensures w in Elements(l + [v]) || w in Elements(s) <==> w !in a[v].Keys && Preds(a, w) <= Elements(l + [v])
    {
      if HasEdge(a, v, w) {
        assert v in Preds(a, w);
      } else {
        assert Preds(a, w) <= Elements(l + [v]) <==> Preds(a, w) <= Elements(l);
      }
    }
  }

  lemma PopNoneBackwards(a: Adjacency, l: seq<Vertex>, s: seq<Vertex>, v: Vertex)
    requires Split(a, l, s) && FreeOnes(a, l, {}, s) && NoneBackwards(a, l) && v in Elements(s)
    ensures NoneBackwards(a, l + [v])
  {
    var l' := l + [v];
    forall i, j | 0 <= i <= j < |l'| ensures !HasEdge(a, l'[j], l'[i]) {
      if j == |l| {
        assert l'[i] in Elements(l) || l'[i] == v;
        assert v in Preds(a, l'[i]) <==> HasEdge(a, v, l'[i]);
      }
    }
  }

  /** One child: decrement its counter, and append it if that was its last incoming edge. */
  lemma KahnChild(a: Adjacency, remaining: map<Vertex, int>, l: seq<Vertex>, rest: set<Vertex>, s: seq<Vertex>, n: Vertex)
    requires Closed(a) && Popping(a, remaining, l, rest, s) && n in rest
    ensures var r := remaining[n := Count(remaining, n) - 1];
      && (r[n] == 0 <==> Preds(a, n) <= Elements(l))
      && Popping(a, r, l, rest - {n}, if r[n] == 0 then s + [n] else s)
  {
    hide Split, Counted, FreeOnes, NoneBackwards;
    assert HasEdge(a, l[|l| - 1], n) && n in a;
    ChildCounted(a, remaining, l, rest, n);
    ChildFreeOnes(a, l, rest, s, n);
    ChildSplit(a, l, s, n);
  }

  lemma ChildSplit(a: Adjacency, l: seq<Vertex>, s: seq<Vertex>, n: Vertex)
    requires Split(a, l, s) && n in a && n !in Elements(l) && n !in Elements(s)
    ensures Split(a, l, s + [n])
  {
    ElementsConcat(s, [n]);
  }

  lemma ChildCounted(a: Adjacency, remaining: map<Vertex, int>, l: seq<Vertex>, rest: set<Vertex>, n: Vertex)
    requires Counted(a, remaining, l, rest) && n in rest && n in a
    ensures var r := remaining[n := Count(remaining, n) - 1];
      Counted(a, r, l, rest - {n}) && (r[n] == 0 <==> Preds(a, n) <= Elements(l))
  {
    NoneLeft(Preds(a, n), Elements(l));
  }

  lemma ChildFreeOnes(a: Adjacency, l: seq<Vertex>, rest: set<Vertex>, s: seq<Vertex>, n: Vertex)
    requires FreeOnes(a, l, rest, s) && n in rest && n in a
    ensures n !in Elements(l) && n !in Elements(s)
    ensures FreeOnes(a, l, rest - {n}, if Preds(a, n) <= Elements(l) then s + [n] else s)
  {
    ElementsConcat(s, [n]);
  }

  lemma KahnDone(a: Adjacency, remaining: map<Vertex, int>, l: seq<Vertex>)
    requires Closed(a) && KahnState(a, remaining, l, [])
    ensures |l| <= |a|
    ensures |l| == |a| <==> TopologicalOrder(a, l)
    ensures |l| == |a| <==> Acyclic(a)
    ensures |l| != |a| ==> exists c :: c in a && Count(remaining, c) > 0
  {
    DistinctSize(l);
    SubsetSize(Elements(l), a.Keys);
    if |l| == |a| {
      TopologicalOrderIsAcyclic(a, l);
    } else {
      var rest := a.Keys - Elements(l);
      assert rest != {};
      forall v {:trigger HasPredecessorIn(a, rest, v)} | v in rest
        ensures HasPredecessorIn(a, rest, v) && Count(remaining, v) > 0
      {
        NoneLeft(Preds(a, v), Elements(l));
        var u :| u in Preds(a, v) && u !in Elements(l);
        assert u in rest && HasEdge(a, u, v);
      }
      NoSourceMeansCycle(a, rest);
      var c :| c in rest;
      assert HasPredecessorIn(a, rest, c);
    }
  }

  lemma {:induction false} DistinctSize(l: seq<Vertex>)
    requires Distinct(l)
    ensures |Elements(l)| == |l|
  {
    if l != [] {
      var m := l[..|l| - 1];
      DistinctSize(m);
      assert l == m + [l[|l| - 1]];
      ElementsConcat(m, [l[|l| - 1]]);
      assert Elements(l) == Elements(m) + {l[|l| - 1]} && l[|l| - 1] !in Elements(m);
    }
  }

  lemma SubsetSize(s: set<Vertex>, t: set<Vertex>)
    requires s <= t
    ensures |s| <= |t|
    ensures |s| == |t| <==> s == t
  {
    assert t == s + (t - s);
    assert |t| == |s| + |t - s|;
  }

  /** The sources of the pairs in `rest` that end in `v`. */
  ghost function Tails(a: Adjacency, rest: set<(Vertex, Vertex)>, v: Vertex): set<Vertex> {
    set u | u in a && (u, v) in rest
  }

  lemma TailsStep(a: Adjacency, rest: set<(Vertex, Vertex)>, p: (Vertex, Vertex), v: Vertex)
    requires p in rest && rest <= Pairs(a)
    ensures |Preds(a, v) - Tails(a, rest - {p}, v)| == |Preds(a, v) - Tails(a, rest, v)| + if p.1 == v then 1 else 0
  {
    if p.1 == v {
      assert Preds(a, v) - Tails(a, rest - {p}, v) == (Preds(a, v) - Tails(a, rest, v)) + {p.0};
    } else {
      assert Tails(a, rest - {p}, v) == Tails(a, rest, v);
    }
  }

  /** `remaining` counts the edges outside `rest`. */
  ghost predicate Walked(a: Adjacency, remaining: map<Vertex, int>, rest: set<(Vertex, Vertex)>) {
    forall v | v in a :: Count(remaining, v) == |Preds(a, v) - Tails(a, rest, v)|
  }

  lemma WalkedStep(a: Adjacency, remaining: map<Vertex, int>, rest: set<(Vertex, Vertex)>, p: (Vertex, Vertex))
    requires Walked(a, remaining, rest) && p in rest && rest <= Pairs(a)
    ensures Walked(a, remaining[p.1 := Count(remaining, p.1) + 1], rest - {p})
  {
    hide Preds, Tails;
    var r := remaining[p.1 := Count(remaining, p.1) + 1];
    forall v | v in a ensures Count(r, v) == |Preds(a, v) - Tails(a, rest - {p}, v)| {
      TailsStep(a, rest, p, v);
    }
  }

  /** Counts incoming edges by walking all of them; a vertex without any gets no entry. */
  method CountIncoming(g: Graph) returns (remaining: map<Vertex, int>)
    requires g.Valid()
    ensures forall v | v in g.adjacency :: Count(remaining, v) == |Preds(g.adjacency, v)|
  {
    var a := g.adjacency;
    remaining := map[];
    var rest := Pairs(a);
    assert forall v :: Preds(a, v) - Tails(a, rest, v) == {};
    while rest != {}
      invariant rest <= Pairs(a) && Walked(a, remaining, rest)
      decreases |rest|
    {
      hide Walked;
      var p :| p in rest;
      WalkedStep(a, remaining, rest, p);
      remaining := remaining[p.1 := Count(remaining, p.1) + 1];
      rest := rest - {p};
    }
    assert forall v :: Preds(a, v) - Tails(a, rest, v) == Preds(a, v);
  }

  /** Kahn's algorithm: an order exactly when the graph is acyclic, and otherwise a cycle that proves it is not. */
  method TopologicalSort(g: Graph) returns (r: Result<seq<Vertex>>)
    requires g.Valid()
    ensures r.Ok? <==> Acyclic(g.adjacency)
    ensures r.Ok? ==> TopologicalOrder(g.adjacency, r.value)
    ensures r.Err? ==> r.error.NotAcyclic? && SimpleCycle(g.adjacency, r.error.cycle)
  {
    hide Popping, Acyclic, Transposed, SimpleCycle, TopologicalOrder;
    var a := g.adjacency;
    TransposedIsClosed(a, g.revadjmap);
    var remaining := CountIncoming(g);
    var s := Listing(set v | v in a && Count(remaining, v) == 0);
    KahnStart(a, remaining, s);
    var l := [];
    while |s| > 0
      invariant KahnState(a, remaining, l, s) && |l| <= |a|
      decreases |a| - |l|
    {
      KahnPop(a, remaining, l, s);
      PoppedSize(a, remaining, l + [s[|s| - 1]], a[s[|s| - 1]].Keys, s[..|s| - 1]);
      var v := s[|s| - 1];
      s := s[..|s| - 1];
      l := l + [v];
      var children := a[v].Keys;
      while children != {}
        invariant Popping(a, remaining, l, children, s)
      {
        var n :| n in children;
        KahnChild(a, remaining, l, children, s, n);
        remaining := remaining[n := Count(remaining, n) - 1];
        if remaining[n] == 0 { s := s + [n]; }
        children := children - {n};
      }
    }
    KahnDone(a, remaining, l);
    if |l| != |a| {
      var e := NotAcyclicErr(g, remaining);
      return Err(e);
    }
    return Ok(l);
  }

  lemma PoppedSize(a: Adjacency, remaining: map<Vertex, int>, l: seq<Vertex>, rest: set<Vertex>, s: seq<Vertex>)
    requires Popping(a, remaining, l, rest, s)
    ensures |l| <= |a|
  {
    DistinctSize(l);
    SubsetSize(Elements(l), a.Keys);
  }

  /** Neither "programming error" branch can be taken when the sort came up short. */
  method NotAcyclicErr(g: Graph, remaining: map<Vertex, int>) returns (e: GraphError)
    requires g.Valid()
    ensures !Acyclic(g.adjacency) && (exists c :: c in remaining && remaining[c] > 0)
      ==> e.NotAcyclic? && SimpleCycle(g.adjacency, e.cycle)
  {
    var rest := remaining.Keys;
    while rest != {}
      invariant rest <= remaining.Keys
      invariant forall c | c in remaining && remaining[c] > 0 :: c in rest
    {
      var c :| c in rest;
      if remaining[c] > 0 {
        var cycle := FindCycleDfs(g);
        if |cycle| == 0 { return ProgrammingError; }
        return NotAcyclic(cycle);
      }
      rest := rest - {c};
    }
    return ProgrammingError;
  }

  /* ----- the deterministic sort ----- */

  /** The one sorted listing of a set. */
  ghost function SortedSeq(s: set<Vertex>): (l: seq<Vertex>)
    ensures Sorted(l) && Elements(l) == s
  {
    SortedExists(s);
    var l :| Sorted(l) && Elements(l) == s;
    l
  }

  lemma {:induction false} SortedExists(s: set<Vertex>)
    ensures exists l :: Sorted(l) && Elements(l) == s
    decreases |s|
  {
    hide *;
    if s == {} {
      NoneSorted();
    } else {
      var m := LeastExists(s);
      SortedExists(s - {m});
      var l :| Sorted(l) && Elements(l) == s - {m};
      SortedPrepend(s, m, l);
    }
  }

  lemma NoneSorted()
    ensures Elements<Vertex>([]) == {} && Sorted([])
  {
  }

  lemma SortedPrepend(s: set<Vertex>, m: Vertex, l: seq<Vertex>)
    requires m in s && Sorted(l) && Elements(l) == s - {m} && forall x | x in s && x != m :: Less(m, x)
    ensures Sorted([m] + l) && Elements([m] + l) == s
  {
    hide Less;
    ElementsConcat([m], l);
    var t := [m] + l;
    forall i, j | 0 <= i < j < |t| ensures Less(t[i], t[j]) {
      assert t[j] == l[j - 1] && t[j] in Elements(l);
    }
    assert Elements([m]) == {m};
  }

  /** The children that lose their last incoming edge when the last vertex of `l` goes, in the given order. */
  ghost function Ready(a: Adjacency, l: seq<Vertex>, children: seq<Vertex>): seq<Vertex> {
    if children == [] then []
    else (if Preds(a, children[0]) <= Elements(l) then [children[0]] else []) + Ready(a, l, children[1..])
  }

  /** What the pops still to come append to `l`; `n` bounds their number. */
  ghost function KahnOrder(a: Adjacency, l: seq<Vertex>, s: seq<Vertex>, n: nat): seq<Vertex>
    decreases n
  {
    if s == [] || n == 0 then l
    else
      var v := s[|s| - 1];
      var l' := l + [v];
      KahnOrder(a, l', s[..|s| - 1] + Ready(a, l', SortedSeq(Row(a, v))), n - 1)
  }

  ghost function Sources(a: Adjacency): set<Vertex> {
    set v | v in a && Preds(a, v) == {}
  }

  /** The order the deterministic sort computes, as a function of the graph alone. */
  ghost function DeterministicOrder(a: Adjacency): seq<Vertex> {
    KahnOrder(a, [], SortedSeq(Sources(a)), |a|)
  }

  lemma SortedIsSortedSeq(l: seq<Vertex>)
    requires Sorted(l)
    ensures l == SortedSeq(Elements(l))
  {
    SortedUnique(l, SortedSeq(Elements(l)));
  }

  lemma RestSplit(l: seq<Vertex>, i: nat)
    requires i < |l| && Distinct(l)
    ensures l[i] in Elements(l[i..]) && Elements(l[i..]) - {l[i]} == Elements(l[i + 1..])
    ensures l[i..][0] == l[i] && l[i..][1..] == l[i + 1..]
  {
    assert l[i..][0] == l[i];
    assert l[i..] == [l[i]] + l[i + 1..];
    ElementsConcat([l[i]], l[i + 1..]);
  }

  /** Keeps the vertices of a sorted slice that have no incoming edge; the result is sorted too. */
  method SelectSources(a: Adjacency, remaining: map<Vertex, int>, vertices: seq<Vertex>) returns (s: seq<Vertex>)
    requires Sorted(vertices) && Elements(vertices) == a.Keys
    requires forall v | v in a :: Count(remaining, v) == |Preds(a, v)|
    ensures s == SortedSeq(Sources(a)) && Distinct(s)
    ensures Elements(s) == set v | v in a && Count(remaining, v) == 0
  {
    s := [];
    for i := 0 to |vertices|
      invariant Sorted(s) && Elements(s) == set v | v in Elements(vertices[..i]) && Count(remaining, v) == 0
      invariant forall x, j | x in Elements(s) && i <= j < |vertices| :: Less(x, vertices[j])
    {
      var v := vertices[i];
      assert vertices[..i + 1] == vertices[..i] + [v];
      ElementsConcat(vertices[..i], [v]);
      ElementsConcat(s, [v]);
      assert forall k | 0 <= k < |s| :: s[k] in Elements(s);
      if Count(remaining, v) == 0 { s := s + [v]; }
    }
    assert vertices[..|vertices|] == vertices;
    assert Elements(s) == Sources(a);
    SortedIsSortedSeq(s);
    SortedIsDistinct(s);
  }

  lemma KahnOrderEnd(a: Adjacency, l: seq<Vertex>, n: nat)
    ensures KahnOrder(a, l, [], n) == l
  {
  }

  lemma KahnOrderStep(a: Adjacency, l: seq<Vertex>, s: seq<Vertex>, n: nat)
    requires s != [] && n > 0
    ensures var v := s[|s| - 1];
      KahnOrder(a, l, s, n)
      == KahnOrder(a, l + [v], s[..|s| - 1] + Ready(a, l + [v], SortedSeq(Row(a, v))), n - 1)
  {
  }

  /** The same sort made independent of map iteration order by sorting the sources and each vertex's children. */
  method DeterministicTopologicalSort(g: Graph) returns (r: Result<seq<Vertex>>)
    requires g.Valid()
    ensures r.Ok? <==> Acyclic(g.adjacency)
    ensures r.Ok? ==> TopologicalOrder(g.adjacency, r.value) && r.value == DeterministicOrder(g.adjacency)
    ensures r.Err? ==> r.error.NotAcyclic? && SimpleCycle(g.adjacency, r.error.cycle)
  {
    hide Popping, Acyclic, Transposed, SimpleCycle, TopologicalOrder, Sorted, Distinct, KahnOrder;
    var a := g.adjacency;
    TransposedIsClosed(a, g.revadjmap);
    var remaining := CountIncoming(g);
    var vertices := SortVertices(a.Keys);
    var s := SelectSources(a, remaining, vertices);
    KahnStart(a, remaining, s);
    var l := [];
    while |s| > 0
      invariant KahnState(a, remaining, l, s) && |l| <= |a|
      invariant KahnOrder(a, l, s, |a| - |l|) == DeterministicOrder(a)
      decreases |a| - |l|
    {
      KahnPop(a, remaining, l, s);
      PoppedSize(a, remaining, l + [s[|s| - 1]], a[s[|s| - 1]].Keys, s[..|s| - 1]);
      KahnOrderStep(a, l, s, |a| - |l|);
      var v := s[|s| - 1];
      s := s[..|s| - 1];
      l := l + [v];
      var children := SortVertices(a[v].Keys);
      SortedIsSortedSeq(children);
      ghost var s0 := s;
      for i := 0 to |children|
        invariant Popping(a, remaining, l, Elements(children[i..]), s)
        invariant s + Ready(a, l, children[i..]) == s0 + Ready(a, l, children)
      {
        var n := children[i];
        RestSplit(children, i);
        KahnChild(a, remaining, l, Elements(children[i..]), s, n);
        remaining := remaining[n := Count(remaining, n) - 1];
        if remaining[n] == 0 { s := s + [n]; }
      }
      assert Row(a, v) == Elements(children);
      assert s + Ready(a, l, []) == s;
      assert children[|children|..] == [] && Elements(children[|children|..]) == {};
    }
    KahnOrderEnd(a, l, |a| - |l|);
    KahnDone(a, remaining, l);
    if |l| != |a| {
      var e := NotAcyclicErr(g, remaining);
      return Err(e);
    }
    return Ok(l);
  }
}
