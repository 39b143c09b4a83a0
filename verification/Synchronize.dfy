/** GraphSync: morph the running graph into a new one, leaving equal vertices and edges in place. */
module Synchronize {
  import opened Vertices
  import opened Digraphs
  import opened PointerGraph

  /** A comparison answers yes or no, or fails. */
  datatype Cmp = Same | Different | Failed

  type VertexCmp = (Vertex, Vertex) -> Cmp
  type EdgeCmp = (Edge, Edge) -> Cmp

  /** One run of a user hook. */
  datatype Call = Remove(v: Vertex) | Add(v: Vertex)

  /** Whether a hook run succeeds; it may depend on everything the hooks did before. */
  type Hook = (seq<Call>, Call) -> bool

  datatype SyncError = VertexCmpFailed | RemoveFailed | AddFailed | EdgeCmpFailed | MissingVertex

  /** The comparison used when none is given: equal strings, and an empty string cannot be compared. */
  function StrVertexCmp(v1: Vertex, v2: Vertex): Cmp {
    if v1.name == "" || v2.name == "" then Failed else if v1.name == v2.name then Same else Different
  }

  function StrEdgeCmp(e1: Edge, e2: Edge): Cmp {
    if e1.name == "" || e2.name == "" then Failed else if e1.name == e2.name then Same else Different
  }

  /* ----- matching vertices ----- */

  /** `w` of the old graph may stand for `v` of the new one; only equal strings are ever compared. */
  predicate Candidate(before: Adjacency, vcmp: VertexCmp, w: Vertex, v: Vertex) {
    w in before && w.name == v.name && vcmp(w, v) == Same
  }

  ghost predicate Unmatched(before: Adjacency, vcmp: VertexCmp, v: Vertex) {
    forall w | w in before && w.name == v.name :: vcmp(w, v) == Different
  }

  /** What the matching loop decides: some candidate for each vertex that has one, itself for the others. */
  ghost predicate Matches(before: Adjacency, after: Adjacency, vcmp: VertexCmp, lookup: map<Vertex, Vertex>) {
    && lookup.Keys == after.Keys
    && forall v | v in lookup :: Candidate(before, vcmp, lookup[v], v) || (lookup[v] == v && Unmatched(before, vcmp, v))
  }

  ghost predicate Injective(f: map<Vertex, Vertex>) {
    forall u, v | u in f && v in f && f[u] == f[v] :: u == v
  }

  ghost function Additions(before: Adjacency, after: Adjacency, vcmp: VertexCmp): set<Vertex> {
    set v | v in after && Unmatched(before, vcmp, v)
  }

  ghost function Removals(before: Adjacency, lookup: map<Vertex, Vertex>): set<Vertex> {
    before.Keys - lookup.Values
  }

  /* ----- reconciling edges ----- */

  /** What edge reconciliation works from: the two graphs, where each new vertex went, and the edge comparison. */
  datatype Plan = Plan(before: Adjacency, after: Adjacency, lookup: map<Vertex, Vertex>, ecmp: EdgeCmp) {

    ghost predicate LandsAt(p: (Vertex, Vertex), x: Vertex, y: Vertex) {
      p.0 in lookup && p.1 in lookup && lookup[p.0] == x && lookup[p.1] == y
    }

    /** `(x, y)` is where some pair in `done` goes. */
    ghost predicate Lands(done: set<(Vertex, Vertex)>, x: Vertex, y: Vertex) {
      exists p :: p in done && LandsAt(p, x, y)
    }

    /** An edge of the old graph between two vertices that stay. */
    ghost predicate Stays(x: Vertex, y: Vertex) {
      x in lookup.Values && y in lookup.Values && HasEdge(before, x, y)
    }

    /** The old graph cut down to the vertices that stay, with the new ones added. */
    ghost predicate Swapped(cur: Adjacency) {
      && cur.Keys == lookup.Values
      && (forall x, y :: HasEdge(cur, x, y) <==> Stays(x, y))
      && (forall x, y | HasEdge(cur, x, y) && Stays(x, y) :: cur[x][y] == before[x][y])
    }

    /** `e` may label the pair where `p` lands: the new edge, or an old one that compares equal to it. */
    ghost predicate Accepts(p: (Vertex, Vertex), x: Vertex, y: Vertex, e: Edge) {
      && HasEdge(after, p.0, p.1) && LandsAt(p, x, y)
      && (e == after[p.0][p.1] || (Stays(x, y) && e == before[x][y] && ecmp(e, after[p.0][p.1]) == Same))
    }

    ghost predicate AcceptedAt(done: set<(Vertex, Vertex)>, x: Vertex, y: Vertex, e: Edge) {
      exists p :: p in done && Accepts(p, x, y, e)
    }

    /** `e` is the edge object that ends up where `p` lands if nothing else lands there: the old object when there
        is one and it compares equal, and the new one otherwise. */
    ghost predicate Chooses(p: (Vertex, Vertex), e: Edge) {
      && HasEdge(after, p.0, p.1) && p.0 in lookup && p.1 in lookup
      && var x, y := lookup[p.0], lookup[p.1];
        e == if HasEdge(before, x, y) && ecmp(before[x][y], after[p.0][p.1]) == Same then before[x][y] else after[p.0][p.1]
    }

    /** The working copy `cur` after the pairs in `done` were reconciled, with `keep` the edges marked as saved. */
    ghost predicate Reconciled(done: set<(Vertex, Vertex)>, cur: Adjacency, keep: set<Edge>) {
      && cur.Keys == lookup.Values
      && Placed(done, cur)
      && Marked(done, cur, keep)
      && (Injective(lookup) ==> Exact(done, cur, keep))
    }

    ghost predicate Placed(done: set<(Vertex, Vertex)>, cur: Adjacency) {
      && (forall x, y :: HasEdge(cur, x, y) <==> Stays(x, y) || Lands(done, x, y))
      && (forall x, y | HasEdge(cur, x, y) && !Lands(done, x, y) && Stays(x, y) :: cur[x][y] == before[x][y])
    }

    ghost predicate Marked(done: set<(Vertex, Vertex)>, cur: Adjacency, keep: set<Edge>) {
      && (forall x, y | Lands(done, x, y) ::
            HasEdge(cur, x, y) && cur[x][y] in keep && AcceptedAt(done, x, y, cur[x][y]))
      && (forall e | e in keep :: exists x, y :: AcceptedAt(done, x, y, e))
    }

    ghost predicate Exact(done: set<(Vertex, Vertex)>, cur: Adjacency, keep: set<Edge>) {
      && (forall p, x, y | p in done && LandsAt(p, x, y) :: HasEdge(cur, x, y) && Chooses(p, cur[x][y]))
      && (forall e | e in keep :: exists p :: p in done && Chooses(p, e))
    }

    /** What the sync leaves behind: the reconciled copy without the edges whose object was not saved. */
    ghost predicate Synced(cur: Adjacency, keep: set<Edge>, final: Adjacency) {
      Reconciled(Pairs(after), cur, keep) && final == Pruned(cur, keep)
    }

    /** The edge to store for `p`, given what is at its landing place now. */
    ghost predicate Stores(cur: Adjacency, p: (Vertex, Vertex), edge: Edge) {
      && HasEdge(after, p.0, p.1) && p.0 in lookup && p.1 in lookup
      && var x, y := lookup[p.0], lookup[p.1];
        edge == if HasEdge(cur, x, y) && ecmp(cur[x][y], after[p.0][p.1]) == Same then cur[x][y] else after[p.0][p.1]
    }
  }

  function Pruned(a: Adjacency, keep: set<Edge>): Adjacency {
    map u | u in a :: map v | v in a[u] && a[u][v] in keep :: a[u][v]
  }

  /* ----- the order of the hooks ----- */

  function Removes(l: seq<Vertex>): seq<Call> {
    seq(|l|, i requires 0 <= i < |l| => Remove(l[i]))
  }

  function Adds(l: seq<Vertex>): seq<Call> {
    seq(|l|, i requires 0 <= i < |l| => Add(l[i]))
  }

  /** Every hook in `calls` succeeded except possibly the last. */
  ghost predicate AllSucceed(hook: Hook, calls: seq<Call>) {
    forall i | 0 <= i < |calls| :: hook(calls[..i], calls[i])
  }

  /** `calls` follows, as far as it goes, some order of one remove for each vertex in `dels` and then one add for
      each in `adds`. */
  ghost predicate FollowsOrder(calls: seq<Call>, dels: set<Vertex>, adds: set<Vertex>) {
    exists d, a :: Distinct(d) && Distinct(a) && Elements(d) == dels && Elements(a) == adds && calls <= Removes(d) + Adds(a)
  }

  /** The calls up to and including one that failed. */
  ghost predicate FailsAtLast(hook: Hook, calls: seq<Call>) {
    calls != [] && AllSucceed(hook, calls[..|calls| - 1]) && !hook(calls[..|calls| - 1], calls[|calls| - 1])
  }

  /* ----- the code ----- */

  /** Finds for each new vertex an old one that compares equal; the first that does, in no fixed order. */
  method MatchVertices(before: Adjacency, after: Adjacency, vcmp: VertexCmp)
    returns (ok: bool, lookup: map<Vertex, Vertex>, adds: set<Vertex>)
    ensures ok ==> Matches(before, after, vcmp, lookup) && adds == Additions(before, after, vcmp)
    ensures !ok ==> exists w, v :: w in before && v in after && w.name == v.name && vcmp(w, v) == Failed
  {
    lookup, adds := map[], {};
    var rest := after.Keys;
    while rest != {}
      invariant rest <= after.Keys && lookup.Keys == after.Keys - rest
      invariant forall v | v in lookup ::
          Candidate(before, vcmp, lookup[v], v) || (lookup[v] == v && Unmatched(before, vcmp, v))
      invariant adds == set v | v in lookup && Unmatched(before, vcmp, v)
    {
      var v :| v in rest;
      var vertex := None;
      var candidates := set w | w in before && w.name == v.name;
      while candidates != {} && vertex == None
        invariant candidates <= set w | w in before && w.name == v.name
        invariant vertex == None ==>
            forall w | w in before && w.name == v.name && w !in candidates :: vcmp(w, v) == Different
        invariant vertex.Some? ==> Candidate(before, vcmp, vertex.value, v)
        decreases |candidates|
      {
        var w :| w in candidates;
        candidates := candidates - {w};
        match vcmp(w, v)
        case Failed => return false, lookup, adds;
        case Same => vertex := Some(w);
        case Different =>
      }
      if vertex == None {
        adds := adds + {v};
        lookup := lookup[v := v];
      } else {
        lookup := lookup[v := vertex.value];
      }
      rest := rest - {v};
    }
    ok := true;
  }

  /** Runs the remove hook on every vertex that goes and then the add hook on every vertex that comes. */
  method RunHooks(dels: seq<Vertex>, adds: seq<Vertex>, hook: Hook) returns (err: Option<SyncError>, calls: seq<Call>)
    requires Distinct(dels) && Distinct(adds)
    ensures calls <= Removes(dels) + Adds(adds)
    ensures err == None ==> AllSucceed(hook, calls) && calls == Removes(dels) + Adds(adds)
    ensures err.Some? ==> FailsAtLast(hook, calls) && err.value == if calls[|calls| - 1].Remove? then RemoveFailed else AddFailed
  {
    calls := [];
    for i := 0 to |dels|
      invariant calls == Removes(dels[..i]) && AllSucceed(hook, calls)
    {
      var ok := hook(calls, Remove(dels[i]));
      ghost var before := calls;
      calls := calls + [Remove(dels[i])];
      assert calls[..|calls| - 1] == before;
      assert calls == Removes(dels[..i + 1]);
      if !ok { return Some(RemoveFailed), calls; }
      AllSucceedOneMore(hook, before, Remove(dels[i]));
    }
    assert dels[..|dels|] == dels;
    for i := 0 to |adds|
      invariant calls == Removes(dels) + Adds(adds[..i]) && AllSucceed(hook, calls)
    {
      var ok := hook(calls, Add(adds[i]));
      ghost var before := calls;
      calls := calls + [Add(adds[i])];
      assert calls[..|calls| - 1] == before;
      assert calls == Removes(dels) + Adds(adds[..i + 1]);
      if !ok { return Some(AddFailed), calls; }
      AllSucceedOneMore(hook, before, Add(adds[i]));
    }
    assert adds[..|adds|] == adds;
    err := None;
  }

  lemma AllSucceedOneMore(hook: Hook, calls: seq<Call>, c: Call)
    requires AllSucceed(hook, calls) && hook(calls, c)
    ensures AllSucceed(hook, calls + [c])
  {
    var d := calls + [c];
    forall i | 0 <= i < |d| ensures hook(d[..i], d[i]) {
      assert d[..i] == calls[..i];
      if i == |calls| { assert calls[..i] == calls; }
    }
  }

  ghost function EdgeObjects(a: Adjacency): set<Edge> {
    set p | p in Pairs(a) :: a[p.0][p.1]
  }

  /** Some edge of the new graph cannot be compared with an edge of either graph. */
  ghost predicate SomeEdgeCmpFails(before: Adjacency, after: Adjacency, ecmp: EdgeCmp) {
    exists e1, e2 :: e1 in EdgeObjects(before) + EdgeObjects(after) && e2 in EdgeObjects(after) && ecmp(e1, e2) == Failed
  }

  lemma CannotCompare(plan: Plan, done: set<(Vertex, Vertex)>, cur: Adjacency, keep: set<Edge>, p: (Vertex, Vertex))
    requires plan.Reconciled(done, cur, keep) && HasEdge(plan.after, p.0, p.1) && p.0 in plan.lookup && p.1 in plan.lookup
    requires var x, y := plan.lookup[p.0], plan.lookup[p.1];
      HasEdge(cur, x, y) && plan.ecmp(cur[x][y], plan.after[p.0][p.1]) == Failed
    ensures SomeEdgeCmpFails(plan.before, plan.after, plan.ecmp)
  {
    var x, y := plan.lookup[p.0], plan.lookup[p.1];
    assert p in Pairs(plan.after);
    var e1, e2 := cur[x][y], plan.after[p.0][p.1];
    assert e2 in EdgeObjects(plan.after);
    if plan.Lands(done, x, y) {
      var q :| q in done && plan.Accepts(q, x, y, e1);
      assert q in Pairs(plan.after);
      if e1 != plan.after[q.0][q.1] { assert (x, y) in Pairs(plan.before); }
    } else {
      assert (x, y) in Pairs(plan.before);
    }
    assert e1 in EdgeObjects(plan.before) + EdgeObjects(plan.after);
  }

  /** Stores every edge of the new graph in the copy, reusing the old edge object where it compares equal. */
  method ReconcileEdges(g: Graph, after: Adjacency, lookup: map<Vertex, Vertex>, ecmp: EdgeCmp, ghost plan: Plan)
    returns (err: Option<SyncError>, keep: set<Edge>)
    requires g.Valid() && Closed(after) && lookup.Keys == after.Keys
    requires plan == Plan(plan.before, after, lookup, ecmp) && plan.Swapped(g.adjacency)
    modifies g
    ensures g.Valid() && g.name == old(g.name)
    ensures err == None ==> plan.Reconciled(Pairs(after), g.adjacency, keep)
    ensures err.Some? ==> err.value == EdgeCmpFailed && SomeEdgeCmpFails(plan.before, after, ecmp)
  {
    hide Plan.Reconciled, Plan.Swapped, Closed, Transposed, WithEdge, SomeEdgeCmpFails;
    keep := {};
    var rest := Pairs(after);
    ReconcileStart(plan, g.adjacency);
    assert Pairs(after) - rest == {};
    while rest != {}
      invariant g.Valid() && g.name == old(g.name) && rest <= Pairs(after)
      invariant plan.Reconciled(Pairs(after) - rest, g.adjacency, keep)
      decreases |rest|
    {
      var p :| p in rest;
      assert HasEdge(after, p.0, p.1);
      EdgeIsInside(after, p.0, p.1);
      var x, y := lookup[p.0], lookup[p.1];
      var e := after[p.0][p.1];
      var edge := e;
      if HasEdge(g.adjacency, x, y) {
        match ecmp(g.adjacency[x][y], e)
        case Failed =>
          CannotCompare(plan, Pairs(after) - rest, g.adjacency, keep, p);
          return Some(EdgeCmpFailed), keep;
        case Same => edge := g.adjacency[x][y];
        case Different =>
      }
      ReconcileOne(plan, Pairs(after) - rest, g.adjacency, keep, p, edge);
      g.AddEdge(x, y, edge);
      keep := keep + {edge};
      assert Pairs(after) - (rest - {p}) == Pairs(after) - rest + {p};
      rest := rest - {p};
    }
    assert Pairs(after) - rest == Pairs(after);
    err := None;
  }

  lemma EdgeIsInside(a: Adjacency, u: Vertex, v: Vertex)
    requires Closed(a) && HasEdge(a, u, v)
    ensures u in a && v in a
  {
  }

  lemma ReconcileStart(plan: Plan, cur: Adjacency)
    requires plan.Swapped(cur)
    ensures plan.Reconciled({}, cur, {})
  {
  }

  lemma ReconcileOne(plan: Plan, done: set<(Vertex, Vertex)>, cur: Adjacency, keep: set<Edge>, p: (Vertex, Vertex), edge: Edge)
    requires plan.Reconciled(done, cur, keep) && p !in done && plan.Stores(cur, p, edge)
    ensures plan.Reconciled(done + {p}, WithEdge(cur, plan.lookup[p.0], plan.lookup[p.1], edge), keep + {edge})
  {
    hide Plan.Placed, Plan.Marked, Plan.Exact, Injective;
    var x, y := plan.lookup[p.0], plan.lookup[p.1];
    assert x in plan.lookup.Values && y in plan.lookup.Values;
    assert WithEdge(cur, x, y, edge).Keys == cur.Keys;
    PlaceOne(plan, done, cur, p, edge);
    MarkOne(plan, done, cur, keep, p, edge);
    if Injective(plan.lookup) {
      ExactOne(plan, done, cur, keep, p, edge);
    }
  }

  lemma LandsOneMore(plan: Plan, done: set<(Vertex, Vertex)>, p: (Vertex, Vertex), x: Vertex, y: Vertex)
    ensures plan.Lands(done + {p}, x, y) <==> plan.Lands(done, x, y) || plan.LandsAt(p, x, y)
  {
    if plan.LandsAt(p, x, y) { assert p in done + {p}; }
    if plan.Lands(done, x, y) {
      var q :| q in done && plan.LandsAt(q, x, y);
      assert q in done + {p};
    }
  }

  lemma AcceptedOneMore(plan: Plan, done: set<(Vertex, Vertex)>, p: (Vertex, Vertex), x: Vertex, y: Vertex, e: Edge)
    requires plan.AcceptedAt(done, x, y, e)
    ensures plan.AcceptedAt(done + {p}, x, y, e)
  {
    var q :| q in done && plan.Accepts(q, x, y, e);
    assert q in done + {p};
  }

  lemma PlaceOne(plan: Plan, done: set<(Vertex, Vertex)>, cur: Adjacency, p: (Vertex, Vertex), edge: Edge)
    requires plan.Placed(done, cur) && p.0 in plan.lookup && p.1 in plan.lookup
    ensures plan.Placed(done + {p}, WithEdge(cur, plan.lookup[p.0], plan.lookup[p.1], edge))
  {
    hide Plan.Lands, Plan.Stays, WithEdge;
    var x, y := plan.lookup[p.0], plan.lookup[p.1];
    WithEdgeEdges(cur, x, y, edge);
    forall u, v
      ensures plan.Lands(done + {p}, u, v) <==> plan.Lands(done, u, v) || plan.LandsAt(p, u, v)
    {
      LandsOneMore(plan, done, p, u, v);
    }
  }

  lemma MarkOne(plan: Plan, done: set<(Vertex, Vertex)>, cur: Adjacency, keep: set<Edge>, p: (Vertex, Vertex), edge: Edge)
    requires plan.Placed(done, cur) && plan.Marked(done, cur, keep) && plan.Stores(cur, p, edge)
    ensures plan.Marked(done + {p}, WithEdge(cur, plan.lookup[p.0], plan.lookup[p.1], edge), keep + {edge})
  {
    var x, y := plan.lookup[p.0], plan.lookup[p.1];
    var cur', done' := WithEdge(cur, x, y, edge), done + {p};
    WithEdgeEdges(cur, x, y, edge);
    StoredIsAccepted(plan, done, cur, keep, p, edge);
    hide Plan.Placed, Plan.Stores, Plan.Lands, Plan.AcceptedAt, WithEdge;
    forall u, v | plan.Lands(done', u, v)
      ensures HasEdge(cur', u, v) && cur'[u][v] in keep + {edge} && plan.AcceptedAt(done', u, v, cur'[u][v])
    {
      LandsOneMore(plan, done, p, u, v);
      if !(u == x && v == y) {
        AcceptedOneMore(plan, done, p, u, v, cur[u][v]);
      }
    }
    forall e | e in keep + {edge} ensures exists u, v :: plan.AcceptedAt(done', u, v, e) {
      if e in keep {
        var u, v :| plan.AcceptedAt(done, u, v, e);
        AcceptedOneMore(plan, done, p, u, v, e);
      }
    }
  }

  /** The edge just stored is accepted by `p`, or was accepted by a pair that landed there before. */
  lemma StoredIsAccepted(plan: Plan, done: set<(Vertex, Vertex)>, cur: Adjacency, keep: set<Edge>, p: (Vertex, Vertex), edge: Edge)
    requires plan.Placed(done, cur) && plan.Marked(done, cur, keep) && plan.Stores(cur, p, edge)
    ensures plan.AcceptedAt(done + {p}, plan.lookup[p.0], plan.lookup[p.1], edge)
  {
    var x, y := plan.lookup[p.0], plan.lookup[p.1];
    var same := HasEdge(cur, x, y) && plan.ecmp(cur[x][y], plan.after[p.0][p.1]) == Same;
    if same && plan.Lands(done, x, y) {
      AcceptedOneMore(plan, done, p, x, y, cur[x][y]);
    } else {
      assert p in done + {p} && plan.Accepts(p, x, y, edge);
    }
  }

  lemma ExactOne(plan: Plan, done: set<(Vertex, Vertex)>, cur: Adjacency, keep: set<Edge>, p: (Vertex, Vertex), edge: Edge)
    requires Injective(plan.lookup) && p !in done
    requires plan.Placed(done, cur) && plan.Exact(done, cur, keep) && plan.Stores(cur, p, edge)
    ensures plan.Exact(done + {p}, WithEdge(cur, plan.lookup[p.0], plan.lookup[p.1], edge), keep + {edge})
  {
    var x, y := plan.lookup[p.0], plan.lookup[p.1];
    WithEdgeEdges(cur, x, y, edge);
    forall q | q in done ensures !plan.LandsAt(q, x, y) {
      assert q != p;
    }
    assert !plan.Lands(done, x, y);
    assert plan.Stays(x, y) <==> HasEdge(plan.before, x, y) by {
      assert x in plan.lookup.Values && y in plan.lookup.Values;
    }
    assert plan.Chooses(p, edge);
    hide Plan.Placed, Plan.Stores, Plan.Chooses, Plan.Stays, Plan.Lands, WithEdge;
    assert p in done + {p};
    forall e | e in keep + {edge} ensures exists q :: q in done + {p} && plan.Chooses(q, e) {
      if e in keep {
        var q :| q in done && plan.Chooses(q, e);
        assert q in done + {p};
      }
    }
  }

  lemma UnsavedAreGone(a: Adjacency, keep: set<Edge>)
    ensures WithoutEdges(a, EdgeObjects(a) - keep) == Pruned(a, keep)
    ensures forall p | p in Pairs(a) :: HasEdge(a, p.0, p.1) && (a[p.0][p.1] in EdgeObjects(a) - keep <==> a[p.0][p.1] !in keep)
  {
    var gone := EdgeObjects(a) - keep;
    forall u | u in a ensures WithoutEdges(a, gone)[u] == Pruned(a, keep)[u] {
      forall v | v in a[u] ensures a[u][v] in gone <==> a[u][v] !in keep {
        assert (u, v) in Pairs(a);
      }
    }
  }

  /** Drops, in one pass, the edges whose object was not saved. */
  method PruneEdges(g: Graph, keep: set<Edge>)
    requires g.Valid()
    modifies g
    ensures g.Valid() && g.name == old(g.name)
    ensures g.adjacency == Pruned(old(g.adjacency), keep)
  {
    hide Transposed, Prune, Pruned, WithoutEdges, WithoutEdge, EdgeObjects;
    ghost var a, gone := g.adjacency, EdgeObjects(g.adjacency) - keep;
    UnsavedAreGone(a, keep);
    var pairs := Pairs(g.adjacency);
    PruneNone(a, gone, pairs);
    while pairs != {}
      invariant g.Valid() && g.name == old(g.name) && pairs <= Pairs(a)
      invariant g.adjacency == Prune(a, gone, pairs)
      decreases |pairs|
    {
      var p :| p in pairs;
      PruneStep(a, gone, pairs, p);
      if g.adjacency[p.0][p.1] !in keep {
        g.DeleteEdgeBetween(p.0, p.1);
      }
      pairs := pairs - {p};
    }
    PruneAll(a, gone);
  }

  lemma {:induction false} WithoutVerticesEdges(a: Adjacency, xv: seq<Vertex>)
    ensures WithoutVertices(a, xv).Keys == a.Keys - Elements(xv)
    ensures forall x, y :: HasEdge(WithoutVertices(a, xv), x, y) <==> HasEdge(a, x, y) && x !in xv && y !in xv
    ensures forall x, y | HasEdge(a, x, y) && x !in xv && y !in xv ::
        HasEdge(WithoutVertices(a, xv), x, y) && WithoutVertices(a, xv)[x][y] == a[x][y]
    decreases |xv|
  {
    if xv != [] {
      WithoutVerticesEdges(WithoutVertex(a, xv[0]), xv[1..]);
      assert xv == [xv[0]] + xv[1..];
      ElementsConcat([xv[0]], xv[1..]);
    }
  }

  lemma {:induction false} WithVerticesEdges(a: Adjacency, xv: seq<Vertex>)
    ensures WithVertices(a, xv).Keys == a.Keys + Elements(xv)
    ensures forall x, y :: HasEdge(WithVertices(a, xv), x, y) <==> HasEdge(a, x, y)
    ensures forall x, y | HasEdge(a, x, y) :: HasEdge(WithVertices(a, xv), x, y) && WithVertices(a, xv)[x][y] == a[x][y]
    decreases |xv|
  {
    if xv != [] {
      WithVerticesEdges(WithVertex(a, xv[0]), xv[1..]);
      assert xv == [xv[0]] + xv[1..];
      ElementsConcat([xv[0]], xv[1..]);
    }
  }

  /** Keys and edges of the copy once the removed vertices are gone and the new ones are in. */
  lemma AfterSwap(plan: Plan, vcmp: VertexCmp, dels: seq<Vertex>, adds: seq<Vertex>)
    requires Closed(plan.before) && Matches(plan.before, plan.after, vcmp, plan.lookup)
    requires Elements(dels) == Removals(plan.before, plan.lookup)
    requires Elements(adds) == Additions(plan.before, plan.after, vcmp)
    ensures plan.Swapped(WithVertices(WithoutVertices(plan.before, dels), adds))
  {
    var a, lookup := plan.before, plan.lookup;
    var cur := WithVertices(WithoutVertices(a, dels), adds);
    WithoutVerticesEdges(a, dels);
    WithVerticesEdges(WithoutVertices(a, dels), adds);
    forall x ensures x in cur <==> x in lookup.Values {
      if x in Elements(adds) {
        assert lookup[x] == x;
      }
      if x in lookup.Values {
        var v :| v in lookup && lookup[v] == x;
      }
    }
    forall x, y ensures HasEdge(cur, x, y) <==> plan.Stays(x, y) {
      assert HasEdge(cur, x, y) <==> HasEdge(a, x, y) && x !in dels && y !in dels;
      assert x in dels <==> x in Elements(dels);
      assert y in dels <==> y in Elements(dels);
    }
  }

  /** Both hooks ran on exactly the set difference, every remove before any add, and all of them succeeded. */
  ghost predicate HooksRan(hook: Hook, calls: seq<Call>, dels: set<Vertex>, adds: set<Vertex>) {
    AllSucceed(hook, calls) && FollowsOrder(calls, dels, adds) && |calls| == |dels| + |adds|
  }

  /** The hooks ran in that order until one failed; it was the last one run. */
  ghost predicate HooksStopped(hook: Hook, calls: seq<Call>, dels: set<Vertex>, adds: set<Vertex>) {
    FailsAtLast(hook, calls) && FollowsOrder(calls, dels, adds)
  }

  ghost predicate SomeCmpFails(before: Adjacency, after: Adjacency, vcmp: VertexCmp) {
    exists w, v :: w in before && v in after && w.name == v.name && vcmp(w, v) == Failed
  }

  /** The edge from `u` to `v` of the new graph is in place, on the old object if there is one that compares equal, and
      otherwise on the new one. */
  ghost predicate KeptOrNew(before: Adjacency, after: Adjacency, lookup: map<Vertex, Vertex>, ecmp: EdgeCmp,
                            final: Adjacency, u: Vertex, v: Vertex)
    requires HasEdge(after, u, v)
  {
    && u in lookup && v in lookup && HasEdge(final, lookup[u], lookup[v])
    && var x, y := lookup[u], lookup[v];
      if HasEdge(before, x, y) && ecmp(before[x][y], after[u][v]) == Same then final[x][y] == before[x][y]
      else final[x][y] == after[u][v]
  }

  lemma SyncedKeepsOrTakes(plan: Plan, cur: Adjacency, keep: set<Edge>, final: Adjacency, u: Vertex, v: Vertex)
    requires plan.Synced(cur, keep, final) && Injective(plan.lookup) && plan.lookup.Keys == plan.after.Keys
    requires HasEdge(plan.after, u, v) && v in plan.after
    ensures KeptOrNew(plan.before, plan.after, plan.lookup, plan.ecmp, final, u, v)
  {
    hide Plan.Placed, Plan.Marked, Plan.Exact, Plan.AcceptedAt, Pruned;
    var x, y := plan.lookup[u], plan.lookup[v];
    assert (u, v) in Pairs(plan.after) && plan.LandsAt((u, v), x, y);
    LandedIsSaved(plan, Pairs(plan.after), cur, keep, (u, v), x, y);
    SavedIsKept(cur, keep, x, y);
  }

  lemma LandedIsSaved(plan: Plan, done: set<(Vertex, Vertex)>, cur: Adjacency, keep: set<Edge>, p: (Vertex, Vertex),
                      x: Vertex, y: Vertex)
    requires plan.Marked(done, cur, keep) && plan.Exact(done, cur, keep) && p in done && plan.LandsAt(p, x, y)
    ensures HasEdge(cur, x, y) && cur[x][y] in keep && plan.Chooses(p, cur[x][y])
  {
    hide Plan.AcceptedAt, Plan.Chooses;
    assert plan.Lands(done, x, y);
  }

  lemma SavedIsKept(a: Adjacency, keep: set<Edge>, x: Vertex, y: Vertex)
    requires HasEdge(a, x, y) && a[x][y] in keep
    ensures HasEdge(Pruned(a, keep), x, y) && Pruned(a, keep)[x][y] == a[x][y]
  {
  }

  /** The sync itself.  `calls` is what the hooks were run on, in order; `lookup`, `cur` and `keep` are its locals. */
  method GraphSync(obj: Graph, newGraph: Graph, vcmp: VertexCmp, ecmp: EdgeCmp, hook: Hook)
    returns (err: Option<SyncError>, calls: seq<Call>, lookup: map<Vertex, Vertex>, ghost cur: Adjacency, keep: set<Edge>)
    requires obj.Valid() && newGraph.Valid()
    modifies obj
    ensures obj.Valid()
    ensures err.Some? ==> unchanged(obj)
    ensures err == None ==> obj.name == old(newGraph.name)
    ensures err == None ==>
      Plan(old(obj.adjacency), old(newGraph.adjacency), lookup, ecmp).Synced(cur, keep, obj.adjacency)
    ensures err == None && Injective(lookup) ==>
      forall u, v | HasEdge(old(newGraph.adjacency), u, v) ::
        KeptOrNew(old(obj.adjacency), old(newGraph.adjacency), lookup, ecmp, obj.adjacency, u, v)
    ensures err != Some(VertexCmpFailed) ==> Matches(old(obj.adjacency), old(newGraph.adjacency), vcmp, lookup)
    ensures err == None || err == Some(EdgeCmpFailed) ==>
      HooksRan(hook, calls, Removals(old(obj.adjacency), lookup),
               Additions(old(obj.adjacency), old(newGraph.adjacency), vcmp))
    ensures err == Some(RemoveFailed) || err == Some(AddFailed) ==>
      HooksStopped(hook, calls, Removals(old(obj.adjacency), lookup),
                   Additions(old(obj.adjacency), old(newGraph.adjacency), vcmp))
    ensures err == Some(RemoveFailed) ==> calls != [] && calls[|calls| - 1].Remove?
    ensures err == Some(AddFailed) ==> calls != [] && calls[|calls| - 1].Add?
    ensures err == Some(VertexCmpFailed) ==>
      calls == [] && SomeCmpFails(old(obj.adjacency), old(newGraph.adjacency), vcmp)
    ensures err == Some(EdgeCmpFailed) ==> SomeEdgeCmpFails(old(obj.adjacency), old(newGraph.adjacency), ecmp)
    ensures err != Some(MissingVertex)
  {
    hide Transposed, Matches, Plan.Swapped, Plan.Reconciled, FollowsOrder, AllSucceed, FailsAtLast, Closed, Additions,
      WithVertices, WithoutVertices, Pruned, SomeEdgeCmpFails, KeptOrNew, Injective;
    cur, keep, calls := map[], {}, [];
    ghost var before, after := obj.adjacency, newGraph.adjacency;
    TransposedIsClosed(before, obj.revadjmap);
    TransposedIsClosed(after, newGraph.revadjmap);
    var oldGraph := obj.Copy();
    oldGraph.name := newGraph.name;
    var ok, addSet;
    ok, lookup, addSet := MatchVertices(oldGraph.adjacency, newGraph.adjacency, vcmp);
    if !ok { return Some(VertexCmpFailed), calls, lookup, cur, keep; }
    var vertexDels := Listing(oldGraph.adjacency.Keys - lookup.Values);
    var vertexAdds := Listing(addSet);
    var hookErr;
    hookErr, calls := RunHooks(vertexDels, vertexAdds, hook);
    HooksInOrder(calls, vertexDels, vertexAdds);
    assert FailsAtLast(hook, calls) ==> calls != [] by { LastCall(hook, calls); }
    if hookErr.Some? { return hookErr, calls, lookup, cur, keep; }
    oldGraph.DeleteVertex(vertexDels);
    oldGraph.AddVertex(vertexAdds);
    ghost var plan := Plan(before, after, lookup, ecmp);
    AfterSwap(plan, vcmp, vertexDels, vertexAdds);
    MatchKeys(before, after, vcmp, lookup);
    var edgeErr;
    edgeErr, keep := ReconcileEdges(oldGraph, newGraph.adjacency, lookup, ecmp, plan);
    if edgeErr.Some? { return edgeErr, calls, lookup, cur, keep; }
    cur := oldGraph.adjacency;
    PruneEdges(oldGraph, keep);
    forall u, v | HasEdge(after, u, v) && Injective(lookup)
      ensures KeptOrNew(before, after, lookup, ecmp, oldGraph.adjacency, u, v)
    {
      EdgeIsInside(after, u, v);
      SyncedKeepsOrTakes(plan, cur, keep, oldGraph.adjacency, u, v);
    }
    obj.name, obj.adjacency, obj.revadjmap := oldGraph.name, oldGraph.adjacency, oldGraph.revadjmap;
    err := None;
  }

  lemma LastCall(hook: Hook, calls: seq<Call>)
    ensures FailsAtLast(hook, calls) ==> calls != []
  {
  }

  lemma HooksInOrder(calls: seq<Call>, dels: seq<Vertex>, adds: seq<Vertex>)
    requires Distinct(dels) && Distinct(adds) && calls <= Removes(dels) + Adds(adds)
    ensures FollowsOrder(calls, Elements(dels), Elements(adds))
  {
  }

  lemma MatchKeys(before: Adjacency, after: Adjacency, vcmp: VertexCmp, lookup: map<Vertex, Vertex>)
    requires Matches(before, after, vcmp, lookup)
    ensures lookup.Keys == after.Keys
  {
  }
}
