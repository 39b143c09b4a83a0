/** What GraphSync guarantees about the graph it leaves behind, and exactly when. */
module SyncLaws {
  import opened Vertices
  import opened Digraphs
  import opened PointerGraph
  import opened Synchronize

  /** Some edge of the new graph ends up on this object. */
  ghost predicate Chosen(plan: Plan, e: Edge) {
    exists p :: p in Pairs(plan.after) && plan.Chooses(p, e)
  }

  /** No old edge between two vertices that stay, which the new graph lacks, has an object that is chosen for another
      pair: pruning goes by edge identity.  This speaks of the two graphs, the matching and the comparison only. */
  ghost predicate NoStray(plan: Plan) {
    forall x, y | plan.Stays(x, y) && !plan.Lands(Pairs(plan.after), x, y) :: !Chosen(plan, plan.before[x][y])
  }

  /** All that is in the result, with no assumption at all. */
  lemma SyncedEdges(plan: Plan, cur: Adjacency, keep: set<Edge>, final: Adjacency)
    requires plan.Synced(cur, keep, final)
    ensures final.Keys == plan.lookup.Values
    ensures forall x, y :: HasEdge(final, x, y) <==>
        plan.Lands(Pairs(plan.after), x, y) || (plan.Stays(x, y) && plan.before[x][y] in keep)
    ensures forall x, y | plan.Lands(Pairs(plan.after), x, y) ::
        HasEdge(final, x, y) && plan.AcceptedAt(Pairs(plan.after), x, y, final[x][y])
    ensures forall x, y | plan.Stays(x, y) && !plan.Lands(Pairs(plan.after), x, y) && HasEdge(final, x, y) ::
        final[x][y] == plan.before[x][y]
  {
    hide Plan.Lands, Plan.Stays, Plan.AcceptedAt, Plan.Exact;
    forall x, y ensures HasEdge(final, x, y) <==> HasEdge(cur, x, y) && cur[x][y] in keep {
    }
  }

  /** The result is isomorphic to the new graph, by the matching, exactly when the matching is one to one and no old
      edge that the new graph lacks shares its object with an edge that stays or comes. */
  lemma IsomorphicIff(plan: Plan, cur: Adjacency, keep: set<Edge>, final: Adjacency)
    requires plan.Synced(cur, keep, final) && Closed(plan.after) && plan.lookup.Keys == plan.after.Keys
    ensures Isomorphism(plan.after, final, plan.lookup) <==> Injective(plan.lookup) && NoStray(plan)
  {
    hide Plan.Reconciled, Plan.Lands, Chosen;
    SyncedEdges(plan, cur, keep, final);
    if Injective(plan.lookup) {
      forall e ensures e in keep <==> Chosen(plan, e) {
        SavedIff(plan, cur, keep, e);
      }
    }
    if Injective(plan.lookup) && NoStray(plan) {
      IsomorphicIf(plan, keep, final);
    }
    if Isomorphism(plan.after, final, plan.lookup) {
      assert Injective(plan.lookup);
      forall x, y | plan.Stays(x, y) && !plan.Lands(Pairs(plan.after), x, y) ensures plan.before[x][y] !in keep {
        StrayIsExtra(plan, final, x, y);
      }
    }
  }

  /** With a matching that is one to one, the objects that are saved are exactly those that are chosen. */
  lemma SavedIff(plan: Plan, cur: Adjacency, keep: set<Edge>, e: Edge)
    requires plan.Reconciled(Pairs(plan.after), cur, keep) && Injective(plan.lookup)
    ensures e in keep <==> Chosen(plan, e)
  {
    if Chosen(plan, e) {
      var p :| p in Pairs(plan.after) && plan.Chooses(p, e);
      var x, y := plan.lookup[p.0], plan.lookup[p.1];
      assert plan.LandsAt(p, x, y);
      LandsBy(plan, Pairs(plan.after), p, x, y);
      assert plan.Chooses(p, cur[x][y]) && cur[x][y] in keep;
    }
  }

  lemma IsomorphicIf(plan: Plan, keep: set<Edge>, final: Adjacency)
    requires Closed(plan.after) && plan.lookup.Keys == plan.after.Keys && final.Keys == plan.lookup.Values
    requires forall x, y :: HasEdge(final, x, y) <==>
        plan.Lands(Pairs(plan.after), x, y) || (plan.Stays(x, y) && plan.before[x][y] in keep)
    requires Injective(plan.lookup)
    requires forall x, y | plan.Stays(x, y) && !plan.Lands(Pairs(plan.after), x, y) :: plan.before[x][y] !in keep
    ensures Isomorphism(plan.after, final, plan.lookup)
  {
    var f := plan.lookup;
    forall u, v | u in f && v in f ensures HasEdge(plan.after, u, v) <==> HasEdge(final, f[u], f[v]) {
      if HasEdge(plan.after, u, v) {
        assert (u, v) in Pairs(plan.after) && plan.LandsAt((u, v), f[u], f[v]);
      }
      if HasEdge(final, f[u], f[v]) {
        assert plan.Lands(Pairs(plan.after), f[u], f[v]);
        var p :| p in Pairs(plan.after) && plan.LandsAt(p, f[u], f[v]);
        assert p == (u, v);
      }
    }
  }

  lemma StrayIsExtra(plan: Plan, final: Adjacency, x: Vertex, y: Vertex)
    requires Isomorphism(plan.after, final, plan.lookup) && plan.lookup.Keys == plan.after.Keys
    requires plan.Stays(x, y) && !plan.Lands(Pairs(plan.after), x, y)
    ensures !HasEdge(final, x, y)
  {
    var f := plan.lookup;
    var u :| u in f && f[u] == x;
    var v :| v in f && f[v] == y;
    if HasEdge(plan.after, u, v) {
      assert (u, v) in Pairs(plan.after) && plan.LandsAt((u, v), x, y);
    }
  }

  /* ----- when the matching is one to one ----- */

  /** No old vertex may stand for two new ones, and none that may stand for one is itself another new vertex
      that has to be added. */
  ghost predicate Unambiguous(before: Adjacency, after: Adjacency, vcmp: VertexCmp) {
    forall n1, n2, w | n1 in after && n2 in after && n1 != n2 && Candidate(before, vcmp, w, n1) ::
      !Candidate(before, vcmp, w, n2) && !(w == n2 && Unmatched(before, vcmp, n2))
  }

  ghost predicate AllComparable(before: Adjacency, after: Adjacency, vcmp: VertexCmp) {
    forall w, v | w in before && v in after && w.name == v.name :: vcmp(w, v) != Failed
  }

  /** Whatever order the loops take, the matching is one to one: this holds exactly for unambiguous inputs. */
  lemma InjectiveIff(before: Adjacency, after: Adjacency, vcmp: VertexCmp)
    requires AllComparable(before, after, vcmp)
    ensures Unambiguous(before, after, vcmp)
        <==> forall lookup | Matches(before, after, vcmp, lookup) :: Injective(lookup)
  {
    if !Unambiguous(before, after, vcmp) {
      var n1, n2, w :| n1 in after && n2 in after && n1 != n2 && Candidate(before, vcmp, w, n1)
        && (Candidate(before, vcmp, w, n2) || (w == n2 && Unmatched(before, vcmp, n2)));
      var lookup := map v | v in after ::
          if v == n1 || v == n2 then w
          else if exists c :: Candidate(before, vcmp, c, v) then (var c :| Candidate(before, vcmp, c, v); c)
          else v;
      forall v | v in lookup && v != n1 && v != n2 && !(exists c :: Candidate(before, vcmp, c, v))
        ensures Unmatched(before, vcmp, v)
      {
        forall c | c in before && c.name == v.name ensures vcmp(c, v) == Different {
          assert !Candidate(before, vcmp, c, v);
        }
      }
      assert Matches(before, after, vcmp, lookup);
      assert lookup[n1] == lookup[n2];
    }
    if Unambiguous(before, after, vcmp) {
      forall lookup | Matches(before, after, vcmp, lookup) ensures Injective(lookup) {
        UnambiguousIsInjective(before, after, vcmp, lookup);
      }
    }
  }

  lemma UnambiguousIsInjective(before: Adjacency, after: Adjacency, vcmp: VertexCmp, lookup: map<Vertex, Vertex>)
    requires Unambiguous(before, after, vcmp) && Matches(before, after, vcmp, lookup)
    ensures Injective(lookup)
  {
    hide Candidate, Unmatched;
    forall u, v | u in lookup && v in lookup && lookup[u] == lookup[v] ensures u == v {
      var w := lookup[u];
      assert Candidate(before, vcmp, w, u) || w == u;
      assert Candidate(before, vcmp, w, v) || w == v;
    }
  }

  /** The comparison is an equivalence on `s`. */
  ghost predicate EquivalenceOn(vcmp: VertexCmp, s: set<Vertex>) {
    && (forall u | u in s :: vcmp(u, u) == Same)
    && (forall u, v | u in s && v in s && vcmp(u, v) == Same :: vcmp(v, u) == Same)
    && (forall u, v, w | u in s && v in s && w in s && vcmp(u, v) == Same && vcmp(v, w) == Same :: vcmp(u, w) == Same)
  }

  /** No two vertices of `s` compare equal. */
  ghost predicate Inequivalent(vcmp: VertexCmp, s: set<Vertex>) {
    forall u, v | u in s && v in s && u != v :: vcmp(u, v) != Same
  }

  lemma EquivalenceIsUnambiguous(before: Adjacency, after: Adjacency, vcmp: VertexCmp)
    requires EquivalenceOn(vcmp, before.Keys + after.Keys) && Inequivalent(vcmp, after.Keys)
    ensures Unambiguous(before, after, vcmp)
  {
    forall n1, n2, w | n1 in after && n2 in after && n1 != n2 && Candidate(before, vcmp, w, n1)
      ensures !Candidate(before, vcmp, w, n2) && w != n2
    {
      assert vcmp(n1, w) == Same;
      assert vcmp(n1, n2) != Same;
    }
  }

  /* ----- when no stray edge survives ----- */

  /** Each edge object of the old graph labels one vertex pair, and the new graph brings its own objects. */
  ghost predicate OwnObjects(before: Adjacency, after: Adjacency) {
    && (forall p, q | p in Pairs(before) && q in Pairs(before) && before[p.0][p.1] == before[q.0][q.1] :: p == q)
    && EdgeObjects(before) !! EdgeObjects(after)
  }

  lemma OwnObjectsLeaveNoStray(plan: Plan)
    requires OwnObjects(plan.before, plan.after)
    ensures NoStray(plan)
  {
    forall x, y | plan.Stays(x, y) && Chosen(plan, plan.before[x][y]) ensures plan.Lands(Pairs(plan.after), x, y) {
      ChosenObjectLands(plan, x, y);
    }
  }

  lemma ChosenObjectLands(plan: Plan, x: Vertex, y: Vertex)
    requires OwnObjects(plan.before, plan.after) && plan.Stays(x, y) && Chosen(plan, plan.before[x][y])
    ensures plan.Lands(Pairs(plan.after), x, y)
  {
    hide Plan.Lands;
    var e := plan.before[x][y];
    var p :| p in Pairs(plan.after) && plan.Chooses(p, e);
    var u, v := plan.lookup[p.0], plan.lookup[p.1];
    assert (x, y) in Pairs(plan.before) && e in EdgeObjects(plan.before);
    assert plan.after[p.0][p.1] in EdgeObjects(plan.after);
    assert (u, v) in Pairs(plan.before);
    assert (u, v) == (x, y);
    LandsBy(plan, Pairs(plan.after), p, x, y);
  }

  lemma LandsBy(plan: Plan, done: set<(Vertex, Vertex)>, p: (Vertex, Vertex), x: Vertex, y: Vertex)
    requires p in done && plan.LandsAt(p, x, y)
    ensures plan.Lands(done, x, y)
  {
  }

  /* ----- every order of the loops ----- */

  /** What GraphSync may make of its arguments. */
  ghost predicate SyncResult(before: Adjacency, after: Adjacency, vcmp: VertexCmp, ecmp: EdgeCmp,
                             lookup: map<Vertex, Vertex>, cur: Adjacency, keep: set<Edge>, final: Adjacency) {
    Matches(before, after, vcmp, lookup) && Plan(before, after, lookup, ecmp).Synced(cur, keep, final)
  }

  /** The old graph cut down to the vertices that stay, with the new ones added. */
  ghost function CutDown(plan: Plan): Adjacency {
    map x | x in plan.lookup.Values ::
      if x in plan.before then map y | y in plan.before[x] && y in plan.lookup.Values :: plan.before[x][y] else map[]
  }

  lemma {:induction false} CanReconcile(plan: Plan, done: set<(Vertex, Vertex)>) returns (cur: Adjacency, keep: set<Edge>)
    requires Closed(plan.after) && plan.lookup.Keys == plan.after.Keys && done <= Pairs(plan.after)
    ensures plan.Reconciled(done, cur, keep)
    decreases |done|
  {
    hide Plan.Reconciled, WithEdge;
    if done == {} {
      cur, keep := CutDown(plan), {};
      ReconcileStart(plan, cur);
    } else {
      var p :| p in done;
      cur, keep := CanReconcile(plan, done - {p});
      EdgeIsInside(plan.after, p.0, p.1);
      var x, y := plan.lookup[p.0], plan.lookup[p.1];
      var e := plan.after[p.0][p.1];
      var edge := if HasEdge(cur, x, y) && plan.ecmp(cur[x][y], e) == Same then cur[x][y] else e;
      ReconcileOne(plan, done - {p}, cur, keep, p, edge);
      assert done - {p} + {p} == done;
      cur, keep := WithEdge(cur, x, y, edge), keep + {edge};
    }
  }

  lemma SomeResult(before: Adjacency, after: Adjacency, vcmp: VertexCmp, ecmp: EdgeCmp, lookup: map<Vertex, Vertex>)
    returns (cur: Adjacency, keep: set<Edge>, final: Adjacency)
    requires Closed(after) && Matches(before, after, vcmp, lookup)
    ensures SyncResult(before, after, vcmp, ecmp, lookup, cur, keep, final)
  {
    hide Plan.Reconciled;
    cur, keep := CanReconcile(Plan(before, after, lookup, ecmp), Pairs(after));
    final := Pruned(cur, keep);
  }

  /** Whatever order the loops take, the result is the new graph again: this holds exactly for unambiguous vertices, and
      edges of which none that goes shares its object with one that is chosen. */
  lemma AlwaysIsomorphicIff(before: Adjacency, after: Adjacency, vcmp: VertexCmp, ecmp: EdgeCmp)
    requires Closed(after) && AllComparable(before, after, vcmp) && !SomeEdgeCmpFails(before, after, ecmp)
    ensures (forall lookup, cur, keep, final | SyncResult(before, after, vcmp, ecmp, lookup, cur, keep, final) ::
               Isomorphism(after, final, lookup))
       <==> Unambiguous(before, after, vcmp)
            && forall lookup | Matches(before, after, vcmp, lookup) :: NoStray(Plan(before, after, lookup, ecmp))
  {
    hide Plan.Synced, Unambiguous, Isomorphism, Injective, NoStray, AllComparable, SomeEdgeCmpFails, Closed;
    InjectiveIff(before, after, vcmp);
    forall lookup, cur, keep, final | SyncResult(before, after, vcmp, ecmp, lookup, cur, keep, final)
      ensures Isomorphism(after, final, lookup) <==> Injective(lookup) && NoStray(Plan(before, after, lookup, ecmp))
    {
      MatchKeys(before, after, vcmp, lookup);
      IsomorphicIff(Plan(before, after, lookup, ecmp), cur, keep, final);
    }
    forall lookup | Matches(before, after, vcmp, lookup)
      ensures exists cur, keep, final :: SyncResult(before, after, vcmp, ecmp, lookup, cur, keep, final)
    {
      var cur, keep, final := SomeResult(before, after, vcmp, ecmp, lookup);
    }
  }

  /* ----- the guarantees a caller relies on ----- */

  /** Under an equivalence that tells the new vertices apart, and with edge objects that are not shared, the result
      is the new graph again; so it is acyclic when the new graph is, and no sort of it can fail. */
  lemma SyncIsIsomorphic(plan: Plan, vcmp: VertexCmp, cur: Adjacency, keep: set<Edge>, final: Adjacency)
    requires Closed(plan.after) && Matches(plan.before, plan.after, vcmp, plan.lookup) && plan.Synced(cur, keep, final)
    requires EquivalenceOn(vcmp, plan.before.Keys + plan.after.Keys) && Inequivalent(vcmp, plan.after.Keys)
    requires OwnObjects(plan.before, plan.after)
    ensures Isomorphism(plan.after, final, plan.lookup)
    ensures Closed(final) && Acyclic(plan.after) ==> Acyclic(final)
  {
    hide Plan.Reconciled;
    EquivalenceIsUnambiguous(plan.before, plan.after, vcmp);
    UnambiguousIsInjective(plan.before, plan.after, vcmp, plan.lookup);
    OwnObjectsLeaveNoStray(plan);
    IsomorphicIff(plan, cur, keep, final);
    if Closed(final) && Acyclic(plan.after) {
      IsomorphicToAcyclic(plan.after, final, plan.lookup);
    }
  }

  /** Nothing that compares equal is replaced: a matched vertex is still the old object, and so is an edge if the old graph
      has one there that compares equal; any other edge is the new object. */
  lemma KeepsEqualObjects(plan: Plan, vcmp: VertexCmp, cur: Adjacency, keep: set<Edge>, final: Adjacency,
                          u: Vertex, v: Vertex)
    requires Closed(plan.after) && Matches(plan.before, plan.after, vcmp, plan.lookup) && plan.Synced(cur, keep, final)
    requires Injective(plan.lookup) && HasEdge(plan.after, u, v)
    ensures v in plan.after && HasEdge(final, plan.lookup[u], plan.lookup[v])
    ensures || (plan.lookup[u] in plan.before && plan.lookup[u].name == u.name && vcmp(plan.lookup[u], u) == Same)
            || (plan.lookup[u] == u && forall w | w in plan.before && w.name == u.name :: vcmp(w, u) == Different)
    ensures var x, y := plan.lookup[u], plan.lookup[v];
      HasEdge(plan.before, x, y) && plan.ecmp(plan.before[x][y], plan.after[u][v]) == Same ==>
        final[x][y] == plan.before[x][y]
    ensures var x, y := plan.lookup[u], plan.lookup[v];
      !(HasEdge(plan.before, x, y) && plan.ecmp(plan.before[x][y], plan.after[u][v]) == Same) ==>
        final[x][y] == plan.after[u][v]
  {
    hide Plan.Synced, Injective;
    MatchKeys(plan.before, plan.after, vcmp, plan.lookup);
    SyncedKeepsOrTakes(plan, cur, keep, final, u, v);
  }

  /** However far the hooks get, each runs at most once for a vertex, only on what goes or comes, and no remove follows an
      add. */
  lemma RemovesComeFirst(calls: seq<Call>, dels: set<Vertex>, adds: set<Vertex>)
    requires FollowsOrder(calls, dels, adds)
    ensures forall i, j | 0 <= i < j < |calls| :: calls[i] != calls[j] && (calls[i].Add? ==> calls[j].Add?)
    ensures forall c | c in calls :: if c.Remove? then c.v in dels else c.v in adds
  {
    var d, a :| Distinct(d) && Distinct(a) && Elements(d) == dels && Elements(a) == adds && calls <= Removes(d) + Adds(a);
    var all := Removes(d) + Adds(a);
    assert forall i | 0 <= i < |calls| :: calls[i] == all[i];
    forall c | c in calls ensures if c.Remove? then c.v in dels else c.v in adds {
      var i :| 0 <= i < |calls| && calls[i] == c;
      assert if i < |d| then c == Remove(d[i]) && d[i] in Elements(d) else c == Add(a[i - |d|]) && a[i - |d|] in Elements(a);
    }
  }

  /** Syncing again to the same graph runs no hook and matches every vertex to where it went the first time. */
  lemma SecondSyncIsIdle(plan: Plan, vcmp: VertexCmp, cur: Adjacency, keep: set<Edge>, final: Adjacency,
                         again: map<Vertex, Vertex>)
    requires Matches(plan.before, plan.after, vcmp, plan.lookup) && plan.Synced(cur, keep, final)
    requires EquivalenceOn(vcmp, plan.before.Keys + plan.after.Keys) && Inequivalent(vcmp, plan.after.Keys)
    requires Matches(final, plan.after, vcmp, again)
    ensures again == plan.lookup
    ensures Removals(final, again) == {} && Additions(final, plan.after, vcmp) == {}
  {
    hide Plan.Reconciled;
    var f := plan.lookup;
    assert final.Keys == f.Values by { SyncedEdges(plan, cur, keep, final); }
    forall v | v in f
      ensures f[v] in final && vcmp(f[v], v) == Same && f[v].name == v.name && again[v] == f[v]
    {
      assert f[v] in f.Values;
      assert Candidate(final, vcmp, f[v], v);
      assert Candidate(final, vcmp, again[v], v);
      var u :| u in f && f[u] == again[v];
      assert vcmp(u, f[u]) == Same && vcmp(u, v) == Same;
    }
  }

  /* ----- the two families of inputs that break the isomorphism ----- */

  const A := Vertex(1, "a")
  const B := Vertex(2, "b")
  const C := Vertex(3, "c")

  /** An edge that the new graph drops survives if its object is the only one acceptable somewhere else. */
  lemma SavedForAnother(plan: Plan, cur: Adjacency, keep: set<Edge>, final: Adjacency, e: Edge,
                        x: Vertex, y: Vertex, u: Vertex, v: Vertex)
    requires plan.Synced(cur, keep, final) && plan.Lands(Pairs(plan.after), x, y)
    requires forall f | plan.AcceptedAt(Pairs(plan.after), x, y, f) :: f == e
    requires plan.Stays(u, v) && plan.before[u][v] == e
    ensures HasEdge(final, u, v)
  {
    hide Plan.Lands, Plan.AcceptedAt, Plan.Exact, Plan.Placed;
    assert cur[x][y] in keep && cur[x][y] == e;
    SyncedEdges(plan, cur, keep, final);
  }

  function SharedPlan(e: Edge): Plan {
    Plan(map[A := map[B := e, C := e], B := map[], C := map[]], map[A := map[B := e], B := map[], C := map[]],
         map[A := A, B := B, C := C], StrEdgeCmp)
  }

  /** One edge object on two pairs: the new graph drops `a -> c`, but its object is saved for `a -> b`. */
  lemma SharedObjectSurvives(e: Edge, cur: Adjacency, keep: set<Edge>, final: Adjacency)
    requires SharedPlan(e).Synced(cur, keep, final)
    ensures HasEdge(final, A, C)
  {
    hide Plan.Synced;
    var plan := SharedPlan(e);
    assert plan.Lands(Pairs(plan.after), A, B) by {
      assert (A, B) in Pairs(plan.after) && plan.LandsAt((A, B), A, B);
    }
    assert plan.Stays(A, C) by {
      assert plan.lookup[A] == A && plan.lookup[C] == C;
      assert A in plan.lookup.Values && C in plan.lookup.Values;
    }
    forall f | plan.AcceptedAt(Pairs(plan.after), A, B, f) ensures f == e {
      var p :| p in Pairs(plan.after) && plan.Accepts(p, A, B, f);
    }
    SavedForAnother(plan, cur, keep, final, e, A, B, A, C);
  }

  /** Two new vertices with the same string both match the one old vertex, and the result has one vertex. */
  lemma TwinsCollapse(lookup: map<Vertex, Vertex>, cur: Adjacency, keep: set<Edge>, final: Adjacency)
    requires var g := map[A := map[]];
      var n := map[Vertex(7, "a") := map[], Vertex(8, "a") := map[]];
      Matches(g, n, StrVertexCmp, lookup) && Plan(g, n, lookup, StrEdgeCmp).Synced(cur, keep, final)
    ensures final.Keys == {A} && !Injective(lookup)
  {
    var x, y := Vertex(7, "a"), Vertex(8, "a");
    assert StrVertexCmp(A, x) == Same && StrVertexCmp(A, y) == Same;
    assert A.name == x.name;
    assert lookup[x] == A && lookup[y] == A;
    assert x in lookup && y in lookup && x != y;
    assert A in lookup.Values;
    forall w | w in lookup.Values ensures w == A {
      var v :| v in lookup && lookup[v] == w;
    }
  }
}
