/** What commits keep over any sequence of them, and what a failed one costs. */
module CommitLaws {
  import opened Vertices
  import opened Digraphs
  import opened Synchronize
  import opened SyncLaws
  import opened Commit

  /* ----- one successful commit ----- */

  lemma CommitKeepsTidy(job: Job, s': Snapshot, calls: seq<Call>, lookup: map<Vertex, Vertex>)
    requires Tidy(job.res, job.s) && job.Commits(s', calls, lookup)
    ensures Tidy(job.res, s')
  {
    hide HooksRan, Kinds, Uids, Kept, Additions;
    var k0, k1 := Kinds(job.res, job.s.graph.Keys), Kinds(job.res, s'.graph.Keys);
    assert k0 + k1 - (k0 - k1) == k1;
  }

  /** The resources that stay and share a counter with one that goes, while nobody who comes uses it. */
  ghost predicate CounterIsTorn(job: Job, lookup: map<Vertex, Vertex>, v: Vertex, w: Vertex) {
    && v in job.s.graph.Keys - job.Gone(lookup) && w in job.Gone(lookup)
    && !job.res(v).hidden && !job.res(w).hidden
    && UidOf(job.res, v) == UidOf(job.res, w) && UidOf(job.res, v) in job.s.metas
    && UidOf(job.res, v) !in Uids(job.res, job.Come())
  }

  /** The counters that survive are exactly those of resources in the new graph, keeping their values, unless a
      resource that stays shares its identity with one that goes. */
  lemma CountersSurviveIff(job: Job, s': Snapshot, calls: seq<Call>, lookup: map<Vertex, Vertex>)
    requires Tidy(job.res, job.s) && job.Commits(s', calls, lookup)
    ensures s'.metas == Kept(job.s.metas, Uids(job.res, s'.graph.Keys)) <==> !(exists v, w :: CounterIsTorn(job, lookup, v, w))
  {
    hide HooksRan, Kinds, Additions, StatesSwapped, Removals;
    var gone, come := job.Gone(lookup), job.Come();
    GoneAreKnown(job.s.graph, lookup);
    var active := Uids(job.res, job.s.state.Keys) - Uids(job.res, gone) + Uids(job.res, come);
    if v, w :| CounterIsTorn(job, lookup, v, w) {
      assert UidOf(job.res, w) in Uids(job.res, gone);
      assert UidOf(job.res, v) in Kept(job.s.metas, Uids(job.res, s'.graph.Keys)) && UidOf(job.res, v) !in s'.metas;
    }
    if !(exists v, w :: CounterIsTorn(job, lookup, v, w)) {
      forall u | u in job.s.metas ensures u in active <==> u in Uids(job.res, s'.graph.Keys) {
        UntornIsActive(job, s', lookup, u);
      }
      assert s'.metas == Kept(job.s.metas, active);
    }
  }

  lemma UntornIsActive(job: Job, s': Snapshot, lookup: map<Vertex, Vertex>, u: Uid)
    requires job.s.state.Keys == job.s.graph.Keys && u in job.s.metas && job.Gone(lookup) <= job.s.graph.Keys
    requires s'.graph.Keys == job.s.graph.Keys - job.Gone(lookup) + job.Come()
    requires !(exists v, w :: CounterIsTorn(job, lookup, v, w))
    ensures u in Uids(job.res, job.s.state.Keys) - Uids(job.res, job.Gone(lookup)) + Uids(job.res, job.Come())
       <==> u in Uids(job.res, s'.graph.Keys)
  {
    hide Additions, Removals;
    var gone, come := job.Gone(lookup), job.Come();
    assert forall v | v in come && !job.res(v).hidden :: UidOf(job.res, v) in Uids(job.res, come);
    if u in Uids(job.res, s'.graph.Keys) && u !in Uids(job.res, come) {
      var v :| v in s'.graph.Keys && !job.res(v).hidden && UidOf(job.res, v) == u;
      assert v in job.s.graph.Keys - gone;
      forall w | w in gone && !job.res(w).hidden ensures UidOf(job.res, w) != u {
        assert !CounterIsTorn(job, lookup, v, w);
      }
    }
  }

  ghost predicate UniqueUids(res: Vertex -> Res, s: set<Vertex>) {
    forall v, w | v in s && w in s && !res(v).hidden && !res(w).hidden && UidOf(res, v) == UidOf(res, w) :: v == w
  }

  lemma UniqueUidsAreNotTorn(job: Job, lookup: map<Vertex, Vertex>)
    requires UniqueUids(job.res, job.s.graph.Keys)
    ensures !(exists v, w :: CounterIsTorn(job, lookup, v, w))
  {
  }

  /* ----- the same in the terms of a resource ----- */

  /** Whoever was added validated and initialised and had no state; whoever was removed cleaned up and had not been told to
      go before. */
  lemma HooksAnswered(job: Job, s': Snapshot, calls: seq<Call>, lookup: map<Vertex, Vertex>)
    requires job.Commits(s', calls, lookup)
    ensures forall v | Add(v) in calls :: v !in job.s.state && job.a.validates(v) && job.a.inits(v)
    ensures forall v | Remove(v) in calls && v in job.s.state :: !job.s.state[v].told && job.a.cleansUp(v)
  {
    hide FollowsOrder, StatesSwapped, Uids, Kinds, Kept, Additions, Removals;
    forall c | c in calls ensures exists history :: job.Hook()(history, c) {
      var i :| 0 <= i < |calls| && calls[i] == c;
      assert job.Hook()(calls[..i], calls[i]);
    }
  }

  /** A background function runs exactly if some resource of the new graph that is not hidden has its kind and needs one. */
  lemma BackgroundRunsIffNeeded(job: Job, s': Snapshot, calls: seq<Call>, lookup: map<Vertex, Vertex>, kind: string)
    requires Tidy(job.res, job.s) && job.Commits(s', calls, lookup)
    ensures kind in s'.bgState
       <==> exists v :: v in s'.graph && !job.res(v).hidden && job.res(v).background && job.res(v).kind == kind
  {
    hide HooksRan, Uids, Kept, Additions, Removals, StatesSwapped;
    CommitKeepsTidy(job, s', calls, lookup);
  }

  /** With one resource for each kind and name, a retry counter survives, with its value, exactly if some resource of the new
      graph that is not hidden has its kind and name. */
  lemma CounterSurvivesIff(job: Job, s': Snapshot, calls: seq<Call>, lookup: map<Vertex, Vertex>, kind: string, name: string)
    requires Tidy(job.res, job.s) && job.Commits(s', calls, lookup)
    requires forall v, w | v in job.s.graph && w in job.s.graph && !job.res(v).hidden && !job.res(w).hidden
                           && job.res(v).kind == job.res(w).kind && job.res(v).name == job.res(w).name :: v == w
    ensures Uid(kind, name) in s'.metas
       <==> && Uid(kind, name) in job.s.metas
            && exists v :: v in s'.graph && !job.res(v).hidden && job.res(v).kind == kind && job.res(v).name == name
    ensures Uid(kind, name) in s'.metas ==> s'.metas[Uid(kind, name)] == job.s.metas[Uid(kind, name)]
  {
    hide HooksRan, Kinds, Additions, Removals, StatesSwapped, Job.Commits, CounterIsTorn;
    UniqueUidsAreNotTorn(job, lookup);
    CountersSurviveIff(job, s', calls, lookup);
  }

  /* ----- any sequence of commits ----- */

  /** What happens to the engine's tables: a commit, or a Worker that initialises or uses its retry counter. */
  ghost predicate Evolves(res: Vertex -> Res, s: Snapshot, s': Snapshot) {
    || (exists job: Job, calls, lookup :: job.s == s && job.res == res && job.Commits(s', calls, lookup))
    || (exists v, retry :: CounterSet(res, s, s', v, retry))
  }

  ghost predicate CounterSet(res: Vertex -> Res, s: Snapshot, s': Snapshot, v: Vertex, retry: int) {
    v in s.graph && !res(v).hidden && s' == s.(metas := s.metas[UidOf(res, v) := retry])
  }

  ghost predicate Evolution(res: Vertex -> Res, run: seq<Snapshot>) {
    && run != [] && run[0] == Snapshot(map[], map[], {}, map[], {})
    && forall i | 0 <= i < |run| - 1 :: Evolves(res, run[i], run[i + 1])
  }

  /** No counter outlives its resource. */
  ghost predicate NoOrphans(res: Vertex -> Res, s: Snapshot) {
    s.metas.Keys <= Uids(res, s.graph.Keys)
  }

  lemma CommitLeavesNoOrphans(job: Job, s': Snapshot, calls: seq<Call>, lookup: map<Vertex, Vertex>)
    requires Tidy(job.res, job.s) && job.Commits(s', calls, lookup)
    ensures NoOrphans(job.res, s')
  {
    hide HooksRan, Kinds, Additions, Removals, StatesSwapped;
    var gone, come := job.Gone(lookup), job.Come();
    forall u | u in Uids(job.res, job.s.state.Keys) - Uids(job.res, gone) + Uids(job.res, come)
      ensures u in Uids(job.res, s'.graph.Keys)
    {
      if u in Uids(job.res, come) {
        var v :| v in come && !job.res(v).hidden && UidOf(job.res, v) == u;
        assert v in s'.graph.Keys;
      } else {
        var v :| v in job.s.state.Keys && !job.res(v).hidden && UidOf(job.res, v) == u;
        assert v in s'.graph.Keys;
      }
    }
  }

  lemma EvolvesKeeps(res: Vertex -> Res, s: Snapshot, s': Snapshot)
    requires Evolves(res, s, s') && Tidy(res, s) && NoOrphans(res, s)
    ensures Tidy(res, s') && NoOrphans(res, s')
  {
    hide Job.Commits, Kinds;
    if job: Job, calls, lookup :| job.s == s && job.res == res && job.Commits(s', calls, lookup) {
      CommitKeepsTidy(job, s', calls, lookup);
      CommitLeavesNoOrphans(job, s', calls, lookup);
    }
  }

  /** However many commits succeed, states, wait groups and graph agree, exactly the needed background functions run,
      and no retry counter is left behind. */
  lemma {:induction false} EngineStaysTidy(res: Vertex -> Res, run: seq<Snapshot>, i: nat)
    requires Evolution(res, run) && i < |run|
    ensures Tidy(res, run[i]) && NoOrphans(res, run[i])
  {
    hide Evolves, Tidy, NoOrphans;
    if i == 0 {
      EmptyIsTidy(res);
    } else {
      EngineStaysTidy(res, run, i - 1);
      assert Evolves(res, run[i - 1], run[i - 1 + 1]);
      EvolvesKeeps(res, run[i - 1], run[i]);
    }
  }

  lemma EmptyIsTidy(res: Vertex -> Res)
    ensures var s := Snapshot(map[], map[], {}, map[], {}); Tidy(res, s) && NoOrphans(res, s)
  {
  }

  /** From a tidy engine a shutdown that works leaves nothing. */
  lemma ShutdownLeavesNothing(res: Vertex -> Res, s: Snapshot, s': Snapshot)
    requires Tidy(res, s) && ShutsDown(res, s, s')
    ensures s' == Snapshot(map[], map[], {}, map[], {})
  {
    hide Kinds;
  }

  /* ----- the graph that runs afterwards ----- */

  /** Swapping failed resources does not spoil the matching: if the resources' own comparison tells the new vertices
      apart, the running graph becomes the pending one, and stays sortable. */
  lemma CommittedGraphIsThePendingOne(job: Job, lookup: map<Vertex, Vertex>, cur: Adjacency, keep: set<Edge>, final: Adjacency)
    requires job.Syncs(lookup, cur, keep, final) && Closed(job.after)
    requires EquivalenceOn(job.a.vcmp, job.s.graph.Keys + job.after.Keys) && Inequivalent(job.a.vcmp, job.after.Keys)
    requires OwnObjects(job.s.graph, job.after)
    ensures Isomorphism(job.after, final, lookup)
    ensures Closed(final) && Acyclic(job.after) ==> Acyclic(final)
  {
    hide Plan.Reconciled, Matches, Unambiguous, NoStray, OwnObjects, Closed, Acyclic, EquivalenceOn, Isomorphism;
    var plan := Plan(job.s.graph, job.after, lookup, job.a.ecmp);
    assert job.VertexCmp() == SwapCmp(job.res, FailedWorkers(job.s.state), job.a.vcmp);
    SwapIsUnambiguous(job.s.graph, job.after, job.res, FailedWorkers(job.s.state), job.a.vcmp);
    UnambiguousIsInjective(plan.before, plan.after, job.VertexCmp(), lookup);
    OwnObjectsLeaveNoStray(plan);
    MatchKeys(plan.before, plan.after, job.VertexCmp(), lookup);
    IsomorphicIff(plan, cur, keep, final);
    if Closed(final) && Acyclic(plan.after) {
      IsomorphicToAcyclic(plan.after, final, lookup);
    }
  }

  lemma SwapIsUnambiguous(before: Adjacency, after: Adjacency, res: Vertex -> Res, failed: set<Vertex>, vcmp: VertexCmp)
    requires EquivalenceOn(vcmp, before.Keys + after.Keys) && Inequivalent(vcmp, after.Keys)
    ensures Unambiguous(before, after, SwapCmp(res, failed, vcmp))
  {
    var swap := SwapCmp(res, failed, vcmp);
    forall n1, n2, w | n1 in after && n2 in after && n1 != n2 && Candidate(before, swap, w, n1)
      ensures !Candidate(before, swap, w, n2) && w != n2
    {
      assert vcmp(w, n1) == Same && vcmp(n1, w) == Same;
      assert vcmp(n1, n2) != Same;
    }
  }

  /** A commit never gives a vertex it shut down back to the running graph, and drops no other: what EngineRuns takes for
      granted about the swap. */
  lemma RemovedStayOut(job: Job, s': Snapshot, calls: seq<Call>, lookup: map<Vertex, Vertex>)
    requires Tidy(job.res, job.s) && job.Commits(s', calls, lookup)
    ensures job.s.graph.Keys - s'.graph.Keys == job.Gone(lookup) && s'.graph.Keys - job.s.graph.Keys == job.Come()
    ensures forall v | v in job.s.graph.Keys * s'.graph.Keys :: s'.state[v] == job.s.state[v]
  {
    hide HooksRan, Kinds, Uids, Kept, Additions, Removals;
    GoneAreKnown(job.s.graph, lookup);
    assert job.Gone(lookup) <= job.s.graph.Keys;
  }

  /* ----- reloading what failed ----- */

  /** A vertex whose Worker ended in error and whose resource asks to be rewatched is to be swapped. */
  predicate AsksToReload(job: Job, v: Vertex) {
    v in job.s.state && job.s.state[v].failed && job.res(v).rewatch
  }

  /** The resource's own comparison finds the running `w` equal to the pending `u`. */
  predicate Equal(job: Job, w: Vertex, u: Vertex) {
    w.name == u.name && job.a.vcmp(w, u) == Same
  }

  lemma SwapWhenAsked(job: Job, w: Vertex, u: Vertex)
    ensures AsksToReload(job, w) || AsksToReload(job, u) ==> job.VertexCmp()(w, u) == Different
    ensures !AsksToReload(job, w) && !AsksToReload(job, u) ==> job.VertexCmp()(w, u) == job.a.vcmp(w, u)
  {
  }

  /** Where a pending vertex went: to a running one that is equal, unless either of them asks to be reloaded; and to
      itself, freshly added, if there is none. */
  lemma WhereItWent(job: Job, lookup: map<Vertex, Vertex>, u: Vertex)
    requires Matches(job.s.graph, job.after, job.VertexCmp(), lookup) && u in job.after
    ensures u in lookup
    ensures || (lookup[u] == u && u in job.Come())
            || (lookup[u] in job.s.graph && Equal(job, lookup[u], u) && !AsksToReload(job, lookup[u])
                && !AsksToReload(job, u) && u !in job.Come())
    ensures u in job.Come() <==>
      forall w | w in job.s.graph && w.name == u.name ::
        AsksToReload(job, w) || AsksToReload(job, u) || job.a.vcmp(w, u) == Different
  {
    hide Job.VertexCmp, AsksToReload;
    forall w ensures
        (AsksToReload(job, w) || AsksToReload(job, u) ==> job.VertexCmp()(w, u) == Different)
        && (!AsksToReload(job, w) && !AsksToReload(job, u) ==> job.VertexCmp()(w, u) == job.a.vcmp(w, u))
    {
      SwapWhenAsked(job, w, u);
    }
  }

  lemma CallsAreExact(h: Hook, calls: seq<Call>, gone: set<Vertex>, come: set<Vertex>)
    requires HooksRan(h, calls, gone, come)
    ensures forall v :: (v in gone <==> Remove(v) in calls) && (v in come <==> Add(v) in calls)
  {
    hide AllSucceed;
    OrderedCalls(calls, gone, come);
    forall v ensures (v in gone <==> Remove(v) in calls) && (v in come <==> Add(v) in calls) {
      assert v in Removed(calls) <==> Remove(v) in calls;
      assert v in Added(calls) <==> Add(v) in calls;
    }
  }

  /** After a commit that succeeded, a vertex that asked to be reloaded is gone, also if an equal one was pending. */
  lemma FailedIsReloaded(job: Job, s': Snapshot, calls: seq<Call>, lookup: map<Vertex, Vertex>, cur: Adjacency,
                         keep: set<Edge>, v: Vertex)
    requires job.Outcome(None, s', calls, lookup, cur, keep)
    requires v in job.s.graph && v in job.s.state && job.s.state[v].failed && job.res(v).rewatch
    ensures v !in s'.graph && Remove(v) in calls && v !in s'.state
  {
    hide HooksRan, Additions, Uids, Kinds, Kept, Plan.Synced, Matches, Job.VertexCmp, HookOf, ToldOf;
    CallsAreExact(job.Hook(), calls, job.Gone(lookup), job.Come());
    MatchKeys(job.s.graph, job.after, job.VertexCmp(), lookup);
    forall u | u in lookup ensures lookup[u] != v {
      WhereItWent(job, lookup, u);
      assert u in job.Come() ==> u !in job.s.state.Keys;
    }
    assert v in job.Gone(lookup);
    assert v !in job.Come() && v !in s'.graph.Keys;
  }

  /** Each pending vertex is served: by a running vertex that is equal, stays, keeps its state and is not removed; or, exactly
      when no running vertex is equal without asking to be reloaded, by itself, newly added. */
  lemma PendingIsServed(job: Job, s': Snapshot, calls: seq<Call>, lookup: map<Vertex, Vertex>, cur: Adjacency,
                        keep: set<Edge>, u: Vertex)
    requires job.Outcome(None, s', calls, lookup, cur, keep) && u in job.after
    ensures Add(u) in calls <==>
      forall w | w in job.s.graph && w.name == u.name ::
        AsksToReload(job, w) || AsksToReload(job, u) || job.a.vcmp(w, u) == Different
    ensures Add(u) in calls ==> u in s'.graph && u in s'.state && s'.state[u] == Entry(false, false)
    ensures Add(u) !in calls ==> exists w ::
      && w in job.s.graph && Equal(job, w, u) && !AsksToReload(job, w) && w in s'.graph && Remove(w) !in calls
      && (w in job.s.state ==> w in s'.state && s'.state[w] == job.s.state[w])
  {
    hide HooksRan, Additions, Uids, Kinds, Kept, Plan.Synced, Matches, Job.VertexCmp, HookOf, ToldOf, AsksToReload, Equal;
    CallsAreExact(job.Hook(), calls, job.Gone(lookup), job.Come());
    MatchKeys(job.s.graph, job.after, job.VertexCmp(), lookup);
    WhereItWent(job, lookup, u);
    assert lookup[u] in lookup.Values;
    if u in job.Come() {
      assert u in s'.graph.Keys && u in s'.state.Keys;
    } else {
      var w := lookup[u];
      assert w !in job.Gone(lookup) && w in s'.graph.Keys;
    }
  }

  /** So a running vertex that is the only equal one for some pending vertex stays exactly unless it asks to be reloaded,
      given that the pending one carries no failure of its own. */
  lemma EqualStaysUnlessItAsks(job: Job, s': Snapshot, calls: seq<Call>, lookup: map<Vertex, Vertex>, cur: Adjacency,
                               keep: set<Edge>, w: Vertex, u: Vertex)
    requires job.Outcome(None, s', calls, lookup, cur, keep) && w in job.s.graph && w in job.s.state
    requires u in job.after && w.name == u.name && job.a.vcmp(w, u) == Same
    requires u in job.s.state ==> !job.s.state[u].failed
    requires forall x | x in job.s.graph && x != w && x.name == u.name :: job.a.vcmp(x, u) != Same
    ensures w in s'.graph <==> !(job.s.state[w].failed && job.res(w).rewatch)
    ensures Remove(w) in calls <==> job.s.state[w].failed && job.res(w).rewatch
  {
    hide Job.Outcome;
    if AsksToReload(job, w) {
      FailedIsReloaded(job, s', calls, lookup, cur, keep, w);
    } else {
      PendingIsServed(job, s', calls, lookup, cur, keep, u);
    }
  }

  /* ----- after a failure ----- */

  /** A failed commit that had added a vertex cannot be repeated: the state it left behind makes the add hook fail.  The
      running graph is the old one, so the same vertex is to be added again. */
  lemma RepeatFails(job: Job, s': Snapshot, reason: SyncError, calls: seq<Call>, lookup: map<Vertex, Vertex>,
                    cur: Adjacency, keep: set<Edge>, again: Answers, err: Option<CommitError>, s'': Snapshot,
                    calls': seq<Call>, lookup': map<Vertex, Vertex>)
    requires job.Outcome(Some(SyncFailed(reason)), s', calls, lookup, cur, keep)
    requires Added(Succeeding(job.Hook(), calls)) != {}
    requires again.vcmp == job.a.vcmp
    requires Job(s', job.after, again, job.res).Outcome(err, s'', calls', lookup', cur, keep)
    ensures err.Some?
  {
    hide HooksRan, HooksStopped, Told, SomeCmpFails, SomeEdgeCmpFails, Job.Syncs, StatesSwapped, Additions, Uids, Kinds,
      Removed, AllSucceed, Matches;
    var job' := Job(s', job.after, again, job.res);
    var v :| v in Added(Succeeding(job.Hook(), calls));
    assert v in s'.state.Keys;
    if err == None {
      LeftoverIsWantedAgain(job, s', reason, calls, lookup, v);
      StillWanted(job, job', calls, v);
    }
  }

  lemma LeftoverIsWantedAgain(job: Job, s': Snapshot, reason: SyncError, calls: seq<Call>, lookup: map<Vertex, Vertex>, v: Vertex)
    requires job.SyncFails(reason, calls, lookup) && v in Added(Succeeding(job.Hook(), calls))
    ensures v in job.Come()
  {
    hide AllSucceed, SomeCmpFails, SomeEdgeCmpFails, Additions, Removals;
    match reason
    case VertexCmpFailed =>
    case MissingVertex =>
    case _ =>
      OrderedCalls(calls, job.Gone(lookup), job.Come());
      assert v in Added(calls);
  }

  lemma StillWanted(job: Job, job': Job, calls: seq<Call>, v: Vertex)
    requires job'.s.graph == job.s.graph && job'.after == job.after && job'.res == job.res && job'.a.vcmp == job.a.vcmp
    requires Told(job.s.state, job'.s.state, calls) && v in job.Come()
    ensures v in job'.Come()
  {
    assert forall w | w in FailedWorkers(job.s.state) :: w in FailedWorkers(job'.s.state);
    forall w | w in job.s.graph && w.name == v.name ensures job'.VertexCmp()(w, v) == Different {
      assert job.VertexCmp()(w, v) == Different;
    }
  }

  /** A failed commit that had removed a vertex keeps it from ever being removed again: no later commit without it
      succeeds, in particular no shutdown. */
  lemma RemovalCannotBeRepeated(job: Job, s': Snapshot, reason: SyncError, calls: seq<Call>, lookup: map<Vertex, Vertex>,
                                cur: Adjacency, keep: set<Edge>, v: Vertex, later: Job, err: Option<CommitError>,
                                s'': Snapshot, calls': seq<Call>, lookup': map<Vertex, Vertex>)
    requires job.s.graph.Keys <= job.s.state.Keys
    requires job.Outcome(Some(SyncFailed(reason)), s', calls, lookup, cur, keep) && v in Removed(calls)
    requires later.s == s' && later.Outcome(err, s'', calls', lookup', cur, keep)
    ensures v in s'.graph && v in ToldOf(s'.state)
    ensures v in later.Gone(lookup') ==> err != None
    ensures later.after == map[] ==> err != None
  {
    hide HooksRan, HooksStopped, SomeCmpFails, SomeEdgeCmpFails, Job.Syncs, StatesSwapped, Additions, Removals, Uids, Kinds,
      Added, AllSucceed, Matches;
    RemovedWasThere(job, reason, calls, lookup, v);
    assert Remove(v) in calls;
    if later.after == map[] {
      EmptyOutcome(later, err, s'', calls', lookup', cur, keep);
    }
  }

  lemma RemovedWasThere(job: Job, reason: SyncError, calls: seq<Call>, lookup: map<Vertex, Vertex>, v: Vertex)
    requires job.SyncFails(reason, calls, lookup) && v in Removed(calls)
    ensures v in job.s.graph
  {
    hide AllSucceed, SomeCmpFails, SomeEdgeCmpFails, Additions;
    match reason
    case VertexCmpFailed =>
    case MissingVertex =>
    case _ => OrderedCalls(calls, job.Gone(lookup), job.Come());
  }
}
