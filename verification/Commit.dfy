/** Commit: swap the running graph for the pending one, and with it the per-vertex states, the retry counters and the
    background functions.

    The hooks that Commit hands to GraphSync are modelled in two parts: the answer each run gives, and its effect on the
    engine, which is applied in the order in which GraphSync ran them. */
module Commit {
  import opened Vertices
  import opened Digraphs
  import opened PointerGraph
  import opened Synchronize
  import opened Sorts

  /** What Commit asks a vertex's resource. */
  datatype Res = Res(kind: string, name: string, hidden: bool, background: bool, rewatch: bool)

  datatype Uid = Uid(kind: string, name: string)

  /** The state of one vertex: whether its Worker ended in error, and whether it was told to go; telling it again would
      close a closed channel. */
  datatype Entry = Entry(failed: bool, told: bool)

  /** What the outside answers during one Commit. */
  datatype Answers = Answers(
    validates: Vertex -> bool,
    inits: Vertex -> bool,
    cleansUp: Vertex -> bool,
    vcmp: VertexCmp,
    ecmp: EdgeCmp,
    backgroundStarts: string -> bool)

  datatype CommitError = SyncFailed(reason: SyncError) | Panicked | BackgroundFailed

  function UidOf(res: Vertex -> Res, v: Vertex): Uid {
    Uid(res(v).kind, res(v).name)
  }

  /** The identities of the resources in `s` that are not hidden. */
  function Uids(res: Vertex -> Res, s: set<Vertex>): set<Uid> {
    set v | v in s && !res(v).hidden :: UidOf(res, v)
  }

  /** The kinds in `s` that need a background function. */
  function Kinds(res: Vertex -> Res, s: set<Vertex>): set<string> {
    set v | v in s && !res(v).hidden && res(v).background :: res(v).kind
  }

  function Added(calls: seq<Call>): set<Vertex> {
    set c: Call | c in calls && c.Add? :: c.v
  }

  function Removed(calls: seq<Call>): set<Vertex> {
    set c: Call | c in calls && c.Remove? :: c.v
  }

  /** Which identities are in use after the hooks ran. */
  function Active(res: Vertex -> Res, active: set<Uid>, calls: seq<Call>): set<Uid>
    decreases |calls|
  {
    if calls == [] then active
    else
      var before := Active(res, active, calls[..|calls| - 1]);
      match calls[|calls| - 1]
      case Remove(v) => if res(v).hidden then before else before - {UidOf(res, v)}
      case Add(v) => if res(v).hidden then before else before + {UidOf(res, v)}
  }

  /** Resources that failed are swapped even for an equal one if either asks to be rewatched. */
  function SwapCmp(res: Vertex -> Res, failed: set<Vertex>, vcmp: VertexCmp): VertexCmp {
    (w: Vertex, v: Vertex) =>
      if (w in failed && res(w).rewatch) || (v in failed && res(v).rewatch) then Different else vcmp(w, v)
  }

  function FailedWorkers(state: map<Vertex, Entry>): set<Vertex> {
    set v | v in state && state[v].failed
  }

  /** The vertices that an earlier commit told to go. */
  function ToldOf(state: map<Vertex, Entry>): set<Vertex> {
    set v | v in state && state[v].told
  }

  /** Whether a hook run succeeds; removing a vertex that was told to go before panics. */
  function HookOf(state: map<Vertex, Entry>, a: Answers): Hook {
    (history: seq<Call>, c: Call) =>
      match c
      case Remove(v) => v !in ToldOf(state) && a.cleansUp(v)
      case Add(v) => v !in state && c !in history && a.validates(v) && a.inits(v)
  }

  /** The last hook run is the removal of a vertex that was told to go before. */
  predicate PanicsAt(state: map<Vertex, Entry>, calls: seq<Call>) {
    calls != [] && calls[|calls| - 1].Remove? && calls[|calls| - 1].v in ToldOf(state)
  }

  /** The running graph and everything the engine keeps per vertex, per identity and per kind. */
  datatype Snapshot = Snapshot(graph: Adjacency, state: map<Vertex, Entry>, waits: set<Vertex>, metas: map<Uid, int>,
                               bgState: set<string>)

  /** States, wait groups and graph have the same vertices, nobody was told to go, and exactly the background functions
      they need run. */
  ghost predicate Tidy(res: Vertex -> Res, s: Snapshot) {
    && s.state.Keys == s.graph.Keys && s.waits == s.graph.Keys && ToldOf(s.state) == {}
    && s.bgState == Kinds(res, s.graph.Keys)
  }

  /** One commit: the engine before it, the pending graph, and what the outside answers.  `lookup`, `cur` and `keep`
      below are what GraphSync works out, and `calls` the hooks it runs. */
  datatype Job = Job(s: Snapshot, after: Adjacency, a: Answers, res: Vertex -> Res) {

    function VertexCmp(): VertexCmp {
      SwapCmp(res, FailedWorkers(s.state), a.vcmp)
    }

    function Hook(): Hook {
      HookOf(s.state, a)
    }

    ghost function Gone(lookup: map<Vertex, Vertex>): set<Vertex> {
      Removals(s.graph, lookup)
    }

    ghost function Come(): set<Vertex> {
      Additions(s.graph, after, VertexCmp())
    }

    /** `final` is a result of GraphSync for the two graphs. */
    ghost predicate Syncs(lookup: map<Vertex, Vertex>, cur: Adjacency, keep: set<Edge>, final: Adjacency) {
      Matches(s.graph, after, VertexCmp(), lookup) && Plan(s.graph, after, lookup, a.ecmp).Synced(cur, keep, final)
    }

    /** Why a sync fails, and how far the hooks get. */
    ghost predicate SyncFails(reason: SyncError, calls: seq<Call>, lookup: map<Vertex, Vertex>) {
      match reason
      case VertexCmpFailed => calls == [] && SomeCmpFails(s.graph, after, VertexCmp())
      case RemoveFailed =>
        HooksStopped(Hook(), calls, Gone(lookup), Come()) && calls[|calls| - 1].Remove? && !PanicsAt(s.state, calls)
      case AddFailed => HooksStopped(Hook(), calls, Gone(lookup), Come()) && calls[|calls| - 1].Add?
      case EdgeCmpFailed => HooksRan(Hook(), calls, Gone(lookup), Come()) && SomeEdgeCmpFails(s.graph, after, a.ecmp)
      case MissingVertex => false
    }

    /** The sync ends in a panic: some vertex was told to go before. */
    ghost predicate SyncPanics(calls: seq<Call>, lookup: map<Vertex, Vertex>) {
      HooksStopped(Hook(), calls, Gone(lookup), Come()) && PanicsAt(s.state, calls)
    }

    /** The sync went through and all hooks ran, one for each vertex that differs; nothing is freed yet. */
    ghost predicate Switches(calls: seq<Call>, lookup: map<Vertex, Vertex>, final: Adjacency, now: map<Vertex, Entry>) {
      && HooksRan(Hook(), calls, Gone(lookup), Come())
      && Added(calls) == Come() && Removed(calls) == Gone(lookup)
      && Come() !! s.state.Keys && Gone(lookup) <= s.graph.Keys <= s.state.Keys
      && final.Keys == s.graph.Keys - Gone(lookup) + Come()
      && now.Keys == s.state.Keys + Come() && Told(s.state, now, calls)
    }

    /** What a commit leaves behind, whether it succeeds or not. */
    ghost predicate Outcome(err: Option<CommitError>, s': Snapshot, calls: seq<Call>, lookup: map<Vertex, Vertex>,
                            cur: Adjacency, keep: set<Edge>) {
      if err == None then
        Syncs(lookup, cur, keep, s'.graph) && Commits(s', calls, lookup) && BackgroundsStart(s'.graph.Keys)
      else if err == Some(BackgroundFailed) then
        // the graphs are swapped, but nothing is freed and no new Worker is started
        Syncs(lookup, cur, keep, s'.graph) && Switches(calls, lookup, s'.graph, s'.state) && !BackgroundsStart(s'.graph.Keys)
      else
        && (if err == Some(Panicked) then SyncPanics(calls, lookup) else SyncFails(err.value.reason, calls, lookup))
        && Told(s.state, s'.state, calls)
        && s'.state.Keys == s.state.Keys + Added(Succeeding(Hook(), calls))
        && s'.graph == s.graph && s'.metas == s.metas && s'.bgState == s.bgState
    }

    /** What the vertices need in the background runs already or can be started. */
    ghost predicate BackgroundsStart(vertices: set<Vertex>) {
      forall kind | kind in Kinds(res, vertices) :: kind in s.bgState || a.backgroundStarts(kind)
    }

    /** The engine after a commit that succeeded. */
    ghost predicate Commits(s': Snapshot, calls: seq<Call>, lookup: map<Vertex, Vertex>) {
      && HooksRan(Hook(), calls, Gone(lookup), Come()) && Come() !! s.state.Keys && Gone(lookup) !! ToldOf(s.state)
      && s'.graph.Keys == s.graph.Keys - Gone(lookup) + Come()
      && StatesSwapped(s.state, s'.state, Gone(lookup), Come())
      && s'.waits == s.waits + Come() - Gone(lookup)
      && s'.metas == Kept(s.metas, Uids(res, s.state.Keys) - Uids(res, Gone(lookup)) + Uids(res, Come()))
      && s'.bgState == s.bgState + Kinds(res, s'.graph.Keys) - (Kinds(res, s.state.Keys) - Kinds(res, s'.graph.Keys))
    }
  }

  class Engine {
    const res: Vertex -> Res
    var state: map<Vertex, Entry>
    var waits: set<Vertex>
    var metas: map<Uid, int>
    var bgState: set<string>
    var graph: Graph
    var nextGraph: Graph?
    var paused: bool
    var isClosing: bool

    ghost predicate Valid()
      reads this, graph, if nextGraph == null then {} else {nextGraph}
    {
      && graph.Valid() && (nextGraph != null ==> nextGraph.Valid())
      && graph.adjacency.Keys <= state.Keys
    }

    ghost function Contents(): Snapshot
      reads this, graph
    {
      Snapshot(graph.adjacency, state, waits, metas, bgState)
    }

    constructor (res: Vertex -> Res)
      ensures Valid() && Tidy(res, Contents()) && this.res == res && nextGraph == null && paused && !isClosing
      ensures fresh(graph) && graph.adjacency == map[] && metas == map[]
    {
      this.res := res;
      state, waits, metas, bgState := map[], {}, map[], {};
      graph := new Graph("graph");
      nextGraph, paused, isClosing := null, true, false;
    }

    /** A pending graph is never overwritten. */
    method Load(newGraph: Graph) returns (ok: bool)
      requires Valid() && newGraph.Valid()
      modifies this`nextGraph
      ensures Valid() && ok == (old(nextGraph) == null)
      ensures nextGraph == if ok then newGraph else old(nextGraph)
    {
      if nextGraph != null { return false; }
      nextGraph := newGraph;
      ok := true;
    }

    method Abort() returns (ok: bool)
      requires Valid()
      modifies this`nextGraph
      ensures Valid() && ok == (old(nextGraph) != null) && nextGraph == null
    {
      if nextGraph == null { return false; }
      nextGraph := null;
      ok := true;
    }

    /** What is in use before the commit. */
    method Survey() returns (kinds: set<string>, active: set<Uid>)
      ensures kinds == Kinds(res, state.Keys) && active == Uids(res, state.Keys)
    {
      kinds, active := {}, {};
      var rest := state.Keys;
      while rest != {}
        invariant rest <= state.Keys
        invariant kinds == Kinds(res, state.Keys - rest) && active == Uids(res, state.Keys - rest)
      {
        var v :| v in rest;
        assert state.Keys - (rest - {v}) == state.Keys - rest + {v};
        OneMoreVertex(res, state.Keys - rest, v);
        rest := rest - {v};
        if res(v).hidden { continue; }
        if res(v).background {
          kinds := kinds + {res(v).kind};
        }
        active := active + {UidOf(res, v)};
      }
      assert state.Keys - rest == state.Keys;
    }

    /** The effect of one run of the add hook. */
    method AddVertex(v: Vertex, a: Answers, active: set<Uid>) returns (ok: bool, active': set<Uid>)
      modifies this`state, this`waits
      ensures ok == (v !in old(state) && a.validates(v) && a.inits(v))
      ensures state == if ok then old(state)[v := Entry(false, false)] else old(state)
      ensures waits == old(waits) + if v !in old(state) && a.validates(v) then {v} else {}
      ensures ok ==> active' == if res(v).hidden then active else active + {UidOf(res, v)}
    {
      active' := active;
      if v in state { return false, active; }
      if !res(v).hidden {
        active' := active' + {UidOf(res, v)};
      }
      if !a.validates(v) { return false, active'; }
      waits := waits + {v};
      if !a.inits(v) { return false, active'; }
      state := state[v := Entry(false, false)];
      ok := true;
    }

    /** The effect of one run of the remove hook; what it frees is freed later.  Closing a closed channel panics. */
    method RemoveVertex(v: Vertex, a: Answers, active: set<Uid>) returns (ok: bool, panicked: bool, active': set<Uid>)
      requires v in state
      modifies this`state
      ensures panicked == old(state)[v].told && ok == (!panicked && a.cleansUp(v))
      ensures state == old(state)[v := old(state)[v].(told := true)]
      ensures active' == if res(v).hidden then active else active - {UidOf(res, v)}
    {
      active' := active;
      if !res(v).hidden {
        active' := active' - {UidOf(res, v)};
      }
      panicked := state[v].told;
      if panicked { return false, true, active'; }
      state := state[v := state[v].(told := true)];
      ok := a.cleansUp(v);
    }

    /** The effects of the hooks, in the order they ran; only the last one may have failed. */
    method ApplyHooks(calls: seq<Call>, a: Answers, active: set<Uid>) returns (ok: bool, panicked: bool, active': set<Uid>)
      requires Distinct(calls) && forall c | c in calls && c.Remove? :: c.v in state
      requires var h := HookOf(state, a); AllSucceed(h, calls) || FailsAtLast(h, calls)
      modifies this`state, this`waits
      ensures ok == AllSucceed(HookOf(old(state), a), calls) && panicked == (!ok && PanicsAt(old(state), calls))
      ensures state.Keys == old(state).Keys + Added(Succeeding(HookOf(old(state), a), calls))
      ensures ok ==> waits == old(waits) + Added(calls)
      ensures Told(old(state), state, calls)
      ensures ok ==> active' == Active(res, active, calls)
    {
      hide AllSucceed, FailsAtLast, Told, Active, Added, Succeeding, Distinct;
      ghost var known := state.Keys;
      ghost var first := state;
      ghost var h := HookOf(first, a);
      active', panicked := active, false;
      var n := 0;
      StartOfTrace(res, active, state, calls, h);
      while n < |calls|
        invariant n <= |calls|
        invariant state.Keys == known + Added(calls[..n]) && waits == old(waits) + Added(calls[..n])
        invariant Told(old(state), state, calls[..n])
        invariant active' == Active(res, active, calls[..n])
        invariant AllSucceed(h, calls[..n]) && !panicked
        decreases |calls| - n
      {
        var c := calls[n];
        assert calls[..n + 1] == calls[..n] + [c];
        ghost var was := state;
        AddedSoFar(known, calls, n);
        StillTold(first, state, calls, n);
        match c {
          case Add(v) => ok, active' := AddVertex(v, a, active');
          case Remove(v) => ok, panicked, active' := RemoveVertex(v, a, active');
        }
        assert ok == h(calls[..n], c);
        ToldMore(old(state), was, state, calls, n);
        if !ok {
          FailureIsLast(h, calls, n);
          return;
        }
        AllSucceedOneMore(h, calls[..n], c);
        ActiveMore(res, active, calls[..n], c);
        AddedMore(calls[..n], c);
        n := n + 1;
      }
      assert calls[..n] == calls;
      AllCounted(h, calls);
      ok := true;
    }

    /** Forgets the retry counters that nobody uses any more. */
    method CollectMetas(active: set<Uid>)
      modifies this`metas
      ensures metas == map u | u in old(metas) && u in active :: old(metas)[u]
    {
      var metaGC := {};
      var rest := metas.Keys;
      while rest != {}
        invariant rest <= metas.Keys && metaGC == metas.Keys - rest - active
      {
        var u :| u in rest;
        rest := rest - {u};
        if u !in active {
          metaGC := metaGC + {u};
        }
      }
      metas := metas - metaGC;
    }

    /** Starts a background function unless it runs already. */
    method StartBackground(kind: string, a: Answers) returns (ok: bool)
      modifies this`bgState
      ensures ok == (kind in old(bgState) || a.backgroundStarts(kind))
      ensures bgState == if ok then old(bgState) + {kind} else old(bgState)
    {
      if kind in bgState { return true; }
      bgState := bgState + {kind};
      ok := a.backgroundStarts(kind);
      if !ok {
        bgState := bgState - {kind};
      }
    }

    method StopBackground(kind: string)
      modifies this`bgState
      ensures bgState == old(bgState) - {kind}
    {
      if kind !in bgState { return; }
      bgState := bgState - {kind};
    }

    /** Starts what the new graph needs; `kinds` comes back without what is still needed. */
    method StartBackgrounds(a: Answers, kinds: set<string>) returns (ok: bool, kinds': set<string>)
      modifies this`bgState
      ensures ok <==> forall k | k in Kinds(res, graph.adjacency.Keys) :: k in old(bgState) || a.backgroundStarts(k)
      ensures old(bgState) <= bgState <= old(bgState) + Kinds(res, graph.adjacency.Keys)
      ensures ok ==> bgState == old(bgState) + Kinds(res, graph.adjacency.Keys)
      ensures ok ==> kinds' == kinds - Kinds(res, graph.adjacency.Keys)
    {
      hide Kinds;
      kinds' := kinds;
      var vertices := Listing(graph.adjacency.Keys);
      NoKinds(res);
      for i := 0 to |vertices|
        invariant bgState == old(bgState) + Kinds(res, Elements(vertices[..i]))
        invariant kinds' == kinds - Kinds(res, Elements(vertices[..i]))
        invariant forall k | k in Kinds(res, Elements(vertices[..i])) :: k in old(bgState) || a.backgroundStarts(k)
      {
        var v := vertices[i];
        KindsOfPrefix(res, graph.adjacency.Keys, vertices, i);
        if !res(v).background || res(v).hidden { continue; }
        ok := StartBackground(res(v).kind, a);
        if !ok { return; }
        kinds' := kinds' - {res(v).kind};
      }
      assert vertices[..|vertices|] == vertices;
      ok := true;
    }

    /** Stops what is left over from the old graph. */
    method StopBackgrounds(kinds: set<string>)
      modifies this`bgState
      ensures bgState == old(bgState) - kinds
    {
      var rest := kinds;
      while rest != {}
        invariant rest <= kinds && bgState == old(bgState) - (kinds - rest)
      {
        var kind :| kind in rest;
        StopBackground(kind);
        rest := rest - {kind};
      }
    }

    /** Drops the states and wait groups of what was removed. */
    method Free(gone: set<Vertex>)
      modifies this`state, this`waits
      ensures state == old(state) - gone && waits == old(waits) - gone
    {
      var rest := gone;
      while rest != {}
        invariant rest <= gone && state == old(state) - (gone - rest) && waits == old(waits) - (gone - rest)
      {
        var v :| v in rest;
        state := state - {v};
        waits := waits - {v};
        rest := rest - {v};
        assert gone - rest - {v} + {v} == gone - rest;
      }
    }

    /** The sync and the effects of its hooks. */
    method Switch(a: Answers, used: set<Uid>, ghost job: Job)
      returns (err: Option<SyncError>, panicked: bool, calls: seq<Call>, active: set<Uid>, lookup: map<Vertex, Vertex>,
               ghost cur: Adjacency, keep: set<Edge>)
      requires Valid() && nextGraph != null && job == Job(Contents(), nextGraph.adjacency, a, res)
      modifies this`state, this`waits, graph
      ensures graph.Valid() && nextGraph.Valid()
      ensures Told(old(state), state, calls)
      ensures state.Keys == old(state).Keys + Added(Succeeding(job.Hook(), calls))
      ensures err.Some? ==> unchanged(graph)
      ensures err.Some? ==> if panicked then job.SyncPanics(calls, lookup) else job.SyncFails(err.value, calls, lookup)
      ensures err == None ==> job.Syncs(lookup, cur, keep, graph.adjacency)
      ensures err == None ==> job.Switches(calls, lookup, graph.adjacency, state)
      ensures err == None ==> waits == old(waits) + Added(calls) && active == Active(res, used, calls)
    {
      hide Transposed, HooksRan, HooksStopped, AllSucceed, FailsAtLast, Matches, Plan.Synced, Additions, Removals, Added,
        Removed, Told, Active, Succeeding, SomeCmpFails, SomeEdgeCmpFails;
      err, calls, lookup, cur, keep :=
        GraphSync(graph, nextGraph, SwapCmp(res, FailedWorkers(state), a.vcmp), a.ecmp, HookOf(state, a));
      TraceIsApplicable(job.Hook(), job.Gone(lookup), job.Come(), err, calls);
      GoneAreKnown(job.s.graph, lookup);
      RemovedOnes(calls);
      var ok;
      ok, panicked, active := ApplyHooks(calls, a, used);
      if err == None {
        KeysAfterSync(Plan(job.s.graph, job.after, lookup, a.ecmp), job.VertexCmp(), cur, keep, graph.adjacency);
        NewcomersAreNew(job.s.state, a, calls);
        AllCounted(job.Hook(), calls);
      }
    }

    /** Swaps the graphs.  The pending graph stays pending if that fails; a failure of the sync leaves the running graph
        alone, but not the states that the hooks touched until then. */
    method Commit(a: Answers)
      returns (err: Option<CommitError>, calls: seq<Call>, lookup: map<Vertex, Vertex>, ghost cur: Adjacency, keep: set<Edge>)
      requires Valid() && nextGraph != null
      modifies this, graph
      ensures Valid() && graph == old(graph) && paused == old(paused) && isClosing == old(isClosing)
      ensures nextGraph == if err == None then null else old(nextGraph)
      ensures old(Job(Contents(), nextGraph.adjacency, a, res)).Outcome(err, Contents(), calls, lookup, cur, keep)
    {
      hide Transposed, Told, Kinds, Uids, Added, Removed, Active, Succeeding, Job.Syncs, Job.SyncFails, Job.SyncPanics,
        Job.Switches, Job.Commits;
      ghost var job := Job(Contents(), nextGraph.adjacency, a, res);
      var kinds, active := Survey();
      ghost var used := active;
      var syncErr, panicked;
      syncErr, panicked, calls, active, lookup, cur, keep := Switch(a, active, job);
      if syncErr.Some? && panicked {
        err := Some(Panicked);
        return;
      }
      if syncErr.Some? {
        err := Some(SyncFailed(syncErr.value));
        return;
      }
      ghost var now, waited := state, waits;
      SwitchKeepsStates(job, calls, lookup, graph.adjacency, now);
      CollectMetas(active);
      var ok;
      ok, kinds := StartBackgrounds(a, kinds);
      if !ok {
        err := Some(BackgroundFailed);
        return;
      }
      Free(Removed(calls));
      nextGraph := null;
      StopBackgrounds(kinds);
      err := None;
      SwitchCommits(job, calls, lookup, used, now, waited, Contents());
    }

    /** A commit of an empty graph; but if another graph is pending, that one is committed instead. */
    method Shutdown(a: Answers) returns (unpaused: bool, loaded: bool, err: Option<CommitError>, background: nat)
      requires Valid()
      modifies this, graph
      ensures Valid() && isClosing && graph == old(graph)
      ensures unpaused == (!old(paused) && old(state) != map[])
      ensures loaded == (old(nextGraph) == null) && background == |bgState|
      ensures loaded ==>
        (err == None <==> forall v | v in old(graph.adjacency) :: v !in ToldOf(old(state)) && a.cleansUp(v))
      ensures loaded && err == None ==> ShutsDown(res, old(Contents()), Contents()) && nextGraph == null
      ensures !loaded && err == None ==> (|graph.adjacency| == 0 <==> |old(nextGraph).adjacency| == 0)
    {
      hide Job.Outcome, ShutsDown, Transposed;
      isClosing := true;
      var empty := new Graph("empty");
      unpaused := !paused && |state| > 0;
      loaded := Load(empty);
      ghost var job := Job(Contents(), nextGraph.adjacency, a, res);
      var calls, lookup, keep;
      ghost var cur;
      err, calls, lookup, cur, keep := Commit(a);
      background := |bgState|;
      if loaded {
        EmptyOutcome(job, err, Contents(), calls, lookup, cur, keep);
      } else if err == None {
        OutcomeEmptiness(job, Contents(), calls, lookup, cur, keep);
      }
    }
  }

  lemma OutcomeEmptiness(job: Job, s': Snapshot, calls: seq<Call>, lookup: map<Vertex, Vertex>, cur: Adjacency, keep: set<Edge>)
    requires job.Outcome(None, s', calls, lookup, cur, keep)
    ensures |s'.graph| == 0 <==> |job.after| == 0
  {
    hide Job.Syncs, Job.Commits;
    SameEmptiness(job, lookup, cur, keep, s'.graph);
  }

  /** Committing an empty graph succeeds exactly when no resource was told to go before and every one cleans up. */
  lemma EmptyOutcome(job: Job, err: Option<CommitError>, s': Snapshot, calls: seq<Call>, lookup: map<Vertex, Vertex>,
                     cur: Adjacency, keep: set<Edge>)
    requires job.after == map[] && job.Outcome(err, s', calls, lookup, cur, keep)
    ensures err == None <==> forall v | v in job.s.graph :: v !in ToldOf(job.s.state) && job.a.cleansUp(v)
    ensures err == None ==> ShutsDown(job.res, job.s, s')
  {
    hide Job.Syncs, Job.Commits, Job.Switches, Job.SyncFails, Job.SyncPanics, Told, Kinds, ToldOf;
    if err == None {
      EmptyCommits(job, s', calls, lookup, cur, keep);
    } else if err == Some(BackgroundFailed) {
      SameEmptiness(job, lookup, cur, keep, s'.graph);
      NothingIdentified(job.res);
    } else {
      EmptyFails(job, err.value, calls, lookup);
    }
  }

  lemma SameEmptiness(job: Job, lookup: map<Vertex, Vertex>, cur: Adjacency, keep: set<Edge>, final: Adjacency)
    requires job.Syncs(lookup, cur, keep, final)
    ensures |final| == 0 <==> |job.after| == 0
    ensures final.Keys == lookup.Values && lookup.Keys == job.after.Keys
  {
    assert final.Keys == lookup.Values && lookup.Keys == job.after.Keys;
    if x :| x in lookup {
      assert lookup[x] in lookup.Values;
    } else {
      assert lookup.Values == {};
    }
    assert |final| == |final.Keys| && |job.after| == |job.after.Keys|;
  }

  /** Committing an empty graph removes everything, which takes every resource to clean up. */
  lemma EmptyCommits(job: Job, s': Snapshot, calls: seq<Call>, lookup: map<Vertex, Vertex>, cur: Adjacency, keep: set<Edge>)
    requires job.after == map[] && job.Syncs(lookup, cur, keep, s'.graph) && job.Commits(s', calls, lookup)
    ensures ShutsDown(job.res, job.s, s')
    ensures forall v | v in job.s.graph :: v !in ToldOf(job.s.state) && job.a.cleansUp(v)
  {
    hide Job.Syncs, StatesSwapped, HooksRan, Uids, Kinds, Additions, Removals, Kept, ShutsDown, HookOf, SwapCmp, FailedWorkers;
    SameEmptiness(job, lookup, cur, keep, s'.graph);
    NothingToAdd(job);
    EverythingGoes(job.s.graph, lookup);
    AllSwapped(job.s.state, s'.state, job.s.graph.Keys);
    NothingIdentified(job.res);
    EmptyTables(job.res, job.s, s');
    RemovedSucceed(job.s.state, job.a, calls, job.s.graph.Keys, {});
  }

  lemma EverythingGoes(before: Adjacency, lookup: map<Vertex, Vertex>)
    requires lookup.Keys == {}
    ensures Removals(before, lookup) == before.Keys
  {
    assert lookup.Values == {};
  }

  lemma NoneLeftOver(u: set<Uid>, w: set<Uid>)
    ensures u == w ==> u - w + {} == {}
  {
  }

  lemma TablesShutDown(res: Vertex -> Res, s: Snapshot, s': Snapshot)
    requires |s'.graph| == 0 && s'.state == s.state - s.graph.Keys && s'.waits == s.waits + {} - s.graph.Keys
    requires s'.bgState == s.bgState + {} - (Kinds(res, s.state.Keys) - {})
    requires s.state.Keys == s.graph.Keys ==> s'.metas == map[]
    ensures ShutsDown(res, s, s')
  {
    hide Kinds;
    assert s'.graph == map[];
    assert s'.waits == s.waits - s.graph.Keys;
    assert s'.bgState == s.bgState - Kinds(res, s.state.Keys);
  }

  lemma EmptyTables(res: Vertex -> Res, s: Snapshot, s': Snapshot)
    requires |s'.graph| == 0 && s'.state == s.state - s.graph.Keys && s'.waits == s.waits + {} - s.graph.Keys
    requires s'.metas == Kept(s.metas, Uids(res, s.state.Keys) - Uids(res, s.graph.Keys) + {})
    requires s'.bgState == s.bgState + {} - (Kinds(res, s.state.Keys) - {})
    ensures ShutsDown(res, s, s')
  {
    hide *;
    NothingKept(s.metas);
    NoneLeftOver(Uids(res, s.state.Keys), Uids(res, s.graph.Keys));
    TablesShutDown(res, s, s');
  }

  lemma NothingKept(metas: map<Uid, int>)
    ensures Kept(metas, {}) == map[]
  {
  }

  lemma NothingIdentified(res: Vertex -> Res)
    ensures Kinds(res, {}) == {} && Uids(res, {}) == {}
  {
  }

  lemma AllSwapped(was: map<Vertex, Entry>, now: map<Vertex, Entry>, gone: set<Vertex>)
    requires StatesSwapped(was, now, gone, {})
    ensures now == was - gone
  {
  }

  lemma RemovedSucceed(state: map<Vertex, Entry>, a: Answers, calls: seq<Call>, gone: set<Vertex>, come: set<Vertex>)
    requires HooksRan(HookOf(state, a), calls, gone, come)
    ensures forall v | v in gone :: v !in ToldOf(state) && a.cleansUp(v)
  {
    OrderedCalls(calls, gone, come);
    forall v | v in gone ensures v !in ToldOf(state) && a.cleansUp(v) {
      assert v in Removed(calls);
      var i :| 0 <= i < |calls| && calls[i] == Remove(v);
      assert HookOf(state, a)(calls[..i], calls[i]);
    }
  }

  lemma EmptyFails(job: Job, err: CommitError, calls: seq<Call>, lookup: map<Vertex, Vertex>)
    requires job.after == map[]
    requires !err.BackgroundFailed?
    requires if err == Panicked then job.SyncPanics(calls, lookup) else job.SyncFails(err.reason, calls, lookup)
    ensures exists v :: v in job.s.graph && !(v !in ToldOf(job.s.state) && job.a.cleansUp(v))
  {
    hide HooksStopped, HooksRan, SomeCmpFails, SomeEdgeCmpFails, Additions, Removals;
    NothingToAdd(job);
    NothingToCompare(job.s.graph, job.VertexCmp(), job.a.ecmp);
    GoneAreKnown(job.s.graph, lookup);
    if HooksStopped(job.Hook(), calls, job.Gone(lookup), {}) {
      StoppedByRemoval(job.s.state, job.a, calls, job.Gone(lookup));
    }
  }

  lemma NothingToAdd(job: Job)
    requires job.after == map[]
    ensures job.Come() == {}
  {
  }

  lemma NothingToCompare(before: Adjacency, vcmp: VertexCmp, ecmp: EdgeCmp)
    ensures !SomeCmpFails(before, map[], vcmp) && !SomeEdgeCmpFails(before, map[], ecmp)
  {
    assert EdgeObjects(map[]) == {};
  }

  lemma StoppedByRemoval(state: map<Vertex, Entry>, a: Answers, calls: seq<Call>, gone: set<Vertex>)
    requires HooksStopped(HookOf(state, a), calls, gone, {})
    ensures exists v :: v in gone && !(v !in ToldOf(state) && a.cleansUp(v))
  {
    hide AllSucceed;
    OrderedCalls(calls, gone, {});
    var last := calls[|calls| - 1];
    forall c | c in calls ensures c.Remove? && c.v in Removed(calls) {
      assert c.Add? ==> c.v in Added(calls);
    }
    assert last in calls;
  }

  ghost predicate ShutsDown(res: Vertex -> Res, s: Snapshot, s': Snapshot) {
    && s'.graph == map[] && s'.state == s.state - s.graph.Keys && s'.waits == s.waits - s.graph.Keys
    && s'.bgState == s.bgState - Kinds(res, s.state.Keys)
    && (Tidy(res, s) ==> s'.metas == map[])
  }

  /** Freeing does not take a Worker's state away from a graph that needs it. */
  lemma SwitchKeepsStates(job: Job, calls: seq<Call>, lookup: map<Vertex, Vertex>, final: Adjacency, now: map<Vertex, Entry>)
    requires job.Switches(calls, lookup, final, now)
    ensures final.Keys <= now.Keys && final.Keys !! Removed(calls)
  {
    hide HooksRan, Told, Added, Removed;
  }

  lemma SwitchCommits(job: Job, calls: seq<Call>, lookup: map<Vertex, Vertex>, used: set<Uid>, now: map<Vertex, Entry>,
                      waited: set<Vertex>, s': Snapshot)
    requires job.Switches(calls, lookup, s'.graph, now) && waited == job.s.waits + Added(calls)
    requires used == Uids(job.res, job.s.state.Keys)
    requires s'.state == now - Removed(calls) && s'.waits == waited - Removed(calls)
    requires s'.metas == Kept(job.s.metas, Active(job.res, used, calls))
    requires s'.bgState == job.s.bgState + Kinds(job.res, s'.graph.Keys)
                         - (Kinds(job.res, job.s.state.Keys) - Kinds(job.res, s'.graph.Keys))
    ensures job.Commits(s', calls, lookup)
  {
    hide HooksRan, Told, StatesSwapped, Active, Uids, Kinds, Added, Removed, HookOf, ToldOf;
    RemovedSucceed(job.s.state, job.a, calls, job.Gone(lookup), job.Come());
    UsedAfterHooks(job.res, used, job.Hook(), calls, job.Gone(lookup), job.Come());
    SwappedStates(job.s.state, now, calls);
  }

  lemma AllCounted(h: Hook, calls: seq<Call>)
    requires AllSucceed(h, calls)
    ensures Succeeding(h, calls) == calls
  {
  }

  lemma GoneAreKnown(before: Adjacency, lookup: map<Vertex, Vertex>)
    ensures Removals(before, lookup) <= before.Keys
  {
  }

  lemma UsedAfterHooks(res: Vertex -> Res, active: set<Uid>, h: Hook, calls: seq<Call>, gone: set<Vertex>, come: set<Vertex>)
    requires HooksRan(h, calls, gone, come)
    ensures Active(res, active, calls) == active - Uids(res, gone) + Uids(res, come)
  {
    hide Active, Uids, AllSucceed;
    ActiveAfterHooks(res, active, calls, gone, come);
  }

  /* ----- the outcome of a sync, for Commit ----- */

  /** The calls that succeeded: all, or all but the last. */
  ghost function Succeeding(h: Hook, calls: seq<Call>): (r: seq<Call>)
    ensures r <= calls
  {
    if AllSucceed(h, calls) || calls == [] then calls else calls[..|calls| - 1]
  }

  ghost predicate StatesSwapped(was: map<Vertex, Entry>, now: map<Vertex, Entry>, gone: set<Vertex>, come: set<Vertex>) {
    && now.Keys == was.Keys - gone + come
    && forall v | v in now :: now[v] == if v in was then was[v] else Entry(false, false)
  }

  /** What GraphSync promises about the hooks it ran. */
  ghost predicate TraceOf(h: Hook, gone: set<Vertex>, come: set<Vertex>, err: Option<SyncError>, calls: seq<Call>) {
    && err != Some(MissingVertex)
    && (err == None || err == Some(EdgeCmpFailed) ==> HooksRan(h, calls, gone, come))
    && (err == Some(RemoveFailed) || err == Some(AddFailed) ==> HooksStopped(h, calls, gone, come))
    && (err == Some(VertexCmpFailed) ==> calls == [])
  }

  lemma TraceIsApplicable(h: Hook, gone: set<Vertex>, come: set<Vertex>, err: Option<SyncError>, calls: seq<Call>)
    requires TraceOf(h, gone, come, err, calls)
    ensures Distinct(calls) && Removed(calls) <= gone && Added(calls) <= come
    ensures AllSucceed(h, calls) || FailsAtLast(h, calls)
    ensures err == None || err == Some(EdgeCmpFailed) ==> AllSucceed(h, calls)
    ensures err == Some(RemoveFailed) || err == Some(AddFailed) ==> !AllSucceed(h, calls)
    ensures err == None || err == Some(EdgeCmpFailed) ==> Removed(calls) == gone && Added(calls) == come
  {
    match err
    case None => OrderedCalls(calls, gone, come);
    case Some(reason) =>
      match reason
      case VertexCmpFailed =>
      case MissingVertex =>
      case EdgeCmpFailed => OrderedCalls(calls, gone, come);
      case RemoveFailed => OrderedCalls(calls, gone, come);
      case AddFailed => OrderedCalls(calls, gone, come);
  }

  lemma RemovedOnes(calls: seq<Call>)
    ensures forall c | c in calls && c.Remove? :: c.v in Removed(calls)
  {
  }

  /** Only vertices without a state are ever added. */
  lemma NewcomersAreNew(state: map<Vertex, Entry>, a: Answers, calls: seq<Call>)
    requires AllSucceed(HookOf(state, a), calls)
    ensures Added(calls) !! state.Keys
  {
    forall v | v in Added(calls) ensures v !in state {
      var i :| 0 <= i < |calls| && calls[i] == Add(v);
      assert HookOf(state, a)(calls[..i], calls[i]);
    }
  }

  lemma KeysAfterSync(plan: Plan, vcmp: VertexCmp, cur: Adjacency, keep: set<Edge>, final: Adjacency)
    requires Matches(plan.before, plan.after, vcmp, plan.lookup) && plan.Synced(cur, keep, final)
    ensures final.Keys == plan.before.Keys - Removals(plan.before, plan.lookup) + Additions(plan.before, plan.after, vcmp)
  {
    var lookup := plan.lookup;
    assert final.Keys == lookup.Values;
    var keys := plan.before.Keys - Removals(plan.before, lookup) + Additions(plan.before, plan.after, vcmp);
    forall x ensures x in lookup.Values <==> x in keys {
      if x in lookup.Values {
        var v :| v in lookup && lookup[v] == x;
      }
      if x in Additions(plan.before, plan.after, vcmp) {
        assert lookup[x] == x;
      }
    }
  }

  lemma SwappedStates(was: map<Vertex, Entry>, mid: map<Vertex, Entry>, calls: seq<Call>)
    requires Told(was, mid, calls) && mid.Keys == was.Keys + Added(calls) && Added(calls) !! was.Keys
    requires Removed(calls) <= was.Keys
    ensures StatesSwapped(was, mid - Removed(calls), Removed(calls), Added(calls))
  {
    forall v | v in was && Remove(v) in calls ensures v in Removed(calls) {
    }
  }

  /** A retry counter survives if its identity is still in use, and keeps its value. */
  function Kept(metas: map<Uid, int>, active: set<Uid>): map<Uid, int> {
    map u | u in metas && u in active :: metas[u]
  }

  lemma NoKinds(res: Vertex -> Res)
    ensures Kinds(res, Elements<Vertex>([])) == {}
  {
  }

  lemma KindsOfPrefix(res: Vertex -> Res, all: set<Vertex>, l: seq<Vertex>, i: nat)
    requires i < |l| && Elements(l) == all
    ensures Kinds(res, Elements(l[..i + 1]))
         == Kinds(res, Elements(l[..i])) + if !res(l[i]).hidden && res(l[i]).background then {res(l[i]).kind} else {}
    ensures Kinds(res, Elements(l[..i])) <= Kinds(res, all)
    ensures !res(l[i]).hidden && res(l[i]).background ==> res(l[i]).kind in Kinds(res, all)
  {
    assert l[..i + 1] == l[..i] + [l[i]];
    assert Elements(l[..i + 1]) == Elements(l[..i]) + {l[i]};
    OneMoreVertex(res, Elements(l[..i]), l[i]);
    assert l[i] in Elements(l);
    assert forall v | v in Elements(l[..i]) :: v in Elements(l);
  }

  /* ----- what the hooks were run on ----- */

  lemma OrderedCalls(calls: seq<Call>, dels: set<Vertex>, adds: set<Vertex>)
    requires FollowsOrder(calls, dels, adds)
    ensures Distinct(calls) && Removed(calls) <= dels && Added(calls) <= adds
    ensures |calls| == |dels| + |adds| ==> Removed(calls) == dels && Added(calls) == adds
  {
    var d, a :| Distinct(d) && Distinct(a) && Elements(d) == dels && Elements(a) == adds && calls <= Removes(d) + Adds(a);
    var all := Removes(d) + Adds(a);
    DistinctSize(d);
    DistinctSize(a);
    forall c | c in calls ensures if c.Remove? then c.v in dels else c.v in adds {
      assert c in all;
    }
    if |calls| == |dels| + |adds| {
      assert calls == all;
      forall v | v in dels ensures Remove(v) in calls {
        assert all[IndexOf(d, v)] == Remove(v);
      }
      forall v | v in adds ensures Add(v) in calls {
        assert all[|d| + IndexOf(a, v)] == Add(v);
      }
    }
  }

  /** All removes come first, so what an added resource uses is in use even if a removed one used it too. */
  lemma ActiveAfterHooks(res: Vertex -> Res, active: set<Uid>, calls: seq<Call>, dels: set<Vertex>, adds: set<Vertex>)
    requires FollowsOrder(calls, dels, adds) && |calls| == |dels| + |adds|
    ensures Active(res, active, calls) == active - Uids(res, dels) + Uids(res, adds)
  {
    var d, a :| Distinct(d) && Distinct(a) && Elements(d) == dels && Elements(a) == adds && calls <= Removes(d) + Adds(a);
    DistinctSize(d);
    DistinctSize(a);
    assert calls == Removes(d) + Adds(a);
    ActiveAfterRemoves(res, active, d);
    ActiveAfterAdds(res, active, Removes(d), a);
  }

  lemma {:induction false} ActiveAfterRemoves(res: Vertex -> Res, active: set<Uid>, d: seq<Vertex>)
    ensures Active(res, active, Removes(d)) == active - Uids(res, Elements(d))
  {
    if d != [] {
      var init, v := d[..|d| - 1], d[|d| - 1];
      ActiveAfterRemoves(res, active, init);
      assert Removes(d) == Removes(init) + [Remove(v)];
      ActiveMore(res, active, Removes(init), Remove(v));
      assert d == init + [v];
      ElementsConcat(init, [v]);
      OneMoreVertex(res, Elements(init), v);
      assert Elements(d) == Elements(init) + {v};
    }
  }

  lemma {:induction false} ActiveAfterAdds(res: Vertex -> Res, active: set<Uid>, calls: seq<Call>, a: seq<Vertex>)
    ensures Active(res, active, calls + Adds(a)) == Active(res, active, calls) + Uids(res, Elements(a))
  {
    if a == [] {
      assert calls + Adds(a) == calls;
    } else {
      var init, v := a[..|a| - 1], a[|a| - 1];
      ActiveAfterAdds(res, active, calls, init);
      assert calls + Adds(a) == calls + Adds(init) + [Add(v)];
      ActiveMore(res, active, calls + Adds(init), Add(v));
      assert a == init + [v];
      ElementsConcat(init, [v]);
      OneMoreVertex(res, Elements(init), v);
      assert Elements(a) == Elements(init) + {v};
    }
  }

  /** Between `was` and `now` nothing happened to the states of `was` but that those removed were told to go, and the
      others in `now` are fresh. */
  ghost predicate Told(was: map<Vertex, Entry>, now: map<Vertex, Entry>, calls: seq<Call>) {
    && (forall v | v in was ::
          v in now && now[v] == was[v].(told := was[v].told || Remove(v) in calls))
    && forall v | v in now && v !in was :: now[v] == Entry(false, false)
  }

  lemma StartOfTrace(res: Vertex -> Res, active: set<Uid>, state: map<Vertex, Entry>, calls: seq<Call>, h: Hook)
    ensures AllSucceed(h, calls[..0])
    ensures Added(calls[..0]) == {} && Told(state, state, calls[..0]) && Active(res, active, calls[..0]) == active
  {
  }

  lemma AddedMore(calls: seq<Call>, c: Call)
    ensures Added(calls + [c]) == Added(calls) + if c.Add? then {c.v} else {}
  {
  }

  lemma ActiveMore(res: Vertex -> Res, active: set<Uid>, calls: seq<Call>, c: Call)
    ensures var before := Active(res, active, calls);
      Active(res, active, calls + [c]) == if res(c.v).hidden then before
                                          else if c.Add? then before + {UidOf(res, c.v)} else before - {UidOf(res, c.v)}
  {
    assert (calls + [c])[..|calls|] == calls;
  }

  lemma AddedSoFar(known: set<Vertex>, calls: seq<Call>, n: nat)
    requires n < |calls|
    ensures calls[n].Add? ==> (calls[n].v in Added(calls[..n]) <==> calls[n] in calls[..n])
  {
  }

  /** Nobody is told twice by the same commit. */
  lemma StillTold(was: map<Vertex, Entry>, now: map<Vertex, Entry>, calls: seq<Call>, n: nat)
    requires Distinct(calls) && n < |calls| && Told(was, now, calls[..n])
    ensures calls[n].Remove? && calls[n].v in was ==>
      calls[n].v in now && (now[calls[n].v].told <==> calls[n].v in ToldOf(was))
  {
    if calls[n].Remove? && calls[n].v in was {
      assert calls[n] !in calls[..n];
    }
  }

  lemma ToldMore(was: map<Vertex, Entry>, before: map<Vertex, Entry>, now: map<Vertex, Entry>, calls: seq<Call>, n: nat)
    requires Distinct(calls) && n < |calls| && Told(was, before, calls[..n])
    requires calls[n].Remove? ==> calls[n].v in was
    requires var c := calls[n];
      now == (if c.Remove? then before[c.v := before[c.v].(told := true)]
              else if now == before then before else before[c.v := Entry(false, false)])
    requires calls[n].Add? && now != before ==> calls[n].v !in before
    ensures Told(was, now, calls[..n + 1])
  {
    var c := calls[n];
    assert calls[..n + 1] == calls[..n] + [c];
    assert c !in calls[..n];
  }

  lemma PrefixOfPrefix(calls: seq<Call>, n: nat)
    ensures n < |calls| - 1 ==> calls[..|calls| - 1][..n] == calls[..n] && calls[..|calls| - 1][n] == calls[n]
  {
  }

  lemma FailureIsLast(h: Hook, calls: seq<Call>, n: nat)
    requires n < |calls| && !h(calls[..n], calls[n]) && AllSucceed(h, calls[..n])
    requires AllSucceed(h, calls) || FailsAtLast(h, calls)
    ensures !AllSucceed(h, calls) && n == |calls| - 1 && calls[..n + 1] == calls && Succeeding(h, calls) == calls[..n]
  {
    PrefixOfPrefix(calls, n);
  }

  lemma OneMoreVertex(res: Vertex -> Res, s: set<Vertex>, v: Vertex)
    ensures Kinds(res, s + {v}) == Kinds(res, s) + if !res(v).hidden && res(v).background then {res(v).kind} else {}
    ensures Uids(res, s + {v}) == Uids(res, s) + if !res(v).hidden then {UidOf(res, v)} else {}
  {
  }
}
