/** One run of Process on a vertex: the timestamp gate and its backpokes, the decision whether CheckApply runs, and what
    a run leaves behind in timestamps, dirty marks, pokes and pending refreshes.

    What the resource, send/recv, the semaphores, the exporter and the clock answer is given as an `Answers` value.  The
    run has the engine to itself here; how runs of several Workers interleave is the subject of EngineRuns and Pokes. */
module Process {
  import opened Vertices
  import opened Digraphs
  import opened PointerGraph
  import opened Timestamps

  datatype Failure =
    | Interrupted
    | BackPoke
    | SemaphoresClosed
    | SendRecvFailed
    | Invalid
    | Misreported
    | CheckApplyFailed
    | ExportFailed

  /** One receiver that sendRecv updated: which vertex it is, whether a value changed, and whether it then validates. */
  datatype Update = Update(receiver: Vertex, changed: bool, validates: bool)

  datatype Resource = Resource(noop: bool, hidden: bool, refreshable: bool)

  datatype Answers = Answers(
    cancelled: bool,
    semaphoresOpen: bool,
    sendRecvOk: bool, updates: seq<Update>,
    checkOk: bool, checkFails: bool,
    exportOk: bool, exportFails: bool,
    now: int)

  class State {
    var timestamp: int
    var isStateOK: bool
    var poked: bool  // the poke channel holds at most one

    constructor ()
      ensures timestamp == 0 && !isStateOK && !poked
    {
      timestamp, isStateOK, poked := 0, false, false;
    }

    /** A poke never blocks: a full channel stays full. */
    method Poke()
      modifies this`poked
      ensures poked
    {
      if !poked { poked := true; }
    }

    method SetDirty()
      modifies this`isStateOK
      ensures !isStateOK
    {
      isStateOK := false;
    }
  }

  /** What Process reads and writes, as values. */
  datatype View = View(stamps: Stamps, clean: set<Vertex>, poked: set<Vertex>, refresh: set<Edge>)

  /** Where a received value changed, the receiver's own state is dirtied, or that of the vertex that owns it. */
  function Dirtied(known: set<Vertex>, v: Vertex, updates: seq<Update>): (r: set<Vertex>) {
    set u: Update | u in updates && u.changed :: if u.receiver in known then u.receiver else v
  }

  /** The updates that are looked at before one fails to validate. */
  function Applied(known: set<Vertex>, updates: seq<Update>): (r: seq<Update>)
    ensures |r| <= |updates| && r == updates[..|r|]
    ensures |r| < |updates| ==> r != []
  {
    if updates == [] then []
    else if updates[0].receiver in known && !updates[0].validates then [updates[0]]
    else
      var rest := Applied(known, updates[1..]);
      assert updates[..1 + |rest|] == [updates[0]] + updates[1..][..|rest|];
      [updates[0]] + rest
  }

  predicate AllValid(known: set<Vertex>, updates: seq<Update>) {
    forall u | u in updates && u.receiver in known :: u.validates
  }

  /* ----- what a run does, in terms of the values before it ----- */

  ghost function Ready(g: Adjacency, stamps: Stamps, v: Vertex): set<Vertex>
    requires g.Keys <= stamps.Keys
  {
    set u | u in Succs(g, v) && MayRun(g, stamps, u)
  }

  ghost predicate Pending(g: Adjacency, notify: set<Edge>, before: View, v: Vertex) {
    EdgesInto(g, v) * notify * before.refresh != {}
  }

  /** CheckApply runs when the resource is dirty, or has a refresh to act on, and is neither hidden nor only looking at
      a refresh. */
  ghost predicate Runs(g: Adjacency, notify: set<Edge>, before: View, v: Vertex, res: Resource) {
    var acts := Pending(g, notify, before, v) && res.refreshable;
    (acts || v !in before.clean) && !(acts && res.noop) && !res.hidden
  }

  /** Whether the run counts as having found something to change. */
  ghost predicate Changed(g: Adjacency, notify: set<Edge>, before: View, v: Vertex, res: Resource, a: Answers) {
    || !a.exportOk
    || (if Runs(g, notify, before, v, res) then !a.checkOk
        else Pending(g, notify, before, v) && res.refreshable && res.noop)
  }

  /** What a run that ended well leaves behind. */
  ghost function Succeeded(g: Adjacency, notify: set<Edge>, fastPause: bool, before: View, v: Vertex, res: Resource,
                           a: Answers): View
    requires g.Keys <= before.stamps.Keys
  {
    var stamps := before.stamps[v := a.now];
    var poked := before.poked + if fastPause then {} else Ready(g, stamps, v);
    if res.noop then View(stamps, before.clean, poked, before.refresh)
    else
      var acted := before.refresh - if Pending(g, notify, before, v) then EdgesInto(g, v) * notify else {};
      var told := if Changed(g, notify, before, v, res, a) then EdgesFrom(g, v) * notify else {};
      View(stamps, before.clean + {v}, poked, acted + told)
  }

  /** A run that was neither interrupted nor turned back: it ends without error only if nothing failed, and only then
      touches more than the dirty marks of receivers. */
  ghost predicate RunOf(g: Adjacency, notify: set<Edge>, fastPause: bool, before: View, after: View, v: Vertex,
                        res: Resource, a: Answers, err: Option<Failure>, ran: bool)
    requires g.Keys <= before.stamps.Keys
  {
    if !a.semaphoresOpen then after == before && err == Some(SemaphoresClosed) && !ran
    else if !a.sendRecvOk then after == before && err == Some(SendRecvFailed) && !ran
    else
      var received := before.(clean := before.clean - Dirtied(before.stamps.Keys, v, Applied(before.stamps.Keys, a.updates)));
      if !AllValid(before.stamps.Keys, a.updates) then after == received && err == Some(Invalid) && !ran
      else
        && err !in {Some(BackPoke), Some(Interrupted), Some(SemaphoresClosed), Some(SendRecvFailed), Some(Invalid)}
        && (ran <==> Runs(g, notify, received, v, res))
        && (err.Some? <==> (ran && a.checkFails) || a.exportFails)
        && (err == Some(Misreported) <==> err.Some? && !Changed(g, notify, received, v, res, a))
        && after == if err.Some? then received else Succeeded(g, notify, fastPause, received, v, res, a)
  }

  /** All prerequisites of `u` are newer than `u`. */
  lemma NewerIsAllowed(g: Adjacency, stamps: Stamps, u: Vertex)
    requires g.Keys <= stamps.Keys && u in stamps
    ensures MayRun(g, stamps, u) <==> forall p | HasEdge(g, p, u) :: stamps[u] < stamps[p]
  {
    forall p | HasEdge(g, p, u) ensures p in Bad(g, stamps, u) <==> stamps[u] >= stamps[p] {
    }
  }

  lemma ReadyMeans(g: Adjacency, stamps: Stamps, v: Vertex, u: Vertex)
    requires g.Keys <= stamps.Keys
    ensures u in Ready(g, stamps, v)
       <==> u in g && HasEdge(g, v, u) && forall p | HasEdge(g, p, u) :: stamps[u] < stamps[p]
  {
    if u in g {
      NewerIsAllowed(g, stamps, u);
    }
  }

  lemma ReadyAllMeans(g: Adjacency, stamps: Stamps, v: Vertex)
    requires g.Keys <= stamps.Keys
    ensures forall u :: u in Ready(g, stamps, v)
                   <==> u in g && HasEdge(g, v, u) && forall p | HasEdge(g, p, u) :: stamps[u] < stamps[p]
  {
    forall u ensures u in Ready(g, stamps, v)
                <==> u in g && HasEdge(g, v, u) && forall p | HasEdge(g, p, u) :: stamps[u] < stamps[p] {
      ReadyMeans(g, stamps, v, u);
    }
  }

  lemma PredsInGraph(g: Adjacency, v: Vertex)
    ensures Preds(g, v) <= g.Keys
  {
  }

  lemma SuccsInGraph(g: Adjacency, v: Vertex)
    ensures Succs(g, v) <= g.Keys
  {
  }

  lemma BadArePreds(g: Adjacency, stamps: Stamps, v: Vertex)
    requires g.Keys <= stamps.Keys && v in stamps
    ensures Bad(g, stamps, v) <= Preds(g, v)
  {
  }

  class Engine {
    const graph: Graph
    const notify: set<Edge>  // the edges that ask for refresh notifications
    var state: map<Vertex, State>
    var refresh: set<Edge>  // the edge objects with a refresh pending
    var interrupt: bool
    var fastPause: bool

    ghost predicate Valid()
      reads this, graph
    {
      && graph.Valid() && state.Keys == graph.adjacency.Keys
      && forall u, v | u in state && v in state && state[u] == state[v] :: u == v
    }

    ghost function Contents(): View
      reads this, set v | v in state :: state[v]
    {
      View(map v | v in state :: state[v].timestamp,
           (set v | v in state && state[v].isStateOK),
           (set v | v in state && state[v].poked),
           refresh)
    }

    constructor (graph: Graph, notify: set<Edge>, state: map<Vertex, State>)
      requires graph.Valid() && state.Keys == graph.adjacency.Keys
      requires forall u, v | u in state && v in state && state[u] == state[v] :: u == v
      ensures Valid() && this.graph == graph && this.notify == notify && this.state == state && refresh == {}
      ensures !interrupt && !fastPause
    {
      this.graph, this.notify, this.state, refresh := graph, notify, state, {};
      interrupt, fastPause := false, false;
    }

    /** The prerequisites that are to blame if the vertex may not run now. */
    method BadTimestamps(vertex: Vertex) returns (vs: seq<Vertex>)
      requires Valid() && vertex in state
      ensures Distinct(vs) && Elements(vs) == Bad(graph.adjacency, Contents().stamps, vertex)
    {
      vs := [];
      var ts := state[vertex].timestamp;
      var incoming := graph.IncomingGraphVertices(vertex);
      for i := 0 to |incoming|
        invariant Distinct(vs) && forall v :: v in vs <==> v in incoming[..i] && v in state && ts >= Contents().stamps[v]
      {
        var v := incoming[i];
        assert v in Elements(incoming);
        var t := state[v].timestamp;
        if ts >= t {
          assert v !in vs by {
            assert v !in incoming[..i];
          }
          vs := vs + [v];
        }
        assert incoming[..i + 1] == incoming[..i] + [v];
      }
      assert incoming[..|incoming|] == incoming;
      forall v ensures v in vs <==> v in Bad(graph.adjacency, Contents().stamps, vertex) {
        assert v in incoming <==> v in Elements(incoming);
      }
    }

    method OKTimestamp(vertex: Vertex) returns (ok: bool)
      requires Valid() && vertex in state
      ensures ok <==> MayRun(graph.adjacency, Contents().stamps, vertex)
    {
      var vs := BadTimestamps(vertex);
      ElementsEmpty(vs);
      ok := |vs| == 0;
    }

    /** Whether an incoming edge that asked for notifications has one pending. */
    method RefreshPending(vertex: Vertex) returns (pending: bool)
      requires Valid()
      ensures pending <==> EdgesInto(graph.adjacency, vertex) * notify * refresh != {}
    {
      var edges := graph.IncomingGraphEdges(vertex);
      pending := false;
      for i := 0 to |edges|
        invariant pending <==> exists e :: e in edges[..i] && e in notify && e in refresh
      {
        if edges[i] in notify && edges[i] in refresh {
          assert edges[i] in edges[..i + 1];
          pending := true;
          break;
        }
        assert edges[..i + 1] == edges[..i] + [edges[i]];
      }
      assert edges[..|edges|] == edges;
      var all := EdgesInto(graph.adjacency, vertex) * notify * refresh;
      forall e ensures e in all <==> e in edges && e in notify && e in refresh {
        assert e in edges <==> e in Elements(edges);
      }
    }

    /** Sets or clears the refresh flags of the incoming edges that ask for notifications. */
    method SetUpstreamRefresh(vertex: Vertex, b: bool)
      requires Valid()
      modifies this`refresh
      ensures Valid()
      ensures var es, was := EdgesInto(graph.adjacency, vertex) * notify, old(Contents());
        Contents() == was.(refresh := if b then was.refresh + es else was.refresh - es)
    {
      var edges := graph.IncomingGraphEdges(vertex);
      SetRefresh(edges, b);
    }

    method SetDownstreamRefresh(vertex: Vertex, b: bool)
      requires Valid()
      modifies this`refresh
      ensures Valid()
      ensures var es, was := EdgesFrom(graph.adjacency, vertex) * notify, old(Contents());
        Contents() == was.(refresh := if b then was.refresh + es else was.refresh - es)
    {
      var edges := graph.OutgoingGraphEdges(vertex);
      SetRefresh(edges, b);
    }

    method SetRefresh(edges: seq<Edge>, b: bool)
      modifies this`refresh
      ensures var es := Elements(edges) * notify;
        refresh == if b then old(refresh) + es else old(refresh) - es
    {
      for i := 0 to |edges|
        invariant var es := Elements(edges[..i]) * notify;
          refresh == if b then old(refresh) + es else old(refresh) - es
      {
        assert edges[..i + 1] == edges[..i] + [edges[i]];
        if edges[i] in notify {
          refresh := if b then refresh + {edges[i]} else refresh - {edges[i]};
        }
      }
      assert edges[..|edges|] == edges;
    }

    method PokeVertex(v: Vertex)
      requires Valid() && v in state
      modifies state[v]
      ensures Valid()
      ensures Contents() == old(Contents()).(poked := old(Contents()).poked + {v})
    {
      hide Transposed;
      state[v].Poke();
      assert Contents().stamps == old(Contents()).stamps;
    }

    method DirtyVertex(v: Vertex)
      requires Valid() && v in state
      modifies state[v]
      ensures Valid()
      ensures Contents() == old(Contents()).(clean := old(Contents()).clean - {v})
    {
      hide Transposed;
      state[v].SetDirty();
      assert Contents().stamps == old(Contents()).stamps;
    }

    /** Dirties the receivers of changed values, up to the first one that does not validate. */
    method ReceiveValues(vertex: Vertex, updates: seq<Update>) returns (valid: bool)
      requires Valid() && vertex in state
      modifies set v | v in state :: state[v]
      ensures Valid() && valid == AllValid(state.Keys, updates)
      ensures Contents() == old(Contents()).(clean := old(Contents()).clean
                                                      - Dirtied(state.Keys, vertex, Applied(state.Keys, updates)))
    {
      hide Applied, Transposed, Dirtied, AllValid;
      var n := 0;
      NothingDirtied(state.Keys, vertex);
      while n < |updates|
        invariant n <= |updates| && Valid() && AllValid(state.Keys, updates[..n])
        invariant Contents() == old(Contents()).(clean := old(Contents()).clean - Dirtied(state.Keys, vertex, updates[..n]))
      {
        var u := updates[n];
        var owner := if u.receiver in state then u.receiver else vertex;
        if u.changed {
          DirtyVertex(owner);
        }
        assert updates[..n + 1] == updates[..n] + [u];
        DirtiedMore(state.Keys, vertex, updates[..n], u);
        ValidMore(state.Keys, updates[..n], u);
        if u.receiver in state && !u.validates {
          AppliedUpTo(state.Keys, updates, n);
          OneInvalid(state.Keys, updates, n);
          return false;
        }
        n := n + 1;
      }
      assert updates[..n] == updates;
      AppliedAll(state.Keys, updates);
      return true;
    }

    /** Pokes those prerequisites that are in `vs`. */
    method PokePrerequisites(vertex: Vertex, vs: seq<Vertex>)
      requires Valid() && Elements(vs) <= Preds(graph.adjacency, vertex)
      modifies set v | v in state :: state[v]
      ensures Valid()
      ensures Contents() == old(Contents()).(poked := old(Contents()).poked + Elements(vs))
    {
      hide Transposed, Preds;
      var incoming := graph.IncomingGraphVertices(vertex);
      PredsInGraph(graph.adjacency, vertex);
      for i := 0 to |incoming|
        invariant Valid()
        invariant Contents() == old(Contents()).(poked := old(Contents()).poked + Elements(incoming[..i]) * Elements(vs))
      {
        assert incoming[..i + 1] == incoming[..i] + [incoming[i]];
        ElementsConcat(incoming[..i], [incoming[i]]);
        assert incoming[i] in Elements(incoming);
        if incoming[i] in vs {
          PokeVertex(incoming[i]);
        }
      }
      assert incoming[..|incoming|] == incoming;
      assert Elements(incoming) * Elements(vs) == Elements(vs);
    }

    /** Pokes a successor if it may run now, unless pauses are to be fast. */
    method PokeIfReady(v: Vertex)
      requires Valid() && v in state
      modifies state[v]
      ensures Valid()
      ensures Contents() == old(Contents()).(poked := old(Contents()).poked
        + if fastPause || !MayRun(graph.adjacency, old(Contents()).stamps, v) then {} else {v})
    {
      hide Transposed, MayRun;
      var ok := OKTimestamp(v);
      if !ok { return; }
      if fastPause { return; }
      PokeVertex(v);
    }

    method PokeDownstream(vertex: Vertex)
      requires Valid()
      modifies set v | v in state :: state[v]
      ensures Valid()
      ensures Contents() == old(Contents()).(poked := old(Contents()).poked
        + if fastPause then {} else Ready(graph.adjacency, old(Contents()).stamps, vertex))
      ensures forall u :: u in Contents().poked <==>
        || u in old(Contents()).poked
        || (!fastPause && u in state && HasEdge(graph.adjacency, vertex, u)
            && forall p | HasEdge(graph.adjacency, p, u) :: p in state && state[u].timestamp < state[p].timestamp)
    {
      hide Transposed, MayRun, Succs;
      ReadyAllMeans(graph.adjacency, Contents().stamps, vertex);
      var outgoing := graph.OutgoingGraphVertices(vertex);
      ghost var ready := Ready(graph.adjacency, Contents().stamps, vertex);
      SuccsInGraph(graph.adjacency, vertex);
      assert forall v | v in Elements(outgoing) :: v in state;
      for i := 0 to |outgoing|
        invariant Valid()
        invariant Contents() == old(Contents()).(poked := old(Contents()).poked
          + if fastPause then {} else Elements(outgoing[..i]) * ready)
      {
        hide Valid;
        assert outgoing[..i + 1] == outgoing[..i] + [outgoing[i]];
        ElementsConcat(outgoing[..i], [outgoing[i]]);
        assert outgoing[i] in Elements(outgoing);
        PokeIfReady(outgoing[i]);
      }
      assert outgoing[..|outgoing|] == outgoing;
      assert Elements(outgoing) * ready == ready;
    }

    /** Executes a vertex.  `ran` tells whether CheckApply was called. */
    method Process(vertex: Vertex, res: Resource, a: Answers) returns (err: Option<Failure>, ran: bool)
      requires Valid() && vertex in state
      modifies this`refresh, set v | v in state :: state[v]
      ensures Valid()
      ensures interrupt ==> Contents() == old(Contents()) && !ran && err == if a.cancelled then Some(Interrupted) else None
      ensures err == Some(BackPoke) <==> !interrupt && !MayRun(graph.adjacency, old(Contents()).stamps, vertex)
      ensures err == Some(BackPoke) ==> !ran && Contents() == old(Contents()).(
        poked := old(Contents()).poked + Bad(graph.adjacency, old(Contents()).stamps, vertex))
      ensures !interrupt && err != Some(BackPoke) ==>
        RunOf(graph.adjacency, notify, fastPause, old(Contents()), Contents(), vertex, res, a, err, ran)
      ensures !interrupt && err == None ==> state[vertex].timestamp == a.now && forall u :: u in Contents().poked <==>
        || u in old(Contents()).poked
        || (!fastPause && u in state && HasEdge(graph.adjacency, vertex, u)
            && forall p | HasEdge(graph.adjacency, p, u) :: p in state && state[u].timestamp < state[p].timestamp)
    {
      hide Transposed, Preds, Bad, Applied, Dirtied, AllValid, Ready;
      ran := false;
      if interrupt {
        err := if a.cancelled then Some(Interrupted) else None;
        return;
      }
      var bad := BadTimestamps(vertex);
      if |bad| > 0 {
        assert bad[0] in Elements(bad);
        BadArePreds(graph.adjacency, Contents().stamps, vertex);
        PokePrerequisites(vertex, bad);
        err := Some(BackPoke);
        return;
      }
      if !a.semaphoresOpen {
        err := Some(SemaphoresClosed);
        return;
      }
      if !a.sendRecvOk {
        err := Some(SendRecvFailed);
        return;
      }
      assert state.Keys == Contents().stamps.Keys;
      var valid := ReceiveValues(vertex, a.updates);
      if !valid {
        err := Some(Invalid);
        return;
      }
      ghost var received := Contents();
      err, ran := Apply(vertex, res, a);
      if err == None {
        assert Contents() == Succeeded(graph.adjacency, notify, fastPause, received, vertex, res, a);
        ReadyAllMeans(graph.adjacency, Contents().stamps, vertex);
      }
    }

    /** The part of Process after values were received. */
    method Apply(vertex: Vertex, res: Resource, a: Answers) returns (err: Option<Failure>, ran: bool)
      requires Valid() && vertex in state
      modifies this`refresh, set v | v in state :: state[v]
      ensures Valid()
      ensures err !in {Some(BackPoke), Some(Interrupted), Some(SemaphoresClosed), Some(SendRecvFailed), Some(Invalid)}
      ensures ran <==> Runs(graph.adjacency, notify, old(Contents()), vertex, res)
      ensures err.Some? <==> (ran && a.checkFails) || a.exportFails
      ensures err == Some(Misreported) <==> err.Some? && !Changed(graph.adjacency, notify, old(Contents()), vertex, res, a)
      ensures Contents() == if err.Some? then old(Contents())
                            else Succeeded(graph.adjacency, notify, fastPause, old(Contents()), vertex, res, a)
    {
      hide Transposed, EdgesInto, Succeeded;
      var pending := RefreshPending(vertex);
      var checkOk, failed := true, false;
      ran := false;
      if (!pending || !res.refreshable) && state[vertex].isStateOK {
        checkOk, failed := true, false;
      } else if res.noop && pending && res.refreshable {
        checkOk, failed := false, false;
      } else if res.hidden {
        checkOk, failed := true, false;
      } else {
        ran := true;
        checkOk, failed := a.checkOk, a.checkFails;
      }
      checkOk := checkOk && a.exportOk;
      err := if failed then Some(CheckApplyFailed) else if a.exportFails then Some(ExportFailed) else None;
      if checkOk && err.Some? {
        err := Some(Misreported);
        return;
      }
      Finish(vertex, res, a, pending, checkOk, err);
    }

    /** The end of Process: the state, the refresh flags, the timestamp and the pokes. */
    method Finish(vertex: Vertex, res: Resource, a: Answers, pending: bool, checkOk: bool, err: Option<Failure>)
      requires Valid() && vertex in state && (checkOk ==> err == None)
      requires pending == Pending(graph.adjacency, notify, Contents(), vertex)
      requires checkOk == !Changed(graph.adjacency, notify, Contents(), vertex, res, a)
      modifies this`refresh, set v | v in state :: state[v]
      ensures Valid()
      ensures Contents() == if err.Some? then old(Contents())
                            else Succeeded(graph.adjacency, notify, fastPause, old(Contents()), vertex, res, a)
    {
      hide Valid, EdgesInto, EdgesFrom, Ready, Pending, Changed, Contents;
      var ok, applied := true, false;
      if !res.noop && err == None {
        Settle(vertex);
        if pending {
          SetUpstreamRefresh(vertex, false);
        }
      }
      if !checkOk {
        if err.Some? { ok := false; } else { applied := true; }
      }
      if res.noop && err == None {
        ok := true;
      }
      if ok {
        var activity := applied;
        if res.noop { activity := false; }
        Announce(vertex, activity, a.now);
      }
    }

    /** Tells the successors: a refresh if anything was changed, then the new timestamp, and only then the pokes. */
    method Announce(vertex: Vertex, activity: bool, now: int)
      requires Valid() && vertex in state
      modifies this`refresh, set v | v in state :: state[v]
      ensures Valid()
      ensures Contents().clean == old(Contents()).clean && Contents().stamps == old(Contents()).stamps[vertex := now]
      ensures Contents().refresh == old(Contents()).refresh
                                  + if activity then EdgesFrom(graph.adjacency, vertex) * notify else {}
      ensures Contents().poked == old(Contents()).poked
                                + if fastPause then {} else Ready(graph.adjacency, Contents().stamps, vertex)
    {
      hide Transposed, EdgesFrom, Ready;
      if activity {
        SetDownstreamRefresh(vertex, true);
      }
      Stamp(vertex, now);
      PokeDownstream(vertex);
    }

    /** The state is good until something dirties it. */
    method Settle(v: Vertex)
      requires Valid() && v in state
      modifies state[v]
      ensures Valid()
      ensures Contents() == old(Contents()).(clean := old(Contents()).clean + {v})
    {
      hide Transposed;
      state[v].isStateOK := true;
      assert Contents().stamps == old(Contents()).stamps;
    }

    method Stamp(v: Vertex, now: int)
      requires Valid() && v in state
      modifies state[v]
      ensures Valid()
      ensures Contents() == old(Contents()).(stamps := old(Contents()).stamps[v := now])
    {
      hide Transposed;
      state[v].timestamp := now;
      assert Contents().clean == old(Contents()).clean;
      assert Contents().poked == old(Contents()).poked;
      assert Contents().stamps == old(Contents()).stamps[v := now];
    }
  }

  lemma NothingDirtied(known: set<Vertex>, v: Vertex)
    ensures Dirtied(known, v, []) == {} && AllValid(known, [])
  {
  }

  lemma ValidMore(known: set<Vertex>, s: seq<Update>, u: Update)
    ensures AllValid(known, s + [u]) == (AllValid(known, s) && (u.receiver in known ==> u.validates))
  {
    assert u in s + [u] && forall x | x in s :: x in s + [u];
  }

  lemma OneInvalid(known: set<Vertex>, updates: seq<Update>, n: nat)
    requires n < |updates| && updates[n].receiver in known && !updates[n].validates
    ensures !AllValid(known, updates)
  {
    assert updates[n] in updates;
  }

  lemma DirtiedMore(known: set<Vertex>, v: Vertex, s: seq<Update>, u: Update)
    ensures Dirtied(known, v, s + [u])
         == Dirtied(known, v, s) + if u.changed then {if u.receiver in known then u.receiver else v} else {}
  {
  }

  lemma {:induction false} AppliedUpTo(known: set<Vertex>, updates: seq<Update>, n: nat)
    requires n < |updates| && AllValid(known, updates[..n])
    requires updates[n].receiver in known && !updates[n].validates
    ensures Applied(known, updates) == updates[..n + 1]
  {
    if n > 0 {
      assert updates[0] in updates[..n];
      assert updates[1..][..n - 1] == updates[..n][1..];
      AppliedUpTo(known, updates[1..], n - 1);
      assert updates[..n + 1] == [updates[0]] + updates[1..][..n];
    }
  }

  lemma {:induction false} AppliedAll(known: set<Vertex>, updates: seq<Update>)
    requires AllValid(known, updates)
    ensures Applied(known, updates) == updates
  {
    if updates != [] {
      AppliedAll(known, updates[1..]);
      assert updates == [updates[0]] + updates[1..];
    }
  }
}
