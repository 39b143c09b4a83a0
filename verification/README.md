# Models of mgmt's graph and engine core

Dafny models of four connected parts of mgmt, and proofs of what they promise.

- **The pointer graph** (`pgraph`): a mutable directed graph with a mirrored reverse index, its two Kahn sorts, cycle
  extraction, shortest paths, weak components, comparison, subgraph flattening, and `GraphSync`, which morphs the running
  graph into a new one and leaves equal vertices and edges in place.  Modules `Vertices`, `Digraphs`, `PointerGraph`,
  `Cycles`, `Sorts`, `SortLabels`, `SortOrder`, `Paths`, `Components`, `Comparison`, `Subgraphs`, `Synchronize`, `SyncLaws`.
- **The resource engine** (`engine/graph`): `Timestamps`, `Process` and `ProcessLaws` model one run of `Process` with the
  engine to itself; `Refreshes` the refresh flags when runs overlap; `Pokes` the pokes between Workers that all move at
  once, `PokesAlone` what ties them to `Process`, and `Freshness` exactly when they suffice; `Workers`, `EngineRuns`,
  `EngineLaws`, `Attempts` and `EngineGuarantees` the interleaved runs of Workers, `Pause`, `Commit` and `Resume`; `Commit`
  and `CommitLaws` the tables that a commit swaps.
- **The converger**: `Converger` (the coordinator's loop) and `ConvergerUid` (one probe and its timers).
- **Scheduler and rendezvous**: `RoundRobin` and `Signals`.

`dafny verify dfyconfig.toml` verifies everything.

## How to read the models

A vertex or an edge is an object with an address and a string (`Vertex(ptr, name)`); two are the same only if both agree.
Iterating over a Go map is a loop that picks an arbitrary element, so every result holds for every order.  User functions
(comparisons, filters, hooks, edge generators) are function values; a comparison answers `Same`, `Different` or `Failed`.
A hook may answer differently depending on everything the hooks did before.

Code that a single goroutine runs is a class or a method with the source's loops.  Code whose point is interleaving is a
step relation, with one step for each thing that others can observe in between: a read of one timestamp, a receive together
with its send on an unbuffered channel, a write of a flag, the poke that follows it.  Safety statements are about every state
of every finite run.  The engine's log and the fields `seenGen`, `born`, `doneAt`, `since` and `headStart` only record history.

In `EngineRuns` a commit is a sequence of removals, each waiting for its Worker to exit, and then one swap to any acyclic
graph that keeps what was not removed.  `CommitLaws.RemovedStayOut` and `CommitLaws.CommittedGraphIsThePendingOne` are the
reasons why the swap that `Commit` performs is one of these; that the graph being loaded is acyclic is checked before a commit
(lib/main.go:1133).

## Where the code does less than it says

- `GraphSync` drops edges by the identity of their object (pgraph/graphsync.go:186-193).  An edge that the new graph lacks
  survives if its object is chosen for another pair.  `SyncLaws.IsomorphicIff` and, over all orders of the loops,
  `SyncLaws.AlwaysIsomorphicIff` have the exact condition on the inputs, and `SyncLaws.SharedObjectSurvives` an input.
  New vertices that compare equal to one another collapse into one (`SyncLaws.InjectiveIff`, `SyncLaws.TwinsCollapse`).
- A failed `Commit` is documented to leave the running graph unchanged.  The graph is, unless a background function failed to
  start, but not the engine: vertices already removed stay shut down, so the next commit that removes them closes their
  channels again, which panics (`EngineGuarantees.SecondRemoveClosesTwice`, `EngineGuarantees.FailedCommitThenShutdown`,
  `CommitLaws.RemovalCannotBeRepeated`), and a resume before that may send on a closed channel
  (`EngineGuarantees.ResumePanicsIff`);
  vertices already added keep a state, so committing the same graph again fails (`CommitLaws.RepeatFails`).  If a background
  function cannot be started, the graphs are swapped already (`Commit.Engine.Commit`).
- `Shutdown` with a pending graph cannot load the empty one and commits the pending graph instead (`Commit.Engine.Shutdown`).
- `Pause` ignores the error of its sort, and would pause nothing in a graph with a cycle.  No run reaches such a graph
  (`EngineGuarantees.PauseAndResumeAreSound`).
- A Worker that is not started drops pokes, because the initial event of its Watch is sure to follow
  (engine/graph/actions.go:717-724).  But if its Watch fails and restarts while the Worker sits in the select of a rate limit or
  of a retry delay, that select consumes the initial event without marking the Worker started (actions.go:743-763, 810-830).
  The vertex then drops every poke until another event arrives.  `Pokes.NoPokeIsLost` says that this is the only way to be
  lost, `Freshness.MuteIsLost` has the run and `Freshness.NobodyLostIff` the exact condition.
- A completed vertex leaves out a successor that has another stale prerequisite, trusting that one to poke it later
  (engine/graph/actions.go:387-389).  Nothing pokes that other one, so everything can come to rest with the change unseen until
  some event arrives.  `Freshness.FreshIff` has the exact condition on the graph and the settings; what rest means in any case
  is `Pokes.RestMeansSettled`.
- `Process` reads its refresh flags before CheckApply (actions.go:260) and takes all of them down after it (actions.go:348).  A
  notification that another vertex sends in between is taken down unheard (`Refreshes.LostIffStraddled`,
  `Refreshes.RefreshIsLost`).
- The coordinator reads the clock twice in one pass.  If the hold deadline falls between the two readings, no timer is armed
  and convergence is announced only after the next poke (`Converger.NoLostWakeupIff`, `Converger.DeadlineIsStraddled`).
- A background function's own error is stored from the wrong variable (engine/graph/background.go:92), so stopping one never
  reports it.  The model follows the code: `Commit.Engine.StopBackground` has no error to return, and no result is claimed.
- Weak components of a graph without a name cannot be split off, because the parts would have no name either
  (`Components.DisconnectedGraphs`).
- Light flattening relies on an acyclic subgraph, which it does not check; `Subgraphs.LightReachesIff` says exactly what it
  reaches otherwise, and `Subgraphs.LightMissesCycles` has an input.

## Model

| member | source | states |
|---|---|---|
| PointerGraph.Graph.NewGraph | pgraph/pgraph.go:96-101 | fails exactly for an empty name, and otherwise gives an empty graph whose two indexes mirror each other |
| PointerGraph.Graph.Copy | pgraph/pgraph.go:121-152 | a new graph with equal indexes and the same vertex and edge objects |
| PointerGraph.Graph.AddVertex | pgraph/pgraph.go:231-253 | adds exactly the missing vertices, keeps every edge, and leaves the mirror index the exact transpose |
| PointerGraph.Graph.AddEdge | pgraph/pgraph.go:282-296 | adds both ends and puts the edge object between them, and leaves the mirror index the exact transpose |
| PointerGraph.Graph.DeleteOneVertex | pgraph/pgraph.go:257-279 | one vertex goes with every edge at it, self-loops included; nothing dangles in either index |
| PointerGraph.Graph.DeleteVertex | pgraph/pgraph.go:257-279 | the same for any list of vertices, present or not |
| PointerGraph.Graph.DeleteEdgeBetween | pgraph/pgraph.go:318-325 | exactly the edge of that pair goes, from both indexes |
| PointerGraph.Graph.DeleteEdge | pgraph/pgraph.go:299-313 | every pair labelled by one of the edge objects loses its edge, and no other |
| PointerGraph.Graph.NumEdges | pgraph/pgraph.go:339-345 | the number of vertex pairs that have an edge |
| PointerGraph.Graph.IncomingGraphVertices | pgraph/pgraph.go:543-549 | the mirror index answers who points here exactly as a scan of all edges would, each vertex once |
| PointerGraph.Graph.OutgoingGraphVertices | pgraph/pgraph.go:553-559 | the successors, each once |
| PointerGraph.Graph.IncomingGraphEdges | pgraph/pgraph.go:572-578 | the edge objects on the way in, as a scan of all edges would find them |
| PointerGraph.Graph.OutgoingGraphEdges | pgraph/pgraph.go:582-588 | the edge objects on the way out |
| PointerGraph.Graph.InDegree | pgraph/pgraph.go:700-709 | for every vertex the number of predecessors a full scan would count |
| PointerGraph.Graph.OutDegree | pgraph/pgraph.go:713-722 | for every vertex the number of successors |
| PointerGraph.WithoutVertexTransposed | pgraph/pgraph.go:257-279 | removing a vertex from both indexes keeps them transposes of each other |
| PointerGraph.PruneStep | pgraph/pgraph.go:299-313 | deleting pair by pair while iterating over a snapshot deletes exactly the edges meant |
| Vertices.SortVertices | pgraph/pgraph.go:428-498 | the one listing of a vertex set that is sorted by string and then by address |
| Vertices.SortedUnique | pgraph/pgraph.go:428-435 | that order admits only one sorted listing, so any correct sort gives the same |
| Vertices.StringLessIff | pgraph/pgraph.go:428-435 | a string sorts before another exactly if it is a proper prefix of it or has the smaller character where they first differ |
| Cycles.CycleSearch.Dfs | pgraph/pgraph.go:813-845 | the recursion ends on the unvisited vertices; true means a simple cycle was found, false that all that is reachable is finished in reverse topological order |
| Cycles.FindCycleDfs | pgraph/pgraph.go:793-857 | an empty answer exactly for acyclic graphs, and otherwise a simple cycle of real edges that ends where it began |
| Sorts.NotAcyclicErr | pgraph/pgraph.go:776-789 | on a cyclic graph neither programming error branch is taken: the error carries a simple cycle |
| Sorts.TopologicalSort | pgraph/pgraph.go:727-771 | succeeds exactly on acyclic graphs, with every vertex once and every edge forward; otherwise reports a simple cycle |
| Sorts.KahnDone | pgraph/pgraph.go:766-770 | when the queue runs dry, fewer vertices than the graph has were sorted exactly if there is a cycle |
| Sorts.DeterministicTopologicalSort | pgraph/pgraph.go:863-918 | the same, and the order is the one function of the graph that the sorted queue defines |
| SortLabels.OrderDependsOnLabelsOnly | pgraph/pgraph.go:863-918 | for unique strings, two graphs with the same labelled edges are sorted into the same labels, whatever their addresses and map orders |
| SortOrder.DeterministicIsLatestFirst | pgraph/pgraph.go:863-918 | at every position the deterministic order lists, of all vertices without incoming edges left, the one that became so last, and of those that did at once the last by string and address |
| SortOrder.LatestFirstIsUnique | pgraph/pgraph.go:863-918 | only one topological order of a graph is like that |
| Digraphs.NoSourceMeansCycle | pgraph/pgraph.go:727-771 | a nonempty set of vertices in which each has a predecessor contains a cycle |
| Digraphs.TopologicalOrderIsAcyclic | pgraph/pgraph.go:727-771 | a graph that has such an order has no cycle |
| Paths.BfsShortestPath | pgraph/pgraph.go:952-989 | a path of real edges of minimal length, and empty exactly when the target is unreachable or is the start; rebuilding it from the parents ends |
| Paths.FirstFindIsShortest | pgraph/pgraph.go:952-989 | the first time the search meets a vertex, no path to it is shorter |
| Paths.HasPath | pgraph/pgraph.go:994-1035 | true exactly when both vertices are in the graph and the second is the first or reachable from it |
| Paths.QueriesAgree | pgraph/pgraph.go:952-1035 | the two queries agree except when start and target are one vertex, where only HasPath says yes |
| Paths.Reachability | pgraph/pgraph.go:926-934 | the shortest path on an acyclic graph, an error on a cyclic one or for a missing vertex argument |
| Components.Dfs | pgraph/pgraph.go:600-622 | each vertex of the weakly connected component of the start, once; ends although vertices are pushed repeatedly |
| Components.FilterGraphWithFn | pgraph/pgraph.go:635-658 | the induced subgraph with the same name and objects; fails only for an empty name or a failing function |
| Components.FilterGraph | pgraph/pgraph.go:625-630 | the induced subgraph on the listed vertices |
| Components.DisconnectedGraphs | pgraph/pgraph.go:661-696 | the parts are the induced subgraphs of the weak components; it fails exactly for a nonempty graph without a name |
| Components.PartitionIsExact | pgraph/pgraph.go:661-696 | every edge, with its object, and both its ends are in exactly one part |
| Components.SameComponent | pgraph/pgraph.go:600-622 | two vertices that are connected have the same component, so the search may start anywhere in it |
| Components.ComponentIsLeast | pgraph/pgraph.go:600-622 | the component is the least set around the vertex that no edge, in either direction, leads out of |
| Comparison.GraphCmp | pgraph/pgraph.go:1055-1155 | nil only if the vertices pair up one to one with equal rows and every edge compares equal; and nil whenever they correspond in the only possible way |
| Comparison.EqualIsIsomorphic | pgraph/pgraph.go:1055-1155 | graphs found equal are isomorphic, edge for edge, if the edge comparison never accepts a missing edge |
| Comparison.IsomorphicMustBeEqual | pgraph/pgraph.go:1055-1155 | conversely, isomorphic graphs with equal edges are found equal under an equivalence that tells vertices apart |
| Comparison.EdgeCountsAgree | pgraph/pgraph.go:1066-1068 | the early comparison of edge counts never rejects graphs that correspond |
| Comparison.SyncedComparesEqual | pgraph/graphsync.go:102-193 | after a sync under an equivalence the running graph compares equal to the new one, whatever order the loops took |
| Subgraphs.AddEdgeVertexGraphHelper | pgraph/subgraph.go:80-121 | the host gains exactly the subgraph and one generated edge for each vertex that is to be linked |
| Subgraphs.FlattenedEdges | pgraph/subgraph.go:80-121 | every edge afterwards and its object: of the host, of the subgraph, or generated between the vertex and each vertex of the subgraph, in light mode only where the subgraph has no edge on that side |
| Subgraphs.AddGraph | pgraph/subgraph.go:33-35 | the host becomes the union of both graphs |
| Subgraphs.AddEdgeVertexGraph | pgraph/subgraph.go:41-43 | an edge from the vertex to every vertex of the subgraph |
| Subgraphs.AddEdgeVertexGraphLight | pgraph/subgraph.go:50-52 | an edge from the vertex to exactly those without an incoming edge |
| Subgraphs.AddEdgeGraphVertex | pgraph/subgraph.go:58-60 | an edge from every vertex of the subgraph to the vertex |
| Subgraphs.AddEdgeGraphVertexLight | pgraph/subgraph.go:67-69 | an edge to the vertex from exactly those without an outgoing edge |
| Subgraphs.LightReachesAll | pgraph/subgraph.go:45-69 | light flattening of an acyclic subgraph leaves none of its vertices unreachable from the vertex, or unable to reach it in reverse |
| Subgraphs.LightReachesAsFull | pgraph/subgraph.go:45-121 | light and full flattening of an acyclic subgraph have the same vertices and the same reachability |
| Subgraphs.FlatteningKeepsAcyclic | pgraph/subgraph.go:80-121 | flattening a disjoint acyclic subgraph into an acyclic host leaves it acyclic |
| Subgraphs.LightReachesIff | pgraph/subgraph.go:45-121 | with or without cycles, light mode connects exactly the vertices that one without an incoming edge reaches, in reverse those that reach one without an outgoing edge |
| Subgraphs.LightMissesCycles | pgraph/subgraph.go:85-102 | a concrete cycle of which light mode links nothing |
| Synchronize.MatchVertices | pgraph/graphsync.go:102-129 | each new vertex goes to some old one with the same string that compares equal, or to itself if there is none; fails only if a comparison does |
| Synchronize.RunHooks | pgraph/graphsync.go:137-148 | all removes before all adds, one run each, and nothing after the first failure |
| Synchronize.ReconcileEdges | pgraph/graphsync.go:158-184 | every edge of the new graph is in place, on the old object where that compares equal |
| Synchronize.PruneEdges | pgraph/graphsync.go:186-193 | exactly the edges whose object was saved remain |
| Synchronize.GraphSync | pgraph/graphsync.go:63-198 | on success the reconciled graph, in which every edge of the new graph is the old object if one there compares equal and the new object otherwise, and hooks run once each on exactly the set difference; on any error the receiver is untouched and the error says how far the hooks got |
| SyncLaws.IsomorphicIff | pgraph/graphsync.go:158-193 | the result is the new graph again exactly when the matching is one to one and no old edge that the new graph lacks shares its object with one chosen for another pair; both are questions about the two graphs and the matching |
| SyncLaws.SavedIff | pgraph/graphsync.go:161-184 | under a matching that is one to one, the saved objects are exactly those that the comparison chooses for some edge of the new graph |
| SyncLaws.AlwaysIsomorphicIff | pgraph/graphsync.go:63-198 | over all orders of the loops: every result is isomorphic to the new graph exactly when no old vertex is wanted twice and no possible matching leaves a stray object |
| SyncLaws.InjectiveIff | pgraph/graphsync.go:102-129 | the matching is one to one in every order of the loops exactly when no old vertex is wanted twice |
| SyncLaws.SyncIsIsomorphic | pgraph/graphsync.go:63-198 | under an equivalence that tells the new vertices apart, with unshared edge objects, the result is isomorphic to the new graph, and acyclic if that is |
| SyncLaws.KeepsEqualObjects | pgraph/graphsync.go:102-184 | a vertex is the old one with the same string that compares equal, or the new one if none does; an edge is the old object exactly if the old graph has one there that compares equal, and otherwise the new object |
| SyncLaws.RemovesComeFirst | pgraph/graphsync.go:137-148 | however far the hooks get, none runs twice for a vertex, none on anything but what goes or comes, and no remove follows an add |
| SyncLaws.SecondSyncIsIdle | pgraph/graphsync.go:102-148 | syncing again to the same graph would add and remove nothing |
| SyncLaws.SavedForAnother | pgraph/graphsync.go:186-193 | an edge the new graph lacks survives when its object is the one saved for another pair |
| SyncLaws.SharedObjectSurvives | pgraph/graphsync.go:186-193 | a concrete shared edge object that leaves a stray edge |
| SyncLaws.TwinsCollapse | pgraph/graphsync.go:102-129 | two equivalent new vertices end up as one |
| Timestamps.SweepTurnsBackIff | engine/graph/actions.go:54-85 | in a topological sweep from any timestamps, a vertex is turned back exactly if a prerequisite was stamped no later than the vertex had before |
| Timestamps.SweepNeverTurnsBack | engine/graph/actions.go:115-136 | with a clock that moves on, no vertex of the sweep is turned back, and afterwards every edge leads from an older to a newer completion |
| Timestamps.BackpokesReachRunnable | engine/graph/actions.go:115-136 | from any blocked vertex, following the reasons backwards ends within as many vertices as there are at one that may run |
| Timestamps.SkippedPokeHasAnotherReason | engine/graph/actions.go:368-389 | a successor left unpoked has a stale prerequisite other than the one that completed, exactly unless the clock stood behind its own timestamp |
| Process.State.Poke | engine/graph/state.go:350-355 | a poke is pending afterwards, also if one was before |
| Process.State.SetDirty | engine/graph/state.go:448-453 | the state is not good afterwards |
| Process.Engine.BadTimestamps | engine/graph/actions.go:54-85 | exactly the prerequisites that are not newer than the vertex, each once |
| Process.Engine.OKTimestamp | engine/graph/actions.go:48-50 | true exactly when every prerequisite completed later than the vertex |
| Process.Engine.RefreshPending | engine/graph/refresh.go:39-50 | true exactly when an incoming edge that asked for notifications has one pending |
| Process.Engine.SetUpstreamRefresh | engine/graph/refresh.go:53-60 | changes the flags of the incoming edges that ask for notifications, and of no other |
| Process.Engine.SetDownstreamRefresh | engine/graph/refresh.go:63-71 | changes the flags of the outgoing edges that ask for notifications, and of no other |
| Process.Engine.ReceiveValues | engine/graph/actions.go:208-248 | dirties the receivers of changed values, or the owner of a grouped one, up to the first that does not validate |
| Process.Engine.PokeDownstream | engine/graph/actions.go:386-409 | pokes exactly those successors all of whose prerequisites have newer timestamps than they have, and nobody when pauses are to be fast |
| Process.Engine.Process | engine/graph/actions.go:94-412 | turned back exactly for bad timestamps, having poked the culprits only; otherwise it completes exactly without error, has then poked exactly the successors whose prerequisites are all newer, and what it leaves in timestamps, dirty marks and refresh flags |
| Process.Engine.Apply | engine/graph/actions.go:286-366 | CheckApply is called exactly for a dirty resource or one with a refresh to act on, neither hidden nor only looking; a failure changes nothing |
| ProcessLaws.DirtyIsChecked | engine/graph/actions.go:286-353 | a dirty mark goes away only through a run in which CheckApply was called and succeeded, or of a hidden resource |
| ProcessLaws.RefreshIsActedOn | engine/graph/actions.go:342-353 | a pending refresh is withdrawn only by a run without error, not a noop, that called CheckApply if the resource knows refreshes |
| ProcessLaws.ChangeReachesSubscribers | engine/graph/actions.go:342-372 | as long as runs of Process do not overlap, what a resource changes stays announced to each subscriber until that one acted on it |
| ProcessLaws.CheckApplyIff | engine/graph/actions.go:259-310 | CheckApply is called exactly on a resource that is not hidden and either has a refresh to act on and may, or has none and is dirty, be it from a value just received |
| ProcessLaws.CompletionPokes | engine/graph/actions.go:368-406 | a completion stamps the vertex with the time and pokes exactly the successors all of whose prerequisites are newer than they are |
| ProcessLaws.FailurePokes | engine/graph/actions.go:54-136 | a refusal pokes exactly the prerequisites that are not newer, any other failure nobody, and neither stamps or notifies |
| ProcessLaws.CompletionCleans | engine/graph/actions.go:342-347 | afterwards clean: what was so and received nothing, and the vertex itself unless it only looked |
| ProcessLaws.CompletionNotifies | engine/graph/actions.go:342-377 | afterwards notified: what was so and is not withdrawn, and the successors that asked if something was found to change |
| ProcessLaws.InvalidStopsReceiving | engine/graph/actions.go:208-248 | up to the first received value that does not validate the receivers are dirtied, and nothing else changes |
| Refreshes.LostIffStraddled | engine/graph/actions.go:259-376 | when they do overlap, an announcement is lost exactly when it falls between the moment a run of the subscriber decides on CheckApply and its withdrawal; that run had found a refresh pending |
| Refreshes.AnnouncementIsHeard | engine/graph/actions.go:259-376 | so an announcement that is not straddled stays up until the subscriber starts a run that finds it |
| Refreshes.AloneIsProcess | engine/graph/actions.go:259-376 | a run that no other overlaps does to the flags what Process does with the engine to itself |
| Refreshes.RefreshIsLost | engine/graph/actions.go:342-376 | a run that keeps to the timestamps, loses an announcement, and ends idle with the subscriber the newest |
| Pokes.NoPokeIsLost | engine/graph/actions.go:368-409 | however completions, timestamp reads, pokes and Watch failures interleave, a vertex that may run is on its way, poked and heeding it, or about to be looked at, exactly unless it is muted; and only a Watch that restarts during a rate limit or retry delay mutes |
| Pokes.MutedDropsPokes | engine/graph/actions.go:722-724 | a muted vertex never runs and drops every poke until its Watch fails or sends an event that the main select receives |
| PokesAlone.AloneIsProcess | engine/graph/actions.go:94-406 | when nobody else moves, the timestamp reads, looks and pokes of one run leave what Process leaves in timestamps and pokes |
| Pokes.RestMeansSettled | engine/graph/actions.go:115-136 | when everything rests, every vertex with prerequisites that is not muted has one in the way, and following them ends at a vertex without any, or at a muted one |
| Freshness.MuteIsLost | engine/graph/actions.go:743-763 | a run in which a vertex that may run and is poked drops the poke, and then everything rests with that vertex older than its prerequisites |
| Freshness.NobodyLostIff | engine/graph/actions.go:368-409 | in an acyclic graph no run ever loses a vertex that may run exactly when no vertex with prerequisites combines a Watch that may restart with a rate limit or a retry delay |
| Freshness.FreshIff | engine/graph/actions.go:386-390 | in an acyclic graph no state of rest of any run has a vertex older than one of its prerequisites, exactly when no vertex has two prerequisites and none that has one may go mute |
| Freshness.TwoPrerequisitesGoStale | engine/graph/actions.go:386-390 | for every vertex with two prerequisites, a run that ends at rest although one of them completed after it last did: the poke was skipped because of the other one, which nobody pokes |
| Workers.MovePreserves | engine/graph/actions.go:420-969 | no move of a Worker breaks its invariant, wakes a quiet one, or takes back a cancellation |
| Attempts.WokenTries | engine/graph/actions.go:606-969 | in every interleaving, a Worker that received a poke or an event, was resumed, or whose Process failed and is to be retried does not go back to its main select before Process has started, unless it failed, was shut down, exited or lost its Watch |
| Attempts.TryingIsEnough | engine/graph/actions.go:722-901 | from any of these points at most four moves of its own start Process: the rate limit or the retry delay, and neither an event nor a poke |
| Attempts.ReadyCanComplete | engine/graph/actions.go:54-85 | a Process all of whose prerequisites are newer is admitted by comparing their timestamps and can complete |
| Attempts.FailureIsFinal | engine/graph/actions.go:644-651 | after an error of Watch was received or Process failed for good, no Process runs again in this life of the vertex |
| Attempts.WatchFailureIsHeard | engine/graph/actions.go:556-594 | a Watch that failed restarts before it sends anything else, and one that failed for good is heard |
| EngineLaws.RunsKeepInv | engine/graph/actions.go:420-969 | the engine invariant holds in every state of every interleaved run, across pauses, commits and resumes |
| EngineLaws.CompletionInTurn | engine/graph/actions.go:54-136 | newer timestamps of the prerequisites mean that each completed since the vertex last did |
| EngineGuarantees.NoProcessWhilePaused | engine/graph/engine.go:703-726 | from when Pause passed a vertex until Resume reaches it no Process runs there, so none runs during a commit |
| EngineGuarantees.ProcessOnlyWhenReady | engine/graph/actions.go:606-724 | a Process runs only after a first resume, on a resource neither failed nor shut down, with an event since its Watch last restarted |
| EngineGuarantees.PauseGoesDownResumeUp | engine/graph/engine.go:571-726 | a vertex is paused only after all its prerequisites were, and resumed only after everything that depends on it |
| EngineGuarantees.SwapKeepsWorkers | engine/graph/engine.go:383-562 | a swap leaves the Workers of vertices that stay untouched, drops exactly those that were shut down, and starts a new one, paused, for each new vertex |
| EngineGuarantees.PauseAndResumeAreSound | engine/graph/state.go:363-425 | neither the panic of Pause nor that of Resume can happen, the sort both start with cannot fail, and until a commit failed no resume sends on a closed channel |
| EngineGuarantees.ResumePanicsIff | engine/graph/state.go:399-425 | resuming a vertex may send on a closed channel exactly when some earlier commit failed after removing it |
| EngineGuarantees.NoChannelClosedTwice | engine/graph/actions.go:471-491 | until a commit fails, no done channel, event channel or resume channel is closed twice |
| EngineGuarantees.SecondRemoveClosesTwice | engine/graph/engine.go:401-402 | a removal closes channels a second time exactly when, earlier in the run, a commit failed after removing this vertex, which has been in the graph since; the count of closes is one more than the number of such failures |
| EngineGuarantees.ClosesCountFailures | engine/graph/engine.go:401-475 | over every run, the channels of a vertex were closed once for each commit that failed after removing it, and once more exactly while one is removing it |
| EngineGuarantees.FailedCommitThenShutdown | engine/graph/engine.go:731-752 | a run in which the commit of a shutdown after a failed commit closes a channel twice, although the API says a failed commit changes nothing |
| EngineGuarantees.PrerequisitesCompleteInTurn | engine/graph/actions.go:54-136 | between two completions of a vertex, and before its first, each of its prerequisites completed |
| EngineGuarantees.AncestorsCompleteFirst | engine/graph/actions.go:368-385 | along any chain of lasting edges everything upstream completes first |
| EngineGuarantees.FailureBlocksDescendants | engine/graph/actions.go:355-366 | a vertex that never completes keeps everything downstream from completing |
| Commit.Engine.Load | engine/graph/engine.go:181-187 | a pending graph is never overwritten |
| Commit.Engine.Abort | engine/graph/engine.go:191-197 | afterwards nothing is pending, and it fails exactly if nothing was |
| Commit.Engine.ApplyHooks | engine/graph/engine.go:255-428 | states appear for the vertices added before any failure, each removed one is told once and stays told, and the identities in use follow the hooks in order |
| Commit.Engine.CollectMetas | engine/graph/engine.go:481-491 | exactly the retry counters of identities in use remain, with their values |
| Commit.Engine.StartBackground | engine/graph/background.go:46-115 | the function runs afterwards if it ran before or could be started |
| Commit.Engine.StopBackground | engine/graph/background.go:122-140 | the function does not run afterwards |
| Commit.Engine.StartBackgrounds | engine/graph/engine.go:496-513 | succeeds exactly if each needed function runs or starts |
| Commit.Engine.Commit | engine/graph/engine.go:226-562 | swaps the graph, the states, the counters and the background functions on success; on a failed sync the graph stays but states of added vertices remain; a removal of a vertex that an earlier failed commit told to go panics; a background failure leaves the graphs swapped and nothing started |
| Commit.Engine.Shutdown | engine/graph/engine.go:731-762 | without a pending graph it succeeds exactly if no vertex was told to go before and every resource cleans up; with one it commits that instead |
| Commit.EmptyOutcome | engine/graph/engine.go:731-752 | committing an empty graph removes everything exactly if no vertex was told to go by a failed commit and every cleanup succeeds |
| Commit.ActiveAfterHooks | engine/graph/engine.go:233-252 | since removes come first, what an added resource uses stays in use although a removed one used it |
| CommitLaws.CommitKeepsTidy | engine/graph/engine.go:226-562 | a successful commit keeps states, wait groups and graph in step, and runs exactly the needed background functions |
| CommitLaws.CountersSurviveIff | engine/graph/engine.go:481-491 | the counters that survive are exactly those of non-hidden resources of the new graph, unless one that stays shares its identity with one that goes |
| CommitLaws.UniqueUidsAreNotTorn | engine/graph/engine.go:233-252 | unique identities rule that exception out |
| CommitLaws.CounterSurvivesIff | engine/graph/engine.go:481-491 | with one resource for each kind and name, a counter survives, with its value, exactly if a resource of the new graph that is not hidden has that kind and name |
| CommitLaws.BackgroundRunsIffNeeded | engine/graph/engine.go:496-562 | a background function runs exactly if a resource of the new graph that is not hidden has its kind and needs one |
| CommitLaws.HooksAnswered | engine/graph/engine.go:255-428 | whoever was added validated, initialised and had no state; whoever was removed cleaned up and had not been told to go |
| CommitLaws.FailedIsReloaded | engine/graph/engine.go:431-467 | a vertex whose Worker failed and that asks to be rewatched is removed by a commit that succeeds, also if an equal one is pending |
| CommitLaws.PendingIsServed | engine/graph/engine.go:431-467 | a pending vertex is added exactly if each running one with its string differs or one of the two asks to be reloaded, and otherwise an equal running one stays with its state |
| CommitLaws.EqualStaysUnlessItAsks | engine/graph/engine.go:431-467 | a running vertex that alone equals some pending one stays exactly unless it failed and asks to be rewatched |
| CommitLaws.EngineStaysTidy | engine/graph/engine.go:226-562 | the same over any sequence of commits and counter updates, and no counter outlives its resource |
| CommitLaws.ShutdownLeavesNothing | engine/graph/engine.go:731-762 | from a tidy engine a shutdown that works leaves no state, wait group, counter or background function |
| CommitLaws.CommittedGraphIsThePendingOne | engine/graph/engine.go:431-475 | also with failed resources swapped for equal ones, the running graph becomes isomorphic to the pending one and stays sortable |
| CommitLaws.RemovedStayOut | engine/graph/engine.go:383-428 | what left the graph is exactly what was removed, and what stays keeps its state |
| CommitLaws.RepeatFails | engine/graph/engine.go:267-269 | after a failed commit that added something, committing the same graph again fails |
| CommitLaws.RemovalCannotBeRepeated | engine/graph/engine.go:401-402 | after a failed commit that removed something, no later commit that removes it succeeds, and no shutdown does |
| Converger.Coordinator.constructor | converger/converger.go:187-191 | the loop starts unconverged, holding for one duration unless paused or disabled |
| Converger.Coordinator.Recalculate | converger/converger.go:302-330 | whether all flags are up and no hold is on; a look that finds no probe where the one before found some starts a hold of one duration, any other leaves the hold; and exactly if the state changed, the notice |
| Converger.Coordinator.ArmsTimer | converger/converger.go:217-224 | the timer is armed exactly for a deadline still ahead |
| Converger.Coordinator.Control | converger/converger.go:231-247 | pausing drops the deadline, resuming sets it unless converged |
| Converger.RunsKeepInv | converger/converger.go:177-254 | the invariant of the protocol between loop, probes, clock and pauses holds in every state of every run |
| Converger.NoLostWakeupIff | converger/converger.go:177-254 | a blocked loop waits for its timer or has announced the right state, exactly unless all probes are converged and the deadline fell between its two readings of the clock |
| Converger.DeadlineIsStraddled | converger/converger.go:209-224 | a run that ends there: convergence is due, and no timer is armed |
| Converger.NoticesAlternate | converger/converger.go:302-330 | the state functions see true, false, true and so on, never while paused, and without a head start true comes only after a full duration |
| Converger.LookMeans | converger/converger.go:302-330 | the same for a look in the protocol: the hold, the count, the state and the notice it leaves |
| Converger.LastProbeHolds | converger/converger.go:308-314 | in every run, once the last probe has left, convergence is not announced until a full duration after the look that found none, whatever is registered, poked, paused and resumed meanwhile |
| ConvergerUid.Uid.StartTimer | converger/converger.go:436-448 | the flag goes down and a new timer replaces any other |
| ConvergerUid.Uid.StopTimer | converger/converger.go:452-467 | flag and timer go, exactly if it was running |
| ConvergerUid.Uid.ResetTimer | converger/converger.go:471-485 | a new timer, exactly if it was running |
| ConvergerUid.Uid.TimerCallback | converger/converger.go:508-521 | the flag goes up only for the timer that is in place |
| ConvergerUid.ProbeStaysOk | converger/converger.go:436-523 | in every interleaving the flag is up only on a running probe, one duration or more after the last start or reset |
| ConvergerUid.ConvergedMeansUndisturbed | converger/converger.go:436-523 | a converged probe was started or reset at least one duration ago and neither stopped nor disturbed since |
| ConvergerUid.UndisturbedConverges | converger/converger.go:436-521 | and conversely the callback of the timer raises the flag of a probe left alone since its last start or reset, and is due one duration after that |
| ConvergerUid.DisturbanceLowersFlag | converger/converger.go:436-485 | stopping, starting or resetting a running probe takes the flag down |
| ConvergerUid.StaleCallbackChangesNothing | converger/converger.go:500-523 | a callback of a timer from before a stop, start or reset changes nothing when it runs later |
| RoundRobin.RrStrategy.Schedule | scheduler/rrstrategy.go:51-129 | the decision from the cache, or from Last() while that is empty, cut to the maximum; and each error |
| RoundRobin.DropMissing | scheduler/rrstrategy.go:110-117 | deleting from the back leaves exactly the available hosts in order |
| RoundRobin.AppendNew | scheduler/rrstrategy.go:92-103 | hosts not known yet follow, sorted, each once |
| RoundRobin.ResultIsExact | scheduler/rrstrategy.go:119-128 | distinct available hosts, exactly as many as the maximum and the supply allow |
| RoundRobin.KeptMovesUp | scheduler/rrstrategy.go:110-117 | no host moves back in the list when others leave |
| RoundRobin.EveryResultIsExact | scheduler/rrstrategy.go:51-129 | the same for every call of every history, across changes of leader |
| RoundRobin.NoChurn | scheduler/rrstrategy.go:51-129 | a scheduled host that stays available stays scheduled while the maximum does not shrink, however often the leader changes |
| Signals.SubscribedSignal.Subscribe | util/sync.go:209-225 | one more is waited for, and the current channel is handed out |
| Signals.SubscribedSignal.SendBegin | util/sync.go:233-239 | the current channel, if any, is closed |
| Signals.SubscribedSignal.SendEnd | util/sync.go:240-245 | a new channel takes its place |
| Signals.BroadcastStaysOk | util/sync.go:188-245 | in every interleaving whoever has not acknowledged holds the current channel, closed exactly while a Send is under way |
| Signals.SubscribersSeeEverySend | util/sync.go:209-245 | no channel is closed twice, and Subscribe never hands out a closed one |
| Signals.SendWaitsForAll | util/sync.go:233-245 | Send returns only after all who were subscribed when it began acknowledged |
| Signals.NoSignalTwice | util/sync.go:209-245 | a subscription taken out after a Send began is on another channel |
| Signals.BoundedReadSemaphore.LockBegin | util/sync.go:285-294 | the first locker waits for a reader, the others are through |
| Signals.BoundedReadSemaphore.UnlockBegin | util/sync.go:299-312 | the last unlocker waits for a reader, and unlocking nothing panics |
| Signals.SignalsBracketLocks | util/sync.go:258-312 | starts and ends alternate and bracket exactly the time in which a lock is held; Unlock panics exactly when none is |

## Left out

- `CopyWithFn` and `VertexSwap`: whether they succeed depends on the order of map iteration.
- The key-value store of a graph, its printing, and `VertexMatchFn`.
- A nil inner map of the adjacency index is read as an empty row, and `GraphSync` on a nil receiver is not modelled.
- Hooks and comparisons that change the graphs while `GraphSync` runs.
- Effects of Commit's hooks take place after the sync in the order GraphSync ran them, not inside it; nothing in GraphSync
  reads what they change.
- `sort.Sort` and `sort.Strings` are replaced by loops with their unique results.
- Process.Engine.Process: one run with the engine to itself; overlapping runs are in `Refreshes` for the refresh flags, in
  `Pokes` for timestamps and pokes, and in `EngineRuns` for completions.  Dirty marks that other goroutines set during a run are
  not modelled.  Send/recv, the semaphores, CheckApply and the exporter are answers given from outside, and clearing the
  send/recv change flags is not modelled.
- Pokes.NoPokeIsLost: within a run the graph stays; a commit ends one, and the next begins with Workers that are new or have
  been resumed in any of the selects.  A fast pause and a soft interrupt, which drop pokes on purpose on the way out, are not
  modelled.  A pause in the middle of a run is a Worker that does not move.
- Freshness.FreshIff: only on acyclic graphs, the ones that the engine runs.
- Liveness of Workers beyond `Attempts`, which says what is enabled and what is not skipped: that a move is made
  eventually, that a pause is received, or that a restarted Watch sends its event.
- Rate limits and retry delays take any time; the retry counter's arithmetic is not modelled, a run may be retried or fail for
  good at any time, and a Worker that starts may set its counter to anything (the Reset metaparameter is not separate).
- EngineGuarantees.NoProcessWhilePaused: Process is one span between its start and its return; the exporter goroutine inside
  it is not separate.
- The senders index of a commit, the graph pointer kept in each state, the state prefix directories, and the watchdogs.
- Real time: clocks are integers that do not run backwards, and the engine's clock is positive.
- Panics of user code, logging, contexts other than the cancellation of a Worker.
- Errors of the state functions beyond the fact that they end the coordinator's loop.
- Storing a scheduling decision, and the other strategies; values of the hostname map are unused by `rr` and by the model.
- The command line, the language frontend, the embedded etcd and all resources: input and output, or code this core only
  calls.
