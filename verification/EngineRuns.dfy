/** The running engine as a step relation: Workers that interleave freely, the timestamps that order their runs of
    Process, and the control thread that pauses, commits a new graph and resumes. */
module EngineRuns {
  import opened Vertices
  import opened Digraphs
  import opened Workers

  /** What happened: a state was created for a vertex, or it completed with these prerequisites at the time. */
  datatype Entry = Began(v: Vertex) | Completed(v: Vertex, at: int, preds: set<Vertex>)

  /** Where the control thread is.  `todo` are the vertices that Pause or Resume still has to visit; during a commit
      `removed` have been shut down and `waiting` is being waited for. */
  datatype Control =
    | Running
    | Pausing(todo: seq<Vertex>)
    | Paused
    | Committing(removed: set<Vertex>, waiting: Option<Vertex>)
    | Resuming(todo: seq<Vertex>)
    | Panicked

  /** `broken` records that a commit failed; the engine is not meant to be resumed after that. */
  datatype Engine = Engine(graph: Adjacency, workers: map<Vertex, Worker>, control: Control, clock: int,
                           log: seq<Entry>, broken: bool)

  ghost predicate Init(s: Engine) {
    s.graph == map[] && s.workers == map[] && s.control == Running && s.clock > 0 && s.log == [] && !s.broken
  }

  /* ----- steps ----- */

  datatype Step =
    | WorkerMove(v: Vertex, m: Move)
    | ProcessStarts(v: Vertex)
    | ReadsTimestamp(v: Vertex, p: Vertex)
    | Admitted(v: Vertex)
    | Completes(v: Vertex, now: int)
    | PauseStarts(order: seq<Vertex>)
    | PauseReceived
    | PauseFindsClosed
    | PauseEnds
    | ResumeStarts(order: seq<Vertex>)
    | ResumeReceived
    | ResumeFindsClosed
    | ResumeEnds
    | CommitStarts
    | RemoveStarts(v: Vertex)
    | RemoveEnds
    | CommitEnds(next: Adjacency)
    | CommitFails
    | ControlPanics
    | ResumeOnClosed

  function With(s: Engine, v: Vertex, w: Worker): Engine {
    s.(workers := s.workers[v := w])
  }

  /** The steps of the Workers and of the runs of Process inside them. */
  ghost predicate WorkerStep(s: Engine, s': Engine, step: Step) {
    match step
    case WorkerMove(v, m) =>
      v in s.workers && Enabled(s.workers[v], m) && s' == With(s, v, Moved(s.workers[v], m))
    case ProcessStarts(v) =>
      // reads its own timestamp first, and then compares it with each prerequisite's, one at a time
      && v in s.workers && var w := s.workers[v];
      && w.pc == RetryCheck && MayProcess(w)
      && s' == With(s, v, w.(pc := Processing, proc := Checking(w.stamp, Preds(s.graph, v), true)))
    case ReadsTimestamp(v, p) =>
      && v in s.workers && p in s.workers && var w := s.workers[v];
      && w.pc == Processing && w.proc.Checking? && p in w.proc.unread
      && s' == With(s, v, w.(proc := Checking(w.proc.ts, w.proc.unread - {p},
                                              w.proc.good && !(w.proc.ts >= s.workers[p].stamp))))
    case Admitted(v) =>
      && v in s.workers && var w := s.workers[v];
      && w.pc == Processing && w.proc.Checking? && w.proc.unread == {} && w.proc.good
      && s' == With(s, v, w.(proc := Applying))
    case Completes(v, now) =>
      // a run that ended without error updates the timestamp; the clock does not run backwards
      && v in s.workers && var w := s.workers[v];
      && w.pc == Processing && w.proc == Applying && now >= s.clock
      && s' == With(s, v, w.(proc := Completing, stamp := now, doneAt := |s.log|))
               .(clock := now, log := s.log + [Completed(v, now, Preds(s.graph, v))])
    case _ => false
  }

  /** The steps of the control thread. */
  ghost predicate ControlStep(s: Engine, s': Engine, step: Step) {
    match step
    case PauseStarts(order) =>
      // the error of the sort is ignored, so nothing would be visited in a graph with a cycle
      && s.control == Running && (if Acyclic(s.graph) then TopologicalOrder(s.graph, order) else order == [])
      && s' == s.(control := Pausing(order))
    case PauseReceived =>
      && s.control.Pausing? && s.control.todo != [] && s.control.todo[0] in s.workers
      && var v := s.control.todo[0]; var w := s.workers[v];
      && !w.paused && Pausable(w.pc)
      && s' == With(s, v, w.(pc := PausedFrom(w.pc), paused := true)).(control := Pausing(s.control.todo[1..]))
    case PauseFindsClosed =>
      && s.control.Pausing? && s.control.todo != [] && s.control.todo[0] in s.workers
      && s.workers[s.control.todo[0]].doneCancelled
      && s' == s.(control := Pausing(s.control.todo[1..]))
    case PauseEnds =>
      s.control == Pausing([]) && s' == s.(control := Paused)
    case ResumeStarts(order) =>
      && s.control == Paused && TopologicalOrder(s.graph, Backwards(order))
      && s' == s.(control := Resuming(order))
    case ResumeReceived =>
      && s.control.Resuming? && s.control.todo != [] && s.control.todo[0] in s.workers
      && var v := s.control.todo[0]; var w := s.workers[v];
      && (w.paused || w.doneCancelled) && AwaitsResume(w.pc)
      && s' == With(s, v, w.(pc := ResumedTo(w.pc), paused := false, resumedOnce := true))
               .(control := Resuming(s.control.todo[1..]))
    case ResumeFindsClosed =>
      && s.control.Resuming? && s.control.todo != [] && s.control.todo[0] in s.workers
      && s.workers[s.control.todo[0]].doneCancelled
      && s' == s.(control := Resuming(s.control.todo[1..]))
    case ResumeEnds =>
      s.control == Resuming([]) && s' == s.(control := Running)
    case ControlPanics =>
      // "already paused", and "not paused or exited"
      && (s.control.Pausing? || s.control.Resuming?) && s.control.todo != [] && s.control.todo[0] in s.workers
      && var w := s.workers[s.control.todo[0]];
      && !w.doneCancelled && w.paused == s.control.Pausing?
      && s' == s.(control := Panicked)
    case ResumeOnClosed =>
      // the send that resumes a Worker panics if its channel is closed
      && s.control.Resuming? && s.control.todo != [] && s.control.todo[0] in s.workers
      && var w := s.workers[s.control.todo[0]];
      && w.closes.resume > 0 && (w.paused || w.doneCancelled)
      && s' == s.(control := Panicked)
    case _ => false
  }

  ghost function Backwards(l: seq<Vertex>): seq<Vertex> {
    seq(|l|, i requires 0 <= i < |l| => l[|l| - 1 - i])
  }

  function Shut(w: Worker): Worker {
    w.(closes := w.closes.(remove := w.closes.remove + 1, resume := w.closes.resume + 1))
  }

  /** The steps of a commit: every remove before the swap, which adds the new vertices and starts their Workers. */
  ghost predicate CommitStep(s: Engine, s': Engine, step: Step) {
    match step
    case CommitStarts =>
      s.control == Paused && s' == s.(control := Committing({}, None))
    case RemoveStarts(v) =>
      && s.control.Committing? && s.control.waiting == None && v in s.workers && v !in s.control.removed
      && s' == With(s, v, Shut(s.workers[v])).(control := Committing(s.control.removed, Some(v)))
    case RemoveEnds =>
      && s.control.Committing? && s.control.waiting.Some? && s.control.waiting.value in s.workers
      && s.workers[s.control.waiting.value].pc == Exited
      && s' == s.(control := Committing(s.control.removed + {s.control.waiting.value}, None))
    case CommitEnds(next) =>
      && s.control.Committing? && s.control.waiting == None && Closed(next) && Acyclic(next)
      && s.workers.Keys - s.control.removed <= next.Keys && s.control.removed !! next.Keys
      && exists added :: Listed(added, next.Keys - s.workers.Keys) && s' == Swapped(s, next, added)
    case CommitFails =>
      && s.control.Committing? && s.control.waiting == None
      && s' == s.(control := Paused, broken := true)
    case _ => false
  }

  ghost predicate Listed(l: seq<Vertex>, s: set<Vertex>) {
    Distinct(l) && Elements(l) == s
  }

  ghost function Births(added: seq<Vertex>): seq<Entry> {
    seq(|added|, i requires 0 <= i < |added| => Began(added[i]))
  }

  ghost function Swapped(s: Engine, next: Adjacency, added: seq<Vertex>): Engine
    requires s.control.Committing?
  {
    var kept := s.workers - s.control.removed;
    Engine(next,
           map v | v in next.Keys && (v in kept || v in added) ::
             if v in kept then kept[v] else NewWorker(|s.log| + IndexOf(added, v)),
           Paused, s.clock, s.log + Births(added), s.broken)
  }

  ghost predicate NextBy(s: Engine, s': Engine, step: Step) {
    WorkerStep(s, s', step) || ControlStep(s, s', step) || CommitStep(s, s', step)
  }

  ghost predicate Next(s: Engine, s': Engine) {
    exists step :: NextBy(s, s', step)
  }

  ghost predicate IsRun(run: seq<Engine>) {
    && run != [] && Init(run[0])
    && forall i | 0 <= i < |run| - 1 :: Next(run[i], run[i + 1])
  }

  /* ----- the invariant ----- */

  /** The Workers and the control thread agree on who may process. */
  ghost predicate ControlOk(s: Engine) {
    match s.control
    case Running => forall v | v in s.workers :: NotPaused(s.workers[v])
    case Pausing(todo) =>
      && s.workers.Keys >= Elements(todo)
      && (forall v | v in s.workers && v in todo :: NotPaused(s.workers[v]))
      && (forall v | v in s.workers && v !in todo :: PausedOk(s.workers[v]))
    case Paused => forall v | v in s.workers :: PausedOk(s.workers[v])
    case Committing(_, _) => forall v | v in s.workers :: PausedOk(s.workers[v])
    case Resuming(todo) =>
      && s.workers.Keys >= Elements(todo)
      && (forall v | v in s.workers && v in todo :: PausedOk(s.workers[v]))
      && (forall v | v in s.workers && v !in todo :: NotPaused(s.workers[v]))
    case Panicked => s.broken
  }

  predicate NotPaused(w: Worker) {
    w.paused ==> w.doneCancelled
  }

  predicate PausedOk(w: Worker) {
    Quiet(w) && (!w.paused ==> w.doneCancelled)
  }

  /** A Worker told to go has gone, except the one being waited for; and it is told once per commit. */
  ghost predicate RemovalOk(s: Engine) {
    && (forall v | v in s.workers && s.workers[v].closes.remove > 0 ::
          s.workers[v].pc == Exited || (s.control.Committing? && s.control.waiting == Some(v)))
    && (s.control.Committing? ==> s.control.waiting.Some? ==> s.control.waiting.value !in s.control.removed)
    && (!s.broken ==> forall v | v in s.workers ::
          s.workers[v].closes.remove
          == if s.control.Committing? && (v in s.control.removed || s.control.waiting == Some(v)) then 1 else 0)
  }

  ghost predicate GraphOk(s: Engine) {
    && Closed(s.graph) && Acyclic(s.graph) && s.graph.Keys == s.workers.Keys
    && (s.control.Pausing? || s.control.Resuming? ==> Distinct(s.control.todo))
  }

  ghost predicate WorkersOk(s: Engine) {
    forall v | v in s.workers :: WorkerOk(s.workers[v])
  }

  /** Completion times in the log never decrease, and none is in the future. */
  ghost predicate LogSorted(log: seq<Entry>, clock: int) {
    && clock > 0
    && (forall i | 0 <= i < |log| && log[i].Completed? :: 0 < log[i].at <= clock)
    && (forall i, j | 0 <= i < j < |log| && log[i].Completed? && log[j].Completed? :: log[i].at <= log[j].at)
  }

  /** A timestamp is the time of the last completion in this life of the vertex, or zero if there was none. */
  ghost predicate StampOk(log: seq<Entry>, v: Vertex, w: Worker) {
    && w.born < |log| && log[w.born] == Began(v)
    && (forall m | w.born < m < |log| :: log[m] != Began(v))
    && w.doneAt < |log|
    && (w.doneAt < 0 ==> w.stamp == 0)
    && (w.doneAt >= 0 ==> w.born < w.doneAt && log[w.doneAt].Completed? && log[w.doneAt].v == v && log[w.doneAt].at == w.stamp)
    && (forall m | w.born < m < |log| && log[m].Completed? && log[m].v == v :: m <= w.doneAt)
  }

  ghost predicate StampsOk(s: Engine) {
    forall v | v in s.workers :: StampOk(s.log, v, s.workers[v])
  }

  /** A run of Process that has compared some prerequisites without fault, or all of them, is still right about them:
      other timestamps only grow, and its own does not change while it runs. */
  ghost predicate ProcOk(s: Engine, v: Vertex, w: Worker) {
    match w.proc
    case Checking(ts, unread, good) =>
      && ts == w.stamp && unread <= Preds(s.graph, v)
      && (good ==> forall p | p in Preds(s.graph, v) && p !in unread && p in s.workers :: s.workers[p].stamp > w.stamp)
    case Applying => forall p | p in Preds(s.graph, v) && p in s.workers :: s.workers[p].stamp > w.stamp
    case _ => true
  }

  ghost predicate ProcsOk(s: Engine) {
    forall v | v in s.workers :: ProcOk(s, v, s.workers[v])
  }

  /** The completion of `p` at `j` lies between the completion of `v` at `k` and the one before it: `p` was not
      recreated since `j`, and if `v` completed after `j` then that was in an earlier life. */
  ghost predicate Between(log: seq<Entry>, p: Vertex, v: Vertex, j: int, k: int) {
    && 0 <= j < k <= |log| && log[j].Completed? && log[j].v == p
    && (forall m | j < m < k :: log[m] != Began(p))
    && (forall m | j < m < k && log[m].Completed? && log[m].v == v :: exists n :: m < n < k && log[n] == Began(v))
  }

  ghost predicate CompletedInTurn(log: seq<Entry>, k: int)
    requires 0 <= k < |log|
  {
    log[k].Completed? ==> forall p | p in log[k].preds :: exists j :: Between(log, p, log[k].v, j, k)
  }

  /** Every completion had each of its prerequisites complete since the one before. */
  ghost predicate InTurn(log: seq<Entry>) {
    forall k | 0 <= k < |log| :: CompletedInTurn(log, k)
  }

  ghost predicate Inv(s: Engine) {
    && GraphOk(s) && WorkersOk(s) && ControlOk(s) && RemovalOk(s)
    && LogSorted(s.log, s.clock) && StampsOk(s) && ProcsOk(s) && InTurn(s.log)
  }
}
