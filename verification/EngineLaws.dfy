/** What every run of the engine keeps, and what follows: no processing while paused, dependency order across every
    interleaving and every graph swap, and no channel closed twice. */
module EngineLaws {
  import opened Vertices
  import opened Digraphs
  import opened Workers
  import opened EngineRuns

  lemma InitOk(s: Engine)
    requires Init(s)
    ensures Inv(s)
  {
    forall p: seq<Vertex> ensures !Cycle(s.graph, p) {
      if |p| >= 2 {
        assert !HasEdge(s.graph, p[0], p[0 + 1]);
      }
    }
  }

  /* ----- one Worker changes ----- */

  /** A change that the engine and its history do not notice. */
  predicate Mild(was: Worker, w: Worker) {
    && w.stamp == was.stamp && w.doneAt == was.doneAt && w.born == was.born && w.paused == was.paused
    && w.closes.remove == was.closes.remove
    && (Quiet(was) ==> Quiet(w))
    && (was.doneCancelled ==> w.doneCancelled)
    && (was.pc == Exited ==> w.pc == Exited)
  }

  lemma NoSelfLoop(g: Adjacency, v: Vertex)
    requires Acyclic(g)
    ensures !HasEdge(g, v, v)
  {
    if HasEdge(g, v, v) {
      assert Cycle(g, [v, v]);
    }
  }

  /** Other timestamps may only have grown. */
  lemma GrowingStampsKeepProcs(s: Engine, s': Engine, v: Vertex)
    requires GraphOk(s) && ProcsOk(s)
    requires s'.graph == s.graph && s'.workers.Keys == s.workers.Keys && v in s.workers
    requires forall u | u in s.workers && u != v :: s'.workers[u] == s.workers[u]
    requires s'.workers[v].stamp >= s.workers[v].stamp && ProcOk(s, v, s'.workers[v])
    ensures ProcsOk(s')
  {
    hide Acyclic, Closed;
    forall u | u in s'.workers ensures ProcOk(s', u, s'.workers[u]) {
      NoSelfLoop(s.graph, u);
      assert ProcOk(s, u, s.workers[u]);
    }
  }

  lemma MildControl(s: Engine, s': Engine, v: Vertex, w: Worker)
    requires ControlOk(s) && v in s.workers && s' == With(s, v, w) && Mild(s.workers[v], w)
    ensures ControlOk(s')
  {
    hide Quiet;
  }

  lemma MildRemoval(s: Engine, s': Engine, v: Vertex, w: Worker)
    requires RemovalOk(s) && v in s.workers && s' == With(s, v, w) && Mild(s.workers[v], w)
    ensures RemovalOk(s')
  {
    hide Quiet;
  }

  lemma MildStamps(s: Engine, s': Engine, v: Vertex, w: Worker)
    requires StampsOk(s) && v in s.workers && s' == With(s, v, w) && Mild(s.workers[v], w)
    ensures StampsOk(s')
  {
    hide Quiet;
    forall u | u in s'.workers ensures StampOk(s'.log, u, s'.workers[u]) {
      assert StampOk(s.log, u, s.workers[u]);
    }
  }

  lemma MildKeeps(s: Engine, s': Engine, v: Vertex, w: Worker)
    requires Inv(s) && v in s.workers && s' == With(s, v, w)
    requires Mild(s.workers[v], w) && WorkerOk(w) && ProcOk(s, v, w)
    ensures Inv(s')
  {
    hide InTurn, LogSorted, WorkerOk, ProcOk, ProcsOk, ControlOk, RemovalOk, StampsOk, Acyclic, Closed, Quiet;
    GrowingStampsKeepProcs(s, s', v);
    MildStamps(s, s', v, w);
    MildControl(s, s', v, w);
    MildRemoval(s, s', v, w);
  }

  lemma WorkerMoveKeeps(s: Engine, s': Engine, v: Vertex, m: Move)
    requires Inv(s) && WorkerStep(s, s', WorkerMove(v, m))
    ensures Inv(s')
  {
    hide InTurn, LogSorted, WorkerOk, StampsOk, Acyclic, Closed, ControlOk, RemovalOk, Moved, Enabled, Quiet;
    var w := s.workers[v];
    assert WorkerOk(w) && ProcOk(s, v, w);
    MovePreserves(w, m);
    MildKeeps(s, s', v, Moved(w, m));
  }

  lemma CheckKeeps(s: Engine, s': Engine, step: Step)
    requires Inv(s) && WorkerStep(s, s', step) && (step.ProcessStarts? || step.ReadsTimestamp? || step.Admitted?)
    ensures Inv(s')
  {
    hide InTurn, LogSorted, StampsOk, Acyclic, Closed, ControlOk, RemovalOk;
    var v := step.v;
    assert WorkerOk(s.workers[v]) && ProcOk(s, v, s.workers[v]);
    MildKeeps(s, s', v, s'.workers[v]);
  }

  /* ----- a completion ----- */

  lemma LogGrowsSorted(log: seq<Entry>, clock: int, e: Entry)
    requires LogSorted(log, clock) && e.Completed? && e.at >= clock
    ensures LogSorted(log + [e], e.at)
  {
  }

  lemma CompletionStamps(s: Engine, s': Engine, v: Vertex, now: int)
    requires LogSorted(s.log, s.clock) && StampsOk(s) && WorkerStep(s, s', Completes(v, now))
    ensures StampsOk(s')
  {
    hide LogSorted;
    forall u | u in s'.workers ensures StampOk(s'.log, u, s'.workers[u]) {
      assert StampOk(s.log, u, s.workers[u]);
    }
  }

  /** The heart of it: when all timestamps of the prerequisites are newer, each of them has completed since. */
  lemma CompletionInTurn(s: Engine, v: Vertex, p: Vertex)
    requires LogSorted(s.log, s.clock) && StampsOk(s) && v in s.workers && p in s.workers
    requires s.workers[p].stamp > s.workers[v].stamp
    ensures Between(s.log, p, v, s.workers[p].doneAt, |s.log|)
  {
    var w, j := s.workers[v], s.workers[p].doneAt;
    assert StampOk(s.log, v, w) && StampOk(s.log, p, s.workers[p]);
    assert w.doneAt < j;
    forall m | j < m < |s.log| && s.log[m].Completed? && s.log[m].v == v
      ensures exists n :: m < n < |s.log| && s.log[n] == Began(v)
    {
      assert m < w.born && s.log[w.born] == Began(v);
    }
  }

  lemma InTurnExtends(log: seq<Entry>, more: seq<Entry>)
    requires InTurn(log)
    requires forall k | |log| <= k < |log + more| :: CompletedInTurn(log + more, k)
    ensures InTurn(log + more)
  {
    forall k | 0 <= k < |log + more| ensures CompletedInTurn(log + more, k) {
      if k < |log| {
        assert CompletedInTurn(log, k);
        BetweenInPrefix(log, log + more, k);
      }
    }
  }

  lemma BetweenInPrefix(log: seq<Entry>, longer: seq<Entry>, k: int)
    requires log <= longer && 0 <= k < |log| && CompletedInTurn(log, k)
    ensures CompletedInTurn(longer, k)
  {
    if log[k].Completed? {
      forall p | p in log[k].preds ensures exists j :: Between(longer, p, log[k].v, j, k) {
        var j :| Between(log, p, log[k].v, j, k);
        BetweenExtends(log, longer, p, log[k].v, j, k);
      }
    }
  }

  lemma BetweenExtends(log: seq<Entry>, longer: seq<Entry>, p: Vertex, v: Vertex, j: int, k: int)
    requires log <= longer && Between(log, p, v, j, k)
    ensures Between(longer, p, v, j, k)
  {
    forall m | j < m < k && longer[m].Completed? && longer[m].v == v
      ensures exists n :: m < n < k && longer[n] == Began(v)
    {
      var n :| m < n < k && log[n] == Began(v);
      assert longer[n] == Began(v);
    }
  }

  lemma CompletionLog(s: Engine, s': Engine, v: Vertex, now: int)
    requires Inv(s) && WorkerStep(s, s', Completes(v, now))
    ensures InTurn(s'.log)
  {
    hide InTurn, LogSorted, StampsOk, Acyclic, Closed, ControlOk, RemovalOk, Between, WorkersOk;
    var e := Completed(v, now, Preds(s.graph, v));
    assert ProcOk(s, v, s.workers[v]);
    forall p | p in e.preds ensures exists j :: Between(s'.log, p, v, j, |s.log|) {
      CompletionInTurn(s, v, p);
      BetweenExtends(s.log, s'.log, p, v, s.workers[p].doneAt, |s.log|);
    }
    InTurnExtends(s.log, [e]);
  }

  lemma CompletionKeeps(s: Engine, s': Engine, v: Vertex, now: int)
    requires Inv(s) && WorkerStep(s, s', Completes(v, now))
    ensures Inv(s')
  {
    hide InTurn, LogSorted, StampsOk, Acyclic, Closed, ControlOk, RemovalOk, ProcsOk;
    var was, w := s.workers[v], s'.workers[v];
    assert WorkerOk(was);
    CompletionLog(s, s', v, now);
    CompletionStamps(s, s', v, now);
    LogGrowsSorted(s.log, s.clock, Completed(v, now, Preds(s.graph, v)));
    StampBelowClock(s, v);
    GrowingStampsKeepProcs(s, s', v);
    CompletionControl(s, s', v, now);
  }

  lemma StampBelowClock(s: Engine, v: Vertex)
    requires LogSorted(s.log, s.clock) && StampsOk(s) && v in s.workers
    ensures 0 <= s.workers[v].stamp <= s.clock
  {
    assert StampOk(s.log, v, s.workers[v]);
  }

  lemma CompletionControl(s: Engine, s': Engine, v: Vertex, now: int)
    requires ControlOk(s) && RemovalOk(s) && WorkerStep(s, s', Completes(v, now))
    ensures ControlOk(s') && RemovalOk(s')
  {
    assert !Quiet(s.workers[v]) ==> !Quiet(s'.workers[v]);
    assert Quiet(s'.workers[v]) == Quiet(s.workers[v]);
  }

  /* ----- pause and resume ----- */

  /** Only the control thread moves, between positions outside a commit. */
  lemma OnlyControlKeeps(s: Engine, c: Control)
    requires Inv(s) && !s.control.Committing? && !c.Committing?
    requires c.Pausing? || c.Resuming? ==> Distinct(c.todo)
    requires ControlOk(s.(control := c))
    ensures Inv(s.(control := c))
  {
    hide InTurn, LogSorted, WorkerOk, Closed, Acyclic, Quiet, ControlOk;
    var s' := s.(control := c);
    assert StampsOk(s') && WorkersOk(s');
    forall v | v in s'.workers ensures ProcOk(s', v, s'.workers[v]) {
      assert ProcOk(s, v, s.workers[v]);
    }
  }

  lemma StartKeeps(s: Engine, s': Engine, step: Step)
    requires Inv(s) && ControlStep(s, s', step) && (step.PauseStarts? || step.ResumeStarts?)
    ensures Inv(s')
  {
    hide InTurn, LogSorted, StampsOk, ProcsOk, WorkersOk, RemovalOk, Closed, Acyclic, Quiet;
    if step.ResumeStarts? {
      BackwardsElements(step.order);
    }
    assert Elements(step.order) == s.workers.Keys && Distinct(step.order);
    forall v | v in s.workers ensures v in step.order {
      assert v in Elements(step.order);
    }
    OnlyControlKeeps(s, s'.control);
  }

  lemma BackwardsElements(l: seq<Vertex>)
    ensures Elements(Backwards(l)) == Elements(l)
    ensures Distinct(Backwards(l)) ==> Distinct(l)
  {
    var b := Backwards(l);
    forall v | v in l ensures v in b {
      var i := IndexOf(l, v);
      assert b[|l| - 1 - i] == v;
    }
    if Distinct(b) {
      forall i, j | 0 <= i < j < |l| ensures l[i] != l[j] {
        assert b[|l| - 1 - j] == l[j] && b[|l| - 1 - i] == l[i];
      }
    }
  }

  lemma EndKeeps(s: Engine, s': Engine, step: Step)
    requires Inv(s) && ControlStep(s, s', step) && (step.PauseEnds? || step.ResumeEnds?)
    ensures Inv(s')
  {
    hide InTurn, LogSorted, StampsOk, ProcsOk, WorkersOk, RemovalOk, Closed, Acyclic, Quiet;
    OnlyControlKeeps(s, s'.control);
  }

  lemma FindsClosedKeeps(s: Engine, s': Engine, step: Step)
    requires Inv(s) && ControlStep(s, s', step) && (step.PauseFindsClosed? || step.ResumeFindsClosed?)
    ensures Inv(s')
  {
    hide InTurn, LogSorted, StampsOk, ProcsOk, WorkersOk, Closed, Acyclic, Quiet;
    FindsClosedControl(s, s', step);
    OnlyControlKeeps(s, s'.control);
  }

  /** A cancelled Worker counts as paused and as resumed: it is dead. */
  lemma CancelledIsDead(s: Engine, v: Vertex)
    requires Inv(s) && v in s.workers && s.workers[v].doneCancelled && !s.control.Committing?
    ensures Dead(s.workers[v])
  {
    hide InTurn, LogSorted, StampsOk, ProcsOk, Closed, Acyclic, ControlOk, ClosesOk;
    assert WorkerOk(s.workers[v]);
  }

  lemma FindsClosedControl(s: Engine, s': Engine, step: Step)
    requires Inv(s) && ControlStep(s, s', step) && (step.PauseFindsClosed? || step.ResumeFindsClosed?)
    ensures ControlOk(s') && Distinct(s'.control.todo)
  {
    hide InTurn, LogSorted, StampsOk, ProcsOk, WorkersOk, Closed, Acyclic, RemovalOk, Dead;
    var l := s.control.todo;
    CancelledIsDead(s, l[0]);
    TailElements(l);
  }

  lemma TailElements(l: seq<Vertex>)
    requires l != [] && Distinct(l)
    ensures Distinct(l[1..]) && l[0] !in l[1..] && Elements(l[1..]) <= Elements(l)
    ensures forall v | v in l && v != l[0] :: v in l[1..]
  {
    assert l == [l[0]] + l[1..];
  }

  lemma NeverPanics(s: Engine, s': Engine)
    requires Inv(s)
    ensures !ControlStep(s, s', ControlPanics)
  {
    hide InTurn, LogSorted, StampsOk, ProcsOk, WorkersOk, Closed, Acyclic, RemovalOk, Quiet;
  }

  /** A resume channel is closed only for a Worker that an earlier commit told to go, and if that commit had succeeded
      the Worker would not be there to be resumed. */
  lemma ResumeOnClosedIsBroken(s: Engine, s': Engine)
    requires Inv(s) && ControlStep(s, s', ResumeOnClosed)
    ensures s.broken
  {
    hide InTurn, LogSorted, StampsOk, ProcsOk, Closed, Acyclic, ControlOk, Quiet;
    assert WorkerOk(s.workers[s.control.todo[0]]);
  }

  lemma ResumeOnClosedKeeps(s: Engine, s': Engine)
    requires Inv(s) && ControlStep(s, s', ResumeOnClosed)
    ensures Inv(s')
  {
    hide InTurn, LogSorted, StampsOk, ProcsOk, WorkersOk, RemovalOk, Closed, Acyclic, Quiet;
    ResumeOnClosedIsBroken(s, s');
    OnlyControlKeeps(s, s'.control);
  }

  lemma ReceivedKeeps(s: Engine, s': Engine, step: Step)
    requires Inv(s) && ControlStep(s, s', step) && (step.PauseReceived? || step.ResumeReceived?)
    ensures Inv(s')
  {
    hide InTurn, LogSorted, Closed, Acyclic, ControlOk, Quiet, StampsOk, ProcsOk, RemovalOk, WorkersOk;
    ReceivedWorker(s, s', step);
    ReceivedHistory(s, s', s.control.todo[0]);
    ReceivedControl(s, s', step);
    ReceivedRemoval(s, s', step);
    TailElements(s.control.todo);
  }

  lemma ReceivedRemoval(s: Engine, s': Engine, step: Step)
    requires Inv(s) && ControlStep(s, s', step) && (step.PauseReceived? || step.ResumeReceived?)
    ensures RemovalOk(s')
  {
    hide InTurn, LogSorted, Closed, Acyclic, ControlOk, Quiet, StampsOk, ProcsOk, WorkersOk;
  }

  lemma ProcOfWorker(s: Engine, v: Vertex)
    requires ProcsOk(s) && v in s.workers
    ensures ProcOk(s, v, s.workers[v])
  {
  }

  lemma ReceivedHistory(s: Engine, s': Engine, v: Vertex)
    requires GraphOk(s) && StampsOk(s) && ProcsOk(s) && v in s.workers && v in s'.workers
    requires s' == With(s, v, s'.workers[v]).(control := s'.control)
    requires var w, w' := s.workers[v], s'.workers[v];
      w'.stamp == w.stamp && w'.doneAt == w.doneAt && w'.born == w.born && w'.proc == w.proc
    ensures StampsOk(s') && ProcsOk(s')
  {
    hide Closed, Acyclic;
    ProcOfWorker(s, v);
    GrowingStampsKeepProcs(s, s', v);
    forall u | u in s'.workers ensures StampOk(s'.log, u, s'.workers[u]) {
      assert StampOk(s.log, u, s.workers[u]);
    }
  }

  /** A Worker that was told to go is not there to receive a resume. */
  lemma ReceivedWorker(s: Engine, s': Engine, step: Step)
    requires Inv(s) && ControlStep(s, s', step) && (step.PauseReceived? || step.ResumeReceived?)
    ensures WorkersOk(s') && s'.workers[s.control.todo[0]].proc == s.workers[s.control.todo[0]].proc
  {
    hide InTurn, LogSorted, Closed, Acyclic, StampsOk, ProcsOk, ControlOk, WorkerOk, Quiet;
    var v := s.control.todo[0];
    assert WorkerOk(s.workers[v]);
    if step.PauseReceived? {
      PausedWorker(s.workers[v]);
    } else {
      ResumedWorker(s.workers[v]);
    }
  }

  lemma PausedWorker(w: Worker)
    requires WorkerOk(w) && Pausable(w.pc)
    ensures WorkerOk(w.(pc := PausedFrom(w.pc), paused := true))
  {
  }

  lemma ResumedWorker(w: Worker)
    requires WorkerOk(w) && AwaitsResume(w.pc) && w.closes.remove == 0
    ensures WorkerOk(w.(pc := ResumedTo(w.pc), paused := false, resumedOnce := true))
  {
  }

  lemma ReceivedControl(s: Engine, s': Engine, step: Step)
    requires Inv(s) && ControlStep(s, s', step) && (step.PauseReceived? || step.ResumeReceived?)
    ensures ControlOk(s')
  {
    hide InTurn, LogSorted, Closed, Acyclic, StampsOk, ProcsOk, WorkersOk, RemovalOk;
    TailElements(s.control.todo);
  }

  lemma ControlKeeps(s: Engine, s': Engine, step: Step)
    requires Inv(s) && ControlStep(s, s', step)
    ensures Inv(s')
  {
    hide Inv, ControlStep;
    NeverPanics(s, s');
    match step
    case PauseStarts(_) => StartKeeps(s, s', step);
    case ResumeStarts(_) => StartKeeps(s, s', step);
    case PauseReceived => ReceivedKeeps(s, s', step);
    case ResumeReceived => ReceivedKeeps(s, s', step);
    case PauseFindsClosed => FindsClosedKeeps(s, s', step);
    case ResumeFindsClosed => FindsClosedKeeps(s, s', step);
    case PauseEnds => EndKeeps(s, s', step);
    case ResumeEnds => EndKeeps(s, s', step);
    case ResumeOnClosed => ResumeOnClosedKeeps(s, s');
    case ControlPanics =>
    case _ => NoSuchControlStep(s, s', step);
  }

  lemma NoSuchControlStep(s: Engine, s': Engine, step: Step)
    ensures ControlStep(s, s', step) ==>
      step.PauseStarts? || step.ResumeStarts? || step.PauseReceived? || step.ResumeReceived? || step.PauseEnds?
      || step.PauseFindsClosed? || step.ResumeFindsClosed? || step.ResumeEnds? || step.ControlPanics?
      || step.ResumeOnClosed?
  {
  }

  /* ----- commit ----- */

  lemma CommitMoveKeeps(s: Engine, s': Engine, step: Step)
    requires Inv(s) && CommitStep(s, s', step) && (step.CommitStarts? || step.CommitFails? || step.RemoveEnds?)
    ensures Inv(s')
  {
    hide InTurn, LogSorted, Closed, Acyclic, Quiet, StampOk, ProcOk, WorkerOk;
    forall v | v in s'.workers ensures ProcOk(s', v, s'.workers[v]) {
      SameProc(s, s', v);
    }
  }

  lemma SameProc(s: Engine, s': Engine, v: Vertex)
    requires ProcsOk(s) && v in s.workers && s'.graph == s.graph && s'.workers == s.workers
    ensures ProcOk(s', v, s'.workers[v])
  {
    assert ProcOk(s, v, s.workers[v]);
  }

  lemma RemoveStartsKeeps(s: Engine, s': Engine, v: Vertex)
    requires Inv(s) && CommitStep(s, s', RemoveStarts(v))
    ensures Inv(s')
  {
    hide InTurn, LogSorted, Closed, Acyclic, StampsOk, ProcsOk, ControlOk, RemovalOk;
    assert WorkerOk(s.workers[v]);
    assert PausedOk(s.workers[v]) && ControlOk(s') by { RemoveStartsControl(s, s', v); }
    ReceivedHistory(s, s', v);
    RemoveStartsRemoval(s, s', v);
  }

  lemma RemoveStartsControl(s: Engine, s': Engine, v: Vertex)
    requires ControlOk(s) && CommitStep(s, s', RemoveStarts(v))
    ensures PausedOk(s.workers[v]) && ControlOk(s')
  {
  }

  lemma RemoveStartsRemoval(s: Engine, s': Engine, v: Vertex)
    requires RemovalOk(s) && CommitStep(s, s', RemoveStarts(v))
    ensures RemovalOk(s')
  {
  }

  lemma SwapStamps(s: Engine, next: Adjacency, added: seq<Vertex>)
    requires StampsOk(s) && s.control.Committing? && Listed(added, next.Keys - s.workers.Keys)
    ensures StampsOk(Swapped(s, next, added))
  {
    var s' := Swapped(s, next, added);
    forall v | v in s'.workers ensures StampOk(s'.log, v, s'.workers[v]) {
      if v in s.workers - s.control.removed {
        assert StampOk(s.log, v, s.workers[v]);
        assert v !in added by { assert v !in Elements(added); }
      } else {
        assert s'.log[|s.log| + IndexOf(added, v)] == Began(v);
      }
    }
  }

  lemma SwapLog(s: Engine, added: seq<Vertex>)
    requires InTurn(s.log) && LogSorted(s.log, s.clock)
    ensures InTurn(s.log + Births(added)) && LogSorted(s.log + Births(added), s.clock)
  {
    var log' := s.log + Births(added);
    forall k | |s.log| <= k < |log'| ensures CompletedInTurn(log', k) {
      assert log'[k] == Births(added)[k - |s.log|];
    }
    InTurnExtends(s.log, Births(added));
    forall i | 0 <= i < |log'| ensures log'[i].Completed? ==> i < |s.log| {
      if i >= |s.log| {
        assert log'[i] == Births(added)[i - |s.log|];
      }
    }
  }

  /** The Workers that cross a swap are idle, and the new ones have not begun. */
  lemma SwapWorkers(s: Engine, next: Adjacency, added: seq<Vertex>)
    requires WorkersOk(s) && ControlOk(s) && s.control.Committing?
    requires Listed(added, next.Keys - s.workers.Keys)
    requires s.workers.Keys - s.control.removed <= next.Keys && s.control.removed !! next.Keys
    ensures var s' := Swapped(s, next, added);
      WorkersOk(s') && ProcsOk(s') && ControlOk(s') && s'.workers.Keys == next.Keys
  {
    var s' := Swapped(s, next, added);
    forall v | v in next.Keys ensures v in s'.workers {
      if v !in s.workers {
        assert v in Elements(added);
      }
    }
    forall v | v in s'.workers ensures WorkerOk(s'.workers[v]) && PausedOk(s'.workers[v]) && s'.workers[v].proc == Idle {
      if v in s.workers - s.control.removed {
        assert WorkerOk(s.workers[v]);
        QuietIsIdle(s.workers[v]);
      } else {
        NewWorkerOk(s'.workers[v].born);
      }
    }
  }

  lemma SwapRemoval(s: Engine, next: Adjacency, added: seq<Vertex>)
    requires RemovalOk(s) && s.control.Committing? && s.control.waiting == None
    ensures RemovalOk(Swapped(s, next, added))
  {
  }

  lemma CommitEndsKeeps(s: Engine, s': Engine, next: Adjacency)
    requires Inv(s) && CommitStep(s, s', CommitEnds(next))
    ensures Inv(s')
  {
    hide InTurn, LogSorted, Closed, Acyclic, StampsOk, ProcsOk, ControlOk, RemovalOk, WorkersOk, Listed;
    var added :| Listed(added, next.Keys - s.workers.Keys) && s' == Swapped(s, next, added);
    SwapStamps(s, next, added);
    SwapLog(s, added);
    SwapWorkers(s, next, added);
    SwapRemoval(s, next, added);
  }

  lemma CommitKeeps(s: Engine, s': Engine, step: Step)
    requires Inv(s) && CommitStep(s, s', step)
    ensures Inv(s')
  {
    hide Inv;
    match step
    case CommitEnds(next) => CommitEndsKeeps(s, s', next);
    case RemoveStarts(v) => RemoveStartsKeeps(s, s', v);
    case _ => CommitMoveKeeps(s, s', step);
  }

  lemma StepKeeps(s: Engine, s': Engine, step: Step)
    requires Inv(s) && NextBy(s, s', step)
    ensures Inv(s')
  {
    hide Inv, ControlStep, CommitStep;
    if ControlStep(s, s', step) {
      ControlKeeps(s, s', step);
    } else if CommitStep(s, s', step) {
      CommitKeeps(s, s', step);
    } else {
      match step
      case WorkerMove(v, m) => WorkerMoveKeeps(s, s', v, m);
      case Completes(v, now) => CompletionKeeps(s, s', v, now);
      case _ => CheckKeeps(s, s', step);
    }
  }

  /** Every state of every run satisfies the invariant. */
  lemma {:induction false} RunsKeepInv(run: seq<Engine>, i: nat)
    requires IsRun(run) && i < |run|
    ensures Inv(run[i])
  {
    hide Inv, NextBy;
    if i == 0 {
      InitOk(run[0]);
    } else {
      RunsKeepInv(run, i - 1);
      assert Next(run[i - 1], run[i - 1 + 1]);
      var step :| NextBy(run[i - 1], run[i], step);
      StepKeeps(run[i - 1], run[i], step);
    }
  }
}
