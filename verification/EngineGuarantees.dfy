/** What the invariant of the running engine means to someone who writes resources for it. */
module EngineGuarantees {
  import opened Vertices
  import opened Digraphs
  import opened Workers
  import opened EngineRuns
  import opened EngineLaws

  /* ----- pausing ----- */

  /** Whether the control thread has this vertex paused. */
  predicate HeldPaused(c: Control, v: Vertex) {
    match c
    case Pausing(todo) => v !in todo
    case Paused => true
    case Committing(_, _) => true
    case Resuming(todo) => v in todo
    case _ => false
  }

  /** From when Pause passed a vertex until Resume reaches it, no Process runs there; so none runs anywhere once Pause
      has returned and while a commit swaps the graph. */
  lemma NoProcessWhilePaused(run: seq<Engine>, i: nat, v: Vertex)
    requires IsRun(run) && i < |run| && v in run[i].workers && HeldPaused(run[i].control, v)
    ensures run[i].workers[v].pc != Processing && run[i].workers[v].proc == Idle
  {
    hide IsRun, LogSorted, InTurn, StampsOk, ProcsOk, GraphOk, RemovalOk, WorkerOk, Quiet;
    RunsKeepInv(run, i);
    assert WorkerOk(run[i].workers[v]) && PausedOk(run[i].workers[v]);
    QuietIsIdle(run[i].workers[v]);
  }

  /** A Process only runs after a first resume, on a resource that has neither failed nor been shut down, and that has
      sent an event since its Watch last restarted. */
  lemma ProcessOnlyWhenReady(run: seq<Engine>, i: nat, v: Vertex)
    requires IsRun(run) && i < |run| && v in run[i].workers && run[i].workers[v].pc == Processing
    ensures var w := run[i].workers[v];
      w.resumedOnce && !w.failed && !w.closed && w.started && w.seenGen == w.gen && w.closes.remove == 0
  {
    hide IsRun, LogSorted, InTurn, StampsOk, ProcsOk, GraphOk, RemovalOk, ControlOk, ClosesOk;
    RunsKeepInv(run, i);
    assert WorkerOk(run[i].workers[v]);
  }

  /** Pause never finds a live Worker already paused, Resume never finds a live one running, and the sort that either
      starts with cannot fail; until a commit failed, nothing panics. */
  lemma PauseAndResumeAreSound(run: seq<Engine>, i: nat)
    requires IsRun(run) && i < |run|
    ensures Acyclic(run[i].graph) && (run[i].control.Panicked? ==> run[i].broken)
    ensures forall next :: !ControlStep(run[i], next, ControlPanics)
    ensures !run[i].broken ==> forall next :: !ControlStep(run[i], next, ResumeOnClosed)
  {
    hide IsRun, LogSorted, InTurn, StampsOk, ProcsOk, Acyclic, Closed, WorkersOk, ControlStep, RemovalOk;
    RunsKeepInv(run, i);
    forall next ensures !ControlStep(run[i], next, ControlPanics) {
      NeverPanics(run[i], next);
    }
    forall next | ControlStep(run[i], next, ResumeOnClosed) ensures run[i].broken {
      ResumeOnClosedIsBroken(run[i], next);
    }
  }

  /** Pause still has everything downstream to visit of what it has to visit, and visits no vertex before one upstream of it;
      Resume goes the other way. */
  ghost predicate Visiting(g: Adjacency, c: Control) {
    match c
    case Pausing(todo) =>
      && (forall i, j | 0 <= i <= j < |todo| :: !HasEdge(g, todo[j], todo[i]))
      && forall u, v | HasEdge(g, u, v) && u in todo :: v in todo
    case Resuming(todo) =>
      && (forall i, j | 0 <= i <= j < |todo| :: !HasEdge(g, todo[i], todo[j]))
      && forall u, v | HasEdge(g, u, v) && v in todo :: u in todo
    case _ => true
  }

  lemma VisitingStarts(s: Engine, s': Engine, step: Step)
    requires GraphOk(s) && ControlStep(s, s', step) && (step.PauseStarts? || step.ResumeStarts?)
    ensures Visiting(s'.graph, s'.control)
  {
    hide Acyclic;
    var l := step.order;
    if step.PauseStarts? {
      forall u, v | HasEdge(s.graph, u, v) && u in l ensures v in l {
        assert v in Elements(l);
      }
    } else {
      var b := Backwards(l);
      BackwardsElements(l);
      forall u, v | HasEdge(s.graph, u, v) && v in l ensures u in l {
        assert u in Elements(b);
        assert u in Elements(l);
      }
      forall i, j | 0 <= i <= j < |l| ensures !HasEdge(s.graph, l[i], l[j]) {
        assert l[i] == b[|l| - 1 - i] && l[j] == b[|l| - 1 - j];
      }
    }
  }

  lemma VisitingGoesOn(g: Adjacency, todo: seq<Vertex>)
    requires todo != []
    ensures Visiting(g, Pausing(todo)) ==> Visiting(g, Pausing(todo[1..]))
    ensures Visiting(g, Resuming(todo)) ==> Visiting(g, Resuming(todo[1..]))
  {
    assert todo == [todo[0]] + todo[1..];
    if Visiting(g, Pausing(todo)) {
      forall u, v | HasEdge(g, u, v) && u in todo[1..] ensures v in todo[1..] {
        var j :| 0 <= j < |todo| - 1 && todo[1..][j] == u;
        assert todo[j + 1] == u;
        assert !HasEdge(g, todo[j + 1], todo[0]);
      }
    }
    if Visiting(g, Resuming(todo)) {
      forall u, v | HasEdge(g, u, v) && v in todo[1..] ensures u in todo[1..] {
        var j :| 0 <= j < |todo| - 1 && todo[1..][j] == v;
        assert todo[j + 1] == v;
        assert !HasEdge(g, todo[0], todo[j + 1]);
      }
    }
  }

  lemma StepKeepsVisiting(s: Engine, s': Engine)
    requires Next(s, s') && GraphOk(s) && Visiting(s.graph, s.control)
    ensures Visiting(s'.graph, s'.control)
  {
    hide Visiting, Closed, Acyclic, Enabled, Moved, Preds, TopologicalOrder, GraphOk;
    var step :| NextBy(s, s', step);
    if ControlStep(s, s', step) {
      if step.PauseStarts? || step.ResumeStarts? {
        VisitingStarts(s, s', step);
      } else {
        ControlKeepsVisiting(s, s', step);
      }
    } else {
      OthersKeepVisiting(s, s', step);
    }
  }

  lemma ControlKeepsVisiting(s: Engine, s': Engine, step: Step)
    requires ControlStep(s, s', step) && !step.PauseStarts? && !step.ResumeStarts? && Visiting(s.graph, s.control)
    ensures Visiting(s'.graph, s'.control)
  {
    if (s.control.Pausing? || s.control.Resuming?) && s.control.todo != [] {
      hide Visiting;
      VisitingGoesOn(s.graph, s.control.todo);
    }
    NotVisiting(s'.graph, s'.control);
  }

  lemma NotVisiting(g: Adjacency, c: Control)
    ensures !c.Pausing? && !c.Resuming? ==> Visiting(g, c)
  {
  }

  lemma OthersKeepVisiting(s: Engine, s': Engine, step: Step)
    requires (WorkerStep(s, s', step) || CommitStep(s, s', step)) && Visiting(s.graph, s.control)
    ensures Visiting(s'.graph, s'.control)
  {
    hide Visiting, Closed, Acyclic, Enabled, Moved, Preds;
    NotVisiting(s'.graph, s'.control);
  }

  lemma {:induction false} RunsVisit(run: seq<Engine>, i: nat)
    requires IsRun(run) && i < |run|
    ensures Visiting(run[i].graph, run[i].control)
  {
    hide Next, Visiting, GraphOk;
    if i == 0 {
      NotVisiting(run[0].graph, run[0].control);
    } else {
      RunsVisit(run, i - 1);
      RunsKeepInv(run, i - 1);
      assert Next(run[i - 1], run[i - 1 + 1]);
      StepKeepsVisiting(run[i - 1], run[i]);
    }
  }

  /** Pause goes down the graph and Resume up: a vertex is paused only after all its prerequisites were, and resumed only
      after everything that depends on it. */
  lemma PauseGoesDownResumeUp(run: seq<Engine>, i: nat, u: Vertex, v: Vertex)
    requires IsRun(run) && i < |run| && HasEdge(run[i].graph, u, v)
    ensures run[i].control.Pausing? && v !in run[i].control.todo ==> u !in run[i].control.todo
    ensures run[i].control.Resuming? && u !in run[i].control.todo ==> v !in run[i].control.todo
  {
    hide IsRun;
    RunsVisit(run, i);
  }

  /* ----- closing channels ----- */

  predicate ClosedOnce(c: Closes) {
    c.process <= 1 && c.watch <= 1 && c.limit <= 1 && c.retry <= 1 && c.remove <= 1 && c.events <= 1 && c.resume <= 1
    && c.channel <= 1
  }

  /** As long as no commit failed, no channel is closed twice. */
  lemma NoChannelClosedTwice(run: seq<Engine>, i: nat, v: Vertex)
    requires IsRun(run) && i < |run| && v in run[i].workers && !run[i].broken
    ensures ClosedOnce(run[i].workers[v].closes)
  {
    hide IsRun, LogSorted, InTurn, StampsOk, ProcsOk, GraphOk, ControlOk;
    RunsKeepInv(run, i);
    assert WorkerOk(run[i].workers[v]);
  }

  /** Step `k` is a commit that fails after it removed `v`. */
  ghost predicate FailedOn(run: seq<Engine>, k: int, v: Vertex) {
    && 0 <= k < |run| - 1 && CommitStep(run[k], run[k + 1], CommitFails) && v in run[k].control.removed
  }

  /** Such a commit failed before state `i`, and `v` has been there ever since. */
  ghost predicate LeftBehind(run: seq<Engine>, i: nat, v: Vertex)
    requires i < |run|
  {
    exists k :: 0 <= k < i && FailedOn(run, k, v) && forall j | k <= j <= i :: v in run[j].workers
  }

  /** How often that happened in this life of `v`. */
  ghost function Failures(run: seq<Engine>, i: nat, v: Vertex): (n: nat)
    requires i < |run|
  {
    if i == 0 || v !in run[i].workers || v !in run[i - 1].workers then 0
    else Failures(run, i - 1, v) + if FailedOn(run, i - 1, v) then 1 else 0
  }

  /** The commit under way has told `v` to go. */
  function BeingRemoved(s: Engine, v: Vertex): nat {
    if s.control.Committing? && (v in s.control.removed || s.control.waiting == Some(v)) then 1 else 0
  }

  /** The closings that are not the work of the commit under way. */
  function OldCloses(s: Engine, v: Vertex): int
    requires v in s.workers
  {
    s.workers[v].closes.remove - BeingRemoved(s, v)
  }

  lemma WorkerStepCounts(s: Engine, s': Engine, step: Step, v: Vertex)
    requires Inv(s) && WorkerStep(s, s', step) && v in s.workers
    ensures v in s'.workers && OldCloses(s', v) == OldCloses(s, v) && !CommitStep(s, s', CommitFails)
  {
    hide InTurn, LogSorted, StampsOk, ProcsOk, Closed, Acyclic, ControlOk, RemovalOk, Moved, Enabled, WorkerOk;
    if step.WorkerMove? {
      assert WorkerOk(s.workers[step.v]);
      MovePreserves(s.workers[step.v], step.m);
    }
  }

  lemma ControlStepCounts(s: Engine, s': Engine, step: Step, v: Vertex)
    requires ControlStep(s, s', step) && v in s.workers
    ensures v in s'.workers && OldCloses(s', v) == OldCloses(s, v) && !CommitStep(s, s', CommitFails)
  {
    hide TopologicalOrder, Acyclic;
  }

  lemma CommitStepCounts(s: Engine, s': Engine, step: Step, v: Vertex)
    requires CommitStep(s, s', step) && RemovalOk(s) && v in s.workers && v in s'.workers
    ensures OldCloses(s', v)
         == OldCloses(s, v) + if CommitStep(s, s', CommitFails) && v in s.control.removed then 1 else 0
  {
    hide Acyclic, Closed;
  }

  lemma NewcomersAreClean(s: Engine, s': Engine, step: Step, v: Vertex)
    requires NextBy(s, s', step) && v !in s.workers && v in s'.workers
    ensures OldCloses(s', v) == 0
  {
    hide Acyclic, Closed, Moved, Enabled, TopologicalOrder;
  }

  lemma OneStepCounts(s: Engine, s': Engine, v: Vertex)
    requires Inv(s) && Next(s, s') && v in s.workers && v in s'.workers
    ensures OldCloses(s', v)
         == OldCloses(s, v) + if CommitStep(s, s', CommitFails) && v in s.control.removed then 1 else 0
  {
    hide WorkerStep, ControlStep, CommitStep, WorkersOk, GraphOk, ControlOk, InTurn, LogSorted, StampsOk, ProcsOk, RemovalOk;
    var step :| NextBy(s, s', step);
    if WorkerStep(s, s', step) {
      WorkerStepCounts(s, s', step, v);
    } else if ControlStep(s, s', step) {
      ControlStepCounts(s, s', step, v);
    } else {
      CommitStepCounts(s, s', step, v);
    }
  }

  /** A Worker's remove and resume channels were closed once for every commit that failed after removing it, and once
      more if the commit under way has removed it. */
  lemma {:induction false} ClosesCountFailures(run: seq<Engine>, i: nat, v: Vertex)
    requires IsRun(run) && i < |run| && v in run[i].workers
    ensures run[i].workers[v].closes.remove == run[i].workers[v].closes.resume == Failures(run, i, v) + BeingRemoved(run[i], v)
  {
    hide Next, CommitStep, GraphOk, ControlOk, InTurn, LogSorted, StampsOk, ProcsOk, RemovalOk;
    RunsKeepInv(run, i);
    assert WorkerOk(run[i].workers[v]);
    if i > 0 {
      assert Next(run[i - 1], run[i - 1 + 1]);
      if v in run[i - 1].workers {
        ClosesCountFailures(run, i - 1, v);
        RunsKeepInv(run, i - 1);
        OneStepCounts(run[i - 1], run[i], v);
      } else {
        var step := StepOf(run[i - 1], run[i]);
        NewcomersAreClean(run[i - 1], run[i], step, v);
      }
    }
  }

  lemma StepOf(s: Engine, s': Engine) returns (step: Step)
    requires Next(s, s')
    ensures NextBy(s, s', step)
  {
    hide NextBy;
    step :| NextBy(s, s', step);
  }

  lemma {:induction false} FailuresLeaveBehind(run: seq<Engine>, i: nat, v: Vertex)
    requires i < |run| && v in run[i].workers
    ensures Failures(run, i, v) > 0 <==> LeftBehind(run, i, v)
  {
    hide CommitStep;
    if i > 0 && v in run[i - 1].workers {
      FailuresLeaveBehind(run, i - 1, v);
      if Failures(run, i, v) > 0 && !FailedOn(run, i - 1, v) {
        var k :| 0 <= k < i - 1 && FailedOn(run, k, v) && forall j | k <= j <= i - 1 :: v in run[j].workers;
        assert FailedOn(run, k, v) && forall j | k <= j <= i :: v in run[j].workers;
      }
      if LeftBehind(run, i, v) {
        var k :| 0 <= k < i && FailedOn(run, k, v) && forall j | k <= j <= i :: v in run[j].workers;
        assert k < i - 1 ==> LeftBehind(run, i - 1, v);
      }
    }
  }

  /** Removing a vertex closes its channels a second time exactly when some earlier commit failed after removing it, and
      it has been there since. */
  lemma SecondRemoveClosesTwice(run: seq<Engine>, i: nat, v: Vertex, next: Engine)
    requires IsRun(run) && i < |run| && CommitStep(run[i], next, RemoveStarts(v))
    ensures !ClosedOnce(next.workers[v].closes) <==> LeftBehind(run, i, v)
    ensures next.workers[v].closes.remove == Failures(run, i, v) + 1
  {
    hide IsRun, LogSorted, InTurn, StampsOk, ProcsOk, GraphOk, ControlOk, LeftBehind, Failures;
    RunsKeepInv(run, i);
    assert WorkerOk(run[i].workers[v]);
    ClosesCountFailures(run, i, v);
    FailuresLeaveBehind(run, i, v);
  }

  /** Resuming a vertex may send on a closed channel exactly when some earlier commit failed after removing it, and it has
      been there since. */
  lemma ResumePanicsIff(run: seq<Engine>, i: nat)
    requires IsRun(run) && i < |run| && run[i].control.Resuming? && run[i].control.todo != []
    ensures (exists next :: ControlStep(run[i], next, ResumeOnClosed)) <==> LeftBehind(run, i, run[i].control.todo[0])
  {
    hide IsRun, LogSorted, InTurn, StampsOk, ProcsOk, WorkersOk, RemovalOk, LeftBehind, Failures, Quiet, Closed, Acyclic;
    RunsKeepInv(run, i);
    var s := run[i];
    var v := s.control.todo[0];
    assert v in Elements(s.control.todo) && v in s.workers;
    ClosesCountFailures(run, i, v);
    FailuresLeaveBehind(run, i, v);
    assert PausedOk(s.workers[v]);
    if LeftBehind(run, i, v) {
      assert ControlStep(s, s.(control := Panicked), ResumeOnClosed);
    }
  }

  /** A swap leaves the Workers of the vertices that stay as they are, timestamps included, drops exactly those that were shut
      down, and gives every new vertex one that has not been started, paused until the resume. */
  lemma SwapKeepsWorkers(s: Engine, s': Engine, next: Adjacency, v: Vertex)
    requires s.control.Committing? && CommitStep(s, s', CommitEnds(next)) && v in next
    ensures s'.graph == next && s'.workers.Keys == next.Keys && s'.control == Paused
    ensures v in s.workers ==> v !in s.control.removed && s'.workers[v] == s.workers[v]
    ensures v !in s.workers ==> var w := s'.workers[v];
      w.pc == AwaitFirstResume && w.watch == Watching && w.paused && !w.started && !w.failed && !w.closed && w.stamp == 0
  {
    hide Closed, Acyclic;
    var added :| Listed(added, next.Keys - s.workers.Keys) && s' == Swapped(s, next, added);
    assert forall x :: x in added <==> x in Elements(added);
  }

  /* ----- dependency order ----- */

  /** Between two completions of a vertex in one life, and before its first, each of its prerequisites completed; the
      log records which vertices were its prerequisites at that moment. */
  lemma PrerequisitesCompleteInTurn(run: seq<Engine>, i: nat, k: nat, p: Vertex)
    requires IsRun(run) && i < |run| && k < |run[i].log| && run[i].log[k].Completed? && p in run[i].log[k].preds
    ensures exists j :: Between(run[i].log, p, run[i].log[k].v, j, k)
  {
    hide IsRun, LogSorted, StampsOk, ProcsOk, GraphOk, ControlOk, WorkersOk, RemovalOk, Between;
    RunsKeepInv(run, i);
    assert CompletedInTurn(run[i].log, k);
  }

  /** Every graph of the run that has `v` has an edge to it from `u`. */
  ghost predicate AlwaysBefore(run: seq<Engine>, u: Vertex, v: Vertex) {
    forall i | 0 <= i < |run| && v in run[i].graph :: HasEdge(run[i].graph, u, v)
  }

  /** Each recorded completion happened in some state of the run, with the prerequisites it had there. */
  ghost predicate Recorded(run: seq<Engine>, e: Entry) {
    e.Completed? ==> exists i :: 0 <= i < |run| && e.v in run[i].graph && e.preds == Preds(run[i].graph, e.v)
  }

  /** What a step adds to the log: completions of vertices of the graph, with the prerequisites they have in it. */
  ghost predicate Records(s: Engine, s': Engine) {
    && s.log <= s'.log
    && forall k | |s.log| <= k < |s'.log| && s'.log[k].Completed? ::
        s'.log[k].v in s.graph && s'.log[k].preds == Preds(s.graph, s'.log[k].v)
  }

  lemma WorkerStepRecords(s: Engine, s': Engine, step: Step)
    requires WorkerStep(s, s', step) && GraphOk(s)
    ensures Records(s, s')
  {
    hide Closed, Acyclic, Enabled, Moved, Preds, MayProcess;
  }

  lemma OtherStepRecords(s: Engine, s': Engine, step: Step)
    requires ControlStep(s, s', step) || CommitStep(s, s', step)
    ensures Records(s, s')
  {
    hide Closed, Acyclic, Preds, TopologicalOrder, Listed;
  }

  lemma StepRecords(s: Engine, s': Engine)
    requires Next(s, s') && GraphOk(s)
    ensures Records(s, s')
  {
    hide WorkerStep, ControlStep, CommitStep, Records, GraphOk;
    var step :| NextBy(s, s', step);
    if WorkerStep(s, s', step) {
      WorkerStepRecords(s, s', step);
    } else {
      OtherStepRecords(s, s', step);
    }
  }

  lemma {:induction false} CompletionsAreRecorded(run: seq<Engine>, i: nat, k: nat)
    requires IsRun(run) && i < |run| && k < |run[i].log|
    ensures Recorded(run, run[i].log[k])
  {
    hide Next, Preds;
    if i > 0 {
      assert Next(run[i - 1], run[i - 1 + 1]);
      assert GraphOk(run[i - 1]) by { RunsKeepInv(run, i - 1); }
      StepRecords(run[i - 1], run[i]);
      if k < |run[i - 1].log| {
        CompletionsAreRecorded(run, i - 1, k);
      }
    }
  }

  ghost predicate CompletedBefore(log: seq<Entry>, v: Vertex, k: int) {
    exists j :: 0 <= j < k && j < |log| && log[j].Completed? && log[j].v == v
  }

  /** Along any chain of lasting edges, everything upstream completes before the end of the chain first does. */
  lemma {:induction false} AncestorsCompleteFirst(run: seq<Engine>, i: nat, chain: seq<Vertex>, k: nat)
    requires IsRun(run) && i < |run| && |chain| >= 2
    requires forall n | 0 <= n < |chain| - 1 :: AlwaysBefore(run, chain[n], chain[n + 1])
    requires k < |run[i].log| && run[i].log[k].Completed? && run[i].log[k].v == chain[|chain| - 1]
    ensures CompletedBefore(run[i].log, chain[0], k)
    decreases |chain|
  {
    hide IsRun, Inv;
    var e, p := run[i].log[k], chain[|chain| - 2];
    assert p in e.preds by {
      CompletionsAreRecorded(run, i, k);
      assert AlwaysBefore(run, chain[|chain| - 2], chain[|chain| - 2 + 1]);
    }
    PrerequisitesCompleteInTurn(run, i, k, p);
    var j :| Between(run[i].log, p, e.v, j, k);
    if |chain| > 2 {
      AncestorsCompleteFirst(run, i, chain[..|chain| - 1], j);
    }
  }

  /** A vertex that never completes keeps everything downstream from ever completing. */
  lemma FailureBlocksDescendants(run: seq<Engine>, i: nat, chain: seq<Vertex>)
    requires IsRun(run) && i < |run| && |chain| >= 2
    requires forall n | 0 <= n < |chain| - 1 :: AlwaysBefore(run, chain[n], chain[n + 1])
    requires !CompletedBefore(run[i].log, chain[0], |run[i].log|)
    ensures !CompletedBefore(run[i].log, chain[|chain| - 1], |run[i].log|)
  {
    hide IsRun;
    var last := chain[|chain| - 1];
    forall k: nat | k < |run[i].log| ensures !(run[i].log[k].Completed? && run[i].log[k].v == last) {
      if run[i].log[k].Completed? && run[i].log[k].v == last {
        AncestorsCompleteFirst(run, i, chain, k);
      }
    }
  }

  /* ----- the failed commit, step by step ----- */

  function OnlyVertex(v: Vertex): Adjacency {
    map[v := map[]]
  }

  /** The engine with one vertex, committed but not resumed yet. */
  function OneVertex(v: Vertex, w: Worker, c: Control, broken: bool): Engine {
    Engine(OnlyVertex(v), map[v := w], c, 1, [Began(v)], broken)
  }

  ghost predicate Steps(run: seq<Engine>, from: Engine, to: Engine) {
    && |run| > 0 && run[0] == from && run[|run| - 1] == to
    && forall i | 0 <= i < |run| - 1 :: Next(run[i], run[i + 1])
  }

  lemma OneMore(run: seq<Engine>, x: Engine, y: Engine, z: Engine, step: Step)
    requires Steps(run, x, y) && NextBy(y, z, step)
    ensures Steps(run + [z], x, z)
  {
    hide NextBy;
    var r := run + [z];
    forall i | 0 <= i < |r| - 1 ensures Next(r[i], r[i + 1]) {
      if i < |run| - 1 {
        assert r[i] == run[i] && r[i + 1] == run[i + 1];
      }
    }
  }

  lemma FirstCommit(v: Vertex, s0: Engine) returns (run: seq<Engine>)
    requires Init(s0) && s0.clock == 1
    ensures Steps(run, s0, OneVertex(v, NewWorker(0), Paused, false))
  {
    hide NextBy, Steps, Swapped, Acyclic;
    NothingIsAcyclic(map[]);
    var s1 := s0.(control := Pausing([]));
    var s2 := s0.(control := Paused);
    var s3 := s0.(control := Committing({}, None));
    var s4 := OneVertex(v, NewWorker(0), Paused, false);
    StartsEmpty(s0);
    FirstSwap(v, s3);
    OneIsSteps(s0);
    OneMore([s0], s0, s0, s1, PauseStarts([]));
    OneMore([s0] + [s1], s0, s1, s2, PauseEnds);
    OneMore([s0] + [s1] + [s2], s0, s2, s3, CommitStarts);
    OneMore([s0] + [s1] + [s2] + [s3], s0, s3, s4, CommitEnds(OnlyVertex(v)));
    run := [s0] + [s1] + [s2] + [s3] + [s4];
  }

  lemma OneIsSteps(s: Engine)
    ensures Steps([s], s, s)
  {
  }

  lemma StartsEmpty(s: Engine)
    requires Init(s) && Acyclic(map[])
    ensures NextBy(s, s.(control := Pausing([])), PauseStarts([]))
    ensures NextBy(s.(control := Pausing([])), s.(control := Paused), PauseEnds)
    ensures NextBy(s.(control := Paused), s.(control := Committing({}, None)), CommitStarts)
  {
    hide WorkerStep, Acyclic;
    assert TopologicalOrder(s.graph, []);
  }

  lemma OneIsListed(v: Vertex)
    ensures Listed([v], OnlyVertex(v).Keys)
  {
    assert [v][0] == v;
  }

  lemma FirstSwap(v: Vertex, s: Engine)
    requires s == Engine(map[], map[], Committing({}, None), 1, [], false)
    ensures NextBy(s, OneVertex(v, NewWorker(0), Paused, false), CommitEnds(OnlyVertex(v)))
  {
    hide WorkerStep, ControlStep, Acyclic;
    NothingIsAcyclic(OnlyVertex(v));
    OneIsListed(v);
    assert OnlyVertex(v).Keys - s.workers.Keys == OnlyVertex(v).Keys;
    assert IndexOf([v], v) == 0;
    assert Swapped(s, OnlyVertex(v), [v]).workers == map[v := NewWorker(0)];
  }

  const LEAVING := [SeeResumeClosed, WatchEnds, CloseEvents, ReceiveClosed]

  /** How the Worker of the new vertex goes once it is told to. */
  function Going(n: nat): Worker
    requires n <= 4
  {
    if n == 0 then Shut(NewWorker(0))
    else
      var w := Going(n - 1);
      if Enabled(w, LEAVING[n - 1]) then Moved(w, LEAVING[n - 1]) else w
  }

  lemma GoingHalfway()
    ensures Enabled(Going(0), SeeResumeClosed) && Enabled(Going(1), WatchEnds)
    ensures Going(2) == Moved(Moved(Shut(NewWorker(0)), SeeResumeClosed), WatchEnds)
  {
    assert Going(1) == Moved(Going(0), SeeResumeClosed);
  }

  lemma GoingIsEnabled(n: nat)
    requires n < 4
    ensures Enabled(Going(n), LEAVING[n])
    ensures Going(4).pc == Exited && Going(4).closes.remove == 1
  {
    GoingHalfway();
    assert Going(3) == Moved(Going(2), CloseEvents);
    assert Going(4) == Moved(Going(3), ReceiveClosed);
  }

  lemma {:induction false} Leaves(v: Vertex, x: Engine, start: seq<Engine>, n: nat) returns (run: seq<Engine>)
    requires n <= 4 && Steps(start, x, OneVertex(v, Going(0), Committing({}, Some(v)), false))
    ensures Steps(run, x, OneVertex(v, Going(n), Committing({}, Some(v)), false))
  {
    hide Steps, Acyclic, Closed, Moved, Enabled;
    if n == 0 {
      run := start;
    } else {
      run := Leaves(v, x, start, n - 1);
      GoingIsEnabled(n - 1);
      var y := OneVertex(v, Going(n - 1), Committing({}, Some(v)), false);
      var z := OneVertex(v, Going(n), Committing({}, Some(v)), false);
      assert NextBy(y, z, WorkerMove(v, LEAVING[n - 1]));
      OneMore(run, x, y, z, WorkerMove(v, LEAVING[n - 1]));
      run := run + [z];
    }
  }

  /** A run in which a commit removes the only vertex and fails, so that the commit which shuts the engine down closes
      that vertex's channels a second time. */
  lemma FailedCommitThenShutdown(v: Vertex) returns (run: seq<Engine>)
    ensures IsRun(run)
    ensures var last := run[|run| - 1]; v in last.workers && last.workers[v].closes.remove == 2
  {
    hide Next, NextBy, Moved, Acyclic, Closed, Steps, Going;
    var s := Engine(map[], map[], Running, 1, [], false);
    run := FirstCommit(v, s);
    run := Told(v, s, run);
    run := Leaves(v, s, run, 4);
    run := ToldAgain(v, s, run);
    StepsAreRun(s, run, OneVertex(v, Shut(Going(4)), Committing({}, Some(v)), true));
    GoingIsEnabled(0);
  }

  lemma StepsAreRun(s: Engine, run: seq<Engine>, to: Engine)
    requires Init(s) && Steps(run, s, to)
    ensures IsRun(run) && run[|run| - 1] == to
  {
    hide Next;
  }

  lemma Told(v: Vertex, x: Engine, start: seq<Engine>) returns (run: seq<Engine>)
    requires Steps(start, x, OneVertex(v, NewWorker(0), Paused, false))
    ensures Steps(run, x, OneVertex(v, Going(0), Committing({}, Some(v)), false))
  {
    hide Steps, Acyclic, Closed, WorkerStep, ControlStep, Listed, Swapped;
    var y := OneVertex(v, NewWorker(0), Paused, false);
    var z := OneVertex(v, NewWorker(0), Committing({}, None), false);
    var next := OneVertex(v, Going(0), Committing({}, Some(v)), false);
    OneMore(start, x, y, z, CommitStarts);
    OneMore(start + [z], x, z, next, RemoveStarts(v));
    run := start + [z] + [next];
  }

  lemma ToldAgain(v: Vertex, x: Engine, start: seq<Engine>) returns (run: seq<Engine>)
    requires Steps(start, x, OneVertex(v, Going(4), Committing({}, Some(v)), false))
    ensures Steps(run, x, OneVertex(v, Shut(Going(4)), Committing({}, Some(v)), true))
  {
    hide *;
    GoingIsEnabled(0);
    var a := OneVertex(v, Going(4), Committing({}, Some(v)), false);
    var b := OneVertex(v, Going(4), Committing({v}, None), false);
    var c := OneVertex(v, Going(4), Paused, true);
    var d := OneVertex(v, Going(4), Committing({}, None), true);
    var e := OneVertex(v, Shut(Going(4)), Committing({}, Some(v)), true);
    RemovedThenFails(v, Going(4));
    ShutDownAgain(v, Going(4));
    OneMore(start, x, a, b, RemoveEnds);
    OneMore(start + [b], x, b, c, CommitFails);
    OneMore(start + [b] + [c], x, c, d, CommitStarts);
    OneMore(start + [b] + [c] + [d], x, d, e, RemoveStarts(v));
    run := start + [b] + [c] + [d] + [e];
  }

  lemma RemovedThenFails(v: Vertex, w: Worker)
    requires w.pc == Exited
    ensures NextBy(OneVertex(v, w, Committing({}, Some(v)), false), OneVertex(v, w, Committing({v}, None), false), RemoveEnds)
    ensures NextBy(OneVertex(v, w, Committing({v}, None), false), OneVertex(v, w, Paused, true), CommitFails)
  {
    hide WorkerStep, ControlStep;
    assert {} + {v} == {v};
  }

  lemma ShutDownAgain(v: Vertex, w: Worker)
    ensures NextBy(OneVertex(v, w, Paused, true), OneVertex(v, w, Committing({}, None), true), CommitStarts)
    ensures NextBy(OneVertex(v, w, Committing({}, None), true), OneVertex(v, Shut(w), Committing({}, Some(v)), true),
                   RemoveStarts(v))
  {
    hide WorkerStep, ControlStep;
  }

  lemma NothingIsAcyclic(g: Adjacency)
    requires forall v | v in g :: g[v] == map[]
    ensures Acyclic(g)
  {
    forall p: seq<Vertex> ensures !Cycle(g, p) {
      if |p| >= 2 {
        assert !HasEdge(g, p[0], p[0 + 1]);
      }
    }
  }
}
