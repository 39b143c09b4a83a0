/** What a Worker does once it was woken: it tries.  No poke, event or failed run is forgotten on the way to Process, and
    nothing but its own moves is needed to get there. */
module Attempts {
  import opened Vertices
  import opened Digraphs
  import opened Workers
  import opened EngineRuns
  import opened EngineLaws

  /* ----- nobody forgets ----- */

  /** Between a wakeup and the start of Process. */
  predicate Trying(pc: Pc) {
    pc in {Dispatch, LimitWait, PausedInLimit, RetryWait, PausedInRetry, RetryTop, PausedAtRetryTop, RetryCheck}
  }

  /** It failed, was shut down, or waits for the initial event of a restarted Watch. */
  predicate Excused(w: Worker) {
    !MayProcess(w) || w.pc == Exited
  }

  /** A poke or an event in the main select, a resume of a Worker that was paused there, or a run of Process that failed and
      is to be tried again. */
  ghost predicate Wakes(s: Engine, step: Step, v: Vertex) {
    && v in s.workers
    && match step
       case WorkerMove(u, m) =>
         u == v && (m.ReceivePoke? || (m.ReceiveEvent? && s.workers[v].pc == MainSelect)
                    || (m.ProcessReturns? && m.outcome.RetryLater?))
       case ResumeReceived =>
         s.control.Resuming? && s.control.todo != [] && s.control.todo[0] == v && s.workers[v].pc == PausedInMain
       case _ => false
  }

  lemma WokenIsTrying(s: Engine, s': Engine, step: Step, v: Vertex)
    requires NextBy(s, s', step) && Wakes(s, step, v)
    ensures v in s'.workers && (!Excused(s'.workers[v]) ==> Trying(s'.workers[v].pc))
  {
    hide CommitStep, Preds, Acyclic, TopologicalOrder;
    assert !CommitStep(s, s', step) by { OnlyCommits(s, s', step); }
  }

  lemma OnlyCommits(s: Engine, s': Engine, step: Step)
    requires step.WorkerMove? || step.ResumeReceived?
    ensures !CommitStep(s, s', step)
  {
  }

  lemma MoveKeepsTrying(w: Worker, m: Move)
    requires Enabled(w, m) && Trying(w.pc) && !Excused(w) && !Excused(Moved(w, m))
    ensures Trying(Moved(w, m).pc)
  {
  }

  lemma WorkerStepKeepsTrying(s: Engine, s': Engine, step: Step, v: Vertex)
    requires WorkerStep(s, s', step) && v in s.workers && v in s'.workers && Trying(s.workers[v].pc)
    requires !Excused(s.workers[v]) && !Excused(s'.workers[v]) && s'.workers[v].pc != Processing
    ensures Trying(s'.workers[v].pc)
  {
    hide Preds, Moved, Enabled, Excused;
    if step.WorkerMove? && step.v == v {
      MoveKeepsTrying(s.workers[v], step.m);
    }
  }

  lemma ControlStepKeepsTrying(s: Engine, s': Engine, step: Step, v: Vertex)
    requires ControlStep(s, s', step) && v in s.workers && v in s'.workers && Trying(s.workers[v].pc)
    requires !Excused(s.workers[v]) && !Excused(s'.workers[v])
    ensures Trying(s'.workers[v].pc)
  {
    hide TopologicalOrder, Acyclic;
  }

  lemma CommitStepKeepsTrying(s: Engine, s': Engine, step: Step, v: Vertex)
    requires CommitStep(s, s', step) && v in s.workers && v in s'.workers && Trying(s.workers[v].pc)
    requires !Excused(s'.workers[v])
    ensures Trying(s'.workers[v].pc)
  {
    hide Acyclic, Closed, Listed;
  }

  lemma StepKeepsTrying(s: Engine, s': Engine, v: Vertex)
    requires Next(s, s') && v in s.workers && v in s'.workers && Trying(s.workers[v].pc)
    requires !Excused(s.workers[v]) && !Excused(s'.workers[v]) && s'.workers[v].pc != Processing
    ensures Trying(s'.workers[v].pc)
  {
    hide WorkerStep, ControlStep, CommitStep, Trying, Excused;
    var step :| NextBy(s, s', step);
    if WorkerStep(s, s', step) {
      WorkerStepKeepsTrying(s, s', step, v);
    } else if ControlStep(s, s', step) {
      ControlStepKeepsTrying(s, s', step, v);
    } else {
      CommitStepKeepsTrying(s, s', step, v);
    }
  }

  /** From state `i + 1` to state `j`, `v` is there, has no excuse and has not started Process. */
  ghost predicate OwesRun(run: seq<Engine>, i: nat, j: nat, v: Vertex) {
    forall k | i < k <= j < |run| :: v in run[k].workers && !Excused(run[k].workers[v]) && run[k].workers[v].pc != Processing
  }

  /** After a poke, an event, a resume or a failed run, a Worker does not go back to its main select before Process has
      started, unless it failed, was shut down, exited, or its Watch restarted meanwhile. */
  lemma {:induction false} WokenTries(run: seq<Engine>, i: nat, j: nat, v: Vertex, step: Step)
    requires IsRun(run) && i < j < |run| && NextBy(run[i], run[i + 1], step) && Wakes(run[i], step, v)
    requires OwesRun(run, i, j, v)
    ensures v in run[j].workers && Trying(run[j].workers[v].pc)
    decreases j
  {
    hide NextBy, Next, Wakes, Excused, Trying;
    if j == i + 1 {
      WokenIsTrying(run[i], run[i + 1], step, v);
    } else {
      WokenTries(run, i, j - 1, v, step);
      assert Next(run[j - 1], run[j - 1 + 1]);
      StepKeepsTrying(run[j - 1], run[j], v);
    }
  }

  /* ----- nothing else is needed ----- */

  /** `steps` lead from `path[0]` to the end of `path`. */
  ghost predicate Leads(path: seq<Engine>, steps: seq<Step>) {
    |path| == |steps| + 1 && forall i | 0 <= i < |steps| :: NextBy(path[i], path[i + 1], steps[i])
  }

  lemma LeadsOn(s: Engine, first: Step, path: seq<Engine>, steps: seq<Step>)
    requires Leads(path, steps) && NextBy(s, path[0], first)
    ensures Leads([s] + path, [first] + steps)
  {
    hide NextBy;
    var longer, more := [s] + path, [first] + steps;
    forall i | 0 <= i < |more| ensures NextBy(longer[i], longer[i + 1], more[i]) {
      if i > 0 {
        assert NextBy(path[i - 1], path[i - 1 + 1], steps[i - 1]);
      }
    }
  }

  /** How many moves are still to be made before Process starts. */
  function MovesLeft(pc: Pc): nat {
    match pc
    case Dispatch => 4
    case LimitWait => 3
    case RetryWait => 3
    case RetryTop => 2
    case RetryCheck => 1
    case _ => 0
  }

  /** The next move of a Worker that tries; a rate limit may or may not apply. */
  function NextMove(pc: Pc, limited: bool): Move
    requires pc in {Dispatch, LimitWait, RetryWait, RetryTop}
  {
    match pc
    case Dispatch => DispatchOn(limited)
    case LimitWait => LimitOver
    case RetryWait => RetryOver
    case _ => NoPauseWaiting
  }

  lemma NextMoveAdvances(s: Engine, v: Vertex, limited: bool) returns (s': Engine)
    requires v in s.workers && MayProcess(s.workers[v]) && s.workers[v].pc in {Dispatch, LimitWait, RetryWait, RetryTop}
    ensures NextBy(s, s', WorkerMove(v, NextMove(s.workers[v].pc, limited))) && v in s'.workers
    ensures s' == With(s, v, s.workers[v].(pc := s'.workers[v].pc))
    ensures s'.workers[v].pc in {LimitWait, RetryTop, RetryCheck}
    ensures MovesLeft(s'.workers[v].pc) < MovesLeft(s.workers[v].pc)
  {
    var w := s.workers[v];
    s' := With(s, v, Moved(w, NextMove(w.pc, limited)));
    assert WorkerStep(s, s', WorkerMove(v, NextMove(w.pc, limited)));
  }

  predicate OwnAdvance(step: Step, v: Vertex) {
    || step == ProcessStarts(v)
    || (step.WorkerMove? && step.v == v
        && (step.m.DispatchOn? || step.m.LimitOver? || step.m.RetryOver? || step.m.NoPauseWaiting?))
  }

  /** A Worker that was woken, is not paused and may process needs at most four moves of its own to start Process, among them
      the rate limit or the retry delay, and neither an event nor a poke. */
  lemma {:induction false} TryingIsEnough(s: Engine, v: Vertex, limited: bool) returns (path: seq<Engine>, steps: seq<Step>)
    requires v in s.workers && MayProcess(s.workers[v])
    requires s.workers[v].pc in {Dispatch, LimitWait, RetryWait, RetryTop, RetryCheck}
    ensures Leads(path, steps) && path[0] == s && |steps| <= MovesLeft(s.workers[v].pc)
    ensures forall step | step in steps :: OwnAdvance(step, v)
    ensures var w := s.workers[v];
      path[|steps|] == With(s, v, w.(pc := Processing, proc := Checking(w.stamp, Preds(s.graph, v), true)))
    decreases MovesLeft(s.workers[v].pc)
  {
    hide NextBy, Preds;
    var w := s.workers[v];
    if w.pc == RetryCheck {
      var s' := With(s, v, w.(pc := Processing, proc := Checking(w.stamp, Preds(s.graph, v), true)));
      CheckStarts(s, v);
      path, steps := [s, s'], [ProcessStarts(v)];
    } else {
      var s' := NextMoveAdvances(s, v, limited);
      var rest, more := TryingIsEnough(s', v, limited);
      LeadsOn(s, WorkerMove(v, NextMove(w.pc, limited)), rest, more);
      path, steps := [s] + rest, [WorkerMove(v, NextMove(w.pc, limited))] + more;
      SameEnd(s, s', v, w);
    }
  }

  lemma CheckStarts(s: Engine, v: Vertex)
    requires v in s.workers && MayProcess(s.workers[v]) && s.workers[v].pc == RetryCheck
    ensures var w := s.workers[v];
      NextBy(s, With(s, v, w.(pc := Processing, proc := Checking(w.stamp, Preds(s.graph, v), true))), ProcessStarts(v))
  {
    hide Preds;
    var w := s.workers[v];
    assert WorkerStep(s, With(s, v, w.(pc := Processing, proc := Checking(w.stamp, Preds(s.graph, v), true))), ProcessStarts(v));
  }

  lemma SameEnd(s: Engine, s': Engine, v: Vertex, w: Worker)
    requires v in s.workers && v in s'.workers && s' == With(s, v, s'.workers[v])
    ensures forall w' :: With(s', v, w') == With(s, v, w')
  {
    forall w' ensures With(s', v, w') == With(s, v, w') {
      assert s'.workers[v := w'] == s.workers[v := w'];
    }
  }

  /** Once Process runs on a vertex whose prerequisites are all newer, comparing their timestamps admits it, and it can
      complete. */
  lemma {:induction false} ReadyCanComplete(s: Engine, v: Vertex, unread: set<Vertex>, now: int)
    returns (path: seq<Engine>, steps: seq<Step>)
    requires v in s.workers && s.workers[v].pc == Processing && now >= s.clock
    requires s.workers[v].proc == Checking(s.workers[v].stamp, unread, true)
    requires forall p | p in unread :: p in s.workers && s.workers[p].stamp > s.workers[v].stamp
    ensures Leads(path, steps) && path[0] == s
    ensures forall step | step in steps :: step.ReadsTimestamp? || step.Admitted? || step.Completes?
    ensures path[|steps|].log == s.log + [Completed(v, now, Preds(s.graph, v))]
    ensures v in path[|steps|].workers && path[|steps|].workers[v].stamp == now
    decreases unread
  {
    hide NextBy, Preds;
    if unread == {} {
      path, steps := AdmittedCompletes(s, v, now);
    } else {
      var p :| p in unread;
      var w := s.workers[v];
      var s' := With(s, v, w.(proc := Checking(w.stamp, unread - {p}, true)));
      ReadsGood(s, s', v, p);
      var rest, more := ReadyCanComplete(s', v, unread - {p}, now);
      LeadsOn(s, ReadsTimestamp(v, p), rest, more);
      path, steps := [s] + rest, [ReadsTimestamp(v, p)] + more;
    }
  }

  lemma ReadsGood(s: Engine, s': Engine, v: Vertex, p: Vertex)
    requires v in s.workers && p in s.workers && s.workers[v].pc == Processing && s.workers[v].proc.Checking?
    requires p in s.workers[v].proc.unread && s.workers[v].proc.good && s.workers[v].proc.ts < s.workers[p].stamp
    requires var w := s.workers[v]; s' == With(s, v, w.(proc := Checking(w.proc.ts, w.proc.unread - {p}, true)))
    ensures NextBy(s, s', ReadsTimestamp(v, p))
  {
    hide Preds;
    assert WorkerStep(s, s', ReadsTimestamp(v, p));
  }

  lemma AdmittedCompletes(s: Engine, v: Vertex, now: int) returns (path: seq<Engine>, steps: seq<Step>)
    requires v in s.workers && s.workers[v].pc == Processing && now >= s.clock
    requires s.workers[v].proc == Checking(s.workers[v].stamp, {}, true)
    ensures Leads(path, steps) && path[0] == s && steps == [Admitted(v), Completes(v, now)]
    ensures path[2].log == s.log + [Completed(v, now, Preds(s.graph, v))]
    ensures v in path[2].workers && path[2].workers[v].stamp == now
  {
    hide Preds;
    var w := s.workers[v];
    var t := With(s, v, w.(proc := Applying));
    var u := With(t, v, w.(proc := Completing, stamp := now, doneAt := |s.log|))
             .(clock := now, log := s.log + [Completed(v, now, Preds(s.graph, v))]);
    assert WorkerStep(s, t, Admitted(v)) && WorkerStep(t, u, Completes(v, now));
    path, steps := [s, t, u], [Admitted(v), Completes(v, now)];
  }

  /* ----- what cannot be taken back ----- */

  /** From state `i` to state `j` it is the same life of `v`. */
  ghost predicate SameLife(run: seq<Engine>, i: nat, j: nat, v: Vertex) {
    && i <= j < |run| && v in run[i].workers
    && forall k | i <= k <= j :: v in run[k].workers && run[k].workers[v].born == run[i].workers[v].born
  }

  /** What one step, of whatever kind, may do to the Worker of a vertex within one life. */
  ghost predicate Lasting(w: Worker, w': Worker) {
    && (w.failed ==> w'.failed) && w'.gen >= w.gen
    && (w.watch == SendingRestart ==> w'.watch == SendingRestart || w'.gen > w.gen)
    && (w.watch == SendingFatal ==> w'.watch == SendingFatal || w'.failed)
  }

  lemma MoveLasts(w: Worker, m: Move)
    requires Enabled(w, m)
    ensures Lasting(w, Moved(w, m))
  {
  }

  lemma WorkerStepLasts(s: Engine, s': Engine, step: Step, v: Vertex)
    requires WorkerStep(s, s', step) && v in s.workers
    ensures v in s'.workers && Lasting(s.workers[v], s'.workers[v])
  {
    hide Preds, Moved, Enabled, MayProcess;
    if step.WorkerMove? {
      MoveLasts(s.workers[step.v], step.m);
    }
  }

  lemma ControlStepLasts(s: Engine, s': Engine, step: Step, v: Vertex)
    requires ControlStep(s, s', step) && v in s.workers
    ensures v in s'.workers && Lasting(s.workers[v], s'.workers[v])
  {
    hide Acyclic, TopologicalOrder;
  }

  lemma CommitStepLasts(s: Engine, s': Engine, step: Step, v: Vertex)
    requires CommitStep(s, s', step) && v in s.workers && v in s'.workers && StampsOk(s)
    requires s'.workers[v].born == s.workers[v].born
    ensures Lasting(s.workers[v], s'.workers[v])
  {
    hide Acyclic, Closed, Listed;
    assert StampOk(s.log, v, s.workers[v]);
  }

  lemma StepLasts(s: Engine, s': Engine, v: Vertex)
    requires Inv(s) && Next(s, s') && v in s.workers && v in s'.workers && s'.workers[v].born == s.workers[v].born
    ensures Lasting(s.workers[v], s'.workers[v])
  {
    hide WorkerStep, ControlStep, CommitStep, Lasting, GraphOk, WorkersOk, ControlOk, RemovalOk, LogSorted, StampsOk, ProcsOk,
      InTurn;
    var step :| NextBy(s, s', step);
    if WorkerStep(s, s', step) {
      WorkerStepLasts(s, s', step, v);
    } else if ControlStep(s, s', step) {
      ControlStepLasts(s, s', step, v);
    } else {
      CommitStepLasts(s, s', step, v);
    }
  }

  lemma {:induction false} LifeLasts(run: seq<Engine>, i: nat, j: nat, v: Vertex)
    requires IsRun(run) && i <= j < |run| && SameLife(run, i, j, v)
    ensures v in run[i].workers && v in run[j].workers && Lasting(run[i].workers[v], run[j].workers[v])
    decreases j
  {
    hide Next, Inv;
    if i < j {
      LifeLasts(run, i, j - 1, v);
      assert Next(run[j - 1], run[j - 1 + 1]);
      RunsKeepInv(run, j - 1);
      StepLasts(run[j - 1], run[j], v);
    }
  }

  /** A Process that failed for good, or a Watch error that was received, is final: in this life no Process runs again. */
  lemma FailureIsFinal(run: seq<Engine>, i: nat, j: nat, v: Vertex, m: Move)
    requires IsRun(run) && i < j < |run| && NextBy(run[i], run[i + 1], WorkerMove(v, m)) && SameLife(run, i, j, v)
    requires m.ReceiveFatal? || (m.ProcessReturns? && m.outcome.Permanent?)
    ensures run[j].workers[v].failed && run[j].workers[v].pc != Processing
  {
    hide IsRun, CommitStep, ControlStep, Inv;
    assert run[i + 1].workers[v].failed by { MoveFails(run[i], run[i + 1], v, m); }
    assert SameLife(run, i + 1, j, v);
    LifeLasts(run, i + 1, j, v);
    FailedIsIdle(run, j, v);
  }

  lemma FailedIsIdle(run: seq<Engine>, j: nat, v: Vertex)
    requires IsRun(run) && j < |run| && v in run[j].workers && run[j].workers[v].failed
    ensures run[j].workers[v].pc != Processing
  {
    hide IsRun, GraphOk, ControlOk, RemovalOk, LogSorted, StampsOk, ProcsOk, InTurn;
    RunsKeepInv(run, j);
    assert WorkerOk(run[j].workers[v]);
  }

  lemma MoveFails(s: Engine, s': Engine, v: Vertex, m: Move)
    requires NextBy(s, s', WorkerMove(v, m)) && (m.ReceiveFatal? || (m.ProcessReturns? && m.outcome.Permanent?))
    ensures v in s'.workers && s'.workers[v].failed
  {
  }

  /** A Watch that failed and retries restarts before anything else is received from it, and one that failed for good is
      heard. */
  lemma WatchFailureIsHeard(run: seq<Engine>, i: nat, j: nat, v: Vertex, m: Move)
    requires IsRun(run) && i < j < |run| && NextBy(run[i], run[i + 1], WorkerMove(v, m)) && SameLife(run, i, j, v)
    ensures m == WatchFailsAndRetries ==> run[j].workers[v].watch == SendingRestart || run[j].workers[v].gen > run[i].workers[v].gen
    ensures m == WatchFailsForGood ==> run[j].workers[v].watch == SendingFatal || run[j].workers[v].failed
  {
    hide IsRun, CommitStep, ControlStep;
    MoveOfWatch(run[i], run[i + 1], v, m);
    assert SameLife(run, i + 1, j, v);
    LifeLasts(run, i + 1, j, v);
  }

  lemma MoveOfWatch(s: Engine, s': Engine, v: Vertex, m: Move)
    requires NextBy(s, s', WorkerMove(v, m))
    ensures v in s.workers && v in s'.workers && s'.workers[v].gen >= s.workers[v].gen
    ensures m == WatchFailsAndRetries ==> s'.workers[v].watch == SendingRestart
    ensures m == WatchFailsForGood ==> s'.workers[v].watch == SendingFatal
  {
  }
}
