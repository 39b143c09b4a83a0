/** The steps of Pokes are those of Process: when nobody else moves, one run of them leaves the timestamps and pokes that
    `Process.Engine.Process` leaves. */
module PokesAlone {
  import opened Vertices
  import opened Digraphs
  import opened Timestamps
  import opened Pokes
  import Process

  /** A run of Process on `v` that ends without an error, or turned back, while nobody else moves. */
  ghost predicate Alone(c: Setting, run: seq<State>, steps: seq<Step>, v: Vertex) {
    && |run| == |steps| + 1 && v in c.g && (forall i | 0 <= i < |run| :: Shape(c, run[i]))
    && run[0].nodes[v].phase == Trying
    && forall i | 0 <= i < |steps| :: OwnStep(c, run[i], run[i + 1], steps[i], v)
  }

  ghost predicate OwnStep(c: Setting, s: State, s': State, step: Step, v: Vertex)
    requires Shape(c, s) && v in c.g
  {
    step.v == v && !step.Fail? && !step.Interrupt? && (ProcessStep(c, s, s', step) || PokeStep(c, s, s', step))
  }

  ghost predicate Untouched(s0: State, s: State) {
    s.stamps == s0.stamps && s.poked == s0.poked
  }

  ghost predicate ReadSoFar(c: Setting, s0: State, v: Vertex, unread: set<Vertex>, bad: set<Vertex>)
    requires Shape(c, s0) && v in c.g
  {
    unread <= Preds(c.g, v) && bad == Bad(c.g, s0.stamps, v) - unread
  }

  ghost predicate RefusedSoFar(c: Setting, s0: State, s: State, v: Vertex, bad: set<Vertex>)
    requires Shape(c, s0) && v in c.g
  {
    var all := Bad(c.g, s0.stamps, v);
    all != {} && bad <= all && s.stamps == s0.stamps && s.poked == s0.poked + (all - bad)
  }

  /** The vertex completed at the time that the clock shows, and has poked whom it should but for those in `left`. */
  ghost predicate CompletedBut(c: Setting, s0: State, s: State, v: Vertex, left: set<Vertex>)
    requires Shape(c, s0) && v in c.g
  {
    && MayRun(c.g, s0.stamps, v) && s.stamps == s0.stamps[v := s.clock]
    && s.poked == s0.poked + (Process.Ready(c.g, s.stamps, v) - left)
  }

  /** What a look has found so far. */
  ghost predicate LookedSoFar(c: Setting, s: State, v: Vertex, unchecked: set<Vertex>, look: Look)
    requires Shape(c, s)
  {
    && look.w in c.g && look.w in Succs(c.g, v) && look.w !in unchecked && look.ts == s.stamps[look.w]
    && look.unread <= Preds(c.g, look.w)
    && forall p | p in Preds(c.g, look.w) && p !in look.unread :: look.ts < s.stamps[p]
  }

  /** Where the run is, compared with the state `s0` in which it began. */
  ghost predicate Progress(c: Setting, s0: State, s: State, v: Vertex)
    requires Shape(c, s0) && Shape(c, s) && v in c.g
  {
    match s.nodes[v].phase
    case Trying => Untouched(s0, s)
    case Reading(unread, bad) => Untouched(s0, s) && ReadSoFar(c, s0, v, unread, bad)
    case Refusing(bad) => RefusedSoFar(c, s0, s, v, bad)
    case Applying => Untouched(s0, s) && MayRun(c.g, s0.stamps, v)
    case Poking(unchecked, look) =>
      && unchecked <= Succs(c.g, v)
      && CompletedBut(c, s0, s, v, unchecked + if look.Some? then {look.value.w} else {})
      && (look.Some? ==> LookedSoFar(c, s, v, unchecked, look.value))
    case Waiting => RefusedSoFar(c, s0, s, v, {}) || CompletedBut(c, s0, s, v, {})
    case _ => false
  }

  lemma ProcessStepAdvances(c: Setting, s0: State, s: State, s': State, step: Step)
    requires Shape(c, s0) && Shape(c, s) && Shape(c, s') && step.v in c.g && Progress(c, s0, s, step.v)
    requires ProcessStep(c, s, s', step) && !step.Fail? && !step.Interrupt?
    ensures Progress(c, s0, s', step.v)
  {
    hide Succs, CompletedBut, LookedSoFar;
    match step
    case ReadStamp(v, p) =>
      var n := s.nodes[v].phase;
      assert p in Bad(c.g, s0.stamps, v) <==> s.stamps[v] >= s.stamps[p];
      assert Bad(c.g, s0.stamps, v) - (n.unread - {p})
          == Bad(c.g, s0.stamps, v) - n.unread + if s.stamps[v] >= s.stamps[p] then {p} else {};
    case Backpoke(v, p) =>
      var all, bad := Bad(c.g, s0.stamps, v), s.nodes[v].phase.bad;
      assert all - (bad - {p}) == all - bad + {p};
    case _ =>
  }

  lemma CompleteAdvances(c: Setting, s0: State, s: State, s': State, step: Step)
    requires Shape(c, s0) && Shape(c, s) && Shape(c, s') && step.v in c.g && Progress(c, s0, s, step.v)
    requires PokeStep(c, s, s', step) && (step.Complete? || step.Done?)
    ensures Progress(c, s0, s', step.v)
  {
    hide MayRun;
    if step.Complete? {
      var v := step.v;
      assert Process.Ready(c.g, s'.stamps, v) - Succs(c.g, v) == {};
      assert s'.poked == s0.poked + {};
    }
  }

  lemma LookAdvances(c: Setting, s0: State, s: State, s': State, step: Step)
    requires Closed(c.g) && Shape(c, s0) && Shape(c, s) && Shape(c, s') && step.v in c.g && Progress(c, s0, s, step.v)
    requires PokeStep(c, s, s', step) && !step.Complete? && !step.Done?
    ensures Progress(c, s0, s', step.v)
  {
    hide MayRun, Closed;
    var v := step.v;
    match step
    case LookAt(_, w) =>
      assert s.nodes[v].phase.unchecked == s.nodes[v].phase.unchecked - {w} + {w};
    case LookFurther(_, p) =>
      LookFinds(c, s, v, s.nodes[v].phase.look.value, p);
    case SendPoke(_) =>
      LookFindsNothing(c, s, v, s.nodes[v].phase.unchecked, s.nodes[v].phase.look.value);
    case _ =>
  }

  lemma LookFinds(c: Setting, s: State, v: Vertex, look: Look, p: Vertex)
    requires Shape(c, s) && look.w in c.g && look.ts == s.stamps[look.w] && p in Preds(c.g, look.w) && p in c.g
    ensures look.ts >= s.stamps[p] ==> look.w !in Process.Ready(c.g, s.stamps, v)
  {
    assert look.ts >= s.stamps[p] ==> p in Bad(c.g, s.stamps, look.w);
  }

  lemma LookFindsNothing(c: Setting, s: State, v: Vertex, unchecked: set<Vertex>, look: Look)
    requires Shape(c, s) && LookedSoFar(c, s, v, unchecked, look) && look.unread == {}
    ensures look.w in Process.Ready(c.g, s.stamps, v)
  {
    assert Bad(c.g, s.stamps, look.w) == {};
  }

  lemma {:induction false} AloneProgresses(c: Setting, run: seq<State>, steps: seq<Step>, v: Vertex, i: nat)
    requires Closed(c.g) && Alone(c, run, steps, v) && i < |run|
    ensures Progress(c, run[0], run[i], v)
  {
    hide Progress, ProcessStep, PokeStep, Closed, Shape;
    if i == 0 {
      BeginsUntouched(c, run[0], v);
    } else {
      AloneProgresses(c, run, steps, v, i - 1);
      assert OwnStep(c, run[i - 1], run[i - 1 + 1], steps[i - 1], v);
      if ProcessStep(c, run[i - 1], run[i], steps[i - 1]) {
        ProcessStepAdvances(c, run[0], run[i - 1], run[i], steps[i - 1]);
      } else if steps[i - 1].Complete? || steps[i - 1].Done? {
        CompleteAdvances(c, run[0], run[i - 1], run[i], steps[i - 1]);
      } else {
        LookAdvances(c, run[0], run[i - 1], run[i], steps[i - 1]);
      }
    }
  }

  lemma BeginsUntouched(c: Setting, s: State, v: Vertex)
    requires Shape(c, s) && v in c.g && s.nodes[v].phase == Trying
    ensures Progress(c, s, s, v)
  {
  }

  /** When nobody else moves, a run that is turned back has poked exactly those in its way, and one that completes leaves the
      timestamps and the pokes that Process leaves. */
  lemma AloneIsProcess(c: Setting, run: seq<State>, steps: seq<Step>, v: Vertex, notify: set<Edge>, before: Process.View,
                       res: Process.Resource, a: Process.Answers)
    requires Closed(c.g) && Alone(c, run, steps, v) && run[|steps|].nodes[v].phase == Waiting
    requires before.stamps == run[0].stamps && before.poked == run[0].poked && a.now == run[|steps|].clock
    ensures var last := run[|steps|];
      if !MayRun(c.g, before.stamps, v) then
        last.stamps == before.stamps && last.poked == before.poked + Bad(c.g, before.stamps, v)
      else
        var after := Process.Succeeded(c.g, notify, false, before, v, res, a);
        last.stamps == after.stamps && last.poked == after.poked
  {
    hide ProcessStep, PokeStep, Closed, OwnStep, Process.Pending, Process.Changed, Process.Ready;
    AloneProgresses(c, run, steps, v, |steps|);
    assert Progress(c, run[0], run[|steps|], v);
  }
}
