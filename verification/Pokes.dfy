/** Who makes a vertex run: pokes between Workers that all move at once.

    A completion pokes each successor unless it finds a reason why that one may not run anyway; a refused run pokes the
    prerequisites that were in the way.  Timestamps are read one at a time while others change them.  A Watch that fails and
    restarts withdraws the permission to run until its replacement sends an event, and only the main select gives that
    permission back: the selects of a rate limit and of a retry delay consume the event without a trace. */
module Pokes {
  import opened Vertices
  import opened Digraphs
  import opened Timestamps

  /** A look at a successor: its timestamp, read first, and the prerequisites still to be read. */
  datatype Look = Look(w: Vertex, ts: int, unread: set<Vertex>)

  datatype Phase =
    | Waiting                                             // in the main select
    | Limiting                                            // in the select of a rate limit
    | Delaying                                            // in the select of a retry delay
    | Trying                                              // going to run Process, for the first time or again
    | Reading(unread: set<Vertex>, bad: set<Vertex>)      // comparing timestamps
    | Refusing(bad: set<Vertex>)                          // these are still to be poked
    | Applying
    | Poking(unchecked: set<Vertex>, look: Option<Look>)  // completed, and looking at the successors one by one
    | Stopped                                             // failed for good

  /** `failing`: Watch has failed and waits to hand over the news; `due`: it was restarted, or started for the first time,
      and its initial event has not been received. */
  datatype Node = Node(phase: Phase, started: bool, due: bool, failing: bool)

  /** Which Watches restart after a failure, and which Workers have a rate limit or a retry delay. */
  datatype Setting = Setting(g: Adjacency, restarts: set<Vertex>, limited: set<Vertex>, delayed: set<Vertex>)

  datatype State = State(stamps: Stamps, poked: set<Vertex>, nodes: map<Vertex, Node>, clock: int)

  datatype Step =
    | Wake(v: Vertex, wait: bool)     // a poke is received, or a resume
    | Event(v: Vertex, wait: bool)    // an event from Watch is received
    | WatchFails(v: Vertex)
    | Sentinel(v: Vertex)             // the news that Watch failed and restarts
    | WaitOver(v: Vertex)
    | Start(v: Vertex)
    | ReadStamp(v: Vertex, p: Vertex)
    | Refuse(v: Vertex)
    | Backpoke(v: Vertex, p: Vertex)
    | TurnBack(v: Vertex)
    | Admit(v: Vertex)
    | Fail(v: Vertex, wait: bool)
    | Interrupt(v: Vertex)
    | Die(v: Vertex)
    | Complete(v: Vertex, now: int)
    | LookAt(v: Vertex, w: Vertex)
    | LookFurther(v: Vertex, p: Vertex)
    | SendPoke(v: Vertex)
    | Done(v: Vertex)

  predicate Shape(c: Setting, s: State) {
    c.g.Keys == s.stamps.Keys == s.nodes.Keys
  }

  function Put(s: State, v: Vertex, n: Node): State {
    s.(nodes := s.nodes[v := n])
  }

  /** Where an admitted wakeup leads. */
  function Admitted(n: Node, wait: bool): Node {
    if !n.started then n.(phase := Waiting) else n.(phase := if wait then Limiting else Trying)
  }

  predicate Selecting(ph: Phase) {
    ph in {Waiting, Limiting, Delaying}
  }

  /** One timestamp of a prerequisite is compared. */
  function Compared(s: State, v: Vertex, p: Vertex): Phase
    requires v in s.stamps && p in s.stamps && v in s.nodes && s.nodes[v].phase.Reading?
  {
    var ph := s.nodes[v].phase;
    Reading(ph.unread - {p}, if s.stamps[v] >= s.stamps[p] then ph.bad + {p} else ph.bad)
  }

  ghost predicate WakeStep(c: Setting, s: State, s': State, step: Step)
    requires Shape(c, s) && step.v in c.g
  {
    var v := step.v; var n := s.nodes[v];
    match step
    case Wake(_, wait) =>
      // every wakeup drains the poke channel; without permission nothing else happens
      n.phase == Waiting && (wait ==> v in c.limited) && s' == Put(s, v, Admitted(n, wait)).(poked := s.poked - {v})
    case Event(_, wait) =>
      && !n.failing && (wait ==> v in c.limited)
      && if n.phase == Waiting then
           s' == Put(s, v, Admitted(n.(started := true, due := false), wait)).(poked := s.poked - {v})
         else Selecting(n.phase) && s' == Put(s, v, n.(due := false))
    case WatchFails(_) =>
      v in c.restarts && !n.failing && n.phase != Stopped && s' == Put(s, v, n.(failing := true))
    case Sentinel(_) =>
      n.failing && Selecting(n.phase) && s' == Put(s, v, n.(started := false, due := true, failing := false))
    case WaitOver(_) =>
      n.phase in {Limiting, Delaying} && s' == Put(s, v, n.(phase := if n.started then Trying else Waiting))
    case Die(_) =>
      Selecting(n.phase) && s' == Put(s, v, n.(phase := Stopped))
    case _ => false
  }

  ghost predicate ProcessStep(c: Setting, s: State, s': State, step: Step)
    requires Shape(c, s) && step.v in c.g
  {
    var v := step.v; var n := s.nodes[v];
    match step
    case Start(_) =>
      n.phase == Trying && s' == Put(s, v, n.(phase := Reading(Preds(c.g, v), {})))
    case ReadStamp(_, p) =>
      n.phase.Reading? && p in n.phase.unread && p in c.g && s' == Put(s, v, n.(phase := Compared(s, v, p)))
    case Refuse(_) =>
      && n.phase.Reading? && n.phase.unread == {} && n.phase.bad != {}
      && s' == Put(s, v, n.(phase := Refusing(n.phase.bad)))
    case Backpoke(_, p) =>
      && n.phase.Refusing? && p in n.phase.bad
      && s' == Put(s, v, n.(phase := Refusing(n.phase.bad - {p}))).(poked := s.poked + {p})
    case TurnBack(_) =>
      n.phase == Refusing({}) && s' == Put(s, v, n.(phase := Waiting))
    case Admit(_) =>
      n.phase == Reading({}, {}) && s' == Put(s, v, n.(phase := Applying))
    case Fail(_, wait) =>
      n.phase == Applying && (wait ==> v in c.delayed) && s' == Put(s, v, n.(phase := if wait then Delaying else Trying))
    case Interrupt(_) =>
      // only a failing Watch does that
      n.phase == Applying && n.failing && s' == Put(s, v, n.(phase := Waiting))
    case _ => false
  }

  ghost predicate PokeStep(c: Setting, s: State, s': State, step: Step)
    requires Shape(c, s) && step.v in c.g
  {
    var v := step.v; var n := s.nodes[v];
    match step
    case Complete(_, now) =>
      && n.phase == Applying && now >= s.clock
      && s' == Put(s, v, n.(phase := Poking(Succs(c.g, v), None))).(stamps := s.stamps[v := now], clock := now)
    case LookAt(_, w) =>
      && n.phase.Poking? && n.phase.look == None && w in n.phase.unchecked && w in c.g
      && s' == Put(s, v, n.(phase := Poking(n.phase.unchecked - {w}, Some(Look(w, s.stamps[w], Preds(c.g, w))))))
    case LookFurther(_, p) =>
      // a prerequisite in the way ends the look
      && n.phase.Poking? && n.phase.look.Some? && p in n.phase.look.value.unread && p in c.g
      && var l := n.phase.look.value;
      && s' == Put(s, v, n.(phase := Poking(n.phase.unchecked,
                                            if l.ts >= s.stamps[p] then None else Some(l.(unread := l.unread - {p})))))
    case SendPoke(_) =>
      && n.phase.Poking? && n.phase.look.Some? && n.phase.look.value.unread == {}
      && s' == Put(s, v, n.(phase := Poking(n.phase.unchecked, None))).(poked := s.poked + {n.phase.look.value.w})
    case Done(_) =>
      n.phase == Poking({}, None) && s' == Put(s, v, n.(phase := Waiting))
    case _ => false
  }

  ghost predicate NextBy(c: Setting, s: State, s': State, step: Step)
    requires Shape(c, s)
  {
    step.v in c.g && (WakeStep(c, s, s', step) || ProcessStep(c, s, s', step) || PokeStep(c, s, s', step))
  }

  /** A vertex that has just been added: its initial event is still to come. */
  const NEW := Node(Waiting, false, true, false)

  /** After a resume a started Worker goes on to try, or back to the wait it was in; one that is not started waits for its
      event, or has been mute since before; and a failed one stays so. */
  ghost predicate Resumed(c: Setting, s: State, v: Vertex)
    requires Shape(c, s) && v in c.g
  {
    var n := s.nodes[v];
    && NodeOk(c, s, v) && (Selecting(n.phase) || n.phase in {Trying, Stopped})
    && (OnItsWay(n) || Muted(n))
  }

  ghost predicate Init(c: Setting, s: State) {
    Shape(c, s) && PastStamps(c, s) && forall v | v in c.g :: s.nodes[v] == NEW || Resumed(c, s, v)
  }

  ghost predicate IsRun(c: Setting, run: seq<State>, steps: seq<Step>) {
    && |run| == |steps| + 1 && Init(c, run[0])
    && (forall i | 0 <= i < |run| :: Shape(c, run[i]))
    && forall i | 0 <= i < |steps| :: NextBy(c, run[i], run[i + 1], steps[i])
  }

  /* ----- who is looked after ----- */

  /** Not started, and no event is promised: every poke is dropped. */
  predicate Muted(n: Node) {
    !n.started && !n.due && !n.failing && n.phase != Stopped
  }

  /** It will run Process, or an initial event will come; or it never will again. */
  predicate OnItsWay(n: Node) {
    match n.phase
    case Stopped => true
    case Trying => true
    case Reading(_, bad) => bad == {} || n.due || n.failing
    case Applying => true
    case Limiting => !Muted(n)
    case Delaying => !Muted(n)
    case _ => n.due || n.failing
  }

  /** Somebody who completed still has to look at `w`, or has begun to and found nothing in the way so far. */
  ghost predicate ToBeChecked(c: Setting, s: State, w: Vertex)
    requires Shape(c, s)
  {
    exists v :: v in c.g && ChecksFor(s.nodes[v].phase, w)
  }

  predicate ChecksFor(ph: Phase, w: Vertex) {
    ph.Poking? && (w in ph.unchecked || (ph.look.Some? && ph.look.value.w == w))
  }

  /** Will run by itself, or is poked and heeds it, or is going to be looked at. */
  ghost predicate LookedAfter(c: Setting, s: State, w: Vertex)
    requires Shape(c, s) && w in c.g
  {
    !Muted(s.nodes[w]) && (OnItsWay(s.nodes[w]) || w in s.poked || ToBeChecked(c, s, w))
  }

  /** A vertex that may run by its timestamps, and should since a prerequisite completed, but that nobody looks after. */
  ghost predicate Lost(c: Setting, s: State, w: Vertex)
    requires Shape(c, s)
  {
    w in c.g && Preds(c.g, w) != {} && MayRun(c.g, s.stamps, w) && !LookedAfter(c, s, w)
  }

  /** The only way to be lost. */
  ghost predicate OnlyMutedLost(c: Setting, s: State)
    requires Shape(c, s)
  {
    forall w | Lost(c, s, w) :: Muted(s.nodes[w])
  }

  ghost predicate PastStamps(c: Setting, s: State)
    requires Shape(c, s)
  {
    forall v | v in c.g :: s.stamps[v] <= s.clock
  }

  /** What a node says about itself and about what it has read. */
  ghost predicate NodeOk(c: Setting, s: State, v: Vertex)
    requires Shape(c, s) && v in c.g
  {
    var n := s.nodes[v];
    && (!Selecting(n.phase) && n.phase != Stopped ==> n.started)
    && (n.failing ==> v in c.restarts)
    && (n.phase == Limiting ==> v in c.limited) && (n.phase == Delaying ==> v in c.delayed)
    && (!n.started && n.phase != Waiting && n.phase != Stopped ==> v in c.restarts)
    && (Muted(n) ==> MayMute(c, v))
    && (n.phase.Poking? && n.phase.look.Some? ==>
          n.phase.look.value.w in c.g && n.phase.look.value.unread <= Preds(c.g, n.phase.look.value.w)
          && n.phase.look.value.ts <= s.stamps[n.phase.look.value.w])
    && (n.phase.Poking? ==> n.phase.unchecked <= Succs(c.g, v))
    && (n.phase.Reading? ==> n.phase.unread <= Preds(c.g, v))
  }

  /** A Watch that may restart while its Worker sits out a rate limit or a retry delay. */
  predicate MayMute(c: Setting, v: Vertex) {
    v in c.restarts && v in c.limited + c.delayed
  }

  ghost predicate NodesOk(c: Setting, s: State)
    requires Shape(c, s)
  {
    forall v | v in c.g :: NodeOk(c, s, v)
  }

  /* ----- no step loses anybody who is not muted ----- */

  lemma WakeStepOk(c: Setting, s: State, s': State, step: Step)
    requires Shape(c, s) && Shape(c, s') && step.v in c.g && WakeStep(c, s, s', step)
    requires NodeOk(c, s, step.v)
    ensures NodeOk(c, s', step.v)
  {
    hide Preds, Succs;
  }

  lemma ProcessStepOk(c: Setting, s: State, s': State, step: Step)
    requires Shape(c, s) && Shape(c, s') && step.v in c.g && ProcessStep(c, s, s', step)
    requires NodeOk(c, s, step.v)
    ensures NodeOk(c, s', step.v)
  {
    hide Preds, Succs;
  }

  lemma PokeStepOk(c: Setting, s: State, s': State, step: Step)
    requires Shape(c, s) && Shape(c, s') && step.v in c.g && PokeStep(c, s, s', step)
    requires NodeOk(c, s, step.v)
    ensures NodeOk(c, s', step.v)
  {
    hide Preds, Succs;
  }

  lemma NodeStepOk(c: Setting, s: State, s': State, step: Step)
    requires Shape(c, s) && Shape(c, s') && NextBy(c, s, s', step) && NodesOk(c, s)
    ensures NodeOk(c, s', step.v)
  {
    hide Preds, Succs, WakeStep, ProcessStep, PokeStep, NodeOk;
    assert NodeOk(c, s, step.v);
    if WakeStep(c, s, s', step) {
      WakeStepOk(c, s, s', step);
    } else if ProcessStep(c, s, s', step) {
      ProcessStepOk(c, s, s', step);
    } else {
      PokeStepOk(c, s, s', step);
    }
  }

  /** What a step of another vertex leaves alone, and what nobody ever turns back. */
  ghost predicate Frame(c: Setting, s: State, s': State, v: Vertex)
    requires Shape(c, s) && Shape(c, s')
  {
    && (forall w | w in c.g && w != v :: s'.nodes[w] == s.nodes[w])
    && (forall w | w in s.poked && w != v :: w in s'.poked)
    && (forall w | w in c.g :: s'.stamps[w] >= s.stamps[w])
  }

  lemma WakeFrame(c: Setting, s: State, s': State, step: Step)
    requires Shape(c, s) && Shape(c, s') && step.v in c.g && WakeStep(c, s, s', step)
    ensures Frame(c, s, s', step.v) && s'.stamps == s.stamps && s'.clock == s.clock && !step.Complete?
  {
    hide Admitted;
  }

  lemma ProcessFrame(c: Setting, s: State, s': State, step: Step)
    requires Shape(c, s) && Shape(c, s') && step.v in c.g && ProcessStep(c, s, s', step)
    ensures Frame(c, s, s', step.v) && s'.stamps == s.stamps && s'.clock == s.clock && !step.Complete?
  {
    hide Preds, Compared;
  }

  lemma PokeFrame(c: Setting, s: State, s': State, step: Step)
    requires Shape(c, s) && Shape(c, s') && step.v in c.g && PokeStep(c, s, s', step) && PastStamps(c, s)
    ensures Frame(c, s, s', step.v) && (!step.Complete? ==> s'.stamps == s.stamps && s'.clock == s.clock)
  {
    hide Preds, Succs;
  }

  lemma StepFrame(c: Setting, s: State, s': State, step: Step)
    requires Shape(c, s) && Shape(c, s') && NextBy(c, s, s', step) && PastStamps(c, s)
    ensures Frame(c, s, s', step.v) && (!step.Complete? ==> s'.stamps == s.stamps && s'.clock == s.clock)
    ensures step.Complete? ==> PokeStep(c, s, s', step)
  {
    hide WakeStep, ProcessStep, PokeStep, Frame, PastStamps;
    if WakeStep(c, s, s', step) {
      WakeFrame(c, s, s', step);
    } else if ProcessStep(c, s, s', step) {
      ProcessFrame(c, s, s', step);
    } else {
      PokeFrame(c, s, s', step);
    }
  }

  lemma OthersStayOk(c: Setting, s: State, s': State, v: Vertex, u: Vertex)
    requires Shape(c, s) && Shape(c, s') && Frame(c, s, s', v) && u in c.g && u != v && NodeOk(c, s, u)
    ensures NodeOk(c, s', u)
  {
    hide MayMute, Muted, Preds, Succs, Selecting;
  }

  lemma StepKeepsPast(c: Setting, s: State, s': State, step: Step)
    requires Shape(c, s) && Shape(c, s') && NextBy(c, s, s', step) && PastStamps(c, s)
    ensures PastStamps(c, s')
  {
    hide WakeStep, ProcessStep, Preds, Succs;
    StepFrame(c, s, s', step);
  }

  lemma StepKeepsNodes(c: Setting, s: State, s': State, step: Step)
    requires Shape(c, s) && Shape(c, s') && NextBy(c, s, s', step) && NodesOk(c, s) && PastStamps(c, s)
    ensures NodesOk(c, s') && PastStamps(c, s')
  {
    hide NextBy, NodeOk, Frame, PastStamps;
    StepKeepsPast(c, s, s', step);
    NodeStepOk(c, s, s', step);
    StepFrame(c, s, s', step);
    forall v | v in c.g ensures NodeOk(c, s', v) {
      if v != step.v {
        OthersStayOk(c, s, s', step.v, v);
      }
    }
  }

  lemma NothingInTheWay(c: Setting, s: State, look: Look, p: Vertex)
    requires Shape(c, s) && look.w in c.g && look.unread <= Preds(c.g, look.w) && look.ts <= s.stamps[look.w]
    requires p in look.unread && p in c.g && MayRun(c.g, s.stamps, look.w)
    ensures look.ts < s.stamps[p]
  {
    hide Preds;
    assert p !in Bad(c.g, s.stamps, look.w);
  }

  /** A look that is under way stays so, unless it found a reason or turned into a poke. */
  lemma StillChecked(c: Setting, s: State, s': State, step: Step, w: Vertex)
    requires Shape(c, s) && Shape(c, s') && NextBy(c, s, s', step) && NodesOk(c, s) && PastStamps(c, s)
    requires w in c.g && MayRun(c.g, s.stamps, w) && ToBeChecked(c, s, w)
    ensures ToBeChecked(c, s', w) || w in s'.poked
  {
    hide Succs, WakeStep, ProcessStep;
    StepFrame(c, s, s', step);
    var v :| v in c.g && ChecksFor(s.nodes[v].phase, w);
    assert NodeOk(c, s, v);
    if v == step.v && PokeStep(c, s, s', step) {
      if step.LookFurther? && s.nodes[v].phase.look.value.w == w {
        NothingInTheWay(c, s, s.nodes[v].phase.look.value, step.p);
      }
      assert ChecksFor(s'.nodes[v].phase, w) || w in s'.poked;
    } else {
      if v == step.v {
        OnlyLookingEnds(c, s, s', step);
      }
      assert ChecksFor(s'.nodes[v].phase, w);
    }
  }

  lemma OnlyLookingEnds(c: Setting, s: State, s': State, step: Step)
    requires Shape(c, s) && Shape(c, s') && NextBy(c, s, s', step) && !PokeStep(c, s, s', step)
    requires s.nodes[step.v].phase.Poking?
    ensures s'.nodes[step.v].phase == s.nodes[step.v].phase
  {
    hide Preds, Succs;
  }

  /** A step of `w` itself. */
  lemma OwnStepKeeps(c: Setting, s: State, s': State, step: Step)
    requires Shape(c, s) && Shape(c, s') && NextBy(c, s, s', step) && NodesOk(c, s) && !step.Complete?
    requires MayRun(c.g, s.stamps, step.v) && !Muted(s'.nodes[step.v])
    ensures OnItsWay(s'.nodes[step.v]) || (!Muted(s.nodes[step.v]) && !OnItsWay(s.nodes[step.v]) && step.v in s.poked ==> step.v in s'.poked)
    ensures Muted(s.nodes[step.v]) || OnItsWay(s.nodes[step.v]) ==> OnItsWay(s'.nodes[step.v])
  {
    hide Succs;
    assert NodeOk(c, s, step.v);
    if WakeStep(c, s, s', step) {
    } else if ProcessStep(c, s, s', step) {
    } else {
      assert PokeStep(c, s, s', step);
    }
  }

  lemma QuietStepLosesNone(c: Setting, s: State, s': State, step: Step, w: Vertex)
    requires Shape(c, s) && Shape(c, s') && NextBy(c, s, s', step) && NodesOk(c, s) && PastStamps(c, s) && !step.Complete?
    requires w in c.g && MayRun(c.g, s.stamps, w) && (Muted(s.nodes[w]) || LookedAfter(c, s, w))
    ensures Muted(s'.nodes[w]) || LookedAfter(c, s', w)
  {
    hide Preds, Succs, NextBy, NodeOk, MayRun, ToBeChecked, Muted, OnItsWay;
    StepFrame(c, s, s', step);
    if !Muted(s'.nodes[w]) {
      if w == step.v {
        OwnStepKeeps(c, s, s', step);
      }
      if ToBeChecked(c, s, w) {
        StillChecked(c, s, s', step, w);
      }
    }
  }

  lemma CompletedMayNotRun(c: Setting, s: State, v: Vertex, now: int)
    requires Shape(c, s) && v in c.g && PastStamps(c, s) && now >= s.clock && Preds(c.g, v) != {}
    ensures !MayRun(c.g, s.stamps[v := now], v)
  {
    var p :| p in Preds(c.g, v);
    assert p in Bad(c.g, s.stamps[v := now], v);
  }

  lemma OnlySuccessorsGain(c: Setting, stamps: Stamps, v: Vertex, now: int, w: Vertex)
    requires c.g.Keys == stamps.Keys && v in c.g && w in c.g && w != v && !HasEdge(c.g, v, w)
    ensures Bad(c.g, stamps[v := now], w) == Bad(c.g, stamps, w)
  {
  }

  /** A completion may make successors runnable, which are then to be looked at; it never leaves the vertex itself
      runnable. */
  lemma CompletionLosesNone(c: Setting, s: State, s': State, step: Step, w: Vertex)
    requires Shape(c, s) && Shape(c, s') && NextBy(c, s, s', step) && step.Complete? && PastStamps(c, s)
    requires w in c.g && Preds(c.g, w) != {} && MayRun(c.g, s'.stamps, w)
    requires MayRun(c.g, s.stamps, w) ==> Muted(s.nodes[w]) || LookedAfter(c, s, w)
    ensures Muted(s'.nodes[w]) || LookedAfter(c, s', w)
  {
    hide Muted, OnItsWay, WakeStep, ProcessStep;
    var v := step.v;
    StepFrame(c, s, s', step);
    if Preds(c.g, v) != {} {
      CompletedMayNotRun(c, s, v, step.now);
    }
    assert w != v;
    if HasEdge(c.g, v, w) {
      assert ChecksFor(s'.nodes[v].phase, w);
    } else {
      OnlySuccessorsGain(c, s.stamps, v, step.now, w);
      if ToBeChecked(c, s, w) {
        var u :| u in c.g && ChecksFor(s.nodes[u].phase, w);
        assert ChecksFor(s'.nodes[u].phase, w);
      }
    }
  }

  lemma StepLosesNone(c: Setting, s: State, s': State, step: Step)
    requires Shape(c, s) && Shape(c, s') && NextBy(c, s, s', step) && NodesOk(c, s) && PastStamps(c, s) && OnlyMutedLost(c, s)
    ensures OnlyMutedLost(c, s')
  {
    hide LookedAfter, Preds, Succs, NextBy, MayRun, Muted, NodesOk;
    StepFrame(c, s, s', step);
    forall w | Lost(c, s', w) ensures Muted(s'.nodes[w]) {
      assert MayRun(c.g, s.stamps, w) && !LookedAfter(c, s, w) ==> Lost(c, s, w);
      if step.Complete? {
        CompletionLosesNone(c, s, s', step, w);
      } else {
        QuietStepLosesNone(c, s, s', step, w);
      }
    }
  }

  lemma BeginsWell(c: Setting, s: State)
    requires Init(c, s)
    ensures NodesOk(c, s) && PastStamps(c, s) && OnlyMutedLost(c, s)
  {
    hide Preds, MayRun, PastStamps;
    forall v | v in c.g ensures NodeOk(c, s, v) && (OnItsWay(s.nodes[v]) || Muted(s.nodes[v])) {
      assert s.nodes[v] == NEW || Resumed(c, s, v);
    }
  }

  lemma {:induction false} RunsKeep(c: Setting, run: seq<State>, steps: seq<Step>, i: nat)
    requires IsRun(c, run, steps) && i < |run|
    ensures NodesOk(c, run[i]) && PastStamps(c, run[i]) && OnlyMutedLost(c, run[i])
  {
    hide NextBy, NodesOk, PastStamps, OnlyMutedLost, Init, Shape;
    if i == 0 {
      BeginsWell(c, run[0]);
    } else {
      RunsKeep(c, run, steps, i - 1);
      assert NextBy(c, run[i - 1], run[i - 1 + 1], steps[i - 1]);
      StepKeepsNodes(c, run[i - 1], run[i], steps[i - 1]);
      StepLosesNone(c, run[i - 1], run[i], steps[i - 1]);
    }
  }

  /** In every state of every run, a vertex that has prerequisites and may run by its timestamps is on its way to run, or
      poked, or about to be looked at, exactly unless it is muted; and only a Watch that restarts during a rate limit or a
      retry delay leaves its vertex muted. */
  lemma NoPokeIsLost(c: Setting, run: seq<State>, steps: seq<Step>, i: nat, w: Vertex)
    requires IsRun(c, run, steps) && i < |run| && w in c.g && Preds(c.g, w) != {} && MayRun(c.g, run[i].stamps, w)
    ensures LookedAfter(c, run[i], w) <==> !Muted(run[i].nodes[w])
    ensures Muted(run[i].nodes[w]) ==> MayMute(c, w)
  {
    hide NextBy, MayRun, Preds, Muted;
    RunsKeep(c, run, steps, i);
    assert NodeOk(c, run[i], w);
    assert !LookedAfter(c, run[i], w) ==> Lost(c, run[i], w);
  }

  /** A muted vertex drops every poke and never runs, until its Watch fails or sends an event that the main select
      receives. */
  lemma {:induction false} MutedDropsPokes(c: Setting, run: seq<State>, steps: seq<Step>, i: nat, j: nat, w: Vertex)
    requires IsRun(c, run, steps) && i <= j < |run| && w in c.g && Muted(run[i].nodes[w])
    requires forall k | i <= k < j && steps[k].v == w ::
      !steps[k].WatchFails? && !(steps[k].Event? && run[k].nodes[w].phase == Waiting) && !steps[k].Die?
    ensures Muted(run[j].nodes[w]) && Selecting(run[j].nodes[w].phase) && run[j].stamps[w] == run[i].stamps[w]
    decreases j
  {
    hide WakeStep, ProcessStep, PokeStep, NextBy, Init, Muted, Selecting, NodesOk, OnlyMutedLost, PastStamps;
    if i == j {
      RunsKeep(c, run, steps, j);
      MutedWaits(c, run[j], w);
    } else {
      RunIsShaped(c, run, steps, j - 1);
      MutedDropsPokes(c, run, steps, i, j - 1, w);
      MutedStep(c, run[j - 1], run[j], steps[j - 1], w);
    }
  }

  lemma RunIsShaped(c: Setting, run: seq<State>, steps: seq<Step>, i: nat)
    requires IsRun(c, run, steps) && i < |steps|
    ensures |run| == |steps| + 1 && Shape(c, run[i]) && Shape(c, run[i + 1]) && NextBy(c, run[i], run[i + 1], steps[i])
  {
    hide NextBy, Init, Shape;
  }

  lemma MutedWaits(c: Setting, s: State, w: Vertex)
    requires Shape(c, s) && NodesOk(c, s) && w in c.g && Muted(s.nodes[w])
    ensures Selecting(s.nodes[w].phase)
  {
    hide MayMute, Preds, Succs;
    assert NodeOk(c, s, w);
  }

  lemma MutedStep(c: Setting, s: State, s': State, step: Step, w: Vertex)
    requires Shape(c, s) && Shape(c, s') && NextBy(c, s, s', step) && w in c.g
    requires Muted(s.nodes[w]) && Selecting(s.nodes[w].phase)
    requires step.v == w ==>
      !step.WatchFails? && !(step.Event? && s.nodes[w].phase == Waiting) && !step.Die?
    ensures Muted(s'.nodes[w]) && Selecting(s'.nodes[w].phase) && s'.stamps[w] == s.stamps[w]
  {
    hide Preds, Succs, Compared;
  }

  /* ----- rest ----- */

  /** Nothing moves until a Watch sends an event or fails. */
  ghost predicate AtRest(c: Setting, s: State)
    requires Shape(c, s)
  {
    s.poked == {} && forall v | v in c.g :: s.nodes[v].phase == Waiting && !s.nodes[v].due && !s.nodes[v].failing
  }

  /** When everything rests, every vertex with prerequisites has one in the way, unless it is muted; and following them
      back ends at a vertex that has none, or at a muted one. */
  lemma RestMeansSettled(c: Setting, run: seq<State>, steps: seq<Step>, i: nat, v: Vertex) returns (chain: seq<Vertex>)
    requires IsRun(c, run, steps) && i < |run| && Acyclic(c.g) && AtRest(c, run[i]) && v in c.g
    ensures BackpokeChain(c.g, run[i].stamps, chain) && chain[|chain| - 1] == v
    ensures Preds(c.g, chain[0]) == {} || Muted(run[i].nodes[chain[0]])
    ensures Preds(c.g, v) != {} && !Muted(run[i].nodes[v]) ==> |chain| >= 2
  {
    hide NextBy, Acyclic, Init, MayRun;
    chain := BackpokesReachRunnable(c.g, run[i].stamps, v);
    if Preds(c.g, chain[0]) != {} {
      NoPokeIsLost(c, run, steps, i, chain[0]);
      RestersAreNotLookedAfter(c, run[i], chain[0]);
    }
  }

  lemma RestersAreNotLookedAfter(c: Setting, s: State, w: Vertex)
    requires Shape(c, s) && AtRest(c, s) && w in c.g
    ensures !LookedAfter(c, s, w)
  {
  }
}
