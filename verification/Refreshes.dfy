/** Refresh notifications between runs of Process that overlap: a run looks at the flags of its incoming edges before
    CheckApply, takes them down after it, and then raises those of its outgoing edges, one edge at a time, while other runs
    do the same.  Which runs are admitted is the subject of EngineRuns; here any Worker may begin at any time. */
module Refreshes {
  import opened Vertices
  import opened Digraphs
  import opened Timestamps
  import Process

  datatype Phase =
    | Idle
    | Looking(seen: bool, unread: set<Edge>)
    | Acting(found: bool)                        // CheckApply has been started, with or without a refresh
    | Withdrawing(left: set<Edge>, changed: bool)
    | Announcing(left: set<Edge>, noop: bool, changed: bool)

  datatype Setting = Setting(g: Adjacency, notify: set<Edge>)

  datatype State = State(refresh: set<Edge>, phase: map<Vertex, Phase>, stamps: Stamps, clock: int)

  datatype Step =
    | Begin(v: Vertex)
    | LookAt(v: Vertex, e: Edge)
    | Decide(v: Vertex)
    | Fail(v: Vertex)
    | Succeed(v: Vertex, noop: bool, changed: bool)
    | Withdraw(v: Vertex, e: Edge)
    | Withdrawn(v: Vertex)
    | Announce(v: Vertex, e: Edge)
    | Complete(v: Vertex, now: int)

  ghost function Incoming(c: Setting, v: Vertex): set<Edge> {
    EdgesInto(c.g, v) * c.notify
  }

  ghost function Outgoing(c: Setting, v: Vertex): set<Edge> {
    EdgesFrom(c.g, v) * c.notify
  }

  predicate Shape(c: Setting, s: State) {
    c.g.Keys == s.phase.Keys == s.stamps.Keys
  }

  function At(s: State, v: Vertex, ph: Phase): State {
    s.(phase := s.phase[v := ph])
  }

  ghost predicate NextBy(c: Setting, s: State, s': State, step: Step)
    requires Shape(c, s)
  {
    && step.v in c.g
    && var v := step.v; var ph := s.phase[v];
    match step
    case Begin(_) =>
      ph == Idle && s' == At(s, v, Looking(false, Incoming(c, v)))
    case LookAt(_, e) =>
      // the first flag that is up ends the search
      && ph.Looking? && e in ph.unread
      && s' == At(s, v, if e in s.refresh then Looking(true, {}) else Looking(ph.seen, ph.unread - {e}))
    case Decide(_) =>
      ph.Looking? && ph.unread == {} && s' == At(s, v, Acting(ph.seen))
    case Fail(_) =>
      ph.Acting? && s' == At(s, v, Idle)
    case Succeed(_, noop, changed) =>
      && ph.Acting?
      && s' == At(s, v, if noop then Announcing({}, true, changed)
                        else Withdrawing(if ph.found then Incoming(c, v) else {}, changed))
    case Withdraw(_, e) =>
      && ph.Withdrawing? && e in ph.left
      && s' == At(s, v, Withdrawing(ph.left - {e}, ph.changed)).(refresh := s.refresh - {e})
    case Withdrawn(_) =>
      && ph.Withdrawing? && ph.left == {}
      && s' == At(s, v, Announcing(if ph.changed then Outgoing(c, v) else {}, false, ph.changed))
    case Announce(_, e) =>
      && ph.Announcing? && e in ph.left
      && s' == At(s, v, Announcing(ph.left - {e}, ph.noop, ph.changed)).(refresh := s.refresh + {e})
    case Complete(_, now) =>
      && ph.Announcing? && ph.left == {} && now >= s.clock
      && s' == At(s, v, Idle).(stamps := s.stamps[v := now], clock := now)
  }

  ghost predicate Init(c: Setting, s: State) {
    Shape(c, s) && forall v | v in c.g :: s.phase[v] == Idle
  }

  ghost predicate IsRun(c: Setting, run: seq<State>, steps: seq<Step>) {
    && |run| == |steps| + 1 && Init(c, run[0])
    && (forall i | 0 <= i < |run| :: Shape(c, run[i]))
    && forall i | 0 <= i < |steps| :: NextBy(c, run[i], run[i + 1], steps[i])
  }

  /* ----- what is lost ----- */

  /** At step `d` the vertex starts CheckApply, having found a refresh pending. */
  ghost predicate Found(c: Setting, run: seq<State>, steps: seq<Step>, d: int, v: Vertex)
    requires IsRun(c, run, steps)
  {
    0 <= d < |steps| && steps[d] == Decide(v) && v in c.g && run[d].phase[v] == Looking(true, {})
  }

  predicate Down(run: seq<State>, k: nat, e: Edge) {
    k < |run| && e !in run[k].refresh
  }

  /** The flag raised at step `i` is down again, and nobody who found a refresh started CheckApply since. */
  ghost predicate Lost(c: Setting, run: seq<State>, steps: seq<Step>, i: nat, v: Vertex, e: Edge)
    requires IsRun(c, run, steps)
  {
    exists k :: i < k && Down(run, k, e) && forall d | i < d < k :: !Found(c, run, steps, d, v)
  }

  /** Step `i` falls between the start of CheckApply in a run of `v` and the withdrawal of `e` by that same run. */
  ghost predicate Straddled(c: Setting, run: seq<State>, steps: seq<Step>, i: nat, v: Vertex, e: Edge)
    requires IsRun(c, run, steps)
  {
    exists k :: i < k < |steps| && steps[k] == Withdraw(v, e) && forall d | i < d <= k :: steps[d] != Decide(v)
  }

  /** The edge object labels this pair and no other. */
  ghost predicate Own(c: Setting, u: Vertex, v: Vertex, e: Edge) {
    && HasEdge(c.g, u, v) && c.g[u][v] == e && e in c.notify
    && forall x, y | HasEdge(c.g, x, y) && c.g[x][y] == e :: x == u && y == v
  }

  /** A run that takes flags down had found one up. */
  lemma {:induction false} WithdrawingHasFound(c: Setting, run: seq<State>, steps: seq<Step>, m: nat, v: Vertex) returns (d: nat)
    requires IsRun(c, run, steps) && m < |run| && v in c.g
    requires match run[m].phase[v]
      case Acting(found) => found
      case Withdrawing(left, _) => left != {}
      case _ => false
    ensures d < m && Found(c, run, steps, d, v) && forall k | d < k < m :: steps[k] != Decide(v)
    decreases m
  {
    hide Shape, Incoming, Outgoing;
    assert NextBy(c, run[m - 1], run[m - 1 + 1], steps[m - 1]);
    if steps[m - 1] == Decide(v) {
      d := m - 1;
    } else {
      d := WithdrawingHasFound(c, run, steps, m - 1, v);
    }
  }

  lemma {:induction false} WithdrawsOwn(c: Setting, run: seq<State>, steps: seq<Step>, m: nat, x: Vertex)
    requires IsRun(c, run, steps) && m < |run| && x in c.g && run[m].phase[x].Withdrawing?
    ensures run[m].phase[x].left <= Incoming(c, x)
    decreases m
  {
    hide Incoming, Outgoing;
    assert NextBy(c, run[m - 1], run[m - 1 + 1], steps[m - 1]);
    if x in run[m - 1].phase && run[m - 1].phase[x].Withdrawing? {
      WithdrawsOwn(c, run, steps, m - 1, x);
    }
  }

  /** The first step after `i` that takes the flag down. */
  lemma {:induction false} FirstDown(c: Setting, run: seq<State>, steps: seq<Step>, i: nat, k: nat, e: Edge) returns (m: nat)
    requires IsRun(c, run, steps) && i < k < |run| && e in run[i].refresh && Down(run, k, e)
    ensures i <= m < k && steps[m].Withdraw? && steps[m].e == e
    decreases k - i
  {
    hide Shape, Incoming, Outgoing;
    assert NextBy(c, run[i], run[i + 1], steps[i]);
    if e !in run[i + 1].refresh {
      m := i;
    } else {
      m := FirstDown(c, run, steps, i + 1, k, e);
    }
  }

  lemma OnlyTargetWithdraws(c: Setting, run: seq<State>, steps: seq<Step>, m: nat, u: Vertex, v: Vertex, e: Edge)
    requires IsRun(c, run, steps) && m < |steps| && steps[m].Withdraw? && steps[m].e == e && Own(c, u, v, e)
    ensures steps[m].v == v && v in run[m].phase && run[m].phase[v].Withdrawing? && e in run[m].phase[v].left
  {
    assert NextBy(c, run[m], run[m + 1], steps[m]);
    WithdrawsOwn(c, run, steps, m, steps[m].v);
  }

  /** An announcement is lost exactly when it falls between the start of CheckApply and the withdrawal of one run of the
      subscriber; and that run had found a refresh pending, by this edge or another. */
  lemma LostIffStraddled(c: Setting, run: seq<State>, steps: seq<Step>, i: nat, u: Vertex, v: Vertex, e: Edge)
    requires IsRun(c, run, steps) && i < |steps| && steps[i] == Announce(u, e) && Own(c, u, v, e) && v in c.g
    ensures Lost(c, run, steps, i, v, e) <==> Straddled(c, run, steps, i, v, e)
    ensures Lost(c, run, steps, i, v, e) ==>
      exists d :: 0 <= d < i && Found(c, run, steps, d, v) && forall k | d < k < i :: steps[k] != Decide(v)
  {
    hide Shape, Incoming, Outgoing, Own;
    assert NextBy(c, run[i], run[i + 1], steps[i]);
    if Straddled(c, run, steps, i, v, e) {
      var k :| i < k < |steps| && steps[k] == Withdraw(v, e) && forall d | i < d <= k :: steps[d] != Decide(v);
      assert NextBy(c, run[k], run[k + 1], steps[k]);
      assert Down(run, k + 1, e);
    }
    if Lost(c, run, steps, i, v, e) {
      var k :| i < k && Down(run, k, e) && forall d | i < d < k :: !Found(c, run, steps, d, v);
      var m := FirstDown(c, run, steps, i + 1, k, e);
      OnlyTargetWithdraws(c, run, steps, m, u, v, e);
      var d := WithdrawingHasFound(c, run, steps, m, v);
      assert d < i;
    }
  }

  /** So an announcement stays up until the subscriber starts CheckApply with a refresh, unless it is straddled. */
  lemma AnnouncementIsHeard(c: Setting, run: seq<State>, steps: seq<Step>, i: nat, j: nat, u: Vertex, v: Vertex, e: Edge)
    requires IsRun(c, run, steps) && i < j < |run| && steps[i] == Announce(u, e) && Own(c, u, v, e) && v in c.g
    ensures e in run[j].refresh || Straddled(c, run, steps, i, v, e) || exists d :: i < d < j && Found(c, run, steps, d, v)
  {
    hide NextBy, Own, Straddled;
    LostIffStraddled(c, run, steps, i, u, v, e);
    if e !in run[j].refresh && !(exists d :: i < d < j && Found(c, run, steps, d, v)) {
      assert Down(run, j, e);
      assert Lost(c, run, steps, i, v, e);
    }
  }

  /* ----- a run that nobody disturbs ----- */

  /** What the run of `v` that began in `first` has done so far. */
  ghost predicate SoFar(c: Setting, first: State, s: State, v: Vertex)
    requires Shape(c, first) && Shape(c, s) && v in c.g
  {
    var pending := Incoming(c, v) * first.refresh != {};
    match s.phase[v]
    case Idle => s.refresh == first.refresh
    case Looking(seen, unread) =>
      && s.refresh == first.refresh && unread <= Incoming(c, v)
      && if seen then pending && unread == {} else (Incoming(c, v) - unread) * first.refresh == {}
    case Acting(found) => s.refresh == first.refresh && found == pending
    case Withdrawing(left, _) =>
      var all := if pending then Incoming(c, v) else {};
      left <= all && s.refresh == first.refresh - (all - left)
    case Announcing(left, noop, changed) =>
      if noop then left == {} && s.refresh == first.refresh
      else
        var told := if changed then Outgoing(c, v) else {};
        left <= told && s.refresh == first.refresh - (if pending then Incoming(c, v) else {}) + (told - left)
  }

  lemma StepOfOwn(c: Setting, first: State, s: State, s': State, step: Step)
    requires Shape(c, first) && Shape(c, s) && Shape(c, s') && step.v in c.g
    requires NextBy(c, s, s', step) && SoFar(c, first, s, step.v) && !step.Fail? && !step.Complete?
    requires step.Begin? ==> s.refresh == first.refresh
    ensures SoFar(c, first, s', step.v)
  {
    hide Incoming, Outgoing;
    var all := Incoming(c, step.v);
    match step
    case LookAt(v, e) =>
      if e in s.refresh {
        assert e in all * first.refresh;
      } else {
        assert all - (s.phase[v].unread - {e}) == (all - s.phase[v].unread) + {e};
      }
    case Decide(v) => assert all - {} == all;
    case Withdraw(v, e) => assert all - (s.phase[v].left - {e}) == (all - s.phase[v].left) + {e};
    case Announce(v, e) =>
      var told := if s.phase[v].changed then Outgoing(c, v) else {};
      assert !s.phase[v].noop ==> told - (s.phase[v].left - {e}) == (told - s.phase[v].left) + {e};
    case _ =>
  }

  lemma {:induction false} AloneSoFar(c: Setting, run: seq<State>, steps: seq<Step>, v: Vertex, n: nat)
    requires IsRun(c, run, steps) && v in c.g && n < |run|
    requires forall k | 0 <= k < |steps| :: steps[k].v == v && !steps[k].Fail? && (steps[k].Complete? ==> k == |steps| - 1)
    requires n == |steps| ==> n == 0 || !steps[n - 1].Complete?
    ensures SoFar(c, run[0], run[n], v)
    ensures run[n].phase[v] == Idle ==> run[n].refresh == run[0].refresh
  {
    hide NextBy, SoFar, Incoming, Outgoing;
    if n == 0 {
      BeginsSoFar(c, run[0], v);
    } else {
      AloneSoFar(c, run, steps, v, n - 1);
      assert NextBy(c, run[n - 1], run[n - 1 + 1], steps[n - 1]);
      if steps[n - 1].Begin? {
        BeginsIdle(c, run[n - 1], run[n], steps[n - 1]);
      }
      StepOfOwn(c, run[0], run[n - 1], run[n], steps[n - 1]);
      IdleSoFar(c, run[0], run[n], v);
    }
  }

  lemma BeginsSoFar(c: Setting, s: State, v: Vertex)
    requires Init(c, s) && v in c.g
    ensures SoFar(c, s, s, v)
  {
  }

  lemma IdleSoFar(c: Setting, first: State, s: State, v: Vertex)
    requires Shape(c, first) && Shape(c, s) && v in c.g && SoFar(c, first, s, v)
    ensures s.phase[v] == Idle ==> s.refresh == first.refresh
  {
  }

  lemma BeginsIdle(c: Setting, s: State, s': State, step: Step)
    requires Shape(c, s) && NextBy(c, s, s', step) && step.Begin?
    ensures s.phase[step.v] == Idle
  {
  }

  /** A run of Process that no other one overlaps does to the flags exactly what `Process.Engine.Process` does when it has
      the engine to itself. */
  lemma AloneIsProcess(c: Setting, run: seq<State>, steps: seq<Step>, v: Vertex, fastPause: bool, before: Process.View,
                       res: Process.Resource, a: Process.Answers)
    requires IsRun(c, run, steps) && v in c.g && steps != [] && steps[|steps| - 1].Complete?
    requires forall k | 0 <= k < |steps| :: steps[k].v == v && !steps[k].Fail? && (steps[k].Complete? ==> k == |steps| - 1)
    requires c.g.Keys <= before.stamps.Keys && before.refresh == run[0].refresh
    requires var ph := run[|steps| - 1].phase[v];
      ph.Announcing? ==> ph.noop == res.noop && ph.changed == Process.Changed(c.g, c.notify, before, v, res, a)
    ensures run[|steps|].refresh == Process.Succeeded(c.g, c.notify, fastPause, before, v, res, a).refresh
  {
    hide Process.Changed, Process.Ready, EdgesInto, EdgesFrom;
    var n := |steps| - 1;
    AloneSoFar(c, run, steps, v, n);
    assert NextBy(c, run[n], run[n + 1], steps[n]);
    assert (Incoming(c, v) * run[0].refresh != {}) == Process.Pending(c.g, c.notify, before, v);
  }

  /* ----- a run that loses one ----- */

  /** Every run of Process begins at a moment at which its timestamps let it. */
  ghost predicate Timely(c: Setting, run: seq<State>, steps: seq<Step>)
    requires IsRun(c, run, steps)
  {
    forall i | 0 <= i < |steps| && steps[i].Begin? :: Admits(c, run[i], steps[i].v)
  }

  ghost predicate Admits(c: Setting, s: State, v: Vertex) {
    Shape(c, s) && v in c.g && MayRun(c.g, s.stamps, v)
  }

  ghost predicate Reaches(c: Setting, run: seq<State>, steps: seq<Step>, s: State) {
    IsRun(c, run, steps) && Timely(c, run, steps) && run[|run| - 1] == s
  }

  lemma OneMore(c: Setting, run: seq<State>, steps: seq<Step>, s: State, s': State, step: Step)
    requires Reaches(c, run, steps, s) && Shape(c, s) && Shape(c, s') && NextBy(c, s, s', step)
    requires step.Begin? ==> Admits(c, s, step.v)
    ensures Reaches(c, run + [s'], steps + [step], s')
  {
    hide NextBy, Init, Admits, Shape;
    var r, l := run + [s'], steps + [step];
    forall i | 0 <= i < |l| ensures NextBy(c, r[i], r[i + 1], l[i]) && (l[i].Begin? ==> Admits(c, r[i], l[i].v)) {
      if i < |steps| {
        assert r[i] == run[i] && r[i + 1] == run[i + 1] && l[i] == steps[i];
      }
    }
  }

  /** Two vertices that notify a third. */
  function Fork(a: Vertex, b: Vertex, v: Vertex, e1: Edge, e2: Edge): Setting {
    Setting(map[a := map[v := e1], b := map[v := e2], v := map[]], {e1, e2})
  }

  predicate Apart(a: Vertex, b: Vertex, v: Vertex, e1: Edge, e2: Edge) {
    a != b && a != v && b != v && e1 != e2
  }

  lemma ForkNeighbours(a: Vertex, b: Vertex, v: Vertex, e1: Edge, e2: Edge)
    requires Apart(a, b, v, e1, e2)
    ensures var c := Fork(a, b, v, e1, e2);
      && Preds(c.g, a) == {} && Preds(c.g, b) == {} && Preds(c.g, v) == {a, b}
      && Incoming(c, a) == {} && Incoming(c, b) == {} && Incoming(c, v) == {e1, e2}
      && Outgoing(c, a) == {e1} && Outgoing(c, b) == {e2} && Outgoing(c, v) == {}
  {
    var c := Fork(a, b, v, e1, e2);
    assert HasEdge(c.g, a, v) && HasEdge(c.g, b, v);
    assert forall x, y :: HasEdge(c.g, x, y) <==> y == v && (x == a || x == b);
  }

  /** What a whole run of a vertex without prerequisites does. */
  function SourceRan(s: State, v: Vertex, now: int, told: set<Edge>): State {
    State(s.refresh + told, s.phase, s.stamps[v := now], now)
  }

  lemma SourceSteps(c: Setting, s: State, v: Vertex, changed: bool)
    requires Shape(c, s) && v in c.g && s.phase[v] == Idle && Incoming(c, v) == {}
    ensures NextBy(c, s, At(s, v, Looking(false, {})), Begin(v))
    ensures NextBy(c, At(s, v, Looking(false, {})), At(s, v, Acting(false)), Decide(v))
    ensures NextBy(c, At(s, v, Acting(false)), At(s, v, Withdrawing({}, changed)), Succeed(v, false, changed))
    ensures NextBy(c, At(s, v, Withdrawing({}, changed)),
                   At(s, v, Announcing(if changed then Outgoing(c, v) else {}, false, changed)), Withdrawn(v))
  {
    hide Incoming, Outgoing;
    assert s.phase[v := Looking(false, {})][v := Acting(false)] == s.phase[v := Acting(false)];
    assert s.phase[v := Acting(false)][v := Withdrawing({}, changed)] == s.phase[v := Withdrawing({}, changed)];
  }

  lemma SourceEnds(c: Setting, s: State, v: Vertex, now: int, e: Edge)
    requires Shape(c, s) && v in c.g && s.phase[v] == Idle && now >= s.clock
    ensures NextBy(c, At(s, v, Announcing({}, false, false)), SourceRan(s, v, now, {}), Complete(v, now))
    ensures var t := s.(refresh := s.refresh + {e});
      && NextBy(c, At(s, v, Announcing({e}, false, true)), At(t, v, Announcing({}, false, true)), Announce(v, e))
      && NextBy(c, At(t, v, Announcing({}, false, true)), SourceRan(s, v, now, {e}), Complete(v, now))
  {
    assert s.phase[v := Announcing({}, false, false)][v := Idle] == s.phase;
    assert s.phase[v := Announcing({}, false, true)][v := Idle] == s.phase;
    assert s.phase[v := Announcing({e}, false, true)][v := Announcing({}, false, true)] == s.phase[v := Announcing({}, false, true)];
    assert {e} - {e} == {} && s.refresh + {} == s.refresh;
  }

  lemma SourceRuns(c: Setting, run: seq<State>, steps: seq<Step>, s: State, v: Vertex, now: int, e: Edge, changed: bool)
    returns (run': seq<State>, steps': seq<Step>)
    requires Reaches(c, run, steps, s) && Shape(c, s) && v in c.g && s.phase[v] == Idle && now >= s.clock
    requires Incoming(c, v) == {} && Preds(c.g, v) == {} && Outgoing(c, v) == {e}
    ensures Reaches(c, run', steps', SourceRan(s, v, now, if changed then {e} else {}))
    ensures changed ==> |steps'| >= 2 && steps'[|steps'| - 2] == Announce(v, e) && steps'[|steps'| - 1] == Complete(v, now)
  {
    hide Reaches, NextBy, Incoming, Outgoing, Preds;
    SourceSteps(c, s, v, changed);
    SourceEnds(c, s, v, now, e);
    var s1, s2, s3 := At(s, v, Looking(false, {})), At(s, v, Acting(false)), At(s, v, Withdrawing({}, changed));
    var s4 := At(s, v, Announcing(if changed then {e} else {}, false, changed));
    OneMore(c, run, steps, s, s1, Begin(v));
    run', steps' := run + [s1], steps + [Begin(v)];
    OneMore(c, run', steps', s1, s2, Decide(v));
    run', steps' := run' + [s2], steps' + [Decide(v)];
    OneMore(c, run', steps', s2, s3, Succeed(v, false, changed));
    run', steps' := run' + [s3], steps' + [Succeed(v, false, changed)];
    OneMore(c, run', steps', s3, s4, Withdrawn(v));
    run', steps' := run' + [s4], steps' + [Withdrawn(v)];
    var last := s4;
    if changed {
      last := At(s.(refresh := s.refresh + {e}), v, Announcing({}, false, true));
      OneMore(c, run', steps', s4, last, Announce(v, e));
      run', steps' := run' + [last], steps' + [Announce(v, e)];
    }
    var end := SourceRan(s, v, now, if changed then {e} else {});
    OneMore(c, run', steps', last, end, Complete(v, now));
    run', steps' := run' + [end], steps' + [Complete(v, now)];
  }

  lemma FindsSteps(c: Setting, s: State, v: Vertex, e: Edge)
    requires Shape(c, s) && v in c.g && s.phase[v] == Idle && e in Incoming(c, v) && e in s.refresh
    ensures NextBy(c, s, At(s, v, Looking(false, Incoming(c, v))), Begin(v))
    ensures NextBy(c, At(s, v, Looking(false, Incoming(c, v))), At(s, v, Looking(true, {})), LookAt(v, e))
    ensures NextBy(c, At(s, v, Looking(true, {})), At(s, v, Acting(true)), Decide(v))
  {
    hide Incoming, Outgoing;
    assert s.phase[v := Looking(false, Incoming(c, v))][v := Looking(true, {})] == s.phase[v := Looking(true, {})];
    assert s.phase[v := Looking(true, {})][v := Acting(true)] == s.phase[v := Acting(true)];
  }

  /** The subscriber finds a refresh pending and starts CheckApply. */
  lemma Finds(c: Setting, run: seq<State>, steps: seq<Step>, s: State, v: Vertex, e: Edge) returns (run': seq<State>)
    requires Reaches(c, run, steps, s) && Admits(c, s, v) && s.phase[v] == Idle && e in Incoming(c, v) && e in s.refresh
    ensures Reaches(c, run', steps + [Begin(v), LookAt(v, e), Decide(v)], At(s, v, Acting(true)))
  {
    hide Reaches, NextBy, Incoming, Outgoing, MayRun;
    FindsSteps(c, s, v, e);
    var s1, s2, s3 := At(s, v, Looking(false, Incoming(c, v))), At(s, v, Looking(true, {})), At(s, v, Acting(true));
    OneMore(c, run, steps, s, s1, Begin(v));
    OneMore(c, run + [s1], steps + [Begin(v)], s1, s2, LookAt(v, e));
    OneMore(c, run + [s1] + [s2], steps + [Begin(v)] + [LookAt(v, e)], s2, s3, Decide(v));
    run' := run + [s1] + [s2] + [s3];
    assert steps + [Begin(v)] + [LookAt(v, e)] + [Decide(v)] == steps + [Begin(v), LookAt(v, e), Decide(v)];
  }

  /** A state in which `v` is at `ph` and the flags are `flags`. */
  function With(s: State, v: Vertex, ph: Phase, flags: set<Edge>): State {
    s.(phase := s.phase[v := ph], refresh := flags)
  }

  lemma CanSucceed(c: Setting, s: State, v: Vertex)
    requires Shape(c, s) && v in c.g && s.phase[v] == Acting(true)
    ensures NextBy(c, s, With(s, v, Withdrawing(Incoming(c, v), false), s.refresh), Succeed(v, false, false))
  {
    hide Incoming;
  }

  lemma CanWithdraw(c: Setting, s: State, v: Vertex, left: set<Edge>, flags: set<Edge>, e: Edge)
    requires Shape(c, s) && v in c.g && e in left
    ensures NextBy(c, With(s, v, Withdrawing(left, false), flags), With(s, v, Withdrawing(left - {e}, false), flags - {e}),
                   Withdraw(v, e))
  {
    hide Incoming, Outgoing;
    assert s.phase[v := Withdrawing(left, false)][v := Withdrawing(left - {e}, false)] == s.phase[v := Withdrawing(left - {e}, false)];
  }

  lemma CanComplete(c: Setting, s: State, v: Vertex, flags: set<Edge>, now: int)
    requires Shape(c, s) && v in c.g && now >= s.clock
    ensures NextBy(c, With(s, v, Withdrawing({}, false), flags), With(s, v, Announcing({}, false, false), flags), Withdrawn(v))
    ensures NextBy(c, With(s, v, Announcing({}, false, false), flags), State(flags, s.phase[v := Idle], s.stamps[v := now], now),
                   Complete(v, now))
  {
    hide Incoming, Outgoing;
    assert s.phase[v := Withdrawing({}, false)][v := Announcing({}, false, false)] == s.phase[v := Announcing({}, false, false)];
    assert s.phase[v := Announcing({}, false, false)][v := Idle] == s.phase[v := Idle];
  }

  /** Where the withdrawal leaves everything. */
  function Left(s: State, v: Vertex, now: int, e1: Edge, e2: Edge): State {
    State(s.refresh - {e1, e2}, s.phase[v := Idle], s.stamps[v := now], now)
  }

  function Withdrawal(v: Vertex, now: int, e1: Edge, e2: Edge): seq<Step> {
    [Succeed(v, false, false), Withdraw(v, e1), Withdraw(v, e2), Withdrawn(v), Complete(v, now)]
  }

  /** It ends well and takes down both flags. */
  lemma Withdraws(c: Setting, run: seq<State>, steps: seq<Step>, s: State, v: Vertex, now: int, e1: Edge, e2: Edge)
    returns (run': seq<State>)
    requires Reaches(c, run, steps, s) && Shape(c, s) && v in c.g && s.phase[v] == Acting(true) && now >= s.clock
    requires Incoming(c, v) == {e1, e2} && e1 != e2
    ensures Reaches(c, run', steps + Withdrawal(v, now, e1, e2), Left(s, v, now, e1, e2))
    ensures run <= run'
  {
    hide Reaches, NextBy, Incoming, Outgoing;
    var all := {e1, e2};
    assert all - {e1} == {e2} && {e2} - {e2} == {} && s.refresh - {e1} - {e2} == s.refresh - {e1, e2};
    var s1 := With(s, v, Withdrawing(all, false), s.refresh);
    var s2 := With(s, v, Withdrawing({e2}, false), s.refresh - {e1});
    var s3 := With(s, v, Withdrawing({}, false), s.refresh - {e1, e2});
    var s4 := With(s, v, Announcing({}, false, false), s.refresh - {e1, e2});
    var s5 := Left(s, v, now, e1, e2);
    CanSucceed(c, s, v);
    CanWithdraw(c, s, v, all, s.refresh, e1);
    CanWithdraw(c, s, v, {e2}, s.refresh - {e1}, e2);
    CanComplete(c, s, v, s.refresh - {e1, e2}, now);
    var l := Withdrawal(v, now, e1, e2);
    OneMore(c, run, steps, s, s1, l[0]);
    OneMore(c, run + [s1], steps + [l[0]], s1, s2, l[1]);
    OneMore(c, run + [s1] + [s2], steps + [l[0]] + [l[1]], s2, s3, l[2]);
    OneMore(c, run + [s1] + [s2] + [s3], steps + [l[0]] + [l[1]] + [l[2]], s3, s4, l[3]);
    OneMore(c, run + [s1] + [s2] + [s3] + [s4], steps + [l[0]] + [l[1]] + [l[2]] + [l[3]], s4, s5, l[4]);
    run' := run + [s1] + [s2] + [s3] + [s4] + [s5];
    assert steps + [l[0]] + [l[1]] + [l[2]] + [l[3]] + [l[4]] == steps + l;
  }

  function Before(a: Vertex, b: Vertex, v: Vertex): State {
    State({}, map[a := Idle, b := Idle, v := Idle], map[a := 0, b := 0, v := 0], 0)
  }

  /** The second notifier announces while the subscriber is in CheckApply. */
  lemma AnnouncedMeanwhile(a: Vertex, b: Vertex, v: Vertex, e1: Edge, e2: Edge)
    returns (run: seq<State>, steps: seq<Step>, s: State)
    requires Apart(a, b, v, e1, e2)
    ensures Reaches(Fork(a, b, v, e1, e2), run, steps, s)
    ensures |steps| >= 2 && steps[|steps| - 2] == Announce(b, e2) && steps[|steps| - 1] == Complete(b, 3)
    ensures s == State({e1, e2}, map[a := Idle, b := Idle, v := Acting(true)], map[a := 1, b := 3, v := 0], 3)
  {
    hide Reaches, NextBy, Incoming, Outgoing, Preds;
    var c := Fork(a, b, v, e1, e2);
    ForkNeighbours(a, b, v, e1, e2);
    var s0 := Before(a, b, v);
    Starts(c, s0);
    run, steps := SourceRuns(c, [s0], [], s0, a, 1, e1, true);
    var s1 := SourceRan(s0, a, 1, {e1});
    run, steps := SourceRuns(c, run, steps, s1, b, 2, e2, false);
    var s2 := SourceRan(s1, b, 2, {});
    assert e1 in s2.refresh && s2.phase[v] == Idle;
    run := Finds(c, run, steps, s2, v, e1);
    steps := steps + [Begin(v), LookAt(v, e1), Decide(v)];
    var s3 := At(s2, v, Acting(true));
    run, steps := SourceRuns(c, run, steps, s3, b, 3, e2, true);
    s := SourceRan(s3, b, 3, {e2});
    assert s.refresh == {e1, e2};
    assert s.phase == map[a := Idle, b := Idle, v := Acting(true)];
    assert s.stamps == map[a := 1, b := 3, v := 0];
  }

  /** Two notifiers, and a subscriber that is in CheckApply on behalf of the first when the second one announces: it takes
      that announcement down unheard, and then everything is idle, no flag is up, and its timestamp is the newest. */
  lemma RefreshIsLost(a: Vertex, b: Vertex, v: Vertex, e1: Edge, e2: Edge)
    returns (run: seq<State>, steps: seq<Step>, i: nat)
    requires Apart(a, b, v, e1, e2)
    ensures var c := Fork(a, b, v, e1, e2);
      && IsRun(c, run, steps) && Timely(c, run, steps) && i < |steps| && steps[i] == Announce(b, e2)
      && Lost(c, run, steps, i, v, e2)
      && var last := run[|run| - 1]; Init(c, last) && last.refresh == {} && last.stamps[v] > last.stamps[b]
  {
    hide Reaches, NextBy, Incoming, Outgoing, Preds, IsRun, Lost;
    var c := Fork(a, b, v, e1, e2);
    ForkNeighbours(a, b, v, e1, e2);
    var s;
    run, steps, s := AnnouncedMeanwhile(a, b, v, e1, e2);
    i := |steps| - 2;
    run := Withdraws(c, run, steps, s, v, 4, e1, e2);
    steps := steps + Withdrawal(v, 4, e1, e2);
    Arrived(c, run, steps, Left(s, v, 4, e1, e2));
    assert steps[i + 4] == Withdraw(v, e2);
    assert forall d | i < d <= i + 4 :: steps[d] != Decide(v);
    assert Straddled(c, run, steps, i, v, e2);
    assert Own(c, b, v, e2);
    LostIffStraddled(c, run, steps, i, b, v, e2);
  }

  lemma Starts(c: Setting, s: State)
    requires Init(c, s)
    ensures Reaches(c, [s], [], s)
  {
  }

  lemma Arrived(c: Setting, run: seq<State>, steps: seq<Step>, s: State)
    requires Reaches(c, run, steps, s)
    ensures IsRun(c, run, steps) && Timely(c, run, steps) && |run| == |steps| + 1 && run[|run| - 1] == s
  {
  }
}
