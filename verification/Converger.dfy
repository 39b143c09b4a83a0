/** The converger's coordinator: what its loop owns, as a class, and the protocol between the loop, the probes that
    write their flags and poke, the clock and whoever pauses, as a step relation over the same values. */
module Converger {
  import opened Vertices

  /** One call of the state functions, with what was known when it was made: the loop's reading of the clock, whether
      the coordinator was paused, since when it was running, and whether it was converged already by then. */
  datatype Notice = Notice(value: bool, at: int, paused: bool, since: int, headStart: bool)

  /** The fields that only the loop writes.  `since` and `headStart` record history. */
  datatype Core = Core(duration: int, paused: bool, converged: bool, hold: Option<int>, lastCount: nat,
                       notices: seq<Notice>, since: int, headStart: bool)

  predicate Holding(hold: Option<int>, now: int) {
    hold.Some? && now < hold.value
  }

  function Started(duration: int, startPaused: bool, count: nat, now: int): Core {
    Core(duration, startPaused, false, if !startPaused && duration >= 0 then Some(now + duration) else None, count, [], now,
         false)
  }

  predicate Watching(c: Core) {
    c.duration >= 0 && !c.paused
  }

  function HoldAfterCount(c: Core, now: int, count: nat): Option<int> {
    if count == 0 && c.lastCount != 0 then Some(now + c.duration) else c.hold
  }

  /** What one look at the probes changes: the state, and a notice if the state is new. */
  function Recalculated(c: Core, now: int, count: nat, all: bool): Core {
    if !Watching(c) then c
    else
      var hold := HoldAfterCount(c, now, count);
      var state := all && !Holding(hold, now);
      var counted := c.(hold := hold, lastCount := count);
      if state == c.converged then counted
      else counted.(converged := state, notices := c.notices + [Notice(state, now, c.paused, c.since, c.headStart)])
  }

  /** The effect of a pause or resume request. */
  function Controlled(c: Core, pause: bool, now: int): Core {
    c.(paused := pause,
       hold := if pause || c.converged || c.duration < 0 then None else Some(now + c.duration),
       since := now, headStart := c.converged)
  }

  class Coordinator {
    const duration: int
    var paused: bool
    var converged: bool
    var holdUntil: Option<int>
    var lastStatusCount: nat
    ghost var notices: seq<Notice>
    ghost var since: int
    ghost var headStart: bool

    ghost function Contents(): Core
      reads this
    {
      Core(duration, paused, converged, holdUntil, lastStatusCount, notices, since, headStart)
    }

    /** The start of Run. */
    constructor (duration: int, startPaused: bool, count: nat, now: int)
      ensures Contents() == Started(duration, startPaused, count, now)
      ensures !converged && notices == [] && holdUntil == if startPaused || duration < 0 then None else Some(now + duration)
    {
      this.duration := duration;
      paused, converged, lastStatusCount, notices := startPaused, false, count, [];
      since, headStart := now, false;
      holdUntil := None;
      if !startPaused && duration >= 0 {
        holdUntil := Some(now + duration);
      }
    }

    /** `notify` is the state to run the state functions with, if it changed. */
    method Recalculate(now: int, count: nat, all: bool) returns (notify: Option<bool>)
      modifies this
      ensures Contents() == Recalculated(old(Contents()), now, count, all)
      ensures Watching(Contents()) ==> converged == (all && !Holding(holdUntil, now))
      // the last probe has left since the previous look: everything waits for one more duration
      ensures duration >= 0 && !paused && count == 0 && old(lastStatusCount) != 0 ==>
        holdUntil == Some(now + duration) && (duration > 0 ==> !converged)
      ensures duration < 0 || paused || count != 0 || old(lastStatusCount) == 0 ==> holdUntil == old(holdUntil)
      ensures duration >= 0 && !paused ==> lastStatusCount == count
      ensures notify == if notices == old(notices) then None else Some(converged)
    {
      if duration < 0 || paused { return None; }
      if count == 0 && lastStatusCount != 0 {
        holdUntil := Some(now + duration);
      }
      lastStatusCount := count;
      var nextState := all;
      if holdUntil.Some? && now < holdUntil.value {
        nextState := false;
      }
      if nextState == converged { return None; }
      converged := nextState;
      notices := notices + [Notice(nextState, now, paused, since, headStart)];
      notify := Some(nextState);
    }

    /** Whether to arm the hold timer. */
    method ArmsTimer(now: int) returns (arms: bool)
      ensures arms == (Watching(Contents()) && Holding(Contents().hold, now))
      ensures arms <==> duration >= 0 && !paused && holdUntil.Some? && now < holdUntil.value
    {
      arms := false;
      if !paused && duration >= 0 && holdUntil.Some? {
        var remaining := holdUntil.value - now;
        if remaining > 0 {
          arms := true;
        }
      }
    }

    /** A request to pause a paused coordinator, or to resume one that runs, panics. */
    method Control(pause: bool, now: int)
      requires pause != paused
      modifies this
      ensures Contents() == Controlled(old(Contents()), pause, now)
      ensures paused == pause && (pause ==> holdUntil == None)
      ensures !pause ==> holdUntil == if duration >= 0 && !converged then Some(now + duration) else None
    {
      since, headStart := now, converged;
      paused := pause;
      if pause || converged || duration < 0 {
        holdUntil := None;
      } else {
        holdUntil := Some(now + duration);
      }
    }
  }

  /* ----- the protocol ----- */

  /** Where the loop is. */
  datatype Pc =
    | Top
    | Scanning(unread: set<int>, count: nat, good: bool)  // reading the flags of the probes, one at a time
    | Arming
    | Selecting
    | Stopped

  /** `flags` are those of the registered probes; `slot` is the one-place poke channel; `owing` counts the actors that
      changed something and have not poked yet.  `now1` and `now2` are the two readings of the clock in one pass. */
  datatype State = State(pc: Pc, core: Core, flags: map<int, bool>, slot: bool, owing: nat, armed: bool, now: int,
                         now1: int, now2: int)

  datatype Step =
    | Tick(to: int)
    | Register(u: int)
    | Unregister(u: int)
    | WriteFlag(u: int, value: bool)
    | Poke
    | Begin
    | ReadFlag(u: int)
    | Decide(fails: bool)
    | Arm
    | WakeByPoke
    | WakeByTimer
    | Request(pause: bool)
    | Shutdown

  predicate AllConverged(flags: map<int, bool>) {
    forall u | u in flags :: flags[u]
  }

  /** The registry is locked while the loop reads the flags; the flags themselves are not. */
  predicate RegistryFree(s: State) {
    !s.pc.Scanning?
  }

  ghost predicate NextBy(s: State, s': State, step: Step) {
    match step
    case Tick(to) => to >= s.now && s' == s.(now := to)
    case Register(u) =>
      RegistryFree(s) && u !in s.flags && s' == s.(flags := s.flags[u := false], owing := s.owing + 1)
    case Unregister(u) =>
      RegistryFree(s) && u in s.flags && s' == s.(flags := s.flags - {u}, owing := s.owing + 1)
    case WriteFlag(u, value) =>
      u in s.flags && s.flags[u] != value && s' == s.(flags := s.flags[u := value], owing := s.owing + 1)
    case Poke =>
      s.owing > 0 && s' == s.(owing := s.owing - 1, slot := true)
    case Begin =>
      s.pc == Top && s' == s.(now1 := s.now, pc := if Watching(s.core) then Scanning(s.flags.Keys, |s.flags|, true) else Arming)
    case ReadFlag(u) =>
      // the first flag that is down ends the scan
      && s.pc.Scanning? && u in s.pc.unread && u in s.flags
      && s' == s.(pc := if s.flags[u] then Scanning(s.pc.unread - {u}, s.pc.count, s.pc.good)
                        else Scanning({}, s.pc.count, false))
    case Decide(fails) =>
      && s.pc.Scanning? && s.pc.unread == {}
      && s' == s.(core := Recalculated(s.core, s.now1, s.pc.count, s.pc.good), pc := if fails then Stopped else Arming)
      && (fails ==> s'.core.notices != s.core.notices)
    case Arm =>
      s.pc == Arming && s' == s.(now2 := s.now, armed := Watching(s.core) && Holding(s.core.hold, s.now), pc := Selecting)
    case WakeByPoke =>
      s.pc == Selecting && s.slot && s' == s.(slot := false, pc := Top)
    case WakeByTimer =>
      s.pc == Selecting && s.armed && !Holding(s.core.hold, s.now) && s' == s.(pc := Top)
    case Request(pause) =>
      s.pc == Selecting && pause != s.core.paused && s' == s.(core := Controlled(s.core, pause, s.now), pc := Top)
    case Shutdown =>
      s.pc == Selecting && s' == s.(pc := Stopped)
  }

  ghost predicate Next(s: State, s': State) {
    exists step :: NextBy(s, s', step)
  }

  ghost predicate Init(s: State) {
    && s.pc == Top && !s.armed && s.now1 == s.now2 == s.now
    && exists startPaused :: s.core == Started(s.core.duration, startPaused, |s.flags|, s.now)
  }

  ghost predicate IsRun(run: seq<State>) {
    && run != [] && Init(run[0])
    && forall i | 0 <= i < |run| - 1 :: Next(run[i], run[i + 1])
  }

  /* ----- what every run keeps ----- */

  /** Something will make the loop look again. */
  predicate PokeComing(s: State) {
    s.slot || s.owing > 0
  }

  predicate ClocksOk(s: State) {
    && s.now1 <= s.now && s.now2 <= s.now && (s.pc == Selecting ==> s.now1 <= s.now2) && s.core.since <= s.now
    && (s.pc.Scanning? ==> s.core.since <= s.now1)
  }

  /** Unless a poke is coming, what the loop has read is still true. */
  predicate ScanOk(s: State) {
    s.pc.Scanning? ==>
      && Watching(s.core) && s.pc.unread <= s.flags.Keys && s.pc.count == |s.flags|
      && (!PokeComing(s) ==>
            if s.pc.good then forall u | u in s.flags && u !in s.pc.unread :: s.flags[u]
            else s.pc.unread == {} && !AllConverged(s.flags))
  }

  /** After the decision the state is what the flags and the first reading of the clock say. */
  predicate DecisionOk(s: State) {
    && ((s.pc == Arming || s.pc == Selecting) && Watching(s.core) && !PokeComing(s) ==>
          s.core.converged == (AllConverged(s.flags) && !Holding(s.core.hold, s.now1)))
    && (s.pc == Selecting ==> s.armed == (Watching(s.core) && Holding(s.core.hold, s.now2)))
  }

  /** Notices alternate, the first is a convergence, and none was given while paused. */
  predicate NoticesOk(c: Core) {
    && (forall i | 0 <= i < |c.notices| :: c.notices[i].value == (i % 2 == 0) && !c.notices[i].paused)
    && c.converged == (|c.notices| % 2 == 1)
  }

  /** Unless the coordinator was converged when it began to run, it announces convergence no earlier than one full
      duration later. */
  predicate HoldOk(c: Core) {
    && (Watching(c) && !c.headStart ==> c.hold.Some? && c.hold.value >= c.since + c.duration)
    && (forall n | n in c.notices && n.value && !n.headStart :: n.at >= n.since + c.duration)
  }

  predicate Inv(s: State) {
    ClocksOk(s) && ScanOk(s) && DecisionOk(s) && NoticesOk(s.core) && HoldOk(s.core)
  }

  lemma InitOk(s: State)
    requires Init(s)
    ensures Inv(s)
  {
  }

  lemma DecideKeepsNotices(c: Core, now: int, count: nat, all: bool)
    requires NoticesOk(c) && HoldOk(c) && c.since <= now
    ensures NoticesOk(Recalculated(c, now, count, all)) && HoldOk(Recalculated(c, now, count, all))
  {
    var d := Recalculated(c, now, count, all);
    if Watching(c) {
      assert !c.headStart ==> HoldAfterCount(c, now, count).Some?;
    }
  }

  lemma ScanKeeps(s: State, s': State, step: Step)
    requires Inv(s) && NextBy(s, s', step) && (step.Begin? || step.ReadFlag?)
    ensures Inv(s')
  {
    hide NoticesOk, HoldOk;
  }

  lemma DecideMeans(c: Core, now: int, count: nat, all: bool)
    requires Watching(c)
    ensures var d := Recalculated(c, now, count, all);
      Watching(d) && d.since == c.since && d.converged == (all && !Holding(d.hold, now))
  {
  }

  lemma DecideKeeps(s: State, s': State, fails: bool)
    requires Inv(s) && NextBy(s, s', Decide(fails))
    ensures Inv(s')
  {
    hide NoticesOk, HoldOk, Recalculated, Watching;
    DecideKeepsNotices(s.core, s.now1, s.pc.count, s.pc.good);
    DecideMeans(s.core, s.now1, s.pc.count, s.pc.good);
  }

  lemma RequestKeeps(s: State, s': State, pause: bool)
    requires Inv(s) && NextBy(s, s', Request(pause))
    ensures Inv(s')
  {
  }

  lemma StepKeeps(s: State, s': State, step: Step)
    requires Inv(s) && NextBy(s, s', step)
    ensures Inv(s')
  {
    hide NoticesOk, HoldOk, Recalculated;
    match step
    case Begin => ScanKeeps(s, s', step);
    case ReadFlag(_) => ScanKeeps(s, s', step);
    case Decide(fails) => DecideKeeps(s, s', fails);
    case Request(pause) => RequestKeeps(s, s', pause);
    case _ =>
  }

  lemma {:induction false} RunsKeepInv(run: seq<State>, i: nat)
    requires IsRun(run) && i < |run|
    ensures Inv(run[i])
  {
    hide Inv, NextBy;
    if i == 0 {
      InitOk(run[0]);
    } else {
      RunsKeepInv(run, i - 1);
      assert Next(run[i - 1], run[i - 1 + 1]);
      var step :| NextBy(run[i - 1], run[i], step);
      StepKeeps(run[i - 1], run[i], step);
    }
  }

  /* ----- no lost wakeup ----- */

  /** The loop sits in its select and nobody is about to poke it. */
  predicate Blocked(s: State) {
    s.pc == Selecting && Watching(s.core) && !PokeComing(s)
  }

  /** What the announced state ought to be by now. */
  predicate Due(s: State) {
    AllConverged(s.flags) && !Holding(s.core.hold, s.now)
  }

  /** The deadline passed between the two readings of the clock, so no timer was armed for it. */
  predicate Straddled(s: State) {
    Holding(s.core.hold, s.now1) && !Holding(s.core.hold, s.now2)
  }

  /** A blocked loop is either waiting for its hold timer or has announced the right state; that fails exactly when all
      probes are converged and the deadline fell between the two readings of the clock. */
  lemma NoLostWakeupIff(run: seq<State>, i: nat)
    requires IsRun(run) && i < |run| && Blocked(run[i])
    ensures run[i].armed || run[i].core.converged == Due(run[i]) <==> !(Straddled(run[i]) && AllConverged(run[i].flags))
  {
    hide IsRun, AllConverged;
    RunsKeepInv(run, i);
  }

  /** The state functions are called with true, false, true and so on, and never while paused; without a head start,
      convergence is announced only after a full duration of running. */
  lemma NoticesAlternate(run: seq<State>, i: nat, n: nat)
    requires IsRun(run) && i < |run| && n < |run[i].core.notices|
    ensures var notice := run[i].core.notices[n];
      && notice.value == (n % 2 == 0) && !notice.paused
      && (notice.value && !notice.headStart ==> notice.at >= notice.since + run[i].core.duration)
  {
    hide IsRun;
    RunsKeepInv(run, i);
    assert run[i].core.notices[n] in run[i].core.notices;
  }

  /** A look that finds no probe where the one before it found some begins a new hold of one duration; any other leaves the
      hold as it was.  What is announced is whether all flags were up and no hold is on. */
  lemma LookMeans(s: State, s': State, fails: bool)
    requires NextBy(s, s', Decide(fails)) && s.core.duration >= 0 && !s.core.paused
    ensures s.pc.count == 0 && s.core.lastCount != 0 ==> s'.core.hold == Some(s.now1 + s.core.duration)
    ensures s.pc.count != 0 || s.core.lastCount == 0 ==> s'.core.hold == s.core.hold
    ensures s'.core.lastCount == s.pc.count
    ensures s'.core.converged <==> s.pc.good && (s'.core.hold.Some? ==> s.now1 >= s'.core.hold.value)
    ensures s'.core.converged == s.core.converged ==> s'.core.notices == s.core.notices
    ensures s'.core.converged != s.core.converged ==>
      |s'.core.notices| == |s.core.notices| + 1 && s'.core.notices[..|s.core.notices|] == s.core.notices
      && s'.core.notices[|s.core.notices|].value == s'.core.converged && s'.core.notices[|s.core.notices|].at == s.now1
  {
  }

  /** No convergence is announced before `t`: none was since the first `n` notices, and if nothing is announced now, the hold
      lasts that long or the coordinator is paused; `t` is one duration after some time that has come. */
  predicate NoneBefore(s: State, n: nat, t: int) {
    && n <= |s.core.notices| && s.now >= t - s.core.duration
    && (forall m | n <= m < |s.core.notices| && s.core.notices[m].value :: s.core.notices[m].at >= t)
    && ((s.now1 >= t && s.now >= t)
        || (!s.core.converged && (Watching(s.core) ==> s.core.hold.Some? && s.core.hold.value >= t)))
  }

  lemma LookKeepsNoneBefore(s: State, s': State, fails: bool, n: nat, t: int)
    requires ClocksOk(s) && ScanOk(s) && NextBy(s, s', Decide(fails)) && NoneBefore(s, n, t)
    requires s.now1 >= t - s.core.duration
    ensures NoneBefore(s', n, t)
  {
    LookMeans(s, s', fails);
  }

  lemma StepKeepsNoneBefore(s: State, s': State, step: Step, n: nat, t: int)
    requires ClocksOk(s) && ScanOk(s) && NextBy(s, s', step) && NoneBefore(s, n, t) && s.now1 >= t - s.core.duration
    ensures NoneBefore(s', n, t) && s'.now1 >= t - s'.core.duration
  {
    if step.Decide? {
      LookKeepsNoneBefore(s, s', step.fails, n, t);
      DecideKeepsDuration(s, s', step.fails);
    }
  }

  lemma DecideKeepsDuration(s: State, s': State, fails: bool)
    requires NextBy(s, s', Decide(fails))
    ensures s'.core.duration == s.core.duration && s'.now1 == s.now1
  {
  }

  /** When the last probe has left, convergence is not announced again until one full duration after the look that found
      none, whatever is registered, poked, paused and resumed in between. */
  lemma {:induction false} LastProbeHolds(run: seq<State>, i: nat, j: nat, fails: bool)
    requires IsRun(run) && i < j < |run| && NextBy(run[i], run[i + 1], Decide(fails))
    requires run[i].core.duration >= 0 && !run[i].core.paused && run[i].pc.count == 0 && run[i].core.lastCount != 0
    ensures NoneBefore(run[j], |run[i].core.notices|, run[i].now1 + run[i].core.duration)
    ensures run[j].now1 >= run[i].now1 && run[j].core.duration == run[i].core.duration
    ensures forall m | |run[i].core.notices| <= m < |run[j].core.notices| && run[j].core.notices[m].value ::
      run[j].core.notices[m].at >= run[i].now1 + run[i].core.duration
    decreases j
  {
    hide NextBy, Init, Watching;
    RunsKeepInv(run, j - 1);
    if j == i + 1 {
      HoldBegins(run[i], run[i + 1], fails);
    } else {
      LastProbeHolds(run, i, j - 1, fails);
      assert Next(run[j - 1], run[j - 1 + 1]);
      var step :| NextBy(run[j - 1], run[j], step);
      StepKeepsNoneBefore(run[j - 1], run[j], step, |run[i].core.notices|, run[i].now1 + run[i].core.duration);
      DurationStays(run[j - 1], run[j], step);
    }
  }

  lemma DurationStays(s: State, s': State, step: Step)
    requires NextBy(s, s', step)
    ensures s'.core.duration == s.core.duration
  {
  }

  lemma HoldBegins(s: State, s': State, fails: bool)
    requires ClocksOk(s) && NextBy(s, s', Decide(fails)) && s.core.duration >= 0 && !s.core.paused
    requires s.pc.count == 0 && s.core.lastCount != 0
    ensures NoneBefore(s', |s.core.notices|, s.now1 + s.core.duration) && s'.now1 == s.now1
    ensures s'.core.duration == s.core.duration
  {
    LookMeans(s, s', fails);
  }

  /** The states of that run: no probe is registered, the duration is five, a poke arrives at four, and the second
      reading of the clock is five. */
  function Straddling(n: nat): State {
    var s := State(Top, Started(5, false, 0, 0), map[], true, 0, false, 0, 0, 0);
    var late := s.(slot := false, armed := true, now := 4, now1 := 4);
    match n
    case 0 => s
    case 1 => s.(pc := Scanning({}, 0, true))
    case 2 => s.(pc := Arming)
    case 3 => s.(pc := Selecting, armed := true)
    case 4 => s.(pc := Selecting, armed := true, now := 4)
    case 5 => late.(now1 := 0)
    case 6 => late.(pc := Scanning({}, 0, true))
    case 7 => late.(pc := Arming)
    case 8 => late.(pc := Arming, now := 5)
    case _ => late.(pc := Selecting, armed := false, now := 5, now2 := 5)
  }

  lemma StraddlingSteps(n: nat)
    requires n < 9
    ensures Next(Straddling(n), Straddling(n + 1))
  {
    var s, s' := Straddling(n), Straddling(n + 1);
    match n
    case 0 => assert NextBy(s, s', Begin);
    case 1 => assert NextBy(s, s', Decide(false));
    case 2 => assert NextBy(s, s', Arm);
    case 3 => assert NextBy(s, s', Tick(4));
    case 4 => assert NextBy(s, s', WakeByPoke);
    case 5 => assert NextBy(s, s', Begin);
    case 6 => assert NextBy(s, s', Decide(false));
    case 7 => assert NextBy(s, s', Tick(5));
    case 8 => assert NextBy(s, s', Arm);
  }

  /** A run that ends with the deadline straddled: convergence is due, but only a poke or a request will wake the loop. */
  lemma DeadlineIsStraddled() returns (run: seq<State>)
    ensures IsRun(run)
    ensures var last := run[|run| - 1]; Blocked(last) && !last.armed && !last.core.converged && Due(last)
  {
    hide Next;
    run := seq(10, n requires 0 <= n < 10 => Straddling(n));
    forall i | 0 <= i < |run| - 1 ensures Next(run[i], run[i + 1]) {
      StraddlingSteps(i);
    }
    assert Straddling(0).core == Started(5, false, |Straddling(0).flags|, 0);
  }
}
