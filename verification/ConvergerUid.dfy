/** One probe of the converger: a flag that goes up when its timer has run undisturbed for the whole duration.

    A timer that fired may run its callback late, after the probe was stopped or restarted.  Timers are told apart by
    identity; `issued` counts those created so far, so an identity is never used twice. */
module ConvergerUid {
  import opened Vertices

  /** `since` records when the timer was last started or reset. */
  datatype Probe = Probe(duration: int, converged: bool, running: bool, timer: Option<nat>, issued: nat, since: int)

  function NewProbe(duration: int): Probe {
    Probe(duration, false, false, None, 0, 0)
  }

  /** A new timer in place of any old one; a disabled converger has none. */
  function Rearmed(p: Probe, now: int): Probe {
    var q := p.(converged := false, since := now);
    if p.duration < 0 then q.(timer := None) else q.(timer := Some(p.issued), issued := p.issued + 1)
  }

  function Restarted(p: Probe, now: int): Probe {
    Rearmed(p.(running := true), now)
  }

  function Reset(p: Probe, now: int): Probe {
    if p.running then Rearmed(p, now) else p
  }

  function Halted(p: Probe): Probe {
    if p.running then p.(running := false, converged := false, timer := None) else p
  }

  function CalledBack(p: Probe, id: nat): Probe {
    if p.timer == Some(id) then p.(timer := None, converged := true) else p
  }

  /** The methods, each of which holds the probe's mutex.  `poked` tells whether the coordinator was poked. */
  class Uid {
    const duration: int
    var converged: bool
    var running: bool
    var timer: Option<nat>
    var issued: nat
    ghost var since: int

    ghost function Contents(): Probe
      reads this
    {
      Probe(duration, converged, running, timer, issued, since)
    }

    constructor (duration: int)
      ensures Contents() == NewProbe(duration)
    {
      this.duration := duration;
      converged, running, timer, issued, since := false, false, None, 0, 0;
    }

    method SetConvergedChanged(value: bool) returns (changed: bool)
      modifies this`converged
      ensures converged == value && changed == (old(converged) != value)
    {
      changed := converged != value;
      converged := value;
    }

    method DropTimer()
      modifies this`timer
      ensures timer == None
    {
      if timer == None { return; }
      timer := None;
    }

    method ArmTimer(now: int)
      modifies this`timer, this`issued, this`since
      ensures since == now
      ensures duration < 0 ==> timer == None && issued == old(issued)
      ensures duration >= 0 ==> timer == Some(old(issued)) && issued == old(issued) + 1
    {
      since := now;
      DropTimer();
      if duration < 0 { return; }
      timer := Some(issued);
      issued := issued + 1;
    }

    method StartTimer(now: int) returns (poked: bool)
      modifies this
      ensures Contents() == Restarted(old(Contents()), now) && poked == old(converged)
      ensures running && !converged && timer == if duration < 0 then None else Some(old(issued))
    {
      running := true;
      poked := SetConvergedChanged(false);
      ArmTimer(now);
    }

    method StopTimer() returns (poked: bool)
      modifies this
      ensures Contents() == Halted(old(Contents())) && poked == (old(running) && old(converged))
      ensures !running && (old(running) ==> !converged && timer == None)
    {
      if !running { return false; }
      running := false;
      poked := SetConvergedChanged(false);
      DropTimer();
    }

    method ResetTimer(now: int) returns (poked: bool)
      modifies this
      ensures Contents() == Reset(old(Contents()), now) && poked == (old(running) && old(converged))
      ensures old(running) ==> !converged && timer == if duration < 0 then None else Some(old(issued))
    {
      if !running { return false; }
      poked := SetConvergedChanged(false);
      ArmTimer(now);
    }

    /** The callback of the timer `id`: it discards itself if another timer, or none, has taken its place. */
    method TimerCallback(id: nat) returns (poked: bool)
      modifies this
      ensures Contents() == CalledBack(old(Contents()), id)
      ensures poked == (converged && !old(converged)) && (poked ==> old(timer) == Some(id))
    {
      if timer != Some(id) { return false; }
      timer := None;
      poked := SetConvergedChanged(true);
    }
  }

  /* ----- every interleaving ----- */

  datatype Event = Start | Stop | ResetEvent | Callback(id: nat)

  /** `due` is when each timer fires; its callback runs at that time or any time later, whatever happened since. */
  datatype State = State(p: Probe, due: map<nat, int>, now: int)

  ghost predicate Next(s: State, s': State, e: Event) {
    && s'.now >= s.now
    && s'.p == (match e
                case Start => Restarted(s.p, s'.now)
                case Stop => Halted(s.p)
                case ResetEvent => Reset(s.p, s'.now)
                case Callback(id) => CalledBack(s.p, id))
    && (e.Callback? ==> e.id in s.due && s'.now >= s.due[e.id])
    && s'.due == if s'.p.issued == s.p.issued then s.due else s.due[s.p.issued := s'.now + s.p.duration]
  }

  ghost predicate IsRun(run: seq<State>, events: seq<Event>) {
    && |run| == |events| + 1
    && run[0].p == NewProbe(run[0].p.duration) && run[0].due == map[]
    && forall i | 0 <= i < |events| :: Next(run[i], run[i + 1], events[i])
  }

  /** The flag is only ever up on a running probe whose timer has run for the whole duration, and a timer that is in place
      fires one duration after the last start or reset. */
  predicate ProbeOk(s: State) {
    && (forall id | id in s.due :: id < s.p.issued)
    && (s.p.timer.Some? ==> s.p.running && !s.p.converged && s.p.timer.value in s.due
                            && s.due[s.p.timer.value] == s.p.since + s.p.duration)
    && (s.p.converged ==> s.p.running && s.p.duration >= 0 && s.now >= s.p.since + s.p.duration)
    && (s.p.duration < 0 ==> s.due == map[])
  }

  lemma {:induction false} ProbeStaysOk(run: seq<State>, events: seq<Event>, i: nat)
    requires IsRun(run, events) && i < |run|
    ensures ProbeOk(run[i])
  {
    if i > 0 {
      ProbeStaysOk(run, events, i - 1);
      assert Next(run[i - 1], run[i - 1 + 1], events[i - 1]);
    }
  }

  /** Starts, and resets of a running probe. */
  predicate Restarts(s: State, e: Event) {
    e.Start? || (e.ResetEvent? && s.p.running)
  }

  lemma {:induction false} UndisturbedSince(run: seq<State>, events: seq<Event>, k: nat, i: nat)
    requires IsRun(run, events) && k < i < |run| && Restarts(run[k], events[k])
    requires forall j | k < j < i :: !Restarts(run[j], events[j]) && !events[j].Stop?
    ensures run[i].p.since == run[k + 1].now && run[i].p.running
    decreases i
  {
    assert Next(run[i - 1], run[i - 1 + 1], events[i - 1]);
    if k < i - 1 {
      UndisturbedSince(run, events, k, i - 1);
    }
  }

  /** A probe that is converged was started or reset at some point, was neither stopped nor disturbed since, and that was
      at least one duration ago. */
  lemma {:induction false} ConvergedMeansUndisturbed(run: seq<State>, events: seq<Event>, i: nat)
    requires IsRun(run, events) && i < |run| && run[i].p.running
    ensures exists k ::
      && 0 <= k < i && Restarts(run[k], events[k])
      && (forall j | k < j < i :: !Restarts(run[j], events[j]) && !events[j].Stop?)
      && (run[i].p.converged ==> run[i].now >= run[k + 1].now + run[i].p.duration)
  {
    ProbeStaysOk(run, events, i);
    var k := LastRestart(run, events, i);
    UndisturbedSince(run, events, k, i);
  }

  lemma {:induction false} LastRestart(run: seq<State>, events: seq<Event>, i: nat) returns (k: nat)
    requires IsRun(run, events) && i < |run| && run[i].p.running
    ensures k < i && Restarts(run[k], events[k])
    ensures forall j | k < j < i :: !Restarts(run[j], events[j]) && !events[j].Stop?
  {
    assert i > 0;
    assert Next(run[i - 1], run[i - 1 + 1], events[i - 1]);
    if Restarts(run[i - 1], events[i - 1]) {
      k := i - 1;
    } else {
      k := LastRestart(run, events, i - 1);
    }
  }

  /** Stopping, starting or resetting a running probe takes the flag down. */
  lemma DisturbanceLowersFlag(run: seq<State>, events: seq<Event>, i: nat)
    requires IsRun(run, events) && i < |events| && (Restarts(run[i], events[i]) || (events[i].Stop? && run[i].p.running))
    ensures !run[i + 1].p.converged && (run[i + 1].p.running <==> !events[i].Stop?)
    ensures events[i].Stop? ==> run[i + 1].p.timer == None
  {
    assert Next(run[i], run[i + 1], events[i]);
  }

  lemma {:induction false} TimerOrFlag(run: seq<State>, events: seq<Event>, k: nat, i: nat)
    requires IsRun(run, events) && k < i < |run| && Restarts(run[k], events[k]) && run[k].p.duration >= 0
    requires forall j | k < j < i :: !Restarts(run[j], events[j]) && !events[j].Stop?
    ensures run[i].p.running && (run[i].p.timer == Some(run[k].p.issued) || run[i].p.converged)
    ensures run[k].p.issued in run[i].due && run[i].due[run[k].p.issued] == run[k + 1].now + run[k].p.duration
    ensures run[i].p.issued == run[k].p.issued + 1
    decreases i
  {
    assert Next(run[i - 1], run[i - 1 + 1], events[i - 1]);
    if k < i - 1 {
      TimerOrFlag(run, events, k, i - 1);
    }
  }

  /** And the other way round: on a probe that was started or reset and then left alone, the callback of the timer, which is
      due one duration later, raises the flag. */
  lemma UndisturbedConverges(run: seq<State>, events: seq<Event>, k: nat, i: nat)
    requires IsRun(run, events) && k < i < |events| && Restarts(run[k], events[k]) && run[k].p.duration >= 0
    requires forall j | k < j < i :: !Restarts(run[j], events[j]) && !events[j].Stop?
    requires events[i] == Callback(run[k].p.issued)
    ensures run[i + 1].p.converged && run[i].due[run[k].p.issued] == run[k + 1].now + run[k].p.duration
  {
    TimerOrFlag(run, events, k, i);
    assert Next(run[i], run[i + 1], events[i]);
  }

  /** Once a timer was superseded, it stays so. */
  lemma {:induction false} SupersededForGood(run: seq<State>, events: seq<Event>, i: nat, j: nat, id: nat)
    requires IsRun(run, events) && i <= j < |run| && id < run[i].p.issued && run[i].p.timer != Some(id)
    ensures id < run[j].p.issued && run[j].p.timer != Some(id)
    decreases j
  {
    if i < j {
      SupersededForGood(run, events, i, j - 1, id);
      assert Next(run[j - 1], run[j - 1 + 1], events[j - 1]);
    }
  }

  /** A callback of a timer that existed when the probe was stopped, started or reset changes nothing if it runs after
      that, however the two were interleaved. */
  lemma StaleCallbackChangesNothing(run: seq<State>, events: seq<Event>, i: nat, j: nat)
    requires IsRun(run, events) && i < j < |events| && events[j].Callback?
    requires events[i].Stop? || Restarts(run[i], events[i])
    requires events[j].id < run[i].p.issued
    ensures run[j + 1].p == run[j].p
  {
    assert Next(run[i], run[i + 1], events[i]) && Next(run[j], run[j + 1], events[j]);
    ProbeStaysOk(run, events, i);
    assert run[i + 1].p.timer != Some(events[j].id) by {
      StoppedHasNoTimer(run, events, i);
    }
    SupersededForGood(run, events, i + 1, j, events[j].id);
  }

  lemma StoppedHasNoTimer(run: seq<State>, events: seq<Event>, i: nat)
    requires IsRun(run, events) && i < |run|
    ensures !run[i].p.running ==> run[i].p.timer == None
  {
    ProbeStaysOk(run, events, i);
  }
}
