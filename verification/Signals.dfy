/** Two reusable rendezvous: a multicast signal that every subscriber has to acknowledge, and a lock whose first locker
    and last unlocker each meet a reader.

    Each method is one critical section.  Where the source blocks while it holds its mutex there are two methods, and
    nobody else gets in between them. */
module Signals {
  import opened Vertices

  /* ----- the subscribed signal ----- */

  /** `closed` are the channels that were closed, out of the `issued` ones made so far; `sending` says that a Send holds
      the mutex and waits. */
  datatype Signal = Signal(exit: Option<nat>, closed: set<nat>, issued: nat, waiting: int, sending: bool)

  function Subscribed(s: Signal): Signal {
    if s.exit == None then s.(exit := Some(s.issued), issued := s.issued + 1, waiting := s.waiting + 1)
    else s.(waiting := s.waiting + 1)
  }

  function SendBegun(s: Signal): Signal {
    s.(sending := true, closed := s.closed + if s.exit == None then {} else {s.exit.value})
  }

  function SendEnded(s: Signal): Signal {
    s.(sending := false, exit := Some(s.issued), issued := s.issued + 1)
  }

  class SubscribedSignal {
    var exit: Option<nat>
    var wg: int
    var closed: set<nat>
    var issued: nat
    var sending: bool

    ghost function Contents(): Signal
      reads this
    {
      Signal(exit, closed, issued, wg, sending)
    }

    constructor ()
      ensures Contents() == Signal(None, {}, 0, 0, false)
    {
      exit, wg, closed, issued, sending := None, 0, {}, 0, false;
    }

    method MakeChannel()
      modifies this`exit, this`issued
      ensures exit == Some(old(issued)) && issued == old(issued) + 1
    {
      exit, issued := Some(issued), issued + 1;
    }

    method Subscribe() returns (channel: nat)
      requires !sending
      modifies this
      ensures Contents() == Subscribed(old(Contents())) && exit == Some(channel)
      ensures if old(exit) == None then channel == old(issued) else old(exit) == Some(channel)
    {
      if exit == None {
        MakeChannel();
      }
      wg := wg + 1;
      channel := exit.value;
    }

    /** The first half of the function that Subscribe returns; the second half waits until no Send is under way. */
    method Ack()
      modifies this`wg
      ensures wg == old(wg) - 1
    {
      wg := wg - 1;
    }

    /** Send up to where it waits. */
    method SendBegin()
      requires !sending
      modifies this
      ensures Contents() == SendBegun(old(Contents())) && exit == old(exit) && (exit.Some? ==> exit.value in closed)
    {
      sending := true;
      if exit.Some? {
        closed := closed + {exit.value};
      }
    }

    /** The rest of Send, once everyone has acknowledged. */
    method SendEnd()
      requires sending && wg == 0
      modifies this
      ensures Contents() == SendEnded(old(Contents())) && exit == Some(old(issued)) && closed == old(closed)
    {
      MakeChannel();
      sending := false;
    }
  }

  /** A subscription: the channel it was handed, and whether it was acknowledged. */
  datatype Handle = Handle(channel: nat, acked: bool)

  /** `twice` says that some channel was closed a second time, which panics. */
  datatype Broadcast = Broadcast(s: Signal, handles: seq<Handle>, twice: bool)

  datatype Action = Subscribe | Ack(h: nat) | SendBegin | SendEnd

  function Open(b: Broadcast): set<nat> {
    set h: nat | h < |b.handles| && !b.handles[h].acked
  }

  ghost predicate NextBy(b: Broadcast, b': Broadcast, a: Action) {
    match a
    case Subscribe =>
      && !b.s.sending
      && var s := Subscribed(b.s);
      && s.exit.Some? && b' == b.(s := s, handles := b.handles + [Handle(s.exit.value, false)])
    case Ack(h) =>
      // every subscriber acknowledges once
      && h < |b.handles| && !b.handles[h].acked
      && b' == b.(s := b.s.(waiting := b.s.waiting - 1), handles := b.handles[h := b.handles[h].(acked := true)])
    case SendBegin =>
      && !b.s.sending
      && b' == Broadcast(SendBegun(b.s), b.handles, b.twice || (b.s.exit.Some? && b.s.exit.value in b.s.closed))
    case SendEnd =>
      b.s.sending && b.s.waiting == 0 && b' == b.(s := SendEnded(b.s))
  }

  ghost predicate IsBroadcast(run: seq<Broadcast>, actions: seq<Action>) {
    && |run| == |actions| + 1 && run[0] == Broadcast(Signal(None, {}, 0, 0, false), [], false)
    && forall i | 0 <= i < |actions| :: NextBy(run[i], run[i + 1], actions[i])
  }

  /** Everyone who has yet to acknowledge holds the current channel, and that channel is closed exactly while a Send is
      under way. */
  ghost predicate BroadcastOk(b: Broadcast) {
    && b.s.waiting == |Open(b)| && !b.twice
    && (forall h | h in Open(b) :: b.s.exit == Some(b.handles[h].channel))
    && (b.s.exit.Some? ==> b.s.exit.value < b.s.issued && (b.s.exit.value in b.s.closed <==> b.s.sending))
    && (forall c | c in b.s.closed :: c < b.s.issued)
  }

  lemma OneMoreOpen(b: Broadcast, h: Handle)
    requires !h.acked
    ensures Open(b.(handles := b.handles + [h])) == Open(b) + {|b.handles|}
    ensures |Open(b.(handles := b.handles + [h]))| == |Open(b)| + 1
  {
    var c := b.(handles := b.handles + [h]);
    forall x: nat ensures x in Open(c) <==> x in Open(b) + {|b.handles|} {
    }
  }

  lemma OneOpenLess(b: Broadcast, h: nat)
    requires h in Open(b)
    ensures var c := b.(handles := b.handles[h := b.handles[h].(acked := true)]);
      Open(c) == Open(b) - {h} && |Open(c)| == |Open(b)| - 1
  {
    var c := b.(handles := b.handles[h := b.handles[h].(acked := true)]);
    forall x: nat ensures x in Open(c) <==> x in Open(b) - {h} {
    }
  }

  lemma BroadcastStep(b: Broadcast, b': Broadcast, a: Action)
    requires BroadcastOk(b) && NextBy(b, b', a)
    ensures BroadcastOk(b')
  {
    match a
    case Subscribe =>
      OneMoreOpen(b, Handle(Subscribed(b.s).exit.value, false));
      assert b.s.exit == None ==> Open(b) == {};
      assert Open(b') == Open(b.(handles := b'.handles));
    case Ack(h) =>
      OneOpenLess(b, h);
      assert Open(b') == Open(b.(handles := b'.handles));
    case SendBegin =>
      assert Open(b') == Open(b);
    case SendEnd =>
      assert Open(b') == Open(b) == {};
  }

  lemma {:induction false} BroadcastStaysOk(run: seq<Broadcast>, actions: seq<Action>, i: nat)
    requires IsBroadcast(run, actions) && i < |run|
    ensures BroadcastOk(run[i])
  {
    hide NextBy, BroadcastOk;
    if i == 0 {
      NobodyYet(run[0]);
    } else {
      BroadcastStaysOk(run, actions, i - 1);
      assert NextBy(run[i - 1], run[i - 1 + 1], actions[i - 1]);
      BroadcastStep(run[i - 1], run[i], actions[i - 1]);
    }
  }

  lemma NobodyYet(b: Broadcast)
    requires b == Broadcast(Signal(None, {}, 0, 0, false), [], false)
    ensures BroadcastOk(b)
  {
    assert Open(b) == {};
  }

  /** No channel is closed twice; whoever is subscribed and has not acknowledged holds a channel that is closed exactly
      while a Send waits for it; and a Subscribe is always handed an open one. */
  lemma SubscribersSeeEverySend(run: seq<Broadcast>, actions: seq<Action>, i: nat, h: nat)
    requires IsBroadcast(run, actions) && i < |run| && h in Open(run[i])
    ensures !run[i].twice && run[i].s.exit == Some(run[i].handles[h].channel)
    ensures run[i].handles[h].channel in run[i].s.closed <==> run[i].s.sending
    ensures i > 0 && actions[i - 1].Subscribe? && h == |run[i].handles| - 1 ==> run[i].handles[h].channel !in run[i].s.closed
  {
    BroadcastStaysOk(run, actions, i);
    if i > 0 {
      assert NextBy(run[i - 1], run[i - 1 + 1], actions[i - 1]);
    }
  }

  /** Send returns only after everyone who was subscribed when it began has acknowledged. */
  lemma SendWaitsForAll(run: seq<Broadcast>, actions: seq<Action>, i: nat, j: nat, h: nat)
    requires IsBroadcast(run, actions) && i < j < |actions| && actions[i].SendBegin? && actions[j].SendEnd?
    requires h in Open(run[i])
    ensures h < |run[j].handles| && run[j].handles[h].acked
  {
    BroadcastStaysOk(run, actions, j);
    assert NextBy(run[j], run[j + 1], actions[j]);
    HandlesStay(run, actions, i, j, h);
    assert Open(run[j]) == {};
  }

  lemma {:induction false} HandlesStay(run: seq<Broadcast>, actions: seq<Action>, i: nat, j: nat, h: nat)
    requires IsBroadcast(run, actions) && i <= j < |run| && h < |run[i].handles|
    ensures h < |run[j].handles| && run[j].handles[h].channel == run[i].handles[h].channel
    decreases j
  {
    if i < j {
      HandlesStay(run, actions, i, j - 1, h);
      assert NextBy(run[j - 1], run[j - 1 + 1], actions[j - 1]);
    }
  }

  /** A subscription taken out after a Send began is for a later signal: its channel is another one. */
  lemma NoSignalTwice(run: seq<Broadcast>, actions: seq<Action>, i: nat, j: nat, g: nat, h: nat)
    requires IsBroadcast(run, actions) && i < j < |run| && actions[i].SendBegin?
    requires g < |run[i].handles| <= h < |run[j].handles|
    ensures run[j].handles[g].channel != run[j].handles[h].channel
    decreases j
  {
    assert NextBy(run[j - 1], run[j - 1 + 1], actions[j - 1]);
    BroadcastStaysOk(run, actions, j - 1);
    HandlesStay(run, actions, i, j - 1, g);
    if h < |run[j - 1].handles| {
      if i < j - 1 { NoSignalTwice(run, actions, i, j - 1, g, h); }
    } else {
      OldChannelsAreClosed(run, actions, i, j - 1, g);
    }
  }

  /** Once a Send began, every channel handed out before is closed. */
  lemma {:induction false} OldChannelsAreClosed(run: seq<Broadcast>, actions: seq<Action>, i: nat, j: nat, g: nat)
    requires IsBroadcast(run, actions) && i < j < |run| && actions[i].SendBegin? && g < |run[i].handles|
    ensures g < |run[j].handles| && run[j].handles[g].channel in run[j].s.closed
    decreases j
  {
    assert NextBy(run[j - 1], run[j - 1 + 1], actions[j - 1]);
    if i < j - 1 {
      OldChannelsAreClosed(run, actions, i, j - 1, g);
    } else {
      ChannelsAreCurrentOrClosed(run, actions, i, g);
    }
  }

  lemma {:induction false} ChannelsAreCurrentOrClosed(run: seq<Broadcast>, actions: seq<Action>, i: nat, g: nat)
    requires IsBroadcast(run, actions) && i < |run| && g < |run[i].handles|
    ensures run[i].handles[g].channel in run[i].s.closed || run[i].s.exit == Some(run[i].handles[g].channel)
  {
    assert NextBy(run[i - 1], run[i - 1 + 1], actions[i - 1]);
    BroadcastStaysOk(run, actions, i - 1);
    if g < |run[i - 1].handles| {
      ChannelsAreCurrentOrClosed(run, actions, i - 1, g);
    }
  }

  /* ----- the bounded read semaphore ----- */

  /** Who holds the mutex while it waits for a reader: the first locker, or the last unlocker. */
  datatype Meeting = Nobody | AtStart | AtEnd

  /** `panicked` says that an Unlock found nothing locked. */
  datatype Semaphore = Semaphore(count: int, meeting: Meeting, panicked: bool)

  function LockBegun(s: Semaphore): Semaphore {
    s.(count := s.count + 1, meeting := if s.count == 0 then AtStart else Nobody)
  }

  function UnlockBegun(s: Semaphore): Semaphore {
    if s.count == 0 then s.(panicked := true)
    else s.(count := s.count - 1, meeting := if s.count == 1 then AtEnd else Nobody)
  }

  class BoundedReadSemaphore {
    var count: int
    var meeting: Meeting
    var panicked: bool

    ghost function Contents(): Semaphore
      reads this
    {
      Semaphore(count, meeting, panicked)
    }

    constructor ()
      ensures Contents() == Semaphore(0, Nobody, false)
    {
      count, meeting, panicked := 0, Nobody, false;
    }

    /** Lock up to where the first locker waits; `through` tells whether it is done already. */
    method LockBegin() returns (through: bool)
      requires meeting == Nobody
      modifies this
      ensures Contents() == LockBegun(old(Contents())) && through == (meeting == Nobody)
    {
      count := count + 1;
      if count == 1 {
        meeting := AtStart;
      }
      through := meeting == Nobody;
    }

    method UnlockBegin() returns (through: bool)
      requires meeting == Nobody
      modifies this
      ensures Contents() == UnlockBegun(old(Contents())) && through == (meeting == Nobody)
    {
      if count == 0 {
        panicked := true;
        return true;
      }
      count := count - 1;
      if count == 0 {
        meeting := AtEnd;
      }
      through := meeting == Nobody;
    }

    /** A reader of the Start or the End channel meets the one who waits. */
    method Meet()
      requires meeting != Nobody
      modifies this`meeting
      ensures meeting == Nobody
    {
      meeting := Nobody;
    }
  }

  /** `held` are the locks that were granted and not yet given back; `signals` what the readers received, true for a
      start. */
  datatype Sharing = Sharing(s: Semaphore, held: nat, signals: seq<bool>)

  datatype Move = Lock | ReadStart | Unlock | ReadEnd

  ghost predicate MovesBy(a: Sharing, b: Sharing, m: Move) {
    && !a.s.panicked
    && match m
       case Lock =>
         // everyone but the first is through at once
         && a.s.meeting == Nobody
         && b == Sharing(LockBegun(a.s), if a.s.count == 0 then a.held else a.held + 1, a.signals)
       case ReadStart =>
         a.s.meeting == AtStart && b == Sharing(a.s.(meeting := Nobody), a.held + 1, a.signals + [true])
       case Unlock =>
         a.s.meeting == Nobody && b == Sharing(UnlockBegun(a.s), if a.held > 0 then a.held - 1 else 0, a.signals)
       case ReadEnd =>
         a.s.meeting == AtEnd && b == Sharing(a.s.(meeting := Nobody), a.held, a.signals + [false])
  }

  ghost predicate IsSharing(run: seq<Sharing>, moves: seq<Move>) {
    && |run| == |moves| + 1 && run[0] == Sharing(Semaphore(0, Nobody, false), 0, [])
    && forall i | 0 <= i < |moves| :: MovesBy(run[i], run[i + 1], moves[i])
  }

  ghost predicate SharingOk(a: Sharing) {
    && a.s.count == a.held + (if a.s.meeting == AtStart then 1 else 0)
    && (a.s.meeting != Nobody ==> a.held == 0)
    && (forall i | 0 <= i < |a.signals| :: a.signals[i] == (i % 2 == 0))
    && (|a.signals| % 2 == 1 <==> a.held > 0 || a.s.meeting == AtEnd)
    && (a.s.panicked ==> a.held == 0)
  }

  lemma {:induction false} SharingStaysOk(run: seq<Sharing>, moves: seq<Move>, i: nat)
    requires IsSharing(run, moves) && i < |run|
    ensures SharingOk(run[i])
  {
    if i > 0 {
      SharingStaysOk(run, moves, i - 1);
      assert MovesBy(run[i - 1], run[i - 1 + 1], moves[i - 1]);
    }
  }

  /** Start and End strictly alternate; the last signal was a start exactly while a lock is held or its last holder waits
      to have the end read; and Unlock panics exactly when no lock is held. */
  lemma SignalsBracketLocks(run: seq<Sharing>, moves: seq<Move>, i: nat)
    requires IsSharing(run, moves) && i < |run|
    ensures forall k | 0 <= k < |run[i].signals| :: run[i].signals[k] == (k % 2 == 0)
    ensures |run[i].signals| % 2 == 1 <==> run[i].held > 0 || run[i].s.meeting == AtEnd
    ensures i < |moves| && moves[i].Unlock? ==> (run[i + 1].s.panicked <==> run[i].held == 0)
  {
    SharingStaysOk(run, moves, i);
    if i < |moves| {
      assert MovesBy(run[i], run[i + 1], moves[i]);
    }
  }
}
