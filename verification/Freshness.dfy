/** What the pokes achieve in the end, and exactly when: whether somebody can be lost, and whether everything that rests
    is up to date.  The runs that show the failures are built vertex by vertex in topological order. */
module Freshness {
  import opened Vertices
  import opened Digraphs
  import opened Timestamps
  import opened Pokes

  /* ----- building runs ----- */

  /** Some run ends in `s`. */
  ghost predicate Reaches(c: Setting, s: State) {
    Shape(c, s) && exists run, steps :: IsRun(c, run, steps) && run[|steps|] == s
  }

  lemma Go(c: Setting, s: State, s': State, step: Step)
    requires Reaches(c, s) && Shape(c, s') && NextBy(c, s, s', step)
    ensures Reaches(c, s')
  {
    hide NextBy, Init, Shape;
    var run, steps :| IsRun(c, run, steps) && run[|steps|] == s;
    var longer, more := run + [s'], steps + [step];
    forall i | 0 <= i < |more| ensures NextBy(c, longer[i], longer[i + 1], more[i]) {
      if i < |steps| {
        assert NextBy(c, run[i], run[i + 1], steps[i]);
      }
    }
    assert IsRun(c, longer, more) && longer[|more|] == s';
  }

  lemma ReachedIsPast(c: Setting, s: State)
    requires Reaches(c, s)
    ensures PastStamps(c, s)
  {
    hide *;
    var run, steps := RunTo(c, s);
    RunsKeep(c, run, steps, |steps|);
  }

  lemma RunTo(c: Setting, s: State) returns (run: seq<State>, steps: seq<Step>)
    requires Reaches(c, s)
    ensures IsRun(c, run, steps) && |run| == |steps| + 1 && run[|steps|] == s
  {
    hide NextBy, Init, Shape;
    run, steps :| IsRun(c, run, steps) && run[|steps|] == s;
  }

  function Running(ph: Phase): Node {
    Node(ph, true, false, false)
  }

  /** At rest, and heeding pokes. */
  const REST := Running(Waiting)

  /** At rest, and dropping them. */
  const MUTED := Node(Waiting, false, false, false)

  /** A step that changes nothing but where `v` is. */
  lemma Moves(c: Setting, s: State, v: Vertex, n: Node, n': Node, step: Step)
    requires Shape(c, s) && v in c.g && Reaches(c, Put(s, v, n))
    requires NextBy(c, Put(s, v, n), Put(s, v, n'), step)
    ensures Reaches(c, Put(s, v, n'))
  {
    hide NextBy, Reaches;
    Go(c, Put(s, v, n), Put(s, v, n'), step);
  }

  lemma PutTwice(s: State, v: Vertex, n: Node, n': Node)
    ensures Put(Put(s, v, n), v, n') == Put(s, v, n')
  {
    assert s.nodes[v := n][v := n'] == s.nodes[v := n'];
  }

  /* ----- one vertex takes its turn ----- */

  lemma {:induction false} ReadsAll(c: Setting, s: State, v: Vertex, unread: set<Vertex>)
    requires Shape(c, s) && v in c.g && MayRun(c.g, s.stamps, v) && unread <= Preds(c.g, v)
    requires Reaches(c, Put(s, v, Running(Reading(unread, {}))))
    ensures Reaches(c, Put(s, v, Running(Reading({}, {}))))
    decreases unread
  {
    hide Reaches, Preds;
    if unread != {} {
      var p :| p in unread;
      ReadsOne(c, s, v, unread, p);
      ReadsAll(c, s, v, unread - {p});
    }
  }

  lemma ReadsOne(c: Setting, s: State, v: Vertex, unread: set<Vertex>, p: Vertex)
    requires Shape(c, s) && v in c.g && MayRun(c.g, s.stamps, v) && unread <= Preds(c.g, v) && p in unread
    requires Reaches(c, Put(s, v, Running(Reading(unread, {}))))
    ensures Reaches(c, Put(s, v, Running(Reading(unread - {p}, {}))))
  {
    hide Reaches, WakeStep, PokeStep;
    var n, n' := Running(Reading(unread, {})), Running(Reading(unread - {p}, {}));
    assert p in c.g && p !in Bad(c.g, s.stamps, v);
    PutTwice(s, v, n, n');
    assert ProcessStep(c, Put(s, v, n), Put(s, v, n'), ReadStamp(v, p));
    Moves(c, s, v, n, n', ReadStamp(v, p));
  }

  /** The look at a successor that may run finds nothing. */
  lemma {:induction false} LooksThrough(c: Setting, s: State, v: Vertex, unchecked: set<Vertex>, w: Vertex, unread: set<Vertex>)
    requires Shape(c, s) && v in c.g && w in c.g && MayRun(c.g, s.stamps, w) && unread <= Preds(c.g, w)
    requires Reaches(c, Put(s, v, Running(Poking(unchecked, Some(Look(w, s.stamps[w], unread))))))
    ensures Reaches(c, Put(s, v, Running(Poking(unchecked, Some(Look(w, s.stamps[w], {}))))))
    decreases unread
  {
    hide Reaches, Preds;
    if unread != {} {
      var p :| p in unread;
      LooksOne(c, s, v, unchecked, w, unread, p);
      LooksThrough(c, s, v, unchecked, w, unread - {p});
    }
  }

  lemma LooksOne(c: Setting, s: State, v: Vertex, unchecked: set<Vertex>, w: Vertex, unread: set<Vertex>, p: Vertex)
    requires Shape(c, s) && v in c.g && w in c.g && unread <= Preds(c.g, w) && p in unread
    requires Reaches(c, Put(s, v, Running(Poking(unchecked, Some(Look(w, s.stamps[w], unread))))))
    ensures p in s.stamps
    ensures Reaches(c, Put(s, v, Running(Poking(unchecked,
              if p in Bad(c.g, s.stamps, w) then None else Some(Look(w, s.stamps[w], unread - {p}))))))
  {
    hide Reaches, WakeStep, ProcessStep;
    assert p in c.g;
    var n := Running(Poking(unchecked, Some(Look(w, s.stamps[w], unread))));
    var n' := Running(Poking(unchecked,
                             if p in Bad(c.g, s.stamps, w) then None else Some(Look(w, s.stamps[w], unread - {p}))));
    PutTwice(s, v, n, n');
    assert PokeStep(c, Put(s, v, n), Put(s, v, n'), LookFurther(v, p));
    Moves(c, s, v, n, n', LookFurther(v, p));
  }

  lemma BeginsLook(c: Setting, s: State, v: Vertex, unchecked: set<Vertex>, w: Vertex)
    requires Shape(c, s) && v in c.g && w in c.g && w in unchecked
    requires Reaches(c, Put(s, v, Running(Poking(unchecked, None))))
    ensures Reaches(c, Put(s, v, Running(Poking(unchecked - {w}, Some(Look(w, s.stamps[w], Preds(c.g, w)))))))
  {
    hide Reaches, WakeStep, ProcessStep, Preds;
    var n := Running(Poking(unchecked, None));
    var n' := Running(Poking(unchecked - {w}, Some(Look(w, s.stamps[w], Preds(c.g, w)))));
    PutTwice(s, v, n, n');
    assert PokeStep(c, Put(s, v, n), Put(s, v, n'), LookAt(v, w));
    Moves(c, s, v, n, n', LookAt(v, w));
  }

  /** The successors in `ws` that may run. */
  ghost function Ready(c: Setting, stamps: Stamps, ws: set<Vertex>): set<Vertex>
    requires c.g.Keys == stamps.Keys
  {
    set w | w in ws && w in c.g && MayRun(c.g, stamps, w)
  }

  function WithPokes(s: State, more: set<Vertex>): State {
    s.(poked := s.poked + more)
  }

  /** A look that ends with a poke. */
  lemma PokesReady(c: Setting, s: State, v: Vertex, unchecked: set<Vertex>, w: Vertex)
    requires Shape(c, s) && v in c.g && w in c.g && w in unchecked && MayRun(c.g, s.stamps, w)
    requires Reaches(c, Put(s, v, Running(Poking(unchecked, None))))
    ensures Reaches(c, Put(WithPokes(s, {w}), v, Running(Poking(unchecked - {w}, None))))
  {
    hide Reaches, WakeStep, ProcessStep, Preds, MayRun;
    BeginsLook(c, s, v, unchecked, w);
    LooksThrough(c, s, v, unchecked - {w}, w, Preds(c.g, w));
    var n := Running(Poking(unchecked - {w}, Some(Look(w, s.stamps[w], {}))));
    var n' := Running(Poking(unchecked - {w}, None));
    PutTwice(s, v, n, n');
    var t, t' := Put(s, v, n), Put(WithPokes(s, {w}), v, n');
    assert PokeStep(c, t, t', SendPoke(v));
    Go(c, t, t', SendPoke(v));
  }

  /** A look that ends at a prerequisite in the way. */
  lemma PassesOver(c: Setting, s: State, v: Vertex, unchecked: set<Vertex>, w: Vertex)
    requires Shape(c, s) && v in c.g && w in c.g && w in unchecked && !MayRun(c.g, s.stamps, w)
    requires Reaches(c, Put(s, v, Running(Poking(unchecked, None))))
    ensures Reaches(c, Put(s, v, Running(Poking(unchecked - {w}, None))))
  {
    hide Reaches;
    BeginsLook(c, s, v, unchecked, w);
    var p :| p in Bad(c.g, s.stamps, w);
    LooksOne(c, s, v, unchecked - {w}, w, Preds(c.g, w), p);
  }

  /** Every successor that may run is poked, and no other. */
  lemma {:induction false} LooksAtAll(c: Setting, s: State, v: Vertex, unchecked: set<Vertex>)
    requires Shape(c, s) && v in c.g && unchecked <= c.g.Keys
    requires Reaches(c, Put(s, v, Running(Poking(unchecked, None))))
    ensures Reaches(c, Put(WithPokes(s, Ready(c, s.stamps, unchecked)), v, Running(Poking({}, None))))
    decreases unchecked
  {
    hide Reaches, MayRun;
    if unchecked == {} {
      assert WithPokes(s, Ready(c, s.stamps, unchecked)) == s;
    } else {
      var w :| w in unchecked;
      if MayRun(c.g, s.stamps, w) {
        PokesReady(c, s, v, unchecked, w);
        LooksAtAll(c, WithPokes(s, {w}), v, unchecked - {w});
        assert s.poked + {w} + Ready(c, s.stamps, unchecked - {w}) == s.poked + Ready(c, s.stamps, unchecked);
      } else {
        PassesOver(c, s, v, unchecked, w);
        LooksAtAll(c, s, v, unchecked - {w});
        assert Ready(c, s.stamps, unchecked - {w}) == Ready(c, s.stamps, unchecked);
      }
    }
  }

  /** An event wakes `v`, which may run, reads all timestamps and begins to apply. */
  lemma Begins(c: Setting, s: State, v: Vertex)
    requires Reaches(c, s) && v in c.g && s.nodes[v] in {NEW, REST} && MayRun(c.g, s.stamps, v)
    ensures Reaches(c, Put(s, v, Running(Applying)).(poked := s.poked - {v}))
  {
    hide Reaches, MayRun, Preds, WakeStep, ProcessStep;
    ReachedShape(c, s);
    var t := s.(poked := s.poked - {v});
    var trying, reading, finished := Running(Trying), Running(Reading(Preds(c.g, v), {})), Running(Reading({}, {}));
    EventWakes(c, s, v);
    PutTwice(t, v, trying, reading);
    assert ProcessStep(c, Put(t, v, trying), Put(t, v, reading), Start(v)) by { ProcessSteps(c, t, v); }
    Moves(c, t, v, trying, reading, Start(v));
    ReadsAll(c, t, v, Preds(c.g, v));
    assert ProcessStep(c, Put(t, v, finished), Put(t, v, Running(Applying)), Admit(v)) by { ProcessSteps(c, t, v); }
    Moves(c, t, v, finished, Running(Applying), Admit(v));
  }

  lemma ReachedShape(c: Setting, s: State)
    requires Reaches(c, s)
    ensures Shape(c, s)
  {
  }

  lemma EventWakes(c: Setting, s: State, v: Vertex)
    requires Reaches(c, s) && v in c.g && s.nodes[v] in {NEW, REST}
    ensures Reaches(c, Put(s, v, Running(Trying)).(poked := s.poked - {v}))
  {
    hide Reaches, ProcessStep, PokeStep;
    ReachedShape(c, s);
    var s' := Put(s, v, Running(Trying)).(poked := s.poked - {v});
    assert WakeStep(c, s, s', Event(v, false));
    Go(c, s, s', Event(v, false));
  }

  lemma ProcessSteps(c: Setting, t: State, v: Vertex)
    requires Shape(c, t) && v in c.g
    ensures ProcessStep(c, Put(t, v, Running(Trying)), Put(t, v, Running(Reading(Preds(c.g, v), {}))), Start(v))
    ensures ProcessStep(c, Put(t, v, Running(Reading({}, {}))), Put(t, v, Running(Applying)), Admit(v))
  {
    hide Preds;
    PutTwice(t, v, Running(Trying), Running(Reading(Preds(c.g, v), {})));
    PutTwice(t, v, Running(Reading({}, {})), Running(Applying));
  }

  /** What a turn of `v` that completes at `now` leaves behind. */
  ghost function Turned(c: Setting, s: State, v: Vertex, now: int): State
    requires Shape(c, s) && v in c.g
  {
    var stamps := s.stamps[v := now];
    State(stamps, s.poked - {v} + Ready(c, stamps, Succs(c.g, v)), s.nodes[v := REST], now)
  }

  lemma Turn(c: Setting, s: State, v: Vertex, now: int)
    requires Closed(c.g) && Reaches(c, s) && v in c.g && s.nodes[v] in {NEW, REST} && MayRun(c.g, s.stamps, v)
    requires now >= s.clock
    ensures Shape(c, s) && Reaches(c, Turned(c, s, v, now))
  {
    hide Reaches, MayRun, Preds, Succs, Ready;
    ReachedShape(c, s);
    Begins(c, s, v);
    var t := State(s.stamps[v := now], s.poked - {v}, s.nodes, now);
    Completes(c, s, v, now);
    SuccessorsKnown(c.g, v);
    LooksAtAll(c, t, v, Succs(c.g, v));
    Finishes(c, WithPokes(t, Ready(c, t.stamps, Succs(c.g, v))), v);
  }

  lemma SuccessorsKnown(g: Adjacency, v: Vertex)
    requires Closed(g)
    ensures Succs(g, v) <= g.Keys
  {
  }

  lemma Completes(c: Setting, s: State, v: Vertex, now: int)
    requires Shape(c, s) && v in c.g && now >= s.clock
    requires Reaches(c, Put(s, v, Running(Applying)).(poked := s.poked - {v}))
    ensures Reaches(c, Put(State(s.stamps[v := now], s.poked - {v}, s.nodes, now), v, Running(Poking(Succs(c.g, v), None))))
  {
    hide Reaches, WakeStep, ProcessStep, Succs;
    var t := Put(s, v, Running(Applying)).(poked := s.poked - {v});
    var n' := Running(Poking(Succs(c.g, v), None));
    var t' := Put(State(s.stamps[v := now], s.poked - {v}, s.nodes, now), v, n');
    PutTwice(s, v, Running(Applying), n');
    assert PokeStep(c, t, t', Complete(v, now));
    Go(c, t, t', Complete(v, now));
  }

  lemma Finishes(c: Setting, s: State, v: Vertex)
    requires Shape(c, s) && v in c.g && Reaches(c, Put(s, v, Running(Poking({}, None))))
    ensures Reaches(c, Put(s, v, REST))
  {
    hide Reaches, WakeStep, ProcessStep;
    PutTwice(s, v, Running(Poking({}, None)), REST);
    assert PokeStep(c, Put(s, v, Running(Poking({}, None))), Put(s, v, REST), Done(v));
    Moves(c, s, v, Running(Poking({}, None)), REST, Done(v));
  }

  /* ----- many vertices take their turns in topological order ----- */

  /** Whoever is poked may run. */
  ghost predicate Heeded(c: Setting, s: State)
    requires Shape(c, s)
  {
    forall x | x in s.poked :: x in c.g && MayRun(c.g, s.stamps, x)
  }

  lemma OrderedBefore(g: Adjacency, l: seq<Vertex>, k: nat, u: Vertex)
    requires Closed(g) && TopologicalOrder(g, l) && k < |l|
    ensures l[k] in g && l[k] !in l[..k]
    ensures HasEdge(g, u, l[k]) ==> u in l[..k]
    ensures HasEdge(g, l[k], u) ==> u in g && u !in l[..k] && u != l[k]
  {
    assert l[k] in Elements(l);
    if HasEdge(g, u, l[k]) {
      ForwardEdges(g, l, u, l[k]);
      assert l[..k][IndexOf(l, u)] == u;
    }
    assert forall i | 0 <= i <= k :: !HasEdge(g, l[k], l[i]);
  }

  lemma AllBefore(g: Adjacency, l: seq<Vertex>, k: nat)
    requires Closed(g) && TopologicalOrder(g, l) && k < |l|
    ensures l[k] in g && l[k] !in l[..k]
    ensures forall u | u in Preds(g, l[k]) :: u in l[..k] && u in g
    ensures forall u | u in Succs(g, l[k]) :: u !in l[..k] && u != l[k] && u in g
  {
    forall u ensures HasEdge(g, u, l[k]) ==> u in l[..k]
      ensures HasEdge(g, l[k], u) ==> u in g && u !in l[..k] && u != l[k]
    {
      OrderedBefore(g, l, k, u);
    }
    assert l[k] in Elements(l);
    assert l[k] !in l[..k];
  }

  lemma OneFurther(l: seq<Vertex>, k: nat)
    requires k < |l|
    ensures forall x :: x in l[..k + 1] <==> x in l[..k] || x == l[k]
  {
    assert l[..k + 1] == l[..k] + [l[k]];
  }

  lemma WholeOrder(g: Adjacency, l: seq<Vertex>)
    requires TopologicalOrder(g, l)
    ensures l[..|l|] == l && forall x :: x in g <==> x in l
  {
    assert forall x :: x in g <==> x in Elements(l);
  }

  /** Others keep the permission to run when `v` completes, and its successors that have it are poked. */
  lemma AfterTurn(c: Setting, s: State, v: Vertex, now: int, x: Vertex)
    requires Shape(c, s) && PastStamps(c, s) && v in c.g && now >= s.clock && x in c.g && x != v
    ensures var s' := Turned(c, s, v, now);
      && s'.stamps[x] == s.stamps[x] && s'.nodes[x] == s.nodes[x]
      && (MayRun(c.g, s.stamps, x) ==> MayRun(c.g, s'.stamps, x))
      && (!HasEdge(c.g, v, x) && MayRun(c.g, s'.stamps, x) ==> MayRun(c.g, s.stamps, x))
      && (x in s'.poked <==> x in s.poked || (HasEdge(c.g, v, x) && MayRun(c.g, s'.stamps, x)))
  {
    var stamps := s.stamps[v := now];
    assert Bad(c.g, stamps, x) <= Bad(c.g, s.stamps, x);
    if !HasEdge(c.g, v, x) {
      OnlySuccessorsGain(c, s.stamps, v, now, x);
    }
  }

  /** What completing all of `done` leaves behind. */
  ghost predicate SweptBy(c: Setting, s: State, s': State, done: seq<Vertex>)
    requires Shape(c, s) && Shape(c, s')
  {
    && s'.clock >= s.clock
    && (forall x | x in done && x in c.g :: s'.nodes[x] == REST && s'.stamps[x] > s.clock && x !in s'.poked)
    && (forall x | x in c.g && x !in done :: s'.nodes[x] == s.nodes[x] && s'.stamps[x] == s.stamps[x])
    && (Heeded(c, s) ==> Heeded(c, s'))
    && Told(c, s', done)
  }

  /** Their successors that may run are poked. */
  ghost predicate Told(c: Setting, s: State, done: seq<Vertex>)
    requires Shape(c, s)
  {
    forall u, w | u in done && w in c.g && w !in done && HasEdge(c.g, u, w) && MayRun(c.g, s.stamps, w) :: w in s.poked
  }

  lemma {:induction false} Sweep(c: Setting, s: State, l: seq<Vertex>, k: nat) returns (s': State)
    requires Closed(c.g) && TopologicalOrder(c.g, l) && k <= |l| && Reaches(c, s)
    requires forall x | x in l[..k] && x in c.g :: s.nodes[x] in {NEW, REST}
    ensures Reaches(c, s') && SweptBy(c, s, s', l[..k])
    decreases k
  {
    hide Reaches, MayRun, TopologicalOrder, Closed, Heeded, SweptBy;
    ReachedShape(c, s);
    if k == 0 {
      s' := s;
      SweptByNone(c, s);
    } else {
      OneFurther(l, k - 1);
      var t := Sweep(c, s, l, k - 1);
      ReachedShape(c, t);
      ReachedIsPast(c, s);
      ReachedIsPast(c, t);
      NextMayRun(c, s, t, l, k - 1);
      Turn(c, t, l[k - 1], t.clock + 1);
      s' := Turned(c, t, l[k - 1], t.clock + 1);
      SweptOneMore(c, s, t, l, k - 1);
    }
  }

  lemma SweptByNone(c: Setting, s: State)
    requires Shape(c, s)
    ensures SweptBy(c, s, s, [])
  {
  }

  lemma NextMayRun(c: Setting, s: State, t: State, l: seq<Vertex>, k: nat)
    requires Closed(c.g) && TopologicalOrder(c.g, l) && k < |l| && Shape(c, s) && Shape(c, t) && PastStamps(c, s)
    requires SweptBy(c, s, t, l[..k])
    ensures l[k] in c.g && t.nodes[l[k]] == s.nodes[l[k]] && MayRun(c.g, t.stamps, l[k])
  {
    hide TopologicalOrder, Closed, Heeded, Preds, Succs;
    AllBefore(c.g, l, k);
  }

  lemma ToldOneMore(c: Setting, t: State, l: seq<Vertex>, k: nat)
    requires Closed(c.g) && TopologicalOrder(c.g, l) && k < |l| && Shape(c, t) && PastStamps(c, t) && Told(c, t, l[..k])
    requires l[k] in c.g
    ensures Shape(c, Turned(c, t, l[k], t.clock + 1)) && Told(c, Turned(c, t, l[k], t.clock + 1), l[..k + 1])
  {
    hide TopologicalOrder, Closed, MayRun, Turned;
    var v, s' := l[k], Turned(c, t, l[k], t.clock + 1);
    OneFurther(l, k);
    AllBefore(c.g, l, k);
    TurnOfItself(c, t, v, t.clock + 1);
    forall u, w | u in l[..k + 1] && w in c.g && w !in l[..k + 1] && HasEdge(c.g, u, w) && MayRun(c.g, s'.stamps, w)
      ensures w in s'.poked
    {
      AfterTurn(c, t, v, t.clock + 1, w);
    }
  }

  lemma SweptOneMore(c: Setting, s: State, t: State, l: seq<Vertex>, k: nat)
    requires Closed(c.g) && TopologicalOrder(c.g, l) && k < |l| && Shape(c, s) && Shape(c, t)
    requires PastStamps(c, s) && PastStamps(c, t) && SweptBy(c, s, t, l[..k]) && l[k] in c.g
    ensures SweptBy(c, s, Turned(c, t, l[k], t.clock + 1), l[..k + 1])
  {
    hide TopologicalOrder, Closed, MayRun, Turned, Heeded, Told, Preds, PastStamps, HasEdge;
    var v, s' := l[k], Turned(c, t, l[k], t.clock + 1);
    OneFurther(l, k);
    AllBefore(c.g, l, k);
    TurnOfItself(c, t, v, t.clock + 1);
    ToldOneMore(c, t, l, k);
    forall x | x in c.g && x != v
      ensures s'.stamps[x] == t.stamps[x] && s'.nodes[x] == t.nodes[x]
      ensures x in l[..k] && x !in t.poked ==> x !in s'.poked
    {
      AfterTurn(c, t, v, t.clock + 1, x);
      EdgeIsSucc(c.g, v, x);
    }
    if Heeded(c, t) {
      TurnKeepsHeeded(c, t, v, t.clock + 1);
    }
  }

  lemma EdgeIsSucc(g: Adjacency, v: Vertex, x: Vertex)
    requires x in g
    ensures HasEdge(g, v, x) ==> x in Succs(g, v)
  {
  }

  lemma TurnOfItself(c: Setting, s: State, v: Vertex, now: int)
    requires Shape(c, s) && v in c.g && v !in Succs(c.g, v)
    ensures var s' := Turned(c, s, v, now);
      Shape(c, s') && s'.nodes[v] == REST && s'.stamps[v] == now == s'.clock && v !in s'.poked
  {
  }

  lemma TurnKeepsHeeded(c: Setting, s: State, v: Vertex, now: int)
    requires Shape(c, s) && PastStamps(c, s) && v in c.g && v !in Succs(c.g, v) && now >= s.clock && Heeded(c, s)
    ensures Shape(c, Turned(c, s, v, now)) && Heeded(c, Turned(c, s, v, now))
  {
    hide MayRun;
    var s' := Turned(c, s, v, now);
    forall x | x in s'.poked ensures x in c.g && MayRun(c.g, s'.stamps, x) {
      if x in s.poked {
        AfterTurn(c, s, v, now, x);
      }
    }
  }

  /** Everybody who is still poked takes a turn, and those whom that pokes, until nobody is.  `v` is left out: it is not
      poked, and all its prerequisites have had their turns. */
  lemma {:induction false} Settle(c: Setting, s: State, l: seq<Vertex>, k: nat, v: Vertex) returns (s': State)
    requires Closed(c.g) && TopologicalOrder(c.g, l) && k <= |l| && Reaches(c, s) && Heeded(c, s)
    requires forall x | x in s.poked :: x !in l[..k]
    requires v in c.g && v !in s.poked && forall u | u in Preds(c.g, v) :: u in l[..k]
    requires forall x | x in c.g && x != v :: s.nodes[x] == REST
    ensures Reaches(c, s') && s'.poked == {} && s'.nodes == s.nodes && s'.stamps[v] == s.stamps[v]
    ensures forall x | x in l[..k] && x in c.g :: s'.stamps[x] == s.stamps[x]
    decreases |l| - k
  {
    hide Reaches, MayRun, TopologicalOrder, Closed, Preds;
    ReachedShape(c, s);
    if k == |l| {
      WholeOrder(c.g, l);
      s' := s;
    } else {
      OneFurther(l, k);
      if l[k] in s.poked {
        ReachedIsPast(c, s);
        Turn(c, s, l[k], s.clock);
        SettledOne(c, s, l, k, v);
        s' := Settle(c, Turned(c, s, l[k], s.clock), l, k + 1, v);
        ReachedShape(c, s');
      } else {
        s' := Settle(c, s, l, k + 1, v);
      }
    }
  }

  lemma SettledOne(c: Setting, s: State, l: seq<Vertex>, k: nat, v: Vertex)
    requires Closed(c.g) && TopologicalOrder(c.g, l) && k < |l| && Shape(c, s) && PastStamps(c, s) && Heeded(c, s)
    requires forall x | x in s.poked :: x !in l[..k]
    requires l[k] in s.poked && v in c.g && v !in s.poked && forall u | u in Preds(c.g, v) :: u in l[..k]
    requires s.nodes[l[k]] == REST
    ensures var s' := Turned(c, s, l[k], s.clock);
      && Shape(c, s') && Heeded(c, s') && s'.nodes == s.nodes && v !in s'.poked
      && (forall x | x in s'.poked :: x !in l[..k + 1])
      && (forall x | x in c.g && x != l[k] :: s'.stamps[x] == s.stamps[x])
      && l[k] !in l[..k]
  {
    hide MayRun, TopologicalOrder, Closed, Heeded;
    AllBefore(c.g, l, k);
    OneFurther(l, k);
    TurnKeepsHeeded(c, s, l[k], s.clock);
    assert l[k] in Preds(c.g, v) <==> v in Succs(c.g, l[k]);
    assert s.nodes[l[k] := REST] == s.nodes;
  }

  /* ----- a vertex goes mute ----- */

  /** While it waits, its Watch fails, restarts and sends the initial event, which the select of the wait consumes. */
  lemma Silences(c: Setting, s: State, v: Vertex, ph: Phase)
    requires Shape(c, s) && v in c.g && v in c.restarts && ph in {Limiting, Delaying}
    requires Reaches(c, Put(s, v, Running(ph)))
    ensures Reaches(c, Put(s, v, MUTED))
  {
    hide Reaches, WakeStep, ProcessStep, PokeStep;
    var failed, restarted, consumed := Node(ph, true, false, true), Node(ph, false, true, false), Node(ph, false, false, false);
    SilencingSteps(c, s, v, ph);
    Moves(c, s, v, Running(ph), failed, WatchFails(v));
    Moves(c, s, v, failed, restarted, Sentinel(v));
    Moves(c, s, v, restarted, consumed, Event(v, false));
    Moves(c, s, v, consumed, MUTED, WaitOver(v));
  }

  lemma SilencingSteps(c: Setting, s: State, v: Vertex, ph: Phase)
    requires Shape(c, s) && v in c.g && v in c.restarts && ph in {Limiting, Delaying}
    ensures var failed, restarted, consumed :=
        Put(s, v, Node(ph, true, false, true)), Put(s, v, Node(ph, false, true, false)), Put(s, v, Node(ph, false, false, false));
      && WakeStep(c, Put(s, v, Running(ph)), failed, WatchFails(v)) && WakeStep(c, failed, restarted, Sentinel(v))
      && WakeStep(c, restarted, consumed, Event(v, false)) && WakeStep(c, consumed, Put(s, v, MUTED), WaitOver(v))
  {
    PutTwice(s, v, Running(ph), Node(ph, true, false, true));
    PutTwice(s, v, Node(ph, true, false, true), Node(ph, false, true, false));
    PutTwice(s, v, Node(ph, false, true, false), Node(ph, false, false, false));
    PutTwice(s, v, Node(ph, false, false, false), MUTED);
  }

  lemma GoesMute(c: Setting, s: State, v: Vertex)
    requires Reaches(c, s) && v in c.g && s.nodes[v] == REST && MayRun(c.g, s.stamps, v) && MayMute(c, v)
    ensures Reaches(c, Put(s, v, MUTED).(poked := s.poked - {v}))
  {
    hide Reaches, MayRun, WakeStep, ProcessStep, PokeStep;
    ReachedShape(c, s);
    var t := s.(poked := s.poked - {v});
    if v in c.limited {
      WaitsForLimit(c, s, v);
      Silences(c, t, v, Limiting);
    } else {
      Begins(c, s, v);
      FailsAndWaits(c, t, v);
      Silences(c, t, v, Delaying);
    }
  }

  lemma WaitsForLimit(c: Setting, s: State, v: Vertex)
    requires Reaches(c, s) && v in c.g && s.nodes[v] == REST && v in c.limited
    ensures Reaches(c, Put(s, v, Running(Limiting)).(poked := s.poked - {v}))
  {
    hide Reaches, ProcessStep, PokeStep;
    ReachedShape(c, s);
    var s' := Put(s, v, Running(Limiting)).(poked := s.poked - {v});
    assert WakeStep(c, s, s', Event(v, true));
    Go(c, s, s', Event(v, true));
  }

  lemma FailsAndWaits(c: Setting, s: State, v: Vertex)
    requires Shape(c, s) && v in c.g && v in c.delayed && Reaches(c, Put(s, v, Running(Applying)))
    ensures Reaches(c, Put(s, v, Running(Delaying)))
  {
    hide Reaches, WakeStep, PokeStep;
    PutTwice(s, v, Running(Applying), Running(Delaying));
    assert ProcessStep(c, Put(s, v, Running(Applying)), Put(s, v, Running(Delaying)), Fail(v, true));
    Moves(c, s, v, Running(Applying), Running(Delaying), Fail(v, true));
  }

  lemma DropsPoke(c: Setting, s: State, v: Vertex)
    requires Shape(c, s) && v in c.g && s.nodes[v] == MUTED
    ensures WakeStep(c, s, s.(poked := s.poked - {v}), Wake(v, false))
  {
    assert s.nodes[v := MUTED] == s.nodes;
  }

  /* ----- runs that end badly ----- */

  ghost function Beginning(c: Setting): State {
    State(map v | v in c.g :: 0, {}, map v | v in c.g :: NEW, 0)
  }

  lemma ReachesBeginning(c: Setting)
    ensures Reaches(c, Beginning(c))
  {
    var run, steps: seq<Step> := [Beginning(c)], [];
    assert IsRun(c, run, steps) && run[|steps|] == Beginning(c);
  }

  /** Everybody has run once and rests. */
  lemma AllRest(c: Setting, l: seq<Vertex>) returns (s: State)
    requires Closed(c.g) && TopologicalOrder(c.g, l)
    ensures Reaches(c, s) && s.poked == {} && forall x | x in c.g :: s.nodes[x] == REST
  {
    hide Reaches, TopologicalOrder, Closed, MayRun;
    ReachesBeginning(c);
    WholeOrder(c.g, l);
    s := Sweep(c, Beginning(c), l, |l|);
    ReachedShape(c, s);
    assert Heeded(c, Beginning(c));
  }

  lemma {:induction false} LastOf(l: seq<Vertex>, among: set<Vertex>, k: nat) returns (j: nat)
    requires k <= |l| && among != {} && forall x | x in among :: x in l[..k]
    ensures j < k && l[j] in among && forall x | x in among :: x in l[..j + 1]
  {
    var x :| x in among;
    assert x in l[..k];
    OneFurther(l, k - 1);
    if l[k - 1] in among {
      j := k - 1;
    } else {
      j := LastOf(l, among, k - 1);
    }
  }

  /** A mute vertex that its prerequisites permit to run is lost: its poke is dropped. */
  lemma LosesPoke(c: Setting, l: seq<Vertex>, i: nat) returns (s: State, s': State)
    requires Closed(c.g) && TopologicalOrder(c.g, l) && i < |l| && MayMute(c, l[i]) && Preds(c.g, l[i]) != {}
    ensures l[i] in c.g && Reaches(c, s) && l[i] in s.poked && NextBy(c, s, s', Wake(l[i], false)) && Reaches(c, s')
    ensures s' == s.(poked := s.poked - {l[i]}) && Heeded(c, s') && (forall x | x in s'.poked :: x !in l[..i])
    ensures MayRun(c.g, s'.stamps, l[i]) && s'.nodes[l[i]] == MUTED
    ensures forall x | x in c.g && x != l[i] :: s'.nodes[x] == REST
  {
    hide Reaches, MayRun, TopologicalOrder, Closed, Preds, Heeded, MayMute, WakeStep, ProcessStep, PokeStep;
    var v := l[i];
    AllBefore(c.g, l, i);
    var r := AllRest(c, l);
    ReachedShape(c, r);
    ReachedIsPast(c, r);
    var t := Sweep(c, r, l, i);
    ReachedShape(c, t);
    NextMayRun(c, r, t, l, i);
    GoesMute(c, t, v);
    var m := Put(t, v, MUTED).(poked := t.poked - {v});
    ReachedShape(c, m);
    ReachedIsPast(c, m);
    s := Sweep(c, m, l, i);
    ReachedShape(c, s);
    NextMayRun(c, m, s, l, i);
    HeedingStays(c, r, t, v);
    assert v in s.poked by {
      assert Told(c, s, l[..i]);
      var u :| u in Preds(c.g, v);
      PredIsEdge(c.g, u, v);
    }
    SweptLeavesPokes(c, m, s, l, i);
    DropsPoke(c, s, v);
    s' := s.(poked := s.poked - {v});
    Go(c, s, s', Wake(v, false));
    FewerPokes(c, s, v);
  }

  lemma PredIsEdge(g: Adjacency, u: Vertex, v: Vertex)
    requires u in Preds(g, v)
    ensures HasEdge(g, u, v)
  {
  }

  lemma HeedingStays(c: Setting, r: State, t: State, v: Vertex)
    requires Shape(c, r) && Shape(c, t) && v in c.g && r.poked == {} && (Heeded(c, r) ==> Heeded(c, t))
    ensures Heeded(c, t) && Shape(c, Put(t, v, MUTED)) && Heeded(c, Put(t, v, MUTED).(poked := t.poked - {v}))
  {
    hide MayRun;
  }

  lemma FewerPokes(c: Setting, s: State, v: Vertex)
    requires Shape(c, s) && Heeded(c, s)
    ensures Heeded(c, s.(poked := s.poked - {v}))
  {
    hide MayRun;
  }

  /** A vertex that may go mute can be lost, and can rest older than a prerequisite. */
  lemma MuteIsLost(c: Setting, v: Vertex) returns (s: State, s': State, rest: State)
    requires Closed(c.g) && Acyclic(c.g) && v in c.g && MayMute(c, v) && Preds(c.g, v) != {}
    ensures Reaches(c, s) && v in s.poked && NextBy(c, s, s', Wake(v, false)) && Reaches(c, s') && Lost(c, s', v)
    ensures Reaches(c, rest) && AtRest(c, rest) && Lost(c, rest, v)
  {
    hide Reaches, MayRun, TopologicalOrder, Closed, Acyclic, Preds, Heeded, NextBy, MayMute;
    var l := AcyclicHasOrder(c.g);
    WholeOrder(c.g, l);
    var i := IndexOf(l, v);
    AllBefore(c.g, l, i);
    s, s' := LosesPoke(c, l, i);
    ReachedShape(c, s');
    rest := Settle(c, s', l, i, v);
    ReachedShape(c, rest);
    SameReasons(c, s'.stamps, rest.stamps, v);
  }

  lemma SameReasons(c: Setting, stamps: Stamps, stamps': Stamps, v: Vertex)
    requires c.g.Keys == stamps.Keys == stamps'.Keys && v in c.g && stamps[v] == stamps'[v]
    requires forall u | u in Preds(c.g, v) && u in c.g :: stamps[u] == stamps'[u]
    ensures MayRun(c.g, stamps, v) <==> MayRun(c.g, stamps', v)
  {
    assert Bad(c.g, stamps, v) == Bad(c.g, stamps', v);
  }

  lemma Prefixes(l: seq<Vertex>, j: nat, i: nat)
    requires j <= i <= |l|
    ensures forall x | x in l[..j] :: x in l[..i]
  {
    assert l[..j] == l[..i][..j];
  }

  /** A turn pokes only vertices that come later. */
  lemma TurnPokesLater(c: Setting, s: State, l: seq<Vertex>, j: nat, i: nat, now: int)
    requires Closed(c.g) && TopologicalOrder(c.g, l) && j <= i < |l| && Shape(c, s) && PastStamps(c, s) && now >= s.clock
    requires forall x | x in s.poked :: x !in l[..j]
    ensures l[i] in c.g && Shape(c, Turned(c, s, l[i], now)) && l[i] !in Turned(c, s, l[i], now).poked
    ensures forall x | x in Turned(c, s, l[i], now).poked :: x !in l[..j]
    ensures Heeded(c, s) ==> Heeded(c, Turned(c, s, l[i], now))
  {
    hide TopologicalOrder, Closed, MayRun, Heeded, Preds;
    AllBefore(c.g, l, i);
    Prefixes(l, j, i);
    TurnOfItself(c, s, l[i], now);
    if Heeded(c, s) {
      TurnKeepsHeeded(c, s, l[i], now);
    }
  }

  /** After a sweep up to the target and another up to its last prerequisite, both may run. */
  lemma BothMayRun(c: Setting, r: State, t: State, b: State, l: seq<Vertex>, i: nat, j: nat)
    requires Closed(c.g) && TopologicalOrder(c.g, l) && j < i < |l| && Shape(c, r) && Shape(c, t) && Shape(c, b)
    requires PastStamps(c, r) && PastStamps(c, t) && SweptBy(c, r, t, l[..i]) && SweptBy(c, t, b, l[..j])
    ensures l[i] in c.g && MayRun(c.g, b.stamps, l[i]) && l[j] in c.g && MayRun(c.g, b.stamps, l[j])
  {
    hide TopologicalOrder, Closed, Heeded, Succs, Told, Preds;
    NextMayRun(c, t, b, l, j);
    AllBefore(c.g, l, i);
    Prefixes(l, j, i);
    assert forall u | u in Preds(c.g, l[i]) :: b.stamps[u] > r.clock;
  }

  /** The target, and then its last prerequisite, which sees `q` in the way and does not poke it. */
  lemma TargetThenSource(c: Setting, b: State, l: seq<Vertex>, i: nat, j: nat, q: Vertex)
    requires Closed(c.g) && TopologicalOrder(c.g, l) && j < i < |l| && Shape(c, b) && PastStamps(c, b) && Heeded(c, b)
    requires forall x | x in b.poked :: x !in l[..j]
    requires l[i] in c.g && l[j] in c.g && MayRun(c.g, b.stamps, l[j])
    requires q in Preds(c.g, l[i]) && q != l[j]
    ensures var e := Turned(c, b, l[i], b.clock);
      Shape(c, e) && PastStamps(c, e) && MayRun(c.g, e.stamps, l[j]) && e.nodes[l[j]] == b.nodes[l[j]] && e.clock == b.clock
    ensures var s := Turned(c, Turned(c, b, l[i], b.clock), l[j], b.clock + 1);
      && Shape(c, s) && Heeded(c, s) && (forall x | x in s.poked :: x !in l[..j + 1]) && l[i] !in s.poked
      && s.stamps[l[j]] > s.stamps[l[i]]
  {
    hide TopologicalOrder, Closed, MayRun, Turned, Heeded;
    var w, p := l[i], l[j];
    AllBefore(c.g, l, i);
    AllBefore(c.g, l, j);
    Differ(c.g, l, j, i);
    TurnPokesLater(c, b, l, j, i, b.clock);
    var e := Turned(c, b, w, b.clock);
    TurnOfItself(c, b, w, b.clock);
    AfterTurn(c, b, w, b.clock, p);
    AfterTurn(c, b, w, b.clock, q);
    StillPast(c, b, w, b.clock);
    TurnPokesLater(c, e, l, j, j, b.clock + 1);
    TurnOfItself(c, e, p, b.clock + 1);
    AfterTurn(c, e, p, b.clock + 1, w);
    AfterTurn(c, e, p, b.clock + 1, q);
    InTheWay(c, Turned(c, e, p, b.clock + 1).stamps, w, q);
    OneFurther(l, j);
  }

  lemma Differ(g: Adjacency, l: seq<Vertex>, j: nat, i: nat)
    requires TopologicalOrder(g, l) && j < i < |l|
    ensures l[i] != l[j]
  {
  }

  lemma StillPast(c: Setting, s: State, v: Vertex, now: int)
    requires Shape(c, s) && PastStamps(c, s) && v in c.g && now >= s.clock
    ensures var s' := Turned(c, s, v, now); Shape(c, s') && PastStamps(c, s')
  {
  }

  lemma InTheWay(c: Setting, stamps: Stamps, w: Vertex, q: Vertex)
    requires c.g.Keys == stamps.Keys && w in c.g && q in Preds(c.g, w) && stamps[w] >= stamps[q]
    ensures !MayRun(c.g, stamps, w)
  {
    assert q in Bad(c.g, stamps, w);
  }

  /** With two prerequisites, the last one can run once more without its target. */
  lemma RunsAgainAlone(c: Setting, l: seq<Vertex>, i: nat, j: nat, q: Vertex) returns (s: State)
    requires Closed(c.g) && TopologicalOrder(c.g, l) && j < i < |l|
    requires q in Preds(c.g, l[i]) && q != l[j]
    ensures Reaches(c, s) && Heeded(c, s) && (forall x | x in s.poked :: x !in l[..j + 1])
    ensures l[i] in c.g && l[i] !in s.poked && (forall x | x in c.g :: s.nodes[x] == REST)
    ensures l[j] in c.g && s.stamps[l[j]] > s.stamps[l[i]]
  {
    hide Reaches, MayRun, TopologicalOrder, Closed, Preds, Heeded, Told, PastStamps;
    var r := AllRest(c, l);
    ReachedShape(c, r);
    ReachedIsPast(c, r);
    var t := Sweep(c, r, l, i);
    ReachedShape(c, t);
    ReachedIsPast(c, t);
    var b := Sweep(c, t, l, j);
    ReachedShape(c, b);
    ReachedIsPast(c, b);
    BothMayRun(c, r, t, b, l, i, j);
    assert Heeded(c, b) by { NobodyPoked(c, r); }
    SweptLeavesPokes(c, t, b, l, j);
    TargetThenSource(c, b, l, i, j, q);
    Turn(c, b, l[i], b.clock);
    Turn(c, Turned(c, b, l[i], b.clock), l[j], b.clock + 1);
    s := Turned(c, Turned(c, b, l[i], b.clock), l[j], b.clock + 1);
  }

  lemma NobodyPoked(c: Setting, s: State)
    requires Shape(c, s) && s.poked == {}
    ensures Heeded(c, s)
  {
  }

  lemma SweptLeavesPokes(c: Setting, s: State, s': State, l: seq<Vertex>, k: nat)
    requires TopologicalOrder(c.g, l) && k <= |l| && Shape(c, s) && Shape(c, s') && SweptBy(c, s, s', l[..k])
    ensures forall x | x in s'.poked :: x !in l[..k]
  {
    hide MayRun, Heeded, Told;
    WholeOrder(c.g, l);
  }

  lemma TwoPrerequisitesGoStale(c: Setting, w: Vertex, a: Vertex, b: Vertex) returns (p: Vertex, rest: State)
    requires Closed(c.g) && Acyclic(c.g) && w in c.g && a in Preds(c.g, w) && b in Preds(c.g, w) && a != b
    ensures Reaches(c, rest) && AtRest(c, rest)
    ensures HasEdge(c.g, p, w) && p in c.g && rest.stamps[p] > rest.stamps[w]
  {
    hide Reaches, MayRun, TopologicalOrder, Closed, Acyclic, Preds, Heeded;
    var l := AcyclicHasOrder(c.g);
    WholeOrder(c.g, l);
    var i := IndexOf(l, w);
    AllBefore(c.g, l, i);
    var j := LastOf(l, Preds(c.g, w), i);
    p := l[j];
    var s := RunsAgainAlone(c, l, i, j, if a == p then b else a);
    ReachedShape(c, s);
    rest := Settle(c, s, l, j + 1, w);
    ReachedShape(c, rest);
    OneFurther(l, j);
    PredIsEdge(c.g, p, w);
  }

  /* ----- exactly when ----- */

  /** In an acyclic graph, no run ever loses anybody exactly if no vertex that has prerequisites combines a Watch that may
      restart with a rate limit or a retry delay. */
  lemma NobodyLostIff(c: Setting)
    requires Closed(c.g) && Acyclic(c.g)
    ensures (forall s, v | Reaches(c, s) :: !Lost(c, s, v))
       <==> forall v | v in c.g && Preds(c.g, v) != {} :: !MayMute(c, v)
  {
    hide MayRun, Closed, Acyclic, Preds, MayMute, LookedAfter, NextBy, AtRest, IsRun;
    forall s, v | Reaches(c, s) && Lost(c, s, v) ensures MayMute(c, v) && v in c.g && Preds(c.g, v) != {} {
      var run, steps := RunTo(c, s);
      NoPokeIsLost(c, run, steps, |steps|, v);
    }
    forall v | v in c.g && Preds(c.g, v) != {} && MayMute(c, v) ensures exists s :: Reaches(c, s) && Lost(c, s, v) {
      var s, s', rest := MuteIsLost(c, v);
      assert Reaches(c, s') && Lost(c, s', v);
    }
  }

  /** No vertex is older than one of its prerequisites. */
  ghost predicate Fresh(c: Setting, s: State)
    requires Shape(c, s)
  {
    forall u, v | HasEdge(c.g, u, v) && u in c.g && v in c.g :: s.stamps[u] <= s.stamps[v]
  }

  ghost predicate AtMostOnePrerequisite(g: Adjacency, v: Vertex) {
    forall p, q | p in Preds(g, v) && q in Preds(g, v) :: p == q
  }

  ghost predicate AlwaysFreshAtRest(c: Setting) {
    forall s | Reaches(c, s) && AtRest(c, s) :: Fresh(c, s)
  }

  lemma StaleIfMuted(c: Setting, v: Vertex)
    requires Closed(c.g) && Acyclic(c.g) && v in c.g && MayMute(c, v) && Preds(c.g, v) != {}
    ensures !AlwaysFreshAtRest(c)
  {
    hide IsRun, Closed, Acyclic, MayMute, LookedAfter, NextBy, AtRest;
    var s, s', rest := MuteIsLost(c, v);
    var u :| u in Preds(c.g, v);
    assert u !in Bad(c.g, rest.stamps, v);
    assert !Fresh(c, rest);
  }

  lemma StaleIfTwo(c: Setting, v: Vertex)
    requires Closed(c.g) && Acyclic(c.g) && v in c.g && !AtMostOnePrerequisite(c.g, v)
    ensures !AlwaysFreshAtRest(c)
  {
    hide Reaches, Closed, Acyclic, Preds, AtRest;
    var a, b :| a in Preds(c.g, v) && b in Preds(c.g, v) && a != b;
    var p, rest := TwoPrerequisitesGoStale(c, v, a, b);
    ReachedShape(c, rest);
    assert !Fresh(c, rest);
  }

  /** At rest, a vertex with one prerequisite that cannot go mute is no older than it. */
  lemma OneIsFresh(c: Setting, s: State, u: Vertex, v: Vertex)
    requires Reaches(c, s) && Shape(c, s) && AtRest(c, s) && u in c.g && v in c.g && HasEdge(c.g, u, v)
    requires AtMostOnePrerequisite(c.g, v) && !MayMute(c, v)
    ensures s.stamps[u] <= s.stamps[v]
  {
    hide Reaches, AtRest, MayMute, LookedAfter, IsRun;
    assert u in Preds(c.g, v);
    if MayRun(c.g, s.stamps, v) {
      var run, steps := RunTo(c, s);
      NoPokeIsLost(c, run, steps, |steps|, v);
      RestersAreNotLookedAfter(c, s, v);
    } else {
      var p :| p in Bad(c.g, s.stamps, v);
      assert p == u;
    }
  }

  /** In an acyclic graph, every state of rest of every run is up to date exactly if no vertex has two prerequisites and
      none that has one may go mute. */
  lemma FreshIff(c: Setting)
    requires Closed(c.g) && Acyclic(c.g)
    ensures AlwaysFreshAtRest(c)
       <==> forall v | v in c.g :: AtMostOnePrerequisite(c.g, v) && (Preds(c.g, v) != {} ==> !MayMute(c, v))
  {
    hide IsRun, Closed, Acyclic, MayMute, AtRest, Preds, AtMostOnePrerequisite;
    forall v | v in c.g && !(AtMostOnePrerequisite(c.g, v) && (Preds(c.g, v) != {} ==> !MayMute(c, v)))
      ensures !AlwaysFreshAtRest(c)
    {
      if !AtMostOnePrerequisite(c.g, v) {
        StaleIfTwo(c, v);
      } else {
        StaleIfMuted(c, v);
      }
    }
    if forall v | v in c.g :: AtMostOnePrerequisite(c.g, v) && (Preds(c.g, v) != {} ==> !MayMute(c, v)) {
      forall s | Reaches(c, s) && AtRest(c, s) ensures Fresh(c, s) {
        forall u, v | HasEdge(c.g, u, v) && u in c.g && v in c.g ensures s.stamps[u] <= s.stamps[v] {
          IsPred(c.g, u, v);
          OneIsFresh(c, s, u, v);
        }
      }
    }
  }

  lemma IsPred(g: Adjacency, u: Vertex, v: Vertex)
    requires HasEdge(g, u, v)
    ensures u in Preds(g, v)
  {
  }
}
