/** What runs of Process and dirtying events keep, over any history of them on one graph: no dirty mark and no pending
    refresh goes away unless somebody acted on it. */
module ProcessLaws {
  import opened Vertices
  import opened Digraphs
  import opened Timestamps
  import opened Process

  datatype Happening =
    | Event(v: Vertex)
    | Ran(v: Vertex, res: Resource, a: Answers, interrupted: bool, err: Option<Failure>, ran: bool)

  /** What stays the same during a history. */
  datatype Setting = Setting(g: Adjacency, notify: set<Edge>, fastPause: bool)

  ghost predicate Fits(c: Setting, s: View) {
    c.g.Keys == s.stamps.Keys
  }

  ghost predicate Happens(c: Setting, before: View, after: View, h: Happening)
    requires Fits(c, before)
  {
    && h.v in c.g
    && match h
       case Event(v) => after == before.(clean := before.clean - {v})
       case Ran(v, res, a, interrupted, err, ran) =>
         if interrupted then after == before
         else if !MayRun(c.g, before.stamps, v) then
           after == before.(poked := before.poked + Bad(c.g, before.stamps, v)) && err == Some(BackPoke) && !ran
         else RunOf(c.g, c.notify, c.fastPause, before, after, v, res, a, err, ran)
  }

  ghost predicate IsHistory(c: Setting, views: seq<View>, hs: seq<Happening>) {
    && |views| == |hs| + 1
    && (forall i | 0 <= i < |views| :: Fits(c, views[i]))
    && forall i | 0 <= i < |hs| :: Happens(c, views[i], views[i + 1], hs[i])
  }

  /** A run to the end without error that was allowed to change things. */
  predicate ActedOn(h: Happening, v: Vertex) {
    h.Ran? && h.v == v && !h.interrupted && h.err == None && !h.res.noop
  }

  lemma CleanStep(c: Setting, before: View, after: View, h: Happening, v: Vertex)
    requires Fits(c, before) && Happens(c, before, after, h) && v !in before.clean && v in after.clean
    ensures ActedOn(h, v) && (h.ran || h.res.hidden)
  {
    hide MayRun, Pending, Changed, Ready;
  }

  /** A dirty resource becomes clean only through a run in which CheckApply was called and succeeded; only a hidden
      resource gets by without the call. */
  lemma {:induction false} DirtyIsChecked(c: Setting, views: seq<View>, hs: seq<Happening>, i: nat, j: nat, v: Vertex)
    requires IsHistory(c, views, hs) && i < j < |views| && v !in views[i].clean && v in views[j].clean
    ensures exists k :: i <= k < j && ActedOn(hs[k], v) && (hs[k].ran || hs[k].res.hidden)
    decreases j - i
  {
    hide Happens, ActedOn;
    if v in views[i + 1].clean {
      CleanStep(c, views[i], views[i + 1], hs[i], v);
    } else {
      DirtyIsChecked(c, views, hs, i + 1, j, v);
    }
  }

  lemma RefreshStep(c: Setting, before: View, after: View, h: Happening, e: Edge)
    requires Fits(c, before) && Happens(c, before, after, h) && e in before.refresh && e !in after.refresh
    ensures e in EdgesInto(c.g, h.v) * c.notify && ActedOn(h, h.v)
    ensures h.res.refreshable && !h.res.hidden ==> h.ran
  {
    hide MayRun, Changed, Ready, Dirtied, Applied, AllValid, EdgesInto;
    if ActedOn(h, h.v) && e in EdgesInto(c.g, h.v) * c.notify {
      assert e in EdgesInto(c.g, h.v) * c.notify * before.refresh;
    }
  }

  /** A pending refresh is withdrawn only by a vertex the edge points at, in a run without error that was not a noop and
      that called CheckApply if the resource knows refreshes and is not hidden. */
  lemma {:induction false} RefreshIsActedOn(c: Setting, views: seq<View>, hs: seq<Happening>, i: nat, j: nat, e: Edge)
    requires IsHistory(c, views, hs) && i < j < |views| && e in views[i].refresh && e !in views[j].refresh
    ensures exists k {:trigger hs[k]} :: i <= k < j && e in EdgesInto(c.g, hs[k].v) && ActedOn(hs[k], hs[k].v)
                  && (hs[k].res.refreshable && !hs[k].res.hidden ==> hs[k].ran)
    decreases j - i
  {
    hide Happens, ActedOn, EdgesInto;
    if e in views[i + 1].refresh {
      RefreshIsActedOn(c, views, hs, i + 1, j, e);
    } else {
      RefreshStep(c, views[i], views[i + 1], hs[i], e);
    }
  }

  /** So whatever a resource changes reaches each successor that asked to be told: until that one has acted on it, the
      edge keeps the refresh.  The edge object must label no other pair; a vertex at the end of another edge with the
      same object would take the refresh away. */
  lemma ChangeReachesSubscribers(c: Setting, views: seq<View>, hs: seq<Happening>, i: nat, j: nat, u: Vertex, v: Vertex)
    requires IsHistory(c, views, hs) && i < j < |views| && HasEdge(c.g, u, v) && v in c.g && c.g[u][v] in c.notify
    requires forall x, y | HasEdge(c.g, x, y) && c.g[x][y] == c.g[u][v] :: x == u && y == v
    requires ActedOn(hs[i], u) && hs[i].ran && !hs[i].a.checkOk
    ensures c.g[u][v] in views[j].refresh
         || exists k :: i < k < j && ActedOn(hs[k], v) && (hs[k].res.refreshable && !hs[k].res.hidden ==> hs[k].ran)
  {
    hide ActedOn;
    var e := c.g[u][v];
    assert e in views[i + 1].refresh by {
      assert Happens(c, views[i], views[i + 1], hs[i]);
      ChangeIsAnnounced(c, views[i], views[i + 1], hs[i], u, v);
    }
    if e !in views[j].refresh {
      RefreshIsActedOn(c, views, hs, i + 1, j, e);
    }
  }

  lemma ChangeIsAnnounced(c: Setting, before: View, after: View, h: Happening, u: Vertex, v: Vertex)
    requires Fits(c, before) && Happens(c, before, after, h) && HasEdge(c.g, u, v) && v in c.g && c.g[u][v] in c.notify
    requires ActedOn(h, u) && h.ran && !h.a.checkOk
    ensures c.g[u][v] in after.refresh
  {
    hide MayRun, Ready, Dirtied, Applied, AllValid, EdgesInto, Pending;
    assert c.g[u][v] in EdgesFrom(c.g, u);
  }

  /* ----- what one run does, in the terms of the graph ----- */

  /** Some vertex that asks to be told has a notification pending for `v`. */
  ghost predicate Notified(c: Setting, s: View, v: Vertex) {
    exists u :: HasEdge(c.g, u, v) && c.g[u][v] in c.notify && c.g[u][v] in s.refresh
  }

  /** Sendrecv changed a value of `x`, or one that a vertex without a state received on behalf of the running `v`. */
  ghost predicate ReceivedChange(c: Setting, updates: seq<Update>, v: Vertex, x: Vertex) {
    exists u :: u in updates && u.changed && (if u.receiver in c.g then u.receiver == x else x == v)
  }

  /** The run got as far as deciding about CheckApply. */
  predicate Decided(h: Happening) {
    h.Ran? && !h.interrupted && h.err !in {Some(BackPoke), Some(SemaphoresClosed), Some(SendRecvFailed), Some(Invalid)}
  }

  lemma ReceivedIsDirtied(c: Setting, updates: seq<Update>, v: Vertex, x: Vertex)
    ensures x in Dirtied(c.g.Keys, v, updates) <==> ReceivedChange(c, updates, v, x)
  {
  }

  lemma NotifiedIsPending(c: Setting, s: View, v: Vertex)
    ensures Pending(c.g, c.notify, s, v) <==> Notified(c, s, v)
  {
    if Notified(c, s, v) {
      var u :| HasEdge(c.g, u, v) && c.g[u][v] in c.notify && c.g[u][v] in s.refresh;
      assert c.g[u][v] in EdgesInto(c.g, v) * c.notify * s.refresh;
    }
  }

  /** After sendrecv, and before the decision. */
  function Received(c: Setting, before: View, v: Vertex, updates: seq<Update>): View {
    before.(clean := before.clean - Dirtied(c.g.Keys, v, updates))
  }

  lemma DecidedRun(c: Setting, before: View, after: View, h: Happening)
    requires Fits(c, before) && Happens(c, before, after, h) && Decided(h)
    ensures h.v in c.g && MayRun(c.g, before.stamps, h.v)
    ensures var received := Received(c, before, h.v, h.a.updates);
      && (h.ran <==> Runs(c.g, c.notify, received, h.v, h.res))
      && (h.err.Some? <==> (h.ran && h.a.checkFails) || h.a.exportFails)
      && (h.err == Some(Misreported) <==> h.err.Some? && !Changed(c.g, c.notify, received, h.v, h.res, h.a))
      && after == if h.err.Some? then received
                  else Succeeded(c.g, c.notify, c.fastPause, received, h.v, h.res, h.a)
  {
    hide Runs, Changed, Succeeded, MayRun, Bad, Dirtied;
    AppliedAll(before.stamps.Keys, h.a.updates) by {
      assert AllValid(before.stamps.Keys, h.a.updates);
    }
  }

  /** CheckApply is called exactly on a resource that is not hidden and that either has a refresh to act on, and may, or has
      none and is dirty. */
  lemma CheckApplyIff(c: Setting, before: View, after: View, h: Happening)
    requires Fits(c, before) && Happens(c, before, after, h) && Decided(h)
    ensures h.ran <==> !h.res.hidden && if Notified(c, before, h.v) && h.res.refreshable then !h.res.noop
                                        else h.v !in before.clean || ReceivedChange(c, h.a.updates, h.v, h.v)
  {
    hide Changed, Succeeded, MayRun, Bad, Dirtied, Happens, Notified, Pending;
    DecidedRun(c, before, after, h);
    ReceivedIsDirtied(c, h.a.updates, h.v, h.v);
    var received := Received(c, before, h.v, h.a.updates);
    NotifiedIsPending(c, received, h.v);
    SameNotified(c, before, received, h.v);
  }

  lemma SameNotified(c: Setting, s: View, t: View, v: Vertex)
    requires s.refresh == t.refresh
    ensures Notified(c, s, v) <==> Notified(c, t, v)
  {
  }

  /** Whether a decided run found something to change. */
  ghost predicate FoundSomething(c: Setting, before: View, h: Happening)
    requires h.Ran?
  {
    || !h.a.exportOk || (h.ran && !h.a.checkOk)
    || (!h.ran && h.res.noop && h.res.refreshable && Notified(c, before, h.v))
  }

  lemma FoundIsChanged(c: Setting, before: View, after: View, h: Happening)
    requires Fits(c, before) && Happens(c, before, after, h) && Decided(h)
    ensures Changed(c.g, c.notify, Received(c, before, h.v, h.a.updates), h.v, h.res, h.a) <==> FoundSomething(c, before, h)
  {
    hide Succeeded, MayRun, Bad, Dirtied, Happens, Notified, Pending, Runs;
    DecidedRun(c, before, after, h);
    var received := Received(c, before, h.v, h.a.updates);
    NotifiedIsPending(c, received, h.v);
    SameNotified(c, before, received, h.v);
    ActingNoopIsNotRun(c, received, h.v, h.res);
  }

  lemma ActingNoopIsNotRun(c: Setting, s: View, v: Vertex, res: Resource)
    ensures Pending(c.g, c.notify, s, v) && res.refreshable && res.noop ==> !Runs(c.g, c.notify, s, v, res)
  {
  }

  /** A completion stamps the vertex and pokes, unless pauses are to be fast, exactly those of its successors all of whose
      prerequisites are newer than they are. */
  lemma CompletionPokes(c: Setting, before: View, after: View, h: Happening, u: Vertex)
    requires Fits(c, before) && Happens(c, before, after, h) && h.Ran? && !h.interrupted && h.err == None
    ensures after.stamps == before.stamps[h.v := h.a.now] && after.stamps.Keys == c.g.Keys
    ensures u in after.poked <==>
      || u in before.poked
      || (!c.fastPause && u in c.g && HasEdge(c.g, h.v, u)
          && forall p | HasEdge(c.g, p, u) :: after.stamps[u] < after.stamps[p])
  {
    hide Runs, Changed, Pending, EdgesInto, EdgesFrom, Dirtied, Happens;
    DecidedRun(c, before, after, h);
    ReadyMeans(c.g, after.stamps, h.v, u);
  }

  /** A refusal pokes exactly the prerequisites that are not newer; any other failure pokes nobody; and neither stamps or
      touches a notification. */
  lemma FailurePokes(c: Setting, before: View, after: View, h: Happening, u: Vertex)
    requires Fits(c, before) && Happens(c, before, after, h) && h.Ran? && !h.interrupted && h.err.Some?
    ensures after.stamps == before.stamps && after.refresh == before.refresh
    ensures h.err == Some(BackPoke) <==> exists p :: HasEdge(c.g, p, h.v) && before.stamps[h.v] >= before.stamps[p]
    ensures u in after.poked <==>
      u in before.poked || (h.err == Some(BackPoke) && HasEdge(c.g, u, h.v) && before.stamps[h.v] >= before.stamps[u])
  {
    hide Runs, Changed, Succeeded, Pending, EdgesInto, EdgesFrom, Dirtied, Applied, AllValid;
    NewerIsAllowed(c.g, before.stamps, h.v);
  }

  /** A completion leaves a resource clean that was so and received nothing, and its own unless it only looked. */
  lemma CompletionCleans(c: Setting, before: View, after: View, h: Happening, x: Vertex)
    requires Fits(c, before) && Happens(c, before, after, h) && h.Ran? && !h.interrupted && h.err == None
    ensures x in after.clean <==>
      (x in before.clean && !ReceivedChange(c, h.a.updates, h.v, x)) || (x == h.v && !h.res.noop)
  {
    hide Runs, Changed, Pending, EdgesInto, EdgesFrom, Dirtied, Happens, Ready, MayRun;
    DecidedRun(c, before, after, h);
    ReceivedIsDirtied(c, h.a.updates, h.v, x);
  }

  /** A completion that was allowed to change things takes down what was pending for the vertex, and announces to its
      successors if it found something; one that only looked leaves the notifications alone. */
  lemma CompletionNotifies(c: Setting, before: View, after: View, h: Happening, e: Edge)
    requires Fits(c, before) && Happens(c, before, after, h) && h.Ran? && !h.interrupted && h.err == None
    ensures h.res.noop ==> after.refresh == before.refresh
    ensures !h.res.noop ==>
      (e in after.refresh <==>
        || (FoundSomething(c, before, h) && e in c.notify && exists u :: u in c.g && HasEdge(c.g, h.v, u) && c.g[h.v][u] == e)
        || (e in before.refresh && !(e in c.notify && exists u :: HasEdge(c.g, u, h.v) && c.g[u][h.v] == e)))
  {
    hide Runs, Changed, Dirtied, Happens, Ready, MayRun, FoundSomething;
    DecidedRun(c, before, after, h);
    FoundIsChanged(c, before, after, h);
    EdgesAround(c.g, h.v, e);
    if e in EdgesInto(c.g, h.v) * c.notify && e in before.refresh {
      assert e in EdgesInto(c.g, h.v) * c.notify * before.refresh;
    }
  }

  lemma EdgesAround(g: Adjacency, v: Vertex, e: Edge)
    ensures e in EdgesInto(g, v) <==> exists u :: HasEdge(g, u, v) && g[u][v] == e
    ensures e in EdgesFrom(g, v) <==> exists u :: u in g && HasEdge(g, v, u) && g[v][u] == e
  {
  }

  /** Every value received before the `i`th validates. */
  predicate ValidBefore(known: set<Vertex>, updates: seq<Update>, i: nat)
    requires i <= |updates|
  {
    forall j | 0 <= j < i && updates[j].receiver in known :: updates[j].validates
  }

  lemma {:induction false} AppliedIsUpToFirst(known: set<Vertex>, updates: seq<Update>, i: nat)
    requires i < |updates|
    ensures i < |Applied(known, updates)| <==> ValidBefore(known, updates, i)
  {
    if i > 0 && (updates[0].receiver in known ==> updates[0].validates) {
      AppliedIsUpToFirst(known, updates[1..], i - 1);
      assert forall j | 0 <= j < i - 1 :: updates[1..][j] == updates[j + 1];
      assert forall j | 0 < j < i :: updates[j] == updates[1..][j - 1];
    }
  }

  /** Where a received value does not validate, the values up to that one have dirtied their receivers, and nothing else
      has changed. */
  lemma InvalidStopsReceiving(c: Setting, before: View, after: View, h: Happening, x: Vertex)
    requires Fits(c, before) && Happens(c, before, after, h) && h.Ran? && !h.interrupted && h.err == Some(Invalid)
    ensures after == before.(clean := after.clean) && !h.ran
    ensures x in after.clean <==> x in before.clean && !exists i ::
      && 0 <= i < |h.a.updates| && h.a.updates[i].changed
      && (if h.a.updates[i].receiver in c.g then h.a.updates[i].receiver == x else x == h.v)
      && ValidBefore(c.g.Keys, h.a.updates, i)
  {
    hide Runs, Changed, Succeeded, MayRun, Applied, AllValid;
    var updates, r := h.a.updates, Applied(c.g.Keys, h.a.updates);
    forall i: nat | i < |updates|
      ensures i < |r| <==> ValidBefore(c.g.Keys, updates, i)
    {
      AppliedIsUpToFirst(c.g.Keys, updates, i);
    }
    ReceivedIsDirtied(c, r, h.v, x);
    if ReceivedChange(c, r, h.v, x) {
      var u :| u in r && u.changed && (if u.receiver in c.g then u.receiver == x else x == h.v);
      var i :| 0 <= i < |r| && r[i] == u;
      assert updates[i] == u;
    }
    if i :| 0 <= i < |updates| && updates[i].changed && i < |r|
            && (if updates[i].receiver in c.g then updates[i].receiver == x else x == h.v) {
      assert r[i] == updates[i] && updates[i] in r;
    }
  }
}
