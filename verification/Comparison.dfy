/** GraphCmp: whether two graphs have the same topology under user defined comparisons. */
module Comparison {
  import opened Vertices
  import opened Digraphs
  import opened PointerGraph
  import opened Sorts
  import opened Synchronize
  import opened SyncLaws

  /** The edge on the other side may be missing; the comparison is asked all the same. */
  type PartnerCmp = (Edge, Option<Edge>) -> Cmp

  datatype CmpError =
    | OneIsNil
    | VertexCount
    | EdgeCount
    | VertexCmpError
    | NoMatch
    | MappingLength
    | MappedTwice
    | OutDegreeDiffers
    | EdgeCmpError
    | EdgeDiffers

  function FindEdge(a: Adjacency, u: Vertex, v: Vertex): Option<Edge> {
    if HasEdge(a, u, v) then Some(a[u][v]) else None
  }

  /** `m` sends each vertex of `a` to one of `b` that compares equal, no two to the same one, with as many
      outgoing edges, each comparing equal to what is found at its image. */
  ghost predicate Corresponds(a: Adjacency, b: Adjacency, vcmp: VertexCmp, ecmp: PartnerCmp, m: map<Vertex, Vertex>) {
    && m.Keys == a.Keys && m.Values <= b.Keys && |a| == |b|
    && Injective(m)
    && (forall v | v in m :: vcmp(v, m[v]) == Same)
    && EdgesMatch(a, b, ecmp, m, a.Keys)
  }

  ghost predicate EdgesMatch(a: Adjacency, b: Adjacency, ecmp: PartnerCmp, m: map<Vertex, Vertex>, done: set<Vertex>) {
    && (forall u | u in done && u in a && u in m && m[u] in b :: |a[u]| == |b[m[u]]|)
    && (forall u, v | u in done && HasEdge(a, u, v) && u in m && v in m :: ecmp(a[u][v], FindEdge(b, m[u], m[v])) == Same)
  }

  ghost predicate AllDecided(a: Adjacency, b: Adjacency, vcmp: VertexCmp) {
    forall v, w | v in a && w in b :: vcmp(v, w) != Failed
  }

  /** `m` is the only way to pair up the vertices. */
  ghost predicate OnlyPartners(a: Adjacency, b: Adjacency, vcmp: VertexCmp, m: map<Vertex, Vertex>) {
    forall v, w | v in a && v in m && w in b && vcmp(v, w) == Same :: w == m[v]
  }

  /** Two graphs that correspond in the only possible way must be found equal. */
  ghost predicate MustBeEqual(a: Adjacency, b: Adjacency, vcmp: VertexCmp, ecmp: PartnerCmp, m: map<Vertex, Vertex>) {
    Corresponds(a, b, vcmp, ecmp, m) && OnlyPartners(a, b, vcmp, m) && AllDecided(a, b, vcmp)
  }

  /** For each vertex, the first equal one among those with the same string, and failing that among all. */
  method FindPartners(a: Adjacency, b: Adjacency, vcmp: VertexCmp) returns (err: Option<CmpError>, m: map<Vertex, Vertex>)
    ensures err == None ==> m.Keys == a.Keys && m.Values <= b.Keys && forall v | v in m :: vcmp(v, m[v]) == Same
    ensures err.Some? ==> err.value in {VertexCmpError, NoMatch}
    ensures err == Some(VertexCmpError) ==> !AllDecided(a, b, vcmp)
    ensures err == Some(NoMatch) ==> exists v :: v in a && forall w | w in b :: vcmp(v, w) == Different
  {
    m := map[];
    var rest := a.Keys;
    while rest != {}
      invariant rest <= a.Keys && m.Keys == a.Keys - rest && m.Values <= b.Keys
      invariant forall v | v in m :: vcmp(v, m[v]) == Same
    {
      var v :| v in rest;
      var failed, partner := Probe(v, (set w | w in b && w.name == v.name), vcmp);
      if failed { return Some(VertexCmpError), m; }
      if partner == None {
        failed, partner := Probe(v, b.Keys, vcmp);
        if failed { return Some(VertexCmpError), m; }
        if partner == None { return Some(NoMatch), m; }
      }
      m := m[v := partner.value];
      rest := rest - {v};
    }
    err := None;
  }

  method Probe(v: Vertex, candidates: set<Vertex>, vcmp: VertexCmp) returns (failed: bool, partner: Option<Vertex>)
    ensures failed ==> exists w :: w in candidates && vcmp(v, w) == Failed
    ensures !failed && partner.Some? ==> partner.value in candidates && vcmp(v, partner.value) == Same
    ensures !failed && partner == None ==> forall w | w in candidates :: vcmp(v, w) == Different
  {
    var rest := candidates;
    while rest != {}
      invariant rest <= candidates
      invariant forall w | w in candidates && w !in rest :: vcmp(v, w) == Different
    {
      var w :| w in rest;
      match vcmp(v, w)
      case Failed => return true, None;
      case Same => return false, Some(w);
      case Different => rest := rest - {w};
    }
    return false, None;
  }

  /** Whether no two keys of the mapping share a value. */
  method CheckUnique(m: map<Vertex, Vertex>) returns (unique: bool)
    ensures unique <==> Injective(m)
  {
    var seen: map<Vertex, Vertex>, rest := map[], m.Keys;
    while rest != {}
      invariant rest <= m.Keys
      invariant forall x :: x in seen <==> exists k :: k in m && k !in rest && m[k] == x
      invariant forall u, v | u in m && v in m && u !in rest && v !in rest && m[u] == m[v] :: u == v
    {
      var k :| k in rest;
      if m[k] in seen {
        var j :| j in m && j !in rest && m[j] == m[k];
        assert j != k;
        return false;
      }
      seen := seen[m[k] := k];
      rest := rest - {k};
    }
    unique := true;
  }

  method CheckEdges(a: Adjacency, b: Adjacency, m: map<Vertex, Vertex>, ecmp: PartnerCmp) returns (err: Option<CmpError>)
    requires Closed(a) && m.Keys == a.Keys && m.Values <= b.Keys
    ensures err == None <==> EdgesMatch(a, b, ecmp, m, a.Keys)
  {
    var rows := a.Keys;
    while rows != {}
      invariant rows <= a.Keys && EdgesMatch(a, b, ecmp, m, a.Keys - rows)
    {
      var u :| u in rows;
      assert m[u] in m.Values;
      if |a[u]| != |b[m[u]]| { return Some(OutDegreeDiffers); }
      var rest := a[u].Keys;
      while rest != {}
        invariant rest <= a[u].Keys
        invariant forall v | v in a[u] && v !in rest :: v in m && ecmp(a[u][v], FindEdge(b, m[u], m[v])) == Same
      {
        var v :| v in rest;
        assert HasEdge(a, u, v);
        match ecmp(a[u][v], FindEdge(b, m[u], m[v]))
        case Failed => return Some(EdgeCmpError);
        case Different => return Some(EdgeDiffers);
        case Same => rest := rest - {v};
      }
      rows := rows - {u};
    }
    assert a.Keys - rows == a.Keys;
    err := None;
  }

  /** Nil means a real correspondence was found, and one that is forced is never missed. */
  method GraphCmp(obj: Graph?, graph: Graph?, vcmp: VertexCmp, ecmp: PartnerCmp)
    returns (err: Option<CmpError>, m: map<Vertex, Vertex>)
    requires obj != null ==> obj.Valid()
    ensures obj == null || graph == null ==> (err == None <==> obj == graph)
    ensures obj != null && graph != null && err == None ==> Corresponds(obj.adjacency, graph.adjacency, vcmp, ecmp, m)
    ensures obj != null && graph != null && (exists h :: MustBeEqual(obj.adjacency, graph.adjacency, vcmp, ecmp, h)) ==>
      err == None
  {
    hide MustBeEqual, Corresponds, EdgesMatch, Injective, Transposed, Closed;
    m := map[];
    if graph == null || obj == null {
      if graph != obj { return Some(OneIsNil), m; }
      return None, m;
    }
    var a, b := obj.adjacency, graph.adjacency;
    TransposedIsClosed(a, obj.revadjmap);
    Necessary(a, b, vcmp, ecmp);
    var n1, n2 := |a|, |b|;
    if n1 != n2 { return Some(VertexCount), m; }
    var e1 := obj.NumEdges();
    var e2 := graph.NumEdges();
    if e1 != e2 { return Some(EdgeCount), m; }
    err, m := FindPartners(a, b, vcmp);
    if err.Some? { return; }
    SizesAgree(m);
    if |m| != n2 { return Some(MappingLength), m; }
    Sufficient(a, b, vcmp, ecmp, m);
    var unique := CheckUnique(m);
    if !unique { return Some(MappedTwice), m; }
    err := CheckEdges(a, b, m, ecmp);
  }

  lemma SizesAgree(m: map<Vertex, Vertex>)
    ensures |m| == |m.Keys|
  {
  }

  /** What a forced correspondence rules out before the mapping is even built. */
  lemma Necessary(a: Adjacency, b: Adjacency, vcmp: VertexCmp, ecmp: PartnerCmp)
    ensures (exists h :: MustBeEqual(a, b, vcmp, ecmp, h)) ==>
      && |a| == |b| && |Pairs(a)| == |Pairs(b)| && AllDecided(a, b, vcmp)
      && forall v | v in a :: exists w :: w in b && vcmp(v, w) == Same
  {
    hide EdgesMatch, Injective;
    if h :| MustBeEqual(a, b, vcmp, ecmp, h) {
      EdgeCountsAgree(a, b, vcmp, ecmp, h);
      forall v | v in a ensures exists w :: w in b && vcmp(v, w) == Same {
        assert h[v] in h.Values;
      }
    }
  }

  /** A forced correspondence is the mapping that was built. */
  lemma Sufficient(a: Adjacency, b: Adjacency, vcmp: VertexCmp, ecmp: PartnerCmp, m: map<Vertex, Vertex>)
    requires m.Keys == a.Keys && m.Values <= b.Keys && |a| == |b| && forall v | v in m :: vcmp(v, m[v]) == Same
    ensures (exists h :: MustBeEqual(a, b, vcmp, ecmp, h)) ==> Injective(m) && EdgesMatch(a, b, ecmp, m, a.Keys)
    ensures Injective(m) && EdgesMatch(a, b, ecmp, m, a.Keys) ==> Corresponds(a, b, vcmp, ecmp, m)
  {
    hide EdgesMatch, Injective;
    if h :| MustBeEqual(a, b, vcmp, ecmp, h) {
      forall v | v in m ensures h[v] == m[v] {
        assert m[v] in m.Values;
      }
      assert h == m;
    }
  }

  ghost function PairsFrom(a: Adjacency, s: set<Vertex>): set<(Vertex, Vertex)> {
    set u, v | u in a && u in s && v in a[u] :: (u, v)
  }

  ghost function Image(m: map<Vertex, Vertex>, s: set<Vertex>): set<Vertex>
    requires s <= m.Keys
  {
    set x | x in s :: m[x]
  }

  lemma ImageOneMore(m: map<Vertex, Vertex>, s: set<Vertex>, u: Vertex)
    requires Injective(m) && s <= m.Keys && u in m && u !in s
    ensures Image(m, s + {u}) == Image(m, s) + {m[u]} && m[u] !in Image(m, s)
  {
  }

  lemma {:induction false} RowsAgree(a: Adjacency, b: Adjacency, m: map<Vertex, Vertex>, s: set<Vertex>)
    requires Injective(m) && s <= m.Keys && m.Keys == a.Keys && m.Values <= b.Keys
    requires forall u | u in m && m[u] in b :: |a[u]| == |b[m[u]]|
    ensures |PairsFrom(a, s)| == |PairsFrom(b, Image(m, s))|
    decreases |s|
  {
    hide Injective, Image, PairsFrom;
    if s != {} {
      var u :| u in s;
      var rest := s - {u};
      RowsAgree(a, b, m, rest);
      assert m[u] in m.Values;
      assert s == rest + {u};
      ImageOneMore(m, rest, u);
      OneMoreRow(a, rest, u);
      OneMoreRow(b, Image(m, rest), m[u]);
    } else {
      NoRows(a, b, m);
    }
  }

  lemma NoRows(a: Adjacency, b: Adjacency, m: map<Vertex, Vertex>)
    ensures PairsFrom(a, {}) == {} && PairsFrom(b, Image(m, {})) == {}
  {
  }

  lemma OneMoreRow(a: Adjacency, s: set<Vertex>, u: Vertex)
    requires u in a && u !in s
    ensures |PairsFrom(a, s + {u})| == |PairsFrom(a, s)| + |a[u]|
  {
    var row := set v | v in a[u].Keys :: (u, v);
    RowSize(u, a[u].Keys);
    assert PairsFrom(a, s + {u}) == PairsFrom(a, s) + row;
  }

  /** Corresponding graphs have the same number of edges, so the early count never rejects them. */
  lemma EdgeCountsAgree(a: Adjacency, b: Adjacency, vcmp: VertexCmp, ecmp: PartnerCmp, h: map<Vertex, Vertex>)
    requires Corresponds(a, b, vcmp, ecmp, h)
    ensures |Pairs(a)| == |Pairs(b)|
  {
    CoversAll(b, h) by { assert |h.Keys| == |b.Keys|; }
    RowsAgree(a, b, h, h.Keys);
    assert Image(h, h.Keys) == h.Values;
    assert PairsFrom(a, a.Keys) == Pairs(a) && PairsFrom(b, b.Keys) == Pairs(b);
  }

  /* ----- what nil means ----- */

  ghost predicate NeverAcceptsMissing(ecmp: PartnerCmp) {
    forall e :: ecmp(e, None) != Same
  }

  /** `a` and `b` are isomorphic by `m`, and each edge compares equal to its image. */
  ghost predicate EqualUpTo(a: Adjacency, b: Adjacency, ecmp: PartnerCmp, m: map<Vertex, Vertex>) {
    Isomorphism(a, b, m) && forall u, v | u in m && v in m && HasEdge(a, u, v) && HasEdge(b, m[u], m[v]) ::
      ecmp(a[u][v], Some(b[m[u]][m[v]])) == Same
  }

  /** Equal graphs are isomorphic, edge for edge: equal out-degrees leave no room for an extra edge. */
  lemma EqualIsIsomorphic(a: Adjacency, b: Adjacency, vcmp: VertexCmp, ecmp: PartnerCmp, m: map<Vertex, Vertex>)
    requires Closed(a) && Corresponds(a, b, vcmp, ecmp, m) && NeverAcceptsMissing(ecmp)
    ensures EqualUpTo(a, b, ecmp, m)
  {
    CoversAll(b, m) by { assert |m.Keys| == |b.Keys|; }
    forall u, v | HasEdge(a, u, v) ensures v in m && HasEdge(b, m[u], m[v]) {
      assert v in a;
      assert ecmp(a[u][v], FindEdge(b, m[u], m[v])) == Same;
    }
    forall u, v | u in m && v in m && HasEdge(b, m[u], m[v]) ensures HasEdge(a, u, v) {
      NoExtraEdge(a, b, m, u, v);
    }
  }

  /** And isomorphic graphs whose edges compare equal are found equal, when the comparison is an equivalence that tells
      the vertices of the second graph apart. */
  lemma IsomorphicMustBeEqual(a: Adjacency, b: Adjacency, vcmp: VertexCmp, ecmp: PartnerCmp, m: map<Vertex, Vertex>)
    requires Closed(a) && Closed(b) && EqualUpTo(a, b, ecmp, m) && AllDecided(a, b, vcmp)
    requires forall v | v in m :: vcmp(v, m[v]) == Same
    requires EquivalenceOn(vcmp, a.Keys + b.Keys) && Inequivalent(vcmp, b.Keys)
    ensures MustBeEqual(a, b, vcmp, ecmp, m)
  {
    hide Acyclic, Closed, EdgesMatch, OnlyPartners, AllDecided, EquivalenceOn, Inequivalent, Injective;
    IsomorphismMaps(a, b, m);
    EqualEdgesMatch(a, b, ecmp, m);
    InequivalentPartners(a, b, vcmp, m);
  }

  lemma EqualEdgesMatch(a: Adjacency, b: Adjacency, ecmp: PartnerCmp, m: map<Vertex, Vertex>)
    requires Closed(a) && Closed(b) && EqualUpTo(a, b, ecmp, m)
    ensures EdgesMatch(a, b, ecmp, m, a.Keys)
  {
    hide Acyclic, Closed;
    forall u | u in a && m[u] in b ensures |a[u]| == |b[m[u]]| {
      RowSizes(a, b, m, u);
    }
    forall u, v | HasEdge(a, u, v) && u in m && v in m ensures ecmp(a[u][v], FindEdge(b, m[u], m[v])) == Same {
      assert HasEdge(b, m[u], m[v]);
    }
  }

  lemma InequivalentPartners(a: Adjacency, b: Adjacency, vcmp: VertexCmp, m: map<Vertex, Vertex>)
    requires m.Keys == a.Keys && m.Values == b.Keys && forall v | v in m :: vcmp(v, m[v]) == Same
    requires EquivalenceOn(vcmp, a.Keys + b.Keys) && Inequivalent(vcmp, b.Keys)
    ensures OnlyPartners(a, b, vcmp, m)
  {
    forall v, w | v in a && v in m && w in b && vcmp(v, w) == Same ensures w == m[v] {
      assert m[v] in m.Values;
      assert vcmp(w, v) == Same && vcmp(v, m[v]) == Same;
      assert vcmp(w, m[v]) == Same;
    }
  }

  lemma CoversAll(b: Adjacency, m: map<Vertex, Vertex>)
    requires Injective(m) && m.Values <= b.Keys && |m.Keys| == |b.Keys|
    ensures m.Values == b.Keys
  {
    InjectiveImageSize(m, m.Keys);
    assert Image(m, m.Keys) == m.Values;
    SubsetSize(m.Values, b.Keys);
  }

  lemma NoExtraEdge(a: Adjacency, b: Adjacency, m: map<Vertex, Vertex>, u: Vertex, v: Vertex)
    requires Injective(m) && u in m && v in m && u in a && HasEdge(b, m[u], m[v]) && |a[u]| == |b[m[u]]|
    requires forall w | w in a[u] :: w in m && HasEdge(b, m[u], m[w])
    ensures HasEdge(a, u, v)
  {
    RowIsFull(a, b, m, u);
    assert m[v] in b[m[u]].Keys;
    var w :| w in a[u].Keys && m[w] == m[v];
    SameImage(m, w, v);
  }

  lemma SameImage(m: map<Vertex, Vertex>, u: Vertex, v: Vertex)
    requires Injective(m) && u in m && v in m && m[u] == m[v]
    ensures u == v
  {
  }

  lemma RowIsFull(a: Adjacency, b: Adjacency, m: map<Vertex, Vertex>, u: Vertex)
    requires u in a && u in m && m[u] in b && |a[u]| == |b[m[u]]| && a[u].Keys <= m.Keys && Injective(m)
    requires forall v | v in a[u] :: m[v] in b[m[u]]
    ensures b[m[u]].Keys == Image(m, a[u].Keys)
  {
    InjectiveImageSize(m, a[u].Keys);
    SubsetSize(Image(m, a[u].Keys), b[m[u]].Keys);
  }

  lemma {:induction false} InjectiveImageSize(m: map<Vertex, Vertex>, s: set<Vertex>)
    requires s <= m.Keys && Injective(m)
    ensures |Image(m, s)| == |s|
    decreases |s|
  {
    if s != {} {
      var x :| x in s;
      InjectiveImageSize(m, s - {x});
      ImageOneMore(m, s - {x}, x);
      assert s - {x} + {x} == s;
    }
  }

  /* ----- after a sync ----- */

  ghost function Inverse(f: map<Vertex, Vertex>): map<Vertex, Vertex> {
    map x | x in f.Values :: var v :| v in f && f[v] == x; v
  }

  /** The comparison a sync uses, asked about a partner that may be missing. */
  function Lifted(ecmp: EdgeCmp): PartnerCmp {
    (e: Edge, o: Option<Edge>) => if o == None then Failed else ecmp(e, o.value)
  }

  /** What a sync to `after` leaves behind is found equal to `after`. */
  lemma SyncedComparesEqual(plan: Plan, vcmp: VertexCmp, cur: Adjacency, keep: set<Edge>, final: Adjacency)
    requires Closed(plan.after) && Closed(final)
    requires Matches(plan.before, plan.after, vcmp, plan.lookup) && plan.Synced(cur, keep, final)
    requires EquivalenceOn(vcmp, plan.before.Keys + plan.after.Keys) && Inequivalent(vcmp, plan.after.Keys)
    requires forall v, w | v in final && w in plan.after :: vcmp(v, w) != Failed
    requires OwnObjects(plan.before, plan.after)
    requires forall e | e in EdgeObjects(plan.after) :: plan.ecmp(e, e) == Same
    ensures MustBeEqual(final, plan.after, vcmp, Lifted(plan.ecmp), Inverse(plan.lookup))
  {
    hide Plan.Synced, OwnObjects, Isomorphism, Inverse, Injective, Closed, EdgesMatch, OnlyPartners, Matches,
      EquivalenceOn, Inequivalent, Lifted, EdgeObjects, Acyclic;
    SyncIsIsomorphic(plan, vcmp, cur, keep, final);
    InverseIsIsomorphism(plan.after, final, plan.lookup);
    PartnersAreForced(plan, vcmp, final);
    InverseEdgesMatch(plan, vcmp, cur, keep, final);
  }

  lemma InverseEdgesMatch(plan: Plan, vcmp: VertexCmp, cur: Adjacency, keep: set<Edge>, final: Adjacency)
    requires Closed(plan.after) && Closed(final) && Isomorphism(plan.after, final, plan.lookup)
    requires Matches(plan.before, plan.after, vcmp, plan.lookup) && plan.Synced(cur, keep, final)
    requires forall e | e in EdgeObjects(plan.after) :: plan.ecmp(e, e) == Same
    ensures EdgesMatch(final, plan.after, Lifted(plan.ecmp), Inverse(plan.lookup), final.Keys)
  {
    hide Plan.Synced, Matches, Isomorphism, Injective, Inverse, Closed, Lifted, FindEdge, EdgeObjects;
    var f, h := plan.lookup, Inverse(plan.lookup);
    InverseIsIsomorphism(plan.after, final, f);
    forall x, y | x in final && HasEdge(final, x, y) && x in h && y in h
      ensures Lifted(plan.ecmp)(final[x][y], FindEdge(plan.after, h[x], h[y])) == Same
    {
      SyncedEdgeComparesEqual(plan, vcmp, cur, keep, final, h[x], h[y]);
    }
  }

  lemma PartnersAreForced(plan: Plan, vcmp: VertexCmp, final: Adjacency)
    requires Matches(plan.before, plan.after, vcmp, plan.lookup) && Isomorphism(plan.after, final, plan.lookup)
    requires EquivalenceOn(vcmp, plan.before.Keys + plan.after.Keys) && Inequivalent(vcmp, plan.after.Keys)
    ensures forall x | x in Inverse(plan.lookup) :: vcmp(x, Inverse(plan.lookup)[x]) == Same
    ensures OnlyPartners(final, plan.after, vcmp, Inverse(plan.lookup))
  {
    var f, h := plan.lookup, Inverse(plan.lookup);
    InverseRoundTrip(f);
    hide Isomorphism, Inverse, Injective, Matches, EquivalenceOn, Inequivalent;
    forall x | x in h ensures vcmp(x, h[x]) == Same {
      OnePartner(plan, vcmp, h[x]);
    }
    forall x, w | x in final && x in h && w in plan.after && vcmp(x, w) == Same ensures w == h[x] {
      OnePartner(plan, vcmp, h[x]);
    }
  }

  lemma OnePartner(plan: Plan, vcmp: VertexCmp, u: Vertex)
    requires Matches(plan.before, plan.after, vcmp, plan.lookup) && u in plan.lookup
    requires EquivalenceOn(vcmp, plan.before.Keys + plan.after.Keys) && Inequivalent(vcmp, plan.after.Keys)
    ensures vcmp(plan.lookup[u], u) == Same
    ensures forall w | w in plan.after && vcmp(plan.lookup[u], w) == Same :: w == u
  {
    var x := plan.lookup[u];
    assert x in plan.before.Keys + plan.after.Keys && u in plan.after;
    assert vcmp(u, u) == Same;
    assert vcmp(u, x) == Same;
  }

  lemma SyncedEdgeComparesEqual(plan: Plan, vcmp: VertexCmp, cur: Adjacency, keep: set<Edge>, final: Adjacency,
                                u: Vertex, v: Vertex)
    requires Closed(plan.after) && Matches(plan.before, plan.after, vcmp, plan.lookup) && plan.Synced(cur, keep, final)
    requires Isomorphism(plan.after, final, plan.lookup)
    requires forall e | e in EdgeObjects(plan.after) :: plan.ecmp(e, e) == Same
    requires u in plan.lookup && v in plan.lookup && HasEdge(final, plan.lookup[u], plan.lookup[v])
    ensures Lifted(plan.ecmp)(final[plan.lookup[u]][plan.lookup[v]], FindEdge(plan.after, u, v)) == Same
  {
    KeepsEqualObjects(plan, vcmp, cur, keep, final, u, v);
    assert (u, v) in Pairs(plan.after);
    assert plan.after[u][v] in EdgeObjects(plan.after);
  }

  lemma InverseRoundTrip(f: map<Vertex, Vertex>)
    requires Injective(f)
    ensures Inverse(f).Keys == f.Values && Inverse(f).Values == f.Keys && Injective(Inverse(f))
    ensures forall x | x in Inverse(f) :: Inverse(f)[x] in f && f[Inverse(f)[x]] == x
    ensures forall u | u in f :: f[u] in Inverse(f) && Inverse(f)[f[u]] == u
  {
    var h := Inverse(f);
    forall u | u in f ensures f[u] in h && h[f[u]] == u {
      assert f[u] in f.Values;
      assert f[h[f[u]]] == f[u];
    }
    forall u | u in f ensures u in h.Values {
      assert h[f[u]] == u;
    }
  }

  lemma InverseIsIsomorphism(a: Adjacency, b: Adjacency, f: map<Vertex, Vertex>)
    requires Isomorphism(a, b, f) && Closed(a) && Closed(b)
    ensures Inverse(f).Keys == b.Keys && Inverse(f).Values == a.Keys && Injective(Inverse(f)) && |a| == |b|
    ensures forall x | x in Inverse(f) :: Inverse(f)[x] in f && f[Inverse(f)[x]] == x
    ensures forall x | x in Inverse(f) && x in b && Inverse(f)[x] in a :: |b[x]| == |a[Inverse(f)[x]]|
  {
    hide *;
    IsomorphismMaps(a, b, f);
    InverseRoundTrip(f);
    var h := Inverse(f);
    forall x | x in h && x in b && h[x] in a ensures |b[x]| == |a[h[x]]| {
      RowSizes(a, b, f, h[x]);
    }
  }

  lemma IsomorphismMaps(a: Adjacency, b: Adjacency, f: map<Vertex, Vertex>)
    requires Isomorphism(a, b, f)
    ensures Injective(f) && f.Keys == a.Keys && f.Values == b.Keys && |a| == |b|
  {
    InjectiveImageSize(f, f.Keys);
    assert Image(f, f.Keys) == f.Values;
  }

  lemma RowSizes(a: Adjacency, b: Adjacency, f: map<Vertex, Vertex>, u: Vertex)
    requires Isomorphism(a, b, f) && Closed(a) && Closed(b) && u in a && f[u] in b
    ensures |b[f[u]]| == |a[u]|
  {
    forall v | v in a[u] ensures v in f && HasEdge(b, f[u], f[v]) {
      assert HasEdge(a, u, v);
    }
    InjectiveImageSize(f, a[u].Keys);
    forall y | y in b[f[u]] ensures y in Image(f, a[u].Keys) {
      assert HasEdge(b, f[u], y);
      assert y in f.Values;
      var v :| v in f && f[v] == y;
      assert HasEdge(a, u, v);
    }
    assert b[f[u]].Keys == Image(f, a[u].Keys);
  }
}
