/** The deterministic sort is a function of the labelled graph: graphs that differ only in the addresses of
    their vertices are sorted the same way. */
module SortLabels {
  import opened Vertices
  import opened Digraphs
  import opened PointerGraph
  import opened Sorts

  ghost function Rename(f: map<Vertex, Vertex>, l: seq<Vertex>): (r: seq<Vertex>)
    requires Elements(l) <= f.Keys
    ensures |r| == |l| && forall i | 0 <= i < |l| :: l[i] in f && r[i] == f[l[i]]
  {
    assert forall i | 0 <= i < |l| :: l[i] in Elements(l);
    seq(|l|, i requires 0 <= i < |l| => f[l[i]])
  }

  ghost function Image(f: map<Vertex, Vertex>, s: set<Vertex>): set<Vertex>
    requires s <= f.Keys
  {
    set x | x in s :: f[x]
  }

  ghost function Labels(l: seq<Vertex>): seq<string> {
    seq(|l|, i requires 0 <= i < |l| => l[i].name)
  }

  ghost predicate UniqueNames(s: set<Vertex>) {
    forall u, v | u in s && v in s && u.name == v.name :: u == v
  }

  /** `f` is an isomorphism that keeps every `String()`, and these tell the vertices of `a` apart. */
  ghost predicate Relabels(a: Adjacency, b: Adjacency, f: map<Vertex, Vertex>) {
    && Closed(a) && Closed(b)
    && Isomorphism(a, b, f)
    && UniqueNames(a.Keys)
    && forall v | v in f :: f[v].name == v.name
  }

  lemma RenameConcat(f: map<Vertex, Vertex>, l: seq<Vertex>, m: seq<Vertex>)
    requires Elements(l) <= f.Keys && Elements(m) <= f.Keys
    ensures Elements(l + m) <= f.Keys && Rename(f, l + m) == Rename(f, l) + Rename(f, m)
  {
    ElementsConcat(l, m);
  }

  lemma RenameElements(f: map<Vertex, Vertex>, l: seq<Vertex>)
    requires Elements(l) <= f.Keys
    ensures Elements(Rename(f, l)) == Image(f, Elements(l))
  {
    var r := Rename(f, l);
    forall y | y in Image(f, Elements(l)) ensures y in Elements(r) {
      var x :| x in Elements(l) && f[x] == y;
      var i :| 0 <= i < |l| && l[i] == x;
      assert r[i] == y;
    }
  }

  lemma SortedRenames(a: Adjacency, b: Adjacency, f: map<Vertex, Vertex>, s: set<Vertex>)
    requires Relabels(a, b, f) && s <= a.Keys
    ensures Rename(f, SortedSeq(s)) == SortedSeq(Image(f, s))
  {
    var l := SortedSeq(s);
    var r := Rename(f, l);
    forall i, j | 0 <= i < j < |r| ensures Less(r[i], r[j]) {
      assert l[i] in Elements(l) && l[j] in Elements(l);
      LessTrichotomy(l[i], l[j]);
      assert Less(l[i], l[j]) && l[i].name != l[j].name;
    }
    RenameElements(f, l);
    SortedIsSortedSeq(r);
  }

  lemma PredsRename(a: Adjacency, b: Adjacency, f: map<Vertex, Vertex>, v: Vertex)
    requires Relabels(a, b, f) && v in a
    ensures Preds(b, f[v]) == Image(f, Preds(a, v))
  {
    forall y | y in Preds(b, f[v]) ensures y in Image(f, Preds(a, v)) {
      assert y in f.Values;
      var x :| x in f && f[x] == y;
      assert x in Preds(a, v);
    }
  }

  lemma RowRename(a: Adjacency, b: Adjacency, f: map<Vertex, Vertex>, v: Vertex)
    requires Relabels(a, b, f) && v in a
    ensures Row(a, v) <= a.Keys
    ensures Row(b, f[v]) == Image(f, Row(a, v))
  {
    forall w | w in Row(a, v) ensures w in a {
      assert HasEdge(a, v, w);
    }
    assert f[v] in f.Values;
    forall y | y in Row(b, f[v]) ensures y in Image(f, Row(a, v)) {
      assert HasEdge(b, f[v], y);
      assert y in f.Values;
      var x :| x in f && f[x] == y;
      assert HasEdge(a, v, x);
    }
    forall y | y in Image(f, Row(a, v)) ensures y in Row(b, f[v]) {
      var x :| x in Row(a, v) && f[x] == y;
      assert HasEdge(a, v, x);
      assert HasEdge(b, f[v], y);
    }
  }

  lemma SubsetImage(f: map<Vertex, Vertex>, s: set<Vertex>, t: set<Vertex>)
    requires s <= f.Keys && t <= f.Keys
    requires forall u, v | u in f && v in f && f[u] == f[v] :: u == v
    ensures s <= t <==> Image(f, s) <= Image(f, t)
  {
    if Image(f, s) <= Image(f, t) {
      forall x | x in s ensures x in t {
        assert f[x] in Image(f, s);
        var y :| y in t && f[y] == f[x];
      }
    }
  }

  lemma ReadyOne(a: Adjacency, b: Adjacency, f: map<Vertex, Vertex>, l: seq<Vertex>, c: Vertex)
    requires Relabels(a, b, f) && Elements(l) <= a.Keys && c in a
    ensures Preds(a, c) <= Elements(l) <==> Preds(b, f[c]) <= Elements(Rename(f, l))
  {
    PredsRename(a, b, f, c);
    RenameElements(f, l);
    SubsetImage(f, Preds(a, c), Elements(l));
  }

  lemma {:induction false} ReadyRenames(a: Adjacency, b: Adjacency, f: map<Vertex, Vertex>, l: seq<Vertex>, cs: seq<Vertex>)
    requires Relabels(a, b, f) && Elements(l) <= a.Keys && Elements(cs) <= a.Keys
    ensures Elements(Ready(a, l, cs)) <= a.Keys
    ensures Rename(f, Ready(a, l, cs)) == Ready(b, Rename(f, l), Rename(f, cs))
  {
    assert f.Keys == a.Keys;
    hide Relabels, Preds;
    if cs != [] {
      assert cs == [cs[0]] + cs[1..];
      ElementsConcat([cs[0]], cs[1..]);
      ReadyRenames(a, b, f, l, cs[1..]);
      ReadyOne(a, b, f, l, cs[0]);
      assert Rename(f, cs)[1..] == Rename(f, cs[1..]);
      var first := if Preds(a, cs[0]) <= Elements(l) then [cs[0]] else [];
      RenameConcat(f, first, Ready(a, l, cs[1..]));
    }
  }

  /** What is left after one pop. */
  ghost function Popped(a: Adjacency, l: seq<Vertex>, s: seq<Vertex>): seq<Vertex>
    requires s != []
  {
    s[..|s| - 1] + Ready(a, l + [s[|s| - 1]], SortedSeq(Row(a, s[|s| - 1])))
  }

  lemma PopRenames(a: Adjacency, b: Adjacency, f: map<Vertex, Vertex>, l: seq<Vertex>, s: seq<Vertex>)
    requires Relabels(a, b, f) && Elements(l) <= f.Keys && Elements(s) <= f.Keys && s != []
    ensures Elements(Popped(a, l, s)) <= f.Keys && Elements(l + [s[|s| - 1]]) <= f.Keys
    ensures Rename(f, l + [s[|s| - 1]]) == Rename(f, l) + [Rename(f, s)[|s| - 1]]
    ensures Rename(f, Popped(a, l, s)) == Popped(b, Rename(f, l), Rename(f, s))
  {
    assert f.Keys == a.Keys;
    hide Relabels, Ready, Preds, SortedSeq;
    var v, s' := s[|s| - 1], s[..|s| - 1];
    assert v in Elements(s) && s == s' + [v];
    ElementsConcat(s', [v]);
    ElementsConcat(l, [v]);
    RowRename(a, b, f, v);
    var cs := SortedSeq(Row(a, v));
    SortedRenames(a, b, f, Row(a, v));
    ReadyRenames(a, b, f, l + [v], cs);
    RenameConcat(f, l, [v]);
    assert Rename(f, l + [v]) == Rename(f, l) + [f[v]];
    RenameConcat(f, s', Ready(a, l + [v], cs));
    assert Rename(f, s)[..|s| - 1] == Rename(f, s');
  }

  lemma {:induction false} KahnRenames(a: Adjacency, b: Adjacency, f: map<Vertex, Vertex>, l: seq<Vertex>, s: seq<Vertex>, n: nat)
    requires Relabels(a, b, f) && Elements(l) <= f.Keys && Elements(s) <= f.Keys
    ensures Elements(KahnOrder(a, l, s, n)) <= f.Keys
    ensures Rename(f, KahnOrder(a, l, s, n)) == KahnOrder(b, Rename(f, l), Rename(f, s), n)
    decreases n
  {
    hide Relabels, Ready, SortedSeq;
    if s != [] && n > 0 {
      PopRenames(a, b, f, l, s);
      KahnRenames(a, b, f, l + [s[|s| - 1]], Popped(a, l, s), n - 1);
    }
  }

  lemma SourcesRename(a: Adjacency, b: Adjacency, f: map<Vertex, Vertex>)
    requires Relabels(a, b, f)
    ensures Image(f, Sources(a)) == Sources(b)
  {
    forall v | v in a ensures f[v] in b && (Preds(a, v) == {} <==> Preds(b, f[v]) == {}) {
      assert f[v] in f.Values;
      PredsRename(a, b, f, v);
      if Preds(a, v) != {} {
        var u :| u in Preds(a, v);
        assert f[u] in Image(f, Preds(a, v));
      }
    }
    forall y | y in Sources(b) ensures y in Image(f, Sources(a)) {
      assert y in f.Values;
      var x :| x in f && f[x] == y;
      assert x in Sources(a);
    }
  }

  /** Two graphs with the same unique labels and the same labelled edges are sorted into the same labels. */
  lemma OrderDependsOnLabelsOnly(a: Adjacency, b: Adjacency, f: map<Vertex, Vertex>)
    requires Relabels(a, b, f)
    ensures Elements(DeterministicOrder(a)) <= f.Keys
    ensures DeterministicOrder(b) == Rename(f, DeterministicOrder(a))
    ensures Labels(DeterministicOrder(b)) == Labels(DeterministicOrder(a))
  {
    hide KahnOrder, Preds;
    SourcesRename(a, b, f);
    ImageSize(f, a.Keys);
    assert Image(f, a.Keys) == f.Values;
    SortedRenames(a, b, f, Sources(a));
    KahnRenames(a, b, f, [], SortedSeq(Sources(a)), |a|);
    assert Rename(f, []) == [];
  }

  lemma {:induction false} ImageSize(f: map<Vertex, Vertex>, s: set<Vertex>)
    requires s <= f.Keys
    requires forall u, v | u in f && v in f && f[u] == f[v] :: u == v
    ensures |Image(f, s)| == |s|
    decreases |s|
  {
    if s != {} {
      var x :| x in s;
      ImageSize(f, s - {x});
      assert Image(f, s) == Image(f, s - {x}) + {f[x]};
      assert f[x] !in Image(f, s - {x});
    }
  }
}
