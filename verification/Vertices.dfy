/** The vertices and edges of a pointer graph, and the order in which vertices are listed.

    A vertex is an object with an address and a stable `String()`.  Two vertices are the same vertex only if
    they are the same object; `name` is what `String()` returns, and nothing stops two objects sharing it. */
module Vertices {

  datatype Vertex = Vertex(ptr: nat, name: string)

  datatype Edge = Edge(ptr: nat, name: string)

  datatype Option<+T> = None | Some(value: T)

  /** Byte-wise string order: a proper prefix comes first. */
  predicate StringLess(a: string, b: string) {
    if b == [] then false
    else if a == [] then true
    else if a[0] != b[0] then a[0] < b[0]
    else StringLess(a[1..], b[1..])
  }

  /** The order of a sorted vertex slice: by `String()`, then by address. */
  predicate Less(a: Vertex, b: Vertex) {
    if a.name == b.name then a.ptr < b.ptr else StringLess(a.name, b.name)
  }

  lemma {:induction false} StringLessTrichotomy(a: string, b: string)
    ensures a != b ==> StringLess(a, b) || StringLess(b, a)
    ensures StringLess(a, b) ==> !StringLess(b, a) && a != b
  {
    if a != [] && b != [] && a[0] == b[0] {
      StringLessTrichotomy(a[1..], b[1..]);
      assert a == [a[0]] + a[1..] && b == [b[0]] + b[1..];
    }
  }

  lemma {:induction false} StringLessTransitive(a: string, b: string, c: string)
    requires StringLess(a, b) && StringLess(b, c)
    ensures StringLess(a, c)
  {
    if a != [] && a[0] == b[0] == c[0] {
      StringLessTransitive(a[1..], b[1..], c[1..]);
    }
  }

  /** The strings agree up to position `i`, where `a` has the smaller character. */
  predicate SmallerAt(a: string, b: string, i: nat) {
    i < |a| && i < |b| && a[..i] == b[..i] && a[i] < b[i]
  }

  lemma PrefixHasHead(a: string, b: string, i: nat)
    requires 0 < i <= |a| && i <= |b| && a[..i] == b[..i]
    ensures a[0] == b[0]
  {
    assert a[..i][0] == a[0] && b[..i][0] == b[0];
  }

  lemma SmallerInTail(a: string, b: string, i: nat)
    requires a != [] && b != [] && a[0] == b[0]
    ensures SmallerAt(a, b, i + 1) <==> SmallerAt(a[1..], b[1..], i)
  {
    if i + 1 <= |a| && i + 1 <= |b| {
      assert a[..i + 1] == [a[0]] + a[1..][..i] && b[..i + 1] == [b[0]] + b[1..][..i];
      assert a[1..][..i] == a[..i + 1][1..] && b[1..][..i] == b[..i + 1][1..];
    }
  }

  lemma PrefixOfTail(a: string, b: string)
    requires a != [] && b != [] && a[0] == b[0]
    ensures a < b <==> a[1..] < b[1..]
  {
    assert a == [a[0]] + a[1..] && b == [b[0]] + b[1..];
  }

  /** What is before what: a proper prefix, and otherwise the string with the smaller character where they first differ. */
  lemma {:induction false} StringLessIff(a: string, b: string)
    ensures StringLess(a, b) <==> a < b || exists i: nat :: SmallerAt(a, b, i)
  {
    hide SmallerAt;
    if a == [] || b == [] {
      NothingSmaller(a, b);
    } else if a[0] != b[0] {
      SmallerAtHead(a, b);
    } else {
      StringLessIff(a[1..], b[1..]);
      PrefixOfTail(a, b);
      NotAtHead(a, b);
      if i: nat :| SmallerAt(a, b, i) {
        SmallerInTail(a, b, i - 1);
      }
      if i: nat :| SmallerAt(a[1..], b[1..], i) {
        SmallerInTail(a, b, i);
      }
    }
  }

  lemma NothingSmaller(a: string, b: string)
    requires a == [] || b == []
    ensures forall i: nat :: !SmallerAt(a, b, i)
    ensures a < b <==> b != []
  {
  }

  lemma NotAtHead(a: string, b: string)
    requires a != [] && b != [] && a[0] == b[0]
    ensures !SmallerAt(a, b, 0)
  {
  }

  lemma SmallerAtHead(a: string, b: string)
    requires a != [] && b != [] && a[0] != b[0]
    ensures !(a < b) && (a[0] < b[0] <==> exists i: nat :: SmallerAt(a, b, i))
  {
    assert a[0] < b[0] ==> SmallerAt(a, b, 0);
    if i: nat :| SmallerAt(a, b, i) {
      if i > 0 {
        PrefixHasHead(a, b, i);
      }
    }
  }

  lemma LessTrichotomy(a: Vertex, b: Vertex)
    ensures a != b ==> Less(a, b) || Less(b, a)
    ensures Less(a, b) ==> !Less(b, a) && a != b
  {
    StringLessTrichotomy(a.name, b.name);
  }

  lemma LessTransitive(a: Vertex, b: Vertex, c: Vertex)
    requires Less(a, b) && Less(b, c)
    ensures Less(a, c)
  {
    StringLessTrichotomy(a.name, b.name);
    StringLessTrichotomy(b.name, c.name);
    if a.name != b.name && b.name != c.name {
      StringLessTransitive(a.name, b.name, c.name);
      StringLessTrichotomy(a.name, c.name);
    }
  }

  ghost predicate Distinct<T>(s: seq<T>) {
    forall i, j | 0 <= i < j < |s| :: s[i] != s[j]
  }

  function Elements<T>(s: seq<T>): set<T> {
    set x | x in s
  }

  lemma ElementsEmpty<T>(s: seq<T>)
    ensures s == [] <==> Elements(s) == {}
  {
    if s != [] { assert s[0] in Elements(s); }
  }

  lemma ElementsConcat<T>(s: seq<T>, t: seq<T>)
    ensures Elements(s + t) == Elements(s) + Elements(t)
  {
    forall x | x in Elements(s) + Elements(t) ensures x in Elements(s + t) {
      if x in s {
        var i :| 0 <= i < |s| && s[i] == x;
        assert (s + t)[i] == x;
      } else {
        var i :| 0 <= i < |t| && t[i] == x;
        assert (s + t)[|s| + i] == x;
      }
    }
  }

  ghost predicate Sorted(s: seq<Vertex>) {
    forall i, j | 0 <= i < j < |s| :: Less(s[i], s[j])
  }

  lemma SortedIsDistinct(s: seq<Vertex>)
    requires Sorted(s)
    ensures Distinct(s)
  {
    forall i, j | 0 <= i < j < |s| ensures s[i] != s[j] {
      LessTrichotomy(s[i], s[j]);
    }
  }

  /** Every nonempty set of vertices has a least one. */
  lemma {:induction false} LeastExists(s: set<Vertex>) returns (m: Vertex)
    requires s != {}
    ensures m in s && forall x | x in s && x != m :: Less(m, x)
    decreases |s|
  {
    m :| m in s;
    var rest := s - {m};
    if rest != {} {
      var n := LeastExists(rest);
      LessTrichotomy(m, n);
      if Less(n, m) {
        m := n;
      } else {
        forall x | x in s && x != m ensures Less(m, x) {
          if x != n { LessTransitive(m, n, x); }
        }
      }
    }
  }

  /** A set has only one sorted listing. */
  lemma {:induction false} SortedUnique(s: seq<Vertex>, t: seq<Vertex>)
    requires Sorted(s) && Sorted(t) && Elements(s) == Elements(t)
    ensures s == t
  {
    ElementsEmpty(s);
    ElementsEmpty(t);
    if s != [] {
      assert s[0] in Elements(t);
      var j :| 0 <= j < |t| && t[j] == s[0];
      assert t[0] in Elements(s);
      var i :| 0 <= i < |s| && s[i] == t[0];
      LessTrichotomy(s[0], t[0]);
      assert s[0] == t[0];
      var s', t' := s[1..], t[1..];
      forall x ensures x in Elements(s') <==> x in Elements(t') {
        if x in Elements(s') {
          var k :| 1 <= k < |s| && s[k] == x;
          LessTrichotomy(s[0], x);
          assert x in Elements(s);
          var l :| 0 <= l < |t| && t[l] == x;
          assert l != 0;
          assert t'[l - 1] == x;
        }
        if x in Elements(t') {
          var k :| 1 <= k < |t| && t[k] == x;
          LessTrichotomy(t[0], x);
          assert x in Elements(t);
          var l :| 0 <= l < |s| && s[l] == x;
          assert l != 0;
          assert s'[l - 1] == x;
        }
      }
      SortedUnique(s', t');
    }
  }

  /** The sorted slice of a set of vertices: the only order a sort by `Less` can produce. */
  method SortVertices(s: set<Vertex>) returns (l: seq<Vertex>)
    ensures Sorted(l) && Elements(l) == s
    ensures Distinct(l) && |l| == |s|
  {
    var rest := s;
    l := [];
    while rest != {}
      invariant rest <= s && Elements(l) == s - rest && Sorted(l)
      invariant forall x, y | x in l && y in rest :: Less(x, y)
      invariant |l| + |rest| == |s|
    {
      ghost var least := LeastExists(rest);
      assert exists m :: m in rest && forall x | x in rest && x != m :: Less(m, x);
      var m :| m in rest && forall x | x in rest && x != m :: Less(m, x);
      ElementsConcat(l, [m]);
      l := l + [m];
      rest := rest - {m};
    }
    SortedIsDistinct(l);
  }
}
