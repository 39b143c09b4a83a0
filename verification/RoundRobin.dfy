/** The `rr` scheduling strategy and its cached host list: it picks as many distinct available hosts as it may, and does
    not churn, not even when a new leader takes over. */
module RoundRobin {
  import opened Vertices

  datatype Outcome = Scheduled(hosts: seq<string>) | BadParams | LastFailed

  /** The hosts of `base` that are available, in the same order. */
  function Kept(base: seq<string>, available: set<string>): (r: seq<string>)
    ensures forall h :: h in r <==> h in base && h in available
  {
    if base == [] then []
    else
      var rest := Kept(base[..|base| - 1], available);
      assert base == base[..|base| - 1] + [base[|base| - 1]];
      if base[|base| - 1] in available then rest + [base[|base| - 1]] else rest
  }

  function Min(a: int, b: int): int {
    if a < b then a else b
  }

  ghost predicate SortedStrings(l: seq<string>) {
    forall i, j | 0 <= i < j < |l| :: StringLess(l[i], l[j])
  }

  /** What a scheduling decision may leave in the cache, given the list it starts from. */
  ghost predicate Decides(base: seq<string>, available: set<string>, hosts: seq<string>) {
    exists news :: SortedStrings(news) && Elements(news) == available - Elements(base) && hosts == Kept(base, available) + news
  }

  lemma {:induction false} LeastString(s: set<string>) returns (m: string)
    requires s != {}
    ensures m in s && forall x | x in s && x != m :: StringLess(m, x)
    decreases |s|
  {
    m :| m in s;
    var rest := s - {m};
    if rest != {} {
      var n := LeastString(rest);
      StringLessTrichotomy(m, n);
      if StringLess(n, m) {
        m := n;
      } else {
        forall x | x in s && x != m ensures StringLess(m, x) {
          if x != n { StringLessTransitive(m, n, x); }
        }
      }
    }
  }

  method SortStrings(s: set<string>) returns (l: seq<string>)
    ensures SortedStrings(l) && Elements(l) == s
  {
    var rest := s;
    l := [];
    while rest != {}
      invariant rest <= s && Elements(l) == s - rest && SortedStrings(l)
      invariant forall x, y | x in l && y in rest :: StringLess(x, y)
    {
      hide StringLess;
      ghost var least := LeastString(rest);
      assert exists m :: m in rest && forall x | x in rest && x != m :: StringLess(m, x);
      var m :| m in rest && forall x | x in rest && x != m :: StringLess(m, x);
      ElementsConcat(l, [m]);
      l := l + [m];
      rest := rest - {m};
    }
  }

  class RrStrategy {
    var hosts: seq<string>

    constructor ()
      ensures hosts == []
    {
      hosts := [];
    }

    /** Schedules onto the keys of `hostnames`.  `last` is what Last() answers, if it does; it is asked only while the
        cache is empty. */
    method Schedule(hostnames: map<string, string>, valid: bool, maxCount: Option<int>, last: Option<seq<string>>)
      returns (r: Outcome)
      modifies this
      ensures r == BadParams <==> !valid
      ensures r.Scheduled? ==> |r.hosts| <= (if maxCount.Some? && maxCount.value > 0 then maxCount.value else 0)
      ensures hosts == old(hosts) || (r.Scheduled? && r.hosts != [])
      ensures valid && hostnames != map[] && maxCount.Some? && maxCount.value > 0 ==>
        if old(hosts) == [] && last == None then r == LastFailed
        else
          && Decides(if old(hosts) == [] then last.value else old(hosts), hostnames.Keys, hosts)
          && r == Scheduled(hosts[..Min(maxCount.value, |hosts|)])
      ensures valid && !(hostnames != map[] && maxCount.Some? && maxCount.value > 0) ==> r == Scheduled([])
    {
      hide Kept, SortedStrings;
      if !valid { return BadParams; }
      if |hostnames| <= 0 { return Scheduled([]); }
      var max := if maxCount.Some? then maxCount.value else 0;
      if max <= 0 { return Scheduled([]); }
      var sortedHosts := SortStrings(hostnames.Keys);
      var known := hosts;
      if |known| == 0 {
        if last == None { return LastFailed; }
        known := last.value;
      }
      ghost var base := known;
      known := AppendNew(known, sortedHosts);
      ghost var news := known[|base|..];
      assert known == base + news;
      assert Elements(news) == hostnames.Keys - Elements(base);
      // hosts that went away leave it
      hosts := DropMissing(known, hostnames.Keys);
      KeptConcat(base, news, hostnames.Keys);
      KeptAll(news, hostnames.Keys);
      var count := Min(max, |hosts|);
      var result := [];
      for i := 0 to count
        invariant result == hosts[..i]
      {
        result := result + [hosts[i]];
      }
      assert hosts != [] by {
        SomeoneIsThere(base, hostnames.Keys, news);
      }
      r := Scheduled(result);
    }
  }

  /** New hosts go to the end of the list. */
  method AppendNew(base: seq<string>, sortedHosts: seq<string>) returns (hosts: seq<string>)
    requires SortedStrings(sortedHosts)
    ensures base <= hosts && SortedStrings(hosts[|base|..])
    ensures Elements(hosts[|base|..]) == Elements(sortedHosts) - Elements(base)
  {
    hide StringLess;
    var lookupCache := Elements(base);
    hosts := base;
    ghost var news: seq<string> := [];
    for i := 0 to |sortedHosts|
      invariant hosts == base + news && SortedStrings(news)
      invariant forall h :: h in news <==> h in sortedHosts[..i] && h !in base
    {
      assert sortedHosts[..i + 1] == sortedHosts[..i] + [sortedHosts[i]];
      if sortedHosts[i] !in lookupCache {
        forall n | n in news ensures StringLess(n, sortedHosts[i]) {
          var j :| 0 <= j < i && sortedHosts[j] == n;
        }
        assert hosts + [sortedHosts[i]] == base + (news + [sortedHosts[i]]);
        news := news + [sortedHosts[i]];
        hosts := hosts + [sortedHosts[i]];
      }
    }
    assert sortedHosts[..|sortedHosts|] == sortedHosts;
    assert hosts[|base|..] == news;
  }

  /** Deletes, from the back, each entry that is not available. */
  method DropMissing(list: seq<string>, available: set<string>) returns (hosts: seq<string>)
    ensures hosts == Kept(list, available)
  {
    hosts := list;
    var ix := |hosts| - 1;
    assert list[..|list|] == list;
    while ix >= 0
      invariant -1 <= ix < |hosts| && ix < |list|
      invariant hosts[..ix + 1] == list[..ix + 1]
      invariant Kept(list[..ix + 1], available) + hosts[ix + 1..] == Kept(list, available)
      decreases ix
    {
      assert list[..ix + 1][..ix] == list[..ix] && hosts[ix] == list[..ix + 1][ix];
      if hosts[ix] !in available {
        hosts := hosts[..ix] + hosts[ix + 1..];
      }
      ix := ix - 1;
    }
  }

  lemma {:induction false} KeptConcat(a: seq<string>, b: seq<string>, available: set<string>)
    ensures Kept(a + b, available) == Kept(a, available) + Kept(b, available)
  {
    if b == [] {
      assert a + b == a;
    } else {
      assert (a + b)[..|a + b| - 1] == a + b[..|b| - 1];
      KeptConcat(a, b[..|b| - 1], available);
    }
  }

  lemma {:induction false} KeptAll(a: seq<string>, available: set<string>)
    requires Elements(a) <= available
    ensures Kept(a, available) == a
  {
    if a != [] {
      var init := a[..|a| - 1];
      forall x | x in Elements(init) ensures x in Elements(a) {
      }
      assert a[|a| - 1] in Elements(a);
      KeptAll(init, available);
    }
  }

  lemma SomeoneIsThere(base: seq<string>, available: set<string>, news: seq<string>)
    requires available != {} && Elements(news) == available - Elements(base)
    ensures Kept(base, available) + news != []
  {
    var h :| h in available;
    if h in base {
      assert h in Kept(base, available);
    } else {
      assert h in Elements(news);
    }
  }

  /* ----- what a decision is worth ----- */

  lemma {:induction false} KeptIsDistinct(base: seq<string>, available: set<string>)
    requires Distinct(base)
    ensures Distinct(Kept(base, available))
  {
    if base != [] {
      KeptIsDistinct(base[..|base| - 1], available);
    }
  }

  lemma SortedStringsAreDistinct(l: seq<string>)
    requires SortedStrings(l)
    ensures Distinct(l)
  {
    forall i, j | 0 <= i < j < |l| ensures l[i] != l[j] {
      StringLessTrichotomy(l[i], l[j]);
    }
  }

  /** From a list without duplicates the cache becomes exactly the available hosts, each once. */
  lemma DecisionIsExact(base: seq<string>, available: set<string>, hosts: seq<string>)
    requires Decides(base, available, hosts) && Distinct(base)
    ensures Distinct(hosts) && Elements(hosts) == available && |hosts| == |available|
  {
    hide Kept, SortedStrings, Distinct;
    var news :| SortedStrings(news) && Elements(news) == available - Elements(base) && hosts == Kept(base, available) + news;
    KeptIsDistinct(base, available);
    SortedStringsAreDistinct(news);
    ElementsConcat(Kept(base, available), news);
    assert Elements(Kept(base, available)) == Elements(base) * available;
    DistinctConcat(Kept(base, available), news);
    StringCount(hosts);
  }

  lemma DistinctConcat(a: seq<string>, b: seq<string>)
    requires Distinct(a) && Distinct(b) && Elements(a) !! Elements(b)
    ensures Distinct(a + b)
  {
    var c := a + b;
    forall i, j | 0 <= i < j < |c| ensures c[i] != c[j] {
      if i < |a| <= j {
        assert c[i] in Elements(a) && c[j] in Elements(b);
      }
    }
  }

  lemma {:induction false} StringCount(l: seq<string>)
    requires Distinct(l)
    ensures |Elements(l)| == |l|
  {
    if l != [] {
      var init := l[..|l| - 1];
      StringCount(init);
      assert l == init + [l[|l| - 1]];
      assert Elements(l) == Elements(init) + {l[|l| - 1]};
    }
  }

  /** What is returned: distinct available hosts, exactly as many as allowed and there are. */
  lemma ResultIsExact(base: seq<string>, available: set<string>, hosts: seq<string>, max: nat)
    requires Decides(base, available, hosts) && Distinct(base)
    ensures var result := hosts[..Min(max, |hosts|)];
      Distinct(result) && Elements(result) <= available && |result| == Min(max, |available|)
  {
    DecisionIsExact(base, available, hosts);
    assert forall h | h in hosts[..Min(max, |hosts|)] :: h in Elements(hosts);
  }

  /** Nobody moves back in the list when others leave it. */
  lemma {:induction false} KeptMovesUp(base: seq<string>, available: set<string>, i: nat) returns (j: nat)
    requires i < |base| && base[i] in available
    ensures j <= i && j < |Kept(base, available)| && Kept(base, available)[j] == base[i]
  {
    if i == |base| - 1 {
      j := |Kept(base, available)| - 1;
      KeptIsShorter(base, available);
    } else {
      j := KeptMovesUp(base[..|base| - 1], available, i);
    }
  }

  lemma {:induction false} KeptIsShorter(base: seq<string>, available: set<string>)
    ensures |Kept(base, available)| <= |base|
  {
    if base != [] {
      KeptIsShorter(base[..|base| - 1], available);
    }
  }

  /* ----- over any sequence of decisions ----- */

  /** One call of Schedule.  A new leader has an empty cache, and Last() tells it the previous result in some order. */
  datatype Call = Call(newLeader: bool, available: set<string>, max: nat, last: seq<string>)

  datatype Decision = Decision(cache: seq<string>, result: seq<string>)

  ghost predicate Next(d: Decision, d': Decision, c: Call) {
    && Distinct(c.last) && Elements(c.last) == Elements(d.result)
    && var cache := if c.newLeader then [] else d.cache;
    if c.available == {} || c.max == 0 then d' == Decision(cache, [])
    else
      && Decides(if cache == [] then c.last else cache, c.available, d'.cache)
      && d'.result == d'.cache[..Min(c.max, |d'.cache|)]
  }

  ghost predicate IsHistory(ds: seq<Decision>, calls: seq<Call>) {
    && |ds| == |calls| + 1 && ds[0] == Decision([], [])
    && forall i | 0 <= i < |calls| :: Next(ds[i], ds[i + 1], calls[i])
  }

  /** Every result is made of distinct available hosts, exactly as many as allowed and there are. */
  lemma {:induction false} EveryResultIsExact(ds: seq<Decision>, calls: seq<Call>, i: nat)
    requires IsHistory(ds, calls) && i < |ds|
    ensures Distinct(ds[i].cache) && Distinct(ds[i].result)
    ensures i > 0 ==> |ds[i].result| == Min(calls[i - 1].max, |calls[i - 1].available|)
    ensures i > 0 ==> Elements(ds[i].result) <= calls[i - 1].available
    ensures i > 0 ==> |ds[i].result| <= calls[i - 1].max && ds[i].result <= ds[i].cache
  {
    hide Decides;
    if i > 0 {
      EveryResultIsExact(ds, calls, i - 1);
      var c, d := calls[i - 1], ds[i - 1];
      assert Next(ds[i - 1], ds[i - 1 + 1], calls[i - 1]);
      var base := if c.newLeader || d.cache == [] then c.last else d.cache;
      if c.available != {} && c.max > 0 {
        DecisionIsExact(base, c.available, ds[i].cache);
        ResultIsExact(base, c.available, ds[i].cache, c.max);
      }
    }
  }

  lemma StaysScheduled(base: seq<string>, available: set<string>, hosts: seq<string>, max: nat, i: nat)
    requires Decides(base, available, hosts) && i < |base| && i < max && base[i] in available
    ensures base[i] in hosts[..Min(max, |hosts|)]
  {
    var j := KeptMovesUp(base, available, i);
    assert hosts[j] == base[i] && hosts[..Min(max, |hosts|)][j] == base[i];
  }

  /** A host that is scheduled and stays available stays scheduled for as long as the maximum does not shrink, however
      often the leader changes meanwhile. */
  lemma {:induction false} NoChurn(ds: seq<Decision>, calls: seq<Call>, i: nat, j: nat, h: string)
    requires IsHistory(ds, calls) && 0 < i <= j < |ds| && h in ds[i].result
    requires forall k | i <= k < j :: h in calls[k].available && calls[k].max >= calls[k - 1].max
    ensures h in ds[j].result
    decreases j
  {
    if i < j {
      NoChurn(ds, calls, i, j - 1, h);
      EveryResultIsExact(ds, calls, j - 1);
      var c, d := calls[j - 1], ds[j - 1];
      assert Next(ds[j - 1], ds[j - 1 + 1], calls[j - 1]);
      var n :| 0 <= n < |d.result| && d.result[n] == h;
      assert c.max >= calls[j - 2].max;
      if c.newLeader {
        assert h in Elements(c.last);
        StringCount(c.last);
        StringCount(d.result);
        var m :| 0 <= m < |c.last| && c.last[m] == h;
        StaysScheduled(c.last, c.available, ds[j].cache, c.max, m);
      } else {
        assert d.cache[n] == h;
        StaysScheduled(d.cache, c.available, ds[j].cache, c.max, n);
      }
    }
  }
}
