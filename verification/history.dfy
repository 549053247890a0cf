/**
 * The scan history as a value: an ordered list of entries, most recent first.
 * Recording a scan puts its entry at the front, drops any earlier entry for the
 * same URL and keeps at most ten; removing drops a URL; loading puts the entries
 * with a high-severity recommendation first.
 */
module HistoryList {
  import opened Strings
  import opened Findings

  /** What an entry keeps of a scan: its findings, when known, and the remediation text. */
  datatype ScanData = ScanData(vulnerabilities: Option<seq<Finding>>, suggestions: string)

  /** One history entry; `data` may be missing from entries read back from storage. */
  datatype Entry = Entry(url: string, data: Option<ScanData>, timestamp: string)

  const Capacity: nat := 10

  // ---------------------------------------------------------------- filtering

  /** `s.filter(p)` */
  function Filter<T>(s: seq<T>, p: T -> bool): seq<T>
  {
    if s == [] then [] else (if p(s[0]) then [s[0]] else []) + Filter(s[1..], p)
  }

  /** The filter keeps exactly the elements that pass, never lengthens the list,
      and keeps a list whose elements all pass. */
  lemma {:induction false} FilterMembers<T>(s: seq<T>, p: T -> bool)
    ensures forall x {:trigger x in Filter(s, p)} :: x in Filter(s, p) ==> x in s && p(x)
    ensures forall x {:trigger x in s} :: x in s && p(x) ==> x in Filter(s, p)
    ensures |Filter(s, p)| <= |s|
    ensures (forall i :: 0 <= i < |s| ==> p(s[i])) ==> Filter(s, p) == s
  {
    if s != [] {
      FilterMembers(s[1..], p);
      assert s == [s[0]] + s[1..];
      if forall i :: 0 <= i < |s| ==> p(s[i]) {
        assert forall i :: 0 <= i < |s[1..]| ==> p(s[1..][i]) by {
          forall i | 0 <= i < |s[1..]| ensures p(s[1..][i]) {
            assert s[1..][i] == s[i + 1];
          }
        }
      }
    }
  }

  /** The filter keeps the relative order: two kept elements come from positions
      in the same order, which the lemma returns. */
  lemma {:induction false} FilterOrder<T>(s: seq<T>, p: T -> bool, i: nat, j: nat) returns (i': nat, j': nat)
    requires i < j < |Filter(s, p)|
    ensures i' < j' < |s|
    ensures s[i'] == Filter(s, p)[i] && s[j'] == Filter(s, p)[j]
  {
    var rest := Filter(s[1..], p);
    if p(s[0]) {
      assert Filter(s, p) == [s[0]] + rest;
      if i == 0 {
        FilterMembers(s[1..], p);
        assert rest[j - 1] in rest;
        var k :| 0 <= k < |s[1..]| && s[1..][k] == rest[j - 1];
        i', j' := 0, k + 1;
      } else {
        var a, b := FilterOrder(s[1..], p, i - 1, j - 1);
        i', j' := a + 1, b + 1;
      }
    } else {
      assert Filter(s, p) == rest;
      var a, b := FilterOrder(s[1..], p, i, j);
      i', j' := a + 1, b + 1;
    }
  }

  lemma {:induction false} FilterAppend<T>(a: seq<T>, b: seq<T>, p: T -> bool)
    ensures Filter(a + b, p) == Filter(a, p) + Filter(b, p)
  {
    if a == [] {
      assert a + b == b;
    } else {
      var ab := a + b;
      var head := if p(a[0]) then [a[0]] else [];
      assert ab[0] == a[0];
      assert ab[1..] == a[1..] + b;
      calc {
        Filter(ab, p);
        head + Filter(a[1..] + b, p);
        { FilterAppend(a[1..], b, p); }
        head + (Filter(a[1..], p) + Filter(b, p));
        (head + Filter(a[1..], p)) + Filter(b, p);
      }
    }
  }

  // ---------------------------------------------------------------- URLs

  ghost predicate UniqueUrls(h: seq<Entry>)
  {
    forall i, j :: 0 <= i < j < |h| ==> h[i].url != h[j].url
  }

  ghost predicate HasUrl(h: seq<Entry>, u: string)
  {
    exists i :: 0 <= i < |h| && h[i].url == u
  }

  /** `history.filter(entry => entry.url !== u)` */
  function WithoutUrl(h: seq<Entry>, u: string): seq<Entry>
  {
    Filter(h, (e: Entry) => e.url != u)
  }

  /** Removing a URL leaves no entry for it, keeps every other entry, and leaves
      a history without that URL as it was. */
  lemma WithoutUrlMeaning(h: seq<Entry>, u: string)
    ensures forall e :: e in WithoutUrl(h, u) <==> e in h && e.url != u
    ensures |WithoutUrl(h, u)| <= |h|
    ensures !HasUrl(h, u) ==> WithoutUrl(h, u) == h
  {
    FilterMembers(h, (e: Entry) => e.url != u);
  }

  /** A filter of a history with distinct URLs has distinct URLs. */
  lemma {:induction false} FilterKeepsUnique(h: seq<Entry>, p: Entry -> bool)
    requires UniqueUrls(h)
    ensures UniqueUrls(Filter(h, p))
  {
    if h != [] {
      FilterKeepsUnique(h[1..], p);
      FilterMembers(h[1..], p);
      var rest := Filter(h[1..], p);
      forall k | 0 <= k < |rest| ensures rest[k].url != h[0].url {
        assert rest[k] in rest;
        var m :| 0 <= m < |h[1..]| && h[1..][m] == rest[k];
        assert h[m + 1] == rest[k];
      }
    }
  }

  /** In a history with distinct URLs, removing a listed URL removes exactly one entry. */
  lemma {:induction false} WithoutListedUrl(h: seq<Entry>, u: string)
    requires UniqueUrls(h) && HasUrl(h, u)
    ensures |WithoutUrl(h, u)| == |h| - 1
  {
    var p := (e: Entry) => e.url != u;
    if h[0].url == u {
      assert !HasUrl(h[1..], u);
      WithoutUrlMeaning(h[1..], u);
    } else {
      var i :| 0 <= i < |h| && h[i].url == u;
      assert h[1..][i - 1].url == u;
      WithoutListedUrl(h[1..], u);
    }
  }

  // ---------------------------------------------------------------- recording

  function Min(a: int, b: int): int
  {
    if a <= b then a else b
  }

  /** `addToHistory`: the new entry in front of the others, cut to the capacity. */
  function Added(h: seq<Entry>, u: string, d: ScanData, t: string): seq<Entry>
  {
    var all := [Entry(u, Some(d), t)] + WithoutUrl(h, u);
    if |all| <= Capacity then all else all[..Capacity]
  }

  /** After recording, the new entry is first and is the only one for its URL;
      the rest is the previous history without that URL, in its previous order,
      with only its tail dropped to respect the capacity. */
  lemma AddedShape(h: seq<Entry>, u: string, d: ScanData, t: string)
    ensures 1 <= |Added(h, u, d, t)| <= Capacity
    ensures Added(h, u, d, t)[0] == Entry(u, Some(d), t)
    ensures forall i :: 1 <= i < |Added(h, u, d, t)| ==> Added(h, u, d, t)[i].url != u
    ensures |Added(h, u, d, t)| == Min(Capacity, 1 + |WithoutUrl(h, u)|)
    ensures Added(h, u, d, t)[1..] == WithoutUrl(h, u)[..|Added(h, u, d, t)| - 1]
  {
    var r := Added(h, u, d, t);
    var rest := WithoutUrl(h, u);
    WithoutUrlMeaning(h, u);
    forall i | 1 <= i < |r| ensures r[i].url != u {
      assert r[i] == rest[i - 1];
      assert rest[i - 1] in rest;
    }
  }

  /** Recording keeps URLs distinct. */
  lemma AddedKeepsUnique(h: seq<Entry>, u: string, d: ScanData, t: string)
    requires UniqueUrls(h)
    ensures UniqueUrls(Added(h, u, d, t))
  {
    FilterKeepsUnique(h, (e: Entry) => e.url != u);
    AddedShape(h, u, d, t);
    var r := Added(h, u, d, t);
    var rest := WithoutUrl(h, u);
    forall i, j | 0 <= i < j < |r| ensures r[i].url != r[j].url {
      if i > 0 {
        assert r[i] == rest[i - 1] && r[j] == rest[j - 1];
      }
    }
  }

  /** Recording a URL the (duplicate-free, within-capacity) history already lists
      keeps its length. */
  lemma ReAddKeepsLength(h: seq<Entry>, u: string, d: ScanData, t: string)
    requires UniqueUrls(h) && |h| <= Capacity && HasUrl(h, u)
    ensures |Added(h, u, d, t)| == |h|
  {
    WithoutListedUrl(h, u);
    AddedShape(h, u, d, t);
  }

  /** Recording a new URL on a full history drops exactly the oldest entry; on a
      history with room it only adds the new entry in front. */
  lemma AddNewUrl(h: seq<Entry>, u: string, d: ScanData, t: string)
    requires !HasUrl(h, u)
    ensures |h| >= Capacity ==> Added(h, u, d, t) == [Entry(u, Some(d), t)] + h[..Capacity - 1]
    ensures |h| < Capacity ==> Added(h, u, d, t) == [Entry(u, Some(d), t)] + h
  {
    WithoutUrlMeaning(h, u);
  }

  // ---------------------------------------------------------------- loading

  /** The load-time test on one entry: some finding's recommendation, lower-cased,
      contains "high". An entry without data or without findings has none. */
  predicate HasHigh(e: Entry)
  {
    e.data.Some? && e.data.value.vulnerabilities.Some? &&
    exists v :: v in e.data.value.vulnerabilities.value &&
      v.recommendation.Some? && Includes(Lower(v.recommendation.value), "high")
  }

  /** The load-time test agrees with the severity badge: an entry passes exactly
      when one of its findings is classified High. */
  lemma HasHighIffHighFinding(e: Entry)
    requires e.data.Some? && e.data.value.vulnerabilities.Some?
    ensures HasHigh(e) <==> exists v :: v in e.data.value.vulnerabilities.value && SeverityOf(v) == High
  {
    forall v | v in e.data.value.vulnerabilities.value
      ensures SeverityOf(v) == High <==> v.recommendation.Some? && Includes(Lower(v.recommendation.value), "high")
    {
      if v.recommendation.None? || v.recommendation.value == "" {
        assert Or(v.recommendation, "") == "";
        assert Lower("") == "";
      }
    }
  }

  predicate NoHigh(e: Entry)
  {
    !HasHigh(e)
  }

  /** The order the stored list is sorted into: a stable sort whose comparator
      puts entries that pass the test before those that do not. */
  function SortHighFirst(h: seq<Entry>): seq<Entry>
  {
    Filter(h, HasHigh) + Filter(h, NoHigh)
  }

  lemma {:induction false} SplitByHigh(h: seq<Entry>)
    ensures multiset(Filter(h, HasHigh)) + multiset(Filter(h, NoHigh)) == multiset(h)
  {
    if h != [] {
      SplitByHigh(h[1..]);
      assert h == [h[0]] + h[1..];
    }
  }

  lemma {:induction false} FilterTwice<T>(s: seq<T>, p: T -> bool, q: T -> bool)
    requires forall x :: p(x) ==> q(x)
    ensures Filter(Filter(s, p), q) == Filter(s, p)
  {
    if s != [] {
      FilterTwice(s[1..], p, q);
      FilterAppend(if p(s[0]) then [s[0]] else [], Filter(s[1..], p), q);
    }
  }

  lemma {:induction false} FilterDisjoint<T>(s: seq<T>, p: T -> bool, q: T -> bool)
    requires forall x :: p(x) ==> !q(x)
    ensures Filter(Filter(s, p), q) == []
  {
    if s != [] {
      FilterDisjoint(s[1..], p, q);
      FilterAppend(if p(s[0]) then [s[0]] else [], Filter(s[1..], p), q);
    }
  }

  /** The loaded list is a permutation of the stored one. */
  lemma SortHighFirstPermutes(h: seq<Entry>)
    ensures multiset(SortHighFirst(h)) == multiset(h)
    ensures |SortHighFirst(h)| == |h|
  {
    SplitByHigh(h);
    var r := SortHighFirst(h);
    assert |r| == |multiset(r)| == |multiset(h)| == |h|;
  }

  /** In the loaded list every entry that passes the test precedes every entry
      that does not. */
  lemma SortHighFirstOrdered(h: seq<Entry>)
    ensures forall i, j :: 0 <= i < j < |SortHighFirst(h)| && HasHigh(SortHighFirst(h)[j]) ==> HasHigh(SortHighFirst(h)[i])
  {
    var hi := Filter(h, HasHigh);
    var lo := Filter(h, NoHigh);
    var r := hi + lo;
    FilterMembers(h, HasHigh);
    FilterMembers(h, NoHigh);
    forall i | 0 <= i < |hi| ensures HasHigh(r[i]) {
      assert r[i] == hi[i] && hi[i] in hi;
    }
    forall j | |hi| <= j < |r| ensures !HasHigh(r[j]) {
      assert r[j] == lo[j - |hi|] && lo[j - |hi|] in lo;
    }
  }

  /** The sort is stable: the entries that pass, and those that do not, each
      keep their stored order. */
  lemma SortHighFirstStable(h: seq<Entry>)
    ensures Filter(SortHighFirst(h), HasHigh) == Filter(h, HasHigh)
    ensures Filter(SortHighFirst(h), NoHigh) == Filter(h, NoHigh)
  {
    var hi := Filter(h, HasHigh);
    var lo := Filter(h, NoHigh);
    FilterAppend(hi, lo, HasHigh);
    FilterTwice(h, HasHigh, HasHigh);
    FilterDisjoint(h, NoHigh, HasHigh);
    FilterAppend(hi, lo, NoHigh);
    FilterDisjoint(h, HasHigh, NoHigh);
    FilterTwice(h, NoHigh, NoHigh);
  }

  /** Loading keeps URLs distinct. */
  lemma SortHighFirstKeepsUnique(h: seq<Entry>)
    requires UniqueUrls(h)
    ensures UniqueUrls(SortHighFirst(h))
  {
    var hi := Filter(h, HasHigh);
    var lo := Filter(h, NoHigh);
    FilterKeepsUnique(h, HasHigh);
    FilterKeepsUnique(h, NoHigh);
    FilterMembers(h, HasHigh);
    FilterMembers(h, NoHigh);
    var r := hi + lo;
    forall i, j | 0 <= i < j < |r| ensures r[i].url != r[j].url {
      if i < |hi| && j >= |hi| {
        var x, y := r[i], r[j];
        assert x == hi[i] && hi[i] in hi;
        assert y == lo[j - |hi|] && lo[j - |hi|] in lo;
        var a :| 0 <= a < |h| && h[a] == x;
        var b :| 0 <= b < |h| && h[b] == y;
        assert HasHigh(x) && !HasHigh(y);
        assert a != b;
      } else if j < |hi| {
        assert r[i] == hi[i] && r[j] == hi[j];
      } else {
        assert r[i] == lo[i - |hi|] && r[j] == lo[j - |hi|];
      }
    }
  }
}
