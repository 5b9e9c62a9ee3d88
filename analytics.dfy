/** The aggregation behind `GET /analytics` (services/api/index.js, `getAnalytics`):
    counts per source and per capture date, the seven greatest date keys in descending
    order, and the newest and oldest capture timestamps. */
module Analytics {
  import opened Outcomes
  import opened Text
  import opened Domain

  // ---------------------------------------------------------------------------
  // Counting objects (`acc[key] = (acc[key] || 0) + 1`)
  // ---------------------------------------------------------------------------

  /** A counting object: its properties in insertion order, each with its count. */
  type Tally = seq<(string, nat)>

  predicate HasKey(t: Tally, k: string) {
    exists i :: 0 <= i < |t| && t[i].0 == k
  }

  predicate DistinctKeys(t: Tally) {
    forall i, j :: 0 <= i < j < |t| ==> t[i].0 != t[j].0
  }

  predicate Positive(t: Tally) {
    forall i :: 0 <= i < |t| ==> t[i].1 >= 1
  }

  /** Where property `k` sits, or -1 when the object has no such property. */
  function IndexOf(t: Tally, k: string): (r: int)
    ensures -1 <= r < |t|
    ensures r >= 0 ==> t[r].0 == k && forall i :: 0 <= i < r ==> t[i].0 != k
    ensures r < 0 ==> forall i :: 0 <= i < |t| ==> t[i].0 != k
  {
    if t == [] then -1
    else if t[0].0 == k then 0
    else
      var r := IndexOf(t[1..], k);
      if r < 0 then -1 else r + 1
  }

  /** `acc[k] || 0`. */
  function Lookup(t: Tally, k: string): nat {
    var i := IndexOf(t, k);
    if i < 0 then 0 else t[i].1
  }

  /** `acc[k] = (acc[k] || 0) + 1`: an existing property is updated where it stands, a new
      one is added at the end. */
  function Bump(t: Tally, k: string): Tally {
    var i := IndexOf(t, k);
    if i < 0 then t + [(k, 1)] else t[i := (k, t[i].1 + 1)]
  }

  /** `keys.reduce((acc, key) => { acc[key] = (acc[key] || 0) + 1; return acc; }, {})`. */
  function TallyOf(keys: seq<string>): Tally {
    if keys == [] then [] else Bump(TallyOf(keys[..|keys| - 1]), keys[|keys| - 1])
  }

  function Sum(t: Tally): nat {
    if t == [] then 0 else Sum(t[..|t| - 1]) + t[|t| - 1].1
  }

  lemma {:induction false} SumUpdate(t: Tally, i: nat, e: (string, nat))
    requires i < |t|
    ensures Sum(t[i := e]) == Sum(t) - t[i].1 + e.1
  {
    var n := |t| - 1;
    var u := t[i := e];
    assert u[..n] == if i == n then t[..n] else t[..n][i := e];
    if i < n {
      SumUpdate(t[..n], i, e);
    }
  }

  lemma IndexOfSameKeys(t: Tally, u: Tally, k: string)
    requires |t| == |u| && forall i :: 0 <= i < |t| ==> t[i].0 == u[i].0
    ensures IndexOf(t, k) == IndexOf(u, k)
  {
    var a, b := IndexOf(t, k), IndexOf(u, k);
    if a >= 0 && b >= 0 {
      assert !(a < b) && !(b < a);
    }
  }

  lemma IndexOfAppend(t: Tally, e: (string, nat), k: string)
    requires k != e.0
    ensures IndexOf(t + [e], k) == IndexOf(t, k)
  {
    var u := t + [e];
    var a, b := IndexOf(t, k), IndexOf(u, k);
    if b >= 0 {
      assert b < |t| && u[b] == t[b];
    }
    if a >= 0 {
      assert u[a] == t[a];
      assert !(a < b) && !(b < a);
    }
  }

  /** Counting one more `k` keeps the properties distinct and every count positive. */
  lemma BumpDistinct(t: Tally, k: string)
    requires DistinctKeys(t) && Positive(t)
    ensures DistinctKeys(Bump(t, k)) && Positive(Bump(t, k))
  {
  }

  /** Counting one more `k` raises the count of `k` by one and changes no other count. */
  lemma BumpLookup(t: Tally, k: string, j: string)
    ensures Lookup(Bump(t, k), j) == Lookup(t, j) + (if j == k then 1 else 0)
  {
    var i := IndexOf(t, k);
    var r := Bump(t, k);
    if j != k {
      if i < 0 {
        IndexOfAppend(t, (k, 1), j);
        var a := IndexOf(t, j);
        if a >= 0 { assert r[a] == t[a]; }
      } else {
        IndexOfSameKeys(t, r, j);
      }
    } else if i >= 0 {
      IndexOfSameKeys(t, r, k);
      assert r[i] == (k, t[i].1 + 1);
    } else {
      assert r[|t|] == (k, 1);
    }
  }

  /** Counting one more `k` adds the property `k` and no other. */
  lemma BumpHasKey(t: Tally, k: string, j: string)
    ensures HasKey(Bump(t, k), j) <==> HasKey(t, j) || j == k
  {
    var r := Bump(t, k);
    if HasKey(r, j) && j != k {
      var p :| 0 <= p < |r| && r[p].0 == j;
      assert p < |t| && t[p].0 == j;
    }
    if HasKey(t, j) {
      var p :| 0 <= p < |t| && t[p].0 == j;
      assert r[p].0 == j;
    }
    if j == k && IndexOf(t, k) < 0 {
      assert r[|t|].0 == k;
    }
  }

  /** Counting one more `k` raises the total by one, and adds a property only when `k`
      is new. */
  lemma BumpSize(t: Tally, k: string)
    ensures Sum(Bump(t, k)) == Sum(t) + 1
    ensures |Bump(t, k)| == if HasKey(t, k) then |t| else |t| + 1
  {
    var i := IndexOf(t, k);
    if i < 0 {
      assert (t + [(k, 1)])[..|t|] == t;
    } else {
      SumUpdate(t, i, (k, t[i].1 + 1));
    }
  }

  /** The counting object of `keys` has distinct properties with positive counts. */
  lemma {:induction false} TallyDistinct(keys: seq<string>)
    ensures DistinctKeys(TallyOf(keys)) && Positive(TallyOf(keys))
  {
    if keys != [] {
      TallyDistinct(keys[..|keys| - 1]);
      BumpDistinct(TallyOf(keys[..|keys| - 1]), keys[|keys| - 1]);
    }
  }

  /** The count of `k` is the number of times `k` occurs in `keys`. */
  lemma {:induction false} TallyLookup(keys: seq<string>, k: string)
    ensures Lookup(TallyOf(keys), k) == multiset(keys)[k]
  {
    if keys != [] {
      var n := |keys| - 1;
      TallyLookup(keys[..n], k);
      BumpLookup(TallyOf(keys[..n]), keys[n], k);
      assert keys == keys[..n] + [keys[n]];
    }
  }

  /** The counting object has a property for exactly the keys that occur. */
  lemma {:induction false} TallyHasKey(keys: seq<string>, k: string)
    ensures HasKey(TallyOf(keys), k) <==> k in keys
  {
    if keys != [] {
      var n := |keys| - 1;
      TallyHasKey(keys[..n], k);
      BumpHasKey(TallyOf(keys[..n]), keys[n], k);
      assert keys == keys[..n] + [keys[n]];
    }
  }

  /** The counts add up to the number of keys, and there are as many properties as distinct
      keys (`Object.keys(acc).length`). */
  lemma {:induction false} TallyTotals(keys: seq<string>)
    ensures Sum(TallyOf(keys)) == |keys|
    ensures |TallyOf(keys)| == |set k | k in keys|
  {
    if keys != [] {
      var n := |keys| - 1;
      var prefix := keys[..n];
      TallyTotals(prefix);
      TallyHasKey(prefix, keys[n]);
      BumpSize(TallyOf(prefix), keys[n]);
      assert keys == prefix + [keys[n]];
      assert (set k | k in keys) == (set k | k in prefix) + {keys[n]};
    }
  }

  /** An entry of a counting object with distinct keys holds that key's count. */
  lemma LookupEntry(t: Tally, e: (string, nat))
    requires DistinctKeys(t) && e in t
    ensures Lookup(t, e.0) == e.1
  {
    var p :| 0 <= p < |t| && t[p] == e;
    var i := IndexOf(t, e.0);
    assert !(i < p) && !(p < i);
  }

  // ---------------------------------------------------------------------------
  // Stable descending sort (`sort((a, b) => key(b).localeCompare(key(a)))`)
  // ---------------------------------------------------------------------------

  predicate SortedDesc<T>(s: seq<T>, key: T -> string) {
    forall i, j :: 0 <= i < j < |s| ==> StrLe(key(s[j]), key(s[i]))
  }

  predicate DistinctBy<T>(s: seq<T>, key: T -> string) {
    forall i, j :: 0 <= i < j < |s| ==> key(s[i]) != key(s[j])
  }

  /** Puts `x` after every element whose key is not smaller than its own. */
  function InsertDesc<T>(x: T, s: seq<T>, key: T -> string): seq<T> {
    if s == [] then [x]
    else if StrLt(key(s[0]), key(x)) then [x] + s
    else [s[0]] + InsertDesc(x, s[1..], key)
  }

  /** Insertion sort, descending by key; elements with equal keys keep their order. */
  function SortDesc<T>(s: seq<T>, key: T -> string): seq<T> {
    if s == [] then [] else InsertDesc(s[|s| - 1], SortDesc(s[..|s| - 1], key), key)
  }

  lemma {:induction false} InsertDescPermutation<T>(x: T, s: seq<T>, key: T -> string)
    ensures multiset(InsertDesc(x, s, key)) == multiset(s) + multiset{x}
  {
    if s != [] && !StrLt(key(s[0]), key(x)) {
      InsertDescPermutation(x, s[1..], key);
      assert s == [s[0]] + s[1..];
    }
  }

  lemma ConsSorted<T>(h: T, rest: seq<T>, key: T -> string)
    requires SortedDesc(rest, key)
    requires forall j :: 0 <= j < |rest| ==> StrLe(key(rest[j]), key(h))
    ensures SortedDesc([h] + rest, key)
  {
    var r := [h] + rest;
    forall i, j | 0 <= i < j < |r| ensures StrLe(key(r[j]), key(r[i])) {
      assert r[j] == rest[j - 1];
      if i > 0 {
        assert r[i] == rest[i - 1];
      }
    }
  }

  /** Inserting keeps every key at most a bound that all keys involved respect. */
  lemma {:induction false} InsertDescBounded<T>(x: T, s: seq<T>, key: T -> string, bound: string)
    requires StrLe(key(x), bound) && forall j :: 0 <= j < |s| ==> StrLe(key(s[j]), bound)
    ensures forall j :: 0 <= j < |InsertDesc(x, s, key)| ==> StrLe(key(InsertDesc(x, s, key)[j]), bound)
  {
    if s != [] && !StrLt(key(s[0]), key(x)) {
      InsertDescBounded(x, s[1..], key, bound);
      var r := InsertDesc(x, s, key);
      forall j | 1 <= j < |r| ensures StrLe(key(r[j]), bound) {
        assert r[j] == InsertDesc(x, s[1..], key)[j - 1];
      }
    }
  }

  lemma {:induction false} InsertDescSorted<T>(x: T, s: seq<T>, key: T -> string)
    requires SortedDesc(s, key)
    ensures SortedDesc(InsertDesc(x, s, key), key)
  {
    if s == [] {
    } else if StrLt(key(s[0]), key(x)) {
      forall j | 0 <= j < |s| ensures StrLe(key(s[j]), key(x)) {
        StrLeTransitive(key(s[j]), key(s[0]), key(x));
      }
      ConsSorted(x, s, key);
    } else {
      var tail := s[1..];
      InsertDescSorted(x, tail, key);
      StrLeTotal(key(x), key(s[0]));
      forall j | 0 <= j < |tail| ensures StrLe(key(tail[j]), key(s[0])) {
        assert tail[j] == s[j + 1];
      }
      InsertDescBounded(x, tail, key, key(s[0]));
      ConsSorted(s[0], InsertDesc(x, tail, key), key);
    }
  }

  lemma {:induction false} InsertDescDistinct<T>(x: T, s: seq<T>, key: T -> string)
    requires DistinctBy(s, key) && forall i :: 0 <= i < |s| ==> key(s[i]) != key(x)
    ensures DistinctBy(InsertDesc(x, s, key), key)
  {
    if s != [] && !StrLt(key(s[0]), key(x)) {
      var tail := s[1..];
      var rest := InsertDesc(x, tail, key);
      InsertDescDistinct(x, tail, key);
      InsertDescPermutation(x, tail, key);
      forall j | 0 <= j < |rest| ensures key(rest[j]) != key(s[0]) {
        assert rest[j] in multiset(rest);
        if rest[j] != x {
          assert rest[j] in multiset(tail);
          var p :| 0 <= p < |tail| && tail[p] == rest[j];
          assert s[p + 1] == rest[j];
        }
      }
    }
  }

  /** The sort rearranges its input. */
  lemma {:induction false} SortDescPermutation<T>(s: seq<T>, key: T -> string)
    ensures multiset(SortDesc(s, key)) == multiset(s)
  {
    if s != [] {
      var n := |s| - 1;
      SortDescPermutation(s[..n], key);
      InsertDescPermutation(s[n], SortDesc(s[..n], key), key);
      assert s == s[..n] + [s[n]];
    }
  }

  /** The sort leaves its result in descending key order. */
  lemma {:induction false} SortDescSorted<T>(s: seq<T>, key: T -> string)
    ensures SortedDesc(SortDesc(s, key), key)
  {
    if s != [] {
      var n := |s| - 1;
      SortDescSorted(s[..n], key);
      InsertDescSorted(s[n], SortDesc(s[..n], key), key);
    }
  }

  /** Sorting keeps keys distinct. */
  lemma {:induction false} SortDescDistinct<T>(s: seq<T>, key: T -> string)
    requires DistinctBy(s, key)
    ensures DistinctBy(SortDesc(s, key), key)
  {
    if s != [] {
      var n := |s| - 1;
      var sorted := SortDesc(s[..n], key);
      SortDescDistinct(s[..n], key);
      SortDescPermutation(s[..n], key);
      forall i | 0 <= i < |sorted| ensures key(sorted[i]) != key(s[n]) {
        assert sorted[i] in multiset(s[..n]);
        var p :| 0 <= p < n && s[..n][p] == sorted[i];
        assert s[p] == sorted[i];
      }
      InsertDescDistinct(s[n], sorted, key);
    }
  }

  // ---------------------------------------------------------------------------
  // The analytics of a scan
  // ---------------------------------------------------------------------------

  /** The counting key of a record's capture time: the part before the first `T`, or
      `"unknown"` when the record has no `captured_at` or that part is empty. */
  function DateKey(capturedAt: Option<string>): (r: string)
    ensures r != ""
    ensures r == "unknown" || (capturedAt.Some? && r <= capturedAt.value && 'T' !in r &&
                               (r == capturedAt.value || capturedAt.value[|r|] == 'T'))
    ensures capturedAt.Some? && capturedAt.value != [] && capturedAt.value[0] != 'T' ==>
              r == BeforeFirst(capturedAt.value, 'T')
  {
    match capturedAt
    case None => "unknown"
    case Some(c) => var d := BeforeFirst(c, 'T'); if d == "" then "unknown" else d
  }

  function SourceKeys(records: seq<Record>): (keys: seq<string>)
    ensures |keys| == |records| && forall i :: 0 <= i < |records| ==> keys[i] == records[i].source
  {
    seq(|records|, i requires 0 <= i < |records| => records[i].source)
  }

  function DateKeys(records: seq<Record>): (keys: seq<string>)
    ensures |keys| == |records| && forall i :: 0 <= i < |records| ==> keys[i] == DateKey(records[i].capturedAt)
  {
    seq(|records|, i requires 0 <= i < |records| => DateKey(records[i].capturedAt))
  }

  function EntryKey(e: (string, nat)): string { e.0 }

  /** The first seven entries (`slice(0, 7)`). */
  function FirstSeven<T>(s: seq<T>): (r: seq<T>)
    ensures |r| == if |s| < 7 then |s| else 7
    ensures r <= s
  {
    if |s| < 7 then s else s[..7]
  }

  /** `sortedDates`: the date counts sorted by descending date key, cut to seven. */
  function TopDates(records: seq<Record>): Tally {
    FirstSeven(SortDesc(TallyOf(DateKeys(records)), EntryKey))
  }

  /** `captured_at` is truthy. */
  predicate HasCapture(r: Record) {
    r.capturedAt.Some? && r.capturedAt.value != ""
  }

  function Capture(r: Record): string {
    r.capturedAt.GetOr("")
  }

  function Captured(records: seq<Record>): (r: seq<Record>)
    ensures forall x :: x in r <==> x in records && HasCapture(x)
  {
    if records == [] then []
    else (if HasCapture(records[0]) then [records[0]] else []) + Captured(records[1..])
  }

  /** `sortedByDate`: the records with a capture time, newest first. */
  function ByCapture(records: seq<Record>): seq<Record> {
    SortDesc(Captured(records), Capture)
  }

  function Newest(records: seq<Record>): Option<string> {
    var sorted := ByCapture(records);
    if sorted == [] then None else Some(Capture(sorted[0]))
  }

  function Oldest(records: seq<Record>): Option<string> {
    var sorted := ByCapture(records);
    if sorted == [] then None else Some(Capture(sorted[|sorted| - 1]))
  }

  datatype Summary = Summary(
    totalRecords: nat,
    totalSources: nat,
    oldestRecord: Option<string>,    // None is `undefined`, which JSON.stringify omits
    newestRecord: Option<string>)

  datatype TimelinePoint = TimelinePoint(date: string, count: nat)

  /** The body of a successful `GET /analytics`. */
  datatype Report = Report(
    summary: Summary,
    bySource: Tally,
    byDate: Tally,
    timeline: seq<TimelinePoint>)

  function Timeline(dates: Tally): (points: seq<TimelinePoint>)
    ensures |points| == |dates|
    ensures forall i :: 0 <= i < |dates| ==> points[i] == TimelinePoint(dates[i].0, dates[i].1)
  {
    seq(|dates|, i requires 0 <= i < |dates| => TimelinePoint(dates[i].0, dates[i].1))
  }

  function Aggregate(records: seq<Record>): Report {
    var bySource := TallyOf(SourceKeys(records));
    var top := TopDates(records);
    Report(Summary(|records|, |bySource|, Oldest(records), Newest(records)),
           bySource, top, Timeline(top))
  }

  lemma AggregateParts(records: seq<Record>)
    ensures Aggregate(records).summary.totalRecords == |records|
    ensures Aggregate(records).summary.totalSources == |TallyOf(SourceKeys(records))|
    ensures Aggregate(records).bySource == TallyOf(SourceKeys(records))
    ensures Aggregate(records).byDate == TopDates(records)
    ensures Aggregate(records).timeline == Timeline(TopDates(records))
  {
  }

  // ---------------------------------------------------------------------------
  // What the report says about the records
  // ---------------------------------------------------------------------------

  /** `by_source[s]` is the number of records from `s`, and `by_source` has a property
      exactly for the sources that occur. */
  lemma BySourceCount(records: seq<Record>, s: string)
    ensures Lookup(Aggregate(records).bySource, s) == multiset(SourceKeys(records))[s]
    ensures HasKey(Aggregate(records).bySource, s) <==> exists i :: 0 <= i < |records| && records[i].source == s
  {
    var keys := SourceKeys(records);
    AggregateParts(records);
    TallyLookup(keys, s);
    TallyHasKey(keys, s);
    if s in keys {
      var i :| 0 <= i < |keys| && keys[i] == s;
    }
  }

  /** The `by_source` counts add up to `total_records`, and `total_sources` is the number of
      distinct sources. */
  lemma BySourceTotals(records: seq<Record>)
    ensures Sum(Aggregate(records).bySource) == Aggregate(records).summary.totalRecords
    ensures Aggregate(records).summary.totalSources == |set i | 0 <= i < |records| :: records[i].source|
  {
    var keys := SourceKeys(records);
    AggregateParts(records);
    TallyTotals(keys);
    SourceSet(records);
  }

  lemma SourceSet(records: seq<Record>)
    ensures (set k | k in SourceKeys(records)) == set i | 0 <= i < |records| :: records[i].source
  {
    var keys := SourceKeys(records);
    forall k | k in keys ensures k in set i | 0 <= i < |records| :: records[i].source {
      var i :| 0 <= i < |keys| && keys[i] == k;
    }
  }

  /** Before the cut to seven, each date key counts its records and the counts add up to the
      number of records. */
  lemma ByDateTotal(records: seq<Record>, d: string)
    ensures Lookup(TallyOf(DateKeys(records)), d) == multiset(DateKeys(records))[d]
    ensures Sum(TallyOf(DateKeys(records))) == |records|
  {
    TallyLookup(DateKeys(records), d);
    TallyTotals(DateKeys(records));
  }

  /** The date counts, sorted: a rearrangement of the counting object, in descending
      order of distinct date keys. */
  lemma SortedTally(keys: seq<string>)
    ensures var all := TallyOf(keys);
      var sorted := SortDesc(all, EntryKey);
      DistinctKeys(all) && multiset(sorted) == multiset(all) && |sorted| == |all| &&
      SortedDesc(sorted, EntryKey) && DistinctBy(sorted, EntryKey)
  {
    var all := TallyOf(keys);
    var sorted := SortDesc(all, EntryKey);
    TallyDistinct(keys);
    SortDescPermutation(all, EntryKey);
    SortDescSorted(all, EntryKey);
    assert DistinctBy(all, EntryKey);
    SortDescDistinct(all, EntryKey);
    assert |multiset(sorted)| == |multiset(all)|;
  }

  /** `by_date` holds seven entries, or one per date key when there are fewer. */
  lemma TopDatesSize(records: seq<Record>)
    ensures var distinct := |set k | k in DateKeys(records)|;
      |TopDates(records)| == if distinct < 7 then distinct else 7
  {
    SortedTally(DateKeys(records));
    TallyTotals(DateKeys(records));
  }

  /** Each `by_date` entry is a date key that occurs, with its count. */
  lemma TopDateCount(records: seq<Record>, i: nat)
    requires i < |TopDates(records)|
    ensures TopDates(records)[i].0 in DateKeys(records)
    ensures TopDates(records)[i].1 == multiset(DateKeys(records))[TopDates(records)[i].0]
  {
    var keys := DateKeys(records);
    var all := TallyOf(keys);
    var sorted := SortDesc(all, EntryKey);
    var e := TopDates(records)[i];
    SortedTally(keys);
    assert e == sorted[i];
    assert e in multiset(all);
    var p :| 0 <= p < |all| && all[p] == e;
    assert HasKey(all, e.0);
    TallyHasKey(keys, e.0);
    LookupEntry(all, e);
    TallyLookup(keys, e.0);
  }

  /** The `by_date` keys are strictly descending. */
  lemma TopDatesDescending(records: seq<Record>, i: nat, j: nat)
    requires i < j < |TopDates(records)|
    ensures StrLt(TopDates(records)[j].0, TopDates(records)[i].0)
  {
    var sorted := SortDesc(TallyOf(DateKeys(records)), EntryKey);
    SortedTally(DateKeys(records));
    assert TopDates(records)[i] == sorted[i] && TopDates(records)[j] == sorted[j];
    assert EntryKey(sorted[i]) != EntryKey(sorted[j]);
  }

  /** A date key left out of `by_date` is smaller than every key kept. */
  lemma TopDatesGreatest(records: seq<Record>, k: string, i: nat)
    requires k in DateKeys(records)
    requires forall j :: 0 <= j < |TopDates(records)| ==> TopDates(records)[j].0 != k
    requires i < |TopDates(records)|
    ensures StrLt(k, TopDates(records)[i].0)
  {
    var keys := DateKeys(records);
    var all := TallyOf(keys);
    var sorted := SortDesc(all, EntryKey);
    var top := TopDates(records);
    SortedTally(keys);
    TallyHasKey(keys, k);
    var p :| 0 <= p < |all| && all[p].0 == k;
    assert all[p] in multiset(sorted);
    var q :| 0 <= q < |sorted| && sorted[q] == all[p];
    assert top[i] == sorted[i];
    assert i < q;
    assert StrLe(EntryKey(sorted[q]), EntryKey(sorted[i]));
  }

  /** The timeline lists the `by_date` entries in the same descending order. */
  lemma TimelineKeepsOrder(dates: Tally, i: nat)
    requires 0 < i < |dates| && StrLt(dates[i].0, dates[i - 1].0)
    ensures StrLt(Timeline(dates)[i].date, Timeline(dates)[i - 1].date)
  {
  }

  lemma TimelineFollowsByDate(records: seq<Record>, i: nat)
    requires i < |Aggregate(records).byDate|
    ensures |Aggregate(records).timeline| == |Aggregate(records).byDate| <= 7
    ensures Aggregate(records).timeline[i] ==
              TimelinePoint(Aggregate(records).byDate[i].0, Aggregate(records).byDate[i].1)
    ensures i > 0 ==> StrLt(Aggregate(records).timeline[i].date, Aggregate(records).timeline[i - 1].date)
  {
    AggregateParts(records);
    if i > 0 {
      TopDatesDescending(records, i - 1, i);
      TimelineKeepsOrder(TopDates(records), i);
    }
  }

  /** When every capture date starts with a digit, an `"unknown"` date key sorts first. */
  lemma UnknownFirst(records: seq<Record>)
    requires "unknown" in DateKeys(records)
    requires forall i :: 0 <= i < |records| && DateKey(records[i].capturedAt) != "unknown" ==>
               IsDigit(DateKey(records[i].capturedAt)[0])
    ensures TopDates(records) != [] && TopDates(records)[0].0 == "unknown"
  {
    var keys := DateKeys(records);
    TopDatesSize(records);
    assert |set k | k in keys| > 0 by { assert "unknown" in set k | k in keys; }
    var first := TopDates(records)[0].0;
    if first != "unknown" {
      DatedBelowUnknown(records, 0);
      UnknownNotBelowFirst(records);
      StrLtAsymmetric(first, "unknown");
    }
  }

  /** A date key other than `"unknown"` that starts with a digit sorts below `"unknown"`. */
  lemma DatedBelowUnknown(records: seq<Record>, i: nat)
    requires forall i :: 0 <= i < |records| && DateKey(records[i].capturedAt) != "unknown" ==>
               IsDigit(DateKey(records[i].capturedAt)[0])
    requires i < |TopDates(records)| && TopDates(records)[i].0 != "unknown"
    ensures StrLt(TopDates(records)[i].0, "unknown")
  {
    var d := TopDates(records)[i].0;
    var keys := DateKeys(records);
    TopDateCount(records, i);
    var p :| 0 <= p < |keys| && keys[p] == d;
    assert IsDigit(d[0]);
    assert d[0] < "unknown"[0];
  }

  /** A date key that occurs is never above the first `by_date` entry. */
  lemma UnknownNotBelowFirst(records: seq<Record>)
    requires "unknown" in DateKeys(records) && TopDates(records) != []
    ensures StrLe("unknown", TopDates(records)[0].0)
  {
    var top := TopDates(records);
    if exists j :: 0 < j < |top| && top[j].0 == "unknown" {
      var j :| 0 < j < |top| && top[j].0 == "unknown";
      TopDatesDescending(records, 0, j);
    } else if top[0].0 != "unknown" {
      TopDatesGreatest(records, "unknown", 0);
    }
  }

  lemma ByCaptureSorted(records: seq<Record>)
    ensures multiset(ByCapture(records)) == multiset(Captured(records))
    ensures forall x :: x in ByCapture(records) <==> x in records && HasCapture(x)
    ensures SortedDesc(ByCapture(records), Capture)
  {
    SortDescPermutation(Captured(records), Capture);
    SortDescSorted(Captured(records), Capture);
    forall x ensures x in ByCapture(records) <==> x in Captured(records) {
      assert x in ByCapture(records) <==> x in multiset(ByCapture(records));
    }
  }

  /** In a sequence sorted from greatest to least, the first key bounds every key from
      above and the last from below. */
  lemma SortedEnds<T>(s: seq<T>, key: T -> string)
    requires SortedDesc(s, key) && s != []
    ensures forall x :: x in s ==> StrLe(key(x), key(s[0])) && StrLe(key(s[|s| - 1]), key(x))
  {
    forall x | x in s ensures StrLe(key(x), key(s[0])) && StrLe(key(s[|s| - 1]), key(x)) {
      var p :| 0 <= p < |s| && s[p] == x;
      if 0 < p {
        assert StrLe(key(s[p]), key(s[0]));
      }
      if p < |s| - 1 {
        assert StrLe(key(s[|s| - 1]), key(s[p]));
      }
    }
  }

  /** `newest_record` is the greatest non-empty `captured_at`, undefined exactly when no
      record has one. */
  lemma NewestIsGreatest(records: seq<Record>)
    ensures Newest(records).None? <==> forall r :: r in records ==> !HasCapture(r)
    ensures Newest(records).Some? ==>
      (exists r :: r in records && HasCapture(r) && Capture(r) == Newest(records).value) &&
      forall r :: r in records && HasCapture(r) ==> StrLe(Capture(r), Newest(records).value)
  {
    var sorted := ByCapture(records);
    ByCaptureSorted(records);
    if sorted != [] {
      SortedEnds(sorted, Capture);
      assert sorted[0] in sorted;
    }
  }

  /** `oldest_record` is the least non-empty `captured_at`, undefined exactly when no
      record has one. */
  lemma OldestIsLeast(records: seq<Record>)
    ensures Oldest(records).None? <==> forall r :: r in records ==> !HasCapture(r)
    ensures Oldest(records).Some? ==>
      (exists r :: r in records && HasCapture(r) && Capture(r) == Oldest(records).value) &&
      forall r :: r in records && HasCapture(r) ==> StrLe(Oldest(records).value, Capture(r))
  {
    var sorted := ByCapture(records);
    ByCaptureSorted(records);
    if sorted != [] {
      SortedEnds(sorted, Capture);
      assert sorted[|sorted| - 1] in sorted;
    }
  }
}
