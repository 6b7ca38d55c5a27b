/**
  The histogram behind the dashboard's trend-duration charts: how many runs
  lasted each number of candles, listed by ascending duration.
 */
module DurationFrequency {

  /** One bar of the histogram: a duration and how many runs had it. */
  datatype DurationCount = DurationCount(duration: int, count: nat)

  /** How often `d` occurs in `s`. */
  function Occurrences(s: seq<int>, d: int): nat
  {
    if s == [] then 0
    else Occurrences(s[..|s| - 1], d) + (if s[|s| - 1] == d then 1 else 0)
  }

  /** A duration has a positive count exactly when it occurs. */
  lemma {:induction false} OccurrencesPositive(s: seq<int>, d: int)
    ensures Occurrences(s, d) > 0 <==> d in s
  {
    if s != [] {
      var init := s[..|s| - 1];
      OccurrencesPositive(init, d);
      assert s == init + [s[|s| - 1]];
    }
  }

  lemma OccurrencesAppend(s: seq<int>, x: int, d: int)
    ensures Occurrences(s + [x], d) == Occurrences(s, d) + (if x == d then 1 else 0)
  {
    assert (s + [x])[..|s|] == s;
  }

  /** Strictly ascending, hence free of repetitions. */
  predicate Increasing(ks: seq<int>)
  {
    forall i, j :: 0 <= i < j < |ks| ==> ks[i] < ks[j]
  }

  /** An element of a strictly ascending sequence occurs in it exactly once. */
  lemma {:induction false} OccursOnce(ks: seq<int>, x: int)
    requires Increasing(ks) && x in ks
    ensures Occurrences(ks, x) == 1
  {
    var init := ks[..|ks| - 1];
    var last := ks[|ks| - 1];
    assert ks == init + [last];
    if x == last {
      assert x !in init by {
        forall i | 0 <= i < |init|
          ensures init[i] != x
        {
          assert ks[i] < ks[|ks| - 1];
        }
      }
      OccurrencesPositive(init, x);
    } else {
      OccursOnce(init, x);
    }
  }

  /** The durations of the bars, in order. */
  function DurationList(bars: seq<DurationCount>): (ds: seq<int>)
    ensures |ds| == |bars| && forall i :: 0 <= i < |bars| ==> ds[i] == bars[i].duration
  {
    seq(|bars|, i requires 0 <= i < |bars| => bars[i].duration)
  }

  /** No two bars share a duration, as no two keys of a table coincide. */
  predicate DistinctDurations(bars: seq<DurationCount>)
  {
    forall i, j :: 0 <= i < j < |bars| ==> bars[i].duration != bars[j].duration
  }

  /** Bars in ascending order of duration, ties allowed. */
  predicate SortedByDuration(bars: seq<DurationCount>)
  {
    forall i, j :: 0 <= i < j < |bars| ==> bars[i].duration <= bars[j].duration
  }

  /**
    The table's entries in the order its keys were first inserted, each key
    with its count; a key listed twice would be enumerated once, so the order
    holds each key once.
   */
  function Entries(frequency: map<int, nat>, order: seq<int>): (entries: seq<DurationCount>)
    requires forall k :: k in order ==> k in frequency
    ensures DurationList(entries) == order
    ensures forall i :: 0 <= i < |entries| ==> entries[i].count == frequency[entries[i].duration]
  {
    if order == [] then []
    else
      var init := order[..|order| - 1];
      var last := order[|order| - 1];
      assert forall k :: k in init ==> k in order;
      var entries := Entries(frequency, init) + [DurationCount(last, frequency[last])];
      assert DurationList(entries) == DurationList(Entries(frequency, init)) + [last];
      assert order == init + [last];
      entries
  }

  /** Places a bar after every bar of shorter or equal duration. */
  function Insert(bar: DurationCount, sorted: seq<DurationCount>): (r: seq<DurationCount>)
    ensures multiset(r) == multiset(sorted) + multiset{bar}
  {
    if sorted == [] then [bar]
    else if bar.duration < sorted[0].duration then [bar] + sorted
    else
      assert sorted == [sorted[0]] + sorted[1..];
      [sorted[0]] + Insert(bar, sorted[1..])
  }

  /** Inserting a bar bounded below by `lo` into bars bounded below by `lo` keeps the bound, and keeps them sorted. */
  lemma {:induction false} InsertSorted(bar: DurationCount, sorted: seq<DurationCount>, lo: int)
    requires SortedByDuration(sorted)
    requires lo <= bar.duration && forall i :: 0 <= i < |sorted| ==> lo <= sorted[i].duration
    ensures SortedByDuration(Insert(bar, sorted))
    ensures forall i :: 0 <= i < |Insert(bar, sorted)| ==> lo <= Insert(bar, sorted)[i].duration
  {
    var r := Insert(bar, sorted);
    if sorted == [] || bar.duration < sorted[0].duration {
      forall i | 0 <= i < |sorted|
        ensures bar.duration <= sorted[i].duration
      {
        assert sorted[0].duration <= sorted[i].duration;
      }
      PrependSorted(bar, sorted);
    } else {
      var tail := sorted[1..];
      assert SortedByDuration(tail) by {
        forall i, j | 0 <= i < j < |tail|
          ensures tail[i].duration <= tail[j].duration
        {
          assert tail[i] == sorted[i + 1] && tail[j] == sorted[j + 1];
        }
      }
      forall i | 0 <= i < |tail|
        ensures sorted[0].duration <= tail[i].duration
      {
        assert tail[i] == sorted[i + 1];
      }
      InsertSorted(bar, tail, sorted[0].duration);
      PrependSorted(sorted[0], Insert(bar, tail));
    }
    forall i | 0 <= i < |r|
      ensures lo <= r[i].duration
    {
      assert r[0].duration <= r[i].duration;
    }
  }

  /** A bar no longer than any of a sorted list can go in front of it. */
  lemma PrependSorted(bar: DurationCount, sorted: seq<DurationCount>)
    requires SortedByDuration(sorted)
    requires forall i :: 0 <= i < |sorted| ==> bar.duration <= sorted[i].duration
    ensures SortedByDuration([bar] + sorted)
  {
    var r := [bar] + sorted;
    forall i, j | 0 <= i < j < |r|
      ensures r[i].duration <= r[j].duration
    {
      assert r[j] == sorted[j - 1];
      if i > 0 {
        assert r[i] == sorted[i - 1];
      }
    }
  }

  /** The bars sorted by ascending duration: the comparator of the original orders by key. */
  function SortByDuration(entries: seq<DurationCount>): (sorted: seq<DurationCount>)
    ensures multiset(sorted) == multiset(entries)
    ensures SortedByDuration(sorted)
  {
    if entries == [] then []
    else
      assert entries == [entries[0]] + entries[1..];
      var rest := SortByDuration(entries[1..]);
      var lo := if rest == [] || entries[0].duration < rest[0].duration then entries[0].duration else rest[0].duration;
      InsertSorted(entries[0], rest, lo);
      Insert(entries[0], rest)
  }

  /** A repetition-free sequence holds each element once. */
  lemma {:induction false} DistinctOnce(bars: seq<DurationCount>, x: DurationCount)
    requires DistinctDurations(bars)
    ensures multiset(bars)[x] <= 1
  {
    if bars != [] {
      var tail := bars[1..];
      assert bars == [bars[0]] + tail;
      assert DistinctDurations(tail) by {
        forall i, j | 0 <= i < j < |tail|
          ensures tail[i].duration != tail[j].duration
        {
          assert tail[i] == bars[i + 1] && tail[j] == bars[j + 1];
        }
      }
      DistinctOnce(tail, x);
      if bars[0] == x {
        assert x !in tail by {
          forall i | 0 <= i < |tail|
            ensures tail[i] != x
          {
            assert bars[0].duration != bars[i + 1].duration;
          }
        }
      }
    }
  }

  /** Two positions holding the same bar make it occur twice. */
  lemma TwoCopies(bars: seq<DurationCount>, i: nat, j: nat)
    requires i < j < |bars| && bars[i] == bars[j]
    ensures multiset(bars)[bars[i]] >= 2
  {
    assert bars == bars[..j] + [bars[j]] + bars[j + 1..];
    assert bars[i] in bars[..j];
  }

  /** Rearranging bars with distinct durations keeps the durations distinct. */
  lemma PermutationKeepsDistinct(a: seq<DurationCount>, b: seq<DurationCount>)
    requires multiset(a) == multiset(b) && DistinctDurations(a)
    ensures DistinctDurations(b)
  {
    forall i, j | 0 <= i < j < |b|
      ensures b[i].duration != b[j].duration
    {
      if b[i].duration == b[j].duration {
        assert b[i] in multiset(a) && b[j] in multiset(a);
        var k :| 0 <= k < |a| && a[k] == b[i];
        var l :| 0 <= l < |a| && a[l] == b[j];
        assert k == l;
        TwoCopies(b, i, j);
        DistinctOnce(a, b[i]);
      }
    }
  }

  /** The total of the bar counts: the number of runs the histogram accounts for. */
  function TotalCount(bars: seq<DurationCount>): nat
  {
    if bars == [] then 0 else TotalCount(bars[..|bars| - 1]) + bars[|bars| - 1].count
  }

  /** The occurrences in `s` of the durations `ks`, added up. */
  function OccurrencesOfAll(s: seq<int>, ks: seq<int>): nat
  {
    if ks == [] then 0 else OccurrencesOfAll(s, ks[..|ks| - 1]) + Occurrences(s, ks[|ks| - 1])
  }

  lemma {:induction false} OccurrencesOfAllAppend(s: seq<int>, x: int, ks: seq<int>)
    ensures OccurrencesOfAll(s + [x], ks) == OccurrencesOfAll(s, ks) + Occurrences(ks, x)
  {
    if ks != [] {
      OccurrencesOfAllAppend(s, x, ks[..|ks| - 1]);
      OccurrencesAppend(s, x, ks[|ks| - 1]);
    }
  }

  lemma {:induction false} OccurrencesOfAllNone(ks: seq<int>)
    ensures OccurrencesOfAll([], ks) == 0
  {
    if ks != [] {
      OccurrencesOfAllNone(ks[..|ks| - 1]);
    }
  }

  /**
    Counting, in `s`, every duration of a repetition-free list that covers `s`
    accounts for every element of `s` exactly once.
   */
  lemma {:induction false} OccurrencesOfAllCover(s: seq<int>, ks: seq<int>)
    requires Increasing(ks)
    requires forall x :: x in s ==> x in ks
    ensures OccurrencesOfAll(s, ks) == |s|
  {
    if s == [] {
      OccurrencesOfAllNone(ks);
    } else {
      var init := s[..|s| - 1];
      var last := s[|s| - 1];
      assert s == init + [last];
      OccurrencesOfAllCover(init, ks);
      OccurrencesOfAllAppend(init, last, ks);
      OccursOnce(ks, last);
    }
  }

  /** Bars whose counts are the occurrences in `s` total the occurrences of their durations. */
  lemma {:induction false} TotalOfBars(s: seq<int>, bars: seq<DurationCount>)
    requires forall i :: 0 <= i < |bars| ==> bars[i].count == Occurrences(s, bars[i].duration)
    ensures TotalCount(bars) == OccurrencesOfAll(s, DurationList(bars))
  {
    if bars != [] {
      var init := bars[..|bars| - 1];
      TotalOfBars(s, init);
      assert DurationList(bars)[..|bars| - 1] == DurationList(init);
    }
  }

  /**
    The counting pass: a table from each duration to its number of
    occurrences, and the order in which the table's keys were first set.
   */
  method CountDurations(durations: seq<int>) returns (frequency: map<int, nat>, order: seq<int>)
    ensures forall d :: d in frequency <==> d in durations
    ensures forall d :: d in order <==> d in frequency
    ensures forall a, b :: 0 <= a < b < |order| ==> order[a] != order[b]
    ensures forall d :: d in frequency ==> frequency[d] == Occurrences(durations, d)
  {
    frequency := map[];
    order := [];
    for i := 0 to |durations|
      invariant forall d :: d in frequency <==> d in durations[..i]
      invariant forall d :: d in order <==> d in frequency
      invariant forall a, b :: 0 <= a < b < |order| ==> order[a] != order[b]
      invariant forall d :: d in frequency ==> frequency[d] == Occurrences(durations[..i], d)
    {
      var duration := durations[i];
      assert durations[..i + 1] == durations[..i] + [duration];
      forall d
        ensures Occurrences(durations[..i + 1], d) == Occurrences(durations[..i], d) + (if duration == d then 1 else 0)
      {
        OccurrencesAppend(durations[..i], duration, d);
      }
      if duration in frequency {
        frequency := frequency[duration := frequency[duration] + 1];
      } else {
        OccurrencesPositive(durations[..i], duration);
        frequency := frequency[duration := 1];
        order := order + [duration];
      }
    }
    assert durations[..|durations|] == durations;
  }

  /**
    Counts how often each duration occurs and lists the counts by ascending
    duration. Every duration of the input has exactly one bar, whose count is
    its number of occurrences, and the counts add up to the number of runs.
   */
  method GenerateDurationFrequency(durations: seq<int>) returns (sortedData: seq<DurationCount>)
    ensures Increasing(DurationList(sortedData))
    ensures forall d :: d in durations <==> d in DurationList(sortedData)
    ensures forall i :: 0 <= i < |sortedData| ==>
              sortedData[i].count == Occurrences(durations, sortedData[i].duration) >= 1
    ensures TotalCount(sortedData) == |durations|
    ensures durations == [] ==> sortedData == []
  {
    var frequency, order := CountDurations(durations);
    sortedData := SortByDuration(Entries(frequency, order));
    SortedBarsDistinct(frequency, order, sortedData);
    SortedBarsCount(durations, frequency, order, sortedData);
    TotalOfBars(durations, sortedData);
    OccurrencesOfAllCover(durations, DurationList(sortedData));
  }

  /** Sorting entries with distinct keys leaves the durations strictly ascending. */
  lemma SortedBarsDistinct(frequency: map<int, nat>, order: seq<int>, sorted: seq<DurationCount>)
    requires forall d :: d in order ==> d in frequency
    requires forall a, b :: 0 <= a < b < |order| ==> order[a] != order[b]
    requires multiset(sorted) == multiset(Entries(frequency, order)) && SortedByDuration(sorted)
    ensures Increasing(DurationList(sorted))
  {
    var entries := Entries(frequency, order);
    assert DistinctDurations(entries) by {
      assert DurationList(entries) == order;
    }
    PermutationKeepsDistinct(entries, sorted);
  }

  /** Every sorted bar is one of the table's entries. */
  lemma BarsAreEntries(frequency: map<int, nat>, order: seq<int>, sorted: seq<DurationCount>)
    requires forall d :: d in order ==> d in frequency
    requires multiset(sorted) == multiset(Entries(frequency, order))
    ensures forall i :: 0 <= i < |sorted| ==>
              sorted[i].duration in order && sorted[i].count == frequency[sorted[i].duration]
  {
    var entries := Entries(frequency, order);
    forall i | 0 <= i < |sorted|
      ensures sorted[i].duration in order && sorted[i].count == frequency[sorted[i].duration]
    {
      assert sorted[i] in multiset(entries);
      var k :| 0 <= k < |entries| && entries[k] == sorted[i];
      assert DurationList(entries)[k] == order[k];
    }
  }

  /** Every key of the table has a sorted bar. */
  lemma EntriesAreBars(frequency: map<int, nat>, order: seq<int>, sorted: seq<DurationCount>)
    requires forall d :: d in order ==> d in frequency
    requires multiset(sorted) == multiset(Entries(frequency, order))
    ensures forall d :: d in order ==> d in DurationList(sorted)
  {
    var entries := Entries(frequency, order);
    forall d | d in order
      ensures d in DurationList(sorted)
    {
      var k :| 0 <= k < |order| && order[k] == d;
      assert DurationList(entries)[k] == d;
      assert entries[k] in multiset(sorted);
      var i :| 0 <= i < |sorted| && sorted[i] == entries[k];
      assert DurationList(sorted)[i] == d;
    }
  }

  /**
    When the table holds the occurrence counts of `s`, each sorted bar carries
    its duration's count, and the bars' durations are exactly those of `s`.
   */
  lemma SortedBarsCount(s: seq<int>, frequency: map<int, nat>, order: seq<int>, sorted: seq<DurationCount>)
    requires forall d :: d in frequency <==> d in s
    requires forall d :: d in order <==> d in frequency
    requires forall d :: d in frequency ==> frequency[d] == Occurrences(s, d)
    requires multiset(sorted) == multiset(Entries(frequency, order))
    ensures forall i :: 0 <= i < |sorted| ==> sorted[i].count == Occurrences(s, sorted[i].duration) >= 1
    ensures forall d :: d in s <==> d in DurationList(sorted)
  {
    BarsAreEntries(frequency, order, sorted);
    EntriesAreBars(frequency, order, sorted);
    forall i | 0 <= i < |sorted|
      ensures Occurrences(s, sorted[i].duration) >= 1
    {
      OccurrencesPositive(s, sorted[i].duration);
    }
    forall d | d in DurationList(sorted)
      ensures d in s
    {
      var i :| 0 <= i < |sorted| && DurationList(sorted)[i] == d;
      assert sorted[i].duration in order;
    }
  }

  /** Bars with strictly ascending durations. */
  /**
    Two strictly ascending arrangements of the same bars are the same sequence:
    any sort by the numeric value of the keys, stable or not, gives the result
    that GenerateDurationFrequency returns.
   */
  lemma {:induction false} AscendingArrangementUnique(a: seq<DurationCount>, b: seq<DurationCount>)
    requires multiset(a) == multiset(b)
    requires Increasing(DurationList(a)) && Increasing(DurationList(b))
    ensures a == b
  {
    if a == [] {
      assert |b| == |multiset(b)| == 0;
    } else {
      AscendingHeadsEqual(a, b);
      SameTails(a, b);
      assert DurationList(a[1..]) == DurationList(a)[1..];
      assert DurationList(b[1..]) == DurationList(b)[1..];
      AscendingArrangementUnique(a[1..], b[1..]);
      assert a == [a[0]] + a[1..] && b == [b[0]] + b[1..];
    }
  }

  /** The shortest pair heads every strictly ascending arrangement. */
  lemma AscendingHeadsEqual(a: seq<DurationCount>, b: seq<DurationCount>)
    requires multiset(a) == multiset(b) && a != []
    requires Increasing(DurationList(a)) && Increasing(DurationList(b))
    ensures b != [] && a[0] == b[0]
  {
    assert a[0] in multiset(b);
    var k :| 0 <= k < |b| && b[k] == a[0];
    assert b[0] in multiset(a);
    var m :| 0 <= m < |a| && a[m] == b[0];
    assert DurationList(a)[0] <= DurationList(a)[m];
    assert DurationList(b)[0] <= DurationList(b)[k];
  }

  /** Removing the same head from two arrangements of the same pairs leaves arrangements of the same pairs. */
  lemma SameTails(a: seq<DurationCount>, b: seq<DurationCount>)
    requires multiset(a) == multiset(b) && a != [] && b != [] && a[0] == b[0]
    ensures multiset(a[1..]) == multiset(b[1..])
  {
    assert a == [a[0]] + a[1..] && b == [b[0]] + b[1..];
    assert multiset(a) == multiset{a[0]} + multiset(a[1..]);
    assert multiset(b) == multiset{a[0]} + multiset(b[1..]);
    forall x
      ensures multiset(a[1..])[x] == multiset(b[1..])[x]
    {
      assert multiset(a)[x] == multiset{a[0]}[x] + multiset(a[1..])[x];
      assert multiset(b)[x] == multiset{a[0]}[x] + multiset(b[1..])[x];
    }
  }
}
