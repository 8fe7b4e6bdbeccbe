/**
  Historical statistics: the completed cycles between consecutive recorded
  starts, and the two rounded averages shown on the history page.
 */
module History {
  import opened Cycle

  /** A completed cycle: from one recorded start to the next one. */
  datatype CompletedCycle = CompletedCycle(length: int, startDate: int)

  predicate Sorted(s: seq<int>) {
    forall i, j :: 0 <= i < j < |s| ==> s[i] <= s[j]
  }

  /** The start days of the recorded periods, in insertion order. */
  function Starts(ps: seq<Period>): (r: seq<int>)
    ensures |r| == |ps|
    ensures forall i :: 0 <= i < |ps| ==> r[i] == ps[i].start
  {
    if |ps| == 0 then [] else [ps[0].start] + Starts(ps[1..])
  }

  /** Insert `x` into a sorted sequence, keeping it sorted. */
  function Insert(x: int, s: seq<int>): (r: seq<int>)
    requires Sorted(s)
    ensures Sorted(r)
    ensures multiset(r) == multiset(s) + multiset{x}
  {
    if |s| == 0 || x <= s[0] then [x] + s
    else
      var rest := Insert(x, s[1..]);
      assert s == [s[0]] + s[1..];
      assert forall k :: 0 <= k < |rest| ==> s[0] <= rest[k] by {
        forall k | 0 <= k < |rest| ensures s[0] <= rest[k] {
          assert rest[k] in multiset(s[1..]) + multiset{x};
          if rest[k] != x {
            assert rest[k] in multiset(s[1..]);
            var j :| 0 <= j < |s| - 1 && s[1..][j] == rest[k];
            assert s[0] <= s[j + 1];
          }
        }
      }
      [s[0]] + rest
  }

  /** The ascending sort the source applies before pairing consecutive starts. */
  function Sort(s: seq<int>): (r: seq<int>)
    ensures Sorted(r)
    ensures multiset(r) == multiset(s)
  {
    if |s| == 0 then []
    else
      assert s == [s[0]] + s[1..];
      Insert(s[0], Sort(s[1..]))
  }

  /** The head of a sorted sequence is at most each of its elements. */
  lemma SortedHeadIsMin(a: seq<int>, x: int)
    requires Sorted(a) && x in multiset(a)
    ensures |a| > 0 && a[0] <= x
  {
    var i :| 0 <= i < |a| && a[i] == x;
  }

  /** Dropping the head of a sequence keeps it sorted and removes one copy of the head. */
  lemma SortedTail(a: seq<int>)
    requires Sorted(a) && |a| > 0
    ensures Sorted(a[1..])
    ensures multiset(a[1..]) == multiset(a) - multiset{a[0]}
  {
    assert a == [a[0]] + a[1..];
  }

  /** A sorted arrangement of a multiset is unique. */
  lemma {:induction false} SortedUnique(a: seq<int>, b: seq<int>)
    requires Sorted(a) && Sorted(b) && multiset(a) == multiset(b)
    ensures a == b
  {
    if |a| == 0 {
      assert |b| == 0 by { assert |multiset(b)| == 0; }
    } else {
      assert |b| > 0 && a[0] == b[0] by {
        assert a[0] in multiset(b);
        SortedHeadIsMin(b, a[0]);
        SortedHeadIsMin(a, b[0]);
      }
      assert a[1..] == b[1..] by {
        SortedTail(a);
        SortedTail(b);
        SortedUnique(a[1..], b[1..]);
      }
      assert a == [a[0]] + a[1..];
      assert b == [b[0]] + b[1..];
    }
  }

  /** The start days sorted ascending. */
  function SortedStarts(ps: seq<Period>): (r: seq<int>)
    ensures Sorted(r) && |r| == |ps|
    ensures multiset(r) == multiset(Starts(ps))
  {
    var r := Sort(Starts(ps));
    assert |r| == |multiset(r)| == |multiset(Starts(ps))| == |ps|;
    r
  }

  /** The completed cycles of an ascending sequence of starts, one per consecutive pair. */
  function CyclesOf(s: seq<int>): seq<CompletedCycle> {
    if |s| < 2 then [] else [CompletedCycle(s[1] - s[0], s[0])] + CyclesOf(s[1..])
  }

  lemma {:induction false} CyclesOfAt(s: seq<int>)
    ensures |CyclesOf(s)| == if |s| < 2 then 0 else |s| - 1
    ensures forall k {:trigger CyclesOf(s)[k]} :: 0 <= k < |CyclesOf(s)| ==>
      CyclesOf(s)[k] == CompletedCycle(s[k + 1] - s[k], s[k])
  {
    if |s| >= 2 {
      CyclesOfAt(s[1..]);
    }
  }

  /** Sum of the lengths of a list of cycles (the source's reduce from 0). */
  function TotalLength(cs: seq<CompletedCycle>): int {
    if |cs| == 0 then 0 else cs[0].length + TotalLength(cs[1..])
  }

  /** The cycle lengths telescope: together they span from the first start to the last. */
  lemma {:induction false} TotalLengthTelescopes(s: seq<int>)
    requires |s| >= 1
    ensures TotalLength(CyclesOf(s)) == s[|s| - 1] - s[0]
  {
    if |s| >= 2 {
      TotalLengthTelescopes(s[1..]);
    }
  }

  /**
    The completed cycles of the recorded periods: the starts are sorted
    ascending and each consecutive pair gives one cycle, whose length is the
    number of days between the two starts and whose start is the earlier one.
   */
  method CompletedCycles(ps: seq<Period>) returns (cycles: seq<CompletedCycle>)
    ensures |cycles| == if |ps| < 2 then 0 else |ps| - 1
    ensures cycles == CyclesOf(SortedStarts(ps))
    ensures forall k :: 0 <= k < |cycles| ==> cycles[k].length >= 0
    ensures forall j, k :: 0 <= j < k < |cycles| ==> cycles[j].startDate <= cycles[k].startDate
  {
    var sorted := SortedStarts(ps);
    cycles := [];
    var i := 1;
    while i < |sorted|
      invariant 1 <= i <= if |sorted| == 0 then 1 else |sorted|
      invariant |cycles| == i - 1
      invariant forall k {:trigger cycles[k]} :: 0 <= k < i - 1 ==>
        cycles[k] == CompletedCycle(sorted[k + 1] - sorted[k], sorted[k])
    {
      cycles := cycles + [CompletedCycle(sorted[i] - sorted[i - 1], sorted[i - 1])];
      i := i + 1;
    }
    CyclesMatch(sorted, cycles);
  }

  /** A list holding the cycle of every consecutive pair of an ascending `s` is CyclesOf(s). */
  lemma CyclesMatch(s: seq<int>, cycles: seq<CompletedCycle>)
    requires Sorted(s)
    requires |cycles| == if |s| < 2 then 0 else |s| - 1
    requires forall k {:trigger cycles[k]} :: 0 <= k < |cycles| ==> cycles[k] == CompletedCycle(s[k + 1] - s[k], s[k])
    ensures cycles == CyclesOf(s)
    ensures forall k :: 0 <= k < |cycles| ==> cycles[k].length >= 0
    ensures forall j, k :: 0 <= j < k < |cycles| ==> cycles[j].startDate <= cycles[k].startDate
  {
    CyclesOfAt(s);
    assert |cycles| == |CyclesOf(s)|;
    forall k | 0 <= k < |cycles| ensures cycles[k] == CyclesOf(s)[k] && cycles[k].length >= 0 {
      assert s[k] <= s[k + 1];
    }
    forall j, k | 0 <= j < k < |cycles| ensures cycles[j].startDate <= cycles[k].startDate {
      assert cycles[j].startDate == s[j] && cycles[k].startDate == s[k];
      assert s[j] <= s[k];
    }
  }

  /** Completed cycles do not depend on the order in which the periods were recorded. */
  lemma CompletedCyclesOrderInvariant(ps: seq<Period>, qs: seq<Period>)
    requires multiset(Starts(ps)) == multiset(Starts(qs))
    ensures CyclesOf(SortedStarts(ps)) == CyclesOf(SortedStarts(qs))
  {
    SortedUnique(SortedStarts(ps), SortedStarts(qs));
  }

  function Sum(xs: seq<int>): int {
    if |xs| == 0 then 0 else xs[0] + Sum(xs[1..])
  }

  /**
    `r` is sum / n rounded to the nearest integer with halves rounded up, as
    JavaScript's Math.round does: r - 1/2 <= sum / n < r + 1/2.
   */
  predicate IsRoundedMean(r: int, sum: int, n: int) {
    n * (2 * r - 1) <= 2 * sum < n * (2 * r + 1)
  }

  /** Math.round(sum / n) for n >= 1, in integer arithmetic. */
  function RoundedMean(sum: int, n: int): (r: int)
    requires n >= 1
    ensures IsRoundedMean(r, sum, n)
  {
    var q := (2 * sum + n) / (2 * n);
    assert 2 * n * q <= 2 * sum + n < 2 * n * q + 2 * n;
    assert n * (2 * q - 1) == 2 * n * q - n;
    assert n * (2 * q + 1) == 2 * n * q + n;
    q
  }

  lemma MulCancel(n: int, x: int, y: int)
    requires n >= 1 && n * x <= n * y
    ensures x <= y
  {
    assert n * x - n * y == n * (x - y);
  }

  /** The rounding relation determines its result: at most one integer is sum / n rounded. */
  lemma RoundedMeanUnique(r1: int, r2: int, sum: int, n: int)
    requires n >= 1 && IsRoundedMean(r1, sum, n) && IsRoundedMean(r2, sum, n)
    ensures r1 == r2
  {
    MulCancel(n, 2 * r1 - 1, 2 * r2 + 1);
    MulCancel(n, 2 * r2 - 1, 2 * r1 + 1);
  }

  /** When the mean is a whole number, rounding returns exactly it. */
  lemma RoundedMeanExact(sum: int, n: int, c: int)
    requires n >= 1 && sum == n * c
    ensures RoundedMean(sum, n) == c
  {
    assert n * (2 * c - 1) == 2 * sum - n;
    assert n * (2 * c + 1) == 2 * sum + n;
    RoundedMeanUnique(RoundedMean(sum, n), c, sum, n);
  }

  /** The inclusive day counts end - start + 1 of the periods that have an end. */
  function EndedDurations(ps: seq<Period>): (r: seq<int>)
    ensures |r| == |ps| - OpenCount(ps)
  {
    if |ps| == 0 then []
    else if ps[0].end.Some? then [ps[0].end.value - ps[0].start + 1] + EndedDurations(ps[1..])
    else EndedDurations(ps[1..])
  }

  /**
    Recording one more period adds its inclusive length at the end of the
    durations when it has an end, and nothing otherwise.
   */
  lemma {:induction false} EndedDurationsAppend(ps: seq<Period>, p: Period)
    ensures EndedDurations(ps + [p]) ==
      EndedDurations(ps) + (if p.end.Some? then [p.end.value - p.start + 1] else [])
  {
    if |ps| > 0 {
      assert (ps + [p])[1..] == ps[1..] + [p];
      EndedDurationsAppend(ps[1..], p);
    }
  }

  lemma {:induction false} SumAppend(xs: seq<int>, ys: seq<int>)
    ensures Sum(xs + ys) == Sum(xs) + Sum(ys)
  {
    if |xs| > 0 {
      assert (xs + ys)[1..] == xs[1..] + ys;
      SumAppend(xs[1..], ys);
    } else {
      assert xs + ys == ys;
    }
  }

  /** The total the average period is taken over grows by exactly the new period's inclusive length, if it has ended. */
  lemma EndedTotalAppend(ps: seq<Period>, p: Period)
    ensures Sum(EndedDurations(ps + [p])) ==
      Sum(EndedDurations(ps)) + (if p.end.Some? then p.end.value - p.start + 1 else 0)
  {
    EndedDurationsAppend(ps, p);
    SumAppend(EndedDurations(ps), if p.end.Some? then [p.end.value - p.start + 1] else []);
  }

  predicate IsEarliest(p: Period, ps: seq<Period>) {
    p in ps && forall q :: q in ps ==> p.start <= q.start
  }

  /** Every element of a sequence is some element of a rearrangement of it. */
  lemma InRearrangement(s: seq<int>, t: seq<int>, i: int) returns (k: int)
    requires multiset(s) == multiset(t) && 0 <= i < |t|
    ensures 0 <= k < |s| && s[k] == t[i]
  {
    assert t[i] in multiset(s);
    k :| 0 <= k < |s| && s[k] == t[i];
  }

  /** The first sorted start is an earliest start. */
  lemma SortedFirst(ps: seq<Period>, first: Period)
    requires IsEarliest(first, ps)
    ensures SortedStarts(ps)[0] == first.start
  {
    var s := SortedStarts(ps);
    var t := Starts(ps);
    var i :| 0 <= i < |ps| && ps[i] == first;
    var k := InRearrangement(s, t, i);
    var a := InRearrangement(t, s, 0);
    assert s[0] <= s[k];
    assert ps[a] in ps;
  }

  /** The last sorted start is a latest start. */
  lemma SortedLast(ps: seq<Period>, last: Period)
    requires IsLatest(last, ps)
    ensures SortedStarts(ps)[|ps| - 1] == last.start
  {
    var s := SortedStarts(ps);
    var t := Starts(ps);
    var j :| 0 <= j < |ps| && ps[j] == last;
    var k := InRearrangement(s, t, j);
    var b := InRearrangement(t, s, |s| - 1);
    assert s[k] <= s[|s| - 1];
    assert ps[b] in ps;
  }

  /** The first sorted start is an earliest start and the last one a latest start. */
  lemma SortedEnds(ps: seq<Period>, first: Period, last: Period)
    requires IsEarliest(first, ps) && IsLatest(last, ps)
    ensures var s := SortedStarts(ps); s[0] == first.start && s[|s| - 1] == last.start
  {
    SortedFirst(ps, first);
    SortedLast(ps, last);
  }

  /** Together the completed cycles span from the earliest recorded start to the latest. */
  lemma CyclesSpan(ps: seq<Period>, first: Period, last: Period)
    requires IsEarliest(first, ps) && IsLatest(last, ps)
    ensures TotalLength(CyclesOf(SortedStarts(ps))) == last.start - first.start
  {
    SortedEnds(ps, first, last);
    TotalLengthTelescopes(SortedStarts(ps));
  }

  /** The rounded mean cycle length brackets the span from the earliest to the latest start. */
  lemma MeanCycleBounds(ps: seq<Period>, first: Period, last: Period)
    requires |ps| >= 2 && IsEarliest(first, ps) && IsLatest(last, ps)
    ensures IsRoundedMean(RoundedMean(TotalLength(CyclesOf(SortedStarts(ps))), |ps| - 1),
      last.start - first.start, |ps| - 1)
  {
    CyclesSpan(ps, first, last);
  }

  /**
    The two averages of the history page. The average cycle is the rounded
    mean length of the completed cycles, or the configured cycle length when
    there is none; the average period is the rounded mean inclusive length of
    the periods that have an end, or the configured period length.
   */
  method HistoryStats(ps: seq<Period>, st: Settings) returns (avgCycle: int, avgPeriod: int)
    ensures |ps| < 2 ==> avgCycle == st.cycleLength
    ensures |ps| >= 2 ==> forall first, last :: IsEarliest(first, ps) && IsLatest(last, ps) ==>
      IsRoundedMean(avgCycle, last.start - first.start, |ps| - 1)
    ensures |EndedDurations(ps)| == 0 ==> avgPeriod == st.periodLength
    ensures |EndedDurations(ps)| > 0 ==>
      IsRoundedMean(avgPeriod, Sum(EndedDurations(ps)), |EndedDurations(ps)|)
  {
    var cycles := CompletedCycles(ps);
    if |cycles| > 0 {
      avgCycle := RoundedMean(TotalLength(cycles), |cycles|);
      forall first, last | IsEarliest(first, ps) && IsLatest(last, ps)
        ensures IsRoundedMean(avgCycle, last.start - first.start, |ps| - 1)
      {
        MeanCycleBounds(ps, first, last);
      }
    } else {
      avgCycle := st.cycleLength;
    }
    var durations := EndedDurations(ps);
    if |durations| > 0 {
      avgPeriod := RoundedMean(Sum(durations), |durations|);
    } else {
      avgPeriod := st.periodLength;
    }
  }
}
