/**
  The worked examples of the tracker's behaviour, stated for an arbitrary
  first day `d` (day numbers, so 2024-01-01 is `d` and 2024-01-15 is `d + 14`).
 */
module Scenarios {
  import opened Wrappers
  import opened Cycle
  import opened History

  /**
    One logged period from day d to day d + 4 with the default settings:
    day d + 2 is a period day, d + 9 is not, the next period is due on
    d + 28, day d + 14 (the ovulation day) is fertile, and on day d + 19
    the cycle is in its luteal phase.
   */
  lemma {:induction false} SinglePeriodScenario(d: int, id: int)
    ensures var ps := [Period(id, d, Some(d + 4))];
      && IsPeriodDay(ps, DefaultSettings, d + 2)
      && !IsPeriodDay(ps, DefaultSettings, d + 9)
      && NextPeriodDate(ps, DefaultSettings) == Some(d + 28)
      && IsFertileDay(ps, DefaultSettings, d + 14)
      && CurrentPhase(ps, DefaultSettings, d + 19) == Luteal
  {
    var ps := [Period(id, d, Some(d + 4))];
    assert IsLatest(ps[0], ps);
  }

  /** Two starts 29 days apart sort into ascending order. */
  lemma TwoStartsSorted(d: int, id1: int, id2: int)
    ensures SortedStarts([Period(id1, d, None), Period(id2, d + 29, None)]) == [d, d + 29]
  {
    var ps := [Period(id1, d, None), Period(id2, d + 29, None)];
    assert Starts(ps) == [d, d + 29];
    assert Sorted([d, d + 29]);
    SortedUnique(SortedStarts(ps), [d, d + 29]);
  }

  /**
    Two periods starting on day d and day d + 29 make one completed cycle
    of 29 days starting on day d, and a mean cycle length of 29, whichever
    order they were logged in.
   */
  lemma {:induction false} TwoPeriodScenario(d: int, id1: int, id2: int)
    ensures var ps := [Period(id1, d, None), Period(id2, d + 29, None)];
      && CyclesOf(SortedStarts(ps)) == [CompletedCycle(29, d)]
      && CyclesOf(SortedStarts([ps[1], ps[0]])) == [CompletedCycle(29, d)]
      && RoundedMean(TotalLength(CyclesOf(SortedStarts(ps))), 1) == 29
  {
    var ps := [Period(id1, d, None), Period(id2, d + 29, None)];
    var s := [d, d + 29];
    assert CyclesOf(SortedStarts(ps)) == [CompletedCycle(29, d)] by {
      TwoStartsSorted(d, id1, id2);
      assert CyclesOf(s[1..]) == [];
    }
    assert CyclesOf(SortedStarts([ps[1], ps[0]])) == CyclesOf(SortedStarts(ps)) by {
      assert Starts(ps) == s;
      assert Starts([ps[1], ps[0]]) == [d + 29, d];
      assert multiset([d + 29, d]) == multiset(s);
      CompletedCyclesOrderInvariant(ps, [ps[1], ps[0]]);
    }
    assert TotalLength([CompletedCycle(29, d)]) == 29;
    RoundedMeanExact(29, 1, 29);
  }
}
