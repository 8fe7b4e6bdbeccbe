/**
  The three figures of the dashboard's prediction card: how long until the
  next period, where today stands against the estimated ovulation day, and
  the day of the current cycle. `today` is a day number; a time of day later
  than midnight does not change any of them, because the source rounds the
  day differences up (next period, ovulation) or down (cycle day).
 */
module Predictions {
  import opened Wrappers
  import opened Cycle

  /** The "next period" figure: untracked, due in some days, or due today (also when overdue). */
  datatype NextPeriodStatus = NotTracked | InDays(days: int) | DueToday

  /** The ovulation figure: in some days, now (the day of ovulation or the day after), or passed. */
  datatype OvulationStatus = OvulationIn(days: int) | OvulationNow | OvulationPassed

  /** The next-period figure for `today`. */
  function NextPeriodFigure(ps: seq<Period>, st: Settings, today: int): (r: NextPeriodStatus)
    ensures r == NotTracked <==> |ps| == 0
    ensures forall p :: IsLatest(p, ps) ==>
      (r == DueToday <==> p.start + st.cycleLength <= today)
    ensures forall p :: IsLatest(p, ps) && r.InDays? ==>
      r.days == p.start + st.cycleLength - today && r.days > 0
  {
    match NextPeriodDate(ps, st)
    case None => NotTracked
    case Some(next) =>
      var daysUntil := next - today;
      if daysUntil > 0 then InDays(daysUntil) else DueToday
  }

  /** The ovulation figure for `today`; None when nothing is recorded (the figure is left as it was). */
  function OvulationFigure(ps: seq<Period>, st: Settings, today: int): (r: Option<OvulationStatus>)
    ensures r.None? <==> |ps| == 0
    ensures forall p :: IsLatest(p, ps) ==>
      var ovulation := p.start + st.cycleLength - 14;
      && (r == Some(OvulationNow) <==> ovulation <= today <= ovulation + 1)
      && (r == Some(OvulationPassed) <==> ovulation + 1 < today)
      && (r.value.OvulationIn? ==> r.value.days == ovulation - today && r.value.days > 0)
  {
    match LastPeriod(ps)
    case None => None
    case Some(last) =>
      var daysToOvulation := last.start + (st.cycleLength - 14) - today;
      if daysToOvulation > 0 then Some(OvulationIn(daysToOvulation))
      else if daysToOvulation >= -1 then Some(OvulationNow)
      else Some(OvulationPassed)
  }

  /** The day of the current cycle, counting the latest start as day 1; None when nothing is recorded. */
  function CycleDay(ps: seq<Period>, today: int): (r: Option<int>)
    ensures r.None? <==> |ps| == 0
    ensures forall p :: IsLatest(p, ps) ==> r.value == today - p.start + 1
  {
    match LastPeriod(ps)
    case None => None
    case Some(last) => Some(today - last.start + 1)
  }

  /**
    "Now" on the ovulation figure is the last two days of the fertile window,
    so it always falls on a fertile day; the window's first five days show
    "in 1..5 days".
   */
  lemma OvulationNowIsFertile(ps: seq<Period>, st: Settings, today: int)
    ensures OvulationFigure(ps, st, today) == Some(OvulationNow) ==> IsFertileDay(ps, st, today)
    ensures IsFertileDay(ps, st, today) ==>
      OvulationFigure(ps, st, today) == Some(OvulationNow) ||
      (OvulationFigure(ps, st, today).Some? && OvulationFigure(ps, st, today).value.OvulationIn? &&
       OvulationFigure(ps, st, today).value.days <= 5)
  {
    if |ps| > 0 {
      assert IsLatest(LastPeriod(ps).value, ps);
    }
  }

  /** The menstrual phase covers exactly the first periodLength days of the cycle. */
  lemma MenstrualIffEarlyCycleDay(ps: seq<Period>, st: Settings, today: int)
    requires |ps| > 0
    ensures CurrentPhase(ps, st, today) == Menstrual <==> CycleDay(ps, today).value <= st.periodLength
  {
    assert IsLatest(LastPeriod(ps).value, ps);
  }

  /** The next period is shown as due today exactly when today is on or after the predicted start. */
  lemma DueTodayFromPrediction(ps: seq<Period>, st: Settings, today: int)
    ensures NextPeriodFigure(ps, st, today) == DueToday <==>
      NextPeriodDate(ps, st).Some? && NextPeriodDate(ps, st).value <= today
  {
    if |ps| > 0 {
      assert IsLatest(LastPeriod(ps).value, ps);
    }
  }
}
