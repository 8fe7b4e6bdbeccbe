/**
  The cycle-inference engine: pure classifications of a calendar day against
  the recorded periods and the two cycle settings.

  A calendar date is an integer day number, so "n days after d" is d + n and
  every comparison is between whole days.
 */
module Cycle {
  import opened Wrappers

  /** A recorded period. `end` is None while the period is still open. */
  datatype Period = Period(id: int, start: int, end: Option<int>)

  /** The two settings the engine reads (default 28 and 5). */
  datatype Settings = Settings(cycleLength: int, periodLength: int)

  const DefaultSettings := Settings(28, 5)

  /** The last day of a period: its recorded end, or periodLength days counted from its start. */
  function EffectiveEnd(p: Period, periodLength: int): int {
    match p.end
    case Some(e) => e
    case None => p.start + periodLength - 1
  }

  /** `p` covers `d` when d lies in [start, effective end], both ends inclusive. */
  predicate Covers(p: Period, periodLength: int, d: int) {
    p.start <= d <= EffectiveEnd(p, periodLength)
  }

  /** `p` is a latest period of `ps`: no recorded period starts after it. */
  predicate IsLatest(p: Period, ps: seq<Period>) {
    p in ps && forall q :: q in ps ==> q.start <= p.start
  }

  /** Is day `d` inside some recorded period? */
  function IsPeriodDay(ps: seq<Period>, st: Settings, d: int): (r: bool)
    ensures r <==> exists p :: p in ps && Covers(p, st.periodLength, d)
  {
    if |ps| == 0 then false
    else Covers(ps[0], st.periodLength, d) || IsPeriodDay(ps[1..], st, d)
  }

  /**
    The index that a stable sort by descending start puts first: the first
    period, in insertion order, among those with the greatest start.
   */
  function LatestIndex(ps: seq<Period>): (r: Option<nat>)
    ensures r.None? <==> |ps| == 0
    ensures r.Some? ==> r.value < |ps|
    ensures r.Some? ==> forall j :: 0 <= j < |ps| ==> ps[j].start <= ps[r.value].start
    ensures r.Some? ==> forall j :: 0 <= j < r.value ==> ps[j].start < ps[r.value].start
  {
    if |ps| == 0 then None
    else
      match LatestIndex(ps[1..])
      case None => Some(0)
      case Some(i) => if ps[0].start >= ps[i + 1].start then Some(0) else Some(i + 1)
  }

  /** The most recent period, or None when nothing has been recorded. */
  function LastPeriod(ps: seq<Period>): (r: Option<Period>)
    ensures r.None? <==> |ps| == 0
    ensures r.Some? ==> IsLatest(r.value, ps)
  {
    match LatestIndex(ps)
    case None => None
    case Some(i) => Some(ps[i])
  }

  /** One cycle length after the latest start, or None without data. */
  function NextPeriodDate(ps: seq<Period>, st: Settings): (r: Option<int>)
    ensures r.None? <==> |ps| == 0
    ensures r.Some? ==> forall p :: IsLatest(p, ps) ==> r.value == p.start + st.cycleLength
  {
    match LastPeriod(ps)
    case None => None
    case Some(last) => Some(last.start + st.cycleLength)
  }

  /** Does `d` fall in the predicted next period, periodLength days from the predicted start? */
  function IsPredictedPeriod(ps: seq<Period>, st: Settings, d: int): (r: bool)
    ensures |ps| == 0 ==> !r
    ensures forall p :: IsLatest(p, ps) ==>
      (r <==> p.start + st.cycleLength <= d < p.start + st.cycleLength + st.periodLength)
  {
    match NextPeriodDate(ps, st)
    case None => false
    case Some(next) => next <= d <= next + st.periodLength - 1
  }

  /**
    Is `d` in the fertile window: the five days before the estimated ovulation
    day (cycleLength - 14 days after the latest start), that day, and the day after?
   */
  function IsFertileDay(ps: seq<Period>, st: Settings, d: int): (r: bool)
    ensures |ps| == 0 ==> !r
    ensures forall p :: IsLatest(p, ps) ==>
      (r <==> p.start + st.cycleLength - 19 <= d < p.start + st.cycleLength - 12)
  {
    match LastPeriod(ps)
    case None => false
    case Some(last) =>
      var ovulation := last.start + (st.cycleLength - 14);
      ovulation - 5 <= d <= ovulation + 1
  }

  datatype Phase = Untracked | Menstrual | Follicular | Ovulation | Luteal

  /**
    The phase on the given day of a cycle (0 is the start day). The source
    compares against cycleLength / 2 in real arithmetic, so "days < cycleLength / 2"
    is exactly "2 * days < cycleLength".
   */
  function PhaseOnDay(days: int, st: Settings): (r: Phase)
    ensures r != Untracked
    ensures r == Menstrual <==> days < st.periodLength
    ensures r == Follicular <==> st.periodLength <= days && 2 * days < st.cycleLength
    ensures r == Ovulation <==>
      st.periodLength <= days && st.cycleLength <= 2 * days < st.cycleLength + 6
    ensures r == Luteal <==> st.periodLength <= days && st.cycleLength + 6 <= 2 * days
  {
    if days < st.periodLength then Menstrual
    else if 2 * days < st.cycleLength then Follicular
    else if 2 * days < st.cycleLength + 6 then Ovulation
    else Luteal
  }

  /** The phase of `today`, counted from the latest recorded start. */
  function CurrentPhase(ps: seq<Period>, st: Settings, today: int): (r: Phase)
    ensures r == Untracked <==> |ps| == 0
    ensures forall p :: IsLatest(p, ps) ==> r == PhaseOnDay(today - p.start, st)
  {
    match LastPeriod(ps)
    case None => Untracked
    case Some(last) => PhaseOnDay(today - last.start, st)
  }

  /** The order in which phases follow each other within a cycle. */
  function Rank(ph: Phase): nat {
    match ph
    case Untracked => 0
    case Menstrual => 1
    case Follicular => 2
    case Ovulation => 3
    case Luteal => 4
  }

  /** As days pass within a cycle the phase never goes back (it may skip phases). */
  lemma PhaseMonotone(d1: int, d2: int, st: Settings)
    requires d1 <= d2
    ensures Rank(PhaseOnDay(d1, st)) <= Rank(PhaseOnDay(d2, st))
  {
  }

  /** `text` begins with `word`. */
  predicate StartsWithWord(text: string, word: string) {
    |word| <= |text| && text[..|word|] == word
  }

  /**
    What a phase text must look like for the tip routing, which tries the
    words Menstrual, Follicular, Ovulation and Luteal in that order: the text
    of a phase starts with that phase's word and contains none of the initials
    of the words tried before it; the untracked text contains none of the four.
   */
  predicate NamesPhase(text: string, ph: Phase) {
    match ph
    case Menstrual => StartsWithWord(text, "Menstrual")
    case Follicular => 'M' !in text && StartsWithWord(text, "Follicular")
    case Ovulation => 'M' !in text && 'F' !in text && StartsWithWord(text, "Ovulation")
    case Luteal => 'M' !in text && 'F' !in text && 'O' !in text && StartsWithWord(text, "Luteal")
    case Untracked => 'M' !in text && 'F' !in text && 'O' !in text && 'L' !in text
  }

  const UntrackedText := "Track your first period to see cycle phase"
  const MenstrualText := "Menstrual Phase - Rest and recharge 🌙"
  const FollicularText := "Follicular Phase - Energy building 🌱"
  const OvulationText := "Ovulation Phase - Peak energy 🌸"
  const LutealText := "Luteal Phase - Prepare for rest 🍂"

  /** The text the dashboard shows for a phase. */
  function PhaseText(ph: Phase): (r: string)
    ensures NamesPhase(r, ph)
  {
    match ph
    case Untracked => UntrackedNamesNoPhase(); UntrackedText
    case Menstrual => MenstrualText
    case Follicular => FollicularNamesPhase(); FollicularText
    case Ovulation => OvulationNamesPhase(); OvulationText
    case Luteal => LutealNamesPhase(); LutealText
  }

  lemma UntrackedNamesNoPhase()
    ensures NamesPhase(UntrackedText, Untracked)
  {
    var t := UntrackedText;
    assert forall i | 0 <= i < |t| :: t[i] != 'M' && t[i] != 'F' && t[i] != 'O' && t[i] != 'L';
  }

  lemma FollicularNamesPhase()
    ensures NamesPhase(FollicularText, Follicular)
  {
    var t := FollicularText;
    assert forall i | 0 <= i < |t| :: t[i] != 'M';
  }

  lemma OvulationNamesPhase()
    ensures NamesPhase(OvulationText, Ovulation)
  {
    var t := OvulationText;
    assert forall i | 0 <= i < |t| :: t[i] != 'M' && t[i] != 'F';
  }

  lemma LutealNamesPhase()
    ensures NamesPhase(LutealText, Luteal)
  {
    var t := LutealText;
    assert forall i | 0 <= i < |t| :: t[i] != 'M' && t[i] != 'F' && t[i] != 'O';
  }

  /** The number of periods that have no end yet. */
  function OpenCount(ps: seq<Period>): nat {
    if |ps| == 0 then 0 else (if ps[0].end.None? then 1 else 0) + OpenCount(ps[1..])
  }
}
