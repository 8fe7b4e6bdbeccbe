/**
  The in-memory document the tracker mutates: the period records, the
  per-day logs and the per-day water counts. "Today" (a day number) and the
  new record's id (the millisecond clock) are passed in.
 */
module PeriodStore {
  import opened Wrappers
  import opened Cycle

  /** A day's log; each field is absent until it is first logged. */
  datatype DayLog = DayLog(mood: Option<string>, symptoms: Option<seq<string>>, flow: Option<string>)

  const EmptyLog := DayLog(None, None, None)

  /** The log of day `d`, or an empty one when the day has none yet. */
  function LogOf(logs: map<int, DayLog>, d: int): DayLog {
    if d in logs then logs[d] else EmptyLog
  }

  /** The symptoms logged on a day, the empty list when none were. */
  function SymptomsOf(log: DayLog): seq<string> {
    if log.symptoms.Some? then log.symptoms.value else []
  }

  /** The glasses of water logged on day `d` (0 when the day has no count). */
  function WaterOf(water: map<int, nat>, d: int): nat {
    if d in water then water[d] else 0
  }

  predicate NoDuplicates(xs: seq<string>) {
    forall i, j :: 0 <= i < j < |xs| ==> xs[i] != xs[j]
  }

  /** `a` is `b` with some elements left out and the others kept in their order. */
  predicate IsSubsequence(a: seq<string>, b: seq<string>)
    decreases |b|
  {
    if |b| == 0 then |a| == 0
    else (|a| > 0 && a[0] == b[0] && IsSubsequence(a[1..], b[1..])) || IsSubsequence(a, b[1..])
  }

  /** The list without any occurrence of `s` (the source's filter(x => x !== s)). */
  function RemoveAll(xs: seq<string>, s: string): (r: seq<string>)
    ensures s !in r
    ensures IsSubsequence(r, xs)
    ensures forall t :: t != s ==> multiset(r)[t] == multiset(xs)[t]
    ensures NoDuplicates(xs) ==> NoDuplicates(r)
  {
    if |xs| == 0 then []
    else
      assert xs == [xs[0]] + xs[1..];
      var rest := RemoveAll(xs[1..], s);
      if xs[0] == s then rest
      else
        var r := [xs[0]] + rest;
        assert r[1..] == rest;
        assert NoDuplicates(xs) ==> xs[0] !in rest by {
          if NoDuplicates(xs) {
            assert xs[0] !in xs[1..];
            assert multiset(rest)[xs[0]] == multiset(xs[1..])[xs[0]] == 0;
          }
        }
        r
  }

  /**
    The day's symptom list after a symptom button is toggled: switching a
    symptom on appends it unless it is already there; switching it off
    removes every occurrence.
   */
  function ToggleSymptom(xs: seq<string>, s: string, active: bool): (r: seq<string>)
    ensures active ==> s in r && |xs| <= |r| <= |xs| + 1 && r[..|xs|] == xs
    ensures active ==> forall t :: t in r ==> t in xs || t == s
    ensures !active ==> r == RemoveAll(xs, s)
    ensures NoDuplicates(xs) ==> NoDuplicates(r)
    ensures active && s in xs ==> r == xs
    ensures active && s !in xs ==> r == xs + [s]
  {
    if active && s !in xs then xs + [s]
    else if !active then RemoveAll(xs, s)
    else xs
  }

  /** Index of the first open period in insertion order (the source's find(p => !p.endDate)). */
  function FirstOpen(ps: seq<Period>): (r: Option<nat>)
    ensures r.Some? ==> r.value < |ps| && ps[r.value].end.None?
    ensures r.Some? ==> forall j :: 0 <= j < r.value ==> ps[j].end.Some?
    ensures r.None? ==> forall j :: 0 <= j < |ps| ==> ps[j].end.Some?
  {
    if |ps| == 0 then None
    else if ps[0].end.None? then Some(0)
    else
      match FirstOpen(ps[1..])
      case None => None
      case Some(i) => Some(i + 1)
  }

  /** There is a first open period exactly when some period is open. */
  lemma {:induction false} FirstOpenIffOpen(ps: seq<Period>)
    ensures FirstOpen(ps).None? <==> OpenCount(ps) == 0
  {
    if |ps| > 0 {
      FirstOpenIffOpen(ps[1..]);
    }
  }

  /** Closing the first open period leaves one open period fewer. */
  lemma {:induction false} CloseFirstOpen(ps: seq<Period>, i: nat, today: int)
    requires FirstOpen(ps) == Some(i)
    ensures OpenCount(ps[i := ps[i].(end := Some(today))]) == OpenCount(ps) - 1
  {
    if i > 0 {
      assert FirstOpen(ps[1..]) == Some(i - 1);
      CloseFirstOpen(ps[1..], i - 1, today);
      assert ps[i := ps[i].(end := Some(today))][1..] == ps[1..][i - 1 := ps[i].(end := Some(today))];
    }
  }

  class Store {
    var periods: seq<Period>
    var dailyLogs: map<int, DayLog>
    var waterIntake: map<int, nat>
    var notes: map<int, string>
    var settings: Settings

    /** Every day's symptom list is free of duplicates. */
    ghost predicate Valid()
      reads this
    {
      forall d :: d in dailyLogs ==> NoDuplicates(SymptomsOf(dailyLogs[d]))
    }

    /** The empty document with the default settings. */
    constructor ()
      ensures periods == [] && dailyLogs == map[] && waterIntake == map[] && notes == map[]
      ensures settings == DefaultSettings
      ensures Valid()
    {
      periods := [];
      dailyLogs := map[];
      waterIntake := map[];
      notes := map[];
      settings := DefaultSettings;
    }

    /** Record that a period starts today, unless one already starts today. */
    method MarkPeriodStart(today: int, id: int)
      modifies this`periods
      ensures (exists p :: p in old(periods) && p.start == today) ==> periods == old(periods)
      ensures (forall p :: p in old(periods) ==> p.start != today) ==>
        periods == old(periods) + [Period(id, today, None)]
      ensures OpenCount(periods) <= OpenCount(old(periods)) + 1
    {
      if !(exists p :: p in periods && p.start == today) {
        OpenCountAppend(periods, Period(id, today, None));
        periods := periods + [Period(id, today, None)];
      }
    }

    /** Close the first open period, in insertion order, with today's date. */
    method MarkPeriodEnd(today: int)
      modifies this`periods
      ensures FirstOpen(old(periods)).None? ==> periods == old(periods)
      ensures FirstOpen(old(periods)).Some? ==>
        var i := FirstOpen(old(periods)).value;
        periods == old(periods)[i := old(periods)[i].(end := Some(today))]
      ensures OpenCount(old(periods)) > 0 ==> OpenCount(periods) == OpenCount(old(periods)) - 1
      ensures OpenCount(old(periods)) == 0 ==> periods == old(periods)
    {
      FirstOpenIffOpen(periods);
      match FirstOpen(periods)
      case None =>
      case Some(i) =>
        CloseFirstOpen(periods, i, today);
        periods := periods[i := periods[i].(end := Some(today))];
    }

    /** Set today's mood, creating today's log if needed. */
    method LogMood(today: int, mood: string)
      modifies this`dailyLogs
      ensures dailyLogs == old(dailyLogs)[today := LogOf(old(dailyLogs), today).(mood := Some(mood))]
      ensures old(Valid()) ==> Valid()
    {
      var log := LogOf(dailyLogs, today);
      dailyLogs := dailyLogs[today := log.(mood := Some(mood))];
    }

    /** Set today's flow level, creating today's log if needed. */
    method LogFlow(today: int, flow: string)
      modifies this`dailyLogs
      ensures dailyLogs == old(dailyLogs)[today := LogOf(old(dailyLogs), today).(flow := Some(flow))]
      ensures old(Valid()) ==> Valid()
    {
      var log := LogOf(dailyLogs, today);
      dailyLogs := dailyLogs[today := log.(flow := Some(flow))];
    }

    /** Switch a symptom on or off for today, creating today's log and list if needed. */
    method LogSymptom(today: int, symptom: string, active: bool)
      modifies this`dailyLogs
      ensures var log := LogOf(old(dailyLogs), today);
        dailyLogs == old(dailyLogs)[today := log.(symptoms := Some(ToggleSymptom(SymptomsOf(log), symptom, active)))]
      ensures old(Valid()) ==> Valid()
      ensures old(Valid()) && active ==>
        symptom in SymptomsOf(dailyLogs[today]) && NoDuplicates(SymptomsOf(dailyLogs[today]))
      ensures !active ==> symptom !in SymptomsOf(dailyLogs[today])
    {
      var log := LogOf(dailyLogs, today);
      var symptoms := SymptomsOf(log);
      if active && symptom !in symptoms {
        symptoms := symptoms + [symptom];
      } else if !active {
        symptoms := RemoveAll(symptoms, symptom);
      }
      dailyLogs := dailyLogs[today := log.(symptoms := Some(symptoms))];
    }

    /** Log one more glass of water today; returns today's new count. */
    method AddWater(today: int) returns (count: nat)
      modifies this`waterIntake
      ensures waterIntake == old(waterIntake)[today := WaterOf(old(waterIntake), today) + 1]
      ensures count == WaterOf(waterIntake, today) == WaterOf(old(waterIntake), today) + 1
    {
      waterIntake := waterIntake[today := WaterOf(waterIntake, today) + 1];
      count := waterIntake[today];
    }

    /** Set today's water count back to zero. */
    method ResetWater(today: int)
      modifies this`waterIntake
      ensures waterIntake == old(waterIntake)[today := 0]
    {
      waterIntake := waterIntake[today := 0];
    }
  }

  /** Appending a period adds one open period when it is open and none otherwise. */
  lemma {:induction false} OpenCountAppend(ps: seq<Period>, p: Period)
    ensures OpenCount(ps + [p]) == OpenCount(ps) + (if p.end.None? then 1 else 0)
  {
    if |ps| > 0 {
      assert (ps + [p])[1..] == ps[1..] + [p];
      OpenCountAppend(ps[1..], p);
    }
  }
}
