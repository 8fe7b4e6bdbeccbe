# PMSify cycle engine in Dafny

PMSify is a browser-based menstrual cycle tracker. A single `PMSify` class
holds the document it persists: the recorded periods, per-day logs of mood,
flow and symptoms, per-day water counts, per-day notes, and the settings.
The settings hold the cycle length and the period length (28 and 5 by
default), three reminder flags (period, ovulation and self-care, all on by
default) and a dark-mode flag (off by default). The model keeps the two
lengths, which are the only settings the computations read. This project
models the part of that class that is not page rendering:

- `cycle.dfy` (module `Cycle`) models the inference functions. They say
  whether a day is a period day, a fertile day or a predicted period day.
  They also find the latest period and the next expected start, and the
  cycle phase of "today".
- `tips.dfy` (module `Tips`) holds the five daily tips of each phase. It
  routes a phase text to its list by the same substring test the source
  uses, and picks the tip of the day.
- `history.dfy` (module `History`) covers the history page. It sorts the
  starts ascending and derives the completed cycles from consecutive pairs
  with a loop. It also computes the two rounded averages.
- `store.dfy` (module `PeriodStore`) is the document as a class `Store`.
  Its fields are updated by the mutators: mark a period's start and end, log
  mood, flow and symptoms, add and reset water.
- `predictions.dfy` (module `Predictions`) computes the three figures of the
  prediction card: days until the next period, where today stands against
  the estimated ovulation day, and the day of the current cycle.
- `scenarios.dfy` (module `Scenarios`) holds two worked examples.
- `wrappers.dfy` (module `Wrappers`) holds the `Option` type.

Dates are whole day numbers (`int`), so "n days after d" is `d + n`.
"Today", the new record's id (the millisecond clock) and the random tip
index are parameters. The settings are plain integers. The source never
validates them, and nothing in the model assumes them to be positive.

## Model

| member | source | states |
|---|---|---|
| Cycle.IsPeriodDay | script.js:247-254 | true exactly when some recorded period covers the day. Both ends are inclusive. An open period ends `periodLength - 1` days after its start. No periods means false. |
| Cycle.LatestIndex | script.js:280-284 | the position a stable descending sort by start puts first. None exactly for an empty list. The start there is >= every start, and strictly > every earlier start, so ties go to the first in insertion order. |
| Cycle.LastPeriod | script.js:280-284 | None exactly when nothing is recorded. Otherwise a recorded period that no other period starts after. |
| Cycle.NextPeriodDate | script.js:286-292 | None exactly when nothing is recorded. Otherwise the latest start plus the cycle length, whichever latest period is taken. |
| Cycle.IsPredictedPeriod | script.js:269-278 | false without data. Otherwise true exactly on the `periodLength` days from latest start + cycleLength on. |
| Cycle.IsFertileDay | script.js:256-267 | false without data. Otherwise true exactly on the 7 days from latest start + cycleLength - 19 to latest start + cycleLength - 13. The estimated ovulation day is latest start + cycleLength - 14. This holds for every cycle length. |
| Cycle.PhaseOnDay | script.js:370-380 | each day count gets exactly one of the four phases: Menstrual below periodLength, then Follicular while 2·days < cycleLength, Ovulation while 2·days < cycleLength + 6, and Luteal after that. |
| Cycle.CurrentPhase | script.js:362-381 | Untracked exactly when nothing is recorded. Otherwise the phase of today minus the latest start. |
| Cycle.PhaseMonotone | script.js:370-380 | within a cycle the phase never moves backwards as days pass. |
| Cycle.PhaseText | script.js:365-379 | the five phase texts. Each phase's text starts with its own phase word and holds none of the initials of the words the tip routing tries before it. The untracked text holds none of the four initials. |
| Tips.TipsForPhase | script.js:462-504 | always returns five tips. |
| Tips.TipsForPhaseText | script.js:462-504 | routing each of the five phase texts by substring gives that phase's own tip list. The untracked text gets the general list. |
| Tips.DailyTip | script.js:451-460 | the tip shown is entry `pick` of the current phase's own tip list, so one of that phase's tips. It is a general tip when nothing is recorded. |
| History.SortedStarts | script.js:599-601 | the starts sorted ascending. A permutation of the recorded starts, with one entry per period. |
| History.SortedUnique | script.js:599-601 | an ascending arrangement of a multiset of starts is unique, so the sort's result does not depend on its algorithm. |
| History.CyclesOfAt | script.js:603-609 | there is one cycle per consecutive pair of sorted starts. Cycle k has length `s[k+1] - s[k]` and starts on `s[k]`. |
| History.TotalLengthTelescopes | script.js:572-574 | the cycle lengths add up to the last start minus the first start. |
| History.CompletedCycles | script.js:598-612 | n - 1 cycles for n >= 2 periods, none otherwise. Each equals the pair-wise definition on the sorted starts. Lengths are >= 0 and start dates ascend. |
| History.CompletedCyclesOrderInvariant | script.js:598-612 | the completed cycles depend only on the multiset of starts, not on the order the periods were recorded in. |
| History.RoundedMean | script.js:574 | the result is sum / n rounded half-up, as Math.round does: r - 1/2 <= sum / n < r + 1/2. |
| History.RoundedMeanUnique | script.js:574 | at most one integer satisfies the rounding relation. |
| History.RoundedMeanExact | script.js:574 | a whole-number mean rounds to itself. |
| History.EndedDurations | script.js:578-583 | one entry per period that has an end: the length is the number of periods minus the number of open ones. |
| History.EndedDurationsAppend | script.js:578-583 | recording one more period appends its inclusive length `end - start + 1` when it has an end, and nothing otherwise. With the empty case this pins every entry in recording order. |
| History.EndedTotalAppend | script.js:580-584 | the total the average period is taken over grows by exactly the new period's inclusive length when it has ended. |
| History.CyclesSpan | script.js:572-575 | the completed cycles together span from the earliest recorded start to the latest. |
| History.MeanCycleBounds | script.js:572-575 | the rounded mean cycle length is (latest start - earliest start) / (n - 1) rounded half-up. |
| History.HistoryStats | script.js:571-585 | the average cycle is the configured cycle length with fewer than two periods. Otherwise it is (latest start - earliest start) / (n - 1) rounded. The average period is the configured period length when no period has ended. Otherwise it is the rounded mean of `end - start + 1` over the ended periods. |
| PeriodStore.RemoveAll | script.js:317 | removes every occurrence of the symptom and keeps the others in order with their counts. Duplicate-freedom is preserved. |
| PeriodStore.ToggleSymptom | script.js:314-318 | switching on a symptom that is already listed leaves the list unchanged. Switching on a new one appends it at the end. Switching off is RemoveAll. A duplicate-free list stays duplicate-free. |
| PeriodStore.FirstOpen | script.js:236 | the index of the first period without an end, in insertion order. None exactly when every period has an end. |
| PeriodStore.FirstOpenIffOpen | script.js:236-238 | there is a first open period exactly when the open count is positive. |
| PeriodStore.CloseFirstOpen | script.js:238-239 | closing the first open period lowers the number of open periods by one. |
| PeriodStore.OpenCountAppend | script.js:221-226 | appending an open period raises the open count by one. |
| PeriodStore.Store.constructor | script.js:24-40 | the empty document: no periods, logs, water or notes, and cycle and period lengths 28 / 5. The default reminder and dark-mode flags are not modelled. |
| PeriodStore.Store.MarkPeriodStart | script.js:217-232 | appends an open period starting today exactly when no recorded period starts today. Otherwise the periods are unchanged. At most one more open period. |
| PeriodStore.Store.MarkPeriodEnd | script.js:234-245 | sets today as the end of the first open period only. Every other record is unchanged. The open count drops by one. Nothing changes when no period is open. |
| PeriodStore.Store.LogMood | script.js:295-303 | today's log gets the mood, creating the log if absent. Other fields and days are unchanged. The store invariant is kept. |
| PeriodStore.Store.LogFlow | script.js:323-331 | today's log gets the flow level, in the same way as LogMood. |
| PeriodStore.Store.LogSymptom | script.js:305-321 | today's symptom list becomes ToggleSymptom of the old list, or of the empty list. Switching on leaves the symptom there exactly once when the invariant held. Switching off leaves no occurrence. Other days are unchanged and the invariant is kept. |
| PeriodStore.Store.AddWater | script.js:518-530 | today's count becomes the old count (0 if absent) plus one, and that count is returned. Other days are unchanged. |
| PeriodStore.Store.ResetWater | script.js:532-538 | today's count becomes 0. Other days are unchanged. |
| Predictions.NextPeriodFigure | script.js:388-397 | untracked exactly when nothing is recorded. Otherwise "today" exactly when today is on or after latest start + cycleLength, else the positive number of days until then. |
| Predictions.DueTodayFromPrediction | script.js:391-394 | the figure says "today" exactly when a next period date exists and is not after today. |
| Predictions.OvulationFigure | script.js:400-411 | nothing when no period is recorded. Otherwise with ovulation = latest start + cycleLength - 14: "now" exactly on the ovulation day and the day after, "passed" exactly after that, else the positive number of days to ovulation. |
| Predictions.OvulationNowIsFertile | script.js:400-411 | "now" always falls on a fertile day. Every fertile day shows either "now" or an ovulation at most 5 days away. |
| Predictions.CycleDay | script.js:414-418 | nothing when no period is recorded. Otherwise today - latest start + 1, so the latest start is day 1. |
| Predictions.MenstrualIffEarlyCycleDay | script.js:372-373 | the menstrual phase holds exactly while the cycle day is at most periodLength. |
| Scenarios.SinglePeriodScenario | script.js:247-381 | one period from d to d + 4 with the default settings. d + 2 is a period day and d + 9 is not. The next period is due on d + 28. d + 14 is fertile, and d + 19 is Luteal. |
| Scenarios.TwoPeriodScenario | script.js:571-612 | starts d and d + 29, in either order, give one cycle of 29 days from d and a mean of 29. |

## Left out

- DOM rendering and event wiring are not modelled. This covers the calendar grid, the canvas chart, the history log, the section navigation, the dark-mode toggle and the phase icons. The number-to-text formatting of the prediction card is left out too; the figures it shows are modelled.
- The `reminders` and `darkMode` settings, with their handlers at script.js:108-119, are not modelled. The reminder flags are stored and shown in their checkboxes but never read by any computation; darkMode only switches the page theme.
- The settings change handlers (script.js:96-106) are not modelled. They store `parseInt` of a form field. Settings are plain integers in the model, so a non-numeric field (NaN) is not represented. No function requires the settings to be positive.
- `saveNotes` and the `notes` map are not modelled. The map is a field of `Store` but has no operation.
- Persistence is not modelled (`loadData`, `saveData`, `exportData`, `clearAllData`, `sessionStorage`). The constructor is the default document that `loadData` falls back to. Merging saved JSON over the defaults is not modelled.
- Notifications, including the water-goal message on the eighth glass, are display only.
- `Math.random` is not modelled. The tip index is a parameter below five.
- JavaScript `Date` parsing, time zones and the millisecond arithmetic are not modelled. Days are whole numbers, so `Math.floor` / `Math.ceil` of a day difference is an exact subtraction.
- The filter on `startDate` before sorting is not modelled. Every modelled period has a start, so the filter keeps everything.
- Cycle.LastPeriod: the source's descending sort then `[0]` is modelled as a scan for the first latest start. This is what a stable sort returns. The contract only promises a latest period.
- A negative day count (a latest start after today) is Menstrual whenever it is below periodLength, as in the source. With a negative periodLength it can fall through to the later tests.
- Dafny strings are sequences of code points, while JavaScript strings are UTF-16. This does not change the substring routing of the phase texts.
