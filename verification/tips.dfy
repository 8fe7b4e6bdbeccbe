/**
  Daily tips. The source chooses the tip list by searching the phase TEXT for
  the words "Menstrual", "Follicular", "Ovulation" and "Luteal", in that order,
  and falls back to a generic list; one of the five tips is then picked at random.
 */
module Tips {
  import opened Cycle

  /** `word` occurs in `text` starting at position `i`. */
  predicate OccursAt(text: string, word: string, i: int) {
    0 <= i && i + |word| <= |text| && text[i..i + |word|] == word
  }

  /** Does `word` occur as a contiguous part of `text`? (JavaScript's `String.prototype.includes`.) */
  predicate Includes(text: string, word: string) {
    exists i | 0 <= i <= |text| - |word| :: OccursAt(text, word, i)
  }

  /** A word whose first letter does not occur in a text is not part of it. */
  lemma FirstLetterAbsent(text: string, word: string)
    requires |word| > 0 && word[0] !in text
    ensures !Includes(text, word)
  {
    forall i | OccursAt(text, word, i) ensures false {
    }
  }

  const MenstrualTips: seq<string> := [
    "Rest is productive too. Take it easy today! 🛌",
    "Iron-rich foods can help with energy during your period 🥬",
    "Gentle stretching can help with cramps 🧘‍♀️",
    "Stay hydrated - it helps with bloating 💧",
    "Dark chocolate is okay - you deserve it! 🍫"
  ]

  const FollicularTips: seq<string> := [
    "Great time to start new projects! Your energy is building 💪",
    "Try cardio workouts - your body can handle more intensity 🏃‍♀️",
    "Perfect time for social activities and networking 👥",
    "Your skin might be clearer - great time for photos! 📸",
    "Focus on protein to support your growing energy 🥚"
  ]

  const OvulationTips: seq<string> := [
    "You're at peak energy - tackle challenging tasks! ⚡",
    "Great time for important conversations 💬",
    "Your confidence is naturally higher today 👑",
    "Perfect time for job interviews or presentations 🎯",
    "You might feel more social and outgoing 🌟"
  ]

  const LutealTips: seq<string> := [
    "Focus on completing projects rather than starting new ones 📝",
    "Magnesium can help with PMS symptoms 🌰",
    "Practice self-compassion - mood changes are normal 💕",
    "Gentle yoga can help with tension 🧘‍♀️",
    "Prepare healthy snacks for cravings 🥜"
  ]

  const GeneralTips: seq<string> := [
    "Listen to your body - it knows what it needs 💝",
    "Every cycle is different, and that's normal 🌈",
    "Track your patterns to understand your unique rhythm 📊",
    "Self-care isn't selfish - it's necessary 🛁",
    "You're stronger than you think! 💪"
  ]

  /** The tip list chosen for a phase text; every list holds five tips. */
  function TipsForPhase(phaseText: string): (tips: seq<string>)
    ensures |tips| == 5
  {
    if Includes(phaseText, "Menstrual") then MenstrualTips
    else if Includes(phaseText, "Follicular") then FollicularTips
    else if Includes(phaseText, "Ovulation") then OvulationTips
    else if Includes(phaseText, "Luteal") then LutealTips
    else GeneralTips
  }

  /** The list each phase is meant to draw from. */
  function PhaseTips(ph: Phase): seq<string> {
    match ph
    case Untracked => GeneralTips
    case Menstrual => MenstrualTips
    case Follicular => FollicularTips
    case Ovulation => OvulationTips
    case Luteal => LutealTips
  }

  /** A text that starts with `word` includes it. */
  lemma StartsWith(text: string, word: string)
    requires StartsWithWord(text, word)
    ensures Includes(text, word)
  {
    assert OccursAt(text, word, 0);
  }

  /**
    The routing rule on any text shaped as NamesPhase describes: the first
    phase word that the text includes decides the list, and a text free of
    the four initials gets the general list.
   */
  lemma RoutedBy(text: string, ph: Phase)
    requires NamesPhase(text, ph)
    ensures TipsForPhase(text) == PhaseTips(ph)
  {
    if 'M' !in text { FirstLetterAbsent(text, "Menstrual"); }
    if 'F' !in text { FirstLetterAbsent(text, "Follicular"); }
    if 'O' !in text { FirstLetterAbsent(text, "Ovulation"); }
    if 'L' !in text { FirstLetterAbsent(text, "Luteal"); }
    match ph
    case Menstrual => StartsWith(text, "Menstrual");
    case Follicular => StartsWith(text, "Follicular");
    case Ovulation => StartsWith(text, "Ovulation");
    case Luteal => StartsWith(text, "Luteal");
    case Untracked =>
  }

  /** Searching each phase's text for the phase words selects that phase's own list. */
  lemma TipsForPhaseText(ph: Phase)
    ensures TipsForPhase(PhaseText(ph)) == PhaseTips(ph)
  {
    RoutedBy(PhaseText(ph), ph);
  }

  /** The tip shown today: entry `pick` (the random draw, below five) of the list for the current phase. */
  function DailyTip(ps: seq<Period>, st: Settings, today: int, pick: nat): (tip: string)
    requires pick < 5
    ensures tip == PhaseTips(CurrentPhase(ps, st, today))[pick]
    ensures tip in PhaseTips(CurrentPhase(ps, st, today))
    ensures |ps| == 0 ==> tip in GeneralTips
  {
    TipsForPhaseText(CurrentPhase(ps, st, today));
    TipsForPhase(PhaseText(CurrentPhase(ps, st, today)))[pick]
  }
}
