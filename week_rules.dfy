/**
 * The static week-rule table. The Hebrew text of each entry (title, focus,
 * instructions, allowed and forbidden food, exercise) is content only; an
 * entry is modelled by its key, its phase and whether it has a treat-day
 * policy and a non-empty tip list, the parts the main screen branches on.
 */
module WeekRules {

  /** The phase names of the table: flood, cleanse, advanced cleanse, transition, tracks. */
  datatype Phase = Flood | Cleanse | AdvancedCleanse | Transition | Tracks

  datatype WeekRule = WeekRule(key: int, phase: Phase, hasTreatRules: bool, hasTips: bool)

  /** The last explicit key: week 9 stands for the whole maintenance stage. */
  const MaxKey: int := 9

  /** The table, keyed 1..9 as in the source's dictionary. */
  const WeekTable: map<int, WeekRule> := map[
    1 := WeekRule(1, Flood, false, true),
    2 := WeekRule(2, Flood, false, true),
    3 := WeekRule(3, Cleanse, false, true),
    4 := WeekRule(4, Cleanse, true, true),
    5 := WeekRule(5, AdvancedCleanse, true, true),
    6 := WeekRule(6, AdvancedCleanse, true, true),
    7 := WeekRule(7, AdvancedCleanse, true, true),
    8 := WeekRule(8, Transition, true, true),
    9 := WeekRule(9, Tracks, true, false)
  ]

  /**
   * The rule for a program week: weeks above 9 reuse entry 9, weeks 1..9
   * have their own entry, anything else falls back to entry 1.
   */
  function GetWeekData(week: int): (r: WeekRule)
    ensures 1 <= week <= MaxKey ==> week in WeekTable && r == WeekTable[week]
    ensures week > MaxKey ==> r == WeekTable[MaxKey]
    ensures week < 1 ==> r == WeekTable[1]
    ensures r in WeekTable.Values
  {
    if week > MaxKey then WeekTable[MaxKey]
    else if week in WeekTable then WeekTable[week]
    else WeekTable[1]
  }

  /** Each entry carries its own key, and the keys are exactly 1..9. */
  lemma TableWellFormed()
    ensures forall k :: k in WeekTable ==> WeekTable[k].key == k
    ensures forall k :: k in WeekTable <==> 1 <= k <= MaxKey
  {
  }

  /** Every week from 9 on gets the identical maintenance entry. */
  lemma MaintenanceRepeats(w1: int, w2: int)
    requires w1 >= MaxKey && w2 >= MaxKey
    ensures GetWeekData(w1) == GetWeekData(w2)
    ensures GetWeekData(w1).phase == Tracks
  {
  }

  /** The phase of a week number as the program describes it. */
  function PhaseOfWeek(week: int): Phase
  {
    if week <= 2 then Flood
    else if week <= 4 then Cleanse
    else if week <= 7 then AdvancedCleanse
    else if week == 8 then Transition
    else Tracks
  }

  /**
   * The table agrees with the program description for every week number:
   * its phase, a treat-day policy from week 4 on, and tips up to week 8.
   */
  lemma LookupMatchesProgram(week: int)
    ensures GetWeekData(week).phase == PhaseOfWeek(week)
    ensures GetWeekData(week).hasTreatRules <==> week >= 4
    ensures GetWeekData(week).hasTips <==> week <= 8
    ensures 1 <= week <= MaxKey ==> GetWeekData(week).key == week
  {
  }
}
