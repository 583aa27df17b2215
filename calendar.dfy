/**
 * The program calendar: where "today" falls in the 13-week program.
 * Dates are day ordinals (consecutive integers for consecutive calendar
 * days); the clock is a parameter instead of a call to the system time.
 */
module Calendar {
  import opened Wrappers

  /** Number of weeks after which the program week stops advancing. */
  const LastWeek: int := 13

  /** The elapsed program day (the start date is day 1) and the program week. */
  datatype ProgramPosition = ProgramPosition(day: int, week: int)

  /** Program week of an elapsed day: 7-day buckets, clamped to 1..13. */
  function WeekOfDay(day: int): (w: int)
    ensures 1 <= w <= LastWeek
  {
    Min(LastWeek, Max(1, (day - 1) / 7 + 1))
  }

  /**
   * Resolves the start date and today into (day, week). A missing or
   * unreadable start date (`None`) falls back to day 1 of week 1.
   */
  function ProgramDay(start: Option<int>, today: int): (p: ProgramPosition)
    ensures 1 <= p.week <= LastWeek
    ensures start.None? ==> p == ProgramPosition(1, 1)
    ensures start.Some? ==> p.day == today - start.value + 1
    ensures p.week == WeekOfDay(p.day)
  {
    match start
    case None => ProgramPosition(1, 1)
    case Some(s) =>
      var day := today - s + 1;
      ProgramPosition(day, WeekOfDay(day))
  }

  /**
   * The week is the 7-day bucket that holds the day: days 1-7 are week 1,
   * days 8-14 week 2, and so on up to day 91; earlier days (a start date in
   * the future) are week 1 and later days stay at week 13.
   */
  lemma WeekBuckets(day: int)
    ensures 1 <= day <= 7 * LastWeek ==>
      7 * (WeekOfDay(day) - 1) < day <= 7 * WeekOfDay(day)
    ensures day < 1 ==> WeekOfDay(day) == 1
    ensures day > 7 * LastWeek ==> WeekOfDay(day) == LastWeek
  {
  }

  /** Inside the program's 91 days the week is exactly (day - 1) / 7 + 1. */
  lemma WeekFormula(start: int, today: int)
    requires 1 <= today - start + 1 <= 7 * LastWeek
    ensures ProgramDay(Some(start), today).week == (today - start) / 7 + 1
  {
  }

  /** From program day 85 on, the week is 13 and never moves again. */
  lemma WeekCappedFromDay85(day: int)
    requires day >= 85
    ensures WeekOfDay(day) == LastWeek
  {
  }

  /** Time only moves the program forward: the week never decreases. */
  lemma WeekMonotone(start: Option<int>, today1: int, today2: int)
    requires today1 <= today2
    ensures ProgramDay(start, today1).week <= ProgramDay(start, today2).week
  {
  }

  /**
   * Worked examples: a start date of today gives (1, 1), 13 days ago
   * (14, 2), 14 days ago (15, 3), 100 days ago (101, 13), none (1, 1).
   */
  lemma CalendarScenarios(today: int)
    ensures ProgramDay(Some(today), today) == ProgramPosition(1, 1)
    ensures ProgramDay(Some(today - 13), today) == ProgramPosition(14, 2)
    ensures ProgramDay(Some(today - 14), today) == ProgramPosition(15, 3)
    ensures ProgramDay(Some(today - 100), today) == ProgramPosition(101, 13)
    ensures ProgramDay(None, today) == ProgramPosition(1, 1)
  {
  }
}
