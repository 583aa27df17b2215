/**
 * The streak: consecutive qualifying days ending today, looking back at
 * most 30 days. The history maps day ordinals to logs.
 */
module Streak {
  import opened Scoring

  /** A day counts towards the streak when it is logged and scores at least 70. */
  const StreakThreshold: int := 70
  /** The streak looks back at most this many days. */
  const Lookback: nat := 30

  predicate QualifyingDay(logs: map<int, DailyLog>, d: int)
  {
    d in logs && Score(logs[d]) >= StreakThreshold
  }

  /** The run of qualifying days ending at `day`, looking back at most `fuel` days. */
  function RunLength(logs: map<int, DailyLog>, day: int, fuel: nat): (k: nat)
    ensures k <= fuel
    decreases fuel
  {
    if fuel == 0 || !QualifyingDay(logs, day) then 0
    else 1 + RunLength(logs, day - 1, fuel - 1)
  }

  /** The streak as a value: the run ending today, within the lookback. */
  function StreakLength(logs: map<int, DailyLog>, today: int): (k: nat)
    ensures k <= Lookback
  {
    RunLength(logs, today, Lookback)
  }

  /**
   * Walks back from today, counting qualifying days, and stops at the first
   * day that is missing or scores below the threshold.
   */
  method GetStreak(logs: map<int, DailyLog>, today: int) returns (streak: nat)
    ensures streak == StreakLength(logs, today)
    ensures streak <= Lookback
    ensures forall d :: today - streak < d <= today ==> QualifyingDay(logs, d)
    ensures streak < Lookback ==> !QualifyingDay(logs, today - streak)
  {
    streak := 0;
    for i := 0 to Lookback
      invariant streak == i
      invariant StreakLength(logs, today) == i + RunLength(logs, today - i, Lookback - i)
    {
      if QualifyingDay(logs, today - i) {
        streak := streak + 1;
      } else {
        break;
      }
    }
    RunQualifies(logs, today, Lookback);
    RunStopsAtMiss(logs, today, Lookback);
  }

  /** Every day of the run qualifies. */
  lemma {:induction false} RunQualifies(logs: map<int, DailyLog>, day: int, fuel: nat)
    ensures forall d :: day - RunLength(logs, day, fuel) < d <= day ==> QualifyingDay(logs, d)
    decreases fuel
  {
    if fuel > 0 && QualifyingDay(logs, day) {
      RunQualifies(logs, day - 1, fuel - 1);
    }
  }

  /** A run shorter than the lookback ends at a missing or low-scoring day. */
  lemma {:induction false} RunStopsAtMiss(logs: map<int, DailyLog>, day: int, fuel: nat)
    ensures RunLength(logs, day, fuel) < fuel ==>
      !QualifyingDay(logs, day - RunLength(logs, day, fuel))
    decreases fuel
  {
    if fuel > 0 && QualifyingDay(logs, day) {
      RunStopsAtMiss(logs, day - 1, fuel - 1);
    }
  }

  /** Conversely, a count with those two properties is the run length. */
  lemma {:induction false} RunUnique(logs: map<int, DailyLog>, day: int, fuel: nat, k: nat)
    requires k <= fuel
    requires forall d :: day - k < d <= day ==> QualifyingDay(logs, d)
    requires k < fuel ==> !QualifyingDay(logs, day - k)
    ensures RunLength(logs, day, fuel) == k
    decreases fuel
  {
    if k > 0 {
      assert QualifyingDay(logs, day);
      RunUnique(logs, day - 1, fuel - 1, k - 1);
    }
  }

  /**
   * The streak is characterised by the source's promise: the last k days up
   * to today all qualify, and unless the cap of 30 was reached the day
   * before them does not.
   */
  lemma StreakCharacterised(logs: map<int, DailyLog>, today: int, k: nat)
    ensures StreakLength(logs, today) == k <==>
      && k <= Lookback
      && (forall d :: today - k < d <= today ==> QualifyingDay(logs, d))
      && (k < Lookback ==> !QualifyingDay(logs, today - k))
  {
    RunQualifies(logs, today, Lookback);
    RunStopsAtMiss(logs, today, Lookback);
    if && k <= Lookback
       && (forall d :: today - k < d <= today ==> QualifyingDay(logs, d))
       && (k < Lookback ==> !QualifyingDay(logs, today - k)) {
      RunUnique(logs, today, Lookback, k);
    }
  }

  /** A day missing from the history, g days back, caps the streak at g. */
  lemma GapTruncates(logs: map<int, DailyLog>, today: int, g: nat)
    requires today - g !in logs
    ensures StreakLength(logs, today) <= g
  {
    RunQualifies(logs, today, Lookback);
    assert StreakLength(logs, today) > g ==> QualifyingDay(logs, today - g);
  }

  /** Nothing logged today, or an empty history, gives a streak of 0. */
  lemma NoLogTodayNoStreak(logs: map<int, DailyLog>, today: int)
    requires today !in logs
    ensures StreakLength(logs, today) == 0
  {
  }

  /** A qualifying day that is never missing for 30 days back gives the full cap. */
  lemma {:induction false} FullRunReachesCap(logs: map<int, DailyLog>, day: int, fuel: nat)
    requires forall d :: day - fuel < d <= day ==> QualifyingDay(logs, d)
    ensures RunLength(logs, day, fuel) == fuel
    decreases fuel
  {
    if fuel > 0 {
      assert QualifyingDay(logs, day);
      FullRunReachesCap(logs, day - 1, fuel - 1);
    }
  }

  /**
   * Worked examples: today alone scoring 85 gives 1; five qualifying days
   * up to today with a 45-point day before them gives 5.
   */
  lemma StreakScenarios(today: int)
    ensures StreakLength(map[today := DailyLog(3.0, 3, true, false, 10, 0, false, false, false)], today) == 1
    ensures
      var good := DailyLog(3.0, 3, true, true, 10, 0, false, false, false);
      var poor := DailyLog(2.0, 0, true, false, 0, 5, false, false, false);
      var logs := map[today := good, today - 1 := good, today - 2 := good,
                      today - 3 := good, today - 4 := good, today - 5 := poor];
      StreakLength(logs, today) == 5
  {
  }
}
