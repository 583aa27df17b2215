/**
 * The user's program data (settings and the daily-log history) and the
 * in-place updates the main screen makes to it: creating today's log,
 * the counter buttons, the checkboxes and sliders, the treat/slip pair,
 * the track choice and finishing the day.
 */
module Program {
  import opened Wrappers
  import opened Calendar
  import opened WeekRules
  import opened Scoring
  import opened Streak

  /** The three maintenance tracks offered from week 9. */
  datatype Track = Fast | CleanseTrack | Moderate

  /** `startDate` is None until onboarding; `track` is None until chosen. */
  datatype Settings = Settings(startDate: Option<int>, track: Option<Track>, name: string)

  const DefaultSettings: Settings := Settings(None, None, "")

  /** The slip checkbox is shown from week 3 on, and only when today is not a treat day. */
  predicate SlipCheckboxShown(week: int, treat: bool)
  {
    week >= 3 && !treat
  }

  /** The track choice is offered from week 9 on. */
  predicate TrackSelectable(week: int)
  {
    week >= 9
  }

  /**
   * The history after today's log has been ensured: today is present, it
   * holds the old record if there was one and the default record otherwise,
   * and every other day is as it was.
   */
  function WithToday(logs: map<int, DailyLog>, today: int): (r: map<int, DailyLog>)
    ensures today in r
    ensures r[today] == if today in logs then logs[today] else DefaultLog
    ensures forall d :: d != today ==> (d in r <==> d in logs)
    ensures forall d :: d != today && d in logs ==> r[d] == logs[d]
  {
    if today in logs then logs else logs[today := DefaultLog]
  }

  /** Ensuring today a second time changes nothing. */
  lemma WithTodayIdempotent(logs: map<int, DailyLog>, today: int)
    ensures WithToday(WithToday(logs, today), today) == WithToday(logs, today)
    ensures today in logs ==> WithToday(logs, today) == logs
  {
  }

  /** A day that was just created scores 10 and offers the rescue suggestions. */
  lemma NewDayScore(logs: map<int, DailyLog>, today: int)
    requires today !in logs
    ensures Score(WithToday(logs, today)[today]) == 10
    ensures NeedsRescue(Score(WithToday(logs, today)[today]), false)
  {
  }

  /** The gates agree with the week table's phases, for every week number. */
  lemma GatesMatchPhases(week: int)
    ensures TrackSelectable(week) <==> GetWeekData(week).phase == Tracks
    ensures SlipCheckboxShown(week, false) <==> GetWeekData(week).phase != Flood
  {
  }

  /**
   * On the calendar, the slip checkbox appears from the 15th program day
   * (week 3) and the track choice from the 57th (week 9); neither appears
   * before a start date is set.
   */
  lemma GatesOnCalendar(start: Option<int>, today: int, treat: bool)
    ensures SlipCheckboxShown(ProgramDay(start, today).week, treat) <==>
      start.Some? && today - start.value >= 14 && !treat
    ensures TrackSelectable(ProgramDay(start, today).week) <==>
      start.Some? && today - start.value >= 56
  {
  }

  class ProgramData {
    var settings: Settings
    var logs: map<int, DailyLog>

    /** The data of a user who has not onboarded yet. */
    constructor ()
      ensures settings == DefaultSettings && logs == map[]
    {
      settings := DefaultSettings;
      logs := map[];
    }

    /** Creates today's log with default values the first time today is opened. */
    method InitLog(today: int)
      modifies this
      ensures logs == WithToday(old(logs), today)
      ensures settings == old(settings)
    {
      if today !in logs {
        logs := logs[today := DefaultLog];
      }
    }

    /**
     * What the main screen computes when it opens: the program position from
     * the start date, the week's rule, today's log (created if missing), its
     * score and the streak.
     */
    method OpenToday(today: int) returns (pos: ProgramPosition, rule: WeekRule, score: int, streak: nat)
      modifies this
      ensures logs == WithToday(old(logs), today) && settings == old(settings)
      ensures pos == ProgramDay(settings.startDate, today)
      ensures rule == GetWeekData(pos.week)
      ensures score == Score(logs[today]) && 0 <= score <= MaxScore
      ensures streak == StreakLength(logs, today)
      ensures today !in old(logs) ==> score == 10 && streak == 0
    {
      pos := ProgramDay(settings.startDate, today);
      rule := GetWeekData(pos.week);
      InitLog(today);
      score := Score(logs[today]);
      streak := GetStreak(logs, today);
      if today !in old(logs) {
        DefaultLogScoresTen();
      }
    }

    /** Replaces today's record; every handler below goes through this. */
    method Put(today: int, log: DailyLog)
      requires today in logs
      modifies this
      ensures logs == old(logs)[today := log]
      ensures logs.Keys == old(logs).Keys
      ensures settings == old(settings)
    {
      logs := logs[today := log];
    }

    /** The water slider. */
    method SetWater(today: int, water: real)
      requires today in logs
      modifies this
      ensures logs == old(logs)[today := old(logs)[today].(water := water)]
      ensures settings == old(settings)
    {
      Put(today, logs[today].(water := water));
    }

    /** The minus button of the water-before-meals counter. */
    method WaterBeforeDecrement(today: int)
      requires today in logs
      modifies this
      ensures logs == old(logs)[today := old(logs)[today].(waterBefore := CounterDown(old(logs)[today].waterBefore))]
      ensures logs[today].waterBefore <= old(logs)[today].waterBefore
      ensures Score(logs[today]) <= Score(old(logs)[today])
      ensures settings == old(settings)
    {
      var log := logs[today];
      SteppersMoveScore(log);
      Put(today, log.(waterBefore := CounterDown(log.waterBefore)));
    }

    /** The plus button of the water-before-meals counter. */
    method WaterBeforeIncrement(today: int)
      requires today in logs
      modifies this
      ensures logs == old(logs)[today := old(logs)[today].(waterBefore := WaterBeforeUp(old(logs)[today].waterBefore))]
      ensures logs[today].waterBefore <= WaterBeforeCap
      ensures Score(logs[today]) >= Score(old(logs)[today])
      ensures settings == old(settings)
    {
      var log := logs[today];
      SteppersMoveScore(log);
      Put(today, log.(waterBefore := WaterBeforeUp(log.waterBefore)));
    }

    /** The vegetables checkbox. */
    method SetVeggies(today: int, veggies: bool)
      requires today in logs
      modifies this
      ensures logs == old(logs)[today := old(logs)[today].(veggies := veggies)]
      ensures settings == old(settings)
    {
      Put(today, logs[today].(veggies := veggies));
    }

    /** The protein checkbox. */
    method SetProtein(today: int, protein: bool)
      requires today in logs
      modifies this
      ensures logs == old(logs)[today := old(logs)[today].(protein := protein)]
      ensures settings == old(settings)
    {
      Put(today, logs[today].(protein := protein));
    }

    /** The eating-window slider. */
    method SetWindow(today: int, window: nat)
      requires today in logs
      modifies this
      ensures logs == old(logs)[today := old(logs)[today].(window := window)]
      ensures settings == old(settings)
    {
      Put(today, logs[today].(window := window));
    }

    /** The minus button of the fats counter. */
    method FatsDecrement(today: int)
      requires today in logs
      modifies this
      ensures logs == old(logs)[today := old(logs)[today].(fats := CounterDown(old(logs)[today].fats))]
      ensures Score(logs[today]) >= Score(old(logs)[today])
      ensures settings == old(settings)
    {
      var log := logs[today];
      SteppersMoveScore(log);
      Put(today, log.(fats := CounterDown(log.fats)));
    }

    /** The plus button of the fats counter (no cap). */
    method FatsIncrement(today: int)
      requires today in logs
      modifies this
      ensures logs == old(logs)[today := old(logs)[today].(fats := FatsUp(old(logs)[today].fats))]
      ensures Score(logs[today]) <= Score(old(logs)[today])
      ensures settings == old(settings)
    {
      var log := logs[today];
      SteppersMoveScore(log);
      Put(today, log.(fats := FatsUp(log.fats)));
    }

    /** The treat-day checkbox. */
    method SetTreat(today: int, treat: bool)
      requires today in logs
      modifies this
      ensures logs == old(logs)[today := old(logs)[today].(treat := treat)]
      ensures treat ==> !Penalised(logs[today])
      ensures settings == old(settings)
    {
      Put(today, logs[today].(treat := treat));
    }

    /**
     * The slip checkbox: its value is recorded only while the checkbox is
     * shown, that is from week 3 on and on a day not declared a treat day.
     */
    method SetSlip(today: int, slip: bool)
      requires today in logs
      modifies this
      ensures var week := ProgramDay(old(settings).startDate, today).week;
        SlipCheckboxShown(week, old(logs)[today].treat) ==>
          logs == old(logs)[today := old(logs)[today].(slip := slip)]
      ensures var week := ProgramDay(old(settings).startDate, today).week;
        !SlipCheckboxShown(week, old(logs)[today].treat) ==> logs == old(logs)
      ensures (settings.startDate.Some? && today - settings.startDate.value >= 14 &&
        !old(logs)[today].treat) ==> logs[today].slip == slip
      ensures settings == old(settings)
    {
      var week := ProgramDay(settings.startDate, today).week;
      GatesOnCalendar(settings.startDate, today, logs[today].treat);
      if SlipCheckboxShown(week, logs[today].treat) {
        Put(today, logs[today].(slip := slip));
      }
    }

    /**
     * The track choice on the main screen: offered from week 9 and only
     * while no track has been saved.
     */
    method ChooseTrack(today: int, choice: Track)
      modifies this
      ensures var week := ProgramDay(old(settings).startDate, today).week;
        TrackSelectable(week) && old(settings).track.None? ==>
          settings == old(settings).(track := Some(choice))
      ensures var week := ProgramDay(old(settings).startDate, today).week;
        !(TrackSelectable(week) && old(settings).track.None?) ==> settings == old(settings)
      ensures settings.track != old(settings).track ==>
        old(settings).startDate.Some? && today - old(settings).startDate.value >= 56
      ensures logs == old(logs)
    {
      var week := ProgramDay(settings.startDate, today).week;
      GatesOnCalendar(settings.startDate, today, false);
      if TrackSelectable(week) && settings.track.None? {
        settings := settings.(track := Some(choice));
      }
    }

    /**
     * Finishing the day marks it done and reports the band of the day's
     * score; being done does not change the score.
     */
    method FinishDay(today: int) returns (band: Band)
      requires today in logs
      modifies this
      ensures logs == old(logs)[today := old(logs)[today].(done := true)]
      ensures band == BandOf(Score(old(logs)[today]))
      ensures Score(logs[today]) == Score(old(logs)[today])
      ensures settings == old(settings)
    {
      var log := logs[today];
      band := BandOf(Score(log));
      DoneIrrelevant(log, true);
      Put(today, log.(done := true));
    }
  }
}
