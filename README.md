# Leptin-method tracker: program engine

A Dafny model of the deterministic engine inside the habit-tracking app
`app.py`, a 13-week nutrition and hydration programme. The engine has six parts:

- **calendar resolver** (`calc_program_day`). It maps a start date and today to the
  elapsed program day and the program week, which is clamped to 1..13.
- **week-rule table** (`WEEK_DATA`, `get_week_data`). It holds nine entries.
  Every week above 9 reuses entry 9, and any week below 1 falls back to entry 1.
- **daily compliance score** (`calc_score`). Seven weighted threshold checks, a
  20-point penalty for a slip not declared a treat day, and the result
  clamped to 0..100.
- **streak** (`get_streak`). It counts consecutive days that are logged and score at least 70,
  ending today and looking back at most 30 days.
- **daily-log lifecycle** (`init_log`). It is a get-or-create of today's record in the
  history.
- **main-screen handlers** (`show_main`). These cover the counter buttons (water before
  meals floors at 0 and caps at 6; fats floors at 0 and has no cap), the
  checkboxes and sliders, the slip checkbox gate (week ≥ 3 and not a treat
  day), the track gate (week ≥ 9), the rescue trigger (score < 60 or a slip)
  and the result bands (≥ 80, ≥ 60, below).

Modelling choices:

- Dates are day ordinals, i.e. consecutive integers for consecutive calendar days.
  `today` is a parameter and replaces the system clock.
- A start date that is missing or unreadable is `None`.
- The history maps day ordinals to `DailyLog` records.
- The persisted data dictionary is the class `Program.ProgramData`. Its fields
  are `settings` and `logs`, and the handlers update them in place.
- Water is a `real`, because the slider moves in half-litre steps. The counters and the
  eating window are `nat`.
- Python's `// 7` floors. For the positive divisor this equals Dafny's `/` on `int`,
  including when the day is negative, i.e. the start date is in the future.

Modules: `Wrappers` (Option, Min, Max), `Calendar`, `WeekRules`, `Scoring`,
`Streak`, `Program`.

Facts about `app.py` that the model keeps:

- A fresh log scores 10. `fats <= 3` passes on 0 portions, and `0 < window`
  fails on a window of 0. `Scoring.DefaultLogScoresTen` proves this.
- `WEEK_DATA` has five phases: weeks 1–2 flood, 3–4 cleanse, 5–7 advanced
  cleanse, 8 transition, 9 tracks.
- Weeks 1 to 9 each have their own entry, and entry 9 repeats for every later week.

## Model

| member | source | states |
|---|---|---|
| Calendar.ProgramDay | app.py:409-416 | the week is always in 1..13 and equals the clamped bucket of the day; with a start date the day is today − start + 1; with no usable start date the result is (1, 1) |
| Calendar.WeekOfDay | app.py:413 | the week of any day, including days before the start, lies in 1..13 |
| Calendar.WeekBuckets | app.py:413 | for days 1..91 the week is the 7-day bucket holding the day (7·(w−1) < day ≤ 7·w); earlier days are week 1, later days week 13 |
| Calendar.WeekFormula | app.py:412-413 | inside the 91 program days the week equals (today − start) / 7 + 1 |
| Calendar.WeekCappedFromDay85 | app.py:413 | from program day 85 on the week is 13 |
| Calendar.WeekMonotone | app.py:409-416 | a later today never gives an earlier week |
| Calendar.CalendarScenarios | app.py:409-416 | start today gives (1,1), 13 days ago (14,2), 14 days ago (15,3), 100 days ago (101,13), no start (1,1) |
| WeekRules.GetWeekData | app.py:419-422 | weeks 1..9 get their own table entry, weeks above 9 entry 9, weeks below 1 entry 1; the result is always a table entry |
| WeekRules.TableWellFormed | app.py:140-311 | the table's keys are exactly 1..9 and each entry carries its own key |
| WeekRules.MaintenanceRepeats | app.py:419-421 | every week from 9 on gets the identical entry, of the tracks phase |
| WeekRules.LookupMatchesProgram | app.py:140-311 | for every week number the looked-up entry has the programme's phase for that week, a treat-day policy exactly from week 4, tips exactly up to week 8 |
| Scoring.Points | app.py:436-443 | the sum of the seven checks lies in 0..100 |
| Scoring.Score | app.py:435-445 | the score is always in 0..100 |
| Scoring.PerfectScoreIff | app.py:437-445 | the score is 100 exactly when water ≥ 3, water before meals ≥ 3, veggies, protein, fats ≤ 3, 0 < window ≤ 12 and no unexcused slip |
| Scoring.DefaultLogScoresTen | app.py:429-430 | the default record created for a new day scores 10 |
| Scoring.PenaltyExact | app.py:444-445 | the penalty applies exactly to a slip on a non-treat day and gives max(0, points − 20); otherwise the score is the plain points; declaring a treat day gives the unpenalised score; a penalised day scores at most 80 |
| Scoring.ScoreMonotone | app.py:437-444 | more water, more water before meals, veggies or protein set, fewer fats or no penalty never lowers the score |
| Scoring.DoneIrrelevant | app.py:435-445 | the done flag does not affect the score |
| Scoring.ScoreScenarios | app.py:435-445 | a perfect day scores 100, with an unexcused slip 80, with the slip excused 100; the 2.5-litre day with fats 4 and window 13 scores 45 |
| Scoring.BandThresholds | app.py:672-678 | the bands are exactly ≥ 80, 60..79, < 60, and a higher score never falls into a lower band (also the history icons, app.py:698) |
| Scoring.RescueMatchesBand | app.py:649 | rescue is offered exactly for the lowest band or a recorded slip; a perfect day without a slip never triggers it and is in the top band |
| Scoring.CounterDown | app.py:548 | the minus buttons never go below 0 and otherwise take one off |
| Scoring.WaterBeforeUp | app.py:555 | the water-before-meals plus button adds one up to the cap 6 and never exceeds it |
| Scoring.FatsUp | app.py:595 | the fats plus button always adds (no cap) |
| Scoring.SteppersRoundTrip | app.py:548-595 | plus then minus on fats restores the count; minus then plus restores any positive count; on water before meals the same holds inside 0..6 |
| Scoring.SteppersMoveScore | app.py:548-595 | the water-before-meals plus and the fats minus never lower the score; the water-before-meals minus and the fats plus never raise it |
| Streak.RunLength | app.py:450-456 | the run looking back `fuel` days is at most `fuel` |
| Streak.GetStreak | app.py:448-457 | the loop returns the streak value: at most 30, every day from today − k + 1 to today logged with score ≥ 70, and below 30 the day today − k missing or scoring < 70 |
| Streak.RunQualifies | app.py:453-454 | every day counted in a run is logged and scores at least 70 |
| Streak.RunStopsAtMiss | app.py:455-456 | a run shorter than its lookback ends at a missing or low-scoring day |
| Streak.RunUnique | app.py:450-456 | any count with those two properties is the run length |
| Streak.StreakCharacterised | app.py:448-457 | the streak is k exactly when k ≤ 30, the k days up to today qualify, and below 30 the day before them does not |
| Streak.GapTruncates | app.py:453-456 | a day missing g days back caps the streak at g |
| Streak.NoLogTodayNoStreak | app.py:453-456 | no log today gives a streak of 0 |
| Streak.FullRunReachesCap | app.py:451-456 | thirty qualifying days up to today give the full 30 |
| Streak.StreakScenarios | app.py:448-457 | today alone at 85 gives 1; five qualifying days after a 45-point day give 5 |
| Program.WithToday | app.py:425-432 | afterwards today is present, holding the old record if there was one and the default otherwise; every other day is unchanged |
| Program.WithTodayIdempotent | app.py:427 | a second get-or-create changes nothing, and a present day is untouched |
| Program.NewDayScore | app.py:427-430 | a newly created day scores 10 and offers the rescue suggestions |
| Program.GatesMatchPhases | app.py:617 | the track gate is open exactly in the tracks phase and the slip gate (without a treat) exactly outside the flood phase |
| Program.GatesOnCalendar | app.py:642 | the slip checkbox appears exactly from 14 days after the start (week 3) on a non-treat day and the track choice from 56 days after (week 9), never without a start date (also app.py:761) |
| WeekRules.WeekTable | app.py:140-311 | the nine entries keyed 1..9, each with its phase, treat-policy presence and tip-list presence |
| Scoring.Penalised | app.py:444 | the penalty condition: a slip on a day not declared a treat day |
| Scoring.BandOf | app.py:672-678 | the result band of a score: 80 and up, 60 to 79, below 60 (also the history icons, app.py:698) |
| Scoring.NeedsRescue | app.py:649 | the rescue condition: a score below 60 or a recorded slip |
| Streak.QualifyingDay | app.py:453 | a day counts when it is in the history and scores at least 70 |
| Streak.StreakLength | app.py:448-457 | the streak is at most 30, the run of qualifying days ending today |
| Program.SlipCheckboxShown | app.py:642 | the slip checkbox gate: week ≥ 3 and not a treat day |
| Program.TrackSelectable | app.py:617 | the track gate: week ≥ 9 (the same gate on the settings screen, app.py:761) |
| Program.ProgramData.Put | app.py:541-670 | the in-place write of today's record: only today's entry is replaced, the set of days and the settings are unchanged |
| Program.ProgramData.constructor | app.py:399-400 | default data: no start date, no track, empty name, no logs |
| Program.ProgramData.InitLog | app.py:425-432 | the history becomes the get-or-create result above; settings unchanged |
| Program.ProgramData.OpenToday | app.py:501-509 | the screen's position, rule, score and streak are those of the resolver, table, score and streak after today's log is ensured; a new day scores 10 with streak 0 |
| Program.ProgramData.SetWater | app.py:539-543 | only today's water changes |
| Program.ProgramData.WaterBeforeDecrement | app.py:547-549 | only today's water-before-meals changes, by the floored decrement, and the score does not rise |
| Program.ProgramData.WaterBeforeIncrement | app.py:554-556 | only today's water-before-meals changes, by the capped increment, stays ≤ 6, and the score does not fall |
| Program.ProgramData.SetVeggies | app.py:562-565 | only today's veggies flag changes |
| Program.ProgramData.SetProtein | app.py:567-570 | only today's protein flag changes |
| Program.ProgramData.SetWindow | app.py:579-582 | only today's eating window changes |
| Program.ProgramData.FatsDecrement | app.py:586-588 | only today's fats count changes, by the floored decrement, and the score does not fall |
| Program.ProgramData.FatsIncrement | app.py:594-596 | only today's fats count changes, by one, and the score does not rise |
| Program.ProgramData.SetTreat | app.py:637-640 | only today's treat flag changes; setting it removes the penalty |
| Program.ProgramData.SetSlip | app.py:642-646 | with the week resolved from the stored start date (app.py:503), the slip flag is recorded exactly when the gate is open (week ≥ 3, not a treat day), so always from 14 days after the start on a non-treat day; otherwise nothing changes |
| Program.ProgramData.ChooseTrack | app.py:617-626 | with the week resolved from the stored start date (app.py:503), the track is saved exactly when week ≥ 9 and no track was set, so a track can only change from 56 days after the start; logs unchanged |
| Program.ProgramData.FinishDay | app.py:668-678 | today is marked done, its score is unchanged, and the reported band is the band of the score |

## Left out

- The Streamlit page, CSS, widgets, tabs, reruns, balloons and the random motivation tip are presentation only.
- Persistence to a remote gist (HTTP requests and JSON) is network I/O. The model data is what would be saved; `save_gist_data` calls are not modelled.
- The password screen and session state are out of scope. So are onboarding (name and start date entry) and the settings screen's save, which are UI glue. Only the settings screen's week ≥ 9 track gate is modelled, through `Program.GatesOnCalendar`.
- Reading the clock and formatting or parsing date strings are left out. Days are integer ordinals passed in, and a start date that cannot be parsed is `None`.
- The Hebrew text of the week table and of the track, vegetable and tip lists is static content. Only each week entry's key, phase, treat-policy presence and tip-list presence are kept.
- The history screen's newest-first ordering of the last 14 days is display only. Its score icon uses the same bands as `Scoring.BandThresholds`.
- Records with missing fields are not modelled, so the source's `.get(..., 0)` defaults are not either. Every record in the model has every field, as `init_log` creates them.
- The source only writes a slider or checkbox value when it differs from the stored one. The model writes it unconditionally. The resulting state is the same.
