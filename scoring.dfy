/**
 * The daily log record and the daily compliance score: seven weighted
 * threshold checks, a slip penalty, and the result clamped to 0..100.
 */
module Scoring {
  import opened Wrappers

  /**
   * One day's log. `water` is litres (the slider moves in half-litre steps
   * from 0.0 to 6.0), `waterBefore` the meals preceded by two glasses of
   * water, `window` the eating window in whole hours (0..16 on the slider),
   * `fats` the concentrated-fat portions, `done` the day being finished.
   */
  datatype DailyLog = DailyLog(
    water: real,
    waterBefore: nat,
    veggies: bool,
    protein: bool,
    window: nat,
    fats: nat,
    treat: bool,
    slip: bool,
    done: bool)

  /** The record created the first time a day is opened. */
  const DefaultLog: DailyLog :=
    DailyLog(0.0, 0, false, false, 0, 0, false, false, false)

  const MaxScore: int := 100
  const SlipPenalty: int := 20

  /** The points earned before the penalty: the sum of the seven checks. */
  function Points(log: DailyLog): (p: int)
    ensures 0 <= p <= MaxScore
  {
    (if log.water >= 2.0 then 20 else 0)
    + (if log.water >= 3.0 then 10 else 0)
    + (if log.waterBefore >= 3 then 10 else 0)
    + (if log.veggies then 25 else 0)
    + (if log.protein then 15 else 0)
    + (if log.fats <= 3 then 10 else 0)
    + (if 0 < log.window <= 12 then 10 else 0)
  }

  /** The penalty applies to a slip that was not declared a treat day. */
  predicate Penalised(log: DailyLog)
  {
    log.slip && !log.treat
  }

  /** The daily compliance score. */
  function Score(log: DailyLog): (s: int)
    ensures 0 <= s <= MaxScore
  {
    var raw := Points(log) - (if Penalised(log) then SlipPenalty else 0);
    Max(0, Min(MaxScore, raw))
  }

  /** Every positive check passes, which earns the full 100 points. */
  predicate FullMarks(log: DailyLog)
  {
    && log.water >= 3.0
    && log.waterBefore >= 3
    && log.veggies
    && log.protein
    && log.fats <= 3
    && 0 < log.window <= 12
  }

  /** A score of exactly 100 means every check passed and no penalty applied. */
  lemma PerfectScoreIff(log: DailyLog)
    ensures Score(log) == MaxScore <==> FullMarks(log) && !Penalised(log)
  {
  }

  /**
   * A freshly created day scores 10: no fat portions passes the fat check,
   * while an eating window of 0 hours fails the window check.
   */
  lemma DefaultLogScoresTen()
    ensures Score(DefaultLog) == 10
  {
  }

  /**
   * The penalty is the only place the treat and slip flags matter. Without a
   * slip, or on a treat day, the score is the plain sum of points; an
   * undeclared slip takes 20 off that sum, never below 0. Declaring the treat
   * day restores the unpenalised score.
   */
  lemma PenaltyExact(log: DailyLog)
    ensures Score(log.(slip := false)) == Points(log)
    ensures Penalised(log) ==> Score(log) == Max(0, Points(log) - SlipPenalty)
    ensures !Penalised(log) ==> Score(log) == Points(log)
    ensures Score(log.(treat := true)) == Score(log.(slip := false))
    ensures Penalised(log) ==> Score(log) <= MaxScore - SlipPenalty
  {
  }

  /** `b` is at least as compliant as `a` in every field the score reads. */
  predicate AtLeastAsCompliant(b: DailyLog, a: DailyLog)
  {
    && b.water >= a.water
    && b.waterBefore >= a.waterBefore
    && (a.veggies ==> b.veggies)
    && (a.protein ==> b.protein)
    && b.fats <= a.fats
    && b.window == a.window
    && (Penalised(b) ==> Penalised(a))
  }

  /**
   * More water, more water-before-meals, eating the vegetables or the
   * protein, fewer fat portions, or removing the penalty never lowers the
   * score.
   */
  lemma ScoreMonotone(a: DailyLog, b: DailyLog)
    requires AtLeastAsCompliant(b, a)
    ensures Score(b) >= Score(a)
  {
  }

  /** The `done` flag is not part of the score. */
  lemma DoneIrrelevant(log: DailyLog, done: bool)
    ensures Score(log.(done := done)) == Score(log)
  {
  }

  /**
   * Worked examples: a perfect day scores 100, 80 with an undeclared slip,
   * 100 again once the slip is a treat day; 2.5 litres with vegetables,
   * 4 fat portions and a 13-hour window scores 45.
   */
  lemma ScoreScenarios()
    ensures Score(DailyLog(3.0, 3, true, true, 10, 2, false, false, false)) == 100
    ensures Score(DailyLog(3.0, 3, true, true, 10, 2, false, true, false)) == 80
    ensures Score(DailyLog(3.0, 3, true, true, 10, 2, true, true, false)) == 100
    ensures Score(DailyLog(2.5, 0, true, false, 13, 4, false, false, false)) == 45
  {
  }

  // ----- result bands -----

  /** The band a score falls in: 80 and up, 60 up to 79, below 60. */
  datatype Band = Excellent | Good | NeedsWork

  function BandOf(score: int): Band
  {
    if score >= 80 then Excellent
    else if score >= 60 then Good
    else NeedsWork
  }

  function BandRank(b: Band): nat
  {
    match b
    case NeedsWork => 0
    case Good => 1
    case Excellent => 2
  }

  /** Each band is exactly its score range, and a higher score never drops a band. */
  lemma BandThresholds(s: int, t: int)
    ensures BandOf(s) == Excellent <==> s >= 80
    ensures BandOf(s) == Good <==> 60 <= s < 80
    ensures BandOf(s) == NeedsWork <==> s < 60
    ensures s <= t ==> BandRank(BandOf(s)) <= BandRank(BandOf(t))
  {
  }

  /** The rescue suggestions are shown for a low score or any recorded slip. */
  predicate NeedsRescue(score: int, slip: bool)
  {
    score < 60 || slip
  }

  /**
   * Rescue is offered exactly on a day in the lowest band or with a slip; a
   * perfect day without a slip never triggers it.
   */
  lemma RescueMatchesBand(log: DailyLog)
    ensures NeedsRescue(Score(log), log.slip) <==> BandOf(Score(log)) == NeedsWork || log.slip
    ensures FullMarks(log) && !log.slip ==> !NeedsRescue(Score(log), log.slip)
    ensures FullMarks(log) && !log.slip ==> BandOf(Score(log)) == Excellent
  {
  }

  // ----- counter steppers -----

  /** The cap on the water-before-meals counter's increment button. */
  const WaterBeforeCap: nat := 6

  /** The decrement buttons (water-before-meals and fats) floor at 0. */
  function CounterDown(n: nat): (r: nat)
    ensures r <= n
    ensures n > 0 ==> r + 1 == n
  {
    Max(0, n - 1)
  }

  /** The water-before-meals increment button: one more, but at most 6. */
  function WaterBeforeUp(n: nat): (r: nat)
    ensures r <= WaterBeforeCap
    ensures n < WaterBeforeCap ==> r == n + 1
    ensures n >= WaterBeforeCap ==> r == WaterBeforeCap
  {
    Min(WaterBeforeCap, n + 1)
  }

  /** The fats increment button: one more, with no cap. */
  function FatsUp(n: nat): (r: nat)
    ensures r > n
  {
    n + 1
  }

  /** The increment and decrement buttons undo each other inside their ranges. */
  lemma SteppersRoundTrip(n: nat)
    ensures CounterDown(FatsUp(n)) == n
    ensures n > 0 ==> FatsUp(CounterDown(n)) == n
    ensures n < WaterBeforeCap ==> CounterDown(WaterBeforeUp(n)) == n
    ensures 0 < n <= WaterBeforeCap ==> WaterBeforeUp(CounterDown(n)) == n
    ensures n <= WaterBeforeCap ==> CounterDown(n) <= WaterBeforeCap
  {
  }

  /**
   * The buttons move the score the way a user would expect: more
   * water-before-meals or fewer fats never lowers it, fewer
   * water-before-meals or more fats never raises it.
   */
  lemma SteppersMoveScore(log: DailyLog)
    ensures Score(log.(waterBefore := WaterBeforeUp(log.waterBefore))) >= Score(log)
    ensures Score(log.(waterBefore := CounterDown(log.waterBefore))) <= Score(log)
    ensures Score(log.(fats := CounterDown(log.fats))) >= Score(log)
    ensures Score(log.(fats := FatsUp(log.fats))) <= Score(log)
  {
    var up := log.(waterBefore := WaterBeforeUp(log.waterBefore));
    assert up.waterBefore >= 3 <== log.waterBefore >= 3;
    var fewer := log.(fats := CounterDown(log.fats));
    ScoreMonotone(log, fewer);
    var more := log.(fats := FatsUp(log.fats));
    ScoreMonotone(more, log);
    var down := log.(waterBefore := CounterDown(log.waterBefore));
    ScoreMonotone(down, log);
  }
}
