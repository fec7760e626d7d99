/**
 * experiment.py: turn-accuracy tests.  A test turns by a target angle, reads
 * the heading before and after, and derives the turned angle, the absolute
 * error and an accuracy percentage; the callers sweep angles, repeats, speed
 * settings and motor powers, and summarise or pick the best setting.
 */
module Experiment {
  import opened Wrappers
  import opened Stats
  import Drive

  /** `hub.imu.heading()` read before and after one turn. */
  datatype HeadingReading = HeadingReading(start: real, end: real)

  /** The dict `{'target', 'actual', 'error', 'accuracy'}` of one turn. */
  datatype TurnRecord = TurnRecord(target: int, actual: real, error: real, accuracy: real)

  /** Python's ZeroDivisionError: the one exception these computations can raise. */
  datatype Fault = ZeroDivision

  /** `max(0, 100 - (error / target * 100))`. */
  function AccuracyPercent(error: real, target: int): (a: real)
    requires target != 0
    ensures a >= 0.0
    ensures target > 0 && error >= 0.0 ==> a <= 100.0
    ensures target > 0 && error >= 0.0 ==> (a == 100.0 <==> error == 0.0)
    ensures target > 0 ==> (a == 0.0 <==> error >= target as real)
    ensures a >= 100.0 - error / target as real * 100.0
    ensures a == 0.0 || a == 100.0 - error / target as real * 100.0
  {
    var raw := 100.0 - error / target as real * 100.0;
    if raw >= 0.0 then raw else 0.0
  }

  /**
   * The accuracy formula as written divides by the signed target, so for a
   * negative target (a turn the other way, which the console menu accepts)
   * an imperfect turn scores above 100 %.
   */
  lemma AccuracyAboveHundredForNegativeTarget()
    ensures AccuracyPercent(10.0, -30) > 100.0
  {
    assert 10.0 / (-30) as real * 100.0 < 0.0;
  }

  /** The accuracy measured against the size of the target, `max(0, 100 - error / abs(target) * 100)`. */
  function AccuracyPercentCorrected(error: real, target: int): (a: real)
    requires target != 0
    ensures a >= 0.0
    ensures error >= 0.0 ==> a <= 100.0
    ensures error >= 0.0 ==> (a == 100.0 <==> error == 0.0)
    ensures a == 0.0 <==> error >= Abs(target as real)
  {
    var t := Abs(target as real);
    var raw := 100.0 - error / t * 100.0;
    DivAtLeastOne(error, t);
    if raw >= 0.0 then raw else 0.0
  }

  lemma DivAtLeastOne(x: real, t: real)
    requires t > 0.0
    ensures x / t >= 1.0 <==> x >= t
  {
    var q := x / t;
    assert q * t == x;
    if q >= 1.0 {
      assert (q - 1.0) * t >= 0.0;
    } else {
      assert (1.0 - q) * t > 0.0;
    }
  }

  /** For the positive targets every script uses, both formulas give the same accuracy. */
  lemma AccuracyCorrectedAgrees(error: real, target: int)
    requires target > 0
    ensures AccuracyPercentCorrected(error, target) == AccuracyPercent(error, target)
  {
  }

  /**
   * `single_angle_test` (and the body of `turn_accuracy_test`'s loop): the
   * turned angle is `end - start`, the error `abs(target - actual)` is never
   * negative, and the accuracy lies in [0, 100] for a positive target.  A zero
   * target divides by zero.
   */
  function SingleAngleTest(target: int, h: HeadingReading): (r: Result<TurnRecord, Fault>)
    ensures r.Failure? <==> target == 0
    ensures r.Success? ==>
      r.value.target == target && r.value.actual == h.end - h.start &&
      r.value.error == Abs(target as real - r.value.actual)
    ensures r.Success? ==> r.value.error >= 0.0 && r.value.accuracy >= 0.0
    ensures r.Success? ==> r.value.accuracy == AccuracyPercent(r.value.error, target)
    ensures r.Success? && target > 0 ==> r.value.accuracy <= 100.0
  {
    var actual := h.end - h.start;
    var error := Abs(target as real - actual);
    if target == 0 then Failure(ZeroDivision)
    else Success(TurnRecord(target, actual, error, AccuracyPercent(error, target)))
  }

  /** The printed grade. */
  datatype Grade = Excellent | Good | Fair | NeedsImprovement

  /** Thresholds tried from the top: >= 95, >= 90, >= 80, otherwise; exactly one band applies. */
  function GradeOf(accuracy: real): (g: Grade)
    ensures g == Excellent <==> accuracy >= 95.0
    ensures g == Good <==> 90.0 <= accuracy < 95.0
    ensures g == Fair <==> 80.0 <= accuracy < 90.0
    ensures g == NeedsImprovement <==> accuracy < 80.0
  {
    if accuracy >= 95.0 then Excellent
    else if accuracy >= 90.0 then Good
    else if accuracy >= 80.0 then Fair
    else NeedsImprovement
  }

  function ErrorsOf(data: seq<TurnRecord>): (r: seq<real>)
    ensures |r| == |data| && forall i :: 0 <= i < |data| ==> r[i] == data[i].error
  {
    seq(|data|, i requires 0 <= i < |data| => data[i].error)
  }

  function AccuraciesOf(data: seq<TurnRecord>): (r: seq<real>)
    ensures |r| == |data| && forall i :: 0 <= i < |data| ==> r[i] == data[i].accuracy
  {
    seq(|data|, i requires 0 <= i < |data| => data[i].accuracy)
  }

  const TestAngles: seq<int> := [30, 45, 60, 90, 120, 135, 150, 180]

  lemma TestAnglesPositive()
    ensures forall i :: 0 <= i < |TestAngles| ==> TestAngles[i] > 0
  {
  }

  /** The summary loop of `turn_accuracy_test`: `total_error += ...; total_accuracy += ...`. */
  method Totals(data: seq<TurnRecord>) returns (totalError: real, totalAccuracy: real)
    ensures totalError == Sum(ErrorsOf(data))
    ensures totalAccuracy == Sum(AccuraciesOf(data))
  {
    totalError, totalAccuracy := 0.0, 0.0;
    for k := 0 to |data|
      invariant totalError == Sum(ErrorsOf(data)[..k])
      invariant totalAccuracy == Sum(AccuraciesOf(data)[..k])
    {
      SumAppend(ErrorsOf(data)[..k], data[k].error);
      assert ErrorsOf(data)[..k + 1] == ErrorsOf(data)[..k] + [data[k].error];
      SumAppend(AccuraciesOf(data)[..k], data[k].accuracy);
      assert AccuraciesOf(data)[..k + 1] == AccuraciesOf(data)[..k] + [data[k].accuracy];
      totalError := totalError + data[k].error;
      totalAccuracy := totalAccuracy + data[k].accuracy;
    }
    assert ErrorsOf(data)[..|data|] == ErrorsOf(data);
    assert AccuraciesOf(data)[..|data|] == AccuraciesOf(data);
  }

  /** What `turn_accuracy_test` prints at the end. */
  datatype TurnSummary = TurnSummary(data: seq<TurnRecord>, avgError: real, avgAccuracy: real, grade: Grade)

  /**
   * `turn_accuracy_test`: one record per entry of `test_angles`, in list
   * order; the averages are taken over those records, the average accuracy
   * lies in [0, 100], and the grade is the band of the average accuracy.
   */
  method TurnAccuracyTest(readings: seq<HeadingReading>) returns (s: TurnSummary)
    requires |readings| == |TestAngles|
    ensures |s.data| == |TestAngles|
    ensures forall i :: 0 <= i < |TestAngles| ==> SingleAngleTest(TestAngles[i], readings[i]) == Success(s.data[i])
    ensures s.avgError == Mean(ErrorsOf(s.data)) && s.avgError >= 0.0
    ensures s.avgAccuracy == Mean(AccuraciesOf(s.data)) && 0.0 <= s.avgAccuracy <= 100.0
    ensures s.grade == GradeOf(s.avgAccuracy)
  {
    TestAnglesPositive();
    var accuracyData: seq<TurnRecord> := [];
    for i := 0 to |TestAngles|
      invariant |accuracyData| == i
      invariant forall k :: 0 <= k < i ==> SingleAngleTest(TestAngles[k], readings[k]) == Success(accuracyData[k])
    {
      var r := SingleAngleTest(TestAngles[i], readings[i]);
      accuracyData := accuracyData + [r.value];
      // robot.stop(); hub.imu.reset_heading(0) before the next angle
    }

    var totalError, totalAccuracy := Totals(accuracyData);
    var errors, accuracies := ErrorsOf(accuracyData), AccuraciesOf(accuracyData);
    var avgError := totalError / |accuracyData| as real;
    var avgAccuracy := totalAccuracy / |accuracyData| as real;
    MeanWithin(errors, 0.0, errors[ArgMax(errors)]);
    MeanWithin(accuracies, 0.0, 100.0);
    s := TurnSummary(accuracyData, avgError, avgAccuracy, GradeOf(avgAccuracy));
  }

  /** What `repeat_accuracy_test` prints. */
  datatype RepeatStats = RepeatStats(
    results: seq<TurnRecord>, avgError: real, avgAccuracy: real,
    maxError: real, minError: real, spread: real)

  /**
   * `repeat_accuracy_test`: `repeat_count` runs of `single_angle_test` at the
   * same target, then `sum/len`, `max` and `min` of the errors.  It fails when
   * the target is 0 or no run happened (`sum([]) / len([])`); otherwise
   * `min <= average <= max`, so the printed spread `max - min` is never
   * negative, and both extremes are errors that were observed.
   */
  method RepeatAccuracyTest(target: int, repeatCount: int, readings: seq<HeadingReading>)
    returns (r: Result<RepeatStats, Fault>)
    requires |readings| == if repeatCount > 0 then repeatCount else 0
    ensures r.Failure? <==> repeatCount <= 0 || target == 0
    ensures r.Success? ==> |r.value.results| == repeatCount
    ensures r.Success? ==> forall i :: 0 <= i < |r.value.results| ==>
      SingleAngleTest(target, readings[i]) == Success(r.value.results[i])
    ensures r.Success? ==>
      r.value.avgError == Mean(ErrorsOf(r.value.results)) &&
      r.value.avgAccuracy == Mean(AccuraciesOf(r.value.results))
    ensures r.Success? ==>
      r.value.minError <= r.value.avgError <= r.value.maxError &&
      r.value.spread == r.value.maxError - r.value.minError && r.value.spread >= 0.0
    ensures r.Success? ==> forall i :: 0 <= i < |r.value.results| ==>
      r.value.minError <= r.value.results[i].error <= r.value.maxError
    ensures r.Success? ==>
      (exists i :: 0 <= i < |r.value.results| && r.value.results[i].error == r.value.minError) &&
      (exists i :: 0 <= i < |r.value.results| && r.value.results[i].error == r.value.maxError)
  {
    var results: seq<TurnRecord> := [];
    for i := 0 to |readings|
      invariant |results| == i
      invariant forall k :: 0 <= k < i ==> SingleAngleTest(target, readings[k]) == Success(results[k])
    {
      // robot.use_gyro(False); hub.imu.reset_heading(0); robot.use_gyro(True)
      var m := SingleAngleTest(target, readings[i]);
      if m.Failure? {
        return Failure(m.error);
      }
      results := results + [m.value];
    }
    if |results| == 0 {
      return Failure(ZeroDivision);
    }
    var errors, accuracies := ErrorsOf(results), AccuraciesOf(results);
    var avgError := Sum(errors) / |errors| as real;
    var avgAccuracy := Sum(accuracies) / |accuracies| as real;
    var hi, lo := ArgMax(errors), ArgMin(errors);
    MeanBetweenMinMax(errors);
    r := Success(RepeatStats(results, avgError, avgAccuracy, errors[hi], errors[lo], errors[hi] - errors[lo]));
  }

  /** `(straight %, turn %)` pairs, tried in this order. */
  const SpeedSettings: seq<(int, int)> := [(15, 10), (30, 25), (45, 40), (60, 55), (75, 70), (90, 85)]

  const MotorPowerSettings: seq<int> := [50, 75, 100, 125, 150]

  /** A turn record extended with the setting it ran under (the dict's extra keys). */
  datatype SettingRecord = SettingRecord(
    turn: TurnRecord, straightPercent: int, turnPercent: int, motorPower: Option<int>,
    straightMmps: real, turnDegps: real)

  function WithSetting(rec: TurnRecord, speeds: (int, int), power: Option<int>): (s: SettingRecord)
    ensures s.turn == rec && s.straightPercent == speeds.0 && s.turnPercent == speeds.1 && s.motorPower == power
    ensures s.straightMmps == Drive.ScaledSpeed(speeds.0) && s.turnDegps == Drive.ScaledSpeed(speeds.1)
  {
    SettingRecord(rec, speeds.0, speeds.1, power, Drive.ScaledSpeed(speeds.0), Drive.ScaledSpeed(speeds.1))
  }

  function ErrorKeys(results: seq<SettingRecord>): (r: seq<real>)
    ensures |r| == |results| && forall i :: 0 <= i < |results| ==> r[i] == results[i].turn.error
  {
    seq(|results|, i requires 0 <= i < |results| => results[i].turn.error)
  }

  /** `min(results, key=lambda x: x['error'])`: least error, earliest on ties. */
  predicate IsBest(results: seq<SettingRecord>, best: nat)
  {
    IsFirstMin(ErrorKeys(results), best)
  }

  /** The list a comparison returns, with the index of `best_result`. */
  datatype Comparison = Comparison(results: seq<SettingRecord>, best: nat)

  /**
   * `speed_comparison_test`: one record per speed pair, in `speed_settings`
   * order, each with its speeds converted by `500 * (pct / 100)`; the best
   * setting has the least error and is the first such.
   */
  method SpeedComparisonTest(target: int, readings: seq<HeadingReading>) returns (r: Result<Comparison, Fault>)
    requires |readings| == |SpeedSettings|
    ensures r.Failure? <==> target == 0
    ensures r.Success? ==> |r.value.results| == |SpeedSettings|
    ensures r.Success? ==> forall i :: 0 <= i < |r.value.results| ==>
        SingleAngleTest(target, readings[i]).Success? &&
        r.value.results[i] == WithSetting(SingleAngleTest(target, readings[i]).value, SpeedSettings[i], None)
    ensures r.Success? ==> IsBest(r.value.results, r.value.best)
  {
    var speedResults: seq<SettingRecord> := [];
    for i := 0 to |SpeedSettings|
      invariant |speedResults| == i
      invariant forall k :: 0 <= k < i ==>
        SingleAngleTest(target, readings[k]).Success? &&
        speedResults[k] == WithSetting(SingleAngleTest(target, readings[k]).value, SpeedSettings[k], None)
    {
      // robot.settings(straight_speed=..., turn_rate=...); reset the heading
      var m := SingleAngleTest(target, readings[i]);
      if m.Failure? {
        return Failure(m.error);
      }
      speedResults := speedResults + [WithSetting(m.value, SpeedSettings[i], None)];
    }
    var best := ArgMin(ErrorKeys(speedResults));
    r := Success(Comparison(speedResults, best));
  }

  /**
   * `comprehensive_test`: 6 speed pairs x 5 motor powers = 30 records; the
   * speed pair varies slowest and the motor power fastest, so record `k` ran
   * under speed pair `k / 5` and power `k % 5`.  The best setting is chosen
   * as in the speed comparison.
   */
  method ComprehensiveTest(target: int, readings: seq<HeadingReading>) returns (r: Result<Comparison, Fault>)
    requires |readings| == |SpeedSettings| * |MotorPowerSettings|
    ensures r.Failure? <==> target == 0
    ensures r.Success? ==> |r.value.results| == 30
    ensures r.Success? ==> forall k :: 0 <= k < |r.value.results| ==>
        SingleAngleTest(target, readings[k]).Success? &&
        r.value.results[k] == WithSetting(SingleAngleTest(target, readings[k]).value,
                                          SpeedSettings[k / 5], Some(MotorPowerSettings[k % 5]))
    ensures r.Success? ==> IsBest(r.value.results, r.value.best)
  {
    var comprehensiveResults: seq<SettingRecord> := [];
    for i := 0 to 6
      invariant |comprehensiveResults| == i * 5
      invariant forall k :: 0 <= k < |comprehensiveResults| ==>
        SingleAngleTest(target, readings[k]).Success? &&
        comprehensiveResults[k] == WithSetting(SingleAngleTest(target, readings[k]).value,
                                               SpeedSettings[k / 5], Some(MotorPowerSettings[k % 5]))
    {
      for j := 0 to 5
        invariant |comprehensiveResults| == i * 5 + j
        invariant forall k :: 0 <= k < |comprehensiveResults| ==>
          SingleAngleTest(target, readings[k]).Success? &&
          comprehensiveResults[k] == WithSetting(SingleAngleTest(target, readings[k]).value,
                                                 SpeedSettings[k / 5], Some(MotorPowerSettings[k % 5]))
      {
        // robot.settings(...); motor.control.limits(power=motor_power); reset the heading
        var k := i * 5 + j;
        assert k / 5 == i && k % 5 == j;
        var m := SingleAngleTest(target, readings[k]);
        if m.Failure? {
          return Failure(m.error);
        }
        comprehensiveResults := comprehensiveResults + [WithSetting(m.value, SpeedSettings[i], Some(MotorPowerSettings[j]))];
      }
    }
    var best := ArgMin(ErrorKeys(comprehensiveResults));
    r := Success(Comparison(comprehensiveResults, best));
  }
}
