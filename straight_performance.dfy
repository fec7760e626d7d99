/**
 * ayumu_accuracy_test_20250621.py: drive twelve (speed, distance) patterns
 * once each, derive distance, heading, speed and wheel-skew metrics from the
 * sensor readings, store them in the global `experiment_data`, switch the
 * logger off through the global `logging_active`, and report the best and
 * worst patterns.
 */
module StraightPerformance {
  import opened Wrappers
  import opened Stats

  /** One entry of `TEST_PATTERNS`. */
  datatype Pattern = Pattern(speed: int, distance: int, name: string)

  const TestPatterns: seq<Pattern> := [
    Pattern(100, 200, "低速・短距離"),
    Pattern(100, 500, "低速・中距離"),
    Pattern(100, 1000, "低速・長距離"),
    Pattern(200, 200, "中速・短距離"),
    Pattern(200, 500, "中速・中距離"),
    Pattern(200, 1000, "中速・長距離"),
    Pattern(300, 200, "高速・短距離"),
    Pattern(300, 500, "高速・中距離"),
    Pattern(300, 1000, "高速・長距離"),
    Pattern(500, 200, "最高速・短距離"),
    Pattern(500, 500, "最高速・中距離"),
    Pattern(760, 200, "限界速度・短距離")
  ]

  /**
   * The readings around one run: the StopWatch time in milliseconds, the IMU
   * heading and both wheel angles before and after, and `robot.distance()`.
   */
  datatype Sample = Sample(
    elapsedMs: int, startHeading: real, endHeading: real,
    startLeftAngle: real, startRightAngle: real, endLeftAngle: real, endRightAngle: real,
    actualDistance: real)

  /** The result dict of `measure_straight_performance`. */
  datatype StraightResult = StraightResult(
    testName: string, targetSpeed: int, targetDistance: int,
    actualDistance: real, elapsedTime: real, averageSpeed: real,
    headingError: real, distanceError: real,
    leftRotation: real, rightRotation: real, motorAngleDiff: real)

  /** `actual_distance / elapsed_time if elapsed_time > 0 else 0`: never divides by zero. */
  function AverageSpeed(distance: real, elapsed: real): (v: real)
    ensures elapsed > 0.0 ==> v * elapsed == distance
    ensures elapsed <= 0.0 ==> v == 0.0
  {
    if elapsed > 0.0 then distance / elapsed else 0.0
  }

  /** `abs(left_rotation - right_rotation)`: the wheel skew, zero exactly when both wheels turned alike. */
  function MotorAngleDiff(leftRotation: real, rightRotation: real): (d: real)
    ensures d >= 0.0
    ensures d == 0.0 <==> leftRotation == rightRotation
  {
    Abs(leftRotation - rightRotation)
  }

  /** The skew does not depend on which wheel is called left. */
  lemma MotorAngleDiffSymmetric(leftRotation: real, rightRotation: real)
    ensures MotorAngleDiff(leftRotation, rightRotation) == MotorAngleDiff(rightRotation, leftRotation)
  {
  }

  /** `measure_straight_performance(speed, target_distance, test_name)` given the run's readings. */
  function MeasureStraightPerformance(speed: int, targetDistance: int, testName: string, s: Sample): (r: StraightResult)
    ensures r.testName == testName && r.targetSpeed == speed && r.targetDistance == targetDistance
    ensures r.actualDistance == s.actualDistance
    ensures r.distanceError == s.actualDistance - targetDistance as real
    ensures r.headingError == s.endHeading - s.startHeading
    ensures r.elapsedTime * 1000.0 == s.elapsedMs as real
    ensures r.elapsedTime > 0.0 ==> r.averageSpeed * r.elapsedTime == r.actualDistance
    ensures r.elapsedTime <= 0.0 ==> r.averageSpeed == 0.0
    ensures r.leftRotation == s.endLeftAngle - s.startLeftAngle
    ensures r.rightRotation == s.endRightAngle - s.startRightAngle
    ensures r.motorAngleDiff >= 0.0 && r.motorAngleDiff == Abs(r.leftRotation - r.rightRotation)
  {
    var elapsedTime := s.elapsedMs as real / 1000.0;
    var leftRotation := s.endLeftAngle - s.startLeftAngle;
    var rightRotation := s.endRightAngle - s.startRightAngle;
    StraightResult(
      testName, speed, targetDistance,
      s.actualDistance, elapsedTime, AverageSpeed(s.actualDistance, elapsedTime),
      s.endHeading - s.startHeading, s.actualDistance - targetDistance as real,
      leftRotation, rightRotation, MotorAngleDiff(leftRotation, rightRotation))
  }

  /** The results of the pattern loop: one per pattern, in pattern order, with the pattern's targets. */
  function PatternResults(samples: seq<Sample>): (r: seq<StraightResult>)
    requires |samples| == |TestPatterns|
    ensures |r| == |TestPatterns|
    ensures forall i :: 0 <= i < |r| ==>
      r[i].testName == TestPatterns[i].name &&
      r[i].targetSpeed == TestPatterns[i].speed &&
      r[i].targetDistance == TestPatterns[i].distance &&
      r[i].distanceError == samples[i].actualDistance - TestPatterns[i].distance as real
  {
    seq(|TestPatterns|, i requires 0 <= i < |TestPatterns| =>
      MeasureStraightPerformance(TestPatterns[i].speed, TestPatterns[i].distance, TestPatterns[i].name, samples[i]))
  }

  function DistanceKeys(data: seq<StraightResult>): (r: seq<real>)
    ensures |r| == |data| && forall i :: 0 <= i < |data| ==> r[i] == Abs(data[i].distanceError)
  {
    seq(|data|, i requires 0 <= i < |data| => Abs(data[i].distanceError))
  }

  function HeadingKeys(data: seq<StraightResult>): (r: seq<real>)
    ensures |r| == |data| && forall i :: 0 <= i < |data| ==> r[i] == Abs(data[i].headingError)
  {
    seq(|data|, i requires 0 <= i < |data| => Abs(data[i].headingError))
  }

  /** Indices of `best_distance`, `best_heading`, `worst_distance`, `worst_heading`. */
  datatype Extremes = Extremes(bestDistance: nat, bestHeading: nat, worstDistance: nat, worstHeading: nat)

  /**
   * The `if experiment_data:` block: nothing is selected from an empty list;
   * otherwise the best entries minimise and the worst maximise the absolute
   * distance and heading errors, the earliest entry winning a tie.
   */
  function SelectExtremes(data: seq<StraightResult>): (e: Option<Extremes>)
    ensures e.Some? <==> |data| > 0
    ensures e.Some? ==>
      IsFirstMin(DistanceKeys(data), e.value.bestDistance) &&
      IsFirstMin(HeadingKeys(data), e.value.bestHeading) &&
      IsFirstMax(DistanceKeys(data), e.value.worstDistance) &&
      IsFirstMax(HeadingKeys(data), e.value.worstHeading)
  {
    if |data| == 0 then None
    else
      var d, h := DistanceKeys(data), HeadingKeys(data);
      Some(Extremes(ArgMin(d), ArgMin(h), ArgMax(d), ArgMax(h)))
  }

  /** The script's two globals and the mission task that updates them. */
  class Session {
    var experimentData: seq<StraightResult>
    var loggingActive: bool

    /** `experiment_data = []` and `logging_active = True` at start-up. */
    constructor ()
      ensures experimentData == [] && loggingActive
    {
      experimentData := [];
      loggingActive := true;
    }

    /**
     * `main_robot_sequence_task`: appends exactly one result per pattern, in
     * pattern order, then clears `logging_active`, which ends the logger's
     * `while logging_active` loop, and selects the best and worst entries.
     */
    method MainRobotSequenceTask(samples: seq<Sample>) returns (extremes: Option<Extremes>)
      requires |samples| == |TestPatterns|
      modifies this
      ensures experimentData == old(experimentData) + PatternResults(samples)
      ensures !loggingActive
      ensures extremes == SelectExtremes(experimentData) && extremes.Some?
    {
      ghost var before := experimentData;
      for i := 0 to |TestPatterns|
        invariant experimentData == before + PatternResults(samples)[..i]
      {
        var pattern := TestPatterns[i];
        var result := MeasureStraightPerformance(pattern.speed, pattern.distance, pattern.name, samples[i]);
        experimentData := experimentData + [result];
      }
      assert PatternResults(samples)[..|TestPatterns|] == PatternResults(samples);
      loggingActive := false;
      extremes := SelectExtremes(experimentData);
    }
  }
}
