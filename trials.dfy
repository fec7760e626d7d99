/**
 * The trial executor shared by straight.py, bend.py and BEND2.py: run one
 * motion `repeat_num` times, read the sensor, record the signed error
 * `reading - target` and its absolute value, then reduce the cell to its
 * mean error and mean absolute error.  What the robot actually moved in each
 * trial is an input: the motion hardware is not part of this model.
 */
module Trials {
  import opened Stats

  /** The signed errors `reading - target`, one per trial, in trial order. */
  function Errors(readings: seq<real>, target: int): (r: seq<real>)
    ensures |r| == |readings|
    ensures forall i :: 0 <= i < |readings| ==> r[i] == readings[i] - target as real
  {
    seq(|readings|, i requires 0 <= i < |readings| => readings[i] - target as real)
  }

  /**
   * straight.py, innermost loop: `robot.reset()` zeroes the odometer before
   * every trial, so each reading of `robot.distance()` is exactly what that
   * trial travelled, and its error is `travelled - distance`.
   */
  method StraightTrials(distance: int, repeatNum: nat, travelled: seq<real>)
    returns (errors: seq<real>, absErrors: seq<real>, cell: CellSummary)
    requires repeatNum > 0 && |travelled| == repeatNum
    ensures |errors| == |absErrors| == repeatNum
    ensures errors == Errors(travelled, distance)
    ensures absErrors == AbsAll(errors)
    ensures cell == Summarize(distance, errors, repeatNum)
  {
    var odometer: real := 0.0;
    errors, absErrors := [], [];
    for trial := 0 to repeatNum
      invariant errors == Errors(travelled[..trial], distance)
      invariant absErrors == AbsAll(errors)
    {
      odometer := 0.0;                          // robot.reset()
      odometer := odometer + travelled[trial];  // robot.straight(distance)
      var error := odometer - distance as real;
      errors := errors + [error];
      absErrors := absErrors + [Abs(error)];
      // robot.straight(-distance) drives back; the next robot.reset() discards it
    }
    assert travelled[..repeatNum] == travelled;
    cell := Summarize(distance, errors, repeatNum);
  }

  /**
   * The heading the IMU reports after each turn of a cell, when it reads
   * `heading0` before the first turn and is reset to 0 after every turn.
   */
  function HeadingReadings(heading0: real, turned: seq<real>): (r: seq<real>)
    ensures |r| == |turned|
    ensures |turned| > 0 ==> r[0] == heading0 + turned[0]
    ensures forall i :: 0 < i < |turned| ==> r[i] == turned[i]
    ensures heading0 == 0.0 ==> r == turned
  {
    seq(|turned|, i requires 0 <= i < |turned| => if i == 0 then heading0 + turned[0] else turned[i])
  }

  /**
   * bend.py and BEND2.py, innermost loop: turn by `angle`, read
   * `hub.imu.heading()`, record `heading - angle`, then
   * `hub.imu.reset_heading(0)`.  The cell ends with the heading at 0, so the
   * next cell's errors are again measured from zero.
   */
  method TurnTrials(angle: int, repeatNum: nat, heading0: real, turned: seq<real>)
    returns (errors: seq<real>, absErrors: seq<real>, cell: CellSummary, heading: real)
    requires repeatNum > 0 && |turned| == repeatNum
    ensures heading == 0.0
    ensures |errors| == |absErrors| == repeatNum
    ensures errors == Errors(HeadingReadings(heading0, turned), angle)
    ensures heading0 == 0.0 ==> errors == Errors(turned, angle)
    ensures absErrors == AbsAll(errors)
    ensures cell == Summarize(angle, errors, repeatNum)
  {
    heading := heading0;
    errors, absErrors := [], [];
    ghost var readings := HeadingReadings(heading0, turned);
    for trial := 0 to repeatNum
      invariant heading == if trial == 0 then heading0 else 0.0
      invariant errors == Errors(readings[..trial], angle)
      invariant absErrors == AbsAll(errors)
    {
      heading := heading + turned[trial];  // robot.turn(angle)
      var error := heading - angle as real;
      errors := errors + [error];
      absErrors := absErrors + [Abs(error)];
      heading := 0.0;                      // hub.imu.reset_heading(0)
    }
    assert readings[..repeatNum] == readings;
    cell := Summarize(angle, errors, repeatNum);
  }
}
