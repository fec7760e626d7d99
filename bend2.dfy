/**
 * BEND2.py: for every motor power, set the turn rate to `500 * (power / 100)`
 * deg/s, turn 60 degrees `repeat_num` times, and record per power the mean
 * error and mean absolute error of `hub.imu.heading() - 60`.
 */
module Bend2 {
  import opened Stats
  import opened Trials
  import Drive

  const PowerList: seq<int> := [10, 20, 30, 40, 50, 60, 70, 80, 90, 100]
  const Angle: int := 60
  const RepeatNum: nat := 3

  /** `turn_rate` maps the powers 10..100 onto 50..500 deg/s, strictly increasing. */
  lemma TurnRatesIncreasing()
    ensures Drive.ScaledSpeed(PowerList[0]) == 50.0
    ensures Drive.ScaledSpeed(PowerList[|PowerList| - 1]) == 500.0
    ensures forall i, j :: 0 <= i < j < |PowerList| ==>
      Drive.ScaledSpeed(PowerList[i]) < Drive.ScaledSpeed(PowerList[j])
  {
    forall i, j | 0 <= i < j < |PowerList|
      ensures Drive.ScaledSpeed(PowerList[i]) < Drive.ScaledSpeed(PowerList[j])
    {
      Drive.ScaledSpeedMonotone(PowerList[i], PowerList[j]);
    }
  }

  /** How far the robot actually turned: one amount per power and trial. */
  predicate SweepShaped(turned: seq<seq<real>>)
  {
    |turned| == |PowerList| &&
    forall p :: 0 <= p < |turned| ==> |turned[p]| == RepeatNum
  }

  /** `all_results`: one `(power, mean_error, mean_abs_error, repeat_num)` per power. */
  function AllResults(turned: seq<seq<real>>): (cells: seq<CellSummary>)
    requires SweepShaped(turned)
    ensures |cells| == |PowerList|
    ensures forall p :: 0 <= p < |cells| ==>
      cells[p].param == PowerList[p] && cells[p].trials == RepeatNum &&
      0.0 <= cells[p].meanAbsError && Abs(cells[p].meanError) <= cells[p].meanAbsError
  {
    seq(|PowerList|, p requires 0 <= p < |PowerList| =>
      Summarize(PowerList[p], Errors(turned[p], Angle), RepeatNum))
  }

  /**
   * The whole script: `turnRates` lists the `robot.settings(turn_rate=...)`
   * commands in order; every trial targets 60 degrees and, thanks to the
   * reset after every trial, is measured from a heading of 0.
   */
  method RunSweep(turned: seq<seq<real>>) returns (allResults: seq<CellSummary>, turnRates: seq<real>)
    requires SweepShaped(turned)
    ensures |allResults| == |turnRates| == |PowerList| == 10
    ensures allResults == AllResults(turned)
    ensures forall p :: 0 <= p < |PowerList| ==> turnRates[p] == Drive.ScaledSpeed(PowerList[p])
  {
    var heading: real := 0.0;  // hub.imu.reset_heading(0) in initialize_robot
    allResults, turnRates := [], [];
    for p := 0 to |PowerList|
      invariant heading == 0.0
      invariant allResults == AllResults(turned)[..p]
      invariant |turnRates| == p
      invariant forall q :: 0 <= q < p ==> turnRates[q] == Drive.ScaledSpeed(PowerList[q])
    {
      var turnRate := Drive.ScaledSpeed(PowerList[p]);
      turnRates := turnRates + [turnRate];  // robot.settings(turn_rate=turn_rate)
      var errors, absErrors, cell;
      errors, absErrors, cell, heading := TurnTrials(Angle, RepeatNum, heading, turned[p]);
      // the tuple holds the power, not the angle
      allResults := allResults + [CellSummary(PowerList[p], cell.meanError, cell.meanAbsError, cell.trials)];
    }
  }
}
