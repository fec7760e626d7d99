/**
 * bend.py: for every motor power, turn every angle `repeat_num` times, and
 * record per (power, angle) the mean error and mean absolute error of
 * `hub.imu.heading() - angle`, resetting the heading to 0 after each turn.
 */
module Bend {
  import opened Stats
  import opened Trials
  import Drive

  const PowerList: seq<int> := [40, 55, 70, 85, 100]
  const Angles: seq<int> := [30, 60, 90, 120, 180]
  const RepeatNum: nat := 3

  /** `left.dc(power / 100)` is a valid duty cycle, in (0, 1], for every power tried. */
  lemma DutiesInRange()
    ensures forall p :: 0 <= p < |PowerList| ==> 0.0 < Drive.Duty(PowerList[p]) <= 1.0
  {
  }

  /** One entry of `all_results`: `(power, angle_results)`. */
  datatype PowerBlock = PowerBlock(power: int, cells: seq<CellSummary>)

  /** How far the robot actually turned: one amount per power, angle and trial. */
  predicate CellShaped(turned: seq<seq<real>>)
  {
    |turned| == |Angles| &&
    forall a :: 0 <= a < |turned| ==> |turned[a]| == RepeatNum
  }

  predicate SweepShaped(turned: seq<seq<seq<real>>>)
  {
    |turned| == |PowerList| &&
    forall p :: 0 <= p < |turned| ==> CellShaped(turned[p])
  }

  /** `angle_results` for one power: one summary per angle, in `angles` order. */
  function AngleResults(turned: seq<seq<real>>): (cells: seq<CellSummary>)
    requires CellShaped(turned)
    ensures |cells| == |Angles|
    ensures forall a :: 0 <= a < |cells| ==>
      cells[a].param == Angles[a] && cells[a].trials == RepeatNum &&
      0.0 <= cells[a].meanAbsError && Abs(cells[a].meanError) <= cells[a].meanAbsError
  {
    seq(|Angles|, a requires 0 <= a < |Angles| =>
      Summarize(Angles[a], Errors(turned[a], Angles[a]), RepeatNum))
  }

  /**
   * The loop over `angles` for one power.  Every trial ends with
   * `hub.imu.reset_heading(0)`, so if the heading starts at 0 every error is
   * measured from 0, and it is 0 again when the loop ends.
   */
  method AngleLoop(heading0: real, turned: seq<seq<real>>)
    returns (angleResults: seq<CellSummary>, heading: real)
    requires CellShaped(turned)
    ensures heading == 0.0
    ensures heading0 == 0.0 ==> angleResults == AngleResults(turned)
  {
    angleResults := [];
    heading := heading0;
    for a := 0 to |Angles|
      invariant a > 0 ==> heading == 0.0
      invariant a == 0 ==> heading == heading0
      invariant heading0 == 0.0 ==> angleResults == AngleResults(turned)[..a]
    {
      var errors, absErrors, cell;
      errors, absErrors, cell, heading := TurnTrials(Angles[a], RepeatNum, heading, turned[a]);
      angleResults := angleResults + [cell];
    }
  }

  /**
   * The whole script, from `initialize_robot`, which resets the heading to 0:
   * `all_results` holds one block per power in `power_list` order, each with
   * one cell per angle in `angles` order, 5 x 5 cells in all.
   */
  method RunSweep(turned: seq<seq<seq<real>>>) returns (allResults: seq<PowerBlock>)
    requires SweepShaped(turned)
    ensures |allResults| == |PowerList| == 5
    ensures forall p :: 0 <= p < |PowerList| ==>
      allResults[p] == PowerBlock(PowerList[p], AngleResults(turned[p])) &&
      |allResults[p].cells| == |Angles| == 5
  {
    var heading: real := 0.0;  // hub.imu.reset_heading(0) in initialize_robot
    allResults := [];
    for p := 0 to |PowerList|
      invariant heading == 0.0
      invariant |allResults| == p
      invariant forall q :: 0 <= q < p ==>
        allResults[q] == PowerBlock(PowerList[q], AngleResults(turned[q]))
    {
      // left.dc(power / 100); right.dc(power / 100)
      var angleResults;
      angleResults, heading := AngleLoop(heading, turned[p]);
      allResults := allResults + [PowerBlock(PowerList[p], angleResults)];
    }
  }
}
