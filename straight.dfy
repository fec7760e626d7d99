/**
 * straight.py: for every motor power, drive every distance `repeat_num`
 * times, and record per (power, distance) the mean error and mean absolute
 * error of `robot.distance() - distance`.
 */
module Straight {
  import opened Stats
  import opened Trials

  const PowerList: seq<int> := [40, 50, 60, 70, 80, 90, 100]
  const DistanceList: seq<int> := [20, 40, 60, 80, 100, 120, 140, 160, 180, 200]
  const RepeatNum: nat := 3

  /** Python's `range(start, stop, step)` for a positive step. */
  function Range(start: int, stop: int, step: nat): (r: seq<int>)
    requires step > 0
    ensures |r| == 0 <==> start >= stop
    ensures |r| > 0 ==> (|r| - 1) * step < stop - start <= |r| * step
    ensures forall i :: 0 <= i < |r| ==> r[i] == start + i * step
    ensures forall i :: 0 <= i < |r| ==> start <= r[i] < stop
    decreases stop - start
  {
    if start >= stop then []
    else
      var rest := Range(start + step, stop, step);
      RangeCons(start, stop, step, rest);
      [start] + rest
  }

  /** Putting `start` in front of the range that begins one step later. */
  lemma RangeCons(start: int, stop: int, step: nat, rest: seq<int>)
    requires step > 0 && start < stop
    requires |rest| == 0 <==> start + step >= stop
    requires |rest| > 0 ==> (|rest| - 1) * step < stop - (start + step) <= |rest| * step
    requires forall i :: 0 <= i < |rest| ==> rest[i] == start + step + i * step
    ensures |[start] + rest| * step >= stop - start
    ensures |rest| * step < stop - start
    ensures forall i :: 0 <= i < |[start] + rest| ==> ([start] + rest)[i] == start + i * step
  {
    assert (|rest| + 1) * step == |rest| * step + step;
    forall i | 0 < i <= |rest|
      ensures ([start] + rest)[i] == start + i * step
    {
      assert ([start] + rest)[i] == rest[i - 1];
      assert (i - 1) * step + step == i * step;
    }
  }

  /** `distance_list` is `[d for d in range(20, 201, 20)]`: ten distances, 20 mm apart. */
  lemma DistanceListIsRange()
    ensures DistanceList == Range(20, 201, 20)
    ensures |DistanceList| == 10
    ensures forall i :: 0 <= i < |DistanceList| ==> DistanceList[i] == 20 * (i + 1)
  {
  }

  /** One entry of `all_results`: `(power, distance_results)`. */
  datatype PowerBlock = PowerBlock(power: int, cells: seq<CellSummary>)

  /** What the odometer saw: one reading per power, distance and trial. */
  predicate CellShaped(travelled: seq<seq<real>>)
  {
    |travelled| == |DistanceList| &&
    forall d :: 0 <= d < |travelled| ==> |travelled[d]| == RepeatNum
  }

  predicate SweepShaped(travelled: seq<seq<seq<real>>>)
  {
    |travelled| == |PowerList| &&
    forall p :: 0 <= p < |travelled| ==> CellShaped(travelled[p])
  }

  /** `distance_results` for one power: one summary per distance, in `distance_list` order. */
  function DistanceResults(travelled: seq<seq<real>>): (cells: seq<CellSummary>)
    requires CellShaped(travelled)
    ensures |cells| == |DistanceList|
    ensures forall d :: 0 <= d < |cells| ==>
      cells[d].param == DistanceList[d] && cells[d].trials == RepeatNum &&
      0.0 <= cells[d].meanAbsError && Abs(cells[d].meanError) <= cells[d].meanAbsError
  {
    seq(|DistanceList|, d requires 0 <= d < |DistanceList| =>
      Summarize(DistanceList[d], Errors(travelled[d], DistanceList[d]), RepeatNum))
  }

  /** The loop over `distance_list` for one power. */
  method DistanceLoop(travelled: seq<seq<real>>) returns (distanceResults: seq<CellSummary>)
    requires CellShaped(travelled)
    ensures distanceResults == DistanceResults(travelled)
  {
    distanceResults := [];
    for d := 0 to |DistanceList|
      invariant distanceResults == DistanceResults(travelled)[..d]
    {
      var errors, absErrors, cell := StraightTrials(DistanceList[d], RepeatNum, travelled[d]);
      distanceResults := distanceResults + [cell];
    }
  }

  /**
   * The whole script: `all_results` holds one block per power in
   * `power_list` order, each with one cell per distance in `distance_list`
   * order, computed from that cell's own `repeat_num` trials.
   */
  method RunSweep(travelled: seq<seq<seq<real>>>) returns (allResults: seq<PowerBlock>)
    requires SweepShaped(travelled)
    ensures |allResults| == |PowerList|
    ensures forall p :: 0 <= p < |PowerList| ==>
      allResults[p] == PowerBlock(PowerList[p], DistanceResults(travelled[p]))
  {
    allResults := [];
    for p := 0 to |PowerList|
      invariant |allResults| == p
      invariant forall q :: 0 <= q < p ==>
        allResults[q] == PowerBlock(PowerList[q], DistanceResults(travelled[q]))
    {
      // left.dc(power / 100); right.dc(power / 100)
      var distanceResults := DistanceLoop(travelled[p]);
      allResults := allResults + [PowerBlock(PowerList[p], distanceResults)];
    }
  }
}
