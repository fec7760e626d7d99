# Pybricks accuracy experiments and project menus, modelled in Dafny

The repository is a set of Pybricks scripts for a two-motor LEGO robot. Most of
each script is a fixed sequence of calls into the vendor motion library. Two
kinds of self-contained logic surround those calls, and this project models them:

- **Trial sweeps** (`straight.py`, `bend.py`, `BEND2.py`, `experiment.py`,
  `ayumu_accuracy_test_20250621.py`). These scripts loop over motor powers,
  target angles or distances, and speed settings. They repeat each motion,
  turn every sensor reading into a signed error (`reading - target`) and an
  absolute error, and reduce each cell to a mean error and a mean absolute
  error. `experiment.py` adds an accuracy percentage, a four-band grade,
  min/avg/max over repeats, and picks the best setting.
  `ayumu_accuracy_test_20250621.py` adds distance, heading, speed and
  wheel-skew metrics and picks the best and worst patterns.
- **Project-selection menus** (`change_projects.py`,
  `selectproject_sample.py`). A cursor wraps around the projects (plus one
  exit slot in `change_projects.py`). A confirm input runs the selected
  project or leaves the loop.

The sensors are not modelled. What the robot actually travelled or turned,
and what the IMU, odometer, wheel encoders and stopwatch reported, are
**inputs** to the model. Measurements are `real`, so IEEE rounding is not
modelled. The loops that poll buttons forever poll a given finite sequence
of readings instead.

Files and modules:

| file | module | models |
|---|---|---|
| `wrappers.dfy` | `Wrappers` | `Option`, `Result` |
| `stats.dfy` | `Stats` | sums, means, Python's `min`/`max` with a key, the sign column of the tables |
| `drive.dfy` | `Drive` | `500 * (pct / 100)` speeds and `power / 100` duty cycles |
| `trials.dfy` | `Trials` | the innermost trial loop of the straight and turn sweeps |
| `straight.dfy` | `Straight` | `straight.py` |
| `bend.dfy` | `Bend` | `bend.py` |
| `bend2.dfy` | `Bend2` | `BEND2.py` |
| `experiment.dfy` | `Experiment` | `experiment.py` |
| `straight_performance.dfy` | `StraightPerformance` | `ayumu_accuracy_test_20250621.py` |
| `menu.dfy` | `Menu` | buttons, projects and the wrap-around cursor shared by both menus |
| `change_projects.dfy` | `ChangeProjects` | `change_projects.py` |
| `select_project.dfy` | `SelectProject` | `selectproject_sample.py` |

Each sweep script becomes a method with nested loops that appends cells in
loop order. Its `ensures` ties the result to a specification function: one
summary per cell, in list order. The properties of a cell are proved once,
about `Stats.Summarize`. Each menu's `while True` loop becomes a method
proved equal to a poll-by-poll specification `Run`. The range, wrap-around
and exit properties are proved about `Step` and `Run`.

## Model

| member | source | states |
|---|---|---|
| `Stats.AbsAll` | straight.py:66 | `abs_errors` holds `abs(e)` of each error, in order, and has the same length |
| `Stats.SumAbsBounds` | straight.py:76-77 | the sum of the absolute errors is non-negative and at least the magnitude of the sum of the errors (triangle inequality, by induction) |
| `Stats.DivideBound` | straight.py:76-77 | dividing both sides by the trial count keeps that bound |
| `Stats.Summarize` | straight.py:76-78 | a cell's tuple holds its parameter and `repeat_num`. Dividing by `repeat_num` equals the mean over the recorded errors. `mean_abs_error >= 0` and `mean_abs_error >= abs(mean_error)` |
| `Stats.SignOf` | straight.py:88 | the sign is `+` exactly when the value is `>= 0`, and `-` otherwise |
| `Stats.ToRow` | straight.py:87-89 | a printed row's sign is `+` iff `mean_error >= 0`. Its magnitude is non-negative. Sign plus `abs(mean_error)` gives back `mean_error` exactly |
| `Stats.TableRows` | bend.py:59-61 | one row per cell, in the order the cells were appended, each the `ToRow` of its cell: the parameter, `+` iff `mean_error >= 0`, `abs(mean_error)`, `mean_abs_error` and the trial count, its sign and magnitude giving back the mean error |
| `Stats.ArgMin` | experiment.py:253 | `min(..., key=...)` returns an index whose key is <= every key and strictly below every earlier key (`IsFirstMin`: the first minimum) |
| `Stats.ArgMax` | ayumu_accuracy_test_20250621.py:244-245 | `max(..., key=...)` returns an index whose key is >= every key and strictly above every earlier key (`IsFirstMax`: the first maximum) |
| `Stats.SumBetween` | experiment.py:177 | if every element lies in [lo, hi], the sum lies in [n*lo, n*hi] (by induction) |
| `Stats.MeanWithin` | experiment.py:85-86 | a mean lies between any common lower and upper bound of its elements |
| `Stats.DivideBetween` | experiment.py:177 | dividing by a positive count keeps a value inside the scaled bounds |
| `Stats.SumConcat` | straight.py:76 | the sum of a concatenation is the sum of the sums (by induction) |
| `Stats.SumPermutation` | straight.py:76-77 | two error lists holding the same values in any order have the same `sum(errors)` and the same `sum(abs_errors)` (by induction, removing one matching element at a time) |
| `Stats.SummarizeOrderIndependent` | straight.py:76-78 | a cell's summary does not depend on the order in which its trials ran |
| `Stats.MeanBetweenMinMax` | experiment.py:177-180 | `min(errors) <= sum(errors)/len(errors) <= max(errors)` for a non-empty list |
| `Drive.ScaledSpeed` | experiment.py:208-209 | `500 * (pct / 100)` is non-negative for a non-negative percentage, at most 500 up to 100 %, and exactly 500 at 100 % |
| `Drive.ScaledSpeedLinear` | experiment.py:283-284 | the speed conversion is additive and homogeneous in the percentage |
| `Drive.ScaledSpeedMonotone` | BEND2.py:43 | a larger percentage gives a strictly faster setting, and equal percentages give equal settings |
| `Drive.Duty` | bend.py:25-26 | `power / 100` lies in (0, 1] for a power in (0, 100], and times 100 gives the power back |
| `Trials.Errors` | bend.py:36-37 | one signed error `reading - target` per trial, in trial order |
| `Trials.StraightTrials` | straight.py:58-77 | exactly `repeat_num` trials. The odometer is reset before each trial, so each error is `travelled - distance`. The absolute errors match the errors. The cell is `Summarize` of these errors |
| `Trials.HeadingReadings` | bend.py:45 | the first reading is the starting heading plus the first turn. Because the heading is reset after every turn, every later reading is exactly the amount turned. From a starting heading of 0 the readings are the amounts turned |
| `Trials.TurnTrials` | bend.py:31-49 | exactly `repeat_num` trials. Each error is `heading - angle`, measured from 0 after the reset. The cell ends with the heading at 0 and its summary is `Summarize` of the errors |
| `Straight.Range` | straight.py:44 | Python's `range(start, stop, step)`: the i-th value is `start + i * step`. All values lie in `[start, stop)`. It is empty iff `start >= stop`, and otherwise its length `n` satisfies `(n - 1) * step < stop - start <= n * step`, which makes `n = ceil((stop - start) / step)` |
| `Straight.DistanceListIsRange` | straight.py:44 | `distance_list` is `range(20, 201, 20)`: ten values 20, 40, ..., 200 |
| `Straight.DistanceResults` | straight.py:55-78 | `distance_results` has one cell per distance, in `distance_list` order. Each cell has `repeat_num` trials and `mean_abs_error >= abs(mean_error)` |
| `Straight.DistanceLoop` | straight.py:55-78 | the distance loop builds exactly `DistanceResults` |
| `Straight.RunSweep` | straight.py:51-79 | `all_results` has one block per power, in `power_list` order, each holding the cells of that power |
| `Bend.DutiesInRange` | bend.py:25-26 | every duty `power / 100` of `power_list` lies in (0, 1] |
| `Bend.AngleResults` | bend.py:28-50 | `angle_results` has one cell per angle, in `angles` order. Each cell has `repeat_num` trials and `mean_abs_error >= abs(mean_error)` |
| `Bend.AngleLoop` | bend.py:28-50 | from heading 0 the loop builds exactly `AngleResults` and leaves the heading at 0 |
| `Bend.RunSweep` | bend.py:20-51 | `all_results` is 5 powers x 5 angles, in `power_list` then `angles` order. The heading is 0 from initialisation on |
| `Bend2.TurnRatesIncreasing` | BEND2.py:43 | `turn_rate` maps powers 10..100 onto 50..500 deg/s, strictly increasing |
| `Bend2.AllResults` | BEND2.py:85-90 | one tuple per power, in `power_list` order, with `repeat_num` trials and `mean_abs_error >= abs(mean_error)`. Every error is taken against the fixed angle 60 |
| `Bend2.RunSweep` | BEND2.py:34-90 | ten tuples equal to `AllResults`, and one `turn_rate = 500 * power / 100` setting per power, in order |
| `Experiment.AccuracyPercent` | experiment.py:50 | `max(0, 100 - error / target * 100)`: it is >= 0 and >= the raw score, and equals one of the two. For a positive target and non-negative error it is <= 100, and 100 exactly when the error is 0. It is 0 exactly when the error reaches the target |
| `Experiment.AccuracyAboveHundredForNegativeTarget` | experiment.py:50 | with target -30 and error 10 the formula as written gives more than 100 % |
| `Experiment.AccuracyPercentCorrected` | experiment.py:50 | measured against `abs(target)`, the accuracy lies in [0, 100] for every non-zero target. It is 100 exactly when the error is 0, and 0 exactly when the error reaches the size of the target |
| `Experiment.AccuracyCorrectedAgrees` | experiment.py:24 | for every positive target the corrected and the as-written formulas agree |
| `Experiment.SingleAngleTest` | experiment.py:104-147 | `actual = end - start` and `error = abs(target - actual) >= 0`. The accuracy is `AccuracyPercent(error, target)`, so it lies in [0, 100] for a positive target. A zero target is a `ZeroDivisionError` |
| `Experiment.GradeOf` | experiment.py:132-140 | the grade bands are >= 95, [90, 95), [80, 90) and < 80, and exactly one applies |
| `Experiment.ErrorsOf` | experiment.py:174 | `[r['error'] for r in results]`, in order |
| `Experiment.AccuraciesOf` | experiment.py:175 | `[r['accuracy'] for r in results]`, in order |
| `Experiment.TestAnglesPositive` | experiment.py:24 | every test angle is positive, so the per-angle loop never divides by zero |
| `Experiment.Totals` | experiment.py:77-83 | the accumulation loop yields the sums of the errors and of the accuracies |
| `Experiment.TurnAccuracyTest` | experiment.py:19-100 | one record per test angle, in list order. The average error is >= 0 and the average accuracy is in [0, 100]. The grade is the band of the average accuracy |
| `Experiment.RepeatAccuracyTest` | experiment.py:149-186 | fails exactly when the target is 0 or `repeat_count <= 0`. Otherwise it keeps one record per run and `min <= avg <= max`. The spread `max - min` is >= 0, and both extremes are observed errors |
| `Experiment.WithSetting` | experiment.py:226-229 | a record extended with its speed percentages, their converted speeds and the motor power |
| `Experiment.ErrorKeys` | experiment.py:253 | the `error` key of each record, in order |
| `Experiment.SpeedComparisonTest` | experiment.py:188-257 | one record per speed pair, in order, with speeds converted by `500 * pct / 100`. The best record has the least error and is the first such. It fails exactly when the target is 0 |
| `Experiment.ComprehensiveTest` | experiment.py:259-342 | 6 x 5 = 30 records. Record `k` used speed pair `k / 5` and motor power `k % 5`, so the speed pair varies slowest. The best record is chosen as above. It fails exactly when the target is 0 |
| `StraightPerformance.AverageSpeed` | ayumu_accuracy_test_20250621.py:155 | when the elapsed time is positive, speed times time gives the distance back. Otherwise the speed is exactly 0, so there is no division by zero |
| `StraightPerformance.MotorAngleDiff` | ayumu_accuracy_test_20250621.py:160 | the wheel skew is >= 0, and 0 exactly when both wheels turned alike |
| `StraightPerformance.MotorAngleDiffSymmetric` | ayumu_accuracy_test_20250621.py:158-160 | the skew is symmetric in the left and right rotations |
| `StraightPerformance.MeasureStraightPerformance` | ayumu_accuracy_test_20250621.py:111-187 | `distance_error = actual - target` and `heading_error = end - start`. The elapsed time is ms / 1000. The average speed is guarded against zero time. The rotations are end minus start, and the skew is their non-negative difference |
| `StraightPerformance.PatternResults` | ayumu_accuracy_test_20250621.py:196-218 | one result per `TEST_PATTERNS` entry, in order, with name, target speed and target distance copied from the pattern |
| `StraightPerformance.DistanceKeys` | ayumu_accuracy_test_20250621.py:242 | `abs(distance_error)` of each result, in order |
| `StraightPerformance.HeadingKeys` | ayumu_accuracy_test_20250621.py:243 | `abs(heading_error)` of each result, in order |
| `StraightPerformance.SelectExtremes` | ayumu_accuracy_test_20250621.py:241-245 | nothing is selected from empty data. Otherwise best/worst minimise/maximise the absolute distance and heading errors, the earliest entry winning a tie |
| `StraightPerformance.Session.constructor` | ayumu_accuracy_test_20250621.py:77-80 | `experiment_data` starts empty and `logging_active` starts true |
| `StraightPerformance.Session.MainRobotSequenceTask` | ayumu_accuracy_test_20250621.py:189-245 | appends exactly the pattern results, in order. Afterwards `logging_active` is false, which ends the logger loop, and the extremes are selected from the non-empty data |
| `Menu.Next` | change_projects.py:98 | RIGHT lands inside the slot range |
| `Menu.Prev` | change_projects.py:91 | LEFT lands inside the slot range |
| `Menu.PrevNextInverse` | selectproject_sample.py:60-65 | LEFT undoes RIGHT and RIGHT undoes LEFT. RIGHT from the last slot wraps to 0 and LEFT from 0 wraps to the last slot |
| `ChangeProjects.Decode` | change_projects.py:89-128 | inputs are tried in the order LEFT, RIGHT, touch, BLUETOOTH, and exactly one branch is taken |
| `ChangeProjects.ShowCurrentSelection` | change_projects.py:42-50 | the project icon is shown iff `index < len(projects)`, and otherwise the exit icon |
| `ChangeProjects.ProjectExecute` | change_projects.py:52-58 | 0 runs A, 1 runs B, 2 runs C, and any other index runs nothing |
| `ChangeProjects.Step` | change_projects.py:89-132 | the loop breaks exactly on a touch at `max_index` or on BLUETOOTH. Any other touch runs `projects[index]` and keeps the index. The index stays in `[0, len(projects)]` |
| `ChangeProjects.Run` | change_projects.py:85-134 | after any polls the cursor is still in `[0, len(projects)]` |
| `ChangeProjects.LeftRightCancel` | change_projects.py:91-98 | LEFT then RIGHT, or RIGHT then LEFT, returns the cursor to where it started |
| `ChangeProjects.BreakIsFinal` | change_projects.py:110 | after the loop has broken out, later polls change nothing |
| `ChangeProjects.MainLoop` | change_projects.py:77-134 | the `while True` loop, from index 0, computes exactly `Run` and keeps the index in `[0, 3]` |
| `SelectProject.Decode` | selectproject_sample.py:59-72 | LEFT is checked before RIGHT and RIGHT before CENTER, and at most one acts |
| `SelectProject.Dispatch` | selectproject_sample.py:39-45 | the names "A", "B" and "C" run their project, and any other name runs nothing |
| `SelectProject.ProjectExecute` | selectproject_sample.py:39-45 | with the list `["A", "B", "C"]`, index i runs the i-th project |
| `SelectProject.Step` | selectproject_sample.py:59-72 | after LEFT or RIGHT the index stays in `[0, len(projects))`. CENTER runs `projects[index]` and leaves the index unchanged. No press changes nothing |
| `SelectProject.Run` | selectproject_sample.py:55-74 | after any polls the index is still in `[0, len(projects))` |
| `SelectProject.LeftRightCancel` | selectproject_sample.py:60-65 | LEFT and RIGHT are inverse moves, wrap-around included |
| `SelectProject.IdlePollsChangeNothing` | selectproject_sample.py:55-74 | polls with no button pressed leave the index and the run list unchanged |
| `SelectProject.MainLoop` | selectproject_sample.py:55-74 | the top-level loop, from `index = 0`, computes exactly `Run` and keeps the index in range |

## Left out

- Every Pybricks call: `robot.turn`, `straight`, `settings`, `stop`, `reset`, `use_gyro`, `hub.imu.*`, `Motor.dc`, `angle`, `control.limits`, the PID gains, display icons and text, and `wait`. These are calls into the vendor library. Their effect appears only as the input readings; `Bend2.RunSweep` alone records the `turn_rate` settings it issues.
- The return drive `robot.straight(-distance)` in `straight.py`. The next `robot.reset()` discards its odometer reading, so it affects no recorded value.
- The `sensor_logger_task` coroutines and the `multitask`/`run_task` pairing. This is cooperative concurrency that only prints. The model keeps only the `logging_active` flag that ends the logger's loop.
- The `try/except` around `run_task` in `ayumu_accuracy_test_20250621.py`. Hardware faults are not modelled, so its fail-safe branch is not either.
- The `input()`-driven console menu of `experiment.py` and the `run_*` wrappers around each test. They only read keyboard input and call the modelled tests.
- All printing: field widths, padding, headers, progress lines, and the distance percentage printed in the `ayumu_accuracy_test_20250621.py` summary. Only the sign choice, the printed values and the row order are modelled.
- `wait_for_button_release` / `wait_for_touch_release` and the debounce waits in the menus. A poll in the model is one completed press.
- `screenUpdate` in `selectproject_sample.py`. It only displays `projects[index]`.
- IEEE floating point: measurements are Dafny `real`, so rounding is not modelled.
- The `while True` menu loops poll a finite sequence of readings and stop when it runs out. That sequence is also how a `change_projects.py` run that never breaks is represented.

## Findings

| source | as written | input that shows it | evidently intended | confidence | as-written member | corrected member |
|---|---|---|---|---|---|---|
| experiment.py:50 (also 126) | `max(0, 100 - (error / target_angle * 100))` divides by the signed target | target -30 (the console menu reads any integer target, experiment.py:425-430), turned -20: error 10, accuracy 133.3 % | an accuracy in [0, 100] whichever way the robot turns, i.e. dividing by `abs(target_angle)` | medium, not executed | `Experiment.AccuracyAboveHundredForNegativeTarget` | `Experiment.AccuracyPercentCorrected` |

The test operations keep the formula as written, because it is what the
scripts compute. `Experiment.AccuracyCorrectedAgrees` shows that for every
positive target the two formulas give the same value, and every target the
scripts fix (`test_angles`, the default arguments) is positive.

