# Fitness tracker calculation core, modelled in Dafny

A model of the single-record pipeline of a small Go fitness tracker. The
pipeline reads one activity-log line and the user's weight (kg) and height
(m). It then computes distance, mean speed and calories.

- `SpentCalories` (`internal/spentcalories`) handles the training log
  `"steps,activity,duration"`. It holds the inclusive weight and height
  checks (`CheckWeight`, `CheckHeight`) and the parser `ParseTraining`. It
  computes distance from a height-derived step length (`height * 0.45` m)
  and the mean speed. It has the running formula and the walking formula,
  which gives half the running figure. `CalculateCalories` picks one of them
  by the activity token: `"Бег"` (running) or `"Ходьба"` (walking). Any
  other token is an error. `TrainingInfo` checks weight, then height, then
  parses the line, then computes the calories.
- `DaySteps` (`internal/daysteps`) handles the step-only log
  `"steps,duration"`. Its distance uses a fixed step length of 0.65 m. Its
  calories always come from the walking formula, without going through the
  dispatcher. `DayActionInfo` returns `None` wherever the Go code returns
  the empty string.
- `Strings` models `strings.Split` with a one-character separator. Its
  partners are `Join` and `Count`.
- `Library` covers `strconv.Atoi` and `time.ParseDuration` as oracle
  functions (`string -> Option<int>`), passed in as an `Oracles` value. It
  also has the `Hours()`/`Minutes()` views of a duration, which is an `int`
  count of nanoseconds.
- `Errors` has one constructor per distinct failing check.
  `Calories(cause)` is the `fmt.Errorf("%w")` wrapping that `TrainingInfo`
  applies to calorie failures.
- `Scenarios` holds worked example records.

All arithmetic is exact `real` arithmetic. The two report formatters
become datatypes of the computed values (`TrainingReport`, `DaySummary`).

Where the documentation and the code disagree, the model follows the code:
- The activity tokens are the Russian literals, not English words.
- An unknown activity reaches the caller of `TrainingInfo` wrapped as
  `Calories(UnknownActivity)`, not as a bare unknown-activity error.
- The steps field goes through `strconv.Atoi`, which also accepts signed
  numbers. The sign check is the separate `steps <= 0` test.
- The numeric constants are fixed constants, not a configuration value
  passed in.
- On the step-only path, the reported distance uses the fixed 0.65 m step
  length. The calories do not: `WalkingSpentCalories` goes through
  `meanSpeed` and `distance`, which use the height-derived step length
  `height * 0.45`. For "6000,1h0m0s" at 70 kg and 1.75 m, the model gives
  3.9 km but 165.375 kcal, because the calories follow 4.725 km. The fixed
  step length would give 136.5 kcal. The documentation says the calories use
  the fixed step length.

## Model

| member | source | states |
|---|---|---|
| Strings.Split | internal/spentcalories/spentcalories.go:29 | the number of fields is one more than the number of commas; no field contains a comma; joining the fields with commas gives back the line |
| Strings.SplitJoin | internal/daysteps/daysteps.go:23-26 | splitting a comma-joined, non-empty list of comma-free fields gives back exactly those fields |
| Library.Hours | internal/spentcalories/spentcalories.go:81 | the hours are positive iff the duration is, and hours times nanoseconds-per-hour is the duration |
| Library.Minutes | internal/spentcalories/spentcalories.go:133 | the minutes are positive iff the duration is, and minutes times nanoseconds-per-minute is the duration |
| Library.MinutesPerHour | internal/spentcalories/spentcalories.go:133 | the minutes divided by 60 equal the hours, for every duration |
| SpentCalories.CheckWeight | internal/spentcalories/spentcalories.go:153-161 | a weight passes iff 2.0 <= weight <= 635.0, both bounds included |
| SpentCalories.CheckHeight | internal/spentcalories/spentcalories.go:164-172 | a height passes iff 0.50 <= height <= 2.75, both bounds included |
| SpentCalories.CheckBoundaries | internal/spentcalories/spentcalories.go:20-23 | the limits 2.0, 635.0, 0.50 and 2.75 pass; 1.999, 635.001, 0.49 and 2.751 fail |
| SpentCalories.ParseTraining | internal/spentcalories/spentcalories.go:28-54 | each error holds exactly when the earlier checks passed and its own check failed, in the order field count (not exactly two commas), steps syntax, steps <= 0, duration syntax, duration <= 0; success gives positive steps and duration read from fields 0 and 2, and field 1 unchecked and verbatim as the activity |
| SpentCalories.Distance | internal/spentcalories/spentcalories.go:57-71 | the distance is never negative; it is positive iff the height is valid and steps > 0; then distance times 1000 equals steps times height times 0.45 |
| SpentCalories.DistanceAdditive | internal/spentcalories/spentcalories.go:68-69 | the distance of a + b steps is the sum of the distances of a and of b steps |
| SpentCalories.DistanceGrowsWithHeight | internal/spentcalories/spentcalories.go:68-69 | for the same positive step count, a taller valid height gives a strictly longer distance |
| SpentCalories.MeanSpeed | internal/spentcalories/spentcalories.go:74-84 | the speed is never negative; it is 0 for a non-positive duration; otherwise speed times hours equals the distance |
| SpentCalories.CaloriesFormula | internal/spentcalories/spentcalories.go:132-133 | weight times speed times minutes over 60 equals weight times distance, whenever speed times hours is the distance |
| SpentCalories.RunningSpentCalories | internal/spentcalories/spentcalories.go:115-136 | fails iff steps > 0, weight, height or duration > 0 fails, with the first failing check's error in that order; on success the calories are weight times distance, and positive |
| SpentCalories.WalkingSpentCalories | internal/spentcalories/spentcalories.go:140-150 | fails exactly when running does, with the same error; otherwise gives half the running calories, i.e. 0.5 times weight times distance |
| SpentCalories.CalculateCalories | internal/spentcalories/spentcalories.go:175-184 | "Бег" gives the running result, "Ходьба" the walking result, any other token an unknown-activity error |
| SpentCalories.CalculateCaloriesOnValidInputs | internal/spentcalories/spentcalories.go:175-184 | on valid inputs the dispatcher succeeds iff the token is one of the two known ones; its only error is unknown activity; walking gives half of running |
| SpentCalories.TrainingInfo | internal/spentcalories/spentcalories.go:87-112 | weight is checked, then height, then the parse, and each error is passed on unchanged; a parsed record with a token other than "Бег" or "Ходьба" fails with the wrapped unknown-activity error; success reports the parsed activity, hours, the height-based distance, a speed consistent with distance and hours, and calories of 1 (running) or 0.5 (walking) times weight times distance |
| SpentCalories.TrainingInfoOutcome | internal/spentcalories/spentcalories.go:87-112 | the report succeeds iff weight, height and parse pass and the token is known; the only wrapped calorie error it can return is unknown activity |
| DaySteps.ParsePackage | internal/daysteps/daysteps.go:22-47 | each error holds exactly when the earlier checks passed and its own check failed, in the order field count (not exactly one comma), steps syntax, steps <= 0, duration syntax, duration <= 0; success gives positive steps and duration read from fields 0 and 1 |
| DaySteps.DayActionInfo | internal/daysteps/daysteps.go:49-80 | an invalid weight or height gives None whatever the line; a parse failure gives None; the result is present iff both checks and the parse pass; then distance times 1000 is steps times 0.65, and calories are the walking result, 0.5 times weight times the height-based distance |
| DaySteps.WalkingNeverFailsAfterChecks | internal/daysteps/daysteps.go:59-72 | once weight, height and the parse have passed, the walking formula cannot fail, so its error branch is unreachable |
| DaySteps.DayDistanceIgnoresHeight | internal/daysteps/daysteps.go:66 | two successful day reports for the same line and weight report the same distance, whatever the heights |
| DaySteps.DayCaloriesMatchWalkingTraining | internal/daysteps/daysteps.go:67 | the day calories equal what the dispatcher gives for "Ходьба" with the same steps, weight, height and duration |
| Scenarios.DayReportExample | internal/daysteps/daysteps.go:49-80 | "6000,1h0m0s" at 70 kg and 1.75 m gives a day report with distance 3.9 km (fixed step length) and calories 165.375 (height-derived step length) |
| Scenarios.TrainingReportExample | internal/spentcalories/spentcalories.go:87-112 | "3000,Ходьба,1h0m0s" at 70 kg and 1.75 m succeeds with distance 2.3625 km |
| Scenarios.UnknownActivityExample | internal/spentcalories/spentcalories.go:106-109 | "3000,Sport,1h0m0s" fails with the wrapped unknown-activity error |
| Scenarios.ZeroStepsExample | internal/spentcalories/spentcalories.go:40-42 | "0,Бег,1h0m0s" fails with the non-positive-steps error |
| Scenarios.LightWeightExample | internal/daysteps/daysteps.go:50-53 | a weight of 1.5 kg gives None for every line |

## Left out

- The report text (`formatTrainingInfo`, spentcalories.go:187-196, and the `Sprintf` in daysteps.go:74-77). These are `%.2f` renderings of floats. The model returns the rendered values instead.
- `fmt.Println` and `log.Println` diagnostics. They are output side effects and do not change any returned value.
- How `strconv.Atoi` and `time.ParseDuration` read text: signs, overflow, the unit grammar. Both are opaque oracles. Their results are only checked in the order the code checks them.
- IEEE-754 `float64` rounding, including in `float64(steps)`. All arithmetic is exact over `real`, so no claim is bit-exact.
- The 64-bit width of `int` and `time.Duration`. Steps and nanoseconds are unbounded integers. Whatever limits exist come from the parser oracles.
- Error message texts. The running formula's duration message differs from the parser's, but both are modelled as `DurationNotPositive`. Wrapping is kept only as `Calories(cause)`.
- The unused constant `lenStep` in spentcalories.go:14. No code path reads it; in particular, the step-only calories do not use it.
- CheckWeight / CheckHeight: the model's `real` has no NaN. Go's checks accept NaN, because `NaN < min` and `NaN > max` are both false. So the stated "passes iff within the bounds" holds for the Go code only on non-NaN inputs. With a NaN weight or height, the Go reports carry NaN figures instead of failing.
