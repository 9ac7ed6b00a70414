/** Training-log pipeline: body-measurement checks, parsing of
    "steps,activity,duration", distance, mean speed and the two calorie
    formulas, and the training report. */
module SpentCalories {
  import opened Wrappers
  import opened Errors
  import opened Library
  import Strings

  const MInKm: real := 1000.0                   // metres in a kilometre
  const MinInH: real := 60.0                    // minutes in an hour
  const StepLengthCoefficient: real := 0.45     // step length per metre of height
  const WalkingCaloriesCoefficient: real := 0.5 // walking burns half of running

  const MinWeight: real := 2.0
  const MaxWeight: real := 635.0
  const MinHeight: real := 0.50
  const MaxHeight: real := 2.75

  /** The activity tokens the calorie dispatcher recognises. */
  const Running: string := "Бег"
  const Walking: string := "Ходьба"

  /** One parsed training line. */
  datatype Training = Training(steps: int, activity: string, duration: int)

  /** The values the training report renders. */
  datatype TrainingReport = TrainingReport(
    activity: string, hours: real, distance: real, speed: real, calories: real)

  /** `CheckWeight`: the weight is within the accepted range, both bounds included. */
  function CheckWeight(weight: real): (ok: bool)
    ensures ok <==> 2.0 <= weight <= 635.0
  {
    if weight < MinWeight then false
    else if weight > MaxWeight then false
    else true
  }

  /** `CheckHeight`: the height is within the accepted range, both bounds included. */
  function CheckHeight(height: real): (ok: bool)
    ensures ok <==> 0.5 <= height <= 2.75
  {
    if height < MinHeight then false
    else if height > MaxHeight then false
    else true
  }

  /** The boundary values of both checks: the limits themselves pass, values
      just outside them do not. */
  lemma CheckBoundaries()
    ensures CheckWeight(2.0) && CheckWeight(635.0)
    ensures !CheckWeight(1.999) && !CheckWeight(635.001)
    ensures CheckHeight(0.50) && CheckHeight(2.75)
    ensures !CheckHeight(0.49) && !CheckHeight(2.751)
  {}

  /** `parseTraining`: split the line on commas and read steps, activity and
      duration, stopping at the first failure. */
  function ParseTraining(data: string, lib: Oracles): (r: Result<Training, Error>)
    ensures var f := Strings.Split(data, ',');
      && (r == Failure(FieldCount) <==> Strings.Count(data, ',') != 2)
      && (r == Failure(StepsSyntax) <==> |f| == 3 && lib.atoi(f[0]).None?)
      && (r == Failure(StepsNotPositive) <==>
            |f| == 3 && lib.atoi(f[0]).Some? && lib.atoi(f[0]).value <= 0)
      && (r == Failure(DurationSyntax) <==>
            |f| == 3 && lib.atoi(f[0]).Some? && lib.atoi(f[0]).value > 0
            && lib.parseDuration(f[2]).None?)
      && (r == Failure(DurationNotPositive) <==>
            |f| == 3 && lib.atoi(f[0]).Some? && lib.atoi(f[0]).value > 0
            && lib.parseDuration(f[2]).Some? && lib.parseDuration(f[2]).value <= 0)
    ensures r.Failure? ==> r.error in {FieldCount, StepsSyntax, StepsNotPositive,
                                       DurationSyntax, DurationNotPositive}
    ensures r.Success? ==>
      var f := Strings.Split(data, ',');
      && |f| == 3
      && lib.atoi(f[0]) == Some(r.value.steps) && r.value.steps > 0
      && r.value.activity == f[1]
      && lib.parseDuration(f[2]) == Some(r.value.duration) && r.value.duration > 0
  {
    var fields := Strings.Split(data, ',');
    if |fields| != 3 then Failure(FieldCount)
    else match lib.atoi(fields[0])
      case None => Failure(StepsSyntax)
      case Some(steps) =>
        if steps <= 0 then Failure(StepsNotPositive)
        else match lib.parseDuration(fields[2])
          case None => Failure(DurationSyntax)
          case Some(duration) =>
            if duration <= 0 then Failure(DurationNotPositive)
            else Success(Training(steps, fields[1], duration))
  }

  /** The step length derived from height, in metres. */
  function HeightStepLength(height: real): real
  {
    height * StepLengthCoefficient
  }

  /** `distance`: kilometres covered; zero for an invalid height or a
      non-positive step count. */
  function Distance(steps: int, height: real): (km: real)
    ensures km >= 0.0
    ensures km > 0.0 <==> CheckHeight(height) && steps > 0
    ensures km > 0.0 ==> km * MInKm == steps as real * HeightStepLength(height)
  {
    if !CheckHeight(height) then 0.0
    else if steps <= 0 then 0.0
    else
      var stepLength := HeightStepLength(height);
      (steps as real * stepLength) / MInKm
  }

  /** The distance grows in proportion to the step count. */
  lemma DistanceAdditive(a: int, b: int, height: real)
    requires a > 0 && b > 0
    ensures Distance(a + b, height) == Distance(a, height) + Distance(b, height)
  {}

  /** Unlike the fixed step length of the step-only log, the training
      distance grows with height. */
  lemma DistanceGrowsWithHeight(steps: int, h1: real, h2: real)
    requires steps > 0
    requires CheckHeight(h1) && CheckHeight(h2) && h1 < h2
    ensures Distance(steps, h1) < Distance(steps, h2)
  {}

  /** `meanSpeed`: kilometres per hour; zero for a non-positive duration. */
  function MeanSpeed(steps: int, height: real, duration: int): (kmh: real)
    ensures kmh >= 0.0
    ensures duration <= 0 ==> kmh == 0.0
    ensures duration > 0 ==> kmh * Hours(duration) == Distance(steps, height)
  {
    if duration <= 0 then 0.0
    else
      var distance := Distance(steps, height);
      distance / Hours(duration)
  }

  /** The four preconditions both calorie formulas check. */
  predicate CaloriesInputsValid(steps: int, weight: real, height: real, duration: int)
  {
    steps > 0 && CheckWeight(weight) && CheckHeight(height) && duration > 0
  }

  /** The calorie formula, with time cancelled out: weight times distance. */
  lemma CaloriesFormula(weight: real, speed: real, distance: real, duration: int)
    requires duration > 0
    requires speed * Hours(duration) == distance
    ensures weight * speed * Minutes(duration) / MinInH == weight * distance
  {}

  /** `RunningSpentCalories`: steps, weight, height and duration are checked in
      that order; on success the result is weight times distance. */
  function RunningSpentCalories(steps: int, weight: real, height: real, duration: int)
    : (r: Result<real, Error>)
    ensures r.Success? <==> CaloriesInputsValid(steps, weight, height, duration)
    ensures steps <= 0 ==> r == Failure(StepsNotPositive)
    ensures steps > 0 && !CheckWeight(weight) ==> r == Failure(WeightOutOfRange)
    ensures steps > 0 && CheckWeight(weight) && !CheckHeight(height) ==>
              r == Failure(HeightOutOfRange)
    ensures steps > 0 && CheckWeight(weight) && CheckHeight(height) && duration <= 0 ==>
              r == Failure(DurationNotPositive)
    ensures r.Success? ==> r.value == weight * Distance(steps, height) && r.value > 0.0
  {
    if steps <= 0 then Failure(StepsNotPositive)
    else if !CheckWeight(weight) then Failure(WeightOutOfRange)
    else if !CheckHeight(height) then Failure(HeightOutOfRange)
    else if duration <= 0 then Failure(DurationNotPositive)
    else
      var speed := MeanSpeed(steps, height, duration);
      CaloriesFormula(weight, speed, Distance(steps, height), duration);
      Success((weight * speed * Minutes(duration)) / MinInH)
  }

  /** `WalkingSpentCalories`: fails exactly as running does, otherwise half
      the running figure. */
  function WalkingSpentCalories(steps: int, weight: real, height: real, duration: int)
    : (r: Result<real, Error>)
    ensures var run := RunningSpentCalories(steps, weight, height, duration);
      && (r.Failure? <==> run.Failure?)
      && (r.Failure? ==> r == run)
      && (r.Success? ==> r.value == 0.5 * run.value)
    ensures r.Success? ==> r.value == 0.5 * weight * Distance(steps, height)
  {
    match RunningSpentCalories(steps, weight, height, duration)
    case Failure(e) => Failure(e)
    case Success(caloriesBurned) => Success(caloriesBurned * WalkingCaloriesCoefficient)
  }

  /** `calculateCalories`: dispatch on the activity token. */
  function CalculateCalories(activity: string, steps: int, weight: real, height: real, duration: int)
    : (r: Result<real, Error>)
    ensures activity == Running ==> r == RunningSpentCalories(steps, weight, height, duration)
    ensures activity == Walking ==> r == WalkingSpentCalories(steps, weight, height, duration)
    ensures activity != Running && activity != Walking ==> r == Failure(UnknownActivity)
  {
    if activity == Running then RunningSpentCalories(steps, weight, height, duration)
    else if activity == Walking then WalkingSpentCalories(steps, weight, height, duration)
    else Failure(UnknownActivity)
  }

  /** On valid inputs the dispatcher succeeds exactly for the two known
      tokens, and walking burns half of what running does. */
  lemma CalculateCaloriesOnValidInputs(activity: string, steps: int, weight: real, height: real, duration: int)
    requires CaloriesInputsValid(steps, weight, height, duration)
    ensures var r := CalculateCalories(activity, steps, weight, height, duration);
      && (r.Success? <==> activity == Running || activity == Walking)
      && (r.Failure? ==> r.error == UnknownActivity)
    ensures CalculateCalories(Walking, steps, weight, height, duration).value
            == 0.5 * CalculateCalories(Running, steps, weight, height, duration).value
  {}

  /** `TrainingInfo`: weight and height are checked before the line is parsed;
      a calorie failure is reported wrapped. */
  function TrainingInfo(data: string, weight: real, height: real, lib: Oracles)
    : (r: Result<TrainingReport, Error>)
    ensures !CheckWeight(weight) ==> r == Failure(WeightOutOfRange)
    ensures CheckWeight(weight) && !CheckHeight(height) ==> r == Failure(HeightOutOfRange)
    ensures CheckWeight(weight) && CheckHeight(height) && ParseTraining(data, lib).Failure? ==>
              r == Failure(ParseTraining(data, lib).error)
    ensures CheckWeight(weight) && CheckHeight(height) && ParseTraining(data, lib).Success?
            && ParseTraining(data, lib).value.activity != Running
            && ParseTraining(data, lib).value.activity != Walking ==>
              r == Failure(Calories(UnknownActivity))
    ensures r.Success? ==>
      var t := ParseTraining(data, lib).value;
      && CheckWeight(weight) && CheckHeight(height) && ParseTraining(data, lib).Success?
      && (t.activity == Running || t.activity == Walking)
      && r.value.activity == t.activity
      && r.value.hours == Hours(t.duration)
      && r.value.distance == Distance(t.steps, height) > 0.0
      && r.value.speed * r.value.hours == r.value.distance
      && r.value.calories == (if t.activity == Running then 1.0 else 0.5) * weight * r.value.distance
  {
    if !CheckWeight(weight) then Failure(WeightOutOfRange)
    else if !CheckHeight(height) then Failure(HeightOutOfRange)
    else match ParseTraining(data, lib)
      case Failure(e) => Failure(e)
      case Success(t) =>
        var distance := Distance(t.steps, height);
        var speed := MeanSpeed(t.steps, height, t.duration);
        match CalculateCalories(t.activity, t.steps, weight, height, t.duration)
        case Failure(e) => Failure(Calories(e))
        case Success(calories) =>
          Success(TrainingReport(t.activity, Hours(t.duration), distance, speed, calories))
  }

  /** The training report succeeds exactly when the measurements are valid,
      the line parses and the activity token is known; the only calorie
      failure it can report is an unknown activity. */
  lemma TrainingInfoOutcome(data: string, weight: real, height: real, lib: Oracles)
    ensures var p := ParseTraining(data, lib);
      TrainingInfo(data, weight, height, lib).Success? <==>
        CheckWeight(weight) && CheckHeight(height) && p.Success?
        && (p.value.activity == Running || p.value.activity == Walking)
    ensures forall e :: TrainingInfo(data, weight, height, lib) == Failure(Calories(e))
              ==> e == UnknownActivity
  {}
}
