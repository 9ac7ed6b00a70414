/** Step-only pipeline: parsing of "steps,duration", the fixed-step-length
    distance and the day summary, whose calories always use the walking
    formula. */
module DaySteps {
  import opened Wrappers
  import opened Errors
  import opened Library
  import Strings
  import SC = SpentCalories

  const StepLength: real := 0.65 // metres per step, independent of height
  const MInKm: real := 1000.0    // metres in a kilometre

  /** One parsed step-only line. */
  datatype Package = Package(steps: int, duration: int)

  /** The values the day report renders; `DayActionInfo` gives `None` where
      the code returns the empty string. */
  datatype DaySummary = DaySummary(steps: int, distance: real, calories: real)

  /** `parsePackage`: split the line on commas and read steps and duration,
      stopping at the first failure. */
  function ParsePackage(data: string, lib: Oracles): (r: Result<Package, Error>)
    ensures var f := Strings.Split(data, ',');
      && (r == Failure(FieldCount) <==> Strings.Count(data, ',') != 1)
      && (r == Failure(StepsSyntax) <==> |f| == 2 && lib.atoi(f[0]).None?)
      && (r == Failure(StepsNotPositive) <==>
            |f| == 2 && lib.atoi(f[0]).Some? && lib.atoi(f[0]).value <= 0)
      && (r == Failure(DurationSyntax) <==>
            |f| == 2 && lib.atoi(f[0]).Some? && lib.atoi(f[0]).value > 0
            && lib.parseDuration(f[1]).None?)
      && (r == Failure(DurationNotPositive) <==>
            |f| == 2 && lib.atoi(f[0]).Some? && lib.atoi(f[0]).value > 0
            && lib.parseDuration(f[1]).Some? && lib.parseDuration(f[1]).value <= 0)
    ensures r.Failure? ==> r.error in {FieldCount, StepsSyntax, StepsNotPositive,
                                       DurationSyntax, DurationNotPositive}
    ensures r.Success? ==>
      var f := Strings.Split(data, ',');
      && |f| == 2
      && lib.atoi(f[0]) == Some(r.value.steps) && r.value.steps > 0
      && lib.parseDuration(f[1]) == Some(r.value.duration) && r.value.duration > 0
  {
    var fields := Strings.Split(data, ',');
    if |fields| != 2 then Failure(FieldCount)
    else match lib.atoi(fields[0])
      case None => Failure(StepsSyntax)
      case Some(steps) =>
        if steps <= 0 then Failure(StepsNotPositive)
        else match lib.parseDuration(fields[1])
          case None => Failure(DurationSyntax)
          case Some(duration) =>
            if duration <= 0 then Failure(DurationNotPositive)
            else Success(Package(steps, duration))
  }

  /** `DayActionInfo`: weight and height are checked before the line is
      parsed; every failure yields `None`. */
  function DayActionInfo(data: string, weight: real, height: real, lib: Oracles)
    : (r: Option<DaySummary>)
    ensures !SC.CheckWeight(weight) || !SC.CheckHeight(height) ==> r == None
    ensures ParsePackage(data, lib).Failure? ==> r == None
    ensures r.Some? <==>
      SC.CheckWeight(weight) && SC.CheckHeight(height) && ParsePackage(data, lib).Success?
    ensures r.Some? ==>
      var p := ParsePackage(data, lib).value;
      && r.value.steps == p.steps > 0
      && r.value.distance * MInKm == p.steps as real * StepLength
      && r.value.calories == SC.WalkingSpentCalories(p.steps, weight, height, p.duration).value
      && r.value.calories == 0.5 * weight * SC.Distance(p.steps, height) > 0.0
  {
    if !SC.CheckWeight(weight) then None
    else if !SC.CheckHeight(height) then None
    else match ParsePackage(data, lib)
      case Failure(_) => None
      case Success(p) =>
        var distance := (p.steps as real * StepLength) / MInKm;
        match SC.WalkingSpentCalories(p.steps, weight, height, p.duration)
        case Failure(_) => None
        case Success(calories) => Some(DaySummary(p.steps, distance, calories))
  }

  /** Once the body checks and the parse have passed, the walking formula's
      own checks cannot fail. */
  lemma WalkingNeverFailsAfterChecks(data: string, weight: real, height: real, lib: Oracles)
    requires SC.CheckWeight(weight) && SC.CheckHeight(height)
    requires ParsePackage(data, lib).Success?
    ensures var p := ParsePackage(data, lib).value;
      SC.WalkingSpentCalories(p.steps, weight, height, p.duration).Success?
  {}

  /** The reported day distance depends on the line only, never on height. */
  lemma DayDistanceIgnoresHeight(data: string, weight: real, h1: real, h2: real, lib: Oracles)
    requires DayActionInfo(data, weight, h1, lib).Some?
    requires DayActionInfo(data, weight, h2, lib).Some?
    ensures DayActionInfo(data, weight, h1, lib).value.distance
            == DayActionInfo(data, weight, h2, lib).value.distance
  {}

  /** The day calories are those the training dispatcher would give for a
      walking record with the same steps and duration, although the day path
      never consults the dispatcher. */
  lemma DayCaloriesMatchWalkingTraining(data: string, weight: real, height: real, lib: Oracles)
    requires DayActionInfo(data, weight, height, lib).Some?
    ensures var p := ParsePackage(data, lib).value;
      SC.CalculateCalories(SC.Walking, p.steps, weight, height, p.duration)
        == Success(DayActionInfo(data, weight, height, lib).value.calories)
  {}
}
