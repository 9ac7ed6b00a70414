/** Worked records from the tracker's documentation, stated for any parser
    oracles that read the given fields the way Go's library does. */
module Scenarios {
  import opened Wrappers
  import opened Errors
  import opened Library
  import Strings
  import SC = SpentCalories
  import DS = DaySteps

  /** The comma split of a line whose fields are known and comma-free. */
  lemma SplitFields(data: string, fields: seq<string>)
    requires |fields| >= 1
    requires forall i :: 0 <= i < |fields| ==> ',' !in fields[i]
    requires Strings.Join(fields, ',') == data
    ensures Strings.Split(data, ',') == fields
  {
    Strings.SplitJoin(fields, ',');
  }

  /** 6000 steps in one hour at 70 kg and 1.75 m: 3.9 km by the fixed step
      length, but 165.375 kcal, because the calories follow the height-derived
      step length (4.725 km), not the fixed one (which would give 136.5). */
  lemma DayReportExample(lib: Oracles)
    requires lib.atoi("6000") == Some(6000)
    requires lib.parseDuration("1h0m0s") == Some(NanosPerHour)
    ensures DS.DayActionInfo("6000,1h0m0s", 70.0, 1.75, lib).Some?
    ensures DS.DayActionInfo("6000,1h0m0s", 70.0, 1.75, lib).value.distance == 3.9
    ensures DS.DayActionInfo("6000,1h0m0s", 70.0, 1.75, lib).value.calories == 165.375
  {
    SplitFields("6000,1h0m0s", ["6000", "1h0m0s"]);
    assert DS.ParsePackage("6000,1h0m0s", lib) == Success(DS.Package(6000, NanosPerHour));
    var r := DS.DayActionInfo("6000,1h0m0s", 70.0, 1.75, lib);
    assert r.value.distance * DS.MInKm == 6000.0 * DS.StepLength;
    assert SC.Distance(6000, 1.75) * SC.MInKm == 6000.0 * SC.HeightStepLength(1.75);
    assert SC.Distance(6000, 1.75) == 4.725;
  }

  /** 3000 walking steps in one hour at 1.75 m: 2.3625 km by the height-derived
      step length of 0.7875 m. */
  lemma TrainingReportExample(lib: Oracles)
    requires lib.atoi("3000") == Some(3000)
    requires lib.parseDuration("1h0m0s") == Some(NanosPerHour)
    ensures SC.TrainingInfo("3000,Ходьба,1h0m0s", 70.0, 1.75, lib).Success?
    ensures SC.TrainingInfo("3000,Ходьба,1h0m0s", 70.0, 1.75, lib).value.distance == 2.3625
  {
    SplitFields("3000,Ходьба,1h0m0s", ["3000", "Ходьба", "1h0m0s"]);
  }

  /** An activity token the dispatcher does not know fails only at the
      calorie step. */
  lemma UnknownActivityExample(lib: Oracles)
    requires lib.atoi("3000") == Some(3000)
    requires lib.parseDuration("1h0m0s") == Some(NanosPerHour)
    ensures SC.TrainingInfo("3000,Sport,1h0m0s", 70.0, 1.75, lib) == Failure(Calories(UnknownActivity))
  {
    SplitFields("3000,Sport,1h0m0s", ["3000", "Sport", "1h0m0s"]);
  }

  /** A zero step count is rejected by the parser. */
  lemma ZeroStepsExample(lib: Oracles)
    requires lib.atoi("0") == Some(0)
    ensures SC.TrainingInfo("0,Бег,1h0m0s", 70.0, 1.75, lib) == Failure(StepsNotPositive)
  {
    SplitFields("0,Бег,1h0m0s", ["0", "Бег", "1h0m0s"]);
  }

  /** A weight below 2 kg empties the day report, whatever the line. */
  lemma LightWeightExample(data: string, lib: Oracles)
    ensures DS.DayActionInfo(data, 1.5, 1.75, lib) == None
  {}
}
