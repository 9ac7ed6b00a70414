/** The failures the tracker can report, one constructor per distinct check
    in the code; message texts are not modelled. */
module Errors {

  datatype Error =
    | FieldCount            // the line has the wrong number of comma fields
    | StepsSyntax           // `strconv.Atoi` rejected the steps field
    | StepsNotPositive      // steps <= 0
    | DurationSyntax        // `time.ParseDuration` rejected the duration field
    | DurationNotPositive   // duration <= 0
    | WeightOutOfRange      // weight outside [2.0, 635.0]
    | HeightOutOfRange      // height outside [0.50, 2.75]
    | UnknownActivity       // activity token is neither running nor walking
    | Calories(cause: Error) // a calorie failure wrapped by the training report
}
