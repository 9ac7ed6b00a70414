/** The Go standard-library facilities the tracker relies on, reduced to what
    the model needs: the two text parsers as oracles, and the unit views of a
    `time.Duration`. */
module Library {
  import opened Wrappers

  /** `strconv.Atoi` and `time.ParseDuration`, taken as given partial
      functions: `None` is the library's error, `Some(n)` its value (for
      durations, a count of nanoseconds). Their grammars are not modelled. */
  datatype Oracles = Oracles(atoi: string -> Option<int>, parseDuration: string -> Option<int>)

  /** Nanoseconds in one minute and in one hour. */
  const NanosPerMinute: int := 60_000_000_000
  const NanosPerHour: int := 3_600_000_000_000

  /** `Duration.Hours()`: the duration `ns` as a real number of hours. */
  function Hours(ns: int): (h: real)
    ensures h > 0.0 <==> ns > 0
    ensures h * (NanosPerHour as real) == ns as real
  {
    ns as real / NanosPerHour as real
  }

  /** `Duration.Minutes()`: the duration `ns` as a real number of minutes. */
  function Minutes(ns: int): (m: real)
    ensures m > 0.0 <==> ns > 0
    ensures m * (NanosPerMinute as real) == ns as real
  {
    ns as real / NanosPerMinute as real
  }

  /** Sixty minutes make an hour, for every duration. */
  lemma MinutesPerHour(ns: int)
    ensures Minutes(ns) / 60.0 == Hours(ns)
  {}
}
