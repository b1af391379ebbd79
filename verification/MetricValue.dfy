/** The value of one benchmark metric: a ratio with its pooled counts, or no ratio at all. */
module MetricValue {

  datatype MetricValue =
    | Scored(value: real, numerator: nat, denominator: nat)
    | NotApplicable

  /** A ratio whose denominator is zero does not apply. */
  function Ratio(numerator: nat, denominator: nat): (r: MetricValue) {
    if denominator == 0 then NotApplicable
    else Scored(numerator as real / denominator as real, numerator, denominator)
  }
}
