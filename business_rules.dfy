/**
 * The display business rules of the dashboard page: the derived
 * long-term delinquency count and the credit-score risk band.
 * Both are total functions on (unbounded) integers.
 */
module BusinessRules {

  const VeryHighRisk: string := "Very High Risk"
  const HighRisk: string := "High Risk"
  const MediumRisk: string := "Medium Risk"
  const LowRisk: string := "Low Risk"

  /** The four band labels, from riskiest to safest. */
  const Bands: seq<string> := [VeryHighRisk, HighRisk, MediumRisk, LowRisk]

  /**
   * Late payments in the last 24 months, plus every 12-month late
   * payment beyond the first.
   */
  function LongTermDelinquencyCount(dpd12m: int, dpd24m: int): (count: int)
    ensures count >= dpd24m
    ensures dpd12m <= 1 ==> count == dpd24m
    ensures dpd12m >= 1 ==> count == dpd24m + (dpd12m - 1)
  {
    // max(0, dpd12m - 1), written out
    dpd24m + (if dpd12m - 1 > 0 then dpd12m - 1 else 0)
  }

  /** For non-negative counts the derived count is a non-negative count too. */
  lemma DelinquencyNonNegative(dpd12m: int, dpd24m: int)
    requires dpd12m >= 0 && dpd24m >= 0
    ensures LongTermDelinquencyCount(dpd12m, dpd24m) >= 0
    ensures LongTermDelinquencyCount(dpd12m, dpd24m) >= dpd24m
  {
  }

  /** More late payments in either window never lower the derived count. */
  lemma DelinquencyMonotone(a12: int, a24: int, b12: int, b24: int)
    requires a12 <= b12 && a24 <= b24
    ensures LongTermDelinquencyCount(a12, a24) <= LongTermDelinquencyCount(b12, b24)
  {
  }

  /** The worked values: (0,0) -> 0, (1,0) -> 0, (3,2) -> 4, (0,5) -> 5. */
  lemma DelinquencyExamples()
    ensures LongTermDelinquencyCount(0, 0) == 0
    ensures LongTermDelinquencyCount(1, 0) == 0
    ensures LongTermDelinquencyCount(3, 2) == 4
    ensures LongTermDelinquencyCount(0, 5) == 5
  {
  }

  /**
   * The band of a credit score: each band is a closed interval of the
   * integer line, and the four intervals cover it without overlap.
   */
  function Cr22RiskBand(score: int): (band: string)
    ensures band in Bands
    ensures band == VeryHighRisk <==> score <= 500
    ensures band == HighRisk <==> 501 <= score <= 607
    ensures band == MediumRisk <==> 608 <= score <= 715
    ensures band == LowRisk <==> 716 <= score
  {
    if score <= 500 then VeryHighRisk
    else if score <= 607 then HighRisk
    else if score <= 715 then MediumRisk
    else LowRisk
  }

  /** How risky a band label is: 3 for the riskiest band, 0 for the safest. */
  function Severity(band: string): (level: nat)
    ensures level <= 3
    ensures band in Bands ==> Bands[3 - level] == band
  {
    if band == VeryHighRisk then 3
    else if band == HighRisk then 2
    else if band == MediumRisk then 1
    else 0
  }

  /** The band at each boundary of the table. */
  lemma BandBoundaries()
    ensures Cr22RiskBand(500) == VeryHighRisk
    ensures Cr22RiskBand(501) == HighRisk && Cr22RiskBand(607) == HighRisk
    ensures Cr22RiskBand(608) == MediumRisk && Cr22RiskBand(715) == MediumRisk
    ensures Cr22RiskBand(716) == LowRisk
  {
  }

  /** A higher score never yields a riskier band. */
  lemma BandMonotone(s1: int, s2: int)
    requires s1 <= s2
    ensures Severity(Cr22RiskBand(s2)) <= Severity(Cr22RiskBand(s1))
  {
  }
}
