/** Conversion of a p-value and a drift flag into the engine's error-probability score. */
module Scoring {

  /** The score given to a drift field, as a fraction of 100. */
  const MAX_PROBABILITY: real := 0.99999

  /** The significance threshold below which a difference is reported. */
  const ALPHA: real := 0.05

  /**
   * `_calculate_probability`: drift fields get the maximum score; otherwise a
   * significant p-value scores its complement and anything else scores zero.
   */
  function CalculateProbability(pValue: real, isAdditional: bool): (r: real)
    ensures isAdditional ==> r == 99.999
    ensures !isAdditional && pValue < ALPHA ==> r == 100.0 - 100.0 * pValue
    ensures !isAdditional && ALPHA <= pValue ==> r == 0.0
    ensures 0.0 <= pValue <= 1.0 ==> 0.0 <= r <= 100.0
  {
    var probability :=
      if isAdditional then MAX_PROBABILITY
      else if pValue < ALPHA then 1.0 - pValue
      else 0.0;
    probability * 100.0
  }

  /** Below the threshold, a smaller p-value gives a strictly larger score. */
  lemma {:induction false} ScoreDecreasesBelowThreshold(a: real, b: real)
    requires a < b < ALPHA
    ensures CalculateProbability(a, false) > CalculateProbability(b, false)
  {
  }

  /** A non-drift score is either zero or above 95: the threshold leaves a gap. */
  lemma {:induction false} NonDriftScoreGap(pValue: real)
    requires 0.0 <= pValue <= 1.0
    ensures var r := CalculateProbability(pValue, false); r == 0.0 || 95.0 < r <= 100.0
  {
  }
}
