/** Multiple-comparison correction of a batch of p-values (`adjust_p_values`). */
module Correction {
  import opened Wrappers

  /** The only supported method, and the default one. */
  const BONFERRONI: string := "bonferroni"

  function Min(a: real, b: real): real
  {
    if b < a then b else a
  }

  /** Every p-value multiplied by the number of tests. */
  function Scale(pValues: seq<real>, n: nat): (r: seq<real>)
    ensures |r| == |pValues|
    ensures forall i :: 0 <= i < |r| ==> r[i] == pValues[i] * (n as real)
  {
    seq(|pValues|, i requires 0 <= i < |pValues| => pValues[i] * (n as real))
  }

  /** Every value capped at 1.0. */
  function Cap(values: seq<real>): (r: seq<real>)
    ensures |r| == |values|
    ensures forall i :: 0 <= i < |r| ==> r[i] == Min(values[i], 1.0)
  {
    seq(|values|, i requires 0 <= i < |values| => Min(values[i], 1.0))
  }

  /** `_apply_bonferroni_correction`: the i-th result is min(p_i * n, 1.0). */
  function ApplyBonferroni(pValues: seq<real>): (r: seq<real>)
    ensures |r| == |pValues|
    ensures forall i :: 0 <= i < |r| ==> r[i] <= 1.0
    ensures forall i :: 0 <= i < |r| ==> r[i] == Min(pValues[i] * (|pValues| as real), 1.0)
  {
    Cap(Scale(pValues, |pValues|))
  }

  /** For p-values in [0, 1] the corrected values stay in [0, 1] and never fall below the raw ones. */
  lemma {:induction false} BonferroniBounds(pValues: seq<real>)
    requires forall i :: 0 <= i < |pValues| ==> 0.0 <= pValues[i] <= 1.0
    ensures forall i :: 0 <= i < |pValues| ==> pValues[i] <= ApplyBonferroni(pValues)[i] <= 1.0
  {
    var r := ApplyBonferroni(pValues);
    forall i | 0 <= i < |pValues|
      ensures pValues[i] <= r[i] <= 1.0
    {
      var n := |pValues| as real;
      assert 1.0 <= n;
      assert pValues[i] * 1.0 <= pValues[i] * n;
    }
  }

  /** The correction keeps the order of the p-values. */
  lemma {:induction false} BonferroniMonotone(pValues: seq<real>, i: nat, j: nat)
    requires i < |pValues| && j < |pValues| && pValues[i] <= pValues[j]
    ensures ApplyBonferroni(pValues)[i] <= ApplyBonferroni(pValues)[j]
  {
    var n := |pValues| as real;
    assert pValues[j] * n - pValues[i] * n == (pValues[j] - pValues[i]) * n;
    assert 0.0 <= (pValues[j] - pValues[i]) * n;
  }

  /** Three tests: each p-value is tripled and the last one is capped. */
  lemma {:induction false} BonferroniExample()
    ensures ApplyBonferroni([0.01, 0.02, 0.5]) == [0.03, 0.06, 1.0]
  {
    var r := ApplyBonferroni([0.01, 0.02, 0.5]);
    assert r[0] == 0.03 && r[1] == 0.06 && r[2] == 1.0;
  }

  /** The error `adjust_p_values` raises for an unsupported method. */
  function UnsupportedMethod(adjustmentMethod: string): Error
  {
    ValueError("Adjustment method '" + adjustmentMethod + "' is not supported.")
  }

  /** `adjust_p_values`: Bonferroni on request, an unsupported-method error for any other method. */
  function AdjustPValues(pValues: seq<real>, adjustmentMethod: string := BONFERRONI): (r: Result<seq<real>, Error>)
    ensures r.Success? <==> adjustmentMethod == BONFERRONI
    ensures r.Success? ==> r.value == ApplyBonferroni(pValues)
    ensures r.Failure? ==> r.error == UnsupportedMethod(adjustmentMethod)
  {
    if adjustmentMethod == BONFERRONI then Success(ApplyBonferroni(pValues))
    else Failure(UnsupportedMethod(adjustmentMethod))
  }

  /** Called without a method, `adjust_p_values` applies the Bonferroni correction. */
  lemma {:induction false} DefaultIsBonferroni(pValues: seq<real>)
    ensures AdjustPValues(pValues) == Success(ApplyBonferroni(pValues))
  {
  }

  /** Holm's method is not supported. */
  lemma {:induction false} HolmIsUnsupported(pValues: seq<real>)
    ensures AdjustPValues(pValues, "holm") == Failure(ValueError("Adjustment method 'holm' is not supported."))
  {
    assert |"holm"| != |BONFERRONI|;
    assert "Adjustment method '" + "holm" + "' is not supported." == "Adjustment method 'holm' is not supported.";
  }
}
