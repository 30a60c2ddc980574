/**
 * The comparison engine: an analyser fixed at construction over a reference
 * ("good") and a candidate ("bad") dataset, an ignore list and the tests it
 * dispatches to.
 */
module Analyser {
  import opened Wrappers
  import opened Frames
  import opened Scoring
  import opened Probabilities
  import opened Results

  /**
   * The effect-size arithmetic over a field's reference and candidate values;
   * it fails where pandas does, e.g. with a TypeError for the mean of strings.
   */
  type EffectSize = (seq<Value>, seq<Value>) -> Result<real, Error>

  class ErrorAnalyzer {
    const goodData: DataFrame
    const badData: DataFrame
    const fieldsToAnalyze: seq<string>
    const fieldsToIgnore: seq<string>
    const numericalStrategy: Strategy
    /** The chi-squared test on the cross-tabulation of the two columns. */
    const categoricalTest: Strategy
    const effectSize: EffectSize

    /** A missing or empty ignore list means no field is ignored. */
    constructor (goodData: DataFrame, badData: DataFrame, fieldsToIgnore: Option<seq<string>>,
                 numericalStrategy: Strategy, categoricalTest: Strategy, effectSize: EffectSize)
      ensures this.goodData == goodData && this.badData == badData
      ensures this.fieldsToAnalyze == Names(goodData)
      ensures this.fieldsToIgnore == if fieldsToIgnore.Some? then fieldsToIgnore.value else []
      ensures this.numericalStrategy == numericalStrategy && this.categoricalTest == categoricalTest
      ensures this.effectSize == effectSize
    {
      this.goodData := goodData;
      this.badData := badData;
      this.fieldsToAnalyze := Names(goodData);
      this.fieldsToIgnore := if fieldsToIgnore.Some? && fieldsToIgnore.value != [] then fieldsToIgnore.value else [];
      this.numericalStrategy := numericalStrategy;
      this.categoricalTest := categoricalTest;
      this.effectSize := effectSize;
    }

    /**
     * Fills the probability map: one pass over the reference columns, then
     * one over the candidate columns for fields the reference lacks.
     */
    method CalculateProbabilities() returns (probabilities: ProbMap)
      ensures probabilities == ProbabilityMap(goodData, badData, fieldsToIgnore, numericalStrategy, categoricalTest)
    {
      probabilities := [];
      for i := 0 to |goodData|
        invariant probabilities == RefEntries(goodData[..i], badData, fieldsToIgnore, numericalStrategy, categoricalTest)
      {
        var field := goodData[i].name;
        RefEntriesStep(goodData, i, badData, fieldsToIgnore, numericalStrategy, categoricalTest);
        if field in fieldsToIgnore {
          continue;
        }
        var badValues := Lookup(badData, field);
        if badValues.None? {
          probabilities := Put(probabilities, field, Missing);
          continue;
        }
        var goodValues := goodData[i].values;
        if AllNumbers(goodValues) {
          var pValue := numericalStrategy(goodValues, badValues.value);
          probabilities := Put(probabilities, field, Tested(pValue));
        } else if AllStrings(goodValues) {
          var pValue := categoricalTest(goodValues, badValues.value);
          probabilities := Put(probabilities, field, Tested(pValue));
        }
      }
      assert goodData[..|goodData|] == goodData;
      ghost var refEntries := probabilities;
      RefEntriesKeys(goodData, badData, fieldsToIgnore, numericalStrategy, categoricalTest);
      assert refEntries + AdditionalEntries(badData[..0], goodData, fieldsToIgnore) == refEntries;
      for j := 0 to |badData|
        invariant probabilities == refEntries + AdditionalEntries(badData[..j], goodData, fieldsToIgnore)
      {
        var field := badData[j].name;
        AdditionalEntriesStep(badData, j, goodData, fieldsToIgnore, refEntries);
        if field !in Names(goodData) {
          if field !in fieldsToIgnore {
            probabilities := Put(probabilities, field, Additional);
          }
        }
      }
      assert badData[..|badData|] == badData;
    }

    /** The result table, with every drift entry read as the row its constant describes. */
    method Run() returns (results: seq<Row>)
      ensures results == ResultTable(goodData, badData, fieldsToIgnore, numericalStrategy, categoricalTest)
    {
      results := [];
      var probabilities := CalculateProbabilities();
      for i := 0 to |probabilities|
        invariant results == Rows(probabilities[..i], fieldsToIgnore)
      {
        var (field, entry) := probabilities[i];
        var (pValue, isAdditional, details) := Unpack(entry);
        var probability := CalculateProbability(pValue, isAdditional);
        assert probabilities[..i + 1][..i] == probabilities[..i];
        if field !in fieldsToIgnore {
          results := results + [Row(field, probability, isAdditional, details)];
        }
      }
      assert probabilities[..|probabilities|] == probabilities;
    }

    /** `run` as written: unpacking a 4-tuple drift constant into three names raises. */
    method RunAsWritten() returns (r: Result<seq<Row>, Error>)
      ensures r == RowsAsWritten(ProbabilityMap(goodData, badData, fieldsToIgnore, numericalStrategy, categoricalTest),
                                 fieldsToIgnore)
    {
      var results := [];
      var probabilities := CalculateProbabilities();
      for i := 0 to |probabilities|
        invariant forall k :: 0 <= k < i ==> Arity(probabilities[k].1) == 3
        invariant results == Rows(probabilities[..i], fieldsToIgnore)
      {
        var (field, entry) := probabilities[i];
        if Arity(entry) != 3 {
          return Failure(UNPACK_ERROR);
        }
        var (pValue, isAdditional, details) := Unpack(entry);
        var probability := CalculateProbability(pValue, isAdditional);
        assert probabilities[..i + 1][..i] == probabilities[..i];
        if field !in fieldsToIgnore {
          results := results + [Row(field, probability, isAdditional, details)];
        }
      }
      assert probabilities[..|probabilities|] == probabilities;
      r := Success(results);
    }

    /**
     * `calculate_effect_size`: 0.0 for an ignored field or one without an
     * entry; a drift entry fails to unpack; otherwise the effect size of the
     * field's reference and candidate values.
     */
    method CalculateEffectSize(field: string) returns (r: Result<real, Error>)
      ensures field in fieldsToIgnore ==> r == Success(0.0)
      ensures var entry := FieldEntry(goodData, badData, fieldsToIgnore, numericalStrategy, categoricalTest, field);
        && (entry.None? ==> r == Success(0.0))
        && (entry.Some? && !entry.value.Tested? ==> r == Failure(UNPACK_ERROR))
        && (entry.Some? && entry.value.Tested? ==>
              Lookup(goodData, field).Some? && Lookup(badData, field).Some? &&
              r == effectSize(Lookup(goodData, field).value, Lookup(badData, field).value))
    {
      if field in fieldsToIgnore {
        return Success(0.0);
      }
      var probabilities := CalculateProbabilities();
      ProbabilityMapEntries(goodData, badData, fieldsToIgnore, numericalStrategy, categoricalTest);
      var entry := Get(probabilities, field);
      if entry.None? {
        return Success(0.0);
      }
      if Arity(entry.value) != 3 {
        return Failure(UNPACK_ERROR);
      }
      var goodValues := Lookup(goodData, field).value;
      var badValues := Lookup(badData, field).value;
      r := effectSize(goodValues, badValues);
    }
  }
}
