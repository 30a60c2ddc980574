/**
 * The result table `run` assembles from the probability map: one row per map
 * entry, in map order, with the entry's score. Also the table as the code is
 * written, where unpacking a drift entry fails.
 */
module Results {
  import opened Wrappers
  import opened Frames
  import opened Scoring
  import opened Probabilities

  const MISSING_MESSAGE: string := "Missing in bad_data"
  const ADDITIONAL_MESSAGE: string := "Additional in bad_data"

  /** One row of the result DataFrame. */
  datatype Row = Row(field: string, probability: real, extraStatus: bool, details: Option<string>)

  /** The (p_value, is_additional, details) triple `run` reads from an entry. */
  function Unpack(e: Entry): (real, bool, Option<string>)
  {
    match e
    case Tested(p) => (p, false, None)
    case Missing => (MAX_PROBABILITY, true, Some(MISSING_MESSAGE))
    case Additional => (MAX_PROBABILITY, true, Some(ADDITIONAL_MESSAGE))
  }

  /** The row for one entry: drift rows carry the maximum score, the flag and their message. */
  function ToRow(field: string, e: Entry): (r: Row)
    ensures r.field == field
    ensures r.extraStatus <==> !e.Tested?
    ensures 0.0 <= r.probability <= 100.0
    ensures e.Tested? ==> r.details == None && r.probability == CalculateProbability(e.pValue, false)
    ensures e.Missing? ==> r.probability == 99.999 && r.details == Some(MISSING_MESSAGE)
    ensures e.Additional? ==> r.probability == 99.999 && r.details == Some(ADDITIONAL_MESSAGE)
  {
    var (pValue, isAdditional, details) := Unpack(e);
    Row(field, CalculateProbability(pValue, isAdditional), isAdditional, details)
  }

  /** The rows `run` appends for the entries of `m` whose field is not ignored. */
  function Rows(m: ProbMap, ignore: seq<string>): seq<Row>
  {
    if m == [] then []
    else
      var rest := Rows(m[..|m| - 1], ignore);
      var (field, e) := m[|m| - 1];
      if field !in ignore then rest + [ToRow(field, e)] else rest
  }

  /** No row is for an ignored field, and every row comes from an entry of the map. */
  lemma {:induction false} RowsSkipIgnored(m: ProbMap, ignore: seq<string>)
    ensures forall i :: 0 <= i < |Rows(m, ignore)| ==> Rows(m, ignore)[i].field !in ignore
    ensures forall i :: 0 <= i < |Rows(m, ignore)| ==>
      exists k :: 0 <= k < |m| && Rows(m, ignore)[i] == ToRow(m[k].0, m[k].1)
  {
    if m != [] {
      var init := m[..|m| - 1];
      var rows, rest := Rows(m, ignore), Rows(init, ignore);
      RowsSkipIgnored(init, ignore);
      var last := m[|m| - 1];
      if last.0 !in ignore {
        assert rows == rest + [ToRow(last.0, last.1)];
      } else {
        assert rows == rest;
      }
      forall i | 0 <= i < |rows|
        ensures rows[i].field !in ignore && exists k :: 0 <= k < |m| && rows[i] == ToRow(m[k].0, m[k].1)
      {
        if i < |rest| {
          assert rows[i] == rest[i];
          var k :| 0 <= k < |init| && rest[i] == ToRow(init[k].0, init[k].1);
          assert init[k] == m[k];
          assert rows[i] == ToRow(m[k].0, m[k].1);
        } else {
          assert rows[i] == ToRow(m[|m| - 1].0, m[|m| - 1].1);
        }
      }
    } else {
      assert Rows(m, ignore) == [];
    }
  }

  /** When the map has no ignored key, `run` keeps every entry, in map order. */
  lemma {:induction false} RowsOfMap(m: ProbMap, ignore: seq<string>)
    requires forall k :: 0 <= k < |m| ==> m[k].0 !in ignore
    ensures var rows := Rows(m, ignore);
      |rows| == |m| && forall i :: 0 <= i < |m| ==> rows[i] == ToRow(m[i].0, m[i].1)
  {
    if m != [] {
      RowsOfMap(m[..|m| - 1], ignore);
    }
  }

  /** The table `run` returns once the drift entries are read as intended. */
  function ResultTable(good: DataFrame, bad: DataFrame, ignore: seq<string>,
                       numerical: Strategy, categorical: Strategy): seq<Row>
  {
    Rows(ProbabilityMap(good, bad, ignore, numerical, categorical), ignore)
  }

  /** No key of the probability map is an ignored field. */
  lemma {:induction false} NoIgnoredKey(good: DataFrame, bad: DataFrame, ignore: seq<string>,
                     numerical: Strategy, categorical: Strategy, k: nat)
    requires k < |ProbabilityMap(good, bad, ignore, numerical, categorical)|
    ensures ProbabilityMap(good, bad, ignore, numerical, categorical)[k].0 !in ignore
  {
    var m := ProbabilityMap(good, bad, ignore, numerical, categorical);
    ProbabilityMapEntries(good, bad, ignore, numerical, categorical);
    assert Keys(m)[k] == m[k].0;
    assert Get(m, m[k].0).Some?;
  }

  /** `run` turns the probability map into rows one for one, in map order. */
  lemma {:induction false} ResultTableFollowsMap(good: DataFrame, bad: DataFrame, ignore: seq<string>,
                              numerical: Strategy, categorical: Strategy)
    ensures var (m, t) := (ProbabilityMap(good, bad, ignore, numerical, categorical),
                           ResultTable(good, bad, ignore, numerical, categorical));
      |t| == |m| && forall i :: 0 <= i < |m| ==> t[i] == ToRow(m[i].0, m[i].1)
  {
    var m := ProbabilityMap(good, bad, ignore, numerical, categorical);
    forall k | 0 <= k < |m| ensures m[k].0 !in ignore {
      NoIgnoredKey(good, bad, ignore, numerical, categorical, k);
    }
    RowsOfMap(m, ignore);
  }

  /**
   * The table's row for a field is exactly the row its `FieldEntry` calls
   * for, and a field without an entry (ignored, mixed-type, or in neither
   * dataset) has no row.
   */
  lemma {:induction false} ResultTableRow(good: DataFrame, bad: DataFrame, ignore: seq<string>,
                       numerical: Strategy, categorical: Strategy, field: string)
    ensures var (t, entry) := (ResultTable(good, bad, ignore, numerical, categorical),
                               FieldEntry(good, bad, ignore, numerical, categorical, field));
      && (entry.Some? ==> exists i :: 0 <= i < |t| && t[i] == ToRow(field, entry.value))
      && (entry.None? ==> forall i :: 0 <= i < |t| ==> t[i].field != field)
  {
    var m := ProbabilityMap(good, bad, ignore, numerical, categorical);
    ProbabilityMapEntries(good, bad, ignore, numerical, categorical);
    ResultTableFollowsMap(good, bad, ignore, numerical, categorical);
    assert Get(m, field) == FieldEntry(good, bad, ignore, numerical, categorical, field);
    if Get(m, field).None? {
      assert forall i :: 0 <= i < |m| ==> Keys(m)[i] != field;
    }
  }

  /**
   * The table's fields are unique; reference fields come first, in reference
   * column order, then candidate-only fields in candidate column order.
   */
  lemma {:induction false} ResultTableOrder(good: DataFrame, bad: DataFrame, ignore: seq<string>,
                         numerical: Strategy, categorical: Strategy)
    ensures var t := ResultTable(good, bad, ignore, numerical, categorical);
      && (forall i, j :: 0 <= i < j < |t| ==> t[i].field != t[j].field)
      && (forall i, j :: 0 <= i < j < |t| && t[j].field in Names(good) ==>
            t[i].field in Names(good) && IndexOf(good, t[i].field) < IndexOf(good, t[j].field))
      && (forall i, j :: 0 <= i < j < |t| && t[i].field !in Names(good) ==>
            t[j].field !in Names(good) && t[i].field in Names(bad) && t[j].field in Names(bad) &&
            IndexOf(bad, t[i].field) < IndexOf(bad, t[j].field))
  {
    ProbabilityMapEntries(good, bad, ignore, numerical, categorical);
    ProbabilityMapOrder(good, bad, ignore, numerical, categorical);
    ResultTableFollowsMap(good, bad, ignore, numerical, categorical);
  }

  /** With unique keys, every key maps to its own entry. */
  lemma {:induction false} GetDistinct(m: ProbMap, k: nat)
    requires DistinctKeys(m) && k < |m|
    ensures Get(m, m[k].0) == Some(m[k].1)
  {
    if k < |m| - 1 {
      assert m[..|m| - 1][k] == m[k];
      GetDistinct(m[..|m| - 1], k);
    }
  }

  /** A non-ignored reference field absent from the candidate gets the Missing drift row. */
  lemma {:induction false} MissingFieldRow(good: DataFrame, bad: DataFrame, ignore: seq<string>,
                        numerical: Strategy, categorical: Strategy, field: string)
    requires field in Names(good) && field !in Names(bad) && field !in ignore
    ensures var t := ResultTable(good, bad, ignore, numerical, categorical);
      exists i :: 0 <= i < |t| && t[i] == Row(field, 99.999, true, Some(MISSING_MESSAGE))
  {
    ResultTableRow(good, bad, ignore, numerical, categorical, field);
  }

  /** A non-ignored candidate-only field gets the Additional drift row. */
  lemma {:induction false} AdditionalFieldRow(good: DataFrame, bad: DataFrame, ignore: seq<string>,
                           numerical: Strategy, categorical: Strategy, field: string)
    requires field !in Names(good) && field in Names(bad) && field !in ignore
    ensures var t := ResultTable(good, bad, ignore, numerical, categorical);
      exists i :: 0 <= i < |t| && t[i] == Row(field, 99.999, true, Some(ADDITIONAL_MESSAGE))
  {
    ResultTableRow(good, bad, ignore, numerical, categorical, field);
  }

  /**
   * A non-ignored shared field: all-numeric reference values (an empty column
   * included) go to the numerical strategy, otherwise all-string values go to
   * the categorical test, and a mixed column has no row.
   */
  lemma {:induction false} SharedFieldRow(good: DataFrame, bad: DataFrame, ignore: seq<string>,
                       numerical: Strategy, categorical: Strategy, i: nat, j: nat)
    requires i < |good| && j < |bad| && good[i].name == bad[j].name && good[i].name !in ignore
    ensures var t := ResultTable(good, bad, ignore, numerical, categorical);
      var (field, values, badValues) := (good[i].name, good[i].values, bad[j].values);
      && (Classify(values) == Numeric ==>
            exists k :: 0 <= k < |t| &&
              t[k] == Row(field, CalculateProbability(numerical(values, badValues), false), false, None))
      && (Classify(values) == Categorical ==>
            exists k :: 0 <= k < |t| &&
              t[k] == Row(field, CalculateProbability(categorical(values, badValues), false), false, None))
      && (Classify(values) == Unclassifiable ==> forall k :: 0 <= k < |t| ==> t[k].field != field)
  {
    LookupColumn(good, i);
    LookupColumn(bad, j);
    ResultTableRow(good, bad, ignore, numerical, categorical, good[i].name);
  }

  /** An ignored field has no row, whether it is shared, reference-only or candidate-only. */
  lemma {:induction false} IgnoredFieldHasNoRow(good: DataFrame, bad: DataFrame, ignore: seq<string>,
                             numerical: Strategy, categorical: Strategy, field: string)
    requires field in ignore
    ensures var t := ResultTable(good, bad, ignore, numerical, categorical);
      forall k :: 0 <= k < |t| ==> t[k].field != field
  {
    ResultTableRow(good, bad, ignore, numerical, categorical, field);
  }

  /** The error Python raises when `run` unpacks a 4-tuple drift constant into three names. */
  const UNPACK_ERROR: Error := ValueError("too many values to unpack (expected 3)")

  /** The tuple length of an entry as the source stores it: 3 for a tested field, 4 for a drift constant. */
  function Arity(e: Entry): nat
  {
    if e.Tested? then 3 else 4
  }

  /** `run` as written: the first entry that is not a 3-tuple raises, so no table is returned. */
  function RowsAsWritten(m: ProbMap, ignore: seq<string>): (r: Result<seq<Row>, Error>)
    ensures r.Success? <==> forall k :: 0 <= k < |m| ==> Arity(m[k].1) == 3
    ensures r.Success? ==> r.value == Rows(m, ignore)
    ensures r.Failure? ==> r.error == UNPACK_ERROR
  {
    if exists k :: 0 <= k < |m| && Arity(m[k].1) != 3 then Failure(UNPACK_ERROR) else Success(Rows(m, ignore))
  }

  /** As written, `run` fails whenever any non-ignored field drifts. */
  lemma {:induction false} RunAsWrittenFailsOnDrift(good: DataFrame, bad: DataFrame, ignore: seq<string>,
                                 numerical: Strategy, categorical: Strategy, field: string)
    requires field !in ignore && (field in Names(good) <==> field !in Names(bad))
    ensures RowsAsWritten(ProbabilityMap(good, bad, ignore, numerical, categorical), ignore) == Failure(UNPACK_ERROR)
  {
    var m := ProbabilityMap(good, bad, ignore, numerical, categorical);
    ProbabilityMapEntries(good, bad, ignore, numerical, categorical);
    assert Get(m, field).Some? && !Get(m, field).value.Tested?;
  }

  /**
   * As written, `run` succeeds exactly when no non-ignored field is in only
   * one of the datasets, and then it returns the intended table.
   */
  lemma {:induction false} RunAsWrittenSucceedsIffNoDrift(good: DataFrame, bad: DataFrame, ignore: seq<string>,
                                                          numerical: Strategy, categorical: Strategy)
    ensures var r := RowsAsWritten(ProbabilityMap(good, bad, ignore, numerical, categorical), ignore);
      && (r.Success? <==> forall f :: f !in ignore ==> (f in Names(good) <==> f in Names(bad)))
      && (r.Success? ==> r.value == ResultTable(good, bad, ignore, numerical, categorical))
  {
    var m := ProbabilityMap(good, bad, ignore, numerical, categorical);
    var r := RowsAsWritten(m, ignore);
    ProbabilityMapEntries(good, bad, ignore, numerical, categorical);
    if r.Failure? {
      var k :| 0 <= k < |m| && Arity(m[k].1) != 3;
      GetDistinct(m, k);
      var f := m[k].0;
      assert f !in ignore && (f in Names(good) <==> f !in Names(bad));
    } else {
      forall f | f !in ignore ensures f in Names(good) <==> f in Names(bad) {
        if f in Names(good) <==> f !in Names(bad) {
          RunAsWrittenFailsOnDrift(good, bad, ignore, numerical, categorical, f);
        }
      }
    }
  }

  /** One reference column and an empty candidate: as written `run` raises; as intended it reports the missing field. */
  lemma {:induction false} MissingColumnExample(numerical: Strategy, categorical: Strategy)
    ensures var good: DataFrame := [Column("amount", [Num(1.0)])];
      && RowsAsWritten(ProbabilityMap(good, [], [], numerical, categorical), []) == Failure(UNPACK_ERROR)
      && ResultTable(good, [], [], numerical, categorical) == [Row("amount", 99.999, true, Some(MISSING_MESSAGE))]
  {
    var good: DataFrame := [Column("amount", [Num(1.0)])];
    assert Names(good) == ["amount"];
    var m := ProbabilityMap(good, [], [], numerical, categorical);
    assert m == [("amount", Missing)];
    assert m[..0] == [];
    assert Rows(m, []) == [ToRow("amount", Missing)];
  }
}
