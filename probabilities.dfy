/**
 * The probability map that `_calculate_probabilities` builds: one entry per
 * analysed or drifting field, reference columns first, then candidate-only
 * columns. This module gives the map as a function of the inputs and proves
 * what it holds; `Analyser.ErrorAnalyzer.CalculateProbabilities` builds it
 * step by step.
 */
module Probabilities {
  import opened Wrappers
  import opened Frames

  type PValue = p: real | 0.0 <= p <= 1.0

  /** A two-sample test (Welch's t-test, Mann-Whitney U, chi-squared): reference values, candidate values, p-value. */
  type Strategy = (seq<Value>, seq<Value>) -> PValue

  /**
   * A field's entry: the p-value of a shared field, or one of the two drift
   * markers for a field missing from the candidate or only in the candidate.
   */
  datatype Entry = Tested(pValue: PValue) | Missing | Additional

  /** A Python dict from field names to entries, in insertion order. */
  type ProbMap = seq<(string, Entry)>

  function Keys(m: ProbMap): (r: seq<string>)
    ensures |r| == |m|
    ensures forall i :: 0 <= i < |m| ==> r[i] == m[i].0
  {
    if m == [] then [] else Keys(m[..|m| - 1]) + [m[|m| - 1].0]
  }

  predicate DistinctKeys(m: ProbMap)
  {
    forall i, j :: 0 <= i < j < |m| ==> m[i].0 != m[j].0
  }

  /** `m[field]` when `field in m`. */
  function Get(m: ProbMap, field: string): (r: Option<Entry>)
    ensures r.None? <==> field !in Keys(m)
    ensures r.Some? ==> exists i :: 0 <= i < |m| && m[i] == (field, r.value)
  {
    if m == [] then None
    else if m[|m| - 1].0 == field then Some(m[|m| - 1].1)
    else Get(m[..|m| - 1], field)
  }

  /** `m[field] = e`: a present key keeps its place and takes the new entry, a new key goes last. */
  function Put(m: ProbMap, field: string, e: Entry): (r: ProbMap)
    ensures Keys(r) == if field in Keys(m) then Keys(m) else Keys(m) + [field]
  {
    if field !in Keys(m) then
      var r := m + [(field, e)];
      assert r[..|r| - 1] == m;
      r
    else
      var init, last := m[..|m| - 1], m[|m| - 1];
      assert m == init + [last];
      if last.0 == field then
        var r := init + [(field, e)];
        assert r[..|r| - 1] == init;
        r
      else
        var rest := Put(init, field, e);
        var r := rest + [last];
        assert r[..|r| - 1] == rest;
        r
  }

  /** After `m[field] = e`, `field` maps to `e` and every other key keeps its entry. */
  lemma {:induction false} PutGet(m: ProbMap, field: string, e: Entry, f: string)
    ensures Get(Put(m, field, e), f) == if f == field then Some(e) else Get(m, f)
  {
    if field !in Keys(m) {
      GetAppend(m, field, e, f);
    } else {
      var init, last := m[..|m| - 1], m[|m| - 1];
      assert m == init + [last];
      if last.0 == field {
        GetAppend(init, field, e, f);
        GetAppend(init, last.0, last.1, f);
      } else {
        assert field in Keys(init);
        PutGet(init, field, e, f);
        GetAppend(Put(init, field, e), last.0, last.1, f);
        GetAppend(init, last.0, last.1, f);
      }
    }
  }

  /** The entry for one reference column (the body of the first loop). */
  function RefEntry(name: string, values: seq<Value>, bad: seq<Column>, ignore: seq<string>,
                    numerical: Strategy, categorical: Strategy): Option<Entry>
  {
    if name in ignore then None
    else match Lookup(bad, name)
      case None => Some(Missing)
      case Some(badValues) =>
        match Classify(values)
        case Numeric => Some(Tested(numerical(values, badValues)))
        case Categorical => Some(Tested(categorical(values, badValues)))
        case Unclassifiable => None
  }

  /** The entries the first loop adds for the reference columns `cols`. */
  function RefEntries(cols: seq<Column>, bad: seq<Column>, ignore: seq<string>,
                      numerical: Strategy, categorical: Strategy): ProbMap
  {
    if cols == [] then []
    else
      var rest := RefEntries(cols[..|cols| - 1], bad, ignore, numerical, categorical);
      var last := cols[|cols| - 1];
      match RefEntry(last.name, last.values, bad, ignore, numerical, categorical)
      case None => rest
      case Some(e) => rest + [(last.name, e)]
  }

  /** The entries the second loop adds for the candidate columns `cols`. */
  function AdditionalEntries(cols: seq<Column>, good: seq<Column>, ignore: seq<string>): ProbMap
  {
    if cols == [] then []
    else
      var rest := AdditionalEntries(cols[..|cols| - 1], good, ignore);
      var name := cols[|cols| - 1].name;
      if name !in Names(good) && name !in ignore then rest + [(name, Additional)] else rest
  }

  /** The dict `_calculate_probabilities` returns. */
  function ProbabilityMap(good: DataFrame, bad: DataFrame, ignore: seq<string>,
                          numerical: Strategy, categorical: Strategy): ProbMap
  {
    RefEntries(good, bad, ignore, numerical, categorical) + AdditionalEntries(bad, good, ignore)
  }

  /**
   * What the map should hold for `field`, stated field by field: nothing for
   * an ignored field or one in neither dataset, a drift marker for a field in
   * only one of them, and for a shared field the p-value of the test its
   * reference values call for, or nothing when they are mixed.
   */
  function FieldEntry(good: DataFrame, bad: DataFrame, ignore: seq<string>,
                      numerical: Strategy, categorical: Strategy, field: string): Option<Entry>
  {
    if field in ignore then None
    else if field !in Names(good) then
      if field in Names(bad) then Some(Additional) else None
    else if field !in Names(bad) then Some(Missing)
    else
      var values, badValues := Lookup(good, field).value, Lookup(bad, field).value;
      if AllNumbers(values) then Some(Tested(numerical(values, badValues)))
      else if AllStrings(values) then Some(Tested(categorical(values, badValues)))
      else None
  }

  lemma {:induction false} GetAppend(m: ProbMap, field: string, e: Entry, f: string)
    ensures Get(m + [(field, e)], f) == if f == field then Some(e) else Get(m, f)
  {
    assert (m + [(field, e)])[..|m|] == m;
  }

  lemma {:induction false} GetConcat(a: ProbMap, b: ProbMap, f: string)
    ensures Get(a + b, f) == if f in Keys(b) then Get(b, f) else Get(a, f)
    decreases |b|
  {
    if b != [] {
      var b' := b[..|b| - 1];
      assert (a + b)[..|a + b| - 1] == a + b';
      assert Keys(b) == Keys(b') + [b[|b| - 1].0];
      GetConcat(a, b', f);
    } else {
      assert a + b == a;
    }
  }

  /** The reference entries are keyed by reference names, without repetition, in reference order. */
  lemma {:induction false} RefEntriesKeys(cols: seq<Column>, bad: seq<Column>, ignore: seq<string>,
                                          numerical: Strategy, categorical: Strategy)
    requires DistinctNames(cols)
    ensures var r := RefEntries(cols, bad, ignore, numerical, categorical);
      && (forall k :: 0 <= k < |r| ==> r[k].0 in Names(cols))
      && (forall i, j :: 0 <= i < j < |r| ==> IndexOf(cols, r[i].0) < IndexOf(cols, r[j].0))
      && DistinctKeys(r)
  {
    if cols != [] {
      var prefix := cols[..|cols| - 1];
      var last := cols[|cols| - 1];
      RefEntriesKeys(prefix, bad, ignore, numerical, categorical);
      assert Names(cols) == Names(prefix) + [last.name];
      forall f | f in Names(prefix)
        ensures IndexOf(cols, f) == IndexOf(prefix, f) < |cols| - 1
      {
      }
    }
  }

  /** The reference entry of a field is the one its column calls for; a field that is no reference column has none. */
  lemma {:induction false} RefEntriesGet(cols: seq<Column>, bad: seq<Column>, ignore: seq<string>,
                                         numerical: Strategy, categorical: Strategy, f: string)
    requires DistinctNames(cols)
    ensures Get(RefEntries(cols, bad, ignore, numerical, categorical), f) ==
      if f in Names(cols) then RefEntry(f, Lookup(cols, f).value, bad, ignore, numerical, categorical) else None
  {
    if cols != [] {
      var prefix := cols[..|cols| - 1];
      var last := cols[|cols| - 1];
      var rest := RefEntries(prefix, bad, ignore, numerical, categorical);
      RefEntriesGet(prefix, bad, ignore, numerical, categorical, f);
      assert Names(cols) == Names(prefix) + [last.name];
      match RefEntry(last.name, last.values, bad, ignore, numerical, categorical)
      case None =>
      case Some(e) => GetAppend(rest, last.name, e, f);
    }
  }

  /** One step of the first loop: the next reference column's entry, if any, is stored under its new key. */
  lemma {:induction false} RefEntriesStep(cols: seq<Column>, i: nat, bad: seq<Column>, ignore: seq<string>,
                       numerical: Strategy, categorical: Strategy)
    requires DistinctNames(cols) && i < |cols|
    ensures var (before, after) := (RefEntries(cols[..i], bad, ignore, numerical, categorical),
                                    RefEntries(cols[..i + 1], bad, ignore, numerical, categorical));
      after == match RefEntry(cols[i].name, cols[i].values, bad, ignore, numerical, categorical)
               case None => before
               case Some(e) => Put(before, cols[i].name, e)
    ensures cols[i].name !in Keys(RefEntries(cols[..i], bad, ignore, numerical, categorical))
  {
    var prefix, next := cols[..i], cols[..i + 1];
    assert next[..|next| - 1] == prefix && next[|next| - 1] == cols[i];
    var before := RefEntries(prefix, bad, ignore, numerical, categorical);
    RefEntriesKeys(prefix, bad, ignore, numerical, categorical);
    assert cols[i].name !in Names(prefix);
    assert cols[i].name !in Keys(before);
  }

  /** The candidate-only entries are keyed by non-ignored candidate names absent from the reference, in candidate order. */
  lemma {:induction false} AdditionalEntriesKeys(cols: seq<Column>, good: seq<Column>, ignore: seq<string>)
    requires DistinctNames(cols)
    ensures var r := AdditionalEntries(cols, good, ignore);
      && (forall k :: 0 <= k < |r| ==> r[k].0 in Names(cols) && r[k].0 !in Names(good) && r[k].0 !in ignore)
      && (forall i, j :: 0 <= i < j < |r| ==> IndexOf(cols, r[i].0) < IndexOf(cols, r[j].0))
      && DistinctKeys(r)
  {
    if cols != [] {
      var prefix := cols[..|cols| - 1];
      var name := cols[|cols| - 1].name;
      AdditionalEntriesKeys(prefix, good, ignore);
      assert Names(cols) == Names(prefix) + [name];
      forall f | f in Names(prefix)
        ensures IndexOf(cols, f) == IndexOf(prefix, f) < |cols| - 1
      {
      }
    }
  }

  /** One step of the second loop: a non-ignored candidate column absent from the reference is stored as Additional. */
  lemma {:induction false} AdditionalEntriesStep(cols: seq<Column>, j: nat, good: seq<Column>, ignore: seq<string>, before: ProbMap)
    requires DistinctNames(cols) && j < |cols|
    requires forall k :: 0 <= k < |before| ==> before[k].0 in Names(good)
    ensures before + AdditionalEntries(cols[..j + 1], good, ignore) ==
      if cols[j].name !in Names(good) && cols[j].name !in ignore
      then Put(before + AdditionalEntries(cols[..j], good, ignore), cols[j].name, Additional)
      else before + AdditionalEntries(cols[..j], good, ignore)
  {
    assert cols[..j + 1][..j] == cols[..j];
    var added := AdditionalEntries(cols[..j], good, ignore);
    var name := cols[j].name;
    AdditionalEntriesKeys(cols[..j], good, ignore);
    if name !in Names(good) && name !in ignore {
      assert name !in Names(cols[..j]);
      assert name !in Keys(before + added);
    }
  }

  /** A field has a candidate-only entry, Additional, exactly when it is a non-ignored candidate column absent from the reference. */
  lemma {:induction false} AdditionalEntriesGet(cols: seq<Column>, good: seq<Column>, ignore: seq<string>, f: string)
    ensures Get(AdditionalEntries(cols, good, ignore), f) ==
      if f in Names(cols) && f !in Names(good) && f !in ignore then Some(Additional) else None
  {
    if cols != [] {
      var prefix := cols[..|cols| - 1];
      var name := cols[|cols| - 1].name;
      AdditionalEntriesGet(prefix, good, ignore, f);
      assert Names(cols) == Names(prefix) + [name];
      if name !in Names(good) && name !in ignore {
        GetAppend(AdditionalEntries(prefix, good, ignore), name, Additional, f);
      }
    }
  }

  /**
   * The map holds exactly `FieldEntry` for every field: ignored fields have no
   * entry, drift fields their marker, shared fields the p-value of the test
   * their reference values select, and keys are unique.
   */
  lemma {:induction false} ProbabilityMapEntries(good: DataFrame, bad: DataFrame, ignore: seq<string>,
                              numerical: Strategy, categorical: Strategy)
    ensures var m := ProbabilityMap(good, bad, ignore, numerical, categorical);
      && DistinctKeys(m)
      && forall f :: Get(m, f) == FieldEntry(good, bad, ignore, numerical, categorical, f)
  {
    var r := RefEntries(good, bad, ignore, numerical, categorical);
    var a := AdditionalEntries(bad, good, ignore);
    RefEntriesKeys(good, bad, ignore, numerical, categorical);
    AdditionalEntriesKeys(bad, good, ignore);
    forall f ensures Get(r + a, f) == FieldEntry(good, bad, ignore, numerical, categorical, f) {
      GetConcat(r, a, f);
      RefEntriesGet(good, bad, ignore, numerical, categorical, f);
      AdditionalEntriesGet(bad, good, ignore, f);
    }
  }

  /**
   * Order of the map: every reference field comes before every candidate-only
   * field, reference fields keep the reference column order and candidate-only
   * fields keep the candidate column order.
   */
  lemma {:induction false} ProbabilityMapOrder(good: DataFrame, bad: DataFrame, ignore: seq<string>,
                            numerical: Strategy, categorical: Strategy)
    ensures var m := ProbabilityMap(good, bad, ignore, numerical, categorical);
      && (forall i, j :: 0 <= i < j < |m| && m[j].0 in Names(good) ==>
            m[i].0 in Names(good) && IndexOf(good, m[i].0) < IndexOf(good, m[j].0))
      && (forall i, j :: 0 <= i < j < |m| && m[i].0 !in Names(good) ==>
            m[j].0 !in Names(good) && m[i].0 in Names(bad) && m[j].0 in Names(bad) &&
            IndexOf(bad, m[i].0) < IndexOf(bad, m[j].0))
  {
    RefEntriesKeys(good, bad, ignore, numerical, categorical);
    AdditionalEntriesKeys(bad, good, ignore);
  }
}
