/**
 * The two datasets the engine compares, reduced to what the engine looks at:
 * named columns and the kind of each value, plus the field classifier that
 * decides which statistical test a column goes to.
 */
module Frames {
  import opened Wrappers

  /** A cell as the classifier sees it: a number (int or float), a string, or anything else. */
  datatype Value = Num(x: real) | Str(s: string) | Other

  datatype Column = Column(name: string, values: seq<Value>)

  predicate DistinctNames(cols: seq<Column>)
  {
    forall i, j :: 0 <= i < j < |cols| ==> cols[i].name != cols[j].name
  }

  /** A table of named columns; column names are unique. */
  type DataFrame = cols: seq<Column> | DistinctNames(cols)

  /** The column names in column order (`DataFrame.columns`). */
  function Names(cols: seq<Column>): (r: seq<string>)
    ensures |r| == |cols|
    ensures forall i :: 0 <= i < |cols| ==> r[i] == cols[i].name
  {
    if cols == [] then [] else Names(cols[..|cols| - 1]) + [cols[|cols| - 1].name]
  }

  /** The values of the column called `name` (`df[name]`), or None when there is no such column. */
  function Lookup(cols: seq<Column>, name: string): (r: Option<seq<Value>>)
    ensures r.None? <==> name !in Names(cols)
    ensures r.Some? ==> exists i :: 0 <= i < |cols| && cols[i] == Column(name, r.value)
  {
    if cols == [] then None
    else if cols[|cols| - 1].name == name then Some(cols[|cols| - 1].values)
    else Lookup(cols[..|cols| - 1], name)
  }

  /** The position of the column called `name`. */
  function IndexOf(cols: seq<Column>, name: string): (r: nat)
    requires name in Names(cols)
    ensures r < |cols| && cols[r].name == name
  {
    if cols[|cols| - 1].name == name then |cols| - 1 else IndexOf(cols[..|cols| - 1], name)
  }

  /** With unique names, every column is found by its own name. */
  lemma {:induction false} LookupColumn(cols: seq<Column>, i: nat)
    requires DistinctNames(cols) && i < |cols|
    ensures Lookup(cols, cols[i].name) == Some(cols[i].values)
    ensures IndexOf(cols, cols[i].name) == i
  {
    if i < |cols| - 1 {
      assert cols[..|cols| - 1][i] == cols[i];
      LookupColumn(cols[..|cols| - 1], i);
    }
  }

  datatype Kind = Numeric | Categorical | Unclassifiable

  predicate AllNumbers(values: seq<Value>)
  {
    forall i :: 0 <= i < |values| ==> values[i].Num?
  }

  predicate AllStrings(values: seq<Value>)
  {
    forall i :: 0 <= i < |values| ==> values[i].Str?
  }

  /**
   * The field classifier: the numeric test is tried first, so an empty
   * reference column counts as numeric; a column mixing kinds is unclassifiable.
   */
  function Classify(values: seq<Value>): (k: Kind)
    ensures k == Numeric <==> AllNumbers(values)
    ensures k == Categorical <==> values != [] && AllStrings(values)
    ensures k == Unclassifiable <==>
      (exists i :: 0 <= i < |values| && !values[i].Num?) && (exists j :: 0 <= j < |values| && !values[j].Str?)
    ensures values == [] ==> k == Numeric
  {
    if AllNumbers(values) then
      assert values != [] ==> !values[0].Str?;
      Numeric
    else if AllStrings(values) then Categorical
    else Unclassifiable
  }
}
