# Error analyser: field-comparison engine

A Dafny model of the comparison engine of `error_analyser`, the class
`ErrorAnalyzer` in `analyser.py`. It compares a reference ("good") dataset with
a candidate ("bad") dataset column by column. The steps are:

- Fields on the ignore list are skipped.
- A reference field missing from the candidate is flagged as "Missing in bad_data".
- A candidate field missing from the reference is flagged as "Additional in bad_data".
- Every shared field is classified from its reference values. All numbers go to the
  numerical strategy. Otherwise all strings go to the chi-squared test. A mixed
  column is dropped.
- Each p-value p becomes a score in [0, 100]: (1 − p)·100 below α = 0.05, else 0.
  Drift fields score 0.99999·100.
- `run` turns the resulting ordered map into result rows.

Two utilities sit beside this: the Bonferroni correction of a batch of p-values,
and the guards of the effect-size query.

Modules, leaves first:

- `Wrappers` (wrappers.dfy): `Option`, `Result`, and `Error`, Python's `ValueError` with its message.
- `Frames` (frames.dfy): a dataset is a sequence of named columns with unique
  names (`DataFrame`). A cell is `Num | Str | Other`. This module also holds the field
  classifier `Classify`.
- `Scoring` (scoring.dfy): the constants `MAX_PROBABILITY` and `ALPHA`, and the score conversion.
- `Correction` (correction.dfy): `adjust_p_values` and the Bonferroni correction.
- `Probabilities` (probabilities.dfy): the probability map. Python's dict is a sequence of
  (field, entry) pairs in insertion order, and `Put` has dict-assignment semantics.
  An entry is `Tested(p) | Missing | Additional`. `ProbabilityMap` is the map as a
  function of the inputs. `FieldEntry` states, field by field, what the map must hold.
  The lemmas prove the two agree, and prove the order of the keys.
- `Results` (results.dfy): result rows, the result table, and the table as the code is
  written (see Findings).
- `Analyser` (analyser.dfy): class `ErrorAnalyzer`. Its fields are all `const`, because
  the source sets them in `__init__` and never changes them. `CalculateProbabilities`
  fills the map in two `for` loops with `continue`, as the source does. `Run` appends
  rows in a loop. Each method is proved equal to its specification function, and the
  properties are proved about those functions.

Abstracted collaborators. These are constructor parameters of `ErrorAnalyzer`:

- the numerical strategy (Welch's t-test or Mann-Whitney U);
- the chi-squared test;
- the effect-size arithmetic.

The strategies are total functions to p-values in [0, 1] (`Probabilities.Strategy`).
All arithmetic is exact `real` arithmetic.

Two behaviours of the code worth knowing:

- An empty reference column is classified numeric, because the numeric check comes
  first (`Frames.Classify`); there is no separate empty kind.
- Drift entries are stored as 4-tuples, but `run` unpacks 3 names from each entry. See Findings.

## Model

| member | source | states |
|---|---|---|
| Frames.Classify | analyser.py:111-116 | Numeric exactly when every reference value is a number. Categorical exactly when the column is non-empty and all strings. Unclassifiable exactly when some value is not a number and some value is not a string. An empty column is numeric. |
| Frames.Lookup | analyser.py:104-109 | `df[name]` is absent exactly when `name` is not among the column names. When present, it is the values of a column with that name. |
| Scoring.CalculateProbability | analyser.py:141-150 | A drift field scores 99.999. Below α a p-value scores 100 − 100·p, at or above α it scores 0. For p in [0, 1] the score lies in [0, 100]. |
| Scoring.ScoreDecreasesBelowThreshold | analyser.py:146-147 | For a < b < α, the score of a is strictly larger than the score of b. |
| Scoring.NonDriftScoreGap | analyser.py:145-150 | For p in [0, 1], a non-drift score is 0 or lies in (95, 100]. |
| Correction.ApplyBonferroni | analyser.py:61-64 | Same length as the input. The i-th result is min(pᵢ·n, 1.0), so every result is ≤ 1.0. |
| Correction.BonferroniBounds | analyser.py:61-64 | For p-values in [0, 1], each corrected value lies between the raw value and 1.0. |
| Correction.BonferroniMonotone | analyser.py:61-64 | The correction preserves the order of the p-values. |
| Correction.BonferroniExample | analyser.py:61-64 | [0.01, 0.02, 0.5] is corrected to [0.03, 0.06, 1.0]. |
| Correction.AdjustPValues | analyser.py:53-59 | The method defaults to "bonferroni". Succeeds exactly for "bonferroni", and then returns the Bonferroni correction. Any other method fails with the `ValueError` naming that method, and returns no result. |
| Correction.DefaultIsBonferroni | analyser.py:53-55 | Without a method argument, `adjust_p_values` applies the Bonferroni correction. |
| Correction.HolmIsUnsupported | analyser.py:53-57 | "holm" fails with "Adjustment method 'holm' is not supported." |
| Probabilities.Put | analyser.py:105-121 | Dict assignment: a present key keeps its position, a new key is appended last. |
| Probabilities.PutGet | analyser.py:105-121 | After `m[field] = e`, `field` maps to `e` and every other key keeps its entry. |
| Probabilities.RefEntriesKeys | analyser.py:99-116 | The first loop's keys are reference names, without repetition, in reference column order. |
| Probabilities.RefEntriesGet | analyser.py:99-116 | After the first loop, each reference field holds the entry its column calls for, and no other field has an entry. |
| Probabilities.RefEntriesStep | analyser.py:99-116 | One iteration of the first loop stores the next column's entry, if it has one, under a key not yet in the map. |
| Probabilities.AdditionalEntriesKeys | analyser.py:118-121 | The second loop adds keys only for non-ignored candidate fields absent from the reference, without repetition, in candidate order. |
| Probabilities.AdditionalEntriesGet | analyser.py:118-121 | A field gets an Additional entry from the second loop exactly when it is a non-ignored candidate field absent from the reference. |
| Probabilities.AdditionalEntriesStep | analyser.py:118-121 | One iteration of the second loop appends Additional for a qualifying candidate column and changes nothing else. |
| Probabilities.ProbabilityMapEntries | analyser.py:90-123 | Keys are unique, and every field's entry is `FieldEntry`. An ignored field has none, whether shared, reference-only or candidate-only. A missing field has Missing. A candidate-only field has Additional. A shared field has the numerical p-value if its reference values are all numbers, else the categorical p-value if they are all strings, else no entry. |
| Probabilities.ProbabilityMapOrder | analyser.py:99-121 | Every reference field comes before every candidate-only field. Reference fields keep reference column order, and candidate-only fields keep candidate column order. |
| Results.ToRow | analyser.py:76-84 | A row carries its field, and extra_status is true exactly for a drift entry. A tested row has the converted score and no details. A Missing or Additional row scores 99.999 and carries its message. Every score lies in [0, 100]. |
| Results.RowsSkipIgnored | analyser.py:76-85 | `run` emits no row for an ignored field, and every row comes from an entry of the map. |
| Results.RowsOfMap | analyser.py:76-85 | When no key is ignored, `run` emits exactly one row per entry, in map order. |
| Results.NoIgnoredKey | analyser.py:99-121 | No key of the probability map is on the ignore list. |
| Results.ResultTableFollowsMap | analyser.py:66-88 | The result table is the probability map converted row for row, in insertion order. |
| Results.ResultTableRow | analyser.py:66-123 | A field with an entry has a row, and that row is the one the entry calls for. A field without an entry has no row. |
| Results.ResultTableOrder | analyser.py:66-123 | Fields in the table are unique. Reference fields come first in reference order, then candidate-only fields in candidate order. |
| Results.MissingFieldRow | analyser.py:104-106 | A non-ignored reference field absent from the candidate has the row (field, 99.999, true, "Missing in bad_data"). |
| Results.AdditionalFieldRow | analyser.py:118-121 | A non-ignored candidate-only field has the row (field, 99.999, true, "Additional in bad_data"). |
| Results.SharedFieldRow | analyser.py:111-116 | A shared non-ignored field has a row with the numerical p-value when its reference values are all numbers, empty column included. Otherwise, when they are all strings, the row has the categorical p-value. Otherwise it has no row. |
| Results.IgnoredFieldHasNoRow | analyser.py:99-121 | An ignored field never has a row. |
| Results.RowsAsWritten | analyser.py:76 | As written, `run` succeeds exactly when every entry is a 3-tuple, and then yields the rows. Otherwise it fails with "too many values to unpack". |
| Results.RunAsWrittenFailsOnDrift | analyser.py:76 | As written, `run` fails whenever some non-ignored field is in exactly one of the two datasets. |
| Results.RunAsWrittenSucceedsIffNoDrift | analyser.py:76 | As written, `run` succeeds exactly when every non-ignored field is in both datasets or in neither. It then returns the intended table. |
| Results.MissingColumnExample | analyser.py:76 | One reference column and an empty candidate: as written `run` raises, while the intended table is the single Missing row. |
| Analyser.ErrorAnalyzer.constructor | analyser.py:14-19 | Stores both datasets and the strategies. `fieldsToAnalyze` is the reference column names. A missing or empty ignore list becomes []. |
| Analyser.ErrorAnalyzer.CalculateProbabilities | analyser.py:90-123 | The two loops build exactly `ProbabilityMap` of the engine's inputs. |
| Analyser.ErrorAnalyzer.Run | analyser.py:66-88 | Returns exactly `ResultTable` of the engine's inputs, with drift entries read as intended. |
| Analyser.ErrorAnalyzer.RunAsWritten | analyser.py:66-88 | Returns exactly `RowsAsWritten` of the probability map: the unpack error at the first drift entry. |
| Analyser.ErrorAnalyzer.CalculateEffectSize | analyser.py:24-34 | Returns 0.0 for an ignored field or a field without an entry, such as an unclassifiable one. A drift entry fails to unpack at line 32. A tested field gets the outcome of the effect-size arithmetic on its reference and candidate values: its value, or its error, such as the TypeError of a string column. |

## Left out

- The statistical tests: Welch's t-test, Mann-Whitney U, and chi-squared at analyser.py:125-139 and in the strategy classes. Each is a one-line call into scipy, so `Strategy` stands in for them. The model does not capture the failures or NaN results those tests give. These arise on degenerate input (an empty sample, zero variance, a degenerate contingency table) and on a kind mismatch, such as a numerical strategy given a string candidate column when the reference column is numeric.
- catagorical_strategies/categorical_strategy.py: an abstract interface with no behaviour. It is subsumed by `Strategy`.
- `_calculate_effect_size` (analyser.py:36-51): floating-point means and standard deviations computed by pandas. The constructor parameter `effectSize` stands in for it and may fail. Its unused `p_value` argument is not modelled.
- Analyser.ErrorAnalyzer.CalculateEffectSize: forwards any failure of `effectSize`, but does not fix which inputs fail. In pandas, `.mean()` on a string column (analyser.py:40) raises TypeError, so a shared categorical field fails there.
- `create_graphs` (analyser.py:152-215): matplotlib rendering, file output and printing. `fieldsToAnalyze` is kept only because `__init__` sets it.
- inspector.py: random demo data and printing.
- pandas specifics: duplicate column names (datasets have unique names here), dtype quirks such as `bool` passing the `int` check and NaN passing the `float` check, and the shape of the returned DataFrame (the model returns a sequence of rows).
- The default `numerical_strategy=None`: the model always takes a strategy. In the source, the first numeric shared field would raise AttributeError.
- Floating point: scores and corrected p-values are exact reals. For example, 0.99999·100 is exactly 99.999 here.

## Findings

| source | as written | input that shows it | evidently intended | confidence | as-written member | corrected member |
|---|---|---|---|---|---|---|
| analyser.py:76 | `run` unpacks every map entry into three names. The drift constants at analyser.py:11-12 are 4-tuples, so the first drift entry raises ValueError and no table is returned. | A reference with one column and an empty candidate (`Results.MissingColumnExample`). | A drift row with extra_status true, score MAX_PROBABILITY·100 and the message as details. | high; not executed | Analyser.ErrorAnalyzer.RunAsWritten, Results.RowsAsWritten, Results.RunAsWrittenFailsOnDrift | Analyser.ErrorAnalyzer.Run, Results.ResultTableRow, Results.MissingFieldRow |

`calculate_effect_size` makes the same 3-name unpack at analyser.py:32. For a drift field it fails there, and even with the tuple fixed, the column lookups at analyser.py:37-38 would fail next. So `Analyser.ErrorAnalyzer.CalculateEffectSize` keeps that failure in both readings.
