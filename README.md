# Cucumber report analyzer: report model, summarizer and aggregator in Dafny

The analyzer reads a Cucumber-JVM JSON report, which is a list of features. Each feature holds
elements (backgrounds and scenarios), each element holds steps, and each step has a result with
one of five statuses: `passed`, `failed`, `skipped`, `undefined`, `pending`. The analyzer derives
two smaller artifacts from such a report:

- **The summary** (`models/cucumber_jvm.py`). Every element is reduced to its first step that did
  not pass, a verdict derived from that step, the total time of all its steps and its tag names.
  With `only_errors`, elements without a failing step are dropped, and so are the features left
  without elements.
- **The aggregate** (`_old.py`). A batch of features is rolled up into one status, chosen by the
  fixed priority failed > skipped > pending > undefined, else unknown. The durations and scenario
  counts are summed, and the start time is taken from the first feature.

Files:

- `wrappers.dfy`: `Option` for Python's `Optional`, and `Outcome` for a computation that may
  raise.
- `seqs.dfy`: the Python idioms the core is built from, as generic functions with their
  properties:
  - `Filter`: a comprehension with an `if` filter;
  - `MapAll`: a comprehension whose item expression may raise;
  - `Sum`: `sum` over a projection.
- `cucumber_jvm.dfy` (module `CucumberJvm`): the report records as datatypes, the status-literal
  decoder, and the three summarizing transformers with their lemmas.
- `old_aggregate.dfy` (module `Aggregator`): status resolution and the aggregate.

Everything in the core is a pure transformation, so everything here is a function. In the source,
`summarize_feature` and `summarize_cucumber_report` overwrite a field of a summary object they
have just built and that nothing else sees. That overwrite is modelled as a datatype update,
`full.(elements := Filter(...))`.

Python's `sum` raises `TypeError` when a step's `duration` is `None`. That exception is modelled
as the error outcome `Err(MissingDuration)`. It propagates through the list comprehensions of
`summarize_feature` and `summarize_cucumber_report`, so one step without a duration anywhere
makes the whole summary fail, whatever the `only_errors` flag.

Two points about the aggregate status:

- It reads each feature's own `result.status` (`_old.py:2`), not the statuses of the feature's
  elements.
- A batch whose features all passed is evidently meant to aggregate to `passed`. That branch
  never runs (`_old.py:3`, see Findings). `ComputeStatus` models it as written.
  `ComputeStatusIntended` and `ComputeAggregateResultsIntended` are the corrected variant.

`_old.py` uses `CucumberStatus`, `CucumberFeature` and `CucumberAggregatedResult` without
defining or importing them. The module that defines them is not part of this model. The
`Aggregator` module declares minimal versions:

- a status type with an extra `Unknown`;
- a feature with `result.{status, duration, nbScenarii, nbPassed}` and
  `aggregateResult.startTimestamp`;
- the aggregate record.

## Model

| member | source | states |
|---|---|---|
| `Seqs.Filter` | models/cucumber_jvm.py:155 | The filtered comprehension keeps exactly as many elements as the predicate accepts. Every kept element satisfies the predicate and comes from the input. Every accepted input element is kept. The result is an order-preserving subsequence of the input. |
| `Seqs.FilterUnique` | models/cucumber_jvm.py:162 | The properties in `Filter`'s contract determine its result: any subsequence that has only accepted elements and has as many as the input accepts equals `Filter`. |
| `Seqs.MapAll` | models/cucumber_jvm.py:151 | A comprehension whose item may raise succeeds exactly when every item succeeds. Its result then has one entry per input, in order. When it fails, the error is that of the first item that fails: every item before it succeeded. |
| `CucumberJvm.ParseStatus` | models/cucumber_jvm.py:31 | A string is accepted exactly when it is one of the five status literals, and the status it yields is written as that string. |
| `CucumberJvm.ParseStatusName` | models/cucumber_jvm.py:31 | Writing a status as its literal and reading it back yields the same status. |
| `CucumberJvm.FirstFailingIndex` | models/cucumber_jvm.py:127 | The result is absent exactly when every step passed, which includes having no steps. Otherwise it is the position of a step that did not pass, with every earlier step passed. |
| `CucumberJvm.FirstFailingUnique` | models/cucumber_jvm.py:127 | At most one position is the first non-passed one. |
| `CucumberJvm.FailingStep` | models/cucumber_jvm.py:127 | `failing_step` is `None` exactly when every step passed. Otherwise it is the first step in original order whose status is not "passed". |
| `CucumberJvm.SummarizeElement` | models/cucumber_jvm.py:126-141 | Fails exactly when some step has no duration. Otherwise: type, name, description, start_timestamp and id are copied; the tags are the tag names in order, or `[]` when the element has no tags or an empty list; failing_step is the first non-passed step, and absent exactly when all steps passed; the status is the failing step's status, and "passed" exactly when all steps passed; the duration is the sum of all step durations; the error message is always `None`. |
| `CucumberJvm.SummaryDurationCountsEveryStep` | models/cucumber_jvm.py:138 | For every step k, the summary's duration is the time before k, plus k's own time, plus the time after k. This holds for the steps after the failing one as well. |
| `CucumberJvm.SummarizeFeature` | models/cucumber_jvm.py:142-157 | Fails exactly when some element has a step without a duration. uri, id, line, keyword, name, description and tags are copied unchanged, even when no element is left. Without `only_errors` there is one summary per element, in order. With `only_errors` there are at most as many elements, and each has a failing step that did not pass and a non-passed status. |
| `CucumberJvm.OnlyErrorsFiltersElements` | models/cucumber_jvm.py:153-155 | `only_errors` changes neither whether summarizing fails nor any field but `elements`. Those elements are exactly the order-preserving subsequence of the full summaries that have a failing step. |
| `CucumberJvm.SummarizeFeatures` | models/cucumber_jvm.py:160 | Summarizing the features succeeds exactly when each feature does. The result then holds one summary per feature, in order. |
| `CucumberJvm.SummarizeCucumberReport` | models/cucumber_jvm.py:159-163 | Fails exactly when some step of some element of some feature has no duration. The output never has more features than the input. Without `only_errors`, feature i of the output summarizes input feature i. With `only_errors`, no output feature has an empty element list. |
| `CucumberJvm.OnlyErrorsReport` | models/cucumber_jvm.py:160-162 | `only_errors` does not change whether the report summary fails. With it, the output is exactly the order-preserving subsequence of the per-feature summaries that have elements. Every element of every output feature has a failing step that did not pass and a non-passed status. |
| `CucumberJvm.ExampleFailingSummary` | models/cucumber_jvm.py:126-141 | A scenario whose second of three steps fails gets that step as failing_step, the status "failed", the duration of all three steps and its tag names. |
| `CucumberJvm.ExamplePassingSummary` | models/cucumber_jvm.py:127 | A scenario whose steps all pass has no failing step. |
| `CucumberJvm.ExampleFeatureSummary` | models/cucumber_jvm.py:142-157 | With `only_errors`, a feature with one passing and one failing scenario keeps only the failing scenario's summary. |
| `CucumberJvm.OnlyErrorsExample` | models/cucumber_jvm.py:159-163 | Such a report, summarized with `only_errors`, has exactly one feature with exactly one element. That element's failing step has status "failed", and its duration is the sum of its three step durations. |
| `Aggregator.FirstPresent` | _old.py:5-12 | The early-returning search over a priority list finds nothing exactly when no listed status is present. Otherwise it returns a present status from the list. |
| `Aggregator.FirstPresentInPriority` | _old.py:5-12 | Over the fixed list, the search yields failed, skipped, pending or undefined: the first of them that is present, in that order. |
| `Aggregator.StatusSetAllPassed` | _old.py:2-3 | The set of feature statuses is exactly {passed} when there is at least one feature and every feature passed. |
| `Aggregator.ComputeStatus` | _old.py:1-13 | The status is failed if any feature failed. Otherwise it is skipped if one is skipped, then pending, then undefined. Otherwise it is unknown. Each case holds in both directions. The result is never passed. |
| `Aggregator.StatusDependsOnlyOnStatusSet` | _old.py:2 | Two batches with the same feature statuses, in any order and with any repetition, resolve to the same status. |
| `Aggregator.AllPassedResolvesToUnknown` | _old.py:3 | As written, a non-empty batch whose features all passed resolves to unknown. |
| `Aggregator.ComputeStatusIntended` | _old.py:3-4 | With the comparison repaired, the status is passed exactly when there is a feature and all features passed. In every other case it agrees with `ComputeStatus`. |
| `Aggregator.ComputeAggregateResults` | _old.py:16-27 | The status is the one `_compute_status` resolves for the batch, so it is never passed. The duration, nb_scenarii and nb_passed are the sums of the features' own `result` values. Empty input gives unknown, 0, 0, 0 and no start time. Otherwise the start time is the first feature's `aggregate_result.start_timestamp`. For one feature, the three counts are that feature's own values. |
| `Aggregator.AggregateAppend` | _old.py:21-26 | For two batches aggregated one after the other, the three sums add up and the pooled statuses are the union of both batches' statuses. The start time is that of the first batch, unless that batch is empty. |
| `Aggregator.AggregatePermutation` | _old.py:20-23 | Reordering the features changes neither the status nor the three sums. |
| `Aggregator.ComputeAggregateResultsIntended` | _old.py:19-20 | The repaired aggregate differs from `ComputeAggregateResults` only in its status. That status is passed exactly when the batch is non-empty and every feature passed. Whenever it is not passed, the whole aggregate equals the as-written one. |

## Findings

| source | as written | input that shows it | evidently intended | confidence | as-written member | corrected member |
|---|---|---|---|---|---|---|
| _old.py:3 | `all_status == [CucumberStatus.passed]` compares a set with a list. In Python these are never equal, so the "all passed" branch never runs. | One feature whose `result.status` is passed resolves to unknown instead of passed. | A batch whose only status is passed aggregates to passed. | high (not executed) | `Aggregator.AllPassedResolvesToUnknown` | `Aggregator.ComputeStatusIntended` |

## Left out

- The Pydantic validation of the decoded JSON (`CucumberReport.model_validate`, required fields, value shapes) is a library this model does not contain. The records are typed Dafny datatypes, and optional fields are `Option`. Only the status literals get a decoder (`ParseStatus`). The element type is the closed datatype `Background | Scenario`, without a decoder.
- The two `print` calls in `summarize_feature` (models/cucumber_jvm.py:154, 156) are debug output only.
- `Hook`, `Match`, `Argument`, `DocString`, `DataTableRow` and `LocationTag` are carried as values. No transformation inspects them.
- Serializing a summary back to JSON is done by the caller, so the encoding round trip is outside the core.
- Python's dynamic typing is not modelled: durations, counts and timestamps have fixed types (`int` and `string`). A `sum` over floats, or over values of mixed types, is not represented.
- `SummarizeElement`: the `TypeError` that `sum` raises is one error value, `MissingDuration`, without Python's message text.
- `ComputeAggregateResults`: the aggregate uses the status as written. The repaired status is used only by `ComputeAggregateResultsIntended`.
- The Streamlit pages (`streamlit_app.py`, `pages/test.py`): file upload, UTF-8 and JSON decoding, token counting, remote language-model calls, floating-point cost estimates, and the table of failing steps. All of this is I/O, remote calls or presentation.
