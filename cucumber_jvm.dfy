/**
 * The Cucumber-JVM JSON report (features, their scenarios and backgrounds, their steps and
 * each step's result) and the summarizer that shrinks a report to what characterizes its
 * failures: per element, the first step that did not pass, a derived verdict and the total
 * step time.
 */
module CucumberJvm {
  import opened Wrappers
  import opened Seqs

  // ---------------------------------------------------------------------------------------
  // Report model
  // ---------------------------------------------------------------------------------------

  datatype Location = Location(line: int, column: int)

  /** A feature-level tag, with its kind and where it appears in the feature file. */
  datatype LocationTag = LocationTag(name: string, tagType: string, location: Location)

  /** A scenario-level tag. */
  datatype Tag = Tag(name: string)

  datatype Argument = Argument(value: Option<string>, offset: Option<int>)

  /** The step definition a step or hook was bound to. */
  datatype Match = Match(location: Option<string>, arguments: Option<seq<Argument>>)

  /** The five status literals a step result may carry. */
  datatype StatusType = Passed | Failed | Skipped | Undefined | Pending

  datatype Result = Result(status: StatusType, duration: Option<int>, errorMessage: Option<string>)

  datatype Hook = Hook(matchInfo: Match, result: Result)

  datatype DocString = DocString(line: int, value: string, contentType: Option<string>)

  datatype DataTableRow = DataTableRow(cells: seq<string>)

  datatype Step = Step(
    keyword: string,
    line: int,
    name: string,
    result: Result,
    matchInfo: Option<Match>,
    docString: Option<DocString>,
    rows: Option<seq<DataTableRow>>)

  datatype ElementType = Background | Scenario

  datatype Element = Element(
    line: int,
    elementType: ElementType,
    keyword: string,
    name: string,
    description: string,
    steps: seq<Step>,
    startTimestamp: Option<string>,
    id: Option<string>,
    before: Option<seq<Hook>>,
    after: Option<seq<Hook>>,
    tags: Option<seq<Tag>>)

  datatype Feature = Feature(
    uri: string,
    id: string,
    line: int,
    keyword: string,
    name: string,
    description: string,
    elements: seq<Element>,
    tags: Option<seq<LocationTag>>)

  /** The whole report: the features in document order. */
  datatype CucumberReport = CucumberReport(root: seq<Feature>)

  /** The reduced view of an element: no steps, no hooks, a synthesized result. */
  datatype ElementSummary = ElementSummary(
    elementType: ElementType,
    name: string,
    description: string,
    startTimestamp: Option<string>,
    id: Option<string>,
    tags: Option<seq<string>>,
    result: Result,
    failingStep: Option<Step>)

  /** A feature whose elements are replaced by their summaries. */
  datatype FeatureSummary = FeatureSummary(
    uri: string,
    id: string,
    line: int,
    keyword: string,
    name: string,
    description: string,
    elements: seq<ElementSummary>,
    tags: Option<seq<LocationTag>>)

  datatype CucumberReportSummary = CucumberReportSummary(root: seq<FeatureSummary>)

  /** The exception a summary can raise: `sum` meets a step whose duration is `None`. */
  datatype SummaryError = MissingDuration

  // ---------------------------------------------------------------------------------------
  // Status literals
  // ---------------------------------------------------------------------------------------

  /** The JSON literal of a status. */
  function StatusName(status: StatusType): string
  {
    match status
    case Passed => "passed"
    case Failed => "failed"
    case Skipped => "skipped"
    case Undefined => "undefined"
    case Pending => "pending"
  }

  /** Reads a status literal; anything other than the five literals is rejected. */
  function ParseStatus(s: string): (r: Option<StatusType>)
    ensures r.Some? ==> StatusName(r.value) == s
    ensures r.None? ==> forall status :: StatusName(status) != s
  {
    if s == "passed" then Some(Passed)
    else if s == "failed" then Some(Failed)
    else if s == "skipped" then Some(Skipped)
    else if s == "undefined" then Some(Undefined)
    else if s == "pending" then Some(Pending)
    else None
  }

  /** Every status survives being written as its literal and read back. */
  lemma ParseStatusName(status: StatusType)
    ensures ParseStatus(StatusName(status)) == Some(status)
  {
  }

  // ---------------------------------------------------------------------------------------
  // First failing step
  // ---------------------------------------------------------------------------------------

  predicate StepPassed(step: Step)
  {
    step.result.status == Passed
  }

  predicate AllStepsPassed(steps: seq<Step>)
  {
    forall i :: 0 <= i < |steps| ==> StepPassed(steps[i])
  }

  /** Step `i` did not pass and every step before it did. */
  predicate IsFirstFailing(steps: seq<Step>, i: int)
  {
    0 <= i < |steps| && !StepPassed(steps[i]) && forall j :: 0 <= j < i ==> StepPassed(steps[j])
  }

  /** The position the generator in `summarize_element` stops at, if it stops at all. */
  function FirstFailingIndex(steps: seq<Step>): (r: Option<nat>)
    ensures r.None? <==> AllStepsPassed(steps)
    ensures r.Some? ==> IsFirstFailing(steps, r.value)
  {
    if steps == [] then None
    else if !StepPassed(steps[0]) then Some(0)
    else
      assert forall i :: 1 <= i < |steps| ==> steps[i] == steps[1..][i - 1];
      match FirstFailingIndex(steps[1..])
      case None => None
      case Some(i) => Some(i + 1)
  }

  /** At most one position is the first failing one. */
  lemma FirstFailingUnique(steps: seq<Step>, i: int, k: int)
    requires IsFirstFailing(steps, i) && IsFirstFailing(steps, k)
    ensures i == k
  {
  }

  /** The failing step of an element: the first step in order that did not pass, if any. */
  function FailingStep(steps: seq<Step>): (r: Option<Step>)
    ensures r.None? <==> AllStepsPassed(steps)
    ensures r.Some? ==> !StepPassed(r.value)
    ensures forall i :: IsFirstFailing(steps, i) ==> r == Some(steps[i])
  {
    match FirstFailingIndex(steps)
    case None => None
    case Some(i) => Some(steps[i])
  }

  // ---------------------------------------------------------------------------------------
  // Total duration
  // ---------------------------------------------------------------------------------------

  /** Every step carries a duration, so that `sum` over them does not raise. */
  predicate AllTimed(steps: seq<Step>)
  {
    forall i :: 0 <= i < |steps| ==> steps[i].result.duration.Some?
  }

  /**
   * A step's duration as `sum` adds it. Only summed when every step is timed (`AllTimed`):
   * the 0 for a missing duration never reaches a result, since `sum` raises instead.
   */
  function StepDuration(step: Step): int
  {
    if step.result.duration.Some? then step.result.duration.value else 0
  }

  // ---------------------------------------------------------------------------------------
  // Summarizer
  // ---------------------------------------------------------------------------------------

  /** The tag names, in order. */
  function TagNames(tags: seq<Tag>): (names: seq<string>)
  {
    seq(|tags|, k requires 0 <= k < |tags| => tags[k].name)
  }

  /**
   * `summarize_element`: the first non-passed step, a verdict derived from it, the time of
   * all steps together, the tag names; the error message of the failing step is not kept.
   */
  function SummarizeElement(e: Element): (r: Outcome<ElementSummary, SummaryError>)
    ensures r.Err? <==> !AllTimed(e.steps)
    ensures r.Ok? ==>
      && r.value.elementType == e.elementType
      && r.value.name == e.name
      && r.value.description == e.description
      && r.value.startTimestamp == e.startTimestamp
      && r.value.id == e.id
    ensures r.Ok? && (e.tags.None? || e.tags == Some([])) ==> r.value.tags == Some([])
    ensures r.Ok? && e.tags.Some? ==>
      && r.value.tags.Some?
      && |r.value.tags.value| == |e.tags.value|
      && forall k :: 0 <= k < |e.tags.value| ==> r.value.tags.value[k] == e.tags.value[k].name
    ensures r.Ok? ==> (r.value.failingStep.None? <==> AllStepsPassed(e.steps))
    ensures r.Ok? ==> forall i :: IsFirstFailing(e.steps, i) ==> r.value.failingStep == Some(e.steps[i])
    ensures r.Ok? && r.value.failingStep.Some? ==>
      && !StepPassed(r.value.failingStep.value)
      && r.value.result.status == r.value.failingStep.value.result.status
    ensures r.Ok? ==> (r.value.result.status == Passed <==> AllStepsPassed(e.steps))
    ensures r.Ok? ==> r.value.result.duration == Some(Sum(e.steps, StepDuration))
    ensures r.Ok? ==> r.value.result.errorMessage.None?
  {
    var failing := FailingStep(e.steps);
    if !AllTimed(e.steps) then Err(MissingDuration)
    else
      Ok(ElementSummary(
        elementType := e.elementType,
        name := e.name,
        description := e.description,
        startTimestamp := e.startTimestamp,
        id := e.id,
        tags := Some(if e.tags.Some? && e.tags.value != [] then TagNames(e.tags.value) else []),
        failingStep := failing,
        result := Result(
          status := if failing.Some? then failing.value.result.status else Passed,
          duration := Some(Sum(e.steps, StepDuration)),
          errorMessage := None)))
  }

  /**
   * The summary's duration counts every step, the ones after the failing step included:
   * it is the time before step `k`, plus step `k`'s time, plus the time after it.
   */
  lemma SummaryDurationCountsEveryStep(e: Element, k: nat)
    requires SummarizeElement(e).Ok?
    requires k < |e.steps|
    ensures SummarizeElement(e).value.result.duration ==
      Some(Sum(e.steps[..k], StepDuration) + e.steps[k].result.duration.value + Sum(e.steps[k + 1..], StepDuration))
  {
    var steps := e.steps;
    assert steps == steps[..k] + ([steps[k]] + steps[k + 1..]);
    SumAppend([steps[k]], steps[k + 1..], StepDuration);
    SumAppend(steps[..k], [steps[k]] + steps[k + 1..], StepDuration);
  }

  /** An element summary is kept by `only_errors` when it has a failing step. */
  predicate HasFailingStep(s: ElementSummary)
  {
    s.failingStep.Some?
  }

  /** A feature summary is kept by `only_errors` when it still has elements. */
  predicate HasElements(s: FeatureSummary)
  {
    s.elements != []
  }

  /**
   * `summarize_feature`: every element summarized in order, then, with `only_errors`, the
   * element list replaced by the summaries that have a failing step.
   */
  function SummarizeFeature(f: Feature, onlyErrors: bool): (r: Outcome<FeatureSummary, SummaryError>)
    ensures r.Err? <==> exists i :: 0 <= i < |f.elements| && !AllTimed(f.elements[i].steps)
    ensures r.Ok? ==>
      && r.value.uri == f.uri
      && r.value.id == f.id
      && r.value.line == f.line
      && r.value.keyword == f.keyword
      && r.value.name == f.name
      && r.value.description == f.description
      && r.value.tags == f.tags
    ensures r.Ok? && !onlyErrors ==>
      && |r.value.elements| == |f.elements|
      && forall i :: 0 <= i < |f.elements| ==> r.value.elements[i] == SummarizeElement(f.elements[i]).value
    ensures r.Ok? && onlyErrors ==>
      && |r.value.elements| <= |f.elements|
      && forall i :: 0 <= i < |r.value.elements| ==>
           && HasFailingStep(r.value.elements[i])
           && !StepPassed(r.value.elements[i].failingStep.value)
           && r.value.elements[i].result.status != Passed
  {
    match MapAll(f.elements, SummarizeElement)
    case Err(e) => Err(e)
    case Ok(summaries) =>
      var full := FeatureSummary(
        uri := f.uri,
        id := f.id,
        line := f.line,
        keyword := f.keyword,
        name := f.name,
        description := f.description,
        tags := f.tags,
        elements := summaries);
      Ok(if onlyErrors then full.(elements := Filter(summaries, HasFailingStep)) else full)
  }

  /**
   * With `only_errors` the feature summary is the full one with its elements narrowed to the
   * order-preserving subsequence of those that have a failing step, and nothing else changed.
   */
  lemma OnlyErrorsFiltersElements(f: Feature)
    ensures SummarizeFeature(f, true).Ok? <==> SummarizeFeature(f, false).Ok?
    ensures SummarizeFeature(f, true).Ok? ==>
      var full := SummarizeFeature(f, false).value;
      var kept := SummarizeFeature(f, true).value;
      && kept == full.(elements := kept.elements)
      && kept.elements == Filter(full.elements, HasFailingStep)
      && IsSubsequence(kept.elements, full.elements)
      && |kept.elements| == Count(full.elements, HasFailingStep)
  {
  }

  /** The per-feature summaries of a report, before empty features are dropped. */
  function SummarizeFeatures(features: seq<Feature>, onlyErrors: bool): (r: Outcome<seq<FeatureSummary>, SummaryError>)
    ensures r.Ok? <==> forall i :: 0 <= i < |features| ==> SummarizeFeature(features[i], onlyErrors).Ok?
    ensures r.Ok? ==>
      && |r.value| == |features|
      && forall i :: 0 <= i < |features| ==> r.value[i] == SummarizeFeature(features[i], onlyErrors).value
  {
    MapAll(features, f => SummarizeFeature(f, onlyErrors))
  }

  /**
   * `summarize_cucumber_report`: every feature summarized in order, then, with `only_errors`,
   * the features left without elements dropped.
   */
  function SummarizeCucumberReport(report: CucumberReport, onlyErrors: bool): (r: Outcome<CucumberReportSummary, SummaryError>)
    ensures r.Err? <==> exists i, j ::
      0 <= i < |report.root| && 0 <= j < |report.root[i].elements| && !AllTimed(report.root[i].elements[j].steps)
    ensures r.Ok? ==> |r.value.root| <= |report.root|
    ensures r.Ok? && !onlyErrors ==>
      && |r.value.root| == |report.root|
      && forall i :: 0 <= i < |report.root| ==> r.value.root[i] == SummarizeFeature(report.root[i], false).value
    ensures r.Ok? && onlyErrors ==> forall i :: 0 <= i < |r.value.root| ==> r.value.root[i].elements != []
  {
    match SummarizeFeatures(report.root, onlyErrors)
    case Err(e) => Err(e)
    case Ok(summaries) =>
      var full := CucumberReportSummary(summaries);
      Ok(if onlyErrors then full.(root := Filter(summaries, HasElements)) else full)
  }

  /** Every element of a feature summary has a failing step that did not pass. */
  predicate OnlyFailingElements(s: FeatureSummary)
  {
    forall j :: 0 <= j < |s.elements| ==>
      && s.elements[j].failingStep.Some?
      && !StepPassed(s.elements[j].failingStep.value)
      && s.elements[j].result.status != Passed
  }

  /** With `only_errors`, each per-feature summary keeps only elements with a failing step. */
  lemma FeatureSummariesOnlyFailing(features: seq<Feature>)
    requires SummarizeFeatures(features, true).Ok?
    ensures forall k :: 0 <= k < |SummarizeFeatures(features, true).value| ==>
      OnlyFailingElements(SummarizeFeatures(features, true).value[k])
  {
    var summaries := SummarizeFeatures(features, true).value;
    forall k | 0 <= k < |summaries| ensures OnlyFailingElements(summaries[k]) {
      assert summaries[k] == SummarizeFeature(features[k], true).value;
    }
  }

  /** With `only_errors` the report keeps the per-feature summaries that have elements. */
  lemma OnlyErrorsKeepsFeaturesWithElements(report: CucumberReport)
    ensures SummarizeCucumberReport(report, true).Ok? ==>
      && SummarizeFeatures(report.root, true).Ok?
      && SummarizeCucumberReport(report, true).value.root ==
           Filter(SummarizeFeatures(report.root, true).value, HasElements)
  {
  }

  /** With `only_errors` every feature the report keeps has only failing elements. */
  lemma OnlyErrorsKeepsFailingElements(report: CucumberReport)
    ensures SummarizeCucumberReport(report, true).Ok? ==>
      forall i :: 0 <= i < |SummarizeCucumberReport(report, true).value.root| ==>
        OnlyFailingElements(SummarizeCucumberReport(report, true).value.root[i])
  {
    if SummarizeCucumberReport(report, true).Ok? {
      OnlyErrorsKeepsFeaturesWithElements(report);
      var summaries := SummarizeFeatures(report.root, true).value;
      var kept := SummarizeCucumberReport(report, true).value.root;
      FeatureSummariesOnlyFailing(report.root);
      forall i | 0 <= i < |kept| ensures OnlyFailingElements(kept[i]) {
        var k :| 0 <= k < |summaries| && summaries[k] == kept[i];
      }
    }
  }

  /**
   * With `only_errors` the report summary is the order-preserving subsequence of the
   * per-feature summaries that still have elements, and every element left in it has a
   * failing step whose status is not "passed".
   */
  lemma OnlyErrorsReport(report: CucumberReport)
    ensures SummarizeCucumberReport(report, true).Ok? <==> SummarizeCucumberReport(report, false).Ok?
    ensures SummarizeCucumberReport(report, true).Ok? ==>
      var kept := SummarizeCucumberReport(report, true).value.root;
      var summaries := SummarizeFeatures(report.root, true).value;
      && kept == Filter(summaries, HasElements)
      && IsSubsequence(kept, summaries)
      && |kept| == Count(summaries, HasElements)
    ensures SummarizeCucumberReport(report, true).Ok? ==>
      var kept := SummarizeCucumberReport(report, true).value.root;
      forall i, j :: 0 <= i < |kept| && 0 <= j < |kept[i].elements| ==>
        && kept[i].elements[j].failingStep.Some?
        && !StepPassed(kept[i].elements[j].failingStep.value)
        && kept[i].elements[j].result.status != Passed
  {
    if SummarizeCucumberReport(report, true).Ok? {
      OnlyErrorsKeepsFeaturesWithElements(report);
      OnlyErrorsKeepsFailingElements(report);
    }
  }

  // ---------------------------------------------------------------------------------------
  // A worked example
  // ---------------------------------------------------------------------------------------

  function ExampleStep(line: int, status: StatusType, duration: int): Step
  {
    Step("Given ", line, "step " , Result(status, Some(duration), None), None, None, None)
  }

  function ExampleScenario(line: int, steps: seq<Step>): Element
  {
    Element(line, Scenario, "Scenario", "scenario", "", steps, None, None, None, None, Some([Tag("@smoke")]))
  }

  function ExamplePassing(d1: int, d2: int, d3: int): Element
  {
    ExampleScenario(2, [ExampleStep(3, Passed, d1), ExampleStep(4, Passed, d2), ExampleStep(5, Passed, d3)])
  }

  function ExampleFailing(d1: int, d3: int): Element
  {
    ExampleScenario(7, [ExampleStep(8, Passed, d1), ExampleStep(9, Failed, 50), ExampleStep(10, Skipped, d3)])
  }

  function ExampleFeature(d1: int, d2: int, d3: int): Feature
  {
    Feature("login.feature", "login", 1, "Feature", "Login", "", [ExamplePassing(d1, d2, d3), ExampleFailing(d1, d3)], None)
  }

  /** The failing scenario stops at its second step and takes the time of all three. */
  lemma ExampleFailingSummary(d1: int, d3: int)
    ensures SummarizeElement(ExampleFailing(d1, d3)).Ok?
    ensures
      var summary := SummarizeElement(ExampleFailing(d1, d3)).value;
      && summary.failingStep == Some(ExampleStep(9, Failed, 50))
      && summary.result == Result(Failed, Some(d1 + 50 + d3), None)
      && summary.tags == Some(["@smoke"])
  {
    var steps := ExampleFailing(d1, d3).steps;
    assert IsFirstFailing(steps, 1);
    assert steps[1..][1..][1..] == [];
    assert Sum(steps[1..][1..], StepDuration) == d3;
    assert Sum(steps[1..], StepDuration) == 50 + d3;
    var tags := SummarizeElement(ExampleFailing(d1, d3)).value.tags.value;
    assert |tags| == 1 && tags[0] == "@smoke";
    assert tags == ["@smoke"];
  }

  /** The passing scenario has no failing step. */
  lemma ExamplePassingSummary(d1: int, d2: int, d3: int)
    ensures SummarizeElement(ExamplePassing(d1, d2, d3)).Ok?
    ensures SummarizeElement(ExamplePassing(d1, d2, d3)).value.failingStep.None?
  {
    assert AllStepsPassed(ExamplePassing(d1, d2, d3).steps);
  }

  /** With `only_errors` the example feature keeps only its failing scenario. */
  lemma ExampleFeatureSummary(d1: int, d2: int, d3: int)
    ensures SummarizeFeature(ExampleFeature(d1, d2, d3), true).Ok?
    ensures SummarizeFeature(ExampleFeature(d1, d2, d3), true).value.elements ==
      [SummarizeElement(ExampleFailing(d1, d3)).value]
  {
    var feature := ExampleFeature(d1, d2, d3);
    ExampleFailingSummary(d1, d3);
    ExamplePassingSummary(d1, d2, d3);
    var passed := SummarizeElement(ExamplePassing(d1, d2, d3)).value;
    var failed := SummarizeElement(ExampleFailing(d1, d3)).value;
    var full := SummarizeFeature(feature, false).value;
    assert full.elements == [passed, failed];
    assert Filter([passed, failed], HasFailingStep) == [failed] by {
      assert [passed, failed][1..] == [failed];
      assert [failed][1..] == [];
    }
    OnlyErrorsFiltersElements(feature);
  }

  /** With `only_errors` a one-feature report keeps its feature when that still has an element. */
  lemma SingleFeatureReport(f: Feature)
    ensures SummarizeFeature(f, true).Ok? && SummarizeFeature(f, true).value.elements != [] ==>
      SummarizeCucumberReport(CucumberReport([f]), true) ==
        Ok(CucumberReportSummary([SummarizeFeature(f, true).value]))
  {
    if SummarizeFeature(f, true).Ok? && SummarizeFeature(f, true).value.elements != [] {
      var kept := SummarizeFeature(f, true).value;
      assert SummarizeFeatures([f], true).Ok?;
      assert SummarizeFeatures([f], true).value == [kept];
      assert Filter([kept], HasElements) == [kept] by {
        assert [kept][1..] == [];
      }
    }
  }

  /**
   * A feature with a scenario whose three steps pass and a scenario whose second step fails
   * after 50 time units: with `only_errors` the report keeps that one feature and in it only
   * the failing scenario, whose verdict is "failed" and whose duration counts all three steps.
   */
  lemma OnlyErrorsExample(d1: int, d2: int, d3: int)
    ensures SummarizeCucumberReport(CucumberReport([ExampleFeature(d1, d2, d3)]), true).Ok?
    ensures
      var root := SummarizeCucumberReport(CucumberReport([ExampleFeature(d1, d2, d3)]), true).value.root;
      && |root| == 1
      && |root[0].elements| == 1
      && root[0].elements[0].failingStep == Some(ExampleStep(9, Failed, 50))
      && root[0].elements[0].result == Result(Failed, Some(d1 + 50 + d3), None)
      && root[0].elements[0].tags == Some(["@smoke"])
  {
    ExampleFeatureSummary(d1, d2, d3);
    SingleFeatureReport(ExampleFeature(d1, d2, d3));
    ExampleFailingSummary(d1, d3);
  }
}
