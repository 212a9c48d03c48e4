/**
 * The aggregator: rolls a batch of features up into one result, with a status chosen by a
 * fixed priority among the features' own statuses, summed durations and counts, and the
 * start time of the first feature.
 */
module Aggregator {
  import opened Wrappers
  import opened Seqs

  /** A feature's status; `Unknown` is what the aggregate falls back to. */
  datatype CucumberStatus = Passed | Failed | Skipped | Pending | Undefined | Unknown

  /** The rolled-up result a feature already carries. */
  datatype FeatureResult = FeatureResult(status: CucumberStatus, duration: int, nbScenarii: int, nbPassed: int)

  /** The part of a feature's aggregate the batch aggregate reads: its start time. */
  datatype FeatureAggregate = FeatureAggregate(startTimestamp: Option<string>)

  datatype CucumberFeature = CucumberFeature(result: FeatureResult, aggregateResult: FeatureAggregate)

  datatype CucumberAggregatedResult = CucumberAggregatedResult(
    status: CucumberStatus,
    duration: int,
    nbScenarii: int,
    nbPassed: int,
    startTimestamp: Option<string>)

  // ---------------------------------------------------------------------------------------
  // Status resolution
  // ---------------------------------------------------------------------------------------

  /** The distinct statuses of the features. */
  function StatusSet(features: seq<CucumberFeature>): set<CucumberStatus>
  {
    set f | f in features :: f.result.status
  }

  /** Python's `==` between a set and a list: values of different types never compare equal. */
  function SetEqualsList(s: set<CucumberStatus>, l: seq<CucumberStatus>): bool
  {
    false
  }

  /** The statuses the aggregate looks for, most important first. */
  const StatusPriority: seq<CucumberStatus> := [Failed, Skipped, Pending, Undefined]

  /** The first status of `priority` that is among `present`, as the early-returning loop finds it. */
  function FirstPresent(priority: seq<CucumberStatus>, present: set<CucumberStatus>): (r: Option<CucumberStatus>)
    ensures r.None? <==> forall i :: 0 <= i < |priority| ==> priority[i] !in present
    ensures r.Some? ==> r.value in present && r.value in priority
  {
    if priority == [] then None
    else if priority[0] in present then Some(priority[0])
    else
      assert forall i :: 1 <= i < |priority| ==> priority[i] == priority[1..][i - 1];
      FirstPresent(priority[1..], present)
  }

  /** Searching the fixed priority list tries failed, skipped, pending and undefined in turn. */
  lemma FirstPresentInPriority(present: set<CucumberStatus>)
    ensures FirstPresent(StatusPriority, present) ==
      if Failed in present then Some(Failed)
      else if Skipped in present then Some(Skipped)
      else if Pending in present then Some(Pending)
      else if Undefined in present then Some(Undefined)
      else None
  {
    assert [Undefined][1..] == [];
    assert FirstPresent([Undefined], present) == if Undefined in present then Some(Undefined) else None;
    assert [Pending, Undefined][1..] == [Undefined];
    assert FirstPresent([Pending, Undefined], present) ==
      if Pending in present then Some(Pending) else FirstPresent([Undefined], present);
    assert [Skipped, Pending, Undefined][1..] == [Pending, Undefined];
    assert FirstPresent([Skipped, Pending, Undefined], present) ==
      if Skipped in present then Some(Skipped) else FirstPresent([Pending, Undefined], present);
    assert StatusPriority[1..] == [Skipped, Pending, Undefined];
  }

  /** The features' statuses are exactly `{passed}` when there is a feature and all passed. */
  lemma StatusSetAllPassed(features: seq<CucumberFeature>)
    ensures StatusSet(features) == {Passed} <==>
      features != [] && forall i :: 0 <= i < |features| ==> features[i].result.status == Passed
  {
    if features != [] && forall i :: 0 <= i < |features| ==> features[i].result.status == Passed {
      assert features[0] in features;
      assert forall status :: status in StatusSet(features) ==> status == Passed;
    }
    if StatusSet(features) == {Passed} {
      assert features != [];
      forall i | 0 <= i < |features| ensures features[i].result.status == Passed {
        assert features[i] in features;
        assert features[i].result.status in StatusSet(features);
      }
    }
  }

  /**
   * `_compute_status`, as written: the all-passed test compares a set with a list and never
   * holds, so only the priority search decides.
   */
  function ComputeStatus(features: seq<CucumberFeature>): (r: CucumberStatus)
    ensures r == Failed <==> Failed in StatusSet(features)
    ensures r == Skipped <==> Failed !in StatusSet(features) && Skipped in StatusSet(features)
    ensures r == Pending <==>
      Failed !in StatusSet(features) && Skipped !in StatusSet(features) && Pending in StatusSet(features)
    ensures r == Undefined <==>
      Failed !in StatusSet(features) && Skipped !in StatusSet(features) && Pending !in StatusSet(features)
      && Undefined in StatusSet(features)
    ensures r == Unknown <==>
      Failed !in StatusSet(features) && Skipped !in StatusSet(features) && Pending !in StatusSet(features)
      && Undefined !in StatusSet(features)
    ensures r != Passed
  {
    var allStatus := StatusSet(features);
    if SetEqualsList(allStatus, [Passed]) then Passed
    else
      FirstPresentInPriority(allStatus);
      match FirstPresent(StatusPriority, allStatus)
      case Some(status) => status
      case None => Unknown
  }

  /** Batches whose statuses match feature for feature pool the same set of statuses. */
  lemma StatusSetsEqual(a: seq<CucumberFeature>, b: seq<CucumberFeature>)
    requires forall f :: f in a ==> exists g :: g in b && g.result.status == f.result.status
    requires forall g :: g in b ==> exists f :: f in a && f.result.status == g.result.status
    ensures StatusSet(a) == StatusSet(b)
  {
  }

  /** Batches made of the same features pool the same set of statuses. */
  lemma SameFeaturesSameStatusSet(a: seq<CucumberFeature>, b: seq<CucumberFeature>)
    requires forall f :: f in a ==> f in b
    requires forall g :: g in b ==> g in a
    ensures StatusSet(a) == StatusSet(b)
  {
  }

  /** Features with the same statuses, in any order and with any repetition, resolve alike. */
  lemma StatusDependsOnlyOnStatusSet(a: seq<CucumberFeature>, b: seq<CucumberFeature>)
    requires forall f :: f in a ==> exists g :: g in b && g.result.status == f.result.status
    requires forall g :: g in b ==> exists f :: f in a && f.result.status == g.result.status
    ensures ComputeStatus(a) == ComputeStatus(b)
  {
    StatusSetsEqual(a, b);
  }

  /** As written, a non-empty batch whose features all passed resolves to `Unknown`. */
  lemma AllPassedResolvesToUnknown(features: seq<CucumberFeature>)
    requires features != []
    requires forall i :: 0 <= i < |features| ==> features[i].result.status == Passed
    ensures ComputeStatus(features) == Unknown
  {
    StatusSetAllPassed(features);
  }

  /** `_compute_status` with the all-passed test comparing against the set `{passed}`. */
  function ComputeStatusIntended(features: seq<CucumberFeature>): (r: CucumberStatus)
    ensures r == Passed <==> features != [] && forall i :: 0 <= i < |features| ==> features[i].result.status == Passed
    ensures r != Passed ==> r == ComputeStatus(features)
  {
    var allStatus := StatusSet(features);
    StatusSetAllPassed(features);
    if allStatus == {Passed} then Passed else ComputeStatus(features)
  }

  // ---------------------------------------------------------------------------------------
  // Aggregate
  // ---------------------------------------------------------------------------------------

  function DurationOf(f: CucumberFeature): int { f.result.duration }

  function ScenariiOf(f: CucumberFeature): int { f.result.nbScenarii }

  function PassedOf(f: CucumberFeature): int { f.result.nbPassed }

  /** The aggregate of `features` under a given status. */
  function AggregateWith(features: seq<CucumberFeature>, status: CucumberStatus): CucumberAggregatedResult
  {
    CucumberAggregatedResult(
      status := status,
      duration := Sum(features, DurationOf),
      nbScenarii := Sum(features, ScenariiOf),
      nbPassed := Sum(features, PassedOf),
      startTimestamp := if features == [] then None else features[0].aggregateResult.startTimestamp)
  }

  /** `compute_aggregate_results`. */
  function ComputeAggregateResults(features: seq<CucumberFeature>): (r: CucumberAggregatedResult)
    ensures features == [] ==> r == CucumberAggregatedResult(Unknown, 0, 0, 0, None)
    ensures features != [] ==> r.startTimestamp == features[0].aggregateResult.startTimestamp
    ensures |features| == 1 ==>
      && r.duration == features[0].result.duration
      && r.nbScenarii == features[0].result.nbScenarii
      && r.nbPassed == features[0].result.nbPassed
    ensures r.status == ComputeStatus(features)
    ensures r.status != Passed
    ensures r.duration == Sum(features, DurationOf)
    ensures r.nbScenarii == Sum(features, ScenariiOf)
    ensures r.nbPassed == Sum(features, PassedOf)
  {
    assert |features| == 1 ==>
      && features[1..] == []
      && Sum(features[1..], DurationOf) == 0
      && Sum(features[1..], ScenariiOf) == 0
      && Sum(features[1..], PassedOf) == 0;
    AggregateWith(features, ComputeStatus(features))
  }

  /**
   * Aggregating two batches one after the other: the sums add up, the statuses pooled are
   * the union of the two, and the start time is that of the first non-empty batch.
   */
  lemma AggregateAppend(a: seq<CucumberFeature>, b: seq<CucumberFeature>)
    ensures StatusSet(a + b) == StatusSet(a) + StatusSet(b)
    ensures ComputeAggregateResults(a + b).duration ==
      ComputeAggregateResults(a).duration + ComputeAggregateResults(b).duration
    ensures ComputeAggregateResults(a + b).nbScenarii ==
      ComputeAggregateResults(a).nbScenarii + ComputeAggregateResults(b).nbScenarii
    ensures ComputeAggregateResults(a + b).nbPassed ==
      ComputeAggregateResults(a).nbPassed + ComputeAggregateResults(b).nbPassed
    ensures ComputeAggregateResults(a + b).startTimestamp ==
      if a != [] then ComputeAggregateResults(a).startTimestamp else ComputeAggregateResults(b).startTimestamp
  {
    SumAppend(a, b, DurationOf);
    SumAppend(a, b, ScenariiOf);
    SumAppend(a, b, PassedOf);
    if a == [] {
      assert a + b == b;
    }
  }

  /** Reordering the features changes neither the status nor the three sums. */
  lemma AggregatePermutation(a: seq<CucumberFeature>, b: seq<CucumberFeature>)
    requires multiset(a) == multiset(b)
    ensures ComputeAggregateResults(a).status == ComputeAggregateResults(b).status
    ensures ComputeAggregateResults(a).duration == ComputeAggregateResults(b).duration
    ensures ComputeAggregateResults(a).nbScenarii == ComputeAggregateResults(b).nbScenarii
    ensures ComputeAggregateResults(a).nbPassed == ComputeAggregateResults(b).nbPassed
  {
    forall f | f in a ensures f in b {
      assert f in multiset(a);
    }
    forall g | g in b ensures g in a {
      assert g in multiset(b);
    }
    SameFeaturesSameStatusSet(a, b);
    SumPermutation(a, b, DurationOf);
    SumPermutation(a, b, ScenariiOf);
    SumPermutation(a, b, PassedOf);
  }

  /** `compute_aggregate_results` with the all-passed test repaired; only the status differs. */
  function ComputeAggregateResultsIntended(features: seq<CucumberFeature>): (r: CucumberAggregatedResult)
    ensures r == ComputeAggregateResults(features).(status := r.status)
    ensures r.status != Passed ==> r == ComputeAggregateResults(features)
    ensures r.status == Passed <==>
      features != [] && forall i :: 0 <= i < |features| ==> features[i].result.status == Passed
  {
    AggregateWith(features, ComputeStatusIntended(features))
  }
}
