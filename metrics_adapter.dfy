/**
  The simple metrics collector: an append-only history of metric records (a
  pipeline run, the business metrics of a batch, the data quality of a run) and
  a summary over that history.

  The timestamp of each record, the log lines and the optional copy of each
  record to a file are not part of this model. Nothing the three recording
  operations compute can raise here, so the `except` branches that log and
  swallow an exception do not occur in the model.
*/
module SimpleMetrics {
  import opened Wrappers
  import opened Rounding
  import opened Grouping
  import opened Shipments
  import EtlService

  /** How many validation errors carry each `'type'` entry, in first-encounter order. */
  type ErrorTypeCounts = OrderedMap<string, nat>

  /** One record of the history; its constructor is its `'metric_type'`. */
  datatype Metric =
    | PipelineRun(
        recordsProcessed: int,
        processingTimeSeconds: real,
        success: bool,
        throughputRecordsPerSecond: real)
    | BusinessMetrics(
        totalShipments: nat,
        profitableShipments: nat,
        highMarginShipments: nat,
        delayedShipments: nat,
        profitabilityRate: real,
        highMarginRate: real,
        delayedRate: real,
        totalRevenue: real,
        totalCost: real,
        totalProfit: real,
        avgProfitMargin: real)
    | DataQuality(
        totalRecords: int,
        validRecords: int,
        invalidRecords: int,
        dataQualityRate: real,
        errorRate: real,
        errorTypes: ErrorTypeCounts,
        totalValidationErrors: nat)

  datatype Kind = PipelineRunKind | BusinessMetricsKind | DataQualityKind

  function KindOf(m: Metric): Kind {
    match m
    case PipelineRun(_, _, _, _) => PipelineRunKind
    case BusinessMetrics(_, _, _, _, _, _, _, _, _, _, _) => BusinessMetricsKind
    case DataQuality(_, _, _, _, _, _, _) => DataQualityKind
  }


  // ---------------------------------------------------------------------------
  // The three records
  // ---------------------------------------------------------------------------

  /** `records / seconds if seconds > 0 else 0`. */
  function Throughput(records: int, seconds: real): (r: real)
    ensures seconds <= 0.0 ==> r == 0.0
    ensures seconds > 0.0 ==> r * seconds == records as real
  {
    if seconds > 0.0 then records as real / seconds else 0.0
  }

  function PipelineRunMetric(recordsProcessed: int, processingTimeSeconds: real, success: bool): (m: Metric)
    ensures KindOf(m) == PipelineRunKind
    ensures m.recordsProcessed == recordsProcessed && m.processingTimeSeconds == processingTimeSeconds && m.success == success
    ensures processingTimeSeconds > 0.0 ==> m.throughputRecordsPerSecond * processingTimeSeconds == recordsProcessed as real
    ensures processingTimeSeconds <= 0.0 ==> m.throughputRecordsPerSecond == 0.0
  {
    PipelineRun(recordsProcessed, processingTimeSeconds, success, Throughput(recordsProcessed, processingTimeSeconds))
  }

  /**
    The business record of a batch; `None` for an empty batch, for which
    nothing is recorded. The average margin divides by the whole batch.
  */
  function BusinessMetricOf(ss: seq<Shipment>): (m: Option<Metric>)
    ensures m.None? <==> ss == []
    ensures m.Some? ==>
      && KindOf(m.value) == BusinessMetricsKind
      && m.value.totalShipments == |ss|
      && m.value.profitableShipments <= |ss|
      && m.value.highMarginShipments <= |ss|
      && m.value.delayedShipments <= |ss|
      && 0.0 <= m.value.profitabilityRate <= 100.0
      && 0.0 <= m.value.highMarginRate <= 100.0
      && 0.0 <= m.value.delayedRate <= 100.0
      && m.value.totalProfit == m.value.totalRevenue - m.value.totalCost
  {
    if ss == [] then None
    else
      var n := |ss|;
      var profitable := CountIf(ss, Profitable);
      var highMargin := CountIf(ss, HighMargin);
      var delayed := CountIf(ss, Delayed);
      var revenue := SumOf(ss, Revenue);
      var cost := SumOf(ss, Cost);
      Some(BusinessMetrics(
        n, profitable, highMargin, delayed,
        Rate(profitable, n), Rate(highMargin, n), Rate(delayed, n),
        revenue, cost, revenue - cost,
        Round2(SumOf(ss, Margin) / n as real)))
  }

  /** The collector's business record agrees, field by field, with the business metrics of the ETL summary. */
  lemma BusinessMetricAgreesWithSummary(ss: seq<Shipment>)
    requires ss != []
    ensures
      var m := BusinessMetricOf(ss).value;
      var b := EtlService.CalculateBusinessMetrics(ss).value;
      && m.totalShipments == b.totalShipments
      && m.profitableShipments == b.profitableShipments
      && m.highMarginShipments == b.highMarginShipments
      && m.delayedShipments == b.delayedShipments
      && m.profitabilityRate == b.profitabilityRate
      && m.highMarginRate == b.highMarginRate
      && m.delayedRate == b.delayedRate
      && m.totalRevenue == b.totalRevenue
      && m.totalCost == b.totalCost
      && m.totalProfit == b.totalProfit
      && m.avgProfitMargin == b.avgProfitMargin
  {
  }

  /** The key under which a validation error is counted: its `'type'`, or `"unknown"`. */
  function ErrorTypeKey(e: ValidationError): string {
    e.errorType.GetOr("unknown")
  }

  function Tally(n: nat, e: ValidationError): nat { n + 1 }

  /** The error-type table: each type met, in first-encounter order, with the number of errors of that type. */
  function ErrorTypes(errors: seq<ValidationError>): (t: ErrorTypeCounts)
    ensures WellFormed(t)
    ensures forall k :: k in t.entries <==> exists e :: e in errors && ErrorTypeKey(e) == k
  {
    var keys := KeysInOrder(errors, ErrorTypeKey);
    OrderedMap(keys, map k | k in keys :: |Group(errors, ErrorTypeKey, k)|)
  }

  function Count(n: nat): nat { n }

  /** The counts of the error-type table add up to the number of errors. */
  lemma ErrorTypesCountEveryError(errors: seq<ValidationError>)
    ensures SumValues(ErrorTypes(errors).entries, ErrorTypes(errors).keys, Count) == |errors|
  {
    var t := ErrorTypes(errors);
    SumValuesOfGroups(t.entries, t.keys, Count, errors, ErrorTypeKey);
    Partition(errors, ErrorTypeKey);
  }

  lemma {:induction false} FoldTally(g: seq<ValidationError>)
    ensures Fold(g, 0, Tally) == |g|
  {
    if g != [] {
      FoldTally(g[..|g| - 1]);
    }
  }

  /** A table that tallies every error by its type is the error-type table. */
  lemma TallyIsErrorTypes(counts: ErrorTypeCounts, errors: seq<ValidationError>)
    requires Aggregates(counts, errors, ErrorTypeKey, 0, Tally)
    ensures counts == ErrorTypes(errors)
  {
    var t := ErrorTypes(errors);
    forall i | 0 <= i < |counts.keys|
      ensures counts.entries[counts.keys[i]] == t.entries[counts.keys[i]]
    {
      FoldTally(Group(errors, ErrorTypeKey, counts.keys[i]));
    }
    SameEntries(counts, t);
  }

  /** The counting loop over the validation errors. */
  method CountErrorTypes(errors: seq<ValidationError>) returns (counts: ErrorTypeCounts)
    ensures counts == ErrorTypes(errors)
  {
    counts := OrderedMap([], map[]);
    for i := 0 to |errors|
      invariant Aggregates(counts, errors[..i], ErrorTypeKey, 0, Tally)
    {
      var e := errors[i];
      AggregatesStep(counts, errors[..i], ErrorTypeKey, 0, Tally, e);
      assert errors[..i + 1] == errors[..i] + [e];
      // error_types[k] = error_types.get(k, 0) + 1
      var k := ErrorTypeKey(e);
      counts := Update(EnsureKey(counts, k, 0), k, Tally, e);
    }
    assert errors[..|errors|] == errors;
    TallyIsErrorTypes(counts, errors);
  }

  /** `part / whole * 100 if whole > 0 else 0`. */
  function Percent(part: int, whole: int): (r: real)
    ensures whole <= 0 ==> r == 0.0
    ensures 0 <= part <= whole ==> 0.0 <= r <= 100.0
  {
    if whole > 0 then
      var q := part as real / whole as real;
      assert 0 <= part <= whole ==> 0.0 <= q <= 1.0;
      q * 100.0
    else 0.0
  }

  /** The data-quality record; both rates are 0 when there are no records. */
  function DataQualityMetric(totalRecords: int, validRecords: int, errors: seq<ValidationError>): (m: Metric)
    ensures KindOf(m) == DataQualityKind
    ensures m.invalidRecords == totalRecords - validRecords
    ensures m.totalValidationErrors == |errors|
    ensures m.errorTypes == ErrorTypes(errors)
    ensures totalRecords <= 0 ==> m.dataQualityRate == 0.0 && m.errorRate == 0.0
    ensures 0 <= validRecords <= totalRecords ==> 0.0 <= m.dataQualityRate <= 100.0 && 0.0 <= m.errorRate <= 100.0
  {
    DataQuality(totalRecords, validRecords, totalRecords - validRecords,
                Round2(Percent(validRecords, totalRecords)), Round2(Percent(totalRecords - validRecords, totalRecords)),
                ErrorTypes(errors), |errors|)
  }

  /** The share of a part and the share of the rest make the whole. */
  lemma PercentComplement(part: int, whole: int)
    requires whole > 0
    ensures Percent(part, whole) + Percent(whole - part, whole) == 100.0
  {
    var w := whole as real;
    var a := part as real;
    var inv := 1.0 / w;
    assert a / w == a * inv;
    assert (w - a) / w == (w - a) * inv;
    assert a * inv + (w - a) * inv == w * inv;
  }

  /** With some records, the two rates are complementary up to their rounding. */
  lemma RatesComplement(totalRecords: int, validRecords: int, errors: seq<ValidationError>)
    requires totalRecords > 0
    ensures
      var m := DataQualityMetric(totalRecords, validRecords, errors);
      99.99 <= m.dataQualityRate + m.errorRate <= 100.01
  {
    PercentComplement(validRecords, totalRecords);
  }

  // ---------------------------------------------------------------------------
  // The summary
  // ---------------------------------------------------------------------------

  datatype MetricsSummary = MetricsSummary(
    totalMetricsCollected: nat,
    pipelineRunsCount: nat,
    businessMetricsCount: nat,
    dataQualityMetricsCount: nat,
    latestPipelineRun: Option<Metric>,
    latestBusinessMetrics: Option<Metric>,
    latestDataQuality: Option<Metric>)

  /** The history records whose `'metric_type'` is that of kind `k`, in order. */
  function OfKind(history: seq<Metric>, k: Kind): (ms: seq<Metric>)
    ensures |ms| <= |history|
    ensures forall m :: m in ms ==> m in history && KindOf(m) == k
  {
    if history == [] then []
    else
      var m := history[|history| - 1];
      OfKind(history[..|history| - 1], k) + (if KindOf(m) == k then [m] else [])
  }

  /** `ms[-1] if ms else None`. */
  function Last(ms: seq<Metric>): (r: Option<Metric>)
    ensures r.None? <==> ms == []
    ensures r.Some? ==> r.value == ms[|ms| - 1]
  {
    if ms == [] then None else Some(ms[|ms| - 1])
  }

  function Summarize(history: seq<Metric>): MetricsSummary {
    var runs := OfKind(history, PipelineRunKind);
    var business := OfKind(history, BusinessMetricsKind);
    var quality := OfKind(history, DataQualityKind);
    MetricsSummary(|history|, |runs|, |business|, |quality|, Last(runs), Last(business), Last(quality))
  }

  /** Every record is of exactly one kind, so the three counts add up to the history's length. */
  lemma {:induction false} KindsPartitionHistory(history: seq<Metric>)
    ensures |OfKind(history, PipelineRunKind)| + |OfKind(history, BusinessMetricsKind)| + |OfKind(history, DataQualityKind)| == |history|
  {
    if history != [] {
      KindsPartitionHistory(history[..|history| - 1]);
    }
  }

  /** The latest record of a kind is the last record of that kind in the history. */
  lemma {:induction false} LatestIsLastOfKind(history: seq<Metric>, k: Kind, i: nat)
    requires i < |history| && KindOf(history[i]) == k
    requires forall j :: i < j < |history| ==> KindOf(history[j]) != k
    ensures Last(OfKind(history, k)) == Some(history[i])
  {
    var front := history[..|history| - 1];
    if i < |history| - 1 {
      assert KindOf(history[|history| - 1]) != k;
      assert front[i] == history[i];
      LatestIsLastOfKind(front, k, i);
    }
  }

  /** A kind with no record has no latest record. */
  lemma {:induction false} NoLatestWithoutRecord(history: seq<Metric>, k: Kind)
    requires forall i :: 0 <= i < |history| ==> KindOf(history[i]) != k
    ensures Last(OfKind(history, k)) == None
  {
    if history != [] {
      NoLatestWithoutRecord(history[..|history| - 1], k);
    }
  }

  /** Appending a record adds it to the end of its own kind's list only. */
  lemma OfKindSnoc(history: seq<Metric>, m: Metric, k: Kind)
    ensures OfKind(history + [m], k) == OfKind(history, k) + (if KindOf(m) == k then [m] else [])
  {
    assert (history + [m])[..|history|] == history;
  }

  // ---------------------------------------------------------------------------
  // The collector
  // ---------------------------------------------------------------------------

  class SimpleMetricsAdapter {
    const enableFileLogging: bool
    const metricsFile: string
    var metricsHistory: seq<Metric>

    constructor(enableFileLogging: bool, metricsFile: string)
      ensures this.enableFileLogging == enableFileLogging && this.metricsFile == metricsFile
      ensures metricsHistory == []
    {
      this.enableFileLogging := enableFileLogging;
      this.metricsFile := metricsFile;
      metricsHistory := [];
    }

    /** Appends one pipeline-run record; earlier records are untouched. */
    method RecordPipelineRun(recordsProcessed: int, processingTimeSeconds: real, success: bool)
      modifies this
      ensures metricsHistory == old(metricsHistory) + [PipelineRunMetric(recordsProcessed, processingTimeSeconds, success)]
      ensures GetMetricsSummary().latestPipelineRun == Some(PipelineRunMetric(recordsProcessed, processingTimeSeconds, success))
      ensures GetMetricsSummary().pipelineRunsCount == old(GetMetricsSummary().pipelineRunsCount) + 1
    {
      var metric := PipelineRunMetric(recordsProcessed, processingTimeSeconds, success);
      OfKindSnoc(metricsHistory, metric, PipelineRunKind);
      metricsHistory := metricsHistory + [metric];
    }

    /** Appends the batch's business record, or nothing for an empty batch. */
    method RecordBusinessMetrics(shipments: seq<Shipment>)
      modifies this
      ensures shipments == [] ==> metricsHistory == old(metricsHistory)
      ensures shipments != [] ==> metricsHistory == old(metricsHistory) + [BusinessMetricOf(shipments).value]
    {
      if shipments == [] {
        return;
      }
      var metric := BusinessMetricOf(shipments).value;
      metricsHistory := metricsHistory + [metric];
    }

    /** Appends one data-quality record, counting the errors by type. */
    method RecordDataQualityMetrics(totalRecords: int, validRecords: int, validationErrors: seq<ValidationError>)
      modifies this
      ensures metricsHistory == old(metricsHistory) + [DataQualityMetric(totalRecords, validRecords, validationErrors)]
    {
      var errorTypes := CountErrorTypes(validationErrors);
      var qualityRate := Percent(validRecords, totalRecords);
      var errorRate := Percent(totalRecords - validRecords, totalRecords);
      var metric := DataQuality(totalRecords, validRecords, totalRecords - validRecords,
                                Round2(qualityRate), Round2(errorRate), errorTypes, |validationErrors|);
      metricsHistory := metricsHistory + [metric];
    }

    /** `get_metrics_summary`, which only reads the history. */
    function GetMetricsSummary(): (s: MetricsSummary)
      reads this
      ensures s.totalMetricsCollected == |metricsHistory|
      ensures s.pipelineRunsCount + s.businessMetricsCount + s.dataQualityMetricsCount == s.totalMetricsCollected
      ensures s.latestPipelineRun.Some? <==> s.pipelineRunsCount > 0
      ensures s.latestBusinessMetrics.Some? <==> s.businessMetricsCount > 0
      ensures s.latestDataQuality.Some? <==> s.dataQualityMetricsCount > 0
    {
      KindsPartitionHistory(metricsHistory);
      Summarize(metricsHistory)
    }
  }
}
