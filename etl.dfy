/**
  The ETL orchestrator: extract raw records, turn them into shipments, validate
  them, compute the batch's business metrics, save the valid shipments, then
  record metrics and send notifications.

  The collaborators (the shipment repository, the validator, the notification
  service and the metrics collector) are given as values that say, for every
  call, what the collaborator returns or which exception it raises. The
  orchestrator returns the calls it made, in order, next to its outcome, so that
  the contracts can speak about the order of the stages and about which calls
  happen on which path. The wall clock is replaced by the elapsed time, a parameter.
*/
module EtlService {
  import opened Wrappers
  import opened Rounding
  import opened Shipments

  /** What a collaborator call does: return a value, or raise an exception with a message. */
  datatype CallResult<T> = Returns(value: T) | Throws(message: string)

  /** A raw record as the repository extracts it: column name to cell text. */
  type RawRecord = map<string, string>

  /** What the validator returns: the valid shipments and a descriptor per rejected one. */
  datatype Validation = Validation(valid: seq<Shipment>, errors: seq<ValidationError>)

  datatype Repository = Repository(
    extractShipments: string -> CallResult<seq<RawRecord>>,
    saveShipments: (seq<Shipment>, string) -> CallResult<bool>)

  datatype Validator = Validator(validateShipments: seq<Shipment> -> CallResult<Validation>)

  /** A collaborator whose calls return nothing the orchestrator reads: `raises(c)` is the exception call `c` raises, if any. */
  datatype Sink = Sink(raises: Call -> Option<string>)

  /** The metrics dictionary `_calculate_business_metrics` returns when the batch is not empty. */
  datatype BusinessMetrics = BusinessMetrics(
    totalShipments: nat,
    profitableShipments: nat,
    highMarginShipments: nat,
    delayedShipments: nat,
    profitabilityRate: real,
    highMarginRate: real,
    delayedRate: real,
    totalRevenue: real,
    totalCost: real,
    totalProfit: real,
    avgProfitMargin: real,
    avgShippingDurationDays: real)

  /**
    The processing summary. `businessMetrics` is `None` for the empty dictionary;
    `error` is `None` while the summary has no `'error'` entry.
  */
  datatype Summary = Summary(
    success: bool,
    recordsProcessed: nat,
    validRecords: nat,
    validationErrors: seq<ValidationError>,
    processingTimeSeconds: real,
    businessMetrics: Option<BusinessMetrics>,
    error: Option<string>)

  const InitialSummary := Summary(false, 0, 0, [], 0.0, None, None)

  /** A call the orchestrator makes on one of its collaborators, with its arguments. */
  datatype Call =
    | ExtractShipments(sourcePath: string)
    | ValidateShipments(shipments: seq<Shipment>)
    | SaveShipments(shipments: seq<Shipment>, bucket: string)
    | RecordPipelineRun(recordsProcessed: nat, processingTimeSeconds: real, success: bool)
    | RecordBusinessMetrics(shipments: seq<Shipment>)
    | RecordDataQualityMetrics(totalRecords: nat, validRecords: nat, validationErrors: seq<ValidationError>)
    | NotifySuccess(message: string, details: Summary)
    | NotifyError(message: string, error: string, sourcePath: string)

  predicate IsMetricsCall(c: Call) {
    c.RecordPipelineRun? || c.RecordBusinessMetrics? || c.RecordDataQualityMetrics?
  }

  /**
    `process_shipments` either returns the summary, or lets an exception out;
    `summary` is then the summary as it stood when the exception left.
  */
  datatype Outcome = Returned(summary: Summary) | Raised(error: string, summary: Summary)

  /** The exception message of a call result, if it raised. */
  function Thrown<T>(r: CallResult<T>): (e: Option<string>)
    ensures e.Some? <==> r.Throws?
  {
    if r.Throws? then Some(r.message) else None
  }

  // ---------------------------------------------------------------------------
  // Transform
  // ---------------------------------------------------------------------------

  /** The shipments of the records that convert, in record order; a record whose conversion raises is skipped. */
  function Converted(raw: seq<RawRecord>, fromRecord: RawRecord -> Option<Shipment>): (ss: seq<Shipment>)
    ensures |ss| <= |raw|
  {
    if raw == [] then []
    else
      var r := raw[|raw| - 1];
      Converted(raw[..|raw| - 1], fromRecord) + (if fromRecord(r).Some? then [fromRecord(r).value] else [])
  }

  /** Every shipment produced comes from some record, and every record that converts contributes its shipment. */
  lemma {:induction false} ConvertedMembers(raw: seq<RawRecord>, fromRecord: RawRecord -> Option<Shipment>)
    ensures forall s :: s in Converted(raw, fromRecord) <==> exists r :: r in raw && fromRecord(r) == Some(s)
  {
    if raw != [] {
      var front := raw[..|raw| - 1];
      assert forall r :: r in raw <==> r in front || r == raw[|raw| - 1];
      ConvertedMembers(front, fromRecord);
    }
  }

  /** When no record fails to convert, none is lost. */
  lemma {:induction false} ConvertedAll(raw: seq<RawRecord>, fromRecord: RawRecord -> Option<Shipment>)
    requires forall r :: r in raw ==> fromRecord(r).Some?
    ensures |Converted(raw, fromRecord)| == |raw|
  {
    if raw != [] {
      var front := raw[..|raw| - 1];
      assert forall r :: r in front ==> r in raw;
      ConvertedAll(front, fromRecord);
    }
  }

  /** Converting two batches one after the other is converting them together. */
  lemma {:induction false} ConvertedAppend(a: seq<RawRecord>, b: seq<RawRecord>, fromRecord: RawRecord -> Option<Shipment>)
    ensures Converted(a + b, fromRecord) == Converted(a, fromRecord) + Converted(b, fromRecord)
  {
    if b != [] {
      var ab := a + b;
      assert ab[..|ab| - 1] == a + b[..|b| - 1];
      assert ab[|ab| - 1] == b[|b| - 1];
      ConvertedAppend(a, b[..|b| - 1], fromRecord);
    } else {
      assert a + b == a;
    }
  }

  // ---------------------------------------------------------------------------
  // Business metrics
  // ---------------------------------------------------------------------------

  /**
    `_calculate_business_metrics`: `None` (the empty dictionary) for an empty
    batch. The two averages divide by the whole batch size, so a shipment whose
    margin or duration is missing (or zero) counts as a zero in the average;
    the rates are not rounded, the averages are.
  */
  function CalculateBusinessMetrics(ss: seq<Shipment>): (m: Option<BusinessMetrics>)
    ensures m.None? <==> ss == []
    ensures m.Some? ==>
      && m.value.totalShipments == |ss|
      && m.value.profitableShipments <= |ss|
      && m.value.highMarginShipments <= |ss|
      && m.value.delayedShipments <= |ss|
      && 0.0 <= m.value.profitabilityRate <= 100.0
      && 0.0 <= m.value.highMarginRate <= 100.0
      && 0.0 <= m.value.delayedRate <= 100.0
      && m.value.totalProfit == m.value.totalRevenue - m.value.totalCost
  {
    if ss == [] then None
    else
      var n := |ss|;
      var profitable := CountIf(ss, Profitable);
      var highMargin := CountIf(ss, HighMargin);
      var delayed := CountIf(ss, Delayed);
      var revenue := SumOf(ss, Revenue);
      var cost := SumOf(ss, Cost);
      Some(BusinessMetrics(
        n, profitable, highMargin, delayed,
        Rate(profitable, n), Rate(highMargin, n), Rate(delayed, n),
        revenue, cost, revenue - cost,
        Round2(SumOf(ss, Margin) / n as real),
        Round2(SumOf(ss, Duration) / n as real)))
  }

  /** With no margin missing, the batch's average margin is the mean of the margins, as the route report computes it. */
  lemma BatchMarginIsMean(ss: seq<Shipment>)
    requires ss != []
    requires forall s :: s in ss ==> s.profitMargin.Some?
    ensures CalculateBusinessMetrics(ss).value.avgProfitMargin == Round2(Mean(ss, Margin))
  {
    AllPresent(ss, Margin);
  }

  /** A batch of one shipment with margin 20 and one with no margin: the batch average is 10, the mean of the present margins 20. */
  lemma MissingMarginCountsAsZero(a: Shipment, b: Shipment)
    requires a.profitMargin == Some(20.0) && b.profitMargin == None
    ensures CalculateBusinessMetrics([a, b]).value.avgProfitMargin == 10.0
    ensures Mean([a, b], Margin) == 20.0
  {
    var ss := [a, b];
    assert ss[..1] == [a];
    assert [a][..0] == [];
    assert SumOf([a], Margin) == 20.0;
    assert SumOf(ss, Margin) == 20.0;
    assert CountPresent([a], Margin) == 1;
    assert CountPresent(ss, Margin) == 1;
    Round2OfHundredths(1000);
  }

  /** Every shipment profitable makes a profitability rate of 100. */
  lemma AllProfitableRate(ss: seq<Shipment>)
    requires ss != []
    requires forall s :: s in ss ==> s.isProfitable
    ensures CalculateBusinessMetrics(ss).value.profitabilityRate == 100.0
  {
    AllFlagged(ss, Profitable);
    RateOfAll(|ss|);
  }

  /** No shipment profitable makes a profitability rate of 0. */
  lemma NoneProfitableRate(ss: seq<Shipment>)
    requires ss != []
    requires forall s :: s in ss ==> !s.isProfitable
    ensures CalculateBusinessMetrics(ss).value.profitabilityRate == 0.0
  {
    CountIfZero(ss, Profitable);
  }

  // ---------------------------------------------------------------------------
  // The orchestrator
  // ---------------------------------------------------------------------------

  class ShipmentEtlService {
    const repository: Repository
    const validator: Validator
    const notificationService: Option<Sink>
    const metricsCollector: Option<Sink>
    /** `Shipment.from_dict`: `None` where it raises. */
    const fromRecord: RawRecord -> Option<Shipment>

    constructor(repository: Repository, validator: Validator, notificationService: Option<Sink>,
                metricsCollector: Option<Sink>, fromRecord: RawRecord -> Option<Shipment>)
      ensures this.repository == repository && this.validator == validator
      ensures this.notificationService == notificationService && this.metricsCollector == metricsCollector
      ensures this.fromRecord == fromRecord
    {
      this.repository := repository;
      this.validator := validator;
      this.notificationService := notificationService;
      this.metricsCollector := metricsCollector;
      this.fromRecord := fromRecord;
    }

    /** The exception the collaborator addressed by `c` raises on it, if it raises. */
    function RaisedBy(c: Call): Option<string> {
      match c
      case ExtractShipments(p) => Thrown(repository.extractShipments(p))
      case ValidateShipments(ss) => Thrown(validator.validateShipments(ss))
      case SaveShipments(ss, b) => Thrown(repository.saveShipments(ss, b))
      case NotifySuccess(_, _) => if notificationService.Some? then notificationService.value.raises(c) else None
      case NotifyError(_, _, _) => if notificationService.Some? then notificationService.value.raises(c) else None
      case _ => if metricsCollector.Some? then metricsCollector.value.raises(c) else None
    }

    /** No call of `calls` raised. */
    predicate AllReturned(calls: seq<Call>) {
      calls == [] || (AllReturned(calls[..|calls| - 1]) && RaisedBy(calls[|calls| - 1]).None?)
    }

    /** The calls have all returned but the last, which raised `e`. */
    predicate FailedAfter(calls: seq<Call>, e: string) {
      calls != [] && AllReturned(calls[..|calls| - 1]) && RaisedBy(calls[|calls| - 1]) == Some(e)
    }

    /** With a metrics collector: the pipeline-run, the business and the data-quality metrics, in that order. */
    function MetricsCalls(recordsProcessed: nat, valid: seq<Shipment>, errors: seq<ValidationError>,
                          elapsed: real, success: bool): seq<Call> {
      if metricsCollector.Some?
      then [RecordPipelineRun(recordsProcessed, elapsed, success), RecordBusinessMetrics(valid),
            RecordDataQualityMetrics(recordsProcessed, |valid|, errors)]
      else []
    }

    /** The success notification, carrying the summary, sent when the save reported success and there is a notification service. */
    function SuccessNotice(summary: Summary): seq<Call> {
      if summary.success && notificationService.Some?
      then [NotifySuccess("ETL pipeline completed successfully", summary)]
      else []
    }

    /**
      The run in which no call raises: extract, validate the converted records,
      save the valid ones, record the metrics and notify success.
    */
    predicate NormalRun(sourcePath: string, bucket: string, elapsed: real, summary: Summary, calls: seq<Call>) {
      var extracted := repository.extractShipments(sourcePath);
      && extracted.Returns?
      && var raw := extracted.value;
         var shipments := Converted(raw, fromRecord);
         var validated := validator.validateShipments(shipments);
         && validated.Returns?
         && var valid := validated.value.valid;
            var errors := validated.value.errors;
            var saved := repository.saveShipments(valid, bucket);
            && saved.Returns?
            && summary == Summary(saved.value, |raw|, |valid|, errors, elapsed, CalculateBusinessMetrics(valid), None)
            && calls ==
                 [ExtractShipments(sourcePath), ValidateShipments(shipments), SaveShipments(valid, bucket)]
                 + MetricsCalls(|raw|, valid, errors, elapsed, saved.value)
                 + SuccessNotice(summary)
    }

    /**
      The calls the `try` block of `process_shipments` sets out to make, each
      stage's arguments taken from the results before it. It ends at the
      stage that raises, since the later stages have nothing to work on.
    */
    function StagePlan(sourcePath: string, bucket: string, elapsed: real): seq<Call> {
      var extracted := repository.extractShipments(sourcePath);
      if extracted.Throws? then [ExtractShipments(sourcePath)]
      else
        var raw := extracted.value;
        var shipments := Converted(raw, fromRecord);
        var validated := validator.validateShipments(shipments);
        if validated.Throws? then [ExtractShipments(sourcePath), ValidateShipments(shipments)]
        else
          var valid := validated.value.valid;
          var errors := validated.value.errors;
          var stages := [ExtractShipments(sourcePath), ValidateShipments(shipments), SaveShipments(valid, bucket)];
          var saved := repository.saveShipments(valid, bucket);
          if saved.Throws? then stages
          else
            var summary := Summary(saved.value, |raw|, |valid|, errors, elapsed, CalculateBusinessMetrics(valid), None);
            stages + MetricsCalls(|raw|, valid, errors, elapsed, saved.value) + SuccessNotice(summary)
    }

    /** Every call of calls that all returned returned. */
    lemma {:induction false} ReturnedAt(calls: seq<Call>, i: nat)
      requires AllReturned(calls) && i < |calls|
      ensures RaisedBy(calls[i]).None?
    {
      if i < |calls| - 1 {
        ReturnedAt(calls[..|calls| - 1], i);
      }
    }

    /**
      Calls made in the order of a plan and stopped at the first that raises
      are determined by the plan: two such traces are the same, with the same
      exception.
    */
    lemma FailureDetermined(plan: seq<Call>, a: seq<Call>, b: seq<Call>, e: string, e': string)
      requires a <= plan && b <= plan
      requires FailedAfter(a, e) && FailedAfter(b, e')
      ensures a == b && e == e'
    {
      if |a| < |b| {
        assert a[|a| - 1] == b[..|b| - 1][|a| - 1];
        ReturnedAt(b[..|b| - 1], |a| - 1);
      } else if |b| < |a| {
        assert b[|b| - 1] == a[..|a| - 1][|b| - 1];
        ReturnedAt(a[..|a| - 1], |b| - 1);
      } else {
        assert a == plan[..|a|] == b;
      }
    }

    /** A metrics call comes only after the save, at index 2, returned, and only with a metrics collector. */
    predicate MetricsOnlyAfterSave(calls: seq<Call>) {
      forall i :: 0 <= i < |calls| && IsMetricsCall(calls[i]) ==>
        metricsCollector.Some? && 3 <= i && calls[2].SaveShipments? && RaisedBy(calls[2]).None?
    }

    /** Appending calls that are not metrics calls, or that follow a save that returned, keeps metrics after the save. */
    lemma MetricsOrderKept(calls: seq<Call>, extra: seq<Call>)
      requires MetricsOnlyAfterSave(calls)
      requires forall j :: 0 <= j < |extra| && IsMetricsCall(extra[j]) ==>
        metricsCollector.Some? && 3 <= |calls| && calls[2].SaveShipments? && RaisedBy(calls[2]).None?
      ensures MetricsOnlyAfterSave(calls + extra)
    {
      var all := calls + extra;
      forall i | 0 <= i < |all| && IsMetricsCall(all[i])
        ensures metricsCollector.Some? && 3 <= i && all[2].SaveShipments? && RaisedBy(all[2]).None?
      {
        if i < |calls| {
          assert all[i] == calls[i];
        } else {
          assert all[i] == extra[i - |calls|];
        }
      }
    }

    /** One more call after calls that all returned: all returned, or failed at the end. */
    lemma ReturnedSnoc(calls: seq<Call>, c: Call)
      requires AllReturned(calls)
      ensures RaisedBy(c).None? ==> AllReturned(calls + [c])
      ensures RaisedBy(c).Some? ==> FailedAfter(calls + [c], RaisedBy(c).value)
    {
      assert (calls + [c])[..|calls|] == calls;
    }

    /** Calls that all returned, followed by calls that all returned or failed at the end, keep that shape. */
    lemma {:induction false} ReturnedThen(a: seq<Call>, b: seq<Call>)
      requires AllReturned(a)
      ensures AllReturned(b) ==> AllReturned(a + b)
      ensures forall e :: FailedAfter(b, e) ==> FailedAfter(a + b, e)
    {
      if b != [] {
        var front := b[..|b| - 1];
        ReturnedThen(a, front);
        assert (a + b)[..|a + b| - 1] == a + front;
        assert (a + b)[|a + b| - 1] == b[|b| - 1];
      } else {
        assert a + b == a;
      }
    }

    /** `_transform_data`: the loop never raises; it keeps the records that convert. */
    method TransformData(raw: seq<RawRecord>) returns (shipments: seq<Shipment>)
      ensures shipments == Converted(raw, fromRecord)
    {
      shipments := [];
      for i := 0 to |raw|
        invariant shipments == Converted(raw[..i], fromRecord)
      {
        assert raw[..i + 1][..i] == raw[..i];
        var record := raw[i];
        match fromRecord(record)
        case Some(s) =>
          shipments := shipments + [s];
        case None =>
      }
      assert raw[..|raw|] == raw;
    }

    /** The three metrics calls, which stop at the first one that raises. */
    method RecordMetrics(recordsProcessed: nat, valid: seq<Shipment>, errors: seq<ValidationError>,
                         elapsed: real, success: bool) returns (made: seq<Call>, failure: Option<string>)
      ensures failure.None? ==> AllReturned(made) && made == MetricsCalls(recordsProcessed, valid, errors, elapsed, success)
      ensures failure.Some? ==> FailedAfter(made, failure.value)
      ensures made <= MetricsCalls(recordsProcessed, valid, errors, elapsed, success)
      ensures forall i :: 0 <= i < |made| ==> IsMetricsCall(made[i]) && metricsCollector.Some?
    {
      made := [];
      failure := None;
      if metricsCollector.Some? {
        var collector := metricsCollector.value;
        var run := RecordPipelineRun(recordsProcessed, elapsed, success);
        ReturnedSnoc([], run);
        made := [run];
        failure := collector.raises(run);
        if failure.None? {
          var business := RecordBusinessMetrics(valid);
          ReturnedSnoc([run], business);
          made := [run, business];
          failure := collector.raises(business);
          if failure.None? {
            var quality := RecordDataQualityMetrics(recordsProcessed, |valid|, errors);
            ReturnedSnoc([run, business], quality);
            made := [run, business, quality];
            failure := collector.raises(quality);
          }
        }
      }
    }

    /**
      After a save that returned: the metrics calls, then the success
      notification; they stop at the first call that raises.
    */
    method Publish(calls: seq<Call>, recordsProcessed: nat, valid: seq<Shipment>, errors: seq<ValidationError>,
                   elapsed: real, summary: Summary) returns (all: seq<Call>, failure: Option<string>)
      requires |calls| == 3 && AllReturned(calls) && calls[2].SaveShipments? && MetricsOnlyAfterSave(calls)
      ensures failure.None? ==>
        AllReturned(all) && all == calls + MetricsCalls(recordsProcessed, valid, errors, elapsed, summary.success) + SuccessNotice(summary)
      ensures failure.Some? ==> FailedAfter(all, failure.value)
      ensures all <= calls + MetricsCalls(recordsProcessed, valid, errors, elapsed, summary.success) + SuccessNotice(summary)
      ensures |all| >= |calls| && all[..|calls|] == calls
      ensures MetricsOnlyAfterSave(all)
    {
      var made;
      made, failure := RecordMetrics(recordsProcessed, valid, errors, elapsed, summary.success);
      ReturnedThen(calls, made);
      MetricsOrderKept(calls, made);
      all := calls + made;
      if failure.None? && summary.success && notificationService.Some? {
        var notice := NotifySuccess("ETL pipeline completed successfully", summary);
        ReturnedSnoc(all, notice);
        MetricsOrderKept(all, [notice]);
        assert (all + [notice])[..|calls|] == all[..|calls|];
        all := all + [notice];
        failure := notificationService.value.raises(notice);
      }
    }

    /**
      The end of `process_shipments`: with no failure the summary
      is returned; otherwise the summary records the failure, the notification
      service (if any) is told the error and the source path, and the
      exception leaves: the one raised, or the one the error notification raises.
    */
    method Conclude(calls: seq<Call>, failure: Option<string>, summary: Summary, sourcePath: string, elapsed: real)
      returns (outcome: Outcome, all: seq<Call>)
      requires failure.None? ==> AllReturned(calls)
      requires failure.Some? ==> FailedAfter(calls, failure.value)
      ensures failure.None? ==> outcome == Returned(summary) && all == calls
      ensures failure.Some? ==> outcome.Raised? && outcome.summary == summary.(success := false, processingTimeSeconds := elapsed, error := failure)
      ensures failure.Some? && notificationService.None? ==> all == calls && outcome.error == failure.value
      ensures failure.Some? && notificationService.Some? ==>
        var alert := NotifyError("ETL pipeline failed", failure.value, sourcePath);
        all == calls + [alert] && outcome.error == RaisedBy(alert).GetOr(failure.value)
    {
      all := calls;
      if failure.Some? {
        var failed := summary.(success := false, processingTimeSeconds := elapsed, error := failure);
        if notificationService.Some? {
          var alert := NotifyError("ETL pipeline failed", failure.value, sourcePath);
          all := calls + [alert];
          outcome := Raised(notificationService.value.raises(alert).GetOr(failure.value), failed);
        } else {
          outcome := Raised(failure.value, failed);
        }
      } else {
        outcome := Returned(summary);
      }
    }

    /**
      The `try` block of `process_shipments`: the stages in order, stopping at
      the first call that raises, whose message is `failure`.
    */
    method RunStages(sourcePath: string, bucket: string, elapsed: real)
      returns (calls: seq<Call>, summary: Summary, failure: Option<string>)
      ensures calls != [] && calls[0] == ExtractShipments(sourcePath)
      ensures failure.None? ==> AllReturned(calls) && NormalRun(sourcePath, bucket, elapsed, summary, calls)
      ensures failure.Some? ==> FailedAfter(calls, failure.value)
      ensures calls <= StagePlan(sourcePath, bucket, elapsed)
      ensures MetricsOnlyAfterSave(calls)
    {
      summary := InitialSummary;
      failure := None;
      var extract := ExtractShipments(sourcePath);
      ReturnedSnoc([], extract);
      calls := [extract];
      var extracted := repository.extractShipments(sourcePath);
      if extracted.Throws? {
        failure := Some(extracted.message);
        return;
      }
      var raw := extracted.value;
      var shipments := TransformData(raw);
      var validate := ValidateShipments(shipments);
      ReturnedSnoc([extract], validate);
      calls := [extract, validate];
      var validated := validator.validateShipments(shipments);
      if validated.Throws? {
        failure := Some(validated.message);
        return;
      }
      var valid := validated.value.valid;
      var errors := validated.value.errors;
      var businessMetrics := CalculateBusinessMetrics(valid);
      var save := SaveShipments(valid, bucket);
      ReturnedSnoc([extract, validate], save);
      calls := [extract, validate, save];
      var saved := repository.saveShipments(valid, bucket);
      if saved.Throws? {
        failure := Some(saved.message);
        return;
      }
      summary := Summary(saved.value, |raw|, |valid|, errors, elapsed, businessMetrics, None);
      calls, failure := Publish(calls, |raw|, valid, errors, elapsed, summary);
      assert calls[0] == extract;
    }

    /**
      `process_shipments`. The calls begin with the extraction. The run
      returns exactly when no call raises, and then it is the normal run. When
      a call raises, every call before it returned, the summary records the
      failure, the notification service (if any) is told the error and the
      source path, and the exception leaves the method: the one raised, or the
      one the error notification itself raises. Metrics are recorded only
      after a save that returned.
    */
    method ProcessShipments(sourcePath: string, bucket: string, elapsed: real) returns (outcome: Outcome, calls: seq<Call>)
      ensures calls != [] && calls[0] == ExtractShipments(sourcePath)
      ensures outcome.Returned? <==> AllReturned(calls)
      ensures outcome.Returned? ==> NormalRun(sourcePath, bucket, elapsed, outcome.summary, calls)
      ensures outcome.Returned? ==> calls == StagePlan(sourcePath, bucket, elapsed)
      ensures outcome.Raised? ==>
        var failed := if notificationService.Some? then calls[..|calls| - 1] else calls;
        && outcome.summary.error.Some?
        && FailedAfter(failed, outcome.summary.error.value)
        && !outcome.summary.success
        && outcome.summary.processingTimeSeconds == elapsed
        && (notificationService.None? ==> outcome.error == outcome.summary.error.value)
        && (notificationService.Some? ==>
              var alert := NotifyError("ETL pipeline failed", outcome.summary.error.value, sourcePath);
              calls[|calls| - 1] == alert && outcome.error == RaisedBy(alert).GetOr(outcome.summary.error.value))
      ensures outcome.Raised? ==>
        (if notificationService.Some? then calls[..|calls| - 1] else calls) <= StagePlan(sourcePath, bucket, elapsed)
      ensures MetricsOnlyAfterSave(calls)
    {
      var summary, failure;
      calls, summary, failure := RunStages(sourcePath, bucket, elapsed);
      ghost var before := calls;
      outcome, calls := Conclude(calls, failure, summary, sourcePath, elapsed);
      if failure.Some? {
        assert !AllReturned(before);
        if notificationService.Some? {
          assert calls[..|calls| - 1] == before;
          MetricsOrderKept(before, [calls[|calls| - 1]]);
        }
      }
    }

    /** The error notification is sent only on the failing path, and the success notification only after a save that reported success. */
    lemma NotificationsFollowOutcome(sourcePath: string, bucket: string, elapsed: real, summary: Summary, calls: seq<Call>)
      requires NormalRun(sourcePath, bucket, elapsed, summary, calls)
      ensures forall c :: c in calls ==> !c.NotifyError?
      ensures (exists c :: c in calls && c.NotifySuccess?) <==> summary.success && notificationService.Some?
    {
      var extra := calls[3..];
      assert calls == calls[..3] + extra;
      if summary.success && notificationService.Some? {
        assert calls[|calls| - 1].NotifySuccess?;
      }
    }
  }
}
