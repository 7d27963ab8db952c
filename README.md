# Shipment cost/revenue ETL pipeline — a Dafny model

This project models the core of a shipment ETL pipeline. The pipeline extracts
shipment records, converts them to `Shipment` objects, validates them and
computes business metrics. It then saves the valid shipments, records pipeline
metrics and sends notifications. On top of that sit an analytics service
(route profitability, monthly and quarterly trends, optimisation opportunities,
health scores and key insights), a simple in-memory metrics collector, and the
configuration loader that reads a `.env` file into the environment.

Files:

- `wrappers.dfy` — `Option`.
- `rounding.dfy` — Python's `round(x, 2)` on exact reals: round half to even at the hundredths.
- `grouping.dfy` — insertion-ordered dictionaries (`OrderedMap`), grouping by key in first-encounter
  order, and the fold a "create the entry if missing, then update it" loop computes.
- `shipments.dfy` — the `Shipment` record the services read, and counts, sums, means and rates over a batch.
- `analytics.dfy` — `ShipmentAnalyticsService`.
- `etl.dfy` — `ShipmentETLService`: the staged `process_shipments`, `_transform_data` and
  `_calculate_business_metrics`.
- `metrics_adapter.dfy` — `SimpleMetricsAdapter`.
- `config.dfy` — `load_env_file`, `get_config` and the `Config` record.

How the model is built:

- The analytics loops that fill dictionaries are methods. Each is proved equal to a declarative
  reference function: a grouping by key, then statistics per group. The properties are lemmas
  about those reference functions.
- `process_shipments` is a method on a class holding its collaborators. The repository, the
  validator, the notification service and the metrics collector are each given as a function
  from a call to what the call returns or to the exception it raises. The method returns the
  calls it made, in order, and its outcome: either it returns the summary, or it re-raises
  with the summary as it stood.
- The metrics collector is a class whose `metricsHistory` field each `record_*` method appends to.
- `os.environ` is a class with a `vars` map. `load_env_file` is a loop over the `.env` file's
  lines that updates it through `setdefault`.

## Model

| member | source | states |
|---|---|---|
| Rounding.RoundHalfEven | src/domain/services/analytics_service.py:61-62 | rounding to an integer lands within one half of the value and leaves integers unchanged |
| Rounding.Round2 | src/domain/services/analytics_service.py:61-62 | `round(x, 2)` stays within 0.005 of `x`, keeps non-negative values non-negative, keeps values of [0,100] inside [0,100], and maps 0 to 0 |
| Rounding.Round2OfHundredths | src/domain/services/analytics_service.py:61-62 | a value that is a whole number of hundredths is unchanged by `round(x, 2)` |
| Grouping.KeysInOrder | src/domain/services/analytics_service.py:29-39 | the dictionary keys, in first-encounter order, are distinct and are exactly the keys occurring in the input |
| Grouping.Group | src/domain/services/analytics_service.py:50 | the filtered list for a key holds only input elements carrying that key |
| Grouping.InGroup | src/domain/services/analytics_service.py:50 | every input element carrying the key is in that key's filtered list |
| Grouping.AggregatesStep | src/domain/services/analytics_service.py:29-45 | one loop pass (create the entry if missing, then update it) keeps each key's entry equal to the fold over that key's group |
| Grouping.Partition | src/domain/services/analytics_service.py:41-42 | the group sizes over all keys add up to the input length |
| Grouping.SumValuesOfGroups | src/domain/services/analytics_service.py:41-42 | when each entry's count is its group's size, the entries' counts add up to the group sizes |
| Shipments.CountIf | src/domain/services/etl_service.py:141-143 | `sum(1 for s in shipments if flag)` never exceeds the batch size |
| Shipments.CountIfZero | src/domain/services/analytics_service.py:241-243 | the count is 0 exactly when no shipment has the flag |
| Shipments.AllFlagged | src/domain/services/etl_service.py:141-143 | the count is the batch size when every shipment has the flag |
| Shipments.Rate | src/domain/services/etl_service.py:157-159 | `count / total * 100` is 0 for an empty batch and lies in [0,100] when count ≤ total |
| Shipments.RateOfAll | src/domain/services/etl_service.py:157-159 | a count equal to a non-zero total is a rate of exactly 100 |
| Shipments.CountPresent | src/domain/services/analytics_service.py:53 | the number of non-`None` values never exceeds the batch size |
| Shipments.PresentIsCounted | src/domain/services/analytics_service.py:53-54 | one present value makes the list of values non-empty |
| Shipments.SumOfBetween | src/domain/services/analytics_service.py:53-54 | the sum of the present values lies between count·lo and count·hi when each lies in [lo,hi] |
| Shipments.MeanBetween | src/domain/services/analytics_service.py:53-54 | the mean of present values that all lie in [lo,hi] lies in [lo,hi] |
| Shipments.AllPresent | src/domain/services/etl_service.py:149-150 | with no value missing, the number of present values is the batch size |
| Shipments.Dated | src/domain/services/analytics_service.py:82-84 | the temporal loop keeps exactly the shipments with a shipping date |
| AnalyticsService.RouteProfitability | src/domain/services/analytics_service.py:15-65 | the route report is a well-formed ordered dictionary, and empty for an empty batch |
| AnalyticsService.RoutesReported | src/domain/services/analytics_service.py:27-39 | a route is a key of the report exactly when some shipment has that route |
| AnalyticsService.FoldRoute | src/domain/services/analytics_service.py:41-45 | the counters the loop accumulates for a route are its shipment count and its profit, revenue and cost sums, with a missing value counted as 0 |
| AnalyticsService.AccumulateRoutes | src/domain/services/analytics_service.py:27-45 | the first loop yields the routes in first-encounter order, each with the counters of its own shipments |
| AnalyticsService.AverageRoutes | src/domain/services/analytics_service.py:47-62 | the averaging loop keeps the keys and sets each route's averages from that route's shipments |
| AnalyticsService.AveragesOfRoute | src/domain/services/analytics_service.py:47-62 | counters followed by the averages give the reference statistics of the route |
| AnalyticsService.CompletedRoutes | src/domain/services/analytics_service.py:27-62 | the two loops together compute the reference route report |
| AnalyticsService.AnalyzeProfitabilityByRoute | src/domain/services/analytics_service.py:15-65 | `analyze_profitability_by_route` returns the reference route report |
| AnalyticsService.RouteCountsPartitionBatch | src/domain/services/analytics_service.py:41-42 | the routes' `total_shipments` add up to the batch size |
| AnalyticsService.RouteMarginWithinRange | src/domain/services/analytics_service.py:50-61 | if a route has a margin and all its margins lie in [lo,hi], its `avg_profit_margin` lies in [lo−0.005, hi+0.005] |
| AnalyticsService.MarginPercent | src/domain/services/analytics_service.py:129 | the period margin is 0 when revenue is not positive |
| AnalyticsService.PeriodStats | src/domain/services/analytics_service.py:98-135 | a period's `shipments` is its group size, `profitable_shipments` ≤ `shipments`, `profitability_rate` ∈ [0,100], and the margin is 0 without revenue |
| AnalyticsService.Buckets | src/domain/services/analytics_service.py:82-124 | a month (quarter) is a key exactly when some dated shipment falls in it |
| AnalyticsService.FoldPeriod | src/domain/services/analytics_service.py:98-104 | the loop's counters for a period, once completed, are the reference period statistics |
| AnalyticsService.DatedSnoc | src/domain/services/analytics_service.py:82-84 | an undated shipment is skipped and a dated one is taken |
| AnalyticsService.CompletePeriods | src/domain/services/analytics_service.py:127-135 | the averaging loop keeps the keys and completes every period entry |
| AnalyticsService.CompletedBuckets | src/domain/services/analytics_service.py:79-135 | the counting and averaging loops together give the reference monthly (quarterly) table |
| AnalyticsService.AnalyzeTemporalTrends | src/domain/services/analytics_service.py:67-140 | `analyze_temporal_trends` returns the reference monthly and quarterly tables |
| AnalyticsService.TemporalCountsPartitionDated | src/domain/services/analytics_service.py:82-124 | the monthly counts and the quarterly counts each add up to the number of dated shipments |
| AnalyticsService.Select | src/domain/services/analytics_service.py:168-208 | an opportunity list has no more entries than the report has routes |
| AnalyticsService.SelectMembers | src/domain/services/analytics_service.py:168-208 | a route is in an opportunity list exactly when its metrics meet that list's thresholds (margin < 10; margin > 30 ∧ duration < 20; duration > 45; margin > 25 ∧ duration < 30 ∧ shipments ≥ 3) |
| AnalyticsService.SelectSnoc | src/domain/services/analytics_service.py:168-208 | one pass of the loop appends a route's entry exactly when the route qualifies |
| AnalyticsService.HighVolumeCount | src/domain/services/analytics_service.py:274-276 | the high-volume count is positive exactly when some cost-reduction route has at least 5 shipments |
| AnalyticsService.PrioritizeRecommendations | src/domain/services/analytics_service.py:269-302 | at most three recommendations, in strictly HIGH, MEDIUM, LOW order, each with its action and count |
| AnalyticsService.RecommendationConditions | src/domain/services/analytics_service.py:276-300 | each recommendation is present exactly when its own condition holds |
| AnalyticsService.Classify | src/domain/services/analytics_service.py:142-221 | the summary counts the routes and the lists, and `optimization_potential` is low-margin count + slow count |
| AnalyticsService.ClassifyRoutes | src/domain/services/analytics_service.py:164-218 | the classification loop computes the reference opportunities report |
| AnalyticsService.IdentifyOptimizationOpportunities | src/domain/services/analytics_service.py:142-221 | `identify_optimization_opportunities` classifies the reference route report |
| AnalyticsService.ListsOverlap | src/domain/services/analytics_service.py:170-208 | a price-increase candidate with ≥ 3 shipments is a high performer; no route is a price-increase candidate and also in cost reduction or process improvement |
| AnalyticsService.Score | src/domain/services/analytics_service.py:246-248 | a rounded score lies in [0,100] and is 0 for an empty batch |
| AnalyticsService.Health | src/domain/services/analytics_service.py:240-256 | all four health scores are 0 for an empty batch and lie in [0,100] |
| AnalyticsService.HealthEfficiency | src/domain/services/analytics_service.py:247 | the efficiency score is the score of `total - delayed` |
| AnalyticsService.EfficiencyAllOnTime | src/domain/services/analytics_service.py:247 | with no delayed shipment the efficiency score is 100 |
| AnalyticsService.EfficiencyAllDelayed | src/domain/services/analytics_service.py:247 | with every shipment delayed the efficiency score is 0 |
| AnalyticsService.ZeroScore | src/domain/services/analytics_service.py:246-248 | a zero count scores 0 |
| AnalyticsService.FullScore | src/domain/services/analytics_service.py:246-248 | a count equal to a non-zero total scores 100 |
| AnalyticsService.ProfitabilityBandOf | src/domain/services/analytics_service.py:309-314 | strong iff > 80, moderate iff in (60, 80], low iff ≤ 60 |
| AnalyticsService.EfficiencyBandOf | src/domain/services/analytics_service.py:325-330 | excellent iff > 85, good iff in (70, 85], delays iff ≤ 70 |
| AnalyticsService.BestIndex | src/domain/services/analytics_service.py:318 | the best route is the first route, in report order, with the maximum average margin |
| AnalyticsService.WorstIndex | src/domain/services/analytics_service.py:319 | the worst route is the first route, in report order, with the minimum average margin |
| AnalyticsService.KeyInsights | src/domain/services/analytics_service.py:304-332 | two insights without routes and four with routes: the profitability band first, then best and worst route with their margins, then the efficiency band |
| AnalyticsService.GenerateBusinessInsights | src/domain/services/analytics_service.py:223-267 | the report holds the route report, the temporal tables, the opportunities, the health scores and the key insights, each as defined by its reference |
| EtlService.Converted | src/domain/services/etl_service.py:121-133 | the transform never produces more shipments than records |
| EtlService.ConvertedMembers | src/domain/services/etl_service.py:125-131 | a shipment is in the output exactly when some record converts to it |
| EtlService.ConvertedAll | src/domain/services/etl_service.py:125-128 | when every record converts, no record is lost |
| EtlService.ConvertedAppend | src/domain/services/etl_service.py:125-131 | records are converted one at a time, in order: the transform of a concatenation is the concatenation of the transforms |
| EtlService.ShipmentEtlService.TransformData | src/domain/services/etl_service.py:121-133 | the loop that skips failing records computes the reference transform |
| EtlService.CalculateBusinessMetrics | src/domain/services/etl_service.py:135-165 | empty for an empty batch; otherwise the counts are ≤ the batch size, the rates lie in [0,100] and `total_profit = total_revenue - total_cost` |
| EtlService.BatchMarginIsMean | src/domain/services/etl_service.py:149-163 | with no margin missing, `avg_profit_margin` is the rounded mean margin |
| EtlService.MissingMarginCountsAsZero | src/domain/services/etl_service.py:149-163 | the average divides by the whole batch: margins 20 and missing average to 10, while the mean of the present margins is 20 |
| EtlService.AllProfitableRate | src/domain/services/etl_service.py:141-157 | an all-profitable batch has a profitability rate of 100 |
| EtlService.NoneProfitableRate | src/domain/services/etl_service.py:141-157 | a batch with no profitable shipment has a profitability rate of 0 |
| EtlService.ShipmentEtlService.constructor | src/domain/services/etl_service.py:19-29 | the service keeps the repository, the validator, the optional notifier and the optional collector it is given |
| EtlService.ShipmentEtlService.ReturnedAt | src/domain/services/etl_service.py:46-97 | in a trace whose calls all returned, each call returned |
| EtlService.ShipmentEtlService.FailureDetermined | src/domain/services/etl_service.py:46-117 | two traces that follow the same plan and stop at their first raising call are the same trace with the same exception, so the prefix clauses pin the calls made |
| EtlService.ShipmentEtlService.MetricsOrderKept | src/domain/services/etl_service.py:65-90 | calls appended after the save keep every metrics call after the save |
| EtlService.ShipmentEtlService.ReturnedThen | src/domain/services/etl_service.py:46-117 | a successful prefix followed by a successful (failing) suffix is a successful (failing) run |
| EtlService.ShipmentEtlService.RecordMetrics | src/domain/services/etl_service.py:79-90 | with a collector: pipeline run, business, then data-quality calls; the calls made are a prefix of that list, all returned or stopped at the first that raised |
| EtlService.ShipmentEtlService.Publish | src/domain/services/etl_service.py:78-97 | after the save: the calls made are a prefix of the metrics calls followed by `notify_success` (sent only when the save succeeded and a notifier exists), all returned or stopped at the first that raised; the earlier trace is kept |
| EtlService.ShipmentEtlService.Conclude | src/domain/services/etl_service.py:101-119 | on failure the summary gets `success = False`, the elapsed time and the error; `notify_error` is sent when a notifier exists; the notifier's own exception, if any, is what propagates |
| EtlService.ShipmentEtlService.RunStages | src/domain/services/etl_service.py:46-97 | the calls made are a prefix of the stage plan (extract, validate the converted records, save the valid ones, the metrics calls, the success notice), all returned (the normal run) or stopped at the first that raised |
| EtlService.ShipmentEtlService.ProcessShipments | src/domain/services/etl_service.py:31-119 | returns iff no call raised, having made the whole stage plan as the normal run; otherwise the calls before the alert are a prefix of the plan ending in the raising call, the summary has success false and the error, and the alert comes last |
| EtlService.ShipmentEtlService.NotificationsFollowOutcome | src/domain/services/etl_service.py:92-115 | a normal run never sends `notify_error`, and sends `notify_success` iff the save succeeded and a notifier exists |
| SimpleMetrics.Throughput | src/infra/adapters/simple_metrics_adapter.py:43 | throughput times the time is the record count when the time is positive, and 0 otherwise |
| SimpleMetrics.PipelineRunMetric | src/infra/adapters/simple_metrics_adapter.py:37-44 | the pipeline-run record carries its inputs and their throughput |
| SimpleMetrics.BusinessMetricOf | src/infra/adapters/simple_metrics_adapter.py:58-89 | no record for an empty batch; otherwise counts ≤ total, rates in [0,100], `total_profit = total_revenue - total_cost` |
| SimpleMetrics.BusinessMetricAgreesWithSummary | src/infra/adapters/simple_metrics_adapter.py:64-88 | the collector's business record agrees field by field with the orchestrator's business metrics |
| SimpleMetrics.ErrorTypes | src/infra/adapters/simple_metrics_adapter.py:113-116 | an error type is a key exactly when some error carries it (`'unknown'` when absent) |
| SimpleMetrics.ErrorTypesCountEveryError | src/infra/adapters/simple_metrics_adapter.py:113-127 | the error-type counts add up to `len(validation_errors)` |
| SimpleMetrics.FoldTally | src/infra/adapters/simple_metrics_adapter.py:116 | counting one by one over a group gives its size |
| SimpleMetrics.TallyIsErrorTypes | src/infra/adapters/simple_metrics_adapter.py:113-116 | a table the counting loop has built is the reference error-type table |
| SimpleMetrics.CountErrorTypes | src/infra/adapters/simple_metrics_adapter.py:113-116 | the counting loop computes the reference error-type table |
| SimpleMetrics.Percent | src/infra/adapters/simple_metrics_adapter.py:109-110 | a rate is 0 without records and lies in [0,100] for a part of the total |
| SimpleMetrics.DataQualityMetric | src/infra/adapters/simple_metrics_adapter.py:109-127 | `invalid_records = total - valid`, the error total is the number of errors, the error types are the reference table, and both rates are 0 without records and in [0,100] otherwise |
| SimpleMetrics.PercentComplement | src/infra/adapters/simple_metrics_adapter.py:109-110 | the valid share and the invalid share make 100 |
| SimpleMetrics.RatesComplement | src/infra/adapters/simple_metrics_adapter.py:109-125 | the two rounded rates add up to 100 within 0.01 |
| SimpleMetrics.OfKind | src/infra/adapters/simple_metrics_adapter.py:144-146 | the filtered list holds only history records of that type |
| SimpleMetrics.Last | src/infra/adapters/simple_metrics_adapter.py:153-155 | `None` for an empty list, else its last element |
| SimpleMetrics.KindsPartitionHistory | src/infra/adapters/simple_metrics_adapter.py:144-152 | the three per-type counts add up to the history length |
| SimpleMetrics.LatestIsLastOfKind | src/infra/adapters/simple_metrics_adapter.py:153-155 | the latest record of a type is the last history record of that type |
| SimpleMetrics.NoLatestWithoutRecord | src/infra/adapters/simple_metrics_adapter.py:153-155 | with no record of a type, its latest is `None` |
| SimpleMetrics.OfKindSnoc | src/infra/adapters/simple_metrics_adapter.py:144-146 | appending a record extends its own type's list and no other |
| SimpleMetrics.SimpleMetricsAdapter.constructor | src/infra/adapters/simple_metrics_adapter.py:19-29 | a new collector keeps its settings and starts with an empty history |
| SimpleMetrics.SimpleMetricsAdapter.RecordPipelineRun | src/infra/adapters/simple_metrics_adapter.py:31-56 | appends exactly one pipeline-run record, which becomes the latest, and the run count grows by one |
| SimpleMetrics.SimpleMetricsAdapter.RecordBusinessMetrics | src/infra/adapters/simple_metrics_adapter.py:58-101 | leaves the history unchanged for an empty batch, else appends exactly one business record |
| SimpleMetrics.SimpleMetricsAdapter.RecordDataQualityMetrics | src/infra/adapters/simple_metrics_adapter.py:103-140 | appends exactly one data-quality record |
| SimpleMetrics.SimpleMetricsAdapter.GetMetricsSummary | src/infra/adapters/simple_metrics_adapter.py:142-156 | reads the history only; the per-type counts add up to the total, and each latest is present iff its count is positive |
| Config.TrimStart | src/config/config.py:24 | `lstrip` returns a suffix of the line |
| Config.TrimEnd | src/config/config.py:24 | `rstrip` returns a prefix of the line |
| Config.TrimStartCutsSpace | src/config/config.py:24 | what `lstrip` cuts away is whitespace |
| Config.TrimStartStops | src/config/config.py:24 | `lstrip` stops at a character that is not whitespace |
| Config.TrimEndCutsSpace | src/config/config.py:24 | what `rstrip` cuts away is whitespace |
| Config.TrimEndStops | src/config/config.py:24 | `rstrip` stops at a character that is not whitespace |
| Config.Strip | src/config/config.py:24 | `strip` never lengthens the line (what it does is stated by the four lemmas below) |
| Config.PrefixOfSuffix | src/config/config.py:24 | a prefix of a suffix of the line is a slice of it |
| Config.StripIsSlice | src/config/config.py:24 | the stripped line is a contiguous slice of the line |
| Config.StripCutsSpace | src/config/config.py:24 | only whitespace lies outside that slice |
| Config.StripEndsAtText | src/config/config.py:24 | the stripped line neither begins nor ends with whitespace |
| Config.StripIdempotent | src/config/config.py:24 | stripping twice is stripping once |
| Config.FirstIndex | src/config/config.py:26 | the index found holds the character, and no earlier index does |
| Config.SplitLine | src/config/config.py:25-26 | a stripped line gives nothing iff it is empty, starts with `#` or has no `=`; otherwise key + `=` + value is the line and the key has no `=` |
| Config.ParseLine | src/config/config.py:24-26 | the same for a raw line, after the whole-line strip |
| Config.ValueMayHoldEquals | src/config/config.py:26 | `A=b=c` gives key `A` and value `b=c` |
| Config.SpacesAroundEqualsKept | src/config/config.py:24-26 | `A = b` gives key `A ` and value ` b`: key and value are not stripped on their own |
| Config.PutEnvError | src/config/config.py:27 | setting a variable fails exactly for an empty name, a name with `=`, or a NUL in the name or the value |
| Config.SetDefaultOn | src/config/config.py:27 | `setdefault` leaves a set variable alone; otherwise it adds the value or raises and changes nothing |
| Config.NeverOverwrites | src/config/config.py:23-27 | loading the file never overwrites or removes a variable already set |
| Config.AddedFromALine | src/config/config.py:23-27 | every variable the file adds comes from a line that names it with that value |
| Config.FirstOccurrenceWins | src/config/config.py:23-27 | without an error, the first line naming an unset variable decides its value |
| Config.NotYetNamed | src/config/config.py:23-27 | a variable no line names is not added |
| Config.ErrorStopsLoading | src/config/config.py:23-27 | the first line that raises ends the loop, with the lines before it already applied |
| Config.Environ.SetDefault | src/config/config.py:27 | `os.environ.setdefault` updates the environment as the reference `setdefault` does |
| Config.Environ.GetEnv | src/config/config.py:34-39 | `os.getenv` gives the variable's value when set, else the default |
| Config.LoadLineInto | src/config/config.py:24-27 | one pass of the loop applies one line |
| Config.LoadEnvFile | src/config/config.py:18-27 | the loop leaves the environment and the error as the reference load of the file; no file changes nothing |
| Config.ConfigFrom | src/config/config.py:33-40 | each setting is the environment's value when its variable is set, and its fixed default when it is not |
| Config.DefaultsWhenUnset | src/config/config.py:33-40 | with none of the six variables set, the settings are the fixed defaults |
| Config.EnvironmentWins | src/config/config.py:27-39 | for each of the six settings, a value already in the environment wins over the file |
| Config.FileSuppliesMissing | src/config/config.py:23-39 | for each of the six settings, a value missing from the environment comes from the file's first line that sets it |
| Config.GetConfig | src/config/config.py:29-40 | `get_config` loads the file, then reads the settings from the environment, or raises the loader's error |

Several functions without contracts of their own are the reference definitions the members above are
proved against, and need no row: `AnalyticsService.TemporalTrends` (analytics_service.py:67-140),
`AnalyticsService.HealthScores` (analytics_service.py:240-256), `EtlService.ShipmentEtlService.StagePlan`
and `NormalRun` (etl_service.py:46-97), `SimpleMetrics.Summarize` (simple_metrics_adapter.py:142-156),
`Config.LoadLines` and `Config.LoadedFrom` (config.py:18-27) and `Config.Setting` (config.py:33-39).

## Left out

- Logging, the timestamps of metric records, and the clock: `process_shipments` takes the elapsed time as a parameter.
- `_write_metric_to_file` and `enable_file_logging` in the metrics collector: file I/O. The `except` branches that log and swallow an exception in the three `record_*` methods are left out too, because nothing the model computes there can raise.
- Floating point: money, margins and rates are exact reals. `round(x, 2)` is round-half-to-even on the exact value, not on its binary approximation.
- `Shipment.from_dict` and the derivation of `Shipment`'s derived fields (`profit`, `profit_margin`, `is_profitable`, `year`, `quarter`, …): `Shipment.from_dict` is not part of this model. The conversion is a parameter of the orchestrator, with `None` standing for an exception, and the derived fields are given values.
- The `storage_service` collaborator of `ShipmentETLService` and the `repository` of `ShipmentAnalyticsService`: they are held but never called by the modelled operations.
- The collaborators (repository, validator, notification service, metrics collector) are abstract functions from a call to its result or exception. The tie to the concrete collector is stated only by `BusinessMetricAgreesWithSummary`.
- The exception types: an exception is its message string. A notifier exception raised inside the `except` branch replaces the original one; the chaining of the two is not modelled.
- The `description` prose and the fixed `impact` text of each recommendation (analytics_service.py:277-300): a recommendation is its priority, action and route count.
- The emoji text of the key insights: insights are tags carrying the band, or the route and its margin.
- Month and quarter keys are pairs `(year, month)` and `(year, quarter)`, not the formatted strings `"2024-03"` and `"2024-Q1"`. The two agree for months 1–12 and non-negative years.
- A validation error's `'type'` entry is either a string or absent. A present entry that is not a string is not modelled.
- Locating, opening and decoding the `.env` file: the file is given as its lines, or as `None` when it does not exist. The module-level `config = get_config()` (config.py:43) is a call of `GetConfig` at import time.
- The process environment beyond `os.environ`'s own mapping. The errors of `setdefault` follow CPython on a POSIX system: a NUL character raises `ValueError` ("embedded null byte"), a name containing `=` raises `ValueError`, and an empty name raises `OSError`. Each error is a constructor of `EnvError`.
- Config.Strip: its own contract says only that the result is no longer than the line. `StripIsSlice`, `StripCutsSpace`, `StripEndsAtText` and `StripIdempotent` state what stripping does.
