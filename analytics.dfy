/**
  The analytics engine (`ShipmentAnalyticsService`): route profitability,
  temporal trends, optimisation opportunities and business health over a batch
  of shipments.

  Each report the source builds with loops over Python dictionaries is a method
  here, proved equal to a reference function that defines the report
  declaratively (one entry per distinct key, computed from that key's group of
  shipments); the properties of the reports are lemmas about those functions.
*/
module AnalyticsService {
  import opened Wrappers
  import opened Rounding
  import opened Grouping
  import opened Shipments

  // ---------------------------------------------------------------------------
  // Route profitability (analyze_profitability_by_route)
  // ---------------------------------------------------------------------------

  datatype RouteMetrics = RouteMetrics(
    totalShipments: nat,
    totalProfit: real,
    totalRevenue: real,
    totalCost: real,
    avgProfitMargin: real,
    avgDuration: real)

  /** Route key to metrics, in first-encounter order of the routes. */
  type RouteTable = OrderedMap<string, RouteMetrics>

  function RouteKey(s: Shipment): string { s.route }

  /** The zero-initialised record a route starts from. */
  const NewRoute := RouteMetrics(0, 0.0, 0.0, 0.0, 0.0, 0.0)

  /** One shipment added to its route's counters; a missing amount counts as 0. */
  function AddToRoute(m: RouteMetrics, s: Shipment): RouteMetrics {
    m.(totalShipments := m.totalShipments + 1,
       totalProfit := m.totalProfit + s.profit.GetOr(0.0),
       totalRevenue := m.totalRevenue + s.revenue.GetOr(0.0),
       totalCost := m.totalCost + s.cost.GetOr(0.0))
  }

  /** The metrics of a route, from the list of its shipments. */
  function RouteStats(g: seq<Shipment>): RouteMetrics {
    RouteMetrics(|g|, SumOf(g, Profit), SumOf(g, Revenue), SumOf(g, Cost),
                 Round2(Mean(g, Margin)), Round2(Mean(g, Duration)))
  }

  /**
    Reference definition of the route report: one entry per distinct route, in
    the order the routes are first met, each computed from that route's shipments.
  */
  function RouteProfitability(ss: seq<Shipment>): (t: RouteTable)
    ensures WellFormed(t)
    ensures ss == [] ==> t.entries == map[]
  {
    var ks := KeysInOrder(ss, RouteKey);
    OrderedMap(ks, map r | r in ks :: RouteStats(Group(ss, RouteKey, r)))
  }

  /** The report has an entry for a route exactly when some shipment travels it. */
  lemma RoutesReported(ss: seq<Shipment>)
    ensures forall r :: r in RouteProfitability(ss).entries <==> exists s :: s in ss && s.route == r
  {
  }

  /** The counts and sums of a route's shipments, with the averages still zero. */
  function Counters(g: seq<Shipment>): RouteMetrics {
    RouteMetrics(|g|, SumOf(g, Profit), SumOf(g, Revenue), SumOf(g, Cost), 0.0, 0.0)
  }

  /** The first loop leaves the counts and sums of each route and zero averages. */
  lemma {:induction false} FoldRoute(g: seq<Shipment>)
    ensures Fold(g, NewRoute, AddToRoute) == Counters(g)
  {
    if g != [] {
      FoldRoute(g[..|g| - 1]);
    }
  }

  /** The first loop of the route report: counts and sums per route, in first-encounter order. */
  method AccumulateRoutes(ss: seq<Shipment>) returns (routes: RouteTable)
    ensures routes.keys == KeysInOrder(ss, RouteKey)
    ensures forall r :: r in routes.entries <==> r in routes.keys
    ensures forall r :: r in routes.entries ==> routes.entries[r] == Counters(Group(ss, RouteKey, r))
  {
    routes := OrderedMap([], map[]);
    for i := 0 to |ss|
      invariant Aggregates(routes, ss[..i], RouteKey, NewRoute, AddToRoute)
    {
      var s := ss[i];
      AggregatesStep(routes, ss[..i], RouteKey, NewRoute, AddToRoute, s);
      assert ss[..i + 1] == ss[..i] + [s];
      if s.route !in routes.entries {
        routes := OrderedMap(routes.keys + [s.route], routes.entries[s.route := NewRoute]);
      }
      routes := routes.(entries := routes.entries[s.route := AddToRoute(routes.entries[s.route], s)]);
    }
    assert ss[..|ss|] == ss;
    forall r | r in routes.entries
      ensures routes.entries[r] == Counters(Group(ss, RouteKey, r))
    {
      FoldRoute(Group(ss, RouteKey, r));
    }
  }

  /** The averages pass over one route: a route with shipments gets the means of its own shipments. */
  function WithAverages(m: RouteMetrics, g: seq<Shipment>): RouteMetrics {
    if m.totalShipments > 0
    then m.(avgProfitMargin := Round2(Mean(g, Margin)), avgDuration := Round2(Mean(g, Duration)))
    else m
  }

  method AnalyzeProfitabilityByRoute(ss: seq<Shipment>) returns (routes: RouteTable)
    ensures routes == RouteProfitability(ss)
  {
    var counted := AccumulateRoutes(ss);
    routes := AverageRoutes(counted, ss);
    CompletedRoutes(counted, routes, ss);
  }

  /** The second loop of the route report: the averages, over each route's own shipments. */
  method AverageRoutes(counted: RouteTable, ss: seq<Shipment>) returns (routes: RouteTable)
    requires Distinct(counted.keys) && forall r :: r in counted.entries <==> r in counted.keys
    ensures routes.keys == counted.keys
    ensures forall r :: r in routes.entries <==> r in counted.entries
    ensures forall k :: 0 <= k < |routes.keys| ==>
      routes.entries[routes.keys[k]] == WithAverages(counted.entries[routes.keys[k]], Group(ss, RouteKey, routes.keys[k]))
  {
    routes := counted;
    for j := 0 to |routes.keys|
      invariant routes.keys == counted.keys
      invariant forall r :: r in routes.entries <==> r in counted.entries
      invariant forall k :: 0 <= k < j ==>
        routes.entries[routes.keys[k]] == WithAverages(counted.entries[routes.keys[k]], Group(ss, RouteKey, routes.keys[k]))
      invariant forall k :: j <= k < |routes.keys| ==> routes.entries[routes.keys[k]] == counted.entries[routes.keys[k]]
    {
      var r := routes.keys[j];
      var m := routes.entries[r];
      assert forall k :: 0 <= k < |routes.keys| && k != j ==> routes.keys[k] != r;
      if m.totalShipments > 0 {
        var routeShipments := Group(ss, RouteKey, r);
        routes := routes.(entries := routes.entries[r := m.(avgProfitMargin := Round2(Mean(routeShipments, Margin)),
                                                            avgDuration := Round2(Mean(routeShipments, Duration)))]);
      }
    }
  }

  /** Completing a route's counters gives its statistics. */
  lemma AveragesOfRoute(g: seq<Shipment>)
    ensures WithAverages(Counters(g), g) == RouteStats(g)
  {
  }

  /** Completing every route of the first loop's table gives the route report. */
  lemma CompletedRoutes(counted: RouteTable, routes: RouteTable, ss: seq<Shipment>)
    requires counted.keys == KeysInOrder(ss, RouteKey)
    requires forall r :: r in counted.entries <==> r in counted.keys
    requires forall r :: r in counted.entries ==> counted.entries[r] == Counters(Group(ss, RouteKey, r))
    requires routes.keys == counted.keys
    requires forall r :: r in routes.entries <==> r in counted.entries
    requires forall k :: 0 <= k < |routes.keys| ==>
      routes.entries[routes.keys[k]] == WithAverages(counted.entries[routes.keys[k]], Group(ss, RouteKey, routes.keys[k]))
    ensures routes == RouteProfitability(ss)
  {
    var target := RouteProfitability(ss);
    forall k | 0 <= k < |routes.keys|
      ensures routes.entries[routes.keys[k]] == target.entries[routes.keys[k]]
    {
      AveragesOfRoute(Group(ss, RouteKey, routes.keys[k]));
    }
    SameEntries(routes, target);
  }

  function RouteCount(m: RouteMetrics): nat { m.totalShipments }

  /** Partition: the routes' shipment counts add up to the size of the batch. */
  lemma RouteCountsPartitionBatch(ss: seq<Shipment>)
    ensures var t := RouteProfitability(ss); SumValues(t.entries, t.keys, RouteCount) == |ss|
  {
    var t := RouteProfitability(ss);
    SumValuesOfGroups(t.entries, t.keys, RouteCount, ss, RouteKey);
    Partition(ss, RouteKey);
  }

  /** A route's average margin lies between the least and greatest margin of its shipments, before rounding. */
  lemma RouteMarginWithinRange(ss: seq<Shipment>, r: string, lo: real, hi: real)
    requires forall s :: s in ss && s.route == r && s.profitMargin.Some? ==> lo <= s.profitMargin.value <= hi
    requires exists s :: s in ss && s.route == r && s.profitMargin.Some?
    ensures r in RouteProfitability(ss).entries
    ensures lo - 0.005 <= RouteProfitability(ss).entries[r].avgProfitMargin <= hi + 0.005
  {
    var g := Group(ss, RouteKey, r);
    var s :| s in ss && s.route == r && s.profitMargin.Some?;
    InGroup(ss, RouteKey, r, s);
    PresentIsCounted(g, Margin, s);
    MeanBetween(g, Margin, lo, hi);
  }

  // ---------------------------------------------------------------------------
  // Temporal trends (analyze_temporal_trends)
  // ---------------------------------------------------------------------------

  /** The bucket keys `"{year}-{month:02d}"` and `"{year}-Q{quarter}"`. */
  datatype Period = Month(year: int, month: int) | Quarter(year: int, quarter: int)

  datatype PeriodMetrics = PeriodMetrics(
    shipments: nat,
    totalRevenue: real,
    totalCost: real,
    totalProfit: real,
    avgProfitMargin: real,
    profitableShipments: nat,
    profitabilityRate: real)

  type PeriodTable = OrderedMap<Period, PeriodMetrics>

  datatype TemporalAnalysis = TemporalAnalysis(monthly: PeriodTable, quarterly: PeriodTable)

  function MonthKey(s: Shipment): Period { Month(s.year, s.month) }
  function QuarterKey(s: Shipment): Period { Quarter(s.year, s.quarter) }

  const NewPeriod := PeriodMetrics(0, 0.0, 0.0, 0.0, 0.0, 0, 0.0)

  function AddToPeriod(m: PeriodMetrics, s: Shipment): PeriodMetrics {
    m.(shipments := m.shipments + 1,
       totalRevenue := m.totalRevenue + s.revenue.GetOr(0.0),
       totalCost := m.totalCost + s.cost.GetOr(0.0),
       totalProfit := m.totalProfit + s.profit.GetOr(0.0),
       profitableShipments := m.profitableShipments + if s.isProfitable then 1 else 0)
  }

  /** Profit as a percentage of revenue, 0 unless the revenue is positive, rounded. */
  function MarginPercent(profit: real, revenue: real): (r: real)
    ensures revenue <= 0.0 ==> r == 0.0
  {
    Round2(if revenue > 0.0 then profit / revenue * 100.0 else 0.0)
  }

  /** The averages pass over one bucket. */
  function CompletePeriod(m: PeriodMetrics): PeriodMetrics {
    if m.shipments > 0 then
      m.(avgProfitMargin := MarginPercent(m.totalProfit, m.totalRevenue),
         profitabilityRate := Round2(Rate(m.profitableShipments, m.shipments)))
    else m
  }

  /** Reference definition of one bucket, from the shipments that fall in it. */
  function PeriodStats(g: seq<Shipment>): (m: PeriodMetrics)
    ensures m.shipments == |g|
    ensures m.profitableShipments <= m.shipments
    ensures 0.0 <= m.profitabilityRate <= 100.0
    ensures m.totalRevenue <= 0.0 ==> m.avgProfitMargin == 0.0
  {
    var profitable := CountIf(g, Profitable);
    var revenue := SumOf(g, Revenue);
    var profit := SumOf(g, Profit);
    PeriodMetrics(|g|, revenue, SumOf(g, Cost), profit, MarginPercent(profit, revenue),
                  profitable, Round2(Rate(profitable, |g|)))
  }

  /** Reference definition of one grouping: dated shipments only, one bucket per distinct key. */
  function Buckets(ss: seq<Shipment>, key: Shipment -> Period): (t: PeriodTable)
    ensures WellFormed(t)
    ensures forall p :: p in t.entries <==> exists s :: s in ss && s.hasShippingDate && key(s) == p
  {
    var ds := Dated(ss);
    var ks := KeysInOrder(ds, key);
    OrderedMap(ks, map p | p in ks :: PeriodStats(Group(ds, key, p)))
  }

  function TemporalTrends(ss: seq<Shipment>): TemporalAnalysis {
    TemporalAnalysis(Buckets(ss, MonthKey), Buckets(ss, QuarterKey))
  }

  lemma {:induction false} FoldPeriod(g: seq<Shipment>)
    ensures CompletePeriod(Fold(g, NewPeriod, AddToPeriod)) == PeriodStats(g)
    ensures Fold(g, NewPeriod, AddToPeriod).shipments == |g|
  {
    if g != [] {
      FoldPeriod(g[..|g| - 1]);
    }
  }

  lemma DatedSnoc(ss: seq<Shipment>, i: nat)
    requires i < |ss|
    ensures Dated(ss[..i + 1]) == Dated(ss[..i]) + if ss[i].hasShippingDate then [ss[i]] else []
  {
    assert ss[..i + 1][..i] == ss[..i];
  }

  /** The averages loop, run once over the monthly and once over the quarterly buckets. */
  method CompletePeriods(table: PeriodTable) returns (done: PeriodTable)
    requires WellFormed(table)
    ensures done.keys == table.keys
    ensures forall p :: p in done.entries <==> p in table.entries
    ensures forall p :: p in table.entries ==> done.entries[p] == CompletePeriod(table.entries[p])
  {
    done := table;
    for j := 0 to |done.keys|
      invariant done.keys == table.keys
      invariant forall p :: p in done.entries <==> p in table.entries
      invariant forall k :: 0 <= k < j ==> done.entries[done.keys[k]] == CompletePeriod(table.entries[done.keys[k]])
      invariant forall k :: j <= k < |done.keys| ==> done.entries[done.keys[k]] == table.entries[done.keys[k]]
    {
      var p := done.keys[j];
      var m := done.entries[p];
      if m.shipments > 0 {
        done := done.(entries := done.entries[p := m.(avgProfitMargin := MarginPercent(m.totalProfit, m.totalRevenue),
                                                      profitabilityRate := Round2(Rate(m.profitableShipments, m.shipments)))]);
      }
    }
    forall p | p in table.entries
      ensures done.entries[p] == CompletePeriod(table.entries[p])
    {
      var k :| 0 <= k < |table.keys| && table.keys[k] == p;
    }
  }

  /** Completing every bucket of the first loop's table gives the reference buckets. */
  lemma CompletedBuckets(counted: PeriodTable, done: PeriodTable, ss: seq<Shipment>, key: Shipment -> Period)
    requires Aggregates(counted, Dated(ss), key, NewPeriod, AddToPeriod)
    requires done.keys == counted.keys
    requires forall p :: p in done.entries <==> p in counted.entries
    requires forall p :: p in counted.entries ==> done.entries[p] == CompletePeriod(counted.entries[p])
    ensures done == Buckets(ss, key)
  {
    var target := Buckets(ss, key);
    forall k | 0 <= k < |done.keys|
      ensures done.entries[done.keys[k]] == target.entries[done.keys[k]]
    {
      FoldPeriod(Group(Dated(ss), key, done.keys[k]));
    }
    SameEntries(done, target);
  }

  method AnalyzeTemporalTrends(ss: seq<Shipment>) returns (t: TemporalAnalysis)
    ensures t == TemporalTrends(ss)
  {
    var monthly: PeriodTable := OrderedMap([], map[]);
    var quarterly: PeriodTable := OrderedMap([], map[]);
    ghost var dated: seq<Shipment> := [];
    for i := 0 to |ss|
      invariant dated == Dated(ss[..i])
      invariant Aggregates(monthly, dated, MonthKey, NewPeriod, AddToPeriod)
      invariant Aggregates(quarterly, dated, QuarterKey, NewPeriod, AddToPeriod)
    {
      var s := ss[i];
      DatedSnoc(ss, i);
      if !s.hasShippingDate {
        continue;
      }
      AggregatesStep(monthly, dated, MonthKey, NewPeriod, AddToPeriod, s);
      AggregatesStep(quarterly, dated, QuarterKey, NewPeriod, AddToPeriod, s);
      ghost var monthlyBefore, quarterlyBefore := monthly, quarterly;
      var monthKey := Month(s.year, s.month);
      if monthKey !in monthly.entries {
        monthly := OrderedMap(monthly.keys + [monthKey], monthly.entries[monthKey := NewPeriod]);
      }
      monthly := monthly.(entries := monthly.entries[monthKey := AddToPeriod(monthly.entries[monthKey], s)]);
      assert monthly == Update(EnsureKey(monthlyBefore, MonthKey(s), NewPeriod), MonthKey(s), AddToPeriod, s);
      var quarterKey := Quarter(s.year, s.quarter);
      if quarterKey !in quarterly.entries {
        quarterly := OrderedMap(quarterly.keys + [quarterKey], quarterly.entries[quarterKey := NewPeriod]);
      }
      quarterly := quarterly.(entries := quarterly.entries[quarterKey := AddToPeriod(quarterly.entries[quarterKey], s)]);
      assert quarterly == Update(EnsureKey(quarterlyBefore, QuarterKey(s), NewPeriod), QuarterKey(s), AddToPeriod, s);
      dated := dated + [s];
    }
    assert ss[..|ss|] == ss;
    var monthlyDone := CompletePeriods(monthly);
    var quarterlyDone := CompletePeriods(quarterly);
    CompletedBuckets(monthly, monthlyDone, ss, MonthKey);
    CompletedBuckets(quarterly, quarterlyDone, ss, QuarterKey);
    t := TemporalAnalysis(monthlyDone, quarterlyDone);
  }

  function PeriodCount(m: PeriodMetrics): nat { m.shipments }

  /**
    Partition: summed over the buckets, the monthly counts and the quarterly
    counts both equal the number of dated shipments.
  */
  lemma TemporalCountsPartitionDated(ss: seq<Shipment>)
    ensures var t := TemporalTrends(ss);
      && SumValues(t.monthly.entries, t.monthly.keys, PeriodCount) == |Dated(ss)|
      && SumValues(t.quarterly.entries, t.quarterly.keys, PeriodCount) == |Dated(ss)|
  {
    var t := TemporalTrends(ss);
    SumValuesOfGroups(t.monthly.entries, t.monthly.keys, PeriodCount, Dated(ss), MonthKey);
    SumValuesOfGroups(t.quarterly.entries, t.quarterly.keys, PeriodCount, Dated(ss), QuarterKey);
    Partition(Dated(ss), MonthKey);
    Partition(Dated(ss), QuarterKey);
  }

  // ---------------------------------------------------------------------------
  // Optimisation opportunities (identify_optimization_opportunities)
  // ---------------------------------------------------------------------------

  /** The entries of the four opportunity lists, with the fields each list records. */
  datatype Opportunity =
    | CostReduction(route: string, profitMargin: real, totalShipments: nat, totalProfit: real)
    | PriceIncrease(route: string, profitMargin: real, avgDuration: real, totalRevenue: real)
    | ProcessImprovement(route: string, avgDuration: real, totalShipments: nat, profitMargin: real)
    | HighPerformer(route: string, profitMargin: real, avgDuration: real, totalShipments: nat)

  datatype Category = CostReductionRoutes | PriceIncreaseCandidates | ProcessImprovementNeeded | HighPerformers

  /** The fixed thresholds of each list. */
  predicate Qualifies(c: Category, m: RouteMetrics) {
    match c
    case CostReductionRoutes => m.avgProfitMargin < 10.0
    case PriceIncreaseCandidates => m.avgProfitMargin > 30.0 && m.avgDuration < 20.0
    case ProcessImprovementNeeded => m.avgDuration > 45.0
    case HighPerformers => m.avgProfitMargin > 25.0 && m.avgDuration < 30.0 && m.totalShipments >= 3
  }

  function Entry(c: Category, r: string, m: RouteMetrics): Opportunity {
    match c
    case CostReductionRoutes => CostReduction(r, m.avgProfitMargin, m.totalShipments, m.totalProfit)
    case PriceIncreaseCandidates => PriceIncrease(r, m.avgProfitMargin, m.avgDuration, m.totalRevenue)
    case ProcessImprovementNeeded => ProcessImprovement(r, m.avgDuration, m.totalShipments, m.avgProfitMargin)
    case HighPerformers => HighPerformer(r, m.avgProfitMargin, m.avgDuration, m.totalShipments)
  }

  /** The list of category `c`: the entries of the qualifying routes among `ks`, in order. */
  function Select(ks: seq<string>, entries: map<string, RouteMetrics>, c: Category): (os: seq<Opportunity>)
    requires forall k :: k in ks ==> k in entries
    ensures |os| <= |ks|
  {
    if ks == [] then []
    else
      var k := ks[|ks| - 1];
      Select(ks[..|ks| - 1], entries, c) + if Qualifies(c, entries[k]) then [Entry(c, k, entries[k])] else []
  }

  /** A list holds exactly the entries of the routes that pass its thresholds. */
  lemma {:induction false} SelectMembers(ks: seq<string>, entries: map<string, RouteMetrics>, c: Category)
    requires forall k :: k in ks ==> k in entries
    ensures forall o :: o in Select(ks, entries, c) ==>
      o.route in ks && Qualifies(c, entries[o.route]) && o == Entry(c, o.route, entries[o.route])
    ensures forall k :: k in ks ==> (Entry(c, k, entries[k]) in Select(ks, entries, c) <==> Qualifies(c, entries[k]))
  {
    if ks != [] {
      var front := ks[..|ks| - 1];
      var k := ks[|ks| - 1];
      assert forall j :: j in ks <==> j in front || j == k;
      SelectMembers(front, entries, c);
    }
  }

  lemma SelectSnoc(ks: seq<string>, entries: map<string, RouteMetrics>, c: Category, i: nat)
    requires i < |ks| && forall k :: k in ks ==> k in entries
    ensures Select(ks[..i + 1], entries, c)
      == Select(ks[..i], entries, c) + if Qualifies(c, entries[ks[i]]) then [Entry(c, ks[i], entries[ks[i]])] else []
  {
    assert ks[..i + 1][..i] == ks[..i];
  }

  datatype Priority = High | Medium | Low

  function Rank(p: Priority): nat {
    match p
    case High => 0
    case Medium => 1
    case Low => 2
  }

  /** A recommendation; the prose description is reduced to the number of routes it names. */
  datatype Recommendation = Recommendation(priority: Priority, action: string, routeCount: nat)

  /** `len([r for r in cost_reduction_routes if r['total_shipments'] >= 5])`. */
  function HighVolumeCount(os: seq<Opportunity>): (n: nat)
    ensures n <= |os|
    ensures n > 0 <==> exists o :: o in os && o.CostReduction? && o.totalShipments >= 5
  {
    if os == [] then 0
    else
      var front := os[..|os| - 1];
      var o := os[|os| - 1];
      assert forall x :: x in os <==> x in front || x == o;
      HighVolumeCount(front) + if o.CostReduction? && o.totalShipments >= 5 then 1 else 0
  }

  /** `_prioritize_recommendations`: HIGH, MEDIUM, LOW, each present exactly when its own condition holds. */
  function PrioritizeRecommendations(costReduction: seq<Opportunity>, processImprovement: seq<Opportunity>,
                                     priceIncrease: seq<Opportunity>): (recs: seq<Recommendation>)
    ensures |recs| <= 3
    ensures forall i, j :: 0 <= i < j < |recs| ==> Rank(recs[i].priority) < Rank(recs[j].priority)
    ensures forall rec :: rec in recs && rec.priority == High ==>
      rec == Recommendation(High, "Cost Reduction", HighVolumeCount(costReduction))
    ensures forall rec :: rec in recs && rec.priority == Medium ==>
      rec == Recommendation(Medium, "Process Improvement", |processImprovement|)
    ensures forall rec :: rec in recs && rec.priority == Low ==>
      rec == Recommendation(Low, "Price Optimization", |priceIncrease|)
  {
    var high := HighVolumeCount(costReduction);
    (if high > 0 then [Recommendation(High, "Cost Reduction", high)] else [])
    + (if processImprovement != [] then [Recommendation(Medium, "Process Improvement", |processImprovement|)] else [])
    + (if priceIncrease != [] then [Recommendation(Low, "Price Optimization", |priceIncrease|)] else [])
  }

  /** Each recommendation is present exactly when its own condition holds. */
  lemma RecommendationConditions(costReduction: seq<Opportunity>, processImprovement: seq<Opportunity>,
                                 priceIncrease: seq<Opportunity>)
    ensures var recs := PrioritizeRecommendations(costReduction, processImprovement, priceIncrease);
      && (Recommendation(High, "Cost Reduction", HighVolumeCount(costReduction)) in recs
          <==> exists o :: o in costReduction && o.CostReduction? && o.totalShipments >= 5)
      && (Recommendation(Medium, "Process Improvement", |processImprovement|) in recs <==> processImprovement != [])
      && (Recommendation(Low, "Price Optimization", |priceIncrease|) in recs <==> priceIncrease != [])
  {
  }

  datatype OptimizationSummary = OptimizationSummary(
    totalRoutesAnalyzed: nat,
    lowMarginRoutesCount: nat,
    highPerformingRoutesCount: nat,
    slowRoutesCount: nat,
    optimizationPotential: nat,
    recommendationsPriority: seq<Recommendation>)

  datatype Opportunities = Opportunities(
    costReductionRoutes: seq<Opportunity>,
    priceIncreaseCandidates: seq<Opportunity>,
    processImprovementNeeded: seq<Opportunity>,
    highPerformers: seq<Opportunity>,
    summary: OptimizationSummary)

  /** Reference definition of the opportunities report over a route table. */
  function Classify(t: RouteTable): (o: Opportunities)
    requires forall k :: k in t.keys ==> k in t.entries
    ensures o.summary.totalRoutesAnalyzed == |t.keys|
    ensures o.summary.optimizationPotential == |o.costReductionRoutes| + |o.processImprovementNeeded|
    ensures o.summary.lowMarginRoutesCount == |o.costReductionRoutes|
    ensures o.summary.highPerformingRoutesCount == |o.priceIncreaseCandidates|
    ensures o.summary.slowRoutesCount == |o.processImprovementNeeded|
  {
    var cost := Select(t.keys, t.entries, CostReductionRoutes);
    var price := Select(t.keys, t.entries, PriceIncreaseCandidates);
    var process := Select(t.keys, t.entries, ProcessImprovementNeeded);
    var high := Select(t.keys, t.entries, HighPerformers);
    Opportunities(cost, price, process, high,
      OptimizationSummary(|t.keys|, |cost|, |price|, |process|, |cost| + |process|,
                          PrioritizeRecommendations(cost, process, price)))
  }

  method IdentifyOptimizationOpportunities(ss: seq<Shipment>) returns (o: Opportunities)
    ensures o == Classify(RouteProfitability(ss))
  {
    var routes := AnalyzeProfitabilityByRoute(ss);
    o := ClassifyRoutes(routes);
  }

  /** The loop over the route report that fills the four lists and the summary. */
  method ClassifyRoutes(routes: RouteTable) returns (o: Opportunities)
    requires forall k :: k in routes.keys ==> k in routes.entries
    ensures o == Classify(routes)
  {
    var costReduction: seq<Opportunity> := [];
    var priceIncrease: seq<Opportunity> := [];
    var processImprovement: seq<Opportunity> := [];
    var highPerformers: seq<Opportunity> := [];
    var lowMarginRoutes: seq<string> := [];
    var highPerformingRoutes: seq<string> := [];
    var slowRoutes: seq<string> := [];
    for i := 0 to |routes.keys|
      invariant costReduction == Select(routes.keys[..i], routes.entries, CostReductionRoutes)
      invariant priceIncrease == Select(routes.keys[..i], routes.entries, PriceIncreaseCandidates)
      invariant processImprovement == Select(routes.keys[..i], routes.entries, ProcessImprovementNeeded)
      invariant highPerformers == Select(routes.keys[..i], routes.entries, HighPerformers)
      invariant |lowMarginRoutes| == |costReduction|
      invariant |highPerformingRoutes| == |priceIncrease|
      invariant |slowRoutes| == |processImprovement|
    {
      var r := routes.keys[i];
      var m := routes.entries[r];
      SelectSnoc(routes.keys, routes.entries, CostReductionRoutes, i);
      SelectSnoc(routes.keys, routes.entries, PriceIncreaseCandidates, i);
      SelectSnoc(routes.keys, routes.entries, ProcessImprovementNeeded, i);
      SelectSnoc(routes.keys, routes.entries, HighPerformers, i);
      if m.avgProfitMargin < 10.0 {
        costReduction := costReduction + [CostReduction(r, m.avgProfitMargin, m.totalShipments, m.totalProfit)];
        lowMarginRoutes := lowMarginRoutes + [r];
      }
      if m.avgProfitMargin > 30.0 && m.avgDuration < 20.0 {
        priceIncrease := priceIncrease + [PriceIncrease(r, m.avgProfitMargin, m.avgDuration, m.totalRevenue)];
        highPerformingRoutes := highPerformingRoutes + [r];
      }
      if m.avgDuration > 45.0 {
        processImprovement := processImprovement + [ProcessImprovement(r, m.avgDuration, m.totalShipments, m.avgProfitMargin)];
        slowRoutes := slowRoutes + [r];
      }
      if m.avgProfitMargin > 25.0 && m.avgDuration < 30.0 && m.totalShipments >= 3 {
        highPerformers := highPerformers + [HighPerformer(r, m.avgProfitMargin, m.avgDuration, m.totalShipments)];
      }
    }
    assert routes.keys[..|routes.keys|] == routes.keys;
    var summary := OptimizationSummary(|routes.keys|, |lowMarginRoutes|, |highPerformingRoutes|, |slowRoutes|,
                                       |lowMarginRoutes| + |slowRoutes|,
                                       PrioritizeRecommendations(costReduction, processImprovement, priceIncrease));
    o := Opportunities(costReduction, priceIncrease, processImprovement, highPerformers, summary);
  }

  /**
    The lists overlap: a price-increase candidate with at least three shipments is
    also a high performer; no route is both a price-increase candidate and
    needs cost reduction or process improvement.
  */
  lemma ListsOverlap(t: RouteTable, r: string)
    requires forall k :: k in t.keys ==> k in t.entries
    requires r in t.keys
    ensures var o := Classify(t); var m := t.entries[r];
      && (Entry(PriceIncreaseCandidates, r, m) in o.priceIncreaseCandidates && m.totalShipments >= 3
          ==> Entry(HighPerformers, r, m) in o.highPerformers)
      && !(Entry(PriceIncreaseCandidates, r, m) in o.priceIncreaseCandidates
           && Entry(CostReductionRoutes, r, m) in o.costReductionRoutes)
      && !(Entry(PriceIncreaseCandidates, r, m) in o.priceIncreaseCandidates
           && Entry(ProcessImprovementNeeded, r, m) in o.processImprovementNeeded)
  {
    SelectMembers(t.keys, t.entries, CostReductionRoutes);
    SelectMembers(t.keys, t.entries, PriceIncreaseCandidates);
    SelectMembers(t.keys, t.entries, ProcessImprovementNeeded);
    SelectMembers(t.keys, t.entries, HighPerformers);
  }

  // ---------------------------------------------------------------------------
  // Business health and key insights (generate_business_insights)
  // ---------------------------------------------------------------------------

  datatype BusinessHealth = BusinessHealth(
    profitabilityScore: real,
    efficiencyScore: real,
    marginQualityScore: real,
    overallScore: real)

  /** `round(count / total * 100, 2) if total > 0 else 0`. */
  function Score(count: nat, total: nat): (r: real)
    requires count <= total
    ensures 0.0 <= r <= 100.0
    ensures total == 0 ==> r == 0.0
  {
    Round2(Rate(count, total))
  }

  /** The health scores of a batch of `total` shipments with the given flag counts. */
  function Health(profitable: nat, delayed: nat, highMargin: nat, total: nat): (h: BusinessHealth)
    requires profitable <= total && delayed <= total && highMargin <= total
    ensures total == 0 ==> h == BusinessHealth(0.0, 0.0, 0.0, 0.0)
    ensures 0.0 <= h.profitabilityScore <= 100.0 && 0.0 <= h.efficiencyScore <= 100.0
    ensures 0.0 <= h.marginQualityScore <= 100.0 && 0.0 <= h.overallScore <= 100.0
  {
    var profitability := Score(profitable, total);
    var efficiency := Score(total - delayed, total);
    var marginQuality := Score(highMargin, total);
    BusinessHealth(profitability, efficiency, marginQuality,
                   Round2(profitability * 0.4 + efficiency * 0.3 + marginQuality * 0.3))
  }

  /** The business health block of the insights report. */
  function HealthScores(ss: seq<Shipment>): BusinessHealth {
    Health(CountIf(ss, Profitable), CountIf(ss, Delayed), CountIf(ss, HighMargin), |ss|)
  }

  /** Efficiency counts the shipments that are NOT delayed: with none delayed it scores 100 ... */
  lemma EfficiencyAllOnTime(ss: seq<Shipment>)
    requires ss != [] && forall s :: s in ss ==> !s.isDelayed
    ensures HealthScores(ss).efficiencyScore == 100.0
  {
    CountIfZero(ss, Delayed);
    FullScore(|ss|);
    HealthEfficiency(CountIf(ss, Profitable), 0, CountIf(ss, HighMargin), |ss|);
  }

  /** ... and with all delayed it scores 0. */
  lemma EfficiencyAllDelayed(ss: seq<Shipment>)
    requires forall s :: s in ss ==> s.isDelayed
    ensures HealthScores(ss).efficiencyScore == 0.0
  {
    AllFlagged(ss, Delayed);
    ZeroScore(|ss|);
    HealthEfficiency(CountIf(ss, Profitable), |ss|, CountIf(ss, HighMargin), |ss|);
  }

  lemma HealthEfficiency(profitable: nat, delayed: nat, highMargin: nat, total: nat)
    requires profitable <= total && delayed <= total && highMargin <= total
    ensures Health(profitable, delayed, highMargin, total).efficiencyScore == Score(total - delayed, total)
  {
  }

  /** None of `n` counted scores 0. */
  lemma ZeroScore(n: nat)
    ensures Score(0, n) == 0.0
  {
    assert Rate(0, n) == 0.0;
  }

  /** Every one of `n > 0` counted scores 100. */
  lemma FullScore(n: nat)
    requires n > 0
    ensures Score(n, n) == 100.0
  {
    assert n as real / n as real == 1.0;
    Round2OfHundredths(10000);
  }

  datatype ProfitabilityBand = StrongProfitability | ModerateProfitability | LowProfitability
  datatype EfficiencyBand = ExcellentEfficiency | GoodEfficiency | ShippingDelays

  /** The key insights, as tags; the prose and emoji are not modelled. */
  datatype Insight =
    | ProfitabilityInsight(band: ProfitabilityBand)
    | BestRoute(route: string, margin: real)
    | WorstRoute(route: string, margin: real)
    | EfficiencyInsight(efficiency: EfficiencyBand)

  function ProfitabilityBandOf(score: real): (b: ProfitabilityBand)
    ensures b == StrongProfitability <==> score > 80.0
    ensures b == ModerateProfitability <==> 60.0 < score <= 80.0
    ensures b == LowProfitability <==> score <= 60.0
  {
    if score > 80.0 then StrongProfitability
    else if score > 60.0 then ModerateProfitability
    else LowProfitability
  }

  function EfficiencyBandOf(score: real): (b: EfficiencyBand)
    ensures b == ExcellentEfficiency <==> score > 85.0
    ensures b == GoodEfficiency <==> 70.0 < score <= 85.0
    ensures b == ShippingDelays <==> score <= 70.0
  {
    if score > 85.0 then ExcellentEfficiency
    else if score > 70.0 then GoodEfficiency
    else ShippingDelays
  }

  /** Python's `max` by margin over the first `n` routes: the FIRST route of greatest margin. */
  function BestIndex(ks: seq<string>, entries: map<string, RouteMetrics>, n: nat): (i: nat)
    requires 0 < n <= |ks|
    requires forall k :: k in ks ==> k in entries
    ensures i < n
    ensures forall j :: 0 <= j < n ==> entries[ks[j]].avgProfitMargin <= entries[ks[i]].avgProfitMargin
    ensures forall j :: 0 <= j < i ==> entries[ks[j]].avgProfitMargin < entries[ks[i]].avgProfitMargin
  {
    if n == 1 then 0
    else
      var b := BestIndex(ks, entries, n - 1);
      if entries[ks[n - 1]].avgProfitMargin > entries[ks[b]].avgProfitMargin then n - 1 else b
  }

  /** Python's `min` by margin over the first `n` routes: the FIRST route of least margin. */
  function WorstIndex(ks: seq<string>, entries: map<string, RouteMetrics>, n: nat): (i: nat)
    requires 0 < n <= |ks|
    requires forall k :: k in ks ==> k in entries
    ensures i < n
    ensures forall j :: 0 <= j < n ==> entries[ks[i]].avgProfitMargin <= entries[ks[j]].avgProfitMargin
    ensures forall j :: 0 <= j < i ==> entries[ks[i]].avgProfitMargin < entries[ks[j]].avgProfitMargin
  {
    if n == 1 then 0
    else
      var w := WorstIndex(ks, entries, n - 1);
      if entries[ks[n - 1]].avgProfitMargin < entries[ks[w]].avgProfitMargin then n - 1 else w
  }

  /** `_generate_key_insights`: profitability band, best and worst route when there are routes, efficiency band. */
  function KeyInsights(routes: RouteTable, health: BusinessHealth): (ins: seq<Insight>)
    requires forall k :: k in routes.keys ==> k in routes.entries
    ensures |ins| == if routes.keys == [] then 2 else 4
    ensures ins[0] == ProfitabilityInsight(ProfitabilityBandOf(health.profitabilityScore))
    ensures ins[|ins| - 1] == EfficiencyInsight(EfficiencyBandOf(health.efficiencyScore))
    ensures routes.keys != [] ==>
      && ins[1].BestRoute? && ins[1].route in routes.keys
      && ins[1].margin == routes.entries[ins[1].route].avgProfitMargin
      && (forall k :: k in routes.keys ==> routes.entries[k].avgProfitMargin <= ins[1].margin)
    ensures routes.keys != [] ==>
      && ins[2].WorstRoute? && ins[2].route in routes.keys
      && ins[2].margin == routes.entries[ins[2].route].avgProfitMargin
      && (forall k :: k in routes.keys ==> ins[2].margin <= routes.entries[k].avgProfitMargin)
  {
    var profitability := ProfitabilityInsight(ProfitabilityBandOf(health.profitabilityScore));
    var efficiency := EfficiencyInsight(EfficiencyBandOf(health.efficiencyScore));
    if routes.keys == [] then [profitability, efficiency]
    else
      var ks := routes.keys;
      var best := ks[BestIndex(ks, routes.entries, |ks|)];
      var worst := ks[WorstIndex(ks, routes.entries, |ks|)];
      [profitability,
       BestRoute(best, routes.entries[best].avgProfitMargin),
       WorstRoute(worst, routes.entries[worst].avgProfitMargin),
       efficiency]
  }

  datatype BusinessInsights = BusinessInsights(
    businessHealth: BusinessHealth,
    routeAnalysis: RouteTable,
    temporalAnalysis: TemporalAnalysis,
    optimizationOpportunities: Opportunities,
    keyInsights: seq<Insight>)

  method GenerateBusinessInsights(ss: seq<Shipment>) returns (report: BusinessInsights)
    ensures report.routeAnalysis == RouteProfitability(ss)
    ensures report.temporalAnalysis == TemporalTrends(ss)
    ensures report.optimizationOpportunities == Classify(RouteProfitability(ss))
    ensures report.businessHealth == HealthScores(ss)
    ensures report.keyInsights == KeyInsights(RouteProfitability(ss), HealthScores(ss))
  {
    var routeAnalysis := AnalyzeProfitabilityByRoute(ss);
    var temporalAnalysis := AnalyzeTemporalTrends(ss);
    var opportunities := IdentifyOptimizationOpportunities(ss);
    var health := HealthScores(ss);
    report := BusinessInsights(health, routeAnalysis, temporalAnalysis, opportunities,
                               KeyInsights(routeAnalysis, health));
  }
}
