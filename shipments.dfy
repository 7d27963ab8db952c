/**
  The shipment entity as the domain services read it, and the aggregates over a
  batch that more than one service computes (counts of flagged shipments, sums
  with a missing value taken as 0, means over the present values, percentages).

  How a shipment's derived fields (profit, margin, duration, year, month,
  quarter, the three flags) are computed from its raw fields is not part of this
  model: they are given fields here.
*/
module Shipments {
  import opened Wrappers

  /** A shipment with its derived fields; `None` where the services test for a missing value. */
  datatype Shipment = Shipment(
    route: string,
    cost: Option<real>,
    revenue: Option<real>,
    profit: Option<real>,
    profitMargin: Option<real>,
    shippingDurationDays: Option<int>,
    hasShippingDate: bool,
    year: int,
    month: int,
    quarter: int,
    isProfitable: bool,
    isHighMargin: bool,
    isDelayed: bool)

  /** A descriptor the validator returns for a rejected row; `errorType` is its `'type'` entry, if any. */
  datatype ValidationError = ValidationError(errorType: Option<string>, message: string)

  // Field selectors, passed to the aggregates below.
  function Cost(s: Shipment): Option<real> { s.cost }
  function Revenue(s: Shipment): Option<real> { s.revenue }
  function Profit(s: Shipment): Option<real> { s.profit }
  function Margin(s: Shipment): Option<real> { s.profitMargin }
  function Duration(s: Shipment): Option<real> {
    match s.shippingDurationDays
    case Some(d) => Some(d as real)
    case None => None
  }
  function Profitable(s: Shipment): bool { s.isProfitable }
  function HighMargin(s: Shipment): bool { s.isHighMargin }
  function Delayed(s: Shipment): bool { s.isDelayed }

  /** `sum(1 for s in ss if flag(s))`. */
  function CountIf(ss: seq<Shipment>, flag: Shipment -> bool): (n: nat)
    ensures n <= |ss|
  {
    if ss == [] then 0 else CountIf(ss[..|ss| - 1], flag) + (if flag(ss[|ss| - 1]) then 1 else 0)
  }

  /** The count is zero exactly when no shipment is flagged. */
  lemma {:induction false} CountIfZero(ss: seq<Shipment>, flag: Shipment -> bool)
    ensures CountIf(ss, flag) == 0 <==> forall s :: s in ss ==> !flag(s)
  {
    if ss != [] {
      var front := ss[..|ss| - 1];
      assert forall s :: s in ss <==> s in front || s == ss[|ss| - 1];
      CountIfZero(front, flag);
    }
  }

  /** The count is the whole batch when every shipment is flagged. */
  lemma {:induction false} AllFlagged(ss: seq<Shipment>, flag: Shipment -> bool)
    requires forall s :: s in ss ==> flag(s)
    ensures CountIf(ss, flag) == |ss|
  {
    if ss != [] {
      var front := ss[..|ss| - 1];
      assert forall s :: s in front ==> s in ss;
      AllFlagged(front, flag);
    }
  }

  /**
    `sum(field(s) or 0 for s in ss)`. It is also `sum(field(s) for s in ss if field(s))`,
    since leaving out a zero does not change a sum.
  */
  function SumOf(ss: seq<Shipment>, field: Shipment -> Option<real>): real {
    if ss == [] then 0.0 else SumOf(ss[..|ss| - 1], field) + field(ss[|ss| - 1]).GetOr(0.0)
  }

  /** The number of shipments whose `field` is not `None`. */
  function CountPresent(ss: seq<Shipment>, field: Shipment -> Option<real>): (n: nat)
    ensures n <= |ss|
  {
    if ss == [] then 0 else CountPresent(ss[..|ss| - 1], field) + (if field(ss[|ss| - 1]).Some? then 1 else 0)
  }

  /** A shipment whose `field` is present is counted. */
  lemma {:induction false} PresentIsCounted(ss: seq<Shipment>, field: Shipment -> Option<real>, s: Shipment)
    requires s in ss && field(s).Some?
    ensures CountPresent(ss, field) > 0
  {
    var front := ss[..|ss| - 1];
    if s != ss[|ss| - 1] {
      assert s in front by { assert ss == front + [ss[|ss| - 1]]; }
      PresentIsCounted(front, field, s);
    }
  }

  /** `sum(vs) / len(vs) if vs else 0` where `vs` are the present values of `field`. */
  function Mean(ss: seq<Shipment>, field: Shipment -> Option<real>): real {
    var n := CountPresent(ss, field);
    if n == 0 then 0.0 else SumOf(ss, field) / n as real
  }

  /** `count / total * 100 if total > 0 else 0`. */
  function Rate(count: nat, total: nat): (r: real)
    ensures total == 0 ==> r == 0.0
    ensures count <= total ==> 0.0 <= r <= 100.0
  {
    if total > 0 then count as real / total as real * 100.0 else 0.0
  }

  lemma RateOfAll(n: nat)
    requires n > 0
    ensures Rate(n, n) == 100.0
  {
    assert n as real / n as real == 1.0;
  }

  /** `k * n`, written as a repeated sum so that the bounds below stay linear. */
  function Times(k: real, n: nat): real {
    if n == 0 then 0.0 else Times(k, n - 1) + k
  }

  lemma {:induction false} TimesIsProduct(k: real, n: nat)
    ensures Times(k, n) == k * n as real
  {
    if n > 0 {
      TimesIsProduct(k, n - 1);
    }
  }

  /** With every value within `[lo, hi]`, the sum is bounded by the count times the bounds. */
  lemma {:induction false} SumOfBetween(ss: seq<Shipment>, field: Shipment -> Option<real>, lo: real, hi: real)
    requires forall i :: 0 <= i < |ss| && field(ss[i]).Some? ==> lo <= field(ss[i]).value <= hi
    ensures Times(lo, CountPresent(ss, field)) <= SumOf(ss, field) <= Times(hi, CountPresent(ss, field))
  {
    if ss != [] {
      var front := ss[..|ss| - 1];
      assert forall i :: 0 <= i < |front| ==> front[i] == ss[i];
      SumOfBetween(front, field, lo, hi);
    }
  }

  /** A mean lies between the least and the greatest value it averages. */
  lemma MeanBetween(ss: seq<Shipment>, field: Shipment -> Option<real>, lo: real, hi: real)
    requires forall s :: s in ss && field(s).Some? ==> lo <= field(s).value <= hi
    requires CountPresent(ss, field) > 0
    ensures lo <= Mean(ss, field) <= hi
  {
    assert forall i :: 0 <= i < |ss| ==> ss[i] in ss;
    SumOfBetween(ss, field, lo, hi);
    DivideWithinBounds(lo, hi, CountPresent(ss, field), SumOf(ss, field));
  }

  lemma DivideWithinBounds(lo: real, hi: real, n: nat, sum: real)
    requires n > 0 && Times(lo, n) <= sum <= Times(hi, n)
    ensures lo <= sum / n as real <= hi
  {
    TimesIsProduct(lo, n);
    TimesIsProduct(hi, n);
    var q := sum / n as real;
    assert q * n as real == sum;
  }

  /** When no value is missing, the present count is the whole batch. */
  lemma {:induction false} AllPresent(ss: seq<Shipment>, field: Shipment -> Option<real>)
    requires forall s :: s in ss ==> field(s).Some?
    ensures CountPresent(ss, field) == |ss|
  {
    if ss != [] {
      var front := ss[..|ss| - 1];
      assert forall s :: s in front ==> s in ss;
      AllPresent(front, field);
    }
  }

  /** Shipments that carry a shipping date, in their original order. */
  function Dated(ss: seq<Shipment>): (ds: seq<Shipment>)
    ensures |ds| <= |ss|
    ensures forall s :: s in ds <==> s in ss && s.hasShippingDate
  {
    if ss == [] then []
    else
      var front := ss[..|ss| - 1];
      var s := ss[|ss| - 1];
      assert forall t :: t in ss <==> t in front || t == s;
      Dated(front) + (if s.hasShippingDate then [s] else [])
  }
}
