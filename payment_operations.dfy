// Payment behaviour and operations analysis of `PaymentOperationsAnalyzer`:
// installment bands, satisfaction and delivery rates per group, the
// regional sample-size filter, payment diversity per state, installment
// preference against the median, and the operational recommendations.
module PaymentOperations {
  import opened Common
  import opened Stats
  import opened Tables

  /** One payment row of the feature-engineered dataset, with its customer's state merged in. */
  datatype Payment = Payment(
    orderId: string,
    paymentType: string,
    installments: int,
    value: real,
    reviewScore: Option<real>,
    state: Option<string>,
    status: string,
    onTime: Option<bool>,
    deliveryDays: Option<real>,
    processingDays: Option<real>,
    shippingDays: Option<real>,
    deliveryAccuracy: Option<string>)

  // =====================================================================
  // Selecting and grouping rows
  // =====================================================================

  /** Boolean indexing: the rows satisfying `p`, in order. */
  function Where<T(==,!new)>(s: seq<T>, p: T -> bool): (r: seq<T>)
    ensures Subseq(r, s)
    ensures forall x :: x in r <==> x in s && p(x)
    ensures |r| == CountWhere(s, p)
  {
    if s == [] then []
    else
      var rest := Where(s[1..], p);
      assert forall x :: x in s <==> x == s[0] || x in s[1..];
      if p(s[0]) then
        var r := [s[0]] + rest;
        assert r[1..] == rest;
        r
      else rest
  }

  /** The present values of a column (`dropna()`), in order. */
  function Present(ps: seq<Payment>, f: Payment -> Option<real>): (r: seq<real>)
    ensures forall x :: x in r <==> exists i :: 0 <= i < |ps| && f(ps[i]) == Some(x)
  {
    if ps == [] then []
    else
      var rest := Present(ps[1..], f);
      assert forall x :: (exists i :: 0 <= i < |ps| && f(ps[i]) == Some(x)) <==>
        f(ps[0]) == Some(x) || exists i :: 0 <= i < |ps[1..]| && f(ps[1..][i]) == Some(x) by {
        forall x ensures (exists i :: 0 <= i < |ps| && f(ps[i]) == Some(x)) ==>
          f(ps[0]) == Some(x) || exists i :: 0 <= i < |ps[1..]| && f(ps[1..][i]) == Some(x) {
          if exists i :: 0 <= i < |ps| && f(ps[i]) == Some(x) {
            var i :| 0 <= i < |ps| && f(ps[i]) == Some(x);
            if i > 0 {
              assert f(ps[1..][i - 1]) == Some(x);
            }
          }
        }
        forall x ensures (exists i :: 0 <= i < |ps[1..]| && f(ps[1..][i]) == Some(x)) ==>
          exists i :: 0 <= i < |ps| && f(ps[i]) == Some(x) {
          if exists i :: 0 <= i < |ps[1..]| && f(ps[1..][i]) == Some(x) {
            var i :| 0 <= i < |ps[1..]| && f(ps[1..][i]) == Some(x);
            assert f(ps[i + 1]) == Some(x);
          }
        }
      }
      (if f(ps[0]).Some? then [f(ps[0]).value] else []) + rest
  }

  /** The present keys of the rows, with repeats, in order. */
  function PresentKeys<K(==,!new)>(ps: seq<Payment>, key: Payment -> Option<K>): (ks: seq<K>)
    ensures forall k :: k in ks <==> exists i :: 0 <= i < |ps| && key(ps[i]) == Some(k)
  {
    if ps == [] then []
    else
      var rest := PresentKeys(ps[1..], key);
      assert forall k :: (exists i :: 0 <= i < |ps| && key(ps[i]) == Some(k)) <==>
        key(ps[0]) == Some(k) || exists i :: 0 <= i < |ps[1..]| && key(ps[1..][i]) == Some(k) by {
        forall k ensures (exists i :: 0 <= i < |ps| && key(ps[i]) == Some(k)) ==>
          key(ps[0]) == Some(k) || exists i :: 0 <= i < |ps[1..]| && key(ps[1..][i]) == Some(k) {
          if exists i :: 0 <= i < |ps| && key(ps[i]) == Some(k) {
            var i :| 0 <= i < |ps| && key(ps[i]) == Some(k);
            if i > 0 {
              assert key(ps[1..][i - 1]) == Some(k);
            }
          }
        }
        forall k ensures (exists i :: 0 <= i < |ps[1..]| && key(ps[1..][i]) == Some(k)) ==>
          exists i :: 0 <= i < |ps| && key(ps[i]) == Some(k) {
          if exists i :: 0 <= i < |ps[1..]| && key(ps[1..][i]) == Some(k) {
            var i :| 0 <= i < |ps[1..]| && key(ps[1..][i]) == Some(k);
            assert key(ps[i + 1]) == Some(k);
          }
        }
      }
      (if key(ps[0]).Some? then [key(ps[0]).value] else []) + rest
  }

  /**
   * The groups of `groupby(key)`: one per distinct present key (rows with a
   * missing key are dropped), in order of first appearance.
   */
  function GroupKeys<K(==,!new)>(ps: seq<Payment>, key: Payment -> Option<K>): (ks: seq<K>)
    ensures forall i, j :: 0 <= i < j < |ks| ==> ks[i] != ks[j]
    ensures forall k :: k in ks <==> exists i :: 0 <= i < |ps| && key(ps[i]) == Some(k)
  {
    Dedup(PresentKeys(ps, key))
  }

  /** The rows of one group. */
  function Group<K(==,!new)>(ps: seq<Payment>, key: Payment -> Option<K>, k: K): (g: seq<Payment>)
    ensures forall p :: p in g <==> p in ps && key(p) == Some(k)
  {
    Where(ps, p => key(p) == Some(k))
  }

  /** The key of a row with a present key names a group. */
  lemma KeyOfRow<K(!new)>(ps: seq<Payment>, key: Payment -> Option<K>, p: Payment)
    requires p in ps && key(p).Some?
    ensures key(p).value in GroupKeys(ps, key)
  {
    var i :| 0 <= i < |ps| && ps[i] == p;
  }

  /** Every group is named by the key of one of the rows. */
  lemma KeyWitness<K(!new)>(ps: seq<Payment>, key: Payment -> Option<K>, k: K) returns (p: Payment)
    requires k in GroupKeys(ps, key)
    ensures p in ps && key(p) == Some(k)
  {
    var i :| 0 <= i < |ps| && key(ps[i]) == Some(k);
    p := ps[i];
  }

  /** Every group `groupby` forms has at least one row. */
  lemma GroupNonEmpty<K(!new)>(ps: seq<Payment>, key: Payment -> Option<K>, k: K)
    requires k in GroupKeys(ps, key)
    ensures |Group(ps, key, k)| > 0
  {
    var i :| 0 <= i < |ps| && key(ps[i]) == Some(k);
    assert ps[i] in Group(ps, key, k);
  }

  function PaymentTypeKey(p: Payment): Option<string> { Some(p.paymentType) }
  function StateKey(p: Payment): Option<string> { p.state }
  function AccuracyKey(p: Payment): Option<string> { p.deliveryAccuracy }
  function StateTypeKey(p: Payment): Option<(string, string)>
  {
    if p.state.Some? then Some((p.state.value, p.paymentType)) else None
  }

  function ReviewOf(p: Payment): Option<real> { p.reviewScore }
  predicate Reviewed(p: Payment) { p.reviewScore.Some? }
  predicate OnTime(p: Payment) { p.onTime == Some(true) }
  predicate HasState(p: Payment) { p.state.Some? }

  /** `lambda x: x.sum() / len(x) * 100` on the on-time flag: missing flags count against the group. */
  function GroupOnTimeRate(g: seq<Payment>): (r: real)
    requires |g| > 0
    ensures 0.0 <= r <= 100.0
    ensures r == CountWhere(g, OnTime) as real / |g| as real * 100.0
  {
    var n := CountWhere(g, OnTime);
    Percent(n, |g|)
  }

  /** The mean review score of rows that all carry one. */
  function AverageReview(g: seq<Payment>): (r: real)
    requires |g| > 0 && forall p :: p in g ==> Reviewed(p)
    ensures Mean(Present(g, ReviewOf)) == Some(r)
  {
    assert g[0] in g;
    assert Reviewed(g[0]);
    assert g[0].reviewScore.value in Present(g, ReviewOf);
    Mean(Present(g, ReviewOf)).value
  }

  // =====================================================================
  // Installment bands
  // =====================================================================

  predicate Increasing(edges: seq<real>)
  {
    forall i, j :: 0 <= i < j < |edges| ==> edges[i] < edges[j]
  }

  function CutFrom(x: real, edges: seq<real>, i: nat): (b: nat)
    requires 1 <= i <= |edges| && Increasing(edges)
    requires i == 1 ==> edges[0] <= x
    requires i > 1 ==> edges[i - 1] < x
    ensures i - 1 <= b < |edges|
    ensures b == 0 ==> edges[0] <= x
    ensures b > 0 ==> edges[b] < x
    ensures b + 1 < |edges| ==> x <= edges[b + 1]
    decreases |edges| - i
  {
    if i == |edges| || x <= edges[i] then i - 1 else CutFrom(x, edges, i + 1)
  }

  /**
   * `pd.cut(x, bins=edges + [inf], include_lowest=True)`: the index `b` of
   * the bin `(edges[b], edges[b + 1]]` holding `x`, where the first bin also
   * holds its left edge and the last one is unbounded; missing below the
   * first edge.
   */
  function Cut(x: real, edges: seq<real>): (b: Option<nat>)
    requires |edges| >= 1 && Increasing(edges)
    ensures b.None? <==> x < edges[0]
    ensures b.Some? ==> b.value < |edges|
    ensures b.Some? && b.value == 0 ==> edges[0] <= x
    ensures b.Some? && b.value > 0 ==> edges[b.value] < x
    ensures b.Some? && b.value + 1 < |edges| ==> x <= edges[b.value + 1]
  {
    if x < edges[0] then None else Some(CutFrom(x, edges, 1))
  }

  datatype InstallmentCategory = SinglePayment | TwoToThree | FourToSix | SevenToTwelve | OverTwelve

  function CategoryLabel(c: InstallmentCategory): string
  {
    match c
    case SinglePayment => "Single Payment"
    case TwoToThree => "2-3 Installments"
    case FourToSix => "4-6 Installments"
    case SevenToTwelve => "7-12 Installments"
    case OverTwelve => "12+ Installments"
  }

  const InstallmentEdges: seq<real> := [0.0, 1.0, 3.0, 6.0, 12.0]
  const Bands: seq<InstallmentCategory> := [SinglePayment, TwoToThree, FourToSix, SevenToTwelve, OverTwelve]

  /** The band of an installment count; a negative count falls in no band. */
  function InstallmentCategoryOf(n: int): Option<InstallmentCategory>
  {
    var b := Cut(n as real, InstallmentEdges);
    if b.Some? then Some(Bands[b.value]) else None
  }

  /** The bands on whole installment counts. */
  lemma InstallmentBands(n: int)
    ensures InstallmentCategoryOf(n) == None <==> n < 0
    ensures InstallmentCategoryOf(n) == Some(SinglePayment) <==> 0 <= n <= 1
    ensures InstallmentCategoryOf(n) == Some(TwoToThree) <==> 2 <= n <= 3
    ensures InstallmentCategoryOf(n) == Some(FourToSix) <==> 4 <= n <= 6
    ensures InstallmentCategoryOf(n) == Some(SevenToTwelve) <==> 7 <= n <= 12
    ensures InstallmentCategoryOf(n) == Some(OverTwelve) <==> n > 12
  {
    var b := Cut(n as real, InstallmentEdges);
    assert n as real <= 1.0 <==> n <= 1;
    assert n as real <= 3.0 <==> n <= 3;
    assert n as real <= 6.0 <==> n <= 6;
    assert n as real <= 12.0 <==> n <= 12;
  }

  /** More installments never fall in an earlier band. */
  lemma InstallmentBandsMonotone(m: int, n: int)
    requires 0 <= m <= n
    ensures Cut(m as real, InstallmentEdges).value <= Cut(n as real, InstallmentEdges).value
  {
  }

  // =====================================================================
  // Satisfaction by installment band and by payment type
  // =====================================================================

  datatype CategorySatisfaction = CategorySatisfaction(
    category: InstallmentCategory, avgSatisfaction: Option<real>, reviewCount: nat)

  datatype TypeSatisfaction = TypeSatisfaction(
    paymentType: string, avgSatisfaction: real, reviewCount: nat, onTimeRate: real)

  /** The rows with a review score (`review_score.notna()`). */
  function SatisfactionData(ps: seq<Payment>): (r: seq<Payment>)
    ensures forall p :: p in r <==> p in ps && Reviewed(p)
  {
    Where(ps, Reviewed)
  }

  function BandIs(c: InstallmentCategory): Payment -> bool
  {
    (p: Payment) => InstallmentCategoryOf(p.installments) == Some(c)
  }

  function InBand(ps: seq<Payment>, c: InstallmentCategory): seq<Payment>
  {
    Where(ps, BandIs(c))
  }

  function CategoryRow(sat: seq<Payment>, c: InstallmentCategory): (r: CategorySatisfaction)
    requires forall p :: p in sat ==> Reviewed(p)
    ensures r.category == c && r.reviewCount == CountWhere(sat, BandIs(c))
    ensures r.avgSatisfaction.Some? <==> r.reviewCount > 0
  {
    var g := InBand(sat, c);
    assert |g| > 0 ==> g[0] in g && g[0] in sat && Reviewed(g[0]) && g[0].reviewScore.value in Present(g, ReviewOf);
    CategorySatisfaction(c, Mean(Present(g, ReviewOf)), |g|)
  }

  /**
   * Satisfaction per installment band. The band column is categorical, so
   * every band has a row, an empty one with a missing average.
   */
  function InstallmentSatisfaction(ps: seq<Payment>): (rows: seq<CategorySatisfaction>)
    ensures |rows| == |Bands|
    ensures forall i :: 0 <= i < |rows| ==> rows[i].category == Bands[i]
    ensures forall i :: 0 <= i < |rows| ==> rows[i].reviewCount == CountWhere(SatisfactionData(ps), BandIs(Bands[i]))
    ensures forall i :: 0 <= i < |rows| ==> (rows[i].avgSatisfaction.Some? <==> rows[i].reviewCount > 0)
  {
    var sat := SatisfactionData(ps);
    seq(|Bands|, i requires 0 <= i < |Bands| => CategoryRow(sat, Bands[i]))
  }

  /** A band's average lies within the range of review scores given. */
  lemma BandAverageWithinScores(ps: seq<Payment>, i: int, lo: real, hi: real)
    requires 0 <= i < |Bands|
    requires forall p :: p in ps && Reviewed(p) ==> lo <= p.reviewScore.value <= hi
    requires InstallmentSatisfaction(ps)[i].avgSatisfaction.Some?
    ensures lo <= InstallmentSatisfaction(ps)[i].avgSatisfaction.value <= hi
  {
    var g := InBand(SatisfactionData(ps), Bands[i]);
    var scores := Present(g, ReviewOf);
    forall k | 0 <= k < |scores| ensures lo <= scores[k] <= hi {
      assert scores[k] in scores;
      var j :| 0 <= j < |g| && ReviewOf(g[j]) == Some(scores[k]);
      assert g[j] in g;
    }
    MeanBetween(scores, lo, hi);
  }

  function TypeRow(sat: seq<Payment>, t: string): (r: TypeSatisfaction)
    requires t in GroupKeys(sat, PaymentTypeKey)
    requires forall p :: p in sat ==> Reviewed(p)
    ensures r.paymentType == t && r.reviewCount > 0
    ensures r.reviewCount == |Group(sat, PaymentTypeKey, t)|
    ensures Mean(Present(Group(sat, PaymentTypeKey, t), ReviewOf)) == Some(r.avgSatisfaction)
    ensures r.onTimeRate == GroupOnTimeRate(Group(sat, PaymentTypeKey, t))
  {
    var g := Group(sat, PaymentTypeKey, t);
    GroupNonEmpty(sat, PaymentTypeKey, t);
    TypeSatisfaction(t, AverageReview(g), |g|, GroupOnTimeRate(g))
  }

  /** Satisfaction per payment type, over the reviewed rows. */
  function PaymentSatisfaction(ps: seq<Payment>): (rows: seq<TypeSatisfaction>)
    ensures |rows| == |GroupKeys(SatisfactionData(ps), PaymentTypeKey)|
    ensures forall i :: 0 <= i < |rows| ==> rows[i] == TypeRow(SatisfactionData(ps), GroupKeys(SatisfactionData(ps), PaymentTypeKey)[i])
  {
    var sat := SatisfactionData(ps);
    TypeRows(sat, GroupKeys(sat, PaymentTypeKey))
  }

  /** One row per key of `ks`, in order. */
  function TypeRows(sat: seq<Payment>, ks: seq<string>): (rows: seq<TypeSatisfaction>)
    requires forall i :: 0 <= i < |ks| ==> ks[i] in GroupKeys(sat, PaymentTypeKey)
    requires forall p :: p in sat ==> Reviewed(p)
    ensures |rows| == |ks|
    ensures forall i :: 0 <= i < |rows| ==> rows[i] == TypeRow(sat, ks[i])
  {
    seq(|ks|, i requires 0 <= i < |ks| => TypeRow(sat, ks[i]))
  }

  /** Every payment-type row names the type of some reviewed payment. */
  lemma PaymentSatisfactionSound(ps: seq<Payment>)
    ensures forall r :: r in PaymentSatisfaction(ps) ==>
      exists p :: p in ps && Reviewed(p) && p.paymentType == r.paymentType
  {
    var rows := PaymentSatisfaction(ps);
    forall r | r in rows ensures exists p :: p in ps && Reviewed(p) && p.paymentType == r.paymentType {
      var i :| 0 <= i < |rows| && rows[i] == r;
      var p := TypeRowWitness(ps, i);
    }
  }

  /** The reviewed payment behind the `i`-th payment-type row. */
  lemma TypeRowWitness(ps: seq<Payment>, i: int) returns (p: Payment)
    requires 0 <= i < |PaymentSatisfaction(ps)|
    ensures p in ps && Reviewed(p) && p.paymentType == PaymentSatisfaction(ps)[i].paymentType
  {
    var sat := SatisfactionData(ps);
    var ks := GroupKeys(sat, PaymentTypeKey);
    assert PaymentSatisfaction(ps)[i].paymentType == ks[i];
    assert ks[i] in ks;
    p := KeyWitness(sat, PaymentTypeKey, ks[i]);
    assert PaymentTypeKey(p) == Some(p.paymentType);
  }

  /** Every payment type with a reviewed payment has a row. */
  lemma PaymentSatisfactionComplete(ps: seq<Payment>)
    ensures forall p :: p in ps && Reviewed(p) ==>
      exists r :: r in PaymentSatisfaction(ps) && r.paymentType == p.paymentType
  {
    var sat := SatisfactionData(ps);
    var ks := GroupKeys(sat, PaymentTypeKey);
    var rows := PaymentSatisfaction(ps);
    forall p | p in ps && Reviewed(p) ensures exists r :: r in rows && r.paymentType == p.paymentType {
      assert p in sat;
      KeyOfRow(sat, PaymentTypeKey, p);
      var i :| 0 <= i < |ks| && ks[i] == p.paymentType;
      assert rows[i] in rows;
    }
  }

  /** The payment-type table is empty exactly when no payment has a review. */
  lemma PaymentSatisfactionEmpty(ps: seq<Payment>)
    ensures |PaymentSatisfaction(ps)| == 0 <==> forall p :: p in ps ==> !Reviewed(p)
  {
    var rows := PaymentSatisfaction(ps);
    PaymentSatisfactionComplete(ps);
    PaymentSatisfactionSound(ps);
    if |rows| > 0 {
      assert rows[0] in rows;
    }
  }

  // =====================================================================
  // Regional satisfaction and the sample-size filter
  // =====================================================================

  datatype RegionalRow = RegionalRow(
    state: string, paymentType: string, avgSatisfaction: real, onTimeRate: real, orderCount: nat)

  function RegionalRowOf(sat: seq<Payment>, k: (string, string)): (r: RegionalRow)
    requires k in GroupKeys(sat, StateTypeKey)
    requires forall p :: p in sat ==> Reviewed(p)
    ensures r.state == k.0 && r.paymentType == k.1 && r.orderCount > 0
    ensures r.orderCount == |Group(sat, StateTypeKey, k)|
    ensures Mean(Present(Group(sat, StateTypeKey, k), ReviewOf)) == Some(r.avgSatisfaction)
    ensures r.onTimeRate == GroupOnTimeRate(Group(sat, StateTypeKey, k))
  {
    var g := Group(sat, StateTypeKey, k);
    GroupNonEmpty(sat, StateTypeKey, k);
    RegionalRow(k.0, k.1, AverageReview(g), GroupOnTimeRate(g), |g|)
  }

  /** Satisfaction per (state, payment type) over the reviewed rows whose customer has a state. */
  function RegionalSatisfaction(ps: seq<Payment>): (rows: seq<RegionalRow>)
    ensures forall r :: r in rows ==> r.orderCount > 0
    ensures |rows| == |GroupKeys(SatisfactionData(ps), StateTypeKey)|
    ensures forall i :: 0 <= i < |rows| ==>
      rows[i] == RegionalRowOf(SatisfactionData(ps), GroupKeys(SatisfactionData(ps), StateTypeKey)[i])
  {
    var sat := SatisfactionData(ps);
    var ks := GroupKeys(sat, StateTypeKey);
    seq(|ks|, i requires 0 <= i < |ks| => RegionalRowOf(sat, ks[i]))
  }

  const MinimumSample: nat := 50

  predicate Significant(r: RegionalRow) { r.orderCount >= MinimumSample }

  /** Only groups of at least 50 orders are kept, in their order. */
  function SignificantRegions(rows: seq<RegionalRow>): (r: seq<RegionalRow>)
    ensures Subseq(r, rows)
    ensures forall x :: x in r <==> x in rows && x.orderCount >= MinimumSample
  {
    Where(rows, Significant)
  }

  // =====================================================================
  // Overall delivery metrics
  // =====================================================================

  datatype DeliveryMetrics = DeliveryMetrics(
    totalOrders: nat,
    deliveredOrders: nat,
    deliveryRate: real,
    avgDeliveryDays: Option<real>,
    medianDeliveryDays: Option<real>,
    onTimeDeliveryRate: Option<real>,
    avgProcessingDays: Option<real>,
    avgShippingDays: Option<real>)

  predicate Delivered(p: Payment) { p.status == "delivered" }
  predicate OnTimeKnown(p: Payment) { p.onTime.Some? }
  function DeliveryDaysOf(p: Payment): Option<real> { p.deliveryDays }
  function ProcessingDaysOf(p: Payment): Option<real> { p.processingDays }
  function ShippingDaysOf(p: Payment): Option<real> { p.shippingDays }

  /**
   * `sum() / count() * 100` on the on-time flag: missing flags are left
   * out, and with none known the rate is NaN.
   */
  function OnTimeDeliveryRate(ps: seq<Payment>): (r: Option<real>)
    ensures r.Some? <==> exists i :: 0 <= i < |ps| && OnTimeKnown(ps[i])
    ensures r.Some? ==> 0.0 <= r.value <= 100.0
  {
    var known := Where(ps, OnTimeKnown);
    if |known| == 0 then None
    else Some(Percent(CountWhere(known, OnTime), |known|))
  }

  /**
   * The delivery metrics; `delivered / total` divides two Python integers,
   * so an empty table raises ZeroDivisionError.
   */
  function DeliveryMetricsOf(ps: seq<Payment>): (m: Outcome<DeliveryMetrics, string>)
    ensures m.Failed? <==> |ps| == 0
    ensures m.Ok? ==> m.value.totalOrders == |ps| && m.value.deliveredOrders <= m.value.totalOrders
    ensures m.Ok? ==> m.value.deliveredOrders == CountWhere(ps, Delivered)
    ensures m.Ok? ==> m.value.deliveryRate == Percent(m.value.deliveredOrders, m.value.totalOrders)
    ensures m.Ok? ==> m.value.onTimeDeliveryRate == OnTimeDeliveryRate(ps)
  {
    if |ps| == 0 then Failed("ZeroDivisionError: division by zero")
    else
      var delivered := CountWhere(ps, Delivered);
      var days := Present(ps, DeliveryDaysOf);
      var rate := Percent(delivered, |ps|);
      Ok(DeliveryMetrics(
        |ps|, delivered, rate,
        Mean(days), Median(days),
        OnTimeDeliveryRate(ps),
        Mean(Present(ps, ProcessingDaysOf)), Mean(Present(ps, ShippingDaysOf))))
  }

  /** The metrics as the dictionary `calculate_operational_performance_metrics` stores, under its own keys. */
  function MetricsDict(m: DeliveryMetrics): map<string, Option<real>>
  {
    map[
      "total_orders" := Some(m.totalOrders as real),
      "delivered_orders" := Some(m.deliveredOrders as real),
      "delivery_rate" := Some(m.deliveryRate),
      "avg_delivery_days" := m.avgDeliveryDays,
      "median_delivery_days" := m.medianDeliveryDays,
      "on_time_delivery_rate" := m.onTimeDeliveryRate,
      "avg_processing_days" := m.avgProcessingDays,
      "avg_shipping_days" := m.avgShippingDays
    ]
  }

  /** `dict.get(key, default)`. */
  function Get(d: map<string, Option<real>>, key: string, default: real): Option<real>
  {
    if key in d then d[key] else Some(default)
  }

  /**
   * The satisfaction baseline read from the metrics has no key to find, so
   * it is always the default 4.0, while the on-time rate is always found.
   */
  lemma MetricsLookups(m: DeliveryMetrics)
    ensures Get(MetricsDict(m), "avg_satisfaction", 4.0) == Some(4.0)
    ensures Get(MetricsDict(m), "on_time_delivery_rate", 0.0) == m.onTimeDeliveryRate
  {
    var d := MetricsDict(m);
    assert "avg_satisfaction" !in d by {
      assert d.Keys == {"total_orders", "delivered_orders", "delivery_rate", "avg_delivery_days",
        "median_delivery_days", "on_time_delivery_rate", "avg_processing_days", "avg_shipping_days"};
    }
  }

  // =====================================================================
  // Performance per state, delay impact and review rates
  // =====================================================================

  datatype StatePerformance = StatePerformance(state: string, onTimeRate: real, orderCount: nat)

  function StateRow(ps: seq<Payment>, s: string): (r: StatePerformance)
    requires s in GroupKeys(ps, StateKey)
    ensures r.state == s && r.orderCount > 0 && 0.0 <= r.onTimeRate <= 100.0
    ensures r.orderCount == |Group(ps, StateKey, s)|
    ensures r.onTimeRate == GroupOnTimeRate(Group(ps, StateKey, s))
  {
    var g := Group(ps, StateKey, s);
    GroupNonEmpty(ps, StateKey, s);
    StatePerformance(s, GroupOnTimeRate(g), |g|)
  }

  function OnTimeRateOf(r: StatePerformance): real { r.onTimeRate }

  /** One row per state, best on-time rate first. */
  function StatePerformanceOf(ps: seq<Payment>): (rows: seq<StatePerformance>)
    ensures |rows| == |GroupKeys(ps, StateKey)|
    ensures forall i, j :: 0 <= i < j < |rows| ==> rows[i].onTimeRate >= rows[j].onTimeRate
    ensures forall r :: r in rows ==> r.state in GroupKeys(ps, StateKey) && r == StateRow(ps, r.state)
    ensures forall i, j :: 0 <= i < j < |rows| ==> rows[i].state != rows[j].state
    ensures forall s :: s in GroupKeys(ps, StateKey) ==> StateRow(ps, s) in rows
  {
    var ks := GroupKeys(ps, StateKey);
    var rows := StateRows(ps, ks);
    var sorted := SortDescending(rows, OnTimeRateOf);
    StateTableReordered(ps, ks, rows, sorted);
    sorted
  }

  /** Reordering the per-state rows keeps one row per state, each that state's own. */
  lemma StateTableReordered(ps: seq<Payment>, ks: seq<string>, rows: seq<StatePerformance>, sorted: seq<StatePerformance>)
    requires forall i :: 0 <= i < |ks| ==> ks[i] in GroupKeys(ps, StateKey)
    requires forall i, j :: 0 <= i < j < |ks| ==> ks[i] != ks[j]
    requires |rows| == |ks| && forall i :: 0 <= i < |rows| ==> rows[i] == StateRow(ps, ks[i])
    requires multiset(sorted) == multiset(rows)
    ensures forall r :: r in sorted ==> r.state in GroupKeys(ps, StateKey) && r == StateRow(ps, r.state)
    ensures forall i, j :: 0 <= i < j < |sorted| ==> sorted[i].state != sorted[j].state
    ensures forall s :: s in ks ==> StateRow(ps, s) in sorted
  {
    SortedKeepsRows(rows, sorted);
    forall r | r in sorted ensures r.state in GroupKeys(ps, StateKey) && r == StateRow(ps, r.state) {
      var i :| 0 <= i < |rows| && rows[i] == r;
    }
    assert forall i, j :: 0 <= i < j < |rows| ==> rows[i] != rows[j] by {
      forall i, j | 0 <= i < j < |rows| ensures rows[i] != rows[j] {
        assert rows[i].state == ks[i] && rows[j].state == ks[j];
      }
    }
    PermutationKeepsDistinct(rows, sorted);
    forall s | s in ks ensures StateRow(ps, s) in sorted {
      var i :| 0 <= i < |ks| && ks[i] == s;
      assert rows[i] in multiset(sorted);
    }
  }

  /** One row per key of `ks`, in order. */
  function StateRows(ps: seq<Payment>, ks: seq<string>): (rows: seq<StatePerformance>)
    requires forall i :: 0 <= i < |ks| ==> ks[i] in GroupKeys(ps, StateKey)
    ensures |rows| == |ks|
    ensures forall i :: 0 <= i < |rows| ==> rows[i] == StateRow(ps, ks[i])
  {
    seq(|ks|, i requires 0 <= i < |ks| => StateRow(ps, ks[i]))
  }

  /** A reordering of a column without repeats has no repeats either. */
  lemma PermutationKeepsDistinct<T>(a: seq<T>, b: seq<T>)
    requires multiset(a) == multiset(b)
    requires forall i, j :: 0 <= i < j < |a| ==> a[i] != a[j]
    ensures forall i, j :: 0 <= i < j < |b| ==> b[i] != b[j]
  {
    forall i, j | 0 <= i < j < |b| ensures b[i] != b[j] {
      if b[i] == b[j] {
        assert b == b[..j] + b[j..];
        assert b[i] in b[..j] && b[j] in b[j..];
        assert multiset(b)[b[i]] >= 2;
        AtMostOnce(a, b[i]);
        assert false;
      }
    }
  }

  /** An element occurs at most once in a column without repeats. */
  lemma {:induction false} AtMostOnce<T>(a: seq<T>, x: T)
    requires forall i, j :: 0 <= i < j < |a| ==> a[i] != a[j]
    ensures multiset(a)[x] <= 1
  {
    if a != [] {
      assert a == [a[0]] + a[1..];
      AtMostOnce(a[1..], x);
      if a[0] == x {
        assert x !in a[1..];
      }
    }
  }

  /** A reordering holds no row that was not there before. */
  lemma SortedKeepsRows<T>(rows: seq<T>, sorted: seq<T>)
    requires multiset(sorted) == multiset(rows)
    ensures forall r :: r in sorted ==> r in rows
  {
    forall r | r in sorted ensures r in rows {
      assert r in multiset(sorted);
    }
  }

  /** The state table has a row exactly when some payment's customer has a state. */
  lemma StatesPresent(ps: seq<Payment>)
    ensures |StatePerformanceOf(ps)| > 0 <==> exists p :: p in ps && HasState(p)
  {
    if exists p :: p in ps && HasState(p) {
      var p :| p in ps && HasState(p);
      KeyOfRow(ps, StateKey, p);
    }
  }

  datatype DelayImpact = DelayImpact(
    deliveryAccuracy: string, avgSatisfaction: Option<real>, orderCount: nat, satisfactionImpact: Option<real>)

  function Minus(a: Option<real>, b: Option<real>): Option<real>
  {
    if a.Some? && b.Some? then Some(a.value - b.value) else None
  }

  function DelayRow(ps: seq<Payment>, a: string, metrics: map<string, Option<real>>): (r: DelayImpact)
    ensures r.deliveryAccuracy == a && r.orderCount == |Group(ps, AccuracyKey, a)|
    ensures r.avgSatisfaction == Mean(Present(Group(ps, AccuracyKey, a), ReviewOf))
    ensures r.satisfactionImpact.Some? <==> r.avgSatisfaction.Some? && Get(metrics, "avg_satisfaction", 4.0).Some?
    ensures r.satisfactionImpact.Some? ==>
      r.satisfactionImpact.value == r.avgSatisfaction.value - Get(metrics, "avg_satisfaction", 4.0).value
  {
    var g := Group(ps, AccuracyKey, a);
    var avg := Mean(Present(g, ReviewOf));
    DelayImpact(a, avg, |g|, Minus(avg, Get(metrics, "avg_satisfaction", 4.0)))
  }

  /** Satisfaction per delivery-accuracy class and its distance from the baseline. */
  function DelayImpactOf(ps: seq<Payment>, metrics: map<string, Option<real>>): (rows: seq<DelayImpact>)
    ensures |rows| == |GroupKeys(ps, AccuracyKey)|
    ensures forall i :: 0 <= i < |rows| ==> rows[i] == DelayRow(ps, GroupKeys(ps, AccuracyKey)[i], metrics)
  {
    var ks := GroupKeys(ps, AccuracyKey);
    seq(|ks|, i requires 0 <= i < |ks| => DelayRow(ps, ks[i], metrics))
  }

  /** With the metrics the analyzer stores, every impact is the average minus 4.0. */
  lemma SatisfactionImpactAgainstFour(ps: seq<Payment>, m: DeliveryMetrics)
    ensures forall r :: r in DelayImpactOf(ps, MetricsDict(m)) ==>
      (r.satisfactionImpact.Some? <==> r.avgSatisfaction.Some?)
      && (r.avgSatisfaction.Some? ==> r.satisfactionImpact.value == r.avgSatisfaction.value - 4.0)
  {
    MetricsLookups(m);
  }

  datatype ReviewRate = ReviewRate(paymentType: string, reviews: nat, orders: nat, reviewRate: real)

  function ReviewRow(ps: seq<Payment>, t: string): (r: ReviewRate)
    requires t in GroupKeys(ps, PaymentTypeKey)
    ensures r.paymentType == t && 0 < r.orders && r.reviews <= r.orders
    ensures r.reviews == CountWhere(Group(ps, PaymentTypeKey, t), Reviewed)
    ensures r.reviewRate == Percent(r.reviews, r.orders)
  {
    var g := Group(ps, PaymentTypeKey, t);
    GroupNonEmpty(ps, PaymentTypeKey, t);
    var reviews := CountWhere(g, Reviewed);
    ReviewRate(t, reviews, |g|, Percent(reviews, |g|))
  }

  /** The share of orders with a review, per payment type. */
  function ReviewRatesOf(ps: seq<Payment>): (rows: seq<ReviewRate>)
    ensures |rows| == |GroupKeys(ps, PaymentTypeKey)|
    ensures forall i :: 0 <= i < |rows| ==> rows[i] == ReviewRow(ps, GroupKeys(ps, PaymentTypeKey)[i])
  {
    var ks := GroupKeys(ps, PaymentTypeKey);
    seq(|ks|, i requires 0 <= i < |ks| => ReviewRow(ps, ks[i]))
  }

  // =====================================================================
  // Payment diversity per state
  // =====================================================================

  function Total(counts: seq<nat>): nat
  {
    if counts == [] then 0 else counts[0] + Total(counts[1..])
  }

  lemma {:induction false} TotalAtLeastEach(counts: seq<nat>, i: int)
    requires 0 <= i < |counts|
    ensures counts[i] <= Total(counts)
  {
    if i > 0 {
      TotalAtLeastEach(counts[1..], i - 1);
    }
  }

  /** Each count scaled by `k`. */
  function Scaled(counts: seq<nat>, k: real): (s: seq<real>)
    ensures |s| == |counts|
    ensures forall i :: 0 <= i < |s| ==> s[i] == counts[i] as real * k
  {
    if counts == [] then [] else [counts[0] as real * k] + Scaled(counts[1..], k)
  }

  lemma {:induction false} SumScaled(counts: seq<nat>, k: real)
    ensures Sum(Scaled(counts, k)) == Total(counts) as real * k
  {
    if counts != [] {
      SumScaled(counts[1..], k);
      assert Scaled(counts, k)[1..] == Scaled(counts[1..], k);
    }
  }

  lemma ScaledSign(c: nat, k: real)
    requires k > 0.0
    ensures c as real * k >= 0.0
    ensures c as real * k > 0.0 <==> c > 0
  {
    if c > 0 {
      assert c as real >= 1.0;
      assert c as real * k >= 1.0 * k;
    }
  }

  lemma QuotientScale(total: nat)
    requires total > 0
    ensures 100.0 / total as real > 0.0
    ensures total as real * (100.0 / total as real) == 100.0
  {
  }

  /** `crosstab(..., normalize='index') * 100`: each count as a percentage of the row. */
  function Shares(counts: seq<nat>): (s: seq<real>)
    requires Total(counts) > 0
    ensures |s| == |counts|
    ensures forall i :: 0 <= i < |s| ==> 0.0 <= s[i] && (s[i] > 0.0 <==> counts[i] > 0)
    ensures Sum(s) == 100.0
  {
    var k := 100.0 / Total(counts) as real;
    QuotientScale(Total(counts));
    SumScaled(counts, k);
    ScaledSigns(counts, k);
    Scaled(counts, k)
  }

  /** Scaling by a positive factor keeps every count's sign. */
  lemma ScaledSigns(counts: seq<nat>, k: real)
    requires k > 0.0
    ensures forall i :: 0 <= i < |counts| ==>
      0.0 <= Scaled(counts, k)[i] && (Scaled(counts, k)[i] > 0.0 <==> counts[i] > 0)
  {
    var s := Scaled(counts, k);
    forall i | 0 <= i < |counts| ensures 0.0 <= s[i] && (s[i] > 0.0 <==> counts[i] > 0) {
      ScaledSign(counts[i], k);
    }
  }

  /** Σ (share / 100)², the Herfindahl concentration. */
  function Square(x: real): real { x * x }

  function Concentration(shares: seq<real>): real
  {
    if shares == [] then 0.0
    else Square(shares[0] / 100.0) + Concentration(shares[1..])
  }

  /** `1 - sum((x / 100) ** 2)`. */
  function Diversity(shares: seq<real>): real
  {
    1.0 - Concentration(shares)
  }

  predicate NonNegative(s: seq<real>)
  {
    forall i :: 0 <= i < |s| ==> s[i] >= 0.0
  }

  /** At most one share is positive: the state pays one way only. */
  predicate SingleMethod(s: seq<real>)
  {
    forall i, j :: 0 <= i < j < |s| ==> s[i] == 0.0 || s[j] == 0.0
  }

  lemma {:induction false} SumZeroIffAllZero(s: seq<real>)
    requires NonNegative(s)
    ensures Sum(s) >= 0.0
    ensures Sum(s) == 0.0 <==> forall i :: 0 <= i < |s| ==> s[i] == 0.0
  {
    if s != [] {
      SumZeroIffAllZero(s[1..]);
      assert forall i :: 1 <= i < |s| ==> s[i] == s[1..][i - 1];
    }
  }

  lemma SquareOfSum(a: real, b: real, q: real)
    requires a >= 0.0 && b >= 0.0 && 0.0 <= q <= Square(b)
    ensures Square(a) + q <= Square(a + b)
    ensures Square(a) + q == Square(a + b) <==> q == Square(b) && (a == 0.0 || b == 0.0)
  {
    assert (a + b) * (a + b) == a * a + 2.0 * (a * b) + b * b;
    assert a * b >= 0.0;
    assert a > 0.0 && b > 0.0 ==> a * b > 0.0;
  }

  /**
   * Σ x² ≤ (Σ x)² on shares scaled to fractions, with equality exactly when
   * at most one share is positive.
   */
  lemma {:induction false} ConcentrationAtMostSquare(s: seq<real>)
    requires NonNegative(s)
    ensures 0.0 <= Concentration(s) <= Square(Sum(s) / 100.0)
    ensures Concentration(s) == Square(Sum(s) / 100.0) <==> SingleMethod(s)
  {
    if s != [] {
      var rest := s[1..];
      assert NonNegative(rest);
      ConcentrationAtMostSquare(rest);
      SumZeroIffAllZero(rest);
      var a := s[0] / 100.0;
      var b := Sum(rest) / 100.0;
      assert Sum(s) / 100.0 == a + b;
      SquareOfSum(a, b, Concentration(rest));
      assert SingleMethod(s) <==> SingleMethod(rest) && (s[0] == 0.0 || Sum(rest) == 0.0) by {
        forall i | 1 <= i < |s| ensures s[i] == rest[i - 1] { }
      }
    }
  }

  lemma SquarePositive(x: real)
    requires x > 0.0
    ensures Square(x) > 0.0
  {
    calc {
      Square(x);
      x * x;
    >
      0.0;
    }
  }

  /** A positive share makes the concentration positive. */
  lemma {:induction false} ConcentrationPositive(s: seq<real>, i: int)
    requires NonNegative(s) && 0 <= i < |s| && s[i] > 0.0
    ensures Concentration(s) > 0.0
  {
    assert NonNegative(s[1..]);
    ConcentrationAtMostSquare(s[1..]);
    if i > 0 {
      assert s[1..][i - 1] == s[i];
      ConcentrationPositive(s[1..], i - 1);
      assert Square(s[0] / 100.0) >= 0.0 by {
        ConcentrationAtMostSquare([s[0]]);
      }
    } else {
      SquarePositive(s[0] / 100.0);
    }
  }

  /**
   * The diversity of a state's payment mix lies in [0, 1), and is 0
   * exactly when the state uses a single payment method.
   */
  lemma DiversityRange(counts: seq<nat>)
    requires Total(counts) > 0
    ensures 0.0 <= Diversity(Shares(counts)) < 1.0
    ensures Diversity(Shares(counts)) == 0.0 <==> forall i, j :: 0 <= i < j < |counts| ==> counts[i] == 0 || counts[j] == 0
  {
    var s := Shares(counts);
    ConcentrationAtMostSquare(s);
    assert Sum(s) / 100.0 == 1.0;
    var i := PositiveCount(counts);
    ConcentrationPositive(s, i);
    assert SingleMethod(s) <==> forall i, j :: 0 <= i < j < |counts| ==> counts[i] == 0 || counts[j] == 0;
  }

  lemma {:induction false} PositiveCount(counts: seq<nat>) returns (i: nat)
    requires Total(counts) > 0
    ensures i < |counts| && counts[i] > 0
  {
    if counts[0] > 0 {
      i := 0;
    } else {
      var j := PositiveCount(counts[1..]);
      i := j + 1;
    }
  }

  // =====================================================================
  // Regional profile: installment preference against the median
  // =====================================================================

  datatype Preference = HighInstallmentUsage | LowInstallmentUsage

  /** `np.where(x > median, 'High…', 'Low…')`: a NaN median makes every state Low. */
  function PreferenceOf(x: real, median: Option<real>): (p: Preference)
    ensures p == HighInstallmentUsage <==> median.Some? && x > median.value
  {
    if median.Some? && x > median.value then HighInstallmentUsage else LowInstallmentUsage
  }

  function Preferences(avgs: seq<real>): (ps: seq<Preference>)
    ensures |ps| == |avgs|
    ensures forall i :: 0 <= i < |avgs| ==> (ps[i] == HighInstallmentUsage <==> avgs[i] > Median(avgs).value)
  {
    var m := Median(avgs);
    seq(|avgs|, i requires 0 <= i < |avgs| => PreferenceOf(avgs[i], m))
  }

  predicate IsHigh(p: Preference) { p == HighInstallmentUsage }

  /**
   * At most half of the states, rounded down, use installments above the
   * median, and with any state at all some state is Low.
   */
  lemma HighAtMostHalf(avgs: seq<real>)
    ensures CountWhere(Preferences(avgs), IsHigh) <= |avgs| / 2
    ensures |avgs| > 0 ==> CountWhere(Preferences(avgs), IsHigh) < |avgs|
  {
    if |avgs| > 0 {
      var m := Median(avgs).value;
      CountHighIsCountAbove(avgs, m);
      MedianHalves(avgs);
    }
  }

  lemma {:induction false} CountHighIsCountAbove(avgs: seq<real>, m: real)
    requires |avgs| > 0 && Median(avgs) == Some(m)
    ensures CountWhere(Preferences(avgs), IsHigh) == CountWhere(avgs, Exceeds(m))
  {
    CountMapped(avgs, Preferences(avgs), m);
  }

  lemma {:induction false} CountMapped(avgs: seq<real>, prefs: seq<Preference>, m: real)
    requires |prefs| == |avgs|
    requires forall i :: 0 <= i < |avgs| ==> (prefs[i] == HighInstallmentUsage <==> avgs[i] > m)
    ensures CountWhere(prefs, IsHigh) == CountWhere(avgs, Exceeds(m))
  {
    if avgs != [] {
      CountMapped(avgs[1..], prefs[1..], m);
    }
  }

  datatype RegionProfile = RegionProfile(
    state: string, avgInstallments: real, paymentDiversity: real, installmentPreference: Preference)

  function PaidWith(t: string): Payment -> bool { (p: Payment) => p.paymentType == t }

  function InstallmentsOf(p: Payment): Option<real> { Some(p.installments as real) }

  /** The payment types that are columns of the crosstab: those used by customers with a state. */
  function MixTypes(ps: seq<Payment>): seq<string>
  {
    GroupKeys(Where(ps, HasState), PaymentTypeKey)
  }

  /** How many of a state's payments use each payment type. */
  function MixCounts(g: seq<Payment>, types: seq<string>): (c: seq<nat>)
    ensures |c| == |types|
    ensures forall i :: 0 <= i < |c| ==> c[i] == CountWhere(g, PaidWith(types[i]))
  {
    seq(|types|, i requires 0 <= i < |types| => CountWhere(g, PaidWith(types[i])))
  }

  function StateAverageInstallments(ps: seq<Payment>, s: string): (a: real)
    requires s in GroupKeys(ps, StateKey)
    ensures Mean(Present(Group(ps, StateKey, s), InstallmentsOf)) == Some(a)
  {
    var g := Group(ps, StateKey, s);
    GroupNonEmpty(ps, StateKey, s);
    assert InstallmentsOf(g[0]).Some?;
    Mean(Present(g, InstallmentsOf)).value
  }

  /** The payment mix of a state always has a payment to count. */
  lemma MixHasPayments(ps: seq<Payment>, s: string)
    requires s in GroupKeys(ps, StateKey)
    ensures Total(MixCounts(Group(ps, StateKey, s), MixTypes(ps))) > 0
  {
    var g := Group(ps, StateKey, s);
    GroupNonEmpty(ps, StateKey, s);
    var p := g[0];
    assert p in g;
    var withState := Where(ps, HasState);
    assert p in withState;
    var i :| 0 <= i < |withState| && withState[i] == p;
    assert PaymentTypeKey(withState[i]) == Some(p.paymentType);
    var types := MixTypes(ps);
    assert p.paymentType in types;
    var j :| 0 <= j < |types| && types[j] == p.paymentType;
    var counts := MixCounts(g, types);
    assert counts[j] > 0 by {
      assert PaidWith(types[j])(g[0]);
    }
    TotalAtLeastEach(counts, j);
  }

  function StateDiversity(ps: seq<Payment>, s: string): (d: real)
    requires s in GroupKeys(ps, StateKey)
    ensures 0.0 <= d < 1.0
  {
    MixHasPayments(ps, s);
    DiversityRange(MixCounts(Group(ps, StateKey, s), MixTypes(ps)));
    Diversity(Shares(MixCounts(Group(ps, StateKey, s), MixTypes(ps))))
  }

  /** The `avg_installments` column of the profiles. */
  function InstallmentColumn(rows: seq<RegionProfile>): (c: seq<real>)
    ensures |c| == |rows| && forall i :: 0 <= i < |rows| ==> c[i] == rows[i].avgInstallments
  {
    seq(|rows|, i requires 0 <= i < |rows| => rows[i].avgInstallments)
  }

  /** The `installment_preference` column of the profiles. */
  function PreferenceColumn(rows: seq<RegionProfile>): (c: seq<Preference>)
    ensures |c| == |rows| && forall i :: 0 <= i < |rows| ==> c[i] == rows[i].installmentPreference
  {
    seq(|rows|, i requires 0 <= i < |rows| => rows[i].installmentPreference)
  }

  /**
   * One profile per state: mean installments, payment diversity in [0, 1),
   * and the installment preference of each state's mean against the median
   * of all of them.
   */
  function RegionalAnalysis(ps: seq<Payment>): (rows: seq<RegionProfile>)
    ensures |rows| == |GroupKeys(ps, StateKey)|
    ensures forall i :: 0 <= i < |rows| ==> rows[i].state == GroupKeys(ps, StateKey)[i]
    ensures forall i :: 0 <= i < |rows| ==> 0.0 <= rows[i].paymentDiversity < 1.0
    ensures forall i :: 0 <= i < |rows| ==> rows[i].avgInstallments == StateAverageInstallments(ps, GroupKeys(ps, StateKey)[i])
    ensures forall i :: 0 <= i < |rows| ==> rows[i].paymentDiversity == StateDiversity(ps, GroupKeys(ps, StateKey)[i])
    ensures PreferenceColumn(rows) == Preferences(InstallmentColumn(rows))
  {
    var ks := GroupKeys(ps, StateKey);
    var avgs := AverageColumn(ps, ks);
    var prefs := Preferences(avgs);
    var rows := Profiles(ps, ks, avgs, prefs);
    assert InstallmentColumn(rows) == avgs;
    assert PreferenceColumn(rows) == prefs;
    rows
  }

  /** The `avg_installments` of each state of `ks`, in order. */
  function AverageColumn(ps: seq<Payment>, ks: seq<string>): (avgs: seq<real>)
    requires forall i :: 0 <= i < |ks| ==> ks[i] in GroupKeys(ps, StateKey)
    ensures |avgs| == |ks| && forall i :: 0 <= i < |ks| ==> avgs[i] == StateAverageInstallments(ps, ks[i])
  {
    seq(|ks|, i requires 0 <= i < |ks| => StateAverageInstallments(ps, ks[i]))
  }

  /** The profile rows from the per-state columns, one per key of `ks`. */
  function Profiles(ps: seq<Payment>, ks: seq<string>, avgs: seq<real>, prefs: seq<Preference>): (rows: seq<RegionProfile>)
    requires forall i :: 0 <= i < |ks| ==> ks[i] in GroupKeys(ps, StateKey)
    requires |avgs| == |ks| && |prefs| == |ks|
    ensures |rows| == |ks|
    ensures forall i :: 0 <= i < |rows| ==> rows[i] == ProfileOf(ps, ks[i], avgs[i], prefs[i])
  {
    seq(|ks|, i requires 0 <= i < |ks| => ProfileOf(ps, ks[i], avgs[i], prefs[i]))
  }

  /** The profile of one state, given its installment average and preference. */
  function ProfileOf(ps: seq<Payment>, s: string, avg: real, pref: Preference): (r: RegionProfile)
    requires s in GroupKeys(ps, StateKey)
    ensures r.state == s && r.avgInstallments == avg && r.installmentPreference == pref
    ensures r.paymentDiversity == StateDiversity(ps, s) && 0.0 <= r.paymentDiversity < 1.0
  {
    RegionProfile(s, avg, StateDiversity(ps, s), pref)
  }

  /** At most half of the states, rounded down, show high installment usage. */
  lemma HighUsageStates(ps: seq<Payment>)
    ensures CountWhere(PreferenceColumn(RegionalAnalysis(ps)), IsHigh) <= |GroupKeys(ps, StateKey)| / 2
  {
    HighAtMostHalf(InstallmentColumn(RegionalAnalysis(ps)));
  }

  // =====================================================================
  // Operational recommendations
  // =====================================================================

  datatype Priority = Critical | High | Medium

  datatype Recommendation =
    | PromotePaymentMethod(best: string, worst: string)
    | FocusRegionalDelivery(states: seq<string>)
    | OptimizeInstallments(bestBand: Option<InstallmentCategory>)
    | ImproveOnTimeDelivery(onTimeRate: real)
    | IncreaseReviewRates(paymentTypes: seq<string>)

  function RecommendationCategory(r: Recommendation): string
  {
    match r
    case PromotePaymentMethod(_, _) => "Payment Method Optimization"
    case FocusRegionalDelivery(_) => "Regional Operations"
    case OptimizeInstallments(_) => "Payment Terms"
    case ImproveOnTimeDelivery(_) => "Delivery Operations"
    case IncreaseReviewRates(_) => "Customer Engagement"
  }

  function PriorityOf(r: Recommendation): Priority
  {
    match r
    case PromotePaymentMethod(_, _) => High
    case FocusRegionalDelivery(_) => High
    case OptimizeInstallments(_) => Medium
    case ImproveOnTimeDelivery(_) => Critical
    case IncreaseReviewRates(_) => Medium
  }

  /** `idxmax`: the first position holding the largest key. */
  function ArgMax<T>(s: seq<T>, key: T -> real): (i: nat)
    requires |s| > 0
    ensures i < |s|
    ensures forall j :: 0 <= j < |s| ==> key(s[j]) <= key(s[i])
    ensures forall j :: 0 <= j < i ==> key(s[j]) < key(s[i])
  {
    if |s| == 1 then 0
    else
      var k := ArgMax(s[..|s| - 1], key);
      assert forall j :: 0 <= j < |s| - 1 ==> s[..|s| - 1][j] == s[j];
      if key(s[|s| - 1]) > key(s[k]) then |s| - 1 else k
  }

  function SatisfactionOf(r: TypeSatisfaction): real { r.avgSatisfaction }
  function NegatedSatisfaction(r: TypeSatisfaction): real { -r.avgSatisfaction }

  /** The present band averages of the installment table. */
  function BandAverage(r: CategorySatisfaction): real
  {
    if r.avgSatisfaction.Some? then r.avgSatisfaction.value else 0.0
  }

  predicate Observed(r: CategorySatisfaction) { r.avgSatisfaction.Some? }

  /** `idxmax` over the band averages, skipping missing ones; None when every band is empty. */
  function BestBand(rows: seq<CategorySatisfaction>): (b: Option<InstallmentCategory>)
    ensures b.None? <==> forall r :: r in rows ==> r.avgSatisfaction.None?
    ensures b.Some? ==> exists r :: (r in rows && r.category == b.value && r.avgSatisfaction.Some?
      && forall q :: q in rows && q.avgSatisfaction.Some? ==> q.avgSatisfaction.value <= r.avgSatisfaction.value)
  {
    var observed := Where(rows, Observed);
    if |observed| == 0 then
      assert forall r :: r in rows ==> r.avgSatisfaction.None?;
      None
    else
      var i := ArgMax(observed, BandAverage);
      var r := observed[i];
      assert r in observed;
      assert forall q :: q in rows && q.avgSatisfaction.Some? ==> q.avgSatisfaction.value <= r.avgSatisfaction.value by {
        forall q | q in rows && q.avgSatisfaction.Some? ensures q.avgSatisfaction.value <= r.avgSatisfaction.value {
          assert q in observed;
          var j :| 0 <= j < |observed| && observed[j] == q;
        }
      }
      Some(r.category)
  }

  /** `tail(3)`: the last three rows, or all of them when there are fewer. */
  function LastStates(rows: seq<StatePerformance>): (s: seq<string>)
    ensures |s| == if |rows| < 3 then |rows| else 3
    ensures forall i :: 0 <= i < |s| ==> s[i] == rows[|rows| - |s| + i].state
  {
    var from := if |rows| < 3 then 0 else |rows| - 3;
    seq(|rows| - from, i requires 0 <= i < |rows| - from => rows[from + i].state)
  }

  predicate LowReviewRate(r: ReviewRate) { r.reviewRate < 50.0 }

  /** The payment types whose review rate is under 50 percent, in table order. */
  function LowReviewTypes(rows: seq<ReviewRate>): (ts: seq<string>)
    ensures |ts| == CountWhere(rows, LowReviewRate)
    ensures forall t :: t in ts <==> exists r :: r in rows && LowReviewRate(r) && r.paymentType == t
    ensures |ts| > 0 <==> exists r :: r in rows && LowReviewRate(r)
  {
    var low := Where(rows, LowReviewRate);
    var ts := seq(|low|, i requires 0 <= i < |low| => low[i].paymentType);
    assert forall t :: t in ts <==> exists r :: r in low && r.paymentType == t by {
      forall t | t in ts ensures exists r :: r in low && r.paymentType == t {
        var i :| 0 <= i < |ts| && ts[i] == t;
        assert low[i] in low;
      }
      forall t | exists r :: r in low && r.paymentType == t ensures t in ts {
        var r :| r in low && r.paymentType == t;
        var i :| 0 <= i < |low| && low[i] == r;
        assert ts[i] == t;
      }
    }
    forall r | r in rows && LowReviewRate(r) ensures |ts| > 0 {
      assert r in low;
    }
    ts
  }

  /** What the analyses have stored so far; absent until an analysis has run. */
  datatype AnalysisResults = AnalysisResults(
    installmentSatisfaction: Option<seq<CategorySatisfaction>>,
    paymentSatisfaction: Option<seq<TypeSatisfaction>>,
    regionalSatisfaction: Option<seq<RegionalRow>>,
    deliveryMetrics: Option<map<string, Option<real>>>,
    statePerformance: Option<seq<StatePerformance>>,
    delayImpact: Option<seq<DelayImpact>>,
    reviewRates: Option<seq<ReviewRate>>,
    regionalAnalysis: Option<seq<RegionProfile>>,
    recommendations: Option<seq<Recommendation>>)

  const NoResults := AnalysisResults(None, None, None, None, None, None, None, None, None)

  /** The on-time rate a stored metrics dictionary triggers the delivery recommendation with. */
  predicate OnTimeBelowTarget(res: AnalysisResults)
  {
    res.deliveryMetrics.Some?
      && var r := Get(res.deliveryMetrics.value, "on_time_delivery_rate", 0.0);
      r.Some? && r.value < 80.0
  }

  predicate SomeLowReviewRate(res: AnalysisResults)
  {
    res.reviewRates.Some? && exists r :: r in res.reviewRates.value && LowReviewRate(r)
  }

  /** The payment-method recommendation: best and worst type by satisfaction. */
  function PaymentPart(res: AnalysisResults): (r: seq<Recommendation>)
    requires res.paymentSatisfaction != Some([])
    ensures |r| <= 1 && (|r| == 1 <==> res.paymentSatisfaction.Some?)
    ensures forall x :: x in r ==> x.PromotePaymentMethod?
  {
    if res.paymentSatisfaction.Some? then
      var rows := res.paymentSatisfaction.value;
      [PromotePaymentMethod(rows[ArgMax(rows, SatisfactionOf)].paymentType, rows[ArgMax(rows, NegatedSatisfaction)].paymentType)]
    else []
  }

  /** The regional recommendation: the last three states by on-time rate. */
  function RegionalPart(res: AnalysisResults): (r: seq<Recommendation>)
    ensures |r| <= 1 && (|r| == 1 <==> res.statePerformance.Some?)
    ensures forall x :: x in r ==> x.FocusRegionalDelivery?
  {
    if res.statePerformance.Some? then [FocusRegionalDelivery(LastStates(res.statePerformance.value))] else []
  }

  /** The payment-terms recommendation: the best installment band. */
  function TermsPart(res: AnalysisResults): (r: seq<Recommendation>)
    ensures |r| <= 1
    ensures |r| == 1 <==> res.installmentSatisfaction.Some? && |res.installmentSatisfaction.value| > 0
    ensures forall x :: x in r ==> x.OptimizeInstallments?
  {
    if res.installmentSatisfaction.Some? && |res.installmentSatisfaction.value| > 0 then
      [OptimizeInstallments(BestBand(res.installmentSatisfaction.value))]
    else []
  }

  /** The delivery recommendation: an on-time rate under 80 percent. */
  function DeliveryPart(res: AnalysisResults): (r: seq<Recommendation>)
    ensures |r| <= 1 && (|r| == 1 <==> OnTimeBelowTarget(res))
    ensures forall x :: x in r ==> x.ImproveOnTimeDelivery? && x.onTimeRate < 80.0
  {
    if OnTimeBelowTarget(res) then
      [ImproveOnTimeDelivery(Get(res.deliveryMetrics.value, "on_time_delivery_rate", 0.0).value)]
    else []
  }

  /** The engagement recommendation: the payment types reviewed less than half the time. */
  function EngagementPart(res: AnalysisResults): (r: seq<Recommendation>)
    ensures |r| <= 1 && (|r| == 1 <==> SomeLowReviewRate(res))
    ensures forall x :: x in r ==> (x.IncreaseReviewRates? && res.reviewRates.Some?
      && forall t :: t in x.paymentTypes <==> exists q :: q in res.reviewRates.value && LowReviewRate(q) && q.paymentType == t)
  {
    if res.reviewRates.Some? && |LowReviewTypes(res.reviewRates.value)| > 0 then
      [IncreaseReviewRates(LowReviewTypes(res.reviewRates.value))]
    else []
  }

  /**
   * `generate_operational_recommendations`: one recommendation per stored
   * analysis that calls for it, in a fixed order; `idxmax` over an empty
   * payment satisfaction table raises.
   */
  function OperationalRecommendations(res: AnalysisResults): (r: Outcome<seq<Recommendation>, string>)
    ensures r.Failed? <==> res.paymentSatisfaction == Some([])
    ensures r.Ok? ==> |r.value| <= 5
  {
    if res.paymentSatisfaction == Some([]) then Failed("ValueError: attempt to get argmax of an empty sequence")
    else Ok(PaymentPart(res) + RegionalPart(res) + TermsPart(res) + DeliveryPart(res) + EngagementPart(res))
  }

  /** The recommendations are those of the five parts. */
  lemma RecommendationParts(res: AnalysisResults)
    requires res.paymentSatisfaction != Some([])
    ensures forall x :: x in OperationalRecommendations(res).value <==>
      x in PaymentPart(res) || x in RegionalPart(res) || x in TermsPart(res) || x in DeliveryPart(res) || x in EngagementPart(res)
  {
    var p, g, t, d, e := PaymentPart(res), RegionalPart(res), TermsPart(res), DeliveryPart(res), EngagementPart(res);
    assert OperationalRecommendations(res).value == p + g + t + d + e;
  }

  /**
   * Each recommendation is made exactly when its trigger holds: a stored
   * payment satisfaction table, a stored state table, an on-time rate under
   * 80 percent (the only Critical one), and a payment type reviewed less
   * than half the time, naming exactly those types.
   */
  lemma RecommendationTriggers(res: AnalysisResults)
    requires res.paymentSatisfaction != Some([])
    ensures (exists x :: x in OperationalRecommendations(res).value && x.PromotePaymentMethod?)
      <==> res.paymentSatisfaction.Some?
    ensures (exists x :: x in OperationalRecommendations(res).value && x.FocusRegionalDelivery?)
      <==> res.statePerformance.Some?
    ensures (exists x :: x in OperationalRecommendations(res).value && PriorityOf(x) == Critical)
      <==> OnTimeBelowTarget(res)
    ensures (exists x :: x in OperationalRecommendations(res).value && x.IncreaseReviewRates?)
      <==> SomeLowReviewRate(res)
  {
    RecommendationParts(res);
    PromoteTrigger(res);
    FocusTrigger(res);
    CriticalTrigger(res);
    ReviewTrigger(res);
  }

  // One trigger each, from which part can hold which kind of recommendation.

  lemma PromoteTrigger(res: AnalysisResults)
    requires res.paymentSatisfaction != Some([])
    requires forall x :: x in OperationalRecommendations(res).value <==>
      x in PaymentPart(res) || x in RegionalPart(res) || x in TermsPart(res) || x in DeliveryPart(res) || x in EngagementPart(res)
    ensures (exists x :: x in OperationalRecommendations(res).value && x.PromotePaymentMethod?)
      <==> res.paymentSatisfaction.Some?
  {
    var p := PaymentPart(res);
    assert |p| == 1 ==> p[0] in p;
  }

  lemma FocusTrigger(res: AnalysisResults)
    requires res.paymentSatisfaction != Some([])
    requires forall x :: x in OperationalRecommendations(res).value <==>
      x in PaymentPart(res) || x in RegionalPart(res) || x in TermsPart(res) || x in DeliveryPart(res) || x in EngagementPart(res)
    ensures (exists x :: x in OperationalRecommendations(res).value && x.FocusRegionalDelivery?)
      <==> res.statePerformance.Some?
  {
    var g := RegionalPart(res);
    assert |g| == 1 ==> g[0] in g;
  }

  lemma CriticalTrigger(res: AnalysisResults)
    requires res.paymentSatisfaction != Some([])
    requires forall x :: x in OperationalRecommendations(res).value <==>
      x in PaymentPart(res) || x in RegionalPart(res) || x in TermsPart(res) || x in DeliveryPart(res) || x in EngagementPart(res)
    ensures (exists x :: x in OperationalRecommendations(res).value && PriorityOf(x) == Critical)
      <==> OnTimeBelowTarget(res)
  {
    var d := DeliveryPart(res);
    assert |d| == 1 ==> d[0] in d;
  }

  lemma ReviewTrigger(res: AnalysisResults)
    requires res.paymentSatisfaction != Some([])
    requires forall x :: x in OperationalRecommendations(res).value <==>
      x in PaymentPart(res) || x in RegionalPart(res) || x in TermsPart(res) || x in DeliveryPart(res) || x in EngagementPart(res)
    ensures (exists x :: x in OperationalRecommendations(res).value && x.IncreaseReviewRates?)
      <==> SomeLowReviewRate(res)
  {
    var e := EngagementPart(res);
    assert |e| == 1 ==> e[0] in e;
  }

  /** The engagement recommendation names exactly the payment types reviewed less than half the time. */
  lemma EngagementNamesLowTypes(res: AnalysisResults)
    requires res.paymentSatisfaction != Some([])
    ensures forall x :: x in OperationalRecommendations(res).value && x.IncreaseReviewRates? ==>
      forall t :: t in x.paymentTypes <==> exists q :: q in res.reviewRates.value && LowReviewRate(q) && q.paymentType == t
  {
    RecommendationParts(res);
  }

  // =====================================================================
  // The analyzer
  // =====================================================================

  /**
   * The performance step on given results: an empty table changes nothing,
   * otherwise the tables are stored and the step succeeds exactly when the
   * state table has a row.
   */
  method PerformanceStep(res: AnalysisResults, ps: seq<Payment>) returns (r: AnalysisResults, ok: bool)
    ensures |ps| == 0 ==> r == res && !ok
    ensures |ps| > 0 ==> r == WithPerformance(res, ps) && (ok <==> exists p :: p in ps && HasState(p))
  {
    if |ps| == 0 {
      return res, false;
    }
    var states := StatePerformanceOf(ps);
    StatesPresent(ps);
    r := WithPerformance(res, ps);
    ok := |states| > 0;
  }

  /** The four performance tables stored once the delivery metrics exist. */
  function WithPerformance(res: AnalysisResults, ps: seq<Payment>): AnalysisResults
    requires |ps| > 0
  {
    var d := MetricsDict(DeliveryMetricsOf(ps).value);
    res.(
      deliveryMetrics := Some(d),
      statePerformance := Some(StatePerformanceOf(ps)),
      delayImpact := Some(DelayImpactOf(ps, d)),
      reviewRates := Some(ReviewRatesOf(ps)))
  }

  /** The recommendation list for given results, appending one recommendation at a time. */
  method BuildRecommendations(res: AnalysisResults) returns (recs: Outcome<seq<Recommendation>, string>)
    ensures recs == OperationalRecommendations(res)
  {
    if res.paymentSatisfaction == Some([]) {
      return Failed("ValueError: attempt to get argmax of an empty sequence");
    }
    var list: seq<Recommendation> := [];
    if res.paymentSatisfaction.Some? {
      var rows := res.paymentSatisfaction.value;
      var best := rows[ArgMax(rows, SatisfactionOf)].paymentType;
      var worst := rows[ArgMax(rows, NegatedSatisfaction)].paymentType;
      list := list + [PromotePaymentMethod(best, worst)];
    }
    assert list == PaymentPart(res);
    if res.statePerformance.Some? {
      list := list + [FocusRegionalDelivery(LastStates(res.statePerformance.value))];
    }
    assert list == PaymentPart(res) + RegionalPart(res);
    if res.installmentSatisfaction.Some? && |res.installmentSatisfaction.value| > 0 {
      list := list + [OptimizeInstallments(BestBand(res.installmentSatisfaction.value))];
    }
    assert list == PaymentPart(res) + RegionalPart(res) + TermsPart(res);
    if res.deliveryMetrics.Some? {
      var onTime := Get(res.deliveryMetrics.value, "on_time_delivery_rate", 0.0);
      if onTime.Some? && onTime.value < 80.0 {
        list := list + [ImproveOnTimeDelivery(onTime.value)];
      }
    }
    assert list == PaymentPart(res) + RegionalPart(res) + TermsPart(res) + DeliveryPart(res);
    if res.reviewRates.Some? {
      var low := LowReviewTypes(res.reviewRates.value);
      if |low| > 0 {
        list := list + [IncreaseReviewRates(low)];
      }
    }
    assert list == PaymentPart(res) + RegionalPart(res) + TermsPart(res) + DeliveryPart(res)
      + EngagementPart(res);
    recs := Ok(list);
  }

  class PaymentOperationsAnalyzer {
    const payments: seq<Payment>
    var results: AnalysisResults

    /** The merged payment rows, which `_load_datasets` reads from disk, are given here. */
    constructor(payments: seq<Payment>)
      ensures this.payments == payments && results == NoResults
    {
      this.payments := payments;
      results := NoResults;
    }

    /**
     * `analyze_installment_satisfaction_relationship`: stores the four
     * tables, then fails on `idxmax` when no payment has a review.
     */
    method AnalyzeInstallmentSatisfactionRelationship() returns (ok: bool)
      modifies this
      ensures results == old(results).(
        installmentSatisfaction := Some(InstallmentSatisfaction(payments)),
        paymentSatisfaction := Some(PaymentSatisfaction(payments)),
        regionalSatisfaction := Some(SignificantRegions(RegionalSatisfaction(payments))))
      ensures ok <==> exists p :: p in payments && Reviewed(p)
    {
      var byType := PaymentSatisfaction(payments);
      results := results.(
        installmentSatisfaction := Some(InstallmentSatisfaction(payments)),
        paymentSatisfaction := Some(byType),
        regionalSatisfaction := Some(SignificantRegions(RegionalSatisfaction(payments))));
      ok := |byType| > 0;
      PaymentSatisfactionEmpty(payments);
    }

    /**
     * `calculate_operational_performance_metrics`: raises before storing
     * anything on an empty table; otherwise stores the metrics and tables,
     * then fails reading the best state when no payment has a state.
     */
    method CalculateOperationalPerformanceMetrics() returns (ok: bool)
      modifies this
      ensures |payments| == 0 ==> results == old(results) && !ok
      ensures |payments| > 0 ==>
        results == WithPerformance(old(results), payments)
        && (ok <==> exists p :: p in payments && HasState(p))
    {
      results, ok := PerformanceStep(results, payments);
    }

    /**
     * `analyze_regional_payment_behavior`: when no payment has a customer
     * state the profile table is empty and `pd.cut(..., bins=3)` raises
     * before anything is stored; otherwise the profiles are stored.
     */
    method AnalyzeRegionalPaymentBehavior() returns (ok: bool)
      modifies this
      ensures ok <==> |GroupKeys(payments, StateKey)| > 0
      ensures ok ==> results == old(results).(regionalAnalysis := Some(RegionalAnalysis(payments)))
      ensures !ok ==> results == old(results)
    {
      var profiles := RegionalAnalysis(payments);
      ok := |profiles| > 0;
      if ok {
        results := results.(regionalAnalysis := Some(profiles));
      }
    }

    /** `generate_operational_recommendations`: builds the list and stores it unless building fails. */
    method GenerateOperationalRecommendations() returns (recs: Outcome<seq<Recommendation>, string>)
      modifies this
      ensures recs == OperationalRecommendations(old(results))
      ensures recs.Ok? ==> results == old(results).(recommendations := Some(recs.value))
      ensures recs.Failed? ==> results == old(results)
    {
      recs := BuildRecommendations(results);
      if recs.Ok? {
        results := results.(recommendations := Some(recs.value));
      }
    }
  }
}
