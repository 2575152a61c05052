// Feature engineering over the cleaned tables: delivery-performance bins,
// RFM scoring and customer segments, customer lifetime value, product
// lifecycle, geographic ratios and the market-opportunity score.
module FeatureEngineering {
  import opened Common
  import opened Stats

  // =====================================================================
  // Delivery performance
  // =====================================================================

  /** The order timestamps the delivery features read. */
  datatype Order = Order(
    purchase: Option<Timestamp>,
    carrierDate: Option<Timestamp>,
    deliveredDate: Option<Timestamp>,
    estimatedDate: Option<Timestamp>)

  datatype DeliverySpeed = VeryFast | Fast | Normal | Slow | VerySlow

  /** Right-closed bins (-inf,7], (7,14], (14,21], (21,30], (30,inf) over delivery days. */
  function DeliverySpeedOf(days: int): DeliverySpeed
  {
    if days <= 7 then VeryFast
    else if days <= 14 then Fast
    else if days <= 21 then Normal
    else if days <= 30 then Slow
    else VerySlow
  }

  /** The inclusive day range each speed label announces ("Fast (8-14d)", ...). */
  function AnnouncedDays(c: DeliverySpeed): (range: (Option<int>, Option<int>))
  {
    match c
    case VeryFast => (None, Some(7))
    case Fast => (Some(8), Some(14))
    case Normal => (Some(15), Some(21))
    case Slow => (Some(22), Some(30))
    case VerySlow => (Some(31), None)
  }

  predicate Announces(c: DeliverySpeed, days: int)
  {
    var (lo, hi) := AnnouncedDays(c);
    (lo.None? || lo.value <= days) && (hi.None? || days <= hi.value)
  }

  /** On whole days the bins agree with the labels: each day count is announced by exactly its own label. */
  lemma SpeedLabelsMatchBins(days: int, c: DeliverySpeed)
    ensures Announces(DeliverySpeedOf(days), days)
    ensures Announces(c, days) ==> c == DeliverySpeedOf(days)
  {
  }

  datatype DeliveryAccuracy = MuchEarlier | Earlier | OnTime | Late | VeryLate

  /** Right-closed bins (-inf,-7], (-7,0], (0,7], (7,14], (14,inf) over days past the estimate. */
  function DeliveryAccuracyOf(daysVsEstimate: int): DeliveryAccuracy
  {
    if daysVsEstimate <= -7 then MuchEarlier
    else if daysVsEstimate <= 0 then Earlier
    else if daysVsEstimate <= 7 then OnTime
    else if daysVsEstimate <= 14 then Late
    else VeryLate
  }

  /** `on_time_delivery`: delivered no later (in whole days) than estimated. */
  predicate OnTimeDelivery(daysVsEstimate: int)
  {
    daysVsEstimate <= 0
  }

  /**
   * The on-time flag is exactly the two "earlier" accuracy bins, so an order
   * labelled "On Time" by accuracy arrived one to seven days late and is not
   * flagged on time.
   */
  lemma OnTimeMatchesAccuracy(v: int)
    ensures OnTimeDelivery(v) <==> DeliveryAccuracyOf(v) in {MuchEarlier, Earlier}
    ensures DeliveryAccuracyOf(v) == OnTime ==> !OnTimeDelivery(v) && 1 <= v <= 7
  {
  }

  /**
   * Because `.dt.days` floors, an order counts as on time exactly when it
   * arrives less than a full day after the estimated timestamp.
   */
  lemma OnTimeWithinOneDay(delivered: Timestamp, estimated: Timestamp)
    ensures OnTimeDelivery(Days(delivered - estimated)) <==> delivered < estimated + SecondsPerDay
  {
  }

  datatype DeliveryFeatures = DeliveryFeatures(
    deliveryDays: Option<int>,
    speed: Option<DeliverySpeed>,
    daysVsEstimate: Option<int>,
    onTime: Option<bool>,
    accuracy: Option<DeliveryAccuracy>,
    processingDays: Option<int>,
    shippingDays: Option<int>,
    calendar: CalendarFeatures)

  predicate DeliveredMask(o: Order)
  {
    o.deliveredDate.Some? && o.purchase.Some?
  }

  predicate EstimateMask(o: Order)
  {
    DeliveredMask(o) && o.estimatedDate.Some?
  }

  predicate AnyDelivered(orders: seq<Order>)
  {
    exists i :: 0 <= i < |orders| && DeliveredMask(orders[i])
  }

  /**
   * The delivery columns of one order. Every delivery column is written
   * under the table-wide guard that at least one order was delivered;
   * processing and shipping days are therefore absent from a table with no
   * delivered order even where the carrier date is known. The calendar
   * columns are written for every order.
   */
  function DeliveryFeaturesOf(o: Order, anyDelivered: bool): (f: DeliveryFeatures)
    ensures f.deliveryDays.Some? <==> anyDelivered && DeliveredMask(o)
    ensures f.deliveryDays.Some? ==>
      f.deliveryDays.value * SecondsPerDay <= o.deliveredDate.value - o.purchase.value
        < (f.deliveryDays.value + 1) * SecondsPerDay
    ensures f.speed.Some? <==> f.deliveryDays.Some?
    ensures f.onTime.Some? <==> anyDelivered && EstimateMask(o)
    ensures f.onTime.Some? ==> (f.onTime.value <==> o.deliveredDate.value < o.estimatedDate.value + SecondsPerDay)
    ensures f.processingDays.Some? <==> anyDelivered && o.carrierDate.Some? && o.purchase.Some?
    ensures f.shippingDays.Some? <==> anyDelivered && o.deliveredDate.Some? && o.carrierDate.Some?
    ensures f.calendar == CalendarFeaturesOf(o.purchase)
  {
    if !anyDelivered then
      DeliveryFeatures(None, None, None, None, None, None, None, CalendarFeaturesOf(o.purchase))
    else
      var deliveryDays := if DeliveredMask(o) then DaysBetween(o.deliveredDate, o.purchase) else None;
      var vs := if EstimateMask(o) then DaysBetween(o.deliveredDate, o.estimatedDate) else None;
      OnTimeWithinOneDay(if vs.Some? then o.deliveredDate.value else 0, if vs.Some? then o.estimatedDate.value else 0);
      DeliveryFeatures(
        deliveryDays,
        if deliveryDays.Some? then Some(DeliverySpeedOf(deliveryDays.value)) else None,
        vs,
        if vs.Some? then Some(OnTimeDelivery(vs.value)) else None,
        if vs.Some? then Some(DeliveryAccuracyOf(vs.value)) else None,
        DaysBetween(o.carrierDate, o.purchase),
        DaysBetween(o.deliveredDate, o.carrierDate),
        CalendarFeaturesOf(o.purchase))
  }

  // ---------------------------------------------------------------------
  // Calendar columns and flags of the purchase time
  // ---------------------------------------------------------------------

  predicate IsWeekend(dayOfWeek: int) { dayOfWeek in {5, 6} }
  predicate IsHolidaySeason(month: int) { month in {11, 12} }
  predicate IsCarnivalSeason(month: int) { month in {2, 3} }
  predicate IsMothersDaySeason(month: int) { month == 5 }
  predicate IsValentinesSeason(month: int) { month == 6 }

  /** No month carries two of the seasonal event flags. */
  lemma EventSeasonsDisjoint(month: int)
    ensures (if IsHolidaySeason(month) then 1 else 0) + (if IsCarnivalSeason(month) then 1 else 0)
          + (if IsMothersDaySeason(month) then 1 else 0) + (if IsValentinesSeason(month) then 1 else 0) <= 1
  {
  }

  /**
   * The temporal columns of an order: year, month, weekday and hour
   * (`timing`), quarter, weekday name, ISO week, and the weekend and
   * season flags. A missing purchase time leaves the columns NaN and every
   * flag false (`isin` and `==` on NaN are false).
   */
  datatype CalendarFeatures = CalendarFeatures(
    timing: Option<OrderTiming>,
    quarter: Option<int>,
    dayName: Option<string>,
    weekOfYear: Option<int>,
    isWeekend: bool,
    isHolidaySeason: bool,
    isCarnivalSeason: bool,
    isMothersDaySeason: bool,
    isValentinesSeason: bool)

  function CalendarFeaturesOf(purchase: Option<Timestamp>): (f: CalendarFeatures)
    ensures f.timing == OrderTimingOf(purchase)
    ensures purchase.None? ==>
      f.quarter.None? && f.dayName.None? && f.weekOfYear.None?
      && !f.isWeekend && !f.isHolidaySeason && !f.isCarnivalSeason && !f.isMothersDaySeason && !f.isValentinesSeason
    ensures purchase.Some? ==>
      f.quarter == Some(Quarter(DateOf(purchase.value).month))
      && f.dayName == Some(DayName(DayOfWeekOf(purchase.value)))
      && f.weekOfYear == Some(IsoWeekOf(purchase.value))
  {
    var timing := OrderTimingOf(purchase);
    if timing.None? then
      CalendarFeatures(None, None, None, None, false, false, false, false, false)
    else
      var t := timing.value;
      CalendarFeatures(timing, Some(Quarter(t.month)), Some(DayName(t.dayOfWeek)), Some(IsoWeekOf(purchase.value)),
        IsWeekend(t.dayOfWeek), IsHolidaySeason(t.month), IsCarnivalSeason(t.month),
        IsMothersDaySeason(t.month), IsValentinesSeason(t.month))
  }

  /**
   * The weekend flag marks exactly the Saturday and Sunday orders; the
   * holiday flag marks exactly the November and December purchases; and an
   * order carries at most one season flag.
   */
  lemma CalendarFlagsFollowPurchase(purchase: Option<Timestamp>)
    ensures var f := CalendarFeaturesOf(purchase);
      && (f.isWeekend <==> f.dayName == Some("Saturday") || f.dayName == Some("Sunday"))
      && (f.isHolidaySeason <==> purchase.Some? && DateOf(purchase.value).month in {11, 12})
      && (if f.isHolidaySeason then 1 else 0) + (if f.isCarnivalSeason then 1 else 0)
         + (if f.isMothersDaySeason then 1 else 0) + (if f.isValentinesSeason then 1 else 0) <= 1
  {
    if purchase.Some? {
      var t := purchase.value;
      EventSeasonsDisjoint(DateOf(t).month);
      WeekendDayNames(DayOfWeekOf(t));
    }
  }

  /** The season flags agree with the quarter column: holiday in quarter 4, carnival in 1, Mothers Day and Valentines in 2. */
  lemma SeasonFlagQuarters(purchase: Option<Timestamp>)
    ensures var f := CalendarFeaturesOf(purchase);
      && (f.isHolidaySeason ==> f.quarter == Some(4))
      && (f.isCarnivalSeason ==> f.quarter == Some(1))
      && (f.isMothersDaySeason || f.isValentinesSeason ==> f.quarter == Some(2))
  {
    if purchase.Some? {
      var f := CalendarFeaturesOf(purchase);
      var m := DateOf(purchase.value).month;
      assert f.timing.value.month == m;
      var q := Quarter(m);
      assert f.quarter == Some(q);
      assert f.isHolidaySeason ==> q == 4;
    }
  }

  /** Orders placed exactly a week apart share their weekend flag and their day name. */
  lemma WeekendRepeatsWeekly(t: Timestamp)
    ensures CalendarFeaturesOf(Some(t + 7 * SecondsPerDay)).isWeekend == CalendarFeaturesOf(Some(t)).isWeekend
    ensures CalendarFeaturesOf(Some(t + 7 * SecondsPerDay)).dayName == CalendarFeaturesOf(Some(t)).dayName
  {
    WeekLater(t);
  }

  // =====================================================================
  // Customer behaviour: RFM, segments, lifetime value
  // =====================================================================

  /**
   * Per-customer aggregates of the orders table (count, sum and mean of order
   * value, last and first purchase). The left merge with the item totals
   * leaves an order without items valueless, so a customer none of whose
   * orders has items has no average order value.
   */
  datatype CustomerAggregate = CustomerAggregate(
    totalOrders: nat,
    totalRevenue: real,
    avgOrderValue: Option<real>,
    lastOrder: Timestamp,
    firstOrder: Timestamp)

  /** Days in the average month used to turn lifetimes into months. */
  const DaysPerMonth: real := 30.44

  function OrderFrequencyPerMonth(totalOrders: nat, lifetimeDays: int): (f: real)
    ensures lifetimeDays > 0 ==> f * (lifetimeDays as real / DaysPerMonth) == totalOrders as real
    ensures lifetimeDays <= 0 ==> f == totalOrders as real
  {
    if lifetimeDays > 0 then totalOrders as real / (lifetimeDays as real / DaysPerMonth)
    else totalOrders as real
  }

  function MaxReal(a: real, b: real): real { if a >= b then a else b }

  /** Average order value x purchase frequency x lifetime in months (at least one). */
  function EstimatedClv(avgOrderValue: real, totalOrders: nat, lifetimeDays: int): real
  {
    avgOrderValue * OrderFrequencyPerMonth(totalOrders, lifetimeDays)
      * MaxReal(lifetimeDays as real / DaysPerMonth, 1.0)
  }

  /**
   * The frequency and the lifetime cancel: lifetime value is average order
   * value times order count, except for lifetimes shorter than a month, where
   * it is scaled up by 30.44 / lifetime.
   */
  lemma {:induction false} ClvIsOrderValueTimesOrders(aov: real, orders: nat, lifetime: int)
    ensures lifetime <= 0 || lifetime >= 31 ==> EstimatedClv(aov, orders, lifetime) == aov * orders as real
    ensures 0 < lifetime < 31 ==>
      EstimatedClv(aov, orders, lifetime) * lifetime as real == aov * orders as real * DaysPerMonth
  {
    var months := lifetime as real / DaysPerMonth;
    var f := OrderFrequencyPerMonth(orders, lifetime);
    if lifetime >= 31 {
      assert months >= 1.0;
      assert EstimatedClv(aov, orders, lifetime) == aov * (f * months);
    } else if lifetime > 0 {
      assert months < 1.0;
      assert EstimatedClv(aov, orders, lifetime) == aov * f;
      assert f * months == orders as real;
      assert months * DaysPerMonth == lifetime as real;
      calc {
        aov * f * lifetime as real;
        aov * f * (months * DaysPerMonth);
        aov * (f * months) * DaysPerMonth;
      }
    } else {
      assert months <= 0.0;
    }
  }

  /** The composite RFM code, one decimal digit per score. */
  function RfmScore(r: int, f: int, m: int): int
  {
    r * 100 + f * 10 + m
  }

  /** With scores in 1..5 the code lies in 111..555 and its digits give back the three scores. */
  lemma RfmScoreDigits(r: int, f: int, m: int)
    requires 1 <= r <= 5 && 1 <= f <= 5 && 1 <= m <= 5
    ensures 111 <= RfmScore(r, f, m) <= 555
    ensures RfmScore(r, f, m) / 100 == r
    ensures (RfmScore(r, f, m) / 10) % 10 == f
    ensures RfmScore(r, f, m) % 10 == m
  {
    var s := RfmScore(r, f, m);
    assert s == 100 * r + (10 * f + m) && 0 <= 10 * f + m < 100;
    assert s / 10 == 10 * r + f;
  }

  /** Distinct customers never share an RFM code unless they share all three scores. */
  lemma RfmScoreInjective(r1: int, f1: int, m1: int, r2: int, f2: int, m2: int)
    requires 1 <= r1 <= 5 && 1 <= f1 <= 5 && 1 <= m1 <= 5
    requires 1 <= r2 <= 5 && 1 <= f2 <= 5 && 1 <= m2 <= 5
    requires RfmScore(r1, f1, m1) == RfmScore(r2, f2, m2)
    ensures r1 == r2 && f1 == f2 && m1 == m2
  {
    RfmScoreDigits(r1, f1, m1);
    RfmScoreDigits(r2, f2, m2);
  }

  datatype Segment =
    Champions | LoyalCustomers | NewCustomers | PotentialLoyalists | AtRisk
    | CannotLoseThem | Promising | Lost | Others

  /** `categorize_customer`: the first matching rule wins. */
  function CategorizeCustomer(r: int, f: int, m: int): Segment
  {
    if r >= 4 && f >= 4 && m >= 4 then Champions
    else if r >= 3 && f >= 3 && m >= 3 then LoyalCustomers
    else if r >= 4 && f <= 2 then NewCustomers
    else if r >= 3 && f >= 3 && m <= 2 then PotentialLoyalists
    else if r <= 2 && f >= 3 && m >= 3 then AtRisk
    else if r <= 2 && f <= 2 && m >= 3 then CannotLoseThem
    else if r >= 3 && f <= 2 && m <= 2 then Promising
    else if r <= 2 && f <= 2 && m <= 2 then Lost
    else Others
  }

  /**
   * The region of score space each segment actually receives once earlier
   * rules have taken their share: "Promising" only ever gets recency 3, and
   * "Others" is reached by two regions.
   */
  lemma SegmentRegions(r: int, f: int, m: int)
    requires 1 <= r <= 5 && 1 <= f <= 5 && 1 <= m <= 5
    ensures CategorizeCustomer(r, f, m) == Champions <==> r >= 4 && f >= 4 && m >= 4
    ensures CategorizeCustomer(r, f, m) == LoyalCustomers <==> r >= 3 && f >= 3 && m >= 3 && !(r >= 4 && f >= 4 && m >= 4)
    ensures CategorizeCustomer(r, f, m) == NewCustomers <==> r >= 4 && f <= 2
    ensures CategorizeCustomer(r, f, m) == PotentialLoyalists <==> r >= 3 && f >= 3 && m <= 2
    ensures CategorizeCustomer(r, f, m) == AtRisk <==> r <= 2 && f >= 3 && m >= 3
    ensures CategorizeCustomer(r, f, m) == CannotLoseThem <==> r <= 2 && f <= 2 && m >= 3
    ensures CategorizeCustomer(r, f, m) == Promising <==> r == 3 && f <= 2 && m <= 2
    ensures CategorizeCustomer(r, f, m) == Lost <==> r <= 2 && f <= 2 && m <= 2
    ensures CategorizeCustomer(r, f, m) == Others <==> (r <= 2 && f >= 3 && m <= 2) || (r == 3 && f <= 2 && m >= 3)
  {
  }

  datatype CustomerStatus = Active | Inactive | Churned

  function CustomerStatusOf(daysSinceLastOrder: int): (s: CustomerStatus)
    ensures s == Active <==> daysSinceLastOrder <= 90
    ensures s == Inactive <==> 90 < daysSinceLastOrder <= 180
    ensures s == Churned <==> daysSinceLastOrder > 180
  {
    if daysSinceLastOrder <= 90 then Active
    else if daysSinceLastOrder <= 180 then Inactive
    else Churned
  }

  datatype ClvCategory = LowValue | MediumValue | HighValue | Vip

  function ClvCategoryOf(bin: int): ClvCategory
    requires 1 <= bin <= 4
  {
    if bin == 1 then LowValue else if bin == 2 then MediumValue else if bin == 3 then HighValue else Vip
  }

  datatype CustomerFeatures = CustomerFeatures(
    daysSinceLastOrder: int,
    lifetimeDays: int,
    orderFrequencyPerMonth: real,
    recencyScore: int,
    frequencyScore: int,
    monetaryScore: int,
    rfmScore: int,
    segment: Segment,
    estimatedClv: Option<real>,
    clvCategory: Option<ClvCategory>,
    status: CustomerStatus,
    isRepeatCustomer: bool)

  /** Days since each customer's last order, counted from the analysis date. */
  function RecencyDays(aggs: seq<CustomerAggregate>, analysisDate: Timestamp): (d: seq<real>)
    ensures |d| == |aggs|
    ensures forall i :: 0 <= i < |aggs| ==> d[i] == Days(analysisDate - aggs[i].lastOrder) as real
  {
    seq(|aggs|, i requires 0 <= i < |aggs| => Days(analysisDate - aggs[i].lastOrder) as real)
  }

  function OrdersColumn(aggs: seq<CustomerAggregate>): (c: seq<real>)
    ensures |c| == |aggs|
  {
    seq(|aggs|, i requires 0 <= i < |aggs| => aggs[i].totalOrders as real)
  }

  function RevenueColumn(aggs: seq<CustomerAggregate>): (c: seq<real>)
    ensures |c| == |aggs|
  {
    seq(|aggs|, i requires 0 <= i < |aggs| => aggs[i].totalRevenue)
  }

  function LifetimeDays(a: CustomerAggregate): int
  {
    Days(a.lastOrder - a.firstOrder)
  }

  /** The estimated lifetime value, missing with the average order value. */
  function ClvOf(a: CustomerAggregate): Option<real>
  {
    if a.avgOrderValue.None? then None
    else Some(EstimatedClv(a.avgOrderValue.value, a.totalOrders, LifetimeDays(a)))
  }

  /**
   * The lifetime values present among the first `k` customers, in customer
   * order: the values `rank` ranks and `qcut` takes its edges from.
   */
  function KnownClvs(aggs: seq<CustomerAggregate>, k: nat): (v: seq<real>)
    requires k <= |aggs|
    ensures |v| <= k
  {
    if k == 0 then []
    else KnownClvs(aggs, k - 1) + (if ClvOf(aggs[k - 1]).Some? then [ClvOf(aggs[k - 1]).value] else [])
  }

  /** A customer with a lifetime value sits in the known values at the count of known values before it. */
  lemma {:induction false} KnownClvsPosition(aggs: seq<CustomerAggregate>, i: int, k: nat)
    requires 0 <= i < k <= |aggs| && ClvOf(aggs[i]).Some?
    ensures |KnownClvs(aggs, i)| < |KnownClvs(aggs, k)|
    ensures KnownClvs(aggs, k)[|KnownClvs(aggs, i)|] == ClvOf(aggs[i]).value
    decreases k
  {
    if k > i + 1 {
      KnownClvsPosition(aggs, i, k - 1);
    }
  }

  /** Two customers with an average order value are enough for the lifetime-value quartiles. */
  lemma {:induction false} TwoKnownClvs(aggs: seq<CustomerAggregate>, i: int, j: int)
    requires 0 <= i < j < |aggs|
    requires aggs[i].avgOrderValue.Some? && aggs[j].avgOrderValue.Some?
    ensures |KnownClvs(aggs, |aggs|)| >= 2
  {
    KnownClvsPosition(aggs, i, j);
    KnownClvsPosition(aggs, j, |aggs|);
  }

  /** With no average order value anywhere there is no lifetime value to rank. */
  lemma {:induction false} NoKnownClvs(aggs: seq<CustomerAggregate>, k: nat)
    requires k <= |aggs|
    requires forall i :: 0 <= i < k ==> aggs[i].avgOrderValue.None?
    ensures KnownClvs(aggs, k) == []
  {
    if k > 0 {
      NoKnownClvs(aggs, k - 1);
    }
  }

  /** One customer's features from its aggregate and its four bin labels. */
  function CustomerRow(a: CustomerAggregate, days: int, recencyBin: int, frequency: int, monetary: int,
    clvBin: Option<int>): (c: CustomerFeatures)
    requires 1 <= recencyBin <= 5 && 1 <= frequency <= 5 && 1 <= monetary <= 5
    requires clvBin.Some? ==> 1 <= clvBin.value <= 4
    ensures c.recencyScore == 6 - recencyBin && c.frequencyScore == frequency && c.monetaryScore == monetary
  {
    var recency := 6 - recencyBin;
    var lifetime := LifetimeDays(a);
    CustomerFeatures(
      days, lifetime, OrderFrequencyPerMonth(a.totalOrders, lifetime),
      recency, frequency, monetary, RfmScore(recency, frequency, monetary),
      CategorizeCustomer(recency, frequency, monetary),
      ClvOf(a), if clvBin.Some? then Some(ClvCategoryOf(clvBin.value)) else None,
      CustomerStatusOf(days), a.totalOrders > 1)
  }

  /** Frequency score: quintile of the first-occurrence rank of the order count. */
  function FrequencyScoreAt(aggs: seq<CustomerAggregate>, i: int): (s: int)
    requires |aggs| >= 2 && 0 <= i < |aggs|
    ensures 1 <= s <= 5
  {
    RankBin(RankFirst(OrdersColumn(aggs), i), |aggs|, 5)
  }

  /** Monetary score: quintile of the first-occurrence rank of total revenue. */
  function MonetaryScoreAt(aggs: seq<CustomerAggregate>, i: int): (s: int)
    requires |aggs| >= 2 && 0 <= i < |aggs|
    ensures 1 <= s <= 5
  {
    RankBin(RankFirst(RevenueColumn(aggs), i), |aggs|, 5)
  }

  /**
   * Lifetime-value quartile of the first-occurrence rank of the estimated CLV
   * among the known values; a customer without one is neither ranked nor binned.
   */
  function ClvQuartileAt(aggs: seq<CustomerAggregate>, i: int): (s: Option<int>)
    requires 0 <= i < |aggs| && |KnownClvs(aggs, |aggs|)| >= 2
    ensures s.Some? <==> aggs[i].avgOrderValue.Some?
    ensures s.Some? ==> 1 <= s.value <= 4
  {
    if ClvOf(aggs[i]).None? then None
    else
      KnownClvsPosition(aggs, i, |aggs|);
      var known := KnownClvs(aggs, |aggs|);
      Some(RankBin(RankFirst(known, |KnownClvs(aggs, i)|), |known|, 4))
  }

  /** The feature row of customer `i`, given the recency bins of the whole column. */
  function CustomerRowAt(aggs: seq<CustomerAggregate>, analysisDate: Timestamp, recencyBins: seq<nat>, i: int)
    : (c: CustomerFeatures)
    requires |recencyBins| == |aggs| >= 2 && 0 <= i < |aggs| && 1 <= recencyBins[i] <= 5
    requires |KnownClvs(aggs, |aggs|)| >= 2
  {
    CustomerRow(aggs[i], Days(analysisDate - aggs[i].lastOrder), recencyBins[i],
      FrequencyScoreAt(aggs, i), MonetaryScoreAt(aggs, i), ClvQuartileAt(aggs, i))
  }

  function CustomerRows(aggs: seq<CustomerAggregate>, analysisDate: Timestamp, recencyBins: seq<nat>)
    : (rows: seq<CustomerFeatures>)
    requires |recencyBins| == |aggs| >= 2
    requires forall i :: 0 <= i < |aggs| ==> 1 <= recencyBins[i] <= 5
    requires |KnownClvs(aggs, |aggs|)| >= 2
    ensures |rows| == |aggs|
    ensures forall i :: 0 <= i < |aggs| ==> rows[i] == CustomerRowAt(aggs, analysisDate, recencyBins, i)
  {
    seq(|aggs|, i requires 0 <= i < |aggs| => CustomerRowAt(aggs, analysisDate, recencyBins, i))
  }

  /**
   * `create_customer_behavior_features` on the per-customer aggregates: the
   * recency score bins raw days (labels reversed) and fails when two quantile
   * edges coincide; frequency, monetary and lifetime-value categories bin
   * first-occurrence ranks. Lifetime values are ranked among the known ones
   * only; with fewer than two of them the quartile edges coincide and the
   * binning fails as well.
   */
  function CustomerBehaviorFeatures(aggs: seq<CustomerAggregate>, analysisDate: Timestamp)
    : (r: Outcome<seq<CustomerFeatures>, BinError>)
    ensures r.Failed? <==>
      QCut(RecencyDays(aggs, analysisDate), 5).Failed? || |KnownClvs(aggs, |aggs|)| < 2
    ensures r.Failed? && QCut(RecencyDays(aggs, analysisDate), 5).Ok? ==> r.error == NonUniqueEdges
    ensures r.Ok? ==> |r.value| == |aggs| >= 2
    ensures r.Ok? ==> forall i :: 0 <= i < |aggs| ==>
      r.value[i].recencyScore == 6 - QCut(RecencyDays(aggs, analysisDate), 5).value[i]
      && r.value[i].frequencyScore == FrequencyScoreAt(aggs, i)
      && r.value[i].monetaryScore == MonetaryScoreAt(aggs, i)
  {
    var recency := QCut(RecencyDays(aggs, analysisDate), 5);
    if recency.Failed? then Failed(recency.error)
    else if |KnownClvs(aggs, |aggs|)| < 2 then Failed(NonUniqueEdges)
    else Ok(CustomerRows(aggs, analysisDate, recency.value))
  }

  /**
   * Every scored customer has three scores in 1..5 whose RFM code lies in
   * 111..555 and spells them out digit by digit.
   */
  lemma ScoredCustomersAreWellFormed(aggs: seq<CustomerAggregate>, analysisDate: Timestamp, i: int)
    requires CustomerBehaviorFeatures(aggs, analysisDate).Ok? && 0 <= i < |aggs|
    ensures var c := CustomerBehaviorFeatures(aggs, analysisDate).value[i];
      && 1 <= c.recencyScore <= 5 && 1 <= c.frequencyScore <= 5 && 1 <= c.monetaryScore <= 5
      && 111 <= c.rfmScore <= 555
      && c.rfmScore == RfmScore(c.recencyScore, c.frequencyScore, c.monetaryScore)
      && (c.segment == Champions <==> c.recencyScore >= 4 && c.frequencyScore >= 4 && c.monetaryScore >= 4)
      && c.daysSinceLastOrder == Days(analysisDate - aggs[i].lastOrder)
      && (c.isRepeatCustomer <==> aggs[i].totalOrders > 1)
  {
    var recency := QCut(RecencyDays(aggs, analysisDate), 5).value;
    assert CustomerBehaviorFeatures(aggs, analysisDate).value == CustomerRows(aggs, analysisDate, recency);
    RowIsWellFormed(aggs[i], Days(analysisDate - aggs[i].lastOrder), recency[i],
      FrequencyScoreAt(aggs, i), MonetaryScoreAt(aggs, i), ClvQuartileAt(aggs, i));
  }

  /**
   * A scored customer's lifetime value is missing exactly with its average
   * order value; otherwise its category is the label of its quartile among
   * the known values.
   */
  lemma ScoredCustomersLifetimeValue(aggs: seq<CustomerAggregate>, analysisDate: Timestamp, i: int)
    requires CustomerBehaviorFeatures(aggs, analysisDate).Ok? && 0 <= i < |aggs|
    ensures |KnownClvs(aggs, |aggs|)| >= 2
    ensures var c := CustomerBehaviorFeatures(aggs, analysisDate).value[i];
      && c.estimatedClv == ClvOf(aggs[i])
      && (c.clvCategory.Some? <==> aggs[i].avgOrderValue.Some?)
      && (c.clvCategory.Some? ==> c.clvCategory.value == ClvCategoryOf(ClvQuartileAt(aggs, i).value))
  {
    var recency := QCut(RecencyDays(aggs, analysisDate), 5).value;
    assert CustomerBehaviorFeatures(aggs, analysisDate).value == CustomerRows(aggs, analysisDate, recency);
  }

  lemma RowIsWellFormed(a: CustomerAggregate, days: int, recencyBin: int, frequency: int, monetary: int,
    clvBin: Option<int>)
    requires 1 <= recencyBin <= 5 && 1 <= frequency <= 5 && 1 <= monetary <= 5
    requires clvBin.Some? ==> 1 <= clvBin.value <= 4
    ensures var c := CustomerRow(a, days, recencyBin, frequency, monetary, clvBin);
      && 1 <= c.recencyScore <= 5 && 1 <= c.frequencyScore <= 5 && 1 <= c.monetaryScore <= 5
      && 111 <= c.rfmScore <= 555
      && c.rfmScore == RfmScore(c.recencyScore, c.frequencyScore, c.monetaryScore)
      && (c.segment == Champions <==> c.recencyScore >= 4 && c.frequencyScore >= 4 && c.monetaryScore >= 4)
      && c.daysSinceLastOrder == days
      && (c.isRepeatCustomer <==> a.totalOrders > 1)
  {
    RfmScoreDigits(6 - recencyBin, frequency, monetary);
  }

  /** Fewer days since the last order never gives a lower recency score. */
  lemma RecencyRewardsRecentCustomers(aggs: seq<CustomerAggregate>, analysisDate: Timestamp, i: int, j: int)
    requires CustomerBehaviorFeatures(aggs, analysisDate).Ok?
    requires 0 <= i < |aggs| && 0 <= j < |aggs|
    requires aggs[i].lastOrder >= aggs[j].lastOrder
    ensures CustomerBehaviorFeatures(aggs, analysisDate).value[i].recencyScore
         >= CustomerBehaviorFeatures(aggs, analysisDate).value[j].recencyScore
  {
    var days := RecencyDays(aggs, analysisDate);
    var di, dj := Days(analysisDate - aggs[i].lastOrder), Days(analysisDate - aggs[j].lastOrder);
    DaysMonotone(analysisDate - aggs[i].lastOrder, analysisDate - aggs[j].lastOrder);
    assert days[i] == di as real && days[j] == dj as real;
    var bins := QCut(days, 5);
    assert QCut(days, 5).Ok?;
    assert di <= dj;
    assert days[i] <= days[j];
    QCutMonotone(days, 5, i, j);
    var r := CustomerBehaviorFeatures(aggs, analysisDate);
    assert r.value[i].recencyScore == 6 - bins.value[i];
    assert r.value[j].recencyScore == 6 - bins.value[j];
  }

  /**
   * The frequency score follows the order count, ties going to the customer
   * listed first; the monetary score does the same for revenue.
   */
  lemma {:induction false} FrequencyAndMonetaryFollowRank(aggs: seq<CustomerAggregate>, i: int, j: int)
    requires |aggs| >= 2 && 0 <= i < |aggs| && 0 <= j < |aggs|
    ensures aggs[i].totalOrders < aggs[j].totalOrders || (aggs[i].totalOrders == aggs[j].totalOrders && i <= j) ==>
      FrequencyScoreAt(aggs, i) <= FrequencyScoreAt(aggs, j)
    ensures aggs[i].totalRevenue < aggs[j].totalRevenue || (aggs[i].totalRevenue == aggs[j].totalRevenue && i <= j) ==>
      MonetaryScoreAt(aggs, i) <= MonetaryScoreAt(aggs, j)
  {
    var n := |aggs|;
    var orders, revenue := OrdersColumn(aggs), RevenueColumn(aggs);
    if i != j {
      if orders[i] < orders[j] || (orders[i] == orders[j] && i < j) {
        RankFirstStrictlyOrders(orders, i, j);
        RankBinMonotone(RankFirst(orders, i), RankFirst(orders, j), n, 5);
      }
      if revenue[i] < revenue[j] || (revenue[i] == revenue[j] && i < j) {
        RankFirstStrictlyOrders(revenue, i, j);
        RankBinMonotone(RankFirst(revenue, i), RankFirst(revenue, j), n, 5);
      }
    }
  }

  /**
   * A higher estimated lifetime value never gets a lower CLV quartile, ties
   * going to the customer listed first.
   */
  lemma {:induction false} ClvQuartileFollowsValue(aggs: seq<CustomerAggregate>, i: int, j: int)
    requires 0 <= i < |aggs| && 0 <= j < |aggs| && |KnownClvs(aggs, |aggs|)| >= 2
    requires aggs[i].avgOrderValue.Some? && aggs[j].avgOrderValue.Some?
    ensures (ClvOf(aggs[i]).value < ClvOf(aggs[j]).value
             || (ClvOf(aggs[i]).value == ClvOf(aggs[j]).value && i <= j))
      ==> ClvQuartileAt(aggs, i).value <= ClvQuartileAt(aggs, j).value
  {
    var n := |aggs|;
    var known := KnownClvs(aggs, n);
    var vi, vj := ClvOf(aggs[i]).value, ClvOf(aggs[j]).value;
    var pi, pj := |KnownClvs(aggs, i)|, |KnownClvs(aggs, j)|;
    KnownClvsPosition(aggs, i, n);
    KnownClvsPosition(aggs, j, n);
    if i < j {
      KnownClvsPosition(aggs, i, j);
    }
    if i != j && (vi < vj || (vi == vj && i < j)) {
      assert known[pi] == vi && known[pj] == vj;
      RankFirstStrictlyOrders(known, pi, pj);
      RankBinMonotone(RankFirst(known, pi), RankFirst(known, pj), |known|, 4);
    }
  }

  /** The customer ranked first by order count scores 1, the one ranked last scores 5. */
  lemma {:induction false} FrequencyScoreSpansRange(aggs: seq<CustomerAggregate>, i: int)
    requires |aggs| >= 2 && 0 <= i < |aggs|
    ensures RankFirst(OrdersColumn(aggs), i) == 1 ==> FrequencyScoreAt(aggs, i) == 1
    ensures RankFirst(OrdersColumn(aggs), i) == |aggs| ==> FrequencyScoreAt(aggs, i) == 5
  {
    RankBinExtremes(|aggs|, 5);
  }

  // =====================================================================
  // Product performance
  // =====================================================================

  /** Per-product aggregates after the merge (no sales and no reviews fill as 0). */
  datatype ProductAggregate = ProductAggregate(
    uniqueOrders: nat,
    quantitySold: nat,
    totalRevenue: real,
    totalReviews: nat,
    avgReviewScore: real)

  /** `popularity_score`: 0.6 sales + 0.2 review count + 0.2 review score, each normalised. */
  function PopularityScore(p: ProductAggregate, maxSales: real, maxReviews: real): real
  {
    if maxSales > 0.0 && maxReviews > 0.0 then
      (p.quantitySold as real / maxSales) * 0.6 + (p.totalReviews as real / maxReviews) * 0.2
        + (p.avgReviewScore / 5.0) * 0.2
    else 0.0
  }

  lemma RatioInUnit(x: real, m: real)
    requires 0.0 <= x <= m && m > 0.0
    ensures 0.0 <= x / m <= 1.0
  {
    assert (x / m) * m == x;
  }

  /** Normalised by the column maxima, popularity lies in [0, 1]. */
  lemma PopularityInUnitInterval(p: ProductAggregate, maxSales: real, maxReviews: real)
    requires p.quantitySold as real <= maxSales && p.totalReviews as real <= maxReviews
    requires 0.0 <= p.avgReviewScore <= 5.0
    ensures 0.0 <= PopularityScore(p, maxSales, maxReviews) <= 1.0
  {
    if maxSales > 0.0 && maxReviews > 0.0 {
      RatioInUnit(p.quantitySold as real, maxSales);
      RatioInUnit(p.totalReviews as real, maxReviews);
      RatioInUnit(p.avgReviewScore, 5.0);
    }
  }

  datatype Lifecycle = NoSales | Introduction | Growth | Maturity | Decline

  /** `categorize_product_lifecycle`: the first matching rule wins. */
  function ProductLifecycle(p: ProductAggregate, popularity: real): Lifecycle
  {
    if p.quantitySold == 0 then NoSales
    else if p.uniqueOrders <= 5 then Introduction
    else if popularity >= 0.7 then Growth
    else if popularity >= 0.3 then Maturity
    else Decline
  }

  /**
   * Past the introduction stage a more popular product is never placed in an
   * earlier-declining stage: Growth above Maturity above Decline.
   */
  lemma LifecycleMonotoneInPopularity(p: ProductAggregate, a: real, b: real)
    requires p.quantitySold > 0 && p.uniqueOrders > 5 && a <= b
    ensures ProductLifecycle(p, a) == Growth ==> ProductLifecycle(p, b) == Growth
    ensures ProductLifecycle(p, b) == Decline ==> ProductLifecycle(p, a) == Decline
  {
  }

  datatype ReviewCategory = Poor | Fair | Good | Excellent

  /** Right-closed bins (0,2], (2,3], (3,4], (4,5]; averages outside (0,5] get no category. */
  function ReviewCategoryOf(avg: Option<real>): (c: Option<ReviewCategory>)
    ensures c.Some? <==> avg.Some? && 0.0 < avg.value <= 5.0
  {
    if avg.None? || avg.value <= 0.0 || avg.value > 5.0 then None
    else if avg.value <= 2.0 then Some(Poor)
    else if avg.value <= 3.0 then Some(Fair)
    else if avg.value <= 4.0 then Some(Good)
    else Some(Excellent)
  }

  datatype ProductFeatures = ProductFeatures(
    salesQuartile: int,
    revenueQuartile: int,
    popularity: real,
    lifecycle: Lifecycle)

  function QuantityColumn(ps: seq<ProductAggregate>): (c: seq<real>)
    ensures |c| == |ps|
  {
    seq(|ps|, i requires 0 <= i < |ps| => ps[i].quantitySold as real)
  }

  function ReviewsColumn(ps: seq<ProductAggregate>): (c: seq<real>)
    ensures |c| == |ps|
  {
    seq(|ps|, i requires 0 <= i < |ps| => ps[i].totalReviews as real)
  }

  function ProductRevenueColumn(ps: seq<ProductAggregate>): (c: seq<real>)
    ensures |c| == |ps|
  {
    seq(|ps|, i requires 0 <= i < |ps| => ps[i].totalRevenue)
  }

  /** The features of product `i`, against the quantity and revenue columns and the column maxima. */
  function ProductRow(ps: seq<ProductAggregate>, i: int, qty: seq<real>, revenue: seq<real>, maxSales: real, maxReviews: real)
    : (f: ProductFeatures)
    requires 0 <= i < |ps| && |ps| >= 2 && |qty| == |ps| && |revenue| == |ps|
    requires ps[i].quantitySold as real <= maxSales && ps[i].totalReviews as real <= maxReviews
    ensures 1 <= f.salesQuartile <= 4 && 1 <= f.revenueQuartile <= 4
    ensures f.lifecycle == ProductLifecycle(ps[i], f.popularity)
    ensures 0.0 <= ps[i].avgReviewScore <= 5.0 ==> 0.0 <= f.popularity <= 1.0
  {
    var pop := PopularityScore(ps[i], maxSales, maxReviews);
    assert 0.0 <= ps[i].avgReviewScore <= 5.0 ==> 0.0 <= pop <= 1.0 by {
      if 0.0 <= ps[i].avgReviewScore <= 5.0 {
        PopularityInUnitInterval(ps[i], maxSales, maxReviews);
      }
    }
    ProductFeatures(RankBin(RankFirst(qty, i), |ps|, 4), RankBin(RankFirst(revenue, i), |ps|, 4),
      pop, ProductLifecycle(ps[i], pop))
  }

  /**
   * `create_product_performance_features` on the merged product aggregates:
   * sales and revenue quartiles over first-occurrence ranks (which fail with
   * fewer than two products), popularity against the column maxima, and the
   * lifecycle stage.
   */
  function ProductPerformanceFeatures(ps: seq<ProductAggregate>): (r: Outcome<seq<ProductFeatures>, BinError>)
    ensures r.Failed? <==> |ps| < 2
    ensures r.Ok? ==> |r.value| == |ps|
    ensures r.Ok? ==> forall i :: 0 <= i < |ps| ==>
      1 <= r.value[i].salesQuartile <= 4 && 1 <= r.value[i].revenueQuartile <= 4
      && r.value[i].lifecycle == ProductLifecycle(ps[i], r.value[i].popularity)
    ensures r.Ok? && (forall i :: 0 <= i < |ps| ==> 0.0 <= ps[i].avgReviewScore <= 5.0) ==>
      forall i :: 0 <= i < |ps| ==> 0.0 <= r.value[i].popularity <= 1.0
  {
    if |ps| == 0 then Failed(EmptyColumn)
    else if |ps| == 1 then Failed(NonUniqueEdges)
    else
      var qty, reviews, revenue := QuantityColumn(ps), ReviewsColumn(ps), ProductRevenueColumn(ps);
      var maxSales, maxReviews := MaxOf(qty).value, MaxOf(reviews).value;
      assert forall i :: 0 <= i < |ps| ==> ps[i].quantitySold as real <= maxSales && ps[i].totalReviews as real <= maxReviews by {
        forall i | 0 <= i < |ps| ensures ps[i].quantitySold as real <= maxSales && ps[i].totalReviews as real <= maxReviews {
          assert qty[i] == ps[i].quantitySold as real && reviews[i] == ps[i].totalReviews as real;
        }
      }
      Ok(seq(|ps|, i requires 0 <= i < |ps| => ProductRow(ps, i, qty, revenue, maxSales, maxReviews)))
  }

  // =====================================================================
  // Geographic features
  // =====================================================================

  /** Customers per seller, falling back to the customer count where there is no seller. */
  function CustomerToSellerRatio(customers: real, sellers: real): (r: real)
    requires customers >= 0.0 && sellers >= 0.0
    ensures r >= 0.0
    ensures sellers > 0.0 ==> r * sellers == customers
    ensures sellers == 0.0 ==> r == customers
  {
    if sellers > 0.0 then customers / sellers else customers
  }

  /** Revenue per customer, 0 where there is no customer. */
  function RevenuePerCustomer(revenue: real, customers: real): (r: real)
    requires customers >= 0.0
    ensures customers > 0.0 ==> r * customers == revenue
    ensures customers == 0.0 ==> r == 0.0
  {
    if customers > 0.0 then revenue / customers else 0.0
  }

  /** State totals summed over the state's cities. */
  datatype StateTotals = StateTotals(customers: real, sellers: real, orders: real, revenue: real)

  datatype StateMetrics = StateMetrics(
    revenuePerCustomer: real,
    ordersPerCustomer: real,
    customerToSellerRatio: real,
    marketOpportunity: real)

  /** Low current penetration (0.6) plus high value per customer (0.4), both normalised. */
  function MarketOpportunityScore(customers: real, rpc: real, maxCustomers: real, maxRpc: real): real
  {
    if maxCustomers > 0.0 && maxRpc > 0.0 then
      (1.0 - customers / maxCustomers) * 0.6 + (rpc / maxRpc) * 0.4
    else 0.0
  }

  lemma MarketOpportunityInUnitInterval(customers: real, rpc: real, maxCustomers: real, maxRpc: real)
    requires 0.0 <= customers <= maxCustomers && 0.0 <= rpc <= maxRpc
    ensures 0.0 <= MarketOpportunityScore(customers, rpc, maxCustomers, maxRpc) <= 1.0
  {
    if maxCustomers > 0.0 && maxRpc > 0.0 {
      RatioInUnit(customers, maxCustomers);
      RatioInUnit(rpc, maxRpc);
    }
  }

  predicate NonNegativeTotals(states: seq<StateTotals>)
  {
    forall i :: 0 <= i < |states| ==>
      states[i].customers >= 0.0 && states[i].sellers >= 0.0 && states[i].orders >= 0.0 && states[i].revenue >= 0.0
  }

  function StateRpcColumn(states: seq<StateTotals>): (c: seq<real>)
    requires NonNegativeTotals(states)
    ensures |c| == |states|
    ensures forall i :: 0 <= i < |c| ==> c[i] >= 0.0
  {
    seq(|states|, i requires 0 <= i < |states| => RevenuePerCustomer(states[i].revenue, states[i].customers))
  }

  function StateCustomersColumn(states: seq<StateTotals>): (c: seq<real>)
    ensures |c| == |states|
  {
    seq(|states|, i requires 0 <= i < |states| => states[i].customers)
  }

  /**
   * The state-level part of `create_geographic_features`: every state's
   * opportunity score is in [0, 1], being normalised by the column maxima.
   */
  function StateLevelMetrics(states: seq<StateTotals>): (r: seq<StateMetrics>)
    requires NonNegativeTotals(states)
    ensures |r| == |states|
    ensures forall i :: 0 <= i < |r| ==> 0.0 <= r[i].marketOpportunity <= 1.0
    ensures forall i :: 0 <= i < |r| ==>
      r[i].customerToSellerRatio == CustomerToSellerRatio(states[i].customers, states[i].sellers)
  {
    var rpc := StateRpcColumn(states);
    var custs := StateCustomersColumn(states);
    var maxC, maxR := MaxOf(custs), MaxOf(rpc);
    var mc := if maxC.Some? then maxC.value else 0.0;
    var mr := if maxR.Some? then maxR.value else 0.0;
    var rows := seq(|states|, i requires 0 <= i < |states| =>
      StateMetrics(rpc[i], RevenuePerCustomer(states[i].orders, states[i].customers),
        CustomerToSellerRatio(states[i].customers, states[i].sellers),
        MarketOpportunityScore(states[i].customers, rpc[i], mc, mr)));
    forall i | 0 <= i < |states| ensures 0.0 <= rows[i].marketOpportunity <= 1.0 {
      assert custs[i] == states[i].customers && maxC.Some? && maxR.Some?;
      MarketOpportunityInUnitInterval(states[i].customers, rpc[i], mc, mr);
    }
    rows
  }

  // =====================================================================
  // Seasonal features
  // =====================================================================

  datatype CulturalEvent = Carnival | MothersDay | ValentinesDay | BlackFriday | Christmas | Regular

  function CulturalEventOf(month: int): CulturalEvent
  {
    if month in {2, 3} then Carnival
    else if month == 5 then MothersDay
    else if month == 6 then ValentinesDay
    else if month == 11 then BlackFriday
    else if month == 12 then Christmas
    else Regular
  }

  /** The event months are exactly the months the order flags mark as holiday, carnival, Mothers Day or Valentines season. */
  lemma CulturalEventsMatchOrderFlags(month: int)
    ensures CulturalEventOf(month) != Regular <==>
      IsHolidaySeason(month) || IsCarnivalSeason(month) || IsMothersDaySeason(month) || IsValentinesSeason(month)
  {
  }

  /** Revenue standard deviation over mean; a missing deviation (one month only) or a zero mean gives 0. */
  function SeasonalVariance(mean: real, std: Option<real>): (v: real)
    requires std.Some? ==> std.value >= 0.0
    requires mean >= 0.0
    ensures v >= 0.0
    ensures v == 0.0 <== std.None? || mean == 0.0
  {
    if std.None? || mean == 0.0 then 0.0 else std.value / mean
  }

  // =====================================================================
  // The engineer: log and feature dictionary
  // =====================================================================

  datatype FeatureAction = FeatureAction(action: string, dataset: string, rows: nat)

  const DeliveryFeatureNames: set<string> := {
    "delivery_days", "delivery_speed_category", "delivery_vs_estimate_days", "on_time_delivery",
    "delivery_accuracy", "processing_days", "shipping_days", "order_quarter", "order_day_name",
    "order_week_of_year", "is_weekend", "is_holiday_season", "is_carnival_season",
    "is_mothers_day_season", "is_valentines_season"}

  const CustomerFeatureNames: set<string> := {
    "total_orders", "total_revenue", "avg_order_value", "days_since_last_order",
    "customer_lifetime_days", "order_frequency_per_month", "recency_score", "frequency_score",
    "monetary_score", "rfm_score", "customer_segment", "estimated_clv", "clv_category",
    "customer_status", "is_repeat_customer"}

  class FeatureEngineer {
    /** Audit trail of feature actions (the wall-clock timestamp is not modelled). */
    var featureLog: seq<FeatureAction>
    /** Keys of the feature dictionary. */
    var featureNames: set<string>

    constructor ()
      ensures featureLog == [] && featureNames == {}
    {
      featureLog := [];
      featureNames := {};
    }

    /**
     * `create_delivery_performance_features`: one pass finds whether any
     * order was delivered, a second writes each order's delivery columns.
     */
    method CreateDeliveryPerformanceFeatures(orders: Option<seq<Order>>) returns (enhanced: seq<DeliveryFeatures>)
      modifies this
      ensures orders.None? ==> enhanced == [] && featureLog == old(featureLog) && featureNames == old(featureNames)
      ensures orders.Some? ==> |enhanced| == |orders.value|
      ensures orders.Some? ==> forall i :: 0 <= i < |enhanced| ==>
        enhanced[i] == DeliveryFeaturesOf(orders.value[i], AnyDelivered(orders.value))
      ensures orders.Some? ==>
        featureLog == old(featureLog) + [FeatureAction("CREATE_DELIVERY_FEATURES", "orders", |orders.value|)]
        && featureNames == old(featureNames) + DeliveryFeatureNames
    {
      if orders.None? {
        return [];
      }
      var rows := orders.value;
      var anyDelivered := false;
      var i := 0;
      while i < |rows|
        invariant 0 <= i <= |rows|
        invariant anyDelivered <==> exists k :: 0 <= k < i && DeliveredMask(rows[k])
      {
        if DeliveredMask(rows[i]) {
          anyDelivered := true;
        }
        i := i + 1;
      }
      enhanced := [];
      i := 0;
      while i < |rows|
        invariant 0 <= i <= |rows|
        invariant |enhanced| == i
        invariant forall k :: 0 <= k < i ==> enhanced[k] == DeliveryFeaturesOf(rows[k], anyDelivered)
      {
        enhanced := enhanced + [DeliveryFeaturesOf(rows[i], anyDelivered)];
        i := i + 1;
      }
      featureLog := featureLog + [FeatureAction("CREATE_DELIVERY_FEATURES", "orders", |rows|)];
      featureNames := featureNames + DeliveryFeatureNames;
    }

    /**
     * `create_customer_behavior_features`: a binning failure propagates
     * before anything is logged.
     */
    method CreateCustomerBehaviorFeatures(aggs: Option<seq<CustomerAggregate>>, analysisDate: Timestamp)
      returns (r: Outcome<seq<CustomerFeatures>, BinError>)
      modifies this
      ensures aggs.None? ==> r == Ok([]) && featureLog == old(featureLog) && featureNames == old(featureNames)
      ensures aggs.Some? ==> r == CustomerBehaviorFeatures(aggs.value, analysisDate)
      ensures aggs.Some? && r.Ok? ==>
        featureLog == old(featureLog) + [FeatureAction("CREATE_CUSTOMER_FEATURES", "customer_metrics", |aggs.value|)]
        && featureNames == old(featureNames) + CustomerFeatureNames
      ensures r.Failed? ==> featureLog == old(featureLog) && featureNames == old(featureNames)
    {
      if aggs.None? {
        return Ok([]);
      }
      r := CustomerBehaviorFeatures(aggs.value, analysisDate);
      if r.Ok? {
        featureLog := featureLog + [FeatureAction("CREATE_CUSTOMER_FEATURES", "customer_metrics", |aggs.value|)];
        featureNames := featureNames + CustomerFeatureNames;
      }
    }
  }
}
