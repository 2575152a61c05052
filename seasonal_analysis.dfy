// Seasonal demand intelligence: the Brazilian event calendar, the season
// flags, the three-month recursive demand forecast, seasonality levels and
// the inventory strategy tables.
module SeasonalAnalysis {
  import opened Common
  import opened Stats

  // =====================================================================
  // Event calendar and season flags
  // =====================================================================

  datatype EventKind = Holiday | Cultural | Commercial | SeasonalEvent

  /** Expected sales impact of an event: "low", "medium", "high", "very_high". */
  datatype Impact = LowImpact | MediumImpact | HighImpact | VeryHighImpact

  datatype Event = Event(name: string, kind: EventKind, impact: Impact)

  /** One event per calendar month. */
  const BrazilianEvents: map<int, Event> := map[
    1 := Event("New Year", Holiday, MediumImpact),
    2 := Event("Carnival", Cultural, HighImpact),
    3 := Event("Carnival (extended)", Cultural, MediumImpact),
    4 := Event("Easter", Holiday, LowImpact),
    5 := Event("Mothers Day", Commercial, HighImpact),
    6 := Event("Valentines Day (Brazil)", Commercial, MediumImpact),
    7 := Event("Winter Vacation", SeasonalEvent, MediumImpact),
    8 := Event("Fathers Day", Commercial, MediumImpact),
    9 := Event("Independence Day", Holiday, LowImpact),
    10 := Event("Childrens Day", Commercial, MediumImpact),
    11 := Event("Black Friday", Commercial, VeryHighImpact),
    12 := Event("Christmas", Holiday, VeryHighImpact)
  ]

  /** The calendar covers exactly the months 1..12. */
  lemma EventCalendarCoversYear(m: int)
    ensures m in BrazilianEvents <==> IsMonth(m)
  {
  }

  /** The forecasting score of an impact level. */
  function ImpactScore(i: Impact): (s: int)
    ensures 1 <= s <= 4
  {
    match i
    case LowImpact => 1
    case MediumImpact => 2
    case HighImpact => 3
    case VeryHighImpact => 4
  }

  /** Distinct impact levels score differently, so the score loses nothing. */
  lemma ImpactScoreInjective(a: Impact, b: Impact)
    ensures ImpactScore(a) == ImpactScore(b) ==> a == b
  {
  }

  function EventOf(m: int): Event
    requires IsMonth(m)
  {
    EventCalendarCoversYear(m);
    BrazilianEvents[m]
  }

  /** `holiday_impact` of a month: its event's score, 2 for a month outside the calendar. */
  function HolidayImpactOf(m: int): (s: int)
    ensures 1 <= s <= 4
    ensures IsMonth(m) ==> s == ImpactScore(EventOf(m).impact)
  {
    if m in BrazilianEvents then ImpactScore(BrazilianEvents[m].impact) else 2
  }

  predicate IsSummer(m: int) { m in {12, 1, 2} }
  predicate IsAutumn(m: int) { m in {3, 4, 5} }
  predicate IsWinter(m: int) { m in {6, 7, 8} }
  predicate IsSpring(m: int) { m in {9, 10, 11} }

  function SeasonCount(m: int): nat
  {
    (if IsSummer(m) then 1 else 0) + (if IsAutumn(m) then 1 else 0)
    + (if IsWinter(m) then 1 else 0) + (if IsSpring(m) then 1 else 0)
  }

  /** Every month of the year carries exactly one season flag; no other month carries any. */
  lemma SeasonsPartitionYear(m: int)
    ensures IsMonth(m) ==> SeasonCount(m) == 1
    ensures !IsMonth(m) ==> SeasonCount(m) == 0
  {
  }

  /** The quarterly summary's season names (quarter 1 "Summer", ..., quarter 4 "Spring"). */
  function QuarterSeasonName(q: int): string
  {
    if q == 1 then "Summer" else if q == 2 then "Autumn" else if q == 3 then "Winter" else "Spring"
  }

  /**
   * The quarter names do not follow the season flags: December is flagged
   * summer but falls in quarter 4, named "Spring".
   */
  lemma QuarterNamesDifferFromSeasonFlags()
    ensures IsSummer(12) && QuarterSeasonName(Quarter(12)) == "Spring"
    ensures IsAutumn(3) && QuarterSeasonName(Quarter(3)) == "Summer"
  {
  }

  // =====================================================================
  // Three-month demand forecast
  // =====================================================================

  /** A month of order history: orders and revenue summed per (year, month). */
  datatype MonthRow = MonthRow(year: int, month: int, orders: real, revenue: real)

  /** Chronological sort key. */
  function MonthIndex(r: MonthRow): real
  {
    (r.year * 12 + r.month) as real
  }

  /**
   * The rows a model can train on: the history in chronological order
   * without its first three months, whose lags are missing.
   */
  function ModelData(history: seq<MonthRow>): (d: seq<MonthRow>)
    ensures |d| == if |history| >= 3 then |history| - 3 else 0
    ensures multiset(d) <= multiset(history)
    ensures ValidHistory(history) ==> ValidHistory(d)
    ensures |history| >= 3 ==> d == SortBy(history, MonthIndex)[3..]
    ensures SortedBy(d, MonthIndex)
    ensures |history| >= 3 ==> forall j, k :: 0 <= j < 3 && 0 <= k < |d| ==>
      MonthIndex(SortBy(history, MonthIndex)[j]) <= MonthIndex(d[k])
  {
    var sorted := SortBy(history, MonthIndex);
    if |sorted| >= 3 then
      DropEarliest(sorted);
      SuffixKeepsMonths(history, sorted);
      sorted[3..]
    else []
  }

  /** Dropping the first three rows of a chronological table leaves it chronological, with the dropped rows earliest. */
  lemma DropEarliest(sorted: seq<MonthRow>)
    requires SortedBy(sorted, MonthIndex) && |sorted| >= 3
    ensures multiset(sorted[3..]) <= multiset(sorted)
    ensures SortedBy(sorted[3..], MonthIndex)
    ensures forall j, k :: 0 <= j < 3 && 0 <= k < |sorted| - 3 ==>
      MonthIndex(sorted[j]) <= MonthIndex(sorted[3..][k])
  {
    var d := sorted[3..];
    assert sorted == sorted[..3] + d;
    forall j, k | 0 <= j < k < |d| ensures MonthIndex(d[j]) <= MonthIndex(d[k]) {
      assert d[j] == sorted[j + 3] && d[k] == sorted[k + 3];
    }
    forall j, k | 0 <= j < 3 && 0 <= k < |d| ensures MonthIndex(sorted[j]) <= MonthIndex(d[k]) {
      assert d[k] == sorted[k + 3];
    }
  }

  /** The rows left after sorting and dropping are rows of the history, so they keep valid months. */
  lemma SuffixKeepsMonths(history: seq<MonthRow>, sorted: seq<MonthRow>)
    requires multiset(sorted) == multiset(history) && |sorted| >= 3
    ensures ValidHistory(history) ==> ValidHistory(sorted[3..])
  {
    var d := sorted[3..];
    if ValidHistory(history) {
      forall k | 0 <= k < |d| ensures IsMonth(d[k].month) {
        assert d[k] == sorted[k + 3];
        assert d[k] in multiset(sorted);
        assert d[k] in multiset(history);
        var j :| 0 <= j < |history| && history[j] == d[k];
      }
    }
  }

  /**
   * The features the regressors see for one forecast month; the sine and
   * cosine encodings are functions of `month` and stay inside the regressor.
   */
  datatype Features = Features(
    month: int,
    quarter: int,
    holidayImpact: int,
    revenueLags: seq<real>,
    orderLags: seq<real>)

  datatype Forecast = Forecast(
    year: int,
    month: int,
    predictedRevenue: real,
    predictedOrders: int,
    revenueLower: real,
    revenueUpper: real,
    ordersLower: int,
    ordersUpper: int,
    event: Event)

  /** The month `i` steps after `m`, wrapping December to January. */
  function NextMonth(m: int, i: int): (n: int)
    requires IsMonth(m) && i >= 1
    ensures IsMonth(n)
  {
    (m + i - 1) % 12 + 1
  }

  /** The year of the month `i` steps after (`y`, `m`). */
  function NextYear(y: int, m: int, i: int): int
    requires IsMonth(m) && i >= 1
  {
    y + (m + i - 1) / 12
  }

  /** The history row `back` months before the end, or the last row when there is none. */
  function LagRow(model: seq<MonthRow>, back: int): MonthRow
    requires |model| >= 1 && 1 <= back
  {
    if |model| >= back then model[|model| - back] else model[|model| - 1]
  }

  /**
   * The features of forecast step `i`: the first step lags on the last
   * three months; later steps lag on earlier forecasts and fall back to
   * the last month of history.
   */
  function StepFeatures(model: seq<MonthRow>, prev: seq<Forecast>, i: int): Features
    requires |model| >= 1 && IsMonth(model[|model| - 1].month)
    requires 1 <= i <= 3 && |prev| == i - 1
  {
    var last := model[|model| - 1];
    var m := NextMonth(last.month, i);
    if i == 1 then
      Features(m, Quarter(m), HolidayImpactOf(m),
        [last.revenue, LagRow(model, 2).revenue, LagRow(model, 3).revenue],
        [last.orders, LagRow(model, 2).orders, LagRow(model, 3).orders])
    else
      Features(m, Quarter(m), HolidayImpactOf(m),
        [prev[i - 2].predictedRevenue,
         if i > 2 then prev[i - 3].predictedRevenue else last.revenue,
         last.revenue],
        [prev[i - 2].predictedOrders as real,
         if i > 2 then prev[i - 3].predictedOrders as real else last.orders,
         last.orders])
  }

  /** The two fitted regressors and the spread of their test residuals. */
  datatype Regressors = Regressors(
    revenue: Features -> real,
    orders: Features -> real,
    revenueStd: real,
    ordersStd: real)

  predicate ValidRegressors(g: Regressors)
  {
    g.revenueStd >= 0.0 && g.ordersStd >= 0.0
  }

  /** One forecast: predictions with 1.96-sigma intervals; the orders' lower bound clamped at 0. */
  function ForecastStep(model: seq<MonthRow>, prev: seq<Forecast>, i: int, g: Regressors): Forecast
    requires |model| >= 1 && IsMonth(model[|model| - 1].month)
    requires 1 <= i <= 3 && |prev| == i - 1
  {
    var last := model[|model| - 1];
    var f := StepFeatures(model, prev, i);
    var revenue := g.revenue(f);
    var orders := g.orders(f);
    var low := orders - 1.96 * g.ordersStd;
    Forecast(
      NextYear(last.year, last.month, i), f.month,
      revenue, Trunc(orders),
      revenue - 1.96 * g.revenueStd, revenue + 1.96 * g.revenueStd,
      Trunc(if low > 0.0 then low else 0.0), Trunc(orders + 1.96 * g.ordersStd),
      EventOf(f.month))
  }

  /** The first `k` forecasts, each step reading the ones before it. */
  function Forecasts(model: seq<MonthRow>, k: nat, g: Regressors): (fs: seq<Forecast>)
    requires |model| >= 1 && IsMonth(model[|model| - 1].month) && k <= 3
    ensures |fs| == k
  {
    if k == 0 then []
    else
      var prev := Forecasts(model, k - 1, g);
      prev + [ForecastStep(model, prev, k, g)]
  }

  predicate ValidHistory(history: seq<MonthRow>)
  {
    forall k :: 0 <= k < |history| ==> IsMonth(history[k].month)
  }

  /**
   * `build_demand_forecasting_model` after fitting: fewer than ten usable
   * months stop it; otherwise three forecasts are produced one after the
   * other, each appended before the next reads it.
   */
  method BuildDemandForecast(history: seq<MonthRow>, g: Regressors) returns (r: Outcome<seq<Forecast>, string>)
    requires ValidHistory(history) && ValidRegressors(g)
    ensures r.Failed? <==> |ModelData(history)| < 10
    ensures r.Failed? ==> r.error == "Insufficient data for forecasting"
    ensures r.Ok? ==> r.value == Forecasts(ModelData(history), 3, g)
  {
    var model := ModelData(history);
    if |model| < 10 {
      return Failed("Insufficient data for forecasting");
    }
    var forecasts: seq<Forecast> := [];
    var i := 1;
    while i < 4
      invariant 1 <= i <= 4
      invariant forecasts == Forecasts(model, i - 1, g)
    {
      var next := ForecastStep(model, forecasts, i, g);
      forecasts := forecasts + [next];
      i := i + 1;
    }
    return Ok(forecasts);
  }

  /**
   * The three forecast months follow the last month of history one after
   * the other; passing December moves to January of the next year.
   */
  lemma {:induction false} ForecastMonthsConsecutive(model: seq<MonthRow>, g: Regressors, k: int)
    requires |model| >= 1 && IsMonth(model[|model| - 1].month) && 0 <= k < 3
    ensures var fs := Forecasts(model, 3, g);
      var last := model[|model| - 1];
      && fs[k].month == (last.month + k) % 12 + 1
      && (k == 0 ==> (if last.month == 12 then fs[0].month == 1 && fs[0].year == last.year + 1
                      else fs[0].month == last.month + 1 && fs[0].year == last.year))
      && (k > 0 ==> (if fs[k - 1].month == 12 then fs[k].month == 1 && fs[k].year == fs[k - 1].year + 1
                     else fs[k].month == fs[k - 1].month + 1 && fs[k].year == fs[k - 1].year))
  {
    ForecastMonthNumber(model, g, k);
    if k == 0 {
      FirstForecastMonth(model, g);
    } else {
      LaterForecastMonth(model, g, k);
    }
  }

  /** Forecast `k` falls in calendar month (last month + k) mod 12 + 1. */
  lemma ForecastMonthNumber(model: seq<MonthRow>, g: Regressors, k: int)
    requires |model| >= 1 && IsMonth(model[|model| - 1].month) && 0 <= k < 3
    ensures Forecasts(model, 3, g)[k].month == (model[|model| - 1].month + k) % 12 + 1
  {
    var last := model[|model| - 1];
    ForecastCalendar(model, g, k);
    CalendarStep(last.year, last.month, k);
  }

  /** The first forecast month follows the last month of history. */
  lemma FirstForecastMonth(model: seq<MonthRow>, g: Regressors)
    requires |model| >= 1 && IsMonth(model[|model| - 1].month)
    ensures var fs := Forecasts(model, 3, g);
      var last := model[|model| - 1];
      if last.month == 12 then fs[0].month == 1 && fs[0].year == last.year + 1
      else fs[0].month == last.month + 1 && fs[0].year == last.year
  {
    var last := model[|model| - 1];
    ForecastCalendar(model, g, 0);
    CalendarStep(last.year, last.month, 0);
  }

  /** Each later forecast month follows the forecast month before it. */
  lemma LaterForecastMonth(model: seq<MonthRow>, g: Regressors, k: int)
    requires |model| >= 1 && IsMonth(model[|model| - 1].month) && 0 < k < 3
    ensures var fs := Forecasts(model, 3, g);
      if fs[k - 1].month == 12 then fs[k].month == 1 && fs[k].year == fs[k - 1].year + 1
      else fs[k].month == fs[k - 1].month + 1 && fs[k].year == fs[k - 1].year
  {
    var last := model[|model| - 1];
    ForecastCalendar(model, g, k);
    ForecastCalendar(model, g, k - 1);
    CalendarStep(last.year, last.month, k);
  }

  /** Forecast `k` is dated `k + 1` months after the last month of history. */
  lemma ForecastCalendar(model: seq<MonthRow>, g: Regressors, k: int)
    requires |model| >= 1 && IsMonth(model[|model| - 1].month) && 0 <= k < 3
    ensures var last := model[|model| - 1];
      && Forecasts(model, 3, g)[k].month == NextMonth(last.month, k + 1)
      && Forecasts(model, 3, g)[k].year == NextYear(last.year, last.month, k + 1)
  {
    ForecastAt(model, g, k);
  }

  /**
   * Moving one month on from `i` months after (`y`, `m`): December turns
   * into January of the next year, any other month into the next one.
   */
  lemma CalendarStep(y: int, m: int, i: int)
    requires IsMonth(m) && i >= 0
    ensures NextMonth(m, i + 1) == (m + i) % 12 + 1
    ensures i == 0 ==> (if m == 12 then NextMonth(m, 1) == 1 && NextYear(y, m, 1) == y + 1
                        else NextMonth(m, 1) == m + 1 && NextYear(y, m, 1) == y)
    ensures i > 0 ==> (if NextMonth(m, i) == 12 then NextMonth(m, i + 1) == 1 && NextYear(y, m, i + 1) == NextYear(y, m, i) + 1
                       else NextMonth(m, i + 1) == NextMonth(m, i) + 1 && NextYear(y, m, i + 1) == NextYear(y, m, i))
  {
  }

  /** Forecast `k` of the three is the step computed from the `k` before it. */
  lemma ForecastAt(model: seq<MonthRow>, g: Regressors, k: int)
    requires |model| >= 1 && IsMonth(model[|model| - 1].month) && 0 <= k < 3
    ensures Forecasts(model, 3, g)[k] == ForecastStep(model, Forecasts(model, k, g), k + 1, g)
  {
    var f1 := Forecasts(model, 1, g);
    var f2 := Forecasts(model, 2, g);
    var f3 := Forecasts(model, 3, g);
    assert f3 == f2 + [ForecastStep(model, f2, 3, g)];
    assert f2 == f1 + [ForecastStep(model, f1, 2, g)];
    assert f1 == [ForecastStep(model, [], 1, g)];
  }

  /**
   * Step 2 lags on forecast 1 and twice on the last actual month; step 3
   * on forecasts 2 and 1 and the last actual month. Order lags take the
   * truncated forecast counts.
   */
  lemma ForecastLagSources(model: seq<MonthRow>, g: Regressors)
    requires |model| >= 1 && IsMonth(model[|model| - 1].month)
    ensures var fs := Forecasts(model, 3, g);
      var last := model[|model| - 1];
      && StepFeatures(model, fs[..1], 2).revenueLags == [fs[0].predictedRevenue, last.revenue, last.revenue]
      && StepFeatures(model, fs[..1], 2).orderLags == [fs[0].predictedOrders as real, last.orders, last.orders]
      && StepFeatures(model, fs[..2], 3).revenueLags
         == [fs[1].predictedRevenue, fs[0].predictedRevenue, last.revenue]
      && StepFeatures(model, fs[..2], 3).orderLags
         == [fs[1].predictedOrders as real, fs[0].predictedOrders as real, last.orders]
  {
    var fs := Forecasts(model, 3, g);
    var f2 := Forecasts(model, 2, g);
    assert fs == f2 + [ForecastStep(model, f2, 3, g)];
    assert fs[..2] == f2;
    assert fs[..1] == Forecasts(model, 1, g);
  }

  /**
   * Every interval is symmetric around its prediction; the orders' lower
   * bound is never negative, and for a non-negative order prediction the
   * truncated count lies between the truncated bounds.
   */
  lemma ForecastIntervals(model: seq<MonthRow>, g: Regressors, k: int)
    requires |model| >= 1 && IsMonth(model[|model| - 1].month) && 0 <= k < 3
    requires ValidRegressors(g)
    ensures var f := Forecasts(model, 3, g)[k];
      && f.revenueLower <= f.predictedRevenue <= f.revenueUpper
      && f.predictedRevenue - f.revenueLower == f.revenueUpper - f.predictedRevenue
      && f.ordersLower >= 0
      && IsMonth(f.month) && f.event == EventOf(f.month)
  {
    ForecastAt(model, g, k);
  }

  lemma ForecastOrderBounds(model: seq<MonthRow>, g: Regressors, k: int)
    requires |model| >= 1 && IsMonth(model[|model| - 1].month) && 0 <= k < 3
    requires ValidRegressors(g)
    requires g.orders(StepFeatures(model, Forecasts(model, k, g), k + 1)) >= 0.0
    ensures var f := Forecasts(model, 3, g)[k];
      f.ordersLower <= f.predictedOrders <= f.ordersUpper
  {
    ForecastAt(model, g, k);
    var o := g.orders(StepFeatures(model, Forecasts(model, k, g), k + 1));
    var low := o - 1.96 * g.ordersStd;
    TruncMonotone(if low > 0.0 then low else 0.0, o);
    TruncMonotone(o, o + 1.96 * g.ordersStd);
  }

  // =====================================================================
  // Seasonality levels
  // =====================================================================

  datatype Seasonality = LowSeasonality | ModerateSeasonality | HighSeasonality | VeryHighSeasonality

  /** A coefficient of variation that may be infinite (a positive spread over a zero mean). */
  datatype Variation = Finite(value: real) | Infinite

  function SeasonalityRank(s: Seasonality): nat
  {
    match s
    case LowSeasonality => 0
    case ModerateSeasonality => 1
    case HighSeasonality => 2
    case VeryHighSeasonality => 3
  }

  /** `classify_seasonality`: thresholds 0.3, 0.6 and 1.0 on the coefficient of variation. */
  function ClassifySeasonality(cv: Variation): Seasonality
  {
    if cv.Infinite? then VeryHighSeasonality
    else if cv.value < 0.3 then LowSeasonality
    else if cv.value < 0.6 then ModerateSeasonality
    else if cv.value < 1.0 then HighSeasonality
    else VeryHighSeasonality
  }

  predicate AtMost(a: Variation, b: Variation)
  {
    b.Infinite? || (a.Finite? && a.value <= b.value)
  }

  /** More variation never yields a lower seasonality level. */
  lemma ClassifySeasonalityMonotone(a: Variation, b: Variation)
    requires AtMost(a, b)
    ensures SeasonalityRank(ClassifySeasonality(a)) <= SeasonalityRank(ClassifySeasonality(b))
  {
  }

  /**
   * Per-category `revenue_cv`: standard deviation over mean; a missing
   * deviation (one month only) or 0 over 0 fills as 0.
   */
  function CategoryVariation(mean: real, std: Option<real>): (v: Variation)
    requires mean >= 0.0 && (std.Some? ==> std.value >= 0.0)
    ensures v.Infinite? <==> mean == 0.0 && std.Some? && std.value > 0.0
    ensures v.Finite? ==> v.value >= 0.0
    ensures v.Finite? && mean > 0.0 && std.Some? ==> v.value * mean == std.value
  {
    if std.None? then Finite(0.0)
    else if mean > 0.0 then Finite(std.value / mean)
    else if std.value > 0.0 then Infinite
    else Finite(0.0)
  }

  /**
   * Overall `revenue_cv` and `orders_cv`: 0 unless the mean is positive.
   * The deviation is a real here; with a single month pandas' sample
   * deviation is NaN and so is the ratio, a case this function does not
   * cover.
   */
  function OverallVariation(mean: real, std: real): (cv: real)
    requires std >= 0.0
    ensures cv >= 0.0
    ensures mean <= 0.0 ==> cv == 0.0
    ensures mean > 0.0 ==> cv * mean == std
  {
    if mean > 0.0 then std / mean else 0.0
  }

  /** `peak_to_trough_ratio`: largest over smallest monthly revenue; infinite or undefined ratios become 0. */
  function PeakToTrough(largest: real, smallest: real): (r: real)
    requires 0.0 <= smallest <= largest
    ensures smallest == 0.0 ==> r == 0.0
    ensures smallest > 0.0 ==> r >= 1.0 && r * smallest == largest
  {
    if smallest == 0.0 then 0.0 else largest / smallest
  }


  // =====================================================================
  // Inventory optimisation
  // =====================================================================

  /** Revenue of one calendar month, summed over the years. */
  datatype MonthTotal = MonthTotal(month: int, revenue: real)

  datatype SeasonMonth = SeasonMonth(month: int, event: string, multiplier: real)

  /** A month next to a high-season month: when to build stock, or when to clear it. */
  datatype AdjacentMonth = AdjacentMonth(month: int, event: string, highSeasonEvent: string)

  datatype OverallStrategy = OverallStrategy(
    highSeason: seq<SeasonMonth>,
    lowSeason: seq<SeasonMonth>,
    preparation: seq<AdjacentMonth>,
    clearance: seq<AdjacentMonth>)

  function RevenueTotal(ms: seq<MonthTotal>): real
  {
    if ms == [] then 0.0 else ms[0].revenue + RevenueTotal(ms[1..])
  }

  /** Mean monthly revenue; missing for an empty table, where NumPy's mean is NaN and no comparison holds. */
  function AverageRevenue(ms: seq<MonthTotal>): (avg: Option<real>)
    ensures avg.Some? <==> ms != []
    ensures avg.Some? ==> avg.value * |ms| as real == RevenueTotal(ms)
  {
    if ms == [] then None else Some(RevenueTotal(ms) / |ms| as real)
  }

  /** More than 20% above the average. */
  predicate HighSeason(revenue: real, avg: Option<real>) { avg.Some? && revenue > avg.value * 1.2 }

  /** Not high season and more than 20% below the average. */
  predicate LowSeason(revenue: real, avg: Option<real>)
  {
    avg.Some? && !HighSeason(revenue, avg) && revenue < avg.value * 0.8
  }

  /** The month before `m`, December before January. */
  function PreviousMonth(m: int): (p: int)
    requires IsMonth(m)
    ensures IsMonth(p) && NextMonth(p, 1) == m
  {
    if m > 1 then m - 1 else 12
  }

  /** The month after `m`, January after December. */
  function FollowingMonth(m: int): (n: int)
    requires IsMonth(m)
    ensures IsMonth(n) && n == NextMonth(m, 1) && PreviousMonth(n) == m
  {
    if m < 12 then m + 1 else 1
  }

  predicate ValidMonthTotals(ms: seq<MonthTotal>)
  {
    forall k :: 0 <= k < |ms| ==> IsMonth(ms[k].month)
  }

  /**
   * A listed month with its revenue relative to the average. The multiplier
   * is left at 0 when the average is 0; with non-negative revenue that never
   * happens for a listed month, since a zero average lists none (nothing is
   * above 1.2 times it or below 0.8 times it).
   */
  function SeasonMonthOf(t: MonthTotal, avg: real): SeasonMonth
    requires IsMonth(t.month)
  {
    SeasonMonth(t.month, EventOf(t.month).name, if avg != 0.0 then t.revenue / avg else 0.0)
  }

  /** The high-season months in table order. */
  function HighSeasonMonths(ms: seq<MonthTotal>, avg: Option<real>): (hs: seq<SeasonMonth>)
    requires ValidMonthTotals(ms)
    ensures |hs| <= |ms|
    ensures forall k :: 0 <= k < |hs| ==> IsMonth(hs[k].month)
  {
    if ms == [] then []
    else
      var init := ms[..|ms| - 1];
      var t := ms[|ms| - 1];
      assert ValidMonthTotals(init) by {
        forall k | 0 <= k < |init| ensures IsMonth(init[k].month) { assert init[k] == ms[k]; }
      }
      HighSeasonMonths(init, avg) + (if HighSeason(t.revenue, avg) then [SeasonMonthOf(t, avg.value)] else [])
  }

  /** The low-season months in table order. */
  function LowSeasonMonths(ms: seq<MonthTotal>, avg: Option<real>): (ls: seq<SeasonMonth>)
    requires ValidMonthTotals(ms)
    ensures |ls| <= |ms|
  {
    if ms == [] then []
    else
      var init := ms[..|ms| - 1];
      var t := ms[|ms| - 1];
      assert ValidMonthTotals(init) by {
        forall k | 0 <= k < |init| ensures IsMonth(init[k].month) { assert init[k] == ms[k]; }
      }
      LowSeasonMonths(init, avg) + (if LowSeason(t.revenue, avg) then [SeasonMonthOf(t, avg.value)] else [])
  }

  /** Every listed high-season month comes from a table row above the threshold, with its multiplier. */
  lemma {:induction false} HighSeasonFromRows(ms: seq<MonthTotal>, avg: Option<real>, h: SeasonMonth)
    requires ValidMonthTotals(ms) && h in HighSeasonMonths(ms, avg)
    ensures exists k :: 0 <= k < |ms| && HighSeason(ms[k].revenue, avg) && h == SeasonMonthOf(ms[k], avg.value)
  {
    var init := ms[..|ms| - 1];
    var t := ms[|ms| - 1];
    assert ValidMonthTotals(init) by {
      forall k | 0 <= k < |init| ensures IsMonth(init[k].month) { assert init[k] == ms[k]; }
    }
    if h in HighSeasonMonths(init, avg) {
      HighSeasonFromRows(init, avg, h);
      var k :| 0 <= k < |init| && HighSeason(init[k].revenue, avg) && h == SeasonMonthOf(init[k], avg.value);
      assert ms[k] == init[k];
    } else {
      assert ms[|ms| - 1] == t;
    }
  }

  /** Every listed low-season month comes from a table row below the threshold. */
  lemma {:induction false} LowSeasonFromRows(ms: seq<MonthTotal>, avg: Option<real>, l: SeasonMonth)
    requires ValidMonthTotals(ms) && l in LowSeasonMonths(ms, avg)
    ensures exists k :: 0 <= k < |ms| && LowSeason(ms[k].revenue, avg) && l == SeasonMonthOf(ms[k], avg.value)
  {
    var init := ms[..|ms| - 1];
    assert ValidMonthTotals(init) by {
      forall k | 0 <= k < |init| ensures IsMonth(init[k].month) { assert init[k] == ms[k]; }
    }
    if l in LowSeasonMonths(init, avg) {
      LowSeasonFromRows(init, avg, l);
      var k :| 0 <= k < |init| && LowSeason(init[k].revenue, avg) && l == SeasonMonthOf(init[k], avg.value);
      assert ms[k] == init[k];
    } else {
      var k := |ms| - 1;
      assert LowSeason(ms[k].revenue, avg) && l == SeasonMonthOf(ms[k], avg.value);
    }
  }

  /** Every table row above the threshold is listed as a high-season month. */
  lemma {:induction false} HighRowsListed(ms: seq<MonthTotal>, avg: Option<real>, k: int)
    requires ValidMonthTotals(ms) && 0 <= k < |ms| && HighSeason(ms[k].revenue, avg)
    ensures SeasonMonthOf(ms[k], avg.value) in HighSeasonMonths(ms, avg)
  {
    var init := ms[..|ms| - 1];
    assert ValidMonthTotals(init) by {
      forall j | 0 <= j < |init| ensures IsMonth(init[j].month) { assert init[j] == ms[j]; }
    }
    if k < |ms| - 1 {
      assert init[k] == ms[k];
      HighRowsListed(init, avg, k);
    }
  }

  /** Every table row below the low threshold, and not above the high one, is listed as a low-season month. */
  lemma {:induction false} LowRowsListed(ms: seq<MonthTotal>, avg: Option<real>, k: int)
    requires ValidMonthTotals(ms) && 0 <= k < |ms| && LowSeason(ms[k].revenue, avg)
    ensures SeasonMonthOf(ms[k], avg.value) in LowSeasonMonths(ms, avg)
  {
    var init := ms[..|ms| - 1];
    assert ValidMonthTotals(init) by {
      forall j | 0 <= j < |init| ensures IsMonth(init[j].month) { assert init[j] == ms[j]; }
    }
    if k < |ms| - 1 {
      assert init[k] == ms[k];
      LowRowsListed(init, avg, k);
    }
  }

  lemma RatioExceeds(r: real, a: real, c: real)
    requires a > 0.0 && r > a * c
    ensures r / a > c
  {
    var q := r / a;
    assert q * a == r;
    assert (q - c) * a > 0.0;
  }

  lemma RatioBelow(r: real, a: real, c: real)
    requires a > 0.0 && r < a * c
    ensures r / a < c
  {
    var q := r / a;
    assert q * a == r;
    assert (c - q) * a > 0.0;
  }

  /** Each month's total appears once in the table (grouped by calendar month). */
  predicate DistinctMonths(ms: seq<MonthTotal>)
  {
    forall i, j :: 0 <= i < j < |ms| ==> ms[i].month != ms[j].month
  }

  /**
   * No month is both high and low season; a high-season month sells more
   * than 1.2 times the average and a low-season month less than 0.8 times it.
   */
  lemma SeasonsDisjoint(ms: seq<MonthTotal>, h: SeasonMonth, l: SeasonMonth)
    requires ValidMonthTotals(ms) && DistinctMonths(ms)
    requires h in HighSeasonMonths(ms, AverageRevenue(ms)) && l in LowSeasonMonths(ms, AverageRevenue(ms))
    ensures h.month != l.month
  {
    var avg := AverageRevenue(ms);
    HighSeasonFromRows(ms, avg, h);
    LowSeasonFromRows(ms, avg, l);
  }

  lemma HighSeasonMultiplier(ms: seq<MonthTotal>, h: SeasonMonth)
    requires ValidMonthTotals(ms) && h in HighSeasonMonths(ms, AverageRevenue(ms))
    requires AverageRevenue(ms).value > 0.0
    ensures h.multiplier > 1.2
  {
    var avg := AverageRevenue(ms);
    HighSeasonFromRows(ms, avg, h);
    var k :| 0 <= k < |ms| && HighSeason(ms[k].revenue, avg) && h == SeasonMonthOf(ms[k], avg.value);
    RatioExceeds(ms[k].revenue, avg.value, 1.2);
  }

  lemma LowSeasonMultiplier(ms: seq<MonthTotal>, l: SeasonMonth)
    requires ValidMonthTotals(ms) && l in LowSeasonMonths(ms, AverageRevenue(ms))
    requires AverageRevenue(ms).value > 0.0
    ensures l.multiplier < 0.8
  {
    var avg := AverageRevenue(ms);
    LowSeasonFromRows(ms, avg, l);
    var k :| 0 <= k < |ms| && LowSeason(ms[k].revenue, avg) && l == SeasonMonthOf(ms[k], avg.value);
    RatioBelow(ms[k].revenue, avg.value, 0.8);
  }

  /** A preparation month: the month before a high-season month, with its own event. */
  predicate PreparesFor(p: AdjacentMonth, h: SeasonMonth)
  {
    && IsMonth(h.month)
    && p.month == PreviousMonth(h.month)
    && p.event == EventOf(p.month).name
    && p.highSeasonEvent == h.event
  }

  /** A clearance month: the month after a high-season month, with its own event. */
  predicate ClearsAfter(c: AdjacentMonth, h: SeasonMonth)
  {
    && IsMonth(h.month)
    && c.month == FollowingMonth(h.month)
    && c.event == EventOf(c.month).name
    && c.highSeasonEvent == h.event
  }

  /**
   * The overall inventory strategy: high and low season months from one
   * pass over the monthly totals, then one preparation month (the month
   * before) and one clearance month (the month after) per high-season month.
   */
  method OverallInventoryStrategy(ms: seq<MonthTotal>) returns (s: OverallStrategy)
    requires ValidMonthTotals(ms)
    ensures s.highSeason == HighSeasonMonths(ms, AverageRevenue(ms))
    ensures s.lowSeason == LowSeasonMonths(ms, AverageRevenue(ms))
    ensures |s.preparation| == |s.highSeason| == |s.clearance|
    ensures forall k :: 0 <= k < |s.highSeason| ==>
      PreparesFor(s.preparation[k], s.highSeason[k]) && ClearsAfter(s.clearance[k], s.highSeason[k])
  {
    var high, low := SeasonScan(ms);
    var preparation := PreparationMonths(high);
    var clearance := ClearanceMonths(high);
    s := OverallStrategy(high, low, preparation, clearance);
  }

  /** High and low season months from one pass over the monthly totals. */
  method SeasonScan(ms: seq<MonthTotal>) returns (high: seq<SeasonMonth>, low: seq<SeasonMonth>)
    requires ValidMonthTotals(ms)
    ensures high == HighSeasonMonths(ms, AverageRevenue(ms))
    ensures low == LowSeasonMonths(ms, AverageRevenue(ms))
  {
    var avg := AverageRevenue(ms);
    high, low := [], [];
    var i := 0;
    while i < |ms|
      invariant 0 <= i <= |ms|
      invariant ValidMonthTotals(ms[..i])
      invariant high == HighSeasonMonths(ms[..i], avg)
      invariant low == LowSeasonMonths(ms[..i], avg)
    {
      assert ms[..i + 1][..i] == ms[..i];
      var t := ms[i];
      if avg.Some? && t.revenue > avg.value * 1.2 {
        high := high + [SeasonMonthOf(t, avg.value)];
      } else if avg.Some? && t.revenue < avg.value * 0.8 {
        low := low + [SeasonMonthOf(t, avg.value)];
      }
      i := i + 1;
    }
    assert ms[..i] == ms;
  }

  /** One preparation month per high-season month, in order. */
  method PreparationMonths(high: seq<SeasonMonth>) returns (preparation: seq<AdjacentMonth>)
    requires forall k :: 0 <= k < |high| ==> IsMonth(high[k].month)
    ensures |preparation| == |high|
    ensures forall k :: 0 <= k < |high| ==> PreparesFor(preparation[k], high[k])
  {
    preparation := [];
    var j := 0;
    while j < |high|
      invariant 0 <= j <= |high| && |preparation| == j
      invariant forall k :: 0 <= k < j ==> PreparesFor(preparation[k], high[k])
    {
      var p := PreviousMonth(high[j].month);
      preparation := preparation + [AdjacentMonth(p, EventOf(p).name, high[j].event)];
      j := j + 1;
    }
  }

  /** One clearance month per high-season month, in order. */
  method ClearanceMonths(high: seq<SeasonMonth>) returns (clearance: seq<AdjacentMonth>)
    requires forall k :: 0 <= k < |high| ==> IsMonth(high[k].month)
    ensures |clearance| == |high|
    ensures forall k :: 0 <= k < |high| ==> ClearsAfter(clearance[k], high[k])
  {
    clearance := [];
    var j := 0;
    while j < |high|
      invariant 0 <= j <= |high| && |clearance| == j
      invariant forall k :: 0 <= k < j ==> ClearsAfter(clearance[k], high[k])
    {
      var c := FollowingMonth(high[j].month);
      clearance := clearance + [AdjacentMonth(c, EventOf(c).name, high[j].event)];
      j := j + 1;
    }
  }

  // ---------------------------------------------------------------------
  // Category and forecast recommendation tables
  // ---------------------------------------------------------------------

  /** An inclusive percentage range, such as "60-80%". */
  datatype PercentRange = PercentRange(low: int, high: int)

  datatype RiskLevel = LowRisk | MediumRisk | MediumHighRisk | HighRisk

  /** Inventory plan of a category by its seasonality level. */
  datatype CategoryPlan = CategoryPlan(strategy: string, adjustment: PercentRange, risk: RiskLevel, buffer: PercentRange)

  function RiskRank(r: RiskLevel): nat
  {
    match r
    case LowRisk => 0
    case MediumRisk => 1
    case MediumHighRisk => 2
    case HighRisk => 3
  }

  function CategoryPlanOf(level: Seasonality): CategoryPlan
  {
    match level
    case VeryHighSeasonality =>
      CategoryPlan("Dynamic inventory with 60-80% seasonal adjustment", PercentRange(60, 80), HighRisk, PercentRange(10, 15))
    case HighSeasonality =>
      CategoryPlan("Seasonal inventory with 40-60% adjustment", PercentRange(40, 60), MediumHighRisk, PercentRange(15, 20))
    case ModerateSeasonality =>
      CategoryPlan("Moderate seasonal adjustment (20-40%)", PercentRange(20, 40), MediumRisk, PercentRange(20, 25))
    case LowSeasonality =>
      CategoryPlan("Stable inventory with minimal adjustment", PercentRange(0, 0), LowRisk, PercentRange(25, 30))
  }

  /**
   * A more seasonal category gets a larger seasonal adjustment, a higher
   * risk level and a smaller buffer stock; the level can be read back from
   * the risk.
   */
  lemma CategoryPlanOrdered(a: Seasonality, b: Seasonality)
    requires SeasonalityRank(a) < SeasonalityRank(b)
    ensures CategoryPlanOf(a).adjustment.high <= CategoryPlanOf(b).adjustment.low
    ensures RiskRank(CategoryPlanOf(a).risk) < RiskRank(CategoryPlanOf(b).risk)
    ensures CategoryPlanOf(b).buffer.high <= CategoryPlanOf(a).buffer.low
  {
    PlanByRank(a);
    PlanByRank(b);
  }

  /** The plan's ranges and risk as functions of the seasonality rank. */
  lemma PlanByRank(level: Seasonality)
    ensures var r, p := SeasonalityRank(level), CategoryPlanOf(level);
      && RiskRank(p.risk) == r
      && p.adjustment.low == 20 * r && p.adjustment.high == (if r == 0 then 0 else 20 * r + 20)
      && p.buffer.low == 25 - 5 * r && p.buffer.high == 30 - 5 * r
  {
    match level
    case LowSeasonality =>
    case ModerateSeasonality =>
    case HighSeasonality =>
    case VeryHighSeasonality =>
  }

  /** Inventory adjustment and lead time for a forecast month by its event's impact. */
  datatype ForecastPlan = ForecastPlan(adjustment: string, change: PercentRange, leadWeeks: PercentRange)

  function ForecastPlanOf(i: Impact): ForecastPlan
  {
    match i
    case VeryHighImpact => ForecastPlan("+50-70%", PercentRange(50, 70), PercentRange(6, 8))
    case HighImpact => ForecastPlan("+30-50%", PercentRange(30, 50), PercentRange(4, 6))
    case MediumImpact => ForecastPlan("+10-30%", PercentRange(10, 30), PercentRange(2, 4))
    case LowImpact => ForecastPlan("±10%", PercentRange(-10, 10), PercentRange(1, 2))
  }

  /** A stronger event never gets a smaller stock increase or a shorter lead time. */
  lemma ForecastPlanOrdered(a: Impact, b: Impact)
    requires ImpactScore(a) < ImpactScore(b)
    ensures ForecastPlanOf(a).change.high <= ForecastPlanOf(b).change.low
    ensures ForecastPlanOf(a).leadWeeks.high <= ForecastPlanOf(b).leadWeeks.low
  {
  }

  datatype CategoryRecommendation = CategoryRecommendation(
    category: string,
    level: Seasonality,
    plan: CategoryPlan,
    avgMonthlyRevenue: real)

  function NegatedRevenue(c: CategoryRecommendation): real { -c.avgMonthlyRevenue }

  /** Category recommendations, largest average monthly revenue first. */
  function SortByRevenue(cs: seq<CategoryRecommendation>): (r: seq<CategoryRecommendation>)
    ensures multiset(r) == multiset(cs)
    ensures forall i, j :: 0 <= i < j < |r| ==> r[i].avgMonthlyRevenue >= r[j].avgMonthlyRevenue
  {
    var r := SortBy(cs, NegatedRevenue);
    assert forall i, j :: 0 <= i < j < |r| ==> NegatedRevenue(r[i]) <= NegatedRevenue(r[j]);
    r
  }

  /** `r` is `cs` with some entries left out and the rest in their order. */
  predicate SubsequenceOf(r: seq<CategoryRecommendation>, cs: seq<CategoryRecommendation>)
    decreases |cs|
  {
    r == [] || (cs != [] && ((r[0] == cs[0] && SubsequenceOf(r[1..], cs[1..])) || SubsequenceOf(r, cs[1..])))
  }

  /**
   * The list comprehension keeping the categories whose level passes, in
   * the order of `cs`.
   */
  function Filter(cs: seq<CategoryRecommendation>, keep: Seasonality -> bool): (r: seq<CategoryRecommendation>)
    ensures |r| <= |cs|
    ensures forall c :: c in r <==> c in cs && keep(c.level)
    ensures SubsequenceOf(r, cs)
  {
    if cs == [] then []
    else
      var rest := Filter(cs[1..], keep);
      if keep(cs[0].level) then
        var r := [cs[0]] + rest;
        assert r[1..] == rest;
        r
      else
        rest
  }

  /** Each kept category appears in the filtered list exactly as often as in `cs`; no other does. */
  lemma {:induction false} FilterCounts(cs: seq<CategoryRecommendation>, keep: Seasonality -> bool, c: CategoryRecommendation)
    ensures multiset(Filter(cs, keep))[c] == if keep(c.level) then multiset(cs)[c] else 0
  {
    if cs != [] {
      var rest := Filter(cs[1..], keep);
      FilterCounts(cs[1..], keep, c);
      assert cs == [cs[0]] + cs[1..];
      assert multiset(cs) == multiset([cs[0]]) + multiset(cs[1..]);
      if keep(cs[0].level) {
        assert Filter(cs, keep) == [cs[0]] + rest;
        assert multiset(Filter(cs, keep)) == multiset([cs[0]]) + multiset(rest);
      } else {
        assert Filter(cs, keep) == rest;
        assert c == cs[0] ==> !keep(c.level);
      }
    }
  }

  /** Entries of a subsequence are entries of the whole. */
  lemma {:induction false} SubsequenceMembers(r: seq<CategoryRecommendation>, cs: seq<CategoryRecommendation>)
    requires SubsequenceOf(r, cs)
    ensures forall c :: c in r ==> c in cs
    decreases |cs|
  {
    if r != [] {
      var tail := cs[1..];
      if r[0] == cs[0] && SubsequenceOf(r[1..], tail) {
        SubsequenceMembers(r[1..], tail);
        assert r == [r[0]] + r[1..];
      } else {
        SubsequenceMembers(r, tail);
      }
      assert cs == [cs[0]] + tail;
    }
  }

  /** A list in non-increasing revenue order stays so with entries left out. */
  lemma {:induction false} SubsequenceKeepsOrder(r: seq<CategoryRecommendation>, cs: seq<CategoryRecommendation>)
    requires SubsequenceOf(r, cs)
    requires forall i, j :: 0 <= i < j < |cs| ==> cs[i].avgMonthlyRevenue >= cs[j].avgMonthlyRevenue
    ensures forall i, j :: 0 <= i < j < |r| ==> r[i].avgMonthlyRevenue >= r[j].avgMonthlyRevenue
    decreases |cs|
  {
    if r != [] {
      var tail := cs[1..];
      assert forall i, j :: 0 <= i < j < |tail| ==> tail[i].avgMonthlyRevenue >= tail[j].avgMonthlyRevenue by {
        forall i, j | 0 <= i < j < |tail| ensures tail[i].avgMonthlyRevenue >= tail[j].avgMonthlyRevenue {
          assert tail[i] == cs[i + 1] && tail[j] == cs[j + 1];
        }
      }
      if r[0] == cs[0] && SubsequenceOf(r[1..], tail) {
        SubsequenceKeepsOrder(r[1..], tail);
        SubsequenceMembers(r[1..], tail);
        forall j | 0 < j < |r| ensures r[0].avgMonthlyRevenue >= r[j].avgMonthlyRevenue {
          assert r[j] == r[1..][j - 1];
          assert r[j] in tail;
          var k :| 0 <= k < |tail| && tail[k] == r[j];
          assert cs[k + 1] == r[j];
        }
        forall i, j | 0 < i < j < |r| ensures r[i].avgMonthlyRevenue >= r[j].avgMonthlyRevenue {
          assert r[i] == r[1..][i - 1] && r[j] == r[1..][j - 1];
        }
      } else {
        SubsequenceKeepsOrder(r, tail);
      }
    }
  }

  predicate VerySeasonal(l: Seasonality) { l == VeryHighSeasonality || l == HighSeasonality }

  predicate Stable(l: Seasonality) { l == LowSeasonality }

  function Take(cs: seq<CategoryRecommendation>, n: nat): (r: seq<CategoryRecommendation>)
    ensures |r| == if |cs| < n then |cs| else n
    ensures r == cs[..|r|]
  {
    if |cs| < n then cs else cs[..n]
  }

  /** The high-risk and stable category lists: the first ten matching categories in revenue order. */
  function RiskLists(sorted: seq<CategoryRecommendation>): (r: (seq<CategoryRecommendation>, seq<CategoryRecommendation>))
  {
    (Take(Filter(sorted, VerySeasonal), 10), Take(Filter(sorted, Stable), 10))
  }

  /**
   * Each risk list holds at most ten categories, only of its levels, and
   * holds every such category when there are at most ten of them.
   */
  lemma RiskListsBounded(sorted: seq<CategoryRecommendation>)
    ensures var (highRisk, stable) := RiskLists(sorted);
      && |highRisk| <= 10 && |stable| <= 10
      && (forall c :: c in highRisk ==> c in sorted && VerySeasonal(c.level))
      && (forall c :: c in stable ==> c in sorted && c.level == LowSeasonality)
      && (|Filter(sorted, VerySeasonal)| <= 10 ==>
            forall c :: c in sorted && VerySeasonal(c.level) ==> c in highRisk)
      && (|Filter(sorted, Stable)| <= 10 ==>
            forall c :: c in sorted && c.level == LowSeasonality ==> c in stable)
  {
    var f := Filter(sorted, VerySeasonal);
    var g := Filter(sorted, Stable);
    assert forall c :: c in Take(f, 10) ==> c in f;
    assert forall c :: c in Take(g, 10) ==> c in g;
  }

  /**
   * Each risk list is the first ten (or fewer, when there are fewer)
   * categories of its levels, taken in the order of `sorted`: so they stay
   * in non-increasing revenue order.
   */
  lemma RiskListsInRevenueOrder(sorted: seq<CategoryRecommendation>)
    requires forall i, j :: 0 <= i < j < |sorted| ==> sorted[i].avgMonthlyRevenue >= sorted[j].avgMonthlyRevenue
    ensures var (highRisk, stable) := RiskLists(sorted);
      var f := Filter(sorted, VerySeasonal);
      var g := Filter(sorted, Stable);
      && |highRisk| == (if |f| < 10 then |f| else 10) && highRisk == f[..|highRisk|]
      && |stable| == (if |g| < 10 then |g| else 10) && stable == g[..|stable|]
      && (forall i, j :: 0 <= i < j < |highRisk| ==> highRisk[i].avgMonthlyRevenue >= highRisk[j].avgMonthlyRevenue)
      && (forall i, j :: 0 <= i < j < |stable| ==> stable[i].avgMonthlyRevenue >= stable[j].avgMonthlyRevenue)
  {
    var f := Filter(sorted, VerySeasonal);
    var g := Filter(sorted, Stable);
    SubsequenceKeepsOrder(f, sorted);
    SubsequenceKeepsOrder(g, sorted);
    var (highRisk, stable) := RiskLists(sorted);
    forall i, j | 0 <= i < j < |highRisk| ensures highRisk[i].avgMonthlyRevenue >= highRisk[j].avgMonthlyRevenue {
      assert highRisk[i] == f[i] && highRisk[j] == f[j];
    }
    forall i, j | 0 <= i < j < |stable| ensures stable[i].avgMonthlyRevenue >= stable[j].avgMonthlyRevenue {
      assert stable[i] == g[i] && stable[j] == g[j];
    }
  }

  /** One category recommendation from its seasonality figures. */
  function CategoryRecommendationOf(category: string, cv: Variation, avgMonthlyRevenue: real): (c: CategoryRecommendation)
    ensures c.level == ClassifySeasonality(cv) && c.plan == CategoryPlanOf(c.level)
  {
    var level := ClassifySeasonality(cv);
    CategoryRecommendation(category, level, CategoryPlanOf(level), avgMonthlyRevenue)
  }
}
