// Geographic expansion scoring of `MarketExpansionAnalyzer`: per-state
// penetration metrics, untapped potential against tier benchmarks, seller
// supply against demand, the weighted opportunity score, the tier-based
// priority table and the per-state recommendation rules.
module MarketExpansion {
  import opened Common
  import opened Stats
  import FeatureEngineering

  // =====================================================================
  // Market penetration
  // =====================================================================

  /**
   * One state of the summary: city-level counts summed per state, and the
   * means of the per-city opportunity score, delivery days and on-time rate.
   */
  datatype StateBase = StateBase(
    state: string,
    customers: nat,
    sellers: nat,
    orders: nat,
    revenue: real,
    opportunity: real,
    avgDeliveryDays: Option<real>,
    onTimeRate: Option<real>)

  /** `penetration_level`: customer counts binned at (0,100], (100,1000], (1000,5000], (5000,inf). */
  datatype Penetration = VeryLow | Low | Medium | High

  function PenetrationRank(p: Penetration): nat
  {
    match p
    case VeryLow => 1
    case Low => 2
    case Medium => 3
    case High => 4
  }

  /** A state without customers falls outside every bin. */
  function PenetrationLevel(customers: nat): (p: Option<Penetration>)
    ensures p.None? <==> customers == 0
    ensures p.Some? && p.value == VeryLow ==> customers <= 100
    ensures p.Some? && p.value == High ==> customers > 5000
  {
    if customers == 0 then None
    else if customers <= 100 then Some(VeryLow)
    else if customers <= 1000 then Some(Low)
    else if customers <= 5000 then Some(Medium)
    else Some(High)
  }

  /** More customers never mean a lower penetration level. */
  lemma PenetrationLevelMonotone(c1: nat, c2: nat)
    requires 0 < c1 <= c2
    ensures PenetrationRank(PenetrationLevel(c1).value) <= PenetrationRank(PenetrationLevel(c2).value)
  {
  }

  datatype PenetrationMetrics = PenetrationMetrics(
    revenuePerCustomer: real,
    ordersPerCustomer: real,
    customerToSellerRatio: real,
    level: Option<Penetration>)

  /** The zero-guarded ratios of `analyze_market_penetration`. */
  function PenetrationMetricsOf(b: StateBase): (m: PenetrationMetrics)
    ensures b.customers > 0 ==> m.revenuePerCustomer * b.customers as real == b.revenue
    ensures b.customers > 0 ==> m.ordersPerCustomer * b.customers as real == b.orders as real
    ensures b.customers == 0 ==> m.revenuePerCustomer == 0.0 && m.ordersPerCustomer == 0.0
    ensures b.sellers > 0 ==> m.customerToSellerRatio * b.sellers as real == b.customers as real
    ensures b.sellers == 0 ==> m.customerToSellerRatio == b.customers as real
    ensures m.level.None? <==> b.customers == 0
  {
    PenetrationMetrics(
      FeatureEngineering.RevenuePerCustomer(b.revenue, b.customers as real),
      FeatureEngineering.RevenuePerCustomer(b.orders as real, b.customers as real),
      FeatureEngineering.CustomerToSellerRatio(b.customers as real, b.sellers as real),
      PenetrationLevel(b.customers))
  }

  /** A state row, extended stage by stage as the analysis runs. */
  datatype StateRow = StateRow(
    base: StateBase,
    metrics: PenetrationMetrics,
    potential: Option<Potential>,
    fit: Option<SellerFit>,
    opportunity: Option<Opportunity>)

  /** Sort key placing the highest mean opportunity score first. */
  function OpportunityKey(r: StateRow): real
  {
    -r.base.opportunity
  }

  /**
   * The summary after `analyze_market_penetration`: one row per state with
   * its ratios and level, sorted by mean opportunity score, highest first.
   */
  function MarketPenetration(market: seq<StateBase>): (rows: seq<StateRow>)
    ensures |rows| == |market|
    ensures forall i, j :: 0 <= i < j < |rows| ==> rows[i].base.opportunity >= rows[j].base.opportunity
    ensures multiset(rows) == multiset(seq(|market|, i requires 0 <= i < |market| =>
      StateRow(market[i], PenetrationMetricsOf(market[i]), None, None, None)))
  {
    var rows := seq(|market|, i requires 0 <= i < |market| =>
      StateRow(market[i], PenetrationMetricsOf(market[i]), None, None, None));
    var sorted := SortBy(rows, OpportunityKey);
    assert forall i, j :: 0 <= i < j < |sorted| ==> OpportunityKey(sorted[i]) <= OpportunityKey(sorted[j]);
    sorted
  }

  // =====================================================================
  // Untapped potential
  // =====================================================================

  /** Census and economic context of a state. */
  datatype StateInfo = StateInfo(population: nat, gdpPerCapita: nat, tier: nat, urbanRate: real)

  predicate ValidInfo(i: StateInfo)
  {
    i.population > 0 && i.gdpPerCapita > 0 && 1 <= i.tier <= 3 && 0.0 < i.urbanRate <= 1.0
  }

  /** The 2020 census and economic table of the 27 federative units. */
  const StateTable: map<string, StateInfo> := map[
    "SP" := StateInfo(46649132, 56956, 1, 0.96),
    "RJ" := StateInfo(17463349, 51929, 1, 0.97),
    "MG" := StateInfo(21411923, 35219, 1, 0.85),
    "BA" := StateInfo(15203934, 22045, 2, 0.73),
    "PR" := StateInfo(11597484, 42791, 2, 0.85),
    "RS" := StateInfo(11466630, 45180, 2, 0.85),
    "PE" := StateInfo(9674793, 21077, 2, 0.80),
    "CE" := StateInfo(9240580, 18320, 2, 0.75),
    "PA" := StateInfo(8777124, 17179, 3, 0.68),
    "SC" := StateInfo(7338473, 46016, 2, 0.84),
    "GO" := StateInfo(7206589, 30544, 2, 0.90),
    "MA" := StateInfo(7153262, 14748, 3, 0.64),
    "PB" := StateInfo(4059905, 17687, 3, 0.75),
    "AM" := StateInfo(4269995, 23894, 3, 0.79),
    "ES" := StateInfo(4108508, 38177, 2, 0.83),
    "MT" := StateInfo(3567234, 49265, 2, 0.82),
    "AL" := StateInfo(3365351, 16463, 3, 0.73),
    "PI" := StateInfo(3289290, 14454, 3, 0.66),
    "DF" := StateInfo(3094325, 85830, 1, 0.97),
    "MS" := StateInfo(2839188, 39265, 2, 0.86),
    "RN" := StateInfo(3560903, 18690, 3, 0.77),
    "RO" := StateInfo(1815278, 26157, 3, 0.74),
    "AC" := StateInfo(906876, 18327, 3, 0.73),
    "AP" := StateInfo(877613, 19952, 3, 0.90),
    "SE" := StateInfo(2338474, 22942, 3, 0.74),
    "TO" := StateInfo(1607363, 22555, 3, 0.79),
    "RR" := StateInfo(652713, 22896, 3, 0.76)
  ]

  /** The context attached to a state; states outside the table get none (NaN columns). */
  function InfoOf(state: string): (i: Option<StateInfo>)
    ensures i.Some? <==> state in StateTable
    ensures i.Some? ==> ValidInfo(i.value)
  {
    if state in StateTable then Some(StateTable[state]) else None
  }

  function UrbanPopulation(i: StateInfo): real
  {
    i.population as real * i.urbanRate
  }

  /** The customers of a state next to its census context. */
  datatype CensusRow = CensusRow(customers: nat, info: Option<StateInfo>)

  predicate ValidCensus(rows: seq<CensusRow>)
  {
    forall i :: 0 <= i < |rows| && rows[i].info.Some? ==> ValidInfo(rows[i].info.value)
  }

  predicate InTier(r: CensusRow, t: nat)
  {
    r.info.Some? && r.info.value.tier == t
  }

  function TierCount(rows: seq<CensusRow>, t: nat): nat
  {
    if rows == [] then 0 else (if InTier(rows[0], t) then 1 else 0) + TierCount(rows[1..], t)
  }

  function TierCustomers(rows: seq<CensusRow>, t: nat): real
  {
    if rows == [] then 0.0
    else (if InTier(rows[0], t) then rows[0].customers as real else 0.0) + TierCustomers(rows[1..], t)
  }

  function TierUrban(rows: seq<CensusRow>, t: nat): real
  {
    if rows == [] then 0.0
    else (if InTier(rows[0], t) then UrbanPopulation(rows[0].info.value) else 0.0) + TierUrban(rows[1..], t)
  }

  /** An empty tier has no customers and no urban population; a non-empty one has some. */
  lemma {:induction false} TierSums(rows: seq<CensusRow>, t: nat)
    requires ValidCensus(rows)
    ensures TierCount(rows, t) == 0 ==> TierCustomers(rows, t) == 0.0 && TierUrban(rows, t) == 0.0
    ensures TierCount(rows, t) > 0 ==> TierUrban(rows, t) > 0.0
    ensures TierCustomers(rows, t) >= 0.0 && TierUrban(rows, t) >= 0.0
  {
    if rows != [] {
      TierSums(rows[1..], t);
      if InTier(rows[0], t) {
        var i := rows[0].info.value;
        assert ValidInfo(i);
        assert UrbanPopulation(i) > 0.0;
      }
    }
  }

  /** A state's tier lies among its census rows. */
  lemma {:induction false} TierOfRowIsPopulated(rows: seq<CensusRow>, k: int)
    requires 0 <= k < |rows| && rows[k].info.Some?
    ensures TierCount(rows, rows[k].info.value.tier) > 0
  {
    if k > 0 {
      TierOfRowIsPopulated(rows[1..], k - 1);
    }
  }

  /**
   * The tier benchmark: customers per 1000 urban inhabitants over all states
   * of the tier together; defined only for a tier with at least one state.
   */
  function TierBenchmark(rows: seq<CensusRow>, t: nat): (b: Option<real>)
    requires ValidCensus(rows)
    ensures b.Some? <==> TierCount(rows, t) > 0
    ensures b.Some? ==> b.value >= 0.0 && b.value * TierUrban(rows, t) == TierCustomers(rows, t) * 1000.0
  {
    TierSums(rows, t);
    if TierCount(rows, t) == 0 then None
    else Some(TierCustomers(rows, t) / TierUrban(rows, t) * 1000.0)
  }

  /**
   * `untapped_customers`: the customers the state lacks to reach the
   * benchmark rate, never negative; zero exactly when it is at or above it.
   */
  function Untapped(customers: nat, i: StateInfo, benchmark: real): (u: real)
    ensures u >= 0.0
    ensures u == 0.0 <==> benchmark * UrbanPopulation(i) <= customers as real * 1000.0
    ensures u > 0.0 ==> customers as real + u == benchmark * UrbanPopulation(i) / 1000.0
  {
    var gap := benchmark * UrbanPopulation(i) / 1000.0 - customers as real;
    if gap > 0.0 then gap else 0.0
  }

  /** If a tier's customers reach `k` per urban inhabitant in total, one of its states does. */
  lemma {:induction false} SomeRowAtLeast(rows: seq<CensusRow>, t: nat, k: real)
    requires ValidCensus(rows) && TierCount(rows, t) > 0
    requires TierCustomers(rows, t) >= k * TierUrban(rows, t)
    ensures exists i :: 0 <= i < |rows| && InTier(rows[i], t) &&
                        rows[i].customers as real >= k * UrbanPopulation(rows[i].info.value)
  {
    var rest := rows[1..];
    assert ValidCensus(rest) by {
      forall i | 0 <= i < |rest| && rest[i].info.Some? ensures ValidInfo(rest[i].info.value) {
        assert rest[i] == rows[i + 1];
      }
    }
    if InTier(rows[0], t) && rows[0].customers as real >= k * UrbanPopulation(rows[0].info.value) {
      assert InTier(rows[0], t);
    } else {
      var c0 := if InTier(rows[0], t) then rows[0].customers as real else 0.0;
      var u0 := if InTier(rows[0], t) then UrbanPopulation(rows[0].info.value) else 0.0;
      assert c0 < k * u0 || (c0 == 0.0 && u0 == 0.0);
      ShortfallCarries(c0, u0, TierCustomers(rest, t), TierUrban(rest, t), k);
      TierSums(rest, t);
      assert TierCount(rest, t) > 0;
      SomeRowAtLeast(rest, t, k);
      var j :| 0 <= j < |rest| && InTier(rest[j], t)
        && rest[j].customers as real >= k * UrbanPopulation(rest[j].info.value);
      assert rows[j + 1] == rest[j];
    }
  }

  /** What the first row falls short of the rate, the rest must make up. */
  lemma ShortfallCarries(c0: real, u0: real, cr: real, ur: real, k: real)
    requires c0 < k * u0 || (c0 == 0.0 && u0 == 0.0)
    requires c0 + cr >= k * (u0 + ur)
    ensures cr >= k * ur
  {
    assert k * (u0 + ur) == k * u0 + k * ur;
  }

  /**
   * Because the benchmark is the tier's own aggregate rate, at least one
   * state of every populated tier has no untapped customers.
   */
  lemma SomeStateMeetsItsTierBenchmark(rows: seq<CensusRow>, t: nat)
    requires ValidCensus(rows) && TierCount(rows, t) > 0
    ensures exists i :: 0 <= i < |rows| && InTier(rows[i], t) &&
                        Untapped(rows[i].customers, rows[i].info.value, TierBenchmark(rows, t).value) == 0.0
  {
    var i := SomeStateAtRate(rows, t, TierBenchmark(rows, t).value);
  }

  /** A state of the tier with no untapped customers at any rate that the tier reaches as a whole. */
  lemma SomeStateAtRate(rows: seq<CensusRow>, t: nat, b: real) returns (i: int)
    requires ValidCensus(rows) && TierCount(rows, t) > 0
    requires b * TierUrban(rows, t) == TierCustomers(rows, t) * 1000.0
    ensures 0 <= i < |rows| && InTier(rows[i], t)
    ensures Untapped(rows[i].customers, rows[i].info.value, b) == 0.0
  {
    var k := b / 1000.0;
    PerThousand(b, TierUrban(rows, t), TierCustomers(rows, t));
    SomeRowAtLeast(rows, t, k);
    i :| 0 <= i < |rows| && InTier(rows[i], t)
      && rows[i].customers as real >= k * UrbanPopulation(rows[i].info.value);
    UntappedAtRate(rows[i].customers, rows[i].info.value, b);
  }

  /** A state whose customers reach the benchmark rate has no untapped customers. */
  lemma UntappedAtRate(customers: nat, i: StateInfo, b: real)
    requires customers as real >= (b / 1000.0) * UrbanPopulation(i)
    ensures Untapped(customers, i, b) == 0.0
  {
    PerThousandBelow(b, UrbanPopulation(i), customers as real);
  }

  /** A rate per thousand, scaled back to a rate per one. */
  lemma PerThousand(b: real, u: real, c: real)
    requires b * u == c * 1000.0
    ensures (b / 1000.0) * u == c
  {
  }

  /** A count reaching a rate per one reaches the same rate per thousand. */
  lemma PerThousandBelow(b: real, u: real, c: real)
    requires c >= (b / 1000.0) * u
    ensures b * u <= c * 1000.0
  {
    assert b * u == 1000.0 * ((b / 1000.0) * u);
  }

  function GdpSum(rows: seq<CensusRow>): real
  {
    if rows == [] then 0.0
    else (if rows[0].info.Some? then rows[0].info.value.gdpPerCapita as real else 0.0) + GdpSum(rows[1..])
  }

  function GdpCount(rows: seq<CensusRow>): nat
  {
    if rows == [] then 0 else (if rows[0].info.Some? then 1 else 0) + GdpCount(rows[1..])
  }

  /** Mean GDP per capita over the states that have one (pandas `mean` skips NaN). */
  function NationalAverageGdp(rows: seq<CensusRow>): (a: Option<real>)
    requires ValidCensus(rows)
    ensures a.Some? <==> exists i :: 0 <= i < |rows| && rows[i].info.Some?
    ensures a.Some? ==> a.value > 0.0
  {
    GdpPositive(rows);
    if GdpCount(rows) == 0 then None else Some(GdpSum(rows) / GdpCount(rows) as real)
  }

  lemma {:induction false} GdpPositive(rows: seq<CensusRow>)
    requires ValidCensus(rows)
    ensures GdpCount(rows) > 0 <==> exists i :: 0 <= i < |rows| && rows[i].info.Some?
    ensures GdpCount(rows) > 0 ==> GdpSum(rows) > 0.0
    ensures GdpSum(rows) >= 0.0
  {
    if rows != [] {
      var rest := rows[1..];
      assert ValidCensus(rest) by {
        forall i | 0 <= i < |rest| && rest[i].info.Some? ensures ValidInfo(rest[i].info.value) {
          assert rest[i] == rows[i + 1];
        }
      }
      GdpPositive(rest);
      if exists i :: 0 <= i < |rest| && rest[i].info.Some? {
        var i :| 0 <= i < |rest| && rest[i].info.Some?;
        assert rows[i + 1].info.Some?;
      }
      if rows[0].info.Some? {
        assert ValidInfo(rows[0].info.value);
      } else {
        assert forall i :: 1 <= i < |rows| ==> rows[i] == rest[i - 1];
      }
    }
  }

  /** `economic_factor`: GDP per capita against the national mean, capped at 2. */
  function EconomicFactor(i: StateInfo, nationalGdp: real): (f: real)
    requires ValidInfo(i) && nationalGdp > 0.0
    ensures 0.0 < f <= 2.0
    ensures f < 2.0 ==> f * nationalGdp == i.gdpPerCapita as real
  {
    var ratio := i.gdpPerCapita as real / nationalGdp;
    if ratio < 2.0 then ratio else 2.0
  }

  /** Revenue per customer over the whole country; undefined without customers. */
  function NationalRevenuePerCustomer(rows: seq<StateRow>): (r: Option<real>)
    ensures r.Some? <==> CustomerSum(rows) > 0
  {
    if CustomerSum(rows) > 0 then Some(RevenueSum(rows) / CustomerSum(rows) as real) else None
  }

  function CustomerSum(rows: seq<StateRow>): nat
  {
    if rows == [] then 0 else rows[0].base.customers + CustomerSum(rows[1..])
  }

  function RevenueSum(rows: seq<StateRow>): real
  {
    if rows == [] then 0.0 else rows[0].base.revenue + RevenueSum(rows[1..])
  }

  lemma {:induction false} RevenueSumNonNegative(rows: seq<StateRow>)
    requires forall i :: 0 <= i < |rows| ==> rows[i].base.revenue >= 0.0
    ensures RevenueSum(rows) >= 0.0
  {
    if rows != [] {
      assert forall i :: 1 <= i < |rows| ==> rows[i] == rows[1..][i - 1];
      RevenueSumNonNegative(rows[1..]);
    }
  }

  /** The columns `calculate_untapped_potential` adds to a state. */
  datatype Potential = Potential(
    info: Option<StateInfo>,
    penetrationRate: Option<real>,
    benchmark: Option<real>,
    untapped: Option<real>,
    economicFactor: Option<real>,
    untappedRevenue: Option<real>,
    marketPotential: Option<real>)

  function CensusOf(rows: seq<StateRow>, infos: seq<Option<StateInfo>>): (c: seq<CensusRow>)
    requires |infos| == |rows|
    ensures |c| == |rows|
    ensures forall i :: 0 <= i < |rows| ==> c[i] == CensusRow(rows[i].base.customers, infos[i])
    ensures ValidInfos(infos) ==> ValidCensus(c)
  {
    seq(|rows|, i requires 0 <= i < |rows| => CensusRow(rows[i].base.customers, infos[i]))
  }

  /** The potential of state `k` before it is scaled against the largest one. */
  function RawPotential(census: seq<CensusRow>, k: int, nationalGdp: Option<real>, nationalRpc: Option<real>)
    : (p: Potential)
    requires ValidCensus(census) && 0 <= k < |census|
    requires census[k].info.Some? ==> nationalGdp.Some? && nationalGdp.value > 0.0
    ensures p.info == census[k].info && p.marketPotential.None?
    ensures p.info.None? ==> p.penetrationRate.None? && p.untapped.None? && p.untappedRevenue.None?
    ensures p.info.Some? ==> p.untapped.Some? && p.untapped.value >= 0.0
    ensures p.info.Some? ==> p.economicFactor.Some? && 0.0 < p.economicFactor.value <= 2.0
    ensures p.untappedRevenue.Some? <==> p.info.Some? && nationalRpc.Some?
    ensures p.untappedRevenue.Some? && nationalRpc.value >= 0.0 ==> p.untappedRevenue.value >= 0.0
    ensures p.info.Some? ==> p.penetrationRate.Some? && p.penetrationRate.value >= 0.0
    ensures p.info.Some? ==>
      p.penetrationRate == Some(census[k].customers as real / UrbanPopulation(p.info.value) * 1000.0)
      && p.benchmark.Some? && p.benchmark == TierBenchmark(census, p.info.value.tier)
      && p.untapped == Some(Untapped(census[k].customers, p.info.value, p.benchmark.value))
      && p.economicFactor == Some(EconomicFactor(p.info.value, nationalGdp.value))
    ensures p.untappedRevenue.Some? ==>
      p.untappedRevenue.value == p.untapped.value * p.economicFactor.value * nationalRpc.value * p.economicFactor.value
  {
    var r := census[k];
    if r.info.None? then Potential(None, None, None, None, None, None, None)
    else
      var i := r.info.value;
      assert ValidInfo(i);
      TierOfRowIsPopulated(census, k);
      ContextPotential(r.customers, i, TierBenchmark(census, i.tier).value, EconomicFactor(i, nationalGdp.value), nationalRpc)
  }

  /** The potential columns of a state with census context, its benchmark and its economic factor. */
  function ContextPotential(customers: nat, i: StateInfo, b: real, f: real, rpc: Option<real>): (p: Potential)
    requires ValidInfo(i) && 0.0 < f
    ensures p.info == Some(i) && p.marketPotential.None?
    ensures p.penetrationRate == Some(customers as real / UrbanPopulation(i) * 1000.0)
    ensures p.penetrationRate.value >= 0.0
    ensures p.benchmark == Some(b) && p.untapped == Some(Untapped(customers, i, b)) && p.economicFactor == Some(f)
    ensures p.untappedRevenue.Some? <==> rpc.Some?
    ensures p.untappedRevenue.Some? ==> p.untappedRevenue.value == p.untapped.value * f * rpc.value * f
    ensures p.untappedRevenue.Some? && rpc.value >= 0.0 ==> p.untappedRevenue.value >= 0.0
  {
    var urban := UrbanPopulation(i);
    assert urban > 0.0;
    var u := Untapped(customers, i, b);
    var revenue := if rpc.Some? then Some(u * f * rpc.value * f) else None;
    if revenue.Some? then
      ProductNonNegative(u, f, rpc.value);
      Potential(Some(i), Some(customers as real / urban * 1000.0), Some(b), Some(u), Some(f), revenue, None)
    else
      Potential(Some(i), Some(customers as real / urban * 1000.0), Some(b), Some(u), Some(f), revenue, None)
  }

  /** Untapped customers times the factor, the revenue per customer and the factor again. */
  lemma ProductNonNegative(u: real, f: real, r: real)
    requires u >= 0.0 && f > 0.0
    ensures r >= 0.0 ==> u * f * r * f >= 0.0
  {
    if r >= 0.0 {
      assert u * f >= 0.0;
      assert u * f * r >= 0.0;
    }
  }

  /**
   * A state with census context has untapped customers exactly when its
   * penetration rate lies below its tier's benchmark rate.
   */
  lemma UntappedExactlyBelowBenchmark(census: seq<CensusRow>, k: int, nationalGdp: Option<real>, nationalRpc: Option<real>)
    requires ValidCensus(census) && 0 <= k < |census| && census[k].info.Some?
    requires nationalGdp.Some? && nationalGdp.value > 0.0
    ensures var p := RawPotential(census, k, nationalGdp, nationalRpc);
      p.untapped.value > 0.0 <==> p.penetrationRate.value < p.benchmark.value
  {
    var p := RawPotential(census, k, nationalGdp, nationalRpc);
    var i := census[k].info.value;
    assert ValidInfo(i);
    RateBelow(census[k].customers as real, UrbanPopulation(i), p.benchmark.value);
  }

  /** A rate per thousand lies below `b` exactly when the count falls short of `b` per thousand. */
  lemma RateBelow(c: real, u: real, b: real)
    requires u > 0.0
    ensures c / u * 1000.0 < b <==> c * 1000.0 < b * u
  {
    var r := c / u;
    assert r * u == c;
    if r * 1000.0 < b {
      assert c * 1000.0 == (r * 1000.0) * u;
    } else {
      assert c * 1000.0 == (r * 1000.0) * u;
    }
  }

  /**
   * A value as a share of the column's largest one, or 0 for every state
   * when that largest value is not positive (`market_potential_score` and
   * the untapped part of `growth_potential_score`).
   */
  function ShareOfLargest(revenue: Option<real>, largest: Option<real>): Option<real>
  {
    if largest.Some? && largest.value > 0.0 then
      (if revenue.Some? then Some(revenue.value / largest.value) else None)
    else Some(0.0)
  }

  lemma ShareOfLargestInUnitInterval(revenue: Option<real>, largest: Option<real>)
    requires revenue.Some? && largest.Some? ==> 0.0 <= revenue.value <= largest.value
    ensures var s := ShareOfLargest(revenue, largest);
      s.Some? ==> 0.0 <= s.value <= 1.0
  {
    if largest.Some? && largest.value > 0.0 && revenue.Some? {
      ScaleWithin(revenue.value, largest.value);
    }
  }

  /** A value between 0 and a positive bound, divided by that bound, lies in [0, 1]. */
  lemma ScaleWithin(x: real, m: real)
    requires m > 0.0 && 0.0 <= x <= m
    ensures 0.0 <= x / m <= 1.0
  {
    var q := x / m;
    assert q * m == x;
    assert (q - 1.0) * m <= 0.0;
  }

  predicate ValidInfos(infos: seq<Option<StateInfo>>)
  {
    forall i :: 0 <= i < |infos| && infos[i].Some? ==> ValidInfo(infos[i].value)
  }

  /** With no negative revenue, the national revenue per customer is not negative. */
  lemma NationalRevenuePerCustomerNonNegative(rows: seq<StateRow>)
    requires forall i :: 0 <= i < |rows| ==> rows[i].base.revenue >= 0.0
    ensures var r := NationalRevenuePerCustomer(rows); r.Some? ==> r.value >= 0.0
  {
    RevenueSumNonNegative(rows);
  }

  /** The unscaled potential of every state of a census. */
  function RawPotentials(census: seq<CensusRow>, nationalGdp: Option<real>, nationalRpc: Option<real>): (raw: seq<Potential>)
    requires ValidCensus(census)
    requires (exists k :: 0 <= k < |census| && census[k].info.Some?) ==> nationalGdp.Some? && nationalGdp.value > 0.0
    ensures |raw| == |census|
    ensures forall i :: 0 <= i < |census| ==> raw[i] == RawPotential(census, i, nationalGdp, nationalRpc)
  {
    seq(|census|, k requires 0 <= k < |census| => RawPotential(census, k, nationalGdp, nationalRpc))
  }

  /** Every state's potential before scaling, against the national GDP mean and revenue per customer. */
  function RawColumn(rows: seq<StateRow>, infos: seq<Option<StateInfo>>): (raw: seq<Potential>)
    requires |infos| == |rows| && ValidInfos(infos)
    ensures |raw| == |rows|
    ensures forall i :: 0 <= i < |rows| ==> raw[i].info == infos[i]
    ensures forall i :: 0 <= i < |rows| && infos[i].Some? ==>
      raw[i].untapped.Some? && raw[i].untapped.value >= 0.0
      && raw[i].economicFactor.Some? && raw[i].economicFactor.value <= 2.0
    ensures (forall i :: 0 <= i < |rows| ==> rows[i].base.revenue >= 0.0) ==>
      forall i :: 0 <= i < |rows| && raw[i].untappedRevenue.Some? ==> raw[i].untappedRevenue.value >= 0.0
    ensures raw == RawPotentials(CensusOf(rows, infos), NationalAverageGdp(CensusOf(rows, infos)), NationalRevenuePerCustomer(rows))
  {
    var census := CensusOf(rows, infos);
    var rpc := NationalRevenuePerCustomer(rows);
    assert (forall i :: 0 <= i < |rows| ==> rows[i].base.revenue >= 0.0) ==> rpc.Some? ==> rpc.value >= 0.0 by {
      if forall i :: 0 <= i < |rows| ==> rows[i].base.revenue >= 0.0 {
        NationalRevenuePerCustomerNonNegative(rows);
      }
    }
    RawPotentials(census, NationalAverageGdp(census), rpc)
  }

  /** The `untapped_revenue_potential` column. */
  function RevenueColumn(raw: seq<Potential>): (revenues: seq<Option<real>>)
    ensures |revenues| == |raw|
    ensures forall i :: 0 <= i < |raw| ==> revenues[i] == raw[i].untappedRevenue
  {
    seq(|raw|, k requires 0 <= k < |raw| => raw[k].untappedRevenue)
  }

  /** Each state's untapped revenue as a share of the largest one; nothing else changes. */
  function ScaledColumn(raw: seq<Potential>): (col: seq<Potential>)
    ensures |col| == |raw|
    ensures forall i :: 0 <= i < |raw| ==> col[i].(marketPotential := None) == raw[i].(marketPotential := None)
    ensures forall i :: 0 <= i < |raw| ==>
      col[i].marketPotential == ShareOfLargest(raw[i].untappedRevenue, MaxPresent(RevenueColumn(raw)))
    ensures (forall i :: 0 <= i < |raw| && raw[i].untappedRevenue.Some? ==> raw[i].untappedRevenue.value >= 0.0) ==>
      forall i :: 0 <= i < |raw| && col[i].marketPotential.Some? ==> 0.0 <= col[i].marketPotential.value <= 1.0
  {
    var revenues := RevenueColumn(raw);
    var largest := MaxPresent(revenues);
    var col := seq(|raw|, k requires 0 <= k < |raw| =>
      raw[k].(marketPotential := ShareOfLargest(raw[k].untappedRevenue, largest)));
    assert (forall i :: 0 <= i < |raw| && raw[i].untappedRevenue.Some? ==> raw[i].untappedRevenue.value >= 0.0) ==>
      forall i :: 0 <= i < |raw| && col[i].marketPotential.Some? ==> 0.0 <= col[i].marketPotential.value <= 1.0
    by {
      if forall i :: 0 <= i < |raw| && raw[i].untappedRevenue.Some? ==> raw[i].untappedRevenue.value >= 0.0 {
        forall i | 0 <= i < |raw| && col[i].marketPotential.Some?
          ensures 0.0 <= col[i].marketPotential.value <= 1.0
        {
          assert revenues[i] == raw[i].untappedRevenue;
          ShareOfLargestInUnitInterval(raw[i].untappedRevenue, largest);
        }
      }
    }
    col
  }

  /** Scaling keeps the order of untapped revenues. */
  lemma ScaledColumnKeepsOrder(raw: seq<Potential>, i: int, j: int)
    requires 0 <= i < |raw| && 0 <= j < |raw|
    requires raw[i].untappedRevenue.Some? && raw[j].untappedRevenue.Some?
    requires raw[i].untappedRevenue.value <= raw[j].untappedRevenue.value
    ensures var col := ScaledColumn(raw);
      col[i].marketPotential.Some? && col[j].marketPotential.Some?
      && col[i].marketPotential.value <= col[j].marketPotential.value
  {
    var largest := MaxPresent(RevenueColumn(raw));
    assert RevenueColumn(raw)[i] == raw[i].untappedRevenue;
    if largest.value > 0.0 {
      DivideMonotone(raw[i].untappedRevenue.value, raw[j].untappedRevenue.value, largest.value);
    }
  }

  /** Once some untapped revenue is positive, the state with the largest one scores exactly 1. */
  lemma LargestRevenueScoresOne(raw: seq<Potential>, j: int)
    requires 0 <= j < |raw| && raw[j].untappedRevenue.Some? && raw[j].untappedRevenue.value > 0.0
    requires forall k :: 0 <= k < |raw| && raw[k].untappedRevenue.Some? ==>
      raw[k].untappedRevenue.value <= raw[j].untappedRevenue.value
    ensures ScaledColumn(raw)[j].marketPotential == Some(1.0)
  {
    var revenues := RevenueColumn(raw);
    var largest := MaxPresent(revenues);
    assert revenues[j] == raw[j].untappedRevenue;
    var w :| 0 <= w < |raw| && revenues[w] == largest;
    assert raw[w].untappedRevenue == largest;
    assert raw[j].untappedRevenue == largest;
    ShareOfItself(largest);
  }

  lemma ShareOfItself(r: Option<real>)
    requires r.Some? && r.value > 0.0
    ensures ShareOfLargest(r, r) == Some(1.0)
  {
    var x := r.value;
    assert x / x == 1.0;
  }

  lemma DivideMonotone(x: real, y: real, m: real)
    requires m > 0.0 && x <= y
    ensures x / m <= y / m
  {
    assert (y / m - x / m) * m == y - x;
  }

  /** The potential column of the whole summary, given each state's context. */
  function PotentialColumn(rows: seq<StateRow>, infos: seq<Option<StateInfo>>): (p: seq<Potential>)
    requires |infos| == |rows| && ValidInfos(infos)
    ensures |p| == |rows|
    ensures forall i :: 0 <= i < |rows| ==> p[i].info == infos[i]
    ensures forall i :: 0 <= i < |rows| && infos[i].Some? ==>
      p[i].untapped.Some? && p[i].untapped.value >= 0.0
      && p[i].economicFactor.Some? && p[i].economicFactor.value <= 2.0
    ensures (forall i :: 0 <= i < |rows| ==> rows[i].base.revenue >= 0.0) ==>
      forall i :: 0 <= i < |rows| && p[i].marketPotential.Some? ==> 0.0 <= p[i].marketPotential.value <= 1.0
    ensures p == ScaledColumn(RawColumn(rows, infos))
  {
    var raw := RawColumn(rows, infos);
    var col := ScaledColumn(raw);
    assert forall i :: 0 <= i < |rows| ==>
      (col[i].info == raw[i].info && col[i].untapped == raw[i].untapped && col[i].economicFactor == raw[i].economicFactor)
    by {
      forall i | 0 <= i < |rows| ensures col[i].info == raw[i].info && col[i].untapped == raw[i].untapped
        && col[i].economicFactor == raw[i].economicFactor {
        assert col[i].(marketPotential := None) == raw[i].(marketPotential := None);
      }
    }
    col
  }

  // =====================================================================
  // Seller distribution
  // =====================================================================

  /** Customers one seller serves at the industry benchmark. */
  const OptimalRatio: nat := 30

  /** `optimal_seller_count`: customers over 30, rounded up. */
  function OptimalSellerCount(customers: nat): (n: nat)
    ensures n * OptimalRatio >= customers
    ensures n > 0 ==> (n - 1) * OptimalRatio < customers
  {
    (customers + OptimalRatio - 1) / OptimalRatio
  }

  /** The columns `evaluate_seller_distribution` adds to a state. */
  datatype SellerFit = SellerFit(
    shortage: bool,
    optimalSellers: nat,
    gap: nat,
    efficiency: real,
    oversupply: nat)

  /**
   * `seller_efficiency`: the share of the optimal seller count that is
   * filled, at most 1, and 1 when no seller is needed.
   */
  function SellerEfficiency(sellers: nat, optimal: nat): (e: real)
    ensures optimal == 0 ==> e == 1.0
    ensures optimal > 0 ==> e * optimal as real == (if sellers < optimal then sellers else optimal) as real
  {
    if optimal > 0 then
      var q := sellers as real / optimal as real;
      assert q * optimal as real == sellers as real;
      if q < 1.0 then
        assert sellers as real < optimal as real by { ScaledBelow(q, optimal as real); }
        q
      else
        assert sellers as real >= optimal as real by { ScaledAtLeast(q, optimal as real); }
        1.0
    else 1.0
  }

  lemma ScaledBelow(q: real, o: real)
    requires o > 0.0 && q < 1.0
    ensures q * o < o
  {
    assert (1.0 - q) * o > 0.0;
  }

  lemma ScaledAtLeast(q: real, o: real)
    requires o > 0.0 && q >= 1.0
    ensures q * o >= o
  {
    assert (q - 1.0) * o >= 0.0;
  }

  function SellerFitOf(b: StateBase): (f: SellerFit)
    ensures f.shortage <==> FeatureEngineering.CustomerToSellerRatio(b.customers as real, b.sellers as real) > 50.0
    ensures f.optimalSellers == OptimalSellerCount(b.customers)
    ensures f.gap as int - f.oversupply as int == f.optimalSellers as int - b.sellers as int
    ensures f.efficiency == SellerEfficiency(b.sellers, f.optimalSellers)
  {
    var optimal := OptimalSellerCount(b.customers);
    var gap := if optimal > b.sellers then optimal - b.sellers else 0;
    var over := if b.sellers > optimal then b.sellers - optimal else 0;
    var efficiency := SellerEfficiency(b.sellers, optimal);
    SellerFit(
      FeatureEngineering.CustomerToSellerRatio(b.customers as real, b.sellers as real) > 50.0,
      optimal, gap, efficiency, over)
  }

  /**
   * A state never has both a seller gap and an oversupply; its efficiency
   * lies in [0, 1] and is 1 exactly when there is no gap.
   */
  lemma SellerBalance(b: StateBase)
    ensures var f := SellerFitOf(b);
      && !(f.gap > 0 && f.oversupply > 0)
      && 0.0 <= f.efficiency <= 1.0
      && (f.gap == 0 <==> f.efficiency == 1.0)
  {
    var f := SellerFitOf(b);
    if f.optimalSellers > 0 {
      QuotientBelowOne(b.sellers as real, f.optimalSellers as real);
    }
  }

  /** A non-negative quotient by a positive divisor is below 1 exactly when the dividend is below the divisor. */
  lemma QuotientBelowOne(x: real, m: real)
    requires x >= 0.0 && m > 0.0
    ensures x / m >= 0.0
    ensures x / m < 1.0 <==> x < m
  {
    var q := x / m;
    assert q * m == x;
    if q < 1.0 {
      assert (1.0 - q) * m > 0.0;
    } else {
      assert (q - 1.0) * m >= 0.0;
    }
  }

  lemma RatioAbove(c: real, s: real, r: real, k: real)
    requires s > 0.0 && r * s == c && r > k
    ensures c > k * s
  {
    assert (r - k) * s > 0.0;
  }

  /** More than 50 customers per seller always leaves a seller gap. */
  lemma ShortageMeansGap(b: StateBase)
    ensures SellerFitOf(b).shortage ==> SellerFitOf(b).gap > 0
  {
    var f := SellerFitOf(b);
    var c, s := b.customers as real, b.sellers as real;
    if f.shortage {
      var r := FeatureEngineering.CustomerToSellerRatio(c, s);
      if b.sellers > 0 {
        RatioAbove(c, s, r, 50.0);
      }
      assert c > 50.0 * s;
      assert b.customers > 50 * b.sellers;
      var n := OptimalSellerCount(b.customers);
      assert n * 30 >= b.customers;
      assert n > b.sellers;
    }
  }

  // =====================================================================
  // Expansion opportunity matrix
  // =====================================================================

  /** Largest value of each normalised column (NaN skipped). */
  datatype Maxima = Maxima(
    population: Option<real>,
    gdpPerCapita: Option<real>,
    untappedRevenue: Option<real>,
    penetrationRate: Option<real>,
    deliveryDays: Option<real>)

  /** The columns `generate_expansion_opportunity_matrix` adds to a state. */
  datatype Opportunity = Opportunity(
    marketSize: Option<real>,
    growth: Option<real>,
    operational: Option<real>,
    competitive: real,
    combined: real,
    priority: Priority)

  function Population(r: StateRow): Option<real>
  {
    if r.potential.Some? && r.potential.value.info.Some? then
      Some(r.potential.value.info.value.population as real)
    else None
  }

  function GdpPerCapita(r: StateRow): Option<real>
  {
    if r.potential.Some? && r.potential.value.info.Some? then
      Some(r.potential.value.info.value.gdpPerCapita as real)
    else None
  }

  function UrbanRate(r: StateRow): Option<real>
  {
    if r.potential.Some? && r.potential.value.info.Some? then Some(r.potential.value.info.value.urbanRate) else None
  }

  function UntappedRevenue(r: StateRow): Option<real>
  {
    if r.potential.Some? then r.potential.value.untappedRevenue else None
  }

  function PenetrationRate(r: StateRow): Option<real>
  {
    if r.potential.Some? then r.potential.value.penetrationRate else None
  }

  /** The largest present value of one column of the summary. */
  function ColumnMax(rows: seq<StateRow>, get: StateRow -> Option<real>): (m: Option<real>)
    ensures forall i :: 0 <= i < |rows| && get(rows[i]).Some? ==> m.Some? && get(rows[i]).value <= m.value
  {
    var col := seq(|rows|, i requires 0 <= i < |rows| => get(rows[i]));
    assert forall i :: 0 <= i < |rows| ==> col[i] == get(rows[i]);
    MaxPresent(col)
  }

  function MaximaOf(rows: seq<StateRow>): (m: Maxima)
    ensures forall i :: 0 <= i < |rows| && Population(rows[i]).Some? ==>
      m.population.Some? && Population(rows[i]).value <= m.population.value
    ensures forall i :: 0 <= i < |rows| && GdpPerCapita(rows[i]).Some? ==>
      m.gdpPerCapita.Some? && GdpPerCapita(rows[i]).value <= m.gdpPerCapita.value
    ensures forall i :: 0 <= i < |rows| && UntappedRevenue(rows[i]).Some? ==>
      m.untappedRevenue.Some? && UntappedRevenue(rows[i]).value <= m.untappedRevenue.value
    ensures forall i :: 0 <= i < |rows| && PenetrationRate(rows[i]).Some? ==>
      m.penetrationRate.Some? && PenetrationRate(rows[i]).value <= m.penetrationRate.value
    ensures forall i :: 0 <= i < |rows| && rows[i].base.avgDeliveryDays.Some? ==>
      m.deliveryDays.Some? && rows[i].base.avgDeliveryDays.value <= m.deliveryDays.value
  {
    Maxima(ColumnMax(rows, Population), ColumnMax(rows, GdpPerCapita), ColumnMax(rows, UntappedRevenue),
      ColumnMax(rows, PenetrationRate), ColumnMax(rows, (r: StateRow) => r.base.avgDeliveryDays))
  }

  /** `market_size_score`: population (0.6) and GDP per capita (0.4), each over its largest value. */
  function MarketSizeScore(population: Option<real>, gdp: Option<real>, m: Maxima): Option<real>
  {
    if population.Some? && gdp.Some? && m.population.Some? && m.gdpPerCapita.Some?
       && m.population.value > 0.0 && m.gdpPerCapita.value > 0.0
    then Some(population.value / m.population.value * 0.6 + gdp.value / m.gdpPerCapita.value * 0.4)
    else None
  }

  /** One minus the value's share of a positive largest value, or 0 when that is not positive. */
  function InvertedShare(x: Option<real>, largest: Option<real>): Option<real>
  {
    if largest.Some? && largest.value > 0.0 then
      (if x.Some? then Some(1.0 - x.value / largest.value) else None)
    else Some(0.0)
  }

  /** `growth_potential_score`: untapped revenue share (0.7) and inverted penetration (0.3). */
  function GrowthScore(revenue: Option<real>, penetration: Option<real>, m: Maxima): Option<real>
  {
    var untapped := ShareOfLargest(revenue, m.untappedRevenue);
    var room := InvertedShare(penetration, m.penetrationRate);
    if untapped.Some? && room.Some? then Some(untapped.value * 0.7 + room.value * 0.3) else None
  }

  /** `operational_feasibility_score`: inverted delivery days (0.6) and urban rate (0.4). */
  function OperationalScore(delivery: Option<real>, urbanRate: Option<real>, m: Maxima): Option<real>
  {
    var speed := if m.deliveryDays.Some? && m.deliveryDays.value > 0.0 then
        (if delivery.Some? then Some(1.0 - delivery.value / m.deliveryDays.value) else None)
      else Some(1.0);
    if speed.Some? && urbanRate.Some? then Some(speed.value * 0.6 + urbanRate.value * 0.4) else None
  }

  /** The four weighted metrics, in the order of the weight table. */
  function SubScores(r: StateRow, m: Maxima): (s: seq<Option<real>>)
    requires r.fit.Some?
    ensures |s| == 4
  {
    [ MarketSizeScore(Population(r), GdpPerCapita(r), m),
      GrowthScore(UntappedRevenue(r), PenetrationRate(r), m),
      OperationalScore(r.base.avgDeliveryDays, UrbanRate(r), m),
      Some(r.fit.value.efficiency) ]
  }

  /** Market size 0.35, growth 0.30, operational feasibility 0.20, competition 0.15. */
  const Weights: seq<real> := [0.35, 0.30, 0.20, 0.15]

  function WeightPrefix(k: nat): real
    requires k <= 4
  {
    if k == 0 then 0.0 else WeightPrefix(k - 1) + Weights[k - 1]
  }

  lemma WeightsSumToOne()
    ensures WeightPrefix(4) == 1.0
  {
    assert WeightPrefix(1) == 0.35;
    assert WeightPrefix(2) == 0.65;
    assert WeightPrefix(3) == 0.85;
  }

  function FillZero(x: Option<real>): real
  {
    if x.Some? then x.value else 0.0
  }

  /** The combined score after the first `k` metrics have been added (missing values count 0). */
  function PartialCombined(s: seq<Option<real>>, k: nat): real
    requires |s| == 4 && k <= 4
  {
    if k == 0 then 0.0 else PartialCombined(s, k - 1) + FillZero(s[k - 1]) * Weights[k - 1]
  }

  function CombinedScore(s: seq<Option<real>>): real
    requires |s| == 4
  {
    PartialCombined(s, 4)
  }

  predicate InUnitInterval(x: Option<real>)
  {
    x.Some? ==> 0.0 <= x.value <= 1.0
  }

  lemma {:induction false} PartialCombinedBounds(s: seq<Option<real>>, k: nat)
    requires |s| == 4 && k <= 4
    requires forall i :: 0 <= i < 4 ==> InUnitInterval(s[i])
    ensures 0.0 <= PartialCombined(s, k) <= WeightPrefix(k)
  {
    if k > 0 {
      PartialCombinedBounds(s, k - 1);
      assert InUnitInterval(s[k - 1]);
      var x := FillZero(s[k - 1]);
      assert 0.0 <= x * Weights[k - 1] <= Weights[k - 1];
    }
  }

  /** With every metric in [0, 1], the combined score is in [0, 1] because the weights sum to 1. */
  lemma CombinedScoreInUnitInterval(s: seq<Option<real>>)
    requires |s| == 4 && forall i :: 0 <= i < 4 ==> InUnitInterval(s[i])
    ensures 0.0 <= CombinedScore(s) <= 1.0
  {
    PartialCombinedBounds(s, 4);
    WeightsSumToOne();
  }

  /** Each sub-score is a convex blend of values in [0, 1] once inputs are non-negative. */
  lemma SubScoresInUnitInterval(r: StateRow, m: Maxima)
    requires r.fit.Some? && 0.0 <= r.fit.value.efficiency <= 1.0
    requires r.potential.Some? && r.potential.value.info.Some? ==> ValidInfo(r.potential.value.info.value)
    requires Population(r).Some? ==> m.population.Some? && Population(r).value <= m.population.value
    requires GdpPerCapita(r).Some? ==> m.gdpPerCapita.Some? && GdpPerCapita(r).value <= m.gdpPerCapita.value
    requires UntappedRevenue(r).Some? ==>
      m.untappedRevenue.Some? && 0.0 <= UntappedRevenue(r).value <= m.untappedRevenue.value
    requires PenetrationRate(r).Some? ==>
      m.penetrationRate.Some? && 0.0 <= PenetrationRate(r).value <= m.penetrationRate.value
    requires r.base.avgDeliveryDays.Some? ==>
      m.deliveryDays.Some? && 0.0 <= r.base.avgDeliveryDays.value <= m.deliveryDays.value
    ensures forall i :: 0 <= i < 4 ==> InUnitInterval(SubScores(r, m)[i])
  {
    var s := SubScores(r, m);
    if s[0].Some? {
      ScaleWithin(Population(r).value, m.population.value);
      ScaleWithin(GdpPerCapita(r).value, m.gdpPerCapita.value);
    }
    ShareOfLargestInUnitInterval(UntappedRevenue(r), m.untappedRevenue);
    if m.penetrationRate.Some? && m.penetrationRate.value > 0.0 && PenetrationRate(r).Some? {
      ScaleWithin(PenetrationRate(r).value, m.penetrationRate.value);
    }
    if m.deliveryDays.Some? && m.deliveryDays.value > 0.0 && r.base.avgDeliveryDays.Some? {
      ScaleWithin(r.base.avgDeliveryDays.value, m.deliveryDays.value);
    }
  }

  /** The six labels of `categorize_expansion_priority`. */
  datatype Priority =
    | OptimizationPriority
    | MaintainAndOptimize
    | HighPriority
    | MediumPriority
    | LowPriority
    | NotRecommended

  function PriorityLabel(p: Priority): string
  {
    match p
    case OptimizationPriority => "Optimization Priority"
    case MaintainAndOptimize => "Maintain & Optimize"
    case HighPriority => "High Priority"
    case MediumPriority => "Medium Priority"
    case LowPriority => "Low Priority"
    case NotRecommended => "Not Recommended"
  }

  /** Urgency order of the labels within a tier. */
  function PriorityRank(p: Priority): nat
  {
    match p
    case NotRecommended => 0
    case LowPriority => 1
    case MaintainAndOptimize => 1
    case MediumPriority => 2
    case HighPriority => 3
    case OptimizationPriority => 3
  }

  /**
   * Tier 1 is optimised, tier 2 is the expansion target, every other tier
   * (including a state without census data) is entered selectively.
   */
  function ExpansionPriority(score: real, tier: Option<nat>, population: Option<nat>): (p: Priority)
    ensures tier == Some(1) <==> p == OptimizationPriority || p == MaintainAndOptimize
    ensures p == HighPriority ==> tier == Some(2)
    ensures tier == Some(2) ==> p == HighPriority || p == MediumPriority || p == LowPriority
    ensures p == NotRecommended ==> tier != Some(1) && tier != Some(2)
  {
    if tier == Some(1) then
      (if score >= 0.6 then OptimizationPriority else MaintainAndOptimize)
    else if tier == Some(2) then
      (if score >= 0.7 then HighPriority else if score >= 0.5 then MediumPriority else LowPriority)
    else if score >= 0.6 && population.Some? && population.value > 2000000 then MediumPriority
    else if score >= 0.4 && population.Some? && population.value > 1000000 then LowPriority
    else NotRecommended
  }

  /** A higher score never lowers a state's priority within its tier. */
  lemma ExpansionPriorityMonotone(s1: real, s2: real, tier: Option<nat>, population: Option<nat>)
    requires s1 <= s2
    ensures PriorityRank(ExpansionPriority(s1, tier, population)) <= PriorityRank(ExpansionPriority(s2, tier, population))
  {
  }

  /** Smaller markets outside tiers 1 and 2 are never recommended, whatever their score. */
  lemma SmallMarketsNotRecommended(score: real, tier: Option<nat>, population: Option<nat>)
    requires tier != Some(1) && tier != Some(2)
    requires population.None? || population.value <= 1000000
    ensures ExpansionPriority(score, tier, population) == NotRecommended
  {
  }

  function TierOf(r: StateRow): Option<nat>
  {
    if r.potential.Some? && r.potential.value.info.Some? then Some(r.potential.value.info.value.tier) else None
  }

  function PopulationCount(r: StateRow): Option<nat>
  {
    if r.potential.Some? && r.potential.value.info.Some? then Some(r.potential.value.info.value.population) else None
  }

  function OpportunityOf(r: StateRow, m: Maxima, combined: real): (o: Opportunity)
    requires r.fit.Some?
  {
    var s := SubScores(r, m);
    Opportunity(s[0], s[1], s[2], r.fit.value.efficiency, combined,
      ExpansionPriority(combined, TierOf(r), PopulationCount(r)))
  }

  predicate Scored(rows: seq<StateRow>)
  {
    forall i :: 0 <= i < |rows| ==> rows[i].potential.Some? && rows[i].fit.Some?
  }

  /** The summary with its opportunity columns filled in. */
  function WithOpportunity(rows: seq<StateRow>): (r: seq<StateRow>)
    requires Scored(rows)
    ensures |r| == |rows|
    ensures forall i :: 0 <= i < |rows| ==> r[i] == rows[i].(opportunity :=
      Some(OpportunityOf(rows[i], MaximaOf(rows), CombinedScore(SubScores(rows[i], MaximaOf(rows))))))
  {
    var m := MaximaOf(rows);
    seq(|rows|, i requires 0 <= i < |rows| =>
      rows[i].(opportunity := Some(OpportunityOf(rows[i], m, CombinedScore(SubScores(rows[i], m))))))
  }

  /** The inputs of the opportunity matrix as the earlier stages produce them. */
  predicate NonNegativeInputs(r: StateRow)
  {
    && r.fit.Some? && r.fit.value == SellerFitOf(r.base)
    && (r.potential.Some? && r.potential.value.info.Some? ==> ValidInfo(r.potential.value.info.value))
    && (UntappedRevenue(r).Some? ==> UntappedRevenue(r).value >= 0.0)
    && (PenetrationRate(r).Some? ==> PenetrationRate(r).value >= 0.0)
    && (r.base.avgDeliveryDays.Some? ==> r.base.avgDeliveryDays.value >= 0.0)
  }

  /** Every state's combined opportunity score lies in [0, 1]. */
  lemma CombinedScoresInUnitInterval(rows: seq<StateRow>, i: int)
    requires Scored(rows) && 0 <= i < |rows|
    requires forall k :: 0 <= k < |rows| ==> NonNegativeInputs(rows[k])
    ensures 0.0 <= WithOpportunity(rows)[i].opportunity.value.combined <= 1.0
  {
    var m := MaximaOf(rows);
    assert NonNegativeInputs(rows[i]);
    SellerBalance(rows[i].base);
    SubScoresInUnitInterval(rows[i], m);
    CombinedScoreInUnitInterval(SubScores(rows[i], m));
  }

  // =====================================================================
  // Per-state recommendations
  // =====================================================================

  datatype Recommendation =
    | OptimizeMarketShare
    | ScalePremiumSellers(count: nat)
    | FastDeliveryInfrastructure
    | LaunchMarketEntry
    | TargetMarket(population: Option<real>, gdpPerCapita: Option<real>)
    | RecruitRegionalSellers(count: nat)
    | AggressiveAcquisition
    | SelectiveEntry
    | MarketTooSmall
    | RegionalDistributionCenter
    | LogisticsPartnerships
    | ValueOrientedProducts
    | PremiumProducts

  /** The metrics the recommendation rules read; missing ones compare false. */
  datatype RecommendationInput = RecommendationInput(
    tier: Option<nat>,
    population: Option<real>,
    gdpPerCapita: Option<real>,
    sellerGap: nat,
    avgDeliveryDays: Option<real>,
    untappedRevenue: Option<real>,
    penetrationRate: Option<real>)

  predicate Above(x: Option<real>, t: real) { x.Some? && x.value > t }

  predicate Below(x: Option<real>, t: real) { x.Some? && x.value < t }

  /** A state outside tiers 1 and 2 under a million people, with no selective-entry case. */
  predicate TooSmall(x: RecommendationInput)
  {
    x.tier != Some(1) && x.tier != Some(2)
    && !(Above(x.population, 2000000.0) && Above(x.untappedRevenue, 2000000.0))
    && Below(x.population, 1000000.0)
  }

  function TierRecommendations(x: RecommendationInput): seq<Recommendation>
  {
    if x.tier == Some(1) then
      [OptimizeMarketShare]
      + (if x.sellerGap > 50 then [ScalePremiumSellers(x.sellerGap)] else [])
      + (if Above(x.avgDeliveryDays, 10.0) then [FastDeliveryInfrastructure] else [])
    else if x.tier == Some(2) then
      (if Above(x.untappedRevenue, 5000000.0) then [LaunchMarketEntry, TargetMarket(x.population, x.gdpPerCapita)]
       else [])
      + (if x.sellerGap > 20 then [RecruitRegionalSellers(x.sellerGap)] else [])
      + (if Below(x.penetrationRate, 3.0) then [AggressiveAcquisition] else [])
    else if Above(x.population, 2000000.0) && Above(x.untappedRevenue, 2000000.0) then [SelectiveEntry]
    else []
  }

  function DeliveryRecommendations(x: RecommendationInput): seq<Recommendation>
  {
    if Above(x.avgDeliveryDays, 25.0) then [RegionalDistributionCenter]
    else if Above(x.avgDeliveryDays, 15.0) then [LogisticsPartnerships]
    else []
  }

  function EconomicRecommendations(x: RecommendationInput): seq<Recommendation>
  {
    if Below(x.gdpPerCapita, 20000.0) then [ValueOrientedProducts]
    else if Above(x.gdpPerCapita, 40000.0) then [PremiumProducts]
    else []
  }

  /** `_generate_state_recommendations`: tier rules, then delivery and economic rules. */
  function StateRecommendations(x: RecommendationInput): seq<Recommendation>
  {
    if TooSmall(x) then [MarketTooSmall]
    else TierRecommendations(x) + DeliveryRecommendations(x) + EconomicRecommendations(x)
  }

  /** A too-small market gets the single "not recommended" line and nothing else. */
  lemma TooSmallMarketGetsOnlyRejection(x: RecommendationInput)
    ensures TooSmall(x) <==> StateRecommendations(x) == [MarketTooSmall]
    ensures !TooSmall(x) ==> MarketTooSmall !in StateRecommendations(x)
  {
    if !TooSmall(x) {
      var r := StateRecommendations(x);
      assert r == TierRecommendations(x) + DeliveryRecommendations(x) + EconomicRecommendations(x);
      assert MarketTooSmall !in TierRecommendations(x);
      assert MarketTooSmall !in DeliveryRecommendations(x);
      assert MarketTooSmall !in EconomicRecommendations(x);
      assert MarketTooSmall in [MarketTooSmall];
    }
  }

  /**
   * Outside the too-small case, deliveries over 25 days call for a
   * distribution centre, and over 15 (but not 25) for logistics partners.
   */
  lemma DeliveryRecommendationRule(x: RecommendationInput)
    requires !TooSmall(x)
    ensures RegionalDistributionCenter in StateRecommendations(x) <==> Above(x.avgDeliveryDays, 25.0)
    ensures LogisticsPartnerships in StateRecommendations(x) <==>
      !Above(x.avgDeliveryDays, 25.0) && Above(x.avgDeliveryDays, 15.0)
    ensures ValueOrientedProducts in StateRecommendations(x) <==> Below(x.gdpPerCapita, 20000.0)
    ensures PremiumProducts in StateRecommendations(x) <==> Above(x.gdpPerCapita, 40000.0)
  {
    var t, d, e := TierRecommendations(x), DeliveryRecommendations(x), EconomicRecommendations(x);
    assert StateRecommendations(x) == t + d + e;
    TierRecommendationsKeepToTiers(x);
    assert ValueOrientedProducts !in d && PremiumProducts !in d;
    assert RegionalDistributionCenter !in e && LogisticsPartnerships !in e;
  }

  /** The tier rules give no delivery or economic advice. */
  lemma TierRecommendationsKeepToTiers(x: RecommendationInput)
    ensures var t := TierRecommendations(x);
      RegionalDistributionCenter !in t && LogisticsPartnerships !in t && ValueOrientedProducts !in t && PremiumProducts !in t
  {
    var t := TierRecommendations(x);
    forall a | a in t ensures !a.RegionalDistributionCenter? && !a.LogisticsPartnerships? && !a.ValueOrientedProducts? && !a.PremiumProducts? {
    }
  }

  function RecommendationInputOf(r: StateRow): RecommendationInput
    requires r.fit.Some?
  {
    RecommendationInput(TierOf(r), Population(r), GdpPerCapita(r), r.fit.value.gap,
      r.base.avgDeliveryDays, UntappedRevenue(r), PenetrationRate(r))
  }

  /** The `key_metrics` of a recommendation entry. */
  datatype KeyMetrics = KeyMetrics(
    customers: nat,
    sellers: nat,
    untappedCustomers: int,
    sellerGap: nat,
    avgDeliveryDays: Option<real>)

  /**
   * A state's key metrics. `int()` truncates the untapped customers, which
   * count 0 when the column was never added; `int()` of a missing (NaN)
   * count raises, and that failure is `None`.
   */
  function KeyMetricsOf(r: StateRow): (m: Option<KeyMetrics>)
    requires r.fit.Some?
    ensures m.None? <==> r.potential.Some? && r.potential.value.untapped.None?
    ensures m.Some? ==>
      m.value.customers == r.base.customers && m.value.sellers == r.base.sellers
      && m.value.sellerGap == r.fit.value.gap && m.value.avgDeliveryDays == r.base.avgDeliveryDays
    ensures m.Some? && r.potential.None? ==> m.value.untappedCustomers == 0
    ensures m.Some? && r.potential.Some? ==>
      m.value.untappedCustomers == Trunc(r.potential.value.untapped.value)
  {
    var untapped :=
      if r.potential.None? then Some(0)
      else if r.potential.value.untapped.None? then None
      else Some(Trunc(r.potential.value.untapped.value));
    if untapped.None? then None
    else Some(KeyMetrics(r.base.customers, r.base.sellers, untapped.value, r.fit.value.gap, r.base.avgDeliveryDays))
  }

  /**
   * After `calculate_untapped_potential`, a state's key metrics fail exactly
   * when it had no census context, and otherwise count whole untapped
   * customers, never negative.
   */
  lemma KeyMetricsFailWithoutContext(rows: seq<StateRow>, infos: seq<Option<StateInfo>>, i: int, r: StateRow)
    requires |infos| == |rows| && ValidInfos(infos) && 0 <= i < |rows|
    requires r.fit.Some? && r.potential == Some(PotentialColumn(rows, infos)[i])
    ensures KeyMetricsOf(r).None? <==> infos[i].None?
    ensures KeyMetricsOf(r).Some? ==> KeyMetricsOf(r).value.untappedCustomers >= 0
  {
    var census := CensusOf(rows, infos);
    var raw := RawColumn(rows, infos);
    assert raw[i] == RawPotential(census, i, NationalAverageGdp(census), NationalRevenuePerCustomer(rows));
    assert r.potential.value.(marketPotential := None) == raw[i].(marketPotential := None);
  }

  /** One entry of the recommendation list for a top state. */
  datatype StateRecommendation = StateRecommendation(
    state: string,
    priority: Priority,
    score: real,
    keyMetrics: KeyMetrics,
    recommendations: seq<Recommendation>)

  /** Sort key placing the highest combined score first. */
  function CombinedKey(r: StateRow): real
  {
    if r.opportunity.Some? then -r.opportunity.value.combined else 0.0
  }

  /**
   * Recommendations for the (at most) ten best-scoring states, best first;
   * `None` when one of them has key metrics that cannot be built.
   */
  function TopRecommendations(ranked: seq<StateRow>): (recs: Option<seq<StateRecommendation>>)
    requires AllScored(ranked)
    ensures recs.None? <==> exists i :: 0 <= i < |ranked| && i < 10 && KeyMetricsOf(ranked[i]).None?
    ensures recs.Some? ==> |recs.value| == if |ranked| < 10 then |ranked| else 10
    ensures recs.Some? ==> forall i :: 0 <= i < |recs.value| ==>
              recs.value[i].state == ranked[i].base.state &&
              recs.value[i].priority == ranked[i].opportunity.value.priority &&
              recs.value[i].score == ranked[i].opportunity.value.combined &&
              Some(recs.value[i].keyMetrics) == KeyMetricsOf(ranked[i]) &&
              recs.value[i].recommendations == StateRecommendations(RecommendationInputOf(ranked[i]))
  {
    var n := if |ranked| < 10 then |ranked| else 10;
    if exists i :: 0 <= i < n && KeyMetricsOf(ranked[i]).None? then None
    else
      Some(seq(n, i requires 0 <= i < n =>
        StateRecommendation(ranked[i].base.state, ranked[i].opportunity.value.priority,
          ranked[i].opportunity.value.combined, KeyMetricsOf(ranked[i]).value,
          StateRecommendations(RecommendationInputOf(ranked[i])))))
  }

  // =====================================================================
  // Report counts
  // =====================================================================

  function CountLabel(ps: seq<Priority>, name: string): nat
  {
    if ps == [] then 0 else (if PriorityLabel(ps[0]) == name then 1 else 0) + CountLabel(ps[1..], name)
  }

  /**
   * The report's "high" and "medium" expansion-priority counts as written:
   * they filter on "Critical Priority" and "High Priority".
   */
  function ReportedPriorityCounts(ps: seq<Priority>): (counts: (nat, nat))
  {
    (CountLabel(ps, "Critical Priority"), CountLabel(ps, "High Priority"))
  }

  /** No label of the priority table is "Critical Priority", so the reported high count is always 0. */
  lemma {:induction false} ReportedHighCountAlwaysZero(ps: seq<Priority>)
    ensures ReportedPriorityCounts(ps).0 == 0
  {
    if ps != [] {
      ReportedHighCountAlwaysZero(ps[1..]);
      assert PriorityLabel(ps[0]) != "Critical Priority" by {
        assert PriorityLabel(ps[0])[0] != 'C';
      }
    }
  }

  /** The counts the report evidently means: "High Priority" and "Medium Priority" states. */
  function IntendedPriorityCounts(ps: seq<Priority>): (counts: (nat, nat))
  {
    (CountLabel(ps, "High Priority"), CountLabel(ps, "Medium Priority"))
  }

  lemma {:induction false} CountLabelPositive(ps: seq<Priority>, p: Priority)
    ensures CountLabel(ps, PriorityLabel(p)) > 0 <==> p in ps
  {
    if ps != [] {
      CountLabelPositive(ps[1..], p);
      assert p in ps <==> ps[0] == p || p in ps[1..];
      assert PriorityLabel(ps[0]) == PriorityLabel(p) <==> ps[0] == p;
    }
  }

  /** The intended counts see a state exactly when one carries the label. */
  lemma IntendedCountsSeeTheirLabels(ps: seq<Priority>)
    ensures IntendedPriorityCounts(ps).0 > 0 <==> HighPriority in ps
    ensures IntendedPriorityCounts(ps).1 > 0 <==> MediumPriority in ps
  {
    CountLabelPositive(ps, HighPriority);
    CountLabelPositive(ps, MediumPriority);
  }

  /** A single tier-2 state scoring 0.8 is high priority, yet the report counts no high-priority state. */
  lemma ReportMissesHighPriorityState()
    ensures var ps := [ExpansionPriority(0.8, Some(2), Some(11597484))];
      ReportedPriorityCounts(ps).0 == 0 && IntendedPriorityCounts(ps).0 == 1
  {
    var ps := [ExpansionPriority(0.8, Some(2), Some(11597484))];
    assert ps == [HighPriority];
    ReportedHighCountAlwaysZero(ps);
    assert ps[1..] == [];
  }

  // =====================================================================
  // The analyzer
  // =====================================================================

  /** The summary with the census context of each state attached. */
  function InfoColumn(rows: seq<StateRow>): (infos: seq<Option<StateInfo>>)
    ensures |infos| == |rows| && ValidInfos(infos)
    ensures forall i :: 0 <= i < |rows| ==> infos[i] == InfoOf(rows[i].base.state)
  {
    seq(|rows|, i requires 0 <= i < |rows| => InfoOf(rows[i].base.state))
  }

  /** The summary with each state's potential columns attached; nothing else in a row changes. */
  function WithPotential(rows: seq<StateRow>, infos: seq<Option<StateInfo>>): (r: seq<StateRow>)
    requires |infos| == |rows| && ValidInfos(infos)
    ensures |r| == |rows|
    ensures forall i :: 0 <= i < |rows| ==> r[i] == rows[i].(potential := Some(PotentialColumn(rows, infos)[i]))
  {
    var p := PotentialColumn(rows, infos);
    seq(|rows|, i requires 0 <= i < |rows| => rows[i].(potential := Some(p[i])))
  }

  function WithSellerFit(rows: seq<StateRow>): (r: seq<StateRow>)
    ensures |r| == |rows|
    ensures forall i :: 0 <= i < |rows| ==> r[i] == rows[i].(fit := Some(SellerFitOf(rows[i].base)))
  {
    seq(|rows|, i requires 0 <= i < |rows| => rows[i].(fit := Some(SellerFitOf(rows[i].base))))
  }

  // =====================================================================
  // Delivery performance by geography
  // =====================================================================

  /**
   * An order as the delivery step reads it after the left merge with the
   * customers: its customer's state (missing for an unknown customer), its
   * delivery days and its on-time flag as 1 or 0, each missing when not
   * recorded.
   */
  datatype DeliveredOrder = DeliveredOrder(state: Option<string>, deliveryDays: Option<real>, onTime: Option<real>)

  datatype DeliveryColumn = DaysColumn | OnTimeColumn

  function ColumnValue(o: DeliveredOrder, c: DeliveryColumn): Option<real>
  {
    match c
    case DaysColumn => o.deliveryDays
    case OnTimeColumn => o.onTime
  }

  /** The recorded values of a column over the orders of state `s`, in order. */
  function StateValues(orders: seq<DeliveredOrder>, s: string, c: DeliveryColumn): (v: seq<real>)
    ensures |v| <= |orders|
    ensures |v| == 0 <==> forall i :: 0 <= i < |orders| ==>
      orders[i].state != Some(s) || ColumnValue(orders[i], c).None?
  {
    if orders == [] then []
    else
      assert forall i :: 1 <= i < |orders| ==> orders[i] == orders[1..][i - 1];
      (if orders[0].state == Some(s) && ColumnValue(orders[0], c).Some? then [ColumnValue(orders[0], c).value] else [])
        + StateValues(orders[1..], s, c)
  }

  /** Every value of a state's column comes from one of its orders. */
  lemma {:induction false} StateValuesFromOrders(orders: seq<DeliveredOrder>, s: string, c: DeliveryColumn, k: int)
    requires 0 <= k < |StateValues(orders, s, c)|
    ensures exists i :: 0 <= i < |orders| && orders[i].state == Some(s) && ColumnValue(orders[i], c) == Some(StateValues(orders, s, c)[k])
  {
    var head := if orders[0].state == Some(s) && ColumnValue(orders[0], c).Some? then [ColumnValue(orders[0], c).value] else [];
    if k < |head| {
      assert ColumnValue(orders[0], c) == Some(StateValues(orders, s, c)[k]);
    } else {
      StateValuesFromOrders(orders[1..], s, c, k - |head|);
      var i :| 0 <= i < |orders[1..]| && orders[1..][i].state == Some(s)
        && ColumnValue(orders[1..][i], c) == Some(StateValues(orders[1..], s, c)[k - |head|]);
      assert orders[i + 1] == orders[1..][i];
    }
  }

  /**
   * The per-state mean of a column over orders (`groupby('customer_state')`
   * then `mean`, which skips missing values).
   */
  function DetailedMean(orders: seq<DeliveredOrder>, s: string, c: DeliveryColumn): Option<real>
  {
    Mean(StateValues(orders, s, c))
  }

  /** Some order of state `s` has its delivery days recorded. */
  predicate RecordsDelivery(orders: seq<DeliveredOrder>, s: string)
  {
    exists k :: 0 <= k < |orders| && orders[k].state == Some(s) && orders[k].deliveryDays.Some?
  }

  /** `fillna`: the detailed value where it exists, the previous one otherwise. */
  function PreferDetailed(detailed: Option<real>, previous: Option<real>): Option<real>
  {
    if detailed.Some? then detailed else previous
  }

  /**
   * A state row after the left merge with the per-state delivery table: its
   * mean delivery days and on-time rate become the means over its orders,
   * the city-level means staying where the state has no recorded value.
   */
  function DeliveryRow(row: StateRow, orders: seq<DeliveredOrder>): StateRow
  {
    row.(base := row.base.(
      avgDeliveryDays := PreferDetailed(DetailedMean(orders, row.base.state, DaysColumn), row.base.avgDeliveryDays),
      onTimeRate := PreferDetailed(DetailedMean(orders, row.base.state, OnTimeColumn), row.base.onTimeRate)))
  }

  /** The summary after `analyze_delivery_performance_by_geography`. */
  function WithDeliveryDetail(rows: seq<StateRow>, orders: seq<DeliveredOrder>): (r: seq<StateRow>)
    ensures |r| == |rows|
    ensures forall i :: 0 <= i < |rows| ==> r[i] == DeliveryRow(rows[i], orders)
  {
    seq(|rows|, i requires 0 <= i < |rows| => DeliveryRow(rows[i], orders))
  }

  /**
   * A state with an order whose delivery days are recorded is scored on the
   * mean over its orders; a state without one keeps its city-level mean.
   */
  lemma {:induction false} DeliveryDaysFromOrders(row: StateRow, orders: seq<DeliveredOrder>)
    ensures var v := StateValues(orders, row.base.state, DaysColumn);
      var d := DeliveryRow(row, orders).base.avgDeliveryDays;
      && (RecordsDelivery(orders, row.base.state) ==> d.Some? && d.value * |v| as real == Sum(v))
      && (!RecordsDelivery(orders, row.base.state) ==> d == row.base.avgDeliveryDays)
  {
    RecordedDaysAreValued(orders, row.base.state);
  }

  /** A state records delivery days exactly when it has delivery days to average. */
  lemma {:induction false} RecordedDaysAreValued(orders: seq<DeliveredOrder>, s: string)
    ensures RecordsDelivery(orders, s) <==> |StateValues(orders, s, DaysColumn)| > 0
  {
    if RecordsDelivery(orders, s) {
      var k :| 0 <= k < |orders| && orders[k].state == Some(s) && orders[k].deliveryDays.Some?;
      assert ColumnValue(orders[k], DaysColumn).Some?;
    } else {
      assert forall k :: 0 <= k < |orders| ==> orders[k].state != Some(s) || ColumnValue(orders[k], DaysColumn).None?;
    }
  }

  /** The step changes nothing but the two delivery columns, and keeps a summary scoreable. */
  lemma DeliveryDetailKeepsTheRest(rows: seq<StateRow>, orders: seq<DeliveredOrder>, i: int)
    requires 0 <= i < |rows|
    ensures var r := WithDeliveryDetail(rows, orders)[i];
      && r.base.state == rows[i].base.state && r.base.customers == rows[i].base.customers
      && r.base.sellers == rows[i].base.sellers && r.base.revenue == rows[i].base.revenue
      && r.metrics == rows[i].metrics && r.potential == rows[i].potential && r.fit == rows[i].fit
    ensures Scored(rows) ==> Scored(WithDeliveryDetail(rows, orders))
  {
  }

  /**
   * With on-time flags of 0 or 1, an on-time rate that was a proportion
   * stays one.
   */
  lemma {:induction false} OnTimeRateStaysAProportion(row: StateRow, orders: seq<DeliveredOrder>)
    requires forall k :: 0 <= k < |orders| && orders[k].onTime.Some? ==> 0.0 <= orders[k].onTime.value <= 1.0
    requires row.base.onTimeRate.Some? ==> 0.0 <= row.base.onTimeRate.value <= 1.0
    ensures var t := DeliveryRow(row, orders).base.onTimeRate;
      t.Some? ==> 0.0 <= t.value <= 1.0
  {
    var v := StateValues(orders, row.base.state, OnTimeColumn);
    if |v| > 0 {
      forall k | 0 <= k < |v| ensures 0.0 <= v[k] <= 1.0 {
        StateValuesFromOrders(orders, row.base.state, OnTimeColumn, k);
      }
      MeanBetween(v, 0.0, 1.0);
    }
  }

  /** Running the step twice over the same orders changes nothing more. */
  lemma DeliveryDetailIdempotent(rows: seq<StateRow>, orders: seq<DeliveredOrder>)
    ensures WithDeliveryDetail(WithDeliveryDetail(rows, orders), orders) == WithDeliveryDetail(rows, orders)
  {
  }

  class MarketExpansionAnalyzer {
    var stateSummary: seq<StateRow>

    constructor()
      ensures stateSummary == []
    {
      stateSummary := [];
    }

    /** `analyze_market_penetration` over the per-state aggregates. */
    method AnalyzeMarketPenetration(market: seq<StateBase>)
      modifies this
      ensures stateSummary == MarketPenetration(market)
    {
      stateSummary := MarketPenetration(market);
    }

    /**
     * `calculate_untapped_potential`: attaches each state's census context
     * one state at a time, then derives the potential columns.
     */
    method CalculateUntappedPotential() returns (ok: bool)
      modifies this
      ensures ok <==> exists k :: 0 <= k < |old(stateSummary)| && InfoOf(old(stateSummary)[k].base.state).Some?
      ensures ok ==> stateSummary == WithPotential(old(stateSummary), InfoColumn(old(stateSummary)))
      ensures !ok ==> stateSummary == old(stateSummary)
    {
      var infos: seq<Option<StateInfo>> := [];
      var i := 0;
      while i < |stateSummary|
        invariant 0 <= i <= |stateSummary| && |infos| == i
        invariant forall k :: 0 <= k < i ==> infos[k] == InfoOf(stateSummary[k].base.state)
      {
        infos := infos + [InfoOf(stateSummary[i].base.state)];
        i := i + 1;
      }
      assert infos == InfoColumn(stateSummary);
      ok := exists k :: 0 <= k < |infos| && infos[k].Some?;
      if ok {
        stateSummary := WithPotential(stateSummary, infos);
      }
    }

    /** `evaluate_seller_distribution`. */
    method EvaluateSellerDistribution()
      modifies this
      ensures stateSummary == WithSellerFit(old(stateSummary))
    {
      stateSummary := WithSellerFit(stateSummary);
    }

    /**
     * `analyze_delivery_performance_by_geography`: the state summary takes
     * the per-state delivery means over orders where they exist. The
     * efficiency score and the insights it also writes feed only charts and
     * report text.
     */
    method AnalyzeDeliveryPerformanceByGeography(orders: seq<DeliveredOrder>)
      modifies this
      ensures stateSummary == WithDeliveryDetail(old(stateSummary), orders)
    {
      stateSummary := WithDeliveryDetail(stateSummary, orders);
    }

    /**
     * `generate_expansion_opportunity_matrix`: adds the weighted metrics one
     * at a time to the combined score, assigns priorities, ranks the states
     * and writes recommendations for the top ten. When a top-ten state has
     * no untapped customer count, `int()` raises after the summary was
     * scored: `recs` is then `None`.
     */
    method GenerateExpansionOpportunityMatrix() returns (ranked: seq<StateRow>, recs: Option<seq<StateRecommendation>>)
      requires Scored(stateSummary)
      modifies this
      ensures stateSummary == WithOpportunity(old(stateSummary))
      ensures ranked == RankByCombined(stateSummary)
      ensures recs == TopRecommendations(ranked)
    {
      var scored := ScoreRows(stateSummary);
      stateSummary := scored;
      ranked := RankByCombined(scored);
      recs := TopRecommendations(ranked);
    }
  }

  /** The sub-scores of every state, their accumulated combination, and the opportunity columns they make. */
  method ScoreRows(rows: seq<StateRow>) returns (scored: seq<StateRow>)
    requires Scored(rows)
    ensures scored == WithOpportunity(rows)
  {
    var n := |rows|;
    var m := MaximaOf(rows);
    var subs := seq(n, i requires 0 <= i < n => SubScores(rows[i], m));
    var combined := AccumulateCombined(subs);
    scored := seq(n, i requires 0 <= i < n =>
      rows[i].(opportunity := Some(OpportunityOf(rows[i], m, combined[i]))));
    ghost var w := WithOpportunity(rows);
    forall i | 0 <= i < n ensures scored[i] == w[i] {
    }
  }

  /**
   * The accumulating loop of the opportunity matrix: each weighted metric in
   * turn is added to every state's running score, missing values as 0.
   */
  method AccumulateCombined(subs: seq<seq<Option<real>>>) returns (combined: seq<real>)
    requires forall i :: 0 <= i < |subs| ==> |subs[i]| == 4
    ensures |combined| == |subs|
    ensures forall i :: 0 <= i < |subs| ==> combined[i] == CombinedScore(subs[i])
  {
    var n := |subs|;
    combined := seq(n, i => 0.0);
    var k := 0;
    while k < 4
      invariant 0 <= k <= 4 && |combined| == n
      invariant forall i :: 0 <= i < n ==> combined[i] == PartialCombined(subs[i], k)
    {
      combined := seq(n, i requires 0 <= i < n => combined[i] + FillZero(subs[i][k]) * Weights[k]);
      k := k + 1;
    }
  }

  /**
   * The matrix ranked by combined score, highest first; ranking keeps every
   * state and its scored columns.
   */
  function RankByCombined(rows: seq<StateRow>): (ranked: seq<StateRow>)
    ensures multiset(ranked) == multiset(rows)
    ensures forall i, j :: 0 <= i < j < |ranked| ==> CombinedKey(ranked[i]) <= CombinedKey(ranked[j])
    ensures AllScored(rows) ==> AllScored(ranked)
  {
    var ranked := SortBy(rows, CombinedKey);
    assert AllScored(rows) ==> AllScored(ranked) by {
      if AllScored(rows) {
        RankingKeepsColumns(rows);
      }
    }
    ranked
  }

  predicate AllScored(rows: seq<StateRow>)
  {
    forall i :: 0 <= i < |rows| ==> rows[i].fit.Some? && rows[i].opportunity.Some?
  }

  /** Ranking the states keeps their scored columns. */
  lemma RankingKeepsColumns(rows: seq<StateRow>)
    requires AllScored(rows)
    ensures AllScored(SortBy(rows, CombinedKey))
  {
    var ranked := SortBy(rows, CombinedKey);
    forall i | 0 <= i < |ranked| ensures ranked[i].fit.Some? && ranked[i].opportunity.Some? {
      assert ranked[i] in multiset(ranked);
      assert ranked[i] in rows;
    }
  }

}
