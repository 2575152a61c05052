// The data cleaner: imputation of missing and invalid values, duplicate
// removal, category translation, foreign-key validation and derived
// delivery and product metrics over the loaded datasets.
module DataCleaning {
  import opened Common
  import opened Stats
  import opened Tables

  // =====================================================================
  // Tables
  // =====================================================================

  /**
   * A row of `orders`; the three delivery columns and the purchase-time
   * columns (`order_year`, `order_month`, `order_day_of_week`,
   * `order_hour`) are missing until they are created.
   */
  datatype OrderRecord = OrderRecord(
    orderId: Option<string>,
    customerId: Option<string>,
    status: string,
    purchase: Option<Timestamp>,
    approved: Option<Timestamp>,
    carrier: Option<Timestamp>,
    delivered: Option<Timestamp>,
    estimated: Option<Timestamp>,
    deliveryDays: Option<int>,
    deliveryVsEstimateDays: Option<int>,
    onTimeDelivery: Option<bool>,
    timing: Option<OrderTiming>)

  /** A row of `products`; the English name and the two metrics are missing until they are created. */
  datatype Product = Product(
    productId: Option<string>,
    category: Option<string>,
    weight: Option<real>,
    length: Option<real>,
    height: Option<real>,
    width: Option<real>,
    englishCategory: Option<string>,
    volume: Option<real>,
    weightVolumeRatio: Option<real>)

  datatype Payment = Payment(orderId: Option<string>, paymentType: string, value: Option<real>, otherColumns: seq<string>)

  datatype Customer = Customer(customerId: Option<string>, otherColumns: seq<string>)

  datatype Seller = Seller(sellerId: Option<string>, otherColumns: seq<string>)

  datatype OrderItem = OrderItem(
    orderId: Option<string>,
    productId: Option<string>,
    sellerId: Option<string>,
    otherColumns: seq<string>)

  datatype Review = Review(orderId: Option<string>, otherColumns: seq<string>)

  datatype Translation = Translation(category: string, english: Option<string>)

  datatype GeoPoint = GeoPoint(zipPrefix: string, lat: real, lng: real, city: string, state: string)

  /** The loaded datasets by name; a missing entry is a dataset that was not loaded. */
  datatype Datasets = Datasets(
    customers: Option<seq<Customer>>,
    sellers: Option<seq<Seller>>,
    orders: Option<seq<OrderRecord>>,
    orderItems: Option<seq<OrderItem>>,
    orderPayments: Option<seq<Payment>>,
    orderReviews: Option<seq<Review>>,
    products: Option<seq<Product>>,
    productCategories: Option<seq<Translation>>,
    geolocation: Option<seq<GeoPoint>>)

  // =====================================================================
  // Missing order dates
  // =====================================================================

  /** A delivered order without a delivery date takes its estimated date. */
  function FillDeliveredDate(o: OrderRecord): OrderRecord
  {
    if o.status == "delivered" && o.delivered.None? && o.estimated.Some? then o.(delivered := o.estimated) else o
  }

  /** A missing carrier date is set one day before a known delivery date. */
  function FillCarrierDate(o: OrderRecord): OrderRecord
  {
    if o.carrier.None? && o.delivered.Some? then o.(carrier := Some(o.delivered.value - SecondsPerDay)) else o
  }

  /** Both order-date imputations, delivery first. */
  function CleanOrder(o: OrderRecord): OrderRecord
  {
    FillCarrierDate(FillDeliveredDate(o))
  }

  /**
   * The order-date imputation fills only the two date columns, never
   * overwrites a known date, gives every delivered order with an estimate
   * a delivery date, gives every row with a delivery date a carrier date
   * one day earlier (also for a freshly imputed delivery date), and does
   * nothing when run again.
   */
  lemma CleanOrderSpec(o: OrderRecord)
    ensures var r := CleanOrder(o);
      && r.(delivered := o.delivered, carrier := o.carrier) == o
      && (o.delivered.Some? ==> r.delivered == o.delivered)
      && (o.carrier.Some? ==> r.carrier == o.carrier)
      && (o.status == "delivered" && o.estimated.Some? ==> r.delivered.Some?)
      && (o.status != "delivered" || o.estimated.None? ==> r.delivered == o.delivered)
      && (r.delivered.Some? ==> r.carrier.Some?)
      && (o.carrier.None? && r.delivered.Some? ==> r.carrier == Some(r.delivered.value - SecondsPerDay))
      && (o.carrier.None? && r.delivered.None? ==> r.carrier.None?)
      && CleanOrder(r) == r
  {
  }

  /** A delivered order missing both dates gets its estimate as delivery date and the day before as carrier date. */
  lemma CarrierDateFollowsImputedDelivery(o: OrderRecord)
    requires o.status == "delivered" && o.delivered.None? && o.carrier.None? && o.estimated.Some?
    ensures CleanOrder(o).delivered == o.estimated
    ensures CleanOrder(o).carrier == Some(o.estimated.value - SecondsPerDay)
  {
  }

  function CleanOrders(os: seq<OrderRecord>): (r: seq<OrderRecord>)
    ensures |r| == |os| && forall i :: 0 <= i < |os| ==> r[i] == CleanOrder(os[i])
  {
    seq(|os|, i requires 0 <= i < |os| => CleanOrder(os[i]))
  }

  // =====================================================================
  // Median imputation of a numeric column
  // =====================================================================

  /** A present value that is zero or negative. */
  predicate Invalid(v: Option<real>) { v.Some? && v.value <= 0.0 }

  predicate Positive(v: Option<real>) { v.Some? && v.value > 0.0 }

  /** The present values of a column (what `median` looks at). */
  function PresentValues(c: seq<Option<real>>): (v: seq<real>)
    ensures |v| == 0 <==> forall i :: 0 <= i < |c| ==> c[i].None?
  {
    if c == [] then []
    else
      assert forall i :: 1 <= i < |c| ==> c[i] == c[1..][i - 1];
      (if c[0].Some? then [c[0].value] else []) + PresentValues(c[1..])
  }

  /** The positive values of a column. */
  function PositiveValues(c: seq<Option<real>>): (v: seq<real>)
    ensures |v| == 0 <==> forall i :: 0 <= i < |c| ==> !Positive(c[i])
    ensures forall k :: 0 <= k < |v| ==> v[k] > 0.0
  {
    if c == [] then []
    else
      assert forall i :: 1 <= i < |c| ==> c[i] == c[1..][i - 1];
      (if Positive(c[0]) then [c[0].value] else []) + PositiveValues(c[1..])
  }

  /** The present values of the rows of group `k`. */
  function GroupPresent(c: seq<Option<real>>, g: seq<string>, k: string): (v: seq<real>)
    requires |c| == |g|
    ensures |v| == 0 <==> forall i :: 0 <= i < |c| && g[i] == k ==> c[i].None?
  {
    if c == [] then []
    else
      assert forall i :: 1 <= i < |c| ==> c[i] == c[1..][i - 1] && g[i] == g[1..][i - 1];
      (if c[0].Some? && g[0] == k then [c[0].value] else []) + GroupPresent(c[1..], g[1..], k)
  }

  /** The positive values of the rows of group `k`. */
  function GroupPositive(c: seq<Option<real>>, g: seq<string>, k: string): (v: seq<real>)
    requires |c| == |g|
    ensures forall j :: 0 <= j < |v| ==> v[j] > 0.0
  {
    if c == [] then []
    else (if Positive(c[0]) && g[0] == k then [c[0].value] else []) + GroupPositive(c[1..], g[1..], k)
  }

  /** Missing values take the median of their group's present values (still missing if there are none). */
  function GroupFill(c: seq<Option<real>>, g: seq<string>): (s: seq<Option<real>>)
    requires |c| == |g|
    ensures |s| == |c|
  {
    seq(|c|, i requires 0 <= i < |c| => GroupFillAt(c, g, i))
  }

  /** Row `i` after group-median gap filling. */
  function GroupFillAt(c: seq<Option<real>>, g: seq<string>, i: int): (v: Option<real>)
    requires |c| == |g| && 0 <= i < |c|
    ensures c[i].Some? ==> v == c[i]
    ensures (forall k :: 0 <= k < |c| && g[k] == g[i] ==> c[k].None?) ==> v.None?
  {
    if c[i].None? then Median(GroupPresent(c, g, g[i])) else c[i]
  }

  /** Group-median imputation, then the overall median of the result for what is still missing. */
  function FillMissing(c: seq<Option<real>>, g: seq<string>): (r: seq<Option<real>>)
    requires |c| == |g|
    ensures |r| == |c|
  {
    var s := GroupFill(c, g);
    FillWith(s, Median(PresentValues(s)))
  }

  /** Every missing value of `s` set to `m`. */
  function FillWith(s: seq<Option<real>>, m: Option<real>): (r: seq<Option<real>>)
    ensures |r| == |s|
  {
    seq(|s|, i requires 0 <= i < |s| => if s[i].None? then m else s[i])
  }

  /** The median of the group's positive values, when there is one. */
  function GroupPositiveMedian(c: seq<Option<real>>, g: seq<string>, k: string): (m: Option<real>)
    requires |c| == |g|
    ensures m.Some? ==> m.value > 0.0
  {
    Median(GroupPositive(c, g, k))
  }

  /** Invalid values take the positive median of their group, when there is one. */
  function GroupFix(c: seq<Option<real>>, g: seq<string>): (s: seq<Option<real>>)
    requires |c| == |g|
    ensures |s| == |c|
  {
    seq(|c|, i requires 0 <= i < |c| => GroupFixAt(c, g, i))
  }

  /** Row `i` after group positive-median repair. */
  function GroupFixAt(c: seq<Option<real>>, g: seq<string>, i: int): (v: Option<real>)
    requires |c| == |g| && 0 <= i < |c|
    ensures !Invalid(c[i]) ==> v == c[i]
    ensures v == c[i] || Positive(v)
  {
    if Invalid(c[i]) && GroupPositiveMedian(c, g, g[i]).Some? then GroupPositiveMedian(c, g, g[i]) else c[i]
  }

  /**
   * Group positive-median repair, then the overall positive median for the
   * values still invalid. With `keepWithoutMedian` (products) a value stays
   * as it is when there is no positive value at all; without it (payments)
   * the missing median is written, leaving the value missing.
   */
  function FixNonPositive(c: seq<Option<real>>, g: seq<string>, keepWithoutMedian: bool): (r: seq<Option<real>>)
    requires |c| == |g|
    ensures |r| == |c|
  {
    var s := GroupFix(c, g);
    ReplaceInvalid(s, Median(PositiveValues(s)), keepWithoutMedian)
  }

  /** Every invalid value of `s` set to `m`, unless `m` is missing and `keepWithoutMedian` holds. */
  function ReplaceInvalid(s: seq<Option<real>>, m: Option<real>, keepWithoutMedian: bool): (r: seq<Option<real>>)
    ensures |r| == |s|
  {
    seq(|s|, i requires 0 <= i < |s| => if Invalid(s[i]) && (m.Some? || !keepWithoutMedian) then m else s[i])
  }

  /** A product dimension column: fill the gaps, then repair the non-positive values. */
  function CleanColumn(c: seq<Option<real>>, g: seq<string>): (r: seq<Option<real>>)
    requires |c| == |g|
    ensures |r| == |c|
  {
    FixNonPositive(FillMissing(c, g), g, true)
  }

  lemma {:induction false} GroupPresentHas(c: seq<Option<real>>, g: seq<string>, i: int)
    requires |c| == |g| && 0 <= i < |c| && c[i].Some?
    ensures |GroupPresent(c, g, g[i])| > 0
  {
  }

  /** Gap filling keeps every present value. */
  lemma FillMissingKeepsPresent(c: seq<Option<real>>, g: seq<string>)
    requires |c| == |g|
    ensures forall i :: 0 <= i < |c| && c[i].Some? ==> FillMissing(c, g)[i] == c[i]
  {
    var s := GroupFill(c, g);
    assert forall i :: 0 <= i < |c| && c[i].Some? ==> s[i] == c[i];
  }

  /** Gap filling leaves no gap in a column that has a value. */
  lemma FillMissingLeavesNoGap(c: seq<Option<real>>, g: seq<string>, i0: int)
    requires |c| == |g| && 0 <= i0 < |c| && c[i0].Some?
    ensures forall i :: 0 <= i < |c| ==> FillMissing(c, g)[i].Some?
  {
    var s := GroupFill(c, g);
    assert s[i0] == c[i0];
    assert |PresentValues(s)| > 0;
  }

  /** Gap filling changes nothing in a column without values. */
  lemma FillMissingOnEmptyColumn(c: seq<Option<real>>, g: seq<string>)
    requires |c| == |g| && forall i :: 0 <= i < |c| ==> c[i].None?
    ensures FillMissing(c, g) == c
  {
    var s := GroupFill(c, g);
    assert s == c;
    assert |PresentValues(s)| == 0;
  }

  /**
   * Gap filling keeps every present value, leaves no gap when the column
   * has any value, and changes nothing in a column without values.
   */
  lemma FillMissingSpec(c: seq<Option<real>>, g: seq<string>)
    requires |c| == |g|
    ensures var r := FillMissing(c, g);
      && (forall i :: 0 <= i < |c| && c[i].Some? ==> r[i] == c[i])
      && ((exists i :: 0 <= i < |c| && c[i].Some?) ==> forall i :: 0 <= i < |c| ==> r[i].Some?)
      && ((forall i :: 0 <= i < |c| ==> c[i].None?) ==> r == c)
  {
    FillMissingKeepsPresent(c, g);
    if i0 :| 0 <= i0 < |c| && c[i0].Some? {
      FillMissingLeavesNoGap(c, g, i0);
    } else {
      FillMissingOnEmptyColumn(c, g);
    }
  }

  /** The group step changes only invalid values, and only to positive ones. */
  lemma GroupFixSpec(c: seq<Option<real>>, g: seq<string>)
    requires |c| == |g|
    ensures var s := GroupFix(c, g);
      && (forall i :: 0 <= i < |c| && !Invalid(c[i]) ==> s[i] == c[i])
      && (forall i :: 0 <= i < |c| && Invalid(c[i]) ==> s[i] == c[i] || Positive(s[i]))
  {
  }

  /**
   * Repair changes only invalid values, only to positive ones (or, for
   * payments, to missing), and leaves no invalid value when the column
   * has a positive one.
   */
  lemma FixNonPositiveSpec(c: seq<Option<real>>, g: seq<string>, keep: bool)
    requires |c| == |g|
    ensures var r := FixNonPositive(c, g, keep);
      && (forall i :: 0 <= i < |c| && !Invalid(c[i]) ==> r[i] == c[i])
      && (forall i :: 0 <= i < |c| && Invalid(c[i]) ==> r[i] == c[i] || Positive(r[i]) || (!keep && r[i].None?))
      && ((exists i :: 0 <= i < |c| && Positive(c[i])) ==> forall i :: 0 <= i < |c| ==> !Invalid(r[i]))
  {
    var s := GroupFix(c, g);
    var m := Median(PositiveValues(s));
    var r := FixNonPositive(c, g, keep);
    GroupFixSpec(c, g);
    ReplaceInvalidSpec(s, m, keep);
    forall i | 0 <= i < |c|
      ensures !Invalid(c[i]) ==> r[i] == c[i]
      ensures Invalid(c[i]) ==> r[i] == c[i] || Positive(r[i]) || (!keep && r[i].None?)
    {
      if !Invalid(s[i]) {
        assert r[i] == s[i];
      }
    }
    if i0 :| 0 <= i0 < |c| && Positive(c[i0]) {
      assert s[i0] == c[i0];
      assert |PositiveValues(s)| > 0;
    }
  }

  /** Replacement by a positive (or missing) median changes only invalid values, and all of them when the median exists. */
  lemma ReplaceInvalidSpec(s: seq<Option<real>>, m: Option<real>, keep: bool)
    requires m.Some? ==> m.value > 0.0
    ensures var r := ReplaceInvalid(s, m, keep);
      && (forall i :: 0 <= i < |s| && !Invalid(s[i]) ==> r[i] == s[i])
      && (forall i :: 0 <= i < |s| && Invalid(s[i]) ==> r[i] == s[i] || Positive(r[i]) || (!keep && r[i].None?))
      && (m.Some? ==> forall i :: 0 <= i < |s| ==> !Invalid(r[i]))
  {
  }

  /**
   * With `keepWithoutMedian` the repair either leaves no invalid value or
   * changes nothing; without it no invalid value ever remains.
   */
  lemma FixNonPositiveAllOrNothing(c: seq<Option<real>>, g: seq<string>, keep: bool)
    requires |c| == |g|
    ensures var r := FixNonPositive(c, g, keep);
      && (!keep ==> forall i :: 0 <= i < |c| ==> !Invalid(r[i]))
      && (keep ==> (forall i :: 0 <= i < |c| ==> !Invalid(r[i])) || r == c)
  {
    var s := GroupFix(c, g);
    var overall := Median(PositiveValues(s));
    GroupFixSpec(c, g);
    if overall.None? && keep {
      assert |PositiveValues(s)| == 0;
      forall i | 0 <= i < |c| ensures s[i] == c[i] {
        assert !Positive(s[i]);
      }
      assert FixNonPositive(c, g, keep) == s;
    }
  }

  /** A column without gaps is left alone by gap filling. */
  lemma FillMissingKeepsComplete(c: seq<Option<real>>, g: seq<string>)
    requires |c| == |g| && forall i :: 0 <= i < |c| ==> c[i].Some?
    ensures FillMissing(c, g) == c
  {
    FillMissingSpec(c, g);
  }

  /** A column without invalid values is left alone by the repair. */
  lemma FixNonPositiveKeepsValid(c: seq<Option<real>>, g: seq<string>, keep: bool)
    requires |c| == |g| && forall i :: 0 <= i < |c| ==> !Invalid(c[i])
    ensures FixNonPositive(c, g, keep) == c
  {
    FixNonPositiveSpec(c, g, keep);
  }

  /** Running the repair twice is the same as running it once. */
  lemma FixNonPositiveIdempotent(c: seq<Option<real>>, g: seq<string>, keep: bool)
    requires |c| == |g|
    ensures FixNonPositive(FixNonPositive(c, g, keep), g, keep) == FixNonPositive(c, g, keep)
  {
    var r := FixNonPositive(c, g, keep);
    FixNonPositiveAllOrNothing(c, g, keep);
    if forall i :: 0 <= i < |c| ==> !Invalid(r[i]) {
      FixNonPositiveKeepsValid(r, g, keep);
    }
  }

  /**
   * Cleaning a dimension column keeps every positive value and replaces a
   * non-positive value only by a positive median.
   */
  lemma CleanColumnKeepsValues(c: seq<Option<real>>, g: seq<string>)
    requires |c| == |g|
    ensures var r := CleanColumn(c, g);
      && (forall i :: 0 <= i < |c| && Positive(c[i]) ==> r[i] == c[i])
      && (forall i :: 0 <= i < |c| && Invalid(c[i]) ==> r[i] == c[i] || Positive(r[i]))
  {
    FillMissingSpec(c, g);
    FixNonPositiveSpec(FillMissing(c, g), g, true);
  }

  /**
   * A cleaned dimension column has no gap if it had any value, and every
   * value is positive if one of them was.
   */
  lemma CleanColumnComplete(c: seq<Option<real>>, g: seq<string>)
    requires |c| == |g|
    ensures var r := CleanColumn(c, g);
      && ((exists i :: 0 <= i < |c| && c[i].Some?) ==> forall i :: 0 <= i < |c| ==> r[i].Some?)
      && ((exists i :: 0 <= i < |c| && Positive(c[i])) ==> forall i :: 0 <= i < |c| ==> Positive(r[i]))
  {
    if i0 :| 0 <= i0 < |c| && c[i0].Some? {
      CleanColumnNoGap(c, g, i0);
    }
    if i0 :| 0 <= i0 < |c| && Positive(c[i0]) {
      CleanColumnAllPositive(c, g, i0);
    }
  }

  lemma CleanColumnNoGap(c: seq<Option<real>>, g: seq<string>, i0: int)
    requires |c| == |g| && 0 <= i0 < |c| && c[i0].Some?
    ensures forall i :: 0 <= i < |c| ==> CleanColumn(c, g)[i].Some?
  {
    var x := FillMissing(c, g);
    FillMissingLeavesNoGap(c, g, i0);
    FixNonPositiveSpec(x, g, true);
  }

  lemma CleanColumnAllPositive(c: seq<Option<real>>, g: seq<string>, i0: int)
    requires |c| == |g| && 0 <= i0 < |c| && Positive(c[i0])
    ensures forall i :: 0 <= i < |c| ==> Positive(CleanColumn(c, g)[i])
  {
    var x := FillMissing(c, g);
    FillMissingLeavesNoGap(c, g, i0);
    FillMissingKeepsPresent(c, g);
    FixNonPositiveWithPositive(x, g, true);
  }

  /** Gap filling finds nothing to do in a cleaned dimension column. */
  lemma FillMissingAfterClean(c: seq<Option<real>>, g: seq<string>)
    requires |c| == |g|
    ensures FillMissing(CleanColumn(c, g), g) == CleanColumn(c, g)
  {
    var r := CleanColumn(c, g);
    if exists i :: 0 <= i < |c| && c[i].Some? {
      CleanColumnComplete(c, g);
      FillMissingKeepsComplete(r, g);
    } else {
      var x := FillMissing(c, g);
      FillMissingSpec(c, g);
      assert x == c;
      FixNonPositiveKeepsValid(x, g, true);
      assert r == c;
      FillMissingSpec(r, g);
    }
  }

  /** Cleaning a dimension column a second time changes nothing. */
  lemma CleanColumnIdempotent(c: seq<Option<real>>, g: seq<string>)
    requires |c| == |g|
    ensures CleanColumn(CleanColumn(c, g), g) == CleanColumn(c, g)
  {
    FillMissingAfterClean(c, g);
    FixNonPositiveIdempotent(FillMissing(c, g), g, true);
  }

  // =====================================================================
  // Products: categories and dimension columns
  // =====================================================================

  datatype Dimension = Weight | Length | Height | Width

  /** The four numeric product columns, in the order they are cleaned. */
  const Dimensions: seq<Dimension> := [Weight, Length, Height, Width]

  function Dim(p: Product, d: Dimension): Option<real>
  {
    match d
    case Weight => p.weight
    case Length => p.length
    case Height => p.height
    case Width => p.width
  }

  /** A product with its four dimension cells blanked: everything the dimension cleaning must not touch. */
  function Skeleton(p: Product): Product
  {
    p.(weight := None, length := None, height := None, width := None)
  }

  function WithDim(p: Product, d: Dimension, v: Option<real>): (q: Product)
    ensures Dim(q, d) == v && Skeleton(q) == Skeleton(p)
    ensures forall e :: e != d ==> Dim(q, e) == Dim(p, e)
  {
    match d
    case Weight => p.(weight := v)
    case Length => p.(length := v)
    case Height => p.(height := v)
    case Width => p.(width := v)
  }

  lemma ProductsEqual(p: Product, q: Product)
    requires Skeleton(p) == Skeleton(q) && forall d :: Dim(p, d) == Dim(q, d)
    ensures p == q
  {
    assert Dim(p, Weight) == Dim(q, Weight) && Dim(p, Length) == Dim(q, Length);
    assert Dim(p, Height) == Dim(q, Height) && Dim(p, Width) == Dim(q, Width);
  }

  /** A missing category becomes "unknown". */
  function FillCategory(p: Product): (q: Product)
    ensures forall d :: Dim(q, d) == Dim(p, d)
    ensures q.category.Some?
  {
    if p.category.None? then p.(category := Some("unknown")) else p
  }

  lemma DimensionsListed(d: Dimension)
    ensures NoDuplicates(Dimensions) && d in Dimensions
  {
    assert Dimensions[0] == Weight && Dimensions[1] == Length && Dimensions[2] == Height && Dimensions[3] == Width;
  }

  function FillCategories(ps: seq<Product>): (r: seq<Product>)
    ensures |r| == |ps| && forall i :: 0 <= i < |ps| ==> r[i] == FillCategory(ps[i])
  {
    seq(|ps|, i requires 0 <= i < |ps| => FillCategory(ps[i]))
  }

  function CategoryName(p: Product): string
  {
    if p.category.Some? then p.category.value else "unknown"
  }

  /** The grouping column of the median imputations. */
  function Categories(ps: seq<Product>): (g: seq<string>)
    ensures |g| == |ps| && forall i :: 0 <= i < |ps| ==> g[i] == CategoryName(ps[i])
  {
    seq(|ps|, i requires 0 <= i < |ps| => CategoryName(ps[i]))
  }

  function Column(ps: seq<Product>, d: Dimension): (c: seq<Option<real>>)
    ensures |c| == |ps| && forall i :: 0 <= i < |ps| ==> c[i] == Dim(ps[i], d)
  {
    seq(|ps|, i requires 0 <= i < |ps| => Dim(ps[i], d))
  }

  function WithColumn(ps: seq<Product>, d: Dimension, c: seq<Option<real>>): (r: seq<Product>)
    requires |c| == |ps|
    ensures |r| == |ps| && forall i :: 0 <= i < |ps| ==> r[i] == WithDim(ps[i], d, c[i])
  {
    seq(|ps|, i requires 0 <= i < |ps| => WithDim(ps[i], d, c[i]))
  }

  /** One dimension column cleaned, grouped by category. */
  function CleanDimension(ps: seq<Product>, d: Dimension): (r: seq<Product>)
    ensures |r| == |ps|
  {
    WithColumn(ps, d, CleanColumn(Column(ps, d), Categories(ps)))
  }

  /** The columns `ds` cleaned one after the other. */
  function CleanDimensions(ps: seq<Product>, ds: seq<Dimension>): (r: seq<Product>)
    ensures |r| == |ps|
  {
    if ds == [] then ps else CleanDimension(CleanDimensions(ps, ds[..|ds| - 1]), ds[|ds| - 1])
  }

  /** The product part of `clean_missing_values`. */
  function CleanProducts(ps: seq<Product>): (r: seq<Product>)
    ensures |r| == |ps|
  {
    CleanDimensions(FillCategories(ps), Dimensions)
  }

  predicate SameSkeletons(a: seq<Product>, b: seq<Product>)
  {
    |a| == |b| && forall i :: 0 <= i < |a| ==> Skeleton(a[i]) == Skeleton(b[i])
  }

  lemma SameSkeletonsSameCategories(a: seq<Product>, b: seq<Product>)
    requires SameSkeletons(a, b)
    ensures Categories(a) == Categories(b)
  {
    forall i | 0 <= i < |a| ensures a[i].category == b[i].category {
      assert Skeleton(a[i]).category == Skeleton(b[i]).category;
    }
  }

  predicate NoDuplicates<T(==)>(s: seq<T>)
  {
    forall i, j :: 0 <= i < j < |s| ==> s[i] != s[j]
  }

  /**
   * Cleaning the columns `ds` (each once) leaves every other column and
   * the categories as they were, and turns each column of `ds` into its
   * cleaned version, grouped by the original categories.
   */
  lemma {:induction false} CleanDimensionsColumns(ps: seq<Product>, ds: seq<Dimension>)
    requires NoDuplicates(ds)
    ensures var r := CleanDimensions(ps, ds);
      && SameSkeletons(r, ps)
      && forall d :: Column(r, d) == if d in ds then CleanColumn(Column(ps, d), Categories(ps)) else Column(ps, d)
  {
    if ds != [] {
      var init := ds[..|ds| - 1];
      var last := ds[|ds| - 1];
      assert NoDuplicates(init);
      CleanDimensionsColumns(ps, init);
      var m := CleanDimensions(ps, init);
      SameSkeletonsSameCategories(m, ps);
      var r := CleanDimension(m, last);
      assert last !in init;
      assert forall d :: d in ds <==> d in init || d == last;
      forall d ensures Column(r, d) == if d in ds then CleanColumn(Column(ps, d), Categories(ps)) else Column(ps, d) {
        if d == last {
          assert Column(m, d) == Column(ps, d);
        }
      }
    }
  }

  /** Cleaning columns that are already clean changes nothing. */
  lemma {:induction false} CleanDimensionsFixed(ps: seq<Product>, ds: seq<Dimension>)
    requires forall d :: d in ds ==> CleanColumn(Column(ps, d), Categories(ps)) == Column(ps, d)
    ensures CleanDimensions(ps, ds) == ps
  {
    if ds != [] {
      var init := ds[..|ds| - 1];
      var last := ds[|ds| - 1];
      CleanDimensionsFixed(ps, init);
      var r := CleanDimension(ps, last);
      forall i | 0 <= i < |ps| ensures r[i] == ps[i] {
        ProductsEqual(r[i], ps[i]);
      }
    }
  }

  /**
   * Product cleaning fills every category, never changes a column other
   * than the category and the four dimensions, and per dimension keeps
   * positive values, replaces a non-positive one only by a positive
   * median, leaves no gap in a column that has a value and leaves every
   * value positive in a column that has a positive one.
   */
  lemma CleanProductsSpec(ps: seq<Product>, d: Dimension, i: int)
    requires 0 <= i < |ps|
    ensures var r := CleanProducts(ps);
      && r[i].category == Some(CategoryName(ps[i]))
      && Skeleton(r[i]) == Skeleton(ps[i]).(category := Some(CategoryName(ps[i])))
      && (Positive(Dim(ps[i], d)) ==> Dim(r[i], d) == Dim(ps[i], d))
      && (Invalid(Dim(ps[i], d)) ==> Dim(r[i], d) == Dim(ps[i], d) || Positive(Dim(r[i], d)))
      && ((exists k :: 0 <= k < |ps| && Dim(ps[k], d).Some?) ==> Dim(r[i], d).Some?)
      && ((exists k :: 0 <= k < |ps| && Positive(Dim(ps[k], d))) ==> Positive(Dim(r[i], d)))
  {
    var f := FillCategories(ps);
    var c := Column(f, d);
    var g := Categories(f);
    var r := CleanProducts(ps);
    DimensionsListed(d);
    CleanDimensionsColumns(f, Dimensions);
    assert Skeleton(r[i]) == Skeleton(f[i]);
    assert Column(r, d) == CleanColumn(c, g);
    assert forall k :: 0 <= k < |ps| ==> c[k] == Dim(ps[k], d);
    assert Dim(r[i], d) == CleanColumn(c, g)[i];
    CleanColumnKeepsValues(c, g);
    CleanColumnComplete(c, g);
  }

  /** A second product cleaning changes nothing. */
  lemma CleanProductsIdempotent(ps: seq<Product>)
    ensures CleanProducts(CleanProducts(ps)) == CleanProducts(ps)
  {
    var f := FillCategories(ps);
    var r := CleanProducts(ps);
    DimensionsListed(Weight);
    CleanDimensionsColumns(f, Dimensions);
    SameSkeletonsSameCategories(r, f);
    assert FillCategories(r) == r by {
      forall i | 0 <= i < |r| ensures FillCategory(r[i]) == r[i] {
        assert Skeleton(r[i]).category == Skeleton(f[i]).category;
      }
    }
    forall d | d in Dimensions ensures CleanColumn(Column(r, d), Categories(r)) == Column(r, d) {
      CleanColumnIdempotent(Column(f, d), Categories(f));
    }
    CleanDimensionsFixed(r, Dimensions);
  }

  // =====================================================================
  // Payments
  // =====================================================================

  function PaymentValues(ps: seq<Payment>): (c: seq<Option<real>>)
    ensures |c| == |ps| && forall i :: 0 <= i < |ps| ==> c[i] == ps[i].value
  {
    seq(|ps|, i requires 0 <= i < |ps| => ps[i].value)
  }

  function PaymentTypes(ps: seq<Payment>): (g: seq<string>)
    ensures |g| == |ps| && forall i :: 0 <= i < |ps| ==> g[i] == ps[i].paymentType
  {
    seq(|ps|, i requires 0 <= i < |ps| => ps[i].paymentType)
  }

  /** Non-positive payment values take the positive median of their payment type, else the overall one. */
  function FixPayments(ps: seq<Payment>): (r: seq<Payment>)
    ensures |r| == |ps|
  {
    var v := FixNonPositive(PaymentValues(ps), PaymentTypes(ps), false);
    seq(|ps|, i requires 0 <= i < |ps| => ps[i].(value := v[i]))
  }

  /** With a positive value in the column, every present value ends up positive. */
  lemma FixNonPositiveWithPositive(c: seq<Option<real>>, g: seq<string>, keep: bool)
    requires |c| == |g| && exists i :: 0 <= i < |c| && Positive(c[i])
    ensures forall i :: 0 <= i < |c| && c[i].Some? ==> Positive(FixNonPositive(c, g, keep)[i])
  {
    var s := GroupFix(c, g);
    GroupFixSpec(c, g);
    var i0 :| 0 <= i0 < |c| && Positive(c[i0]);
    assert s[i0] == c[i0];
    assert |PositiveValues(s)| > 0;
  }

  /**
   * Payment repair touches only the value column and only non-positive
   * values; afterwards no value is zero or negative; when some payment is
   * positive every payment that had a value is positive; and a second
   * repair changes nothing.
   */
  lemma FixPaymentsSpec(ps: seq<Payment>)
    ensures var r := FixPayments(ps);
      && (forall i :: 0 <= i < |ps| ==> r[i].(value := ps[i].value) == ps[i])
      && (forall i :: 0 <= i < |ps| && !Invalid(ps[i].value) ==> r[i] == ps[i])
      && (forall i :: 0 <= i < |ps| ==> !Invalid(r[i].value))
      && ((exists i :: 0 <= i < |ps| && Positive(ps[i].value)) ==>
            forall i :: 0 <= i < |ps| && ps[i].value.Some? ==> Positive(r[i].value))
      && FixPayments(r) == r
  {
    var c := PaymentValues(ps);
    var g := PaymentTypes(ps);
    var r := FixPayments(ps);
    FixPaymentsColumns(ps);
    FixNonPositiveSpec(c, g, false);
    FixNonPositiveAllOrNothing(c, g, false);
    if i0 :| 0 <= i0 < |ps| && Positive(ps[i0].value) {
      assert Positive(c[i0]);
      FixNonPositiveWithPositive(c, g, false);
    }
    FixNonPositiveKeepsValid(PaymentValues(r), g, false);
    FixPaymentsColumns(r);
  }

  /** Payment repair rewrites the value column with the column repair and keeps the payment types. */
  lemma FixPaymentsColumns(ps: seq<Payment>)
    ensures var r := FixPayments(ps);
      && PaymentTypes(r) == PaymentTypes(ps)
      && PaymentValues(r) == FixNonPositive(PaymentValues(ps), PaymentTypes(ps), false)
      && forall i :: 0 <= i < |ps| ==> r[i] == ps[i].(value := PaymentValues(r)[i])
  {
  }

  // =====================================================================
  // Column loops
  // =====================================================================

  /** Group-median gap filling, row by row. */
  method GroupFillColumn(c: seq<Option<real>>, g: seq<string>) returns (s: seq<Option<real>>)
    requires |c| == |g|
    ensures s == GroupFill(c, g)
  {
    s := c;
    var i := 0;
    while i < |c|
      invariant 0 <= i <= |c| && |s| == |c|
      invariant forall k :: 0 <= k < i ==> s[k] == GroupFill(c, g)[k]
      invariant forall k :: i <= k < |c| ==> s[k] == c[k]
    {
      if c[i].None? {
        s := s[i := GroupFillAt(c, g, i)];
      }
      i := i + 1;
    }
  }

  /** Writes `m` into every gap. */
  method FillWithColumn(s: seq<Option<real>>, m: Option<real>) returns (r: seq<Option<real>>)
    ensures r == FillWith(s, m)
  {
    r := s;
    var i := 0;
    while i < |s|
      invariant 0 <= i <= |s| && |r| == |s|
      invariant forall k :: 0 <= k < i ==> r[k] == FillWith(s, m)[k]
      invariant forall k :: i <= k < |s| ==> r[k] == s[k]
    {
      if s[i].None? {
        r := r[i := m];
      }
      i := i + 1;
    }
  }

  /**
   * Gap filling as the cleaner runs it: one pass writing group medians,
   * one pass writing the overall median of the result.
   */
  method FillMissingColumn(c: seq<Option<real>>, g: seq<string>) returns (r: seq<Option<real>>)
    requires |c| == |g|
    ensures r == FillMissing(c, g)
  {
    var s := GroupFillColumn(c, g);
    r := FillWithColumn(s, Median(PresentValues(s)));
  }

  /** Group positive-median repair, row by row. */
  method GroupFixColumn(c: seq<Option<real>>, g: seq<string>) returns (s: seq<Option<real>>)
    requires |c| == |g|
    ensures s == GroupFix(c, g)
  {
    s := c;
    var i := 0;
    while i < |c|
      invariant 0 <= i <= |c| && |s| == |c|
      invariant forall k :: 0 <= k < i ==> s[k] == GroupFix(c, g)[k]
      invariant forall k :: i <= k < |c| ==> s[k] == c[k]
    {
      if Invalid(c[i]) {
        s := s[i := GroupFixAt(c, g, i)];
      }
      i := i + 1;
    }
  }

  /** Writes `m` over every invalid value, unless it is missing and `keepWithoutMedian` holds. */
  method ReplaceInvalidColumn(s: seq<Option<real>>, m: Option<real>, keepWithoutMedian: bool)
    returns (r: seq<Option<real>>)
    ensures r == ReplaceInvalid(s, m, keepWithoutMedian)
  {
    r := s;
    if m.Some? || !keepWithoutMedian {
      var i := 0;
      while i < |s|
        invariant 0 <= i <= |s| && |r| == |s|
        invariant forall k :: 0 <= k < i ==> r[k] == ReplaceInvalid(s, m, keepWithoutMedian)[k]
        invariant forall k :: i <= k < |s| ==> r[k] == s[k]
      {
        if Invalid(s[i]) {
          r := r[i := m];
        }
        i := i + 1;
      }
    }
  }

  /** Non-positive repair as the cleaner runs it: group medians first, then the overall positive median. */
  method FixNonPositiveColumn(c: seq<Option<real>>, g: seq<string>, keepWithoutMedian: bool)
    returns (r: seq<Option<real>>)
    requires |c| == |g|
    ensures r == FixNonPositive(c, g, keepWithoutMedian)
  {
    var s := GroupFixColumn(c, g);
    r := ReplaceInvalidColumn(s, Median(PositiveValues(s)), keepWithoutMedian);
  }

  /** The products table after `clean_missing_values`, one dimension column after the other. */
  method CleanProductTable(ps: seq<Product>) returns (r: seq<Product>)
    ensures r == CleanProducts(ps)
  {
    r := FillCategories(ps);
    var k := 0;
    while k < |Dimensions|
      invariant 0 <= k <= |Dimensions|
      invariant r == CleanDimensions(FillCategories(ps), Dimensions[..k])
    {
      var d := Dimensions[k];
      var g := Categories(r);
      var filled := FillMissingColumn(Column(r, d), g);
      var fixed := FixNonPositiveColumn(filled, g, true);
      assert fixed == CleanColumn(Column(r, d), g);
      assert Dimensions[..k + 1][..k] == Dimensions[..k] && Dimensions[..k + 1][k] == d;
      r := WithColumn(r, d, fixed);
      k := k + 1;
    }
    assert Dimensions[..k] == Dimensions;
  }

  /** The products table after `clean_missing_values`, when it was loaded. */
  method CleanLoadedProducts(t: Option<seq<Product>>) returns (r: Option<seq<Product>>)
    ensures r == if t.Some? then Some(CleanProducts(t.value)) else None
  {
    r := t;
    if t.Some? {
      var ps := CleanProductTable(t.value);
      r := Some(ps);
    }
  }

  /** The payments table after `clean_missing_values`, when it was loaded. */
  method FixLoadedPayments(t: Option<seq<Payment>>) returns (r: Option<seq<Payment>>)
    ensures r == if t.Some? then Some(FixPayments(t.value)) else None
  {
    r := t;
    if t.Some? {
      var ps := FixPaymentTable(t.value);
      r := Some(ps);
    }
  }

  /** The payments table after `clean_missing_values`. */
  method FixPaymentTable(ps: seq<Payment>) returns (r: seq<Payment>)
    ensures r == FixPayments(ps)
  {
    var v := FixNonPositiveColumn(PaymentValues(ps), PaymentTypes(ps), false);
    r := seq(|ps|, i requires 0 <= i < |ps| => ps[i].(value := v[i]));
  }

  // =====================================================================
  // Category translations (left merge on the Portuguese name)
  // =====================================================================

  function TranslationCategory(t: Translation): string { t.category }

  /** The translations of one Portuguese name, in table order. */
  function MatchesOf(name: string, ts: seq<Translation>): (m: seq<Translation>)
    ensures forall t :: t in m <==> t in ts && t.category == name
  {
    if ts == [] then []
    else (if ts[0].category == name then [ts[0]] else []) + MatchesOf(name, ts[1..])
  }

  lemma {:induction false} NoMatches(name: string, ts: seq<Translation>)
    requires forall t :: t in ts ==> t.category != name
    ensures MatchesOf(name, ts) == []
  {
    if ts != [] {
      NoMatches(name, ts[1..]);
    }
  }

  /** A translation table with one row per Portuguese name yields at most one match. */
  lemma {:induction false} MatchesUnique(name: string, ts: seq<Translation>)
    requires DistinctKeys(ts, TranslationCategory)
    ensures |MatchesOf(name, ts)| <= 1
  {
    if ts != [] {
      forall i, j | 0 <= i < j < |ts[1..]| ensures ts[1..][i].category != ts[1..][j].category {
        assert ts[1..][i] == ts[i + 1] && ts[1..][j] == ts[j + 1];
      }
      if ts[0].category == name {
        forall t | t in ts[1..] ensures t.category != name {
          var k :| 0 <= k < |ts[1..]| && ts[1..][k] == t;
          assert ts[k + 1] == t;
        }
        NoMatches(name, ts[1..]);
      } else {
        MatchesUnique(name, ts[1..]);
      }
    }
  }

  /** The English name a merged row ends with: the translation, or the Portuguese name when there is none. */
  function EnglishName(p: Product, t: Translation): Option<string>
  {
    if t.english.Some? then t.english else p.category
  }

  /** The rows a product becomes in the left merge: one per translation, or itself once. */
  function MergeRow(p: Product, ts: seq<Translation>): (rows: seq<Product>)
    ensures |rows| >= 1
    ensures forall r :: r in rows ==> r == p.(englishCategory := r.englishCategory)
    ensures forall r :: r in rows ==> (p.category.Some? ==> r.englishCategory.Some?)
  {
    var m := if p.category.Some? then MatchesOf(p.category.value, ts) else [];
    if m == [] then [p.(englishCategory := p.category)]
    else seq(|m|, k requires 0 <= k < |m| => p.(englishCategory := EnglishName(p, m[k])))
  }

  /** `merge_product_categories`: left merge, then Portuguese names where no English one was found. */
  function MergeCategories(ps: seq<Product>, ts: seq<Translation>): (r: seq<Product>)
    ensures |r| >= |ps|
  {
    if ps == [] then [] else MergeRow(ps[0], ts) + MergeCategories(ps[1..], ts)
  }

  /** Every merged row is a product with only its English name set, and categorised rows get one. */
  lemma {:induction false} MergeCategoriesSound(ps: seq<Product>, ts: seq<Translation>)
    ensures var r := MergeCategories(ps, ts);
      && (forall x :: x in r ==> exists p: Product :: p in ps && x == p.(englishCategory := x.englishCategory))
      && (forall x :: x in r && x.category.Some? ==> x.englishCategory.Some?)
  {
    if ps != [] {
      var head := MergeRow(ps[0], ts);
      var rest := MergeCategories(ps[1..], ts);
      MergeCategoriesSound(ps[1..], ts);
      forall x: Product | x in head + rest
        ensures exists p: Product :: p in ps && x == p.(englishCategory := x.englishCategory)
        ensures x.category.Some? ==> x.englishCategory.Some?
      {
        if x in head {
          assert ps[0] in ps;
        } else {
          var p :| p in ps[1..] && x == p.(englishCategory := x.englishCategory);
          assert p in ps;
        }
      }
    }
  }

  /** The English name of a product when each Portuguese name has at most one translation. */
  function EnglishOf(p: Product, ts: seq<Translation>): Option<string>
  {
    var m := if p.category.Some? then MatchesOf(p.category.value, ts) else [];
    if m == [] then p.category else EnglishName(p, m[0])
  }

  /**
   * With one translation per Portuguese name the merge keeps the products
   * table row for row and only adds the English name: the translation when
   * there is one with a name, otherwise the Portuguese name.
   */
  lemma {:induction false} MergeWithUniqueTranslations(ps: seq<Product>, ts: seq<Translation>)
    requires DistinctKeys(ts, TranslationCategory)
    ensures var r := MergeCategories(ps, ts);
      && |r| == |ps|
      && forall i :: 0 <= i < |ps| ==> r[i] == ps[i].(englishCategory := EnglishOf(ps[i], ts))
  {
    if ps != [] {
      var rest := MergeCategories(ps[1..], ts);
      MergeWithUniqueTranslations(ps[1..], ts);
      MergeRowUnique(ps[0], ts);
      var r := MergeCategories(ps, ts);
      assert r == MergeRow(ps[0], ts) + rest;
      forall i | 0 < i < |ps| ensures r[i] == ps[i].(englishCategory := EnglishOf(ps[i], ts)) {
        assert r[i] == rest[i - 1];
        assert ps[i] == ps[1..][i - 1];
      }
    }
  }

  /** With one translation per Portuguese name a product stays a single row. */
  lemma MergeRowUnique(p: Product, ts: seq<Translation>)
    requires DistinctKeys(ts, TranslationCategory)
    ensures MergeRow(p, ts) == [p.(englishCategory := EnglishOf(p, ts))]
  {
    if p.category.Some? {
      MatchesUnique(p.category.value, ts);
    }
  }

  /** A product whose name has no translation keeps its Portuguese name as English name. */
  lemma UntranslatedKeepsPortugueseName(p: Product, ts: seq<Translation>)
    requires p.category.Some? ==> forall t :: t in ts ==> t.category != p.category.value
    ensures MergeRow(p, ts) == [p.(englishCategory := p.category)]
  {
    if p.category.Some? {
      NoMatches(p.category.value, ts);
    }

  }

  // =====================================================================
  // Derived features
  // =====================================================================

  /**
   * Delivery days for orders with delivery and purchase dates; days
   * against the estimate and the on-time flag for those that also have an
   * estimate. Other rows keep what they had.
   */
  function WithDeliveryMetrics(o: OrderRecord): OrderRecord
  {
    var delivered := o.delivered.Some? && o.purchase.Some?;
    var withEstimate := delivered && o.estimated.Some?;
    var vs := if withEstimate then Some(Days(o.delivered.value - o.estimated.value)) else o.deliveryVsEstimateDays;
    o.(deliveryDays := if delivered then DaysBetween(o.delivered, o.purchase) else o.deliveryDays,
       deliveryVsEstimateDays := vs,
       onTimeDelivery := if withEstimate then Some(vs.value <= 0) else o.onTimeDelivery)
  }

  /**
   * The delivery metrics touch only the three derived columns; delivery
   * days count whole days from purchase; an order is on time exactly when
   * it arrived before the end of its estimated day; and recomputing them
   * changes nothing.
   */
  lemma DeliveryMetricsSpec(o: OrderRecord)
    ensures var r := WithDeliveryMetrics(o);
      && r.(deliveryDays := o.deliveryDays, deliveryVsEstimateDays := o.deliveryVsEstimateDays,
            onTimeDelivery := o.onTimeDelivery) == o
      && (o.delivered.Some? && o.purchase.Some? ==>
            r.deliveryDays.Some? &&
            r.deliveryDays.value * SecondsPerDay <= o.delivered.value - o.purchase.value
              < (r.deliveryDays.value + 1) * SecondsPerDay)
      && (o.delivered.Some? && o.purchase.Some? && o.estimated.Some? ==>
            (r.onTimeDelivery == Some(true) <==> o.delivered.value < o.estimated.value + SecondsPerDay))
      && (o.delivered.None? || o.purchase.None? ==> r == o)
      && WithDeliveryMetrics(r) == r
  {
  }

  /** The purchase-time columns, read off the purchase timestamp (all NaN without one). */
  function WithTimingColumns(o: OrderRecord): OrderRecord
  {
    o.(timing := OrderTimingOf(o.purchase))
  }

  /**
   * The timing columns touch nothing else; they hold the purchase's year,
   * month, weekday and hour; recomputing them changes nothing; and they do
   * not depend on whether the delivery metrics were computed first.
   */
  lemma TimingColumnsSpec(o: OrderRecord)
    ensures var r := WithTimingColumns(o);
      && r.(timing := o.timing) == o
      && (r.timing.Some? <==> o.purchase.Some?)
      && (o.purchase.Some? ==>
            r.timing.value.year == DateOf(o.purchase.value).year
            && r.timing.value.month == DateOf(o.purchase.value).month
            && r.timing.value.dayOfWeek == DayOfWeekOf(o.purchase.value)
            && r.timing.value.hour == HourOf(o.purchase.value))
      && WithTimingColumns(r) == r
      && WithDeliveryMetrics(r) == WithTimingColumns(WithDeliveryMetrics(o))
  {
  }

  /** Volume of a product with all three measures; missing otherwise. */
  function Volume(p: Product): Option<real>
  {
    if p.length.Some? && p.height.Some? && p.width.Some? then Some(p.length.value * p.height.value * p.width.value)
    else None
  }

  /** Product volume for every row; weight per volume where both are positive, other rows keep theirs. */
  function WithProductMetrics(p: Product): Product
  {
    var v := Volume(p);
    var valid := v.Some? && v.value > 0.0 && Positive(p.weight);
    p.(volume := v, weightVolumeRatio := if valid then Some(p.weight.value / v.value) else p.weightVolumeRatio)
  }

  /**
   * The product metrics touch only the two derived columns; the density of
   * a product with positive weight and volume is positive and times the
   * volume gives back the weight; recomputing changes nothing.
   */
  lemma ProductMetricsSpec(p: Product)
    ensures var r := WithProductMetrics(p);
      && r.(volume := p.volume, weightVolumeRatio := p.weightVolumeRatio) == p
      && (r.volume.Some? <==> p.length.Some? && p.height.Some? && p.width.Some?)
      && (r.volume.Some? && r.volume.value > 0.0 && Positive(p.weight) ==>
            r.weightVolumeRatio.Some? && r.weightVolumeRatio.value > 0.0
            && r.weightVolumeRatio.value * r.volume.value == p.weight.value)
  {
    var r := WithProductMetrics(p);
    if r.volume.Some? && r.volume.value > 0.0 && Positive(p.weight) {
      var q := p.weight.value / r.volume.value;
      assert q * r.volume.value == p.weight.value;
    }
  }

  /** Recomputing the product metrics changes nothing. */
  lemma ProductMetricsIdempotent(p: Product)
    ensures WithProductMetrics(WithProductMetrics(p)) == WithProductMetrics(p)
  {
    var r := WithProductMetrics(p);
    assert Volume(r) == Volume(p);
    assert r.weight == p.weight;
  }

  // =====================================================================
  // Whole-dataset steps
  // =====================================================================

  /** `clean_missing_values`: orders, products and payments, each only if loaded. */
  function MissingValuesCleaned(d: Datasets): Datasets
  {
    d.(orders := if d.orders.Some? then Some(CleanOrders(d.orders.value)) else None,
       products := if d.products.Some? then Some(CleanProducts(d.products.value)) else None,
       orderPayments := if d.orderPayments.Some? then Some(FixPayments(d.orderPayments.value)) else None)
  }

  /** Running `clean_missing_values` a second time imputes nothing. */
  lemma MissingValuesCleanedIdempotent(d: Datasets)
    ensures MissingValuesCleaned(MissingValuesCleaned(d)) == MissingValuesCleaned(d)
  {
    if d.orders.Some? {
      var os := CleanOrders(d.orders.value);
      forall i | 0 <= i < |os| ensures CleanOrder(os[i]) == os[i] {
        CleanOrderSpec(d.orders.value[i]);
      }
      assert CleanOrders(os) == os;
    }
    if d.products.Some? {
      CleanProductsIdempotent(d.products.value);
    }
    if d.orderPayments.Some? {
      FixPaymentsSpec(d.orderPayments.value);
    }
  }

  function ZipPrefix(g: GeoPoint): string { g.zipPrefix }

  /** Geolocation: exact duplicates dropped, then one row per zip prefix, the first. */
  function DedupGeolocation(geo: seq<GeoPoint>): seq<GeoPoint>
  {
    DedupBy(Dedup(geo), ZipPrefix)
  }

  /**
   * Geolocation deduplication keeps the rows in their order, keeps exactly
   * one row per zip prefix and loses no zip prefix.
   */
  lemma GeolocationOnePerZip(geo: seq<GeoPoint>)
    ensures var r := DedupGeolocation(geo);
      && Subseq(r, geo)
      && DistinctKeys(r, ZipPrefix)
      && Keys(r, ZipPrefix) == Keys(geo, ZipPrefix)
      && (forall x :: x in r ==> x in geo)
  {
    var e := Dedup(geo);
    var r := DedupBy(e, ZipPrefix);
    SubseqTransitive(r, e, geo);
    SubseqElements(r, geo);
    assert Keys(e, ZipPrefix) == Keys(geo, ZipPrefix) by {
      assert forall x :: x in e <==> x in geo;
    }
  }

  function DedupOption<T(==,!new)>(t: Option<seq<T>>): Option<seq<T>>
  {
    if t.Some? then Some(Dedup(t.value)) else None
  }

  /** `remove_duplicates`: geolocation by zip prefix, every other table on whole rows. */
  function DuplicatesRemoved(d: Datasets): Datasets
  {
    Datasets(
      DedupOption(d.customers), DedupOption(d.sellers), DedupOption(d.orders), DedupOption(d.orderItems),
      DedupOption(d.orderPayments), DedupOption(d.orderReviews), DedupOption(d.products),
      DedupOption(d.productCategories),
      if d.geolocation.Some? then Some(DedupGeolocation(d.geolocation.value)) else None)
  }

  /** `merge_product_categories`: only when both products and translations are loaded. */
  function CategoriesMerged(d: Datasets): Datasets
  {
    if d.products.Some? && d.productCategories.Some? then
      d.(products := Some(MergeCategories(d.products.value, d.productCategories.value)))
    else d
  }

  function MapOrders(os: seq<OrderRecord>): (r: seq<OrderRecord>)
    ensures |r| == |os| && forall i :: 0 <= i < |os| ==> r[i] == WithTimingColumns(WithDeliveryMetrics(os[i]))
  {
    seq(|os|, i requires 0 <= i < |os| => WithTimingColumns(WithDeliveryMetrics(os[i])))
  }

  function MapProducts(ps: seq<Product>): (r: seq<Product>)
    ensures |r| == |ps| && forall i :: 0 <= i < |ps| ==> r[i] == WithProductMetrics(ps[i])
  {
    seq(|ps|, i requires 0 <= i < |ps| => WithProductMetrics(ps[i]))
  }

  /** `create_derived_features`. */
  function DerivedFeaturesAdded(d: Datasets): Datasets
  {
    d.(orders := if d.orders.Some? then Some(MapOrders(d.orders.value)) else None,
       products := if d.products.Some? then Some(MapProducts(d.products.value)) else None)
  }

  // =====================================================================
  // Foreign keys
  // =====================================================================

  /** The values of a key column of a loaded table; missing when the table or the column is absent. */
  function KeyColumn(d: Datasets, table: string, column: string): Option<seq<Option<string>>>
  {
    if table == "customers" && column == "customer_id" && d.customers.Some? then
      Some(seq(|d.customers.value|, i requires 0 <= i < |d.customers.value| => d.customers.value[i].customerId))
    else if table == "sellers" && column == "seller_id" && d.sellers.Some? then
      Some(seq(|d.sellers.value|, i requires 0 <= i < |d.sellers.value| => d.sellers.value[i].sellerId))
    else if table == "orders" && column == "order_id" && d.orders.Some? then
      Some(seq(|d.orders.value|, i requires 0 <= i < |d.orders.value| => d.orders.value[i].orderId))
    else if table == "orders" && column == "customer_id" && d.orders.Some? then
      Some(seq(|d.orders.value|, i requires 0 <= i < |d.orders.value| => d.orders.value[i].customerId))
    else if table == "order_items" && column == "order_id" && d.orderItems.Some? then
      Some(seq(|d.orderItems.value|, i requires 0 <= i < |d.orderItems.value| => d.orderItems.value[i].orderId))
    else if table == "order_items" && column == "product_id" && d.orderItems.Some? then
      Some(seq(|d.orderItems.value|, i requires 0 <= i < |d.orderItems.value| => d.orderItems.value[i].productId))
    else if table == "order_items" && column == "seller_id" && d.orderItems.Some? then
      Some(seq(|d.orderItems.value|, i requires 0 <= i < |d.orderItems.value| => d.orderItems.value[i].sellerId))
    else if table == "order_payments" && column == "order_id" && d.orderPayments.Some? then
      Some(seq(|d.orderPayments.value|, i requires 0 <= i < |d.orderPayments.value| => d.orderPayments.value[i].orderId))
    else if table == "order_reviews" && column == "order_id" && d.orderReviews.Some? then
      Some(seq(|d.orderReviews.value|, i requires 0 <= i < |d.orderReviews.value| => d.orderReviews.value[i].orderId))
    else if table == "products" && column == "product_id" && d.products.Some? then
      Some(seq(|d.products.value|, i requires 0 <= i < |d.products.value| => d.products.value[i].productId))
    else None
  }

  predicate Checkable(d: Datasets, r: Relationship)
  {
    KeyColumn(d, r.parentTable, r.parentKey).Some? && KeyColumn(d, r.childTable, r.childKey).Some?
  }

  function CheckRelationship(d: Datasets, r: Relationship): KeyCheck
    requires Checkable(d, r)
  {
    CheckKeys(KeyColumn(d, r.parentTable, r.parentKey).value, KeyColumn(d, r.childTable, r.childKey).value)
  }

  /** The check of one relationship, absent when one of its key columns is not loaded. */
  function CheckIfLoaded(d: Datasets, r: Relationship): (c: Option<KeyCheck>)
    ensures c.Some? <==> Checkable(d, r)
  {
    if Checkable(d, r) then Some(CheckRelationship(d, r)) else None
  }

  /** `CheckIfLoaded` on the given datasets, as a function of the relationship. */
  function RelationshipCheck(d: Datasets): (check: Relationship -> Option<KeyCheck>)
    ensures forall r :: check(r) == CheckIfLoaded(d, r)
  {
    r => CheckIfLoaded(d, r)
  }

  /** The results of checking `rels` against the loaded datasets. */
  function KeyResults(d: Datasets, rels: seq<Relationship>): (m: map<string, KeyCheck>)
    ensures forall n :: n in m ==> exists r :: r in rels && ResultName(r) == n
  {
    ResultsOf(rels, RelationshipCheck(d))
  }

  /**
   * With distinct result names, a relationship has a result exactly when
   * both of its key columns are loaded, and the result is its own check.
   */
  lemma KeyResultsSpec(d: Datasets, rels: seq<Relationship>, r: Relationship)
    requires DistinctNames(rels) && r in rels
    ensures ResultName(r) in KeyResults(d, rels) <==> Checkable(d, r)
    ensures Checkable(d, r) ==> KeyResults(d, rels)[ResultName(r)] == CheckRelationship(d, r)
  {
    ResultsOfSpec(rels, RelationshipCheck(d), r);
  }

  /** `validate_foreign_keys` over the six relationships of the schema. */
  function ForeignKeyResults(d: Datasets): map<string, KeyCheck>
  {
    KeyResults(d, Relationships)
  }

  /**
   * Each of the six relationships is reported exactly when both tables
   * are loaded, and is GOOD exactly when every non-missing child key has
   * a parent.
   */
  lemma ForeignKeyResultsSpec(d: Datasets, r: Relationship)
    requires r in Relationships
    ensures ResultName(r) in ForeignKeyResults(d) <==> Checkable(d, r)
    ensures Checkable(d, r) ==> (ForeignKeyResults(d)[ResultName(r)].status == Good <==>
      KeySet(KeyColumn(d, r.childTable, r.childKey).value) <= KeySet(KeyColumn(d, r.parentTable, r.parentKey).value))
  {
    RelationshipsDistinct();
    KeyResultsSpec(d, Relationships, r);
  }

  // =====================================================================
  // The cleaner
  // =====================================================================

  /** The cleaning pipeline of `clean_all_data`, with type conversion and the report left aside. */
  function Cleaned(d: Datasets): Datasets
  {
    DerivedFeaturesAdded(CategoriesMerged(DuplicatesRemoved(MissingValuesCleaned(d))))
  }

  class DataCleaner {
    var datasets: Datasets
    var validationResults: map<string, KeyCheck>

    constructor(datasets: Datasets)
      ensures this.datasets == datasets && validationResults == map[]
    {
      this.datasets := datasets;
      validationResults := map[];
    }

    method CleanMissingValues() returns (result: Datasets)
      modifies this
      ensures datasets == MissingValuesCleaned(old(datasets)) && result == datasets
      ensures validationResults == old(validationResults)
    {
      var d := datasets;
      var products := CleanLoadedProducts(d.products);
      var payments := FixLoadedPayments(d.orderPayments);
      datasets := d.(orders := if d.orders.Some? then Some(CleanOrders(d.orders.value)) else None,
                     products := products, orderPayments := payments);
      result := datasets;
    }

    method RemoveDuplicates() returns (result: Datasets)
      modifies this
      ensures datasets == DuplicatesRemoved(old(datasets)) && result == datasets
      ensures validationResults == old(validationResults)
    {
      datasets := DuplicatesRemoved(datasets);
      result := datasets;
    }

    method MergeProductCategories() returns (result: Datasets)
      modifies this
      ensures datasets == CategoriesMerged(old(datasets)) && result == datasets
      ensures validationResults == old(validationResults)
    {
      if datasets.products.Some? && datasets.productCategories.Some? {
        var merged := MergeCategories(datasets.products.value, datasets.productCategories.value);
        datasets := datasets.(products := Some(merged));
      }
      result := datasets;
    }

    method ValidateForeignKeys() returns (results: map<string, KeyCheck>)
      modifies this
      ensures validationResults == ForeignKeyResults(old(datasets)) && results == validationResults
      ensures datasets == old(datasets)
    {
      var d := datasets;
      ghost var check := RelationshipCheck(d);
      results := map[];
      var k := 0;
      while k < |Relationships|
        invariant 0 <= k <= |Relationships|
        invariant results == ResultsOf(Relationships[..k], check) && datasets == d
      {
        var r := Relationships[k];
        var c := CheckIfLoaded(d, r);
        ResultsOfStep(Relationships, check, k);
        if c.Some? {
          results := results[ResultName(r) := c.value];
        }
        k := k + 1;
      }
      assert Relationships[..k] == Relationships;
      validationResults := results;
    }

    method CreateDerivedFeatures() returns (result: Datasets)
      modifies this
      ensures datasets == DerivedFeaturesAdded(old(datasets)) && result == datasets
      ensures validationResults == old(validationResults)
    {
      datasets := DerivedFeaturesAdded(datasets);
      result := datasets;
    }

    /** `clean_all_data`: the steps in pipeline order, foreign keys checked on the final tables. */
    method CleanAllData() returns (result: Datasets)
      modifies this
      ensures datasets == Cleaned(old(datasets)) && result == datasets
      ensures validationResults == ForeignKeyResults(datasets)
    {
      var step := CleanMissingValues();
      step := RemoveDuplicates();
      step := MergeProductCategories();
      step := CreateDerivedFeatures();
      var checks := ValidateForeignKeys();
      result := datasets;
    }
  }
}
