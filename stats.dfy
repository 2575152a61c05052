// Order statistics used by the pipeline: stable sorting, medians, linear
// quantiles (the pandas default), first-occurrence ranks and the equal-count
// bins that `pd.qcut` draws over those ranks.
module Stats {
  import opened Common

  // ---------------------------------------------------------------------
  // Stable sort by a real-valued key
  // ---------------------------------------------------------------------

  predicate SortedBy<T>(s: seq<T>, key: T -> real)
  {
    forall i, j :: 0 <= i < j < |s| ==> key(s[i]) <= key(s[j])
  }

  /** Inserts `x` in front of the first element whose key is not smaller. */
  function Insert<T>(x: T, s: seq<T>, key: T -> real): (r: seq<T>)
    ensures |r| == |s| + 1
    ensures r[0] == x || (|s| > 0 && r[0] == s[0])
  {
    if s == [] || key(x) <= key(s[0]) then [x] + s
    else [s[0]] + Insert(x, s[1..], key)
  }

  lemma {:induction false} InsertSorted<T>(x: T, s: seq<T>, key: T -> real)
    requires SortedBy(s, key)
    ensures SortedBy(Insert(x, s, key), key)
  {
    if s != [] && key(x) > key(s[0]) {
      var rest := Insert(x, s[1..], key);
      InsertSorted(x, s[1..], key);
      assert key(s[0]) <= key(rest[0]);
    }
  }

  lemma {:induction false} InsertMultiset<T>(x: T, s: seq<T>, key: T -> real)
    ensures multiset(Insert(x, s, key)) == multiset(s) + multiset{x}
  {
    if s != [] && key(x) > key(s[0]) {
      InsertMultiset(x, s[1..], key);
      MultisetCons(s[0], s[1..]);
      MultisetCons(s[0], Insert(x, s[1..], key));
      assert [s[0]] + s[1..] == s;
    }
  }

  lemma MultisetCons<T>(a: T, s: seq<T>)
    ensures multiset([a] + s) == multiset(s) + multiset{a}
  {
  }

  /**
   * Sorts ascending by `key`; elements with equal keys keep their original
   * order, as Python's `sorted` and `list.sort` do.
   */
  function SortBy<T>(s: seq<T>, key: T -> real): (r: seq<T>)
    ensures SortedBy(r, key)
    ensures multiset(r) == multiset(s)
    ensures |r| == |s|
  {
    if s == [] then []
    else
      var t := SortBy(s[1..], key);
      InsertSorted(s[0], t, key);
      InsertMultiset(s[0], t, key);
      MultisetCons(s[0], s[1..]);
      assert [s[0]] + s[1..] == s;
      Insert(s[0], t, key)
  }

  /** `sort_values(..., ascending=False)`: a permutation with the key non-increasing. */
  function SortDescending<T(==)>(rows: seq<T>, key: T -> real): (r: seq<T>)
    ensures |r| == |rows| && multiset(r) == multiset(rows)
    ensures forall i, j :: 0 <= i < j < |r| ==> key(r[i]) >= key(r[j])
  {
    var negated := (x: T) => -key(x);
    var r := SortBy(rows, negated);
    assert forall i, j :: 0 <= i < j < |r| ==> negated(r[i]) <= negated(r[j]);
    r
  }

  function Identity(x: real): real { x }

  /** A column of reals in ascending order. */
  function SortReals(s: seq<real>): (r: seq<real>)
    ensures |r| == |s| && multiset(r) == multiset(s)
    ensures forall i, j :: 0 <= i < j < |r| ==> r[i] <= r[j]
  {
    var t := SortBy(s, Identity);
    assert forall i, j :: 0 <= i < j < |t| ==> Identity(t[i]) <= Identity(t[j]);
    t
  }

  lemma ElementOfSorted(s: seq<real>, t: seq<real>, k: int)
    requires multiset(t) == multiset(s) && 0 <= k < |t|
    ensures exists i :: 0 <= i < |s| && s[i] == t[k]
  {
    assert t[k] in multiset(t);
    assert t[k] in multiset(s);
  }

  // ---------------------------------------------------------------------
  // Median (pandas `median`: missing when there is nothing to take it of)
  // ---------------------------------------------------------------------

  function Median(s: seq<real>): (m: Option<real>)
    ensures m.Some? <==> |s| > 0
    ensures m.Some? ==> exists i :: 0 <= i < |s| && s[i] <= m.value
    ensures m.Some? ==> exists j :: 0 <= j < |s| && m.value <= s[j]
    ensures m.Some? && (forall i :: 0 <= i < |s| ==> s[i] > 0.0) ==> m.value > 0.0
    ensures m.Some? ==> m.value == (SortReals(s)[(|s| - 1) / 2] + SortReals(s)[|s| / 2]) / 2.0
  {
    if |s| == 0 then None
    else
      var t := SortReals(s);
      var n := |t|;
      var lo := if n % 2 == 1 then n / 2 else n / 2 - 1;
      var hi := n / 2;
      ElementOfSorted(s, t, lo);
      ElementOfSorted(s, t, hi);
      assert t[lo] <= t[hi];
      Some((t[lo] + t[hi]) / 2.0)
  }

  function Exceeds(m: real): real -> bool { x => x > m }
  function Under(m: real): real -> bool { x => x < m }

  /**
   * The median splits the column in halves: at most half of the values,
   * rounded down, lie strictly above it and at most half strictly below.
   */
  lemma MedianHalves(s: seq<real>)
    requires |s| > 0
    ensures CountWhere(s, Exceeds(Median(s).value)) <= |s| / 2
    ensures CountWhere(s, Under(Median(s).value)) <= |s| / 2
  {
    MedianBetweenMiddles(s);
    SplitBetween(s, SortReals(s), Median(s).value, (|s| - 1) / 2, |s| / 2);
  }

  /** The median lies between the two middle elements of the sorted column. */
  lemma MedianBetweenMiddles(s: seq<real>)
    requires |s| > 0
    ensures SortReals(s)[(|s| - 1) / 2] <= Median(s).value <= SortReals(s)[|s| / 2]
  {
    var t := SortReals(s);
    assert t[(|s| - 1) / 2] <= t[|s| / 2];
  }

  /** A value between the two middle elements of the sorted column has at most half the column on either side. */
  lemma SplitBetween(s: seq<real>, t: seq<real>, m: real, lo: int, hi: int)
    requires multiset(s) == multiset(t) && Ascending(t)
    requires lo == (|t| - 1) / 2 && hi == |t| / 2 && 0 <= lo <= hi < |t|
    requires t[lo] <= m <= t[hi]
    ensures CountWhere(s, Exceeds(m)) <= |s| / 2
    ensures CountWhere(s, Under(m)) <= |s| / 2
  {
    assert |s| == |t| by {
      assert |multiset(s)| == |multiset(t)|;
    }
    CountWherePermutation(s, t, Exceeds(m));
    ExceedsCountBound(t, m, lo);
    CountWherePermutation(s, t, Under(m));
    UnderCountBound(t, m, hi);
  }

  /** In ascending data, only the elements after position `lo` can exceed a bound that `t[lo]` stays within. */
  lemma ExceedsCountBound(t: seq<real>, m: real, lo: int)
    requires Ascending(t)
    requires 0 <= lo < |t| && t[lo] <= m
    ensures CountWhere(t, Exceeds(m)) <= |t| - lo - 1
  {
    var front, back := t[..lo + 1], t[lo + 1..];
    assert t == front + back;
    CountWhereAppend(front, back, Exceeds(m));
    forall i | 0 <= i < |front| ensures !Exceeds(m)(front[i]) {
      assert t[i] <= t[lo];
    }
  }

  /** In ascending data, only the elements before position `hi` can fall below a bound that `t[hi]` reaches. */
  lemma UnderCountBound(t: seq<real>, m: real, hi: int)
    requires Ascending(t)
    requires 0 <= hi < |t| && m <= t[hi]
    ensures CountWhere(t, Under(m)) <= hi
  {
    var front, back := t[..hi], t[hi..];
    assert t == front + back;
    CountWhereAppend(front, back, Under(m));
    forall i | 0 <= i < |back| ensures !Under(m)(back[i]) {
      assert t[hi] <= t[hi + i];
    }
  }

  // ---------------------------------------------------------------------
  // Linear-interpolation quantiles over sorted data
  // ---------------------------------------------------------------------

  predicate Ascending(t: seq<real>)
  {
    forall i, j :: 0 <= i < j < |t| ==> t[i] <= t[j]
  }

  lemma MulLeftMono(a: int, b: int, c: int)
    requires a <= b && c >= 0
    ensures c * a <= c * b
  {
    assert c * b - c * a == c * (b - a);
  }

  lemma MulCancelLess(c: int, x: int, y: int)
    requires c > 0 && c * x < c * y
    ensures x < y
  {
    assert c * y - c * x == c * (y - x);
  }

  lemma MulCancelLessEq(c: int, x: int, y: int)
    requires c > 0 && c * x <= c * y
    ensures x <= y
  {
    assert c * y - c * x == c * (y - x);
  }

  lemma ScaleBetween(f: real, d: real)
    requires 0.0 <= f <= 1.0 && d >= 0.0
    ensures 0.0 <= f * d <= d
  {
    assert d - f * d == (1.0 - f) * d;
  }

  lemma DivModParts(h: int, q: int)
    requires h >= 0 && q > 0
    ensures h == q * (h / q) + h % q && 0 <= h % q < q && h / q >= 0
  {
  }

  lemma FractionBelowOne(a: int, b: int)
    requires 0 < a < b
    ensures 0.0 < a as real / b as real < 1.0
  {
    var f := a as real / b as real;
    assert f * (b as real) == a as real;
    assert (1.0 - f) * (b as real) == (b - a) as real;
  }

  /** Position of the `k/q` quantile among `n` sorted values: whole part and remainder. */
  lemma PositionBounds(n: int, k: int, q: int)
    requires n >= 1 && q >= 1 && 0 <= k <= q
    ensures 0 <= ((n - 1) * k) / q <= n - 1
    ensures ((n - 1) * k) % q != 0 ==> ((n - 1) * k) / q < n - 1
    ensures k == q ==> ((n - 1) * k) / q == n - 1 && ((n - 1) * k) % q == 0
  {
    MulLeftMono(k, q, n - 1);
    QuotientBounds((n - 1) * k, n - 1, q);
  }

  /** Quotient and remainder of a dividend between 0 and `q * m`. */
  lemma QuotientBounds(h: int, m: int, q: int)
    requires m >= 0 && q >= 1 && 0 <= h <= q * m
    ensures 0 <= h / q <= m
    ensures h % q != 0 ==> h / q < m
    ensures h == q * m ==> h / q == m && h % q == 0
  {
    DivModParts(h, q);
    var lo, rem := h / q, h % q;
    MulCancelLessEq(q, lo, m);
    if rem != 0 {
      MulCancelLess(q, lo, m);
    }
    if h == q * m && lo < m {
      MulLeftMono(lo + 1, m, q);
    }
  }

  /**
   * The `k/q` quantile of ascending data with linear interpolation: position
   * `(n - 1) * k / q`, interpolated between the two neighbouring values.
   */
  function QuantileAt(t: seq<real>, k: nat, q: nat): (v: real)
    requires |t| >= 1 && q >= 1 && k <= q && Ascending(t)
    ensures t[0] <= v <= t[|t| - 1]
    ensures k == 0 ==> v == t[0]
    ensures k == q ==> v == t[|t| - 1]
  {
    var (lo, rem) := Position(|t|, k, q);
    if rem == 0 then t[lo] else Interpolate(t[lo], t[lo + 1], rem, q)
  }

  /** The point `rem/q` of the way from `a` to `b`. */
  function Interpolate(a: real, b: real, rem: int, q: int): (v: real)
    requires a <= b && 0 < rem < q
    ensures a <= v <= b
  {
    FractionBelowOne(rem, q);
    ScaleBetween(rem as real / q as real, b - a);
    a + rem as real / q as real * (b - a)
  }

  /** The interpolated quantile lies between the two values around its position. */
  lemma QuantileBetween(t: seq<real>, k: nat, q: nat)
    requires |t| >= 1 && q >= 1 && k <= q && Ascending(t)
    ensures var p := Position(|t|, k, q);
      && t[p.0] <= QuantileAt(t, k, q)
      && (p.1 == 0 ==> QuantileAt(t, k, q) == t[p.0])
      && (p.1 != 0 ==> QuantileAt(t, k, q) <= t[p.0 + 1])
  {
  }

  /** Quotient and remainder grow with the dividend. */
  lemma DivMonotone(a: int, b: int, q: int)
    requires 0 <= a <= b && q > 0
    ensures a / q <= b / q
    ensures a / q == b / q ==> a % q <= b % q
  {
    DivModParts(a, q);
    DivModParts(b, q);
    if b / q < a / q {
      MulLeftMono(b / q + 1, a / q, q);
    }
  }

  /** A higher quantile is never smaller (in particular the first quartile is at most the third). */
  lemma QuantileMonotone(t: seq<real>, k1: nat, k2: nat, q: nat)
    requires |t| >= 1 && q >= 1 && k1 <= k2 <= q && Ascending(t)
    ensures QuantileAt(t, k1, q) <= QuantileAt(t, k2, q)
  {
    var n := |t|;
    var p1 := Position(n, k1, q);
    var p2 := Position(n, k2, q);
    QuantileBetween(t, k1, q);
    QuantileBetween(t, k2, q);
    PositionMonotone(n, k1, k2, q);
    if p1.0 == p2.0 && p1.1 != 0 {
      InterpolationMonotone(t[p1.0], t[p1.0 + 1], p1.1, p2.1, q);
    } else if p1.0 != p2.0 && p1.1 != 0 {
      assert t[p1.0 + 1] <= t[p2.0];
    }
  }

  lemma PositionMonotone(n: int, k1: int, k2: int, q: int)
    requires n >= 1 && q >= 1 && 0 <= k1 <= k2 <= q
    ensures Position(n, k1, q).0 <= Position(n, k2, q).0
    ensures Position(n, k1, q).0 == Position(n, k2, q).0 ==> Position(n, k1, q).1 <= Position(n, k2, q).1
  {
    MulLeftMono(k1, k2, n - 1);
    DivMonotone((n - 1) * k1, (n - 1) * k2, q);
  }

  lemma InterpolationMonotone(a: real, b: real, r1: int, r2: int, q: int)
    requires a <= b && 0 < r1 <= r2 < q
    ensures Interpolate(a, b, r1, q) <= Interpolate(a, b, r2, q)
  {
    var f1 := r1 as real / q as real;
    var f2 := r2 as real / q as real;
    assert f1 <= f2;
    assert f2 * (b - a) - f1 * (b - a) == (f2 - f1) * (b - a);
  }

  /** Whole part and remainder (in q-ths) of the position `(n - 1) * k / q`. */
  function Position(n: int, k: int, q: int): (p: (int, int))
    requires n >= 1 && q >= 1 && 0 <= k <= q
    ensures 0 <= p.0 <= n - 1 && 0 <= p.1 < q
    ensures p.1 != 0 ==> p.0 < n - 1
    ensures k == q ==> p.0 == n - 1 && p.1 == 0
    ensures k == 0 ==> p.0 == 0 && p.1 == 0
  {
    PositionBounds(n, k, q);
    DivModParts((n - 1) * k, q);
    (((n - 1) * k) / q, ((n - 1) * k) % q)
  }

  // ---------------------------------------------------------------------
  // Rank with ties broken by first occurrence (`rank(method='first')`)
  // ---------------------------------------------------------------------

  function CountLess(s: seq<real>, v: real): nat
  {
    if s == [] then 0 else (if s[0] < v then 1 else 0) + CountLess(s[1..], v)
  }

  function CountEqual(s: seq<real>, v: real): nat
  {
    if s == [] then 0 else (if s[0] == v then 1 else 0) + CountEqual(s[1..], v)
  }

  lemma {:induction false} CountEqualAppend(a: seq<real>, b: seq<real>, v: real)
    ensures CountEqual(a + b, v) == CountEqual(a, v) + CountEqual(b, v)
  {
    if a == [] {
      assert a + b == b;
    } else {
      assert (a + b)[1..] == a[1..] + b;
      CountEqualAppend(a[1..], b, v);
    }
  }

  lemma {:induction false} CountLessPlusEqual(s: seq<real>, v: real)
    ensures CountLess(s, v) + CountEqual(s, v) <= |s|
  {
    if s != [] {
      CountLessPlusEqual(s[1..], v);
    }
  }

  lemma {:induction false} CountLessGrows(s: seq<real>, v: real, w: real)
    requires v < w
    ensures CountLess(s, v) + CountEqual(s, v) <= CountLess(s, w)
  {
    if s != [] {
      CountLessGrows(s[1..], v, w);
    }
  }

  /** Occurrences of `s[i]` before position `i` and at `i` itself. */
  lemma OccurrencesAround(s: seq<real>, i: int)
    requires 0 <= i < |s|
    ensures CountEqual(s[..i], s[i]) + 1 <= CountEqual(s, s[i])
  {
    assert s == s[..i] + s[i..];
    CountEqualAppend(s[..i], s[i..], s[i]);
    assert s[i..] == [s[i]] + s[i + 1..];
  }

  /** 1-based rank of `s[i]`: smaller values first, equal values in order of appearance. */
  function RankFirst(s: seq<real>, i: int): (r: int)
    requires 0 <= i < |s|
    ensures 1 <= r <= |s|
  {
    CountLessPlusEqual(s, s[i]);
    OccurrencesAround(s, i);
    1 + CountLess(s, s[i]) + CountEqual(s[..i], s[i])
  }

  /** Ranks order the column by value, ties by position, so no two rows share a rank. */
  lemma {:induction false} RankFirstStrictlyOrders(s: seq<real>, i: int, j: int)
    requires 0 <= i < |s| && 0 <= j < |s|
    requires s[i] < s[j] || (s[i] == s[j] && i < j)
    ensures RankFirst(s, i) < RankFirst(s, j)
  {
    if s[i] < s[j] {
      OccurrencesAround(s, i);
      CountLessGrows(s, s[i], s[j]);
    } else {
      assert s[..j] == s[..i] + s[i..j];
      CountEqualAppend(s[..i], s[i..j], s[i]);
      assert s[i..j] == [s[i]] + s[i + 1..j];
    }
  }

  lemma RankFirstInjective(s: seq<real>, i: int, j: int)
    requires 0 <= i < |s| && 0 <= j < |s| && i != j
    ensures RankFirst(s, i) != RankFirst(s, j)
  {
    if s[i] < s[j] || (s[i] == s[j] && i < j) {
      RankFirstStrictlyOrders(s, i, j);
    } else {
      RankFirstStrictlyOrders(s, j, i);
    }
  }

  // ---------------------------------------------------------------------
  // Equal-count bins over ranks (`pd.qcut(rank, q, labels=1..q)`)
  // ---------------------------------------------------------------------

  /**
   * Searches labels upward from `k` for the first bin whose right edge
   * `1 + (n - 1) * k / q` is at least `r`.
   */
  function RankBinFrom(r: int, n: int, q: int, k: int): (b: int)
    requires 1 <= r <= n && n >= 2 && q >= 1 && 1 <= k <= q
    requires k == 1 || q * (r - 1) > (n - 1) * (k - 1)
    ensures k <= b <= q
    ensures q * (r - 1) <= (n - 1) * b
    ensures b == 1 || q * (r - 1) > (n - 1) * (b - 1)
    decreases q - k
  {
    if k == q then
      MulLeftMono(r - 1, n - 1, q);
      assert q * (n - 1) == (n - 1) * q;
      k
    else if q * (r - 1) <= (n - 1) * k then k
    else RankBinFrom(r, n, q, k + 1)
  }

  /**
   * Label (1..q) that `pd.qcut(ranks, q)` gives to rank `r` among `n >= 2`
   * distinct ranks 1..n: the quantile edges of 1..n are `1 + (n - 1) * k / q`,
   * the first bin closed on the left, every bin closed on the right.
   */
  function RankBin(r: int, n: int, q: int): (b: int)
    requires 1 <= r <= n && n >= 2 && q >= 1
    ensures 1 <= b <= q
    // r <= 1 + (n - 1) * b / q, scaled by q
    ensures q * (r - 1) <= (n - 1) * b
    // r > 1 + (n - 1) * (b - 1) / q unless b is the first bin
    ensures b > 1 ==> (n - 1) * (b - 1) < q * (r - 1)
  {
    RankBinFrom(r, n, q, 1)
  }

  /** A higher rank never lands in a lower bin. */
  lemma {:induction false} RankBinMonotone(r1: int, r2: int, n: int, q: int)
    requires 1 <= r1 <= r2 <= n && n >= 2 && q >= 1
    ensures RankBin(r1, n, q) <= RankBin(r2, n, q)
  {
    var b1, b2 := RankBin(r1, n, q), RankBin(r2, n, q);
    if b1 > 1 {
      MulLeftMono(r1 - 1, r2 - 1, q);
      assert (n - 1) * (b1 - 1) < (n - 1) * b2;
      MulCancelLess(n - 1, b1 - 1, b2);
    }
  }

  /** The lowest rank is in the first bin and the highest in the last. */
  lemma {:induction false} RankBinExtremes(n: int, q: int)
    requires n >= 2 && q >= 1
    ensures RankBin(1, n, q) == 1
    ensures RankBin(n, n, q) == q
  {
    var a := RankBin(1, n, q);
    if a > 1 {
      MulLeftMono(0, a - 1, n - 1);
    }
    var b := RankBin(n, n, q);
    assert q * (n - 1) == (n - 1) * q;
    MulCancelLessEq(n - 1, q, b);
  }
  // ---------------------------------------------------------------------
  // Equal-count bins over raw values (`pd.qcut(values, q)`)
  // ---------------------------------------------------------------------

  lemma WithinSortedRange(s: seq<real>, t: seq<real>, i: int)
    requires multiset(t) == multiset(s) && Ascending(t) && 0 <= i < |s|
    ensures |t| >= 1 && t[0] <= s[i] <= t[|t| - 1]
  {
    assert s[i] in multiset(s);
    assert s[i] in multiset(t);
    var j :| 0 <= j < |t| && t[j] == s[i];
  }

  /** The `q + 1` bin edges: the 0, 1/q, ..., q/q quantiles of the column. */
  function QuantileEdges(values: seq<real>, q: nat): (e: seq<real>)
    requires |values| >= 1 && q >= 1
    ensures |e| == q + 1
    ensures forall i :: 0 <= i < |values| ==> e[0] <= values[i] <= e[q]
  {
    var t := SortReals(values);
    var e := seq(q + 1, k requires 0 <= k <= q => QuantileAt(t, k, q));
    forall i | 0 <= i < |values| ensures e[0] <= values[i] <= e[q] {
      WithinSortedRange(values, t, i);
    }
    e
  }

  predicate DistinctEdges(e: seq<real>)
  {
    forall i, j :: 0 <= i < j < |e| ==> e[i] != e[j]
  }

  /** First bin, searching upward from `k`, whose right edge is at least `x`. */
  function BinFrom(x: real, e: seq<real>, k: nat): (b: nat)
    requires 1 <= k < |e| && x <= e[|e| - 1]
    ensures k <= b < |e| && x <= e[b]
    ensures forall j :: k <= j < b ==> x > e[j]
    decreases |e| - k
  {
    if x <= e[k] then k else BinFrom(x, e, k + 1)
  }

  /**
   * Label (1..q) of `x` under edges `e`: the bin (e[b-1], e[b]] containing
   * it, the first bin also taking its left edge.
   */
  function BinOf(x: real, e: seq<real>): (b: nat)
    requires |e| >= 2 && x <= e[|e| - 1]
    ensures 1 <= b < |e| && x <= e[b]
    ensures forall j :: 1 <= j < b ==> x > e[j]
  {
    BinFrom(x, e, 1)
  }

  /** A larger value never lands in a lower bin. */
  lemma BinOfMonotone(x: real, y: real, e: seq<real>)
    requires |e| >= 2 && x <= y <= e[|e| - 1]
    ensures BinOf(x, e) <= BinOf(y, e)
  {
    var bx, bz := BinOf(x, e), BinOf(y, e);
    assert y <= e[bz];
  }

  datatype BinError = EmptyColumn | NonUniqueEdges

  /**
   * `pd.qcut(values, q, labels=[1..q])`: edges from the quantiles of the
   * column; pandas refuses to bin when two edges coincide.
   */
  function QCut(values: seq<real>, q: nat): (r: Outcome<seq<nat>, BinError>)
    requires q >= 1
    ensures r.Failed? <==> |values| == 0 || !DistinctEdges(QuantileEdges(values, q))
    ensures r.Ok? ==> |r.value| == |values| >= 2
    ensures r.Ok? ==> forall i :: 0 <= i < |values| ==> 1 <= r.value[i] <= q
    ensures r.Ok? ==> forall i, j :: 0 <= i < |values| && 0 <= j < |values| && values[i] <= values[j]
                        ==> r.value[i] <= r.value[j]
  {
    if |values| == 0 then Failed(EmptyColumn)
    else
      var e := QuantileEdges(values, q);
      assert |values| == 1 ==> e[0] == e[q] by {
        if |values| == 1 {
          var t := SortReals(values);
          assert e[0] == QuantileAt(t, 0, q) && e[q] == QuantileAt(t, q, q);
        }
      }
      if !DistinctEdges(e) then Failed(NonUniqueEdges)
      else
        var labels := seq(|values|, i requires 0 <= i < |values| => BinOf(values[i], e));
        forall i, j | 0 <= i < |values| && 0 <= j < |values| && values[i] <= values[j]
          ensures labels[i] <= labels[j]
        {
          BinOfMonotone(values[i], values[j], e);
        }
        Ok(labels)
  }
  /** A lower value never lands in a higher quantile bin. */
  lemma QCutMonotone(values: seq<real>, q: nat, i: int, j: int)
    requires q >= 1 && QCut(values, q).Ok?
    requires 0 <= i < |values| && 0 <= j < |values| && values[i] <= values[j]
    ensures QCut(values, q).value[i] <= QCut(values, q).value[j]
  {
  }


  // ---------------------------------------------------------------------
  // Column maximum (pandas `max`: missing for an empty column)
  // ---------------------------------------------------------------------

  function MaxOf(s: seq<real>): (m: Option<real>)
    ensures m.Some? <==> |s| > 0
    ensures m.Some? ==> forall i :: 0 <= i < |s| ==> s[i] <= m.value
    ensures m.Some? ==> exists i :: 0 <= i < |s| && s[i] == m.value
  {
    if |s| == 0 then None
    else
      var rest := MaxOf(s[1..]);
      if rest.None? || s[0] >= rest.value then
        Some(s[0])
      else
        assert forall i :: 1 <= i < |s| ==> s[i] == s[1..][i - 1];
        var k :| 0 <= k < |s[1..]| && s[1..][k] == rest.value;
        assert s[k + 1] == rest.value;
        rest
  }

  /**
   * The largest present value of a column with gaps (pandas `max` skips NaN);
   * missing when no value is present.
   */
  function MaxPresent(s: seq<Option<real>>): (m: Option<real>)
    ensures m.Some? <==> exists i :: 0 <= i < |s| && s[i].Some?
    ensures m.Some? ==> forall i :: 0 <= i < |s| && s[i].Some? ==> s[i].value <= m.value
    ensures m.Some? ==> exists i :: 0 <= i < |s| && s[i] == m
  {
    if |s| == 0 then None
    else
      var rest := MaxPresent(s[1..]);
      assert forall i :: 1 <= i < |s| ==> s[i] == s[1..][i - 1];
      if rest.None? then
        s[0]
      else if s[0].Some? && s[0].value >= rest.value then
        s[0]
      else
        var k :| 0 <= k < |s[1..]| && s[1..][k] == rest;
        assert s[k + 1] == rest;
        rest
  }


  /** The smallest value of a column (pandas `min`: missing for an empty column). */
  function MinOf(s: seq<real>): (m: Option<real>)
    ensures m.Some? <==> |s| > 0
    ensures m.Some? ==> forall i :: 0 <= i < |s| ==> m.value <= s[i]
    ensures m.Some? ==> exists i :: 0 <= i < |s| && s[i] == m.value
  {
    if |s| == 0 then None
    else
      var rest := MinOf(s[1..]);
      if rest.None? || s[0] <= rest.value then
        Some(s[0])
      else
        assert forall i :: 1 <= i < |s| ==> s[i] == s[1..][i - 1];
        var k :| 0 <= k < |s[1..]| && s[1..][k] == rest.value;
        assert s[k + 1] == rest.value;
        rest
  }
}
