// Shared vocabulary of the analytics pipeline: optional values (pandas NaN),
// outcomes of operations that can raise, and timestamp arithmetic.
module Common {

  /** A cell or scalar that may be missing (NaN / None in the pipeline). */
  datatype Option<T> = None | Some(value: T)

  /** An operation that either yields a value or raises. */
  datatype Outcome<T, E> = Ok(value: T) | Failed(error: E)

  /** Timestamps are whole seconds on a common epoch. */
  type Timestamp = int

  const SecondsPerDay: int := 86400

  /**
   * `Timedelta.days`: the whole number of days in a time difference, rounded
   * toward minus infinity (pandas floors negative differences too).
   */
  function Days(delta: int): (d: int)
    ensures d * SecondsPerDay <= delta < (d + 1) * SecondsPerDay
  {
    delta / SecondsPerDay
  }

  /** Whole days never decrease as the time difference grows. */
  lemma DaysMonotone(x: int, y: int)
    requires x <= y
    ensures Days(x) <= Days(y)
  {
  }

  /** Days between two optional timestamps, missing when either one is. */
  function DaysBetween(later: Option<Timestamp>, earlier: Option<Timestamp>): (d: Option<int>)
    ensures d.Some? <==> later.Some? && earlier.Some?
    ensures d.Some? ==> d.value * SecondsPerDay <= later.value - earlier.value < (d.value + 1) * SecondsPerDay
  {
    if later.Some? && earlier.Some? then Some(Days(later.value - earlier.value)) else None
  }

  // ---------------------------------------------------------------------
  // Calendar fields of a timestamp (pandas `.dt` accessors, proleptic
  // Gregorian calendar, epoch 1970-01-01 00:00:00 UTC)
  // ---------------------------------------------------------------------

  /** A calendar date: `.dt.year`, `.dt.month` and `.dt.day`. */
  datatype CivilDate = CivilDate(year: int, month: int, day: int)

  predicate IsLeapYear(y: int)
  {
    y % 4 == 0 && (y % 100 != 0 || y % 400 == 0)
  }

  function YearLength(y: int): nat
  {
    if IsLeapYear(y) then 366 else 365
  }

  function MonthLength(y: int, m: int): nat
    requires 1 <= m <= 12
  {
    if m == 2 then (if IsLeapYear(y) then 29 else 28)
    else if m in {4, 6, 9, 11} then 30
    else 31
  }

  /** Days of year `y` before the first of month `m`. */
  function DaysBeforeMonth(y: int, m: int): nat
    requires 1 <= m <= 12
  {
    if m == 1 then 0 else DaysBeforeMonth(y, m - 1) + MonthLength(y, m - 1)
  }

  /** Days from 1970-01-01 to the first of January of year `y` (negative before 1970). */
  function DaysBeforeYear(y: int): int
    decreases if y < 1970 then 1970 - y else y - 1970
  {
    if y == 1970 then 0
    else if y > 1970 then DaysBeforeYear(y - 1) + YearLength(y - 1)
    else DaysBeforeYear(y + 1) - YearLength(y)
  }

  /** Day number since 1970-01-01 of a calendar date. */
  function EpochDay(c: CivilDate): int
    requires 1 <= c.month <= 12
  {
    DaysBeforeYear(c.year) + DaysBeforeMonth(c.year, c.month) + c.day - 1
  }

  /**
   * The year holding day `d` counted from the first of January of `y`, and
   * that day's index within its year.
   */
  function YearFrom(y: int, d: int): (r: (int, int))
    ensures 0 <= r.1 < YearLength(r.0)
    ensures DaysBeforeYear(r.0) + r.1 == DaysBeforeYear(y) + d
    decreases if d < 0 then 1 else 0, if d < 0 then -d else d
  {
    if d < 0 then YearFrom(y - 1, d + YearLength(y - 1))
    else if d < YearLength(y) then (y, d)
    else YearFrom(y + 1, d - YearLength(y))
  }

  /** The twelve months make up the year. */
  lemma MonthsFillYear(y: int)
    ensures DaysBeforeMonth(y, 12) + MonthLength(y, 12) == YearLength(y)
  {
    var feb := MonthLength(y, 2);
    assert DaysBeforeMonth(y, 2) == 31;
    assert DaysBeforeMonth(y, 3) == 31 + feb;
    assert DaysBeforeMonth(y, 4) == 62 + feb;
    assert DaysBeforeMonth(y, 5) == 92 + feb;
    assert DaysBeforeMonth(y, 6) == 123 + feb;
    assert DaysBeforeMonth(y, 7) == 153 + feb;
    assert DaysBeforeMonth(y, 8) == 184 + feb;
    assert DaysBeforeMonth(y, 9) == 215 + feb;
    assert DaysBeforeMonth(y, 10) == 245 + feb;
    assert DaysBeforeMonth(y, 11) == 276 + feb;
    assert DaysBeforeMonth(y, 12) == 306 + feb;
  }

  /** The month holding day `d` of year `y` counted from the first of month `m`, and its day of month. */
  function MonthFrom(y: int, m: int, d: int): (r: (int, int))
    requires 1 <= m <= 12 && 0 <= d < YearLength(y) - DaysBeforeMonth(y, m)
    ensures m <= r.0 <= 12 && 1 <= r.1 <= MonthLength(y, r.0)
    ensures DaysBeforeMonth(y, r.0) + r.1 - 1 == DaysBeforeMonth(y, m) + d
    decreases 12 - m
  {
    if m == 12 then
      MonthsFillYear(y);
      (m, d + 1)
    else if d < MonthLength(y, m) then (m, d + 1)
    else MonthFrom(y, m + 1, d - MonthLength(y, m))
  }

  /** `.dt.year`, `.dt.month`, `.dt.day` of a timestamp. */
  function DateOf(t: Timestamp): (c: CivilDate)
    ensures ValidDate(c)
    ensures EpochDay(c) == Days(t)
  {
    var (y, doy) := YearFrom(1970, Days(t));
    var (m, day) := MonthFrom(y, 1, doy);
    CivilDate(y, m, day)
  }

  /** `.dt.hour`. */
  function HourOf(t: Timestamp): (h: int)
    ensures 0 <= h < 24
    ensures Days(t) * SecondsPerDay + h * 3600 <= t < Days(t) * SecondsPerDay + (h + 1) * 3600
  {
    (t % SecondsPerDay) / 3600
  }

  /** `.dt.dayofweek`: Monday is 0 and Sunday 6; 1970-01-01 was a Thursday. */
  function DayOfWeekOf(t: Timestamp): (w: int)
    ensures 0 <= w < 7
  {
    (Days(t) + 3) % 7
  }

  /** A date with a month of the calendar and a day inside that month. */
  predicate ValidDate(c: CivilDate)
  {
    1 <= c.month <= 12 && 1 <= c.day <= MonthLength(c.year, c.month)
  }

  /** Each year starts where the one before it ends, on either side of 1970. */
  lemma YearStep(y: int)
    ensures DaysBeforeYear(y) == DaysBeforeYear(y - 1) + YearLength(y - 1)
  {
  }

  /** A later year starts no earlier than the end of an earlier one. */
  lemma {:induction false} YearStartsIncrease(a: int, b: int)
    requires a < b
    ensures DaysBeforeYear(a) + YearLength(a) <= DaysBeforeYear(b)
    decreases b - a
  {
    YearStep(b);
    if a < b - 1 {
      YearStartsIncrease(a, b - 1);
    }
  }

  /** A later month starts no earlier than the end of an earlier one. */
  lemma {:induction false} MonthStartsIncrease(y: int, a: int, b: int)
    requires 1 <= a < b <= 12
    ensures DaysBeforeMonth(y, a) + MonthLength(y, a) <= DaysBeforeMonth(y, b)
    decreases b - a
  {
    if a < b - 1 {
      MonthStartsIncrease(y, a, b - 1);
    }
  }

  /** Two valid dates on the same day number are the same date. */
  lemma DateUnique(c: CivilDate, e: CivilDate)
    requires ValidDate(c) && ValidDate(e) && EpochDay(c) == EpochDay(e)
    ensures c == e
  {
    MonthsFillYear(c.year);
    MonthsFillYear(e.year);
    if c.month < 12 { MonthStartsIncrease(c.year, c.month, 12); }
    if e.month < 12 { MonthStartsIncrease(e.year, e.month, 12); }
    if c.year < e.year {
      YearStartsIncrease(c.year, e.year);
      assert false;
    } else if e.year < c.year {
      YearStartsIncrease(e.year, c.year);
      assert false;
    }
    if c.month < e.month {
      MonthStartsIncrease(c.year, c.month, e.month);
      assert false;
    } else if e.month < c.month {
      MonthStartsIncrease(c.year, e.month, c.month);
      assert false;
    }
  }

  /**
   * `DateOf` and `EpochDay` are inverse: every valid date is the date of
   * the midnight that starts it, and every timestamp lies on the day its
   * date numbers.
   */
  lemma DateRoundTrip(c: CivilDate, t: Timestamp)
    requires ValidDate(c)
    ensures DateOf(EpochDay(c) * SecondsPerDay) == c
    ensures EpochDay(DateOf(t)) * SecondsPerDay <= t < (EpochDay(DateOf(t)) + 1) * SecondsPerDay
  {
    var e := DateOf(EpochDay(c) * SecondsPerDay);
    assert Days(EpochDay(c) * SecondsPerDay) == EpochDay(c);
    DateUnique(c, e);
  }

  /** `.dt.dayofweek` moves on by one a day later, and `.dt.hour` stays. */
  lemma NextDay(t: Timestamp)
    ensures DayOfWeekOf(t + SecondsPerDay) == (DayOfWeekOf(t) + 1) % 7
    ensures HourOf(t + SecondsPerDay) == HourOf(t)
    ensures EpochDay(DateOf(t + SecondsPerDay)) == EpochDay(DateOf(t)) + 1
  {
    assert Days(t + SecondsPerDay) == Days(t) + 1;
  }

  /** A week later the weekday is the same. */
  lemma WeekLater(t: Timestamp)
    ensures DayOfWeekOf(t + 7 * SecondsPerDay) == DayOfWeekOf(t)
  {
    assert Days(t + 7 * SecondsPerDay) == Days(t) + 7;
  }

  /** The epoch is Thursday 1 January 1970 at midnight. */
  lemma EpochIsThursday()
    ensures DateOf(0) == CivilDate(1970, 1, 1) && DayOfWeekOf(0) == 3 && HourOf(0) == 0
  {
  }

  predicate IsMonth(m: int) { 1 <= m <= 12 }

  /** `.dt.quarter`: the calendar quarter of a month. */
  function Quarter(m: int): (q: int)
    requires IsMonth(m)
    ensures 1 <= q <= 4
    ensures 3 * (q - 1) < m <= 3 * q
  {
    (m - 1) / 3 + 1
  }

  /** `.dt.day_name()` of a weekday number. */
  function DayName(w: int): string
    requires 0 <= w < 7
  {
    ["Monday", "Tuesday", "Wednesday", "Thursday", "Friday", "Saturday", "Sunday"][w]
  }

  /** A valid date is day 1 to 365 (366) of its year. */
  lemma DayOfYearBounds(c: CivilDate)
    requires ValidDate(c)
    ensures 1 <= DaysBeforeMonth(c.year, c.month) + c.day <= YearLength(c.year)
  {
    MonthsFillYear(c.year);
    if c.month < 12 {
      MonthStartsIncrease(c.year, c.month, 12);
    }
  }

  /** Only Saturday and Sunday carry their names. */
  lemma WeekendDayNames(w: int)
    requires 0 <= w < 7
    ensures DayName(w) == "Saturday" <==> w == 5
    ensures DayName(w) == "Sunday" <==> w == 6
  {
    if w < 5 {
      assert DayName(w)[0] != 'S';
    }
  }

  /** Weekday (Monday 0) of the first of January of year `y`. */
  function NewYearWeekday(y: int): int
  {
    (DaysBeforeYear(y) + 3) % 7
  }

  /** ISO 8601 years have 53 weeks when they start on a Thursday, or on a Wednesday in a leap year. */
  function IsoWeeksInYear(y: int): int
  {
    if NewYearWeekday(y) == 3 || (IsLeapYear(y) && NewYearWeekday(y) == 2) then 53 else 52
  }

  /**
   * `.dt.isocalendar().week`: the ISO 8601 week number. Days before the
   * year's first Thursday-week belong to the last week of the previous
   * year; days after its last one to week 1 of the next.
   */
  function IsoWeekOf(t: Timestamp): (w: int)
    ensures 1 <= w <= 53
  {
    var c := DateOf(t);
    var ordinal := DaysBeforeMonth(c.year, c.month) + c.day;
    DayOfYearBounds(c);
    var week := (ordinal - DayOfWeekOf(t) + 9) / 7;
    if week < 1 then IsoWeeksInYear(c.year - 1)
    else if week > IsoWeeksInYear(c.year) then 1
    else week
  }

  /** The fourth of January always lies in ISO week 1, whatever weekday the year starts on. */
  lemma FourthOfJanuaryIsWeekOne(t: Timestamp)
    requires DateOf(t).month == 1 && DateOf(t).day == 4
    ensures IsoWeekOf(t) == 1
  {
  }

  /** The purchase-time columns of an order table: `.dt.year`, `.dt.month`, `.dt.dayofweek`, `.dt.hour`. */
  datatype OrderTiming = OrderTiming(year: int, month: int, dayOfWeek: int, hour: int)

  /**
   * The timing columns of one order, all missing (NaN) when its purchase
   * time is; otherwise the purchase falls on a day of that year and month,
   * within that hour.
   */
  function OrderTimingOf(purchase: Option<Timestamp>): (r: Option<OrderTiming>)
    ensures r.Some? <==> purchase.Some?
    ensures r.Some? ==> IsMonth(r.value.month) && 0 <= r.value.dayOfWeek < 7 && 0 <= r.value.hour < 24
    ensures r.Some? ==> var c := DateOf(purchase.value);
      c.year == r.value.year && c.month == r.value.month
      && (EpochDay(c) + 3) % 7 == r.value.dayOfWeek
      && EpochDay(c) * SecondsPerDay + r.value.hour * 3600 <= purchase.value
      && purchase.value < EpochDay(c) * SecondsPerDay + (r.value.hour + 1) * 3600
  {
    if purchase.None? then None
    else
      var t := purchase.value;
      var c := DateOf(t);
      Some(OrderTiming(c.year, c.month, DayOfWeekOf(t), HourOf(t)))
  }

  /** Number of elements of `s` equal to `x`. */
  function Occurrences<T(==)>(s: seq<T>, x: T): nat
  {
    if s == [] then 0 else (if s[0] == x then 1 else 0) + Occurrences(s[1..], x)
  }

  /** `part` occurs in `s` starting at position `k`. */
  predicate OccursAt(s: string, part: string, k: int)
  {
    0 <= k && k + |part| <= |s| && s[k..k + |part|] == part
  }

  /** Python's `part in s` on strings. */
  predicate Contains(s: string, part: string)
  {
    exists k | 0 <= k <= |s| - |part| :: OccursAt(s, part, k)
  }

  /** Sum of a column of reals (pandas `sum` on a column without gaps). */
  function Sum(s: seq<real>): real
  {
    if s == [] then 0.0 else s[0] + Sum(s[1..])
  }

  lemma {:induction false} SumAppend(a: seq<real>, b: seq<real>)
    ensures Sum(a + b) == Sum(a) + Sum(b)
  {
    if a == [] {
      assert a + b == b;
    } else {
      assert (a + b)[1..] == a[1..] + b;
      SumAppend(a[1..], b);
    }
  }

  lemma {:induction false} SumNonNegative(s: seq<real>)
    requires forall i :: 0 <= i < |s| ==> s[i] >= 0.0
    ensures Sum(s) >= 0.0
  {
    if s != [] {
      SumNonNegative(s[1..]);
    }
  }

  /** Number of elements of `s` satisfying `p` (a pandas boolean mask's `sum()`). */
  function CountWhere<T>(s: seq<T>, p: T -> bool): (n: nat)
    ensures n <= |s|
    ensures n == 0 <==> forall i :: 0 <= i < |s| ==> !p(s[i])
  {
    if s == [] then 0
    else
      var rest := CountWhere(s[1..], p);
      assert forall i :: 1 <= i < |s| ==> s[i] == s[1..][i - 1];
      (if p(s[0]) then 1 else 0) + rest
  }

  lemma {:induction false} CountWhereAppend<T>(a: seq<T>, b: seq<T>, p: T -> bool)
    ensures CountWhere(a + b, p) == CountWhere(a, p) + CountWhere(b, p)
  {
    if a == [] {
      assert a + b == b;
    } else {
      assert (a + b)[1..] == a[1..] + b;
      CountWhereAppend(a[1..], b, p);
    }
  }

  /** Reordering a column does not change how many of its elements pass a test. */
  lemma {:induction false} CountWherePermutation<T>(a: seq<T>, b: seq<T>, p: T -> bool)
    requires multiset(a) == multiset(b)
    ensures CountWhere(a, p) == CountWhere(b, p)
    decreases |a|
  {
    if a != [] {
      assert a[0] in multiset(b);
      var k :| 0 <= k < |b| && b[k] == a[0];
      var rest := RemoveAt(b, k, p);
      assert a == [a[0]] + a[1..];
      assert multiset(a[1..]) == multiset(a) - multiset{a[0]};
      CountWherePermutation(a[1..], rest, p);
    }
  }

  /** Taking out the element at `k` takes it out of the multiset and, if it matches, out of the count. */
  lemma RemoveAt<T>(b: seq<T>, k: int, p: T -> bool) returns (rest: seq<T>)
    requires 0 <= k < |b|
    ensures multiset(rest) == multiset(b) - multiset{b[k]}
    ensures CountWhere(b, p) == CountWhere(rest, p) + (if p(b[k]) then 1 else 0)
  {
    rest := b[..k] + b[k + 1..];
    assert b == b[..k] + [b[k]] + b[k + 1..];
    CountWhereAppend(b[..k], b[k + 1..], p);
    CountWhereAppend(b[..k] + [b[k]], b[k + 1..], p);
    CountWhereAppend(b[..k], [b[k]], p);
  }

  /** `part / whole * 100`, and 0 when `whole` is 0. */
  function Percent(part: nat, whole: nat): (p: real)
    requires part <= whole
    ensures 0.0 <= p <= 100.0
    ensures p == 0.0 <==> part == 0
    ensures whole > 0 ==> p * whole as real == part as real * 100.0
  {
    if whole > 0 then
      var p := part as real / whole as real * 100.0;
      assert part as real / whole as real <= 1.0;
      p
    else 0.0
  }

  /**
   * The dictionary a loop over the keys `ks` builds when it stores the
   * result of `check` for every key that has one.
   */
  function Collect<K(!new), V>(ks: set<K>, check: K -> Option<V>): map<K, V>
  {
    map k | k in ks && check(k).Some? :: check(k).value
  }

  /** Visiting one more key adds its result, when it has one, and nothing else. */
  lemma CollectStep<K(!new), V>(done: set<K>, check: K -> Option<V>, k: K)
    ensures Collect(done + {k}, check) == if check(k).Some? then Collect(done, check)[k := check(k).value] else Collect(done, check)
  {
  }

  /** A key is collected exactly when it is visited and has a result, and then it maps to that result. */
  lemma CollectAt<K(!new), V>(ks: set<K>, check: K -> Option<V>, k: K)
    ensures k in Collect(ks, check) <==> k in ks && check(k).Some?
    ensures k in Collect(ks, check) ==> Collect(ks, check)[k] == check(k).value
  {
  }

  /** pandas `mean` of the values present: missing when there are none. */
  function Mean(s: seq<real>): (m: Option<real>)
    ensures m.Some? <==> |s| > 0
    ensures m.Some? ==> m.value * |s| as real == Sum(s)
  {
    if |s| == 0 then None else Some(Sum(s) / |s| as real)
  }

  lemma {:induction false} SumBounds(s: seq<real>, lo: real, hi: real)
    requires forall i :: 0 <= i < |s| ==> lo <= s[i] <= hi
    ensures lo * |s| as real <= Sum(s) <= hi * |s| as real
  {
    if s != [] {
      SumBounds(s[1..], lo, hi);
    }
  }

  /** A mean lies between any bounds of the values it averages. */
  lemma MeanBetween(s: seq<real>, lo: real, hi: real)
    requires |s| > 0 && forall i :: 0 <= i < |s| ==> lo <= s[i] <= hi
    ensures lo <= Mean(s).value <= hi
  {
    SumBounds(s, lo, hi);
    var n := |s| as real;
    var m := Mean(s).value;
    assert (m - lo) * n == m * n - lo * n;
    assert (hi - m) * n == hi * n - m * n;
    NonNegativeFactor(m - lo, n);
    NonNegativeFactor(hi - m, n);
  }

  lemma NonNegativeFactor(x: real, n: real)
    requires n > 0.0 && x * n >= 0.0
    ensures x >= 0.0
  {
    assert x < 0.0 ==> x * n < 0.0;
  }

  /** Python `int()` of a float: truncation toward zero. */
  function Trunc(x: real): (n: int)
    ensures x >= 0.0 ==> n as real <= x < n as real + 1.0
    ensures x < 0.0 ==> n as real - 1.0 < x <= n as real
  {
    if x >= 0.0 then x.Floor else -((-x).Floor)
  }

  lemma TruncMonotone(x: real, y: real)
    requires x <= y
    ensures Trunc(x) <= Trunc(y)
  {
  }
}
