// The data-quality checker run on the raw datasets: missing values,
// duplicate rows, dtype suggestions, IQR outliers and foreign keys, each
// graded by a severity scale, and the recommendations drawn from them.
module Quality {
  import opened Common
  import opened Stats
  import opened Tables
  import opened Validation

  // =====================================================================
  // Severity scales
  // =====================================================================

  /** `NoIssue` is the label "NONE". */
  datatype Severity = NoIssue | Low | Medium | High | Critical

  function SeverityRank(s: Severity): nat
  {
    match s
    case NoIssue => 0
    case Low => 1
    case Medium => 2
    case High => 3
    case Critical => 4
  }

  /** A percentage graded against three thresholds: exactly 0 is no issue, then low, medium, high, critical. */
  function Grade(p: real, low: real, medium: real, high: real): (s: Severity)
    requires 0.0 < low < medium < high
    ensures s == NoIssue <==> p == 0.0
    ensures p >= 0.0 ==> (s == Critical <==> p >= high)
    ensures s == Low ==> p < low
    ensures s == Medium ==> low <= p < medium
    ensures s == High ==> medium <= p < high
  {
    if p == 0.0 then NoIssue
    else if p < low then Low
    else if p < medium then Medium
    else if p < high then High
    else Critical
  }

  /** A larger percentage never gets a milder grade. */
  lemma GradeMonotone(p1: real, p2: real, low: real, medium: real, high: real)
    requires 0.0 < low < medium < high && 0.0 <= p1 <= p2
    ensures SeverityRank(Grade(p1, low, medium, high)) <= SeverityRank(Grade(p2, low, medium, high))
  {
  }

  /** Missing values: 5 / 20 / 50 percent. */
  function MissingSeverity(p: real): Severity { Grade(p, 5.0, 20.0, 50.0) }

  /** Duplicate rows: 1 / 5 / 20 percent. */
  function DuplicateSeverity(p: real): Severity { Grade(p, 1.0, 5.0, 20.0) }

  /** Outliers: 5 / 10 / 20 percent. */
  function OutlierSeverity(p: real): Severity { Grade(p, 5.0, 10.0, 20.0) }

  /** The three scales at their boundaries. */
  lemma SeverityScales()
    ensures MissingSeverity(4.99) == Low && MissingSeverity(5.0) == Medium
    ensures MissingSeverity(20.0) == High && MissingSeverity(50.0) == Critical
    ensures DuplicateSeverity(0.5) == Low && DuplicateSeverity(1.0) == Medium
    ensures DuplicateSeverity(5.0) == High && DuplicateSeverity(20.0) == Critical
    ensures OutlierSeverity(5.0) == Medium && OutlierSeverity(10.0) == High && OutlierSeverity(20.0) == Critical
  {
  }

  // =====================================================================
  // Sorting result tables
  // =====================================================================

  /**
   * `pd.DataFrame(rows).sort_values(column)` as written: a frame built from
   * an empty list has no columns, so sorting it raises KeyError.
   */
  function SortValuesAsWritten<T(==)>(rows: seq<T>, key: T -> real, column: string): (r: Outcome<seq<T>, string>)
    ensures r.Failed? <==> rows == []
    ensures r.Ok? ==> r.value == SortDescending(rows, key)
  {
    if rows == [] then Failed("KeyError: '" + column + "'") else Ok(SortDescending(rows, key))
  }

  predicate NoRepeats<T(==)>(s: seq<T>)
  {
    forall i, j :: 0 <= i < j < |s| ==> s[i] != s[j]
  }

  /** Appending an element not yet present keeps a sequence free of repeats. */
  lemma AppendFresh<T>(s: seq<T>, x: T)
    requires NoRepeats(s) && x !in s
    ensures NoRepeats(s + [x]) && forall y :: y in s + [x] <==> y in s || y == x
  {
  }

  // =====================================================================
  // Missing values
  // =====================================================================

  datatype MissingEntry = MissingEntry(
    dataset: string, column: string,
    missingCount: nat, missingPercentage: real, totalRows: nat,
    severity: Severity)

  function MissingCount(c: Column): nat { CountWhere(c.cells, IsMissing) }

  /** The row of a column with gaps; a column is as long as its frame. */
  function MissingEntryOf(name: string, col: string, c: Column): (e: MissingEntry)
    requires MissingCount(c) > 0
    ensures 0.0 < e.missingPercentage <= 100.0
    ensures e.missingPercentage * e.totalRows as real == e.missingCount as real * 100.0
    ensures e.severity == MissingSeverity(e.missingPercentage) && e.severity != NoIssue
  {
    var n := MissingCount(c);
    var rows := |c.cells|;
    var p := Percent(n, rows);
    MissingEntry(name, col, n, p, rows, MissingSeverity(p))
  }

  /** One row per column, of any dataset, with at least one missing value. */
  function MissingEntries(ds: map<string, Frame>, names: set<string>): set<MissingEntry>
  {
    set n, col | n in names && n in ds && col in ds[n].columns && MissingCount(ds[n].columns[col]) > 0
      :: MissingEntryOf(n, col, ds[n].columns[col])
  }

  function MissingEntriesOf(name: string, f: Frame, cols: set<string>): set<MissingEntry>
  {
    set col | col in cols && col in f.columns && MissingCount(f.columns[col]) > 0 :: MissingEntryOf(name, col, f.columns[col])
  }

  method MissingOfTable(name: string, f: Frame) returns (rows: seq<MissingEntry>)
    ensures forall e :: e in rows <==> e in MissingEntriesOf(name, f, f.columns.Keys)
    ensures NoRepeats(rows) && forall e :: e in rows ==> e.dataset == name
  {
    rows := [];
    var remaining := f.columns.Keys;
    while remaining != {}
      invariant remaining <= f.columns.Keys
      invariant forall e :: e in rows <==> e in MissingEntriesOf(name, f, f.columns.Keys - remaining)
      invariant NoRepeats(rows)
      invariant forall e :: e in rows ==> e.dataset == name && e.column !in remaining
      decreases remaining
    {
      var col :| col in remaining;
      var c := f.columns[col];
      var n := MissingCount(c);
      if n > 0 {
        rows := rows + [MissingEntryOf(name, col, c)];
      }
      remaining := remaining - {col};
    }
  }

  method CollectMissing(ds: map<string, Frame>) returns (rows: seq<MissingEntry>)
    ensures forall e :: e in rows <==> e in MissingEntries(ds, ds.Keys)
    ensures NoRepeats(rows)
  {
    rows := [];
    var remaining := ds.Keys;
    while remaining != {}
      invariant remaining <= ds.Keys
      invariant forall e :: e in rows <==> e in MissingEntries(ds, ds.Keys - remaining)
      invariant NoRepeats(rows)
      invariant forall e :: e in rows ==> e.dataset !in remaining
      decreases remaining
    {
      var name :| name in remaining;
      var tableRows := MissingOfTable(name, ds[name]);
      assert forall e :: e in tableRows <==> e in MissingEntriesOf(name, ds[name], ds[name].columns.Keys);
      rows := rows + tableRows;
      remaining := remaining - {name};
      assert forall e :: e in MissingEntries(ds, ds.Keys - remaining) <==>
        e in MissingEntries(ds, ds.Keys - remaining - {name}) || e in MissingEntriesOf(name, ds[name], ds[name].columns.Keys);
    }
  }

  function MissingPercentageOf(e: MissingEntry): real { e.missingPercentage }

  /**
   * `check_missing_values` as written: with no missing value anywhere the
   * result list is empty and sorting it raises KeyError.
   */
  function CheckMissingValuesAsWritten(rows: seq<MissingEntry>): Outcome<seq<MissingEntry>, string>
  {
    SortValuesAsWritten(rows, MissingPercentageOf, "Missing_Percentage")
  }

  /** Datasets without a single missing cell make the missing-value check raise. */
  lemma CompleteDataCrashesMissingCheck(ds: map<string, Frame>, rows: seq<MissingEntry>)
    requires forall n, col :: n in ds && col in ds[n].columns ==> MissingCount(ds[n].columns[col]) == 0
    requires forall e :: e in rows <==> e in MissingEntries(ds, ds.Keys)
    ensures CheckMissingValuesAsWritten(rows).Failed?
  {
    assert forall e :: e !in MissingEntries(ds, ds.Keys);
    NoMembersEmpty(rows);
  }

  lemma NoMembersEmpty<T>(s: seq<T>)
    requires forall x :: x !in s
    ensures s == []
  {
    forall x ensures multiset(s)[x] == 0 {
      assert x !in s;
    }
    assert multiset(s) == multiset{};
  }

  /** A concrete input: one orders table whose only column is complete. */
  lemma MissingCheckCounterexample()
    ensures var ds := map["orders" := Frame(1, map["order_id" := Column("object", [Text("o1")])])];
      MissingEntries(ds, ds.Keys) == {}
  {
    var ds := map["orders" := Frame(1, map["order_id" := Column("object", [Text("o1")])])];
    assert MissingCount(ds["orders"].columns["order_id"]) == 0;
  }

  // =====================================================================
  // Duplicate rows
  // =====================================================================

  /** A row of a frame: the cell of every column at one position. */
  function RowAt(f: Frame, i: nat): map<string, Value>
  {
    map col | col in f.columns :: At(f.columns[col], i)
  }

  function Rows(f: Frame): seq<map<string, Value>>
  {
    seq(f.rows, i requires 0 <= i < f.rows => RowAt(f, i))
  }

  /** `duplicated().sum()`: rows equal to an earlier row. */
  function DuplicateCount<T(==)>(s: seq<T>): (n: nat)
    ensures n <= |s|
  {
    if s == [] then 0
    else DuplicateCount(s[..|s| - 1]) + (if s[|s| - 1] in s[..|s| - 1] then 1 else 0)
  }

  function DistinctRows<T(!new)>(s: seq<T>): set<T>
  {
    set x | x in s
  }

  /** The unique rows reported are exactly the distinct rows of the frame. */
  lemma {:induction false} DuplicatesPlusDistinct<T(!new)>(s: seq<T>)
    ensures |DistinctRows(s)| + DuplicateCount(s) == |s|
  {
    if s != [] {
      var init := s[..|s| - 1];
      var last := s[|s| - 1];
      DuplicatesPlusDistinct(init);
      assert s == init + [last];
      assert forall x :: x in s <==> x in init || x == last;
      assert DistinctRows(s) == DistinctRows(init) + {last};
      if last in DistinctRows(init) {
        assert DistinctRows(s) == DistinctRows(init);
      } else {
        assert |DistinctRows(init) + {last}| == |DistinctRows(init)| + 1;
      }
    }
  }

  datatype DuplicateEntry = DuplicateEntry(
    dataset: string,
    totalRows: nat, duplicateRows: nat, duplicatePercentage: real, uniqueRows: nat,
    severity: Severity)

  /** The duplicate row of one dataset; the percentage is 0 for an empty frame. */
  function DuplicateEntryOf(name: string, f: Frame): (e: DuplicateEntry)
    ensures e.dataset == name
    ensures e.totalRows == f.rows && e.uniqueRows == |DistinctRows(Rows(f))|
    ensures e.duplicateRows + e.uniqueRows == e.totalRows
    ensures 0.0 <= e.duplicatePercentage <= 100.0
    ensures e.totalRows == 0 ==> e.duplicatePercentage == 0.0
    ensures e.duplicatePercentage == 0.0 <==> e.duplicateRows == 0
    ensures e.severity == DuplicateSeverity(e.duplicatePercentage)
  {
    var rows := Rows(f);
    var d := DuplicateCount(rows);
    DuplicatesPlusDistinct(rows);
    var p := Percent(d, f.rows);
    DuplicateEntry(name, f.rows, d, p, f.rows - d, DuplicateSeverity(p))
  }

  /** `e` is the duplicate row of one of the datasets `names`. */
  predicate DuplicateReported(ds: map<string, Frame>, names: set<string>, e: DuplicateEntry)
  {
    e.dataset in names && e.dataset in ds && e == DuplicateEntryOf(e.dataset, ds[e.dataset])
  }

  method CollectDuplicates(ds: map<string, Frame>) returns (rows: seq<DuplicateEntry>)
    ensures forall e :: e in rows <==> DuplicateReported(ds, ds.Keys, e)
    ensures |rows| == |ds| && NoRepeats(rows)
  {
    rows := [];
    var remaining := ds.Keys;
    while remaining != {}
      invariant remaining <= ds.Keys
      invariant forall e :: e in rows <==> DuplicateReported(ds, ds.Keys - remaining, e)
      invariant |rows| == |ds.Keys - remaining| && NoRepeats(rows)
      invariant forall e :: e in rows ==> e.dataset !in remaining
      decreases remaining
    {
      var name :| name in remaining;
      var e := DuplicateEntryOf(name, ds[name]);
      AppendFresh(rows, e);
      rows := rows + [e];
      assert ds.Keys - (remaining - {name}) == (ds.Keys - remaining) + {name};
      remaining := remaining - {name};
    }
  }

  function DuplicatePercentageOf(e: DuplicateEntry): real { e.duplicatePercentage }

  /** `check_duplicates` as written: with no dataset at all the sort raises KeyError. */
  function CheckDuplicatesAsWritten(rows: seq<DuplicateEntry>): (r: Outcome<seq<DuplicateEntry>, string>)
    ensures r.Failed? <==> rows == []
    ensures r.Ok? ==> forall i, j :: 0 <= i < j < |r.value| ==> r.value[i].duplicatePercentage >= r.value[j].duplicatePercentage
  {
    SortValuesAsWritten(rows, DuplicatePercentageOf, "Duplicate_Percentage")
  }

  /** With no dataset loaded the duplicate check as written raises. */
  lemma NoDatasetsCrashesDuplicateCheck(rows: seq<DuplicateEntry>)
    requires forall e :: e in rows <==> DuplicateReported(map[], {}, e)
    ensures CheckDuplicatesAsWritten(rows).Failed?
  {
    NoMembersEmpty(rows);
  }

  // =====================================================================
  // Dtype suggestions
  // =====================================================================

  function LowerChar(c: char): char
  {
    if 'A' <= c <= 'Z' then (c as int + 32) as char else c
  }

  /** `str.lower()` on ASCII letters. */
  function Lower(s: string): (r: string)
    ensures |r| == |s| && forall i :: 0 <= i < |s| ==> r[i] == LowerChar(s[i])
  {
    seq(|s|, i requires 0 <= i < |s| => LowerChar(s[i]))
  }

  /** The column name mentions a date: "date", "time" or "timestamp", in any case. */
  predicate DateLike(name: string)
  {
    var l := Lower(name);
    Contains(l, "date") || Contains(l, "time") || Contains(l, "timestamp")
  }

  /** Distinct non-missing values (`nunique()`). */
  function UniqueCount(c: Column): nat
  {
    |set v | v in c.cells && v != Missing|
  }

  /** An object column whose distinct values are fewer than a tenth of its length. */
  predicate FewDistinctObjects(c: Column)
  {
    c.dtype == "object" && UniqueCount(c) as real < |c.cells| as real * 0.1
  }

  predicate NeedsConversion(name: string, c: Column)
  {
    DateLike(name) || FewDistinctObjects(c)
  }

  function SuggestedType(name: string, c: Column): string
  {
    if DateLike(name) then "datetime64"
    else if FewDistinctObjects(c) then "category"
    else c.dtype
  }

  /**
   * The suggestion follows the same test as the conversion flag: a column
   * needing no conversion keeps its dtype, one needing conversion is sent
   * to datetime64 (date-like name) or category (an object column with few
   * distinct values).
   */
  lemma SuggestionAgreesWithFlag(name: string, c: Column)
    ensures !NeedsConversion(name, c) ==> SuggestedType(name, c) == c.dtype
    ensures NeedsConversion(name, c) ==> SuggestedType(name, c) in {"datetime64", "category"}
    ensures SuggestedType(name, c) == "category" && c.dtype != "category" ==> c.dtype == "object" && NeedsConversion(name, c)
    ensures FewDistinctObjects(c) <==> c.dtype == "object" && UniqueCount(c) * 10 < |c.cells|
  {
    TenthBound(UniqueCount(c), |c.cells|);
  }

  lemma TenthBound(u: nat, n: nat)
    ensures u as real < n as real * 0.1 <==> u * 10 < n
  {
    assert (u * 10) as real == u as real * 10.0;
  }

  /** Every timestamp column of the orders table is flagged for conversion. */
  lemma OrderDatesFlagged(c: Column)
    ensures NeedsConversion("order_purchase_timestamp", c)
    ensures NeedsConversion("order_delivered_customer_date", c)
  {
    assert OccursAt(Lower("order_purchase_timestamp"), "time", 15);
    assert OccursAt(Lower("order_delivered_customer_date"), "date", 25);
  }

  datatype TypeEntry = TypeEntry(
    dataset: string, column: string,
    currentType: string, uniqueValues: nat,
    needsConversion: bool, suggestedType: string)

  function TypeEntryOf(name: string, col: string, c: Column): TypeEntry
  {
    TypeEntry(name, col, c.dtype, UniqueCount(c), NeedsConversion(col, c), SuggestedType(col, c))
  }

  function TypeEntriesOf(name: string, f: Frame, cols: set<string>): set<TypeEntry>
  {
    set col | col in cols && col in f.columns :: TypeEntryOf(name, col, f.columns[col])
  }

  function TypeEntries(ds: map<string, Frame>, names: set<string>): set<TypeEntry>
  {
    set n, col | n in names && n in ds && col in ds[n].columns :: TypeEntryOf(n, col, ds[n].columns[col])
  }

  method TypesOfTable(name: string, f: Frame) returns (rows: seq<TypeEntry>)
    ensures forall e :: e in rows <==> e in TypeEntriesOf(name, f, f.columns.Keys)
    ensures |rows| == |f.columns| && NoRepeats(rows) && forall e :: e in rows ==> e.dataset == name
  {
    rows := [];
    var remaining := f.columns.Keys;
    while remaining != {}
      invariant remaining <= f.columns.Keys
      invariant forall e :: e in rows <==> e in TypeEntriesOf(name, f, f.columns.Keys - remaining)
      invariant |rows| == |f.columns.Keys - remaining| && NoRepeats(rows)
      invariant forall e :: e in rows ==> e.dataset == name && e.column !in remaining
      decreases remaining
    {
      var col :| col in remaining;
      rows := rows + [TypeEntryOf(name, col, f.columns[col])];
      assert f.columns.Keys - (remaining - {col}) == (f.columns.Keys - remaining) + {col};
      remaining := remaining - {col};
    }
  }

  method CollectTypes(ds: map<string, Frame>) returns (rows: seq<TypeEntry>)
    ensures forall e :: e in rows <==> e in TypeEntries(ds, ds.Keys)
    ensures NoRepeats(rows)
  {
    rows := [];
    var remaining := ds.Keys;
    while remaining != {}
      invariant remaining <= ds.Keys
      invariant forall e :: e in rows <==> e in TypeEntries(ds, ds.Keys - remaining)
      invariant NoRepeats(rows)
      invariant forall e :: e in rows ==> e.dataset !in remaining
      decreases remaining
    {
      var name :| name in remaining;
      var tableRows := TypesOfTable(name, ds[name]);
      rows := rows + tableRows;
      remaining := remaining - {name};
      assert forall e :: e in TypeEntries(ds, ds.Keys - remaining) <==>
        e in TypeEntries(ds, ds.Keys - remaining - {name}) || e in TypeEntriesOf(name, ds[name], ds[name].columns.Keys);
    }
  }

  // =====================================================================
  // Outliers
  // =====================================================================

  const NumericDtypes: seq<string> := ["int8", "int16", "int32", "int64", "uint8", "uint16", "uint32", "uint64", "float32", "float64"]

  /** Tukey's fences: 1.5 interquartile ranges beyond the quartiles. */
  function Fences(q1: real, q3: real): (b: (real, real))
    ensures q1 <= q3 ==> b.0 <= q1 <= q3 <= b.1
  {
    var iqr := q3 - q1;
    (q1 - 1.5 * iqr, q3 + 1.5 * iqr)
  }

  predicate IsOutlier(b: (real, real), x: real)
  {
    x < b.0 || x > b.1
  }

  datatype RangeEntry = RangeEntry(
    dataset: string, column: string,
    min: real, max: real, q1: real, q3: real,
    outliers: nat, outlierPercentage: real,
    severity: Severity)

  /**
   * The outlier row of a numeric column with values: quartiles by linear
   * interpolation, outliers beyond the fences, graded by their share.
   */
  function RangeEntryOf(name: string, col: string, values: seq<real>): (e: RangeEntry)
    requires |values| > 0
    ensures e.dataset == name && e.column == col
    ensures e.min <= e.q1 <= e.q3 <= e.max
    ensures e.min in values && e.max in values
    ensures forall i :: 0 <= i < |values| ==> e.min <= values[i] <= e.max
    ensures e.outliers <= |values| && 0.0 <= e.outlierPercentage <= 100.0
    ensures e.outliers == 0 <==> forall i :: 0 <= i < |values| ==> !IsOutlier(Fences(e.q1, e.q3), values[i])
    ensures e.severity == OutlierSeverity(e.outlierPercentage)
    ensures e.outliers > 0 ==> e.severity != NoIssue
  {
    var t := SortReals(values);
    QuantileMonotone(t, 1, 3, 4);
    var q1 := QuantileAt(t, 1, 4);
    var q3 := QuantileAt(t, 3, 4);
    var fences := Fences(q1, q3);
    var n := CountWhere(values, x => IsOutlier(fences, x));
    var p := Percent(n, |values|);
    SortedEnds(values, t);
    RangeEntry(name, col, t[0], t[|t| - 1], q1, q3, n, p, OutlierSeverity(p))
  }

  lemma SortedEnds(values: seq<real>, t: seq<real>)
    requires |values| > 0 && |t| == |values| && multiset(t) == multiset(values)
    ensures t[0] in values && t[|t| - 1] in values
    ensures Ascending(t) ==> forall i :: 0 <= i < |values| ==> t[0] <= values[i] <= t[|t| - 1]
  {
    assert t[0] in multiset(t) && t[|t| - 1] in multiset(t);
    if Ascending(t) {
      forall i | 0 <= i < |values| ensures t[0] <= values[i] <= t[|t| - 1] {
        assert values[i] in multiset(values);
        var k :| 0 <= k < |t| && t[k] == values[i];
      }
    }
  }

  predicate Analysed(c: Column)
  {
    c.dtype in NumericDtypes && |Numbers(c.cells)| > 0
  }

  /** `e` is the outlier row of a numeric column with values of a dataset among `names`. */
  predicate RangeReported(ds: map<string, Frame>, names: set<string>, e: RangeEntry)
  {
    e.dataset in names && e.dataset in ds && ColumnRange(e.dataset, ds[e.dataset], e)
  }

  /** `e` is the outlier row of a numeric column with values of frame `f`, reported as dataset `name`. */
  predicate ColumnRange(name: string, f: Frame, e: RangeEntry)
  {
    e.column in f.columns && Analysed(f.columns[e.column]) && e == RangeEntryOf(name, e.column, Numbers(f.columns[e.column].cells))
  }

  /** The outlier row of one column, when it is numeric and has values. */
  method RangeOfColumn(name: string, c: Column, col: string) returns (entry: Option<RangeEntry>)
    ensures entry.Some? <==> Analysed(c)
    ensures entry.Some? ==> entry.value == RangeEntryOf(name, col, Numbers(c.cells)) && entry.value.column == col && entry.value.dataset == name
  {
    entry := None;
    if c.dtype in NumericDtypes {
      var values := Numbers(c.cells);
      if |values| > 0 {
        entry := Some(RangeEntryOf(name, col, values));
      }
    }
  }

  method RangesOfTable(name: string, f: Frame) returns (rows: seq<RangeEntry>)
    ensures forall e :: e in rows <==> ColumnRange(name, f, e)
    ensures NoRepeats(rows) && forall e :: e in rows ==> e.dataset == name
  {
    rows := [];
    var remaining := f.columns.Keys;
    while remaining != {}
      invariant remaining <= f.columns.Keys
      invariant forall e :: e in rows <==> e.column !in remaining && ColumnRange(name, f, e)
      invariant NoRepeats(rows)
      invariant forall e :: e in rows ==> e.dataset == name && e.column !in remaining
      decreases remaining
    {
      var col :| col in remaining;
      var entry := RangeOfColumn(name, f.columns[col], col);
      if entry.Some? {
        AppendFresh(rows, entry.value);
        rows := rows + [entry.value];
      }
      remaining := remaining - {col};
    }
  }

  method CollectRanges(ds: map<string, Frame>) returns (rows: seq<RangeEntry>)
    ensures forall e :: e in rows <==> RangeReported(ds, ds.Keys, e)
    ensures NoRepeats(rows)
  {
    rows := [];
    var remaining := ds.Keys;
    while remaining != {}
      invariant remaining <= ds.Keys
      invariant forall e :: e in rows <==> RangeReported(ds, ds.Keys - remaining, e)
      invariant NoRepeats(rows)
      invariant forall e :: e in rows ==> e.dataset !in remaining
      decreases remaining
    {
      var name :| name in remaining;
      var tableRows := RangesOfTable(name, ds[name]);
      rows := rows + tableRows;
      remaining := remaining - {name};
    }
  }

  // =====================================================================
  // Foreign keys
  // =====================================================================

  datatype IntegrityEntry = IntegrityEntry(relationship: Relationship, check: KeyCheck)

  /** One row per relationship of `rels` whose tables and key columns are loaded, in order. */
  function IntegrityEntries(ds: map<string, Frame>, rels: seq<Relationship>): (r: seq<IntegrityEntry>)
    ensures |r| <= |rels|
    ensures forall e :: e in r ==>
      e.relationship in rels && Linked(ds, e.relationship)
      && e.check == CheckKeys(ParentKeys(ds, e.relationship), ChildKeys(ds, e.relationship))
    ensures forall x :: x in rels && Linked(ds, x) ==> exists e :: e in r && e.relationship == x
  {
    if rels == [] then []
    else
      var rest := IntegrityEntries(ds, rels[1..]);
      var r := rels[0];
      assert forall x :: x in rels <==> x == r || x in rels[1..];
      if Linked(ds, r) then
        var e := IntegrityEntry(r, CheckKeys(ParentKeys(ds, r), ChildKeys(ds, r)));
        assert e in [e] + rest;
        [e] + rest
      else rest
  }

  predicate HasIssues(e: IntegrityEntry) { e.check.status == Issues }

  /**
   * The issue filter as written: it reads the status column, which a frame
   * built from an empty list does not have, so it raises KeyError when no
   * relationship could be checked.
   */
  function IntegrityIssuesAsWritten(entries: seq<IntegrityEntry>): (r: Outcome<seq<IntegrityEntry>, string>)
    ensures r.Failed? <==> entries == []
  {
    if entries == [] then Failed("KeyError: 'Integrity_Status'") else Ok(IntegrityIssues(entries))
  }

  /** The relationships with orphaned keys, in order. */
  function IntegrityIssues(entries: seq<IntegrityEntry>): (r: seq<IntegrityEntry>)
    ensures forall e :: e in r <==> e in entries && HasIssues(e)
    ensures r == [] <==> !AnyIntegrityIssue(entries)
  {
    if entries == [] then []
    else
      var rest := IntegrityIssues(entries[1..]);
      assert forall x :: x in entries <==> x == entries[0] || x in entries[1..];
      if HasIssues(entries[0]) then [entries[0]] + rest else rest
  }

  /** With no table loaded, no relationship is checked and the filter as written raises. */
  lemma NoDatasetsCrashesIntegrityFilter()
    ensures IntegrityIssuesAsWritten(IntegrityEntries(map[], Relationships)).Failed?
  {
    NoMembersEmpty(IntegrityEntries(map[], Relationships));
  }

  // =====================================================================
  // Recommendations
  // =====================================================================

  /** The recommendations the report can make. */
  datatype Advice =
    | AddressCriticalMissing | ImputeHighMissing | RemoveDuplicates | ResolveIntegrity
    | ConvertDates | UseCategories | ValidateIngestion | MonitorQuality

  function AdviceText(a: Advice): string
  {
    match a
    case AddressCriticalMissing => "Address critical missing value issues (>50% missing) - consider if these columns are necessary"
    case ImputeHighMissing => "Implement imputation strategies for high missing value columns (20-50% missing)"
    case RemoveDuplicates => "Remove duplicate records, especially from geolocation dataset"
    case ResolveIntegrity => "Investigate and resolve foreign key integrity issues"
    case ConvertDates => "Convert date columns to proper datetime format"
    case UseCategories => "Consider converting categorical columns to category dtype for memory efficiency"
    case ValidateIngestion => "Create data validation rules for future data ingestion"
    case MonitorQuality => "Implement data quality monitoring for ongoing data updates"
  }

  /** Always given, last. */
  const GeneralRecommendations: seq<Advice> := [ConvertDates, UseCategories, ValidateIngestion, MonitorQuality]

  predicate AnyMissingOf(missing: seq<MissingEntry>, s: Severity)
  {
    exists e :: e in missing && e.severity == s
  }

  predicate AnySignificantDuplicates(dups: seq<DuplicateEntry>)
  {
    exists e :: e in dups && (e.severity == High || e.severity == Critical)
  }

  predicate AnyIntegrityIssue(integrity: seq<IntegrityEntry>)
  {
    exists e :: e in integrity && HasIssues(e)
  }

  function When(b: bool, a: Advice): (r: seq<Advice>)
    ensures forall x :: x in r <==> b && x == a
    ensures |r| <= 1
  {
    if b then [a] else []
  }

  /** Advice drawn from a finding, as opposed to the general items. */
  predicate IsFinding(a: Advice)
  {
    a.AddressCriticalMissing? || a.ImputeHighMissing? || a.RemoveDuplicates? || a.ResolveIntegrity?
  }

  /** The recommendations drawn from what the checks found, in the order the report gives them. */
  function Findings(critical: bool, high: bool, duplicates: bool, integrity: bool): (f: seq<Advice>)
    ensures |f| <= 4 && NoRepeats(f) && forall a :: a in f ==> IsFinding(a)
    ensures AddressCriticalMissing in f <==> critical
    ensures ImputeHighMissing in f <==> high
    ensures RemoveDuplicates in f <==> duplicates
    ensures ResolveIntegrity in f <==> integrity
  {
    var f := When(critical, AddressCriticalMissing) + When(high, ImputeHighMissing)
      + When(duplicates, RemoveDuplicates) + When(integrity, ResolveIntegrity);
    assert NoRepeats(f) by {
      forall i, j | 0 <= i < j < |f| ensures f[i] != f[j] {
        assert f[i] in f && f[j] in f;
      }
    }
    f
  }

  /** Findings without repeats, followed by the general items, repeat nothing and end with the general items. */
  lemma FindingsThenGeneral(f: seq<Advice>)
    requires |f| <= 4 && NoRepeats(f) && forall a :: a in f ==> IsFinding(a)
    ensures var r := f + GeneralRecommendations;
      && 4 <= |r| <= 8 && NoRepeats(r) && r[|r| - 4..] == GeneralRecommendations
      && forall a :: IsFinding(a) ==> (a in r <==> a in f)
  {
    var g := GeneralRecommendations;
    var r := f + g;
    forall i, j | 0 <= i < j < |r| ensures r[i] != r[j] {
      if j < |f| {
        assert r[i] == f[i] && r[j] == f[j];
      } else if i >= |f| {
        assert r[i] == g[i - |f|] && r[j] == g[j - |f|];
      } else {
        assert r[i] in f && r[j] == g[j - |f|];
      }
    }
    assert r[|r| - 4..] == g;
  }

  /** Some checked relationship of the schema has issues exactly when a linked one has a child key its parent lacks. */
  lemma IssuesIffOrphans(ds: map<string, Frame>)
    ensures AnyIntegrityIssue(IntegrityEntries(ds, Relationships)) <==>
      exists x :: x in Relationships && Linked(ds, x) && !(KeySet(ChildKeys(ds, x)) <= KeySet(ParentKeys(ds, x)))
  {
    var rows := IntegrityEntries(ds, Relationships);
    if exists x :: x in Relationships && Linked(ds, x) && !(KeySet(ChildKeys(ds, x)) <= KeySet(ParentKeys(ds, x))) {
      var x :| x in Relationships && Linked(ds, x) && !(KeySet(ChildKeys(ds, x)) <= KeySet(ParentKeys(ds, x)));
      var e :| e in rows && e.relationship == x;
      assert HasIssues(e);
    }
  }

  /** Some column of the datasets has missing values of severity `s`. */
  predicate MissingAt(ds: map<string, Frame>, s: Severity)
  {
    exists e :: e in MissingEntries(ds, ds.Keys) && e.severity == s
  }

  /** Some dataset has a HIGH or CRITICAL share of duplicate rows. */
  predicate SignificantDuplicatesIn(ds: map<string, Frame>)
  {
    exists n :: n in ds && DuplicateEntryOf(n, ds[n]).severity in {High, Critical}
  }

  /** Some relationship of the schema that can be checked has a child key its parent lacks. */
  predicate OrphansIn(ds: map<string, Frame>)
  {
    exists x :: x in Relationships && Linked(ds, x) && !(KeySet(ChildKeys(ds, x)) <= KeySet(ParentKeys(ds, x)))
  }

  /** The advice the datasets call for repeats nothing, ends with the general items and holds each finding exactly when it applies. */
  lemma AdviceOfDatasets(ds: map<string, Frame>)
    ensures var r := Findings(MissingAt(ds, Critical), MissingAt(ds, High), SignificantDuplicatesIn(ds), OrphansIn(ds))
      + GeneralRecommendations;
      && 4 <= |r| <= 8 && NoRepeats(r) && r[|r| - 4..] == GeneralRecommendations
      && (AddressCriticalMissing in r <==> MissingAt(ds, Critical))
      && (ImputeHighMissing in r <==> MissingAt(ds, High))
      && (RemoveDuplicates in r <==> SignificantDuplicatesIn(ds))
      && (ResolveIntegrity in r <==> OrphansIn(ds))
  {
    FindingsThenGeneral(Findings(MissingAt(ds, Critical), MissingAt(ds, High), SignificantDuplicatesIn(ds), OrphansIn(ds)));
  }

  /** Over the tables the three checks return, the advice is the one the datasets call for. */
  lemma RecommendationsOfDatasets(ds: map<string, Frame>, missing: seq<MissingEntry>, dups: seq<DuplicateEntry>,
                                  integrity: seq<IntegrityEntry>)
    requires forall e :: e in missing <==> e in MissingEntries(ds, ds.Keys)
    requires forall e :: e in dups <==> DuplicateReported(ds, ds.Keys, e)
    requires integrity == IntegrityEntries(ds, Relationships)
    ensures Recommendations(missing, dups, integrity) ==
      Findings(MissingAt(ds, Critical), MissingAt(ds, High), SignificantDuplicatesIn(ds), OrphansIn(ds)) + GeneralRecommendations
  {
    IssuesIffOrphans(ds);
    DuplicatesFound(ds, dups);
    assert AnyMissingOf(missing, Critical) == MissingAt(ds, Critical);
    assert AnyMissingOf(missing, High) == MissingAt(ds, High);
  }

  /** The duplicate table holds a significant row exactly when some dataset has significant duplicates. */
  lemma DuplicatesFound(ds: map<string, Frame>, dups: seq<DuplicateEntry>)
    requires forall e :: e in dups <==> DuplicateReported(ds, ds.Keys, e)
    ensures AnySignificantDuplicates(dups) <==> SignificantDuplicatesIn(ds)
  {
    if SignificantDuplicatesIn(ds) {
      var n :| n in ds && DuplicateEntryOf(n, ds[n]).severity in {High, Critical};
      assert DuplicateReported(ds, ds.Keys, DuplicateEntryOf(n, ds[n]));
    }
  }

  /** `_generate_recommendations`: the findings that apply, then the four general items. */
  function Recommendations(missing: seq<MissingEntry>, dups: seq<DuplicateEntry>, integrity: seq<IntegrityEntry>): (r: seq<Advice>)
    ensures 4 <= |r| <= 8 && NoRepeats(r)
    ensures r[|r| - 4..] == GeneralRecommendations
    ensures AddressCriticalMissing in r <==> AnyMissingOf(missing, Critical)
    ensures ImputeHighMissing in r <==> AnyMissingOf(missing, High)
    ensures RemoveDuplicates in r <==> AnySignificantDuplicates(dups)
    ensures ResolveIntegrity in r <==> AnyIntegrityIssue(integrity)
  {
    // Some relationship has issues exactly when `IntegrityIssues(integrity)` is non-empty (its contract).
    var f := Findings(AnyMissingOf(missing, Critical), AnyMissingOf(missing, High), AnySignificantDuplicates(dups), AnyIntegrityIssue(integrity));
    FindingsThenGeneral(f);
    f + GeneralRecommendations
  }

  // =====================================================================
  // The checker
  // =====================================================================

  class DataQualityChecker {
    var datasets: map<string, Frame>

    constructor(datasets: map<string, Frame>)
      ensures this.datasets == datasets
    {
      this.datasets := datasets;
    }

    /** `check_missing_values`, sorting an empty result to an empty table. */
    method CheckMissingValues() returns (rows: seq<MissingEntry>)
      ensures forall e :: e in rows <==> e in MissingEntries(datasets, datasets.Keys)
      ensures NoRepeats(rows)
      ensures forall i, j :: 0 <= i < j < |rows| ==> rows[i].missingPercentage >= rows[j].missingPercentage
    {
      var collected := CollectMissing(datasets);
      rows := SortDescending(collected, MissingPercentageOf);
      SameElements(collected, rows);
    }

    /** `check_duplicates`, one row per dataset, most duplicated first. */
    method CheckDuplicates() returns (rows: seq<DuplicateEntry>)
      ensures forall e :: e in rows <==> DuplicateReported(datasets, datasets.Keys, e)
      ensures |rows| == |datasets| && NoRepeats(rows)
      ensures forall i, j :: 0 <= i < j < |rows| ==> rows[i].duplicatePercentage >= rows[j].duplicatePercentage
    {
      var collected := CollectDuplicates(datasets);
      rows := SortDescending(collected, DuplicatePercentageOf);
      SameElements(collected, rows);
    }

    /** `check_data_types`: one row per column of every dataset. */
    method CheckDataTypes() returns (rows: seq<TypeEntry>)
      ensures forall e :: e in rows <==> e in TypeEntries(datasets, datasets.Keys)
      ensures NoRepeats(rows)
    {
      rows := CollectTypes(datasets);
    }

    /** `check_value_ranges`: one row per numeric column with values. */
    method CheckValueRanges() returns (rows: seq<RangeEntry>)
      ensures forall e :: e in rows <==> RangeReported(datasets, datasets.Keys, e)
      ensures NoRepeats(rows)
    {
      rows := CollectRanges(datasets);
    }

    /** `check_foreign_key_integrity`: the schema's relationships that can be checked, in order. */
    method CheckForeignKeyIntegrity() returns (rows: seq<IntegrityEntry>)
      ensures rows == IntegrityEntries(datasets, Relationships)
    {
      rows := [];
      var k := |Relationships|;
      while k > 0
        invariant 0 <= k <= |Relationships|
        invariant rows == IntegrityEntries(datasets, Relationships[k..])
      {
        k := k - 1;
        var r := Relationships[k];
        assert Relationships[k..][1..] == Relationships[k + 1..];
        if Linked(datasets, r) {
          rows := [IntegrityEntry(r, CheckKeys(ParentKeys(datasets, r), ChildKeys(datasets, r)))] + rows;
        }
      }
    }

    /**
     * The recommendations of `generate_comprehensive_report`: the findings
     * that the datasets call for, in the report's order, then the four
     * general items (AdviceOfDatasets says which and in what order).
     */
    method GenerateRecommendations() returns (recommendations: seq<Advice>)
      ensures recommendations == Findings(MissingAt(datasets, Critical), MissingAt(datasets, High),
        SignificantDuplicatesIn(datasets), OrphansIn(datasets)) + GeneralRecommendations
    {
      var missing := CheckMissingValues();
      var dups := CheckDuplicates();
      var integrity := CheckForeignKeyIntegrity();
      recommendations := Recommendations(missing, dups, integrity);
      RecommendationsOfDatasets(datasets, missing, dups, integrity);
    }
  }

  /** Two sequences with the same multiset have the same elements, and repeat none if one does not. */
  lemma SameElements<T>(a: seq<T>, b: seq<T>)
    requires multiset(a) == multiset(b)
    ensures forall x :: x in a <==> x in b
    ensures NoRepeats(a) ==> NoRepeats(b)
  {
    forall x ensures x in a <==> x in b {
      assert x in a <==> x in multiset(a);
      assert x in b <==> x in multiset(b);
    }
    if NoRepeats(a) {
      forall i, j | 0 <= i < j < |b| ensures b[i] != b[j] {
        RepeatCounted(b, i, j);
        UniqueOccurrence(a, b[i]);
      }
    }
  }

  lemma RepeatCounted<T>(b: seq<T>, i: nat, j: nat)
    requires i < j < |b|
    ensures b[i] == b[j] ==> multiset(b)[b[i]] >= 2
  {
    assert b == b[..i] + [b[i]] + b[i + 1..j] + [b[j]] + b[j + 1..];
  }

  lemma {:induction false} UniqueOccurrence<T>(a: seq<T>, x: T)
    requires NoRepeats(a)
    ensures multiset(a)[x] == if x in a then 1 else 0
  {
    if a != [] {
      assert a == [a[0]] + a[1..];
      assert NoRepeats(a[1..]) by {
        forall i, j | 0 <= i < j < |a[1..]| ensures a[1..][i] != a[1..][j] {
          assert a[1..][i] == a[i + 1] && a[1..][j] == a[j + 1];
        }
      }
      UniqueOccurrence(a[1..], x);
      assert forall k :: 0 <= k < |a[1..]| ==> a[1..][k] != a[0] by {
        forall k | 0 <= k < |a[1..]| ensures a[1..][k] != a[0] {
          assert a[1..][k] == a[k + 1];
        }
      }
      assert a[0] !in a[1..];
      assert x in a <==> x == a[0] || x in a[1..];
    }
  }
}
