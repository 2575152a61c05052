// Persisting the cleaned tables: each table is written as
// "cleaned_<name>.csv" next to two text reports, and reloading scans the
// directory, recovers table names from file names and restores the column
// types that a CSV round trip loses.
module CleanedData {
  import opened Common
  import opened Validation

  // =====================================================================
  // File-name codec
  // =====================================================================

  const Prefix: string := "cleaned_"
  const Suffix: string := ".csv"

  /** The file a table is saved to. */
  function FileName(name: string): (f: string)
    ensures StartsWith(f, Prefix) && EndsWith(f, Suffix)
    ensures |f| == |name| + |Prefix| + |Suffix|
  {
    var f := Prefix + name + Suffix;
    assert f[..|Prefix|] == Prefix;
    assert f[|f| - |Suffix|..] == Suffix;
    f
  }

  predicate StartsWith(s: string, p: string)
  {
    |p| <= |s| && s[..|p|] == p
  }

  predicate EndsWith(s: string, p: string)
  {
    |p| <= |s| && s[|s| - |p|..] == p
  }

  /** Python's `s.replace(pat, "")`: a left-to-right scan deleting non-overlapping occurrences. */
  function RemoveAll(s: string, pat: string): (r: string)
    requires |pat| > 0
    ensures |r| <= |s|
    decreases |s|
  {
    if |s| < |pat| then s
    else if s[..|pat|] == pat then RemoveAll(s[|pat|..], pat)
    else [s[0]] + RemoveAll(s[1..], pat)
  }

  /** The table name the loader derives from a file name, when it accepts the file. */
  function ParseName(file: string): (n: Option<string>)
    ensures n.Some? <==> StartsWith(file, Prefix) && EndsWith(file, Suffix)
    ensures n.Some? ==> |n.value| <= |file|
  {
    if StartsWith(file, Prefix) && EndsWith(file, Suffix) then
      Some(RemoveAll(RemoveAll(file, Prefix), Suffix))
    else None
  }

  lemma {:induction false} AbsentUnchanged(s: string, pat: string)
    requires |pat| > 0 && !Contains(s, pat)
    ensures RemoveAll(s, pat) == s
    decreases |s|
  {
    if |s| >= |pat| {
      assert !OccursAt(s, pat, 0);
      forall k | 0 <= k <= |s[1..]| - |pat| ensures !OccursAt(s[1..], pat, k) {
        assert !OccursAt(s, pat, k + 1);
        assert s[1..][k..k + |pat|] == s[k + 1..k + 1 + |pat|];
      }
      AbsentUnchanged(s[1..], pat);
      assert [s[0]] + s[1..] == s;
    }
  }

  lemma {:induction false} PresentShrinks(s: string, pat: string)
    requires |pat| > 0 && Contains(s, pat)
    ensures |RemoveAll(s, pat)| < |s|
    decreases |s|
  {
    var k :| 0 <= k <= |s| - |pat| && OccursAt(s, pat, k);
    if s[..|pat|] != pat {
      assert k != 0;
      assert s[1..][k - 1..k - 1 + |pat|] == s[k..k + |pat|];
      assert OccursAt(s[1..], pat, k - 1);
      PresentShrinks(s[1..], pat);
    }
  }

  /** Removing a pattern leaves a string unchanged exactly when the pattern does not occur in it. */
  lemma RemoveAllIdentity(s: string, pat: string)
    requires |pat| > 0
    ensures RemoveAll(s, pat) == s <==> !Contains(s, pat)
  {
    if Contains(s, pat) {
      PresentShrinks(s, pat);
    } else {
      AbsentUnchanged(s, pat);
    }
  }

  /**
   * A tail that is shorter than the pattern and starts with a character the
   * pattern lacks is never touched by the scan.
   */
  lemma {:induction false} RemoveBeforeForeignTail(x: string, tail: string, pat: string)
    requires |pat| > 0 && 0 < |tail| < |pat|
    requires forall i :: 0 <= i < |pat| ==> pat[i] != tail[0]
    ensures RemoveAll(x + tail, pat) == RemoveAll(x, pat) + tail
    decreases |x|
  {
    if x == [] {
      assert x + tail == tail;
    } else if |x| >= |pat| {
      assert (x + tail)[..|pat|] == x[..|pat|];
      if x[..|pat|] == pat {
        assert (x + tail)[|pat|..] == x[|pat|..] + tail;
        RemoveBeforeForeignTail(x[|pat|..], tail, pat);
      } else {
        assert (x + tail)[1..] == x[1..] + tail;
        RemoveBeforeForeignTail(x[1..], tail, pat);
      }
    } else if |x + tail| < |pat| {
      assert RemoveAll(x, pat) == x;
    } else {
      assert (x + tail)[..|pat|][|x|] == tail[0] != pat[|x|];
      assert (x + tail)[1..] == x[1..] + tail;
      RemoveBeforeForeignTail(x[1..], tail, pat);
      assert RemoveAll(x[1..], pat) == x[1..];
      assert [x[0]] + x[1..] == x;
    }
  }

  /**
   * When the first character of the pattern does not recur in it, a trailing
   * copy of the pattern is removed without disturbing what precedes it.
   */
  lemma {:induction false} RemoveTrailingPattern(m: string, pat: string)
    requires |pat| > 0
    requires forall i :: 1 <= i < |pat| ==> pat[i] != pat[0]
    ensures RemoveAll(m + pat, pat) == RemoveAll(m, pat)
    decreases |m|
  {
    if m == [] {
      assert m + pat == pat;
      assert pat[|pat|..] == [];
    } else if |m| >= |pat| {
      assert (m + pat)[..|pat|] == m[..|pat|];
      if m[..|pat|] == pat {
        assert (m + pat)[|pat|..] == m[|pat|..] + pat;
        RemoveTrailingPattern(m[|pat|..], pat);
      } else {
        assert (m + pat)[1..] == m[1..] + pat;
        RemoveTrailingPattern(m[1..], pat);
      }
    } else {
      assert (m + pat)[..|pat|][|m|] == pat[0] != pat[|m|];
      assert (m + pat)[1..] == m[1..] + pat;
      RemoveTrailingPattern(m[1..], pat);
      assert RemoveAll(m[1..], pat) == m[1..];
      assert [m[0]] + m[1..] == m;
    }
  }

  /** Decoding a saved file name deletes every occurrence of the two markers from the table name. */
  lemma {:induction false} ParseFileName(name: string)
    ensures ParseName(FileName(name)) == Some(RemoveAll(RemoveAll(name, Prefix), Suffix))
  {
    var f := FileName(name);
    assert f[..|Prefix|] == Prefix;
    assert f[|Prefix|..] == name + Suffix;
    assert RemoveAll(f, Prefix) == RemoveAll(name + Suffix, Prefix);
    RemoveBeforeForeignTail(name, Suffix, Prefix);
    RemoveTrailingPattern(RemoveAll(name, Prefix), Suffix);
  }

  /** A saved table loads under its own name exactly when its name contains neither marker. */
  lemma NameRoundTrip(name: string)
    ensures ParseName(FileName(name)) == Some(name) <==> !Contains(name, Prefix) && !Contains(name, Suffix)
  {
    ParseFileName(name);
    var m := RemoveAll(name, Prefix);
    if Contains(name, Prefix) {
      PresentShrinks(name, Prefix);
    } else {
      AbsentUnchanged(name, Prefix);
      RemoveAllIdentity(name, Suffix);
    }
  }

  /** A character of the pattern that `s` lacks rules the pattern out. */
  lemma MissingCharacter(s: string, pat: string, j: int)
    requires 0 <= j < |pat|
    requires forall i :: 0 <= i < |s| ==> s[i] != pat[j]
    ensures !Contains(s, pat)
  {
    forall k | 0 <= k <= |s| - |pat| ensures !OccursAt(s, pat, k) {
      assert s[k..k + |pat|][j] == s[k + j];
    }
  }

  /** The tables the cleaning pipeline produces. */
  const CleanedTables: seq<string> := [
    "customers", "sellers", "orders", "order_items", "order_payments",
    "order_reviews", "products", "product_categories", "geolocation"
  ]

  /** Every table the cleaner produces is reloaded under its own name. */
  lemma CleanedTablesRoundTrip()
    ensures forall n :: n in CleanedTables ==> ParseName(FileName(n)) == Some(n)
  {
    forall n | n in CleanedTables ensures ParseName(FileName(n)) == Some(n) {
      MissingCharacter(n, Suffix, 0);
      if n == "order_payments" {
        MissingCharacter(n, Prefix, 1);
      } else if n == "geolocation" {
        MissingCharacter(n, Prefix, 7);
      } else {
        MissingCharacter(n, Prefix, 4);
      }
      NameRoundTrip(n);
    }
  }

  // =====================================================================
  // Type restoration after a CSV round trip
  // =====================================================================

  /** The dtypes the loader restores: `datetime64[ns]` and `category`. */
  datatype Target = DateTime | Category

  datatype Conversion = Conversion(column: string, target: Target)

  /** The per-table conversions, in the order they are applied. */
  const TypeConversions: map<string, seq<Conversion>> := map[
    "orders" := [
      Conversion("order_purchase_timestamp", DateTime),
      Conversion("order_approved_at", DateTime),
      Conversion("order_delivered_carrier_date", DateTime),
      Conversion("order_delivered_customer_date", DateTime),
      Conversion("order_estimated_delivery_date", DateTime),
      Conversion("order_status", Category)],
    "customers" := [Conversion("customer_city", Category), Conversion("customer_state", Category)],
    "products" := [Conversion("product_category_name", Category)],
    "order_payments" := [Conversion("payment_type", Category)],
    "order_items" := [Conversion("seller_id", Category), Conversion("shipping_limit_date", DateTime)],
    "order_reviews" := [
      Conversion("review_comment_title", Category),
      Conversion("review_creation_date", DateTime),
      Conversion("review_answer_timestamp", DateTime)],
    "geolocation" := [Conversion("geolocation_city", Category), Conversion("geolocation_state", Category)],
    "sellers" := [Conversion("seller_state", Category)]
  ]

  /** The plan for a table; tables without one are loaded as read. */
  function PlanFor(name: string): (plan: seq<Conversion>)
    ensures name !in TypeConversions ==> plan == []
  {
    if name in TypeConversions then TypeConversions[name] else []
  }

  /**
   * Converting one column. A category conversion keeps the values and
   * changes the dtype; the date parse is a parameter (`pd.to_datetime` with
   * `errors='coerce'`), and `None` from it is a conversion that raised.
   */
  function Converted(c: Column, t: Target, toDatetime: Column -> Option<Column>): (r: Option<Column>)
    ensures t == Category ==> r == Some(Column("category", c.cells))
  {
    match t
    case Category => Some(Column("category", c.cells))
    case DateTime => toDatetime(c)
  }

  /** One conversion: applied only to a present column, and a failure keeps the column as loaded. */
  function ConvertOne(f: Frame, cv: Conversion, toDatetime: Column -> Option<Column>): (g: Frame)
    ensures g.rows == f.rows && g.columns.Keys == f.columns.Keys
    ensures forall col :: col in f.columns && col != cv.column ==> g.columns[col] == f.columns[col]
  {
    if cv.column in f.columns then
      match Converted(f.columns[cv.column], cv.target, toDatetime)
      case Some(c) => Frame(f.rows, f.columns[cv.column := c])
      case None => f
    else f
  }

  /** The column as it ends up after its conversion was attempted. */
  function Restored(c: Column, t: Target, toDatetime: Column -> Option<Column>): Column
  {
    match Converted(c, t, toDatetime)
    case Some(d) => d
    case None => c
  }

  /** A plan's conversions applied in order. */
  function ConvertAll(f: Frame, plan: seq<Conversion>, toDatetime: Column -> Option<Column>): (g: Frame)
    ensures g.rows == f.rows && g.columns.Keys == f.columns.Keys
    ensures forall col :: col in f.columns && (forall i :: 0 <= i < |plan| ==> plan[i].column != col) ==>
      g.columns[col] == f.columns[col]
  {
    if plan == [] then f
    else
      var init := plan[..|plan| - 1];
      var g := ConvertOne(ConvertAll(f, init, toDatetime), plan[|plan| - 1], toDatetime);
      assert forall i :: 0 <= i < |init| ==> init[i] == plan[i];
      g
  }

  predicate DistinctColumns(plan: seq<Conversion>)
  {
    forall i, j :: 0 <= i < j < |plan| ==> plan[i].column != plan[j].column
  }

  /** A planned column that is present ends up converted, or as loaded when its conversion raised. */
  lemma {:induction false} PlannedColumn(f: Frame, plan: seq<Conversion>, k: int, toDatetime: Column -> Option<Column>)
    requires DistinctColumns(plan) && 0 <= k < |plan| && plan[k].column in f.columns
    ensures ConvertAll(f, plan, toDatetime).columns[plan[k].column]
      == Restored(f.columns[plan[k].column], plan[k].target, toDatetime)
  {
    var init := plan[..|plan| - 1];
    var col := plan[k].column;
    if k == |plan| - 1 {
      assert forall i :: 0 <= i < |init| ==> init[i].column != col by {
        forall i | 0 <= i < |init| ensures init[i].column != col {
          assert init[i] == plan[i];
        }
      }
    } else {
      assert init[k] == plan[k];
      assert DistinctColumns(init) by {
        forall i, j | 0 <= i < j < |init| ensures init[i].column != init[j].column {
          assert init[i] == plan[i] && init[j] == plan[j];
        }
      }
      PlannedColumn(f, init, k, toDatetime);
    }
  }

  /** No table's plan names a column twice, so every planned column is converted once. */
  lemma TypeConversionsDistinct()
    ensures forall t :: t in TypeConversions ==> DistinctColumns(TypeConversions[t])
  {
  }

  // =====================================================================
  // Loading a directory
  // =====================================================================

  /** A directory entry: its file name and, when `read_csv` succeeds on it, the table it holds. */
  datatype Entry = Entry(name: string, contents: Option<Frame>)

  /** The loader reads the entry: its name is accepted and the file parses. */
  predicate Loadable(e: Entry)
  {
    ParseName(e.name).Some? && e.contents.Some?
  }

  /** The table a loadable entry contributes, with its types restored. */
  function Prepared(name: string, f: Frame, toDatetime: Column -> Option<Column>): Frame
  {
    ConvertAll(f, PlanFor(name), toDatetime)
  }

  /** The loaded tables after scanning `entries` in directory order; a later file with the same name replaces an earlier one. */
  function Loaded(entries: seq<Entry>, toDatetime: Column -> Option<Column>): map<string, Frame>
  {
    if entries == [] then map[]
    else
      var init := entries[..|entries| - 1];
      var e := entries[|entries| - 1];
      var prev := Loaded(init, toDatetime);
      assert forall i :: 0 <= i < |init| ==> init[i] == entries[i];
      if Loadable(e) then
        var n := ParseName(e.name).value;
        prev[n := Prepared(n, e.contents.value, toDatetime)]
      else prev
  }

  /** Every accepted, readable file contributes its table. */
  lemma {:induction false} LoadedComplete(entries: seq<Entry>, i: int, toDatetime: Column -> Option<Column>)
    requires 0 <= i < |entries| && Loadable(entries[i])
    ensures ParseName(entries[i].name).value in Loaded(entries, toDatetime)
  {
    var init := entries[..|entries| - 1];
    if i < |entries| - 1 {
      assert init[i] == entries[i];
      LoadedComplete(init, i, toDatetime);
    }
  }

  /** Every loaded table comes from an accepted, readable file that decodes to its name. */
  lemma {:induction false} LoadedSound(entries: seq<Entry>, n: string, toDatetime: Column -> Option<Column>)
    requires n in Loaded(entries, toDatetime)
    ensures exists i :: 0 <= i < |entries| && Loadable(entries[i]) && ParseName(entries[i].name) == Some(n)
  {
    var init := entries[..|entries| - 1];
    var e := entries[|entries| - 1];
    if !(Loadable(e) && ParseName(e.name) == Some(n)) {
      LoadedSound(init, n, toDatetime);
      var i :| 0 <= i < |init| && Loadable(init[i]) && ParseName(init[i].name) == Some(n);
      assert entries[i] == init[i];
    }
  }

  /** A table holds the contents of the last readable file that decodes to its name. */
  lemma {:induction false} LoadedFromLast(entries: seq<Entry>, i: int, toDatetime: Column -> Option<Column>)
    requires 0 <= i < |entries| && Loadable(entries[i])
    requires forall j :: i < j < |entries| && Loadable(entries[j]) ==> ParseName(entries[j].name) != ParseName(entries[i].name)
    ensures var n := ParseName(entries[i].name).value;
      n in Loaded(entries, toDatetime) && Loaded(entries, toDatetime)[n] == Prepared(n, entries[i].contents.value, toDatetime)
  {
    var init := entries[..|entries| - 1];
    if i < |entries| - 1 {
      assert init[i] == entries[i];
      forall j | i < j < |init| && Loadable(init[j]) ensures ParseName(init[j].name) != ParseName(init[i].name) {
        assert init[j] == entries[j];
      }
      LoadedFromLast(init, i, toDatetime);
    }
  }

  /** The conversion loop of the loader over one table's plan. */
  method RestoreTypes(f: Frame, plan: seq<Conversion>, toDatetime: Column -> Option<Column>) returns (g: Frame)
    ensures g == ConvertAll(f, plan, toDatetime)
  {
    g := f;
    for j := 0 to |plan|
      invariant g == ConvertAll(f, plan[..j], toDatetime)
    {
      assert plan[..j + 1][..j] == plan[..j];
      var cv := plan[j];
      if cv.column in g.columns {
        var converted := Converted(g.columns[cv.column], cv.target, toDatetime);
        if converted.Some? {
          g := Frame(g.rows, g.columns[cv.column := converted.value]);
        }
      }
    }
    assert plan[..|plan|] == plan;
  }

  /**
   * `load_cleaned_datasets`: a missing directory (`None`) gives no tables;
   * otherwise every file whose name carries both markers is read, skipped
   * when it cannot be parsed, and has its planned columns converted.
   */
  method LoadCleanedDatasets(listing: Option<seq<Entry>>, toDatetime: Column -> Option<Column>)
    returns (datasets: map<string, Frame>)
    ensures listing.None? ==> datasets == map[]
    ensures listing.Some? ==> datasets == Loaded(listing.value, toDatetime)
  {
    datasets := map[];
    if listing.None? {
      return;
    }
    var entries := listing.value;
    for i := 0 to |entries|
      invariant datasets == Loaded(entries[..i], toDatetime)
    {
      var e := entries[i];
      assert entries[..i + 1][..i] == entries[..i];
      if StartsWith(e.name, Prefix) && EndsWith(e.name, Suffix) {
        var name := RemoveAll(RemoveAll(e.name, Prefix), Suffix);
        if e.contents.Some? {
          var df := RestoreTypes(e.contents.value, PlanFor(name), toDatetime);
          datasets := datasets[name := df];
        }
      }
    }
    assert entries[..|entries|] == entries;
  }

  // =====================================================================
  // Saving and reloading
  // =====================================================================

  /** The directory after saving: one CSV per table in `order`, then the cleaning report and the summary. */
  function Saved(order: seq<string>, tables: map<string, Frame>): (entries: seq<Entry>)
    requires forall n :: n in order ==> n in tables
    ensures |entries| == |order| + 2
  {
    TableFiles(order, tables) + [Entry("cleaning_report.txt", None), Entry("datasets_summary.txt", None)]
  }

  function TableFiles(order: seq<string>, tables: map<string, Frame>): (entries: seq<Entry>)
    requires forall n :: n in order ==> n in tables
    ensures |entries| == |order|
  {
    if order == [] then []
    else
      var init := order[..|order| - 1];
      var last := order[|order| - 1];
      assert forall n :: n in init ==> n in order;
      TableFiles(init, tables) + [Entry(FileName(last), Some(tables[last]))]
  }

  /** The loader skips the two report files. */
  lemma ReportsSkipped()
    ensures ParseName("cleaning_report.txt").None? && ParseName("datasets_summary.txt").None?
  {
    assert "cleaning_report.txt"[5] != Prefix[5];
    assert "datasets_summary.txt"[0] != Prefix[0];
  }

  lemma LoadedAppend(entries: seq<Entry>, e: Entry, toDatetime: Column -> Option<Column>)
    ensures Loaded(entries + [e], toDatetime) == if Loadable(e) then
      var n := ParseName(e.name).value;
      Loaded(entries, toDatetime)[n := Prepared(n, e.contents.value, toDatetime)]
    else Loaded(entries, toDatetime)
  {
    assert (entries + [e])[..|entries|] == entries;
  }

  lemma {:induction false} LoadTableFiles(order: seq<string>, tables: map<string, Frame>, toDatetime: Column -> Option<Column>)
    requires forall n :: n in order ==> n in tables
    requires forall n :: n in order ==> ParseName(FileName(n)) == Some(n)
    ensures forall n :: n in Loaded(TableFiles(order, tables), toDatetime) <==> n in order
    ensures forall n :: n in order ==> Loaded(TableFiles(order, tables), toDatetime)[n] == Prepared(n, tables[n], toDatetime)
  {
    if order != [] {
      var files := TableFiles(order, tables);
      var init := order[..|order| - 1];
      var last := order[|order| - 1];
      LoadTableFiles(init, tables, toDatetime);
      assert last in order;
      LoadedAppend(TableFiles(init, tables), Entry(FileName(last), Some(tables[last])), toDatetime);
      var before := Loaded(TableFiles(init, tables), toDatetime);
      assert Loaded(files, toDatetime) == before[last := Prepared(last, tables[last], toDatetime)];
      assert order == init + [last];
      ExtendPrepared(before, init, last, tables, toDatetime);
    }
  }

  /** Adding the prepared table `last` to the tables prepared for `init` gives those prepared for `init + [last]`. */
  lemma ExtendPrepared(before: map<string, Frame>, init: seq<string>, last: string, tables: map<string, Frame>,
                       toDatetime: Column -> Option<Column>)
    requires last in tables && forall n :: n in init ==> n in tables
    requires forall n :: n in before <==> n in init
    requires forall n :: n in init ==> before[n] == Prepared(n, tables[n], toDatetime)
    ensures var after := before[last := Prepared(last, tables[last], toDatetime)];
      && (forall n :: n in after <==> n in init + [last])
      && (forall n :: n in init + [last] ==> after[n] == Prepared(n, tables[n], toDatetime))
  {
    forall n ensures n in init + [last] <==> n in init || n == last {
      assert n in init + [last] <==> n in init || n in [last];
    }
  }

  /**
   * Saving the cleaned tables and loading the directory back yields every
   * table under its own name, with its planned columns restored, as long as
   * no table name contains "cleaned_" or ".csv". The directory is taken to
   * hold only the files just saved: a `cleaned_*.csv` file left from an
   * earlier run would be loaded as well. Writing and reading a CSV file is
   * taken to be lossless: a frame is stored as a value, not as text.
   */
  lemma {:induction false} SaveThenLoad(order: seq<string>, tables: map<string, Frame>, toDatetime: Column -> Option<Column>)
    requires forall n :: n in order <==> n in tables
    requires forall n :: n in tables ==> !Contains(n, Prefix) && !Contains(n, Suffix)
    ensures var loaded := Loaded(Saved(order, tables), toDatetime);
      loaded.Keys == tables.Keys && forall n :: n in tables ==> loaded[n] == Prepared(n, tables[n], toDatetime)
  {
    var files := TableFiles(order, tables);
    forall n | n in order ensures ParseName(FileName(n)) == Some(n) {
      NameRoundTrip(n);
    }
    LoadTableFiles(order, tables, toDatetime);
    ReportsIgnored(files, toDatetime);
    assert Saved(order, tables) == files + [Entry("cleaning_report.txt", None), Entry("datasets_summary.txt", None)];
  }

  /** The two report files after the tables add nothing to what is loaded. */
  lemma ReportsIgnored(files: seq<Entry>, toDatetime: Column -> Option<Column>)
    ensures Loaded(files + [Entry("cleaning_report.txt", None), Entry("datasets_summary.txt", None)], toDatetime)
      == Loaded(files, toDatetime)
  {
    ReportsSkipped();
    var report := Entry("cleaning_report.txt", None);
    var summary := Entry("datasets_summary.txt", None);
    LoadedAppend(files, report, toDatetime);
    LoadedAppend(files + [report], summary, toDatetime);
    assert files + [report, summary] == files + [report] + [summary];
  }
}
