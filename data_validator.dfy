// The validator run on the cleaned datasets: completeness, dtype,
// business-rule, referential-integrity and range checks over generic data
// frames, with one pass flag that every failing check lowers for good.
module Validation {
  import opened Common
  import opened Stats
  import opened Tables

  // =====================================================================
  // Frames
  // =====================================================================

  /** One cell: missing (NaN/NaT/None), a number, a text or a timestamp. */
  datatype Value = Missing | Number(x: real) | Text(s: string) | Instant(t: Timestamp)

  /** A column: its dtype name as pandas prints it, and its cells. */
  datatype Column = Column(dtype: string, cells: seq<Value>)

  /** A data frame: its row count (`len(df)`) and its columns by name. */
  datatype Frame = Frame(rows: nat, columns: map<string, Column>)

  datatype Status = Pass | Fail | Warn

  predicate IsMissing(v: Value) { v.Missing? }

  /** The cell of row `i`; a short column reads as missing past its end. */
  function At(c: Column, i: nat): Value
  {
    if i < |c.cells| then c.cells[i] else Missing
  }

  // =====================================================================
  // Completeness of the critical columns
  // =====================================================================

  const CriticalColumns: map<string, seq<string>> := map[
    "orders" := ["order_id", "customer_id", "order_status", "order_purchase_timestamp"],
    "customers" := ["customer_id", "customer_state"],
    "products" := ["product_id", "product_category_name"],
    "order_items" := ["order_id", "product_id", "seller_id", "price"],
    "order_payments" := ["order_id", "payment_type", "payment_value"]
  ]

  datatype Completeness = Completeness(missingCount: nat, missingPercentage: Option<real>, status: Status)

  /** Missing cells in percent of the rows; not a number (here: missing) for a frame without rows. */
  function MissingPercentage(count: nat, rows: nat): (p: Option<real>)
    ensures p.Some? <==> rows > 0
    ensures p.Some? ==> p.value * rows as real == count as real * 100.0
  {
    if rows > 0 then Some(count as real / rows as real * 100.0) else None
  }

  /** A critical column passes when less than 1% of its rows are missing. */
  function CheckCompleteness(c: Column, rows: nat): (r: Completeness)
    ensures r.missingCount == CountWhere(c.cells, IsMissing)
    ensures r.status == Pass <==> rows > 0 && r.missingCount * 100 < rows
    ensures r.status != Warn
  {
    var n := CountWhere(c.cells, IsMissing);
    var p := MissingPercentage(n, rows);
    if p.Some? then
      BelowOnePercent(n, rows, p.value);
      Completeness(n, p, if p.value < 1.0 then Pass else Fail)
    else
      Completeness(n, p, Fail)
  }

  lemma BelowOnePercent(n: nat, rows: nat, p: real)
    requires rows > 0 && p * rows as real == n as real * 100.0
    ensures p < 1.0 <==> n * 100 < rows
  {
    var r := rows as real;
    assert (n * 100) as real == n as real * 100.0;
    SignOfProduct(p - 1.0, r);
    assert (p - 1.0) * r == p * r - r;
  }

  lemma SignOfProduct(a: real, r: real)
    requires r > 0.0
    ensures a < 0.0 ==> a * r < 0.0
    ensures a >= 0.0 ==> a * r >= 0.0
  {
  }

  /** Only a percentage of at least 1 lowers the pass flag; a NaN percentage compares false. */
  predicate LowersFlag(r: Completeness)
  {
    r.missingPercentage.Some? && r.missingPercentage.value >= 1.0
  }

  /**
   * A column lowers the flag exactly when at least 1% of a non-empty
   * frame's rows are missing, and then it is reported FAIL. A frame with
   * no rows has a NaN percentage: it is reported FAIL without lowering
   * the flag.
   */
  lemma CompletenessVerdict(c: Column, rows: nat)
    ensures var r := CheckCompleteness(c, rows);
      && (LowersFlag(r) <==> rows > 0 && r.missingCount * 100 >= rows)
      && (LowersFlag(r) ==> r.status == Fail)
      && (rows == 0 ==> r.status == Fail && !LowersFlag(r))
  {
    var r := CheckCompleteness(c, rows);
    if rows > 0 {
      BelowOnePercent(r.missingCount, rows, r.missingPercentage.value);
    }
  }

  /** The completeness of a column present in the frame. */
  function CompletenessOf(f: Frame): string -> Option<Completeness>
  {
    c => if c in f.columns then Some(CheckCompleteness(f.columns[c], f.rows)) else None
  }

  function TableCompleteness(f: Frame, cols: seq<string>): map<string, Completeness>
  {
    Collect((set c | c in cols), CompletenessOf(f))
  }

  predicate TableIncomplete(f: Frame, cols: seq<string>)
  {
    exists c :: c in cols && c in f.columns && LowersFlag(CheckCompleteness(f.columns[c], f.rows))
  }

  /** `validate_data_completeness`: the critical columns of every loaded critical table. */
  function CompletenessResults(ds: map<string, Frame>): map<string, map<string, Completeness>>
  {
    Collect(CriticalColumns.Keys, TableCompletenessOf(ds))
  }

  /** The completeness results of a loaded critical table. */
  function TableCompletenessOf(ds: map<string, Frame>): string -> Option<map<string, Completeness>>
  {
    t => if t in CriticalColumns && t in ds then Some(TableCompleteness(ds[t], CriticalColumns[t])) else None
  }

  predicate IncompleteAmong(ds: map<string, Frame>, names: set<string>)
  {
    exists t :: t in names && t in CriticalColumns && t in ds && TableIncomplete(ds[t], CriticalColumns[t])
  }

  predicate CompletenessFails(ds: map<string, Frame>)
  {
    IncompleteAmong(ds, CriticalColumns.Keys)
  }

  /** Some reported column of one table lowers the flag. */
  predicate TableLowersFlag(tr: map<string, Completeness>)
  {
    exists c :: c in tr && LowersFlag(tr[c])
  }

  /** Some reported column lowers the flag. */
  predicate IncompletenessReported(res: map<string, map<string, Completeness>>)
  {
    exists t :: t in res && TableLowersFlag(res[t])
  }

  /** In one table, a critical column lowers the flag exactly when a reported column does. */
  lemma TableIncompleteIffReported(f: Frame, cols: seq<string>)
    ensures TableIncomplete(f, cols) <==> TableLowersFlag(TableCompleteness(f, cols))
  {
    var tr := TableCompleteness(f, cols);
    if TableIncomplete(f, cols) {
      var c :| c in cols && c in f.columns && LowersFlag(CheckCompleteness(f.columns[c], f.rows));
      CollectAt((set c | c in cols), CompletenessOf(f), c);
      assert c in tr && LowersFlag(tr[c]);
    }
    if TableLowersFlag(tr) {
      var c :| c in tr && LowersFlag(tr[c]);
      CollectAt((set c | c in cols), CompletenessOf(f), c);
    }
  }

  /** The completeness check lowers the flag exactly when one of its reported columns does. */
  lemma CompletenessFailsIffReported(ds: map<string, Frame>)
    ensures CompletenessFails(ds) <==> IncompletenessReported(CompletenessResults(ds))
  {
    var res := CompletenessResults(ds);
    if CompletenessFails(ds) {
      var t :| t in CriticalColumns && t in ds && TableIncomplete(ds[t], CriticalColumns[t]);
      CollectAt(CriticalColumns.Keys, TableCompletenessOf(ds), t);
      TableIncompleteIffReported(ds[t], CriticalColumns[t]);
      assert t in res && TableLowersFlag(res[t]);
    }
    if IncompletenessReported(res) {
      var t :| t in res && TableLowersFlag(res[t]);
      CollectAt(CriticalColumns.Keys, TableCompletenessOf(ds), t);
      TableIncompleteIffReported(ds[t], CriticalColumns[t]);
    }
  }

  method CompletenessOfTable(f: Frame, cols: seq<string>) returns (tr: map<string, Completeness>, incomplete: bool)
    ensures tr == TableCompleteness(f, cols) && incomplete == TableIncomplete(f, cols)
  {
    tr := map[];
    incomplete := false;
    for j := 0 to |cols|
      invariant tr == TableCompleteness(f, cols[..j])
      invariant incomplete == TableIncomplete(f, cols[..j])
    {
      var col := cols[j];
      assert cols[..j + 1] == cols[..j] + [col];
      CollectStep((set c | c in cols[..j]), CompletenessOf(f), col);
      if col in f.columns {
        var r := CheckCompleteness(f.columns[col], f.rows);
        tr := tr[col := r];
        if LowersFlag(r) {
          incomplete := true;
        }
      }
    }
    assert cols[..|cols|] == cols;
  }

  /** The completeness loop of `validate_data_completeness`, over the critical tables that are loaded. */
  method CompletenessOfTables(ds: map<string, Frame>)
    returns (results: map<string, map<string, Completeness>>, incomplete: bool)
    ensures results == CompletenessResults(ds) && incomplete == CompletenessFails(ds)
  {
    results := map[];
    incomplete := false;
    var remaining := CriticalColumns.Keys;
    while remaining != {}
      invariant remaining <= CriticalColumns.Keys
      invariant results == Collect(CriticalColumns.Keys - remaining, TableCompletenessOf(ds))
      invariant incomplete == IncompleteAmong(ds, CriticalColumns.Keys - remaining)
      decreases remaining
    {
      var name :| name in remaining;
      CollectStep(CriticalColumns.Keys - remaining, TableCompletenessOf(ds), name);
      assert CriticalColumns.Keys - (remaining - {name}) == (CriticalColumns.Keys - remaining) + {name};
      if name in ds {
        var tr, bad := CompletenessOfTable(ds[name], CriticalColumns[name]);
        results := results[name := tr];
        if bad {
          incomplete := true;
        }
      }
      remaining := remaining - {name};
    }
    assert CriticalColumns.Keys - remaining == CriticalColumns.Keys;
  }

  // =====================================================================
  // Column dtypes
  // =====================================================================

  /** One accepted dtype, or a list of accepted dtypes. */
  datatype Expected = Exactly(dtype: string) | AnyOf(dtypes: seq<string>)

  const ExpectedTypes: map<string, map<string, Expected>> := map[
    "orders" := map[
      "order_purchase_timestamp" := Exactly("datetime64[ns]"),
      "order_approved_at" := Exactly("datetime64[ns]"),
      "order_delivered_carrier_date" := Exactly("datetime64[ns]"),
      "order_delivered_customer_date" := Exactly("datetime64[ns]"),
      "order_estimated_delivery_date" := Exactly("datetime64[ns]"),
      "order_status" := Exactly("category"),
      "delivery_days" := AnyOf(["int64", "float64"]),
      "order_year" := AnyOf(["int64", "int32"]),
      "order_month" := AnyOf(["int64", "int32"])],
    "products" := map[
      "product_category_name" := Exactly("category"),
      "product_weight_g" := Exactly("float64"),
      "product_length_cm" := Exactly("float64"),
      "product_height_cm" := Exactly("float64"),
      "product_width_cm" := Exactly("float64"),
      "product_volume_cm3" := Exactly("float64")],
    "customers" := map[
      "customer_city" := Exactly("category"),
      "customer_state" := Exactly("category")],
    "order_payments" := map[
      "payment_type" := Exactly("category")]
  ]

  datatype TypeCheck = TypeCheck(expected: Expected, actual: string, status: Status)

  /** A dtype passes by membership when a list is expected and by equality otherwise. */
  function CheckType(c: Column, e: Expected): (r: TypeCheck)
    ensures r.expected == e && r.actual == c.dtype
    ensures e.AnyOf? ==> (r.status == Pass <==> c.dtype in e.dtypes)
    ensures e.Exactly? ==> (r.status == Pass <==> c.dtype == e.dtype)
    ensures r.status != Warn
  {
    var matches := match e
      case Exactly(t) => c.dtype == t
      case AnyOf(ts) => c.dtype in ts;
    TypeCheck(e, c.dtype, if matches then Pass else Fail)
  }

  /** The dtype check of an expected column present in the frame. */
  function TypeCheckOf(f: Frame, exp: map<string, Expected>): string -> Option<TypeCheck>
  {
    c => if c in exp && c in f.columns then Some(CheckType(f.columns[c], exp[c])) else None
  }

  function TableTypes(f: Frame, exp: map<string, Expected>, cols: set<string>): map<string, TypeCheck>
  {
    Collect(cols, TypeCheckOf(f, exp))
  }

  predicate Mistyped(f: Frame, exp: map<string, Expected>, cols: set<string>)
  {
    exists c :: c in cols && c in exp && c in f.columns && CheckType(f.columns[c], exp[c]).status == Fail
  }

  /** `validate_data_types` against an expectation table: the expected columns of every loaded table. */
  function TypeResultsFor(ds: map<string, Frame>, exp: map<string, map<string, Expected>>): map<string, map<string, TypeCheck>>
  {
    Collect(exp.Keys, TableTypesOf(ds, exp))
  }

  /** The dtype results of a loaded table with expectations. */
  function TableTypesOf(ds: map<string, Frame>, exp: map<string, map<string, Expected>>): string -> Option<map<string, TypeCheck>>
  {
    t => if t in exp && t in ds then Some(TableTypes(ds[t], exp[t], exp[t].Keys)) else None
  }

  function TypeResults(ds: map<string, Frame>): map<string, map<string, TypeCheck>>
  {
    TypeResultsFor(ds, ExpectedTypes)
  }

  predicate MistypedAmong(ds: map<string, Frame>, exp: map<string, map<string, Expected>>, names: set<string>)
  {
    exists t :: t in names && t in exp && t in ds && Mistyped(ds[t], exp[t], exp[t].Keys)
  }

  predicate TypesFail(ds: map<string, Frame>)
  {
    MistypedAmong(ds, ExpectedTypes, ExpectedTypes.Keys)
  }

  /** Some reported dtype of one table is FAIL. */
  predicate TableTypeFail(tr: map<string, TypeCheck>)
  {
    exists c :: c in tr && tr[c].status == Fail
  }

  /** Some reported dtype is FAIL. */
  predicate TypeFailReported(res: map<string, map<string, TypeCheck>>)
  {
    exists t :: t in res && TableTypeFail(res[t])
  }

  /** In one table, some expected column is mistyped exactly when a reported column is FAIL. */
  lemma TableMistypedIffReported(f: Frame, exp: map<string, Expected>)
    ensures Mistyped(f, exp, exp.Keys) <==> TableTypeFail(TableTypes(f, exp, exp.Keys))
  {
    var tr := TableTypes(f, exp, exp.Keys);
    if Mistyped(f, exp, exp.Keys) {
      var c :| c in exp && c in f.columns && CheckType(f.columns[c], exp[c]).status == Fail;
      CollectAt(exp.Keys, TypeCheckOf(f, exp), c);
      assert c in tr && tr[c].status == Fail;
    }
    if TableTypeFail(tr) {
      var c :| c in tr && tr[c].status == Fail;
      CollectAt(exp.Keys, TypeCheckOf(f, exp), c);
    }
  }

  /** Against any expectation table, some expected column is mistyped exactly when a reported column is FAIL. */
  lemma MistypedIffReported(ds: map<string, Frame>, exp: map<string, map<string, Expected>>)
    ensures MistypedAmong(ds, exp, exp.Keys) <==> TypeFailReported(TypeResultsFor(ds, exp))
  {
    var res := TypeResultsFor(ds, exp);
    if MistypedAmong(ds, exp, exp.Keys) {
      var t :| t in exp && t in ds && Mistyped(ds[t], exp[t], exp[t].Keys);
      CollectAt(exp.Keys, TableTypesOf(ds, exp), t);
      TableMistypedIffReported(ds[t], exp[t]);
      assert t in res && TableTypeFail(res[t]);
    }
    if TypeFailReported(res) {
      var t :| t in res && TableTypeFail(res[t]);
      CollectAt(exp.Keys, TableTypesOf(ds, exp), t);
      TableMistypedIffReported(ds[t], exp[t]);
    }
  }

  /** The dtype check lowers the flag exactly when one of its reported columns is FAIL. */
  lemma TypesFailIffReported(ds: map<string, Frame>)
    ensures TypesFail(ds) <==> TypeFailReported(TypeResults(ds))
  {
    MistypedIffReported(ds, ExpectedTypes);
  }

  method TypesOfTable(f: Frame, exp: map<string, Expected>) returns (tr: map<string, TypeCheck>, mistyped: bool)
    ensures tr == TableTypes(f, exp, exp.Keys) && mistyped == Mistyped(f, exp, exp.Keys)
  {
    tr := map[];
    mistyped := false;
    var remaining := exp.Keys;
    while remaining != {}
      invariant remaining <= exp.Keys
      invariant tr == TableTypes(f, exp, exp.Keys - remaining)
      invariant mistyped == Mistyped(f, exp, exp.Keys - remaining)
      decreases remaining
    {
      var col :| col in remaining;
      CollectStep(exp.Keys - remaining, TypeCheckOf(f, exp), col);
      assert exp.Keys - (remaining - {col}) == (exp.Keys - remaining) + {col};
      if col in f.columns {
        var r := CheckType(f.columns[col], exp[col]);
        tr := tr[col := r];
        if r.status == Fail {
          mistyped := true;
        }
      }
      remaining := remaining - {col};
    }
  }

  method TypesOfTables(ds: map<string, Frame>, exp: map<string, map<string, Expected>>)
    returns (results: map<string, map<string, TypeCheck>>, mistyped: bool)
    ensures results == TypeResultsFor(ds, exp) && mistyped == MistypedAmong(ds, exp, exp.Keys)
  {
    results := map[];
    mistyped := false;
    var remaining := exp.Keys;
    while remaining != {}
      invariant remaining <= exp.Keys
      invariant results == Collect(exp.Keys - remaining, TableTypesOf(ds, exp))
      invariant mistyped == MistypedAmong(ds, exp, exp.Keys - remaining)
      decreases remaining
    {
      var name :| name in remaining;
      CollectStep(exp.Keys - remaining, TableTypesOf(ds, exp), name);
      assert exp.Keys - (remaining - {name}) == (exp.Keys - remaining) + {name};
      if name in ds {
        var tr, bad := TypesOfTable(ds[name], exp[name]);
        results := results[name := tr];
        if bad {
          mistyped := true;
        }
      }
      remaining := remaining - {name};
    }
  }

  // =====================================================================
  // Business rules
  // =====================================================================

  datatype RuleCheck = RuleCheck(invalidCount: nat, checked: nat, status: Status)

  /** A rule passes when no row breaks it. */
  function Rule(invalid: nat, checked: nat): (r: RuleCheck)
    ensures r.invalidCount == invalid && r.checked == checked
    ensures r.status == Pass <==> invalid == 0
    ensures r.status != Warn
  {
    RuleCheck(invalid, checked, if invalid == 0 then Pass else Fail)
  }

  /** `<` between two cells: false whenever a side is missing or the kinds differ (NaN and NaT compare false). */
  predicate Before(a: Value, b: Value)
  {
    (a.Number? && b.Number? && a.x < b.x) || (a.Instant? && b.Instant? && a.t < b.t)
  }

  function DatePairs(f: Frame, later: string, earlier: string): seq<(Value, Value)>
    requires later in f.columns && earlier in f.columns
  {
    seq(f.rows, i requires 0 <= i < f.rows => (At(f.columns[later], i), At(f.columns[earlier], i)))
  }

  predicate BothPresent(p: (Value, Value)) { p.0 != Missing && p.1 != Missing }

  predicate BrokenOrder(p: (Value, Value)) { BothPresent(p) && Before(p.0, p.1) }

  predicate IsNegative(v: Value) { v.Number? && v.x < 0.0 }

  predicate IsNonPositive(v: Value) { v.Number? && v.x <= 0.0 }

  /**
   * Rule "delivery after purchase": counted over the rows where both dates
   * are present, and only reported when there is such a row.
   */
  function DeliveryAfterPurchase(f: Frame): (r: Option<RuleCheck>)
    requires "order_delivered_customer_date" in f.columns && "order_purchase_timestamp" in f.columns
    ensures var pairs := DatePairs(f, "order_delivered_customer_date", "order_purchase_timestamp");
      && (r.Some? <==> exists i :: 0 <= i < |pairs| && BothPresent(pairs[i]))
      && (r.Some? ==> r.value.invalidCount <= r.value.checked)
      && (r.Some? ==> (r.value.status == Pass <==> forall i :: 0 <= i < |pairs| ==> !BrokenOrder(pairs[i])))
  {
    var pairs := DatePairs(f, "order_delivered_customer_date", "order_purchase_timestamp");
    var checked := CountWhere(pairs, BothPresent);
    if checked > 0 then
      BrokenOnlyAmongPresent(pairs);
      Some(Rule(CountWhere(pairs, BrokenOrder), checked))
    else None
  }

  lemma {:induction false} BrokenOnlyAmongPresent(pairs: seq<(Value, Value)>)
    ensures CountWhere(pairs, BrokenOrder) <= CountWhere(pairs, BothPresent)
  {
    if pairs != [] {
      BrokenOnlyAmongPresent(pairs[1..]);
    }
  }

  /** The order rules: delivery after purchase (both dates present) and non-negative delivery days. */
  function OrderRules(f: Frame): map<string, RuleCheck>
  {
    var m := if "order_delivered_customer_date" in f.columns && "order_purchase_timestamp" in f.columns
        && DeliveryAfterPurchase(f).Some?
      then map["delivery_after_purchase" := DeliveryAfterPurchase(f).value]
      else map[];
    if "delivery_days" in f.columns then
      m["positive_delivery_days" := Rule(CountWhere(f.columns["delivery_days"].cells, IsNegative), f.rows)]
    else m
  }

  const DimensionColumns: seq<string> := ["product_weight_g", "product_length_cm", "product_height_cm", "product_width_cm"]

  function NonPositiveRule(f: Frame, col: string): RuleCheck
    requires col in f.columns
  {
    Rule(CountWhere(f.columns[col].cells, IsNonPositive), f.rows)
  }

  /** One "positive_<column>" rule per present column of `cols`. */
  function DimensionRules(f: Frame, cols: seq<string>): map<string, RuleCheck>
  {
    if cols == [] then map[]
    else
      var col := cols[|cols| - 1];
      var m := DimensionRules(f, cols[..|cols| - 1]);
      if col in f.columns then m["positive_" + col := NonPositiveRule(f, col)] else m
  }

  /** The product table has a dimension column with a non-positive value. */
  predicate DimensionBroken(f: Frame, cols: seq<string>)
  {
    exists k :: 0 <= k < |cols| && cols[k] in f.columns && NonPositiveRule(f, cols[k]).status == Fail
  }

  lemma RuleNameInjective(a: string, b: string)
    requires "positive_" + a == "positive_" + b
    ensures a == b
  {
    assert ("positive_" + a)[9..] == a;
    assert ("positive_" + b)[9..] == b;
  }

  /** Every reported dimension rule is named after a present column of `cols`. */
  lemma {:induction false} DimensionRuleNames(f: Frame, cols: seq<string>)
    ensures forall n :: n in DimensionRules(f, cols) ==>
      exists k :: 0 <= k < |cols| && cols[k] in f.columns && n == "positive_" + cols[k]
  {
    if cols != [] {
      var init := cols[..|cols| - 1];
      DimensionRuleNames(f, init);
      forall n | n in DimensionRules(f, cols)
        ensures exists k :: 0 <= k < |cols| && cols[k] in f.columns && n == "positive_" + cols[k]
      {
        if n != "positive_" + cols[|cols| - 1] || cols[|cols| - 1] !in f.columns {
          assert n in DimensionRules(f, init);
          var k :| 0 <= k < |init| && init[k] in f.columns && n == "positive_" + init[k];
          assert cols[k] == init[k];
        }
      }
    }
  }

  /** With distinct column names, each present column's rule is reported under its own name. */
  lemma {:induction false} DimensionRuleAt(f: Frame, cols: seq<string>, k: int)
    requires forall i, j :: 0 <= i < j < |cols| ==> cols[i] != cols[j]
    requires 0 <= k < |cols| && cols[k] in f.columns
    ensures "positive_" + cols[k] in DimensionRules(f, cols)
    ensures DimensionRules(f, cols)["positive_" + cols[k]] == NonPositiveRule(f, cols[k])
  {
    var init := cols[..|cols| - 1];
    var col := cols[|cols| - 1];
    if k < |cols| - 1 {
      assert init[k] == cols[k];
      DimensionRuleAt(f, init, k);
      if "positive_" + col == "positive_" + cols[k] {
        RuleNameInjective(col, cols[k]);
      }
    }
  }

  /** With distinct column names, a dimension rule is reported FAIL exactly when a column has a non-positive value. */
  lemma DimensionRulesFail(f: Frame, cols: seq<string>)
    requires forall i, j :: 0 <= i < j < |cols| ==> cols[i] != cols[j]
    ensures DimensionBroken(f, cols) <==>
      exists n :: n in DimensionRules(f, cols) && DimensionRules(f, cols)[n].status == Fail
  {
    var m := DimensionRules(f, cols);
    if DimensionBroken(f, cols) {
      var k :| 0 <= k < |cols| && cols[k] in f.columns && NonPositiveRule(f, cols[k]).status == Fail;
      DimensionRuleAt(f, cols, k);
    }
    if exists n :: n in m && m[n].status == Fail {
      var n :| n in m && m[n].status == Fail;
      DimensionRuleNames(f, cols);
      var k :| 0 <= k < |cols| && cols[k] in f.columns && n == "positive_" + cols[k];
      DimensionRuleAt(f, cols, k);
    }
  }

  lemma DimensionColumnsDistinct()
    ensures forall i, j :: 0 <= i < j < |DimensionColumns| ==> DimensionColumns[i] != DimensionColumns[j]
  {
    var initials := ['w', 'l', 'h', 'w'];
    forall i | 0 <= i < |DimensionColumns| ensures DimensionColumns[i][8] == initials[i] { }
    assert DimensionColumns[0][9] != DimensionColumns[3][9];
  }

  /** The payment rule: payment values must be positive. */
  function PaymentRules(f: Frame): map<string, RuleCheck>
  {
    if "payment_value" in f.columns then map["positive_payment_value" := NonPositiveRule(f, "payment_value")]
    else map[]
  }

  /** `validate_business_rules`: order, product and payment rules of the loaded tables. */
  function BusinessRules(ds: map<string, Frame>): map<string, map<string, RuleCheck>>
  {
    var a := if "orders" in ds then map["orders" := OrderRules(ds["orders"])] else map[];
    var b := if "products" in ds then a["products" := DimensionRules(ds["products"], DimensionColumns)] else a;
    if "order_payments" in ds then b["order_payments" := PaymentRules(ds["order_payments"])] else b
  }

  predicate Violated(rules: map<string, RuleCheck>)
  {
    exists n :: n in rules && rules[n].status == Fail
  }

  /** Some rule of a loaded table is broken; the dimension rules count their columns one by one. */
  predicate RulesFail(ds: map<string, Frame>)
  {
    || ("orders" in ds && Violated(OrderRules(ds["orders"])))
    || ("products" in ds && DimensionBroken(ds["products"], DimensionColumns))
    || ("order_payments" in ds && Violated(PaymentRules(ds["order_payments"])))
  }

  /** The business-rule check lowers the flag exactly when one of its reported rules is FAIL. */
  lemma RulesFailIffReported(ds: map<string, Frame>)
    ensures var res := BusinessRules(ds);
      RulesFail(ds) <==> exists t :: t in res && Violated(res[t])
  {
    var res := BusinessRules(ds);
    assert "orders" in ds ==> "orders" in res && res["orders"] == OrderRules(ds["orders"]);
    assert "products" in ds ==> "products" in res && res["products"] == DimensionRules(ds["products"], DimensionColumns);
    assert "order_payments" in ds ==> "order_payments" in res && res["order_payments"] == PaymentRules(ds["order_payments"]);
    assert forall t :: t in res ==> t == "orders" || t == "products" || t == "order_payments";
    if "products" in ds {
      DimensionColumnsDistinct();
      DimensionRulesFail(ds["products"], DimensionColumns);
      assert DimensionBroken(ds["products"], DimensionColumns) <==> Violated(res["products"]);
    }
    if RulesFail(ds) {
      if "orders" in ds && Violated(OrderRules(ds["orders"])) {
        assert Violated(res["orders"]);
      } else if "products" in ds && DimensionBroken(ds["products"], DimensionColumns) {
        assert Violated(res["products"]);
      } else {
        assert Violated(res["order_payments"]);
      }
    }
  }

  method DimensionRulesOf(f: Frame) returns (rules: map<string, RuleCheck>, broken: bool)
    ensures rules == DimensionRules(f, DimensionColumns) && broken == DimensionBroken(f, DimensionColumns)
  {
    rules := map[];
    broken := false;
    for j := 0 to |DimensionColumns|
      invariant rules == DimensionRules(f, DimensionColumns[..j])
      invariant broken == DimensionBroken(f, DimensionColumns[..j])
    {
      var col := DimensionColumns[j];
      assert DimensionColumns[..j + 1][..j] == DimensionColumns[..j];
      if col in f.columns {
        var r := NonPositiveRule(f, col);
        rules := rules["positive_" + col := r];
        if r.status == Fail {
          broken := true;
        }
      }
    }
    assert DimensionColumns[..|DimensionColumns|] == DimensionColumns;
  }

  /** The three rule groups of `validate_business_rules`, each run when its table is loaded. */
  method RulesOfTables(ds: map<string, Frame>) returns (results: map<string, map<string, RuleCheck>>, broken: bool)
    ensures results == BusinessRules(ds) && broken == RulesFail(ds)
  {
    results := map[];
    broken := false;
    if "orders" in ds {
      var rules := OrderRules(ds["orders"]);
      results := results["orders" := rules];
      broken := Violated(rules);
    }
    if "products" in ds {
      var rules, bad := DimensionRulesOf(ds["products"]);
      results := results["products" := rules];
      broken := broken || bad;
    }
    if "order_payments" in ds {
      var rules := PaymentRules(ds["order_payments"]);
      results := results["order_payments" := rules];
      broken := broken || Violated(rules);
    }
  }

  // =====================================================================
  // Referential integrity
  // =====================================================================

  /** The non-missing cells of a key column (`dropna()`), position by position. */
  function KeyCells(c: Column): seq<Option<Value>>
  {
    seq(|c.cells|, i requires 0 <= i < |c.cells| => if c.cells[i].Missing? then None else Some(c.cells[i]))
  }

  /** Both tables of a relationship are loaded and carry their key columns. */
  predicate Linked(ds: map<string, Frame>, r: Relationship)
  {
    r.parentTable in ds && r.childTable in ds
    && r.parentKey in ds[r.parentTable].columns && r.childKey in ds[r.childTable].columns
  }

  function ParentKeys(ds: map<string, Frame>, r: Relationship): seq<Option<Value>>
    requires Linked(ds, r)
  {
    KeyCells(ds[r.parentTable].columns[r.parentKey])
  }

  function ChildKeys(ds: map<string, Frame>, r: Relationship): seq<Option<Value>>
    requires Linked(ds, r)
  {
    KeyCells(ds[r.childTable].columns[r.childKey])
  }

  datatype IntegrityCheck = IntegrityCheck(relationship: Relationship, orphanedCount: nat, childUniqueKeys: nat, status: Status)

  /** Orphans are the distinct child keys that are not parent keys; the relationship passes when there are none. */
  function CheckIntegrity(ds: map<string, Frame>, r: Relationship): (c: IntegrityCheck)
    requires Linked(ds, r)
    ensures c.relationship == r
    ensures c.orphanedCount == |Orphans(ParentKeys(ds, r), ChildKeys(ds, r))| <= c.childUniqueKeys
    ensures c.childUniqueKeys == |KeySet(ChildKeys(ds, r))|
    ensures c.status == Pass <==> KeySet(ChildKeys(ds, r)) <= KeySet(ParentKeys(ds, r))
    ensures c.status != Warn
  {
    var o := Orphans(ParentKeys(ds, r), ChildKeys(ds, r));
    SubsetSize(o, KeySet(ChildKeys(ds, r)));
    IntegrityCheck(r, |o|, |KeySet(ChildKeys(ds, r))|, if |o| == 0 then Pass else Fail)
  }

  /** The integrity check of a linked relationship on the given datasets. */
  function IntegrityCheckOf(ds: map<string, Frame>): (check: Relationship -> Option<IntegrityCheck>)
    ensures forall r :: check(r) == if Linked(ds, r) then Some(CheckIntegrity(ds, r)) else None
  {
    r => if Linked(ds, r) then Some(CheckIntegrity(ds, r)) else None
  }

  /** `validate_referential_integrity` over `rels` in order; a relationship with a missing table or key column is skipped. */
  function IntegrityResults(ds: map<string, Frame>, rels: seq<Relationship>): (m: map<string, IntegrityCheck>)
    ensures forall n :: n in m ==> exists r :: r in rels && ResultName(r) == n
  {
    ResultsOf(rels, IntegrityCheckOf(ds))
  }

  predicate Orphaned(ds: map<string, Frame>, rels: seq<Relationship>)
  {
    exists r :: r in rels && Linked(ds, r) && CheckIntegrity(ds, r).status == Fail
  }

  /**
   * With distinct result names, a relationship is reported exactly when it
   * is linked, and its entry is its own check.
   */
  lemma IntegrityResultsSpec(ds: map<string, Frame>, rels: seq<Relationship>, r: Relationship)
    requires DistinctNames(rels) && r in rels
    ensures ResultName(r) in IntegrityResults(ds, rels) <==> Linked(ds, r)
    ensures Linked(ds, r) ==> IntegrityResults(ds, rels)[ResultName(r)] == CheckIntegrity(ds, r)
  {
    ResultsOfSpec(rels, IntegrityCheckOf(ds), r);
  }

  /** The integrity check of the schema lowers the flag exactly when one of its reported relationships is FAIL. */
  lemma IntegrityFailsIffReported(ds: map<string, Frame>)
    ensures var res := IntegrityResults(ds, Relationships);
      Orphaned(ds, Relationships) <==> exists n :: n in res && res[n].status == Fail
  {
    var res := IntegrityResults(ds, Relationships);
    RelationshipsDistinct();
    if Orphaned(ds, Relationships) {
      var r :| r in Relationships && Linked(ds, r) && CheckIntegrity(ds, r).status == Fail;
      IntegrityResultsSpec(ds, Relationships, r);
      assert res[ResultName(r)].status == Fail;
    }
    if exists n :: n in res && res[n].status == Fail {
      var n :| n in res && res[n].status == Fail;
      var r :| r in Relationships && ResultName(r) == n;
      IntegrityResultsSpec(ds, Relationships, r);
    }
  }

  /** The loop of `validate_referential_integrity` over the schema's relationships in order. */
  method IntegrityOfRelationships(ds: map<string, Frame>) returns (results: map<string, IntegrityCheck>, orphaned: bool)
    ensures results == IntegrityResults(ds, Relationships) && orphaned == Orphaned(ds, Relationships)
  {
    results := map[];
    orphaned := false;
    ghost var check := IntegrityCheckOf(ds);
    for k := 0 to |Relationships|
      invariant results == IntegrityResults(ds, Relationships[..k])
      invariant orphaned == Orphaned(ds, Relationships[..k])
    {
      var r := Relationships[k];
      ResultsOfStep(Relationships, check, k);
      assert forall x :: x in Relationships[..k + 1] <==> x in Relationships[..k] || x == r;
      if Linked(ds, r) {
        var c := CheckIntegrity(ds, r);
        results := results[ResultName(r) := c];
        if c.status == Fail {
          orphaned := true;
        }
      }
    }
    assert Relationships[..|Relationships|] == Relationships;
  }

  // =====================================================================
  // Value ranges
  // =====================================================================

  datatype Bounds = Bounds(min: int, max: int)

  const RangeExpectations: map<string, map<string, Bounds>> := map[
    "orders" := map[
      "delivery_days" := Bounds(0, 365),
      "order_year" := Bounds(2016, 2019),
      "order_month" := Bounds(1, 12)],
    "products" := map[
      "product_weight_g" := Bounds(0, 50000),
      "product_length_cm" := Bounds(0, 200),
      "product_height_cm" := Bounds(0, 200),
      "product_width_cm" := Bounds(0, 200)],
    "order_payments" := map[
      "payment_value" := Bounds(0, 10000),
      "payment_installments" := Bounds(1, 24)],
    "order_reviews" := map[
      "review_score" := Bounds(1, 5)]
  ]

  /** The numeric values of a column, in order. */
  function Numbers(cells: seq<Value>): (v: seq<real>)
    ensures forall x :: x in v <==> Number(x) in cells
  {
    if cells == [] then []
    else
      var rest := Numbers(cells[1..]);
      assert forall w :: w in cells <==> w == cells[0] || w in cells[1..];
      if cells[0].Number? then [cells[0].x] + rest else rest
  }

  predicate Outside(b: Bounds, x: real)
  {
    x < b.min as real || x > b.max as real
  }

  datatype RangeCheck = RangeCheck(
    expectedMin: int, expectedMax: int,
    actualMin: real, actualMax: real,
    outOfRangeCount: nat, totalValues: nat,
    status: Status)

  /**
   * The range of a column's values, reported only when it has values. Out
   * of range values give a warning, never a failure, and there are none
   * exactly when the smallest and largest values lie within the bounds.
   */
  function CheckRange(c: Column, b: Bounds): (r: Option<RangeCheck>)
    ensures r.Some? <==> exists x :: Number(x) in c.cells
    ensures r.Some? ==> r.value.status != Fail
    ensures r.Some? ==> r.value.outOfRangeCount <= r.value.totalValues
    ensures r.Some? ==> (r.value.status == Pass <==> forall x :: Number(x) in c.cells ==> !Outside(b, x))
    ensures r.Some? ==> (r.value.status == Pass <==> b.min as real <= r.value.actualMin && r.value.actualMax <= b.max as real)
  {
    var v := Numbers(c.cells);
    if |v| == 0 then
      assert forall x :: Number(x) !in c.cells by {
        forall x ensures Number(x) !in c.cells { assert x !in v; }
      }
      None
    else
      assert v[0] in v;
      var lo := MinOf(v).value;
      var hi := MaxOf(v).value;
      var n := CountWhere(v, x => Outside(b, x));
      assert n == 0 <==> b.min as real <= lo && hi <= b.max as real by {
        if n == 0 {
          var i :| 0 <= i < |v| && v[i] == lo;
          var j :| 0 <= j < |v| && v[j] == hi;
          assert !Outside(b, v[i]) && !Outside(b, v[j]);
        }
      }
      assert n == 0 <==> forall x :: Number(x) in c.cells ==> !Outside(b, x) by {
        if n == 0 {
          forall x | Number(x) in c.cells ensures !Outside(b, x) {
            assert x in v;
            var i :| 0 <= i < |v| && v[i] == x;
          }
        } else {
          var i :| 0 <= i < |v| && Outside(b, v[i]);
          assert Number(v[i]) in c.cells;
        }
      }
      Some(RangeCheck(b.min, b.max, lo, hi, n, |v|, if n == 0 then Pass else Warn))
  }

  /** The range check of an expected column present in the frame. */
  function RangeCheckOf(f: Frame, exp: map<string, Bounds>): string -> Option<RangeCheck>
  {
    c => if c in exp && c in f.columns then CheckRange(f.columns[c], exp[c]) else None
  }

  function TableRanges(f: Frame, exp: map<string, Bounds>, cols: set<string>): map<string, RangeCheck>
  {
    Collect(cols, RangeCheckOf(f, exp))
  }

  /** The range results of a loaded table with expectations. */
  function TableRangesOf(ds: map<string, Frame>, exp: map<string, map<string, Bounds>>): string -> Option<map<string, RangeCheck>>
  {
    t => if t in exp && t in ds then Some(TableRanges(ds[t], exp[t], exp[t].Keys)) else None
  }

  /** `validate_data_ranges` against an expectation table: the expected columns of every loaded table. */
  function RangeResultsFor(ds: map<string, Frame>, exp: map<string, map<string, Bounds>>): map<string, map<string, RangeCheck>>
  {
    Collect(exp.Keys, TableRangesOf(ds, exp))
  }

  function RangeResults(ds: map<string, Frame>): map<string, map<string, RangeCheck>>
  {
    RangeResultsFor(ds, RangeExpectations)
  }

  /** A range entry never reports FAIL: the range check cannot fail validation. */
  lemma RangesNeverFail(ds: map<string, Frame>, exp: map<string, map<string, Bounds>>)
    ensures var res := RangeResultsFor(ds, exp);
      forall t, c :: t in res && c in res[t] ==> res[t][c].status != Fail
  {
  }

  method RangesOfTable(f: Frame, exp: map<string, Bounds>) returns (tr: map<string, RangeCheck>)
    ensures tr == TableRanges(f, exp, exp.Keys)
  {
    tr := map[];
    var remaining := exp.Keys;
    while remaining != {}
      invariant remaining <= exp.Keys
      invariant tr == TableRanges(f, exp, exp.Keys - remaining)
      decreases remaining
    {
      var col :| col in remaining;
      CollectStep(exp.Keys - remaining, RangeCheckOf(f, exp), col);
      assert exp.Keys - (remaining - {col}) == (exp.Keys - remaining) + {col};
      if col in f.columns {
        var r := CheckRange(f.columns[col], exp[col]);
        if r.Some? {
          tr := tr[col := r.value];
        }
      }
      remaining := remaining - {col};
    }
    assert exp.Keys - remaining == exp.Keys;
  }

  method RangesOfTables(ds: map<string, Frame>, exp: map<string, map<string, Bounds>>)
    returns (results: map<string, map<string, RangeCheck>>)
    ensures results == RangeResultsFor(ds, exp)
  {
    results := map[];
    var remaining := exp.Keys;
    while remaining != {}
      invariant remaining <= exp.Keys
      invariant results == Collect(exp.Keys - remaining, TableRangesOf(ds, exp))
      decreases remaining
    {
      var name :| name in remaining;
      CollectStep(exp.Keys - remaining, TableRangesOf(ds, exp), name);
      assert exp.Keys - (remaining - {name}) == (exp.Keys - remaining) + {name};
      if name in ds {
        var tr := RangesOfTable(ds[name], exp[name]);
        results := results[name := tr];
      }
      remaining := remaining - {name};
    }
    assert exp.Keys - remaining == exp.Keys;
  }

  // =====================================================================
  // The validator
  // =====================================================================

  /** The overall verdict: no completeness, dtype, business-rule or integrity failure. Ranges only warn. */
  predicate Verdict(ds: map<string, Frame>)
  {
    !CompletenessFails(ds) && !TypesFail(ds) && !RulesFail(ds) && !Orphaned(ds, Relationships)
  }

  /** The verdict holds exactly when no check reports a failure that lowers the flag. */
  lemma VerdictIffNothingReported(ds: map<string, Frame>)
    ensures Verdict(ds) <==>
      && (forall t, c :: t in CompletenessResults(ds) && c in CompletenessResults(ds)[t] ==> !LowersFlag(CompletenessResults(ds)[t][c]))
      && (forall t, c :: t in TypeResults(ds) && c in TypeResults(ds)[t] ==> TypeResults(ds)[t][c].status != Fail)
      && (forall t :: t in BusinessRules(ds) ==> !Violated(BusinessRules(ds)[t]))
      && (forall n :: n in IntegrityResults(ds, Relationships) ==> IntegrityResults(ds, Relationships)[n].status != Fail)
  {
    CompletenessFailsIffReported(ds);
    TypesFailIffReported(ds);
    RulesFailIffReported(ds);
    IntegrityFailsIffReported(ds);
  }

  datatype Results = Results(
    completeness: Option<map<string, map<string, Completeness>>>,
    dataTypes: Option<map<string, map<string, TypeCheck>>>,
    businessRules: Option<map<string, map<string, RuleCheck>>>,
    referentialIntegrity: Option<map<string, IntegrityCheck>>,
    dataRanges: Option<map<string, map<string, RangeCheck>>>)

  class DataValidator {
    var datasets: map<string, Frame>
    var validationResults: Results
    var validationPassed: bool

    constructor(datasets: map<string, Frame>)
      ensures this.datasets == datasets && validationPassed
      ensures validationResults == Results(None, None, None, None, None)
    {
      this.datasets := datasets;
      validationResults := Results(None, None, None, None, None);
      validationPassed := true;
    }

    method ValidateDataCompleteness() returns (results: map<string, map<string, Completeness>>)
      modifies this
      ensures datasets == old(datasets) && results == CompletenessResults(datasets)
      ensures validationResults == old(validationResults).(completeness := Some(results))
      ensures validationPassed == (old(validationPassed) && !CompletenessFails(datasets))
    {
      var incomplete;
      results, incomplete := CompletenessOfTables(datasets);
      validationPassed := validationPassed && !incomplete;
      validationResults := validationResults.(completeness := Some(results));
    }

    method ValidateDataTypes() returns (results: map<string, map<string, TypeCheck>>)
      modifies this
      ensures datasets == old(datasets) && results == TypeResults(datasets)
      ensures validationResults == old(validationResults).(dataTypes := Some(results))
      ensures validationPassed == (old(validationPassed) && !TypesFail(datasets))
    {
      var mistyped;
      results, mistyped := TypesOfTables(datasets, ExpectedTypes);
      validationPassed := validationPassed && !mistyped;
      validationResults := validationResults.(dataTypes := Some(results));
    }

    method ValidateBusinessRules() returns (results: map<string, map<string, RuleCheck>>)
      modifies this
      ensures datasets == old(datasets) && results == BusinessRules(datasets)
      ensures validationResults == old(validationResults).(businessRules := Some(results))
      ensures validationPassed == (old(validationPassed) && !RulesFail(datasets))
    {
      var broken;
      results, broken := RulesOfTables(datasets);
      validationPassed := validationPassed && !broken;
      validationResults := validationResults.(businessRules := Some(results));
    }

    method ValidateReferentialIntegrity() returns (results: map<string, IntegrityCheck>)
      modifies this
      ensures datasets == old(datasets) && results == IntegrityResults(datasets, Relationships)
      ensures validationResults == old(validationResults).(referentialIntegrity := Some(results))
      ensures validationPassed == (old(validationPassed) && !Orphaned(datasets, Relationships))
    {
      var orphaned;
      results, orphaned := IntegrityOfRelationships(datasets);
      validationPassed := validationPassed && !orphaned;
      validationResults := validationResults.(referentialIntegrity := Some(results));
    }

    method ValidateDataRanges() returns (results: map<string, map<string, RangeCheck>>)
      modifies this
      ensures datasets == old(datasets) && results == RangeResults(datasets)
      ensures validationResults == old(validationResults).(dataRanges := Some(results))
      ensures validationPassed == old(validationPassed)
    {
      results := RangesOfTables(datasets, RangeExpectations);
      validationResults := validationResults.(dataRanges := Some(results));
    }

    /** `validate_all_data`: the five checks in order; the flag only ever goes down. */
    method ValidateAllData() returns (passed: bool)
      modifies this
      ensures datasets == old(datasets) && passed == validationPassed
      ensures validationPassed == (old(validationPassed) && Verdict(datasets))
      ensures validationResults == Results(
        Some(CompletenessResults(datasets)), Some(TypeResults(datasets)), Some(BusinessRules(datasets)),
        Some(IntegrityResults(datasets, Relationships)), Some(RangeResults(datasets)))
    {
      var completeness := ValidateDataCompleteness();
      var types := ValidateDataTypes();
      var rules := ValidateBusinessRules();
      var integrity := ValidateReferentialIntegrity();
      var ranges := ValidateDataRanges();
      passed := validationPassed;
    }
  }

  /** `validate_cleaned_data`: a fresh validator over the datasets, run once. */
  method ValidateCleanedData(ds: map<string, Frame>) returns (passed: bool)
    ensures passed == Verdict(ds)
  {
    var validator := new DataValidator(ds);
    passed := validator.ValidateAllData();
  }
}
