/**
 * The aggregation engine: category breakdowns of one transaction type, the monthly
 * income/expense table, the category colour lookup, and the enrichment of a parsed
 * report with all three (`lib/calculations/aggregations.ts`).
 */
module Aggregations {
  import opened Wrappers
  import opened Seqs
  import opened Sorting
  import opened Text
  import opened JsMath
  import opened Host
  import opened Ledger

  // ---------------------------------------------------------------- colours

  /** The value of the first entry, in table order, whose key occurs in c. */
  function FirstKeyValue(table: seq<(string, string)>, c: string): Option<string>
  {
    if table == [] then None
    else if Contains(c, table[0].0) then Some(table[0].1)
    else FirstKeyValue(table[1..], c)
  }

  /** The lookup finds the first key that occurs, and finds nothing only when no key occurs. */
  lemma {:induction false} FirstKeyValueFirst(table: seq<(string, string)>, c: string)
    ensures FirstKeyValue(table, c).None? <==> forall i :: 0 <= i < |table| ==> !Contains(c, table[i].0)
    ensures forall i :: 0 <= i < |table| && Contains(c, table[i].0)
                        && (forall j :: 0 <= j < i ==> !Contains(c, table[j].0))
                        ==> FirstKeyValue(table, c) == Some(table[i].1)
  {
    if table != [] && !Contains(c, table[0].0) {
      FirstKeyValueFirst(table[1..], c);
      assert forall i :: 1 <= i < |table| ==> table[1..][i - 1] == table[i];
    }
  }

  function ColourTable(ty: TxType): seq<(string, string)>
  {
    if ty == Income then IncomeCategories else ExpenseCategories
  }

  function DefaultColour(ty: TxType): string
  {
    if ty == Income then "#64D8C6" else "#EF4444"
  }

  /** `getCategoryColor`: first-key lookup in the type's colour table, else the type's default. */
  function CategoryColor(c: string, ty: TxType): string
  {
    FirstKeyValue(ColourTable(ty), c).GetOr(DefaultColour(ty))
  }

  /**
   * A category gets the colour of the first table key, in declaration order, that is a
   * substring of it, and the type's default colour when no key is.
   */
  lemma CategoryColorFirstKey(c: string, ty: TxType)
    ensures (forall i :: 0 <= i < |ColourTable(ty)| ==> !Contains(c, ColourTable(ty)[i].0))
            ==> CategoryColor(c, ty) == DefaultColour(ty)
    ensures forall i :: 0 <= i < |ColourTable(ty)| && Contains(c, ColourTable(ty)[i].0)
                        && (forall j :: 0 <= j < i ==> !Contains(c, ColourTable(ty)[j].0))
                        ==> CategoryColor(c, ty) == ColourTable(ty)[i].1
  {
    FirstKeyValueFirst(ColourTable(ty), c);
  }

  // ---------------------------------------------------------------- category breakdowns

  function CategoryKey(t: Transaction): Option<string> { Some(t.category) }

  function RowAmount(r: CategoryBreakdown): real { r.amount }

  function RowCount(r: CategoryBreakdown): real { r.count as real }

  function RowCategory(r: CategoryBreakdown): string { r.category }

  /** `Math.round(total > 0 ? amount / total * 100 : 0)`. */
  function Percentage(amount: real, total: real): (p: real)
    ensures total <= 0.0 ==> p == 0.0
    ensures total > 0.0 && 0.0 <= amount <= total ==> 0.0 <= p <= 100.0
  {
    if total > 0.0 then
      assert 0.0 <= amount <= total ==> 0.0 <= amount / total * 100.0 <= 100.0 by {
        if 0.0 <= amount <= total {
          assert amount / total <= total / total;
        }
      }
      Round(amount / total * 100.0) as real
    else 0.0
  }

  /** The row a category gets from the transactions f of type ty. */
  function BreakdownRow(f: seq<Transaction>, ty: TxType, c: string): CategoryBreakdown
  {
    var amount := SumFor(f, CategoryKey, c, AmountOf);
    CategoryBreakdown(c, amount, Percentage(amount, Sum(f, AmountOf)), CategoryColor(c, ty), CountFor(f, CategoryKey, c))
  }

  /** One row per category of ks, in the order of ks. */
  function BreakdownRows(f: seq<Transaction>, ty: TxType, ks: seq<string>): (r: seq<CategoryBreakdown>)
    ensures |r| == |ks|
    ensures forall i :: 0 <= i < |ks| ==> r[i] == BreakdownRow(f, ty, ks[i])
    ensures forall i :: 0 <= i < |ks| ==> r[i].category == ks[i]
  {
    if ks == [] then [] else BreakdownRows(f, ty, ks[..|ks| - 1]) + [BreakdownRow(f, ty, ks[|ks| - 1])]
  }

  /** The comparator `(a, b) => b.amount - a.amount`. */
  function ByAmountDesc(a: CategoryBreakdown, b: CategoryBreakdown): real { b.amount - a.amount }

  /**
   * What `calculateCategoryBreakdowns(ts, ty)` returns: the categories of the transactions of
   * type ty in order of first appearance, one row each, then stably sorted by amount, largest first.
   */
  function CategoryBreakdowns(ts: seq<Transaction>, ty: TxType): seq<CategoryBreakdown>
  {
    var f := OfType(ts, ty);
    SortBy(BreakdownRows(f, ty, GroupKeys(f, CategoryKey)), ByAmountDesc)
  }

  /** The `forEach` of `calculateCategoryBreakdowns`: a map from category to running amount and count. */
  method GroupByCategory(filtered: seq<Transaction>) returns (keys: seq<string>, groups: map<string, (real, nat)>)
    ensures GroupedBy(filtered, CategoryKey, AmountOf, keys, groups)
  {
    keys := [];
    groups := map[];
    var i := 0;
    while i < |filtered|
      invariant i <= |filtered|
      invariant GroupedBy(filtered[..i], CategoryKey, AmountOf, keys, groups)
    {
      var t := filtered[i];
      var c := t.category;
      ghost var keys0, groups0 := keys, groups;
      var existing := if c in groups then groups[c] else (0.0, 0);
      groups := groups[c := (existing.0 + t.amount, existing.1 + 1)];
      keys := if c in keys then keys else keys + [c];
      GroupedStep(filtered[..i], t, CategoryKey, AmountOf, keys0, groups0, c, keys, groups);
      assert filtered[..i + 1] == filtered[..i] + [t];
      i := i + 1;
    }
    assert filtered[..i] == filtered;
  }

  /** `Array.from(categoryMap.entries()).map(...)`: one row per map entry, in key order. */
  function RowsFromGroups(keys: seq<string>, groups: map<string, (real, nat)>, total: real, ty: TxType): (r: seq<CategoryBreakdown>)
    requires forall j :: 0 <= j < |keys| ==> keys[j] in groups
    ensures |r| == |keys|
  {
    seq(|keys|, j requires 0 <= j < |keys| =>
      var c := keys[j];
      CategoryBreakdown(c, groups[c].0, Percentage(groups[c].0, total), CategoryColor(c, ty), groups[c].1))
  }

  /** Rows built from the finished map are the rows of the categories' sums and counts. */
  lemma RowsFromGroupsRows(f: seq<Transaction>, ty: TxType, keys: seq<string>, groups: map<string, (real, nat)>)
    requires GroupedBy(f, CategoryKey, AmountOf, keys, groups)
    ensures RowsFromGroups(keys, groups, Sum(f, AmountOf), ty) == BreakdownRows(f, ty, keys)
  {
    var u := RowsFromGroups(keys, groups, Sum(f, AmountOf), ty);
    forall j | 0 <= j < |keys|
      ensures u[j] == BreakdownRow(f, ty, keys[j])
    {
      assert keys[j] in groups;
    }
  }

  /** `calculateCategoryBreakdowns`: grouped rows with percentages and colours, sorted by amount. */
  method CalculateCategoryBreakdowns(ts: seq<Transaction>, ty: TxType) returns (rows: seq<CategoryBreakdown>)
    ensures rows == CategoryBreakdowns(ts, ty)
  {
    var filtered := OfType(ts, ty);
    var total := Sum(filtered, AmountOf);
    var keys, groups := GroupByCategory(filtered);
    RowsFromGroupsRows(filtered, ty, keys, groups);
    var unsorted := RowsFromGroups(keys, groups, total, ty);
    rows := SortBy(unsorted, ByAmountDesc);
  }

  lemma ByAmountDescTotal()
    ensures Total(ByAmountDesc)
  {
    forall a: CategoryBreakdown, b: CategoryBreakdown
      ensures ByAmountDesc(a, b) <= 0.0 || ByAmountDesc(b, a) <= 0.0
    {
    }
  }

  /** Breakdown rows come largest amount first. */
  lemma BreakdownSorted(ts: seq<Transaction>, ty: TxType)
    ensures var rows := CategoryBreakdowns(ts, ty);
            forall i :: 0 < i < |rows| ==> rows[i - 1].amount >= rows[i].amount
  {
    var f := OfType(ts, ty);
    ByAmountDescTotal();
    SortBySorted(BreakdownRows(f, ty, GroupKeys(f, CategoryKey)), ByAmountDesc);
  }

  /**
   * Every row is the row of its own category: its amount and count are the sum and number of
   * the transactions of that type in that category, its percentage is rounded against the
   * type's total and its colour is the category's.
   */
  lemma BreakdownRowsFaithful(ts: seq<Transaction>, ty: TxType)
    ensures var rows := CategoryBreakdowns(ts, ty);
            forall i :: 0 <= i < |rows| ==> rows[i] == BreakdownRow(OfType(ts, ty), ty, rows[i].category)
  {
    var f := OfType(ts, ty);
    var u := BreakdownRows(f, ty, GroupKeys(f, CategoryKey));
    var rows := CategoryBreakdowns(ts, ty);
    forall i | 0 <= i < |rows|
      ensures rows[i] == BreakdownRow(f, ty, rows[i].category)
    {
      assert rows[i] in multiset(u);
    }
  }

  /** Some transaction of f is in category c. */
  predicate CategoryOccurs(f: seq<Transaction>, c: string)
  {
    exists j :: 0 <= j < |f| && f[j].category == c
  }

  /** Some row is the row of category c. */
  predicate HasRowFor(rows: seq<CategoryBreakdown>, c: string)
  {
    exists i :: 0 <= i < |rows| && rows[i].category == c
  }

  /** Every row's category is a category of the transactions of type ty, and no two rows share one. */
  lemma BreakdownCategoriesOccur(ts: seq<Transaction>, ty: TxType)
    ensures var rows := CategoryBreakdowns(ts, ty); var f := OfType(ts, ty);
            && DistinctBy(rows, RowCategory)
            && forall i :: 0 <= i < |rows| ==> CategoryOccurs(f, rows[i].category)
  {
    var f := OfType(ts, ty);
    var ks := GroupKeys(f, CategoryKey);
    GroupKeysSpec(f, CategoryKey);
    var u := BreakdownRows(f, ty, ks);
    assert forall i :: 0 <= i < |u| ==> RowCategory(u[i]) == ks[i];
    SortByDistinctBy(u, ByAmountDesc, RowCategory);
    SortByKeys(u, ByAmountDesc, RowCategory, ks);
    RowsCategoriesOccur(f, ks, SortBy(u, ByAmountDesc));
  }

  /** Rows whose categories are keys that occur in f have categories of f. */
  lemma RowsCategoriesOccur(f: seq<Transaction>, ks: seq<string>, rows: seq<CategoryBreakdown>)
    requires forall i :: 0 <= i < |ks| ==> exists j :: 0 <= j < |f| && CategoryKey(f[j]) == Some(ks[i])
    requires forall i :: 0 <= i < |rows| ==> RowCategory(rows[i]) in ks
    ensures forall i :: 0 <= i < |rows| ==> CategoryOccurs(f, rows[i].category)
  {
    forall i | 0 <= i < |rows|
      ensures CategoryOccurs(f, rows[i].category)
    {
      var c := rows[i].category;
      assert c in ks;
      var k :| 0 <= k < |ks| && ks[k] == c;
      var j :| 0 <= j < |f| && CategoryKey(f[j]) == Some(ks[k]);
      assert f[j].category == c;
    }
  }

  /** Every category of the transactions of type ty has a row. */
  lemma BreakdownCategoriesCovered(ts: seq<Transaction>, ty: TxType)
    ensures var rows := CategoryBreakdowns(ts, ty); var f := OfType(ts, ty);
            forall j :: 0 <= j < |f| ==> HasRowFor(rows, f[j].category)
  {
    var f := OfType(ts, ty);
    var ks := GroupKeys(f, CategoryKey);
    GroupKeysSpec(f, CategoryKey);
    var u := BreakdownRows(f, ty, ks);
    var rows := CategoryBreakdowns(ts, ty);
    forall j | 0 <= j < |f|
      ensures HasRowFor(rows, f[j].category)
    {
      assert CategoryKey(f[j]).Some?;
      assert f[j].category in ks;
      var i' :| 0 <= i' < |ks| && ks[i'] == f[j].category;
      assert u[i'] in multiset(rows);
    }
  }

  lemma {:induction false} BreakdownRowsSums(f: seq<Transaction>, ty: TxType, ks: seq<string>)
    ensures Sum(BreakdownRows(f, ty, ks), RowAmount) == GroupTotal(f, CategoryKey, AmountOf, ks)
    ensures Sum(BreakdownRows(f, ty, ks), RowCount) == GroupTotal(f, CategoryKey, One, ks)
  {
    if ks != [] {
      var ks' := ks[..|ks| - 1];
      BreakdownRowsSums(f, ty, ks');
      CountForIsSumOfOnes(f, CategoryKey, ks[|ks| - 1]);
      var r := BreakdownRows(f, ty, ks);
      assert r[..|r| - 1] == BreakdownRows(f, ty, ks');
    }
  }

  /**
   * The row amounts add up to the total of the transactions of type ty, and the row counts
   * to their number.
   */
  lemma BreakdownTotals(ts: seq<Transaction>, ty: TxType)
    ensures Sum(CategoryBreakdowns(ts, ty), RowAmount) == TypeTotal(ts, ty)
    ensures Sum(CategoryBreakdowns(ts, ty), RowCount) == |OfType(ts, ty)| as real
  {
    var f := OfType(ts, ty);
    var ks := GroupKeys(f, CategoryKey);
    GroupKeysSpec(f, CategoryKey);
    var u := BreakdownRows(f, ty, ks);
    SumSortBy(u, ByAmountDesc, RowAmount);
    SumSortBy(u, ByAmountDesc, RowCount);
    BreakdownRowsSums(f, ty, ks);
    GroupTotalPartition(f, CategoryKey, AmountOf, ks);
    GroupTotalPartition(f, CategoryKey, One, ks);
    SumKeyedAll(f, CategoryKey, AmountOf);
    SumKeyedAll(f, CategoryKey, One);
    SumOne(f);
  }

  /**
   * Percentages are 0 throughout when the type's total is not positive, and lie in [0, 100]
   * when no amount is negative.
   */
  lemma BreakdownPercentages(ts: seq<Transaction>, ty: TxType)
    ensures var rows := CategoryBreakdowns(ts, ty);
            && (TypeTotal(ts, ty) <= 0.0 ==> forall i :: 0 <= i < |rows| ==> rows[i].percentage == 0.0)
            && ((forall j :: 0 <= j < |ts| ==> ts[j].amount >= 0.0) ==>
                  forall i :: 0 <= i < |rows| ==> 0.0 <= rows[i].percentage <= 100.0)
  {
    var f := OfType(ts, ty);
    var rows := CategoryBreakdowns(ts, ty);
    BreakdownRowsFaithful(ts, ty);
    if forall j :: 0 <= j < |ts| ==> ts[j].amount >= 0.0 {
      assert forall j :: 0 <= j < |f| ==> AmountOf(f[j]) >= 0.0;
      SumKeyedAll(f, CategoryKey, AmountOf);
      forall i | 0 <= i < |rows|
        ensures 0.0 <= rows[i].percentage <= 100.0
      {
        SumForAtMostKeyed(f, CategoryKey, rows[i].category, AmountOf);
      }
    }
  }

  // ---------------------------------------------------------------- monthly data

  /** date-fns `yyyy`: the year padded to four digits. */
  function Year4(y: nat): string { PadStart(NatToString(y), 4, '0') }

  /** `format(date, 'yyyy-MM')`. */
  function MonthKey(d: CalendarDate): string { Year4(d.year) + "-" + Pad2(d.month) }

  /** `format(date, 'yyyy年M月')`. */
  function MonthName(d: CalendarDate): string { Year4(d.year) + "年" + NatToString(d.month) + "月" }

  /** What the three `format` calls make of a readable date: the map key, the month's name and its number. */
  datatype MonthStamp = MonthStamp(key: string, name: string, number: int)

  function StampOf(d: CalendarDate): MonthStamp { MonthStamp(MonthKey(d), MonthName(d), d.month) }

  /**
   * A transaction with the month its date falls in, or nothing when `parse(t.date, 'yyyy-MM-dd', ...)`
   * gives an invalid date (formatting it throws and the `catch` skips the transaction).
   */
  datatype Dated = Dated(month: Option<MonthStamp>, tx: Transaction)

  function DatedOf(t: Transaction, decode: string -> Option<CalendarDate>): Dated
  {
    Dated(if decode(t.date).Some? then Some(StampOf(decode(t.date).value)) else None, t)
  }

  function Stamp(ts: seq<Transaction>, decode: string -> Option<CalendarDate>): (r: seq<Dated>)
    ensures |r| == |ts|
    ensures forall i :: 0 <= i < |ts| ==> r[i] == DatedOf(ts[i], decode)
  {
    seq(|ts|, i requires 0 <= i < |ts| => DatedOf(ts[i], decode))
  }

  /** The key a transaction is bucketed under, if its date is readable. */
  function MonthKeyOf(x: Dated): Option<string>
  {
    if x.month.Some? then Some(x.month.value.key) else None
  }

  function IncomeAmount(x: Dated): real { if x.tx.txType == Income then x.tx.amount else 0.0 }

  /** Everything that is not income is counted as expense. */
  function ExpenseAmount(x: Dated): real { if x.tx.txType == Income then 0.0 else x.tx.amount }

  /** A month's running entry: `{ income, expense, month, monthNumber }`. */
  datatype MonthAcc = MonthAcc(income: real, expense: real, month: string, monthNumber: int)

  /** The entry a month starts with, named and numbered after the date that opened it. */
  function Opened(m: MonthStamp): MonthAcc { MonthAcc(0.0, 0.0, m.name, m.number) }

  /** `existing.income += t.amount` for income, `existing.expense += t.amount` otherwise. */
  function AddTo(a: MonthAcc, x: Dated): MonthAcc
  {
    if x.tx.txType == Income then a.(income := a.income + x.tx.amount) else a.(expense := a.expense + x.tx.amount)
  }

  /**
   * The entry of month key k after the dated transactions s: income and expense summed over
   * the transactions in that month, name and number taken from the first of them.
   */
  function AccFor(s: seq<Dated>, k: string): MonthAcc
  {
    match FirstOf(s, MonthKeyOf, k)
    case None => MonthAcc(0.0, 0.0, "", 0)
    case Some(first) =>
      var o := Opened(first.month.value);
      MonthAcc(SumFor(s, MonthKeyOf, k, IncomeAmount), SumFor(s, MonthKeyOf, k, ExpenseAmount), o.month, o.monthNumber)
  }

  /** How one more dated transaction changes a month's entry. */
  lemma AccForSnoc(s: seq<Dated>, x: Dated, k: string)
    ensures MonthKeyOf(x) != Some(k) ==> AccFor(s + [x], k) == AccFor(s, k)
    ensures MonthKeyOf(x) == Some(k) && FirstOf(s, MonthKeyOf, k).Some? ==> AccFor(s + [x], k) == AddTo(AccFor(s, k), x)
    ensures MonthKeyOf(x) == Some(k) && FirstOf(s, MonthKeyOf, k).None? ==> AccFor(s + [x], k) == AddTo(Opened(x.month.value), x)
  {
    if MonthKeyOf(x) != Some(k) {
      AccForSnocOther(s, x, k);
    } else if FirstOf(s, MonthKeyOf, k).Some? {
      AccForSnocSame(s, x, k);
    } else {
      AccForSnocNew(s, x, k);
    }
  }

  lemma AccForSnocOther(s: seq<Dated>, x: Dated, k: string)
    requires MonthKeyOf(x) != Some(k)
    ensures AccFor(s + [x], k) == AccFor(s, k)
  {
    FirstOfSnoc(s, x, MonthKeyOf, k);
    SumForSnoc(s, x, MonthKeyOf, k, IncomeAmount);
    SumForSnoc(s, x, MonthKeyOf, k, ExpenseAmount);
  }

  lemma AccForSnocSame(s: seq<Dated>, x: Dated, k: string)
    requires MonthKeyOf(x) == Some(k) && FirstOf(s, MonthKeyOf, k).Some?
    ensures AccFor(s + [x], k) == AddTo(AccFor(s, k), x)
  {
    FirstOfSnoc(s, x, MonthKeyOf, k);
    SumForSnoc(s, x, MonthKeyOf, k, IncomeAmount);
    SumForSnoc(s, x, MonthKeyOf, k, ExpenseAmount);
  }

  lemma AccForSnocNew(s: seq<Dated>, x: Dated, k: string)
    requires MonthKeyOf(x) == Some(k) && FirstOf(s, MonthKeyOf, k).None?
    ensures AccFor(s + [x], k) == AddTo(Opened(x.month.value), x)
  {
    FirstOfSnoc(s, x, MonthKeyOf, k);
    FirstOfExists(s, MonthKeyOf, k);
    SumForAbsent(s, MonthKeyOf, k, IncomeAmount);
    SumForAbsent(s, MonthKeyOf, k, ExpenseAmount);
    SumForSnoc(s, x, MonthKeyOf, k, IncomeAmount);
    SumForSnoc(s, x, MonthKeyOf, k, ExpenseAmount);
  }

  /** `{ ...data, balance: data.income - data.expense }`. */
  function ToMonthly(a: MonthAcc): MonthlyData
  {
    MonthlyData(a.month, a.monthNumber, a.income, a.expense, a.income - a.expense)
  }

  /** `.map((data) => ({ ...data, balance: ... }))`. */
  function WithBalances(accs: seq<MonthAcc>): (r: seq<MonthlyData>)
    ensures |r| == |accs|
    ensures forall i :: 0 <= i < |accs| ==> r[i] == ToMonthly(accs[i])
  {
    seq(|accs|, i requires 0 <= i < |accs| => ToMonthly(accs[i]))
  }

  /** The entries of the keys ks, in the order of ks. */
  function MonthEntries(s: seq<Dated>, ks: seq<string>): (r: seq<MonthAcc>)
    ensures |r| == |ks|
    ensures forall i :: 0 <= i < |ks| ==> r[i] == AccFor(s, ks[i])
  {
    if ks == [] then [] else MonthEntries(s, ks[..|ks| - 1]) + [AccFor(s, ks[|ks| - 1])]
  }

  /** The comparator `(a, b) => a.monthNumber - b.monthNumber`. */
  function ByMonthNumber(a: MonthlyData, b: MonthlyData): real { (a.monthNumber - b.monthNumber) as real }

  /** The monthly rows of dated transactions: one per month key in order of first appearance, sorted by month number. */
  function MonthlyRowsOf(s: seq<Dated>): seq<MonthlyData>
  {
    SortBy(WithBalances(MonthEntries(s, GroupKeys(s, MonthKeyOf))), ByMonthNumber)
  }

  /** What `calculateMonthlyData(ts)` returns. */
  function MonthlyRows(ts: seq<Transaction>, decode: string -> Option<CalendarDate>): seq<MonthlyData>
  {
    MonthlyRowsOf(Stamp(ts, decode))
  }

  /** The month map after the dated transactions s: keys in insertion order, entries as AccFor says. */
  ghost predicate MonthsOf(s: seq<Dated>, keys: seq<string>, accs: map<string, MonthAcc>)
  {
    && keys == GroupKeys(s, MonthKeyOf)
    && (forall k :: k in accs <==> k in keys)
    && (forall i :: 0 <= i < |keys| ==> accs[keys[i]] == AccFor(s, keys[i]))
  }

  /** A transaction whose date cannot be read leaves the month map as it was. */
  lemma MonthStepUndated(s: seq<Dated>, x: Dated, keys: seq<string>, accs: map<string, MonthAcc>)
    requires MonthsOf(s, keys, accs)
    requires x.month.None?
    ensures MonthsOf(s + [x], keys, accs)
  {
    GroupKeysSnoc(s, x, MonthKeyOf);
    forall i | 0 <= i < |keys|
      ensures accs[keys[i]] == AccFor(s + [x], keys[i])
    {
      AccForSnoc(s, x, keys[i]);
    }
  }

  /** The map entry a dated transaction leaves for its month: the existing entry, or a fresh one, with the amount added. */
  function Bumped(accs: map<string, MonthAcc>, x: Dated): MonthAcc
    requires x.month.Some?
  {
    var k := x.month.value.key;
    AddTo(if k in accs then accs[k] else Opened(x.month.value), x)
  }

  /** One dated transaction: its amount is added to the income or the expense of its month. */
  lemma MonthStepDated(s: seq<Dated>, x: Dated, keys: seq<string>, accs: map<string, MonthAcc>)
    requires MonthsOf(s, keys, accs)
    requires x.month.Some?
    ensures var k := x.month.value.key;
            MonthsOf(s + [x], if k in keys then keys else keys + [k], accs[k := Bumped(accs, x)])
  {
    var k := x.month.value.key;
    GroupKeysSpec(s, MonthKeyOf);
    FirstOfExists(s, MonthKeyOf, k);
    if k in keys {
      MonthStepSeen(s, x, keys, accs, k, accs[k := Bumped(accs, x)]);
    } else {
      MonthStepFirst(s, x, keys, accs, k, keys + [k], accs[k := Bumped(accs, x)]);
    }
  }

  /** A dated transaction of a month already seen adds to that month's entry. */
  lemma MonthStepSeen(s: seq<Dated>, x: Dated, keys: seq<string>, accs: map<string, MonthAcc>, k: string,
                      accs': map<string, MonthAcc>)
    requires MonthsOf(s, keys, accs)
    requires x.month.Some? && k == x.month.value.key && k in keys
    requires FirstOf(s, MonthKeyOf, k).Some?
    requires accs' == accs[k := Bumped(accs, x)]
    ensures MonthsOf(s + [x], keys, accs')
  {
    GroupKeysSnoc(s, x, MonthKeyOf);
    AccForSnocSame(s, x, k);
    forall i | 0 <= i < |keys| && keys[i] != k
      ensures accs'[keys[i]] == AccFor(s + [x], keys[i])
    {
      AccForSnocOther(s, x, keys[i]);
    }
  }

  /** The first dated transaction of a month opens that month's entry after the others. */
  lemma MonthStepFirst(s: seq<Dated>, x: Dated, keys: seq<string>, accs: map<string, MonthAcc>, k: string,
                       keys': seq<string>, accs': map<string, MonthAcc>)
    requires MonthsOf(s, keys, accs)
    requires x.month.Some? && k == x.month.value.key && k !in keys
    requires FirstOf(s, MonthKeyOf, k).None?
    requires keys' == keys + [k] && accs' == accs[k := Bumped(accs, x)]
    ensures MonthsOf(s + [x], keys', accs')
  {
    GroupKeysSnoc(s, x, MonthKeyOf);
    AccForSnocNew(s, x, k);
    forall i | 0 <= i < |keys'| && keys'[i] != k
      ensures accs'[keys'[i]] == AccFor(s + [x], keys'[i])
    {
      AccForSnocOther(s, x, keys'[i]);
    }
  }

  /** `Array.from(monthlyMap.values()).map(...)`: the rows of the finished map, in key order. */
  function RowsFromMonths(keys: seq<string>, accs: map<string, MonthAcc>): (r: seq<MonthAcc>)
    requires forall j :: 0 <= j < |keys| ==> keys[j] in accs
    ensures |r| == |keys|
  {
    seq(|keys|, j requires 0 <= j < |keys| => accs[keys[j]])
  }

  lemma RowsFromMonthsEntries(s: seq<Dated>, keys: seq<string>, accs: map<string, MonthAcc>)
    requires MonthsOf(s, keys, accs)
    ensures RowsFromMonths(keys, accs) == MonthEntries(s, keys)
  {
  }

  /** The body of the `forEach` for a readable date: the month's key and its updated entry. */
  method AddToMonth(accs: map<string, MonthAcc>, t: Transaction, date: CalendarDate) returns (monthKey: string, entry: MonthAcc)
    ensures monthKey == MonthKey(date)
    ensures entry == Bumped(accs, Dated(Some(StampOf(date)), t))
  {
    monthKey := MonthKey(date);
    var monthNumber := date.month;
    var monthName := MonthName(date);
    entry := if monthKey in accs then accs[monthKey] else MonthAcc(0.0, 0.0, monthName, monthNumber);
    if t.txType == Income {
      entry := entry.(income := entry.income + t.amount);
    } else {
      entry := entry.(expense := entry.expense + t.amount);
    }
  }

  /** `calculateMonthlyData`: buckets the transactions by month in a map, then sorts by month number. */
  method CalculateMonthlyData(ts: seq<Transaction>, decode: string -> Option<CalendarDate>) returns (rows: seq<MonthlyData>)
    ensures rows == MonthlyRows(ts, decode)
  {
    var stamped := Stamp(ts, decode);
    var keys: seq<string> := [];
    var accs: map<string, MonthAcc> := map[];
    var i := 0;
    while i < |ts|
      invariant i <= |ts|
      invariant MonthsOf(stamped[..i], keys, accs)
    {
      var t := ts[i];
      ghost var x := DatedOf(t, decode);
      assert stamped[..i + 1] == stamped[..i] + [x];
      match decode(t.date) {
        case None =>
          MonthStepUndated(stamped[..i], x, keys, accs);
        case Some(date) =>
          MonthStepDated(stamped[..i], x, keys, accs);
          var monthKey, entry := AddToMonth(accs, t, date);
          accs := accs[monthKey := entry];
          if monthKey !in keys {
            keys := keys + [monthKey];
          }
      }
      i := i + 1;
    }
    assert stamped[..i] == stamped;
    RowsFromMonthsEntries(stamped, keys, accs);
    rows := SortBy(WithBalances(RowsFromMonths(keys, accs)), ByMonthNumber);
  }

  // ---------------------------------------------------------------- monthly properties

  function RowIncome(m: MonthlyData): real { m.income }

  function RowExpense(m: MonthlyData): real { m.expense }

  function RowMonthNumber(m: MonthlyData): int { m.monthNumber }

  lemma ByMonthNumberTotal()
    ensures Total(ByMonthNumber)
  {
  }

  /** The rows come out in non-decreasing month number. */
  lemma MonthlySorted(ts: seq<Transaction>, decode: string -> Option<CalendarDate>)
    ensures var rows := MonthlyRows(ts, decode);
            forall i :: 1 <= i < |rows| ==> rows[i - 1].monthNumber <= rows[i].monthNumber
  {
    ByMonthNumberTotal();
    var s := Stamp(ts, decode);
    SortBySorted(WithBalances(MonthEntries(s, GroupKeys(s, MonthKeyOf))), ByMonthNumber);
  }

  /** A month's entry holds the sums of income and expense over that month's transactions. */
  lemma AccForSums(s: seq<Dated>, k: string)
    ensures AccFor(s, k).income == SumFor(s, MonthKeyOf, k, IncomeAmount)
    ensures AccFor(s, k).expense == SumFor(s, MonthKeyOf, k, ExpenseAmount)
  {
    if FirstOf(s, MonthKeyOf, k).None? {
      FirstOfExists(s, MonthKeyOf, k);
      SumForAbsent(s, MonthKeyOf, k, IncomeAmount);
      SumForAbsent(s, MonthKeyOf, k, ExpenseAmount);
    }
  }

  /** The row of month key k: its entry with the balance. */
  function MonthRow(s: seq<Dated>, k: string): MonthlyData { ToMonthly(AccFor(s, k)) }

  /** One row per key of ks, in the order of ks. */
  function MonthRowsFor(s: seq<Dated>, ks: seq<string>): (r: seq<MonthlyData>)
    ensures |r| == |ks|
    ensures forall j :: 0 <= j < |ks| ==> r[j] == MonthRow(s, ks[j])
  {
    seq(|ks|, j requires 0 <= j < |ks| => MonthRow(s, ks[j]))
  }

  /**
   * The row of a month that occurs: income and expense summed over its transactions, their
   * difference, and the name and number of the month of its first transaction.
   */
  lemma MonthRowOfFirst(s: seq<Dated>, k: string)
    requires FirstOf(s, MonthKeyOf, k).Some?
    ensures var m := MonthRow(s, k);
            var first := FirstOf(s, MonthKeyOf, k).value.month.value;
            && first.key == k
            && m.month == first.name && m.monthNumber == first.number
            && m.income == SumFor(s, MonthKeyOf, k, IncomeAmount)
            && m.expense == SumFor(s, MonthKeyOf, k, ExpenseAmount)
            && m.balance == m.income - m.expense
  {
    AccForSums(s, k);
  }

  /** The sorted rows are the per-key rows in some order, and the keys are the distinct months that occur. */
  lemma MonthlyRowsOfFaithful(s: seq<Dated>)
    ensures var ks := GroupKeys(s, MonthKeyOf);
            && Distinct(ks)
            && (forall j :: 0 <= j < |s| && MonthKeyOf(s[j]).Some? ==> MonthKeyOf(s[j]).value in ks)
            && (forall i :: 0 <= i < |ks| ==> exists j :: 0 <= j < |s| && MonthKeyOf(s[j]) == Some(ks[i]))
            && multiset(MonthlyRowsOf(s)) == multiset(MonthRowsFor(s, ks))
  {
    var ks := GroupKeys(s, MonthKeyOf);
    GroupKeysSpec(s, MonthKeyOf);
    assert WithBalances(MonthEntries(s, ks)) == MonthRowsFor(s, ks);
  }

  /**
   * `calculateMonthlyData` has one row per distinct `yyyy-MM` month of a readable date:
   * the rows are a permutation of the per-month rows, whose keys are distinct, each the month
   * of some transaction, and cover every readable date's month.
   */
  lemma MonthlyRowsFaithful(ts: seq<Transaction>, decode: string -> Option<CalendarDate>)
    ensures var s := Stamp(ts, decode);
            var ks := GroupKeys(s, MonthKeyOf);
            && Distinct(ks)
            && (forall i :: 0 <= i < |ts| && decode(ts[i].date).Some? ==> MonthKey(decode(ts[i].date).value) in ks)
            && (forall j :: 0 <= j < |ks| ==>
                  exists i :: 0 <= i < |ts| && decode(ts[i].date).Some? && MonthKey(decode(ts[i].date).value) == ks[j])
            && multiset(MonthlyRows(ts, decode)) == multiset(MonthRowsFor(s, ks))
  {
    MonthlyRowsOfFaithful(Stamp(ts, decode));
    MonthKeysCover(ts, decode);
    MonthKeysOccur(ts, decode);
  }

  /** Every readable date's month is a key. */
  lemma MonthKeysCover(ts: seq<Transaction>, decode: string -> Option<CalendarDate>)
    requires var s := Stamp(ts, decode);
             forall j :: 0 <= j < |s| && MonthKeyOf(s[j]).Some? ==> MonthKeyOf(s[j]).value in GroupKeys(s, MonthKeyOf)
    ensures forall i :: 0 <= i < |ts| && decode(ts[i].date).Some? ==>
              MonthKey(decode(ts[i].date).value) in GroupKeys(Stamp(ts, decode), MonthKeyOf)
  {
    forall i | 0 <= i < |ts| && decode(ts[i].date).Some?
      ensures MonthKey(decode(ts[i].date).value) in GroupKeys(Stamp(ts, decode), MonthKeyOf)
    {
      StampKey(ts, decode, i);
    }
  }

  /** Every key is the month of some readable date. */
  lemma MonthKeysOccur(ts: seq<Transaction>, decode: string -> Option<CalendarDate>)
    requires var s := Stamp(ts, decode);
             var ks := GroupKeys(s, MonthKeyOf);
             forall i :: 0 <= i < |ks| ==> exists j :: 0 <= j < |s| && MonthKeyOf(s[j]) == Some(ks[i])
    ensures var ks := GroupKeys(Stamp(ts, decode), MonthKeyOf);
            forall j :: 0 <= j < |ks| ==>
              exists i :: 0 <= i < |ts| && decode(ts[i].date).Some? && MonthKey(decode(ts[i].date).value) == ks[j]
  {
    var s := Stamp(ts, decode);
    var ks := GroupKeys(s, MonthKeyOf);
    forall j | 0 <= j < |ks|
      ensures exists i :: 0 <= i < |ts| && decode(ts[i].date).Some? && MonthKey(decode(ts[i].date).value) == ks[j]
    {
      var i :| 0 <= i < |s| && MonthKeyOf(s[i]) == Some(ks[j]);
      StampKey(ts, decode, i);
    }
  }

  /** A transaction's month key is the key of its decoded date, if it has one. */
  lemma StampKey(ts: seq<Transaction>, decode: string -> Option<CalendarDate>, i: nat)
    requires i < |ts|
    ensures decode(ts[i].date).Some? <==> MonthKeyOf(Stamp(ts, decode)[i]).Some?
    ensures decode(ts[i].date).Some? ==> MonthKeyOf(Stamp(ts, decode)[i]) == Some(MonthKey(decode(ts[i].date).value))
  {
  }

  /**
   * The row of the month of transaction i, when no earlier transaction falls in that month,
   * is named and numbered after i's date and holds that month's sums.
   */
  lemma MonthRowNamedByFirst(ts: seq<Transaction>, decode: string -> Option<CalendarDate>, i: nat)
    requires i < |ts| && decode(ts[i].date).Some?
    requires forall h :: 0 <= h < i && decode(ts[h].date).Some? ==> MonthKey(decode(ts[h].date).value) != MonthKey(decode(ts[i].date).value)
    ensures var d := decode(ts[i].date).value;
            var s := Stamp(ts, decode);
            var m := MonthRow(s, MonthKey(d));
            && m.month == MonthName(d) && m.monthNumber == d.month
            && m.income == SumFor(s, MonthKeyOf, MonthKey(d), IncomeAmount)
            && m.expense == SumFor(s, MonthKeyOf, MonthKey(d), ExpenseAmount)
            && m.balance == m.income - m.expense
  {
    var s := Stamp(ts, decode);
    var k := MonthKey(decode(ts[i].date).value);
    FirstOfAt(s, MonthKeyOf, k, i);
    MonthRowOfFirst(s, k);
  }

  function AccIncome(a: MonthAcc): real { a.income }

  function AccExpense(a: MonthAcc): real { a.expense }

  /** The balance step keeps the income and expense columns. */
  lemma {:induction false} WithBalancesSums(u: seq<MonthAcc>)
    ensures Sum(WithBalances(u), RowIncome) == Sum(u, AccIncome)
    ensures Sum(WithBalances(u), RowExpense) == Sum(u, AccExpense)
  {
    if u != [] {
      var u' := u[..|u| - 1];
      WithBalancesSums(u');
      var w := WithBalances(u);
      assert w[..|w| - 1] == WithBalances(u');
    }
  }

  lemma {:induction false} MonthEntriesSums(s: seq<Dated>, ks: seq<string>)
    ensures Sum(MonthEntries(s, ks), AccIncome) == GroupTotal(s, MonthKeyOf, IncomeAmount, ks)
    ensures Sum(MonthEntries(s, ks), AccExpense) == GroupTotal(s, MonthKeyOf, ExpenseAmount, ks)
  {
    if ks != [] {
      var ks' := ks[..|ks| - 1];
      MonthEntriesSums(s, ks');
      AccForSums(s, ks[|ks| - 1]);
      var r := MonthEntries(s, ks);
      assert r[..|r| - 1] == MonthEntries(s, ks');
    }
  }

  /**
   * The monthly income column adds up to the income of the transactions with a readable
   * date, and the expense column to their expense.
   */
  lemma MonthlyTotals(ts: seq<Transaction>, decode: string -> Option<CalendarDate>)
    ensures Sum(MonthlyRows(ts, decode), RowIncome) == SumKeyed(Stamp(ts, decode), MonthKeyOf, IncomeAmount)
    ensures Sum(MonthlyRows(ts, decode), RowExpense) == SumKeyed(Stamp(ts, decode), MonthKeyOf, ExpenseAmount)
  {
    var s := Stamp(ts, decode);
    var ks := GroupKeys(s, MonthKeyOf);
    GroupKeysSpec(s, MonthKeyOf);
    var u := WithBalances(MonthEntries(s, ks));
    SumSortBy(u, ByMonthNumber, RowIncome);
    SumSortBy(u, ByMonthNumber, RowExpense);
    WithBalancesSums(MonthEntries(s, ks));
    MonthEntriesSums(s, ks);
    GroupTotalPartition(s, MonthKeyOf, IncomeAmount, ks);
    GroupTotalPartition(s, MonthKeyOf, ExpenseAmount, ks);
  }

  /** A transaction whose date cannot be read changes nothing in the monthly table. */
  lemma MonthlySkipsUndated(ts: seq<Transaction>, t: Transaction, decode: string -> Option<CalendarDate>)
    requires decode(t.date).None?
    ensures MonthlyRows(ts + [t], decode) == MonthlyRows(ts, decode)
  {
    var s := Stamp(ts, decode);
    var x := DatedOf(t, decode);
    assert Stamp(ts + [t], decode) == s + [x];
    GroupKeysSnoc(s, x, MonthKeyOf);
    var ks := GroupKeys(s, MonthKeyOf);
    forall i | 0 <= i < |ks|
      ensures MonthEntries(s + [x], ks)[i] == MonthEntries(s, ks)[i]
    {
      AccForSnoc(s, x, ks[i]);
    }
    assert MonthEntries(s + [x], ks) == MonthEntries(s, ks);
  }

  /**
   * A transaction dated in a month that already has an entry adds its amount to that
   * month's income (an income) or expense (anything else) and leaves the other months alone.
   */
  lemma MonthlyAddsToMonth(ts: seq<Transaction>, t: Transaction, decode: string -> Option<CalendarDate>, k: string)
    requires decode(t.date).Some?
    ensures var s := Stamp(ts, decode);
            var x := DatedOf(t, decode);
            && (k != MonthKey(decode(t.date).value) ==> AccFor(s + [x], k) == AccFor(s, k))
            && (k == MonthKey(decode(t.date).value) && k in GroupKeys(s, MonthKeyOf) ==>
                  && AccFor(s + [x], k).income == AccFor(s, k).income + (if t.txType == Income then t.amount else 0.0)
                  && AccFor(s + [x], k).expense == AccFor(s, k).expense + (if t.txType == Income then 0.0 else t.amount)
                  && AccFor(s + [x], k).monthNumber == AccFor(s, k).monthNumber)
  {
    var s := Stamp(ts, decode);
    var x := DatedOf(t, decode);
    GroupKeysSpec(s, MonthKeyOf);
    AccForSnoc(s, x, k);
    FirstOfExists(s, MonthKeyOf, k);
  }

  // ---------------------------------------------------------------- enrichment

  /**
   * `enrichReportWithCalculations`: the report with both category breakdowns, their totals
   * and the monthly table filled in; everything else as it was.
   */
  function EnrichReport(report: ExpenseReport, decode: string -> Option<CalendarDate>): (r: ExpenseReport)
    ensures r.politician == report.politician && r.summary == report.summary
    ensures r.transactions == report.transactions && r.metadata == report.metadata
    ensures r.income == Some(CategoryTotals(CategoryBreakdowns(report.transactions, Income), TypeTotal(report.transactions, Income)))
    ensures r.expenses == Some(CategoryTotals(CategoryBreakdowns(report.transactions, Expense), TypeTotal(report.transactions, Expense)))
    ensures r.monthlyData == Some(MonthlyRows(report.transactions, decode))
  {
    var incomeCategories := CategoryBreakdowns(report.transactions, Income);
    var expenseCategories := CategoryBreakdowns(report.transactions, Expense);
    BreakdownTotals(report.transactions, Income);
    BreakdownTotals(report.transactions, Expense);
    report.(income := Some(CategoryTotals(incomeCategories, Sum(incomeCategories, RowAmount))),
            expenses := Some(CategoryTotals(expenseCategories, Sum(expenseCategories, RowAmount))),
            monthlyData := Some(MonthlyRows(report.transactions, decode)))
  }
}
