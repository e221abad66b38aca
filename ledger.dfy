/**
 * The records the dashboard passes around: transactions, the politician's identity,
 * the declared summary, per-category breakdowns, monthly rows and the report that holds
 * them, with the fixed category colour tables.
 */
module Ledger {
  import opened Wrappers
  import opened Seqs

  datatype TxType = Income | Expense

  datatype Transaction = Transaction(
    id: string,
    date: string,
    category: string,
    subcategory: Option<string>,
    description: string,
    recipient: Option<string>,
    location: Option<string>,
    url: Option<string>,
    amount: real,
    txType: TxType,
    notes: Option<string>)

  datatype PoliticianInfo = PoliticianInfo(
    name: string,
    organization: string,
    fiscalYear: string,
    party: Option<string>,
    hereditary: Option<string>,
    electionCount: Option<int>,
    address: Option<string>,
    accountant: Option<string>,
    representative: Option<string>)

  datatype Summary = Summary(
    incomeTotal: real,
    expenseTotal: real,
    thisYearExpense: Option<real>,
    balance: real,
    carriedFromPrevYear: real,
    carriedToNextYear: real)

  datatype CategoryBreakdown = CategoryBreakdown(
    category: string,
    amount: real,
    percentage: real,
    color: string,
    count: nat)

  datatype MonthlyData = MonthlyData(
    month: string,
    monthNumber: int,
    income: real,
    expense: real,
    balance: real)

  datatype CategoryTotals = CategoryTotals(categories: seq<CategoryBreakdown>, total: real)

  datatype Source = Pdf | Csv | Xlsx

  datatype ReportMetadata = ReportMetadata(uploadedAt: string, source: Source, fiscalYear: string)

  /**
   * A report. The parsers leave `income`, `expenses` and `monthlyData` unset (the PDF
   * parser sets them empty); the aggregation step fills them in.
   */
  datatype ExpenseReport = ExpenseReport(
    politician: PoliticianInfo,
    summary: Summary,
    income: Option<CategoryTotals>,
    expenses: Option<CategoryTotals>,
    transactions: seq<Transaction>,
    monthlyData: Option<seq<MonthlyData>>,
    metadata: ReportMetadata)

  /** The income category colour table, in declaration order. */
  const IncomeCategories: seq<(string, string)> := [
    ("個人からの寄附", "#64D8C6"),
    ("法人その他の団体からの寄附", "#4BC4B0"),
    ("政治団体からの寄附", "#238778"),
    ("機関紙誌の発行による収入", "#BCECD3"),
    ("借入金", "#E6F7F4"),
    ("その他の収入", "#9CA3AF")
  ]

  /** The expense category colour table, in declaration order. */
  const ExpenseCategories: seq<(string, string)> := [
    ("経常経費", "#EF4444"),
    ("人件費", "#DC2626"),
    ("光熱水費", "#B91C1C"),
    ("備品・消耗品費", "#991B1B"),
    ("事務所費", "#7F1D1D"),
    ("政治活動費", "#F87171"),
    ("組織活動費", "#EF4444"),
    ("選挙関係費", "#FEE2E2"),
    ("機関紙誌の発行", "#F87171"),
    ("調査研究費", "#FCA5A5"),
    ("寄附・交付金", "#FED7AA"),
    ("その他の経費", "#9CA3AF")
  ]

  function AmountOf(t: Transaction): real { t.amount }

  /** The transactions of one type, in ledger order. */
  function OfType(ts: seq<Transaction>, ty: TxType): (r: seq<Transaction>)
    ensures forall i :: 0 <= i < |r| ==> r[i].txType == ty
  {
    Filter(ts, (t: Transaction) => t.txType == ty)
  }

  /** `ts.filter(t => t.type === ty).reduce((sum, t) => sum + t.amount, 0)`. */
  function TypeTotal(ts: seq<Transaction>, ty: TxType): real
  {
    Sum(OfType(ts, ty), AmountOf)
  }

  /** Adding a transaction raises its own type's total by its amount and leaves the other alone. */
  lemma TypeTotalSnoc(ts: seq<Transaction>, t: Transaction, ty: TxType)
    ensures TypeTotal(ts + [t], ty) == TypeTotal(ts, ty) + (if t.txType == ty then t.amount else 0.0)
  {
    var p := (t: Transaction) => t.txType == ty;
    assert (ts + [t])[..|ts + [t]| - 1] == ts;
    if t.txType == ty {
      SumAppend(Filter(ts, p), [t], AmountOf);
    } else {
      assert Filter(ts + [t], p) == Filter(ts, p);
    }
  }
}
