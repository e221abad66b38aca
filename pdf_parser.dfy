/**
 * `parsePDF`: the politician's name, organization and fiscal year read from the first
 * page's text, the summary figures and the ledger lines read from the whole text, and the
 * report assembled from them. The PDF library's text extraction yields the page texts,
 * which are inputs. The regular expressions that find the summary figures and the ledger
 * lines in that text are heuristics for OCR output; their matches (the captured groups, in
 * the order `exec` finds them) are inputs too, produced from the whole text by `scan`.
 */
module PdfParser {
  import opened Wrappers
  import opened Text
  import opened EraDates
  import opened Host
  import opened Ledger

  // ----- amounts

  /** `[\s,]`: what `parseAmount` strips before parsing. */
  predicate IsAmountNoise(c: char)
  {
    IsSpace(c) || c == ','
  }

  /** `parseAmount(amountStr)`: empty is 0, whitespace and commas go, unparseable is 0. */
  function ParseAmount(amountStr: string): real
  {
    if amountStr == "" then 0.0
    else NumberOrZero(ParseFloat(RemoveChars(amountStr, IsAmountNoise)))
  }

  /** Digits grouped by commas or spaces, as OCR renders `1, 234 567`, read as one number. */
  lemma ParseAmountGrouped(a: Digits, sep: string, b: Digits)
    requires forall i :: 0 <= i < |sep| ==> IsAmountNoise(sep[i])
    ensures ParseAmount(a + sep + b) == DigitsValue(a + b) as real
  {
    RemoveCharsNone(a, IsAmountNoise);
    RemoveCharsNone(b, IsAmountNoise);
    RemoveCharsAll(sep, IsAmountNoise);
    RemoveCharsAround(a, sep, b, IsAmountNoise);
    ParseFloatDigits(a + b);
  }

  /** A run of digits alone is its value. */
  lemma ParseAmountDigits(d: Digits)
    ensures ParseAmount(d) == DigitsValue(d) as real
  {
    RemoveCharsNone(d, IsAmountNoise);
    ParseFloatDigits(d);
  }

  /** Only whitespace and commas: nothing is left to parse, so 0. */
  lemma ParseAmountNoise(s: string)
    requires forall i :: 0 <= i < |s| ==> IsAmountNoise(s[i])
    ensures ParseAmount(s) == 0.0
  {
    RemoveCharsAll(s, IsAmountNoise);
  }

  lemma {:induction false} RemoveCharsAll(s: string, drop: char -> bool)
    requires forall i :: 0 <= i < |s| ==> drop(s[i])
    ensures RemoveChars(s, drop) == []
  {
    if s != [] {
      RemoveCharsAll(s[1..], drop);
    }
  }

  // ----- the politician, from the first page

  /** The first index from q on that is not whitespace: where a greedy `\s*` stops. */
  function SkipSpaces(s: string, q: nat): (r: nat)
    requires q <= |s|
    ensures q <= r <= |s|
    ensures r < |s| ==> !IsSpace(s[r])
    ensures forall i :: q <= i < r ==> IsSpace(s[i])
    decreases |s| - q
  {
    if q < |s| && IsSpace(s[q]) then SkipSpaces(s, q + 1) else q
  }

  /** The end of the run of non-whitespace characters from q on: where a greedy `[^\s]+` stops. */
  function WordEnd(s: string, q: nat): (r: nat)
    requires q <= |s|
    ensures q <= r <= |s|
    ensures r < |s| ==> IsSpace(s[r])
    ensures forall i :: q <= i < r ==> !IsSpace(s[i])
    decreases |s| - q
  {
    if q < |s| && !IsSpace(s[q]) then WordEnd(s, q + 1) else q
  }

  /**
   * `k1\s*k2\s*...kn\s*` matched at p, for the characters k1...kn of kw: the index after it.
   * Every `\s*` is followed by a literal or the capture, neither of which starts with
   * whitespace, so the greedy match is the only one.
   */
  function SpacedAt(s: string, p: nat, kw: string): (r: Option<nat>)
    requires p <= |s|
    ensures r.Some? ==> p <= r.value <= |s|
    decreases |kw|
  {
    if kw == [] then Some(p)
    else if p < |s| && s[p] == kw[0] then SpacedAt(s, SkipSpaces(s, p + 1), kw[1..])
    else None
  }

  /** `<kw spaced>([^\s]+)` matched at p: the captured word. */
  function FieldAt(s: string, p: nat, kw: string): (r: Option<string>)
  {
    if p > |s| then None
    else
      match SpacedAt(s, p, kw)
      case None => None
      case Some(q) =>
        var e := WordEnd(s, q);
        if e > q then Some(s[q..e]) else None
  }

  const NameLabel: string := "代表者の氏名"
  const OrganizationLabel: string := "政治団体の名称"

  /** `text.match(<key spaced>([^\s]+))`, trimmed, or the default. */
  function LabelledField(text: string, key: string, default: string): string
  {
    match Search(text, 0, (s: string, p: nat) => FieldAt(s, p, key))
    case Some(w) => Trim(w)
    case None => default
  }

  /** `令和?(\d+)年分` matched at p: the captured year. */
  function YearAt(s: string, p: nat): Option<Digits>
  {
    if p < |s| && s[p] == '令' then
      match RunAt(s, if p + 1 < |s| && s[p + 1] == '和' then p + 2 else p + 1)
      case Some((d, e)) => if e + 1 < |s| && s[e] == '年' && s[e + 1] == '分' then Some(d) else None
      case None => None
    else None
  }

  /** `(2018 + parseInt(n)).toString()` for the first `令和{n}年分`, else the current year. */
  function PdfFiscalYear(text: string, env: Env): string
  {
    match Search(text, 0, YearAt)
    case Some(d) => NatToString(WesternYear(d))
    case None => IntToString(env.currentYear)
  }

  /** `extractPoliticianInfo(firstPageText)`. */
  function PdfPolitician(firstPage: string, env: Env): PoliticianInfo
  {
    PoliticianInfo(
      LabelledField(firstPage, NameLabel, "不明"),
      LabelledField(firstPage, OrganizationLabel, "不明"),
      PdfFiscalYear(firstPage, env),
      None, None, None, None, None, None)
  }

  /** A key without spaces inside it is passed up to the whitespace after it. */
  lemma {:induction false} SpacedAtLiteral(s: string, p: nat, kw: string)
    requires kw != [] && p + |kw| <= |s| && s[p..p + |kw|] == kw
    requires forall i :: 0 <= i < |kw| ==> !IsSpace(kw[i])
    ensures SpacedAt(s, p, kw) == Some(SkipSpaces(s, p + |kw|))
    decreases |kw|
  {
    assert s[p] == s[p..p + |kw|][0] == kw[0];
    assert SpacedAt(s, p, kw) == SpacedAt(s, SkipSpaces(s, p + 1), kw[1..]);
    if |kw| == 1 {
      assert kw[1..] == [];
    } else {
      assert s[p + 1] == s[p..p + |kw|][1] == kw[1];
      assert SkipSpaces(s, p + 1) == p + 1;
      assert s[p + 1..p + 1 + |kw[1..]|] == kw[1..];
      SpacedAtLiteral(s, p + 1, kw[1..]);
    }
  }

  /** The whitespace gap after pre is skipped up to the first non-space after it, at q. */
  lemma GapSkipped(s: string, q: nat, pre: string, gap: string, tail: string)
    requires s == pre + gap + tail && q == |pre| + |gap|
    requires forall i :: 0 <= i < |gap| ==> IsSpace(gap[i])
    requires tail == [] || !IsSpace(tail[0])
    ensures SkipSpaces(s, |pre|) == q
  {
    forall i | |pre| <= i < q
      ensures IsSpace(s[i])
    {
      assert s[i] == gap[i - |pre|];
    }
    if tail != [] {
      assert s[q] == tail[0];
    }
    SkipSpacesTo(s, |pre|, q);
  }

  /** A word after pre that ends at whitespace or at the end of the text ends at e. */
  lemma WordRead(s: string, q: nat, e: nat, pre: string, w: string, rest: string)
    requires s == pre + w + rest && q == |pre| && e == q + |w|
    requires forall i :: 0 <= i < |w| ==> !IsSpace(w[i])
    requires rest == [] || IsSpace(rest[0])
    ensures WordEnd(s, q) == e && s[q..e] == w
  {
    forall i | q <= i < e
      ensures !IsSpace(s[i])
    {
      assert s[i] == w[i - q];
    }
    if rest != [] {
      assert s[e] == rest[0];
    }
    WordEndTo(s, q, e);
    assert s[q..e] == w;
  }

  /** The word after a key at the start of the text, past any whitespace, is what the pattern captures there. */
  lemma FieldAtFirst(key: string, gap: string, w: string, rest: string)
    requires key != [] && forall i :: 0 <= i < |key| ==> !IsSpace(key[i])
    requires forall i :: 0 <= i < |gap| ==> IsSpace(gap[i])
    requires w != [] && forall i :: 0 <= i < |w| ==> !IsSpace(w[i])
    requires rest == [] || IsSpace(rest[0])
    ensures FieldAt(key + gap + w + rest, 0, key) == Some(w)
  {
    var s := key + gap + w + rest;
    var q := |key| + |gap|;
    assert s[0..|key|] == key;
    SpacedAtLiteral(s, 0, key);
    assert s == key + gap + (w + rest);
    GapSkipped(s, q, key, gap, w + rest);
    assert s == (key + gap) + w + rest;
    WordRead(s, q, q + |w|, key + gap, w, rest);
  }

  /** The word after a key at the start of the text, past any whitespace, is the field. */
  lemma LabelledFieldFirst(key: string, gap: string, w: string, rest: string, default: string)
    requires key != [] && forall i :: 0 <= i < |key| ==> !IsSpace(key[i])
    requires forall i :: 0 <= i < |gap| ==> IsSpace(gap[i])
    requires w != [] && forall i :: 0 <= i < |w| ==> !IsSpace(w[i])
    requires rest == [] || IsSpace(rest[0])
    ensures LabelledField(key + gap + w + rest, key, default) == w
  {
    FieldAtFirst(key, gap, w, rest);
    TrimUnchanged(w);
  }

  lemma {:induction false} SkipSpacesTo(s: string, q: nat, r: nat)
    requires q <= r <= |s|
    requires forall i :: q <= i < r ==> IsSpace(s[i])
    requires r == |s| || !IsSpace(s[r])
    ensures SkipSpaces(s, q) == r
    decreases r - q
  {
    if q < r {
      SkipSpacesTo(s, q + 1, r);
    }
  }

  lemma {:induction false} WordEndTo(s: string, q: nat, r: nat)
    requires q <= r <= |s|
    requires forall i :: q <= i < r ==> !IsSpace(s[i])
    requires r == |s| || IsSpace(s[r])
    ensures WordEnd(s, q) == r
    decreases r - q
  {
    if q < r {
      WordEndTo(s, q + 1, r);
    }
  }

  /** A field that is found is a non-empty word with no whitespace, so trimming keeps it. */
  lemma LabelledFieldWord(text: string, key: string, default: string)
    requires Search(text, 0, (s: string, p: nat) => FieldAt(s, p, key)).Some?
    ensures var r := LabelledField(text, key, default);
            r != [] && forall i :: 0 <= i < |r| ==> !IsSpace(r[i])
  {
    var at := (s: string, p: nat) => FieldAt(s, p, key);
    SearchFound(text, 0, at);
    var w := Search(text, 0, at).value;
    assert w != [] && forall i :: 0 <= i < |w| ==> !IsSpace(w[i]);
    TrimUnchanged(w);
  }

  /** Without the key's first character the field takes its default. */
  lemma LabelledFieldMissing(text: string, key: string, default: string)
    requires key != []
    requires forall i :: 0 <= i < |text| ==> text[i] != key[0]
    ensures LabelledField(text, key, default) == default
  {
    var at := (s: string, p: nat) => FieldAt(s, p, key);
    forall q | 0 <= q <= |text|
      ensures at(text, q).None?
    {
    }
    SearchNone(text, 0, at);
  }

  /** `令和{n}年分` (or `令{n}年分`) at the start of the page: the fiscal year is 2018 + n. */
  lemma PdfFiscalYearReiwa(era: string, d: Digits, rest: string, env: Env)
    requires era == "令和" || era == "令"
    ensures PdfFiscalYear(era + d + "年分" + rest, env) == NatToString(WesternYear(d))
  {
    var s := era + d + "年分" + rest;
    assert s == era + d + ("年分" + rest);
    RunAtBefore(era, d, "年分" + rest);
    assert s[|era| + |d|] == '年' && s[|era| + |d| + 1] == '分';
    assert s[0] == '令';
    if era == "令" {
      assert s[1] == d[0];
    } else {
      assert s[1] == '和';
    }
    assert YearAt(s, 0) == Some(d);
  }

  /** A page without 令 or without 年分 after the year names no fiscal year: the current year is used. */
  lemma PdfFiscalYearMissing(text: string, env: Env)
    requires forall i :: 0 <= i < |text| ==> text[i] != '令'
    ensures PdfFiscalYear(text, env) == IntToString(env.currentYear)
  {
    SearchNone(text, 0, YearAt);
  }

  // ----- the summary figures

  /**
   * The `(\d[\d\s,]*)` captures of the four summary patterns (収入額, 支出総額,
   * 前年からの繰越額, 翌年への繰越額), `None` where the pattern does not match.
   */
  datatype SummaryMatches = SummaryMatches(
    income: Option<string>, expense: Option<string>,
    carriedFrom: Option<string>, carriedTo: Option<string>)

  /** `match ? parseAmount(match[1]) : 0`. */
  function Figure(m: Option<string>): real
  {
    match m
    case Some(s) => ParseAmount(s)
    case None => 0.0
  }

  /** `extractSummary(text)`: there is no separate figure for this year's expense. */
  function PdfSummary(m: SummaryMatches): Summary
  {
    var incomeTotal := Figure(m.income);
    var expenseTotal := Figure(m.expense);
    Summary(incomeTotal, expenseTotal, None, incomeTotal - expenseTotal, Figure(m.carriedFrom), Figure(m.carriedTo))
  }

  /** A figure that is not found is 0, and the balance is income minus expense. */
  lemma PdfSummaryFigures(m: SummaryMatches)
    ensures var r := PdfSummary(m);
            && (m.income.None? ==> r.incomeTotal == 0.0)
            && (m.expense.None? ==> r.expenseTotal == 0.0)
            && (m.carriedFrom.None? ==> r.carriedFromPrevYear == 0.0)
            && (m.carriedTo.None? ==> r.carriedToNextYear == 0.0)
            && r.balance == r.incomeTotal - r.expenseTotal
            && r.thisYearExpense.None?
  {
  }

  /** Figures captured as plain digit runs are their values. */
  lemma PdfSummaryDigits(income: Digits, expense: Digits, env: Env)
    ensures var r := PdfSummary(SummaryMatches(Some(income), Some(expense), None, None));
            && r.incomeTotal == DigitsValue(income) as real
            && r.expenseTotal == DigitsValue(expense) as real
            && r.balance == DigitsValue(income) as real - DigitsValue(expense) as real
  {
    ParseAmountDigits(income);
    ParseAmountDigits(expense);
  }

  // ----- the ledger lines

  /** A donation line: name, amount, the `R{y}/{m}/{d}` date and occupation. */
  datatype DonationMatch = DonationMatch(name: string, amount: string, date: Ymd, occupation: string)

  /** An office-expense line: amount, date and recipient. */
  datatype OfficeMatch = OfficeMatch(amount: string, date: Ymd, recipient: string)

  /** A supplies line: amount and date. */
  datatype SuppliesMatch = SuppliesMatch(amount: string, date: Ymd)

  /** All matches `scan` finds in the text. */
  datatype PdfMatches = PdfMatches(
    summary: SummaryMatches,
    donations: seq<DonationMatch>,
    offices: seq<OfficeMatch>,
    supplies: seq<SuppliesMatch>)

  function DonationTransaction(m: DonationMatch, id: string): Transaction
  {
    Transaction(id, ReiwaDate(m.date), "個人からの寄附", None, m.name, Some(m.name), None, None,
                ParseAmount(m.amount), Income, Some(m.occupation))
  }

  function OfficeTransaction(m: OfficeMatch, id: string): Transaction
  {
    Transaction(id, ReiwaDate(m.date), "事務所費", None, "事務所費", Some(m.recipient), None, None,
                ParseAmount(m.amount), Expense, None)
  }

  function SuppliesTransaction(m: SuppliesMatch, id: string): Transaction
  {
    Transaction(id, ReiwaDate(m.date), "備品・消耗品費", None, "備品・消耗品費", None, None, None,
                ParseAmount(m.amount), Expense, None)
  }

  /** One transaction per match, the i-th drawing the (start + i)-th id. */
  function Indexed<M>(ms: seq<M>, start: nat, build: (M, nat) -> Transaction): (r: seq<Transaction>)
    ensures |r| == |ms|
  {
    seq(|ms|, i requires 0 <= i < |ms| => build(ms[i], start + i))
  }

  /** A `while ((match = pattern.exec(text)) !== null) { transactions.push(...) }` loop. */
  method BuildEach<M>(ms: seq<M>, start: nat, build: (M, nat) -> Transaction) returns (txs: seq<Transaction>)
    ensures txs == Indexed(ms, start, build)
  {
    txs := [];
    var i := 0;
    while i < |ms|
      invariant 0 <= i <= |ms| && |txs| == i
      invariant forall k :: 0 <= k < i ==> txs[k] == build(ms[k], start + k)
    {
      txs := txs + [build(ms[i], start + i)];
      i := i + 1;
    }
  }

  function DonationStep(env: Env): (DonationMatch, nat) -> Transaction
  {
    (m: DonationMatch, n: nat) => DonationTransaction(m, env.newId(n))
  }

  function OfficeStep(env: Env): (OfficeMatch, nat) -> Transaction
  {
    (m: OfficeMatch, n: nat) => OfficeTransaction(m, env.newId(n))
  }

  function SuppliesStep(env: Env): (SuppliesMatch, nat) -> Transaction
  {
    (m: SuppliesMatch, n: nat) => SuppliesTransaction(m, env.newId(n))
  }

  /** `extractTransactions(fullText, pages)`: the donations, then the office expenses, then the supplies. */
  function PdfLedger(m: PdfMatches, env: Env): seq<Transaction>
  {
    Indexed(m.donations, 0, DonationStep(env))
    + Indexed(m.offices, |m.donations|, OfficeStep(env))
    + Indexed(m.supplies, |m.donations| + |m.offices|, SuppliesStep(env))
  }

  /** `parseIncomeSection(fullText)` pushed, then `parseExpenseSection(fullText)` (its two loops) pushed. */
  method ExtractPdfTransactions(m: PdfMatches, env: Env) returns (transactions: seq<Transaction>)
    ensures transactions == PdfLedger(m, env)
  {
    transactions := [];
    var income := BuildEach(m.donations, 0, DonationStep(env));
    transactions := transactions + income;
    var offices := BuildEach(m.offices, |transactions|, OfficeStep(env));
    var supplies := BuildEach(m.supplies, |transactions| + |offices|, SuppliesStep(env));
    transactions := transactions + (offices + supplies);
    assert [] + income == income;
  }

  /** The transactions of ts, from position start on, carry the ids drawn at their positions. */
  ghost predicate IdsFrom(ts: seq<Transaction>, start: nat, env: Env)
  {
    forall k :: 0 <= k < |ts| ==> ts[k].id == env.newId(start + k)
  }

  /** Builders that give the transaction at position n the n-th id number their matches on from start. */
  lemma IndexedIds<M>(ms: seq<M>, start: nat, build: (M, nat) -> Transaction, env: Env)
    requires forall x, n :: build(x, n).id == env.newId(n)
    ensures IdsFrom(Indexed(ms, start, build), start, env)
  {
  }

  /** Numbered runs placed one after the other stay numbered. */
  lemma IdsAppend(a: seq<Transaction>, b: seq<Transaction>, start: nat, env: Env)
    requires IdsFrom(a, start, env) && IdsFrom(b, start + |a|, env)
    ensures IdsFrom(a + b, start, env)
  {
    forall k | 0 <= k < |a + b|
      ensures (a + b)[k].id == env.newId(start + k)
    {
      if k < |a| {
        assert (a + b)[k] == a[k];
      } else {
        assert (a + b)[k] == b[k - |a|];
      }
    }
  }

  /** Each section numbers its transactions on from the position it starts at. */
  lemma SectionIds(m: PdfMatches, env: Env)
    ensures IdsFrom(Indexed(m.donations, 0, DonationStep(env)), 0, env)
    ensures IdsFrom(Indexed(m.offices, |m.donations|, OfficeStep(env)), |m.donations|, env)
    ensures IdsFrom(Indexed(m.supplies, |m.donations| + |m.offices|, SuppliesStep(env)), |m.donations| + |m.offices|, env)
  {
    IndexedIds(m.donations, 0, DonationStep(env), env);
    IndexedIds(m.offices, |m.donations|, OfficeStep(env), env);
    IndexedIds(m.supplies, |m.donations| + |m.offices|, SuppliesStep(env), env);
  }

  /** Three numbered runs placed one after the other are numbered from 0. */
  lemma ThreeRuns(d: seq<Transaction>, o: seq<Transaction>, s: seq<Transaction>, env: Env)
    requires IdsFrom(d, 0, env) && IdsFrom(o, |d|, env) && IdsFrom(s, |d| + |o|, env)
    ensures IdsFrom(d + o + s, 0, env)
  {
    IdsAppend(d, o, 0, env);
    IdsAppend(d + o, s, 0, env);
  }

  /** The ledger holds one transaction per match, and the i-th draws the i-th id. */
  lemma PdfLedgerIds(m: PdfMatches, env: Env)
    ensures |PdfLedger(m, env)| == |m.donations| + |m.offices| + |m.supplies|
    ensures forall i :: 0 <= i < |PdfLedger(m, env)| ==> PdfLedger(m, env)[i].id == env.newId(i)
  {
    SectionIds(m, env);
    ThreeRuns(Indexed(m.donations, 0, DonationStep(env)),
              Indexed(m.offices, |m.donations|, OfficeStep(env)),
              Indexed(m.supplies, |m.donations| + |m.offices|, SuppliesStep(env)), env);
  }

  /**
   * The donations come first, as income under 個人からの寄附 with the donor as description
   * and recipient and the occupation as notes.
   */
  lemma PdfLedgerDonation(m: PdfMatches, env: Env, i: nat)
    requires i < |m.donations|
    ensures var t := PdfLedger(m, env)[i];
            var d := m.donations[i];
            && t.txType == Income && t.category == "個人からの寄附"
            && t.description == d.name && t.recipient == Some(d.name) && t.notes == Some(d.occupation)
            && t.amount == ParseAmount(d.amount) && t.date == ReiwaDate(d.date)
  {
    var d := Indexed(m.donations, 0, DonationStep(env));
    var rest := Indexed(m.offices, |m.donations|, OfficeStep(env)) + Indexed(m.supplies, |m.donations| + |m.offices|, SuppliesStep(env));
    assert PdfLedger(m, env) == d + rest;
    assert (d + rest)[i] == d[i] == DonationTransaction(m.donations[i], env.newId(i));
  }

  /** Then the office expenses, paid to the recipient the line names. */
  lemma PdfLedgerOffice(m: PdfMatches, env: Env, i: nat)
    requires i < |m.offices|
    ensures var t := PdfLedger(m, env)[|m.donations| + i];
            var o := m.offices[i];
            && t.txType == Expense && t.category == "事務所費" && t.description == "事務所費"
            && t.recipient == Some(o.recipient) && t.amount == ParseAmount(o.amount) && t.date == ReiwaDate(o.date)
  {
    var d := Indexed(m.donations, 0, DonationStep(env));
    var o := Indexed(m.offices, |m.donations|, OfficeStep(env));
    var s := Indexed(m.supplies, |m.donations| + |m.offices|, SuppliesStep(env));
    assert PdfLedger(m, env) == d + (o + s);
    assert (d + (o + s))[|d| + i] == (o + s)[i] == o[i] == OfficeTransaction(m.offices[i], env.newId(|m.donations| + i));
  }

  /** Last the supplies, with no recipient. */
  lemma PdfLedgerSupplies(m: PdfMatches, env: Env, i: nat)
    requires i < |m.supplies|
    ensures var t := PdfLedger(m, env)[|m.donations| + |m.offices| + i];
            var u := m.supplies[i];
            && t.txType == Expense && t.category == "備品・消耗品費" && t.description == "備品・消耗品費"
            && t.recipient.None? && t.amount == ParseAmount(u.amount) && t.date == ReiwaDate(u.date)
  {
    var d := Indexed(m.donations, 0, DonationStep(env));
    var o := Indexed(m.offices, |m.donations|, OfficeStep(env));
    var s := Indexed(m.supplies, |m.donations| + |m.offices|, SuppliesStep(env));
    assert (d + o + s)[|d| + |o| + i] == s[i] == SuppliesTransaction(m.supplies[i], env.newId(|m.donations| + |m.offices| + i));
  }

  // ----- the report

  /** `fullText`: every page's text followed by a newline. */
  function FullText(pages: seq<string>): string
  {
    if pages == [] then "" else FullText(pages[..|pages| - 1]) + pages[|pages| - 1] + "\n"
  }

  /**
   * The report from the page texts, or `None` when there is no page: `pages[0]` is then
   * undefined and `extractPoliticianInfo` throws.
   */
  function PdfParsed(pages: seq<string>, scan: string -> PdfMatches, env: Env): Option<ExpenseReport>
  {
    if pages == [] then None
    else
      var politician := PdfPolitician(pages[0], env);
      var matches := scan(FullText(pages));
      var summary := PdfSummary(matches.summary);
      Some(ExpenseReport(
        politician,
        summary,
        Some(CategoryTotals([], summary.incomeTotal)),
        Some(CategoryTotals([], summary.expenseTotal)),
        PdfLedger(matches, env),
        Some([]),
        ReportMetadata(env.uploadedAt, Pdf, politician.fiscalYear)))
  }

  /** `parsePDF(file)` from the page texts on: the page loop, then the sections. */
  method ParsePdf(pages: seq<string>, scan: string -> PdfMatches, env: Env) returns (report: Option<ExpenseReport>)
    ensures report == PdfParsed(pages, scan, env)
  {
    var fullText := "";
    var i := 0;
    while i < |pages|
      invariant 0 <= i <= |pages|
      invariant fullText == FullText(pages[..i])
    {
      assert pages[..i + 1][..i] == pages[..i];
      fullText := fullText + pages[i] + "\n";
      i := i + 1;
    }
    assert pages[..|pages|] == pages;
    if |pages| == 0 {
      return None;
    }
    var politician := PdfPolitician(pages[0], env);
    var matches := scan(fullText);
    var summary := PdfSummary(matches.summary);
    var transactions := ExtractPdfTransactions(matches, env);
    report := Some(ExpenseReport(
      politician, summary,
      Some(CategoryTotals([], summary.incomeTotal)),
      Some(CategoryTotals([], summary.expenseTotal)),
      transactions, Some([]),
      ReportMetadata(env.uploadedAt, Pdf, politician.fiscalYear)));
  }

  /** The full text holds every page in order, each ended by a newline. */
  lemma {:induction false} FullTextPages(pages: seq<string>)
    ensures |FullText(pages)| >= |pages|
    ensures pages != [] ==> StartsWith(FullText(pages), pages[0] + "\n")
  {
    if pages != [] {
      FullTextPages(pages[..|pages| - 1]);
      if |pages| > 1 {
        var prev := FullText(pages[..|pages| - 1]);
        assert pages[..|pages| - 1][0] == pages[0];
        assert FullText(pages)[..|pages[0] + "\n"|] == prev[..|pages[0] + "\n"|];
      } else {
        assert pages[..0] == [];
      }
    }
  }

  /**
   * The report's income and expense totals are the summary's, its categories and monthly
   * data start empty, and it carries the politician's fiscal year; no page, no report.
   */
  lemma PdfReportShape(pages: seq<string>, scan: string -> PdfMatches, env: Env)
    ensures PdfParsed(pages, scan, env).Some? <==> pages != []
    ensures var r := PdfParsed(pages, scan, env);
            r.Some? ==>
              && r.value.income == Some(CategoryTotals([], r.value.summary.incomeTotal))
              && r.value.expenses == Some(CategoryTotals([], r.value.summary.expenseTotal))
              && r.value.monthlyData == Some([])
              && r.value.metadata.fiscalYear == r.value.politician.fiscalYear
              && r.value.metadata.source == Pdf
              && r.value.summary.balance == r.value.summary.incomeTotal - r.value.summary.expenseTotal
              && r.value.summary == PdfSummary(scan(FullText(pages)).summary)
  {
  }
}
