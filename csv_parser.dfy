/**
 * The CSV upload path. Comment lines of the form `#KEY=VALUE` carry metadata; the other
 * comment lines are dropped; every remaining line goes to the CSV tokenizer, whose rows
 * (header name to field) become transactions. Totals the metadata does not declare are
 * computed from the transactions.
 */
module CsvParser {
  import opened Wrappers
  import opened Seqs
  import opened Text
  import opened EraDates
  import opened Host
  import opened Ledger

  /**
   * A tokenized row, header name to field, as the CSV library delivers it with
   * `header: true`; a header the row has no field for is an undefined field. The metadata
   * object is a map of the same shape.
   */
  type Row = map<string, string>

  /** `row[k]`: the field, or `None` for undefined. */
  function Field(row: Row, k: string): Option<string>
  {
    if k in row then Some(row[k]) else None
  }

  // ----- metadata comment lines

  predicate IsMetaLine(line: string)
  {
    StartsWith(Trim(line), "#") && '=' in Trim(line)
  }

  /** A line that is not a comment: kept, untrimmed, for the tokenizer. */
  predicate IsDataLine(line: string)
  {
    !StartsWith(Trim(line), "#")
  }

  /** `const [key, value] = trimmed.substring(1).split('=')`, both trimmed. */
  function MetaEntry(line: string): (string, string)
    requires IsMetaLine(line)
  {
    var t := Trim(line);
    var u := t[1..];
    assert '=' in u by {
      var i :| 0 <= i < |t| && t[i] == '=';
      assert t[0] == t[..1][0] == '#';
      assert u[i - 1] == '=';
    }
    SplitMany(u, '=');
    var parts := Split(u, '=');
    (Trim(parts[0]), Trim(parts[1]))
  }

  /** The assignment a line makes, if it is a metadata line. */
  function LineEntry(line: string): Option<(string, string)>
  {
    if IsMetaLine(line) then Some(MetaEntry(line)) else None
  }

  /** The metadata object the line loop builds: later lines overwrite earlier ones. */
  function Metadata(csvText: string): Row
  {
    Assign(Collect(Split(csvText, '\n'), LineEntry))
  }

  /** `dataLines.join('\n')`: the text handed to the tokenizer. */
  function DataText(csvText: string): string
  {
    Join(Filter(Split(csvText, '\n'), IsDataLine), '\n')
  }

  /** The loop over the lines: assignments into the object, non-comment lines kept in order. */
  method ScanLines(lines: seq<string>) returns (metadata: Row, dataLines: seq<string>)
    ensures metadata == Assign(Collect(lines, LineEntry))
    ensures dataLines == Filter(lines, IsDataLine)
  {
    metadata := map[];
    dataLines := [];
    var i := 0;
    while i < |lines|
      invariant 0 <= i <= |lines|
      invariant metadata == Assign(Collect(lines[..i], LineEntry))
      invariant dataLines == Filter(lines[..i], IsDataLine)
    {
      var line := lines[i];
      assert lines[..i + 1] == lines[..i] + [line];
      CollectSnoc(lines[..i], line, LineEntry);
      FilterSnoc(lines[..i], line, IsDataLine);
      if IsMetaLine(line) {
        var entry := MetaEntry(line);
        AssignSnoc(Collect(lines[..i], LineEntry), entry);
        metadata := metadata[entry.0 := entry.1];
      } else {
        assert Collect(lines[..i + 1], LineEntry) == Collect(lines[..i], LineEntry);
        if IsDataLine(line) {
          dataLines := dataLines + [line];
        }
      }
      i := i + 1;
    }
    assert lines[..|lines|] == lines;
  }

  /** The metadata extraction of `parseCSV`: split into lines, scan them, join the kept lines. */
  method ExtractMetadata(csvText: string) returns (metadata: Row, csvData: string)
    ensures metadata == Metadata(csvText)
    ensures csvData == DataText(csvText)
  {
    var dataLines;
    metadata, dataLines := ScanLines(Split(csvText, '\n'));
    csvData := Join(dataLines, '\n');
  }

  /** A line `#` followed by text u with an `=`, u splitting into k and v, assigns Trim(k) := Trim(v). */
  lemma EntryOfLine(line: string, u: string, k: string, v: string)
    requires |line| >= 1 && line[0] == '#' && !IsSpace(line[|line| - 1])
    requires line[1..] == u && '=' in u && Split(u, '=') == [k, v]
    ensures LineEntry(line) == Some((Trim(k), Trim(v)))
  {
    TrimUnchanged(line);
    assert line[..1] == "#";
    var i :| 0 <= i < |u| && u[i] == '=';
    assert line[i + 1] == '=';
  }

  /** A line `#KEY=VALUE` with a trimmed key and value and no further `=` reads back as (KEY, VALUE). */
  lemma MetaLineRoundTrip(k: string, v: string)
    requires k != [] && !IsSpace(k[0]) && !IsSpace(k[|k| - 1]) && '=' !in k
    requires v == [] || (!IsSpace(v[0]) && !IsSpace(v[|v| - 1]))
    requires '=' !in v
    ensures LineEntry("#" + k + "=" + v) == Some((k, v))
  {
    var line := "#" + k + "=" + v;
    var u := k + ['='] + v;
    assert line == ['#'] + u;
    assert !IsSpace(line[|line| - 1]) by {
      if v == [] { assert line[|line| - 1] == '='; } else { assert line[|line| - 1] == v[|v| - 1]; }
    }
    assert u[|k|] == '=';
    SplitAfterLast(k, '=', v);
    SplitWhole(k, '=');
    assert Split(u, '=') == [k, v];
    assert line[1..] == u;
    assert '=' in u;
    TrimUnchanged(k);
    TrimUnchanged(v);
    EntryOfLine(line, u, k, v);
  }

  /** A line without `=` assigns nothing, whether or not it is a comment. */
  lemma NoEqualsNoEntry(line: string)
    requires '=' !in line
    ensures LineEntry(line) == None
  {
    TrimAbsent(line, '=');
  }

  /** The value of a key is the one on the last metadata line that assigns it. */
  lemma MetadataLastWins(lines: seq<string>, j: nat)
    requires j < |lines| && IsMetaLine(lines[j])
    requires forall l :: j < l < |lines| && IsMetaLine(lines[l]) ==> MetaEntry(lines[l]).0 != MetaEntry(lines[j]).0
    ensures MetaEntry(lines[j]).0 in Assign(Collect(lines, LineEntry))
    ensures Assign(Collect(lines, LineEntry))[MetaEntry(lines[j]).0] == MetaEntry(lines[j]).1
  {
    CollectLastWins(lines, LineEntry, j);
  }

  /** Every key of the metadata comes from some metadata line. */
  lemma MetadataFromLines(lines: seq<string>, k: string)
    requires k in Assign(Collect(lines, LineEntry))
    ensures exists j :: 0 <= j < |lines| && IsMetaLine(lines[j]) && MetaEntry(lines[j]).0 == k
  {
    CollectKeys(lines, LineEntry, k);
  }

  /** Text without comment lines reaches the tokenizer unchanged. */
  lemma DataTextWithoutComments(csvText: string)
    requires forall j :: 0 <= j < |Split(csvText, '\n')| ==> IsDataLine(Split(csvText, '\n')[j])
    ensures DataText(csvText) == csvText
  {
    FilterAll(Split(csvText, '\n'), IsDataLine);
    JoinSplit(csvText, '\n');
  }

  // ----- fields

  /** `parseJapaneseDate(dateStr)`: today for a blank or unrecognised date. */
  function JapaneseDate(dateStr: Option<string>, today: string): string
  {
    if !Filled(dateStr) then today
    else
      var s := dateStr.value;
      if IsoLike(s) then ReplaceChar(s, '/', '-')
      else
        match Search(s, 0, KanjiAt)
        case Some(c) => ReiwaDate(c)
        case None => today
  }

  /** A `YYYY/M/D` or `YYYY-M-D` date is kept, with dashes for slashes. */
  lemma JapaneseDateIso(s: string, today: string)
    requires IsoLike(s)
    ensures var r := JapaneseDate(Some(s), today);
            IsoLike(r) && '/' !in r && r[4] == '-'
            && forall i :: 0 <= i < |s| && s[i] != '/' ==> r[i] == s[i]
  {
    assert s != "";
    IsoLikeDashes(s);
  }

  /** A string in which the leftmost Reiwa match is c, and not of the `YYYY/M/D` shape, is that match's date. */
  lemma JapaneseDateOfMatch(s: string, c: Ymd, today: string)
    requires s != "" && !IsoLike(s) && Search(s, 0, KanjiAt) == Some(c)
    ensures JapaneseDate(Some(s), today) == ReiwaDate(c)
  {
  }

  /** `令和{n}年{m}月{d}日` becomes the Western date, month and day padded to two digits. */
  lemma JapaneseDateReiwa(n: nat, m: nat, d: nat, today: string)
    ensures JapaneseDate(Some("令和" + NatToString(n) + "年" + NatToString(m) + "月" + NatToString(d) + "日"), today)
            == NatToString(2018 + n) + "-" + PadStart(NatToString(m), 2, '0') + "-" + PadStart(NatToString(d), 2, '0')
  {
    var c := Ymd(NatToString(n), NatToString(m), NatToString(d));
    var s := ReiwaText(c);
    KanjiCanonical(c);
    SearchLeftmost(s, 0, KanjiAt, 0);
    assert s[0] == '令';
    NotIsoLike(s);
    JapaneseDateOfMatch(s, c, today);
    DigitsValueNatToString(n);
    assert WesternYear(c.year) == 2018 + n;
    assert JapaneseDate(Some(s), today) == ReiwaDate(c);
  }

  /** A date in neither form, such as `2023年4月1日` without an era, falls back to today. */
  lemma JapaneseDateUnrecognised(s: string, today: string)
    requires s != "" && !IsoLike(s) && '令' !in s
    ensures JapaneseDate(Some(s), today) == today
  {
    forall q | 0 <= q <= |s|
      ensures KanjiAt(s, q).None?
    {
      if q < |s| {
        assert s[q] != '令';
      }
    }
    SearchNone(s, 0, KanjiAt);
  }

  /** A blank or missing date is today. */
  lemma JapaneseDateBlank(dateStr: Option<string>, today: string)
    requires !Filled(dateStr)
    ensures JapaneseDate(dateStr, today) == today
  {
  }

  predicate IsComma(c: char) { c == ',' }

  /** `parseAmount(amountStr)`: commas removed, then `parseFloat(...) || 0`; blank is 0. */
  function ParseAmount(v: Option<string>): real
  {
    if !Filled(v) then 0.0 else NumberOrZero(ParseFloat(RemoveChars(v.value, IsComma)))
  }

  /** A plain integer amount reads as itself. */
  lemma ParseAmountInt(i: int)
    ensures ParseAmount(Some(IntToString(i))) == i as real
  {
    var s := IntToString(i);
    assert forall k :: 0 <= k < |s| ==> !IsComma(s[k]) by {
      if i < 0 {
        assert s == "-" + NatToString(-i);
      }
    }
    RemoveCharsNone(s, IsComma);
    ParseFloatIntToString(i);
  }

  /** Removing the comma between two digit groups joins them. */
  lemma RemoveGroupComma(a: Digits, b: Digits)
    ensures RemoveChars(a + "," + b, IsComma) == a + b
  {
    RemoveCharsNone(a, IsComma);
    RemoveCharsNone(b, IsComma);
    assert RemoveChars(",", IsComma) == [];
    RemoveCharsAround(a, ",", b, IsComma);
  }

  /** A thousands separator is ignored: `1,000` is one thousand. */
  lemma ParseAmountGrouped(a: Digits, b: Digits)
    ensures ParseAmount(Some(a + "," + b)) == DigitsValue(a + b) as real
  {
    var s := a + "," + b;
    assert s != "";
    RemoveGroupComma(a, b);
    ParseFloatDigits(a + b);
  }

  /** `row['タイプ'] === '収入'`: every other value, missing included, is an expense. */
  function TypeOf(v: Option<string>): TxType
  {
    if v == Some("収入") then Income else Expense
  }

  /** The transaction built from the row at position index. */
  function RowTransaction(row: Row, index: nat, env: Env): Transaction
  {
    Transaction(
      env.newId(index),
      JapaneseDate(Field(row, "日付"), env.today),
      OrElse(Field(row, "カテゴリー"), ""),
      None,
      OrElse(Field(row, "項目"), ""),
      Field(row, "支出先/寄附者"),
      Field(row, "住所"),
      None,
      ParseAmount(Field(row, "金額")),
      TypeOf(Field(row, "タイプ")),
      Field(row, "備考"))
  }

  function CsvTransactions(rows: seq<Row>, env: Env): (ts: seq<Transaction>)
    ensures |ts| == |rows|
  {
    seq(|rows|, i requires 0 <= i < |rows| => RowTransaction(rows[i], i, env))
  }

  // ----- declared totals

  /**
   * A declared total as the source reads it: `metadata.X ? parseFloat(metadata.X) : fallback`,
   * `None` standing for NaN. See the findings in the README: grouped digits read only up
   * to the first comma.
   */
  function DeclaredTotalAsWritten(v: Option<string>, fallback: real): Option<real>
  {
    if Filled(v) then ParseFloat(v.value) else Some(fallback)
  }

  /** A declared total read like the row amounts: commas removed, NaN to 0. */
  function DeclaredTotal(v: Option<string>, fallback: real): real
  {
    if Filled(v) then ParseAmount(v) else fallback
  }

  /** `10,000,000` declared: the source reads 10, the corrected reading ten million. */
  lemma DeclaredTotalGrouped(a: Digits, b: Digits, fallback: real)
    ensures DeclaredTotalAsWritten(Some(a + "," + b), fallback) == Some(DigitsValue(a) as real)
    ensures DeclaredTotal(Some(a + "," + b), fallback) == DigitsValue(a + b) as real
  {
    ParseFloatStopsAtComma(a, b);
    ParseAmountGrouped(a, b);
  }

  /** Where there are no grouped digits the two readings agree. */
  lemma DeclaredTotalPlain(i: int, fallback: real)
    ensures DeclaredTotalAsWritten(Some(IntToString(i)), fallback) == Some(DeclaredTotal(Some(IntToString(i)), fallback))
  {
    ParseFloatIntToString(i);
    ParseAmountInt(i);
  }

  // ----- the report

  function CsvPolitician(meta: Row, env: Env): PoliticianInfo
  {
    PoliticianInfo(
      OrElse(Field(meta, "POLITICIAN"), "不明"),
      OrElse(Field(meta, "ORGANIZATION"), "不明"),
      OrElse(Field(meta, "FISCAL_YEAR"), IntToString(env.currentYear)),
      None, None, None, None, None, None)
  }

  /**
   * A declared total as the report stores it: as written, a NaN reading stored as 0; or,
   * when corrected, read like the row amounts.
   */
  function ReportTotal(v: Option<string>, fallback: real, corrected: bool): real
  {
    if corrected then DeclaredTotal(v, fallback) else DeclaredTotalAsWritten(v, fallback).GetOr(0.0)
  }

  /** The report built from the metadata object and the tokenized rows, with either reading of the declared totals. */
  function ReportWith(meta: Row, rows: seq<Row>, env: Env, corrected: bool): ExpenseReport
  {
    var ts := CsvTransactions(rows, env);
    var politician := CsvPolitician(meta, env);
    var incomeTotal := ReportTotal(Field(meta, "INCOME_TOTAL"), TypeTotal(ts, Income), corrected);
    var expenseTotal := ReportTotal(Field(meta, "EXPENSE_TOTAL"), TypeTotal(ts, Expense), corrected);
    ExpenseReport(
      politician,
      Summary(
        incomeTotal, expenseTotal, None, incomeTotal - expenseTotal,
        ReportTotal(Field(meta, "CARRIED_FROM_PREV"), 0.0, corrected),
        ReportTotal(Field(meta, "CARRIED_TO_NEXT"), 0.0, corrected)),
      None, None, ts, None,
      ReportMetadata(env.uploadedAt, Csv, politician.fiscalYear))
  }

  /** The report of `parseCSV` as written: declared totals read by a bare `parseFloat`. */
  function CsvReport(meta: Row, rows: seq<Row>, env: Env): ExpenseReport
  {
    ReportWith(meta, rows, env, false)
  }

  /** The report with declared totals read like the row amounts (see the findings in the README). */
  function CsvReportCorrected(meta: Row, rows: seq<Row>, env: Env): ExpenseReport
  {
    ReportWith(meta, rows, env, true)
  }

  /**
   * A declared income total `a,b`: the report as written holds the value of `a` and a balance
   * computed from it, the corrected report the value of `ab`.
   */
  lemma CsvReportGrouped(meta: Row, rows: seq<Row>, env: Env, a: Digits, b: Digits)
    requires Field(meta, "INCOME_TOTAL") == Some(a + "," + b)
    ensures var r := CsvReport(meta, rows, env);
            && r.summary.incomeTotal == DigitsValue(a) as real
            && r.summary.balance == DigitsValue(a) as real - r.summary.expenseTotal
    ensures CsvReportCorrected(meta, rows, env).summary.incomeTotal == DigitsValue(a + b) as real
  {
    DeclaredTotalGrouped(a, b, 0.0);
    DeclaredTotalGrouped(a, b, TypeTotal(CsvTransactions(rows, env), Income));
  }

  /** Metadata whose value is missing, empty or an integer in plain decimal digits. */
  ghost predicate PlainOrAbsent(v: Option<string>)
  {
    !Filled(v) || exists i: int :: v == Some(IntToString(i))
  }

  lemma PlainTotalsAgree(v: Option<string>, fallback: real)
    requires PlainOrAbsent(v)
    ensures ReportTotal(v, fallback, false) == ReportTotal(v, fallback, true)
  {
    if Filled(v) {
      var i :| v == Some(IntToString(i));
      DeclaredTotalPlain(i, fallback);
    }
  }

  /** When the four declared amounts are absent or plain integers, the two reports are the same. */
  lemma CsvReportsAgreeOnPlain(meta: Row, rows: seq<Row>, env: Env)
    requires PlainOrAbsent(Field(meta, "INCOME_TOTAL")) && PlainOrAbsent(Field(meta, "EXPENSE_TOTAL"))
    requires PlainOrAbsent(Field(meta, "CARRIED_FROM_PREV")) && PlainOrAbsent(Field(meta, "CARRIED_TO_NEXT"))
    ensures CsvReport(meta, rows, env) == CsvReportCorrected(meta, rows, env)
  {
    var ts := CsvTransactions(rows, env);
    PlainTotalsAgree(Field(meta, "INCOME_TOTAL"), TypeTotal(ts, Income));
    PlainTotalsAgree(Field(meta, "EXPENSE_TOTAL"), TypeTotal(ts, Expense));
    PlainTotalsAgree(Field(meta, "CARRIED_FROM_PREV"), 0.0);
    PlainTotalsAgree(Field(meta, "CARRIED_TO_NEXT"), 0.0);
  }

  /**
   * `parseCSV(csvText)`: the metadata loop, then the tokenizer (a parameter standing for
   * the CSV library) on the remaining lines, then the report.
   */
  method ParseCsv(csvText: string, tokenize: string -> seq<Row>, env: Env) returns (report: ExpenseReport)
    ensures report == CsvReport(Metadata(csvText), tokenize(DataText(csvText)), env)
  {
    var metadata, csvData := ExtractMetadata(csvText);
    report := CsvReport(metadata, tokenize(csvData), env);
  }

  /** One transaction per row, each built from its own row with the row's position as its id. */
  lemma CsvRowsToTransactions(meta: Row, rows: seq<Row>, env: Env, i: nat)
    requires i < |rows|
    ensures var r := CsvReport(meta, rows, env);
            && |r.transactions| == |rows|
            && r.transactions[i].id == env.newId(i)
            && (r.transactions[i].txType == Income <==> Field(rows[i], "タイプ") == Some("収入"))
            && r.transactions[i].amount == ParseAmount(Field(rows[i], "金額"))
  {
  }

  /** Undeclared totals are the sums of the transactions of each type, and the balance their difference. */
  lemma CsvTotalsComputed(meta: Row, rows: seq<Row>, env: Env)
    requires !Filled(Field(meta, "INCOME_TOTAL")) && !Filled(Field(meta, "EXPENSE_TOTAL"))
    ensures var r := CsvReport(meta, rows, env);
            && r.summary.incomeTotal == TypeTotal(r.transactions, Income)
            && r.summary.expenseTotal == TypeTotal(r.transactions, Expense)
            && r.summary.balance == TypeTotal(r.transactions, Income) - TypeTotal(r.transactions, Expense)
  {
  }

  /** Declared totals do not depend on the rows. */
  lemma CsvTotalsDeclared(meta: Row, rows1: seq<Row>, rows2: seq<Row>, env: Env)
    requires Filled(Field(meta, "INCOME_TOTAL")) && Filled(Field(meta, "EXPENSE_TOTAL"))
    ensures CsvReport(meta, rows1, env).summary == CsvReport(meta, rows2, env).summary
  {
  }

  /** With no metadata at all the politician is unknown and the fiscal year is the current one. */
  lemma CsvWithoutMetadata(rows: seq<Row>, env: Env)
    ensures var r := CsvReport(map[], rows, env);
            && r.politician.name == "不明" && r.politician.organization == "不明"
            && r.politician.fiscalYear == IntToString(env.currentYear)
            && r.metadata.fiscalYear == IntToString(env.currentYear)
            && r.summary.carriedFromPrevYear == 0.0 && r.summary.carriedToNextYear == 0.0
  {
  }

  /** Text without metadata lines yields no metadata. */
  lemma MetadataEmpty(csvText: string)
    requires forall j :: 0 <= j < |Split(csvText, '\n')| ==> !IsMetaLine(Split(csvText, '\n')[j])
    ensures Metadata(csvText) == map[]
  {
    var meta := Metadata(csvText);
    forall k | k in meta
      ensures false
    {
      MetadataFromLines(Split(csvText, '\n'), k);
    }
  }
}
