/**
 * The spreadsheet upload path. A workbook in the new layout (sheets `META DATA` and
 * `LINE ITEMS`) holds key-value metadata and one line item per row; any other workbook is
 * read in the legacy layout of the official report forms: metadata from the first cover
 * and summary sheets, transactions from every detail sheet whose name marks it as one,
 * columns found by header names. Totals the metadata does not declare are computed from
 * the transactions.
 */
module XlsxParser {
  import opened Wrappers
  import opened Text
  import opened EraDates
  import opened Host
  import opened Ledger
  import Seqs

  // ----- workbook and cells

  /**
   * A cell as the spreadsheet library delivers it. `Empty` is an absent cell: a hole in the
   * row array, or a position past its end. The library ends each row at its last present
   * cell, so within a row an `Empty` is always followed by a present cell.
   */
  datatype Cell = Empty | Num(x: real) | Str(s: string) | DateVal(d: CalendarDate)

  /** The rows of a sheet, as `sheet_to_json(sheet, { header: 1 })` yields them. */
  type Row = seq<Cell>
  type Sheet = seq<Row>

  /** The sheets of a workbook with their names, in workbook order. */
  type Workbook = seq<(string, Sheet)>

  /** `workbook.SheetNames.includes(name)`. */
  predicate HasSheet(wb: Workbook, name: string)
  {
    exists i :: 0 <= i < |wb| && wb[i].0 == name
  }

  /** `workbook.Sheets[name]`. */
  function SheetNamed(wb: Workbook, name: string): (r: Option<Sheet>)
    ensures r.Some? <==> HasSheet(wb, name)
    ensures r.Some? ==> (name, r.value) in wb
  {
    if wb == [] then None
    else if wb[0].0 == name then Some(wb[0].1)
    else
      var r := SheetNamed(wb[1..], name);
      assert HasSheet(wb, name) ==> HasSheet(wb[1..], name) by {
        if HasSheet(wb, name) {
          var i :| 0 <= i < |wb| && wb[i].0 == name;
          assert wb[1..][i - 1].0 == name;
        }
      }
      assert HasSheet(wb[1..], name) ==> HasSheet(wb, name) by {
        if HasSheet(wb[1..], name) {
          var i :| 0 <= i < |wb[1..]| && wb[1..][i].0 == name;
          assert wb[i + 1].0 == name;
        }
      }
      r
  }

  /** `row[i]`: the cell, or `Empty` for an index outside the row. */
  function CellAt(row: Row, i: int): Cell
  {
    if 0 <= i < |row| then row[i] else Empty
  }

  /** JavaScript truthiness of a cell value: zero, the empty string and a missing cell are false. */
  predicate Truthy(c: Cell)
  {
    match c
    case Empty => false
    case Num(x) => x != 0.0
    case Str(s) => s != ""
    case DateVal(_) => true
  }

  /** `String(c || '')`. */
  function CellString(c: Cell, env: Env): (r: string)
    ensures !Truthy(c) ==> r == ""
    ensures c.Str? ==> r == c.s
  {
    match c
    case Empty => ""
    case Num(x) => if x == 0.0 then "" else env.numberToString(x)
    case Str(s) => s
    case DateVal(d) => env.dateToString(d)
  }

  /** `headerRow.map(h => String(h || '').trim())`. */
  function Headers(row: Row, env: Env): (r: seq<string>)
    ensures |r| == |row|
  {
    seq(|row|, i requires 0 <= i < |row| => Trim(CellString(row[i], env)))
  }

  // ----- column lookup

  /** The tests the parsers apply to header names. */
  datatype HeaderTest = Equals(name: string) | Includes(name: string)

  predicate Passes(h: string, t: HeaderTest)
  {
    match t
    case Equals(n) => h == n
    case Includes(n) => Contains(h, n)
  }

  /** `headers.findIndex(test)`: the first header passing the test, or -1. */
  function FindIndex(headers: seq<string>, t: HeaderTest): (r: int)
    ensures -1 <= r < |headers|
    ensures r >= 0 ==> Passes(headers[r], t) && forall i :: 0 <= i < r ==> !Passes(headers[i], t)
    ensures r == -1 ==> forall i :: 0 <= i < |headers| ==> !Passes(headers[i], t)
  {
    if headers == [] then -1
    else if Passes(headers[0], t) then 0
    else
      var r := FindIndex(headers[1..], t);
      if r < 0 then -1 else r + 1
  }

  /** `findColumnIndex(headers, names)`: the candidate names tried in order. */
  function ColumnIndex(headers: seq<string>, names: seq<string>): (r: int)
    ensures -1 <= r < |headers|
  {
    if names == [] then -1
    else
      var i := FindIndex(headers, Includes(names[0]));
      if i >= 0 then i else ColumnIndex(headers, names[1..])
  }

  /** No header contains any of the names. */
  predicate NoneContains(headers: seq<string>, names: seq<string>)
  {
    forall j, i :: 0 <= j < |names| && 0 <= i < |headers| ==> !Contains(headers[i], names[j])
  }

  /** Column r is the first one containing names[j], and no header contains an earlier name. */
  predicate ChosenFor(headers: seq<string>, names: seq<string>, j: int, r: int)
  {
    && 0 <= j < |names| && 0 <= r < |headers|
    && Contains(headers[r], names[j])
    && (forall i :: 0 <= i < r ==> !Contains(headers[i], names[j]))
    && NoneContains(headers, names[..j])
  }

  ghost predicate ChosenBySome(headers: seq<string>, names: seq<string>, r: int)
  {
    exists j :: ChosenFor(headers, names, j, r)
  }

  /**
   * The column found is the first header containing the earliest candidate that any
   * header contains; it is -1 exactly when no header contains any candidate.
   */
  lemma {:induction false} ColumnIndexSpec(headers: seq<string>, names: seq<string>)
    ensures ColumnIndex(headers, names) == -1 <==> NoneContains(headers, names)
    ensures ColumnIndex(headers, names) >= 0 ==> ChosenBySome(headers, names, ColumnIndex(headers, names))
  {
    if names != [] {
      var r := ColumnIndex(headers, names);
      var i := FindIndex(headers, Includes(names[0]));
      if i >= 0 {
        assert names[..0] == [];
        assert ChosenFor(headers, names, 0, r);
        assert !NoneContains(headers, names) by {
          assert Contains(headers[i], names[0]);
        }
      } else {
        var tail := names[1..];
        ColumnIndexSpec(headers, tail);
        assert NoneContains(headers, names) <==> NoneContains(headers, tail) by {
          if NoneContains(headers, tail) {
            forall j, k | 0 <= j < |names| && 0 <= k < |headers|
              ensures !Contains(headers[k], names[j])
            {
              if j > 0 {
                assert names[j] == tail[j - 1];
              }
            }
          }
          if NoneContains(headers, names) {
            forall j, k | 0 <= j < |tail| && 0 <= k < |headers|
              ensures !Contains(headers[k], tail[j])
            {
              assert tail[j] == names[j + 1];
            }
          }
        }
        if r >= 0 {
          var j :| ChosenFor(headers, tail, j, r);
          ChosenShift(headers, names, j, r);
        }
      }
    }
  }

  /** A choice made among the later candidates, when no header contains the first, is a choice among all. */
  lemma ChosenShift(headers: seq<string>, names: seq<string>, j: int, r: int)
    requires |names| >= 1 && ChosenFor(headers, names[1..], j, r)
    requires forall i :: 0 <= i < |headers| ==> !Contains(headers[i], names[0])
    ensures ChosenFor(headers, names, j + 1, r)
  {
    var tail := names[1..];
    assert names[j + 1] == tail[j];
    var pre := names[..j + 1];
    forall m, k | 0 <= m < |pre| && 0 <= k < |headers|
      ensures !Contains(headers[k], pre[m])
    {
      if m > 0 {
        assert pre[m] == tail[..j][m - 1];
      }
    }
  }

  // ----- header holes

  /**
   * `headerRow.map(h => String(h || '').trim())` as the array it is: `sheet_to_json` leaves
   * no element for an absent cell and `map` skips such holes, so they stay `undefined`
   * (`None` here). `Headers` is the same array with a hole read as "".
   */
  function HeaderArray(row: Row, env: Env): seq<Option<string>>
  {
    seq(|row|, i requires 0 <= i < |row| => if row[i].Empty? then None else Some(Trim(CellString(row[i], env))))
  }

  /** The holes are exactly the absent cells, and every other header is the one `Headers` reads. */
  lemma HeaderArrayFacts(row: Row, env: Env)
    ensures |HeaderArray(row, env)| == |row|
    ensures forall i :: 0 <= i < |row| ==> (HeaderArray(row, env)[i].None? <==> row[i].Empty?)
    ensures TextsOf(HeaderArray(row, env), Headers(row, env))
  {
    assert Trim("") == "";
  }

  /** headers is the header array hs with every hole read as "". */
  predicate TextsOf(hs: seq<Option<string>>, headers: seq<string>)
  {
    |hs| == |headers| && forall i :: 0 <= i < |hs| ==> headers[i] == if hs[i].Some? then hs[i].value else ""
  }

  predicate NoHoles(hs: seq<Option<string>>)
  {
    forall i :: 0 <= i < |hs| ==> hs[i].Some?
  }

  /**
   * `headers.findIndex(test)` on the header array: `None` when the scan reaches a hole and the
   * test calls `includes` on `undefined`, a TypeError; `===` is merely false on a hole.
   */
  function FindIndexHoled(hs: seq<Option<string>>, t: HeaderTest): Option<int>
  {
    if hs == [] then Some(-1)
    else if hs[0].None? && t.Includes? then None
    else if hs[0].Some? && Passes(hs[0].value, t) then Some(0)
    else
      match FindIndexHoled(hs[1..], t)
      case None => None
      case Some(r) => Some(if r < 0 then -1 else r + 1)
  }

  /** The scan of t reaches the hole at p: it is the first hole, and no header before it passes t. */
  predicate HoleReached(hs: seq<Option<string>>, t: HeaderTest, p: int)
  {
    && 0 <= p < |hs| && hs[p].None?
    && forall q :: 0 <= q < p ==> hs[q].Some? && !Passes(hs[q].value, t)
  }

  /** No string contains a non-empty name and is empty. */
  lemma EmptyContainsNothing(n: string)
    requires n != ""
    ensures !Contains("", n)
  {
  }

  /**
   * The scan throws exactly when it is an `includes` test that reaches a hole; otherwise, for
   * a non-empty name, it finds what `findIndex` finds on the headers with holes read as "".
   */
  lemma {:induction false} FindIndexHoledSpec(hs: seq<Option<string>>, headers: seq<string>, t: HeaderTest)
    requires TextsOf(hs, headers) && t.name != ""
    ensures FindIndexHoled(hs, t).None? <==> t.Includes? && exists p :: HoleReached(hs, t, p)
    ensures FindIndexHoled(hs, t).Some? ==> FindIndexHoled(hs, t).value == FindIndex(headers, t)
  {
    if hs != [] {
      var hs', headers' := hs[1..], headers[1..];
      assert TextsOf(hs', headers') by {
        forall i | 0 <= i < |hs'|
          ensures headers'[i] == if hs'[i].Some? then hs'[i].value else ""
        {
          assert hs'[i] == hs[i + 1] && headers'[i] == headers[i + 1];
        }
      }
      FindIndexHoledSpec(hs', headers', t);
      if hs[0].None? {
        assert headers[0] == "";
        assert !Passes(headers[0], t) by {
          if t.Includes? { EmptyContainsNothing(t.name); }
        }
        if t.Includes? {
          assert HoleReached(hs, t, 0);
        }
      } else if Passes(hs[0].value, t) {
        assert forall p :: !HoleReached(hs, t, p) by {
          forall p | 0 < p < |hs|
            ensures !HoleReached(hs, t, p)
          {
            assert !(hs[0].Some? && !Passes(hs[0].value, t));
          }
        }
      } else {
        HoleReachedShift(hs, t);
      }
    }
  }

  /** A scan that does not throw finds what `findIndex` finds with holes read as "". */
  lemma FindIndexHoledAgrees(hs: seq<Option<string>>, headers: seq<string>, t: HeaderTest)
    requires TextsOf(hs, headers) && t.name != ""
    ensures FindIndexHoled(hs, t).Some? ==> FindIndexHoled(hs, t).value == FindIndex(headers, t)
  {
    FindIndexHoledSpec(hs, headers, t);
  }

  /** When the first header is present and fails t, the scan reaches a hole exactly when the rest's scan does. */
  lemma HoleReachedShift(hs: seq<Option<string>>, t: HeaderTest)
    requires |hs| > 0 && hs[0].Some? && !Passes(hs[0].value, t)
    ensures (exists p :: HoleReached(hs, t, p)) <==> exists p :: HoleReached(hs[1..], t, p)
  {
    var tail := hs[1..];
    if exists p :: HoleReached(hs, t, p) {
      var p :| HoleReached(hs, t, p);
      assert p > 0;
      assert HoleReached(tail, t, p - 1) by {
        forall q | 0 <= q < p - 1
          ensures tail[q].Some? && !Passes(tail[q].value, t)
        {
          assert tail[q] == hs[q + 1];
        }
      }
    }
    if exists p :: HoleReached(tail, t, p) {
      var p :| HoleReached(tail, t, p);
      assert HoleReached(hs, t, p + 1) by {
        forall q | 0 <= q < p + 1
          ensures hs[q].Some? && !Passes(hs[q].value, t)
        {
          if q > 0 { assert hs[q] == tail[q - 1]; }
        }
      }
    }
  }

  /** An exact-match scan never throws, and no scan throws on a header array without holes. */
  lemma {:induction false} FindIndexHoledTotal(hs: seq<Option<string>>, t: HeaderTest)
    requires NoHoles(hs) || t.Equals?
    ensures FindIndexHoled(hs, t).Some?
  {
    if hs != [] {
      assert NoHoles(hs) ==> NoHoles(hs[1..]) by {
        if NoHoles(hs) {
          forall i | 0 <= i < |hs[1..]|
            ensures hs[1..][i].Some?
          {
            assert hs[1..][i] == hs[i + 1];
          }
        }
      }
      FindIndexHoledTotal(hs[1..], t);
    }
  }

  /** `findColumnIndex(headers, names)` on the header array: `None` when one of its scans throws. */
  function ColumnIndexHoled(hs: seq<Option<string>>, names: seq<string>): Option<int>
  {
    if names == [] then Some(-1)
    else
      match FindIndexHoled(hs, Includes(names[0]))
      case None => None
      case Some(i) => if i >= 0 then Some(i) else ColumnIndexHoled(hs, names[1..])
  }

  predicate NonEmptyNames(names: seq<string>)
  {
    forall j :: 0 <= j < |names| ==> names[j] != ""
  }

  /**
   * A lookup that does not throw finds the column `ColumnIndex` finds with holes read as "",
   * and a header row without holes never throws.
   */
  lemma {:induction false} ColumnIndexHoledAgrees(hs: seq<Option<string>>, headers: seq<string>, names: seq<string>)
    requires TextsOf(hs, headers) && NonEmptyNames(names)
    ensures ColumnIndexHoled(hs, names).Some? ==> ColumnIndexHoled(hs, names).value == ColumnIndex(headers, names)
    ensures NoHoles(hs) ==> ColumnIndexHoled(hs, names).Some?
  {
    if names != [] {
      FindIndexHoledSpec(hs, headers, Includes(names[0]));
      assert NonEmptyNames(names[1..]) by {
        forall j | 0 <= j < |names[1..]|
          ensures names[1..][j] != ""
        {
          assert names[1..][j] == names[j + 1];
        }
      }
      ColumnIndexHoledAgrees(hs, headers, names[1..]);
    }
  }

  /** `findColumnIndex`: the loop over the candidate names, stopped by a scan that throws. */
  method FindColumnIndex(headers: seq<Option<string>>, possibleNames: seq<string>) returns (index: Option<int>)
    ensures index == ColumnIndexHoled(headers, possibleNames)
  {
    var j := 0;
    while j < |possibleNames|
      invariant 0 <= j <= |possibleNames|
      invariant ColumnIndexHoled(headers, possibleNames) == ColumnIndexHoled(headers, possibleNames[j..])
    {
      index := FindIndexHoled(headers, Includes(possibleNames[j]));
      if index.None? || index.value >= 0 {
        return;
      }
      assert possibleNames[j..][1..] == possibleNames[j + 1..];
      j := j + 1;
    }
    index := Some(-1);
  }

  // ----- amounts

  /** The characters `[,円]` removed before reading an amount. */
  predicate IsAmountNoise(c: char) { c == ',' || c == '円' }

  /** `parseAmount(value)`: numbers as they are, strings read without commas and `円`, anything else 0. */
  function ParseAmount(value: Cell): real
  {
    match value
    case Num(x) => x
    case Str(s) => NumberOrZero(ParseFloat(RemoveChars(s, IsAmountNoise)))
    case _ => 0.0
  }

  /** `1,000円` is one thousand: separators and the yen sign are ignored. */
  lemma ParseAmountYen(a: Digits, b: Digits)
    ensures ParseAmount(Str(a + "," + b + "円")) == DigitsValue(a + b) as real
  {
    var s := a + "," + b + "円";
    assert s == (a + "," + b) + "円";
    RemoveCharsNone(a, IsAmountNoise);
    RemoveCharsNone(b, IsAmountNoise);
    assert RemoveChars(",", IsAmountNoise) == [];
    assert RemoveChars("円", IsAmountNoise) == [];
    RemoveCharsAround(a, ",", b, IsAmountNoise);
    RemoveCharsAppend(a + "," + b, "円", IsAmountNoise);
    assert RemoveChars(s, IsAmountNoise) == a + b;
    ParseFloatDigits(a + b);
  }

  /** Text that is no number, a date and an empty cell all read as 0. */
  lemma ParseAmountNotNumber(s: string, d: CalendarDate)
    requires forall k :: 0 <= k < |s| ==> !IsDigit(s[k]) && s[k] != '.' && s[k] != '-' && s[k] != '+'
    ensures ParseAmount(Str(s)) == 0.0
    ensures ParseAmount(DateVal(d)) == 0.0 && ParseAmount(Empty) == 0.0
  {
    var t := RemoveChars(s, IsAmountNoise);
    RemoveCharsSubset(s, IsAmountNoise);
    var u := TrimStart(t);
    TrimStartSpec(t);
    if |u| >= 1 {
      assert u[0] == t[|t| - |u|];
      assert u[0] in s;
    }
  }

  /** Every character left after removal was already in s. */
  lemma {:induction false} RemoveCharsSubset(s: string, drop: char -> bool)
    ensures forall k :: 0 <= k < |RemoveChars(s, drop)| ==> RemoveChars(s, drop)[k] in s
  {
    if s != [] {
      RemoveCharsSubset(s[1..], drop);
      var r := RemoveChars(s, drop);
      var rest := RemoveChars(s[1..], drop);
      forall k | 0 <= k < |r|
        ensures r[k] in s
      {
        if drop(s[0]) {
          assert r[k] == rest[k];
          assert rest[k] in s[1..];
        } else if k > 0 {
          assert r[k] == rest[k - 1];
          assert rest[k - 1] in s[1..];
        }
      }
    }
  }

  // ----- dates

  /** `${y}-${String(m).padStart(2, '0')}-${String(d).padStart(2, '0')}`. */
  function DateText(y: nat, m: nat, d: nat): string
  {
    NatToString(y) + "-" + Pad2(m) + "-" + Pad2(d)
  }

  /** The date of a spreadsheet serial number, or today's when the library decodes none. */
  function SerialDate(x: real, env: Env): string
  {
    match env.parseDateCode(x)
    case Some(d) => DateText(d.year, d.month, d.day)
    case None => env.today
  }

  /** A Reiwa date with the parsed month and day padded: `令和5年4月1日` and `R5/4/1` both give `2023-04-01`. */
  function ReiwaNumeric(c: Ymd): string
  {
    DateText(WesternYear(c.year), DigitsValue(c.month), DigitsValue(c.day))
  }

  /**
   * The spreadsheet reading of a Reiwa date agrees with the CSV and PDF readings, which pad
   * the captured month and day as written, whenever those have one or two digits.
   */
  lemma ReiwaNumericAgrees(c: Ymd)
    requires |c.month| <= 2 && |c.day| <= 2
    ensures ReiwaNumeric(c) == ReiwaDate(c)
  {
    ReiwaDatePadded(c);
  }

  /** `parseDate(value)` of the legacy layout. */
  function ParseDate(value: Cell, env: Env): string
  {
    if !Truthy(value) then env.today
    else
      match value
      case Num(x) => SerialDate(x, env)
      case Str(s) =>
        (match Search(s, 0, EitherAt)
         case Some(c) => ReiwaNumeric(c)
         case None => if IsoLike(s) then ReplaceChar(s, '/', '-') else env.today)
      case _ => env.today
  }

  /** Text in which the search finds a Reiwa date is read as that date. */
  lemma ParseDateFound(s: string, c: Ymd, env: Env)
    requires s != [] && Search(s, 0, EitherAt) == Some(c)
    ensures ParseDate(Str(s), env) == ReiwaNumeric(c)
  {
  }

  lemma EitherAtKanji(c: Ymd)
    ensures EitherAt(ReiwaText(c), 0) == Some(c)
  {
    ReiwaTextStart(c);
    KanjiCanonical(c);
  }

  /** `令和{y}年{m}月{d}日` is read as the Western date of Reiwa year y. */
  lemma ParseDateKanji(c: Ymd, env: Env)
    ensures ParseDate(Str(ReiwaText(c)), env) == ReiwaNumeric(c)
  {
    var s := ReiwaText(c);
    ReiwaTextStart(c);
    EitherAtKanji(c);
    SearchLeftmost(s, 0, EitherAt, 0);
    ParseDateFound(s, c, env);
  }

  /** `R{y}/{m}/{d}` is read as the Western date of Reiwa year y. */
  lemma ParseDateSlash(c: Ymd, env: Env)
    ensures ParseDate(Str(SlashText(c)), env) == ReiwaNumeric(c)
  {
    var s := SlashText(c);
    SlashCanonical(c);
    assert EitherAt(s, 0) == Some(c);
    SearchLeftmost(s, 0, EitherAt, 0);
    ParseDateFound(s, c, env);
  }

  /** A `YYYY/M/D` or `YYYY-M-D` string has its slashes turned into dashes. */
  lemma ParseDateIsoLike(s: string, env: Env)
    requires IsoLike(s)
    ensures ParseDate(Str(s), env) == ReplaceChar(s, '/', '-')
  {
    IsoLikeChars(s);
    forall q | 0 <= q <= |s|
      ensures EitherAt(s, q).None?
    {
      if q < |s| {
        assert IsDigit(s[q]) || IsDateSep(s[q]);
      }
    }
    SearchNone(s, 0, EitherAt);
  }

  /** Text with no Reiwa date in it and not of the `YYYY/M/D` shape is dated today, and so are empty and zero cells. */
  lemma ParseDateFallback(s: string, env: Env)
    requires !IsoLike(s) && forall q :: 0 <= q <= |s| ==> EitherAt(s, q).None?
    ensures ParseDate(Str(s), env) == env.today
    ensures ParseDate(Empty, env) == env.today && ParseDate(Num(0.0), env) == env.today
  {
    SearchNone(s, 0, EitherAt);
  }

  /** `parseDateNew(value)` of the new layout: only exact `YYYY-MM-DD` text is kept. */
  function ParseDateNew(value: Cell, env: Env): string
  {
    if !Truthy(value) then env.today
    else
      match value
      case DateVal(d) => DateText(d.year, d.month, d.day)
      case Num(x) => SerialDate(x, env)
      case Str(s) => if IsoExact(s) then s else env.today
      case Empty => env.today
  }

  /** In the new layout text is a date exactly when it is `YYYY-MM-DD`; any other text, empty included, is today. */
  lemma ParseDateNewText(s: string, env: Env)
    ensures ParseDateNew(Str(s), env) == if IsoExact(s) then s else env.today
  {
  }

  /** The new layout does not read era dates: `令和5年4月1日` is dated today there. */
  lemma ParseDateNewNoEra(c: Ymd, env: Env)
    ensures ParseDateNew(Str(ReiwaText(c)), env) == env.today
  {
    ReiwaTextStart(c);
    var s := ReiwaText(c);
    if |s| >= 4 {
      assert s[..4][0] == s[0];
    }
  }

  /** Both layouts keep a `YYYY-MM-DD` string as it is. */
  lemma ParseDatesAgreeOnIso(s: string, env: Env)
    requires IsoExact(s)
    ensures ParseDate(Str(s), env) == s && ParseDateNew(Str(s), env) == s
  {
    assert IsoLikeWith(s, 2);
    ParseDateIsoLike(s, env);
    forall i | 0 <= i < |s|
      ensures s[i] != '/'
    {
      if i < 4 {
        assert s[..4][i] == s[i];
      } else if 4 < i < 7 {
        assert s[5..7][i - 5] == s[i];
      } else if i > 7 {
        assert s[8..][i - 8] == s[i];
      }
    }
    assert ReplaceChar(s, '/', '-') == s;
  }

  // ----- category normalisation

  /** The length of the longest prefix of s whose characters all satisfy keep. */
  function RunWhile(s: string, keep: char -> bool): (n: nat)
    ensures n <= |s|
    ensures forall i :: 0 <= i < n ==> keep(s[i])
    ensures n < |s| ==> !keep(s[n])
  {
    if s == [] || !keep(s[0]) then 0 else 1 + RunWhile(s[1..], keep)
  }

  predicate NotLineTerminator(c: char) { !IsLineTerminator(c) }

  /** The index of the last `)` in s, if any. */
  function LastClose(s: string): (r: Option<nat>)
    ensures r.Some? ==> r.value < |s| && s[r.value] == ')' && forall i :: r.value < i < |s| ==> s[i] != ')'
    ensures r.None? ==> forall i :: 0 <= i < |s| ==> s[i] != ')'
  {
    if s == [] then None
    else if s[|s| - 1] == ')' then Some(|s| - 1)
    else LastClose(s[..|s| - 1])
  }

  /** `^\d+\.?\s*` removed: a leading number, an optional dot and the white space after them. */
  function StripLeadingNumber(s: string): string
  {
    var n := DigitRun(s);
    if n == 0 then s
    else
      var rest := s[n..];
      TrimStart(if |rest| >= 1 && rest[0] == '.' then rest[1..] else rest)
  }

  /**
   * `\s*\(.*\)` matched at p: white space, `(`, then the rest of the line up to its last `)`;
   * the span of the match.
   */
  function ParenAt(s: string, p: nat): (r: Option<(nat, nat)>)
    ensures r.Some? ==> r.value.0 == p <= r.value.1 <= |s|
  {
    if p > |s| then None
    else
      var t := s[p..];
      var w := RunWhile(t, IsSpace);
      if w < |t| && t[w] == '(' then
        var body := t[w + 1..];
        var line := body[..RunWhile(body, NotLineTerminator)];
        match LastClose(line)
        case Some(k) => Some((p, p + w + 1 + k + 1))
        case None => None
      else None
  }

  /** The first parenthetical, with the white space before it, removed. */
  function RemoveParen(s: string): string
  {
    match Search(s, 0, ParenAt)
    case None => s
    case Some(m) =>
      SearchFound(s, 0, ParenAt);
      s[..m.0] + s[m.1..]
  }

  /** The label with its number and parenthetical removed and trimmed. */
  function CleanCategory(category: string): string
  {
    Trim(RemoveParen(StripLeadingNumber(category)))
  }

  /** The category map, in the order its entries are tried. */
  const CategoryMap: seq<(string, string)> := [
    ("組織活動費", "組織活動費"),
    ("選挙関係費", "選挙関係費"),
    ("機関紙誌", "機関紙誌の発行"),
    ("調査研究費", "調査研究費"),
    ("寄附", "寄附・交付金"),
    ("交付金", "寄附・交付金"),
    ("人件費", "人件費"),
    ("光熱水費", "光熱水費"),
    ("備品", "備品・消耗品費"),
    ("消耗品", "備品・消耗品費"),
    ("事務所費", "事務所費"),
    ("個人からの寄附", "個人からの寄附"),
    ("法人", "法人その他の団体からの寄附"),
    ("政治団体", "政治団体からの寄附")
  ]

  /** The category used for a row that names none. */
  function DefaultCategory(ty: TxType): string
  {
    if ty == Income then "その他の収入" else "その他の経費"
  }

  /** The index of the first map entry whose key the cleaned label contains, if any. */
  function FirstEntry(cleaned: string, i: nat): (r: Option<nat>)
    requires i <= |CategoryMap|
    ensures r.Some? ==> i <= r.value < |CategoryMap| && Contains(cleaned, CategoryMap[r.value].0)
    ensures r.Some? ==> forall k :: i <= k < r.value ==> !Contains(cleaned, CategoryMap[k].0)
    ensures r.None? ==> forall k :: i <= k < |CategoryMap| ==> !Contains(cleaned, CategoryMap[k].0)
    decreases |CategoryMap| - i
  {
    if i == |CategoryMap| then None
    else if Contains(cleaned, CategoryMap[i].0) then Some(i)
    else FirstEntry(cleaned, i + 1)
  }

  /** `normalizeCategory(category, type)`. */
  function NormalizedCategory(category: string, ty: TxType): string
  {
    if category == "" then DefaultCategory(ty)
    else
      var cleaned := CleanCategory(category);
      match FirstEntry(cleaned, 0)
      case Some(k) => CategoryMap[k].1
      case None => if cleaned != "" then cleaned else DefaultCategory(ty)
  }

  /** `normalizeCategory`: the loop over the map entries. */
  method NormalizeCategory(category: string, ty: TxType) returns (r: string)
    ensures r == NormalizedCategory(category, ty)
  {
    if category == "" {
      return DefaultCategory(ty);
    }
    var cleaned := CleanCategory(category);
    var i := 0;
    while i < |CategoryMap|
      invariant 0 <= i <= |CategoryMap|
      invariant FirstEntry(cleaned, 0) == FirstEntry(cleaned, i)
    {
      if Contains(cleaned, CategoryMap[i].0) {
        return CategoryMap[i].1;
      }
      i := i + 1;
    }
    r := if cleaned != "" then cleaned else DefaultCategory(ty);
  }

  /** A leading number and dot are removed when the label after them starts with a non-space. */
  lemma StripNumberDot(d: Digits, rest: string)
    requires rest != [] && !IsSpace(rest[0])
    ensures StripLeadingNumber(d + "." + rest) == rest
  {
    var s := d + "." + rest;
    assert s == d + ("." + rest);
    DigitRunPrefix(d, "." + rest);
    assert s[|d|..] == "." + rest;
    assert ("." + rest)[1..] == rest;
  }

  /** No match starts inside a label that has no `(` and does not end in white space. */
  lemma ParenAtInside(a: string, b: string, q: nat)
    requires '(' !in a && a != [] && !IsSpace(a[|a| - 1])
    requires q < |a|
    ensures ParenAt(a + " (" + b + ")", q).None?
  {
    var s := a + " (" + b + ")";
    var t := s[q..];
    var w := RunWhile(t, IsSpace);
    assert t[|a| - 1 - q] == a[|a| - 1];
    assert w <= |a| - 1 - q;
    assert t[w] == a[q + w];
  }

  /** The match found after the label spans the rest of the string. */
  lemma ParenAtEnd(a: string, b: string)
    requires forall i :: 0 <= i < |b| ==> !IsLineTerminator(b[i])
    ensures ParenAt(a + " (" + b + ")", |a|) == Some((|a|, |a + " (" + b + ")"|))
  {
    var s := a + " (" + b + ")";
    var t := s[|a|..];
    assert t == " (" + b + ")";
    assert t[0] == ' ' && t[1] == '(';
    assert RunWhile(t, IsSpace) == 1;
    var body := t[2..];
    assert body == b + ")";
    assert forall i :: 0 <= i < |body| ==> NotLineTerminator(body[i]) by {
      forall i | 0 <= i < |body|
        ensures NotLineTerminator(body[i])
      {
        if i < |b| {
          assert body[i] == b[i];
        }
      }
    }
    assert RunWhile(body, NotLineTerminator) == |body|;
    assert body[..|body|] == body;
    assert LastClose(body) == Some(|b|);
  }

  /** `label (note)` loses ` (note)` when label has no `(` and neither starts nor ends with white space. */
  lemma RemoveParenTrailing(a: string, b: string)
    requires '(' !in a && a != [] && !IsSpace(a[|a| - 1])
    requires forall i :: 0 <= i < |b| ==> !IsLineTerminator(b[i])
    ensures RemoveParen(a + " (" + b + ")") == a
  {
    var s := a + " (" + b + ")";
    forall q | 0 <= q < |a|
      ensures ParenAt(s, q).None?
    {
      ParenAtInside(a, b, q);
    }
    ParenAtEnd(a, b);
    SearchLeftmost(s, 0, ParenAt, |a|);
    assert s[..|a|] == a;
  }

  /** `1.label (note)` is cleaned to label. */
  lemma CleanNumberedLabel(d: Digits, a: string, b: string)
    requires '(' !in a && a != [] && !IsSpace(a[0]) && !IsSpace(a[|a| - 1])
    requires forall i :: 0 <= i < |b| ==> !IsLineTerminator(b[i])
    ensures CleanCategory(d + "." + a + " (" + b + ")") == a
  {
    var rest := a + " (" + b + ")";
    assert rest[0] == a[0];
    StripNumberDot(d, rest);
    assert d + "." + a + " (" + b + ")" == d + "." + rest;
    RemoveParenTrailing(a, b);
    TrimUnchanged(a);
  }

  /** The example of the source's comment: `1.組織活動費 (会議費)` is the category `組織活動費`. */
  lemma NormalizeNumberedExample(ty: TxType)
    ensures NormalizedCategory("1" + "." + "組織活動費" + " (" + "会議費" + ")", ty) == "組織活動費"
  {
    var a := "組織活動費";
    CleanNumberedLabel("1", a, "会議費");
    assert OccursAt(a, CategoryMap[0].0, 0);
  }

  /** A label whose cleaned form contains `寄附`, and none of the four keys tried before it, becomes `寄附・交付金`. */
  lemma NormalizeDonation(category: string, ty: TxType)
    requires category != ""
    requires Contains(CleanCategory(category), "寄附")
    requires forall k :: 0 <= k < 4 ==> !Contains(CleanCategory(category), CategoryMap[k].0)
    ensures NormalizedCategory(category, ty) == "寄附・交付金"
  {
    assert CategoryMap[4].0 == "寄附";
    var r := FirstEntry(CleanCategory(category), 0);
    assert r.Some? && r.value == 4;
  }

  /** `寄附` occurs in `個人からの寄附`. */
  lemma DonationInIndividual()
    ensures Contains("個人からの寄附", "寄附")
  {
    assert OccursAt("個人からの寄附", "寄附", 5);
  }

  /**
   * The entry for `個人からの寄附` is never reached: every label containing its key also
   * contains the earlier key `寄附`, so no label normalises to `個人からの寄附`.
   */
  lemma IndividualDonationShadowed(category: string, ty: TxType)
    ensures NormalizedCategory(category, ty) != "個人からの寄附"
  {
    if category != "" {
      var cleaned := CleanCategory(category);
      DonationInIndividual();
      CategoryValues();
      assert CategoryMap[4].0 == "寄附" && CategoryMap[11].0 == "個人からの寄附";
      match FirstEntry(cleaned, 0)
      case Some(k) =>
        if k == 11 {
          ContainsTransitive(cleaned, "個人からの寄附", "寄附");
        }
      case None =>
    }
  }

  /** The map's keys and values are not empty, and only the entry of `個人からの寄附` has that value. */
  lemma CategoryValues()
    ensures forall k :: 0 <= k < |CategoryMap| ==> CategoryMap[k].0 != "" && CategoryMap[k].1 != ""
    ensures forall k :: 0 <= k < |CategoryMap| && k != 11 ==> CategoryMap[k].1 != "個人からの寄附"
  {
  }

  /** The result is never empty: an empty or fully stripped label gets the default of its type. */
  lemma NormalizedNotEmpty(category: string, ty: TxType)
    ensures NormalizedCategory(category, ty) != ""
    ensures category == "" ==> NormalizedCategory(category, ty) == DefaultCategory(ty)
    ensures CleanCategory(category) == "" ==> NormalizedCategory(category, ty) == DefaultCategory(ty)
  {
    CategoryValues();
  }

  // ----- metadata

  /** The metadata object the extract functions fill in; `None` for a key never set. */
  datatype XlsxMetadata = XlsxMetadata(
    politician: Option<string>,
    organization: Option<string>,
    fiscalYear: Option<string>,
    party: Option<string>,
    hereditary: Option<string>,
    electionCount: Option<int>,
    address: Option<string>,
    accountant: Option<string>,
    representative: Option<string>,
    incomeTotal: Option<real>,
    expenseTotal: Option<real>,
    thisYearExpense: Option<real>,
    carriedFromPrev: Option<real>,
    carriedToNext: Option<real>)

  const NoMetadata := XlsxMetadata(None, None, None, None, None, None, None, None, None, None, None, None, None, None)

  /** `令和?(\d+)|R(\d+)` matched at p: the captured Reiwa year. */
  function EraYearAt(s: string, p: nat): Option<Digits>
  {
    if p < |s| && s[p] == '令' then
      match RunAt(s, if p + 1 < |s| && s[p + 1] == '和' then p + 2 else p + 1)
      case Some((d, _)) => Some(d)
      case None => None
    else if p < |s| && s[p] == 'R' then
      match RunAt(s, p + 1)
      case Some((d, _)) => Some(d)
      case None => None
    else None
  }

  /** The fiscal year a cover value names: `(2018 + n).toString()` for the first era year n in it. */
  function FiscalYearOf(value: string): Option<string>
  {
    match Search(value, 0, EraYearAt)
    case Some(d) => Some(NatToString(WesternYear(d)))
    case None => None
  }


  /** `令和{n}年分` names fiscal year 2018 + n. */
  lemma FiscalYearReiwa(d: Digits, rest: string)
    requires rest == [] || !IsDigit(rest[0])
    ensures FiscalYearOf("令和" + d + rest) == Some(NatToString(WesternYear(d)))
  {
    var s := "令和" + d + rest;
    assert s[0] == '令' && s[1] == '和';
    RunAtBefore("令和", d, rest);
    assert EraYearAt(s, 0) == Some(d);
    SearchLeftmost(s, 0, EraYearAt, 0);
  }

  /** `R{n}` names fiscal year 2018 + n. */
  lemma FiscalYearR(d: Digits, rest: string)
    requires rest == [] || !IsDigit(rest[0])
    ensures FiscalYearOf("R" + d + rest) == Some(NatToString(WesternYear(d)))
  {
    var s := "R" + d + rest;
    assert s[0] == 'R';
    RunAtBefore("R", d, rest);
    assert EraYearAt(s, 0) == Some(d);
    SearchLeftmost(s, 0, EraYearAt, 0);
  }

  /** A value with neither `令` nor `R` in it names no fiscal year. */
  lemma FiscalYearNone(value: string)
    requires '令' !in value && 'R' !in value
    ensures FiscalYearOf(value) == None
  {
    forall q | 0 <= q <= |value|
      ensures EraYearAt(value, q).None?
    {
    }
    SearchNone(value, 0, EraYearAt);
  }

  /** One row of the cover sheet, key and value trimmed: the first key test that passes decides the field. */
  function CoverStep(m: XlsxMetadata, key: string, value: string): XlsxMetadata
  {
    if Contains(key, "公職の候補者の氏名") then m.(politician := Some(value))
    else if Contains(key, "政治団体の名称") || Contains(key, "団体名") then m.(organization := Some(value))
    else if Contains(key, "代表者") && value != "" then m.(representative := Some(value))
    else if Contains(key, "会計責任者") && value != "" then m.(accountant := Some(value))
    else if Contains(key, "事務所の所在地") || Contains(key, "住所") then m.(address := Some(value))
    else if Contains(key, "対象年分") || Contains(key, "年分") then
      match FiscalYearOf(value)
      case Some(y) => m.(fiscalYear := Some(y))
      case None => m
    else m
  }

  /** One row of the summary sheet: the key trimmed, the value read as an amount. */
  function TotalsStep(m: XlsxMetadata, key: string, value: Cell): XlsxMetadata
  {
    if Contains(key, "前年からの繰越") then m.(carriedFromPrev := Some(ParseAmount(value)))
    else if Contains(key, "本年の収入額") || (Contains(key, "収入総額") && !Contains(key, "前年")) then
      m.(incomeTotal := Some(ParseAmount(value)))
    else if Contains(key, "支出総額") then m.(expenseTotal := Some(ParseAmount(value)))
    else if Contains(key, "翌年への繰越") then m.(carriedToNext := Some(ParseAmount(value)))
    else m
  }

  /** One row of the `META DATA` sheet: the key upper-cased, English and Japanese keys alike. */
  function MetaDataStep(m: XlsxMetadata, key: string, value: Cell, env: Env): XlsxMetadata
  {
    var text := Trim(CellString(value, env));
    if key == "YEAR" || key == "年度" then m.(fiscalYear := Some(IntToString(ParseAmount(value).Floor)))
    else if key == "ORGANIZATION" || key == "政治団体" then m.(organization := Some(text))
    else if key == "POLITICIAN" || key == "政治家" then m.(politician := Some(text))
    else if key == "PARTY" || key == "政党" then m.(party := Some(text))
    else if key == "HEREDITARY" || key == "世襲" then m.(hereditary := Some(text))
    else if key == "ELECTION_COUNT" || key == "当選回数" then m.(electionCount := Some(ParseAmount(value).Floor))
    else if key == "INCOME_TOTAL" || key == "収入合計" then m.(incomeTotal := Some(ParseAmount(value)))
    else if key == "CARRIED_FROM_PREV" || key == "昨年からの繰越" then m.(carriedFromPrev := Some(ParseAmount(value)))
    else if key == "EXPENSE_TOTAL" || key == "支出合計" then m.(expenseTotal := Some(ParseAmount(value)))
    else if key == "THIS_YEAR_EXPENSE" || key == "今年の支出" then m.(thisYearExpense := Some(ParseAmount(value)))
    else if key == "CARRIED_TO_NEXT" || key == "余ったお金の繰越" then m.(carriedToNext := Some(ParseAmount(value)))
    else m
  }

  /** The three key-value sheets: the legacy cover and summary sheets, and `META DATA`. */
  datatype MetaSheet = Cover | Totals | MetaData

  /** The body of the `forEach` over a key-value sheet; rows of fewer than two cells are skipped. */
  function MetaRowStep(kind: MetaSheet, m: XlsxMetadata, row: Row, env: Env): XlsxMetadata
  {
    if |row| < 2 then m
    else
      var key := Trim(CellString(row[0], env));
      match kind
      case Cover => CoverStep(m, key, Trim(CellString(row[1], env)))
      case Totals => TotalsStep(m, key, row[1])
      case MetaData => MetaDataStep(m, env.upper(key), row[1], env)
  }

  /** The metadata after the rows, in order, starting from m. */
  function MetaFold(kind: MetaSheet, rows: seq<Row>, m: XlsxMetadata, env: Env): XlsxMetadata
  {
    if rows == [] then m
    else MetaRowStep(kind, MetaFold(kind, rows[..|rows| - 1], m, env), rows[|rows| - 1], env)
  }

  /** The `forEach` loop over the rows of a key-value sheet. */
  method ScanMetaRows(kind: MetaSheet, rows: seq<Row>, m0: XlsxMetadata, env: Env) returns (m: XlsxMetadata)
    ensures m == MetaFold(kind, rows, m0, env)
  {
    m := m0;
    var i := 0;
    while i < |rows|
      invariant 0 <= i <= |rows|
      invariant m == MetaFold(kind, rows[..i], m0, env)
    {
      assert rows[..i + 1][..i] == rows[..i];
      m := MetaRowStep(kind, m, rows[i], env);
      i := i + 1;
    }
    assert rows[..|rows|] == rows;
  }

  /** Scanning two row sequences in turn is scanning their concatenation. */
  lemma {:induction false} MetaFoldAppend(kind: MetaSheet, a: seq<Row>, b: seq<Row>, m: XlsxMetadata, env: Env)
    ensures MetaFold(kind, a + b, m, env) == MetaFold(kind, b, MetaFold(kind, a, m, env), env)
  {
    if b != [] {
      assert (a + b)[..|a + b| - 1] == a + b[..|b| - 1];
      MetaFoldAppend(kind, a, b[..|b| - 1], m, env);
    } else {
      assert a + b == a;
    }
  }

  /** Rows of fewer than two cells leave the metadata as it is. */
  lemma {:induction false} MetaFoldShortRows(kind: MetaSheet, rows: seq<Row>, m: XlsxMetadata, env: Env)
    requires forall i :: 0 <= i < |rows| ==> |rows[i]| < 2
    ensures MetaFold(kind, rows, m, env) == m
  {
    if rows != [] {
      MetaFoldShortRows(kind, rows[..|rows| - 1], m, env);
    }
  }

  /** The last cover row naming the candidate decides the politician's name. */
  lemma CoverLastNameWins(rows: seq<Row>, row: Row, m: XlsxMetadata, env: Env)
    requires |row| >= 2 && Contains(Trim(CellString(row[0], env)), "公職の候補者の氏名")
    ensures MetaFold(Cover, rows + [row], m, env).politician == Some(Trim(CellString(row[1], env)))
  {
    assert (rows + [row])[..|rows|] == rows;
  }

  /** The summary sheet sets nothing but the four amounts it reads. */
  lemma {:induction false} TotalsOnlyAmounts(rows: seq<Row>, m: XlsxMetadata, env: Env)
    ensures var r := MetaFold(Totals, rows, m, env);
            r.(incomeTotal := m.incomeTotal, expenseTotal := m.expenseTotal,
               carriedFromPrev := m.carriedFromPrev, carriedToNext := m.carriedToNext) == m
  {
    if rows != [] {
      TotalsOnlyAmounts(rows[..|rows| - 1], m, env);
    }
  }

  /** The cover sheet sets nothing but the six identity fields it reads. */
  lemma {:induction false} CoverOnlyIdentity(rows: seq<Row>, m: XlsxMetadata, env: Env)
    ensures var r := MetaFold(Cover, rows, m, env);
            r.(politician := m.politician, organization := m.organization, representative := m.representative,
               accountant := m.accountant, address := m.address, fiscalYear := m.fiscalYear) == m
  {
    if rows != [] {
      CoverOnlyIdentity(rows[..|rows| - 1], m, env);
    }
  }

  /** The sheets each key-value scan reads in the legacy layout. */
  predicate SheetFor(kind: MetaSheet, name: string)
  {
    match kind
    case Cover => Contains(name, "表紙") || Contains(name, "その1")
    case Totals => Contains(name, "総括") || Contains(name, "その2")
    case MetaData => name == "META DATA"
  }

  /** `workbook.Sheets[names.filter(...)[0]]`: the first sheet with a name of that kind. */
  function FirstSheet(wb: Workbook, kind: MetaSheet): (r: Option<Sheet>)
    ensures r.Some? ==> exists i :: 0 <= i < |wb| && SheetFor(kind, wb[i].0) && wb[i].1 == r.value
    ensures r.None? ==> forall i :: 0 <= i < |wb| ==> !SheetFor(kind, wb[i].0)
  {
    if wb == [] then None
    else if SheetFor(kind, wb[0].0) then Some(wb[0].1)
    else
      var r := FirstSheet(wb[1..], kind);
      assert r.Some? ==> exists i :: 0 <= i < |wb| && SheetFor(kind, wb[i].0) && wb[i].1 == r.value by {
        if r.Some? {
          var i :| 0 <= i < |wb[1..]| && SheetFor(kind, wb[1..][i].0) && wb[1..][i].1 == r.value;
          assert wb[i + 1] == wb[1..][i];
        }
      }
      assert r.None? ==> forall i :: 0 <= i < |wb| ==> !SheetFor(kind, wb[i].0) by {
        if r.None? {
          forall i | 0 <= i < |wb|
            ensures !SheetFor(kind, wb[i].0)
          {
            if i > 0 {
              assert wb[i] == wb[1..][i - 1];
            }
          }
        }
      }
      r
  }

  /** The rows of a sheet scanned from m, or m when there is no sheet. */
  function ScanSheet(kind: MetaSheet, sheet: Option<Sheet>, m: XlsxMetadata, env: Env): XlsxMetadata
  {
    match sheet
    case Some(rows) => MetaFold(kind, rows, m, env)
    case None => m
  }

  /** `extractMetadata(workbook)`: the first cover sheet, then the first summary sheet. */
  function LegacyMetadata(wb: Workbook, env: Env): XlsxMetadata
  {
    ScanSheet(Totals, FirstSheet(wb, Totals), ScanSheet(Cover, FirstSheet(wb, Cover), NoMetadata, env), env)
  }

  /** `extractMetadataNew(workbook)`: the rows of `META DATA`. */
  function NewMetadata(wb: Workbook, env: Env): XlsxMetadata
  {
    ScanSheet(MetaData, SheetNamed(wb, "META DATA"), NoMetadata, env)
  }

  method ExtractMetadata(wb: Workbook, env: Env) returns (metadata: XlsxMetadata)
    ensures metadata == LegacyMetadata(wb, env)
  {
    metadata := NoMetadata;
    var cover := FirstSheet(wb, Cover);
    if cover.Some? {
      metadata := ScanMetaRows(Cover, cover.value, metadata, env);
    }
    var summary := FirstSheet(wb, Totals);
    if summary.Some? {
      metadata := ScanMetaRows(Totals, summary.value, metadata, env);
    }
  }

  method ExtractMetadataNew(wb: Workbook, env: Env) returns (metadata: XlsxMetadata)
    ensures metadata == NewMetadata(wb, env)
  {
    metadata := NoMetadata;
    var sheet := SheetNamed(wb, "META DATA");
    if sheet.Some? {
      metadata := ScanMetaRows(MetaData, sheet.value, metadata, env);
    }
  }

  /**
   * In the legacy layout the identity fields come from the cover sheet alone and the
   * amounts from the summary sheet alone; the other keys are never set.
   */
  lemma LegacyMetadataSources(wb: Workbook, env: Env)
    ensures var m := LegacyMetadata(wb, env);
            var c := ScanSheet(Cover, FirstSheet(wb, Cover), NoMetadata, env);
            var t := ScanSheet(Totals, FirstSheet(wb, Totals), NoMetadata, env);
            && m.politician == c.politician && m.organization == c.organization
            && m.representative == c.representative && m.accountant == c.accountant
            && m.address == c.address && m.fiscalYear == c.fiscalYear
            && m.incomeTotal == t.incomeTotal && m.expenseTotal == t.expenseTotal
            && m.carriedFromPrev == t.carriedFromPrev && m.carriedToNext == t.carriedToNext
            && m.party.None? && m.hereditary.None? && m.electionCount.None? && m.thisYearExpense.None?
  {
    var c := ScanSheet(Cover, FirstSheet(wb, Cover), NoMetadata, env);
    match FirstSheet(wb, Cover) {
      case Some(rows) => CoverOnlyIdentity(rows, NoMetadata, env);
      case None =>
    }
    match FirstSheet(wb, Totals) {
      case Some(rows) =>
        TotalsOnlyAmounts(rows, c, env);
        TotalsOnlyAmounts(rows, NoMetadata, env);
        TotalsIndependent(rows, c, NoMetadata, env);
      case None =>
    }
  }

  /** The amounts the summary sheet sets do not depend on what was there before. */
  lemma {:induction false} TotalsIndependent(rows: seq<Row>, m1: XlsxMetadata, m2: XlsxMetadata, env: Env)
    requires m1.incomeTotal == m2.incomeTotal && m1.expenseTotal == m2.expenseTotal
    requires m1.carriedFromPrev == m2.carriedFromPrev && m1.carriedToNext == m2.carriedToNext
    ensures var r1 := MetaFold(Totals, rows, m1, env);
            var r2 := MetaFold(Totals, rows, m2, env);
            r1.incomeTotal == r2.incomeTotal && r1.expenseTotal == r2.expenseTotal
            && r1.carriedFromPrev == r2.carriedFromPrev && r1.carriedToNext == r2.carriedToNext
  {
    if rows != [] {
      TotalsIndependent(rows[..|rows| - 1], m1, m2, env);
    }
  }

  // ----- row cells

  /** `String(row[col] || '')`. */
  function ColText(row: Row, col: int, env: Env): string
  {
    CellString(CellAt(row, col), env)
  }

  /** `col >= 0 ? String(row[col] || '') : undefined`. */
  function OptText(row: Row, col: int, env: Env): Option<string>
  {
    if col >= 0 then Some(ColText(row, col, env)) else None
  }

  /** `col >= 0 ? String(row[col] || '').trim() : undefined`. */
  function OptTrimmed(row: Row, col: int, env: Env): Option<string>
  {
    if col >= 0 then Some(Trim(ColText(row, col, env))) else None
  }

  /** The candidate headers both layouts use for the subcategory and the URL. */
  const SubcategoryNames: seq<string> := ["飲食ジャンル", "サブカテゴリー", "ジャンル"]
  const UrlNames: seq<string> := ["URL", "url", "ウェブサイト"]

  // ----- the data rows of a sheet, numbered

  /**
   * What one data row contributes to the transactions: `None` where the row loop
   * `continue`s, and otherwise the transaction that takes output position `n`
   * (its `uuidv4()` id is drawn n-th).
   */
  type RowStep = (Row, nat) -> Option<Transaction>

  /** The transactions of the data rows `data[1..i]` (row 0 holds the headers), numbered on from start. */
  function Numbered(data: Sheet, i: nat, step: RowStep, start: nat): (r: seq<Transaction>)
    requires i <= |data|
    ensures i <= 1 ==> r == []
    ensures i > 1 ==> |r| < i
  {
    if i <= 1 then []
    else
      var prev := Numbered(data, i - 1, step, start);
      match step(data[i - 1], start + |prev|)
      case Some(t) => prev + [t]
      case None => prev
  }

  /** `for (let i = 1; i < data.length; i++) { ... transactions.push(transaction); }` */
  method NumberRows(data: Sheet, step: RowStep, start: nat) returns (txs: seq<Transaction>)
    ensures txs == Numbered(data, |data|, step, start)
  {
    txs := [];
    if |data| == 0 {
      return;
    }
    var i := 1;
    while i < |data|
      invariant 1 <= i <= |data|
      invariant txs == Numbered(data, i, step, start)
    {
      var t := step(data[i], start + |txs|);
      assert Numbered(data, i + 1, step, start) == if t.Some? then txs + [t.value] else txs;
      if t.Some? {
        txs := txs + [t.value];
      }
      i := i + 1;
    }
  }

  /** A step gives the transaction at position n the n-th fresh id. */
  ghost predicate DrawsIds(step: RowStep, env: Env)
  {
    forall row, n :: step(row, n).Some? ==> step(row, n).value.id == env.newId(n)
  }

  /** The number of data rows among `data[1..i]` that pass kept. */
  function Contributing(data: Sheet, i: nat, kept: Row -> bool): nat
    requires i <= |data|
  {
    if i <= 1 then 0
    else Contributing(data, i - 1, kept) + if kept(data[i - 1]) then 1 else 0
  }

  /** The transaction at output position start + k carries the (start + k)-th id. */
  lemma {:induction false} NumberedIds(data: Sheet, i: nat, step: RowStep, start: nat, env: Env)
    requires i <= |data|
    requires DrawsIds(step, env)
    ensures forall k :: 0 <= k < |Numbered(data, i, step, start)| ==> Numbered(data, i, step, start)[k].id == env.newId(start + k)
  {
    if i > 1 {
      NumberedIds(data, i - 1, step, start, env);
    }
  }

  /** Every numbered transaction has a property that every contributed transaction has. */
  lemma {:induction false} NumberedAll(data: Sheet, i: nat, step: RowStep, start: nat, ok: Transaction -> bool)
    requires i <= |data|
    requires forall row, n :: step(row, n).Some? ==> ok(step(row, n).value)
    ensures forall k :: 0 <= k < |Numbered(data, i, step, start)| ==> ok(Numbered(data, i, step, start)[k])
  {
    if i > 1 {
      NumberedAll(data, i - 1, step, start, ok);
    }
  }

  /** Exactly one transaction per data row that passes kept, when kept decides whether a row contributes. */
  lemma {:induction false} NumberedCount(data: Sheet, i: nat, step: RowStep, start: nat, kept: Row -> bool)
    requires i <= |data|
    requires forall row, n :: step(row, n).Some? == kept(row)
    ensures |Numbered(data, i, step, start)| == Contributing(data, i, kept)
  {
    if i > 1 {
      NumberedCount(data, i - 1, step, start, kept);
    }
  }

  // ----- transactions, legacy layout

  /** The detail sheets read for transactions, by name (the lower-cased name for the last tests). */
  predicate IsTransactionSheet(name: string, env: Env)
  {
    var lower := env.lower(name);
    || Contains(name, "★") || Contains(name, "その6") || Contains(name, "その7")
    || Contains(name, "その14") || Contains(name, "その15")
    || Contains(lower, "寄附")
    || (Contains(lower, "支出") && (Contains(lower, "政治活動") || Contains(lower, "経常")))
  }

  /** `workbook.SheetNames.filter(...)` with each name's sheet, in workbook order. */
  function TransactionSheets(wb: Workbook, env: Env): (r: Workbook)
    ensures |r| <= |wb|
    ensures forall i :: 0 <= i < |r| ==> IsTransactionSheet(r[i].0, env) && r[i] in wb
  {
    if wb == [] then []
    else
      var rest := TransactionSheets(wb[1..], env);
      if IsTransactionSheet(wb[0].0, env) then [wb[0]] + rest else rest
  }

  /** The column of each field in a legacy detail sheet, -1 where there is none. */
  datatype LegacyColumns = LegacyColumns(
    date: int, amount: int, category: int, subcategory: int, description: int,
    recipient: int, address: int, url: int, notes: int)

  const DateNames: seq<string> := ["年月日", "日付", "月日"]
  const AmountNames: seq<string> := ["金額", "額"]
  const CategoryNames: seq<string> := ["項目別区分", "カテゴリー", "区分"]
  const DescriptionNames: seq<string> := ["支出の目的", "項目", "目的", "内容"]
  const PayeeNames: seq<string> := ["支出を受けた者", "氏名", "団体名", "寄附者", "支出先"]
  const AddressNames: seq<string> := ["住所", "所在地"]
  const NotesNames: seq<string> := ["備考", "メモ"]

  function LegacyColumnsOf(headers: seq<string>): LegacyColumns
  {
    LegacyColumns(
      ColumnIndex(headers, DateNames),
      ColumnIndex(headers, AmountNames),
      ColumnIndex(headers, CategoryNames),
      ColumnIndex(headers, SubcategoryNames),
      ColumnIndex(headers, DescriptionNames),
      ColumnIndex(headers, PayeeNames),
      ColumnIndex(headers, AddressNames),
      ColumnIndex(headers, UrlNames),
      ColumnIndex(headers, NotesNames))
  }

  /** The nine lookups on the header array: `None` when one of them throws. */
  function LegacyColumnsHoled(hs: seq<Option<string>>): Option<LegacyColumns>
  {
    var date := ColumnIndexHoled(hs, DateNames);
    var amount := ColumnIndexHoled(hs, AmountNames);
    var category := ColumnIndexHoled(hs, CategoryNames);
    var subcategory := ColumnIndexHoled(hs, SubcategoryNames);
    var description := ColumnIndexHoled(hs, DescriptionNames);
    var recipient := ColumnIndexHoled(hs, PayeeNames);
    var address := ColumnIndexHoled(hs, AddressNames);
    var url := ColumnIndexHoled(hs, UrlNames);
    var notes := ColumnIndexHoled(hs, NotesNames);
    if date.Some? && amount.Some? && category.Some? && subcategory.Some? && description.Some?
       && recipient.Some? && address.Some? && url.Some? && notes.Some?
    then Some(LegacyColumns(date.value, amount.value, category.value, subcategory.value, description.value,
                            recipient.value, address.value, url.value, notes.value))
    else None
  }

  /**
   * The lookups on a header row that do not throw find the columns `LegacyColumnsOf` finds,
   * and a header row without holes never throws.
   */
  lemma LegacyColumnsHoledAgrees(row: Row, env: Env)
    ensures var r := LegacyColumnsHoled(HeaderArray(row, env));
            r.Some? ==> r.value == LegacyColumnsOf(Headers(row, env))
    ensures (forall i :: 0 <= i < |row| ==> !row[i].Empty?) ==> LegacyColumnsHoled(HeaderArray(row, env)).Some?
  {
    HeaderArrayFacts(row, env);
    LegacyLookupsAgree(HeaderArray(row, env), Headers(row, env));
  }

  /** `LegacyColumnsHoledAgrees` on the header array and its text. */
  lemma LegacyLookupsAgree(hs: seq<Option<string>>, headers: seq<string>)
    requires TextsOf(hs, headers)
    ensures LegacyColumnsHoled(hs).Some? ==> LegacyColumnsHoled(hs).value == LegacyColumnsOf(headers)
    ensures NoHoles(hs) ==> LegacyColumnsHoled(hs).Some?
  {
    ColumnIndexHoledAgrees(hs, headers, DateNames);
    ColumnIndexHoledAgrees(hs, headers, AmountNames);
    ColumnIndexHoledAgrees(hs, headers, CategoryNames);
    ColumnIndexHoledAgrees(hs, headers, SubcategoryNames);
    ColumnIndexHoledAgrees(hs, headers, DescriptionNames);
    ColumnIndexHoledAgrees(hs, headers, PayeeNames);
    ColumnIndexHoledAgrees(hs, headers, AddressNames);
    ColumnIndexHoledAgrees(hs, headers, UrlNames);
    ColumnIndexHoledAgrees(hs, headers, NotesNames);
  }

  /** A lookup on the header row of a detail sheet throws. */
  predicate LegacyHeaderThrows(row: Row, env: Env)
  {
    LegacyColumnsHoled(HeaderArray(row, env)).None?
  }

  /** The header row of a detail sheet makes a lookup throw. */
  predicate LegacySheetThrows(data: Sheet, env: Env)
  {
    data != [] && LegacyHeaderThrows(data[0], env)
  }

  /** The sheet, with its name, makes a lookup throw. */
  function Throwing(env: Env): ((string, Sheet)) -> bool
  {
    (sheet: (string, Sheet)) => LegacySheetThrows(sheet.1, env)
  }

  /** One of the detail sheets makes `extractTransactions` throw. */
  predicate LegacyThrows(wb: Workbook, env: Env)
  {
    Seqs.Any(TransactionSheets(wb, env), Throwing(env))
  }

  /** A detail sheet is an income sheet when its name says so. */
  function SheetType(name: string): TxType
  {
    if Contains(name, "収入") || Contains(name, "寄附") then Income else Expense
  }

  function LegacyAmount(cols: LegacyColumns, row: Row): real
  {
    if cols.amount >= 0 then ParseAmount(CellAt(row, cols.amount)) else 0.0
  }

  /** A data row becomes a transaction unless it is empty or its amount is 0. */
  predicate LegacyKept(cols: LegacyColumns, row: Row)
  {
    |row| > 0 && LegacyAmount(cols, row) != 0.0
  }

  /** The transaction of a kept legacy row. */
  function LegacyTransaction(cols: LegacyColumns, row: Row, ty: TxType, id: string, env: Env): Transaction
  {
    Transaction(
      id,
      if cols.date >= 0 then ParseDate(CellAt(row, cols.date), env) else env.today,
      if cols.category >= 0 then NormalizedCategory(ColText(row, cols.category, env), ty) else "その他",
      OptTrimmed(row, cols.subcategory, env),
      if cols.description >= 0 then ColText(row, cols.description, env) else "",
      OptText(row, cols.recipient, env),
      OptText(row, cols.address, env),
      OptTrimmed(row, cols.url, env),
      LegacyAmount(cols, row),
      ty,
      OptText(row, cols.notes, env))
  }

  /** What a legacy data row contributes at output position n. */
  function LegacyRow(cols: LegacyColumns, ty: TxType, env: Env, row: Row, n: nat): Option<Transaction>
  {
    if LegacyKept(cols, row) then Some(LegacyTransaction(cols, row, ty, env.newId(n), env)) else None
  }

  function LegacyStep(cols: LegacyColumns, ty: TxType, env: Env): RowStep
  {
    (row: Row, n: nat) => LegacyRow(cols, ty, env, row, n)
  }

  /** The transactions of one detail sheet: its first row holds the headers. */
  function LegacySheet(name: string, data: Sheet, start: nat, env: Env): seq<Transaction>
  {
    if data == [] then []
    else Numbered(data, |data|, LegacyStep(LegacyColumnsOf(Headers(data[0], env)), SheetType(name), env), start)
  }

  /** The transactions of the detail sheets in turn, numbered across all of them. */
  function LegacyFrom(sheets: Workbook, env: Env): seq<Transaction>
  {
    if sheets == [] then []
    else
      var prev := LegacyFrom(sheets[..|sheets| - 1], env);
      var last := sheets[|sheets| - 1];
      prev + LegacySheet(last.0, last.1, |prev|, env)
  }

  /** `extractTransactions(workbook)`. */
  function LegacyTransactions(wb: Workbook, env: Env): seq<Transaction>
  {
    LegacyFrom(TransactionSheets(wb, env), env)
  }

  /** The transactions from position start on carry the ids drawn at their positions, and none has amount 0. */
  ghost predicate InOrder(ts: seq<Transaction>, start: nat, env: Env)
  {
    forall k :: 0 <= k < |ts| ==> ts[k].id == env.newId(start + k) && ts[k].amount != 0.0
  }

  lemma InOrderAppend(a: seq<Transaction>, b: seq<Transaction>, env: Env)
    requires InOrder(a, 0, env) && InOrder(b, |a|, env)
    ensures InOrder(a + b, 0, env)
  {
    forall k | 0 <= k < |a + b|
      ensures (a + b)[k].id == env.newId(k) && (a + b)[k].amount != 0.0
    {
      if k >= |a| {
        assert (a + b)[k] == b[k - |a|];
      }
    }
  }

  /** Every transaction of a detail sheet has a non-zero amount, the id of its position, the sheet's type and a category. */
  lemma LegacySheetFacts(name: string, data: Sheet, start: nat, env: Env)
    ensures InOrder(LegacySheet(name, data, start, env), start, env)
    ensures forall k :: 0 <= k < |LegacySheet(name, data, start, env)| ==>
              LegacySheet(name, data, start, env)[k].txType == SheetType(name) && LegacySheet(name, data, start, env)[k].category != ""
  {
    if data != [] {
      var cols := LegacyColumnsOf(Headers(data[0], env));
      var step := LegacyStep(cols, SheetType(name), env);
      forall row, n | step(row, n).Some?
        ensures step(row, n).value.category != ""
      {
        if cols.category >= 0 {
          NormalizedNotEmpty(ColText(row, cols.category, env), SheetType(name));
        }
      }
      NumberedIds(data, |data|, step, start, env);
      NumberedAll(data, |data|, step, start, (t: Transaction) => t.amount != 0.0 && t.txType == SheetType(name) && t.category != "");
    }
  }

  /** A detail sheet yields one transaction per data row that is non-empty with a non-zero amount. */
  lemma LegacySheetCount(name: string, data: Sheet, start: nat, env: Env)
    requires data != []
    ensures var cols := LegacyColumnsOf(Headers(data[0], env));
            |LegacySheet(name, data, start, env)| == Contributing(data, |data|, (row: Row) => LegacyKept(cols, row))
  {
    var cols := LegacyColumnsOf(Headers(data[0], env));
    NumberedCount(data, |data|, LegacyStep(cols, SheetType(name), env), start, (row: Row) => LegacyKept(cols, row));
  }

  /** Across the detail sheets, the k-th transaction has the k-th id, and none has amount 0. */
  lemma {:induction false} LegacyFromFacts(sheets: Workbook, env: Env)
    ensures InOrder(LegacyFrom(sheets, env), 0, env)
    decreases |sheets|
  {
    if sheets != [] {
      var prev := LegacyFrom(sheets[..|sheets| - 1], env);
      var last := sheets[|sheets| - 1];
      var cur := LegacySheet(last.0, last.1, |prev|, env);
      LegacyFromFacts(sheets[..|sheets| - 1], env);
      LegacySheetFacts(last.0, last.1, |prev|, env);
      InOrderAppend(prev, cur, env);
    }
  }

  /** `extractTransactions` draws its ids in output order and keeps no zero amount. */
  lemma LegacyTransactionsFacts(wb: Workbook, env: Env)
    ensures forall k :: 0 <= k < |LegacyTransactions(wb, env)| ==>
              LegacyTransactions(wb, env)[k].id == env.newId(k) && LegacyTransactions(wb, env)[k].amount != 0.0
  {
    LegacyFromFacts(TransactionSheets(wb, env), env);
  }

  /** The nine `findColumnIndex` lookups of a legacy detail sheet; the first that throws ends them. */
  method FindLegacyColumns(headers: seq<Option<string>>) returns (cols: Option<LegacyColumns>)
    ensures cols == LegacyColumnsHoled(headers)
  {
    cols := None;
    var dateCol := FindColumnIndex(headers, DateNames);
    if dateCol.None? { return; }
    var amountCol := FindColumnIndex(headers, AmountNames);
    if amountCol.None? { return; }
    var categoryCol := FindColumnIndex(headers, CategoryNames);
    if categoryCol.None? { return; }
    var subcategoryCol := FindColumnIndex(headers, SubcategoryNames);
    if subcategoryCol.None? { return; }
    var descCol := FindColumnIndex(headers, DescriptionNames);
    if descCol.None? { return; }
    var recipientCol := FindColumnIndex(headers, PayeeNames);
    if recipientCol.None? { return; }
    var addressCol := FindColumnIndex(headers, AddressNames);
    if addressCol.None? { return; }
    var urlCol := FindColumnIndex(headers, UrlNames);
    if urlCol.None? { return; }
    var notesCol := FindColumnIndex(headers, NotesNames);
    if notesCol.None? { return; }
    cols := Some(LegacyColumns(dateCol.value, amountCol.value, categoryCol.value, subcategoryCol.value,
                               descCol.value, recipientCol.value, addressCol.value, urlCol.value, notesCol.value));
  }

  /**
   * The body of the `forEach` over the detail sheets: the sheet's rows pushed after txs0,
   * or `None` when a lookup on its header row throws.
   */
  method ParseLegacySheet(name: string, data: Sheet, txs0: seq<Transaction>, env: Env) returns (txs: Option<seq<Transaction>>)
    ensures txs.None? <==> LegacySheetThrows(data, env)
    ensures txs.Some? ==> txs.value == txs0 + LegacySheet(name, data, |txs0|, env)
  {
    if |data| == 0 {
      return Some(txs0);
    }
    var cols := FindLegacyColumns(HeaderArray(data[0], env));
    if cols.None? {
      return None;
    }
    LegacyColumnsHoledAgrees(data[0], env);
    var ty := if Contains(name, "収入") || Contains(name, "寄附") then Income else Expense;
    var rows := NumberRows(data, LegacyStep(cols.value, ty, env), |txs0|);
    txs := Some(txs0 + rows);
  }

  /** `extractTransactions`: the transactions of every detail sheet, or `None` once one throws. */
  method ExtractTransactions(wb: Workbook, env: Env) returns (transactions: Option<seq<Transaction>>)
    ensures transactions.None? <==> LegacyThrows(wb, env)
    ensures transactions.Some? ==> transactions.value == LegacyTransactions(wb, env)
  {
    var sheets := TransactionSheets(wb, env);
    var txs: seq<Transaction> := [];
    var k := 0;
    while k < |sheets|
      invariant 0 <= k <= |sheets|
      invariant !Seqs.Any(sheets[..k], Throwing(env))
      invariant txs == LegacyFrom(sheets[..k], env)
    {
      assert sheets[..k + 1][..k] == sheets[..k];
      var next := ParseLegacySheet(sheets[k].0, sheets[k].1, txs, env);
      if next.None? {
        assert Throwing(env)(sheets[k]);
        return None;
      }
      Seqs.AnyPrefix(sheets, k, Throwing(env));
      txs := next.value;
      k := k + 1;
    }
    assert sheets[..|sheets|] == sheets;
    transactions := Some(txs);
  }

  // ----- transactions, LINE ITEMS layout

  /** The column of each field of the LINE ITEMS sheet, -1 where there is none. */
  datatype NewColumns = NewColumns(
    txType: int, category: int, subcategory: int, recipient: int,
    amount: int, date: int, address: int, url: int)

  const RecipientNames: seq<string> := ["支出先/寄附者", "寄付者・受給者", "寄附者", "支出先"]

  /** Type, category, date and address need the exact header; the amount a header containing 金額. */
  function NewColumnsOf(headers: seq<string>): NewColumns
  {
    NewColumns(
      FindIndex(headers, Equals("タイプ")),
      FindIndex(headers, Equals("カテゴリー")),
      ColumnIndex(headers, SubcategoryNames),
      ColumnIndex(headers, RecipientNames),
      FindIndex(headers, Includes("金額")),
      FindIndex(headers, Equals("年月日")),
      FindIndex(headers, Equals("住所")),
      ColumnIndex(headers, UrlNames))
  }

  /** The eight lookups on the header array: `None` when one of them throws. */
  function NewColumnsHoled(hs: seq<Option<string>>): Option<NewColumns>
  {
    var txType := FindIndexHoled(hs, Equals("タイプ"));
    var category := FindIndexHoled(hs, Equals("カテゴリー"));
    var subcategory := ColumnIndexHoled(hs, SubcategoryNames);
    var recipient := ColumnIndexHoled(hs, RecipientNames);
    var amount := FindIndexHoled(hs, Includes("金額"));
    var date := FindIndexHoled(hs, Equals("年月日"));
    var address := FindIndexHoled(hs, Equals("住所"));
    var url := ColumnIndexHoled(hs, UrlNames);
    if txType.Some? && category.Some? && subcategory.Some? && recipient.Some? && amount.Some?
       && date.Some? && address.Some? && url.Some?
    then Some(NewColumns(txType.value, category.value, subcategory.value, recipient.value, amount.value,
                         date.value, address.value, url.value))
    else None
  }

  /**
   * Only the `includes` lookups can throw; those that do not find the columns `NewColumnsOf`
   * finds, and a header row without holes never throws.
   */
  lemma NewColumnsHoledAgrees(row: Row, env: Env)
    ensures var r := NewColumnsHoled(HeaderArray(row, env));
            r.Some? ==> r.value == NewColumnsOf(Headers(row, env))
    ensures (forall i :: 0 <= i < |row| ==> !row[i].Empty?) ==> NewColumnsHoled(HeaderArray(row, env)).Some?
  {
    HeaderArrayFacts(row, env);
    NewLookupsAgree(HeaderArray(row, env), Headers(row, env));
    if forall i :: 0 <= i < |row| ==> !row[i].Empty? {
      NewLookupsNoHoles(HeaderArray(row, env), Headers(row, env));
    }
  }

  /** The LINE ITEMS lookups on the header array that do not throw find the columns of its text. */
  lemma NewLookupsAgree(hs: seq<Option<string>>, headers: seq<string>)
    requires TextsOf(hs, headers)
    ensures NewColumnsHoled(hs).Some? ==> NewColumnsHoled(hs).value == NewColumnsOf(headers)
  {
    FindIndexHoledAgrees(hs, headers, Equals("タイプ"));
    FindIndexHoledAgrees(hs, headers, Equals("カテゴリー"));
    FindIndexHoledAgrees(hs, headers, Includes("金額"));
    FindIndexHoledAgrees(hs, headers, Equals("年月日"));
    FindIndexHoledAgrees(hs, headers, Equals("住所"));
    ColumnIndexHoledAgrees(hs, headers, SubcategoryNames);
    ColumnIndexHoledAgrees(hs, headers, RecipientNames);
    ColumnIndexHoledAgrees(hs, headers, UrlNames);
  }

  /** On a header array without holes no LINE ITEMS lookup throws. */
  lemma NewLookupsNoHoles(hs: seq<Option<string>>, headers: seq<string>)
    requires TextsOf(hs, headers) && NoHoles(hs)
    ensures NewColumnsHoled(hs).Some?
  {
    FindIndexHoledTotal(hs, Equals("タイプ"));
    FindIndexHoledTotal(hs, Equals("カテゴリー"));
    FindIndexHoledTotal(hs, Includes("金額"));
    FindIndexHoledTotal(hs, Equals("年月日"));
    FindIndexHoledTotal(hs, Equals("住所"));
    ColumnIndexHoledAgrees(hs, headers, SubcategoryNames);
    ColumnIndexHoledAgrees(hs, headers, RecipientNames);
    ColumnIndexHoledAgrees(hs, headers, UrlNames);
  }

  /** The four exact-match lookups of the LINE ITEMS sheet never throw and find what `FindIndex` finds. */
  lemma ExactLookupsAgree(hs: seq<Option<string>>, headers: seq<string>)
    requires TextsOf(hs, headers)
    ensures forall n :: n in ["タイプ", "カテゴリー", "年月日", "住所"] ==>
              FindIndexHoled(hs, Equals(n)) == Some(FindIndex(headers, Equals(n)))
  {
    forall n | n in ["タイプ", "カテゴリー", "年月日", "住所"]
      ensures FindIndexHoled(hs, Equals(n)) == Some(FindIndex(headers, Equals(n)))
    {
      FindIndexHoledSpec(hs, headers, Equals(n));
    }
  }

  /** The trimmed text of the type column, "" without one. */
  function NewTypeText(cols: NewColumns, row: Row, env: Env): string
  {
    if cols.txType >= 0 then Trim(ColText(row, cols.txType, env)) else ""
  }

  function NewAmount(cols: NewColumns, row: Row): real
  {
    if cols.amount >= 0 then ParseAmount(CellAt(row, cols.amount)) else 0.0
  }

  /** A row becomes a transaction unless it is empty, its amount is 0 or its type text is empty. */
  predicate NewKept(cols: NewColumns, row: Row, env: Env)
  {
    |row| > 0 && NewAmount(cols, row) != 0.0 && NewTypeText(cols, row, env) != ""
  }

  /** The transaction of a kept LINE ITEMS row. */
  function NewTransaction(cols: NewColumns, row: Row, id: string, env: Env): Transaction
  {
    var ty := if NewTypeText(cols, row, env) == "収入" then Income else Expense;
    var category := if cols.category >= 0 then Trim(ColText(row, cols.category, env)) else "";
    var description := if cols.recipient >= 0 then Trim(ColText(row, cols.recipient, env)) else "";
    Transaction(
      id,
      ParseDateNew(if cols.date >= 0 then CellAt(row, cols.date) else Empty, env),
      if category != "" then category else DefaultCategory(ty),
      OptTrimmed(row, cols.subcategory, env),
      description,
      if description != "" then Some(description) else None,
      OptTrimmed(row, cols.address, env),
      OptTrimmed(row, cols.url, env),
      NewAmount(cols, row),
      ty,
      None)
  }

  /** What a LINE ITEMS data row contributes at output position n. */
  function NewRow(cols: NewColumns, env: Env, row: Row, n: nat): Option<Transaction>
  {
    if NewKept(cols, row, env) then Some(NewTransaction(cols, row, env.newId(n), env)) else None
  }

  function NewStep(cols: NewColumns, env: Env): RowStep
  {
    (row: Row, n: nat) => NewRow(cols, env, row, n)
  }

  /** The transactions of a LINE ITEMS sheet: its first row holds the headers. */
  function NewSheet(data: Sheet, env: Env): seq<Transaction>
  {
    if data == [] then []
    else Numbered(data, |data|, NewStep(NewColumnsOf(Headers(data[0], env)), env), 0)
  }

  /** `extractTransactionsNew(workbook)`: nothing without a LINE ITEMS sheet. */
  function NewTransactions(wb: Workbook, env: Env): seq<Transaction>
  {
    match SheetNamed(wb, "LINE ITEMS")
    case None => []
    case Some(data) => NewSheet(data, env)
  }

  /** The header row of the LINE ITEMS sheet makes a lookup throw. */
  predicate NewThrows(wb: Workbook, env: Env)
  {
    match SheetNamed(wb, "LINE ITEMS")
    case None => false
    case Some(data) => data != [] && NewColumnsHoled(HeaderArray(data[0], env)).None?
  }

  /** The eight column lookups of the LINE ITEMS sheet; the first that throws ends them. */
  method FindNewColumns(headers: seq<Option<string>>) returns (cols: Option<NewColumns>)
    ensures cols == NewColumnsHoled(headers)
  {
    cols := None;
    var typeCol := FindIndexHoled(headers, Equals("タイプ"));
    var categoryCol := FindIndexHoled(headers, Equals("カテゴリー"));
    var subcategoryCol := FindColumnIndex(headers, SubcategoryNames);
    if subcategoryCol.None? { return; }
    var recipientCol := FindColumnIndex(headers, RecipientNames);
    if recipientCol.None? { return; }
    var amountCol := FindIndexHoled(headers, Includes("金額"));
    if amountCol.None? { return; }
    var dateCol := FindIndexHoled(headers, Equals("年月日"));
    var addressCol := FindIndexHoled(headers, Equals("住所"));
    var urlCol := FindColumnIndex(headers, UrlNames);
    if urlCol.None? { return; }
    if typeCol.None? || categoryCol.None? || dateCol.None? || addressCol.None? { return; }
    cols := Some(NewColumns(typeCol.value, categoryCol.value, subcategoryCol.value, recipientCol.value,
                            amountCol.value, dateCol.value, addressCol.value, urlCol.value));
  }

  /** `extractTransactionsNew`: the LINE ITEMS transactions, or `None` when a lookup throws. */
  method ExtractTransactionsNew(wb: Workbook, env: Env) returns (transactions: Option<seq<Transaction>>)
    ensures transactions.None? <==> NewThrows(wb, env)
    ensures transactions.Some? ==> transactions.value == NewTransactions(wb, env)
  {
    var sheet := SheetNamed(wb, "LINE ITEMS");
    if sheet.None? {
      return Some([]);
    }
    var data := sheet.value;
    if |data| == 0 {
      return Some([]);
    }
    var cols := FindNewColumns(HeaderArray(data[0], env));
    if cols.None? {
      return None;
    }
    NewColumnsHoledAgrees(data[0], env);
    var rows := NumberRows(data, NewStep(cols.value, env), 0);
    transactions := Some(rows);
  }

  /**
   * A LINE ITEMS transaction is income exactly when its type text is 収入, always has a
   * category, names its counterpart as recipient exactly when the description is not
   * empty, and has no notes.
   */
  lemma NewTransactionFields(cols: NewColumns, row: Row, id: string, env: Env)
    ensures var t := NewTransaction(cols, row, id, env);
            && (t.txType == Income <==> NewTypeText(cols, row, env) == "収入")
            && t.category != ""
            && (t.recipient.Some? <==> t.description != "")
            && (t.recipient.Some? ==> t.recipient.value == t.description)
            && t.notes.None?
  {
  }

  /** The properties every transaction of the LINE ITEMS layout has. */
  predicate NewShaped(t: Transaction)
  {
    t.category != "" && (t.recipient.Some? <==> t.description != "") && t.notes.None?
  }

  /** A LINE ITEMS row that contributes draws the id of its position, has an amount and is shaped. */
  lemma NewStepFacts(cols: NewColumns, env: Env)
    ensures DrawsIds(NewStep(cols, env), env)
    ensures forall row, n :: NewStep(cols, env)(row, n).Some? ==>
              NewShaped(NewStep(cols, env)(row, n).value) && NewStep(cols, env)(row, n).value.amount != 0.0
  {
    forall row, n | NewStep(cols, env)(row, n).Some?
      ensures NewShaped(NewStep(cols, env)(row, n).value) && NewStep(cols, env)(row, n).value.amount != 0.0
    {
      NewTransactionFields(cols, row, env.newId(n), env);
    }
  }

  /** The transactions of one LINE ITEMS sheet are in order and shaped. */
  lemma NewSheetFacts(data: Sheet, env: Env)
    ensures InOrder(NewSheet(data, env), 0, env)
    ensures forall k :: 0 <= k < |NewSheet(data, env)| ==> NewShaped(NewSheet(data, env)[k])
  {
    if data != [] {
      NumberedNewFacts(data, NewColumnsOf(Headers(data[0], env)), env);
    }
  }

  /** `NewSheetFacts` for the rows numbered under any columns. */
  lemma NumberedNewFacts(data: Sheet, cols: NewColumns, env: Env)
    ensures InOrder(Numbered(data, |data|, NewStep(cols, env), 0), 0, env)
    ensures forall k :: 0 <= k < |Numbered(data, |data|, NewStep(cols, env), 0)| ==>
              NewShaped(Numbered(data, |data|, NewStep(cols, env), 0)[k])
  {
    var step := NewStep(cols, env);
    NewStepFacts(cols, env);
    NumberedIds(data, |data|, step, 0, env);
    NumberedAll(data, |data|, step, 0, (t: Transaction) => NewShaped(t) && t.amount != 0.0);
  }

  /** `extractTransactionsNew` draws its ids in output order, keeps no zero amount and shapes every transaction. */
  lemma NewTransactionsFacts(wb: Workbook, env: Env)
    ensures InOrder(NewTransactions(wb, env), 0, env)
    ensures forall k :: 0 <= k < |NewTransactions(wb, env)| ==> NewShaped(NewTransactions(wb, env)[k])
  {
    if SheetNamed(wb, "LINE ITEMS").Some? {
      NewSheetFacts(SheetNamed(wb, "LINE ITEMS").value, env);
    }
  }

  /** The LINE ITEMS sheet yields one transaction per data row that is non-empty with an amount and a type. */
  lemma NewSheetCount(data: Sheet, env: Env)
    requires data != []
    ensures var cols := NewColumnsOf(Headers(data[0], env));
            |NewSheet(data, env)| == Contributing(data, |data|, (row: Row) => NewKept(cols, row, env))
  {
    var cols := NewColumnsOf(Headers(data[0], env));
    NumberedCount(data, |data|, NewStep(cols, env), 0, (row: Row) => NewKept(cols, row, env));
  }

  // ----- the report

  /** Both sheets of the META DATA / LINE ITEMS layout are present. */
  predicate HasNewFormat(wb: Workbook)
  {
    HasSheet(wb, "META DATA") && HasSheet(wb, "LINE ITEMS")
  }

  /** Name, organization and fiscal year fall back when missing or empty; the rest pass through. */
  function XlsxPolitician(m: XlsxMetadata, env: Env): PoliticianInfo
  {
    PoliticianInfo(
      OrElse(m.politician, "不明"),
      OrElse(m.organization, "不明"),
      OrElse(m.fiscalYear, IntToString(env.currentYear)),
      m.party, m.hereditary, m.electionCount, m.address, m.accountant, m.representative)
  }

  /** `metadata.incomeTotal ?? <sum of the income amounts>`. */
  function IncomeTotalOf(m: XlsxMetadata, ts: seq<Transaction>): real
  {
    m.incomeTotal.GetOr(TypeTotal(ts, Income))
  }

  /** This year's expense plus the carry-over when both are declared, else the declared total, else the sum. */
  function ExpenseTotalOf(m: XlsxMetadata, ts: seq<Transaction>): real
  {
    if m.thisYearExpense.Some? && m.carriedToNext.Some? then m.thisYearExpense.value + m.carriedToNext.value
    else if m.expenseTotal.Some? then m.expenseTotal.value
    else TypeTotal(ts, Expense)
  }

  /** The report built from the metadata and the transactions of either layout. */
  function XlsxReport(m: XlsxMetadata, ts: seq<Transaction>, env: Env): ExpenseReport
  {
    var politician := XlsxPolitician(m, env);
    var incomeTotal := IncomeTotalOf(m, ts);
    var expenseTotal := ExpenseTotalOf(m, ts);
    ExpenseReport(
      politician,
      Summary(
        incomeTotal, expenseTotal, m.thisYearExpense, incomeTotal - expenseTotal,
        m.carriedFromPrev.GetOr(0.0), m.carriedToNext.GetOr(0.0)),
      None, None, ts, None,
      ReportMetadata(env.uploadedAt, Xlsx, politician.fiscalYear))
  }

  /** The report `parseXLSX` resolves with for a workbook. */
  function XlsxParsed(wb: Workbook, env: Env): ExpenseReport
  {
    if HasNewFormat(wb) then XlsxReport(NewMetadata(wb, env), NewTransactions(wb, env), env)
    else XlsxReport(LegacyMetadata(wb, env), LegacyTransactions(wb, env), env)
  }

  /** The politician, the totals and the report assembled from the metadata and the transactions. */
  method BuildXlsxReport(metadata: XlsxMetadata, transactions: seq<Transaction>, env: Env) returns (report: ExpenseReport)
    ensures report == XlsxReport(metadata, transactions, env)
  {
    var politician := XlsxPolitician(metadata, env);
    var incomeTotal := metadata.incomeTotal.GetOr(TypeTotal(transactions, Income));
    var expenseTotal: real;
    if metadata.thisYearExpense.Some? && metadata.carriedToNext.Some? {
      expenseTotal := metadata.thisYearExpense.value + metadata.carriedToNext.value;
    } else if metadata.expenseTotal.Some? {
      expenseTotal := metadata.expenseTotal.value;
    } else {
      expenseTotal := TypeTotal(transactions, Expense);
    }
    report := ExpenseReport(
      politician,
      Summary(
        incomeTotal, expenseTotal, metadata.thisYearExpense, incomeTotal - expenseTotal,
        metadata.carriedFromPrev.GetOr(0.0), metadata.carriedToNext.GetOr(0.0)),
      None, None, transactions, None,
      ReportMetadata(env.uploadedAt, Xlsx, politician.fiscalYear));
  }

  /** The extraction of the workbook's layout throws. */
  predicate XlsxThrows(wb: Workbook, env: Env)
  {
    if HasNewFormat(wb) then NewThrows(wb, env) else LegacyThrows(wb, env)
  }

  /** What `parseXLSX` settles with: the report, or `None` for the rejected promise. */
  function XlsxOutcome(wb: Workbook, env: Env): Option<ExpenseReport>
  {
    if XlsxThrows(wb, env) then None else Some(XlsxParsed(wb, env))
  }

  /** The `reader.onload` handler from the read workbook on: the layout decides both extractions. */
  method ParseXlsx(wb: Workbook, env: Env) returns (report: Option<ExpenseReport>)
    ensures report == XlsxOutcome(wb, env)
  {
    var metaSheet := SheetNamed(wb, "META DATA");
    var itemsSheet := SheetNamed(wb, "LINE ITEMS");
    var metadata: XlsxMetadata;
    var transactions: Option<seq<Transaction>>;
    if metaSheet.Some? && itemsSheet.Some? {
      metadata := ExtractMetadataNew(wb, env);
      transactions := ExtractTransactionsNew(wb, env);
    } else {
      metadata := ExtractMetadata(wb, env);
      transactions := ExtractTransactions(wb, env);
    }
    if transactions.None? {
      return None;
    }
    var built := BuildXlsxReport(metadata, transactions.value, env);
    report := Some(built);
  }

  /** The header row of a sheet, if it has one, has no absent cell. */
  predicate HeaderFilled(data: Sheet)
  {
    data != [] ==> forall i :: 0 <= i < |data[0]| ==> !data[0][i].Empty?
  }

  /** A workbook whose header rows have no holes never makes `parseXLSX` reject. */
  lemma XlsxWithoutHoles(wb: Workbook, env: Env)
    requires forall k :: 0 <= k < |wb| ==> HeaderFilled(wb[k].1)
    ensures XlsxOutcome(wb, env) == Some(XlsxParsed(wb, env))
  {
    if HasNewFormat(wb) {
      var sheet := SheetNamed(wb, "LINE ITEMS");
      if sheet.Some? && sheet.value != [] {
        var k :| 0 <= k < |wb| && wb[k] == ("LINE ITEMS", sheet.value);
        NewColumnsHoledAgrees(sheet.value[0], env);
      }
    } else {
      var sheets := TransactionSheets(wb, env);
      forall k | 0 <= k < |sheets|
        ensures !Throwing(env)(sheets[k])
      {
        var j :| 0 <= j < |wb| && wb[j] == sheets[k];
        if sheets[k].1 != [] {
          LegacyColumnsHoledAgrees(sheets[k].1[0], env);
        }
      }
    }
  }

  /**
   * A legacy detail sheet whose first hole comes before any header containing a date name
   * makes `extractTransactions` throw, whatever follows it: the very first lookup reaches it.
   */
  lemma LegacyHoleThrows(data: Sheet, env: Env, p: nat)
    requires data != [] && p < |data[0]| && data[0][p].Empty?
    requires forall q :: 0 <= q < p ==> !data[0][q].Empty? && !Contains(Headers(data[0], env)[q], DateNames[0])
    ensures LegacySheetThrows(data, env)
  {
    var hs := HeaderArray(data[0], env);
    FindIndexHoledSpec(hs, Headers(data[0], env), Includes(DateNames[0]));
    assert HoleReached(hs, Includes(DateNames[0]), p);
  }

  /** A detail sheet headed 日付, an absent cell, 金額 makes `extractTransactions` throw. */
  lemma LegacyHoleExample(env: Env)
    ensures LegacySheetThrows([[Str("日付"), Empty, Str("金額")]], env)
  {
    var data: Sheet := [[Str("日付"), Empty, Str("金額")]];
    assert |Headers(data[0], env)[0]| <= 2;
    LegacyHoleThrows(data, env, 1);
  }

  /**
   * `parseXLSX` rejects a workbook whose one detail sheet is headed 日付, an absent cell,
   * 金額, while reading that hole as "" would give a report.
   */
  lemma XlsxHoleRejects(env: Env)
    ensures var wb: Workbook := [("その14", [[Str("日付"), Empty, Str("金額")]])];
            XlsxOutcome(wb, env).None? && XlsxOutcome(wb, env) != Some(XlsxParsed(wb, env))
  {
    var wb: Workbook := [("その14", [[Str("日付"), Empty, Str("金額")]])];
    assert OccursAt("その14", "その14", 0);
    assert !HasSheet(wb, "META DATA");
    assert TransactionSheets(wb, env) == wb;
    LegacyHoleExample(env);
    assert Throwing(env)(wb[0]);
  }

  /**
   * A workbook with both META DATA and LINE ITEMS is read in the new layout only: its
   * legacy-named sheets contribute nothing. Otherwise the LINE ITEMS sheet is ignored.
   */
  lemma XlsxLayoutChoice(wb: Workbook, env: Env)
    ensures HasNewFormat(wb) ==> XlsxParsed(wb, env).transactions == NewTransactions(wb, env)
    ensures !HasNewFormat(wb) ==> XlsxParsed(wb, env).transactions == LegacyTransactions(wb, env)
  {
  }

  /** Whichever the layout, the report's transactions carry their ids in order and no zero amount. */
  lemma XlsxTransactionsInOrder(wb: Workbook, env: Env)
    ensures InOrder(XlsxParsed(wb, env).transactions, 0, env)
  {
    if HasNewFormat(wb) {
      NewTransactionsFacts(wb, env);
    } else {
      LegacyFromFacts(TransactionSheets(wb, env), env);
    }
  }

  /** A declared income total is used as it is, even 0; otherwise the income amounts are summed. */
  lemma XlsxIncomeTotal(m: XlsxMetadata, ts: seq<Transaction>, env: Env)
    ensures m.incomeTotal.Some? ==> XlsxReport(m, ts, env).summary.incomeTotal == m.incomeTotal.value
    ensures m.incomeTotal.None? ==> XlsxReport(m, ts, env).summary.incomeTotal == TypeTotal(ts, Income)
  {
  }

  /** With this year's expense and the carry-over declared, the declared expense total is ignored. */
  lemma XlsxExpenseSplit(m: XlsxMetadata, ts: seq<Transaction>, e: Option<real>, env: Env)
    requires m.thisYearExpense.Some? && m.carriedToNext.Some?
    ensures var r := XlsxReport(m, ts, env);
            && r.summary.expenseTotal == m.thisYearExpense.value + m.carriedToNext.value
            && r.summary.carriedToNextYear == m.carriedToNext.value
            && XlsxReport(m.(expenseTotal := e), ts, env).summary == r.summary
  {
  }

  /** Otherwise a declared expense total is used whatever the transactions. */
  lemma XlsxExpenseDeclared(m: XlsxMetadata, ts1: seq<Transaction>, ts2: seq<Transaction>, env: Env)
    requires !(m.thisYearExpense.Some? && m.carriedToNext.Some?) && m.expenseTotal.Some?
    ensures XlsxReport(m, ts1, env).summary.expenseTotal == m.expenseTotal.value
    ensures XlsxReport(m, ts1, env).summary.expenseTotal == XlsxReport(m, ts2, env).summary.expenseTotal
  {
  }

  /** With no usable declaration the expense total is the sum of the expense amounts. */
  lemma XlsxExpenseComputed(m: XlsxMetadata, ts: seq<Transaction>, env: Env)
    requires !(m.thisYearExpense.Some? && m.carriedToNext.Some?) && m.expenseTotal.None?
    ensures XlsxReport(m, ts, env).summary.expenseTotal == TypeTotal(ts, Expense)
  {
  }

  /** Without any metadata: unknown politician, the current year, computed totals, nothing carried. */
  lemma XlsxWithoutMetadata(ts: seq<Transaction>, env: Env)
    ensures var r := XlsxReport(NoMetadata, ts, env);
            && r.politician.name == "不明" && r.politician.organization == "不明"
            && r.politician.fiscalYear == IntToString(env.currentYear)
            && r.metadata.fiscalYear == IntToString(env.currentYear)
            && r.summary.balance == TypeTotal(ts, Income) - TypeTotal(ts, Expense)
            && r.summary.thisYearExpense.None?
            && r.summary.carriedFromPrevYear == 0.0 && r.summary.carriedToNextYear == 0.0
  {
  }
}
