/**
 * The date shapes the three parsers recognise, matched the way the JavaScript regular
 * expressions match them: the Reiwa era forms `令和5年4月1日` (the `和` is optional) and
 * `R5/4/1`, found at the leftmost position where they match, and the `YYYY/M/D` or
 * `YYYY-M-D` shape tested against the whole string. Reiwa year n is Western year 2018 + n.
 */
module EraDates {
  import opened Wrappers
  import opened Text

  /** A non-empty run of decimal digits, as `(\d+)` captures it. */
  type Digits = s: string | |s| >= 1 && AllDigits(s) witness "0"

  /** The three captures of a Reiwa date: era year, month and day. */
  datatype Ymd = Ymd(year: Digits, month: Digits, day: Digits)

  /** Western year of a Reiwa year: 令和1年 is 2019. */
  function WesternYear(reiwa: Digits): nat { 2018 + DigitsValue(reiwa) }

  /** `${2018 + parseInt(y)}-${m.padStart(2, '0')}-${d.padStart(2, '0')}`: the captured month and day padded as written. */
  function ReiwaDate(c: Ymd): string
  {
    NatToString(WesternYear(c.year)) + "-" + PadStart(c.month, 2, '0') + "-" + PadStart(c.day, 2, '0')
  }

  lemma DigitsValueTwo(m: Digits)
    requires |m| == 2
    ensures DigitsValue(m) == 10 * DigitValue(m[0]) + DigitValue(m[1])
  {
    var one := [m[0]];
    assert m[..|m| - 1] == one;
    assert one[..|one| - 1] == [];
    assert DigitsValue(one) == DigitValue(m[0]);
  }

  lemma NatToStringOne(c: char)
    requires IsDigit(c)
    ensures NatToString(DigitValue(c)) == [c]
  {
  }

  lemma NatToStringTwo(a: char, b: char)
    requires IsDigit(a) && a != '0' && IsDigit(b)
    ensures NatToString(10 * DigitValue(a) + DigitValue(b)) == [a, b]
  {
    var n := 10 * DigitValue(a) + DigitValue(b);
    assert n / 10 == DigitValue(a) && n % 10 == DigitValue(b);
    NatToStringOne(a);
  }

  lemma PadOneDigit(c: char)
    requires IsDigit(c)
    ensures PadStart([c], 2, '0') == Pad2(DigitValue(c))
  {
    NatToStringOne(c);
  }

  lemma PadLeadingZero(c: char)
    requires IsDigit(c)
    ensures PadStart(['0', c], 2, '0') == Pad2(DigitValue(c))
  {
    NatToStringOne(c);
    assert Repeat('0', 1) == ['0'];
  }

  lemma PadTwoDigits(a: char, b: char)
    requires IsDigit(a) && a != '0' && IsDigit(b)
    ensures PadStart([a, b], 2, '0') == Pad2(10 * DigitValue(a) + DigitValue(b))
  {
    NatToStringTwo(a, b);
  }

  lemma PadShortOne(m: Digits)
    requires |m| == 1
    ensures PadStart(m, 2, '0') == Pad2(DigitsValue(m))
  {
    assert m == [m[0]] && m[..0] == [];
    assert DigitsValue(m) == DigitValue(m[0]);
    PadOneDigit(m[0]);
  }

  lemma PadShortTwo(m: Digits)
    requires |m| == 2
    ensures PadStart(m, 2, '0') == Pad2(DigitsValue(m))
  {
    DigitsValueTwo(m);
    assert m == [m[0], m[1]];
    if m[0] == '0' {
      PadLeadingZero(m[1]);
    } else {
      PadTwoDigits(m[0], m[1]);
    }
  }

  /** Padding a captured one- or two-digit field as written is padding its value. */
  lemma PadShort(m: Digits)
    requires |m| <= 2
    ensures PadStart(m, 2, '0') == Pad2(DigitsValue(m))
  {
    if |m| == 1 {
      PadShortOne(m);
    } else {
      PadShortTwo(m);
    }
  }

  /** With one- or two-digit month and day, padding the captures equals padding the parsed numbers. */
  lemma ReiwaDatePadded(c: Ymd)
    requires |c.month| <= 2 && |c.day| <= 2
    ensures ReiwaDate(c) == NatToString(WesternYear(c.year)) + "-" + Pad2(DigitsValue(c.month)) + "-" + Pad2(DigitsValue(c.day))
  {
    PadShort(c.month);
    PadShort(c.day);
  }

  /** The maximal digit run starting at q, if it is not empty, with the index just after it. */
  function RunAt(s: string, q: nat): (r: Option<(Digits, nat)>)
    ensures r.Some? ==> q < r.value.1 <= |s|
  {
    if q >= |s| then None
    else
      var n := DigitRun(s[q..]);
      assert s[q..q + n] == s[q..][..n];
      if n == 0 then None else Some((s[q..q + n], q + n))
  }

  /** A digit run at q followed by the character sep, with the index just after sep. */
  function RunThen(s: string, q: nat, sep: char): (r: Option<(Digits, nat)>)
    ensures r.Some? ==> q < r.value.1 <= |s|
  {
    match RunAt(s, q)
    case None => None
    case Some((d, e)) => if e < |s| && s[e] == sep then Some((d, e + 1)) else None
  }

  /** `(\d+)年(\d+)月(\d+)日` matched at position q. */
  function KanjiFieldsAt(s: string, q: nat): Option<Ymd>
  {
    var r1 := RunThen(s, q, '年');
    if r1.None? then None else
    var r2 := RunThen(s, r1.value.1, '月');
    if r2.None? then None else
    var r3 := RunThen(s, r2.value.1, '日');
    if r3.None? then None else
    Some(Ymd(r1.value.0, r2.value.0, r3.value.0))
  }

  /** `令和?(\d+)年(\d+)月(\d+)日` matched at position p: `令` is required, `和` optional. */
  function KanjiAt(s: string, p: nat): Option<Ymd>
  {
    if p < |s| && s[p] == '令' then
      KanjiFieldsAt(s, if p + 1 < |s| && s[p + 1] == '和' then p + 2 else p + 1)
    else None
  }

  /** `R(\d+)\/(\d+)\/(\d+)` matched at position p (the last run is as long as the digits go). */
  function SlashAt(s: string, p: nat): Option<Ymd>
  {
    if p < |s| && s[p] == 'R' then
      match RunThen(s, p + 1, '/')
      case None => None
      case Some((y, e1)) =>
        match RunThen(s, e1, '/')
        case None => None
        case Some((m, e2)) =>
          match RunAt(s, e2)
          case None => None
          case Some((d, _)) => Some(Ymd(y, m, d))
    else None
  }

  /** `R(\d+)\/(\d+)\/(\d+)|令和?(\d+)年(\d+)月(\d+)日` at position p: the first alternative wins. */
  function EitherAt(s: string, p: nat): Option<Ymd>
  {
    if SlashAt(s, p).Some? then SlashAt(s, p) else KanjiAt(s, p)
  }

  /** `s.match(re)` for an unanchored pattern: the match at the leftmost position from p on. */
  function Search<T>(s: string, p: nat, at: (string, nat) -> Option<T>): Option<T>
    decreases |s| + 1 - p
  {
    if p > |s| then None
    else if at(s, p).Some? then at(s, p)
    else Search(s, p + 1, at)
  }

  /** The search finds the match at the leftmost matching position. */
  lemma {:induction false} SearchLeftmost<T>(s: string, p: nat, at: (string, nat) -> Option<T>, k: nat)
    requires p <= k <= |s| && at(s, k).Some?
    requires forall q :: p <= q < k ==> at(s, q).None?
    ensures Search(s, p, at) == at(s, k)
    decreases k - p
  {
    if p < k {
      SearchLeftmost(s, p + 1, at, k);
    }
  }

  /** The search finds nothing only when no position matches. */
  lemma {:induction false} SearchNone<T>(s: string, p: nat, at: (string, nat) -> Option<T>)
    ensures Search(s, p, at).None? <==> forall q :: p <= q <= |s| ==> at(s, q).None?
    decreases |s| + 1 - p
  {
    if p <= |s| && at(s, p).None? {
      SearchNone(s, p + 1, at);
    }
  }

  /** What the search finds is the match at some position from p on. */
  lemma {:induction false} SearchFound<T>(s: string, p: nat, at: (string, nat) -> Option<T>)
    requires Search(s, p, at).Some?
    ensures exists q :: p <= q <= |s| && at(s, q) == Search(s, p, at)
    decreases |s| + 1 - p
  {
    if at(s, p).None? {
      SearchFound(s, p + 1, at);
    }
  }

  function IsDateSep(c: char): bool { c == '/' || c == '-' }

  /** `^\d{4}[/-]\d{1,2}[/-]\d{1,2}$` with an m-digit month. */
  predicate IsoLikeWith(s: string, m: nat)
  {
    && (m == 1 || m == 2)
    && 6 + m + 1 <= |s| <= 6 + m + 2
    && AllDigits(s[..4]) && IsDateSep(s[4])
    && AllDigits(s[5..5 + m]) && IsDateSep(s[5 + m])
    && AllDigits(s[6 + m..])
  }

  predicate IsoLike(s: string) { IsoLikeWith(s, 1) || IsoLikeWith(s, 2) }

  /** `^\d{4}-\d{2}-\d{2}$`. */
  predicate IsoExact(s: string)
  {
    |s| == 10 && AllDigits(s[..4]) && s[4] == '-' && AllDigits(s[5..7]) && s[7] == '-' && AllDigits(s[8..])
  }

  /** A run of digits after a prefix, followed by the separator, is read as that run. */
  lemma RunThenConcat(pre: string, d: Digits, sep: char, rest: string)
    requires !IsDigit(sep)
    ensures RunThen(pre + d + [sep] + rest, |pre|, sep) == Some((d, |pre| + |d| + 1))
  {
    var s := pre + d + [sep] + rest;
    assert s[|pre|..] == d + ([sep] + rest);
    DigitRunPrefix(d, [sep] + rest);
    assert s[|pre|..][..|d|] == d;
    assert s[|pre|..|pre| + |d|] == d;
    assert s[|pre| + |d|] == sep;
  }

  /** The text `令和{y}年{m}月{d}日`. */
  function ReiwaText(c: Ymd): string
  {
    "令和" + c.year + "年" + c.month + "月" + c.day + "日"
  }

  /** The text `令和{y}年{m}月{d}日` matched at its start yields its three captures. */
  lemma KanjiCanonical(c: Ymd)
    ensures KanjiAt(ReiwaText(c), 0) == Some(c)
  {
    ReiwaTextStart(c);
    ReiwaTextFields(c);
  }

  lemma ReiwaTextStart(c: Ymd)
    ensures |ReiwaText(c)| > 2 && ReiwaText(c)[0] == '令' && ReiwaText(c)[1] == '和'
  {
    var rest := c.year + "年" + c.month + "月" + c.day + "日";
    assert ReiwaText(c) == "令和" + rest;
  }

  /** RunThenConcat stated for a string s known to be cut at position q. */
  lemma RunThenAt(s: string, q: nat, e: nat, pre: string, d: Digits, sep: char, rest: string)
    requires !IsDigit(sep) && s == pre + d + [sep] + rest && q == |pre| && e == q + |d| + 1
    ensures RunThen(s, q, sep) == Some((d, e))
  {
    RunThenConcat(pre, d, sep, rest);
  }

  /** `(\d+)年(\d+)月(\d+)日` after any prefix reads back the three runs. */
  lemma KanjiFieldsConcat(pre: string, c: Ymd)
    ensures KanjiFieldsAt(pre + c.year + "年" + c.month + "月" + c.day + "日", |pre|) == Some(c)
  {
    var p2 := pre + c.year + "年";
    var p3 := p2 + c.month + "月";
    var s := p3 + c.day + "日";
    var e1 := |pre| + |c.year| + 1;
    var e2 := e1 + |c.month| + 1;
    var e3 := e2 + |c.day| + 1;
    RunThenAt(s, |pre|, e1, pre, c.year, '年', c.month + "月" + c.day + "日");
    RunThenAt(s, e1, e2, p2, c.month, '月', c.day + "日");
    RunThenAt(s, e2, e3, p3, c.day, '日', []);
    KanjiFieldsFrom(s, |pre|, c, e1, e2, e3);
  }

  lemma ReiwaTextFields(c: Ymd)
    ensures KanjiFieldsAt(ReiwaText(c), 2) == Some(c)
  {
    KanjiFieldsConcat("令和", c);
  }

  /** Three digit runs closed by `年`, `月` and `日` in turn are the three captures. */
  lemma KanjiFieldsFrom(s: string, q: nat, c: Ymd, e1: nat, e2: nat, e3: nat)
    requires RunThen(s, q, '年') == Some((c.year, e1))
    requires RunThen(s, e1, '月') == Some((c.month, e2))
    requires RunThen(s, e2, '日') == Some((c.day, e3))
    ensures KanjiFieldsAt(s, q) == Some(c)
  {
  }

  /** A digit run that ends the string is read to the end. */
  lemma RunAtEnd(pre: string, d: Digits)
    ensures RunAt(pre + d, |pre|) == Some((d, |pre| + |d|))
  {
    var s := pre + d;
    assert s[|pre|..] == d;
    DigitRunAll(d);
    assert s[|pre|..|pre| + |d|] == d;
  }

  /** A digit run is read up to the end of the string or its first non-digit. */
  lemma RunAtBefore(pre: string, d: Digits, rest: string)
    requires rest == [] || !IsDigit(rest[0])
    ensures RunAt(pre + d + rest, |pre|) == Some((d, |pre| + |d|))
  {
    if rest == [] {
      assert pre + d + rest == pre + d;
      RunAtEnd(pre, d);
    } else {
      var s := pre + d + rest;
      assert s[|pre|..] == d + rest;
      DigitRunPrefix(d, rest);
      assert s[|pre|..][..|d|] == d;
      assert s[|pre|..|pre| + |d|] == d;
    }
  }

  /** The text `R{y}/{m}/{d}`. */
  function SlashText(c: Ymd): string
  {
    "R" + c.year + "/" + c.month + "/" + c.day
  }

  /** RunAtEnd stated for a string s that ends with the run starting at q. */
  lemma RunAtEndAt(s: string, q: nat, e: nat, pre: string, d: Digits)
    requires s == pre + d && q == |pre| && e == |s|
    ensures RunAt(s, q) == Some((d, e))
  {
    RunAtEnd(pre, d);
  }

  /** Two digit runs closed by `/` and a final run after `R` are the three captures. */
  lemma SlashFieldsFrom(s: string, c: Ymd, e1: nat, e2: nat, e3: nat)
    requires |s| >= 1 && s[0] == 'R'
    requires RunThen(s, 1, '/') == Some((c.year, e1))
    requires RunThen(s, e1, '/') == Some((c.month, e2))
    requires RunAt(s, e2) == Some((c.day, e3))
    ensures SlashAt(s, 0) == Some(c)
  {
  }

  /** The text `R{y}/{m}/{d}` matched at its start yields its three captures. */
  lemma SlashCanonical(c: Ymd)
    ensures SlashAt(SlashText(c), 0) == Some(c)
  {
    var p2 := "R" + c.year + "/";
    var p3 := p2 + c.month + "/";
    var s := p3 + c.day;
    var e1 := 1 + |c.year| + 1;
    var e2 := e1 + |c.month| + 1;
    RunThenAt(s, 1, e1, "R", c.year, '/', c.month + "/" + c.day);
    RunThenAt(s, e1, e2, p2, c.month, '/', c.day);
    RunAtEndAt(s, e2, |s|, p3, c.day);
    assert s[0] == 'R';
    SlashFieldsFrom(s, c, e1, e2, |s|);
  }

  /** A `YYYY/M/D` string holds nothing but digits and separators. */
  lemma IsoLikeChars(s: string)
    requires IsoLike(s)
    ensures forall i :: 0 <= i < |s| ==> IsDigit(s[i]) || IsDateSep(s[i])
  {
    var m := if IsoLikeWith(s, 1) then 1 else 2;
    forall i | 0 <= i < |s|
      ensures IsDigit(s[i]) || IsDateSep(s[i])
    {
      if i < 4 {
        assert s[..4][i] == s[i];
      } else if 5 <= i < 5 + m {
        assert s[5..5 + m][i - 5] == s[i];
      } else if i > 5 + m {
        assert s[6 + m..][i - (6 + m)] == s[i];
      }
    }
  }

  /** A string that does not start with a digit is not of the `YYYY/M/D` shape. */
  lemma NotIsoLike(s: string)
    requires |s| >= 1 && !IsDigit(s[0])
    ensures !IsoLike(s)
  {
    if |s| >= 4 {
      assert s[..4][0] == s[0];
    }
  }

  /** Replacing the slashes of a `YYYY/M/D` date by dashes keeps the shape, with dashes. */
  lemma IsoLikeWithDashes(s: string, m: nat)
    requires IsoLikeWith(s, m)
    ensures var r := ReplaceChar(s, '/', '-');
            IsoLikeWith(r, m) && r[4] == '-' && r[5 + m] == '-' && '/' !in r
  {
    var r := ReplaceChar(s, '/', '-');
    assert r[..4] == s[..4];
    assert r[5..5 + m] == s[5..5 + m];
    assert r[6 + m..] == s[6 + m..];
  }

  lemma IsoLikeDashes(s: string)
    requires IsoLike(s)
    ensures var r := ReplaceChar(s, '/', '-');
            IsoLike(r) && r[4] == '-' && '/' !in r
  {
    if IsoLikeWith(s, 1) {
      IsoLikeWithDashes(s, 1);
    } else {
      IsoLikeWithDashes(s, 2);
    }
  }
}
