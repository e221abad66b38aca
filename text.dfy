/**
 * String operations of the ECMAScript library as the ledger code uses them: `trim`,
 * `startsWith`, `includes`, `split`, `padStart`, `String(n)`, `parseInt` of a digit run,
 * `parseFloat`, and code-point string comparison (the default `sort()` order).
 */
module Text {
  import opened Wrappers

  /** ECMAScript WhiteSpace and LineTerminator code points: what `trim` removes and `\s` matches. */
  predicate IsSpace(c: char)
  {
    c == '\t' || c == '\n' || c == '\U{B}' || c == '\U{C}' || c == '\r' || c == ' '
    || c == '\U{A0}' || c == '\U{1680}' || ('\U{2000}' <= c <= '\U{200A}')
    || c == '\U{2028}' || c == '\U{2029}' || c == '\U{202F}' || c == '\U{205F}'
    || c == '\U{3000}' || c == '\U{FEFF}'
  }

  /** A line terminator: the characters a regex `.` does not match. */
  predicate IsLineTerminator(c: char)
  {
    c == '\n' || c == '\r' || c == '\U{2028}' || c == '\U{2029}'
  }

  predicate IsDigit(c: char)
  {
    '0' <= c <= '9'
  }

  predicate AllDigits(s: string)
  {
    forall i :: 0 <= i < |s| ==> IsDigit(s[i])
  }

  /** JavaScript truthiness of a string that may be undefined. */
  predicate Filled(v: Option<string>)
  {
    v.Some? && v.value != ""
  }

  /** `v || d`. */
  function OrElse(v: Option<string>, d: string): string
  {
    if Filled(v) then v.value else d
  }

  /** `s.trimStart()`. */
  function TrimStart(s: string): (r: string)
    ensures |r| <= |s|
  {
    if s == [] || !IsSpace(s[0]) then s else TrimStart(s[1..])
  }

  /** `s.trimEnd()`. */
  function TrimEnd(s: string): (r: string)
    ensures |r| <= |s|
  {
    if s == [] || !IsSpace(s[|s| - 1]) then s else TrimEnd(s[..|s| - 1])
  }

  /** `s.trim()`. */
  function Trim(s: string): (r: string)
    ensures |r| <= |s|
  {
    TrimEnd(TrimStart(s))
  }

  /** `trimStart` removes the leading white space and nothing else. */
  lemma {:induction false} TrimStartSpec(s: string)
    ensures var r := TrimStart(s);
            && r == s[|s| - |r|..]
            && (forall i :: 0 <= i < |s| - |r| ==> IsSpace(s[i]))
            && (r == [] || !IsSpace(r[0]))
  {
    if s != [] && IsSpace(s[0]) {
      TrimStartSpec(s[1..]);
    }
  }

  /** `trimEnd` removes the trailing white space and nothing else. */
  lemma {:induction false} TrimEndSpec(s: string)
    ensures var r := TrimEnd(s);
            && r == s[..|r|]
            && (forall i :: |r| <= i < |s| ==> IsSpace(s[i]))
            && (r == [] || !IsSpace(r[|r| - 1]))
  {
    if s != [] && IsSpace(s[|s| - 1]) {
      TrimEndSpec(s[..|s| - 1]);
    }
  }

  /** `trim` leaves a slice of s that neither starts nor ends with white space. */
  lemma TrimSpec(s: string)
    ensures var r := Trim(s);
            r == [] || (!IsSpace(r[0]) && !IsSpace(r[|r| - 1]))
  {
    var t := TrimStart(s);
    TrimStartSpec(s);
    TrimEndSpec(t);
    var r := TrimEnd(t);
    if r != [] {
      assert r[0] == t[0];
    }
  }

  /** A string that neither starts nor ends with white space is its own trim. */
  lemma TrimUnchanged(s: string)
    requires s == [] || (!IsSpace(s[0]) && !IsSpace(s[|s| - 1]))
    ensures Trim(s) == s
  {
    assert TrimStart(s) == s;
  }

  /** Trimming removes characters and adds none. */
  lemma TrimAbsent(s: string, c: char)
    requires c !in s
    ensures c !in Trim(s)
  {
    var t := TrimStart(s);
    TrimStartSpec(s);
    TrimEndSpec(t);
    assert forall i :: 0 <= i < |t| ==> t[i] == s[|s| - |t| + i];
  }

  /** Trimming twice is trimming once. */
  lemma TrimIdempotent(s: string)
    ensures Trim(Trim(s)) == Trim(s)
  {
    TrimSpec(s);
    TrimUnchanged(Trim(s));
  }

  predicate StartsWith(s: string, p: string)
  {
    |p| <= |s| && s[..|p|] == p
  }

  /** p occurs in s starting at index i. */
  predicate OccursAt(s: string, p: string, i: int)
  {
    0 <= i && i + |p| <= |s| && s[i..i + |p|] == p
  }

  /** `s.includes(p)`. */
  predicate Contains(s: string, p: string)
  {
    exists i | 0 <= i <= |s| - |p| :: OccursAt(s, p, i)
  }

  /** A string contains each of its prefixes. */
  lemma PrefixContained(s: string, p: string)
    requires StartsWith(s, p)
    ensures Contains(s, p)
  {
    assert OccursAt(s, p, 0);
  }

  /** A string containing p contains everything p contains. */
  lemma ContainsTransitive(s: string, p: string, q: string)
    requires Contains(s, p) && Contains(p, q)
    ensures Contains(s, q)
  {
    var i :| 0 <= i <= |s| - |p| && OccursAt(s, p, i);
    var j :| 0 <= j <= |p| - |q| && OccursAt(p, q, j);
    assert p == s[i..i + |p|];
    forall k | 0 <= k < |q|
      ensures s[i + j + k] == q[k]
    {
      assert q[k] == p[j + k] == s[i + j + k];
    }
    assert s[i + j..i + j + |q|] == q;
    assert OccursAt(s, q, i + j);
  }

  /** `s.split(c)` for a one-character separator: the pieces between occurrences of c. */
  function Split(s: string, c: char): (r: seq<string>)
    ensures |r| >= 1
  {
    if s == [] then [[]]
    else
      var r' := Split(s[..|s| - 1], c);
      assert s == s[..|s| - 1] + [s[|s| - 1]];
      if s[|s| - 1] == c then r' + [[]]
      else r'[..|r'| - 1] + [r'[|r'| - 1] + [s[|s| - 1]]]
  }

  /** No piece of a split holds the separator. */
  lemma {:induction false} SplitPieces(s: string, c: char)
    ensures forall k :: 0 <= k < |Split(s, c)| ==> c !in Split(s, c)[k]
  {
    if s != [] {
      var s' := s[..|s| - 1];
      SplitPieces(s', c);
      var r' := Split(s', c);
      if s[|s| - 1] != c {
        var last := r'[|r'| - 1] + [s[|s| - 1]];
        assert c !in last by {
          assert forall i :: 0 <= i < |r'[|r'| - 1]| ==> last[i] == r'[|r'| - 1][i];
        }
      }
    }
  }

  /** A string without the separator is a single piece. */
  lemma {:induction false} SplitWhole(s: string, c: char)
    requires c !in s
    ensures Split(s, c) == [s]
  {
    if s != [] {
      var s' := s[..|s| - 1];
      assert c !in s' by { assert forall i :: 0 <= i < |s'| ==> s'[i] == s[i]; }
      SplitWhole(s', c);
      assert s' + [s[|s| - 1]] == s;
    }
  }

  /** `pieces.join(c)`. */
  function Join(pieces: seq<string>, c: char): string
  {
    if pieces == [] then []
    else if |pieces| == 1 then pieces[0]
    else Join(pieces[..|pieces| - 1], c) + [c] + pieces[|pieces| - 1]
  }

  lemma {:induction false} JoinSnocLast(pieces: seq<string>, c: char, x: char)
    requires |pieces| >= 1
    ensures Join(pieces[..|pieces| - 1] + [pieces[|pieces| - 1] + [x]], c) == Join(pieces, c) + [x]
  {
    var p' := pieces[..|pieces| - 1];
    var q := p' + [pieces[|pieces| - 1] + [x]];
    assert q[..|q| - 1] == p';
  }

  /** Splitting and joining on the same separator gives the string back. */
  lemma {:induction false} JoinSplit(s: string, c: char)
    ensures Join(Split(s, c), c) == s
  {
    if s != [] {
      var s' := s[..|s| - 1];
      JoinSplit(s', c);
      JoinSplitSnoc(s', c, s[|s| - 1]);
      assert s' + [s[|s| - 1]] == s;
    }
  }

  /** Appending one character to the text appends it to the joined pieces. */
  lemma JoinSplitSnoc(s: string, c: char, x: char)
    ensures Join(Split(s + [x], c), c) == Join(Split(s, c), c) + [x]
  {
    var r' := Split(s, c);
    assert (s + [x])[..|s|] == s;
    if x == c {
      assert (r' + [[]])[..|r'|] == r';
    } else {
      JoinSnocLast(r', c, x);
    }
  }

  /** A string holding the separator splits into at least two pieces. */
  lemma {:induction false} SplitMany(s: string, c: char)
    requires c in s
    ensures |Split(s, c)| >= 2
  {
    var s' := s[..|s| - 1];
    assert s == s' + [s[|s| - 1]];
    if s[|s| - 1] != c {
      SplitMany(s', c);
    }
  }

  /** A separator followed by separator-free text adds that text as the last piece. */
  lemma {:induction false} SplitAfterLast(a: string, c: char, b: string)
    requires c !in b
    ensures Split(a + [c] + b, c) == Split(a, c) + [b]
  {
    var s := a + [c] + b;
    if b == [] {
      assert s[..|s| - 1] == a;
    } else {
      var b' := b[..|b| - 1];
      assert s[..|s| - 1] == a + [c] + b';
      assert c !in b' by { assert forall i :: 0 <= i < |b'| ==> b'[i] == b[i]; }
      SplitAfterLast(a, c, b');
      assert b' + [b[|b| - 1]] == b;
    }
  }

  /** Joining separator-free pieces and splitting again gives the pieces back. */
  lemma {:induction false} SplitJoin(pieces: seq<string>, c: char)
    requires |pieces| >= 1
    requires forall k :: 0 <= k < |pieces| ==> c !in pieces[k]
    ensures Split(Join(pieces, c), c) == pieces
  {
    if |pieces| == 1 {
      SplitWhole(pieces[0], c);
    } else {
      var p' := pieces[..|pieces| - 1];
      SplitJoin(p', c);
      SplitAfterLast(Join(p', c), c, pieces[|pieces| - 1]);
      assert p' + [pieces[|pieces| - 1]] == pieces;
    }
  }

  /** The first piece of a split is the text before the first separator. */
  lemma {:induction false} SplitHead(s: string, c: char, i: nat)
    requires i < |s| && s[i] == c && c !in s[..i]
    ensures Split(s, c)[0] == s[..i]
    ensures |Split(s, c)| >= 2
  {
    var s' := s[..|s| - 1];
    if i == |s| - 1 {
      assert s' == s[..i];
      SplitWhole(s', c);
    } else {
      assert s'[i] == c && s'[..i] == s[..i];
      SplitHead(s', c, i);
    }
  }

  /** `s.replace(/x/g, y)` for single characters. */
  function ReplaceChar(s: string, x: char, y: char): (r: string)
    ensures |r| == |s|
    ensures forall i :: 0 <= i < |s| ==> r[i] == if s[i] == x then y else s[i]
  {
    if s == [] then [] else [if s[0] == x then y else s[0]] + ReplaceChar(s[1..], x, y)
  }

  /** `s.replace(/[...]/g, '')`: s without the characters that satisfy `drop`. */
  function RemoveChars(s: string, drop: char -> bool): (r: string)
    ensures |r| <= |s|
  {
    if s == [] then [] else (if drop(s[0]) then [] else [s[0]]) + RemoveChars(s[1..], drop)
  }

  /** Removing characters distributes over concatenation. */
  lemma {:induction false} RemoveCharsAppend(a: string, b: string, drop: char -> bool)
    ensures RemoveChars(a + b, drop) == RemoveChars(a, drop) + RemoveChars(b, drop)
  {
    if a == [] {
      assert a + b == b;
    } else {
      assert (a + b)[0] == a[0] && (a + b)[1..] == a[1..] + b;
      RemoveCharsAppend(a[1..], b, drop);
    }
  }

  /** Removing a separator that is dropped entirely from between two kept strings joins them. */
  lemma RemoveCharsAround(a: string, sep: string, b: string, drop: char -> bool)
    requires RemoveChars(a, drop) == a && RemoveChars(sep, drop) == [] && RemoveChars(b, drop) == b
    ensures RemoveChars(a + sep + b, drop) == a + b
  {
    RemoveCharsAppend(a + sep, b, drop);
    RemoveCharsAppend(a, sep, drop);
    assert a + [] == a;
  }

  /** Nothing is removed from a string none of whose characters is dropped. */
  lemma {:induction false} RemoveCharsNone(s: string, drop: char -> bool)
    requires forall i :: 0 <= i < |s| ==> !drop(s[i])
    ensures RemoveChars(s, drop) == s
  {
    if s != [] {
      RemoveCharsNone(s[1..], drop);
    }
  }

  function DigitValue(c: char): nat
    requires IsDigit(c)
  {
    c as int - '0' as int
  }

  function DigitChar(d: nat): (c: char)
    requires d < 10
    ensures IsDigit(c) && DigitValue(c) == d
  {
    ('0' as int + d) as char
  }

  /** `parseInt(d, 10)` of a non-empty run of decimal digits. */
  function DigitsValue(d: string): nat
    requires AllDigits(d)
  {
    if d == [] then 0 else 10 * DigitsValue(d[..|d| - 1]) + DigitValue(d[|d| - 1])
  }

  /** `String(n)` for a natural number: decimal digits without leading zeros. */
  function NatToString(n: nat): (s: string)
    ensures |s| >= 1 && AllDigits(s)
    ensures |s| > 1 ==> s[0] != '0'
  {
    if n < 10 then [DigitChar(n)]
    else
      var t := NatToString(n / 10);
      t + [DigitChar(n % 10)]
  }

  /** Reading back the digits of `String(n)` gives n. */
  lemma {:induction false} DigitsValueNatToString(n: nat)
    ensures DigitsValue(NatToString(n)) == n
  {
    if n >= 10 {
      DigitsValueNatToString(n / 10);
      var s := NatToString(n);
      assert s[..|s| - 1] == NatToString(n / 10);
    }
  }

  /** `String(i)` for an integer. */
  function IntToString(i: int): (s: string)
    ensures |s| >= 1
  {
    if i < 0 then "-" + NatToString(-i) else NatToString(i)
  }

  /** k copies of c. */
  function Repeat(c: char, k: nat): (r: string)
    ensures |r| == k && forall i :: 0 <= i < k ==> r[i] == c
  {
    if k == 0 then [] else [c] + Repeat(c, k - 1)
  }

  /** `s.padStart(n, c)`. */
  function PadStart(s: string, n: nat, c: char): string
  {
    if |s| >= n then s else Repeat(c, n - |s|) + s
  }

  /** Padding leaves strings of at least n characters alone, and otherwise puts copies of c before s up to length n. */
  lemma PadStartSpec(s: string, n: nat, c: char)
    ensures var r := PadStart(s, n, c);
            && (|s| >= n ==> r == s)
            && (|s| < n ==> |r| == n)
            && |r| >= |s| && r[|r| - |s|..] == s
            && forall i :: 0 <= i < |r| - |s| ==> r[i] == c
  {
    var r := PadStart(s, n, c);
    assert r[|r| - |s|..] == s;
  }

  /** `String(n).padStart(2, '0')`. */
  function Pad2(n: nat): (r: string)
    ensures |r| >= 2 && AllDigits(r)
  {
    var d := NatToString(n);
    PadStartSpec(d, 2, '0');
    var r := PadStart(d, 2, '0');
    assert forall i :: 0 <= i < |r| ==> IsDigit(r[i]) by {
      forall i | 0 <= i < |r|
        ensures IsDigit(r[i])
      {
        if i >= |r| - |d| {
          assert r[i] == r[|r| - |d|..][i - (|r| - |d|)];
        }
      }
    }
    r
  }

  /** Length of the run of decimal digits at the start of s. */
  function DigitRun(s: string): (n: nat)
    ensures n <= |s| && AllDigits(s[..n])
    ensures n < |s| ==> !IsDigit(s[n])
  {
    if s == [] || !IsDigit(s[0]) then 0
    else
      var n := 1 + DigitRun(s[1..]);
      assert forall i :: 1 <= i < n ==> s[..n][i] == s[1..][..n - 1][i - 1];
      n
  }

  /** The first maximal run of decimal digits in s: what `s.match(/(\d+)/)` captures. */
  function FirstDigitRun(s: string): (r: Option<string>)
    ensures r.Some? ==> |r.value| >= 1 && AllDigits(r.value)
  {
    if s == [] then None
    else if IsDigit(s[0]) then Some(s[..DigitRun(s)])
    else FirstDigitRun(s[1..])
  }

  /** The capture starts at the first digit and runs to the next non-digit. */
  lemma {:induction false} FirstDigitRunAt(s: string, i: nat)
    requires i < |s| && IsDigit(s[i])
    requires forall j :: 0 <= j < i ==> !IsDigit(s[j])
    ensures FirstDigitRun(s) == Some(s[i..i + DigitRun(s[i..])])
  {
    if i > 0 {
      assert !IsDigit(s[0]);
      assert forall j :: 0 <= j < i - 1 ==> s[1..][j] == s[j + 1];
      FirstDigitRunAt(s[1..], i - 1);
      assert s[1..][i - 1..] == s[i..];
      var n := DigitRun(s[i..]);
      assert s[1..][i - 1..i - 1 + n] == s[i..i + n];
    }
  }

  /** A string without digits has no capture. */
  lemma {:induction false} FirstDigitRunNone(s: string)
    requires forall j :: 0 <= j < |s| ==> !IsDigit(s[j])
    ensures FirstDigitRun(s).None?
  {
    if s != [] {
      assert forall j :: 0 <= j < |s| - 1 ==> s[1..][j] == s[j + 1];
      FirstDigitRunNone(s[1..]);
    }
  }

  lemma {:induction false} DigitRunAll(s: string)
    requires AllDigits(s)
    ensures DigitRun(s) == |s|
  {
    if s != [] {
      DigitRunAll(s[1..]);
    }
  }

  /** x times ten to the power e. */
  function Scale(x: real, e: int): real
    decreases if e >= 0 then e else -e
  {
    if e == 0 then x else if e > 0 then 10.0 * Scale(x, e - 1) else Scale(x, e + 1) / 10.0
  }

  /** The value of the digits d read as a decimal fraction `0.d`. */
  function FractionValue(d: string): real
    requires AllDigits(d)
  {
    if d == [] then 0.0 else (DigitValue(d[0]) as real + FractionValue(d[1..])) / 10.0
  }

  /** The signed exponent of an `e`/`E` exponent part at the start of s, or 0 when there is none. */
  function ExponentPart(s: string): int
  {
    if |s| >= 1 && (s[0] == 'e' || s[0] == 'E') then
      var u := s[1..];
      var neg := |u| >= 1 && u[0] == '-';
      var v := if |u| >= 1 && (u[0] == '-' || u[0] == '+') then u[1..] else u;
      var n := DigitRun(v);
      var e: int := if n == 0 then 0 else DigitsValue(v[..n]);
      if neg then -e else e
    else 0
  }

  /**
   * The value of the longest prefix of u that is an unsigned decimal literal (digits,
   * optional fraction, optional exponent), or `None` when u starts with no such literal.
   */
  function ParseUnsigned(u: string): (r: Option<real>)
    ensures r.None? <==> !(|u| >= 1 && IsDigit(u[0])) && !(|u| >= 2 && u[0] == '.' && IsDigit(u[1]))
  {
    var ni := DigitRun(u);
    var rest := u[ni..];
    var hasDot := |rest| >= 1 && rest[0] == '.';
    var nf := if hasDot then DigitRun(rest[1..]) else 0;
    if ni == 0 && nf == 0 then None
    else
      var frac := if hasDot then FractionValue(rest[1..][..nf]) else 0.0;
      var after := if hasDot then rest[1 + nf..] else rest;
      var e := ExponentPart(after);
      Some(Scale(DigitsValue(u[..ni]) as real + frac, e))
  }

  /**
   * `parseFloat(s)`: leading white space is skipped, then an optional sign and the longest
   * unsigned decimal literal are read; `None` stands for the result NaN.
   */
  function ParseFloat(s: string): Option<real>
  {
    var t := TrimStart(s);
    var neg := |t| >= 1 && t[0] == '-';
    var u := if |t| >= 1 && (t[0] == '-' || t[0] == '+') then t[1..] else t;
    var r := ParseUnsigned(u);
    if neg && r.Some? then Some(-r.value) else r
  }

  /** An integer literal of n digits, not continued by a fraction or an exponent, reads as its digits. */
  lemma ParseUnsignedInteger(u: string, n: nat)
    requires 1 <= n <= |u| && DigitRun(u) == n
    requires n == |u| || (u[n] != '.' && u[n] != 'e' && u[n] != 'E')
    ensures ParseUnsigned(u) == Some(DigitsValue(u[..n]) as real)
  {
    var rest := u[n..];
    assert rest == [] || rest[0] == u[n];
    assert ExponentPart(rest) == 0;
  }

  /** `parseFloat` of text starting with a digit is the unsigned literal at its start. */
  lemma ParseFloatUnsigned(s: string)
    requires |s| >= 1 && IsDigit(s[0])
    ensures ParseFloat(s) == ParseUnsigned(s)
  {
    assert TrimStart(s) == s;
  }

  /** `parseFloat` of text starting with `-` and a digit negates the unsigned literal after the sign. */
  lemma ParseFloatMinus(s: string)
    requires |s| >= 2 && s[0] == '-' && IsDigit(s[1])
    ensures ParseUnsigned(s[1..]).Some?
    ensures ParseFloat(s) == Some(-ParseUnsigned(s[1..]).value)
  {
    assert TrimStart(s) == s;
  }

  /** `parseFloat` stops at the first character that cannot continue the number, such as a comma. */
  lemma ParseFloatStopsAtComma(a: string, b: string)
    requires |a| >= 1 && AllDigits(a)
    ensures ParseFloat(a + "," + b) == Some(DigitsValue(a) as real)
  {
    var s := a + "," + b;
    assert s == a + ("," + b);
    DigitRunPrefix(a, "," + b);
    assert s[|a|] == ',' && s[..|a|] == a;
    ParseUnsignedInteger(s, |a|);
    ParseFloatUnsigned(s);
  }

  /** A digit run followed by a non-digit is read exactly. */
  lemma {:induction false} DigitRunPrefix(a: string, b: string)
    requires AllDigits(a) && |b| >= 1 && !IsDigit(b[0])
    ensures DigitRun(a + b) == |a|
  {
    if a != [] {
      assert (a + b)[1..] == a[1..] + b;
      DigitRunPrefix(a[1..], b);
    }
  }

  /** A run of decimal digits reads as its value. */
  lemma ParseUnsignedDigits(d: string)
    requires |d| >= 1 && AllDigits(d)
    ensures ParseUnsigned(d) == Some(DigitsValue(d) as real)
  {
    DigitRunAll(d);
    assert d[..|d|] == d;
    ParseUnsignedInteger(d, |d|);
  }

  /** A run of decimal digits parses to its value. */
  lemma ParseFloatDigits(d: string)
    requires |d| >= 1 && AllDigits(d)
    ensures ParseFloat(d) == Some(DigitsValue(d) as real)
  {
    ParseFloatUnsigned(d);
    ParseUnsignedDigits(d);
  }

  /** A minus sign before a run of decimal digits negates its value. */
  lemma ParseFloatNegDigits(d: string)
    requires |d| >= 1 && AllDigits(d)
    ensures ParseFloat("-" + d) == Some(-(DigitsValue(d) as real))
  {
    var s := "-" + d;
    assert s[0] == '-' && s[1..] == d;
    ParseFloatSignedDigits(s, d);
  }

  lemma ParseFloatSignedDigits(s: string, d: string)
    requires |d| >= 1 && AllDigits(d)
    requires |s| >= 2 && s[0] == '-' && s[1..] == d
    ensures ParseFloat(s) == Some(-(DigitsValue(d) as real))
  {
    assert IsDigit(s[1]) by { assert s[1] == d[0]; }
    ParseFloatMinus(s);
    ParseUnsignedDigits(d);
  }

  /** `parseFloat(String(i)) === i` for every integer. */
  lemma ParseFloatIntToString(i: int)
    ensures ParseFloat(IntToString(i)) == Some(i as real)
  {
    if i < 0 {
      ParseFloatNegLiteral(i, IntToString(i));
    } else {
      ParseFloatNatLiteral(i, IntToString(i));
    }
  }

  lemma ParseFloatNatLiteral(i: int, t: string)
    requires i >= 0 && t == NatToString(i)
    ensures ParseFloat(t) == Some(i as real)
  {
    DigitsValueNatToString(i);
    ParseFloatDigits(t);
  }

  lemma ParseFloatNegLiteral(i: int, t: string)
    requires i < 0 && t == "-" + NatToString(-i)
    ensures ParseFloat(t) == Some(i as real)
  {
    var n: nat := -i;
    var d := NatToString(n);
    DigitsValueNatToString(n);
    assert t[0] == '-' && t[1..] == d;
    ParseFloatSignedDigits(t, d);
  }

  /** `parseFloat(s) || 0`: NaN and zero both become 0. */
  function NumberOrZero(r: Option<real>): real
  {
    match r
    case None => 0.0
    case Some(v) => v
  }

  /**
   * Comparison of strings by code point, as the default `sort()` and `<` order them:
   * negative, zero or positive.
   */
  function LexCmp(a: string, b: string): (r: real)
    ensures r == -1.0 || r == 0.0 || r == 1.0
    ensures r == 0.0 <==> a == b
  {
    if a == [] && b == [] then 0.0
    else if a == [] then -1.0
    else if b == [] then 1.0
    else if a[0] < b[0] then -1.0
    else if a[0] > b[0] then 1.0
    else
      var r := LexCmp(a[1..], b[1..]);
      assert r == 0.0 <==> a == b by {
        assert a == [a[0]] + a[1..] && b == [b[0]] + b[1..];
      }
      r
  }

  /** Swapping the operands negates the comparison. */
  lemma {:induction false} LexCmpAntisymmetric(a: string, b: string)
    ensures LexCmp(b, a) == -LexCmp(a, b)
  {
    if a != [] && b != [] && a[0] == b[0] {
      LexCmpAntisymmetric(a[1..], b[1..]);
    }
  }
}
