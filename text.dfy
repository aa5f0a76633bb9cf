/** The string operations the pages rely on: decimal rendering of hours,
    `padStart(2, "0")`, `split(":")[0]`, `parseInt(_, 10)`, `Number(_)`,
    `trim()`, and the `HH:MM` to `HH:MM:SS` time normaliser. */
module Text {
  import opened Base

  predicate IsDigit(c: char)
  {
    '0' <= c <= '9'
  }

  predicate AllDigits(s: string)
  {
    forall i :: 0 <= i < |s| ==> IsDigit(s[i])
  }

  function DigitValue(c: char): nat
    requires IsDigit(c)
  {
    c as int - '0' as int
  }

  function DigitChar(d: nat): (c: char)
    requires d < 10
    ensures IsDigit(c) && DigitValue(c) == d
  {
    ('0' as int + d) as char
  }

  /** The value of a run of decimal digits, most significant first. */
  function DigitsValue(ds: string): nat
    requires AllDigits(ds)
  {
    if ds == [] then 0 else DigitsValue(ds[..|ds| - 1]) * 10 + DigitValue(ds[|ds| - 1])
  }

  /** `n.toString()` for a non-negative integer: its decimal digits, without
      leading zeros. */
  function NatToString(n: nat): (r: string)
    ensures AllDigits(r) && |r| >= 1
    ensures |r| == 1 <==> n < 10
    ensures |r| > 1 ==> r[0] != '0'
  {
    if n < 10 then [DigitChar(n)] else NatToString(n / 10) + [DigitChar(n % 10)]
  }

  /** Reading back the digits of `n.toString()` gives `n`. */
  lemma {:induction false} NatToStringRoundTrip(n: nat)
    ensures DigitsValue(NatToString(n)) == n
  {
    if n >= 10 {
      NatToStringRoundTrip(n / 10);
      var s := NatToString(n);
      assert s[..|s| - 1] == NatToString(n / 10);
    }
  }

  /** `s.padStart(2, "0")`. */
  function PadStart2(s: string): string
  {
    if |s| < 2 then seq(2 - |s|, _ => '0') + s else s
  }

  /** `n.toString().padStart(2, "0")`. */
  function Pad2(n: nat): string
  {
    PadStart2(NatToString(n))
  }

  /** Below 100, the padded form is exactly two digits, and they read back as `n`. */
  lemma Pad2Digits(n: nat)
    requires n < 100
    ensures |Pad2(n)| == 2 && AllDigits(Pad2(n))
    ensures DigitsValue(Pad2(n)) == n
  {
    var s := NatToString(n);
    if n < 10 {
      var p := Pad2(n);
      assert s == [DigitChar(n)];
      assert p == ['0', DigitChar(n)];
      assert p[..1] == ['0'] && ['0'][..0] == [];
      assert DigitsValue(p[..1]) == 0;
      assert DigitsValue(p) == DigitValue(DigitChar(n));
    } else {
      NatToStringRoundTrip(n);
    }
  }

  /** `"HH:00"`: the label of hour `h` used by every schedule grid. */
  function HourLabel(h: nat): (r: string)
    ensures |r| >= 5 && r[|r| - 3..] == ":00"
    ensures h < 100 ==> |r| == 5
  {
    if h < 100 then Pad2Digits(h); Pad2(h) + ":00" else Pad2(h) + ":00"
  }

  /** The characters `String.prototype.trim` and `parseInt` skip: the
      ECMAScript WhiteSpace and LineTerminator code points. */
  predicate IsWhitespace(c: char)
  {
    c == ' ' || c == '\t' || c == '\n' || c == '\r' || c == '\U{B}' || c == '\U{C}'
    || c == '\U{A0}' || c == '\U{1680}' || ('\U{2000}' <= c <= '\U{200A}')
    || c == '\U{2028}' || c == '\U{2029}' || c == '\U{202F}' || c == '\U{205F}'
    || c == '\U{3000}' || c == '\U{FEFF}'
  }

  predicate IsBlank(s: string)
  {
    forall i :: 0 <= i < |s| ==> IsWhitespace(s[i])
  }

  /** `s.trimStart()`: the suffix of `s` from its first non-whitespace character. */
  function TrimStart(s: string): (r: string)
    ensures |r| <= |s| && r == s[|s| - |r|..]
    ensures IsBlank(s[..|s| - |r|])
    ensures r == [] || !IsWhitespace(r[0])
  {
    if s == [] || !IsWhitespace(s[0]) then s
    else
      var r := TrimStart(s[1..]);
      BlankJoin([s[0]], s[1..][..|s| - 1 - |r|]);
      assert s[..|s| - |r|] == [s[0]] + s[1..][..|s| - 1 - |r|];
      r
  }

  /** Blank text followed by blank text is blank. */
  lemma BlankJoin(x: string, y: string)
    requires IsBlank(x) && IsBlank(y)
    ensures IsBlank(x + y)
  {
  }

  /** `s.trimEnd()`: the prefix of `s` up to its last non-whitespace character. */
  function TrimEnd(s: string): (r: string)
    ensures |r| <= |s| && r == s[..|r|]
    ensures IsBlank(s[|r|..])
    ensures r == [] || !IsWhitespace(r[|r| - 1])
  {
    if s == [] || !IsWhitespace(s[|s| - 1]) then s
    else
      var r := TrimEnd(s[..|s| - 1]);
      BlankJoin(s[..|s| - 1][|r|..], [s[|s| - 1]]);
      assert s[|r|..] == s[..|s| - 1][|r|..] + [s[|s| - 1]];
      r
  }

  /** `r` is the piece of `s` starting at `a`, with only whitespace before
      and after it. */
  predicate BlankAround(s: string, r: string, a: int)
  {
    0 <= a <= |s| - |r| && r == s[a..a + |r|] && IsBlank(s[..a]) && IsBlank(s[a + |r|..])
  }

  /** `s.trim()`. */
  function Trim(s: string): (r: string)
    ensures r == [] || (!IsWhitespace(r[0]) && !IsWhitespace(r[|r| - 1]))
    ensures BlankAround(s, r, |s| - |TrimStart(s)|)
  {
    var t := TrimStart(s);
    var r := TrimEnd(t);
    TrimSlices(s, t, r, |s| - |t|);
    r
  }

  /** The slices `trim()` relates: `t` is `s` from `a` on with a blank text
      before it, and `r` is a prefix of `t` with a blank text after it. */
  lemma TrimSlices(s: string, t: string, r: string, a: int)
    requires 0 <= a <= |s| && t == s[a..] && IsBlank(s[..a]) && (t == [] || !IsWhitespace(t[0]))
    requires |r| <= |t| && r == t[..|r|] && IsBlank(t[|r|..]) && (r == [] || !IsWhitespace(r[|r| - 1]))
    ensures r == [] || (!IsWhitespace(r[0]) && !IsWhitespace(r[|r| - 1]))
    ensures BlankAround(s, r, a)
  {
    assert s[a + |r|..] == t[|r|..];
  }

  /** `!s.trim()` holds exactly when every character of `s` is whitespace. */
  lemma TrimEmptyIffBlank(s: string)
    ensures Trim(s) == "" <==> IsBlank(s)
  {
  }

  /** `s.split(":")[0]`: everything before the first colon, or all of `s`. */
  function BeforeColon(s: string): (r: string)
    ensures |r| <= |s| && r == s[..|r|]
    ensures ':' !in r
    ensures |r| < |s| ==> s[|r|] == ':'
  {
    if s == [] || s[0] == ':' then []
    else
      var r := BeforeColon(s[1..]);
      assert [s[0]] + r == s[..|r| + 1];
      [s[0]] + r
  }

  /** Text after the first colon does not change what comes before it. */
  lemma {:induction false} BeforeColonAppend(s: string, rest: string)
    requires rest != [] && rest[0] == ':'
    ensures BeforeColon(s + rest) == BeforeColon(s)
  {
    if s != [] && s[0] != ':' {
      assert (s + rest)[1..] == s[1..] + rest;
      BeforeColonAppend(s[1..], rest);
    }
  }

  /** The longest prefix of `s` made of decimal digits. */
  function DigitPrefix(s: string): (r: string)
    ensures |r| <= |s| && r == s[..|r|]
    ensures AllDigits(r)
    ensures |r| < |s| ==> !IsDigit(s[|r|])
  {
    if s == [] || !IsDigit(s[0]) then []
    else
      var r := DigitPrefix(s[1..]);
      assert [s[0]] + r == s[..|r| + 1];
      [s[0]] + r
  }

  lemma {:induction false} DigitPrefixAppend(ds: string, rest: string)
    requires AllDigits(ds)
    requires rest == [] || !IsDigit(rest[0])
    ensures DigitPrefix(ds + rest) == ds
  {
    if ds != [] {
      assert (ds + rest)[1..] == ds[1..] + rest;
      DigitPrefixAppend(ds[1..], rest);
    }
  }

  /** `parseInt(s, 10)`: skip leading whitespace, take an optional sign and
      the longest run of digits after it; `None` stands for `NaN`, which
      compares unequal to every number. */
  /** `parseInt` after the leading whitespace is gone: an optional sign,
      then the digit prefix. */
  function ParseTrimmed(t: string): (r: Option<int>)
    ensures t == [] ==> r.None?
    ensures t != [] && t[0] != '-' && t[0] != '+' ==>
      r == (if DigitPrefix(t) == [] then None else Some(DigitsValue(DigitPrefix(t))))
    ensures t != [] && t[0] == '+' ==>
      r == (if DigitPrefix(t[1..]) == [] then None else Some(DigitsValue(DigitPrefix(t[1..]))))
    ensures t != [] && t[0] == '-' ==>
      r == (if DigitPrefix(t[1..]) == [] then None else Some(0 - DigitsValue(DigitPrefix(t[1..]))))
  {
    if t == [] then None
    else
      var signed := t[0] == '-' || t[0] == '+';
      var ds := DigitPrefix(if signed then t[1..] else t);
      if ds == [] then None
      else if t[0] == '-' then Some(0 - DigitsValue(ds))
      else Some(DigitsValue(ds))
  }

  /** Text made only of digits has no leading whitespace and is its own
      digit prefix. */
  lemma AllDigitsParseWhole(s: string)
    ensures s != [] && AllDigits(s) ==> TrimStart(s) == s && DigitPrefix(s) == s
  {
    if s != [] && AllDigits(s) {
      assert IsDigit(s[0]);
      assert !IsWhitespace(s[0]);
      DigitPrefixAppend(s, []);
      assert s + [] == s;
    }
  }

  function ParseInt(s: string): (r: Option<int>)
    ensures s != [] && AllDigits(s) ==> r == Some(DigitsValue(s))
    ensures s == [] ==> r.None?
    ensures TrimStart(s) == [] ==> r.None?
    ensures TrimStart(s) != [] && TrimStart(s)[0] != '-' && TrimStart(s)[0] != '+' ==>
      r == (if DigitPrefix(TrimStart(s)) == [] then None else Some(DigitsValue(DigitPrefix(TrimStart(s)))))
    ensures TrimStart(s) != [] && TrimStart(s)[0] == '+' ==>
      r == (if DigitPrefix(TrimStart(s)[1..]) == [] then None else Some(DigitsValue(DigitPrefix(TrimStart(s)[1..]))))
    ensures TrimStart(s) != [] && TrimStart(s)[0] == '-' ==>
      r == (if DigitPrefix(TrimStart(s)[1..]) == [] then None else Some(0 - DigitsValue(DigitPrefix(TrimStart(s)[1..]))))
  {
    AllDigitsParseWhole(s);
    ParseTrimmed(TrimStart(s))
  }

  /** An hour written as two digits and followed by anything that does not
      start with a digit parses back to that hour. */
  lemma ParseIntPadded(h: nat, rest: string)
    requires h < 100
    requires rest == [] || !IsDigit(rest[0])
    ensures ParseInt(Pad2(h) + rest) == Some(h)
  {
    Pad2Digits(h);
    var p := Pad2(h);
    var s := p + rest;
    assert s[0] == p[0] && IsDigit(p[0]);
    assert !IsWhitespace(s[0]);
    assert TrimStart(s) == s;
    assert s[0] != '-' && s[0] != '+';
    DigitPrefixAppend(p, rest);
    assert DigitPrefix(s) == p;
  }

  /** `time.length === 5 ? `${time}:00` : time`.  A five-character `HH:MM`
      gains a seconds field; every other string is passed through. */
  function NormalizeTime(t: string): (r: string)
    ensures |r| != 5
    ensures |t| <= |r| && t == r[..|t|]
    ensures r != t ==> |t| == 5 && r[|t|..] == ":00"
    ensures BeforeColon(r) == BeforeColon(t)
  {
    if |t| == 5 then BeforeColonAppend(t, ":00"); t + ":00" else t
  }

  /** Normalising twice is normalising once. */
  lemma NormalizeTimeIdempotent(t: string)
    ensures NormalizeTime(NormalizeTime(t)) == NormalizeTime(t)
  {
  }

  /** The value of `Number(s)` as far as the pages use it: an integer, or
      something that is not an integer (`NaN`, a fraction, ...). */
  datatype NumberValue = Int(value: int) | NotAnInteger

  /** `Number(s)` for decimal integer text: surrounding whitespace is ignored,
      blank text is 0, and a sign may precede the digits. */
  function ToNumber(s: string): (r: NumberValue)
    ensures Trim(s) == [] ==> r == Int(0)
    ensures Trim(s) != [] && AllDigits(Trim(s)) ==> r == Int(DigitsValue(Trim(s)))
    ensures |Trim(s)| > 1 && Trim(s)[0] == '-' && AllDigits(Trim(s)[1..]) ==> r == Int(0 - DigitsValue(Trim(s)[1..]) as int)
    ensures r.Int? && Trim(s) != [] ==> Trim(s)[0] == '-' || Trim(s)[0] == '+' || IsDigit(Trim(s)[0])
  {
    var t := Trim(s);
    if t == [] then Int(0)
    else
      var signed := t[0] == '-' || t[0] == '+';
      var ds := if signed then t[1..] else t;
      if ds == [] || !AllDigits(ds) then NotAnInteger
      else
        var v: int := DigitsValue(ds);
        if t[0] == '-' then Int(-v) else Int(v)
  }

  /** `Number(String(n)) === n`. */
  lemma {:induction false} ToNumberRoundTrip(n: nat)
    ensures ToNumber(NatToString(n)) == Int(n)
  {
    var s := NatToString(n);
    assert !IsWhitespace(s[0]);
    assert TrimStart(s) == s;
    assert !IsWhitespace(s[|s| - 1]);
    assert TrimEnd(s) == s;
    assert Trim(s) == s;
    assert s[0] != '-' && s[0] != '+';
    NatToStringRoundTrip(n);
  }
}
