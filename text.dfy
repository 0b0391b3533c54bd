/**
 * The pieces of Python's string and integer behaviour that the modelled code relies on:
 * `str.upper`, `str.lower`, `str.endswith`, the decimal rendering used by an f-string
 * and the parsing done by `int(str)`.
 */
module Text {
  import opened Results

  /**
   * Upper case of one character as `str.upper` gives it, as far as the result can be an
   * ASCII letter: the ASCII letters, dotless i (U+0131) and long s (U+017F). Every other
   * character is kept as it is.
   */
  function UpperChar(c: char): char
  {
    if 'a' <= c <= 'z' then (c as int - 32) as char
    else if c == '\U{131}' then 'I'
    else if c == '\U{17F}' then 'S'
    else c
  }

  /** `str.lower` on ASCII letters; other characters are kept as they are. */
  function LowerChar(c: char): char
  {
    if 'A' <= c <= 'Z' then (c as int + 32) as char else c
  }

  function Upper(s: string): (r: string)
    ensures |r| == |s|
    ensures forall i :: 0 <= i < |s| ==> r[i] == UpperChar(s[i])
  {
    seq(|s|, i requires 0 <= i < |s| => UpperChar(s[i]))
  }

  function Lower(s: string): (r: string)
    ensures |r| == |s|
    ensures forall i :: 0 <= i < |s| ==> r[i] == LowerChar(s[i])
  {
    seq(|s|, i requires 0 <= i < |s| => LowerChar(s[i]))
  }

  /** `s.endswith(suffix)`: case-sensitive. */
  predicate EndsWith(s: string, suffix: string)
  {
    |suffix| <= |s| && s[|s| - |suffix|..] == suffix
  }

  predicate IsDigit(c: char)
  {
    '0' <= c <= '9'
  }

  predicate AllDigits(s: string)
  {
    forall i :: 0 <= i < |s| ==> IsDigit(s[i])
  }

  function DigitChar(d: nat): (c: char)
    requires d < 10
    ensures IsDigit(c)
  {
    ('0' as int + d) as char
  }

  function DigitValue(c: char): (d: nat)
    requires IsDigit(c)
    ensures d < 10 && DigitChar(d) == c
  {
    c as int - '0' as int
  }

  /** The decimal text of `n`, as `str(n)` or `f"{n}"` writes it: no sign, no leading zero. */
  function NatToDecimal(n: nat): (s: string)
    ensures |s| >= 1 && AllDigits(s)
    ensures s[0] == '0' ==> n == 0
    decreases n
  {
    if n < 10 then [DigitChar(n)] else NatToDecimal(n / 10) + [DigitChar(n % 10)]
  }

  /** Decimal digits as `str(n)` writes them: at least one, and no leading zero unless alone. */
  predicate IsCanonicalDecimal(d: string)
  {
    |d| >= 1 && AllDigits(d) && (d[0] != '0' || |d| == 1)
  }

  /** The number a string of decimal digits denotes (leading zeros allowed). */
  function DecimalValue(s: string): nat
    requires AllDigits(s)
  {
    if s == [] then 0 else DecimalValue(s[..|s| - 1]) * 10 + DigitValue(s[|s| - 1])
  }

  lemma {:induction false} DecimalRoundTrip(n: nat)
    ensures DecimalValue(NatToDecimal(n)) == n
    decreases n
  {
    if n >= 10 {
      DecimalRoundTrip(n / 10);
      var s := NatToDecimal(n);
      assert s[..|s| - 1] == NatToDecimal(n / 10);
    }
  }

  /** Digits with no leading zero are the decimal text of the number they denote. */
  lemma {:induction false} CanonicalDecimal(d: string)
    requires IsCanonicalDecimal(d)
    ensures NatToDecimal(DecimalValue(d)) == d
    decreases |d|
  {
    var v := DigitValue(d[|d| - 1]);
    if |d| == 1 {
      assert d[..0] == [];
    } else {
      var p := d[..|d| - 1];
      assert p[0] == d[0];
      CanonicalDecimal(p);
      assert NatToDecimal(0) == ['0'];
      assert DecimalValue(p) != 0;
      var n := DecimalValue(d);
      assert n == DecimalValue(p) * 10 + v;
      assert n / 10 == DecimalValue(p) && n % 10 == v;
      assert d == p + [d[|d| - 1]];
    }
  }

  /** `str(i)` for a Python int. */
  function IntToDecimal(i: int): string
  {
    if i < 0 then "-" + NatToDecimal(-i) else NatToDecimal(i)
  }

  /**
   * The characters `int()` skips around a number: the six ASCII white-space characters
   * (tab, line feed, vertical tab, form feed, carriage return, space) and the non-ASCII
   * characters Python classes as white space, which `int()` first turns into a space.
   * The ASCII separators U+001C..U+001F are not skipped.
   */
  predicate IsSpace(c: char)
  {
    c == ' ' || '\t' <= c <= '\r' || c == '\U{85}' || c == '\U{A0}'
    || c == '\U{1680}' || '\U{2000}' <= c <= '\U{200A}' || c == '\U{2028}' || c == '\U{2029}'
    || c == '\U{202F}' || c == '\U{205F}' || c == '\U{3000}'
  }

  predicate AllSpace(s: string)
  {
    forall i :: 0 <= i < |s| ==> IsSpace(s[i])
  }

  /** `s` without its leading white space. */
  function TrimStart(s: string): (r: string)
    ensures |r| <= |s| && r == s[|s| - |r|..]
    ensures forall i :: 0 <= i < |s| - |r| ==> IsSpace(s[i])
    ensures r != [] ==> !IsSpace(r[0])
  {
    if s != [] && IsSpace(s[0]) then TrimStart(s[1..]) else s
  }

  /** `s` without its trailing white space. */
  function TrimEnd(s: string): (r: string)
    ensures |r| <= |s| && r == s[..|r|]
    ensures forall i :: |r| <= i < |s| ==> IsSpace(s[i])
    ensures r != [] ==> !IsSpace(r[|r| - 1])
  {
    if s != [] && IsSpace(s[|s| - 1]) then TrimEnd(s[..|s| - 1]) else s
  }

  /**
   * The digits of a base-10 literal as `int()` accepts them: ASCII digits, where a single
   * underscore may separate two digits.
   */
  predicate IsDigitGroups(t: string)
  {
    && |t| >= 1
    && IsDigit(t[0]) && IsDigit(t[|t| - 1])
    && (forall i :: 0 <= i < |t| ==> IsDigit(t[i]) || t[i] == '_')
    && (forall i :: 0 <= i < |t| - 1 && t[i] == '_' ==> t[i + 1] != '_')
  }

  function RemoveUnderscores(t: string): (r: string)
    requires forall i :: 0 <= i < |t| ==> IsDigit(t[i]) || t[i] == '_'
    ensures AllDigits(r)
  {
    if t == [] then []
    else (if t[0] == '_' then [] else [t[0]]) + RemoveUnderscores(t[1..])
  }

  /**
   * `int(s)` for a string `s`: surrounding white space is skipped, an optional sign is read,
   * then digit groups; anything else raises `ValueError` (here `None`). Every text it accepts
   * is a literal with nothing but white space around it.
   */
  function ParseInt(s: string): (r: Option<int>)
    ensures r.Some? ==> exists i, j :: 0 <= i <= j <= |s| && AllSpace(s[..i]) && AllSpace(s[j..])
                                       && ParseLiteral(s[i..j]) == r
  {
    var t := TrimStart(s);
    var i := |s| - |t|;
    var l := TrimEnd(t);
    assert s[i..i + |l|] == l && AllSpace(s[..i]) && AllSpace(s[i + |l|..]) by {
      assert t == s[i..];
      assert s[i + |l|..] == t[|l|..];
    }
    ParseLiteral(l)
  }

  /** `int()` on the text left once the white space is skipped. */
  function ParseLiteral(t: string): Option<int>
  {
    if |t| >= 1 && (t[0] == '-' || t[0] == '+') then
      var body := t[1..];
      if IsDigitGroups(body) then
        var n: int := DecimalValue(RemoveUnderscores(body));
        Some(if t[0] == '-' then -n else n)
      else None
    else if IsDigitGroups(t) then Some(DecimalValue(RemoveUnderscores(t)))
    else None
  }

  lemma {:induction false} RemoveUnderscoresOfDigits(t: string)
    requires AllDigits(t)
    ensures RemoveUnderscores(t) == t
  {
    if t != [] {
      RemoveUnderscoresOfDigits(t[1..]);
    }
  }

  /** A text with no white space at either end is read as it stands. */
  lemma ParseIntOfTrimmed(s: string)
    requires |s| >= 1 && !IsSpace(s[0]) && !IsSpace(s[|s| - 1])
    ensures ParseInt(s) == ParseLiteral(s)
  {
    assert TrimStart(s) == s;
    assert TrimEnd(s) == s;
  }

  lemma DigitsAreDigitGroups(d: string)
    requires |d| >= 1 && AllDigits(d)
    ensures IsDigitGroups(d)
  {
    assert IsDigit(d[0]) && IsDigit(d[|d| - 1]);
  }

  lemma ParseLiteralOfDigits(d: string)
    requires |d| >= 1 && AllDigits(d)
    ensures ParseLiteral(d) == Some(DecimalValue(d))
  {
    RemoveUnderscoresOfDigits(d);
    DigitsAreDigitGroups(d);
    assert !(d[0] == '-' || d[0] == '+') by {
      assert IsDigit(d[0]);
    }
  }

  lemma ParseLiteralOfNegatedDigits(t: string)
    requires |t| >= 2 && t[0] == '-' && AllDigits(t[1..])
    ensures ParseLiteral(t) == Some(-(DecimalValue(t[1..]) as int))
  {
    RemoveUnderscoresOfDigits(t[1..]);
    DigitsAreDigitGroups(t[1..]);
  }

  /** `int(str(i)) == i` for every integer. */
  lemma ParseIntRoundTrip(i: int)
    ensures ParseInt(IntToDecimal(i)) == Some(i)
  {
    var n: nat := if i < 0 then -i else i;
    var d := NatToDecimal(n);
    DecimalRoundTrip(n);
    var s := IntToDecimal(i);
    assert IsDigit(d[0]) && IsDigit(d[|d| - 1]);
    if i < 0 {
      assert s == "-" + d && s[1..] == d;
      ParseLiteralOfNegatedDigits(s);
      ParseIntOfTrimmed(s);
    } else {
      ParseLiteralOfDigits(d);
      ParseIntOfTrimmed(d);
    }
  }

  lemma {:induction false} TrimStartOfSpaces(p: string, s: string)
    requires AllSpace(p)
    ensures TrimStart(p + s) == TrimStart(s)
    decreases |p|
  {
    if p != [] {
      assert (p + s)[1..] == p[1..] + s;
      TrimStartOfSpaces(p[1..], s);
    } else {
      assert p + s == s;
    }
  }

  lemma {:induction false} TrimEndOfSpaces(s: string, q: string)
    requires AllSpace(q)
    ensures TrimEnd(s + q) == TrimEnd(s)
    decreases |q|
  {
    if q != [] {
      assert (s + q)[..|s + q| - 1] == s + q[..|q| - 1];
      TrimEndOfSpaces(s, q[..|q| - 1]);
    } else {
      assert s + q == s;
    }
  }

  lemma {:induction false} TrimStartConcat(s: string, q: string)
    ensures TrimStart(s + q) == if TrimStart(s) == [] then TrimStart(q) else TrimStart(s) + q
    decreases |s|
  {
    if s == [] {
      assert s + q == q;
    } else if IsSpace(s[0]) {
      assert (s + q)[1..] == s[1..] + q;
      TrimStartConcat(s[1..], q);
    } else {
      assert (s + q)[0] == s[0];
    }
  }

  /** White space around a text makes no difference to `int()`. */
  lemma ParseIntIgnoresSurroundingSpace(p: string, s: string, q: string)
    requires AllSpace(p) && AllSpace(q)
    ensures ParseInt(p + s + q) == ParseInt(s)
  {
    assert p + s + q == p + (s + q);
    TrimStartOfSpaces(p, s + q);
    TrimStartConcat(s, q);
    if TrimStart(s) == [] {
      TrimStartOfSpaces(q, []);
      assert q + [] == q;
    } else {
      TrimEndOfSpaces(TrimStart(s), q);
    }
  }

  /** A literal `int()` accepts starts with a sign or a digit and ends with a digit. */
  lemma LiteralEnds(t: string)
    requires ParseLiteral(t).Some?
    ensures |t| >= 1 && !IsSpace(t[0]) && !IsSpace(t[|t| - 1])
  {
    if |t| >= 1 && (t[0] == '-' || t[0] == '+') {
      assert IsDigitGroups(t[1..]);
      assert t[1..][|t| - 2] == t[|t| - 1];
    } else {
      assert IsDigitGroups(t);
    }
  }

  /** A literal with white space around it is read as the literal: the converse of `ParseInt`'s contract. */
  lemma ParseIntOfPaddedLiteral(p: string, t: string, q: string)
    requires AllSpace(p) && AllSpace(q) && ParseLiteral(t).Some?
    ensures ParseInt(p + t + q) == ParseLiteral(t)
  {
    ParseIntIgnoresSurroundingSpace(p, t, q);
    LiteralEnds(t);
    ParseIntOfTrimmed(t);
  }
}
