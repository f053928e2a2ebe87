/**
  The JavaScript string operations the pages rely on: `trim`, `String(n)`,
  `Number(s)`, `<` on strings, `padEnd`, and `a || b` on strings.
  Strings are sequences of characters; an absent optional string and the
  empty string are both falsy in the source and are both "" here.
 */
module Text {
  import opened Wrappers

  // ---------------------------------------------------------------- trim

  /** The characters `String.prototype.trim` removes: the WhiteSpace and LineTerminator code points of ECMAScript. */
  predicate IsSpace(c: char) {
    var n := c as int;
    n == 0x09 || n == 0x0A || n == 0x0B || n == 0x0C || n == 0x0D || n == 0x20 || n == 0xA0
    || n == 0x1680 || (0x2000 <= n <= 0x200A) || n == 0x2028 || n == 0x2029 || n == 0x202F
    || n == 0x205F || n == 0x3000 || n == 0xFEFF
  }

  /** Every character of `s` is whitespace (vacuously so for ""). */
  predicate IsBlank(s: string) {
    forall i :: 0 <= i < |s| ==> IsSpace(s[i])
  }

  /** Drops the leading whitespace: the result is the longest suffix that does not start with whitespace. */
  function TrimStart(s: string): (r: string)
    ensures |r| <= |s| && r == s[|s| - |r|..]
    ensures forall i :: 0 <= i < |s| - |r| ==> IsSpace(s[i])
    ensures r != [] ==> !IsSpace(r[0])
  {
    if s != [] && IsSpace(s[0]) then TrimStart(s[1..]) else s
  }

  /** Drops the trailing whitespace: the result is the longest prefix that does not end with whitespace. */
  function TrimEnd(s: string): (r: string)
    ensures |r| <= |s| && r == s[..|r|]
    ensures forall i :: |r| <= i < |s| ==> IsSpace(s[i])
    ensures r != [] ==> !IsSpace(r[|r| - 1])
  {
    if s != [] && IsSpace(s[|s| - 1]) then TrimEnd(s[..|s| - 1]) else s
  }

  /**
    `s.trim()`: the part of `s` between its leading and its trailing
    whitespace; empty exactly for blank input, and never starting or ending
    with whitespace.
   */
  function Trim(s: string): (r: string)
    ensures |r| <= |s|
    ensures exists i, j :: 0 <= i <= j <= |s| && r == s[i..j] && IsBlank(s[..i]) && IsBlank(s[j..])
    ensures r == [] <==> IsBlank(s)
    ensures r != [] ==> !IsSpace(r[0]) && !IsSpace(r[|r| - 1])
  {
    TrimIsSlice(s);
    TrimIsEmptyIffBlank(s);
    TrimStart(TrimEnd(s))
  }

  /** Trimming cuts a whitespace-only prefix and a whitespace-only suffix off `s`. */
  lemma TrimIsSlice(s: string)
    ensures var t := TrimEnd(s); var r := TrimStart(t);
      r == s[|t| - |r|..|t|] && IsBlank(s[..|t| - |r|]) && IsBlank(s[|t|..])
  {
    var t := TrimEnd(s);
    var r := TrimStart(t);
    var i, j := |t| - |r|, |t|;
    assert t == s[..j] && r == t[i..];
    assert r == s[i..j];
    BlankPrefix(t, i);
    assert s[..i] == t[..i];
    BlankSuffix(s, j);
  }

  /** The characters `TrimStart` drops are whitespace. */
  lemma BlankPrefix(t: string, i: nat)
    requires i == |t| - |TrimStart(t)|
    ensures IsBlank(t[..i])
  {
    forall k | 0 <= k < i ensures IsSpace(t[..i][k]) {
      assert t[..i][k] == t[k];
    }
  }

  /** The characters `TrimEnd` drops are whitespace. */
  lemma BlankSuffix(s: string, j: nat)
    requires j == |TrimEnd(s)|
    ensures IsBlank(s[j..])
  {
    forall k | 0 <= k < |s| - j ensures IsSpace(s[j..][k]) {
      assert s[j..][k] == s[j + k];
    }
  }

  /** Trimming leaves nothing exactly of a blank text, and otherwise no whitespace at either end. */
  lemma TrimIsEmptyIffBlank(s: string)
    ensures var r := TrimStart(TrimEnd(s)); (r == [] <==> IsBlank(s))
    ensures var r := TrimStart(TrimEnd(s)); r != [] ==> !IsSpace(r[0]) && !IsSpace(r[|r| - 1])
  {
    var t := TrimEnd(s);
    var r := TrimStart(t);
    assert r != [] ==> r[|r| - 1] == t[|t| - 1];
    assert r == [] ==> t == [];
    if r != [] {
      assert r[0] == s[|t| - |r|];
    }
  }

  /** Trimming twice is trimming once. */
  lemma TrimIdempotent(s: string)
    ensures Trim(Trim(s)) == Trim(s)
  {
  }

  /** A text that neither starts nor ends with whitespace is its own trim. */
  lemma TrimOfTrimmed(s: string)
    requires s != [] ==> !IsSpace(s[0]) && !IsSpace(s[|s| - 1])
    ensures Trim(s) == s
  {
  }

  // ------------------------------------------------------------- numbers

  predicate IsDigit(c: char) {
    '0' <= c <= '9'
  }

  predicate IsDigits(s: string) {
    forall i :: 0 <= i < |s| ==> IsDigit(s[i])
  }

  function DigitValue(c: char): (d: nat)
    requires IsDigit(c)
    ensures d < 10
  {
    c as int - '0' as int
  }

  function DigitChar(d: nat): (c: char)
    requires d < 10
    ensures IsDigit(c) && DigitValue(c) == d
  {
    (48 + d) as char
  }

  /** The value of a run of decimal digits, read most significant first. */
  function DigitsValue(s: string): nat
    requires IsDigits(s)
  {
    if s == [] then 0 else DigitsValue(s[..|s| - 1]) * 10 + DigitValue(s[|s| - 1])
  }

  /** `String(n)` for a non-negative integer: its decimal digits, with no leading zero. */
  function NatToString(n: nat): (r: string)
    ensures r != [] && IsDigits(r)
    ensures |r| > 1 ==> r[0] != '0'
    decreases n
  {
    if n < 10 then [DigitChar(n)] else NatToString(n / 10) + [DigitChar(n % 10)]
  }

  /** Reading back the digits of `String(n)` gives `n`. */
  lemma {:induction false} NatToStringRoundTrip(n: nat)
    ensures DigitsValue(NatToString(n)) == n
  {
    var r := NatToString(n);
    if n < 10 {
      assert r[..|r| - 1] == [];
    } else {
      assert r[..|r| - 1] == NatToString(n / 10);
      NatToStringRoundTrip(n / 10);
    }
  }

  /** Distinct numbers are spelled differently. */
  lemma NatToStringInjective(a: nat, b: nat)
    requires NatToString(a) == NatToString(b)
    ensures a == b
  {
    NatToStringRoundTrip(a);
    NatToStringRoundTrip(b);
  }

  /** `String(i)` (template-literal interpolation) for an integer. */
  function IntToString(i: int): (r: string)
    ensures r != [] && !IsSpace(r[0]) && !IsSpace(r[|r| - 1])
    ensures i >= 0 ==> IsDigits(r)
    ensures i < 0 ==> r[0] == '-' && IsDigits(r[1..])
  {
    if i < 0 then "-" + NatToString(-i) else NatToString(i)
  }

  /** Distinct integers are spelled differently. */
  lemma IntToStringInjective(a: int, b: int)
    requires IntToString(a) == IntToString(b)
    ensures a == b
  {
    if a < 0 && b < 0 {
      assert NatToString(-a) == IntToString(a)[1..];
      NatToStringInjective(-a, -b);
    } else if a >= 0 && b >= 0 {
      NatToStringInjective(a, b);
    }
  }

  /**
    `Number` on a text without surrounding whitespace: decimal digits (none
    at all reading as 0) are that number, a sign followed by at least one
    digit is the signed number, and anything else is NaN (None).
   */
  function ParseNumber(t: string): (r: Option<int>)
    ensures IsDigits(t) ==> r == Some(DigitsValue(t))
    ensures |t| > 1 && t[0] == '-' && IsDigits(t[1..]) ==> r == Some(-(DigitsValue(t[1..]) as int))
    ensures |t| > 1 && t[0] == '+' && IsDigits(t[1..]) ==> r == Some(DigitsValue(t[1..]))
    ensures r.None? <==> !IsDigits(t) && !(|t| > 1 && (t[0] == '-' || t[0] == '+') && IsDigits(t[1..]))
  {
    if IsDigits(t) then Some(DigitsValue(t))
    else if |t| > 1 && (t[0] == '-' || t[0] == '+') && IsDigits(t[1..]) then
      Some(if t[0] == '-' then -(DigitsValue(t[1..]) as int) else DigitsValue(t[1..]))
    else None
  }

  /**
    `Number(s)` on the texts it is given here: surrounding whitespace is
    ignored, the blank text is 0, an optional sign followed by decimal digits
    is that integer, and anything else is NaN (None).
   */
  function NumberOf(s: string): (r: Option<int>)
    ensures IsBlank(s) ==> r == Some(0)
    ensures var t := Trim(s); IsDigits(t) ==> r == Some(DigitsValue(t))
    ensures var t := Trim(s); |t| > 1 && t[0] == '-' && IsDigits(t[1..]) ==> r == Some(-(DigitsValue(t[1..]) as int))
    ensures var t := Trim(s); |t| > 1 && t[0] == '+' && IsDigits(t[1..]) ==> r == Some(DigitsValue(t[1..]))
    ensures var t := Trim(s);
      r.None? <==> !IsDigits(t) && !(|t| > 1 && (t[0] == '-' || t[0] == '+') && IsDigits(t[1..]))
  {
    ParseNumber(Trim(s))
  }

  /** `Number(String(i)) === i`. */
  lemma NumberOfIntToString(i: int)
    ensures NumberOf(IntToString(i)) == Some(i)
  {
    var r := IntToString(i);
    TrimOfTrimmed(r);
    assert NumberOf(r) == ParseNumber(r);
    if i < 0 {
      assert !IsDigits(r) by {
        assert !IsDigit(r[0]);
      }
      assert r[1..] == NatToString(-i);
      NatToStringRoundTrip(-i);
    } else {
      NatToStringRoundTrip(i);
    }
  }

  // ------------------------------------------------------------ ordering

  /** JavaScript's `a < b` on two strings: lexicographic order by character. */
  predicate StrLess(a: string, b: string)
    decreases |a|
  {
    if a == [] then b != []
    else if b == [] then false
    else if a[0] != b[0] then a[0] < b[0]
    else StrLess(a[1..], b[1..])
  }

  lemma {:induction false} StrLessIrreflexive(a: string)
    ensures !StrLess(a, a)
    decreases |a|
  {
    if a != [] {
      StrLessIrreflexive(a[1..]);
    }
  }

  lemma {:induction false} StrLessTransitive(a: string, b: string, c: string)
    requires StrLess(a, b) && StrLess(b, c)
    ensures StrLess(a, c)
    decreases |a|
  {
    if a != [] && a[0] == b[0] && b[0] == c[0] {
      StrLessTransitive(a[1..], b[1..], c[1..]);
    }
  }

  /** Any two different strings are ordered one way or the other. */
  lemma {:induction false} StrLessTotal(a: string, b: string)
    ensures a == b || StrLess(a, b) || StrLess(b, a)
    decreases |a|
  {
    if a != [] && b != [] && a[0] == b[0] {
      StrLessTotal(a[1..], b[1..]);
      if a[1..] == b[1..] {
        assert a == [a[0]] + a[1..] && b == [b[0]] + b[1..];
      }
    }
  }

  // ------------------------------------------------------ building text

  /** `c.repeat(n)` for a one-character string `c`. */
  function Repeat(c: char, n: nat): (r: string)
    ensures |r| == n && forall i :: 0 <= i < n ==> r[i] == c
  {
    seq(n, _ => c)
  }

  /** `c.repeat(n)` holds `c` exactly `n` times and no other character `d`. */
  lemma {:induction false} RepeatCount(c: char, n: nat, d: char)
    requires d != c
    ensures multiset(Repeat(c, n))[c] == n && multiset(Repeat(c, n))[d] == 0
  {
    if n > 0 {
      assert Repeat(c, n) == Repeat(c, n - 1) + [c];
      RepeatCount(c, n - 1, d);
    }
  }

  /** `s.padEnd(n, c)`: unchanged when already `n` long, otherwise `c` appended up to length `n`. */
  function PadEnd(s: string, n: nat, c: char): (r: string)
    ensures |s| >= n ==> r == s
    ensures |s| < n ==> |r| == n && r[..|s|] == s && forall i :: |s| <= i < n ==> r[i] == c
  {
    if |s| >= n then s else s + Repeat(c, n - |s|)
  }

  /** `a || b` on strings: `a` unless it is empty, then `b`. */
  function OrElse(a: string, b: string): (r: string)
    ensures r == a || r == b
    ensures a != "" ==> r == a
    ensures a == "" ==> r == b
  {
    if a != "" then a else b
  }
}
