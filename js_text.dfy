/** The JavaScript string built-ins the game relies on: the global parseInt
    (called with no radix), String.prototype.toLowerCase and
    String.prototype.includes, and the conversion of an integral Number back
    to its decimal string. Strings are sequences of characters. */
module JsText {

  /** The value of parseInt: a Number, or NaN when no digits were found. */
  datatype ParsedInt = NaN | Int(value: int)

  /** WhiteSpace and LineTerminator code points of ECMA-262 (section 12.2 and
      12.3), the ones TrimString removes: TAB, LF, VT, FF, CR, SPACE, NBSP,
      the other Unicode "Zs" space separators, LS, PS and the BOM. */
  predicate IsWhiteSpace(c: char)
  {
    || c == '\t' || c == '\n' || c == '\U{000B}' || c == '\U{000C}' || c == '\r'
    || c == ' ' || c == '\U{00A0}' || c == '\U{1680}'
    || ('\U{2000}' <= c <= '\U{200A}')
    || c == '\U{2028}' || c == '\U{2029}' || c == '\U{202F}' || c == '\U{205F}'
    || c == '\U{3000}' || c == '\U{FEFF}'
  }

  /** The value of c as a digit in any radix up to 36; 36 when c is not
      an ASCII letter or digit. */
  function DigitValue(c: char): (d: nat)
    ensures d <= 36
  {
    if '0' <= c <= '9' then c as int - '0' as int
    else if 'a' <= c <= 'z' then c as int - 'a' as int + 10
    else if 'A' <= c <= 'Z' then c as int - 'A' as int + 10
    else 36
  }

  predicate IsDigitIn(c: char, radix: nat)
  {
    DigitValue(c) < radix
  }

  /** TrimString(s, start): drop the leading white space. */
  function TrimStart(s: string): (r: string)
    ensures |r| <= |s| && r == s[|s| - |r|..]
    ensures forall i :: 0 <= i < |s| - |r| ==> IsWhiteSpace(s[i])
    ensures r == [] || !IsWhiteSpace(r[0])
  {
    if s != [] && IsWhiteSpace(s[0]) then TrimStart(s[1..]) else s
  }

  /** The longest prefix of s made of digits of the given radix. */
  function DigitPrefix(s: string, radix: nat): (r: string)
    ensures |r| <= |s| && r == s[..|r|]
    ensures forall i :: 0 <= i < |r| ==> IsDigitIn(r[i], radix)
    ensures |r| == |s| || !IsDigitIn(s[|r|], radix)
  {
    if s != [] && IsDigitIn(s[0], radix) then [s[0]] + DigitPrefix(s[1..], radix) else []
  }

  /** The number a digit string denotes, most significant digit first. */
  function ValueOf(ds: string, radix: nat): nat
  {
    if ds == [] then 0
    else ValueOf(ds[..|ds| - 1], radix) * radix + DigitValue(ds[|ds| - 1])
  }

  /** parseInt(s) with the radix left undefined (ECMA-262, section 19.2.5):
      skip leading white space, take an optional sign, switch to radix 16
      after a "0x" or "0X" prefix, read the longest run of digits, and give
      NaN when that run is empty. Characters after the run are ignored. */
  function ParseInt(s: string): (r: ParsedInt)
    // nothing but white space is not a number
    ensures TrimStart(s) == [] ==> r == NaN
    // a number starts, after the white space, with a sign or a digit
    ensures r.Int? ==> TrimStart(s) != []
    ensures r.Int? ==> TrimStart(s)[0] == '-' || TrimStart(s)[0] == '+' || IsDigitIn(TrimStart(s)[0], 10)
    // only a minus sign gives a negative number
    ensures r.Int? && r.value < 0 ==> TrimStart(s)[0] == '-'
  {
    ParseSigned(TrimStart(s))
  }

  /** parseInt after the white space: the sign, then the magnitude. */
  function ParseSigned(t: string): ParsedInt
  {
    if t != [] && t[0] == '-' then Negate(ParseMagnitude(t[1..]))
    else if t != [] && t[0] == '+' then ParseMagnitude(t[1..])
    else ParseMagnitude(t)
  }

  function Negate(p: ParsedInt): ParsedInt
  {
    if p.Int? then Int(-p.value) else NaN
  }

  /** The digits after the sign: hexadecimal after a "0x" or "0X" prefix,
      decimal otherwise. */
  function ParseMagnitude(u: string): ParsedInt
  {
    if |u| >= 2 && u[0] == '0' && (u[1] == 'x' || u[1] == 'X') then ParseDigits(u[2..], 16)
    else ParseDigits(u, 10)
  }

  function ParseDigits(u: string, radix: nat): ParsedInt
  {
    var ds := DigitPrefix(u, radix);
    if ds == [] then NaN else Int(ValueOf(ds, radix))
  }

  /** The decimal digits of n, without leading zeros. */
  function Digits(n: nat): (r: string)
    ensures |r| >= 1
  {
    if n < 10 then [('0' as int + n) as char]
    else Digits(n / 10) + [('0' as int + n % 10) as char]
  }

  /** String(n) for an integral Number n (Number::toString, radix 10). */
  function NumberToString(n: int): (r: string)
    ensures |r| >= 1 && (r[0] == '-' <==> n < 0)
    // after the sign come only decimal digits, and a leading 0 is the whole of "0"
    ensures forall i :: (if n < 0 then 1 else 0) <= i < |r| ==> IsDigitIn(r[i], 10)
    ensures n >= 0 && r[0] == '0' ==> r == "0"
    ensures n < 0 ==> |r| >= 2 && r[1] != '0'
  {
    if n < 0 then DigitsAreDigits(-n); "-" + Digits(-n)
    else DigitsAreDigits(n); Digits(n)
  }

  /** Lower-cases the ASCII letters A-Z and keeps every other character. */
  function LowerChar(c: char): char
  {
    if 'A' <= c <= 'Z' then (c as int - 'A' as int + 'a' as int) as char else c
  }

  function UpperChar(c: char): char
  {
    if 'a' <= c <= 'z' then (c as int - 'a' as int + 'A' as int) as char else c
  }

  /** String.prototype.toLowerCase, restricted to ASCII letters. */
  function ToLowerCase(s: string): (r: string)
    ensures |r| == |s| && forall i :: 0 <= i < |s| ==> r[i] == LowerChar(s[i])
  {
    if s == [] then [] else [LowerChar(s[0])] + ToLowerCase(s[1..])
  }

  /** String.prototype.toUpperCase, restricted to ASCII letters. */
  function ToUpperCase(s: string): (r: string)
    ensures |r| == |s| && forall i :: 0 <= i < |s| ==> r[i] == UpperChar(s[i])
  {
    if s == [] then [] else [UpperChar(s[0])] + ToUpperCase(s[1..])
  }

  predicate OccursAt(s: string, sub: string, i: int)
  {
    0 <= i && i + |sub| <= |s| && s[i..i + |sub|] == sub
  }

  /** String.prototype.includes: sub occurs somewhere in s. */
  function Includes(s: string, sub: string): (b: bool)
    ensures b <==> exists i :: OccursAt(s, sub, i)
  {
    if |sub| > |s| then false
    else if s[..|sub|] == sub then (assert OccursAt(s, sub, 0); true)
    else
      var b := Includes(s[1..], sub);
      assert forall i :: OccursAt(s[1..], sub, i) ==> OccursAt(s, sub, i + 1);
      assert forall i :: OccursAt(s, sub, i) ==> i == 0 || OccursAt(s[1..], sub, i - 1);
      b
  }

  // ---------------------------------------------------------------------
  // Properties of ParseInt

  lemma {:induction false} DigitsAreDigits(n: nat)
    ensures forall i :: 0 <= i < |Digits(n)| ==> IsDigitIn(Digits(n)[i], 10)
    ensures ValueOf(Digits(n), 10) == n
    ensures Digits(n)[0] == '0' ==> n == 0
  {
    if n >= 10 {
      DigitsAreDigits(n / 10);
      var ds := Digits(n);
      assert ds[..|ds| - 1] == Digits(n / 10);
    }
  }

  /** A run of digits followed by something that is not a digit is read up
      to its end and no further. */
  lemma {:induction false} DigitPrefixOfRun(ds: string, rest: string, radix: nat)
    requires forall i :: 0 <= i < |ds| ==> IsDigitIn(ds[i], radix)
    requires rest == [] || !IsDigitIn(rest[0], radix)
    ensures DigitPrefix(ds + rest, radix) == ds
  {
    if ds != [] {
      assert (ds + rest)[1..] == ds[1..] + rest;
      DigitPrefixOfRun(ds[1..], rest, radix);
    } else {
      assert ds + rest == rest;
    }
  }

  /** parseInt reads back the decimal string of any integer, and stops at
      the first character that is not a digit: parseInt("12abc") is 12.
      The one exception is a lone "0" followed by "x" or "X", which
      parseInt takes for a hexadecimal prefix. */
  lemma ParseIntOfNumberString(n: int, rest: string)
    requires rest == [] || !IsDigitIn(rest[0], 10)
    requires n == 0 && rest != [] ==> rest[0] != 'x' && rest[0] != 'X'
    ensures ParseInt(NumberToString(n) + rest) == Int(n)
  {
    var s := NumberToString(n) + rest;
    DigitsAreDigits(if n < 0 then -n else n);
    if n >= 0 {
      DigitIsNotWhiteSpace(s[0]);
    }
    TrimStartKeeps(s);
    SignedOfNumberString(n, rest);
  }

  lemma SignedOfNumberString(n: int, rest: string)
    requires rest == [] || !IsDigitIn(rest[0], 10)
    requires n == 0 && rest != [] ==> rest[0] != 'x' && rest[0] != 'X'
    ensures ParseSigned(NumberToString(n) + rest) == Int(n)
  {
    if n < 0 {
      SignedOfNegative(-n, rest);
    } else {
      SignedOfNonNegative(n, rest);
    }
  }

  lemma SignedOfNegative(m: nat, rest: string)
    requires m > 0
    requires rest == [] || !IsDigitIn(rest[0], 10)
    ensures ParseSigned("-" + Digits(m) + rest) == Int(-(m as int))
  {
    MagnitudeOfDigits(m, rest);
    var s := "-" + Digits(m) + rest;
    assert s[0] == '-';
    assert s[1..] == Digits(m) + rest;
  }

  lemma SignedOfNonNegative(m: nat, rest: string)
    requires rest == [] || !IsDigitIn(rest[0], 10)
    requires m == 0 && rest != [] ==> rest[0] != 'x' && rest[0] != 'X'
    ensures ParseSigned(Digits(m) + rest) == Int(m)
  {
    MagnitudeOfDigits(m, rest);
    DigitsAreDigits(m);
    var s := Digits(m) + rest;
    assert s[0] == Digits(m)[0];
    assert s[0] != '-' && s[0] != '+';
  }

  lemma DigitIsNotWhiteSpace(c: char)
    requires IsDigitIn(c, 10)
    ensures !IsWhiteSpace(c)
  {
  }

  lemma TrimStartKeeps(s: string)
    requires s != [] && !IsWhiteSpace(s[0])
    ensures TrimStart(s) == s
  {
  }

  lemma MagnitudeOfDigits(m: nat, rest: string)
    requires rest == [] || !IsDigitIn(rest[0], 10)
    requires m == 0 && rest != [] ==> rest[0] != 'x' && rest[0] != 'X'
    ensures ParseMagnitude(Digits(m) + rest) == Int(m)
  {
    var ds := Digits(m);
    DigitsAreDigits(m);
    DigitPrefixOfRun(ds, rest, 10);
    var u := ds + rest;
    if |u| >= 2 && u[0] == '0' {
      assert m == 0;
      assert u[1] == rest[0];
    }
  }

  /** Leading white space never changes what parseInt reads. */
  lemma ParseIntSkipsWhiteSpace(w: string, s: string)
    requires forall i :: 0 <= i < |w| ==> IsWhiteSpace(w[i])
    ensures ParseInt(w + s) == ParseInt(s)
  {
    TrimStartSkips(w, s);
  }

  lemma {:induction false} TrimStartSkips(w: string, s: string)
    requires forall i :: 0 <= i < |w| ==> IsWhiteSpace(w[i])
    ensures TrimStart(w + s) == TrimStart(s)
  {
    if w != [] {
      assert (w + s)[1..] == w[1..] + s;
      TrimStartSkips(w[1..], s);
    } else {
      assert w + s == s;
    }
  }

  /** A text without a decimal digit parses to NaN. */
  lemma ParseIntNeedsADigit(s: string)
    requires forall i :: 0 <= i < |s| ==> !IsDigitIn(s[i], 10)
    ensures ParseInt(s) == NaN
  {
    var t := TrimStart(s);
    assert forall i :: 0 <= i < |t| ==> t[i] == s[|s| - |t| + i];
    if t != [] && (t[0] == '-' || t[0] == '+') {
      MagnitudeNeedsADigit(t[1..]);
    } else {
      MagnitudeNeedsADigit(t);
    }
  }

  lemma MagnitudeNeedsADigit(u: string)
    requires forall i :: 0 <= i < |u| ==> !IsDigitIn(u[i], 10)
    ensures ParseMagnitude(u) == NaN
  {
    if u != [] {
      assert u[0] != '0';
    }
  }

  // ---------------------------------------------------------------------
  // Upper-casing a text changes neither what parseInt reads nor what a
  // lower-cased search finds.

  lemma {:induction false} UpperTrimStart(s: string)
    ensures TrimStart(ToUpperCase(s)) == ToUpperCase(TrimStart(s))
  {
    if s != [] {
      UpperKeepsWhiteSpace(s[0]);
      assert ToUpperCase(s)[1..] == ToUpperCase(s[1..]);
      UpperTrimStart(s[1..]);
    }
  }

  lemma UpperKeepsWhiteSpace(c: char)
    ensures IsWhiteSpace(UpperChar(c)) == IsWhiteSpace(c)
  {
  }

  lemma {:induction false} UpperDigitPrefix(s: string, radix: nat)
    requires radix <= 36
    ensures DigitPrefix(ToUpperCase(s), radix) == ToUpperCase(DigitPrefix(s, radix))
  {
    if s != [] {
      assert ToUpperCase(s)[1..] == ToUpperCase(s[1..]);
      assert DigitValue(UpperChar(s[0])) == DigitValue(s[0]);
      UpperDigitPrefix(s[1..], radix);
    }
  }

  lemma {:induction false} UpperValueOf(ds: string, radix: nat)
    ensures ValueOf(ToUpperCase(ds), radix) == ValueOf(ds, radix)
  {
    if ds != [] {
      var n := |ds| - 1;
      assert ToUpperCase(ds)[..n] == ToUpperCase(ds[..n]);
      assert DigitValue(UpperChar(ds[n])) == DigitValue(ds[n]);
      UpperValueOf(ds[..n], radix);
    }
  }

  lemma UpperSuffix(s: string, k: nat)
    requires k <= |s|
    ensures ToUpperCase(s)[k..] == ToUpperCase(s[k..])
  {
  }

  lemma ParseIntIgnoresCase(s: string)
    ensures ParseInt(ToUpperCase(s)) == ParseInt(s)
  {
    var t := TrimStart(s);
    UpperTrimStart(s);
    if t != [] && (t[0] == '-' || t[0] == '+') {
      UpperSuffix(t, 1);
      MagnitudeIgnoresCase(t[1..]);
    } else {
      MagnitudeIgnoresCase(t);
    }
  }

  lemma MagnitudeIgnoresCase(u: string)
    ensures ParseMagnitude(ToUpperCase(u)) == ParseMagnitude(u)
  {
    if |u| >= 2 && u[0] == '0' && (u[1] == 'x' || u[1] == 'X') {
      UpperSuffix(u, 2);
      DigitsIgnoreCase(u[2..], 16);
    } else {
      DigitsIgnoreCase(u, 10);
    }
  }

  lemma DigitsIgnoreCase(u: string, radix: nat)
    requires radix <= 36
    ensures ParseDigits(ToUpperCase(u), radix) == ParseDigits(u, radix)
  {
    UpperDigitPrefix(u, radix);
    UpperValueOf(DigitPrefix(u, radix), radix);
  }

  lemma LowerOfUpper(s: string)
    ensures ToLowerCase(ToUpperCase(s)) == ToLowerCase(s)
  {
    assert forall i :: 0 <= i < |s| ==> LowerChar(UpperChar(s[i])) == LowerChar(s[i]);
  }
}
