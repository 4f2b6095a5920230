/**
 * The numeric coercion the `get` trap applies to a string property key:
 * `Number(prop)` followed by `Number.isInteger`. Only the outcome that the
 * trap inspects is modelled: `ToInteger(s)` is `Some(n)` exactly when
 * `Number(s)` is the integer `n`, and `None` when it is NaN, infinite or has a
 * fractional part. The grammar is the StringNumericLiteral grammar of section
 * 7.1.4.1 of ECMA-262 (white space, sign, decimal point, exponent, `Infinity`
 * and the `0x`/`0o`/`0b` prefixes); the arithmetic is exact.
 *
 * `IntToString` is the canonical decimal form an integer takes when it is used
 * as a property key (`obj[n]` reads the key `String(n)`).
 */
module Numbers {
  import opened Wrappers

  // ---------------------------------------------------------------------
  // Characters
  // ---------------------------------------------------------------------

  /** WhiteSpace and LineTerminator code points that `Number` trims. */
  predicate IsStrWhiteSpace(c: char) {
    || c == '\t' || c == '\U{B}' || c == '\U{C}' || c == ' ' || c == '\U{A0}' || c == '\U{FEFF}'
    || c == '\n' || c == '\r' || c == '\U{2028}' || c == '\U{2029}'
    || c == '\U{1680}' || ('\U{2000}' <= c <= '\U{200A}') || c == '\U{202F}' || c == '\U{205F}' || c == '\U{3000}'
  }

  predicate IsDecimalDigit(c: char) { '0' <= c <= '9' }

  /** The value of a digit character in bases up to 16, or 16 for a non-digit. */
  function DigitValue(c: char): (d: nat)
    ensures d <= 16
    ensures IsDecimalDigit(c) <==> d < 10
  {
    if '0' <= c <= '9' then c as int - '0' as int
    else if 'a' <= c <= 'f' then c as int - 'a' as int + 10
    else if 'A' <= c <= 'F' then c as int - 'A' as int + 10
    else 16
  }

  predicate AllDigits(s: string, base: nat) {
    forall i :: 0 <= i < |s| ==> DigitValue(s[i]) < base
  }

  /** The number a digit string denotes in the given base, most significant digit first. */
  function DigitsValue(s: string, base: nat): nat {
    if s == [] then 0 else DigitsValue(s[..|s| - 1], base) * base + DigitValue(s[|s| - 1])
  }

  function Pow10(k: nat): nat {
    if k == 0 then 1 else 10 * Pow10(k - 1)
  }

  // ---------------------------------------------------------------------
  // Number(s) restricted to "is it an integer, and which one"
  // ---------------------------------------------------------------------

  function TrimStart(s: string): string {
    if |s| > 0 && IsStrWhiteSpace(s[0]) then TrimStart(s[1..]) else s
  }

  function TrimEnd(s: string): string {
    if |s| > 0 && IsStrWhiteSpace(s[|s| - 1]) then TrimEnd(s[..|s| - 1]) else s
  }

  /** The index of the first occurrence of `a` or `b` in `s`, or `|s|` when there is none. */
  function IndexOfEither(s: string, a: char, b: char): (k: nat)
    ensures k <= |s|
    ensures forall i :: 0 <= i < k ==> s[i] != a && s[i] != b
    ensures k < |s| ==> s[k] == a || s[k] == b
  {
    if s == [] then 0
    else if s[0] == a || s[0] == b then 0
    else 1 + IndexOfEither(s[1..], a, b)
  }

  /** `SignedInteger` of the exponent part: an optional sign and at least one decimal digit. */
  function SignedInteger(s: string): Option<int> {
    if |s| > 0 && (s[0] == '+' || s[0] == '-') then
      var digits := s[1..];
      if |digits| > 0 && AllDigits(digits, 10) then
        Some(if s[0] == '-' then -(DigitsValue(digits, 10) as int) else DigitsValue(digits, 10))
      else None
    else if |s| > 0 && AllDigits(s, 10) then Some(DigitsValue(s, 10))
    else None
  }

  /** The base a `0x`, `0o` or `0b` prefix selects, or 0 when `t` has none of them. */
  function NonDecimalBase(t: string): nat {
    if |t| >= 2 && t[0] == '0' then
      if t[1] == 'x' || t[1] == 'X' then 16
      else if t[1] == 'o' || t[1] == 'O' then 8
      else if t[1] == 'b' || t[1] == 'B' then 2
      else 0
    else 0
  }

  /**
   * The unsigned decimal literal `u` (`Infinity`, or digits with an optional
   * decimal point and an optional exponent), scaled by `sign`, when its value is
   * an integer.
   */
  function UnsignedDecimal(u: string, sign: int): Option<int> {
    if u == "Infinity" then None
    else
      var k := IndexOfEither(u, 'e', 'E');
      var mantissa := u[..k];
      var exponent := if k == |u| then Some(0) else SignedInteger(u[k + 1..]);
      var p := IndexOfEither(mantissa, '.', '.');
      var whole := mantissa[..p];
      var fraction := if p < |mantissa| then mantissa[p + 1..] else "";
      if !(AllDigits(whole, 10) && AllDigits(fraction, 10) && |whole| + |fraction| > 0 && exponent.Some?) then None
      else Scaled(sign, whole + fraction, |whole| + exponent.value)
  }

  /**
   * The digit string `digits` with the decimal point after `point` of its
   * digits, scaled by `sign`, when that number is an integer: when every digit
   * after the point is zero.
   */
  function Scaled(sign: int, digits: string, point: int): Option<int> {
    if point >= |digits| then Some(sign * (DigitsValue(digits, 10) * Pow10(point - |digits|)))
    else
      var p := if point < 0 then 0 else point;
      if forall i :: p <= i < |digits| ==> digits[i] == '0' then Some(sign * DigitsValue(digits[..p], 10))
      else None
  }

  /** Stripping leading white space from a key made only of white space leaves nothing. */
  lemma {:induction false} WhiteSpaceTrimsAway(s: string)
    ensures (forall i :: 0 <= i < |s| ==> IsStrWhiteSpace(s[i])) ==> TrimStart(s) == ""
  {
    if |s| > 0 && forall i :: 0 <= i < |s| ==> IsStrWhiteSpace(s[i]) {
      assert IsStrWhiteSpace(s[0]);
      WhiteSpaceTrimsAway(s[1..]);
      assert forall i :: 0 <= i < |s[1..]| ==> IsStrWhiteSpace(s[1..][i]) by {
        forall i | 0 <= i < |s[1..]| ensures IsStrWhiteSpace(s[1..][i]) {
          assert s[1..][i] == s[i + 1];
        }
      }
    }
  }

  /**
   * `Number.isInteger(Number(s))`, and the integer when it holds. A key made
   * only of white space, the empty key included, is the number 0; the lemmas
   * below characterise the other keys.
   */
  function ToInteger(s: string): (r: Option<int>)
    ensures (forall i :: 0 <= i < |s| ==> IsStrWhiteSpace(s[i])) ==> r == Some(0)
  {
    WhiteSpaceTrimsAway(s);
    var t := TrimEnd(TrimStart(s));
    if t == "" then Some(0)
    else if NonDecimalBase(t) != 0 then
      var digits := t[2..];
      if |digits| > 0 && AllDigits(digits, NonDecimalBase(t)) then Some(DigitsValue(digits, NonDecimalBase(t)))
      else None
    else if t[0] == '-' then UnsignedDecimal(t[1..], -1)
    else if t[0] == '+' then UnsignedDecimal(t[1..], 1)
    else UnsignedDecimal(t, 1)
  }

  // ---------------------------------------------------------------------
  // String(n) for an integer n
  // ---------------------------------------------------------------------

  function DigitChar(d: nat): char
    requires d < 10
  {
    ('0' as int + d) as char
  }

  function NatToString(m: nat): string {
    if m < 10 then [DigitChar(m)] else NatToString(m / 10) + [DigitChar(m % 10)]
  }

  /**
   * `String(n)`: a minus sign exactly when `n` is negative, then the canonical
   * decimal numeral of `|n|` (non-empty, all digits, no leading zero).
   */
  function IntToString(n: int): (r: string)
    ensures |r| > 0 && (r[0] == '-' <==> n < 0)
    ensures var digits := if n < 0 then r[1..] else r;
      |digits| > 0 && AllDigits(digits, 10) && DigitsValue(digits, 10) == (if n < 0 then -n else n)
      && (digits[0] == '0' ==> digits == "0")
  {
    if n < 0 then
      NatToStringDigits(-n);
      var r := "-" + NatToString(-n);
      assert r[1..] == NatToString(-n);
      r
    else
      NatToStringDigits(n);
      NatToString(n)
  }

  // ---------------------------------------------------------------------
  // Lemmas
  // ---------------------------------------------------------------------

  /** A canonical decimal numeral is a non-empty digit string denoting its number, with no leading zero. */
  lemma {:induction false} NatToStringDigits(m: nat)
    ensures var s := NatToString(m);
      |s| > 0 && AllDigits(s, 10) && DigitsValue(s, 10) == m && (s[0] == '0' ==> s == "0")
  {
    var s := NatToString(m);
    if m < 10 {
      assert s == [DigitChar(m)];
    } else {
      NatToStringDigits(m / 10);
      var prefix := NatToString(m / 10);
      assert s == prefix + [DigitChar(m % 10)];
      assert s[..|s| - 1] == prefix;
      assert prefix[0] != '0';
    }
  }

  /** Prepending zeros to a digit string does not change the number it denotes. */
  lemma {:induction false} LeadingZeroValue(s: string)
    ensures DigitsValue("0" + s, 10) == DigitsValue(s, 10)
  {
    if s != [] {
      assert ("0" + s)[..|"0" + s| - 1] == "0" + s[..|s| - 1];
      LeadingZeroValue(s[..|s| - 1]);
    }
  }

  lemma {:induction false} NoWhiteSpaceToTrim(s: string)
    requires |s| > 0 && !IsStrWhiteSpace(s[0]) && !IsStrWhiteSpace(s[|s| - 1])
    ensures TrimEnd(TrimStart(s)) == s
  {
  }

  lemma {:induction false} DigitsHaveNoSeparator(s: string, a: char, b: char)
    requires AllDigits(s, 10) && !IsDecimalDigit(a) && !IsDecimalDigit(b)
    ensures IndexOfEither(s, a, b) == |s|
  {
    if s != [] {
      DigitsHaveNoSeparator(s[1..], a, b);
    }
  }

  /** An unsigned decimal digit string denotes exactly its digit value. */
  lemma {:induction false} UnsignedDigitsValue(u: string, sign: int)
    requires |u| > 0 && AllDigits(u, 10)
    ensures UnsignedDecimal(u, sign) == Some(sign * DigitsValue(u, 10))
  {
    assert u[0] != 'I';
    DigitsHaveNoSeparator(u, 'e', 'E');
    DigitsHaveNoSeparator(u, '.', '.');
    assert u[..|u|] == u && u + "" == u;
    assert Pow10(0) == 1;
  }

  /**
   * A key that is a plain string of decimal digits, leading zeros allowed, is
   * the integer those digits denote.
   */
  lemma DigitKey(s: string)
    requires |s| > 0 && AllDigits(s, 10)
    ensures ToInteger(s) == Some(DigitsValue(s, 10))
  {
    assert IsDecimalDigit(s[0]) && IsDecimalDigit(s[|s| - 1]);
    NoWhiteSpaceToTrim(s);
    assert NonDecimalBase(s) == 0 by {
      if |s| >= 2 { assert IsDecimalDigit(s[1]); }
    }
    UnsignedKey(s);
    UnsignedDigitsValue(s, 1);
  }

  /** A trimmed key with no sign and no base prefix is an unsigned decimal literal. */
  lemma UnsignedKey(s: string)
    requires |s| > 0 && s[0] != '-' && s[0] != '+' && TrimEnd(TrimStart(s)) == s && NonDecimalBase(s) == 0
    ensures ToInteger(s) == UnsignedDecimal(s, 1)
  {
  }

  /**
   * A key whose first character cannot begin a numeric literal (a letter, `_`,
   * `$`, ...) is not an integer: `"name"`, `"push"`, `"length"` all fall through.
   */
  lemma {:induction false} NonNumericStart(s: string)
    requires |s| > 0 && !IsStrWhiteSpace(s[0]) && !IsDecimalDigit(s[0])
    requires s[0] != '+' && s[0] != '-' && s[0] != '.'
    ensures ToInteger(s) == None
  {
    var t := TrimEnd(s);
    TrimEndKeepsFirst(s);
    assert TrimStart(s) == s;
    var k := IndexOfEither(t, 'e', 'E');
    if k > 0 {
      var mantissa := t[..k];
      assert mantissa[0] == s[0];
      var p := IndexOfEither(mantissa, '.', '.');
      assert p > 0;
      assert mantissa[..p][0] == s[0];
    }
  }

  lemma {:induction false} TrimEndKeepsFirst(s: string)
    requires |s| > 0 && !IsStrWhiteSpace(s[0])
    ensures |TrimEnd(s)| > 0 && TrimEnd(s)[0] == s[0]
  {
    if IsStrWhiteSpace(s[|s| - 1]) {
      TrimEndKeepsFirst(s[..|s| - 1]);
    }
  }

  /** `"02"` and `"2"` (and any zero-padded numeral) coerce to the same integer. */
  lemma LeadingZerosIgnored(s: string)
    requires |s| > 0 && AllDigits(s, 10)
    ensures ToInteger("0" + s) == ToInteger(s)
  {
    LeadingZeroValue(s);
    DigitKey("0" + s);
    DigitKey(s);
  }

  lemma {:induction false} IndexOfEitherAppend(x: string, y: string, a: char, b: char)
    requires forall i :: 0 <= i < |x| ==> x[i] != a && x[i] != b
    ensures IndexOfEither(x + y, a, b) == |x| + IndexOfEither(y, a, b)
  {
    if x != [] {
      var xy := x + y;
      assert xy != [] && xy[0] == x[0] && xy[0] != a && xy[0] != b;
      assert xy[1..] == x[1..] + y;
      IndexOfEitherAppend(x[1..], y, a, b);
      assert IndexOfEither(xy, a, b) == 1 + IndexOfEither(xy[1..], a, b);
    } else {
      assert x + y == y;
    }
  }

  /**
   * A decimal key with a fraction, `whole.fraction`, is an integer exactly when
   * its fractional digits are all zero; then it is the whole part.
   */
  lemma FractionKey(whole: string, fraction: string)
    requires |whole| > 0 && AllDigits(whole, 10) && AllDigits(fraction, 10)
    ensures ToInteger(whole + "." + fraction) == Scaled(1, whole + fraction, |whole|)
  {
    var s := whole + "." + fraction;
    assert s[0] == whole[0];
    assert s[|s| - 1] == '.' || s[|s| - 1] == fraction[|fraction| - 1];
    NoWhiteSpaceToTrim(s);
    assert NonDecimalBase(s) == 0 by {
      if |s| >= 2 { assert s[1] == '.' || IsDecimalDigit(s[1]); }
    }
    UnsignedKey(s);
    UnsignedFraction(whole, fraction);
  }

  lemma UnsignedFraction(whole: string, fraction: string)
    requires |whole| > 0 && AllDigits(whole, 10) && AllDigits(fraction, 10)
    ensures UnsignedDecimal(whole + "." + fraction, 1) == Scaled(1, whole + fraction, |whole|)
  {
    var s := whole + "." + fraction;
    assert s != "Infinity" by { assert IsDecimalDigit(s[0]); }
    FractionHasNoExponent(whole, fraction);
    FractionPointAt(whole, fraction);
    var mantissa := s[..|s|];
    assert mantissa == s;
    assert mantissa[..|whole|] == whole;
    assert mantissa[|whole| + 1..] == fraction;
  }

  lemma FractionHasNoExponent(whole: string, fraction: string)
    requires AllDigits(whole, 10) && AllDigits(fraction, 10)
    ensures IndexOfEither(whole + "." + fraction, 'e', 'E') == |whole + "." + fraction|
  {
    var s := whole + "." + fraction;
    forall i | 0 <= i < |s|
      ensures s[i] != 'e' && s[i] != 'E'
    {
      if i < |whole| {
        assert s[i] == whole[i];
      } else if i > |whole| {
        assert s[i] == fraction[i - |whole| - 1];
      }
    }
    IndexOfEitherAppend(s, [], 'e', 'E');
    assert s + [] == s;
  }

  lemma FractionPointAt(whole: string, fraction: string)
    requires AllDigits(whole, 10)
    ensures IndexOfEither(whole + "." + fraction, '.', '.') == |whole|
  {
    forall i | 0 <= i < |whole|
      ensures whole[i] != '.'
    {
      assert DigitValue(whole[i]) < 10;
    }
    IndexOfEitherAppend(whole, "." + fraction, '.', '.');
    assert whole + "." + fraction == whole + ("." + fraction);
  }

  /** `"0x1F"`, `"0o17"`, `"0b101"`: a prefixed key is the integer its digits denote in that base. */
  lemma NonDecimalKey(prefix: char, digits: string)
    requires prefix in "xXoObB"
    requires |digits| > 0 && AllDigits(digits, NonDecimalBase(['0', prefix]))
    ensures var base := NonDecimalBase(['0', prefix]);
      base in {2, 8, 16} && ToInteger(['0', prefix] + digits) == Some(DigitsValue(digits, base))
  {
    var s := ['0', prefix] + digits;
    assert NonDecimalBase(s) == NonDecimalBase(['0', prefix]);
    assert DigitValue(s[|s| - 1]) < 16;
    NoWhiteSpaceToTrim(s);
    assert s[2..] == digits;
  }

  /** Leading white space is stripped up to the first other character. */
  lemma {:induction false} TrimStartDropsWhiteSpace(w: string, s: string)
    requires forall i :: 0 <= i < |w| ==> IsStrWhiteSpace(w[i])
    requires |s| > 0 && !IsStrWhiteSpace(s[0])
    ensures TrimStart(w + s) == s
  {
    if w == [] {
      assert w + s == s;
    } else {
      assert (w + s)[1..] == w[1..] + s;
      TrimStartDropsWhiteSpace(w[1..], s);
    }
  }

  /** Trailing white space is stripped back to the last other character. */
  lemma {:induction false} TrimEndDropsWhiteSpace(s: string, w: string)
    requires |s| > 0 && !IsStrWhiteSpace(s[|s| - 1])
    requires forall i :: 0 <= i < |w| ==> IsStrWhiteSpace(w[i])
    ensures TrimEnd(s + w) == s
  {
    if w == [] {
      assert s + w == s;
    } else {
      assert (s + w)[..|s + w| - 1] == s + w[..|w| - 1];
      TrimEndDropsWhiteSpace(s, w[..|w| - 1]);
    }
  }

  /**
   * White space around a key is ignored: `w1 + s + w2` is the same number as
   * `s` (so `" 2 "` is 2).
   */
  lemma PaddedKeyIsTrimmed(w1: string, s: string, w2: string)
    requires forall i :: 0 <= i < |w1| ==> IsStrWhiteSpace(w1[i])
    requires forall i :: 0 <= i < |w2| ==> IsStrWhiteSpace(w2[i])
    requires |s| > 0 && !IsStrWhiteSpace(s[0]) && !IsStrWhiteSpace(s[|s| - 1])
    ensures ToInteger(w1 + s + w2) == ToInteger(s)
  {
    assert w1 + s + w2 == w1 + (s + w2);
    TrimStartDropsWhiteSpace(w1, s + w2);
    TrimEndDropsWhiteSpace(s, w2);
    NoWhiteSpaceToTrim(s);
  }

  /** A fraction of zeros does not stop a key being an integer: `"1.0"` and `"1.000"` are 1. */
  lemma ZeroFractionKey(whole: string, zeros: string)
    requires |whole| > 0 && AllDigits(whole, 10)
    requires forall i :: 0 <= i < |zeros| ==> zeros[i] == '0'
    ensures ToInteger(whole + "." + zeros) == Some(DigitsValue(whole, 10))
  {
    assert AllDigits(zeros, 10);
    FractionKey(whole, zeros);
    var digits := whole + zeros;
    assert digits[..|whole|] == whole;
    if zeros == [] {
      assert digits == whole;
    } else {
      forall i | |whole| <= i < |digits|
        ensures digits[i] == '0'
      {
        assert digits[i] == zeros[i - |whole|];
      }
    }
  }

  /** A fraction ending in a non-zero digit makes a key a non-integer: `"1.5"`, `"2.50"` is not. */
  lemma NonZeroFractionKey(whole: string, fraction: string)
    requires |whole| > 0 && AllDigits(whole, 10) && AllDigits(fraction, 10)
    requires |fraction| > 0 && fraction[|fraction| - 1] != '0'
    ensures ToInteger(whole + "." + fraction) == None
  {
    FractionKey(whole, fraction);
    var digits := whole + fraction;
    assert digits[|digits| - 1] == fraction[|fraction| - 1];
  }

  /** A minus sign before a digit string negates the integer the digits denote. */
  lemma NegativeDigitKey(s: string)
    requires |s| > 1 && s[0] == '-' && AllDigits(s[1..], 10)
    ensures ToInteger(s) == Some(-(DigitsValue(s[1..], 10) as int))
  {
    assert IsDecimalDigit(s[1..][|s| - 2]);
    NoWhiteSpaceToTrim(s);
    MinusKey(s);
    UnsignedDigitsValue(s[1..], -1);
  }

  lemma MinusKey(s: string)
    requires |s| > 0 && s[0] == '-' && TrimEnd(TrimStart(s)) == s
    ensures ToInteger(s) == UnsignedDecimal(s[1..], -1)
  {
    assert NonDecimalBase(s) == 0;
  }

  /** Round trip: the property key an integer index becomes coerces back to that integer. */
  lemma IntToStringRoundTrip(n: int)
    ensures ToInteger(IntToString(n)) == Some(n)
  {
    if n < 0 {
      NegativeRoundTrip(n);
    } else {
      NatRoundTrip(n);
    }
  }

  lemma NatRoundTrip(m: nat)
    ensures ToInteger(NatToString(m)) == Some(m)
  {
    NatToStringDigits(m);
    DigitKey(NatToString(m));
  }

  lemma NegativeRoundTrip(n: int)
    requires n < 0
    ensures ToInteger(IntToString(n)) == Some(n)
  {
    NegativeDigitKey(IntToString(n));
  }
}
