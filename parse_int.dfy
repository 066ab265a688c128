/**
 * `parseInt(string, 10)` as section 19.2.5 of ECMA-262 defines it:
 * strip leading white space and line terminators, read an optional sign,
 * then take the longest prefix of decimal digits.  An empty prefix gives NaN,
 * written here as `None`.
 */
module ParseInt {
  import opened Options

  /** The characters TrimString removes: WhiteSpace (TAB, VT, FF, ZWNBSP and
      every character of Unicode category Zs) and LineTerminator (LF, CR, LS, PS). */
  predicate IsStrWhiteSpace(c: char): (b: bool)
    ensures b ==> !IsDecimalDigit(c) && c != '+' && c != '-'
  {
    c == '\t' || c == '\U{B}' || c == '\U{C}' || c == '\U{FEFF}'
    || c == ' ' || c == '\U{A0}' || c == '\U{1680}' || ('\U{2000}' <= c <= '\U{200A}')
    || c == '\U{202F}' || c == '\U{205F}' || c == '\U{3000}'
    || c == '\n' || c == '\r' || c == '\U{2028}' || c == '\U{2029}'
  }

  predicate IsDecimalDigit(c: char) {
    '0' <= c <= '9'
  }

  predicate AllWhiteSpace(s: string) {
    forall i :: 0 <= i < |s| ==> IsStrWhiteSpace(s[i])
  }

  predicate AllDigits(s: string) {
    forall i :: 0 <= i < |s| ==> IsDecimalDigit(s[i])
  }

  predicate AllZeros(s: string) {
    forall i :: 0 <= i < |s| ==> s[i] == '0'
  }

  /** TrimString(s, start): the suffix of `s` left after removing leading white space. */
  function TrimStart(s: string): (r: string)
    ensures |r| <= |s| && r == s[|s| - |r|..]
    ensures AllWhiteSpace(s[..|s| - |r|])
    ensures r == [] || !IsStrWhiteSpace(r[0])
  {
    if s != [] && IsStrWhiteSpace(s[0]) then TrimStart(s[1..]) else s
  }

  /** Whether the (trimmed) text starts with a minus sign. */
  predicate IsNegative(t: string) {
    |t| > 0 && t[0] == '-'
  }

  /** The trimmed text with one leading '+' or '-' removed. */
  function Unsigned(t: string): (u: string)
    ensures |t| > 0 && (t[0] == '+' || t[0] == '-') ==> u == t[1..]
    ensures |t| == 0 || (t[0] != '+' && t[0] != '-') ==> u == t
  {
    if |t| > 0 && (t[0] == '+' || t[0] == '-') then t[1..] else t
  }

  /** Length of the longest prefix of `s` made of decimal digits. */
  function DigitPrefixLength(s: string): (n: nat)
    ensures n <= |s| && AllDigits(s[..n])
    ensures n == |s| || !IsDecimalDigit(s[n])
  {
    if s != [] && IsDecimalDigit(s[0]) then 1 + DigitPrefixLength(s[1..]) else 0
  }

  function DigitValue(c: char): nat
    requires IsDecimalDigit(c)
  {
    c as int - '0' as int
  }

  /** The mathematical value of a string of decimal digits, most significant first.
      It is zero exactly when every digit is '0'. */
  function DigitsValue(s: string): (r: nat)
    requires AllDigits(s)
    ensures r == 0 <==> AllZeros(s)
  {
    if s == [] then 0
    else
      var p := s[..|s| - 1];
      assert AllZeros(s) <==> AllZeros(p) && s[|s| - 1] == '0' by {
        assert forall i :: 0 <= i < |p| ==> p[i] == s[i];
      }
      DigitsValue(p) * 10 + DigitValue(s[|s| - 1])
  }

  /** The number read from already-trimmed text: sign, then the digit prefix. */
  function ParseTrimmed(t: string): (r: Option<int>)
    ensures r.None? <==> Unsigned(t) == [] || !IsDecimalDigit(Unsigned(t)[0])
  {
    var u := Unsigned(t);
    var z := u[..DigitPrefixLength(u)];
    if z == [] then None
    else if IsNegative(t) then Some(-(DigitsValue(z) as int))
    else Some(DigitsValue(z))
  }

  /** `parseInt(s, 10)`; `None` stands for NaN, and -0 is the integer 0. */
  function ParseInt10(s: string): (r: Option<int>)
    ensures r.None? <==> Unsigned(TrimStart(s)) == [] || !IsDecimalDigit(Unsigned(TrimStart(s))[0])
  {
    ParseTrimmed(TrimStart(s))
  }

  /** The canonical decimal spelling of `n`: an independent reference for DigitsValue. */
  function Decimal(n: nat): (s: string)
    ensures |s| > 0 && AllDigits(s)
  {
    if n < 10 then ['0' + n as char] else Decimal(n / 10) + ['0' + (n % 10) as char]
  }

  lemma {:induction false} DigitsValueOfDecimal(n: nat)
    ensures DigitsValue(Decimal(n)) == n
  {
    if n >= 10 {
      var s := Decimal(n);
      assert s[..|s| - 1] == Decimal(n / 10);
      DigitsValueOfDecimal(n / 10);
    }
  }

  /** Leading zeros do not change the value of a digit string. */
  lemma {:induction false} LeadingZerosValue(z: string, d: string)
    requires AllZeros(z) && AllDigits(d)
    ensures AllDigits(z + d) && DigitsValue(z + d) == DigitsValue(d)
    decreases |d|
  {
    var zd := z + d;
    assert forall i :: 0 <= i < |zd| ==> zd[i] == if i < |z| then z[i] else d[i - |z|];
    if d == [] {
      assert zd == z;
    } else {
      assert zd[..|zd| - 1] == z + d[..|d| - 1];
      LeadingZerosValue(z, d[..|d| - 1]);
    }
  }

  lemma {:induction false} TrimWhiteSpacePrefix(w: string, x: string)
    requires AllWhiteSpace(w)
    requires x == [] || !IsStrWhiteSpace(x[0])
    ensures TrimStart(w + x) == x
  {
    if w != [] {
      assert (w + x)[1..] == w[1..] + x;
      TrimWhiteSpacePrefix(w[1..], x);
    } else {
      assert w + x == x;
    }
  }

  lemma DigitPrefixOfDigits(d: string, rest: string)
    requires AllDigits(d)
    requires rest == [] || !IsDecimalDigit(rest[0])
    ensures DigitPrefixLength(d + rest) == |d|
    ensures (d + rest)[..|d|] == d
  {
    assert forall i :: 0 <= i < |d| ==> (d + rest)[i] == d[i];
    assert rest != [] ==> (d + rest)[|d|] == rest[0];
  }

  /** Leading white space does not change what parseInt reads. */
  lemma ParseSkipsWhiteSpace(w: string, x: string)
    requires AllWhiteSpace(w)
    requires x == [] || !IsStrWhiteSpace(x[0])
    ensures ParseInt10(w + x) == ParseInt10(x)
  {
    TrimWhiteSpacePrefix(w, x);
    TrimWhiteSpacePrefix([], x);
    assert [] + x == x;
  }

  /** An optional sign in front of text that starts with a digit is what Unsigned removes. */
  lemma UnsignedOfSigned(sign: string, x: string)
    requires sign == "" || sign == "+" || sign == "-"
    requires x != [] && IsDecimalDigit(x[0])
    ensures Unsigned(sign + x) == x
    ensures IsNegative(sign + x) <==> sign == "-"
  {
    if sign == "" {
      assert sign + x == x;
    } else {
      assert (sign + x)[0] == sign[0] && (sign + x)[1..] == x;
    }
  }

  /** Trimmed text whose unsigned part is digits then a non-digit tail reads those digits. */
  lemma ParseTrimmedDigits(t: string, d: string, rest: string)
    requires d != [] && AllDigits(d)
    requires rest == [] || !IsDecimalDigit(rest[0])
    requires Unsigned(t) == d + rest
    ensures ParseTrimmed(t) == Some(if IsNegative(t) then -(DigitsValue(d) as int) else DigitsValue(d))
  {
    DigitPrefixOfDigits(d, rest);
  }

  /** Optional white space, an optional sign, a run of digits (leading zeros allowed)
      and any non-digit tail parse to the value of the digits, negated after '-'. */
  lemma ParseDigits(w: string, sign: string, d: string, rest: string)
    requires AllWhiteSpace(w)
    requires sign == "" || sign == "+" || sign == "-"
    requires d != [] && AllDigits(d)
    requires rest == [] || !IsDecimalDigit(rest[0])
    ensures ParseInt10(w + sign + d + rest) == Some(if sign == "-" then -(DigitsValue(d) as int) else DigitsValue(d))
  {
    var x := sign + (d + rest);
    assert w + sign + d + rest == w + x;
    UnsignedOfSigned(sign, d + rest);
    assert x[0] == if sign == "" then d[0] else sign[0];
    ParseSkipsWhiteSpace(w, x);
    TrimWhiteSpacePrefix([], x);
    assert [] + x == x;
    ParseTrimmedDigits(x, d, rest);
  }

  /** A decimal integer after optional white space and an optional sign parses to
      its value, whatever non-digit text follows it. */
  lemma ParseDecimal(w: string, sign: string, n: nat, rest: string)
    requires AllWhiteSpace(w)
    requires sign == "" || sign == "+" || sign == "-"
    requires rest == [] || !IsDecimalDigit(rest[0])
    ensures ParseInt10(w + sign + Decimal(n) + rest) == Some(if sign == "-" then -(n as int) else n)
  {
    ParseDigits(w, sign, Decimal(n), rest);
    DigitsValueOfDecimal(n);
  }

  /** Text that does not start with white space and has no digit after its sign is NaN. */
  lemma TrimmedNoDigits(x: string)
    requires x == [] || !IsStrWhiteSpace(x[0])
    requires Unsigned(x) == [] || !IsDecimalDigit(Unsigned(x)[0])
    ensures ParseInt10(x) == None
  {
    TrimWhiteSpacePrefix([], x);
    assert [] + x == x;
  }

  /** Text with no decimal integer after the white space and sign parses to NaN. */
  lemma ParseNoDigits(w: string, sign: string, rest: string)
    requires AllWhiteSpace(w)
    requires sign == "" || sign == "+" || sign == "-"
    requires rest == [] || !IsDecimalDigit(rest[0])
    requires sign == "" && rest != [] ==> !IsStrWhiteSpace(rest[0]) && rest[0] != '+' && rest[0] != '-'
    ensures ParseInt10(w + sign + rest) == None
  {
    var x := sign + rest;
    assert w + sign + rest == w + x;
    if sign == "" {
      assert x == rest;
    } else {
      assert x[0] == sign[0] && x[1..] == rest;
      assert Unsigned(x) == rest;
    }
    TrimmedNoDigits(x);
    ParseSkipsWhiteSpace(w, x);
  }
}
