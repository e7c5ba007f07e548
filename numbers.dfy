/** Python's `float()` and `int()` applied to a `str` token, as partial
    functions: `None` is the ValueError they raise. A float is kept as the exact
    decimal it spells (no binary rounding). */
module Numbers {
  import opened Results
  import opened Text

  datatype Float = Finite(value: real) | Infinite(negative: bool) | NaN

  predicate AllDigits(s: string) {
    forall i :: 0 <= i < |s| ==> IsDigit(s[i])
  }

  /** The natural number a string of decimal digits spells. */
  function DigitsValue(s: string): nat
    requires AllDigits(s)
  {
    if s == [] then 0 else 10 * DigitsValue(s[..|s| - 1]) + (s[|s| - 1] as int - '0' as int)
  }

  /** `n * 10^e` as an exact real. */
  function Scaled(n: nat, e: int): real
    decreases if e >= 0 then e else -e
  {
    if e == 0 then n as real
    else if e > 0 then 10.0 * Scaled(n, e - 1)
    else Scaled(n, e + 1) / 10.0
  }

  function LowerAscii(c: char): char {
    if 'A' <= c <= 'Z' then (c as int + 32) as char else c
  }

  /** `s` equals the lower-case word `w` up to ASCII case. */
  predicate SameWord(s: string, w: string) {
    |s| == |w| && (s == [] || (LowerAscii(s[0]) == w[0] && SameWord(s[1..], w[1..])))
  }

  /** One optional leading sign: whether it was '-', and the rest. */
  function SplitSign(s: string): (bool, string) {
    if |s| > 0 && (s[0] == '+' || s[0] == '-') then (s[0] == '-', s[1..]) else (false, s)
  }

  function ParseDigits(s: string): Option<nat> {
    if |s| > 0 && AllDigits(s) then Some(DigitsValue(s)) else None
  }

  /** Index of the first 'e' or 'E', or `|s|`. */
  function ExponentMark(s: string): (k: nat)
    ensures k <= |s| && (k < |s| ==> s[k] == 'e' || s[k] == 'E')
    ensures forall i :: 0 <= i < k ==> s[i] != 'e' && s[i] != 'E'
  {
    if s == [] || s[0] == 'e' || s[0] == 'E' then 0 else 1 + ExponentMark(s[1..])
  }

  /** An optional sign then at least one digit, as in an exponent or `int()`. */
  function ParseSigned(s: string): Option<int> {
    var (neg, body) := SplitSign(s);
    match ParseDigits(body)
    case Some(n) => Some(if neg then -(n as int) else n as int)
    case None => None
  }

  /** Digits with at most one '.', at least one digit in all: the value of
      all the digits together, and how many of them follow the '.'. */
  function ParseMantissa(m: string): Option<(nat, nat)> {
    var dot := IndexOf(m, '.');
    var whole := m[..dot];
    var fraction := if dot < |m| then m[dot + 1..] else "";
    if AllDigits(whole) && AllDigits(fraction) && |whole| + |fraction| > 0
    then Some((DigitsValue(whole + fraction), |fraction|))
    else None
  }

  /** An unsigned decimal literal: a mantissa, then an optional exponent
      `e[+-]digits` in either case of `e`. */
  function ParseDecimal(s: string): Option<real> {
    var e := ExponentMark(s);
    var exponent := if e == |s| then Some(0) else ParseSigned(s[e + 1..]);
    var mantissa := ParseMantissa(s[..e]);
    if mantissa.Some? && exponent.Some?
    then Some(Scaled(mantissa.value.0, exponent.value - mantissa.value.1))
    else None
  }

  /** The whitespace `float()` and `int()` ignore around a number: the ASCII
      characters `\t` to `\r` and the space, and every non-ASCII character
      `str.isspace()` accepts. U+001C to U+001F, which `str.strip()` removes,
      are not among them. */
  predicate IsNumberSpace(c: char) {
    IsSpace(c) && !(0x1C <= c as int <= 0x1F)
  }

  /** `float(tok)`: surrounding whitespace is ignored, then an optional sign and
      either "inf", "infinity" or "nan" in any case, or a decimal literal. */
  function ParseFloat(tok: string): Option<Float> {
    var (neg, body) := SplitSign(Strip(IsNumberSpace, tok));
    if SameWord(body, "inf") || SameWord(body, "infinity") then Some(Infinite(neg))
    else if SameWord(body, "nan") then Some(NaN)
    else
      match ParseDecimal(body)
      case Some(v) => Some(Finite(if neg then -v else v))
      case None => None
  }

  /** The most digits `int()` converts from a string: the default of
      `sys.int_info.default_max_str_digits`. */
  const MaxIntDigits: nat := 4300

  /** `int(tok)` in base 10: surrounding whitespace is ignored, then an
      optional sign and at least one digit, but no more than `MaxIntDigits`. */
  function ParseInt(tok: string): Option<int> {
    var s := Strip(IsNumberSpace, tok);
    if |SplitSign(s).1| > MaxIntDigits then None else ParseSigned(s)
  }

  /** `float(tok)`, raising ValueError. */
  function FloatOf(tok: string): Result<Float> {
    match ParseFloat(tok)
    case Some(f) => Success(f)
    case None => Failure(ValueError(tok))
  }

  /** `int(tok)`, raising ValueError. */
  function IntOf(tok: string): Result<int> {
    match ParseInt(tok)
    case Some(n) => Success(n)
    case None => Failure(ValueError(tok))
  }

  /** Index of the first token `convert` rejects, or `|toks|` when it
      accepts them all. */
  function FirstFailure<T>(convert: string -> Result<T>, toks: seq<string>): (k: nat)
    ensures k <= |toks|
    ensures forall i :: 0 <= i < k ==> convert(toks[i]).Success?
    ensures k < |toks| ==> convert(toks[k]).Failure?
  {
    if toks == [] || convert(toks[0]).Failure? then 0 else 1 + FirstFailure(convert, toks[1..])
  }

  /** `[convert(x) for x in toks]`: converts every token, left to right, and
      raises the error of the first token `convert` rejects. */
  function ConvertAll<T>(convert: string -> Result<T>, toks: seq<string>): (r: Result<seq<T>>)
    ensures r.Success? <==> FirstFailure(convert, toks) == |toks|
    ensures r.Success? ==>
      |r.value| == |toks| && forall i :: 0 <= i < |toks| ==> convert(toks[i]) == Success(r.value[i])
    ensures r.Failure? ==> r.error == convert(toks[FirstFailure(convert, toks)]).error
  {
    if toks == [] then Success([])
    else
      var x :- convert(toks[0]);
      var rest :- ConvertAll(convert, toks[1..]);
      Success([x] + rest)
  }

  /** `[float(x) for x in toks]`. */
  function FloatsOf(toks: seq<string>): Result<seq<Float>> {
    ConvertAll(FloatOf, toks)
  }

  /** Every token `int()` accepts, `float()` accepts too, with the same value. */
  lemma IntIsFloat(tok: string)
    requires ParseInt(tok).Some?
    ensures ParseFloat(tok) == Some(Finite(ParseInt(tok).value as real))
  {
    var (neg, body) := SplitSign(Strip(IsNumberSpace, tok));
    assert !SameWord(body, "inf") && !SameWord(body, "infinity") && !SameWord(body, "nan") by {
      assert body != [] && IsDigit(body[0]);
    }
    assert body != [] && IsDigit(body[0]);
    assert ExponentMark(body) == |body|;
    assert body[..|body|] == body;
    assert IndexOf(body, '.') == |body|;
    assert body + "" == body;
  }

  /** The first exponent mark of `a + [c] + b` is `c` when `a` has none. */
  lemma {:induction false} ExponentMarkAfter(a: string, c: char, b: string)
    requires forall i :: 0 <= i < |a| ==> a[i] != 'e' && a[i] != 'E'
    requires c == 'e' || c == 'E'
    ensures ExponentMark(a + [c] + b) == |a|
  {
    if a != [] {
      assert (a + [c] + b)[1..] == a[1..] + [c] + b;
      ExponentMarkAfter(a[1..], c, b);
    }
  }

  /** A decimal literal with an exponent splits at its first exponent mark:
      the mantissa before it and the signed exponent after it. */
  lemma DecimalWithExponent(mantissa: string, exponent: string)
    requires forall i :: 0 <= i < |mantissa| ==> mantissa[i] != 'e' && mantissa[i] != 'E'
    ensures var r := ParseDecimal(mantissa + ['E'] + exponent);
      && (r.Some? <==> ParseMantissa(mantissa).Some? && ParseSigned(exponent).Some?)
      && (r.Some? ==> r.value == Scaled(ParseMantissa(mantissa).value.0,
                                        ParseSigned(exponent).value - ParseMantissa(mantissa).value.1))
  {
    var s := mantissa + ['E'] + exponent;
    ExponentMarkAfter(mantissa, 'E', exponent);
    assert s[..|mantissa|] == mantissa;
    assert s[|mantissa| + 1..] == exponent;
  }

  /** Digits, a '.', then digits: all the digits, with as many after the
      point as `fraction` has. */
  lemma PointedMantissa(whole: string, fraction: string)
    requires AllDigits(whole) && AllDigits(fraction) && |whole| + |fraction| > 0
    ensures ParseMantissa(whole + "." + fraction) == Some((DigitsValue(whole + fraction), |fraction|))
    ensures forall i :: 0 <= i < |whole + "." + fraction| ==>
      (whole + "." + fraction)[i] != 'e' && (whole + "." + fraction)[i] != 'E'
  {
    var m := whole + "." + fraction;
    assert '.' !in whole by {
      forall i | 0 <= i < |whole| ensures whole[i] != '.' {
        assert IsDigit(whole[i]);
      }
    }
    IndexOfAfter(whole, '.', fraction);
    assert m[..|whole|] == whole;
    assert m[|whole| + 1..] == fraction;
    forall i | 0 <= i < |m| ensures m[i] != 'e' && m[i] != 'E' {
      if i < |whole| {
        assert m[i] == whole[i];
      } else if i > |whole| {
        assert m[i] == fraction[i - |whole| - 1];
      }
    }
  }

  /** A sign followed by digits is the signed value of the digits. */
  lemma SignedDigits(sign: char, digits: string)
    requires AllDigits(digits) && |digits| > 0
    requires sign == '+' || sign == '-'
    ensures ParseSigned([sign] + digits) ==
      Some(if sign == '-' then -(DigitsValue(digits) as int) else DigitsValue(digits))
  {
  }

  lemma CenterTokenDigits()
    ensures ParseDigits("05") == Some(5)
    ensures DigitsValue("1000000") == 1000000
  {
    assert "05"[..1] == "0";
    assert "0"[..0] == "";
    assert AllDigits("05");
    var m := "1000000";
    assert m[..1] == "1" && m[..1][..0] == "";
    assert m[..2][..1] == m[..1];
    assert m[..3][..2] == m[..2];
    assert m[..4][..3] == m[..3];
    assert m[..5][..4] == m[..4];
    assert m[..6][..5] == m[..5];
    assert m[..7] == m;
    assert DigitsValue(m[..1]) == 1;
    assert DigitsValue(m[..2]) == 10;
    assert DigitsValue(m[..3]) == 100;
    assert DigitsValue(m[..4]) == 1000;
    assert DigitsValue(m[..5]) == 10000;
    assert DigitsValue(m[..6]) == 100000;
  }

  lemma CenterTokenDecimal()
    ensures ParseDecimal("1.000000E+05") == Some(100000.0)
  {
    var mantissa, exponent := "1" + "." + "000000", ['+'] + "05";
    assert "1.000000E+05" == mantissa + ['E'] + exponent;
    assert "1" + "000000" == "1000000";
    CenterTokenDigits();
    PointedMantissa("1", "000000");
    assert ParseMantissa(mantissa) == Some((1000000, 6));
    SignedDigits('+', "05");
    assert ParseSigned(exponent) == Some(5);
    DecimalWithExponent(mantissa, exponent);
    assert Scaled(1000000, 5 - 6) == 100000.0;
  }

  /** The center-frequency token of an instrument export reads as 100 kHz. */
  lemma CenterFrequencyToken()
    ensures ParseFloat("1.000000E+05") == Some(Finite(100000.0))
  {
    var s := "1.000000E+05";
    assert s[0] == '1' && s[|s| - 1] == '5';
    assert TrimStart(IsNumberSpace, s) == s && TrimEnd(IsNumberSpace, s) == s;
    assert SplitSign(s) == (false, s);
    assert !SameWord(s, "inf") && !SameWord(s, "infinity") && !SameWord(s, "nan");
    CenterTokenDecimal();
  }

  /** A run of digits converts with `int()` exactly when it is no longer than
      `MaxIntDigits`, and then to the value it spells. */
  lemma IntDigitLimit(digits: string)
    requires AllDigits(digits) && |digits| > 0
    ensures ParseInt(digits).Some? <==> |digits| <= MaxIntDigits
    ensures ParseInt(digits).Some? ==> ParseInt(digits).value == DigitsValue(digits)
  {
    assert IsDigit(digits[0]) && IsDigit(digits[|digits| - 1]);
    assert TrimStart(IsNumberSpace, digits) == digits;
    assert TrimEnd(IsNumberSpace, digits) == digits;
    assert Strip(IsNumberSpace, digits) == digits;
    assert SplitSign(digits) == (false, digits);
    assert ParseDigits(digits) == Some(DigitsValue(digits));
    assert ParseSigned(digits) == Some(DigitsValue(digits) as int);
  }

  /** U+001C is whitespace to `str.strip()` but not to `float()` or `int()`:
      a token that starts with it strips clean, yet neither conversion accepts it. */
  lemma SeparatorControlRejected()
    ensures Strip(IsSpace, "\U{1C}1") == "1"
    ensures ParseFloat("\U{1C}1") == None && ParseInt("\U{1C}1") == None
  {
    var s := "\U{1C}1";
    assert s[1..] == "1";
    assert TrimStart(IsSpace, s) == "1";
    assert TrimStart(IsNumberSpace, s) == s && TrimEnd(IsNumberSpace, s) == s;
    assert SplitSign(s) == (false, s);
    assert !AllDigits(s) by {
      assert !IsDigit(s[0]);
    }
    assert !SameWord(s, "inf") && !SameWord(s, "infinity") && !SameWord(s, "nan");
    assert ExponentMark(s) == 2 && IndexOf(s, '.') == 2;
    assert s[..2] == s;
  }
}
