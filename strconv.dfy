/**
 * The three conversions of Go's `strconv` package that type coercion relies on:
 * `Atoi`, `ParseFloat(s, 64)` and `ParseBool`. Numbers are exact: a float is a
 * real number, an infinity or NaN, and float64 rounding is not modelled.
 */
module StrConv {
  import opened Wrappers

  const MinInt64: int := -0x8000_0000_0000_0000
  const MaxInt64: int := 0x7FFF_FFFF_FFFF_FFFF

  /** A `strconv.NumError`: the function that failed and the text it was given. */
  datatype NumError = NumError(func: string, num: string)

  /** A float64 value, with the finite ones taken exactly. */
  datatype Float = Finite(value: real) | Inf(negative: bool) | NaN

  predicate IsDigit(c: char)
  {
    '0' <= c <= '9'
  }

  function DigitValue(c: char): (d: nat)
    requires IsDigit(c)
    ensures d < 10
  {
    (c as int) - ('0' as int)
  }

  predicate AllDigits(s: string)
  {
    forall i :: 0 <= i < |s| ==> IsDigit(s[i])
  }

  /** The value of a string of decimal digits, most significant digit first. */
  function DecimalValue(s: string): nat
    requires AllDigits(s)
  {
    if s == [] then 0 else DecimalValue(s[..|s| - 1]) * 10 + DigitValue(s[|s| - 1])
  }

  function Pow10(n: nat): (p: nat)
    ensures p >= 1
  {
    if n == 0 then 1 else 10 * Pow10(n - 1)
  }

  /** 10 raised to an integer power, as a real. */
  function Scale(e: int): (r: real)
    ensures r > 0.0
  {
    if e >= 0 then Pow10(e) as real else 1.0 / (Pow10(-e) as real)
  }

  /** An optional sign: whether it is '-', and the text after it. */
  function SplitSign(s: string): (r: (bool, string))
    ensures r.1 == s || (s != [] && (s[0] == '+' || s[0] == '-') && r.1 == s[1..])
    ensures r.0 ==> s != [] && s[0] == '-'
  {
    if s != [] && (s[0] == '+' || s[0] == '-') then (s[0] == '-', s[1..]) else (false, s)
  }

  /** `+` or `-` followed by one or more decimal digits, or the digits alone. */
  predicate IsIntegerLiteral(s: string)
  {
    var (_, digits) := SplitSign(s);
    digits != [] && AllDigits(digits)
  }

  /** The value of an integer literal. */
  function IntegerValue(s: string): int
    requires IsIntegerLiteral(s)
  {
    var (negative, digits) := SplitSign(s);
    var magnitude: int := DecimalValue(digits);
    if negative then -magnitude else magnitude
  }

  /**
   * `strconv.Atoi(s)`: a base-10 integer with an optional sign, no underscores, no
   * white space, in the range of a 64-bit int.
   */
  function Atoi(s: string): (r: Result<int, NumError>)
    ensures r.Ok? <==> IsIntegerLiteral(s) && MinInt64 <= IntegerValue(s) <= MaxInt64
    ensures r.Ok? ==> r.value == IntegerValue(s)
    ensures r.Err? ==> r.error == NumError("Atoi", s)
  {
    if !IsIntegerLiteral(s) then Err(NumError("Atoi", s))
    else
      var v := IntegerValue(s);
      if v < MinInt64 || v > MaxInt64 then Err(NumError("Atoi", s)) else Ok(v)
  }

  function Lower(c: char): char
  {
    if 'A' <= c <= 'Z' then (c as int + 32) as char else c
  }

  /** ASCII case-insensitive equality with a lower-case word. */
  predicate EqualFold(s: string, word: string)
  {
    |s| == |word| && forall i :: 0 <= i < |s| ==> Lower(s[i]) == word[i]
  }

  /**
   * The special spellings `ParseFloat` accepts: "inf" and "infinity" in any case with
   * an optional sign, and "nan" in any case without a sign.
   */
  function Special(s: string): Option<Float>
  {
    var (negative, body) := SplitSign(s);
    if EqualFold(body, "inf") || EqualFold(body, "infinity") then Some(Inf(negative))
    else if body == s && EqualFold(s, "nan") then Some(NaN)
    else None
  }

  /**
   * How many leading characters the mantissa scan consumes: digits, underscores
   * and at most one '.'.
   */
  function MantissaLength(s: string, sawDot: bool): (n: nat)
    ensures n <= |s|
  {
    if s == [] then 0
    else if IsDigit(s[0]) || s[0] == '_' then 1 + MantissaLength(s[1..], sawDot)
    else if s[0] == '.' && !sawDot then 1 + MantissaLength(s[1..], true)
    else 0
  }

  /** The digits of a mantissa or exponent, without its underscores and dot. */
  function DigitsOf(m: string): (d: string)
    ensures AllDigits(d) && |d| <= |m|
  {
    if m == [] then []
    else (if IsDigit(m[0]) then [m[0]] else []) + DigitsOf(m[1..])
  }

  /** How many digits of the mantissa come after its dot. */
  function FractionDigits(m: string, sawDot: bool): nat
  {
    if m == [] then 0
    else (if sawDot && IsDigit(m[0]) then 1 else 0) + FractionDigits(m[1..], sawDot || m[0] == '.')
  }

  /** The exponent's value as the scan accumulates it: digits past 10000 are dropped. */
  function CappedExponent(digits: string, acc: nat): nat
    requires AllDigits(digits)
  {
    if digits == [] then acc
    else CappedExponent(digits[1..], if acc < 10000 then acc * 10 + DigitValue(digits[0]) else acc)
  }

  /**
   * The exponent part after the mantissa: nothing, or 'e'/'E', an optional sign, a
   * digit, then digits and underscores up to the end. Its value, or None when the
   * text is not such an exponent.
   */
  function Exponent(t: string): Option<int>
  {
    if t == [] then Some(0)
    else if t[0] != 'e' && t[0] != 'E' then None
    else
      var (negative, ds) := SplitSign(t[1..]);
      if ds == [] || !IsDigit(ds[0]) || exists i :: 0 <= i < |ds| && !IsDigit(ds[i]) && ds[i] != '_' then None
      else
        var e: int := CappedExponent(DigitsOf(ds), 0);
        Some(if negative then -e else e)
  }

  /** Where the last character class `underscoreOK` saw was a digit, an underscore, or neither. */
  datatype Saw = Start | SawDigit | SawUnderscore | SawOther

  /** `underscoreOK`: every underscore stands between two digits (a base prefix counts as one). */
  predicate UnderscoreOK(s: string)
  {
    var (_, t) := SplitSign(s);
    if |t| >= 2 && t[0] == '0' && (Lower(t[1]) == 'b' || Lower(t[1]) == 'o' || Lower(t[1]) == 'x') then
      UnderscoreScan(t[2..], SawDigit, Lower(t[1]) == 'x')
    else UnderscoreScan(t, Start, false)
  }

  predicate UnderscoreScan(t: string, saw: Saw, hex: bool)
  {
    if t == [] then saw != SawUnderscore
    else if IsDigit(t[0]) || (hex && 'a' <= Lower(t[0]) <= 'f') then UnderscoreScan(t[1..], SawDigit, hex)
    else if t[0] == '_' then saw == SawDigit && UnderscoreScan(t[1..], SawUnderscore, hex)
    else saw != SawUnderscore && UnderscoreScan(t[1..], SawOther, hex)
  }

  /**
   * `strconv.ParseFloat(s, 64)` on decimal text: the special spellings, or an
   * optional sign, a mantissa of digits with at most one '.' and at least one digit,
   * and an optional exponent, all of `s` consumed; underscores only between digits.
   */
  function ParseFloat(s: string): (r: Result<Float, NumError>)
    ensures r.Err? ==> r.error == NumError("ParseFloat", s)
    ensures r.Ok? ==> s != []
    ensures r.Ok? && r.value.NaN? <==> EqualFold(s, "nan")
  {
    match Special(s)
    case Some(f) => Ok(f)
    case None =>
      var (negative, body) := SplitSign(s);
      var n := MantissaLength(body, false);
      var mantissa := body[..n];
      var digits := DigitsOf(mantissa);
      var exponent := Exponent(body[n..]);
      if digits == [] || exponent.None? || ('_' in s && !UnderscoreOK(s)) then Err(NumError("ParseFloat", s))
      else
        var magnitude := DecimalValue(digits) as real * Scale(exponent.value - FractionDigits(mantissa, false));
        Ok(Finite(if negative then -magnitude else magnitude))
  }

  /** `strconv.ParseBool(s)`. */
  function ParseBool(s: string): (r: Result<bool, NumError>)
    ensures r == Ok(true) <==> s in {"1", "t", "T", "TRUE", "true", "True"}
    ensures r == Ok(false) <==> s in {"0", "f", "F", "FALSE", "false", "False"}
    ensures r.Err? ==> r.error == NumError("ParseBool", s)
  {
    match s
    case "1" => Ok(true)
    case "t" => Ok(true)
    case "T" => Ok(true)
    case "TRUE" => Ok(true)
    case "true" => Ok(true)
    case "True" => Ok(true)
    case "0" => Ok(false)
    case "f" => Ok(false)
    case "F" => Ok(false)
    case "FALSE" => Ok(false)
    case "false" => Ok(false)
    case "False" => Ok(false)
    case _ => Err(NumError("ParseBool", s))
  }

  lemma {:induction false} MantissaOfDigits(s: string, sawDot: bool)
    requires AllDigits(s)
    ensures MantissaLength(s, sawDot) == |s|
    ensures DigitsOf(s) == s
    ensures !sawDot ==> FractionDigits(s, sawDot) == 0
  {
    if s != [] {
      MantissaOfDigits(s[1..], sawDot);
      assert s == [s[0]] + s[1..];
    }
  }

  /** Every text `Atoi` accepts, `ParseFloat` accepts as the same number. */
  lemma AtoiIsFloat(s: string)
    requires Atoi(s).Ok?
    ensures ParseFloat(s) == Ok(Finite(Atoi(s).value as real))
  {
    var (negative, body) := SplitSign(s);
    assert IsDigit(body[0]);
    assert !EqualFold(body, "inf") && !EqualFold(body, "infinity") && !EqualFold(s, "nan") by {
      assert Lower(body[0]) == body[0];
      if body != s {
        assert !IsDigit(s[0]);
      }
    }
    MantissaOfDigits(body, false);
    assert body[..|body|] == body;
    assert '_' !in s by {
      if body == s {
        assert forall i :: 0 <= i < |s| ==> s[i] != '_';
      } else {
        assert forall i :: 1 <= i < |s| ==> s[i] == body[i - 1];
      }
    }
  }

  /** The integer cases of the coercion tests: only "1" is an integer. */
  lemma AtoiExamples()
    ensures Atoi("1") == Ok(1)
    ensures Atoi("1.23").Err? && Atoi("a").Err? && Atoi("true").Err? && Atoi(" ").Err? && Atoi("").Err?
    ensures Atoi("-42") == Ok(-42) && Atoi("+").Err?
  {
    assert !AllDigits("1.23") by { assert !IsDigit("1.23"[1]); }
    assert DecimalValue("42") == 42 by { assert "42"[..1] == "4"; }
    assert SplitSign("-42").1 == "42";
  }

  /** The number cases of the coercion tests: integers, with or without an underscore. */
  lemma ParseFloatIntegers()
    ensures ParseFloat("1234") == Ok(Finite(1234.0))
    ensures ParseFloat("1_234") == Ok(Finite(1234.0))
  {
    DecimalValue1234();
    AtoiIsFloat("1234");
    ParseFloatUnderscore();
  }

  lemma DecimalValue1234()
    ensures DecimalValue("1234") == 1234
  {
    assert "1234"[..3] == "123";
    assert "123"[..2] == "12";
    assert "12"[..1] == "1";
  }

  lemma ParseFloatUnderscore()
    ensures ParseFloat("1_234") == Ok(Finite(1234.0))
  {
    var s := "1_234";
    assert Special(s).None? by {
      assert SplitSign(s).1 == s;
      assert Lower(s[0]) == '1';
    }
    assert MantissaLength(s, false) == 5;
    assert s[..5] == s;
    assert DigitsOf(s) == "1234";
    assert FractionDigits(s, false) == 0;
    assert UnderscoreOK(s);
    assert s[5..] == [];
    DecimalValue1234();
  }

  /** The number cases of the coercion tests: trailing zeros after the dot. */
  lemma ParseFloatDecimals()
    ensures ParseFloat("1.0") == Ok(Finite(1.0))
    ensures ParseFloat("1.00") == Ok(Finite(1.0))
  {
    ParseFloatOnePointZero();
    ParseFloatOnePointZeroZero();
  }

  lemma ParseFloatOnePointZero()
    ensures ParseFloat("1.0") == Ok(Finite(1.0))
  {
    assert MantissaLength("1.0", false) == 3;
    assert "1.0"[..3] == "1.0";
    assert DigitsOf("1.0") == "10" && FractionDigits("1.0", false) == 1;
    assert DecimalValue("10") == 10 by { assert "10"[..1] == "1"; }
  }

  lemma ParseFloatOnePointZeroZero()
    ensures ParseFloat("1.00") == Ok(Finite(1.0))
  {
    assert MantissaLength("1.00", false) == 4;
    assert "1.00"[..4] == "1.00";
    assert DigitsOf("1.00") == "100" && FractionDigits("1.00", false) == 2;
    assert DecimalValue("100") == 100 by { assert "100"[..2] == "10"; assert "10"[..1] == "1"; }
  }

  /** The number cases of the coercion tests that fail. */
  lemma ParseFloatRejects()
    ensures ParseFloat("1.1.1").Err? && ParseFloat("a").Err? && ParseFloat(" ").Err? && ParseFloat("").Err?
  {
    assert MantissaLength("1.1.1", false) == 3;
    assert "1.1.1"[3..] == ".1";
    assert MantissaLength("a", false) == 0;
    assert MantissaLength(" ", false) == 0;
  }

  /** `ParseFloat` accepts the infinities in any case, with or without a sign. */
  lemma InfinityExamples()
    ensures ParseFloat("-Inf") == Ok(Inf(true))
    ensures ParseFloat("infinity") == Ok(Inf(false))
    ensures ParseFloat("infin").Err?
  {
    assert SplitSign("-Inf").1 == "Inf";
    assert EqualFold("Inf", "inf");
    assert MantissaLength("infin", false) == 0;
  }

  /** `ParseFloat` accepts NaN in any case, but only without a sign. */
  lemma NaNExamples()
    ensures ParseFloat("NaN") == Ok(NaN)
    ensures ParseFloat("-nan").Err?
  {
    assert EqualFold("NaN", "nan");
    assert SplitSign("-nan").1 == "nan";
    assert MantissaLength("nan", false) == 0;
  }

  /** The boolean cases of the coercion tests. */
  lemma ParseBoolExamples()
    ensures ParseBool("true") == Ok(true) && ParseBool("True") == Ok(true)
    ensures ParseBool("TRUE") == Ok(true) && ParseBool("1") == Ok(true)
    ensures ParseBool("false") == Ok(false) && ParseBool("False") == Ok(false)
    ensures ParseBool("FALSE") == Ok(false) && ParseBool("0") == Ok(false)
    ensures ParseBool("100").Err? && ParseBool("a").Err? && ParseBool(" ").Err? && ParseBool("").Err?
  {
  }
}
