/**
 * The number conversions the services rely on: `Number(v)` (used by the
 * request-body coercion and by the simulator's sensor cache), `parseFloat`
 * (sensor creation), `parseInt` (the `limit` query parameter), the decimal
 * text of a natural number (SQL placeholders `$1`, `$2`, ...), and the
 * arithmetic and comparisons on numbers that may be infinite or NaN.
 *
 * Reals are exact: the rounding of a decimal literal to the nearest double,
 * and the overflow of a large literal to Infinity, are not modelled.
 */
module JsNumbers {
  import opened Wrappers
  import opened JsValues

  // ---------------------------------------------------------------- digits

  /** The value of `c` as a digit in base 36, or 36 if it is not one. */
  function DigitValue(c: char): (d: nat)
    ensures d <= 36
    ensures d < 10 <==> '0' <= c <= '9'
  {
    if '0' <= c <= '9' then c as nat - '0' as nat
    else if 'a' <= c <= 'z' then c as nat - 'a' as nat + 10
    else if 'A' <= c <= 'Z' then c as nat - 'A' as nat + 10
    else 36
  }

  /** Every character of `s` is a digit of base `radix`. */
  predicate AllDigits(s: string, radix: nat) {
    forall i :: 0 <= i < |s| ==> DigitValue(s[i]) < radix
  }

  /** The value of a digit string in base `radix`, most significant digit first. */
  function DigitsValue(s: string, radix: nat): nat
    requires AllDigits(s, radix)
  {
    if s == [] then 0
    else DigitsValue(s[..|s| - 1], radix) * radix + DigitValue(s[|s| - 1])
  }

  /** 10 to the power `e`. */
  function Pow10(e: nat): (p: nat)
    ensures p >= 1
  {
    if e == 0 then 1 else 10 * Pow10(e - 1)
  }

  /** The longest prefix of `s` made of digits of base `radix`. */
  function DigitPrefix(s: string, radix: nat): (k: nat)
    ensures k <= |s|
    ensures AllDigits(s[..k], radix)
    ensures k < |s| ==> DigitValue(s[k]) >= radix
  {
    if s == [] || DigitValue(s[0]) >= radix then 0
    else
      var k := 1 + DigitPrefix(s[1..], radix);
      assert s[..k] == [s[0]] + s[1..][..k - 1];
      k
  }

  // ------------------------------------------------- decimal text of a nat

  /** The decimal text of `n`, without leading zeros. */
  function NatToString(n: nat): (s: string)
    ensures |s| >= 1
    ensures AllDigits(s, 10)
    ensures s[0] == '0' ==> n == 0
    decreases n
  {
    var last := ['0' + (n % 10) as char];
    if n < 10 then last else NatToString(n / 10) + last
  }

  /** Reading back the decimal text of `n` gives `n`. */
  lemma {:induction false} NatToStringRoundTrip(n: nat)
    ensures DigitsValue(NatToString(n), 10) == n
    decreases n
  {
    var s := NatToString(n);
    if n >= 10 {
      NatToStringRoundTrip(n / 10);
      assert s[..|s| - 1] == NatToString(n / 10);
    }
  }

  /** Distinct numbers have distinct decimal texts. */
  lemma NatToStringInjective(m: nat, n: nat)
    requires NatToString(m) == NatToString(n)
    ensures m == n
  {
    NatToStringRoundTrip(m);
    NatToStringRoundTrip(n);
  }

  // ------------------------------------------------------ decimal literals

  /** The index of the first occurrence of `a` or `b` in `s`, or `|s|`. */
  function IndexOfEither(s: string, a: char, b: char): (k: nat)
    ensures k <= |s|
    ensures forall j :: 0 <= j < k ==> s[j] != a && s[j] != b
    ensures k < |s| ==> s[k] == a || s[k] == b
  {
    if s == [] then 0
    else if s[0] == a || s[0] == b then 0
    else 1 + IndexOfEither(s[1..], a, b)
  }

  /** The value of the decimal fraction whose digits before the point are `ip` and after it `fp`. */
  function FractionValue(ip: string, fp: string): real
    requires AllDigits(ip, 10) && AllDigits(fp, 10)
  {
    DigitsValue(ip, 10) as real + DigitsValue(fp, 10) as real / Pow10(|fp|) as real
  }

  /** `digits`, `digits.`, `digits.digits` or `.digits` (at least one digit). */
  function Mantissa(m: string): Option<real> {
    var k := IndexOfEither(m, '.', '.');
    if k == |m| then
      if |m| > 0 && AllDigits(m, 10) then Some(DigitsValue(m, 10) as real) else None
    else
      var ip, fp := m[..k], m[k + 1..];
      if AllDigits(ip, 10) && AllDigits(fp, 10) && |ip| + |fp| > 0 then
        Some(FractionValue(ip, fp))
      else None
  }

  /** The exponent after `e`/`E`: an optional sign and at least one digit. */
  function Exponent(e: string): Option<int> {
    var signed := e != [] && (e[0] == '-' || e[0] == '+');
    var sign := if e != [] && e[0] == '-' then -1 else 1;
    var digits := if signed then e[1..] else e;
    if |digits| > 0 && AllDigits(digits, 10) then Some(sign * DigitsValue(digits, 10)) else None
  }

  /** `x * 10^e` for an integer exponent. */
  function Scale(x: real, e: int): real {
    if e >= 0 then x * Pow10(e) as real else x / Pow10(-e) as real
  }

  /** StrUnsignedDecimalLiteral: `Infinity`, or a mantissa with an optional exponent. */
  function UnsignedDecimal(b: string): Option<Number> {
    if b == "Infinity" then Some(PosInf)
    else
      var k := IndexOfEither(b, 'e', 'E');
      var mant := Mantissa(b[..k]);
      if mant.None? then None
      else if k == |b| then Some(Finite(mant.value))
      else
        var e := Exponent(b[k + 1..]);
        if e.None? then None else Some(Finite(Scale(mant.value, e.value)))
  }

  function Negate(n: Number): Number {
    match n
    case Finite(x) => Finite(-x)
    case PosInf => NegInf
    case NegInf => PosInf
    case NaN => NaN
  }

  /** StrDecimalLiteral: an optional sign before an unsigned decimal literal. */
  function Decimal(t: string): Option<Number> {
    if t != [] && t[0] == '-' then
      var u := UnsignedDecimal(t[1..]);
      if u.None? then None else Some(Negate(u.value))
    else if t != [] && t[0] == '+' then UnsignedDecimal(t[1..])
    else UnsignedDecimal(t)
  }

  /** A `0x`/`0o`/`0b` literal (no sign allowed): its radix, or 0 when `t` has no such prefix. */
  function RadixPrefix(t: string): nat {
    if |t| < 2 || t[0] != '0' then 0
    else if t[1] == 'x' || t[1] == 'X' then 16
    else if t[1] == 'o' || t[1] == 'O' then 8
    else if t[1] == 'b' || t[1] == 'B' then 2
    else 0
  }

  /** `Number(s)` for a string: trimmed, empty is 0, a whole literal or NaN. */
  function ToNumber(s: string): (n: Number)
    ensures Trim(s) == "" ==> n == Finite(0.0)
  {
    var t := Trim(s);
    if t == "" then Finite(0.0)
    else
      var radix := RadixPrefix(t);
      if radix != 0 then
        var digits := t[2..];
        if |digits| > 0 && AllDigits(digits, radix) then Finite(DigitsValue(digits, radix) as real) else NaN
      else
        match Decimal(t)
        case Some(x) => x
        case None => NaN
  }

  /** `Number(v)` for any value. */
  function ToNumberValue(v: Value): Number {
    match v
    case Undefined => NaN
    case Null => Finite(0.0)
    case Bool(b) => if b then Finite(1.0) else Finite(0.0)
    case Num(n) => n
    case Str(s) => ToNumber(s)
    case Arr(xs) => ArrayToNumber(xs)
    case Obj(_) => NaN
  }

  /**
   * `Number(array)` reads the array's text, its elements' texts joined by
   * commas: `[]` is `""` (0), `[x]` is the text of `x`, two or more elements
   * contain a comma (NaN).
   */
  function ArrayToNumber(xs: seq<Value>): Number
    decreases xs, 0
  {
    if |xs| == 0 then Finite(0.0)
    else if |xs| > 1 then NaN
    else
      match xs[0]
      case Undefined => Finite(0.0)
      case Null => Finite(0.0)
      case Bool(_) => NaN
      case Num(n) => n
      case Str(s) => ToNumber(s)
      case Arr(ys) => ArrayToNumber(ys)
      case Obj(_) => NaN
  }

  /** `parseFloat(s)`: the longest decimal-literal prefix after leading whitespace. */
  function ParseFloat(s: string): Number {
    var t := TrimStart(s);
    LongestDecimalPrefix(t, |t|)
  }

  /** The value of the longest prefix of `t[..n]` that is a decimal literal, NaN if none is. */
  function LongestDecimalPrefix(t: string, n: nat): Number
    requires n <= |t|
  {
    if n == 0 then NaN
    else
      match Decimal(t[..n])
      case Some(x) => x
      case None => LongestDecimalPrefix(t, n - 1)
  }

  /**
   * `parseFloat(v)` for any value: a number is returned as it is; anything
   * else is read through its text (`"true"`, `"null"`, `"undefined"` and
   * `"[object Object]"` have no decimal prefix; an array's text starts with
   * its first element's text and a comma cannot extend a decimal prefix).
   */
  function ParseFloatValue(v: Value): Number {
    match v
    case Num(n) => n
    case Str(s) => ParseFloat(s)
    case Arr(xs) => if xs == [] then NaN else ParseFloatValue(xs[0])
    case _ => NaN
  }

  /**
   * `parseInt(s)` with no radix: leading whitespace, an optional sign, a
   * `0x`/`0X` prefix selects base 16, then the longest run of digits. None
   * stands for NaN (no digit at all).
   */
  function ParseInt(s: string): (r: Option<int>)
    ensures TrimStart(s) == [] ==> r.None?
  {
    var t := TrimStart(s);
    var signed := t != [] && (t[0] == '-' || t[0] == '+');
    var sign := if t != [] && t[0] == '-' then -1 else 1;
    var u := if signed then t[1..] else t;
    var hex := |u| >= 2 && u[0] == '0' && (u[1] == 'x' || u[1] == 'X');
    var radix := if hex then 16 else 10;
    var body := if hex then u[2..] else u;
    var k := DigitPrefix(body, radix);
    if k == 0 then None else Some(sign * DigitsValue(body[..k], radix))
  }

  /** `parseInt` reads a plain decimal digit string in full (leading zeros included). */
  lemma ParseIntOfDigits(s: string)
    requires s != [] && AllDigits(s, 10)
    ensures ParseInt(s) == Some(DigitsValue(s, 10))
  {
    assert DigitValue(s[0]) < 10;
    assert TrimStart(s) == s;
    assert !(|s| >= 2 && s[0] == '0' && (s[1] == 'x' || s[1] == 'X')) by {
      if |s| >= 2 { assert DigitValue(s[1]) < 10; }
    }
    var k := DigitPrefix(s, 10);
    assert k == |s|;
    assert s[..k] == s;
  }

  /** `parseInt` reads back the decimal text of a natural number. */
  lemma ParseIntOfNatToString(n: nat)
    ensures ParseInt(NatToString(n)) == Some(n)
  {
    ParseIntOfDigits(NatToString(n));
    NatToStringRoundTrip(n);
  }

  /** A digit string has no whitespace to trim. */
  lemma TrimDigits(s: string)
    requires s != [] && AllDigits(s, 10)
    ensures Trim(s) == s
  {
    assert DigitValue(s[0]) < 10 && DigitValue(s[|s| - 1]) < 10;
    TrimUntouched(s);
  }

  /** A digit string has no exponent and no fraction. */
  lemma NoMarkersInDigits(s: string)
    requires AllDigits(s, 10)
    ensures IndexOfEither(s, 'e', 'E') == |s| && IndexOfEither(s, '.', '.') == |s|
  {
    var k := IndexOfEither(s, 'e', 'E');
    var d := IndexOfEither(s, '.', '.');
    assert k < |s| ==> DigitValue(s[k]) < 10;
    assert d < |s| ==> DigitValue(s[d]) < 10;
  }

  /** A digit string is an unsigned decimal literal with its digits' value. */
  lemma DecimalOfDigits(s: string)
    requires s != [] && AllDigits(s, 10)
    ensures Decimal(s) == Some(Finite(DigitsValue(s, 10) as real))
  {
    assert DigitValue(s[0]) < 10;
    assert s != "Infinity" by {
      assert "Infinity"[0] == 'I';
    }
    NoMarkersInDigits(s);
    assert s[..|s|] == s;
    assert Mantissa(s) == Some(DigitsValue(s, 10) as real);
  }

  /** `Number` reads back the decimal text of a natural number (the numeric-string coercion). */
  lemma ToNumberOfNatToString(n: nat)
    ensures ToNumber(NatToString(n)) == Finite(n as real)
  {
    var s := NatToString(n);
    TrimDigits(s);
    assert |s| >= 2 ==> DigitValue(s[1]) < 10;
    DecimalOfDigits(s);
    NatToStringRoundTrip(n);
  }

  /** `parseFloat` reads back the decimal text of a natural number. */
  lemma ParseFloatOfNatToString(n: nat)
    ensures ParseFloat(NatToString(n)) == Finite(n as real)
  {
    var s := NatToString(n);
    assert DigitValue(s[0]) < 10;
    DecimalOfDigits(s);
    NatToStringRoundTrip(n);
    ParseFloatOfLiteral(s, n as real);
  }

  /** `parseFloat` reads a decimal fraction, digits on both sides of the point at `k`, as its exact value. */
  lemma ParseFloatOfFraction(s: string, k: nat)
    requires 0 < k < |s| - 1 && s[k] == '.' && AllDigits(s[..k], 10) && AllDigits(s[k + 1..], 10)
    ensures ParseFloat(s) == Finite(FractionValue(s[..k], s[k + 1..]))
  {
    FractionMarkers(s, k);
    FractionMantissa(s, k);
    FractionLiteral(s);
    ParseFloatOfLiteral(s, FractionValue(s[..k], s[k + 1..]));
  }

  /** A whole literal with a digit in front is read by `parseFloat` as its value. */
  lemma ParseFloatOfLiteral(s: string, x: real)
    requires s != [] && DigitValue(s[0]) < 10 && Decimal(s) == Some(Finite(x))
    ensures ParseFloat(s) == Finite(x)
  {
    ParseFloatUntrimmed(s);
    WholePrefix(s, x);
  }

  /** With no leading whitespace, `parseFloat` looks at prefixes of the text itself. */
  lemma ParseFloatUntrimmed(s: string)
    requires s != [] && !IsWhitespace(s[0])
    ensures ParseFloat(s) == LongestDecimalPrefix(s, |s|)
  {
  }

  /** The longest literal prefix of a whole literal is the literal. */
  lemma WholePrefix(s: string, x: real)
    requires s != [] && Decimal(s) == Some(Finite(x))
    ensures LongestDecimalPrefix(s, |s|) == Finite(x)
  {
    assert s[..|s|] == s;
  }

  /** `parseFloat` skips leading whitespace. */
  lemma ParseFloatSkipsBlank(s: string)
    ensures ParseFloat(" " + s) == ParseFloat(s)
  {
    assert (" " + s)[1..] == s;
  }

  /** What `Number` reads from text with nothing to trim and no radix prefix. */
  lemma ToNumberOfDecimal(t: string)
    requires t != [] && !IsWhitespace(t[0]) && !IsWhitespace(t[|t| - 1]) && RadixPrefix(t) == 0
    ensures ToNumber(t) == if Decimal(t).Some? then Decimal(t).value else NaN
  {
    TrimUntouched(t);
  }

  /** A leading `-` negates what `Number` reads, and a leading `+` changes nothing. */
  lemma ToNumberSigned(s: string)
    requires s != [] && !IsWhitespace(s[0]) && !IsWhitespace(s[|s| - 1])
    requires s[0] != '-' && s[0] != '+' && RadixPrefix(s) == 0
    ensures ToNumber("-" + s) == Negate(ToNumber(s))
    ensures ToNumber("+" + s) == ToNumber(s)
  {
    ToNumberOfDecimal(s);
    assert Decimal(s) == UnsignedDecimal(s);
    var m, p := "-" + s, "+" + s;
    assert m[0] == '-' && p[0] == '+';
    assert m[|m| - 1] == s[|s| - 1] && p[|p| - 1] == s[|s| - 1];
    ToNumberOfDecimal(m);
    ToNumberOfDecimal(p);
    assert m[1..] == s && p[1..] == s;
    assert Decimal(m) == if UnsignedDecimal(s).None? then None else Some(Negate(UnsignedDecimal(s).value));
    assert Decimal(p) == UnsignedDecimal(s);
  }

  /** `Number` reads `Infinity` with either sign. */
  lemma ToNumberOfInfinity(s: string)
    requires s == "Infinity"
    ensures ToNumber(s) == PosInf
    ensures ToNumber("-" + s) == NegInf
  {
    assert s[0] == 'I' && s[|s| - 1] == 'y';
    assert UnsignedDecimal(s) == Some(PosInf);
    ToNumberSigned(s);
    ToNumberOfDecimal(s);
  }

  /** `Number` reads a decimal fraction, digits on both sides of the point at `k`, as its exact value. */
  lemma ToNumberOfFraction(s: string, k: nat)
    requires 0 < k < |s| - 1 && s[k] == '.' && AllDigits(s[..k], 10) && AllDigits(s[k + 1..], 10)
    ensures ToNumber(s) == Finite(FractionValue(s[..k], s[k + 1..]))
  {
    FractionMarkers(s, k);
    FractionMantissa(s, k);
    FractionReads(s, FractionValue(s[..k], s[k + 1..]));
  }

  /** Such a literal, free of blanks at both ends and of a radix prefix, is read by `Number` as its mantissa. */
  lemma FractionReads(s: string, x: real)
    requires s != [] && DigitValue(s[0]) < 10 && DigitValue(s[|s| - 1]) < 10 && RadixPrefix(s) == 0
    requires IndexOfEither(s, 'e', 'E') == |s| && Mantissa(s) == Some(x)
    ensures ToNumber(s) == Finite(x)
  {
    FractionLiteral(s);
    ToNumberOfDecimal(s);
  }

  /** A literal without exponent, sign or `Infinity` reads as its mantissa. */
  lemma FractionLiteral(s: string)
    requires s != [] && DigitValue(s[0]) < 10 && IndexOfEither(s, 'e', 'E') == |s| && Mantissa(s).Some?
    ensures Decimal(s) == Some(Finite(Mantissa(s).value))
  {
    assert s[..|s|] == s;
    assert s != "Infinity" by { assert "Infinity"[0] == 'I'; }
  }

  /** The mantissa of a fraction whose point is at `k` is its value. */
  lemma FractionMantissa(s: string, k: nat)
    requires 0 < k < |s| - 1 && AllDigits(s[..k], 10) && AllDigits(s[k + 1..], 10)
    requires IndexOfEither(s, '.', '.') == k
    ensures Mantissa(s) == Some(FractionValue(s[..k], s[k + 1..]))
  {
  }

  /** In a fraction the only marker is its point, and its ends are digits. */
  lemma FractionMarkers(s: string, k: nat)
    requires 0 < k < |s| - 1 && s[k] == '.' && AllDigits(s[..k], 10) && AllDigits(s[k + 1..], 10)
    ensures IndexOfEither(s, 'e', 'E') == |s| && IndexOfEither(s, '.', '.') == k
    ensures DigitValue(s[0]) < 10 && DigitValue(s[|s| - 1]) < 10 && RadixPrefix(s) == 0
  {
    assert forall j :: 0 <= j < k ==> s[j] == s[..k][j];
    assert forall j :: k < j < |s| ==> s[j] == s[k + 1..][j - k - 1];
    assert forall j :: 0 <= j < |s| && j != k ==> DigitValue(s[j]) < 10;
    assert s[1] == '.' || DigitValue(s[1]) < 10;
  }

  // ------------------------------------------------------------ arithmetic

  /** `a + b` on JavaScript numbers (without rounding). */
  function Add(a: Number, b: Number): Number {
    match (a, b)
    case (Finite(x), Finite(y)) => Finite(x + y)
    case (NaN, _) => NaN
    case (_, NaN) => NaN
    case (PosInf, NegInf) => NaN
    case (NegInf, PosInf) => NaN
    case (PosInf, _) => PosInf
    case (NegInf, _) => NegInf
    case (_, _) => b
  }

  /** `a - b` */
  function Sub(a: Number, b: Number): Number {
    Add(a, Negate(b))
  }

  /** `a * b` on JavaScript numbers (without rounding). */
  function Mul(a: Number, b: Number): Number {
    match (a, b)
    case (Finite(x), Finite(y)) => Finite(x * y)
    case (NaN, _) => NaN
    case (_, NaN) => NaN
    case (Finite(x), _) => if x == 0.0 then NaN else if x > 0.0 then b else Negate(b)
    case (_, Finite(y)) => if y == 0.0 then NaN else if y > 0.0 then a else Negate(a)
    case (_, _) => if a == b then PosInf else NegInf
  }

  /** `a < b`; every comparison with NaN is false. */
  predicate Less(a: Number, b: Number) {
    match (a, b)
    case (Finite(x), Finite(y)) => x < y
    case (NegInf, PosInf) => true
    case (NegInf, Finite(_)) => true
    case (Finite(_), PosInf) => true
    case (_, _) => false
  }

  /** `a >= b`; false when either side is NaN. */
  predicate AtLeast(a: Number, b: Number) {
    !a.NaN? && !b.NaN? && !Less(a, b)
  }
}
