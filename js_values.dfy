/**
 * The JavaScript values the front end passes around (node parameters, stored
 * results, request bodies) and the few language operations the modelled code
 * relies on: truthiness, `a || b`, property reads, `Number(v)`, `String(v)`,
 * the `+` operator and `parseInt`.
 *
 * Numbers are exact reals plus NaN and the two infinities; IEEE rounding is
 * not modelled.
 */
module JsValues {

  import opened Wrappers

  datatype JsValue =
    | Undefined
    | Null
    | Bool(b: bool)
    | Num(n: real)
    | NaN
    | Infinity(negative: bool)
    | Str(s: string)
    | Arr(elems: seq<JsValue>)
    | Obj(props: map<string, JsValue>)

  /** JavaScript's ToBoolean. */
  predicate Truthy(v: JsValue) {
    match v
    case Undefined => false
    case Null => false
    case Bool(b) => b
    case Num(n) => n != 0.0
    case NaN => false
    case Infinity(_) => true
    case Str(s) => s != ""
    case Arr(_) => true
    case Obj(_) => true
  }

  /** `a || b`. */
  function Or(a: JsValue, b: JsValue): JsValue {
    if Truthy(a) then a else b
  }

  /** `v.key` on a value that is neither undefined nor null. Only own
      properties of objects are modelled; primitives and arrays have none. */
  function Get(v: JsValue, key: string): JsValue {
    if v.Obj? && key in v.props then v.props[key] else Undefined
  }

  /** `v?.[key]`. */
  function OptGet(v: JsValue, key: string): JsValue {
    if v == Undefined || v == Null then Undefined else Get(v, key)
  }

  /** `record[key]` on a record held as a map. */
  function Lookup(m: map<string, JsValue>, key: string): JsValue {
    if key in m then m[key] else Undefined
  }

  function EmptyObj(): JsValue {
    Obj(map[])
  }

  // ---------------------------------------------------------------------
  // Decimal digits

  predicate IsDigit(c: char) {
    '0' <= c <= '9'
  }

  predicate AllDigits(s: string) {
    forall i :: 0 <= i < |s| ==> IsDigit(s[i])
  }

  function DigitChar(d: nat): (c: char)
    requires d < 10
    ensures IsDigit(c)
  {
    "0123456789"[d]
  }

  function DigitValue(c: char): nat
    requires IsDigit(c)
  {
    (c as int - '0' as int) as nat
  }

  /** The decimal numeral of n, without leading zeros. */
  function NatToDecimal(n: nat): (s: string)
    ensures |s| > 0 && AllDigits(s)
  {
    if n < 10 then [DigitChar(n)] else NatToDecimal(n / 10) + [DigitChar(n % 10)]
  }

  /** The value of a string of decimal digits (0 for the empty string). */
  function DigitsValue(s: string): nat
    requires AllDigits(s)
  {
    if s == [] then 0 else DigitsValue(s[..|s| - 1]) * 10 + DigitValue(s[|s| - 1])
  }

  lemma {:induction false} DecimalRoundTrip(n: nat)
    ensures DigitsValue(NatToDecimal(n)) == n
  {
    var s := NatToDecimal(n);
    if n >= 10 {
      DecimalRoundTrip(n / 10);
      assert s[..|s| - 1] == NatToDecimal(n / 10);
    }
  }

  /** Distinct naturals have distinct numerals. */
  lemma NatToDecimalInjective(m: nat, n: nat)
    requires m != n
    ensures NatToDecimal(m) != NatToDecimal(n)
  {
    DecimalRoundTrip(m);
    DecimalRoundTrip(n);
  }

  function IntToDecimal(i: int): string {
    if i < 0 then "-" + NatToDecimal(-i) else NatToDecimal(i)
  }

  // ---------------------------------------------------------------------
  // String(v)

  /** Digits of a fraction in [0, 1), at most `budget` of them. */
  function FractionDigits(f: real, budget: nat): string
    requires 0.0 <= f < 1.0
    decreases budget
  {
    if f == 0.0 || budget == 0 then ""
    else
      var t := f * 10.0;
      var d := t.Floor;
      assert 0 <= d < 10;
      [DigitChar(d)] + FractionDigits(t - d as real, budget - 1)
  }

  function NonNegativeToString(r: real): string
    requires r >= 0.0
  {
    var whole := r.Floor;
    assert whole >= 0;
    var frac := r - whole as real;
    NatToDecimal(whole) + (if frac == 0.0 then "" else "." + FractionDigits(frac, 20))
  }

  /** Number-to-string: exact for integers and for short terminating fractions. */
  function NumberToString(r: real): string {
    if r < 0.0 then "-" + NonNegativeToString(-r) else NonNegativeToString(r)
  }

  function Join(parts: seq<string>, sep: string): string {
    if parts == [] then ""
    else if |parts| == 1 then parts[0]
    else parts[0] + sep + Join(parts[1..], sep)
  }

  /** JavaScript's ToString. Arrays join their elements with ',', writing
      undefined and null elements as empty strings. */
  function ToStr(v: JsValue): string {
    match v
    case Undefined => "undefined"
    case Null => "null"
    case Bool(b) => if b then "true" else "false"
    case Num(n) => NumberToString(n)
    case NaN => "NaN"
    case Infinity(neg) => if neg then "-Infinity" else "Infinity"
    case Str(s) => s
    case Arr(elems) =>
      Join(seq(|elems|, i requires 0 <= i < |elems| =>
                 if elems[i] == Undefined || elems[i] == Null then "" else ToStr(elems[i])), ",")
    case Obj(_) => "[object Object]"
  }

  // ---------------------------------------------------------------------
  // Number(v)

  predicate IsWhitespace(c: char) {
    c == ' ' || c == '\t' || c == '\n' || c == '\r' || c == '\U{B}' || c == '\U{C}'
  }

  function TrimStart(s: string): (r: string)
    ensures |r| <= |s|
    ensures r == [] || !IsWhitespace(r[0])
  {
    if s != [] && IsWhitespace(s[0]) then TrimStart(s[1..]) else s
  }

  function TrimEnd(s: string): (r: string)
    ensures |r| <= |s|
  {
    if s != [] && IsWhitespace(s[|s| - 1]) then TrimEnd(s[..|s| - 1]) else s
  }

  function Trim(s: string): string {
    TrimEnd(TrimStart(s))
  }

  function Pow10(k: nat): (p: nat)
    ensures p >= 1
  {
    if k == 0 then 1 else 10 * Pow10(k - 1)
  }

  /** The position of the first occurrence of c in s. */
  function IndexOf(s: string, c: char): (r: Option<nat>)
    ensures r.None? <==> c !in s
    ensures r.Some? ==> r.value < |s| && s[r.value] == c && c !in s[..r.value]
  {
    if s == [] then None
    else if s[0] == c then Some(0)
    else
      var rest := IndexOf(s[1..], c);
      assert s[0] != c && s == [s[0]] + s[1..];
      if rest.None? then None
      else
        assert s[..rest.value + 1] == [s[0]] + s[1..][..rest.value];
        Some(rest.value + 1)
  }

  /** An unsigned decimal literal `ddd`, `ddd.ddd`, `.ddd` or `ddd.` */
  function DecimalLiteralValue(u: string): Option<real> {
    match IndexOf(u, '.')
    case None =>
      if u != [] && AllDigits(u) then Some(DigitsValue(u) as real) else None
    case Some(p) =>
      var whole := u[..p];
      var frac := u[p + 1..];
      if (whole != [] || frac != []) && AllDigits(whole) && AllDigits(frac)
      then Some(DigitsValue(whole) as real + DigitsValue(frac) as real / Pow10(|frac|) as real)
      else None
  }

  function Negate(v: JsValue): JsValue {
    match v
    case Num(n) => Num(-n)
    case Infinity(neg) => Infinity(!neg)
    case _ => v
  }

  function UnsignedToNumber(u: string): JsValue {
    if u == "Infinity" then Infinity(false)
    else match DecimalLiteralValue(u)
      case Some(r) => Num(r)
      case None => NaN
  }

  /** Number(s) for a string s. */
  function StringToNumber(s: string): JsValue {
    var t := Trim(s);
    if t == "" then Num(0.0)
    else if t[0] == '-' then Negate(UnsignedToNumber(t[1..]))
    else if t[0] == '+' then UnsignedToNumber(t[1..])
    else UnsignedToNumber(t)
  }

  /** JavaScript's ToNumber, that is `Number(v)`. The result is always a number. */
  function ToNumber(v: JsValue): (r: JsValue)
    ensures r.Num? || r.NaN? || r.Infinity?
  {
    match v
    case Undefined => NaN
    case Null => Num(0.0)
    case Bool(b) => if b then Num(1.0) else Num(0.0)
    case Num(_) => v
    case NaN => NaN
    case Infinity(_) => v
    case Str(s) => StringToNumber(s)
    case Arr(_) => StringToNumber(ToStr(v))
    case Obj(_) => NaN
  }

  /** Addition of two JavaScript numbers. */
  function NumAdd(a: JsValue, b: JsValue): JsValue
    requires a.Num? || a.NaN? || a.Infinity?
    requires b.Num? || b.NaN? || b.Infinity?
  {
    if a.NaN? || b.NaN? then NaN
    else if a.Infinity? && b.Infinity? then (if a.negative == b.negative then a else NaN)
    else if a.Infinity? then a
    else if b.Infinity? then b
    else Num(a.n + b.n)
  }

  /** The `+` operator: string concatenation once either operand converts to
      a string primitive (strings, arrays, objects), numeric addition otherwise. */
  function Plus(a: JsValue, b: JsValue): (r: JsValue)
    ensures a.Num? && b.Num? ==> r == Num(a.n + b.n)
  {
    if a.Str? || a.Arr? || a.Obj? || b.Str? || b.Arr? || b.Obj? then Str(ToStr(a) + ToStr(b))
    else NumAdd(ToNumber(a), ToNumber(b))
  }

  /** The longest prefix of s made of decimal digits. */
  function DigitPrefix(s: string): (r: string)
    ensures |r| <= |s| && r == s[..|r|] && AllDigits(r)
    ensures |r| < |s| ==> !IsDigit(s[|r|])
  {
    if s != [] && IsDigit(s[0]) then [s[0]] + DigitPrefix(s[1..]) else []
  }

  /** `parseInt(s)` in base ten: leading whitespace, an optional sign and the
      longest run of digits that follows; NaN when there is no digit. */
  function ParseInt(s: string): (r: JsValue)
    ensures r.Num? || r.NaN?
    ensures r.Num? ==> r.n == r.n.Floor as real
  {
    var t := TrimStart(s);
    var neg := t != [] && t[0] == '-';
    var body := if t != [] && (t[0] == '-' || t[0] == '+') then t[1..] else t;
    var digits := DigitPrefix(body);
    var value: int := if neg then -(DigitsValue(digits) as int) else DigitsValue(digits) as int;
    if digits == [] then NaN
    else
      assert (value as real).Floor == value;
      Num(value as real)
  }

  /** parseInt of a string of digits, with or without a leading minus sign. */
  lemma ParseIntOfDigits(digits: string, negative: bool)
    requires digits != [] && AllDigits(digits)
    ensures ParseInt((if negative then "-" else "") + digits)
            == Num(if negative then -(DigitsValue(digits) as real) else DigitsValue(digits) as real)
  {
    var s := (if negative then "-" else "") + digits;
    assert s[0] == if negative then '-' else digits[0];
    assert TrimStart(s) == s;
    assert (if negative then s[1..] else s) == digits;
    DigitPrefixOfDigits(digits);
  }

  /** parseInt of a numeral, with or without a leading minus sign. */
  lemma ParseIntOfNumeral(n: nat, negative: bool)
    ensures ParseInt((if negative then "-" else "") + NatToDecimal(n))
            == Num(if negative then -(n as real) else n as real)
  {
    ParseIntOfDigits(NatToDecimal(n), negative);
    DecimalRoundTrip(n);
  }

  /** String(n) of a natural is its numeral. */
  lemma NaturalToString(n: nat)
    ensures NonNegativeToString(n as real) == NatToDecimal(n)
  {
    assert (n as real).Floor == n;
  }

  /** parseInt recovers every integer printed by String(i). */
  lemma ParseIntOfInteger(i: int)
    ensures ParseInt(NumberToString(i as real)) == Num(i as real)
  {
    if i < 0 {
      var n: nat := -i;
      assert -(i as real) == n as real;
      NaturalToString(n);
      assert NumberToString(i as real) == "-" + NatToDecimal(n);
      ParseIntOfNumeral(n, true);
      assert "-" + NatToDecimal(n) == (if true then "-" else "") + NatToDecimal(n);
    } else {
      var n: nat := i;
      NaturalToString(n);
      assert NumberToString(i as real) == NatToDecimal(n);
      ParseIntOfNumeral(n, false);
      assert NatToDecimal(n) == (if false then "-" else "") + NatToDecimal(n);
    }
  }

  lemma {:induction false} DigitPrefixOfDigits(s: string)
    requires AllDigits(s)
    ensures DigitPrefix(s) == s
  {
    if s != [] {
      DigitPrefixOfDigits(s[1..]);
    }
  }

  function StartsWith(s: string, prefix: string): bool {
    |prefix| <= |s| && s[..|prefix|] == prefix
  }
}
