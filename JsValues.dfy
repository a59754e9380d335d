/**
  The slice of JavaScript's value semantics the product service relies on:
  the values a loosely typed request body or store record can hold, the
  `Number(v)` coercion, truthiness (what `||` and `if (v)` test) and
  `String.prototype.trim`.
 */
module JsValues {

  import opened Wrappers

  /** A JavaScript number, kept exact: NaN, a finite value, or an infinity. */
  datatype JsNumber = NaN | Fin(value: real) | PosInf | NegInf

  /**
    A JavaScript value. `Object` stands for objects, arrays and functions:
    they are always truthy and never strings; `asNumber` is what `Number(v)`
    yields for that object through its `valueOf`/`toString`.
   */
  datatype JsValue =
    | Undefined
    | Null
    | Bool(b: bool)
    | Num(n: JsNumber)
    | Str(s: string)
    | Object(asNumber: JsNumber)

  /** A plain object: property name to value. */
  type JsObject = map<string, JsValue>

  /** Property read `o.key`: a missing property reads as `undefined`. */
  function Get(o: JsObject, key: string): (v: JsValue)
    ensures key !in o ==> v == Undefined
    ensures key in o ==> v == o[key]
  {
    if key in o then o[key] else Undefined
  }

  /** What `if (v)` and `v || d` take to be true. */
  predicate Truthy(v: JsValue) {
    match v
    case Undefined => false
    case Null => false
    case Bool(b) => b
    case Num(n) => n != NaN && n != Fin(0.0)
    case Str(s) => s != ""
    case Object(_) => true
  }

  /** `v || d` */
  function Or(v: JsValue, d: JsValue): (r: JsValue)
    ensures Truthy(v) ==> r == v
    ensures !Truthy(v) ==> r == d
  {
    if Truthy(v) then v else d
  }

  predicate IsNegative(n: JsNumber) {
    n == NegInf || (n.Fin? && n.value < 0.0)
  }

  predicate IsNonPositive(n: JsNumber) {
    n == NegInf || (n.Fin? && n.value <= 0.0)
  }

  /** `Number(v)` */
  function ToNumber(v: JsValue): (n: JsNumber) {
    match v
    case Undefined => NaN
    case Null => Fin(0.0)
    case Bool(b) => if b then Fin(1.0) else Fin(0.0)
    case Num(n) => n
    case Str(s) => StringToNumber(s)
    case Object(n) => n
  }

  // ---------------------------------------------------------------------
  // Whitespace and trim
  // ---------------------------------------------------------------------

  /** ECMAScript WhiteSpace and LineTerminator code points, which `trim` removes. */
  predicate IsWhiteSpace(c: char) {
    c == '\t' || c == '\n' || c == '\U{000B}' || c == '\U{000C}' || c == '\r' ||
    c == ' ' || c == '\U{00A0}' || c == '\U{1680}' ||
    ('\U{2000}' <= c <= '\U{200A}') ||
    c == '\U{2028}' || c == '\U{2029}' || c == '\U{202F}' || c == '\U{205F}' ||
    c == '\U{3000}' || c == '\U{FEFF}'
  }

  predicate AllWhiteSpace(s: string) {
    forall i :: 0 <= i < |s| ==> IsWhiteSpace(s[i])
  }

  /** Drops leading whitespace. */
  function TrimStart(s: string): (r: string) {
    if s != [] && IsWhiteSpace(s[0]) then TrimStart(s[1..]) else s
  }

  /** `TrimStart(s)` is the suffix of `s` after its whitespace prefix. */
  lemma {:induction false} TrimStartSpec(s: string)
    ensures var r := TrimStart(s);
      |r| <= |s| && r == s[|s| - |r|..] && AllWhiteSpace(s[..|s| - |r|]) &&
      (r == [] || !IsWhiteSpace(r[0]))
  {
    if s != [] && IsWhiteSpace(s[0]) {
      TrimStartSpec(s[1..]);
      var r := TrimStart(s[1..]);
      assert s[..|s| - |r|] == [s[0]] + s[1..][..|s[1..]| - |r|];
    }
  }

  /** Drops trailing whitespace. */
  function TrimEnd(s: string): (r: string) {
    if s != [] && IsWhiteSpace(s[|s| - 1]) then TrimEnd(s[..|s| - 1]) else s
  }

  /** `TrimEnd(s)` is the prefix of `s` before its whitespace suffix. */
  lemma {:induction false} TrimEndSpec(s: string)
    ensures var r := TrimEnd(s);
      |r| <= |s| && r == s[..|r|] && AllWhiteSpace(s[|r|..]) &&
      (r == [] || !IsWhiteSpace(r[|r| - 1]))
  {
    if s != [] && IsWhiteSpace(s[|s| - 1]) {
      TrimEndSpec(s[..|s| - 1]);
      var r := TrimEnd(s[..|s| - 1]);
      assert s[|r|..] == s[..|s| - 1][|r|..] + [s[|s| - 1]];
    }
  }

  /** `s.trim()` */
  function Trim(s: string): (r: string) {
    TrimEnd(TrimStart(s))
  }

  /**
    The trimmed string is `s` with a whitespace prefix and a whitespace
    suffix cut off; it is no longer than `s`, is empty exactly when `s` is
    all whitespace, and otherwise starts and ends with a non-whitespace character.
   */
  lemma TrimSpec(s: string)
    ensures exists i, j :: 0 <= i <= j <= |s| && Trim(s) == s[i..j] && AllWhiteSpace(s[..i]) && AllWhiteSpace(s[j..])
    ensures |Trim(s)| <= |s|
    ensures Trim(s) == [] <==> AllWhiteSpace(s)
    ensures Trim(s) != [] ==> !IsWhiteSpace(Trim(s)[0]) && !IsWhiteSpace(Trim(s)[|Trim(s)| - 1])
  {
    var t := TrimStart(s);
    var r := TrimEnd(t);
    TrimStartSpec(s);
    TrimEndSpec(t);
    var k := |s| - |t|;
    assert r == s[k..k + |r|];
    assert t[|r|..] == s[k + |r|..];
    if r == [] {
      assert t[|r|..] == t;
      assert t == [];
      assert s[..k] == s;
    } else {
      assert r[0] == t[0] == s[k];
    }
  }

  // ---------------------------------------------------------------------
  // Number(string): the StringNumericLiteral grammar of ECMAScript
  // ---------------------------------------------------------------------

  /** Value of a digit character in bases up to 16; 16 for anything else. */
  function DigitValue(c: char): (d: nat)
    ensures d <= 16
  {
    if '0' <= c <= '9' then (c as int - '0' as int)
    else if 'a' <= c <= 'f' then (c as int - 'a' as int) + 10
    else if 'A' <= c <= 'F' then (c as int - 'A' as int) + 10
    else 16
  }

  predicate AllDigits(s: string, base: nat) {
    forall i :: 0 <= i < |s| ==> DigitValue(s[i]) < base
  }

  /** The value of a digit string read in `base`, most significant digit first. */
  function DigitsValue(s: string, base: nat): (v: nat)
    requires AllDigits(s, base)
  {
    if s == [] then 0 else DigitsValue(s[..|s| - 1], base) * base + DigitValue(s[|s| - 1])
  }

  function Pow10(e: nat): (p: real)
    ensures p >= 1.0
  {
    if e == 0 then 1.0 else 10.0 * Pow10(e - 1)
  }

  /** Index of the first character of `s` equal to `a` or `b`, or `|s|` when there is none. */
  function IndexOfEither(s: string, a: char, b: char): (i: nat)
    ensures i <= |s|
  {
    if s == [] then 0
    else if s[0] == a || s[0] == b then 0
    else 1 + IndexOfEither(s[1..], a, b)
  }

  /** A SignedInteger of an exponent part, or None when malformed. */
  function ExponentValue(s: string): (e: Option<int>) {
    if |s| > 0 && (s[0] == '+' || s[0] == '-') then
      var digits := s[1..];
      if digits != [] && AllDigits(digits, 10) then
        var magnitude: int := DigitsValue(digits, 10);
        Some(if s[0] == '-' then -magnitude else magnitude)
      else None
    else if s != [] && AllDigits(s, 10) then Some(DigitsValue(s, 10))
    else None
  }

  /** StrUnsignedDecimalLiteral: `Infinity`, or digits with an optional fraction and exponent. */
  function UnsignedDecimal(s: string): (n: JsNumber) {
    if s == "Infinity" then PosInf
    else
      var e := IndexOfEither(s, 'e', 'E');
      var mantissa := s[..e];
      var exponent := if e < |s| then ExponentValue(s[e + 1..]) else Some(0);
      // The decimal point is a single character: searching for "either '.' or '.'" finds it.
      var dot := IndexOfEither(mantissa, '.', '.');
      var whole := mantissa[..dot];
      var fraction := if dot < |mantissa| then mantissa[dot + 1..] else "";
      if (whole != [] || fraction != []) && AllDigits(whole, 10) && AllDigits(fraction, 10) && exponent.Some? then
        var magnitude := DigitsValue(whole, 10) as real + DigitsValue(fraction, 10) as real / Pow10(|fraction|);
        var x := exponent.value;
        Fin(if x >= 0 then magnitude * Pow10(x) else magnitude / Pow10(-x))
      else NaN
  }

  function Negate(n: JsNumber): (r: JsNumber) {
    match n
    case NaN => NaN
    case Fin(x) => Fin(-x)
    case PosInf => NegInf
    case NegInf => PosInf
  }

  /** NonDecimalIntegerLiteral after its `0x`/`0o`/`0b` prefix. */
  function NonDecimal(s: string, base: nat): (n: JsNumber) {
    if s != [] && AllDigits(s, base) then Fin(DigitsValue(s, base) as real) else NaN
  }

  /** `Number(s)` for a string `s`: blank strings give 0, anything unparsable NaN. */
  function StringToNumber(s: string): (n: JsNumber) {
    var t := Trim(s);
    if t == "" then Fin(0.0)
    else if |t| >= 2 && t[0] == '0' && (t[1] == 'x' || t[1] == 'X') then NonDecimal(t[2..], 16)
    else if |t| >= 2 && t[0] == '0' && (t[1] == 'o' || t[1] == 'O') then NonDecimal(t[2..], 8)
    else if |t| >= 2 && t[0] == '0' && (t[1] == 'b' || t[1] == 'B') then NonDecimal(t[2..], 2)
    else if t[0] == '+' then UnsignedDecimal(t[1..])
    else if t[0] == '-' then Negate(UnsignedDecimal(t[1..]))
    else UnsignedDecimal(t)
  }

  /** `Number(v)` is 0 for `null` and for any blank string, and NaN for `undefined`. */
  lemma ToNumberFacts(v: JsValue)
    ensures v == Undefined ==> ToNumber(v) == NaN
    ensures v == Null ==> ToNumber(v) == Fin(0.0)
    ensures v.Str? && AllWhiteSpace(v.s) ==> ToNumber(v) == Fin(0.0)
  {
    if v.Str? && AllWhiteSpace(v.s) {
      TrimSpec(v.s);
    }
  }
}
