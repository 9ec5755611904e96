/**
 The JavaScript values that reach the server's handlers from a parsed JSON
 request body or a parsed JSON store file, and the three operations on them
 that the handlers rely on: truthiness (`!x`), logical or (`a || b`) and
 strict equality (`a === b`), plus the string conversion a template literal
 applies (`${x}`).
 */
module JsValue {

  /** A JSON-derived value. Numbers are integral here; `Object` stands for any
      object or array, whose contents never matter to the handlers. */
  datatype Value =
    | Undefined
    | Null
    | Bool(b: bool)
    | Num(n: int)
    | Str(s: string)
    | Object

  /** JavaScript truthiness: `undefined`, `null`, `false`, `0` and `""` are falsy. */
  function Truthy(v: Value): (b: bool)
    ensures !b <==> v in {Undefined, Null, Bool(false), Num(0), Str("")}
  {
    match v
    case Undefined => false
    case Null => false
    case Bool(b) => b
    case Num(n) => n != 0
    case Str(s) => s != ""
    case Object => true
  }

  /** `a || b` yields one of its operands: the left one when it is truthy. */
  function Or(a: Value, b: Value): (r: Value)
    ensures Truthy(r) <==> Truthy(a) || Truthy(b)
    ensures Truthy(a) ==> r == a
    ensures !Truthy(a) ==> r == b
  {
    if Truthy(a) then a else b
  }

  /** `a === b`. Two objects are equal only when they are the same reference,
      and no two values read from separate JSON parses share one. */
  predicate StrictEquals(a: Value, b: Value) {
    match (a, b)
    case (Undefined, Undefined) => true
    case (Null, Null) => true
    case (Bool(x), Bool(y)) => x == y
    case (Num(x), Num(y)) => x == y
    case (Str(x), Str(y)) => x == y
    case _ => false
  }

  /** Strict equality is structural equality on every value except objects. */
  lemma StrictEqualsIsEquality(a: Value, b: Value)
    ensures StrictEquals(a, b) <==> a == b && !a.Object?
  {
  }

  predicate IsDigit(c: char) {
    '0' <= c <= '9'
  }

  function DigitChar(d: nat): (c: char)
    requires d < 10
    ensures IsDigit(c)
    ensures c as int - '0' as int == d
  {
    "0123456789"[d]
  }

  /** The canonical decimal spelling of a natural number. */
  function NatToDecimal(n: nat): (r: string)
    ensures |r| >= 1
    ensures forall i :: 0 <= i < |r| ==> IsDigit(r[i])
    ensures r[0] == '0' ==> r == "0" && n == 0
  {
    if n < 10 then [DigitChar(n)] else NatToDecimal(n / 10) + [DigitChar(n % 10)]
  }

  /** The value of a string of decimal digits. */
  function DecimalValue(s: string): nat
    requires forall i :: 0 <= i < |s| ==> IsDigit(s[i])
  {
    if |s| == 0 then 0
    else DecimalValue(s[..|s| - 1]) * 10 + DigitValue(s[|s| - 1])
  }

  function DigitValue(c: char): nat
    requires IsDigit(c)
  {
    c as int - '0' as int
  }

  lemma {:induction false} NatToDecimalRoundTrip(n: nat)
    ensures DecimalValue(NatToDecimal(n)) == n
    decreases n
  {
    if n >= 10 {
      var r := NatToDecimal(n);
      var prefix := NatToDecimal(n / 10);
      assert r[..|r| - 1] == prefix;
      NatToDecimalRoundTrip(n / 10);
    }
  }

  /** A string of digits, optionally preceded by a minus sign. */
  predicate IsIntSpelling(s: string) {
    && |s| >= 1
    && (s[0] == '-' ==> |s| >= 2)
    && forall i :: (if s[0] == '-' then 1 else 0) <= i < |s| ==> IsDigit(s[i])
  }

  /** A spelling without leading zeros: "0" is the only one starting with a zero,
      and no minus sign is followed by one. */
  predicate IsCanonical(s: string) {
    && |s| >= 1
    && (s[0] == '0' ==> s == "0")
    && (s[0] == '-' ==> |s| >= 2 && s[1] != '0')
  }

  /** How `String(n)` spells an integral number up to 2^53 in magnitude, where
      every integer is an exact double. */
  function IntToDecimal(n: int): (r: string)
    ensures IsIntSpelling(r) && IsCanonical(r)
    ensures n < 0 <==> r[0] == '-'
  {
    if n < 0 then "-" + NatToDecimal(-n) else NatToDecimal(n)
  }

  /** Reading back an integer spelling. */
  function ParseInt(s: string): int
    requires IsIntSpelling(s)
  {
    if s[0] == '-' then 0 - DecimalValue(s[1..]) else DecimalValue(s)
  }

  lemma IntToDecimalRoundTrip(n: int)
    ensures ParseInt(IntToDecimal(n)) == n
  {
    var r := IntToDecimal(n);
    if n < 0 {
      assert r[1..] == NatToDecimal(-n);
      NatToDecimalRoundTrip(-n);
    } else {
      NatToDecimalRoundTrip(n);
    }
  }

  /** `String(v)`, the conversion a template literal applies to `v`. */
  function ToString(v: Value): (r: string)
    ensures v.Str? ==> r == v.s
    ensures v.Num? ==> IsIntSpelling(r) && IsCanonical(r) && ParseInt(r) == v.n
    ensures v == Undefined ==> r == "undefined"
    ensures v == Null ==> r == "null"
    ensures v.Bool? ==> r == (if v.b then "true" else "false")
    ensures v == Object ==> r == "[object Object]"
  {
    match v
    case Undefined => "undefined"
    case Null => "null"
    case Bool(b) => if b then "true" else "false"
    case Num(n) => IntToDecimalRoundTrip(n); IntToDecimal(n)
    case Str(s) => s
    case Object => "[object Object]"
  }
}
