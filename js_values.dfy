/** The values a request field can hold once the body has been parsed: any JSON
    value, or `undefined` for a field the body does not carry. Two pieces of
    JavaScript semantics matter to the handlers: truthiness (the `!x` tests) and
    the conversion of a value to a property key (`devices[deviceId]`). */
module JsValues {

  /** A parsed JSON value, plus `Undefined` for an absent field. Numbers are
      integers here; the members of an object play no part in either truthiness
      or the key of a plain object, so `Obj` carries none. */
  datatype JsValue =
    | Undefined
    | Null
    | Bool(b: bool)
    | Num(n: int)
    | Str(s: string)
    | Arr(elems: seq<JsValue>)
    | Obj

  /** JavaScript's ToBoolean: what `!v` negates. */
  predicate Truthy(v: JsValue) {
    match v
    case Undefined => false
    case Null => false
    case Bool(b) => b
    case Num(n) => n != 0
    case Str(s) => s != ""
    case Arr(_) => true
    case Obj => true
  }

  predicate IsDigit(c: char) {
    '0' <= c <= '9'
  }

  predicate AllDigits(s: string) {
    forall i :: 0 <= i < |s| ==> IsDigit(s[i])
  }

  function DigitChar(d: nat): (c: char)
    requires d < 10
    ensures IsDigit(c) && c as int - '0' as int == d
  {
    (d + '0' as int) as char
  }

  /** The decimal digits of `n`, most significant first, without leading zeros. */
  function NatToDecimal(n: nat): (s: string)
    ensures |s| > 0 && AllDigits(s)
    ensures |s| > 1 ==> s[0] != '0'
    ensures s[0] == '0' ==> n == 0
    decreases n
  {
    if n < 10 then [DigitChar(n)] else NatToDecimal(n / 10) + [DigitChar(n % 10)]
  }

  /** Number::toString for an integer: an optional minus sign, then the digits. */
  function IntToDecimal(n: int): (s: string)
    ensures |s| > 0
    ensures n < 0 <==> s[0] == '-'
    ensures n == 0 <==> s == "0"
  {
    if n < 0 then "-" + NatToDecimal(-n) else NatToDecimal(n)
  }

  /** Reads a string of decimal digits back as a natural number. */
  function ParseNat(s: string): nat
    requires AllDigits(s)
  {
    if s == [] then 0
    else ParseNat(s[..|s| - 1]) * 10 + (s[|s| - 1] as int - '0' as int)
  }

  /** Reads back what IntToDecimal writes; anything else reads as 0. */
  function ParseInt(s: string): int {
    if |s| > 0 && s[0] == '-' && AllDigits(s[1..]) then -(ParseNat(s[1..]) as int)
    else if AllDigits(s) then ParseNat(s)
    else 0
  }

  lemma {:induction false} NatDecimalRoundTrip(n: nat)
    ensures ParseNat(NatToDecimal(n)) == n
    decreases n
  {
    if n >= 10 {
      var s := NatToDecimal(n);
      assert s[..|s| - 1] == NatToDecimal(n / 10);
      NatDecimalRoundTrip(n / 10);
    }
  }

  lemma IntDecimalRoundTrip(n: int)
    ensures ParseInt(IntToDecimal(n)) == n
  {
    if n < 0 {
      var s := IntToDecimal(n);
      assert s[1..] == NatToDecimal(-n);
      NatDecimalRoundTrip(-n);
    } else {
      NatDecimalRoundTrip(n);
    }
  }

  /** Two different numeric device ids never name the same device. */
  lemma DecimalInjective(m: int, n: int)
    ensures IntToDecimal(m) == IntToDecimal(n) ==> m == n
  {
    IntDecimalRoundTrip(m);
    IntDecimalRoundTrip(n);
  }

  /** ToPropertyKey(v), that is String(v) for the values a JSON body holds:
      strings as they are, numbers in decimal, arrays as the comma-joined keys of
      their elements (with `null` and `undefined` elements as empty strings), and
      a plain object as "[object Object]". */
  function ToKey(v: JsValue): (k: string)
    ensures v.Str? ==> k == v.s
    ensures v.Num? ==> ParseInt(k) == v.n
    ensures Truthy(v) && !v.Arr? ==> k != ""
    decreases v, 1
  {
    match v
    case Undefined => "undefined"
    case Null => "null"
    case Bool(b) => if b then "true" else "false"
    case Num(n) => IntDecimalRoundTrip(n); IntToDecimal(n)
    case Str(s) => s
    case Arr(elems) => JoinKeys(v, 0)
    case Obj => "[object Object]"
  }

  /** Array.prototype.join(",") over the elements of `arr` from index `from` on. */
  function JoinKeys(arr: JsValue, from: nat): string
    requires arr.Arr? && from <= |arr.elems|
    decreases arr, 0, |arr.elems| - from
  {
    if from == |arr.elems| then ""
    else
      var e := arr.elems[from];
      var part := if e.Null? || e.Undefined? then "" else ToKey(e);
      if from + 1 == |arr.elems| then part else part + "," + JoinKeys(arr, from + 1)
  }
}
