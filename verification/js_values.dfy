/**
  The slice of JavaScript value semantics the handler relies on: truthiness
  (the `!x` and `x || d` tests) and string conversion (template-literal
  substitution `${x}` and property-key lookup `table[x]`).
  Numbers are modelled as integers; their string form is the decimal
  numeral, which is what JavaScript produces for an integral Number of
  magnitude below 2^53. String conversion of an object that has its own
  `toString` property throws.
 */
module JsValues {

  import opened Optional

  /** A value as it arrives in a parsed JSON request body, or `undefined`. */
  datatype JsValue =
    | Undefined
    | Null
    | Bool(b: bool)
    | Num(n: int)
    | Str(s: string)
    | Obj(ownToString: bool)  // a plain object; `ownToString` when it has its own `toString` property

  /** JavaScript truthiness (ToBoolean) of a value. */
  predicate Truthy(v: JsValue) {
    match v
    case Undefined => false
    case Null => false
    case Bool(b) => b
    case Num(n) => n != 0
    case Str(s) => s != ""
    case Obj(_) => true
  }

  predicate IsDigit(c: char) {
    '0' <= c <= '9'
  }

  predicate AllDigits(s: string) {
    forall i :: 0 <= i < |s| ==> IsDigit(s[i])
  }

  /** A numeral in canonical form: non-empty digits, no leading zero unless it is "0". */
  predicate Canonical(s: string) {
    |s| > 0 && AllDigits(s) && (|s| > 1 ==> s[0] != '0')
  }

  function DigitChar(d: nat): (c: char)
    requires d < 10
    ensures IsDigit(c)
  {
    ('0' as int + d) as char
  }

  function DigitValue(c: char): (d: nat)
    requires IsDigit(c)
    ensures d < 10
  {
    c as int - '0' as int
  }

  /** The decimal numeral of a natural number. */
  function Digits(n: nat): (s: string)
    ensures Canonical(s)
    ensures n == 0 <==> s == "0"
    decreases n
  {
    if n < 10 then [DigitChar(n)]
    else
      var p := Digits(n / 10);
      p + [DigitChar(n % 10)]
  }

  /** The value of a string of decimal digits (the inverse of Digits). */
  function ParseDigits(s: string): nat
    requires AllDigits(s)
  {
    if |s| == 0 then 0
    else ParseDigits(s[..|s| - 1]) * 10 + DigitValue(s[|s| - 1])
  }

  /** Reading back the numeral of `n` gives `n`. */
  lemma {:induction false} ParseDigitsOfDigits(n: nat)
    ensures ParseDigits(Digits(n)) == n
    decreases n
  {
    var s := Digits(n);
    if n >= 10 {
      var p := Digits(n / 10);
      assert s[..|s| - 1] == p;
      ParseDigitsOfDigits(n / 10);
    }
  }

  /** A canonical numeral with a non-zero leading digit denotes a positive number. */
  lemma {:induction false} ParseDigitsPositive(s: string)
    requires |s| > 0 && AllDigits(s) && s[0] != '0'
    ensures ParseDigits(s) > 0
    decreases |s|
  {
    if |s| > 1 {
      var p := s[..|s| - 1];
      assert p[0] == s[0];
      ParseDigitsPositive(p);
    }
  }

  /** Every canonical numeral is the numeral of its own value. */
  lemma {:induction false} DigitsOfParseDigits(s: string)
    requires Canonical(s)
    ensures Digits(ParseDigits(s)) == s
    decreases |s|
  {
    var last := s[|s| - 1];
    assert DigitChar(DigitValue(last)) == last;
    if |s| > 1 {
      var p := s[..|s| - 1];
      assert p[0] == s[0];
      ParseDigitsPositive(p);
      DigitsOfParseDigits(p);
      var n := ParseDigits(s);
      assert n / 10 == ParseDigits(p) && n % 10 == DigitValue(last);
      assert s == p + [last];
    }
  }

  /** The string form of an integral Number. */
  function IntToString(i: int): string {
    if i < 0 then "-" + Digits(-i) else Digits(i)
  }

  /** Reads an optionally signed decimal numeral; None when it is not one. */
  function ParseInt(s: string): Option<int> {
    if |s| > 0 && s[0] == '-' && Canonical(s[1..]) && s[1..] != "0" then Some(0 - ParseDigits(s[1..]) as int)
    else if Canonical(s) then Some(ParseDigits(s))
    else None
  }

  /** The string form of an integer is a numeral that reads back as that integer. */
  lemma IntToStringRoundTrip(i: int)
    ensures ParseInt(IntToString(i)) == Some(i)
  {
    var s := IntToString(i);
    if i < 0 {
      var d := Digits(-i);
      assert s[0] == '-' && s[1..] == d;
      assert Canonical(d) && d != "0";
      ParseDigitsOfDigits(-i);
    } else {
      assert s == Digits(i);
      assert IsDigit(s[0]);
      ParseDigitsOfDigits(i);
    }
  }

  /** The message of the TypeError raised when an object has no usable string form. */
  const CannotConvert: string := "Cannot convert object to primitive value"

  /**
    String conversion succeeds. It fails only for an object with its own
    `toString`: a property parsed from JSON is never callable, so conversion
    skips it, falls back to the inherited `valueOf`, gets the object back,
    and throws.
   */
  predicate Convertible(v: JsValue) {
    !(v.Obj? && v.ownToString)
  }

  /** JavaScript ToString of a value, as used by `${v}` and by `table[v]`; Failure carries the thrown message. */
  function ToString(v: JsValue): (r: Result<string, string>)
    ensures r.Success? <==> Convertible(v)
    ensures r.Failure? ==> r.error == CannotConvert
    ensures v.Str? ==> r == Success(v.s)
    ensures v.Num? ==> r.Success? && ParseInt(r.value) == Some(v.n)
    ensures v.Bool? ==> (r == Success("true") <==> v.b)
  {
    match v
    case Undefined => Success("undefined")
    case Null => Success("null")
    case Bool(b) => if b then Success("true") else Success("false")
    case Num(n) => IntToStringRoundTrip(n); Success(IntToString(n))
    case Str(s) => Success(s)
    case Obj(own) => if own then Failure(CannotConvert) else Success("[object Object]")
  }
}
