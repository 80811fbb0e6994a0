/** The JSON values a request body carries, and the three ways the handlers
    read them: Python truthiness (`if not x`), `isinstance(x, int)`, and the
    `int(x)` conversion that Python and the ORM's integer fields apply. */
module Payload {
  import opened Optional

  /** A JSON value as a handler sees it after `dict.get`. */
  datatype Json =
    | JNull                // `null`, or a key that is absent
    | JBool(b: bool)
    | JInt(n: int)
    | JText(s: string)
    | JContainer(size: nat) // a list or an object holding `size` entries

  /** Python truthiness: the falsy values are `None`, `False`, `0`, `""`
      and an empty container. */
  function Truthy(v: Json): (r: bool)
    ensures !r <==> v in {JNull, JBool(false), JInt(0), JText(""), JContainer(0)}
  {
    match v
    case JNull => false
    case JBool(b) => b
    case JInt(n) => n != 0
    case JText(s) => s != ""
    case JContainer(k) => k > 0
  }

  /** `isinstance(v, int)`: `bool` is a subclass of `int` in Python, while
      a numeric string is not an `int`. */
  function IsPyInt(v: Json): (r: bool)
    ensures v.JInt? ==> r
    ensures v.JBool? ==> r
    ensures r ==> !v.JText? && !v.JNull? && !v.JContainer?
  {
    v.JBool? || v.JInt?
  }

  predicate IsDigit(c: char) {
    '0' <= c <= '9'
  }

  predicate AllDigits(s: string) {
    forall i :: 0 <= i < |s| ==> IsDigit(s[i])
  }

  /** The value of a string of decimal digits, most significant first. */
  function DigitsValue(s: string): nat
    requires AllDigits(s)
  {
    if s == [] then 0
    else DigitsValue(s[..|s| - 1]) * 10 + (s[|s| - 1] as int - '0' as int)
  }

  /** `int(s)` on a string: an optional sign followed by at least one digit. */
  function ParseDecimal(s: string): (r: Option<int>)
    ensures r.Some? ==> s != [] && (r.value < 0 ==> s[0] == '-')
  {
    if s == [] then None
    else if s[0] == '-' || s[0] == '+' then
      var ds := s[1..];
      if ds != [] && AllDigits(ds) then
        Some(if s[0] == '-' then -(DigitsValue(ds) as int) else DigitsValue(ds))
      else None
    else if AllDigits(s) then Some(DigitsValue(s))
    else None
  }

  /** The decimal digits of a natural number, most significant first. */
  function Digits(n: nat): (s: string)
    ensures s != [] && AllDigits(s)
  {
    if n < 10 then [('0' as int + n) as char]
    else Digits(n / 10) + [('0' as int + n % 10) as char]
  }

  /** `str(n)`: the canonical decimal spelling of an integer. */
  function Decimal(n: int): string {
    if n < 0 then "-" + Digits(-n) else Digits(n)
  }

  lemma {:induction false} DigitsValueOfDigits(n: nat)
    ensures DigitsValue(Digits(n)) == n
  {
    var s := Digits(n);
    if n >= 10 {
      DigitsValueOfDigits(n / 10);
      assert s[..|s| - 1] == Digits(n / 10);
    }
  }

  /** `int(str(n)) == n`: the parser accepts every canonical spelling and
      gives back the number spelt. */
  lemma ParseDecimalRoundTrip(n: int)
    ensures ParseDecimal(Decimal(n)) == Some(n)
  {
    var s := Decimal(n);
    if n < 0 {
      var ds := Digits(-n);
      DigitsValueOfDigits(-n);
      assert s[0] == '-' && s[1..] == ds;
      assert ParseDecimal(s) == Some(-(DigitsValue(ds) as int));
    } else {
      DigitsValueOfDigits(n);
      assert IsDigit(s[0]);
      assert ParseDecimal(s) == Some(DigitsValue(s));
    }
  }

  /** `int(v)`: `None` where Python raises `TypeError` or `ValueError`. */
  function PyInt(v: Json): (r: Option<int>)
    ensures IsPyInt(v) ==> r.Some? && (Truthy(v) <==> r.value != 0)
    ensures v.JInt? ==> r == Some(v.n)
    ensures v.JBool? ==> r == Some(if v.b then 1 else 0)
    ensures v.JNull? || v.JContainer? ==> r == None
    ensures v.JText? ==> r == ParseDecimal(v.s)
  {
    match v
    case JNull => None
    case JBool(b) => Some(if b then 1 else 0)
    case JInt(n) => Some(n)
    case JText(s) => ParseDecimal(s)
    case JContainer(_) => None
  }

  /** How the ORM reads a primary-key lookup `get(pk=v)`. */
  datatype Lookup =
    | Key(pk: int)   // the value converts to this key
    | NoKey          // `pk=None`: matches no row
    | Unconvertible  // the conversion raises `TypeError` / `ValueError`

  function PkLookup(v: Json): (r: Lookup)
    ensures r.NoKey? <==> v.JNull?
    ensures r.Key? <==> PyInt(v).Some?
    ensures r.Key? ==> PyInt(v) == Some(r.pk)
    ensures Truthy(v) ==> !r.NoKey?
  {
    if v.JNull? then NoKey
    else match PyInt(v)
      case Some(k) => Key(k)
      case None => Unconvertible
  }
}
