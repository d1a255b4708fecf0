/** Python-level values the client handles: decoded JSON bodies and the
    records built from them, resource identifiers, and the exceptions the
    client raises. */
module Values {

  /** A Python value as the client sees it: what `resp.json()` decodes
      (None, str, int, bool, list, dict) or a dataclass instance, given by
      its class name and its attributes. */
  datatype Value =
    | Null
    | Str(s: string)
    | Int(n: int)
    | Bool(b: bool)
    | List(items: seq<Value>)
    | Dict(entries: map<string, Value>)
    | Instance(cls: string, attrs: map<string, Value>)

  datatype Option<+T> = None | Some(value: T)

  /** What a TypeError is about. */
  datatype TypeProblem =
    | AdminKeyIsNone               // the admin key is None at construction
    | NotComparable                // `None > 250`
    | NotSubscriptable             // `x["key"]` on a value that is not a dict
    | NotIterable                  // `for x in v` on None, an int or a bool
    | DuplicateArgument            // a keyword argument given twice in one call
    | BadConstructorCall(cls: string)  // a class called with arguments it rejects

  /** What an AttributeError is about. */
  datatype AttributeProblem =
    | MaxLimitExceeded             // "The max limit is 250"
    | OrderIdRequired              // an individual fulfillment without an order id
    | NoItemsMethod                // `.items()` on a value that is not a dict

  /** The exceptions the modelled code raises, by Python exception class. */
  datatype Error =
    | TypeError(typeProblem: TypeProblem)
    | AttributeError(attributeProblem: AttributeProblem)
    | KeyError(key: string)

  datatype Result<+T> = Ok(value: T) | Err(error: Error)

  datatype Outcome = Pass | Fail(error: Error)

  /** A resource identifier as callers pass it: `str | int`. */
  datatype Id = IntId(n: int) | StrId(s: string)

  predicate IsDigit(c: char) {
    '0' <= c <= '9'
  }

  predicate AllDigits(s: string) {
    forall i :: 0 <= i < |s| ==> IsDigit(s[i])
  }

  function DigitChar(d: nat): (c: char)
    requires d < 10
    ensures IsDigit(c) && c as int - '0' as int == d
  {
    "0123456789"[d]
  }

  /** Decimal digits of a natural number, most significant first. */
  function Digits(n: nat): (s: string)
    ensures |s| >= 1
    ensures forall i :: 0 <= i < |s| ==> IsDigit(s[i])
    ensures n > 0 ==> s[0] != '0'
    ensures n == 0 <==> s == "0"
    decreases n
  {
    if n < 10 then [DigitChar(n)] else Digits(n / 10) + [DigitChar(n % 10)]
  }

  function DigitValue(c: char): nat
    requires IsDigit(c)
  {
    c as int - '0' as int
  }

  /** The number a string of decimal digits denotes. */
  function DigitsValue(s: string): nat
    requires AllDigits(s)
  {
    if s == [] then 0
    else DigitsValue(s[..|s| - 1]) * 10 + DigitValue(s[|s| - 1])
  }

  lemma {:induction false} DigitsRoundTrip(n: nat)
    ensures DigitsValue(Digits(n)) == n
    decreases n
  {
    if n >= 10 {
      var s := Digits(n);
      assert s[..|s| - 1] == Digits(n / 10);
      DigitsRoundTrip(n / 10);
    }
  }

  /** `str(n)` for a Python int. */
  function DecimalString(n: int): string {
    if n < 0 then "-" + Digits(-n) else Digits(n)
  }

  /** Reads back what DecimalString writes. */
  function ParseDecimal(s: string): Option<int> {
    if |s| >= 2 && s[0] == '-' && AllDigits(s[1..]) then
      Some(0 - DigitsValue(s[1..]))
    else if |s| >= 1 && AllDigits(s) then
      Some(DigitsValue(s))
    else
      None
  }

  /** The decimal text of an integer identifier is read back unchanged, so
      two different integer identifiers never format to the same path segment. */
  lemma DecimalRoundTrip(n: int)
    ensures ParseDecimal(DecimalString(n)) == Some(n)
  {
    var s := DecimalString(n);
    if n < 0 {
      assert s[1..] == Digits(-n);
      assert AllDigits(s[1..]);
      DigitsRoundTrip(-n);
    } else {
      assert s == Digits(n) && AllDigits(s);
      assert s[0] != '-';
      DigitsRoundTrip(n);
    }
  }

  /** `str(id)`, as an f-string formats an identifier into a path. */
  function IdText(id: Id): (s: string)
    ensures id.StrId? ==> s == id.s
    ensures id.IntId? ==> ParseDecimal(s) == Some(id.n)
    ensures id.IntId? ==> forall i :: 0 <= i < |s| ==> s[i] != '/' && s[i] != '.'
  {
    match id
    case StrId(s) => s
    case IntId(n) => DecimalRoundTrip(n); DecimalString(n)
  }

  /** Python truthiness of an optional identifier: None, 0 and "" are false. */
  function Truthy(id: Option<Id>): (b: bool)
    ensures b <==> id.Some? && id.value != IntId(0) && id.value != StrId("")
  {
    match id
    case None => false
    case Some(IntId(n)) => n != 0
    case Some(StrId(s)) => s != ""
  }

  /** `v[key]` for a string key: a dict looks the key up; nothing else the
      client handles can be subscripted by a string. */
  function Subscript(v: Value, key: string): (r: Result<Value>)
    ensures r.Ok? <==> v.Dict? && key in v.entries
    ensures r.Ok? ==> r.value == v.entries[key]
    ensures v.Dict? && key !in v.entries ==> r == Err(KeyError(key))
    ensures !v.Dict? ==> r == Err(TypeError(NotSubscriptable))
  {
    match v
    case Dict(m) => if key in m then Ok(m[key]) else Err(KeyError(key))
    case _ => Err(TypeError(NotSubscriptable))
  }

  /** How many elements `for x in v` visits, or None when `v` is not
      iterable (a dict yields its keys, a string its characters). */
  function IterationLength(v: Value): (n: Option<nat>)
    ensures n.None? <==> v.Null? || v.Int? || v.Bool? || v.Instance?
  {
    match v
    case List(items) => Some(|items|)
    case Dict(m) => Some(|m|)
    case Str(s) => Some(|s|)
    case _ => None
  }
}
