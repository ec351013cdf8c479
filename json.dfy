/** JSON values as Python's `json.loads` hands them to the ingestion code
    (RFC 8259 section 3), with the two pieces of Python semantics the core
    relies on: truthiness (`if not payload`) and `str(value)`. */
module Json {

  datatype Option<+T> = None | Some(value: T)

  /** A decoded JSON value. Python's decoder yields `int` for integral
      literals and `float` for the rest, so numbers keep that split; an
      object is a `dict`, hence a map from keys to values. */
  datatype JsonValue =
    | JNull
    | JBool(b: bool)
    | JInt(i: int)
    | JFloat(f: real)
    | JString(s: string)
    | JArray(items: seq<JsonValue>)
    | JObject(fields: map<string, JsonValue>)

  /** Python's `bool(v)`: None, False, zero, and empty strings, lists and
      dicts are falsy; everything else is truthy. */
  predicate Truthy(v: JsonValue) {
    match v
    case JNull => false
    case JBool(b) => b
    case JInt(i) => i != 0
    case JFloat(f) => f != 0.0
    case JString(s) => s != ""
    case JArray(items) => items != []
    case JObject(fields) => fields != map[]
  }

  /** `bool(payload)` for an optional decode result, where a missing
      payload is Python's `None`. */
  predicate PresentAndTruthy(p: Option<JsonValue>) {
    p.Some? && Truthy(p.value)
  }

  /** `d.get(key)` on a decoded object. */
  function Get(d: map<string, JsonValue>, key: string): (r: Option<JsonValue>)
    ensures r.Some? <==> key in d
    ensures r.Some? ==> r.value == d[key]
  {
    if key in d then Some(d[key]) else None
  }

  function DigitChar(d: nat): char
    requires d < 10
  {
    "0123456789"[d]
  }

  predicate IsDigitChar(c: char) {
    '0' <= c <= '9'
  }

  /** Decimal digits of a natural number, most significant first, as
      Python's `str(n)` writes them. */
  function NatDigits(n: nat): string
    decreases n
  {
    if n < 10 then [DigitChar(n)] else NatDigits(n / 10) + [DigitChar(n % 10)]
  }

  /** The digits are decimal digits, at least one, with no leading zero. */
  lemma {:induction false} NatDigitsSpec(n: nat)
    ensures NatDigits(n) != []
    ensures forall k :: 0 <= k < |NatDigits(n)| ==> IsDigitChar(NatDigits(n)[k])
    ensures n > 0 ==> NatDigits(n)[0] != '0'
    decreases n
  {
    if n >= 10 {
      NatDigitsSpec(n / 10);
      var s := NatDigits(n / 10) + [DigitChar(n % 10)];
      assert NatDigits(n) == s;
      assert s[0] == NatDigits(n / 10)[0];
      forall k | 0 <= k < |s| ensures IsDigitChar(s[k]) {
        if k < |s| - 1 {
          assert s[k] == NatDigits(n / 10)[k];
        }
      }
    }
  }

  /** The value of a string of decimal digits: the reading partner of
      NatDigits. */
  function DigitsValue(s: string): int {
    if s == [] then 0
    else DigitsValue(s[..|s| - 1]) * 10 + (s[|s| - 1] as int - '0' as int)
  }

  /** `str(i)` for a Python int: an optional minus sign and the digits. */
  function IntToDecimal(i: int): string {
    if i < 0 then "-" + NatDigits(-i) else NatDigits(i)
  }

  /** The text is never empty and starts with a minus sign exactly for a
      negative int. */
  lemma {:induction false} IntToDecimalSign(i: int)
    ensures IntToDecimal(i) != []
    ensures i < 0 <==> IntToDecimal(i)[0] == '-'
  {
    if i >= 0 {
      NatDigitsSpec(i);
      assert IsDigitChar(NatDigits(i)[0]);
    }
  }

  /** The inverse of IntToDecimal. */
  function DecimalValue(s: string): int {
    if s != [] && s[0] == '-' then -DigitsValue(s[1..]) else DigitsValue(s)
  }

  lemma {:induction false} NatDigitsRoundTrip(n: nat)
    ensures DigitsValue(NatDigits(n)) == n
    decreases n
  {
    if n >= 10 {
      var s := NatDigits(n / 10) + [DigitChar(n % 10)];
      assert s[..|s| - 1] == NatDigits(n / 10);
      NatDigitsRoundTrip(n / 10);
    }
  }

  /** Writing an int in decimal and reading it back gives the int. */
  lemma {:induction false} IntToDecimalRoundTrip(i: int)
    ensures DecimalValue(IntToDecimal(i)) == i
  {
    if i < 0 {
      var d := NatDigits(-i);
      var s := "-" + d;
      assert IntToDecimal(i) == s;
      assert s[0] == '-' && s[1..] == d;
      assert DecimalValue(s) == -DigitsValue(d);
      NatDigitsRoundTrip(-i);
    } else {
      var d := NatDigits(i);
      assert IntToDecimal(i) == d;
      NatDigitsSpec(i);
      assert IsDigitChar(d[0]);
      assert DecimalValue(d) == DigitsValue(d);
      NatDigitsRoundTrip(i);
    }
  }

  /** Python's `str(v)` for a decoded value. Strings are returned as they
      are, None, True and False by name and ints in decimal; the text of
      floats, lists and dicts (Python's float repr and container repr) is
      given by `render`, which the caller supplies. */
  function Str(render: JsonValue -> string, v: JsonValue): string {
    match v
    case JNull => "None"
    case JBool(b) => if b then "True" else "False"
    case JInt(i) => IntToDecimal(i)
    case JString(s) => s
    case _ => render(v)
  }

  /** `str` writes None and the booleans by name, leaves strings alone and
      writes ints so that reading the text back gives the same int. */
  lemma {:induction false} StrFaithful(render: JsonValue -> string, v: JsonValue)
    ensures v.JNull? ==> Str(render, v) == "None"
    ensures v.JBool? ==> Str(render, v) == (if v.b then "True" else "False")
    ensures v.JString? ==> Str(render, v) == v.s
    ensures v.JInt? ==> DecimalValue(Str(render, v)) == v.i
  {
    if v.JInt? {
      IntToDecimalRoundTrip(v.i);
    }
  }
}
