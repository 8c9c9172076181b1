/**
 * JSON values as they cross the connector: the host's parameter values, the
 * request bodies the client builds and the bodies the service returns.
 * Numbers are integers (floating point is not modelled).
 */
module Json {

  datatype Json =
    | JNull
    | JBool(b: bool)
    | JNum(n: int)
    | JStr(s: string)
    | JArray(items: seq<Json>)
    | JObject(fields: map<string, Json>)

  /** Python truthiness of the decoded value (`if filter_text:`). */
  predicate Truthy(j: Json)
  {
    match j
    case JNull => false
    case JBool(b) => b
    case JNum(n) => n != 0
    case JStr(s) => s != ""
    case JArray(items) => items != []
    case JObject(fields) => fields != map[]
  }

  function DigitChar(d: int): char
    requires 0 <= d < 10
  {
    ('0' as int + d) as char
  }

  predicate IsDigit(c: char)
  {
    '0' <= c <= '9'
  }

  /** Python's `str(n)` for a natural number: its decimal digits, most significant first. */
  function Decimal(n: nat): (s: string)
    ensures |s| > 0 && forall i :: 0 <= i < |s| ==> IsDigit(s[i])
  {
    if n < 10 then [DigitChar(n)] else Decimal(n / 10) + [DigitChar(n % 10)]
  }

  /** The value of a non-empty string of decimal digits, read the way `int()` reads it. */
  function DecimalValue(s: string): (n: nat)
    requires |s| > 0 && forall i :: 0 <= i < |s| ==> IsDigit(s[i])
  {
    assert IsDigit(s[0]) && IsDigit(s[|s| - 1]);
    if |s| == 1 then s[0] as int - '0' as int
    else DecimalValue(s[..|s| - 1]) * 10 + (s[|s| - 1] as int - '0' as int)
  }

  /** `Decimal` loses nothing: reading its digits back gives the number. */
  lemma {:induction false} DecimalRoundTrip(n: nat)
    ensures DecimalValue(Decimal(n)) == n
  {
    if n >= 10 {
      DecimalRoundTrip(n / 10);
      var s := Decimal(n);
      assert s[..|s| - 1] == Decimal(n / 10);
    }
  }

  /**
   * Python's `str(v)`, the text an f-string such as `f"/case/{case_uuid}"`
   * splices in. Arrays and objects, which the host never passes as
   * parameter values, are rendered only as their brackets.
   */
  function Str(j: Json): string
  {
    match j
    case JNull => "None"
    case JBool(b) => if b then "True" else "False"
    case JNum(n) => if n < 0 then "-" + Decimal(-n) else Decimal(n)
    case JStr(s) => s
    case JArray(_) => "[]"
    case JObject(_) => "{}"
  }

  /** A number's text reads back as the number, sign included. */
  lemma StrOfNumber(n: int)
    ensures var t := Str(JNum(n));
            if n < 0 then |t| > 1 && t[0] == '-' && DecimalValue(t[1..]) == -n
            else DecimalValue(t) == n
  {
    if n < 0 {
      DecimalRoundTrip(-n);
      assert Str(JNum(n))[1..] == Decimal(-n);
    } else {
      DecimalRoundTrip(n);
    }
  }
}
