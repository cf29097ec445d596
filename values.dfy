/**
 * The untyped Java objects that sit in the configuration overlay and in the
 * result variables: what Jackson makes of JSON (String, Integer/Long, Boolean,
 * ArrayList, LinkedHashMap, null). Floating-point numbers are not modelled.
 */
module Values {

  datatype Value =
    | Null
    | Str(s: string)
    | Num(n: int)
    | Bool(b: bool)
    | Arr(elems: seq<Value>)
    | Obj(fields: seq<Field>)   // a LinkedHashMap: entries in insertion order

  datatype Field = Field(name: string, value: Value)

  /** A `java.util.Map<String, Object>`; a key bound to `Null` holds a Java null. */
  type Config = map<string, Value>

  function Digit(d: nat): (c: char)
    requires d < 10
  {
    "0123456789"[d]
  }

  function DigitValue(c: char): nat
  {
    if '0' <= c <= '9' then (c as int - '0' as int) as nat else 0
  }

  /** Decimal digits of `n`, most significant first, without leading zeros. */
  function NatToString(n: nat): (r: string)
    ensures |r| >= 1
    ensures forall i :: 0 <= i < |r| ==> '0' <= r[i] <= '9'
  {
    if n < 10 then [Digit(n)] else NatToString(n / 10) + [Digit(n % 10)]
  }

  /** `Long.toString`: an optional minus sign followed by the digits. */
  function IntToString(n: int): string
  {
    if n < 0 then "-" + NatToString(-n) else NatToString(n)
  }

  /** Reads a run of decimal digits back as a number. */
  function ParseDigits(s: string): nat
  {
    if s == [] then 0 else ParseDigits(s[..|s| - 1]) * 10 + DigitValue(s[|s| - 1])
  }

  /** `Long.parseLong` on what `IntToString` produces. */
  function ParseInt(s: string): int
  {
    if |s| > 0 && s[0] == '-' then 0 - ParseDigits(s[1..]) as int else ParseDigits(s)
  }

  lemma {:induction false} NatToStringRoundTrip(n: nat)
    ensures ParseDigits(NatToString(n)) == n
  {
    if n >= 10 {
      var prefix := NatToString(n / 10);
      var s := prefix + [Digit(n % 10)];
      assert s[..|s| - 1] == prefix;
      NatToStringRoundTrip(n / 10);
    }
  }

  /** The decimal text of a number reads back as that number. */
  lemma IntToStringRoundTrip(n: int)
    ensures ParseInt(IntToString(n)) == n
  {
    if n < 0 {
      var digits := NatToString(-n);
      NatToStringRoundTrip(-n);
      var s := "-" + digits;
      assert s[1..] == digits;
      assert ParseInt(s) == 0 - ParseDigits(digits) as int;
    } else {
      var digits := NatToString(n);
      NatToStringRoundTrip(n);
      assert digits[0] != '-';
      assert ParseInt(digits) == ParseDigits(digits);
    }
  }

  /** Joins texts with a separator, as `AbstractCollection.toString` does. */
  function Join(parts: seq<string>, sep: string): string
  {
    if |parts| == 0 then "" else if |parts| == 1 then parts[0] else parts[0] + sep + Join(parts[1..], sep)
  }

  /**
   * `String.valueOf(Object)`: the textual form of a value. A string is its own
   * text, a number's text reads back as the number, and a list or map is
   * bracketed.
   */
  function ValueOf(v: Value): (r: string)
    ensures v == Null ==> r == "null"
    ensures v.Str? ==> r == v.s
    ensures v.Num? ==> ParseInt(r) == v.n
    ensures v.Bool? ==> (r == "true" <==> v.b)
    ensures v.Arr? ==> |r| >= 2 && r[0] == '[' && r[|r| - 1] == ']'
    ensures v.Obj? ==> |r| >= 2 && r[0] == '{' && r[|r| - 1] == '}'
  {
    match v
    case Null => "null"
    case Str(s) => s
    case Num(n) => IntToStringRoundTrip(n); IntToString(n)
    case Bool(b) => if b then "true" else "false"
    case Arr(elems) =>
      "[" + Join(seq(|elems|, i requires 0 <= i < |elems| => ValueOf(elems[i])), ", ") + "]"
    case Obj(fields) =>
      "{" + Join(seq(|fields|, i requires 0 <= i < |fields| => fields[i].name + "=" + ValueOf(fields[i].value)), ", ") + "}"
  }

  /** Only the empty string has an empty textual form. */
  lemma ValueOfEmpty(v: Value)
    ensures ValueOf(v) == "" <==> v == Str("")
  {
  }
}
