/** JavaScript values, strings and exceptions, as far as the custom-element bridges,
    the proxy trap and the devtools panel use them. */
module JsValues {

  datatype Option<T> = None | Some(value: T)

  /** A JavaScript number. `Integer` is every finite integral number (-0 included, as 0);
      `Fraction` is a finite number with a fractional part, identified by the text
      `Number.prototype.toString` gives for it; then NaN and the two infinities. */
  datatype Number = Integer(i: int) | Fraction(shown: string) | NaN | Infinity(negative: bool)

  /** A JavaScript value. `Object` is a plain object with its own enumerable
      properties in property order. */
  datatype Value =
    | Undefined
    | Null
    | Bool(b: bool)
    | Num(n: Number)
    | Str(s: string)
    | Object(entries: seq<Entry>)

  datatype Entry = Entry(key: string, val: Value)

  /** The answer of `typeof`. */
  datatype TypeTag = UndefinedType | ObjectType | BooleanType | NumberType | StringType

  function TypeOf(v: Value): TypeTag
  {
    match v
    case Undefined => UndefinedType
    case Null => ObjectType
    case Bool(_) => BooleanType
    case Num(_) => NumberType
    case Str(_) => StringType
    case Object(_) => ObjectType
  }

  /** An exception thrown by the code or by the runtime it calls. */
  datatype Exception =
    | TypeError(message: string)
    | EmptyListError  // the list library's `head` applied to an empty list

  /** The completion of a call: a normal result or a thrown exception. */
  datatype Outcome<T> = Ok(value: T) | Thrown(error: Exception)

  /** A mutable plain object: its own properties, by name. */
  class JsObject {
    var props: map<string, Value>

    constructor (props: map<string, Value>)
      ensures this.props == props
    {
      this.props := props;
    }
  }

  /** `obj[key]` on a plain object: the own property, or undefined when there is none. */
  function Property(props: map<string, Value>, key: string): Value
  {
    if key in props then props[key] else Undefined
  }

  /** The keys of an object's entries, in property order (`Object.keys`). */
  function Keys(entries: seq<Entry>): (keys: seq<string>)
    ensures |keys| == |entries|
    ensures forall i :: 0 <= i < |entries| ==> keys[i] == entries[i].key
  {
    if entries == [] then [] else [entries[0].key] + Keys(entries[1..])
  }

  /** Property names of one object are distinct. */
  predicate DistinctKeys(entries: seq<Entry>)
  {
    forall i, j :: 0 <= i < j < |entries| ==> entries[i].key != entries[j].key
  }

  /** The characters that `\s`, `trimStart`, `trimEnd` and `parseInt` treat as white space:
      ECMAScript's WhiteSpace and LineTerminator productions. */
  predicate IsWhiteSpace(c: char)
  {
    var n := c as int;
    n == 0x09 || n == 0x0A || n == 0x0B || n == 0x0C || n == 0x0D || n == 0x20 || n == 0xA0
    || n == 0x1680 || (0x2000 <= n <= 0x200A) || n == 0x2028 || n == 0x2029 || n == 0x202F
    || n == 0x205F || n == 0x3000 || n == 0xFEFF
  }

  /** ECMAScript's LineTerminator: the characters `.` in a regular expression does not match. */
  predicate IsLineTerminator(c: char)
  {
    c == '\n' || c == '\r' || c as int == 0x2028 || c as int == 0x2029
  }

  predicate IsDecimalDigit(c: char)
  {
    '0' <= c <= '9'
  }

  function LowerChar(c: char): char
  {
    if 'A' <= c <= 'Z' then (c as int + 32) as char else c
  }

  function UpperChar(c: char): char
  {
    if 'a' <= c <= 'z' then (c as int - 32) as char else c
  }

  /** `String.prototype.toLowerCase`, for the letters A to Z. */
  function Lower(s: string): (r: string)
    ensures |r| == |s|
    ensures forall i :: 0 <= i < |s| ==> r[i] == LowerChar(s[i])
  {
    if s == [] then [] else [LowerChar(s[0])] + Lower(s[1..])
  }

  predicate IsAscii(s: string)
  {
    forall i :: 0 <= i < |s| ==> (s[i] as int) < 128
  }

  /** `toLowerCase` lower-cases an ASCII string as `String.prototype.toLowerCase` does:
      A to Z become a to z and nothing else changes. */
  ghost predicate LowersAscii(toLowerCase: string -> string)
  {
    forall s :: IsAscii(s) ==> toLowerCase(s) == Lower(s)
  }

  function DigitChar(d: nat): char
    requires d < 10
  {
    ('0' as int + d) as char
  }

  /** The decimal digits of a natural number, without leading zeros. */
  function NatString(n: nat): (r: string)
    ensures |r| > 0
    ensures forall i :: 0 <= i < |r| ==> IsDecimalDigit(r[i])
    ensures r[0] == '0' ==> n == 0 && |r| == 1
  {
    if n < 10 then [DigitChar(n)] else NatString(n / 10) + [DigitChar(n % 10)]
  }

  /** `Number.prototype.toString` of an integral number below 10^21 in magnitude; from
      10^21 up the host writes the exponent form ("1e+21"), which is not modelled. */
  function DecimalString(i: int): string
  {
    if i < 0 then "-" + NatString(-i) else NatString(i)
  }

  function NumberString(n: Number): string
  {
    match n
    case Integer(i) => DecimalString(i)
    case Fraction(shown) => shown
    case NaN => "NaN"
    case Infinity(negative) => if negative then "-Infinity" else "Infinity"
  }

  /** The abstract operation ToString, for the values above. */
  function ToJsString(v: Value): string
  {
    match v
    case Undefined => "undefined"
    case Null => "null"
    case Bool(b) => if b then "true" else "false"
    case Num(n) => NumberString(n)
    case Str(s) => s
    case Object(_) => "[object Object]"
  }

  /** A missing attribute reads as null, a present one as its text. */
  function AttributeValue(text: Option<string>): Value
  {
    match text
    case None => Null
    case Some(s) => Str(s)
  }
}
