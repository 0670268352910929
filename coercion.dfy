/** The converters of the property bridge (`toInt`, `toFloat`, `toBool`, `id`) and the
    choice of one converter per key from the type of the key's initial value. */
module Coercion {
  import opened JsValues

  /** Which of the four converters a key uses. */
  datatype Converter = ToInt | ToFloat | ToBool | Identity

  /** The converter fixed for a key whose initial value is `initial`: numbers that
      `Number.isInteger` accepts parse as integers, other numbers as floats, booleans
      as booleans, and everything else passes through. */
  function ConverterFor(initial: Value): Converter
  {
    if initial.Num? then
      if initial.n.Integer? then ToInt else ToFloat
    else if initial.Bool? then ToBool
    else Identity
  }

  // ---- parseInt --------------------------------------------------------------

  /** The value of a character as a digit in radix up to 36; 36 for a non-digit. */
  function DigitValue(c: char): nat
  {
    if '0' <= c <= '9' then c as int - '0' as int
    else if 'a' <= c <= 'z' then c as int - 'a' as int + 10
    else if 'A' <= c <= 'Z' then c as int - 'A' as int + 10
    else 36
  }

  /** The longest prefix of `s` made of radix-`radix` digits. */
  function DigitPrefix(s: string, radix: nat): (z: string)
    ensures |z| <= |s| && z == s[..|z|]
    ensures forall i :: 0 <= i < |z| ==> DigitValue(z[i]) < radix
    ensures |z| < |s| ==> DigitValue(s[|z|]) >= radix
  {
    if s == [] || DigitValue(s[0]) >= radix then [] else [s[0]] + DigitPrefix(s[1..], radix)
  }

  /** The number a string of radix-`radix` digits denotes, most significant first. */
  function DigitsValue(z: string, radix: nat): nat
  {
    if z == [] then 0
    else DigitsValue(z[..|z| - 1], radix) * radix + DigitValue(z[|z| - 1])
  }

  /** `s` without its leading white space. */
  function TrimStart(s: string): (t: string)
    ensures |t| <= |s| && t == s[|s| - |t|..]
    ensures t == [] || !IsWhiteSpace(t[0])
  {
    if s != [] && IsWhiteSpace(s[0]) then TrimStart(s[1..]) else s
  }

  /** `parseInt(s)` with no radix: skip leading white space, read an optional sign and
      then the digits. */
  function ParseInt(s: string): Number
  {
    var t := TrimStart(s);
    if |t| > 0 && t[0] == '-' then Negate(ParseUnsigned(t[1..]))
    else if |t| > 0 && t[0] == '+' then ParseUnsigned(t[1..])
    else ParseUnsigned(t)
  }

  /** After the sign: an optional "0x"/"0X" prefix selects radix 16, otherwise radix
      10; the longest run of digits is the number, NaN when that run is empty. */
  function ParseUnsigned(u: string): Number
  {
    var hex := |u| >= 2 && u[0] == '0' && (u[1] == 'x' || u[1] == 'X');
    var radix := if hex then 16 else 10;
    var digits := DigitPrefix(if hex then u[2..] else u, radix);
    if digits == [] then NaN else Integer(DigitsValue(digits, radix))
  }

  function Negate(n: Number): Number
  {
    if n.Integer? then Integer(-n.i) else n
  }

  // ---- the four converters ---------------------------------------------------

  /** `toBool`: the lower-cased string is "on", "yes" or "true". A value that is not a
      string has no `toLowerCase` method, so the call throws. */
  function ToBoolean(v: Value): Outcome<Value>
  {
    if v.Str? then
      var lower := Lower(v.s);
      Ok(Bool(lower == "on" || lower == "yes" || lower == "true"))
    else Thrown(TypeError("s.toLowerCase is not a function"))
  }

  /** Applies a converter to the value given to a property setter. `parseInt` and
      `parseFloat` first turn their argument into a string; `parseFloat` itself is a
      parameter. */
  function Convert(c: Converter, v: Value, parseFloat: string -> Number): Outcome<Value>
  {
    match c
    case ToInt => Ok(Num(ParseInt(ToJsString(v))))
    case ToFloat => Ok(Num(parseFloat(ToJsString(v))))
    case ToBool => ToBoolean(v)
    case Identity => Ok(v)
  }

  // ---- properties ------------------------------------------------------------

  /** `s` equals the lower-case word `w` once its letters are lower-cased. */
  predicate EqualsIgnoringCase(s: string, w: string)
  {
    |s| == |w| && forall i :: 0 <= i < |s| ==> LowerChar(s[i]) == w[i]
  }

  /** `toBool` answers true exactly for the case-insensitive spellings of "on", "yes"
      and "true", false for every other string, and throws for every non-string. */
  lemma ToBooleanMeaning(v: Value)
    ensures v.Str? ==> ToBoolean(v) == Ok(Bool(
      EqualsIgnoringCase(v.s, "on") || EqualsIgnoringCase(v.s, "yes") || EqualsIgnoringCase(v.s, "true")))
    ensures !v.Str? ==> ToBoolean(v).Thrown?
  {
    if v.Str? {
      LowerIsWord(v.s, "on");
      LowerIsWord(v.s, "yes");
      LowerIsWord(v.s, "true");
    }
  }

  lemma LowerIsWord(s: string, w: string)
    ensures Lower(s) == w <==> EqualsIgnoringCase(s, w)
  {
    if EqualsIgnoringCase(s, w) {
      assert forall i :: 0 <= i < |s| ==> Lower(s)[i] == w[i];
    }
  }

  /** Every converter but the identity keeps the `typeof` of the key's initial value:
      a number stays a number (possibly NaN) and a boolean a boolean. */
  lemma ConverterKeepsType(initial: Value, v: Value, parseFloat: string -> Number)
    requires TypeOf(initial) == NumberType || TypeOf(initial) == BooleanType
    ensures Convert(ConverterFor(initial), v, parseFloat).Ok? ==>
              TypeOf(Convert(ConverterFor(initial), v, parseFloat).value) == TypeOf(initial)
    ensures TypeOf(initial) == NumberType ==> Convert(ConverterFor(initial), v, parseFloat).Ok?
  {
  }

  /** The converter is picked from the initial value alone: integer, non-integer number,
      boolean, anything else. */
  lemma ConverterChoice(initial: Value)
    ensures ConverterFor(initial) == ToInt <==> initial.Num? && initial.n.Integer?
    ensures ConverterFor(initial) == ToFloat <==> initial.Num? && !initial.n.Integer?
    ensures ConverterFor(initial) == ToBool <==> initial.Bool?
    ensures ConverterFor(initial) == Identity <==> !initial.Num? && !initial.Bool?
  {
  }

  lemma {:induction false} TrimStartSkips(ws: string, s: string)
    requires forall i :: 0 <= i < |ws| ==> IsWhiteSpace(ws[i])
    ensures TrimStart(ws + s) == TrimStart(s)
  {
    if ws != [] {
      assert (ws + s)[0] == ws[0] && IsWhiteSpace(ws[0]);
      assert TrimStart(ws + s) == TrimStart((ws + s)[1..]);
      assert (ws + s)[1..] == ws[1..] + s;
      TrimStartSkips(ws[1..], s);
    } else {
      assert ws + s == s;
    }
  }

  /** Leading white space never changes what `parseInt` reads. */
  lemma ParseIntSkipsWhiteSpace(ws: string, s: string)
    requires forall i :: 0 <= i < |ws| ==> IsWhiteSpace(ws[i])
    ensures ParseInt(ws + s) == ParseInt(s)
  {
    TrimStartSkips(ws, s);
  }

  lemma {:induction false} DigitPrefixOfDigits(digits: string, rest: string)
    requires forall i :: 0 <= i < |digits| ==> IsDecimalDigit(digits[i])
    requires rest == [] || !IsDecimalDigit(rest[0])
    ensures DigitPrefix(digits + rest, 10) == digits
  {
    if digits != [] {
      assert (digits + rest)[1..] == digits[1..] + rest;
      DigitPrefixOfDigits(digits[1..], rest);
    }
  }

  lemma {:induction false} NatStringValue(n: nat)
    ensures DigitsValue(NatString(n), 10) == n
  {
    if n >= 10 {
      var s := NatString(n / 10) + [DigitChar(n % 10)];
      assert s[..|s| - 1] == NatString(n / 10);
      NatStringValue(n / 10);
    }
  }

  lemma {:induction false} UnsignedReadsBack(n: nat, rest: string)
    requires rest == [] || (!IsDecimalDigit(rest[0]) && (n == 0 ==> rest[0] != 'x' && rest[0] != 'X'))
    ensures ParseUnsigned(NatString(n) + rest) == Integer(n)
  {
    var u := NatString(n) + rest;
    assert u[0] == NatString(n)[0];
    if |u| >= 2 && u[0] == '0' {
      assert |NatString(n)| == 1 && u[1] == rest[0];
    }
    DigitPrefixOfDigits(NatString(n), rest);
    NatStringValue(n);
  }

  lemma ParseIntOfDigits(u: string)
    requires u != [] && IsDecimalDigit(u[0])
    ensures ParseInt(u) == ParseUnsigned(u)
  {
    assert TrimStart(u) == u;
  }

  lemma ParseIntOfMinus(u: string, rest: string)
    ensures ParseInt(("-" + u) + rest) == Negate(ParseUnsigned(u + rest))
  {
    var s := ("-" + u) + rest;
    assert s[0] == '-' && TrimStart(s) == s;
    assert s[1..] == u + rest;
  }

  lemma {:induction false} NegativeReadsBack(n: nat, rest: string)
    requires n > 0
    requires rest == [] || !IsDecimalDigit(rest[0])
    ensures ParseInt(("-" + NatString(n)) + rest) == Integer(-(n as int))
  {
    var u := NatString(n);
    ParseIntOfMinus(u, rest);
    UnsignedReadsBack(n, rest);
    assert Negate(Integer(n)) == Integer(-(n as int));
  }

  lemma {:induction false} NonNegativeReadsBack(n: nat, rest: string)
    requires rest == [] || (!IsDecimalDigit(rest[0]) && (n == 0 ==> rest[0] != 'x' && rest[0] != 'X'))
    ensures ParseInt(NatString(n) + rest) == Integer(n)
  {
    var s := NatString(n) + rest;
    assert s[0] == NatString(n)[0];
    ParseIntOfDigits(s);
    UnsignedReadsBack(n, rest);
  }

  /** `parseInt` reads back the decimal text of every integer, also when other text
      that does not continue the number follows it ("5px" and "5x" read as 5; only after
      a lone 0 would an "x" turn the text into a hexadecimal prefix). */
  lemma {:induction false} ParseIntReadsDecimal(i: int, rest: string)
    requires rest == [] || (!IsDecimalDigit(rest[0]) && (i == 0 ==> rest[0] != 'x' && rest[0] != 'X'))
    ensures ParseInt(DecimalString(i) + rest) == Integer(i)
  {
    if i < 0 {
      var n: nat := -i;
      var digits := NatString(n);
      assert DecimalString(i) == "-" + digits;
      NegativeReadsBack(n, rest);
      assert ParseInt(("-" + digits) + rest) == Integer(i);
    } else {
      assert DecimalString(i) == NatString(i);
      NonNegativeReadsBack(i, rest);
    }
  }

  /** A string that does not start with a digit once white space and sign are skipped
      parses to NaN, the value the integer converter gives for non-numeric text. */
  lemma ParseIntOfNonNumeric(s: string)
    requires var t := TrimStart(s);
             var u := if |t| > 0 && (t[0] == '-' || t[0] == '+') then t[1..] else t;
             u == [] || DigitValue(u[0]) >= 10
    ensures ParseInt(s) == NaN
  {
    var t := TrimStart(s);
    var u := if |t| > 0 && (t[0] == '-' || t[0] == '+') then t[1..] else t;
    UnsignedOfNonDigit(u);
    if |t| > 0 && t[0] == '-' {
      assert ParseInt(s) == Negate(ParseUnsigned(u));
    } else if |t| > 0 && t[0] == '+' {
      assert ParseInt(s) == ParseUnsigned(u);
    } else {
      assert ParseInt(s) == ParseUnsigned(t);
    }
  }

  lemma UnsignedOfNonDigit(u: string)
    requires u == [] || DigitValue(u[0]) >= 10
    ensures ParseUnsigned(u) == NaN
  {
    assert DigitPrefix(u, 10) == [];
  }
}
