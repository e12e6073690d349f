/** The JavaScript values and built-in conversions the application relies on:
    truthiness (`if (x)`, `!x`), optional property access (`x?.key`),
    `String(x)` as used by `localStorage.setItem`, and the global
    `parseInt(s)` called without a radix. */
module Js {
  import opened Base

  /** A JavaScript value. Numbers are integers: fractions, NaN and the
      infinities never reach the logic modelled here except as the result
      of `parseInt`, where `ParseInt` returns `None` for NaN. */
  datatype Value =
    | Undefined
    | Null
    | Bool(b: bool)
    | Num(n: int)
    | Str(s: string)
    | Arr(items: seq<Value>)
    | Obj(fields: map<string, Value>)

  /** JavaScript truthiness: `undefined`, `null`, `false`, `0` and `""` are
      falsy; every array and object, even an empty one, is truthy. */
  predicate Truthy(v: Value)
  {
    match v
    case Undefined => false
    case Null => false
    case Bool(b) => b
    case Num(n) => n != 0
    case Str(s) => s != ""
    case Arr(_) => true
    case Obj(_) => true
  }

  /** `v?.key` for the own-data keys this application reads (none of them is
      an inherited property of strings or arrays). */
  function Member(v: Value, key: string): (r: Value)
    ensures v.Obj? && key in v.fields ==> r == v.fields[key]
    ensures !v.Obj? || key !in v.fields ==> r == Undefined
  {
    if v.Obj? && key in v.fields then v.fields[key] else Undefined
  }

  // ---------------------------------------------------------------------
  // Decimal digits

  function DecimalDigit(d: nat): (c: char)
    requires d < 10
    ensures DigitValue(c) == Some(d)
  {
    "0123456789"[d]
  }

  /** The value of `c` as a digit in a radix up to 36, as `parseInt` reads it. */
  function DigitValue(c: char): (r: Option<nat>)
    ensures r.Some? ==> r.value < 36
  {
    if '0' <= c <= '9' then Some(c as int - '0' as int)
    else if 'a' <= c <= 'z' then Some(c as int - 'a' as int + 10)
    else if 'A' <= c <= 'Z' then Some(c as int - 'A' as int + 10)
    else None
  }

  predicate IsDigit(c: char, radix: nat)
  {
    DigitValue(c).Some? && DigitValue(c).value < radix
  }

  /** The canonical decimal spelling of `n`, without sign or leading zeros. */
  function DecimalString(n: nat): (s: string)
    ensures |s| >= 1
    ensures forall i :: 0 <= i < |s| ==> IsDigit(s[i], 10)
    ensures s[0] == '0' ==> n == 0
    decreases n
  {
    if n < 10 then [DecimalDigit(n)]
    else DecimalString(n / 10) + [DecimalDigit(n % 10)]
  }

  /** The number the digit string `ds` spells in `radix`. Every caller
      passes a run of digits only; a character that is not a digit would
      count as 0. */
  function DigitsValue(ds: string, radix: nat): nat
  {
    if |ds| == 0 then 0
    else
      var d := DigitValue(ds[|ds| - 1]);
      DigitsValue(ds[..|ds| - 1], radix) * radix + (if d.Some? then d.value else 0)
  }

  lemma {:induction false} DecimalStringValue(n: nat)
    ensures DigitsValue(DecimalString(n), 10) == n
    decreases n
  {
    if n >= 10 {
      var s := DecimalString(n);
      assert s[..|s| - 1] == DecimalString(n / 10);
      DecimalStringValue(n / 10);
    }
  }

  // ---------------------------------------------------------------------
  // parseInt

  /** StrWhiteSpaceChar: the white space and line terminators that
      `parseInt` skips before the number. */
  predicate IsWhiteSpace(c: char)
  {
    var k := c as int;
    k == 0x9 || k == 0xA || k == 0xB || k == 0xC || k == 0xD || k == 0x20 ||
    k == 0xA0 || k == 0x1680 || (0x2000 <= k <= 0x200A) || k == 0x2028 ||
    k == 0x2029 || k == 0x202F || k == 0x205F || k == 0x3000 || k == 0xFEFF
  }

  function TrimStart(s: string): (r: string)
    ensures |r| <= |s| && r == s[|s| - |r|..]
    ensures |r| == 0 || !IsWhiteSpace(r[0])
    ensures |s| > 0 && !IsWhiteSpace(s[0]) ==> r == s
  {
    if |s| > 0 && IsWhiteSpace(s[0]) then TrimStart(s[1..]) else s
  }

  /** The length of the longest prefix of `s` made of `radix` digits. */
  function DigitRun(s: string, radix: nat): (n: nat)
    ensures n <= |s|
    ensures forall i :: 0 <= i < n ==> IsDigit(s[i], radix)
    ensures n == |s| || !IsDigit(s[n], radix)
  {
    if |s| == 0 || !IsDigit(s[0], radix) then 0 else 1 + DigitRun(s[1..], radix)
  }

  /** `parseInt(s)` with no radix argument: skip leading white space, read an
      optional sign, switch to radix 16 after a `0x`/`0X` prefix, then read
      the longest run of digits. `None` is NaN (no digit at all). */
  function ParseInt(s: string): (r: Option<int>)
  {
    ParseSigned(TrimStart(s))
  }

  function ParseSigned(t: string): (r: Option<int>)
  {
    if |t| > 0 && t[0] == '-' then
      match ParseMagnitude(t[1..])
      case None => None
      case Some(m) => Some(-(m as int))
    else if |t| > 0 && t[0] == '+' then ParseMagnitude(t[1..])
    else ParseMagnitude(t)
  }

  function ParseMagnitude(u: string): (r: Option<nat>)
  {
    if |u| >= 2 && u[0] == '0' && (u[1] == 'x' || u[1] == 'X') then ParseDigits(u[2..], 16)
    else ParseDigits(u, 10)
  }

  function ParseDigits(w: string, radix: nat): (r: Option<nat>)
  {
    var n := DigitRun(w, radix);
    if n == 0 then None else Some(DigitsValue(w[..n], radix))
  }

  /** A canonical decimal spelling is read whole, in radix 10. */
  lemma ParseMagnitudeDecimal(n: nat)
    ensures ParseMagnitude(DecimalString(n)) == Some(n)
  {
    var s := DecimalString(n);
    assert |s| >= 2 ==> IsDigit(s[1], 10);
    assert DigitRun(s, 10) == |s|;
    assert s[..|s|] == s;
    DecimalStringValue(n);
  }

  /** `parseInt` reads back every canonical decimal spelling. */
  lemma ParseIntDecimal(n: nat)
    ensures ParseInt(DecimalString(n)) == Some(n)
  {
    var s := DecimalString(n);
    assert TrimStart(s) == s;
    ParseMagnitudeDecimal(n);
  }

  /** A string whose first character is not white space, a sign or a digit
      parses to NaN. */
  lemma ParseIntRejects(s: string)
    requires |s| == 0 || (!IsWhiteSpace(s[0]) && s[0] != '-' && s[0] != '+' && !IsDigit(s[0], 10))
    ensures ParseInt(s) == None
  {
  }

  // ---------------------------------------------------------------------
  // String(v)

  /** `String(v)`: the primitive to-string conversion for the values above
      (integers in decimal, arrays joined by commas with `null` and
      `undefined` elements empty, plain objects as `[object Object]`). */
  function ToString(v: Value): string
  {
    match v
    case Undefined => "undefined"
    case Null => "null"
    case Bool(b) => if b then "true" else "false"
    case Num(n) => if n < 0 then "-" + DecimalString(-n) else DecimalString(n)
    case Str(s) => s
    case Arr(items) => Join(seq(|items|, i requires 0 <= i < |items| =>
                         if items[i].Undefined? || items[i].Null? then "" else ToString(items[i])))
    case Obj(_) => "[object Object]"
  }

  /** The strings of `parts` separated by commas (`Array.prototype.join`). */
  function Join(parts: seq<string>): string
  {
    if |parts| == 0 then ""
    else if |parts| == 1 then parts[0]
    else Join(parts[..|parts| - 1]) + "," + parts[|parts| - 1]
  }

  /** Every integer survives a `String` / `parseInt` round trip. */
  lemma ParseIntToString(n: int)
    ensures ParseInt(ToString(Num(n))) == Some(n)
  {
    if n >= 0 {
      assert ToString(Num(n)) == DecimalString(n);
      ParseIntDecimal(n);
    } else {
      assert ToString(Num(n)) == "-" + DecimalString(-n);
      ParseIntNegative(-n);
    }
  }

  /** A minus sign before a canonical decimal spelling negates it. */
  lemma ParseIntNegative(m: nat)
    ensures ParseInt("-" + DecimalString(m)) == Some(-(m as int))
  {
    var s := "-" + DecimalString(m);
    assert TrimStart(s) == s;
    assert s[1..] == DecimalString(m);
    ParseMagnitudeDecimal(m);
  }
}
