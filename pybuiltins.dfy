/**
 * The few Python built-ins the integration applies to device values and host
 * names: `int()`, `float()` and `str()` on decoded JSON, `str(n)` for integers,
 * `str.strip()`, `str.rstrip(c)`, `str.lower()`, `startswith`, `endswith` and
 * slicing with negative indices.
 */
module PyBuiltins {
  import opened Wrappers
  import opened JsonValue

  /** Python `int(x)` on a float: truncation toward zero. */
  function Trunc(x: real): (n: int)
    ensures x >= 0.0 ==> n as real <= x < n as real + 1.0
    ensures x < 0.0 ==> n as real - 1.0 < x <= n as real
  {
    if x >= 0.0 then x.Floor else -((-x).Floor)
  }

  /** On a value that is already an integer, truncation is the identity. */
  lemma TruncOfInteger(n: int)
    ensures Trunc(n as real) == n
  {
  }

  // ---------------------------------------------------------------------------
  // Decimal text of integers, as `str(n)` and f"{n}" write it.

  predicate IsDigit(c: char)
  {
    '0' <= c <= '9'
  }

  function DigitChar(d: int): (c: char)
    requires 0 <= d < 10
    ensures IsDigit(c)
  {
    (('0' as int) + d) as char
  }

  function DigitValue(c: char): int
    requires IsDigit(c)
  {
    (c as int) - ('0' as int)
  }

  /** `str(n)` for a non-negative int: digits, most significant first, no leading zero. */
  function NatDecimal(n: nat): (s: string)
    ensures |s| >= 1
    ensures forall i :: 0 <= i < |s| ==> IsDigit(s[i])
    ensures |s| > 1 ==> s[0] != '0'
    decreases n
  {
    if n < 10 then [DigitChar(n)] else NatDecimal(n / 10) + [DigitChar(n % 10)]
  }

  /** `str(n)` for any int: a minus sign before the digits of a negative number. */
  function IntDecimal(n: int): string
  {
    if n < 0 then "-" + NatDecimal(-n) else NatDecimal(n)
  }

  /** The number a string of decimal digits denotes (the inverse of NatDecimal). */
  function DigitsValue(s: string): nat
    requires forall i :: 0 <= i < |s| ==> IsDigit(s[i])
  {
    if s == [] then 0 else DigitsValue(s[..|s| - 1]) * 10 + DigitValue(s[|s| - 1])
  }

  /** The number an optionally signed decimal string denotes (the inverse of IntDecimal). */
  function DecimalValue(s: string): int
    requires |s| >= 1
    requires s[0] == '-' ==> forall i :: 1 <= i < |s| ==> IsDigit(s[i])
    requires s[0] != '-' ==> forall i :: 0 <= i < |s| ==> IsDigit(s[i])
  {
    if s[0] == '-' then 0 - DigitsValue(s[1..]) as int else DigitsValue(s)
  }

  lemma {:induction false} NatDecimalRoundTrip(n: nat)
    ensures DigitsValue(NatDecimal(n)) == n
    decreases n
  {
    if n >= 10 {
      var front := NatDecimal(n / 10);
      var s := front + [DigitChar(n % 10)];
      assert s[..|s| - 1] == front;
      NatDecimalRoundTrip(n / 10);
    }
  }

  /** The decimal text of an int determines it: reading it back gives the number. */
  lemma IntDecimalRoundTrip(n: int)
    ensures |IntDecimal(n)| >= 1
    ensures DecimalValue(IntDecimal(n)) == n
  {
    if n < 0 {
      var s := IntDecimal(n);
      assert s[1..] == NatDecimal(-n);
      NatDecimalRoundTrip(-n);
    } else {
      NatDecimalRoundTrip(n);
    }
  }

  /** Two ints with the same decimal text are equal. */
  lemma IntDecimalInjective(m: int, n: int)
    requires IntDecimal(m) == IntDecimal(n)
    ensures m == n
  {
    IntDecimalRoundTrip(m);
    IntDecimalRoundTrip(n);
  }

  // ---------------------------------------------------------------------------
  // Whitespace and `str.strip()`.

  /** The characters for which Python's `str.isspace()` holds, which `strip()` removes. */
  predicate IsSpace(c: char)
  {
    var n := c as int;
    (9 <= n <= 13) || (28 <= n <= 32) || n == 0x85 || n == 0xA0 || n == 0x1680
    || (0x2000 <= n <= 0x200A) || n == 0x2028 || n == 0x2029 || n == 0x202F
    || n == 0x205F || n == 0x3000
  }

  /** A string `s` with `s.strip() == ""`. */
  predicate IsBlank(s: string)
  {
    forall i :: 0 <= i < |s| ==> IsSpace(s[i])
  }

  function StripLeft(s: string): (r: string)
    ensures r == [] || !IsSpace(r[0])
    ensures |r| <= |s| && r == s[|s| - |r|..]
    ensures IsBlank(s[..|s| - |r|])
  {
    if |s| > 0 && IsSpace(s[0]) then
      var r := StripLeft(s[1..]);
      assert s[..|s| - |r|] == [s[0]] + s[1..][..|s| - 1 - |r|];
      BlankExtend([s[0]], s[1..][..|s| - 1 - |r|]);
      r
    else s
  }

  function StripRight(s: string): (r: string)
    ensures r == [] || !IsSpace(r[|r| - 1])
    ensures |r| <= |s| && r == s[..|r|]
    ensures IsBlank(s[|r|..])
  {
    if |s| > 0 && IsSpace(s[|s| - 1]) then
      var r := StripRight(s[..|s| - 1]);
      assert s[|r|..] == s[..|s| - 1][|r|..] + [s[|s| - 1]];
      BlankExtend(s[..|s| - 1][|r|..], [s[|s| - 1]]);
      r
    else s
  }

  /** Two blank strings make a blank string. */
  lemma BlankExtend(a: string, b: string)
    requires IsBlank(a) && IsBlank(b)
    ensures IsBlank(a + b)
  {
  }

  /** Python `s.strip()`: leading and trailing whitespace removed. */
  function Strip(s: string): string
  {
    StripRight(StripLeft(s))
  }

  /** `s.strip() == ""` holds exactly when every character of `s` is whitespace. */
  lemma StripEmptyIffBlank(s: string)
    ensures Strip(s) == "" <==> IsBlank(s)
  {
  }

  // ---------------------------------------------------------------------------
  // Strings as host names.

  predicate StartsWith(s: string, prefix: string)
  {
    |prefix| <= |s| && s[..|prefix|] == prefix
  }

  predicate EndsWith(s: string, suffix: string)
  {
    |suffix| <= |s| && s[|s| - |suffix|..] == suffix
  }

  /** Python `s.rstrip(c)` for a single character `c`. */
  function RStrip(s: string, c: char): (r: string)
    ensures |r| <= |s| && r == s[..|r|]
    ensures r == [] || r[|r| - 1] != c
    ensures forall i :: |r| <= i < |s| ==> s[i] == c
  {
    if |s| > 0 && s[|s| - 1] == c then RStrip(s[..|s| - 1], c) else s
  }

  /** Python `s[start:stop]`, negative bounds counting from the end, both clamped. */
  function Slice(s: string, start: int, stop: int): string
  {
    var n := |s|;
    var a := if start < 0 then (if n + start < 0 then 0 else n + start)
             else (if start < n then start else n);
    var b := if stop < 0 then (if n + stop < 0 then 0 else n + stop)
             else (if stop < n then stop else n);
    if a < b then s[a..b] else []
  }

  /** Python `s.lower()` on ASCII letters (the keys it is applied to are ASCII). */
  function Lower(s: string): string
  {
    seq(|s|, i requires 0 <= i < |s| => if 'A' <= s[i] <= 'Z' then (s[i] as int + 32) as char else s[i])
  }

  // ---------------------------------------------------------------------------
  // Conversions of decoded JSON values.

  /**
   * Python `float(raw)`: None stands for the TypeError or ValueError it raises.
   * How `float()` reads a string is the parameter `parseFloat`.
   */
  function FloatOf(raw: Json, parseFloat: string -> Option<real>): Option<real>
  {
    match raw
    case JBool(b) => Some(if b then 1.0 else 0.0)
    case JInt(i) => Some(i as real)
    case JFloat(r) => Some(r)
    case JString(s) => parseFloat(s)
    case _ => None
  }

  /**
   * Python `int(raw)`: None stands for the TypeError or ValueError it raises.
   * How `int()` reads a string is the parameter `parseInt`.
   */
  function IntOf(raw: Json, parseInt: string -> Option<int>): Option<int>
  {
    match raw
    case JBool(b) => Some(if b then 1 else 0)
    case JInt(i) => Some(i)
    case JFloat(r) => Some(Trunc(r))
    case JString(s) => parseInt(s)
    case _ => None
  }

  /**
   * Python `str(raw)`. Strings, ints, booleans and None are written out; the
   * text Python gives a float, a list or a dict is the parameter `reprOf`.
   */
  function StrOf(raw: Json, reprOf: Json -> string): string
  {
    match raw
    case JNull => "None"
    case JBool(b) => if b then "True" else "False"
    case JInt(i) => IntDecimal(i)
    case JString(s) => s
    case _ => reprOf(raw)
  }
}
