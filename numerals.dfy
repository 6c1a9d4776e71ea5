/** Decimal numerals: the digit strings that Python's float()/int()/str() and
    JavaScript's parseFloat read and write. Shared by PyRuntime and JsRuntime. */
module Numerals {
  import opened Wrappers

  predicate IsDigit(c: char) {
    '0' <= c <= '9'
  }

  predicate AllDigits(s: string) {
    forall i | 0 <= i < |s| :: IsDigit(s[i])
  }

  function DigitValue(c: char): nat
    requires IsDigit(c)
  {
    c as int - '0' as int
  }

  function DigitChar(d: nat): (c: char)
    requires d < 10
    ensures IsDigit(c) && DigitValue(c) == d
  {
    ('0' as int + d) as char
  }

  /** The number a string of decimal digits denotes (most significant first). */
  function DigitsValue(s: string): nat
    requires AllDigits(s)
  {
    if s == [] then 0 else DigitsValue(s[..|s| - 1]) * 10 + DigitValue(s[|s| - 1])
  }

  function Pow10(n: nat): (p: nat)
    ensures p >= 1
  {
    if n == 0 then 1 else 10 * Pow10(n - 1)
  }

  /** Python's str() of a non-negative int. */
  function NatToString(n: nat): (s: string)
    ensures |s| > 0 && AllDigits(s)
  {
    if n < 10 then [DigitChar(n)] else NatToString(n / 10) + [DigitChar(n % 10)]
  }

  /** Reading back what str() wrote gives the same number. */
  lemma {:induction false} NatToStringRoundTrip(n: nat)
    ensures DigitsValue(NatToString(n)) == n
  {
    if n >= 10 {
      var s := NatToString(n);
      assert s[..|s| - 1] == NatToString(n / 10);
      NatToStringRoundTrip(n / 10);
    }
  }

  /** str() is injective on non-negative ints. */
  lemma NatToStringInjective(m: nat, n: nat)
    requires NatToString(m) == NatToString(n)
    ensures m == n
  {
    NatToStringRoundTrip(m);
    NatToStringRoundTrip(n);
  }

  /** The number of leading decimal digits of s. */
  function LeadingDigits(s: string): (n: nat)
    ensures n <= |s| && AllDigits(s[..n])
    ensures n < |s| ==> !IsDigit(s[n])
  {
    if s != [] && IsDigit(s[0]) then
      var n := 1 + LeadingDigits(s[1..]);
      assert s[..n] == [s[0]] + s[1..][..n - 1];
      n
    else 0
  }

  /** m * 10^e for a possibly negative exponent e. */
  function Scale(m: real, e: int): real {
    if e >= 0 then m * Pow10(e) as real else m / Pow10(-e) as real
  }

  /** An exponent part `(e|E)[+|-]digits` at the start of s: its length and
      value, or (0, 0) when s does not start with a complete one. */
  function ExponentPrefix(s: string): (r: (nat, int))
    ensures r.0 == 0 ==> r.1 == 0
    ensures r.0 <= |s|
    ensures r.0 > 0 ==> r.0 >= 2 && (s[0] == 'e' || s[0] == 'E')
  {
    if |s| >= 2 && (s[0] == 'e' || s[0] == 'E') then
      var sl := if s[1] == '+' || s[1] == '-' then 1 else 0;
      var d := LeadingDigits(s[1 + sl..]);
      if d == 0 then (0, 0)
      else
        var v: int := DigitsValue(s[1 + sl..][..d]);
        (1 + sl + d, if sl == 1 && s[1] == '-' then -v else v)
    else (0, 0)
  }

  /** The length of an optional leading sign. */
  function SignLength(s: string): (n: nat)
    ensures n <= |s|
  {
    if |s| > 0 && (s[0] == '+' || s[0] == '-') then 1 else 0
  }

  /** The mantissa `digits[.digits*] | .digits` at the start of s, as (length,
      value); length 0 when s starts with none. */
  function Mantissa(s: string): (r: (nat, real))
    ensures r.0 <= |s|
  {
    var id := LeadingDigits(s);
    var hasDot := id < |s| && s[id] == '.';
    var fd := if hasDot then LeadingDigits(s[id + 1..]) else 0;
    if id + fd == 0 then (0, 0.0)
    else if hasDot then (id + 1 + fd, DigitsValue(s[..id]) as real + DigitsValue(s[id + 1..][..fd]) as real / Pow10(fd) as real)
    else (id, DigitsValue(s[..id]) as real)
  }

  /** The longest decimal float literal `[+|-](digits[.digits*] | .digits)[exponent]`
      at the start of s, as (length, value); None when s starts with none.
      Digit-group underscores and the inf/nan/Infinity spellings are not part of it. */
  function DecimalPrefix(s: string): (r: Option<(nat, real)>)
    ensures r.Some? ==> 0 < r.value.0 <= |s|
  {
    var sl := SignLength(s);
    var m := Mantissa(s[sl..]);
    if m.0 == 0 then None
    else
      var ex := ExponentPrefix(s[sl..][m.0..]);
      var mag := Scale(m.1, ex.1);
      Some((sl + m.0 + ex.0, if sl == 1 && s[0] == '-' then -mag else mag))
  }

  /** A whole string that is exactly one decimal float literal, and its value. */
  function DecimalLiteral(s: string): (r: Option<real>)
    ensures r.Some? ==> |s| > 0
  {
    var r := DecimalPrefix(s);
    if r.Some? && r.value.0 == |s| then Some(r.value.1) else None
  }

  /** A string of digits is a decimal literal worth its digit value. */
  lemma DigitsAreDecimalLiteral(s: string)
    requires |s| > 0 && AllDigits(s)
    ensures DecimalLiteral(s) == Some(DigitsValue(s) as real)
  {
    assert SignLength(s) == 0;
    assert s[0..] == s;
    DigitsLeading(s);
    assert s[..|s|] == s;
    var m := Mantissa(s);
    assert m.0 == |s| && m.1 == DigitsValue(s) as real;
    assert s[m.0..] == [];
    ScaleZero(m.1);
  }

  lemma {:induction false} DigitsLeading(s: string)
    requires AllDigits(s)
    ensures LeadingDigits(s) == |s|
  {
    if s != [] {
      DigitsLeading(s[1..]);
    }
  }

  /** Leading digits run on past a block of digits. */
  lemma {:induction false} LeadingDigitsAppend(d: string, rest: string)
    requires AllDigits(d)
    ensures LeadingDigits(d + rest) == |d| + LeadingDigits(rest)
  {
    if d != [] {
      assert (d + rest)[1..] == d[1..] + rest;
      LeadingDigitsAppend(d[1..], rest);
    } else {
      assert d + rest == rest;
    }
  }

  /** `digits.digits` is a decimal literal worth the integer part plus the
      fraction digits over the matching power of ten. */
  lemma DecimalPointLiteral(d: string, f: string)
    requires |d| > 0 && AllDigits(d) && AllDigits(f)
    ensures var r := DecimalLiteral(d + "." + f);
      r.Some? && r.value == DigitsValue(d) as real + DigitsValue(f) as real / Pow10(|f|) as real
  {
    DecimalPointPrefix(d, f);
  }

  lemma DecimalPointPrefix(d: string, f: string)
    requires |d| > 0 && AllDigits(d) && AllDigits(f)
    ensures var r := DecimalPrefix(d + "." + f);
      r.Some? && r.value.0 == |d| + 1 + |f| && r.value.1 == DigitsValue(d) as real + DigitsValue(f) as real / Pow10(|f|) as real
  {
    var s := d + "." + f;
    assert s[0] == d[0];
    assert SignLength(s) == 0;
    assert s[0..] == s;
    DecimalPointMantissa(d, f);
    var m := Mantissa(s);
    assert s[m.0..] == [];
    ScaleZero(m.1);
  }

  lemma DecimalPointMantissa(d: string, f: string)
    requires |d| > 0 && AllDigits(d) && AllDigits(f)
    ensures var m := Mantissa(d + "." + f);
      m.0 == |d| + 1 + |f| && m.1 == DigitsValue(d) as real + DigitsValue(f) as real / Pow10(|f|) as real
  {
    var s := d + "." + f;
    var rest := "." + f;
    assert s == d + rest;
    assert rest[0] == '.' && !IsDigit(rest[0]);
    assert LeadingDigits(rest) == 0;
    LeadingDigitsAppend(d, rest);
    assert LeadingDigits(s) == |d|;
    assert s[|d|] == '.';
    assert s[|d| + 1..] == f;
    DigitsLeading(f);
    assert s[|d| + 1..][..|f|] == f;
    assert s[..|d|] == d;
  }

  lemma ScaleZero(m: real)
    ensures Scale(m, 0) == m
  {
    assert Pow10(0) == 1;
  }

  /** A whole string that is exactly `[+|-]digits`, and its value (Python's int() of a str, after strip). */
  function IntLiteral(s: string): (r: Option<int>)
    ensures r.Some? ==> |s| > 0
  {
    var sl := if |s| > 0 && (s[0] == '+' || s[0] == '-') then 1 else 0;
    var body := s[sl..];
    if |body| > 0 && AllDigits(body) then
      var v: int := DigitsValue(body);
      Some(if sl == 1 && s[0] == '-' then -v else v)
    else None
  }

  /** Truncation toward zero, as Python's int() of a float and JavaScript's parseInt of a number. */
  function Trunc(x: real): (n: int)
    ensures x >= 0.0 ==> n as real <= x < n as real + 1.0
    ensures x < 0.0 ==> n as real - 1.0 < x <= n as real
  {
    if x >= 0.0 then x.Floor else -((-x).Floor)
  }

}
