/** The template filters of viabilidade/templatetags/fmt_br.py: fmt_br (the
    Brazilian separator swap over an English-formatted number), div, mul and
    get_item, each a single expression guarded by try/except. */
module FmtBr {
  import opened Wrappers
  import opened PyRuntime

  /** What the swap chain does to one character: ',' and '.' trade places,
      and the placeholder 'X' comes out as '.'. */
  function SwapChar(c: char): char {
    if c == ',' then '.' else if c == '.' then ',' else if c == 'X' then '.' else c
  }

  /** `.replace(",", "X").replace(".", ",").replace("X", ".")`. */
  function SwapSeparators(s: string): (r: string)
    ensures |r| == |s|
    ensures forall i | 0 <= i < |s| :: r[i] == SwapChar(s[i])
  {
    Replace(Replace(Replace(s, ',', 'X'), '.', ','), 'X', '.')
  }

  /** On text without the placeholder, the swap turns every ',' into '.',
      every '.' into ',' and leaves every other character where it was. */
  lemma SwapWithoutPlaceholder(s: string)
    requires 'X' !in s
    ensures forall i | 0 <= i < |s| ::
      && (s[i] == ',' <==> SwapSeparators(s)[i] == '.')
      && (s[i] == '.' <==> SwapSeparators(s)[i] == ',')
      && (s[i] != ',' && s[i] != '.' ==> SwapSeparators(s)[i] == s[i])
  {
    forall i | 0 <= i < |s|
      ensures s[i] != 'X'
    {
      assert s[i] in s;
    }
  }

  /** Swapping twice gives the text back, as long as it holds no 'X'. */
  lemma SwapInvolution(s: string)
    requires 'X' !in s
    ensures SwapSeparators(SwapSeparators(s)) == s
  {
    var r := SwapSeparators(s);
    forall i | 0 <= i < |s|
      ensures SwapSeparators(r)[i] == s[i]
    {
      assert s[i] in s;
    }
  }

  /** A literal 'X' does not survive the swap: the chain uses it as its
      placeholder, so it comes out as '.'. */
  lemma PlaceholderBecomesDot()
    ensures SwapSeparators("1X5") == "1.5"
  {
    assert SwapSeparators("1X5")[1] == '.';
  }

  /** fmt_br: float() of the value rendered by `format` (the `,.2f` format
      spec, which is not modelled) and then swapped; a value float() refuses
      comes back unchanged. */
  function FmtBr(value: Json, format: real -> string): (r: Json)
    ensures PyFloat(value).Raised? ==> r == value
    ensures PyFloat(value).Ok? ==> r.JStr? && |r.s| == |format(PyFloat(value).value)|
    ensures PyFloat(value).Ok? && 'X' !in format(PyFloat(value).value) ==>
      SwapSeparators(r.s) == format(PyFloat(value).value)
  {
    match PyFloat(value)
    case Raised(_) => value
    case Ok(v) =>
      assert 'X' !in format(v) ==> SwapSeparators(SwapSeparators(format(v))) == format(v) by {
        if 'X' !in format(v) {
          SwapInvolution(format(v));
        }
      }
      JStr(SwapSeparators(format(v)))
  }

  /** div: value / arg, or 0 when arg is 0 or either operand is refused by float(). */
  function Div(value: Json, arg: Json): (r: real)
    ensures PyFloat(arg).Raised? || PyFloat(value).Raised? ==> r == 0.0
    ensures PyFloat(arg).Ok? && PyFloat(arg).value == 0.0 ==> r == 0.0
    ensures PyFloat(value).Ok? && PyFloat(arg).Ok? && PyFloat(arg).value != 0.0 ==>
      r * PyFloat(arg).value == PyFloat(value).value
  {
    QuotientTimesDivisor(PyFloat(value), PyFloat(arg));
    Quotient(PyFloat(value), PyFloat(arg))
  }

  /** Div on the two float() outcomes, the divisor checked first. */
  function Quotient(v: Outcome<real>, a: Outcome<real>): real {
    match a
    case Raised(_) => 0.0
    case Ok(d) =>
      if d == 0.0 then 0.0
      else match v
        case Raised(_) => 0.0
        case Ok(n) => n / d
  }

  lemma QuotientTimesDivisor(v: Outcome<real>, a: Outcome<real>)
    ensures v.Ok? && a.Ok? && a.value != 0.0 ==> Quotient(v, a) * a.value == v.value
  {
    if v.Ok? && a.Ok? && a.value != 0.0 {
      var q := v.value / a.value;
      assert q * a.value == v.value;
    }
  }

  /** mul: value × arg, or 0 when either operand is refused by float(). */
  function Mul(value: Json, arg: Json): (r: real)
    ensures PyFloat(value).Raised? || PyFloat(arg).Raised? ==> r == 0.0
    ensures PyFloat(value).Ok? && PyFloat(arg).Ok? ==> r == PyFloat(value).value * PyFloat(arg).value
  {
    Product(PyFloat(value), PyFloat(arg))
  }

  /** Mul on the two float() outcomes. */
  function Product(v: Outcome<real>, a: Outcome<real>): real {
    match v
    case Raised(_) => 0.0
    case Ok(n) =>
      match a
      case Raised(_) => 0.0
      case Ok(d) => n * d
  }

  /** mul undoes div: multiplying the quotient back by a non-zero divisor
      gives the dividend. */
  lemma MulUndoesDiv(value: Json, arg: Json)
    requires PyFloat(value).Ok? && PyFloat(arg).Ok? && PyFloat(arg).value != 0.0
    ensures Mul(JNum(Div(value, arg)), arg) == PyFloat(value).value
  {
    var q := Div(value, arg);
    assert PyFloat(JNum(q)) == Ok(q);
    ProductUndoesQuotient(PyFloat(value), PyFloat(arg));
  }

  /** The same on the outcomes: both defined and the divisor non-zero. */
  lemma ProductUndoesQuotient(v: Outcome<real>, a: Outcome<real>)
    requires v.Ok? && a.Ok? && a.value != 0.0
    ensures Product(Ok(Quotient(v, a)), a) == v.value
  {
    var q := v.value / a.value;
    assert q * a.value == v.value;
  }

  /** mul does not depend on the order of its operands, errors included. */
  lemma MulCommutes(value: Json, arg: Json)
    ensures Mul(value, arg) == Mul(arg, value)
  {
  }

  /** get_item: `dictionary.get(key)`, None (here JNull) for a missing key,
      and '' when the argument is not a mapping. */
  function GetItem(dictionary: Json, key: string): (r: Json)
    ensures !dictionary.JObj? ==> r == JStr("")
    ensures dictionary.JObj? && In(dictionary.fields, key) ==> Get(dictionary.fields, key) == Some(r)
    ensures dictionary.JObj? && !In(dictionary.fields, key) ==> r == JNull
  {
    if dictionary.JObj? then GetOr(dictionary.fields, key, JNull) else JStr("")
  }

  /** get_item reads back what a dict assignment stored. */
  lemma GetItemAfterSet(fields: Dict<Json>, key: string, v: Json)
    ensures GetItem(JObj(Set(fields, key, v)), key) == v
  {
  }
}
