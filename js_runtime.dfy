/** The parts of JavaScript's runtime the browser code leans on: the
    characters `\s` and String.prototype.trim treat as white space, and
    parseFloat, which reads the longest decimal literal after leading white
    space and gives NaN (here None) when there is none. */
module JsRuntime {
  import opened Wrappers
  import opened Numerals

  /** WhiteSpace or LineTerminator in ECMAScript: the set `\s` matches and trim() removes. */
  predicate JsIsSpace(c: char) {
    c == '\t' || c == '\n' || c == '\U{000B}' || c == '\U{000C}' || c == '\r' || c == ' '
    || c == '\U{00A0}' || c == '\U{1680}' || ('\U{2000}' <= c <= '\U{200A}')
    || c == '\U{2028}' || c == '\U{2029}' || c == '\U{202F}' || c == '\U{205F}'
    || c == '\U{3000}' || c == '\U{FEFF}'
  }

  predicate JsAllSpace(s: string) {
    forall i | 0 <= i < |s| :: JsIsSpace(s[i])
  }

  function TrimStart(s: string): (r: string)
    ensures |r| <= |s| && r == s[|s| - |r|..]
    ensures JsAllSpace(s[..|s| - |r|])
    ensures r != [] ==> !JsIsSpace(r[0])
  {
    if s != [] && JsIsSpace(s[0]) then
      var r := TrimStart(s[1..]);
      assert s[..|s| - |r|] == [s[0]] + s[1..][..|s| - 1 - |r|];
      r
    else s
  }

  function TrimEnd(s: string): (r: string)
    ensures |r| <= |s| && r == s[..|r|]
    ensures JsAllSpace(s[|r|..])
    ensures r != [] ==> !JsIsSpace(r[|r| - 1])
  {
    if s != [] && JsIsSpace(s[|s| - 1]) then
      var r := TrimEnd(s[..|s| - 1]);
      assert s[|r|..] == s[..|s| - 1][|r|..] + [s[|s| - 1]];
      r
    else s
  }

  /** String.prototype.trim. */
  function Trim(s: string): (r: string)
    ensures r == [] <==> JsAllSpace(s)
    ensures r != [] ==> !JsIsSpace(r[0]) && !JsIsSpace(r[|r| - 1])
  {
    var l := TrimStart(s);
    var r := TrimEnd(l);
    assert r == [] ==> s == s[..|s| - |l|] + l[..|r|] + l[|r|..];
    r
  }

  /** A string without white space at either end trims to itself. */
  lemma TrimKeeps(s: string)
    requires s != [] && !JsIsSpace(s[0]) && !JsIsSpace(s[|s| - 1])
    ensures Trim(s) == s && TrimStart(s) == s
  {
  }

  /** parseFloat of a string that does not start with white space reads the
      literal at its very start. */
  lemma ParseFloatUnspaced(s: string)
    requires s != [] && !JsIsSpace(s[0])
    ensures DecimalPrefix(s).Some? ==> ParseFloat(s).Some? && ParseFloat(s).value == DecimalPrefix(s).value.1
  {
    assert TrimStart(s) == s;
  }

  /** `s.replace(/\s/g, '')`. */
  function RemoveSpaces(s: string): (r: string)
    ensures forall i | 0 <= i < |r| :: !JsIsSpace(r[i])
    ensures forall i | 0 <= i < |r| :: r[i] in s
  {
    if s == [] then [] else (if JsIsSpace(s[0]) then [] else [s[0]]) + RemoveSpaces(s[1..])
  }

  /** parseFloat of a string: None stands for NaN. The `Infinity` spelling is not modelled. */
  function ParseFloat(s: string): Option<real> {
    var p := DecimalPrefix(TrimStart(s));
    if p.Some? then Some(p.value.1) else None
  }
}
