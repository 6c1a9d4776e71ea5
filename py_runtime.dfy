/** The parts of Python's runtime the modelled code leans on: JSON values as a
    JSONField or the projects file holds them, insertion-ordered dicts,
    exceptions that escape, truthiness, str.strip/str.replace, and the
    float()/int() conversions of strings. */
module PyRuntime {
  import opened Wrappers
  import opened Numerals

  /** The exceptions the modelled code can raise without catching them. */
  datatype Exc = KeyError | TypeError | ValueError | AttributeError

  /** A value, or the exception that escaped while it was computed. */
  datatype Outcome<T> = Ok(value: T) | Raised(exc: Exc)

  /** A Python dict, in insertion order (keys are unique, see UniqueKeys). */
  type Dict<V> = seq<(string, V)>

  /** A JSON value. Python ints and floats are both JNum. */
  datatype Json =
    | JNull
    | JBool(b: bool)
    | JNum(n: real)
    | JStr(s: string)
    | JArr(items: seq<Json>)
    | JObj(fields: Dict<Json>)

  // ---------------------------------------------------------------- dicts

  ghost predicate UniqueKeys<V>(d: Dict<V>) {
    forall i, j | 0 <= i < j < |d| :: d[i].0 != d[j].0
  }

  function Keys<V>(d: Dict<V>): seq<string> {
    seq(|d|, i requires 0 <= i < |d| => d[i].0)
  }

  /** The position of key k, if present. */
  function Find<V>(d: Dict<V>, k: string): (r: Option<nat>)
    ensures r.Some? ==> r.value < |d| && d[r.value].0 == k
    ensures r.Some? ==> forall j | 0 <= j < r.value :: d[j].0 != k
    ensures r.None? <==> forall j | 0 <= j < |d| :: d[j].0 != k
  {
    if d == [] then None
    else if d[0].0 == k then Some(0)
    else match Find(d[1..], k)
      case None => None
      case Some(i) => Some(i + 1)
  }

  lemma FindAt<V>(d: Dict<V>, i: nat)
    requires UniqueKeys(d) && i < |d|
    ensures Find(d, d[i].0) == Some(i)
  {
  }

  /** `k in d`. */
  predicate In<V>(d: Dict<V>, k: string) {
    Find(d, k).Some?
  }

  /** `d[k]` where it does not raise KeyError. */
  function Get<V>(d: Dict<V>, k: string): Option<V> {
    match Find(d, k)
    case Some(i) => Some(d[i].1)
    case None => None
  }

  /** `d.get(k, dflt)`. */
  function GetOr<V>(d: Dict<V>, k: string, dflt: V): V {
    match Get(d, k)
    case Some(v) => v
    case None => dflt
  }

  /** `d[k] = v`: replaces in place, or appends a new key at the end. */
  function Set<V>(d: Dict<V>, k: string, v: V): (r: Dict<V>)
    ensures Keys(r) == if In(d, k) then Keys(d) else Keys(d) + [k]
    ensures UniqueKeys(d) ==> UniqueKeys(r)
    ensures Get(r, k) == Some(v)
    ensures forall k' | k' != k :: Find(r, k') == Find(d, k') && Get(r, k') == Get(d, k')
  {
    match Find(d, k)
    case Some(i) => SetReplaces(d, i, k, v); d[i := (k, v)]
    case None => SetAppends(d, k, v); d + [(k, v)]
  }

  /** Replacing the value at the key's position keeps every position. */
  lemma SetReplaces<V>(d: Dict<V>, i: nat, k: string, v: V)
    requires Find(d, k) == Some(i)
    ensures var r := d[i := (k, v)];
      && Keys(r) == Keys(d)
      && (UniqueKeys(d) ==> UniqueKeys(r))
      && Get(r, k) == Some(v)
      && forall k' | k' != k :: Find(r, k') == Find(d, k') && Get(r, k') == Get(d, k')
  {
    var r := d[i := (k, v)];
    forall k' ensures Find(r, k') == Find(d, k') { FindSameKeys(r, d, k'); }
    assert Keys(r) == Keys(d);
  }

  /** Appending a new key leaves the positions of the others alone. */
  lemma SetAppends<V>(d: Dict<V>, k: string, v: V)
    requires Find(d, k).None?
    ensures var r := d + [(k, v)];
      && Keys(r) == Keys(d) + [k]
      && (UniqueKeys(d) ==> UniqueKeys(r))
      && Get(r, k) == Some(v)
      && forall k' | k' != k :: Find(r, k') == Find(d, k') && Get(r, k') == Get(d, k')
  {
    var r := d + [(k, v)];
    AppendKeepsFind(d, k, v);
    assert r[|d|].0 == k && forall j | 0 <= j < |d| :: r[j] == d[j];
    assert Keys(r) == Keys(d) + [k];
  }

  lemma AppendKeepsFind<V>(d: Dict<V>, k: string, v: V)
    ensures forall k' | k' != k :: Find(d + [(k, v)], k') == Find(d, k')
  {
    var r := d + [(k, v)];
    forall k' | k' != k ensures Find(r, k') == Find(d, k') {
      assert r[..|d|] == d;
      FindSameKeys(r[..|d|], d, k');
    }
  }

  /** Find looks at the keys only. */
  lemma FindSameKeys<V, W>(d1: Dict<V>, d2: Dict<W>, k: string)
    requires |d1| == |d2| && forall i | 0 <= i < |d1| :: d1[i].0 == d2[i].0
    ensures Find(d1, k) == Find(d2, k)
  {
    match Find(d1, k)
    case None =>
    case Some(i) =>
      assert d2[i].0 == k;
  }

  /** The dict as a mathematical map; Python's `==` on dicts ignores order, as map equality does. */
  function ToMap<V>(d: Dict<V>): (m: map<string, V>)
    ensures forall k :: k in m <==> In(d, k)
    ensures forall k | k in m :: Get(d, k) == Some(m[k])
  {
    if d == [] then map[] else ToMap(d[1..])[d[0].0 := d[0].1]
  }

  /** `{k: v for k, v in kvs}`: the pairs stored in order, a later pair
      under a key already present overwriting its value. */
  function FromPairs<V>(kvs: seq<(string, V)>): Dict<V> {
    if kvs == [] then [] else Set(FromPairs(kvs[..|kvs| - 1]), kvs[|kvs| - 1].0, kvs[|kvs| - 1].1)
  }

  /** The built dict has unique keys, and a key it holds comes with the
      value of one of the pairs under that key. */
  lemma {:induction false} FromPairsGet<V>(kvs: seq<(string, V)>, k: string)
    ensures UniqueKeys(FromPairs(kvs))
    ensures Get(FromPairs(kvs), k).Some? ==> (k, Get(FromPairs(kvs), k).value) in kvs
  {
    if kvs != [] {
      var n := |kvs| - 1;
      var init := kvs[..n];
      FromPairsGet(init, k);
      assert kvs == init + [kvs[n]];
      if kvs[n].0 != k {
        assert Get(FromPairs(kvs), k) == Get(FromPairs(init), k);
      } else {
        assert Get(FromPairs(kvs), k) == Some(kvs[n].1);
      }
    }
  }

  /** Every pair's key is in the built dict. */
  lemma {:induction false} FromPairsHas<V>(kvs: seq<(string, V)>, i: nat)
    requires i < |kvs|
    ensures In(FromPairs(kvs), kvs[i].0)
  {
    var n := |kvs| - 1;
    var init := kvs[..n];
    var d := FromPairs(init);
    var key := kvs[i].0;
    assert FromPairs(kvs) == Set(d, kvs[n].0, kvs[n].1);
    if i == n || key == kvs[n].0 {
      assert Get(FromPairs(kvs), key).Some?;
    } else {
      assert init[i] == kvs[i];
      FromPairsHas(init, i);
      assert Find(FromPairs(kvs), key) == Find(d, key);
    }
  }

  // ------------------------------------------------------------ JSON values

  /** Python truthiness of a JSON value. */
  predicate Truthy(j: Json) {
    match j
    case JNull => false
    case JBool(b) => b
    case JNum(n) => n != 0.0
    case JStr(s) => s != ""
    case JArr(xs) => xs != []
    case JObj(fs) => fs != []
  }

  /** `isinstance(j, (int, float))`; bool is a subclass of int. */
  predicate IsNumber(j: Json) {
    j.JNum? || j.JBool?
  }

  /** The Python dict `{"percentual": p, "fonte": "Manual"}`. */
  function ManualShare(p: Json): (e: Json)
    ensures e.JObj? && UniqueKeys(e.fields)
    ensures Get(e.fields, "percentual") == Some(p)
    ensures Get(e.fields, "fonte") == Some(JStr("Manual"))
  {
    JObj([("percentual", p), ("fonte", JStr("Manual"))])
  }

  // -------------------------------------------------------------- sums

  /** sum() of a list of numbers, accumulated left to right. */
  function Sum(xs: seq<real>): real {
    if xs == [] then 0.0 else Sum(xs[..|xs| - 1]) + xs[|xs| - 1]
  }

  /** The values of a dict, in order (`d.values()`). */
  function Values<V>(d: Dict<V>): (vs: seq<V>)
    ensures |vs| == |d| && forall i | 0 <= i < |d| :: vs[i] == d[i].1
  {
    seq(|d|, i requires 0 <= i < |d| => d[i].1)
  }

  /** Every element multiplied by c. */
  function Scaled(xs: seq<real>, c: real): (ys: seq<real>)
    ensures |ys| == |xs| && forall i | 0 <= i < |xs| :: ys[i] == xs[i] * c
  {
    seq(|xs|, i requires 0 <= i < |xs| => xs[i] * c)
  }

  lemma {:induction false} SumAppend(a: seq<real>, b: seq<real>)
    ensures Sum(a + b) == Sum(a) + Sum(b)
  {
    if b == [] {
      assert a + b == a;
    } else {
      assert (a + b)[..|a + b| - 1] == a + b[..|b| - 1];
      SumAppend(a, b[..|b| - 1]);
    }
  }

  /** Multiplying every term by c multiplies the sum by c. */
  lemma {:induction false} SumScaled(xs: seq<real>, c: real)
    ensures Sum(Scaled(xs, c)) == Sum(xs) * c
  {
    if xs != [] {
      var ys, zs := Scaled(xs, c), Scaled(xs[..|xs| - 1], c);
      assert forall i | 0 <= i < |zs| :: ys[..|xs| - 1][i] == zs[i];
      assert ys[..|xs| - 1] == zs;
      SumScaled(xs[..|xs| - 1], c);
    }
  }

  lemma {:induction false} SumNonNegative(xs: seq<real>)
    ensures (forall i | 0 <= i < |xs| :: xs[i] >= 0.0) ==> Sum(xs) >= 0.0
  {
    if xs != [] {
      SumNonNegative(xs[..|xs| - 1]);
    }
  }

  // ---------------------------------------------------------------- strings

  /** str.isspace() of one character (the characters str.strip() removes). */
  predicate IsSpace(c: char) {
    c == ' ' || c == '\t' || c == '\n' || c == '\r' || c == '\U{000B}' || c == '\U{000C}'
    || ('\U{001C}' <= c <= '\U{001F}') || c == '\U{0085}' || c == '\U{00A0}' || c == '\U{1680}'
    || ('\U{2000}' <= c <= '\U{200A}') || c == '\U{2028}' || c == '\U{2029}' || c == '\U{202F}'
    || c == '\U{205F}' || c == '\U{3000}'
  }

  predicate AllSpace(s: string) {
    forall i | 0 <= i < |s| :: IsSpace(s[i])
  }

  function LStrip(s: string): (r: string)
    ensures |r| <= |s| && r == s[|s| - |r|..]
    ensures AllSpace(s[..|s| - |r|])
    ensures r != [] ==> !IsSpace(r[0])
  {
    if s != [] && IsSpace(s[0]) then
      var r := LStrip(s[1..]);
      var lead := s[1..][..|s| - 1 - |r|];
      assert s[..|s| - |r|] == [s[0]] + lead;
      assert s[1..][|s| - 1 - |r|..] == s[|s| - |r|..];
      r
    else s
  }

  function RStrip(s: string): (r: string)
    ensures |r| <= |s| && r == s[..|r|]
    ensures AllSpace(s[|r|..])
    ensures r != [] ==> !IsSpace(r[|r| - 1])
  {
    if s != [] && IsSpace(s[|s| - 1]) then
      var r := RStrip(s[..|s| - 1]);
      assert s[|r|..] == s[..|s| - 1][|r|..] + [s[|s| - 1]];
      r
    else s
  }

  /** str.strip(): the string without its leading and trailing whitespace. */
  function Strip(s: string): (r: string)
    ensures r == [] <==> AllSpace(s)
    ensures r != [] ==> !IsSpace(r[0]) && !IsSpace(r[|r| - 1])
    ensures |r| <= |s|
  {
    var l := LStrip(s);
    var r := RStrip(l);
    assert r == [] ==> s == s[..|s| - |l|] + l[..|r|] + l[|r|..];
    r
  }

  /** The number of occurrences of c in s. */
  function Count(s: string, c: char): nat {
    if s == [] then 0 else (if s[0] == c then 1 else 0) + Count(s[1..], c)
  }

  lemma {:induction false} CountZero(s: string, c: char)
    ensures Count(s, c) == 0 <==> c !in s
  {
    if s != [] {
      CountZero(s[1..], c);
      assert c in s <==> s[0] == c || c in s[1..];
    }
  }

  /** s.replace(a, b) for one-character a and b. */
  function Replace(s: string, a: char, b: char): (r: string)
    ensures |r| == |s|
    ensures forall i | 0 <= i < |s| :: r[i] == if s[i] == a then b else s[i]
  {
    seq(|s|, i requires 0 <= i < |s| => if s[i] == a then b else s[i])
  }

  /** s.replace(c, ''). */
  function Remove(s: string, c: char): (r: string)
    ensures c !in r
    ensures forall x | x in r :: x in s
  {
    if s == [] then [] else (if s[0] == c then [] else [s[0]]) + Remove(s[1..], c)
  }

  lemma {:induction false} CountRemove(s: string, c: char, x: char)
    ensures Count(Remove(s, c), x) == if x == c then 0 else Count(s, x)
  {
    if s != [] {
      CountRemove(s[1..], c, x);
      var t := if s[0] == c then [] else [s[0]];
      CountAppend(t, Remove(s[1..], c), x);
    }
  }

  lemma {:induction false} CountAppend(a: string, b: string, x: char)
    ensures Count(a + b, x) == Count(a, x) + Count(b, x)
  {
    if a == [] {
      assert a + b == b;
    } else {
      assert (a + b)[1..] == a[1..] + b;
      CountAppend(a[1..], b, x);
    }
  }

  lemma {:induction false} CountReplace(s: string, a: char, b: char)
    requires a != b
    ensures Count(Replace(s, a, b), b) == Count(s, a) + Count(s, b)
    ensures Count(Replace(s, a, b), a) == 0
  {
    if s != [] {
      assert Replace(s, a, b)[1..] == Replace(s[1..], a, b);
      CountReplace(s[1..], a, b);
    }
  }

  lemma {:induction false} RemoveAppend(a: string, b: string, c: char)
    ensures Remove(a + b, c) == Remove(a, c) + Remove(b, c)
  {
    if a == [] {
      assert a + b == b;
    } else {
      assert (a + b)[0] == a[0] && (a + b)[1..] == a[1..] + b;
      RemoveAppend(a[1..], b, c);
    }
  }

  lemma {:induction false} RemoveLength(s: string, c: char)
    ensures |Remove(s, c)| + Count(s, c) == |s|
  {
    if s != [] {
      RemoveLength(s[1..], c);
    }
  }

  /** Removing c keeps the order of what remains: a character of s at index i
      that is not c lands at index i less the number of c's before it. */
  lemma RemoveAt(s: string, c: char, i: int)
    requires 0 <= i < |s| && s[i] != c
    ensures 0 <= i - Count(s[..i], c) < |Remove(s, c)|
    ensures Remove(s, c)[i - Count(s[..i], c)] == s[i]
  {
    assert s == s[..i] + s[i..];
    RemoveAppend(s[..i], s[i..], c);
    RemoveLength(s[..i], c);
    assert s[i..][0] == s[i] && s[i..][1..] == s[i + 1..];
    assert Remove(s[i..], c) == [s[i]] + Remove(s[i + 1..], c);
  }

  /** Every character Remove keeps lands at its index less the removed
      characters before it. */
  lemma RemoveKeepsOrder(t: string, c: char)
    ensures forall i {:trigger Count(t[..i], c)} | 0 <= i < |t| && t[i] != c ::
      0 <= i - Count(t[..i], c) < |Remove(t, c)| && Remove(t, c)[i - Count(t[..i], c)] == t[i]
  {
    forall i | 0 <= i < |t| && t[i] != c
      ensures 0 <= i - Count(t[..i], c) < |Remove(t, c)| && Remove(t, c)[i - Count(t[..i], c)] == t[i]
    {
      RemoveAt(t, c, i);
    }
  }

  lemma {:induction false} RemoveAbsent(s: string, c: char)
    requires c !in s
    ensures Remove(s, c) == s
  {
    if s != [] {
      assert s == [s[0]] + s[1..];
      RemoveAbsent(s[1..], c);
    }
  }

  /** A string without white space at either end strips to itself. */
  lemma StripKeeps(s: string)
    requires s != [] && !IsSpace(s[0]) && !IsSpace(s[|s| - 1])
    ensures Strip(s) == s
  {
  }

  /** Python's str(n) of a non-negative int. */
  function StrOfNat(n: nat): string {
    NatToString(n)
  }

  // ----------------------------------------------------- number conversions

  /** float(s) for a str: None where Python raises ValueError. */
  function FloatOfStr(s: string): Option<real> {
    DecimalLiteral(Strip(s))
  }

  /** float() of a literal with no white space around it is the literal's value. */
  lemma FloatOfLiteral(s: string, x: real)
    requires s != [] && !IsSpace(s[0]) && !IsSpace(s[|s| - 1])
    requires DecimalLiteral(s) == Some(x)
    ensures FloatOfStr(s) == Some(x)
  {
    StripKeeps(s);
  }

  /** int(s) for a str: None where Python raises ValueError. */
  function IntOfStr(s: string): Option<int> {
    IntLiteral(Strip(s))
  }

  /** float(j) for a JSON value: ValueError for an unparsable string, TypeError for null, lists and dicts. */
  function PyFloat(j: Json): (r: Outcome<real>)
    ensures j.JNum? ==> r == Ok(j.n)
    ensures r.Raised? <==> !IsNumber(j) && !(j.JStr? && FloatOfStr(j.s).Some?)
  {
    match j
    case JNum(n) => Ok(n)
    case JBool(b) => Ok(if b then 1.0 else 0.0)
    case JStr(s) =>
      (match FloatOfStr(s)
       case Some(v) => Ok(v)
       case None => Raised(ValueError))
    case _ => Raised(TypeError)
  }
}
