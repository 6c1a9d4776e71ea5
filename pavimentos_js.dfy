/** The browser side of the floor table: parseNumBR, the coefficient clamps
    of atualizaCoef and of the slider handler, the totals loop of
    recalcTotais and the field-name matcher of the input handler. */
module PavimentosJs {
  import opened Wrappers
  import opened Numerals
  import opened PyRuntime
  import opened JsRuntime
  import opened Tables
  import opened Services

  // ------------------------------------------------------------- parseNumBR

  /** The number of JavaScript white-space characters in s. */
  function CountSpaces(s: string): nat {
    if s == [] then 0 else (if JsIsSpace(s[0]) then 1 else 0) + CountSpaces(s[1..])
  }

  /** What parseNumBR hands to parseFloat, for an already trimmed t: with a
      comma, the dots are thousands separators and go, and the commas turn
      into decimal points; without one, only white space goes and the dots
      stay. Either way the kept characters keep their order: the one at
      index i moves left by the number of removed characters before it. */
  function NormalizeNumBR(t: string): (r: string)
    ensures ',' in t ==> ',' !in r && Count(r, '.') == Count(t, ',') && |r| + Count(t, '.') == |t|
    ensures ',' in t ==> forall i {:trigger Count(t[..i], '.')} | 0 <= i < |t| && t[i] != '.' ::
      0 <= i - Count(t[..i], '.') < |r| && r[i - Count(t[..i], '.')] == (if t[i] == ',' then '.' else t[i])
    ensures ',' !in t ==>
      (forall i | 0 <= i < |r| :: !JsIsSpace(r[i])) && Count(r, '.') == Count(t, '.') && |r| + CountSpaces(t) == |t|
    ensures ',' !in t ==> forall i {:trigger CountSpaces(t[..i])} | 0 <= i < |t| && !JsIsSpace(t[i]) ::
      0 <= i - CountSpaces(t[..i]) < |r| && r[i - CountSpaces(t[..i])] == t[i]
  {
    if ',' in t then
      var noDots := Remove(t, '.');
      CountRemove(t, '.', ',');
      CountRemove(t, '.', '.');
      RemoveLength(t, '.');
      CountReplace(noDots, ',', '.');
      CountZero(Replace(noDots, ',', '.'), ',');
      RemoveKeepsOrder(t, '.');
      Replace(noDots, ',', '.')
    else
      RemoveSpacesCounts(t, '.');
      RemoveSpacesKeepsOrder(t);
      RemoveSpaces(t)
  }

  /** Every character RemoveSpaces keeps lands at its index less the white
      space before it. */
  lemma RemoveSpacesKeepsOrder(t: string)
    ensures forall i {:trigger CountSpaces(t[..i])} | 0 <= i < |t| && !JsIsSpace(t[i]) ::
      0 <= i - CountSpaces(t[..i]) < |RemoveSpaces(t)| && RemoveSpaces(t)[i - CountSpaces(t[..i])] == t[i]
  {
    forall i | 0 <= i < |t| && !JsIsSpace(t[i])
      ensures 0 <= i - CountSpaces(t[..i]) < |RemoveSpaces(t)| && RemoveSpaces(t)[i - CountSpaces(t[..i])] == t[i]
    {
      RemoveSpacesAt(t, i);
    }
  }

  lemma {:induction false} RemoveSpacesAppend(a: string, b: string)
    ensures RemoveSpaces(a + b) == RemoveSpaces(a) + RemoveSpaces(b)
  {
    if a == [] {
      assert a + b == b;
    } else {
      assert (a + b)[0] == a[0] && (a + b)[1..] == a[1..] + b;
      RemoveSpacesAppend(a[1..], b);
    }
  }

  /** Removing the white space keeps the order of what remains. */
  lemma RemoveSpacesAt(s: string, i: int)
    requires 0 <= i < |s| && !JsIsSpace(s[i])
    ensures 0 <= i - CountSpaces(s[..i]) < |RemoveSpaces(s)|
    ensures RemoveSpaces(s)[i - CountSpaces(s[..i])] == s[i]
  {
    assert s == s[..i] + s[i..];
    RemoveSpacesAppend(s[..i], s[i..]);
    RemoveSpacesCounts(s[..i], '.');
    assert s[i..][0] == s[i] && s[i..][1..] == s[i + 1..];
    assert RemoveSpaces(s[i..]) == [s[i]] + RemoveSpaces(s[i + 1..]);
  }

  lemma {:induction false} RemoveSpacesCounts(s: string, c: char)
    requires !JsIsSpace(c)
    ensures Count(RemoveSpaces(s), c) == Count(s, c)
    ensures |RemoveSpaces(s)| + CountSpaces(s) == |s|
  {
    if s != [] {
      RemoveSpacesCounts(s[1..], c);
      CountAppend(if JsIsSpace(s[0]) then [] else [s[0]], RemoveSpaces(s[1..]), c);
    }
  }

  /** parseNumBR: 0 for null/undefined, blank or unparsable input. */
  function ParseNumBR(val: Option<string>): (n: real)
    ensures val.None? ==> n == 0.0
    ensures val.Some? && JsAllSpace(val.value) ==> n == 0.0
    ensures n != 0.0 ==> (val.Some? && ParseFloat(NormalizeNumBR(Trim(val.value))).Some?
      && ParseFloat(NormalizeNumBR(Trim(val.value))).value == n)
  {
    if val.None? then 0.0
    else
      var s := Trim(val.value);
      if s == "" then 0.0
      else
        var n := ParseFloat(NormalizeNumBR(s));
        if n.Some? then n.value else 0.0
  }

  /** Digits with dots between them, as a Brazilian integer part with
      thousands separators is written. */
  predicate GroupedDigits(s: string) {
    |s| > 0 && IsDigit(s[0]) && forall k | 0 <= k < |s| :: IsDigit(s[k]) || s[k] == '.'
  }

  /** The integer part of a grouped number without its dots is a non-empty digit string. */
  lemma GroupedDigitsUngrouped(s: string)
    requires GroupedDigits(s)
    ensures |Remove(s, '.')| > 0 && AllDigits(Remove(s, '.'))
  {
    var r := Remove(s, '.');
    assert r == [s[0]] + Remove(s[1..], '.');
    forall k | 0 <= k < |r| ensures IsDigit(r[k]) {
      assert r[k] in r;
    }
  }

  /** The integer part without its thousands dots. */
  function Ungrouped(s: string): (d: string)
    requires GroupedDigits(s)
    ensures |d| > 0 && AllDigits(d) && d == Remove(s, '.')
  {
    GroupedDigitsUngrouped(s);
    Remove(s, '.')
  }

  /** Taking a Brazilian number apart: the dots of the integer part go, the
      comma becomes the decimal point. */
  lemma BrazilianShape(i: string, f: string)
    requires GroupedDigits(i) && AllDigits(f)
    ensures Replace(Remove(i + "," + f, '.'), ',', '.') == Remove(i, '.') + "." + f
  {
    GroupedDigitsUngrouped(i);
    RemoveAppend(i + ",", f, '.');
    RemoveAppend(i, ",", '.');
    assert '.' !in f;
    RemoveAbsent(f, '.');
    assert Remove(",", '.') == ",";
    var d := Remove(i, '.');
    var a := d + "," + f;
    var b := d + "." + f;
    assert Remove(i + "," + f, '.') == a;
    forall k | 0 <= k < |a| ensures Replace(a, ',', '.')[k] == b[k] {
      if k < |d| {
        assert IsDigit(d[k]);
      } else if k > |d| {
        assert a[k] == f[k - |d| - 1] && IsDigit(f[k - |d| - 1]);
      }
    }
  }

  /** A Brazilian number `1.234,56` reads as 1234.56. */
  lemma {:induction false} ParseNumBRBrazilian(i: string, f: string)
    requires GroupedDigits(i) && AllDigits(f)
    ensures ParseNumBR(Some(i + "," + f)) == DigitsValue(Ungrouped(i)) as real + DigitsValue(f) as real / Pow10(|f|) as real
  {
    BrazilianNormalized(i, f);
    ParseFloatDecimalPoint(Ungrouped(i), f);
  }

  /** A Brazilian number trims to itself and reaches parseFloat as `digits.digits`. */
  lemma {:induction false} BrazilianNormalized(i: string, f: string)
    requires GroupedDigits(i) && AllDigits(f)
    ensures var s := i + "," + f; Trim(s) == s && s != "" && NormalizeNumBR(s) == Ungrouped(i) + "." + f
  {
    var s := i + "," + f;
    assert s[0] == i[0];
    assert !JsIsSpace(s[|s| - 1]) by {
      if f != [] {
        assert s[|s| - 1] == f[|f| - 1] && IsDigit(f[|f| - 1]);
      }
    }
    TrimKeeps(s);
    assert ',' in s by { assert s[|i|] == ','; }
    BrazilianShape(i, f);
  }

  /** Without a comma the dot stays the decimal point: `1234.56` reads as 1234.56. */
  lemma {:induction false} ParseNumBRDotDecimal(d: string, f: string)
    requires |d| > 0 && AllDigits(d) && AllDigits(f)
    ensures ParseNumBR(Some(d + "." + f)) == DigitsValue(d) as real + DigitsValue(f) as real / Pow10(|f|) as real
  {
    DotDecimalUntouched(d, f);
    ParseFloatDecimalPoint(d, f);
  }

  /** `digits.digits` neither trims nor loses anything on its way to parseFloat. */
  lemma {:induction false} DotDecimalUntouched(d: string, f: string)
    requires |d| > 0 && AllDigits(d) && AllDigits(f)
    ensures var s := d + "." + f; Trim(s) == s && s != "" && NormalizeNumBR(s) == s
  {
    var s := d + "." + f;
    forall k | 0 <= k < |s| ensures s[k] == '.' || IsDigit(s[k]) {
      if k < |d| {
        assert s[k] == d[k];
      } else if k > |d| {
        assert s[k] == f[k - |d| - 1];
      }
    }
    TrimKeeps(s);
    assert ',' !in s;
    NoSpacesKept(s);
  }

  /** parseFloat reads `digits.digits` whole. */
  lemma {:induction false} ParseFloatDecimalPoint(d: string, f: string)
    requires |d| > 0 && AllDigits(d) && AllDigits(f)
    ensures var r := ParseFloat(d + "." + f);
      r.Some? && r.value == DigitsValue(d) as real + DigitsValue(f) as real / Pow10(|f|) as real
  {
    var t := d + "." + f;
    assert t[0] == d[0] && IsDigit(d[0]);
    DecimalPointPrefix(d, f);
    ParseFloatUnspaced(t);
  }

  /** Removing white space from a string that has none leaves it as it is. */
  lemma {:induction false} NoSpacesKept(s: string)
    requires forall k | 0 <= k < |s| :: !JsIsSpace(s[k])
    ensures RemoveSpaces(s) == s
  {
    if s != [] {
      NoSpacesKept(s[1..]);
      assert s == [s[0]] + s[1..];
    }
  }

  // ------------------------------------------------------------------ clamps

  /** `Math.max(min, Math.min(max, v))`. */
  function Clamp(v: real, lo: real, hi: real): (r: real)
    ensures lo <= hi ==> lo <= r <= hi
    ensures lo <= v <= hi ==> r == v
    ensures v < lo ==> r == lo
    ensures lo <= hi < v ==> r == hi
    ensures hi < lo ==> r == lo
  {
    var m := if hi < v then hi else v;
    if lo > m then lo else m
  }

  /** The coefficient widgets of one floor after atualizaCoef. */
  datatype CoefWidgets = CoefWidgets(rangeMin: real, rangeMax: real, rangeValue: real, rangeDisabled: bool, numValue: real)

  /** atualizaCoef for a floor whose slider and numeric input both exist: None
      when the kind is not in the table (nothing changes). An empty numeric
      input counts as the lower bound. */
  function AtualizaCoef(kinds: Dict<CoefRange>, tipo: string, numValue: string): (r: Option<CoefWidgets>)
    ensures r.Some? <==> In(kinds, tipo)
    ensures r.Some? ==>
      var k := GetOr(kinds, tipo, UnknownKind);
      var w := r.value;
      && w.rangeMin == k.lo && w.rangeMax == k.hi
      && (w.rangeDisabled <==> k.lo == k.hi)
      && (k.lo <= k.hi ==> k.lo <= w.numValue <= k.hi && k.lo <= w.rangeValue <= k.hi)
      && (k.lo == k.hi ==> w.numValue == k.lo && w.rangeValue == k.lo)
      && (numValue != "" && k.lo <= ParseNumBR(Some(numValue)) <= k.hi ==> w.numValue == ParseNumBR(Some(numValue)))
      && (numValue == "" ==> w.numValue == k.lo)
  {
    match Get(kinds, tipo)
    case None => None
    case Some(k) =>
      var v := if numValue == "" then k.lo else ParseNumBR(Some(numValue));
      var clamped := Clamp(v, k.lo, k.hi);
      Some(CoefWidgets(k.lo, k.hi, if k.lo == k.hi then k.lo else clamped, k.lo == k.hi, clamped))
  }

  /** With the kinds table the page is given, every kind's coefficient lands inside its range. */
  lemma AtualizaCoefInRange(tipo: string, numValue: string)
    ensures var r := AtualizaCoef(FloorKinds, tipo, numValue);
      r.Some? ==> r.value.rangeMin <= r.value.numValue <= r.value.rangeMax
  {
    TablesWellFormed();
    match Find(FloorKinds, tipo)
    case None =>
    case Some(i) =>
      assert FloorKinds[i].1.lo <= FloorKinds[i].1.hi;
  }

  /** The numeric input's handler: clamp into the slider's [min, max], where
      an empty min counts 0 and an empty max 9999. */
  function SliderClamp(value: string, slMin: string, slMax: string): (r: real)
    ensures var lo := if slMin == "" then 0.0 else ParseNumBR(Some(slMin));
      var hi := if slMax == "" then 9999.0 else ParseNumBR(Some(slMax));
      && (lo <= hi ==> lo <= r <= hi)
      && (lo <= ParseNumBR(Some(value)) <= hi ==> r == ParseNumBR(Some(value)))
  {
    var v := ParseNumBR(Some(value));
    var lo := if slMin == "" then 0.0 else ParseNumBR(Some(slMin));
    var hi := if slMax == "" then 9999.0 else ParseNumBR(Some(slMax));
    Clamp(v, lo, hi)
  }

  // ------------------------------------------------------------- recalcTotais

  /** One `tbody tr` of the page: the values of its rep/area/coef inputs and of
      its kind select (None where the element is missing), and the state of
      its exclusion checkbox (None where there is none). */
  datatype PageRow = PageRow(rep: Option<string>, area: Option<string>, coef: Option<string>, excluir: Option<bool>, tipo: Option<string>)

  /** The totals cards the loop fills in. */
  datatype Cards = Cards(
    areaConstruida: real,
    areaEquivalente: real,
    areaPrivativa: real,
    custoDireto: real,
    custoM2: real,
    custoUnidade: real,
    relApAc: real)

  /** The project-level fields whose focus suspends recalculation. */
  const ProjectFields: seq<string> := [
    "nome", "area_terreno", "area_privativa", "num_unidades",
    "custo_terreno_m2", "custo_area_privativa", "preco_medio_venda_m2"
  ]

  /** Unless forced, a focused project-level field suspends the recalculation. */
  predicate Suspended(force: bool, activeName: Option<string>) {
    !force && activeName.Some? && activeName.value != "" && activeName.value in ProjectFields
  }

  /** `parseNumBR(input.value || '0') || 0`. */
  function FieldValue(v: string): real {
    ParseNumBR(Some(if v == "" then "0" else v))
  }

  /** A row without one of its rep/area/coef inputs is skipped. */
  predicate Counted(r: PageRow) {
    r.rep.Some? && r.area.Some? && r.coef.Some?
  }

  predicate Excluded(r: PageRow) {
    r.excluir == Some(true)
  }

  /** A row as the loop body reads it: whether it is counted, its three
      parsed numbers, the state of its exclusion box and whether its kind is
      the private one. */
  datatype ParsedRow = ParsedRow(counted: bool, rep: real, area: real, coef: real, excluded: bool, privado: bool)

  /** The reads of one row (zero for a row that is skipped). */
  function ParseRow(p: PageRow): (q: ParsedRow)
    ensures q.counted == Counted(p) && q.excluded == Excluded(p) && q.privado == (p.tipo == Some(PrivateArea))
  {
    if Counted(p) then
      ParsedRow(true, FieldValue(p.rep.value), FieldValue(p.area.value), FieldValue(p.coef.value),
        Excluded(p), p.tipo == Some(PrivateArea))
    else ParsedRow(false, 0.0, 0.0, 0.0, Excluded(p), p.tipo == Some(PrivateArea))
  }

  function ParseRows(ps: seq<PageRow>): (qs: seq<ParsedRow>)
    ensures |qs| == |ps| && forall i | 0 <= i < |ps| :: qs[i] == ParseRow(ps[i])
  {
    seq(|ps|, i requires 0 <= i < |ps| => ParseRow(ps[i]))
  }

  /** `area * rep`. */
  function AreaTotal(q: ParsedRow): real {
    q.area * q.rep
  }

  /** `areaTotal * coef`. */
  function AreaEquivalent(q: ParsedRow): real {
    AreaTotal(q) * q.coef
  }

  datatype PageTotals = PageTotals(constr: real, eq: real, priv: real)

  /** One iteration of the forEach. */
  function AddRow(t: PageTotals, q: ParsedRow): PageTotals {
    if !q.counted then t
    else PageTotals(
      if q.excluded then t.constr else t.constr + AreaTotal(q),
      t.eq + AreaEquivalent(q),
      if q.privado then t.priv + AreaTotal(q) else t.priv)
  }

  /** The three accumulators after the rows, in order. */
  function PageSums(qs: seq<ParsedRow>): PageTotals {
    if qs == [] then PageTotals(0.0, 0.0, 0.0)
    else AddRow(PageSums(qs[..|qs| - 1]), qs[|qs| - 1])
  }

  /** `Math.max(1, parseInt(parseNumBR(v) || 1))`; parseInt of a number is
      taken as truncation toward zero. */
  function UnitCount(numUn: Option<string>): (n: int)
    ensures n >= 1
    ensures ParseNumBR(numUn) >= 1.0 ==> n == Trunc(ParseNumBR(numUn))
  {
    var p := ParseNumBR(numUn);
    var t := Trunc(if p == 0.0 then 1.0 else p);
    if t < 1 then 1 else t
  }

  /** `x / d` where d > 0, else 0. */
  function RatioOrZero(x: real, d: real): (r: real)
    ensures d > 0.0 ==> r * d == x
    ensures d <= 0.0 ==> r == 0.0
  {
    if d > 0.0 then x / d else 0.0
  }

  /** The card values from the totals, the unit cost and the unit count. */
  function CardsOf(t: PageTotals, unit: real, units: int): (c: Cards)
    requires units >= 1
    ensures c.areaConstruida == t.constr && c.areaEquivalente == t.eq && c.areaPrivativa == t.priv
    ensures c.custoDireto == t.eq * unit
    ensures t.constr > 0.0 ==> c.custoM2 * t.constr == c.custoDireto && c.relApAc * t.constr == t.priv
    ensures t.constr <= 0.0 ==> c.custoM2 == 0.0 && c.relApAc == 0.0
    ensures c.custoUnidade * units as real == c.custoDireto
  {
    var custo := t.eq * unit;
    Cards(t.constr, t.eq, t.priv, custo, RatioOrZero(custo, t.constr), custo / units as real,
      RatioOrZero(t.priv, t.constr))
  }

  /** What one more row adds to each accumulator. */
  lemma SumsStep(qs: seq<ParsedRow>, i: nat)
    requires i < |qs|
    ensures PageSums(qs[..i + 1]) == AddRow(PageSums(qs[..i]), qs[i])
    ensures var t, u, q := PageSums(qs[..i]), PageSums(qs[..i + 1]), qs[i];
      && u.constr == (if q.counted && !q.excluded then t.constr + AreaTotal(q) else t.constr)
      && u.eq == (if q.counted then t.eq + AreaEquivalent(q) else t.eq)
      && u.priv == (if q.counted && q.privado then t.priv + AreaTotal(q) else t.priv)
  {
    assert qs[..i + 1][..i] == qs[..i];
  }

  /** recalcTotais: None where it returns before writing any card (a focused
      project field, or no rows), else the card values, built from the
      accumulated sums of the parsed rows. */
  method RecalcTotais(force: bool, activeName: Option<string>, rows: seq<PageRow>,
                      custoAreaPriv: Option<string>, numUn: Option<string>) returns (r: Option<Cards>)
    ensures r.None? <==> Suspended(force, activeName) || rows == []
    ensures r.Some? ==> r.value == CardsOf(PageSums(ParseRows(rows)), ParseNumBR(custoAreaPriv), UnitCount(numUn))
  {
    if Suspended(force, activeName) || |rows| == 0 {
      return None;
    }
    var unit := ParseNumBR(custoAreaPriv);
    var totals := SumRows(rows);
    r := Some(CardsOf(totals, unit, UnitCount(numUn)));
  }

  /** The forEach of recalcTotais: the three accumulators over the rows. */
  method SumRows(rows: seq<PageRow>) returns (t: PageTotals)
    ensures t == PageSums(ParseRows(rows))
  {
    var areaConstrTotal, areaEqTotal, areaPrivTotal := 0.0, 0.0, 0.0;
    ghost var qs := ParseRows(rows);
    for i := 0 to |rows|
      invariant PageSums(qs[..i]) == PageTotals(areaConstrTotal, areaEqTotal, areaPrivTotal)
    {
      SumsStep(qs, i);
      areaConstrTotal, areaEqTotal, areaPrivTotal := AccumulateRow(ParseRow(rows[i]), areaConstrTotal, areaEqTotal, areaPrivTotal);
    }
    assert qs[..|rows|] == qs;
    t := PageTotals(areaConstrTotal, areaEqTotal, areaPrivTotal);
  }

  /** The callback of the forEach on the row as read: a row without its
      rep, area or coef input adds nothing; any other adds its area×rep to
      the built total unless its box is ticked, its area×rep×coef to the
      equivalent total, and its area×rep to the private total when its kind
      is the private one. */
  method AccumulateRow(q: ParsedRow, areaConstrTotal: real, areaEqTotal: real, areaPrivTotal: real)
    returns (constr: real, eq: real, priv: real)
    ensures PageTotals(constr, eq, priv) == AddRow(PageTotals(areaConstrTotal, areaEqTotal, areaPrivTotal), q)
  {
    constr, eq, priv := areaConstrTotal, areaEqTotal, areaPrivTotal;
    if !q.counted {
      return;
    }
    var areaTotal := AreaTotal(q);
    var areaEq := AreaEquivalent(q);
    if !q.excluded {
      constr := constr + areaTotal;
    }
    eq := eq + areaEq;
    if q.privado {
      priv := priv + areaTotal;
    }
  }

  /** A parsed row carries a floor record's numbers: counted, with the
      record's rep, area and coefficient, the box ticked exactly when the
      floor does not count as built, and the private kind exactly when the
      record's kind is. */
  predicate Carries(q: ParsedRow, r: FloorRow) {
    && q.counted
    && q.rep == r.rep as real && q.area == r.area && q.coef == r.coef
    && (q.excluded <==> !r.constr)
    && (q.privado <==> r.tipo == PrivateArea)
  }

  /** The per-row products are the server's. */
  lemma RowCarried(q: ParsedRow, r: FloorRow)
    requires Carries(q, r)
    ensures AreaTotal(q) == RowArea(r) && AreaEquivalent(q) == RowEq(r)
  {
  }

  /** The browser's totals are the server's: when the parsed rows carry the
      floor records, the three accumulators equal the built, equivalent and
      private column sums of calcular_custos_diretos. */
  lemma {:induction false} PageSumsMatchServer(qs: seq<ParsedRow>, rows: seq<FloorRow>)
    requires |qs| == |rows| && forall i | 0 <= i < |rows| :: Carries(qs[i], rows[i])
    ensures PageSums(qs).constr == Sum(RowBuiltColumn(rows))
    ensures PageSums(qs).eq == Sum(RowEqColumn(rows))
    ensures PageSums(qs).priv == Sum(RowPrivateColumn(rows))
  {
    if rows != [] {
      var n := |rows| - 1;
      PageSumsMatchServer(qs[..n], rows[..n]);
      assert RowBuiltColumn(rows)[..n] == RowBuiltColumn(rows[..n]);
      assert RowEqColumn(rows)[..n] == RowEqColumn(rows[..n]);
      assert RowPrivateColumn(rows)[..n] == RowPrivateColumn(rows[..n]);
      RowCarried(qs[n], rows[n]);
    }
  }

  /** The browser's totals are the server's: when the rows as the loop
      parses them (ParseRows of the page) carry the floor records, the built
      area, the equivalent area and the private area equal those of
      calcular_custos_diretos. */
  lemma {:induction false} TotalsMatchServer(qs: seq<ParsedRow>, rows: seq<FloorRow>, unit: real)
    requires |qs| == |rows| && forall i | 0 <= i < |rows| :: Carries(qs[i], rows[i])
    ensures PageSums(qs).constr == CalcularCustosDiretos(rows, unit).areaConstruidaTotal
    ensures rows != [] ==> PageSums(qs).eq == CalcularCustosDiretos(rows, unit).areaEquivalenteTotal.value
    ensures rows != [] ==> PageSums(qs).priv == CalcularCustosDiretos(rows, unit).areaPrivativaTotal.value
  {
    PageSumsMatchServer(qs, rows);
    if rows != [] {
      DirectCostsColumns(rows, unit);
    }
  }

  /** The direct-cost card (the equivalent total times the unit cost, as
      CardsOf puts it) is the server's direct cost, for the same rows. */
  lemma {:induction false} CostMatchesServer(qs: seq<ParsedRow>, rows: seq<FloorRow>, unit: real)
    requires |qs| == |rows| && forall i | 0 <= i < |rows| :: Carries(qs[i], rows[i])
    ensures PageSums(qs).eq * unit == CalcularCustosDiretos(rows, unit).custoDiretoTotal
  {
    if rows == [] {
      NoFloorsNoCost(qs, rows, unit);
    } else {
      TotalsMatchServer(qs, rows, unit);
      CostOfEquivalent(PageSums(qs).eq, rows, unit);
    }
  }

  lemma {:induction false} NoFloorsNoCost(qs: seq<ParsedRow>, rows: seq<FloorRow>, unit: real)
    requires |qs| == |rows| == 0
    ensures PageSums(qs).eq * unit == CalcularCustosDiretos(rows, unit).custoDiretoTotal
  {
    assert qs == [] && rows == [];
  }

  lemma {:induction false} CostOfEquivalent(e: real, rows: seq<FloorRow>, unit: real)
    requires rows != [] && e == CalcularCustosDiretos(rows, unit).areaEquivalenteTotal.value
    ensures e * unit == CalcularCustosDiretos(rows, unit).custoDiretoTotal
  {
  }

  // ---------------------------------------------------------- field names

  const FloorFieldPrefixes: seq<string> := ["rep", "area", "coef", "tipo"]

  /** A successful match of `^(rep|area|coef|tipo)_(\d+)$`: the prefix and the id. */
  datatype FieldMatch = FieldMatch(prefix: string, id: string)

  /** The id after `p_`, when the rest of the name is a non-empty digit string. */
  function MatchWith(name: string, p: string): (r: Option<string>)
    ensures r.Some? ==> name == p + "_" + r.value && |r.value| > 0 && AllDigits(r.value)
  {
    var n := |p| + 1;
    if |name| > n && name[..n] == p + "_" && AllDigits(name[n..]) then
      assert name == name[..n] + name[n..];
      Some(name[n..])
    else None
  }

  /** The match of the input handler's field-name pattern, trying the
      alternatives in order. */
  function MatchFloorField(name: string): (r: Option<FieldMatch>)
    ensures r.Some? ==>
      r.value.prefix in FloorFieldPrefixes && |r.value.id| > 0 && AllDigits(r.value.id) && name == r.value.prefix + "_" + r.value.id
  {
    if MatchWith(name, "rep").Some? then Some(FieldMatch("rep", MatchWith(name, "rep").value))
    else if MatchWith(name, "area").Some? then Some(FieldMatch("area", MatchWith(name, "area").value))
    else if MatchWith(name, "coef").Some? then Some(FieldMatch("coef", MatchWith(name, "coef").value))
    else if MatchWith(name, "tipo").Some? then Some(FieldMatch("tipo", MatchWith(name, "tipo").value))
    else None
  }

  /** Every floor field name matches, with its own prefix and id. */
  lemma MatchAcceptsFloorFields(p: string, d: string)
    requires p in FloorFieldPrefixes && |d| > 0 && AllDigits(d)
    ensures MatchFloorField(p + "_" + d) == Some(FieldMatch(p, d))
  {
    var name := p + "_" + d;
    var n := |p| + 1;
    assert name[..n] == p + "_" && name[n..] == d;
    forall q | q in FloorFieldPrefixes && q != p
      ensures MatchWith(name, q).None?
    {
      assert name[0] == p[0];
    }
  }

  /** The id a floor field carries reads back as the floor's number. */
  lemma MatchExtractsId(p: string, id: nat)
    requires p in FloorFieldPrefixes
    ensures var m := MatchFloorField(p + "_" + NatToString(id));
      m.Some? && m.value.prefix == p && DigitsValue(m.value.id) == id
  {
    MatchAcceptsFloorFields(p, NatToString(id));
    NatToStringRoundTrip(id);
  }

  /** Project-level field names that share a floor prefix do not match. */
  lemma MatchRejectsProjectFields()
    ensures MatchFloorField("area_privativa").None?
    ensures MatchFloorField("custo_area_privativa").None?
    ensures MatchFloorField("area_total_construcao").None?
    ensures MatchFloorField("area_comum").None?
    ensures MatchFloorField("excluir_3").None?
  {
    OnlyArea("area_privativa");
    OnlyArea("area_total_construcao");
    OnlyArea("area_comum");
    var c := "custo_area_privativa";
    Differs(c, "rep", 0);
    Differs(c, "area", 0);
    Differs(c, "coef", 1);
    Differs(c, "tipo", 0);
    var e := "excluir_3";
    Differs(e, "rep", 0);
    Differs(e, "area", 0);
    Differs(e, "coef", 0);
    Differs(e, "tipo", 0);
  }

  /** A name starting `area_` followed by a letter matches no alternative. */
  lemma OnlyArea(name: string)
    requires |name| > 5 && name[..5] == "area_" && !IsDigit(name[5])
    ensures MatchFloorField(name).None?
  {
    assert name[0] == 'a';
    Differs(name, "rep", 0);
    Differs(name, "coef", 0);
    Differs(name, "tipo", 0);
  }

  /** A name that differs from `p_` at position j does not match p. */
  lemma Differs(name: string, p: string, j: nat)
    requires j < |p| + 1 && j < |name| && name[j] != (p + "_")[j]
    ensures MatchWith(name, p).None?
  {
  }
}
