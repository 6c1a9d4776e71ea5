/** The calculation engine of viabilidade/services.py: the floor aggregator,
    direct costs, the percentage-of-VGV indirect cost, site overhead, the
    financial results and the decisions of the offline analysis. */
module Services {
  import opened Wrappers
  import opened PyRuntime
  import opened Tables

  // ------------------------------------------- calcular_areas_pavimentos

  /** One key of a floor dict: absent, present and set to None, or holding a value. */
  datatype Entry<T> = Absent | PyNone | Given(value: T)

  /** What the aggregator reads from one floor dict. */
  datatype FloorInput = FloorInput(tipo: string, area: Entry<real>, rep: Entry<int>, coef: Entry<real>, constr: Entry<bool>)

  /** A floor dict. The aggregator only reads the input keys and writes
      `area_eq` and `area_constr` (None until written). */
  class FloorDict {
    const tipo: string
    const area: Entry<real>
    const rep: Entry<int>
    const coef: Entry<real>
    const constr: Entry<bool>
    var areaEq: Option<real>
    var areaConstr: Option<real>

    constructor (tipo: string, area: Entry<real>, rep: Entry<int>, coef: Entry<real>, constr: Entry<bool>)
      ensures this.tipo == tipo && this.area == area && this.rep == rep
      ensures this.coef == coef && this.constr == constr
      ensures areaEq == None && areaConstr == None
    {
      this.tipo, this.area, this.rep, this.coef, this.constr := tipo, area, rep, coef, constr;
      areaEq, areaConstr := None, None;
    }

    function Input(): FloorInput {
      FloorInput(tipo, area, rep, coef, constr)
    }

    /** The dict holds the area_eq and area_constr the aggregator computes
        for it, its product being one that does not raise. */
    predicate Written(kinds: Dict<CoefRange>)
      reads this
    {
      && Multipliable(Input())
      && areaEq == Some(AreaEq(Input(), kinds))
      && areaConstr == Some(AreaConstr(Input()))
    }
  }

  function Inputs(fs: seq<FloorDict>): (r: seq<FloorInput>)
    ensures |r| == |fs| && forall i | 0 <= i < |fs| :: r[i] == fs[i].Input()
  {
    seq(|fs|, i requires 0 <= i < |fs| => fs[i].Input())
  }

  /** A floor whose area and rep the product accepts: neither is None. */
  predicate Multipliable(f: FloorInput) {
    !f.area.PyNone? && !f.rep.PyNone?
  }

  /** `pav.get('area', 0) * pav.get('rep', 1)`: an absent key takes its
      default, and a key set to None makes the product raise TypeError. */
  function Times(f: FloorInput): (r: Outcome<real>)
    ensures r.Raised? <==> !Multipliable(f)
    ensures r.Raised? ==> r.exc == TypeError
  {
    var area := match f.area case Given(a) => a case _ => 0.0;
    var rep := match f.rep case Given(n) => n as real case _ => 1.0;
    if f.area.PyNone? || f.rep.PyNone? then Raised(TypeError) else Ok(area * rep)
  }

  predicate AllMultipliable(fs: seq<FloorInput>) {
    forall i | 0 <= i < |fs| :: Multipliable(fs[i])
  }

  /** The first floor whose product raises, or |fs| when none does. */
  function FirstRefused(fs: seq<FloorInput>): (k: nat)
    ensures k <= |fs| && AllMultipliable(fs[..k])
    ensures k < |fs| ==> !Multipliable(fs[k])
  {
    if fs == [] then 0
    else if !Multipliable(fs[0]) then 0
    else
      var k := FirstRefused(fs[1..]);
      k + 1
  }

  /** The product on a floor it accepts: the given area (0 when absent)
      times the given repetition (1 when absent). A refused floor reads 0
      here; CalcularAreasPavimentos raises before it reaches such a floor,
      so that value never shows in what it returns or writes. */
  function AreaTotal(f: FloorInput): real {
    match Times(f) case Ok(a) => a case Raised(_) => 0.0
  }

  /** The coefficient used: the floor's own, else (absent or None) the lower
      bound of its kind's range, else 1.0. */
  function ResolvedCoef(f: FloorInput, kinds: Dict<CoefRange>): real {
    match f.coef
    case Given(c) => c
    case _ => GetOr(kinds, f.tipo, UnknownKind).lo
  }

  /** `pav.get('constr', True)`: true when absent, false when None. */
  predicate Built(f: FloorInput) {
    match f.constr case Given(b) => b case Absent => true case PyNone => false
  }

  function AreaEq(f: FloorInput, kinds: Dict<CoefRange>): real {
    AreaTotal(f) * ResolvedCoef(f, kinds)
  }

  function AreaConstr(f: FloorInput): real {
    if Built(f) then AreaTotal(f) else 0.0
  }

  datatype AreaTotals = AreaTotals(totalArea: real, totalAreaEq: real, totalAreaConstr: real)

  /** The three running totals after the floors fs, in order. */
  function Totals(fs: seq<FloorInput>, kinds: Dict<CoefRange>): AreaTotals {
    if fs == [] then AreaTotals(0.0, 0.0, 0.0)
    else
      var t := Totals(fs[..|fs| - 1], kinds);
      var f := fs[|fs| - 1];
      AreaTotals(t.totalArea + AreaTotal(f), t.totalAreaEq + AreaEq(f, kinds), t.totalAreaConstr + AreaConstr(f))
  }

  /** What calcular_areas_pavimentos returns: the floor list and the totals. */
  datatype Aggregated = Aggregated(pavimentos: seq<FloorDict>, totais: AreaTotals)

  /** calcular_areas_pavimentos: writes area_eq and area_constr into every
      floor dict and returns the same list with the three totals. The first
      floor whose area or rep is None stops the loop with TypeError: the
      floors before it have been written, and the dicts not among them are
      left as they were. */
  method CalcularAreasPavimentos(pavimentos: seq<FloorDict>, kinds: Dict<CoefRange>)
    returns (out: Outcome<Aggregated>)
    modifies set p | p in pavimentos
    ensures var k := FirstRefused(Inputs(pavimentos));
      && (out.Raised? <==> k < |pavimentos|)
      && (out.Raised? ==> out.exc == TypeError)
      && (forall i | 0 <= i < k :: pavimentos[i].Written(kinds))
      && (forall p | p in pavimentos && p !in pavimentos[..k] ::
            p.areaEq == old(p.areaEq) && p.areaConstr == old(p.areaConstr))
    ensures out.Ok? ==>
      && out.value.pavimentos == pavimentos
      && AllMultipliable(Inputs(pavimentos))
      && out.value.totais == Totals(Inputs(pavimentos), kinds)
  {
    ghost var fs := Inputs(pavimentos);
    ghost var k := FirstRefused(fs);
    var totalArea, totalAreaEq, totalAreaConstr := 0.0, 0.0, 0.0;
    var result := [];
    var i := 0;
    while i < |pavimentos|
      invariant 0 <= i <= k
      invariant result == pavimentos[..i]
      invariant forall j | 0 <= j < i :: pavimentos[j].Written(kinds)
      invariant forall p | p in pavimentos && p !in result ::
        p.areaEq == old(p.areaEq) && p.areaConstr == old(p.areaConstr)
      invariant AreaTotals(totalArea, totalAreaEq, totalAreaConstr) == TotalsUpTo(fs, i, kinds)
    {
      var pav := pavimentos[i];
      if !Multipliable(pav.Input()) {
        RefusedAt(fs, i);
        return Raised(TypeError);
      }
      var areaTotal, areaEq, built := WriteNext(pav, pavimentos, i, kinds, fs, AreaTotals(totalArea, totalAreaEq, totalAreaConstr));
      result := result + [pav];
      totalArea := totalArea + areaTotal;
      totalAreaEq := totalAreaEq + areaEq;
      if built {
        totalAreaConstr := totalAreaConstr + areaTotal;
      }
      PrefixGrows(pavimentos, i);
      i := i + 1;
    }
    TotalsUpToPrefix(fs, i, kinds);
    assert fs[..i] == fs;
    assert pavimentos[..i] == pavimentos;
    out := Ok(Aggregated(result, AreaTotals(totalArea, totalAreaEq, totalAreaConstr)));
  }

  /** The loop's step on floor i, the floors before it being written: floor
      i is written too, and the three amounts the totals grow by are
      returned. */
  method WriteNext(pav: FloorDict, ghost pavimentos: seq<FloorDict>, ghost i: nat, kinds: Dict<CoefRange>,
                   ghost fs: seq<FloorInput>, ghost t: AreaTotals)
    returns (areaTotal: real, areaEq: real, built: bool)
    requires i < |pavimentos| && pav == pavimentos[i] && Multipliable(pav.Input())
    requires forall j | 0 <= j < i :: pavimentos[j].Written(kinds)
    requires i < |fs| && fs[i] == pav.Input() && t == TotalsUpTo(fs, i, kinds)
    modifies pav`areaEq, pav`areaConstr
    ensures areaTotal == AreaTotal(pav.Input()) && areaEq == AreaEq(pav.Input(), kinds)
    ensures built == Built(pav.Input())
    ensures forall j | 0 <= j < i + 1 :: pavimentos[j].Written(kinds)
    ensures TotalsUpTo(fs, i + 1, kinds) == AreaTotals(t.totalArea + areaTotal, t.totalAreaEq + areaEq,
      if built then t.totalAreaConstr + areaTotal else t.totalAreaConstr)
  {
    label Before:
    areaTotal, areaEq, built := WriteFloor(pav, kinds);
    forall j | 0 <= j < i + 1
      ensures pavimentos[j].Written(kinds)
    {
      if pavimentos[j] != pav {
        assert old@Before(pavimentos[j].Written(kinds));
      }
    }
  }

  /** One step of the loop on a floor whose product does not raise: its
      area_eq and area_constr are written, and the three amounts the totals
      grow by are returned. */
  method WriteFloor(pav: FloorDict, kinds: Dict<CoefRange>) returns (areaTotal: real, areaEq: real, built: bool)
    requires Multipliable(pav.Input())
    modifies pav`areaEq, pav`areaConstr
    ensures areaTotal == AreaTotal(pav.Input()) && areaEq == AreaEq(pav.Input(), kinds)
    ensures built == Built(pav.Input())
    ensures pav.Written(kinds)
  {
    var coef := ResolvedCoef(pav.Input(), kinds);
    areaTotal := AreaTotal(pav.Input());
    areaEq := areaTotal * coef;
    built := Built(pav.Input());
    pav.areaEq := Some(areaEq);
    pav.areaConstr := Some(if built then areaTotal else 0.0);
  }

  /** The prefix one longer is the prefix with the next element appended. */
  lemma PrefixGrows<T>(s: seq<T>, i: nat)
    requires i < |s|
    ensures s[..i + 1] == s[..i] + [s[i]]
  {
  }

  /** A refused floor after accepted ones is the first refused floor. */
  lemma RefusedAt(fs: seq<FloorInput>, i: nat)
    requires i < |fs| && i <= FirstRefused(fs) && !Multipliable(fs[i])
    ensures FirstRefused(fs) == i
  {
    var k := FirstRefused(fs);
    assert forall j | 0 <= j < k :: fs[..k][j] == fs[j];
  }

  /** The running totals after the first n floors of fs. */
  function TotalsUpTo(fs: seq<FloorInput>, n: nat, kinds: Dict<CoefRange>): AreaTotals
    requires n <= |fs|
  {
    if n == 0 then AreaTotals(0.0, 0.0, 0.0)
    else
      var t := TotalsUpTo(fs, n - 1, kinds);
      AreaTotals(t.totalArea + AreaTotal(fs[n - 1]), t.totalAreaEq + AreaEq(fs[n - 1], kinds),
        t.totalAreaConstr + AreaConstr(fs[n - 1]))
  }

  lemma {:induction false} TotalsUpToPrefix(fs: seq<FloorInput>, n: nat, kinds: Dict<CoefRange>)
    requires n <= |fs|
    ensures TotalsUpTo(fs, n, kinds) == Totals(fs[..n], kinds)
  {
    if n > 0 {
      TotalsUpToPrefix(fs, n - 1, kinds);
      TotalsStep(fs, n - 1, kinds);
    }
  }

  /** One more floor adds its three areas to the running totals. */
  lemma TotalsStep(fs: seq<FloorInput>, i: nat, kinds: Dict<CoefRange>)
    requires i < |fs|
    ensures var t := Totals(fs[..i], kinds);
      Totals(fs[..i + 1], kinds)
        == AreaTotals(t.totalArea + AreaTotal(fs[i]), t.totalAreaEq + AreaEq(fs[i], kinds), t.totalAreaConstr + AreaConstr(fs[i]))
  {
    assert fs[..i + 1][..i] == fs[..i];
    assert fs[..i + 1][i] == fs[i];
  }

  /** The floors whose constr flag is true or absent. */
  function BuiltOnly(fs: seq<FloorInput>): (r: seq<FloorInput>)
    ensures forall g | g in r :: g in fs && Built(g)
    ensures forall g | g in fs && Built(g) :: g in r
  {
    if fs == [] then []
    else BuiltOnly(fs[..|fs| - 1]) + (if Built(fs[|fs| - 1]) then [fs[|fs| - 1]] else [])
  }

  function AreaColumn(fs: seq<FloorInput>): (r: seq<real>)
    ensures |r| == |fs| && forall i | 0 <= i < |fs| :: r[i] == AreaTotal(fs[i])
  {
    seq(|fs|, i requires 0 <= i < |fs| => AreaTotal(fs[i]))
  }

  function EqColumn(fs: seq<FloorInput>, kinds: Dict<CoefRange>): (r: seq<real>)
    ensures |r| == |fs| && forall i | 0 <= i < |fs| :: r[i] == AreaEq(fs[i], kinds)
  {
    seq(|fs|, i requires 0 <= i < |fs| => AreaEq(fs[i], kinds))
  }

  /** The totals are the column sums: every floor's area×rep, every floor's
      area×rep×coef, and area×rep over the built floors only. */
  lemma TotalsAreColumnSums(fs: seq<FloorInput>, kinds: Dict<CoefRange>)
    ensures Totals(fs, kinds).totalArea == Sum(AreaColumn(fs))
    ensures Totals(fs, kinds).totalAreaEq == Sum(EqColumn(fs, kinds))
    ensures Totals(fs, kinds).totalAreaConstr == Sum(AreaColumn(BuiltOnly(fs)))
  {
    TotalAreaIsSum(fs, kinds);
    TotalEqIsSum(fs, kinds);
    TotalConstrIsSum(fs, kinds);
  }

  lemma {:induction false} TotalAreaIsSum(fs: seq<FloorInput>, kinds: Dict<CoefRange>)
    ensures Totals(fs, kinds).totalArea == Sum(AreaColumn(fs))
  {
    if fs != [] {
      var n := |fs| - 1;
      TotalAreaIsSum(fs[..n], kinds);
      var a := AreaColumn(fs);
      assert a[..n] == AreaColumn(fs[..n]);
    }
  }

  lemma {:induction false} TotalEqIsSum(fs: seq<FloorInput>, kinds: Dict<CoefRange>)
    ensures Totals(fs, kinds).totalAreaEq == Sum(EqColumn(fs, kinds))
  {
    if fs != [] {
      var n := |fs| - 1;
      TotalEqIsSum(fs[..n], kinds);
      var e := EqColumn(fs, kinds);
      assert e[..n] == EqColumn(fs[..n], kinds);
    }
  }

  lemma {:induction false} TotalConstrIsSum(fs: seq<FloorInput>, kinds: Dict<CoefRange>)
    ensures Totals(fs, kinds).totalAreaConstr == Sum(AreaColumn(BuiltOnly(fs)))
  {
    if fs != [] {
      var n := |fs| - 1;
      var init, f := fs[..n], fs[n];
      TotalConstrIsSum(init, kinds);
      var b := BuiltOnly(init);
      if Built(f) {
        assert BuiltOnly(fs) == b + [f];
        var c := AreaColumn(b + [f]);
        assert c[..|b|] == AreaColumn(b);
        assert Sum(c) == Sum(AreaColumn(b)) + AreaTotal(f);
      } else {
        assert BuiltOnly(fs) == b;
      }
    }
  }

  /** A floor without a coefficient takes the lower bound of its kind's range
      from the table; a kind missing from the table gives 1.0. */
  lemma ResolvedCoefFromTable(f: FloorInput, kinds: Dict<CoefRange>, i: nat)
    requires UniqueKeys(kinds) && i < |kinds| && !f.coef.Given? && f.tipo == kinds[i].0
    ensures ResolvedCoef(f, kinds) == kinds[i].1.lo
  {
    FindAt(kinds, i);
  }

  lemma ResolvedCoefUnknownKind(f: FloorInput, kinds: Dict<CoefRange>)
    requires !f.coef.Given? && forall i | 0 <= i < |kinds| :: kinds[i].0 != f.tipo
    ensures ResolvedCoef(f, kinds) == 1.0
  {
  }

  /** With non-negative areas and repetitions the built total lies between 0 and the gross total. */
  lemma {:induction false} BuiltTotalBounded(fs: seq<FloorInput>, kinds: Dict<CoefRange>)
    requires forall i | 0 <= i < |fs| :: AreaTotal(fs[i]) >= 0.0
    ensures 0.0 <= Totals(fs, kinds).totalAreaConstr <= Totals(fs, kinds).totalArea
  {
    if fs != [] {
      BuiltTotalBounded(fs[..|fs| - 1], kinds);
    }
  }

  // ---------------------------------------------- calcular_custos_diretos

  /** The fields of one Pavimento record that the direct-cost table reads. */
  datatype FloorRow = FloorRow(nome: string, tipo: string, rep: int, coef: real, area: real, constr: bool)

  /** One row of the per-floor table, with its derived columns. */
  datatype FloorCost = FloorCost(row: FloorRow, areaTotal: real, areaEq: real, areaConstr: real, custoDireto: real)

  /** The result dict; the two private/equivalent totals are absent (None) for an empty floor list. */
  datatype DirectCosts = DirectCosts(
    custoDiretoTotal: real,
    areaConstruidaTotal: real,
    areaPrivativaTotal: Option<real>,
    areaEquivalenteTotal: Option<real>,
    table: seq<FloorCost>)

  function RowArea(r: FloorRow): real {
    r.area * r.rep as real
  }

  function RowEq(r: FloorRow): real {
    RowArea(r) * r.coef
  }

  function CostRow(r: FloorRow, custoAreaPrivativa: real): FloorCost {
    var t := RowArea(r);
    FloorCost(r, t, RowEq(r), if r.constr then t else 0.0, RowEq(r) * custoAreaPrivativa)
  }

  function CostTable(rows: seq<FloorRow>, unit: real): (t: seq<FloorCost>)
    ensures |t| == |rows| && forall i | 0 <= i < |rows| :: t[i] == CostRow(rows[i], unit)
  {
    seq(|rows|, i requires 0 <= i < |rows| => CostRow(rows[i], unit))
  }

  function RowEqColumn(rows: seq<FloorRow>): (c: seq<real>)
    ensures |c| == |rows| && forall i | 0 <= i < |rows| :: c[i] == RowEq(rows[i])
  {
    seq(|rows|, i requires 0 <= i < |rows| => RowEq(rows[i]))
  }

  function RowAreaColumn(rows: seq<FloorRow>): (c: seq<real>)
    ensures |c| == |rows| && forall i | 0 <= i < |rows| :: c[i] == RowArea(rows[i])
  {
    seq(|rows|, i requires 0 <= i < |rows| => RowArea(rows[i]))
  }

  function RowBuiltColumn(rows: seq<FloorRow>): (c: seq<real>)
    ensures |c| == |rows| && forall i | 0 <= i < |rows| :: c[i] == if rows[i].constr then RowArea(rows[i]) else 0.0
  {
    seq(|rows|, i requires 0 <= i < |rows| => if rows[i].constr then RowArea(rows[i]) else 0.0)
  }

  function RowPrivateColumn(rows: seq<FloorRow>): (c: seq<real>)
    ensures |c| == |rows| && forall i | 0 <= i < |rows| :: c[i] == if rows[i].tipo == PrivateArea then RowArea(rows[i]) else 0.0
  {
    seq(|rows|, i requires 0 <= i < |rows| => if rows[i].tipo == PrivateArea then RowArea(rows[i]) else 0.0)
  }

  function CostColumn(t: seq<FloorCost>): (c: seq<real>)
    ensures |c| == |t| && forall i | 0 <= i < |t| :: c[i] == t[i].custoDireto
  {
    seq(|t|, i requires 0 <= i < |t| => t[i].custoDireto)
  }

  /** A table row carries its floor, area×rep×coef as equivalent area, the
      built area (area×rep, or 0 for a floor not built) and the equivalent
      area times the unit cost. */
  predicate PricedRow(c: FloorCost, r: FloorRow, unit: real) {
    && c.row == r && c.custoDireto == c.areaEq * unit
    && c.areaEq == r.area * r.rep as real * r.coef
    && c.areaConstr == (if r.constr then r.area * r.rep as real else 0.0)
  }

  /** Each row of the cost table is its floor with the floor's products. */
  lemma CostTableRows(rows: seq<FloorRow>, unit: real)
    ensures var t := CostTable(rows, unit);
      forall i | 0 <= i < |rows| :: PricedRow(t[i], rows[i], unit)
  {
    var t := CostTable(rows, unit);
    forall i | 0 <= i < |rows|
      ensures PricedRow(t[i], rows[i], unit)
    {
      assert t[i] == CostRow(rows[i], unit);
    }
  }

  /** The cost column is the equivalent-area column scaled by the unit cost. */
  lemma CostColumnScaled(rows: seq<FloorRow>, unit: real)
    ensures CostColumn(CostTable(rows, unit)) == Scaled(RowEqColumn(rows), unit)
  {
    var c, e := CostColumn(CostTable(rows, unit)), Scaled(RowEqColumn(rows), unit);
    forall i | 0 <= i < |rows| ensures c[i] == e[i] {
      assert CostTable(rows, unit)[i] == CostRow(rows[i], unit);
    }
  }

  /** calcular_custos_diretos over the Pavimento records of a project. */
  function CalcularCustosDiretos(rows: seq<FloorRow>, custoAreaPrivativa: real): (r: DirectCosts)
    ensures rows == [] ==> r == DirectCosts(0.0, 0.0, None, None, [])
    ensures rows != [] ==> r.areaEquivalenteTotal.Some? && r.areaPrivativaTotal.Some?
    ensures rows != [] ==> r.custoDiretoTotal == r.areaEquivalenteTotal.value * custoAreaPrivativa
    ensures |r.table| == |rows|
    ensures forall i | 0 <= i < |rows| :: PricedRow(r.table[i], rows[i], custoAreaPrivativa)
  {
    CostTableRows(rows, custoAreaPrivativa);
    if rows == [] then DirectCosts(0.0, 0.0, None, None, [])
    else
      var table := CostTable(rows, custoAreaPrivativa);
      var eqs := RowEqColumn(rows);
      CostColumnScaled(rows, custoAreaPrivativa);
      SumScaled(eqs, custoAreaPrivativa);
      DirectCosts(
        Sum(CostColumn(table)),
        Sum(RowBuiltColumn(rows)),
        Some(Sum(RowPrivateColumn(rows))),
        Some(Sum(eqs)),
        table)
  }

  /** The totals of calcular_custos_diretos are the column sums of the floor records. */
  lemma DirectCostsColumns(rows: seq<FloorRow>, unit: real)
    requires rows != []
    ensures var d := CalcularCustosDiretos(rows, unit);
      && d.areaConstruidaTotal == Sum(RowBuiltColumn(rows))
      && d.areaEquivalenteTotal.value == Sum(RowEqColumn(rows))
      && d.areaPrivativaTotal.value == Sum(RowPrivateColumn(rows))
  {
  }

  /** The records a Pavimento list hands to the dict aggregator: every key present. */
  function AsFloorInputs(rows: seq<FloorRow>): (fs: seq<FloorInput>)
    ensures |fs| == |rows| && AllMultipliable(fs)
    ensures forall i | 0 <= i < |rows| :: fs[i] == FloorInput(rows[i].tipo, Given(rows[i].area), Given(rows[i].rep), Given(rows[i].coef), Given(rows[i].constr))
  {
    seq(|rows|, i requires 0 <= i < |rows| =>
      FloorInput(rows[i].tipo, Given(rows[i].area), Given(rows[i].rep), Given(rows[i].coef), Given(rows[i].constr)))
  }

  /** The two area aggregators agree on records with every key present. */
  lemma {:induction false} AggregatorsAgree(rows: seq<FloorRow>, unit: real, kinds: Dict<CoefRange>)
    requires rows != []
    ensures CalcularCustosDiretos(rows, unit).areaConstruidaTotal == Totals(AsFloorInputs(rows), kinds).totalAreaConstr
    ensures CalcularCustosDiretos(rows, unit).areaEquivalenteTotal == Some(Totals(AsFloorInputs(rows), kinds).totalAreaEq)
  {
    ColumnsMatchTotals(rows, kinds);
  }

  lemma {:induction false} ColumnsMatchTotals(rows: seq<FloorRow>, kinds: Dict<CoefRange>)
    ensures Sum(RowBuiltColumn(rows)) == Totals(AsFloorInputs(rows), kinds).totalAreaConstr
    ensures Sum(RowEqColumn(rows)) == Totals(AsFloorInputs(rows), kinds).totalAreaEq
  {
    if rows != [] {
      var init := rows[..|rows| - 1];
      var r, f := rows[|rows| - 1], AsFloorInputs(rows)[|rows| - 1];
      ColumnsMatchTotals(init, kinds);
      assert AsFloorInputs(rows)[..|rows| - 1] == AsFloorInputs(init);
      RowAgrees(r, f, kinds);
      assert RowBuiltColumn(rows)[..|rows| - 1] == RowBuiltColumn(init);
      assert RowEqColumn(rows)[..|rows| - 1] == RowEqColumn(init);
    }
  }

  lemma RowAgrees(r: FloorRow, f: FloorInput, kinds: Dict<CoefRange>)
    requires f == FloorInput(r.tipo, Given(r.area), Given(r.rep), Given(r.coef), Given(r.constr))
    ensures AreaEq(f, kinds) == RowEq(r)
    ensures AreaConstr(f) == if r.constr then RowArea(r) else 0.0
  {
  }

  /** Only floors of exactly the private kind add to the private total. */
  lemma {:induction false} PrivateTotalCountsPrivateFloors(rows: seq<FloorRow>)
    ensures Sum(RowPrivateColumn(rows)) == Sum(RowAreaColumn(PrivateRows(rows)))
  {
    if rows != [] {
      var n := |rows| - 1;
      var init, r := rows[..n], rows[n];
      PrivateTotalCountsPrivateFloors(init);
      var c := RowPrivateColumn(rows);
      assert c[..n] == RowPrivateColumn(init);
      assert Sum(c) == Sum(RowPrivateColumn(init)) + c[n];
      var p := PrivateRows(init);
      if r.tipo == PrivateArea {
        assert PrivateRows(rows) == p + [r];
        var e := RowAreaColumn(p + [r]);
        assert e[..|p|] == RowAreaColumn(p);
        assert Sum(e) == Sum(RowAreaColumn(p)) + e[|p|];
        assert c[n] == RowArea(r) == e[|p|];
      } else {
        assert PrivateRows(rows) == p;
        assert c[n] == 0.0;
      }
    }
  }

  /** PrivateRows keeps exactly the floors of the private kind. */
  lemma {:induction false} PrivateRowsArePrivate(rows: seq<FloorRow>)
    ensures forall r | r in PrivateRows(rows) :: r in rows && r.tipo == PrivateArea
    ensures forall r | r in rows && r.tipo == PrivateArea :: r in PrivateRows(rows)
  {
    if rows != [] {
      var n := |rows| - 1;
      PrivateRowsArePrivate(rows[..n]);
      assert rows == rows[..n] + [rows[n]];
    }
  }

  /** The floors of the private kind, in order. */
  function PrivateRows(rows: seq<FloorRow>): seq<FloorRow> {
    if rows == [] then []
    else PrivateRows(rows[..|rows| - 1]) + (if rows[|rows| - 1].tipo == PrivateArea then [rows[|rows| - 1]] else [])
  }

  // ------------------------------------ calcular_custos_indiretos_porcentuais

  /** Σ float(percentual) over the dict-valued entries, in order (a dict entry
      without the key counts 0); the first float() that fails escapes. */
  function PercentSum(fields: Dict<Json>): Outcome<real> {
    if fields == [] then Ok(0.0)
    else AddEntry(PyFloat, PercentSum(fields[..|fields| - 1]), fields[|fields| - 1].1)
  }

  /** `base × p / 100`: the amount a percentage stands for. */
  function PercentOf(base: real, p: real): real {
    base * p / 100.0
  }

  /** The indirect cost of the entries of a percentage dict. */
  function EntriesCost(vgv: real, fields: Dict<Json>): Outcome<real> {
    match PercentSum(fields)
    case Ok(s) => Ok(PercentOf(vgv, s))
    case Raised(e) => Raised(e)
  }

  /** The indirect cost an indirect-percentage set stands for, given the VGV:
      0 for a list or a falsy value, AttributeError for any other non-dict. */
  function IndirectFromPercentages(vgv: real, shares: Json): Outcome<real> {
    if shares.JArr? || !Truthy(shares) then Ok(0.0)
    else if !shares.JObj? then Raised(AttributeError)
    else EntriesCost(vgv, shares.fields)
  }

  /** calcular_custos_indiretos_porcentuais. */
  method CalcularCustosIndiretosPorcentuais(vgv: real, shares: Json) returns (r: Outcome<real>)
    ensures r == IndirectFromPercentages(vgv, shares)
  {
    var s := shares;
    if s.JArr? {
      s := JObj([]);
    }
    if !Truthy(s) {
      return Ok(0.0);
    }
    if !s.JObj? {
      return Raised(AttributeError);
    }
    r := AccumulateEntries(vgv, s.fields);
  }

  /** The loop of calcular_custos_indiretos_porcentuais over the items of the dict. */
  method AccumulateEntries(vgv: real, fields: Dict<Json>) returns (r: Outcome<real>)
    ensures r == EntriesCost(vgv, fields)
  {
    forall n | 0 < n <= |fields|
      ensures PercentSum(fields[..n]) == AddEntry(PyFloat, PercentSum(fields[..n - 1]), fields[n - 1].1)
    {
      assert fields[..n][..n - 1] == fields[..n - 1];
    }
    assert fields[..0] == [];
    r := AccumulateBy(PyFloat, PercentSum, vgv, fields);
    assert fields[..|fields|] == fields;
  }

  /** One entry of the sum: a dict adds `num` of its "percentual" (0 when
      missing), raising what `num` raises; any other value adds nothing; a
      raised prefix stays raised. */
  function AddEntry(num: Json -> Outcome<real>, prev: Outcome<real>, v: Json): (r: Outcome<real>)
    ensures prev.Raised? ==> r == prev
    ensures prev.Ok? && !v.JObj? ==> r == prev
  {
    match prev
    case Raised(e) => Raised(e)
    case Ok(s) =>
      if !v.JObj? then Ok(s)
      else match num(GetOr(v.fields, "percentual", JNum(0.0)))
        case Ok(p) => Ok(s + p)
        case Raised(e) => Raised(e)
  }

  /** The loop over the entries, for any conversion `num` (float() on the
      page) and any running sum `sum` that follows AddEntry entry by entry:
      the cost of the VGV at the final sum, or the first exception. */
  method AccumulateBy(num: Json -> Outcome<real>, sum: Dict<Json> -> Outcome<real>, vgv: real, fields: Dict<Json>)
    returns (r: Outcome<real>)
    requires sum(fields[..0]) == Ok(0.0)
    requires forall n | 0 < n <= |fields| :: sum(fields[..n]) == AddEntry(num, sum(fields[..n - 1]), fields[n - 1].1)
    ensures r == match sum(fields[..|fields|]) case Ok(t) => Ok(PercentOf(vgv, t)) case Raised(e) => Raised(e)
  {
    var custo := 0.0;
    ghost var seen := 0.0;
    var i := 0;
    while i < |fields|
      invariant 0 <= i <= |fields|
      invariant sum(fields[..i]) == Ok(seen)
      invariant custo == PercentOf(vgv, seen)
    {
      var values := fields[i].1;
      assert sum(fields[..i + 1]) == AddEntry(num, sum(fields[..i]), values);
      if values.JObj? {
        var p := num(GetOr(values.fields, "percentual", JNum(0.0)));
        if p.Raised? {
          RaisedStays(num, sum, fields, i + 1);
          return Raised(p.exc);
        }
        AccumulateShare(vgv, seen, p.value);
        custo := custo + vgv * (p.value / 100.0);
        seen := seen + p.value;
      }
      i := i + 1;
    }
    r := Ok(custo);
  }

  /** Once a prefix of a running sum raised, every longer prefix raises the same. */
  lemma {:induction false} RaisedStays(num: Json -> Outcome<real>, sum: Dict<Json> -> Outcome<real>, fields: Dict<Json>, n: nat)
    requires n <= |fields| && sum(fields[..n]).Raised?
    requires forall m | 0 < m <= |fields| :: sum(fields[..m]) == AddEntry(num, sum(fields[..m - 1]), fields[m - 1].1)
    ensures sum(fields[..|fields|]) == sum(fields[..n])
    decreases |fields| - n
  {
    if n < |fields| {
      assert sum(fields[..n + 1]) == AddEntry(num, sum(fields[..n]), fields[n].1);
      RaisedStays(num, sum, fields, n + 1);
    }
  }

  /** Adding one more share's cost adds its percentage to the total. */
  lemma AccumulateShare(vgv: real, s: real, p: real)
    ensures PercentOf(vgv, s) + vgv * (p / 100.0) == PercentOf(vgv, s + p)
  {
  }

  /** Once a prefix raised, the whole sum raises the same exception. */
  lemma {:induction false} PercentSumRaisedStays(fields: Dict<Json>, n: nat)
    requires n <= |fields| && PercentSum(fields[..n]).Raised?
    ensures PercentSum(fields) == PercentSum(fields[..n])
  {
    if n < |fields| {
      assert fields[..|fields| - 1][..n] == fields[..n];
      PercentSumRaisedStays(fields[..|fields| - 1], n);
    } else {
      assert fields[..n] == fields;
    }
  }

  /** The entries whose value is a dict, in order. */
  function DictEntries(fields: Dict<Json>): (r: Dict<Json>)
    ensures forall i | 0 <= i < |r| :: r[i].1.JObj?
  {
    if fields == [] then []
    else DictEntries(fields[..|fields| - 1]) + (if fields[|fields| - 1].1.JObj? then [fields[|fields| - 1]] else [])
  }

  /** Entries that are not dicts contribute nothing. */
  lemma {:induction false} NonDictEntriesIgnored(fields: Dict<Json>)
    ensures PercentSum(fields) == PercentSum(DictEntries(fields))
  {
    if fields != [] {
      var init := fields[..|fields| - 1];
      NonDictEntriesIgnored(init);
      var d := DictEntries(init);
      if fields[|fields| - 1].1.JObj? {
        assert DictEntries(fields) == d + [fields[|fields| - 1]];
        assert (d + [fields[|fields| - 1]])[..|d|] == d;
      } else {
        assert DictEntries(fields) == d;
      }
    }
  }

  /** float(entry percentual) where the entry is a dict. */
  ghost predicate BadPercentual(v: Json) {
    v.JObj? && PyFloat(GetOr(v.fields, "percentual", JNum(0.0))).Raised?
  }

  /** The sum raises exactly when some dict entry has a percentual float() rejects. */
  lemma {:induction false} PercentSumRaisesIffBadEntry(fields: Dict<Json>)
    ensures PercentSum(fields).Raised? <==> exists i | 0 <= i < |fields| :: BadPercentual(fields[i].1)
  {
    if fields != [] {
      var init := fields[..|fields| - 1];
      PercentSumRaisesIffBadEntry(init);
      if exists i | 0 <= i < |init| :: BadPercentual(init[i].1) {
        var i :| 0 <= i < |init| && BadPercentual(init[i].1);
        assert BadPercentual(fields[i].1);
      }
      if exists i | 0 <= i < |fields| :: BadPercentual(fields[i].1) {
        var i :| 0 <= i < |fields| && BadPercentual(fields[i].1);
        if i < |init| {
          assert BadPercentual(init[i].1);
        }
      }
    }
  }

  /** With numeric percentuals in every entry, the sum is the plain sum of those numbers. */
  lemma {:induction false} PercentSumOfNumbers(fields: Dict<Json>, ps: seq<real>)
    requires |ps| == |fields|
    requires forall i | 0 <= i < |fields| :: fields[i].1.JObj? && Get(fields[i].1.fields, "percentual") == Some(JNum(ps[i]))
    ensures PercentSum(fields) == Ok(Sum(ps))
  {
    if fields != [] {
      PercentSumOfNumbers(fields[..|fields| - 1], ps[..|ps| - 1]);
    }
  }

  // ------------------------------------------ calcular_custos_indiretos_obra

  /** calcular_custos_indiretos_obra: every monthly item paid for the whole duration. */
  function CustosIndiretosObra(items: Dict<real>, duracao: int): (r: real)
    ensures r == Sum(Scaled(Values(items), duracao as real))
    ensures (duracao >= 0 && forall i | 0 <= i < |items| :: items[i].1 >= 0.0) ==> r >= 0.0
  {
    SumScaled(Values(items), duracao as real);
    SumNonNegative(Values(items));
    var total := Sum(Values(items));
    assert total >= 0.0 && duracao >= 0 ==> total * duracao as real >= 0.0;
    total * duracao as real
  }

  // ------------------------------------- calcular_resultados_financeiros

  /** The attributes of a project the financial results read. */
  datatype ProjectFigures = ProjectFigures(
    areaPrivativa: real,
    areaTerreno: real,
    custosConfig: Dict<real>,
    custosIndiretosPercentuais: Json,
    custosIndiretosObra: Dict<real>,
    duracaoObra: int)

  datatype Financials = Financials(
    vgvTotal: real,
    custoTotalDespesas: real,
    lucroBruto: real,
    margemLucro: real,
    custoTerreno: real,
    custoIndiretoVenda: real,
    custoIndiretoObra: real)

  function Vgv(p: ProjectFigures): real {
    p.areaPrivativa * GetOr(p.custosConfig, "preco_medio_venda_m2", 0.0)
  }

  /** calcular_resultados_financeiros. */
  function ResultadosFinanceiros(p: ProjectFigures, custosDiretos: real): (r: Outcome<Financials>)
    ensures r.Raised? <==> IndirectFromPercentages(Vgv(p), p.custosIndiretosPercentuais).Raised?
    ensures r.Ok? ==>
      var f := r.value;
      && f.vgvTotal == Vgv(p)
      && f.custoTerreno == p.areaTerreno * GetOr(p.custosConfig, "custo_terreno_m2", 0.0)
      && IndirectFromPercentages(f.vgvTotal, p.custosIndiretosPercentuais) == Ok(f.custoIndiretoVenda)
      && f.custoIndiretoObra == CustosIndiretosObra(p.custosIndiretosObra, p.duracaoObra)
      && f.custoTotalDespesas == custosDiretos + f.custoIndiretoVenda + f.custoTerreno + f.custoIndiretoObra
      && f.lucroBruto + f.custoTotalDespesas == f.vgvTotal
      && (f.vgvTotal <= 0.0 ==> f.margemLucro == 0.0)
      && (f.vgvTotal > 0.0 ==> f.margemLucro * f.vgvTotal == f.lucroBruto * 100.0)
  {
    var vgv := Vgv(p);
    var terreno := p.areaTerreno * GetOr(p.custosConfig, "custo_terreno_m2", 0.0);
    match IndirectFromPercentages(vgv, p.custosIndiretosPercentuais)
    case Raised(e) => Raised(e)
    case Ok(venda) =>
      var obra := CustosIndiretosObra(p.custosIndiretosObra, p.duracaoObra);
      var total := custosDiretos + venda + terreno + obra;
      var lucro := vgv - total;
      var margem := if vgv > 0.0 then (lucro / vgv) * 100.0 else 0.0;
      assert vgv > 0.0 ==> margem * vgv == lucro * 100.0 by {
        if vgv > 0.0 {
          assert (lucro / vgv) * vgv == lucro;
        }
      }
      Ok(Financials(vgv, total, lucro, margem, terreno, venda, obra))
  }

  /** A positive VGV: the margin reaches the 15% benchmark exactly when the
      profit is at least 15% of the VGV, and is negative exactly when the
      expenses exceed the VGV. */
  lemma MarginBenchmark(p: ProjectFigures, custosDiretos: real)
    requires ResultadosFinanceiros(p, custosDiretos).Ok?
    requires Vgv(p) > 0.0
    ensures var f := ResultadosFinanceiros(p, custosDiretos).value;
      (f.margemLucro >= 15.0 <==> f.lucroBruto >= 0.15 * f.vgvTotal)
      && (f.margemLucro < 0.0 <==> f.custoTotalDespesas > f.vgvTotal)
  {
    var f := ResultadosFinanceiros(p, custosDiretos).value;
    assert f.margemLucro * f.vgvTotal == f.lucroBruto * 100.0;
    MarginThresholds(f.margemLucro, f.vgvTotal, f.lucroBruto);
  }

  /** The arithmetic under MarginBenchmark: with m * v == l * 100 and v > 0,
      m and l / v * 100 sit on the same side of 15 and of 0. */
  lemma MarginThresholds(m: real, v: real, l: real)
    requires v > 0.0 && m * v == l * 100.0
    ensures m >= 15.0 <==> l >= 0.15 * v
    ensures m < 0.0 <==> l < 0.0
  {
    if m >= 15.0 {
      assert (m - 15.0) * v >= 0.0;
      assert (m - 15.0) * v == m * v - 15.0 * v;
    } else {
      assert (15.0 - m) * v > 0.0;
      assert (15.0 - m) * v == 15.0 * v - m * v;
    }
    if m < 0.0 {
      assert (0.0 - m) * v > 0.0;
    } else {
      assert m * v >= 0.0;
    }
  }

  // ------------------------------------------------- gerar_analise_local

  datatype Health = Promissora | Marginal | Preocupante

  /** The recommendations, in the order the analysis may list them. */
  datatype Recommendation = RevisePrice | NegotiateSupplies | RenegotiateLand | ShortenSchedule | ReviewSales

  function Rank(r: Recommendation): nat {
    match r
    case RevisePrice => 0
    case NegotiateSupplies => 1
    case RenegotiateLand => 2
    case ShortenSchedule => 3
    case ReviewSales => 4
  }

  /** The figures the analysis reads (None = key absent or None, both read as 0). */
  datatype PromptData = PromptData(
    vgvTotal: Option<real>,
    custoTotal: Option<real>,
    lucroBruto: Option<real>,
    margemLucro: Option<real>,
    custoDireto: Option<real>,
    custoIndiretoVenda: Option<real>,
    custoIndiretoObra: Option<real>,
    custoTerreno: Option<real>,
    areaPrivativa: Option<real>,
    areaConstruida: Option<real>)

  /** `prompt_data.get(k, 0) or 0`. */
  function OrZero(v: Option<real>): real {
    match v case Some(x) => x case None => 0.0
  }

  datatype CostShares = CostShares(direto: real, indiretoVenda: real, indiretoObra: real, terreno: real)

  datatype PerArea = PerArea(direto: real, indireto: real, total: real)

  /** The decisions of the offline analysis; the text around them is not modelled. */
  datatype Analysis = Analysis(
    health: Health,
    divisor: real,
    shares: CostShares,
    perArea: Option<PerArea>,
    recommendations: seq<Recommendation>)

  /** The sum of the four cost components. */
  function ComponentSum(d: PromptData): real {
    OrZero(d.custoDireto) + OrZero(d.custoIndiretoVenda) + OrZero(d.custoIndiretoObra) + OrZero(d.custoTerreno)
  }

  /** The divisor of the composition shares: the component sum, else
      `custo_total or 1`; never 0. */
  function ShareDivisor(d: PromptData): (s: real)
    ensures s != 0.0
    ensures ComponentSum(d) > 0.0 ==> s == ComponentSum(d)
    ensures ComponentSum(d) <= 0.0 && OrZero(d.custoTotal) != 0.0 ==> s == OrZero(d.custoTotal)
  {
    var soma := ComponentSum(d);
    if soma > 0.0 then soma else if OrZero(d.custoTotal) != 0.0 then OrZero(d.custoTotal) else 1.0
  }

  /** `(x / soma) * 100`. */
  function Percent(x: real, soma: real): (p: real)
    requires soma != 0.0
    ensures p * soma == x * 100.0
  {
    (x / soma) * 100.0
  }

  /** Shares of one positive total add up to 100. */
  lemma SharesOfTotal(a: real, b: real, c: real, e: real)
    ensures var s := a + b + c + e;
      s > 0.0 ==> Percent(a, s) + Percent(b, s) + Percent(c, s) + Percent(e, s) == 100.0
  {
    var s := a + b + c + e;
    if s > 0.0 {
      var sum := Percent(a, s) + Percent(b, s) + Percent(c, s) + Percent(e, s);
      assert sum * s == (a + b + c + e) * 100.0;
    }
  }

  /** The health verdict for a margin: the 15% benchmark and the 5% floor. */
  function HealthOf(margem: real): (h: Health)
    ensures h == Promissora <==> margem >= 15.0
    ensures h == Marginal <==> 5.0 <= margem < 15.0
    ensures h == Preocupante <==> margem < 5.0
  {
    if margem >= 15.0 then Promissora else if margem >= 5.0 then Marginal else Preocupante
  }

  /** The four composition shares over the divisor. */
  function CompositionShares(d: PromptData): (c: CostShares)
    ensures c.direto * ShareDivisor(d) == OrZero(d.custoDireto) * 100.0
    ensures c.indiretoVenda * ShareDivisor(d) == OrZero(d.custoIndiretoVenda) * 100.0
    ensures c.indiretoObra * ShareDivisor(d) == OrZero(d.custoIndiretoObra) * 100.0
    ensures c.terreno * ShareDivisor(d) == OrZero(d.custoTerreno) * 100.0
    ensures ComponentSum(d) > 0.0 ==> c.direto + c.indiretoVenda + c.indiretoObra + c.terreno == 100.0
  {
    var soma := ShareDivisor(d);
    SharesOfTotal(OrZero(d.custoDireto), OrZero(d.custoIndiretoVenda), OrZero(d.custoIndiretoObra), OrZero(d.custoTerreno));
    CostShares(
        Percent(OrZero(d.custoDireto), soma), Percent(OrZero(d.custoIndiretoVenda), soma),
        Percent(OrZero(d.custoIndiretoObra), soma), Percent(OrZero(d.custoTerreno), soma))
  }

  /** gerar_analise_local: the verdict, the composition, the per-m² figures
      (only for a positive private area) and the recommendation list, of which
      at most the first five are shown. */
  method GerarAnaliseLocal(d: PromptData) returns (a: Analysis)
    ensures a.health == HealthOf(OrZero(d.margemLucro))
    ensures a.divisor == ShareDivisor(d) && a.shares == CompositionShares(d)
    ensures a.perArea.Some? <==> OrZero(d.areaPrivativa) > 0.0
    ensures a.perArea.Some? ==> a.perArea.value == PerM2(d)
    ensures RecommendationsFor(a.recommendations, OrZero(d.margemLucro), a.shares)
  {
    var margem := OrZero(d.margemLucro);
    var soma := ShareDivisor(d);
    var shares := CompositionShares(d);
    var health := HealthOf(margem);
    var perArea := if OrZero(d.areaPrivativa) > 0.0 then Some(PerM2(d)) else None;
    var recs := Recommend(margem, shares);
    var shown := FirstFive(recs);
    assert recs[..|recs|] == recs;
    a := Analysis(health, soma, shares, perArea, shown);
  }

  /** `for r in recs[:5]`: the recommendations shown, in order. */
  method FirstFive(recs: seq<Recommendation>) returns (shown: seq<Recommendation>)
    ensures shown == recs[..if |recs| < 5 then |recs| else 5]
  {
    shown := [];
    var limit := if |recs| < 5 then |recs| else 5;
    for k := 0 to limit
      invariant shown == recs[..k]
    {
      shown := shown + [recs[k]];
    }
  }

  /** Listed in rank order: each recommendation ranked above the one before. */
  ghost predicate Ranked(recs: seq<Recommendation>) {
    forall i | 0 < i < |recs| :: Rank(recs[i - 1]) < Rank(recs[i])
  }

  /** A ranked list holds no recommendation twice, in rank order throughout. */
  lemma {:induction false} RankedIsStrict(recs: seq<Recommendation>)
    requires Ranked(recs)
    ensures forall i, j | 0 <= i < j < |recs| :: Rank(recs[i]) < Rank(recs[j]) && recs[i] != recs[j]
  {
    if |recs| > 1 {
      var init := recs[..|recs| - 1];
      assert Ranked(init) by {
        forall i | 0 < i < |init| ensures Rank(init[i - 1]) < Rank(init[i]) {
          assert init[i - 1] == recs[i - 1] && init[i] == recs[i];
        }
      }
      RankedIsStrict(init);
      forall i, j | 0 <= i < j < |recs| ensures Rank(recs[i]) < Rank(recs[j]) {
        if j < |recs| - 1 {
          assert recs[i] == init[i] && recs[j] == init[j];
        } else if i < j - 1 {
          assert recs[i] == init[i] && recs[j - 1] == init[j - 1];
        }
      }
    }
  }

  /** Between 2 and 5 distinct recommendations in their fixed order: the
      price review exactly below the 15% benchmark, the land renegotiation
      exactly above a 25% land share, the schedule cut exactly above a 10%
      site-overhead share, the other two always. */
  ghost predicate RecommendationsFor(recs: seq<Recommendation>, margem: real, shares: CostShares) {
    && 2 <= |recs| <= 5
    && Ranked(recs)
    && (RevisePrice in recs <==> margem < 15.0)
    && NegotiateSupplies in recs && ReviewSales in recs
    && (RenegotiateLand in recs <==> shares.terreno > 25.0)
    && (ShortenSchedule in recs <==> shares.indiretoObra > 10.0)
  }

  /** The recommendation if its condition holds, else nothing. */
  function When(c: bool, x: Recommendation): seq<Recommendation> {
    if c then [x] else []
  }

  /** The `recs` list of gerar_analise_local: each recommendation appended
      when its condition holds, in a fixed order. */
  function Recommend(margem: real, shares: CostShares): (recs: seq<Recommendation>)
    ensures RecommendationsFor(recs, margem, shares)
  {
    var a, b, c := margem < 15.0, shares.terreno > 25.0, shares.indiretoObra > 10.0;
    ListedFacts(a, b, c);
    Listed(a, b, c)
  }

  /** The list for the three conditions. */
  function Listed(a: bool, b: bool, c: bool): seq<Recommendation> {
    When(a, RevisePrice) + [NegotiateSupplies] + When(b, RenegotiateLand) + When(c, ShortenSchedule) + [ReviewSales]
  }

  /** What the list for the three conditions holds. */
  ghost predicate ListedAs(r: seq<Recommendation>, a: bool, b: bool, c: bool) {
    && 2 <= |r| <= 5 && Ranked(r)
    && (RevisePrice in r <==> a) && NegotiateSupplies in r && ReviewSales in r
    && (RenegotiateLand in r <==> b) && (ShortenSchedule in r <==> c)
  }

  lemma ListedFacts(a: bool, b: bool, c: bool)
    ensures ListedAs(Listed(a, b, c), a, b, c)
  {
    if a {
      ListedWithRevise(b, c);
    } else {
      ListedWithoutRevise(b, c);
    }
  }

  lemma ListedWithRevise(b: bool, c: bool)
    ensures ListedAs(Listed(true, b, c), true, b, c)
  {
    var r := Listed(true, b, c);
    if b && c {
      assert r == [RevisePrice, NegotiateSupplies, RenegotiateLand, ShortenSchedule, ReviewSales];
    } else if b {
      assert r == [RevisePrice, NegotiateSupplies, RenegotiateLand, ReviewSales];
    } else if c {
      assert r == [RevisePrice, NegotiateSupplies, ShortenSchedule, ReviewSales];
    } else {
      assert r == [RevisePrice, NegotiateSupplies, ReviewSales];
    }
  }

  lemma ListedWithoutRevise(b: bool, c: bool)
    ensures ListedAs(Listed(false, b, c), false, b, c)
  {
    var r := Listed(false, b, c);
    if b && c {
      assert r == [NegotiateSupplies, RenegotiateLand, ShortenSchedule, ReviewSales];
    } else if b {
      assert r == [NegotiateSupplies, RenegotiateLand, ReviewSales];
    } else if c {
      assert r == [NegotiateSupplies, ShortenSchedule, ReviewSales];
    } else {
      assert r == [NegotiateSupplies, ReviewSales];
    }
  }

  /** The per-m² figures, for a positive private area. */
  function PerM2(d: PromptData): (r: PerArea)
    requires OrZero(d.areaPrivativa) > 0.0
    ensures r.total * OrZero(d.areaPrivativa) == OrZero(d.custoTotal)
    ensures r.direto * OrZero(d.areaPrivativa) == OrZero(d.custoDireto)
    ensures r.indireto * OrZero(d.areaPrivativa)
      == OrZero(d.custoIndiretoVenda) + OrZero(d.custoIndiretoObra) + OrZero(d.custoTerreno)
    ensures (r.direto + r.indireto) * OrZero(d.areaPrivativa) == ComponentSum(d)
  {
    var area := OrZero(d.areaPrivativa);
    var indireto := (OrZero(d.custoIndiretoVenda) + OrZero(d.custoIndiretoObra) + OrZero(d.custoTerreno)) / area;
    var direto := OrZero(d.custoDireto) / area;
    assert (direto + indireto) * area == direto * area + indireto * area;
    PerArea(direto, indireto, OrZero(d.custoTotal) / area)
  }
}
