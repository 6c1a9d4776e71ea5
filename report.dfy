/** The arithmetic inside generate_pdf_report (prognoz/utils.py): the four-way
    composition of the total cost, the column totals of the floor table, the
    per-stage and per-item cost tables with their running totals, and the
    built-to-private area ratio. The HTML around them is not modelled. */
module Report {
  import opened Wrappers
  import opened PyRuntime
  import opened Tables
  import opened Services
  import opened Models

  // ------------------------------------------------------------ composition

  /** `(valor / total) * 100` for each of the four components when the total
      is positive, and 0 for all four otherwise. */
  function SharesOver(direto: real, venda: real, obra: real, terreno: real, total: real): (c: CostShares)
    ensures total <= 0.0 ==> c == CostShares(0.0, 0.0, 0.0, 0.0)
    ensures total > 0.0 ==>
      && c.direto * total == direto * 100.0
      && c.indiretoVenda * total == venda * 100.0
      && c.indiretoObra * total == obra * 100.0
      && c.terreno * total == terreno * 100.0
  {
    if total > 0.0 then CostShares(Percent(direto, total), Percent(venda, total), Percent(obra, total), Percent(terreno, total))
    else CostShares(0.0, 0.0, 0.0, 0.0)
  }

  /** The report's composition: the total is the sum of the four components,
      so the shares add up to 100 whenever that sum is positive. */
  function ReportComposition(direto: real, venda: real, obra: real, terreno: real): (c: CostShares)
    ensures direto + venda + obra + terreno <= 0.0 ==> c == CostShares(0.0, 0.0, 0.0, 0.0)
    ensures direto + venda + obra + terreno > 0.0 ==>
      && c.direto * (direto + venda + obra + terreno) == direto * 100.0
      && c.indiretoVenda * (direto + venda + obra + terreno) == venda * 100.0
      && c.indiretoObra * (direto + venda + obra + terreno) == obra * 100.0
      && c.terreno * (direto + venda + obra + terreno) == terreno * 100.0
      && c.direto + c.indiretoVenda + c.indiretoObra + c.terreno == 100.0
  {
    SharesOfTotal(direto, venda, obra, terreno);
    SharesOver(direto, venda, obra, terreno, direto + venda + obra + terreno)
  }

  // ------------------------------------------------------------ floor table

  /** The three summed columns of one floor-table row. */
  datatype FloorLine = FloorLine(area: real, areaEq: real, areaConstr: real)

  datatype FloorLineTotals = FloorLineTotals(totalArea: real, totalAreaEq: real, totalAreaConstr: real)

  /** The column sums, or None for an empty frame (the table is then left out). */
  function FloorTable(lines: seq<FloorLine>): (r: Option<FloorLineTotals>)
    ensures r.None? <==> lines == []
  {
    if lines == [] then None
    else Some(FloorLineTotals(
      Sum(seq(|lines|, i requires 0 <= i < |lines| => lines[i].area)),
      Sum(seq(|lines|, i requires 0 <= i < |lines| => lines[i].areaEq)),
      Sum(seq(|lines|, i requires 0 <= i < |lines| => lines[i].areaConstr))))
  }

  /** The row the floor aggregator leaves behind for a floor: its own area,
      and the area_eq and area_constr written into it. */
  function LineOf(f: FloorInput, kinds: Dict<CoefRange>): FloorLine {
    FloorLine(if f.area.Given? then f.area.value else 0.0, AreaEq(f, kinds), AreaConstr(f))
  }

  function LinesOf(fs: seq<FloorInput>, kinds: Dict<CoefRange>): (ls: seq<FloorLine>)
    ensures |ls| == |fs| && forall i | 0 <= i < |fs| :: ls[i] == LineOf(fs[i], kinds)
  {
    seq(|fs|, i requires 0 <= i < |fs| => LineOf(fs[i], kinds))
  }

  function EqSum(ls: seq<FloorLine>): real {
    if ls == [] then 0.0 else EqSum(ls[..|ls| - 1]) + ls[|ls| - 1].areaEq
  }

  function ConstrSum(ls: seq<FloorLine>): real {
    if ls == [] then 0.0 else ConstrSum(ls[..|ls| - 1]) + ls[|ls| - 1].areaConstr
  }

  lemma {:induction false} EqSumIsColumnSum(ls: seq<FloorLine>)
    ensures EqSum(ls) == Sum(seq(|ls|, i requires 0 <= i < |ls| => ls[i].areaEq))
    ensures ConstrSum(ls) == Sum(seq(|ls|, i requires 0 <= i < |ls| => ls[i].areaConstr))
  {
    if ls != [] {
      var init := ls[..|ls| - 1];
      EqSumIsColumnSum(init);
      assert seq(|ls|, i requires 0 <= i < |ls| => ls[i].areaEq)[..|ls| - 1]
          == seq(|init|, i requires 0 <= i < |init| => init[i].areaEq);
      assert seq(|ls|, i requires 0 <= i < |ls| => ls[i].areaConstr)[..|ls| - 1]
          == seq(|init|, i requires 0 <= i < |init| => init[i].areaConstr);
    }
  }

  lemma {:induction false} LinesFollowTotals(fs: seq<FloorInput>, kinds: Dict<CoefRange>)
    ensures EqSum(LinesOf(fs, kinds)) == Totals(fs, kinds).totalAreaEq
    ensures ConstrSum(LinesOf(fs, kinds)) == Totals(fs, kinds).totalAreaConstr
  {
    if fs != [] {
      var init := fs[..|fs| - 1];
      LinesFollowTotals(init, kinds);
      assert LinesOf(fs, kinds)[..|fs| - 1] == LinesOf(init, kinds);
    }
  }

  /** For the floors the aggregator has processed, the table's equivalent and
      built totals are the aggregator's own totals. */
  lemma FloorTableMatchesAggregator(fs: seq<FloorInput>, kinds: Dict<CoefRange>)
    requires fs != []
    ensures var r := FloorTable(LinesOf(fs, kinds));
      && r.Some?
      && r.value.totalAreaEq == Totals(fs, kinds).totalAreaEq
      && r.value.totalAreaConstr == Totals(fs, kinds).totalAreaConstr
  {
    LinesFollowTotals(fs, kinds);
    EqSumIsColumnSum(LinesOf(fs, kinds));
  }

  // ------------------------------------------------------ percentage tables

  /** One row of a stage or indirect-cost table. */
  datatype ReportRow = ReportRow(item: string, percentual: real, custo: real)

  /** The rows with the two running totals. */
  datatype ReportTable = ReportTable(rows: seq<ReportRow>, totalPercentual: real, totalCusto: real)

  /** A percentual as a row reads it: float() of it gives the cost and
      `:.2f` renders it, so a number or a bool passes, a str always fails
      with ValueError (float() or the format), anything else fails float(). */
  function RowPercent(p: Json): (r: Outcome<real>)
    ensures r.Ok? <==> IsNumber(p)
    ensures p.JNum? ==> r == Ok(p.n)
    ensures p.JStr? ==> r == Raised(ValueError)
    ensures p.JNull? || p.JArr? || p.JObj? ==> r == Raised(TypeError)
  {
    if p.JStr? then Raised(ValueError) else PyFloat(p)
  }

  /** One row: `values.get('percentual', 0)` (AttributeError for a value that
      is not a dict), then cost = base × (percentual / 100). */
  function RowOf(item: string, values: Json, base: real): (r: Outcome<ReportRow>)
    ensures !values.JObj? ==> r == Raised(AttributeError)
    ensures values.JObj? ==> r.Ok? == IsNumber(GetOr(values.fields, "percentual", JNum(0.0)))
    ensures r.Ok? ==> r.value.item == item && r.value.custo == PercentOf(base, r.value.percentual)
  {
    if !values.JObj? then Raised(AttributeError)
    else match RowPercent(GetOr(values.fields, "percentual", JNum(0.0)))
      case Raised(e) => Raised(e)
      case Ok(p) => Ok(ReportRow(item, p, base * (p / 100.0)))
  }

  /** The rows of the entries, in order; the first row that raises ends the report. */
  function TableRows(entries: Dict<Json>, base: real): (r: Outcome<seq<ReportRow>>)
    ensures r.Ok? ==> |r.value| == |entries| && forall i | 0 <= i < |entries| ::
      RowOf(entries[i].0, entries[i].1, base) == Ok(r.value[i])
  {
    if entries == [] then Ok([])
    else match TableRows(entries[..|entries| - 1], base)
      case Raised(e) => Raised(e)
      case Ok(rows) =>
        var last := entries[|entries| - 1];
        match RowOf(last.0, last.1, base)
        case Raised(e) => Raised(e)
        case Ok(row) => Ok(rows + [row])
  }

  function PercentColumn(rows: seq<ReportRow>): (c: seq<real>)
    ensures |c| == |rows| && forall i | 0 <= i < |rows| :: c[i] == rows[i].percentual
  {
    seq(|rows|, i requires 0 <= i < |rows| => rows[i].percentual)
  }

  function CustoColumn(rows: seq<ReportRow>): (c: seq<real>)
    ensures |c| == |rows| && forall i | 0 <= i < |rows| :: c[i] == rows[i].custo
  {
    seq(|rows|, i requires 0 <= i < |rows| => rows[i].custo)
  }

  /** The table of the entries: the rows and the sums of their two columns. */
  function TableOf(entries: Dict<Json>, base: real): Outcome<ReportTable> {
    match TableRows(entries, base)
    case Raised(e) => Raised(e)
    case Ok(rows) => Ok(ReportTable(rows, Sum(PercentColumn(rows)), Sum(CustoColumn(rows))))
  }

  lemma {:induction false} RaisedStays(entries: Dict<Json>, base: real, n: nat)
    requires n <= |entries| && TableRows(entries[..n], base).Raised?
    ensures TableRows(entries, base) == TableRows(entries[..n], base)
    decreases |entries| - n
  {
    if n < |entries| {
      var p := entries[..n + 1];
      assert p[..|p| - 1] == entries[..n];
      RaisedStays(entries, base, n + 1);
    } else {
      assert entries[..n] == entries;
    }
  }

  lemma ColumnsGrow(rows: seq<ReportRow>, row: ReportRow)
    ensures Sum(PercentColumn(rows + [row])) == Sum(PercentColumn(rows)) + row.percentual
    ensures Sum(CustoColumn(rows + [row])) == Sum(CustoColumn(rows)) + row.custo
  {
    assert PercentColumn(rows + [row])[..|rows|] == PercentColumn(rows);
    assert CustoColumn(rows + [row])[..|rows|] == CustoColumn(rows);
  }

  lemma RowOfNumber(item: string, values: Json, base: real, p: real)
    requires values.JObj? && !GetOr(values.fields, "percentual", JNum(0.0)).JStr?
    requires PyFloat(GetOr(values.fields, "percentual", JNum(0.0))) == Ok(p)
    ensures RowOf(item, values, base) == Ok(ReportRow(item, p, base * (p / 100.0)))
  {
    var q := GetOr(values.fields, "percentual", JNum(0.0));
    assert RowPercent(q) == PyFloat(q) == Ok(p);
    assert PercentOf(base, p) == base * (p / 100.0);
  }

  lemma TableRowsStep(entries: Dict<Json>, base: real, i: nat, rows: seq<ReportRow>, row: ReportRow)
    requires i < |entries| && TableRows(entries[..i], base) == Ok(rows)
    requires RowOf(entries[i].0, entries[i].1, base) == Ok(row)
    ensures TableRows(entries[..i + 1], base) == Ok(rows + [row])
  {
    var p := entries[..i + 1];
    assert p[..|p| - 1] == entries[..i];
  }

  lemma TableRowsRaise(entries: Dict<Json>, base: real, i: nat, rows: seq<ReportRow>, e: Exc)
    requires i < |entries| && TableRows(entries[..i], base) == Ok(rows)
    requires RowOf(entries[i].0, entries[i].1, base) == Raised(e)
    ensures TableRows(entries, base) == Raised(e)
  {
    var p := entries[..i + 1];
    assert p[..|p| - 1] == entries[..i];
    RaisedStays(entries, base, i + 1);
  }

  /** The report loop: one row per entry, in order, with the cost and
      percentual accumulated as it goes. */
  method BuildTable(entries: Dict<Json>, base: real) returns (r: Outcome<ReportTable>)
    ensures r == TableOf(entries, base)
  {
    var rows: seq<ReportRow> := [];
    var totalCusto := 0.0;
    var totalPercentual := 0.0;
    var i := 0;
    while i < |entries|
      invariant 0 <= i <= |entries|
      invariant TableRows(entries[..i], base) == Ok(rows)
      invariant totalCusto == Sum(CustoColumn(rows)) && totalPercentual == Sum(PercentColumn(rows))
    {
      var (item, values) := entries[i];
      if !values.JObj? {
        TableRowsRaise(entries, base, i, rows, AttributeError);
        return Raised(AttributeError);
      }
      var percentual := GetOr(values.fields, "percentual", JNum(0.0));
      var p := PyFloat(percentual);
      if p.Raised? {
        TableRowsRaise(entries, base, i, rows, p.exc);
        return Raised(p.exc);
      }
      if percentual.JStr? {
        // `{percentual:.2f}` refuses a str
        TableRowsRaise(entries, base, i, rows, ValueError);
        return Raised(ValueError);
      }
      var custo := base * (p.value / 100.0);
      RowOfNumber(item, values, base, p.value);
      TableRowsStep(entries, base, i, rows, ReportRow(item, p.value, custo));
      ColumnsGrow(rows, ReportRow(item, p.value, custo));
      rows := rows + [ReportRow(item, p.value, custo)];
      totalCusto := totalCusto + custo;
      totalPercentual := totalPercentual + p.value;
      i := i + 1;
    }
    assert entries[..i] == entries;
    return Ok(ReportTable(rows, totalPercentual, totalCusto));
  }

  lemma PercentOfAdds(base: real, a: real, b: real)
    ensures PercentOf(base, a) + PercentOf(base, b) == PercentOf(base, a + b)
  {
  }

  /** Costs that are each their row's percentage of one base add up to the
      total percentage of that base. */
  lemma {:induction false} CostsFollowPercents(rows: seq<ReportRow>, base: real)
    requires forall i | 0 <= i < |rows| :: rows[i].custo == PercentOf(base, rows[i].percentual)
    ensures Sum(CustoColumn(rows)) == PercentOf(base, Sum(PercentColumn(rows)))
  {
    if rows != [] {
      var init := rows[..|rows| - 1];
      CostsFollowPercents(init, base);
      assert CustoColumn(rows)[..|rows| - 1] == CustoColumn(init);
      assert PercentColumn(rows)[..|rows| - 1] == PercentColumn(init);
      PercentOfAdds(base, Sum(PercentColumn(init)), rows[|rows| - 1].percentual);
    }
  }

  /** The total row is consistent: its cost is the total percentage of the
      base, and the table has one row per entry, with the entry's key as its
      item, in the entries' order. */
  lemma TableTotals(entries: Dict<Json>, base: real)
    requires TableOf(entries, base).Ok?
    ensures var t := TableOf(entries, base).value;
      && t.totalCusto == PercentOf(base, t.totalPercentual)
      && |t.rows| == |entries|
      && forall i | 0 <= i < |entries| :: t.rows[i].item == entries[i].0
  {
    var rows := TableRows(entries, base).value;
    CostsFollowPercents(rows, base);
  }

  /** A row's failure, a value that is not a dict or a percentual that is
      not a number. */
  ghost predicate BadRow(values: Json) {
    !values.JObj? || !IsNumber(GetOr(values.fields, "percentual", JNum(0.0)))
  }

  /** The table fails exactly when some entry's row fails. */
  lemma {:induction false} TableRaisesIffBadRow(entries: Dict<Json>, base: real)
    ensures TableRows(entries, base).Raised? <==> exists i | 0 <= i < |entries| :: BadRow(entries[i].1)
  {
    if entries != [] {
      var init := entries[..|entries| - 1];
      TableRaisesIffBadRow(init, base);
      if exists i | 0 <= i < |init| :: BadRow(init[i].1) {
        var i :| 0 <= i < |init| && BadRow(init[i].1);
        assert BadRow(entries[i].1);
      }
      if exists i | 0 <= i < |entries| :: BadRow(entries[i].1) {
        var i :| 0 <= i < |entries| && BadRow(entries[i].1);
        if i < |init| {
          assert BadRow(init[i].1);
        }
      }
    }
  }

  /** Entries whose percentuals are the given numbers give a table of exactly
      those percentuals. */
  lemma {:induction false} TableOfNumbers(entries: Dict<Json>, base: real, ps: seq<real>)
    requires |ps| == |entries|
    requires forall i | 0 <= i < |entries| :: entries[i].1.JObj? && Get(entries[i].1.fields, "percentual") == Some(JNum(ps[i]))
    ensures TableRows(entries, base).Ok? && PercentColumn(TableRows(entries, base).value) == ps
  {
    if entries != [] {
      TableOfNumbers(entries[..|entries| - 1], base, ps[..|ps| - 1]);
      var last := entries[|entries| - 1];
      assert RowOf(last.0, last.1, base).Ok?;
    }
  }

  // -------------------------------------------------------------- the stages

  /** `shares.get(key, {})` for every key of a share table, in the table's order. */
  function KeyedEntries(t: Dict<ShareRange>, fields: Dict<Json>): (r: Dict<Json>)
    ensures |r| == |t| && forall i | 0 <= i < |r| :: r[i] == (t[i].0, GetOr(fields, t[i].0, JObj([])))
  {
    seq(|t|, i requires 0 <= i < |t| => (t[i].0, GetOr(fields, t[i].0, JObj([]))))
  }

  /** `info['etapas_percentuais'].get(etapa, {})` for every stage, in the
      stage table's order. */
  function StageEntries(fields: Dict<Json>): Dict<Json> {
    KeyedEntries(ConstructionStages, fields)
  }

  /** The stage table over the direct cost: left out (None) for a falsy
      share set, AttributeError for any other value that is not a dict. */
  function StageTable(etapas: Json, custoDireto: real): Outcome<Option<ReportTable>> {
    KeyedTable(ConstructionStages, etapas, custoDireto)
  }

  /** The table over the keys of a share table, looked up in a share set. */
  function KeyedTable(t: Dict<ShareRange>, shares: Json, base: real): Outcome<Option<ReportTable>> {
    if !Truthy(shares) then Ok(None)
    else if !shares.JObj? then Raised(AttributeError)
    else match TableOf(KeyedEntries(t, shares.fields), base)
      case Raised(e) => Raised(e)
      case Ok(r) => Ok(Some(r))
  }

  /** The stage table's rows are the stages of the table, in its order, and
      a stage missing from the share set shows 0% and costs 0. */
  lemma StageRows(etapas: Json, custoDireto: real, i: nat)
    requires StageTable(etapas, custoDireto).Ok? && StageTable(etapas, custoDireto).value.Some?
    requires i < |ConstructionStages|
    ensures var t := StageTable(etapas, custoDireto).value.value;
      && |t.rows| == |ConstructionStages|
      && t.rows[i].item == ConstructionStages[i].0
      && (!In(etapas.fields, ConstructionStages[i].0) ==> t.rows[i].percentual == 0.0 && t.rows[i].custo == 0.0)
  {
    var entries := StageEntries(etapas.fields);
    var rows := TableRows(entries, custoDireto).value;
    assert RowOf(entries[i].0, entries[i].1, custoDireto) == Ok(rows[i]);
  }

  /** Over the share set built from a table, every row holds the table's
      default, and the totals are the defaults' sum and that share of the base. */
  lemma DefaultsTable(t: Dict<ShareRange>, base: real)
    requires UniqueKeys(t)
    requires t != []
    ensures var r := KeyedTable(t, SharesFromTable(t), base);
      && r.Ok? && r.value.Some?
      && PercentColumn(r.value.value.rows) == DefaultColumn(t)
      && r.value.value.totalPercentual == DefaultTotal(t)
      && r.value.value.totalCusto == PercentOf(base, DefaultTotal(t))
  {
    var entries := KeyedEntries(t, SharesFromTable(t).fields);
    forall i | 0 <= i < |entries|
      ensures entries[i].1.JObj? && Get(entries[i].1.fields, "percentual") == Some(JNum(DefaultColumn(t)[i]))
    {
      DefaultEntry(t, i);
    }
    TableOfNumbers(entries, base, DefaultColumn(t));
    TableTotals(entries, base);
    DefaultTotalIsSum(t);
  }

  lemma DefaultEntry(t: Dict<ShareRange>, i: nat)
    requires UniqueKeys(t) && i < |t|
    ensures GetOr(SharesFromTable(t).fields, t[i].0, JObj([])) == ManualShare(JNum(t[i].1.default))
  {
    SharesFromTableShape(t, t[i].0);
    FindAt(t, i);
  }

  lemma PercentOfHundred(base: real)
    ensures PercentOf(base, 100.0) == base
  {
  }

  /** With the default stage shares, the stage table lists every stage with
      its default, the percentages total 100 and the costs total the direct cost. */
  lemma DefaultStageTable(custoDireto: real)
    ensures var r := StageTable(DefaultEtapasPercentuais(), custoDireto);
      && r.Ok? && r.value.Some?
      && PercentColumn(r.value.value.rows) == DefaultColumn(ConstructionStages)
      && r.value.value.totalPercentual == 100.0
      && r.value.value.totalCusto == custoDireto
  {
    StagesWellFormed();
    DefaultsTable(ConstructionStages, custoDireto);
    StageDefaultsSumTo100();
    PercentOfHundred(custoDireto);
  }

  // ---------------------------------------------------- the indirect costs

  /** The indirect-cost table over the VGV: left out for a falsy value,
      AttributeError for any other value that is not a dict (`.items()`). */
  function IndirectTable(shares: Json, vgv: real): Outcome<Option<ReportTable>> {
    if !Truthy(shares) then Ok(None)
    else if !shares.JObj? then Raised(AttributeError)
    else match TableOf(shares.fields, vgv)
      case Raised(e) => Raised(e)
      case Ok(t) => Ok(Some(t))
  }

  /** Rows that did not raise carry the entries' numeric percentuals, which
      the indirect-cost service sums to the same total. */
  lemma {:induction false} ServiceSumOfRows(entries: Dict<Json>, base: real)
    requires TableRows(entries, base).Ok?
    ensures PercentSum(entries) == Ok(Sum(PercentColumn(TableRows(entries, base).value)))
  {
    if entries != [] {
      var init := entries[..|entries| - 1];
      ServiceSumOfRows(init, base);
      var rows := TableRows(entries, base).value;
      assert rows[..|rows| - 1] == TableRows(init, base).value;
      assert PercentColumn(rows)[..|rows| - 1] == PercentColumn(rows[..|rows| - 1]);
      var last := entries[|entries| - 1];
      assert RowOf(last.0, last.1, base) == Ok(rows[|rows| - 1]);
    }
  }

  /** Whenever the report's indirect table is produced, its cost total is
      what calcular_custos_indiretos_porcentuais computes for the same set. */
  lemma IndirectTableAgreesWithService(shares: Json, vgv: real)
    requires IndirectTable(shares, vgv).Ok? && IndirectTable(shares, vgv).value.Some?
    ensures IndirectFromPercentages(vgv, shares) == Ok(IndirectTable(shares, vgv).value.value.totalCusto)
  {
    ServiceSumOfRows(shares.fields, vgv);
    TableTotals(shares.fields, vgv);
  }

  // ------------------------------------------------------------ area ratio

  /** relacao_ac_priv: the built area over the private area, a missing
      private area counting 1, and 0 unless that divisor is positive. */
  function RelacaoAcPriv(areaConstruida: real, areaPrivativa: Option<real>): (r: real)
    ensures areaPrivativa.None? ==> r == areaConstruida
    ensures areaPrivativa.Some? && areaPrivativa.value <= 0.0 ==> r == 0.0
    ensures areaPrivativa.Some? && areaPrivativa.value > 0.0 ==> r * areaPrivativa.value == areaConstruida
  {
    var d := match areaPrivativa case Some(a) => a case None => 1.0;
    if d > 0.0 then areaConstruida / d else 0.0
  }
}
