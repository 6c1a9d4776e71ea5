/** The share-set pages of viabilidade/views.py: custos_diretos (repair of
    the stage shares and the stage table), custos_indiretos (the page's own
    rewrite of legacy indirect shares and its table), salvar_custos_indiretos,
    salvar_administracao_obra and the cost composition of resultados. */
module ViewsShares {
  import opened Wrappers
  import opened PyRuntime
  import opened Tables
  import opened Services
  import opened Models
  import opened Report

  /** `custos_config.get('custo_area_privativa', 4500.0)`. */
  function UnitCost(config: Dict<real>): real {
    GetOr(config, "custo_area_privativa", 4500.0)
  }

  /** The VGV as the pages compute it: the private area at
      `custos_config.get('preco_medio_venda_m2', 10000.0)`. */
  function PageVgv(areaPrivativa: real, config: Dict<real>): real {
    areaPrivativa * GetOr(config, "preco_medio_venda_m2", 10000.0)
  }

  // ------------------------------------------------------- rows of a page

  /** The cost of a row: `base * (percentual / 100)`. */
  function RowCost(base: real, p: real): (c: real)
    ensures c == PercentOf(base, p)
  {
    base * (p / 100.0)
  }

  /** One row per entry of a share dict: the key, the percentage `pct` reads
      from the value and that percentage of `base`. The first value whose
      percentage raises ends the page with that exception. */
  function RowsBy(pct: Json -> Outcome<real>, entries: Dict<Json>, base: real): (r: Outcome<seq<ReportRow>>)
    ensures r.Ok? ==> |r.value| == |entries| && forall i | 0 <= i < |entries| ::
      && r.value[i].item == entries[i].0
      && pct(entries[i].1) == Ok(r.value[i].percentual)
      && r.value[i].custo == PercentOf(base, r.value[i].percentual)
  {
    if entries == [] then Ok([])
    else
      var init := entries[..|entries| - 1];
      match RowsBy(pct, init, base)
      case Raised(e) => Raised(e)
      case Ok(rows) =>
        var last := entries[|entries| - 1];
        match pct(last.1)
        case Raised(e) => Raised(e)
        case Ok(p) =>
          assert forall i | 0 <= i < |init| :: entries[i] == init[i];
          Ok(rows + [ReportRow(last.0, p, RowCost(base, p))])
  }

  lemma RowsByStep(pct: Json -> Outcome<real>, entries: Dict<Json>, base: real, i: nat)
    requires i < |entries|
    ensures var prev := RowsBy(pct, entries[..i], base);
      var q := pct(entries[i].1);
      RowsBy(pct, entries[..i + 1], base) ==
        if prev.Raised? then prev
        else if q.Raised? then Raised(q.exc)
        else Ok(prev.value + [ReportRow(entries[i].0, q.value, RowCost(base, q.value))])
  {
    assert entries[..i + 1][..i] == entries[..i];
  }

  lemma {:induction false} RowsByRaisedStays(pct: Json -> Outcome<real>, entries: Dict<Json>, base: real, n: nat)
    requires n <= |entries| && RowsBy(pct, entries[..n], base).Raised?
    ensures RowsBy(pct, entries, base) == RowsBy(pct, entries[..n], base)
  {
    if n < |entries| {
      var init := entries[..|entries| - 1];
      assert init[..n] == entries[..n];
      RowsByRaisedStays(pct, init, base, n);
    } else {
      assert entries[..n] == entries;
    }
  }

  /** The loop of the two pages: a row per entry, the cost as `base ×
      (percentual / 100)`. */
  method BuildRows(pct: Json -> Outcome<real>, entries: Dict<Json>, base: real) returns (r: Outcome<seq<ReportRow>>)
    ensures r == RowsBy(pct, entries, base)
  {
    var rows: seq<ReportRow> := [];
    var i := 0;
    while i < |entries|
      invariant 0 <= i <= |entries|
      invariant RowsBy(pct, entries[..i], base) == Ok(rows)
    {
      RowsByStep(pct, entries, base, i);
      var p := pct(entries[i].1);
      if p.Raised? {
        RowsByRaisedStays(pct, entries, base, i + 1);
        return Raised(p.exc);
      }
      rows := rows + [ReportRow(entries[i].0, p.value, RowCost(base, p.value))];
      i := i + 1;
    }
    assert entries[..i] == entries;
    r := Ok(rows);
  }

  /** The rows come out exactly when every value's percentage can be read. */
  lemma {:induction false} RowsByOkIff(pct: Json -> Outcome<real>, entries: Dict<Json>, base: real)
    ensures RowsBy(pct, entries, base).Ok? <==> forall i | 0 <= i < |entries| :: pct(entries[i].1).Ok?
  {
    if entries != [] {
      var init := entries[..|entries| - 1];
      RowsByOkIff(pct, init, base);
      assert forall i | 0 <= i < |init| :: entries[i] == init[i];
    }
  }

  /** Entries whose percentages are known numbers give those numbers as the
      percentage column, and costs that add up to that share of the base. */
  lemma RowsByNumbers(pct: Json -> Outcome<real>, entries: Dict<Json>, base: real, ps: seq<real>)
    requires |ps| == |entries| && forall i | 0 <= i < |entries| :: pct(entries[i].1) == Ok(ps[i])
    ensures var r := RowsBy(pct, entries, base);
      && r.Ok? && PercentColumn(r.value) == ps
      && Sum(CustoColumn(r.value)) == PercentOf(base, Sum(ps))
  {
    RowsByOkIff(pct, entries, base);
    var rows := RowsBy(pct, entries, base).value;
    assert PercentColumn(rows) == ps;
    CostsFollowPercents(rows, base);
  }

  /** A share set built from a default table, read by any page that reads a
      Manual share's percentual: the defaults as the percentages, and costs
      that add up to the tables' total share of the base. */
  lemma DefaultRows(pct: Json -> Outcome<real>, t: Dict<ShareRange>, base: real)
    requires forall x: real :: pct(ManualShare(JNum(x))) == Ok(x)
    ensures var r := RowsBy(pct, SharesFromTable(t).fields, base);
      && r.Ok? && PercentColumn(r.value) == DefaultColumn(t)
      && Sum(PercentColumn(r.value)) == DefaultTotal(t)
      && Sum(CustoColumn(r.value)) == PercentOf(base, DefaultTotal(t))
  {
    var fields := SharesFromTable(t).fields;
    var c := DefaultColumn(t);
    forall i | 0 <= i < |fields|
      ensures pct(fields[i].1) == Ok(c[i])
    {
      assert fields[i].1 == ManualShare(JNum(t[i].1.default));
    }
    RowsByNumbers(pct, fields, base, c);
    DefaultTotalIsSum(t);
  }

  // ------------------------------------------------ custos_diretos: repair

  /** A stage value the page rewrites: not a dict, or a dict without 'percentual'. */
  predicate Malformed(v: Json) {
    !v.JObj? || !In(v.fields, "percentual")
  }

  /** A stage-share dict whose every value is a dict with 'percentual'. */
  predicate WellShaped(v: Json) {
    v.JObj? && forall i | 0 <= i < |v.fields| :: !Malformed(v.fields[i].1)
  }

  /** `precisa_corrigir`: a list always needs the repair, a dict when one
      of its values is malformed; anything else has no `.values()`. */
  function NeedsRepair(etapas: Json): (r: Outcome<bool>)
    ensures r.Raised? <==> !etapas.JArr? && !etapas.JObj?
    ensures r.Raised? ==> r.exc == AttributeError
    ensures r == Ok(false) <==> WellShaped(etapas)
  {
    if etapas.JArr? then Ok(true)
    else if etapas.JObj? then Ok(!WellShaped(etapas))
    else Raised(AttributeError)
  }

  /** The loop with `break` that sets `precisa_corrigir`. */
  method PrecisaCorrigir(etapas: Json) returns (r: Outcome<bool>)
    ensures r == NeedsRepair(etapas)
  {
    if etapas.JArr? {
      return Ok(true);
    }
    if !etapas.JObj? {
      return Raised(AttributeError);
    }
    var fs := etapas.fields;
    var precisa := false;
    var i := 0;
    while i < |fs|
      invariant 0 <= i <= |fs|
      invariant !precisa
      invariant forall k | 0 <= k < i :: !Malformed(fs[k].1)
    {
      if Malformed(fs[i].1) {
        precisa := true;
        break;
      }
      i := i + 1;
    }
    r := Ok(precisa);
  }

  /** The stage shares after the repair: the default stage shares in place
      of a list or of a dict with a malformed value. */
  function RepairedEtapas(etapas: Json): (r: Outcome<Json>) {
    match NeedsRepair(etapas)
    case Raised(e) => Raised(e)
    case Ok(b) => if b then Ok(DefaultEtapasPercentuais()) else Ok(etapas)
  }

  /** A table's share set is well shaped. */
  lemma SharesFromTableWellShaped(t: Dict<ShareRange>)
    ensures WellShaped(SharesFromTable(t))
  {
    var fields := SharesFromTable(t).fields;
    forall i | 0 <= i < |fields|
      ensures !Malformed(fields[i].1)
    {
      var v := ManualShare(JNum(t[i].1.default));
      assert fields[i].1 == v;
      assert Get(v.fields, "percentual").Some?;
    }
  }

  /** The repair leaves well-shaped shares, keeps shares that already were,
      raises only where `.values()` does, and a second repair changes nothing. */
  lemma RepairProperties(etapas: Json)
    ensures RepairedEtapas(etapas).Raised? <==> !etapas.JArr? && !etapas.JObj?
    ensures RepairedEtapas(etapas).Ok? ==> WellShaped(RepairedEtapas(etapas).value)
    ensures WellShaped(etapas) ==> RepairedEtapas(etapas) == Ok(etapas)
    ensures (etapas.JArr? || (etapas.JObj? && !WellShaped(etapas))) ==>
      RepairedEtapas(etapas) == Ok(DefaultEtapasPercentuais())
    ensures RepairedEtapas(etapas).Ok? ==>
      RepairedEtapas(RepairedEtapas(etapas).value) == RepairedEtapas(etapas)
  {
    SharesFromTableWellShaped(ConstructionStages);
  }

  // -------------------------------------------- custos_diretos: the table

  /** The percentage of a stage row: float() of a dict's 'percentual' (0 if
      missing), which may raise; float() of a bare value, or 0 where it fails. */
  function EtapaPercent(dados: Json): (r: Outcome<real>)
    ensures !dados.JObj? ==> r.Ok?
    ensures !dados.JObj? && PyFloat(dados).Raised? ==> r == Ok(0.0)
    ensures !dados.JObj? && PyFloat(dados).Ok? ==> r == PyFloat(dados)
  {
    if dados.JObj? then PyFloat(GetOr(dados.fields, "percentual", JNum(0.0)))
    else match PyFloat(dados)
      case Ok(p) => Ok(p)
      case Raised(_) => Ok(0.0)
  }

  /** A Manual share reads as its percentual. */
  lemma EtapaPercentOfManual()
    ensures forall x: real :: EtapaPercent(ManualShare(JNum(x))) == Ok(x)
  {
    forall x: real
      ensures EtapaPercent(ManualShare(JNum(x))) == Ok(x)
    {
      var v := ManualShare(JNum(x));
      assert GetOr(v.fields, "percentual", JNum(0.0)) == JNum(x);
    }
  }

  /** What the custos_diretos page shows of the stages: the shares after the
      repair, the direct cost total and one row per stage. */
  datatype StagePage = StagePage(etapas: Json, custoTotal: real, rows: seq<ReportRow>)

  /** custos_diretos on the floors and the project's settings: the direct
      cost total of calcular_custos_diretos at the configured unit cost, the
      repair, and a row per stage of `etapas or {}`. */
  function StagePageOf(floors: seq<FloorRow>, config: Dict<real>, etapas: Json): (r: Outcome<StagePage>)
    ensures r.Ok? ==>
      && WellShaped(r.value.etapas)
      && r.value.custoTotal == CalcularCustosDiretos(floors, UnitCost(config)).custoDiretoTotal
      && |r.value.rows| == |r.value.etapas.fields|
      && Sum(CustoColumn(r.value.rows)) == PercentOf(r.value.custoTotal, Sum(PercentColumn(r.value.rows)))
    ensures (!etapas.JArr? && !etapas.JObj?) ==> r == Raised(AttributeError)
  {
    var custoTotal := CalcularCustosDiretos(floors, UnitCost(config)).custoDiretoTotal;
    match RepairedEtapas(etapas)
    case Raised(e) => Raised(e)
    case Ok(v) =>
      RepairProperties(etapas);
      var fields := if v.JObj? then v.fields else [];
      match RowsBy(EtapaPercent, fields, custoTotal)
      case Raised(e) => Raised(e)
      case Ok(rows) =>
        CostsFollowPercents(rows, custoTotal);
        Ok(StagePage(v, custoTotal, rows))
  }

  /** custos_diretos: the direct costs at the configured unit cost, the
      repair written back to the project when it was needed, and the table. */
  method CustosDiretos(projeto: Projeto, floors: seq<FloorRow>) returns (r: Outcome<StagePage>)
    modifies projeto`etapasPercentuais
    ensures r == StagePageOf(floors, projeto.custosConfig, old(projeto.etapasPercentuais))
    ensures projeto.etapasPercentuais ==
      match RepairedEtapas(old(projeto.etapasPercentuais))
      case Ok(v) => v
      case Raised(_) => old(projeto.etapasPercentuais)
  {
    var direct := CalcularCustosDiretos(floors, UnitCost(projeto.custosConfig));
    var precisa := PrecisaCorrigir(projeto.etapasPercentuais);
    if precisa.Raised? {
      return Raised(precisa.exc);
    }
    if precisa.value {
      projeto.etapasPercentuais := DefaultEtapasPercentuais();
    }
    var etapas := projeto.etapasPercentuais;
    var fields := if etapas.JObj? then etapas.fields else [];
    var rows := BuildRows(EtapaPercent, fields, direct.custoDiretoTotal);
    match rows
    case Raised(e) =>
      r := Raised(e);
    case Ok(rs) =>
      r := Ok(StagePage(etapas, direct.custoDiretoTotal, rs));
  }

  /** A repaired stage set lists the default stages, and its percentages make
      up 100 and its costs the whole direct cost. */
  lemma RepairedStagesCoverDirectCost(floors: seq<FloorRow>, config: Dict<real>, etapas: Json)
    requires etapas.JArr? || (etapas.JObj? && !WellShaped(etapas))
    ensures var r := StagePageOf(floors, config, etapas);
      && r.Ok? && r.value.etapas == DefaultEtapasPercentuais()
      && PercentColumn(r.value.rows) == DefaultColumn(ConstructionStages)
      && Sum(PercentColumn(r.value.rows)) == 100.0
      && Sum(CustoColumn(r.value.rows)) == r.value.custoTotal
  {
    RepairProperties(etapas);
    var custoTotal := CalcularCustosDiretos(floors, UnitCost(config)).custoDiretoTotal;
    EtapaPercentOfManual();
    DefaultRows(EtapaPercent, ConstructionStages, custoTotal);
    StageDefaultsSumTo100();
    PercentOfHundred(custoTotal);
  }

  /** A well-shaped stage set is shown as it is: its page fails exactly when
      one of its percentuals cannot be read by float(). */
  lemma WellShapedStagesShown(floors: seq<FloorRow>, config: Dict<real>, etapas: Json)
    requires WellShaped(etapas)
    ensures var r := StagePageOf(floors, config, etapas);
      && (r.Ok? <==> forall i | 0 <= i < |etapas.fields| :: EtapaPercent(etapas.fields[i].1).Ok?)
      && (r.Ok? ==> r.value.etapas == etapas)
  {
    RepairProperties(etapas);
    var custoTotal := CalcularCustosDiretos(floors, UnitCost(config)).custoDiretoTotal;
    RowsByOkIff(EtapaPercent, etapas.fields, custoTotal);
  }

  // ----------------------------------- custos_indiretos: the legacy rewrite

  /** `(item, dados) = e` in the comprehension: a list, a str or a dict of
      exactly two iterates into two values; anything else raises. */
  function Unpack2(e: Json): (r: Option<(Json, Json)>)
    ensures r.Some? <==> (e.JArr? && |e.items| == 2) || (e.JStr? && |e.s| == 2) || (e.JObj? && |e.fields| == 2)
    ensures e.JArr? && |e.items| == 2 ==> r == Some((e.items[0], e.items[1]))
  {
    match e
    case JArr(xs) => if |xs| == 2 then Some((xs[0], xs[1])) else None
    case JStr(s) => if |s| == 2 then Some((JStr([s[0]]), JStr([s[1]]))) else None
    case JObj(fs) => if |fs| == 2 then Some((JStr(fs[0].0), JStr(fs[1].0))) else None
    case _ => None
  }

  /** The key of a converted pair: the item when it is a str, its position otherwise. */
  function ShareKey(item: Json, idx: nat): string {
    if item.JStr? then item.s else StrOfNat(idx)
  }

  /** The value of a converted pair: a dict as it is, anything else as a Manual share. */
  function ShareValue(dados: Json): (v: Json)
    ensures v.JObj?
    ensures dados.JObj? ==> v == dados
  {
    if dados.JObj? then dados else ManualShare(dados)
  }

  /** The unpacking of every element of a legacy list into two; None when
      some element does not unpack (the comprehension raises, and as nothing
      else escapes before the end, where it raises does not matter). */
  function UnpackAll(items: seq<Json>): (r: Option<seq<(Json, Json)>>)
    ensures r.None? <==> exists i | 0 <= i < |items| :: Unpack2(items[i]).None?
    ensures r.Some? ==> |r.value| == |items| && forall i | 0 <= i < |items| :: Unpack2(items[i]) == Some(r.value[i])
  {
    if forall i | 0 <= i < |items| :: Unpack2(items[i]).Some? then
      Some(seq(|items|, i requires 0 <= i < |items| => Unpack2(items[i]).value))
    else None
  }

  /** The key and value each unpacked pair contributes, by position. */
  function SharePairs(pairs: seq<(Json, Json)>): (kvs: Dict<Json>)
    ensures |kvs| == |pairs|
    ensures forall i | 0 <= i < |pairs| :: kvs[i] == (ShareKey(pairs[i].0, i), ShareValue(pairs[i].1))
  {
    seq(|pairs|, i requires 0 <= i < |pairs| => (ShareKey(pairs[i].0, i), ShareValue(pairs[i].1)))
  }

  /** The dict comprehension over a legacy list of pairs; None where an
      element does not unpack into two (the page then falls back). */
  function ListToShares(items: seq<Json>): (r: Option<Dict<Json>>)
    ensures r.None? <==> exists i | 0 <= i < |items| :: Unpack2(items[i]).None?
  {
    match UnpackAll(items)
    case None => None
    case Some(pairs) => Some(FromPairs(SharePairs(pairs)))
  }

  /** The indirect shares the page works on: a list rewritten by the
      comprehension (or the defaults where it fails), a dict as it is, and
      the defaults for anything else. */
  function NormalizeIndirect(v: Json): (r: Json)
    ensures r.JObj?
    ensures v.JObj? ==> r == v
    ensures !v.JObj? && !v.JArr? ==> r == DefaultCustosIndiretosPercentuais()
    ensures v.JArr? ==> match ListToShares(v.items)
      case None => r == DefaultCustosIndiretosPercentuais()
      case Some(d) => r == JObj(d)
  {
    if v.JArr? then
      match ListToShares(v.items)
      case Some(d) => JObj(d)
      case None => DefaultCustosIndiretosPercentuais()
    else if v.JObj? then v
    else DefaultCustosIndiretosPercentuais()
  }

  /** A list of [name, number] pairs becomes a dict with one share per
      distinct name, each a dict. */
  lemma PairListToShares(items: seq<Json>, k: string)
    requires forall i | 0 <= i < |items| ::
      items[i].JArr? && |items[i].items| == 2 && items[i].items[0].JStr? && items[i].items[1].JNum?
    ensures var r := NormalizeIndirect(JArr(items));
      && UniqueKeys(r.fields)
      && (forall i | 0 <= i < |items| :: In(r.fields, items[i].items[0].s))
      && (Get(r.fields, k).Some? ==> Get(r.fields, k).value.JObj?)
  {
    var kvs := SharePairs(UnpackAll(items).value);
    FromPairsGet(kvs, k);
    if Get(FromPairs(kvs), k).Some? {
      var i :| 0 <= i < |kvs| && kvs[i] == (k, Get(FromPairs(kvs), k).value);
    }
    forall i | 0 <= i < |items|
      ensures In(FromPairs(kvs), items[i].items[0].s)
    {
      FromPairsHas(kvs, i);
    }
  }

  // -------------------------------------------- custos_indiretos: the table

  /** The share a row reads: a two-element list as a Manual share of its
      second element, any other list as a Manual share of 0, a dict as it
      is, and any other value as a Manual share of itself. */
  function PrepassShare(dados: Json): (r: Json)
    ensures r.JObj?
  {
    if dados.JArr? then
      if |dados.items| == 2 then ManualShare(dados.items[1]) else ManualShare(JNum(0.0))
    else if dados.JObj? then dados
    else ManualShare(dados)
  }

  /** float() of the row's 'percentual' (0 where the dict has none). */
  function IndirectPercent(dados: Json): Outcome<real> {
    PyFloat(GetOr(PrepassShare(dados).fields, "percentual", JNum(0.0)))
  }

  /** Which value the row's float() reads, for each shape of share. */
  lemma IndirectPercentReads(dados: Json)
    ensures dados.JObj? ==> IndirectPercent(dados) == PyFloat(GetOr(dados.fields, "percentual", JNum(0.0)))
    ensures dados.JArr? && |dados.items| == 2 ==> IndirectPercent(dados) == PyFloat(dados.items[1])
    ensures dados.JArr? && |dados.items| != 2 ==> IndirectPercent(dados) == Ok(0.0)
    ensures !dados.JArr? && !dados.JObj? ==> IndirectPercent(dados) == PyFloat(dados)
  {
  }

  lemma IndirectPercentOfManual()
    ensures forall x: real :: IndirectPercent(ManualShare(JNum(x))) == Ok(x)
  {
    forall x: real
      ensures IndirectPercent(ManualShare(JNum(x))) == Ok(x)
    {
      var v := ManualShare(JNum(x));
      assert GetOr(v.fields, "percentual", JNum(0.0)) == JNum(x);
    }
  }

  /** What the custos_indiretos page shows. */
  datatype IndirectPage = IndirectPage(shares: Json, vgvTotal: real, rows: seq<ReportRow>, custoIndireto: real, percentual: real)

  /** custos_indiretos on the project's settings: the shares it works on,
      the VGV at the page's default price, a row per share, their total and
      that total as a percentage of the VGV (0 without a positive VGV). */
  function IndirectPageOf(areaPrivativa: real, config: Dict<real>, shares: Json): Outcome<IndirectPage> {
    IndirectTable(IndirectPercent, PageVgv(areaPrivativa, config), NormalizeIndirect(shares))
  }

  /** The table of the page for shares already rewritten into a dict, each
      row reading its percentage with `pct`. */
  function IndirectTable(pct: Json -> Outcome<real>, vgv: real, norm: Json): Outcome<IndirectPage>
    requires norm.JObj?
  {
    match RowsBy(pct, norm.fields, vgv)
    case Raised(e) => Raised(e)
    case Ok(rows) =>
      var total := Sum(CustoColumn(rows));
      Ok(IndirectPage(norm, vgv, rows, total, if vgv > 0.0 then (total / vgv) * 100.0 else 0.0))
  }

  /** The page's totals: one row per share, the indirect cost is the summed
      percentage of the VGV, and the page's percentage is that sum again
      (0 without a positive VGV). */
  lemma IndirectPageTotals(areaPrivativa: real, config: Dict<real>, shares: Json)
    ensures var r := IndirectPageOf(areaPrivativa, config, shares);
      r.Ok? ==>
      && r.value.shares == NormalizeIndirect(shares)
      && r.value.vgvTotal == PageVgv(areaPrivativa, config)
      && |r.value.rows| == |r.value.shares.fields|
      && r.value.custoIndireto == PercentOf(r.value.vgvTotal, Sum(PercentColumn(r.value.rows)))
      && (r.value.vgvTotal > 0.0 ==> r.value.percentual == Sum(PercentColumn(r.value.rows)))
      && (r.value.vgvTotal <= 0.0 ==> r.value.percentual == 0.0)
  {
    var r := IndirectPageOf(areaPrivativa, config, shares);
    if r.Ok? {
      var vgv := r.value.vgvTotal;
      var rows := r.value.rows;
      CostsFollowPercents(rows, vgv);
      if vgv > 0.0 {
        PercentBack(vgv, Sum(PercentColumn(rows)));
      }
    }
  }

  lemma PercentBack(base: real, s: real)
    requires base > 0.0
    ensures (PercentOf(base, s) / base) * 100.0 == s
  {
    assert PercentOf(base, s) == base * (s / 100.0);
  }

  /** custos_indiretos: the rewrite written back when the shares were not a
      dict, then the rows and the totals. */
  method CustosIndiretos(projeto: Projeto) returns (r: Outcome<IndirectPage>)
    modifies projeto`custosIndiretosPercentuais
    ensures r == IndirectPageOf(projeto.areaPrivativa, projeto.custosConfig, old(projeto.custosIndiretosPercentuais))
    ensures projeto.custosIndiretosPercentuais == NormalizeIndirect(old(projeto.custosIndiretosPercentuais))
  {
    var vgv := PageVgv(projeto.areaPrivativa, projeto.custosConfig);
    var shares := projeto.custosIndiretosPercentuais;
    if !shares.JObj? {
      shares := NormalizeIndirect(shares);
      projeto.custosIndiretosPercentuais := shares;
    }
    r := BuildIndirectTable(IndirectPercent, vgv, shares);
  }

  /** The loop of custos_indiretos over the shares and the totals after it. */
  method BuildIndirectTable(pct: Json -> Outcome<real>, vgv: real, shares: Json) returns (r: Outcome<IndirectPage>)
    requires shares.JObj?
    ensures r == IndirectTable(pct, vgv, shares)
  {
    var rows := BuildRows(pct, shares.fields, vgv);
    match rows
    case Raised(e) =>
      r := Raised(e);
    case Ok(rs) =>
      var total := Sum(CustoColumn(rs));
      var percent := if vgv > 0.0 then (total / vgv) * 100.0 else 0.0;
      r := Ok(IndirectPage(shares, vgv, rs, total, percent));
  }

  /** One step of a running total that stops at the first exception. */
  function Accumulate(prev: Outcome<real>, q: Outcome<real>): (r: Outcome<real>)
    ensures r.Ok? <==> prev.Ok? && q.Ok?
    ensures r.Ok? ==> r.value == prev.value + q.value
    ensures prev.Raised? ==> r == prev
    ensures prev.Ok? && q.Raised? ==> r == q
  {
    if prev.Raised? then prev else if q.Raised? then q else Ok(prev.value + q.value)
  }

  /** Rows built with a percentage function add up, column by column, to
      any running total that takes the same percentages step by step and
      raises where they raise. */
  lemma {:induction false} RowsFollowSum(pct: Json -> Outcome<real>, sum: Dict<Json> -> Outcome<real>,
                                        fields: Dict<Json>, base: real, m: nat)
    requires m <= |fields|
    requires sum(fields[..0]) == Ok(0.0)
    requires forall i | 0 <= i < |fields| :: sum(fields[..i + 1]) == Accumulate(sum(fields[..i]), pct(fields[i].1))
    ensures var r := RowsBy(pct, fields[..m], base);
      && (r.Raised? ==> sum(fields[..m]) == Raised(r.exc))
      && (r.Ok? ==> sum(fields[..m]) == Ok(Sum(PercentColumn(r.value))))
  {
    if m == 0 {
      assert fields[..0] == [];
    } else {
      var k := m - 1;
      RowsFollowSum(pct, sum, fields, base, k);
      RowsByStep(pct, fields, base, k);
      var prev := RowsBy(pct, fields[..k], base);
      var q := pct(fields[k].1);
      assert sum(fields[..k + 1]) == Accumulate(sum(fields[..k]), q);
      if prev.Ok? && q.Ok? {
        var row := ReportRow(fields[k].0, q.value, RowCost(base, q.value));
        ColumnsGrow(prev.value, row);
        assert RowsBy(pct, fields[..m], base) == Ok(prev.value + [row]);
        assert sum(fields[..m]) == Ok(Sum(PercentColumn(prev.value + [row])));
      }
    }
  }

  /** The service's percentage sum takes a dict share's percentage as the row does. */
  lemma PercentSumStep(fields: Dict<Json>, i: nat)
    requires i < |fields| && fields[i].1.JObj?
    ensures PercentSum(fields[..i + 1]) == Accumulate(PercentSum(fields[..i]), IndirectPercent(fields[i].1))
  {
    var pre := fields[..i + 1];
    assert pre[..|pre| - 1] == fields[..i] && pre[|pre| - 1] == fields[i];
    IndirectPercentReads(fields[i].1);
  }

  /** On dict shares whose values are all dicts the page's rows read what
      calcular_custos_indiretos_porcentuais sums: the same failures, and the
      percentages add up to the service's sum. */
  lemma RowsMatchPercentSum(fields: Dict<Json>, vgv: real)
    requires forall i | 0 <= i < |fields| :: fields[i].1.JObj?
    ensures var r := RowsBy(IndirectPercent, fields, vgv);
      && (r.Raised? ==> PercentSum(fields) == Raised(r.exc))
      && (r.Ok? ==> PercentSum(fields) == Ok(Sum(PercentColumn(r.value))))
  {
    forall i | 0 <= i < |fields|
      ensures PercentSum(fields[..i + 1]) == Accumulate(PercentSum(fields[..i]), IndirectPercent(fields[i].1))
    {
      PercentSumStep(fields, i);
    }
    assert fields[..0] == [];
    RowsFollowSum(IndirectPercent, PercentSum, fields, vgv, |fields|);
    assert fields[..|fields|] == fields;
  }

  /** The page's indirect cost agrees with the service's on such shares,
      given the same VGV. */
  lemma PageAgreesWithService(areaPrivativa: real, config: Dict<real>, fields: Dict<Json>)
    requires forall i | 0 <= i < |fields| :: fields[i].1.JObj?
    ensures var r := IndirectPageOf(areaPrivativa, config, JObj(fields));
      var s := IndirectFromPercentages(PageVgv(areaPrivativa, config), JObj(fields));
      && (r.Ok? <==> s.Ok?)
      && (r.Ok? ==> r.value.custoIndireto == s.value)
  {
    var vgv := PageVgv(areaPrivativa, config);
    IndirectPageTotals(areaPrivativa, config, JObj(fields));
    RowsMatchPercentSum(fields, vgv);
    if fields == [] {
      assert RowsBy(IndirectPercent, fields, vgv) == Ok([]);
    }
  }

  /** Shares that fall back to the defaults show every default item, and
      their costs are 16.73% of the VGV. */
  lemma FallbackShares(areaPrivativa: real, config: Dict<real>, shares: Json)
    requires NormalizeIndirect(shares) == DefaultCustosIndiretosPercentuais()
    ensures var r := IndirectPageOf(areaPrivativa, config, shares);
      && r.Ok? && PercentColumn(r.value.rows) == DefaultColumn(IndirectCosts)
      && r.value.custoIndireto == PercentOf(r.value.vgvTotal, 16.73)
  {
    IndirectPercentOfManual();
    IndirectPageTotals(areaPrivativa, config, shares);
    DefaultRows(IndirectPercent, IndirectCosts, PageVgv(areaPrivativa, config));
    IndirectDefaultsSum();
  }

  // ---------------------------------------------- salvar_custos_indiretos

  const SharePrefix: string := "percentual_"

  predicate StartsWith(s: string, p: string) {
    |p| <= |s| && s[..|p|] == p
  }

  /** `s.split(sep)[0]`: the text before the first occurrence of sep. */
  function FirstPiece(s: string, sep: string): (r: string)
    requires sep != []
    ensures r <= s
    decreases |s|
  {
    if |s| < |sep| then s
    else if StartsWith(s, sep) then []
    else [s[0]] + FirstPiece(s[1..], sep)
  }

  /** The first piece holds no occurrence of the separator, and ends at one
      unless it is the whole text. */
  lemma {:induction false} FirstPieceSplits(s: string, sep: string)
    requires sep != []
    ensures var r := FirstPiece(s, sep);
      && (forall j | 0 <= j < |r| :: !StartsWith(s[j..], sep))
      && (r == s || StartsWith(s[|r|..], sep))
    decreases |s|
  {
    if |s| < |sep| {
      assert forall j | 0 <= j < |s| :: |s[j..]| < |sep|;
    } else if !StartsWith(s, sep) {
      FirstPieceSplits(s[1..], sep);
      assert forall j | 1 <= j <= |s| :: s[1..][j - 1..] == s[j..];
    }
  }

  /** `item.split('percentual_')[1]` for a key with the prefix: what follows
      the prefix, up to its next occurrence. */
  function ItemName(key: string): (r: string)
    requires StartsWith(key, SharePrefix)
  {
    FirstPiece(key[|SharePrefix|..], SharePrefix)
  }

  /** The field name of an item gives the item back when the item holds no
      occurrence of the prefix. */
  lemma ItemNameOfField(x: string)
    requires forall j | 0 <= j < |x| :: !StartsWith(x[j..], SharePrefix)
    ensures StartsWith(SharePrefix + x, SharePrefix)
    ensures ItemName(SharePrefix + x) == x
  {
    var key := SharePrefix + x;
    assert key[..|SharePrefix|] == SharePrefix;
    assert key[|SharePrefix|..] == x;
    var r := FirstPiece(x, SharePrefix);
    FirstPieceSplits(x, SharePrefix);
  }

  /** A form field that yields a share for `key`. */
  predicate Feeds(toFloat: string -> Option<real>, field: (string, string), key: string) {
    && StartsWith(field.0, SharePrefix)
    && ItemName(field.0) == key
    && toFloat(field.1).Some?
  }

  /** A value the save stores: a Manual share of a number. */
  predicate ManualNumber(v: Json) {
    && v.JObj?
    && Get(v.fields, "percentual").Some? && Get(v.fields, "percentual").value.JNum?
    && Get(v.fields, "fonte") == Some(JStr("Manual"))
  }

  /** One field of the loop: a prefixed field whose value float() accepts
      stores a Manual share under its item name; any other field is skipped. */
  function SaveField(toFloat: string -> Option<real>, d: Dict<Json>, field: (string, string)): (r: Dict<Json>)
    ensures UniqueKeys(d) ==> UniqueKeys(r)
    ensures forall key :: Get(r, key) == (if Feeds(toFloat, field, key) then Some(ManualShare(JNum(toFloat(field.1).value))) else Get(d, key))
  {
    if StartsWith(field.0, SharePrefix) && toFloat(field.1).Some? then
      Set(d, ItemName(field.0), ManualShare(JNum(toFloat(field.1).value)))
    else d
  }

  /** The new indirect shares built from the form's fields, in order;
      `toFloat` is float() of a str, FloatOfStr on the page. */
  function Rebuilt(toFloat: string -> Option<real>, post: Dict<string>): (r: Dict<Json>)
    ensures UniqueKeys(r)
  {
    if post == [] then [] else SaveField(toFloat, Rebuilt(toFloat, post[..|post| - 1]), post[|post| - 1])
  }

  lemma RebuiltStep(toFloat: string -> Option<real>, post: Dict<string>, key: string)
    requires post != []
    ensures Get(Rebuilt(toFloat, post), key) ==
      (if Feeds(toFloat, post[|post| - 1], key) then Some(ManualShare(JNum(toFloat(post[|post| - 1].1).value)))
       else Get(Rebuilt(toFloat, post[..|post| - 1]), key))
  {
  }

  /** A share is present exactly when some field of the form yields it. */
  lemma {:induction false} RebuiltKeys(toFloat: string -> Option<real>, post: Dict<string>, key: string)
    ensures Get(Rebuilt(toFloat, post), key).Some? <==> exists i | 0 <= i < |post| :: Feeds(toFloat, post[i], key)
  {
    if post != [] {
      var n := |post| - 1;
      var init := post[..n];
      RebuiltKeys(toFloat, init, key);
      RebuiltStep(toFloat, post, key);
      if Feeds(toFloat, post[n], key) {
        assert Get(Rebuilt(toFloat, post), key).Some?;
      } else if Get(Rebuilt(toFloat, post), key).Some? {
        var i :| 0 <= i < n && Feeds(toFloat, init[i], key);
        assert init[i] == post[i];
      } else {
        forall i | 0 <= i < |post|
          ensures !Feeds(toFloat, post[i], key)
        {
          if i < n {
            assert init[i] == post[i];
          }
        }
      }
    }
  }

  /** Every stored share is a Manual share of a number. */
  lemma {:induction false} RebuiltValues(toFloat: string -> Option<real>, post: Dict<string>, key: string)
    requires Get(Rebuilt(toFloat, post), key).Some?
    ensures ManualNumber(Get(Rebuilt(toFloat, post), key).value)
  {
    var n := |post| - 1;
    RebuiltStep(toFloat, post, key);
    if Feeds(toFloat, post[n], key) {
      var v := ManualShare(JNum(toFloat(post[n].1).value));
      assert Get(v.fields, "percentual").value.JNum?;
    } else {
      RebuiltValues(toFloat, post[..n], key);
    }
  }

  /** The share stored for a key holds the number of the last field that yields it. */
  lemma {:induction false} RebuiltValue(toFloat: string -> Option<real>, post: Dict<string>, key: string, i: nat)
    requires i < |post| && Feeds(toFloat, post[i], key)
    requires forall j | i < j < |post| :: !Feeds(toFloat, post[j], key)
    ensures Get(Rebuilt(toFloat, post), key) == Some(ManualShare(JNum(toFloat(post[i].1).value)))
  {
    var n := |post| - 1;
    RebuiltStep(toFloat, post, key);
    if i < n {
      var init := post[..n];
      assert forall j | 0 <= j < n :: init[j] == post[j];
      RebuiltValue(toFloat, init, key, i);
    }
  }

  /** salvar_custos_indiretos: the shares are replaced by those the form yields. */
  method SalvarCustosIndiretos(projeto: Projeto, post: Dict<string>)
    modifies projeto`custosIndiretosPercentuais
    ensures projeto.custosIndiretosPercentuais == JObj(Rebuilt(FloatOfStr, post))
  {
    var novos := RebuildShares(FloatOfStr, post);
    projeto.custosIndiretosPercentuais := JObj(novos);
  }

  /** The loop of salvar_custos_indiretos over the form's fields; `toFloat`
      is float() of a str, FloatOfStr on the page. */
  method RebuildShares(toFloat: string -> Option<real>, post: Dict<string>) returns (novos: Dict<Json>)
    ensures novos == Rebuilt(toFloat, post)
  {
    novos := [];
    var i := 0;
    while i < |post|
      invariant 0 <= i <= |post|
      invariant novos == Rebuilt(toFloat, post[..i])
    {
      assert post[..i + 1][..i] == post[..i];
      var item := post[i].0;
      var percentual := post[i].1;
      if StartsWith(item, SharePrefix) {
        var nome := ItemName(item);
        var valor := toFloat(percentual);
        if valor.Some? {
          novos := Set(novos, nome, ManualShare(JNum(valor.value)));
        }
      }
      assert novos == SaveField(toFloat, Rebuilt(toFloat, post[..i]), post[i]);
      i := i + 1;
    }
    assert post[..i] == post;
  }

  // ------------------------------------------- salvar_administracao_obra

  /** The value saved for one monthly item: the form's number, or else the
      project's current value (0 where it has none); `toFloat` is float()
      of a str, FloatOfStr on the page. */
  function AdminValue(toFloat: string -> Option<real>, post: Dict<string>, current: Dict<real>, item: string): real {
    var valor := Get(post, "custo_mensal_" + item);
    if valor.Some? && toFloat(valor.value).Some? then toFloat(valor.value).value
    else GetOr(current, item, 0.0)
  }

  /** The new monthly items, one per default item, in the defaults' order. */
  function AdminCosts(toFloat: string -> Option<real>, items: seq<string>, post: Dict<string>, current: Dict<real>): (r: Dict<real>)
    ensures Keys(r) == items
    ensures |r| == |items| && forall i | 0 <= i < |items| :: r[i].1 == AdminValue(toFloat, post, current, items[i])
  {
    seq(|items|, i requires 0 <= i < |items| => (items[i], AdminValue(toFloat, post, current, items[i])))
  }

  /** The saved items are the default items, with no other key: an item the
      project held outside the defaults is dropped. */
  lemma AdminCostsKeys(toFloat: string -> Option<real>, post: Dict<string>, current: Dict<real>, k: string)
    ensures var r := AdminCosts(toFloat, Keys(SiteCostDefaults), post, current);
      && Keys(r) == Keys(SiteCostDefaults)
      && UniqueKeys(r)
      && (In(r, k) <==> In(SiteCostDefaults, k))
      && (In(SiteCostDefaults, k) ==> Get(r, k) == Some(AdminValue(toFloat, post, current, k)))
  {
    var ks := Keys(SiteCostDefaults);
    var r := AdminCosts(toFloat, ks, post, current);
    SiteCostsWellFormed();
    assert forall i | 0 <= i < |r| :: r[i].0 == SiteCostDefaults[i].0;
    FindSameKeys(r, SiteCostDefaults, k);
  }

  /** A form without any cost field keeps the project's items when they
      are exactly the default items. */
  lemma EmptyFormKeepsCosts(toFloat: string -> Option<real>, current: Dict<real>)
    requires Keys(current) == Keys(SiteCostDefaults)
    ensures AdminCosts(toFloat, Keys(SiteCostDefaults), [], current) == current
  {
    SiteCostsWellFormed();
    var ks := Keys(SiteCostDefaults);
    assert UniqueKeys(current) by {
      assert forall i | 0 <= i < |current| :: current[i].0 == ks[i];
    }
    var r := AdminCosts(toFloat, ks, [], current);
    forall i | 0 <= i < |current|
      ensures r[i] == current[i]
    {
      assert ks[i] == current[i].0;
      FindAt(current, i);
    }
  }

  /** `if duracao_obra:` followed by int(): the text, when the form holds a non-empty one. */
  function DurationField(post: Dict<string>): Option<string> {
    var raw := Get(post, "duracao_obra");
    if raw.Some? && raw.value != "" then raw else None
  }

  /** salvar_administracao_obra: a duration int() refuses escapes as
      ValueError before anything is changed; otherwise the duration is
      replaced when given and the monthly items are rebuilt. */
  method SalvarAdministracaoObra(projeto: Projeto, post: Dict<string>) returns (escaped: Option<Exc>)
    modifies projeto`duracaoObra, projeto`custosIndiretosObra
    ensures DurationField(post).Some? && IntOfStr(DurationField(post).value).None? ==>
      && escaped == Some(ValueError)
      && projeto.duracaoObra == old(projeto.duracaoObra)
      && projeto.custosIndiretosObra == old(projeto.custosIndiretosObra)
    ensures !(DurationField(post).Some? && IntOfStr(DurationField(post).value).None?) ==>
      && escaped == None
      && projeto.duracaoObra == (if DurationField(post).Some? then IntOfStr(DurationField(post).value).value else old(projeto.duracaoObra))
      && projeto.custosIndiretosObra == AdminCosts(FloatOfStr, Keys(SiteCostDefaults), post, old(projeto.custosIndiretosObra))
  {
    var duracao := DurationField(post);
    if duracao.Some? {
      var n := IntOfStr(duracao.value);
      if n.None? {
        return Some(ValueError);
      }
      projeto.duracaoObra := n.value;
    }
    var novos := RebuildAdminCosts(FloatOfStr, Keys(SiteCostDefaults), post, projeto.custosIndiretosObra);
    projeto.custosIndiretosObra := novos;
    escaped := None;
  }

  /** The loop of salvar_administracao_obra over the default items, with
      `toFloat` for float() of a str. */
  method RebuildAdminCosts(toFloat: string -> Option<real>, items: seq<string>, post: Dict<string>, current: Dict<real>)
    returns (novos: Dict<real>)
    ensures novos == AdminCosts(toFloat, items, post, current)
  {
    ghost var target := AdminCosts(toFloat, items, post, current);
    novos := [];
    var i := 0;
    while i < |items|
      invariant 0 <= i <= |items|
      invariant novos == target[..i]
    {
      var item := items[i];
      var valor := Get(post, "custo_mensal_" + item);
      var f := if valor.Some? then toFloat(valor.value) else None;
      var v := if f.Some? then f.value else GetOr(current, item, 0.0);
      novos := novos + [(item, v)];
      assert target[..i + 1] == target[..i] + [target[i]];
      i := i + 1;
    }
    assert target[..i] == target;
  }

  // ------------------------------------------- resultados: the composition

  /** The direct total the resultados page reads: calcular_custos_diretos
      over the project's floors at the configured cost per m² (4500 when
      unset). The composition below takes it as its `direto` argument. */
  function PageDirectCost(floors: seq<FloorRow>, config: Dict<real>): (d: real)
    ensures floors == [] ==> d == 0.0
  {
    CalcularCustosDiretos(floors, UnitCost(config)).custoDiretoTotal
  }

  /** The composition shares of the resultados page as written, for the
      page's direct total `direto`: the sale indirect cost is recomputed
      with the page's VGV (default price 10000) and with `fallback` in place
      of a list (on the page, the default shares), while the divisor is the
      total of calcular_resultados_financeiros (default price 0, a list
      counting 0). */
  function ResultadosShares(fallback: Json, direto: real, p: ProjectFigures): (r: Outcome<CostShares>)
    ensures r.Ok? <==>
      && IndirectFromPercentages(PageVgv(p.areaPrivativa, p.custosConfig),
           if p.custosIndiretosPercentuais.JArr? then fallback else p.custosIndiretosPercentuais).Ok?
      && ResultadosFinanceiros(p, direto).Ok?
    ensures r.Ok? ==>
      var venda := IndirectFromPercentages(PageVgv(p.areaPrivativa, p.custosConfig),
        if p.custosIndiretosPercentuais.JArr? then fallback else p.custosIndiretosPercentuais).value;
      var f := ResultadosFinanceiros(p, direto).value;
      r.value == SharesOver(direto, venda, f.custoIndiretoObra, f.custoTerreno, f.custoTotalDespesas)
  {
    var vgv := PageVgv(p.areaPrivativa, p.custosConfig);
    var shares := if p.custosIndiretosPercentuais.JArr? then fallback else p.custosIndiretosPercentuais;
    match IndirectFromPercentages(vgv, shares)
    case Raised(e) => Raised(e)
    case Ok(venda) =>
      var obra := CustosIndiretosObra(p.custosIndiretosObra, p.duracaoObra);
      match ResultadosFinanceiros(p, direto)
      case Raised(e) => Raised(e)
      case Ok(f) =>
        assert obra == f.custoIndiretoObra;
        Ok(SharesOver(direto, venda, obra, f.custoTerreno, f.custoTotalDespesas))
  }

  /** With a legacy list of indirect shares, the page divides the fallback's
      sale cost by a total that counts no sale cost: the direct cost, the
      land and the monthly site costs. */
  lemma ListSharesDivisor(fallback: Json, venda: real, direto: real, p: ProjectFigures)
    requires p.custosIndiretosPercentuais.JArr?
    requires IndirectFromPercentages(PageVgv(p.areaPrivativa, p.custosConfig), fallback) == Ok(venda)
    ensures var terreno := p.areaTerreno * GetOr(p.custosConfig, "custo_terreno_m2", 0.0);
      var obra := CustosIndiretosObra(p.custosIndiretosObra, p.duracaoObra);
      ResultadosShares(fallback, direto, p) == Ok(SharesOver(direto, venda, obra, terreno, direto + terreno + obra))
  {
    assert IndirectFromPercentages(Vgv(p), p.custosIndiretosPercentuais) == Ok(0.0);
    var f := ResultadosFinanceiros(p, direto);
    assert f.Ok? && f.value.custoIndiretoVenda == 0.0;
    var terreno := p.areaTerreno * GetOr(p.custosConfig, "custo_terreno_m2", 0.0);
    var obra := CustosIndiretosObra(p.custosIndiretosObra, p.duracaoObra);
    assert f.value.custoTerreno == terreno;
    assert f.value.custoTotalDespesas == direto + terreno + obra;
    assert ResultadosShares(fallback, direto, p) == Ok(SharesOver(direto, venda, obra, f.value.custoTerreno, f.value.custoTotalDespesas));
  }

  /** So with a positive fallback sale cost and a positive total the four
      shares add up to more than 100%, by that sale cost over the total. */
  lemma FallbackOverflow(fallback: Json, venda: real, direto: real, p: ProjectFigures)
    requires p.custosIndiretosPercentuais.JArr?
    requires IndirectFromPercentages(PageVgv(p.areaPrivativa, p.custosConfig), fallback) == Ok(venda) && venda > 0.0
    ensures var terreno := p.areaTerreno * GetOr(p.custosConfig, "custo_terreno_m2", 0.0);
      var total := direto + terreno + CustosIndiretosObra(p.custosIndiretosObra, p.duracaoObra);
      var r := ResultadosShares(fallback, direto, p);
      && r.Ok?
      && (total > 0.0 ==>
            var sum := r.value.direto + r.value.indiretoVenda + r.value.indiretoObra + r.value.terreno;
            (sum - 100.0) * total == venda * 100.0 && sum > 100.0)
  {
    var terreno := p.areaTerreno * GetOr(p.custosConfig, "custo_terreno_m2", 0.0);
    var obra := CustosIndiretosObra(p.custosIndiretosObra, p.duracaoObra);
    ListSharesDivisor(fallback, venda, direto, p);
    if direto + terreno + obra > 0.0 {
      SharesExcess(direto, venda, obra, terreno, direto + terreno + obra);
    }
  }

  /** The page's fallback, the default shares, costs 16.73% of the VGV. */
  lemma DefaultFallbackCost(fallback: Json, vgv: real)
    requires fallback == DefaultCustosIndiretosPercentuais()
    ensures IndirectFromPercentages(vgv, fallback) == Ok(PercentOf(vgv, 16.73))
  {
    DefaultIndirectShare(vgv);
  }

  /** On the page, whose fallback is the default shares, a legacy list and a
      positive VGV make the four shares add up to more than 100% whenever
      the total is positive, by the default sale cost (16.73% of the page's
      VGV) over the total. */
  lemma ResultadosSharesOverflow(fallback: Json, direto: real, p: ProjectFigures)
    requires fallback == DefaultCustosIndiretosPercentuais()
    requires p.custosIndiretosPercentuais.JArr?
    requires PageVgv(p.areaPrivativa, p.custosConfig) > 0.0
    ensures var terreno := p.areaTerreno * GetOr(p.custosConfig, "custo_terreno_m2", 0.0);
      var total := direto + terreno + CustosIndiretosObra(p.custosIndiretosObra, p.duracaoObra);
      var r := ResultadosShares(fallback, direto, p);
      && r.Ok?
      && (total > 0.0 ==>
            var sum := r.value.direto + r.value.indiretoVenda + r.value.indiretoObra + r.value.terreno;
            && (sum - 100.0) * total == PercentOf(PageVgv(p.areaPrivativa, p.custosConfig), 16.73) * 100.0
            && sum > 100.0)
  {
    var vgv := PageVgv(p.areaPrivativa, p.custosConfig);
    DefaultFallbackCost(fallback, vgv);
    FallbackOverflow(fallback, PercentOf(vgv, 16.73), direto, p);
  }

  /** Four shares over a total that leaves out the second amount exceed 100%
      by that amount's share of the total. */
  lemma SharesExcess(direto: real, venda: real, obra: real, terreno: real, total: real)
    requires venda > 0.0 && total == direto + terreno + obra && total > 0.0
    ensures var c := SharesOver(direto, venda, obra, terreno, total);
      var sum := c.direto + c.indiretoVenda + c.indiretoObra + c.terreno;
      (sum - 100.0) * total == venda * 100.0 && sum > 100.0
  {
    var c := SharesOver(direto, venda, obra, terreno, total);
    var sum := c.direto + c.indiretoVenda + c.indiretoObra + c.terreno;
    calc {
      sum * total;
      c.direto * total + c.indiretoVenda * total + c.indiretoObra * total + c.terreno * total;
      (direto + venda + obra + terreno) * 100.0;
    }
    assert (sum - 100.0) * total == venda * 100.0;
    PositiveFactor(sum - 100.0, total, venda * 100.0);
  }

  /** A factor of a positive product with a positive other factor is positive. */
  lemma PositiveFactor(x: real, t: real, y: real)
    requires t > 0.0 && x * t == y && y > 0.0
    ensures x > 0.0
  {
    assert x == y / t;
  }

  /** The composition as intended: every share over the total it is part of,
      all four read from calcular_resultados_financeiros. */
  function ResultadosComposition(direto: real, p: ProjectFigures): (r: Outcome<CostShares>)
    ensures var f := ResultadosFinanceiros(p, direto);
      && (r.Raised? <==> f.Raised?)
      && (r.Ok? && f.value.custoTotalDespesas <= 0.0 ==> r.value == CostShares(0.0, 0.0, 0.0, 0.0))
      && (r.Ok? && f.value.custoTotalDespesas > 0.0 ==>
            r.value.direto + r.value.indiretoVenda + r.value.indiretoObra + r.value.terreno == 100.0)
  {
    match ResultadosFinanceiros(p, direto)
    case Raised(e) => Raised(e)
    case Ok(f) =>
      SharesOfTotal(direto, f.custoIndiretoVenda, f.custoTerreno, f.custoIndiretoObra);
      Ok(SharesOver(direto, f.custoIndiretoVenda, f.custoIndiretoObra, f.custoTerreno, f.custoTotalDespesas))
  }

  /** Where the page's recomputation reads the same sale cost, that is with
      the price configured and the shares not a list, the page as written
      shows the intended composition. */
  lemma CompositionAgreesWhenPriced(fallback: Json, direto: real, p: ProjectFigures)
    requires In(p.custosConfig, "preco_medio_venda_m2") && !p.custosIndiretosPercentuais.JArr?
    ensures ResultadosShares(fallback, direto, p) == ResultadosComposition(direto, p)
  {
    assert PageVgv(p.areaPrivativa, p.custosConfig) == Vgv(p);
  }
}
