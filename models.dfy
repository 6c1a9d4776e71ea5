/** The two persisted records, Projeto and Pavimento, with their field
    defaults, and the builders of the defaults of Projeto's JSON fields. */
module Models {
  import opened Wrappers
  import opened PyRuntime
  import opened Tables
  import opened Services

  // ------------------------------------------------------- default builders

  /** `{key: {"percentual": row default, "fonte": "Manual"}}` over a share
      table, in the table's order. */
  function SharesFromTable(t: Dict<ShareRange>): (r: Json)
    ensures r.JObj? && |r.fields| == |t|
  {
    JObj(seq(|t|, i requires 0 <= i < |t| => (t[i].0, ManualShare(JNum(t[i].1.default)))))
  }

  function DefaultCustosConfig(): Dict<real> {
    []
  }

  function DefaultEtapasPercentuais(): Json {
    SharesFromTable(ConstructionStages)
  }

  function DefaultCustosIndiretosPercentuais(): Json {
    SharesFromTable(IndirectCosts)
  }

  function DefaultCustosIndiretosFixos(): Dict<real> {
    []
  }

  /** A copy of the default monthly site costs. */
  function DefaultCustosIndiretosObra(): Dict<real> {
    seq(|SiteCostDefaults|, i requires 0 <= i < |SiteCostDefaults| => SiteCostDefaults[i])
  }

  /** A built share set has exactly the table's keys, in order, each mapped to
      a Manual share holding the row's default, and a key lookup finds the
      share of that key's row. */
  lemma SharesFromTableShape(t: Dict<ShareRange>, k: string)
    requires UniqueKeys(t)
    ensures var r := SharesFromTable(t);
      && Keys(r.fields) == Keys(t)
      && UniqueKeys(r.fields)
      && (forall i | 0 <= i < |t| :: r.fields[i].1 == ManualShare(JNum(t[i].1.default)))
      && (In(r.fields, k) <==> In(t, k))
      && (In(t, k) ==> Get(r.fields, k) == Some(ManualShare(JNum(GetOr(t, k, ShareRange(0.0, 0.0, 0.0)).default))))
  {
    var r := SharesFromTable(t);
    FindSameKeys(r.fields, t, k);
  }

  /** The column of a table's default percentages. */
  function DefaultColumn(t: Dict<ShareRange>): (c: seq<real>)
    ensures |c| == |t| && forall i | 0 <= i < |t| :: c[i] == t[i].1.default
  {
    seq(|t|, i requires 0 <= i < |t| => t[i].1.default)
  }

  lemma {:induction false} DefaultTotalIsSum(t: Dict<ShareRange>)
    ensures DefaultTotal(t) == Sum(DefaultColumn(t))
  {
    if t != [] {
      DefaultTotalIsSum(t[1..]);
      var c := DefaultColumn(t);
      assert c == [c[0]] + DefaultColumn(t[1..]);
      SumAppend([c[0]], DefaultColumn(t[1..]));
      assert [c[0]][..0] == [];
    }
  }

  /** The percentage a built share set adds up to, as the indirect-cost loop
      sums it, is the sum of the table's defaults. */
  lemma SharesFromTableSum(t: Dict<ShareRange>)
    ensures PercentSum(SharesFromTable(t).fields) == Ok(DefaultTotal(t))
  {
    var r := SharesFromTable(t);
    PercentSumOfNumbers(r.fields, DefaultColumn(t));
    DefaultTotalIsSum(t);
  }

  /** The percentual a built share holds. */
  function SharePercentual(share: Json): Json {
    if share.JObj? then GetOr(share.fields, "percentual", JNull) else JNull
  }

  /** When every row's default lies within the row's [min, max], so does
      every percentual of the built share set. */
  lemma SharesWithinRanges(t: Dict<ShareRange>)
    ensures DefaultsInRange(t) ==> forall i | 0 <= i < |t| ::
      var p := SharePercentual(SharesFromTable(t).fields[i].1);
      p.JNum? && t[i].1.min <= p.n <= t[i].1.max
  {
    var r := SharesFromTable(t);
    forall i | 0 <= i < |t|
      ensures SharePercentual(r.fields[i].1) == JNum(t[i].1.default)
    {
      var e := ManualShare(JNum(t[i].1.default));
      assert r.fields[i].1 == e;
    }
  }

  /** The default builders: empty configuration and fixed costs, a copy of
      the monthly site costs, and one Manual share per table row, with the
      table's keys in the table's order. */
  lemma DefaultBuilders()
    ensures DefaultCustosConfig() == [] && DefaultCustosIndiretosFixos() == []
    ensures DefaultCustosIndiretosObra() == SiteCostDefaults
    ensures Keys(DefaultEtapasPercentuais().fields) == Keys(ConstructionStages)
    ensures Keys(DefaultCustosIndiretosPercentuais().fields) == Keys(IndirectCosts)
  {
    StagesWellFormed();
    IndirectCostsWellFormed();
    SharesFromTableShape(ConstructionStages, "");
    SharesFromTableShape(IndirectCosts, "");
    ObraCopy();
  }

  lemma ObraCopy()
    ensures DefaultCustosIndiretosObra() == SiteCostDefaults
  {
  }

  /** Every built default share's percentual lies within its row's [min, max]. */
  lemma DefaultSharesInRange()
    ensures forall i | 0 <= i < |ConstructionStages| ::
      var p := SharePercentual(DefaultEtapasPercentuais().fields[i].1);
      p.JNum? && ConstructionStages[i].1.min <= p.n <= ConstructionStages[i].1.max
    ensures forall i | 0 <= i < |IndirectCosts| ::
      var p := SharePercentual(DefaultCustosIndiretosPercentuais().fields[i].1);
      p.JNum? && IndirectCosts[i].1.min <= p.n <= IndirectCosts[i].1.max
  {
    StagesWellFormed();
    IndirectCostsWellFormed();
    SharesWithinRanges(ConstructionStages);
    SharesWithinRanges(IndirectCosts);
  }

  /** The default stage shares add up to 100% of the direct cost. */
  lemma DefaultStagesSumTo100()
    ensures PercentSum(DefaultEtapasPercentuais().fields) == Ok(100.0)
  {
    SharesFromTableSum(ConstructionStages);
    StageDefaultsSumTo100();
  }

  /** With the default indirect shares, the indirect cost of sale is 16.73% of the VGV. */
  lemma DefaultIndirectShare(vgv: real)
    ensures var r := IndirectFromPercentages(vgv, DefaultCustosIndiretosPercentuais());
      r.Ok? && r.value == PercentOf(vgv, 16.73)
  {
    var shares := DefaultCustosIndiretosPercentuais();
    SharesFromTableSum(IndirectCosts);
    IndirectDefaultsSum();
    assert shares.fields != [] && Truthy(shares);
    var p := PercentSum(shares.fields);
    assert p.Ok? && p.value == 16.73;
  }

  // ---------------------------------------------------------------- records

  /** One floor of a project. */
  class Pavimento {
    var nome: string
    var tipo: string
    var rep: int
    var coef: real
    var area: real
    var constr: bool

    /** A new floor with the field defaults. */
    constructor (nome: string, tipo: string)
      ensures this.nome == nome && this.tipo == tipo
      ensures rep == 1 && coef == 1.0 && area == 0.0 && constr
    {
      this.nome := nome;
      this.tipo := tipo;
      rep := 1;
      coef := 1.0;
      area := 0.0;
      constr := true;
    }

    /** The floor as calcular_custos_diretos reads it. */
    function Row(): FloorRow
      reads this
    {
      FloorRow(nome, tipo, rep, coef, area, constr)
    }
  }

  /** A feasibility project. */
  class Projeto {
    var nome: string
    var areaTerreno: real
    var areaPrivativa: real
    var numUnidades: int
    var etapa: string
    var custosConfig: Dict<real>
    var etapasPercentuais: Json
    var custosIndiretosPercentuais: Json
    var custosIndiretosFixos: Dict<real>
    var custosIndiretosObra: Dict<real>
    var duracaoObra: int

    /** A new project with the field defaults. */
    constructor (nome: string)
      ensures this.nome == nome
      ensures areaTerreno == 0.0 && areaPrivativa == 0.0 && numUnidades == 1 && etapa == "1"
      ensures custosConfig == DefaultCustosConfig() && custosIndiretosFixos == DefaultCustosIndiretosFixos()
      ensures etapasPercentuais == DefaultEtapasPercentuais()
      ensures custosIndiretosPercentuais == DefaultCustosIndiretosPercentuais()
      ensures custosIndiretosObra == DefaultCustosIndiretosObra()
      ensures duracaoObra == 12
    {
      this.nome := nome;
      areaTerreno := 0.0;
      areaPrivativa := 0.0;
      numUnidades := 1;
      etapa := "1";
      custosConfig := DefaultCustosConfig();
      etapasPercentuais := DefaultEtapasPercentuais();
      custosIndiretosPercentuais := DefaultCustosIndiretosPercentuais();
      custosIndiretosFixos := DefaultCustosIndiretosFixos();
      custosIndiretosObra := DefaultCustosIndiretosObra();
      duracaoObra := 12;
    }

    /** The project as calcular_resultados_financeiros reads it. */
    function Figures(): ProjectFigures
      reads this
    {
      ProjectFigures(areaPrivativa, areaTerreno, custosConfig, custosIndiretosPercentuais, custosIndiretosObra, duracaoObra)
    }
  }
}
