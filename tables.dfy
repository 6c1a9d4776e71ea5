/** The constant tables of the engine: floor kinds and their equivalence
    coefficient range (TIPOS_PAVIMENTO), construction stages (ETAPAS_OBRA) and
    indirect-cost items (DEFAULT_CUSTOS_INDIRETOS) with their (min, default,
    max) percentage, the default monthly site costs
    (DEFAULT_CUSTOS_INDIRETOS_OBRA) and the default floor (DEFAULT_PAVIMENTO). */
module Tables {
  import opened Wrappers
  import opened PyRuntime

  /** A floor kind's (lower, upper) coefficient. */
  datatype CoefRange = CoefRange(lo: real, hi: real)

  /** A share's (min, default, max) percentage. */
  datatype ShareRange = ShareRange(min: real, default: real, max: real)

  /** The one kind counted as private (sellable) area. */
  const PrivateArea: string := "Área Privativa (Autônoma)"

  /** The coefficient range of a kind missing from the table. */
  const UnknownKind: CoefRange := CoefRange(1.0, 1.0)

  const FloorKinds: Dict<CoefRange> := [
    (PrivateArea, CoefRange(1.00, 1.00)),
    ("Áreas de lazer ambientadas", CoefRange(2.00, 4.00)),
    ("Varandas", CoefRange(0.75, 1.00)),
    ("Terraços / Áreas Descobertas", CoefRange(0.30, 0.60)),
    ("Garagem (Subsolo)", CoefRange(0.50, 0.75)),
    ("Estacionamento (terreno)", CoefRange(0.05, 0.10)),
    ("Salas com Acabamento", CoefRange(1.00, 1.00)),
    ("Salas sem Acabamento", CoefRange(0.75, 0.90)),
    ("Loja sem Acabamento", CoefRange(0.40, 0.60)),
    ("Serviço (unifam. baixa, aberta)", CoefRange(0.50, 0.50)),
    ("Barrilete / Cx D'água / Casa Máquinas", CoefRange(0.50, 0.75)),
    ("Piscinas", CoefRange(0.50, 0.75)),
    ("Quintais / Calçadas / Jardins", CoefRange(0.10, 0.30)),
    ("Projeção Terreno sem Benfeitoria", CoefRange(0.00, 0.00))
  ]

  const ConstructionStages: Dict<ShareRange> := [
    ("Serviços Preliminares e Fundações", ShareRange(7.0, 8.0, 9.0)),
    ("Estrutura (Supraestrutura)", ShareRange(14.0, 16.0, 22.0)),
    ("Vedações (Alvenaria)", ShareRange(8.0, 10.0, 15.0)),
    ("Cobertura e Impermeabilização", ShareRange(4.0, 5.0, 8.0)),
    ("Revestimentos de Fachada", ShareRange(5.0, 6.0, 10.0)),
    ("Instalações (Elétrica e Hidráulica)", ShareRange(12.0, 15.0, 18.0)),
    ("Esquadrias (Portas e Janelas)", ShareRange(6.0, 8.0, 12.0)),
    ("Revestimentos de Piso", ShareRange(8.0, 10.0, 15.0)),
    ("Revestimentos de Parede", ShareRange(6.0, 8.0, 12.0)),
    ("Revestimentos de Forro", ShareRange(3.0, 4.0, 6.0)),
    ("Pintura", ShareRange(4.0, 5.0, 8.0)),
    ("Serviços Complementares e Externos", ShareRange(3.0, 5.0, 10.0))
  ]

  const IndirectCosts: Dict<ShareRange> := [
    ("IRPJ/ CS/ PIS/ COFINS", ShareRange(3.0, 4.0, 6.0)),
    ("Corretagem", ShareRange(3.0, 3.61, 5.0)),
    ("Publicidade", ShareRange(0.5, 0.9, 2.0)),
    ("Manutenção", ShareRange(0.3, 0.5, 1.0)),
    ("Custo Fixo da Incorporadora", ShareRange(3.0, 4.0, 6.0)),
    ("Assessoria Técnica", ShareRange(0.5, 0.7, 1.5)),
    ("Projetos", ShareRange(0.4, 0.52, 1.5)),
    ("Licenças e Incorporação", ShareRange(0.1, 0.2, 0.5)),
    ("Outorga Onerosa", ShareRange(0.0, 0.0, 10.0)),
    ("Condomínio", ShareRange(0.0, 0.0, 0.5)),
    ("IPTU", ShareRange(0.05, 0.07, 0.2)),
    ("Preparação do Terreno", ShareRange(0.2, 0.33, 1.0)),
    ("Financiamento Bancário", ShareRange(1.0, 1.9, 3.0))
  ]

  const SiteCostDefaults: Dict<real> := [
    ("Administração de Obra (Engenheiro/Arquiteto)", 15000.0),
    ("Mestre de Obras e Encarregados", 8000.0),
    ("Aluguel de Equipamentos (andaimes, betoneira, etc.)", 5000.0),
    ("Consumo de Energia", 1000.0),
    ("Consumo de Água", 500.0),
    ("Telefone e Internet", 300.0),
    ("Seguros e Licenças de Canteiro", 1200.0),
    ("Transporte de Materiais e Pessoas", 2500.0),
    ("Despesas de Escritório e Apoio", 800.0)
  ]

  /** DEFAULT_PAVIMENTO. */
  datatype FloorTemplate = FloorTemplate(nome: string, tipo: string, rep: int, coef: real, area: real, constr: bool)

  const DefaultFloor: FloorTemplate := FloorTemplate("Pavimento Tipo", PrivateArea, 1, 1.00, 100.0, true)

  /** Every row's default lies within its own [min, max]. */
  ghost predicate DefaultsInRange(t: Dict<ShareRange>) {
    forall i | 0 <= i < |t| :: t[i].1.min <= t[i].1.default <= t[i].1.max
  }

  /** The sum of a share table's default percentages. */
  function DefaultTotal(t: Dict<ShareRange>): real {
    if t == [] then 0.0 else t[0].1.default + DefaultTotal(t[1..])
  }

  /** The tables have distinct keys, defaults inside their ranges and
      coefficient ranges that are not empty and not negative. */
  lemma TablesWellFormed()
    ensures UniqueKeys(FloorKinds) && UniqueKeys(ConstructionStages)
    ensures UniqueKeys(IndirectCosts) && UniqueKeys(SiteCostDefaults)
    ensures DefaultsInRange(ConstructionStages) && DefaultsInRange(IndirectCosts)
    ensures forall i | 0 <= i < |FloorKinds| :: 0.0 <= FloorKinds[i].1.lo <= FloorKinds[i].1.hi
  {
    FloorKindsWellFormed();
    StagesWellFormed();
    IndirectCostsWellFormed();
    SiteCostsWellFormed();
  }

  lemma FloorKindsWellFormed()
    ensures UniqueKeys(FloorKinds)
    ensures forall i | 0 <= i < |FloorKinds| :: 0.0 <= FloorKinds[i].1.lo <= FloorKinds[i].1.hi
  {
  }

  lemma StagesWellFormed()
    ensures UniqueKeys(ConstructionStages) && DefaultsInRange(ConstructionStages)
    ensures |ConstructionStages| == 12
  {
  }

  lemma IndirectCostsWellFormed()
    ensures UniqueKeys(IndirectCosts) && DefaultsInRange(IndirectCosts)
  {
    IndirectCostsDistinct();
    IndirectCostsInRange();
  }

  lemma IndirectCostsDistinct()
    ensures UniqueKeys(IndirectCosts)
  {
  }

  lemma IndirectCostsInRange()
    ensures DefaultsInRange(IndirectCosts)
  {
  }

  lemma SiteCostsWellFormed()
    ensures UniqueKeys(SiteCostDefaults)
  {
  }

  /** The default stage shares make up the whole direct cost. */
  lemma StageDefaultsSumTo100()
    ensures DefaultTotal(ConstructionStages) == 100.0
  {
  }

  /** The default indirect shares add up to 16.73% of the VGV. */
  lemma IndirectDefaultsSum()
    ensures DefaultTotal(IndirectCosts) == 16.73
  {
  }

  /** The default floor's coefficient is inside its kind's range. */
  lemma DefaultFloorCoefInRange()
    ensures Get(FloorKinds, DefaultFloor.tipo) == Some(CoefRange(1.0, 1.0))
    ensures DefaultFloor.rep >= 1 && DefaultFloor.area >= 0.0 && DefaultFloor.coef > 0.0
  {
  }
}
