/** The form handling of viabilidade/views.py: the Brazilian number cleaning
    of salvar_empreendimento_dados (clean_number_str, parse_float_br,
    parse_int_br) and the field updates it makes, and the per-floor
    validation of salvar_custos_diretos. Form values are what
    `request.POST.get` returns: a str, or None for a missing field. */
module ViewsForms {
  import opened Wrappers
  import opened Numerals
  import opened PyRuntime
  import opened JsRuntime
  import opened Services
  import opened PavimentosJs
  import opened Models

  // ------------------------------------------------------ Brazilian numbers

  /** The text clean_number_str makes of a stripped value: the spaces and the
      thousands dots removed, the decimal comma turned into a point. */
  function Cleaned(t: string): string {
    Replace(Remove(Remove(t, ' '), '.'), ',', '.')
  }

  /** The cleaned text holds no comma and no space, one point for every
      comma of the input, and one character fewer for every space and dot. */
  lemma CleanedShape(t: string)
    ensures ',' !in Cleaned(t) && ' ' !in Cleaned(t)
    ensures Count(Cleaned(t), '.') == Count(t, ',')
    ensures |Cleaned(t)| + Count(t, ' ') + Count(t, '.') == |t|
  {
    var noSpaces := Remove(t, ' ');
    var noDots := Remove(noSpaces, '.');
    var r := Replace(noDots, ',', '.');
    CountRemove(t, ' ', ',');
    CountRemove(t, ' ', '.');
    CountRemove(noSpaces, '.', ',');
    CountRemove(noSpaces, '.', '.');
    CountReplace(noDots, ',', '.');
    CountZero(r, ',');
    RemoveLength(t, ' ');
    RemoveLength(noSpaces, '.');
    forall i | 0 <= i < |r|
      ensures r[i] != ' '
    {
      assert noDots[i] in noDots;
    }
  }

  /** Cleaning keeps the order of the characters it does not drop: the one
      at index i moves left by the spaces and dots before it, and a comma
      comes out as the decimal point. */
  lemma CleanedAt(t: string, i: int)
    requires 0 <= i < |t| && t[i] != ' ' && t[i] != '.'
    ensures 0 <= i - Count(t[..i], ' ') - Count(t[..i], '.') < |Cleaned(t)|
    ensures Cleaned(t)[i - Count(t[..i], ' ') - Count(t[..i], '.')] == if t[i] == ',' then '.' else t[i]
  {
    var noSpaces := Remove(t, ' ');
    var j := i - Count(t[..i], ' ');
    RemoveAt(t, ' ', i);
    assert t == t[..i] + t[i..];
    RemoveAppend(t[..i], t[i..], ' ');
    RemoveLength(t[..i], ' ');
    assert noSpaces[..j] == Remove(t[..i], ' ');
    CountRemove(t[..i], ' ', '.');
    RemoveAt(noSpaces, '.', j);
  }

  /** Every character the cleaning keeps lands at its index less the spaces
      and points before it, a comma having become a point. */
  lemma CleanedKeepsOrder(t: string)
    ensures forall i {:trigger Count(t[..i], ' ')} | 0 <= i < |t| && t[i] != ' ' && t[i] != '.' ::
      && 0 <= i - Count(t[..i], ' ') - Count(t[..i], '.') < |Cleaned(t)|
      && Cleaned(t)[i - Count(t[..i], ' ') - Count(t[..i], '.')] == if t[i] == ',' then '.' else t[i]
  {
    forall i | 0 <= i < |t| && t[i] != ' ' && t[i] != '.'
      ensures 0 <= i - Count(t[..i], ' ') - Count(t[..i], '.') < |Cleaned(t)|
      ensures Cleaned(t)[i - Count(t[..i], ' ') - Count(t[..i], '.')] == if t[i] == ',' then '.' else t[i]
    {
      CleanedAt(t, i);
    }
  }

  /** clean_number_str on a form value: None for a missing or blank field,
      else the cleaned text of the stripped value. */
  function CleanNumberStr(s: Option<string>): (r: Option<string>)
    ensures s.None? ==> r.None?
    ensures s.Some? ==> (r.None? <==> Strip(s.value) == "")
    ensures r.Some? ==> ',' !in r.value && ' ' !in r.value
    ensures r.Some? ==> Count(r.value, '.') == Count(Strip(s.value), ',')
    ensures r.Some? ==> |r.value| + Count(Strip(s.value), ' ') + Count(Strip(s.value), '.') == |Strip(s.value)|
    ensures r.Some? ==> var t := Strip(s.value);
      forall i {:trigger Count(t[..i], ' ')} | 0 <= i < |t| && t[i] != ' ' && t[i] != '.' ::
        && 0 <= i - Count(t[..i], ' ') - Count(t[..i], '.') < |r.value|
        && r.value[i - Count(t[..i], ' ') - Count(t[..i], '.')] == if t[i] == ',' then '.' else t[i]
  {
    if s.None? then None
    else
      var t := Strip(s.value);
      if t == "" then None
      else
        CleanedShape(t);
        CleanedKeepsOrder(t);
        Some(Cleaned(t))
  }

  /** parse_float_br: float() of the cleaned text, None where that fails. */
  function ParseFloatBr(s: Option<string>): (r: Option<real>)
    ensures s.None? || Strip(s.value) == "" ==> r.None?
    ensures r == if CleanNumberStr(s).Some? then FloatOfStr(CleanNumberStr(s).value) else None
  {
    match CleanNumberStr(s)
    case None => None
    case Some(cs) => FloatOfStr(cs)
  }

  /** parse_int_br: `int(float(...))` of the cleaned text, truncating toward zero. */
  function ParseIntBr(s: Option<string>): (r: Option<int>)
    ensures r == match ParseFloatBr(s) case None => None case Some(x) => Some(Trunc(x))
  {
    match CleanNumberStr(s)
    case None => None
    case Some(cs) =>
      match FloatOfStr(cs)
      case None => None
      case Some(x) => Some(Trunc(x))
  }

  /** Text made only of digits, points and commas. */
  predicate NumberChars(s: string) {
    forall k | 0 <= k < |s| :: IsDigit(s[k]) || s[k] == '.' || s[k] == ','
  }

  lemma NumberCharsJoin(a: string, sep: char, b: string)
    requires NumberChars(a) && NumberChars(b) && (sep == '.' || sep == ',')
    ensures NumberChars(a + [sep] + b)
  {
    var s := a + [sep] + b;
    forall k | 0 <= k < |s|
      ensures IsDigit(s[k]) || s[k] == '.' || s[k] == ','
    {
      if k < |a| {
        assert s[k] == a[k];
      } else if k > |a| {
        assert s[k] == b[k - |a| - 1];
      }
    }
  }

  /** Such text holds no white space, so strip() and the space removal keep it. */
  lemma NumberCharsUnspaced(s: string)
    requires NumberChars(s)
    ensures ' ' !in s && forall k | 0 <= k < |s| :: !IsSpace(s[k])
  {
    forall k | 0 <= k < |s|
      ensures !IsSpace(s[k])
    {
    }
  }

  /** A non-empty number text is cleaned without stripping or losing a space. */
  lemma CleanOfNumber(s: string)
    requires s != [] && NumberChars(s)
    ensures CleanNumberStr(Some(s)) == Some(Replace(Remove(s, '.'), ',', '.'))
  {
    NumberCharsUnspaced(s);
    StripKeeps(s);
    RemoveAbsent(s, ' ');
  }

  lemma DigitsHaveNoSeparators(d: string)
    requires AllDigits(d)
    ensures NumberChars(d) && '.' !in d && ',' !in d
  {
    forall x | x in d
      ensures x != '.' && x != ','
    {
      var k :| 0 <= k < |d| && d[k] == x;
      assert IsDigit(d[k]);
    }
  }

  lemma DigitsJoin(a: string, b: string)
    requires AllDigits(a) && AllDigits(b)
    ensures AllDigits(a + b)
  {
    var s := a + b;
    forall k | 0 <= k < |s|
      ensures IsDigit(s[k])
    {
      if k < |a| {
        assert s[k] == a[k];
      } else {
        assert s[k] == b[k - |a|];
      }
    }
  }

  lemma ReplaceAbsent(s: string, a: char, b: char)
    requires a !in s
    ensures Replace(s, a, b) == s
  {
    forall k | 0 <= k < |s|
      ensures Replace(s, a, b)[k] == s[k]
    {
      assert s[k] in s;
    }
  }

  /** A number text starts and ends with a character strip() keeps. */
  lemma NumberCharsEnds(s: string)
    requires s != [] && NumberChars(s)
    ensures !IsSpace(s[0]) && !IsSpace(s[|s| - 1])
  {
    NumberCharsUnspaced(s);
  }

  /** The value of the decimal literal `d.f`. */
  function DecimalValue(d: string, f: string): real
    requires AllDigits(d) && AllDigits(f)
  {
    DigitsValue(d) as real + DigitsValue(f) as real / Pow10(|f|) as real
  }

  /** `d.f` is a non-empty number text. */
  lemma DecimalNumberChars(d: string, f: string)
    requires |d| > 0 && AllDigits(d) && AllDigits(f)
    ensures var s := d + "." + f; s != [] && NumberChars(s) && !IsSpace(s[0]) && !IsSpace(s[|s| - 1])
  {
    DigitsHaveNoSeparators(d);
    DigitsHaveNoSeparators(f);
    NumberCharsJoin(d, '.', f);
    NumberCharsEnds(d + "." + f);
  }

  /** float() reads `digits.digits` as the decimal number. */
  lemma FloatOfDecimal(d: string, f: string)
    requires |d| > 0 && AllDigits(d) && AllDigits(f)
    ensures FloatOfStr(d + "." + f) == Some(DecimalValue(d, f))
  {
    DecimalNumberChars(d, f);
    DecimalPointLiteral(d, f);
    FloatOfLiteral(d + "." + f, DecimalValue(d, f));
  }

  /** float() reads a run of digits as the whole number. */
  lemma FloatOfDigits(s: string)
    requires |s| > 0 && AllDigits(s)
    ensures FloatOfStr(s) == Some(DigitsValue(s) as real)
  {
    DigitsHaveNoSeparators(s);
    NumberCharsEnds(s);
    DigitsAreDecimalLiteral(s);
    FloatOfLiteral(s, DigitsValue(s) as real);
  }

  /** parse_float_br of a number text whose cleaned form float() reads as x. */
  lemma ParseFloatBrVia(s: string, t: string, x: real)
    requires s != [] && NumberChars(s)
    requires Replace(Remove(s, '.'), ',', '.') == t && FloatOfStr(t) == Some(x)
    ensures ParseFloatBr(Some(s)) == Some(x)
  {
    CleanOfNumber(s);
  }

  lemma GroupedNumberChars(i: string)
    requires GroupedDigits(i)
    ensures NumberChars(i)
  {
  }

  /** `i,f` is a non-empty number text. */
  lemma BrazilianNumberChars(i: string, f: string)
    requires GroupedDigits(i) && AllDigits(f)
    ensures i + "," + f != [] && NumberChars(i + "," + f)
  {
    GroupedNumberChars(i);
    DigitsHaveNoSeparators(f);
    NumberCharsJoin(i, ',', f);
  }

  /** A Brazilian number `1.234,56` is read as 1234.56. */
  lemma ParseFloatBrBrazilian(i: string, f: string)
    requires GroupedDigits(i) && AllDigits(f)
    ensures ParseFloatBr(Some(i + "," + f)) == Some(DecimalValue(Ungrouped(i), f))
  {
    BrazilianNumberChars(i, f);
    BrazilianShape(i, f);
    FloatOfDecimal(Ungrouped(i), f);
    ParseFloatBrVia(i + "," + f, Ungrouped(i) + "." + f, DecimalValue(Ungrouped(i), f));
  }

  /** On a Brazilian number the server and the browser read the same value. */
  lemma ServerAndBrowserAgree(i: string, f: string)
    requires GroupedDigits(i) && AllDigits(f)
    ensures ParseFloatBr(Some(i + "," + f)) == Some(ParseNumBR(Some(i + "," + f)))
  {
    var x := DecimalValue(Ungrouped(i), f);
    assert x == DigitsValue(Ungrouped(i)) as real + DigitsValue(f) as real / Pow10(|f|) as real;
    ParseNumBRBrazilian(i, f);
    ParseFloatBrBrazilian(i, f);
    BothRead(i + "," + f, x);
  }

  lemma BothRead(s: string, x: real)
    requires ParseFloatBr(Some(s)) == Some(x) && ParseNumBR(Some(s)) == x
    ensures ParseFloatBr(Some(s)) == Some(ParseNumBR(Some(s)))
  {
  }

  /** Removing the separator c from `a c b`, where a and b do not hold it. */
  lemma RemoveAround(a: string, c: char, b: string)
    requires c !in a && c !in b
    ensures Remove(a + [c] + b, c) == a + b
  {
    assert Remove([c], c) == [];
    RemoveAppend(a, [c], c);
    RemoveAbsent(a, c);
    assert Remove(a + [c], c) == a;
    RemoveAppend(a + [c], b, c);
    RemoveAbsent(b, c);
  }

  /** Dropping the point of `d.f` leaves the digits of d and f run together. */
  lemma UndottedDecimal(d: string, f: string)
    requires AllDigits(d) && AllDigits(f)
    ensures Replace(Remove(d + "." + f, '.'), ',', '.') == d + f
  {
    DigitsHaveNoSeparators(d);
    DigitsHaveNoSeparators(f);
    RemoveAround(d, '.', f);
    DigitsJoin(d, f);
    DigitsHaveNoSeparators(d + f);
    ReplaceAbsent(d + f, ',', '.');
  }

  /** A plain run of digits, such as `12`, is read as that whole number. */
  lemma ParseFloatBrPlainDigits(d: string)
    requires |d| > 0 && AllDigits(d)
    ensures ParseFloatBr(Some(d)) == Some(DigitsValue(d) as real)
  {
    DigitsHaveNoSeparators(d);
    RemoveAbsent(d, '.');
    ReplaceAbsent(d, ',', '.');
    FloatOfDigits(d);
    ParseFloatBrVia(d, d, DigitsValue(d) as real);
  }

  /** The server reads `d.f` as the digits of d and f run together. */
  lemma ServerDropsPoint(d: string, f: string)
    requires |d| > 0 && AllDigits(d) && AllDigits(f)
    ensures AllDigits(d + f)
    ensures ParseFloatBr(Some(d + "." + f)) == Some(DigitsValue(d + f) as real)
  {
    DecimalNumberChars(d, f);
    UndottedDecimal(d, f);
    DigitsJoin(d, f);
    FloatOfDigits(d + f);
    ParseFloatBrVia(d + "." + f, d + f, DigitsValue(d + f) as real);
  }

  /** Without a comma the two sides part ways: the server drops the point as a
      thousands separator, so `d.f` reads as the digits of d and f run
      together, while the browser keeps it as the decimal point. */
  lemma DotWithoutComma(d: string, f: string)
    requires |d| > 0 && AllDigits(d) && AllDigits(f)
    ensures AllDigits(d + f)
    ensures ParseFloatBr(Some(d + "." + f)) == Some(DigitsValue(d + f) as real)
    ensures ParseNumBR(Some(d + "." + f)) == DecimalValue(d, f)
  {
    assert DecimalValue(d, f) == DigitsValue(d) as real + DigitsValue(f) as real / Pow10(|f|) as real;
    ParseNumBRDotDecimal(d, f);
    ServerDropsPoint(d, f);
  }

  /** The smallest case of DotWithoutComma: `1.5` is 15 on the server and 1.5 in the browser. */
  lemma OneDotFive()
    ensures ParseFloatBr(Some("1.5")) == Some(15.0)
    ensures ParseNumBR(Some("1.5")) == 1.5
  {
    assert "1" + "." + "5" == "1.5";
    assert "1" + "5" == "15";
    assert DigitsValue("15") == 15 by {
      assert "15"[..1] == "1";
    }
    assert DecimalValue("1", "5") == 1.5;
    DotWithoutComma("1", "5");
  }

  // ---------------------------------------------- salvar_empreendimento_dados

  /** The fields salvar_empreendimento_dados reads from the form. */
  datatype DadosForm = DadosForm(
    nome: Option<string>,
    areaTerreno: Option<string>,
    areaPrivativa: Option<string>,
    numUnidades: Option<string>,
    custoTerrenoM2: Option<string>,
    custoAreaPrivativa: Option<string>,
    precoMedioVendaM2: Option<string>)

  /** A parsed value where there is one, else the current value. */
  function Overwrite<T>(parsed: Option<T>, current: T): (r: T)
    ensures parsed.None? ==> r == current
    ensures parsed.Some? ==> r == parsed.value
  {
    match parsed case Some(v) => v case None => current
  }

  /** The new name: the stripped text when the field is non-blank. */
  function NewNome(nome: Option<string>, current: string): (r: string)
    ensures nome.None? || Strip(nome.value) == "" ==> r == current
    ensures nome.Some? && Strip(nome.value) != "" ==> r == Strip(nome.value) && r != ""
  {
    if nome.Some? && Strip(nome.value) != "" then Strip(nome.value) else current
  }

  /** The new unit count: only a parsed count above 0 replaces the current one. */
  function NewNumUnidades(parsed: Option<int>, current: int): (r: int)
    ensures r == current || (parsed.Some? && r == parsed.value && r > 0)
    ensures parsed.Some? && parsed.value > 0 ==> r == parsed.value
  {
    match parsed
    case Some(v) => if v > 0 then v else current
    case None => current
  }

  /** `custos[key] = v` for a parsed value only. */
  function SetParsed(custos: Dict<real>, key: string, v: Option<real>): (r: Dict<real>)
    ensures v.None? ==> r == custos
    ensures v.Some? ==> r == Set(custos, key, v.value)
  {
    if v.Some? then Set(custos, key, v.value) else custos
  }

  /** After SetParsed the key holds the value when there is one, and every
      other key what it held. */
  lemma SetParsedLookup(custos: Dict<real>, key: string, v: Option<real>, k: string)
    ensures Get(SetParsed(custos, key, v), k) == if k == key && v.Some? then v else Get(custos, k)
  {
  }

  /** The three writes of the save, on already parsed values. */
  function ThreeSets(custos: Dict<real>, v1: Option<real>, v2: Option<real>, v3: Option<real>): Dict<real> {
    SetParsed(SetParsed(SetParsed(custos, "custo_terreno_m2", v1), "custo_area_privativa", v2), "preco_medio_venda_m2", v3)
  }

  lemma ThreeSetsLookup(custos: Dict<real>, v1: Option<real>, v2: Option<real>, v3: Option<real>, k: string)
    ensures Get(ThreeSets(custos, v1, v2, v3), k) ==
      if k == "preco_medio_venda_m2" && v3.Some? then v3
      else if k == "custo_area_privativa" && v2.Some? then v2
      else if k == "custo_terreno_m2" && v1.Some? then v1
      else Get(custos, k)
  {
    var c1 := SetParsed(custos, "custo_terreno_m2", v1);
    var c2 := SetParsed(c1, "custo_area_privativa", v2);
    SetParsedLookup(custos, "custo_terreno_m2", v1, k);
    SetParsedLookup(c1, "custo_area_privativa", v2, k);
    SetParsedLookup(c2, "preco_medio_venda_m2", v3, k);
  }

  /** The configuration after the three cost fields. */
  function NewConfig(custos: Dict<real>, form: DadosForm): Dict<real> {
    ThreeSets(custos, ParseFloatBr(form.custoTerrenoM2), ParseFloatBr(form.custoAreaPrivativa), ParseFloatBr(form.precoMedioVendaM2))
  }

  /** The value a cost key holds after the save. */
  function CostAfter(custos: Dict<real>, raw: Option<string>, key: string): Option<real> {
    if ParseFloatBr(raw).Some? then ParseFloatBr(raw) else Get(custos, key)
  }

  /** Each of the three cost keys then holds its parsed value, or what it held;
      every other key of the configuration is left as it was. */
  lemma NewConfigLookups(custos: Dict<real>, form: DadosForm, k: string)
    ensures var r := NewConfig(custos, form);
      && Get(r, "custo_terreno_m2") == CostAfter(custos, form.custoTerrenoM2, "custo_terreno_m2")
      && Get(r, "custo_area_privativa") == CostAfter(custos, form.custoAreaPrivativa, "custo_area_privativa")
      && Get(r, "preco_medio_venda_m2") == CostAfter(custos, form.precoMedioVendaM2, "preco_medio_venda_m2")
      && (k != "custo_terreno_m2" && k != "custo_area_privativa" && k != "preco_medio_venda_m2" ==> Get(r, k) == Get(custos, k))
  {
    var v1, v2, v3 := ParseFloatBr(form.custoTerrenoM2), ParseFloatBr(form.custoAreaPrivativa), ParseFloatBr(form.precoMedioVendaM2);
    ThreeSetsLookup(custos, v1, v2, v3, "custo_terreno_m2");
    ThreeSetsLookup(custos, v1, v2, v3, "custo_area_privativa");
    ThreeSetsLookup(custos, v1, v2, v3, "preco_medio_venda_m2");
    ThreeSetsLookup(custos, v1, v2, v3, k);
  }

  /** salvar_empreendimento_dados: overwrites a field only with a value the
      form parses, and the unit count only with one above 0; the project's
      other fields are outside its frame. */
  method SalvarEmpreendimentoDados(projeto: Projeto, form: DadosForm)
    modifies projeto`nome, projeto`areaTerreno, projeto`areaPrivativa, projeto`numUnidades, projeto`custosConfig
    ensures projeto.nome == NewNome(form.nome, old(projeto.nome))
    ensures projeto.areaTerreno == Overwrite(ParseFloatBr(form.areaTerreno), old(projeto.areaTerreno))
    ensures projeto.areaPrivativa == Overwrite(ParseFloatBr(form.areaPrivativa), old(projeto.areaPrivativa))
    ensures projeto.numUnidades == NewNumUnidades(ParseIntBr(form.numUnidades), old(projeto.numUnidades))
    ensures old(projeto.numUnidades) > 0 ==> projeto.numUnidades > 0
    ensures projeto.custosConfig == NewConfig(old(projeto.custosConfig), form)
  {
    SalvarIdentificacao(projeto, form);
    SalvarAreas(projeto, form);
    SalvarUnidadesCustos(projeto, form);
  }

  /** The name field of salvar_empreendimento_dados. */
  method SalvarIdentificacao(projeto: Projeto, form: DadosForm)
    modifies projeto`nome
    ensures projeto.nome == NewNome(form.nome, old(projeto.nome))
  {
    projeto.nome := NewNome(form.nome, projeto.nome);
  }

  /** The unit count and the three cost fields of salvar_empreendimento_dados. */
  method SalvarUnidadesCustos(projeto: Projeto, form: DadosForm)
    modifies projeto`numUnidades, projeto`custosConfig
    ensures projeto.numUnidades == NewNumUnidades(ParseIntBr(form.numUnidades), old(projeto.numUnidades))
    ensures projeto.custosConfig == NewConfig(old(projeto.custosConfig), form)
  {
    projeto.numUnidades := NewNumUnidades(ParseIntBr(form.numUnidades), projeto.numUnidades);
    projeto.custosConfig := NewConfig(projeto.custosConfig, form);
  }

  /** The two area fields of salvar_empreendimento_dados. */
  method SalvarAreas(projeto: Projeto, form: DadosForm)
    modifies projeto`areaTerreno, projeto`areaPrivativa
    ensures projeto.areaTerreno == Overwrite(ParseFloatBr(form.areaTerreno), old(projeto.areaTerreno))
    ensures projeto.areaPrivativa == Overwrite(ParseFloatBr(form.areaPrivativa), old(projeto.areaPrivativa))
  {
    projeto.areaTerreno := Overwrite(ParseFloatBr(form.areaTerreno), projeto.areaTerreno);
    projeto.areaPrivativa := Overwrite(ParseFloatBr(form.areaPrivativa), projeto.areaPrivativa);
  }

  // -------------------------------------------------- salvar_custos_diretos

  /** The form fields of one floor. */
  datatype FloorPost = FloorPost(
    nome: Option<string>,
    tipo: Option<string>,
    rep: Option<string>,
    area: Option<string>,
    coef: Option<string>,
    excluir: Option<string>)

  /** `int(float(rep_raw))`, raised to 1 when below; the current value when
      the field is missing or float() refuses it. */
  function NewRep(toFloat: string -> Option<real>, raw: Option<string>, current: int): (r: int)
    ensures raw.Some? && toFloat(raw.value).Some? ==>
      r == if Trunc(toFloat(raw.value).value) >= 1 then Trunc(toFloat(raw.value).value) else 1
    ensures raw.None? || toFloat(raw.value).None? ==> r == current
  {
    if raw.None? then current
    else match toFloat(raw.value)
      case None => current
      case Some(x) => var v := Trunc(x); if v >= 1 then v else 1
  }

  /** `float(area_raw)` when it is not negative, else the current area. */
  function NewArea(toFloat: string -> Option<real>, raw: Option<string>, current: real): (r: real)
    ensures r == current || (raw.Some? && toFloat(raw.value) == Some(r) && r >= 0.0)
    ensures raw.Some? && toFloat(raw.value).Some? && toFloat(raw.value).value >= 0.0 ==> r == toFloat(raw.value).value
  {
    if raw.None? then current
    else match toFloat(raw.value)
      case None => current
      case Some(x) => if x >= 0.0 then x else current
  }

  /** `float(coef_raw)` when it is positive, else the current coefficient. */
  function NewCoef(toFloat: string -> Option<real>, raw: Option<string>, current: real): (r: real)
    ensures r == current || (raw.Some? && toFloat(raw.value) == Some(r) && r > 0.0)
    ensures raw.Some? && toFloat(raw.value).Some? && toFloat(raw.value).value > 0.0 ==> r == toFloat(raw.value).value
  {
    if raw.None? then current
    else match toFloat(raw.value)
      case None => current
      case Some(x) => if x > 0.0 then x else current
  }

  /** `if excl:` — a non-empty value of the exclusion checkbox. */
  predicate Excluded(excl: Option<string>) {
    excl.Some? && excl.value != ""
  }

  /** The floor after the save. */
  function UpdatedRow(toFloat: string -> Option<real>, r: FloorRow, p: FloorPost): FloorRow {
    FloorRow(
      Overwrite(p.nome, r.nome),
      Overwrite(p.tipo, r.tipo),
      NewRep(toFloat, p.rep, r.rep),
      NewCoef(toFloat, p.coef, r.coef),
      NewArea(toFloat, p.area, r.area),
      !Excluded(p.excluir))
  }

  /** A floor the aggregators can use: at least one repetition, no negative
      area and a positive coefficient. */
  predicate ValidFloor(r: FloorRow) {
    r.rep >= 1 && r.area >= 0.0 && r.coef > 0.0
  }

  /** The save keeps a valid floor valid, whatever the form holds, and the
      built flag is exactly the negation of the exclusion box. */
  lemma UpdatedRowStaysValid(toFloat: string -> Option<real>, r: FloorRow, p: FloorPost)
    ensures ValidFloor(r) ==> ValidFloor(UpdatedRow(toFloat, r, p))
    ensures UpdatedRow(toFloat, r, p).rep >= 1 || UpdatedRow(toFloat, r, p).rep == r.rep
    ensures UpdatedRow(toFloat, r, p).constr <==> !Excluded(p.excluir)
  {
  }

  /** A form whose numeric fields are all missing or unparsable leaves the
      numbers of the floor as they were. */
  lemma UnparsableKeepsNumbers(toFloat: string -> Option<real>, r: FloorRow, p: FloorPost)
    requires p.rep.None? || toFloat(p.rep.value).None?
    requires p.area.None? || toFloat(p.area.value).None?
    requires p.coef.None? || toFloat(p.coef.value).None?
    ensures var u := UpdatedRow(toFloat, r, p); u.rep == r.rep && u.area == r.area && u.coef == r.coef
  {
  }

  /** The per-floor body of salvar_custos_diretos; `toFloat` is float() of
      a str, FloatOfStr on the page. */
  method UpdateFloor(toFloat: string -> Option<real>, pav: Pavimento, post: FloorPost)
    modifies pav
    ensures pav.Row() == UpdatedRow(toFloat, old(pav.Row()), post)
  {
    if Excluded(post.excluir) {
      pav.constr := false;
    } else {
      pav.constr := true;
    }
    if post.nome.Some? {
      pav.nome := post.nome.value;
    }
    if post.tipo.Some? {
      pav.tipo := post.tipo.value;
    }
    pav.rep := NewRep(toFloat, post.rep, pav.rep);
    pav.area := NewArea(toFloat, post.area, pav.area);
    pav.coef := NewCoef(toFloat, post.coef, pav.coef);
  }

  /** salvar_custos_diretos: every floor of the project is updated from its
      own form fields, posts[k] holding the fields of floor k. */
  method SalvarCustosDiretos(pavs: seq<Pavimento>, posts: seq<FloorPost>)
    requires |posts| == |pavs|
    requires forall i, j | 0 <= i < j < |pavs| :: pavs[i] != pavs[j]
    modifies set k | 0 <= k < |pavs| :: pavs[k]
    ensures forall k | 0 <= k < |pavs| :: pavs[k].Row() == UpdatedRow(FloatOfStr, old(pavs[k].Row()), posts[k])
  {
    UpdateFloors(FloatOfStr, pavs, posts);
  }

  /** The loop of salvar_custos_diretos over the floors. */
  method UpdateFloors(toFloat: string -> Option<real>, pavs: seq<Pavimento>, posts: seq<FloorPost>)
    requires |posts| == |pavs|
    requires forall i, j | 0 <= i < j < |pavs| :: pavs[i] != pavs[j]
    modifies set k | 0 <= k < |pavs| :: pavs[k]
    ensures forall k | 0 <= k < |pavs| :: pavs[k].Row() == UpdatedRow(toFloat, old(pavs[k].Row()), posts[k])
  {
    var i := 0;
    while i < |pavs|
      invariant 0 <= i <= |pavs|
      invariant forall k | 0 <= k < i :: pavs[k].Row() == UpdatedRow(toFloat, old(pavs[k].Row()), posts[k])
      invariant forall k | i <= k < |pavs| :: pavs[k].Row() == old(pavs[k].Row())
    {
      UpdateFloor(toFloat, pavs[i], posts[i]);
      i := i + 1;
    }
  }
}
