# prognoz feasibility engine — a Dafny model

This project models the quantitative engine of the prognoz real-estate
feasibility calculator. It covers how floors become areas and a direct cost,
how the indirect, site and land costs add up to the total expense, profit and
margin, and how the pages split that total into its four shares. It also
covers:

- how one edit of a bounded percentage set is spread over the other items;
- how Brazilian number strings and form fields are cleaned before they are
  stored;
- how share sets stored in legacy shapes (lists, bare numbers) are repaired;
- how the report tables multiply a base by a percentage and add up;
- how the project list is updated by id.

Amounts are Dafny `real`s. IEEE rounding is not modelled.

Modules follow the source files:

| module | models |
|---|---|
| `Tables` | the constant tables `TIPOS_PAVIMENTO`, `ETAPAS_OBRA`, `DEFAULT_CUSTOS_INDIRETOS` and the monthly site-cost defaults |
| `Services` | viabilidade/services.py |
| `Models` | the `default_*` builders and the `Pavimento`/`Projeto` classes of viabilidade/models.py |
| `PavimentosJs` | the arithmetic and parsing of pavimentos.js |
| `FmtBr` | the template filters |
| `Redistribution` | `handle_percentage_redistribution` |
| `Report` | the table arithmetic of `generate_pdf_report` |
| `ProjectStore` | `save_project`, `delete_project` and `load_project` |
| `ViewsForms` | the number cleaning and the form saves of viabilidade/views.py |
| `ViewsShares` | the share repair, the stage and indirect-cost tables, the share and site-cost saves, and the composition on the resultados page |

Three supporting modules describe the runtime the code relies on:

- `PyRuntime` holds:
  - an ordered Python dict (`Dict<V>`, an association list with unique keys, where assignment replaces in place or appends);
  - JSON values (`Json`);
  - uncaught exceptions (`Outcome`: `Ok` or `Raised`);
  - `float()`, `int()`, `strip()`, `replace()` and `sum()`.
- `JsRuntime` holds JavaScript's `trim()`, `\s` and `parseFloat`.
- `Numerals` holds decimal literals and digit values.

Code that changes state in the source is imperative in the model:

- `calcular_areas_pavimentos` writes `area_eq`/`area_constr` into each floor dict, modelled as class `Services.FloorDict`. The floor list is passed in and returned.
- The redistribution handler mutates `current` and replaces the `previous` snapshot, modelled as class `Redistribution.Redistributor`, whose `Handle` is proved against the function `React`.
- The views assign the fields of `Projeto` and `Pavimento` objects, modelled as classes in `Models` with field-granular `modifies` frames.
- The accumulator loops are methods with loop invariants, each proved equal to a specification function:
  - `calcular_custos_indiretos_porcentuais`;
  - the report tables;
  - `recalcTotais`;
  - `salvar_custos_indiretos`;
  - `salvar_administracao_obra`.

Where the code and the intended behaviour differ, the model follows the code:

- The VGV price defaults to 0 in `calcular_resultados_financeiros` but to 10000 in the views.
- An empty changed key counts as "no edit" in the redistribution handler.
- A string percentual makes the report tables raise, because of the `:.2f` format.
- `parse_float_br` reads `"1.5"` as 15, while the browser's `parseNumBR` reads it as 1.5 (`ViewsForms.OneDotFive`). The server drops every dot, because dots are thousands separators there.
- `calcular_custos_indiretos_porcentuais` treats a list as `{}`, so it contributes 0.

## Model

| member | source | states |
|---|---|---|
| Tables.TablesWellFormed | viabilidade/services.py:22-73 | every constant table has unique keys, its defaults lie in their ranges and each range has 0 ≤ lo ≤ hi |
| Tables.FloorKindsWellFormed | viabilidade/services.py:22-28 | the floor-kind table has unique keys and ordered coefficient ranges |
| Tables.StagesWellFormed | viabilidade/services.py:31-44 | the stage table has twelve distinct stages, each default inside its (min, max) |
| Tables.IndirectCostsWellFormed | viabilidade/services.py:46-60 | the indirect-cost table has unique keys and defaults within range |
| Tables.SiteCostsWellFormed | viabilidade/services.py:63-73 | the monthly site-cost defaults have unique keys |
| Tables.StageDefaultsSumTo100 | viabilidade/services.py:31-44 | the middle values of the stage table add up to 100% |
| Tables.IndirectDefaultsSum | viabilidade/services.py:46-60 | the default indirect percentages add up to 16.73% |
| Tables.DefaultFloorCoefInRange | viabilidade/services.py:22-29 | the default floor's kind has the range (1.0, 1.0), and the default floor has rep ≥ 1, a non-negative area and a positive coefficient |
| Services.FloorDict.constructor | viabilidade/services.py:77-88 | a floor dict carries its input keys and no computed areas yet |
| Services.CalcularAreasPavimentos | viabilidade/services.py:77-108 | TypeError is raised exactly when some floor's area or rep is None, after every floor before the first such one got its area_eq and area_constr, and no other dict is touched; otherwise the same list comes back, every floor written, with the running totals |
| Services.Times | viabilidade/services.py:92-94 | the product raises TypeError exactly when area or rep is None; an absent key takes its default |
| Services.FirstRefused | viabilidade/services.py:88-94 | the first floor whose product raises, every floor before it accepted |
| Services.RefusedAt | viabilidade/services.py:88-94 | a refused floor reached after accepted ones is the first refused floor |
| Services.WriteFloor | viabilidade/services.py:89-97 | a floor whose product does not raise gets area_eq = area×rep×coef and area_constr = area×rep, or 0 when constr is false or None |
| Services.WriteNext | viabilidade/services.py:88-102 | one loop step writes its floor, keeps the earlier floors written and adds that floor's three areas to the running totals |
| Services.TotalsStep | viabilidade/services.py:99-102 | one more floor adds its area×rep, its area_eq and its built area to the three totals |
| Services.TotalsUpToPrefix | viabilidade/services.py:99-102 | the totals accumulated over the first n floors are those of the prefix of length n |
| Services.TotalsAreColumnSums | viabilidade/services.py:94-102 | total area, equivalent area and built area are the sums of their columns, the built one over floors whose constr is true or missing (None counts as not built) |
| Services.ResolvedCoefFromTable | viabilidade/services.py:89-91 | a floor without coef takes the lower bound of its kind's range |
| Services.ResolvedCoefUnknownKind | viabilidade/services.py:89-91 | an unknown kind without coef gives coefficient 1.0 |
| Services.BuiltTotalBounded | viabilidade/services.py:94-102 | with non-negative floor areas, 0 ≤ built total ≤ total area |
| Services.BuiltOnly | viabilidade/services.py:95 | exactly the floors that count as built |
| Services.CalcularCustosDiretos | viabilidade/services.py:113-161 | an empty list gives zero totals and no table; otherwise direct cost = equivalent total × unit cost, and each row has area_eq = area×rep×coef, its built area and cost = area_eq × unit |
| Services.CostTableRows | viabilidade/services.py:140-143 | every row of the cost table is priced from its floor |
| Services.CostColumnScaled | viabilidade/services.py:143 | the cost column is the equivalent-area column scaled by the unit cost |
| Services.DirectCostsColumns | viabilidade/services.py:145-153 | built, equivalent and private totals are the sums of their columns |
| Services.AggregatorsAgree | viabilidade/services.py:94-102 | on the same floors, calcular_custos_diretos and calcular_areas_pavimentos give the same built and equivalent totals |
| Services.ColumnsMatchTotals | viabilidade/services.py:147-150 | the pandas column sums equal the aggregator's running totals |
| Services.RowAgrees | viabilidade/services.py:92-95 | one floor priced by either aggregator has the same equivalent and built area |
| Services.PrivateTotalCountsPrivateFloors | viabilidade/services.py:153 | the private total is the area of exactly the "Área Privativa (Autônoma)" floors |
| Services.PrivateRowsArePrivate | viabilidade/services.py:153 | the private floors are exactly the floors of that one kind |
| Services.CalcularCustosIndiretosPorcentuais | viabilidade/services.py:163-179 | the loop returns the specified indirect cost: 0 for a list or a falsy value, AttributeError for another non-dict, else vgv × Σpercentual / 100 |
| Services.AccumulateEntries | viabilidade/services.py:171-178 | the accumulation over the entries is vgv × the percentage sum, or the first exception |
| Services.AccumulateBy | viabilidade/services.py:171-178 | a running total over the entries equals the step-by-step sum it follows |
| Services.AddEntry | viabilidade/services.py:172-178 | a non-dict entry adds nothing and an exception already raised stays raised |
| Services.NonDictEntriesIgnored | viabilidade/services.py:172-178 | the sum over all entries equals the sum over the dict entries only |
| Services.PercentSumRaisesIffBadEntry | viabilidade/services.py:173-175 | the sum raises exactly when some dict entry holds a percentual float() refuses |
| Services.PercentSumOfNumbers | viabilidade/services.py:173-175 | over dict entries with numeric percentuals the sum is their arithmetic sum |
| Services.PercentSumRaisedStays | viabilidade/services.py:175 | once float() raises, the rest of the loop is not reached |
| Services.DictEntries | viabilidade/services.py:172 | the entries kept are dicts |
| Services.CustosIndiretosObra | viabilidade/services.py:181-186 | the site overhead is the sum of monthly values × duration, non-negative for non-negative inputs |
| Services.ResultadosFinanceiros | viabilidade/services.py:188-210 | raises exactly when the indirect part raises; total = direct + indirect + land + site; profit + total = vgv; margin is 0 for vgv ≤ 0 and margin × vgv = profit × 100 otherwise |
| Services.MarginBenchmark | viabilidade/services.py:199-200 | for vgv > 0, margin ≥ 15 iff profit ≥ 15% of vgv, and margin < 0 iff the expense exceeds vgv |
| Services.MarginThresholds | viabilidade/services.py:200 | the percentage thresholds carry over to the profit |
| Services.ShareDivisor | viabilidade/services.py:233-235 | the divisor of gerar_analise_local is never 0; it is the component sum when positive, else the total cost when nonzero |
| Services.Percent | viabilidade/services.py:237-240 | share × divisor = component × 100 |
| Services.SharesOfTotal | viabilidade/services.py:237-240 | four components over their own positive sum give shares adding to 100 |
| Services.CompositionShares | viabilidade/services.py:237-240 | each share is its component over the divisor; they add to 100 when the components sum positive |
| Services.HealthOf | viabilidade/services.py:246 | promissora iff margin ≥ 15, marginal iff 5 ≤ margin < 15, preocupante iff margin < 5 |
| Services.GerarAnaliseLocal | viabilidade/services.py:213-297 | the analysis holds the health, divisor and shares above, per-m² figures iff the private area is positive, and the recommendations for the margin and shares |
| Services.FirstFive | viabilidade/services.py:288 | the list shows at most the first five recommendations |
| Services.Recommend | viabilidade/services.py:277-286 | 2 to 5 recommendations in fixed order: price revision iff margin < 15, land iff land share > 25, schedule iff site share > 10, suppliers and sales always |
| Services.RankedIsStrict | viabilidade/services.py:277-286 | no recommendation appears twice |
| Services.ListedFacts | viabilidade/services.py:277-286 | the recommendation list has each conditional item exactly when its flag holds |
| Services.ListedWithRevise | viabilidade/services.py:279-286 | with the price revision, the list holds 3 to 5 items in order |
| Services.ListedWithoutRevise | viabilidade/services.py:281-286 | without the price revision, the list holds 2 to 4 items in order |
| Services.PerM2 | viabilidade/services.py:264-270 | each figure times the private area gives back its cost: the total, the direct cost, and as indirect the sale and site costs plus the land; direct + indirect then make up the component sum |
| Models.SharesFromTable | viabilidade/models.py:11-15 | a built share set is a dict with one entry per table row |
| Models.SharesFromTableShape | viabilidade/models.py:11-15 | it has exactly the table's keys in order, each a Manual share of the row's default |
| Models.SharesFromTableSum | viabilidade/models.py:11-15 | its percentuals add up to the table's default total |
| Models.SharesWithinRanges | viabilidade/models.py:11-15 | every built percentual lies within its row's [min, max] |
| Models.DefaultBuilders | viabilidade/models.py:8-21 | config and fixed costs start empty, the site costs are a copy of the defaults, and the share sets have the stage and indirect keys |
| Models.DefaultSharesInRange | viabilidade/models.py:11-15 | every default stage and indirect share is within its range |
| Models.DefaultStagesSumTo100 | viabilidade/models.py:11-12 | the default stage shares add up to 100% |
| Models.DefaultIndirectShare | viabilidade/models.py:14-15 | the default indirect shares cost 16.73% of the VGV |
| Models.DefaultColumn | viabilidade/models.py:11-15 | the defaults column lists each row's middle value |
| Models.Pavimento.constructor | viabilidade/models.py:56-63 | a new floor has rep 1, coef 1.0, area 0.0 and constr true |
| Models.Projeto.constructor | viabilidade/models.py:23-52 | a new project has zero areas, one unit, stage "1", the default builders' share sets and costs, and a 12-month duration |
| PavimentosJs.ParseNumBR | viabilidade/static/viabilidade/pavimentos.js:4-20 | null and blank give 0; a nonzero result is what parseFloat reads from the normalized text |
| PavimentosJs.NormalizeNumBR | viabilidade/static/viabilidade/pavimentos.js:11-17 | with a comma, no comma is left, the dots are the former commas, and every kept character stays in order at its index less the dots before it, a comma turned into a dot; without one, no white space is left, the dots are kept and every other character stays in order at its index less the white space before it |
| PavimentosJs.RemoveSpacesKeepsOrder | viabilidade/static/viabilidade/pavimentos.js:16 | removing the white space keeps every other character, in order |
| PavimentosJs.RemoveSpacesAt | viabilidade/static/viabilidade/pavimentos.js:16 | a kept character moves left by the white space before it |
| PavimentosJs.ParseNumBRBrazilian | viabilidade/static/viabilidade/pavimentos.js:11-19 | "1.234,5"-style input reads as its decimal value |
| PavimentosJs.ParseNumBRDotDecimal | viabilidade/static/viabilidade/pavimentos.js:14-19 | "12.5"-style input, without a comma, reads as a decimal point |
| PavimentosJs.Clamp | viabilidade/static/viabilidade/pavimentos.js:60 | the value is forced into [lo, hi] and kept when already inside |
| PavimentosJs.AtualizaCoef | viabilidade/static/viabilidade/pavimentos.js:50-76 | a known kind sets the slider range; it is disabled iff min = max, when the value is forced to min; an in-range value is kept and an empty one becomes min |
| PavimentosJs.AtualizaCoefInRange | viabilidade/static/viabilidade/pavimentos.js:60-67 | for every floor kind of the table the coefficient shown lies in the kind's range |
| PavimentosJs.SliderClamp | viabilidade/static/viabilidade/pavimentos.js:179-184 | the typed value is clamped into the slider's [min, max] (empty bounds count 0 and 9999), kept when inside |
| PavimentosJs.ParseRow | viabilidade/static/viabilidade/pavimentos.js:103-109 | each row reads whether it counts, is excluded and is private |
| PavimentosJs.RecalcTotais | viabilidade/static/viabilidade/pavimentos.js:78-141 | nothing is recomputed while a project field has focus (unless forced) or there are no rows; otherwise the cards are the totals of the parsed rows |
| PavimentosJs.SumRows | viabilidade/static/viabilidade/pavimentos.js:103-125 | the forEach loop gives the page sums |
| PavimentosJs.AccumulateRow | viabilidade/static/viabilidade/pavimentos.js:108-120 | the callback on one parsed row adds to the three accumulators what one step of the page sums adds |
| PavimentosJs.SumsStep | viabilidade/static/viabilidade/pavimentos.js:110-120 | a row adds one step to the sums: built area grows only for counted non-excluded rows, equivalent area for counted rows, private area only for counted private rows |
| PavimentosJs.UnitCount | viabilidade/static/viabilidade/pavimentos.js:137 | the unit divisor is at least 1 |
| PavimentosJs.RatioOrZero | viabilidade/static/viabilidade/pavimentos.js:134-139 | a ratio is 0 unless its divisor is positive |
| PavimentosJs.CardsOf | viabilidade/static/viabilidade/pavimentos.js:132-139 | direct cost = equivalent × unit cost; cost per m² and AP/AC are 0 without built area; the per-unit cost × units = direct cost |
| PavimentosJs.PageSumsMatchServer | viabilidade/static/viabilidade/pavimentos.js:110-120 | on the same floors the page's three sums equal the server's columns |
| PavimentosJs.TotalsMatchServer | viabilidade/static/viabilidade/pavimentos.js:110-120 | they equal calcular_custos_diretos' totals |
| PavimentosJs.CostMatchesServer | viabilidade/static/viabilidade/pavimentos.js:132 | the page's direct cost equals the server's |
| PavimentosJs.MatchFloorField | viabilidade/static/viabilidade/pavimentos.js:147 | a match is one of rep, area, coef, tipo, then '_' and a non-empty run of digits |
| PavimentosJs.MatchAcceptsFloorFields | viabilidade/static/viabilidade/pavimentos.js:147 | every such name matches, with its prefix and digits |
| PavimentosJs.MatchExtractsId | viabilidade/static/viabilidade/pavimentos.js:147 | the match gives back the floor id written in the name |
| PavimentosJs.MatchRejectsProjectFields | viabilidade/static/viabilidade/pavimentos.js:147 | area_privativa, custo_area_privativa, area_total_construcao, area_comum and excluir_3 do not match |
| PavimentosJs.OnlyArea | viabilidade/static/viabilidade/pavimentos.js:147 | "area_" followed by a non-digit does not match |
| FmtBr.SwapSeparators | viabilidade/templatetags/fmt_br.py:8 | the swap keeps the length; ',' becomes '.', '.' becomes ',' and a placeholder 'X' becomes '.' |
| FmtBr.SwapWithoutPlaceholder | viabilidade/templatetags/fmt_br.py:8 | without an 'X', only the two separators change |
| FmtBr.SwapInvolution | viabilidade/templatetags/fmt_br.py:8 | swapping twice gives the text back when it holds no 'X' |
| FmtBr.PlaceholderBecomesDot | viabilidade/templatetags/fmt_br.py:8 | a literal 'X' in the text is turned into a dot |
| FmtBr.FmtBr | viabilidade/templatetags/fmt_br.py:5-10 | a value float() refuses comes back unchanged; otherwise the swapped format of the same length |
| FmtBr.Div | viabilidade/templatetags/fmt_br.py:13-17 | 0 on an unparsable operand or a zero divisor; else the quotient, which times arg gives value back |
| FmtBr.Mul | viabilidade/templatetags/fmt_br.py:19-23 | 0 on an unparsable operand, else value × arg of the parsed operands |
| FmtBr.MulUndoesDiv | viabilidade/templatetags/fmt_br.py:13-23 | multiplying a quotient back by a nonzero divisor gives the value |
| FmtBr.MulCommutes | viabilidade/templatetags/fmt_br.py:19-23 | mul does not depend on operand order |
| FmtBr.GetItem | viabilidade/templatetags/fmt_br.py:26-30 | '' for a non-dict, None for a missing key, else the key's value |
| FmtBr.GetItemAfterSet | viabilidade/templatetags/fmt_br.py:26-30 | after an assignment the filter finds the new value |
| Redistribution.FirstEdited | prognoz/utils.py:129 | the first key whose percentual differs from the snapshot, every earlier one unchanged |
| Redistribution.EditOf | prognoz/utils.py:129-130 | an edit is reported only with a snapshot, at a key whose value changed and that is non-empty |
| Redistribution.ClampShare | prognoz/utils.py:140 | the new value is at least min, at most max when min ≤ max, and kept when inside |
| Redistribution.FirstRaise | prognoz/utils.py:137 | the first item without a constants row or snapshot, where KeyError stops the loop |
| Redistribution.RaiseAt | prognoz/utils.py:137 | an item missing from the constants or the snapshot raises there |
| Redistribution.React | prognoz/utils.py:124-141 | the reaction keeps the keys of current |
| Redistribution.Redistributor.constructor | prognoz/utils.py:124-126 | a fresh state has no snapshot and no redistribution flag |
| Redistribution.Redistributor.Handle | prognoz/utils.py:124-141 | the handler's new state and escaping exception are those React specifies |
| Redistribution.Redistributor.SpreadDelta | prognoz/utils.py:134-140 | the loop updates the items in order until the first KeyError, keeping the earlier updates |
| Redistribution.UnchangedWhenEqual | prognoz/utils.py:128 | when current equals the snapshot, nothing changes |
| Redistribution.UnchangedWithoutEdit | prognoz/utils.py:129-130 | without an edited key, nothing changes |
| Redistribution.QuietCallRefreshes | prognoz/utils.py:141 | a call that does not raise either changes nothing or leaves the snapshot equal to current |
| Redistribution.SecondCallIsNoOp | prognoz/utils.py:128-141 | an immediate second call changes nothing |
| Redistribution.EditedItemKept | prognoz/utils.py:135-136 | the edited item's own percentual is not adjusted |
| Redistribution.OthersWithinBounds | prognoz/utils.py:137-140 | after a redistribution every other item lies within its [min, max] |
| Redistribution.OthersKeptWithoutWeight | prognoz/utils.py:133-134 | with no positive weight to spread over, the other items keep their values and the snapshot is refreshed |
| Redistribution.SumPreserved | prognoz/utils.py:132-140 | for a single unclamped edit the sum of the percentuals equals the snapshot's |
| Redistribution.SpreadResultSum | prognoz/utils.py:134-140 | the spread values add up to the snapshot's sum |
| Redistribution.SpreadValuesAll | prognoz/utils.py:138-139 | each other item drops by delta × its previous value / total_others |
| Redistribution.SpreadCompletes | prognoz/utils.py:137 | when every item has its rows, no KeyError escapes |
| Redistribution.OthersTotalIsMaskedSum | prognoz/utils.py:133 | total_others is the snapshot's sum without the edited key |
| Report.SharesOver | prognoz/utils.py:207 | all shares are 0 for a non-positive total; else each share × total = component × 100 |
| Report.ReportComposition | prognoz/utils.py:196-207 | the report's four shares are 0 without costs and add up to 100 otherwise |
| Report.FloorTable | prognoz/utils.py:221-247 | the floor table is left out exactly when there are no floors |
| Report.FloorTableMatchesAggregator | prognoz/utils.py:223-225 | the table's totals equal the aggregator's totals |
| Report.LinesFollowTotals | prognoz/utils.py:223-225 | the column sums follow the running totals |
| Report.RowPercent | prognoz/utils.py:254-259 | a number is shown; a string raises ValueError and any other value TypeError |
| Report.RowOf | prognoz/utils.py:279-284 | a non-dict raises AttributeError; a row's cost is base × percentual / 100 |
| Report.TableRows | prognoz/utils.py:275-297 | the rows follow the entries in order |
| Report.BuildTable | prognoz/utils.py:250-297 | the loop gives the specified table and its two running totals |
| Report.TableTotals | prognoz/utils.py:288-290 | the cost total is the base × the percentage total / 100 |
| Report.CostsFollowPercents | prognoz/utils.py:280 | summed costs equal the summed percentage of the base |
| Report.TableRaisesIffBadRow | prognoz/utils.py:279-284 | the table raises exactly when some entry is not a dict or has a non-numeric percentual |
| Report.TableOfNumbers | prognoz/utils.py:279-280 | with numeric percentuals the table shows them in order |
| Report.KeyedEntries | prognoz/utils.py:253-254 | the stage table has one entry per ETAPAS_OBRA row, {} where the project has none |
| Report.StageRows | prognoz/utils.py:253-255 | a stage missing from the project is shown at 0% |
| Report.DefaultsTable | prognoz/utils.py:250-272 | a table over a default share set shows each row's default and sums to the table's total |
| Report.DefaultStageTable | prognoz/utils.py:250-272 | the default stage shares total 100% and the direct cost itself |
| Report.ServiceSumOfRows | prognoz/utils.py:279-280 | the table's percentages sum as the indirect-cost service sums them |
| Report.IndirectTableAgreesWithService | prognoz/utils.py:275-297 | the report's indirect total equals calcular_custos_indiretos_porcentuais |
| Report.RelacaoAcPriv | prognoz/utils.py:299 | the ratio is built area / private area, 0 for a non-positive private area, and the area itself when the key is missing |
| ProjectStore.SaveProject | prognoz/utils.py:89-96 | with an id, every record holding it is replaced and the length kept; without one, the info goes at the end with the next id and its creation time |
| ProjectStore.MaxId | prognoz/utils.py:94 | the largest id of the list |
| ProjectStore.NextId | prognoz/utils.py:94 | 1 for an empty list; else the largest id plus 1: above every id and one more than some id |
| ProjectStore.SaveNewIdIsFresh | prognoz/utils.py:94-95 | a new project's id is fresh and the old ids are kept |
| ProjectStore.SaveUnknownIdIsNoOp | prognoz/utils.py:91-92 | saving an id no record holds changes nothing |
| ProjectStore.SaveWithIdKeepsIds | prognoz/utils.py:91-92 | saving with an id keeps the ids, and the records with it hold the saved fields |
| ProjectStore.DeleteProject | prognoz/utils.py:108-109 | exactly the records with another id remain, and the list shrinks by the number of records holding the id |
| ProjectStore.DeleteDistributes | prognoz/utils.py:109 | the comprehension works record by record: deleting from a concatenation is deleting from each part, a single record being kept exactly when its id differs |
| ProjectStore.DeleteAbsentIsNoOp | prognoz/utils.py:108-109 | deleting an absent id changes nothing |
| ProjectStore.DeleteIdempotent | prognoz/utils.py:108-109 | deleting twice is deleting once |
| ProjectStore.DeleteUndoesSave | prognoz/utils.py:89-109 | deleting the project just created gives the list back |
| ProjectStore.FindProject | prognoz/utils.py:98 | the first record with the id, None when there is none |
| ProjectStore.NormalizeShares | prognoz/utils.py:99-106 | a falsy set is kept, a truthy non-dict raises AttributeError, a dict whose first value is a number is wrapped |
| ProjectStore.Wrapped | prognoz/utils.py:99-106 | every value becomes {percentual: v, fonte: Manual} under its key |
| ProjectStore.WrappedKeepsKeys | prognoz/utils.py:99-106 | wrapping keeps the keys and their order |
| ProjectStore.NormalizeIdempotent | prognoz/utils.py:99-106 | normalizing twice is normalizing once |
| ProjectStore.NormalizeField | prognoz/utils.py:99-106 | a record without the key is kept; otherwise the key gets its normalized set |
| ProjectStore.LoadProject | prognoz/utils.py:97-107 | Ok(None) for an unknown id; a found record loads exactly when both rewrites succeed, and then comes back with its stage set and then its indirect-cost set normalized, its id and its keys; the only exception that escapes is the AttributeError of a truthy non-dict set |
| ProjectStore.LoadLegacyProject | prognoz/utils.py:97-107 | a record with a legacy numeric stage set, and an indirect-cost set that needs no rewrite, loads with its stages wrapped as Manual shares under the same keys and every other key as stored |
| ProjectStore.LoadWrapsLegacyStages | prognoz/utils.py:99-102 | a legacy stage set of numbers is wrapped under the same keys, leaving every other key alone |
| ViewsForms.CleanNumberStr | viabilidade/views.py:379-392 | None for None or blank; otherwise no comma or space remains, the dots are the former commas, the length drops by the spaces and dots, and every other character of the stripped text stays in order at its index less the spaces and dots before it, a comma turned into a dot |
| ViewsForms.CleanedShape | viabilidade/views.py:388-392 | the cleaned text has no comma or space, one dot per comma, and loses exactly the spaces and dots |
| ViewsForms.CleanedKeepsOrder | viabilidade/views.py:388-392 | every character the cleaning keeps stays in order, a comma becoming a dot |
| ViewsForms.CleanedAt | viabilidade/views.py:388-392 | a kept character moves left by the spaces and dots before it |
| ViewsForms.ParseFloatBr | viabilidade/views.py:394-401 | None for None or blank; otherwise exactly float() of the cleaned text, None where float() refuses it |
| ViewsForms.ParseFloatBrPlainDigits | viabilidade/views.py:379-401 | a plain run of digits such as "12" reads as that whole number |
| ViewsForms.ParseIntBr | viabilidade/views.py:403-410 | int() of the float, truncated toward zero, or None |
| ViewsForms.ParseFloatBrBrazilian | viabilidade/views.py:379-401 | "1.234,5"-style input reads as its decimal value |
| ViewsForms.ServerAndBrowserAgree | viabilidade/views.py:379-401 | on Brazilian-formatted input, parse_float_br and parseNumBR agree |
| ViewsForms.DotWithoutComma | viabilidade/views.py:388-392 | with a dot and no comma, the server drops the dot while the browser keeps it as the decimal point |
| ViewsForms.OneDotFive | viabilidade/views.py:388-401 | "1.5" is 15 on the server and 1.5 in the browser |
| ViewsForms.NewNome | viabilidade/views.py:413-414 | the name is replaced only by a non-blank stripped one |
| ViewsForms.NewNumUnidades | viabilidade/views.py:424-426 | the unit count is replaced only by a positive parse |
| ViewsForms.Overwrite | viabilidade/views.py:416-422 | a field is replaced only by a successful parse |
| ViewsForms.SetParsed | viabilidade/views.py:428-441 | a cost key is assigned only for a successful parse |
| ViewsForms.SetParsedLookup | viabilidade/views.py:428-441 | that key reads the parse and every other key its old value |
| ViewsForms.NewConfigLookups | viabilidade/views.py:428-441 | the three cost keys read their parses or old values; other keys are unchanged |
| ViewsForms.SalvarEmpreendimentoDados | viabilidade/views.py:358-443 | name, areas, unit count and costs are each replaced per the rules above; a positive unit count stays positive |
| ViewsForms.SalvarIdentificacao | viabilidade/views.py:413-414 | the name obeys NewNome |
| ViewsForms.SalvarAreas | viabilidade/views.py:416-422 | the areas change only on successful parses |
| ViewsForms.SalvarUnidadesCustos | viabilidade/views.py:424-441 | the unit count and the three cost keys follow NewNumUnidades and NewConfig |
| ViewsForms.NewRep | viabilidade/views.py:211-217 | rep becomes max(1, int(float(raw))) when parsable, else is kept |
| ViewsForms.NewArea | viabilidade/views.py:219-224 | area changes only to a parsable non-negative value |
| ViewsForms.NewCoef | viabilidade/views.py:226-231 | coef changes only to a parsable positive value |
| ViewsForms.UpdatedRowStaysValid | viabilidade/views.py:199-231 | a valid floor stays valid; constr = not excluir |
| ViewsForms.UnparsableKeepsNumbers | viabilidade/views.py:211-231 | unparsable input keeps rep, area and coef |
| ViewsForms.UpdateFloor | viabilidade/views.py:199-231 | one floor's fields become the updated row |
| ViewsForms.UpdateFloors | viabilidade/views.py:197-233 | every floor gets its own update |
| ViewsForms.SalvarCustosDiretos | viabilidade/views.py:173-234 | the save updates each floor from its form fields |
| ViewsShares.RowCost | viabilidade/views.py:168 | a row costs base × percentual / 100 |
| ViewsShares.RowsBy | viabilidade/views.py:156-169 | the rows follow the entries, or the first exception |
| ViewsShares.BuildRows | viabilidade/views.py:158-169 | the loop gives the specified rows |
| ViewsShares.RowsByOkIff | viabilidade/views.py:158-169 | the loop succeeds exactly when every percentage does |
| ViewsShares.RowsByNumbers | viabilidade/views.py:158-169 | with numeric percentages the rows show them in order |
| ViewsShares.DefaultRows | viabilidade/views.py:125-169 | default shares show every default in order |
| ViewsShares.NeedsRepair | viabilidade/views.py:127-133 | a list, or a dict with a value not a dict with 'percentual', needs repair |
| ViewsShares.PrecisaCorrigir | viabilidade/views.py:125-133 | the loop's flag is that condition |
| ViewsShares.RepairProperties | viabilidade/views.py:125-138 | a repaired set is well shaped and repairing again changes nothing |
| ViewsShares.EtapaPercent | viabilidade/views.py:159-165 | a bare value reads as its float(), or 0 when float() refuses |
| ViewsShares.EtapaPercentOfManual | viabilidade/views.py:160-162 | a Manual share reads its number |
| ViewsShares.StagePageOf | viabilidade/views.py:111-171 | a value that is neither list nor dict raises AttributeError; otherwise the shown set is well shaped, the direct cost is calcular_custos_diretos' at the configured unit cost, one row per stage, and the costs add to the direct cost × summed percentages |
| ViewsShares.CustosDiretos | viabilidade/views.py:111-171 | the page writes the repair back and shows the specified stage table |
| ViewsShares.RepairedStagesCoverDirectCost | viabilidade/views.py:134-169 | after a repair the stage costs add up to the direct cost |
| ViewsShares.WellShapedStagesShown | viabilidade/views.py:156-169 | a well-shaped set is shown as it is |
| ViewsShares.Unpack2 | viabilidade/views.py:264-268 | the `(item, dados)` unpacking of one list item succeeds exactly for a value of length two (a list, a string or a dict), a two-item list giving its items |
| ViewsShares.UnpackAll | viabilidade/views.py:264-268 | the list unpacks exactly when every item does, into its pairs in order |
| ViewsShares.SharePairs | viabilidade/views.py:264-268 | each pair keeps a string key, else its index, and wraps a non-dict value |
| ViewsShares.ListToShares | viabilidade/views.py:263-272 | the comprehension fails exactly when some item does not unpack into two |
| ViewsShares.NormalizeIndirect | viabilidade/views.py:262-279 | the result is a dict: a dict is kept, any other non-list becomes the defaults, a list becomes the dict of its pairs, or the defaults when an item does not unpack |
| ViewsShares.PairListToShares | viabilidade/views.py:264-268 | a list of (string, number) pairs becomes a dict holding each of its keys, each value a dict share |
| ViewsShares.PrepassShare | viabilidade/views.py:284-291 | after the pre-pass every share is a dict |
| ViewsShares.IndirectPercentReads | viabilidade/views.py:284-293 | which value float() reads for each shape of share |
| ViewsShares.IndirectPercentOfManual | viabilidade/views.py:292-293 | a Manual share reads its number |
| ViewsShares.IndirectPageTotals | viabilidade/views.py:282-303 | one row per share; the indirect cost is the summed percentage of the VGV, and the page's percentage is that sum when vgv > 0, else 0 |
| ViewsShares.PercentBack | viabilidade/views.py:300-301 | cost / vgv × 100 gives the summed percentage back |
| ViewsShares.CustosIndiretos | viabilidade/views.py:252-311 | the rewritten shares are stored back and the specified page is shown |
| ViewsShares.BuildIndirectTable | viabilidade/views.py:282-303 | the loop and totals give the specified page |
| ViewsShares.Accumulate | viabilidade/views.py:299 | a running total step that stops at the first exception |
| ViewsShares.RowsMatchPercentSum | viabilidade/views.py:282-299 | on dict shares the page's rows sum as calcular_custos_indiretos_porcentuais does |
| ViewsShares.PageAgreesWithService | viabilidade/views.py:282-299 | the page's indirect cost equals the service's on the same VGV |
| ViewsShares.FallbackShares | viabilidade/views.py:270-279 | the fallback shows every default item at 16.73% of the VGV |
| ViewsShares.FirstPiece | viabilidade/views.py:455 | the text up to the first separator |
| ViewsShares.FirstPieceSplits | viabilidade/views.py:455 | the piece holds no separator and ends at one unless it is the whole text |
| ViewsShares.ItemNameOfField | viabilidade/views.py:453-455 | a field's name gives back its item |
| ViewsShares.SaveField | viabilidade/views.py:452-462 | a parsable prefixed field stores a Manual share; others are skipped |
| ViewsShares.Rebuilt | viabilidade/views.py:452-462 | the rebuilt set has unique keys |
| ViewsShares.RebuiltKeys | viabilidade/views.py:452-462 | a share is present exactly when some field yields it |
| ViewsShares.RebuiltValues | viabilidade/views.py:457-459 | each stored share is a Manual share of a number |
| ViewsShares.RebuiltValue | viabilidade/views.py:452-462 | the last field yielding a key decides its value |
| ViewsShares.SalvarCustosIndiretos | viabilidade/views.py:445-465 | the shares are replaced by those the form yields |
| ViewsShares.RebuildShares | viabilidade/views.py:451-462 | the loop gives the rebuilt set |
| ViewsShares.AdminCosts | viabilidade/views.py:495-502 | one item per default key, in order |
| ViewsShares.AdminCostsKeys | viabilidade/views.py:495-502 | exactly the default keys are kept; others are dropped |
| ViewsShares.EmptyFormKeepsCosts | viabilidade/views.py:495-502 | an empty form keeps default-keyed costs |
| ViewsShares.SalvarAdministracaoObra | viabilidade/views.py:486-504 | an unparsable duration raises ValueError before any change; otherwise duration and items are replaced |
| ViewsShares.RebuildAdminCosts | viabilidade/views.py:495-502 | the loop gives the specified items |
| ViewsShares.PageDirectCost | viabilidade/views.py:512-516 | the direct cost the page reads, 0 without floors |
| ViewsShares.ResultadosShares | viabilidade/views.py:517-540 | the page's shares exist exactly when both indirect computations succeed, and are then the four shares over the financials' total of the direct cost, the recomputed sale cost, the site cost and the land cost |
| ViewsShares.ListSharesDivisor | viabilidade/views.py:520-540 | for a list, the fallback's sale cost is divided by a total that leaves it out |
| ViewsShares.FallbackOverflow | viabilidade/views.py:520-540 | so a positive sale cost makes the four shares exceed 100% |
| ViewsShares.ResultadosSharesOverflow | viabilidade/views.py:520-540 | with the default fallback and a positive VGV, the shares exceed 100% by 16.73% of the VGV over the total |
| ViewsShares.SharesExcess | viabilidade/views.py:534-538 | shares over a total missing one part exceed 100 by that part's share |
| ViewsShares.ResultadosComposition | viabilidade/views.py:527-540 | the intended composition: raises with the financials, 0s for a non-positive total, else shares adding to 100 |
| ViewsShares.CompositionAgreesWhenPriced | viabilidade/views.py:517-540 | with a configured price and non-list shares, the page shows the intended composition |
| PyRuntime.FloatOfLiteral | viabilidade/views.py:396-399 | float() of a decimal literal is its value |
| PyRuntime.PyFloat | viabilidade/services.py:175 | float() of a JSON value: numbers pass, strings parse or raise ValueError, others raise TypeError |
| PyRuntime.Set | prognoz/utils.py:95 | assignment replaces a present key in place or appends a new one |
| PyRuntime.SetReplaces | prognoz/utils.py:95 | a present key keeps its position |
| PyRuntime.SetAppends | prognoz/utils.py:95 | a new key is appended |
| PyRuntime.RemoveAt | viabilidade/views.py:390-391 | removing a character moves each kept one left by the removed ones before it |
| PyRuntime.RemoveKeepsOrder | viabilidade/views.py:390-391 | removing a character keeps every other one, in order |
| PyRuntime.RemoveLength | viabilidade/views.py:390-391 | the length drops by the number of removed characters |
| PyRuntime.Strip | viabilidade/views.py:384 | strip() removes leading and trailing whitespace |
| Numerals.Trunc | viabilidade/views.py:408 | int() of a float truncates toward zero |
| JsRuntime.Trim | viabilidade/static/viabilidade/pavimentos.js:6 | trim() removes leading and trailing JS whitespace |

## Left out

- Number rendering is not modelled, because it is floating-point formatting. This covers `f"{v:,.2f}"`, `:.1f`, `toLocaleString` and `formatBR`. `FmtBr.FmtBr` takes the `,.2f` rendering as a parameter.
- The `fmt_br` helpers of viabilidade/services.py:10-17 and prognoz/utils.py:14-19 are not modelled separately. They are the same swap, plus "0,00" for None or NaN, and they are used only in text output.
- `float()` and `parseFloat` do not model `inf`, `nan`, `Infinity` or digit underscores. Such input reads as unparsable.
- Django plumbing is left out because it is I/O: `render`, `redirect`, `get_object_or_404`, `projeto.save()`, the context dicts, `json.dumps` of `tipos_pavimento`, URL routing and migrations.
- `salvar_etapas`, `pagina_inicial` and `adicionar_pavimento` are left out. They are a save, a listing and a create with no arithmetic.
- `gerar_analise_ia`, `generate_pdf_view` and `download_analise_ia` are left out: a network client and file rendering.
- The Streamlit UI and session machinery are left out, because they are UI. The session dict is the state of `Redistribution.Redistributor`, and `st.rerun` is the end of `Handle`.
- `render_sidebar`, `render_metric_card` and `save_to_historico` are left out, because they are UI and file history.
- JSON file reading and writing is left out, with `list_projects`. The store functions take and return the list. The creation time `now` is a parameter.
- Project ids are modelled as `int`. A record whose `id` is not a number is outside the model.
- The DOM reads and writes of pavimentos.js are left out: `updateAreaEq`, `updateAreaConstr` and the event wiring. The page rows are given to `RecalcTotais` as values.
- `calcular_custos_diretos` is modelled on a sequence of rows. The pandas DataFrame mechanics are not modelled.
- The text of `gerar_analise_local` is not modelled. Its figures and decisions are.
- `clean_number_str`'s branch for an `int`/`float` argument is not modelled. The form only posts strings or None.
- A POST holds one value per key in the model.
- `ViewsForms.SalvarCustosDiretos` takes the fields of floor k as `posts[k]`. It does not model the search of the POST for each floor's fields by id.
- `float()` of a str is the function parameter `toFloat` in the form loops, and the pages pass `PyRuntime.FloatOfStr`. This keeps the proofs small and changes nothing.
- The direct cost of the resultados page is a parameter of `ViewsShares.ResultadosShares`. `ViewsShares.PageDirectCost` states how the page computes it.
- The fallback default shares of the resultados page are also a parameter of `ViewsShares.ResultadosShares`. The lemmas fix it to the defaults.
- `ViewsShares.UnpackAll` does not model Python's error raised while building a dict comprehension half-way. As in the source, any failure falls back to the defaults.
- `Services.CalcularAreasPavimentos` requires the `tipo` key on every floor. Its docstring demands it; other missing keys have defaults.
- `Services.CalcularAreasPavimentos` models the None case of area and rep (TypeError) but not other non-numeric values, such as a string area, which Python multiplies or refuses differently. A floor's inputs are numbers, None or absent in the model.
- `Services.AreaTotal` reads 0 on a floor whose product raises. Only the specification functions can reach such a floor, because the method raises first.
- `Services.GerarAnaliseLocal` reads the prompt values as already-numeric options. The `or 0` fallback for falsy values is modelled, and non-numeric values are outside the model.
- The page rows of `custos_indiretos` hold the float of the percentage rather than its raw value. The raw value is only displayed.

## Findings

| source | as written | input that shows it | evidently intended | confidence | as-written member | corrected member |
|---|---|---|---|---|---|---|
| viabilidade/views.py:520-540 | for a project whose `custos_indiretos_percentuais` is a list, the page recomputes the sale indirect cost from the default shares (16.73% of VGV at price 10000), but divides it by `custo_total_despesas` from `calcular_resultados_financeiros`, which counts that cost as 0 (viabilidade/services.py:169-170) | area_privativa 100, no configured price, custos_indiretos_percentuais `[]`, direct cost 100000, no land or site costs: the total is 100000, the direct share is 100% and the sale share 167.3%, so the shares add up to 267.3% | the four shares are each part of the same total and add up to 100% | not executed | ViewsShares.ResultadosSharesOverflow | ViewsShares.ResultadosComposition |
