# Focos de calor: a verified model

This project models the data-processing core of a wildfire ("focos de calor")
dashboard for Brazil and the state of Maranhão, and proves properties of that
model in Dafny. It covers:

- **The national spatial processor, `ProcessadorEspacialBrasil` (module `ProcessadorEspacial`).**
  - It reads satellite fire-focus CSV text and maps header synonyms to fields, giving defaults to missing numbers.
  - It keeps only records inside the bounding box of Brazil.
  - It attaches to each record a municipality, a biome, a conservation unit and an indigenous land. Each is the first polygon, in collection order, that contains the point.
  - When no biome polygon holds the point, it falls back to a fixed list of coordinate rules.
  - It processes records in batches of 50 000 and keeps running counters.
- **The older Maranhão processor, `SpatialDataProcessor` (module `ProcessadorMaranhao`).**
  - It parses CSV rows inside a rough Maranhão box.
  - It labels each record from fixed tables of municipalities, biomes, conservation units and regions. Lookups are first match, with a nearest-centre fallback for municipalities.
  - It buckets hours into periods of the day, and counts records by field in descending order of count.
- **The browser side:**
  - the chart counters, the top-ten ranking, the fixed tables shown without data, and the three-year moving average (module `Graficos`);
  - record validation, statistics, the summary leaders, and the URL-keyed cache with bounded retry (module `CarregadorDados`);
  - the dashboard's filter state, filtered view, headline statistics and sorted menu options (module `Painel`);
  - marker styles, cluster classes, the marker list and the view bounds (module `Mapa`).

Shared modules:

- `Common`: `Option` and `Result`.
- `Text`: split, join, trim and lower-case, plus the abstract number parsers.
- `Seqs`: filter, distinct and the batch count.
- `Tallies`: counter objects in insertion order, the stable sort by descending count, leaders and rankings.
- `Json`: JSON values and JavaScript truthiness, `||`, `String(v)`, `parseFloat` and `parseInt`.

Abstractions:

- **Text-to-number conversion.** The `Parsers` value supplies `parseFloat` and `parseInt`. The `Js` value adds `String(x)` for numbers.
- **The polygon test.** `turf.booleanPointInPolygon` is a parameter of type `Containment`, which answers inside, outside, or throws.
- **`fetch`.** It is a field of `DataLoader`. It maps a URL and the number of earlier requests to a success or a failure.

## Model

| member | source | states |
|---|---|---|
| ProcessadorEspacial.ValidarCoordenadasInclusive | src/js/process-spatial-data.js:250-258 | the four edges of the Brazil box are accepted, a coordinate that is not a number is rejected, and a point past any edge is rejected |
| ProcessadorEspacial.PrimeiroSinonimo | src/js/process-spatial-data.js:221-222 | the chosen synonym occurs in the header and no earlier synonym does; none is chosen exactly when no synonym occurs |
| ProcessadorEspacial.Campo | src/js/process-spatial-data.js:221-229 | a field is set only from the column of the first synonym present, when that cell exists and is non-empty, and holds the trimmed cell |
| ProcessadorEspacial.CampoPresente | src/js/process-spatial-data.js:221-229 | conversely, when the first synonym present in the header has a non-empty cell, the field is that cell trimmed |
| ProcessadorEspacial.ExtrairDadosFoco | src/js/process-spatial-data.js:217-236 | coordinates and satellite come from their synonym columns; missing confidence, temperature and power default to 50, 300 and 0; no lat column gives no latitude; join fields start unset |
| ProcessadorEspacial.ExtrairDadosFocoCampos | src/js/process-spatial-data.js:217-236 | the date is its synonym's cell; latitude and longitude are `parseFloat` of the raw `lat` and `lng` cells (none when absent or empty); confidence is `parseInt` of its cell, temperature and power `parseFloat` of theirs, or 50, 300 and 0 when the cell is missing or blank; no join field is set |
| ProcessadorEspacial.Cabecalho | src/js/process-spatial-data.js:179 | one header name per comma-separated column, trimmed and lower-cased |
| ProcessadorEspacial.Linha | src/js/process-spatial-data.js:195-206 | a line yields a record only if it is not blank and the record's coordinates pass the Brazil box test |
| ProcessadorEspacial.LinhaRegistro | src/js/process-spatial-data.js:195-206 | a line gives a record exactly when it is not blank and the record extracted from its trimmed, comma-split cells passes the Brazil box test, and then gives that record |
| ProcessadorEspacial.LinhasSound | src/js/process-spatial-data.js:194-214 | never more records than data lines; every record is in the box and comes from a non-blank data line; every accepted line's record is in the output |
| ProcessadorEspacial.ParsearCsv | src/js/process-spatial-data.js:177-215 | the loop from line 1 returns exactly the records of the data lines, in order, with line 0 used only as header |
| ProcessadorEspacial.EstimarBiomaPorCoordenada | src/js/process-spatial-data.js:362-383 | the estimate is always one of the six biome labels or 'Não identificado' |
| ProcessadorEspacial.PrimeiraRegra | src/js/process-spatial-data.js:362-383 | with a rule table, the answer is the label of some rule from that position on, or 'Não identificado' when no rule's box holds the point |
| ProcessadorEspacial.PrimeiraRegraCasa | src/js/process-spatial-data.js:362-383 | when rule `i` holds the point and no earlier rule from `k` on does, the answer is rule `i`'s label |
| ProcessadorEspacial.EstimarBiomaSegueRegras | src/js/process-spatial-data.js:362-383 | the chain of tests equals the first-match reading of the ordered rule table Amazônia, Cerrado, Caatinga, Mata Atlântica, Pantanal, Pampas |
| ProcessadorEspacial.SaoLuisEhMataAtlantica | src/js/process-spatial-data.js:365-374 | (-2.53, -44.28) fails the Cerrado and Caatinga rules and is labelled Mata Atlântica |
| ProcessadorEspacial.PantanalSoNaFaixaSul | src/js/process-spatial-data.js:368-377 | Pantanal is returned iff -22 < lat <= -20 and -60 < lng < -55: the Cerrado rule shadows the rest of its box |
| ProcessadorEspacial.PampasForaDaFaixaLitoral | src/js/process-spatial-data.js:374-380 | Pampas is returned iff lat < -28 and the longitude is outside the Mata Atlântica band |
| ProcessadorEspacial.PrimeiraContendo | src/js/process-spatial-data.js:349-359 | a result is a feature that contains the point with every earlier feature outside; without errors there is none iff no feature contains the point; a throwing test before any match ends the search with none |
| ProcessadorEspacial.PrimeiraContendoIgnoraResto | src/js/process-spatial-data.js:349-352 | features after the first match do not change the answer |
| ProcessadorEspacial.EncontrarFeicaoContenedora | src/js/process-spatial-data.js:347-360 | null for a collection without features or with none; a result is a feature of the collection that contains the point |
| ProcessadorEspacial.ComFallback | src/js/process-spatial-data.js:131-139 | a missing municipality or biome layer becomes an empty collection, a loaded one is kept, and the other layers are unchanged |
| ProcessadorEspacial.Escolher | src/js/process-spatial-data.js:290-292 | the first of two properties that is non-empty, else the default: the result is the default or a non-empty property, and a non-empty first property wins |
| ProcessadorEspacial.Juntar | src/js/process-spatial-data.js:283-289 | "no layer" exactly when the layer is not loaded; for a loaded layer, "no feature" exactly when `encontrarFeicaoContenedora` finds none, a throw exactly when the feature it finds has null properties, and otherwise that feature's properties |
| ProcessadorEspacial.Etapas | src/js/process-spatial-data.js:283-345 | given each join's outcome: readings are unchanged; it finishes iff no join throws; `focosComMunicipio` iff a municipality matched, `focosSemMunicipio` iff none did, `focosComBioma` iff a biome matched after a municipality join that did not throw; a matched municipality writes NM_MUNICIP/nome, SIGLA_UF/uf and CD_GEOCMU/codigo with their defaults, no match writes 'Não identificado' and 'N/A'; the biome is NM_BIOMA/nome or else the estimate; UC and TI labels are written from a match reached without an earlier throw; every other field keeps its value |
| ProcessadorEspacial.EtapasIdempotente | src/js/process-spatial-data.js:283-345 | running the stages again on their own output, with the same join outcomes, gives the same record and flags |
| ProcessadorEspacial.EnriquecerFoco | src/js/process-spatial-data.js:279-345 | readings are never changed; it finishes iff both coordinates are present and no layer's containing feature has null properties; the first municipality containing the point gives its labels and `focosComMunicipio`, none gives `focosSemMunicipio` with 'Não identificado' and 'N/A'; unless the municipality join threw, the first containing biome gives its label and `focosComBioma`, and no layer or no biome gives the estimate; UC and TI labels come from their first containing feature when no earlier join threw; layers not loaded leave their fields alone |
| ProcessadorEspacial.EnriquecerContaMunicipio | src/js/process-spatial-data.js:283-298 | with the municipality layer loaded a finished enrichment increments exactly one of the two municipality counters; without it neither; never both |
| ProcessadorEspacial.EnriquecerBioma | src/js/process-spatial-data.js:302-316 | `focosComBioma` grows only when a biome polygon contains the point; otherwise a finished record carries the coordinate estimate |
| ProcessadorEspacial.EnriquecerIdempotente | src/js/process-spatial-data.js:279-345 | enriching an enriched record again gives the same record and the same counter increments |
| ProcessadorEspacial.EnriquecerSemCamadas | src/js/process-spatial-data.js:283-316 | with only the fallback layers every located record finishes without municipality and with the estimated biome |
| ProcessadorEspacial.RegistrarLimites | src/js/process-spatial-data.js:260-277 | a batch grows `joinsRealizados` by at most its size, the municipality counters together by at most its size, and with the layer loaded every finished record is counted in one of them |
| ProcessadorEspacial.EstatisticaSoma | src/js/process-spatial-data.js:417-436 | each of the four counter objects sums to `totalFocos` |
| ProcessadorEspacial.ProcessadorEspacialBrasil.constructor | src/js/process-spatial-data.js:6-38 | no layer loaded and every counter zero |
| ProcessadorEspacial.ProcessadorEspacialBrasil.CarregarReferencias | src/js/process-spatial-data.js:105-139 | the layers become the ones read with the null-to-empty fallback; counters unchanged |
| ProcessadorEspacial.ProcessadorEspacialBrasil.Enriquecer | src/js/process-spatial-data.js:279-345 | the record is enriched as `EnriquecerFoco` says and exactly the matching municipality and biome counters are incremented |
| ProcessadorEspacial.ProcessadorEspacialBrasil.ContarJuncoesDe | src/js/process-spatial-data.js:293-310 | each of `focosComMunicipio`, `focosSemMunicipio` and `focosComBioma` grows by one exactly when its flag is set, and nothing else changes |
| ProcessadorEspacial.ProcessadorEspacialBrasil.ProcessarLoteFocos | src/js/process-spatial-data.js:260-277 | one output record per input, in order, and the counters advance by the enrichments, `joinsRealizados` by those that did not throw |
| ProcessadorEspacial.LoteSeguinte | src/js/process-spatial-data.js:64-70 | processing the next slice after a prefix gives the records and counters of processing the longer prefix |
| ProcessadorEspacial.ProcessadorEspacialBrasil.ProcessarEmLotes | src/js/process-spatial-data.js:64-70 | the loop runs ceil(n / 50000) times and the concatenated batch results are the per-record results of the whole list, in order |
| ProcessadorEspacial.ProcessadorEspacialBrasil.CalcularEstatisticas | src/js/process-spatial-data.js:417-436 | `totalFocos` is the list length and the four counters are the tallies of the records' fields (a missing one under "undefined") |
| ProcessadorEspacial.ProcessadorEspacialBrasil.Executar | src/js/process-spatial-data.js:40-76 | layers with fallback; output = every file's records enriched, file after file; counters advanced by all enrichments, then the final statistics |
| ProcessadorMaranhao.AtribuirSpec | scripts/process-spatial-data.js:97-101 | the record's keys are `source_file` and the headers; for a header the last column of that name wins, with '' for a missing value |
| ProcessadorMaranhao.Coordenada | scripts/process-spatial-data.js:104-105 | the first candidate field that is present and non-empty is parsed; with none the coordinate is 0 |
| ProcessadorMaranhao.LinhaCSV | scripts/process-spatial-data.js:90-118 | a row yields a record only with at least two values and -10 <= lat < 0, -50 <= lon <= -40; the numeric keys are held as numbers |
| ProcessadorMaranhao.LinhaCSVRegistro | scripts/process-spatial-data.js:90-118 | a row gives a record exactly when it is not blank, has at least two values and its `lat`/`latitude` and `lon`/`longitude`/`M` coordinates pass the Maranhão test; the record holds the row's object without the numeric keys, and those two coordinates |
| ProcessadorMaranhao.RegistrosCSVNaCaixa | scripts/process-spatial-data.js:82-128 | every record lies in the Maranhão box and a text with a single line gives no record |
| ProcessadorMaranhao.ParseCSV | scripts/process-spatial-data.js:82-128 | [] for fewer than two lines; otherwise the records of the data lines, in order |
| ProcessadorMaranhao.PrimeiraArea | scripts/process-spatial-data.js:213-219 | the first box, in table order, that holds the point; none iff no box does |
| ProcessadorMaranhao.MaisProximo | scripts/process-spatial-data.js:222-233 | a centre at minimal squared distance, and no earlier centre as close (first on ties, as the strict `<` gives) |
| ProcessadorMaranhao.MunicipioDe | scripts/process-spatial-data.js:212-236 | 'Outros Municípios' for an empty table; otherwise always a name from the table |
| ProcessadorMaranhao.FindMunicipio | scripts/process-spatial-data.js:212-236 | the two loops compute the first containing box, else the nearest centre |
| ProcessadorMaranhao.MunicipioDaCaixa | scripts/process-spatial-data.js:213-219 | a point in the first containing box gets that municipality |
| ProcessadorMaranhao.MunicipioMaisProximo | scripts/process-spatial-data.js:221-235 | outside every box the municipality is one whose centre is nearest |
| ProcessadorMaranhao.NomeDaArea | scripts/process-spatial-data.js:238-247 | the name of the first area whose box holds the point, else the default; `findBioma` is this with 'Cerrado', and `findRegiao` (lines 261-270) the same with 'Centro' |
| ProcessadorMaranhao.FindUC | scripts/process-spatial-data.js:249-259 | when some unit holds the point within its radius, the name of the first such unit; '' when none does |
| ProcessadorMaranhao.RegiaoSempreCentro | scripts/process-spatial-data.js:177-185 | with the region table as written every point is in 'Centro' |
| ProcessadorMaranhao.RegioesCorrigidasAlcancaveis | scripts/process-spatial-data.js:177-185 | with the latitude bounds exchanged each of the five regions is returned for some point |
| ProcessadorMaranhao.Juntar | scripts/process-spatial-data.js:190-205 | every original field and the coordinates are kept, and exactly `municipio`, `bioma`, `uc` and `regiao` are added with the four lookups |
| ProcessadorMaranhao.PerformSpatialJoins | scripts/process-spatial-data.js:187-210 | one joined record per record, in order |
| ProcessadorMaranhao.JoinsSempreCentro | scripts/process-spatial-data.js:203 | with the tables as written every joined record's region is 'Centro' |
| ProcessadorMaranhao.PeriodoDaHora | scripts/process-spatial-data.js:314-318 | a parsed hour always gets one of Manhã, Tarde, Noite, Madrugada |
| ProcessadorMaranhao.CategorizePeriodo | scripts/process-spatial-data.js:310-322 | the result is a period label, and 'Desconhecido' exactly for a missing or empty text |
| ProcessadorMaranhao.PeriodoSegueTabela | scripts/process-spatial-data.js:315-318 | hours 0-5 Madrugada, 6-11 Manhã, 12-17 Tarde, 18-23 Noite, and any other hour Madrugada |
| ProcessadorMaranhao.Rotulos | scripts/process-spatial-data.js:396 | one label per item: its field, or 'Não definido' when missing or empty |
| ProcessadorMaranhao.GroupBy | scripts/process-spatial-data.js:393-404 | the counter of the labels, sorted by descending count |
| ProcessadorMaranhao.GroupBySpec | scripts/process-spatial-data.js:393-404 | counts sum to the number of items; each count is the label's occurrences; counts never increase; the sort is a permutation; equal counts keep first-met order; keys are the distinct labels |
| ProcessadorMaranhao.ProcessAllData | scripts/process-spatial-data.js:13-29 | fails with 'Nenhum foco encontrado para processar' iff no `.csv` file yields a record; otherwise the joined records of all files, in order |
| Tallies.CountLabels | scripts/process-spatial-data.js:394-398 | the counting `forEach` builds the insertion-ordered tally of the labels |
| Tallies.TallyTotal | scripts/process-spatial-data.js:394-398 | a tally's counts add up to the number of labels |
| Tallies.TallyCount | scripts/process-spatial-data.js:394-398 | each key's count is the number of occurrences of its label |
| Tallies.TallyKeys | scripts/process-spatial-data.js:394-398 | the keys are the distinct labels in order of first occurrence, each with a positive count |
| Tallies.SortDescSorted | scripts/process-spatial-data.js:401-402 | the sort by descending count is non-increasing and a permutation of the entries |
| Tallies.SortDescStable | scripts/process-spatial-data.js:401-402 | entries with equal counts keep their insertion order |
| Tallies.SortDescTotal | scripts/process-spatial-data.js:401-403 | sorting keeps the total |
| Tallies.LeaderIsFirstMaximum | src/js/dataLoader.js:320-321 | 'N/A' for no entries; otherwise the first key with the largest count, or 'N/A' if that key is empty |
| Tallies.TopIsRanking | src/js/chartHandler.js:441-443 | the first n of the sort are non-increasing, drawn from the counter, exactly n when there are that many, and no left-out entry outranks a kept one |
| Json.Rotulo | src/js/chartHandler.js:516 | a missing or falsy field gives the default label and a non-empty text field gives itself |
| Graficos.ContarPor | src/js/chartHandler.js:513-538 | the `forEach` builds the tally of each record's field, with 'Não identificado' for a falsy one |
| Graficos.ContarPorSpec | src/js/chartHandler.js:513-538 | counts sum to the number of records, each count is the label's occurrences, falsy fields count as 'Não identificado', keys are the distinct labels |
| Graficos.SerieDe | src/js/chartHandler.js:445-448 | labels and values have the counter's length and pair up index by index |
| Graficos.ProcessarRankingMunicipios | src/js/chartHandler.js:424-449 | the series of the ten largest entries of the records' counter, or of the fixed table without records |
| Graficos.RankingValido | src/js/chartHandler.js:441-448 | at most ten entries, equal-length labels and values, non-increasing values, each pair an entry of the counter, none left out outranks one kept |
| Graficos.RankingPadraoOrdenado | src/js/chartHandler.js:428-439 | the fixed municipality table is already in non-increasing order |
| Graficos.RankingSemDados | src/js/chartHandler.js:426-448 | without data the ranking is the fixed table, Balsas 375 to Viana 15 |
| Graficos.ProcessarDistribuicaoBiomas | src/js/chartHandler.js:451-464 | the counter's keys and values; without data Cerrado 764, Caatinga 16, Amazônia 8 |
| Graficos.ProcessarDadosSatelites | src/js/chartHandler.js:466-481 | the counter's keys and values; without data the five fixed satellites |
| Graficos.DistribuicaoConta | src/js/chartHandler.js:460-463 | with records, each label once in first-appearance order with the number of records carrying it |
| Graficos.MediaMovel | src/js/chartHandler.js:504-507 | same length as the totals, null exactly at indices 0 and 1, and elsewhere the floor of the mean of the three years ending there |
| Graficos.MediaMovelEntreExtremos | src/js/chartHandler.js:504-507 | each average lies between the least and greatest of its three years, and is non-negative for counts |
| CarregadorDados.ValidarDados | src/js/dataLoader.js:250-268 | fails with 'Dados devem ser um array' iff the input is not an array; otherwise exactly the records whose latitude and longitude are present and parse |
| CarregadorDados.ValidarDadosPreservaOrdem | src/js/dataLoader.js:256-267 | the valid records keep their order, and an all-valid list is returned unchanged |
| CarregadorDados.CalcularEstatisticas | src/js/dataLoader.js:273-314 | the loop's three counters are the tallies of the records' labels ('Não identificado' for falsy) and the total is the length |
| CarregadorDados.EstatisticasSomam | src/js/dataLoader.js:273-303 | total 0 and empty counters for no records; otherwise each counter sums to the total |
| CarregadorDados.ObterResumo | src/js/dataLoader.js:316-338 | the total and the leader of each of the three counters |
| CarregadorDados.ResumoLideres | src/js/dataLoader.js:319-329 | each leader is 'N/A' without records, else the first label with maximal count |
| CarregadorDados.DataLoader.constructor | src/js/dataLoader.js:3-8 | base URL './src/data/processed/', three attempts, empty cache |
| CarregadorDados.DataLoader.Tentativas | src/js/dataLoader.js:64-91 | the attempts from a given one make at least one request and at most one per remaining attempt |
| CarregadorDados.DataLoader.CarregarArquivo | src/js/dataLoader.js:55-92 | a cached URL is answered from the cache with no request; otherwise the requests made are the attempts', and only a success is cached |
| CarregadorDados.DataLoader.LimparCache | src/js/dataLoader.js:235-238 | the cache is empty afterwards |
| CarregadorDados.FalhaPersistente | src/js/dataLoader.js:83-90 | a URL whose every request fails is requested `retryCount` times from attempt 1 and the load fails |
| Painel.FiltrarCampoComoFiltro | src/js/app.js:153-163 | one filter step keeps exactly the records equal on that field, or all of them for 'todos' |
| Painel.FiltradosUmaPassagem | src/js/app.js:150-165 | the three filters in a row equal one pass with their conjunction |
| Painel.FiltradosSpec | src/js/app.js:147-165 | the view is an order-preserving subsequence, holds exactly the matching records, is all records when every filter is 'todos', and ignores the period filter |
| Painel.DestaquesSpec | src/js/app.js:271-297 | total 0 and 'N/A' leaders for no records; otherwise the total is the length and each leader is the first key with maximal count |
| Painel.InserirOrdenado | src/js/app.js:200 | inserting adds exactly the one element |
| Painel.Ordenar | src/js/app.js:200 | the sort is a permutation |
| Painel.OrdenarOrdena | src/js/app.js:200 | the sort leaves the values in text order |
| Painel.OpcoesOrdenadas | src/js/app.js:196-239 | each menu is in text order and lists no value twice |
| Painel.OpcoesSoValores | src/js/app.js:196-239 | every option of a menu is a truthy value that some record holds in that field |
| Painel.OpcoesTodosValores | src/js/app.js:196-239 | every truthy value of the field in some record is an option of the menu |
| Painel.DashboardFocosCalor.constructor | src/js/app.js:3-11 | no records and every filter 'todos' |
| Painel.DashboardFocosCalor.CarregarDados | src/js/app.js:65-77 | the records and the view both become the loaded list |
| Painel.DashboardFocosCalor.AplicarFiltros | src/js/app.js:147-171 | the view becomes the filtered records; records and filters unchanged |
| Painel.DashboardFocosCalor.DefinirFiltro | src/js/app.js:130-137 | the menu's filter is set and the view is refiltered |
| Painel.DashboardFocosCalor.ResetarFiltros | src/js/app.js:241-256 | all four filters are 'todos' and the view shows every record |
| Painel.DashboardFocosCalor.CalcularEstatisticas | src/js/app.js:271-297 | the loop over raw field values computes the headline statistics `DestaquesDe` |
| Mapa.EstiloPorConfianca | src/js/mapHandler.js:159-168 | alta iff confidence >= 80, media iff 50 <= confidence < 80, baixa iff below 50 or not a number |
| Mapa.ConfiancaAusenteEhMedia | src/js/mapHandler.js:159-168 | a record with no truthy confidence field gets confidence 50 and the media tier |
| Mapa.EstiloMonotono | src/js/mapHandler.js:20-25 | more confidence never gives a lower tier or a smaller radius |
| Mapa.ClasseCluster | src/js/mapHandler.js:233-237 | 'cluster-large' iff count > 100, 'cluster-medium' iff 10 < count <= 100, else 'cluster-small' |
| Mapa.MarkerDe | src/js/mapHandler.js:147-191 | no marker exactly when the latitude (`latitude` or `lat`) or the longitude (`longitude`, `lng` or `lon`) does not parse; otherwise the marker sits at the two parsed values in the tier of the record's confidence |
| Mapa.MarkersSpec | src/js/mapHandler.js:127-133 | one marker per record whose coordinates parse, each marker from such a record |
| Mapa.MapHandler.constructor | src/js/mapHandler.js:3-8 | no markers |
| Mapa.MapHandler.LimparFocos | src/js/mapHandler.js:217-222 | the marker list is empty |
| Mapa.MapHandler.AdicionarFocos | src/js/mapHandler.js:116-145 | the marker list becomes the markers of the records, in order |
| Mapa.LimitesContem | src/js/mapHandler.js:319-332 | bounds exist iff some latitude and some longitude parse; they contain every parseable coordinate and each edge is one of them |

## Left out

- File system and network I/O, Google Drive, the scaffolding script, the placeholder root script, the DOM, Leaflet and Chart.js. File contents and loaded layers are parameters; `fetch` is an abstract function of the URL and the number of earlier requests.
- Dates and clocks: `padronizarData`, `categorizeTemporal`, `data_hora`, the monthly `periodos` of `calcularEstatisticas`, timestamps and `tempoProcessamento`.
- Randomness: focus ids, `addCalculatedFields`, `gerarDadosExemplo`, the simulated `totais` of the yearly comparison (the moving average takes them as input) and the other simulated series.
- `carregarDadosPrincipais`, `carregarEstatisticas` and `obterStatusCache`: the model starts from `carregarArquivo` and the dashboard from the loaded list. The `catch` of `carregarDados` that falls back to sample data is random data and is left out with it.
- `parseFloat`, `parseInt` and `String(x)` of a number are abstract. `Math.sqrt` is replaced by comparing squared distances, which order points the same way. Floating-point rounding is not modelled: coordinates are reals.
- `async`/`await`, the retry delay and the `delay` helper: the model is sequential.
- Object key order: counters keep insertion order. JavaScript lists integer-like keys first, which would change the order of `groupBy`'s rebuilt object and of `Object.entries`.
- Text order in `Painel.Ordenar` compares Unicode code points, while `sort` compares UTF-16 code units. They differ only for characters outside the Basic Multilingual Plane.
- Lower-casing of CSV header names maps only the ASCII letters A to Z; every synonym it is matched against is plain ASCII.
- `validarDados` receives `None` for any value that is not an array. `String` of nested arrays treats `null` elements as empty, and objects become "[object Object]".
- HTTP errors, non-ok statuses and bodies that are not JSON are one failure outcome of `fetch`.
- `ProcessadorMaranhao.GroupBy` reads only text fields. The source calls `groupBy` only with text-valued keys (`municipio`, `bioma`, `satelite` and the period fields).
- The `catch` blocks of `parsearCsv`, `parseCSV` and `criarMarkerFoco`: with dates left out, no step of the modelled row or marker conversion throws, so these blocks never change the result. `adicionarFocos` is modelled with its cluster layer present, as `inicializarClusters` always creates one.
- ProcessadorEspacial.Campo: its own contract gives one direction only; the converse (the first synonym present with a non-empty cell sets the field) is the lemma `CampoPresente`, kept apart so that the CSV loop, which unfolds `Campo` seven times per line, stays cheap to verify.
- ProcessadorEspacial.ExtrairDadosFoco: its own contract leaves the parsed numbers to the lemma `ExtrairDadosFocoCampos`, for the same reason.
- ProcessadorEspacial.Linha: which record a valid line gives, and that it gives one, is the lemma `LinhaRegistro`.
- ProcessadorEspacial.PrimeiraRegra: the first-match property is the lemma `PrimeiraRegraCasa`.
- ProcessadorMaranhao.LinhaCSV: the record's fields and coordinates, and the converse, are the lemma `LinhaCSVRegistro`.
- ProcessadorEspacial.Escolher: feature properties are modelled as text values only (`Feature.properties` is a `map<string, string>`). A numeric, boolean or null property, such as a numeric `CD_GEOCMU`, cannot be expressed; in the source such a value is written as it is, and a numeric `0`, `false` or `null` is falsy and falls through to the next key; in the model only the empty text is falsy. `ProcessadorEspacial.Juntar`, `Etapas` and `EnriquecerFoco` inherit this narrowing.
- CarregadorDados.ValidarDados: an array is a sequence of objects, so a `null` or other non-object element cannot be expressed. On such an element the source's `foco.hasOwnProperty` call throws a `TypeError` out of `validarDados`; that error path is not modelled.
- `Math.min(...)`/`Math.max(...)` argument-count limits, `fitBounds` and its padding, and chart creation and destruction (`destruirGraficos`).

Where the model follows the code rather than the prose description of the system:

- At (-2.53, -44.28) the biome estimate is Mata Atlântica, because of the rule order.
- A containment test that throws ends the whole feature search with null, because the `catch` surrounds the loop.
- A record whose enrichment throws part-way, when a matched feature has `"properties": null`, is kept with the fields written before the throw, because `enriquecerFoco` mutates the record in place.

## Findings

| source | as written | input that shows it | evidently intended | confidence | as-written member | corrected member |
|---|---|---|---|---|---|---|
| scripts/process-spatial-data.js:177-185 | every region box has `minLat` greater than `maxLat`, so no box holds any point and `findRegiao` always returns its default 'Centro' | (-2.0, -43.0), inside the intended Norte box, gives 'Centro' | the two latitude bounds of each box exchanged, so that each region is reachable | not executed | ProcessadorMaranhao.RegiaoSempreCentro | ProcessadorMaranhao.RegioesCorrigidasAlcancaveis |

The pipeline `ProcessadorMaranhao.ProcessAllData` takes the tables as a parameter. `DadosMaranhao` holds the tables as written, and `ProcessadorMaranhao.JoinsSempreCentro` shows that every region is then 'Centro'. `DadosCorrigidos` holds the corrected region table `RegioesCorrigidas`.
