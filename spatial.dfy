/** `ProcessadorEspacialBrasil`: the pipeline that reads fire-focus CSV text,
    keeps the records inside the bounding box of Brazil, attaches a
    municipality, a biome, a conservation unit and an indigenous land to each
    record by point-in-polygon search, and keeps running counters.

    The polygon test (`turf.booleanPointInPolygon`) is a parameter of type
    `Containment`; the number parsers are a `Parsers` value. */
module ProcessadorEspacial {
  import opened Common
  import opened Text
  import opened Seqs
  import opened Tallies

  // --------------------------------------------------------------------------
  // Bounding box of Brazil (`boundsBrasil`).

  const North: real := 5.264877
  const South: real := -33.742156
  const East: real := -28.847894
  const West: real := -73.982817

  /** `validarCoordenadas`: both coordinates are numbers and lie in the box,
      edges included. */
  predicate ValidarCoordenadas(lat: Option<real>, lng: Option<real>)
  {
    lat.Some? && lng.Some? && South <= lat.value <= North && West <= lng.value <= East
  }

  /** The four edges of the box are accepted and a coordinate that is not a
      number is rejected. */
  lemma ValidarCoordenadasInclusive(lat: real, lng: real)
    ensures ValidarCoordenadas(Some(South), Some(West)) && ValidarCoordenadas(Some(North), Some(East))
    ensures !ValidarCoordenadas(None, Some(lng)) && !ValidarCoordenadas(Some(lat), None)
    ensures lat > North || lat < South || lng > East || lng < West ==> !ValidarCoordenadas(Some(lat), Some(lng))
  {
  }

  // --------------------------------------------------------------------------
  // Records.

  /** The fields `extrairDadosFoco` writes. The first four are the trimmed
      text found in the CSV (`None` when the column is absent or the cell
      empty); the next five are the converted numbers (`None` is `NaN`). */
  datatype Leitura = Leitura(
    lat: Option<string>, lng: Option<string>, data: Option<string>, satelite: Option<string>,
    latitude: Option<real>, longitude: Option<real>, confianca: Option<int>,
    temperatura: Option<real>, potencia: Option<real>)

  /** The fields the spatial joins of `enriquecerFoco` write; `None` is unset. */
  datatype Juncao = Juncao(
    municipio: Option<string>, estado: Option<string>, codigoMunicipio: Option<string>,
    bioma: Option<string>, unidadeConservacao: Option<string>, categoriaUc: Option<string>,
    terraIndigena: Option<string>, etnia: Option<string>)

  const SemJuncao: Juncao := Juncao(None, None, None, None, None, None, None, None)

  /** A focus record after `extrairDadosFoco` and, possibly, `enriquecerFoco`:
      one object in the source, its two groups of fields here. */
  datatype Foco = Foco(leitura: Leitura, juncao: Juncao)

  /** The two records carry the same readings: everything but the join results. */
  predicate MesmaLeitura(a: Foco, b: Foco)
  {
    a.leitura == b.leitura
  }

  // --------------------------------------------------------------------------
  // CSV parsing (`parsearCsv`, `extrairDadosFoco`).

  /** The header names accepted for each logical field, in order of preference. */
  const NomesLat: seq<string> := ["lat", "latitude", "y"]
  const NomesLng: seq<string> := ["lon", "lng", "longitude", "x"]
  const NomesData: seq<string> := ["data", "date", "data_hora", "datetime"]
  const NomesSatelite: seq<string> := ["satelite", "satellite", "sat"]
  const NomesConfianca: seq<string> := ["confianca", "confidence", "conf"]
  const NomesTemperatura: seq<string> := ["temperatura", "temp", "temperature"]
  const NomesPotencia: seq<string> := ["potencia", "power", "frp"]

  /** `possiveisNomes.find(nome => cabecalho.includes(nome))`, as a position in
      `nomes`. */
  function PrimeiroSinonimo(nomes: seq<string>, cabecalho: seq<string>): (r: Option<nat>)
    ensures r.Some? ==> r.value < |nomes| && nomes[r.value] in cabecalho
    ensures r.Some? ==> forall j :: 0 <= j < r.value ==> nomes[j] !in cabecalho
    ensures r.None? <==> forall j :: 0 <= j < |nomes| ==> nomes[j] !in cabecalho
  {
    if nomes == [] then None
    else if nomes[0] in cabecalho then Some(0)
    else
      match PrimeiroSinonimo(nomes[1..], cabecalho)
      case None => None
      case Some(j) => Some(j + 1)
  }

  /** The trimmed cell of the first synonym's column, when that cell is present
      and not empty before trimming. */
  function Campo(cabecalho: seq<string>, valores: seq<string>, nomes: seq<string>): (r: Option<string>)
    ensures r.Some? ==> exists j :: 0 <= j < |nomes| && nomes[j] in cabecalho
    ensures r.Some? ==>
      var j := PrimeiroSinonimo(nomes, cabecalho).value;
      var idx := IndexOf(cabecalho, nomes[j]);
      idx < |valores| && valores[idx] != "" && r.value == Trim(valores[idx])
  {
    match PrimeiroSinonimo(nomes, cabecalho)
    case None => None
    case Some(j) =>
      var idx := IndexOf(cabecalho, nomes[j]);
      if idx < |valores| && valores[idx] != "" then Some(Trim(valores[idx])) else None
  }

  /** Conversely, the field is set whenever the first synonym present has a
      cell that is not empty. */
  lemma CampoPresente(cabecalho: seq<string>, valores: seq<string>, nomes: seq<string>)
    ensures var j := PrimeiroSinonimo(nomes, cabecalho);
      j.Some? && IndexOf(cabecalho, nomes[j.value]) < |valores| && valores[IndexOf(cabecalho, nomes[j.value])] != "" ==>
        Campo(cabecalho, valores, nomes) == Some(Trim(valores[IndexOf(cabecalho, nomes[j.value])]))
  {
  }

  /** `parseFloat(foco.lat || foco.latitude)`: `foco.latitude` is still unset at
      that point, and `parseFloat(undefined)` is `NaN`. */
  function Coordenada(raw: Option<string>, ps: Parsers): Option<real>
  {
    if raw.Some? && raw.value != "" then ps.parseFloat(raw.value) else None
  }

  /** `extrairDadosFoco` without the random id and the date normalisation.
      A number default such as the `50` of `parseInt(foco.confianca || 50)` is
      returned unchanged by the parser. */
  function ExtrairDadosFoco(cabecalho: seq<string>, valores: seq<string>, ps: Parsers): (f: Foco)
    ensures f.leitura.lat == Campo(cabecalho, valores, NomesLat) && f.leitura.lng == Campo(cabecalho, valores, NomesLng)
    ensures f.leitura.satelite == Campo(cabecalho, valores, NomesSatelite)
    ensures Campo(cabecalho, valores, NomesConfianca) == None ==> f.leitura.confianca == Some(50)
    ensures Campo(cabecalho, valores, NomesTemperatura) == None ==> f.leitura.temperatura == Some(300.0)
    ensures Campo(cabecalho, valores, NomesPotencia) == None ==> f.leitura.potencia == Some(0.0)
    ensures (forall j :: 0 <= j < |NomesLat| ==> NomesLat[j] !in cabecalho) ==> f.leitura.latitude == None
    ensures f.juncao.municipio == None && f.juncao.estado == None && f.juncao.bioma == None
  {
    var lat := Campo(cabecalho, valores, NomesLat);
    var lng := Campo(cabecalho, valores, NomesLng);
    var confianca := Campo(cabecalho, valores, NomesConfianca);
    var temperatura := Campo(cabecalho, valores, NomesTemperatura);
    var potencia := Campo(cabecalho, valores, NomesPotencia);
    Foco(Leitura(lat, lng, Campo(cabecalho, valores, NomesData), Campo(cabecalho, valores, NomesSatelite),
           Coordenada(lat, ps), Coordenada(lng, ps),
           if confianca.Some? && confianca.value != "" then ps.parseInt(confianca.value) else Some(50),
           if temperatura.Some? && temperatura.value != "" then ps.parseFloat(temperatura.value) else Some(300.0),
           if potencia.Some? && potencia.value != "" then ps.parseFloat(potencia.value) else Some(0.0)),
         SemJuncao)
  }

  /** Every field of the extracted record comes from its synonym's cell: the
      coordinates are parsed from the raw `lat`/`lng` text, and a missing or
      blank numeric cell gives the default; no join field is set. */
  lemma ExtrairDadosFocoCampos(cabecalho: seq<string>, valores: seq<string>, ps: Parsers)
    ensures var f := ExtrairDadosFoco(cabecalho, valores, ps);
      && f.leitura.data == Campo(cabecalho, valores, NomesData)
      && f.leitura.latitude == Coordenada(Campo(cabecalho, valores, NomesLat), ps)
      && f.leitura.longitude == Coordenada(Campo(cabecalho, valores, NomesLng), ps)
      && (var c := Campo(cabecalho, valores, NomesConfianca);
          f.leitura.confianca == if c.Some? && c.value != "" then ps.parseInt(c.value) else Some(50))
      && (var t := Campo(cabecalho, valores, NomesTemperatura);
          f.leitura.temperatura == if t.Some? && t.value != "" then ps.parseFloat(t.value) else Some(300.0))
      && (var w := Campo(cabecalho, valores, NomesPotencia);
          f.leitura.potencia == if w.Some? && w.value != "" then ps.parseFloat(w.value) else Some(0.0))
      && f.juncao == SemJuncao
  {
  }

  /** The header line: split on commas, each name trimmed and lower-cased. */
  function Cabecalho(linha: string): (h: seq<string>)
    ensures |h| == |Split(linha, ',')|
    ensures forall k :: 0 <= k < |h| ==> h[k] == Lower(Trim(Split(linha, ',')[k]))
  {
    var colunas := Split(linha, ',');
    seq(|colunas|, k requires 0 <= k < |colunas| => Lower(Trim(colunas[k])))
  }

  /** What one data line contributes: nothing when it is blank or its
      coordinates are rejected. */
  function Linha(cabecalho: seq<string>, linha: string, ps: Parsers): (r: Option<Foco>)
    ensures r.Some? ==> Trim(linha) != "" && ValidarCoordenadas(r.value.leitura.latitude, r.value.leitura.longitude)
    ensures AllSpace(linha) ==> r.None?
  {
    var l := Trim(linha);
    if l == [] then None
    else
      var foco := ExtrairDadosFoco(cabecalho, Split(l, ','), ps);
      if ValidarCoordenadas(foco.leitura.latitude, foco.leitura.longitude) then Some(foco) else None
  }

  /** A data line gives a record exactly when it is not blank and the record
      extracted from its trimmed cells lies in the box; that record is then
      the one it gives. */
  lemma LinhaRegistro(cabecalho: seq<string>, linha: string, ps: Parsers)
    ensures var f := ExtrairDadosFoco(cabecalho, Split(Trim(linha), ','), ps);
      Linha(cabecalho, linha, ps) ==
        if Trim(linha) != "" && ValidarCoordenadas(f.leitura.latitude, f.leitura.longitude) then Some(f) else None
  {
  }

  predicate AllSpace(s: string)
  {
    forall k :: 0 <= k < |s| ==> IsSpace(s[k])
  }

  /** `Linha` for a fixed header and parsers. */
  function LinhaCom(cabecalho: seq<string>, ps: Parsers): string -> Option<Foco>
  {
    linha => Linha(cabecalho, linha, ps)
  }

  /** The records of the data lines, in line order. */
  function Linhas(cabecalho: seq<string>, linhas: seq<string>, ps: Parsers): seq<Foco>
  {
    FilterMap(linhas, LinhaCom(cabecalho, ps))
  }

  /** The records of a whole CSV text: line 0 is the header. */
  function Focos(conteudo: string, ps: Parsers): seq<Foco>
  {
    var linhas := Split(conteudo, '\n');
    Linhas(Cabecalho(linhas[0]), linhas[1..], ps)
  }

  /** Every record lies in the box and comes from a data line that is not
      blank; every accepted line gives a record; there are never more records
      than lines. */
  lemma LinhasSound(cabecalho: seq<string>, linhas: seq<string>, ps: Parsers)
    ensures |Linhas(cabecalho, linhas, ps)| <= |linhas|
    ensures forall k :: 0 <= k < |Linhas(cabecalho, linhas, ps)| ==>
      ValidarCoordenadas(Linhas(cabecalho, linhas, ps)[k].leitura.latitude, Linhas(cabecalho, linhas, ps)[k].leitura.longitude)
    ensures forall k :: 0 <= k < |Linhas(cabecalho, linhas, ps)| ==>
      exists i :: 0 <= i < |linhas| && !AllSpace(linhas[i]) && Linha(cabecalho, linhas[i], ps) == Some(Linhas(cabecalho, linhas, ps)[k])
    ensures forall i :: 0 <= i < |linhas| && Linha(cabecalho, linhas[i], ps).Some? ==>
      Linha(cabecalho, linhas[i], ps).value in Linhas(cabecalho, linhas, ps)
  {
    var r := Linhas(cabecalho, linhas, ps);
    var f := LinhaCom(cabecalho, ps);
    forall k | 0 <= k < |r|
      ensures ValidarCoordenadas(r[k].leitura.latitude, r[k].leitura.longitude)
      ensures exists i :: 0 <= i < |linhas| && !AllSpace(linhas[i]) && Linha(cabecalho, linhas[i], ps) == Some(r[k])
    {
      var i :| 0 <= i < |linhas| && f(linhas[i]) == Some(r[k]);
      assert Linha(cabecalho, linhas[i], ps) == Some(r[k]);
    }
    forall i | 0 <= i < |linhas| && Linha(cabecalho, linhas[i], ps).Some?
      ensures Linha(cabecalho, linhas[i], ps).value in r
    {
      assert f(linhas[i]) == Linha(cabecalho, linhas[i], ps);
    }
  }

  /** `parsearCsv`: the loop over lines 1, 2, ... of the text. */
  method ParsearCsv(conteudo: string, ps: Parsers) returns (focos: seq<Foco>)
    ensures focos == Focos(conteudo, ps)
  {
    var linhas := Split(conteudo, '\n');
    var cabecalho := Cabecalho(linhas[0]);
    ghost var dados := linhas[1..];
    focos := [];
    var i := 1;
    while i < |linhas|
      invariant 1 <= i <= |linhas|
      invariant focos == FilterMap(dados[..i - 1], LinhaCom(cabecalho, ps))
    {
      FilterMapPrefix(dados, i - 1, LinhaCom(cabecalho, ps));
      assert dados[i - 1] == linhas[i];
      // Blank lines and rejected coordinates add nothing.
      var foco := Linha(cabecalho, linhas[i], ps);
      if foco.Some? {
        focos := focos + [foco.value];
      }
      i := i + 1;
    }
    assert dados[..i - 1] == dados;
  }

  // --------------------------------------------------------------------------
  // Biome estimate (`estimarBiomaPorCoordenada`).

  const NaoIdentificado: string := "Não identificado"

  const Rotulos: seq<string> :=
    ["Amazônia", "Cerrado", "Caatinga", "Mata Atlântica", "Pantanal", "Pampas", NaoIdentificado]

  /** The rule chain; all comparisons are strict. */
  function EstimarBiomaPorCoordenada(lat: real, lng: real): (r: string)
    ensures r in Rotulos
  {
    if lat > -5.0 && lng < -55.0 then "Amazônia"
    else if lat > -20.0 && lat < -5.0 && lng > -60.0 && lng < -40.0 then "Cerrado"
    else if lat > -15.0 && lat < -3.0 && lng > -45.0 && lng < -35.0 then "Caatinga"
    else if lng > -50.0 && lng < -35.0 then "Mata Atlântica"
    else if lat > -22.0 && lat < -15.0 && lng > -60.0 && lng < -55.0 then "Pantanal"
    else if lat < -28.0 then "Pampas"
    else NaoIdentificado
  }

  /** An open interval; `None` leaves that side unbounded. */
  datatype Intervalo = Intervalo(lo: Option<real>, hi: Option<real>)

  predicate Dentro(i: Intervalo, x: real)
  {
    (i.lo.None? || i.lo.value < x) && (i.hi.None? || x < i.hi.value)
  }

  datatype Regra = Regra(lat: Intervalo, lng: Intervalo, rotulo: string)

  /** The same rules as a table, in the order they are tried. */
  const RegrasBioma: seq<Regra> := [
    Regra(Intervalo(Some(-5.0), None), Intervalo(None, Some(-55.0)), "Amazônia"),
    Regra(Intervalo(Some(-20.0), Some(-5.0)), Intervalo(Some(-60.0), Some(-40.0)), "Cerrado"),
    Regra(Intervalo(Some(-15.0), Some(-3.0)), Intervalo(Some(-45.0), Some(-35.0)), "Caatinga"),
    Regra(Intervalo(None, None), Intervalo(Some(-50.0), Some(-35.0)), "Mata Atlântica"),
    Regra(Intervalo(Some(-22.0), Some(-15.0)), Intervalo(Some(-60.0), Some(-55.0)), "Pantanal"),
    Regra(Intervalo(None, Some(-28.0)), Intervalo(None, None), "Pampas")]

  predicate Casa(g: Regra, lat: real, lng: real)
  {
    Dentro(g.lat, lat) && Dentro(g.lng, lng)
  }

  /** The label of the first rule from position `k` on whose box holds the point. */
  function PrimeiraRegra(regras: seq<Regra>, lat: real, lng: real, k: nat): (r: string)
    requires k <= |regras|
    ensures r == NaoIdentificado || exists i :: k <= i < |regras| && regras[i].rotulo == r
    ensures (forall i :: k <= i < |regras| ==> !Casa(regras[i], lat, lng)) ==> r == NaoIdentificado
    decreases |regras| - k
  {
    if k == |regras| then NaoIdentificado
    else if Casa(regras[k], lat, lng) then regras[k].rotulo
    else PrimeiraRegra(regras, lat, lng, k + 1)
  }

  /** The label returned is that of the first rule from `k` on that holds. */
  lemma {:induction false} PrimeiraRegraCasa(regras: seq<Regra>, lat: real, lng: real, k: nat, i: nat)
    requires k <= i < |regras| && Casa(regras[i], lat, lng)
    requires forall j :: k <= j < i ==> !Casa(regras[j], lat, lng)
    ensures PrimeiraRegra(regras, lat, lng, k) == regras[i].rotulo
    decreases i - k
  {
    if k < i {
      PrimeiraRegraCasa(regras, lat, lng, k + 1, i);
    }
  }

  /** The chain of `if`s is the first-match reading of the rule table. */
  lemma EstimarBiomaSegueRegras(lat: real, lng: real)
    ensures EstimarBiomaPorCoordenada(lat, lng) == PrimeiraRegra(RegrasBioma, lat, lng, 0)
  {
    var r := RegrasBioma;
    RegrasDesdeCaatinga(lat, lng);
    assert PrimeiraRegra(r, lat, lng, 1) ==
      if -20.0 < lat < -5.0 && -60.0 < lng < -40.0 then "Cerrado" else PrimeiraRegra(r, lat, lng, 2);
  }

  /** The rules from the third on. */
  lemma RegrasDesdeCaatinga(lat: real, lng: real)
    ensures PrimeiraRegra(RegrasBioma, lat, lng, 2) ==
      if -15.0 < lat < -3.0 && -45.0 < lng < -35.0 then "Caatinga"
      else if -50.0 < lng < -35.0 then "Mata Atlântica"
      else if -22.0 < lat < -15.0 && -60.0 < lng < -55.0 then "Pantanal"
      else if lat < -28.0 then "Pampas"
      else NaoIdentificado
  {
    var r := RegrasBioma;
    assert PrimeiraRegra(r, lat, lng, 5) == if lat < -28.0 then "Pampas" else NaoIdentificado;
    assert PrimeiraRegra(r, lat, lng, 4) ==
      if -22.0 < lat < -15.0 && -60.0 < lng < -55.0 then "Pantanal" else PrimeiraRegra(r, lat, lng, 5);
    assert PrimeiraRegra(r, lat, lng, 3) == if -50.0 < lng < -35.0 then "Mata Atlântica" else PrimeiraRegra(r, lat, lng, 4);
    assert PrimeiraRegra(r, lat, lng, 2) ==
      if -15.0 < lat < -3.0 && -45.0 < lng < -35.0 then "Caatinga" else PrimeiraRegra(r, lat, lng, 3);
  }

  /** Rule order matters: São Luís, at (-2.53, -44.28), fails the Cerrado and
      Caatinga rules on latitude and falls to the Mata Atlântica rule. */
  lemma SaoLuisEhMataAtlantica()
    ensures EstimarBiomaPorCoordenada(-2.53, -44.28) == "Mata Atlântica"
  {
  }

  /** The Cerrado rule shadows most of the Pantanal box: Pantanal is returned
      exactly in the strip south of the Cerrado box. */
  lemma PantanalSoNaFaixaSul(lat: real, lng: real)
    ensures EstimarBiomaPorCoordenada(lat, lng) == "Pantanal" <==> -22.0 < lat <= -20.0 && -60.0 < lng < -55.0
  {
  }

  /** Pampas is returned south of -28 except where the Mata Atlântica
      longitude band applies first. */
  lemma PampasForaDaFaixaLitoral(lat: real, lng: real)
    ensures EstimarBiomaPorCoordenada(lat, lng) == "Pampas" <==> lat < -28.0 && !(-50.0 < lng < -35.0)
  {
  }

  // --------------------------------------------------------------------------
  // Feature search (`encontrarFeicaoContenedora`).

  /** `turf.point([lng, lat])`. */
  datatype Point = Point(lng: real, lat: real)

  /** The outcome of `turf.booleanPointInPolygon`: it can also throw. */
  datatype Pip = Inside | Outside | Fails

  /** A GeoJSON feature: its geometry is read only by the containment test;
      `properties` is `None` for `"properties": null`. */
  datatype Feature = Feature(geometry: seq<Point>, properties: Option<map<string, string>>)

  /** A loaded collection: `features` is `None` when the file has no
      `features` array, so that iterating over it throws. */
  datatype Collection = Collection(features: Option<seq<Feature>>)

  type Containment = (Feature, Point) -> Pip

  /** The first feature, in collection order, that contains the point. The
      `catch` surrounds the whole loop, so a test that throws ends the search. */
  function PrimeiraContendo(contains: Containment, fs: seq<Feature>, p: Point): (r: Option<Feature>)
    ensures r.Some? ==> exists i :: 0 <= i < |fs| && fs[i] == r.value && contains(fs[i], p) == Inside
                                   && forall j :: 0 <= j < i ==> contains(fs[j], p) == Outside
    ensures (forall i :: 0 <= i < |fs| ==> contains(fs[i], p) != Fails) ==>
              (r.None? <==> forall i :: 0 <= i < |fs| ==> contains(fs[i], p) != Inside)
    ensures (exists i :: 0 <= i < |fs| && contains(fs[i], p) == Fails && forall j :: 0 <= j < i ==> contains(fs[j], p) == Outside)
              ==> r.None?
  {
    if fs == [] then None
    else
      assert forall i :: 1 <= i < |fs| ==> fs[i] == fs[1..][i - 1];
      match contains(fs[0], p)
      case Inside => Some(fs[0])
      case Fails => None
      case Outside =>
        var r := PrimeiraContendo(contains, fs[1..], p);
        assert r.Some? ==> exists i :: 1 <= i < |fs| && fs[i] == r.value && contains(fs[i], p) == Inside
                                       && forall j :: 0 <= j < i ==> contains(fs[j], p) == Outside;
        r
  }

  /** Features after the first match do not change the answer. */
  lemma {:induction false} PrimeiraContendoIgnoraResto(contains: Containment, fs: seq<Feature>, mais: seq<Feature>, p: Point)
    requires PrimeiraContendo(contains, fs, p).Some?
    ensures PrimeiraContendo(contains, fs + mais, p) == PrimeiraContendo(contains, fs, p)
  {
    if contains(fs[0], p) == Outside {
      assert (fs + mais)[1..] == fs[1..] + mais;
      PrimeiraContendoIgnoraResto(contains, fs[1..], mais, p);
    }
  }

  /** `encontrarFeicaoContenedora`. */
  function EncontrarFeicaoContenedora(contains: Containment, geojson: Collection, p: Point): (r: Option<Feature>)
    ensures geojson.features.None? || geojson.features.value == [] ==> r.None?
    ensures r.Some? ==> geojson.features.Some? && r.value in geojson.features.value && contains(r.value, p) == Inside
  {
    if geojson.features.None? then None else PrimeiraContendo(contains, geojson.features.value, p)
  }

  // --------------------------------------------------------------------------
  // Reference layers and their fallback.

  /** `referenciasSpatiais`: `None` is `null`, a layer that was not loaded. */
  datatype Referencias = Referencias(
    municipios: Option<Collection>, estados: Option<Collection>, biomas: Option<Collection>,
    unidadesConservacao: Option<Collection>, terrasIndigenas: Option<Collection>)

  const NenhumaReferencia: Referencias := Referencias(None, None, None, None, None)

  /** The collection `criarMunicipiosSimplificados` and `criarBiomasSimplificados` return. */
  const ColecaoVazia: Collection := Collection(Some([]))

  /** After loading, a missing municipality or biome layer is replaced by an
      empty collection; the other layers stay as loaded. */
  function ComFallback(lidas: Referencias): (r: Referencias)
    ensures r.municipios.Some? && r.biomas.Some?
    ensures lidas.municipios.Some? ==> r.municipios == lidas.municipios
    ensures lidas.biomas.Some? ==> r.biomas == lidas.biomas
    ensures r.estados == lidas.estados && r.unidadesConservacao == lidas.unidadesConservacao
    ensures r.terrasIndigenas == lidas.terrasIndigenas
  {
    lidas.(municipios := if lidas.municipios.None? then Some(ColecaoVazia) else lidas.municipios,
           biomas := if lidas.biomas.None? then Some(ColecaoVazia) else lidas.biomas)
  }

  // --------------------------------------------------------------------------
  // Enrichment (`enriquecerFoco`). The source mutates the record in place and
  // may throw half-way (a matched feature with `"properties": null`); the
  // fields written before the throw stay written. Each stage returns the
  // record so far and whether it finished.

  /** A property value, `undefined` when absent. */
  function Prop(props: map<string, string>, k: string): Option<string>
  {
    if k in props then Some(props[k]) else None
  }

  /** `props[k1] || props[k2] || padrao`. */
  function Escolher(props: map<string, string>, k1: string, k2: string, padrao: string): (r: string)
    ensures r == padrao || (k1 in props && r == props[k1] != "") || (k2 in props && r == props[k2] != "")
    ensures k1 in props && props[k1] != "" ==> r == props[k1]
  {
    Or(Prop(props, k1), Or(Prop(props, k2), padrao))
  }

  /** What one join finds for a point in one layer: the layer is not loaded,
      no feature contains the point, the containing feature has no
      properties (reading them throws), or the containing feature's
      properties. */
  datatype Junta = SemCamada | SemFeicao | Erro | Feicao(props: map<string, string>)

  function Juntar(contains: Containment, camada: Option<Collection>, p: Point): (j: Junta)
    ensures camada.None? <==> j.SemCamada?
    ensures camada.Some? && camada.value.features == Some([]) ==> j.SemFeicao?
    ensures camada.Some? ==>
      var r := EncontrarFeicaoContenedora(contains, camada.value, p);
      && (j.SemFeicao? <==> r.None?)
      && (j.Erro? <==> r.Some? && r.value.properties.None?)
      && (r.Some? && r.value.properties.Some? ==> j == Feicao(r.value.properties.value))
    ensures j.Erro? <==> Lanca(contains, camada, p)
  {
    if camada.None? then SemCamada
    else
      match EncontrarFeicaoContenedora(contains, camada.value, p)
      case None => SemFeicao
      case Some(feat) => if feat.properties.None? then Erro else Feicao(feat.properties.value)
  }

  /** Reading the properties of the feature that contains `p` in a loaded
      layer throws. */
  predicate Lanca(contains: Containment, camada: Option<Collection>, p: Point)
  {
    camada.Some? &&
    var r := EncontrarFeicaoContenedora(contains, camada.value, p);
    r.Some? && r.value.properties.None?
  }

  /** The labels each join writes from a feature's properties. */
  predicate RotulosMunicipio(g: Foco, props: map<string, string>)
  {
    && g.juncao.municipio == Some(Escolher(props, "NM_MUNICIP", "nome", NaoIdentificado))
    && g.juncao.estado == Some(Escolher(props, "SIGLA_UF", "uf", NotAvailable))
    && g.juncao.codigoMunicipio == Some(Escolher(props, "CD_GEOCMU", "codigo", ""))
  }

  predicate RotuloBioma(g: Foco, props: map<string, string>)
  {
    g.juncao.bioma == Some(Escolher(props, "NM_BIOMA", "nome", NaoIdentificado))
  }

  predicate RotulosUC(g: Foco, props: map<string, string>)
  {
    && g.juncao.unidadeConservacao == Some(Escolher(props, "NOME_UC", "nome", "UC"))
    && g.juncao.categoriaUc == Some(Escolher(props, "CATEGORI3", "categoria", NotAvailable))
  }

  predicate RotulosTI(g: Foco, props: map<string, string>)
  {
    && g.juncao.terraIndigena == Some(Escolher(props, "TERRA_INDI", "nome", "TI"))
    && g.juncao.etnia == Some(Escolher(props, "ETNIA", "etnia", NotAvailable))
  }

  /** The municipality join's writes. */
  function GravarMunicipio(f: Foco, j: Junta): Foco
  {
    match j
    case Feicao(props) =>
      f.(juncao := f.juncao.(
        municipio := Some(Escolher(props, "NM_MUNICIP", "nome", NaoIdentificado)),
        estado := Some(Escolher(props, "SIGLA_UF", "uf", NotAvailable)),
        codigoMunicipio := Some(Escolher(props, "CD_GEOCMU", "codigo", ""))))
    case SemFeicao => f.(juncao := f.juncao.(municipio := Some(NaoIdentificado), estado := Some(NotAvailable)))
    case _ => f
  }

  /** The biome join's write: the feature's name, or the estimate. */
  function GravarBioma(f: Foco, j: Junta, p: Point): Foco
  {
    match j
    case Feicao(props) => f.(juncao := f.juncao.(bioma := Some(Escolher(props, "NM_BIOMA", "nome", NaoIdentificado))))
    case _ => f.(juncao := f.juncao.(bioma := Some(EstimarBiomaPorCoordenada(p.lat, p.lng))))
  }

  function GravarUC(f: Foco, j: Junta): Foco
  {
    match j
    case Feicao(props) =>
      f.(juncao := f.juncao.(
        unidadeConservacao := Some(Escolher(props, "NOME_UC", "nome", "UC")),
        categoriaUc := Some(Escolher(props, "CATEGORI3", "categoria", NotAvailable))))
    case _ => f
  }

  function GravarTI(f: Foco, j: Junta): Foco
  {
    match j
    case Feicao(props) =>
      f.(juncao := f.juncao.(
        terraIndigena := Some(Escolher(props, "TERRA_INDI", "nome", "TI")),
        etnia := Some(Escolher(props, "ETNIA", "etnia", NotAvailable))))
    case _ => f
  }

  /** The record as `enriquecerFoco` leaves it, whether it finished, and which
      of the counters `focosComMunicipio`, `focosSemMunicipio` and
      `focosComBioma` it incremented. */
  datatype Enriquecido = Enriquecido(foco: Foco, concluido: bool, comMunicipio: bool, semMunicipio: bool, comBioma: bool)

  /** The four stages, given what each join finds at `p`: a join that throws
      ends the enrichment with the fields written so far. */
  function Etapas(f: Foco, p: Point, jm: Junta, jb: Junta, ju: Junta, jt: Junta): (o: Enriquecido)
    ensures MesmaLeitura(o.foco, f)
    ensures o.concluido <==> !jm.Erro? && !jb.Erro? && !ju.Erro? && !jt.Erro?
    ensures o.comMunicipio <==> jm.Feicao?
    ensures o.semMunicipio <==> jm.SemFeicao?
    ensures o.comBioma <==> !jm.Erro? && jb.Feicao?
    ensures o.concluido ==> o.foco.juncao.bioma.Some?
    // Municipality.
    ensures jm.Feicao? ==> RotulosMunicipio(o.foco, jm.props)
    ensures o.semMunicipio ==> o.foco.juncao.municipio == Some(NaoIdentificado) && o.foco.juncao.estado == Some(NotAvailable)
    ensures !jm.Feicao? ==> o.foco.juncao.codigoMunicipio == f.juncao.codigoMunicipio
    ensures jm.SemCamada? || jm.Erro? ==>
      o.foco.juncao.municipio == f.juncao.municipio && o.foco.juncao.estado == f.juncao.estado
    // Biome.
    ensures !jm.Erro? && jb.Feicao? ==> RotuloBioma(o.foco, jb.props)
    ensures !jm.Erro? && (jb.SemCamada? || jb.SemFeicao?) ==>
      o.foco.juncao.bioma == Some(EstimarBiomaPorCoordenada(p.lat, p.lng))
    ensures jm.Erro? || jb.Erro? ==> o.foco.juncao.bioma == f.juncao.bioma
    // Conservation unit and indigenous land.
    ensures !jm.Erro? && !jb.Erro? && ju.Feicao? ==> RotulosUC(o.foco, ju.props)
    ensures jm.Erro? || jb.Erro? || !ju.Feicao? ==>
      o.foco.juncao.unidadeConservacao == f.juncao.unidadeConservacao && o.foco.juncao.categoriaUc == f.juncao.categoriaUc
    ensures !jm.Erro? && !jb.Erro? && !ju.Erro? && jt.Feicao? ==> RotulosTI(o.foco, jt.props)
    ensures jm.Erro? || jb.Erro? || ju.Erro? || !jt.Feicao? ==>
      o.foco.juncao.terraIndigena == f.juncao.terraIndigena && o.foco.juncao.etnia == f.juncao.etnia
  {
    if jm.Erro? then Enriquecido(f, false, false, false, false)
    else
      var f1 := GravarMunicipio(f, jm);
      if jb.Erro? then Enriquecido(f1, false, jm.Feicao?, jm.SemFeicao?, false)
      else
        var f2 := GravarBioma(f1, jb, p);
        if ju.Erro? then Enriquecido(f2, false, jm.Feicao?, jm.SemFeicao?, jb.Feicao?)
        else
          var f3 := GravarUC(f2, ju);
          if jt.Erro? then Enriquecido(f3, false, jm.Feicao?, jm.SemFeicao?, jb.Feicao?)
          else Enriquecido(GravarTI(f3, jt), true, jm.Feicao?, jm.SemFeicao?, jb.Feicao?)
  }

  /** The point of a located record. */
  function PontoDe(f: Foco): Point
    requires f.leitura.latitude.Some? && f.leitura.longitude.Some?
  {
    Point(f.leitura.longitude.value, f.leitura.latitude.value)
  }

  function EnriquecerFoco(contains: Containment, refs: Referencias, f: Foco): (o: Enriquecido)
    ensures MesmaLeitura(o.foco, f)
    ensures o.concluido ==> f.leitura.latitude.Some? && f.leitura.longitude.Some? && o.foco.juncao.bioma.Some?
    ensures o.semMunicipio ==> o.foco.juncao.municipio == Some(NaoIdentificado) && o.foco.juncao.estado == Some(NotAvailable)
    ensures refs.unidadesConservacao.None? ==> o.foco.juncao.unidadeConservacao == f.juncao.unidadeConservacao
    ensures refs.terrasIndigenas.None? ==> o.foco.juncao.terraIndigena == f.juncao.terraIndigena
    ensures o.concluido <==>
      && f.leitura.latitude.Some? && f.leitura.longitude.Some?
      && !Lanca(contains, refs.municipios, PontoDe(f)) && !Lanca(contains, refs.biomas, PontoDe(f))
      && !Lanca(contains, refs.unidadesConservacao, PontoDe(f)) && !Lanca(contains, refs.terrasIndigenas, PontoDe(f))
    // The first municipality that contains the point names the record.
    ensures f.leitura.latitude.Some? && f.leitura.longitude.Some? && refs.municipios.Some? ==>
      var r := EncontrarFeicaoContenedora(contains, refs.municipios.value, PontoDe(f));
      && (r.None? ==> o.semMunicipio)
      && (r.Some? && r.value.properties.Some? ==> o.comMunicipio && RotulosMunicipio(o.foco, r.value.properties.value))
    // So does the first biome, unless the municipality join threw.
    ensures f.leitura.latitude.Some? && f.leitura.longitude.Some? && !Lanca(contains, refs.municipios, PontoDe(f)) ==>
      && (refs.biomas.None? || EncontrarFeicaoContenedora(contains, refs.biomas.value, PontoDe(f)).None? ==>
            o.foco.juncao.bioma == Some(EstimarBiomaPorCoordenada(f.leitura.latitude.value, f.leitura.longitude.value)))
      && (refs.biomas.Some? ==>
            var r := EncontrarFeicaoContenedora(contains, refs.biomas.value, PontoDe(f));
            r.Some? && r.value.properties.Some? ==> o.comBioma && RotuloBioma(o.foco, r.value.properties.value))
    ensures f.leitura.latitude.Some? && f.leitura.longitude.Some? && refs.unidadesConservacao.Some?
            && !Lanca(contains, refs.municipios, PontoDe(f)) && !Lanca(contains, refs.biomas, PontoDe(f)) ==>
      var r := EncontrarFeicaoContenedora(contains, refs.unidadesConservacao.value, PontoDe(f));
      r.Some? && r.value.properties.Some? ==> RotulosUC(o.foco, r.value.properties.value)
    ensures f.leitura.latitude.Some? && f.leitura.longitude.Some? && refs.terrasIndigenas.Some?
            && !Lanca(contains, refs.municipios, PontoDe(f)) && !Lanca(contains, refs.biomas, PontoDe(f))
            && !Lanca(contains, refs.unidadesConservacao, PontoDe(f)) ==>
      var r := EncontrarFeicaoContenedora(contains, refs.terrasIndigenas.value, PontoDe(f));
      r.Some? && r.value.properties.Some? ==> RotulosTI(o.foco, r.value.properties.value)
  {
    if f.leitura.latitude.None? || f.leitura.longitude.None? then
      // `turf.point` throws on a coordinate that is `NaN`.
      Enriquecido(f, false, false, false, false)
    else
      var p := PontoDe(f);
      Etapas(f, p, Juntar(contains, refs.municipios, p), Juntar(contains, refs.biomas, p),
        Juntar(contains, refs.unidadesConservacao, p), Juntar(contains, refs.terrasIndigenas, p))
  }

  /** The municipality counters: with the layer loaded, a finished enrichment
      increments exactly one of them; without it, neither; never both. */
  lemma EnriquecerContaMunicipio(contains: Containment, refs: Referencias, f: Foco)
    ensures var o := EnriquecerFoco(contains, refs, f);
      && (refs.municipios.Some? && o.concluido ==> o.comMunicipio != o.semMunicipio)
      && (refs.municipios.None? ==> !o.comMunicipio && !o.semMunicipio)
      && !(o.comMunicipio && o.semMunicipio)
  {
    if f.leitura.latitude.Some? && f.leitura.longitude.Some? {
      var p := PontoDe(f);
      EtapasContaMunicipio(f, p, Juntar(contains, refs.municipios, p), Juntar(contains, refs.biomas, p),
        Juntar(contains, refs.unidadesConservacao, p), Juntar(contains, refs.terrasIndigenas, p));
    }
  }

  lemma EtapasContaMunicipio(f: Foco, p: Point, jm: Junta, jb: Junta, ju: Junta, jt: Junta)
    ensures var o := Etapas(f, p, jm, jb, ju, jt);
      && (o.concluido && !jm.SemCamada? ==> o.comMunicipio != o.semMunicipio)
      && (jm.SemCamada? ==> !o.comMunicipio && !o.semMunicipio)
      && !(o.comMunicipio && o.semMunicipio)
  {
  }

  /** The biome: `focosComBioma` grows only on a polygon match, and a finished
      enrichment without one carries the estimate. */
  lemma EnriquecerBioma(contains: Containment, refs: Referencias, f: Foco)
    ensures var o := EnriquecerFoco(contains, refs, f);
      && (o.comBioma ==>
            && refs.biomas.Some? && f.leitura.latitude.Some? && f.leitura.longitude.Some?
            && EncontrarFeicaoContenedora(contains, refs.biomas.value, PontoDe(f)).Some?)
      && (o.concluido && !o.comBioma ==>
            o.foco.juncao.bioma == Some(EstimarBiomaPorCoordenada(f.leitura.latitude.value, f.leitura.longitude.value)))
  {
    if f.leitura.latitude.Some? && f.leitura.longitude.Some? {
      var p := PontoDe(f);
      var jb := Juntar(contains, refs.biomas, p);
      EtapasBioma(f, p, Juntar(contains, refs.municipios, p), jb,
        Juntar(contains, refs.unidadesConservacao, p), Juntar(contains, refs.terrasIndigenas, p));
    }
  }

  lemma EtapasBioma(f: Foco, p: Point, jm: Junta, jb: Junta, ju: Junta, jt: Junta)
    ensures var o := Etapas(f, p, jm, jb, ju, jt);
      && (o.comBioma ==> jb.Feicao?)
      && (o.concluido && !o.comBioma ==> o.foco.juncao.bioma == Some(EstimarBiomaPorCoordenada(p.lat, p.lng)))
  {
    if !jm.Erro? && !jb.Erro? && !jb.Feicao? {
      var f2 := GravarBioma(GravarMunicipio(f, jm), jb, p);
      assert GravarTI(GravarUC(f2, ju), jt).juncao.bioma == f2.juncao.bioma;
    }
  }

  /** Each write changes nothing on a record that already holds the fields it
      writes. */
  lemma MunicipioFixo(x: Foco, g: Foco, jm: Junta)
    requires var y := GravarMunicipio(x, jm).juncao;
      g.juncao.municipio == y.municipio && g.juncao.estado == y.estado && g.juncao.codigoMunicipio == y.codigoMunicipio
    ensures GravarMunicipio(g, jm) == g
  {
  }

  lemma BiomaFixo(x: Foco, g: Foco, jb: Junta, p: Point)
    requires g.juncao.bioma == GravarBioma(x, jb, p).juncao.bioma
    ensures GravarBioma(g, jb, p) == g
  {
  }

  lemma UCFixo(x: Foco, g: Foco, ju: Junta)
    requires var y := GravarUC(x, ju).juncao;
      g.juncao.unidadeConservacao == y.unidadeConservacao && g.juncao.categoriaUc == y.categoriaUc
    ensures GravarUC(g, ju) == g
  {
  }

  lemma TIFixo(x: Foco, g: Foco, jt: Junta)
    requires var y := GravarTI(x, jt).juncao;
      g.juncao.terraIndigena == y.terraIndigena && g.juncao.etnia == y.etnia
    ensures GravarTI(g, jt) == g
  {
  }

  /** Running the stages on their own output changes nothing: every write
      depends only on the join's outcome and the point. */
  lemma EtapasIdempotente(f: Foco, p: Point, jm: Junta, jb: Junta, ju: Junta, jt: Junta)
    ensures var o := Etapas(f, p, jm, jb, ju, jt);
      Etapas(o.foco, p, jm, jb, ju, jt) == o
  {
    if jm.Erro? {
    } else if jb.Erro? {
      MunicipioFixo(f, GravarMunicipio(f, jm), jm);
    } else if ju.Erro? {
      IdempotenteAteBioma(f, p, jm, jb, ju, jt);
    } else if jt.Erro? {
      IdempotenteAteUC(f, p, jm, jb, ju, jt);
    } else {
      IdempotenteAteTI(f, p, jm, jb, ju, jt);
    }
  }

  lemma IdempotenteAteBioma(f: Foco, p: Point, jm: Junta, jb: Junta, ju: Junta, jt: Junta)
    requires !jm.Erro? && !jb.Erro? && ju.Erro?
    ensures var o := Etapas(f, p, jm, jb, ju, jt);
      Etapas(o.foco, p, jm, jb, ju, jt) == o
  {
    var f1 := GravarMunicipio(f, jm);
    var g := GravarBioma(f1, jb, p);
    MunicipioFixo(f, g, jm);
    BiomaFixo(f1, g, jb, p);
  }

  lemma IdempotenteAteUC(f: Foco, p: Point, jm: Junta, jb: Junta, ju: Junta, jt: Junta)
    requires !jm.Erro? && !jb.Erro? && !ju.Erro? && jt.Erro?
    ensures var o := Etapas(f, p, jm, jb, ju, jt);
      Etapas(o.foco, p, jm, jb, ju, jt) == o
  {
    var f1 := GravarMunicipio(f, jm);
    var f2 := GravarBioma(f1, jb, p);
    var g := GravarUC(f2, ju);
    MunicipioFixo(f, g, jm);
    BiomaFixo(f1, g, jb, p);
    UCFixo(f2, g, ju);
  }

  lemma IdempotenteAteTI(f: Foco, p: Point, jm: Junta, jb: Junta, ju: Junta, jt: Junta)
    requires !jm.Erro? && !jb.Erro? && !ju.Erro? && !jt.Erro?
    ensures var o := Etapas(f, p, jm, jb, ju, jt);
      Etapas(o.foco, p, jm, jb, ju, jt) == o
  {
    var f1 := GravarMunicipio(f, jm);
    var f2 := GravarBioma(f1, jb, p);
    var f3 := GravarUC(f2, ju);
    var g := GravarTI(f3, jt);
    MunicipioFixo(f, g, jm);
    BiomaFixo(f1, g, jb, p);
    UCFixo(f2, g, ju);
    TIFixo(f3, g, jt);
  }

  /** Enriching an enriched record again changes nothing: every join writes
      fields that depend only on the point and the layers. */
  lemma EnriquecerIdempotente(contains: Containment, refs: Referencias, f: Foco)
    ensures EnriquecerFoco(contains, refs, EnriquecerFoco(contains, refs, f).foco) == EnriquecerFoco(contains, refs, f)
  {
    if f.leitura.latitude.Some? && f.leitura.longitude.Some? {
      var p := PontoDe(f);
      EtapasIdempotente(f, p, Juntar(contains, refs.municipios, p), Juntar(contains, refs.biomas, p),
        Juntar(contains, refs.unidadesConservacao, p), Juntar(contains, refs.terrasIndigenas, p));
    }
  }

  /** With only the fallback layers, every located record finishes, counts as
      having no municipality, and gets the estimated biome. */
  lemma EnriquecerSemCamadas(contains: Containment, f: Foco)
    requires f.leitura.latitude.Some? && f.leitura.longitude.Some?
    ensures var o := EnriquecerFoco(contains, ComFallback(NenhumaReferencia), f);
      && o.concluido && o.semMunicipio && !o.comMunicipio && !o.comBioma
      && o.foco.juncao.municipio == Some(NaoIdentificado) && o.foco.juncao.estado == Some(NotAvailable)
      && o.foco.juncao.bioma == Some(EstimarBiomaPorCoordenada(f.leitura.latitude.value, f.leitura.longitude.value))
  {
  }

  // --------------------------------------------------------------------------
  // Counters.

  /** `estatisticas`, without `tempoProcessamento`. */
  datatype Estatisticas = Estatisticas(
    totalFocos: nat, focosComMunicipio: nat, focosSemMunicipio: nat, focosComBioma: nat,
    joinsRealizados: nat, municipios: Counter, estados: Counter, biomas: Counter, satelites: Counter)

  const EstatisticasIniciais: Estatisticas := Estatisticas(0, 0, 0, 0, 0, [], [], [], [])

  function Resultados(contains: Containment, refs: Referencias, fs: seq<Foco>): (os: seq<Enriquecido>)
    ensures |os| == |fs|
  {
    seq(|fs|, i requires 0 <= i < |fs| => EnriquecerFoco(contains, refs, fs[i]))
  }

  function Registros(os: seq<Enriquecido>): (fs: seq<Foco>)
    ensures |fs| == |os|
  {
    seq(|os|, i requires 0 <= i < |os| => os[i].foco)
  }

  /** The counters after the enrichments `os`, starting from `e`. */
  function Registrar(e: Estatisticas, os: seq<Enriquecido>): Estatisticas
  {
    e.(focosComMunicipio := e.focosComMunicipio + |Filter(os, (o: Enriquecido) => o.comMunicipio)|,
       focosSemMunicipio := e.focosSemMunicipio + |Filter(os, (o: Enriquecido) => o.semMunicipio)|,
       focosComBioma := e.focosComBioma + |Filter(os, (o: Enriquecido) => o.comBioma)|,
       joinsRealizados := e.joinsRealizados + |Filter(os, (o: Enriquecido) => o.concluido)|)
  }

  /** The increments `enriquecerFoco` makes. */
  function ContarJuncoes(e: Estatisticas, o: Enriquecido): Estatisticas
  {
    e.(focosComMunicipio := e.focosComMunicipio + (if o.comMunicipio then 1 else 0),
       focosSemMunicipio := e.focosSemMunicipio + (if o.semMunicipio then 1 else 0),
       focosComBioma := e.focosComBioma + (if o.comBioma then 1 else 0))
  }

  /** Those, and the increment of `joinsRealizados` that `processarLoteFocos`
      makes when the enrichment did not throw. */
  function Somar(e: Estatisticas, o: Enriquecido): Estatisticas
  {
    var c := ContarJuncoes(e, o);
    c.(joinsRealizados := c.joinsRealizados + (if o.concluido then 1 else 0))
  }

  lemma RegistrarPrefixo(e: Estatisticas, os: seq<Enriquecido>, i: nat)
    requires i < |os|
    ensures Registrar(e, os[..i + 1]) == Somar(Registrar(e, os[..i]), os[i])
    ensures Registros(os[..i + 1]) == Registros(os[..i]) + [os[i].foco]
  {
    assert os[..i + 1] == os[..i] + [os[i]];
    RegistrarUm(e, os[..i], os[i]);
  }

  lemma RegistrarUm(e: Estatisticas, os: seq<Enriquecido>, o: Enriquecido)
    ensures Registrar(e, os + [o]) == Somar(Registrar(e, os), o)
  {
    assert (os + [o])[..|os|] == os;
  }

  lemma RegistrarConcatena(e: Estatisticas, a: seq<Enriquecido>, b: seq<Enriquecido>)
    ensures Registrar(Registrar(e, a), b) == Registrar(e, a + b)
  {
    FilterAppend(a, b, (o: Enriquecido) => o.comMunicipio);
    FilterAppend(a, b, (o: Enriquecido) => o.semMunicipio);
    FilterAppend(a, b, (o: Enriquecido) => o.comBioma);
    FilterAppend(a, b, (o: Enriquecido) => o.concluido);
  }

  lemma ResultadosConcatena(contains: Containment, refs: Referencias, a: seq<Foco>, b: seq<Foco>)
    ensures Resultados(contains, refs, a + b) == Resultados(contains, refs, a) + Resultados(contains, refs, b)
    ensures Registros(Resultados(contains, refs, a + b)) == Registros(Resultados(contains, refs, a)) + Registros(Resultados(contains, refs, b))
  {
    var ra, rb, rab := Resultados(contains, refs, a), Resultados(contains, refs, b), Resultados(contains, refs, a + b);
    forall k | 0 <= k < |rab| ensures rab[k] == (ra + rb)[k] {
      if k < |a| {
        assert (a + b)[k] == a[k];
      } else {
        assert (a + b)[k] == b[k - |a|];
      }
    }
    assert rab == ra + rb;
    RegistrosConcatena(ra, rb);
  }

  lemma RegistrosConcatena(a: seq<Enriquecido>, b: seq<Enriquecido>)
    ensures Registros(a + b) == Registros(a) + Registros(b)
  {
    var r := Registros(a + b);
    forall k | 0 <= k < |r| ensures r[k] == (Registros(a) + Registros(b))[k] {
      if k < |a| {
        assert (a + b)[k] == a[k];
      } else {
        assert (a + b)[k] == b[k - |a|];
      }
    }
  }

  /** Processing the slice `focos[i..fim]` after `focos[..i]` is processing
      `focos[..fim]`. */
  lemma LoteSeguinte(contains: Containment, refs: Referencias, e: Estatisticas, focos: seq<Foco>, i: nat, fim: nat)
    requires i <= fim <= |focos|
    ensures var antes, lote := Resultados(contains, refs, focos[..i]), Resultados(contains, refs, focos[i..fim]);
      && Registros(Resultados(contains, refs, focos[..fim])) == Registros(antes) + Registros(lote)
      && Registrar(Registrar(e, antes), lote) == Registrar(e, Resultados(contains, refs, focos[..fim]))
  {
    assert focos[..fim] == focos[..i] + focos[i..fim];
    ResultadosConcatena(contains, refs, focos[..i], focos[i..fim]);
    RegistrarConcatena(e, Resultados(contains, refs, focos[..i]), Resultados(contains, refs, focos[i..fim]));
  }

  /** A batch grows `joinsRealizados` by at most its size; with the municipality
      layer loaded, each record that finished also grew exactly one of the two
      municipality counters, and the two never grow by more than the batch. */
  lemma RegistrarLimites(contains: Containment, refs: Referencias, fs: seq<Foco>, e: Estatisticas)
    ensures var r := Registrar(e, Resultados(contains, refs, fs));
      && r.joinsRealizados <= e.joinsRealizados + |fs|
      && r.focosComMunicipio + r.focosSemMunicipio <= e.focosComMunicipio + e.focosSemMunicipio + |fs|
      && (refs.municipios.Some? ==>
            r.joinsRealizados - e.joinsRealizados
              <= (r.focosComMunicipio - e.focosComMunicipio) + (r.focosSemMunicipio - e.focosSemMunicipio))
  {
    var os := Resultados(contains, refs, fs);
    forall k | 0 <= k < |os| ensures !(os[k].comMunicipio && os[k].semMunicipio)
      && (refs.municipios.Some? && os[k].concluido ==> os[k].comMunicipio || os[k].semMunicipio)
    {
      EnriquecerContaMunicipio(contains, refs, fs[k]);
    }
    FilterCountDisjoint(os, (o: Enriquecido) => o.comMunicipio, (o: Enriquecido) => o.semMunicipio);
    if refs.municipios.Some? {
      FilterCountCover(os, (o: Enriquecido) => o.concluido, (o: Enriquecido) => o.comMunicipio, (o: Enriquecido) => o.semMunicipio);
    }
  }

  /** The object key a missing field is counted under: `String(undefined)`. */
  function Chave(o: Option<string>): string
  {
    if o.Some? then o.value else "undefined"
  }

  function Chaves(fs: seq<Foco>, campo: Foco -> Option<string>): (ks: seq<string>)
    ensures |ks| == |fs|
    ensures forall i :: 0 <= i < |fs| ==> ks[i] == Chave(campo(fs[i]))
  {
    seq(|fs|, i requires 0 <= i < |fs| => Chave(campo(fs[i])))
  }

  /** The statistics `calcularEstatisticas` writes. */
  function Estatistica(e: Estatisticas, fs: seq<Foco>): Estatisticas
  {
    e.(totalFocos := |fs|,
       municipios := Tally(Chaves(fs, (f: Foco) => f.juncao.municipio)),
       estados := Tally(Chaves(fs, (f: Foco) => f.juncao.estado)),
       biomas := Tally(Chaves(fs, (f: Foco) => f.juncao.bioma)),
       satelites := Tally(Chaves(fs, (f: Foco) => f.leitura.satelite)))
  }

  /** Each of the four counter objects adds up to `totalFocos`. */
  lemma EstatisticaSoma(e: Estatisticas, fs: seq<Foco>)
    ensures var r := Estatistica(e, fs);
      && Total(r.municipios) == r.totalFocos && Total(r.estados) == r.totalFocos
      && Total(r.biomas) == r.totalFocos && Total(r.satelites) == r.totalFocos
  {
    TallyTotal(Chaves(fs, (f: Foco) => f.juncao.municipio));
    TallyTotal(Chaves(fs, (f: Foco) => f.juncao.estado));
    TallyTotal(Chaves(fs, (f: Foco) => f.juncao.bioma));
    TallyTotal(Chaves(fs, (f: Foco) => f.leitura.satelite));
  }

  /** All records of several CSV texts, file after file. */
  function FocosDosArquivos(arquivos: seq<string>, ps: Parsers): seq<Foco>
  {
    if arquivos == [] then []
    else FocosDosArquivos(arquivos[..|arquivos| - 1], ps) + Focos(arquivos[|arquivos| - 1], ps)
  }

  lemma FocosDosArquivosPrefixo(arquivos: seq<string>, ps: Parsers, k: nat)
    requires k < |arquivos|
    ensures FocosDosArquivos(arquivos[..k + 1], ps) == FocosDosArquivos(arquivos[..k], ps) + Focos(arquivos[k], ps)
  {
    assert arquivos[..k + 1][..k] == arquivos[..k];
  }

  const TamanhoLote: nat := 50000

  class ProcessadorEspacialBrasil {
    const contains: Containment
    var referencias: Referencias
    var estatisticas: Estatisticas

    constructor(contains: Containment)
      ensures this.contains == contains
      ensures referencias == NenhumaReferencia && estatisticas == EstatisticasIniciais
    {
      this.contains := contains;
      referencias := NenhumaReferencia;
      estatisticas := EstatisticasIniciais;
    }

    /** `carregarReferenciasSpatiais`, given what each file read produced. */
    method CarregarReferencias(lidas: Referencias)
      modifies this
      ensures referencias == ComFallback(lidas)
      ensures estatisticas == old(estatisticas)
    {
      referencias := lidas;
      if referencias.municipios.None? {
        referencias := referencias.(municipios := Some(ColecaoVazia));
      }
      if referencias.biomas.None? {
        referencias := referencias.(biomas := Some(ColecaoVazia));
      }
    }

    /** `enriquecerFoco`, which also increments three of the counters. */
    method Enriquecer(foco: Foco) returns (o: Enriquecido)
      modifies this
      ensures o == EnriquecerFoco(contains, referencias, foco)
      ensures estatisticas == ContarJuncoes(old(estatisticas), o)
      ensures referencias == old(referencias)
    {
      o := EnriquecerFoco(contains, referencias, foco);
      ContarJuncoesDe(o);
    }

    /** The three increments inside `enriquecerFoco`, one per counter. */
    method ContarJuncoesDe(o: Enriquecido)
      modifies this
      ensures estatisticas == ContarJuncoes(old(estatisticas), o)
      ensures referencias == old(referencias)
    {
      if o.comMunicipio {
        estatisticas := estatisticas.(focosComMunicipio := estatisticas.focosComMunicipio + 1);
      }
      if o.semMunicipio {
        estatisticas := estatisticas.(focosSemMunicipio := estatisticas.focosSemMunicipio + 1);
      }
      if o.comBioma {
        estatisticas := estatisticas.(focosComBioma := estatisticas.focosComBioma + 1);
      }
    }

    /** `processarLoteFocos`: one output record per input record, in order; a
        record whose enrichment threw is kept as far as it got. */
    method ProcessarLoteFocos(focos: seq<Foco>) returns (processados: seq<Foco>)
      modifies this
      ensures |processados| == |focos|
      ensures processados == Registros(Resultados(contains, referencias, focos))
      ensures estatisticas == Registrar(old(estatisticas), Resultados(contains, referencias, focos))
      ensures referencias == old(referencias)
    {
      ghost var os := Resultados(contains, referencias, focos);
      processados := [];
      var i := 0;
      while i < |focos|
        invariant 0 <= i <= |focos|
        invariant referencias == old(referencias)
        invariant processados == Registros(os[..i])
        invariant estatisticas == Registrar(old(estatisticas), os[..i])
      {
        RegistrarPrefixo(old(estatisticas), os, i);
        var o := Enriquecer(focos[i]);
        processados := processados + [o.foco];
        if o.concluido {
          estatisticas := estatisticas.(joinsRealizados := estatisticas.joinsRealizados + 1);
        }
        i := i + 1;
      }
      assert os[..|focos|] == os;
    }

    /** The batch loop of `executar` for one file: slices of `TamanhoLote`
        records, `CeilDiv(|focos|, TamanhoLote)` of them, whose results are
        concatenated in order. */
    method ProcessarEmLotes(focos: seq<Foco>) returns (processados: seq<Foco>, lotes: nat)
      modifies this
      ensures processados == Registros(Resultados(contains, referencias, focos))
      ensures estatisticas == Registrar(old(estatisticas), Resultados(contains, referencias, focos))
      ensures lotes == CeilDiv(|focos|, TamanhoLote)
      ensures referencias == old(referencias)
    {
      processados := [];
      lotes := 0;
      var i := 0;
      // The records processed so far: `i`, except after the last slice.
      ghost var feitos := 0;
      while i < |focos|
        invariant i == lotes * TamanhoLote
        invariant lotes > 0 ==> (lotes - 1) * TamanhoLote < |focos|
        invariant feitos <= |focos| && (i < |focos| ==> feitos == i) && (i >= |focos| ==> feitos == |focos|)
        invariant referencias == old(referencias)
        invariant processados == Registros(Resultados(contains, referencias, focos[..feitos]))
        invariant estatisticas == Registrar(old(estatisticas), Resultados(contains, referencias, focos[..feitos]))
      {
        var fim := if i + TamanhoLote < |focos| then i + TamanhoLote else |focos|;
        var lote := focos[i..fim];
        LoteSeguinte(contains, referencias, old(estatisticas), focos, i, fim);
        var r := ProcessarLoteFocos(lote);
        processados := processados + r;
        lotes := lotes + 1;
        i := i + TamanhoLote;
        feitos := fim;
      }
      assert focos[..feitos] == focos;
      CeilDivUnique(|focos|, TamanhoLote, lotes);
    }

    /** `calcularEstatisticas`. */
    method CalcularEstatisticas(focos: seq<Foco>)
      modifies this
      ensures estatisticas == Estatistica(old(estatisticas), focos)
      ensures referencias == old(referencias)
    {
      var municipios := CountLabels(Chaves(focos, (f: Foco) => f.juncao.municipio));
      var estados := CountLabels(Chaves(focos, (f: Foco) => f.juncao.estado));
      var biomas := CountLabels(Chaves(focos, (f: Foco) => f.juncao.bioma));
      var satelites := CountLabels(Chaves(focos, (f: Foco) => f.leitura.satelite));
      estatisticas := estatisticas.(totalFocos := |focos|, municipios := municipios, estados := estados,
                                    biomas := biomas, satelites := satelites);
    }

    /** `executar` without the file system: the layers as read, and the text
        of each CSV file. */
    method Executar(lidas: Referencias, arquivos: seq<string>, ps: Parsers) returns (processados: seq<Foco>)
      modifies this
      ensures referencias == ComFallback(lidas)
      ensures processados == Registros(Resultados(contains, referencias, FocosDosArquivos(arquivos, ps)))
      ensures estatisticas == Estatistica(Registrar(old(estatisticas), Resultados(contains, referencias, FocosDosArquivos(arquivos, ps))), processados)
    {
      CarregarReferencias(lidas);
      ghost var inicio := estatisticas;
      processados := [];
      var k := 0;
      while k < |arquivos|
        invariant 0 <= k <= |arquivos|
        invariant referencias == ComFallback(lidas)
        invariant processados == Registros(Resultados(contains, referencias, FocosDosArquivos(arquivos[..k], ps)))
        invariant estatisticas == Registrar(inicio, Resultados(contains, referencias, FocosDosArquivos(arquivos[..k], ps)))
      {
        FocosDosArquivosPrefixo(arquivos, ps, k);
        var focos := ParsearCsv(arquivos[k], ps);
        var r, _ := ProcessarEmLotes(focos);
        ResultadosConcatena(contains, referencias, FocosDosArquivos(arquivos[..k], ps), focos);
        RegistrarConcatena(inicio, Resultados(contains, referencias, FocosDosArquivos(arquivos[..k], ps)),
                           Resultados(contains, referencias, focos));
        processados := processados + r;
        k := k + 1;
      }
      assert arquivos[..|arquivos|] == arquivos;
      CalcularEstatisticas(processados);
    }
  }
}
