/** `SpatialDataProcessor`, the older processor for the state of Maranhão:
    it parses CSV text into records inside a rough Maranhão box, labels each
    record with a municipality, a biome, a conservation unit and a region
    from fixed tables, buckets times of day, and counts records by field. */
module ProcessadorMaranhao {
  import opened Common
  import opened Text
  import opened Seqs
  import opened Tallies

  // --------------------------------------------------------------------------
  // Records and CSV parsing (`parseCSV`).

  /** A parsed record. `lat` and `lon` are the numbers the parser stores under
      the keys `lat`, `lon`, `latitude` and `longitude`; `campos` holds every
      other field as text, `source_file` included. */
  datatype Registro = Registro(campos: map<string, string>, lat: real, lon: real)

  /** The keys whose values are the two numbers. */
  const ChavesNumericas: set<string> := {"lat", "lon", "latitude", "longitude"}

  /** `s.trim().replace(/"/g, '')`. */
  function Limpar(s: string): string
  {
    RemoveQuotes(Trim(s))
  }

  function LimparTodos(ss: seq<string>): (r: seq<string>)
    ensures |r| == |ss|
    ensures forall k :: 0 <= k < |ss| ==> r[k] == Limpar(ss[k])
  {
    seq(|ss|, k requires 0 <= k < |ss| => Limpar(ss[k]))
  }

  /** `values[index] || ''`. */
  function Valor(values: seq<string>, index: nat): string
  {
    if index < |values| then values[index] else ""
  }

  /** The object `{ source_file: fileName }` after `foco[header] = values[index] || ''`
      for the first `n` headers, in order. */
  function Atribuir(headers: seq<string>, values: seq<string>, fileName: string, n: nat): (m: map<string, string>)
    requires n <= |headers|
    ensures "source_file" in m
  {
    if n == 0 then map["source_file" := fileName]
    else Atribuir(headers, values, fileName, n - 1)[headers[n - 1] := Valor(values, n - 1)]
  }

  /** The record's keys are `source_file` and the headers; for a header the
      last column of that name wins; `source_file` keeps the file name unless
      a header overwrites it. */
  lemma {:induction false} AtribuirSpec(headers: seq<string>, values: seq<string>, fileName: string, n: nat)
    requires n <= |headers|
    ensures var m := Atribuir(headers, values, fileName, n);
      && (forall i :: 0 <= i < n ==> headers[i] in m)
      && (forall k :: k in m ==> k == "source_file" || exists i :: 0 <= i < n && headers[i] == k)
      && (forall i :: 0 <= i < n && (forall j :: i < j < n ==> headers[j] != headers[i]) ==>
            m[headers[i]] == Valor(values, i))
      && ((forall j :: 0 <= j < n ==> headers[j] != "source_file") ==> m["source_file"] == fileName)
  {
    if n > 0 {
      AtribuirSpec(headers, values, fileName, n - 1);
      var anterior := Atribuir(headers, values, fileName, n - 1);
      var m := Atribuir(headers, values, fileName, n);
      assert m == anterior[headers[n - 1] := Valor(values, n - 1)];
      forall k | k in m ensures k == "source_file" || exists i :: 0 <= i < n && headers[i] == k {
        if k != headers[n - 1] {
          assert k in anterior;
        }
      }
    }
  }

  /** A text field that is present and not empty. */
  function Texto(m: map<string, string>, k: string): Option<string>
  {
    if k in m && m[k] != "" then Some(m[k]) else None
  }

  /** `parseFloat(a || b || ... || 0)`: the first non-empty text parsed, or 0. */
  function Coordenada(m: map<string, string>, chaves: seq<string>, ps: Parsers): (r: Option<real>)
    ensures (forall k :: 0 <= k < |chaves| ==> Texto(m, chaves[k]).None?) ==> r == Some(0.0)
    ensures forall i :: 0 <= i < |chaves| && Texto(m, chaves[i]).Some? && (forall j :: 0 <= j < i ==> Texto(m, chaves[j]).None?) ==>
      r == ps.parseFloat(m[chaves[i]])
  {
    if chaves == [] then Some(0.0)
    else if Texto(m, chaves[0]).Some? then ps.parseFloat(m[chaves[0]])
    else
      assert forall i :: 1 <= i < |chaves| ==> chaves[i] == chaves[1..][i - 1];
      Coordenada(m, chaves[1..], ps)
  }

  /** The Maranhão box test, with the source's rejection of a zero or `NaN`
      coordinate. */
  predicate NoMaranhao(lat: Option<real>, lon: Option<real>)
  {
    && lat.Some? && lon.Some? && lat.value != 0.0 && lon.value != 0.0
    && -10.0 <= lat.value <= 0.0 && -50.0 <= lon.value <= -40.0
  }

  /** The record of one data line, if it has at least two values and a
      position inside the box. */
  function LinhaCSV(headers: seq<string>, line: string, fileName: string, ps: Parsers): (r: Option<Registro>)
    ensures r.Some? ==> -10.0 <= r.value.lat < 0.0 && -50.0 <= r.value.lon <= -40.0
    ensures r.Some? ==> |Split(Trim(line), ',')| >= 2
    ensures r.Some? ==> ChavesNumericas !! r.value.campos.Keys
  {
    var l := Trim(line);
    if l == [] then None
    else
      var values := LimparTodos(Split(l, ','));
      if |values| < 2 then None
      else
        var foco := Atribuir(headers, values, fileName, |headers|);
        var lat := Coordenada(foco, ["lat", "latitude"], ps);
        var lon := Coordenada(foco, ["lon", "longitude", "M"], ps);
        if NoMaranhao(lat, lon) then Some(Registro(foco - ChavesNumericas, lat.value, lon.value)) else None
  }

  /** A line gives a record exactly when it is not blank, has two values or
      more and its first non-empty `lat`/`latitude` and `lon`/`longitude`/`M`
      fields parse to a point in the box; the record holds every other field
      of the line's object and that point. */
  lemma LinhaCSVRegistro(headers: seq<string>, line: string, fileName: string, ps: Parsers)
    ensures var values := LimparTodos(Split(Trim(line), ','));
      var foco := Atribuir(headers, values, fileName, |headers|);
      var lat := Coordenada(foco, ["lat", "latitude"], ps);
      var lon := Coordenada(foco, ["lon", "longitude", "M"], ps);
      var r := LinhaCSV(headers, line, fileName, ps);
      && (r.Some? <==> Trim(line) != "" && |values| >= 2 && NoMaranhao(lat, lon))
      && (r.Some? ==> r.value.campos == foco - ChavesNumericas && Some(r.value.lat) == lat && Some(r.value.lon) == lon)
  {
  }

  function LinhaCSVCom(headers: seq<string>, fileName: string, ps: Parsers): string -> Option<Registro>
  {
    line => LinhaCSV(headers, line, fileName, ps)
  }

  /** The records of a CSV text: nothing for a text of fewer than two lines. */
  function RegistrosCSV(content: string, fileName: string, ps: Parsers): seq<Registro>
  {
    var lines := Split(content, '\n');
    if |lines| < 2 then []
    else FilterMap(lines[1..], LinhaCSVCom(LimparTodos(Split(lines[0], ',')), fileName, ps))
  }

  /** Every record lies in the box; a text without a line break gives none. */
  lemma RegistrosCSVNaCaixa(content: string, fileName: string, ps: Parsers)
    ensures forall k :: 0 <= k < |RegistrosCSV(content, fileName, ps)| ==>
      -10.0 <= RegistrosCSV(content, fileName, ps)[k].lat < 0.0 && -50.0 <= RegistrosCSV(content, fileName, ps)[k].lon <= -40.0
    ensures '\n' !in content ==> RegistrosCSV(content, fileName, ps) == []
  {
    var lines := Split(content, '\n');
    if '\n' !in content {
      SplitWithoutSeparator(content, '\n');
    } else if |lines| >= 2 {
      var r := RegistrosCSV(content, fileName, ps);
      var f := LinhaCSVCom(LimparTodos(Split(lines[0], ',')), fileName, ps);
      forall k | 0 <= k < |r| ensures -10.0 <= r[k].lat < 0.0 && -50.0 <= r[k].lon <= -40.0 {
        var i :| 0 <= i < |lines[1..]| && f(lines[1..][i]) == Some(r[k]);
      }
    }
  }

  /** `parseCSV`. */
  method ParseCSV(content: string, fileName: string, ps: Parsers) returns (focos: seq<Registro>)
    ensures focos == RegistrosCSV(content, fileName, ps)
  {
    var lines := Split(content, '\n');
    if |lines| < 2 {
      return [];
    }
    var headers := LimparTodos(Split(lines[0], ','));
    ghost var dados := lines[1..];
    focos := [];
    var i := 1;
    while i < |lines|
      invariant 1 <= i <= |lines|
      invariant focos == FilterMap(dados[..i - 1], LinhaCSVCom(headers, fileName, ps))
    {
      FilterMapPrefix(dados, i - 1, LinhaCSVCom(headers, fileName, ps));
      assert dados[i - 1] == lines[i];
      // Blank lines, lines of fewer than two values and positions outside
      // the box add nothing.
      var foco := LinhaCSV(headers, lines[i], fileName, ps);
      if foco.Some? {
        focos := focos + [foco.value];
      }
      i := i + 1;
    }
    assert dados[..i - 1] == dados;
  }

  // --------------------------------------------------------------------------
  // Fixed tables (`getMunicipiosMaranhao`, `getBiomasMaranhao`,
  // `getUCsMaranhao`, `getRegioesMaranhao`).

  /** A box with inclusive bounds. */
  datatype Caixa = Caixa(minLat: real, maxLat: real, minLon: real, maxLon: real)

  predicate NaCaixa(b: Caixa, lat: real, lon: real)
  {
    b.minLat <= lat <= b.maxLat && b.minLon <= lon <= b.maxLon
  }

  datatype Municipio = Municipio(nome: string, lat: real, lon: real, bounds: Caixa)

  /** A biome or a region: a name and a box. */
  datatype Area = Area(nome: string, bounds: Caixa)

  /** A conservation unit: a centre and a radius in degrees. */
  datatype UC = UC(nome: string, lat: real, lon: real, radius: real)

  const MunicipiosMaranhao: seq<Municipio> := [
    Municipio("São Luís", -2.5297, -44.2828, Caixa(-2.8, -2.2, -44.6, -43.9)),
    Municipio("Imperatriz", -5.5244, -47.4601, Caixa(-5.8, -5.2, -47.8, -47.1)),
    Municipio("Caxias", -4.8594, -43.3558, Caixa(-5.1, -4.6, -43.7, -43.0)),
    Municipio("Timon", -5.0947, -42.2877, Caixa(-5.4, -4.8, -42.6, -41.9)),
    Municipio("Codó", -4.4555, -43.8856, Caixa(-4.8, -4.1, -44.2, -43.5)),
    Municipio("Açailândia", -4.9447, -47.5072, Caixa(-5.2, -4.7, -47.8, -47.2)),
    Municipio("Bacabal", -4.2250, -43.8289, Caixa(-4.5, -3.9, -44.1, -43.5)),
    Municipio("Balsas", -7.5325, -46.0356, Caixa(-7.8, -7.2, -46.4, -45.7)),
    Municipio("Chapadinha", -3.7408, -43.3608, Caixa(-4.0, -3.4, -43.7, -43.0)),
    Municipio("Santa Inês", -3.6667, -45.3833, Caixa(-3.9, -3.4, -45.7, -45.0))]

  const BiomasMaranhao: seq<Area> := [
    Area("Cerrado", Caixa(-10.0, -4.0, -48.0, -42.0)),
    Area("Amazônia", Caixa(-6.0, -1.0, -50.0, -44.0)),
    Area("Caatinga", Caixa(-7.0, -2.0, -45.0, -40.0))]

  const UCsMaranhao: seq<UC> := [
    UC("Parque Nacional da Chapada das Mesas", -7.0, -47.0, 0.5),
    UC("Parque Nacional dos Lençóis Maranhenses", -2.5, -43.0, 0.8),
    UC("Reserva Biológica do Gurupi", -3.5, -46.5, 0.3),
    UC("APA da Baixada Maranhense", -3.0, -45.0, 1.0)]

  /** The region table as written: every box has `minLat > maxLat`. */
  const RegioesMaranhao: seq<Area> := [
    Area("Norte", Caixa(-1.0, -4.0, -45.0, -42.0)),
    Area("Sul", Caixa(-6.0, -10.0, -48.0, -44.0)),
    Area("Leste", Caixa(-2.0, -6.0, -44.0, -40.0)),
    Area("Oeste", Caixa(-3.0, -7.0, -50.0, -46.0)),
    Area("Centro", Caixa(-3.0, -6.0, -46.0, -43.0))]

  /** The region table with the two latitude bounds of each box exchanged. */
  const RegioesCorrigidas: seq<Area> := [
    Area("Norte", Caixa(-4.0, -1.0, -45.0, -42.0)),
    Area("Sul", Caixa(-10.0, -6.0, -48.0, -44.0)),
    Area("Leste", Caixa(-6.0, -2.0, -44.0, -40.0)),
    Area("Oeste", Caixa(-7.0, -3.0, -50.0, -46.0)),
    Area("Centro", Caixa(-6.0, -3.0, -46.0, -43.0))]

  /** The tables `loadSpatialReferences` returns. */
  datatype DadosEspaciais = DadosEspaciais(municipios: seq<Municipio>, biomas: seq<Area>, ucs: seq<UC>, regioes: seq<Area>)

  const DadosMaranhao: DadosEspaciais := DadosEspaciais(MunicipiosMaranhao, BiomasMaranhao, UCsMaranhao, RegioesMaranhao)

  const DadosCorrigidos: DadosEspaciais := DadosEspaciais(MunicipiosMaranhao, BiomasMaranhao, UCsMaranhao, RegioesCorrigidas)

  // --------------------------------------------------------------------------
  // Lookups (`findMunicipio`, `findBioma`, `findUC`, `findRegiao`).

  /** The position of the first area whose box holds the point. */
  function PrimeiraArea(areas: seq<Area>, lat: real, lon: real): (r: Option<nat>)
    ensures r.Some? ==> r.value < |areas| && NaCaixa(areas[r.value].bounds, lat, lon)
    ensures r.Some? ==> forall j :: 0 <= j < r.value ==> !NaCaixa(areas[j].bounds, lat, lon)
    ensures r.None? <==> forall j :: 0 <= j < |areas| ==> !NaCaixa(areas[j].bounds, lat, lon)
  {
    if areas == [] then None
    else if NaCaixa(areas[0].bounds, lat, lon) then Some(0)
    else
      match PrimeiraArea(areas[1..], lat, lon)
      case None => None
      case Some(j) => Some(j + 1)
  }

  /** The areas of the municipality table. */
  function AreasDe(ms: seq<Municipio>): (r: seq<Area>)
    ensures |r| == |ms|
    ensures forall i :: 0 <= i < |ms| ==> r[i] == Area(ms[i].nome, ms[i].bounds)
  {
    seq(|ms|, i requires 0 <= i < |ms| => Area(ms[i].nome, ms[i].bounds))
  }

  /** Squared distance in degrees; `Math.sqrt` is monotone, so comparing
      squares decides the same as comparing distances. */
  function Distancia2(lat: real, lon: real, lat0: real, lon0: real): real
  {
    (lat - lat0) * (lat - lat0) + (lon - lon0) * (lon - lon0)
  }

  /** The position of the nearest centre; on a tie, the first. */
  function MaisProximo(ms: seq<Municipio>, lat: real, lon: real): (i: nat)
    requires ms != []
    ensures i < |ms|
    ensures forall j :: 0 <= j < |ms| ==> Distancia2(lat, lon, ms[i].lat, ms[i].lon) <= Distancia2(lat, lon, ms[j].lat, ms[j].lon)
    ensures forall j :: 0 <= j < i ==> Distancia2(lat, lon, ms[i].lat, ms[i].lon) < Distancia2(lat, lon, ms[j].lat, ms[j].lon)
    decreases |ms|
  {
    if |ms| == 1 then 0
    else
      var k := MaisProximo(ms[..|ms| - 1], lat, lon);
      assert forall j :: 0 <= j < |ms| - 1 ==> ms[..|ms| - 1][j] == ms[j];
      var n := |ms| - 1;
      if Distancia2(lat, lon, ms[n].lat, ms[n].lon) < Distancia2(lat, lon, ms[k].lat, ms[k].lon) then n else k
  }

  const OutrosMunicipios: string := "Outros Municípios"

  /** The name `findMunicipio` returns: the first box, else the nearest centre. */
  function MunicipioDe(lat: real, lon: real, ms: seq<Municipio>): (r: string)
    ensures ms == [] ==> r == OutrosMunicipios
    ensures ms != [] ==> exists i :: 0 <= i < |ms| && r == ms[i].nome
  {
    match PrimeiraArea(AreasDe(ms), lat, lon)
    case Some(i) => ms[i].nome
    case None => if ms == [] then OutrosMunicipios else ms[MaisProximo(ms, lat, lon)].nome
  }

  /** `findMunicipio`: a loop over the boxes, then a loop keeping the closest
      municipality and the smallest distance seen. */
  method FindMunicipio(lat: real, lon: real, municipios: seq<Municipio>) returns (nome: string)
    ensures nome == MunicipioDe(lat, lon, municipios)
  {
    var areas := AreasDe(municipios);
    var i := 0;
    while i < |municipios|
      invariant 0 <= i <= |municipios|
      invariant forall j :: 0 <= j < i ==> !NaCaixa(areas[j].bounds, lat, lon)
    {
      var b := municipios[i].bounds;
      if b.minLat <= lat <= b.maxLat && b.minLon <= lon <= b.maxLon {
        assert PrimeiraArea(areas, lat, lon) == Some(i);
        return municipios[i].nome;
      }
      i := i + 1;
    }
    var closest: Option<nat> := None;
    var minDistance: real := 0.0;
    i := 0;
    while i < |municipios|
      invariant 0 <= i <= |municipios|
      invariant closest.None? <==> i == 0
      invariant closest.Some? ==> closest.value == MaisProximo(municipios[..i], lat, lon)
      invariant closest.Some? ==> minDistance == Distancia2(lat, lon, municipios[closest.value].lat, municipios[closest.value].lon)
    {
      var distance := Distancia2(lat, lon, municipios[i].lat, municipios[i].lon);
      assert municipios[..i + 1][..i] == municipios[..i];
      if closest.None? || distance < minDistance {
        minDistance := distance;
        closest := Some(i);
      }
      i := i + 1;
    }
    assert municipios[..i] == municipios;
    nome := if closest.Some? then municipios[closest.value].nome else OutrosMunicipios;
  }

  /** A point inside the first box gets that box's municipality, and with a
      non-empty table the name is always one of the table's. */
  lemma MunicipioDaCaixa(lat: real, lon: real, ms: seq<Municipio>, i: nat)
    requires i < |ms| && NaCaixa(ms[i].bounds, lat, lon)
    requires forall j :: 0 <= j < i ==> !NaCaixa(ms[j].bounds, lat, lon)
    ensures MunicipioDe(lat, lon, ms) == ms[i].nome
  {
    var areas := AreasDe(ms);
    assert areas[i].bounds == ms[i].bounds;
    assert forall j :: 0 <= j < i ==> areas[j].bounds == ms[j].bounds;
  }

  /** Outside every box, the municipality is the one with the nearest centre. */
  lemma MunicipioMaisProximo(lat: real, lon: real, ms: seq<Municipio>)
    requires ms != []
    requires forall j :: 0 <= j < |ms| ==> !NaCaixa(ms[j].bounds, lat, lon)
    ensures exists i :: 0 <= i < |ms| && MunicipioDe(lat, lon, ms) == ms[i].nome &&
              forall j :: 0 <= j < |ms| ==> Distancia2(lat, lon, ms[i].lat, ms[i].lon) <= Distancia2(lat, lon, ms[j].lat, ms[j].lon)
  {
    var areas := AreasDe(ms);
    assert forall j :: 0 <= j < |ms| ==> areas[j].bounds == ms[j].bounds;
    var i := MaisProximo(ms, lat, lon);
    assert MunicipioDe(lat, lon, ms) == ms[i].nome;
  }

  /** The name of the first area whose box holds the point, else `padrao`:
      the shape shared by `findBioma` and `findRegiao`. */
  function NomeDaArea(lat: real, lon: real, areas: seq<Area>, padrao: string): (r: string)
    ensures (forall j :: 0 <= j < |areas| ==> !NaCaixa(areas[j].bounds, lat, lon)) ==> r == padrao
    ensures (exists j :: 0 <= j < |areas| && NaCaixa(areas[j].bounds, lat, lon)) ==>
      exists i :: 0 <= i < |areas| && NaCaixa(areas[i].bounds, lat, lon) && r == areas[i].nome
        && forall j :: 0 <= j < i ==> !NaCaixa(areas[j].bounds, lat, lon)
  {
    match PrimeiraArea(areas, lat, lon)
    case Some(i) => areas[i].nome
    case None => padrao
  }

  /** `findBioma`. */
  function FindBioma(lat: real, lon: real, biomas: seq<Area>): string
  {
    NomeDaArea(lat, lon, biomas, "Cerrado")
  }

  /** `findRegiao`. */
  function FindRegiao(lat: real, lon: real, regioes: seq<Area>): string
  {
    NomeDaArea(lat, lon, regioes, "Centro")
  }

  /** `distance <= uc.radius`, on squares: a negative radius holds nothing. */
  predicate NoRaio(u: UC, lat: real, lon: real)
  {
    u.radius >= 0.0 && Distancia2(lat, lon, u.lat, u.lon) <= u.radius * u.radius
  }

  /** `findUC`: the first unit within its radius, else `''`. */
  function FindUC(lat: real, lon: real, ucs: seq<UC>): (r: string)
    ensures (forall j :: 0 <= j < |ucs| ==> !NoRaio(ucs[j], lat, lon)) ==> r == ""
    ensures (exists j :: 0 <= j < |ucs| && NoRaio(ucs[j], lat, lon)) ==>
      exists i :: 0 <= i < |ucs| && NoRaio(ucs[i], lat, lon) && r == ucs[i].nome &&
        forall j :: 0 <= j < i ==> !NoRaio(ucs[j], lat, lon)
  {
    if ucs == [] then ""
    else if NoRaio(ucs[0], lat, lon) then ucs[0].nome
    else
      var r := FindUC(lat, lon, ucs[1..]);
      assert forall j :: 1 <= j < |ucs| ==> ucs[j] == ucs[1..][j - 1];
      r
  }

  /** Every box of the region table as written is empty, so `findRegiao`
      always falls through to its default. */
  lemma RegiaoSempreCentro(lat: real, lon: real)
    ensures FindRegiao(lat, lon, RegioesMaranhao) == "Centro"
  {
    assert forall j :: 0 <= j < |RegioesMaranhao| ==> RegioesMaranhao[j].bounds.minLat > RegioesMaranhao[j].bounds.maxLat;
  }

  /** With the latitude bounds exchanged, every region is returned for some
      point of Maranhão. */
  lemma RegioesCorrigidasAlcancaveis()
    ensures FindRegiao(-2.0, -43.0, RegioesCorrigidas) == "Norte"
    ensures FindRegiao(-8.0, -46.0, RegioesCorrigidas) == "Sul"
    ensures FindRegiao(-4.0, -41.0, RegioesCorrigidas) == "Leste"
    ensures FindRegiao(-5.0, -48.0, RegioesCorrigidas) == "Oeste"
    ensures FindRegiao(-5.0, -45.0, RegioesCorrigidas) == "Centro"
  {
    assert PrimeiraArea(RegioesCorrigidas, -2.0, -43.0) == Some(0);
    assert PrimeiraArea(RegioesCorrigidas, -8.0, -46.0) == Some(1);
    assert PrimeiraArea(RegioesCorrigidas, -4.0, -41.0) == Some(2);
    assert PrimeiraArea(RegioesCorrigidas, -5.0, -48.0) == Some(3);
    assert PrimeiraArea(RegioesCorrigidas, -5.0, -45.0) == Some(4);
  }

  // --------------------------------------------------------------------------
  // Joins (`performSpatialJoins`).

  const ChavesDosJoins: set<string> := {"municipio", "bioma", "uc", "regiao"}

  /** `{ ...foco }` with the four join results added. */
  function Juntar(foco: Registro, dados: DadosEspaciais): (r: Registro)
    ensures r.lat == foco.lat && r.lon == foco.lon
    ensures r.campos.Keys == foco.campos.Keys + ChavesDosJoins
    ensures forall k :: k in foco.campos && k !in ChavesDosJoins ==> r.campos[k] == foco.campos[k]
    ensures r.campos["municipio"] == MunicipioDe(foco.lat, foco.lon, dados.municipios)
    ensures r.campos["bioma"] == FindBioma(foco.lat, foco.lon, dados.biomas)
    ensures r.campos["uc"] == FindUC(foco.lat, foco.lon, dados.ucs)
    ensures r.campos["regiao"] == FindRegiao(foco.lat, foco.lon, dados.regioes)
  {
    foco.(campos := foco.campos["municipio" := MunicipioDe(foco.lat, foco.lon, dados.municipios)]
                               ["bioma" := FindBioma(foco.lat, foco.lon, dados.biomas)]
                               ["uc" := FindUC(foco.lat, foco.lon, dados.ucs)]
                               ["regiao" := FindRegiao(foco.lat, foco.lon, dados.regioes)])
  }

  /** `performSpatialJoins`: one joined record per record, in order. */
  function PerformSpatialJoins(focos: seq<Registro>, dados: DadosEspaciais): (r: seq<Registro>)
    ensures |r| == |focos|
    ensures forall i :: 0 <= i < |focos| ==> r[i] == Juntar(focos[i], dados)
  {
    seq(|focos|, i requires 0 <= i < |focos| => Juntar(focos[i], dados))
  }

  /** With the region table as written, every joined record is in `'Centro'`. */
  lemma JoinsSempreCentro(focos: seq<Registro>)
    ensures forall i :: 0 <= i < |focos| ==> PerformSpatialJoins(focos, DadosMaranhao)[i].campos["regiao"] == "Centro"
  {
    forall i | 0 <= i < |focos| ensures PerformSpatialJoins(focos, DadosMaranhao)[i].campos["regiao"] == "Centro" {
      RegiaoSempreCentro(focos[i].lat, focos[i].lon);
    }
  }

  // --------------------------------------------------------------------------
  // Period of the day (`categorizePeriodo`).

  const Periodos: seq<string> := ["Desconhecido", "Manhã", "Tarde", "Noite", "Madrugada"]

  /** The period of a parsed hour; `None` is `NaN`, which fails every range test. */
  function PeriodoDaHora(hora: Option<int>): (r: string)
    ensures r in Periodos[1..]
  {
    if hora.None? then "Madrugada"
    else if 6 <= hora.value < 12 then "Manhã"
    else if 12 <= hora.value < 18 then "Tarde"
    else if 18 <= hora.value < 24 then "Noite"
    else "Madrugada"
  }

  /** `categorizePeriodo`: `'Desconhecido'` for a missing or empty text, else the
      period of `parseInt` of the part before the first colon. */
  function CategorizePeriodo(horaStr: Option<string>, ps: Parsers): (r: string)
    ensures r in Periodos
    ensures r == "Desconhecido" <==> horaStr.None? || horaStr.value == ""
  {
    if horaStr.None? || horaStr.value == "" then "Desconhecido"
    else PeriodoDaHora(ps.parseInt(Split(horaStr.value, ':')[0]))
  }

  /** The period of each hour of the day, as a table. */
  const PeriodoPorHora: seq<string> := [
    "Madrugada", "Madrugada", "Madrugada", "Madrugada", "Madrugada", "Madrugada",
    "Manhã", "Manhã", "Manhã", "Manhã", "Manhã", "Manhã",
    "Tarde", "Tarde", "Tarde", "Tarde", "Tarde", "Tarde",
    "Noite", "Noite", "Noite", "Noite", "Noite", "Noite"]

  /** The range tests agree with the table on 0..23, and any other hour,
      negative or past midnight, is `'Madrugada'`. */
  lemma PeriodoSegueTabela(h: int)
    ensures 0 <= h < 24 ==> PeriodoDaHora(Some(h)) == PeriodoPorHora[h]
    ensures h < 0 || h >= 24 ==> PeriodoDaHora(Some(h)) == "Madrugada"
  {
    if 0 <= h < 24 {
      if h < 6 {
        assert PeriodoPorHora[h] == "Madrugada";
      } else if h < 12 {
        assert PeriodoPorHora[h] == "Manhã";
      } else if h < 18 {
        assert PeriodoPorHora[h] == "Tarde";
      } else {
        assert PeriodoPorHora[h] == "Noite";
      }
    }
  }

  // --------------------------------------------------------------------------
  // Counting (`groupBy`).

  const NaoDefinido: string := "Não definido"

  /** `item[key]` as text, when the record has that field. */
  function CampoDe(item: Registro, key: string): Option<string>
  {
    if key in item.campos then Some(item.campos[key]) else None
  }

  /** `item[key] || 'Não definido'` for each item. */
  function Rotulos(items: seq<Registro>, key: string): (ls: seq<string>)
    ensures |ls| == |items|
    ensures forall i :: 0 <= i < |items| ==> ls[i] == Or(CampoDe(items[i], key), NaoDefinido)
  {
    seq(|items|, i requires 0 <= i < |items| => Or(CampoDe(items[i], key), NaoDefinido))
  }

  /** `groupBy`: count with a `forEach`, then order the entries by descending count. */
  method GroupBy(items: seq<Registro>, key: string) returns (grouped: Counter)
    ensures grouped == SortDesc(Tally(Rotulos(items, key)))
  {
    var counter := CountLabels(Rotulos(items, key));
    grouped := SortDesc(counter);
  }

  /** The counts add up to the number of items; each value's count is how many
      items carry it (missing or empty ones under `'Não definido'`); counts
      never increase; equal counts keep the order in which values were first met. */
  lemma GroupBySpec(items: seq<Registro>, key: string, v: string, c: nat)
    ensures Total(SortDesc(Tally(Rotulos(items, key)))) == |items|
    ensures CountOf(Tally(Rotulos(items, key)), v) == multiset(Rotulos(items, key))[v]
    ensures NonIncreasing(SortDesc(Tally(Rotulos(items, key))))
    ensures multiset(SortDesc(Tally(Rotulos(items, key)))) == multiset(Tally(Rotulos(items, key)))
    ensures WithCount(SortDesc(Tally(Rotulos(items, key))), c) == WithCount(Tally(Rotulos(items, key)), c)
    ensures KeysOf(Tally(Rotulos(items, key))) == Distinct(Rotulos(items, key))
  {
    var ls := Rotulos(items, key);
    TallyTotal(ls);
    TallyCount(ls, v);
    TallyKeys(ls);
    SortDescSorted(Tally(ls));
    SortDescStable(Tally(ls), c);
    SortDescTotal(Tally(ls));
  }

  // --------------------------------------------------------------------------
  // `processAllData`, without the calculated fields and the file writes.

  datatype Arquivo = Arquivo(nome: string, conteudo: string)

  predicate EhCSV(nome: string)
  {
    |nome| >= 4 && nome[|nome| - 4..] == ".csv"
  }

  /** `loadAllCSVs`: the records of every `.csv` file, file after file. */
  function TodosOsCSVs(arquivos: seq<Arquivo>, ps: Parsers): seq<Registro>
  {
    if arquivos == [] then []
    else
      var antes := TodosOsCSVs(arquivos[..|arquivos| - 1], ps);
      var a := arquivos[|arquivos| - 1];
      if EhCSV(a.nome) then antes + RegistrosCSV(a.conteudo, a.nome, ps) else antes
  }

  const NenhumFoco: string := "Nenhum foco encontrado para processar"

  /** `processAllData`: fails when no record was loaded, otherwise joins every
      record with the given tables. */
  method ProcessAllData(arquivos: seq<Arquivo>, dados: DadosEspaciais, ps: Parsers) returns (r: Result<seq<Registro>>)
    ensures r.Failure? <==> TodosOsCSVs(arquivos, ps) == []
    ensures r.Failure? ==> r.error == NenhumFoco
    ensures r.Success? ==> r.value == PerformSpatialJoins(TodosOsCSVs(arquivos, ps), dados)
  {
    var allFocos := [];
    var i := 0;
    while i < |arquivos|
      invariant 0 <= i <= |arquivos|
      invariant allFocos == TodosOsCSVs(arquivos[..i], ps)
    {
      assert arquivos[..i + 1][..i] == arquivos[..i];
      if EhCSV(arquivos[i].nome) {
        var focos := ParseCSV(arquivos[i].conteudo, arquivos[i].nome, ps);
        allFocos := allFocos + focos;
      }
      i := i + 1;
    }
    assert arquivos[..i] == arquivos;
    if |allFocos| == 0 {
      return Failure(NenhumFoco);
    }
    r := Success(PerformSpatialJoins(allFocos, dados));
  }
}
