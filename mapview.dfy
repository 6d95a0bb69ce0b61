/** `MapHandler`: which style a focus marker gets from its confidence, which
    class a cluster icon gets from its size, the list of markers it keeps,
    and the bounds it fits the view to. */
module Mapa {
  import opened Common
  import opened Seqs
  import opened Json

  datatype Estilo = Estilo(color: string, fillColor: string, radius: nat)

  const BaixaConfianca: Estilo := Estilo("#fbbf24", "#fde047", 4)
  const MediaConfianca: Estilo := Estilo("#f97316", "#fb923c", 5)
  const AltaConfianca: Estilo := Estilo("#dc2626", "#f87171", 6)

  /** `parseInt(foco.confianca || foco.confidence || 50)`. */
  function ConfiancaDe(foco: Objeto, js: Js): Option<int>
  {
    ParseIntJ(Ou(Campo(foco, "confianca"), Ou(Campo(foco, "confidence"), Some(JNumber(50.0)))), js)
  }

  /** The tier chosen in `criarMarkerFoco`; `NaN` (`None`) fails both tests. */
  function EstiloPorConfianca(confianca: Option<int>): (e: Estilo)
    ensures e == AltaConfianca <==> confianca.Some? && confianca.value >= 80
    ensures e == MediaConfianca <==> confianca.Some? && 50 <= confianca.value < 80
    ensures e == BaixaConfianca <==> confianca.None? || confianca.value < 50
  {
    if confianca.Some? && confianca.value >= 80 then AltaConfianca
    else if confianca.Some? && confianca.value >= 50 then MediaConfianca
    else BaixaConfianca
  }

  /** A record with neither a truthy `confianca` nor a truthy `confidence`
      is drawn in the medium tier. */
  lemma ConfiancaAusenteEhMedia(foco: Objeto, js: Js)
    requires !("confianca" in foco && Truthy(foco["confianca"]))
    requires !("confidence" in foco && Truthy(foco["confidence"]))
    ensures ConfiancaDe(foco, js) == Some(50)
    ensures EstiloPorConfianca(ConfiancaDe(foco, js)) == MediaConfianca
  {
  }

  function Nivel(e: Estilo): nat
  {
    if e == AltaConfianca then 2 else if e == MediaConfianca then 1 else 0
  }

  /** More confidence never gives a lower tier, and the radius grows with the tier. */
  lemma EstiloMonotono(a: int, b: int)
    requires a <= b
    ensures Nivel(EstiloPorConfianca(Some(a))) <= Nivel(EstiloPorConfianca(Some(b)))
    ensures EstiloPorConfianca(Some(a)).radius <= EstiloPorConfianca(Some(b)).radius
  {
  }

  /** The class `iconCreateFunction` gives a cluster of `count` markers. */
  function ClasseCluster(count: int): (c: string)
    ensures c == "cluster-large" <==> count > 100
    ensures c == "cluster-medium" <==> 10 < count <= 100
    ensures c == "cluster-small" <==> count <= 10
  {
    if count > 100 then "cluster-large" else if count > 10 then "cluster-medium" else "cluster-small"
  }

  // --------------------------------------------------------------------------
  // Markers (`criarMarkerFoco`, `adicionarFocos`, `limparFocos`).

  /** What the model keeps of a Leaflet circle marker. */
  datatype Marker = Marker(lat: real, lng: real, estilo: Estilo)

  /** `parseFloat(foco.latitude || foco.lat)`. */
  function LatitudeDe(foco: Objeto, js: Js): Option<real>
  {
    ParseFloatJ(Ou(Campo(foco, "latitude"), Campo(foco, "lat")), js)
  }

  /** `parseFloat(foco.longitude || foco.lng || foco.lon)`. */
  function LongitudeDe(foco: Objeto, js: Js): Option<real>
  {
    ParseFloatJ(Ou(Campo(foco, "longitude"), Ou(Campo(foco, "lng"), Campo(foco, "lon"))), js)
  }

  /** Neither coordinate is `NaN`. */
  predicate TemCoordenadas(foco: Objeto, js: Js)
  {
    LatitudeDe(foco, js).Some? && LongitudeDe(foco, js).Some?
  }

  /** `criarMarkerFoco`: no marker unless both coordinates parse; the marker
      sits at the parsed point in the tier of the record's confidence. */
  function MarkerDe(foco: Objeto, js: Js): (m: Option<Marker>)
    ensures m.None? <==> !TemCoordenadas(foco, js)
    ensures m.Some? ==> m.value.lat == LatitudeDe(foco, js).value && m.value.lng == LongitudeDe(foco, js).value
    ensures m.Some? ==> m.value.estilo == EstiloPorConfianca(ConfiancaDe(foco, js))
  {
    var lat := LatitudeDe(foco, js);
    var lng := LongitudeDe(foco, js);
    if lat.None? || lng.None? then None
    else Some(Marker(lat.value, lng.value, EstiloPorConfianca(ConfiancaDe(foco, js))))
  }

  function MarkerCom(js: Js): Objeto -> Option<Marker>
  {
    foco => MarkerDe(foco, js)
  }

  /** The markers of a list of records, in order. */
  function Markers(focos: seq<Objeto>, js: Js): seq<Marker>
  {
    FilterMap(focos, MarkerCom(js))
  }

  /** There is one marker per record whose coordinates parse, and each marker
      comes from such a record. */
  lemma MarkersSpec(focos: seq<Objeto>, js: Js)
    ensures |Markers(focos, js)| == |Filter(focos, foco => TemCoordenadas(foco, js))|
    ensures forall k :: 0 <= k < |Markers(focos, js)| ==> exists i :: 0 <= i < |focos| && MarkerDe(focos[i], js) == Some(Markers(focos, js)[k])
    ensures forall i :: 0 <= i < |focos| && TemCoordenadas(focos[i], js) ==> MarkerDe(focos[i], js).value in Markers(focos, js)
  {
    FilterMapCount(focos, MarkerCom(js), foco => TemCoordenadas(foco, js));
  }

  class MapHandler {
    var markers: seq<Marker>

    constructor()
      ensures markers == []
    {
      markers := [];
    }

    /** `limparFocos`. */
    method LimparFocos()
      modifies this
      ensures markers == []
    {
      markers := [];
    }

    /** `adicionarFocos`: clears the markers, then adds one for each record
        whose coordinates parse. */
    method AdicionarFocos(focos: seq<Objeto>, js: Js)
      modifies this
      ensures markers == Markers(focos, js)
    {
      LimparFocos();
      if |focos| == 0 {
        return;
      }
      var i := 0;
      while i < |focos|
        invariant 0 <= i <= |focos|
        invariant markers == FilterMap(focos[..i], MarkerCom(js))
      {
        FilterMapPrefix(focos, i, MarkerCom(js));
        var marker := MarkerDe(focos[i], js);
        assert MarkerCom(js)(focos[i]) == marker;
        if marker.Some? {
          markers := markers + [marker.value];
        }
        i := i + 1;
      }
      assert focos[..i] == focos;
    }
  }

  // --------------------------------------------------------------------------
  // View bounds (`ajustarVisualizacao`).

  function Minimo(xs: seq<real>): (m: real)
    requires xs != []
    ensures m in xs
    ensures forall k :: 0 <= k < |xs| ==> m <= xs[k]
  {
    if |xs| == 1 then xs[0]
    else
      var r := Minimo(xs[1..]);
      assert forall k :: 1 <= k < |xs| ==> xs[k] == xs[1..][k - 1];
      if xs[0] <= r then xs[0] else r
  }

  function Maximo(xs: seq<real>): (m: real)
    requires xs != []
    ensures m in xs
    ensures forall k :: 0 <= k < |xs| ==> xs[k] <= m
  {
    if |xs| == 1 then xs[0]
    else
      var r := Maximo(xs[1..]);
      assert forall k :: 1 <= k < |xs| ==> xs[k] == xs[1..][k - 1];
      if xs[0] >= r then xs[0] else r
  }

  function CoordenadaCom(campo: string, js: Js): Objeto -> Option<real>
  {
    foco => ParseFloatJ(Campo(foco, campo), js)
  }

  /** `focos.map(f => parseFloat(f[campo])).filter(x => !isNaN(x))`. */
  function Coordenadas(focos: seq<Objeto>, campo: string, js: Js): seq<real>
  {
    FilterMap(focos, CoordenadaCom(campo, js))
  }

  datatype Limites = Limites(sul: real, oeste: real, norte: real, leste: real)

  /** The bounds `ajustarVisualizacao` fits the map to, if any. */
  function LimitesDe(focos: seq<Objeto>, js: Js): Option<Limites>
  {
    var lats := Coordenadas(focos, "latitude", js);
    var lngs := Coordenadas(focos, "longitude", js);
    if focos == [] || lats == [] || lngs == [] then None
    else Some(Limites(Minimo(lats), Minimo(lngs), Maximo(lats), Maximo(lngs)))
  }

  /** The bounds hold every parseable latitude and longitude, each edge is
      one of them, and there are bounds exactly when some latitude and some
      longitude parse. */
  lemma LimitesContem(focos: seq<Objeto>, js: Js)
    ensures LimitesDe(focos, js).None? <==>
      (forall i :: 0 <= i < |focos| ==> ParseFloatJ(Campo(focos[i], "latitude"), js).None?) ||
      (forall i :: 0 <= i < |focos| ==> ParseFloatJ(Campo(focos[i], "longitude"), js).None?)
    ensures LimitesDe(focos, js).Some? ==>
      var b := LimitesDe(focos, js).value;
      && (forall i :: 0 <= i < |focos| && ParseFloatJ(Campo(focos[i], "latitude"), js).Some? ==>
            b.sul <= ParseFloatJ(Campo(focos[i], "latitude"), js).value <= b.norte)
      && (forall i :: 0 <= i < |focos| && ParseFloatJ(Campo(focos[i], "longitude"), js).Some? ==>
            b.oeste <= ParseFloatJ(Campo(focos[i], "longitude"), js).value <= b.leste)
      && b.sul in Coordenadas(focos, "latitude", js) && b.norte in Coordenadas(focos, "latitude", js)
      && b.oeste in Coordenadas(focos, "longitude", js) && b.leste in Coordenadas(focos, "longitude", js)
  {
    var lats := Coordenadas(focos, "latitude", js);
    var lngs := Coordenadas(focos, "longitude", js);
    assert forall i :: 0 <= i < |focos| ==> CoordenadaCom("latitude", js)(focos[i]) == ParseFloatJ(Campo(focos[i], "latitude"), js);
    assert forall i :: 0 <= i < |focos| ==> CoordenadaCom("longitude", js)(focos[i]) == ParseFloatJ(Campo(focos[i], "longitude"), js);
    if lats != [] && lngs != [] {
      var b := LimitesDe(focos, js).value;
      forall i | 0 <= i < |focos| && ParseFloatJ(Campo(focos[i], "latitude"), js).Some?
        ensures b.sul <= ParseFloatJ(Campo(focos[i], "latitude"), js).value <= b.norte
      {
        var x := ParseFloatJ(Campo(focos[i], "latitude"), js).value;
        assert x in lats;
        var k :| 0 <= k < |lats| && lats[k] == x;
      }
      forall i | 0 <= i < |focos| && ParseFloatJ(Campo(focos[i], "longitude"), js).Some?
        ensures b.oeste <= ParseFloatJ(Campo(focos[i], "longitude"), js).value <= b.leste
      {
        var x := ParseFloatJ(Campo(focos[i], "longitude"), js).value;
        assert x in lngs;
        var k :| 0 <= k < |lngs| && lngs[k] == x;
      }
    } else if lats == [] {
      assert forall i :: 0 <= i < |focos| ==> ParseFloatJ(Campo(focos[i], "latitude"), js).None?;
    } else {
      assert forall i :: 0 <= i < |focos| ==> ParseFloatJ(Campo(focos[i], "longitude"), js).None?;
    }
  }
}
