/** `DataLoader`: the browser's loading of the processed JSON files through a
    URL-keyed cache with bounded retry, the validation of loaded records,
    their statistics and the summary of leaders. */
module CarregadorDados {
  import opened Common
  import opened Seqs
  import opened Tallies
  import opened Json

  // --------------------------------------------------------------------------
  // Validation (`validarDados`).

  const ErroNaoArray: string := "Dados devem ser um array"

  /** `['latitude', 'longitude'].every(campo => foco.hasOwnProperty(campo) &&
      !isNaN(parseFloat(foco[campo])))`. */
  predicate CoordenadasValidas(foco: Objeto, js: Js)
  {
    && "latitude" in foco && ParseFloatJ(Some(foco["latitude"]), js).Some?
    && "longitude" in foco && ParseFloatJ(Some(foco["longitude"]), js).Some?
  }

  /** `validarDados`; `None` stands for any value that is not an array. */
  function ValidarDados(dados: Option<seq<Objeto>>, js: Js): (r: Result<seq<Objeto>>)
    ensures dados.None? <==> r.Failure?
    ensures r.Failure? ==> r.error == ErroNaoArray
    ensures r.Success? ==> |r.value| <= |dados.value|
    ensures r.Success? ==> forall k :: 0 <= k < |r.value| ==> CoordenadasValidas(r.value[k], js) && r.value[k] in dados.value
    ensures r.Success? ==> forall k :: 0 <= k < |dados.value| && CoordenadasValidas(dados.value[k], js) ==> dados.value[k] in r.value
  {
    if dados.None? then Failure(ErroNaoArray)
    else Success(Filter(dados.value, foco => CoordenadasValidas(foco, js)))
  }

  /** The valid records keep their order, and nothing is removed from a list
      of valid records. */
  lemma ValidarDadosPreservaOrdem(dados: seq<Objeto>, js: Js)
    ensures ValidarDados(Some(dados), js).Success?
    ensures IsSubsequence(ValidarDados(Some(dados), js).value, dados)
    ensures (forall k :: 0 <= k < |dados| ==> CoordenadasValidas(dados[k], js)) ==> ValidarDados(Some(dados), js).value == dados
  {
    FilterIsSubsequence(dados, foco => CoordenadasValidas(foco, js));
    if forall k :: 0 <= k < |dados| ==> CoordenadasValidas(dados[k], js) {
      FilterKeepsAll(dados, foco => CoordenadasValidas(foco, js));
    }
  }

  // --------------------------------------------------------------------------
  // Statistics (`calcularEstatisticas`, without the monthly periods) and the
  // summary (`obterResumo`, without its timestamp).

  const NaoIdentificado: string := "Não identificado"

  datatype Estatisticas = Estatisticas(total: nat, municipios: Counter, biomas: Counter, satelites: Counter)

  function EstatisticasDe(dados: seq<Objeto>, js: Js): Estatisticas
  {
    Estatisticas(|dados|,
      Tally(Rotulos(dados, "municipio", NaoIdentificado, js)),
      Tally(Rotulos(dados, "bioma", NaoIdentificado, js)),
      Tally(Rotulos(dados, "satelite", NaoIdentificado, js)))
  }

  /** `calcularEstatisticas`: one `forEach` updating three counters. */
  method CalcularEstatisticas(dados: seq<Objeto>, js: Js) returns (stats: Estatisticas)
    ensures stats == EstatisticasDe(dados, js)
  {
    if |dados| == 0 {
      return Estatisticas(0, [], [], []);
    }
    stats := Estatisticas(|dados|, [], [], []);
    var i := 0;
    while i < |dados|
      invariant 0 <= i <= |dados|
      invariant stats.total == |dados|
      invariant stats.municipios == Tally(Rotulos(dados[..i], "municipio", NaoIdentificado, js))
      invariant stats.biomas == Tally(Rotulos(dados[..i], "bioma", NaoIdentificado, js))
      invariant stats.satelites == Tally(Rotulos(dados[..i], "satelite", NaoIdentificado, js))
    {
      var foco := dados[i];
      RotulosPasso(dados, i, "municipio", NaoIdentificado, js);
      RotulosPasso(dados, i, "bioma", NaoIdentificado, js);
      RotulosPasso(dados, i, "satelite", NaoIdentificado, js);
      stats := stats.(
        municipios := Increment(stats.municipios, Rotulo(foco, "municipio", NaoIdentificado, js)),
        biomas := Increment(stats.biomas, Rotulo(foco, "bioma", NaoIdentificado, js)),
        satelites := Increment(stats.satelites, Rotulo(foco, "satelite", NaoIdentificado, js)));
      i := i + 1;
    }
    assert dados[..i] == dados;
  }

  /** No records give a zero total and empty counters; otherwise each counter
      sums to the total, which is the number of records. */
  lemma EstatisticasSomam(dados: seq<Objeto>, js: Js)
    ensures dados == [] ==> EstatisticasDe(dados, js) == Estatisticas(0, [], [], [])
    ensures EstatisticasDe(dados, js).total == |dados|
    ensures Total(EstatisticasDe(dados, js).municipios) == |dados|
    ensures Total(EstatisticasDe(dados, js).biomas) == |dados|
    ensures Total(EstatisticasDe(dados, js).satelites) == |dados|
  {
    TallyTotal(Rotulos(dados, "municipio", NaoIdentificado, js));
    TallyTotal(Rotulos(dados, "bioma", NaoIdentificado, js));
    TallyTotal(Rotulos(dados, "satelite", NaoIdentificado, js));
  }

  datatype Resumo = Resumo(total: nat, municipioLider: string, biomaPredominante: string, satelitePrincipal: string)

  /** `obterResumo`. */
  method ObterResumo(dados: seq<Objeto>, js: Js) returns (r: Resumo)
    ensures r.total == |dados|
    ensures var stats := EstatisticasDe(dados, js);
      r == Resumo(stats.total, Leader(stats.municipios), Leader(stats.biomas), Leader(stats.satelites))
  {
    var stats := CalcularEstatisticas(dados, js);
    r := Resumo(stats.total, Leader(stats.municipios), Leader(stats.biomas), Leader(stats.satelites));
  }

  /** Each leader of the summary is `'N/A'` when there are no records, and
      otherwise the first label, in order of first appearance, with the largest
      count (or `'N/A'` if that label is the empty string). */
  lemma ResumoLideres(dados: seq<Objeto>, js: Js, campo: string)
    ensures var t := Tally(Rotulos(dados, campo, NaoIdentificado, js));
      && (dados == [] ==> Leader(t) == NotAvailable)
      && (dados != [] ==>
            t != [] &&
            var i := FirstMaxIndex(t);
            && (forall j :: 0 <= j < |t| ==> t[j].count <= t[i].count)
            && (forall j :: 0 <= j < i ==> t[j].count < t[i].count)
            && Leader(t) == (if t[i].key == "" then NotAvailable else t[i].key))
  {
    var ls := Rotulos(dados, campo, NaoIdentificado, js);
    var t := Tally(ls);
    TallyTotal(ls);
    LeaderIsFirstMaximum(t);
  }

  // --------------------------------------------------------------------------
  // Loading through the cache (`carregarArquivo`, `limparCache`).

  /** `n` copies of `url`. */
  function Repetir(url: string, n: nat): (r: seq<string>)
    ensures |r| == n
    ensures forall k :: 0 <= k < n ==> r[k] == url
  {
    if n == 0 then [] else [url] + Repetir(url, n - 1)
  }

  class DataLoader {
    const baseUrl: string
    const retryCount: nat
    /** The outcome of a request: the URL asked for, and how many requests
        came before it. A failure stands for a network error, an HTTP status
        that is not ok, and a body that is not JSON alike. */
    const fetch: (string, nat) -> Result<Json>
    var cache: map<string, Json>
    /** Every URL requested so far, in order: the part of the network's state
        that its answers are allowed to depend on. */
    var pedidos: seq<string>

    constructor(fetch: (string, nat) -> Result<Json>)
      ensures baseUrl == "./src/data/processed/" && retryCount == 3
      ensures this.fetch == fetch
      ensures cache == map[] && pedidos == []
    {
      baseUrl := "./src/data/processed/";
      retryCount := 3;
      this.fetch := fetch;
      cache := map[];
      pedidos := [];
    }

    /** The outcome of the attempts from `tentativa` on, when `feitos`
        requests came before, and how many requests they make. */
    function Tentativas(url: string, tentativa: nat, feitos: nat): (r: (Result<Json>, nat))
      ensures 1 <= r.1
      ensures tentativa < retryCount ==> r.1 <= retryCount - tentativa + 1
      ensures tentativa >= retryCount ==> r.1 == 1
      decreases retryCount - tentativa
    {
      match fetch(url, feitos)
      case Success(d) => (Success(d), 1)
      case Failure(e) =>
        if tentativa < retryCount then
          var r := Tentativas(url, tentativa + 1, feitos + 1);
          (r.0, r.1 + 1)
        else (Failure(e), 1)
    }

    /** `carregarArquivo`: a cached URL is answered from the cache without a
        request; otherwise the request is retried while attempts remain, and
        the first success is cached. */
    method CarregarArquivo(nomeArquivo: string, tentativa: nat) returns (r: Result<Json>)
      modifies this
      ensures var url := baseUrl + nomeArquivo;
        url in old(cache) ==> r == Success(old(cache)[url]) && cache == old(cache) && pedidos == old(pedidos)
      ensures var url := baseUrl + nomeArquivo;
        url !in old(cache) ==>
          var t := Tentativas(url, tentativa, |old(pedidos)|);
          && r == t.0
          && pedidos == old(pedidos) + Repetir(url, t.1)
          && cache == (if t.0.Success? then old(cache)[url := t.0.value] else old(cache))
      decreases retryCount - tentativa
    {
      var url := baseUrl + nomeArquivo;
      if url in cache {
        return Success(cache[url]);
      }
      var resposta := fetch(url, |pedidos|);
      pedidos := pedidos + [url];
      match resposta {
        case Success(dados) =>
          cache := cache[url := dados];
          r := Success(dados);
        case Failure(e) =>
          if tentativa < retryCount {
            r := CarregarArquivo(nomeArquivo, tentativa + 1);
            assert [url] + Repetir(url, Tentativas(url, tentativa + 1, |old(pedidos)| + 1).1)
                == Repetir(url, Tentativas(url, tentativa + 1, |old(pedidos)| + 1).1 + 1);
          } else {
            r := Failure(e);
          }
      }
    }

    /** `limparCache`. */
    method LimparCache()
      modifies this
      ensures cache == map[]
      ensures pedidos == old(pedidos)
    {
      cache := map[];
    }
  }

  /** A URL whose every request fails is requested exactly `retryCount` times
      from the first attempt, and the load fails. */
  lemma {:induction false} FalhaPersistente(l: DataLoader, url: string, tentativa: nat, feitos: nat)
    requires 1 <= tentativa <= l.retryCount
    requires forall k :: feitos <= k ==> l.fetch(url, k).Failure?
    ensures l.Tentativas(url, tentativa, feitos).0.Failure?
    ensures l.Tentativas(url, tentativa, feitos).1 == l.retryCount - tentativa + 1
    decreases l.retryCount - tentativa
  {
    if tentativa < l.retryCount {
      FalhaPersistente(l, url, tentativa + 1, feitos + 1);
    }
  }
}
