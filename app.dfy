/** `DashboardFocosCalor`: the dashboard's filter state, the filtered view it
    keeps of the loaded records, its headline statistics and the option
    lists of its filter menus. */
module Painel {
  import opened Common
  import opened Seqs
  import opened Tallies
  import opened Json

  const Todos: string := "todos"

  datatype Filtros = Filtros(municipio: string, bioma: string, satelite: string, periodo: string)

  const FiltrosIniciais: Filtros := Filtros(Todos, Todos, Todos, Todos)

  /** The four menus whose `change` handler sets a filter. */
  datatype Propriedade = Municipio | Bioma | Satelite | Periodo

  function Atualizar(f: Filtros, p: Propriedade, valor: string): Filtros
  {
    match p
    case Municipio => f.(municipio := valor)
    case Bioma => f.(bioma := valor)
    case Satelite => f.(satelite := valor)
    case Periodo => f.(periodo := valor)
  }

  /** `d[campo] === valor`, with a menu value that is always text. */
  predicate Igual(d: Objeto, campo: string, valor: string)
  {
    campo in d && d[campo] == JString(valor)
  }

  function Corresponde(campo: string, valor: string): Objeto -> bool
  {
    d => Igual(d, campo, valor)
  }

  /** One filter step of `aplicarFiltros`. */
  function FiltrarCampo(dados: seq<Objeto>, campo: string, valor: string): seq<Objeto>
  {
    if valor != Todos then Filter(dados, Corresponde(campo, valor)) else dados
  }

  /** The records `aplicarFiltros` keeps: the municipality, biome and satellite
      filters in turn. The period filter is never read. */
  function Filtrados(dados: seq<Objeto>, f: Filtros): seq<Objeto>
  {
    FiltrarCampo(FiltrarCampo(FiltrarCampo(dados, "municipio", f.municipio), "bioma", f.bioma), "satelite", f.satelite)
  }

  /** A record passes the filters when it matches each of them that is set. */
  predicate Aceita(f: Filtros, d: Objeto)
  {
    && (f.municipio == Todos || Igual(d, "municipio", f.municipio))
    && (f.bioma == Todos || Igual(d, "bioma", f.bioma))
    && (f.satelite == Todos || Igual(d, "satelite", f.satelite))
  }

  lemma FiltrarCampoComoFiltro(dados: seq<Objeto>, campo: string, valor: string)
    ensures FiltrarCampo(dados, campo, valor) == Filter(dados, d => valor == Todos || Igual(d, campo, valor))
  {
    if valor == Todos {
      FilterKeepsAll(dados, d => valor == Todos || Igual(d, campo, valor));
    } else {
      FilterSame(dados, Corresponde(campo, valor), d => valor == Todos || Igual(d, campo, valor));
    }
  }

  /** The three filters in a row are one pass with their conjunction. */
  lemma FiltradosUmaPassagem(dados: seq<Objeto>, f: Filtros)
    ensures Filtrados(dados, f) == Filter(dados, d => Aceita(f, d))
  {
    var pm := d => f.municipio == Todos || Igual(d, "municipio", f.municipio);
    var pb := d => f.bioma == Todos || Igual(d, "bioma", f.bioma);
    var ps := d => f.satelite == Todos || Igual(d, "satelite", f.satelite);
    var pmb := d => pm(d) && pb(d);
    FiltrarCampoComoFiltro(dados, "municipio", f.municipio);
    var a := Filter(dados, pm);
    FiltrarCampoComoFiltro(a, "bioma", f.bioma);
    FilterFilter(dados, pm, pb, pmb);
    var b := Filter(dados, pmb);
    FiltrarCampoComoFiltro(b, "satelite", f.satelite);
    FilterFilter(dados, pmb, ps, d => Aceita(f, d));
  }

  /** What the filtered view is: an order-preserving selection of the records,
      holding exactly the records that match every filter that is set; with
      no filter set it is all the records, and the period filter changes
      nothing. */
  lemma FiltradosSpec(dados: seq<Objeto>, f: Filtros, periodo: string)
    ensures IsSubsequence(Filtrados(dados, f), dados)
    ensures forall k :: 0 <= k < |Filtrados(dados, f)| ==> Aceita(f, Filtrados(dados, f)[k])
    ensures forall k :: 0 <= k < |dados| && Aceita(f, dados[k]) ==> dados[k] in Filtrados(dados, f)
    ensures f.municipio == Todos && f.bioma == Todos && f.satelite == Todos ==> Filtrados(dados, f) == dados
    ensures Filtrados(dados, f.(periodo := periodo)) == Filtrados(dados, f)
  {
    FiltradosUmaPassagem(dados, f);
    FilterIsSubsequence(dados, d => Aceita(f, d));
  }

  // --------------------------------------------------------------------------
  // Headline statistics (`calcularEstatisticas`).

  /** `d[campo]` used directly as a key: a missing field is `"undefined"`. */
  function ChavesBrutas(dados: seq<Objeto>, campo: string, js: Js): (ks: seq<string>)
    ensures |ks| == |dados|
    ensures forall i :: 0 <= i < |dados| ==> ks[i] == Chave(Campo(dados[i], campo), js)
  {
    seq(|dados|, i requires 0 <= i < |dados| => Chave(Campo(dados[i], campo), js))
  }

  lemma ChavesBrutasPasso(dados: seq<Objeto>, i: nat, campo: string, js: Js)
    requires i < |dados|
    ensures ChavesBrutas(dados[..i + 1], campo, js) == ChavesBrutas(dados[..i], campo, js) + [Chave(Campo(dados[i], campo), js)]
  {
    assert dados[..i + 1][..i] == dados[..i];
  }

  datatype Destaques = Destaques(total: nat, municipioLider: string, biomaPredominante: string, satelitePrincipal: string)

  function DestaquesDe(dados: seq<Objeto>, js: Js): Destaques
  {
    if dados == [] then Destaques(0, NotAvailable, NotAvailable, NotAvailable)
    else Destaques(|dados|,
      Leader(Tally(ChavesBrutas(dados, "municipio", js))),
      Leader(Tally(ChavesBrutas(dados, "bioma", js))),
      Leader(Tally(ChavesBrutas(dados, "satelite", js))))
  }

  /** For no records every leader is `'N/A'`; otherwise the total is the
      number of records and each leader is the first key with the largest
      count. */
  lemma DestaquesSpec(dados: seq<Objeto>, js: Js, campo: string)
    ensures dados == [] ==> DestaquesDe(dados, js) == Destaques(0, NotAvailable, NotAvailable, NotAvailable)
    ensures DestaquesDe(dados, js).total == |dados|
    ensures dados != [] ==>
      var t := Tally(ChavesBrutas(dados, campo, js));
      && t != []
      && (forall j :: 0 <= j < |t| ==> t[j].count <= t[FirstMaxIndex(t)].count)
      && (forall j :: 0 <= j < FirstMaxIndex(t) ==> t[j].count < t[FirstMaxIndex(t)].count)
      && Leader(t) == (if t[FirstMaxIndex(t)].key == "" then NotAvailable else t[FirstMaxIndex(t)].key)
      && Total(t) == |dados|
  {
    var t := Tally(ChavesBrutas(dados, campo, js));
    TallyTotal(ChavesBrutas(dados, campo, js));
    LeaderIsFirstMaximum(t);
  }

  // --------------------------------------------------------------------------
  // Filter menus (`popularFiltroMunicipios`, `popularFiltroBiomas`,
  // `popularFiltroSatelites`).

  /** Code-point order on text, as the default `sort` compares strings. */
  predicate Le(a: string, b: string)
  {
    a == [] || (b != [] && (a[0] < b[0] || (a[0] == b[0] && Le(a[1..], b[1..]))))
  }

  lemma {:induction false} LeTotal(a: string, b: string)
    ensures Le(a, b) || Le(b, a)
  {
    if a != [] && b != [] && a[0] == b[0] {
      LeTotal(a[1..], b[1..]);
    }
  }

  lemma {:induction false} LeTransitive(a: string, b: string, c: string)
    requires Le(a, b) && Le(b, c)
    ensures Le(a, c)
  {
    if a != [] && b != [] && c != [] && a[0] == b[0] && b[0] == c[0] {
      LeTransitive(a[1..], b[1..], c[1..]);
    }
  }

  /** Puts `x` before the first element whose text is not smaller. */
  function InserirOrdenado(x: Json, s: seq<Json>, js: Js): (r: seq<Json>)
    ensures |r| == |s| + 1
    ensures multiset(r) == multiset(s) + multiset{x}
  {
    if s == [] then [x]
    else if Le(ToStr(x, js), ToStr(s[0], js)) then [x] + s
    else
      assert s == [s[0]] + s[1..];
      [s[0]] + InserirOrdenado(x, s[1..], js)
  }

  /** `Array.prototype.sort()` without a comparator: by text, stable. */
  function Ordenar(s: seq<Json>, js: Js): (r: seq<Json>)
    ensures multiset(r) == multiset(s)
  {
    if s == [] then []
    else
      assert s == [s[0]] + s[1..];
      InserirOrdenado(s[0], Ordenar(s[1..], js), js)
  }

  ghost predicate Ordenado(s: seq<Json>, js: Js)
  {
    forall i, j :: 0 <= i < j < |s| ==> Le(ToStr(s[i], js), ToStr(s[j], js))
  }

  lemma {:induction false} InserirOrdenadoLimite(x: Json, s: seq<Json>, js: Js, b: string)
    requires Le(b, ToStr(x, js))
    requires forall i :: 0 <= i < |s| ==> Le(b, ToStr(s[i], js))
    ensures forall i :: 0 <= i < |InserirOrdenado(x, s, js)| ==> Le(b, ToStr(InserirOrdenado(x, s, js)[i], js))
  {
    if s != [] && !Le(ToStr(x, js), ToStr(s[0], js)) {
      InserirOrdenadoLimite(x, s[1..], js, b);
    }
  }

  lemma {:induction false} InserirOrdenadoOrdena(x: Json, s: seq<Json>, js: Js)
    requires Ordenado(s, js)
    ensures Ordenado(InserirOrdenado(x, s, js), js)
  {
    if s != [] {
      if Le(ToStr(x, js), ToStr(s[0], js)) {
        forall j | 0 <= j < |s| ensures Le(ToStr(x, js), ToStr(s[j], js)) {
          if j > 0 {
            LeTransitive(ToStr(x, js), ToStr(s[0], js), ToStr(s[j], js));
          }
        }
      } else {
        LeTotal(ToStr(x, js), ToStr(s[0], js));
        InserirOrdenadoOrdena(x, s[1..], js);
        InserirOrdenadoLimite(x, s[1..], js, ToStr(s[0], js));
      }
    }
  }

  lemma {:induction false} OrdenarOrdena(s: seq<Json>, js: Js)
    ensures Ordenado(Ordenar(s, js), js)
  {
    if s != [] {
      OrdenarOrdena(s[1..], js);
      InserirOrdenadoOrdena(s[0], Ordenar(s[1..], js), js);
    }
  }

  /** `d[campo]` when it is present and truthy. */
  function ValorVerdadeiro(campo: string): Objeto -> Option<Json>
  {
    d => if campo in d && Truthy(d[campo]) then Some(d[campo]) else None
  }

  /** `[...new Set(dados.map(d => d[campo]).filter(Boolean))].sort()`. */
  function Opcoes(dados: seq<Objeto>, campo: string, js: Js): seq<Json>
  {
    Ordenar(Distinct(FilterMap(dados, ValorVerdadeiro(campo))), js)
  }

  /** A menu is in text order and lists no value twice. */
  lemma OpcoesOrdenadas(dados: seq<Objeto>, campo: string, js: Js)
    ensures Ordenado(Opcoes(dados, campo, js), js)
    ensures forall i, j :: 0 <= i < j < |Opcoes(dados, campo, js)| ==> Opcoes(dados, campo, js)[i] != Opcoes(dados, campo, js)[j]
  {
    var ds := Distinct(FilterMap(dados, ValorVerdadeiro(campo)));
    OrdenarOrdena(ds, js);
    PermutationDistinct(ds, Opcoes(dados, campo, js));
  }

  /** A menu lists only truthy values of the field. */
  lemma OpcoesSoValores(dados: seq<Objeto>, campo: string, js: Js)
    ensures forall k :: 0 <= k < |Opcoes(dados, campo, js)| ==>
              Truthy(Opcoes(dados, campo, js)[k]) && exists i :: 0 <= i < |dados| && Campo(dados[i], campo) == Some(Opcoes(dados, campo, js)[k])
  {
    var ds := Distinct(FilterMap(dados, ValorVerdadeiro(campo)));
    var r := Opcoes(dados, campo, js);
    forall k | 0 <= k < |r| ensures Truthy(r[k]) && exists i :: 0 <= i < |dados| && Campo(dados[i], campo) == Some(r[k]) {
      assert r[k] in multiset(ds);
      var i :| 0 <= i < |dados| && ValorVerdadeiro(campo)(dados[i]) == Some(r[k]);
    }
  }

  /** A menu lists every truthy value of the field. */
  lemma OpcoesTodosValores(dados: seq<Objeto>, campo: string, js: Js)
    ensures forall i :: 0 <= i < |dados| && campo in dados[i] && Truthy(dados[i][campo]) ==> dados[i][campo] in Opcoes(dados, campo, js)
  {
    var ds := Distinct(FilterMap(dados, ValorVerdadeiro(campo)));
    var r := Opcoes(dados, campo, js);
    forall i | 0 <= i < |dados| && campo in dados[i] && Truthy(dados[i][campo]) ensures dados[i][campo] in r {
      assert ValorVerdadeiro(campo)(dados[i]).Some?;
      assert dados[i][campo] in multiset(ds);
    }
  }

  // --------------------------------------------------------------------------
  // The dashboard object.

  class DashboardFocosCalor {
    var dados: seq<Objeto>
    var dadosFiltrados: seq<Objeto>
    var filtros: Filtros

    constructor()
      ensures dados == [] && dadosFiltrados == [] && filtros == FiltrosIniciais
    {
      dados := [];
      dadosFiltrados := [];
      filtros := FiltrosIniciais;
    }

    /** `carregarDados`, given what the loader returned. */
    method CarregarDados(carregados: seq<Objeto>)
      modifies this
      ensures dados == carregados && dadosFiltrados == carregados
      ensures filtros == old(filtros)
    {
      dados := carregados;
      dadosFiltrados := carregados;
    }

    /** `aplicarFiltros`, without the map and chart refresh. */
    method AplicarFiltros()
      modifies this
      ensures dadosFiltrados == Filtrados(dados, filtros)
      ensures dados == old(dados) && filtros == old(filtros)
    {
      var f := filtros;
      var filtrados := dados;
      if f.municipio != Todos {
        filtrados := Filter(filtrados, Corresponde("municipio", f.municipio));
      }
      if f.bioma != Todos {
        filtrados := Filter(filtrados, Corresponde("bioma", f.bioma));
      }
      if f.satelite != Todos {
        filtrados := Filter(filtrados, Corresponde("satelite", f.satelite));
      }
      dadosFiltrados := filtrados;
    }

    /** The `change` handler of a filter menu. */
    method DefinirFiltro(p: Propriedade, valor: string)
      modifies this
      ensures filtros == Atualizar(old(filtros), p, valor)
      ensures dados == old(dados)
      ensures dadosFiltrados == Filtrados(dados, filtros)
    {
      filtros := Atualizar(filtros, p, valor);
      AplicarFiltros();
    }

    /** `resetarFiltros`: every filter back to `'todos'`, and the view shows
        every record. */
    method ResetarFiltros()
      modifies this
      ensures filtros == FiltrosIniciais
      ensures dados == old(dados)
      ensures dadosFiltrados == dados
    {
      filtros := FiltrosIniciais;
      AplicarFiltros();
      FiltradosSpec(dados, filtros, Todos);
    }

    /** `calcularEstatisticas`: one `forEach` counting raw field values. */
    method CalcularEstatisticas(lista: seq<Objeto>, js: Js) returns (d: Destaques)
      ensures d == DestaquesDe(lista, js)
    {
      if |lista| == 0 {
        return Destaques(0, NotAvailable, NotAvailable, NotAvailable);
      }
      var municipios: Counter := [];
      var biomas: Counter := [];
      var satelites: Counter := [];
      var i := 0;
      while i < |lista|
        invariant 0 <= i <= |lista|
        invariant municipios == Tally(ChavesBrutas(lista[..i], "municipio", js))
        invariant biomas == Tally(ChavesBrutas(lista[..i], "bioma", js))
        invariant satelites == Tally(ChavesBrutas(lista[..i], "satelite", js))
      {
        ChavesBrutasPasso(lista, i, "municipio", js);
        ChavesBrutasPasso(lista, i, "bioma", js);
        ChavesBrutasPasso(lista, i, "satelite", js);
        municipios := Increment(municipios, Chave(Campo(lista[i], "municipio"), js));
        biomas := Increment(biomas, Chave(Campo(lista[i], "bioma"), js));
        satelites := Increment(satelites, Chave(Campo(lista[i], "satelite"), js));
        i := i + 1;
      }
      assert lista[..i] == lista;
      d := Destaques(|lista|, Leader(municipios), Leader(biomas), Leader(satelites));
    }
  }
}
