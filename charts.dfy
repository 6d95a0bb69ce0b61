/** The data behind the dashboard's charts (`ChartHandler`): counters by
    municipality, biome and satellite, the top-ten municipality ranking, the
    two distributions, their fixed tables for when there is no data, and the
    three-year moving average of the yearly comparison. */
module Graficos {
  import opened Common
  import opened Seqs
  import opened Tallies
  import opened Json

  const NaoIdentificado: string := "Não identificado"

  /** The labels `foco[campo] || 'Não identificado'`. */
  function RotulosGrafico(dados: seq<Objeto>, campo: string, js: Js): seq<string>
  {
    Rotulos(dados, campo, NaoIdentificado, js)
  }

  /** `contarPorMunicipio`, `contarPorBioma` and `contarPorSatelite`, which
      differ only in the field they read. */
  method ContarPor(dados: seq<Objeto>, campo: string, js: Js) returns (contador: Counter)
    ensures contador == Tally(RotulosGrafico(dados, campo, js))
  {
    contador := [];
    var i := 0;
    while i < |dados|
      invariant 0 <= i <= |dados|
      invariant contador == Tally(RotulosGrafico(dados[..i], campo, js))
    {
      var rotulo := Rotulo(dados[i], campo, NaoIdentificado, js);
      RotulosPasso(dados, i, campo, NaoIdentificado, js);
      contador := Increment(contador, rotulo);
      i := i + 1;
    }
    assert dados[..i] == dados;
  }

  /** The counts add up to the number of records; a record whose field is
      missing or falsy is counted under `'Não identificado'`; the keys are the
      labels met, each once, in order of first appearance. */
  lemma ContarPorSpec(dados: seq<Objeto>, campo: string, js: Js, k: string)
    ensures Total(Tally(RotulosGrafico(dados, campo, js))) == |dados|
    ensures CountOf(Tally(RotulosGrafico(dados, campo, js)), k) == multiset(RotulosGrafico(dados, campo, js))[k]
    ensures forall i :: 0 <= i < |dados| && !(campo in dados[i] && Truthy(dados[i][campo])) ==>
              RotulosGrafico(dados, campo, js)[i] == NaoIdentificado
    ensures KeysOf(Tally(RotulosGrafico(dados, campo, js))) == Distinct(RotulosGrafico(dados, campo, js))
  {
    var ls := RotulosGrafico(dados, campo, js);
    TallyTotal(ls);
    TallyCount(ls, k);
    TallyKeys(ls);
  }

  /** What a chart receives: labels and values, index by index. */
  datatype Serie = Serie(labels: seq<string>, valores: seq<nat>)

  function SerieDe(t: Counter): (s: Serie)
    ensures |s.labels| == |s.valores| == |t|
    ensures forall i :: 0 <= i < |t| ==> t[i] == Entry(s.labels[i], s.valores[i])
  {
    Serie(KeysOf(t), CountsOf(t))
  }

  /** The table shown when there is no municipality data. */
  const RankingPadrao: Counter := [
    Entry("Balsas", 375), Entry("Timon", 185), Entry("Caxias", 172), Entry("Imperatriz", 95),
    Entry("São Luís", 68), Entry("Bacabal", 45), Entry("Codó", 38), Entry("Chapadinha", 29),
    Entry("Pinheiro", 21), Entry("Viana", 15)]

  const BiomasPadrao: Counter := [Entry("Cerrado", 764), Entry("Caatinga", 16), Entry("Amazônia", 8)]

  const SatelitesPadrao: Counter := [
    Entry("NOAA-21", 245), Entry("NPP-375D", 198), Entry("GOES-19", 156),
    Entry("TERRA_M-T", 123), Entry("METOP-C", 66)]

  const TamanhoRanking: nat := 10

  /** The counter a chart uses: the records' own, or the fixed table when
      there are none. */
  function ContadorOuPadrao(dados: seq<Objeto>, campo: string, js: Js, padrao: Counter): Counter
  {
    if |dados| > 0 then Tally(RotulosGrafico(dados, campo, js)) else padrao
  }

  /** `processarRankingMunicipios`: the ten largest counts, largest first. */
  method ProcessarRankingMunicipios(dados: seq<Objeto>, js: Js) returns (s: Serie)
    ensures s == SerieDe(Top(ContadorOuPadrao(dados, "municipio", js, RankingPadrao), TamanhoRanking))
  {
    var municipios := RankingPadrao;
    if |dados| > 0 {
      municipios := ContarPor(dados, "municipio", js);
    }
    s := SerieDe(Top(municipios, TamanhoRanking));
  }

  /** A ranking has at most ten entries, its values never increase, each
      label-value pair is an entry of the counter, and every entry left out
      is counted no more often than any entry kept. */
  lemma RankingValido(t: Counter)
    ensures |SerieDe(Top(t, TamanhoRanking)).labels| == |SerieDe(Top(t, TamanhoRanking)).valores| <= TamanhoRanking
    ensures forall i, j :: 0 <= i < j < |SerieDe(Top(t, TamanhoRanking)).valores| ==>
              SerieDe(Top(t, TamanhoRanking)).valores[i] >= SerieDe(Top(t, TamanhoRanking)).valores[j]
    ensures forall i :: 0 <= i < |SerieDe(Top(t, TamanhoRanking)).labels| ==>
              Entry(SerieDe(Top(t, TamanhoRanking)).labels[i], SerieDe(Top(t, TamanhoRanking)).valores[i]) in t
    ensures forall x, i :: x in t && x !in Top(t, TamanhoRanking) && 0 <= i < |SerieDe(Top(t, TamanhoRanking)).valores| ==>
              x.count <= SerieDe(Top(t, TamanhoRanking)).valores[i]
    ensures |t| >= TamanhoRanking ==> |SerieDe(Top(t, TamanhoRanking)).labels| == TamanhoRanking
  {
    TopIsRanking(t, TamanhoRanking);
  }

  lemma RankingPadraoOrdenado()
    ensures NonIncreasing(RankingPadrao)
  {
    assert RankingPadrao[0].count == 375 && RankingPadrao[1].count == 185 && RankingPadrao[2].count == 172;
    assert RankingPadrao[3].count == 95 && RankingPadrao[4].count == 68 && RankingPadrao[5].count == 45;
    assert RankingPadrao[6].count == 38 && RankingPadrao[7].count == 29 && RankingPadrao[8].count == 21;
    assert RankingPadrao[9].count == 15;
    NonIncreasingAdjacent(RankingPadrao);
  }

  lemma SeriePadrao()
    ensures SerieDe(RankingPadrao).labels == ["Balsas", "Timon", "Caxias", "Imperatriz", "São Luís", "Bacabal", "Codó", "Chapadinha", "Pinheiro", "Viana"]
    ensures SerieDe(RankingPadrao).valores == [375, 185, 172, 95, 68, 45, 38, 29, 21, 15]
  {
    assert KeysOf(RankingPadrao)[0] == ["Balsas", "Timon", "Caxias", "Imperatriz", "São Luís", "Bacabal", "Codó", "Chapadinha", "Pinheiro", "Viana"][0];
    assert KeysOf(RankingPadrao)[1] == ["Balsas", "Timon", "Caxias", "Imperatriz", "São Luís", "Bacabal", "Codó", "Chapadinha", "Pinheiro", "Viana"][1];
    assert KeysOf(RankingPadrao)[2] == ["Balsas", "Timon", "Caxias", "Imperatriz", "São Luís", "Bacabal", "Codó", "Chapadinha", "Pinheiro", "Viana"][2];
    assert KeysOf(RankingPadrao)[3] == ["Balsas", "Timon", "Caxias", "Imperatriz", "São Luís", "Bacabal", "Codó", "Chapadinha", "Pinheiro", "Viana"][3];
    assert KeysOf(RankingPadrao)[4] == ["Balsas", "Timon", "Caxias", "Imperatriz", "São Luís", "Bacabal", "Codó", "Chapadinha", "Pinheiro", "Viana"][4];
    assert KeysOf(RankingPadrao)[5] == ["Balsas", "Timon", "Caxias", "Imperatriz", "São Luís", "Bacabal", "Codó", "Chapadinha", "Pinheiro", "Viana"][5];
    assert KeysOf(RankingPadrao)[6] == ["Balsas", "Timon", "Caxias", "Imperatriz", "São Luís", "Bacabal", "Codó", "Chapadinha", "Pinheiro", "Viana"][6];
    assert KeysOf(RankingPadrao)[7] == ["Balsas", "Timon", "Caxias", "Imperatriz", "São Luís", "Bacabal", "Codó", "Chapadinha", "Pinheiro", "Viana"][7];
    assert KeysOf(RankingPadrao)[8] == ["Balsas", "Timon", "Caxias", "Imperatriz", "São Luís", "Bacabal", "Codó", "Chapadinha", "Pinheiro", "Viana"][8];
    assert KeysOf(RankingPadrao)[9] == ["Balsas", "Timon", "Caxias", "Imperatriz", "São Luís", "Bacabal", "Codó", "Chapadinha", "Pinheiro", "Viana"][9];
    assert CountsOf(RankingPadrao)[0] == 375;
    assert CountsOf(RankingPadrao)[1] == 185;
    assert CountsOf(RankingPadrao)[2] == 172;
    assert CountsOf(RankingPadrao)[3] == 95;
    assert CountsOf(RankingPadrao)[4] == 68;
    assert CountsOf(RankingPadrao)[5] == 45;
    assert CountsOf(RankingPadrao)[6] == 38;
    assert CountsOf(RankingPadrao)[7] == 29;
    assert CountsOf(RankingPadrao)[8] == 21;
    assert CountsOf(RankingPadrao)[9] == 15;
  }

  /** Without data the ranking is the fixed table, in its own order. */
  lemma RankingSemDados(js: Js)
    ensures SerieDe(Top(ContadorOuPadrao([], "municipio", js, RankingPadrao), TamanhoRanking)) ==
      Serie(["Balsas", "Timon", "Caxias", "Imperatriz", "São Luís", "Bacabal", "Codó", "Chapadinha", "Pinheiro", "Viana"],
            [375, 185, 172, 95, 68, 45, 38, 29, 21, 15])
  {
    RankingPadraoOrdenado();
    SortDescKeepsSorted(RankingPadrao);
    assert Top(RankingPadrao, TamanhoRanking) == RankingPadrao;
    SeriePadrao();
  }

  /** `processarDistribuicaoBiomas`: the counter's keys and values, in insertion order. */
  method ProcessarDistribuicaoBiomas(dados: seq<Objeto>, js: Js) returns (s: Serie)
    ensures s == SerieDe(ContadorOuPadrao(dados, "bioma", js, BiomasPadrao))
    ensures dados == [] ==> s == Serie(["Cerrado", "Caatinga", "Amazônia"], [764, 16, 8])
  {
    var biomas := BiomasPadrao;
    if |dados| > 0 {
      biomas := ContarPor(dados, "bioma", js);
    }
    s := SerieDe(biomas);
  }

  /** `processarDadosSatelites`. */
  method ProcessarDadosSatelites(dados: seq<Objeto>, js: Js) returns (s: Serie)
    ensures s == SerieDe(ContadorOuPadrao(dados, "satelite", js, SatelitesPadrao))
    ensures dados == [] ==> s == Serie(["NOAA-21", "NPP-375D", "GOES-19", "TERRA_M-T", "METOP-C"], [245, 198, 156, 123, 66])
  {
    var satelites := SatelitesPadrao;
    if |dados| > 0 {
      satelites := ContarPor(dados, "satelite", js);
    }
    s := SerieDe(satelites);
  }

  /** With records, a distribution lists each label once, in order of first
      appearance, with the number of records that carry it. */
  lemma DistribuicaoConta(dados: seq<Objeto>, campo: string, js: Js, padrao: Counter)
    requires |dados| > 0
    ensures SerieDe(ContadorOuPadrao(dados, campo, js, padrao)).labels == Distinct(RotulosGrafico(dados, campo, js))
    ensures forall i :: 0 <= i < |SerieDe(ContadorOuPadrao(dados, campo, js, padrao)).labels| ==>
              SerieDe(ContadorOuPadrao(dados, campo, js, padrao)).valores[i] ==
              multiset(RotulosGrafico(dados, campo, js))[SerieDe(ContadorOuPadrao(dados, campo, js, padrao)).labels[i]]
  {
    var ls := RotulosGrafico(dados, campo, js);
    var t := Tally(ls);
    TallyKeys(ls);
    forall i | 0 <= i < |t| ensures t[i].count == multiset(ls)[t[i].key] {
      assert forall a, b :: 0 <= a < b < |t| ==> t[a].key != t[b].key by {
        forall a, b | 0 <= a < b < |t| ensures t[a].key != t[b].key {
          assert KeysOf(t)[a] == t[a].key && KeysOf(t)[b] == t[b].key;
        }
      }
      CountOfAt(t, i);
      TallyCount(ls, t[i].key);
    }
  }

  /** The three-year moving average of `processarComparativoAnual`: `None`
      (`null`) for the first two years. */
  function MediaMovel(totais: seq<int>): (m: seq<Option<int>>)
    ensures |m| == |totais|
    ensures forall i :: 0 <= i < |totais| ==> (m[i].None? <==> i < 2)
    ensures forall i :: 2 <= i < |totais| ==>
      3 * m[i].value <= totais[i - 2] + totais[i - 1] + totais[i] < 3 * m[i].value + 3
  {
    seq(|totais|, i requires 0 <= i < |totais| =>
      if i < 2 then None else Some((totais[i - 2] + totais[i - 1] + totais[i]) / 3))
  }

  /** Each average lies between the smallest and the largest of its three
      years, and an average of counts is a count. */
  lemma MediaMovelEntreExtremos(totais: seq<int>, i: nat)
    requires 2 <= i < |totais|
    ensures var a, b, c := totais[i - 2], totais[i - 1], totais[i];
      && MediaMovel(totais)[i].Some?
      && (a <= b && a <= c ==> a <= MediaMovel(totais)[i].value)
      && (b <= a && b <= c ==> b <= MediaMovel(totais)[i].value)
      && (c <= a && c <= b ==> c <= MediaMovel(totais)[i].value)
      && (a >= b && a >= c ==> MediaMovel(totais)[i].value <= a)
      && (b >= a && b >= c ==> MediaMovel(totais)[i].value <= b)
      && (c >= a && c >= b ==> MediaMovel(totais)[i].value <= c)
    ensures (forall k :: 0 <= k < |totais| ==> totais[k] >= 0) ==> MediaMovel(totais)[i].value >= 0
  {
    var a, b, c := totais[i - 2], totais[i - 1], totais[i];
    var m := (a + b + c) / 3;
    assert 3 * m <= a + b + c < 3 * m + 3;
  }
}
