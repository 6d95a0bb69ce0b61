/** The JSON values the dashboard loads, and the JavaScript conversions the
    browser code applies to them: truthiness, `||`, conversion to a property
    key, `parseFloat` and `parseInt`. Text-to-number conversion is left abstract. */
module Json {
  import opened Common
  import opened Text

  datatype Json =
    | JNull
    | JBool(b: bool)
    | JNumber(x: real)
    | JString(s: string)
    | JArray(items: seq<Json>)
    | JObject(fields: map<string, Json>)

  /** A focus record as loaded from JSON. */
  type Objeto = map<string, Json>

  /** The text conversions: the two parsers, and `String(x)` for numbers. */
  datatype Js = Js(ps: Parsers, numberToString: real -> string)

  /** JavaScript truthiness. JSON has no `NaN` and no `undefined`. */
  predicate Truthy(v: Json)
  {
    match v
    case JNull => false
    case JBool(b) => b
    case JNumber(x) => x != 0.0
    case JString(s) => s != ""
    case _ => true
  }

  /** `foco[k]`: `None` is `undefined`. */
  function Campo(o: Objeto, k: string): Option<Json>
  {
    if k in o then Some(o[k]) else None
  }

  /** `a || b` where `a` may be `undefined`. */
  function Ou(a: Option<Json>, b: Option<Json>): (r: Option<Json>)
    ensures a.Some? && Truthy(a.value) ==> r == a
    ensures !(a.Some? && Truthy(a.value)) ==> r == b
  {
    if a.Some? && Truthy(a.value) then a else b
  }

  /** `String(v)`, which is also the property key that `obj[v]` uses. */
  function ToStr(v: Json, js: Js): string
  {
    match v
    case JNull => "null"
    case JBool(b) => if b then "true" else "false"
    case JNumber(x) => js.numberToString(x)
    case JString(s) => s
    case JArray(xs) =>
      if xs == [] then ""
      else Join(seq(|xs|, i requires 0 <= i < |xs| => if xs[i].JNull? then "" else ToStr(xs[i], js)), ',')
    case JObject(_) => "[object Object]"
  }

  /** `String(v)` where `v` may be `undefined`. */
  function Chave(v: Option<Json>, js: Js): string
  {
    if v.None? then "undefined" else ToStr(v.value, js)
  }

  /** The label `foco[campo] || padrao` used as a counter key. */
  function Rotulo(o: Objeto, campo: string, padrao: string, js: Js): (r: string)
    ensures !(campo in o && Truthy(o[campo])) ==> r == padrao
    ensures campo in o && o[campo].JString? && o[campo].s != "" ==> r == o[campo].s
  {
    Chave(Ou(Campo(o, campo), Some(JString(padrao))), js)
  }

  /** The labels of a list of records. */
  function Rotulos(dados: seq<Objeto>, campo: string, padrao: string, js: Js): (ls: seq<string>)
    ensures |ls| == |dados|
    ensures forall i :: 0 <= i < |dados| ==> ls[i] == Rotulo(dados[i], campo, padrao, js)
  {
    seq(|dados|, i requires 0 <= i < |dados| => Rotulo(dados[i], campo, padrao, js))
  }

  /** One more record adds its label at the end. */
  lemma RotulosPasso(dados: seq<Objeto>, i: nat, campo: string, padrao: string, js: Js)
    requires i < |dados|
    ensures Rotulos(dados[..i + 1], campo, padrao, js) == Rotulos(dados[..i], campo, padrao, js) + [Rotulo(dados[i], campo, padrao, js)]
  {
    assert dados[..i + 1][..i] == dados[..i];
  }

  /** `Math.trunc`, toward zero. */
  function Trunc(x: real): (n: int)
    ensures x >= 0.0 ==> n as real <= x < n as real + 1.0
    ensures x < 0.0 ==> n as real - 1.0 < x <= n as real
  {
    if x >= 0.0 then x.Floor else -((-x).Floor)
  }

  /** `parseFloat(v)`, with `None` for `undefined` and for `NaN`. `String(x)`
      of a number parses back to `x`. */
  function ParseFloatJ(v: Option<Json>, js: Js): Option<real>
  {
    match v
    case None => None
    case Some(JNumber(x)) => Some(x)
    case Some(w) => js.ps.parseFloat(ToStr(w, js))
  }

  /** `parseInt(v)`. For a number written without an exponent (zero, or a
      magnitude from 1e-6 up to 1e21) `parseInt` keeps its integer part. */
  function ParseIntJ(v: Option<Json>, js: Js): Option<int>
  {
    match v
    case None => None
    case Some(JNumber(x)) =>
      if x == 0.0 || (1.0 / 1000000.0 <= x < 1000000000000000000000.0)
         || (-1000000000000000000000.0 < x <= -1.0 / 1000000.0)
      then Some(Trunc(x))
      else js.ps.parseInt(js.numberToString(x))
    case Some(w) => js.ps.parseInt(ToStr(w, js))
  }
}
