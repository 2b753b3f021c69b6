/** The fan-out client of the tariff aggregator: the per-component service
    tables, one service call with its catch-all degradation to 0.0 under a
    retry decorator, and the six-key result map with its OK/FALLÓ labels.
    The concurrent gather is modelled as a map over the components; the
    response to attempt n of component c is `responses(c)(n)`. */
module Clients {
  import opened Py
  import opened Http
  import opened Componentes

  const URLS: map<string, string> := map[
    "G" := "http://generacion:8001/generacion/calcular",
    "T" := "http://transmision:8002/transmision/calcular",
    "D" := "http://distribucion:8003/distribucion/calcular",
    "PR" := "http://perdidas_reconocidas:8004/perdidas/calcular",
    "R" := "http://restricciones:8005/restricciones/calcular",
    "C" := "http://comercializacion:8006/comercializacion/calcular"]

  function LineItem(quantityKey: string, quantity: real, priceKey: string, price: real): Json
  {
    JObj(map[quantityKey := JNum(quantity), priceKey := JNum(price)])
  }

  const PAYLOADS: map<string, Json> := map[
    "G" := JArr([LineItem("energia_kWh", 5000.0, "precio_kWh", 320.5),
                 LineItem("energia_kWh", 3000.0, "precio_kWh", 315.2),
                 LineItem("energia_kWh", 2000.0, "precio_kWh", 325.0)]),
    "T" := JArr([LineItem("energia_kWh", 4000.0, "costo_unitario_kWh", 35.0),
                 LineItem("energia_kWh", 6000.0, "costo_unitario_kWh", 36.2)]),
    "D" := JArr([LineItem("energia_kWh", 5000.0, "costo_unitario_kWh", 40.0),
                 LineItem("energia_kWh", 3000.0, "costo_unitario_kWh", 41.5),
                 LineItem("energia_kWh", 2000.0, "costo_unitario_kWh", 39.0)]),
    "PR" := JObj(map["energia_total_kWh" := JNum(10000.0),
                     "costo_promedio_kWh" := JNum(130.0),
                     "porcentaje_perdidas" := JNum(0.10)]),
    "R" := JArr([LineItem("energia_afectada_kWh", 3000.0, "costo_unitario_kWh", 5.2),
                 LineItem("energia_afectada_kWh", 2000.0, "costo_unitario_kWh", 6.0),
                 LineItem("energia_afectada_kWh", 5000.0, "costo_unitario_kWh", 4.8)]),
    "C" := JObj(map["consumo_kWh" := JNum(150.0)])]

  const CAMPOS: map<string, string> := map[
    "G" := "G_promedio",
    "T" := "T_promedio",
    "D" := "D_promedio",
    "PR" := "PR_promedio",
    "R" := "R_promedio",
    "C" := "C_promedio"]

  /** The three tables are keyed by exactly the six components, and each
      component reads the field named after it. */
  lemma TablesKeyedByComponents()
    ensures URLS.Keys == Keys && PAYLOADS.Keys == Keys && CAMPOS.Keys == Keys
    ensures forall k :: k in Keys ==> CAMPOS[k] == k + "_promedio"
  {
    UrlKeys();
    PayloadKeys();
    CampoKeys();
  }

  lemma UrlKeys()
    ensures URLS.Keys == Keys
  {
  }

  lemma PayloadKeys()
    ensures PAYLOADS.Keys == Keys
  {
  }

  lemma CampoKeys()
    ensures CAMPOS.Keys == Keys
    ensures forall k :: k in Keys ==> CAMPOS[k] == k + "_promedio"
  {
  }

  function Campo(c: Component): string
  {
    Key(c) + "_promedio"
  }

  /** The body of `consultar_servicio` for one response: the field is read
      from the nested `datos` object when the key is present, else from the
      top level; a missing field is 0.0; and every exception (transport,
      status, a body that is not JSON, a value without `.get`) becomes 0.0. */
  function ExtractValue(campo: string, resp: Response): (v: Json)
    ensures !resp.Reply? ==> v == JNum(0.0)
    ensures resp.Reply? && !resp.body.JObj? ==> v == JNum(0.0)
    ensures resp.Reply? && resp.body.JObj? && "datos" in resp.body.fields ==>
              v == (match resp.body.fields["datos"]
                    case JObj(datos) => if campo in datos then datos[campo] else JNum(0.0)
                    case _ => JNum(0.0))
    ensures resp.Reply? && resp.body.JObj? && "datos" !in resp.body.fields ==>
              v == (if campo in resp.body.fields then resp.body.fields[campo] else JNum(0.0))
  {
    match resp
    case Reply(body) =>
      if !body.JObj? then JNum(0.0)
      else
        var data := GetOr(body.fields, "datos", body);
        if !data.JObj? then JNum(0.0) else GetOr(data.fields, campo, JNum(0.0))
    case _ => JNum(0.0)
  }

  /** A failed call cannot be told apart from a service that answered 0. */
  lemma FailureLooksLikeZero(campo: string, resp: Response)
    requires !resp.Reply?
    ensures ExtractValue(campo, resp) == ExtractValue(campo, Reply(JObj(map["datos" := JObj(map[campo := JNum(0.0)])])))
  {
  }

  /** What one attempt of a decorated call does. */
  datatype Attempt<T> = Returned(value: T) | Raised(error: Failure)

  /** The outcome of a decorated call and the number of attempts made. */
  datatype Retried<T> = Retried(outcome: Attempt<T>, attempts: nat)

  const StopAfter: nat := 3

  /** `@retry(stop=stop_after_attempt(stop))` from attempt n (1-based) on:
      an attempt that returns ends the call; one that raises is retried
      until attempt `stop`, after which the call raises. */
  function RetryFrom<T>(body: nat -> Attempt<T>, stop: nat, n: nat): (r: Retried<T>)
    requires 1 <= n <= stop
    decreases stop - n
    ensures 1 <= r.attempts <= stop - n + 1
    ensures forall j :: n <= j < n + r.attempts - 1 ==> body(j).Raised?
    ensures r.outcome.Returned? ==> r.outcome == body(n + r.attempts - 1)
    ensures r.outcome.Raised? ==> r.outcome == Raised(RetryError) && n + r.attempts - 1 == stop
                                  && body(stop).Raised?
  {
    match body(n)
    case Returned(v) => Retried(Returned(v), 1)
    case Raised(_) =>
      if n == stop then Retried(Raised(RetryError), 1)
      else
        var rest := RetryFrom(body, stop, n + 1);
        Retried(rest.outcome, rest.attempts + 1)
  }

  /** The decorated body: never raises. */
  function ConsultarBody(c: Component, responses: nat -> Response): nat -> Attempt<Json>
  {
    (n: nat) => Returned(ExtractValue(Campo(c), responses(n)))
  }

  /** `consultar_servicio(nombre)`. Because the body catches every
      exception, the retry decorator never sees a failure: exactly one
      attempt is made, and its value is returned. */
  function ConsultarServicio(c: Component, responses: nat -> Response): (r: Retried<Json>)
    ensures r.attempts == 1 <= StopAfter
    ensures r.outcome == Returned(ExtractValue(Campo(c), responses(1)))
  {
    RetryFrom(ConsultarBody(c, responses), StopAfter, 1)
  }

  /** `"OK" if v > 0 else "FALLÓ"`; comparing None, a string, a list or a
      dict with 0 raises. */
  function Estado(v: Json): (r: Result<string>)
    ensures r.Ok? <==> IsNumber(v)
    ensures r.Ok? ==> (r.value == "OK" <==> NumberOr0(v) > 0.0)
    ensures r.Ok? ==> (r.value == "FALLÓ" <==> NumberOr0(v) <= 0.0)
  {
    match AsNumber(v)
    case Some(x) => Ok(if x > 0.0 then "OK" else "FALLÓ")
    case None => Err(TypeError)
  }

  /** The components map and the label logged for each entry. */
  datatype Aggregate = Aggregate(valores: map<string, Json>, estados: map<string, string>)

  /** The value `consultar_servicio` returns for a component. */
  function Valor(responses: Component -> (nat -> Response), c: Component): Json
  {
    match ConsultarServicio(c, responses(c)).outcome
    case Returned(v) => v
    case Raised(_) => JNum(0.0)
  }

  /** The components map: each key bound to its own service's value. */
  function Valores(responses: Component -> (nat -> Response)): (m: map<string, Json>)
    ensures m.Keys == Keys
    ensures forall k :: k in m ==> m[k] == Valor(responses, ComponentOf(k))
  {
    map k | k in Keys :: Valor(responses, ComponentOf(k))
  }

  /** The label of every entry of an all-numeric components map. */
  function Estados(valores: map<string, Json>): (m: map<string, string>)
    requires forall k :: k in valores ==> IsNumber(valores[k])
    ensures m.Keys == valores.Keys
    ensures forall k :: k in m ==> (m[k] == "OK" <==> NumberOr0(valores[k]) > 0.0)
  {
    map k | k in valores :: Estado(valores[k]).value
  }

  /** `obtener_componentes_en_paralelo`: each of the six keys bound to the
      value of the service of its component (`ComponentOf`). Labelling
      raises when some value is not a number. */
  function ObtenerComponentes(responses: Component -> (nat -> Response)): (r: Result<Aggregate>)
    ensures r.Ok? <==> forall k :: k in Keys ==> IsNumber(Valor(responses, ComponentOf(k)))
    ensures r.Ok? ==> r.value.valores.Keys == Keys && r.value.estados.Keys == Keys
    ensures r.Ok? ==> forall k :: k in Keys ==> r.value.valores[k] == Valor(responses, ComponentOf(k))
    ensures r.Ok? ==> forall k :: k in Keys ==> (r.value.estados[k] == "OK" <==> NumberOr0(r.value.valores[k]) > 0.0)
  {
    var valores := Valores(responses);
    if forall k :: k in valores ==> IsNumber(valores[k]) then
      Ok(Aggregate(valores, Estados(valores)))
    else
      Err(TypeError)
  }

  /** Reading the result by component: component c's entry is stored under
      `Key(c)` and holds the value of c's single service call; the call
      succeeds exactly when every component's value is a number. */
  lemma ObtenerPorComponente(responses: Component -> (nat -> Response))
    ensures ObtenerComponentes(responses).Ok? <==> forall c :: IsNumber(ExtractValue(Campo(c), responses(c)(1)))
    ensures ObtenerComponentes(responses).Ok? ==>
              forall c :: Key(c) in ObtenerComponentes(responses).value.valores
                          && ObtenerComponentes(responses).value.valores[Key(c)] == ExtractValue(Campo(c), responses(c)(1))
  {
    KeysAreComponents();
    forall c ensures Valor(responses, c) == ExtractValue(Campo(c), responses(c)(1)) {
      ValorUnIntento(responses, c);
    }
  }

  /** A component's value is its first attempt's. */
  lemma ValorUnIntento(responses: Component -> (nat -> Response), c: Component)
    ensures Valor(responses, c) == ExtractValue(Campo(c), responses(c)(1))
  {
    var _ := ConsultarServicio(c, responses(c));
  }
}
