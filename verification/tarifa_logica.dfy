/** `calcular_tarifa_total` of the total-tariff logic module: posts the
    request to the six component services in turn, stores each rounded
    value (or an error text) under the service's name, adds up the unrounded
    values and validates the result as a `ResultadoTarifa`. The response of
    service `s` to body `b` is `post(s, b)`. */
module TarifaLogica {
  import opened Py
  import opened Http
  import opened Text
  import opened Money
  import opened TarifaModelo
  import opened Componentes

  /** `data.get("valor") or data.get("valor_cop") or 0.0`. */
  function Valor(data: map<string, Json>): (v: Json)
    ensures Truthy(Get(data, "valor")) ==> v == data["valor"]
    ensures !Truthy(Get(data, "valor")) && Truthy(Get(data, "valor_cop")) ==> v == data["valor_cop"]
    ensures !Truthy(Get(data, "valor")) && !Truthy(Get(data, "valor_cop")) ==> v == JNum(0.0)
  {
    Or(Or(Get(data, "valor"), Get(data, "valor_cop")), JNum(0.0))
  }

  /** A service that reports a value of exactly 0 is read through to its
      `valor_cop` field: a falsy `valor` does not stop the chain. */
  lemma ZeroValorFallsThrough(cop: real)
    requires cop != 0.0
    ensures Valor(map["valor" := JNum(0.0), "valor_cop" := JNum(cop)]) == JNum(cop)
  {
    var data := map["valor" := JNum(0.0), "valor_cop" := JNum(cop)];
    assert Get(data, "valor") == JNum(0.0);
    assert Get(data, "valor_cop") == JNum(cop);
  }

  /** What one service does to the loop: the cell stored under its name and
      the amount added to the total. */
  datatype Step = Step(cell: Json, add: real)

  /** A service that answered with an object whose value is a number. */
  predicate Served(resp: Response)
  {
    resp.Reply? && resp.body.JObj? && IsNumber(Valor(resp.body.fields))
  }

  /** One iteration of the loop. Transport and status errors are caught and
      stored as text; a body that is not JSON, a body without `.get` and a
      value `round` rejects raise out of the function. */
  function StepFor(resp: Response): (r: Result<Step>)
    ensures Served(resp) ==>
              r == Ok(Step(JNum(Round(NumberOr0(Valor(resp.body.fields)), 2)), NumberOr0(Valor(resp.body.fields))))
    ensures resp.Reply? && !Served(resp) ==> r.Err?
    ensures resp.TransportErr? ==> r == Ok(Step(JStr("Error conexión: " + resp.msg), 0.0))
    ensures resp.StatusErr? ==> r == Ok(Step(JStr("Error respuesta: " + IntToString(resp.code)), 0.0))
    ensures resp.NotJson? ==> r == Err(JsonDecodeError)
  {
    match resp
    case Reply(body) =>
      if !body.JObj? then Err(AttributeError)
      else (
        match AsNumber(Valor(body.fields))
        case Some(x) => Ok(Step(JNum(Round(x, 2)), x))
        case None => Err(TypeError))
    case NotJson => Err(JsonDecodeError)
    case TransportErr(msg) => Ok(Step(JStr("Error conexión: " + msg), 0.0))
    case StatusErr(code, _) => Ok(Step(JStr("Error respuesta: " + IntToString(code)), 0.0))
  }

  /** A caught error leaves a text cell that no float validation accepts,
      and adds nothing to the total. */
  lemma CaughtCellIsNotFloat(resp: Response)
    requires StepFor(resp).Ok? && !Served(resp)
    ensures !FloatLike(StepFor(resp).value.cell) && StepFor(resp).value.add == 0.0
  {
    match resp
    case TransportErr(msg) =>
      NonNumericStartIsNotFloat("Error conexión: " + msg);
    case StatusErr(code, _) =>
      NonNumericStartIsNotFloat("Error respuesta: " + IntToString(code));
  }

  /** What a step adds to the running total (nothing if it raised). */
  function AddOf(step: Result<Step>): real
  {
    if step.Ok? then step.value.add else 0.0
  }

  /** The running total after the first n services, `step(s)` being the
      step of service `s`. */
  function Total(step: string -> Result<Step>, n: nat): real
    requires n <= |Services|
  {
    if n == 0 then 0.0 else Total(step, n - 1) + AddOf(step(Services[n - 1]))
  }

  /** Recording service i extends the recorded names by that one name and
      keeps the cells of the services before it. */
  lemma RecordStep(m: map<string, Json>, i: nat, v: Json, m': map<string, Json>)
    requires i < |Services| && m' == m[Services[i] := v]
    requires forall s :: s in m <==> s in Services[..i]
    ensures forall s :: s in m' <==> s in Services[..i + 1]
    ensures forall j :: 0 <= j < i ==> m'[Services[j]] == m[Services[j]]
  {
    ServicesDistinct();
    assert Services[..i + 1] == Services[..i] + [Services[i]];
  }

  /** The cells recorded for the first n services, none of which raised. */
  function Record(step: string -> Result<Step>, n: nat): map<string, Json>
    requires n <= |Services|
    requires forall j :: 0 <= j < n ==> step(Services[j]).Ok?
  {
    if n == 0 then map[] else Record(step, n - 1)[Services[n - 1] := step(Services[n - 1]).value.cell]
  }

  /** The recorded map holds exactly the first n names, each with its own
      service's cell. */
  lemma {:induction false} RecordContents(step: string -> Result<Step>, n: nat)
    requires n <= |Services|
    requires forall j :: 0 <= j < n ==> step(Services[j]).Ok?
    ensures forall s :: s in Record(step, n) <==> s in Services[..n]
    ensures forall j :: 0 <= j < n ==> Record(step, n)[Services[j]] == step(Services[j]).value.cell
  {
    if n > 0 {
      RecordContents(step, n - 1);
      RecordStep(Record(step, n - 1), n - 1, step(Services[n - 1]).value.cell, Record(step, n));
    }
  }

  /** The first service whose step raises is unique. */
  lemma FirstFailure(step: string -> Result<Step>, i: nat)
    requires i < |Services| && step(Services[i]).Err?
    requires forall j :: 0 <= j < i ==> step(Services[j]).Ok?
    ensures forall k :: 0 <= k < |Services| && step(Services[k]).Err?
                        && (forall j :: 0 <= j < k ==> step(Services[j]).Ok?)
              ==> k == i
  {
  }

  /** The state the loop leaves behind when no service raised. */
  datatype Partial = Partial(resultados: map<string, Json>, total: real)

  /** The loop of `calcular_tarifa_total` over the six services: one cell per
      service and the running total, or the exception of the first service
      whose step raises. */
  method Recorrer(step: string -> Result<Step>) returns (out: Result<Partial>)
    ensures out.Ok? <==> forall i :: 0 <= i < |Services| ==> step(Services[i]).Ok?
    ensures forall k :: 0 <= k < |Services| && step(Services[k]).Err?
                        && (forall j :: 0 <= j < k ==> step(Services[j]).Ok?) ==>
              out == Err(step(Services[k]).error)
    ensures out.Ok? ==> forall s :: s in out.value.resultados <==> s in Services
    ensures out.Ok? ==> forall i :: 0 <= i < |Services| ==>
              out.value.resultados[Services[i]] == step(Services[i]).value.cell
    ensures out.Ok? ==> out.value.total == Total(step, |Services|)
  {
    var resultados: map<string, Json> := map[];
    var total := 0.0;
    var i := 0;
    while i < |Services|
      invariant 0 <= i <= |Services|
      invariant forall j :: 0 <= j < i ==> step(Services[j]).Ok?
      invariant resultados == Record(step, i)
      invariant total == Total(step, i)
    {
      var st := step(Services[i]);
      if st.Err? {
        FirstFailure(step, i);
        return Err(st.error);
      }
      resultados := resultados[Services[i] := st.value.cell];
      total := total + st.value.add;
      i := i + 1;
    }
    RecordContents(step, i);
    assert Services[..i] == Services;
    out := Ok(Partial(resultados, total));
  }

  /** The step of every service for request body `body`. */
  function Steps(post: (string, Json) -> Response, body: Json): string -> Result<Step>
  {
    s => StepFor(post(s, body))
  }

  /** With no step raising, the recorded cells all validate as floats
      exactly when every service answered with a number. */
  lemma CellsValidateIffServed(post: (string, Json) -> Response, body: Json, p: Partial)
    requires forall i :: 0 <= i < |Services| ==> StepFor(post(Services[i], body)).Ok?
    requires forall s :: s in p.resultados <==> s in Services
    requires forall i :: 0 <= i < |Services| ==>
               p.resultados[Services[i]] == StepFor(post(Services[i], body)).value.cell
    ensures (forall s :: s in p.resultados ==> FloatLike(p.resultados[s]))
            <==> (forall i :: 0 <= i < |Services| ==> Served(post(Services[i], body)))
  {
    if !(forall i :: 0 <= i < |Services| ==> Served(post(Services[i], body))) {
      var k :| 0 <= k < |Services| && !Served(post(Services[k], body));
      CaughtCellIsNotFloat(post(Services[k], body));
      assert !FloatLike(p.resultados[Services[k]]);
    }
  }

  /** Validating the recorded loop state: it fails with a validation error
      unless every service answered with a number, and then holds each
      service's value rounded to 2 decimals. */
  lemma Validated(post: (string, Json) -> Response, body: Json, p: Partial)
    requires forall i :: 0 <= i < |Services| ==> StepFor(post(Services[i], body)).Ok?
    requires forall s :: s in p.resultados <==> s in Services
    requires forall i :: 0 <= i < |Services| ==>
               p.resultados[Services[i]] == StepFor(post(Services[i], body)).value.cell
    ensures var r := NewResultadoTarifa(p.resultados, Round(p.total, 2));
            && (r.Ok? <==> forall i :: 0 <= i < |Services| ==> Served(post(Services[i], body)))
            && (r.Err? ==> r.error == ValidationError)
            && (r.Ok? ==> forall s :: s in r.value.componentes <==> s in Services)
            && (r.Ok? ==> r.value.tarifaTotal == Round(p.total, 2))
            && (r.Ok? ==> forall i :: 0 <= i < |Services| ==>
                  r.value.componentes[Services[i]] == Round(NumberOr0(Valor(post(Services[i], body).body.fields)), 2))
  {
    CellsValidateIffServed(post, body, p);
  }

  /** `calcular_tarifa_total(datos)`. The result validates exactly when every
      service answered with a number: a caught error leaves a text cell that
      is no float, and any other failure raises at the first service that
      shows it. Each component is its value rounded to 2 decimals; the total
      is the rounded sum of the unrounded values. */
  method CalcularTarifaTotal(datos: DatosEntrada, post: (string, Json) -> Response)
    returns (r: Result<ResultadoTarifa>)
    ensures r.Ok? <==> forall i :: 0 <= i < |Services| ==> Served(post(Services[i], Dict(datos)))
    ensures forall k :: 0 <= k < |Services| && StepFor(post(Services[k], Dict(datos))).Err?
                        && (forall j :: 0 <= j < k ==> StepFor(post(Services[j], Dict(datos))).Ok?) ==>
              r == Err(StepFor(post(Services[k], Dict(datos))).error)
    ensures (forall i :: 0 <= i < |Services| ==> StepFor(post(Services[i], Dict(datos))).Ok?)
            && (exists i :: 0 <= i < |Services| && !Served(post(Services[i], Dict(datos)))) ==>
              r == Err(ValidationError)
    ensures r.Ok? ==> forall s :: s in r.value.componentes <==> s in Services
    ensures r.Ok? ==> forall i :: 0 <= i < |Services| ==>
              r.value.componentes[Services[i]] == Round(NumberOr0(Valor(post(Services[i], Dict(datos)).body.fields)), 2)
    ensures r.Ok? ==> r.value.tarifaTotal == Round(Total(Steps(post, Dict(datos)), |Services|), 2)
  {
    var body := Dict(datos);
    var out := Recorrer(Steps(post, body));
    assert forall i :: 0 <= i < |Services| ==> Steps(post, body)(Services[i]) == StepFor(post(Services[i], body));
    if out.Err? {
      return Err(out.error);
    }
    var p := out.value;
    Validated(post, body, p);
    r := NewResultadoTarifa(p.resultados, Round(p.total, 2));
  }
}
