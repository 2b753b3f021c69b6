/** The `/tarifa_total` handler of the total-tariff service: a sequential
    loop over the six component services that records one entry per
    service and adds up the values of the ones that answered. The response
    of service `s` is `respond(s)`. */
module TarifaMain {
  import opened Py
  import opened Http
  import opened Text
  import opened Money
  import opened Componentes

  /** One entry of `detalle`: `{"estado": "ok", "valor": v}` or
      `{"estado": "error", "detalle": text}`. */
  datatype Entry = OkEntry(valor: Json) | ErrEntry(detalle: string)

  /** The final entry of one service. A success whose `valor` cannot be
      added to the running total is overwritten by the generic handler. */
  function EntryFor(resp: Response): (e: Entry)
    ensures e.OkEntry? <==> resp.Reply? && resp.body.JObj?
                            && IsNumber(GetOr(resp.body.fields, "valor", JNum(0.0)))
    ensures e.OkEntry? ==> e.valor == GetOr(resp.body.fields, "valor", JNum(0.0))
    ensures resp.TransportErr? ==> e == ErrEntry("Conexión fallida: " + resp.msg)
    ensures resp.StatusErr? ==> e == ErrEntry("HTTP " + IntToString(resp.code) + ": " + resp.text)
  {
    match resp
    case Reply(body) =>
      if !body.JObj? then ErrEntry(ExceptionText(AttributeError))
      else
        var valor := GetOr(body.fields, "valor", JNum(0.0));
        if IsNumber(valor) then OkEntry(valor) else ErrEntry(ExceptionText(TypeError))
    case NotJson => ErrEntry(ExceptionText(JsonDecodeError))
    case TransportErr(msg) => ErrEntry("Conexión fallida: " + msg)
    case StatusErr(code, text) => ErrEntry("HTTP " + IntToString(code) + ": " + text)
  }

  /** What an entry adds to the total: its value if ok, else nothing. */
  function Contribution(e: Entry): real
  {
    if e.OkEntry? then NumberOr0(e.valor) else 0.0
  }

  /** The entries of the first n services, in order, when service `s` ends
      in `entry(s)`. */
  function Entries(entry: string -> Entry, n: nat): (es: seq<Entry>)
    requires n <= |Services|
    ensures |es| == n
    ensures forall i :: 0 <= i < n ==> es[i] == entry(Services[i])
  {
    if n == 0 then [] else Entries(entry, n - 1) + [entry(Services[n - 1])]
  }

  /** The total of a run: the unrounded sum of the ok entries' values. */
  function OkTotal(es: seq<Entry>): real
  {
    SumBy(es, Contribution)
  }

  /** One more service adds its own contribution to the running total. */
  lemma OkTotalStep(entry: string -> Entry, i: nat)
    requires i < |Services|
    ensures OkTotal(Entries(entry, i + 1)) == OkTotal(Entries(entry, i)) + Contribution(entry(Services[i]))
  {
    SumByAppend(Entries(entry, i), [entry(Services[i])], Contribution);
  }

  /** The services visited after one more step: the earlier ones and the
      next, which is none of them. */
  lemma PrefixStep(i: nat)
    requires i < |Services|
    ensures forall s :: s in Services[..i + 1] <==> s in Services[..i] || s == Services[i]
    ensures Services[i] !in Services[..i]
  {
    ServicesDistinct();
    assert Services[..i + 1] == Services[..i] + [Services[i]];
  }

  /** What the loop knows after the first i services: it visited them in
      order, recorded exactly them, each with its own entry, and added up
      their contributions. */
  ghost predicate Visited(entry: string -> Entry, i: nat, detalle: map<string, Entry>, tarifaTotal: real,
                    visited: seq<string>)
  {
    i <= |Services|
    && visited == Services[..i]
    && (forall s :: s in detalle <==> s in visited)
    && (forall j :: 0 <= j < i ==> Services[j] in detalle && detalle[Services[j]] == entry(Services[j]))
    && tarifaTotal == OkTotal(Entries(entry, i))
  }

  /** One iteration keeps `Visited`. */
  lemma VisitedStep(entry: string -> Entry, i: nat, detalle: map<string, Entry>, tarifaTotal: real,
                    visited: seq<string>)
    requires Visited(entry, i, detalle, tarifaTotal, visited) && i < |Services|
    ensures Visited(entry, i + 1, detalle[Services[i] := entry(Services[i])],
                    tarifaTotal + Contribution(entry(Services[i])), visited + [Services[i]])
  {
    PrefixStep(i);
    OkTotalStep(entry, i);
  }

  /** The loop of the handler, for any way `entry` of ending a service. */
  method Recorrer(entry: string -> Entry)
    returns (detalle: map<string, Entry>, tarifaTotal: real, visited: seq<string>)
    ensures visited == Services
    ensures forall s :: s in detalle <==> s in Services
    ensures forall i :: 0 <= i < |Services| ==> detalle[Services[i]] == entry(Services[i])
    ensures tarifaTotal == OkTotal(Entries(entry, |Services|))
  {
    detalle := map[];
    tarifaTotal := 0.0;
    visited := [];
    var i := 0;
    while i < |Services|
      invariant i <= |Services|
      invariant Visited(entry, i, detalle, tarifaTotal, visited)
    {
      var nombre := Services[i];
      VisitedStep(entry, i, detalle, tarifaTotal, visited);
      detalle := detalle[nombre := entry(nombre)];
      tarifaTotal := tarifaTotal + Contribution(entry(nombre));
      visited := visited + [nombre];
      i := i + 1;
    }
    assert Services[..|Services|] == Services;
  }

  /** How each service ends when service `s` answers `respond(s)`. */
  function EntryOf(respond: string -> Response): string -> Entry
  {
    s => EntryFor(respond(s))
  }

  /** `calcular_tarifa_total`: `detalle` has exactly one entry per service,
      each decided by that service's response alone; `tarifa_total` is the
      unrounded sum of the ok values. Nothing is raised: every exception is
      turned into an error entry. `visited` is the order of the calls. */
  method CalcularTarifaTotal(respond: string -> Response)
    returns (detalle: map<string, Entry>, tarifaTotal: real, visited: seq<string>)
    ensures visited == Services
    ensures forall s :: s in detalle <==> s in Services
    ensures forall i :: 0 <= i < |Services| ==> detalle[Services[i]] == EntryFor(respond(Services[i]))
    ensures tarifaTotal == OkTotal(Entries(EntryOf(respond), |Services|))
  {
    detalle, tarifaTotal, visited := Recorrer(EntryOf(respond));
    assert forall s :: EntryOf(respond)(s) == EntryFor(respond(s));
  }

  /** A service that fails in any way leaves the total as the others make it. */
  lemma FailureAddsNothing(resp: Response)
    requires resp.TransportErr? || resp.StatusErr? || resp.NotJson?
    ensures EntryFor(resp).ErrEntry? && Contribution(EntryFor(resp)) == 0.0
  {
  }
}
