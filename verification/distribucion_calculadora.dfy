/** The configuration-driven tariff breakdown of the distribution service:
    every entry of the configuration's `tarifas` dict becomes one component
    charged at `consumo * valor_kWh`, rounded to 2 decimals, and the total is
    the rounded sum of the unrounded subtotals. */
module DistribucionCalculadora {
  import opened Py
  import opened Money

  /** The breakdown dict: `consumo_kWh`, `componentes`, `total_tarifa`. */
  datatype Desglose = Desglose(consumoKwh: real, componentes: map<string, real>, totalTarifa: real)

  /** `config.get("tarifas", {})`. */
  function Tarifas(config: map<string, Json>): Json
  {
    GetOr(config, "tarifas", JObj(map[]))
  }

  /** `datos.get("valor_kWh", 0)` as a factor of `consumo * _`: a missing
      key is 0; an entry without `.get` or a value that cannot be multiplied
      raises. */
  function RateOf(datos: Json): (r: Result<real>)
    ensures r.Ok? <==> datos.JObj? && IsNumber(GetOr(datos.fields, "valor_kWh", JNum(0.0)))
    ensures r.Ok? && "valor_kWh" !in datos.fields ==> r.value == 0.0
    ensures r.Ok? && "valor_kWh" in datos.fields ==> r.value == NumberOr0(datos.fields["valor_kWh"])
  {
    if !datos.JObj? then Err(AttributeError)
    else
      match AsNumber(GetOr(datos.fields, "valor_kWh", JNum(0.0)))
      case Some(x) => Ok(x)
      case None => Err(TypeError)
  }

  /** The rate of an entry that does not raise, else 0. */
  function Rate(datos: Json): real
  {
    match RateOf(datos)
    case Ok(x) => x
    case Err(_) => 0.0
  }

  /** A configuration the loop gets through: `tarifas` is a dict and each of
      its entries yields a rate. */
  predicate WellFormed(config: map<string, Json>)
  {
    Tarifas(config).JObj? && forall k :: k in Tarifas(config).fields ==> RateOf(Tarifas(config).fields[k]).Ok?
  }

  /** `consumo_kwh * valor_kwh` for one entry. */
  function Subtotal(consumo: real, datos: Json): real
  {
    consumo * Rate(datos)
  }

  /** The unrounded subtotal of every entry. */
  function Subtotals(consumo: real, tarifas: map<string, Json>): (r: map<string, real>)
    ensures r.Keys == tarifas.Keys
  {
    map k | k in tarifas :: Subtotal(consumo, tarifas[k])
  }

  /** The rounded charge of every entry. */
  function Componentes(consumo: real, tarifas: map<string, Json>): (r: map<string, real>)
    ensures r.Keys == tarifas.Keys
  {
    map k | k in tarifas :: Round(Subtotal(consumo, tarifas[k]), 2)
  }

  /** The loop over the entries of `tarifas`, in whatever order the dict
      yields them: each entry's rounded charge is stored under its name and
      its unrounded subtotal added to the running total; an entry without a
      rate raises (which one raises first depends on the order, so any of
      them may). */
  method Desglosar(tarifas: map<string, Json>, consumo: real) returns (r: Result<(map<string, real>, real)>)
    ensures r.Ok? <==> forall k :: k in tarifas ==> RateOf(tarifas[k]).Ok?
    ensures r.Err? ==> exists k :: k in tarifas && RateOf(tarifas[k]) == Err(r.error)
    ensures r.Ok? ==> r.value.0 == Componentes(consumo, tarifas)
    ensures r.Ok? ==> r.value.1 == SumValues(Subtotals(consumo, tarifas))
  {
    if k :| k in tarifas && RateOf(tarifas[k]).Err? {
      return Err(RateOf(tarifas[k]).error);
    }
    var subtotales := Subtotals(consumo, tarifas);
    var rest := subtotales;
    var total := 0.0;
    while rest != map[]
      invariant rest.Keys <= subtotales.Keys
      invariant forall k :: k in rest ==> rest[k] == subtotales[k]
      invariant total + SumValues(rest) == SumValues(subtotales)
      decreases |rest|
    {
      var nombre :| nombre in rest;
      SumValuesAnyKey(rest, nombre);
      total := total + rest[nombre];
      rest := rest - {nombre};
    }
    SumValuesZero(rest);
    r := Ok((Componentes(consumo, tarifas), total));
  }

  /** `calcular_tarifa_total(config, consumo_kwh)`. One component per entry
      of `tarifas`, each its own rounded subtotal; the total rounds the sum of
      the unrounded subtotals, whatever order the dict is iterated in. The
      consumption is echoed unchanged. */
  method CalcularTarifaTotal(config: map<string, Json>, consumo: real) returns (r: Result<Desglose>)
    ensures r.Ok? <==> WellFormed(config)
    ensures r.Ok? ==> r.value.consumoKwh == consumo
    ensures r.Ok? ==> r.value.componentes.Keys == Tarifas(config).fields.Keys
    ensures r.Ok? ==> forall k :: k in r.value.componentes ==>
              r.value.componentes[k] == Round(consumo * Rate(Tarifas(config).fields[k]), 2)
    ensures r.Ok? ==> r.value.totalTarifa == Round(SumValues(Subtotals(consumo, Tarifas(config).fields)), 2)
    ensures "tarifas" !in config ==> r == Ok(Desglose(consumo, map[], 0.0))
    ensures r.Ok? && consumo == 0.0 ==>
              r.value.totalTarifa == 0.0 && forall k :: k in r.value.componentes ==> r.value.componentes[k] == 0.0
  {
    var tarifas := Tarifas(config);
    if !tarifas.JObj? {
      return Err(AttributeError);
    }
    var out := Desglosar(tarifas.fields, consumo);
    if out.Err? {
      return Err(out.error);
    }
    if consumo == 0.0 || tarifas.fields == map[] {
      SumValuesZero(Subtotals(consumo, tarifas.fields));
      RoundZero(2);
    }
    r := Ok(Desglose(consumo, out.value.0, Round(out.value.1, 2)));
  }

  /** Rounding the total is not summing the rounded components: two entries
      at 0.004 per kWh each round to 0.00 for 1 kWh, while the total rounds
      0.008 up to 0.01. */
  lemma TotalIsNotSumOfRounded()
    ensures var tarifas := map["A" := JObj(map["valor_kWh" := JNum(0.004)]),
                               "B" := JObj(map["valor_kWh" := JNum(0.004)])];
            && Round(Subtotal(1.0, tarifas["A"]), 2) == 0.0
            && Round(Subtotal(1.0, tarifas["B"]), 2) == 0.0
            && Round(SumValues(Subtotals(1.0, tarifas)), 2) == 0.01
  {
    var tarifas := map["A" := JObj(map["valor_kWh" := JNum(0.004)]),
                       "B" := JObj(map["valor_kWh" := JNum(0.004)])];
    var subs := Subtotals(1.0, tarifas);
    assert subs == map["A" := 0.004, "B" := 0.004];
    SumValuesAnyKey(subs, "A");
    assert subs - {"A"} == map["B" := 0.004];
    SumValuesAnyKey(subs - {"A"}, "B");
    assert subs - {"A"} - {"B"} == map[];
    assert SumValues(subs) == 0.008;
    assert Scale(2) == 100.0;
    assert Units(0.004, 2) == 0;
    assert Units(0.008, 2) == 1;
  }
}
