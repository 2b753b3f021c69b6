/** The shared component calculator: one component's charge as a one-key
    dict, the six named wrappers, and the rounded sum of a components dict.
    Both operations log and swallow every exception. */
module Calculadora {
  import opened Py
  import opened Money
  import opened Componentes

  /** `a * b` followed by `round(_, d)`: defined only on numeric operands
      (a string or list times an int is a repetition that `round` rejects,
      every other mix raises at once). */
  function RoundedProduct(a: Json, b: Json, d: int): (r: Result<real>)
    ensures r.Ok? <==> IsNumber(a) && IsNumber(b)
    ensures r.Ok? ==> r.value == Round(NumberOr0(a) * NumberOr0(b), d)
  {
    match AsNumber(a)
    case None => Err(TypeError)
    case Some(x) =>
      match AsNumber(b)
      case None => Err(TypeError)
      case Some(y) =>
        assert x * y == NumberOr0(a) * NumberOr0(b);
        Ok(Round(x * y, d))
  }

  /** `calcular_componente(nombre, consumo_kwh, valor_unitario)`: the charge
      rounded to 3 decimals under the component's name, or the name bound to
      None next to an `"error"` message. */
  function CalcularComponente(nombre: string, consumo: Json, valorUnitario: Json): (r: map<string, Json>)
    ensures IsNumber(consumo) && IsNumber(valorUnitario) ==>
              r == map[nombre := JNum(Round(NumberOr0(consumo) * NumberOr0(valorUnitario), 3))]
    ensures !(IsNumber(consumo) && IsNumber(valorUnitario)) ==>
              r.Keys == {nombre, "error"} && r["error"].JStr?
              && (nombre != "error" ==> r[nombre] == JNull)
  {
    match RoundedProduct(consumo, valorUnitario, 3)
    case Ok(total) => map[nombre := JNum(total)]
    case Err(e) => map[nombre := JNull]["error" := JStr(ExceptionText(e))]
  }

  /** A call succeeded exactly when the result has its name as the only key
      (for any name other than "error" itself). */
  lemma SucceededIffSingleKey(nombre: string, consumo: Json, valorUnitario: Json)
    requires nombre != "error"
    ensures CalcularComponente(nombre, consumo, valorUnitario).Keys == {nombre}
            <==> IsNumber(consumo) && IsNumber(valorUnitario)
  {
    if !(IsNumber(consumo) && IsNumber(valorUnitario)) {
      assert "error" in CalcularComponente(nombre, consumo, valorUnitario).Keys;
    }
  }

  /** The documented example: `calcular_componente('G', 120, 320)` is
      `{'G': 38400}`. */
  lemma EjemploGeneracion()
    ensures CalcularComponente("G", JNum(120.0), JNum(320.0)) == map["G" := JNum(38400.0)]
  {
    RoundWhole(38400, 3);
  }

  /** `calcular_generacion`, `calcular_transmision`, ..., `calcular_comercializacion`:
      each wrapper fixes its component's name and passes both arguments on. */
  function CalcularNombrado(c: Component, consumo: Json, valorUnitario: Json): (r: map<string, Json>)
    ensures Key(c) in r
    ensures r[Key(c)].JNum? <==> IsNumber(consumo) && IsNumber(valorUnitario)
    ensures r[Key(c)].JNum? ==>
              (r.Keys == {Key(c)} && r[Key(c)].n == Round(NumberOr0(consumo) * NumberOr0(valorUnitario), 3))
    ensures !(IsNumber(consumo) && IsNumber(valorUnitario)) ==>
              r.Keys == {Key(c), "error"} && r[Key(c)] == JNull && r["error"].JStr?
  {
    CalcularComponente(Key(c), consumo, valorUnitario)
  }

  /** The value of each entry of a components dict as a number. */
  function Numbers(m: map<string, Json>): (r: map<string, real>)
    ensures r.Keys == m.Keys
  {
    map k | k in m :: NumberOr0(m[k])
  }

  /** Every value of the dict can be added. */
  predicate AllNumbers(m: map<string, Json>)
  {
    forall k :: k in m ==> IsNumber(m[k])
  }

  /** Dropping one key commutes with reading the values as numbers. */
  lemma NumbersRemove(m: map<string, Json>, k: string)
    ensures Numbers(m - {k}) == Numbers(m) - {k}
  {
  }

  /** `sumar_componentes(componentes)`: the sum of the values rounded to 2
      decimals, in whatever order the dict yields them; 0.0 when some value
      cannot be added (the exception is logged and swallowed). */
  method SumarComponentes(componentes: map<string, Json>) returns (total: real)
    ensures AllNumbers(componentes) ==> total == Round(SumValues(Numbers(componentes)), 2)
    ensures !AllNumbers(componentes) ==> total == 0.0
    ensures componentes == map[] ==> total == 0.0
  {
    var rest := componentes;
    var acc := 0.0;
    while rest != map[]
      invariant rest.Keys <= componentes.Keys
      invariant forall k :: k in rest ==> rest[k] == componentes[k]
      invariant forall k :: k in componentes && k !in rest ==> IsNumber(componentes[k])
      invariant acc + SumValues(Numbers(rest)) == SumValues(Numbers(componentes))
      decreases |rest|
    {
      var k :| k in rest;
      if !IsNumber(rest[k]) {
        return 0.0;
      }
      SumValuesAnyKey(Numbers(rest), k);
      NumbersRemove(rest, k);
      acc := acc + NumberOr0(rest[k]);
      rest := rest - {k};
    }
    SumValuesZero(Numbers(rest));
    if componentes == map[] {
      RoundZero(2);
    }
    total := Round(acc, 2);
  }
}
