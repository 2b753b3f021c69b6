/** The generation component G: the energy-weighted average purchase price,
    when the configuration selects that method. */
module Generacion {
  import opened Py
  import opened Money

  /** One energy purchase: kWh bought and the price paid per kWh. */
  datatype Compra = Compra(energiaKwh: real, precioKwh: real)

  function Energia(c: Compra): real
  {
    c.energiaKwh
  }

  /** What a purchase costs: `c.energia_kWh * c.precio_kWh`. */
  function Costo(c: Compra): real
  {
    c.energiaKwh * c.precioKwh
  }

  const Ponderado: string := "promedio_ponderado"

  /** `config["componente_G"]["metodo"]` compared with the one supported
      method. A missing key raises KeyError; a section that is not a dict
      cannot be subscripted with a string; an unsupported string is a
      ValueError naming it, and an unsupported non-string fails to
      concatenate into that message. */
  function ChequearMetodo(config: map<string, Json>): (r: Result<()>)
    ensures r.Ok? <==> "componente_G" in config && config["componente_G"].JObj?
                       && "metodo" in config["componente_G"].fields
                       && config["componente_G"].fields["metodo"] == JStr(Ponderado)
    ensures "componente_G" !in config ==> r == Err(KeyError("componente_G"))
    ensures "componente_G" in config && config["componente_G"].JObj?
            && "metodo" in config["componente_G"].fields
            && config["componente_G"].fields["metodo"].JStr?
            && config["componente_G"].fields["metodo"].s != Ponderado ==>
              r == Err(ValueError("Método de cálculo no soportado: " + config["componente_G"].fields["metodo"].s))
  {
    if "componente_G" !in config then Err(KeyError("componente_G"))
    else
      match config["componente_G"]
      case JObj(seccion) =>
        if "metodo" !in seccion then Err(KeyError("metodo"))
        else (
          match seccion["metodo"]
          case JStr(metodo) =>
            if metodo == Ponderado then Ok(())
            else Err(ValueError("Método de cálculo no soportado: " + metodo))
          case _ => Err(TypeError))
      case _ => Err(TypeError)
  }

  /** `calcular_componente_G(compras)` with the loaded configuration passed
      in: 0.0 when the purchases carry no energy (no division happens),
      otherwise the weighted average price rounded to 2 decimals. */
  function CalcularComponenteG(compras: seq<Compra>, config: map<string, Json>): (r: Result<real>)
    ensures r.Ok? <==> ChequearMetodo(config).Ok?
    ensures r.Err? ==> r.error == ChequearMetodo(config).error
    ensures r.Ok? && SumBy(compras, Energia) == 0.0 ==> r.value == 0.0
    ensures r.Ok? && SumBy(compras, Energia) != 0.0 ==>
              r.value == Round(SumBy(compras, Costo) / SumBy(compras, Energia), 2)
  {
    match ChequearMetodo(config)
    case Err(e) => Err(e)
    case Ok(_) =>
      var energiaTotal := SumBy(compras, Energia);
      if energiaTotal == 0.0 then Ok(0.0)
      else Ok(Round(SumBy(compras, Costo) / energiaTotal, 2))
  }

  /** With non-negative energies, a lower bound on every price bounds the
      total cost from below by that price times the total energy. */
  lemma {:induction false} CostoAtLeast(compras: seq<Compra>, lo: real)
    requires forall i :: 0 <= i < |compras| ==> compras[i].energiaKwh >= 0.0 && compras[i].precioKwh >= lo
    ensures SumBy(compras, Costo) >= lo * SumBy(compras, Energia)
  {
    if |compras| > 0 {
      CostoAtLeast(compras[1..], lo);
      var e, p := compras[0].energiaKwh, compras[0].precioKwh;
      assert e * p - lo * e == e * (p - lo);
      assert e * (p - lo) >= 0.0;
      assert lo * (e + SumBy(compras[1..], Energia)) == lo * e + lo * SumBy(compras[1..], Energia);
    }
  }

  /** ... and an upper bound on every price bounds it from above. */
  lemma {:induction false} CostoAtMost(compras: seq<Compra>, hi: real)
    requires forall i :: 0 <= i < |compras| ==> compras[i].energiaKwh >= 0.0 && compras[i].precioKwh <= hi
    ensures SumBy(compras, Costo) <= hi * SumBy(compras, Energia)
  {
    if |compras| > 0 {
      CostoAtMost(compras[1..], hi);
      var e, p := compras[0].energiaKwh, compras[0].precioKwh;
      assert hi * e - e * p == e * (hi - p);
      assert e * (hi - p) >= 0.0;
      assert hi * (e + SumBy(compras[1..], Energia)) == hi * e + hi * SumBy(compras[1..], Energia);
    }
  }

  /** The weighted average of non-negative energies lies between the lowest
      and the highest price. */
  lemma PromedioEntrePrecios(compras: seq<Compra>, lo: real, hi: real)
    requires forall i :: 0 <= i < |compras| ==> compras[i].energiaKwh >= 0.0
    requires forall i :: 0 <= i < |compras| ==> lo <= compras[i].precioKwh <= hi
    requires SumBy(compras, Energia) > 0.0
    ensures lo <= SumBy(compras, Costo) / SumBy(compras, Energia) <= hi
  {
    CostoAtLeast(compras, lo);
    CostoAtMost(compras, hi);
    QuotientBetween(SumBy(compras, Costo), SumBy(compras, Energia), lo, hi);
  }

  lemma QuotientBetween(c: real, e: real, lo: real, hi: real)
    requires e > 0.0 && lo * e <= c <= hi * e
    ensures lo <= c / e <= hi
  {
    DivMono(lo * e, c, e);
    DivMono(c, hi * e, e);
  }

  /** So the component G lies between the lowest and the highest price,
      each rounded the same way. */
  lemma GEntrePrecios(compras: seq<Compra>, config: map<string, Json>, lo: real, hi: real)
    requires ChequearMetodo(config).Ok?
    requires forall i :: 0 <= i < |compras| ==> compras[i].energiaKwh >= 0.0
    requires forall i :: 0 <= i < |compras| ==> lo <= compras[i].precioKwh <= hi
    requires SumBy(compras, Energia) > 0.0
    ensures Round(lo, 2) <= CalcularComponenteG(compras, config).value <= Round(hi, 2)
  {
    var avg := SumBy(compras, Costo) / SumBy(compras, Energia);
    PromedioEntrePrecios(compras, lo, hi);
    RoundMonotone(lo, avg, 2);
    RoundMonotone(avg, hi, 2);
  }

  /** A single purchase with energy is priced at its own (rounded) price. */
  lemma UnaCompra(e: real, p: real, config: map<string, Json>)
    requires ChequearMetodo(config).Ok? && e != 0.0
    ensures CalcularComponenteG([Compra(e, p)], config) == Ok(Round(p, 2))
  {
    assert SumBy([Compra(e, p)], Energia) == e;
    assert SumBy([Compra(e, p)], Costo) == e * p;
    assert e * p / e == p;
  }

  /** The order of the purchases does not matter. */
  lemma OrdenIndiferente(compras: seq<Compra>, otras: seq<Compra>, config: map<string, Json>)
    requires multiset(compras) == multiset(otras)
    ensures CalcularComponenteG(compras, config) == CalcularComponenteG(otras, config)
  {
    SumByPermutation(compras, otras, Energia);
    SumByPermutation(compras, otras, Costo);
  }
}
