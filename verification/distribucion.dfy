/** The distribution charge: a per-kWh tariff chosen by socio-economic
    stratum (subsidised strata 1 and 2, stratum 3, and a contribution tariff
    for every other stratum), 10% lower in the rural zone, times the
    consumption, rounded to 2 decimals. */
module Distribucion {
  import opened Money

  /** The request: consumption in kWh, stratum and zone. */
  datatype DatosDistribucion = DatosDistribucion(consumoKwh: real, estrato: int, zona: string)

  /** The tariff of a stratum before the zone adjustment. */
  function TarifaBase(estrato: int): real
  {
    if estrato == 1 || estrato == 2 then 100.0
    else if estrato == 3 then 150.0
    else 250.0
  }

  /** The tariff after the zone adjustment; only the exact string "rural"
      earns it. */
  function TarifaZona(estrato: int, zona: string): (t: real)
    ensures 0.0 < t <= TarifaBase(estrato)
    ensures zona != "rural" ==> t == TarifaBase(estrato)
    ensures zona == "rural" ==> t == 0.9 * TarifaBase(estrato)
  {
    if zona == "rural" then TarifaBase(estrato) * 0.9 else TarifaBase(estrato)
  }

  /** `calcular_distribucion(datos)`. */
  function CalcularDistribucion(d: DatosDistribucion): (r: real)
    ensures d.consumoKwh == 0.0 ==> r == 0.0
    ensures d.consumoKwh >= 0.0 ==> r >= 0.0
  {
    RoundZero(2);
    var x := TarifaZona(d.estrato, d.zona) * d.consumoKwh;
    if x >= 0.0 then RoundNonNegative(x, 2); Round(x, 2) else Round(x, 2)
  }

  /** The subsidised strata pay the lowest tariff, stratum 3 the middle
      one, and every other stratum (4 to 6, and any value outside 1..6) the
      highest. */
  lemma TarifaBaseOrden(e: int)
    ensures TarifaBase(1) == TarifaBase(2) < TarifaBase(3) < TarifaBase(e) || e <= 3
    ensures e != 1 && e != 2 && e != 3 ==> TarifaBase(e) == 250.0
  {
  }

  /** For the same zone and a non-negative consumption, a stratum with a
      lower base tariff is never charged more. */
  lemma EstratoMonotono(consumo: real, zona: string, e1: int, e2: int)
    requires consumo >= 0.0 && TarifaBase(e1) <= TarifaBase(e2)
    ensures CalcularDistribucion(DatosDistribucion(consumo, e1, zona))
            <= CalcularDistribucion(DatosDistribucion(consumo, e2, zona))
  {
    var t1, t2 := TarifaZona(e1, zona), TarifaZona(e2, zona);
    assert t1 <= t2;
    if consumo > 0.0 {
      MulMono(t1, t2, consumo);
    }
    RoundMonotone(t1 * consumo, t2 * consumo, 2);
  }

  /** The rural zone is never charged more than any other zone for the
      same stratum and a non-negative consumption. */
  lemma RuralNoMasCaro(consumo: real, estrato: int, zona: string)
    requires consumo >= 0.0
    ensures CalcularDistribucion(DatosDistribucion(consumo, estrato, "rural"))
            <= CalcularDistribucion(DatosDistribucion(consumo, estrato, zona))
  {
    var t1, t2 := TarifaZona(estrato, "rural"), TarifaZona(estrato, zona);
    if zona != "rural" {
      if consumo > 0.0 {
        MulMono(t1, t2, consumo);
      }
      RoundMonotone(t1 * consumo, t2 * consumo, 2);
    }
  }

  /** The zone comparison is case-sensitive: "Rural" is charged as urban. */
  lemma ZonaSensibleAMayusculas(consumo: real, estrato: int)
    ensures CalcularDistribucion(DatosDistribucion(consumo, estrato, "Rural"))
            == CalcularDistribucion(DatosDistribucion(consumo, estrato, "urbana"))
  {
    assert "Rural" != "rural";
  }

  /** More consumption is never charged less. */
  lemma ConsumoMonotono(c1: real, c2: real, estrato: int, zona: string)
    requires c1 <= c2
    ensures CalcularDistribucion(DatosDistribucion(c1, estrato, zona))
            <= CalcularDistribucion(DatosDistribucion(c2, estrato, zona))
  {
    var t := TarifaZona(estrato, zona);
    MulMono(c1, c2, t);
    assert t * c1 == c1 * t && t * c2 == c2 * t;
    RoundMonotone(t * c1, t * c2, 2);
  }

  /** The rounded charge is within half a cent of the exact one. */
  lemma CercaDelExacto(d: DatosDistribucion)
    ensures -0.005 <= CalcularDistribucion(d) - TarifaZona(d.estrato, d.zona) * d.consumoKwh <= 0.005
  {
    var x := TarifaZona(d.estrato, d.zona) * d.consumoKwh;
    RoundClose(x, 2);
    assert Scale(2) == 100.0;
  }

  /** The example strata: 10 kWh in stratum 2 in a rural zone costs 900.00,
      and in stratum 5 in the city 2500.00. */
  lemma Ejemplos()
    ensures CalcularDistribucion(DatosDistribucion(10.0, 2, "rural")) == 900.0
    ensures CalcularDistribucion(DatosDistribucion(10.0, 5, "urbana")) == 2500.0
  {
    RoundWhole(900, 2);
    RoundWhole(2500, 2);
  }
}
