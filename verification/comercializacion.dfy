/** The commercialisation component C: consumption times the unit charge of
    the voltage level. */
module Comercializacion {
  import opened Py
  import opened Text
  import opened Niveles

  /** `CU_C`, in COP per kWh. */
  const CuC: map<string, real> := map["NT1" := 35.0, "NT2" := 30.0, "NT3" := 25.0, "NT4" := 20.0, "NT5" := 15.0]

  /** The request: voltage level, consumption, zone. */
  datatype DatosComercializacion = DatosComercializacion(nivelTension: string, consumo: real, zona: string)

  /** The formula text names the normalised level. */
  function Formula(nivel: string): string
  {
    "C = consumo_kwh * CU_C(" + nivel + ")"
  }

  /** `calcular_comercializacion(datos)`. */
  function CalcularComercializacion(d: DatosComercializacion): (r: Result<Resultado>)
    ensures r.Ok? <==> Upper(d.nivelTension) in CuC
    ensures r.Err? ==> r.error == ValueError("Nivel de tensión no reconocido: " + Upper(d.nivelTension))
    ensures r.Ok? ==> r.value.valor == Cargo(d.consumo, CuC[Upper(d.nivelTension)])
    ensures r.Ok? ==> r.value.detalle == Detalle(d.consumo, CuC[Upper(d.nivelTension)], Upper(d.nivelTension),
                                                 d.zona, "C = consumo_kwh * CU_C(" + Upper(d.nivelTension) + ")")
  {
    Calcular(CuC, d.consumo, d.nivelTension, d.zona, Formula)
  }

  /** The table covers the five levels and falls from NT1 to NT5. */
  lemma TablaDecreciente()
    ensures IsTable(CuC) && Decreasing(CuC)
  {
  }

  /** 100 kWh at level "nt2" cost 3000.00 and are reported as NT2. */
  lemma Ejemplo()
    ensures CalcularComercializacion(DatosComercializacion("nt2", 100.0, "costa"))
            == Ok(Resultado(3000.0, Detalle(100.0, 30.0, "NT2", "costa", "C = consumo_kwh * CU_C(NT2)")))
  {
    assert Upper("nt2") == "NT2";
    assert Formula("NT2") == "C = consumo_kwh * CU_C(NT2)";
    assert Cargo(100.0, 30.0) == 3000.0 by {
      assert 100.0 * 30.0 == 3000 as real;
      Money.RoundWhole(3000, 2);
    }
  }
}
