/** The restrictions component R: consumption times the unit charge of
    the voltage level. */
module Restricciones {
  import opened Py
  import opened Text
  import opened Niveles

  /** `CU_R`, in COP per kWh. */
  const CuR: map<string, real> := map["NT1" := 2.7, "NT2" := 2.5, "NT3" := 2.3, "NT4" := 2.1, "NT5" := 2.0]

  /** The request: voltage level, consumption, zone. */
  datatype DatosRestricciones = DatosRestricciones(nivelTension: string, consumo: real, zona: string)

  /** The formula text names the normalised level. */
  function Formula(nivel: string): string
  {
    "R = consumo_kwh * CU_R(" + nivel + ")"
  }

  /** `calcular_restricciones(datos)`. */
  function CalcularRestricciones(d: DatosRestricciones): (r: Result<Resultado>)
    ensures r.Ok? <==> Upper(d.nivelTension) in CuR
    ensures r.Err? ==> r.error == ValueError("Nivel de tensión no reconocido: " + Upper(d.nivelTension))
    ensures r.Ok? ==> r.value.valor == Cargo(d.consumo, CuR[Upper(d.nivelTension)])
    ensures r.Ok? ==> r.value.detalle == Detalle(d.consumo, CuR[Upper(d.nivelTension)], Upper(d.nivelTension),
                                                 d.zona, "R = consumo_kwh * CU_R(" + Upper(d.nivelTension) + ")")
  {
    Calcular(CuR, d.consumo, d.nivelTension, d.zona, Formula)
  }

  /** The table covers the five levels and falls from NT1 to NT5. */
  lemma TablaDecreciente()
    ensures IsTable(CuR) && Decreasing(CuR)
  {
  }

  /** 100 kWh at level "nt2" cost 250.00 and are reported as NT2. */
  lemma Ejemplo()
    ensures CalcularRestricciones(DatosRestricciones("nt2", 100.0, "costa"))
            == Ok(Resultado(250.0, Detalle(100.0, 2.5, "NT2", "costa", "R = consumo_kwh * CU_R(NT2)")))
  {
    assert Upper("nt2") == "NT2";
    assert Formula("NT2") == "R = consumo_kwh * CU_R(NT2)";
    assert Cargo(100.0, 2.5) == 250.0 by {
      assert 100.0 * 2.5 == 250 as real;
      Money.RoundWhole(250, 2);
    }
  }
}
