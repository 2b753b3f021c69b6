/** The recognised-losses component PR: consumption times the unit charge of
    the voltage level. The request is validated like the total-tariff
    request (positive consumption, stratum 1..6), and the answer names its
    component. */
module PerdidasReconocidas {
  import opened Py
  import opened Text
  import opened Niveles
  import opened TarifaModelo

  /** `CU_PR`, in COP per kWh. */
  const CuPR: map<string, real> := map["NT1" := 45.2, "NT2" := 38.7, "NT3" := 29.5, "NT4" := 18.4, "NT5" := 12.1]

  /** `ResultadoPR`: the component's name, the rounded charge and `detalle`. */
  datatype ResultadoPR = ResultadoPR(componente: string, valor: real, detalle: Detalle)

  /** Building a `ResultadoPR`: the name defaults to "PR". */
  function NewResultadoPR(valor: real, detalle: Detalle, componente: Option<string>): (r: ResultadoPR)
    ensures r.valor == valor && r.detalle == detalle
    ensures componente.None? ==> r.componente == "PR"
    ensures componente.Some? ==> r.componente == componente.value
  {
    ResultadoPR(if componente.Some? then componente.value else "PR", valor, detalle)
  }

  /** The formula text is the same for every level. */
  function Formula(nivel: string): string
  {
    "PR = consumo_kwh * CU_PR(nivel_tension)"
  }

  /** `calcular_pr(datos)`. */
  function CalcularPR(d: DatosEntrada): (r: Result<ResultadoPR>)
    ensures r.Ok? <==> Upper(d.nivelTension) in CuPR
    ensures r.Err? ==> r.error == ValueError("Nivel de tensión no reconocido: " + Upper(d.nivelTension))
    ensures r.Ok? ==> r.value.componente == "PR"
    ensures r.Ok? ==> r.value.valor == Cargo(d.consumo, CuPR[Upper(d.nivelTension)])
    ensures r.Ok? ==> r.value.detalle == Detalle(d.consumo, CuPR[Upper(d.nivelTension)], Upper(d.nivelTension),
                                                 d.zona, "PR = consumo_kwh * CU_PR(nivel_tension)")
  {
    match Calcular(CuPR, d.consumo, d.nivelTension, d.zona, Formula)
    case Err(e) => Err(e)
    case Ok(res) => Ok(NewResultadoPR(res.valor, res.detalle, None))
  }

  /** The table covers the five levels and falls from NT1 to NT5. */
  lemma TablaDecreciente()
    ensures IsTable(CuPR) && Decreasing(CuPR)
  {
  }

  /** A validated request at a recognised level is never charged a
      negative amount, and the formula text does not depend on the level. */
  lemma CargoNoNegativo(d: DatosEntrada, otro: string)
    requires NewDatosEntrada(d.consumo, d.estrato, d.zona, d.nivelTension) == Ok(d)
    requires CalcularPR(d).Ok? && Upper(otro) in CuPR
    ensures CalcularPR(d).value.valor >= 0.0
    ensures CalcularPR(d).value.detalle.formula == CalcularPR(d.(nivelTension := otro)).value.detalle.formula
  {
    var cu := CuPR[Upper(d.nivelTension)];
    Money.MulMonoLeft(d.consumo, 0.0, cu);
    Money.RoundNonNegative(d.consumo * cu, 2);
  }
}
