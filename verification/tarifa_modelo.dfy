/** The request and response records of the total-tariff service, with the
    field constraints their validation enforces. */
module TarifaModelo {
  import opened Py

  /** `DatosEntrada`: consumption in kWh, stratum, zone, voltage level. */
  datatype DatosEntrada = DatosEntrada(consumo: real, estrato: int, zona: string, nivelTension: string)

  /** Building a `DatosEntrada` from its fields: consumption must be
      strictly positive and the stratum within 1..6; zone and level are any
      strings. */
  function NewDatosEntrada(consumo: real, estrato: int, zona: string, nivelTension: string): (r: Result<DatosEntrada>)
    ensures r.Ok? <==> consumo > 0.0 && 1 <= estrato <= 6
    ensures r.Ok? ==> r.value == DatosEntrada(consumo, estrato, zona, nivelTension)
    ensures r.Err? ==> r.error == ValidationError
  {
    if consumo > 0.0 && 1 <= estrato <= 6 then Ok(DatosEntrada(consumo, estrato, zona, nivelTension))
    else Err(ValidationError)
  }

  /** Zone and voltage level never decide validity: only consumption and
      stratum do. */
  lemma ZonaAndNivelUnchecked(consumo: real, estrato: int, zona: string, nivel: string)
    ensures NewDatosEntrada(consumo, estrato, zona, nivel).Ok? == NewDatosEntrada(consumo, estrato, "", "").Ok?
  {
  }

  /** `datos.dict()`: the body sent to every component service. */
  function Dict(d: DatosEntrada): Json
  {
    JObj(map[
      "consumo" := JNum(d.consumo),
      "estrato" := JNum(d.estrato as real),
      "zona" := JStr(d.zona),
      "nivel_tension" := JStr(d.nivelTension)])
  }

  /** `ResultadoTarifa`: a str -> float components map and a float total. */
  datatype ResultadoTarifa = ResultadoTarifa(componentes: map<string, real>, tarifaTotal: real)

  /** Validation of a component value into a float: numbers and numeric
      strings pass; None, lists, dicts and other strings do not. */
  predicate FloatLike(v: Json)
  {
    ToFloat(v).Some?
  }

  /** Building a `ResultadoTarifa`: every component must validate as a float. */
  function NewResultadoTarifa(componentes: map<string, Json>, tarifaTotal: real): (r: Result<ResultadoTarifa>)
    ensures r.Ok? <==> forall k :: k in componentes ==> FloatLike(componentes[k])
    ensures r.Ok? ==> r.value.componentes.Keys == componentes.Keys && r.value.tarifaTotal == tarifaTotal
    ensures r.Ok? ==> forall k :: k in componentes && IsNumber(componentes[k]) ==>
                        r.value.componentes[k] == NumberOr0(componentes[k])
  {
    if forall k :: k in componentes ==> FloatLike(componentes[k]) then
      Ok(ResultadoTarifa(map k | k in componentes :: ToFloat(componentes[k]).value, tarifaTotal))
    else
      Err(ValidationError)
  }

  /** A text starting with anything but a digit, a sign or a point is no
      float. */
  lemma NonNumericStartIsNotFloat(s: string)
    requires |s| > 0 && !('0' <= s[0] <= '9') && s[0] != '+' && s[0] != '-' && s[0] != '.'
    ensures !FloatLike(JStr(s))
  {
    var dot := DotIndex(s);
    assert dot > 0;
    assert s[..dot][0] == s[0];
  }
}
