/** The shared helpers of the services: consumption validation, a tolerant
    rounding and the standard response envelope. The current time is a
    parameter. */
module CoreUtils {
  import opened Py
  import opened Money
  import TransmisionUtils

  /** `validar_consumo(consumo_kwh)`: anything that is not a number (a bool
      counts, being an int) is a ValueError; the branch for negative values
      has no body, so every number passes and nothing is returned. */
  function ValidarConsumo(consumo: Json): (r: Result<()>)
    ensures r.Ok? <==> IsNumber(consumo)
    ensures r.Err? ==> r.error == ValueError("El consumo debe ser un número.")
  {
    if IsNumber(consumo) then Ok(()) else Err(ValueError("El consumo debe ser un número."))
  }

  /** Unlike its docstring's promise of a positive number, a negative
      consumption passes. */
  lemma NegativoAceptado()
    ensures ValidarConsumo(JNum(-5.0)) == Ok(())
  {
  }

  /** `redondear(valor, decimales=4)`, the definition that takes effect (a
      first one with no body is shadowed by it): None, and anything
      `float()` rejects, round to 0.0; numbers and numeric strings round to
      `decimales` places as the plain rounding does. */
  function Redondear(valor: Json, decimales: int := 4): (r: real)
    ensures ToFloat(valor).None? ==> r == 0.0
    ensures ToFloat(valor).Some? ==> r == TransmisionUtils.Redondear(ToFloat(valor).value, decimales)
  {
    if valor.JNull? then 0.0
    else
      match ToFloat(valor)
      case None => 0.0
      case Some(x) => Round(x, decimales)
  }

  /** A rounded result rounds to itself. */
  lemma RedondearIdempotente(valor: Json, decimales: int)
    ensures Redondear(JNum(Redondear(valor, decimales)), decimales) == Redondear(valor, decimales)
  {
    match ToFloat(valor)
    case None => RoundZero(decimales);
    case Some(x) => RoundExact(Units(x, decimales), decimales);
  }

  /** A numeric string rounds like the number it spells. */
  lemma TextoComoNumero(s: string, x: real, decimales: int)
    requires ParseDecimal(s) == Some(x)
    ensures Redondear(JStr(s), decimales) == Redondear(JNum(x), decimales)
  {
  }

  /** A value that cannot be read as a number is indistinguishable from a
      zero: the failure is swallowed. */
  lemma FalloComoCero(valor: Json, decimales: int)
    requires ToFloat(valor).None?
    ensures Redondear(valor, decimales) == Redondear(JNum(0.0), decimales)
  {
    RoundZero(decimales);
  }

  /** `respuesta_estandar(exito, mensaje, datos=None)` at time `timestamp`:
      the four keys, with a falsy `datos` (None, or an empty dict) replaced
      by an empty dict. */
  function RespuestaEstandar(exito: bool, mensaje: string, timestamp: string, datos: Json := JNull): (r: map<string, Json>)
    ensures r.Keys == {"ok", "mensaje", "datos", "timestamp"}
    ensures r["ok"] == JBool(exito) && r["mensaje"] == JStr(mensaje) && r["timestamp"] == JStr(timestamp)
    ensures datos.JObj? ==> r["datos"] == datos
    ensures datos.JNull? ==> r["datos"] == JObj(map[])
  {
    map["ok" := JBool(exito), "mensaje" := JStr(mensaje), "datos" := Or(datos, JObj(map[])),
        "timestamp" := JStr(timestamp)]
  }

  /** Leaving `datos` out and passing an empty dict give the same envelope. */
  lemma SinDatosEsVacio(exito: bool, mensaje: string, timestamp: string)
    ensures RespuestaEstandar(exito, mensaje, timestamp) == RespuestaEstandar(exito, mensaje, timestamp, JObj(map[]))
  {
  }
}
