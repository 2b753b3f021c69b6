/** The transmission service's helpers: consumption validation, rounding,
    percentages and the standard response envelope. */
module TransmisionUtils {
  import opened Py
  import opened Money

  /** `validar_consumo(consumo_kwh)`: a number (a bool counts, being an
      int) that is not negative is returned as given; anything else is a
      ValueError saying which check failed. */
  function ValidarConsumo(consumo: Json): (r: Result<Json>)
    ensures r.Ok? <==> IsNumber(consumo) && NumberOr0(consumo) >= 0.0
    ensures r.Ok? ==> r.value == consumo
    ensures !IsNumber(consumo) ==> r == Err(ValueError("El consumo debe ser un número."))
    ensures IsNumber(consumo) && NumberOr0(consumo) < 0.0 ==> r == Err(ValueError("El consumo no puede ser negativo."))
  {
    match AsNumber(consumo)
    case None => Err(ValueError("El consumo debe ser un número."))
    case Some(x) => if x < 0.0 then Err(ValueError("El consumo no puede ser negativo.")) else Ok(consumo)
  }

  /** `redondear(valor, decimales=2)`: a value with `decimales` decimals (a
      whole number of 10^-decimales units) within half a unit of the last
      kept place of the value. */
  function Redondear(valor: real, decimales: int := 2): (r: real)
    ensures r * Scale(decimales) == (r * Scale(decimales)).Floor as real
    ensures valor * Scale(decimales) - 0.5 <= r * Scale(decimales) <= valor * Scale(decimales) + 0.5
  {
    RoundClose(valor, decimales);
    RoundOnGrid(valor, decimales);
    Round(valor, decimales)
  }

  /** Rounding a rounded value changes nothing. */
  lemma RedondearIdempotente(valor: real, decimales: int)
    ensures Redondear(Redondear(valor, decimales), decimales) == Redondear(valor, decimales)
  {
    RoundExact(Units(valor, decimales), decimales);
  }

  /** `porcentaje(valor, porcentaje)`: `porcentaje` percent of `valor`. */
  function Porcentaje(valor: real, pct: real): real
  {
    valor * pct / 100.0
  }

  /** `aplicar_incremento(valor, incremento_pct)`. */
  function AplicarIncremento(valor: real, pct: real): real
  {
    valor + Porcentaje(valor, pct)
  }

  /** `aplicar_descuento(valor, descuento_pct)`. */
  function AplicarDescuento(valor: real, pct: real): real
  {
    valor - Porcentaje(valor, pct)
  }

  /** A percentage is symmetric in its two operands, 100% is the value
      itself and 0% is nothing. */
  lemma PorcentajeBasico(valor: real, pct: real)
    ensures Porcentaje(valor, pct) == Porcentaje(pct, valor)
    ensures Porcentaje(valor, 100.0) == valor
    ensures Porcentaje(valor, 0.0) == 0.0
  {
  }

  /** An increase and a discount by the same percentage are symmetric about
      the value; the increase scales it by (100 + p)/100 and the discount by
      (100 - p)/100, so a 100% discount leaves nothing and a 0% one leaves
      the value. */
  lemma IncrementoYDescuento(valor: real, pct: real)
    ensures AplicarIncremento(valor, pct) + AplicarDescuento(valor, pct) == 2.0 * valor
    ensures AplicarIncremento(valor, pct) == valor * (100.0 + pct) / 100.0
    ensures AplicarDescuento(valor, pct) == valor * (100.0 - pct) / 100.0
    ensures AplicarDescuento(valor, 100.0) == 0.0 && AplicarDescuento(valor, 0.0) == valor
  {
  }

  /** For non-negative values and percentages a discount never raises and
      an increase never lowers the value. */
  lemma DescuentoNoSube(valor: real, pct: real)
    requires valor >= 0.0 && pct >= 0.0
    ensures AplicarDescuento(valor, pct) <= valor <= AplicarIncremento(valor, pct)
  {
    MulMonoLeft(valor, 0.0, pct);
  }
}
