# Tariff microservices: a Dafny model of the decision logic

The repository computes a Colombian residential electricity tariff as the sum
of six components: generation G, transmission T, distribution D, recognised
losses PR, restrictions R and commercialisation C. Each component is served by
its own microservice, and an aggregator service adds them up. This project
models the pure decision logic of those services. The HTTP, asynchronous and
configuration plumbing around it is replaced by parameters.

The model covers these parts:

- **The XM price resolver** (`XmApi`).
  - Normalising the metric catalogue.
  - The one-slot catalogue cache and its `force` flag.
  - The two-pass metric selector: by id first, then by name.
  - The bounded backward scan over daily windows: at most 5 windows, each 3 days wide.
  - The fallback to the configured price.
  - The `/lists` answer is a `Result<Json>` parameter. `/daily` is an oracle `Query -> Result<Json>`. Today is an integer day number.
- **The three aggregators.**
  - `Clients`: the fan-out client and its `URLS`/`PAYLOADS`/`CAMPOS` tables.
  - `TarifaMain`: the `/tarifa_total` handler.
  - `TarifaLogica`: the logic module, which rounds per component.
  - Each downstream call is an `Http.Response`: a JSON reply, a non-JSON body, a transport error or an HTTP status error.
- **The component formulas.**
  - `Generacion`: the weighted-average G.
  - `Distribucion`: D by stratum and zone.
  - `Comercializacion`, `Restricciones` and `PerdidasReconocidas`: the NT1–NT5 tables. They share their lookup in `Niveles`.
  - `DistribucionCalculadora`: the configuration-driven breakdown.
  - `Calculadora`: the shared calculator.
- **The validators and helpers.**
  - `TarifaModelo`: the pydantic records.
  - `TransmisionUtils` and `CoreUtils`: the two `utils` modules.

Some modules are foundations for the rest:

- `Py` holds the Python values and rules the model needs:
  - JSON values and exceptions;
  - truthiness and `or`;
  - `dict.get`;
  - which operands arithmetic accepts;
  - `float()` of a decimal text.
- `Money` holds rounding and sums.
  - Money is `real`.
  - `Round(x, d)` rounds half up at `d` decimals.
  - The only properties stated about it are those that do not depend on how ties are broken: it lands on the 10^-d grid, is monotone, is within half a unit, is exact on representable values, and is zero at zero.
  - Sums over dict values are order independent by construction.
- `Text` holds ASCII case mapping and decimal rendering.
- `Componentes` holds the six component keys.

No aggregator replaces G with the XM price or computes a total cost. Each
aggregator only adds up what the component services answer, and the XM
resolver is used by the generation service alone.

Where the repository's documentation and its code disagree, the model follows
the code. These points differ:

- `consultar_servicio` is decorated with a retry policy, but its body catches every exception. So exactly one attempt is ever made (`Clients.ConsultarServicio`).
- The XM fallback reads `cfg.get("tarifas", {}).get("generacion", {}).get("valor_kWh", 320.5)`.
  - A configured 0 is used as is.
  - A configuration whose `tarifas` or `generacion` entry is not a dict makes the fallback itself raise.
  - A `null` value also makes it raise, in `float()` (`XmApi.FallbackCases`).
  - The catalogue is stored in the cache before the scan. A run whose fallback raises still leaves the fetched catalogue cached (`XmApi.ObtenerPrecioBolsa`).
- In `core/utils.py`, the negative branch of `validar_consumo` has no raise. Negative consumption is accepted (`CoreUtils.NegativoAceptado`).
- `tarifa_total/logica.py` catches only transport and status errors.
  - A non-JSON body propagates.
  - A caught error leaves a text where `ResultadoTarifa` expects a float, so that run fails validation (`TarifaLogica.CalcularTarifaTotal`).
- In `tarifa_total/main.py`, the ok entry is written before `total += valor`. When the addition raises, the generic handler overwrites that entry with an error entry (`TarifaMain.EntryFor`).
- `sumar_componentes` and the distribution breakdown iterate a dict. The model lets the iteration order be arbitrary.
- The `DatosEntrada` of the losses service has the same constraints as the aggregator's. The model uses one record, `TarifaModelo.DatosEntrada`, for both.
- The two `respuesta_estandar` functions are identical. Both are modelled by `CoreUtils.RespuestaEstandar`.
- `core/utils.py` defines `redondear` twice. Only the second definition, which tolerates `None`, is in effect.

## Model

| member | source | states |
|---|---|---|
| XmApi.Field | servicios/generacion/core/xm_api.py:37-42 | a descriptor field is the English key's value when truthy, else the Spanish alias's value, else None |
| XmApi.CatalogueItems | servicios/generacion/core/xm_api.py:33 | the catalogue list is `Data` when truthy, else `data`, else `List`, else empty; a non-dict response raises |
| XmApi.DescribeAll | servicios/generacion/core/xm_api.py:35-45 | one descriptor per item, in the same order, each built from that item alone; a non-dict item raises |
| XmApi.Normalise | servicios/generacion/core/xm_api.py:33-45 | the normalised catalogue has exactly one descriptor per listed item, in order, and fails exactly when the list or an item is malformed |
| XmApi.ListarMetricas | servicios/generacion/core/xm_api.py:23-49 | a non-forced call on a filled cache returns it without fetching; a forced call or an empty cache fetches; a successful fetch replaces the cache; a failed one leaves it unchanged |
| XmApi.CacheServesUntilForced | servicios/generacion/core/xm_api.py:26-47 | after a successful fetch, the next non-forced call is served from the cache whatever the endpoint would answer, and a forced call fetches again |
| XmApi.PickMetric | servicios/generacion/core/xm_api.py:52-69 | the first id-matching descriptor wins even if a name match comes earlier; failing that, the first name match; None exactly when nothing matches |
| XmApi.Window | servicios/generacion/core/xm_api.py:86-96 | window k ends k days before today, starts 3 days before its end, and queries entity "Sistema" with the chosen id |
| XmApi.ScanEntities | servicios/generacion/core/xm_api.py:104-109 | entities are scanned first to last and the first one that settles wins; nothing is found exactly when no entity settles |
| XmApi.ScanItem | servicios/generacion/core/xm_api.py:103-108 | a dict item without `DailyEntities` is skipped; one whose key holds a list settles exactly when some entity has a value; a number, bool or null item raises on `in` |
| XmApi.ScanItemsBelow | servicios/generacion/core/xm_api.py:102-111 | items are scanned last to first, items without `DailyEntities` are skipped, and the last item that settles wins |
| XmApi.ScanFrom | servicios/generacion/core/xm_api.py:86-115 | the windows are queried in order from k on, at most 5 in all; every query but the last found nothing; the scan stops at the first price or exception, and is exhausted exactly when all 5 windows were empty |
| XmApi.CeroEsPrecio | servicios/generacion/core/xm_api.py:105-107 | a `Value` of 0 counts as a found price; a missing or null `Value` does not |
| XmApi.ScanStopsAtFirstPrice | servicios/generacion/core/xm_api.py:86-115 | when windows k..j-1 are empty and window j has a price, the scan ends with that price after exactly the windows k..j |
| XmApi.ScanFromEmptyWindow | servicios/generacion/core/xm_api.py:113-114 | an empty window moves the scan on to the next day back, adding one query |
| XmApi.ScanFromPricedWindow | servicios/generacion/core/xm_api.py:86-110 | a window with a price ends the scan with that price after one query |
| XmApi.FallbackPrice | servicios/generacion/core/xm_api.py:127 | an empty configuration gives the default 320.5; a configuration that is not a dict raises |
| XmApi.FallbackCases | servicios/generacion/core/xm_api.py:127 | a configured value is used as is, 0 included; a missing one gives 320.5; a configured None, or a `tarifas` or `generacion` entry that is not a dict, raises |
| XmApi.ObtenerPrecioBolsa | servicios/generacion/core/xm_api.py:72-128 | the cache afterwards is the listing's, so a fetched catalogue stays cached even when the fallback raises; a failed catalogue issues no query and gives the fallback; otherwise the queries are the scan's for the picked id, a price found gives (price, "XM"), and an exhausted or failed scan gives the fallback price labelled "Respaldo local (config.json)" or the fallback's own exception |
| XmApi.ResolucionCoherente | servicios/generacion/core/xm_api.py:72-128 | at most 5 queries, window j spanning today-j-3 to today-j, every window but the last empty; a price labelled XM is the one the last window found; any other price, and any exception, is the fallback's |
| XmApi.PrecioEncontradoEsXm | servicios/generacion/core/xm_api.py:86-121 | with the catalogue available, a price in window j after empty windows 0..j-1 is the result, labelled XM, after exactly j+1 queries |
| XmApi.QueriesUseChosenId | servicios/generacion/core/xm_api.py:79-96 | every daily query carries the id picked from the catalogue, or "PPPrecBolsNaci" when none is picked |
| Componentes.KeysAreComponents | servicios/tarifa_total/clients.py:9-16 | the six keys G, T, D, PR, R, C correspond one to one with the six components |
| Clients.TablesKeyedByComponents | servicios/tarifa_total/clients.py:9-55 | `URLS`, `PAYLOADS` and `CAMPOS` are each keyed by exactly G, T, D, PR, R, C, and each field name is the key followed by `_promedio` |
| Clients.UrlKeys | servicios/tarifa_total/clients.py:9-16 | `URLS` is keyed by exactly the six components |
| Clients.PayloadKeys | servicios/tarifa_total/clients.py:19-45 | `PAYLOADS` is keyed by exactly the six components |
| Clients.CampoKeys | servicios/tarifa_total/clients.py:48-55 | `CAMPOS` is keyed by exactly the six components, with the `_promedio` field names |
| Clients.ExtractValue | servicios/tarifa_total/clients.py:61-81 | the field is read from the nested `datos` object when present, else from the top level; a missing field, or any failure of the call, gives 0.0 |
| Clients.FailureLooksLikeZero | servicios/tarifa_total/clients.py:66-81 | a failed call returns the same value as a service that answered 0 |
| Clients.RetryFrom | servicios/tarifa_total/clients.py:58 | the retry policy makes between 1 and the bound of attempts, retries only after a raise, returns the first value returned, and raises RetryError only when the last allowed attempt raised |
| Clients.ConsultarServicio | servicios/tarifa_total/clients.py:58-81 | because the body never raises, the call makes exactly one attempt, within the bound of 3, and returns that attempt's extracted value |
| Clients.Estado | servicios/tarifa_total/clients.py:91 | the label is "OK" exactly when the value is positive and "FALLÓ" otherwise; comparing a non-number raises |
| Clients.Valores | servicios/tarifa_total/clients.py:85-88 | the aggregated map has exactly the six keys, each bound to its own service's value |
| Clients.Estados | servicios/tarifa_total/clients.py:89-93 | every entry of an all-numeric map is labelled "OK" exactly when its value is positive |
| Clients.ObtenerComponentes | servicios/tarifa_total/clients.py:85-95 | the result has exactly the six keys, each bound to its own service's value and labelled by the sign of that value; labelling fails exactly when some value is not a number |
| Clients.ObtenerPorComponente | servicios/tarifa_total/clients.py:85-95 | component c's entry is what its own first attempt extracted, and the whole call succeeds exactly when every such value is a number |
| Clients.ValorUnIntento | servicios/tarifa_total/clients.py:58-81 | a component's value is determined by its first response alone |
| TarifaMain.EntryFor | servicios/tarifa_total/main.py:26-42 | a service ends ok exactly when it replied with a dict whose `valor` (default 0) can be added, and the entry keeps that `valor`; a transport failure is "Conexión fallida: …" and a status failure is "HTTP <code>: <text>" |
| TarifaMain.Recorrer | servicios/tarifa_total/main.py:22-42 | the loop visits the services in order, records exactly one entry per service, each that service's own, and totals the contributions of the ok entries |
| TarifaMain.OkTotalStep | servicios/tarifa_total/main.py:35 | each service adds its own contribution to the running total: its value when ok, nothing otherwise |
| TarifaMain.CalcularTarifaTotal | servicios/tarifa_total/main.py:20-47 | the handler never raises, visits the services in `SERVICES` order, keeps one entry per service decided by that service's response alone, and reports the unrounded sum of the ok values |
| TarifaMain.FailureAddsNothing | servicios/tarifa_total/main.py:37-42 | a transport, status or decoding failure gives an error entry that adds nothing to the total |
| Componentes.ServicesDistinct | servicios/tarifa_total/logica.py:6-13 | the six service names, which `SERVICES` and `SERVICIOS` share, are pairwise distinct |
| TarifaLogica.Valor | servicios/tarifa_total/logica.py:25 | the value is `valor` when truthy, else `valor_cop` when truthy, else 0.0 |
| TarifaLogica.ZeroValorFallsThrough | servicios/tarifa_total/logica.py:25 | a `valor` of exactly 0 falls through to `valor_cop` |
| TarifaLogica.StepFor | servicios/tarifa_total/logica.py:21-31 | a served value is stored rounded to 2 decimals and added unrounded; transport and status errors store "Error conexión: …" or "Error respuesta: <code>" and add nothing; a non-JSON body or a non-numeric value raises |
| TarifaLogica.CaughtCellIsNotFloat | servicios/tarifa_total/logica.py:28-31 | the text stored for a caught error never validates as a float, and nothing is added for it |
| TarifaLogica.RecordStep | servicios/tarifa_total/logica.py:26-31 | storing one more service extends the stored names by exactly that name and keeps the earlier cells |
| TarifaLogica.RecordContents | servicios/tarifa_total/logica.py:20-31 | without an exception, the stored map holds exactly the services visited so far, each with its own cell |
| TarifaLogica.FirstFailure | servicios/tarifa_total/logica.py:20-31 | the service whose exception escapes the loop is the first one that raises, and it is unique |
| TarifaLogica.Recorrer | servicios/tarifa_total/logica.py:16-31 | the loop completes exactly when no service raises; otherwise the first raising service's exception propagates; on completion every service has its cell and the total is the unrounded sum of what the steps add |
| TarifaLogica.CellsValidateIffServed | servicios/tarifa_total/logica.py:26-36 | the stored cells all validate as floats exactly when every service answered with a numeric value |
| TarifaLogica.Validated | servicios/tarifa_total/logica.py:33-36 | building `ResultadoTarifa` succeeds exactly when every service was served, fails with a validation error otherwise, and rounds the total once |
| TarifaLogica.CalcularTarifaTotal | servicios/tarifa_total/logica.py:15-36 | every service gets the same body `datos.dict()`, in `SERVICIOS` order; the result validates exactly when every service was served; otherwise the first raising service's exception or a validation error; components are the rounded values and the total is the rounded sum of the unrounded values |
| TarifaModelo.NewDatosEntrada | servicios/tarifa_total/modelo.py:5-9 | a request is valid exactly when consumption is strictly positive and the stratum is in 1..6; the fields are kept as given |
| TarifaModelo.ZonaAndNivelUnchecked | servicios/tarifa_total/modelo.py:8-9 | zone and voltage level never decide validity |
| TarifaModelo.NewResultadoTarifa | servicios/tarifa_total/modelo.py:11-13 | a result is built exactly when every component validates as a float; it keeps the keys, the numbers and the total |
| TarifaModelo.NonNumericStartIsNotFloat | servicios/tarifa_total/modelo.py:12 | a text that cannot start a number is not a valid component value |
| Calculadora.RoundedProduct | core/calculadora.py:43 | the rounded product is defined exactly on numeric operands and then equals the product rounded |
| Calculadora.CalcularComponente | core/calculadora.py:37-48 | with numeric arguments the result is the single-key map from the name to the product rounded to 3 decimals; otherwise the name maps to None next to an error text |
| Calculadora.SucceededIffSingleKey | core/calculadora.py:42-48 | the call succeeded exactly when its result has the name as its only key |
| Calculadora.EjemploGeneracion | core/calculadora.py:40 | `calcular_componente('G', 120, 320)` is `{'G': 38400}` |
| Calculadora.CalcularNombrado | core/calculadora.py:40-81 | each wrapper fixes its component's key: on numbers the key alone holds the rounded product, otherwise the key is bound to None next to an `error` text |
| Calculadora.NumbersRemove | core/calculadora.py:56 | dropping a key commutes with reading the dict's values as numbers |
| Calculadora.SumarComponentes | core/calculadora.py:51-61 | the result is the sum of the values rounded to 2 decimals, whatever the key order; an empty dict gives 0.0; a value that cannot be added gives 0.0 |
| DistribucionCalculadora.RateOf | servicios/distribucion/core/calculadora.py:44 | an entry's rate is its `valor_kWh`, 0 when missing; a non-dict entry or a non-numeric rate raises |
| DistribucionCalculadora.Desglosar | servicios/distribucion/core/calculadora.py:43-47 | in any iteration order, every entry's rounded charge is stored under its name and the total is the sum of the unrounded subtotals; some entry's exception escapes exactly when an entry has no rate |
| DistribucionCalculadora.CalcularTarifaTotal | servicios/distribucion/core/calculadora.py:30-56 | components have exactly the keys of `tarifas`, each `round(consumo * valor_kWh, 2)`; the total rounds the sum of the unrounded subtotals; consumption is echoed; a missing `tarifas` gives no components and total 0; zero consumption gives zeros everywhere |
| DistribucionCalculadora.TotalIsNotSumOfRounded | servicios/distribucion/core/calculadora.py:46-52 | two components that each round to 0.00 can have a total that rounds to 0.01 |
| Generacion.ChequearMetodo | servicios/generacion/logica.py:5-8 | the configured method passes exactly when it is "promedio_ponderado"; a missing section raises KeyError and any other text raises ValueError naming it |
| Generacion.CalcularComponenteG | servicios/generacion/logica.py:3-14 | the method check decides success; zero total energy gives 0.0 without dividing; otherwise the result is the total cost over the total energy, rounded to 2 decimals |
| Generacion.CostoAtLeast | servicios/generacion/logica.py:10-13 | with non-negative energies, a lower bound on every price bounds the total cost from below by that price times the total energy |
| Generacion.CostoAtMost | servicios/generacion/logica.py:10-13 | with non-negative energies, an upper bound on every price bounds the total cost from above |
| Generacion.PromedioEntrePrecios | servicios/generacion/logica.py:10-14 | with non-negative energies and positive total energy, the unrounded average lies between the lowest and highest price |
| Generacion.GEntrePrecios | servicios/generacion/logica.py:10-14 | the component G lies between the lowest and highest price, each rounded the same way |
| Generacion.UnaCompra | servicios/generacion/logica.py:10-14 | a single purchase with energy is priced at its own rounded price |
| Generacion.OrdenIndiferente | servicios/generacion/logica.py:10-13 | permuting the purchases does not change G |
| Money.SumByPermutation | servicios/generacion/logica.py:10-13 | a sum over a sequence does not depend on the order of its elements |
| Money.SumValuesAnyKey | core/calculadora.py:56 | a sum of dict values can start from any key |
| Distribucion.TarifaZona | servicios/distribucion/logica.py:3-11 | the per-kWh rate is positive and at most the stratum's base rate; any zone other than exactly "rural" pays the base rate, and "rural" pays 0.9 times it |
| Distribucion.CalcularDistribucion | servicios/distribucion/logica.py:1-13 | zero consumption gives 0 and non-negative consumption a non-negative charge |
| Distribucion.TarifaBaseOrden | servicios/distribucion/logica.py:3-8 | strata 1 and 2 pay the same base rate, below stratum 3's, below every other stratum's 250 |
| Distribucion.EstratoMonotono | servicios/distribucion/logica.py:3-13 | for non-negative consumption, a stratum with a lower base rate is never charged more |
| Distribucion.RuralNoMasCaro | servicios/distribucion/logica.py:10-13 | for non-negative consumption, the rural zone is never charged more than any other zone |
| Distribucion.ZonaSensibleAMayusculas | servicios/distribucion/logica.py:10 | "Rural" gets no rural discount: it is charged like any non-rural zone |
| Distribucion.ConsumoMonotono | servicios/distribucion/logica.py:13 | more consumption is never charged less (the rates are positive) |
| Distribucion.CercaDelExacto | servicios/distribucion/logica.py:13 | the charge is within half a cent of rate times consumption |
| Distribucion.Ejemplos | servicios/distribucion/logica.py:3-13 | 10 kWh at stratum 2 in the rural zone cost 900; at stratum 5 in an urban zone, 2500 |
| Niveles.Buscar | servicios/comercializacion/logica.py:14-18 | the level is uppercased before the lookup; the lookup succeeds exactly when the uppercased level is in the table, and otherwise raises ValueError naming the uppercased level |
| Niveles.CalcularNivel | servicios/comercializacion/logica.py:15-29 | a known level gives `round(consumo * cu, 2)` and a detail that echoes consumption, unit charge, level, zone and formula; an unknown level raises |
| Niveles.Calcular | servicios/comercializacion/logica.py:13-29 | the charge and detail are those of the uppercased level's unit charge; failure is exactly the lookup's |
| Niveles.UpperIdempotent | servicios/comercializacion/logica.py:14 | uppercasing twice is uppercasing once |
| Niveles.MayusculasIndiferentes | servicios/comercializacion/logica.py:14 | a level and its uppercase give the same result, so "nt2" behaves as "NT2" |
| Niveles.ZonaIndiferente | servicios/comercializacion/logica.py:19 | the zone never affects success or the charge |
| Niveles.NivelAceptado | servicios/comercializacion/logica.py:5-16 | a level is accepted exactly when it is "nt" in either case followed by a digit 1 to 5 |
| Niveles.CargoMenorNoMasCaro | servicios/comercializacion/logica.py:19-29 | for non-negative consumption a lower unit charge never costs more, and for positive consumption the unrounded charge is strictly lower |
| Niveles.NivelMasAltoNoMasCaro | servicios/comercializacion/logica.py:5-19 | in a strictly decreasing table, a higher level never costs more, and strictly less before rounding for positive consumption |
| Comercializacion.CalcularComercializacion | servicios/comercializacion/logica.py:13-29 | succeeds exactly when the uppercased level is in `CU_C`, with its error message otherwise; the charge is `round(consumo * CU_C[nivel], 2)` and the detail records consumption, unit charge, level, zone and "C = consumo_kwh * CU_C(<level>)" |
| Comercializacion.TablaDecreciente | servicios/comercializacion/logica.py:5-11 | `CU_C` has exactly the levels NT1..NT5 and strictly decreases from NT1 to NT5 |
| Comercializacion.Ejemplo | servicios/comercializacion/logica.py:13-29 | 100 kWh at level "nt2" cost 3000 with level "NT2" recorded |
| Restricciones.CalcularRestricciones | servicios/restricciones/logica.py:13-29 | succeeds exactly when the uppercased level is in `CU_R`, with its error message otherwise; the charge is `round(consumo * CU_R[nivel], 2)` and the detail records consumption, unit charge, level, zone and "R = consumo_kwh * CU_R(<level>)" |
| Restricciones.TablaDecreciente | servicios/restricciones/logica.py:5-11 | `CU_R` has exactly the levels NT1..NT5 and strictly decreases from 2.7 to 2.0 |
| Restricciones.Ejemplo | servicios/restricciones/logica.py:13-29 | 100 kWh at level "nt2" cost 250 |
| PerdidasReconocidas.NewResultadoPR | servicios/perdidas_reconocidas/modelo.py:10-13 | `componente` defaults to "PR"; `valor` and `detalle` are kept as given |
| PerdidasReconocidas.CalcularPR | servicios/perdidas_reconocidas/logica.py:13-29 | succeeds exactly when the uppercased level is in `CU_PR`, with its error message otherwise; the result is labelled "PR", charges `round(consumo * CU_PR[nivel], 2)` and records consumption, unit charge, level, zone and the constant formula |
| PerdidasReconocidas.TablaDecreciente | servicios/perdidas_reconocidas/logica.py:5-11 | `CU_PR` has exactly the levels NT1..NT5 and strictly decreases from NT1 to NT5 |
| PerdidasReconocidas.CargoNoNegativo | servicios/perdidas_reconocidas/logica.py:19-29 | a validated request is never charged a negative amount, and the formula text is the same whatever the level |
| TransmisionUtils.ValidarConsumo | servicios/transmision/core/utils.py:12-18 | a non-number raises "El consumo debe ser un número.", a negative number raises "El consumo no puede ser negativo.", and 0 or a positive number is returned unchanged |
| TransmisionUtils.Redondear | servicios/transmision/core/utils.py:25-27 | the result has `decimales` decimals (a whole number of 10^-decimales units) and is within half a unit of the last kept decimal, 2 decimals by default |
| Money.RoundOnGrid | servicios/transmision/core/utils.py:25-27 | `round(x, d)` is a whole number of 10^-d units |
| TransmisionUtils.RedondearIdempotente | servicios/transmision/core/utils.py:25-27 | rounding an already rounded value changes nothing |
| TransmisionUtils.PorcentajeBasico | servicios/transmision/core/utils.py:30-32 | the percentage is symmetric in its arguments; 100% is the value itself and 0% is 0 |
| TransmisionUtils.IncrementoYDescuento | servicios/transmision/core/utils.py:35-42 | increment and discount add up to twice the value; they scale it by (100 ± p)/100; a 100% discount gives 0 and a 0% discount the value |
| TransmisionUtils.DescuentoNoSube | servicios/transmision/core/utils.py:35-42 | for non-negative value and percentage, the discount never raises the value and the increment never lowers it |
| CoreUtils.ValidarConsumo | core/utils.py:11-16 | a non-number raises "El consumo debe ser un número."; every number passes |
| CoreUtils.NegativoAceptado | core/utils.py:15-16 | a negative consumption is accepted |
| CoreUtils.Redondear | core/utils.py:29-35 | None and anything `float()` rejects give 0.0; otherwise the value converted by `float()` and rounded, 4 decimals by default |
| CoreUtils.RedondearIdempotente | core/utils.py:29-35 | rounding a rounded value again changes nothing |
| CoreUtils.TextoComoNumero | core/utils.py:33 | a decimal text is rounded like the number it denotes |
| CoreUtils.FalloComoCero | core/utils.py:34-35 | a value that cannot be converted is rounded like 0 |
| CoreUtils.RespuestaEstandar | core/utils.py:22-28 | the response has exactly the keys ok, mensaje, datos and timestamp, with `ok` the success flag, `mensaje` passed through, and `datos` kept or replaced by `{}` when None |
| CoreUtils.SinDatosEsVacio | servicios/transmision/core/utils.py:63-76 | omitting `datos` gives the same response as passing `{}` |

## Left out

- Transport: `_post` and every `httpx` call become response parameters or oracles. The FastAPI routes and the `main.py` files of the component services only return constants or wrap calls, so they are not modelled.
- `asyncio.gather` in `obtener_componentes_en_paralelo` is modelled as a map over the six components. Its concurrency is not modelled.
- The `tenacity` waits and the HTTP timeouts are not modelled, because they only affect timing.
- Configuration I/O (`cargar_configuracion` in both calculadora files, `lru_cache`, environment lookups) is not modelled. The configuration is a parameter.
- `servicios/transmision/logica.py` only reads one configuration key and rounds it, so it is not part of this model.
- Wall-clock values are not modelled.
  - `date.today()` is an integer day number, and dates are not formatted.
  - `obtener_fecha_actual`, `obtener_mes_actual` and the `timestamp` of `respuesta_estandar` are clock readings. The timestamp is a parameter.
- Logging and `print` are left out, because they have no effect on results.
- Floating point is not modelled: money is `real`.
  - Python's `round` breaks ties to even on the binary value. `Money.Round` rounds half up.
  - Only properties that hold for either tie rule are stated.
- `Upper`/`Lower` map ASCII letters only, because Python's full Unicode case mapping is out of scope.
- `Py.ToFloat` reads a decimal text with an optional sign and point. Exponents, `inf`/`nan`, surrounding whitespace and underscores are read as invalid.
- The texts of Python exception messages (`str(e)`) are not modelled. A caught exception's text is only known to be a string.
- XmApi.MatchText: a truthy metric id or name that is not a string is rendered as the empty text, because Python's `str()` of numbers, lists and dicts is not modelled. Such a value therefore never matches.
- The plain pydantic records are datatypes only, because they have no constraints: generacion, comercializacion, restricciones and distribucion `modelo.py`.
- Distribucion.CalcularDistribucion: its own contract states only the zero and sign facts. The rural factor is stated by `Distribucion.TarifaZona`. `Distribucion.CercaDelExacto` ties the charge to that rate times the consumption, within half a cent. The ordering by stratum, by zone and by consumption is stated by the lemmas `EstratoMonotono`, `RuralNoMasCaro` and `ConsumoMonotono`.
- PerdidasReconocidas.CargoNoNegativo: the charge is stated non-negative rather than positive. A positive consumption small enough rounds to 0.00.
