# ATM cash-replenishment engine

This project models the decision logic of a dashboard that tracks a fleet of
cash terminals (`app_atm.py`). For each terminal ("cajero") the engine does
four things:

- it estimates the days of cash remaining from the balance and the last 7
  days' consumption;
- it projects the balance at day T+N, which gives the 8-cell availability bar
  and the period filter;
- it classifies the terminal as critico, alerta or operativo, with priority
  Alta, Media or Baja;
- it suggests a reload amount.

Around the engine, the dashboard:

- filters the registry by agency, stored status and period, and refreshes the
  records it keeps;
- counts the records per status for the sidebar buttons;
- totals the amounts operators have entered for terminals in critico or
  alerta;
- lets an operator override the amount to reload for one terminal.

Modules:

- `Modelo` (`modelo.dfy`): the terminal record, the recommendation, the
  statuses, the priorities and the days-remaining value (`Finito(real)` or
  `Infinito`).
- `Pronostico` (`pronostico.dfy`): the forecast functions and the
  recommendation rule, stated with exact real arithmetic. Their contracts
  and lemmas restate them as integer cross-multiplications: "days < k" holds
  exactly when there is consumption and `7 * saldo < k * consumo`.
- `Flota` (`flota.dfy`): pure specifications of the fleet queries over the
  values of the records, and the lemmas about them.
- `Sesion` (`sesion.dfy`): the session registry as a sequence of distinct
  mutable record objects (`Ficha`), with the operations that change records
  in place:
  - `calcular_recomendacion`, which writes the status;
  - the filter pass, which refreshes the records it keeps and returns those
    same objects;
  - `update_monto_abastecer`.

  `CalcularRecomendacion` is proved against `Pronostico.Recomendar`. The
  filter pass and the override are proved against the `Flota` specification
  functions.
- `Semilla` (`semilla.dfy`): the six seed terminals and concrete scenarios.

Design choices:

- The status filter compares against the status stored in the record *before*
  the pass (app_atm.py:250), not the freshly computed one. A record's status
  changes only when it passes the filters.
- The suggested amount is not clamped at 0 (app_atm.py:142). A balance above
  capacity gives a negative suggestion; `MontoSugeridoSinTope` exhibits one.

## Model

| member | source | states |
|---|---|---|
| `Pronostico.DiasDeEfectivo` | app_atm.py:109-115 | Days remaining are infinite exactly when consumption is <= 0. Otherwise they are >= 0, and days * consumo = 7 * max(0, saldo), i.e. max(0, saldo / (consumo/7)). |
| `Pronostico.DiasMenorQue` | app_atm.py:109-115 | For a positive bound k, "days < k" holds iff consumo > 0 and 7 * saldo < k * consumo. An infinite estimate is never below k. |
| `Pronostico.SaldoPorDia` | app_atm.py:117-123 | Without consumption, the projection is the current balance. With consumption, 7 times the projection is max(0, 7 * saldo - dia * consumo), an integer. `SaldoPorDiaCotas`, `SaldoNoCreciente` and `TieneEfectivo` build on this. |
| `Pronostico.SaldoPorDiaCotas` | app_atm.py:117-123 | Without consumption, the projection is the current balance for every day offset. With consumption, it lies between 0 and max(0, saldo). |
| `Pronostico.SaldoNoCreciente` | app_atm.py:117-123 | The projected balance never increases as the day offset grows. |
| `Pronostico.TieneEfectivo` | app_atm.py:109-123 | The balance at T+dia is positive iff dia < days remaining (with consumption), or iff saldo > 0 (without consumption). In integers, with consumption: iff dia * consumo < 7 * saldo. |
| `Pronostico.CurvaDisponibilidad` | app_atm.py:342-344 | The 8-cell bar T0..T7: cell d is green iff the projected balance at day d is > 0. Green cells always precede red ones. |
| `Pronostico.Clasificar` | app_atm.py:132-140 | Critico iff fewer than 1 day; operativo iff not fewer than 3 days, always when the estimate is infinite; alerta otherwise. Alta, Media and Baja go with critico, alerta and operativo. |
| `Pronostico.Recomendar` | app_atm.py:125-150 | The recommendation carries the days remaining. `necesita` iff (7 * saldo < 3 * consumo with consumo > 0) or saldo < pronostico. Alta/critico iff 7 * saldo < consumo; Media/alerta iff consumo <= 7 * saldo < 3 * consumo; Baja/operativo otherwise, including no consumption. The suggested amount is capacidad - saldo when needed, else 0. |
| `Pronostico.NecesitaSiPocosDias` | app_atm.py:130 | Fewer than 3 days always triggers `necesita`. With infinite days, only saldo < pronostico decides. |
| `Pronostico.MontoSugeridoNoNegativo` | app_atm.py:142 | With saldo <= capacidad, the suggested amount is between 0 and capacidad - saldo. |
| `Pronostico.EstadoSoloDependeDeDias` | app_atm.py:132-140 | Records with equal days remaining get the same priority and status, whatever their forecast or stored status. |
| `Sesion.CalcularRecomendacion` | app_atm.py:125-150 | Returns the recommendation of the record's values. It writes the classified status into the record, and the returned `estado_actualizado` equals the written status. Nothing else in the record changes. |
| `Sesion.Ficha.Actualizar` | app_atm.py:261 | `c.update(...)` merges the recommendation into the record and leaves every other field unchanged. |
| `Sesion.Ficha.constructor` | app_atm.py:10-101 | A record object holds exactly the given terminal data. |
| `Sesion.NuevoRegistro` | app_atm.py:163-164 | The session registry starts as distinct fresh records holding the initial data. |
| `Sesion.CumpleFiltros` | app_atm.py:246-257 | A record passes iff it passes the agency, stored-status and period tests. Under a 't-N' period, with consumption, the period test holds iff N * consumo < 7 * saldo. Without consumption it holds iff saldo > 0. |
| `Sesion.FiltrarFicha` | app_atm.py:246-261 | One step of the pass: the record passes iff it meets the filters on its pre-pass values. If it passes, it is refreshed with its own recommendation; otherwise it is left unchanged. |
| `Sesion.FiltrarCajeros` | app_atm.py:243-262 | The result is exactly the registry's own record objects that pass the filters, in registry order. Exactly those records are refreshed in place; the others keep their old values, including their status. |
| `Flota.CumplePeriodo` | app_atm.py:252-257 | Under a 't-N' filter a record without consumption passes iff saldo > 0. A record with consumption passes iff N * consumo < 7 * saldo, i.e. iff the day-N balance is positive. |
| `Flota.Cumple` | app_atm.py:246-257 | The three tests together. Under the session's initial filters ('todas', 'todos', 'todos') every record passes. `Flota.CumplePeriodo` states the period test in integers. |
| `Flota.Pasan` | app_atm.py:245-262 | The positions kept by the filter are strictly increasing, each one passes the filters, and every passing position is included. |
| `Flota.PasanPaso` | app_atm.py:259-262 | Examining one more record appends its position to the kept positions iff it passes, as the loop appends to `cajeros_filtrados`. |
| `Flota.PasanUnico` | app_atm.py:245-262 | Any increasing list holding exactly the passing positions is the filter's result. |
| `Flota.Refrescar` | app_atm.py:259-261 | A refreshed record carries its own recommendation, and its status is that recommendation's. Nothing else changes, so it keeps the same recommendation. `RefrescarIdempotente` follows. |
| `Flota.Procesar` | app_atm.py:259-261 | One record through the pass. A passing record gets its own recommendation, and its status becomes that recommendation's status. A failing record is unchanged. Only status and recommendation can change. |
| `Flota.Pasada` | app_atm.py:259-261 | After a pass, records that fail the filters are unchanged. |
| `Flota.RefrescarIdempotente` | app_atm.py:125-150 | Refreshing a record twice gives the same record as refreshing it once. |
| `Flota.PasadaIdempotente` | app_atm.py:245-262 | Repeating the same filter pass leaves the registry as the first pass left it. |
| `Flota.SegundaPasadaSubconjunto` | app_atm.py:250 | Because the status test reads the pre-pass status, a second identical pass can only drop records from the view, never add any. |
| `Flota.SinFiltroEstadoEstable` | app_atm.py:245-262 | Without a status filter, a second pass keeps exactly the same records. |
| `Flota.PeriodoEsSubconjunto` | app_atm.py:253-257 | The 't-N' view is exactly the 'todos' view's records whose projected balance at day N is > 0, in the same order. |
| `Flota.ContarFiltrados` | app_atm.py:220-225 | The count is at most the number of records. It is 0 iff no record of the agency view has that stored status. `ContarEsTamanoDelFiltro` and `ContarParticion` relate it to the filter. |
| `Flota.ContarEsTamanoDelFiltro` | app_atm.py:220-225 | `contar_filtrados(e)` equals the number of cards the 'e' status filter shows (agency filter applied, period 'todos'). |
| `Flota.ContarParticion` | app_atm.py:220-236 | The three status counts add up to the number of records in the agency view. |
| `Flota.ParaAbastecer` | app_atm.py:273-276 | A record is listed for reload iff it is in the registry, its stored status is critico or alerta, and its amount is > 0. |
| `Flota.ParaAbastecerCuenta` | app_atm.py:273-285 | The reload list holds each pending record exactly as many times as the registry does, and nothing else. This fixes the count `len(cajeros_para_abastecer)` shown beside the total. |
| `Flota.TotalEsSumaDeAportes` | app_atm.py:273-277 | The total equals the sum over the whole registry of each record's contribution: its amount if it is pending, else 0. |
| `Flota.SinPendientesTotalCero` | app_atm.py:273-277 | With no pending record, the reload list is empty and the total is 0. |
| `Flota.TotalAbastecer` | app_atm.py:273-279 | The total is >= 0. It is > 0 iff at least one record is listed for reload, which is when the summary is shown. `TotalEsSumaDeAportes`, `TotalTrasCambio` and `TotalAcotado` state the rest. |
| `Flota.TotalTrasCambio` | app_atm.py:273-277 | Changing one record changes the total by that record's contribution only. An operativo record contributes nothing, whatever its stale amount. |
| `Flota.TotalAcotado` | app_atm.py:273-277 | When every amount is within [0, capacidad], the total lies between 0 and the sum of the capacities. |
| `Flota.PrimerIndice` | app_atm.py:378-379 | Finds the first position whose id matches. It finds none iff no record has that id. |
| `Flota.FijarMonto` | app_atm.py:374-381 | The first record with the id gets the amount. Only `montoAbastecer` changes, and only for that record. An unknown id leaves the registry unchanged. Amounts stay within their widget bounds. |
| `Flota.PasadaFijarMonto` | app_atm.py:243-262 | The filter pass and the override commute, because neither the filters nor the recommendation read the amount. So the total after the rerun that follows an override is the total of the overridden registry. |
| `Flota.MontoIngresado` | app_atm.py:380 | An empty or zero input stores 0. Any other input is stored as entered. |
| `Sesion.UpdateMontoAbastecer` | app_atm.py:374-381 | The registry afterwards equals the override applied to its old values: only the first matching record's amount changes. It also keeps every amount within [0, capacidad]. |
| `Semilla.DatosCajeros` | app_atm.py:10-101 | Six terminals with distinct ids, no amount entered, no recommendation merged, and amounts within bounds. |
| `Semilla.Atm004Recomendacion` | app_atm.py:56-70 | ATM-004: 1.75 days, replenishment needed, 52000 suggested, Media, alerta. |
| `Semilla.Atm001Recomendacion` | app_atm.py:11-25 | ATM-001: 7.5 days, no replenishment, 0 suggested, Baja, operativo. |
| `Semilla.Atm006Recomendacion` | app_atm.py:86-100 | ATM-006: exactly 7 days, so Baja and operativo. Its balance is below its forecast, so it still needs replenishment, with 42000 suggested. |
| `Semilla.MontoSugeridoSinTope` | app_atm.py:142 | A balance above capacity, with a forecast above it, still needs replenishment. It yields a negative suggestion (no clamp). |
| `Semilla.PrimeraVistaCritico` | app_atm.py:165-262 | The first render's 'critico' label counts 2, from the stored statuses of ATM-004 and ATM-005 (a filter on those values would show both and reclassify them as alerta). The session starts with all filters at 'todos', so the first pass refreshes every record and none is critico. From then on the button counts 0, and pressing it shows no card. |
| `Semilla.VistaT2` | app_atm.py:253-257 | On the seed data, the T-2 view keeps ATM-001, ATM-002, ATM-003 and ATM-006. |
| `Semilla.TotalInicial` | app_atm.py:273-277 | The seed registry has nothing to reload. |
| `Semilla.TotalTrasOverrides` | app_atm.py:243-381 | After the first 'todos' pass, ATM-004 (alerta) and ATM-006 (operativo) both need replenishment, so both show the amount input. Entering 20000 for ATM-004 makes the total 20000. Entering 5000 for ATM-006 afterwards leaves it at 20000. The same totals hold after the pass of the rerun that follows each override. The float amount described under "## Left out" may stop the 'todos' render at ATM-004's card (position 3). If so, ATM-006's input (position 5) is not drawn in that view, and the second override is entered from a view without ATM-004, such as the 'operativo' button. That view acts on the same registry, so the total is the same. |
| `Semilla.OverrideOperativo` | app_atm.py:273-277 | An override of an operativo record leaves the reload total unchanged, because such a record is never listed. |

## Left out

- Streamlit rendering is not modelled: page setup, sidebar widgets and buttons, HTML cards, progress bars, the detail panel with its pandas table, and `st.rerun`. These are presentation and foreign-library calls.
- `formatear_moneda` and the `"%.1f"` formatting of `diasRestantes` are not modelled. The record keeps the days-remaining value itself, not the formatted string.
- `get_estado_color` is a purely cosmetic mapping and is not modelled.
- The "Enviar Correos" action is a stub that only shows a message. Its clearing code is commented out, so it is not modelled.
- The filter and selection values in the session (`filtro_*`, `cajero_seleccionado`) are not modelled as state. The filters are inputs of the filter pass.
- Python float arithmetic is replaced by exact `real` arithmetic for `/ 7`. This changes visible results at exact boundaries. For example, with saldo = consumo = 60000 and period 't-7', the code computes 60000 - (60000/7)*7 = 60000 - 59999.99999999999, which is about 7.3e-12 > 0. So cell T7 is green and the record is kept. The model computes exactly 0, so the cell is red and the record is dropped.
- Money amounts are integers. `float(monto)` in the override is taken as the integer the bounded number input delivers.
- After an override, the code stores `montoAbastecer` as a float. The next render passes it as `value=` to `st.number_input`, whose `min_value`, `max_value` and `step` are integers (app_atm.py:387-392). Streamlit plausibly rejects mixed int and float arguments, so that render could stop at the card. This is library behaviour and is not modelled.
- The period option keys `'t-N'` are modelled as `Hasta(N)`. The string parsing `int(... .replace('t-', ''))` is not modelled, because the selectbox offers only well-formed keys.
- The number-input bounds [0, capacidadMaxima] are a precondition of `UpdateMontoAbastecer`, because the widget enforces them, not the code.
- Sesion.FiltrarCajeros: requires the registry's record objects to be distinct. A registry holding the same dictionary twice, which the seed data never does, is not modelled.
- Sesion.UpdateMontoAbastecer: ends with a `return` at the first match where the code uses `break`. Nothing follows the loop, so the effect is the same. The requirement that the records be distinct objects applies here too.
- Record fields that no operation writes are `const` in `Ficha`. In the code they are mutable dictionary entries that happen never to be written.
- The override callback is created only for cards whose recommendation says `necesita`. The model does not restrict which ids can be overridden.
