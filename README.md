# Sales and inventory rules of `desechos`, in Dafny

This project models the rules at the core of a Django application that keeps two
inventories:

- **Units for sale** (`Articulo`). Each unit is in one of six states: DISPONIBLE, RESERVADO,
  VENDIDO, REPARACION, BAJA or DESECHO.
- **Internal assets** (`InventarioItem`). Each asset is in use or in storage until it is
  decommissioned, which the code calls a *baja*.

A sale (`Venta`) collects units on its lines (`VentaDetalle`), each line with a price and a
discount, and receives payments (`Pago`). Five services move a sale through BORRADOR, PAGADA,
ENTREGADA and CANCELADA, and move its units with it:

- `reservar_articulos` reserves the sale's units;
- `marcar_pagada` records a payment, and marks the sale paid once the payments cover its total;
- `cancelar_venta` cancels the sale and releases its reserved units;
- `marcar_entregada` marks a paid sale delivered;
- `recalcular_totales` brings the sale's totals up to date.

The model also covers:

- the totals calculator and the validators of sales, lines and payments;
- the decommission rules of internal assets, in both copies of the code;
- the inventory and sales forms;
- the item-code formatter and the client-address helper of the audit log.

Money is integer cents throughout. A `DecimalField(max_digits=12, decimal_places=2)` holds
exactly the cent amounts `c` with `-10^12 < c < 10^12` (`Decimals.CentsFit`).

## Layout

| file | module | contents |
|---|---|---|
| `wrappers.dfy` | `Wrappers` | `Option` and `Result` |
| `digits.dfy` | `Digits` | Python's `str(n)` for naturals and its inverse |
| `decimals.dfy` | `Decimals` | Django's `DecimalValidator`, and the cent range of a money column |
| `codigo.dfy` | `Codigo` | `format_codigo` |
| `audit.dfy` | `Audit` | `get_client_ip`, with Python's `split` and `strip` |
| `inventario_domain.dfy` | `Articulos` | unit states, and the partial unique constraint on `serie` |
| `inventario_domain.dfy` | `InventarioItems` | `InventarioItem.clean` and `save` (inventario/domain/models.py) |
| `inventario_models.dfy` | `InventarioLegacy` | the second `InventarioItem.clean` (inventario/models.py) |
| `inventario_forms.dfy` | `InventarioForms` | `InventarioItemForm` and `InventarioBajaForm` |
| `ventas_domain.dfy` | `VentasDomain` | sale records, totals, validators, line hooks, and the tables as class `Tienda` |
| `ventas_services.dfy` | `VentasServices` | the five services, as functions of the tables and as methods on `Tienda` |
| `ventas_forms.dfy` | `VentasForms` | `VentaDetalleForm` and `PagoForm.clean_monto` |

Each service exists in two forms:

- **A function** over a snapshot `Db` of the four tables. It returns the new tables, or the
  error the service raises.
- **A method** on the class `Tienda`. It rewrites the tables in place, as the source does.
  It ends with a rollback (`Tienda.Restaurar`) when it raises after a write.

Each method's contract ties its new state to the function (`Conforme`). Each method also
keeps the tables' integrity: foreign keys hold and no unit is on two lines (`Tienda.Valid`).
The properties of the workflow are lemmas about the functions.

## Model

| member | source | states |
|---|---|---|
| `Codigo.FormatCodigo` | inventario/infrastructure/codigo.py:11-13 | every code starts with "SIS" and has at least one more character |
| `Codigo.ShortCodes` | inventario/infrastructure/codigo.py:13 | numbers 0 to 999 give six characters: "SIS", then the digits left-padded with '0' to three |
| `Codigo.LongCodes` | inventario/infrastructure/codigo.py:12-13 | from 1000 on the suffix is all of `str(n)`, never truncated, so the code is longer than six |
| `Codigo.RoundTrip` | inventario/infrastructure/codigo.py:13 | reading the number back from a code gives the number it was made from, for every integer (a negative one keeps its sign after "SIS") |
| `Codigo.Injective` | inventario/infrastructure/codigo.py:13 | different numbers never get the same code |
| `Codigo.FirstCode` | inventario/infrastructure/codigo.py:12 | item 1 gets "SIS001" |
| `Audit.FirstField` | inventario/models_audit.py:30 | `split(",")[0]` is the longest comma-free prefix: it stops at the first comma, or takes everything |
| `Audit.Strip` | inventario/models_audit.py:30 | `strip()` leaves no whitespace at either end and adds no character |
| `Audit.StripIsSlice` | inventario/models_audit.py:30 | `strip()` removes only whitespace, and only at the two ends |
| `Audit.GetClientIp` | inventario/models_audit.py:27-31 | a non-empty X-Forwarded-For gives an address with no comma and no surrounding whitespace; one without a comma gives the whole header stripped; an absent or empty header gives REMOTE_ADDR unchanged, or nothing |
| `Audit.ForwardedFirstEntry` | inventario/models_audit.py:28-30 | with a non-empty header, the address is exactly the text before its first comma (or all of it), stripped |
| `Decimals.DecimalCheck` | inventario/forms.py:65-66 | a value passes the digit limits of a decimal field exactly when its decimal places fit and its whole digits fit in the digits left over |
| `Decimals.CentsFit` | ventas/domain/models.py:134-144 | an amount in cents fits a 12-digit, 2-place column exactly when its magnitude is below 10^12 cents |
| `Articulos.AdmiteSerie` | inventario/domain/models.py:233-239 | a row may take a serie exactly when the constraint still holds afterwards; a null or empty serie is always accepted, however many rows already have one |
| `Articulos.AdmiteSerieExacto` | inventario/domain/models.py:233-239 | on a table that meets the constraint, writing a serie keeps it met exactly when the serie is null, empty, or held by no other row |
| `InventarioItems.CleanResult` | inventario/domain/models.py:116-139 | BAJA and DESECHO force activo off; an active item loses fecha_baja and motivo_baja and passes; an inactive one missing either gets both missing fields reported in one error; clean passes exactly when the fields it leaves are coherent, that is, activo exactly when neither baja field is set and no baja before the alta |
| `InventarioItems.CleanIdempotent` | inventario/domain/models.py:116-139 | cleaning the fields a clean left changes nothing and gives the same verdict |
| `InventarioItems.InventarioItem.Clean` | inventario/domain/models.py:116-139 | the in-place clean rewrites the fields and raises exactly as `CleanResult` says, leaving the stored row alone |
| `InventarioItems.Stamp` | inventario/domain/models.py:87 | `auto_now_add` sets the alta date to today on every insert, whatever it held, and changes no other field; an update changes nothing |
| `InventarioItems.SaveAsWritten` | inventario/domain/models.py:141-144 | save as written stores a row exactly when clean passes; an insert stores today as the alta date; the row is coherent on an update, and on an insert whose alta date was already today |
| `InventarioItems.SaveAsWrittenStoresBajaBeforeAlta` | inventario/domain/models.py:141-144 | a first save (an insert) of an item in BAJA with a baja date before the day of the save stores a baja earlier than its alta |
| `InventarioItems.SaveChecked` | inventario/domain/models.py:141-144 | with the alta date stamped before clean, every stored row is coherent, and an insert is dated today; it agrees with save as written on every update |
| `InventarioItems.InventarioItem.SaveUnchecked` | inventario/domain/models.py:141-144 | the in-place save as written, an insert when no row is stored yet, stores what `SaveAsWritten` stores, and keeps the old row when clean fails |
| `InventarioItems.InventarioItem.Save` | inventario/domain/models.py:141-144 | the corrected in-place save keeps every stored row coherent, and stores what `SaveChecked` stores |
| `InventarioLegacy.LegacyCleanResult` | inventario/models.py:110-134 | the second clean forces activo off for BAJA and DESECHO, reports both missing baja fields before clearing anything, clears them on an active item, and passes exactly when the result is coherent |
| `InventarioLegacy.SameAsDomain` | inventario/models.py:110-134 | the two copies of clean leave the same fields and raise the same error on every item |
| `InventarioLegacy.InventarioItem.Clean` | inventario/models.py:110-134 | this copy's in-place clean does what `LegacyCleanResult` says |
| `InventarioForms.AltaChoices` | inventario/forms.py:77-81 | the offered estados are exactly the EN_USO and ALMACEN choices of the field, kept in the field's order (a subsequence of it) |
| `InventarioForms.OfferedChoices` | inventario/forms.py:77-81 | the form offers EN_USO and then ALMACEN, and nothing else |
| `InventarioForms.NormalizeEstado` | inventario/forms.py:89-93 | the cleaned estado is EN_USO or ALMACEN, never BAJA or DESECHO; EN_USO and ALMACEN are kept, and anything else, including no estado, becomes ALMACEN |
| `InventarioForms.NormalizeIdempotent` | inventario/forms.py:90-93 | normalising a normalised estado leaves it unchanged |
| `InventarioForms.ValidarPrecioSugerido` | inventario/forms.py:61-69 | the optional price passes when empty; a given price passes exactly when it is non-negative with at most 2 decimal places and 10 whole digits, and a negative one is always reported |
| `InventarioForms.PrecioSugeridoCents` | inventario/forms.py:61-69 | a non-negative price in cents passes exactly when it is below 10^12 cents |
| `InventarioForms.CleanBaja` | inventario/forms.py:126-140 | an estado other than BAJA or DESECHO is an error on estado; for BAJA or DESECHO a missing fecha_baja and a missing motivo_baja are each reported on their own field |
| `VentasDomain.TotalesDe` | ventas/domain/models.py:102-113 | subtotal and descuento are the sums over the lines, impuestos is 0, total is subtotal minus descuento clamped at 0, all zero without lines; validated lines give non-negative totals with total at most subtotal |
| `VentasDomain.SumsAppend` | ventas/domain/models.py:102-105 | the price and discount sums add up over any split of the lines |
| `VentasDomain.Recalcular` | ventas/domain/models.py:95-120 | the recomputation fails exactly when the sale exists and a total of its lines does not fit the numeric(12,2) columns; otherwise it brings the sale's totals up to date and changes nothing else; a missing sale changes nothing |
| `VentasDomain.RecalcularDesborda` | ventas/domain/models.py:60-63 | two valid lines of 9,999,999,999.99 each give a subtotal the sale's column cannot hold, so the recomputation fails |
| `VentasDomain.RecalcularIdempotent` | ventas/domain/models.py:102-120 | after a recomputation that succeeds, recomputing again without a line change gives the same tables |
| `VentasDomain.TotalesEjemplo` | ventas/domain/models.py:102-113 | lines 100.00 with no discount and 50.00 less 10.00 give subtotal 150.00, discount 10.00, tax 0.00 and total 140.00 |
| `VentasDomain.SinDescuentoTotalEsSubtotal` | ventas/domain/models.py:139-144 | lines that keep the default discount of 0 and have non-negative prices give a total equal to the subtotal |
| `VentasDomain.CleanVenta` | ventas/domain/models.py:82-92 | every negative money field is reported under its own key, and a sale with none negative passes |
| `VentasDomain.RecalculadosLimpios` | ventas/domain/models.py:86-92 | totals computed from validated lines never fail the sale's clean |
| `VentasDomain.ValidarDetalle` | ventas/domain/models.py:132-169 | a missing unit raises; otherwise a line passes exactly when its sale exists, price and discount are non-negative cents that fit the column, the unit is not VENDIDO, BAJA or RESERVADO, and no other line holds it; each field is in error exactly for its own reasons (the unit field for the last two) |
| `VentasDomain.LineGuardPasses` | ventas/domain/models.py:160-169 | a DISPONIBLE, REPARACION or DESECHO unit with no other line passes the line guard |
| `VentasDomain.Pagado` | ventas/application/services.py:105 | the amount paid towards a sale is never negative when its payments are not |
| `VentasDomain.InsertarDetalle` | ventas/domain/models.py:171-175 | the new line is stored exactly when full_clean passes; the save raises nothing exactly when full_clean passes and the new totals fit the sale's columns, and then the sale's totals are up to date; when the recomputation raises, the line stays and the totals keep their old values; the tables keep their integrity |
| `VentasDomain.ActualizarDetalle` | ventas/domain/models.py:171-175 | the line is rewritten exactly when full_clean passes; the save raises nothing exactly when, in addition, the recomputed totals of the sale it now names fit their columns; the tables keep their integrity |
| `VentasDomain.EliminarDetalle` | ventas/domain/models.py:177-180 | the line is always deleted, whatever the unit's state; the sale it belonged to is brought up to date, or keeps its old totals when the recomputation raises; the tables keep their integrity |
| `VentasDomain.InsertarDetalleLocal` | ventas/domain/models.py:174-175 | saving a line of one sale, whether or not it raises, leaves every other sale's totals up to date |
| `VentasDomain.EliminarDetalleLocal` | ventas/domain/models.py:178-180 | deleting a line, whether or not the recomputation raises, leaves every other sale's totals up to date |
| `VentasDomain.LineasAppend` | ventas/domain/models.py:102 | the lines of a sale among any split of the table are the lines in each part, in order |
| `VentasDomain.ArticulosDeMembers` | ventas/application/services.py:38 | the units listed for a sale are exactly the units of its lines |
| `VentasDomain.Tienda.RecalcularTotalesPorId` | ventas/domain/models.py:95-120 | the in-place recomputation leaves the tables as `Recalcular` says, and reports when the database refuses the totals, writing nothing then |
| `VentasDomain.Tienda.GuardarDetalle` | ventas/domain/models.py:171-175 | the in-place save of a new line does what `InsertarDetalle` says and keeps the tables' integrity |
| `VentasDomain.Tienda.ModificarDetalle` | ventas/domain/models.py:171-175 | the in-place save of an existing line does what `ActualizarDetalle` says and keeps the tables' integrity |
| `VentasDomain.Tienda.BorrarDetalle` | ventas/domain/models.py:177-180 | the in-place delete does what `EliminarDetalle` says, error included, and keeps the tables' integrity |
| `VentasServices.Revisar` | ventas/application/services.py:48-99 | when reserving only DISPONIBLE passes; when paying, VENDIDO and BAJA always fail with their own error; with exigir_reservado only RESERVADO passes, and without it only RESERVADO or DISPONIBLE |
| `VentasServices.PrimeraFalla` | ventas/application/services.py:91-99 | the guard loop passes exactly when every existing unit passes, and otherwise raises the error of one of the units |
| `VentasServices.PrimeraFallaCabeza` | ventas/application/services.py:91-93 | when the first unit fails, its error is the one raised |
| `VentasServices.BuscarFalla` | ventas/application/services.py:48-50 | the loop over the units stops at the first failing unit, with the error the guard gives |
| `VentasServices.RecalcularTotales` | ventas/application/services.py:15-24 | a missing sale raises, and so do totals that do not fit the sale's columns; otherwise only the sale's four money fields change, to the totals of its lines |
| `VentasServices.Reservar` | ventas/application/services.py:27-53 | succeeds exactly for a BORRADOR sale with lines whose units are all DISPONIBLE; then each of those units is RESERVADO and nothing else changes; a sale in any other state raises "not BORRADOR" |
| `VentasServices.Pagar` | ventas/application/services.py:112-113 | a paid sale is PAGADA with a payment time, and an earlier payment time is kept |
| `VentasServices.MarcarPagada` | ventas/application/services.py:56-75 | a missing, CANCELADA or ENTREGADA sale, and a missing or negative amount, each raise their own error |
| `VentasServices.MarcarPagadaExito` | ventas/application/services.py:56-107 | payment succeeds exactly when the sale is neither CANCELADA nor ENTREGADA, the amount is present and non-negative, the recomputed totals fit their columns, the sale has lines, every unit passes the guard, the payment fits its columns, and earlier payments plus this one cover the recomputed total |
| `VentasServices.MarcarPagadaEfectos` | ventas/application/services.py:101-115 | a successful payment leaves the sale PAGADA with totals up to date, an earlier payment time kept or else `now`, and its delivery time unchanged; it appends exactly one payment; the payments cover the total; every unit of the sale is VENDIDO; no other unit or sale changes |
| `VentasServices.CobrarNoEsMonto` | ventas/application/services.py:74-75 | past the amount check, payment never raises the amount error |
| `VentasServices.PagarFallaEnUnidad` | ventas/application/services.py:77-99 | when a unit of a payable sale fails the guard, payment raises the guard's error, or the totals error when the recomputation before the guard raises |
| `VentasServices.Cancelar` | ventas/application/services.py:118-147 | PAGADA and ENTREGADA sales raise; a sale already CANCELADA is returned with nothing changed; any other sale ends CANCELADA with every other field of its row unchanged, and only its RESERVADO units go back to DISPONIBLE |
| `VentasServices.MarcarEntregada` | ventas/application/services.py:150-163 | only a PAGADA sale is delivered; it becomes ENTREGADA with a delivery time, an earlier delivery time is kept, and nothing else changes |
| `VentasServices.ReservarCancelarRestaura` | ventas/application/services.py:52-143 | reserving a sale and then cancelling it succeeds and puts every unit back in the state it had |
| `VentasServices.CancelarIdempotente` | ventas/application/services.py:125-126 | cancelling a cancelled sale succeeds and changes nothing |
| `VentasServices.SegundoPagoFalla` | ventas/application/services.py:92-93 | after a successful payment, paying the same sale again raises "already VENDIDO" for its first unit |
| `VentasServices.PagoInsuficiente` | ventas/application/services.py:104-107 | a payment that leaves the recomputed total uncovered raises |
| `VentasServices.OperacionesPreservanIntegridad` | ventas/domain/models.py:131-132 | every service keeps the foreign keys valid and no unit on two lines |
| `VentasServices.RecalcularTotalesVenta` | ventas/application/services.py:15-24 | the in-place service does what `RecalcularTotales` says |
| `VentasServices.ReservarArticulos` | ventas/application/services.py:27-53 | the in-place service does what `Reservar` says, and changes nothing when it raises |
| `VentasServices.MarcarPagadaVenta` | ventas/application/services.py:56-115 | the in-place service does what `MarcarPagada` says, and rolls back every write when it raises |
| `VentasServices.CobrarVenta` | ventas/application/services.py:80-115 | the part after the recomputation does what `Cobrar` says, and removes the payment it inserted when the total is not covered |
| `VentasServices.CancelarVenta` | ventas/application/services.py:118-147 | the in-place service does what `Cancelar` says |
| `VentasServices.MarcarEntregadaVenta` | ventas/application/services.py:150-163 | the in-place service does what `MarcarEntregada` says |
| `VentasForms.OfertaArticulos` | ventas/forms.py:37-39 | the form offers only units that exist, and none that the line guard refuses |
| `VentasForms.OfertaExacta` | ventas/forms.py:38-39 | a unit is offered exactly when it is DISPONIBLE |
| `VentasForms.CleanDetalleForm` | ventas/forms.py:46-54 | a chosen unit that already has a line is refused; no unit, or a unit without a line, passes |
| `VentasForms.FormularioAceptaLinea` | ventas/forms.py:46-54 | a line the form accepts, with valid money for an existing sale, is accepted when it is saved |
| `VentasForms.FormularioRechazaRepetido` | ventas/forms.py:50-52 | a unit the form refuses for already having a line is refused on the unit field when saved |
| `VentasForms.CleanMonto` | ventas/forms.py:62-68 | an empty amount passes unchanged, a negative one is refused, and any other is returned unchanged |
| `VentasForms.MontoDelFormulario` | ventas/forms.py:62-68 | for a payable sale, payment raises the amount error exactly when clean_monto refuses the amount or it is empty |

## Behaviour of the code worth knowing

The workflow might suggest otherwise in each case below; the model follows the code.

- Deleting a line (ventas/domain/models.py:177-180) does not look at the unit's state. A line
  whose unit is already VENDIDO can be deleted.
- The line guard (ventas/domain/models.py:161-165) refuses only VENDIDO, BAJA and RESERVADO.
  A unit in REPARACION or DESECHO can be put on a line.
- `marcar_pagada` does not refuse a PAGADA sale. Paying the same sale again right after fails,
  because its units are then VENDIDO (`VentasServices.SegundoPagoFalla`): the unit guard
  refuses it, not the sale's state. The line hooks do not look at the sale's state either, so
  after lines of a paid sale are deleted or added, a later payment can fail for another reason
  (no lines, or a unit that is not RESERVADO or DISPONIBLE) or even succeed.
- "A VENDIDO unit is on a line of a paid sale" is not an invariant of the code. Deleting a
  line does not check the unit's state, and code outside the services can set unit states.

## Left out

- Locks and transactions. `select_for_update` and lock ordering are not modelled. Each service
  is one step, and `transaction.atomic` becomes the rollback `Tienda.Restaurar`.
- The line hooks' recomputation runs at commit (`transaction.on_commit`). The model runs it
  right after the line write, which stays stored when the recomputation raises. Other writes
  committed in the same transaction between the two are not modelled.
- Clocks. `timezone.now()` is the parameter `now`. `auto_now_add` uses the parameter `today`
  and is modelled only for `fecha_alta`.
- Unit order. The guard loops in the services walk the units in `Articulo`'s default order
  (newest first); the model walks them in line order. When several units fail, the source may
  therefore report a different unit than the model. Whether a service succeeds, and its
  effect, do not depend on the order.
- VentasServices.MarcarPagada: amounts are whole cents. An amount with more than two decimal
  places, which `Pago`'s full_clean refuses, cannot be expressed.
- `Pago.metodo` is an enumeration, so a string outside the choices cannot be passed. The
  choices check of full_clean is therefore not modelled.
- Field validation that only parses input is not modelled. This covers form fields turning
  text into values, `ModelChoiceField` refusing an unoffered unit, and the `required` flags.
  The modelled `clean` methods receive values that already passed that stage.
- The order of querysets (`-created_at` for the offered units, `-fecha`, `-creada_en`) is
  not modelled; `OfertaArticulos` is a set.
- InventarioForms.ValidarPrecioSugerido: the field is always present in the model. The source
  adds it only when the model has `precio_sugerido_venta` (`_model_has_field`).
- `Venta.clean` is modelled but not called by any service. The services write the totals
  with `update()`, and `save()` on a `Venta` does not call full_clean.
- Fields that no rule reads: folio, customer, seller, creation times, the unit's product, and
  the asset's other attributes.
- `next_codigo_num`, the SQL triggers and sequences that issue codes and folios, and data
  seeding. These are database side effects. The SQL `lpad` also behaves differently from
  `format_codigo` beyond three digits.
- The exports, the REST API, the admin (including its bulk actions, which set unit states
  directly), the web views, URL configuration, authentication, file storage, and storing and
  printing audit entries. These are I/O, foreign libraries or the user interface.
- The text of error messages: only the kind of each error is modelled.

## Findings

| source | as written | input that shows it | evidently intended | confidence | as-written member | corrected member |
|---|---|---|---|---|---|---|
| inventario/domain/models.py:141-144 | `save` runs full_clean before the insert. The insert is where `auto_now_add` sets `fecha_alta` (line 87). On a first save clean therefore sees no alta date and skips the date check at lines 138-139. | A new item in BAJA, inactive, with a motivo and fecha_baja day 9, saved on day 10: it is stored with fecha_baja 9 before fecha_alta 10. | No stored row has a baja before its alta, the rule clean states at lines 138-139. | not executed | `InventarioItems.SaveAsWrittenStoresBajaBeforeAlta` | `InventarioItems.SaveChecked` |
