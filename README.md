# Workshop billing model

A Dafny model of the client-side billing logic of a car-workshop front end (a Next.js
application for work orders, invoices, products, services, vehicles and mechanics).

At its centre is the list of billable lines ("detalles"). Each line has a description,
a quantity, a unit price, an optional product or service id, and a kind: PRODUCTO,
SERVICIO or OTRO. Four screens keep such a list:

- the standalone invoice form (`FacturaIndependienteForm`);
- the work-order form (`OrdenForm`);
- the invoice editor (`EditarFacturaForm`);
- the mechanic's work page (`MiTrabajo`).

Each screen is a `class` whose fields are the screen's state cells. Its handlers are
methods that reassign those fields, and each handler is specified by a pure function
of the old state. Lemmas prove what the screen promises about those functions:

- the total is the sum of quantity times price;
- adding, removing and editing touch only the intended line;
- a service line keeps quantity 1;
- the stock gates hold;
- a submission is sent if and only if every check passes, and the payload carries the
  lines unchanged.

Around the ledger the model covers:

- the invoice and order list pages (`FacturasPage`, `OrdenesPage`): resolvers, filters,
  counters, busy flags, delete gates and row actions;
- the invoice form for finished orders (`FacturaForm`);
- the dashboard tables and summary (`Dashboard`);
- the vehicle document-expiry classifier and filters (`Vehiculos`);
- the product and service catalogue pages (`Productos`, `Servicios`);
- the mechanic form's validators and value cleaning (`MecanicoForm`);
- the spreadsheet export's column widths and file name (`ExcelExport`);
- the duration text shared by two screens (`Duracion`).

Shared modules:

- `Wrappers`: `Option`/`Result` and JavaScript truthiness of optional numbers;
- `Seqs`: sums, filters, subsequences and their lemmas;
- `Text`: ASCII lower/upper case, `trim`, `includes`, number printing and parsing;
- `Entidades`: line kinds, order and payment states, catalog entries.

Conventions:

- Money is an integer number of cents.
- A JavaScript `undefined`/`null` field is `None`.
- A server response is a parameter of the handler that awaits it, for example the
  success flag of a request or the reloaded record.
- A day count until a document expires is an input.

## Model

| member | source | states |
|---|---|---|
| Text.TrimOrNull | components/MecanicoForm.tsx:54-58 | `x?.trim() \|\| null`: null exactly for a missing or blank text, otherwise the trimmed, non-blank text |
| Text.Pad2 | lib/excelExport.ts:64-65 | `padStart(2, '0')` gives two digits for any number below 100 |
| Text.Pad2RoundTrip | lib/excelExport.ts:64-65 | the two padded digits read back as the number |
| Text.IncludesAt | app/facturas/page.tsx:159-161 | a text occurring at any position is found by `includes` |
| FacturaIndependienteForm.TipoEfectivo | components/FacturaIndependienteForm.tsx:581 | an explicit kind wins; otherwise PRODUCTO exactly when a product id is set, SERVICIO exactly when only a service id is set, else OTRO |
| FacturaIndependienteForm.NuevoDetalle | components/FacturaIndependienteForm.tsx:285-321 | the appended line has quantity 1 and the chosen kind; a catalog product copies name, price and product id; a catalog service copies name, price and service id; anything else gives an empty description, price 0 and no ids |
| FacturaIndependienteForm.Actualizar | components/FacturaIndependienteForm.tsx:340-353 | assigning a field changes that field only (key and ids kept); choosing the SERVICIO kind also sets quantity 1 |
| FacturaIndependienteForm.CantidadAceptada | components/FacturaIndependienteForm.tsx:415-472 | a service line never forwards a typed quantity; a forwarded value is positive; on a product line whose product is loaded it is at most that product's stock; a line of kind OTRO forwards exactly the positive values |
| FacturaIndependienteForm.ValidarLinea | components/FacturaIndependienteForm.tsx:580-611 | a line is accepted exactly when its quantity is positive, its price non-negative, a service has quantity 1 and a catalog product is within stock; an accepted line is its converted payload line |
| FacturaIndependienteForm.ValidarLineas | components/FacturaIndependienteForm.tsx:580-611 | the `map` over the lines yields one validated line per form line, or a per-line error (never a form-level one) |
| FacturaIndependienteForm.ValidarLineasOk | components/FacturaIndependienteForm.tsx:580-611 | the `map` over the lines succeeds exactly when every line is valid |
| FacturaIndependienteForm.ValidarLineasValor | components/FacturaIndependienteForm.tsx:580-611 | a successful `map` converts each line in place: trimmed description, the same quantity and price, null ids when absent, the effective kind |
| FacturaIndependienteForm.ValidarLineasPrefijo | components/FacturaIndependienteForm.tsx:580-611 | the first line that throws decides the error of the whole `map` |
| FacturaIndependienteForm.ValidarCadaLinea | components/FacturaIndependienteForm.tsx:580-611 | the line-by-line loop yields the same result as the whole-list validation |
| FacturaIndependienteForm.BuscarDescripcionVacia | components/FacturaIndependienteForm.tsx:618-623 | the loop reports a blank description exactly when some validated line has one |
| FacturaIndependienteForm.DescripcionesConvertidas | components/FacturaIndependienteForm.tsx:603 | trimming keeps blankness: a converted line is blank exactly when the typed description was (also lines 618-623) |
| FacturaIndependienteForm.EnviarRechaza | components/FacturaIndependienteForm.tsx:570-624 | a negative price, a quantity of 0 or less, a service with quantity other than 1, a product over stock or a blank description anywhere stops the submission |
| FacturaIndependienteForm.EnviarSinLineas | components/FacturaIndependienteForm.tsx:613-616 | an empty list is refused with "at least one item" |
| FacturaIndependienteForm.EnviarOkEsValido | components/FacturaIndependienteForm.tsx:565-673 | an accepted submission had validated fields, a line, only valid non-blank lines, and a resolvable client and vehicle |
| FacturaIndependienteForm.ValidoSeEnvia | components/FacturaIndependienteForm.tsx:565-673 | when all of those hold, the submission goes through |
| FacturaIndependienteForm.EnviarAceptaSiiValido | components/FacturaIndependienteForm.tsx:565-673 | both directions together: accepted if and only if valid |
| FacturaIndependienteForm.EnviarAceptado | components/FacturaIndependienteForm.tsx:580-636 | the payload has one line per form line with positive quantity, non-negative price, the effective kind, quantity 1 on services, a trimmed non-blank description, and the form's total |
| FacturaIndependienteForm.Enviar | components/FacturaIndependienteForm.tsx:565-678 | failed field validation is reported first, then a negative price, then an empty list; an accepted payload has one line per form line and no blank description |
| FacturaIndependienteForm.ClienteDe | components/FacturaIndependienteForm.tsx:639-658 | an existing client without an id is refused; a new client without a non-blank name is refused; otherwise a new client is sent with trimmed name and trimmed-or-null contact fields |
| FacturaIndependienteForm.VehiculoDe | components/FacturaIndependienteForm.tsx:660-676 | only a new vehicle without a non-blank plate is refused; a new vehicle's plate is trimmed and upper-cased and its brand trimmed; no vehicle mode sends none |
| FacturaIndependienteForm.EnviarCabecera | components/FacturaIndependienteForm.tsx:626-676 | an accepted payload has the payment status defaulted to NO_PAGA and the notes to "", the client and vehicle by id or as new records (plate trimmed and upper-cased), and no vehicle when an existing vehicle has no id |
| FacturaIndependienteForm.MensajeLanzado | components/FacturaIndependienteForm.tsx:585-601 | the message each line check throws names the line's description, and the stock message also the units left |
| FacturaIndependienteForm.MensajeMostradoComoEscrito | components/FacturaIndependienteForm.tsx:682-689 | as written, an early return shows its own text; a thrown message is shown as thrown or replaced by "Error al procesar el formulario" |
| FacturaIndependienteForm.CantidadYPrecioSeMuestran | components/FacturaIndependienteForm.tsx:683-684 | the quantity and price messages contain "debe ser", so they are shown as thrown and name the line |
| FacturaIndependienteForm.StockOculto | components/FacturaIndependienteForm.tsx:683-688 | as written, a stock error on a line whose description has no lower-case "d" is shown as the generic text, which does not carry the units left (also lines 599-601) |
| FacturaIndependienteForm.ServicioOculto | components/FacturaIndependienteForm.tsx:683-688 | as written, a service-quantity error on a line whose description has no lower-case "d" is shown as the generic text (also lines 593-595) |
| FacturaIndependienteForm.MensajeMostrado | components/FacturaIndependienteForm.tsx:682-689 | the intended message: every thrown line error is shown as thrown, so it names the line, and a stock error the units left; other refusals show their own text as written |
| FacturaIndependienteForm.Formulario.constructor | components/FacturaIndependienteForm.tsx:106-121 | the form starts with no lines, total 0, no products and the modal closed |
| FacturaIndependienteForm.Formulario.CargarProductos | components/FacturaIndependienteForm.tsx:232-256 | the catalog keeps exactly the products with stock above 0; lines and total untouched |
| FacturaIndependienteForm.Formulario.AgregarDetalle | components/FacturaIndependienteForm.tsx:275-282 | the new line is appended after the unchanged old ones, the total grows by its subtotal, and the modal closes (also lines 285-321) |
| FacturaIndependienteForm.Formulario.AgregarDetalleManual | components/FacturaIndependienteForm.tsx:323-334 | an empty line of the chosen kind with quantity 1 and price 0 is appended; the total is unchanged |
| FacturaIndependienteForm.Formulario.EliminarDetalle | components/FacturaIndependienteForm.tsx:336-338 | exactly the lines with that key go, the others stay in order, and the total drops by their subtotals |
| FacturaIndependienteForm.Formulario.ActualizarDetalle | components/FacturaIndependienteForm.tsx:340-353 | only lines with that key change, by `Actualizar`; the total follows the lines |
| FacturaIndependienteForm.Formulario.EditarCantidad | components/FacturaIndependienteForm.tsx:415-472 | an accepted quantity is stored on that line only; a refused one changes nothing |
| FacturaIndependienteForm.Formulario.EditarPrecio | components/FacturaIndependienteForm.tsx:482-500 | a non-negative price is stored on that line only; a negative one changes nothing |
| FacturaIndependienteForm.Formulario.HandleSubmit | components/FacturaIndependienteForm.tsx:565-689 | the handler yields exactly `Enviar`'s payload or error, with the checks in the handler's order; it accepts exactly the valid submissions, defaults the payment status to NO_PAGA, and upper-cases a new vehicle's trimmed plate; a refusal comes with the message `MensajeMostrado` gives for it, and an accepted submission with none |
| OrdenForm.ConvertirProducto | components/OrdenForm.tsx:151-156 | id, price and stock become `Number(x) \|\| 0`; the name is kept |
| OrdenForm.ConvertirServicio | components/OrdenForm.tsx:158-163 | a missing or zero duration becomes 60 minutes, a present one is kept, so no loaded service has duration 0 |
| OrdenForm.PrimerTexto | components/OrdenForm.tsx:208 | the saved description wins when non-empty, then the product's name |
| OrdenForm.FormatearDetalle | components/OrdenForm.tsx:196-215 | an embedded product makes a PRODUCTO line with its id; else an embedded service a SERVICIO line; else the saved kind or OTRO; quantity is never 0 and defaults to 1; price defaults to 0; duration is present and non-zero |
| OrdenForm.Incrementar | components/OrdenForm.tsx:243-247 | the lines referring to that catalog entry get one more unit; every other line is unchanged (also lines 274-278 for services) |
| OrdenForm.ConProducto | components/OrdenForm.tsx:232-261 | adding a product keeps every existing line's references and price and raises a quantity by at most one, or appends one line for that product with quantity 1 |
| OrdenForm.ConServicio | components/OrdenForm.tsx:263-293 | adding a service keeps every existing line's references and price and raises a quantity by at most one, or appends one line for that service with quantity 1 |
| OrdenForm.ConProductoUnaLinea | components/OrdenForm.tsx:232-261 | adding a product never makes a second line for the same product, and keeps service references one line each |
| OrdenForm.ConServicioUnaLinea | components/OrdenForm.tsx:263-293 | adding a service never makes a second line for the same service, and keeps product references one line each |
| OrdenForm.TotalIncrementar | components/OrdenForm.tsx:243-247 | incrementing raises the total by the unit prices of the incremented lines (also lines 274-278 and 329-332) |
| OrdenForm.ConProductoTotal | components/OrdenForm.tsx:232-261 | an unknown or out-of-stock product changes nothing; a product already on the order has its line incremented and the total rises by that line's price; otherwise one line at the catalog price is appended and the total rises by that price (also lines 329-332) |
| OrdenForm.ConServicioTotal | components/OrdenForm.tsx:263-293 | an unknown or inactive service changes nothing; a service already on the order has its line incremented and the total rises by that line's price; otherwise one line with quantity 1, the catalog price and the catalog duration is appended and the total rises by that price (also lines 329-332) |
| OrdenForm.PreciosUnaLinea | components/OrdenForm.tsx:241-247 | with one line per catalog entry, the incremented prices are that one line's price (also lines 272-278) |
| OrdenForm.SumZero | components/OrdenForm.tsx:241-247 | with no line for the catalog entry, incrementing touches no price (also lines 272-278) |
| OrdenForm.IncrementoSinRevisarStock | components/OrdenForm.tsx:241-248 | a product with stock 1 already on the order reaches quantity 2: the increment does not look at stock |
| OrdenForm.DuracionTrasAgregar | components/OrdenForm.tsx:232-305 | adding a product or the manual line leaves the estimated time alone; adding a new service line adds its duration (also lines 334-339) |
| OrdenForm.MinutosIncrementarProducto | components/OrdenForm.tsx:243-247 | incrementing product lines leaves the estimated time alone (also lines 334-339) |
| OrdenForm.MecanicosActivos | components/OrdenForm.tsx:140 | the offered mechanics are a subsequence with none marked inactive |
| OrdenForm.FindMecanicoEn | components/OrdenForm.tsx:367 | `find` returns the mechanic at the first position with that id |
| OrdenForm.FindMecanicoPrimero | components/OrdenForm.tsx:367 | what `find` returns sits at the first position with that id |
| OrdenForm.PrimerMecanico | components/OrdenForm.tsx:367-372 | the inactive-mechanic guard fires exactly when the first mechanic with that id is marked inactive |
| OrdenForm.Preparar | components/OrdenForm.tsx:350-410 | no lines is refused first; a sent order carries the chosen client, vehicle and mechanic ids, one payload line per form line, and observations only when non-empty |
| OrdenForm.PrepararSii | components/OrdenForm.tsx:350-372 | an order is sent exactly when it has lines, client, vehicle and mechanic are set, and the chosen mechanic is not marked inactive |
| OrdenForm.PrepararDetalles | components/OrdenForm.tsx:390-410 | the detail payload keeps each line's quantity, price and kind in order, trims descriptions, sends catalog ids only when positive, and carries the form's total |
| OrdenForm.PayloadTotal | components/OrdenForm.tsx:329-332 | the payload lines sum to the form total (also lines 390-410) |
| OrdenForm.Formulario.constructor | components/OrdenForm.tsx:114-116 | the form starts with no lines and no catalog |
| OrdenForm.Formulario.CargarCatalogo | components/OrdenForm.tsx:144-169 | the catalog is the converted lists; lines untouched |
| OrdenForm.Formulario.CargarDetalles | components/OrdenForm.tsx:196-217 | an edited order's saved lines become the form lines, converted one by one |
| OrdenForm.Formulario.AgregarProducto | components/OrdenForm.tsx:232-261 | the lines become `ConProducto` of the old ones, whose refusal, increment, appended line and total `ConProductoTotal` states, and keep one line per product |
| OrdenForm.Formulario.AgregarServicio | components/OrdenForm.tsx:263-293 | the lines become `ConServicio` of the old ones, whose refusal, increment, appended line and total `ConServicioTotal` states, and keep one line per service |
| OrdenForm.Formulario.AgregarItemManual | components/OrdenForm.tsx:295-305 | a "Mano de obra" line of kind OTRO, quantity 1 and price 0 is appended; the total is unchanged |
| OrdenForm.Formulario.EliminarItem | components/OrdenForm.tsx:307-309 | exactly position `index` goes and the total drops by its subtotal; an index out of range changes nothing |
| OrdenForm.Formulario.ActualizarCantidad | components/OrdenForm.tsx:311-315 | only that line's quantity changes, an emptied input giving 1; the total moves by the change of that line's subtotal (also line 801) |
| OrdenForm.Formulario.ActualizarPrecio | components/OrdenForm.tsx:317-321 | only that line's price changes, an emptied input giving 0; the total moves by the change of that line's subtotal (also line 814) |
| OrdenForm.Formulario.ActualizarDescripcion | components/OrdenForm.tsx:323-327 | only that line's description changes; the total is unchanged |
| EditarFacturaForm.ONulo | components/EditarFacturaForm.tsx:375 | `Number(x \|\| 0)`: a number is itself, an empty or missing field is 0 |
| EditarFacturaForm.TipoGuardado | components/EditarFacturaForm.tsx:166-174 | a loaded line is PRODUCTO exactly when it has a product id, SERVICIO exactly when it has only a service id, else OTRO |
| EditarFacturaForm.ConProductoEn | components/EditarFacturaForm.tsx:295-307 | choosing a product fills that line's name, price and product id, clears the service id, sets PRODUCTO and keeps quantity and id; other lines unchanged |
| EditarFacturaForm.ConServicioEn | components/EditarFacturaForm.tsx:309-322 | choosing a service fills name, price and service id, clears the product id, sets SERVICIO and quantity 1; other lines unchanged |
| EditarFacturaForm.Editada | components/EditarFacturaForm.tsx:341-371 | one cell of one line changes; a service line's quantity stays 1 whatever is typed; a new description keeps a catalog reference only if it names a catalog entry, ignoring case |
| EditarFacturaForm.ServiciosUnitariosPreservado | components/EditarFacturaForm.tsx:309-371 | "every service line has quantity 1" survives adding, editing, choosing and removing lines |
| EditarFacturaForm.CalcularTotal | components/EditarFacturaForm.tsx:373-377 | with every line passing the submit guard, the total is not negative |
| EditarFacturaForm.ImportesValidos | components/EditarFacturaForm.tsx:373-377 | lines the submit guard accepts sum to a non-negative total |
| EditarFacturaForm.ImporteValido | components/EditarFacturaForm.tsx:375 | a line the submit guard accepts has a non-negative amount |
| EditarFacturaForm.TotalTrasEditar | components/EditarFacturaForm.tsx:341-352 | an edit moves the total by the change of that line's amount; a description edit leaves it unchanged (also lines 373-377) |
| EditarFacturaForm.AgregarRapidoProductoComoEscrito | components/EditarFacturaForm.tsx:750-756 | as written, the quick add keeps the old lines and ends in a line with the product's id and price and no quantity |
| EditarFacturaForm.ConProductoRapido | components/EditarFacturaForm.tsx:750-756 | the intended quick add keeps the old lines and appends one unit of the product at its catalog price |
| EditarFacturaForm.RapidoProductoSinCantidad | components/EditarFacturaForm.tsx:750-756 | as written, the quick-added product line has no quantity, passes the submit guard and adds nothing to the total |
| EditarFacturaForm.RapidoProducto | components/EditarFacturaForm.tsx:750-756 | quick-adding keeps the old lines, appends one unit of the item at catalog price, and raises the total by that price (also lines 774-780) |
| EditarFacturaForm.HayInvalida | components/EditarFacturaForm.tsx:385-389 | the guard finds an invalid line exactly when some line has a blank description or a quantity or price not above 0 |
| EditarFacturaForm.Envio | components/EditarFacturaForm.tsx:379-432 | a save in flight refuses first, then an invalid line; a sent invoice carries the form values and one line per form line, at least one |
| EditarFacturaForm.EnvioSii | components/EditarFacturaForm.tsx:379-432 | an invoice is sent exactly when no save is in flight, there is a line, no line is invalid and the fields validate; then every line is sent unchanged, in order |
| EditarFacturaForm.Editor.constructor | components/EditarFacturaForm.tsx:108-118 | the editor starts idle with no lines and no catalog |
| EditarFacturaForm.Editor.Cargar | components/EditarFacturaForm.tsx:153-199 | the loaded lines are the saved ones with their kind inferred |
| EditarFacturaForm.Editor.AddDetalle | components/EditarFacturaForm.tsx:324-333 | an empty line of the chosen kind is appended; the total and the service-quantity invariant are kept |
| EditarFacturaForm.Editor.RemoveDetalle | components/EditarFacturaForm.tsx:335-339 | exactly position `index` goes, order kept, and the total drops by its amount; reachable only with two or more lines, so one line always remains (also line 625) |
| EditarFacturaForm.Editor.UpdateDetalle | components/EditarFacturaForm.tsx:341-371 | the lines become `Editada` of the old ones and keep the service-quantity invariant |
| EditarFacturaForm.Editor.SeleccionarProducto | components/EditarFacturaForm.tsx:295-307 | the lines become `ConProductoEn` of the old ones |
| EditarFacturaForm.Editor.SeleccionarServicio | components/EditarFacturaForm.tsx:309-322 | the lines become `ConServicioEn` of the old ones |
| EditarFacturaForm.Editor.AgregarRapidoProducto | components/EditarFacturaForm.tsx:750-756 | the intended quick add: one unit appended, total raised by the catalog price |
| EditarFacturaForm.Editor.AgregarRapidoServicio | components/EditarFacturaForm.tsx:774-780 | the quick add of a service: one unit appended, total raised by the catalog price |
| EditarFacturaForm.Editor.IniciarEnvio | components/EditarFacturaForm.tsx:379-404 | the decision is `Envio` on the current busy flag; an accepted save raises both busy flags, a refused one leaves them; lines untouched |
| EditarFacturaForm.Editor.TerminarEnvio | components/EditarFacturaForm.tsx:444-447 | `finally` lowers both flags whatever the outcome |
| MiTrabajo.Reenviada | app/mi-trabajo/page.tsx:281-288 | a re-sent line keeps description, quantity, price and kind; its product and service keys are the embedded object's id when present, else the plain key |
| MiTrabajo.PeticionAgregar | app/mi-trabajo/page.tsx:262-298 | nothing happens without an open order or a chosen product; a product missing from the catalog is refused; a sent list has one more line, for that product |
| MiTrabajo.ReenviadasImporte | app/mi-trabajo/page.tsx:281-288 | re-sending every line leaves the order's value (sum of quantity times price) unchanged |
| MiTrabajo.AgregarSii | app/mi-trabajo/page.tsx:262-298 | adding is sent exactly when an order is open, a product is chosen, it is in the catalog and its stock covers the quantity; the old lines go unchanged, the new one carries the catalog price, and the value rises by quantity times price |
| MiTrabajo.PeticionEliminar | app/mi-trabajo/page.tsx:325-348 | nothing happens without an open order; the only refusal is an unknown line; a sent list is no longer than the order's |
| MiTrabajo.EliminarSii | app/mi-trabajo/page.tsx:325-348 | removing is sent exactly when the line exists; every other line is sent, unchanged and in order, none with that id, and the value falls by the removed amount |
| MiTrabajo.PeticionCantidad | app/mi-trabajo/page.tsx:369-416 | nothing happens unless an order is open and a line is being edited; an unknown line is refused; a sent list has one entry per line |
| MiTrabajo.CantidadSii | app/mi-trabajo/page.tsx:369-416 | a quantity change is sent only for an existing product line, is refused for any other kind, and keeps every price, changing only the edited line's quantity |
| MiTrabajo.CantidadAceptada | app/mi-trabajo/page.tsx:380-394 | a product line whose catalog product has enough stock is sent |
| MiTrabajo.MisOrdenes | app/mi-trabajo/page.tsx:160-223 | someone who is not a mechanic with an id, or two failed requests, gets no orders; the dedicated answer is never extended; the fallback shows a subsequence of the general list |
| MiTrabajo.MisOrdenesSinFacturadas | app/mi-trabajo/page.tsx:160-223 | the list never holds an invoiced order; from the fallback list it holds only this mechanic's orders; from the dedicated list it is every non-invoiced order in order |
| MiTrabajo.MisOrdenesEditables | app/mi-trabajo/page.tsx:774 | every order on the list shows the line-editing controls, because no invoiced order reaches it (also lines 808 and 885) |
| MiTrabajo.DetallesProductos | app/mi-trabajo/page.tsx:475-477 | the product view holds only product lines |
| MiTrabajo.DetallesServicios | app/mi-trabajo/page.tsx:479-481 | the service view holds only service lines |
| MiTrabajo.VistasParticion | app/mi-trabajo/page.tsx:475-481 | the product view, the service view and the other lines together count every line of the order exactly once |
| MiTrabajo.Siguiente | app/mi-trabajo/page.tsx:541-559 | a row offers a status button exactly for RECIBIDA and EN_PROCESO, and it moves one stage forward, never to FACTURADA or CANCELADA |
| MiTrabajo.CantidadEntrada | app/mi-trabajo/page.tsx:747-752 | a cleared quantity input stands for 1, any other value is kept (also lines 913-918) |
| MiTrabajo.Pagina.constructor | app/mi-trabajo/page.tsx:123-137 | the page starts with no orders, no catalog, nothing open and a quantity of 1 |
| MiTrabajo.Pagina.CargarMisOrdenes | app/mi-trabajo/page.tsx:160-223 | the order list becomes `MisOrdenes` and holds no invoiced order; the open order is untouched |
| MiTrabajo.Pagina.CambiarCantidadNueva | app/mi-trabajo/page.tsx:913-918 | the new-product quantity becomes the typed value, 1 when cleared |
| MiTrabajo.Pagina.EditarCantidad | app/mi-trabajo/page.tsx:779-782 | the pencil starts editing that line with its current quantity |
| MiTrabajo.Pagina.AgregarProducto | app/mi-trabajo/page.tsx:262-322 | the request is `PeticionAgregar` on the current state; on success the order is reloaded and the inputs reset, otherwise nothing changes |
| MiTrabajo.Pagina.EliminarDetalle | app/mi-trabajo/page.tsx:325-366 | the request is `PeticionEliminar`; the order is replaced only after a successful request |
| MiTrabajo.Pagina.ActualizarCantidadDetalle | app/mi-trabajo/page.tsx:369-436 | the request is `PeticionCantidad`; on success the order is reloaded and editing ends, otherwise nothing changes |
| MiTrabajo.AgregarHabilitadoResponde | app/mi-trabajo/page.tsx:927 | a click on the enabled Add button of an open order sends the list or shows a refusal, never nothing, and a sent line has a positive quantity (also lines 262-298) |
| FacturaForm.Terminadas | components/FacturaForm.tsx:18-25 | the offered orders are exactly the finished ones, in their original order |
| FacturaForm.SeleccionSiempreTerminada | components/FacturaForm.tsx:18-37 | since only finished orders are offered, choosing one always selects the order found, and a selection is always a finished order of the input list |
| FacturaForm.SeleccionRechazada | components/FacturaForm.tsx:31-34 | choosing an order that is not finished would keep the previous selection |
| FacturaForm.AlEnviar | components/FacturaForm.tsx:115-124 | a payload is sent exactly when an order is selected; its total (0 when missing), client and vehicle come from that order, the rest from the form |
| FacturaForm.FormatPrice | components/FacturaForm.tsx:63-80 | a missing, empty or non-numeric price shows "$0.00"; a number shows "$" and its locale rendering |
| FacturaForm.Formulario.constructor | components/FacturaForm.tsx:14-16 | nothing offered or selected, payment state NO_PAGA |
| FacturaForm.Formulario.CargarOrdenes | components/FacturaForm.tsx:18-25 | the offered list becomes `Terminadas` of the input; the selection is kept and only finished orders are offered or selected |
| FacturaForm.Formulario.OnOrdenChange | components/FacturaForm.tsx:28-37 | the selection becomes the offered order with that id (or none) and the form's id field is set |
| FacturaForm.Formulario.OnFinish | components/FacturaForm.tsx:115-124 | the result is `AlEnviar` of the selection, and a sent invoice always comes from a finished order |
| FacturasPage.ObtenerVehiculo | app/facturas/page.tsx:128-144 | the invoice's own vehicle wins (origin "directo"), else the order's (origin "orden"); none exactly when neither exists |
| FacturasPage.ObtenerPlacaVehiculo | app/facturas/page.tsx:147-150 | the resolved vehicle's plate when it has one, otherwise "N/A"; never empty |
| FacturasPage.Describir | app/facturas/page.tsx:156-163 | the description starts with the plate; it is the plate alone without a make, and otherwise ends in ")" and contains the make |
| FacturasPage.ObtenerInfoVehiculo | app/facturas/page.tsx:153-165 | "N/A" without a resolved vehicle, else its description |
| FacturasPage.ObtenerMecanico | app/facturas/page.tsx:168-180 | the invoice's mechanic's name, else the order's mechanic's, else "N/A" |
| FacturasPage.ObtenerEspecialidadMecanico | app/facturas/page.tsx:183-194 | the first non-empty speciality of the invoice's mechanic and the order's, else "" |
| FacturasPage.EspecialidadDeOtroMecanico | app/facturas/page.tsx:168-194 | the name and the speciality shown can come from two different mechanics |
| FacturasPage.FiltrarFacturas | app/facturas/page.tsx:265-297 | the visible invoices are, in list order, exactly those passing the search (client, plate, id either way round, mechanic, vehicle) and both payment filters; no filter shows all |
| FacturasPage.RecaudadoMasPendiente | app/facturas/page.tsx:1065-1069 | the collected total (paid invoices, missing total as 0) and the pending total add up to the sum of all totals |
| FacturasPage.TotalRecaudado | app/facturas/page.tsx:1065-1069 | "Total Recaudado" sums the paid invoices, so it is 0 when none is paid |
| FacturasPage.TotalPendiente | app/facturas/page.tsx:1032 | the unpaid invoices' totals, 0 when none is unpaid; the page shows only their count, and this sum is the partner of `TotalRecaudado` |
| FacturasPage.Reemplazar | app/facturas/page.tsx:253-255 | the reloaded invoice replaces every entry with its id; the others and the length are kept |
| FacturasPage.Pagina.constructor | app/facturas/page.tsx:97-118 | no invoices, no edit in flight, no delete pending, password prompt closed |
| FacturasPage.Pagina.EliminarFactura | app/facturas/page.tsx:583-600 | while editing, for an unknown or a paid invoice nothing happens; otherwise the empty password prompt opens for that invoice, so it opens only for an unpaid one |
| FacturasPage.Pagina.IniciarEdicion | app/facturas/page.tsx:522-528 | an edit is accepted exactly when none is in flight; afterwards one is |
| FacturasPage.Pagina.ConcluirEdicion | app/facturas/page.tsx:535-559 | on a reload the invoice is replaced in the list and, if open, in the editor, and the editor version rises; on failure nothing changes; the busy flag always comes down (also lines 239-261) |
| OrdenesPage.Normalizar | app/ordenes/page.tsx:105-110 | a loaded order keeps its id and state, its total becomes a number (0 when it is not one) and its creation date falls back to the intake date |
| OrdenesPage.Insertar | app/ordenes/page.tsx:111-113 | inserting adds exactly that order to the list |
| OrdenesPage.InsertarOrdenado | app/ordenes/page.tsx:111-113 | inserting into a newest-first list keeps it newest first |
| OrdenesPage.OrdenarDesc | app/ordenes/page.tsx:105-113 | the loaded list is a permutation of the input sorted newest first by creation date |
| OrdenesPage.InsertarEstable | app/ordenes/page.tsx:111-113 | inserting an order puts it before the orders of the same creation date already placed, whose relative order is kept |
| OrdenesPage.OrdenarDescEstable | app/ordenes/page.tsx:111-113 | the sort is stable: orders with the same creation date keep their loaded order |
| OrdenesPage.ConEstado | app/ordenes/page.tsx:139-141 | after a status change only the orders with that id show the new state; all else is kept |
| OrdenesPage.CuentaDisjunta | app/ordenes/page.tsx:229-231 | received plus in-progress orders never exceed the order count |
| OrdenesPage.IngresosSinCambio | app/ordenes/page.tsx:139-141 | a status change leaves the revenue total unchanged (also line 232) |
| OrdenesPage.StatsCoherentes | app/ordenes/page.tsx:228-235 | the counters are coherent, and a status change keeps the order count and the revenue |
| OrdenesPage.Coincide | app/ordenes/page.tsx:242-252 | an empty lower-cased trimmed search matches every order |
| OrdenesPage.OrdenesFiltradas | app/ordenes/page.tsx:239-260 | the table never grows the list, shows only orders in the chosen state, and shows every order with no search and no filter |
| OrdenesPage.FiltradasSpec | app/ordenes/page.tsx:239-260 | the table shows, in list order, exactly the orders matching the trimmed lower-cased search (client name, client identification, plate, mechanic, or the raw search inside the order id) and the state filter; a blank search and no filter show all |
| OrdenesPage.AccionesDe | app/ordenes/page.tsx:354-399 | start only for RECIBIDA, finish only for EN_PROCESO, edit for anything not FACTURADA, delete only for RECIBIDA |
| OrdenesPage.AccionesCoherentes | app/ordenes/page.tsx:354-374 | start and finish are the mechanic page's forward transitions; deletable implies editable; an invoiced order offers no action |
| OrdenesPage.Pagina.constructor | app/ordenes/page.tsx:77-92 | no orders, nothing to delete, password prompt closed |
| OrdenesPage.Pagina.Cargar | app/ordenes/page.tsx:95-127 | the list becomes the normalised orders sorted newest first, a permutation of the input |
| OrdenesPage.Pagina.CambiarEstado | app/ordenes/page.tsx:133-146 | a successful change applies `ConEstado`, a failed one changes nothing; revenue is kept either way |
| OrdenesPage.Pagina.EliminarOrden | app/ordenes/page.tsx:148-152 | the delete button opens the empty password prompt for that order |
| OrdenesPage.Pagina.ConfirmarEliminacion | app/ordenes/page.tsx:649-680 | without a password or a selected order, or when the server refuses, nothing changes; otherwise exactly the orders with that id leave the list, the rest in order, and the prompt closes |
| Dashboard.EtiquetaEstadoPago | app/dashboard/page.tsx:189 | the export labels a paid invoice "PAGADA" and an unpaid one "NO PAGADA" |
| Dashboard.FiltrarOrdenes | app/dashboard/page.tsx:324-343 | no data gives no rows, an empty search gives every order; otherwise, in order, exactly the orders whose client, plate, id or state contains the lower-cased search |
| Dashboard.FiltrarClientesNuevos | app/dashboard/page.tsx:345-362 | no data gives no rows, an empty search gives every client; otherwise exactly those whose name, identification or phone contains the search, in order |
| Dashboard.FiltrarFacturas | app/dashboard/page.tsx:364-385 | no or empty data gives no rows, an empty search gives every invoice; otherwise exactly those whose client, plate, id, payment state or method contains the search, in order |
| Dashboard.CalcularResumenFacturas | app/dashboard/page.tsx:388-412 | the invoice count is the list's length (0 without data), and neither the paid nor the pending count exceeds it |
| Dashboard.ResumenCuadra | app/dashboard/page.tsx:388-412 | every invoice is counted once as paid or pending, the paid and pending amounts add up to the sum of all totals (missing as 0), and no data gives all zeros |
| Vehiculos.EstadoSoat | app/vehiculos/page.tsx:90-127 | no date gives "Sin SOAT"; otherwise red exactly when overdue, amber within 0-7 days, blue within 8-30, green beyond, and "Vencido" exactly when red |
| Vehiculos.EstadoTecno | app/vehiculos/page.tsx:129-165 | the same bands for the technical inspection, "Sin Tecno" without a date and "Vencida" when overdue |
| Vehiculos.MismosUmbrales | app/vehiculos/page.tsx:90-165 | both documents give the same colour for the same day count |
| Vehiculos.PasaSoatComoEscrito | app/vehiculos/page.tsx:488-511 | as written, a vehicle without SOAT date passes exactly "all" and "sin_fecha" |
| Vehiculos.PasaSoat | app/vehiculos/page.tsx:488-511 | the corrected SOAT filter passes every vehicle the written one passes, and "sin_email" passes exactly the vehicles whose client has no e-mail |
| Vehiculos.PasaSoatDifiere | app/vehiculos/page.tsx:489-507 | the filter as written and the corrected one disagree exactly on "sin_email" for a vehicle without SOAT date whose client has no e-mail |
| Vehiculos.VehiculosFiltrados | app/vehiculos/page.tsx:470-514 | with the corrected SOAT filter (see Findings), the list keeps order and holds exactly the vehicles passing the search, the exact brand and the SOAT select; nothing selected shows all |
| Vehiculos.Stats | app/vehiculos/page.tsx:400-434 | the total is the vehicle count and the SOAT counters (due soon, expired, no date) and the inspection counters never exceed it |
| Vehiculos.CuentaSoat | app/vehiculos/page.tsx:403-430 | due soon, expired, no date and later split the vehicles: the four counts add up to the total |
| Vehiculos.CuentaTecno | app/vehiculos/page.tsx:411-427 | the inspection's due-soon and expired counts together never exceed the total |
| Vehiculos.SoloFiltroSoat | app/vehiculos/page.tsx:470-514 | with no search and no brand, the list is the SOAT select's filter alone |
| Vehiculos.StatsComoFiltros | app/vehiculos/page.tsx:400-434 | each SOAT counter equals the length of the list its matching select option shows, "Cliente sin Email" included once corrected (also lines 488-511, 927-937) |
| Vehiculos.SinEmailComoEscritoOmite | app/vehiculos/page.tsx:488-511 | as written, a vehicle without SOAT date and without e-mail is counted by the "sin email" counter but not listed by its filter (also line 429) |
| Vehiculos.ClaseFila | app/vehiculos/page.tsx:982-992 | a red row exactly when either document is overdue; else an amber row exactly when either is due within a week |
| Productos.StockTag | app/productos/page.tsx:98-106 | "Sin stock" (red) exactly at or below 0, "Bajo stock" (orange) exactly when positive and at or below a set minimum, else "Disponible" |
| Productos.ColorInsignia | app/productos/page.tsx:147 | the badge colour is the tag's colour |
| Productos.ClaseFila | app/productos/page.tsx:288-292 | the row class follows the tag: no-stock, low-stock or none |
| Productos.MinimoMostrado | app/productos/page.tsx:157 | the minimum column shows the minimum when it is set and not 0, else 5 |
| Productos.MinimoMostradoNoSeUsa | app/productos/page.tsx:98-106 | the displayed default 5 is not used by the tag: 3 units with no minimum are tagged available (also line 157) |
| Productos.ProductosFiltrados | app/productos/page.tsx:196-202 | an empty search shows all; otherwise, in order, exactly the products whose name, reference or category contains the lower-cased search |
| Productos.SinStock | app/productos/page.tsx:230 | the "Sin Stock" counter never exceeds the product count |
| Productos.SinStockComoEtiquetas | app/productos/page.tsx:98-106 | the counter equals the number of rows tagged "Sin stock" and of rows highlighted as such (also lines 230, 288-292) |
| Servicios.Alternado | app/servicios/page.tsx:142-146 | after a toggle only the services with that id have their active flag flipped; every other field and service is kept |
| Servicios.AlternadoDosVeces | app/servicios/page.tsx:142-146 | toggling twice gives the list back |
| Servicios.TotalActivos | app/servicios/page.tsx:320 | the active counter never exceeds the service count |
| Servicios.TotalConRepuestos | app/servicios/page.tsx:321 | the spare-parts counter never exceeds the service count |
| Servicios.ActivosTrasAlternar | app/servicios/page.tsx:142-146 | a toggle moves the services with that id across the active counter, in the direction of their old flag (also line 320) |
| Servicios.RepuestosTrasAlternar | app/servicios/page.tsx:142-146 | a toggle leaves the spare-parts counter unchanged (also line 321) |
| Servicios.ServiciosFiltrados | app/servicios/page.tsx:311-318 | an empty search shows all; otherwise, in order, exactly the services whose name, description or category contains the lower-cased search |
| Servicios.ClaseFila | app/servicios/page.tsx:436-437 | inactive rows (when inactive ones are not requested) are marked inactive; otherwise rows needing parts are marked; else no class |
| Servicios.Pagina.constructor | app/servicios/page.tsx:43-50 | the page starts with no services, no stored role and access not denied |
| Servicios.Pagina.Cargar | app/servicios/page.tsx:71-90 | a handler whose closure holds the seller role stores the services received, or denies access on a 403 answer with the list kept; any other handler leaves the list and access as they were (guard at line 72) |
| Servicios.Pagina.MontarComoEscrito | app/servicios/page.tsx:53-68 | as written, the mount effect records a seller's role or denies another role, and in every case leaves the list as it was, because the load it calls is the first render's, which sees no role |
| Servicios.Pagina.Montar | app/servicios/page.tsx:53-68 | the intended mount: a seller's page records the role and shows the services received, or is denied access on a 403 answer; another role is denied access with the list untouched; no session changes nothing |
| Servicios.Pagina.ToggleActivo | app/servicios/page.tsx:139-155 | a successful toggle applies `Alternado`, a failed one changes nothing; the spare-parts counter is kept |
| MecanicoForm.ValidatePassword | components/MecanicoForm.tsx:81-89 | a password is accepted exactly when empty or at least 6 characters long; the refusal carries its message |
| MecanicoForm.ValidateConfirmPassword | components/MecanicoForm.tsx:91-100 | the confirmation is refused exactly when a password was typed and differs from it |
| MecanicoForm.ContrasenaRepetida | components/MecanicoForm.tsx:81-100 | a password of 6 or more characters repeated in the confirmation passes both validators |
| MecanicoForm.ConfirmacionExacta | components/MecanicoForm.tsx:91-100 | a typed password passes confirmation only if the confirmation is that same text |
| MecanicoForm.NombreActual | components/MecanicoForm.tsx:63 | the account name is `usuario` when filled, else `username` |
| MecanicoForm.Limpiar | components/MecanicoForm.tsx:50-75 | optional texts are trimmed and blank ones dropped; a blank username of an edited mechanic with an account is replaced by the account's name; an untouched password of an edited mechanic is dropped with its confirmation; name and active flag pass as typed |
| MecanicoForm.EdicionSinCambios | components/MecanicoForm.tsx:50-75 | editing a mechanic with an account, with username and password left empty, sends the account's name and no password |
| ExcelExport.Longitud | lib/excelExport.ts:48 | a falsy value (null, "", 0, false) has length 0 |
| ExcelExport.NumColumnasSpec | lib/excelExport.ts:45-53 | the column count is the longest row's length: every row fits and some row fills it |
| ExcelExport.AnchoMasAlla | lib/excelExport.ts:45-53 | a column past every row has width 0 |
| ExcelExport.AnchoMaxCota | lib/excelExport.ts:45-53 | a column's width bounds the length of every value in it |
| ExcelExport.AnchoMaxAlcanzado | lib/excelExport.ts:45-53 | a used column's width is the length of one of its values |
| ExcelExport.AnchosFila | lib/excelExport.ts:46-52 | one row folded into the widths gives the widths of the rows so far |
| ExcelExport.AnchosColumnas | lib/excelExport.ts:45-53 | the fold gives one width per column, each the longest value's length in it |
| ExcelExport.Acotar | lib/excelExport.ts:55-57 | a width is clamped into [10, 50] and kept when already inside |
| ExcelExport.Cola | lib/excelExport.ts:63-74 | the date tail of the file name has fixed length 17 for a valid date |
| ExcelExport.NombreArchivo | lib/excelExport.ts:63-74 | the file name starts with the export name and ends in ".xlsx" |
| ExcelExport.ColaRoundTrip | lib/excelExport.ts:63-74 | month, day, hour and minute are recoverable from the tail |
| ExcelExport.NombreArchivoRoundTrip | lib/excelExport.ts:63-74 | the export name and the full date and time are recoverable from the file name |
| ExcelExport.ExportToExcel | lib/excelExport.ts:33-74 | nothing is exported exactly when there is no data or it is empty; otherwise each column's width is its longest value's length clamped into [10, 50] and the file is `NombreArchivo` |
| Duracion.FormatDuracion | app/servicios/page.tsx:157-164 | the text ends in "h" exactly for a whole number of hours (60 minutes or more), else in "m" |
| Duracion.FormaMinutos | app/servicios/page.tsx:163 | under an hour the text is the minutes and "m", with a minus sign for a negative value |
| Duracion.RoundTripMinutos | app/servicios/page.tsx:157-164 | under an hour, the text reads back as the same minutes |
| Duracion.FormaHoras | app/servicios/page.tsx:158-161 | a whole number of hours is written as hours and "h" |
| Duracion.RoundTripHoras | app/servicios/page.tsx:157-164 | a whole number of hours reads back as the same minutes |
| Duracion.FormaHorasMinutos | app/servicios/page.tsx:158-161 | over an hour with a remainder, the text is hours, "h ", minutes and "m" |
| Duracion.RoundTripHorasMinutos | app/servicios/page.tsx:157-164 | hours with a remainder read back as the same minutes |
| Duracion.FormatDuracionRoundTrip | components/OrdenForm.tsx:341-348 | every non-negative duration is written losslessly: its text reads back as the same minutes |
| Seqs.FilterMultiplicidad | app/ordenes/page.tsx:230-231 | `filter` keeps every copy of a kept element and no copy of a dropped one, so each counter built from it counts duplicates faithfully |
| Seqs.Find | components/OrdenForm.tsx:233 | `find` by id: none exactly when no element has the id, otherwise the first element with it; used for products, services, mechanics, orders, invoices and order lines (also lines 264 and 367, components/FacturaForm.tsx:29, app/facturas/page.tsx:589 and app/mi-trabajo/page.tsx:330) |

## Left out

- Network and back end: every request is replaced by a parameter, namely its success flag or the data it returns. Checks made only on the server are not modelled. These are stock decrements, `/puede-editar`, password verification for secure deletes, and the mechanic-only endpoint's restrictions.
- Timing and concurrency: `setTimeout` delays, `Promise.all`, debounced searches and the reload after a write. Each handler is modelled as the state it leaves once its awaited results are in. Two stale closures change the result and are kept (see Findings): the invoice editor's quick add, and the services page's mount effect, whose `loadData` still sees no role. `Servicios.Pagina.Cargar` therefore takes the role its caller's closure holds.
- Floating point: fractional quantities, `NaN` and `Number(...)` coercion of arbitrary text. Prices are integer cents. A field that `Number(x) || 0` would turn into 0 arrives as `None` or 0.
- Locale and Unicode: `toLowerCase`/`toUpperCase` are modelled on ASCII letters only. `localeCompare` is not modelled. `toLocaleString` price rendering is a function parameter of `FacturaForm.FormatPrice`. Text lengths are counted in characters, while JavaScript's `.length` counts UTF-16 code units. `MecanicoForm.ValidatePassword`'s minimum length and the widths `ExcelExport.Longitud` and `ExcelExport.AnchoMax` therefore differ from the source for text outside the Basic Multilingual Plane, such as emoji.
- Dates: dayjs and `Date` arithmetic. The vehicle classifiers take the day difference as an integer. The expired counter's `isBefore(today, 'day')` is taken to agree with a negative day difference, which ignores the time-of-day edge where `diff` truncates toward zero. The file name takes the local date and time as an input. `OrdenesPage.Clave` gives an order with no creation or entry date the key 0, so it sorts last. The source's comparator gets `NaN` for such an order, and the engine's order for it is then implementation-defined.
- PDF export, the e-mail modal, tooltips, antd table rendering and the XLSX workbook and download in `exportToExcel`. Only the empty-data guard, the width arithmetic and the file name are kept.
- FacturaIndependienteForm.Formulario.CargarProductos: the alphabetical `localeCompare` sort of the catalog is left out, so the catalog keeps the server's order. The contract states which products are kept, not their order.
- FacturaIndependienteForm: line keys are `detalle_${Date.now()}_${Math.random()}` strings in the source. Here they are integer parameters chosen by the caller.
- OrdenForm.Formulario.ActualizarCantidad, OrdenForm.Formulario.ActualizarPrecio, OrdenForm.Formulario.ActualizarDescripcion: these require an index inside the list. The handlers are only reachable from a rendered row, and an assignment past the end would grow a sparse JavaScript array, which the model does not represent.
- EditarFacturaForm.Editor.RemoveDetalle, EditarFacturaForm.Editor.UpdateDetalle, EditarFacturaForm.Editor.SeleccionarProducto, EditarFacturaForm.Editor.SeleccionarServicio: these require an in-range index for the same reason. `splice` with a negative index, which counts from the end, is not modelled. `RemoveDetalle` also requires two or more lines, because its delete button is disabled when one line is left (components/EditarFacturaForm.tsx:625).
- Vehiculos.VehiculosFiltrados: the list uses the corrected SOAT filter `Vehiculos.PasaSoat`. As written, the "sin_email" choice also drops every vehicle without a SOAT date (see `Vehiculos.PasaSoatDifiere` and Findings).
- FacturaIndependienteForm.Formulario.HandleSubmit: the message it yields is the corrected `MensajeMostrado`. As written, the stock and service-quantity errors are shown as "Error al procesar el formulario" unless the line's description happens to contain "debe ser" (see `MensajeMostradoComoEscrito` and Findings).
- ExcelExport.AnchosColumnas: cells are read by position in each row, as `Object.keys(row)` order gives them. Rows whose keys come in different orders are not distinguished from rows of different columns.
- Duracion: the reader `LeerDuracion` exists only as the partner of `FormatDuracion` in the round-trip lemmas. The screens never parse a duration. `ExcelExport.LeerNombreArchivo` plays the same role for the file name.
- Authentication, routing, `localStorage`, and the pages and forms outside the billing core: clients, mechanics list, the product, service, vehicle and client forms, and the charts.
- The mechanic page's `handleSubmit` (order notes), `abrirOrden`, `cambiarEstado` request and `exportPDF` are request wrappers with no client-side rule beyond the status buttons, which `MiTrabajo.Siguiente` models.

## Findings

| source | as written | input that shows it | evidently intended | confidence | as-written member | corrected member |
|---|---|---|---|---|---|---|
| components/EditarFacturaForm.tsx:750-756 | the quick add appends a blank product line, then a timer calls `seleccionarProducto(detalles.length, producto)` from the render before the append. That call writes index `detalles.length` of the old list, replacing the appended line with an entry that has no `cantidad`. The entry passes the submit guard (`undefined <= 0` is false), adds 0 to the total and is sent with quantity `NaN` | quick-adding any catalog product to an invoice being edited | one unit of the product at catalog price, as the service tab's quick add gives | not executed | EditarFacturaForm.RapidoProductoSinCantidad | EditarFacturaForm.RapidoProducto |
| app/vehiculos/page.tsx:491-506 | the SOAT filter returns `soatFilter === 'sin_fecha'` for a vehicle without SOAT date before reaching the `sin_email` case. "Cliente sin Email" therefore never lists such a vehicle, although the `sinEmail` counter counts it | a vehicle with no SOAT date whose client has no e-mail, with the filter set to "sin_email" | the `sin_email` option lists every vehicle whose client has no e-mail, matching its counter | not executed | Vehiculos.SinEmailComoEscritoOmite | Vehiculos.StatsComoFiltros |
| app/servicios/page.tsx:53-72 | the mount effect stores the seller role with `setUserRol` and then calls `loadData` from the same first render. That closure still sees `userRol === null`, so the guard at line 72 returns before any request. The list stays empty until the refresh button (line 405) or a save reloads it | opening the services page with a seller's session | the catalogue loads as soon as a seller opens the page | not executed | Servicios.Pagina.MontarComoEscrito | Servicios.Pagina.Montar |
| components/FacturaIndependienteForm.tsx:683-688 | the `catch` shows a thrown message only when it contains "debe ser". The service-quantity message ("deben tener") and the stock message ("Stock insuficiente … Disponible: N") do not, so both are replaced by "Error al procesar el formulario", and the line and the units left never reach the user | submitting a product line "Filtro" for 5 units when 3 are in stock | the stock message, naming the line and the units left, is shown as the quantity and price messages are | not executed | FacturaIndependienteForm.StockOculto | FacturaIndependienteForm.MensajeMostrado |
