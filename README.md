# Mundo Waffles orders and printing, modelled in Dafny

This project models the core of the Mundo Waffles point-of-sale back office. It is a Flask application that takes
orders through two sales channels: delivery (`tipoventa_id` 2) and the counter, "mostrador" (`tipoventa_id` 1).
It prints kitchen, customer and courier tickets on 42-column thermal printers, either directly through the Windows
spooler or through a small HTTP print relay.

The Dafny modules follow the Python files one by one:

- `Cart`: the session carts. They are insertion-ordered dictionaries from a product id to name, price and quantity.
- `Orders`: the `ventas` and `producto_venta` tables, with the catalogues in class `Db`. Class `Session` holds the
  browser session. The module also has the line-table operations and the invariant every committing route keeps:
  each order's `total` is Σ precio_venta·cantidad over its lines.
- `Delivery` and `Mostrador`: one method per route of `routes/delivery.py` and `routes/mostrador.py`. Each route is
  all-or-nothing. It returns a response, and for printing routes a print request.
- `VentaModel`: the order and line records, their defaults, `to_dict` and the modifier surcharge.
- `Printer`: `utils/printer.py`. It has the ESC/POS commands and the ticket texts as line lists, with their line
  counts and key lines. Class `ThermalPrinter` is the guard around the spooler. The module also has the printer
  choice by profile.
- `HostTickets` and `PrinterHost`: `app/printer_host.py`. They have the relay's helpers and ticket builders, the
  device selection, the job dispatch and the HTTP status of `/print/job`.
- `PrinterManager`: `utils/printer_manager.py`, the first-match lookup of a configured printer, the profile map and
  the driver update.
- `PrintClient`: `utils/print_client.py`, the relay client's URL, job bodies and result mapping.
- `Forms`: the RUT and passport validation of `forms.py`, with the check-digit defect documented below.
- `Reportes`, `Filters`, `Pruebas` and `HelpersDb`: the pure helpers of the report, the template filters, the
  prototype screens and `utils/helpers_db.py`.
- `Text` and `Wrappers`: Python's `str(int)`, `{:,}` grouping, padding, centring, slicing and joining, and `None` as
  `Option`.

Money is whole pesos (`int`). Formatted dates are opaque strings and elapsed times are inputs. The spooler, the
network and the JSON parser are parameters of the operations that use them.

## Model

| member | source | states |
|---|---|---|
| Cart.AddSpec | routes/delivery.py:116-126 | an existing key gets cantidad + 1 with name and price kept, a new key is appended with cantidad 1; every other key maps to what it did; keys stay distinct and quantities positive; the subtotal grows by the entry's price |
| Cart.AddTwice | routes/delivery.py:116-124 | adding a new product twice leaves one entry with quantity 2 at the name and price given first |
| Cart.AdjustSpec | routes/delivery.py:156-162 | 'aumentar' adds a unit, 'disminuir' takes one away and deletes the entry at ≤ 0; an absent key or any other action leaves the cart as it was; other keys never change; no entry with quantity ≤ 0 survives |
| Cart.IncreaseSpec | routes/delivery.py:156-158 | one more unit on a present key, an absent key leaves the cart as it was, every other key unchanged |
| Cart.DecreaseSpec | routes/delivery.py:159-162 | one unit less on a present key, the entry deleted when it reaches 0, an absent key leaves the cart as it was, every other key unchanged |
| Cart.RemoveSpec | routes/delivery.py:172-176 | removal deletes exactly the given key (a no-op when absent) and lowers the subtotal by that entry's line total |
| Delivery.RenderCarritoActualizado | routes/delivery.py:182-199 | the loop's subtotal is Σ precio·cantidad over the cart and the total adds the session shipping cost (0 when unset) |
| Delivery.AgregarAlCarrito | routes/delivery.py:108-144 | a price that `float()` cannot read (missing or not a number) is a 500 that leaves the session as it was; otherwise the session cart becomes `Add` of the old one and the view shows it; the session stays well formed |
| Delivery.ActualizarCantidad | routes/delivery.py:150-167 | the session cart becomes `Adjust` of the old one and the view shows it |
| Delivery.EliminarDelCarrito | routes/delivery.py:172-178 | the session cart becomes `Remove` of the old one and the view shows it |
| Delivery.NuevaVentaSpec | routes/delivery.py:215-229 | the new order's total is the cart subtotal without shipping; it is in preparation, unpaid, channel 2, with the session's shipping cost; the chosen courier (any id, 0 included; none only for the empty choice), the comments and the estimated time are stored as submitted |
| Delivery.FinalizarPedido | routes/delivery.py:204-274 | an empty cart is a 400 with nothing stored; a cart entry that is not a product is a 500 with nothing stored; otherwise the order and one line per cart entry (in cart order, at cart price and quantity, no discount) are stored, the kitchen ticket is requested, the four session keys are cleared and 'refresh-pendientes' is sent; every order's total stays the sum of its lines |
| Delivery.TriggersSpec | routes/delivery.py:392-398 | the lists of the old and the new state are refreshed, each once and nothing else |
| Delivery.CambiarEstado | routes/delivery.py:340-403 | a target outside 1..3 is a 400 and an unknown order a 404, both changing nothing; sending an order without a receipt type changes nothing; any other target, skips and backward moves included, is stored as is, with the triggers of the old and new state and the courier voucher only on state 2; no order is ever left sent and unpaid by this route |
| Delivery.CobrarPedido | routes/delivery.py:411-452 | records the receipt type and the number prefix + "-" + id padded to 6, prefix "B" exactly when the submitted value reads "1" (or is missing); the delivery state is untouched; unknown order or unconvertible / unknown type is a 500 with nothing stored |
| Delivery.EditarLineaSpec | routes/delivery.py:477-486 | one unit more or less moves the order's total by exactly the line's price (deleting the line at 0), other orders' totals do not move, the table stays well formed |
| Delivery.ActualizarProductoPedido | routes/delivery.py:460-495 | 404 for an unknown order, 403 unless in preparation, 404 for a line of another order, all changing nothing; otherwise the edited table is stored with the order's total recomputed from its remaining lines |
| Delivery.EliminarProductoPedido | routes/delivery.py:499-525 | after the same guards the line is deleted and the stored total drops by exactly its precio_venta·cantidad |
| Delivery.MergeLineaSpec | routes/delivery.py:586-609 | merging adds exactly `cantidad` units of the product to the order and none of anything else; the total grows by cantidad times the price of the line that took them; other orders do not move |
| Delivery.AgregarProductoPedido | routes/delivery.py:570-617 | after the order guards, an unknown product is a 404; otherwise one unit is merged onto the order's first line for the product or a new line at the catalogue price, and the total is recomputed |
| Delivery.CarritoTempAgregar | routes/delivery.py:623-653 | 403 unless the order exists and is in preparation; a price `float()` rejects is a 500 with the temporary cart unchanged; otherwise the order's temporary cart becomes `Add` of the old one, at price 0 when the field is missing |
| Delivery.CarritoTempAumentar | routes/delivery.py:657-666 | one unit more when the product is in the temporary cart, otherwise no change; no order check |
| Delivery.CarritoTempDisminuir | routes/delivery.py:670-681 | one unit less, deleting the entry at 0, when present; otherwise no change |
| Delivery.CarritoTempEliminar | routes/delivery.py:685-694 | the product leaves the temporary cart when present; otherwise no change |
| Delivery.MergeCartQty | routes/delivery.py:713-737 | after merging the temporary cart, each product's quantity in the order is its old quantity plus its quantity in the cart |
| Delivery.MergeRows | routes/delivery.py:713-737 | the loop computes the fold of `MergeLinea` over the cart in cart order, keeps the table well formed and moves no other order's total |
| Delivery.ConfirmarProductos | routes/delivery.py:698-761 | 403 for an order not in preparation and no change for an empty temporary cart; otherwise every entry is merged, the total is recomputed, the 'added' ticket lists exactly the cart entries and the temporary cart leaves the session; a non-product entry is a 500 with nothing stored |
| Delivery.MarcarEliminar | routes/delivery.py:767-776 | the line id is appended to the order's removal list only when absent, so the list stays duplicate-free and contains the id |
| Delivery.DesmarcarEliminar | routes/delivery.py:780-789 | the id leaves the removal list and every other id stays as it was |
| Delivery.PurgeSpec | routes/delivery.py:808-815 | exactly the order's own listed lines are deleted; lines of other orders and unlisted lines stay; other orders' totals do not move; at most one ticket entry per listed id |
| Delivery.PurgeRows | routes/delivery.py:808-815 | the loop computes `Purge` over the list in order and keeps the table well formed |
| Delivery.ConfirmarEliminacion | routes/delivery.py:793-839 | 403 for an order not in preparation, no change for an empty list; otherwise the listed lines are purged, the total recomputed, the 'removed' ticket requested and the list leaves the session |
| Delivery.ItemsPedidoTotal | routes/delivery.py:528-547 | the partial's total is the sum over the lines it shows plus the shipping cost (0 when unset) |
| Orders.ParseIntRoundTrip | routes/delivery.py:423 | `int()` reads back every integer's decimal text: `int(str(n)) == n` |
| Orders.ParseIntPython | routes/delivery.py:423 | like Python's `int()`, blanks around the number and single underscores between digits are accepted (`" 1"` is 1, `"1_0\n"` is 10), while a doubled underscore or a blank after the sign is rejected |
| Orders.GroupsValue | routes/delivery.py:423 | a value exactly for digits separated by single underscores |
| Orders.NumeroComprobante | routes/delivery.py:429 | the receipt number is the prefix, a dash and at least six digits |
| Orders.NumeroComprobanteId | routes/delivery.py:429 | the digits after the dash read back as the order id |
| Orders.NumeroComprobanteInjective | routes/delivery.py:428-429 | two orders never get the same receipt number under one prefix |
| Orders.LinesOfTotal | routes/delivery.py:485-486 | summing over the order's own lines (`filter_by(venta_id=…)`) gives the same total as the whole table gives the order |
| Orders.CartLinesTotal | routes/delivery.py:219-242 | the committed lines add up to the cart's Σ precio·cantidad, which is the total the order is stored with |
| Orders.TotalsOkNewOrder | routes/delivery.py:215-244 | storing a new order with the cart subtotal as total, together with the cart's lines, keeps every order's total equal to the sum over its lines |
| Orders.TotalsOkRecompute | routes/delivery.py:484-488 | recomputing one order's total after a change that touched only its lines keeps every total consistent |
| Orders.InsertarLineas | routes/delivery.py:234-242 | the insert loop appends one line per cart entry, in cart order, at the cart's price and quantity, no discount, with fresh consecutive ids |
| Orders.InsertarPedido | routes/delivery.py:215-244 | the commit stores the order under the next id and its lines after it, and the database stays valid: ids fresh, lines pointing at orders and products, every total the sum over its lines |
| Orders.GuardarEdicion | routes/delivery.py:484-488 | an edit's commit stores the new table and the order's total recomputed from it, and the database stays valid |
| Orders.RemoveFirstSpec | routes/delivery.py:785-786 | on a list without repeats `list.remove(x)` leaves no `x`, keeps every other element and no repeats |
| Orders.Session.LimpiarDelivery | routes/delivery.py:259-262 | the cart, client, order data and shipping cost leave the session |
| Orders.Session.LimpiarMostrador | routes/mostrador.py:191-193 | the counter cart, client name and comments leave the session |
| Orders.Session.DescartarTemp | routes/delivery.py:755 | only the order's temporary cart leaves the session |
| Orders.Session.DescartarPendientes | routes/delivery.py:833 | only the order's removal list leaves the session |
| Mostrador.RenderCarritoMostrador | routes/mostrador.py:117-133 | the partial lists exactly the cart's items, each with price·quantity as its subtotal; the total equals the subtotal, since the counter charges no shipping |
| Mostrador.AgregarProducto | routes/mostrador.py:61-82 | a price that `float()` cannot read (missing or not a number) is a 500 that leaves the session as it was; otherwise the counter cart becomes the old cart with the product added: one more unit when present, otherwise a new entry with quantity 1; the view shows the new cart |
| Mostrador.ActualizarCantidad | routes/mostrador.py:86-103 | "aumentar" adds a unit, "disminuir" removes one and drops the entry at zero; any other action or an absent item leaves the cart as it was |
| Mostrador.EliminarProducto | routes/mostrador.py:107-114 | the entry is removed if present and nothing else in the cart changes |
| Mostrador.NuevaVentaMostradorSpec | routes/mostrador.py:141-160 | the new counter order has the cart subtotal as total, channel 1, `estado_mostrador` 1, `estado_delivery` 0, no receipt type, and the session's client name (or "Cliente Mostrador") as comments |
| Mostrador.GuardarPedido | routes/mostrador.py:137-207 | an empty cart is a 400 with "El carrito está vacío" and changes nothing; a product outside the catalogue is a 500 that stores nothing; otherwise the order and one line per cart entry are stored, a kitchen ticket is requested from the "cocina"/"comanda" printer, the three session keys are cleared and the answer refreshes the preparation and ready lists |
| Mostrador.PagadosIgnoreEstado | routes/mostrador.py:216-221 | the paid list (3) depends only on channel and receipt type: changing an order's `estado_mostrador` leaves it unchanged |
| Mostrador.ListasDisjuntas | routes/mostrador.py:216-226 | the preparation and ready lists never share an order, and every list holds counter orders only |
| Mostrador.TriggersMostradorSpec | routes/mostrador.py:281-289 | "refresh-preparacion" is sent iff the old or the new state is 1, "refresh-listos" iff either is 2; no trigger twice; a valid new state always sends at least one |
| Mostrador.CambiarEstado | routes/mostrador.py:248-295 | a state outside {1, 2} is a 400 and an unknown order a 404, both changing nothing; "listo" on an order without a (truthy) receipt type is a 400; otherwise only that order's `estado_mostrador` changes, the response carries the triggers; the call never makes an unpaid order ready, and a counter order then shows in the list of its new state and not in the other |
| Mostrador.PrefijoMostradorTextoUno | routes/mostrador.py:306-315 | a submitted "1" and a missing field both record receipt type 1, yet only the missing field gets prefix "B": the submitted text never equals the integer 1 |
| Mostrador.CobrarPedido | routes/mostrador.py:299-337 | an unknown order or a receipt type that is not an integer or not in the table is an error that stores nothing; otherwise the order gets the receipt type and the number prefix-dash-six-digit id, a receipt ticket is requested, the three lists are refreshed and the order joins the paid list |
| VentaModel.NewVenta | src/models/Venta_model.py:62-79 | a new `ventas` row carries the given id, number and total and the column defaults: `estado` 1, `estado_delivery` 1, `estado_mostrador` 1, `costo_envio` 0, no client, receipt type or channel |
| VentaModel.ToDict | src/models/Venta_model.py:35-44 | the dictionary holds every column of the line under its own key, so the line is rebuilt from it (`FromDict(d) == pv`) |
| VentaModel.SumExtrasAppend | src/models/Venta_model.py:54-56 | the surcharges of two consecutive lists of extras add up |
| VentaModel.SumExtrasNonNegative | src/models/Venta_model.py:54-56 | with no negative surcharge the total of the extras is not negative |
| VentaModel.CalcularPrecioExtras | src/models/Venta_model.py:46-57 | no extras (None or empty) cost 0; otherwise the result is the sum of every extra's `precio_adicional`, a missing key counting as 0 |
| Printer.FeedLines | utils/printer.py:29 | `FEED_LINES(n)` is the three bytes ESC, 'd', n, for any n that fits a byte |
| Printer.Centrar | utils/printer.py:515-520 | a centred line is never wider than the ticket; a text at least as wide is cut to the width; a shorter one is preceded by exactly half the free space, rounded down, in blanks; any text that fits the width ends the line whole, never cut |
| Printer.ReciboItemsAt | utils/printer.py:132-150 | the receipt's item block has three lines per item, item k at lines 3k..3k+2 |
| Printer.ReciboFacts | utils/printer.py:100-182 | the delivery receipt has 13 header lines (16 with a client), three lines per item led by the product name cut to 30, and its TOTAL line shows `total` plus `costo_envio` (0 when null) |
| Printer.ReciboMostradorFacts | utils/printer.py:462-512 | the counter receipt has a client line only for non-empty comments, three lines per item led by the name cut to 30, and its TOTAL line shows the stored `total` with no shipping |
| Printer.ComandaFacts | utils/printer.py:226-253 | the kitchen ticket is a blank line, "#id   TIPO", the time, 42 dashes, one "{cantidad}x {NAME}" line per item with the whole name upper-cased, 42 dashes and a blank line |
| Printer.DeltaFacts | utils/printer.py:255-313 | the AGREGADO and ELIMINADO tickets have the kitchen frame without the time line, one upper-cased line per product |
| Printer.ComprobanteItemsAt | utils/printer.py:396-404 | the voucher's item block has two lines per item, item k at lines 2k..2k+1 |
| Printer.ComprobanteIgnoresStoredTotal | utils/printer.py:395-416 | the courier voucher never reads the stored `total`: orders differing only in it print the same voucher |
| Printer.ComprobanteFacts | utils/printer.py:361-424 | the voucher has 16 header lines (18 with a client), two lines per item, and its TOTAL line shows Σ cantidad·precio_venta plus `costo_envio or 0`, with thousands separated by commas |
| Printer.AppendReciboItems | utils/printer.py:132-150 | the item loop appends each item's three lines after the header, in order |
| Printer.GenerarRecibo | utils/printer.py:100-182 | the delivery receipt text is its lines joined by newlines |
| Printer.GenerarReciboMostrador | utils/printer.py:462-512 | the counter receipt text is its lines joined by newlines |
| Printer.AppendComandaItems | utils/printer.py:239-248 | the kitchen-ticket loop appends one line per item after the header, in order |
| Printer.GenerarComandaCocina | utils/printer.py:226-253 | the kitchen-ticket text is its lines joined by newlines |
| Printer.TextoDelta | utils/printer.py:261-274 | the text of the AGREGADO/ELIMINADO ticket is its lines joined by newlines |
| Printer.AppendComprobanteItems | utils/printer.py:395-404 | the voucher loop appends each item's two lines and accumulates the subtotal Σ cantidad·precio_venta |
| Printer.GenerarComprobanteDelivery | utils/printer.py:361-424 | the voucher text is its lines joined by newlines, its subtotal taken from the loop |
| Printer.Feed | utils/printer.py:84 | the spooler feeds 3 lines after the AGREGADO and ELIMINADO tickets and 5 after every other ticket |
| Printer.GenerarTexto | utils/printer.py:59-98 | each ticket kind is rendered by its own generator |
| Printer.ThermalPrinter.constructor | utils/printer.py:33-57 | without the Windows spooler there is no printer; otherwise the given name, or the system default when the name is missing or empty |
| Printer.ThermalPrinter.Imprimir | utils/printer.py:59-98 | with no printer the call returns False and sends nothing; otherwise one RAW job is sent with the ticket's document name, its text, FEED_LINES(n) and the partial cut, and the result is whether the spooler accepted it |
| Printer.GetPrinter | utils/printer.py:527-538 | `get_printer` names the printer by the `PRINTER_NAME` setting |
| Printer.ProfilePrinterName | utils/printer.py:541-556 | the printer is named after a matching printer's driver when that driver name is non-empty, and after `PRINTER_NAME` otherwise or when the lookup fails |
| Printer.GetPrinterByProfile | utils/printer.py:541-556 | `get_printer_by_profile` builds its printer with that name |
| HostTickets.FormatPrecio | app/printer_host.py:93-103 | a value `float` rejects prints "$0"; any other amount starts with '$' followed by at least one character |
| HostTickets.FormatPrecioDigits | app/printer_host.py:99-101 | after the '$', a non-negative amount is its digits grouped with '.', and removing the dots gives back its decimal digits |
| HostTickets.FormatPrecioSeparators | app/printer_host.py:99-101 | after the '$', a '.' stands exactly at every fourth position from the right |
| HostTickets.FormatPrecioThousands | app/printer_host.py:94-97 | each further group of three digits adds a '.' and that group zero-padded (1000 prints "$1.000", 1500000 "$1.500.000") |
| HostTickets.CenterSpec | app/printer_host.py:75-76 | `_center` is `str.center`: as wide as the larger of width and text, the text kept whole, the two paddings differing by at most one |
| HostTickets.CenterVersusCentrar | app/printer_host.py:75-76 | on a text wider than the ticket the relay keeps it whole while the server's `_centrar` cuts it |
| HostTickets.ReciboBlockFacts | app/printer_host.py:137-150 | a receipt item takes three lines plus one per attribute, its first line the name cut to 30 |
| HostTickets.ReciboHeaderLength | app/printer_host.py:106-135 | the receipt header is thirteen fixed lines plus at most three client lines |
| HostTickets.ReciboTotalLine | app/printer_host.py:155-168 | the receipt's TOTAL line shows `total_con_envio` when the payload has it, otherwise `total` plus `costo_envio` |
| HostTickets.ComandaFacts | app/printer_host.py:181-242 | the kitchen ticket has a 4-line header (5 with a client name), one line per item and a closing blank; each item line is the quantity, "x " and the upper-cased name cut to 35 |
| HostTickets.RelayCutsKitchenNames | app/printer_host.py:233-236 | the relay and the server print the same kitchen line for an item exactly when its name has at most 35 characters |
| HostTickets.DeltaFacts | app/printer_host.py:245-288 | the AGREGADOS and ELIMINADOS tickets are four frame lines, one kitchen line per product and a closing blank |
| HostTickets.DireccionSplit | app/printer_host.py:337-343 | an address up to 35 characters is one line; a longer one is split into characters 0..35 and 35..70 on two lines |
| HostTickets.Monto | app/printer_host.py:390-393 | a voucher amount line is the label padded to 28, a blank and the price right-aligned in 11 |
| HostTickets.DeliveryTotalesLines | app/printer_host.py:390-393 | the voucher's amounts block shows the subtotal on its third line and subtotal plus shipping on its sixth |
| HostTickets.DeliverySubtotalLine | app/printer_host.py:356-386 | the voucher's subtotal is the order's `total` when truthy, otherwise the sum over the products that carry a price |
| HostTickets.DeliveryTotalLine | app/printer_host.py:377-393 | the voucher's TOTAL line is that subtotal plus `costo_envio` (absent: 0) |
| PrinterHost.AppendAtributos | app/printer_host.py:150-151 | the attribute loop appends one "    - k: v" line per attribute, in order |
| PrinterHost.AppendReciboItem | app/printer_host.py:137-152 | the item loop's body appends exactly that item's block |
| PrinterHost.ReciboLineas | app/printer_host.py:106-176 | `build_recibo`'s list is the header, one block per item in order, and the footer |
| PrinterHost.BuildRecibo | app/printer_host.py:106-178 | the receipt text is those lines joined by newlines |
| PrinterHost.BuildComanda | app/printer_host.py:181-242 | the kitchen-ticket text is its lines joined by newlines |
| PrinterHost.BuildDelta | app/printer_host.py:245-288 | `build_agregados` and `build_eliminados` give the delta lines, differing only in the marker, joined by newlines |
| PrinterHost.DeliveryItem | app/printer_host.py:356-370 | one product gives its voucher lines and adds cantidad·precio_venta to the computed subtotal only when it carries a price |
| PrinterHost.DeliveryLineas | app/printer_host.py:291-400 | `build_delivery`'s list is header, product blocks and footer, with the footer's subtotal taken from the accumulated priced sum |
| PrinterHost.BuildDelivery | app/printer_host.py:291-402 | the voucher text is those lines joined by newlines |
| PrinterHost.SelectPrinter | app/printer_host.py:38-46 | the preferred name when non-empty and enumerated, otherwise the default printer; only when asking for the default raises, the first enumerated printer, and None exactly when there is neither |
| PrinterHost.PrintBytes | app/printer_host.py:49-72 | without a driver nothing is sent and the answer is "No hay impresora disponible"; otherwise one document with the title, the content, the feed newlines and the cut is sent, and the answer is ok exactly when writing did not raise |
| PrinterHost.KindOf | app/printer_host.py:405-438 | the job types are told apart by exact comparison, and a type outside the six known ones is unknown |
| PrinterHost.BuildContenido | app/printer_host.py:409-434 | raw jobs print their content, "pedido" its pre-rendered text or else the built receipt, the other kinds their built ticket |
| PrinterHost.ProcessJob | app/printer_host.py:405-438 | an unknown type or a raw job without content answers not-ok and sends nothing; a job is sent exactly when its type is known, it has content and a printer is selected; the answer is ok exactly when sent and written; "pedido" always feeds 5 and cuts, the others use the given feed and cut, 5 and cut by default |
| PrinterHost.HttpStatus | app/printer_host.py:468-469 | the route answers 200 exactly for an ok result and 400 otherwise |
| PrinterHost.PrintJob | app/printer_host.py:459-470 | `/print/job` runs the job, type "raw" when absent, and answers 200 exactly when the job went through; a body with neither type nor content is a 400 that prints nothing |
| PrinterManager.FirstMatch | utils/printer_manager.py:37-56 | the position returned is that of a matching printer, and no printer before it matches |
| PrinterManager.ObtenerPorPerfil | utils/printer_manager.py:26-77 | a failing query gives None; a printer returned is in the table, active, lists `perfil` among its profiles and `tipo` (when given) among its types; None means no printer matches |
| PrinterManager.ObtenerPorPerfilIsFirst | utils/printer_manager.py:37-56 | the printer returned is the first match in query order |
| PrinterManager.InactiveIgnored | utils/printer_manager.py:34 | an inactive printer never changes the outcome of the lookup |
| PrinterManager.UndecodableSkipped | utils/printer_manager.py:62-69 | a printer whose profile or type list does not decode is skipped |
| PrinterManager.AnyTipoWeaker | utils/printer_manager.py:52-53 | a lookup without a type finds a printer whenever the same lookup with a type does |
| PrinterManager.PrinterTable.GuardarDriver | utils/printer_manager.py:80-86 | False for an unknown id; otherwise that printer's driver name is replaced, nothing else changes, and the result is True |
| PrinterManager.MapearPerfiles | utils/printer_manager.py:89-97 | the map has exactly the four profiles as keys, each with exactly the four types, and each entry is the lookup for that pair |
| PrintClient.PrintHostClient.constructor | utils/print_client.py:15-19 | the relay URL is stored with its trailing slashes stripped |
| PrintClient.PrintHostClient.Url | utils/print_client.py:23 | a request URL is the base URL followed by the path |
| PrintClient.PrintHostClient.Post | utils/print_client.py:22-34 | status 200 gives the decoded body; another status gives "Status N"; an unreachable relay gives "PrintHost no disponible en" and the URL; a result that says ok came from a 200 answer |
| PrintClient.PrintHostClient.HealthCheck | utils/print_client.py:37-43 | the relay is up exactly when GET /health answers 200 |
| PrintClient.PrintHostClient.ListPrinters | utils/print_client.py:45-53 | a non-empty list is the `printers` entry of a 200 answer; every failure gives [] |
| PrintClient.PrintHostClient.PrintJob | utils/print_client.py:56-74 | the body holds exactly 'type' and 'payload', plus 'driver' for a non-empty driver and 'feed' and 'cut' whenever given, and is posted to /print/job |
| PrintClient.PrintHostClient.PrintRaw | utils/print_client.py:77-84 | a raw job carries `{'content'}`, feed 3 and cut unless told otherwise |
| PrintClient.PrintHostClient.PrintPedido | utils/print_client.py:86-91 | an order job carries the order id and its text and no feed or cut |
| PrintClient.RawBodyHasFeedAndCut | utils/print_client.py:77-84 | a raw job's body always has 'feed' (3 by default) and 'cut' (true by default), and 'driver' exactly for a non-empty driver |
| PrintClient.PedidoBodyHasNoFeed | utils/print_client.py:86-91 | an order job's body has no 'feed' or 'cut', so the relay applies its own defaults, and its payload has exactly the keys 'pedido_id' and 'contenido' |
| PrintClient.RStripIdempotent | utils/print_client.py:18 | stripping trailing slashes twice is stripping them once, and the stored URL never ends in '/' |
| PrintClient.GetPrinthostClient | utils/print_client.py:94-101 | the client is built for the `PRINTHOST_URL` setting, "http://localhost:8765" when unset, with a 10-second timeout |
| Forms.SinSaltoFinal | forms.py:90 | the text the pattern's `$` is anchored against is the value itself or the value without one final newline |
| Forms.SumaRutAntepuesto | forms.py:101-103 | a digit put in front of a body adds its value times the weight of its position from the right (2, 3, …, 7, 2, …) |
| Forms.DigitoEsperado | forms.py:105 | as written, the expected digit is missing (the index 11 is out of range) exactly when the weighted sum is a multiple of 11; otherwise it is a digit of "123456789K" |
| Forms.DigitoEsperadoCorregido | forms.py:105 | corrected, the expected digit is always in "0123456789K", is '0' exactly for a multiple of 11, and otherwise agrees with the code as written |
| Forms.RutSinGuion | forms.py:94-96 | for a well-formed RUT, removing the dash leaves the body followed by the check digit (and any final newline) |
| Forms.RutLargo | forms.py:94-96 | a well-formed RUT without its dash has at least eight characters |
| Forms.ValidarDocumento | forms.py:84-113 | any type other than '1' and '2' passes; a passport passes exactly when it is 6 to 12 ASCII letters or digits and never raises anything else; a RUT that does not match `\d{7,8}-[\dkK]` gets the format message |
| Forms.ValidarDocumentoCorregido | forms.py:84-113 | the corrected validator agrees with the original on every type but '1' and on ill-formed RUTs |
| Forms.PesoSiguiente | forms.py:103 | the weight steps 2, 3, …, 7 and then back to 2 |
| Forms.SumarCuerpo | forms.py:99-103 | the loop over the reversed body sums each digit times its weight; a non-digit (where `int` raises) gives no sum |
| Forms.ValidarNumeroDocumento | forms.py:84-113 | the validator as written computes what ValidarDocumento states |
| Forms.ValidarRutEscrito | forms.py:94-108 | the check-digit part as written: strip the dash, upper-case the last character, sum the rest and compare with the expected digit |
| Forms.RutPartes | forms.py:88-108 | a body of 7–8 digits, a dash and a check digit is well formed, and its verdict is the comparison of the upper-cased check digit with the digit expected for the body's weighted sum |
| Forms.EscritoFallaConRestoCero | forms.py:105 | as written, a well-formed RUT raises IndexError exactly when its body's weighted sum is a multiple of 11, and otherwise behaves as the corrected validator |
| Forms.RutDigitoCeroFalla | forms.py:105 | "10000004-0" makes the validator raise IndexError, while the corrected validator accepts it |
| Forms.SumaEjemplo | forms.py:99-103 | the weighted sum of "10000004" is 11 |
| Forms.CorregidoAceptaUnDigito | forms.py:105-108 | corrected, a well-formed RUT is accepted exactly when its upper-cased check digit is the expected one, and otherwise rejected with the check-digit message |
| Forms.MinusculaK | forms.py:95 | 'k' and 'K' are the same check digit |
| Forms.CorregidoUnico | forms.py:105-108 | every body has exactly one accepted check digit, up to the case of 'k' |
| Reportes.EsVentaActiva | routes/reportes.py:40-67 | a zero total is "Anulada" before any channel check; a non-zero total on a channel other than delivery or counter is "Desconocido"; the label is one of the four, and the flag is true exactly for "Activa" |
| Reportes.DeliveryActiva | routes/reportes.py:56-60 | a delivery sale with a non-zero total is active exactly while it is in preparation or sent |
| Reportes.MostradorActiva | routes/reportes.py:61-65 | a counter sale with a non-zero total is active exactly while it is not ready |
| Reportes.ActividadSinPago | routes/reportes.py:40-67 | recording a receipt type and number never changes the classification |
| Reportes.NuevaDeliveryActiva | routes/reportes.py:56-60 | a delivery order just saved from a cart with a non-zero subtotal is reported active |
| Reportes.NuevaMostradorActiva | routes/reportes.py:61-65 | a counter order just saved from a cart with a non-zero subtotal is reported active |
| Reportes.DiaSemana | routes/reportes.py:24 | `weekday()` is between 0 (Monday) and 6 |
| Reportes.ResolverRango | routes/reportes.py:13-37 | an unknown selector, "historico" included, leaves both bounds open; "hoy", "semana" and "mes" set both, from the first to the last microsecond of a day; "personalizado" sets exactly the bounds whose date was given |
| Reportes.RangoOrdenado | routes/reportes.py:20-30 | when the clock does not run backwards, each preset range starts no later than it ends and contains the whole of today |
| Reportes.SemanaEmpiezaLunes | routes/reportes.py:23-26 | "semana" starts on a Monday, at most six days back |
| Reportes.MesEmpiezaDiaUno | routes/reportes.py:27-30 | "mes" starts as many days back as today's day of the month minus one |
| Filters.FormatPrice | utils/filters.py:3-8 | an unconvertible value gives "0"; a number gives its magnitude grouped with '.', preceded by '-' when negative |
| Filters.GroupCharset | utils/filters.py:6 | a grouped number consists only of digits and the separator |
| Filters.FormatPriceShape | utils/filters.py:6 | a non-negative price is its decimal digits with a '.' exactly at every fourth position from the right and nothing else |
| Filters.FormatPriceNoCurrency | utils/filters.py:3-8 | the price never contains '$' |
| Filters.FormatPriceIsFormatPrecio | utils/filters.py:3-8 | the filter and the relay's `_format_precio` agree up to the '$', including "0" against "$0" for unconvertible input |
| Filters.FromJson | utils/filters.py:10-17 | a non-string is returned unchanged; a string gives what the parser reads, or [] when it does not parse |
| Filters.FromJsonRoundTrip | utils/filters.py:10-17 | text written by a serialiser that the parser reads back comes out as the value that was serialised |
| Pruebas.Tramo | routes/pruebas.py:266-293 | no date gives "Sin fecha"; under a minute (negative included) the seconds; then whole minutes, hours and minutes, or days and hours, each number exact for the elapsed time; from a week on, the date |
| Pruebas.TramoMonotono | routes/pruebas.py:278-293 | a later moment never falls in an earlier bucket |
| Pruebas.SegundosNegativos | routes/pruebas.py:278-279 | a date in the future shows its negative seconds, minus sign included |
| Pruebas.VentaPrueba | routes/pruebas.py:207-216 | the stored order's total is Σ precio·cantidad over the submitted products, on the delivery channel, in preparation, unpaid and for the session's client |
| Pruebas.LineasPrueba | routes/pruebas.py:221-229 | one line per submitted product, in order and without merging, at its price and quantity with no discount; the line total equals the order's total |
| Pruebas.TotalesDetalle | routes/pruebas.py:97-100 | the detail view's total exceeds its subtotal by the fixed 1000 shipping charge |
| Pruebas.SubtotalDetalleEsTotal | routes/pruebas.py:86-98 | over one order's lines the view's sum is that order's line total |
| Pruebas.DetalleCuadra | routes/pruebas.py:86-100 | for an order whose stored total is kept as the sum of its lines, the view's subtotal is that total and its total adds 1000, whatever the order's own shipping |
| HelpersDb.SumaExtrasConcat | utils/helpers_db.py:97-99 | the extras of two selections made one after the other add up |
| HelpersDb.SumaExtrasNoNegativa | utils/helpers_db.py:97-99 | with no negative value price the extras are not negative |
| HelpersDb.SumaValoresNoNegativa | utils/helpers_db.py:98-99 | with no negative price the sum over one attribute's values is not negative |
| HelpersDb.CalcularPrecioConAtributos | utils/helpers_db.py:86-101 | None for a product that does not exist; otherwise its price plus Σ over attributes of Σ over their 'valores' of 'precio' (missing: 0); an empty selection gives the base price |
| HelpersDb.CrearProductoVentaConAtributos | utils/helpers_db.py:103-123 | ValueError naming the product when it does not exist; otherwise a line at the price with extras that stores the selection as given |
| HelpersDb.Primera | utils/helpers_db.py:76-77 | the position returned is the first row of that attribute |
| HelpersDb.Posicion | utils/helpers_db.py:77 | the position returned is the group of that attribute, and no earlier group has it |
| HelpersDb.TotalValoresCrece | utils/helpers_db.py:82 | appending a value to a group adds one to the total number of values |
| HelpersDb.AgregarFila | utils/helpers_db.py:76-82 | one row goes to the end of its attribute's group, and a new group is opened exactly when the attribute has none yet; the grouping of the rows seen so far stays complete |
| HelpersDb.AgruparAtributos | utils/helpers_db.py:75-84 | one group per distinct attribute of the rows, ordered by first appearance; each group holds its attribute's values in row order and the attribute of its first row; the group sizes add up to the number of rows |
| Text.Repeat | app/printer_host.py:79-80 | `c * n` is exactly n copies of c (none for n ≤ 0), as `_line` prints |
| Text.ZeroPad | routes/delivery.py:429 | `f"{n:06d}"` is all digits and as wide as the larger of six and the number's own digits |
| Text.ZeroPadValue | routes/delivery.py:429 | a zero-padded number still reads back as the number |
| Text.GroupDigits | app/printer_host.py:100 | removing the separators from a grouped number gives back its decimal digits |
| Text.GroupSeparators | app/printer_host.py:100 | in a grouped number the separator stands exactly at every fourth position from the right |
| Text.RStrip | utils/print_client.py:18 | `rstrip('/')` keeps the longest prefix that does not end in '/', and everything it removes is '/' |
| Text.Take | utils/printer.py:134 | `s[:n]` is the first n characters, or all of s when it is shorter |
| Text.Upper | utils/printer.py:248 | `upper()` keeps the length and upper-cases each character |

## Left out

- Device I/O: the win32print calls (`OpenPrinter`, `StartDocPrinter`, `WritePrinter`) and the printer enumeration are not modelled. The spooler is an input that accepts a job or raises, and only the returned ok/False is modelled.
- HTTP: the `requests` calls of `utils/print_client.py` are left out, and each request is given the outcome it met. The Flask/CORS wiring of the relay is left out apart from the status of `/print/job`.
- The legacy relay endpoints `/print/raw` and `/print/pedido` are left out. They are thin wrappers over `process_job`, which is modelled.
- The relay's `/health` and `/printers` endpoints are left out. The printer list is an input.
- Web layer: `render_template`, `make_response`, `jsonify`, the HTMX headers and flash messages are left out. A response is a datatype holding its status, and the `HX-Trigger` refresh events where they are computed.
- Persistence: SQLAlchemy sessions, commit and rollback are not modelled. Tables are values held by `Orders.Db`, and every route either commits all of its changes or none.
- Floating point: `float(...)` conversions and the `:.2f` and `:,.0f` formats are modelled over whole pesos, where they are exact. Fractional prices and their rounding are not modelled.
- `ticket_promedio` and the other report aggregates of `routes/reportes.py` are left out. Only `_es_venta_activa` and `_resolver_rango` are modelled.
- Dates and times: `datetime.now`, `strftime` and `fromisoformat` are not modelled. Stamps are opaque strings, elapsed seconds are an input, and calendar dates are day numbers.
- JSON decoding is a parameter (`loads`) or is given as already-decoded values.
- Regular expressions: `\d` is modelled as the ASCII digits only. Python also accepts other Unicode decimal digits.
- Orders.ParseInt: reads ASCII blanks and ASCII digits only. Python's `int()` also skips other Unicode whitespace and reads other Unicode decimal digits; a receipt type written that way is a 500 in the model.
- Delivery.AgregarAlCarrito: keys the cart by the product id as a number. The route keys it by the submitted text, so "1" and "01" make two entries for one product, and committing that cart writes two lines for it. The model merges them into one entry.
- Mostrador.AgregarProducto: keys the counter cart by the product id as a number, while the route keys it by the submitted text, so "1" and "01" are two entries there and one here.
- Delivery.CarritoTempAgregar: keys the temporary cart by the product id as a number. The route keys it by the submitted text, and the `aumentar`, `disminuir` and `eliminar` routes take that text from the path, so "1" and "01" are two entries there and one here.
- Delivery.FinalizarPedido: does not enforce the column widths. `comentarios` is `String(50)` and `total` is `Numeric(8,2)`, so on a strict-mode MySQL server a comment over 50 characters (the form allows 200) or a total of 1,000,000 or more makes the commit fail with a 500. The model stores the order.
- Mostrador.GuardarPedido: does not enforce the column widths. A client name of 51 to 80 characters (the form allows 80, `comentarios` holds 50) or a total of 1,000,000 or more fails the commit with a 500 on a strict-mode MySQL server. The model stores the order.
- Mostrador.PedidosEstado: returns the set of matching order ids. The route lists them by `fecha_hora` descending (`routes/mostrador.py:221` and `:226`); stamps are opaque here, so that order is not modelled.
- Delivery.ActualizarProductoPedido: does not enforce `Numeric(8,2)` on the recomputed total. An edit that brings a total to 1,000,000 or more fails the commit on a strict-mode MySQL server and is stored by the model.
- Delivery.AgregarProductoPedido: does not enforce `Numeric(8,2)` on the recomputed total either (see Delivery.ActualizarProductoPedido).
- Delivery.ConfirmarProductos: does not enforce `Numeric(8,2)` on the recomputed total either (see Delivery.ActualizarProductoPedido).
- Printer.ReciboItem: prints three lines per item. The receipt also prints one `    - key: value` line per attribute when `json.loads(atributos_seleccionados)` gives a dictionary. The column is `db.JSON`, so it usually holds a list or a dictionary already; `json.loads` then raises TypeError, the bare `except` swallows it, and no attribute line is printed, as in the model. A stored JSON string that decodes to a dictionary is not represented.
- Printer.ReciboFacts: its three lines per item assume that no attribute lines are printed (see Printer.ReciboItem).
- Printer.AppendReciboItems: omits the attribute lines (see Printer.ReciboItem).
- Printer.GenerarRecibo: omits the attribute lines (see Printer.ReciboItem).
- Printer.ReciboItemsAt: omits the attribute lines (see Printer.ReciboItem).
- PrinterHost.PrintJob: treats a JSON `null` like a missing key. An explicit `"type": null` reaches `process_job(None, …)` in the relay, which answers 400 with "Tipo de trabajo no soportado: None" and prints nothing. The model runs it as a raw job. The route has no `try`, so a builder's `float()` that raises (a `"total": "abc"` in a pedido payload, a non-numeric `precio_venta` in a delivery item) is Flask's 500 with nothing printed; the typed payload cannot hold such a value, so the model answers only 200 or 400.
- PrinterHost.BuildDelivery: treats a JSON `null` like a missing key. In the relay, `"razon_social": null` raises TypeError at the 35-character cut and `"telefono": null` prints "Teléfono: None". The model prints the defaults "Sin nombre" and "Sin teléfono".
- VentaModel.CalcularPrecioExtras: reads `"precio_adicional": null` as 0, like a missing key. The source calls `float(None)` there and raises TypeError.
- HelpersDb.CalcularPrecioConAtributos: reads `"precio": null` as 0 and `"valores": null` as no values, like missing keys. The source raises TypeError on both (`float(None)`, and a `for` over None).
- HelpersDb.CrearProductoVentaConAtributos: inherits that reading of nulls (see HelpersDb.CalcularPrecioConAtributos), where the source raises before creating the record.
- `Text.Upper` upper-cases ASCII letters only. Python's `str.upper` also maps other letters, such as 'ñ', and can lengthen a string ('ß' becomes "SS").
- `utils/helpers_db.py` imports models that do not exist under `src/models`. Its functions are modelled as written, over a catalogue map and the query's rows.
- `Venta.to_dict` is left out. It serialises related records, and it reads `self.tipo_venta`, which the class does not define (the relationship is named `tipoVenta`).
- The CRUD blueprints (`routes/atributos.py`, `productos.py`, `clientes.py`, `categorias.py`, `marcas.py`, `presentaciones.py`, `caracteristicas.py`, `printers.py`, `ventas.py`, `pos.py`) and `routes/api_print.py` are not part of this model. The one rule the model keeps from `routes/printers.py` is that a configured printer has non-empty profile and type lists.
- In `routes/pruebas.py`, the session clean-up and the JSON error answer of the prototype `guardar_pedido` are left out. Its order and lines are modelled.
- Logging, `print` statements and concurrency are left out. Nothing in the core runs concurrently, and racing editors are not modelled.
- Reportes.EsVentaActiva: takes the total as an integer. A missing or unconvertible total, which the source treats as 0, is not represented separately.
- HostTickets.ComandaFacts: does not state that the id is right-aligned in four columns on the header line.

## Findings

| source | as written | input that shows it | evidently intended | confidence | as-written member | corrected member |
|---|---|---|---|---|---|---|
| forms.py:105 | the expected check digit is `'0123456789K'[11 - (suma % 11)]`, which indexes position 11 of an 11-character string when the weighted sum is a multiple of 11 | RUT "10000004-0": the weighted sum is 4·2 + 1·3 = 11, so the index is 11 and the check raises IndexError instead of a validation message | a remainder of 0 expects the digit '0' (modulo-11 rule), so "10000004-0" is accepted | not executed | Forms.RutDigitoCeroFalla, Forms.EscritoFallaConRestoCero | Forms.ValidarDocumentoCorregido, Forms.CorregidoAceptaUnDigito |
