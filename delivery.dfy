/**
 * The delivery routes (`routes/delivery.py`): the session cart, placing the
 * order, the state changes with their paid guard, charging, and editing an
 * order that is still being prepared (direct line edits, the temporary cart
 * of additions and the list of lines marked for removal).
 *
 * Every route that commits keeps `Db.Valid()`: in particular each order's
 * total stays the sum of its lines. Tickets are returned as print requests;
 * a printing failure never changes a route's answer.
 */
module Delivery {
  import opened Wrappers
  import opened VentaModel
  import Cart
  import Printer
  import opened Orders

  // ----- the session cart -----

  /** What `carrito_items.html` is rendered with. */
  datatype CartView = CartView(items: Cart.Cart, subtotal: int, envio: int, total: int)

  /** `v` shows cart `c` with shipping cost `envio`: its entries, their subtotal and subtotal + shipping. */
  predicate Shows(v: CartView, c: Cart.Cart, envio: int) {
    v.items == c && v.subtotal == Cart.Subtotal(c) && v.envio == envio && v.total == v.subtotal + envio
  }

  /** `render_carrito_actualizado`: sums precio·cantidad over the cart and adds `costo_envio` (0 when unset). */
  method RenderCarritoActualizado(s: Session) returns (v: CartView)
    ensures Shows(v, s.carrito, s.costoEnvio.GetOr(0))
  {
    var c := s.carrito;
    var subtotal := 0;
    var i := 0;
    while i < |c|
      invariant 0 <= i <= |c|
      invariant subtotal == Cart.Subtotal(c[..i])
    {
      assert c[..i + 1][..i] == c[..i];
      subtotal := subtotal + c[i].precio * c[i].cantidad;
      i := i + 1;
    }
    assert c[..i] == c;
    var envio := s.costoEnvio.GetOr(0);
    v := CartView(c, subtotal, envio, subtotal + envio);
  }

  /**
   * `agregar_al_carrito`: one more unit of the product, or a new entry with
   * quantity 1. `precio` is None when `float()` of the submitted price
   * raises (field missing or not a number): the route then fails with a
   * 500 (None) before touching the session.
   */
  method AgregarAlCarrito(s: Session, productoId: int, nombre: string, precio: Option<int>) returns (v: Option<CartView>)
    requires s.Valid()
    modifies s`carrito
    ensures s.Valid()
    ensures precio.None? ==> v.None? && s.carrito == old(s.carrito)
    ensures precio.Some? ==> s.carrito == Cart.Add(old(s.carrito), productoId, nombre, precio.value)
    ensures precio.Some? ==> v.Some? && Shows(v.value, s.carrito, s.costoEnvio.GetOr(0))
  {
    if precio.None? {
      return None;
    }
    Cart.AddWellFormed(s.carrito, productoId, nombre, precio.value);
    s.carrito := Cart.Add(s.carrito, productoId, nombre, precio.value);
    var view := RenderCarritoActualizado(s);
    v := Some(view);
  }

  /** `actualizar_cantidad`: "aumentar" adds a unit, "disminuir" removes one and drops the entry at 0. */
  method ActualizarCantidad(s: Session, itemId: int, accion: string) returns (v: CartView)
    requires s.Valid()
    modifies s`carrito
    ensures s.Valid()
    ensures s.carrito == Cart.Adjust(old(s.carrito), itemId, accion)
    ensures Shows(v, s.carrito, s.costoEnvio.GetOr(0))
  {
    Cart.AdjustSpec(s.carrito, itemId, accion);
    s.carrito := Cart.Adjust(s.carrito, itemId, accion);
    v := RenderCarritoActualizado(s);
  }

  /** `eliminar_del_carrito`: drops the entry when present. */
  method EliminarDelCarrito(s: Session, itemId: int) returns (v: CartView)
    requires s.Valid()
    modifies s`carrito
    ensures s.Valid()
    ensures s.carrito == Cart.Remove(old(s.carrito), itemId)
    ensures Shows(v, s.carrito, s.costoEnvio.GetOr(0))
  {
    Cart.RemoveSpec(s.carrito, itemId);
    s.carrito := Cart.Remove(s.carrito, itemId);
    v := RenderCarritoActualizado(s);
  }

  // ----- placing the order -----

  /** The order `finalizar_pedido` stores. */
  function NuevaVenta(id: int, now: Stamp, c: Cart.Cart, clienteId: Option<int>, pedido: PedidoData, envio: int): Venta {
    NewVenta(id, now, "V-" + now.compact, Cart.Subtotal(c)).(
      clienteId := clienteId,
      tipoventaId := Some(TIPO_DELIVERY),
      costoEnvio := Some(envio),
      repartidorId := pedido.repartidor,
      comentarios := pedido.comentarios,
      tiempoEstimado := pedido.tiempoEstimado)
  }

  /**
   * A new delivery order: in preparation, unpaid, channel 2, total the cart
   * subtotal without shipping. The courier, comments and estimated time are
   * the submitted ones; the courier is a select field's text, so only the
   * empty choice (None here) is falsy and any chosen id is kept, 0 included.
   */
  lemma NuevaVentaSpec(id: int, now: Stamp, c: Cart.Cart, clienteId: Option<int>, pedido: PedidoData, envio: int)
    ensures var v := NuevaVenta(id, now, c, clienteId, pedido, envio);
      && v.id == id && v.total == Cart.Subtotal(c) && v.costoEnvio == Some(envio)
      && v.estadoDelivery == DELIVERY_PREPARACION && !Pagado(v) && v.tipoventaId == Some(TIPO_DELIVERY)
      && EstadosValidos(v)
      && v.repartidorId == pedido.repartidor && v.comentarios == pedido.comentarios
      && v.tiempoEstimado == pedido.tiempoEstimado
  {
  }

  /**
   * `finalizar_pedido`: an empty cart is a 400. Otherwise the order and one
   * line per cart entry are stored, the kitchen ticket is requested, and
   * the cart, client, order data and shipping cost leave the session. A
   * cart entry that is not a product makes the insert fail: 500, nothing
   * stored, session untouched.
   */
  method FinalizarPedido(db: Db, s: Session, now: Stamp) returns (r: Response, job: Option<PrintRequest>)
    requires db.Valid() && s.Valid()
    modifies db`ventas, db`lineas, db`nextVentaId, db`nextLineaId
    modifies s`carrito, s`clienteId, s`pedidoData, s`costoEnvio
    ensures db.Valid() && s.Valid()
    ensures old(s.carrito) == [] ==> r == BadRequest("Carrito vacío") && job.None? && unchanged(db, s)
    ensures old(s.carrito) != [] && !InCatalogue(old(s.carrito), db.productos) ==>
      r == ServerError && job.None? && unchanged(db, s)
    ensures old(s.carrito) != [] && InCatalogue(old(s.carrito), db.productos) ==>
      var vid := old(db.nextVentaId);
      var v := NuevaVenta(vid, now, old(s.carrito), old(s.clienteId), old(s.pedidoData), old(s.costoEnvio).GetOr(0));
      && r == Ok(["refresh-pendientes"])
      && db.ventas == old(db.ventas)[vid := v]
      && db.lineas == old(db.lineas) + CartLines(old(s.carrito), vid, old(db.nextLineaId))
      && db.nextVentaId == vid + 1 && db.nextLineaId == old(db.nextLineaId) + |old(s.carrito)|
      && s.carrito == [] && s.clienteId.None? && s.pedidoData == PedidoData(None, None, None) && s.costoEnvio.None?
      && job == Some(PrintRequest(ConfigPrinter, Printer.ComandaCocina(v, ComandaItems(old(s.carrito)), "DELIVERY")))
  {
    var c := s.carrito;
    if c == [] {
      return BadRequest("Carrito vacío"), None;
    }
    if !InCatalogue(c, db.productos) {
      return ServerError, None;
    }
    var vid := db.nextVentaId;
    var v := NuevaVenta(vid, now, c, s.clienteId, s.pedidoData, s.costoEnvio.GetOr(0));
    NuevaVentaSpec(vid, now, c, s.clienteId, s.pedidoData, s.costoEnvio.GetOr(0));
    InsertarPedido(db, c, v);
    job := Some(PrintRequest(ConfigPrinter, Printer.ComandaCocina(v, ComandaItems(c), "DELIVERY")));
    s.LimpiarDelivery();
    r := Ok(["refresh-pendientes"]);
  }

  // ----- state changes and charging -----

  /** The list partial that shows orders in delivery state `e`. */
  function Tabla(e: int): string {
    if e == DELIVERY_PREPARACION then "refresh-pendientes"
    else if e == DELIVERY_ENVIADO then "refresh-enviados"
    else if e == DELIVERY_ENTREGADO then "refresh-entregados"
    else ""
  }

  /** The refresh events after a change from `anterior` to `nuevo`, in the order pendientes, enviados, entregados. */
  function Triggers(anterior: int, nuevo: int): seq<string> {
    (if anterior == DELIVERY_PREPARACION || nuevo == DELIVERY_PREPARACION then ["refresh-pendientes"] else [])
    + (if anterior == DELIVERY_ENVIADO || nuevo == DELIVERY_ENVIADO then ["refresh-enviados"] else [])
    + (if anterior == DELIVERY_ENTREGADO || nuevo == DELIVERY_ENTREGADO then ["refresh-entregados"] else [])
  }

  /** Exactly the lists of the old and the new state are refreshed, each once. */
  lemma TriggersSpec(anterior: int, nuevo: int)
    requires DELIVERY_PREPARACION <= nuevo <= DELIVERY_ENTREGADO
    ensures Tabla(nuevo) in Triggers(anterior, nuevo)
    ensures DELIVERY_PREPARACION <= anterior <= DELIVERY_ENTREGADO ==> Tabla(anterior) in Triggers(anterior, nuevo)
    ensures forall t :: t in Triggers(anterior, nuevo) ==> t == Tabla(anterior) || t == Tabla(nuevo)
    ensures 1 <= |Triggers(anterior, nuevo)| <= 2
    ensures NoDuplicates(Triggers(anterior, nuevo))
  {
  }

  /** The courier voucher for order `v` as stored in `db`: its client's persona and its lines. */
  function Voucher(db: Db, v: Venta): Printer.Ticket
    reads db
    requires forall j :: 0 <= j < |db.lineas| ==> db.lineas[j].productoId in db.productos
  {
    Printer.ComprobanteDelivery(v, db.PersonaDe(v), Snaps(db.productos, LinesOf(db.lineas, v.id)))
  }

  /**
   * `cambiar_estado`: 400 for a state outside 1..3, 404 for an unknown
   * order, and a 200 error partial (nothing stored) when asked to send an
   * order with no receipt type. Otherwise the state is stored, the lists
   * of the old and new states are refreshed, and on "enviado" the courier
   * voucher is requested.
   */
  method CambiarEstado(db: Db, pid: int, nuevo: int) returns (r: Response, job: Option<PrintRequest>)
    requires db.Valid()
    modifies db`ventas
    ensures db.Valid()
    ensures !(DELIVERY_PREPARACION <= nuevo <= DELIVERY_ENTREGADO) ==>
      r == BadRequest("Estado no válido") && job.None? && unchanged(db)
    ensures DELIVERY_PREPARACION <= nuevo <= DELIVERY_ENTREGADO && pid !in old(db.ventas) ==>
      r == NotFound("Pedido no encontrado") && job.None? && unchanged(db)
    ensures nuevo == DELIVERY_ENVIADO && pid in old(db.ventas) && !Pagado(old(db.ventas[pid])) ==>
      r == OkError("Debe cobrar el pedido antes de enviarlo") && job.None? && unchanged(db)
    ensures DELIVERY_PREPARACION <= nuevo <= DELIVERY_ENTREGADO && pid in old(db.ventas)
            && (nuevo == DELIVERY_ENVIADO ==> Pagado(old(db.ventas[pid]))) ==>
      && db.ventas == old(db.ventas)[pid := old(db.ventas[pid]).(estadoDelivery := nuevo)]
      && r == Ok(Triggers(old(db.ventas[pid]).estadoDelivery, nuevo))
      && job == (if nuevo == DELIVERY_ENVIADO then Some(PrintRequest(ConfigPrinter, Voucher(db, db.ventas[pid]))) else None)
    ensures forall id :: id in db.ventas && db.ventas[id].estadoDelivery == DELIVERY_ENVIADO && !Pagado(db.ventas[id]) ==>
      id in old(db.ventas) && old(db.ventas[id]) == db.ventas[id]
  {
    if !(DELIVERY_PREPARACION <= nuevo <= DELIVERY_ENTREGADO) {
      return BadRequest("Estado no válido"), None;
    }
    if pid !in db.ventas {
      return NotFound("Pedido no encontrado"), None;
    }
    var pedido := db.ventas[pid];
    if nuevo == DELIVERY_ENVIADO && pedido.comprobanteId.None? {
      return OkError("Debe cobrar el pedido antes de enviarlo"), None;
    }
    var anterior := pedido.estadoDelivery;
    pedido := pedido.(estadoDelivery := nuevo);
    RowsOkStore(db.lineas, db.ventas, db.nextLineaId, db.productos, pid, pedido);
    db.ventas := db.ventas[pid := pedido];
    job := None;
    if nuevo == DELIVERY_ENVIADO {
      job := Some(PrintRequest(ConfigPrinter, Voucher(db, pedido)));
    }
    r := Ok(Triggers(anterior, nuevo));
  }

  /** "B" when `str(value) == "1"` (the field missing or the text "1"), "F" otherwise. */
  function PrefijoDelivery(tipo: FormValue): string {
    if tipo == Missing || tipo == Given("1") then "B" else "F"
  }

  /**
   * `cobrar_pedido`: records the receipt type and the number
   * "<B|F>-<id:06d>" and leaves the delivery state alone. An unknown order,
   * a value that is not an integer or that names no receipt type all end
   * in a 500 with nothing stored.
   */
  method CobrarPedido(db: Db, pid: int, tipo: FormValue) returns (r: Response)
    requires db.Valid()
    modifies db`ventas
    ensures db.Valid()
    ensures pid !in old(db.ventas) || TipoComprobante(tipo).None? || TipoComprobante(tipo).value !in db.comprobantes ==>
      r == ServerError && unchanged(db)
    ensures pid in old(db.ventas) && TipoComprobante(tipo).Some? && TipoComprobante(tipo).value in db.comprobantes ==>
      && pid >= 1
      && db.ventas == old(db.ventas)[pid := old(db.ventas[pid]).(
           comprobanteId := TipoComprobante(tipo),
           numeroComprobante := Some(NumeroComprobante(PrefijoDelivery(tipo), pid)))]
      && r == Ok(["refresh-pendientes"])
  {
    if pid !in db.ventas {
      return ServerError;
    }
    var t := TipoComprobante(tipo);
    if t.None? || t.value !in db.comprobantes {
      return ServerError;
    }
    var pedido := db.ventas[pid];
    pedido := pedido.(comprobanteId := t, numeroComprobante := Some(NumeroComprobante(PrefijoDelivery(tipo), pid)));
    RowsOkStore(db.lineas, db.ventas, db.nextLineaId, db.productos, pid, pedido);
    db.ventas := db.ventas[pid := pedido];
    r := Ok(["refresh-pendientes"]);
  }

  // ----- editing an order in preparation -----

  /** The checks before an order is edited: 404 for an unknown order, 403 once it has left preparation. */
  function EditGuard(db: Db, pid: int): Option<Response>
    reads db
  {
    if pid !in db.ventas then Some(NotFound("Pedido no encontrado"))
    else if db.ventas[pid].estadoDelivery != DELIVERY_PREPARACION then Some(Forbidden("No se puede modificar un pedido enviado"))
    else None
  }

  /** `EditGuard`, then 404 unless line `lid` exists and belongs to order `pid`. */
  function LineGuard(db: Db, pid: int, lid: int): Option<Response>
    reads db
  {
    if EditGuard(db, pid).Some? then EditGuard(db, pid)
    else if IndexOfLinea(db.lineas, lid) == |db.lineas| || db.lineas[IndexOfLinea(db.lineas, lid)].ventaId != pid
    then Some(NotFound("Producto no encontrado"))
    else None
  }

  /** The line table after `accion` on the line at position `i`: one unit more, one unit less (deleting it at 0), or unchanged. */
  function EditarLinea(rows: seq<ProductoVenta>, i: nat, accion: string): seq<ProductoVenta>
    requires i < |rows|
  {
    if accion == "aumentar" then rows[i := rows[i].(cantidad := rows[i].cantidad + 1)]
    else if accion == "disminuir" then
      if rows[i].cantidad - 1 <= 0 then Cart.Delete(rows, i)
      else rows[i := rows[i].(cantidad := rows[i].cantidad - 1)]
    else rows
  }

  /**
   * One unit more or less moves the order's total by exactly the line's
   * price, and the totals of other orders do not move; the table stays
   * well formed.
   */
  lemma EditarLineaSpec(rows: seq<ProductoVenta>, ventas: map<int, Venta>, nl: int, productos: map<int, Producto>, i: nat, accion: string)
    requires RowsOk(rows, ventas, nl, productos) && i < |rows|
    ensures RowsOk(EditarLinea(rows, i, accion), ventas, nl, productos)
    ensures OrderTotal(EditarLinea(rows, i, accion), rows[i].ventaId) ==
      OrderTotal(rows, rows[i].ventaId)
      + (if accion == "aumentar" then rows[i].precioVenta else if accion == "disminuir" then -rows[i].precioVenta else 0)
    ensures forall vid :: vid != rows[i].ventaId ==> OrderTotal(EditarLinea(rows, i, accion), vid) == OrderTotal(rows, vid)
  {
    if accion == "aumentar" {
      AddUnits(rows, ventas, nl, productos, i, 1);
    } else if accion == "disminuir" {
      if rows[i].cantidad - 1 <= 0 {
        DropLine(rows, ventas, nl, productos, i);
      } else {
        AddUnits(rows, ventas, nl, productos, i, -1);
      }
    }
  }

  /** `q` more units on an existing line: its order's total moves by `q` times its price, its product's quantity by `q`. */
  lemma AddUnits(rows: seq<ProductoVenta>, ventas: map<int, Venta>, nl: int, productos: map<int, Producto>, i: nat, q: int)
    requires RowsOk(rows, ventas, nl, productos) && i < |rows| && rows[i].cantidad + q >= 1
    ensures var rows' := rows[i := rows[i].(cantidad := rows[i].cantidad + q)];
      && RowsOk(rows', ventas, nl, productos)
      && OrderTotal(rows', rows[i].ventaId) == OrderTotal(rows, rows[i].ventaId) + q * rows[i].precioVenta
      && (forall vid :: vid != rows[i].ventaId ==> OrderTotal(rows', vid) == OrderTotal(rows, vid))
      && Cantidad(rows', rows[i].ventaId, rows[i].productoId) == Cantidad(rows, rows[i].ventaId, rows[i].productoId) + q
      && (forall k :: k != rows[i].productoId ==> Cantidad(rows', rows[i].ventaId, k) == Cantidad(rows, rows[i].ventaId, k))
  {
    var c := rows[i].cantidad;
    var x := rows[i].(cantidad := c + q);
    RowsOkUpdate(rows, ventas, nl, productos, i, c + q);
    SumUpdate(rows, i, x, Total(rows[i].ventaId));
    SumUpdate(rows, i, x, Qty(rows[i].ventaId, rows[i].productoId));
    MulAdd(rows[i].precioVenta, c, q);
    OthersAfterUpdate(rows, i, c + q);
    forall k | k != rows[i].productoId
      ensures Cantidad(rows[i := x], rows[i].ventaId, k) == Cantidad(rows, rows[i].ventaId, k)
    {
      SumUpdate(rows, i, x, Qty(rows[i].ventaId, k));
    }
  }

  lemma MulAdd(p: int, c: int, q: int)
    ensures p * (c + q) - p * c == q * p
  {
  }

  /** Deleting a line of quantity 1 lowers its order's total by its price and leaves the others alone. */
  lemma DropLine(rows: seq<ProductoVenta>, ventas: map<int, Venta>, nl: int, productos: map<int, Producto>, i: nat)
    requires RowsOk(rows, ventas, nl, productos) && i < |rows| && rows[i].cantidad - 1 <= 0
    ensures RowsOk(Cart.Delete(rows, i), ventas, nl, productos)
    ensures OrderTotal(Cart.Delete(rows, i), rows[i].ventaId) == OrderTotal(rows, rows[i].ventaId) - rows[i].precioVenta
    ensures forall vid :: vid != rows[i].ventaId ==> OrderTotal(Cart.Delete(rows, i), vid) == OrderTotal(rows, vid)
  {
    RowsOkDelete(rows, ventas, nl, productos, i);
    SumDelete(rows, i, Total(rows[i].ventaId));
    assert rows[i].cantidad == 1;
    OthersAfterDelete(rows, i);
  }

  /**
   * `actualizar_producto_pedido`: after the guards, applies `accion` to the
   * line and stores the order's total recomputed from its remaining lines.
   */
  method ActualizarProductoPedido(db: Db, pid: int, lid: int, accion: string) returns (r: Response)
    requires db.Valid()
    modifies db`ventas, db`lineas
    ensures db.Valid()
    ensures old(LineGuard(db, pid, lid)).Some? ==> r == old(LineGuard(db, pid, lid)).value && unchanged(db)
    ensures old(LineGuard(db, pid, lid)).None? ==>
      && db.lineas == EditarLinea(old(db.lineas), old(IndexOfLinea(db.lineas, lid)), accion)
      && db.ventas == old(db.ventas)[pid := old(db.ventas[pid]).(total := OrderTotal(db.lineas, pid))]
      && r == Ok([])
  {
    var g := LineGuard(db, pid, lid);
    if g.Some? {
      return g.value;
    }
    var i := IndexOfLinea(db.lineas, lid);
    var rows := EditarLinea(db.lineas, i, accion);
    EditarLineaSpec(db.lineas, db.ventas, db.nextLineaId, db.productos, i, accion);
    GuardarEdicion(db, pid, rows);
    r := Ok([]);
  }

  /**
   * `eliminar_producto_pedido`: after the guards, deletes the line and
   * stores the recomputed total, which drops by the line's
   * precio_venta·cantidad.
   */
  method EliminarProductoPedido(db: Db, pid: int, lid: int) returns (r: Response)
    requires db.Valid()
    modifies db`ventas, db`lineas
    ensures db.Valid()
    ensures old(LineGuard(db, pid, lid)).Some? ==> r == old(LineGuard(db, pid, lid)).value && unchanged(db)
    ensures old(LineGuard(db, pid, lid)).None? ==>
      var i := old(IndexOfLinea(db.lineas, lid));
      && db.lineas == Cart.Delete(old(db.lineas), i)
      && db.ventas == old(db.ventas)[pid := old(db.ventas[pid]).(total := OrderTotal(db.lineas, pid))]
      && db.ventas[pid].total == old(db.ventas[pid].total) - old(db.lineas[i].precioVenta * db.lineas[i].cantidad)
      && r == Ok([])
  {
    var g := LineGuard(db, pid, lid);
    if g.Some? {
      return g.value;
    }
    var i := IndexOfLinea(db.lineas, lid);
    var rows := Cart.Delete(db.lineas, i);
    RowsOkDelete(db.lineas, db.ventas, db.nextLineaId, db.productos, i);
    SumDelete(db.lineas, i, Total(pid));
    OthersAfterDelete(db.lineas, i);
    GuardarEdicion(db, pid, rows);
    r := Ok([]);
  }

  /**
   * Adds `cantidad` units of product `producto` to order `vid`: onto the
   * order's first line for that product, or as a new line with id `nextId`
   * at `precio`.
   */
  function MergeLinea(rows: seq<ProductoVenta>, vid: int, producto: int, cantidad: int, precio: int, nextId: int): seq<ProductoVenta> {
    var i := IndexOfProducto(rows, vid, producto);
    if i < |rows| then rows[i := rows[i].(cantidad := rows[i].cantidad + cantidad)]
    else rows + [ProductoVenta(nextId, vid, producto, cantidad, precio, 0, None)]
  }

  /** The unit price the merged units are charged at: the existing line's price, or `precio` for a new line. */
  function PrecioMerge(rows: seq<ProductoVenta>, vid: int, producto: int, precio: int): int {
    var i := IndexOfProducto(rows, vid, producto);
    if i < |rows| then rows[i].precioVenta else precio
  }

  /** The next free line id after `MergeLinea`: unchanged when an existing line took the units. */
  function NextAfterMerge(rows: seq<ProductoVenta>, vid: int, producto: int, nextId: int): int {
    if IndexOfProducto(rows, vid, producto) < |rows| then nextId else nextId + 1
  }

  /**
   * `MergeLinea` adds exactly `cantidad` units of `producto` to the order
   * and no units of anything else; the order's total grows by `cantidad`
   * times the price of the line that took them (the existing line's price,
   * which may differ from `precio`); other orders do not move; the table
   * stays well formed.
   */
  lemma MergeLineaSpec(rows: seq<ProductoVenta>, ventas: map<int, Venta>, nl: int, productos: map<int, Producto>,
                       vid: int, producto: int, cantidad: int, precio: int)
    requires RowsOk(rows, ventas, nl, productos) && nl >= 1
    requires vid in ventas && producto in productos && cantidad >= 1
    ensures RowsOk(MergeLinea(rows, vid, producto, cantidad, precio, nl), ventas, NextAfterMerge(rows, vid, producto, nl), productos)
    ensures NextAfterMerge(rows, vid, producto, nl) >= nl
    ensures Cantidad(MergeLinea(rows, vid, producto, cantidad, precio, nl), vid, producto) == Cantidad(rows, vid, producto) + cantidad
    ensures forall k :: k != producto ==> Cantidad(MergeLinea(rows, vid, producto, cantidad, precio, nl), vid, k) == Cantidad(rows, vid, k)
    ensures OrderTotal(MergeLinea(rows, vid, producto, cantidad, precio, nl), vid) ==
      OrderTotal(rows, vid) + cantidad * PrecioMerge(rows, vid, producto, precio)
    ensures forall v :: v != vid ==> OrderTotal(MergeLinea(rows, vid, producto, cantidad, precio, nl), v) == OrderTotal(rows, v)
  {
    var i := IndexOfProducto(rows, vid, producto);
    var m := MergeLinea(rows, vid, producto, cantidad, precio, nl);
    if i < |rows| {
      assert m == rows[i := rows[i].(cantidad := rows[i].cantidad + cantidad)];
      assert rows[i].ventaId == vid && rows[i].productoId == producto;
      AddUnits(rows, ventas, nl, productos, i, cantidad);
      assert PrecioMerge(rows, vid, producto, precio) == rows[i].precioVenta;
    } else {
      var x := ProductoVenta(nl, vid, producto, cantidad, precio, 0, None);
      assert m == rows + [x];
      NewLine(rows, ventas, nl, productos, x);
      assert PrecioMerge(rows, vid, producto, precio) == precio;
    }
  }

  /** Appending a line adds its units to its product and its share to its order, and nothing elsewhere. */
  lemma NewLine(rows: seq<ProductoVenta>, ventas: map<int, Venta>, nl: int, productos: map<int, Producto>, x: ProductoVenta)
    requires RowsOk(rows, ventas, nl, productos)
    requires x.id == nl && nl >= 1 && x.ventaId in ventas && x.productoId in productos && x.cantidad >= 1
    ensures RowsOk(rows + [x], ventas, nl + 1, productos)
    ensures OrderTotal(rows + [x], x.ventaId) == OrderTotal(rows, x.ventaId) + x.cantidad * x.precioVenta
    ensures forall v :: v != x.ventaId ==> OrderTotal(rows + [x], v) == OrderTotal(rows, v)
    ensures Cantidad(rows + [x], x.ventaId, x.productoId) == Cantidad(rows, x.ventaId, x.productoId) + x.cantidad
    ensures forall k :: k != x.productoId ==> Cantidad(rows + [x], x.ventaId, k) == Cantidad(rows, x.ventaId, k)
  {
    RowsOkAppend(rows, ventas, nl, productos, x);
    SumAppend(rows, x, Qty(x.ventaId, x.productoId));
    SumAppend(rows, x, Total(x.ventaId));
    forall k | k != x.productoId
      ensures Cantidad(rows + [x], x.ventaId, k) == Cantidad(rows, x.ventaId, k)
    {
      SumAppend(rows, x, Qty(x.ventaId, k));
    }
    OthersAfterAppend(rows, x);
  }

  /**
   * `agregar_producto_pedido`: after the order guards, 404 for an unknown
   * product; otherwise one unit is added (onto the order's first line for
   * the product, or as a new line at the catalogue price) and the total is
   * recomputed.
   */
  method AgregarProductoPedido(db: Db, pid: int, producto: int) returns (r: Response)
    requires db.Valid()
    modifies db`ventas, db`lineas, db`nextLineaId
    ensures db.Valid()
    ensures old(EditGuard(db, pid)).Some? ==> r == old(EditGuard(db, pid)).value && unchanged(db)
    ensures old(EditGuard(db, pid)).None? && producto !in db.productos ==>
      r == NotFound("Producto no encontrado") && unchanged(db)
    ensures old(EditGuard(db, pid)).None? && producto in db.productos ==>
      && db.lineas == MergeLinea(old(db.lineas), pid, producto, 1, db.productos[producto].precio, old(db.nextLineaId))
      && db.nextLineaId == NextAfterMerge(old(db.lineas), pid, producto, old(db.nextLineaId))
      && db.ventas == old(db.ventas)[pid := old(db.ventas[pid]).(total := OrderTotal(db.lineas, pid))]
      && r == Ok([])
  {
    var g := EditGuard(db, pid);
    if g.Some? {
      return g.value;
    }
    if producto !in db.productos {
      return NotFound("Producto no encontrado");
    }
    var precio := db.productos[producto].precio;
    var rows := MergeLinea(db.lineas, pid, producto, 1, precio, db.nextLineaId);
    var next := NextAfterMerge(db.lineas, pid, producto, db.nextLineaId);
    MergeLineaSpec(db.lineas, db.ventas, db.nextLineaId, db.productos, pid, producto, 1, precio);
    ReservarLineas(db, next);
    GuardarEdicion(db, pid, rows);
    r := Ok([]);
  }

  // ----- the temporary cart of additions -----

  /**
   * What `float(request.form.get('precio', 0))` makes of the price field:
   * missing (the default 0), text `float()` rejects, or a whole amount.
   */
  datatype PriceField = NoPrice | Unreadable | Price(amount: int)

  /**
   * `carrito_temp_agregar`: 403 unless the order exists and is in
   * preparation; an unreadable price raises inside the route's `try`, a 500
   * with the session untouched; otherwise `agregar_al_carrito` on the
   * order's temporary cart, at price 0 when the field is missing.
   */
  method CarritoTempAgregar(db: Db, s: Session, pid: int, producto: int, nombre: string, precio: PriceField) returns (r: Response)
    requires s.Valid()
    modifies s`carritoTemp
    ensures s.Valid()
    ensures EditGuard(db, pid).Some? ==> r == Forbidden("Pedido no válido") && s.carritoTemp == old(s.carritoTemp)
    ensures EditGuard(db, pid).None? && precio.Unreadable? ==> r == ServerError && s.carritoTemp == old(s.carritoTemp)
    ensures EditGuard(db, pid).None? && precio.NoPrice? ==>
      && s.carritoTemp == old(s.carritoTemp)[pid := Cart.Add(old(s.Temp(pid)), producto, nombre, 0)]
      && r == Ok([])
    ensures EditGuard(db, pid).None? && precio.Price? ==>
      && s.carritoTemp == old(s.carritoTemp)[pid := Cart.Add(old(s.Temp(pid)), producto, nombre, precio.amount)]
      && r == Ok([])
  {
    if EditGuard(db, pid).Some? {
      return Forbidden("Pedido no válido");
    }
    if precio.Unreadable? {
      return ServerError;
    }
    var valor := if precio.Price? then precio.amount else 0;
    var c := s.Temp(pid);
    Cart.AddWellFormed(c, producto, nombre, valor);
    s.carritoTemp := s.carritoTemp[pid := Cart.Add(c, producto, nombre, valor)];
    r := Ok([]);
  }

  /** The answer of the routes that only touch the session and then render the order: a 500 when the order does not exist. */
  function RenderAnswer(db: Db, pid: int): Response
    reads db
  {
    if pid in db.ventas then Ok([]) else ServerError
  }

  /** `carrito_temp_aumentar`: one unit more when the product is in the temporary cart; no order check. */
  method CarritoTempAumentar(db: Db, s: Session, pid: int, producto: int) returns (r: Response)
    requires s.Valid()
    modifies s`carritoTemp
    ensures s.Valid()
    ensures s.carritoTemp == if Cart.Has(old(s.Temp(pid)), producto)
      then old(s.carritoTemp)[pid := Cart.Increase(old(s.Temp(pid)), producto)] else old(s.carritoTemp)
    ensures r == RenderAnswer(db, pid)
  {
    var c := s.Temp(pid);
    if Cart.Has(c, producto) {
      Cart.AdjustSpec(c, producto, "aumentar");
      s.carritoTemp := s.carritoTemp[pid := Cart.Increase(c, producto)];
    }
    r := RenderAnswer(db, pid);
  }

  /** `carrito_temp_disminuir`: one unit less (dropping the entry at 0) when the product is in the temporary cart. */
  method CarritoTempDisminuir(db: Db, s: Session, pid: int, producto: int) returns (r: Response)
    requires s.Valid()
    modifies s`carritoTemp
    ensures s.Valid()
    ensures s.carritoTemp == if Cart.Has(old(s.Temp(pid)), producto)
      then old(s.carritoTemp)[pid := Cart.Decrease(old(s.Temp(pid)), producto)] else old(s.carritoTemp)
    ensures r == RenderAnswer(db, pid)
  {
    var c := s.Temp(pid);
    if Cart.Has(c, producto) {
      Cart.AdjustSpec(c, producto, "disminuir");
      s.carritoTemp := s.carritoTemp[pid := Cart.Decrease(c, producto)];
    }
    r := RenderAnswer(db, pid);
  }

  /** `carrito_temp_eliminar`: drops the product from the temporary cart when present. */
  method CarritoTempEliminar(db: Db, s: Session, pid: int, producto: int) returns (r: Response)
    requires s.Valid()
    modifies s`carritoTemp
    ensures s.Valid()
    ensures s.carritoTemp == if Cart.Has(old(s.Temp(pid)), producto)
      then old(s.carritoTemp)[pid := Cart.Remove(old(s.Temp(pid)), producto)] else old(s.carritoTemp)
    ensures r == RenderAnswer(db, pid)
  {
    var c := s.Temp(pid);
    if Cart.Has(c, producto) {
      Cart.RemoveSpec(c, producto);
      s.carritoTemp := s.carritoTemp[pid := Cart.Remove(c, producto)];
    }
    r := RenderAnswer(db, pid);
  }

  /** The line table after merging every entry of a temporary cart into order `vid`, in cart order, and the next free line id. */
  function MergeCart(rows: seq<ProductoVenta>, vid: int, items: Cart.Cart, nextId: int): (seq<ProductoVenta>, int)
    decreases |items|
  {
    if items == [] then (rows, nextId)
    else MergeCart(MergeLinea(rows, vid, items[0].id, items[0].cantidad, items[0].precio, nextId), vid, items[1..],
                   NextAfterMerge(rows, vid, items[0].id, nextId))
  }

  /** Units of product `k` in a cart. */
  function CartQty(items: Cart.Cart, k: int): int
    decreases |items|
  {
    if items == [] then 0 else (if items[0].id == k then items[0].cantidad else 0) + CartQty(items[1..], k)
  }

  /** Every unit in the temporary cart lands in the order, product by product; nothing else is added. */
  lemma {:induction false} MergeCartQty(rows: seq<ProductoVenta>, ventas: map<int, Venta>, nl: int, productos: map<int, Producto>,
                                        vid: int, items: Cart.Cart, k: int)
    requires RowsOk(rows, ventas, nl, productos) && nl >= 1
    requires vid in ventas && InCatalogue(items, productos) && Cart.AllPositive(items)
    ensures Cantidad(MergeCart(rows, vid, items, nl).0, vid, k) == Cantidad(rows, vid, k) + CartQty(items, k)
    decreases |items|
  {
    if items != [] {
      var it := items[0];
      MergeLineaSpec(rows, ventas, nl, productos, vid, it.id, it.cantidad, it.precio);
      MergeCartQty(MergeLinea(rows, vid, it.id, it.cantidad, it.precio, nl), ventas, NextAfterMerge(rows, vid, it.id, nl),
                   productos, vid, items[1..], k);
    }
  }

  /** The merge loop of `confirmar_productos`, one temporary-cart entry at a time, before the commit. */
  method MergeRows(rows0: seq<ProductoVenta>, ventas: map<int, Venta>, productos: map<int, Producto>, nl0: int, pid: int, items: Cart.Cart)
    returns (rows: seq<ProductoVenta>, next: int)
    requires RowsOk(rows0, ventas, nl0, productos) && nl0 >= 1
    requires pid in ventas && InCatalogue(items, productos) && Cart.AllPositive(items)
    ensures RowsOk(rows, ventas, next, productos) && next >= nl0
    ensures (rows, next) == MergeCart(rows0, pid, items, nl0)
    ensures forall v :: v != pid ==> OrderTotal(rows, v) == OrderTotal(rows0, v)
  {
    rows, next := rows0, nl0;
    var i := 0;
    while i < |items|
      invariant 0 <= i <= |items|
      invariant MergeCart(rows, pid, items[i..], next) == MergeCart(rows0, pid, items, nl0)
      invariant RowsOk(rows, ventas, next, productos) && next >= nl0
      invariant forall v :: v != pid ==> OrderTotal(rows, v) == OrderTotal(rows0, v)
    {
      var it := items[i];
      assert items[i..][0] == it && items[i..][1..] == items[i + 1..];
      MergeLineaSpec(rows, ventas, next, productos, pid, it.id, it.cantidad, it.precio);
      var next' := NextAfterMerge(rows, pid, it.id, next);
      rows := MergeLinea(rows, pid, it.id, it.cantidad, it.precio, next);
      next := next';
      i := i + 1;
    }
    assert items[i..] == [];
  }

  /**
   * `confirmar_productos`: 403 unless the order exists and is in
   * preparation; an empty temporary cart changes nothing. Otherwise every
   * entry is merged into the order, the total is recomputed, the "added"
   * kitchen ticket is requested and the temporary cart leaves the session.
   * An entry that is not a product makes the insert fail: 500, nothing
   * stored, temporary cart kept.
   */
  method ConfirmarProductos(db: Db, s: Session, pid: int) returns (r: Response, job: Option<PrintRequest>)
    requires db.Valid() && s.Valid()
    modifies db`ventas, db`lineas, db`nextLineaId, s`carritoTemp
    ensures db.Valid() && s.Valid()
    ensures old(EditGuard(db, pid)).Some? ==> r == Forbidden("Pedido no válido") && job.None? && unchanged(db, s)
    ensures old(EditGuard(db, pid)).None? && old(s.Temp(pid)) == [] ==> r == Ok([]) && job.None? && unchanged(db, s)
    ensures old(EditGuard(db, pid)).None? && old(s.Temp(pid)) != [] && !InCatalogue(old(s.Temp(pid)), db.productos) ==>
      r == ServerError && job.None? && unchanged(db, s)
    ensures old(EditGuard(db, pid)).None? && old(s.Temp(pid)) != [] && InCatalogue(old(s.Temp(pid)), db.productos) ==>
      var merged := MergeCart(old(db.lineas), pid, old(s.Temp(pid)), old(db.nextLineaId));
      && db.lineas == merged.0 && db.nextLineaId == merged.1
      && db.ventas == old(db.ventas)[pid := old(db.ventas[pid]).(total := OrderTotal(db.lineas, pid))]
      && s.carritoTemp == old(s.carritoTemp) - {pid}
      && job == Some(PrintRequest(ConfigPrinter, Printer.ComandaAgregados(db.ventas[pid], ComandaItems(old(s.Temp(pid))))))
      && r == Ok([])
  {
    if EditGuard(db, pid).Some? {
      return Forbidden("Pedido no válido"), None;
    }
    var items := s.Temp(pid);
    if items == [] {
      return Ok([]), None;
    }
    if !InCatalogue(items, db.productos) {
      return ServerError, None;
    }
    var rows, next := MergeRows(db.lineas, db.ventas, db.productos, db.nextLineaId, pid, items);
    ReservarLineas(db, next);
    GuardarEdicion(db, pid, rows);
    job := Some(PrintRequest(ConfigPrinter, Printer.ComandaAgregados(db.ventas[pid], ComandaItems(items))));
    s.DescartarTemp(pid);
    r := Ok([]);
  }

  // ----- lines marked for removal -----

  /** `marcar_eliminar`: appends the line id to the order's removal list unless it is already there; no order check. */
  method MarcarEliminar(db: Db, s: Session, pid: int, lid: int) returns (r: Response)
    requires s.Valid()
    modifies s`eliminar
    ensures s.Valid()
    ensures s.eliminar == if lid in old(s.Pendientes(pid)) then old(s.eliminar)
                          else old(s.eliminar)[pid := old(s.Pendientes(pid)) + [lid]]
    ensures lid in s.Pendientes(pid)
    ensures r == RenderAnswer(db, pid)
  {
    var xs := s.Pendientes(pid);
    if lid !in xs {
      s.eliminar := s.eliminar[pid := xs + [lid]];
    }
    r := RenderAnswer(db, pid);
  }

  /** `desmarcar_eliminar`: takes the line id off the order's removal list when present. */
  method DesmarcarEliminar(db: Db, s: Session, pid: int, lid: int) returns (r: Response)
    requires s.Valid()
    modifies s`eliminar
    ensures s.Valid()
    ensures s.eliminar == if lid in old(s.Pendientes(pid)) then old(s.eliminar)[pid := RemoveFirst(old(s.Pendientes(pid)), lid)]
                          else old(s.eliminar)
    ensures lid !in s.Pendientes(pid)
    ensures forall x :: x != lid ==> (x in s.Pendientes(pid) <==> x in old(s.Pendientes(pid)))
    ensures r == RenderAnswer(db, pid)
  {
    var xs := s.Pendientes(pid);
    RemoveFirstSpec(xs, lid);
    if lid in xs {
      s.eliminar := s.eliminar[pid := RemoveFirst(xs, lid)];
    }
    r := RenderAnswer(db, pid);
  }

  /**
   * The removal loop of `confirmar_eliminacion`: for each listed id, in
   * list order, the line is deleted when it exists and belongs to order
   * `vid`; the second component lists what was deleted, for the ticket.
   */
  function Purge(rows: seq<ProductoVenta>, vid: int, ids: seq<int>, productos: map<int, Producto>): (seq<ProductoVenta>, seq<Printer.ComandaItem>)
    decreases |ids|
  {
    if ids == [] then (rows, [])
    else
      var i := IndexOfLinea(rows, ids[0]);
      if i < |rows| && rows[i].ventaId == vid then
        var rest := Purge(Cart.Delete(rows, i), vid, ids[1..], productos);
        (rest.0, [Printer.ComandaItem(rows[i].cantidad, NombreDe(productos, rows[i]))] + rest.1)
      else Purge(rows, vid, ids[1..], productos)
  }

  /**
   * Exactly the order's own lines whose ids are listed are deleted: lines
   * of other orders and unlisted lines stay, other orders' totals do not
   * move, and at most one ticket entry is printed per listed id.
   */
  lemma {:induction false} PurgeSpec(rows: seq<ProductoVenta>, ventas: map<int, Venta>, nl: int, productos: map<int, Producto>,
                                     vid: int, ids: seq<int>)
    requires RowsOk(rows, ventas, nl, productos)
    ensures RowsOk(Purge(rows, vid, ids, productos).0, ventas, nl, productos)
    ensures forall r :: r in Purge(rows, vid, ids, productos).0 <==> r in rows && !(r.ventaId == vid && r.id in ids)
    ensures forall v :: v != vid ==> OrderTotal(Purge(rows, vid, ids, productos).0, v) == OrderTotal(rows, v)
    ensures |Purge(rows, vid, ids, productos).1| <= |ids|
    decreases |ids|
  {
    if ids != [] {
      var i := IndexOfLinea(rows, ids[0]);
      if i < |rows| && rows[i].ventaId == vid {
        var d := Cart.Delete(rows, i);
        RowsOkDelete(rows, ventas, nl, productos, i);
        DeleteRowMembers(rows, i);
        OthersAfterDelete(rows, i);
        PurgeSpec(d, ventas, nl, productos, vid, ids[1..]);
        forall r
          ensures r in Purge(rows, vid, ids, productos).0 <==> r in rows && !(r.ventaId == vid && r.id in ids)
        {
          if r in rows && r.id == ids[0] {
            var j :| 0 <= j < |rows| && rows[j] == r;
            assert j == i by {
              if j < i {} else if j > i {}
            }
          }
        }
      } else {
        PurgeSpec(rows, ventas, nl, productos, vid, ids[1..]);
        forall r
          ensures r in Purge(rows, vid, ids, productos).0 <==> r in rows && !(r.ventaId == vid && r.id in ids)
        {
          if r in rows && r.id == ids[0] {
            var j :| 0 <= j < |rows| && rows[j] == r;
            assert j == i by {
              if j < i {} else if j > i {}
            }
          }
        }
      }
    }
  }

  /** The removal loop of `confirmar_eliminacion`, before the commit; also returns what was removed, for the ticket. */
  method PurgeRows(rows0: seq<ProductoVenta>, ventas: map<int, Venta>, nl: int, productos: map<int, Producto>, pid: int, ids: seq<int>)
    returns (rows: seq<ProductoVenta>, eliminados: seq<Printer.ComandaItem>)
    requires RowsOk(rows0, ventas, nl, productos)
    ensures RowsOk(rows, ventas, nl, productos)
    ensures (rows, eliminados) == Purge(rows0, pid, ids, productos)
    ensures forall v :: v != pid ==> OrderTotal(rows, v) == OrderTotal(rows0, v)
  {
    rows, eliminados := rows0, [];
    var i := 0;
    while i < |ids|
      invariant 0 <= i <= |ids|
      invariant Purge(rows, pid, ids[i..], productos).0 == Purge(rows0, pid, ids, productos).0
      invariant eliminados + Purge(rows, pid, ids[i..], productos).1 == Purge(rows0, pid, ids, productos).1
      invariant RowsOk(rows, ventas, nl, productos)
      invariant forall v :: v != pid ==> OrderTotal(rows, v) == OrderTotal(rows0, v)
    {
      assert ids[i..][0] == ids[i] && ids[i..][1..] == ids[i + 1..];
      var j := IndexOfLinea(rows, ids[i]);
      if j < |rows| && rows[j].ventaId == pid {
        var item := Printer.ComandaItem(rows[j].cantidad, NombreDe(productos, rows[j]));
        assert eliminados + [item] + Purge(Cart.Delete(rows, j), pid, ids[i + 1..], productos).1
            == eliminados + ([item] + Purge(Cart.Delete(rows, j), pid, ids[i + 1..], productos).1);
        eliminados := eliminados + [item];
        RowsOkDelete(rows, ventas, nl, productos, j);
        OthersAfterDelete(rows, j);
        rows := Cart.Delete(rows, j);
      }
      i := i + 1;
    }
    assert ids[i..] == [];
    assert eliminados + [] == eliminados;
  }

  /**
   * `confirmar_eliminacion`: 403 unless the order exists and is in
   * preparation; an empty removal list changes nothing. Otherwise the
   * listed lines of the order are deleted, the total is recomputed, the
   * "removed" kitchen ticket is requested and the list leaves the session.
   */
  method ConfirmarEliminacion(db: Db, s: Session, pid: int) returns (r: Response, job: Option<PrintRequest>)
    requires db.Valid() && s.Valid()
    modifies db`ventas, db`lineas, s`eliminar
    ensures db.Valid() && s.Valid()
    ensures old(EditGuard(db, pid)).Some? ==> r == Forbidden("Pedido no válido") && job.None? && unchanged(db, s)
    ensures old(EditGuard(db, pid)).None? && old(s.Pendientes(pid)) == [] ==> r == Ok([]) && job.None? && unchanged(db, s)
    ensures old(EditGuard(db, pid)).None? && old(s.Pendientes(pid)) != [] ==>
      var purged := Purge(old(db.lineas), pid, old(s.Pendientes(pid)), db.productos);
      && db.lineas == purged.0
      && db.ventas == old(db.ventas)[pid := old(db.ventas[pid]).(total := OrderTotal(db.lineas, pid))]
      && s.eliminar == old(s.eliminar) - {pid}
      && job == Some(PrintRequest(ConfigPrinter, Printer.ComandaEliminados(db.ventas[pid], purged.1)))
      && r == Ok([])
  {
    if EditGuard(db, pid).Some? {
      return Forbidden("Pedido no válido"), None;
    }
    var ids := s.Pendientes(pid);
    if ids == [] {
      return Ok([]), None;
    }
    var rows, eliminados := PurgeRows(db.lineas, db.ventas, db.nextLineaId, db.productos, pid, ids);
    GuardarEdicion(db, pid, rows);
    job := Some(PrintRequest(ConfigPrinter, Printer.ComandaEliminados(db.ventas[pid], eliminados)));
    s.DescartarPendientes(pid);
    r := Ok([]);
  }

  // ----- the order partial -----

  /** What `items_pedido.html` is rendered with. */
  datatype ItemsView = ItemsView(productos: seq<ProductoVenta>, totalConEnvio: int, carritoTemporal: Cart.Cart, pendientes: seq<int>)

  /**
   * `_render_items_pedido`: the order's lines, its total plus shipping
   * (`costo_envio or 0`), its temporary cart and its removal list; None
   * when the order does not exist (the render raises).
   */
  function ItemsPedido(db: Db, s: Session, pid: int): Option<ItemsView>
    reads db, s
  {
    if pid !in db.ventas then None
    else
      var p := db.ventas[pid];
      Some(ItemsView(LinesOf(db.lineas, pid), p.total + p.costoEnvio.GetOr(0), s.Temp(pid), s.Pendientes(pid)))
  }

  /** The total shown is the sum over the lines shown plus shipping. */
  lemma ItemsPedidoTotal(db: Db, s: Session, pid: int)
    requires db.Valid() && pid in db.ventas
    ensures ItemsPedido(db, s, pid).Some?
    ensures ItemsPedido(db, s, pid).value.totalConEnvio ==
      OrderTotal(ItemsPedido(db, s, pid).value.productos, pid) + db.ventas[pid].costoEnvio.GetOr(0)
  {
    LinesOfTotal(db.lineas, pid);
  }
}
