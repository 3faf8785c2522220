/**
 * The counter routes (`routes/mostrador.py`): the counter cart, saving the
 * order, the lists by state, the "listo" change with its paid guard, and
 * charging. The counter has no shipping cost, and its "paid" list depends
 * only on the recorded receipt type, not on the preparation state.
 */
module Mostrador {
  import opened Wrappers
  import opened VentaModel
  import Text
  import Cart
  import Printer
  import opened Orders

  // ----- the counter cart -----

  /** What the counter `carrito_items.html` is rendered with. */
  datatype MostradorView = MostradorView(items: Cart.Cart, subtotal: int, total: int)

  /** `v` shows cart `c`: its entries and their subtotal, which is also the total. */
  predicate Shows(v: MostradorView, c: Cart.Cart) {
    v.items == c && v.subtotal == Cart.Subtotal(c) && v.total == v.subtotal
  }

  /** `render_carrito_mostrador`: sums precio·cantidad over the cart; the total adds nothing. */
  method RenderCarritoMostrador(s: Session) returns (v: MostradorView)
    ensures Shows(v, s.carritoMostrador)
  {
    var c := s.carritoMostrador;
    var subtotal := 0;
    var i := 0;
    while i < |c|
      invariant 0 <= i <= |c|
      invariant subtotal == Cart.Subtotal(c[..i])
    {
      assert c[..i + 1][..i] == c[..i];
      subtotal := subtotal + c[i].precio * c[i].cantidad;
      i := i + 1;
    }
    assert c[..i] == c;
    v := MostradorView(c, subtotal, subtotal);
  }

  /**
   * `agregar_producto`: one more unit of the product, or a new entry with
   * quantity 1. `precio` is None when `float()` of the submitted price
   * raises (field missing or not a number): the route then fails with a
   * 500 (None) before touching the session.
   */
  method AgregarProducto(s: Session, productoId: int, nombre: string, precio: Option<int>) returns (v: Option<MostradorView>)
    requires s.Valid()
    modifies s`carritoMostrador
    ensures s.Valid()
    ensures precio.None? ==> v.None? && s.carritoMostrador == old(s.carritoMostrador)
    ensures precio.Some? ==> s.carritoMostrador == Cart.Add(old(s.carritoMostrador), productoId, nombre, precio.value)
    ensures precio.Some? ==> v.Some? && Shows(v.value, s.carritoMostrador)
  {
    if precio.None? {
      return None;
    }
    Cart.AddWellFormed(s.carritoMostrador, productoId, nombre, precio.value);
    s.carritoMostrador := Cart.Add(s.carritoMostrador, productoId, nombre, precio.value);
    var view := RenderCarritoMostrador(s);
    v := Some(view);
  }

  /** `actualizar_cantidad`: "aumentar" adds a unit, "disminuir" removes one and drops the entry at 0. */
  method ActualizarCantidad(s: Session, itemId: int, accion: string) returns (v: MostradorView)
    requires s.Valid()
    modifies s`carritoMostrador
    ensures s.Valid()
    ensures s.carritoMostrador == Cart.Adjust(old(s.carritoMostrador), itemId, accion)
    ensures Shows(v, s.carritoMostrador)
  {
    Cart.AdjustSpec(s.carritoMostrador, itemId, accion);
    s.carritoMostrador := Cart.Adjust(s.carritoMostrador, itemId, accion);
    v := RenderCarritoMostrador(s);
  }

  /** `eliminar_producto`: drops the entry when present. */
  method EliminarProducto(s: Session, itemId: int) returns (v: MostradorView)
    requires s.Valid()
    modifies s`carritoMostrador
    ensures s.Valid()
    ensures s.carritoMostrador == Cart.Remove(old(s.carritoMostrador), itemId)
    ensures Shows(v, s.carritoMostrador)
  {
    Cart.RemoveSpec(s.carritoMostrador, itemId);
    s.carritoMostrador := Cart.Remove(s.carritoMostrador, itemId);
    v := RenderCarritoMostrador(s);
  }

  // ----- saving the order -----

  /** The name the order is saved under when the session has none. */
  const CLIENTE_DEFECTO: string := "Cliente Mostrador"

  /**
   * The order `guardar_pedido` stores: channel 1, in preparation at the
   * counter, no delivery state, unpaid, total the cart subtotal, and the
   * client's name kept in `comentarios`.
   */
  function NuevaVentaMostrador(id: int, now: Stamp, c: Cart.Cart, cliente: Option<string>): Venta {
    NewVenta(id, now, "V-" + now.compact, Cart.Subtotal(c)).(
      estadoDelivery := 0,
      tipoventaId := Some(TIPO_MOSTRADOR),
      comentarios := Some(cliente.GetOr(CLIENTE_DEFECTO)))
  }

  /** A new counter order lands in the "en preparación" list, in no delivery state, and is not paid. */
  lemma NuevaVentaMostradorSpec(id: int, now: Stamp, c: Cart.Cart, cliente: Option<string>)
    ensures var v := NuevaVentaMostrador(id, now, c, cliente);
      && v.id == id && v.total == Cart.Subtotal(c) && EstadosValidos(v)
      && v.tipoventaId == Some(TIPO_MOSTRADOR) && v.estadoMostrador == Some(MOSTRADOR_PREPARACION)
      && v.estadoDelivery == 0 && !Pagado(v)
      && v.comentarios == Some(if cliente.Some? then cliente.value else CLIENTE_DEFECTO)
  {
  }

  /** The kitchen printer of the counter: profile "cocina", ticket type "comanda". */
  const COCINA: Via := ProfilePrinter("cocina", Some("comanda"))

  /**
   * `guardar_pedido`: an empty cart is a 400. Otherwise the order and one
   * line per cart entry are stored, the kitchen ticket goes to the
   * kitchen printer, and the cart, client name and comments leave the
   * session. A cart entry that is not a product makes the insert fail:
   * 500, nothing stored, session untouched.
   */
  method GuardarPedido(db: Db, s: Session, now: Stamp) returns (r: Response, job: Option<PrintRequest>)
    requires db.Valid() && s.Valid()
    modifies db`ventas, db`lineas, db`nextVentaId, db`nextLineaId
    modifies s`carritoMostrador, s`clienteMostrador, s`comentariosMostrador
    ensures db.Valid() && s.Valid()
    ensures old(s.carritoMostrador) == [] ==>
      r == BadRequest("El carrito está vacío") && job.None? && unchanged(db, s)
    ensures old(s.carritoMostrador) != [] && !InCatalogue(old(s.carritoMostrador), db.productos) ==>
      r == ServerError && job.None? && unchanged(db, s)
    ensures old(s.carritoMostrador) != [] && InCatalogue(old(s.carritoMostrador), db.productos) ==>
      var vid := old(db.nextVentaId);
      var v := NuevaVentaMostrador(vid, now, old(s.carritoMostrador), old(s.clienteMostrador));
      && r == Ok(["refresh-preparacion", "refresh-listos"])
      && db.ventas == old(db.ventas)[vid := v]
      && db.lineas == old(db.lineas) + CartLines(old(s.carritoMostrador), vid, old(db.nextLineaId))
      && db.nextVentaId == vid + 1 && db.nextLineaId == old(db.nextLineaId) + |old(s.carritoMostrador)|
      && s.carritoMostrador == [] && s.clienteMostrador.None? && s.comentariosMostrador.None?
      && job == Some(PrintRequest(COCINA, Printer.ComandaCocina(v, ComandaItems(old(s.carritoMostrador)), "MOSTRADOR")))
  {
    var c := s.carritoMostrador;
    if c == [] {
      return BadRequest("El carrito está vacío"), None;
    }
    if !InCatalogue(c, db.productos) {
      return ServerError, None;
    }
    var vid := db.nextVentaId;
    var v := NuevaVentaMostrador(vid, now, c, s.clienteMostrador);
    NuevaVentaMostradorSpec(vid, now, c, s.clienteMostrador);
    InsertarPedido(db, c, v);
    job := Some(PrintRequest(COCINA, Printer.ComandaCocina(v, ComandaItems(c), "MOSTRADOR")));
    s.LimpiarMostrador();
    r := Ok(["refresh-preparacion", "refresh-listos"]);
  }

  // ----- the lists by state -----

  /** The list number of the "pagados" tab. */
  const LISTA_PAGADOS: int := 3

  /**
   * `pedidos_estado`: the counter orders (channel 1) shown in list
   * `estado`. List 3 holds those with a receipt type recorded; any other
   * number holds those whose counter state is that number.
   */
  function PedidosEstado(ventas: map<int, Venta>, estado: int): set<int> {
    set id | id in ventas && ventas[id].tipoventaId == Some(TIPO_MOSTRADOR)
                          && (if estado == LISTA_PAGADOS then Pagado(ventas[id])
                              else ventas[id].estadoMostrador == Some(estado))
  }

  /** The "pagados" list does not depend on any order's counter state. */
  lemma PagadosIgnoreEstado(ventas: map<int, Venta>, id: int, e: Option<int>)
    requires id in ventas
    ensures PedidosEstado(ventas[id := ventas[id].(estadoMostrador := e)], LISTA_PAGADOS) == PedidosEstado(ventas, LISTA_PAGADOS)
  {
    var ventas' := ventas[id := ventas[id].(estadoMostrador := e)];
    forall k | k in PedidosEstado(ventas', LISTA_PAGADOS)
      ensures k in PedidosEstado(ventas, LISTA_PAGADOS)
    {
      assert k in ventas;
    }
  }

  /** No order is both in preparation and ready, and only counter orders are ever listed. */
  lemma ListasDisjuntas(ventas: map<int, Venta>, estado: int)
    ensures PedidosEstado(ventas, MOSTRADOR_PREPARACION) !! PedidosEstado(ventas, MOSTRADOR_LISTO)
    ensures forall id :: id in PedidosEstado(ventas, estado) ==> ventas[id].tipoventaId == Some(TIPO_MOSTRADOR)
  {
  }

  // ----- state change and charging -----

  /** The counter's "paid" test, `not comprobante_id` negated: a receipt type that is neither absent nor 0. */
  predicate PagadoMostrador(v: Venta) {
    v.comprobanteId.Some? && v.comprobanteId.value != 0
  }

  /**
   * The `HX-Trigger` lists of `cambiar_estado`: the preparation list when
   * the order leaves or enters state 1, the ready list when it leaves or
   * enters state 2.
   */
  function TriggersMostrador(anterior: Option<int>, nuevo: int): seq<string> {
    (if anterior == Some(MOSTRADOR_PREPARACION) || nuevo == MOSTRADOR_PREPARACION then ["refresh-preparacion"] else [])
    + (if anterior == Some(MOSTRADOR_LISTO) || nuevo == MOSTRADOR_LISTO then ["refresh-listos"] else [])
  }

  /** Each list is refreshed exactly when the order leaves or enters it, and a valid change refreshes at least one. */
  lemma TriggersMostradorSpec(anterior: Option<int>, nuevo: int)
    ensures "refresh-preparacion" in TriggersMostrador(anterior, nuevo) <==>
      anterior == Some(MOSTRADOR_PREPARACION) || nuevo == MOSTRADOR_PREPARACION
    ensures "refresh-listos" in TriggersMostrador(anterior, nuevo) <==>
      anterior == Some(MOSTRADOR_LISTO) || nuevo == MOSTRADOR_LISTO
    ensures MOSTRADOR_PREPARACION <= nuevo <= MOSTRADOR_LISTO ==> |TriggersMostrador(anterior, nuevo)| >= 1
    ensures NoDuplicates(TriggersMostrador(anterior, nuevo))
  {
  }

  /**
   * `cambiar_estado`: 400 for a state other than 1 or 2, 404 for an
   * unknown order, 400 when asked to mark "listo" an order with no (or a
   * zero) receipt type. Otherwise the counter state is stored and the
   * affected lists refreshed. The route does not look at the channel.
   */
  method CambiarEstado(db: Db, pid: int, nuevo: int) returns (r: Response)
    requires db.Valid()
    modifies db`ventas
    ensures db.Valid()
    ensures !(MOSTRADOR_PREPARACION <= nuevo <= MOSTRADOR_LISTO) ==>
      r == BadRequest("Estado no válido") && unchanged(db)
    ensures MOSTRADOR_PREPARACION <= nuevo <= MOSTRADOR_LISTO && pid !in old(db.ventas) ==>
      r == NotFound("Pedido no encontrado") && unchanged(db)
    ensures nuevo == MOSTRADOR_LISTO && pid in old(db.ventas) && !PagadoMostrador(old(db.ventas[pid])) ==>
      r == BadRequest("Debe estar pagado antes de marcar como Listo") && unchanged(db)
    ensures MOSTRADOR_PREPARACION <= nuevo <= MOSTRADOR_LISTO && pid in old(db.ventas)
            && (nuevo == MOSTRADOR_LISTO ==> PagadoMostrador(old(db.ventas[pid]))) ==>
      && db.ventas == old(db.ventas)[pid := old(db.ventas[pid]).(estadoMostrador := Some(nuevo))]
      && r == Ok(TriggersMostrador(old(db.ventas[pid]).estadoMostrador, nuevo))
    ensures forall id :: id in db.ventas && db.ventas[id].estadoMostrador == Some(MOSTRADOR_LISTO) && !PagadoMostrador(db.ventas[id]) ==>
      id in old(db.ventas) && old(db.ventas[id]) == db.ventas[id]
    ensures r.Ok? && old(db.ventas[pid]).tipoventaId == Some(TIPO_MOSTRADOR) ==>
      pid in PedidosEstado(db.ventas, nuevo) && pid !in PedidosEstado(db.ventas, 3 - nuevo)
  {
    if !(MOSTRADOR_PREPARACION <= nuevo <= MOSTRADOR_LISTO) {
      return BadRequest("Estado no válido");
    }
    if pid !in db.ventas {
      return NotFound("Pedido no encontrado");
    }
    var pedido := db.ventas[pid];
    if nuevo == MOSTRADOR_LISTO && !PagadoMostrador(pedido) {
      return BadRequest("Debe estar pagado antes de marcar como Listo");
    }
    var anterior := pedido.estadoMostrador;
    pedido := pedido.(estadoMostrador := Some(nuevo));
    RowsOkStore(db.lineas, db.ventas, db.nextLineaId, db.productos, pid, pedido);
    db.ventas := db.ventas[pid := pedido];
    r := Ok(TriggersMostrador(anterior, nuevo));
  }

  /**
   * The counter's receipt prefix: "B" only when the form field is missing
   * (the default is the integer 1, while a submitted value is text), "F"
   * otherwise.
   */
  function PrefijoMostrador(tipo: FormValue): string {
    if tipo == Missing then "B" else "F"
  }

  /**
   * A submitted "1" records receipt type 1 but numbers it "F-…", while the
   * delivery route numbers the same submission "B-…".
   */
  lemma PrefijoMostradorTextoUno()
    ensures TipoComprobante(Given("1")) == TipoComprobante(Missing) == Some(1)
    ensures PrefijoMostrador(Given("1")) == "F" && PrefijoMostrador(Missing) == "B"
  {
    ParseIntRoundTrip(1);
    assert Text.IntToString(1) == "1";
  }

  /** The counter's receipt ticket: the order as stored and its lines with their product names. */
  function ReciboDe(db: Db, v: Venta): Printer.Ticket
    reads db
    requires forall j :: 0 <= j < |db.lineas| ==> db.lineas[j].productoId in db.productos
  {
    Printer.ReciboMostrador(v, Snaps(db.productos, LinesOf(db.lineas, v.id)))
  }

  /**
   * `cobrar_pedido`: records the receipt type and the number
   * "<B|F>-<id:06d>" and leaves the counter state alone, so the order
   * joins the "pagados" list; the receipt goes to the configured printer.
   * An unknown order, a value that is not an integer or that names no
   * receipt type all end in a 500 with nothing stored.
   */
  method CobrarPedido(db: Db, pid: int, tipo: FormValue) returns (r: Response, job: Option<PrintRequest>)
    requires db.Valid()
    modifies db`ventas
    ensures db.Valid()
    ensures pid !in old(db.ventas) || TipoComprobante(tipo).None? || TipoComprobante(tipo).value !in db.comprobantes ==>
      r == ServerError && job.None? && unchanged(db)
    ensures pid in old(db.ventas) && TipoComprobante(tipo).Some? && TipoComprobante(tipo).value in db.comprobantes ==>
      && pid >= 1
      && db.ventas == old(db.ventas)[pid := old(db.ventas[pid]).(
           comprobanteId := TipoComprobante(tipo),
           numeroComprobante := Some(NumeroComprobante(PrefijoMostrador(tipo), pid)))]
      && r == Ok(["refresh-preparacion", "refresh-listos", "refresh-pagados"])
      && job == Some(PrintRequest(ConfigPrinter, ReciboDe(db, db.ventas[pid])))
      && (old(db.ventas[pid]).tipoventaId == Some(TIPO_MOSTRADOR) ==> pid in PedidosEstado(db.ventas, LISTA_PAGADOS))
  {
    if pid !in db.ventas {
      return ServerError, None;
    }
    var t := TipoComprobante(tipo);
    if t.None? || t.value !in db.comprobantes {
      return ServerError, None;
    }
    var pedido := db.ventas[pid];
    pedido := pedido.(comprobanteId := t, numeroComprobante := Some(NumeroComprobante(PrefijoMostrador(tipo), pid)));
    RowsOkStore(db.lineas, db.ventas, db.nextLineaId, db.productos, pid, pedido);
    db.ventas := db.ventas[pid := pedido];
    job := Some(PrintRequest(ConfigPrinter, ReciboDe(db, pedido)));
    r := Ok(["refresh-preparacion", "refresh-listos", "refresh-pagados"]);
  }
}
