/**
 * Server-side thermal printing (`utils/printer.py`): the ESC/POS byte
 * commands, the 42-column ticket texts, the `ThermalPrinter` guard around
 * the spooler, and the choice of printer by profile. The spooler itself is
 * an input: a job either goes through or raises.
 */
module Printer {
  import opened Wrappers
  import opened Text
  import opened VentaModel
  import PrinterManager

  newtype byte = x: int | 0 <= x < 256

  const ESC: byte := 0x1B
  const GS: byte := 0x1D

  /** GS 'V' 1: partial cut. */
  const CUT_PAPER: seq<byte> := [GS, 0x56, 0x01]

  /** GS 'V' 0: full cut. */
  const CUT_PAPER_FULL: seq<byte> := [GS, 0x56, 0x00]

  /** `FEED_LINES(n)`: ESC 'd' n, feed n lines. `bytes([n])` only accepts a value that fits a byte. */
  function FeedLines(n: int): (b: seq<byte>)
    requires 0 <= n < 256
    ensures |b| == 3 && b[0] == ESC && b[1] as int == 'd' as int && b[2] as int == n
  {
    [ESC, 0x64, n as byte]
  }

  /** Ticket width in characters (80 mm paper). */
  const ANCHO: nat := 42

  /**
   * `_centrar`: a text at least as wide as the ticket is cut to the width;
   * a shorter one gets half the free space, rounded down, as leading blanks
   * and nothing after it.
   */
  function Centrar(texto: string, ancho: nat): (r: string)
    ensures |r| <= ancho
    ensures |texto| >= ancho ==> r == texto[..ancho]
    ensures |texto| < ancho ==>
      && |r| - |texto| == (ancho - |texto|) / 2
      && r[|r| - |texto|..] == texto
      && forall i :: 0 <= i < |r| - |texto| ==> r[i] == ' '
    ensures |texto| <= ancho ==> r[|r| - |texto|..] == texto
  {
    if |texto| >= ancho then texto[..ancho]
    else Spaces((ancho - |texto|) / 2) + texto
  }

  // ----- snapshots of what the tickets print -----

  /** `cliente.persona` of an order's client (the name, phone and address columns may be null). */
  datatype Persona = Persona(razonSocial: Option<string>, telefono: Option<string>, direccion: Option<string>)

  /** An order line with its product's name: `cantidad`, `producto.nombre`, `precio_venta`. */
  datatype LineSnap = LineSnap(cantidad: int, nombre: string, precioVenta: int)

  /** A kitchen-ticket item: a cart entry or a `{'nombre', 'cantidad'}` report. */
  datatype ComandaItem = ComandaItem(cantidad: int, nombre: string)

  /** `f"{x}"` of a nullable text column: None prints as "None". */
  function PyStr(o: Option<string>): string {
    o.GetOr("None")
  }

  /** `x or d` on a nullable text column: None and "" both give `d`. */
  function OrElse(o: Option<string>, d: string): string {
    if o.Some? && o.value != "" then o.value else d
  }

  /** `f"{x:.2f}"` of a whole number of pesos. */
  function Fixed2(n: int): string {
    IntToString(n) + ".00"
  }

  /** `f"{x:,.0f}"` of a whole number of pesos. */
  function Miles(n: int): string {
    GroupInt(n, ',')
  }

  function Dashes(): string {
    Repeat('-', ANCHO)
  }

  /** The fixed lines shared by the tickets, named so that they are unfolded only on demand. */
  function Doble(): string { Centrar(Repeat('=', ANCHO), ANCHO) }
  function Marca(): string { Centrar("MUNDO WAFFLES", ANCHO) }
  function GraciasCompra(): string { Centrar("Gracias por su compra!", ANCHO) }

  /** The delivery-state label of the receipt; any other value is "DESCONOCIDO". */
  function EstadoTexto(e: int): string {
    if e == DELIVERY_PREPARACION then "EN PREPARACION"
    else if e == DELIVERY_ENVIADO then "EN CAMINO"
    else if e == DELIVERY_ENTREGADO then "ENTREGADO"
    else "DESCONOCIDO"
  }

  /** Σ cantidad·precio_venta over order lines. */
  function LinesSum(items: seq<LineSnap>): int
    decreases |items|
  {
    if items == [] then 0
    else LinesSum(items[..|items| - 1]) + items[|items| - 1].cantidad * items[|items| - 1].precioVenta
  }

  // ----- _generar_recibo and _generar_recibo_mostrador -----

  /** The three lines of one receipt item: name cut to 30, quantity and prices, blank. */
  function ReciboItem(it: LineSnap): seq<string> {
    [ Take(it.nombre, 30),
      "  x" + IntToString(it.cantidad) + " @ $" + Fixed2(it.precioVenta)
        + " = $" + Fixed2(it.cantidad * it.precioVenta),
      "" ]
  }

  function ReciboItems(items: seq<LineSnap>): seq<string> {
    FlatMap(ReciboItem, items)
  }

  /** Shipping on the delivery receipt: `costo_envio`, 0 when null. */
  function EnvioRecibo(p: Venta): int {
    p.costoEnvio.GetOr(0)
  }

  function ReciboHeader(p: Venta, cliente: Option<Persona>): seq<string> {
    [ Marca(),
      Centrar("Delivery", ANCHO),
      Doble(),
      "",
      "Pedido #: " + IntToString(p.id),
      "Fecha: " + p.fechaHora.dmyHm,
      "",
      "CLIENTE:" ]
    + (match cliente
       case Some(per) =>
         [ "  " + PyStr(per.razonSocial),
           "  Tel: " + PyStr(per.telefono),
           "  Dir: " + PyStr(per.direccion) ]
       case None => [])
    + [ "",
        Doble(),
        "",
        "ITEMS:",
        "" ]
  }

  function ReciboFooter(p: Venta): seq<string> {
    [ Doble(),
      "",
      "Subtotal:              $" + RJust(Fixed2(p.total), 8),
      "Envío:                 $" + RJust(Fixed2(EnvioRecibo(p)), 8),
      Dashes(),
      "TOTAL:                 $" + RJust(Fixed2(p.total + EnvioRecibo(p)), 8),
      "",
      "",
      Centrar("Estado: " + EstadoTexto(p.estadoDelivery), ANCHO),
      "",
      GraciasCompra(),
      "",
      "",
      "" ]
  }

  function ReciboLines(p: Venta, cliente: Option<Persona>, items: seq<LineSnap>): seq<string> {
    ReciboHeader(p, cliente) + ReciboItems(items) + ReciboFooter(p)
  }

  function ReciboMostradorHeader(p: Venta): seq<string> {
    [ Marca(),
      Centrar("Mostrador", ANCHO),
      Doble(),
      "",
      "Pedido #: " + IntToString(p.id),
      "Fecha: " + p.fechaHora.dmyHm ]
    + (if p.comentarios.Some? && p.comentarios.value != "" then ["Cliente: " + p.comentarios.value] else [])
    + [ "",
        Doble(),
        "",
        "ITEMS:",
        "" ]
  }

  function ReciboMostradorFooter(p: Venta): seq<string> {
    [ Doble(),
      "",
      Dashes(),
      "TOTAL:                 $" + RJust(Fixed2(p.total), 8),
      "",
      "",
      GraciasCompra(),
      "",
      "",
      "" ]
  }

  function ReciboMostradorLines(p: Venta, items: seq<LineSnap>): seq<string> {
    ReciboMostradorHeader(p) + ReciboItems(items) + ReciboMostradorFooter(p)
  }

  /** Item `k` of a receipt occupies lines 3k..3k+2 of the item block. */
  lemma ReciboItemsAt(items: seq<LineSnap>, k: nat)
    requires k < |items|
    ensures |ReciboItems(items)| == 3 * |items|
    ensures ReciboItems(items)[3 * k..3 * k + 3] == ReciboItem(items[k])
  {
    FlatMapUniformAt(ReciboItem, items, 3, k);
  }

  lemma ReciboItemsSnoc(items: seq<LineSnap>, i: nat)
    requires i < |items|
    ensures ReciboItems(items[..i + 1]) == ReciboItems(items[..i]) + ReciboItem(items[i])
  {
    FlatMapSnoc(ReciboItem, items, i);
  }

  lemma ReciboHeaderLength(p: Venta, cliente: Option<Persona>)
    ensures |ReciboHeader(p, cliente)| == if cliente.Some? then 16 else 13
  {
  }

  lemma ReciboFooterTotal(p: Venta)
    ensures |ReciboFooter(p)| == 14
    ensures ReciboFooter(p)[5] == "TOTAL:                 $" + RJust(Fixed2(p.total + EnvioRecibo(p)), 8)
  {
  }

  /**
   * Receipt facts: three lines per item, each item's first line is its
   * product name cut to 30 characters, and the TOTAL line shows
   * `total` plus `costo_envio` (0 when null).
   */
  lemma ReciboFacts(p: Venta, cliente: Option<Persona>, items: seq<LineSnap>, k: nat)
    requires k < |items|
    ensures |ReciboLines(p, cliente, items)| == |ReciboHeader(p, cliente)| + 3 * |items| + 14
    ensures |ReciboHeader(p, cliente)| == if cliente.Some? then 16 else 13
    ensures ReciboLines(p, cliente, items)[|ReciboHeader(p, cliente)| + 3 * k] == Take(items[k].nombre, 30)
    ensures |Take(items[k].nombre, 30)| <= 30
    ensures ReciboLines(p, cliente, items)[|ReciboHeader(p, cliente)| + 3 * |items| + 5]
      == "TOTAL:                 $" + RJust(Fixed2(p.total + EnvioRecibo(p)), 8)
  {
    ReciboItemsAt(items, k);
    ReciboHeaderLength(p, cliente);
    ReciboFooterTotal(p);
    var h, b, f := ReciboHeader(p, cliente), ReciboItems(items), ReciboFooter(p);
    assert b[3 * k] == ReciboItem(items[k])[0];
    assert (h + b + f)[|h| + 3 * k] == b[3 * k];
    IndexThird(h, b, f, 5);
  }

  lemma ReciboMostradorHeaderLength(p: Venta)
    ensures |ReciboMostradorHeader(p)| == if p.comentarios.Some? && p.comentarios.value != "" then 12 else 11
  {
  }

  lemma ReciboMostradorFooterTotal(p: Venta)
    ensures |ReciboMostradorFooter(p)| == 10
    ensures ReciboMostradorFooter(p)[3] == "TOTAL:                 $" + RJust(Fixed2(p.total), 8)
  {
  }

  /**
   * Counter receipt facts: the client line appears only for non-empty
   * comments, three lines per item led by the name cut to 30, and the
   * TOTAL line shows the stored `total` with no shipping added.
   */
  lemma ReciboMostradorFacts(p: Venta, items: seq<LineSnap>, k: nat)
    requires k < |items|
    ensures |ReciboMostradorHeader(p)| == if p.comentarios.Some? && p.comentarios.value != "" then 12 else 11
    ensures |ReciboMostradorLines(p, items)| == |ReciboMostradorHeader(p)| + 3 * |items| + 10
    ensures ReciboMostradorLines(p, items)[|ReciboMostradorHeader(p)| + 3 * k] == Take(items[k].nombre, 30)
    ensures ReciboMostradorLines(p, items)[|ReciboMostradorHeader(p)| + 3 * |items| + 3]
      == "TOTAL:                 $" + RJust(Fixed2(p.total), 8)
  {
    ReciboItemsAt(items, k);
    ReciboMostradorHeaderLength(p);
    ReciboMostradorFooterTotal(p);
    var h, b, f := ReciboMostradorHeader(p), ReciboItems(items), ReciboMostradorFooter(p);
    assert b[3 * k] == ReciboItem(items[k])[0];
    assert (h + b + f)[|h| + 3 * k] == b[3 * k];
    IndexThird(h, b, f, 3);
  }

  // ----- _generar_comanda_cocina and the delta tickets -----

  /** `f"{cantidad}x {nombre.upper()}"`: the whole name, upper-cased. */
  function ComandaLine(it: ComandaItem): string {
    IntToString(it.cantidad) + "x " + Upper(it.nombre)
  }

  function ComandaItems(items: seq<ComandaItem>): seq<string> {
    Map(ComandaLine, items)
  }

  lemma ComandaItemsSnoc(items: seq<ComandaItem>, i: nat)
    requires i < |items|
    ensures ComandaItems(items[..i + 1]) == ComandaItems(items[..i]) + [ComandaLine(items[i])]
  {
    MapSnoc(ComandaLine, items, i);
  }

  function ComandaLines(p: Venta, items: seq<ComandaItem>, tipo: string): seq<string> {
    ["", "#" + IntToString(p.id) + "   " + tipo, p.fechaHora.dmHm, Dashes()]
    + ComandaItems(items)
    + [Dashes(), ""]
  }

  /** The AGREGADO / ELIMINADO tickets: the kitchen frame without the time line. */
  function DeltaLines(p: Venta, marca: string, productos: seq<ComandaItem>): seq<string> {
    ["", "#" + IntToString(p.id) + "   " + marca, Dashes()]
    + ComandaItems(productos)
    + [Dashes(), ""]
  }

  /**
   * Kitchen ticket: blank, "#id   TIPO", time, 42 dashes, one
   * "{cantidad}x {NAME}" line per item with the name upper-cased and not
   * cut, 42 dashes, blank.
   */
  lemma ComandaFacts(p: Venta, items: seq<ComandaItem>, tipo: string, k: nat)
    requires k < |items|
    ensures |ComandaLines(p, items, tipo)| == |items| + 6
    ensures ComandaLines(p, items, tipo)[1] == "#" + IntToString(p.id) + "   " + tipo
    ensures ComandaLines(p, items, tipo)[3] == ComandaLines(p, items, tipo)[|items| + 4] == Repeat('-', 42)
    ensures ComandaLines(p, items, tipo)[4 + k] == IntToString(items[k].cantidad) + "x " + Upper(items[k].nombre)
    ensures |ComandaLines(p, items, tipo)[4 + k]| == |IntToString(items[k].cantidad)| + 2 + |items[k].nombre|
  {
  }

  /** Delta tickets: the same frame as the kitchen ticket with "#id   AGREGADO"/"ELIMINADO" and no time line. */
  lemma DeltaFacts(p: Venta, marca: string, productos: seq<ComandaItem>, k: nat)
    requires k < |productos|
    ensures |DeltaLines(p, marca, productos)| == |productos| + 5
    ensures DeltaLines(p, marca, productos)[1] == "#" + IntToString(p.id) + "   " + marca
    ensures DeltaLines(p, marca, productos)[3 + k] == ComandaLine(productos[k])
    ensures DeltaLines(p, marca, productos)[|productos| + 3] == Repeat('-', 42)
  {
    var h, b, f := ["", "#" + IntToString(p.id) + "   " + marca, Dashes()], ComandaItems(productos), [Dashes(), ""];
    assert DeltaLines(p, marca, productos) == h + b + f;
  }

  // ----- _generar_comprobante_delivery -----

  function ComprobanteItem(it: LineSnap): seq<string> {
    [ IntToString(it.cantidad) + "x " + Take(it.nombre, 25),
      "   $" + Miles(it.precioVenta) + " c/u = $" + Miles(it.cantidad * it.precioVenta) ]
  }


  function ComprobanteItems(items: seq<LineSnap>): seq<string> {
    FlatMap(ComprobanteItem, items)
  }

  /** Shipping on the courier voucher: `costo_envio or 0`. */
  function EnvioComprobante(p: Venta): int {
    p.costoEnvio.GetOr(0)
  }

  function ComprobanteHeader(p: Venta, cliente: Option<Persona>): seq<string> {
    [ "",
      Marca(),
      Centrar(Repeat('=', 20), ANCHO),
      "",
      "Pedido #: " + IntToString(p.id),
      "Fecha: " + p.fechaHora.dmy,
      "Hora:  " + p.fechaHora.hm,
      "",
      Dashes(),
      "DATOS DEL CLIENTE",
      Dashes() ]
    + (match cliente
       case Some(per) =>
         [ "Nombre: " + OrElse(per.razonSocial, "Sin nombre"),
           "Fono:   " + OrElse(per.telefono, "Sin telefono"),
           "Dir:    " + OrElse(per.direccion, "Sin direccion") ]
       case None => ["Cliente no registrado"])
    + [ "",
        Dashes(),
        "DETALLE DE PRODUCTOS",
        Dashes() ]
  }

  function ComprobanteFooter(p: Venta, subtotal: int): seq<string> {
    [ "",
      Dashes(),
      LJust("Subtotal:", 30) + " $" + Miles(subtotal),
      LJust("Costo Envio:", 30) + " $" + Miles(EnvioComprobante(p)),
      Dashes(),
      LJust("TOTAL:", 30) + " $" + Miles(subtotal + EnvioComprobante(p)),
      "",
      Centrar("Gracias por su preferencia!", ANCHO),
      "",
      "" ]
  }

  function ComprobanteLines(p: Venta, cliente: Option<Persona>, items: seq<LineSnap>): seq<string> {
    ComprobanteHeader(p, cliente) + ComprobanteItems(items) + ComprobanteFooter(p, LinesSum(items))
  }

  /**
   * The courier voucher never reads the stored `total`: its subtotal is
   * recomputed from the lines, so two orders that differ only in `total`
   * print the same voucher.
   */
  lemma ComprobanteIgnoresStoredTotal(p: Venta, t: int, cliente: Option<Persona>, items: seq<LineSnap>)
    ensures ComprobanteLines(p.(total := t), cliente, items) == ComprobanteLines(p, cliente, items)
  {
  }

  /** Item `k` of the voucher occupies lines 2k..2k+1 of the item block; its name is cut to 25. */
  lemma ComprobanteItemsAt(items: seq<LineSnap>, k: nat)
    requires k < |items|
    ensures |ComprobanteItems(items)| == 2 * |items|
    ensures ComprobanteItems(items)[2 * k..2 * k + 2] == ComprobanteItem(items[k])
  {
    FlatMapUniformAt(ComprobanteItem, items, 2, k);
  }

  lemma ComprobanteItemsSnoc(items: seq<LineSnap>, i: nat)
    requires i < |items|
    ensures ComprobanteItems(items[..i + 1]) == ComprobanteItems(items[..i]) + ComprobanteItem(items[i])
  {
    FlatMapSnoc(ComprobanteItem, items, i);
  }

  lemma ComprobanteHeaderLength(p: Venta, cliente: Option<Persona>)
    ensures |ComprobanteHeader(p, cliente)| == if cliente.Some? then 18 else 16
  {
  }

  lemma ComprobanteFooterTotal(p: Venta, subtotal: int)
    ensures |ComprobanteFooter(p, subtotal)| == 10
    ensures ComprobanteFooter(p, subtotal)[5] == LJust("TOTAL:", 30) + " $" + Miles(subtotal + EnvioComprobante(p))
  {
  }

  /**
   * Voucher facts: two lines per item, the TOTAL line shows
   * Σ cantidad·precio_venta plus `costo_envio or 0`.
   */
  lemma ComprobanteFacts(p: Venta, cliente: Option<Persona>, items: seq<LineSnap>)
    ensures |ComprobanteHeader(p, cliente)| == if cliente.Some? then 18 else 16
    ensures |ComprobanteLines(p, cliente, items)| == |ComprobanteHeader(p, cliente)| + 2 * |items| + 10
    ensures ComprobanteLines(p, cliente, items)[|ComprobanteHeader(p, cliente)| + 2 * |items| + 5]
      == LJust("TOTAL:", 30) + " $" + Miles(LinesSum(items) + EnvioComprobante(p))
  {
    var h := ComprobanteHeader(p, cliente);
    var b := ComprobanteItems(items);
    var f := ComprobanteFooter(p, LinesSum(items));
    ComprobanteHeaderLength(p, cliente);
    ComprobanteFooterTotal(p, LinesSum(items));
    FlatMapUniformLength(ComprobanteItem, items, 2);
    assert ComprobanteLines(p, cliente, items) == h + b + f;
    assert (h + b + f)[|h| + |b| + 5] == f[5];
  }

  // ----- the generators -----

  /** The receipt item loop: `header` followed by each item's three lines, in order. */
  method AppendReciboItems(header: seq<string>, items: seq<LineSnap>) returns (lineas: seq<string>)
    ensures lineas == header + ReciboItems(items)
  {
    lineas := header;
    var i := 0;
    while i < |items|
      invariant 0 <= i <= |items|
      invariant lineas == header + ReciboItems(items[..i])
    {
      ReciboItemsSnoc(items, i);
      AppendAssoc(header, ReciboItems(items[..i]), ReciboItem(items[i]));
      lineas := lineas + ReciboItem(items[i]);
      i := i + 1;
    }
    assert items[..i] == items;
  }

  /** `_generar_recibo` */
  method GenerarRecibo(p: Venta, cliente: Option<Persona>, items: seq<LineSnap>) returns (contenido: string)
    ensures contenido == Join(ReciboLines(p, cliente, items), "\n")
  {
    var lineas := AppendReciboItems(ReciboHeader(p, cliente), items);
    lineas := lineas + ReciboFooter(p);
    contenido := Join(lineas, "\n");
  }

  /** `_generar_recibo_mostrador` */
  method GenerarReciboMostrador(p: Venta, items: seq<LineSnap>) returns (contenido: string)
    ensures contenido == Join(ReciboMostradorLines(p, items), "\n")
  {
    var lineas := AppendReciboItems(ReciboMostradorHeader(p), items);
    lineas := lineas + ReciboMostradorFooter(p);
    contenido := Join(lineas, "\n");
  }

  /** The kitchen-ticket item loop: `header` followed by one line per product, in order. */
  method AppendComandaItems(header: seq<string>, items: seq<ComandaItem>) returns (lineas: seq<string>)
    ensures lineas == header + ComandaItems(items)
  {
    lineas := header;
    var i := 0;
    while i < |items|
      invariant 0 <= i <= |items|
      invariant lineas == header + ComandaItems(items[..i])
    {
      ComandaItemsSnoc(items, i);
      AppendAssoc(header, ComandaItems(items[..i]), [ComandaLine(items[i])]);
      lineas := lineas + [ComandaLine(items[i])];
      i := i + 1;
    }
    assert items[..i] == items;
  }

  /** `_generar_comanda_cocina` */
  method GenerarComandaCocina(p: Venta, items: seq<ComandaItem>, tipo: string) returns (contenido: string)
    ensures contenido == Join(ComandaLines(p, items, tipo), "\n")
  {
    var lineas := AppendComandaItems(["", "#" + IntToString(p.id) + "   " + tipo, p.fechaHora.dmHm, Dashes()], items);
    lineas := lineas + [Dashes(), ""];
    contenido := Join(lineas, "\n");
  }

  /** The text built inside `imprimir_comanda_agregados` / `imprimir_comanda_eliminados`. */
  method TextoDelta(p: Venta, marca: string, productos: seq<ComandaItem>) returns (contenido: string)
    ensures contenido == Join(DeltaLines(p, marca, productos), "\n")
  {
    var lineas := AppendComandaItems(["", "#" + IntToString(p.id) + "   " + marca, Dashes()], productos);
    lineas := lineas + [Dashes(), ""];
    contenido := Join(lineas, "\n");
  }

  /**
   * The voucher item loop: `header` followed by each item's two lines,
   * with the subtotal accumulated over the lines as they are printed.
   */
  method AppendComprobanteItems(header: seq<string>, items: seq<LineSnap>) returns (lineas: seq<string>, subtotal: int)
    ensures lineas == header + ComprobanteItems(items)
    ensures subtotal == LinesSum(items)
  {
    lineas := header;
    subtotal := 0;
    var i := 0;
    while i < |items|
      invariant 0 <= i <= |items|
      invariant lineas == header + ComprobanteItems(items[..i])
      invariant subtotal == LinesSum(items[..i])
    {
      ComprobanteItemsSnoc(items, i);
      AppendAssoc(header, ComprobanteItems(items[..i]), ComprobanteItem(items[i]));
      assert items[..i + 1][..i] == items[..i];
      var item := items[i];
      var itemTotal := item.cantidad * item.precioVenta;
      subtotal := subtotal + itemTotal;
      lineas := lineas + ComprobanteItem(item);
      i := i + 1;
    }
    assert items[..i] == items;
  }

  /** `_generar_comprobante_delivery` */
  method GenerarComprobanteDelivery(p: Venta, cliente: Option<Persona>, items: seq<LineSnap>) returns (contenido: string)
    ensures contenido == Join(ComprobanteLines(p, cliente, items), "\n")
  {
    var lineas, subtotal := AppendComprobanteItems(ComprobanteHeader(p, cliente), items);
    lineas := lineas + ComprobanteFooter(p, subtotal);
    contenido := Join(lineas, "\n");
  }

  // ----- printing -----

  /** What a route asks the printer to print. */
  datatype Ticket =
    | Recibo(pedido: Venta, cliente: Option<Persona>, items: seq<LineSnap>)
    | ComandaCocina(pedido: Venta, comanda: seq<ComandaItem>, tipo: string)
    | ComandaAgregados(pedido: Venta, productos: seq<ComandaItem>)
    | ComandaEliminados(pedido: Venta, productos: seq<ComandaItem>)
    | ComprobanteDelivery(pedido: Venta, cliente: Option<Persona>, items: seq<LineSnap>)
    | ReciboMostrador(pedido: Venta, items: seq<LineSnap>)

  function TicketLines(t: Ticket): seq<string> {
    match t
    case Recibo(p, c, items) => ReciboLines(p, c, items)
    case ComandaCocina(p, items, tipo) => ComandaLines(p, items, tipo)
    case ComandaAgregados(p, productos) => DeltaLines(p, "AGREGADO", productos)
    case ComandaEliminados(p, productos) => DeltaLines(p, "ELIMINADO", productos)
    case ComprobanteDelivery(p, c, items) => ComprobanteLines(p, c, items)
    case ReciboMostrador(p, items) => ReciboMostradorLines(p, items)
  }

  /** The spooler document name of each ticket. */
  function DocName(t: Ticket): string {
    match t
    case Recibo(_, _, _) => "Recibo Pedido"
    case ComandaCocina(_, _, _) => "Comanda Cocina"
    case ComandaAgregados(_, _) => "Comanda Agregados"
    case ComandaEliminados(_, _) => "Comanda Eliminados"
    case ComprobanteDelivery(_, _, _) => "Comprobante Delivery"
    case ReciboMostrador(_, _) => "Recibo Mostrador"
  }

  /** Lines fed after the text: 3 for the delta tickets, 5 for every other ticket. */
  function Feed(t: Ticket): (n: nat)
    ensures n == 3 || n == 5
    ensures n == 3 <==> t.ComandaAgregados? || t.ComandaEliminados?
  {
    if t.ComandaAgregados? || t.ComandaEliminados? then 3 else 5
  }

  /** A RAW job handed to the spooler: the text, then the feed and the partial cut. */
  datatype SpoolJob = SpoolJob(printer: string, docName: string, contenido: string, trailer: seq<byte>)

  /** The text of a ticket, built by the generator of its kind. */
  method GenerarTexto(t: Ticket) returns (contenido: string)
    ensures contenido == Join(TicketLines(t), "\n")
  {
    match t {
      case Recibo(p, c, items) =>
        contenido := GenerarRecibo(p, c, items);
      case ComandaCocina(p, items, tipo) =>
        contenido := GenerarComandaCocina(p, items, tipo);
      case ComandaAgregados(p, productos) =>
        contenido := TextoDelta(p, "AGREGADO", productos);
      case ComandaEliminados(p, productos) =>
        contenido := TextoDelta(p, "ELIMINADO", productos);
      case ComprobanteDelivery(p, c, items) =>
        contenido := GenerarComprobanteDelivery(p, c, items);
      case ReciboMostrador(p, items) =>
        contenido := GenerarReciboMostrador(p, items);
    }
  }

  class ThermalPrinter {
    const printerName: Option<string>
    var printer: Option<string>

    /**
     * `ThermalPrinter(printer_name)`: no printer without the Windows
     * spooler; otherwise the given name, or the system default when the
     * name is empty or missing (`defaultPrinter` None: asking for the
     * default raised).
     */
    constructor (printerName: Option<string>, hasWin32: bool, defaultPrinter: Option<string>)
      ensures this.printerName == printerName
      ensures !hasWin32 ==> printer.None?
      ensures hasWin32 && (printerName.None? || printerName.value == "") ==> printer == defaultPrinter
      ensures hasWin32 && printerName.Some? && printerName.value != "" ==> printer == printerName
    {
      this.printerName := printerName;
      if !hasWin32 {
        printer := None;
      } else if printerName.None? || printerName.value == "" {
        printer := defaultPrinter;
      } else {
        printer := printerName;
      }
    }

    /** `if not self.printer`: no printer, or an empty name. */
    predicate Available()
      reads this
    {
      printer.Some? && printer.value != ""
    }

    /**
     * The `imprimir_*` methods: with no printer, False and nothing is sent;
     * otherwise the ticket text followed by FEED_LINES(n) and CUT_PAPER
     * goes to the spooler, and the result is whether the spooler accepted it
     * (`spoolerOk`), never an exception.
     */
    method Imprimir(t: Ticket, spoolerOk: bool) returns (ok: bool, job: Option<SpoolJob>)
      ensures !Available() ==> !ok && job.None?
      ensures Available() ==> ok == spoolerOk
      ensures Available() ==>
        job == Some(SpoolJob(printer.value, DocName(t), Join(TicketLines(t), "\n"), FeedLines(Feed(t)) + CUT_PAPER))
    {
      if !Available() {
        return false, None;
      }
      var contenido := GenerarTexto(t);
      job := Some(SpoolJob(printer.value, DocName(t), contenido, FeedLines(Feed(t)) + CUT_PAPER));
      ok := spoolerOk;
    }
  }

  /** `get_printer`: a printer named by the `PRINTER_NAME` setting (None when unset). */
  method GetPrinter(config: Option<string>, hasWin32: bool, defaultPrinter: Option<string>) returns (tp: ThermalPrinter)
    ensures fresh(tp) && tp.printerName == config
  {
    tp := new ThermalPrinter(config, hasWin32, defaultPrinter);
  }

  /**
   * The printer name `get_printer_by_profile` builds its printer with: the
   * driver of the printer found for (perfil, tipo) when that driver name is
   * not empty, and the `PRINTER_NAME` setting otherwise.
   */
  function ProfilePrinterName(q: PrinterManager.Query, perfil: string, tipo: Option<string>, config: Option<string>): (name: Option<string>)
    ensures q.None? ==> name == config
    ensures name != config ==> exists pr :: pr in q.value && PrinterManager.Matches(pr, perfil, tipo)
                                             && name == Some(pr.driverName) && pr.driverName != ""
  {
    var found := PrinterManager.ObtenerPorPerfil(q, perfil, tipo);
    if found.Some? && found.value.driverName != "" then Some(found.value.driverName) else config
  }

  /** `get_printer_by_profile` */
  method GetPrinterByProfile(q: PrinterManager.Query, perfil: string, tipo: Option<string>, config: Option<string>,
                             hasWin32: bool, defaultPrinter: Option<string>) returns (tp: ThermalPrinter)
    ensures fresh(tp) && tp.printerName == ProfilePrinterName(q, perfil, tipo, config)
  {
    var found := PrinterManager.ObtenerPorPerfil(q, perfil, tipo);
    if found.Some? && found.value.driverName != "" {
      tp := new ThermalPrinter(Some(found.value.driverName), hasWin32, defaultPrinter);
    } else {
      tp := GetPrinter(config, hasWin32, defaultPrinter);
    }
  }
}
