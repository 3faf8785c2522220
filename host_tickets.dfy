/**
 * The ticket layouts of the Windows print relay (`app/printer_host.py`):
 * the job payload, the price and centring helpers, and, for each builder,
 * the list of lines it prints as a function of the payload, with what
 * those lines show.
 *
 * The payload is the already-decoded JSON: a key that is absent is None.
 */
module HostTickets {
  import opened Wrappers
  import opened Text
  import opened VentaModel
  import Printer

  const ANCHO: int := 42

  // ----- formatting helpers -----

  /**
   * `_format_precio`: `int(float(v))` with '.' between groups of three
   * digits and a leading '$'. None stands for a value `float` rejects,
   * which prints "$0".
   */
  function FormatPrecio(valor: Option<int>): (r: string)
    ensures valor.None? ==> r == "$0"
    ensures valor.Some? ==> |r| >= 2 && r[0] == '$'
  {
    match valor
    case None => "$0"
    case Some(n) => "$" + GroupInt(n, '.')
  }

  /** For a non-negative amount: '$', then the digits of the amount grouped with '.'. */
  lemma FormatPrecioDigits(n: nat)
    ensures FormatPrecio(Some(n))[1..] == Group(n, '.')
    ensures Without(FormatPrecio(Some(n))[1..], '.') == NatToString(n)
  {
    var r, g := FormatPrecio(Some(n)), Group(n, '.');
    assert r == "$" + g;
    assert r[1..] == g;
    GroupDigits(n, '.');
  }

  /** After the '$', a '.' stands exactly at every fourth position counted from the right. */
  lemma FormatPrecioSeparators(n: nat)
    ensures forall i :: 1 <= i < |FormatPrecio(Some(n))| ==>
      (FormatPrecio(Some(n))[i] == '.' <==> (|FormatPrecio(Some(n))| - i) % 4 == 0)
  {
    var r, g := FormatPrecio(Some(n)), Group(n, '.');
    assert r == "$" + g;
    GroupSeparators(n, '.');
    SeparatorsAfterSign(g, r);
  }

  /** Prefixing a '$' keeps every '.' at the same distance from the end. */
  lemma SeparatorsAfterSign(g: string, r: string)
    requires r == "$" + g
    requires forall i :: 0 <= i < |g| ==> (g[i] == '.' <==> (|g| - i) % 4 == 0)
    ensures forall i :: 1 <= i < |r| ==> (r[i] == '.' <==> (|r| - i) % 4 == 0)
  {
    forall i | 1 <= i < |r|
      ensures r[i] == '.' <==> (|r| - i) % 4 == 0
    {
      assert r[i] == g[i - 1];
    }
  }

  /**
   * Each further group of three digits adds a '.' and the group, zero
   * padded: 1000 prints "$1.000" and 1500000 prints "$1.500.000".
   */
  lemma FormatPrecioThousands(n: nat)
    requires n >= 1000
    ensures FormatPrecio(Some(n)) == FormatPrecio(Some(n / 1000)) + "." + ZeroPad(n % 1000, 3)
  {
  }

  /**
   * `_center` is `str.center`: the result is as wide as the larger of the
   * width and the text, the text is never cut, and the padding on the two
   * sides differs by at most one.
   */
  lemma CenterSpec(t: string, w: int)
    ensures |Center(t, w)| == Max(w, |t|)
    ensures exists left :: (0 <= left <= |Center(t, w)| - |t|
      && Center(t, w) == Spaces(left) + t + Spaces(|Center(t, w)| - |t| - left)
      && -1 <= 2 * left - (|Center(t, w)| - |t|) <= 1)
  {
    if |t| >= w {
      assert Center(t, w) == Spaces(0) + t + Spaces(0);
    } else {
      var marg := w - |t|;
      var left := marg / 2 + (if marg % 2 == 1 && w % 2 == 1 then 1 else 0);
      assert Center(t, w) == Spaces(left) + t + Spaces(marg - left);
    }
  }

  /**
   * The relay's `_center` and the server's `_centrar` part ways on a text
   * wider than the ticket: the relay keeps it whole, the server cuts it.
   */
  lemma CenterVersusCentrar(t: string)
    requires |t| > ANCHO
    ensures Center(t, ANCHO) == t
    ensures Printer.Centrar(t, ANCHO) == t[..ANCHO] && Printer.Centrar(t, ANCHO) != t
  {
  }

  /**
   * The fixed lines of the relay's tickets. Labels written with trailing
   * blanks in the source appear here as that padded text.
   */
  function Iguales(): string { Repeat('=', ANCHO) }
  function Guiones(): string { Repeat('-', ANCHO) }
  function Marca(): string { Center("MUNDO WAFFLES", ANCHO) }
  function SubtituloDelivery(): string { Center("Delivery", ANCHO) }
  function GraciasCompra(): string { Center("Gracias por su compra!", ANCHO) }
  function Separador(): string { Center(Repeat('=', 20), ANCHO) }
  function TituloComprobante(): string { Center("COMPROBANTE DELIVERY", ANCHO) }
  function GraciasPreferencia(): string { Center("Gracias por su preferencia!", ANCHO) }

  /** `x` is truthy: present and not "". */
  predicate Truthy(x: Option<string>) {
    x.Some? && x.value != ""
  }

  /** `f"{payload.get('id', '')}"`: the number, or nothing when absent. */
  function IdText(id: Option<int>): string {
    if id.Some? then IntToString(id.value) else ""
  }

  // ----- the payload -----

  /** An ISO date string and what `datetime.fromisoformat` makes of it (None: it raises). */
  datatype Fecha = Fecha(raw: string, parsed: Option<Stamp>)

  /**
   * One entry of `items` or `productos`. The kitchen builders also read the
   * upper-case keys `NOMBRE` and `CANTIDAD`.
   */
  datatype Item = Item(
    nombre: Option<string>,
    nombreMayus: Option<string>,
    cantidad: Option<int>,
    cantidadMayus: Option<int>,
    precioVenta: Option<int>,
    subtotal: Option<int>,
    atributos: seq<(string, string)>)

  datatype PedidoP = PedidoP(
    id: Option<int>,
    fechaHora: Option<Fecha>,
    total: Option<int>,
    costoEnvio: Option<int>,
    estadoDelivery: Option<int>)

  datatype ClienteP = ClienteP(razonSocial: Option<string>, telefono: Option<string>, direccion: Option<string>)

  /** A job's payload. `cliente` is None when absent or empty (falsy). */
  datatype Payload = Payload(
    content: Option<string>,
    contenido: Option<string>,
    pedido: PedidoP,
    cliente: Option<ClienteP>,
    items: seq<Item>,
    tipo: Option<string>,
    pedidoId: Option<int>,
    productos: seq<Item>,
    totalConEnvio: Option<int>)

  /** `_fmt_fecha`: "" for no date, `%d/%m/%Y %H:%M` when it parses, the raw text otherwise. */
  function FmtFecha(f: Option<Fecha>): string {
    if f.None? || f.value.raw == "" then ""
    else if f.value.parsed.Some? then f.value.parsed.value.dmyHm
    else f.value.raw
  }

  /** The time of a date that parses (`%H:%M`), "" otherwise. */
  function Hora(f: Option<Fecha>): string {
    if f.Some? && f.value.raw != "" && f.value.parsed.Some? then f.value.parsed.value.hm else ""
  }

  // ----- build_recibo -----

  function ReciboCliente(c: Option<ClienteP>): seq<string> {
    match c
    case None => []
    case Some(cl) =>
      (if Truthy(cl.razonSocial) then ["  " + cl.razonSocial.value] else [])
      + (if Truthy(cl.telefono) then ["  Tel: " + cl.telefono.value] else [])
      + (if Truthy(cl.direccion) then ["  Dir: " + cl.direccion.value] else [])
  }

  function ReciboHeader(p: Payload): seq<string> {
    [ Marca(),
      SubtituloDelivery(),
      Iguales(),
      "",
      "Pedido #: " + IdText(p.pedido.id),
      "Fecha: " + FmtFecha(p.pedido.fechaHora),
      "",
      "CLIENTE:" ]
    + ReciboCliente(p.cliente)
    + [ "", Iguales(), "", "ITEMS:", "" ]
  }

  function AtributoLine(kv: (string, string)): string {
    "    - " + kv.0 + ": " + kv.1
  }

  function AtributoLines(kvs: seq<(string, string)>): seq<string> {
    Map(AtributoLine, kvs)
  }

  /**
   * The first two lines of a receipt item: the name cut to 30, then
   * quantity (default 1), unit price (default 0) and the line subtotal
   * (default quantity × price).
   */
  function ReciboItemHead(it: Item): seq<string> {
    var cantidad := it.cantidad.GetOr(1);
    var precio := it.precioVenta.GetOr(0);
    var subtotal := it.subtotal.GetOr(cantidad * precio);
    [ Take(it.nombre.GetOr(""), 30),
      "  x" + IntToString(cantidad) + " @ " + FormatPrecio(Some(precio)) + " = " + FormatPrecio(Some(subtotal)) ]
  }

  function ReciboBlock(it: Item): seq<string> {
    ReciboItemHead(it) + AtributoLines(it.atributos) + [""]
  }

  function ReciboItems(items: seq<Item>): seq<string> {
    FlatMap(ReciboBlock, items)
  }

  /** The receipt's TOTAL: `total_con_envio` when given, else `total` + `costo_envio` (absent: 0). */
  function ReciboTotal(p: Payload): int {
    if p.totalConEnvio.Some? then p.totalConEnvio.value
    else p.pedido.total.GetOr(0) + p.pedido.costoEnvio.GetOr(0)
  }

  /** `estados.get(estado_delivery, 'DESCONOCIDO')` */
  function EstadoLabel(e: Option<int>): string {
    if e.Some? then Printer.EstadoTexto(e.value) else "DESCONOCIDO"
  }

  /** The amounts block of the receipt: subtotal, shipping and TOTAL right-aligned in 10 columns. */
  function ReciboTotales(subtotal: int, envio: int, total: int): seq<string> {
    [ Iguales(),
      "",
      "Subtotal:              " + RJust(FormatPrecio(Some(subtotal)), 10),
      "Envio:                 " + RJust(FormatPrecio(Some(envio)), 10),
      Guiones(),
      "TOTAL:                 " + RJust(FormatPrecio(Some(total)), 10) ]
  }

  /** The closing lines: the delivery state, centred, and the thanks. */
  function ReciboCierre(estado: Option<int>): seq<string> {
    [ "",
      Center("Estado: " + EstadoLabel(estado), ANCHO),
      "",
      GraciasCompra(),
      "\n\n" ]
  }

  function ReciboFooter(p: Payload): seq<string> {
    ReciboTotales(p.pedido.total.GetOr(0), p.pedido.costoEnvio.GetOr(0), ReciboTotal(p))
    + ReciboCierre(p.pedido.estadoDelivery)
  }

  function ReciboLines(p: Payload): seq<string> {
    ReciboHeader(p) + ReciboItems(p.items) + ReciboFooter(p)
  }

  lemma ReciboItemsSnoc(items: seq<Item>, i: nat)
    requires i < |items|
    ensures ReciboItems(items[..i + 1]) == ReciboItems(items[..i]) + ReciboBlock(items[i])
  {
    FlatMapSnoc(ReciboBlock, items, i);
  }

  /** A receipt item takes three lines plus one per attribute; its first line is the name cut to 30 characters. */
  lemma ReciboBlockFacts(it: Item)
    ensures |ReciboBlock(it)| == 3 + |it.atributos|
    ensures ReciboBlock(it)[0] == Take(it.nombre.GetOr(""), 30) && |ReciboBlock(it)[0]| <= 30
  {
  }

  /** The receipt header is thirteen fixed lines plus at most three customer lines. */
  lemma ReciboHeaderLength(p: Payload)
    ensures |ReciboHeader(p)| == 13 + |ReciboCliente(p.cliente)| && |ReciboCliente(p.cliente)| <= 3
  {
  }

  /** The sixth footer line is the TOTAL line. */
  lemma ReciboFooterTotal(p: Payload)
    ensures ReciboFooter(p)[5] == "TOTAL:                 " + RJust(FormatPrecio(Some(ReciboTotal(p))), 10)
  {
    var t := ReciboTotales(p.pedido.total.GetOr(0), p.pedido.costoEnvio.GetOr(0), ReciboTotal(p));
    assert t[5] == "TOTAL:                 " + RJust(FormatPrecio(Some(ReciboTotal(p))), 10);
  }

  /**
   * The receipt's TOTAL line, five lines into the footer, shows
   * `total_con_envio` when the payload has it and `total` + `costo_envio`
   * otherwise.
   */
  lemma ReciboTotalLine(p: Payload)
    ensures ReciboLines(p)[|ReciboHeader(p)| + |ReciboItems(p.items)| + 5]
      == "TOTAL:                 " + RJust(FormatPrecio(Some(
           if p.totalConEnvio.Some? then p.totalConEnvio.value
           else p.pedido.total.GetOr(0) + p.pedido.costoEnvio.GetOr(0))), 10)
  {
    IndexThird(ReciboHeader(p), ReciboItems(p.items), ReciboFooter(p), 5);
    ReciboFooterTotal(p);
  }

  // ----- build_comanda, build_agregados, build_eliminados -----

  /** `item.get('cantidad') or item.get('CANTIDAD', 1)`: a missing or zero quantity falls back. */
  function CantidadComanda(it: Item): int {
    if it.cantidad.Some? && it.cantidad.value != 0 then it.cantidad.value else it.cantidadMayus.GetOr(1)
  }

  /** `item.get('nombre') or item.get('NOMBRE', '')` */
  function NombreComanda(it: Item): string {
    if Truthy(it.nombre) then it.nombre.value else it.nombreMayus.GetOr("")
  }

  /** `f"{cantidad}x {NOMBRE}"` with the upper-cased name cut to 35 characters. */
  function ComandaLine(it: Item): string {
    IntToString(CantidadComanda(it)) + "x " + Take(Upper(NombreComanda(it)), 35)
  }

  function ComandaItems(items: seq<Item>): seq<string> {
    Map(ComandaLine, items)
  }

  lemma ComandaItemsSnoc(items: seq<Item>, i: nat)
    requires i < |items|
    ensures ComandaItems(items[..i + 1]) == ComandaItems(items[..i]) + [ComandaLine(items[i])]
  {
    MapSnoc(ComandaLine, items, i);
  }

  /** The optional client line of the kitchen ticket: the name cut to 20 when one is given. */
  function ComandaCliente(c: Option<ClienteP>): seq<string> {
    if c.Some? && Truthy(c.value.razonSocial) then ["CLIENTE: " + Take(c.value.razonSocial.value, 20)] else []
  }

  /** Blank, "=== TIPO ===" centred (tipo defaults to MOSTRADOR), "#  id  HH:MM", the client line, blank. */
  function ComandaHeader(p: Payload): seq<string> {
    [ "",
      Center("=== " + p.tipo.GetOr("MOSTRADOR") + " ===", ANCHO),
      "#" + RJust(IdText(p.pedido.id), 4) + "  " + Hora(p.pedido.fechaHora) ]
    + ComandaCliente(p.cliente)
    + [""]
  }

  function ComandaLines(p: Payload): seq<string> {
    ComandaHeader(p) + ComandaItems(p.items) + [""]
  }

  /**
   * Kitchen ticket facts: one line per item after a 4- or 5-line header,
   * each item line starts with the quantity and "x ", and the name part is
   * the upper-cased name cut to 35 characters.
   */
  lemma ComandaFacts(p: Payload, k: nat)
    requires k < |p.items|
    ensures |ComandaHeader(p)| == if p.cliente.Some? && Truthy(p.cliente.value.razonSocial) then 5 else 4
    ensures |ComandaLines(p)| == |ComandaHeader(p)| + |p.items| + 1
    ensures ComandaLines(p)[|ComandaHeader(p)| + k] == ComandaLine(p.items[k])
    ensures var pre := IntToString(CantidadComanda(p.items[k])) + "x ";
      && ComandaLine(p.items[k])[..|pre|] == pre
      && |ComandaLine(p.items[k])| - |pre| == Min(|NombreComanda(p.items[k])|, 35)
  {
    var pre := IntToString(CantidadComanda(p.items[k])) + "x ";
    assert ComandaLine(p.items[k]) == pre + Take(Upper(NombreComanda(p.items[k])), 35);
  }

  function Min(a: int, b: int): int { if a < b then a else b }

  /**
   * The relay and the server print the same kitchen line for an item
   * exactly when its name has at most 35 characters: the relay cuts, the
   * server does not.
   */
  lemma RelayCutsKitchenNames(cantidad: int, nombre: string)
    requires cantidad != 0 && nombre != ""
    ensures (ComandaLine(Item(Some(nombre), None, Some(cantidad), None, None, None, []))
             == Printer.ComandaLine(Printer.ComandaItem(cantidad, nombre))) <==> |nombre| <= 35
  {
    var relay := ComandaLine(Item(Some(nombre), None, Some(cantidad), None, None, None, []));
    var server := Printer.ComandaLine(Printer.ComandaItem(cantidad, nombre));
    if |nombre| > 35 {
      assert |relay| < |server|;
    }
  }

  const AGREGADOS: string := "AGREGADOS"
  const ELIMINADOS: string := "ELIMINADOS"

  /** The AGREGADOS / ELIMINADOS tickets: blank, centred marker, "Pedido #id", blank, the items, blank. */
  function DeltaLines(p: Payload, marca: string): seq<string> {
    ["", Center("=== " + marca + " ===", ANCHO), "Pedido #" + IdText(p.pedidoId), ""]
    + ComandaItems(p.productos)
    + [""]
  }

  /** Delta tickets have exactly five frame lines around one line per product. */
  lemma DeltaFacts(p: Payload, marca: string, k: nat)
    requires k < |p.productos|
    ensures |DeltaLines(p, marca)| == |p.productos| + 5
    ensures DeltaLines(p, marca)[..4] == ["", Center("=== " + marca + " ===", ANCHO), "Pedido #" + IdText(p.pedidoId), ""]
    ensures DeltaLines(p, marca)[4 + k] == ComandaLine(p.productos[k])
    ensures DeltaLines(p, marca)[|p.productos| + 4] == ""
  {
    var h := ["", Center("=== " + marca + " ===", ANCHO), "Pedido #" + IdText(p.pedidoId), ""];
    var b := ComandaItems(p.productos);
    assert |b| == |p.productos| && b[k] == ComandaLine(p.productos[k]);
    IndexMiddle(h, b, [""], k);
    IndexThird(h, b, [""], 0);
    assert DeltaLines(p, marca) == h + b + [""];
  }

  // ----- build_delivery -----

  /** The date of the voucher: `%d/%m/%Y` when it parses, the raw text when not, "" without one. */
  function FechaVoucher(f: Option<Fecha>): string {
    if f.None? || f.value.raw == "" then ""
    else if f.value.parsed.Some? then f.value.parsed.value.dmy
    else f.value.raw
  }

  /** The address: on one line up to 35 characters, otherwise characters 0..35 and 35..70 on two. */
  function DireccionLines(d: string): seq<string> {
    if |d| > 35 then ["Dirección: " + d[..35], "           " + Slice(d, 35, 70)]
    else ["Dirección: " + d]
  }

  /** The two address lines together show the first 70 characters, nothing more and nothing cut before. */
  lemma DireccionSplit(d: string)
    ensures |d| <= 35 ==> DireccionLines(d) == ["Dirección: " + d]
    ensures |d| > 35 ==> (|DireccionLines(d)| == 2
      && DireccionLines(d)[0][11..] + DireccionLines(d)[1][11..] == d[..Min(|d|, 70)]
      && |DireccionLines(d)[1][11..]| <= 35)
  {
    if |d| > 35 {
      var a, b := DireccionLines(d)[0], DireccionLines(d)[1];
      assert a[11..] == d[..35];
      assert b[11..] == Slice(d, 35, 70);
      assert Slice(d, 35, 70) == d[35..Min(|d|, 70)];
    }
  }

  function DeliveryCliente(c: Option<ClienteP>): seq<string> {
    match c
    case None => ["Cliente no registrado"]
    case Some(cl) =>
      [ "Nombre: " + Take(cl.razonSocial.GetOr("Sin nombre"), 35),
        "Teléfono: " + cl.telefono.GetOr("Sin teléfono") ]
      + DireccionLines(cl.direccion.GetOr("Sin dirección"))
  }

  function DeliveryHeader(p: Payload): seq<string> {
    [ "",
      Marca(),
      Separador(),
      TituloComprobante(),
      "",
      "Pedido #:     " + IdText(p.pedido.id),
      "Fecha:        " + FechaVoucher(p.pedido.fechaHora),
      "Hora:         " + Hora(p.pedido.fechaHora),
      "",
      Iguales(),
      "CLIENTE",
      Iguales() ]
    + DeliveryCliente(p.cliente)
    + [ "", Iguales(), "DETALLE DE PRODUCTOS", Iguales() ]
  }

  /** A product: "{cantidad}x {name[:28]}", and a price line only when the item carries `precio_venta`. */
  function DeliveryBlock(it: Item): seq<string> {
    var cantidad := it.cantidad.GetOr(1);
    [IntToString(cantidad) + "x " + Take(it.nombre.GetOr(""), 28)]
    + (if it.precioVenta.Some? then
         ["   " + FormatPrecio(Some(it.precioVenta.value)) + " c/u = " + FormatPrecio(Some(cantidad * it.precioVenta.value))]
       else [])
  }

  function DeliveryItems(items: seq<Item>): seq<string> {
    FlatMap(DeliveryBlock, items)
  }

  /** What a product adds to the voucher's computed subtotal: cantidad·precio_venta, or 0 without a price. */
  function Importe(it: Item): int {
    if it.precioVenta.Some? then it.cantidad.GetOr(1) * it.precioVenta.value else 0
  }

  /** Σ cantidad·precio_venta over the products that carry a price (quantity default 1). */
  function PricedSum(items: seq<Item>): int
    decreases |items|
  {
    if items == [] then 0
    else PricedSum(items[..|items| - 1]) + Importe(items[|items| - 1])
  }

  /** The voucher's subtotal: the order's `total` when truthy, otherwise the priced sum of the products. */
  function DeliverySubtotal(p: Payload, calculado: int): int {
    if p.pedido.total.Some? && p.pedido.total.value != 0 then p.pedido.total.value else calculado
  }

  /** An amount line of the voucher: the label left-aligned in 28 columns, a blank, the price right-aligned in 11. */
  function Monto(etiqueta: string, n: int): (r: string)
    ensures |r| == Max(28, |etiqueta|) + 1 + Max(11, |FormatPrecio(Some(n))|)
  {
    LJust(etiqueta, 28) + " " + RJust(FormatPrecio(Some(n)), 11)
  }

  /** The amounts block of the voucher: subtotal, shipping and TOTAL. */
  function DeliveryTotales(subtotal: int, envio: int): (ls: seq<string>)
    ensures |ls| == 6
  {
    [ "",
      Iguales(),
      Monto("Subtotal:", subtotal),
      Monto("Envío:", envio),
      Iguales(),
      Monto("TOTAL:", subtotal + envio) ]
  }

  function DeliveryCierre(): seq<string> {
    [ "", GraciasPreferencia(), "", "" ]
  }

  function DeliveryFooter(p: Payload, calculado: int): seq<string> {
    DeliveryTotales(DeliverySubtotal(p, calculado), p.pedido.costoEnvio.GetOr(0)) + DeliveryCierre()
  }

  function DeliveryLines(p: Payload): seq<string> {
    DeliveryHeader(p) + DeliveryItems(p.productos) + DeliveryFooter(p, PricedSum(p.productos))
  }

  lemma PricedSumSnoc(items: seq<Item>, i: nat)
    requires i < |items|
    ensures PricedSum(items[..i + 1]) == PricedSum(items[..i]) + Importe(items[i])
  {
    assert items[..i + 1][..i] == items[..i];
  }

  lemma DeliveryItemsSnoc(items: seq<Item>, i: nat)
    requires i < |items|
    ensures DeliveryItems(items[..i + 1]) == DeliveryItems(items[..i]) + DeliveryBlock(items[i])
  {
    FlatMapSnoc(DeliveryBlock, items, i);
  }

  lemma DeliveryTotalesLines(subtotal: int, envio: int)
    ensures DeliveryTotales(subtotal, envio)[2] == Monto("Subtotal:", subtotal)
    ensures DeliveryTotales(subtotal, envio)[5] == Monto("TOTAL:", subtotal + envio)
  {
  }

  /** The footer's subtotal and TOTAL lines, for the subtotal the voucher settles on. */
  lemma DeliveryFooterTotals(p: Payload, calculado: int)
    ensures |DeliveryFooter(p, calculado)| == 10
    ensures DeliveryFooter(p, calculado)[2]
      == Monto("Subtotal:", DeliverySubtotal(p, calculado))
    ensures DeliveryFooter(p, calculado)[5]
      == Monto("TOTAL:", DeliverySubtotal(p, calculado) + p.pedido.costoEnvio.GetOr(0))
  {
    DeliveryTotalesLines(DeliverySubtotal(p, calculado), p.pedido.costoEnvio.GetOr(0));
  }

  /**
   * The voucher's subtotal line shows the subtotal it settles on: the
   * order's `total` when truthy, the priced sum of the products otherwise.
   */
  lemma DeliverySubtotalLine(p: Payload)
    ensures var n := |DeliveryHeader(p)| + |DeliveryItems(p.productos)|;
      DeliveryLines(p)[n + 2]
        == Monto("Subtotal:", DeliverySubtotal(p, PricedSum(p.productos)))
  {
    var calculado := PricedSum(p.productos);
    DeliveryFooterTotals(p, calculado);
    IndexThird(DeliveryHeader(p), DeliveryItems(p.productos), DeliveryFooter(p, calculado), 2);
  }

  /** The voucher's TOTAL line is that subtotal plus `costo_envio` (absent: 0). */
  lemma DeliveryTotalLine(p: Payload)
    ensures var n := |DeliveryHeader(p)| + |DeliveryItems(p.productos)|;
      DeliveryLines(p)[n + 5]
        == Monto("TOTAL:", DeliverySubtotal(p, PricedSum(p.productos)) + p.pedido.costoEnvio.GetOr(0))
  {
    var h, b, f := DeliveryHeader(p), DeliveryItems(p.productos), DeliveryFooter(p, PricedSum(p.productos));
    DeliveryFooterTotals(p, PricedSum(p.productos));
    IndexThird(h, b, f, 5);
    assert DeliveryLines(p) == h + b + f;
  }
}
