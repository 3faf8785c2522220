/**
 * The computations of the prototype screens (`routes/pruebas.py`): the
 * "time ago" filter, the totals of the order saved from the JSON form and
 * of the editable detail view. Elapsed time is given in whole seconds and
 * the date rendering is the `dmy` form of the order's stamp.
 */
module Pruebas {
  import opened Wrappers
  import opened Text
  import opened VentaModel
  import Orders

  // ----- `timeago_filter` -----

  /** The bucket the elapsed time falls in, with the numbers it shows. */
  datatype Hace =
    | SinFecha
    | Segundos(s: int)
    | Minutos(m: int)
    | HorasMinutos(h: int, m: int)
    | DiasHoras(d: int, h: int)
    | FechaCompleta(dmy: string)

  /**
   * The bucketing of `timeago_filter`: no date; under a minute (negative
   * differences included) the seconds; under an hour the whole minutes;
   * under a day the whole hours and the minutes past them; under a week
   * the whole days and the hours past them; otherwise the date itself.
   * Each number shown is exact: the elapsed time lies within the unit it
   * names.
   */
  function Tramo(fecha: Option<Stamp>, segundos: int): (t: Hace)
    ensures t.SinFecha? <==> fecha.None?
    ensures t.Segundos? ==> t.s == segundos < 60
    ensures t.Minutos? ==> 1 <= t.m < 60 && 60 * t.m <= segundos < 60 * (t.m + 1)
    ensures t.HorasMinutos? ==>
      1 <= t.h < 24 && 0 <= t.m < 60 && 3600 * t.h + 60 * t.m <= segundos < 3600 * t.h + 60 * (t.m + 1)
    ensures t.DiasHoras? ==>
      1 <= t.d < 7 && 0 <= t.h < 24 && 86400 * t.d + 3600 * t.h <= segundos < 86400 * t.d + 3600 * (t.h + 1)
    ensures t.FechaCompleta? ==> segundos >= 604800 && t.dmy == fecha.value.dmy
  {
    if fecha.None? then SinFecha
    else if segundos < 60 then Segundos(segundos)
    else if segundos < 3600 then Minutos(segundos / 60)
    else if segundos < 86400 then HorasMinutos(segundos / 3600, (segundos % 3600) / 60)
    else if segundos < 604800 then DiasHoras(segundos / 86400, (segundos % 86400) / 3600)
    else FechaCompleta(fecha.value.dmy)
  }

  /** How each bucket is written. */
  function Texto(t: Hace): string {
    match t
    case SinFecha => "Sin fecha"
    case Segundos(s) => IntToString(s) + " seg"
    case Minutos(m) => IntToString(m) + " min"
    case HorasMinutos(h, m) => IntToString(h) + "h " + IntToString(m) + "min"
    case DiasHoras(d, h) => IntToString(d) + "d " + IntToString(h) + "h"
    case FechaCompleta(dmy) => dmy
  }

  /** `timeago_filter` */
  function TimeAgo(fecha: Option<Stamp>, segundos: int): string {
    Texto(Tramo(fecha, segundos))
  }

  /** The position of a bucket in time order. */
  function Rango(t: Hace): nat {
    match t
    case SinFecha => 0
    case Segundos(_) => 1
    case Minutos(_) => 2
    case HorasMinutos(_, _) => 3
    case DiasHoras(_, _) => 4
    case FechaCompleta(_) => 5
  }

  /** The buckets follow each other in time: a later moment never falls in an earlier bucket. */
  lemma TramoMonotono(fecha: Stamp, a: int, b: int)
    requires a <= b
    ensures Rango(Tramo(Some(fecha), a)) <= Rango(Tramo(Some(fecha), b))
  {
  }

  /** Under a minute, the text is the number of seconds, a minus sign included for a date in the future. */
  lemma SegundosNegativos(fecha: Stamp, segundos: int)
    requires segundos < 0
    ensures TimeAgo(Some(fecha), segundos) == "-" + NatToString(-segundos) + " seg"
  {
  }

  // ----- `guardar_pedido` -----

  /** One entry of the submitted `productos` list. */
  datatype Enviado = Enviado(id: int, precio: int, cantidad: int)

  /** `sum(precio * cantidad for p in productos)` */
  function TotalEnviado(ps: seq<Enviado>): int
    decreases |ps|
  {
    if ps == [] then 0 else TotalEnviado(ps[..|ps| - 1]) + ps[|ps| - 1].precio * ps[|ps| - 1].cantidad
  }

  /**
   * The order `guardar_pedido` stores: stamped number, the submitted total,
   * the session's client and channel 2, the other columns at their
   * defaults.
   */
  function VentaPrueba(id: int, now: Stamp, ps: seq<Enviado>, clienteId: Option<int>): (v: Venta)
    ensures v.total == TotalEnviado(ps) && v.tipoventaId == Some(TIPO_DELIVERY)
    ensures v.estadoDelivery == DELIVERY_PREPARACION && !Pagado(v) && v.clienteId == clienteId
  {
    NewVenta(id, now, "V-" + now.compact, TotalEnviado(ps)).(clienteId := clienteId, tipoventaId := Some(TIPO_DELIVERY))
  }

  /**
   * The line loop of `guardar_pedido`: one line per submitted entry, in
   * order and without merging repeated products, at the submitted price
   * and quantity and with no discount. The order's total is the sum over
   * these lines.
   */
  method LineasPrueba(ps: seq<Enviado>, ventaId: int, primerId: int) returns (lineas: seq<ProductoVenta>)
    ensures |lineas| == |ps|
    ensures forall i :: 0 <= i < |ps| ==>
      lineas[i] == ProductoVenta(primerId + i, ventaId, ps[i].id, ps[i].cantidad, ps[i].precio, 0, None)
    ensures Orders.OrderTotal(lineas, ventaId) == TotalEnviado(ps)
  {
    lineas := [];
    var i := 0;
    while i < |ps|
      invariant 0 <= i <= |ps|
      invariant |lineas| == i
      invariant forall k :: 0 <= k < i ==>
        lineas[k] == ProductoVenta(primerId + k, ventaId, ps[k].id, ps[k].cantidad, ps[k].precio, 0, None)
      invariant Orders.OrderTotal(lineas, ventaId) == TotalEnviado(ps[..i])
    {
      var linea := ProductoVenta(primerId + i, ventaId, ps[i].id, ps[i].cantidad, ps[i].precio, 0, None);
      assert ps[..i + 1][..i] == ps[..i];
      assert (lineas + [linea])[..i] == lineas;
      lineas := lineas + [linea];
      i := i + 1;
    }
    assert ps[..i] == ps;
  }

  // ----- `detalle_pedido` -----

  /** The fixed shipping charge of the detail view. */
  const ENVIO_FIJO: int := 1000

  /** Σ precio_venta·cantidad over the order's lines, as the view adds them. */
  function SubtotalDetalle(items: seq<ProductoVenta>): int
    decreases |items|
  {
    if items == [] then 0 else SubtotalDetalle(items[..|items| - 1]) + items[|items| - 1].precioVenta * items[|items| - 1].cantidad
  }

  /** The detail view's (subtotal, total): the line sum and that sum plus the fixed shipping charge. */
  function TotalesDetalle(items: seq<ProductoVenta>): (r: (int, int))
    ensures r.1 - r.0 == ENVIO_FIJO
  {
    (SubtotalDetalle(items), SubtotalDetalle(items) + ENVIO_FIJO)
  }

  /** Over lines that all belong to one order, the view's sum is that order's line total. */
  lemma {:induction false} SubtotalDetalleEsTotal(items: seq<ProductoVenta>, vid: int)
    requires forall l :: l in items ==> l.ventaId == vid
    ensures SubtotalDetalle(items) == Orders.OrderTotal(items, vid)
    decreases |items|
  {
    if items != [] {
      var n := |items| - 1;
      assert forall l :: l in items[..n] ==> l in items;
      SubtotalDetalleEsTotal(items[..n], vid);
      assert items[n] in items;
    }
  }

  /**
   * For an order whose stored total is kept as the sum over its lines, the
   * view's subtotal is that stored total and its total exceeds it by the
   * fixed charge, whatever the order's own shipping cost.
   */
  lemma DetalleCuadra(ventas: map<int, Venta>, rows: seq<ProductoVenta>, vid: int)
    requires Orders.TotalsOk(ventas, rows) && vid in ventas
    ensures TotalesDetalle(Orders.LinesOf(rows, vid)) == (ventas[vid].total, ventas[vid].total + ENVIO_FIJO)
  {
    Orders.LinesOfTotal(rows, vid);
    SubtotalDetalleEsTotal(Orders.LinesOf(rows, vid), vid);
  }
}
