/**
 * The `ventas` (order) and `producto_venta` (order line) records with their
 * column domains and defaults, `ProductoVenta.to_dict` and
 * `ProductoVenta.calcular_precio_extras`. Money is in whole pesos.
 */
module VentaModel {
  import opened Wrappers

  /** `tipoventa_id` values: the two sales channels. */
  const TIPO_MOSTRADOR: int := 1
  const TIPO_DELIVERY: int := 2

  /** `estado_delivery`: 1 en preparación, 2 enviado, 3 entregado (0: not a delivery order). */
  const DELIVERY_PREPARACION: int := 1
  const DELIVERY_ENVIADO: int := 2
  const DELIVERY_ENTREGADO: int := 3

  /** `estado_mostrador`: 1 en preparación, 2 listo. */
  const MOSTRADOR_PREPARACION: int := 1
  const MOSTRADOR_LISTO: int := 2

  /**
   * The `strftime` renderings of a `fecha_hora` value that the code uses;
   * the model takes them as given strings.
   */
  datatype Stamp = Stamp(
    compact: string,  // '%Y%m%d%H%M%S'
    dmy: string,      // '%d/%m/%Y'
    dmyHm: string,    // '%d/%m/%Y %H:%M'
    dmHm: string,     // '%d/%m %H:%M'
    hm: string)       // '%H:%M'

  /** A row of `ventas`. */
  datatype Venta = Venta(
    id: int,
    fechaHora: Stamp,
    numeroComprobante: Option<string>,
    total: int,
    estado: int,
    clienteId: Option<int>,
    comprobanteId: Option<int>,
    tipoventaId: Option<int>,
    estadoDelivery: int,
    estadoMostrador: Option<int>,
    costoEnvio: Option<int>,
    repartidorId: Option<int>,
    comentarios: Option<string>,
    tiempoEstimado: Option<string>)

  /**
   * A new `ventas` row with the column defaults: `estado` 1, `estado_delivery`
   * 1 (non-null), `estado_mostrador` 1 (nullable), `costo_envio` 0, and no
   * client, receipt type, channel, courier or comments.
   */
  function NewVenta(id: int, fecha: Stamp, numero: string, total: int): (v: Venta)
    ensures v.id == id && v.total == total && v.numeroComprobante == Some(numero)
    ensures v.estado == 1 && v.estadoDelivery == DELIVERY_PREPARACION
    ensures v.estadoMostrador == Some(MOSTRADOR_PREPARACION) && v.costoEnvio == Some(0)
    ensures v.comprobanteId.None? && v.clienteId.None? && v.tipoventaId.None?
  {
    Venta(id, fecha, Some(numero), total, 1, None, None, None,
          DELIVERY_PREPARACION, Some(MOSTRADOR_PREPARACION), Some(0), None, None, None)
  }

  /** The routes' "paid" test: a receipt type (`comprobante_id`) is recorded. */
  predicate Pagado(v: Venta) {
    v.comprobanteId.Some?
  }

  /**
   * The values the handlers of this model ever store: `estado_delivery` in
   * 0..3 and `estado_mostrador` absent or 1..2.
   */
  predicate EstadosValidos(v: Venta) {
    && 0 <= v.estadoDelivery <= DELIVERY_ENTREGADO
    && (v.estadoMostrador.None? || MOSTRADOR_PREPARACION <= v.estadoMostrador.value <= MOSTRADOR_LISTO)
  }

  /** One selected extra as stored in `atributos_seleccionados`: `{"id", "valor", "precio_adicional"}`. */
  datatype Extra = Extra(id: Option<int>, valor: Option<string>, precioAdicional: Option<int>)

  /** A row of `producto_venta`. */
  datatype ProductoVenta = ProductoVenta(
    id: int,
    ventaId: int,
    productoId: int,
    cantidad: int,
    precioVenta: int,
    descuento: int,
    atributosSeleccionados: Option<seq<Extra>>)

  /** `ProductoVenta.to_dict()`: the same fields as a plain record. */
  datatype ProductoVentaDict = ProductoVentaDict(
    id: int,
    ventaId: int,
    productoId: int,
    cantidad: int,
    precioVenta: int,
    descuento: int,
    atributosSeleccionados: Option<seq<Extra>>)

  function ToDict(pv: ProductoVenta): (d: ProductoVentaDict)
    ensures d.id == pv.id && d.ventaId == pv.ventaId && d.productoId == pv.productoId
    ensures d.cantidad == pv.cantidad && d.atributosSeleccionados == pv.atributosSeleccionados
    ensures d.precioVenta == pv.precioVenta && d.descuento == pv.descuento
    ensures FromDict(d) == pv
  {
    ProductoVentaDict(pv.id, pv.ventaId, pv.productoId, pv.cantidad,
                      pv.precioVenta, pv.descuento, pv.atributosSeleccionados)
  }

  /** Rebuilds a line from its dictionary form. */
  function FromDict(d: ProductoVentaDict): ProductoVenta {
    ProductoVenta(d.id, d.ventaId, d.productoId, d.cantidad,
                  d.precioVenta, d.descuento, d.atributosSeleccionados)
  }

  /** The surcharge of one extra: `precio_adicional`, 0 when the key is missing. */
  function ExtraPrice(e: Extra): int {
    e.precioAdicional.GetOr(0)
  }

  /** Sum of the surcharges of a list of extras. */
  function SumExtras(es: seq<Extra>): int
    decreases |es|
  {
    if es == [] then 0 else SumExtras(es[..|es| - 1]) + ExtraPrice(es[|es| - 1])
  }

  /** Surcharges of two consecutive lists of extras add up. */
  lemma {:induction false} SumExtrasAppend(a: seq<Extra>, b: seq<Extra>)
    ensures SumExtras(a + b) == SumExtras(a) + SumExtras(b)
    decreases |b|
  {
    if b == [] {
      assert a + b == a;
    } else {
      SumExtrasAppend(a, b[..|b| - 1]);
      assert (a + b)[..|a + b| - 1] == a + b[..|b| - 1];
    }
  }

  /** With no negative surcharge the sum is not negative either. */
  lemma {:induction false} SumExtrasNonNegative(es: seq<Extra>)
    requires forall i :: 0 <= i < |es| ==> ExtraPrice(es[i]) >= 0
    ensures SumExtras(es) >= 0
    decreases |es|
  {
    if es != [] {
      SumExtrasNonNegative(es[..|es| - 1]);
    }
  }

  /**
   * `ProductoVenta.calcular_precio_extras`: 0 when `atributos_seleccionados`
   * is None or empty, otherwise the running sum of every entry's
   * `precio_adicional` (a missing key counting as 0).
   */
  method CalcularPrecioExtras(pv: ProductoVenta) returns (total: int)
    ensures pv.atributosSeleccionados.None? ==> total == 0
    ensures pv.atributosSeleccionados.Some? ==> total == SumExtras(pv.atributosSeleccionados.value)
  {
    if pv.atributosSeleccionados.None? || pv.atributosSeleccionados.value == [] {
      return 0;
    }
    var extras := pv.atributosSeleccionados.value;
    total := 0;
    var i := 0;
    while i < |extras|
      invariant 0 <= i <= |extras|
      invariant total == SumExtras(extras[..i])
    {
      assert extras[..i + 1][..i] == extras[..i];
      total := total + ExtraPrice(extras[i]);
      i := i + 1;
    }
    assert extras[..i] == extras;
  }
}
