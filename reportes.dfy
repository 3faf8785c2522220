/**
 * The two pure helpers of the sales report (`routes/reportes.py`): the
 * activity classification of a sale and the date range a range selector
 * stands for. Calendar dates are day numbers (Python's `date.toordinal()`,
 * day 1 being Monday 1 January of year 1) and a time of day is a count of
 * microseconds.
 */
module Reportes {
  import opened Wrappers
  import opened VentaModel
  import Cart
  import Delivery
  import Mostrador
  import Orders

  // ----- `_es_venta_activa` -----

  /** The four labels a sale can get. */
  const ETIQUETAS: set<string> := {"Activa", "Anulada", "Cerrada", "Desconocido"}

  /**
   * `_es_venta_activa`: a zero total is "Anulada" whatever the channel; a
   * delivery sale is active while `estado_delivery` is set and below 3
   * (delivered); a counter sale while `estado_mostrador` is absent or below
   * 2 (ready); a sale of any other channel is "Desconocido". The flag is
   * true exactly for the label "Activa".
   */
  function EsVentaActiva(v: Venta): (r: (bool, string))
    ensures r.0 <==> r.1 == "Activa"
    ensures r.1 in ETIQUETAS
    ensures r.1 == "Anulada" <==> v.total == 0
    ensures r.1 == "Desconocido" <==> v.total != 0 && v.tipoventaId != Some(TIPO_DELIVERY) && v.tipoventaId != Some(TIPO_MOSTRADOR)
  {
    if v.total == 0 then (false, "Anulada")
    else if v.tipoventaId == Some(TIPO_DELIVERY) then
      if v.estadoDelivery != 0 && v.estadoDelivery < 3 then (true, "Activa") else (false, "Cerrada")
    else if v.tipoventaId == Some(TIPO_MOSTRADOR) then
      if v.estadoMostrador.None? || v.estadoMostrador.value < 2 then (true, "Activa") else (false, "Cerrada")
    else (false, "Desconocido")
  }

  /** A delivery sale with a non-zero total is active exactly while it is in preparation or sent. */
  lemma DeliveryActiva(v: Venta)
    requires v.total != 0 && v.tipoventaId == Some(TIPO_DELIVERY) && EstadosValidos(v)
    ensures EsVentaActiva(v).0 <==> v.estadoDelivery == DELIVERY_PREPARACION || v.estadoDelivery == DELIVERY_ENVIADO
  {
  }

  /** A counter sale with a non-zero total is active exactly while it is not ready. */
  lemma MostradorActiva(v: Venta)
    requires v.total != 0 && v.tipoventaId == Some(TIPO_MOSTRADOR) && EstadosValidos(v)
    ensures EsVentaActiva(v).0 <==> v.estadoMostrador != Some(MOSTRADOR_LISTO)
  {
  }

  /** Payment plays no part: recording a receipt type and number leaves the classification as it was. */
  lemma ActividadSinPago(v: Venta, comprobante: Option<int>, numero: Option<string>)
    ensures EsVentaActiva(v.(comprobanteId := comprobante, numeroComprobante := numero)) == EsVentaActiva(v)
  {
  }

  /** A delivery order just saved from a cart with a non-zero subtotal is reported active. */
  lemma NuevaDeliveryActiva(id: int, now: Stamp, c: Cart.Cart, clienteId: Option<int>, pedido: Orders.PedidoData, envio: int)
    requires Cart.Subtotal(c) != 0
    ensures EsVentaActiva(Delivery.NuevaVenta(id, now, c, clienteId, pedido, envio)) == (true, "Activa")
  {
    Delivery.NuevaVentaSpec(id, now, c, clienteId, pedido, envio);
  }

  /** A counter order just saved from a cart with a non-zero subtotal is reported active. */
  lemma NuevaMostradorActiva(id: int, now: Stamp, c: Cart.Cart, cliente: Option<string>)
    requires Cart.Subtotal(c) != 0
    ensures EsVentaActiva(Mostrador.NuevaVentaMostrador(id, now, c, cliente)) == (true, "Activa")
  {
    Mostrador.NuevaVentaMostradorSpec(id, now, c, cliente);
  }

  // ----- `_resolver_rango` -----

  /** `datetime.max.time()` in microseconds: 23:59:59.999999. */
  const FIN_DEL_DIA: int := 86_399_999_999

  /** A `datetime`: a day number and the microseconds since midnight. */
  datatype Instante = Instante(dia: int, micros: int)

  /** `datetime.combine(d, datetime.min.time())` */
  function Inicio(dia: int): Instante { Instante(dia, 0) }

  /** `datetime.combine(d, datetime.max.time())` */
  function Fin(dia: int): Instante { Instante(dia, FIN_DEL_DIA) }

  /** Chronological order of instants. */
  predicate NoDespues(a: Instante, b: Instante) {
    a.dia < b.dia || (a.dia == b.dia && a.micros <= b.micros)
  }

  /** `date.weekday()` for a day number: 0 for Monday up to 6 for Sunday. */
  function DiaSemana(dia: int): (w: int)
    ensures 0 <= w < 7
  {
    (dia + 6) % 7
  }

  /**
   * The clock and the form, as `_resolver_rango` reads them: today's day
   * number (`date.today()`), the day number of `datetime.now()`, today's
   * day of the month, the selector and the two optional form dates.
   */
  datatype Consulta = Consulta(
    hoy: int,
    ahora: int,
    diaDelMes: int,
    rango: string,
    desde: Option<int>,
    hasta: Option<int>)

  /**
   * `_resolver_rango`: "hoy" is today from its first to its last
   * microsecond; "semana" runs from the Monday of this week and "mes" from
   * the first of this month, both up to the end of the current day;
   * "personalizado" bounds only the sides whose date was given; anything
   * else ("historico" included) leaves both sides open.
   */
  function ResolverRango(q: Consulta): (r: (Option<Instante>, Option<Instante>))
    ensures q.rango !in {"hoy", "semana", "mes", "personalizado"} ==> r == (None, None)
    ensures q.rango in {"hoy", "semana", "mes"} ==> r.0.Some? && r.1.Some? && r.0.value.micros == 0 && r.1.value.micros == FIN_DEL_DIA
    ensures q.rango == "personalizado" ==> (r.0.Some? <==> q.desde.Some?) && (r.1.Some? <==> q.hasta.Some?)
  {
    if q.rango == "hoy" then
      (Some(Inicio(q.hoy)), Some(Fin(q.hoy)))
    else if q.rango == "semana" then
      (Some(Inicio(q.hoy - DiaSemana(q.hoy))), Some(Fin(q.ahora)))
    else if q.rango == "mes" then
      (Some(Inicio(q.hoy - (q.diaDelMes - 1))), Some(Fin(q.ahora)))
    else if q.rango == "personalizado" then
      (if q.desde.Some? then Some(Inicio(q.desde.value)) else None,
       if q.hasta.Some? then Some(Fin(q.hasta.value)) else None)
    else (None, None)
  }

  /**
   * When the clock does not run backwards between its two readings, the
   * three preset ranges start no later than they end and include today.
   */
  lemma RangoOrdenado(q: Consulta)
    requires q.rango in {"hoy", "semana", "mes"}
    requires q.hoy <= q.ahora && 1 <= q.diaDelMes
    ensures var r := ResolverRango(q);
      && NoDespues(r.0.value, r.1.value)
      && NoDespues(r.0.value, Inicio(q.hoy)) && NoDespues(Fin(q.hoy), r.1.value)
  {
  }

  /** "semana" starts on the Monday of the current week, at most six days back. */
  lemma SemanaEmpiezaLunes(q: Consulta)
    requires q.rango == "semana"
    ensures var inicio := ResolverRango(q).0.value;
      && DiaSemana(inicio.dia) == 0
      && q.hoy - 6 <= inicio.dia <= q.hoy
  {
    var w := DiaSemana(q.hoy);
    var d := q.hoy - w;
    assert (d + 6) % 7 == 0 by {
      assert q.hoy + 6 == 7 * ((q.hoy + 6) / 7) + w;
      assert d + 6 == 7 * ((q.hoy + 6) / 7);
    }
  }

  /** "mes" starts as many days back as today's day of the month minus one. */
  lemma MesEmpiezaDiaUno(q: Consulta)
    requires q.rango == "mes" && 1 <= q.diaDelMes <= 31
    ensures var inicio := ResolverRango(q).0.value;
      && q.hoy - inicio.dia == q.diaDelMes - 1
      && q.hoy - 30 <= inicio.dia <= q.hoy
  {
  }
}
