/**
 * The Windows print relay (`app/printer_host.py`): the builders that turn
 * a job's payload into ticket text, the choice of the device, the dispatch
 * of a job by type with its feed/cut defaults, and the HTTP status of
 * `/print/job`.
 *
 * The spooler is an input (`Env`): the enumerated printers, the default
 * printer (None when asking for it raises) and the outcome of writing.
 */
module PrinterHost {
  import opened Wrappers
  import opened Text
  import opened HostTickets

  // ----- the builders -----

  /** The inner loop of `build_recibo`: one "    - k: v" line per attribute, in order. */
  method AppendAtributos(lineas: seq<string>, atributos: seq<(string, string)>) returns (r: seq<string>)
    ensures r == lineas + AtributoLines(atributos)
  {
    r := lineas;
    var j := 0;
    while j < |atributos|
      invariant 0 <= j <= |atributos|
      invariant r == lineas + AtributoLines(atributos[..j])
    {
      assert AtributoLines(atributos[..j + 1]) == AtributoLines(atributos[..j]) + [AtributoLine(atributos[j])];
      r := r + [AtributoLine(atributos[j])];
      j := j + 1;
    }
    assert atributos[..j] == atributos;
  }

  /** The body of `build_recibo`'s item loop: the lines of one item, appended. */
  method AppendReciboItem(lineas: seq<string>, item: Item) returns (r: seq<string>)
    ensures r == lineas + ReciboBlock(item)
  {
    var cantidad := item.cantidad.GetOr(1);
    var precio := item.precioVenta.GetOr(0);
    var subtotal := item.subtotal.GetOr(cantidad * precio);
    var nombre := Take(item.nombre.GetOr(""), 30);
    var head := [nombre, "  x" + IntToString(cantidad) + " @ " + FormatPrecio(Some(precio)) + " = " + FormatPrecio(Some(subtotal))];
    assert head == ReciboItemHead(item);
    r := AppendAtributos(lineas + head, item.atributos);
    r := r + [""];
    var atributos := AtributoLines(item.atributos);
    AppendAssoc(lineas + head, atributos, [""]);
    AppendAssoc(lineas, head, atributos + [""]);
    AppendAssoc(head, atributos, [""]);
  }

  /** The `lineas` list that `build_recibo` builds: header, one block per item, footer. */
  method ReciboLineas(p: Payload) returns (lineas: seq<string>)
    ensures lineas == ReciboLines(p)
  {
    var header := ReciboHeader(p);
    lineas := header;
    var items := p.items;
    var i := 0;
    while i < |items|
      invariant 0 <= i <= |items|
      invariant lineas == header + ReciboItems(items[..i])
    {
      lineas := AppendReciboItem(lineas, items[i]);
      ReciboItemsSnoc(items, i);
      AppendAssoc(header, ReciboItems(items[..i]), ReciboBlock(items[i]));
      i := i + 1;
    }
    assert items[..i] == items;
    lineas := lineas + ReciboFooter(p);
  }

  /** `build_recibo`: the receipt lines joined with newlines. */
  method BuildRecibo(p: Payload) returns (contenido: string)
    ensures contenido == Join(ReciboLines(p), "\n")
  {
    var lineas := ReciboLineas(p);
    contenido := Join(lineas, "\n");
  }

  /** `build_comanda` */
  method BuildComanda(p: Payload) returns (contenido: string)
    ensures contenido == Join(ComandaLines(p), "\n")
  {
    var lineas := ComandaHeader(p);
    var items := p.items;
    var i := 0;
    while i < |items|
      invariant 0 <= i <= |items|
      invariant lineas == ComandaHeader(p) + ComandaItems(items[..i])
    {
      ComandaItemsSnoc(items, i);
      lineas := lineas + [ComandaLine(items[i])];
      i := i + 1;
    }
    assert items[..i] == items;
    lineas := lineas + [""];
    contenido := Join(lineas, "\n");
  }

  /** `build_agregados` and `build_eliminados`, which differ only in the marker. */
  method BuildDelta(p: Payload, marca: string) returns (contenido: string)
    ensures contenido == Join(DeltaLines(p, marca), "\n")
  {
    var lineas := ["", Center("=== " + marca + " ===", ANCHO), "Pedido #" + IdText(p.pedidoId), ""];
    var productos := p.productos;
    var i := 0;
    while i < |productos|
      invariant 0 <= i <= |productos|
      invariant lineas == ["", Center("=== " + marca + " ===", ANCHO), "Pedido #" + IdText(p.pedidoId), ""] + ComandaItems(productos[..i])
    {
      ComandaItemsSnoc(productos, i);
      lineas := lineas + [ComandaLine(productos[i])];
      i := i + 1;
    }
    assert productos[..i] == productos;
    lineas := lineas + [""];
    contenido := Join(lineas, "\n");
  }

  /** One product of `build_delivery`: its lines, and what it adds to the computed subtotal. */
  method DeliveryItem(item: Item) returns (block: seq<string>, importe: int)
    ensures block == DeliveryBlock(item)
    ensures importe == Importe(item)
  {
    var cantidad := item.cantidad.GetOr(1);
    block := [IntToString(cantidad) + "x " + Take(item.nombre.GetOr(""), 28)];
    importe := 0;
    if item.precioVenta.Some? {
      var precio := item.precioVenta.value;
      var itemTotal := cantidad * precio;
      importe := itemTotal;
      block := block + ["   " + FormatPrecio(Some(precio)) + " c/u = " + FormatPrecio(Some(itemTotal))];
    }
  }

  /** The `lineas` list that `build_delivery` builds, with the priced sum it accumulates on the way. */
  method DeliveryLineas(p: Payload) returns (lineas: seq<string>)
    ensures lineas == DeliveryLines(p)
  {
    var header := DeliveryHeader(p);
    lineas := header;
    var productos := p.productos;
    var subtotalCalculado := 0;
    var i := 0;
    while i < |productos|
      invariant 0 <= i <= |productos|
      invariant lineas == header + DeliveryItems(productos[..i])
      invariant subtotalCalculado == PricedSum(productos[..i])
    {
      var block, importe := DeliveryItem(productos[i]);
      PricedSumSnoc(productos, i);
      subtotalCalculado := subtotalCalculado + importe;
      DeliveryItemsSnoc(productos, i);
      AppendAssoc(header, DeliveryItems(productos[..i]), block);
      lineas := lineas + block;
      i := i + 1;
    }
    assert productos[..i] == productos;
    lineas := lineas + DeliveryFooter(p, subtotalCalculado);
  }

  /** `build_delivery`: the voucher lines joined with newlines. */
  method BuildDelivery(p: Payload) returns (contenido: string)
    ensures contenido == Join(DeliveryLines(p), "\n")
  {
    var lineas := DeliveryLineas(p);
    contenido := Join(lineas, "\n");
  }




  // ----- devices and jobs -----

  /** What `_print_bytes` answers: `{'ok', 'driver'}` or `{'ok': False, 'error'}`. */
  datatype PrintResult = PrintResult(ok: bool, driver: Option<string>, error: Option<string>)

  /** A document handed to the spooler: the text, then `feedLines` newlines, then GS 'V' 1 when `cut`. */
  datatype DeviceJob = DeviceJob(driver: string, title: string, content: string, feedLines: nat, cut: bool)

  /**
   * The spooler as the relay sees it: the enumerated printer names, the
   * default printer (None when asking raises) and the outcome of writing a
   * document (None: written; Some(e): raised with message e).
   */
  datatype Env = Env(printers: seq<string>, defaultPrinter: Option<string>, spool: Option<string>)

  /**
   * `select_printer`: the preferred name when it is non-empty and
   * enumerated; otherwise the default printer, and only when asking for
   * that raises, the first enumerated printer or None.
   */
  function SelectPrinter(preferred: Option<string>, printers: seq<string>, defaultPrinter: Option<string>): (r: Option<string>)
    ensures Truthy(preferred) && preferred.value in printers ==> r == preferred
    ensures !(Truthy(preferred) && preferred.value in printers) && defaultPrinter.Some? ==> r == defaultPrinter
    ensures r.None? <==> defaultPrinter.None? && printers == []
    ensures r.Some? && r != defaultPrinter ==> r.value in printers
  {
    if Truthy(preferred) && preferred.value in printers then preferred
    else if defaultPrinter.Some? then defaultPrinter
    else if |printers| > 0 then Some(printers[0])
    else None
  }

  /**
   * `_print_bytes`: with no driver nothing is sent and the answer is
   * "No hay impresora disponible"; otherwise the document goes to the
   * spooler, and the answer is ok exactly when writing did not raise.
   */
  function PrintBytes(driver: Option<string>, content: string, feed: int, cut: bool, title: string, spool: Option<string>): (r: (PrintResult, Option<DeviceJob>))
    ensures !Truthy(driver) ==> r == (PrintResult(false, None, Some("No hay impresora disponible")), None)
    ensures r.1.Some? <==> Truthy(driver)
    ensures r.0.ok <==> Truthy(driver) && spool.None?
    ensures r.1.Some? ==> (r.1.value.driver == driver.value && r.1.value.content == content
      && r.1.value.feedLines == Max(feed, 0) && r.1.value.cut == cut)
  {
    if !Truthy(driver) then (PrintResult(false, None, Some("No hay impresora disponible")), None)
    else
      var job := DeviceJob(driver.value, title, content, if feed > 0 then feed else 0, cut);
      if spool.None? then (PrintResult(true, driver, None), Some(job))
      else (PrintResult(false, None, spool), Some(job))
  }

  /** `payload.get('content') or payload.get('contenido', '')` */
  function RawContent(p: Payload): string {
    if Truthy(p.content) then p.content.value else p.contenido.GetOr("")
  }

  /** The job types `process_job` knows. */
  const TIPOS_TRABAJO: set<string> := {"raw", "pedido", "comanda", "agregados", "eliminados", "delivery"}

  /** A job type as `process_job` tells them apart: one of the known names, or any other. */
  datatype JobKind = JobRaw | JobPedido | JobComanda | JobAgregados | JobEliminados | JobDelivery | JobUnknown

  /** The kind named by `jobType`; the comparisons are exact (case-sensitive). */
  function KindOf(jobType: string): (k: JobKind)
    ensures k == JobUnknown <==> jobType !in TIPOS_TRABAJO
    ensures k == JobRaw <==> jobType == "raw"
    ensures k == JobPedido <==> jobType == "pedido"
  {
    if jobType == "raw" then JobRaw
    else if jobType == "pedido" then JobPedido
    else if jobType == "comanda" then JobComanda
    else if jobType == "agregados" then JobAgregados
    else if jobType == "eliminados" then JobEliminados
    else if jobType == "delivery" then JobDelivery
    else JobUnknown
  }

  /** The document title of each job type. */
  function Titulo(k: JobKind): string {
    match k
    case JobRaw => "RAW"
    case JobPedido => "Pedido"
    case JobComanda => "Comanda"
    case JobAgregados => "Agregados"
    case JobEliminados => "Eliminados"
    case _ => "Delivery"
  }

  /** The text each job type prints: the given text for raw jobs and pre-rendered orders, a built ticket otherwise. */
  function Contenido(k: JobKind, p: Payload): string {
    match k
    case JobRaw => RawContent(p)
    case JobPedido => if Truthy(p.contenido) then p.contenido.value else Join(ReciboLines(p), "\n")
    case JobComanda => Join(ComandaLines(p), "\n")
    case JobAgregados => Join(DeltaLines(p, AGREGADOS), "\n")
    case JobEliminados => Join(DeltaLines(p, ELIMINADOS), "\n")
    case _ => Join(DeliveryLines(p), "\n")
  }

  /** The text of a job of a known type, built the way `process_job` builds it. */
  method BuildContenido(kind: JobKind, p: Payload) returns (contenido: string)
    requires kind != JobUnknown
    ensures contenido == Contenido(kind, p)
  {
    match kind {
    case JobRaw =>
      contenido := RawContent(p);
    case JobPedido =>
      if Truthy(p.contenido) {
        contenido := p.contenido.value;
      } else {
        contenido := BuildRecibo(p);
      }
    case JobComanda =>
      contenido := BuildComanda(p);
    case JobAgregados =>
      contenido := BuildDelta(p, AGREGADOS);
    case JobEliminados =>
      contenido := BuildDelta(p, ELIMINADOS);
    case JobDelivery =>
      contenido := BuildDelivery(p);
    }
  }

  /**
   * `process_job`: an unknown type (one outside `TIPOS_TRABAJO`, by
   * `KindOf`) or a raw job without content answers not-ok and sends nothing; otherwise the job's text goes to the
   * selected printer with feed 5 and cut when not given, except that an
   * order receipt always uses 5 and cut.
   */
  method ProcessJob(jobType: string, p: Payload, driver: Option<string>, feed: Option<int>, cut: Option<bool>, env: Env)
    returns (res: PrintResult, dev: Option<DeviceJob>)
    ensures KindOf(jobType) == JobUnknown ==>
      res == PrintResult(false, None, Some("Tipo de trabajo no soportado: " + jobType)) && dev.None?
    ensures KindOf(jobType) == JobRaw && RawContent(p) == "" ==>
      res == PrintResult(false, None, Some("content requerido")) && dev.None?
    ensures dev.Some? <==>
      KindOf(jobType) != JobUnknown && (KindOf(jobType) == JobRaw ==> RawContent(p) != "")
      && Truthy(SelectPrinter(driver, env.printers, env.defaultPrinter))
    ensures res.ok <==> dev.Some? && env.spool.None?
    ensures dev.Some? ==>
      && dev.value.driver == SelectPrinter(driver, env.printers, env.defaultPrinter).value
      && dev.value.title == Titulo(KindOf(jobType))
      && dev.value.content == Contenido(KindOf(jobType), p)
      && (KindOf(jobType) == JobPedido ==> dev.value.feedLines == 5 && dev.value.cut)
      && (KindOf(jobType) != JobPedido ==> dev.value.feedLines == Max(feed.GetOr(5), 0) && dev.value.cut == cut.GetOr(true))
  {
    var kind := KindOf(jobType);
    if kind == JobUnknown {
      return PrintResult(false, None, Some("Tipo de trabajo no soportado: " + jobType)), None;
    }
    var resolved := SelectPrinter(driver, env.printers, env.defaultPrinter);
    var f := if feed.None? then 5 else feed.value;
    var c := if cut.None? then true else cut.value;
    if kind == JobPedido {
      f, c := 5, true;
    }
    var contenido := BuildContenido(kind, p);
    if kind == JobRaw && contenido == "" {
      return PrintResult(false, None, Some("content requerido")), None;
    }
    var out := PrintBytes(resolved, contenido, f, c, Titulo(kind), env.spool);
    res, dev := out.0, out.1;
  }

  /** `/print/job` answers 200 exactly when the job went through, 400 otherwise. */
  function HttpStatus(r: PrintResult): (status: int)
    ensures status == 200 <==> r.ok
    ensures status == 200 || status == 400
  {
    if r.ok then 200 else 400
  }

  /** The body of a `/print/job` request; `tipo` None means the key is absent (the route uses "raw"). */
  datatype JobRequest = JobRequest(tipo: Option<string>, payload: Payload, driver: Option<string>, feed: Option<int>, cut: Option<bool>)

  /** `print_job`: runs the job (type "raw" by default) and maps its answer to the HTTP status. */
  method PrintJob(req: JobRequest, env: Env) returns (status: int, res: PrintResult, dev: Option<DeviceJob>)
    ensures status == 200 <==> res.ok
    ensures status == 200 || status == 400
    ensures status == 200 ==> dev.Some? && env.spool.None?
    ensures req.tipo.None? && RawContent(req.payload) == "" ==> status == 400 && dev.None?
  {
    var jobType := req.tipo.GetOr("raw");
    res, dev := ProcessJob(jobType, req.payload, req.driver, req.feed, req.cut, env);
    status := HttpStatus(res);
  }
}
