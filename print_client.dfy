/**
 * The relay's HTTP client on the server (`utils/print_client.py`): the
 * base URL, the body of a generic print job, the two convenience jobs and
 * how each HTTP outcome becomes the dictionary the callers receive. The
 * network itself is an input: each request comes with the outcome it met.
 */
module PrintClient {
  import opened Wrappers
  import opened Text

  /** A JSON value as the client sends and receives it. */
  datatype Json =
    | JNull
    | JBool(b: bool)
    | JInt(i: int)
    | JStr(s: string)
    | JArr(items: seq<Json>)
    | JObj(fields: map<string, Json>)

  /** What a body sent to the relay decoded to, or the message of the decoding error. */
  datatype Body = Parsed(value: Json) | Unparsable(message: string)

  /**
   * How a request ended: an answer with a status code and a body, a
   * refused connection, or any other exception with its message.
   */
  datatype HttpOutcome = Answered(status: int, body: Body) | ConnectionFailed | Raised(message: string)

  /** A POST the client sends: the full URL and the JSON body. */
  datatype Request = Request(url: string, body: map<string, Json>)

  /** `{'ok': False, 'error': message}` */
  function Failure(message: string): Json {
    JObj(map["ok" := JBool(false), "error" := JStr(message)])
  }

  /** Whether a result dictionary says `ok: True`. */
  predicate IsOk(r: Json) {
    r.JObj? && "ok" in r.fields && r.fields["ok"] == JBool(true)
  }

  class PrintHostClient {
    /** The relay's base URL, with no trailing '/'. */
    const printhostUrl: string
    const timeout: int

    /** `PrintHostClient(printhost_url, timeout)`: the URL is stored with its trailing slashes stripped. */
    constructor (printhostUrl: string, timeout: int)
      ensures this.printhostUrl == RStrip(printhostUrl, '/')
      ensures this.timeout == timeout
    {
      this.printhostUrl := RStrip(printhostUrl, '/');
      this.timeout := timeout;
    }

    /** `f"{self.printhost_url}{path}"` */
    function Url(path: string): (u: string)
      ensures |u| == |printhostUrl| + |path|
      ensures u[..|printhostUrl|] == printhostUrl && u[|printhostUrl|..] == path
    {
      printhostUrl + path
    }

    /**
     * `_post`: the decoded body on status 200; otherwise a failure carrying
     * "Status N", the unreachable relay, or the exception's message. It
     * never raises.
     */
    function Post(outcome: HttpOutcome): (r: Json)
      ensures outcome.Answered? && outcome.status == 200 && outcome.body.Parsed? ==> r == outcome.body.value
      ensures outcome.Answered? && outcome.status != 200 ==> r == Failure("Status " + IntToString(outcome.status))
      ensures outcome.ConnectionFailed? ==> r == Failure("PrintHost no disponible en " + printhostUrl)
      ensures IsOk(r) ==> outcome == Answered(200, Parsed(r))
    {
      match outcome
      case Answered(status, body) =>
        if status == 200 then
          (match body
           case Parsed(v) => v
           case Unparsable(m) => Failure(m))
        else Failure("Status " + IntToString(status))
      case ConnectionFailed => Failure("PrintHost no disponible en " + printhostUrl)
      case Raised(m) => Failure(m)
    }

    /** `health_check`: the relay answered GET /health with status 200. */
    function HealthCheck(outcome: HttpOutcome): (up: bool)
      ensures up <==> outcome.Answered? && outcome.status == 200
    {
      match outcome
      case Answered(status, _) => status == 200
      case _ => false
    }

    /**
     * `list_printers`: the `printers` entry of the answer to GET /printers
     * on status 200 (absent: []); every failure, including an answer that
     * is not an object, gives [].
     */
    function ListPrinters(outcome: HttpOutcome): (ps: Json)
      ensures !(outcome.Answered? && outcome.status == 200 && outcome.body.Parsed?) ==> ps == JArr([])
      ensures ps != JArr([]) ==>
        && outcome.Answered? && outcome.status == 200 && outcome.body.Parsed? && outcome.body.value.JObj?
        && "printers" in outcome.body.value.fields && ps == outcome.body.value.fields["printers"]
    {
      if outcome.Answered? && outcome.status == 200 && outcome.body.Parsed? && outcome.body.value.JObj?
         && "printers" in outcome.body.value.fields
      then outcome.body.value.fields["printers"]
      else JArr([])
    }

    /**
     * `print_job`: the body always holds 'type' and 'payload'; 'driver' is
     * added only for a non-empty driver, 'feed' and 'cut' whenever they are
     * given (0 and False included). It is posted to '/print/job'.
     */
    method PrintJob(jobType: string, payload: map<string, Json>, driver: Option<string>, feed: Option<int>, cut: Option<bool>,
                    outcome: HttpOutcome)
      returns (req: Request, res: Json)
      ensures req.url == Url("/print/job")
      ensures JobBody(req.body, jobType, payload, driver, feed, cut)
      ensures res == Post(outcome)
    {
      NombresDistintos();
      var body := map["type" := JStr(jobType), "payload" := JObj(payload)];
      ghost var claves: set<string> := {"type", "payload"};
      assert body.Keys == claves;
      if driver.Some? && driver.value != "" {
        body := body["driver" := JStr(driver.value)];
        claves := claves + {"driver"};
      }
      assert body.Keys == claves && body["type"] == JStr(jobType) && body["payload"] == JObj(payload);
      if feed.Some? {
        body := body["feed" := JInt(feed.value)];
        claves := claves + {"feed"};
      }
      assert body.Keys == claves && body["type"] == JStr(jobType) && body["payload"] == JObj(payload);
      if cut.Some? {
        body := body["cut" := JBool(cut.value)];
        claves := claves + {"cut"};
      }
      req := Request(Url("/print/job"), body);
      res := Post(outcome);
    }

    /** `print_raw`: a 'raw' job with `{'content': content}`, feed 3 and cut unless told otherwise. */
    method PrintRaw(driver: string, content: string, feed: Option<int>, cut: Option<bool>, outcome: HttpOutcome)
      returns (req: Request, res: Json)
      ensures req.url == Url("/print/job")
      ensures JobBody(req.body, "raw", map["content" := JStr(content)], Some(driver), Some(feed.GetOr(3)), Some(cut.GetOr(true)))
      ensures res == Post(outcome)
    {
      req, res := PrintJob("raw", map["content" := JStr(content)], Some(driver), Some(feed.GetOr(3)), Some(cut.GetOr(true)), outcome);
    }

    /** `print_pedido`: a 'pedido' job with the order id and its text, and no feed or cut. */
    method PrintPedido(driver: string, pedidoId: int, contenido: string, outcome: HttpOutcome)
      returns (req: Request, res: Json)
      ensures req.url == Url("/print/job")
      ensures JobBody(req.body, "pedido", map["pedido_id" := JInt(pedidoId), "contenido" := JStr(contenido)], Some(driver), None, None)
      ensures res == Post(outcome)
    {
      req, res := PrintJob("pedido", map["pedido_id" := JInt(pedidoId), "contenido" := JStr(contenido)], Some(driver), None, None, outcome);
    }
  }

  /** `get_printhost_client`: a client for the `PRINTHOST_URL` setting ("http://localhost:8765" when unset) with the 10-second default timeout. */
  method GetPrinthostClient(config: Option<string>) returns (c: PrintHostClient)
    ensures fresh(c) && c.printhostUrl == RStrip(config.GetOr("http://localhost:8765"), '/') && c.timeout == 10
  {
    c := new PrintHostClient(config.GetOr("http://localhost:8765"), 10);
  }

  /**
   * The body `print_job` builds: exactly the keys 'type' and 'payload',
   * plus 'driver' for a non-empty driver and 'feed' / 'cut' when given,
   * each holding its argument.
   */
  predicate JobBody(body: map<string, Json>, jobType: string, payload: map<string, Json>,
                    driver: Option<string>, feed: Option<int>, cut: Option<bool>) {
    && body.Keys == {"type", "payload"}
         + (if driver.Some? && driver.value != "" then {"driver"} else {})
         + (if feed.Some? then {"feed"} else {})
         + (if cut.Some? then {"cut"} else {})
    && body["type"] == JStr(jobType)
    && body["payload"] == JObj(payload)
    && ("driver" in body ==> body["driver"] == JStr(driver.value))
    && ("feed" in body ==> body["feed"] == JInt(feed.value))
    && ("cut" in body ==> body["cut"] == JBool(cut.value))
  }

  /** The five body keys are distinct strings. */
  lemma NombresDistintos()
    ensures "type" != "payload" && "type" != "driver" && "type" != "feed" && "type" != "cut"
    ensures "payload" != "driver" && "payload" != "feed" && "payload" != "cut"
    ensures "driver" != "feed" && "driver" != "cut" && "feed" != "cut"
  {
    assert "type"[0] != "payload"[0] && "type"[0] != "driver"[0] && "type"[0] != "feed"[0] && "type"[0] != "cut"[0];
    assert "payload"[0] != "driver"[0] && "payload"[0] != "feed"[0] && "payload"[0] != "cut"[0];
    assert "driver"[0] != "feed"[0] && "driver"[0] != "cut"[0] && "feed"[0] != "cut"[0];
  }

  /** A raw job always carries 'feed' and 'cut', even feed 0 and cut False. */
  lemma RawBodyHasFeedAndCut(body: map<string, Json>, driver: string, content: string, feed: Option<int>, cut: Option<bool>)
    requires JobBody(body, "raw", map["content" := JStr(content)], Some(driver), Some(feed.GetOr(3)), Some(cut.GetOr(true)))
    ensures "feed" in body && body["feed"] == JInt(if feed.Some? then feed.value else 3)
    ensures "cut" in body && body["cut"] == JBool(if cut.Some? then cut.value else true)
    ensures "driver" in body <==> driver != ""
  {
    assert "feed" in body.Keys && "cut" in body.Keys;
  }

  /** An order job carries neither 'feed' nor 'cut', so the relay applies its own defaults. */
  lemma PedidoBodyHasNoFeed(body: map<string, Json>, driver: string, pedidoId: int, contenido: string)
    requires JobBody(body, "pedido", map["pedido_id" := JInt(pedidoId), "contenido" := JStr(contenido)], Some(driver), None, None)
    ensures "feed" !in body && "cut" !in body
    ensures body["payload"].fields.Keys == {"pedido_id", "contenido"}
  {
    assert "feed" !in body.Keys;
  }

  /** Stripping the trailing slashes twice is stripping them once, so a stored URL never ends in '/'. */
  lemma RStripIdempotent(s: string)
    ensures RStrip(RStrip(s, '/'), '/') == RStrip(s, '/')
    ensures RStrip(s, '/') == [] || RStrip(s, '/')[|RStrip(s, '/')| - 1] != '/'
  {
  }
}
