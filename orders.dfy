/**
 * What the order routes of both channels share: the `ventas` and
 * `producto_venta` tables with the product, receipt-type and client
 * catalogues (class `Db`), the browser session with its carts (class
 * `Session`), the responses, and the line-table operations with the
 * order-total invariant: every order's `total` is Σ precio_venta·cantidad
 * over its lines.
 */
module Orders {
  import opened Wrappers
  import opened Text
  import opened VentaModel
  import Cart
  import Printer

  /** A row of `productos`, as far as the routes read it. */
  datatype Producto = Producto(id: int, nombre: string, precio: int)

  /**
   * An HTTP answer. `Ok` carries the `HX-Trigger` event names (joined by
   * ", " in the header; none when empty); `OkError` is a 200 partial that
   * shows an error; `ServerError` is the 500 sent after a rollback.
   */
  datatype Response =
    | Ok(triggers: seq<string>)
    | OkError(message: string)
    | BadRequest(message: string)
    | Forbidden(message: string)
    | NotFound(message: string)
    | ServerError

  /** Which printer a route prints on: the `PRINTER_NAME` setting, or the lookup by profile. */
  datatype Via = ConfigPrinter | ProfilePrinter(perfil: string, tipo: Option<string>)

  /** A ticket a route prints after committing; whatever the printer answers, the route's answer is the same. */
  datatype PrintRequest = PrintRequest(via: Via, ticket: Printer.Ticket)

  /** A form field: missing (the route's default applies) or the submitted text. */
  datatype FormValue = Missing | Given(text: string)

  // ----- int(text) -----

  /** The ASCII whitespace Python's `int()` skips around the number. */
  predicate IsBlank(c: char) {
    c == ' ' || c == '\t' || c == '\n' || c == '\r' || c == '\U{000B}' || c == '\U{000C}'
  }

  /** `text` without its leading and trailing blanks. */
  function StripBlanks(text: string): (r: string)
    ensures |r| <= |text|
    ensures r == [] || (!IsBlank(r[0]) && !IsBlank(r[|r| - 1]))
    ensures forall i :: 0 <= i < |text| ==> !IsBlank(text[i]) ==> r != []
    decreases |text|
  {
    if text == [] then []
    else if IsBlank(text[0]) then StripBlanks(text[1..])
    else if IsBlank(text[|text| - 1]) then StripBlanks(text[..|text| - 1])
    else text
  }

  /** Decimal digits, where single underscores may separate two digits (`1_000`). */
  predicate DigitGroups(s: string)
    decreases |s|
  {
    && |s| > 0 && IsDigit(s[0])
    && (|s| == 1 || DigitGroups(s[1..]) || (s[1] == '_' && DigitGroups(s[2..])))
  }

  /** Removing the underscores from digit groups leaves only digits. */
  lemma {:induction false} WithoutUnderscoreDigits(s: string)
    requires DigitGroups(s)
    ensures AllDigits(Without(s, '_'))
    decreases |s|
  {
    if |s| > 1 {
      if DigitGroups(s[1..]) {
        WithoutUnderscoreDigits(s[1..]);
      } else {
        WithoutUnderscoreDigits(s[2..]);
        assert s[1..][1..] == s[2..];
      }
    }
  }

  /** Plain digits are digit groups. */
  lemma {:induction false} DigitsAreGroups(d: string)
    requires |d| > 0 && AllDigits(d)
    ensures DigitGroups(d)
    decreases |d|
  {
    assert IsDigit(d[0]);
    if |d| > 1 {
      DigitsAreGroups(d[1..]);
    }
  }

  /** The number written by digit groups, or None when `s` is not digit groups. */
  function GroupsValue(s: string): (r: Option<nat>)
    ensures r.Some? <==> DigitGroups(s)
  {
    if DigitGroups(s) then
      WithoutUnderscoreDigits(s);
      Some(DigitsValue(Without(s, '_')))
    else None
  }

  /**
   * Python's `int(text)` for ASCII text: blanks around the number are
   * skipped, a sign may come first, and the digits may be grouped by
   * single underscores; any other text raises (None).
   */
  function ParseInt(text: string): (r: Option<int>)
    ensures r.Some? ==> |text| > 0
  {
    var t := StripBlanks(text);
    var signed := |t| > 0 && (t[0] == '-' || t[0] == '+');
    var g := GroupsValue(if signed then t[1..] else t);
    if g.None? then None
    else if signed && t[0] == '-' then Some(-(g.value as int))
    else Some(g.value as int)
  }

  /** Blanks around the text and underscores between digits are accepted; a doubled underscore or a blank after the sign is not. */
  lemma ParseIntPython()
    ensures ParseInt(" 1") == Some(1)
    ensures ParseInt("1_0\n") == Some(10)
    ensures ParseInt("1__0") == None
    ensures ParseInt("- 1") == None
  {
    assert StripBlanks(" 1") == "1" by {
      assert StripBlanks(" 1") == StripBlanks(" 1"[1..]);
      assert " 1"[1..] == "1";
    }
    assert Without("1", '_') == "1" by {
      WithoutNoOccurrence("1", '_');
    }
    assert StripBlanks("1_0\n") == "1_0" by {
      assert StripBlanks("1_0\n") == StripBlanks("1_0\n"[..3]);
      assert "1_0\n"[..3] == "1_0";
    }
    assert Without("1_0", '_') == "10" by {
      assert "1_0"[1..] == "_0" && "_0"[1..] == "0";
      WithoutNoOccurrence("0", '_');
    }
    assert DigitsValue("10") == 10 by {
      assert "10"[..1] == "1";
    }
    assert !DigitGroups("1__0") by {
      assert "1__0"[1..] == "__0" && "1__0"[2..] == "_0";
    }
    assert StripBlanks("- 1") == "- 1";
    assert !DigitGroups(" 1") by {
      assert !IsDigit(" 1"[0]);
    }
  }

  /** `int(str(n)) == n`. */
  lemma ParseIntRoundTrip(n: int)
    ensures ParseInt(IntToString(n)) == Some(n)
  {
    if n < 0 {
      var d := NatToString(-n);
      calc {
        ParseInt(IntToString(n));
        ParseInt("-" + d);
        { ParseNegativo(d); }
        Some(-(DigitsValue(d) as int));
        { NatToStringRoundTrip(-n); }
        Some(n);
      }
    } else {
      var d := NatToString(n);
      calc {
        ParseInt(IntToString(n));
        ParseInt(d);
        { ParseDigitos(d); }
        Some(DigitsValue(d) as int);
        { NatToStringRoundTrip(n); }
        Some(n);
      }
    }
  }

  /** Text that neither starts nor ends with a blank is left as it is. */
  lemma StripBlanksNoBlankEnds(s: string)
    requires |s| > 0 && !IsBlank(s[0]) && !IsBlank(s[|s| - 1])
    ensures StripBlanks(s) == s
  {
  }

  /** Plain digits are digit groups with nothing to remove. */
  lemma GroupsValueDigits(d: string)
    requires |d| > 0 && AllDigits(d)
    ensures GroupsValue(d) == Some(DigitsValue(d))
  {
    DigitsAreGroups(d);
    WithoutNoOccurrence(d, '_');
  }

  lemma ParseDigitos(d: string)
    requires |d| > 0 && AllDigits(d)
    ensures ParseInt(d) == Some(DigitsValue(d))
  {
    assert IsDigit(d[0]) && IsDigit(d[|d| - 1]);
    StripBlanksNoBlankEnds(d);
    GroupsValueDigits(d);
  }

  /** A minus sign before digit groups, with no blanks to strip, negates their value. */
  lemma ParseMinusGroups(s: string, v: nat)
    requires |s| > 1 && s[0] == '-' && StripBlanks(s) == s && GroupsValue(s[1..]) == Some(v)
    ensures ParseInt(s) == Some(-(v as int))
  {
  }

  /** A minus sign before digits leaves nothing to strip. */
  lemma MinusDigitsStripped(d: string)
    requires |d| > 0 && AllDigits(d)
    ensures StripBlanks("-" + d) == "-" + d && ("-" + d)[1..] == d
  {
    var s := "-" + d;
    assert s[0] == '-' && s[1..] == d;
    assert IsDigit(d[|d| - 1]) && s[|s| - 1] == d[|d| - 1];
    StripBlanksNoBlankEnds(s);
  }

  lemma ParseNegativo(d: string)
    requires |d| > 0 && AllDigits(d)
    ensures ParseInt("-" + d) == Some(-(DigitsValue(d) as int))
  {
    MinusDigitsStripped(d);
    GroupsValueDigits(d);
    ParseMinusGroups("-" + d, DigitsValue(d));
  }

  // ----- receipt numbers -----

  /** The receipt type both `cobrar_pedido` routes record: `int(form value)`, 1 when the field is missing. */
  function TipoComprobante(tipo: FormValue): Option<int> {
    match tipo
    case Missing => Some(1)
    case Given(t) => ParseInt(t)
  }


  /** `f"{prefijo}-{id:06d}"` */
  function NumeroComprobante(prefijo: string, id: nat): (s: string)
    ensures |s| == |prefijo| + 1 + Max(6, |NatToString(id)|)
    ensures s[..|prefijo| + 1] == prefijo + "-"
    ensures AllDigits(s[|prefijo| + 1..])
  {
    prefijo + "-" + ZeroPad(id, 6)
  }

  /** The digits after the dash give back the order id. */
  lemma NumeroComprobanteId(prefijo: string, id: nat)
    ensures DigitsValue(NumeroComprobante(prefijo, id)[|prefijo| + 1..]) == id
  {
    assert NumeroComprobante(prefijo, id)[|prefijo| + 1..] == ZeroPad(id, 6);
    ZeroPadValue(id, 6);
  }

  /** Two ids never share a number under the same prefix. */
  lemma NumeroComprobanteInjective(prefijo: string, a: nat, b: nat)
    requires NumeroComprobante(prefijo, a) == NumeroComprobante(prefijo, b)
    ensures a == b
  {
    NumeroComprobanteId(prefijo, a);
    NumeroComprobanteId(prefijo, b);
  }

  // ----- the line table -----

  /** What a sum over the line table adds up: an order's money total, or its quantity of one product. */
  datatype Measure = Total(vid: int) | Qty(vid: int, producto: int)

  /** What line `r` adds to measure `m`. */
  function Weight(r: ProductoVenta, m: Measure): int {
    match m
    case Total(vid) => if r.ventaId == vid then r.precioVenta * r.cantidad else 0
    case Qty(vid, producto) => if r.ventaId == vid && r.productoId == producto then r.cantidad else 0
  }

  function Sum(rows: seq<ProductoVenta>, m: Measure): int
    decreases |rows|
  {
    if rows == [] then 0 else Sum(rows[..|rows| - 1], m) + Weight(rows[|rows| - 1], m)
  }

  /** Σ precio_venta·cantidad over the lines of order `vid`. */
  function OrderTotal(rows: seq<ProductoVenta>, vid: int): int {
    Sum(rows, Total(vid))
  }

  /** Σ cantidad over the lines of order `vid` for product `producto`. */
  function Cantidad(rows: seq<ProductoVenta>, vid: int, producto: int): int {
    Sum(rows, Qty(vid, producto))
  }

  /** The lines of order `vid`, in table order (`filter_by(venta_id=vid).all()`). */
  function LinesOf(rows: seq<ProductoVenta>, vid: int): (ls: seq<ProductoVenta>)
    ensures forall l :: l in ls ==> l in rows && l.ventaId == vid
    decreases |rows|
  {
    if rows == [] then []
    else LinesOf(rows[..|rows| - 1], vid) + (if rows[|rows| - 1].ventaId == vid then [rows[|rows| - 1]] else [])
  }

  /** The lines of an order add up to the same total as the whole table does for it. */
  lemma {:induction false} LinesOfTotal(rows: seq<ProductoVenta>, vid: int)
    ensures OrderTotal(LinesOf(rows, vid), vid) == OrderTotal(rows, vid)
    decreases |rows|
  {
    if rows != [] {
      var n := |rows| - 1;
      LinesOfTotal(rows[..n], vid);
      var tail := if rows[n].ventaId == vid then [rows[n]] else [];
      SumConcat(LinesOf(rows[..n], vid), tail, Total(vid));
      if tail != [] {
        SumSingle(rows[n], Total(vid));
      }
    }
  }

  /** Position of the line with id `lid`, or `|rows|`. */
  function IndexOfLinea(rows: seq<ProductoVenta>, lid: int): (i: nat)
    ensures i <= |rows|
    ensures i < |rows| ==> rows[i].id == lid
    ensures forall j :: 0 <= j < i ==> rows[j].id != lid
    decreases |rows|
  {
    if rows == [] then 0
    else if rows[0].id == lid then 0
    else 1 + IndexOfLinea(rows[1..], lid)
  }

  /** Position of the first line of order `vid` for product `pid`, or `|rows|` (`filter_by(...).first()`). */
  function IndexOfProducto(rows: seq<ProductoVenta>, vid: int, pid: int): (i: nat)
    ensures i <= |rows|
    ensures i < |rows| ==> rows[i].ventaId == vid && rows[i].productoId == pid
    ensures forall j :: 0 <= j < i ==> !(rows[j].ventaId == vid && rows[j].productoId == pid)
    decreases |rows|
  {
    if rows == [] then 0
    else if rows[0].ventaId == vid && rows[0].productoId == pid then 0
    else 1 + IndexOfProducto(rows[1..], vid, pid)
  }

  lemma {:induction false} SumConcat(a: seq<ProductoVenta>, b: seq<ProductoVenta>, m: Measure)
    ensures Sum(a + b, m) == Sum(a, m) + Sum(b, m)
    decreases |b|
  {
    if b == [] {
      assert a + b == a;
    } else {
      SumConcat(a, b[..|b| - 1], m);
      assert (a + b)[..|a + b| - 1] == a + b[..|b| - 1];
    }
  }

  lemma SumSingle(r: ProductoVenta, m: Measure)
    ensures Sum([r], m) == Weight(r, m)
  {
    assert [r][..0] == [];
  }

  /** Replacing a row changes a sum by the difference of the two rows' weights. */
  lemma SumUpdate(rows: seq<ProductoVenta>, i: nat, x: ProductoVenta, m: Measure)
    requires i < |rows|
    ensures Sum(rows[i := x], m) == Sum(rows, m) - Weight(rows[i], m) + Weight(x, m)
  {
    var pre, post := rows[..i], rows[i + 1..];
    assert rows == pre + ([rows[i]] + post);
    assert rows[i := x] == pre + ([x] + post);
    SumConcat(pre, [rows[i]] + post, m);
    SumConcat(pre, [x] + post, m);
    SumConcat([rows[i]], post, m);
    SumConcat([x], post, m);
    SumSingle(rows[i], m);
    SumSingle(x, m);
  }

  /** Deleting a row takes its weight off a sum. */
  lemma SumDelete(rows: seq<ProductoVenta>, i: nat, m: Measure)
    requires i < |rows|
    ensures Sum(Cart.Delete(rows, i), m) == Sum(rows, m) - Weight(rows[i], m)
  {
    var pre, post := rows[..i], rows[i + 1..];
    assert rows == pre + ([rows[i]] + post);
    assert Cart.Delete(rows, i) == pre + post;
    SumConcat(pre, [rows[i]] + post, m);
    SumConcat([rows[i]], post, m);
    SumConcat(pre, post, m);
    SumSingle(rows[i], m);
  }

  lemma SumAppend(rows: seq<ProductoVenta>, x: ProductoVenta, m: Measure)
    ensures Sum(rows + [x], m) == Sum(rows, m) + Weight(x, m)
  {
    assert (rows + [x])[..|rows|] == rows;
  }

  /** A sum over rows that all weigh nothing is 0. */
  lemma {:induction false} SumZero(rows: seq<ProductoVenta>, m: Measure)
    requires forall j :: 0 <= j < |rows| ==> Weight(rows[j], m) == 0
    ensures Sum(rows, m) == 0
    decreases |rows|
  {
    if rows != [] {
      SumZero(rows[..|rows| - 1], m);
    }
  }

  /** The lines a cart becomes: one per entry, in cart order, with consecutive ids from `first`. */
  function CartLines(c: Cart.Cart, vid: int, first: int): (ls: seq<ProductoVenta>)
    ensures |ls| == |c|
    ensures forall k :: 0 <= k < |c| ==>
      ls[k] == ProductoVenta(first + k, vid, c[k].id, c[k].cantidad, c[k].precio, 0, None)
  {
    seq(|c|, k requires 0 <= k < |c| => ProductoVenta(first + k, vid, c[k].id, c[k].cantidad, c[k].precio, 0, None))
  }

  /** The committed lines add up to the cart subtotal. */
  lemma {:induction false} CartLinesTotal(c: Cart.Cart, vid: int, first: int)
    ensures OrderTotal(CartLines(c, vid, first), vid) == Cart.Subtotal(c)
    decreases |c|
  {
    if c != [] {
      var n := |c| - 1;
      CartLinesTotal(c[..n], vid, first);
      assert CartLines(c, vid, first) == CartLines(c[..n], vid, first) + [CartLines(c, vid, first)[n]];
      SumAppend(CartLines(c[..n], vid, first), CartLines(c, vid, first)[n], Total(vid));
    }
  }

  /** The committed lines belong to no other order. */
  lemma {:induction false} CartLinesOtherTotal(c: Cart.Cart, vid: int, first: int, other: int)
    requires other != vid
    ensures OrderTotal(CartLines(c, vid, first), other) == 0
  {
    SumZero(CartLines(c, vid, first), Total(other));
  }

  // ----- the database -----

  /** Every order is stored under its id, ids are below the next id, and its states are in their domains. */
  ghost predicate VentasOk(ventas: map<int, Venta>, nextVentaId: int) {
    forall id :: id in ventas ==> ventas[id].id == id && 1 <= id < nextVentaId && EstadosValidos(ventas[id])
  }

  /**
   * Line ids are positive, below the next id and increasing in table order;
   * every line belongs to a stored order and a catalogue product and has a
   * positive quantity.
   */
  ghost predicate RowsOk(rows: seq<ProductoVenta>, ventas: map<int, Venta>, nextLineaId: int, productos: map<int, Producto>) {
    && (forall i :: 0 <= i < |rows| ==> 1 <= rows[i].id < nextLineaId)
    && (forall i :: 0 <= i < |rows| ==> rows[i].ventaId in ventas && rows[i].productoId in productos)
    && (forall i :: 0 <= i < |rows| ==> rows[i].cantidad >= 1)
    && IdsIncreasing(rows)
  }

  /** Line ids increase in table order, so no two lines share an id. */
  ghost predicate IdsIncreasing(rows: seq<ProductoVenta>) {
    forall i, j :: 0 <= i < j < |rows| ==> rows[i].id < rows[j].id
  }

  /** With distinct ids, deleting the line at `i` removes exactly the line with that id. */
  lemma DeleteRowMembers(rows: seq<ProductoVenta>, i: nat)
    requires IdsIncreasing(rows) && i < |rows|
    ensures IdsIncreasing(Cart.Delete(rows, i))
    ensures forall r :: r in Cart.Delete(rows, i) <==> r in rows && r.id != rows[i].id
  {
    DeleteRowIncreasing(rows, i);
    forall r
      ensures r in Cart.Delete(rows, i) <==> r in rows && r.id != rows[i].id
    {
      DeleteRowHas(rows, i, r);
    }
  }

  lemma DeleteRowIncreasing(rows: seq<ProductoVenta>, i: nat)
    requires IdsIncreasing(rows) && i < |rows|
    ensures IdsIncreasing(Cart.Delete(rows, i))
  {
    var d := Cart.Delete(rows, i);
    forall a, b | 0 <= a < b < |d|
      ensures d[a].id < d[b].id
    {
      var a', b' := a, b;
      if a >= i {
        a' := a + 1;
      }
      if b >= i {
        b' := b + 1;
      }
      assert d[a] == rows[a'] && d[b] == rows[b'] && a' < b';
    }
  }

  lemma DeleteRowHas(rows: seq<ProductoVenta>, i: nat, r: ProductoVenta)
    requires IdsIncreasing(rows) && i < |rows|
    ensures r in Cart.Delete(rows, i) <==> r in rows && r.id != rows[i].id
  {
    var d := Cart.Delete(rows, i);
    if r in d {
      var j :| 0 <= j < |d| && d[j] == r;
      if j < i {
        assert r == rows[j];
      } else {
        assert r == rows[j + 1];
      }
    }
    if r in rows && r.id != rows[i].id {
      var j :| 0 <= j < |rows| && rows[j] == r;
      if j < i {
        assert d[j] == r;
      } else {
        assert j != i;
        assert d[j - 1] == r;
      }
    }
  }

  /** Every order's stored total is the sum over its lines. */
  ghost predicate TotalsOk(ventas: map<int, Venta>, rows: seq<ProductoVenta>) {
    forall id :: id in ventas ==> ventas[id].total == OrderTotal(rows, id)
  }

  /** Changing the quantity of one line to a positive value keeps the table well formed. */
  lemma RowsOkUpdate(rows: seq<ProductoVenta>, ventas: map<int, Venta>, nl: int, productos: map<int, Producto>, i: nat, c: int)
    requires RowsOk(rows, ventas, nl, productos) && i < |rows| && c >= 1
    ensures RowsOk(rows[i := rows[i].(cantidad := c)], ventas, nl, productos)
  {
  }

  /** Deleting a line keeps the table well formed. */
  lemma RowsOkDelete(rows: seq<ProductoVenta>, ventas: map<int, Venta>, nl: int, productos: map<int, Producto>, i: nat)
    requires RowsOk(rows, ventas, nl, productos) && i < |rows|
    ensures RowsOk(Cart.Delete(rows, i), ventas, nl, productos)
  {
    DeleteRowMembers(rows, i);
  }

  /** Appending a line with the next id, for a stored order and a catalogue product, keeps the table well formed. */
  lemma RowsOkAppend(rows: seq<ProductoVenta>, ventas: map<int, Venta>, nl: int, productos: map<int, Producto>, x: ProductoVenta)
    requires RowsOk(rows, ventas, nl, productos)
    requires x.id == nl && nl >= 1 && x.ventaId in ventas && x.productoId in productos && x.cantidad >= 1
    ensures RowsOk(rows + [x], ventas, nl + 1, productos)
  {
  }

  /** Storing an order under a new or existing key keeps every line's order in the table. */
  lemma RowsOkStore(rows: seq<ProductoVenta>, ventas: map<int, Venta>, nl: int, productos: map<int, Producto>, id: int, v: Venta)
    requires RowsOk(rows, ventas, nl, productos)
    ensures RowsOk(rows, ventas[id := v], nl, productos)
  {
  }

  /**
   * Recomputing order `pid`'s total after a change that touched only its
   * lines leaves every total consistent.
   */
  lemma TotalsOkRecompute(ventas: map<int, Venta>, rows: seq<ProductoVenta>, rows': seq<ProductoVenta>, pid: int)
    requires TotalsOk(ventas, rows) && pid in ventas
    requires forall vid :: vid != pid ==> OrderTotal(rows', vid) == OrderTotal(rows, vid)
    ensures TotalsOk(ventas[pid := ventas[pid].(total := OrderTotal(rows', pid))], rows')
  {
  }

  /** No line of a well-formed table belongs to an id the orders table has not handed out yet. */
  lemma NoLinesOfNewOrder(rows: seq<ProductoVenta>, ventas: map<int, Venta>, nv: int, nl: int, productos: map<int, Producto>)
    requires VentasOk(ventas, nv) && RowsOk(rows, ventas, nl, productos)
    ensures forall j :: 0 <= j < |rows| ==> rows[j].ventaId != nv
  {
  }

  /**
   * Storing a new order whose total is the cart subtotal, together with the
   * cart's lines, keeps every total consistent.
   */
  lemma {:induction false} TotalsOkNewOrder(ventas: map<int, Venta>, rows: seq<ProductoVenta>, c: Cart.Cart, v: Venta, first: int)
    requires TotalsOk(ventas, rows)
    requires forall j :: 0 <= j < |rows| ==> rows[j].ventaId != v.id
    requires v.total == Cart.Subtotal(c)
    ensures TotalsOk(ventas[v.id := v], rows + CartLines(c, v.id, first))
  {
    var rows' := rows + CartLines(c, v.id, first);
    forall id | id in ventas[v.id := v]
      ensures ventas[v.id := v][id].total == OrderTotal(rows', id)
    {
      SumConcat(rows, CartLines(c, v.id, first), Total(id));
      if id == v.id {
        SumZero(rows, Total(id));
        CartLinesTotal(c, v.id, first);
      } else {
        CartLinesOtherTotal(c, v.id, first, id);
      }
    }
  }

  /** Changing a line's quantity leaves the totals of other orders alone. */
  lemma OthersAfterUpdate(rows: seq<ProductoVenta>, i: nat, c: int)
    requires i < |rows|
    ensures forall vid :: vid != rows[i].ventaId ==>
      OrderTotal(rows[i := rows[i].(cantidad := c)], vid) == OrderTotal(rows, vid)
  {
    forall vid | vid != rows[i].ventaId
      ensures OrderTotal(rows[i := rows[i].(cantidad := c)], vid) == OrderTotal(rows, vid)
    {
      SumUpdate(rows, i, rows[i].(cantidad := c), Total(vid));
    }
  }

  /** Deleting a line leaves the totals of other orders alone. */
  lemma OthersAfterDelete(rows: seq<ProductoVenta>, i: nat)
    requires i < |rows|
    ensures forall vid :: vid != rows[i].ventaId ==> OrderTotal(Cart.Delete(rows, i), vid) == OrderTotal(rows, vid)
  {
    forall vid | vid != rows[i].ventaId
      ensures OrderTotal(Cart.Delete(rows, i), vid) == OrderTotal(rows, vid)
    {
      SumDelete(rows, i, Total(vid));
    }
  }

  /** Appending a line leaves the totals of other orders alone. */
  lemma OthersAfterAppend(rows: seq<ProductoVenta>, x: ProductoVenta)
    ensures forall vid :: vid != x.ventaId ==> OrderTotal(rows + [x], vid) == OrderTotal(rows, vid)
  {
    forall vid | vid != x.ventaId
      ensures OrderTotal(rows + [x], vid) == OrderTotal(rows, vid)
    {
      SumAppend(rows, x, Total(vid));
    }
  }


  class Db {
    var ventas: map<int, Venta>
    var lineas: seq<ProductoVenta>
    var nextVentaId: int
    var nextLineaId: int
    const productos: map<int, Producto>
    const comprobantes: set<int>
    const clientes: map<int, Option<Printer.Persona>>

    /**
     * Keys are ids; ids grow with insertion; lines point at existing orders
     * and products and have a positive quantity; the states are in their
     * domains; and every order's total is Σ precio_venta·cantidad over its
     * lines.
     */
    ghost predicate Valid()
      reads this
    {
      && (forall k :: k in productos ==> productos[k].id == k)
      && nextVentaId >= 1 && nextLineaId >= 1
      && VentasOk(ventas, nextVentaId)
      && RowsOk(lineas, ventas, nextLineaId, productos)
      && TotalsOk(ventas, lineas)
    }

    constructor (productos: map<int, Producto>, comprobantes: set<int>, clientes: map<int, Option<Printer.Persona>>)
      requires forall k :: k in productos ==> productos[k].id == k
      ensures Valid()
      ensures ventas == map[] && lineas == [] && nextVentaId == 1 && nextLineaId == 1
      ensures this.productos == productos && this.comprobantes == comprobantes && this.clientes == clientes
    {
      this.productos := productos;
      this.comprobantes := comprobantes;
      this.clientes := clientes;
      ventas := map[];
      lineas := [];
      nextVentaId := 1;
      nextLineaId := 1;
    }

    /** `cliente.persona` for an order's client, or None (no client, unknown client, no persona). */
    function PersonaDe(v: Venta): Option<Printer.Persona> {
      if v.clienteId.Some? && v.clienteId.value != 0 && v.clienteId.value in clientes
      then clientes[v.clienteId.value] else None
    }
  }

  /** Every cart entry names a catalogue product (otherwise the insert of its line fails). */
  predicate InCatalogue(c: Cart.Cart, productos: map<int, Producto>) {
    forall k :: 0 <= k < |c| ==> c[k].id in productos
  }

  /** The insert loop of both channels' order commit: one line per cart entry, in cart order, with fresh ids. */
  method InsertarLineas(db: Db, c: Cart.Cart, vid: int)
    requires RowsOk(db.lineas, db.ventas, db.nextLineaId, db.productos) && db.nextLineaId >= 1
    requires vid in db.ventas && InCatalogue(c, db.productos) && Cart.AllPositive(c)
    modifies db`lineas, db`nextLineaId
    ensures RowsOk(db.lineas, db.ventas, db.nextLineaId, db.productos)
    ensures db.lineas == old(db.lineas) + CartLines(c, vid, old(db.nextLineaId))
    ensures db.nextLineaId == old(db.nextLineaId) + |c|
  {
    var first := db.nextLineaId;
    var i := 0;
    while i < |c|
      invariant 0 <= i <= |c|
      invariant db.lineas == old(db.lineas) + CartLines(c[..i], vid, first)
      invariant db.nextLineaId == first + i
      invariant RowsOk(db.lineas, db.ventas, db.nextLineaId, db.productos)
    {
      var row := ProductoVenta(db.nextLineaId, vid, c[i].id, c[i].cantidad, c[i].precio, 0, None);
      assert CartLines(c[..i + 1], vid, first) == CartLines(c[..i], vid, first) + [row];
      RowsOkAppend(db.lineas, db.ventas, db.nextLineaId, db.productos, row);
      db.lineas := db.lineas + [row];
      db.nextLineaId := db.nextLineaId + 1;
      i := i + 1;
    }
    assert c[..i] == c;
  }

  /**
   * The commit of both channels' new order: the order under the next
   * order id, then its lines. The table stays valid because the order's
   * total is the cart's subtotal.
   */
  method InsertarPedido(db: Db, c: Cart.Cart, v: Venta)
    requires db.Valid() && v.id == db.nextVentaId && EstadosValidos(v) && v.total == Cart.Subtotal(c)
    requires InCatalogue(c, db.productos) && Cart.AllPositive(c)
    modifies db`ventas, db`lineas, db`nextVentaId, db`nextLineaId
    ensures db.Valid()
    ensures db.ventas == old(db.ventas)[v.id := v]
    ensures db.lineas == old(db.lineas) + CartLines(c, v.id, old(db.nextLineaId))
    ensures db.nextVentaId == v.id + 1 && db.nextLineaId == old(db.nextLineaId) + |c|
  {
    ghost var lineas, nl := db.lineas, db.nextLineaId;
    NoLinesOfNewOrder(db.lineas, db.ventas, db.nextVentaId, db.nextLineaId, db.productos);
    TotalsOkNewOrder(db.ventas, db.lineas, c, v, db.nextLineaId);
    RowsOkStore(db.lineas, db.ventas, db.nextLineaId, db.productos, v.id, v);
    VentasOkStore(db.ventas, v);
    db.ventas := db.ventas[v.id := v];
    db.nextVentaId := v.id + 1;
    InsertarLineas(db, c, v.id);
    assert VentasOk(db.ventas, db.nextVentaId);
    assert TotalsOk(db.ventas, db.lineas) by {
      assert db.lineas == lineas + CartLines(c, v.id, nl);
    }
  }

  /** Storing a valid order under the next order id keeps the order table valid for the id after it. */
  lemma VentasOkStore(ventas: map<int, Venta>, v: Venta)
    requires VentasOk(ventas, v.id) && v.id >= 1 && EstadosValidos(v)
    ensures VentasOk(ventas[v.id := v], v.id + 1)
  {
  }

  /** A larger next line id keeps the table well formed. */
  lemma RowsOkRaise(rows: seq<ProductoVenta>, ventas: map<int, Venta>, nl: int, nl': int, productos: map<int, Producto>)
    requires RowsOk(rows, ventas, nl, productos) && nl <= nl'
    ensures RowsOk(rows, ventas, nl', productos)
  {
  }

  /**
   * The commit of an edit to order `pid`: the new line table, and the
   * order's total recomputed from its lines. The edit may only have moved
   * the totals of order `pid`.
   */
  method GuardarEdicion(db: Db, pid: int, rows: seq<ProductoVenta>)
    requires db.Valid() && pid in db.ventas
    requires RowsOk(rows, db.ventas, db.nextLineaId, db.productos)
    requires forall v :: v != pid ==> OrderTotal(rows, v) == OrderTotal(db.lineas, v)
    modifies db`ventas, db`lineas
    ensures db.Valid()
    ensures db.lineas == rows
    ensures db.ventas == old(db.ventas)[pid := old(db.ventas[pid]).(total := OrderTotal(rows, pid))]
  {
    TotalsOkRecompute(db.ventas, db.lineas, rows, pid);
    var pedido := db.ventas[pid].(total := OrderTotal(rows, pid));
    RowsOkStore(rows, db.ventas, db.nextLineaId, db.productos, pid, pedido);
    db.lineas := rows;
    db.ventas := db.ventas[pid := pedido];
  }

  /** Hands out line ids up to `next`: the table stays valid. */
  method ReservarLineas(db: Db, next: int)
    requires db.Valid() && db.nextLineaId <= next
    modifies db`nextLineaId
    ensures db.Valid() && db.nextLineaId == next
  {
    RowsOkRaise(db.lineas, db.ventas, db.nextLineaId, next, db.productos);
    db.nextLineaId := next;
  }

  /** A line as the tickets see it, with its product's name. */
  function Snap(productos: map<int, Producto>, r: ProductoVenta): Printer.LineSnap
    requires r.productoId in productos
  {
    Printer.LineSnap(r.cantidad, productos[r.productoId].nombre, r.precioVenta)
  }

  function Snaps(productos: map<int, Producto>, rows: seq<ProductoVenta>): (ss: seq<Printer.LineSnap>)
    requires forall r :: r in rows ==> r.productoId in productos
    ensures |ss| == |rows|
  {
    seq(|rows|, k requires 0 <= k < |rows| => Snap(productos, rows[k]))
  }

  /** The cart as kitchen-ticket items: `list(carrito.values())`. */
  function ComandaItems(c: Cart.Cart): (items: seq<Printer.ComandaItem>)
    ensures |items| == |c|
    ensures forall k :: 0 <= k < |c| ==> items[k] == Printer.ComandaItem(c[k].cantidad, c[k].nombre)
  {
    seq(|c|, k requires 0 <= k < |c| => Printer.ComandaItem(c[k].cantidad, c[k].nombre))
  }

  // ----- the session -----

  /** `session['pedido_data']`: courier, comments and estimated time (None when unset; the courier also for the empty choice). */
  datatype PedidoData = PedidoData(repartidor: Option<int>, comentarios: Option<string>, tiempoEstimado: Option<string>)

  class Session {
    /** `carrito`: the delivery cart being filled. */
    var carrito: Cart.Cart
    /** `costo_envio`; None when unset (read as 0). */
    var costoEnvio: Option<int>
    /** `cliente_data.get('id')`; None when unset. */
    var clienteId: Option<int>
    var pedidoData: PedidoData
    /** `carrito_mostrador` */
    var carritoMostrador: Cart.Cart
    /** `cliente_mostrador`; None when unset. */
    var clienteMostrador: Option<string>
    /** `comentarios_mostrador`; None when unset. */
    var comentariosMostrador: Option<string>
    /** `carrito_temp_<id>`: products about to be added to order `id` (absent: empty). */
    var carritoTemp: map<int, Cart.Cart>
    /** `eliminar_<id>`: line ids marked for removal from order `id` (absent: empty). */
    var eliminar: map<int, seq<int>>

    ghost predicate Valid()
      reads this
    {
      && Cart.WellFormed(carrito)
      && Cart.WellFormed(carritoMostrador)
      && (forall id :: id in carritoTemp ==> Cart.WellFormed(carritoTemp[id]))
      && (forall id :: id in eliminar ==> NoDuplicates(eliminar[id]))
    }

    constructor ()
      ensures Valid()
      ensures carrito == [] && costoEnvio.None? && clienteId.None?
      ensures pedidoData == PedidoData(None, None, None)
      ensures carritoMostrador == [] && clienteMostrador.None? && comentariosMostrador.None?
      ensures carritoTemp == map[] && eliminar == map[]
    {
      carrito := [];
      costoEnvio := None;
      clienteId := None;
      pedidoData := PedidoData(None, None, None);
      carritoMostrador := [];
      clienteMostrador := None;
      comentariosMostrador := None;
      carritoTemp := map[];
      eliminar := map[];
    }

    /** The `session.pop` calls after a delivery order is placed: cart, client, order data and shipping cost. */
    method LimpiarDelivery()
      requires Valid()
      modifies this`carrito, this`clienteId, this`pedidoData, this`costoEnvio
      ensures Valid()
      ensures carrito == [] && clienteId.None? && pedidoData == PedidoData(None, None, None) && costoEnvio.None?
    {
      carrito := [];
      clienteId := None;
      pedidoData := PedidoData(None, None, None);
      costoEnvio := None;
    }

    /** The `session.pop` calls after a counter order is saved: cart, client name and comments. */
    method LimpiarMostrador()
      requires Valid()
      modifies this`carritoMostrador, this`clienteMostrador, this`comentariosMostrador
      ensures Valid()
      ensures carritoMostrador == [] && clienteMostrador.None? && comentariosMostrador.None?
    {
      carritoMostrador := [];
      clienteMostrador := None;
      comentariosMostrador := None;
    }

    /** `session.pop(f'carrito_temp_{id}')` */
    method DescartarTemp(id: int)
      requires Valid()
      modifies this`carritoTemp
      ensures Valid() && carritoTemp == old(carritoTemp) - {id}
    {
      carritoTemp := carritoTemp - {id};
    }

    /** `session.pop(f'eliminar_{id}')` */
    method DescartarPendientes(id: int)
      requires Valid()
      modifies this`eliminar
      ensures Valid() && eliminar == old(eliminar) - {id}
    {
      eliminar := eliminar - {id};
    }

    /** `session.get(f'carrito_temp_{id}', {})` */
    function Temp(id: int): Cart.Cart
      reads this
    {
      if id in carritoTemp then carritoTemp[id] else []
    }

    /** `session.get(f'eliminar_{id}', [])` */
    function Pendientes(id: int): seq<int>
      reads this
    {
      if id in eliminar then eliminar[id] else []
    }
  }

  predicate NoDuplicates<T(==)>(xs: seq<T>) {
    forall i, j :: 0 <= i < j < |xs| ==> xs[i] != xs[j]
  }

  /** Python's `list.remove(x)`: drops the first occurrence of `x` (the list is unchanged when `x` is absent). */
  function RemoveFirst<T(==)>(xs: seq<T>, x: T): (r: seq<T>)
    ensures multiset(r) == multiset(xs) - multiset{x}
    decreases |xs|
  {
    if xs == [] then []
    else
      assert xs == [xs[0]] + xs[1..];
      if xs[0] == x then xs[1..] else [xs[0]] + RemoveFirst(xs[1..], x)
  }

  /** On a list without repeats, removing `x` leaves no `x`, keeps everything else and keeps the list repeat-free. */
  lemma RemoveFirstSpec<T>(xs: seq<T>, x: T)
    requires NoDuplicates(xs)
    ensures x !in RemoveFirst(xs, x)
    ensures forall y :: y != x ==> (y in RemoveFirst(xs, x) <==> y in xs)
    ensures NoDuplicates(RemoveFirst(xs, x))
  {
    var r := RemoveFirst(xs, x);
    NoDuplicatesCount(xs);
    RemoveFirstHas(xs, x, x);
    forall y | y != x
      ensures y in r <==> y in xs
    {
      RemoveFirstHas(xs, x, y);
    }
    forall i, j | 0 <= i < j < |r|
      ensures r[i] != r[j]
    {
      if r[i] == r[j] {
        MultisetAtLeastTwo(r, i, j);
        assert false;
      }
    }
  }

  /** Membership after the removal, read off the element counts. */
  lemma RemoveFirstHas<T>(xs: seq<T>, x: T, y: T)
    requires forall z :: multiset(xs)[z] <= 1
    ensures y in RemoveFirst(xs, x) <==> y in xs && y != x
  {
    var r := RemoveFirst(xs, x);
    assert y in r <==> multiset(r)[y] > 0;
    assert y in xs <==> multiset(xs)[y] > 0;
  }

  /** In a list without repeats every element occurs once. */
  lemma {:induction false} NoDuplicatesCount<T>(xs: seq<T>)
    requires NoDuplicates(xs)
    ensures forall y :: multiset(xs)[y] <= 1
    decreases |xs|
  {
    if xs != [] {
      NoDuplicatesCount(xs[1..]);
      assert xs == [xs[0]] + xs[1..];
      assert xs[0] !in xs[1..];
    }
  }

  /** Two equal entries at different positions make the element occur at least twice. */
  lemma MultisetAtLeastTwo<T>(xs: seq<T>, i: nat, j: nat)
    requires i < j < |xs| && xs[i] == xs[j]
    ensures multiset(xs)[xs[i]] >= 2
  {
    assert xs == xs[..j] + [xs[j]] + xs[j + 1..];
    assert xs[i] in xs[..j];
  }

  /** The product name a ticket shows for line `r` (empty when the product is not in the catalogue). */
  function NombreDe(productos: map<int, Producto>, r: ProductoVenta): string {
    if r.productoId in productos then productos[r.productoId].nombre else ""
  }
}
