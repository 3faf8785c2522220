/**
 * The helper functions of `utils/helpers_db.py`: the price of a product
 * with its selected attribute values, the order line built from that
 * price, and the grouping of the attribute query's rows by attribute.
 * The catalogue is a map from product id to price in whole pesos; the
 * query result is given as its rows in query order.
 */
module HelpersDb {
  import opened Wrappers
  import opened Text

  // ----- `calcular_precio_con_atributos` -----

  /** One entry of an attribute's 'valores' list: its 'precio' key, None when it is missing. */
  datatype ValorSel = ValorSel(precio: Option<int>)

  /** One selected attribute: its 'valores' list, None when the key is missing. */
  datatype AtributoSel = AtributoSel(valores: Option<seq<ValorSel>>)

  /** `valor.get('precio', 0)` */
  function PrecioValor(v: ValorSel): int { v.precio.GetOr(0) }

  /** Σ of the prices of a list of values. */
  function SumaValores(vs: seq<ValorSel>): int
    decreases |vs|
  {
    if vs == [] then 0 else SumaValores(vs[..|vs| - 1]) + PrecioValor(vs[|vs| - 1])
  }

  /** `atributo.get('valores', [])`: the prices of one attribute's values. */
  function ExtrasAtributo(a: AtributoSel): int {
    if a.valores.Some? then SumaValores(a.valores.value) else 0
  }

  /** Σ over the selected attributes of Σ over their values of the value's price. */
  function SumaExtras(sel: seq<AtributoSel>): int
    decreases |sel|
  {
    if sel == [] then 0 else SumaExtras(sel[..|sel| - 1]) + ExtrasAtributo(sel[|sel| - 1])
  }

  /** The extras of two selections made one after the other add up. */
  lemma {:induction false} SumaExtrasConcat(a: seq<AtributoSel>, b: seq<AtributoSel>)
    ensures SumaExtras(a + b) == SumaExtras(a) + SumaExtras(b)
    decreases |b|
  {
    if b == [] {
      assert a + b == a;
    } else {
      SumaExtrasConcat(a, b[..|b| - 1]);
      assert (a + b)[..|a + b| - 1] == a + b[..|b| - 1];
    }
  }

  /** With no negative value price, the extras never lower the price. */
  lemma {:induction false} SumaExtrasNoNegativa(sel: seq<AtributoSel>)
    requires forall i :: 0 <= i < |sel| ==> sel[i].valores.Some? ==>
      forall j :: 0 <= j < |sel[i].valores.value| ==> PrecioValor(sel[i].valores.value[j]) >= 0
    ensures SumaExtras(sel) >= 0
    decreases |sel|
  {
    if sel != [] {
      SumaExtrasNoNegativa(sel[..|sel| - 1]);
      var a := sel[|sel| - 1];
      if a.valores.Some? {
        SumaValoresNoNegativa(a.valores.value);
      }
    }
  }

  lemma {:induction false} SumaValoresNoNegativa(vs: seq<ValorSel>)
    requires forall j :: 0 <= j < |vs| ==> PrecioValor(vs[j]) >= 0
    ensures SumaValores(vs) >= 0
    decreases |vs|
  {
    if vs != [] {
      SumaValoresNoNegativa(vs[..|vs| - 1]);
    }
  }

  /**
   * `calcular_precio_con_atributos`: None for a product that does not
   * exist; otherwise its price plus, over every selected attribute, the
   * prices of its values, accumulated value by value.
   */
  method CalcularPrecioConAtributos(precios: map<int, int>, productoId: int, sel: seq<AtributoSel>) returns (r: Option<int>)
    ensures productoId !in precios ==> r.None?
    ensures productoId in precios ==> r == Some(precios[productoId] + SumaExtras(sel))
    ensures productoId in precios && sel == [] ==> r == Some(precios[productoId])
  {
    if productoId !in precios {
      return None;
    }
    var extras := 0;
    var i := 0;
    while i < |sel|
      invariant 0 <= i <= |sel|
      invariant extras == SumaExtras(sel[..i])
    {
      var vs := if sel[i].valores.Some? then sel[i].valores.value else [];
      var parcial := extras;
      var j := 0;
      while j < |vs|
        invariant 0 <= j <= |vs|
        invariant extras == parcial + SumaValores(vs[..j])
      {
        assert vs[..j + 1][..j] == vs[..j];
        extras := extras + PrecioValor(vs[j]);
        j := j + 1;
      }
      assert vs[..j] == vs;
      assert sel[..i + 1][..i] == sel[..i];
      i := i + 1;
    }
    assert sel[..i] == sel;
    return Some(precios[productoId] + extras);
  }

  // ----- `crear_producto_venta_con_atributos` -----

  /** The `ProductoVenta` the helper builds (its id is assigned when the session flushes). */
  datatype LineaNueva = LineaNueva(
    ventaId: int,
    productoId: int,
    cantidad: int,
    precioVenta: int,
    atributosSeleccionados: seq<AtributoSel>)

  datatype Creacion = Creada(linea: LineaNueva) | ValueError(mensaje: string)

  /**
   * `crear_producto_venta_con_atributos`: ValueError naming the product
   * when it does not exist; otherwise a line at the price with the
   * selected extras, storing the selection as it was given.
   */
  method CrearProductoVentaConAtributos(precios: map<int, int>, ventaId: int, productoId: int, cantidad: int, sel: seq<AtributoSel>)
    returns (r: Creacion)
    ensures productoId !in precios ==> r == ValueError("Producto " + IntToString(productoId) + " no encontrado")
    ensures productoId in precios ==>
      r == Creada(LineaNueva(ventaId, productoId, cantidad, precios[productoId] + SumaExtras(sel), sel))
  {
    var precio := CalcularPrecioConAtributos(precios, productoId, sel);
    if precio.None? {
      return ValueError("Producto " + IntToString(productoId) + " no encontrado");
    }
    return Creada(LineaNueva(ventaId, productoId, cantidad, precio.value, sel));
  }

  // ----- the grouping in `obtener_atributos_producto` -----

  /** A row of the attribute query: the attribute's id, its dictionary and one of its values' dictionary. */
  datatype Fila<A, V> = Fila(atributoId: int, atributo: A, valor: V)

  /** One entry of the result: `{'atributo': …, 'valores': [...]}`. */
  datatype Grupo<A, V> = Grupo(atributoId: int, atributo: A, valores: seq<V>)

  /** The position of the first row of attribute `id`, or `|rows|` when it has none. */
  function Primera<A, V>(rows: seq<Fila<A, V>>, id: int): (k: nat)
    ensures k <= |rows|
    ensures k < |rows| ==> rows[k].atributoId == id
    ensures forall m :: 0 <= m < k ==> rows[m].atributoId != id
    decreases |rows|
  {
    if rows == [] then 0
    else if rows[0].atributoId == id then 0
    else 1 + Primera(rows[1..], id)
  }

  /** The position of the group of attribute `id`, or `|gs|` when there is none (the dictionary lookup). */
  function Posicion<A, V>(gs: seq<Grupo<A, V>>, id: int): (p: nat)
    ensures p <= |gs|
    ensures p < |gs| ==> gs[p].atributoId == id
    ensures forall j :: 0 <= j < p ==> gs[j].atributoId != id
    decreases |gs|
  {
    if gs == [] then 0
    else if gs[0].atributoId == id then 0
    else 1 + Posicion(gs[1..], id)
  }

  /** The values of the rows of attribute `id`, in row order. */
  function ValoresDe<A, V>(rows: seq<Fila<A, V>>, id: int): seq<V>
    decreases |rows|
  {
    if rows == [] then []
    else ValoresDe(rows[..|rows| - 1], id) + (if rows[|rows| - 1].atributoId == id then [rows[|rows| - 1].valor] else [])
  }

  /** Σ of the group sizes. */
  function TotalValores<A, V>(gs: seq<Grupo<A, V>>): nat
    decreases |gs|
  {
    if gs == [] then 0 else TotalValores(gs[..|gs| - 1]) + |gs[|gs| - 1].valores|
  }

  lemma {:induction false} ValoresDeAusente<A, V>(rows: seq<Fila<A, V>>, id: int)
    requires forall m :: 0 <= m < |rows| ==> rows[m].atributoId != id
    ensures ValoresDe(rows, id) == []
    decreases |rows|
  {
    if rows != [] {
      ValoresDeAusente(rows[..|rows| - 1], id);
    }
  }

  lemma {:induction false} TotalValoresCrece<A, V>(gs: seq<Grupo<A, V>>, p: nat, g: Grupo<A, V>)
    requires p < |gs| && |g.valores| == |gs[p].valores| + 1
    ensures TotalValores(gs[p := g]) == TotalValores(gs) + 1
    decreases |gs|
  {
    var n := |gs| - 1;
    if p < n {
      TotalValoresCrece(gs[..n], p, g);
      assert gs[p := g][..n] == gs[..n][p := g];
    } else {
      assert gs[p := g][..n] == gs[..n];
    }
  }

  /** Groups appear in the order of their attribute's first row. */
  ghost predicate Ordenados<A, V>(rows: seq<Fila<A, V>>, gs: seq<Grupo<A, V>>) {
    forall j, k :: 0 <= j < k < |gs| ==> Primera(rows, gs[j].atributoId) < Primera(rows, gs[k].atributoId)
  }

  /** The groups are those of the attributes met in the first `i` rows. */
  ghost predicate Vistos<A, V>(rows: seq<Fila<A, V>>, i: nat, gs: seq<Grupo<A, V>>) {
    && (forall j :: 0 <= j < |gs| ==> Primera(rows, gs[j].atributoId) < i)
    && (forall m {:trigger Posicion(gs, rows[m].atributoId)} :: 0 <= m < i <= |rows| ==> Posicion(gs, rows[m].atributoId) < |gs|)
  }

  /** Each group holds its attribute's values among the first `i` rows and the first row's attribute. */
  ghost predicate Llenos<A, V>(rows: seq<Fila<A, V>>, i: nat, gs: seq<Grupo<A, V>>)
    requires i <= |rows|
  {
    && (forall j :: 0 <= j < |gs| ==> gs[j].valores == ValoresDe(rows[..i], gs[j].atributoId))
    && (forall j :: 0 <= j < |gs| && Primera(rows, gs[j].atributoId) < |rows| ==>
          gs[j].atributo == rows[Primera(rows, gs[j].atributoId)].atributo)
  }

  /** One more row adds its value to its own attribute's values and to no other's. */
  lemma ValoresDeSnoc<A, V>(rows: seq<Fila<A, V>>, i: nat, id: int)
    requires i < |rows|
    ensures ValoresDe(rows[..i + 1], id) ==
      ValoresDe(rows[..i], id) + (if rows[i].atributoId == id then [rows[i].valor] else [])
  {
    assert rows[..i + 1][..i] == rows[..i];
  }

  /** The lookup finds a group whenever one has the attribute. */
  lemma PosicionHalla<A, V>(gs: seq<Grupo<A, V>>, q: nat, id: int)
    requires q < |gs| && gs[q].atributoId == id
    ensures Posicion(gs, id) <= q
  {
  }

  /** The groups as the loop leaves them after the first `i` rows. */
  ghost predicate Agrupado<A, V>(rows: seq<Fila<A, V>>, i: nat, gs: seq<Grupo<A, V>>)
    requires i <= |rows|
  {
    Ordenados(rows, gs) && Vistos(rows, i, gs) && Llenos(rows, i, gs) && TotalValores(gs) == i
  }

  /** Adding a value to group `p` keeps the groups' attributes, hence their order. */
  lemma AgregarOrdenados<A, V>(rows: seq<Fila<A, V>>, gs: seq<Grupo<A, V>>, p: nat, g: Grupo<A, V>)
    requires Ordenados(rows, gs) && p < |gs| && g.atributoId == gs[p].atributoId
    ensures Ordenados(rows, gs[p := g])
  {
    var gs' := gs[p := g];
    forall j, k | 0 <= j < k < |gs'|
      ensures Primera(rows, gs'[j].atributoId) < Primera(rows, gs'[k].atributoId)
    {
      assert gs'[j].atributoId == gs[j].atributoId && gs'[k].atributoId == gs[k].atributoId;
    }
  }

  /** Row `i` falls in the group `p` of its attribute: the attributes met are still exactly the grouped ones. */
  lemma AgregarVistos<A, V>(rows: seq<Fila<A, V>>, i: nat, gs: seq<Grupo<A, V>>, p: nat, g: Grupo<A, V>)
    requires i < |rows| && Vistos(rows, i, gs)
    requires p < |gs| && gs[p].atributoId == rows[i].atributoId && g.atributoId == gs[p].atributoId
    ensures Vistos(rows, i + 1, gs[p := g])
  {
    var gs' := gs[p := g];
    forall j | 0 <= j < |gs'|
      ensures Primera(rows, gs'[j].atributoId) < i + 1
    {
      assert gs'[j].atributoId == gs[j].atributoId;
    }
    forall m | 0 <= m < i + 1
      ensures Posicion(gs', rows[m].atributoId) < |gs'|
    {
      if m < i {
        var q := Posicion(gs, rows[m].atributoId);
        PosicionHalla(gs', q, rows[m].atributoId);
      } else {
        PosicionHalla(gs', p, rows[m].atributoId);
      }
    }
  }

  /** Row `i`'s value goes to the end of its attribute's group; the other groups keep theirs. */
  lemma {:induction false} AgregarLlenos<A, V>(rows: seq<Fila<A, V>>, i: nat, gs: seq<Grupo<A, V>>, p: nat)
    requires i < |rows| && Ordenados(rows, gs) && Llenos(rows, i, gs)
    requires p < |gs| && gs[p].atributoId == rows[i].atributoId
    ensures Llenos(rows, i + 1, gs[p := gs[p].(valores := gs[p].valores + [rows[i].valor])])
  {
    var gs' := gs[p := gs[p].(valores := gs[p].valores + [rows[i].valor])];
    forall j | 0 <= j < |gs'|
      ensures gs'[j].valores == ValoresDe(rows[..i + 1], gs'[j].atributoId)
    {
      ValoresDeSnoc(rows, i, gs[j].atributoId);
      if j != p {
        assert Primera(rows, gs[j].atributoId) != Primera(rows, gs[p].atributoId);
        assert gs'[j] == gs[j];
      }
    }
    assert forall j :: 0 <= j < |gs'| ==> gs'[j].atributoId == gs[j].atributoId && gs'[j].atributo == gs[j].atributo;
  }

  /** A row of an attribute already grouped goes to the end of that group. */
  lemma {:induction false} AgregarAlGrupo<A, V>(rows: seq<Fila<A, V>>, i: nat, gs: seq<Grupo<A, V>>, p: nat)
    requires i < |rows| && Agrupado(rows, i, gs)
    requires p == Posicion(gs, rows[i].atributoId) && p < |gs|
    ensures Agrupado(rows, i + 1, gs[p := gs[p].(valores := gs[p].valores + [rows[i].valor])])
  {
    var g := gs[p].(valores := gs[p].valores + [rows[i].valor]);
    AgregarOrdenados(rows, gs, p, g);
    AgregarVistos(rows, i, gs, p, g);
    AgregarLlenos(rows, i, gs, p);
    TotalValoresCrece(gs, p, g);
  }

  /** An attribute without a group has no row before row `i`, whose row is then its first. */
  lemma PrimeraNueva<A, V>(rows: seq<Fila<A, V>>, i: nat, gs: seq<Grupo<A, V>>)
    requires i < |rows| && Vistos(rows, i, gs)
    requires Posicion(gs, rows[i].atributoId) == |gs|
    ensures forall m :: 0 <= m < i ==> rows[m].atributoId != rows[i].atributoId
    ensures Primera(rows, rows[i].atributoId) == i
  {
    forall m | 0 <= m < i
      ensures rows[m].atributoId != rows[i].atributoId
    {
      var q := Posicion(gs, rows[m].atributoId);
      assert gs[q].atributoId == rows[m].atributoId;
    }
  }

  /** A new group for row `i`'s attribute goes last, after every group of an earlier attribute. */
  lemma AbrirOrdenados<A, V>(rows: seq<Fila<A, V>>, i: nat, gs: seq<Grupo<A, V>>, g: Grupo<A, V>)
    requires Ordenados(rows, gs) && Vistos(rows, i, gs)
    requires i < |rows| && Primera(rows, g.atributoId) == i
    ensures Ordenados(rows, gs + [g])
  {
    var gs' := gs + [g];
    forall j, k | 0 <= j < k < |gs'|
      ensures Primera(rows, gs'[j].atributoId) < Primera(rows, gs'[k].atributoId)
    {
      assert gs'[j] == gs[j];
      if k < |gs| {
        assert gs'[k] == gs[k];
      } else {
        assert gs'[k] == g;
        assert Primera(rows, gs[j].atributoId) < i;
      }
    }
  }

  /** The new group makes row `i`'s attribute one of the grouped ones. */
  lemma AbrirVistos<A, V>(rows: seq<Fila<A, V>>, i: nat, gs: seq<Grupo<A, V>>, g: Grupo<A, V>)
    requires i < |rows| && Vistos(rows, i, gs)
    requires g.atributoId == rows[i].atributoId && Primera(rows, g.atributoId) == i
    ensures Vistos(rows, i + 1, gs + [g])
  {
    var gs' := gs + [g];
    forall j | 0 <= j < |gs'|
      ensures Primera(rows, gs'[j].atributoId) < i + 1
    {
      if j < |gs| {
        assert gs'[j] == gs[j];
      }
    }
    forall m | 0 <= m < i + 1
      ensures Posicion(gs', rows[m].atributoId) < |gs'|
    {
      if m < i {
        var q := Posicion(gs, rows[m].atributoId);
        PosicionHalla(gs', q, rows[m].atributoId);
      } else {
        PosicionHalla(gs', |gs|, rows[m].atributoId);
      }
    }
  }

  /** The new group holds row `i`'s value only; the other groups gain nothing. */
  lemma {:induction false} AbrirLlenos<A, V>(rows: seq<Fila<A, V>>, i: nat, gs: seq<Grupo<A, V>>)
    requires i < |rows| && Llenos(rows, i, gs)
    requires forall m :: 0 <= m < i ==> rows[m].atributoId != rows[i].atributoId
    requires forall j :: 0 <= j < |gs| ==> gs[j].atributoId != rows[i].atributoId
    requires Primera(rows, rows[i].atributoId) == i
    ensures Llenos(rows, i + 1, gs + [Grupo(rows[i].atributoId, rows[i].atributo, [rows[i].valor])])
  {
    var id := rows[i].atributoId;
    var gs' := gs + [Grupo(id, rows[i].atributo, [rows[i].valor])];
    ValoresDeAusente(rows[..i], id);
    forall j | 0 <= j < |gs'|
      ensures gs'[j].valores == ValoresDe(rows[..i + 1], gs'[j].atributoId)
    {
      ValoresDeSnoc(rows, i, gs'[j].atributoId);
      if j < |gs| {
        assert gs'[j] == gs[j];
      }
    }
    forall j | 0 <= j < |gs'| && Primera(rows, gs'[j].atributoId) < |rows|
      ensures gs'[j].atributo == rows[Primera(rows, gs'[j].atributoId)].atributo
    {
      if j < |gs| {
        assert gs'[j] == gs[j];
      }
    }
  }

  /** A row of an attribute not yet seen opens a new group at the end. */
  lemma {:induction false} AbrirGrupo<A, V>(rows: seq<Fila<A, V>>, i: nat, gs: seq<Grupo<A, V>>)
    requires i < |rows| && Agrupado(rows, i, gs)
    requires Posicion(gs, rows[i].atributoId) == |gs|
    ensures Agrupado(rows, i + 1, gs + [Grupo(rows[i].atributoId, rows[i].atributo, [rows[i].valor])])
  {
    var g := Grupo(rows[i].atributoId, rows[i].atributo, [rows[i].valor]);
    PrimeraNueva(rows, i, gs);
    AbrirOrdenados(rows, i, gs, g);
    AbrirVistos(rows, i, gs, g);
    AbrirLlenos(rows, i, gs);
    assert (gs + [g])[..|gs|] == gs;
  }

  /** Once every row is seen, the groups are the complete grouping. */
  lemma AgrupadoCompleto<A, V>(rows: seq<Fila<A, V>>, gs: seq<Grupo<A, V>>)
    requires Agrupado(rows, |rows|, gs)
    ensures forall j, k :: 0 <= j < k < |gs| ==> Primera(rows, gs[j].atributoId) < Primera(rows, gs[k].atributoId)
    ensures forall j :: 0 <= j < |gs| ==> Primera(rows, gs[j].atributoId) < |rows|
    ensures forall m :: 0 <= m < |rows| ==> Posicion(gs, rows[m].atributoId) < |gs|
    ensures forall j :: 0 <= j < |gs| ==> gs[j].valores == ValoresDe(rows, gs[j].atributoId)
    ensures forall j :: 0 <= j < |gs| ==> gs[j].atributo == rows[Primera(rows, gs[j].atributoId)].atributo
    ensures TotalValores(gs) == |rows|
  {
    assert rows[..|rows|] == rows;
  }

  /**
   * One turn of the grouping loop: row `i`'s value goes to the end of its
   * attribute's group, or opens a new last group when the attribute has
   * none yet; the groups then cover the first `i + 1` rows.
   */
  method AgregarFila<A, V>(rows: seq<Fila<A, V>>, i: nat, gs: seq<Grupo<A, V>>) returns (r: seq<Grupo<A, V>>)
    requires i < |rows| && Agrupado(rows, i, gs)
    ensures Agrupado(rows, i + 1, r)
    ensures |r| == if Posicion(gs, rows[i].atributoId) < |gs| then |gs| else |gs| + 1
  {
    var p := Posicion(gs, rows[i].atributoId);
    if p < |gs| {
      AgregarAlGrupo(rows, i, gs, p);
      r := gs[p := gs[p].(valores := gs[p].valores + [rows[i].valor])];
    } else {
      AbrirGrupo(rows, i, gs);
      r := gs + [Grupo(rows[i].atributoId, rows[i].atributo, [rows[i].valor])];
    }
  }

  /**
   * The grouping loop of `obtener_atributos_producto`: one group per
   * distinct attribute, in the order of the attribute's first row, holding
   * that first row's attribute dictionary and all of the attribute's values
   * in row order; no row is lost or counted twice.
   */
  method AgruparAtributos<A, V>(rows: seq<Fila<A, V>>) returns (gs: seq<Grupo<A, V>>)
    ensures forall j, k :: 0 <= j < k < |gs| ==> Primera(rows, gs[j].atributoId) < Primera(rows, gs[k].atributoId)
    ensures forall j :: 0 <= j < |gs| ==> Primera(rows, gs[j].atributoId) < |rows|
    ensures forall m :: 0 <= m < |rows| ==> Posicion(gs, rows[m].atributoId) < |gs|
    ensures forall j :: 0 <= j < |gs| ==> gs[j].valores == ValoresDe(rows, gs[j].atributoId)
    ensures forall j :: 0 <= j < |gs| ==> gs[j].atributo == rows[Primera(rows, gs[j].atributoId)].atributo
    ensures TotalValores(gs) == |rows|
  {
    gs := [];
    var i := 0;
    while i < |rows|
      invariant 0 <= i <= |rows|
      invariant Agrupado(rows, i, gs)
    {
      gs := AgregarFila(rows, i, gs);
      i := i + 1;
    }
    AgrupadoCompleto(rows, gs);
  }
}
