/**
 * The session carts of both sales channels (`carrito`, `carrito_mostrador`
 * and the per-order `carrito_temp_<id>`): insertion-ordered dictionaries from
 * a product id to `{'id', 'nombre', 'precio', 'cantidad'}`. A dictionary is a
 * sequence of entries whose keys are pairwise distinct; the handlers replace
 * the session value by the result of these functions.
 */
module Cart {
  import opened Wrappers

  datatype CartItem = CartItem(id: int, nombre: string, precio: int, cantidad: int)

  type Cart = seq<CartItem>

  /** Position of key `k` (the first one), or `|c|` when the key is absent. */
  function IndexOf(c: Cart, k: int): (r: nat)
    ensures r <= |c|
    ensures r < |c| ==> c[r].id == k
    ensures forall j :: 0 <= j < r ==> c[j].id != k
    decreases |c|
  {
    if c == [] then 0
    else if c[0].id == k then 0
    else 1 + IndexOf(c[1..], k)
  }

  /** `k in carrito` */
  predicate Has(c: Cart, k: int) {
    IndexOf(c, k) < |c|
  }

  /** `carrito.get(k)` */
  function Get(c: Cart, k: int): Option<CartItem> {
    if Has(c, k) then Some(c[IndexOf(c, k)]) else None
  }

  /** The keys in insertion order (`list(carrito.keys())`). */
  function Ids(c: Cart): (ks: seq<int>)
    ensures |ks| == |c| && forall i :: 0 <= i < |c| ==> ks[i] == c[i].id
  {
    seq(|c|, i requires 0 <= i < |c| => c[i].id)
  }

  predicate UniqueIds(c: Cart) {
    forall i, j :: 0 <= i < j < |c| ==> c[i].id != c[j].id
  }

  predicate AllPositive(c: Cart) {
    forall i :: 0 <= i < |c| ==> c[i].cantidad >= 1
  }

  /** A dictionary (distinct keys) in which every entry has a positive quantity. */
  predicate WellFormed(c: Cart) {
    UniqueIds(c) && AllPositive(c)
  }

  /** The sequence without its element at position `i` (`del c[i]`; also the table without one row). */
  function Delete<T>(c: seq<T>, i: nat): (d: seq<T>)
    requires i < |c|
    ensures |d| == |c| - 1
    ensures forall j :: 0 <= j < |d| ==> d[j] == (if j < i then c[j] else c[j + 1])
  {
    c[..i] + c[i + 1..]
  }

  /** `item['precio'] * item['cantidad']` */
  function LineTotal(it: CartItem): int {
    it.precio * it.cantidad
  }

  /** Σ precio·cantidad over the entries. */
  function Subtotal(c: Cart): int
    decreases |c|
  {
    if c == [] then 0 else Subtotal(c[..|c| - 1]) + LineTotal(c[|c| - 1])
  }

  /**
   * Adding a product: an existing key gets one more unit (its name and price
   * stay as first added); a new key is appended with quantity 1.
   */
  function Add(c: Cart, k: int, nombre: string, precio: int): Cart {
    var i := IndexOf(c, k);
    if i < |c| then c[i := c[i].(cantidad := c[i].cantidad + 1)]
    else c + [CartItem(k, nombre, precio, 1)]
  }

  /** `carrito[k]['cantidad'] += 1` when `k` is present. */
  function Increase(c: Cart, k: int): Cart {
    var i := IndexOf(c, k);
    if i < |c| then c[i := c[i].(cantidad := c[i].cantidad + 1)] else c
  }

  /** `carrito[k]['cantidad'] -= 1` when `k` is present, deleting the entry at ≤ 0. */
  function Decrease(c: Cart, k: int): Cart {
    var i := IndexOf(c, k);
    if i < |c| then
      if c[i].cantidad - 1 <= 0 then Delete(c, i)
      else c[i := c[i].(cantidad := c[i].cantidad - 1)]
    else c
  }

  /** `del carrito[k]` when `k` is present. */
  function Remove(c: Cart, k: int): Cart {
    var i := IndexOf(c, k);
    if i < |c| then Delete(c, i) else c
  }

  /** The `actualizar_cantidad` dispatch: 'aumentar', 'disminuir', anything else is ignored. */
  function Adjust(c: Cart, k: int, accion: string): Cart {
    if accion == "aumentar" then Increase(c, k)
    else if accion == "disminuir" then Decrease(c, k)
    else c
  }

  // ----- lemmas -----

  /** In a dictionary, looking a key up finds the one entry with that key, and nothing when none has it. */
  lemma {:induction false} GetChar(c: Cart, k: int)
    requires UniqueIds(c)
    ensures forall j :: 0 <= j < |c| && c[j].id == k ==> Get(c, k) == Some(c[j])
    ensures Get(c, k).None? <==> forall j :: 0 <= j < |c| ==> c[j].id != k
  {
  }

  lemma {:induction false} SubtotalConcat(a: Cart, b: Cart)
    ensures Subtotal(a + b) == Subtotal(a) + Subtotal(b)
    decreases |b|
  {
    if b == [] {
      assert a + b == a;
    } else {
      SubtotalConcat(a, b[..|b| - 1]);
      assert (a + b)[..|a + b| - 1] == a + b[..|b| - 1];
    }
  }

  /** Replacing the entry at `i` by one with the same key. */
  lemma UpdateAt(c: Cart, i: nat, x: CartItem)
    requires UniqueIds(c) && i < |c| && x.id == c[i].id
    ensures UniqueIds(c[i := x]) && Ids(c[i := x]) == Ids(c)
    ensures AllPositive(c) && x.cantidad >= 1 ==> AllPositive(c[i := x])
    ensures Get(c[i := x], x.id) == Some(x)
    ensures forall k :: k != x.id ==> Get(c[i := x], k) == Get(c, k)
    ensures Subtotal(c[i := x]) == Subtotal(c) - LineTotal(c[i]) + LineTotal(x)
  {
    var d := c[i := x];
    assert UniqueIds(d);
    GetChar(d, x.id);
    assert d[i] == x;
    forall k | k != x.id
      ensures Get(d, k) == Get(c, k)
    {
      UpdateOther(c, i, x, k);
    }
    UpdateSubtotal(c, i, x);
  }

  lemma UpdateOther(c: Cart, i: nat, x: CartItem, k: int)
    requires UniqueIds(c) && i < |c| && x.id == c[i].id && k != x.id
    ensures Get(c[i := x], k) == Get(c, k)
  {
    var d := c[i := x];
    assert UniqueIds(d);
    GetChar(c, k);
    GetChar(d, k);
    if j :| 0 <= j < |c| && c[j].id == k {
      assert d[j] == c[j];
    }
  }

  lemma UpdateSubtotal(c: Cart, i: nat, x: CartItem)
    requires i < |c|
    ensures Subtotal(c[i := x]) == Subtotal(c) - LineTotal(c[i]) + LineTotal(x)
  {
    var pre, post := c[..i], c[i + 1..];
    assert c == pre + [c[i]] + post;
    assert c[i := x] == pre + [x] + post;
    SubtotalConcat(pre + [c[i]], post);
    SubtotalConcat(pre + [x], post);
    SubtotalConcat(pre, [c[i]]);
    SubtotalConcat(pre, [x]);
  }

  /** Deleting the entry at `i`. */
  lemma DeleteAt(c: Cart, i: nat)
    requires UniqueIds(c) && i < |c|
    ensures UniqueIds(Delete(c, i))
    ensures AllPositive(c) ==> AllPositive(Delete(c, i))
    ensures Get(Delete(c, i), c[i].id).None?
    ensures forall k :: k != c[i].id ==> Get(Delete(c, i), k) == Get(c, k)
    ensures Subtotal(Delete(c, i)) == Subtotal(c) - LineTotal(c[i])
  {
    var d := Delete(c, i);
    DeleteKeeps(c, i);
    DeleteGone(c, i);
    forall k | k != c[i].id
      ensures Get(d, k) == Get(c, k)
    {
      DeleteOther(c, i, k);
    }
    DeleteSubtotal(c, i);
  }

  /** After deleting the entry at `i`, its key is absent. */
  lemma DeleteGone(c: Cart, i: nat)
    requires UniqueIds(c) && i < |c|
    ensures Get(Delete(c, i), c[i].id).None?
  {
    var d := Delete(c, i);
    DeleteKeeps(c, i);
    forall j | 0 <= j < |d|
      ensures d[j].id != c[i].id
    {
      assert d[j] == c[if j < i then j else j + 1];
    }
    GetChar(d, c[i].id);
  }

  /** Deleting an entry keeps the keys distinct and the quantities positive. */
  lemma DeleteKeeps(c: Cart, i: nat)
    requires i < |c|
    ensures UniqueIds(c) ==> UniqueIds(Delete(c, i))
    ensures AllPositive(c) ==> AllPositive(Delete(c, i))
  {
    var d := Delete(c, i);
    if UniqueIds(c) {
      forall a, b | 0 <= a < b < |d|
        ensures d[a].id != d[b].id
      {
        var a', b' := if a < i then a else a + 1, if b < i then b else b + 1;
        assert d[a] == c[a'] && d[b] == c[b'];
      }
    }
  }

  lemma DeleteOther(c: Cart, i: nat, k: int)
    requires UniqueIds(c) && i < |c| && k != c[i].id
    ensures Get(Delete(c, i), k) == Get(c, k)
  {
    var d := Delete(c, i);
    DeleteKeeps(c, i);
    GetChar(c, k);
    GetChar(d, k);
    if j :| 0 <= j < |c| && c[j].id == k {
      if j < i {
        assert d[j] == c[j];
      } else {
        assert d[j - 1] == c[j];
      }
    }
  }

  lemma DeleteSubtotal(c: Cart, i: nat)
    requires i < |c|
    ensures Subtotal(Delete(c, i)) == Subtotal(c) - LineTotal(c[i])
  {
    var pre, post := c[..i], c[i + 1..];
    var mid := [c[i]] + post;
    assert c == pre + mid;
    assert Delete(c, i) == pre + post;
    SubtotalConcat(pre, mid);
    SubtotalConcat([c[i]], post);
    SubtotalConcat(pre, post);
    assert [c[i]][..0] == [];
  }

  /** Appending an entry under a new key. */
  lemma AppendNew(c: Cart, x: CartItem)
    requires UniqueIds(c) && !Has(c, x.id)
    ensures UniqueIds(c + [x]) && Ids(c + [x]) == Ids(c) + [x.id]
    ensures AllPositive(c) && x.cantidad >= 1 ==> AllPositive(c + [x])
    ensures Get(c + [x], x.id) == Some(x)
    ensures forall k :: k != x.id ==> Get(c + [x], k) == Get(c, k)
    ensures Subtotal(c + [x]) == Subtotal(c) + LineTotal(x)
  {
    var d := c + [x];
    GetChar(c, x.id);
    assert UniqueIds(d);
    GetChar(d, x.id);
    assert d[|c|] == x;
    forall k | k != x.id
      ensures Get(d, k) == Get(c, k)
    {
      AppendOther(c, x, k);
    }
    assert d[..|d| - 1] == c;
  }

  lemma AppendOther(c: Cart, x: CartItem, k: int)
    requires UniqueIds(c) && UniqueIds(c + [x]) && k != x.id
    ensures Get(c + [x], k) == Get(c, k)
  {
    var d := c + [x];
    GetChar(c, k);
    GetChar(d, k);
    if j :| 0 <= j < |c| && c[j].id == k {
      assert d[j] == c[j];
    }
  }

  /**
   * Adding to the cart: an existing key gets cantidad + 1 and keeps its
   * name and price; a new key is inserted last with cantidad 1; no other
   * entry changes and the subtotal grows by the entry's price.
   */
  lemma AddSpec(c: Cart, k: int, nombre: string, precio: int)
    requires WellFormed(c)
    ensures WellFormed(Add(c, k, nombre, precio))
    ensures Get(c, k).Some? ==>
      Get(Add(c, k, nombre, precio), k) == Some(Get(c, k).value.(cantidad := Get(c, k).value.cantidad + 1))
      && Ids(Add(c, k, nombre, precio)) == Ids(c)
    ensures Get(c, k).None? ==>
      Get(Add(c, k, nombre, precio), k) == Some(CartItem(k, nombre, precio, 1))
      && Ids(Add(c, k, nombre, precio)) == Ids(c) + [k]
    ensures forall k' :: k' != k ==> Get(Add(c, k, nombre, precio), k') == Get(c, k')
    ensures Subtotal(Add(c, k, nombre, precio)) == Subtotal(c) + Get(Add(c, k, nombre, precio), k).value.precio
  {
    var i := IndexOf(c, k);
    if i < |c| {
      var x := c[i].(cantidad := c[i].cantidad + 1);
      assert Add(c, k, nombre, precio) == c[i := x];
      assert Get(c, k) == Some(c[i]) && x.id == k;
      assert Get(c, k).value.(cantidad := Get(c, k).value.cantidad + 1) == x;
      OneMoreUnit(c, i, x);
      assert Get(Add(c, k, nombre, precio), k) == Some(x);
    } else {
      var x := CartItem(k, nombre, precio, 1);
      assert Add(c, k, nombre, precio) == c + [x];
      assert Get(c, k) == None;
      NewEntry(c, x);
      assert Get(Add(c, k, nombre, precio), k) == Some(x);
    }
  }

  /** Adding keeps the cart well formed (the part of `AddSpec` the session needs). */
  lemma AddWellFormed(c: Cart, k: int, nombre: string, precio: int)
    requires WellFormed(c)
    ensures WellFormed(Add(c, k, nombre, precio))
  {
    AddSpec(c, k, nombre, precio);
  }

  /** One more unit of the entry at position `i`. */
  lemma OneMoreUnit(c: Cart, i: nat, x: CartItem)
    requires WellFormed(c) && i < |c| && x == c[i].(cantidad := c[i].cantidad + 1)
    ensures WellFormed(c[i := x]) && Ids(c[i := x]) == Ids(c)
    ensures Get(c[i := x], x.id) == Some(x)
    ensures forall k :: k != x.id ==> Get(c[i := x], k) == Get(c, k)
    ensures Subtotal(c[i := x]) == Subtotal(c) + x.precio
  {
    UpdateAt(c, i, x);
    OneMoreLineTotal(c[i].precio, c[i].cantidad);
  }

  lemma OneMoreLineTotal(precio: int, cantidad: int)
    ensures precio * (cantidad + 1) == precio * cantidad + precio
  {
  }

  /** A new entry with one unit, appended last. */
  lemma NewEntry(c: Cart, x: CartItem)
    requires WellFormed(c) && !Has(c, x.id) && x.cantidad == 1
    ensures WellFormed(c + [x]) && Ids(c + [x]) == Ids(c) + [x.id]
    ensures Get(c + [x], x.id) == Some(x)
    ensures forall k :: k != x.id ==> Get(c + [x], k) == Get(c, k)
    ensures Subtotal(c + [x]) == Subtotal(c) + x.precio
  {
    AppendNew(c, x);
  }

  /** Adding a new product twice leaves one entry with quantity 2, at the price first given. */
  lemma AddTwice(c: Cart, k: int, n1: string, p1: int, n2: string, p2: int)
    requires WellFormed(c) && !Has(c, k)
    ensures Get(Add(Add(c, k, n1, p1), k, n2, p2), k) == Some(CartItem(k, n1, p1, 2))
    ensures Ids(Add(Add(c, k, n1, p1), k, n2, p2)) == Ids(c) + [k]
  {
    AddSpec(c, k, n1, p1);
    AddSpec(Add(c, k, n1, p1), k, n2, p2);
  }

  /**
   * 'aumentar' adds one unit and 'disminuir' takes one away, deleting the
   * entry at ≤ 0; an absent key or any other action leaves the cart as it
   * was; other entries never change and no entry with quantity ≤ 0 survives.
   */
  lemma AdjustSpec(c: Cart, k: int, accion: string)
    requires WellFormed(c)
    ensures WellFormed(Adjust(c, k, accion))
    ensures Get(c, k).None? || (accion != "aumentar" && accion != "disminuir") ==> Adjust(c, k, accion) == c
    ensures Get(c, k).Some? && accion == "aumentar" ==>
      Get(Adjust(c, k, accion), k) == Some(Get(c, k).value.(cantidad := Get(c, k).value.cantidad + 1))
    ensures Get(c, k).Some? && accion == "disminuir" && Get(c, k).value.cantidad > 1 ==>
      Get(Adjust(c, k, accion), k) == Some(Get(c, k).value.(cantidad := Get(c, k).value.cantidad - 1))
    ensures Get(c, k).Some? && accion == "disminuir" && Get(c, k).value.cantidad <= 1 ==>
      Get(Adjust(c, k, accion), k).None?
    ensures forall k' :: k' != k ==> Get(Adjust(c, k, accion), k') == Get(c, k')
  {
    if accion == "aumentar" {
      IncreaseSpec(c, k);
    } else if accion == "disminuir" {
      DecreaseSpec(c, k);
    }
  }

  /** 'aumentar': one more unit of a present key; nothing else changes. */
  lemma IncreaseSpec(c: Cart, k: int)
    requires WellFormed(c)
    ensures WellFormed(Increase(c, k))
    ensures Get(c, k).None? ==> Increase(c, k) == c
    ensures Get(c, k).Some? ==>
      Get(Increase(c, k), k) == Some(Get(c, k).value.(cantidad := Get(c, k).value.cantidad + 1))
    ensures forall k' :: k' != k ==> Get(Increase(c, k), k') == Get(c, k')
  {
    var i := IndexOf(c, k);
    if i < |c| {
      assert Get(c, k) == Some(c[i]);
      var x := c[i].(cantidad := c[i].cantidad + 1);
      assert Increase(c, k) == c[i := x];
      UpdateAt(c, i, x);
    } else {
      assert Get(c, k) == None;
    }
  }

  /** 'disminuir': one unit less of a present key, deleting it at ≤ 0; nothing else changes. */
  lemma DecreaseSpec(c: Cart, k: int)
    requires WellFormed(c)
    ensures WellFormed(Decrease(c, k))
    ensures Get(c, k).None? ==> Decrease(c, k) == c
    ensures Get(c, k).Some? && Get(c, k).value.cantidad > 1 ==>
      Get(Decrease(c, k), k) == Some(Get(c, k).value.(cantidad := Get(c, k).value.cantidad - 1))
    ensures Get(c, k).Some? && Get(c, k).value.cantidad <= 1 ==> Get(Decrease(c, k), k).None?
    ensures forall k' :: k' != k ==> Get(Decrease(c, k), k') == Get(c, k')
  {
    var i := IndexOf(c, k);
    if i < |c| {
      assert Get(c, k) == Some(c[i]);
      if c[i].cantidad - 1 <= 0 {
        assert Decrease(c, k) == Delete(c, i);
        DeleteAt(c, i);
      } else {
        var x := c[i].(cantidad := c[i].cantidad - 1);
        assert Decrease(c, k) == c[i := x];
        UpdateAt(c, i, x);
      }
    } else {
      assert Get(c, k) == None;
    }
  }

  /**
   * Removing deletes exactly the given key (nothing when absent), keeps the
   * others, and takes that entry's precio·cantidad off the subtotal.
   */
  lemma RemoveSpec(c: Cart, k: int)
    requires WellFormed(c)
    ensures WellFormed(Remove(c, k))
    ensures Get(Remove(c, k), k).None?
    ensures Get(c, k).None? ==> Remove(c, k) == c
    ensures forall k' :: k' != k ==> Get(Remove(c, k), k') == Get(c, k')
    ensures Subtotal(Remove(c, k)) == Subtotal(c) - (if Get(c, k).Some? then LineTotal(Get(c, k).value) else 0)
  {
    var i := IndexOf(c, k);
    GetChar(c, k);
    if i < |c| {
      DeleteAt(c, i);
    }
  }
}
