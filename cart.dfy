/** The sale in progress held by the browser (frontend/src/context/CartContext.tsx):
    an ordered list of lines, at most one per product, and the selected client,
    whose price tier decides the unit price of every line. */
module Cart {
  import opened Wrappers
  import opened Domain

  /** The product fields the cart reads (frontend/src/types/index.ts:16-28);
      prices are non-negative cents, as the server stores them. */
  datatype Producto = Producto(
    productoId: int,
    nombre: string,
    precioVenta: nat,
    precioMayorista: nat,
    precioCosto: nat,
    cantidadStock: int)

  datatype Cliente = Cliente(clienteId: int, nombreCompleto: string, nivelPrecioAsignado: NivelPrecio)

  /** A cart line: a snapshot of the product taken when it was first added, the
      quantity, the unit price being charged and the line amount. */
  datatype CartItem = CartItem(producto: Producto, cantidad: int, precioAplicado: int, subtotal: int)

  /** The price field each tier designates. */
  function PrecioDeNivel(p: Producto, nivel: NivelPrecio): nat {
    match nivel
    case Publico => p.precioVenta
    case Mayorista => p.precioMayorista
    case Costo => p.precioCosto
  }

  /** The tier that applies: the selected client's, or Publico when none is selected. */
  function NivelDe(c: Option<Cliente>): NivelPrecio {
    match c
    case Some(cl) => cl.nivelPrecioAsignado
    case None => Publico
  }

  /** `getPrecioCorrecto`: an if-chain on the client's tier. */
  function GetPrecioCorrecto(p: Producto, c: Option<Cliente>): (r: nat)
    ensures r == PrecioDeNivel(p, NivelDe(c))
    ensures r == p.precioVenta || r == p.precioMayorista || r == p.precioCosto
    ensures c.None? ==> r == p.precioVenta
  {
    if c.Some? && c.value.nivelPrecioAsignado == Mayorista then p.precioMayorista
    else if c.Some? && c.value.nivelPrecioAsignado == Costo then p.precioCosto
    else p.precioVenta
  }

  function IdDe(it: CartItem): int {
    it.producto.productoId
  }

  predicate InCart(items: seq<CartItem>, id: int) {
    exists i | 0 <= i < |items| :: IdDe(items[i]) == id
  }

  /** Every line has a positive quantity and `subtotal = cantidad * precioAplicado`. */
  predicate LineasConsistentes(items: seq<CartItem>) {
    forall i | 0 <= i < |items| ::
      items[i].cantidad >= 1 && items[i].subtotal == items[i].cantidad * items[i].precioAplicado
  }

  /** At most one line per product. */
  predicate SinDuplicados(items: seq<CartItem>) {
    forall i, j | 0 <= i < j < |items| :: IdDe(items[i]) != IdDe(items[j])
  }

  predicate CarritoValido(items: seq<CartItem>) {
    LineasConsistentes(items) && SinDuplicados(items)
  }

  /** Every line is priced from its own product snapshot by the tier of client c. */
  predicate PreciosVigentes(items: seq<CartItem>, c: Option<Cliente>) {
    forall i | 0 <= i < |items| :: items[i].precioAplicado == GetPrecioCorrecto(items[i].producto, c)
  }

  /** `totalVenta`: the sum of the line amounts. */
  function Total(items: seq<CartItem>): int
    decreases |items|
  {
    if items == [] then 0 else items[0].subtotal + Total(items[1..])
  }

  /** The existing line of product `id` gets one more unit, at unit price `precio`
      (`agregarProducto`, lines 43-53). */
  function Incrementar(items: seq<CartItem>, id: int, precio: int): seq<CartItem> {
    seq(|items|, i requires 0 <= i < |items| =>
      if IdDe(items[i]) == id
      then items[i].(cantidad := items[i].cantidad + 1, precioAplicado := precio,
                     subtotal := (items[i].cantidad + 1) * precio)
      else items[i])
  }

  /** `agregarProducto(producto)` with the tier price `precio` already resolved. */
  function Agregar(items: seq<CartItem>, p: Producto, precio: int): seq<CartItem> {
    if InCart(items, p.productoId) then Incrementar(items, p.productoId, precio)
    else items + [CartItem(p, 1, precio, precio)]
  }

  /** `eliminarProducto(id)`: `items.filter(item => item.productoId !== id)`. */
  function Eliminar(items: seq<CartItem>, id: int): seq<CartItem>
    decreases |items|
  {
    if items == [] then []
    else (if IdDe(items[0]) == id then [] else [items[0]]) + Eliminar(items[1..], id)
  }

  /** `actualizarCantidad(id, cantidad)`. */
  function ActualizarCantidad(items: seq<CartItem>, id: int, cantidad: int): seq<CartItem> {
    if cantidad <= 0 then Eliminar(items, id)
    else
      seq(|items|, i requires 0 <= i < |items| =>
        if IdDe(items[i]) == id
        then items[i].(cantidad := cantidad, subtotal := items[i].precioAplicado * cantidad)
        else items[i])
  }

  /** The repricing pass of `seleccionarCliente(c)`. */
  function Recalcular(items: seq<CartItem>, c: Option<Cliente>): seq<CartItem> {
    seq(|items|, i requires 0 <= i < |items| =>
      var nuevoPrecio := GetPrecioCorrecto(items[i].producto, c);
      items[i].(precioAplicado := nuevoPrecio, subtotal := items[i].cantidad * nuevoPrecio))
  }

  // ---------------------------------------------------------------- totals

  lemma {:induction false} TotalAppend(items: seq<CartItem>, x: CartItem)
    ensures Total(items + [x]) == Total(items) + x.subtotal
    decreases |items|
  {
    if items != [] {
      assert (items + [x])[1..] == items[1..] + [x];
      TotalAppend(items[1..], x);
    }
  }

  lemma {:induction false} TotalUpdate(items: seq<CartItem>, k: nat, x: CartItem)
    requires k < |items|
    ensures Total(items[k := x]) == Total(items) - items[k].subtotal + x.subtotal
    decreases |items|
  {
    if k > 0 {
      assert items[k := x][1..] == items[1..][k - 1 := x];
      TotalUpdate(items[1..], k - 1, x);
    } else {
      assert items[k := x][1..] == items[1..];
    }
  }

  lemma {:induction false} TotalConcat(a: seq<CartItem>, b: seq<CartItem>)
    ensures Total(a + b) == Total(a) + Total(b)
    decreases |a|
  {
    if a == [] {
      assert a + b == b;
    } else {
      assert (a + b)[1..] == a[1..] + b;
      TotalConcat(a[1..], b);
    }
  }

  // ---------------------------------------------------------------- agregarProducto

  /** Adding a product not in the cart appends exactly one line with quantity 1,
      unit price and amount equal to the tier price; the earlier lines stay. */
  lemma AgregarNuevo(items: seq<CartItem>, p: Producto, precio: nat)
    requires CarritoValido(items)
    requires !InCart(items, p.productoId)
    ensures var r := Agregar(items, p, precio);
      |r| == |items| + 1 && r[..|items|] == items && r[|items|] == CartItem(p, 1, precio, precio)
      && CarritoValido(r) && InCart(r, p.productoId)
      && Total(r) == Total(items) + precio
  {
    var r := Agregar(items, p, precio);
    assert r == items + [CartItem(p, 1, precio, precio)];
    assert r[..|items|] == items;
    TotalAppend(items, CartItem(p, 1, precio, precio));
    assert IdDe(r[|items|]) == p.productoId;
  }

  /** The index of the line of product `id`, when there is one. */
  lemma LineaDe(items: seq<CartItem>, id: int) returns (k: nat)
    requires InCart(items, id)
    ensures k < |items| && IdDe(items[k]) == id
  {
    k :| 0 <= k < |items| && IdDe(items[k]) == id;
  }

  /** Adding a product already present raises that line's quantity by one and
      sets its amount to (cantidad + 1) * precio; the cart keeps its length and
      every other line. */
  lemma AgregarExistente(items: seq<CartItem>, p: Producto, precio: nat, k: nat)
    requires CarritoValido(items)
    requires k < |items| && IdDe(items[k]) == p.productoId
    ensures var r := Agregar(items, p, precio);
      var c := items[k].cantidad;
      |r| == |items|
      && r[k] == items[k].(cantidad := c + 1, precioAplicado := precio, subtotal := (c + 1) * precio)
      && (forall j | 0 <= j < |items| && j != k :: r[j] == items[j])
      && CarritoValido(r)
      && Total(r) == Total(items) - items[k].subtotal + (c + 1) * precio
  {
    var r := Agregar(items, p, precio);
    var c := items[k].cantidad;
    var x := items[k].(cantidad := c + 1, precioAplicado := precio, subtotal := (c + 1) * precio);
    assert InCart(items, p.productoId);
    assert r == items[k := x];
    TotalUpdate(items, k, x);
  }

  // ---------------------------------------------------------------- eliminarProducto

  lemma {:induction false} EliminarAusente(items: seq<CartItem>, id: int)
    requires !InCart(items, id)
    ensures Eliminar(items, id) == items
    decreases |items|
  {
    if items != [] {
      assert !InCart(items[1..], id) by {
        forall i | 0 <= i < |items[1..]| ensures IdDe(items[1..][i]) != id {
          assert items[1..][i] == items[i + 1];
        }
      }
      EliminarAusente(items[1..], id);
    }
  }

  lemma {:induction false} EliminarSubsecuencia(items: seq<CartItem>, id: int)
    ensures var r := Eliminar(items, id);
      |r| <= |items| && !InCart(r, id)
      && (forall i | 0 <= i < |r| :: exists j | 0 <= j < |items| :: r[i] == items[j])
    decreases |items|
  {
    if items != [] {
      EliminarSubsecuencia(items[1..], id);
      var rest := Eliminar(items[1..], id);
      var r := Eliminar(items, id);
      var head := if IdDe(items[0]) == id then [] else [items[0]];
      assert r == head + rest;
      forall i | 0 <= i < |r| ensures exists j | 0 <= j < |items| :: r[i] == items[j] {
        if i < |head| {
          assert r[i] == items[0];
        } else {
          assert r[i] == rest[i - |head|];
          var j :| 0 <= j < |items[1..]| && rest[i - |head|] == items[1..][j];
          assert r[i] == items[j + 1];
        }
      }
      forall i | 0 <= i < |r| ensures IdDe(r[i]) != id {
        if i >= |head| {
          assert r[i] == rest[i - |head|];
        }
      }
    }
  }

  /** Deleting the line at index k of a duplicate-free cart: the others keep their order. */
  lemma {:induction false} EliminarPresente(items: seq<CartItem>, k: nat)
    requires SinDuplicados(items)
    requires k < |items|
    ensures Eliminar(items, IdDe(items[k])) == items[..k] + items[k + 1..]
    decreases |items|
  {
    var id := IdDe(items[k]);
    if k == 0 {
      assert !InCart(items[1..], id) by {
        forall i | 0 <= i < |items[1..]| ensures IdDe(items[1..][i]) != id {
          assert items[1..][i] == items[i + 1];
        }
      }
      EliminarAusente(items[1..], id);
      assert items[..0] + items[1..] == items[1..];
    } else {
      assert SinDuplicados(items[1..]) by {
        forall i, j | 0 <= i < j < |items[1..]| ensures IdDe(items[1..][i]) != IdDe(items[1..][j]) {
          assert items[1..][i] == items[i + 1] && items[1..][j] == items[j + 1];
        }
      }
      assert items[1..][k - 1] == items[k];
      EliminarPresente(items[1..], k - 1);
      assert IdDe(items[0]) != id;
      assert items[..k] + items[k + 1..] == [items[0]] + (items[1..][..k - 1] + items[1..][k..]);
    }
  }

  lemma SinDuplicadosQuitar(items: seq<CartItem>, k: nat)
    requires SinDuplicados(items) && k < |items|
    ensures SinDuplicados(items[..k] + items[k + 1..])
  {
    var r := items[..k] + items[k + 1..];
    forall i, j | 0 <= i < j < |r| ensures IdDe(r[i]) != IdDe(r[j]) {
      var i' := if i < k then i else i + 1;
      var j' := if j < k then j else j + 1;
      assert r[i] == items[i'] && r[j] == items[j'];
    }
  }

  /** `eliminarProducto(id)` removes the line of product id and keeps the others in
      order; the total drops by that line's amount; an absent id changes nothing. */
  lemma EliminarSpec(items: seq<CartItem>, id: int)
    requires CarritoValido(items)
    ensures var r := Eliminar(items, id);
      CarritoValido(r) && !InCart(r, id)
      && (!InCart(items, id) ==> r == items)
      && (forall k | 0 <= k < |items| && IdDe(items[k]) == id ::
            r == items[..k] + items[k + 1..] && Total(r) == Total(items) - items[k].subtotal)
  {
    var r := Eliminar(items, id);
    EliminarSubsecuencia(items, id);
    EliminarConsistente(items, id);
    if !InCart(items, id) {
      EliminarAusente(items, id);
    } else {
      var k := LineaDe(items, id);
      EliminarPresente(items, k);
      SinDuplicadosQuitar(items, k);
      QuitarTotal(items, k);
      forall k' | 0 <= k' < |items| && IdDe(items[k']) == id
        ensures r == items[..k'] + items[k' + 1..] && Total(r) == Total(items) - items[k'].subtotal
      {
        assert k' == k;
      }
    }
  }

  /** Taking a line out of a cart takes its amount off the total. */
  lemma QuitarTotal(items: seq<CartItem>, k: nat)
    requires k < |items|
    ensures Total(items[..k] + items[k + 1..]) == Total(items) - items[k].subtotal
  {
    TotalConcat(items[..k], items[k + 1..]);
    TotalConcat(items[..k], items[k..]);
    assert items[k..] == [items[k]] + items[k + 1..];
    TotalConcat([items[k]], items[k + 1..]);
    assert items[..k] + items[k..] == items;
  }

  /** Deleting keeps every remaining line consistent with its price and quantity. */
  lemma EliminarConsistente(items: seq<CartItem>, id: int)
    requires LineasConsistentes(items)
    ensures LineasConsistentes(Eliminar(items, id))
  {
    var r := Eliminar(items, id);
    EliminarSubsecuencia(items, id);
    forall i | 0 <= i < |r|
      ensures r[i].cantidad >= 1 && r[i].subtotal == r[i].cantidad * r[i].precioAplicado
    {
      var j :| 0 <= j < |items| && r[i] == items[j];
    }
  }

  /** The round trip of adding a product that was not in the cart and deleting it
      again gives back the cart it started from, so length and total too. */
  lemma AgregarEliminar(items: seq<CartItem>, p: Producto, precio: nat)
    requires CarritoValido(items)
    requires !InCart(items, p.productoId)
    ensures Eliminar(Agregar(items, p, precio), p.productoId) == items
  {
    AgregarNuevo(items, p, precio);
    var r := Agregar(items, p, precio);
    EliminarSpec(r, p.productoId);
    assert r[..|items|] + r[|items| + 1..] == items;
  }

  // ---------------------------------------------------------------- actualizarCantidad

  /** `actualizarCantidad(id, q)`: with q <= 0 it is `eliminarProducto(id)`;
      otherwise only the line of id changes, keeping its unit price, with amount
      precioAplicado * q. Either way no line ends with a quantity below one. */
  lemma ActualizarCantidadSpec(items: seq<CartItem>, id: int, q: int)
    requires CarritoValido(items)
    ensures var r := ActualizarCantidad(items, id, q);
      CarritoValido(r)
      && (q <= 0 ==> r == Eliminar(items, id) && !InCart(r, id))
      && (q > 0 ==>
            |r| == |items|
            && (!InCart(items, id) ==> r == items)
            && forall k | 0 <= k < |items| ::
                 if IdDe(items[k]) == id then
                   r[k] == items[k].(cantidad := q, subtotal := items[k].precioAplicado * q)
                   && Total(r) == Total(items) - items[k].subtotal + items[k].precioAplicado * q
                 else r[k] == items[k])
  {
    var r := ActualizarCantidad(items, id, q);
    if q <= 0 {
      EliminarSpec(items, id);
    } else {
      if InCart(items, id) {
        var k := LineaDe(items, id);
        var x := items[k].(cantidad := q, subtotal := items[k].precioAplicado * q);
        assert r == items[k := x];
        TotalUpdate(items, k, x);
      } else {
        assert r == items;
      }
    }
  }

  // ---------------------------------------------------------------- seleccionarCliente

  /** Repricing keeps length, order, products and quantities, gives every line
      the tier price of client c for its own product and keeps the cart valid. */
  lemma RecalcularSpec(items: seq<CartItem>, c: Option<Cliente>)
    requires CarritoValido(items)
    ensures var r := Recalcular(items, c);
      |r| == |items| && CarritoValido(r) && PreciosVigentes(r, c)
      && forall i | 0 <= i < |items| ::
           r[i].producto == items[i].producto && r[i].cantidad == items[i].cantidad
  {
    var r := Recalcular(items, c);
    assert SinDuplicados(r) by {
      forall i, j | 0 <= i < j < |r| ensures IdDe(r[i]) != IdDe(r[j]) {
        assert IdDe(r[i]) == IdDe(items[i]) && IdDe(r[j]) == IdDe(items[j]);
      }
    }
  }

  /** Pricing for a client forgets whatever client the lines were priced for
      before, so selecting the same client twice is idempotent. */
  lemma RecalcularOlvida(items: seq<CartItem>, c1: Option<Cliente>, c2: Option<Cliente>)
    ensures Recalcular(Recalcular(items, c1), c2) == Recalcular(items, c2)
  {
    var a := Recalcular(Recalcular(items, c1), c2);
    var b := Recalcular(items, c2);
    assert |a| == |b|;
    forall i | 0 <= i < |a| ensures a[i] == b[i] {
    }
  }

  /** The total of a cart priced for client c. */
  lemma {:induction false} TotalRecalculado(items: seq<CartItem>, c: Option<Cliente>)
    ensures Total(Recalcular(items, c)) == SumaAlNivel(items, c)
    decreases |items|
  {
    if items != [] {
      assert Recalcular(items, c)[1..] == Recalcular(items[1..], c);
      TotalRecalculado(items[1..], c);
    }
  }

  function SumaAlNivel(items: seq<CartItem>, c: Option<Cliente>): int
    decreases |items|
  {
    if items == [] then 0
    else items[0].cantidad * GetPrecioCorrecto(items[0].producto, c) + SumaAlNivel(items[1..], c)
  }

  /** Adding a product whose snapshot equals the one already in the cart, priced
      for the current client, keeps every line priced for that client. */
  lemma AgregarMantienePrecios(items: seq<CartItem>, p: Producto, c: Option<Cliente>)
    requires PreciosVigentes(items, c)
    requires forall i | 0 <= i < |items| && IdDe(items[i]) == p.productoId :: items[i].producto == p
    ensures PreciosVigentes(Agregar(items, p, GetPrecioCorrecto(p, c)), c)
  {
  }

  lemma ActualizarMantienePrecios(items: seq<CartItem>, id: int, q: int, c: Option<Cliente>)
    requires CarritoValido(items) && PreciosVigentes(items, c)
    ensures PreciosVigentes(ActualizarCantidad(items, id, q), c)
  {
    if q <= 0 {
      EliminarSubsecuencia(items, id);
    }
  }

  // ---------------------------------------------------------------- the provider

  /** The state behind `CartProvider`: `items` and `clienteSeleccionado`, which every
      operation replaces with a value computed from the old one. */
  class CartState {
    var items: seq<CartItem>
    var clienteSeleccionado: Option<Cliente>

    ghost predicate Valid()
      reads this
    {
      CarritoValido(items)
    }

    /** Both `useState` hooks start empty. */
    constructor ()
      ensures Valid() && items == [] && clienteSeleccionado == None
    {
      items := [];
      clienteSeleccionado := None;
    }

    /** `totalVenta`, recomputed from the lines whenever they change. */
    function TotalVenta(): int
      reads this
    {
      Total(items)
    }

    /** `agregarProducto`. A line already in the cart keeps its own product snapshot,
        so the lines stay priced for the client only when the snapshot passed in is
        the one the cart holds. */
    method AgregarProducto(producto: Producto)
      requires Valid()
      modifies this
      ensures Valid()
      ensures clienteSeleccionado == old(clienteSeleccionado)
      ensures items == Agregar(old(items), producto, GetPrecioCorrecto(producto, old(clienteSeleccionado)))
      ensures PreciosVigentes(old(items), old(clienteSeleccionado))
              && (forall i | 0 <= i < |old(items)| && IdDe(old(items)[i]) == producto.productoId ::
                    old(items)[i].producto == producto)
              ==> PreciosVigentes(items, clienteSeleccionado)
    {
      var precio := GetPrecioCorrecto(producto, clienteSeleccionado);
      if PreciosVigentes(items, clienteSeleccionado)
         && (forall i | 0 <= i < |items| && IdDe(items[i]) == producto.productoId :: items[i].producto == producto) {
        AgregarMantienePrecios(items, producto, clienteSeleccionado);
      }
      if InCart(items, producto.productoId) {
        var k := LineaDe(items, producto.productoId);
        AgregarExistente(items, producto, precio, k);
      } else {
        AgregarNuevo(items, producto, precio);
      }
      items := Agregar(items, producto, precio);
    }

    method EliminarProducto(id: int)
      requires Valid()
      modifies this
      ensures Valid()
      ensures clienteSeleccionado == old(clienteSeleccionado)
      ensures items == Eliminar(old(items), id)
    {
      EliminarSpec(items, id);
      items := Eliminar(items, id);
    }

    method ActualizarCantidadLinea(id: int, cantidad: int)
      requires Valid()
      modifies this
      ensures Valid()
      ensures clienteSeleccionado == old(clienteSeleccionado)
      ensures items == ActualizarCantidad(old(items), id, cantidad)
    {
      if cantidad <= 0 {
        EliminarProducto(id);
        return;
      }
      ActualizarCantidadSpec(items, id, cantidad);
      items := ActualizarCantidad(items, id, cantidad);
    }

    method SeleccionarCliente(cliente: Option<Cliente>)
      requires Valid()
      modifies this
      ensures Valid()
      ensures clienteSeleccionado == cliente
      ensures items == Recalcular(old(items), cliente)
      ensures PreciosVigentes(items, cliente)
    {
      clienteSeleccionado := cliente;
      RecalcularSpec(items, cliente);
      items := Recalcular(items, cliente);
    }

    method LimpiarCarrito()
      requires Valid()
      modifies this
      ensures Valid()
      ensures items == [] && clienteSeleccionado == None
    {
      items := [];
      clienteSeleccionado := None;
    }
  }
}
