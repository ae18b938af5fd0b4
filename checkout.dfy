/** The checkout action of the cart sidebar (frontend/src/components/CartSidebar.tsx):
    it turns the cart into a sale request, sends it, and clears the cart when the
    server accepts it. */
module Checkout {
  import opened Wrappers
  import opened Domain
  import opened Cart

  /** The fields of the active cash session the sidebar reads. */
  datatype SesionActiva = SesionActiva(sesionId: int, usuarioAperturaId: int)

  /** What one press of the checkout button did: stopped with an error toast
      before any request, or sent `payload`, which the server accepted or not. */
  datatype Resultado = Rechazada(mensaje: string) | Enviada(payload: VentaDTO, registrada: bool)

  const SIN_CLIENTE := "Debes seleccionar un cliente"
  const SIN_SESION := "No hay una sesi\U{F3}n de caja activa"
  const VENTA_OK := "\U{A1}Venta registrada con \U{E9}xito!"
  const VENTA_ERROR := "Error al procesar la venta"

  /** One request line per cart line: the product, the quantity, the unit price
      the cart charged, and a zero discount. */
  function DetalleDe(it: CartItem): DetalleVentaDTO {
    DetalleVentaDTO(IdDe(it), it.cantidad, Some(it.precioAplicado), Some(0))
  }

  function Detalles(items: seq<CartItem>): seq<DetalleVentaDTO> {
    seq(|items|, i requires 0 <= i < |items| => DetalleDe(items[i]))
  }

  /** The request body: the sale is charged to the user who opened the session and
      is always paid in cash. */
  function Payload(cliente: Cliente, sesion: SesionActiva, items: seq<CartItem>): VentaDTO {
    VentaDTO(cliente.clienteId, sesion.usuarioAperturaId, sesion.sesionId, Efectivo, Detalles(items))
  }

  /** `handleProcesarVenta` as a function of what it reads and of the server's answer. */
  function ProcesarVenta(cliente: Option<Cliente>, sesion: Option<SesionActiva>, items: seq<CartItem>,
                         servidorAcepta: bool): Resultado
  {
    if cliente.None? then Rechazada(SIN_CLIENTE)
    else if sesion.None? then Rechazada(SIN_SESION)
    else Enviada(Payload(cliente.value, sesion.value, items), servidorAcepta)
  }

  /** The toast each outcome shows. */
  function Aviso(r: Resultado): string {
    match r
    case Rechazada(m) => m
    case Enviada(_, ok) => if ok then VENTA_OK else VENTA_ERROR
  }

  /** The amount the request asks for at the cart's own unit prices. */
  function ImporteSolicitado(ds: seq<DetalleVentaDTO>): int
    decreases |ds|
  {
    if ds == [] then 0 else ds[0].cantidad * ds[0].precioUnitario.GetOr(0) + ImporteSolicitado(ds[1..])
  }

  /** A request is built only when a client and a session are both present; it
      then lists exactly the cart's lines, in order, with their products,
      quantities and unit prices, a zero discount, the selected client, the
      session and its opening user, payment in cash, and at those prices it
      asks for the cart's total. */
  lemma {:induction false} PayloadFiel(cliente: Option<Cliente>, sesion: Option<SesionActiva>,
                                       items: seq<CartItem>, ok: bool)
    requires LineasConsistentes(items)
    ensures var r := ProcesarVenta(cliente, sesion, items, ok);
      (r.Enviada? <==> cliente.Some? && sesion.Some?)
      && (cliente.None? ==> r == Rechazada(SIN_CLIENTE))
      && (cliente.Some? && sesion.None? ==> r == Rechazada(SIN_SESION))
      && (r.Enviada? ==>
            var v := r.payload;
            v.clienteId == cliente.value.clienteId
            && v.usuarioId == sesion.value.usuarioAperturaId
            && v.sesionId == sesion.value.sesionId
            && v.metodoPago == Efectivo
            && |v.detalles| == |items|
            && (forall i | 0 <= i < |items| ::
                  v.detalles[i].productoId == IdDe(items[i])
                  && v.detalles[i].cantidad == items[i].cantidad
                  && v.detalles[i].precioUnitario == Some(items[i].precioAplicado)
                  && v.detalles[i].descuento == Some(0))
            && ImporteSolicitado(v.detalles) == Total(items))
    decreases |items|
  {
    ImporteIgualTotal(items);
  }

  lemma {:induction false} ImporteIgualTotal(items: seq<CartItem>)
    requires LineasConsistentes(items)
    ensures ImporteSolicitado(Detalles(items)) == Total(items)
    decreases |items|
  {
    if items != [] {
      assert Detalles(items)[1..] == Detalles(items[1..]);
      assert LineasConsistentes(items[1..]) by {
        forall i | 0 <= i < |items[1..]|
          ensures items[1..][i].cantidad >= 1
               && items[1..][i].subtotal == items[1..][i].cantidad * items[1..][i].precioAplicado
        {
          assert items[1..][i] == items[i + 1];
        }
      }
      ImporteIgualTotal(items[1..]);
    }
  }

  /** The sidebar's own state: the cart it reads and clears, whether a request is
      in flight, and the toasts shown so far. */
  class CartSidebar {
    const cart: CartState
    var loading: bool
    var avisos: seq<string>

    constructor (c: CartState)
      ensures cart == c && !loading && avisos == []
    {
      cart := c;
      loading := false;
      avisos := [];
    }

    /** The checkout button accepts presses only while no request is in flight and
        the cart has lines. */
    predicate BotonHabilitado()
      reads this, cart
    {
      !loading && |cart.items| > 0
    }

    /** One press: the two guards, then the request; the server's answer is the
        parameter `servidorAcepta`. The cart is cleared only on success; once a
        request was sent the in-flight flag is down again whatever the answer, and a
        press stopped by a guard leaves it alone. After a sent request the button is
        live again exactly when the sale failed and the cart had lines. */
    method HandleProcesarVenta(sesionActiva: Option<SesionActiva>, servidorAcepta: bool) returns (r: Resultado)
      requires cart.Valid()
      modifies this, cart
      ensures r == ProcesarVenta(old(cart.clienteSeleccionado), sesionActiva, old(cart.items), servidorAcepta)
      ensures avisos == old(avisos) + [Aviso(r)]
      ensures cart.Valid()
      ensures if r.Enviada? then !loading else loading == old(loading)
      ensures r.Enviada? && r.registrada ==> cart.items == [] && cart.clienteSeleccionado == None
      ensures !(r.Enviada? && r.registrada) ==>
                cart.items == old(cart.items) && cart.clienteSeleccionado == old(cart.clienteSeleccionado)
      ensures r.Enviada? ==> (BotonHabilitado() <==> !r.registrada && |old(cart.items)| > 0)
    {
      if cart.clienteSeleccionado.None? {
        r := Rechazada(SIN_CLIENTE);
        avisos := avisos + [SIN_CLIENTE];
        return;
      }
      if sesionActiva.None? {
        r := Rechazada(SIN_SESION);
        avisos := avisos + [SIN_SESION];
        return;
      }
      loading := true;
      var detalles := Detalles(cart.items);
      var venta := VentaDTO(cart.clienteSeleccionado.value.clienteId, sesionActiva.value.usuarioAperturaId,
                            sesionActiva.value.sesionId, Efectivo, detalles);
      r := Enviada(venta, servidorAcepta);
      if servidorAcepta {
        avisos := avisos + [VENTA_OK];
        cart.LimpiarCarrito();
      } else {
        avisos := avisos + [VENTA_ERROR];
      }
      loading := false;
    }
  }
}
