/** How the browser and the server fit together: the checkout request the cart
    builds, the sale the server records from it, the cash session it lands in
    and the error answer the browser gets back. */
module Integracion {
  import opened Wrappers
  import opened Domain
  import Cart
  import Checkout
  import M = Model
  import D = Database
  import VS = VentaService
  import SC = SesionCajaService
  import EH = ExceptionHandler

  /** The cart's snapshot of a product carries the server row's prices; a null
      cost price is shown as zero, which is also what the server charges for it. */
  predicate Espejo(pf: Cart.Producto, productos: seq<M.Producto>) {
    1 <= pf.productoId <= |productos|
    && var pb := productos[pf.productoId - 1];
    pb.precioVenta == pf.precioVenta && pb.precioMayorista == pf.precioMayorista
    && pb.precioCosto.GetOr(0) == pf.precioCosto
  }

  /** Every cart line mirrors its server row. */
  predicate CatalogoAlDia(items: seq<Cart.CartItem>, productos: seq<M.Producto>) {
    forall i | 0 <= i < |items| :: Espejo(items[i].producto, productos)
  }

  /** The browser's tier lookup and the server's price both pick the field its
      tier names, so on a mirrored product they agree. */
  lemma PrecioCoincide(pf: Cart.Producto, productos: seq<M.Producto>, nivel: NivelPrecio)
    requires Espejo(pf, productos)
    ensures VS.DeterminarPrecio(productos[pf.productoId - 1], nivel) == Cart.PrecioDeNivel(pf, nivel)
  {
    match nivel
    case Publico =>
    case Mayorista =>
    case Costo =>
  }

  /** Sums of line amounts that agree line by line agree. */
  lemma {:induction false} SumasIguales(ds: seq<M.DetalleVenta>, items: seq<Cart.CartItem>)
    requires |ds| == |items|
    requires forall k | 0 <= k < |ds| :: ds[k].subtotal == items[k].subtotal
    ensures D.SumaSubtotales(ds) == Cart.Total(items)
    decreases |ds|
  {
    if ds != [] {
      SumasIguales(ds[1..], items[1..]);
    }
  }

  /** Lines the server prices from the cart's own request lines, on a mirrored
      catalogue and the client's tier, carry the cart's unit prices and amounts. */
  lemma LineasCobradas(items: seq<Cart.CartItem>, cliente: Cart.Cliente, productos: seq<M.Producto>,
                       ds: seq<M.DetalleVenta>)
    requires Cart.CarritoValido(items) && Cart.PreciosVigentes(items, Some(cliente))
    requires CatalogoAlDia(items, productos)
    requires |ds| == |items|
    requires forall k | 0 <= k < |items| ::
      ds[k] == VS.LineaDe(productos[Cart.IdDe(items[k]) - 1], Checkout.DetalleDe(items[k]), cliente.nivelPrecioAsignado)
    ensures forall k | 0 <= k < |items| ::
      ds[k].precioUnitario == items[k].precioAplicado && ds[k].subtotal == items[k].subtotal
  {
    forall k | 0 <= k < |items|
      ensures ds[k].precioUnitario == items[k].precioAplicado && ds[k].subtotal == items[k].subtotal
    {
      PrecioCoincide(items[k].producto, productos, cliente.nivelPrecioAsignado);
    }
  }

  /** When the server accepts the checkout request of a valid cart whose lines
      are priced for the selected client and mirror the catalogue, and that
      client's tier is the one the server stores, the server charges every line
      at the cart's unit price and records exactly the cart's total. The unit
      price the request carries plays no part in this: the server reprices. */
  lemma CheckoutCobraElTotal(items: seq<Cart.CartItem>, cliente: Cart.Cliente, sesion: Checkout.SesionActiva,
                             productos: seq<M.Producto>, clientes: seq<M.Cliente>, usuarios: seq<M.Usuario>,
                             sesiones: seq<M.SesionCaja>, ventas: seq<M.Venta>, ahora: int)
    requires Cart.CarritoValido(items) && Cart.PreciosVigentes(items, Some(cliente))
    requires CatalogoAlDia(items, productos)
    requires M.Fila(clientes, cliente.clienteId).Some?
    requires M.Fila(clientes, cliente.clienteId).value.nivelPrecioAsignado == cliente.nivelPrecioAsignado
    requires VS.CrearVentaSpec(productos, clientes, usuarios, sesiones, ventas,
                               Checkout.Payload(cliente, sesion, items), ahora).Ok?
    ensures var v := VS.CrearVentaSpec(productos, clientes, usuarios, sesiones, ventas,
                                       Checkout.Payload(cliente, sesion, items), ahora).value.venta;
      |v.detalles| == |items|
      && (forall k | 0 <= k < |items| ::
            v.detalles[k].precioUnitario == items[k].precioAplicado && v.detalles[k].subtotal == items[k].subtotal)
      && v.montoTotal == Cart.Total(items)
      && v.metodoPago == Efectivo && v.sesionId == sesion.sesionId
  {
    var dto := Checkout.Payload(cliente, sesion, items);
    var v := VS.CrearVentaSpec(productos, clientes, usuarios, sesiones, ventas, dto, ahora).value.venta;
    VS.CrearVentaFiel(productos, clientes, usuarios, sesiones, ventas, dto, ahora);
    assert forall k | 0 <= k < |items| :: dto.detalles[k] == Checkout.DetalleDe(items[k]);
    LineasCobradas(items, cliente, productos, v.detalles);
    SumasIguales(v.detalles, items);
  }

  /** A completed cash sale raises its session's expected cash by its amount. */
  lemma VentaEfectivoSubeCaja(s: M.SesionCaja, productos: seq<M.Producto>, clientes: seq<M.Cliente>,
                              usuarios: seq<M.Usuario>, sesiones: seq<M.SesionCaja>, ventas: seq<M.Venta>,
                              dto: VentaDTO, ahora: int)
    requires VS.CrearVentaSpec(productos, clientes, usuarios, sesiones, ventas, dto, ahora).Ok?
    requires dto.metodoPago == Efectivo && dto.sesionId == s.sesionId
    ensures var v := VS.CrearVentaSpec(productos, clientes, usuarios, sesiones, ventas, dto, ahora).value.venta;
      SC.MontoEsperado(s, ventas + [v]) == SC.MontoEsperado(s, ventas) + v.montoTotal
  {
    var v := VS.CrearVentaSpec(productos, clientes, usuarios, sesiones, ventas, dto, ahora).value.venta;
    SC.VentasEfectivoAppend(ventas, v, s.sesionId);
  }

  /** Voiding a completed cash sale takes its amount back out of its session's
      expected cash. */
  lemma AnularEfectivoBajaCaja(s: M.SesionCaja, productos: seq<M.Producto>, usuarios: seq<M.Usuario>,
                               ventas: seq<M.Venta>, ventaId: int, usuarioId: int, motivo: Option<string>, ahora: int)
    requires VS.AnularVentaSpec(productos, usuarios, ventas, ventaId, usuarioId, motivo, ahora).Ok?
    requires 1 <= ventaId <= |ventas|
    requires ventas[ventaId - 1].metodoPago == Efectivo && ventas[ventaId - 1].sesionId == s.sesionId
    ensures var a := VS.AnularVentaSpec(productos, usuarios, ventas, ventaId, usuarioId, motivo, ahora).value;
      SC.MontoEsperado(s, ventas[ventaId - 1 := a.venta])
        == SC.MontoEsperado(s, ventas) - ventas[ventaId - 1].montoTotal
  {
    var a := VS.AnularVentaSpec(productos, usuarios, ventas, ventaId, usuarioId, motivo, ahora).value;
    assert a.venta.estado == Anulada;
    SC.VentasEfectivoUpdate(ventas, ventaId - 1, a.venta, s.sesionId);
  }

  /** Once a session is closed, no sale can be registered against it: the server
      answers that the session is not open. */
  lemma CajaCerradaRechazaVenta(productos: seq<M.Producto>, clientes: seq<M.Cliente>, usuarios: seq<M.Usuario>,
                                sesiones: seq<M.SesionCaja>, ventas: seq<M.Venta>, sesionId: int,
                                cierre: M.CierreCajaDTO, ahora: int, dto: VentaDTO, despues: int)
    requires SC.CerrarSesionSpec(sesiones, usuarios, ventas, sesionId, cierre, ahora).Ok?
    requires dto.sesionId == sesionId
    requires M.Fila(clientes, dto.clienteId).Some? && M.Fila(usuarios, dto.usuarioId).Some?
    ensures var c := SC.CerrarSesionSpec(sesiones, usuarios, ventas, sesionId, cierre, ahora).value;
      VS.CrearVentaSpec(productos, clientes, usuarios, sesiones[sesionId - 1 := c], ventas, dto, despues)
        == Err(M.RuntimeException(VS.SESION_NO_ABIERTA))
  {
    var c := SC.CerrarSesionSpec(sesiones, usuarios, ventas, sesionId, cierre, ahora).value;
    assert M.Fila(sesiones[sesionId - 1 := c], sesionId) == Some(c);
  }

  /** A sale request the server turns down for an unknown client, user or
      session reaches the browser as
      404 Resource Not Found with the server's message. */
  lemma VentaDesconocida404(productos: seq<M.Producto>, clientes: seq<M.Cliente>, usuarios: seq<M.Usuario>,
                            sesiones: seq<M.SesionCaja>, ventas: seq<M.Venta>, dto: VentaDTO, ahora: int,
                            path: string)
    requires M.Fila(clientes, dto.clienteId).None? || M.Fila(usuarios, dto.usuarioId).None?
             || M.Fila(sesiones, dto.sesionId).None?
    ensures var r := VS.CrearVentaSpec(productos, clientes, usuarios, sesiones, ventas, dto, ahora);
      r.Err? && r.error.RuntimeException?
      && EH.Manejar(r.error, path) == EH.ErrorResponse(404, "Resource Not Found", r.error.message, path)
  {
    if M.Fila(clientes, dto.clienteId).None? {
      EH.NoEncontrado404("Cliente", M.NO_ENCONTRADO, " ID: ", dto.clienteId, path);
    } else if M.Fila(usuarios, dto.usuarioId).None? {
      EH.NoEncontrado404("Usuario", M.NO_ENCONTRADO, " ID: ", dto.usuarioId, path);
    } else {
      EH.NoEncontrado404("Sesion", M.NO_ENCONTRADA, " ID: ", dto.sesionId, path);
    }
  }

  /** A line asking for more than the stock holds reaches the browser as 400
      Stock Insuficiente with the server's message. */
  lemma StockInsuficiente400(productos: seq<M.Producto>, clientes: seq<M.Cliente>, usuarios: seq<M.Usuario>,
                             sesiones: seq<M.SesionCaja>, ventas: seq<M.Venta>, dto: VentaDTO, ahora: int,
                             path: string)
    requires VS.CrearVentaSpec(productos, clientes, usuarios, sesiones, ventas, dto, ahora).Err?
    requires VS.CrearVentaSpec(productos, clientes, usuarios, sesiones, ventas, dto, ahora).error.StockInsuficienteException?
    ensures var e := VS.CrearVentaSpec(productos, clientes, usuarios, sesiones, ventas, dto, ahora).error;
      EH.Manejar(e, path).status == 400 && EH.Manejar(e, path).error == "Stock Insuficiente"
  {
  }
}
