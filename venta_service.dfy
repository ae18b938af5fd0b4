/** The sale engine of src/main/java/com/libreria/libreria/service/impl/VentaServiceImpl.java.
    Each `@Transactional` operation works on local copies of the tables it touches and
    writes them back only when it succeeds, so a thrown exception leaves the database
    as it was. */
module VentaService {
  import opened Wrappers
  import opened Domain
  import opened Model
  import opened Database
  import opened Text
  import VentaRepository

  const SESION_NO_ABIERTA := "La sesi\U{F3}n de caja no est\U{E1} abierta."
  const VENTA_YA_ANULADA := "La venta ya est\U{E1} anulada."

  /** `determinarPrecio`: the price of the client's tier, with a missing cost price read as 0. */
  function DeterminarPrecio(p: Producto, nivel: NivelPrecio): (r: nat)
    ensures r == p.precioVenta || r == p.precioMayorista || r == p.precioCosto.GetOr(0)
    ensures nivel == Costo && p.precioCosto.None? ==> r == 0
  {
    match nivel
    case Mayorista => p.precioMayorista
    case Costo => p.precioCosto.GetOr(0)
    case Publico => p.precioVenta
  }

  function MensajeStock(p: Producto, requerido: int): string {
    "Stock insuficiente para producto: " + p.nombre + ". Disponible: " + Show(p.cantidadStock)
    + ", Requerido: " + Show(requerido)
  }

  /** The stored line for a requested one: the server's price, the discount (null
      read as 0) and the amount price * quantity - discount. The request's own
      `precioUnitario` plays no part. */
  function LineaDe(p: Producto, d: DetalleVentaDTO, nivel: NivelPrecio): DetalleVenta {
    var precio := DeterminarPrecio(p, nivel);
    var descuento := d.descuento.GetOr(0);
    DetalleVenta(d.productoId, d.cantidad, precio, descuento, precio * d.cantidad - descuento)
  }

  /** The state of the line loop: the working copy of the product table, the lines
      built so far and the running total. */
  datatype Acumulado = Acumulado(productos: seq<Producto>, detalles: seq<DetalleVenta>, total: int)

  /** One iteration of the line loop. */
  function Paso(acc: Acumulado, d: DetalleVentaDTO, nivel: NivelPrecio): Resultado<Acumulado> {
    match Fila(acc.productos, d.productoId)
    case None => Err(RuntimeException(NoEncontrado("Producto", NO_ENCONTRADO, " ID: ", d.productoId)))
    case Some(p) =>
      if p.cantidadStock < d.cantidad then Err(StockInsuficienteException(MensajeStock(p, d.cantidad)))
      else
        var linea := LineaDe(p, d, nivel);
        Ok(Acumulado(acc.productos[d.productoId - 1 := p.(cantidadStock := p.cantidadStock - d.cantidad)],
                     acc.detalles + [linea], acc.total + linea.subtotal))
  }

  /** The whole line loop; the first failing line ends it. */
  function Procesar(acc: Acumulado, ds: seq<DetalleVentaDTO>, nivel: NivelPrecio): Resultado<Acumulado>
    decreases |ds|
  {
    if ds == [] then Ok(acc)
    else
      match Paso(acc, ds[0], nivel)
      case Err(e) => Err(e)
      case Ok(a) => Procesar(a, ds[1..], nivel)
  }

  predicate LineasAdmisibles(ds: seq<DetalleVenta>) {
    forall k | 0 <= k < |ds| :: DetalleAdmisible(ds[k])
  }

  datatype Creada = Creada(productos: seq<Producto>, venta: Venta)

  /** `crearVenta` on the tables as values: the client, user and session lookups in
      that order, the open-session check, the line loop, and finally the bean
      validation the sale lines meet when the sale is persisted. */
  function CrearVentaSpec(productos: seq<Producto>, clientes: seq<Cliente>, usuarios: seq<Usuario>,
                          sesiones: seq<SesionCaja>, ventas: seq<Venta>, dto: VentaDTO, ahora: int): (r: Resultado<Creada>)
    ensures r.Ok? ==> Fila(clientes, dto.clienteId).Some? && Fila(usuarios, dto.usuarioId).Some?
                      && Fila(sesiones, dto.sesionId).Some? && Fila(sesiones, dto.sesionId).value.estado == Abierta
    ensures Fila(clientes, dto.clienteId).Some? && Fila(usuarios, dto.usuarioId).Some?
            && Fila(sesiones, dto.sesionId).Some? && Fila(sesiones, dto.sesionId).value.estado == Cerrada
            ==> r == Err(RuntimeException(SESION_NO_ABIERTA))
    ensures r.Ok? ==>
      var v := r.value.venta;
      v.ventaId == |ventas| + 1 && v.estado == Completada && v.fechaVenta == ahora
      && v.clienteId == dto.clienteId && v.usuarioId == dto.usuarioId && v.sesionId == dto.sesionId
      && v.metodoPago == dto.metodoPago && v.motivoAnulacion.None? && v.fechaAnulacion.None? && v.usuarioAnuloId.None?
      && LineasAdmisibles(v.detalles) && v.montoTotal == SumaSubtotales(v.detalles)
  {
    match Fila(clientes, dto.clienteId)
    case None => Err(RuntimeException(NoEncontrado("Cliente", NO_ENCONTRADO, " ID: ", dto.clienteId)))
    case Some(cliente) =>
      match Fila(usuarios, dto.usuarioId)
      case None => Err(RuntimeException(NoEncontrado("Usuario", NO_ENCONTRADO, " ID: ", dto.usuarioId)))
      case Some(_) =>
        match Fila(sesiones, dto.sesionId)
        case None => Err(RuntimeException(NoEncontrado("Sesion", NO_ENCONTRADA, " ID: ", dto.sesionId)))
        case Some(sesion) =>
          if sesion.estado != Abierta then Err(RuntimeException(SESION_NO_ABIERTA))
          else
            match Procesar(Acumulado(productos, [], 0), dto.detalles, cliente.nivelPrecioAsignado)
            case Err(e) => Err(e)
            case Ok(a) =>
              ProcesarTotal(Acumulado(productos, [], 0), dto.detalles, cliente.nivelPrecioAsignado);
              if !LineasAdmisibles(a.detalles) then Err(ConstraintViolationException(VALIDACION_DETALLE))
              else Ok(Creada(a.productos, Venta(|ventas| + 1, dto.sesionId, dto.usuarioId, dto.clienteId, ahora,
                                                a.total, dto.metodoPago, Completada, None, None, None, a.detalles)))
  }

  // ---- what the line loop does ----

  /** Two product tables that differ at most in stock. */
  predicate MismosSalvoStock(a: seq<Producto>, b: seq<Producto>) {
    |a| == |b| && forall i | 0 <= i < |a| :: a[i] == b[i].(cantidadStock := a[i].cantidadStock)
  }

  /** The quantity requested of one product across the requested lines. */
  function SumaPedida(ds: seq<DetalleVentaDTO>, productoId: int): int
    decreases |ds|
  {
    if ds == [] then 0
    else (if ds[0].productoId == productoId then ds[0].cantidad else 0) + SumaPedida(ds[1..], productoId)
  }

  /** Each product's stock drops by exactly the quantity requested of it, and
      nothing else about the product table changes. */
  lemma {:induction false} ProcesarStock(acc: Acumulado, ds: seq<DetalleVentaDTO>, nivel: NivelPrecio)
    requires Procesar(acc, ds, nivel).Ok?
    ensures var a := Procesar(acc, ds, nivel).value;
      MismosSalvoStock(a.productos, acc.productos)
      && forall i | 0 <= i < |acc.productos| ::
           a.productos[i].cantidadStock == acc.productos[i].cantidadStock - SumaPedida(ds, i + 1)
    decreases |ds|
  {
    if ds != [] {
      var a1 := Paso(acc, ds[0], nivel).value;
      ProcesarStock(a1, ds[1..], nivel);
    }
  }

  /** The stored lines are the requested ones in order, each priced by the tier from
      the product table as it was before the sale. */
  lemma {:induction false} ProcesarLineas(acc: Acumulado, ds: seq<DetalleVentaDTO>, nivel: NivelPrecio)
    requires Procesar(acc, ds, nivel).Ok?
    ensures var a := Procesar(acc, ds, nivel).value;
      |a.detalles| == |acc.detalles| + |ds| && a.detalles[..|acc.detalles|] == acc.detalles
      && forall k | 0 <= k < |ds| ::
           1 <= ds[k].productoId <= |acc.productos|
           && a.detalles[|acc.detalles| + k] == LineaDe(acc.productos[ds[k].productoId - 1], ds[k], nivel)
    decreases |ds|
  {
    if ds != [] {
      var a1 := Paso(acc, ds[0], nivel).value;
      ProcesarLineas(a1, ds[1..], nivel);
      var a := Procesar(acc, ds, nivel).value;
      forall k | 0 <= k < |ds|
        ensures 1 <= ds[k].productoId <= |acc.productos|
        ensures a.detalles[|acc.detalles| + k] == LineaDe(acc.productos[ds[k].productoId - 1], ds[k], nivel)
      {
        if k > 0 {
          assert ds[k] == ds[1..][k - 1];
          assert a.detalles[|a1.detalles| + (k - 1)] == LineaDe(a1.productos[ds[k].productoId - 1], ds[k], nivel);
        } else {
          assert a.detalles[|acc.detalles|] == a.detalles[..|a1.detalles|][|acc.detalles|];
        }
      }
      assert a.detalles[..|acc.detalles|] == a.detalles[..|a1.detalles|][..|acc.detalles|];
    }
  }

  /** The running total is the sum of the line amounts. */
  lemma {:induction false} ProcesarTotal(acc: Acumulado, ds: seq<DetalleVentaDTO>, nivel: NivelPrecio)
    requires acc.total == SumaSubtotales(acc.detalles)
    requires Procesar(acc, ds, nivel).Ok?
    ensures Procesar(acc, ds, nivel).value.total == SumaSubtotales(Procesar(acc, ds, nivel).value.detalles)
    decreases |ds|
  {
    if ds != [] {
      var a1 := Paso(acc, ds[0], nivel).value;
      SumaSubtotalesAppend(acc.detalles, a1.detalles[|a1.detalles| - 1]);
      assert a1.detalles == acc.detalles + [a1.detalles[|a1.detalles| - 1]];
      ProcesarTotal(a1, ds[1..], nivel);
    }
  }

  lemma {:induction false} SumaPedidaAusente(ds: seq<DetalleVentaDTO>, productoId: int)
    requires forall k | 0 <= k < |ds| :: ds[k].productoId != productoId
    ensures SumaPedida(ds, productoId) == 0
    decreases |ds|
  {
    if ds != [] {
      SumaPedidaAusente(ds[1..], productoId);
    }
  }

  /** Every line is checked against the stock already reduced by the lines before
      it, so no product the sale touches is left with negative stock. */
  lemma {:induction false} ProcesarNoNegativo(acc: Acumulado, ds: seq<DetalleVentaDTO>, nivel: NivelPrecio)
    requires Procesar(acc, ds, nivel).Ok?
    ensures var a := Procesar(acc, ds, nivel).value;
      forall k | 0 <= k < |ds| :: 1 <= ds[k].productoId <= |a.productos| && a.productos[ds[k].productoId - 1].cantidadStock >= 0
    decreases |ds|
  {
    if ds != [] {
      var a1 := Paso(acc, ds[0], nivel).value;
      var a := Procesar(acc, ds, nivel).value;
      ProcesarNoNegativo(a1, ds[1..], nivel);
      ProcesarStock(a1, ds[1..], nivel);
      var id := ds[0].productoId;
      if forall k | 0 <= k < |ds[1..]| :: ds[1..][k].productoId != id {
        SumaPedidaAusente(ds[1..], id);
      } else {
        var k :| 0 <= k < |ds[1..]| && ds[1..][k].productoId == id;
        assert a.productos[ds[1..][k].productoId - 1].cantidadStock >= 0;
      }
      forall k | 0 <= k < |ds|
        ensures 1 <= ds[k].productoId <= |a.productos| && a.productos[ds[k].productoId - 1].cantidadStock >= 0
      {
        if k > 0 { assert ds[k] == ds[1..][k - 1]; }
      }
    }
  }

  // ---- anularVenta ----

  /** Puts one line's quantity back on its product. */
  function Reponer(productos: seq<Producto>, d: DetalleVenta): seq<Producto> {
    match Fila(productos, d.productoId)
    case Some(p) => productos[d.productoId - 1 := p.(cantidadStock := p.cantidadStock + d.cantidad)]
    case None => productos
  }

  /** The stock-restoring loop of `anularVenta`. */
  function Restaurar(productos: seq<Producto>, ds: seq<DetalleVenta>): seq<Producto>
    decreases |ds|
  {
    if ds == [] then productos else Restaurar(Reponer(productos, ds[0]), ds[1..])
  }

  /** When every line points at a product, voiding adds back exactly the quantity
      sold of each product and changes nothing else. */
  lemma {:induction false} RestaurarStock(productos: seq<Producto>, ds: seq<DetalleVenta>)
    requires forall k | 0 <= k < |ds| :: 1 <= ds[k].productoId <= |productos|
    ensures MismosSalvoStock(Restaurar(productos, ds), productos)
    ensures forall i | 0 <= i < |productos| ::
      Restaurar(productos, ds)[i].cantidadStock == productos[i].cantidadStock + SumaCantidades(ds, i + 1)
    decreases |ds|
  {
    if ds != [] {
      var p1 := Reponer(productos, ds[0]);
      assert forall k | 0 <= k < |ds[1..]| :: ds[1..][k] == ds[k + 1];
      RestaurarStock(p1, ds[1..]);
    }
  }

  datatype Anulacion = Anulacion(productos: seq<Producto>, venta: Venta)

  /** `anularVenta` on the tables as values: the sale lookup, the already-voided
      check, the user lookup, then the stock restoration and the void record. */
  function AnularVentaSpec(productos: seq<Producto>, usuarios: seq<Usuario>, ventas: seq<Venta>,
                           ventaId: int, usuarioId: int, motivo: Option<string>, ahora: int): (r: Resultado<Anulacion>)
    ensures r.Ok? <==> Fila(ventas, ventaId).Some? && Fila(ventas, ventaId).value.estado != Anulada
                       && Fila(usuarios, usuarioId).Some?
    ensures Fila(ventas, ventaId).Some? && Fila(ventas, ventaId).value.estado == Anulada
            ==> r == Err(RuntimeException(VENTA_YA_ANULADA))
    ensures r.Ok? ==>
      var v0 := Fila(ventas, ventaId).value;
      var v := r.value.venta;
      v.estado == Anulada && v.motivoAnulacion == motivo && v.fechaAnulacion == Some(ahora)
      && v.usuarioAnuloId == Some(usuarioId)
      && v.(estado := v0.estado, motivoAnulacion := v0.motivoAnulacion, fechaAnulacion := v0.fechaAnulacion,
            usuarioAnuloId := v0.usuarioAnuloId) == v0
      && r.value.productos == Restaurar(productos, v0.detalles)
  {
    match Fila(ventas, ventaId)
    case None => Err(RuntimeException(NoEncontrado("Venta", NO_ENCONTRADA, " ID: ", ventaId)))
    case Some(v) =>
      if v.estado == Anulada then Err(RuntimeException(VENTA_YA_ANULADA))
      else
        match Fila(usuarios, usuarioId)
        case None => Err(RuntimeException(NoEncontrado("Usuario", NO_ENCONTRADO, " ID: ", usuarioId)))
        case Some(_) =>
          Ok(Anulacion(Restaurar(productos, v.detalles),
                       v.(estado := Anulada, motivoAnulacion := motivo, fechaAnulacion := Some(ahora),
                          usuarioAnuloId := Some(usuarioId))))
  }

  // ---- the operations on the database ----

  /** The loop of `crearVenta` over the requested lines: look each product up,
      check its stock, price the line, take the stock down and add the subtotal. */
  method ProcesarDetalles(productos0: seq<Producto>, pedido: seq<DetalleVentaDTO>, nivel: NivelPrecio)
    returns (r: Resultado<Acumulado>)
    ensures r == Procesar(Acumulado(productos0, [], 0), pedido, nivel)
  {
    var productos := productos0;
    var detalles: seq<DetalleVenta> := [];
    var montoTotalCalculado := 0;
    var i := 0;
    while i < |pedido|
      invariant 0 <= i <= |pedido|
      invariant Procesar(Acumulado(productos0, [], 0), pedido, nivel)
                == Procesar(Acumulado(productos, detalles, montoTotalCalculado), pedido[i..], nivel)
    {
      var det := pedido[i];
      assert pedido[i..] == [det] + pedido[i + 1..];
      var producto: Producto;
      match Fila(productos, det.productoId) {
        case None => return Err(RuntimeException(NoEncontrado("Producto", NO_ENCONTRADO, " ID: ", det.productoId)));
        case Some(p) => producto := p;
      }
      if producto.cantidadStock < det.cantidad {
        return Err(StockInsuficienteException(MensajeStock(producto, det.cantidad)));
      }
      var precioUnitario := DeterminarPrecio(producto, nivel);
      var descuento := det.descuento.GetOr(0);
      var subtotal := precioUnitario * det.cantidad - descuento;
      productos := productos[det.productoId - 1 := producto.(cantidadStock := producto.cantidadStock - det.cantidad)];
      detalles := detalles + [DetalleVenta(det.productoId, det.cantidad, precioUnitario, descuento, subtotal)];
      montoTotalCalculado := montoTotalCalculado + subtotal;
      i := i + 1;
    }
    assert pedido[i..] == [];
    r := Ok(Acumulado(productos, detalles, montoTotalCalculado));
  }

  /** `crearVenta`. */
  method CrearVenta(db: Db, dto: VentaDTO, ahora: int) returns (r: Resultado<Venta>)
    requires db.Valid()
    modifies db
    ensures db.Valid()
    ensures var s := CrearVentaSpec(old(db.productos), old(db.clientes), old(db.usuarios), old(db.sesiones),
                                    old(db.ventas), dto, ahora);
      match s
      case Ok(c) => r == Ok(c.venta) && db.productos == c.productos && db.ventas == old(db.ventas) + [c.venta]
      case Err(e) => r == Err(e) && db.productos == old(db.productos) && db.ventas == old(db.ventas)
    ensures db.categorias == old(db.categorias) && db.ubicaciones == old(db.ubicaciones) && db.roles == old(db.roles)
    ensures db.clientes == old(db.clientes) && db.usuarios == old(db.usuarios) && db.sesiones == old(db.sesiones)
  {
    var cliente: Cliente;
    match Fila(db.clientes, dto.clienteId) {
      case None => return Err(RuntimeException(NoEncontrado("Cliente", NO_ENCONTRADO, " ID: ", dto.clienteId)));
      case Some(c) => cliente := c;
    }
    if Fila(db.usuarios, dto.usuarioId).None? {
      return Err(RuntimeException(NoEncontrado("Usuario", NO_ENCONTRADO, " ID: ", dto.usuarioId)));
    }
    var sesion: SesionCaja;
    match Fila(db.sesiones, dto.sesionId) {
      case None => return Err(RuntimeException(NoEncontrado("Sesion", NO_ENCONTRADA, " ID: ", dto.sesionId)));
      case Some(s) => sesion := s;
    }
    if sesion.estado != Abierta {
      return Err(RuntimeException(SESION_NO_ABIERTA));
    }
    var nivel := cliente.nivelPrecioAsignado;
    var procesado := ProcesarDetalles(db.productos, dto.detalles, nivel);
    if procesado.Err? {
      return Err(procesado.error);
    }
    var productos, detalles, montoTotalCalculado :=
      procesado.value.productos, procesado.value.detalles, procesado.value.total;
    if !LineasAdmisibles(detalles) {
      return Err(ConstraintViolationException(VALIDACION_DETALLE));
    }
    var venta := Venta(|db.ventas| + 1, dto.sesionId, dto.usuarioId, dto.clienteId, ahora, montoTotalCalculado,
                       dto.metodoPago, Completada, None, None, None, detalles);
    CreadaConsistente(db.categorias, db.ubicaciones, db.roles, db.productos, db.clientes, db.usuarios,
                      db.sesiones, db.ventas, dto, ahora);
    db.productos := productos;
    db.ventas := db.ventas + [venta];
    r := Ok(venta);
  }

  /** A successful sale keeps the database consistent. */
  lemma CreadaConsistente(categorias: seq<Categoria>, ubicaciones: seq<Ubicacion>, roles: seq<Rol>,
                          productos: seq<Producto>, clientes: seq<Cliente>, usuarios: seq<Usuario>,
                          sesiones: seq<SesionCaja>, ventas: seq<Venta>, dto: VentaDTO, ahora: int)
    requires Consistente(categorias, ubicaciones, roles, productos, clientes, usuarios, sesiones, ventas)
    requires CrearVentaSpec(productos, clientes, usuarios, sesiones, ventas, dto, ahora).Ok?
    ensures var c := CrearVentaSpec(productos, clientes, usuarios, sesiones, ventas, dto, ahora).value;
      Consistente(categorias, ubicaciones, roles, c.productos, clientes, usuarios, sesiones, ventas + [c.venta])
  {
    var cliente := Fila(clientes, dto.clienteId).value;
    var acc := Acumulado(productos, [], 0);
    var nivel := cliente.nivelPrecioAsignado;
    ProcesarStock(acc, dto.detalles, nivel);
    ProcesarLineas(acc, dto.detalles, nivel);
    ProcesarTotal(acc, dto.detalles, nivel);
    var c := CrearVentaSpec(productos, clientes, usuarios, sesiones, ventas, dto, ahora).value;
    assert ProductosValidos(c.productos, |categorias|, |ubicaciones|) by {
      forall i | 0 <= i < |c.productos|
        ensures c.productos[i].productoId == i + 1
        ensures 1 <= c.productos[i].categoriaId <= |categorias| && 1 <= c.productos[i].ubicacionId <= |ubicaciones|
      {
        assert c.productos[i] == productos[i].(cantidadStock := c.productos[i].cantidadStock);
      }
    }
    var v := c.venta;
    var a := Procesar(acc, dto.detalles, nivel).value;
    assert v.detalles == a.detalles;
    assert forall k | 0 <= k < |v.detalles| :: 1 <= v.detalles[k].productoId <= |productos| by {
      forall k | 0 <= k < |v.detalles| ensures 1 <= v.detalles[k].productoId <= |productos| {
        assert a.detalles[|acc.detalles| + k] == LineaDe(productos[dto.detalles[k].productoId - 1], dto.detalles[k], nivel);
      }
    }
    assert VentaValida(v, |c.productos|, |clientes|, |usuarios|, |sesiones|);
    var vs := ventas + [v];
    assert VentasValidas(vs, |c.productos|, |clientes|, |usuarios|, |sesiones|) by {
      forall i | 0 <= i < |vs|
        ensures vs[i].ventaId == i + 1 && VentaValida(vs[i], |c.productos|, |clientes|, |usuarios|, |sesiones|)
      {
        if i < |ventas| { assert vs[i] == ventas[i]; }
      }
    }
  }

  /** A successful sale: one stored line per requested line, in order, priced by
      the client's tier from the catalogue as it was; each product's stock falls by
      the quantity requested of it and nothing else in the catalogue changes; and
      no product the sale touches is left with negative stock. */
  lemma CrearVentaFiel(productos: seq<Producto>, clientes: seq<Cliente>, usuarios: seq<Usuario>,
                       sesiones: seq<SesionCaja>, ventas: seq<Venta>, dto: VentaDTO, ahora: int)
    requires CrearVentaSpec(productos, clientes, usuarios, sesiones, ventas, dto, ahora).Ok?
    ensures var c := CrearVentaSpec(productos, clientes, usuarios, sesiones, ventas, dto, ahora).value;
      var nivel := Fila(clientes, dto.clienteId).value.nivelPrecioAsignado;
      |c.venta.detalles| == |dto.detalles|
      && (forall k | 0 <= k < |dto.detalles| ::
            1 <= dto.detalles[k].productoId <= |productos|
            && c.venta.detalles[k] == LineaDe(productos[dto.detalles[k].productoId - 1], dto.detalles[k], nivel))
      && MismosSalvoStock(c.productos, productos)
      && (forall i | 0 <= i < |productos| ::
            c.productos[i].cantidadStock == productos[i].cantidadStock - SumaPedida(dto.detalles, i + 1))
      && (forall k | 0 <= k < |dto.detalles| :: c.productos[dto.detalles[k].productoId - 1].cantidadStock >= 0)
  {
    var acc := Acumulado(productos, [], 0);
    var nivel := Fila(clientes, dto.clienteId).value.nivelPrecioAsignado;
    ProcesarStock(acc, dto.detalles, nivel);
    ProcesarLineas(acc, dto.detalles, nivel);
    ProcesarNoNegativo(acc, dto.detalles, nivel);
    var a := Procesar(acc, dto.detalles, nivel).value;
    forall k | 0 <= k < |dto.detalles|
      ensures a.detalles[k] == LineaDe(productos[dto.detalles[k].productoId - 1], dto.detalles[k], nivel)
    {
      assert a.detalles[|acc.detalles| + k] == a.detalles[k];
    }
  }

  lemma {:induction false} ProcesarPrefijo(acc: Acumulado, ds: seq<DetalleVentaDTO>, nivel: NivelPrecio, k: nat)
    requires k <= |ds|
    requires Procesar(acc, ds[..k], nivel).Ok?
    ensures Procesar(acc, ds, nivel) == Procesar(Procesar(acc, ds[..k], nivel).value, ds[k..], nivel)
    decreases k
  {
    if k > 0 {
      assert ds[..k][0] == ds[0];
      assert ds[..k][1..] == ds[1..][..k - 1];
      ProcesarPrefijo(Paso(acc, ds[0], nivel).value, ds[1..], nivel, k - 1);
      assert ds[1..][k - 1..] == ds[k..];
    }
  }

  /** A line asking for more than what is left of its product, once the earlier
      lines have been deducted, fails the sale with `StockInsuficienteException`. */
  lemma StockInsuficiente(acc: Acumulado, ds: seq<DetalleVentaDTO>, nivel: NivelPrecio, k: nat)
    requires k < |ds|
    requires Procesar(acc, ds[..k], nivel).Ok?
    requires Fila(Procesar(acc, ds[..k], nivel).value.productos, ds[k].productoId).Some?
    requires Fila(Procesar(acc, ds[..k], nivel).value.productos, ds[k].productoId).value.cantidadStock < ds[k].cantidad
    ensures Procesar(acc, ds, nivel)
            == Err(StockInsuficienteException(MensajeStock(Fila(Procesar(acc, ds[..k], nivel).value.productos, ds[k].productoId).value,
                                                            ds[k].cantidad)))
  {
    ProcesarPrefijo(acc, ds, nivel, k);
    assert ds[k..][0] == ds[k];
  }

  /** Two requests that differ only in the lines' `precioUnitario`. */
  predicate MismoPedidoSalvoPrecio(a: VentaDTO, b: VentaDTO) {
    a.clienteId == b.clienteId && a.usuarioId == b.usuarioId && a.sesionId == b.sesionId
    && a.metodoPago == b.metodoPago && MismasLineasSalvoPrecio(a.detalles, b.detalles)
  }

  predicate MismasLineasSalvoPrecio(a: seq<DetalleVentaDTO>, b: seq<DetalleVentaDTO>) {
    |a| == |b|
    && forall k | 0 <= k < |a| ::
         a[k].productoId == b[k].productoId && a[k].cantidad == b[k].cantidad && a[k].descuento == b[k].descuento
  }

  lemma {:induction false} ProcesarIgnoraPrecio(acc: Acumulado, a: seq<DetalleVentaDTO>, b: seq<DetalleVentaDTO>, nivel: NivelPrecio)
    requires MismasLineasSalvoPrecio(a, b)
    ensures Procesar(acc, a, nivel) == Procesar(acc, b, nivel)
    decreases |a|
  {
    if a != [] {
      assert Paso(acc, a[0], nivel) == Paso(acc, b[0], nivel);
      if Paso(acc, a[0], nivel).Ok? {
        assert MismasLineasSalvoPrecio(a[1..], b[1..]) by {
          forall k | 0 <= k < |a[1..]| ensures a[1..][k] == a[k + 1] && b[1..][k] == b[k + 1] { }
        }
        ProcesarIgnoraPrecio(Paso(acc, a[0], nivel).value, a[1..], b[1..], nivel);
      }
    }
  }

  /** The server reprices every line: the unit price the browser sends changes nothing. */
  lemma CrearVentaIgnoraPrecioUnitario(productos: seq<Producto>, clientes: seq<Cliente>, usuarios: seq<Usuario>,
                                       sesiones: seq<SesionCaja>, ventas: seq<Venta>, a: VentaDTO, b: VentaDTO, ahora: int)
    requires MismoPedidoSalvoPrecio(a, b)
    ensures CrearVentaSpec(productos, clientes, usuarios, sesiones, ventas, a, ahora)
            == CrearVentaSpec(productos, clientes, usuarios, sesiones, ventas, b, ahora)
  {
    if Fila(clientes, a.clienteId).Some? {
      ProcesarIgnoraPrecio(Acumulado(productos, [], 0), a.detalles, b.detalles, Fila(clientes, a.clienteId).value.nivelPrecioAsignado);
    }
  }

  /** `anularVenta`. */
  method AnularVenta(db: Db, ventaId: int, usuarioId: int, motivo: Option<string>, ahora: int) returns (r: Resultado<Venta>)
    requires db.Valid()
    modifies db
    ensures db.Valid()
    ensures match AnularVentaSpec(old(db.productos), old(db.usuarios), old(db.ventas), ventaId, usuarioId, motivo, ahora)
      case Ok(a) => r == Ok(a.venta) && db.productos == a.productos && 1 <= ventaId <= |old(db.ventas)|
                    && db.ventas == old(db.ventas)[ventaId - 1 := a.venta]
      case Err(e) => r == Err(e) && db.productos == old(db.productos) && db.ventas == old(db.ventas)
    ensures db.categorias == old(db.categorias) && db.ubicaciones == old(db.ubicaciones) && db.roles == old(db.roles)
    ensures db.clientes == old(db.clientes) && db.usuarios == old(db.usuarios) && db.sesiones == old(db.sesiones)
  {
    var venta: Venta;
    match Fila(db.ventas, ventaId) {
      case None => return Err(RuntimeException(NoEncontrado("Venta", NO_ENCONTRADA, " ID: ", ventaId)));
      case Some(v) => venta := v;
    }
    if venta.estado == Anulada {
      return Err(RuntimeException(VENTA_YA_ANULADA));
    }
    if Fila(db.usuarios, usuarioId).None? {
      return Err(RuntimeException(NoEncontrado("Usuario", NO_ENCONTRADO, " ID: ", usuarioId)));
    }
    assert VentaValida(venta, |db.productos|, |db.clientes|, |db.usuarios|, |db.sesiones|);
    var productos := db.productos;
    var i := 0;
    while i < |venta.detalles|
      invariant 0 <= i <= |venta.detalles|
      invariant |productos| == |db.productos|
      invariant Restaurar(db.productos, venta.detalles) == Restaurar(productos, venta.detalles[i..])
    {
      var detalle := venta.detalles[i];
      assert venta.detalles[i..] == [detalle] + venta.detalles[i + 1..];
      var producto := productos[detalle.productoId - 1];
      productos := productos[detalle.productoId - 1 := producto.(cantidadStock := producto.cantidadStock + detalle.cantidad)];
      i := i + 1;
    }
    var anulada := venta.(estado := Anulada, motivoAnulacion := motivo, fechaAnulacion := Some(ahora),
                          usuarioAnuloId := Some(usuarioId));
    AnuladaConsistente(db.categorias, db.ubicaciones, db.roles, db.productos, db.clientes, db.usuarios,
                       db.sesiones, db.ventas, ventaId, usuarioId, motivo, ahora);
    db.productos := productos;
    db.ventas := db.ventas[ventaId - 1 := anulada];
    r := Ok(anulada);
  }

  /** A successful void keeps the database consistent. */
  lemma AnuladaConsistente(categorias: seq<Categoria>, ubicaciones: seq<Ubicacion>, roles: seq<Rol>,
                           productos: seq<Producto>, clientes: seq<Cliente>, usuarios: seq<Usuario>,
                           sesiones: seq<SesionCaja>, ventas: seq<Venta>,
                           ventaId: int, usuarioId: int, motivo: Option<string>, ahora: int)
    requires Consistente(categorias, ubicaciones, roles, productos, clientes, usuarios, sesiones, ventas)
    requires AnularVentaSpec(productos, usuarios, ventas, ventaId, usuarioId, motivo, ahora).Ok?
    ensures var a := AnularVentaSpec(productos, usuarios, ventas, ventaId, usuarioId, motivo, ahora).value;
      1 <= ventaId <= |ventas|
      && Consistente(categorias, ubicaciones, roles, a.productos, clientes, usuarios, sesiones, ventas[ventaId - 1 := a.venta])
  {
    var a := AnularVentaSpec(productos, usuarios, ventas, ventaId, usuarioId, motivo, ahora).value;
    var v := ventas[ventaId - 1];
    assert VentaValida(v, |productos|, |clientes|, |usuarios|, |sesiones|);
    RestaurarStock(productos, v.detalles);
    assert ProductosValidos(a.productos, |categorias|, |ubicaciones|) by {
      forall i | 0 <= i < |a.productos|
        ensures a.productos[i].productoId == i + 1
        ensures 1 <= a.productos[i].categoriaId <= |categorias| && 1 <= a.productos[i].ubicacionId <= |ubicaciones|
      {
        assert a.productos[i] == productos[i].(cantidadStock := a.productos[i].cantidadStock);
      }
    }
  }

  lemma {:induction false} LineasEspejo(ls: seq<DetalleVenta>, ds: seq<DetalleVentaDTO>, productoId: int)
    requires |ls| == |ds|
    requires forall k | 0 <= k < |ls| :: ls[k].productoId == ds[k].productoId && ls[k].cantidad == ds[k].cantidad
    ensures SumaCantidades(ls, productoId) == SumaPedida(ds, productoId)
    decreases |ls|
  {
    if ls != [] {
      LineasEspejo(ls[1..], ds[1..], productoId);
    }
  }

  /** Voiding a sale right after creating it gives every product its stock back:
      the catalogue is exactly what it was before the sale. */
  lemma CrearAnularRestaura(productos: seq<Producto>, clientes: seq<Cliente>, usuarios: seq<Usuario>,
                            sesiones: seq<SesionCaja>, ventas: seq<Venta>, dto: VentaDTO, ahora: int,
                            usuarioId: int, motivo: Option<string>, despues: int)
    requires CrearVentaSpec(productos, clientes, usuarios, sesiones, ventas, dto, ahora).Ok?
    requires 1 <= usuarioId <= |usuarios|
    ensures var c := CrearVentaSpec(productos, clientes, usuarios, sesiones, ventas, dto, ahora).value;
      var a := AnularVentaSpec(c.productos, usuarios, ventas + [c.venta], |ventas| + 1, usuarioId, motivo, despues);
      a.Ok? && a.value.productos == productos && a.value.venta.estado == Anulada
  {
    var c := CrearVentaSpec(productos, clientes, usuarios, sesiones, ventas, dto, ahora).value;
    CrearVentaFiel(productos, clientes, usuarios, sesiones, ventas, dto, ahora);
    var ls := c.venta.detalles;
    assert Fila(ventas + [c.venta], |ventas| + 1) == Some(c.venta);
    RestaurarStock(c.productos, ls);
    var repuestos := Restaurar(c.productos, ls);
    forall i | 0 <= i < |productos| ensures repuestos[i] == productos[i] {
      LineasEspejo(ls, dto.detalles, i + 1);
    }
    assert repuestos == productos;
  }

  /** A voided sale cannot be voided again. */
  lemma AnularDosVeces(productos: seq<Producto>, usuarios: seq<Usuario>, ventas: seq<Venta>, ventaId: int,
                       usuarioId: int, motivo: Option<string>, ahora: int,
                       otroUsuario: int, otroMotivo: Option<string>, despues: int)
    requires AnularVentaSpec(productos, usuarios, ventas, ventaId, usuarioId, motivo, ahora).Ok?
    ensures var a := AnularVentaSpec(productos, usuarios, ventas, ventaId, usuarioId, motivo, ahora).value;
      AnularVentaSpec(a.productos, usuarios, ventas[ventaId - 1 := a.venta], ventaId, otroUsuario, otroMotivo, despues)
      == Err(RuntimeException(VENTA_YA_ANULADA))
  {
    var a := AnularVentaSpec(productos, usuarios, ventas, ventaId, usuarioId, motivo, ahora).value;
    assert Fila(ventas[ventaId - 1 := a.venta], ventaId) == Some(a.venta);
  }

  // ---- the dashboard figures ----

  /** `BigDecimal.divide(.., RoundingMode.HALF_UP)` to a whole unit: the quotient
      rounded to nearest, halves away from zero. */
  function DividirHalfUp(a: int, b: int): (q: int)
    requires b > 0
    ensures a >= 0 ==> -b <= 2 * (a - q * b) < b
    ensures a < 0 ==> -b < 2 * (a - q * b) <= b
  {
    if a >= 0 then (2 * a + b) / (2 * b) else -((2 * (-a) + b) / (2 * b))
  }

  const SEGUNDOS_POR_DIA := 86400

  /** `Duration.toDays()`: whole days, truncated toward zero. */
  function ADias(segundos: int): (d: int)
    ensures segundos >= 0 ==> d >= 0 && d * SEGUNDOS_POR_DIA <= segundos < (d + 1) * SEGUNDOS_POR_DIA
    ensures segundos < 0 ==> d <= 0 && (d - 1) * SEGUNDOS_POR_DIA < segundos <= d * SEGUNDOS_POR_DIA
  {
    if segundos >= 0 then segundos / SEGUNDOS_POR_DIA else -((-segundos) / SEGUNDOS_POR_DIA)
  }

  /** The figures of `obtenerEstadisticas`. Amounts are in cents, so the average
      ticket rounded to two decimals is a whole number of cents; the comparison (the
      ratio rounded to four decimals, times 100) is a whole number of hundredths of
      a percent. */
  datatype EstadisticasVentas = EstadisticasVentas(
    totalVentas: int, numeroTransacciones: int, ticketPromedio: int, comparacionPeriodoAnterior: int)

  function PeriodoAnterior(fechaInicio: int, fechaFin: int): (p: (int, int))
    ensures p.1 == fechaInicio - 1
    ensures fechaFin >= fechaInicio ==> p.0 <= fechaInicio && fechaInicio - p.0 <= fechaFin - fechaInicio
  {
    (fechaInicio - ADias(fechaFin - fechaInicio) * SEGUNDOS_POR_DIA, fechaInicio - 1)
  }

  function ObtenerEstadisticas(ventas: seq<Venta>, fechaInicio: int, fechaFin: int): (r: EstadisticasVentas)
    ensures r.totalVentas == VentaRepository.CalcularTotalVentas(ventas, fechaInicio, fechaFin)
    ensures r.numeroTransacciones == IntValue(VentaRepository.ContarTransacciones(ventas, fechaInicio, fechaFin))
    ensures VentaRepository.ContarTransacciones(ventas, fechaInicio, fechaFin) == 0
            ==> r.totalVentas == 0 && r.ticketPromedio == 0
    ensures var n: int := VentaRepository.ContarTransacciones(ventas, fechaInicio, fechaFin);
      n > 0 ==> (r.totalVentas >= 0 ==> -n <= 2 * (r.totalVentas - r.ticketPromedio * n) < n)
                && (r.totalVentas < 0 ==> -n < 2 * (r.totalVentas - r.ticketPromedio * n) <= n)
    ensures var prev := PeriodoAnterior(fechaInicio, fechaFin);
      VentaRepository.CalcularTotalVentas(ventas, prev.0, prev.1) <= 0 ==> r.comparacionPeriodoAnterior == 0
    ensures var prev := PeriodoAnterior(fechaInicio, fechaFin);
      var p := VentaRepository.CalcularTotalVentas(ventas, prev.0, prev.1);
      var d := (r.totalVentas - p) * 10000;
      p > 0 ==> (d >= 0 ==> -p <= 2 * (d - r.comparacionPeriodoAnterior * p) < p)
                && (d < 0 ==> -p < 2 * (d - r.comparacionPeriodoAnterior * p) <= p)
  {
    var total := VentaRepository.CalcularTotalVentas(ventas, fechaInicio, fechaFin);
    var n := VentaRepository.ContarTransacciones(ventas, fechaInicio, fechaFin);
    VentaRepository.SinTransaccionesSinTotal(ventas, fechaInicio, fechaFin);
    var ticket := if n > 0 then DividirHalfUp(total, n) else 0;
    var prev := PeriodoAnterior(fechaInicio, fechaFin);
    var totalPrev := VentaRepository.CalcularTotalVentas(ventas, prev.0, prev.1);
    var comparacion := if totalPrev > 0 then DividirHalfUp((total - totalPrev) * 10000, totalPrev) else 0;
    EstadisticasVentas(total, IntValue(n), ticket, comparacion)
  }

  datatype ProductoMasVendidoDTO = ProductoMasVendidoDTO(productoId: int, nombreProducto: string, cantidadVendida: int, montoTotal: int)

  function Min(a: int, b: int): int { if a <= b then a else b }

  /** `obtenerProductosMasVendidos`: the first `limite` rows (10 when null) of the
      top-sellers query; a negative limit makes `Stream.limit` throw. */
  function ObtenerProductosMasVendidos(ventas: seq<Venta>, productos: seq<Producto>, fechaInicio: int, fechaFin: int,
                                       limite: Option<int>): (r: Resultado<seq<ProductoMasVendidoDTO>>)
    ensures r.Err? <==> limite.GetOr(10) < 0
    ensures r.Err? ==> r.error == IllegalArgumentException(Show(limite.GetOr(10)))
    ensures r.Ok? ==>
      var filas := VentaRepository.ObtenerProductosMasVendidos(ventas, productos, fechaInicio, fechaFin);
      |r.value| == Min(limite.GetOr(10), |filas|)
      && forall k | 0 <= k < |r.value| ::
           r.value[k] == ProductoMasVendidoDTO(filas[k].productoId, filas[k].nombreProducto,
                                               IntValue(filas[k].cantidadVendida), filas[k].montoTotal)
  {
    var n := limite.GetOr(10);
    if n < 0 then Err(IllegalArgumentException(Show(n)))
    else
      var filas := VentaRepository.ObtenerProductosMasVendidos(ventas, productos, fechaInicio, fechaFin);
      var tomadas := filas[..Min(n, |filas|)];
      Ok(seq(|tomadas|, k requires 0 <= k < |tomadas| =>
        ProductoMasVendidoDTO(tomadas[k].productoId, tomadas[k].nombreProducto,
                              IntValue(tomadas[k].cantidadVendida), tomadas[k].montoTotal)))
  }
}
