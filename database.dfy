/** The tables the services read and write. Every table has an IDENTITY key and no
    operation in this model deletes a row, so the row with id k is element k - 1 and
    a new row gets id |table| + 1; `findAll` returns rows in id order. */
module Database {
  import opened Wrappers
  import opened Domain
  import opened Model

  predicate CategoriasIdentificadas(t: seq<Categoria>) {
    forall i | 0 <= i < |t| :: t[i].categoriaId == i + 1
  }

  predicate UbicacionesIdentificadas(t: seq<Ubicacion>) {
    forall i | 0 <= i < |t| :: t[i].ubicacionId == i + 1
  }

  predicate RolesIdentificados(t: seq<Rol>) {
    forall i | 0 <= i < |t| :: t[i].rolId == i + 1
  }

  /** Product rows carry their own id and point at an existing category and location. */
  predicate ProductosValidos(t: seq<Producto>, numCategorias: int, numUbicaciones: int) {
    forall i | 0 <= i < |t| ::
      t[i].productoId == i + 1
      && 1 <= t[i].categoriaId <= numCategorias && 1 <= t[i].ubicacionId <= numUbicaciones
  }

  predicate ClientesIdentificados(t: seq<Cliente>) {
    forall i | 0 <= i < |t| :: t[i].clienteId == i + 1
  }

  /** `username` is a unique column. */
  predicate UsernamesUnicos(t: seq<Usuario>) {
    forall i, j | 0 <= i < j < |t| :: t[i].username != t[j].username
  }

  predicate UsuariosValidos(t: seq<Usuario>, numRoles: int) {
    (forall i | 0 <= i < |t| :: t[i].usuarioId == i + 1 && 1 <= t[i].rolId <= numRoles)
    && UsernamesUnicos(t)
  }

  /** No user has two open sessions. */
  predicate UnaAbiertaPorUsuario(t: seq<SesionCaja>) {
    forall i, j | 0 <= i < j < |t| && t[i].estado == Abierta && t[j].estado == Abierta ::
      t[i].usuarioAperturaId != t[j].usuarioAperturaId
  }

  predicate SesionesValidas(t: seq<SesionCaja>, numUsuarios: int) {
    (forall i | 0 <= i < |t| :: t[i].sesionId == i + 1 && 1 <= t[i].usuarioAperturaId <= numUsuarios)
    && UnaAbiertaPorUsuario(t)
  }

  function SumaSubtotales(ds: seq<DetalleVenta>): int
    decreases |ds|
  {
    if ds == [] then 0 else ds[0].subtotal + SumaSubtotales(ds[1..])
  }

  lemma {:induction false} SumaSubtotalesAppend(ds: seq<DetalleVenta>, d: DetalleVenta)
    ensures SumaSubtotales(ds + [d]) == SumaSubtotales(ds) + d.subtotal
    decreases |ds|
  {
    if ds == [] {
      assert [] + [d] == [d];
    } else {
      assert (ds + [d])[1..] == ds[1..] + [d];
      SumaSubtotalesAppend(ds[1..], d);
    }
  }

  /** The quantity of one product across a list of sale lines. */
  function SumaCantidades(ds: seq<DetalleVenta>, productoId: int): int
    decreases |ds|
  {
    if ds == [] then 0
    else (if ds[0].productoId == productoId then ds[0].cantidad else 0) + SumaCantidades(ds[1..], productoId)
  }

  /** A stored sale: its references exist, its lines respect their bounds, and its
      total is the sum of its line amounts. */
  predicate VentaValida(v: Venta, numProductos: int, numClientes: int, numUsuarios: int, numSesiones: int) {
    1 <= v.sesionId <= numSesiones && 1 <= v.clienteId <= numClientes && 1 <= v.usuarioId <= numUsuarios
    && (v.usuarioAnuloId.Some? ==> 1 <= v.usuarioAnuloId.value <= numUsuarios)
    && (forall k | 0 <= k < |v.detalles| ::
          1 <= v.detalles[k].productoId <= numProductos && DetalleAdmisible(v.detalles[k]))
    && v.montoTotal == SumaSubtotales(v.detalles)
  }

  predicate VentasValidas(t: seq<Venta>, numProductos: int, numClientes: int, numUsuarios: int, numSesiones: int) {
    forall i | 0 <= i < |t| :: t[i].ventaId == i + 1 && VentaValida(t[i], numProductos, numClientes, numUsuarios, numSesiones)
  }

  /** Every table's own invariant and every reference between tables. */
  predicate Consistente(categorias: seq<Categoria>, ubicaciones: seq<Ubicacion>, roles: seq<Rol>,
                        productos: seq<Producto>, clientes: seq<Cliente>, usuarios: seq<Usuario>,
                        sesiones: seq<SesionCaja>, ventas: seq<Venta>) {
    CategoriasIdentificadas(categorias) && UbicacionesIdentificadas(ubicaciones) && RolesIdentificados(roles)
    && ProductosValidos(productos, |categorias|, |ubicaciones|)
    && ClientesIdentificados(clientes)
    && UsuariosValidos(usuarios, |roles|)
    && SesionesValidas(sesiones, |usuarios|)
    && VentasValidas(ventas, |productos|, |clientes|, |usuarios|, |sesiones|)
  }

  /** In a consistent database, `findById` on every table returns the row that
      carries the id asked for, and finds one exactly when such a row exists. */
  lemma FilaIdentificada(categorias: seq<Categoria>, ubicaciones: seq<Ubicacion>, roles: seq<Rol>,
                         productos: seq<Producto>, clientes: seq<Cliente>, usuarios: seq<Usuario>,
                         sesiones: seq<SesionCaja>, ventas: seq<Venta>, id: int)
    requires Consistente(categorias, ubicaciones, roles, productos, clientes, usuarios, sesiones, ventas)
    ensures Fila(productos, id).Some? <==> exists i | 0 <= i < |productos| :: productos[i].productoId == id
    ensures Fila(productos, id).Some? ==> Fila(productos, id).value.productoId == id
    ensures Fila(clientes, id).Some? <==> exists i | 0 <= i < |clientes| :: clientes[i].clienteId == id
    ensures Fila(clientes, id).Some? ==> Fila(clientes, id).value.clienteId == id
    ensures Fila(usuarios, id).Some? <==> exists i | 0 <= i < |usuarios| :: usuarios[i].usuarioId == id
    ensures Fila(usuarios, id).Some? ==> Fila(usuarios, id).value.usuarioId == id
    ensures Fila(sesiones, id).Some? <==> exists i | 0 <= i < |sesiones| :: sesiones[i].sesionId == id
    ensures Fila(sesiones, id).Some? ==> Fila(sesiones, id).value.sesionId == id
    ensures Fila(ventas, id).Some? <==> exists i | 0 <= i < |ventas| :: ventas[i].ventaId == id
    ensures Fila(ventas, id).Some? ==> Fila(ventas, id).value.ventaId == id
  {
    FilaPorId(productos, (p: Producto) => p.productoId, id);
    FilaPorId(clientes, (c: Cliente) => c.clienteId, id);
    FilaPorId(usuarios, (u: Usuario) => u.usuarioId, id);
    FilaPorId(sesiones, (s: SesionCaja) => s.sesionId, id);
    FilaPorId(ventas, (v: Venta) => v.ventaId, id);
  }

  class Db {
    var categorias: seq<Categoria>
    var ubicaciones: seq<Ubicacion>
    var roles: seq<Rol>
    var productos: seq<Producto>
    var clientes: seq<Cliente>
    var usuarios: seq<Usuario>
    var sesiones: seq<SesionCaja>
    var ventas: seq<Venta>

    ghost predicate Valid()
      reads this
    {
      Consistente(categorias, ubicaciones, roles, productos, clientes, usuarios, sesiones, ventas)
    }

    /** An empty database holding only the given catalogues. */
    constructor (categorias: seq<Categoria>, ubicaciones: seq<Ubicacion>, roles: seq<Rol>)
      requires CategoriasIdentificadas(categorias) && UbicacionesIdentificadas(ubicaciones)
      requires RolesIdentificados(roles)
      ensures Valid()
      ensures this.categorias == categorias && this.ubicaciones == ubicaciones && this.roles == roles
      ensures productos == [] && clientes == [] && usuarios == [] && sesiones == [] && ventas == []
    {
      this.categorias := categorias;
      this.ubicaciones := ubicaciones;
      this.roles := roles;
      productos := [];
      clientes := [];
      usuarios := [];
      sesiones := [];
      ventas := [];
    }
  }
}
