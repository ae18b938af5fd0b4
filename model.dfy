/** The server's records (the JPA entities under src/main/java/com/libreria/libreria/model/),
    its request bodies and the exceptions its services throw. Money is in cents and
    timestamps are in seconds. The bounds the entities' bean-validation
    annotations put on prices are carried by the types (`nat`). */
module Model {
  import opened Wrappers
  import opened Domain
  import opened Text

  datatype Categoria = Categoria(categoriaId: int, nombre: string)
  datatype Ubicacion = Ubicacion(ubicacionId: int, nombreCorto: string)
  datatype Rol = Rol(rolId: int, nombre: string)

  /** A catalogue product. `precioCosto` may be null; `activo` is a nullable
      `Boolean`; the stock has no lower bound of its own. */
  datatype Producto = Producto(
    productoId: int,
    categoriaId: int,
    ubicacionId: int,
    nombre: string,
    descripcion: Option<string>,
    sku: Option<string>,
    precioVenta: nat,
    precioMayorista: nat,
    precioCosto: Option<nat>,
    cantidadStock: int,
    activo: Option<bool>)

  datatype Cliente = Cliente(
    clienteId: int,
    nombreCompleto: string,
    nit: Option<string>,
    telefono: Option<string>,
    direccion: Option<string>,
    email: Option<string>,
    nivelPrecioAsignado: NivelPrecio,
    activo: Option<bool>)

  datatype Usuario = Usuario(
    usuarioId: int,
    rolId: int,
    nombreCompleto: string,
    username: string,
    passwordHash: string,
    activo: bool)

  datatype SesionCaja = SesionCaja(
    sesionId: int,
    usuarioAperturaId: int,
    fechaApertura: int,
    montoInicial: int,
    usuarioCierreId: Option<int>,
    fechaCierre: Option<int>,
    montoFinalEsperado: Option<int>,
    montoFinalContado: Option<int>,
    diferencia: Option<int>,
    estado: EstadoSesion)

  /** A stored sale line: the unit price and the amount are the server's own. */
  datatype DetalleVenta = DetalleVenta(
    productoId: int,
    cantidad: int,
    precioUnitario: int,
    descuento: int,
    subtotal: int)

  datatype Venta = Venta(
    ventaId: int,
    sesionId: int,
    usuarioId: int,
    clienteId: int,
    fechaVenta: int,
    montoTotal: int,
    metodoPago: MetodoPago,
    estado: EstadoVenta,
    motivoAnulacion: Option<string>,
    fechaAnulacion: Option<int>,
    usuarioAnuloId: Option<int>,
    detalles: seq<DetalleVenta>)

  /** The bean-validation bounds of a stored sale line (`DetalleVenta`: cantidad at
      least 1, unit price, discount and amount not negative), which the persistence
      layer checks when the sale is written. */
  predicate DetalleAdmisible(d: DetalleVenta) {
    d.cantidad >= 1 && d.precioUnitario >= 0 && d.descuento >= 0 && d.subtotal >= 0
  }

  /** The request bodies, as they arrive once the controller's `@Valid` has accepted them. */
  datatype ProductoDTO = ProductoDTO(
    categoriaId: int,
    ubicacionId: int,
    nombre: string,
    descripcion: Option<string>,
    sku: Option<string>,
    precioVenta: nat,
    precioMayorista: nat,
    precioCosto: Option<nat>,
    cantidadStock: int,
    activo: Option<bool>)

  datatype ClienteDTO = ClienteDTO(
    nombreCompleto: string,
    nit: Option<string>,
    telefono: Option<string>,
    direccion: Option<string>,
    email: Option<string>,
    nivelPrecioAsignado: NivelPrecio,
    activo: Option<bool>)

  datatype CreateUsuarioDTO = CreateUsuarioDTO(rolId: int, nombreCompleto: string, username: string, password: string)

  /** The opening float is `@PositiveOrZero`. */
  datatype AperturaCajaDTO = AperturaCajaDTO(usuarioId: int, montoInicial: nat)

  datatype CierreCajaDTO = CierreCajaDTO(usuarioId: int, montoFinalContado: int)

  datatype FieldError = FieldError(field: string, defaultMessage: string)

  /** What a service call can throw. All but the last are `RuntimeException`s. */
  datatype Excepcion =
    | StockInsuficienteException(message: string)
    | RuntimeException(message: string)
    | ConstraintViolationException(message: string)
    | IllegalArgumentException(message: string)
    | MethodArgumentNotValidException(fieldErrors: seq<FieldError>)

  /** The outcome of a service call. */
  type Resultado<T> = Result<T, Excepcion>

  /** The message the persistence layer's bean validation starts with when a
      sale line breaks its bounds; the list of violations it appends is not modelled. */
  const VALIDACION_DETALLE := "Validation failed for classes [com.libreria.libreria.model.DetalleVenta] during persist time"

  /** `findById` on an IDENTITY table whose rows carry the ids 1, 2, 3, ... in order. */
  function Fila<T>(tabla: seq<T>, id: int): (r: Option<T>)
    ensures r.Some? <==> 1 <= id <= |tabla|
    ensures r.Some? ==> r.value == tabla[id - 1]
  {
    if 1 <= id <= |tabla| then Some(tabla[id - 1]) else None
  }

  /** In a table whose rows carry the ids 1, 2, 3, ... in order, the lookup finds a
      row exactly when some row carries the id, and the row it finds carries it. */
  lemma FilaPorId<T>(tabla: seq<T>, idDe: T -> int, id: int)
    requires forall i | 0 <= i < |tabla| :: idDe(tabla[i]) == i + 1
    ensures Fila(tabla, id).Some? <==> exists i | 0 <= i < |tabla| :: idDe(tabla[i]) == id
    ensures Fila(tabla, id).Some? ==> idDe(Fila(tabla, id).value) == id
  {
    if 1 <= id <= |tabla| {
      assert idDe(tabla[id - 1]) == id;
    }
  }

  /** `Long.intValue()` (and any narrowing to a Java `int`): the value modulo 2^32,
      read as a two's-complement 32-bit integer. */
  function IntValue(x: int): (r: int)
    ensures -0x8000_0000 <= r < 0x8000_0000
    ensures (x - r) % 0x1_0000_0000 == 0
    ensures -0x8000_0000 <= x < 0x8000_0000 ==> r == x
  {
    (x + 0x8000_0000) % 0x1_0000_0000 - 0x8000_0000
  }

  const NO_ENCONTRADO := "no encontrado"
  const NO_ENCONTRADA := "no encontrada"

  /** The message a service throws when a lookup by id comes back empty: the
      entity, the phrase in the entity's grammatical gender, an id tag
      (`" ID: "` or `" con ID: "`) and the id. */
  function NoEncontrado(entidad: string, frase: string, etiqueta: string, id: int): string {
    entidad + " " + frase + etiqueta + Show(id)
  }
}
