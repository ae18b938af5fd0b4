/** Vocabulary shared by the browser and the server: the enumerations of
    frontend/src/types/index.ts (mirrored one-to-one by the backend enums) and the
    JSON shape of a sale request, which the browser builds and the server reads. */
module Domain {
  import opened Wrappers

  /** A client's price tier. */
  datatype NivelPrecio = Publico | Mayorista | Costo

  datatype EstadoVenta = Completada | Anulada

  datatype MetodoPago = Efectivo | Tarjeta | Mixto

  datatype EstadoSesion = Abierta | Cerrada

  /** One requested line of a sale. `precioUnitario` and `descuento` are optional
      in the JSON; amounts are integer cents. */
  datatype DetalleVentaDTO = DetalleVentaDTO(
    productoId: int,
    cantidad: int,
    precioUnitario: Option<int>,
    descuento: Option<int>)

  /** A sale request: the header fields the controller validates as non-null and
      the list of requested lines, in order. */
  datatype VentaDTO = VentaDTO(
    clienteId: int,
    usuarioId: int,
    sesionId: int,
    metodoPago: MetodoPago,
    detalles: seq<DetalleVentaDTO>)
}
