# Librería point of sale — a verified model

The system is the point of sale of a bookshop. It has two halves.

The browser keeps the sale in progress:
- a cart of product lines, each priced by the tier of the selected client (público, mayorista or costo);
- a checkout button that turns the cart into a sale request;
- a product form with field validation;
- a route guard that admits users by role.

The Spring server holds the business rules:
- a sale engine that prices each requested line on the server, checks and deducts stock, sums the total and can void a sale (putting the stock back);
- a cash-session state machine (Abierta → Cerrada) that computes the expected cash from the opening float and the completed cash sales;
- the sale queries behind the reports;
- soft-deleting product and client tables;
- a user registry with unique user names and a login decision;
- an exception handler that maps errors to HTTP answers.

How the model is written:
- Money is a whole number of cents and instants are whole seconds.
- The server's tables are append-only sequences inside one `Database.Db` object. The row with id `n` sits at index `n - 1`, matching the IDENTITY keys; no operation of the core removes a row.
- Each `@Transactional` service method is a Dafny method on `Db`. It computes on local copies, commits only on success, and is proved equal to a function over the tables as values. The properties the source promises are lemmas about those functions.
- The cart, the checkout sidebar and the product form are classes, because they update their state in place.
- The price tiers and the route rule are pure functions.

Module layout:
- `Cart`, `Checkout`, `ProductForm`, `Routing`: the browser half.
- `Model`, `Database`, `VentaService`, `SesionCajaService`, `VentaRepository`, `ProductoService`, `ClienteService`, `UsuarioService`, `ExceptionHandler`: the server half.
- `Integracion`: the facts that span both halves:
  - the server charges what the cart shows;
  - a sale moves its session's cash;
  - a closed session turns sales away;
  - how server errors reach the browser.
- `Text`, `Sorting`, `Wrappers`, `Domain`: shared support.

## Model

| member | source | states |
|---|---|---|
| `Cart.GetPrecioCorrecto` | frontend/src/context/CartContext.tsx:28-36 | the price is the field the client's tier names; with no client it is `precioVenta` |
| `Cart.PrecioDeNivel` | frontend/src/context/CartContext.tsx:28-36 | the price field each tier designates; `GetPrecioCorrecto` is proved to return it |
| `Cart.PreciosVigentes` | frontend/src/context/CartContext.tsx:41 | every line is charged its tier price for the client; preserved by `AgregarMantienePrecios` and `ActualizarMantienePrecios`, restored by `RecalcularSpec` |
| `Cart.Total` | frontend/src/context/CartContext.tsx:106-108 | the sum of the line amounts; `TotalAppend`, `TotalUpdate` and `TotalConcat` state how it moves |
| `Cart.Agregar` | frontend/src/context/CartContext.tsx:38-66 | the new lines of `agregarProducto`; `AgregarNuevo` and `AgregarExistente` state them |
| `Cart.Eliminar` | frontend/src/context/CartContext.tsx:68-70 | the lines without the product; `EliminarSpec`, `EliminarPresente` and `EliminarAusente` state them |
| `Cart.ActualizarCantidad` | frontend/src/context/CartContext.tsx:72-84 | the lines after a quantity change; `ActualizarCantidadSpec` states them |
| `Cart.Recalcular` | frontend/src/context/CartContext.tsx:86-99 | the lines repriced for a client; `RecalcularSpec` and `TotalRecalculado` state them |
| `Cart.TotalAppend` | frontend/src/context/CartContext.tsx:106-108 | appending a line adds its subtotal to the total |
| `Cart.TotalUpdate` | frontend/src/context/CartContext.tsx:106-108 | replacing one line changes the total by the difference of the two subtotals |
| `Cart.TotalConcat` | frontend/src/context/CartContext.tsx:106-108 | the total of two carts joined is the sum of their totals |
| `Cart.AgregarNuevo` | frontend/src/context/CartContext.tsx:55-63 | adding an absent product appends one line: quantity 1, the tier price, subtotal equal to the price; earlier lines unchanged; the cart stays valid and the total grows by the price |
| `Cart.LineaDe` | frontend/src/context/CartContext.tsx:40 | a product in the cart has a line index carrying its id |
| `Cart.AgregarExistente` | frontend/src/context/CartContext.tsx:43-53 | adding a product already present raises that line's quantity by one and sets its subtotal to the new quantity times the price; length and other lines unchanged; still one line per product |
| `Cart.EliminarAusente` | frontend/src/context/CartContext.tsx:68-70 | removing an absent product changes nothing |
| `Cart.EliminarSubsecuencia` | frontend/src/context/CartContext.tsx:68-70 | the result holds no line of that product, is no longer than the input, and every remaining line comes from the input |
| `Cart.EliminarPresente` | frontend/src/context/CartContext.tsx:68-70 | in a duplicate-free cart, removing the product of line k removes exactly line k and keeps the rest in order |
| `Cart.SinDuplicadosQuitar` | frontend/src/context/CartContext.tsx:68-70 | dropping one line keeps at most one line per product |
| `Cart.EliminarSpec` | frontend/src/context/CartContext.tsx:68-70 | on a valid cart, removal gives a valid cart without that product; if the product had line k the result is the cart without line k and the total drops by its subtotal; otherwise the cart is unchanged |
| `Cart.QuitarTotal` | frontend/src/context/CartContext.tsx:106-108 | taking out line k lowers the total by its subtotal |
| `Cart.EliminarConsistente` | frontend/src/context/CartContext.tsx:68-70 | removal keeps every remaining line's quantity positive and its subtotal equal to quantity times price |
| `Cart.AgregarEliminar` | frontend/src/context/CartContext.tsx:38-70 | adding an absent product and then removing it gives back the original cart |
| `Cart.ActualizarCantidadSpec` | frontend/src/context/CartContext.tsx:72-84 | a quantity of zero or less is removal; otherwise only the matching line changes, keeping its price with subtotal = price × quantity; the cart stays valid |
| `Cart.RecalcularSpec` | frontend/src/context/CartContext.tsx:86-99 | repricing keeps length, order, products and quantities, gives each line its own product's tier price, and keeps the cart valid |
| `Cart.RecalcularOlvida` | frontend/src/context/CartContext.tsx:86-99 | repricing for one client and then another equals repricing for the second; repricing twice for the same client is idempotent |
| `Cart.TotalRecalculado` | frontend/src/context/CartContext.tsx:86-108 | after repricing, the total is the sum of quantity × tier price over the lines |
| `Cart.AgregarMantienePrecios` | frontend/src/context/CartContext.tsx:38-66 | adding a product at the current client's price keeps every line priced for that client |
| `Cart.ActualizarMantienePrecios` | frontend/src/context/CartContext.tsx:72-84 | changing a quantity keeps every line priced for the current client |
| `Cart.CartState.constructor` | frontend/src/context/CartContext.tsx:24-25 | the cart starts with no lines and no client |
| `Cart.CartState.AgregarProducto` | frontend/src/context/CartContext.tsx:38-66 | the new lines are `Agregar` at the selected client's price; the client is kept; the cart stays valid; the lines stay priced for that client when they were before and the snapshot passed in equals the one the cart holds for that product |
| `Cart.CartState.EliminarProducto` | frontend/src/context/CartContext.tsx:68-70 | the new lines are `Eliminar` of the old ones; the client is kept; the cart stays valid |
| `Cart.CartState.ActualizarCantidadLinea` | frontend/src/context/CartContext.tsx:72-84 | the new lines are `ActualizarCantidad` of the old ones; the client is kept; the cart stays valid |
| `Cart.CartState.SeleccionarCliente` | frontend/src/context/CartContext.tsx:86-99 | the client is set and every line is repriced for it |
| `Cart.CartState.LimpiarCarrito` | frontend/src/context/CartContext.tsx:101-104 | no lines and no client remain |
| `Cart.CartState.TotalVenta` | frontend/src/context/CartContext.tsx:106-108 | `Total` of the current lines |
| `Checkout.PayloadFiel` | frontend/src/components/CartSidebar.tsx:15-52 | no client: rejected with the client message; a client but no session: rejected with the session message; otherwise one request line per cart line in order (product, quantity, unit price, discount 0) with the client, the session's opening user, the session and cash payment; at those prices the request asks for the cart's total |
| `Checkout.Detalles` | frontend/src/components/CartSidebar.tsx:28-33 | one request line per cart line, with product, quantity, the cart's unit price and a zero discount; `PayloadFiel` and `ImporteIgualTotal` state it |
| `Checkout.Payload` | frontend/src/components/CartSidebar.tsx:35-41 | the request body, paid in cash, charged to the session opener; `PayloadFiel` states it |
| `Checkout.ProcesarVenta` | frontend/src/components/CartSidebar.tsx:15-52 | the handler's outcome: the client check first, then the session check, then the request; `PayloadFiel` states it |
| `Checkout.Aviso` | frontend/src/components/CartSidebar.tsx:15-52 | the toast each outcome shows; `HandleProcesarVenta` appends it |
| `Checkout.CartSidebar.BotonHabilitado` | frontend/src/components/CartSidebar.tsx:162 | the button is live when no request is in flight and the cart has lines; `HandleProcesarVenta` states it after a sent request |
| `Checkout.ImporteIgualTotal` | frontend/src/components/CartSidebar.tsx:28-33 | the request's quantity × unit price summed over its lines is the cart total |
| `Checkout.CartSidebar.constructor` | frontend/src/components/CartSidebar.tsx:13 | starts not loading, with no toast shown |
| `Checkout.CartSidebar.HandleProcesarVenta` | frontend/src/components/CartSidebar.tsx:15-52 | the outcome is `ProcesarVenta` of the cart, client and session; one toast per press; the cart is cleared only after an accepted sale and is otherwise unchanged; loading is down after every request |
| `Routing.Decidir` | frontend/src/components/ProtectedRoute.tsx:9-21 | loading shows the spinner; otherwise unauthenticated goes to /login; a user whom the role rule refuses goes to /; each as an if-and-only-if; an Administrador, or anyone when no role is required, gets the page |
| `ProductForm.ConError` | frontend/src/components/ProductModal.tsx:119-121 | setting one field's error leaves every other field's error alone |
| `ProductForm.ConCampo` | frontend/src/components/ProductModal.tsx:117 | the form with one field replaced; `HandleChange` applies it |
| `ProductForm.ErroresDe` | frontend/src/components/ProductModal.tsx:66-96 | the error table of `validate`; `ErroresSpec` states it field by field |
| `ProductForm.Aceptable` | frontend/src/components/ProductModal.tsx:66-96 | the acceptable forms, field by field; `ErroresSpec` proves them to be exactly the forms with no error |
| `ProductForm.ErroresSpec` | frontend/src/components/ProductModal.tsx:66-96 | no error exactly for an acceptable form; each field's error is set exactly on its own rule (blank name or SKU, sale price ≤ 0, wholesale or cost price < 0, stock < 0, no category or location) |
| `ProductForm.ProductFormState.constructor` | frontend/src/components/ProductModal.tsx:22-35 | the form starts with the given values, no errors, not submitting, nothing saved, open |
| `ProductForm.NuevosErrores` | frontend/src/components/ProductModal.tsx:67-92 | the `newErrors` object built check by check is exactly `ErroresDe` of the form |
| `ProductForm.ProductFormState.Validate` | frontend/src/components/ProductModal.tsx:66-96 | the error table becomes the one the rules give, and the result is true exactly for acceptable forms |
| `ProductForm.ProductFormState.HandleChange` | frontend/src/components/ProductModal.tsx:116-122 | the field takes the value, its error is cleared if it had one, and every other error is kept |
| `ProductForm.ProductFormState.HandleSubmit` | frontend/src/components/ProductModal.tsx:98-114 | an invalid form is never saved; a valid one is saved once; the modal closes only when saving succeeded |
| `Model.Fila` | src/main/java/com/libreria/libreria/model/Producto.java:17-20 | `findById` on a table: a row is found exactly when the id is between 1 and the table size, and it is the row stored at that position |
| `Model.FilaPorId` | src/main/java/com/libreria/libreria/model/Producto.java:17-20 | in a table whose rows carry the ids 1, 2, 3, … in order, `findById` finds a row exactly when some row carries the id, and the row found carries it |
| `Model.IntValue` | src/main/java/com/libreria/libreria/service/impl/VentaServiceImpl.java:278 | narrowing to a Java int gives the value modulo 2^32 in the signed range, and keeps values already in range |
| `Database.SumaSubtotalesAppend` | src/main/java/com/libreria/libreria/service/impl/VentaServiceImpl.java:126 | appending a line raises a sale's line sum by its subtotal |
| `Database.FilaIdentificada` | src/main/java/com/libreria/libreria/model/Producto.java:17-20 | in a consistent database, `findById` on the product, client, user, session and sale tables finds a row exactly when one carries the id, and returns a row carrying that id |
| `Database.Db.constructor` | src/main/java/com/libreria/libreria/model/Venta.java:17-21 | a fresh database: the given catalogues and empty product, client, user, session and sale tables, so the identity ids start at 1; it is consistent |
| `VentaService.DeterminarPrecio` | src/main/java/com/libreria/libreria/service/impl/VentaServiceImpl.java:205-216 | the price is one of the three price fields; Costo with a null cost price gives 0 |
| `VentaService.MensajeStock` | src/main/java/com/libreria/libreria/service/impl/VentaServiceImpl.java:88-94 | the stock error text with product name, stock and quantity; `StockInsuficiente` states when it is raised |
| `VentaService.LineaDe` | src/main/java/com/libreria/libreria/service/impl/VentaServiceImpl.java:95-105 | the stored line priced on the server; `ProcesarLineas` states it; `ProcesarIgnoraPrecio` says the request's own price plays no part |
| `VentaService.Paso` | src/main/java/com/libreria/libreria/service/impl/VentaServiceImpl.java:83-123 | one loop step: the product lookup, the stock check, the server-priced line, the stock deduction and the running total; `StockInsuficiente` states its stock failure |
| `VentaService.Procesar` | src/main/java/com/libreria/libreria/service/impl/VentaServiceImpl.java:83-123 | the line loop; `ProcesarStock`, `ProcesarLineas`, `ProcesarTotal` and `ProcesarNoNegativo` state what it does |
| `VentaService.LineasAdmisibles` | src/main/java/com/libreria/libreria/service/impl/VentaServiceImpl.java:95-105 | every stored line meets the entity constraints; `CrearVentaSpec` checks it |
| `VentaService.SumaPedida` | src/main/java/com/libreria/libreria/service/impl/VentaServiceImpl.java:108 | the quantity requested of one product; `ProcesarStock` says the stock drops by it |
| `VentaService.CrearVentaSpec` | src/main/java/com/libreria/libreria/service/impl/VentaServiceImpl.java:51-140 | success needs the client, user and session to exist and the session to be open; an existing closed session fails with the not-open message; the new sale takes the next id and the current time, is completed and not voided, carries the request's client, user, session and payment method, its lines meet the entity's bounds, and its total is the sum of its lines |
| `VentaService.ProcesarStock` | src/main/java/com/libreria/libreria/service/impl/VentaServiceImpl.java:83-123 | after the line loop each product's stock is lower by exactly the quantity requested of it, and nothing else about the catalogue changes |
| `VentaService.ProcesarLineas` | src/main/java/com/libreria/libreria/service/impl/VentaServiceImpl.java:95-105 | the stored lines are the requested ones in order, priced by the client's tier, with subtotal = price × quantity − discount (null discount = 0) |
| `VentaService.ProcesarTotal` | src/main/java/com/libreria/libreria/service/impl/VentaServiceImpl.java:81-126 | the running total equals the sum of the stored lines' subtotals |
| `VentaService.SumaPedidaAusente` | src/main/java/com/libreria/libreria/service/impl/VentaServiceImpl.java:108 | a product no line asks for loses no stock |
| `VentaService.ProcesarNoNegativo` | src/main/java/com/libreria/libreria/service/impl/VentaServiceImpl.java:88-108 | no stock goes negative, because every line is checked against the stock left by the lines before it |
| `VentaService.RestaurarStock` | src/main/java/com/libreria/libreria/service/impl/VentaServiceImpl.java:180-184 | voiding adds back to each product exactly the quantity its lines hold and changes nothing else |
| `VentaService.Reponer` | src/main/java/com/libreria/libreria/service/impl/VentaServiceImpl.java:180-184 | one line's quantity back on its product |
| `VentaService.Restaurar` | src/main/java/com/libreria/libreria/service/impl/VentaServiceImpl.java:180-184 | the stock-restoring loop; `RestaurarStock` states what it adds |
| `VentaService.AnularVentaSpec` | src/main/java/com/libreria/libreria/service/impl/VentaServiceImpl.java:165-190 | succeeds exactly when the sale exists, is not voided and the user exists; an already voided sale fails with that message; the sale becomes Anulada with the reason, time and user and is otherwise unchanged; the stock is `Restaurar` of its lines |
| `VentaService.ProcesarDetalles` | src/main/java/com/libreria/libreria/service/impl/VentaServiceImpl.java:83-123 | the loop over the requested lines computes the line fold `Procesar` |
| `VentaService.CrearVenta` | src/main/java/com/libreria/libreria/service/impl/VentaServiceImpl.java:51-140 | the result and the new tables are those of `CrearVentaSpec`: on success the catalogue and the sale table are replaced by it; on failure nothing changes; the database stays consistent |
| `VentaService.CreadaConsistente` | src/main/java/com/libreria/libreria/service/impl/VentaServiceImpl.java:51-140 | a successful sale keeps every table and every reference consistent |
| `VentaService.CrearVentaFiel` | src/main/java/com/libreria/libreria/service/impl/VentaServiceImpl.java:76-126 | a successful sale has one line per requested line, in order, each priced by the client's tier from the catalogue as it was; every product's stock drops by the quantity requested of it, nothing else in the catalogue changes, and no product the sale touches is left with negative stock |
| `VentaService.ProcesarPrefijo` | src/main/java/com/libreria/libreria/service/impl/VentaServiceImpl.java:83-123 | the line loop can be split at any point |
| `VentaService.StockInsuficiente` | src/main/java/com/libreria/libreria/service/impl/VentaServiceImpl.java:88-94 | a line asking for more than what the earlier lines left raises the stock exception naming that product |
| `VentaService.ProcesarIgnoraPrecio` | src/main/java/com/libreria/libreria/service/impl/VentaServiceImpl.java:97 | the line loop does not read the requested unit price |
| `VentaService.CrearVentaIgnoraPrecioUnitario` | src/main/java/com/libreria/libreria/service/impl/VentaServiceImpl.java:97 | two requests that differ only in unit prices give the same outcome |
| `VentaService.AnularVenta` | src/main/java/com/libreria/libreria/service/impl/VentaServiceImpl.java:165-203 | the result and the new tables are those of `AnularVentaSpec`; on failure nothing changes; the database stays consistent |
| `VentaService.AnuladaConsistente` | src/main/java/com/libreria/libreria/service/impl/VentaServiceImpl.java:165-203 | a successful void keeps every table and every reference consistent |
| `VentaService.LineasEspejo` | src/main/java/com/libreria/libreria/service/impl/VentaServiceImpl.java:180-184 | stored lines that copy the requested products and quantities hold the same quantity per product |
| `VentaService.CrearAnularRestaura` | src/main/java/com/libreria/libreria/service/impl/VentaServiceImpl.java:171-190 | voiding a sale right after creating it gives every product its stock back |
| `VentaService.AnularDosVeces` | src/main/java/com/libreria/libreria/service/impl/VentaServiceImpl.java:171-173 | a voided sale cannot be voided again |
| `VentaService.DividirHalfUp` | src/main/java/com/libreria/libreria/service/impl/VentaServiceImpl.java:258-259 | the quotient is the nearest whole number, with halves rounded away from zero |
| `VentaService.ADias` | src/main/java/com/libreria/libreria/service/impl/VentaServiceImpl.java:263 | whole days, truncated toward zero, for either sign |
| `VentaService.PeriodoAnterior` | src/main/java/com/libreria/libreria/service/impl/VentaServiceImpl.java:263-265 | the previous period ends one second before the current one starts and is no longer than it |
| `VentaService.ObtenerEstadisticas` | src/main/java/com/libreria/libreria/service/impl/VentaServiceImpl.java:251-282 | total and count are the repository aggregates (the count narrowed to int); average 0 with no sales, else HALF_UP; comparison 0 unless the previous total is positive, else the HALF_UP ratio |
| `VentaService.ObtenerProductosMasVendidos` | src/main/java/com/libreria/libreria/service/impl/VentaServiceImpl.java:285-298 | the first `limite` rows of the query (10 when null), with counts narrowed to int; a negative limit fails |
| `SesionCajaService.BuscarAbierta` | src/main/java/com/libreria/libreria/repository/SesionCajaRepository.java:12 | an open session of the user is found exactly when one exists |
| `SesionCajaService.VentasEfectivoAppend` | src/main/java/com/libreria/libreria/service/impl/SesionCajaServiceImpl.java:80-85 | a new sale raises the session's cash only if it is a completed cash sale of that session, and then by its amount |
| `SesionCajaService.VentasEfectivoUpdate` | src/main/java/com/libreria/libreria/service/impl/SesionCajaServiceImpl.java:80-85 | replacing one sale moves the cash by the change in its contribution |
| `SesionCajaService.SinVentasDeSesionNueva` | src/main/java/com/libreria/libreria/service/impl/SesionCajaServiceImpl.java:80-85 | a session no sale points at has no cash sales |
| `SesionCajaService.VentasEfectivo` | src/main/java/com/libreria/libreria/service/impl/SesionCajaServiceImpl.java:80-85 | the session's completed cash sales summed; `VentasEfectivoAppend` and `VentasEfectivoUpdate` state how it moves |
| `SesionCajaService.MontoEsperado` | src/main/java/com/libreria/libreria/service/impl/SesionCajaServiceImpl.java:87 | float plus cash sales; `CerrarSesionSpec` and `MapToDTO` use it |
| `SesionCajaService.MapToDTO` | src/main/java/com/libreria/libreria/service/impl/SesionCajaServiceImpl.java:100-134 | an open session reports the opening float plus its cash sales as of now; a closed one reports the stored value; the ids, dates, amounts and state are copied (the users' names are not carried, see "Left out") |
| `SesionCajaService.ObtenerSesionActiva` | src/main/java/com/libreria/libreria/service/impl/SesionCajaServiceImpl.java:35-39 | the user's open session, or nothing exactly when the user has none; a result is the `MapToDTO` image of one of that user's open sessions |
| `SesionCajaService.AbrirSesionSpec` | src/main/java/com/libreria/libreria/service/impl/SesionCajaServiceImpl.java:43-63 | fails exactly when the user already has an open session (checked first) or is unknown; otherwise a new open session with the float, the user and the time, and no closing data |
| `SesionCajaService.CerrarSesionSpec` | src/main/java/com/libreria/libreria/service/impl/SesionCajaServiceImpl.java:67-98 | succeeds exactly when the session exists and is open and the closing user exists; it becomes closed with expected = float + cash sales, the counted cash, and difference = counted − expected, whatever its sign; nothing else changes; an already closed session fails with the closed message |
| `SesionCajaService.AbrirSesion` | src/main/java/com/libreria/libreria/service/impl/SesionCajaServiceImpl.java:43-63 | on success the new session is appended and reported with the float as expected cash; on failure nothing changes; the database stays consistent |
| `SesionCajaService.AbiertaConsistente` | src/main/java/com/libreria/libreria/service/impl/SesionCajaServiceImpl.java:43-63 | opening keeps the database consistent, in particular at most one open session per user |
| `SesionCajaService.CerrarSesion` | src/main/java/com/libreria/libreria/service/impl/SesionCajaServiceImpl.java:67-98 | the session row is replaced by the one `CerrarSesionSpec` gives, or nothing changes; the database stays consistent |
| `SesionCajaService.CerradaConsistente` | src/main/java/com/libreria/libreria/service/impl/SesionCajaServiceImpl.java:67-98 | closing keeps the database consistent |
| `SesionCajaService.CerrarDosVeces` | src/main/java/com/libreria/libreria/service/impl/SesionCajaServiceImpl.java:71-73 | a closed session cannot be closed again |
| `SesionCajaService.AbrirDosVeces` | src/main/java/com/libreria/libreria/service/impl/SesionCajaServiceImpl.java:44-49 | after opening, the same user cannot open a second session |
| `VentaRepository.Seleccion` | src/main/java/com/libreria/libreria/repository/VentaRepository.java:35-40 | a sale is selected exactly when it meets every non-null parameter, with inclusive date bounds |
| `VentaRepository.FiltrarVentas` | src/main/java/com/libreria/libreria/repository/VentaRepository.java:35-47 | exactly the selected sales, each as often as in the selection, newest first |
| `VentaRepository.ContarTransacciones` | src/main/java/com/libreria/libreria/repository/VentaRepository.java:56-60 | the count is at most the number of sales |
| `VentaRepository.SumaMontos` | src/main/java/com/libreria/libreria/repository/VentaRepository.java:50-54 | the sum of the sale totals; `AgregadosSobreFiltro` ties it to the filter |
| `VentaRepository.CalcularTotalVentas` | src/main/java/com/libreria/libreria/repository/VentaRepository.java:50-54 | the total over completed sales in the range; `AgregadosSobreFiltro`, `SinTransaccionesSinTotal` and `AgregadosAppend` state it |
| `VentaRepository.AgregadosSobreFiltro` | src/main/java/com/libreria/libreria/repository/VentaRepository.java:50-60 | total and count range over exactly the completed sales that the filter returns for the same inclusive range |
| `VentaRepository.SinTransaccionesSinTotal` | src/main/java/com/libreria/libreria/repository/VentaRepository.java:50-60 | with no counted sale the total is 0 |
| `VentaRepository.AgregadosAppend` | src/main/java/com/libreria/libreria/repository/VentaRepository.java:50-60 | a new sale changes total and count only if it is completed and in range, and then by its amount and by one |
| `VentaRepository.Grupos` | src/main/java/com/libreria/libreria/repository/VentaRepository.java:75-82 | every group is non-empty and belongs to one of the listed methods; `GruposMiembros` and `GruposSinRepetir` state which groups there are |
| `VentaRepository.GruposMiembros` | src/main/java/com/libreria/libreria/repository/VentaRepository.java:75-82 | a method has a group exactly when it is listed and has at least one counted sale |
| `VentaRepository.GruposSinRepetir` | src/main/java/com/libreria/libreria/repository/VentaRepository.java:75-82 | when no method is listed twice, no two groups share a method |
| `VentaRepository.MetodosEnumerados` | src/main/java/com/libreria/libreria/model/Venta.java:50-53 | the list of methods that is grouped holds every payment method |
| `VentaRepository.ContarMetodo` | src/main/java/com/libreria/libreria/repository/VentaRepository.java:75-82 | the number of counted sales paid with one method; `GruposFieles` states it |
| `VentaRepository.TotalMetodo` | src/main/java/com/libreria/libreria/repository/VentaRepository.java:75-82 | the amount of counted sales paid with one method; `GruposFieles` states it |
| `VentaRepository.ObtenerVentasPorMetodo` | src/main/java/com/libreria/libreria/repository/VentaRepository.java:75-82 | every group is non-empty and holds its method's count and total over the counted sales; a method has a group exactly when it has a counted sale, and no method has two |
| `VentaRepository.GruposFieles` | src/main/java/com/libreria/libreria/repository/VentaRepository.java:75-82 | each group's count and total are those of its method |
| `VentaRepository.TresMetodos` | src/main/java/com/libreria/libreria/repository/VentaRepository.java:75-82 | the counted sales split into the three payment methods, in count and in total |
| `VentaRepository.GrupoVacio` | src/main/java/com/libreria/libreria/repository/VentaRepository.java:75-82 | a method with no counted sale has total 0 |
| `VentaRepository.GruposSuman` | src/main/java/com/libreria/libreria/repository/VentaRepository.java:75-82 | dropping empty groups loses no sale and no amount |
| `VentaRepository.PorMetodoParticiona` | src/main/java/com/libreria/libreria/repository/VentaRepository.java:75-82 | the per-method counts add up to the range count, and the totals to the range total |
| `VentaRepository.Ids` | src/main/java/com/libreria/libreria/repository/VentaRepository.java:68 | the product id of every line, in order |
| `VentaRepository.Lineas` | src/main/java/com/libreria/libreria/repository/VentaRepository.java:63-72 | the lines of the counted sales, in table order; `MasVendidosFiel` states the rows built from them |
| `VentaRepository.Distintos` | src/main/java/com/libreria/libreria/repository/VentaRepository.java:68 | the distinct ids, no id twice, the same ids as the input |
| `VentaRepository.Agrupar` | src/main/java/com/libreria/libreria/repository/VentaRepository.java:63-68 | one row per id with its name, the summed quantity and the summed amount |
| `VentaRepository.ObtenerProductosMasVendidos` | src/main/java/com/libreria/libreria/repository/VentaRepository.java:63-72 | rows ordered by quantity sold, descending |
| `VentaRepository.MasVendidosFiel` | src/main/java/com/libreria/libreria/repository/VentaRepository.java:63-72 | one row per product sold in a counted sale and no product twice; each row holds that product's summed quantity and amount over the completed lines in range |
| `VentaRepository.SinRepetirPermutado` | src/main/java/com/libreria/libreria/repository/VentaRepository.java:68-69 | reordering rows with distinct ids keeps the ids distinct |
| `VentaRepository.FilasDistintas` | src/main/java/com/libreria/libreria/repository/VentaRepository.java:68-69 | two positions of such a reordering hold different rows |
| `VentaRepository.UnicaEnDistintos` | src/main/java/com/libreria/libreria/repository/VentaRepository.java:68 | a row occurs at most once among rows with distinct ids |
| `VentaRepository.FindBySesionEstadoMetodo` | src/main/java/com/libreria/libreria/repository/VentaRepository.java:17-18 | exactly the sales of that session, state and payment method |
| `Sorting.Insertar` | src/main/java/com/libreria/libreria/repository/VentaRepository.java:41 | inserting into a descending sequence keeps it descending and adds exactly that row |
| `Sorting.DescendenteCons` | src/main/java/com/libreria/libreria/repository/VentaRepository.java:41 | a row with a key not below the first key can go in front |
| `Sorting.Ordenar` | src/main/java/com/libreria/libreria/repository/VentaRepository.java:41 | the result is descending and a permutation of the input |
| `Sorting.OrdenarMiembros` | src/main/java/com/libreria/libreria/repository/VentaRepository.java:69 | sorting keeps exactly the rows given |
| `ProductoService.FindAll` | src/main/java/com/libreria/libreria/service/impl/ProductoServiceImpl.java:42-47 | exactly the active products |
| `ProductoService.Activo` | src/main/java/com/libreria/libreria/service/impl/ProductoServiceImpl.java:44 | `Boolean.TRUE.equals(activo)`: a null flag is not active |
| `ProductoService.FindById` | src/main/java/com/libreria/libreria/service/impl/ProductoServiceImpl.java:51-55 | the product with that id exactly when it exists and is active |
| `ProductoService.SaveSpec` | src/main/java/com/libreria/libreria/service/impl/ProductoServiceImpl.java:59-74 | fails exactly on an unknown category or location (category first); otherwise a new active row with the next id and the request's fields |
| `ProductoService.UpdateSpec` | src/main/java/com/libreria/libreria/service/impl/ProductoServiceImpl.java:78-121 | a missing id fails with the not-found message; otherwise name, description, SKU, prices and stock are overwritten; activo changes only when given; category and location change only when the id differs, and an unknown one fails |
| `ProductoService.Save` | src/main/java/com/libreria/libreria/service/impl/ProductoServiceImpl.java:59-74 | the new row of `SaveSpec` is appended, or nothing changes; the database stays consistent |
| `ProductoService.Update` | src/main/java/com/libreria/libreria/service/impl/ProductoServiceImpl.java:78-121 | that row becomes the one `UpdateSpec` gives, or nothing changes; the database stays consistent |
| `ProductoService.Delete` | src/main/java/com/libreria/libreria/service/impl/ProductoServiceImpl.java:125-139 | the row is marked inactive and nothing else changes; a missing id changes nothing |
| `ProductoService.DeleteOculta` | src/main/java/com/libreria/libreria/service/impl/ProductoServiceImpl.java:125-139 | after a soft delete the product is found neither by id nor in the list; other products are unaffected |
| `ProductoService.SaveFindById` | src/main/java/com/libreria/libreria/service/impl/ProductoServiceImpl.java:59-74 | a saved product is found under its new id |
| `ClienteService.FindAll` | src/main/java/com/libreria/libreria/service/impl/ClienteServiceImpl.java:31-36 | exactly the active clients |
| `ClienteService.Activo` | src/main/java/com/libreria/libreria/service/impl/ClienteServiceImpl.java:33 | `Boolean.TRUE.equals(activo)`: a null flag is not active |
| `ClienteService.FindById` | src/main/java/com/libreria/libreria/service/impl/ClienteServiceImpl.java:40-44 | the client with that id exactly when it exists and is active |
| `ClienteService.MapToEntity` | src/main/java/com/libreria/libreria/service/impl/ClienteServiceImpl.java:126-137 | the request's fields; activo is the given one, or true when null |
| `ClienteService.UpdateSpec` | src/main/java/com/libreria/libreria/service/impl/ClienteServiceImpl.java:66-92 | fails exactly on a missing id; otherwise the six descriptive fields, including the price tier, are overwritten and activo changes only when given |
| `ClienteService.Save` | src/main/java/com/libreria/libreria/service/impl/ClienteServiceImpl.java:48-62 | appends an active row with the next id; the database stays consistent |
| `ClienteService.Update` | src/main/java/com/libreria/libreria/service/impl/ClienteServiceImpl.java:66-92 | that row becomes the one `UpdateSpec` gives, or nothing changes |
| `ClienteService.Delete` | src/main/java/com/libreria/libreria/service/impl/ClienteServiceImpl.java:96-110 | the row is marked inactive; a missing id changes nothing |
| `ClienteService.DeleteOculta` | src/main/java/com/libreria/libreria/service/impl/ClienteServiceImpl.java:96-110 | after a soft delete the client is found neither by id nor in the list; other clients are unaffected |
| `ClienteService.UpdateReactiva` | src/main/java/com/libreria/libreria/service/impl/ClienteServiceImpl.java:66-92 | an update with activo = true makes a soft-deleted client readable again |
| `UsuarioService.FindByUsername` | src/main/java/com/libreria/libreria/service/impl/UsuarioServiceImpl.java:56 | a user with that name is found exactly when one exists |
| `UsuarioService.CrearUsuarioSpec` | src/main/java/com/libreria/libreria/service/impl/UsuarioServiceImpl.java:55-83 | fails exactly on a taken user name (checked first) or an unknown role; otherwise a new active user with the next id and the encoded password |
| `UsuarioService.CrearUsuario` | src/main/java/com/libreria/libreria/service/impl/UsuarioServiceImpl.java:55-83 | the new user of `CrearUsuarioSpec` is appended, or nothing changes; the answer is the new user's public view; the database stays consistent |
| `UsuarioService.CreadoConsistente` | src/main/java/com/libreria/libreria/service/impl/UsuarioServiceImpl.java:55-83 | a new user keeps user names unique and the database consistent |
| `UsuarioService.Login` | src/main/java/com/libreria/libreria/service/impl/UsuarioServiceImpl.java:86-117 | nothing for an unknown user or a wrong password; an exception for the right password of an inactive user; the user for the right password of an active one |
| `UsuarioService.CrearLuegoLogin` | src/main/java/com/libreria/libreria/service/impl/UsuarioServiceImpl.java:55-117 | a newly created user logs in with the password it was created with |
| `UsuarioService.FindByUsernameAppend` | src/main/java/com/libreria/libreria/service/impl/UsuarioServiceImpl.java:56-69 | an appended user with a fresh name is the one found under it |
| `UsuarioService.MapToDTO` | src/main/java/com/libreria/libreria/service/impl/UsuarioServiceImpl.java:119-128 | the public view of a user, without the password hash |
| `ExceptionHandler.Detalles` | src/main/java/com/libreria/libreria/controller/GlobalExceptionHandler.java:61-62 | one `field: message` entry per field error, in order |
| `ExceptionHandler.Manejar` | src/main/java/com/libreria/libreria/controller/GlobalExceptionHandler.java:18-73 | stock: 400 Stock Insuficiente; bean validation: 400 Validation Error with the entries joined by ", "; any other error keeps its message and is 404 Resource Not Found exactly when its lower-cased message holds "no encontrado" or "no encontrada", else 500 Internal Server Error; the path is kept |
| `ExceptionHandler.OcurreEnMinusculas` | src/main/java/com/libreria/libreria/controller/GlobalExceptionHandler.java:40-43 | a lower-case phrase in a message is still there after lower-casing |
| `ExceptionHandler.AusenteEn` | src/main/java/com/libreria/libreria/controller/GlobalExceptionHandler.java:40-46 | a message with either phrase in its prefix reads as a missing resource |
| `ExceptionHandler.NoEncontrado404` | src/main/java/com/libreria/libreria/controller/GlobalExceptionHandler.java:40-52 | every not-found message the services build answers 404 Resource Not Found with that message |
| `ExceptionHandler.RolNoEncontrado404` | src/main/java/com/libreria/libreria/controller/GlobalExceptionHandler.java:40-52 | the missing-role message answers 404 |
| `ExceptionHandler.ValidacionUnCampo` | src/main/java/com/libreria/libreria/controller/GlobalExceptionHandler.java:58-73 | a single field error answers `field: message` |
| `Integracion.PrecioCoincide` | src/main/java/com/libreria/libreria/service/impl/VentaServiceImpl.java:205-216 | on a product the cart mirrors, the server's tier price equals the browser's |
| `Integracion.SumasIguales` | src/main/java/com/libreria/libreria/service/impl/VentaServiceImpl.java:126 | line sums that agree line by line agree |
| `Integracion.LineasCobradas` | src/main/java/com/libreria/libreria/service/impl/VentaServiceImpl.java:95-105 | lines the server prices from a cart's request lines, on a mirrored catalogue and the client's tier, carry the cart's unit prices and amounts |
| `Integracion.CheckoutCobraElTotal` | src/main/java/com/libreria/libreria/service/impl/VentaServiceImpl.java:83-127 | for the request the sidebar builds from a valid cart priced for the client (CartSidebar.tsx:28-41), an accepted sale charges every line at the cart's price and records the cart's total, paid in cash, in the sidebar's session |
| `Integracion.VentaEfectivoSubeCaja` | src/main/java/com/libreria/libreria/service/impl/SesionCajaServiceImpl.java:80-88 | a new cash sale raises its session's expected cash by its amount |
| `Integracion.AnularEfectivoBajaCaja` | src/main/java/com/libreria/libreria/service/impl/SesionCajaServiceImpl.java:80-88 | voiding a completed cash sale lowers its session's expected cash by its amount |
| `Integracion.CajaCerradaRechazaVenta` | src/main/java/com/libreria/libreria/service/impl/VentaServiceImpl.java:65-67 | after a session is closed, a sale against it fails with the not-open message |
| `Integracion.VentaDesconocida404` | src/main/java/com/libreria/libreria/service/impl/VentaServiceImpl.java:53-63 | a sale for an unknown client, user or session reaches the browser as 404 with the server's message |
| `Integracion.StockInsuficiente400` | src/main/java/com/libreria/libreria/controller/GlobalExceptionHandler.java:18-29 | a sale refused for stock reaches the browser as 400 Stock Insuficiente |
| `Text.Lower` | src/main/java/com/libreria/libreria/controller/GlobalExceptionHandler.java:40 | lower-casing keeps the length and maps each character |
| `Text.LowerAppend` | src/main/java/com/libreria/libreria/controller/GlobalExceptionHandler.java:40 | lower-casing distributes over concatenation |
| `Text.ContainsExtend` | src/main/java/com/libreria/libreria/controller/GlobalExceptionHandler.java:40 | a phrase found in a prefix is found in every extension |
| `Text.Digits` | src/main/java/com/libreria/libreria/service/impl/SesionCajaServiceImpl.java:69 | the decimal digits of n, most significant first; `DigitsDecimal` states what they are |
| `Text.DigitsDecimal` | src/main/java/com/libreria/libreria/service/impl/SesionCajaServiceImpl.java:69 | the digits of n form a numeral: only digits, no leading zero, and its decimal value (`Text.Value`) is n |
| `Text.Show` | src/main/java/com/libreria/libreria/service/impl/SesionCajaServiceImpl.java:69 | `Integer.toString`; `ShowDecimal` and `ShowInjective` state what it prints |
| `Text.ShowDecimal` | src/main/java/com/libreria/libreria/service/impl/SesionCajaServiceImpl.java:69 | a non-negative integer prints as its decimal numeral; a negative one as a minus sign followed by the numeral of its magnitude |
| `Text.ShowInjective` | src/main/java/com/libreria/libreria/service/impl/SesionCajaServiceImpl.java:69 | two integers that print the same are equal, so a message names exactly one id |
| `Text.LowerShow` | src/main/java/com/libreria/libreria/controller/GlobalExceptionHandler.java:40 | lower-casing leaves a printed integer unchanged |
| `Text.TrimStart` | frontend/src/components/ProductModal.tsx:69 | the result is a suffix of the text, and it is empty or starts with a non-whitespace character |
| `Text.TrimEnd` | frontend/src/components/ProductModal.tsx:69 | the result is a prefix of the text, and it is empty or ends with a non-whitespace character |
| `Text.TrimStartBlank` | frontend/src/components/ProductModal.tsx:69 | trimming the front leaves nothing exactly for all-whitespace text |
| `Text.TrimEndEmpty` | frontend/src/components/ProductModal.tsx:69 | trimming the back leaves nothing exactly for all-whitespace text |
| `Text.TrimEmptyIffBlank` | frontend/src/components/ProductModal.tsx:69-74 | `trim()` gives "" exactly for all-whitespace text |
| `Text.TrimStartHead` | frontend/src/components/ProductModal.tsx:69 | a front-trimmed non-empty text starts with a non-space |
| `Text.Join` | src/main/java/com/libreria/libreria/controller/GlobalExceptionHandler.java:63 | joining nothing gives "", and one part gives that part |
| `Text.JoinAppend` | src/main/java/com/libreria/libreria/controller/GlobalExceptionHandler.java:63 | joining one more part adds the separator and that part at the end |

## Left out

- Rendering, toasts' styling, navigation and the pages around the cart are not modelled; a toast is the message it shows.
- The network is not modelled: the server's answer to the checkout request is a parameter (`servidorAcepta`), as are the save result of the product form and the clock (`ahora`).
- The password encoder's `encode` and `matches` are parameters. Collations are exact equality.
- `Text.Lower` covers the Basic Latin and Latin-1 blocks only, which is all the service messages contain.
- Concurrency and the database's own locking are not modelled. Each service call is atomic.
- The tables are sequences indexed by id rather than maps, because IDENTITY ids are dense and nothing in the core deletes a row.
- The audit log written by the services is not modelled, because it does not affect any result.
- The projections `mapToDTO` of sales and products are not modelled; the stored rows are returned.
- When saving or updating, the product or client id in the request body is ignored (JPA `merge` of an id is not modelled).
- SKU uniqueness (a database constraint) is not modelled.
- DECIMAL column precision is not modelled. HALF_UP rounding of the average ticket is exact in cents. The comparison with the previous period is given in hundredths of a percent.
- VentaService.Paso: the stock is an unbounded integer, where the server's `Integer` subtraction `getCantidadStock() - getCantidad()` (VentaServiceImpl.java:108) wraps at 2^31. A line with a quantity near -2^31 followed by another line of the same product therefore fails the stock check on the server but not in the model.
- VentaService.Reponer: the stock is an unbounded integer, where the server's `getCantidadStock() + getCantidad()` (VentaServiceImpl.java:182) wraps at 2^31. `Model.IntValue` models that narrowing where the statistics use it, but it is not applied to stock. Voiding a sale on a product whose stock is 2^31 - 1 stores -2^31 on the server and 2^31 in the model.
- VentaService.RestaurarStock: the exact stock added back is proved for unbounded stock; with the server's 32-bit arithmetic it holds only while every intermediate stock stays in the `Integer` range (see `VentaService.Paso` and `VentaService.Reponer` above).
- VentaService.ProcesarStock: the exact stock drop is proved for unbounded stock; with the server's 32-bit arithmetic it holds only while every intermediate stock stays in the `Integer` range (see `VentaService.Paso` and `VentaService.Reponer` above).
- VentaService.ProcesarNoNegativo: no stock ending negative is proved for unbounded stock; with the server's 32-bit arithmetic it holds only while every intermediate stock stays in the `Integer` range (see `VentaService.Paso` and `VentaService.Reponer` above).
- VentaService.CrearAnularRestaura: the stock given back by creating then voiding a sale is proved for unbounded stock; with the server's 32-bit arithmetic it holds only while every intermediate stock stays in the `Integer` range (see `VentaService.Paso` and `VentaService.Reponer` above).
- A null quantity in a sale line (a null dereference on the server) is not modelled. The controller's bean validation of that field is not applied (`VentaDTO.detalles` carries no `@Valid`); the entity constraints of `DetalleVenta` are checked when the sale is stored.
- A sale may include inactive products, because `findById` of the product table does not look at `activo`. An empty list of lines gives a sale with total 0. Both follow the code.
- The order of rows with equal keys after `ORDER BY`, and the order of the `GROUP BY` groups, are unspecified in SQL. The model uses a stable order and the enum's order.
- The validation annotations of `CierreCajaDTO` are not modelled; the counted cash is any integer.
- The browser computes prices, subtotals and totals in IEEE-754 doubles; the model computes in exact cents. `Integracion.CheckoutCobraElTotal`'s exact equality holds for the model, not for a double that has rounded.
- `Usuario.activo` is a nullable `Boolean` on the server, and `login` dereferences it (`!usuario.getActivo()`), so a null flag fails with a null dereference. The model's flag is a `bool` and loses that case.
- UsuarioService.MapToDTO: the role's name (`rolNombre`) is not carried, because the role table holds only ids here.
- SesionCajaService.MapToDTO: the opening and closing users' full names (`usuarioAperturaNombre`, `usuarioCierreNombre`, SesionCajaServiceImpl.java:118 and :124-127) are not carried; the DTO keeps only the users' ids.
- The service method `obtenerVentasPorMetodo` only narrows the query's counts to `int`; the query is modelled and the narrowing is not modelled separately.
- `ExceptionHandler.Manejar` states, for every runtime message, 404 exactly when it holds one of the two phrases. For each business-rule message — session not open, sale already voided, session already open or closed, user name taken, inactive user — the model does not prove that the message holds neither phrase, so it does not prove that the message maps to 500.
- `Cart.Producto.precioCosto` is a natural number in the browser. A null cost price is read as 0 on the server, and the cross-check of the browser's and the server's prices (`Integracion.Espejo`) relies on this.
