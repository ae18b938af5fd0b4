/** The queries of src/main/java/com/libreria/libreria/repository/VentaRepository.java as
    filters and folds over the sales table (in id order). Dates are in seconds and
    every date bound is inclusive. */
module VentaRepository {
  import opened Wrappers
  import opened Domain
  import opened Model
  import opened Database
  import opened Sorting

  /** One optional parameter of `filtrarVentas`: a null parameter constrains nothing. */
  predicate Cumple(v: Venta, fechaInicio: Option<int>, fechaFin: Option<int>, clienteId: Option<int>,
                   metodoPago: Option<MetodoPago>, estado: Option<EstadoVenta>) {
    (fechaInicio.None? || v.fechaVenta >= fechaInicio.value)
    && (fechaFin.None? || v.fechaVenta <= fechaFin.value)
    && (clienteId.None? || v.clienteId == clienteId.value)
    && (metodoPago.None? || v.metodoPago == metodoPago.value)
    && (estado.None? || v.estado == estado.value)
  }

  /** The sales that pass the `WHERE` clause, in table order. */
  function Seleccion(ventas: seq<Venta>, fechaInicio: Option<int>, fechaFin: Option<int>, clienteId: Option<int>,
                     metodoPago: Option<MetodoPago>, estado: Option<EstadoVenta>): (r: seq<Venta>)
    ensures forall v :: v in r <==> v in ventas && Cumple(v, fechaInicio, fechaFin, clienteId, metodoPago, estado)
    ensures |r| <= |ventas|
    decreases |ventas|
  {
    if ventas == [] then []
    else
      var resto := Seleccion(ventas[1..], fechaInicio, fechaFin, clienteId, metodoPago, estado);
      assert forall v :: v in ventas <==> v == ventas[0] || v in ventas[1..];
      if Cumple(ventas[0], fechaInicio, fechaFin, clienteId, metodoPago, estado) then [ventas[0]] + resto else resto
  }

  function FechaVenta(v: Venta): int { v.fechaVenta }

  /** `filtrarVentas`: exactly the sales meeting every non-null parameter, newest first. */
  function FiltrarVentas(ventas: seq<Venta>, fechaInicio: Option<int>, fechaFin: Option<int>, clienteId: Option<int>,
                         metodoPago: Option<MetodoPago>, estado: Option<EstadoVenta>): (r: seq<Venta>)
    ensures forall v :: v in r <==> v in ventas && Cumple(v, fechaInicio, fechaFin, clienteId, metodoPago, estado)
    ensures forall i, j | 0 <= i < j < |r| :: r[i].fechaVenta >= r[j].fechaVenta
    ensures multiset(r) == multiset(Seleccion(ventas, fechaInicio, fechaFin, clienteId, metodoPago, estado))
  {
    var s := Seleccion(ventas, fechaInicio, fechaFin, clienteId, metodoPago, estado);
    var r := Ordenar(s, FechaVenta);
    assert forall v :: v in r <==> v in s by {
      forall v ensures v in r <==> v in s { OrdenarMiembros(s, FechaVenta, v); }
    }
    assert forall i, j | 0 <= i < j < |r| :: FechaVenta(r[i]) >= FechaVenta(r[j]);
    r
  }

  /** A sale the statistics count: completed and inside the inclusive range. */
  predicate Contable(v: Venta, fechaInicio: int, fechaFin: int) {
    fechaInicio <= v.fechaVenta <= fechaFin && v.estado == Completada
  }

  function SumaMontos(ventas: seq<Venta>): int
    decreases |ventas|
  {
    if ventas == [] then 0 else ventas[0].montoTotal + SumaMontos(ventas[1..])
  }

  /** `calcularTotalVentas`: `COALESCE(SUM(montoTotal), 0)` over the counted sales. */
  function CalcularTotalVentas(ventas: seq<Venta>, fechaInicio: int, fechaFin: int): int
    decreases |ventas|
  {
    if ventas == [] then 0
    else (if Contable(ventas[0], fechaInicio, fechaFin) then ventas[0].montoTotal else 0)
         + CalcularTotalVentas(ventas[1..], fechaInicio, fechaFin)
  }

  /** `contarTransacciones`: `COUNT(v)` over the same sales. */
  function ContarTransacciones(ventas: seq<Venta>, fechaInicio: int, fechaFin: int): (n: nat)
    ensures n <= |ventas|
    decreases |ventas|
  {
    if ventas == [] then 0
    else (if Contable(ventas[0], fechaInicio, fechaFin) then 1 else 0)
         + ContarTransacciones(ventas[1..], fechaInicio, fechaFin)
  }

  /** The two aggregates range over exactly the completed sales that `filtrarVentas`
      returns for the same inclusive range. */
  lemma {:induction false} AgregadosSobreFiltro(ventas: seq<Venta>, fechaInicio: int, fechaFin: int)
    ensures CalcularTotalVentas(ventas, fechaInicio, fechaFin)
            == SumaMontos(Seleccion(ventas, Some(fechaInicio), Some(fechaFin), None, None, Some(Completada)))
    ensures ContarTransacciones(ventas, fechaInicio, fechaFin)
            == |Seleccion(ventas, Some(fechaInicio), Some(fechaFin), None, None, Some(Completada))|
    decreases |ventas|
  {
    if ventas != [] {
      AgregadosSobreFiltro(ventas[1..], fechaInicio, fechaFin);
    }
  }

  /** No counted sale means a zero total; a voided sale or one outside the range
      never moves either aggregate. */
  lemma {:induction false} SinTransaccionesSinTotal(ventas: seq<Venta>, fechaInicio: int, fechaFin: int)
    ensures ContarTransacciones(ventas, fechaInicio, fechaFin) == 0 ==> CalcularTotalVentas(ventas, fechaInicio, fechaFin) == 0
    decreases |ventas|
  {
    if ventas != [] {
      SinTransaccionesSinTotal(ventas[1..], fechaInicio, fechaFin);
    }
  }

  lemma {:induction false} AgregadosAppend(ventas: seq<Venta>, v: Venta, fechaInicio: int, fechaFin: int)
    ensures CalcularTotalVentas(ventas + [v], fechaInicio, fechaFin)
            == CalcularTotalVentas(ventas, fechaInicio, fechaFin) + (if Contable(v, fechaInicio, fechaFin) then v.montoTotal else 0)
    ensures ContarTransacciones(ventas + [v], fechaInicio, fechaFin)
            == ContarTransacciones(ventas, fechaInicio, fechaFin) + (if Contable(v, fechaInicio, fechaFin) then 1 else 0)
    decreases |ventas|
  {
    if ventas == [] {
      assert [] + [v] == [v];
    } else {
      assert (ventas + [v])[1..] == ventas[1..] + [v];
      AgregadosAppend(ventas[1..], v, fechaInicio, fechaFin);
    }
  }

  // ---- obtenerVentasPorMetodo ----

  datatype FilaMetodo = FilaMetodo(metodoPago: MetodoPago, numeroVentas: nat, montoTotal: int)

  function ContarMetodo(ventas: seq<Venta>, fechaInicio: int, fechaFin: int, m: MetodoPago): nat
    decreases |ventas|
  {
    if ventas == [] then 0
    else (if Contable(ventas[0], fechaInicio, fechaFin) && ventas[0].metodoPago == m then 1 else 0)
         + ContarMetodo(ventas[1..], fechaInicio, fechaFin, m)
  }

  function TotalMetodo(ventas: seq<Venta>, fechaInicio: int, fechaFin: int, m: MetodoPago): int
    decreases |ventas|
  {
    if ventas == [] then 0
    else (if Contable(ventas[0], fechaInicio, fechaFin) && ventas[0].metodoPago == m then ventas[0].montoTotal else 0)
         + TotalMetodo(ventas[1..], fechaInicio, fechaFin, m)
  }

  const METODOS: seq<MetodoPago> := [Efectivo, Tarjeta, Mixto]

  /** One group per payment method that has at least one counted sale (a `GROUP BY`
      yields no empty group), listed in the enumeration's order. */
  function Grupos(metodos: seq<MetodoPago>, ventas: seq<Venta>, fechaInicio: int, fechaFin: int): (r: seq<FilaMetodo>)
    ensures forall k | 0 <= k < |r| :: r[k].numeroVentas > 0 && r[k].metodoPago in metodos
    decreases |metodos|
  {
    if metodos == [] then []
    else
      var n := ContarMetodo(ventas, fechaInicio, fechaFin, metodos[0]);
      var resto := Grupos(metodos[1..], ventas, fechaInicio, fechaFin);
      if n > 0 then [FilaMetodo(metodos[0], n, TotalMetodo(ventas, fechaInicio, fechaFin, metodos[0]))] + resto
      else resto
  }

  /** `obtenerVentasPorMetodo`: exactly one group for each method that has a
      counted sale, none for the others, each with its method's count and total. */
  function ObtenerVentasPorMetodo(ventas: seq<Venta>, fechaInicio: int, fechaFin: int): (r: seq<FilaMetodo>)
    ensures forall k | 0 <= k < |r| :: r[k].numeroVentas > 0
    ensures forall k | 0 <= k < |r| ::
      r[k].numeroVentas == ContarMetodo(ventas, fechaInicio, fechaFin, r[k].metodoPago)
      && r[k].montoTotal == TotalMetodo(ventas, fechaInicio, fechaFin, r[k].metodoPago)
    ensures forall m :: (exists k | 0 <= k < |r| :: r[k].metodoPago == m)
                        <==> ContarMetodo(ventas, fechaInicio, fechaFin, m) > 0
    ensures forall i, j | 0 <= i < j < |r| :: r[i].metodoPago != r[j].metodoPago
  {
    GruposFieles(METODOS, ventas, fechaInicio, fechaFin);
    GruposMiembros(METODOS, ventas, fechaInicio, fechaFin);
    GruposSinRepetir(METODOS, ventas, fechaInicio, fechaFin);
    MetodosEnumerados();
    Grupos(METODOS, ventas, fechaInicio, fechaFin)
  }

  /** `METODOS` lists every payment method. */
  lemma MetodosEnumerados()
    ensures forall m: MetodoPago :: m in METODOS
  {
    forall m: MetodoPago
      ensures m in METODOS
    {
      match m
      case Efectivo => assert METODOS[0] == m;
      case Tarjeta => assert METODOS[1] == m;
      case Mixto => assert METODOS[2] == m;
    }
  }

  /** A method has a group exactly when it is listed and has a counted sale. */
  lemma {:induction false} GruposMiembros(metodos: seq<MetodoPago>, ventas: seq<Venta>, fechaInicio: int, fechaFin: int)
    ensures forall m :: (exists k | 0 <= k < |Grupos(metodos, ventas, fechaInicio, fechaFin)| ::
                           Grupos(metodos, ventas, fechaInicio, fechaFin)[k].metodoPago == m)
                        <==> m in metodos && ContarMetodo(ventas, fechaInicio, fechaFin, m) > 0
    decreases |metodos|
  {
    if metodos != [] {
      GruposMiembros(metodos[1..], ventas, fechaInicio, fechaFin);
      var r := Grupos(metodos, ventas, fechaInicio, fechaFin);
      var resto := Grupos(metodos[1..], ventas, fechaInicio, fechaFin);
      var n := ContarMetodo(ventas, fechaInicio, fechaFin, metodos[0]);
      forall m
        ensures (exists k | 0 <= k < |r| :: r[k].metodoPago == m)
                <==> m in metodos && ContarMetodo(ventas, fechaInicio, fechaFin, m) > 0
      {
        assert m in metodos <==> m == metodos[0] || m in metodos[1..];
        if n > 0 {
          assert forall k | 1 <= k < |r| :: r[k] == resto[k - 1];
          if exists k | 0 <= k < |resto| :: resto[k].metodoPago == m {
            var k :| 0 <= k < |resto| && resto[k].metodoPago == m;
            assert r[k + 1].metodoPago == m;
          }
          if m == metodos[0] {
            assert r[0].metodoPago == m;
          }
        }
      }
    }
  }

  /** Listing each method once gives each method at most one group. */
  lemma {:induction false} GruposSinRepetir(metodos: seq<MetodoPago>, ventas: seq<Venta>, fechaInicio: int, fechaFin: int)
    requires MetodosDistintos(metodos)
    ensures MetodosUnicos(Grupos(metodos, ventas, fechaInicio, fechaFin))
    decreases |metodos|
  {
    if metodos != [] {
      var r := Grupos(metodos, ventas, fechaInicio, fechaFin);
      var cola := metodos[1..];
      var resto := Grupos(cola, ventas, fechaInicio, fechaFin);
      assert forall k | 0 <= k < |cola| :: cola[k] == metodos[k + 1];
      GruposSinRepetir(cola, ventas, fechaInicio, fechaFin);
      assert metodos[0] !in cola;
      if ContarMetodo(ventas, fechaInicio, fechaFin, metodos[0]) > 0 {
        assert r == [r[0]] + resto;
        assert r[0].metodoPago == metodos[0];
        forall i, j | 0 <= i < j < |r|
          ensures r[i].metodoPago != r[j].metodoPago
        {
          assert r[j] == resto[j - 1];
          assert r[j].metodoPago in cola;
          if i > 0 {
            assert r[i] == resto[i - 1];
          }
        }
      } else {
        assert r == resto;
      }
    }
  }

  /** No payment method is listed twice. */
  predicate MetodosDistintos(metodos: seq<MetodoPago>)
  {
    forall i, j | 0 <= i < j < |metodos| :: metodos[i] != metodos[j]
  }

  /** No two groups share a payment method. */
  predicate MetodosUnicos(r: seq<FilaMetodo>)
  {
    forall i, j | 0 <= i < j < |r| :: r[i].metodoPago != r[j].metodoPago
  }

  lemma {:induction false} GruposFieles(metodos: seq<MetodoPago>, ventas: seq<Venta>, fechaInicio: int, fechaFin: int)
    ensures forall k | 0 <= k < |Grupos(metodos, ventas, fechaInicio, fechaFin)| ::
      var g := Grupos(metodos, ventas, fechaInicio, fechaFin)[k];
      g.numeroVentas == ContarMetodo(ventas, fechaInicio, fechaFin, g.metodoPago)
      && g.montoTotal == TotalMetodo(ventas, fechaInicio, fechaFin, g.metodoPago)
    decreases |metodos|
  {
    if metodos != [] {
      GruposFieles(metodos[1..], ventas, fechaInicio, fechaFin);
    }
  }

  function SumaNumeros(g: seq<FilaMetodo>): int
    decreases |g|
  {
    if g == [] then 0 else g[0].numeroVentas + SumaNumeros(g[1..])
  }

  function SumaTotales(g: seq<FilaMetodo>): int
    decreases |g|
  {
    if g == [] then 0 else g[0].montoTotal + SumaTotales(g[1..])
  }

  /** Every counted sale has exactly one of the three methods. */
  lemma {:induction false} TresMetodos(ventas: seq<Venta>, fechaInicio: int, fechaFin: int)
    ensures ContarTransacciones(ventas, fechaInicio, fechaFin)
            == ContarMetodo(ventas, fechaInicio, fechaFin, Efectivo) + ContarMetodo(ventas, fechaInicio, fechaFin, Tarjeta)
               + ContarMetodo(ventas, fechaInicio, fechaFin, Mixto)
    ensures CalcularTotalVentas(ventas, fechaInicio, fechaFin)
            == TotalMetodo(ventas, fechaInicio, fechaFin, Efectivo) + TotalMetodo(ventas, fechaInicio, fechaFin, Tarjeta)
               + TotalMetodo(ventas, fechaInicio, fechaFin, Mixto)
    decreases |ventas|
  {
    if ventas != [] {
      TresMetodos(ventas[1..], fechaInicio, fechaFin);
    }
  }

  /** An empty group's total is zero. */
  lemma {:induction false} GrupoVacio(ventas: seq<Venta>, fechaInicio: int, fechaFin: int, m: MetodoPago)
    ensures ContarMetodo(ventas, fechaInicio, fechaFin, m) == 0 ==> TotalMetodo(ventas, fechaInicio, fechaFin, m) == 0
    decreases |ventas|
  {
    if ventas != [] {
      GrupoVacio(ventas[1..], fechaInicio, fechaFin, m);
    }
  }

  function ContarEn(metodos: seq<MetodoPago>, ventas: seq<Venta>, fechaInicio: int, fechaFin: int): int
    decreases |metodos|
  {
    if metodos == [] then 0
    else ContarMetodo(ventas, fechaInicio, fechaFin, metodos[0]) + ContarEn(metodos[1..], ventas, fechaInicio, fechaFin)
  }

  function TotalEn(metodos: seq<MetodoPago>, ventas: seq<Venta>, fechaInicio: int, fechaFin: int): int
    decreases |metodos|
  {
    if metodos == [] then 0
    else TotalMetodo(ventas, fechaInicio, fechaFin, metodos[0]) + TotalEn(metodos[1..], ventas, fechaInicio, fechaFin)
  }

  /** Dropping the empty groups loses no sale and no amount. */
  lemma {:induction false} GruposSuman(metodos: seq<MetodoPago>, ventas: seq<Venta>, fechaInicio: int, fechaFin: int)
    ensures SumaNumeros(Grupos(metodos, ventas, fechaInicio, fechaFin)) == ContarEn(metodos, ventas, fechaInicio, fechaFin)
    ensures SumaTotales(Grupos(metodos, ventas, fechaInicio, fechaFin)) == TotalEn(metodos, ventas, fechaInicio, fechaFin)
    decreases |metodos|
  {
    if metodos != [] {
      GruposSuman(metodos[1..], ventas, fechaInicio, fechaFin);
      GrupoVacio(ventas, fechaInicio, fechaFin, metodos[0]);
      var resto := Grupos(metodos[1..], ventas, fechaInicio, fechaFin);
      var f := FilaMetodo(metodos[0], ContarMetodo(ventas, fechaInicio, fechaFin, metodos[0]),
                          TotalMetodo(ventas, fechaInicio, fechaFin, metodos[0]));
      assert ([f] + resto)[1..] == resto;
    }
  }

  /** The groups partition the counted sales: their counts add up to
      `contarTransacciones` and their totals to `calcularTotalVentas`. */
  lemma PorMetodoParticiona(ventas: seq<Venta>, fechaInicio: int, fechaFin: int)
    ensures SumaNumeros(ObtenerVentasPorMetodo(ventas, fechaInicio, fechaFin)) == ContarTransacciones(ventas, fechaInicio, fechaFin)
    ensures SumaTotales(ObtenerVentasPorMetodo(ventas, fechaInicio, fechaFin)) == CalcularTotalVentas(ventas, fechaInicio, fechaFin)
  {
    TresMetodos(ventas, fechaInicio, fechaFin);
    GruposSuman(METODOS, ventas, fechaInicio, fechaFin);
    assert METODOS[1..] == [Tarjeta, Mixto];
    assert METODOS[1..][1..] == [Mixto];
    assert METODOS[1..][1..][1..] == [];
  }

  // ---- obtenerProductosMasVendidos ----

  /** A row of the top-sellers query. */
  datatype FilaProducto = FilaProducto(productoId: int, nombreProducto: string, cantidadVendida: int, montoTotal: int)

  /** The lines of the counted sales, in table order. */
  function Lineas(ventas: seq<Venta>, fechaInicio: int, fechaFin: int): seq<DetalleVenta>
    decreases |ventas|
  {
    if ventas == [] then []
    else (if Contable(ventas[0], fechaInicio, fechaFin) then ventas[0].detalles else [])
         + Lineas(ventas[1..], fechaInicio, fechaFin)
  }

  function SumaMontoProducto(ds: seq<DetalleVenta>, productoId: int): int
    decreases |ds|
  {
    if ds == [] then 0
    else (if ds[0].productoId == productoId then ds[0].subtotal else 0) + SumaMontoProducto(ds[1..], productoId)
  }

  function Ids(ds: seq<DetalleVenta>): seq<int>
    ensures |Ids(ds)| == |ds|
    ensures forall k | 0 <= k < |ds| :: Ids(ds)[k] == ds[k].productoId
  {
    seq(|ds|, k requires 0 <= k < |ds| => ds[k].productoId)
  }

  predicate SinRepetir(xs: seq<int>) {
    forall i, j | 0 <= i < j < |xs| :: xs[i] != xs[j]
  }

  /** The distinct ids, each at its first occurrence. */
  function Distintos(xs: seq<int>): (r: seq<int>)
    ensures SinRepetir(r)
    ensures forall x :: x in r <==> x in xs
    decreases |xs|
  {
    if xs == [] then []
    else
      var resto := Distintos(xs[..|xs| - 1]);
      assert forall x :: x in xs <==> x in xs[..|xs| - 1] || x == xs[|xs| - 1] by {
        assert xs == xs[..|xs| - 1] + [xs[|xs| - 1]];
      }
      if xs[|xs| - 1] in resto then resto else resto + [xs[|xs| - 1]]
  }

  /** `d.producto.nombre`, read through the product the line points at. */
  function NombreDe(productos: seq<Producto>, productoId: int): string {
    match Fila(productos, productoId)
    case Some(p) => p.nombre
    case None => ""
  }

  function Agrupar(ids: seq<int>, productos: seq<Producto>, ds: seq<DetalleVenta>): (r: seq<FilaProducto>)
    ensures |r| == |ids|
    ensures forall k | 0 <= k < |ids| :: r[k] == FilaProducto(ids[k], NombreDe(productos, ids[k]),
                                                              SumaCantidades(ds, ids[k]), SumaMontoProducto(ds, ids[k]))
  {
    seq(|ids|, k requires 0 <= k < |ids| =>
      FilaProducto(ids[k], NombreDe(productos, ids[k]), SumaCantidades(ds, ids[k]), SumaMontoProducto(ds, ids[k])))
  }

  function CantidadVendida(f: FilaProducto): int { f.cantidadVendida }

  /** `obtenerProductosMasVendidos`: the per-product groups of the counted lines,
      largest quantity first (`MasVendidosFiel` says what the rows hold). */
  function ObtenerProductosMasVendidos(ventas: seq<Venta>, productos: seq<Producto>, fechaInicio: int, fechaFin: int): (r: seq<FilaProducto>)
    ensures forall i, j | 0 <= i < j < |r| :: r[i].cantidadVendida >= r[j].cantidadVendida
  {
    var ds := Lineas(ventas, fechaInicio, fechaFin);
    var r := Ordenar(Agrupar(Distintos(Ids(ds)), productos, ds), CantidadVendida);
    assert forall i, j | 0 <= i < j < |r| :: CantidadVendida(r[i]) >= CantidadVendida(r[j]);
    r
  }

  /** One row per product sold in a counted sale, none twice, each holding the
      product's current name and the summed quantity and amount of its lines. */
  lemma MasVendidosFiel(ventas: seq<Venta>, productos: seq<Producto>, fechaInicio: int, fechaFin: int)
    ensures var r := ObtenerProductosMasVendidos(ventas, productos, fechaInicio, fechaFin);
      forall i, j | 0 <= i < j < |r| :: r[i].productoId != r[j].productoId
    ensures var r := ObtenerProductosMasVendidos(ventas, productos, fechaInicio, fechaFin);
      forall id :: (exists k | 0 <= k < |r| :: r[k].productoId == id) <==> id in Ids(Lineas(ventas, fechaInicio, fechaFin))
    ensures var r := ObtenerProductosMasVendidos(ventas, productos, fechaInicio, fechaFin);
      var ds := Lineas(ventas, fechaInicio, fechaFin);
      forall k | 0 <= k < |r| ::
        r[k].nombreProducto == NombreDe(productos, r[k].productoId)
        && r[k].cantidadVendida == SumaCantidades(ds, r[k].productoId)
        && r[k].montoTotal == SumaMontoProducto(ds, r[k].productoId)
  {
    var ds := Lineas(ventas, fechaInicio, fechaFin);
    var ids := Distintos(Ids(ds));
    var g := Agrupar(ids, productos, ds);
    var r := ObtenerProductosMasVendidos(ventas, productos, fechaInicio, fechaFin);
    assert r == Ordenar(g, CantidadVendida);
    assert multiset(r) == multiset(g);
    assert forall f :: f in r <==> f in g by {
      forall f ensures f in r <==> f in g { OrdenarMiembros(g, CantidadVendida, f); }
    }
    SinRepetirPermutado(g, r);
    forall id ensures (exists k | 0 <= k < |r| :: r[k].productoId == id) <==> id in ids {
      if id in ids {
        var k :| 0 <= k < |ids| && ids[k] == id;
        assert g[k] in r;
      }
      if exists k | 0 <= k < |r| :: r[k].productoId == id {
        var k :| 0 <= k < |r| && r[k].productoId == id;
        assert r[k] in g;
      }
    }
    forall k | 0 <= k < |r|
      ensures r[k].nombreProducto == NombreDe(productos, r[k].productoId)
      ensures r[k].cantidadVendida == SumaCantidades(ds, r[k].productoId)
      ensures r[k].montoTotal == SumaMontoProducto(ds, r[k].productoId)
    {
      assert r[k] in g;
    }
  }

  /** A reordering of rows with pairwise-distinct ids has pairwise-distinct ids. */
  lemma SinRepetirPermutado(g: seq<FilaProducto>, r: seq<FilaProducto>)
    requires forall i, j | 0 <= i < j < |g| :: g[i].productoId != g[j].productoId
    requires multiset(r) == multiset(g)
    ensures forall i, j | 0 <= i < j < |r| :: r[i].productoId != r[j].productoId
  {
    forall i, j | 0 <= i < j < |r| ensures r[i].productoId != r[j].productoId {
      FilasDistintas(g, r, i, j);
      assert r[i] in multiset(g) && r[j] in multiset(g);
      var a :| 0 <= a < |g| && g[a] == r[i];
      var b :| 0 <= b < |g| && g[b] == r[j];
    }
  }

  lemma FilasDistintas(g: seq<FilaProducto>, r: seq<FilaProducto>, i: int, j: int)
    requires forall i, j | 0 <= i < j < |g| :: g[i].productoId != g[j].productoId
    requires multiset(r) == multiset(g)
    requires 0 <= i < j < |r|
    ensures r[i] != r[j]
  {
    UnicaEnDistintos(g, r[i]);
    assert multiset(r[..i+1]) + multiset(r[i+1..]) == multiset(r) by { assert r == r[..i+1] + r[i+1..]; }
    assert r[i] in multiset(r[..i+1]) by { assert r[i] == r[..i+1][i]; }
    assert r[j] in multiset(r[i+1..]) by { assert r[j] == r[i+1..][j - i - 1]; }
  }

  lemma {:induction false} UnicaEnDistintos(g: seq<FilaProducto>, f: FilaProducto)
    requires forall i, j | 0 <= i < j < |g| :: g[i].productoId != g[j].productoId
    ensures multiset(g)[f] <= 1
    decreases |g|
  {
    if g != [] {
      assert g == [g[0]] + g[1..];
      UnicaEnDistintos(g[1..], f);
      if g[0] == f {
        assert f !in g[1..];
        assert multiset(g[1..])[f] == 0;
      }
    }
  }

  /** `findBySesion_SesionIdAndEstadoAndMetodoPago`, in table order. */
  function FindBySesionEstadoMetodo(ventas: seq<Venta>, sesionId: int, estado: EstadoVenta, metodoPago: MetodoPago): (r: seq<Venta>)
    ensures forall v :: v in r <==> v in ventas && v.sesionId == sesionId && v.estado == estado && v.metodoPago == metodoPago
    decreases |ventas|
  {
    if ventas == [] then []
    else
      var resto := FindBySesionEstadoMetodo(ventas[1..], sesionId, estado, metodoPago);
      assert forall v :: v in ventas <==> v == ventas[0] || v in ventas[1..];
      var v := ventas[0];
      if v.sesionId == sesionId && v.estado == estado && v.metodoPago == metodoPago then [v] + resto else resto
  }
}
