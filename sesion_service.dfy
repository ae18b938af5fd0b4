/** The cash-session state machine of
    src/main/java/com/libreria/libreria/service/impl/SesionCajaServiceImpl.java:
    a session is opened (Abierta) by a user and closed (Cerrada) once, recording
    the expected cash, the counted cash and their signed difference. */
module SesionCajaService {
  import opened Wrappers
  import opened Domain
  import opened Model
  import opened Database
  import opened Text
  import VentaRepository

  const YA_ABIERTA := "El usuario ya tiene una sesi\U{F3}n abierta."
  const YA_CERRADA := "La sesi\U{F3}n ya est\U{E1} cerrada."

  /** `findByUsuarioApertura_UsuarioIdAndEstado(usuarioId, Abierta)`: the user's open
      session, if any. */
  function BuscarAbierta(sesiones: seq<SesionCaja>, usuarioId: int): (r: Option<SesionCaja>)
    ensures r.Some? ==> r.value in sesiones && r.value.usuarioAperturaId == usuarioId && r.value.estado == Abierta
    ensures r.None? <==> forall k | 0 <= k < |sesiones| ::
                           !(sesiones[k].usuarioAperturaId == usuarioId && sesiones[k].estado == Abierta)
    decreases |sesiones|
  {
    if sesiones == [] then None
    else if sesiones[0].usuarioAperturaId == usuarioId && sesiones[0].estado == Abierta then Some(sesiones[0])
    else
      var r := BuscarAbierta(sesiones[1..], usuarioId);
      assert forall k | 1 <= k < |sesiones| :: sesiones[k] == sesiones[1..][k - 1];
      r
  }

  /** The session's completed cash sales, summed (`findBySesion_SesionIdAndEstadoAndMetodoPago`
      followed by the `reduce`). */
  function VentasEfectivo(ventas: seq<Venta>, sesionId: int): int {
    VentaRepository.SumaMontos(VentaRepository.FindBySesionEstadoMetodo(ventas, sesionId, Completada, Efectivo))
  }

  /** What a sale adds to its session's cash. */
  function Aporte(v: Venta, sesionId: int): int {
    if v.sesionId == sesionId && v.estado == Completada && v.metodoPago == Efectivo then v.montoTotal else 0
  }

  /** Only completed cash sales of the session count: a new sale moves the cash by
      exactly its own contribution. */
  lemma {:induction false} VentasEfectivoAppend(ventas: seq<Venta>, v: Venta, sesionId: int)
    ensures VentasEfectivo(ventas + [v], sesionId) == VentasEfectivo(ventas, sesionId) + Aporte(v, sesionId)
    decreases |ventas|
  {
    if ventas == [] {
      assert [] + [v] == [v];
    } else {
      assert (ventas + [v])[1..] == ventas[1..] + [v];
      VentasEfectivoAppend(ventas[1..], v, sesionId);
    }
  }

  /** Replacing one sale (voiding it, say) moves the cash by the change in its contribution. */
  lemma {:induction false} VentasEfectivoUpdate(ventas: seq<Venta>, i: int, v: Venta, sesionId: int)
    requires 0 <= i < |ventas|
    ensures VentasEfectivo(ventas[i := v], sesionId)
            == VentasEfectivo(ventas, sesionId) - Aporte(ventas[i], sesionId) + Aporte(v, sesionId)
    decreases |ventas|
  {
    if i > 0 {
      assert ventas[i := v][1..] == ventas[1..][i - 1 := v];
      VentasEfectivoUpdate(ventas[1..], i - 1, v, sesionId);
    } else {
      assert ventas[i := v][1..] == ventas[1..];
    }
  }

  /** No sale refers to a session id that is not yet in the table. */
  lemma {:induction false} SinVentasDeSesionNueva(ventas: seq<Venta>, sesionId: int)
    requires forall k | 0 <= k < |ventas| :: ventas[k].sesionId != sesionId
    ensures VentasEfectivo(ventas, sesionId) == 0
    decreases |ventas|
  {
    if ventas != [] {
      SinVentasDeSesionNueva(ventas[1..], sesionId);
    }
  }

  function MontoEsperado(s: SesionCaja, ventas: seq<Venta>): int {
    s.montoInicial + VentasEfectivo(ventas, s.sesionId)
  }

  datatype SesionCajaDTO = SesionCajaDTO(
    sesionId: int,
    usuarioAperturaId: int,
    fechaApertura: int,
    montoInicial: int,
    usuarioCierreId: Option<int>,
    fechaCierre: Option<int>,
    montoFinalEsperado: Option<int>,
    montoFinalContado: Option<int>,
    diferencia: Option<int>,
    estado: EstadoSesion)

  /** `mapToDTO`: an open session reports the expected cash as of now, a closed one
      the amount stored when it was closed; the ids, dates, amounts and state are
      copied (the users' names are not carried). */
  function MapToDTO(s: SesionCaja, ventas: seq<Venta>): (r: SesionCajaDTO)
    ensures s.estado == Abierta ==> r.montoFinalEsperado == Some(s.montoInicial + VentasEfectivo(ventas, s.sesionId))
    ensures s.estado == Cerrada ==> r.montoFinalEsperado == s.montoFinalEsperado
    ensures r.(montoFinalEsperado := s.montoFinalEsperado)
            == SesionCajaDTO(s.sesionId, s.usuarioAperturaId, s.fechaApertura, s.montoInicial, s.usuarioCierreId,
                             s.fechaCierre, s.montoFinalEsperado, s.montoFinalContado, s.diferencia, s.estado)
  {
    SesionCajaDTO(s.sesionId, s.usuarioAperturaId, s.fechaApertura, s.montoInicial, s.usuarioCierreId,
                  s.fechaCierre, if s.estado == Abierta then Some(MontoEsperado(s, ventas)) else s.montoFinalEsperado,
                  s.montoFinalContado, s.diferencia, s.estado)
  }

  /** `obtenerSesionActiva`: the user's open session, mapped to its DTO, or null. */
  function ObtenerSesionActiva(sesiones: seq<SesionCaja>, ventas: seq<Venta>, usuarioId: int): (r: Option<SesionCajaDTO>)
    ensures r.Some? ==> r.value.estado == Abierta && r.value.usuarioAperturaId == usuarioId
    ensures r.Some? ==> exists k | 0 <= k < |sesiones| ::
                          sesiones[k].usuarioAperturaId == usuarioId && sesiones[k].estado == Abierta
                          && r.value == MapToDTO(sesiones[k], ventas)
    ensures r.None? <==> forall k | 0 <= k < |sesiones| ::
                           !(sesiones[k].usuarioAperturaId == usuarioId && sesiones[k].estado == Abierta)
  {
    match BuscarAbierta(sesiones, usuarioId)
    case None => None
    case Some(s) => Some(MapToDTO(s, ventas))
  }

  /** `abrirSesion` on the tables as values: the open-session check comes before the
      user lookup; the new row is open, holds the opening float and no closing data. */
  function AbrirSesionSpec(sesiones: seq<SesionCaja>, usuarios: seq<Usuario>, dto: AperturaCajaDTO, ahora: int): (r: Resultado<SesionCaja>)
    ensures r.Err? <==> BuscarAbierta(sesiones, dto.usuarioId).Some? || Fila(usuarios, dto.usuarioId).None?
    ensures BuscarAbierta(sesiones, dto.usuarioId).Some? ==> r == Err(RuntimeException(YA_ABIERTA))
    ensures r.Ok? ==> r.value == SesionCaja(|sesiones| + 1, dto.usuarioId, ahora, dto.montoInicial,
                                            None, None, None, None, None, Abierta)
  {
    if BuscarAbierta(sesiones, dto.usuarioId).Some? then Err(RuntimeException(YA_ABIERTA))
    else if Fila(usuarios, dto.usuarioId).None? then
      Err(RuntimeException(NoEncontrado("Usuario", NO_ENCONTRADO, " con ID: ", dto.usuarioId)))
    else Ok(SesionCaja(|sesiones| + 1, dto.usuarioId, ahora, dto.montoInicial, None, None, None, None, None, Abierta))
  }

  /** `cerrarSesion` on the tables as values. Closing succeeds exactly on an
      existing open session and an existing user, whatever the counted amount; the
      closed row records the expected cash (the opening float plus the session's
      completed cash sales), the counted cash and their signed difference, and
      keeps the opening data. */
  function CerrarSesionSpec(sesiones: seq<SesionCaja>, usuarios: seq<Usuario>, ventas: seq<Venta>,
                            sesionId: int, dto: CierreCajaDTO, ahora: int): (r: Resultado<SesionCaja>)
    ensures r.Ok? <==> 1 <= sesionId <= |sesiones| && sesiones[sesionId - 1].estado == Abierta
                       && 1 <= dto.usuarioId <= |usuarios|
    ensures r.Ok? ==>
      var s := sesiones[sesionId - 1];
      var c := r.value;
      c.estado == Cerrada && c.usuarioCierreId == Some(dto.usuarioId) && c.fechaCierre == Some(ahora)
      && c.montoFinalEsperado == Some(s.montoInicial + VentasEfectivo(ventas, s.sesionId))
      && c.montoFinalContado == Some(dto.montoFinalContado)
      && c.diferencia == Some(dto.montoFinalContado - c.montoFinalEsperado.value)
      && c.sesionId == s.sesionId && c.usuarioAperturaId == s.usuarioAperturaId
      && c.fechaApertura == s.fechaApertura && c.montoInicial == s.montoInicial
    ensures 1 <= sesionId <= |sesiones| && sesiones[sesionId - 1].estado == Cerrada ==>
      r == Err(RuntimeException(YA_CERRADA))
  {
    match Fila(sesiones, sesionId)
    case None => Err(RuntimeException(NoEncontrado("Sesi\U{F3}n", NO_ENCONTRADA, " con ID: ", sesionId)))
    case Some(s) =>
      if s.estado == Cerrada then Err(RuntimeException(YA_CERRADA))
      else if Fila(usuarios, dto.usuarioId).None? then
        Err(RuntimeException(NoEncontrado("Usuario", NO_ENCONTRADO, " con ID: ", dto.usuarioId)))
      else
        var esperado := MontoEsperado(s, ventas);
        assert s.estado == Abierta;
        Ok(s.(usuarioCierreId := Some(dto.usuarioId), fechaCierre := Some(ahora),
              montoFinalEsperado := Some(esperado), montoFinalContado := Some(dto.montoFinalContado),
              diferencia := Some(dto.montoFinalContado - esperado), estado := Cerrada))
  }

  /** `abrirSesion`. */
  method AbrirSesion(db: Db, dto: AperturaCajaDTO, ahora: int) returns (r: Resultado<SesionCajaDTO>)
    requires db.Valid()
    modifies db
    ensures db.Valid()
    ensures match AbrirSesionSpec(old(db.sesiones), old(db.usuarios), dto, ahora)
      case Ok(s) => r == Ok(MapToDTO(s, db.ventas)) && db.sesiones == old(db.sesiones) + [s]
      case Err(e) => r == Err(e) && db.sesiones == old(db.sesiones)
    ensures r.Ok? ==> r.value.montoFinalEsperado == Some(dto.montoInicial)
    ensures db.categorias == old(db.categorias) && db.ubicaciones == old(db.ubicaciones) && db.roles == old(db.roles)
    ensures db.productos == old(db.productos) && db.clientes == old(db.clientes) && db.usuarios == old(db.usuarios)
    ensures db.ventas == old(db.ventas)
  {
    if BuscarAbierta(db.sesiones, dto.usuarioId).Some? {
      return Err(RuntimeException(YA_ABIERTA));
    }
    if Fila(db.usuarios, dto.usuarioId).None? {
      return Err(RuntimeException(NoEncontrado("Usuario", NO_ENCONTRADO, " con ID: ", dto.usuarioId)));
    }
    var nuevaSesion := SesionCaja(|db.sesiones| + 1, dto.usuarioId, ahora, dto.montoInicial,
                                  None, None, None, None, None, Abierta);
    AbiertaConsistente(db.categorias, db.ubicaciones, db.roles, db.productos, db.clientes, db.usuarios,
                       db.sesiones, db.ventas, dto, ahora);
    db.sesiones := db.sesiones + [nuevaSesion];
    r := Ok(MapToDTO(nuevaSesion, db.ventas));
  }

  /** Opening keeps the database consistent, in particular at most one open session
      per user; a brand-new session has no sales, so it reports its opening float
      as the expected cash. */
  lemma AbiertaConsistente(categorias: seq<Categoria>, ubicaciones: seq<Ubicacion>, roles: seq<Rol>,
                           productos: seq<Producto>, clientes: seq<Cliente>, usuarios: seq<Usuario>,
                           sesiones: seq<SesionCaja>, ventas: seq<Venta>, dto: AperturaCajaDTO, ahora: int)
    requires Consistente(categorias, ubicaciones, roles, productos, clientes, usuarios, sesiones, ventas)
    requires AbrirSesionSpec(sesiones, usuarios, dto, ahora).Ok?
    ensures var s := AbrirSesionSpec(sesiones, usuarios, dto, ahora).value;
      Consistente(categorias, ubicaciones, roles, productos, clientes, usuarios, sesiones + [s], ventas)
      && VentasEfectivo(ventas, s.sesionId) == 0
  {
    var s := AbrirSesionSpec(sesiones, usuarios, dto, ahora).value;
    var t := sesiones + [s];
    assert UnaAbiertaPorUsuario(t) by {
      forall i, j | 0 <= i < j < |t| && t[i].estado == Abierta && t[j].estado == Abierta
        ensures t[i].usuarioAperturaId != t[j].usuarioAperturaId
      {
        if j < |sesiones| {
          assert t[i] == sesiones[i] && t[j] == sesiones[j];
        } else {
          assert t[i] == sesiones[i];
        }
      }
    }
    assert SesionesValidas(t, |usuarios|) by {
      forall i | 0 <= i < |t| ensures t[i].sesionId == i + 1 && 1 <= t[i].usuarioAperturaId <= |usuarios| {
        if i < |sesiones| { assert t[i] == sesiones[i]; }
      }
    }
    assert VentasValidas(ventas, |productos|, |clientes|, |usuarios|, |t|) by {
      forall i | 0 <= i < |ventas|
        ensures ventas[i].ventaId == i + 1 && VentaValida(ventas[i], |productos|, |clientes|, |usuarios|, |t|)
      {
        assert VentaValida(ventas[i], |productos|, |clientes|, |usuarios|, |sesiones|);
      }
    }
    assert forall k | 0 <= k < |ventas| :: ventas[k].sesionId != s.sesionId by {
      forall k | 0 <= k < |ventas| ensures ventas[k].sesionId != s.sesionId {
        assert VentaValida(ventas[k], |productos|, |clientes|, |usuarios|, |sesiones|);
      }
    }
    SinVentasDeSesionNueva(ventas, s.sesionId);
  }

  /** `cerrarSesion`: the session row is updated in place. */
  method CerrarSesion(db: Db, sesionId: int, dto: CierreCajaDTO, ahora: int) returns (r: Resultado<SesionCajaDTO>)
    requires db.Valid()
    modifies db
    ensures db.Valid()
    ensures match CerrarSesionSpec(old(db.sesiones), old(db.usuarios), old(db.ventas), sesionId, dto, ahora)
      case Ok(s) => r == Ok(MapToDTO(s, db.ventas)) && 1 <= sesionId <= |old(db.sesiones)|
                    && db.sesiones == old(db.sesiones)[sesionId - 1 := s]
      case Err(e) => r == Err(e) && db.sesiones == old(db.sesiones)
    ensures db.categorias == old(db.categorias) && db.ubicaciones == old(db.ubicaciones) && db.roles == old(db.roles)
    ensures db.productos == old(db.productos) && db.clientes == old(db.clientes) && db.usuarios == old(db.usuarios)
    ensures db.ventas == old(db.ventas)
  {
    var sesion: SesionCaja;
    match Fila(db.sesiones, sesionId) {
      case None => return Err(RuntimeException(NoEncontrado("Sesi\U{F3}n", NO_ENCONTRADA, " con ID: ", sesionId)));
      case Some(s) => sesion := s;
    }
    if sesion.estado == Cerrada {
      return Err(RuntimeException(YA_CERRADA));
    }
    if Fila(db.usuarios, dto.usuarioId).None? {
      return Err(RuntimeException(NoEncontrado("Usuario", NO_ENCONTRADO, " con ID: ", dto.usuarioId)));
    }
    var ventasEfectivo := VentasEfectivo(db.ventas, sesionId);
    var montoEsperado := sesion.montoInicial + ventasEfectivo;
    var diferencia := dto.montoFinalContado - montoEsperado;
    sesion := sesion.(usuarioCierreId := Some(dto.usuarioId));
    sesion := sesion.(fechaCierre := Some(ahora));
    sesion := sesion.(montoFinalEsperado := Some(montoEsperado));
    sesion := sesion.(montoFinalContado := Some(dto.montoFinalContado));
    sesion := sesion.(diferencia := Some(diferencia));
    sesion := sesion.(estado := Cerrada);
    CerradaConsistente(db.categorias, db.ubicaciones, db.roles, db.productos, db.clientes, db.usuarios,
                       db.sesiones, db.ventas, sesionId, dto, ahora);
    db.sesiones := db.sesiones[sesionId - 1 := sesion];
    r := Ok(MapToDTO(sesion, db.ventas));
  }

  lemma CerradaConsistente(categorias: seq<Categoria>, ubicaciones: seq<Ubicacion>, roles: seq<Rol>,
                           productos: seq<Producto>, clientes: seq<Cliente>, usuarios: seq<Usuario>,
                           sesiones: seq<SesionCaja>, ventas: seq<Venta>, sesionId: int, dto: CierreCajaDTO, ahora: int)
    requires Consistente(categorias, ubicaciones, roles, productos, clientes, usuarios, sesiones, ventas)
    requires CerrarSesionSpec(sesiones, usuarios, ventas, sesionId, dto, ahora).Ok?
    ensures 1 <= sesionId <= |sesiones|
    ensures Consistente(categorias, ubicaciones, roles, productos, clientes, usuarios,
                        sesiones[sesionId - 1 := CerrarSesionSpec(sesiones, usuarios, ventas, sesionId, dto, ahora).value], ventas)
  {
    var t := sesiones[sesionId - 1 := CerrarSesionSpec(sesiones, usuarios, ventas, sesionId, dto, ahora).value];
    assert UnaAbiertaPorUsuario(t) by {
      forall i, j | 0 <= i < j < |t| && t[i].estado == Abierta && t[j].estado == Abierta
        ensures t[i].usuarioAperturaId != t[j].usuarioAperturaId
      {
        assert t[i] == sesiones[i] && t[j] == sesiones[j];
      }
    }
  }

  /** A closed session cannot be closed again. */
  lemma CerrarDosVeces(sesiones: seq<SesionCaja>, usuarios: seq<Usuario>, ventas: seq<Venta>, sesionId: int,
                       dto: CierreCajaDTO, ahora: int, otro: CierreCajaDTO, despues: int)
    requires CerrarSesionSpec(sesiones, usuarios, ventas, sesionId, dto, ahora).Ok?
    ensures var t := sesiones[sesionId - 1 := CerrarSesionSpec(sesiones, usuarios, ventas, sesionId, dto, ahora).value];
      CerrarSesionSpec(t, usuarios, ventas, sesionId, otro, despues) == Err(RuntimeException(YA_CERRADA))
  {
    var t := sesiones[sesionId - 1 := CerrarSesionSpec(sesiones, usuarios, ventas, sesionId, dto, ahora).value];
    assert Fila(t, sesionId).value.estado == Cerrada;
  }

  /** A user with an open session cannot open a second one. */
  lemma AbrirDosVeces(sesiones: seq<SesionCaja>, usuarios: seq<Usuario>, dto: AperturaCajaDTO, ahora: int,
                      otro: AperturaCajaDTO, despues: int)
    requires AbrirSesionSpec(sesiones, usuarios, dto, ahora).Ok?
    requires otro.usuarioId == dto.usuarioId
    ensures AbrirSesionSpec(sesiones + [AbrirSesionSpec(sesiones, usuarios, dto, ahora).value], usuarios, otro, despues)
            == Err(RuntimeException(YA_ABIERTA))
  {
    var t := sesiones + [AbrirSesionSpec(sesiones, usuarios, dto, ahora).value];
    assert t[|sesiones|].usuarioAperturaId == otro.usuarioId && t[|sesiones|].estado == Abierta;
  }
}
