/** The user registry of src/main/java/com/libreria/libreria/service/impl/UsuarioServiceImpl.java.
    The password encoder is not part of this model: its `encode` and `matches` are
    passed in as functions. */
module UsuarioService {
  import opened Wrappers
  import opened Model
  import opened Database

  const USERNAME_EXISTE := "El nombre de usuario ya existe"
  const ROL_NO_ENCONTRADO := "Rol no encontrado"
  const USUARIO_INACTIVO := "Usuario inactivo"

  /** `findByUsername`: the first row with that user name. */
  function FindByUsername(usuarios: seq<Usuario>, username: string): (r: Option<Usuario>)
    ensures r.Some? ==> r.value in usuarios && r.value.username == username
    ensures r.None? <==> forall k | 0 <= k < |usuarios| :: usuarios[k].username != username
    decreases |usuarios|
  {
    if usuarios == [] then None
    else if usuarios[0].username == username then Some(usuarios[0])
    else
      var r := FindByUsername(usuarios[1..], username);
      assert forall k | 1 <= k < |usuarios| :: usuarios[k] == usuarios[1..][k - 1];
      r
  }

  /** What the service returns about a user: never the password hash. */
  datatype UsuarioDTO = UsuarioDTO(usuarioId: int, rolId: int, nombreCompleto: string, username: string, activo: bool)

  function MapToDTO(u: Usuario): UsuarioDTO {
    UsuarioDTO(u.usuarioId, u.rolId, u.nombreCompleto, u.username, u.activo)
  }

  /** `crearUsuario` on the tables as values: the user-name check comes before the
      role lookup; the new user is active and stores the encoded password. */
  function CrearUsuarioSpec(usuarios: seq<Usuario>, roles: seq<Rol>, dto: CreateUsuarioDTO,
                            encode: string -> string): (r: Resultado<Usuario>)
    ensures FindByUsername(usuarios, dto.username).Some? ==> r == Err(RuntimeException(USERNAME_EXISTE))
    ensures r.Err? <==> FindByUsername(usuarios, dto.username).Some? || Fila(roles, dto.rolId).None?
    ensures r.Ok? ==> r.value == Usuario(|usuarios| + 1, dto.rolId, dto.nombreCompleto, dto.username,
                                         encode(dto.password), true)
  {
    if FindByUsername(usuarios, dto.username).Some? then Err(RuntimeException(USERNAME_EXISTE))
    else if Fila(roles, dto.rolId).None? then Err(RuntimeException(ROL_NO_ENCONTRADO))
    else Ok(Usuario(|usuarios| + 1, dto.rolId, dto.nombreCompleto, dto.username, encode(dto.password), true))
  }

  /** `crearUsuario`. */
  method CrearUsuario(db: Db, dto: CreateUsuarioDTO, encode: string -> string) returns (r: Resultado<UsuarioDTO>)
    requires db.Valid()
    modifies db
    ensures db.Valid()
    ensures match CrearUsuarioSpec(old(db.usuarios), db.roles, dto, encode)
      case Ok(u) => r == Ok(MapToDTO(u)) && db.usuarios == old(db.usuarios) + [u]
      case Err(e) => r == Err(e) && db.usuarios == old(db.usuarios)
    ensures db.categorias == old(db.categorias) && db.ubicaciones == old(db.ubicaciones) && db.roles == old(db.roles)
    ensures db.productos == old(db.productos) && db.clientes == old(db.clientes) && db.sesiones == old(db.sesiones)
    ensures db.ventas == old(db.ventas)
  {
    if FindByUsername(db.usuarios, dto.username).Some? {
      return Err(RuntimeException(USERNAME_EXISTE));
    }
    if Fila(db.roles, dto.rolId).None? {
      return Err(RuntimeException(ROL_NO_ENCONTRADO));
    }
    var usuario := Usuario(|db.usuarios| + 1, dto.rolId, dto.nombreCompleto, dto.username, encode(dto.password), true);
    CreadoConsistente(db.categorias, db.ubicaciones, db.roles, db.productos, db.clientes, db.usuarios,
                      db.sesiones, db.ventas, dto, encode);
    db.usuarios := db.usuarios + [usuario];
    r := Ok(MapToDTO(usuario));
  }

  /** A new user keeps user names unique and the database consistent. */
  lemma CreadoConsistente(categorias: seq<Categoria>, ubicaciones: seq<Ubicacion>, roles: seq<Rol>,
                          productos: seq<Producto>, clientes: seq<Cliente>, usuarios: seq<Usuario>,
                          sesiones: seq<SesionCaja>, ventas: seq<Venta>, dto: CreateUsuarioDTO, encode: string -> string)
    requires Consistente(categorias, ubicaciones, roles, productos, clientes, usuarios, sesiones, ventas)
    requires CrearUsuarioSpec(usuarios, roles, dto, encode).Ok?
    ensures var u := CrearUsuarioSpec(usuarios, roles, dto, encode).value;
      Consistente(categorias, ubicaciones, roles, productos, clientes, usuarios + [u], sesiones, ventas)
  {
    var u := CrearUsuarioSpec(usuarios, roles, dto, encode).value;
    var t := usuarios + [u];
    assert UsuariosValidos(t, |roles|) by {
      forall i | 0 <= i < |t| ensures t[i].usuarioId == i + 1 && 1 <= t[i].rolId <= |roles| {
        if i < |usuarios| { assert t[i] == usuarios[i]; }
      }
      forall i, j | 0 <= i < j < |t| ensures t[i].username != t[j].username {
        assert t[i] == usuarios[i];
        if j < |usuarios| { assert t[j] == usuarios[j]; }
      }
    }
    assert SesionesValidas(sesiones, |t|) by {
      forall i | 0 <= i < |sesiones| ensures sesiones[i].sesionId == i + 1 && 1 <= sesiones[i].usuarioAperturaId <= |t| { }
    }
    assert VentasValidas(ventas, |productos|, |clientes|, |t|, |sesiones|) by {
      forall i | 0 <= i < |ventas|
        ensures ventas[i].ventaId == i + 1 && VentaValida(ventas[i], |productos|, |clientes|, |t|, |sesiones|)
      {
        assert VentaValida(ventas[i], |productos|, |clientes|, |usuarios|, |sesiones|);
      }
    }
  }

  /** `login`: empty for an unknown user name or a wrong password, an exception for
      an inactive user with the right password, the user otherwise. */
  function Login(usuarios: seq<Usuario>, username: string, password: string,
                 matches: (string, string) -> bool): (r: Resultado<Option<Usuario>>)
    ensures FindByUsername(usuarios, username).None? ==> r == Ok(None)
    ensures FindByUsername(usuarios, username).Some? ==>
      var u := FindByUsername(usuarios, username).value;
      (!matches(password, u.passwordHash) ==> r == Ok(None))
      && (matches(password, u.passwordHash) && !u.activo ==> r == Err(RuntimeException(USUARIO_INACTIVO)))
      && (matches(password, u.passwordHash) && u.activo ==> r == Ok(Some(u)))
    ensures r.Ok? && r.value.Some? ==> r.value.value.username == username && r.value.value.activo
  {
    match FindByUsername(usuarios, username)
    case None => Ok(None)
    case Some(u) =>
      if matches(password, u.passwordHash) then
        if !u.activo then Err(RuntimeException(USUARIO_INACTIVO)) else Ok(Some(u))
      else Ok(None)
  }

  /** With an encoder whose `matches` accepts a password against its own encoding,
      a freshly created user logs in with the password it was created with. */
  lemma CrearLuegoLogin(usuarios: seq<Usuario>, roles: seq<Rol>, dto: CreateUsuarioDTO,
                        encode: string -> string, matches: (string, string) -> bool)
    requires CrearUsuarioSpec(usuarios, roles, dto, encode).Ok?
    requires matches(dto.password, encode(dto.password))
    ensures var u := CrearUsuarioSpec(usuarios, roles, dto, encode).value;
      Login(usuarios + [u], dto.username, dto.password, matches) == Ok(Some(u))
  {
    var u := CrearUsuarioSpec(usuarios, roles, dto, encode).value;
    assert FindByUsername(usuarios + [u], dto.username) == Some(u) by {
      FindByUsernameAppend(usuarios, u);
    }
  }

  lemma {:induction false} FindByUsernameAppend(usuarios: seq<Usuario>, u: Usuario)
    requires forall k | 0 <= k < |usuarios| :: usuarios[k].username != u.username
    ensures FindByUsername(usuarios + [u], u.username) == Some(u)
    decreases |usuarios|
  {
    if usuarios == [] {
      assert [] + [u] == [u];
    } else {
      assert (usuarios + [u])[1..] == usuarios[1..] + [u];
      FindByUsernameAppend(usuarios[1..], u);
    }
  }
}
