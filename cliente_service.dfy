/** The client registry of
    src/main/java/com/libreria/libreria/service/impl/ClienteServiceImpl.java:
    reads expose active clients only, and deleting a client only marks it inactive. */
module ClienteService {
  import opened Wrappers
  import opened Model
  import opened Database
  import opened Text

  /** `Boolean.TRUE.equals(c.getActivo())`. */
  predicate Activo(c: Cliente) {
    c.activo == Some(true)
  }

  /** `findAll`: the active clients, in table order. */
  function FindAll(clientes: seq<Cliente>): (r: seq<Cliente>)
    ensures forall c :: c in r <==> c in clientes && Activo(c)
    ensures |r| <= |clientes|
    decreases |clientes|
  {
    if clientes == [] then []
    else
      var resto := FindAll(clientes[1..]);
      assert forall c :: c in clientes <==> c == clientes[0] || c in clientes[1..];
      if Activo(clientes[0]) then [clientes[0]] + resto else resto
  }

  /** `findById`: the client with that id, unless it is missing or inactive. */
  function FindById(clientes: seq<Cliente>, id: int): (r: Option<Cliente>)
    ensures r.Some? <==> 1 <= id <= |clientes| && Activo(clientes[id - 1])
    ensures r.Some? ==> r.value == clientes[id - 1]
  {
    match Fila(clientes, id)
    case Some(c) => if Activo(c) then Some(c) else None
    case None => None
  }

  /** `mapToEntity`: the request's fields under the given id, active unless the
      request says otherwise. */
  function MapToEntity(dto: ClienteDTO, id: int): (r: Cliente)
    ensures r.activo.Some?
    ensures dto.activo.None? ==> Activo(r)
    ensures dto.activo.Some? ==> r.activo == dto.activo
    ensures r.(activo := dto.activo) == Cliente(id, dto.nombreCompleto, dto.nit, dto.telefono, dto.direccion,
                                                 dto.email, dto.nivelPrecioAsignado, dto.activo)
  {
    Cliente(id, dto.nombreCompleto, dto.nit, dto.telefono, dto.direccion, dto.email, dto.nivelPrecioAsignado,
            Some(dto.activo.GetOr(true)))
  }

  /** `update` on the table as a value: the six descriptive fields, including the
      price tier, are overwritten; the flag changes only when one is supplied. */
  function UpdateSpec(clientes: seq<Cliente>, id: int, dto: ClienteDTO): (r: Resultado<Cliente>)
    ensures r.Err? <==> Fila(clientes, id).None?
    ensures r.Err? ==> r.error == RuntimeException(NoEncontrado("Cliente", NO_ENCONTRADO, " con ID: ", id))
    ensures r.Ok? ==>
      var c := clientes[id - 1];
      r.value.clienteId == c.clienteId && r.value.nombreCompleto == dto.nombreCompleto && r.value.nit == dto.nit
      && r.value.telefono == dto.telefono && r.value.direccion == dto.direccion && r.value.email == dto.email
      && r.value.nivelPrecioAsignado == dto.nivelPrecioAsignado
      && r.value.activo == (if dto.activo.Some? then dto.activo else c.activo)
  {
    match Fila(clientes, id)
    case None => Err(RuntimeException(NoEncontrado("Cliente", NO_ENCONTRADO, " con ID: ", id)))
    case Some(c) =>
      Ok(c.(nombreCompleto := dto.nombreCompleto, nit := dto.nit, telefono := dto.telefono,
            direccion := dto.direccion, email := dto.email, nivelPrecioAsignado := dto.nivelPrecioAsignado,
            activo := if dto.activo.Some? then dto.activo else c.activo))
  }

  /** `save`: a new row with the next id, always active. */
  method Save(db: Db, dto: ClienteDTO) returns (r: Cliente)
    requires db.Valid()
    modifies db
    ensures db.Valid()
    ensures Activo(r) && r.clienteId == |old(db.clientes)| + 1
    ensures r == MapToEntity(dto, |old(db.clientes)| + 1).(activo := Some(true))
    ensures db.clientes == old(db.clientes) + [r]
    ensures db.categorias == old(db.categorias) && db.ubicaciones == old(db.ubicaciones) && db.roles == old(db.roles)
    ensures db.productos == old(db.productos) && db.usuarios == old(db.usuarios) && db.sesiones == old(db.sesiones)
    ensures db.ventas == old(db.ventas)
  {
    var cliente := MapToEntity(dto, |db.clientes| + 1);
    cliente := cliente.(activo := Some(true));
    var t := db.clientes + [cliente];
    assert ClientesIdentificados(t) by {
      forall i | 0 <= i < |t| ensures t[i].clienteId == i + 1 {
        if i < |db.clientes| { assert t[i] == db.clientes[i]; }
      }
    }
    assert VentasValidas(db.ventas, |db.productos|, |t|, |db.usuarios|, |db.sesiones|) by {
      forall i | 0 <= i < |db.ventas|
        ensures db.ventas[i].ventaId == i + 1 && VentaValida(db.ventas[i], |db.productos|, |t|, |db.usuarios|, |db.sesiones|)
      {
        assert VentaValida(db.ventas[i], |db.productos|, |db.clientes|, |db.usuarios|, |db.sesiones|);
      }
    }
    db.clientes := t;
    r := cliente;
  }

  /** `update`: the stored row is changed in place, or not at all. */
  method Update(db: Db, id: int, dto: ClienteDTO) returns (r: Resultado<Cliente>)
    requires db.Valid()
    modifies db
    ensures db.Valid()
    ensures r == UpdateSpec(old(db.clientes), id, dto)
    ensures r.Ok? ==> 1 <= id <= |old(db.clientes)| && db.clientes == old(db.clientes)[id - 1 := r.value]
    ensures r.Err? ==> db.clientes == old(db.clientes)
    ensures db.categorias == old(db.categorias) && db.ubicaciones == old(db.ubicaciones) && db.roles == old(db.roles)
    ensures db.productos == old(db.productos) && db.usuarios == old(db.usuarios) && db.sesiones == old(db.sesiones)
    ensures db.ventas == old(db.ventas)
  {
    var existente: Cliente;
    match Fila(db.clientes, id) {
      case None => return Err(RuntimeException(NoEncontrado("Cliente", NO_ENCONTRADO, " con ID: ", id)));
      case Some(c) => existente := c;
    }
    existente := existente.(nombreCompleto := dto.nombreCompleto);
    existente := existente.(nit := dto.nit);
    existente := existente.(telefono := dto.telefono);
    existente := existente.(direccion := dto.direccion);
    existente := existente.(email := dto.email);
    existente := existente.(nivelPrecioAsignado := dto.nivelPrecioAsignado);
    if dto.activo.Some? {
      existente := existente.(activo := dto.activo);
    }
    var t := db.clientes[id - 1 := existente];
    assert ClientesIdentificados(t) by {
      forall i | 0 <= i < |t| ensures t[i].clienteId == i + 1 {
        if i != id - 1 { assert t[i] == db.clientes[i]; }
      }
    }
    db.clientes := t;
    r := Ok(existente);
  }

  /** `delete`: a soft delete; a missing id is ignored. */
  method Delete(db: Db, id: int)
    requires db.Valid()
    modifies db
    ensures db.Valid()
    ensures Fila(old(db.clientes), id).None? ==> db.clientes == old(db.clientes)
    ensures Fila(old(db.clientes), id).Some? ==>
      db.clientes == old(db.clientes)[id - 1 := old(db.clientes)[id - 1].(activo := Some(false))]
    ensures db.categorias == old(db.categorias) && db.ubicaciones == old(db.ubicaciones) && db.roles == old(db.roles)
    ensures db.productos == old(db.productos) && db.usuarios == old(db.usuarios) && db.sesiones == old(db.sesiones)
    ensures db.ventas == old(db.ventas)
  {
    match Fila(db.clientes, id) {
      case None =>
      case Some(cliente) =>
        var t := db.clientes[id - 1 := cliente.(activo := Some(false))];
        assert ClientesIdentificados(t) by {
          forall i | 0 <= i < |t| ensures t[i].clienteId == i + 1 {
            if i != id - 1 { assert t[i] == db.clientes[i]; }
          }
        }
        db.clientes := t;
    }
  }

  /** After a soft delete the client can no longer be read, by id or in the list,
      while every other client reads as before. */
  lemma DeleteOculta(clientes: seq<Cliente>, id: int, otro: int)
    requires 1 <= id <= |clientes|
    requires ClientesIdentificados(clientes)
    requires otro != id
    ensures var t := clientes[id - 1 := clientes[id - 1].(activo := Some(false))];
      FindById(t, id).None? && (forall c | c in FindAll(t) :: c.clienteId != id)
      && FindById(t, otro) == FindById(clientes, otro)
  {
    var t := clientes[id - 1 := clientes[id - 1].(activo := Some(false))];
    forall c | c in FindAll(t) ensures c.clienteId != id {
      var i :| 0 <= i < |t| && t[i] == c;
      if i != id - 1 { assert t[i] == clientes[i]; }
    }
  }

  /** Re-activating through `update` undoes a soft delete. */
  lemma UpdateReactiva(clientes: seq<Cliente>, id: int, dto: ClienteDTO)
    requires 1 <= id <= |clientes|
    requires dto.activo == Some(true)
    ensures var t := clientes[id - 1 := clientes[id - 1].(activo := Some(false))];
      var u := UpdateSpec(t, id, dto);
      u.Ok? && FindById(t[id - 1 := u.value], id) == Some(u.value)
  {
    var t := clientes[id - 1 := clientes[id - 1].(activo := Some(false))];
    assert Fila(t, id).Some?;
  }
}
