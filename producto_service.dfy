/** The product catalogue of
    src/main/java/com/libreria/libreria/service/impl/ProductoServiceImpl.java:
    reads expose active products only, and deleting a product only marks it inactive. */
module ProductoService {
  import opened Wrappers
  import opened Model
  import opened Database
  import opened Text

  /** `Boolean.TRUE.equals(p.getActivo())`: a null flag does not count as active. */
  predicate Activo(p: Producto) {
    p.activo == Some(true)
  }

  /** `findAll`: the active products, in table order. */
  function FindAll(productos: seq<Producto>): (r: seq<Producto>)
    ensures forall p :: p in r <==> p in productos && Activo(p)
    ensures |r| <= |productos|
    decreases |productos|
  {
    if productos == [] then []
    else
      var resto := FindAll(productos[1..]);
      assert forall p :: p in productos <==> p == productos[0] || p in productos[1..];
      if Activo(productos[0]) then [productos[0]] + resto else resto
  }

  /** `findById`: the product with that id, unless it is missing or inactive. */
  function FindById(productos: seq<Producto>, id: int): (r: Option<Producto>)
    ensures r.Some? <==> 1 <= id <= |productos| && Activo(productos[id - 1])
    ensures r.Some? ==> r.value == productos[id - 1]
  {
    match Fila(productos, id)
    case Some(p) => if Activo(p) then Some(p) else None
    case None => None
  }

  /** `mapToEntity` followed by `save`: the category and location lookups in that
      order, then a new row with the next id, always active. */
  function SaveSpec(productos: seq<Producto>, categorias: seq<Categoria>, ubicaciones: seq<Ubicacion>,
                    dto: ProductoDTO): (r: Resultado<Producto>)
    ensures r.Err? <==> Fila(categorias, dto.categoriaId).None? || Fila(ubicaciones, dto.ubicacionId).None?
    ensures Fila(categorias, dto.categoriaId).None? ==>
      r == Err(RuntimeException(NoEncontrado("Categoria", NO_ENCONTRADA, " ID: ", dto.categoriaId)))
    ensures r.Ok? ==>
      r.value.productoId == |productos| + 1 && Activo(r.value)
      && r.value.categoriaId == dto.categoriaId && r.value.ubicacionId == dto.ubicacionId
      && r.value.nombre == dto.nombre && r.value.descripcion == dto.descripcion && r.value.sku == dto.sku
      && r.value.precioVenta == dto.precioVenta && r.value.precioMayorista == dto.precioMayorista
      && r.value.precioCosto == dto.precioCosto && r.value.cantidadStock == dto.cantidadStock
  {
    if Fila(categorias, dto.categoriaId).None? then
      Err(RuntimeException(NoEncontrado("Categoria", NO_ENCONTRADA, " ID: ", dto.categoriaId)))
    else if Fila(ubicaciones, dto.ubicacionId).None? then
      Err(RuntimeException(NoEncontrado("Ubicacion", NO_ENCONTRADA, " ID: ", dto.ubicacionId)))
    else
      var entidad := Producto(|productos| + 1, dto.categoriaId, dto.ubicacionId, dto.nombre, dto.descripcion,
                              dto.sku, dto.precioVenta, dto.precioMayorista, dto.precioCosto, dto.cantidadStock,
                              Some(dto.activo.GetOr(true)));
      Ok(entidad.(activo := Some(true)))
  }

  /** `update` on the table as a value. */
  function UpdateSpec(productos: seq<Producto>, categorias: seq<Categoria>, ubicaciones: seq<Ubicacion>,
                      id: int, dto: ProductoDTO): (r: Resultado<Producto>)
    ensures Fila(productos, id).None? ==> r == Err(RuntimeException(NoEncontrado("Producto", NO_ENCONTRADO, " con ID: ", id)))
    ensures r.Ok? ==>
      var p := productos[id - 1];
      1 <= id <= |productos| && r.value.productoId == p.productoId
      && r.value.nombre == dto.nombre && r.value.descripcion == dto.descripcion && r.value.sku == dto.sku
      && r.value.precioVenta == dto.precioVenta && r.value.precioMayorista == dto.precioMayorista
      && r.value.precioCosto == dto.precioCosto && r.value.cantidadStock == dto.cantidadStock
      && r.value.activo == (if dto.activo.Some? then dto.activo else p.activo)
      && r.value.categoriaId == dto.categoriaId && r.value.ubicacionId == dto.ubicacionId
    ensures Fila(productos, id).Some? ==>
      var p := productos[id - 1];
      (r.Err? <==> (p.categoriaId != dto.categoriaId && Fila(categorias, dto.categoriaId).None?)
                   || (p.ubicacionId != dto.ubicacionId && Fila(ubicaciones, dto.ubicacionId).None?))
  {
    match Fila(productos, id)
    case None => Err(RuntimeException(NoEncontrado("Producto", NO_ENCONTRADO, " con ID: ", id)))
    case Some(p) =>
      var q := p.(nombre := dto.nombre, descripcion := dto.descripcion, sku := dto.sku,
                  precioVenta := dto.precioVenta, precioMayorista := dto.precioMayorista,
                  precioCosto := dto.precioCosto, cantidadStock := dto.cantidadStock,
                  activo := if dto.activo.Some? then dto.activo else p.activo);
      if q.categoriaId != dto.categoriaId && Fila(categorias, dto.categoriaId).None? then
        Err(RuntimeException(NoEncontrado("Categoria", NO_ENCONTRADA, " ID: ", dto.categoriaId)))
      else if q.ubicacionId != dto.ubicacionId && Fila(ubicaciones, dto.ubicacionId).None? then
        Err(RuntimeException(NoEncontrado("Ubicacion", NO_ENCONTRADA, " ID: ", dto.ubicacionId)))
      else
        Ok(q.(categoriaId := dto.categoriaId, ubicacionId := dto.ubicacionId))
  }

  /** `save`. */
  method Save(db: Db, dto: ProductoDTO) returns (r: Resultado<Producto>)
    requires db.Valid()
    modifies db
    ensures db.Valid()
    ensures r == SaveSpec(old(db.productos), db.categorias, db.ubicaciones, dto)
    ensures r.Ok? ==> db.productos == old(db.productos) + [r.value]
    ensures r.Err? ==> db.productos == old(db.productos)
    ensures db.categorias == old(db.categorias) && db.ubicaciones == old(db.ubicaciones) && db.roles == old(db.roles)
    ensures db.clientes == old(db.clientes) && db.usuarios == old(db.usuarios) && db.sesiones == old(db.sesiones)
    ensures db.ventas == old(db.ventas)
  {
    if Fila(db.categorias, dto.categoriaId).None? {
      return Err(RuntimeException(NoEncontrado("Categoria", NO_ENCONTRADA, " ID: ", dto.categoriaId)));
    }
    if Fila(db.ubicaciones, dto.ubicacionId).None? {
      return Err(RuntimeException(NoEncontrado("Ubicacion", NO_ENCONTRADA, " ID: ", dto.ubicacionId)));
    }
    var producto := Producto(|db.productos| + 1, dto.categoriaId, dto.ubicacionId, dto.nombre, dto.descripcion,
                             dto.sku, dto.precioVenta, dto.precioMayorista, dto.precioCosto, dto.cantidadStock,
                             Some(dto.activo.GetOr(true)));
    producto := producto.(activo := Some(true));
    var t := db.productos + [producto];
    assert ProductosValidos(t, |db.categorias|, |db.ubicaciones|) by {
      forall i | 0 <= i < |t|
        ensures t[i].productoId == i + 1 && 1 <= t[i].categoriaId <= |db.categorias| && 1 <= t[i].ubicacionId <= |db.ubicaciones|
      {
        if i < |db.productos| { assert t[i] == db.productos[i]; }
      }
    }
    db.productos := t;
    r := Ok(producto);
  }

  /** `update`: the stored row is changed in place, or not at all. */
  method Update(db: Db, id: int, dto: ProductoDTO) returns (r: Resultado<Producto>)
    requires db.Valid()
    modifies db
    ensures db.Valid()
    ensures r == UpdateSpec(old(db.productos), db.categorias, db.ubicaciones, id, dto)
    ensures r.Ok? ==> 1 <= id <= |old(db.productos)| && db.productos == old(db.productos)[id - 1 := r.value]
    ensures r.Err? ==> db.productos == old(db.productos)
    ensures db.categorias == old(db.categorias) && db.ubicaciones == old(db.ubicaciones) && db.roles == old(db.roles)
    ensures db.clientes == old(db.clientes) && db.usuarios == old(db.usuarios) && db.sesiones == old(db.sesiones)
    ensures db.ventas == old(db.ventas)
  {
    var existente: Producto;
    match Fila(db.productos, id) {
      case None => return Err(RuntimeException(NoEncontrado("Producto", NO_ENCONTRADO, " con ID: ", id)));
      case Some(p) => existente := p;
    }
    existente := existente.(nombre := dto.nombre);
    existente := existente.(descripcion := dto.descripcion);
    existente := existente.(sku := dto.sku);
    existente := existente.(precioVenta := dto.precioVenta);
    existente := existente.(precioMayorista := dto.precioMayorista);
    existente := existente.(precioCosto := dto.precioCosto);
    existente := existente.(cantidadStock := dto.cantidadStock);
    if dto.activo.Some? {
      existente := existente.(activo := dto.activo);
    }
    if existente.categoriaId != dto.categoriaId {
      if Fila(db.categorias, dto.categoriaId).None? {
        return Err(RuntimeException(NoEncontrado("Categoria", NO_ENCONTRADA, " ID: ", dto.categoriaId)));
      }
      existente := existente.(categoriaId := dto.categoriaId);
    }
    if existente.ubicacionId != dto.ubicacionId {
      if Fila(db.ubicaciones, dto.ubicacionId).None? {
        return Err(RuntimeException(NoEncontrado("Ubicacion", NO_ENCONTRADA, " ID: ", dto.ubicacionId)));
      }
      existente := existente.(ubicacionId := dto.ubicacionId);
    }
    var t := db.productos[id - 1 := existente];
    assert ProductosValidos(t, |db.categorias|, |db.ubicaciones|) by {
      forall i | 0 <= i < |t|
        ensures t[i].productoId == i + 1 && 1 <= t[i].categoriaId <= |db.categorias| && 1 <= t[i].ubicacionId <= |db.ubicaciones|
      {
        if i != id - 1 { assert t[i] == db.productos[i]; }
      }
    }
    db.productos := t;
    r := Ok(existente);
  }

  /** `delete`: a soft delete; a missing id is ignored. */
  method Delete(db: Db, id: int)
    requires db.Valid()
    modifies db
    ensures db.Valid()
    ensures Fila(old(db.productos), id).None? ==> db.productos == old(db.productos)
    ensures Fila(old(db.productos), id).Some? ==>
      db.productos == old(db.productos)[id - 1 := old(db.productos)[id - 1].(activo := Some(false))]
    ensures db.categorias == old(db.categorias) && db.ubicaciones == old(db.ubicaciones) && db.roles == old(db.roles)
    ensures db.clientes == old(db.clientes) && db.usuarios == old(db.usuarios) && db.sesiones == old(db.sesiones)
    ensures db.ventas == old(db.ventas)
  {
    match Fila(db.productos, id) {
      case None =>
      case Some(producto) =>
        var t := db.productos[id - 1 := producto.(activo := Some(false))];
        assert ProductosValidos(t, |db.categorias|, |db.ubicaciones|) by {
          forall i | 0 <= i < |t|
            ensures t[i].productoId == i + 1 && 1 <= t[i].categoriaId <= |db.categorias| && 1 <= t[i].ubicacionId <= |db.ubicaciones|
          {
            if i != id - 1 { assert t[i] == db.productos[i]; }
          }
        }
        db.productos := t;
    }
  }

  /** After a soft delete the product can no longer be read, by id or in the list,
      while every other product reads as before. */
  lemma DeleteOculta(productos: seq<Producto>, id: int, otro: int)
    requires 1 <= id <= |productos|
    requires forall i | 0 <= i < |productos| :: productos[i].productoId == i + 1
    requires otro != id
    ensures var t := productos[id - 1 := productos[id - 1].(activo := Some(false))];
      FindById(t, id).None? && (forall p | p in FindAll(t) :: p.productoId != id)
      && FindById(t, otro) == FindById(productos, otro)
  {
    var t := productos[id - 1 := productos[id - 1].(activo := Some(false))];
    forall p | p in FindAll(t) ensures p.productoId != id {
      var i :| 0 <= i < |t| && t[i] == p;
      if i != id - 1 { assert t[i] == productos[i]; }
    }
  }

  /** A saved product can be read back under its new id. */
  lemma SaveFindById(productos: seq<Producto>, categorias: seq<Categoria>, ubicaciones: seq<Ubicacion>, dto: ProductoDTO)
    requires SaveSpec(productos, categorias, ubicaciones, dto).Ok?
    ensures var p := SaveSpec(productos, categorias, ubicaciones, dto).value;
      FindById(productos + [p], |productos| + 1) == Some(p) && p in FindAll(productos + [p])
  {
    var p := SaveSpec(productos, categorias, ubicaciones, dto).value;
    assert (productos + [p])[|productos|] == p;
  }
}
