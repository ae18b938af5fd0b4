/** The product form's validation, field editing and submission
    (frontend/src/components/ProductModal.tsx). */
module ProductForm {
  import opened Wrappers
  import opened Text

  datatype Campo =
    | Nombre | Sku | PrecioVenta | PrecioMayorista | PrecioCosto | CantidadStock
    | CategoriaId | UbicacionId | Descripcion

  /** The form's values. Prices are cents; the selects hold `parseInt` of the chosen
      option, which is NaN (None here) when it does not parse. */
  datatype FormData = FormData(
    nombre: string,
    sku: string,
    precioVenta: int,
    precioMayorista: int,
    precioCosto: int,
    cantidadStock: int,
    categoriaId: Option<int>,
    ubicacionId: Option<int>,
    descripcion: string)

  /** A value handed to `handleChange`: text, a number, or a parsed id. */
  datatype Valor = Texto(s: string) | Numero(n: int) | IdLeido(id: Option<int>)

  /** `!id || id === 0`: NaN and 0 are both falsy. */
  predicate SinSeleccion(id: Option<int>) {
    id.None? || id.value == 0
  }

  const MSG_NOMBRE := "El nombre es requerido"
  const MSG_SKU := "El SKU es requerido"
  const MSG_PRECIO_VENTA := "El precio de venta debe ser mayor a 0"
  const MSG_PRECIO_MAYORISTA := "El precio mayorista no puede ser negativo"
  const MSG_PRECIO_COSTO := "El precio de costo no puede ser negativo"
  const MSG_STOCK := "El stock no puede ser negativo"
  const MSG_CATEGORIA := "Debe seleccionar una categor\U{ED}a"
  const MSG_UBICACION := "Debe seleccionar una ubicaci\U{F3}n"

  /** The error table, `Partial<Record<keyof ProductoFormData, string>>`: an
      optional message per field. */
  datatype Errores = Errores(
    nombre: Option<string>,
    sku: Option<string>,
    precioVenta: Option<string>,
    precioMayorista: Option<string>,
    precioCosto: Option<string>,
    cantidadStock: Option<string>,
    categoriaId: Option<string>,
    ubicacionId: Option<string>,
    descripcion: Option<string>)

  const SIN_ERRORES := Errores(None, None, None, None, None, None, None, None, None)

  function ErrorDe(e: Errores, c: Campo): Option<string> {
    match c
    case Nombre => e.nombre
    case Sku => e.sku
    case PrecioVenta => e.precioVenta
    case PrecioMayorista => e.precioMayorista
    case PrecioCosto => e.precioCosto
    case CantidadStock => e.cantidadStock
    case CategoriaId => e.categoriaId
    case UbicacionId => e.ubicacionId
    case Descripcion => e.descripcion
  }

  /** `{ ...e, [c]: v }`. */
  function ConError(e: Errores, c: Campo, v: Option<string>): (r: Errores)
    ensures ErrorDe(r, c) == v
    ensures forall d | d != c :: ErrorDe(r, d) == ErrorDe(e, d)
  {
    match c
    case Nombre => e.(nombre := v)
    case Sku => e.(sku := v)
    case PrecioVenta => e.(precioVenta := v)
    case PrecioMayorista => e.(precioMayorista := v)
    case PrecioCosto => e.(precioCosto := v)
    case CantidadStock => e.(cantidadStock := v)
    case CategoriaId => e.(categoriaId := v)
    case UbicacionId => e.(ubicacionId := v)
    case Descripcion => e.(descripcion := v)
  }

  /** The error table `validate` builds: a message for each field that fails its
      check, none for the others. */
  function ErroresDe(f: FormData): Errores {
    Errores(
      if Trim(f.nombre) == "" then Some(MSG_NOMBRE) else None,
      if Trim(f.sku) == "" then Some(MSG_SKU) else None,
      if f.precioVenta <= 0 then Some(MSG_PRECIO_VENTA) else None,
      if f.precioMayorista < 0 then Some(MSG_PRECIO_MAYORISTA) else None,
      if f.precioCosto < 0 then Some(MSG_PRECIO_COSTO) else None,
      if f.cantidadStock < 0 then Some(MSG_STOCK) else None,
      if SinSeleccion(f.categoriaId) then Some(MSG_CATEGORIA) else None,
      if SinSeleccion(f.ubicacionId) then Some(MSG_UBICACION) else None,
      None)
  }

  /** An acceptable product, stated field by field: a name and an SKU that are
      not all whitespace, a sale price above zero, wholesale and cost prices and
      stock not below zero, and a category and a location picked. */
  predicate Aceptable(f: FormData) {
    !IsBlank(f.nombre) && !IsBlank(f.sku)
    && f.precioVenta > 0 && f.precioMayorista >= 0 && f.precioCosto >= 0 && f.cantidadStock >= 0
    && f.categoriaId.Some? && f.categoriaId.value != 0
    && f.ubicacionId.Some? && f.ubicacionId.value != 0
  }

  /** `validate` reports no error exactly for acceptable forms, and each field's
      error is present exactly when that field breaks its own rule: a name or
      SKU that is all whitespace, a sale price not above zero, a negative
      wholesale price, cost price or stock, a missing category or location. The
      description is never in error. */
  lemma ErroresSpec(f: FormData)
    ensures ErroresDe(f) == SIN_ERRORES <==> Aceptable(f)
    ensures ErroresDe(f).nombre.Some? <==> IsBlank(f.nombre)
    ensures ErroresDe(f).sku.Some? <==> IsBlank(f.sku)
    ensures ErroresDe(f).precioVenta.Some? <==> f.precioVenta <= 0
    ensures ErroresDe(f).precioMayorista.Some? <==> f.precioMayorista < 0
    ensures ErroresDe(f).precioCosto.Some? <==> f.precioCosto < 0
    ensures ErroresDe(f).cantidadStock.Some? <==> f.cantidadStock < 0
    ensures ErroresDe(f).categoriaId.Some? <==> f.categoriaId.None? || f.categoriaId.value == 0
    ensures ErroresDe(f).ubicacionId.Some? <==> f.ubicacionId.None? || f.ubicacionId.value == 0
    ensures ErroresDe(f).descripcion.None?
  {
    TrimEmptyIffBlank(f.nombre);
    TrimEmptyIffBlank(f.sku);
  }

  /** Whether a value has the type the field holds. */
  predicate Encaja(campo: Campo, v: Valor) {
    match campo
    case Nombre | Sku | Descripcion => v.Texto?
    case PrecioVenta | PrecioMayorista | PrecioCosto | CantidadStock => v.Numero?
    case CategoriaId | UbicacionId => v.IdLeido?
  }

  /** `{ ...prev, [field]: value }`. */
  function ConCampo(f: FormData, campo: Campo, v: Valor): FormData
    requires Encaja(campo, v)
  {
    match campo
    case Nombre => f.(nombre := v.s)
    case Sku => f.(sku := v.s)
    case Descripcion => f.(descripcion := v.s)
    case PrecioVenta => f.(precioVenta := v.n)
    case PrecioMayorista => f.(precioMayorista := v.n)
    case PrecioCosto => f.(precioCosto := v.n)
    case CantidadStock => f.(cantidadStock := v.n)
    case CategoriaId => f.(categoriaId := v.id)
    case UbicacionId => f.(ubicacionId := v.id)
  }

  /** The `newErrors` object `validate` fills in: one check per field, in the
      order of the form. */
  method NuevosErrores(f: FormData) returns (nuevos: Errores)
    ensures nuevos == ErroresDe(f)
  {
    var nombre: Option<string> := None;
    if Trim(f.nombre) == "" {
      nombre := Some(MSG_NOMBRE);
    }
    assert nombre == ErroresDe(f).nombre;
    var sku: Option<string> := None;
    if Trim(f.sku) == "" {
      sku := Some(MSG_SKU);
    }
    assert sku == ErroresDe(f).sku;
    var precioVenta: Option<string> := None;
    if f.precioVenta <= 0 {
      precioVenta := Some(MSG_PRECIO_VENTA);
    }
    var precioMayorista: Option<string> := None;
    if f.precioMayorista < 0 {
      precioMayorista := Some(MSG_PRECIO_MAYORISTA);
    }
    var precioCosto: Option<string> := None;
    if f.precioCosto < 0 {
      precioCosto := Some(MSG_PRECIO_COSTO);
    }
    var cantidadStock: Option<string> := None;
    if f.cantidadStock < 0 {
      cantidadStock := Some(MSG_STOCK);
    }
    var categoriaId: Option<string> := None;
    if f.categoriaId.None? || f.categoriaId.value == 0 {
      categoriaId := Some(MSG_CATEGORIA);
    }
    var ubicacionId: Option<string> := None;
    if f.ubicacionId.None? || f.ubicacionId.value == 0 {
      ubicacionId := Some(MSG_UBICACION);
    }
    nuevos := Errores(nombre, sku, precioVenta, precioMayorista, precioCosto, cantidadStock,
                      categoriaId, ubicacionId, None);
  }

  /** The form as the modal holds it. `guardados` lists the values handed to
      `onSave`, in order; `cerrado` records that `onClose` was called. */
  class ProductFormState {
    var formData: FormData
    var errors: Errores
    var isSubmitting: bool
    var guardados: seq<FormData>
    var cerrado: bool

    constructor (inicial: FormData)
      ensures formData == inicial && errors == SIN_ERRORES && !isSubmitting && guardados == [] && !cerrado
    {
      formData := inicial;
      errors := SIN_ERRORES;
      isSubmitting := false;
      guardados := [];
      cerrado := false;
    }

    /** `validate`: rebuilds the error table field by field from the current
        values and answers whether it came out empty. */
    method Validate() returns (ok: bool)
      modifies this
      ensures errors == ErroresDe(formData)
      ensures ok <==> Aceptable(formData)
      ensures formData == old(formData) && isSubmitting == old(isSubmitting)
      ensures guardados == old(guardados) && cerrado == old(cerrado)
    {
      var f := formData;
      var nuevos := NuevosErrores(f);
      errors := nuevos;
      assert formData == f;
      ok := nuevos == SIN_ERRORES;
      assert ok <==> Aceptable(f) by {
        ErroresSpec(f);
      }
    }

    /** `handleChange`: stores the value and drops that field's error, if any,
        leaving every other error as it was. */
    method HandleChange(campo: Campo, valor: Valor)
      requires Encaja(campo, valor)
      modifies this
      ensures formData == ConCampo(old(formData), campo, valor)
      ensures ErrorDe(errors, campo) == if ErrorDe(old(errors), campo) == Some("") then Some("") else None
      ensures forall c | c != campo :: ErrorDe(errors, c) == ErrorDe(old(errors), c)
      ensures isSubmitting == old(isSubmitting) && guardados == old(guardados) && cerrado == old(cerrado)
    {
      formData := ConCampo(formData, campo, valor);
      var actual := ErrorDe(errors, campo);
      if actual.Some? && actual.value != "" {
        errors := ConError(errors, campo, None);
      }
    }

    /** `handleSubmit`: an invalid form stops before `onSave`; a valid one is saved,
        and the modal closes only when saving succeeded (`guardadoOk`). A save
        lowers the in-flight flag at the end; a rejected form leaves it alone. */
    method HandleSubmit(guardadoOk: bool)
      modifies this
      ensures errors == ErroresDe(old(formData)) && formData == old(formData)
      ensures guardados == old(guardados) + (if Aceptable(old(formData)) then [old(formData)] else [])
      ensures cerrado == (old(cerrado) || (Aceptable(old(formData)) && guardadoOk))
      ensures isSubmitting == (old(isSubmitting) && !Aceptable(old(formData)))
    {
      var ok := Validate();
      if !ok {
        return;
      }
      isSubmitting := true;
      guardados := guardados + [formData];
      if guardadoOk {
        cerrado := true;
      }
      isSubmitting := false;
    }
  }
}
