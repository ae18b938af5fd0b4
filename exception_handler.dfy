/** The `@ControllerAdvice` that turns the exceptions the services raise into
    the HTTP error body the frontend reads. */
module ExceptionHandler {
  import opened Model
  import opened Text

  /** `ErrorResponse` without its timestamp: status code, label, message and
      the request URI. */
  datatype ErrorResponse = ErrorResponse(status: int, error: string, message: string, path: string)

  /** The message of a runtime exception names a missing resource: its lower-cased
      form contains one of the two phrases. */
  predicate NombraAusente(message: string) {
    Contains(Lower(message), NO_ENCONTRADO) || Contains(Lower(message), NO_ENCONTRADA)
  }

  /** `field: defaultMessage` for every field error, in order. */
  function Detalles(errores: seq<FieldError>): (r: seq<string>)
    ensures |r| == |errores|
    ensures forall i :: 0 <= i < |errores| ==> r[i] == errores[i].field + ": " + errores[i].defaultMessage
  {
    seq(|errores|, i requires 0 <= i < |errores| => errores[i].field + ": " + errores[i].defaultMessage)
  }

  /** Dispatch to the most specific handler: the stock handler, the runtime
      handler for every other unchecked exception, the validation handler for
      a rejected request body. */
  function Manejar(e: Excepcion, path: string): (r: ErrorResponse)
    ensures r.path == path
    ensures e.StockInsuficienteException? ==>
      r == ErrorResponse(400, "Stock Insuficiente", e.message, path)
    ensures e.MethodArgumentNotValidException? ==>
      r == ErrorResponse(400, "Validation Error", Join(Detalles(e.fieldErrors), ", "), path)
    ensures !e.StockInsuficienteException? && !e.MethodArgumentNotValidException? ==>
      r.message == e.message
      && (r.status == 404 <==> NombraAusente(e.message))
      && (r.status == 404 ==> r.error == "Resource Not Found")
      && (r.status != 404 ==> r.status == 500 && r.error == "Internal Server Error")
  {
    match e
    case StockInsuficienteException(m) => ErrorResponse(400, "Stock Insuficiente", m, path)
    case MethodArgumentNotValidException(fe) =>
      ErrorResponse(400, "Validation Error", Join(Detalles(fe), ", "), path)
    case _ =>
      var m := e.message;
      if Contains(Lower(m), NO_ENCONTRADO) then ErrorResponse(404, "Resource Not Found", m, path)
      else if Contains(Lower(m), NO_ENCONTRADA) then ErrorResponse(404, "Resource Not Found", m, path)
      else ErrorResponse(500, "Internal Server Error", m, path)
  }

  /** A phrase already in lower case, found in a string, is found in its lower-cased form. */
  lemma OcurreEnMinusculas(s: string, needle: string, k: int)
    requires OccursAt(s, needle, k)
    requires Lower(needle) == needle
    ensures OccursAt(Lower(s), needle, k)
  {
    var w := Lower(s)[k..k + |needle|];
    forall j | 0 <= j < |needle| ensures w[j] == needle[j] {
      assert w[j] == LowerChar(s[k + j]) == LowerChar(needle[j]) == Lower(needle)[j];
    }
  }

  /** A message that starts with a prefix holding one of the two phrases names a
      missing resource, whatever follows it. */
  lemma AusenteEn(p: string, k: int, resto: string)
    requires OccursAt(p, NO_ENCONTRADO, k) || OccursAt(p, NO_ENCONTRADA, k)
    ensures NombraAusente(p + resto)
  {
    assert Lower(NO_ENCONTRADO) == NO_ENCONTRADO;
    assert Lower(NO_ENCONTRADA) == NO_ENCONTRADA;
    LowerAppend(p, resto);
    if OccursAt(p, NO_ENCONTRADO, k) {
      OcurreEnMinusculas(p, NO_ENCONTRADO, k);
      ContainsExtend(Lower(p), Lower(resto), NO_ENCONTRADO);
    } else {
      OcurreEnMinusculas(p, NO_ENCONTRADA, k);
      ContainsExtend(Lower(p), Lower(resto), NO_ENCONTRADA);
    }
  }

  /** Every "not found" error the services raise, whatever the entity and the
      id, is answered with 404 Resource Not Found and keeps its message. */
  lemma NoEncontrado404(entidad: string, frase: string, etiqueta: string, id: int, path: string)
    requires frase == NO_ENCONTRADO || frase == NO_ENCONTRADA
    ensures Manejar(RuntimeException(NoEncontrado(entidad, frase, etiqueta, id)), path)
      == ErrorResponse(404, "Resource Not Found", NoEncontrado(entidad, frase, etiqueta, id), path)
  {
    var p := entidad + " " + frase;
    assert p[|entidad| + 1..|p|] == frase;
    AusenteEn(p, |entidad| + 1, etiqueta + Show(id));
    assert NoEncontrado(entidad, frase, etiqueta, id) == p + (etiqueta + Show(id));
  }

  /** The user service's missing-role error carries no id and still reads as a
      missing resource. */
  lemma RolNoEncontrado404(path: string)
    ensures Manejar(RuntimeException("Rol no encontrado"), path)
      == ErrorResponse(404, "Resource Not Found", "Rol no encontrado", path)
  {
    AusenteEn("Rol no encontrado", 4, "");
    assert "Rol no encontrado" + "" == "Rol no encontrado";
  }

  /** A rejected request body lists every field error, each as `field: message`,
      and a single error is reported alone. */
  lemma ValidacionUnCampo(campo: string, mensaje: string, path: string)
    ensures Manejar(MethodArgumentNotValidException([FieldError(campo, mensaje)]), path).message
      == campo + ": " + mensaje
  {
  }
}
