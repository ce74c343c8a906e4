/**
 * The error hierarchy rooted at `GICError`: every error carries a code and a
 * message built from the offending value, and prints as `[codigo] mensaje`.
 * Python's exception classes become the constructors of one sum type; the
 * subclass relation becomes the predicates `EsValidacion`, `EsDeCliente` and
 * `EsDeArchivo`.
 */
module Excepciones {
  import opened Wrappers
  import opened Cadenas

  datatype GicError =
    | Gic(mensaje: string := "Error en el sistema GIC", codigo: string := "GIC000")
    // Validation errors
    | Validacion(mensaje: string := "Error de validacion", codigo: string := "VAL000")
    | EmailInvalido(email: string := "")
    | TelefonoInvalido(telefono: string := "")
    | NombreInvalido(nombre: string := "")
    | DireccionInvalida(direccion: string := "")
    | RutInvalido(rut: string := "")
    | PuntosInvalidos(puntos: int := 0, disponibles: int := 0, operacion: string := "")
    // Client-management errors
    | ClienteGenerico(mensaje: string := "Error de cliente", codigo: string := "CLI000")
    | ClienteExistente(email: string := "")
    | ClienteNoEncontrado(email: string := "")
    | ListaVacia
    // File errors
    | ArchivoGenerico(mensaje: string := "Error de archivo", codigo: string := "ARC000")
    | ArchivoNoEncontrado(ruta: string := "")
    | ErrorEscritura(ruta: string := "", detalle: string := "")

  /** `isinstance(e, ValidacionError)`. */
  predicate EsValidacion(e: GicError) {
    e.Validacion? || e.EmailInvalido? || e.TelefonoInvalido? || e.NombreInvalido?
    || e.DireccionInvalida? || e.RutInvalido? || e.PuntosInvalidos?
  }

  /** `isinstance(e, ClienteError)`. */
  predicate EsDeCliente(e: GicError) {
    e.ClienteGenerico? || e.ClienteExistente? || e.ClienteNoEncontrado? || e.ListaVacia?
  }

  /** `isinstance(e, ArchivoError)`. */
  predicate EsDeArchivo(e: GicError) {
    e.ArchivoGenerico? || e.ArchivoNoEncontrado? || e.ErrorEscritura?
  }

  /** The kinds whose code is fixed by their class rather than passed by the caller. */
  predicate TieneCodigoFijo(e: GicError) {
    !(e.Gic? || e.Validacion? || e.ClienteGenerico? || e.ArchivoGenerico?)
  }

  /** The `codigo` attribute. */
  function Codigo(e: GicError): string {
    match e
    case Gic(_, c) => c
    case Validacion(_, c) => c
    case EmailInvalido(_) => "VAL001"
    case TelefonoInvalido(_) => "VAL002"
    case NombreInvalido(_) => "VAL003"
    case DireccionInvalida(_) => "VAL004"
    case RutInvalido(_) => "VAL005"
    case PuntosInvalidos(_, _, _) => "VAL006"
    case ClienteGenerico(_, c) => c
    case ClienteExistente(_) => "CLI001"
    case ClienteNoEncontrado(_) => "CLI002"
    case ListaVacia => "CLI003"
    case ArchivoGenerico(_, c) => c
    case ArchivoNoEncontrado(_) => "ARC001"
    case ErrorEscritura(_, _) => "ARC002"
  }

  /** An f-string with one interpolated value: `f"{antes}{valor}{despues}"`. */
  function Cita(antes: string, valor: string, despues: string): string {
    antes + valor + despues
  }

  /** The message of `PuntosInvalidosError`, which depends on the operation. */
  function MensajePuntos(puntos: int, disponibles: int, operacion: string): string {
    if operacion == "canjear" then
      Cita("No se pueden canjear ", EnteroATexto(puntos), Cita(" puntos. Disponibles: ", EnteroATexto(disponibles), ""))
    else if operacion == "agregar" then
      Cita("No se pueden agregar ", EnteroATexto(puntos), " puntos. Los puntos deben ser positivos")
    else
      Cita("Operacion invalida con puntos: ", EnteroATexto(puntos), "")
  }

  /** The `mensaje` attribute. */
  function Mensaje(e: GicError): string {
    match e
    case Gic(m, _) => m
    case Validacion(m, _) => m
    case EmailInvalido(v) => Cita("Email invalido: '", v, "'. Debe tener formato usuario@dominio.com")
    case TelefonoInvalido(v) => Cita("Telefono invalido: '", v, "'. Debe contener entre 8 y 15 digitos")
    case NombreInvalido(v) => Cita("Nombre invalido: '", v, "'. Debe tener al menos 2 caracteres alfabeticos")
    case DireccionInvalida(v) => Cita("Direccion invalida: '", v, "'. Debe tener al menos 5 caracteres")
    case RutInvalido(v) => Cita("RUT invalido: '", v, "'. Formato esperado: XX.XXX.XXX-X")
    case PuntosInvalidos(p, d, op) => MensajePuntos(p, d, op)
    case ClienteGenerico(m, _) => m
    case ClienteExistente(v) => Cita("Ya existe un cliente registrado con el email: '", v, "'")
    case ClienteNoEncontrado(v) => Cita("No se encontro ningun cliente con el email: '", v, "'")
    case ListaVacia => "No hay clientes registrados en el sistema"
    case ArchivoGenerico(m, _) => m
    case ArchivoNoEncontrado(v) => Cita("Archivo no encontrado: '", v, "'")
    case ErrorEscritura(r, d) => Cita("Error al escribir archivo '", r, "': " + d)
  }

  /** `str(e)`. */
  function Texto(e: GicError): string {
    "[" + Codigo(e) + "] " + Mensaje(e)
  }

  /** The value an error was raised for, for the kinds that keep one as a field. */
  function ValorOfensor(e: GicError): Option<string> {
    match e
    case EmailInvalido(v) => Some(v)
    case TelefonoInvalido(v) => Some(v)
    case NombreInvalido(v) => Some(v)
    case DireccionInvalida(v) => Some(v)
    case RutInvalido(v) => Some(v)
    case PuntosInvalidos(p, _, _) => Some(EnteroATexto(p))
    case ClienteExistente(v) => Some(v)
    case ClienteNoEncontrado(v) => Some(v)
    case ArchivoNoEncontrado(v) => Some(v)
    case ErrorEscritura(v, _) => Some(v)
    case _ => None
  }

  /** `"[" + c + "] " + m` is the code in brackets, a space, then the message. */
  lemma CorchetesDescompone(c: string, m: string)
    ensures var t := "[" + c + "] " + m;
            && |t| == |c| + 3 + |m|
            && t[0] == '[' && t[1..|c| + 1] == c
            && t[|c| + 1..|c| + 3] == "] "
            && t[|c| + 3..] == m
  {
  }

  /** `str(e)` is the code in brackets, a space, then the message. */
  lemma TextoDescompone(e: GicError)
    ensures |Texto(e)| == |Codigo(e)| + 3 + |Mensaje(e)|
    ensures Texto(e)[0] == '[' && Texto(e)[1..|Codigo(e)| + 1] == Codigo(e)
    ensures Texto(e)[|Codigo(e)| + 1..|Codigo(e)| + 3] == "] "
    ensures Texto(e)[|Codigo(e)| + 3..] == Mensaje(e)
  {
    CorchetesDescompone(Codigo(e), Mensaje(e));
  }

  /**
   * `str(e)` loses nothing: when neither code contains `]`, two errors print the
   * same only if they have the same code and the same message.
   */
  lemma TextoDeterminaCodigoYMensaje(e1: GicError, e2: GicError)
    requires ']' !in Codigo(e1) && ']' !in Codigo(e2)
    requires Texto(e1) == Texto(e2)
    ensures Codigo(e1) == Codigo(e2) && Mensaje(e1) == Mensaje(e2)
  {
    CorchetesInyectivo(Codigo(e1), Mensaje(e1), Codigo(e2), Mensaje(e2));
  }

  /** `"[" + c + "] " + m` is injective in `c` and `m` while `c` has no `]`. */
  lemma CorchetesInyectivo(c1: string, m1: string, c2: string, m2: string)
    requires ']' !in c1 && ']' !in c2
    requires "[" + c1 + "] " + m1 == "[" + c2 + "] " + m2
    ensures c1 == c2 && m1 == m2
  {
    var t := "[" + c1 + "] " + m1;
    // the first `]` of the text closes the code
    assert t[|c1| + 1] == ']' && t[|c2| + 1] == ']';
    assert forall k :: 1 <= k <= |c1| ==> t[k] == c1[k - 1];
    assert forall k :: 1 <= k <= |c2| ==> t[k] == c2[k - 1];
    assert |c1| == |c2|;
    assert c1 == t[1..|c1| + 1] == c2;
    assert m1 == t[|c1| + 3..] == m2;
  }

  /** The kinds with a fixed code carry the six-character code of their family. */
  lemma CodigoSegunFamilia(e: GicError)
    requires TieneCodigoFijo(e)
    ensures |Codigo(e)| == 6
    ensures EsValidacion(e) <==> Codigo(e)[..3] == "VAL"
    ensures EsDeCliente(e) <==> Codigo(e)[..3] == "CLI"
    ensures EsDeArchivo(e) <==> Codigo(e)[..3] == "ARC"
  {
    var familia := Codigo(e)[..3];
    if EsValidacion(e) {
      assert familia == "VAL";
    } else if EsDeCliente(e) {
      assert familia == "CLI";
    } else {
      assert familia == "ARC";
    }
  }

  /** Distinct kinds with a fixed code never share a code. */
  lemma CodigoIdentificaClase(e1: GicError, e2: GicError)
    requires TieneCodigoFijo(e1) && TieneCodigoFijo(e2)
    requires Codigo(e1) == Codigo(e2)
    ensures e1.EmailInvalido? == e2.EmailInvalido? && e1.TelefonoInvalido? == e2.TelefonoInvalido?
    ensures e1.NombreInvalido? == e2.NombreInvalido? && e1.DireccionInvalida? == e2.DireccionInvalida?
    ensures e1.RutInvalido? == e2.RutInvalido? && e1.PuntosInvalidos? == e2.PuntosInvalidos?
    ensures e1.ClienteExistente? == e2.ClienteExistente? && e1.ClienteNoEncontrado? == e2.ClienteNoEncontrado?
    ensures e1.ListaVacia? == e2.ListaVacia? && e1.ArchivoNoEncontrado? == e2.ArchivoNoEncontrado?
  {
  }

  /** The defaults of the generic constructors. */
  lemma ValoresPorDefecto()
    ensures Mensaje(Gic()) == "Error en el sistema GIC" && Codigo(Gic()) == "GIC000"
    ensures Codigo(Validacion()) == "VAL000" && Codigo(Validacion("Error de validacion")) == "VAL000"
    ensures Codigo(ClienteGenerico()) == "CLI000" && Codigo(ArchivoGenerico()) == "ARC000"
  {
  }

  /** An interpolated value, and anything the texts around it contain, is contained in the message. */
  lemma CitaContiene(antes: string, valor: string, despues: string, sub: string)
    requires sub == valor || Contiene(antes, sub) || Contiene(despues, sub)
    ensures Contiene(Cita(antes, valor, despues), sub)
  {
    var m := Cita(antes, valor, despues);
    if sub == valor {
      ContieneConcat(antes, valor, despues);
    } else if Contiene(antes, sub) {
      var i :| OcurreEn(sub, antes, i);
      assert m == antes + (valor + despues);
      assert forall j :: i <= j < i + |sub| ==> m[j] == antes[j];
      assert m[i..i + |sub|] == antes[i..i + |sub|];
      assert OcurreEn(sub, m, i);
    } else {
      var i :| OcurreEn(sub, despues, i);
      var k := |antes| + |valor| + i;
      assert m == (antes + valor) + despues;
      assert forall j :: k <= j < k + |sub| ==> m[j] == despues[j - |antes| - |valor|];
      assert m[k..k + |sub|] == despues[i..i + |sub|];
      assert OcurreEn(sub, m, k);
    }
  }

  /** Every message built from an offending value contains that value verbatim. */
  lemma MensajeContieneValor(e: GicError)
    requires ValorOfensor(e).Some?
    ensures Contiene(Mensaje(e), ValorOfensor(e).value)
  {
    if EsValidacion(e) {
      MensajeValidacionContieneValor(e);
    } else {
      MensajeOtrosContieneValor(e);
    }
  }

  lemma MensajeValidacionContieneValor(e: GicError)
    requires EsValidacion(e) && ValorOfensor(e).Some?
    ensures Contiene(Mensaje(e), ValorOfensor(e).value)
  {
    var v := ValorOfensor(e).value;
    match e {
      case EmailInvalido(_) => ContieneConcat("Email invalido: '", v, "'. Debe tener formato usuario@dominio.com");
      case TelefonoInvalido(_) => ContieneConcat("Telefono invalido: '", v, "'. Debe contener entre 8 y 15 digitos");
      case NombreInvalido(_) => ContieneConcat("Nombre invalido: '", v, "'. Debe tener al menos 2 caracteres alfabeticos");
      case DireccionInvalida(_) => ContieneConcat("Direccion invalida: '", v, "'. Debe tener al menos 5 caracteres");
      case RutInvalido(_) => ContieneConcat("RUT invalido: '", v, "'. Formato esperado: XX.XXX.XXX-X");
      case PuntosInvalidos(p, d, op) => MensajePuntosContieneValor(p, d, op);
    }
  }

  lemma MensajeOtrosContieneValor(e: GicError)
    requires !EsValidacion(e) && ValorOfensor(e).Some?
    ensures Contiene(Mensaje(e), ValorOfensor(e).value)
  {
    var v := ValorOfensor(e).value;
    match e {
      case ClienteExistente(_) => ContieneConcat("Ya existe un cliente registrado con el email: '", v, "'");
      case ClienteNoEncontrado(_) => ContieneConcat("No se encontro ningun cliente con el email: '", v, "'");
      case ArchivoNoEncontrado(_) => ContieneConcat("Archivo no encontrado: '", v, "'");
      case ErrorEscritura(_, d) => ContieneConcat("Error al escribir archivo '", v, "': " + d);
    }
  }

  lemma MensajePuntosContieneValor(p: int, d: int, op: string)
    ensures Contiene(MensajePuntos(p, d, op), EnteroATexto(p))
  {
    var v := EnteroATexto(p);
    if op == "canjear" {
      CitaContiene("No se pueden canjear ", v, Cita(" puntos. Disponibles: ", EnteroATexto(d), ""), v);
    } else if op == "agregar" {
      CitaContiene("No se pueden agregar ", v, " puntos. Los puntos deben ser positivos", v);
    } else {
      CitaContiene("Operacion invalida con puntos: ", v, "", v);
    }
  }

  /** A string contains everything its suffix contains. */
  lemma ContieneSufijo(pre: string, m: string, sub: string)
    requires Contiene(m, sub)
    ensures Contiene(pre + m, sub)
  {
    var i :| OcurreEn(sub, m, i);
    assert (pre + m)[|pre| + i..|pre| + i + |sub|] == m[i..i + |sub|];
    assert OcurreEn(sub, pre + m, |pre| + i);
  }

  /** `str(e)` contains everything its message contains. */
  lemma TextoContieneMensaje(e: GicError, sub: string)
    requires Contiene(Mensaje(e), sub)
    ensures Contiene(Texto(e), sub)
  {
    ContieneSufijo("[" + Codigo(e) + "] ", Mensaje(e), sub);
  }

  /** The message of a points error names the operation that failed and, for a redemption, the available balance. */
  lemma MensajePuntosNombraOperacion(p: int, d: int, op: string)
    ensures op == "canjear" ==> Contiene(MensajePuntos(p, d, op), "canjear")
    ensures op == "canjear" ==> Contiene(MensajePuntos(p, d, op), EnteroATexto(d))
    ensures op == "agregar" ==> Contiene(MensajePuntos(p, d, op), "agregar")
  {
    var v := EnteroATexto(p);
    if op == "canjear" {
      var antes := "No se pueden canjear ";
      assert OcurreEn("canjear", antes, 13);
      CitaContiene(antes, v, Cita(" puntos. Disponibles: ", EnteroATexto(d), ""), "canjear");
      CitaContiene(" puntos. Disponibles: ", EnteroATexto(d), "", EnteroATexto(d));
      CitaContiene(antes, v, Cita(" puntos. Disponibles: ", EnteroATexto(d), ""), EnteroATexto(d));
    } else if op == "agregar" {
      var antes := "No se pueden agregar ";
      assert OcurreEn("agregar", antes, 13);
      CitaContiene(antes, v, " puntos. Los puntos deben ser positivos", "agregar");
    }
  }
}
