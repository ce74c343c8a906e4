/**
 * The format validators. Each regular expression of the source is written out
 * twice: as a ghost predicate stating the shape the expression accepts (the split
 * of the string the regex engine finds), and as an executable matcher that the
 * validator runs; a lemma proves the two agree. Each validator accepts or fails
 * with the error of its field, carrying the stripped value.
 */
module Validaciones {
  import opened Wrappers
  import opened Cadenas
  import opened Excepciones

  // ---------------------------------------------------------------------------
  // Character classes of the five patterns
  // ---------------------------------------------------------------------------

  /** The accented letters `áéíóúÁÉÍÓÚñÑüÜ` the name and address patterns list explicitly. */
  predicate EsAcentuada(c: char) {
    || c == 'á' || c == 'é' || c == 'í' || c == 'ó' || c == 'ú'
    || c == 'Á' || c == 'É' || c == 'Í' || c == 'Ó' || c == 'Ú'
    || c == 'ñ' || c == 'Ñ' || c == 'ü' || c == 'Ü'
  }

  /** `[a-zA-Z0-9._%+-]`, the local part of an email. */
  predicate EsCharLocal(c: char) {
    EsLetraAscii(c) || EsDigito(c) || c == '.' || c == '_' || c == '%' || c == '+' || c == '-'
  }

  /** `[a-zA-Z0-9.-]`, the domain of an email. */
  predicate EsCharDominio(c: char) {
    EsLetraAscii(c) || EsDigito(c) || c == '.' || c == '-'
  }

  /** `[\d\s\-\(\)\+]`, a phone number. */
  predicate EsCharTelefono(c: char) {
    EsDigito(c) || EsEspacio(c) || c == '-' || c == '(' || c == ')' || c == '+'
  }

  /** `[a-zA-ZáéíóúÁÉÍÓÚñÑüÜ\s\-]`, a name. */
  predicate EsCharNombre(c: char) {
    EsLetraAscii(c) || EsAcentuada(c) || EsEspacio(c) || c == '-'
  }

  /** `[\w\sáéíóúÁÉÍÓÚñÑüÜ\.\,\#\-\°]`, an address; `\w` is taken as `[a-zA-Z0-9_]`. */
  predicate EsCharDireccion(c: char) {
    EsLetraAscii(c) || EsDigito(c) || c == '_' || EsEspacio(c) || EsAcentuada(c)
    || c == '.' || c == ',' || c == '#' || c == '-' || c == '°'
  }

  /** `[\dkK]`, the check character of a RUT. */
  predicate EsVerificadorRut(c: char) {
    EsDigito(c) || c == 'k' || c == 'K'
  }

  /** Whole strings over each class. */
  predicate SoloLocal(s: string) { forall k :: 0 <= k < |s| ==> EsCharLocal(s[k]) }
  predicate SoloDominio(s: string) { forall k :: 0 <= k < |s| ==> EsCharDominio(s[k]) }
  predicate SoloLetras(s: string) { forall k :: 0 <= k < |s| ==> EsLetraAscii(s[k]) }
  predicate SoloTelefono(s: string) { forall k :: 0 <= k < |s| ==> EsCharTelefono(s[k]) }
  predicate SoloNombre(s: string) { forall k :: 0 <= k < |s| ==> EsCharNombre(s[k]) }
  predicate SoloDireccion(s: string) { forall k :: 0 <= k < |s| ==> EsCharDireccion(s[k]) }

  // ---------------------------------------------------------------------------
  // PATRON_EMAIL = ^[a-zA-Z0-9._%+-]+@[a-zA-Z0-9.-]+\.[a-zA-Z]{2,}$
  // ---------------------------------------------------------------------------

  /**
   * The split the email pattern matches: a non-empty local part `s[..i]`, `@`, a
   * non-empty domain `s[i + 1..j]`, `.`, and at least two letters `s[j + 1..]`.
   */
  predicate DivisionEmail(s: string, i: int, j: int) {
    && 1 <= i && i + 2 <= j && j + 3 <= |s|
    && SoloLocal(s[..i]) && s[i] == '@'
    && SoloDominio(s[i + 1..j]) && s[j] == '.'
    && SoloLetras(s[j + 1..])
  }

  ghost predicate CumplePatronEmail(s: string) {
    exists i, j :: DivisionEmail(s, i, j)
  }

  /** Index of the first occurrence of `c`. */
  function PrimerIndice(s: string, c: char): (r: Option<nat>)
    ensures r.Some? ==> r.value < |s| && s[r.value] == c && forall k :: 0 <= k < r.value ==> s[k] != c
    ensures r.None? ==> forall k :: 0 <= k < |s| ==> s[k] != c
  {
    if s == [] then None
    else if s[0] == c then Some(0)
    else match PrimerIndice(s[1..], c)
      case None => None
      case Some(k) => Some(k + 1)
  }

  /** Index of the last occurrence of `c`. */
  function UltimoIndice(s: string, c: char): (r: Option<nat>)
    ensures r.Some? ==> r.value < |s| && s[r.value] == c && forall k :: r.value < k < |s| ==> s[k] != c
    ensures r.None? ==> forall k :: 0 <= k < |s| ==> s[k] != c
  {
    if s == [] then None
    else if s[|s| - 1] == c then Some(|s| - 1)
    else UltimoIndice(s[..|s| - 1], c)
  }

  /**
   * The matcher: neither the local part nor the domain may contain `@`, and the
   * top-level domain has no `.`, so the split is at the first `@` and the last `.`.
   */
  function CoincideEmail(s: string): bool {
    match (PrimerIndice(s, '@'), UltimoIndice(s, '.'))
    case (Some(i), Some(j)) => DivisionEmail(s, i, j)
    case _ => false
  }

  lemma {:induction false} CoincideEmailCorrecto(s: string)
    ensures CoincideEmail(s) <==> CumplePatronEmail(s)
  {
    if CumplePatronEmail(s) {
      var i, j :| DivisionEmail(s, i, j);
      forall k | 0 <= k < i
        ensures s[k] != '@'
      {
        assert EsCharLocal(s[..i][k]);
      }
      forall k | j < k < |s|
        ensures s[k] != '.'
      {
        assert EsLetraAscii(s[j + 1..][k - j - 1]);
      }
      assert PrimerIndice(s, '@') == Some(i);
      assert UltimoIndice(s, '.') == Some(j);
    }
  }

  /** `validar_email`: fails with the email error unless the stripped input has the email shape. */
  function ValidarEmail(email: string): (r: Result<bool, GicError>)
    ensures r == if CumplePatronEmail(Strip(email)) then Ok(true) else Err(EmailInvalido(Strip(email)))
  {
    CoincideEmailCorrecto(Strip(email));
    if email == "" then
      Err(EmailInvalido(email))
    else
      var e := Strip(email);
      if !CoincideEmail(e) then Err(EmailInvalido(e)) else Ok(true)
  }

  // ---------------------------------------------------------------------------
  // PATRON_TELEFONO = ^[\d\s\-\(\)\+]{8,20}$ and the count of digits
  // ---------------------------------------------------------------------------

  predicate CumplePatronTelefono(s: string) {
    8 <= |s| <= 20 && SoloTelefono(s)
  }

  /** `re.sub(r'\D', '', s)`: the digits of `s`, in order. */
  function SoloDigitos(s: string): (r: string)
    ensures TodosDigitos(r) && |r| <= |s|
    ensures TodosDigitos(s) ==> r == s
    ensures (forall k :: 0 <= k < |s| ==> !EsDigito(s[k])) ==> r == []
    ensures |s| == 1 ==> r == if EsDigito(s[0]) then s else []
  {
    if s == [] then []
    else SoloDigitos(s[..|s| - 1]) + (if EsDigito(s[|s| - 1]) then [s[|s| - 1]] else [])
  }

  /**
   * Removing the non-digits works piece by piece: with the one-character case of
   * `SoloDigitos`, this fixes the result as the digits of `s` in their order.
   */
  lemma {:induction false} SoloDigitosConcat(a: string, b: string)
    ensures SoloDigitos(a + b) == SoloDigitos(a) + SoloDigitos(b)
    decreases |b|
  {
    if b != [] {
      var b' := b[..|b| - 1];
      assert (a + b)[..|a + b| - 1] == a + b';
      assert (a + b)[|a + b| - 1] == b[|b| - 1];
      SoloDigitosConcat(a, b');
    } else {
      assert a + b == a;
    }
  }

  /** `validar_telefono`: 8 to 20 allowed characters, of which 8 to 15 are digits. */
  function ValidarTelefono(telefono: string): (r: Result<bool, GicError>)
    ensures r == if CumplePatronTelefono(Strip(telefono)) && 8 <= |SoloDigitos(Strip(telefono))| <= 15
                 then Ok(true) else Err(TelefonoInvalido(Strip(telefono)))
  {
    if telefono == "" then
      Err(TelefonoInvalido(telefono))
    else
      var t := Strip(telefono);
      if !CumplePatronTelefono(t) then
        Err(TelefonoInvalido(t))
      else
        var digitos := SoloDigitos(t);
        if |digitos| < 8 || |digitos| > 15 then Err(TelefonoInvalido(t)) else Ok(true)
  }

  // ---------------------------------------------------------------------------
  // PATRON_NOMBRE = ^[a-zA-ZáéíóúÁÉÍÓÚñÑüÜ\s\-]{2,100}$
  // ---------------------------------------------------------------------------

  predicate CumplePatronNombre(s: string) {
    2 <= |s| <= 100 && SoloNombre(s)
  }

  /** A name the pattern accepts has no digit, so the `isdigit` check after it never fires. */
  lemma PatronNombreExcluyeNumericos(s: string)
    ensures CumplePatronNombre(s) ==> !EsNumerico(s)
  {
    if CumplePatronNombre(s) {
      assert EsCharNombre(s[0]);
    }
  }

  /** `validar_nombre`: 2 to 100 letters (accented ones included), spaces or hyphens. */
  function ValidarNombre(nombre: string): (r: Result<bool, GicError>)
    ensures r == if CumplePatronNombre(Strip(nombre)) then Ok(true) else Err(NombreInvalido(Strip(nombre)))
  {
    PatronNombreExcluyeNumericos(Strip(nombre));
    if nombre == "" then
      Err(NombreInvalido(nombre))
    else
      var n := Strip(nombre);
      if |n| < 2 then
        Err(NombreInvalido(n))
      else if !CumplePatronNombre(n) then
        Err(NombreInvalido(n))
      else if EsNumerico(n) then
        Err(NombreInvalido(n))
      else
        Ok(true)
  }

  // ---------------------------------------------------------------------------
  // PATRON_DIRECCION = ^[\w\sáéíóúÁÉÍÓÚñÑüÜ\.\,\#\-\°]{5,200}$
  // ---------------------------------------------------------------------------

  predicate CumplePatronDireccion(s: string) {
    5 <= |s| <= 200 && SoloDireccion(s)
  }

  /** `validar_direccion`: 5 to 200 word characters, spaces, accented letters or `.,#-°`. */
  function ValidarDireccion(direccion: string): (r: Result<bool, GicError>)
    ensures r == if CumplePatronDireccion(Strip(direccion)) then Ok(true) else Err(DireccionInvalida(Strip(direccion)))
  {
    if direccion == "" then
      Err(DireccionInvalida(direccion))
    else
      var d := Strip(direccion);
      if |d| < 5 then
        Err(DireccionInvalida(d))
      else if !CumplePatronDireccion(d) then
        Err(DireccionInvalida(d))
      else
        Ok(true)
  }

  // ---------------------------------------------------------------------------
  // PATRON_RUT = ^(\d{1,2}\.?\d{3}\.?\d{3}-[\dkK])$
  // ---------------------------------------------------------------------------

  /**
   * One of the eight layouts of `\d{1,2}\.?\d{3}\.?\d{3}`: a leading group of `a`
   * digits, a dot when `p1 == 1`, three digits, a dot when `p2 == 1`, three digits.
   */
  predicate DisposicionRut(b: string, a: int, p1: int, p2: int) {
    && 1 <= a <= 2 && 0 <= p1 <= 1 && 0 <= p2 <= 1
    && |b| == a + p1 + 3 + p2 + 3
    && TodosDigitos(b[..a])
    && (p1 == 1 ==> b[a] == '.')
    && TodosDigitos(b[a + p1..a + p1 + 3])
    && (p2 == 1 ==> b[a + p1 + 3] == '.')
    && TodosDigitos(b[a + p1 + 3 + p2..])
  }

  /** The part of the RUT before the hyphen has one of the accepted layouts. */
  ghost predicate CumpleCuerpoRut(b: string) {
    exists a, p1, p2 :: DisposicionRut(b, a, p1, p2)
  }

  ghost predicate CumplePatronRut(s: string) {
    |s| >= 2 && s[|s| - 2] == '-' && EsVerificadorRut(s[|s| - 1]) && CumpleCuerpoRut(s[..|s| - 2])
  }

  function SinPuntoFinal(s: string): string {
    if |s| > 0 && s[|s| - 1] == '.' then s[..|s| - 1] else s
  }

  /** The matcher for the digits-and-dots body, reading groups from the right. */
  predicate CuerpoRut(b: string) {
    && |b| >= 3 && TodosDigitos(b[|b| - 3..])
    && var r1 := SinPuntoFinal(b[..|b| - 3]);
    && |r1| >= 3 && TodosDigitos(r1[|r1| - 3..])
    && var r2 := SinPuntoFinal(r1[..|r1| - 3]);
    && 1 <= |r2| <= 2 && TodosDigitos(r2)
  }

  function CoincideRut(s: string): bool {
    |s| >= 2 && s[|s| - 2] == '-' && EsVerificadorRut(s[|s| - 1]) && CuerpoRut(s[..|s| - 2])
  }

  /** Dropping an optional final dot from a prefix of `b`: `p` says whether there was one. */
  lemma SinPuntoFinalPrefijo(b: string, n: int) returns (p: int)
    requires 0 <= n <= |b|
    ensures 0 <= p <= 1 && p <= n
    ensures SinPuntoFinal(b[..n]) == b[..n - p]
    ensures p == 1 <==> n > 0 && b[n - 1] == '.'
  {
    var x := b[..n];
    if n > 0 && b[n - 1] == '.' {
      assert x[|x| - 1] == b[n - 1];
      assert x[..|x| - 1] == b[..n - 1];
      p := 1;
    } else {
      assert n > 0 ==> x[|x| - 1] == b[n - 1];
      p := 0;
    }
  }

  /** What the matcher reads off a body: the last group, the optional dot, the middle group, and the rest. */
  lemma GruposLeidosRut(b: string) returns (p2: int)
    requires CuerpoRut(b)
    ensures 0 <= p2 <= 1 && |b| >= 6 + p2
    ensures p2 == 1 ==> b[|b| - 4] == '.'
    ensures TodosDigitos(b[|b| - 3..]) && TodosDigitos(b[|b| - 6 - p2..|b| - 3 - p2])
    ensures var r2 := SinPuntoFinal(b[..|b| - 6 - p2]); 1 <= |r2| <= 2 && TodosDigitos(r2)
  {
    var n := |b|;
    p2 := SinPuntoFinalPrefijo(b, n - 3);
    var r1 := b[..n - 3 - p2];
    assert r1 == SinPuntoFinal(b[..n - 3]);
    assert r1[|r1| - 3..] == b[n - 6 - p2..n - 3 - p2];
    assert r1[..|r1| - 3] == b[..n - 6 - p2];
  }

  /** The matcher only accepts bodies in one of the layouts. */
  lemma CuerpoRutCompleto(b: string)
    requires CuerpoRut(b)
    ensures CumpleCuerpoRut(b)
  {
    var n := |b|;
    var p2 := GruposLeidosRut(b);
    var p1 := SinPuntoFinalPrefijo(b, n - 6 - p2);
    var a := n - 6 - p2 - p1;
    assert TodosDigitos(b[..a]);
    assert DisposicionRut(b, a, p1, p2);
  }

  /** In a layout, dropping the last group leaves the first two groups, without the dot between the last two. */
  lemma GrupoFinalRut(b: string, a: int, p1: int, p2: int)
    requires DisposicionRut(b, a, p1, p2)
    ensures TodosDigitos(b[|b| - 3..])
    ensures SinPuntoFinal(b[..|b| - 3]) == b[..a + p1 + 3]
  {
    var n := |b|;
    assert b[n - 3..] == b[a + p1 + 3 + p2..];
    var q2 := SinPuntoFinalPrefijo(b, n - 3);
    if p2 == 0 {
      assert b[n - 4] == b[a + p1..a + p1 + 3][2];
    }
    assert q2 == p2;
  }

  /** In a layout, dropping the dot after the first group leaves that group alone. */
  lemma GrupoInicialRut(b: string, a: int, p1: int, p2: int)
    requires DisposicionRut(b, a, p1, p2)
    ensures SinPuntoFinal(b[..a + p1]) == b[..a]
  {
    var q1 := SinPuntoFinalPrefijo(b, a + p1);
    if p1 == 0 {
      assert b[a - 1] == b[..a][a - 1];
    }
    assert q1 == p1;
  }

  /** Every layout passes the matcher. */
  lemma CuerpoRutSolido(b: string, a: int, p1: int, p2: int)
    requires DisposicionRut(b, a, p1, p2)
    ensures CuerpoRut(b)
  {
    GrupoFinalRut(b, a, p1, p2);
    GrupoInicialRut(b, a, p1, p2);
    var r1 := b[..a + p1 + 3];
    assert r1[|r1| - 3..] == b[a + p1..a + p1 + 3];
    assert r1[..|r1| - 3] == b[..a + p1];
  }

  lemma CuerpoRutCorrecto(b: string)
    ensures CuerpoRut(b) <==> CumpleCuerpoRut(b)
  {
    if CuerpoRut(b) {
      CuerpoRutCompleto(b);
    }
    if CumpleCuerpoRut(b) {
      var a, p1, p2 :| DisposicionRut(b, a, p1, p2);
      CuerpoRutSolido(b, a, p1, p2);
    }
  }

  lemma CoincideRutCorrecto(s: string)
    ensures CoincideRut(s) <==> CumplePatronRut(s)
  {
    if |s| >= 2 {
      CuerpoRutCorrecto(s[..|s| - 2]);
    }
  }

  /** `validar_rut`: after stripping and upper-casing, the input is a RUT in one of the accepted layouts. */
  function ValidarRut(rut: string): (r: Result<bool, GicError>)
    ensures r == if CumplePatronRut(Mayusculas(Strip(rut))) then Ok(true) else Err(RutInvalido(Mayusculas(Strip(rut))))
  {
    var t := Mayusculas(Strip(rut));
    CoincideRutCorrecto(t);
    if rut == "" then
      Err(RutInvalido(rut))
    else if !CoincideRut(t) then
      Err(RutInvalido(t))
    else
      Ok(true)
  }

  // ---------------------------------------------------------------------------
  // Points and the combined validators
  // ---------------------------------------------------------------------------

  /**
   * `validar_puntos`: adding needs a positive amount, redeeming a positive amount
   * no larger than the available balance; any other operation is accepted.
   */
  function ValidarPuntos(puntos: int, operacion: string := "agregar", disponibles: int := 0): (r: Result<bool, GicError>)
    ensures r.Ok? ==> r.value
    ensures operacion == "agregar" ==> (r.Ok? <==> puntos > 0)
    ensures operacion == "canjear" ==> (r.Ok? <==> 0 < puntos <= disponibles)
    ensures operacion != "agregar" && operacion != "canjear" ==> r == Ok(true)
    ensures r.Err? && operacion == "agregar" ==> r.error == PuntosInvalidos(puntos, 0, "agregar")
    ensures r.Err? && operacion == "canjear" ==> r.error == PuntosInvalidos(puntos, disponibles, "canjear")
  {
    if operacion == "agregar" then
      if puntos <= 0 then Err(PuntosInvalidos(puntos, 0, "agregar")) else Ok(true)
    else if operacion == "canjear" then
      if puntos <= 0 then Err(PuntosInvalidos(puntos, disponibles, "canjear"))
      else if puntos > disponibles then Err(PuntosInvalidos(puntos, disponibles, "canjear"))
      else Ok(true)
    else
      Ok(true)
  }

  /** The four contact fields after validation: stripped, and the email lower-cased. */
  datatype DatosLimpios = DatosLimpios(nombre: string, email: string, telefono: string, direccion: string)

  /**
   * `validar_datos_cliente`: runs the name, email, phone and address checks in that
   * order, fails with the first error, and otherwise returns the cleaned values.
   */
  function ValidarDatosCliente(nombre: string, email: string, telefono: string, direccion: string)
    : (r: Result<DatosLimpios, GicError>)
    ensures r.Ok? <==> && ValidarNombre(nombre).Ok? && ValidarEmail(email).Ok?
                       && ValidarTelefono(telefono).Ok? && ValidarDireccion(direccion).Ok?
    ensures ValidarNombre(nombre).Err? ==> r == Err(ValidarNombre(nombre).error)
    ensures ValidarNombre(nombre).Ok? && ValidarEmail(email).Err? ==> r == Err(ValidarEmail(email).error)
    ensures ValidarNombre(nombre).Ok? && ValidarEmail(email).Ok? && ValidarTelefono(telefono).Err?
            ==> r == Err(ValidarTelefono(telefono).error)
    ensures ValidarNombre(nombre).Ok? && ValidarEmail(email).Ok? && ValidarTelefono(telefono).Ok?
            && ValidarDireccion(direccion).Err?
            ==> r == Err(ValidarDireccion(direccion).error)
    ensures r.Ok? ==> r.value == DatosLimpios(Strip(nombre), Minusculas(Strip(email)), Strip(telefono), Strip(direccion))
  {
    if ValidarNombre(nombre).Err? then Err(ValidarNombre(nombre).error)
    else if ValidarEmail(email).Err? then Err(ValidarEmail(email).error)
    else if ValidarTelefono(telefono).Err? then Err(ValidarTelefono(telefono).error)
    else if ValidarDireccion(direccion).Err? then Err(ValidarDireccion(direccion).error)
    else Ok(DatosLimpios(Strip(nombre), Minusculas(Strip(email)), Strip(telefono), Strip(direccion)))
  }

  /** The company fields after validation: the name stripped, the RUT stripped and upper-cased. */
  datatype DatosCorporativos = DatosCorporativos(nombreEmpresa: string, rutEmpresa: string)

  /** `validar_datos_corporativo`: the company name must pass the name check, then the RUT the RUT check. */
  function ValidarDatosCorporativo(nombreEmpresa: string, rutEmpresa: string): (r: Result<DatosCorporativos, GicError>)
    ensures r.Ok? <==> ValidarNombre(nombreEmpresa).Ok? && ValidarRut(rutEmpresa).Ok?
    ensures ValidarNombre(nombreEmpresa).Err? ==> r == Err(ValidarNombre(nombreEmpresa).error)
    ensures ValidarNombre(nombreEmpresa).Ok? && ValidarRut(rutEmpresa).Err? ==> r == Err(ValidarRut(rutEmpresa).error)
    ensures r.Ok? ==> r.value == DatosCorporativos(Strip(nombreEmpresa), Mayusculas(Strip(rutEmpresa)))
  {
    if ValidarNombre(nombreEmpresa).Err? then Err(ValidarNombre(nombreEmpresa).error)
    else if ValidarRut(rutEmpresa).Err? then Err(ValidarRut(rutEmpresa).error)
    else Ok(DatosCorporativos(Strip(nombreEmpresa), Mayusculas(Strip(rutEmpresa))))
  }

  // ---------------------------------------------------------------------------
  // Cleaned data is a fixed point of validation
  // ---------------------------------------------------------------------------

  /** Lower-casing an email keeps it inside the email pattern, at the same split. */
  lemma PatronEmailMinusculas(s: string)
    requires CumplePatronEmail(s)
    ensures CumplePatronEmail(Minusculas(s))
  {
    var i, j :| DivisionEmail(s, i, j);
    var m := Minusculas(s);
    forall k | 0 <= k < i
      ensures EsCharLocal(m[k])
    {
      assert s[..i][k] == s[k];
    }
    forall k | i < k < j
      ensures EsCharDominio(m[k])
    {
      assert s[i + 1..j][k - i - 1] == s[k];
    }
    forall k | j < k < |s|
      ensures EsLetraAscii(m[k])
    {
      assert s[j + 1..][k - j - 1] == s[k];
    }
    assert SoloLocal(m[..i]);
    assert SoloDominio(m[i + 1..j]);
    assert SoloLetras(m[j + 1..]);
    assert DivisionEmail(m, i, j);
  }

  /** Lower-casing changes no whitespace, so a stripped string stays stripped. */
  lemma MinusculasSinEspacios(s: string)
    requires SinEspaciosExtremos(s)
    ensures SinEspaciosExtremos(Minusculas(s))
  {
  }

  /** Each validator sees only the stripped input: validating the stripped text gives the same outcome. */
  lemma NombreIgnoraEspacios(x: string)
    ensures ValidarNombre(Strip(x)) == ValidarNombre(x)
  {
    StripIdempotente(x);
  }

  lemma EmailIgnoraEspacios(x: string)
    ensures ValidarEmail(Strip(x)) == ValidarEmail(x)
  {
    StripIdempotente(x);
  }

  lemma TelefonoIgnoraEspacios(x: string)
    ensures ValidarTelefono(Strip(x)) == ValidarTelefono(x)
  {
    StripIdempotente(x);
  }

  lemma DireccionIgnoraEspacios(x: string)
    ensures ValidarDireccion(Strip(x)) == ValidarDireccion(x)
  {
    StripIdempotente(x);
  }

  lemma RutIgnoraEspacios(x: string)
    ensures ValidarRut(Strip(x)) == ValidarRut(x)
  {
    StripIdempotente(x);
  }

  /** A valid email stays valid, and stays its own normal form, once stripped and lower-cased. */
  lemma EmailNormalizadoValido(email: string)
    requires ValidarEmail(email).Ok?
    ensures ValidarEmail(Minusculas(Strip(email))).Ok?
    ensures Minusculas(Strip(Minusculas(Strip(email)))) == Minusculas(Strip(email))
  {
    var e := Strip(email);
    var m := Minusculas(e);
    MinusculasSinEspacios(e);
    StripIdentidad(m);
    MinusculasNormaliza(e);
    PatronEmailMinusculas(e);
  }

  /**
   * The values `validar_datos_cliente` returns pass it again and come back
   * unchanged: the cleaning is idempotent and never produces an invalid field.
   */
  lemma DatosLimpiosSonValidos(nombre: string, email: string, telefono: string, direccion: string)
    requires ValidarDatosCliente(nombre, email, telefono, direccion).Ok?
    ensures var d := ValidarDatosCliente(nombre, email, telefono, direccion).value;
            ValidarDatosCliente(d.nombre, d.email, d.telefono, d.direccion) == Ok(d)
  {
    var d := ValidarDatosCliente(nombre, email, telefono, direccion).value;
    NombreIgnoraEspacios(nombre);
    TelefonoIgnoraEspacios(telefono);
    DireccionIgnoraEspacios(direccion);
    EmailNormalizadoValido(email);
    StripIdempotente(nombre);
    StripIdempotente(telefono);
    StripIdempotente(direccion);
    assert ValidarNombre(d.nombre).Ok? && ValidarEmail(d.email).Ok?;
    assert ValidarTelefono(d.telefono).Ok? && ValidarDireccion(d.direccion).Ok?;
  }

  /** Upper-casing changes no whitespace, so a stripped string stays stripped. */
  lemma MayusculasSinEspacios(s: string)
    requires SinEspaciosExtremos(s)
    ensures SinEspaciosExtremos(Mayusculas(s))
  {
  }

  /** The RUT check reads `Mayusculas(Strip(rut))`, which is its own normal form. */
  lemma RutNormalizado(rut: string)
    ensures Mayusculas(Strip(Mayusculas(Strip(rut)))) == Mayusculas(Strip(rut))
    ensures ValidarRut(Mayusculas(Strip(rut))) == ValidarRut(rut)
  {
    var t := Mayusculas(Strip(rut));
    MayusculasSinEspacios(Strip(rut));
    StripIdentidad(t);
    MayusculasNormaliza(Strip(rut));
    assert Mayusculas(Strip(t)) == t;
  }

  /** The company values `validar_datos_corporativo` returns pass it again unchanged. */
  lemma DatosCorporativosSonValidos(nombreEmpresa: string, rutEmpresa: string)
    requires ValidarDatosCorporativo(nombreEmpresa, rutEmpresa).Ok?
    ensures var d := ValidarDatosCorporativo(nombreEmpresa, rutEmpresa).value;
            ValidarDatosCorporativo(d.nombreEmpresa, d.rutEmpresa) == Ok(d)
  {
    NombreIgnoraEspacios(nombreEmpresa);
    StripIdempotente(nombreEmpresa);
    RutNormalizado(rutEmpresa);
  }

  // ---------------------------------------------------------------------------
  // Examples from the test suite
  // ---------------------------------------------------------------------------

  /** An address with an apostrophe is rejected, as the test suite expects. */
  lemma EjemploDireccionConApostrofo()
    ensures ValidarDireccion("Av. O'Higgins 1234") == Err(DireccionInvalida("Av. O'Higgins 1234"))
  {
    var d := "Av. O'Higgins 1234";
    assert d[5] == '\'' && !EsCharDireccion(d[5]);
    assert !CumplePatronDireccion(d);
    assert SinEspaciosExtremos(d);
    StripIdentidad(d);
  }

  /** A name made only of digits is rejected, with the name in the error. */
  lemma EjemploNombreNumerico()
    ensures ValidarNombre("12345") == Err(NombreInvalido("12345"))
  {
    var n := "12345";
    assert SinEspaciosExtremos(n);
    StripIdentidad(n);
    assert !EsCharNombre(n[0]);
    assert !CumplePatronNombre(n);
  }

  /** A one-letter name is rejected. */
  lemma EjemploNombreCorto()
    ensures ValidarNombre("J") == Err(NombreInvalido("J"))
  {
    var n := "J";
    assert SinEspaciosExtremos(n);
    StripIdentidad(n);
    assert !CumplePatronNombre(n);
  }

  /** An empty email is rejected with an empty value in the error. */
  lemma EjemploEmailVacio()
    ensures ValidarEmail("") == Err(EmailInvalido(""))
  {
    assert Strip("") == "";
    assert !CumplePatronEmail("");
  }

  /** A well-formed email is accepted; the split is at its `@` and its last dot. */
  lemma EjemploEmailValido()
    ensures ValidarEmail("a@b.cl").Ok?
  {
    var e := "a@b.cl";
    assert SinEspaciosExtremos(e);
    StripIdentidad(e);
    assert e[..1] == "a" && e[2..3] == "b" && e[4..] == "cl";
    assert DivisionEmail(e, 1, 3);
  }

  /** Without a dot there is no top-level domain to match. */
  lemma EmailSinPunto(s: string)
    requires forall k :: 0 <= k < |s| ==> s[k] != '.'
    ensures !CumplePatronEmail(s)
  {
  }

  /** The local part cannot start with a character outside its class, `@` included. */
  lemma EmailInicioInvalido(s: string)
    requires |s| > 0 && !EsCharLocal(s[0])
    ensures !CumplePatronEmail(s)
  {
  }

  /** A dot right after the only `@`, with no dot later, leaves the domain empty. */
  lemma EmailDominioVacio(s: string, a: nat)
    requires a + 1 < |s| && s[a] == '@' && s[a + 1] == '.'
    requires forall k :: 0 <= k < |s| && k != a ==> s[k] != '@'
    requires forall k :: a + 1 < k < |s| ==> s[k] != '.'
    ensures !CumplePatronEmail(s)
  {
  }

  /** Two `@` in a row: one of them falls in the local part or the domain. */
  lemma EmailDobleArroba(s: string, a: nat)
    requires a + 1 < |s| && s[a] == '@' && s[a + 1] == '@'
    ensures !CumplePatronEmail(s)
  {
  }

  /** The malformed emails of the test suite are all rejected, each with its own value in the error. */
  lemma EjemplosEmailRechazados()
    ensures ValidarEmail("correo@dominio") == Err(EmailInvalido("correo@dominio"))
    ensures ValidarEmail("@dominio.com") == Err(EmailInvalido("@dominio.com"))
    ensures ValidarEmail("correo@.com") == Err(EmailInvalido("correo@.com"))
    ensures ValidarEmail("correo@@mail.com") == Err(EmailInvalido("correo@@mail.com"))
  {
    var e1, e2, e3, e4 := "correo@dominio", "@dominio.com", "correo@.com", "correo@@mail.com";
    assert SinEspaciosExtremos(e1) && SinEspaciosExtremos(e2) && SinEspaciosExtremos(e3) && SinEspaciosExtremos(e4);
    StripIdentidad(e1);
    StripIdentidad(e2);
    StripIdentidad(e3);
    StripIdentidad(e4);
    EmailSinPunto(e1);
    EmailInicioInvalido(e2);
    EmailDominioVacio(e3, 6);
    EmailDobleArroba(e4, 6);
  }

  /** Upper-casing leaves a string without lower-case letters as it is. */
  lemma MayusculasSinMinusculas(s: string)
    requires forall k :: 0 <= k < |s| ==> !EsMinuscula(s[k])
    ensures Mayusculas(s) == s
  {
  }

  /** A stripped string whose upper-cased form has the RUT shape passes `validar_rut`. */
  lemma RutAceptado(s: string)
    requires SinEspaciosExtremos(s) && CumplePatronRut(Mayusculas(s))
    ensures ValidarRut(s).Ok?
  {
    StripIdentidad(s);
  }

  lemma DisposicionConPuntos(a: string, m: string, f: string)
    requires 1 <= |a| <= 2 && |m| == 3 && |f| == 3
    requires TodosDigitos(a) && TodosDigitos(m) && TodosDigitos(f)
    ensures DisposicionRut(a + ['.'] + m + ['.'] + f, |a|, 1, 1)
  {
    var b := a + ['.'] + m + ['.'] + f;
    assert b[..|a|] == a;
    assert b[|a| + 1..|a| + 4] == m;
    assert b[|a| + 5..] == f;
  }

  /**
   * The dotted format `XX.XXX.XXX-X` (or `X.XXX.XXX-X`) is accepted, whatever the
   * digits and whether the check character is a digit or `K`.
   */
  lemma FormatoRutConPuntos(a: string, m: string, f: string, v: char)
    requires 1 <= |a| <= 2 && |m| == 3 && |f| == 3
    requires TodosDigitos(a) && TodosDigitos(m) && TodosDigitos(f)
    requires EsDigito(v) || v == 'K'
    ensures ValidarRut(a + ['.'] + m + ['.'] + f + ['-', v]).Ok?
  {
    var b := a + ['.'] + m + ['.'] + f;
    var s := b + ['-', v];
    DisposicionConPuntos(a, m, f);
    forall k | 0 <= k < |b|
      ensures EsDigito(b[k]) || b[k] == '.'
    {
      if k < |a| {
        assert b[k] == a[k];
      } else if |a| < k < |a| + 4 {
        assert b[k] == m[k - |a| - 1];
      } else if |a| + 4 < k {
        assert b[k] == f[k - |a| - 5];
      }
    }
    assert s[..|s| - 2] == b;
    MayusculasSinMinusculas(s);
    RutAceptado(s);
  }

  /** The plain format `XXXXXXXX-X` is accepted, and a lower-case `k` is upper-cased first. */
  lemma FormatoRutSinPuntos(d: string, v: char)
    requires |d| == 8 && TodosDigitos(d)
    requires EsVerificadorRut(v)
    ensures ValidarRut(d + ['-', v]).Ok?
  {
    var s := d + ['-', v];
    var t := Mayusculas(s);
    assert t[..8] == d;
    assert t[..8][..2] == d[..2] && t[..8][2..5] == d[2..5] && t[..8][5..] == d[5..];
    assert DisposicionRut(t[..8], 2, 0, 0);
    RutAceptado(s);
  }

  /** The points rules on the values the tests use. */
  lemma EjemplosPuntos()
    ensures ValidarPuntos(100, "agregar").Ok?
    ensures ValidarPuntos(-10, "agregar") == Err(PuntosInvalidos(-10, 0, "agregar"))
    ensures ValidarPuntos(100, "canjear", 50) == Err(PuntosInvalidos(100, 50, "canjear"))
    ensures ValidarPuntos(50, "canjear", 100).Ok?
  {
  }
}
