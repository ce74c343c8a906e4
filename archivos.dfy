/**
 * The row level of the CSV import and export and of the summary report. A CSV
 * row is a map from column name to cell text, as `csv.DictReader` yields it;
 * opening, reading and writing the files are not modelled.
 */
module Archivos {
  import opened Wrappers
  import opened Cadenas
  import opened Clientes
  import opened Gestion

  /** One CSV row: column name to cell text. */
  type Fila = map<string, string>

  /**
   * The errors the row mapping raises. `FormatoArchivoError` is the file-format
   * error the module raises; `EnteroInvalido` is the `ValueError` of `int()` on a
   * points cell that is not an integer.
   */
  datatype FallaArchivo =
    | FormatoArchivoError(archivo: string, detalle: string)
    | EnteroInvalido(texto: string)

  /** The column order of an exported file. */
  const CAMPOS: seq<string> := ["tipo", "nombre", "email", "telefono", "direccion", "puntos", "empresa", "rut"]

  /** The columns an imported file must have. */
  const COLUMNAS_REQUERIDAS: set<string> := {"tipo", "nombre", "email", "telefono", "direccion"}

  /** `fila.get(clave, por_defecto)`. */
  function Obtener(fila: Fila, clave: string, porDefecto: string): string {
    if clave in fila then fila[clave] else porDefecto
  }

  // ---------------------------------------------------------------------------
  // Export
  // ---------------------------------------------------------------------------

  /**
   * The row `exportar_clientes_csv` writes for a client: the tag and contact
   * fields, `str()` of the points for a premium client, the company and RUT for a
   * corporate one, and empty cells otherwise.
   */
  function FilaDe(c: Cliente): Fila {
    map["tipo" := ObtenerTipo(c), "nombre" := c.nombre, "email" := c.email,
        "telefono" := c.telefono, "direccion" := c.direccion,
        "puntos" := if c.variante.Premium? then EnteroATexto(c.variante.puntos) else "",
        "empresa" := if c.variante.Corporativo? then c.variante.nombreEmpresa else "",
        "rut" := if c.variante.Corporativo? then c.variante.rutEmpresa else ""]
  }

  /**
   * An exported row has exactly the eight columns; the points cell is filled for
   * premium clients only, the company cells for corporate clients only.
   */
  lemma FilaDeForma(c: Cliente)
    ensures FilaDe(c).Keys == set k | k in CAMPOS
    ensures FilaDe(c)["tipo"] == ObtenerTipo(c) && FilaDe(c)["nombre"] == c.nombre
    ensures FilaDe(c)["email"] == c.email && FilaDe(c)["telefono"] == c.telefono
    ensures FilaDe(c)["direccion"] == c.direccion
    ensures FilaDe(c)["puntos"] == if c.variante.Premium? then EnteroATexto(c.variante.puntos) else ""
    ensures FilaDe(c)["empresa"] == if c.variante.Corporativo? then c.variante.nombreEmpresa else ""
    ensures FilaDe(c)["rut"] == if c.variante.Corporativo? then c.variante.rutEmpresa else ""
  {
  }

  /** The rows of a list of clients, one per client, in list order. */
  function Filas(clientes: seq<Cliente>): (r: seq<Fila>)
    ensures |r| == |clientes|
  {
    seq(|clientes|, i requires 0 <= i < |clientes| => FilaDe(clientes[i]))
  }

  /** The loop of `exportar_clientes_csv` that builds a row per client. */
  method ExportarFilas(clientes: seq<Cliente>) returns (filas: seq<Fila>)
    ensures filas == Filas(clientes)
  {
    filas := [];
    var i := 0;
    while i < |clientes|
      invariant 0 <= i <= |clientes|
      invariant filas == Filas(clientes[..i])
    {
      assert Filas(clientes[..i + 1]) == Filas(clientes[..i]) + [FilaDe(clientes[i])];
      filas := filas + [FilaDe(clientes[i])];
      i := i + 1;
    }
    assert clientes[..i] == clientes;
  }

  // ---------------------------------------------------------------------------
  // Import
  // ---------------------------------------------------------------------------

  /** `crear_cliente_desde_fila`: builds the variant the stripped `tipo` cell names, from the stripped cells. */
  function CrearClienteDesdeFila(fila: Fila): Result<Cliente, FallaArchivo>
  {
    var tipo := Strip(Obtener(fila, "tipo", ""));
    var nombre := Strip(Obtener(fila, "nombre", ""));
    var email := Strip(Obtener(fila, "email", ""));
    var telefono := Strip(Obtener(fila, "telefono", ""));
    var direccion := Strip(Obtener(fila, "direccion", ""));
    if tipo == TIPO_REGULAR then
      Ok(Cliente(nombre, email, telefono, direccion, Regular))
    else if tipo == TIPO_PREMIUM then
      var texto := Strip(Obtener(fila, "puntos", "0"));
      if texto == [] then
        Ok(Cliente(nombre, email, telefono, direccion, Premium(0)))
      else
        match TextoAEntero(texto)
        case Some(n) => Ok(Cliente(nombre, email, telefono, direccion, Premium(n)))
        case None => Err(EnteroInvalido(texto))
    else if tipo == TIPO_CORPORATIVO then
      Ok(Cliente(nombre, email, telefono, direccion,
                 Corporativo(Strip(Obtener(fila, "empresa", "")), Strip(Obtener(fila, "rut", "")))))
    else
      Err(FormatoArchivoError("", "Tipo de cliente desconocido: " + tipo))
  }

  /**
   * A row is read back exactly when its stripped tag is one of the three variant
   * tags (and, for a premium row, its points cell is empty or an integer); the
   * client then has that tag and the stripped contact cells, and any other tag
   * fails with the file-format error.
   */
  lemma CrearClienteSegunTipo(fila: Fila)
    ensures var tipo := Strip(Obtener(fila, "tipo", ""));
            var puntos := Strip(Obtener(fila, "puntos", "0"));
            CrearClienteDesdeFila(fila).Ok?
            <==> (tipo == TIPO_REGULAR || tipo == TIPO_CORPORATIVO
                  || (tipo == TIPO_PREMIUM && (puntos == [] || TextoAEntero(puntos).Some?)))
    ensures var r := CrearClienteDesdeFila(fila);
            r.Ok? ==> (&& ObtenerTipo(r.value) == Strip(Obtener(fila, "tipo", ""))
                       && r.value.nombre == Strip(Obtener(fila, "nombre", ""))
                       && r.value.email == Strip(Obtener(fila, "email", ""))
                       && r.value.telefono == Strip(Obtener(fila, "telefono", ""))
                       && r.value.direccion == Strip(Obtener(fila, "direccion", "")))
    ensures var tipo := Strip(Obtener(fila, "tipo", ""));
            tipo != TIPO_REGULAR && tipo != TIPO_PREMIUM && tipo != TIPO_CORPORATIVO
            ==> CrearClienteDesdeFila(fila) == Err(FormatoArchivoError("", "Tipo de cliente desconocido: " + tipo))
  {
  }

  /** A premium row's points: the integer in the cell, 0 for an empty cell, and 0 when the column is absent. */
  lemma PuntosDeFila(fila: Fila)
    requires Strip(Obtener(fila, "tipo", "")) == TIPO_PREMIUM
    ensures "puntos" !in fila
            ==> CrearClienteDesdeFila(fila).Ok? && CrearClienteDesdeFila(fila).value.variante == Premium(0)
    ensures "puntos" in fila && Strip(fila["puntos"]) == []
            ==> CrearClienteDesdeFila(fila).Ok? && CrearClienteDesdeFila(fila).value.variante == Premium(0)
    ensures "puntos" in fila && TextoAEntero(Strip(fila["puntos"])).Some?
            ==> CrearClienteDesdeFila(fila).Ok?
                && CrearClienteDesdeFila(fila).value.variante == Premium(TextoAEntero(Strip(fila["puntos"])).value)
  {
    if "puntos" !in fila {
      assert "0"[0] == '0';
      assert TextoAEntero("0") == Some(0) by {
        assert EsNumerico("0");
      }
    }
  }

  /** A corporate row without company or RUT columns gets empty ones. */
  lemma EmpresaPorDefecto(fila: Fila)
    requires Strip(Obtener(fila, "tipo", "")) == TIPO_CORPORATIVO
    requires "empresa" !in fila && "rut" !in fila
    ensures CrearClienteDesdeFila(fila).Ok? && CrearClienteDesdeFila(fila).value.variante == Corporativo("", "")
  {
    StripIdentidad("");
  }

  /** A client whose text fields carry no whitespace at either end. */
  predicate SinEspacios(c: Cliente) {
    && SinEspaciosExtremos(c.nombre) && SinEspaciosExtremos(c.email)
    && SinEspaciosExtremos(c.telefono) && SinEspaciosExtremos(c.direccion)
    && (c.variante.Corporativo? ==>
          SinEspaciosExtremos(c.variante.nombreEmpresa) && SinEspaciosExtremos(c.variante.rutEmpresa))
  }

  /** A row whose stripped cells are those of a regular, premium or corporate client gives back that client. */
  lemma CrearDesdeCeldas(fila: Fila, c: Cliente)
    requires !c.variante.Base? && Strip(Obtener(fila, "tipo", "")) == ObtenerTipo(c)
    requires Strip(Obtener(fila, "nombre", "")) == c.nombre && Strip(Obtener(fila, "email", "")) == c.email
    requires Strip(Obtener(fila, "telefono", "")) == c.telefono && Strip(Obtener(fila, "direccion", "")) == c.direccion
    requires c.variante.Premium? ==> TextoAEntero(Strip(Obtener(fila, "puntos", "0"))) == Some(c.variante.puntos)
    requires c.variante.Corporativo? ==> Strip(Obtener(fila, "empresa", "")) == c.variante.nombreEmpresa
                                         && Strip(Obtener(fila, "rut", "")) == c.variante.rutEmpresa
    ensures CrearClienteDesdeFila(fila) == Ok(c)
  {
    if c.variante.Premium? {
      assert Strip(Obtener(fila, "puntos", "0")) != [];
    }
  }

  /** The cells of an exported row, as `fila.get` reads them. */
  lemma CeldasDeFila(c: Cliente)
    ensures Obtener(FilaDe(c), "tipo", "") == ObtenerTipo(c)
    ensures Obtener(FilaDe(c), "nombre", "") == c.nombre && Obtener(FilaDe(c), "email", "") == c.email
    ensures Obtener(FilaDe(c), "telefono", "") == c.telefono && Obtener(FilaDe(c), "direccion", "") == c.direccion
    ensures c.variante.Premium? ==> Obtener(FilaDe(c), "puntos", "0") == EnteroATexto(c.variante.puntos)
    ensures c.variante.Corporativo? ==> Obtener(FilaDe(c), "empresa", "") == c.variante.nombreEmpresa
                                        && Obtener(FilaDe(c), "rut", "") == c.variante.rutEmpresa
  {
  }

  /** Reading back the exported row of a regular, premium or corporate client gives the same client. */
  lemma IdaVueltaFila(c: Cliente)
    requires !c.variante.Base? && SinEspacios(c)
    ensures CrearClienteDesdeFila(FilaDe(c)) == Ok(c)
  {
    CeldasDeFila(c);
    StripIdentidad(c.nombre);
    StripIdentidad(c.email);
    StripIdentidad(c.telefono);
    StripIdentidad(c.direccion);
    StripIdentidad(ObtenerTipo(c));
    match c.variante {
      case Regular =>
      case Premium(p) =>
        StripIdentidad(EnteroATexto(p));
        EnteroIdaVuelta(p);
      case Corporativo(e, r) =>
        StripIdentidad(e);
        StripIdentidad(r);
    }
    CrearDesdeCeldas(FilaDe(c), c);
  }

  /** The exported row of a base client is not read back: its tag is not one the import knows. */
  lemma FilaBaseRechazada(c: Cliente)
    requires c.variante.Base?
    ensures CrearClienteDesdeFila(FilaDe(c)) == Err(FormatoArchivoError("", "Tipo de cliente desconocido: " + TIPO_BASE))
  {
    StripIdentidad(TIPO_BASE);
  }

  /** A row that could not be turned into a client, numbered as in the file (the header is line 1). */
  datatype ErrorFila = ErrorFila(numero: nat, causa: FallaArchivo)

  /** What `importar_clientes_csv` gathers: the clients built, and the rows that failed. */
  datatype Importacion = Importacion(clientes: seq<Cliente>, errores: seq<ErrorFila>)

  /** The outcome of `crear_cliente_desde_fila` on each row, in file order. */
  function Resultados(filas: seq<Fila>): (r: seq<Result<Cliente, FallaArchivo>>)
    ensures |r| == |filas|
  {
    seq(|filas|, i requires 0 <= i < |filas| => CrearClienteDesdeFila(filas[i]))
  }

  /** The clients of the rows that succeeded, in file order. */
  function Exitos(rs: seq<Result<Cliente, FallaArchivo>>): seq<Cliente> {
    if |rs| == 0 then []
    else
      var previos := Exitos(rs[..|rs| - 1]);
      match rs[|rs| - 1]
      case Ok(c) => previos + [c]
      case Err(_) => previos
  }

  /** The rows that failed, each with its line number: the first data row is line 2. */
  function Fallos(rs: seq<Result<Cliente, FallaArchivo>>): seq<ErrorFila> {
    if |rs| == 0 then []
    else
      var previos := Fallos(rs[..|rs| - 1]);
      match rs[|rs| - 1]
      case Ok(_) => previos
      case Err(e) => previos + [ErrorFila(|rs| + 1, e)]
  }

  /**
   * Every row ends up either as a client or as an error, and each error names the
   * line of a row that failed, with that row's failure.
   */
  lemma {:induction false} ImportacionParticiona(rs: seq<Result<Cliente, FallaArchivo>>)
    ensures |Exitos(rs)| + |Fallos(rs)| == |rs|
    ensures forall k :: 0 <= k < |Fallos(rs)| ==>
              2 <= Fallos(rs)[k].numero <= |rs| + 1 && rs[Fallos(rs)[k].numero - 2] == Err(Fallos(rs)[k].causa)
  {
    if |rs| > 0 {
      var p := rs[..|rs| - 1];
      ImportacionParticiona(p);
      forall k | 0 <= k < |Fallos(p)|
        ensures rs[Fallos(p)[k].numero - 2] == p[Fallos(p)[k].numero - 2]
      {
      }
    }
  }

  /** When every row succeeds, the clients are exactly the rows' clients and there is no error. */
  lemma {:induction false} TodosExitos(rs: seq<Result<Cliente, FallaArchivo>>, clientes: seq<Cliente>)
    requires |rs| == |clientes| && forall k :: 0 <= k < |rs| ==> rs[k] == Ok(clientes[k])
    ensures Exitos(rs) == clientes && Fallos(rs) == []
  {
    if |rs| > 0 {
      var n := |rs| - 1;
      TodosExitos(rs[..n], clientes[..n]);
      assert clientes[..n] + [clientes[n]] == clientes;
    }
  }

  /** Reading back the rows exported from regular, premium and corporate clients gives the same clients and no error. */
  lemma IdaVueltaFilas(clientes: seq<Cliente>)
    requires forall k :: 0 <= k < |clientes| ==> !clientes[k].variante.Base? && SinEspacios(clientes[k])
    ensures Exitos(Resultados(Filas(clientes))) == clientes
    ensures Fallos(Resultados(Filas(clientes))) == []
  {
    var rs := Resultados(Filas(clientes));
    forall k | 0 <= k < |rs|
      ensures rs[k] == Ok(clientes[k])
    {
      IdaVueltaFila(clientes[k]);
    }
    TodosExitos(rs, clientes);
  }

  /** The message of the missing-columns error. */
  const FALTAN_COLUMNAS: string := "Faltan columnas requeridas"

  /**
   * The header check and the row loop of `importar_clientes_csv`: fails with the
   * format error unless every required column is present, and otherwise keeps
   * going past rows that fail.
   */
  method ImportarFilas(archivo: string, columnas: seq<string>, filas: seq<Fila>) returns (r: Result<Importacion, FallaArchivo>)
    ensures !(COLUMNAS_REQUERIDAS <= set c | c in columnas) ==> r == Err(FormatoArchivoError(archivo, FALTAN_COLUMNAS))
    ensures COLUMNAS_REQUERIDAS <= (set c | c in columnas)
            ==> r == Ok(Importacion(Exitos(Resultados(filas)), Fallos(Resultados(filas))))
  {
    if !(COLUMNAS_REQUERIDAS <= set c | c in columnas) {
      return Err(FormatoArchivoError(archivo, FALTAN_COLUMNAS));
    }
    ghost var rs := Resultados(filas);
    var importados: seq<Cliente> := [];
    var errores: seq<ErrorFila> := [];
    var i := 0;
    while i < |filas|
      invariant 0 <= i <= |filas|
      invariant importados == Exitos(rs[..i])
      invariant errores == Fallos(rs[..i])
    {
      assert rs[..i + 1][..i] == rs[..i];
      match CrearClienteDesdeFila(filas[i]) {
        case Ok(c) =>
          importados := importados + [c];
        case Err(e) =>
          errores := errores + [ErrorFila(i + 2, e)];
      }
      i := i + 1;
    }
    assert rs[..i] == rs;
    return Ok(Importacion(importados, errores));
  }

  // ---------------------------------------------------------------------------
  // Report
  // ---------------------------------------------------------------------------

  /** The keys of the `conteo` dictionary of `generar_reporte`: only the three variant tags are tallied. */
  const TIPOS_REPORTE: set<string> := {TIPO_REGULAR, TIPO_PREMIUM, TIPO_CORPORATIVO}

  /** Appending one client adds one to its tag's count and nothing to the others. */
  lemma CuentaAgregar(s: seq<Cliente>, c: Cliente, tipo: string)
    ensures Cuenta(s + [c], tipo) == Cuenta(s, tipo) + (if ObtenerTipo(c) == tipo then 1 else 0)
  {
    FiltrarConcat(s, [c], tipo);
    assert [c][1..] == [];
  }

  /** The dictionary the counting loop starts from: every tallied tag at zero, for no client yet. */
  lemma ConteoInicial(clientes: seq<Cliente>)
    ensures var m := map[TIPO_REGULAR := 0, TIPO_PREMIUM := 0, TIPO_CORPORATIVO := 0];
            m.Keys == TIPOS_REPORTE && forall t :: t in m ==> m[t] == Cuenta(clientes[..0], t)
  {
    assert clientes[..0] == [];
  }

  /** Adds one to the count of `tipo` when it is a tallied tag, and leaves the dictionary alone otherwise. */
  function Incrementar(m: map<string, nat>, tipo: string): (r: map<string, nat>)
    ensures r.Keys == m.Keys
    ensures forall t :: t in r ==> r[t] == m[t] + (if t == tipo then 1 else 0)
  {
    if tipo in m then m[tipo := m[tipo] + 1] else m
  }

  /** One step of the counting loop keeps every tallied tag's count equal to the number of clients seen with it. */
  lemma ConteoPaso(m: map<string, nat>, clientes: seq<Cliente>, i: nat)
    requires i < |clientes|
    requires m.Keys == TIPOS_REPORTE && forall t :: t in m ==> m[t] == Cuenta(clientes[..i], t)
    ensures var m' := Incrementar(m, ObtenerTipo(clientes[i]));
            m'.Keys == TIPOS_REPORTE && forall t :: t in m' ==> m'[t] == Cuenta(clientes[..i + 1], t)
  {
    assert clientes[..i + 1] == clientes[..i] + [clientes[i]];
    forall t | t in m
      ensures Cuenta(clientes[..i + 1], t) == Cuenta(clientes[..i], t) + (if ObtenerTipo(clientes[i]) == t then 1 else 0)
    {
      CuentaAgregar(clientes[..i], clientes[i], t);
    }
  }

  /** The counting loop of `generar_reporte`: each tallied tag maps to the number of clients with it. */
  method ContarReporte(clientes: seq<Cliente>) returns (conteo: map<string, nat>)
    ensures conteo.Keys == TIPOS_REPORTE
    ensures forall tipo :: tipo in conteo ==> conteo[tipo] == Cuenta(clientes, tipo)
  {
    conteo := map[TIPO_REGULAR := 0, TIPO_PREMIUM := 0, TIPO_CORPORATIVO := 0];
    var i := 0;
    ConteoInicial(clientes);
    while i < |clientes|
      invariant 0 <= i <= |clientes|
      invariant conteo.Keys == TIPOS_REPORTE
      invariant forall tipo :: tipo in conteo ==> conteo[tipo] == Cuenta(clientes[..i], tipo)
    {
      ConteoPaso(conteo, clientes, i);
      conteo := Incrementar(conteo, ObtenerTipo(clientes[i]));
      i := i + 1;
    }
    assert clientes[..i] == clientes;
  }

  /** The three report counts add up to at most the number of clients, and to exactly that when none is a base client. */
  lemma ReporteSumaTotal(clientes: seq<Cliente>)
    ensures Cuenta(clientes, TIPO_REGULAR) + Cuenta(clientes, TIPO_PREMIUM) + Cuenta(clientes, TIPO_CORPORATIVO) <= |clientes|
    ensures Cuenta(clientes, TIPO_REGULAR) + Cuenta(clientes, TIPO_PREMIUM) + Cuenta(clientes, TIPO_CORPORATIVO) == |clientes|
            <==> forall k :: 0 <= k < |clientes| ==> !clientes[k].variante.Base?
  {
    CuentasSumanTotal(clientes);
    var base := FiltrarPorTipo(clientes, TIPO_BASE);
    if exists k :: 0 <= k < |clientes| && clientes[k].variante.Base? {
      var k :| 0 <= k < |clientes| && clientes[k].variante.Base?;
      assert clientes[k] in base;
    } else if |base| > 0 {
      assert base[0] in clientes;
      TipoIdentificaVariante(base[0], Cliente("", "", "", "", Base));
    }
  }
}
