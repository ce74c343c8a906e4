# sistema-gic in Dafny

This project models the logic of **sistema-gic**, a customer-record manager.
It stores a list of clients of four kinds: the plain `Cliente`, `ClienteRegular`,
`ClientePremium` with a loyalty-point balance, and `ClienteCorporativo` with a
company name and tax id (RUT). It validates their contact data, keeps them unique
by case-insensitive email, and moves them to and from CSV rows. The model states
what each part promises and proves it.

| file | module | models |
|---|---|---|
| `wrappers.dfy` | `Wrappers` | `Option` and `Result`, which stand in for `None` and for raised exceptions |
| `cadenas.dfy` | `Cadenas` | the Python string primitives used throughout: `strip`, `lower`, `upper`, `isdigit`, `str(int)`, `int(str)`, substring `in` |
| `excepciones.dfy` | `Excepciones` | the `GICError` hierarchy, its codes, its messages and `str(e)` |
| `validaciones.dfy` | `Validaciones` | the five `PATRON_*` regular expressions, written as predicates and matchers, and the eight `validar_*` functions |
| `clientes.dfy` | `Clientes` | the four client kinds: tags, discount rates, benefit texts, data dictionaries, invoice data, point operations, and the object with its setters (`FichaCliente`) |
| `gestor_clientes.dfy` | `Gestion` | `GestorClientes`: an insertion-ordered list with unique emails, plus add, find, update, remove, filter, clear and the per-type count |
| `archivos.dfy` | `Archivos` | the CSV row of a client, `crear_cliente_desde_fila`, the header check and partial-success loop of the import, and the report's count |

Design:

- **Validators.** A raised exception becomes `Err(e)` and a successful return becomes
  `Ok(true)`.
  - Each regular expression is a ghost predicate stating the shape it accepts, such as
    "there is a split `local @ domain . tld`".
  - An executable matcher is proved equivalent to that predicate.
  - Each validator's contract is closed-form: it accepts exactly when the stripped
    input has the shape, and otherwise fails with the error carrying the stripped
    input.
- **Clients.** A client's data is the value `Cliente` with a `Variante` per subclass.
  - The object with its property setters and point operations is the class
    `FichaCliente`, whose `Valor()` is the value it currently holds.
  - The constructors store their arguments as given, without validating or
    trimming them.
- **The manager.** `GestorClientes` owns a `seq<Cliente>`. Its invariant `Valid()` says
  that no two stored clients have emails that are equal once lower-cased. Every
  operation that changes the list is proved against `PrimeraCoincidencia`, the
  first-match function that `buscar_cliente` implements, and keeps the invariant.
- **CSV.** A row is a `map<string, string>`, as `csv.DictReader` yields it.
  - The row of each client and the client read back from a row are proved to
    round-trip, for every non-base client whose text fields have no surrounding
    whitespace.
  - The import loop is proved to split its rows into clients and numbered errors,
    in file order.

## Model

| member | source | states |
|---|---|---|
| Cadenas.Strip | modulos/validaciones.py:64 | `strip()` never lengthens the string and leaves no whitespace at either end |
| Cadenas.StripEsRecorte | modulos/validaciones.py:64 | the stripped string is a contiguous slice of the input, and only whitespace lies before and after it |
| Cadenas.StripIdentidad | modulos/validaciones.py:64 | `strip()` leaves a string unchanged exactly when it has no whitespace at its ends |
| Cadenas.StripIdempotente | modulos/validaciones.py:64 | stripping twice equals stripping once |
| Cadenas.Minusculas | modulos/validaciones.py:253 | `lower()`: each ASCII upper-case letter is replaced by its lower-case letter and every other character is kept; its properties are those of `Cadenas.MinusculasNormaliza` |
| Cadenas.Mayusculas | modulos/validaciones.py:180 | `upper()`: each ASCII lower-case letter is replaced by its upper-case letter and every other character is kept; its properties are those of `Cadenas.MayusculasNormaliza` |
| Cadenas.MinusculasNormaliza | modulos/validaciones.py:253 | `lower()` keeps the length, leaves no upper-case letter and is idempotent |
| Cadenas.MayusculasNormaliza | modulos/validaciones.py:180 | `upper()` keeps the length, leaves no lower-case letter and is idempotent |
| Cadenas.NatATexto | modulos/cliente_premium.py:85 | `str(n)` of a natural number is a non-empty string of digits with no leading zero |
| Cadenas.EnteroATexto | modulos/cliente_premium.py:85 | `str(n)` has no surrounding whitespace and starts with `-` exactly when n is negative |
| Cadenas.TextoAEntero | modulos/archivos.py:207 | `int(s)` succeeds exactly on an optional sign followed by one or more digits |
| Cadenas.EnteroIdaVuelta | modulos/archivos.py:207 | `int(str(n)) == n` for every integer n, negative ones included, so an exported point balance reads back unchanged |
| Excepciones.Codigo | modulos/excepciones.py:32-194 | the `codigo` of each error: the given one for the four generic classes, and VAL001-VAL006, CLI001-CLI003, ARC001-ARC002 for the specific ones; see `Excepciones.CodigoSegunFamilia` and `Excepciones.CodigoIdentificaClase` |
| Excepciones.Mensaje | modulos/excepciones.py:59-194 | the `mensaje` of each error, with the offending value interpolated; see `Excepciones.MensajeContieneValor` |
| Excepciones.Texto | modulos/excepciones.py:37-39 | `str(e)`; its layout and injectivity are stated by `Excepciones.TextoDescompone` and `Excepciones.TextoDeterminaCodigoYMensaje` |
| Excepciones.TextoDescompone | modulos/excepciones.py:37-39 | `str(e)` is `[`, the code, `] `, then the message |
| Excepciones.TextoDeterminaCodigoYMensaje | modulos/excepciones.py:37-39 | two errors whose codes contain no `]` print the same only if code and message both agree |
| Excepciones.TextoContieneMensaje | modulos/excepciones.py:37-39 | `str(e)` contains everything the message contains |
| Excepciones.ValoresPorDefecto | modulos/excepciones.py:32-52 | `GICError()` is "Error en el sistema GIC" with code GIC000; `ValidacionError` defaults to VAL000, `ClienteError` to CLI000 and `ArchivoError` to ARC000 |
| Excepciones.CodigoSegunFamilia | modulos/excepciones.py:55-194 | every error kind with a fixed code has a six-character code whose prefix VAL, CLI or ARC is exactly its family |
| Excepciones.CodigoIdentificaClase | modulos/excepciones.py:55-194 | two error kinds with fixed codes share a code only if they are the same kind (VAL001-VAL006, CLI001-CLI003, ARC001-ARC002) |
| Excepciones.MensajeContieneValor | modulos/excepciones.py:59-194 | each error raised for a value (email, phone, name, address, RUT, points, client email, path) has that value verbatim in its message |
| Excepciones.MensajePuntosContieneValor | modulos/excepciones.py:112-121 | the points message contains `str(puntos)` for every operation |
| Excepciones.MensajePuntosNombraOperacion | modulos/excepciones.py:115-120 | the points message names "canjear" and the available balance for a redemption, and names "agregar" for an addition |
| Validaciones.CumplePatronEmail | modulos/validaciones.py:23 | `PATRON_EMAIL` as a shape: a non-empty local part of `[a-zA-Z0-9._%+-]`, one `@`, a non-empty domain of `[a-zA-Z0-9.-]`, a `.` and a TLD of two or more letters |
| Validaciones.CoincideEmail | modulos/validaciones.py:23 | the executable email matcher; `Validaciones.CoincideEmailCorrecto` proves it equal to `CumplePatronEmail` |
| Validaciones.CoincideEmailCorrecto | modulos/validaciones.py:23 | the matcher that splits at the first `@` and the last `.` accepts exactly the strings `PATRON_EMAIL` describes |
| Validaciones.ValidarEmail | modulos/validaciones.py:61-69 | succeeds exactly when the stripped email has the email shape, and otherwise fails with `EmailInvalidoError` of the stripped email (empty input included) |
| Validaciones.EjemploEmailVacio | modulos/validaciones.py:61-62 | the empty email fails with an empty value |
| Validaciones.EjemploEmailValido | modulos/validaciones.py:23 | "a@b.cl" is accepted |
| Validaciones.EjemplosEmailRechazados | modulos/validaciones.py:23 | "correo@dominio", "@dominio.com", "correo@.com" and "correo@@mail.com" are each rejected with their own value |
| Validaciones.SoloDigitos | modulos/validaciones.py:96 | `re.sub(r'\D', '', s)` yields only digits, is no longer than s, is s itself when s is all digits, is empty when s has none, and on one character keeps it exactly when it is a digit |
| Validaciones.SoloDigitosConcat | modulos/validaciones.py:96 | removing non-digits distributes over concatenation; with the one-character case this fixes the result: the digits of s, in order |
| Validaciones.CumplePatronTelefono | modulos/validaciones.py:27 | `PATRON_TELEFONO`: 8 to 20 characters, each a digit, whitespace or one of `-()+` |
| Validaciones.ValidarTelefono | modulos/validaciones.py:86-100 | succeeds exactly when the stripped phone has 8-20 characters from digits, whitespace and `-()+`, with 8 to 15 of them digits; otherwise `TelefonoInvalidoError` of the stripped phone |
| Validaciones.CumplePatronNombre | modulos/validaciones.py:31 | `PATRON_NOMBRE`: 2 to 100 characters, each an ASCII letter, one of the listed accented letters, whitespace or `-` |
| Validaciones.PatronNombreExcluyeNumericos | modulos/validaciones.py:126-131 | a name the pattern accepts is never all digits, so the `isdigit` check never rejects anything |
| Validaciones.ValidarNombre | modulos/validaciones.py:118-133 | succeeds exactly when the stripped name has 2-100 characters from ASCII letters, the listed accented letters, whitespace and `-`; otherwise `NombreInvalidoError` of the stripped name |
| Validaciones.EjemploNombreNumerico | modulos/validaciones.py:126-131 | "12345" is rejected with its value |
| Validaciones.EjemploNombreCorto | modulos/validaciones.py:123-124 | a one-letter name is rejected |
| Validaciones.CumplePatronDireccion | modulos/validaciones.py:35 | `PATRON_DIRECCION`: 5 to 200 characters, each a word character, whitespace, one of the listed accented letters or one of `.,#-°` |
| Validaciones.ValidarDireccion | modulos/validaciones.py:150-161 | succeeds exactly when the stripped address has 5-200 characters from word characters, whitespace, the accented letters and `.,#-°`; otherwise `DireccionInvalidaError` of the stripped address |
| Validaciones.EjemploDireccionConApostrofo | modulos/validaciones.py:35 | "Av. O'Higgins 1234" is rejected because of its apostrophe |
| Validaciones.CumplePatronRut | modulos/validaciones.py:39 | `PATRON_RUT` as a shape: 1-2 digits, an optional dot, 3 digits, an optional dot, 3 digits, `-`, then a digit or k/K |
| Validaciones.CoincideRut | modulos/validaciones.py:39 | the executable RUT matcher, which reads the body from the right; `Validaciones.CoincideRutCorrecto` proves it equal to `CumplePatronRut` |
| Validaciones.CuerpoRutCorrecto | modulos/validaciones.py:39 | the right-to-left matcher accepts exactly the RUT bodies of 1-2 digits, an optional dot, 3 digits, an optional dot and 3 digits |
| Validaciones.CoincideRutCorrecto | modulos/validaciones.py:39 | the RUT matcher accepts exactly the strings `PATRON_RUT` describes: body, `-`, then a digit or k/K |
| Validaciones.ValidarRut | modulos/validaciones.py:177-185 | succeeds exactly when the stripped, upper-cased RUT has the RUT shape; otherwise `RutInvalidoError` of that normalised text |
| Validaciones.RutNormalizado | modulos/validaciones.py:180 | normalising a RUT is idempotent, and validating the normalised RUT gives the same verdict as validating the original |
| Validaciones.RutAceptado | modulos/validaciones.py:182 | a RUT with no surrounding whitespace whose upper-cased form has the shape is accepted |
| Validaciones.FormatoRutConPuntos | modulos/validaciones.py:39 | every RUT written `XX.XXX.XXX-V`, with 1-2 leading digits and V a digit or `K`, is accepted |
| Validaciones.FormatoRutSinPuntos | modulos/validaciones.py:39 | every RUT written as eight digits, `-` and a check character is accepted |
| Validaciones.ValidarPuntos | modulos/validaciones.py:210-220 | "agregar" succeeds iff n > 0; "canjear" succeeds iff 0 < n <= disponibles; any other operation returns `Ok(true)`; every success is `Ok(true)`; failures carry the amount, the balance (0 for "agregar") and the operation |
| Validaciones.EjemplosPuntos | modulos/validaciones.py:210-220 | adding 100 succeeds, adding -10 fails, redeeming 100 of 50 fails, and redeeming 50 of 100 succeeds |
| Validaciones.ValidarDatosCliente | modulos/validaciones.py:245-256 | succeeds iff all four validators do; otherwise fails with the error of the first failing field in the order name, email, phone, address, each of the four cases stated separately, the address error included; on success it returns the four stripped values with the email lower-cased |
| Validaciones.DatosLimpiosSonValidos | modulos/validaciones.py:245-256 | the cleaned data validates again and cleans to itself |
| Validaciones.EmailNormalizadoValido | modulos/validaciones.py:253 | a valid email stays valid once stripped and lower-cased, and that normal form is stable |
| Validaciones.PatronEmailMinusculas | modulos/validaciones.py:253 | lower-casing keeps a string of the email shape in that shape |
| Validaciones.NombreIgnoraEspacios | modulos/validaciones.py:121 | validating a stripped name gives the same result as validating the original |
| Validaciones.EmailIgnoraEspacios | modulos/validaciones.py:64 | validating a stripped email gives the same result as validating the original |
| Validaciones.TelefonoIgnoraEspacios | modulos/validaciones.py:89 | validating a stripped phone gives the same result as validating the original |
| Validaciones.DireccionIgnoraEspacios | modulos/validaciones.py:153 | validating a stripped address gives the same result as validating the original |
| Validaciones.RutIgnoraEspacios | modulos/validaciones.py:180 | validating a stripped RUT gives the same result as validating the original |
| Validaciones.ValidarDatosCorporativo | modulos/validaciones.py:272-278 | succeeds iff the company name and the RUT validate; a bad name is reported first, and with a valid name a bad RUT fails with the RUT validator's own error; on success it returns the stripped name and the stripped, upper-cased RUT |
| Validaciones.DatosCorporativosSonValidos | modulos/validaciones.py:272-278 | the cleaned company data validates again and cleans to itself |
| Clientes.ObtenerTipo | modulos/cliente.py:88-95 | `obtener_tipo()`: the class tag of each kind; `Clientes.TipoIdentificaVariante` proves it tells the kinds apart |
| Clientes.TipoIdentificaVariante | modulos/cliente.py:88-95 | two clients have the same `obtener_tipo()` exactly when they are of the same kind |
| Clientes.TiposDistintos | modulos/cliente_premium.py:26 | the four tags "Cliente", "Regular", "Premium" and "Corporativo" are pairwise distinct |
| Clientes.TasaDescuento | modulos/cliente_premium.py:27 | every discount rate lies in [0, 1) |
| Clientes.CalcularDescuento | modulos/cliente_premium.py:66-75 | `calcular_descuento(monto)`: the amount times the kind's rate; see `Clientes.DescuentoAcotado`, `Clientes.DescuentoPorTasa` and `Clientes.DescuentoPorNivel` |
| Clientes.DescuentoAcotado | modulos/cliente_regular.py:51-60 | a discount lies between 0 and a quarter of the amount; the regular discount is always 0; with the default amount every discount is 0 |
| Clientes.DescuentoPorTasa | modulos/cliente_corporativo.py:81-90 | for every amount, including zero and negative ones, the regular discount is 0, the premium discount is 15% of the amount and the corporate discount is 25% |
| Clientes.DescuentoPorNivel | modulos/cliente_corporativo.py:81-90 | for a positive amount, regular < premium < corporate |
| Clientes.BeneficioExclusivo | modulos/cliente_premium.py:78-85 | `beneficio_exclusivo()` of each kind that defines it; see `Clientes.BeneficioRegular`, `Clientes.BeneficioPremium` and `Clientes.BeneficioCorporativo` |
| Clientes.BeneficioRegular | modulos/cliente_regular.py:63-70 | the regular benefit mentions "promociones" |
| Clientes.BeneficioPremium | modulos/cliente_premium.py:78-85 | the premium benefit mentions "15%" and the current balance |
| Clientes.BeneficioCorporativo | modulos/cliente_corporativo.py:93-94 | the corporate benefit mentions "25%" and the company name |
| Clientes.ObtenerDatos | modulos/cliente.py:98-111 | `obtener_datos()` of each kind; its keys and values are stated by `Clientes.ObtenerDatosForma` |
| Clientes.ObtenerDatosForma | modulos/cliente.py:98-111 | `obtener_datos()` has exactly the five base keys plus the keys the variant adds (descuento; puntos_acumulados; nombre_empresa, rut_empresa); the values are the current fields, the tag comes from `obtener_tipo()`, and each variant reports its rate |
| Clientes.GenerarFacturaInfo | modulos/cliente_corporativo.py:120-133 | `generar_factura_info()` of a corporate client; `Clientes.FacturaCoincideConDatos` ties it to `obtener_datos()` |
| Clientes.FacturaCoincideConDatos | modulos/cliente_corporativo.py:120-133 | the invoice data has exactly nombre_empresa, rut_empresa, direccion, contacto and email, and each agrees with `obtener_datos()` (contacto is the name) |
| Clientes.SaldoTrasAgregar | modulos/cliente_premium.py:107-116 | the balance after `agregar_puntos(n)`; see `Clientes.AgregarSegunValidacion` |
| Clientes.Canjear | modulos/cliente_premium.py:119-134 | the outcome and balance of `canjear_puntos(n)`; see `Clientes.CanjearExacto` and `Clientes.CanjearDeshaceAgregar` |
| Clientes.AgregarSegunValidacion | modulos/cliente_premium.py:107-116 | adding never lowers the balance; it changes it exactly when `validar_puntos(n, "agregar")` would accept n, and then by n |
| Clientes.CanjearExacto | modulos/cliente_premium.py:119-134 | a redemption succeeds iff n <= balance; it then subtracts n, and otherwise leaves the balance alone |
| Clientes.CanjearConservaNoNegativo | modulos/cliente_premium.py:128-129 | a non-negative redemption from a non-negative balance leaves it non-negative |
| Clientes.CanjearNegativoAumenta | modulos/cliente_premium.py:128-129 | a negative amount passes the guard and increases the balance |
| Clientes.CanjeValidado | modulos/cliente_premium.py:119-134 | an amount `validar_puntos(n, "canjear", balance)` accepts always redeems, leaving a smaller non-negative balance |
| Clientes.CanjearDeshaceAgregar | modulos/cliente_premium.py:107-134 | redeeming the positive amount just added succeeds and restores the balance |
| Clientes.FichaCliente.constructor | modulos/cliente.py:20-24 | the base client holds exactly the four arguments, untrimmed and unvalidated |
| Clientes.FichaCliente.Regular | modulos/cliente_regular.py:26-27 | a regular client holds the four arguments and nothing else |
| Clientes.FichaCliente.Premium | modulos/cliente_premium.py:30-33 | a premium client starts with the balance given (0 by default), unchecked |
| Clientes.FichaCliente.Corporativo | modulos/cliente_corporativo.py:30-34 | a corporate client holds the company and RUT as given ("" by default), unvalidated |
| Clientes.FichaCliente.SetNombre | modulos/cliente.py:39-41 | the setter replaces the name and nothing else |
| Clientes.FichaCliente.SetEmail | modulos/cliente.py:49-51 | the setter replaces the email and nothing else |
| Clientes.FichaCliente.SetTelefono | modulos/cliente.py:59-61 | the setter replaces the phone and nothing else |
| Clientes.FichaCliente.SetDireccion | modulos/cliente.py:69-71 | the setter replaces the address and nothing else |
| Clientes.FichaCliente.SetNombreEmpresa | modulos/cliente_corporativo.py:53-55 | the setter replaces the company name and nothing else |
| Clientes.FichaCliente.SetRutEmpresa | modulos/cliente_corporativo.py:63-65 | the setter replaces the RUT and nothing else |
| Clientes.FichaCliente.AgregarPuntos | modulos/cliente_premium.py:107-116 | the balance becomes the guarded sum (unchanged unless n > 0); nothing else changes |
| Clientes.FichaCliente.CanjearPuntos | modulos/cliente_premium.py:119-134 | it returns whether n <= balance, and the balance becomes the redemption's result; nothing else changes |
| Gestion.PrimeraCoincidencia | modulos/gestor_clientes.py:90-93 | the first position, in insertion order, whose lower-cased email is the key, or none when no client has it |
| Gestion.CoincidenciaUnica | modulos/gestor_clientes.py:90-93 | with unique emails, any client with the key is the first match |
| Gestion.AgregadoSeEncuentra | modulos/gestor_clientes.py:47-55 | appending a client whose email is absent keeps emails unique and makes it findable at the end |
| Gestion.Actualizado | modulos/gestor_clientes.py:135-141 | the client after `actualizar_cliente` overwrites its non-empty name, phone and address; see `Gestion.ActualizadoConserva` |
| Gestion.ActualizadoConserva | modulos/gestor_clientes.py:135-141 | an update never changes the email, the kind or the key; all-empty arguments change nothing; updating twice equals updating once |
| Gestion.SinPosicion | modulos/gestor_clientes.py:166 | removing one position shortens the list by one and keeps the others in order |
| Gestion.QuitarConservaUnicos | modulos/gestor_clientes.py:159-169 | removing a client keeps emails unique, and its email is no longer found |
| Gestion.FiltrarPorTipo | modulos/gestor_clientes.py:188-192 | the filtered list holds exactly the clients with that tag and is no longer than the list |
| Gestion.FiltrarConcat | modulos/gestor_clientes.py:192 | filtering distributes over concatenation, so it keeps the list's order |
| Gestion.ConteoTipos | modulos/gestor_clientes.py:221-225 | the statistics dictionary of `mostrar_estadisticas`, built in list order; `Gestion.ConteoTiposCorrecto` states what it counts |
| Gestion.ConteoTiposCorrecto | modulos/gestor_clientes.py:221-225 | the statistics dictionary gives, for every tag, the number of clients with it, and has a key exactly for the tags present |
| Gestion.CuentasSumanTotal | modulos/gestor_clientes.py:221-225 | the four per-tag counts sum to the number of clients, and the dictionary has no key beyond the four tags |
| Gestion.EstadisticasSumanTotal | modulos/gestor_clientes.py:221-225 | the entries of the statistics dictionary sum to `total_clientes` |
| Gestion.GestorClientes.constructor | modulos/gestor_clientes.py:17-18 | a new manager is empty and satisfies the invariant |
| Gestion.GestorClientes.Clientes | modulos/gestor_clientes.py:24-26 | the property yields the stored list |
| Gestion.GestorClientes.TotalClientes | modulos/gestor_clientes.py:28-30 | `total_clientes` is the length of that list |
| Gestion.GestorClientes.BuscarPosicion | modulos/gestor_clientes.py:90-93 | the search loop finds the first match for `email.lower()`, or none |
| Gestion.GestorClientes.BuscarCliente | modulos/gestor_clientes.py:81-93 | `buscar_cliente` returns the first client with the email, case-insensitively, or `None` when there is none |
| Gestion.GestorClientes.AgregarCliente | modulos/gestor_clientes.py:36-55 | it returns false and changes nothing when the email is present case-insensitively; otherwise it appends the client and returns true; the invariant holds |
| Gestion.GestorClientes.ActualizarCliente | modulos/gestor_clientes.py:117-144 | with no match it returns false and changes nothing; otherwise it overwrites only the non-empty name, phone and address of the first match and returns true; the invariant holds |
| Gestion.GestorClientes.EliminarCliente | modulos/gestor_clientes.py:150-169 | with no match it returns false and changes nothing; otherwise it removes exactly the matched client, keeping the others in order; the email is then absent and the invariant holds |
| Gestion.GestorClientes.LimpiarLista | modulos/gestor_clientes.py:179-182 | the list becomes empty and the invariant holds |
| Gestion.GestorClientes.ObtenerClientesPorTipo | modulos/gestor_clientes.py:188-192 | the result is the filtered list of the stored clients, in stored order; it holds exactly the stored clients with that tag, and is empty when none has it |
| Gestion.GestorClientes.ContarPorTipo | modulos/gestor_clientes.py:221-225 | the counting loop of `mostrar_estadisticas` builds the statistics dictionary |
| Archivos.FilaDe | modulos/archivos.py:90-106 | the CSV row written for a client; `Archivos.FilaDeForma` states its cells and `Archivos.IdaVueltaFila` its inverse |
| Archivos.FilaDeForma | modulos/archivos.py:83-106 | an exported row has exactly the eight columns with the tag and contact fields; puntos is `str()` of the balance for premium clients only; empresa and rut are filled for corporate clients only; every other cell is "" |
| Archivos.ExportarFilas | modulos/archivos.py:89-108 | the export loop yields one row per client, in list order |
| Archivos.CeldasDeFila | modulos/archivos.py:90-106 | reading an exported row with `get` and the import's defaults gives back each field of the client |
| Archivos.CrearClienteDesdeFila | modulos/archivos.py:196-216 | `crear_cliente_desde_fila`; its cases are stated by `Archivos.CrearClienteSegunTipo` and `Archivos.PuntosDeFila`, and its round trip with `FilaDe` by `Archivos.IdaVueltaFila` |
| Archivos.CrearClienteSegunTipo | modulos/archivos.py:196-216 | a row is read back exactly when its stripped tag is Regular, Premium (with an empty or integer points cell) or Corporativo; the client then has that tag and the stripped contact cells; any other tag fails with the format error "Tipo de cliente desconocido: " + tag |
| Archivos.PuntosDeFila | modulos/archivos.py:206-208 | a premium row's balance is 0 without a points column, 0 for an empty cell, and otherwise `int()` of the stripped cell |
| Archivos.EmpresaPorDefecto | modulos/archivos.py:211-213 | a corporate row without empresa and rut columns gets "" for both |
| Archivos.CrearDesdeCeldas | modulos/archivos.py:196-213 | a row whose stripped cells are a non-base client's fields yields exactly that client |
| Archivos.IdaVueltaFila | modulos/archivos.py:196-213 | reading back the exported row of a regular, premium or corporate client without surrounding whitespace gives the same client |
| Archivos.FilaBaseRechazada | modulos/archivos.py:215-216 | the exported row of a base client is rejected with the unknown-type error |
| Archivos.ImportacionParticiona | modulos/archivos.py:159-165 | every row becomes either a client or an error; each error carries the line number (from 2) of a row that failed, with that row's failure |
| Archivos.TodosExitos | modulos/archivos.py:159-165 | when every row succeeds, the clients are those of the rows in order and there are no errors |
| Archivos.IdaVueltaFilas | modulos/archivos.py:159-165 | importing the exported rows of non-base clients without surrounding whitespace gives back the same list, with no errors |
| Archivos.ImportarFilas | modulos/archivos.py:152-165 | a header lacking any of tipo, nombre, email, telefono, direccion fails with the format error; otherwise the result is the successful rows' clients in order and the failed rows' numbered errors |
| Archivos.ConteoInicial | modulos/archivos.py:246 | the report dictionary starts with the three tallied tags at zero |
| Archivos.Incrementar | modulos/archivos.py:249-250 | the tag's entry goes up by one if it is a key; the keys and every other entry are unchanged |
| Archivos.ConteoPaso | modulos/archivos.py:247-250 | one step of the report loop keeps each tallied tag's count equal to the number of clients seen with it |
| Archivos.ContarReporte | modulos/archivos.py:246-250 | the report dictionary has exactly the keys Regular, Premium and Corporativo, each mapped to the number of clients with that tag |
| Archivos.ReporteSumaTotal | modulos/archivos.py:246-250 | the three report counts sum to at most the number of clients, and to exactly that number iff no client is a base client |

## Left out

- Console output is not modelled. This covers every `print`, `mostrar_info`, `listar_clientes`, `listar_por_tipo`, `mostrar_cliente`, the bar chart of `mostrar_estadisticas`, and `__str__`/`__repr__` of the clients. They only format text.
- `main.py`, the interactive menu, and the earlier `cliente.py` at the repository root are not part of this model. `modulos/__init__.py` only re-exports.
- File and operating-system work in `modulos/archivos.py` is left out. This covers `open`, the `csv` reader and writer, `os.path.exists`, `crear_directorios`, `datetime.now()`, the report's text layout, `registrar_log` and `leer_log`. Rows and headers are parameters instead.
- `aplicar_a_todos` is left out. It calls methods by name through `getattr`/`hasattr`, which has no static meaning.
- `PermissionError` and the wrapping of other exceptions into `ArchivoError` in export and import are left out. They arise only from file access.
- `PermisoArchivoError` and `FormatoArchivoError` are imported by `modulos/archivos.py:15-16` but are not defined in `modulos/excepciones.py`. As written, importing that module fails. The model treats the format error as the datatype `Archivos.FallaArchivo`, keeps it outside `GicError`, and gives it no code.
- The `str(e)` texts of row errors ("Fila n: ...") are not modelled. The model keeps the row number and the failure itself. The text of a `FormatoArchivoError` cannot be known, since the class does not exist.
- Archivos.ImportarFilas: the missing-columns detail is the fixed prefix "Faltan columnas requeridas", without the printed set that follows it in Python. The set's printed order is not fixed.
- Archivos.ImportarFilas: it returns the list of errors alongside the clients. Python returns only the clients and passes the error count to the log.
- Archivos.ImportarFilas: `csv.DictReader` yields `None` for the missing cells of a short row, and `.strip()` on `None` makes that row an error. Rows here map columns to strings, so that case is not modelled.
- Archivos.ImportarFilas: the row check `if cliente:` is always true for a client object, so it is not modelled.
- Cadenas.Strip: only ASCII whitespace (space, `\t`-`\r`, `\x1c`-`\x1f`) counts as whitespace. Python also strips Unicode spaces such as `\x85` and `\xa0`.
- Cadenas.Minusculas: `lower()` and `upper()` map ASCII letters only. Python also maps accented and other Unicode letters.
- Cadenas.TextoAEntero: `int()` is modelled on ASCII digits with an optional sign. Python also accepts `_` between digits and Unicode digits.
- Validaciones.ValidarDireccion: `\w` is taken as `[a-zA-Z0-9_]` plus the listed accented letters. In Python it matches every Unicode letter and digit.
- Validaciones.ValidarTelefono: `\d` and `\s` are ASCII, for the same reason.
- Validaciones.ValidarRut: `\d` is ASCII, for the same reason.
- Validaciones.ValidarNombre: `\s` is ASCII, for the same reason.
- Validaciones.ValidarEmail: `$` can also match before a final newline, which is not modelled. It cannot matter, because the input has already been stripped.
- Validaciones.ValidarPuntos: the amount is an integer. The branch that converts a non-integer argument with `int()` (`modulos/validaciones.py:204-208`) is not modelled.
- Clientes.CalcularDescuento: discounts are exact `real` arithmetic with rates 0, 15/100 and 25/100. Binary floating-point rounding is not modelled.
- Gestion.GestorClientes: the manager owns client values. In Python it holds references that callers can still change through the setters, so the uniqueness invariant is stated only over the manager's own state.
- The test suite expects the client constructors to validate and normalise their arguments. `modulos/cliente.py:20-24` does neither, and the model follows the code.
