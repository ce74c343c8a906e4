/**
 * The client record family: the base client and its three variants. A client is
 * a value (`Cliente`) that the pure operations read; `FichaCliente` is the
 * object whose setters and point operations update its fields in place, and
 * `Valor()` is the client value it currently holds.
 */
module Clientes {
  import opened Cadenas
  import opened Excepciones
  import opened Validaciones

  // ---------------------------------------------------------------------------
  // Data
  // ---------------------------------------------------------------------------

  /** What a variant adds to the four contact fields. */
  datatype Variante =
    | Base
    | Regular
    | Premium(puntos: int)
    | Corporativo(nombreEmpresa: string, rutEmpresa: string)

  datatype Cliente = Cliente(nombre: string, email: string, telefono: string, direccion: string, variante: Variante)

  const TIPO_BASE: string := "Cliente"
  const TIPO_REGULAR: string := "Regular"
  const TIPO_PREMIUM: string := "Premium"
  const TIPO_CORPORATIVO: string := "Corporativo"

  /** `obtener_tipo()`, dispatched on the variant. */
  function ObtenerTipo(c: Cliente): string {
    match c.variante
    case Base => TIPO_BASE
    case Regular => TIPO_REGULAR
    case Premium(_) => TIPO_PREMIUM
    case Corporativo(_, _) => TIPO_CORPORATIVO
  }

  /** The tag names the variant: two clients have the same tag exactly when they are the same kind of client. */
  lemma TipoIdentificaVariante(c1: Cliente, c2: Cliente)
    ensures ObtenerTipo(c1) == ObtenerTipo(c2) <==> c1.variante.Base? == c2.variante.Base?
                                                     && c1.variante.Regular? == c2.variante.Regular?
                                                     && c1.variante.Premium? == c2.variante.Premium?
                                                     && c1.variante.Corporativo? == c2.variante.Corporativo?
  {
    assert TIPO_BASE[0] == 'C' && TIPO_CORPORATIVO[0] == 'C' && |TIPO_BASE| != |TIPO_CORPORATIVO|;
    assert TIPO_REGULAR[0] == 'R' && TIPO_PREMIUM[0] == 'P';
  }

  /** The four tags are pairwise different. */
  lemma TiposDistintos()
    ensures TIPO_BASE != TIPO_REGULAR && TIPO_BASE != TIPO_PREMIUM && TIPO_BASE != TIPO_CORPORATIVO
    ensures TIPO_REGULAR != TIPO_PREMIUM && TIPO_REGULAR != TIPO_CORPORATIVO && TIPO_PREMIUM != TIPO_CORPORATIVO
  {
    assert TIPO_REGULAR[0] != TIPO_PREMIUM[0];
  }

  // ---------------------------------------------------------------------------
  // Discounts
  // ---------------------------------------------------------------------------

  /** The class constant `DESCUENTO` of each variant; the base class has none. */
  function TasaDescuento(v: Variante): (r: real)
    requires !v.Base?
    ensures 0.0 <= r < 1.0
  {
    match v
    case Regular => 0.0
    case Premium(_) => 0.15
    case Corporativo(_, _) => 0.25
  }

  /** `calcular_descuento(monto=0)`: the discount amount on `monto`. */
  function CalcularDescuento(c: Cliente, monto: real := 0.0): real
    requires !c.variante.Base?
  {
    monto * TasaDescuento(c.variante)
  }

  /**
   * The discount never exceeds a quarter of a non-negative amount, is zero for
   * regular clients and for the default amount, and grows with the tier.
   */
  lemma DescuentoAcotado(c: Cliente, monto: real)
    requires !c.variante.Base? && 0.0 <= monto
    ensures 0.0 <= CalcularDescuento(c, monto) <= monto / 4.0
    ensures c.variante.Regular? ==> CalcularDescuento(c, monto) == 0.0
    ensures CalcularDescuento(c) == 0.0
  {
  }

  /** For every amount, regular clients get nothing, premium clients 15% and corporate clients 25%. */
  lemma DescuentoPorTasa(r: Cliente, p: Cliente, k: Cliente, monto: real)
    requires r.variante.Regular? && p.variante.Premium? && k.variante.Corporativo?
    ensures CalcularDescuento(r, monto) == 0.0
    ensures CalcularDescuento(p, monto) == monto * 15.0 / 100.0
    ensures CalcularDescuento(k, monto) == monto / 4.0
  {
  }

  /** On a positive amount the discount strictly grows with the tier. */
  lemma DescuentoPorNivel(r: Cliente, p: Cliente, k: Cliente, monto: real)
    requires r.variante.Regular? && p.variante.Premium? && k.variante.Corporativo? && monto > 0.0
    ensures CalcularDescuento(r, monto) < CalcularDescuento(p, monto) < CalcularDescuento(k, monto)
  {
  }

  // ---------------------------------------------------------------------------
  // Benefits
  // ---------------------------------------------------------------------------

  /** The fixed benefit of regular clients, written in two pieces so that its opening words can be inspected. */
  const BENEFICIO_REGULAR: string := "Acceso a promociones" + " y ofertas especiales para clientes regulares."

  /** `beneficio_exclusivo()`; the base class has none. */
  function BeneficioExclusivo(c: Cliente): string
    requires !c.variante.Base?
  {
    match c.variante
    case Regular => BENEFICIO_REGULAR
    case Premium(p) => Cita("Descuento del 15% en todas las compras y ", EnteroATexto(p), " puntos acumulados.")
    case Corporativo(e, _) => Cita("Descuento del 25% para ", e, " en todas las compras corporativas.")
  }

  /** Regular clients are offered promotions. */
  lemma BeneficioRegular(c: Cliente)
    requires c.variante.Regular?
    ensures Contiene(BeneficioExclusivo(c), "promociones")
  {
    var a := "Acceso a promociones";
    assert a[9] == 'p' && a[10] == 'r' && a[11] == 'o' && a[12] == 'm' && a[13] == 'o' && a[14] == 'c';
    assert a[15] == 'i' && a[16] == 'o' && a[17] == 'n' && a[18] == 'e' && a[19] == 's';
    assert BENEFICIO_REGULAR[9..20] == a[9..20];
    assert OcurreEn("promociones", BENEFICIO_REGULAR, 9);
  }

  /** The premium benefit names the 15% rate and the current balance. */
  lemma BeneficioPremium(c: Cliente)
    requires c.variante.Premium?
    ensures Contiene(BeneficioExclusivo(c), "15%")
    ensures Contiene(BeneficioExclusivo(c), EnteroATexto(c.variante.puntos))
  {
    var antes := "Descuento del 15% en todas las compras y ";
    var v := EnteroATexto(c.variante.puntos);
    assert antes[14] == '1' && antes[15] == '5' && antes[16] == '%';
    assert OcurreEn("15%", antes, 14);
    CitaContiene(antes, v, " puntos acumulados.", "15%");
    CitaContiene(antes, v, " puntos acumulados.", v);
  }

  /** The corporate benefit names the 25% rate and the company. */
  lemma BeneficioCorporativo(c: Cliente)
    requires c.variante.Corporativo?
    ensures Contiene(BeneficioExclusivo(c), "25%")
    ensures Contiene(BeneficioExclusivo(c), c.variante.nombreEmpresa)
  {
    var antes := "Descuento del 25% para ";
    var e := c.variante.nombreEmpresa;
    assert antes[14] == '2' && antes[15] == '5' && antes[16] == '%';
    assert OcurreEn("25%", antes, 14);
    CitaContiene(antes, e, " en todas las compras corporativas.", "25%");
    CitaContiene(antes, e, " en todas las compras corporativas.", e);
  }

  // ---------------------------------------------------------------------------
  // Data dictionaries
  // ---------------------------------------------------------------------------

  /** A value of the dictionaries `obtener_datos` returns. */
  datatype Dato = Texto(texto: string) | Decimal(decimal: real) | Entero(entero: int)

  /** The base class's `obtener_datos()`: the tag and the four contact fields. */
  function DatosBase(c: Cliente): map<string, Dato> {
    map["tipo" := Texto(ObtenerTipo(c)),
        "nombre" := Texto(c.nombre),
        "email" := Texto(c.email),
        "telefono" := Texto(c.telefono),
        "direccion" := Texto(c.direccion)]
  }

  /** `obtener_datos()` of each variant: the base dictionary extended with what the variant adds. */
  function ObtenerDatos(c: Cliente): map<string, Dato> {
    match c.variante
    case Base => DatosBase(c)
    case Regular =>
      DatosBase(c)["tipo" := Texto(ObtenerTipo(c))]["descuento" := Decimal(CalcularDescuento(c))]
    case Premium(p) =>
      DatosBase(c)["tipo" := Texto(ObtenerTipo(c))]["descuento" := Decimal(TasaDescuento(c.variante))]
                  ["puntos_acumulados" := Entero(p)]
    case Corporativo(e, r) =>
      DatosBase(c)["tipo" := Texto(ObtenerTipo(c))]["descuento" := Decimal(TasaDescuento(c.variante))]
                  ["nombre_empresa" := Texto(e)]["rut_empresa" := Texto(r)]
  }

  const CLAVES_BASE: set<string> := {"tipo", "nombre", "email", "telefono", "direccion"}

  /** The keys each variant adds to the base dictionary. */
  function ClavesExtra(v: Variante): set<string> {
    match v
    case Base => {}
    case Regular => {"descuento"}
    case Premium(_) => {"descuento", "puntos_acumulados"}
    case Corporativo(_, _) => {"descuento", "nombre_empresa", "rut_empresa"}
  }

  /**
   * Every dictionary holds exactly the base keys plus its variant's keys; the tag
   * and contact fields are the current ones, and every variant reports its rate.
   */
  lemma ObtenerDatosForma(c: Cliente)
    ensures ObtenerDatos(c).Keys == CLAVES_BASE + ClavesExtra(c.variante)
    ensures ObtenerDatos(c)["tipo"] == Texto(ObtenerTipo(c))
    ensures ObtenerDatos(c)["nombre"] == Texto(c.nombre) && ObtenerDatos(c)["email"] == Texto(c.email)
    ensures ObtenerDatos(c)["telefono"] == Texto(c.telefono) && ObtenerDatos(c)["direccion"] == Texto(c.direccion)
    ensures !c.variante.Base? ==> ObtenerDatos(c)["descuento"] == Decimal(TasaDescuento(c.variante))
    ensures c.variante.Premium? ==> ObtenerDatos(c)["puntos_acumulados"] == Entero(c.variante.puntos)
    ensures c.variante.Corporativo? ==> ObtenerDatos(c)["nombre_empresa"] == Texto(c.variante.nombreEmpresa)
                                        && ObtenerDatos(c)["rut_empresa"] == Texto(c.variante.rutEmpresa)
  {
  }

  /** `generar_factura_info()` of a corporate client. */
  function GenerarFacturaInfo(c: Cliente): map<string, string>
    requires c.variante.Corporativo?
  {
    map["nombre_empresa" := c.variante.nombreEmpresa,
        "rut_empresa" := c.variante.rutEmpresa,
        "direccion" := c.direccion,
        "contacto" := c.nombre,
        "email" := c.email]
  }

  /** The invoice data has exactly five keys and agrees with the client's data dictionary. */
  lemma FacturaCoincideConDatos(c: Cliente)
    requires c.variante.Corporativo?
    ensures GenerarFacturaInfo(c).Keys == {"nombre_empresa", "rut_empresa", "direccion", "contacto", "email"}
    ensures var f, d := GenerarFacturaInfo(c), ObtenerDatos(c);
            && Texto(f["nombre_empresa"]) == d["nombre_empresa"] && Texto(f["rut_empresa"]) == d["rut_empresa"]
            && Texto(f["direccion"]) == d["direccion"] && Texto(f["contacto"]) == d["nombre"]
            && Texto(f["email"]) == d["email"]
  {
    ObtenerDatosForma(c);
  }

  // ---------------------------------------------------------------------------
  // Loyalty points
  // ---------------------------------------------------------------------------

  /** The balance after `agregar_puntos(n)`: only a positive amount is added. */
  function SaldoTrasAgregar(saldo: int, n: int): int {
    if n > 0 then saldo + n else saldo
  }

  /** `canjear_puntos(n)`: whether it succeeded, and the balance afterwards. */
  datatype Canje = Canje(exito: bool, saldo: int)

  function Canjear(saldo: int, n: int): Canje {
    if n <= saldo then Canje(true, saldo - n) else Canje(false, saldo)
  }

  /** Adding never lowers the balance, and changes it exactly when `validar_puntos` accepts the amount. */
  lemma AgregarSegunValidacion(saldo: int, n: int)
    ensures SaldoTrasAgregar(saldo, n) >= saldo
    ensures SaldoTrasAgregar(saldo, n) != saldo <==> ValidarPuntos(n, "agregar").Ok?
    ensures ValidarPuntos(n, "agregar").Ok? ==> SaldoTrasAgregar(saldo, n) == saldo + n
  {
  }

  /** A redemption either takes exactly `n` points or fails and changes nothing. */
  lemma CanjearExacto(saldo: int, n: int)
    ensures Canjear(saldo, n).exito <==> n <= saldo
    ensures Canjear(saldo, n).exito ==> Canjear(saldo, n).saldo == saldo - n
    ensures !Canjear(saldo, n).exito ==> Canjear(saldo, n).saldo == saldo
  {
  }

  /** A non-negative redemption from a non-negative balance leaves it non-negative. */
  lemma CanjearConservaNoNegativo(saldo: int, n: int)
    requires saldo >= 0 && n >= 0
    ensures Canjear(saldo, n).saldo >= 0
  {
  }

  /** The guard checks only the upper bound: a negative amount is "redeemed" and raises the balance. */
  lemma CanjearNegativoAumenta(saldo: int, n: int)
    requires n < 0 && n <= saldo
    ensures Canjear(saldo, n).exito && Canjear(saldo, n).saldo > saldo
  {
  }

  /** Every redemption `validar_puntos` accepts succeeds and leaves a non-negative, smaller balance. */
  lemma CanjeValidado(saldo: int, n: int)
    requires ValidarPuntos(n, "canjear", saldo).Ok?
    ensures Canjear(saldo, n).exito
    ensures 0 <= Canjear(saldo, n).saldo < saldo
  {
    assert 0 < n <= saldo;
  }

  /** Redeeming what was just added to a non-negative balance restores it. */
  lemma CanjearDeshaceAgregar(saldo: int, n: int)
    requires n > 0 && saldo >= 0
    ensures Canjear(SaldoTrasAgregar(saldo, n), n) == Canje(true, saldo)
  {
  }

  // ---------------------------------------------------------------------------
  // The client object
  // ---------------------------------------------------------------------------

  /** Which class an object was constructed as. */
  datatype Clase = ClaseBase | ClaseRegular | ClasePremium | ClaseCorporativo

  class FichaCliente {
    const clase: Clase
    var nombre: string
    var email: string
    var telefono: string
    var direccion: string
    /** `__puntos_acumulados`, used by premium clients only. */
    var puntos: int
    /** `__nombre_empresa` and `__rut_empresa`, used by corporate clients only. */
    var nombreEmpresa: string
    var rutEmpresa: string

    /** The client value the object holds; the getters read its fields. */
    function Valor(): Cliente
      reads this
    {
      Cliente(nombre, email, telefono, direccion,
        match clase
        case ClaseBase => Variante.Base
        case ClaseRegular => Variante.Regular
        case ClasePremium => Variante.Premium(puntos)
        case ClaseCorporativo => Variante.Corporativo(nombreEmpresa, rutEmpresa))
    }

    /** `Cliente(nombre, email, telefono, direccion)`: stores its arguments as given. */
    constructor (nombre: string, email: string, telefono: string, direccion: string)
      ensures Valor() == Cliente(nombre, email, telefono, direccion, Variante.Base)
    {
      clase := ClaseBase;
      this.nombre, this.email, this.telefono, this.direccion := nombre, email, telefono, direccion;
      puntos, nombreEmpresa, rutEmpresa := 0, "", "";
    }

    /** `ClienteRegular(...)`: no state beyond the four contact fields. */
    constructor Regular(nombre: string, email: string, telefono: string, direccion: string)
      ensures Valor() == Cliente(nombre, email, telefono, direccion, Variante.Regular)
    {
      clase := ClaseRegular;
      this.nombre, this.email, this.telefono, this.direccion := nombre, email, telefono, direccion;
      puntos, nombreEmpresa, rutEmpresa := 0, "", "";
    }

    /** `ClientePremium(..., puntos_iniciales=0)`: the initial balance is stored unchecked. */
    constructor Premium(nombre: string, email: string, telefono: string, direccion: string, puntosIniciales: int := 0)
      ensures Valor() == Cliente(nombre, email, telefono, direccion, Variante.Premium(puntosIniciales))
    {
      clase := ClasePremium;
      this.nombre, this.email, this.telefono, this.direccion := nombre, email, telefono, direccion;
      puntos, nombreEmpresa, rutEmpresa := puntosIniciales, "", "";
    }

    /** `ClienteCorporativo(..., nombre_empresa="", rut_empresa="")`: the company fields are stored unchecked. */
    constructor Corporativo(nombre: string, email: string, telefono: string, direccion: string,
                            nombreEmpresa: string := "", rutEmpresa: string := "")
      ensures Valor() == Cliente(nombre, email, telefono, direccion, Variante.Corporativo(nombreEmpresa, rutEmpresa))
    {
      clase := ClaseCorporativo;
      this.nombre, this.email, this.telefono, this.direccion := nombre, email, telefono, direccion;
      puntos, this.nombreEmpresa, this.rutEmpresa := 0, nombreEmpresa, rutEmpresa;
    }

    method SetNombre(valor: string)
      modifies this
      ensures Valor() == old(Valor()).(nombre := valor)
    {
      nombre := valor;
    }

    method SetEmail(valor: string)
      modifies this
      ensures Valor() == old(Valor()).(email := valor)
    {
      email := valor;
    }

    method SetTelefono(valor: string)
      modifies this
      ensures Valor() == old(Valor()).(telefono := valor)
    {
      telefono := valor;
    }

    method SetDireccion(valor: string)
      modifies this
      ensures Valor() == old(Valor()).(direccion := valor)
    {
      direccion := valor;
    }

    method SetNombreEmpresa(valor: string)
      requires clase == ClaseCorporativo
      modifies this
      ensures Valor() == old(Valor()).(variante := Variante.Corporativo(valor, old(rutEmpresa)))
    {
      nombreEmpresa := valor;
    }

    method SetRutEmpresa(valor: string)
      requires clase == ClaseCorporativo
      modifies this
      ensures Valor() == old(Valor()).(variante := Variante.Corporativo(old(nombreEmpresa), valor))
    {
      rutEmpresa := valor;
    }

    /** `agregar_puntos(n)`. */
    method AgregarPuntos(n: int)
      requires clase == ClasePremium
      modifies this
      ensures Valor() == old(Valor()).(variante := Variante.Premium(SaldoTrasAgregar(old(puntos), n)))
    {
      if n > 0 {
        puntos := puntos + n;
      }
    }

    /** `canjear_puntos(n)`. */
    method CanjearPuntos(n: int) returns (exito: bool)
      requires clase == ClasePremium
      modifies this
      ensures Canje(exito, puntos) == Canjear(old(puntos), n)
      ensures Valor() == old(Valor()).(variante := Variante.Premium(puntos))
    {
      if n <= puntos {
        puntos := puntos - n;
        exito := true;
      } else {
        exito := false;
      }
    }
  }
}
