/**
 * `GestorClientes`: an insertion-ordered list of clients keyed by their email,
 * compared case-insensitively. The manager owns the client values it stores, so
 * its invariant, that no two stored emails coincide once lower-cased, is a fact
 * about its own state.
 */
module Gestion {
  import opened Wrappers
  import opened Cadenas
  import opened Clientes

  // ---------------------------------------------------------------------------
  // Specification functions
  // ---------------------------------------------------------------------------

  /** The key a client is found by: `email.lower()`. */
  function Clave(c: Cliente): string {
    Minusculas(c.email)
  }

  /** No two clients share a key. */
  predicate EmailsUnicos(s: seq<Cliente>) {
    forall i, j :: 0 <= i < j < |s| ==> Clave(s[i]) != Clave(s[j])
  }

  /** The position of the first client, in insertion order, whose key is `clave`. */
  function PrimeraCoincidencia(s: seq<Cliente>, clave: string): (r: Option<nat>)
    ensures r.Some? ==> r.value < |s| && Clave(s[r.value]) == clave
                        && forall k :: 0 <= k < r.value ==> Clave(s[k]) != clave
    ensures r.None? ==> forall k :: 0 <= k < |s| ==> Clave(s[k]) != clave
  {
    if |s| == 0 then None
    else if Clave(s[0]) == clave then Some(0)
    else match PrimeraCoincidencia(s[1..], clave)
      case None => None
      case Some(i) => Some(i + 1)
  }

  /** With unique keys, the first match is the only one. */
  lemma CoincidenciaUnica(s: seq<Cliente>, clave: string, k: nat)
    requires EmailsUnicos(s)
    requires PrimeraCoincidencia(s, clave).Some? && k < |s| && Clave(s[k]) == clave
    ensures PrimeraCoincidencia(s, clave) == Some(k)
  {
  }

  /** `actualizar_cliente`'s change to the found client: only the non-empty arguments replace fields. */
  function Actualizado(c: Cliente, nombre: string, telefono: string, direccion: string): Cliente {
    c.(nombre := if nombre != "" then nombre else c.nombre,
       telefono := if telefono != "" then telefono else c.telefono,
       direccion := if direccion != "" then direccion else c.direccion)
  }

  /**
   * An update never touches the email or the variant, changes nothing when every
   * argument is empty, and applying it twice is the same as applying it once.
   */
  lemma ActualizadoConserva(c: Cliente, nombre: string, telefono: string, direccion: string)
    ensures Actualizado(c, nombre, telefono, direccion).email == c.email
    ensures Actualizado(c, nombre, telefono, direccion).variante == c.variante
    ensures Clave(Actualizado(c, nombre, telefono, direccion)) == Clave(c)
    ensures Actualizado(c, "", "", "") == c
    ensures var d := Actualizado(c, nombre, telefono, direccion);
            Actualizado(d, nombre, telefono, direccion) == d
  {
  }

  /** The list without the client at position `i`. */
  function SinPosicion(s: seq<Cliente>, i: nat): (r: seq<Cliente>)
    requires i < |s|
    ensures |r| == |s| - 1
    ensures forall k :: 0 <= k < i ==> r[k] == s[k]
    ensures forall k :: i <= k < |r| ==> r[k] == s[k + 1]
  {
    s[..i] + s[i + 1..]
  }

  /** Removing a client keeps the keys unique, and its key is then no longer found. */
  lemma QuitarConservaUnicos(s: seq<Cliente>, i: nat)
    requires EmailsUnicos(s) && i < |s|
    ensures EmailsUnicos(SinPosicion(s, i))
    ensures PrimeraCoincidencia(SinPosicion(s, i), Clave(s[i])).None?
  {
    var r := SinPosicion(s, i);
    forall a, b | 0 <= a < b < |r|
      ensures Clave(r[a]) != Clave(r[b])
    {
      var a' := if a < i then a else a + 1;
      var b' := if b < i then b else b + 1;
      assert r[a] == s[a'] && r[b] == s[b'] && a' < b';
    }
    forall k | 0 <= k < |r|
      ensures Clave(r[k]) != Clave(s[i])
    {
      if k < i {
        assert r[k] == s[k];
      } else {
        assert r[k] == s[k + 1];
      }
    }
  }

  /** A client whose key is new is found at the end once appended, and the keys stay unique. */
  lemma AgregadoSeEncuentra(s: seq<Cliente>, c: Cliente)
    requires EmailsUnicos(s) && PrimeraCoincidencia(s, Clave(c)).None?
    ensures EmailsUnicos(s + [c])
    ensures PrimeraCoincidencia(s + [c], Clave(c)) == Some(|s|)
  {
    var t := s + [c];
    forall k | 0 <= k < |s|
      ensures Clave(t[k]) != Clave(c)
    {
      assert t[k] == s[k];
    }
    forall a, b | 0 <= a < b < |t|
      ensures Clave(t[a]) != Clave(t[b])
    {
      assert t[a] == s[a];
      if b < |s| {
        assert t[b] == s[b];
      }
    }
    var r := PrimeraCoincidencia(t, Clave(c));
    assert t[|s|] == c;
    assert r.Some? && r.value == |s|;
  }

  /** `obtener_clientes_por_tipo(tipo)`: the clients whose tag is `tipo`, in list order. */
  function FiltrarPorTipo(s: seq<Cliente>, tipo: string): (r: seq<Cliente>)
    ensures |r| <= |s|
    ensures forall k :: 0 <= k < |r| ==> ObtenerTipo(r[k]) == tipo
    ensures forall c :: c in r <==> c in s && ObtenerTipo(c) == tipo
  {
    if |s| == 0 then []
    else (if ObtenerTipo(s[0]) == tipo then [s[0]] else []) + FiltrarPorTipo(s[1..], tipo)
  }

  /** Filtering distributes over concatenation: the clients kept keep their relative order. */
  lemma {:induction false} FiltrarConcat(a: seq<Cliente>, b: seq<Cliente>, tipo: string)
    ensures FiltrarPorTipo(a + b, tipo) == FiltrarPorTipo(a, tipo) + FiltrarPorTipo(b, tipo)
    decreases |a|
  {
    if |a| == 0 {
      assert a + b == b;
    } else {
      assert (a + b)[1..] == a[1..] + b;
      FiltrarConcat(a[1..], b, tipo);
    }
  }

  /** How many clients have the tag `tipo`. */
  function Cuenta(s: seq<Cliente>, tipo: string): nat {
    |FiltrarPorTipo(s, tipo)|
  }

  /** `tipos.get(tipo, 0)`. */
  function ContarEn(m: map<string, nat>, tipo: string): nat {
    if tipo in m then m[tipo] else 0
  }

  /** The dictionary `mostrar_estadisticas` builds, client by client. */
  function ConteoTipos(s: seq<Cliente>): map<string, nat> {
    if |s| == 0 then map[]
    else
      var m := ConteoTipos(s[..|s| - 1]);
      var t := ObtenerTipo(s[|s| - 1]);
      m[t := ContarEn(m, t) + 1]
  }

  /** The counting dictionary holds, for each tag present, the number of clients with it, and no other key. */
  lemma {:induction false} ConteoTiposCorrecto(s: seq<Cliente>, tipo: string)
    ensures ContarEn(ConteoTipos(s), tipo) == Cuenta(s, tipo)
    ensures tipo in ConteoTipos(s) <==> Cuenta(s, tipo) > 0
  {
    if |s| > 0 {
      var p := s[..|s| - 1];
      ConteoTiposCorrecto(p, tipo);
      FiltrarConcat(p, [s[|s| - 1]], tipo);
      assert p + [s[|s| - 1]] == s;
    }
  }

  /** Every client has exactly one of the four tags, so the four counts add up to the list length. */
  lemma {:induction false} CuentasSumanTotal(s: seq<Cliente>)
    ensures Cuenta(s, TIPO_BASE) + Cuenta(s, TIPO_REGULAR) + Cuenta(s, TIPO_PREMIUM) + Cuenta(s, TIPO_CORPORATIVO) == |s|
    ensures forall tipo :: tipo in ConteoTipos(s) ==> tipo in {TIPO_BASE, TIPO_REGULAR, TIPO_PREMIUM, TIPO_CORPORATIVO}
  {
    if |s| > 0 {
      CuentasSumanTotal(s[1..]);
      var p := s[..|s| - 1];
      CuentasSumanTotal(p);
      TipoIdentificaVariante(s[0], Cliente("", "", "", "", Base));
      TipoIdentificaVariante(s[0], Cliente("", "", "", "", Regular));
      TipoIdentificaVariante(s[0], Cliente("", "", "", "", Premium(0)));
    }
  }

  /** The per-type counts of `mostrar_estadisticas` always add up to `total_clientes`. */
  lemma EstadisticasSumanTotal(s: seq<Cliente>)
    ensures var m := ConteoTipos(s);
            ContarEn(m, TIPO_BASE) + ContarEn(m, TIPO_REGULAR) + ContarEn(m, TIPO_PREMIUM)
            + ContarEn(m, TIPO_CORPORATIVO) == |s|
  {
    ConteoTiposCorrecto(s, TIPO_BASE);
    ConteoTiposCorrecto(s, TIPO_REGULAR);
    ConteoTiposCorrecto(s, TIPO_PREMIUM);
    ConteoTiposCorrecto(s, TIPO_CORPORATIVO);
    CuentasSumanTotal(s);
  }

  // ---------------------------------------------------------------------------
  // The manager
  // ---------------------------------------------------------------------------

  class GestorClientes {
    /** `__clientes`, in insertion order. */
    var clientes: seq<Cliente>

    /** No two stored clients have case-insensitively equal emails. */
    ghost predicate Valid()
      reads this
    {
      EmailsUnicos(clientes)
    }

    /** A new manager is empty. */
    constructor ()
      ensures Valid() && clientes == []
    {
      clientes := [];
    }

    /** The `clientes` property: a copy of the list, which as a value is the list itself. */
    function Clientes(): (r: seq<Cliente>)
      reads this
      ensures r == clientes
    {
      clientes
    }

    /** The `total_clientes` property. */
    function TotalClientes(): (r: nat)
      reads this
      ensures r == |Clientes()|
    {
      |clientes|
    }

    /** The loop of `buscar_cliente`: the position of the first client whose lower-cased email is `email.lower()`. */
    method BuscarPosicion(email: string) returns (r: Option<nat>)
      ensures r == PrimeraCoincidencia(clientes, Minusculas(email))
    {
      var clave := Minusculas(email);
      var i := 0;
      while i < |clientes|
        invariant 0 <= i <= |clientes|
        invariant forall k :: 0 <= k < i ==> Clave(clientes[k]) != clave
      {
        if Clave(clientes[i]) == clave {
          return Some(i);
        }
        i := i + 1;
      }
      return None;
    }

    /** `buscar_cliente(email)`: the first match, or `None`. */
    method BuscarCliente(email: string) returns (r: Option<Cliente>)
      ensures r.Some? <==> PrimeraCoincidencia(clientes, Minusculas(email)).Some?
      ensures r.Some? ==> r.value == clientes[PrimeraCoincidencia(clientes, Minusculas(email)).value]
    {
      var i := BuscarPosicion(email);
      match i
      case None => r := None;
      case Some(k) => r := Some(clientes[k]);
    }

    /** `agregar_cliente(cliente)`: appends the client unless its email is already stored. */
    method AgregarCliente(c: Cliente) returns (agregado: bool)
      requires Valid()
      modifies this
      ensures Valid()
      ensures agregado <==> PrimeraCoincidencia(old(clientes), Clave(c)).None?
      ensures clientes == if agregado then old(clientes) + [c] else old(clientes)
    {
      var existente := BuscarCliente(c.email);
      if existente.Some? {
        return false;
      }
      AgregadoSeEncuentra(clientes, c);
      clientes := clientes + [c];
      return true;
    }

    /** `actualizar_cliente`: overwrites the non-empty fields among name, phone and address of the matching client. */
    method ActualizarCliente(email: string, nombre: string, telefono: string, direccion: string) returns (ok: bool)
      requires Valid()
      modifies this
      ensures Valid()
      ensures ok <==> PrimeraCoincidencia(old(clientes), Minusculas(email)).Some?
      ensures clientes == match PrimeraCoincidencia(old(clientes), Minusculas(email))
                          case None => old(clientes)
                          case Some(i) => old(clientes)[i := Actualizado(old(clientes)[i], nombre, telefono, direccion)]
    {
      var i := BuscarPosicion(email);
      match i
      case None =>
        ok := false;
      case Some(k) =>
        ActualizadoConserva(clientes[k], nombre, telefono, direccion);
        clientes := clientes[k := Actualizado(clientes[k], nombre, telefono, direccion)];
        ok := true;
    }

    /** `eliminar_cliente`: removes the matching client, keeping the others in order. */
    method EliminarCliente(email: string) returns (ok: bool)
      requires Valid()
      modifies this
      ensures Valid()
      ensures ok <==> PrimeraCoincidencia(old(clientes), Minusculas(email)).Some?
      ensures clientes == match PrimeraCoincidencia(old(clientes), Minusculas(email))
                          case None => old(clientes)
                          case Some(i) => SinPosicion(old(clientes), i)
      ensures PrimeraCoincidencia(clientes, Minusculas(email)).None?
    {
      var i := BuscarPosicion(email);
      match i
      case None =>
        ok := false;
      case Some(k) =>
        QuitarConservaUnicos(clientes, k);
        clientes := SinPosicion(clientes, k);
        ok := true;
    }

    /** `limpiar_lista`. */
    method LimpiarLista()
      modifies this
      ensures Valid() && clientes == []
    {
      clientes := [];
    }

    /** `obtener_clientes_por_tipo(tipo)`: the stored clients with that tag, and only those; none when no tag matches. */
    function ObtenerClientesPorTipo(tipo: string): (r: seq<Cliente>)
      reads this
      ensures r == FiltrarPorTipo(clientes, tipo)
    ensures forall c :: c in r <==> c in clientes && ObtenerTipo(c) == tipo
      ensures (forall k :: 0 <= k < |clientes| ==> ObtenerTipo(clientes[k]) != tipo) ==> r == []
    {
      var r := FiltrarPorTipo(clientes, tipo);
      assert r != [] ==> r[0] in r;
      r
    }

    /** The counting loop of `mostrar_estadisticas`. */
    method ContarPorTipo() returns (tipos: map<string, nat>)
      ensures tipos == ConteoTipos(clientes)
    {
      tipos := map[];
      var i := 0;
      while i < |clientes|
        invariant 0 <= i <= |clientes|
        invariant tipos == ConteoTipos(clientes[..i])
      {
        var tipo := ObtenerTipo(clientes[i]);
        assert clientes[..i + 1][..i] == clientes[..i];
        tipos := tipos[tipo := ContarEn(tipos, tipo) + 1];
        i := i + 1;
      }
      assert clientes[..i] == clientes;
    }
  }
}
