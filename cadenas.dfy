/**
 * The Python string primitives the validators, the manager and the CSV mapping rely on:
 * `str.strip`, `str.lower`, `str.upper`, `str.isdigit`, `str(int)`, `int(str)` and `in`
 * on strings, restricted to ASCII where Python is Unicode-wide.
 */
module Cadenas {
  import opened Wrappers

  // ---------------------------------------------------------------------------
  // Character classes
  // ---------------------------------------------------------------------------

  /** ASCII whitespace as `str.isspace` and the regex class `\s` see it. */
  predicate EsEspacio(c: char) {
    c == ' ' || ('\t' <= c <= '\r') || ('\U{1C}' <= c <= '\U{1F}')
  }

  /** ASCII decimal digit (the regex class `\d` restricted to ASCII). */
  predicate EsDigito(c: char) {
    '0' <= c <= '9'
  }

  predicate EsMayuscula(c: char) {
    'A' <= c <= 'Z'
  }

  predicate EsMinuscula(c: char) {
    'a' <= c <= 'z'
  }

  /** The class `[a-zA-Z]`. */
  predicate EsLetraAscii(c: char) {
    EsMayuscula(c) || EsMinuscula(c)
  }

  predicate TodosDigitos(s: string) {
    forall i :: 0 <= i < |s| ==> EsDigito(s[i])
  }

  /** Python's `str.isdigit()`: non-empty and made of digits only. */
  predicate EsNumerico(s: string) {
    |s| > 0 && TodosDigitos(s)
  }

  // ---------------------------------------------------------------------------
  // str.strip()
  // ---------------------------------------------------------------------------

  /** Neither the first nor the last character is whitespace. */
  predicate SinEspaciosExtremos(s: string) {
    s == [] || (!EsEspacio(s[0]) && !EsEspacio(s[|s| - 1]))
  }

  /** Python's `str.strip()`: drops whitespace from either end, one character at a time. */
  function Strip(s: string): (r: string)
    ensures |r| <= |s|
    ensures SinEspaciosExtremos(r)
    decreases |s|
  {
    if s != [] && EsEspacio(s[0]) then Strip(s[1..])
    else if s != [] && EsEspacio(s[|s| - 1]) then Strip(s[..|s| - 1])
    else s
  }

  /** The stripped string is the slice of `s` left after removing whitespace at both ends. */
  lemma {:induction false} StripEsRecorte(s: string) returns (i: nat)
    ensures i + |Strip(s)| <= |s| && Strip(s) == s[i..i + |Strip(s)|]
    ensures forall k :: 0 <= k < i ==> EsEspacio(s[k])
    ensures forall k :: i + |Strip(s)| <= k < |s| ==> EsEspacio(s[k])
    decreases |s|
  {
    if s != [] && EsEspacio(s[0]) {
      var t := s[1..];
      var j := StripEsRecorte(t);
      i := j + 1;
      assert Strip(s) == Strip(t) == t[j..j + |Strip(t)|];
      forall k | 0 <= k < i
        ensures EsEspacio(s[k])
      {
        if k > 0 {
          assert s[k] == t[k - 1];
        }
      }
      forall k | i + |Strip(s)| <= k < |s|
        ensures EsEspacio(s[k])
      {
        assert s[k] == t[k - 1];
      }
    } else if s != [] && EsEspacio(s[|s| - 1]) {
      var t := s[..|s| - 1];
      i := StripEsRecorte(t);
      assert Strip(s) == Strip(t) == t[i..i + |Strip(t)|];
      forall k | 0 <= k < i
        ensures EsEspacio(s[k])
      {
        assert s[k] == t[k];
      }
      forall k | i + |Strip(s)| <= k < |s|
        ensures EsEspacio(s[k])
      {
        if k < |s| - 1 {
          assert s[k] == t[k];
        }
      }
    } else {
      i := 0;
    }
  }

  /** Stripping leaves a string unchanged exactly when it has no whitespace at its ends. */
  lemma StripIdentidad(s: string)
    ensures Strip(s) == s <==> SinEspaciosExtremos(s)
  {
  }

  /** Stripping twice is stripping once. */
  lemma StripIdempotente(s: string)
    ensures Strip(Strip(s)) == Strip(s)
  {
    StripIdentidad(Strip(s));
  }

  // ---------------------------------------------------------------------------
  // str.lower() / str.upper()
  // ---------------------------------------------------------------------------

  function MinusculaChar(c: char): char {
    if EsMayuscula(c) then (c as int + 32) as char else c
  }

  function MayusculaChar(c: char): char {
    if EsMinuscula(c) then (c as int - 32) as char else c
  }

  /** Python's `str.lower()` on ASCII letters. */
  function Minusculas(s: string): string {
    seq(|s|, i requires 0 <= i < |s| => MinusculaChar(s[i]))
  }

  /** Python's `str.upper()` on ASCII letters. */
  function Mayusculas(s: string): string {
    seq(|s|, i requires 0 <= i < |s| => MayusculaChar(s[i]))
  }

  /** Lower-casing keeps the length, leaves no upper-case letter and is idempotent. */
  lemma MinusculasNormaliza(s: string)
    ensures |Minusculas(s)| == |s|
    ensures forall i :: 0 <= i < |s| ==> !EsMayuscula(Minusculas(s)[i])
    ensures Minusculas(Minusculas(s)) == Minusculas(s)
  {
  }

  /** Upper-casing keeps the length, leaves no lower-case letter and is idempotent. */
  lemma MayusculasNormaliza(s: string)
    ensures |Mayusculas(s)| == |s|
    ensures forall i :: 0 <= i < |s| ==> !EsMinuscula(Mayusculas(s)[i])
    ensures Mayusculas(Mayusculas(s)) == Mayusculas(s)
  {
  }

  // ---------------------------------------------------------------------------
  // str(int) and int(str)
  // ---------------------------------------------------------------------------

  function DigitoChar(d: nat): (c: char)
    requires d < 10
    ensures EsDigito(c)
  {
    (d + 48) as char
  }

  function ValorDigito(c: char): (d: nat)
    requires EsDigito(c)
    ensures d < 10 && DigitoChar(d) == c
  {
    c as int - 48
  }

  /** Python's `str(n)` for a natural number: its decimal digits, without leading zeros. */
  function NatATexto(n: nat): (r: string)
    ensures |r| >= 1 && TodosDigitos(r)
    ensures r[0] == '0' ==> n == 0
    decreases n
  {
    if n < 10 then [DigitoChar(n)] else NatATexto(n / 10) + [DigitoChar(n % 10)]
  }

  /** The number a string of digits denotes. */
  function ValorDigitos(s: string): nat
    requires TodosDigitos(s)
  {
    if s == [] then 0 else ValorDigitos(s[..|s| - 1]) * 10 + ValorDigito(s[|s| - 1])
  }

  /** Python's `str(n)`: a minus sign for negative numbers, then the digits of `|n|`. */
  function EnteroATexto(n: int): (r: string)
    ensures |r| >= 1 && SinEspaciosExtremos(r)
    ensures r[0] == '-' <==> n < 0
  {
    if n < 0 then "-" + NatATexto(-n) else NatATexto(n)
  }

  /**
   * Python's `int(s)` on an already stripped string: an optional `+` or `-`
   * followed by one or more digits; anything else raises `ValueError` (None here).
   */
  function TextoAEntero(s: string): (r: Option<int>)
    ensures r.Some? <==> (EsNumerico(s) || (|s| >= 2 && (s[0] == '-' || s[0] == '+') && TodosDigitos(s[1..])))
  {
    if |s| >= 2 && (s[0] == '-' || s[0] == '+') && TodosDigitos(s[1..]) then
      Some(if s[0] == '-' then -(ValorDigitos(s[1..]) as int) else ValorDigitos(s[1..]))
    else if EsNumerico(s) then
      Some(ValorDigitos(s))
    else
      None
  }

  /** Reading back the digits of `n` gives `n`. */
  lemma {:induction false} ValorDeNatATexto(n: nat)
    ensures ValorDigitos(NatATexto(n)) == n
    decreases n
  {
    if n >= 10 {
      var p := NatATexto(n / 10);
      var s := p + [DigitoChar(n % 10)];
      assert s[..|s| - 1] == p;
      ValorDeNatATexto(n / 10);
    }
  }

  /** `int(str(n)) == n` for every integer, negative ones included. */
  lemma EnteroIdaVuelta(n: int)
    ensures TextoAEntero(EnteroATexto(n)) == Some(n)
  {
    var s := EnteroATexto(n);
    if n < 0 {
      var digitos := NatATexto(-n);
      assert s == "-" + digitos && s[1..] == digitos;
      ValorDeNatATexto(-n);
      assert |s| >= 2 && s[0] == '-' && TodosDigitos(s[1..]);
      assert TextoAEntero(s) == Some(-(ValorDigitos(digitos) as int));
    } else {
      ValorDeNatATexto(n);
      assert s[0] != '-' && s[0] != '+';
      assert TextoAEntero(s) == Some(ValorDigitos(s));
    }
  }

  // ---------------------------------------------------------------------------
  // The `in` operator on strings
  // ---------------------------------------------------------------------------

  /** `sub` occurs in `s` starting at index `i`. */
  predicate OcurreEn(sub: string, s: string, i: int) {
    0 <= i && i + |sub| <= |s| && s[i..i + |sub|] == sub
  }

  /** Python's `sub in s`. */
  ghost predicate Contiene(s: string, sub: string) {
    exists i :: OcurreEn(sub, s, i)
  }

  /** A string contains every piece it is built from. */
  lemma ContieneConcat(a: string, b: string, c: string)
    ensures Contiene(a + b + c, b)
  {
    assert (a + b + c)[|a|..|a| + |b|] == b;
    assert OcurreEn(b, a + b + c, |a|);
  }
}
