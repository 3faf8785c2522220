/**
 * `ClienteForm.validate_numero_documento` (`forms.py`): the Chilean RUT
 * (Rol Único Tributario) format and modulo-11 check digit for document
 * type '1', the passport format for type '2', no check for any other
 * type. The two regular expressions are written out over ASCII characters.
 */
module Forms {
  import opened Wrappers
  import opened Text

  /**
   * What the validator does with a value: accepts it, raises
   * `ValidationError` with a message, or lets another exception escape
   * (named by its class).
   */
  datatype Validacion = Valido | Invalido(mensaje: string) | Excepcion(clase: string)

  const MSG_FORMATO_RUT: string := "Formato de RUT inválido. Debe ser como: 12345678-9"
  const MSG_DV: string := "RUT inválido - dígito verificador incorrecto"
  const MSG_PASAPORTE: string := "El pasaporte debe tener entre 6 y 12 caracteres alfanuméricos"

  /** The check-digit alphabet, indexed by the check value. */
  const DIGITOS: string := "0123456789K"

  // ----- the two patterns -----

  /**
   * The text the pattern must span up to `$`: Python's `$` also matches just before
   * a newline that ends the string, so one final newline is not part of
   * the pattern's span.
   */
  function SinSaltoFinal(s: string): (t: string)
    ensures t == s || (s == t + "\n")
  {
    if |s| > 0 && s[|s| - 1] == '\n' then s[..|s| - 1] else s
  }

  predicate EsDv(c: char) { IsDigit(c) || c == 'k' || c == 'K' }

  /** `\d{7,8}-[\dkK]` spanning the whole of `t`. */
  predicate CuerpoRut(t: string) {
    && 9 <= |t| <= 10
    && AllDigits(t[..|t| - 2])
    && t[|t| - 2] == '-'
    && EsDv(t[|t| - 1])
  }

  /** `re.match(r'^\d{7,8}-[\dkK]$', numero)` */
  predicate FormatoRut(numero: string) {
    CuerpoRut(SinSaltoFinal(numero))
  }

  predicate EsAlfanumerico(c: char) {
    IsDigit(c) || 'a' <= c <= 'z' || 'A' <= c <= 'Z'
  }

  /** `re.match(r'^[A-Za-z0-9]{6,12}$', numero)` */
  predicate FormatoPasaporte(numero: string) {
    var t := SinSaltoFinal(numero);
    6 <= |t| <= 12 && forall i :: 0 <= i < |t| ==> EsAlfanumerico(t[i])
  }

  // ----- the check value -----

  /** `int(c)` for an ASCII digit. */
  function Valor(c: char): int { c as int - '0' as int }

  /** The weight of the `k`-th digit counted from the right (from 0): 2, 3, 4, 5, 6, 7, 2, 3, … */
  function Peso(k: nat): int { 2 + k % 6 }

  /** The weighted sum of the last `k` characters of `cuerpo`. */
  function SumaPonderada(cuerpo: string, k: nat): int
    requires k <= |cuerpo|
  {
    if k == 0 then 0 else SumaPonderada(cuerpo, k - 1) + Valor(cuerpo[|cuerpo| - k]) * Peso(k - 1)
  }

  /** The weighted digit sum of the RUT body. */
  function SumaRut(cuerpo: string): int {
    SumaPonderada(cuerpo, |cuerpo|)
  }

  /**
   * The weights count from the right: a digit written in front of the body
   * weighs by its distance from the last digit and leaves the others' sum
   * as it was.
   */
  lemma SumaRutAntepuesto(d: char, cuerpo: string)
    ensures SumaRut([d] + cuerpo) == SumaRut(cuerpo) + Valor(d) * Peso(|cuerpo|)
  {
    SumaPonderadaSufijo(d, cuerpo, |cuerpo|);
    assert ([d] + cuerpo)[|cuerpo| + 1 - (|cuerpo| + 1)] == d;
  }

  lemma {:induction false} SumaPonderadaSufijo(d: char, cuerpo: string, k: nat)
    requires k <= |cuerpo|
    ensures SumaPonderada([d] + cuerpo, k) == SumaPonderada(cuerpo, k)
  {
    if k > 0 {
      SumaPonderadaSufijo(d, cuerpo, k - 1);
      assert ([d] + cuerpo)[|cuerpo| + 1 - k] == cuerpo[|cuerpo| - k];
    }
  }

  /**
   * `'0123456789K'[11 - (suma % 11)]` as written: the index runs from 1
   * to 11, and 11 (a sum that is a multiple of 11) is out of range and
   * raises IndexError, given here as None.
   */
  function DigitoEsperado(suma: int): (e: Option<char>)
    ensures e.None? <==> suma % 11 == 0
    ensures e.Some? ==> e.value in DIGITOS && e.value != '0'
  {
    var i := 11 - suma % 11;
    assert 1 <= i <= 11;
    if i < |DIGITOS| then Some(DIGITOS[i]) else None
  }

  /**
   * The modulo-11 check digit as the RUT scheme defines it: 11 − (suma mod
   * 11), with 11 written as '0' and 10 as 'K'.
   */
  function DigitoEsperadoCorregido(suma: int): (e: char)
    ensures e in DIGITOS
    ensures e == '0' <==> suma % 11 == 0
    ensures suma % 11 != 0 ==> DigitoEsperado(suma) == Some(e)
  {
    var i := (11 - suma % 11) % 11;
    assert 0 <= i < 11 && (i == 0 <==> suma % 11 == 0);
    assert suma % 11 != 0 ==> i == 11 - suma % 11;
    DIGITOS[i]
  }

  /** The expected digit: as written (None when indexing raises), or as the scheme defines it. */
  function Esperado(suma: int, corregido: bool): Option<char> {
    if corregido then Some(DigitoEsperadoCorregido(suma)) else DigitoEsperado(suma)
  }

  /** `if dv != str(dv_esperado): raise ValidationError(...)`, after the lookup of the expected digit. */
  function Comparar(dv: char, esperado: Option<char>): Validacion {
    if esperado.None? then Excepcion("IndexError")
    else if dv != esperado.value then Invalido(MSG_DV)
    else Valido
  }

  // ----- the validator -----

  /** `numero.replace('-', '')` on a value of the RUT format keeps the digits, the check digit and any final newline. */
  lemma RutSinGuion(numero: string)
    requires FormatoRut(numero)
    ensures var t := SinSaltoFinal(numero);
      Without(numero, '-') == t[..|t| - 2] + [t[|t| - 1]] + numero[|t|..]
  {
    var t := SinSaltoFinal(numero);
    var nl := numero[|t|..];
    assert numero == t + nl && (nl == [] || nl == "\n");
    ConSaltoSinGuion(numero, t, nl);
  }

  lemma ConSaltoSinGuion(numero: string, t: string, nl: string)
    requires CuerpoRut(t) && (nl == [] || nl == "\n") && numero == t + nl
    ensures Without(numero, '-') == t[..|t| - 2] + [t[|t| - 1]] + nl
  {
    CuerpoSinGuion(t);
    SinGuionNl(nl);
    WithoutAppend(t, nl, '-');
  }

  /** Within the pattern's span the only dash is the one before the check digit. */
  lemma CuerpoSinGuion(t: string)
    requires CuerpoRut(t)
    ensures Without(t, '-') == t[..|t| - 2] + [t[|t| - 1]]
  {
    var a, d := t[..|t| - 2], t[|t| - 1];
    CuerpoPartes(t);
    SinGuion(a);
    GuionAntesDe(a, d);
  }

  /** A body of the RUT format is its digits, the dash and a check digit other than the dash. */
  lemma CuerpoPartes(t: string)
    requires CuerpoRut(t)
    ensures t == t[..|t| - 2] + "-" + [t[|t| - 1]] && t[|t| - 1] != '-'
  {
    var a, d, cola := t[..|t| - 2], t[|t| - 1], t[|t| - 2..];
    assert t == a + cola;
    assert |cola| == 2 && cola[0] == '-' && cola[1] == d;
    assert cola == ['-', d];
  }

  /** Dropping the dashes from a dash-free text, a dash and one more character keeps the text and that character. */
  lemma GuionAntesDe(a: string, d: char)
    requires Without(a, '-') == a && d != '-'
    ensures Without(a + "-" + [d], '-') == a + [d]
  {
    SoloGuion();
    SinGuionUno(d);
    WithoutAppend(a, "-", '-');
    WithoutAppend(a + "-", [d], '-');
  }

  lemma SoloGuion()
    ensures Without("-", '-') == []
  {
    var d: string := ['-'];
    assert d[0] == '-' && d[1..] == [];
    assert "-" == d;
  }

  lemma SinGuionUno(c: char)
    requires c != '-'
    ensures Without([c], '-') == [c]
  {
    assert [c][1..] == [];
  }

  lemma SinGuionNl(nl: string)
    requires nl == [] || nl == "\n"
    ensures Without(nl, '-') == nl
  {
    if nl != [] {
      SinGuionUno('\n');
    }
  }

  lemma SinGuion(a: string)
    requires AllDigits(a)
    ensures Without(a, '-') == a
  {
    assert forall i :: 0 <= i < |a| ==> IsDigit(a[i]);
    WithoutNoOccurrence(a, '-');
  }

  /**
   * The RUT branch after the format check: the dashes are dropped, the
   * last character (upper-cased) is the given check digit and the rest the
   * body. A body character that is not a digit makes `int()` raise
   * ValueError; otherwise the given digit is compared with the expected
   * one, computed as written or, when `corregido`, as the scheme defines it.
   */
  function ValidarRut(numero: string, corregido: bool): Validacion
    requires FormatoRut(numero)
  {
    RutLargo(numero);
    CompararRut(Without(numero, '-'), corregido)
  }

  /** The RUT without its dash: the last character is the check digit, the rest the body. */
  function CompararRut(rut: string, corregido: bool): Validacion
    requires |rut| >= 1
  {
    var dv := UpperChar(rut[|rut| - 1]);
    var cuerpo := rut[..|rut| - 1];
    if !AllDigits(cuerpo) then Excepcion("ValueError")
    else Comparar(dv, Esperado(SumaRut(cuerpo), corregido))
  }

  lemma RutLargo(numero: string)
    requires FormatoRut(numero)
    ensures |Without(numero, '-')| >= 8
  {
    RutSinGuion(numero);
  }

  /** `validate_numero_documento` as written. */
  function ValidarDocumento(tipo: string, numero: string): (r: Validacion)
    ensures tipo != "1" && tipo != "2" ==> r == Valido
    ensures tipo == "2" ==> (r == Valido <==> FormatoPasaporte(numero)) && !r.Excepcion?
    ensures tipo == "1" && !FormatoRut(numero) ==> r == Invalido(MSG_FORMATO_RUT)
  {
    if tipo == "1" then
      if !FormatoRut(numero) then Invalido(MSG_FORMATO_RUT) else ValidarRut(numero, false)
    else if tipo == "2" then
      if FormatoPasaporte(numero) then Valido else Invalido(MSG_PASAPORTE)
    else Valido
  }

  /** The validator with the check digit of a sum divisible by 11 read as '0'. */
  function ValidarDocumentoCorregido(tipo: string, numero: string): (r: Validacion)
    ensures tipo != "1" ==> r == ValidarDocumento(tipo, numero)
    ensures tipo == "1" && !FormatoRut(numero) ==> r == Invalido(MSG_FORMATO_RUT)
  {
    if tipo == "1" then
      if !FormatoRut(numero) then Invalido(MSG_FORMATO_RUT) else ValidarRut(numero, true)
    else ValidarDocumento(tipo, numero)
  }

  /** The weight after `k` steps is the one before it, plus one, wrapping from 7 back to 2. */
  lemma PesoSiguiente(k: nat)
    ensures Peso(k + 1) == if Peso(k) < 7 then Peso(k) + 1 else 2
  {
    var q, r := k / 6, k % 6;
    assert k + 1 == 6 * q + (r + 1);
    if r < 5 {
      assert (k + 1) % 6 == r + 1;
    } else {
      assert k + 1 == 6 * (q + 1);
      assert (k + 1) % 6 == 0;
    }
  }

  /**
   * The digit loop of the validator: the body is read from its last
   * character, each digit multiplied by a weight that runs 2 … 7 and back
   * to 2. A character that is not a digit makes `int()` raise, given as
   * None.
   */
  method SumarCuerpo(cuerpo: string) returns (suma: Option<int>)
    ensures suma.None? <==> !AllDigits(cuerpo)
    ensures suma.Some? ==> suma.value == SumaRut(cuerpo)
  {
    var total := 0;
    var multiplo := 2;
    var i := 0;
    while i < |cuerpo|
      invariant 0 <= i <= |cuerpo|
      invariant multiplo == Peso(i)
      invariant total == SumaPonderada(cuerpo, i)
      invariant forall k :: |cuerpo| - i <= k < |cuerpo| ==> IsDigit(cuerpo[k])
    {
      var c := cuerpo[|cuerpo| - 1 - i];
      if !IsDigit(c) {
        return None;
      }
      total := total + Valor(c) * multiplo;
      PesoSiguiente(i);
      multiplo := if multiplo < 7 then multiplo + 1 else 2;
      i := i + 1;
    }
    return Some(total);
  }

  /** The validator as the form runs it. */
  method ValidarNumeroDocumento(tipo: string, numero: string) returns (r: Validacion)
    ensures r == ValidarDocumento(tipo, numero)
  {
    if tipo != "1" {
      if tipo == "2" && !FormatoPasaporte(numero) {
        return Invalido(MSG_PASAPORTE);
      }
      return Valido;
    }
    if !FormatoRut(numero) {
      return Invalido(MSG_FORMATO_RUT);
    }
    r := ValidarRutEscrito(numero);
  }

  /** The RUT branch of the validator once the format has matched: strip the dash, sum the body, compare the check digit. */
  method ValidarRutEscrito(numero: string) returns (r: Validacion)
    requires FormatoRut(numero)
    ensures r == ValidarRut(numero, false)
  {
    RutLargo(numero);
    var rut := Without(numero, '-');
    var dv := UpperChar(rut[|rut| - 1]);
    var cuerpo := rut[..|rut| - 1];
    var suma := SumarCuerpo(cuerpo);
    if suma.None? {
      return Excepcion("ValueError");
    }
    return Comparar(dv, DigitoEsperado(suma.value));
  }

  // ----- properties -----

  /**
   * A RUT written as body, dash and check digit has the RUT format, and the
   * validator compares that digit, upper-cased, with the one expected for
   * that body.
   */
  lemma {:induction false} RutPartes(cuerpo: string, c: char, corregido: bool)
    requires 7 <= |cuerpo| <= 8 && AllDigits(cuerpo) && EsDv(c)
    ensures FormatoRut(cuerpo + "-" + [c])
    ensures ValidarRut(cuerpo + "-" + [c], corregido) == Comparar(UpperChar(c), Esperado(SumaRut(cuerpo), corregido))
  {
    var numero := cuerpo + "-" + [c];
    assert SinSaltoFinal(numero) == numero;
    assert numero[..|numero| - 2] == cuerpo;
    RutSinGuion(numero);
    assert numero[|numero|..] == [];
    var rut := Without(numero, '-');
    assert rut == cuerpo + [c];
    assert rut[..|rut| - 1] == cuerpo;
  }

  /**
   * As written, a well-formed RUT makes the validator raise IndexError
   * exactly when its body's weighted sum is a multiple of 11; for every
   * other body it behaves as the scheme requires.
   */
  lemma EscritoFallaConRestoCero(cuerpo: string, c: char)
    requires 7 <= |cuerpo| <= 8 && AllDigits(cuerpo) && EsDv(c)
    ensures ValidarDocumento("1", cuerpo + "-" + [c]) == Excepcion("IndexError") <==> SumaRut(cuerpo) % 11 == 0
    ensures SumaRut(cuerpo) % 11 != 0 ==>
      ValidarDocumento("1", cuerpo + "-" + [c]) == ValidarDocumentoCorregido("1", cuerpo + "-" + [c])
  {
    RutPartes(cuerpo, c, false);
    RutPartes(cuerpo, c, true);
  }

  /**
   * The input that shows it: "10000004-0" has weighted sum 4·2 + 1·3 = 11,
   * so its check digit is '0', yet the validator raises IndexError.
   */
  lemma RutDigitoCeroFalla()
    ensures ValidarDocumento("1", "10000004-0") == Excepcion("IndexError")
    ensures ValidarDocumentoCorregido("1", "10000004-0") == Valido
  {
    SumaEjemplo();
    RutPartes("10000004", '0', false);
    RutPartes("10000004", '0', true);
    assert "10000004" + "-" + ['0'] == "10000004-0";
  }

  /** The weighted sum of the body "10000004", digit by digit from the right. */
  lemma SumaEjemplo()
    ensures SumaRut("10000004") == 11
  {
    var b := "10000004";
    assert b[7] == '4' && b[6] == '0' && b[5] == '0' && b[4] == '0' && b[3] == '0' && b[2] == '0' && b[1] == '0' && b[0] == '1';
    assert SumaPonderada(b, 1) == 8;
    assert SumaPonderada(b, 2) == 8;
    assert SumaPonderada(b, 3) == 8;
    assert SumaPonderada(b, 4) == 8;
    assert SumaPonderada(b, 5) == 8;
    assert SumaPonderada(b, 6) == 8;
    assert SumaPonderada(b, 7) == 8;
    assert SumaPonderada(b, 8) == 11;
  }

  /**
   * Corrected, a well-formed RUT is accepted exactly when its check digit,
   * upper-cased, is the scheme's digit for its body, and rejected with the
   * check-digit message otherwise; no exception escapes.
   */
  lemma CorregidoAceptaUnDigito(cuerpo: string, c: char)
    requires 7 <= |cuerpo| <= 8 && AllDigits(cuerpo) && EsDv(c)
    ensures var r := ValidarDocumentoCorregido("1", cuerpo + "-" + [c]);
      && (r == Valido <==> UpperChar(c) == DigitoEsperadoCorregido(SumaRut(cuerpo)))
      && (r != Valido ==> r == Invalido(MSG_DV))
  {
    RutPartes(cuerpo, c, true);
  }

  /** 'k' and 'K' are the same check digit. */
  lemma MinusculaK(cuerpo: string)
    requires 7 <= |cuerpo| <= 8 && AllDigits(cuerpo)
    ensures ValidarDocumento("1", cuerpo + "-k") == ValidarDocumento("1", cuerpo + "-K")
  {
    RutPartes(cuerpo, 'k', false);
    RutPartes(cuerpo, 'K', false);
    assert cuerpo + "-k" == cuerpo + "-" + ['k'];
    assert cuerpo + "-K" == cuerpo + "-" + ['K'];
  }

  /** Each body has exactly one accepted check digit up to the case of 'k'. */
  lemma CorregidoUnico(cuerpo: string, c: char, d: char)
    requires 7 <= |cuerpo| <= 8 && AllDigits(cuerpo) && EsDv(c) && EsDv(d)
    requires ValidarDocumentoCorregido("1", cuerpo + "-" + [c]) == Valido
    requires ValidarDocumentoCorregido("1", cuerpo + "-" + [d]) == Valido
    ensures UpperChar(c) == UpperChar(d)
  {
    CorregidoAceptaUnDigito(cuerpo, c);
    CorregidoAceptaUnDigito(cuerpo, d);
  }
}
