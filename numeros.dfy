/**
 * JavaScript's `Number(str)` conversion, as the store uses it on the quantity
 * and price answers. `None` stands for `NaN` (what `isNaN` detects); a number is
 * a mathematical real, so the double-precision rounding of the source is not
 * part of this model.
 *
 * The accepted syntax is ECMAScript's StringNumericLiteral restricted to decimal
 * notation: surrounding white space (the same set `trim` removes), an optional
 * sign, digits with an optional fraction (`5`, `5.`, `.5`, `5.50`) and an
 * optional exponent (`1e3`, `2.5E-1`). A string holding only white space
 * converts to 0.
 */
module Numeros {
  import opened Wrappers
  import opened Texto

  predicate EhDigito(c: char)
  {
    '0' <= c <= '9'
  }

  predicate SoDigitos(s: string)
  {
    forall i :: 0 <= i < |s| ==> EhDigito(s[i])
  }

  function ValorDigito(c: char): nat
    requires EhDigito(c)
  {
    c as int - '0' as int
  }

  function Digito(d: nat): (c: char)
    requires d < 10
    ensures EhDigito(c) && ValorDigito(c) == d
  {
    ('0' as int + d) as char
  }

  /** The value of a string of decimal digits, most significant first (0 for the empty string). */
  function Digitos(s: string): nat
    requires SoDigitos(s)
  {
    if s == [] then 0 else Digitos(s[..|s| - 1]) * 10 + ValorDigito(s[|s| - 1])
  }

  /** The index of the first occurrence of `a` or `b` in `s`, or `|s|` when neither occurs. */
  function Posicao(s: string, a: char, b: char): (r: nat)
    ensures r <= |s|
    ensures forall i :: 0 <= i < r ==> s[i] != a && s[i] != b
    ensures r < |s| ==> s[r] == a || s[r] == b
  {
    if s == [] then 0
    else if s[0] == a || s[0] == b then 0
    else 1 + Posicao(s[1..], a, b)
  }

  /** The digits before and after the decimal point: `5`, `5.`, `.5` and `5.50`, never `.` alone. */
  function Mantissa(m: string): Option<real>
  {
    var p := Posicao(m, '.', '.');
    var inteira := m[..p];
    var fracao := if p < |m| then m[p + 1..] else [];
    if SoDigitos(inteira) && SoDigitos(fracao) && |inteira| + |fracao| > 0 then
      Some(Digitos(inteira) as real + Fracao(fracao))
    else
      None
  }

  /** The exponent after `e` or `E`: an optional sign followed by at least one digit. */
  function Expoente(e: string): Option<int>
  {
    var sinal := if e != [] && e[0] == '-' then -1 else 1;
    var ds := if e != [] && (e[0] == '-' || e[0] == '+') then e[1..] else e;
    if ds != [] && SoDigitos(ds) then Some(sinal * Digitos(ds)) else None
  }

  /** The value of the digits after the decimal point: `Fracao("50") == 0.5`. */
  function Fracao(s: string): real
    requires SoDigitos(s)
  {
    if s == [] then 0.0 else (ValorDigito(s[0]) as real + Fracao(s[1..])) / 10.0
  }

  /** `v` times ten to the power `e`. */
  function Escala(v: real, e: int): real
    decreases if e < 0 then -e else e
  {
    if e == 0 then v
    else if e > 0 then Escala(v * 10.0, e - 1)
    else Escala(v / 10.0, e + 1)
  }

  /** An unsigned decimal literal: a mantissa, optionally followed by an exponent. */
  function SemSinal(u: string): Option<real>
  {
    var k := Posicao(u, 'e', 'E');
    var m := Mantissa(u[..k]);
    if k == |u| then m
    else match (m, Expoente(u[k + 1..]))
      case (Some(v), Some(e)) => Some(Escala(v, e))
      case _ => None
  }

  /** The number a trimmed, non-empty text denotes: an optional sign before an unsigned literal. */
  function ConverterAparado(t: string): Option<real>
  {
    if t != [] && t[0] == '-' then
      match SemSinal(t[1..])
      case Some(v) => Some(-v)
      case None => None
    else if t != [] && t[0] == '+' then SemSinal(t[1..])
    else SemSinal(t)
  }

  /** `Number(s)`; `None` is `NaN`. Blank text converts to 0, not to `NaN`. */
  function Numero(s: string): (r: Option<real>)
    ensures EmBranco(s) ==> r == Some(0.0)
  {
    TrimVazioSseEmBranco(s);
    var t := Trim(s);
    if t == [] then Some(0.0) else ConverterAparado(t)
  }

  /** The canonical decimal rendering of a natural number, as `String(n)` writes it. */
  function Decimal(n: nat): (s: string)
    ensures s != [] && SoDigitos(s)
  {
    if n < 10 then [Digito(n)] else Decimal(n / 10) + [Digito(n % 10)]
  }

  /** Reading back the digits `Decimal` writes gives the number it started from. */
  lemma {:induction false} DigitosDecimal(n: nat)
    ensures Digitos(Decimal(n)) == n
  {
    var s := Decimal(n);
    if n >= 10 {
      DigitosDecimal(n / 10);
      assert s[..|s| - 1] == Decimal(n / 10);
    } else {
      assert s[..0] == [];
    }
  }

  /** Neither the exponent marker nor the decimal point occurs in a string of digits. */
  lemma PosicaoEmDigitos(s: string, a: char, b: char)
    requires SoDigitos(s) && !EhDigito(a) && !EhDigito(b)
    ensures Posicao(s, a, b) == |s|
  {
  }

  /** A string of digits has no white space at either end, so `trim` leaves it alone. */
  lemma {:induction false} TrimDeDigitos(s: string)
    requires s != [] && SoDigitos(s)
    ensures Trim(s) == s
  {
    assert !EhEspaco(s[0]) && !EhEspaco(s[|s| - 1]);
    TrimDeAparado(s);
  }

  /** A string of digits is a mantissa without a fraction. */
  lemma {:induction false} MantissaDeDigitos(s: string)
    requires s != [] && SoDigitos(s)
    ensures Mantissa(s) == Some(Digitos(s) as real)
  {
    PosicaoEmDigitos(s, '.', '.');
    assert s[..|s|] == s;
  }

  /** A string of digits is an unsigned literal without an exponent. */
  lemma {:induction false} SemSinalDeDigitos(s: string)
    requires s != [] && SoDigitos(s)
    ensures SemSinal(s) == Some(Digitos(s) as real)
  {
    PosicaoEmDigitos(s, 'e', 'E');
    assert s[..|s|] == s;
    MantissaDeDigitos(s);
  }

  /** A string made only of digits converts to the number those digits spell. */
  lemma {:induction false} NumeroDeDigitos(s: string)
    requires s != [] && SoDigitos(s)
    ensures Numero(s) == Some(Digitos(s) as real)
  {
    TrimDeDigitos(s);
    assert EhDigito(s[0]);
    SemSinalDeDigitos(s);
  }

  /** Round trip: `Number(String(n)) === n` for every natural number. */
  lemma {:induction false} NumeroDecimal(n: nat)
    ensures Numero(Decimal(n)) == Some(n as real)
  {
    DigitosDecimal(n);
    NumeroDeDigitos(Decimal(n));
  }

  /** A minus sign in front of the digits negates the number: `Number("-5") === -5`. */
  lemma {:induction false} NumeroNegativo(n: nat)
    ensures Numero("-" + Decimal(n)) == Some(-(n as real))
  {
    var d := Decimal(n);
    var s := "-" + d;
    DigitosDecimal(n);
    SemSinalDeDigitos(d);
    assert s[1..] == d;
    assert ConverterAparado(s) == Some(-(n as real));
    assert s[|s| - 1] == d[|d| - 1] && EhDigito(d[|d| - 1]);
    TrimDeAparado(s);
  }

  /** White space around the text does not change the number it converts to. */
  lemma {:induction false} NumeroIgnoraEspacos(s: string)
    ensures Numero(s) == Numero(Trim(s))
  {
    TrimIdempotente(s);
  }
}
