/**
 * The two JavaScript string operations the product store relies on:
 * `String.prototype.trim` (used to validate and normalise the user's answers)
 * and `String.prototype.toLowerCase` (used by the category filter, the delete
 * confirmation and the "listar" keyword).
 */
module Texto {

  /** The characters `trim` removes: ECMAScript WhiteSpace and LineTerminator. */
  predicate EhEspaco(c: char)
  {
    || c == '\t' || c == '\n' || c == '\U{000B}' || c == '\U{000C}' || c == '\r'
    || c == ' ' || c == '\U{00A0}' || c == '\U{1680}'
    || ('\U{2000}' <= c <= '\U{200A}')
    || c == '\U{2028}' || c == '\U{2029}' || c == '\U{202F}' || c == '\U{205F}'
    || c == '\U{3000}' || c == '\U{FEFF}'
  }

  /** Every character of `s` is white space (also true of the empty string). */
  predicate EmBranco(s: string)
  {
    forall i :: 0 <= i < |s| ==> EhEspaco(s[i])
  }

  /** Drops the leading white space: the result is the suffix of `s` that starts at its first non-space. */
  function TrimInicio(s: string): (r: string)
    ensures |r| <= |s| && forall i :: 0 <= i < |r| ==> r[i] == s[|s| - |r| + i]
    ensures r != [] ==> !EhEspaco(r[0])
  {
    if s != [] && EhEspaco(s[0]) then TrimInicio(s[1..]) else s
  }

  /** Drops the trailing white space: the result is the prefix of `s` that ends at its last non-space. */
  function TrimFim(s: string): (r: string)
    ensures |r| <= |s| && forall i :: 0 <= i < |r| ==> r[i] == s[i]
    ensures r != [] ==> !EhEspaco(r[|r| - 1])
  {
    if s != [] && EhEspaco(s[|s| - 1]) then TrimFim(s[..|s| - 1]) else s
  }

  /** `s.trim()`: never longer than `s`, and neither starts nor ends with white space. */
  function Trim(s: string): (r: string)
    ensures |r| <= |s|
    ensures r != [] ==> !EhEspaco(r[0]) && !EhEspaco(r[|r| - 1])
  {
    var a := TrimInicio(s);
    var t := TrimFim(a);
    assert t != [] ==> t[0] == a[0];
    t
  }

  /** What `TrimInicio` drops is white space. */
  lemma {:induction false} TrimInicioDescartaEspacos(s: string)
    ensures EmBranco(s[..|s| - |TrimInicio(s)|])
  {
    if s != [] && EhEspaco(s[0]) {
      TrimInicioDescartaEspacos(s[1..]);
      var k := |s| - |TrimInicio(s)|;
      forall i | 0 <= i < k ensures EhEspaco(s[i]) {
        if i > 0 {
          assert s[i] == s[1..][..k - 1][i - 1];
        }
      }
    }
  }

  /** What `TrimFim` drops is white space. */
  lemma {:induction false} TrimFimDescartaEspacos(s: string)
    ensures EmBranco(s[|TrimFim(s)|..])
  {
    if s != [] && EhEspaco(s[|s| - 1]) {
      var p := s[..|s| - 1];
      TrimFimDescartaEspacos(p);
      var k := |TrimFim(s)|;
      forall i | k <= i < |s| ensures EhEspaco(s[i]) {
        if i < |s| - 1 {
          assert s[i] == p[k..][i - k];
        }
      }
    }
  }

  /** `s.trim()` is empty exactly when `s` holds nothing but white space. */
  lemma {:induction false} TrimVazioSseEmBranco(s: string)
    ensures Trim(s) == [] <==> EmBranco(s)
  {
    var a := TrimInicio(s);
    if Trim(s) == [] {
      TrimInicioDescartaEspacos(s);
      TrimFimDescartaEspacos(a);
      assert a[0..] == a;
      assert s[..|s|] == s;
    }
  }

  /** A text that starts and ends with something other than white space is already trimmed. */
  lemma {:induction false} TrimDeAparado(s: string)
    requires s != [] && !EhEspaco(s[0]) && !EhEspaco(s[|s| - 1])
    ensures Trim(s) == s
  {
    assert TrimInicio(s) == s;
  }

  /** Trimming twice is trimming once. */
  lemma {:induction false} TrimIdempotente(s: string)
    ensures Trim(Trim(s)) == Trim(s)
  {
    var t := Trim(s);
    if t != [] {
      TrimDeAparado(t);
    }
  }

  /** Whether `toLowerCase` changes `c`: the Latin letters A-Z and the Latin-1 capitals except the multiplication sign. */
  predicate EhMaiuscula(c: char)
  {
    ('A' <= c <= 'Z') || ('\U{00C0}' <= c <= '\U{00DE}' && c != '\U{00D7}')
  }

  /** `toLowerCase` on one character. */
  function Minuscula(c: char): char
  {
    if EhMaiuscula(c) then (c as int + 32) as char else c
  }

  /** `s.toLowerCase()`: the same length, each character lowered on its own. */
  function Minusculas(s: string): (r: string)
    ensures |r| == |s|
    ensures forall i :: 0 <= i < |s| ==> r[i] == Minuscula(s[i])
  {
    if s == [] then [] else [Minuscula(s[0])] + Minusculas(s[1..])
  }

  /** A lowered string has no capitals left, so lowering it again changes nothing. */
  lemma {:induction false} MinusculasIdempotente(s: string)
    ensures Minusculas(Minusculas(s)) == Minusculas(s)
  {
    var l := Minusculas(s);
    forall i | 0 <= i < |l| ensures Minuscula(l[i]) == l[i] {
      assert !EhMaiuscula(l[i]);
    }
  }

  /** The delete confirmation `confirmacao.toLowerCase() === "s"` accepts exactly "s" and "S". */
  lemma {:induction false} ConfirmacaoAceita(c: string)
    ensures Minusculas(c) == "s" <==> c == "s" || c == "S"
  {
    if Minusculas(c) == "s" {
      assert |c| == 1 && Minuscula(c[0]) == 's';
      assert c == [c[0]];
    }
    if c == "S" {
      assert Minusculas(c)[0] == 's';
    }
  }
}
