/**
 * The `readline` interface: the prompts written to the terminal and the lines
 * the user has yet to type. `rl.question` writes a prompt and hands the next
 * line to its callback; when the input is exhausted the callback never runs,
 * which the model reports as `None`.
 */
module Leitura {
  import opened Wrappers

  /** `s` is what remains of the input `t` after some lines were consumed from its front. */
  predicate Sufixo(s: seq<string>, t: seq<string>)
  {
    |s| <= |t| && s == t[|t| - |s|..]
  }

  /** What remains after two rounds of reading is what remains of the original input. */
  lemma SufixoTransitivo(s: seq<string>, t: seq<string>, u: seq<string>)
    requires Sufixo(s, t) && Sufixo(t, u)
    ensures Sufixo(s, u)
  {
    assert t[|t| - |s|..] == u[|u| - |s|..];
  }

  class Terminal {
    /** The lines still to be typed, in order. */
    var entrada: seq<string>
    /** Every prompt written so far, oldest first. */
    var perguntas: seq<string>

    constructor (linhas: seq<string>)
      ensures entrada == linhas && perguntas == []
    {
      entrada := linhas;
      perguntas := [];
    }

    /** `rl.question(pergunta, callback)`: writes the prompt and consumes one line. */
    method Perguntar(pergunta: string) returns (r: Option<string>)
      modifies this
      ensures perguntas == old(perguntas) + [pergunta]
      ensures old(entrada) == [] ==> r == None && entrada == []
      ensures old(entrada) != [] ==> r == Some(old(entrada)[0]) && entrada == old(entrada)[1..]
    {
      perguntas := perguntas + [pergunta];
      if entrada == [] {
        return None;
      }
      r := Some(entrada[0]);
      entrada := entrada[1..];
    }

    /**
     * `fazerPerguntas`: asks the questions one at a time, each only after the
     * previous one was answered, and delivers the answers in question order,
     * one per question. When the input runs out first, the callback is never
     * called and the remaining questions are never asked.
     */
    method FazerPerguntas(questoes: seq<string>) returns (r: Option<seq<string>>)
      modifies this
      ensures |questoes| <= |old(entrada)| ==>
        && r == Some(old(entrada)[..|questoes|])
        && entrada == old(entrada)[|questoes|..]
        && perguntas == old(perguntas) + questoes
      ensures |questoes| > |old(entrada)| ==>
        && r == None
        && entrada == []
        && perguntas == old(perguntas) + questoes[..|old(entrada)| + 1]
      ensures r.Some? ==> |r.value| == |questoes|
    {
      var respostas: seq<string> := [];
      var indice := 0;
      while indice < |questoes|
        invariant 0 <= indice <= |questoes|
        invariant indice <= |old(entrada)|
        invariant respostas == old(entrada)[..indice]
        invariant entrada == old(entrada)[indice..]
        invariant perguntas == old(perguntas) + questoes[..indice]
      {
        var resposta := Perguntar(questoes[indice]);
        if resposta.None? {
          assert questoes[..indice + 1] == questoes[..indice] + [questoes[indice]];
          return None;
        }
        respostas := respostas + [resposta.value];
        assert questoes[..indice + 1] == questoes[..indice] + [questoes[indice]];
        indice := indice + 1;
      }
      assert questoes[..indice] == questoes;
      r := Some(respostas);
    }
  }
}
