/**
 * The rules the create and edit answer callbacks apply to the user's four
 * answers (name, category, quantity, price), as pure functions. The store's
 * methods follow these rules step by step; the lemmas here state what the
 * rules guarantee.
 */
module Regras {
  import opened Wrappers
  import opened Texto
  import opened Numeros
  import opened Produtos

  /** `const [nome, categoria, quantidadeStr, precoStr] = respostas`: the raw, untrimmed answers. */
  datatype Respostas = Respostas(nome: string, categoria: string, quantidade: string, preco: string)

  /* ---------- Create ---------- */

  /** Why a create is rejected: a blank name or category, or a quantity or price that is `NaN` or not above zero. */
  datatype ErroCadastro = CamposObrigatorios | NumerosInvalidos

  /** `!isNaN(x) && x > 0` for `x = Number(...)`. */
  predicate Positivo(x: Option<real>)
  {
    x.Some? && x.value > 0.0
  }

  /**
   * The checks of the create callback, in their order: the numbers are only
   * judged once the name and category are present, and an accepted answer
   * has two numbers.
   */
  function ErroDeCadastro(a: Respostas): (r: Option<ErroCadastro>)
    ensures r == Some(NumerosInvalidos) ==> Trim(a.nome) != [] && Trim(a.categoria) != []
    ensures r.None? ==> Numero(a.quantidade).Some? && Numero(a.preco).Some?
  {
    if Trim(a.nome) == [] || Trim(a.categoria) == [] then Some(CamposObrigatorios)
    else if !Positivo(Numero(a.quantidade)) || !Positivo(Numero(a.preco)) then Some(NumerosInvalidos)
    else None
  }

  /** `new Produto(nome, categoria, quantidade, preco)` with the id `uuid()` gave: text kept as typed, numbers converted. */
  function Cadastrado(id: Id, a: Respostas): (p: Produto)
    requires ErroDeCadastro(a).None?
    ensures BemFormado(p) && p.quantidade > 0.0 && p.preco > 0.0
    ensures p.id == id && p.nome == a.nome && p.categoria == a.categoria
    ensures Numero(a.quantidade) == Some(p.quantidade) && Numero(a.preco) == Some(p.preco)
  {
    Produto(id, a.nome, a.categoria, Numero(a.quantidade).value, Numero(a.preco).value)
  }

  /** A create goes through exactly when the name and category are not blank and both numbers are above zero. */
  lemma {:induction false} CadastroAceitoSse(a: Respostas)
    ensures ErroDeCadastro(a).None? <==>
      !EmBranco(a.nome) && !EmBranco(a.categoria) && Positivo(Numero(a.quantidade)) && Positivo(Numero(a.preco))
  {
    TrimVazioSseEmBranco(a.nome);
    TrimVazioSseEmBranco(a.categoria);
  }

  /**
   * Rejections of the create callback: quantity 0, price -5, an empty name,
   * a category of spaces; and an empty quantity, which `Number` reads as 0.
   */
  lemma {:induction false} RejeicoesDoCadastro(nome: string, categoria: string, q: string, p: string)
    requires !EmBranco(nome) && !EmBranco(categoria)
    ensures ErroDeCadastro(Respostas(nome, categoria, "0", p)) == Some(NumerosInvalidos)
    ensures ErroDeCadastro(Respostas(nome, categoria, q, "-5")) == Some(NumerosInvalidos)
    ensures ErroDeCadastro(Respostas(nome, categoria, "", p)) == Some(NumerosInvalidos)
    ensures ErroDeCadastro(Respostas("", categoria, q, p)) == Some(CamposObrigatorios)
    ensures ErroDeCadastro(Respostas(nome, "   ", q, p)) == Some(CamposObrigatorios)
  {
    TrimVazioSseEmBranco(nome);
    TrimVazioSseEmBranco(categoria);
    assert Trim("   ") == [] by { TrimVazioSseEmBranco("   "); }
    assert Trim("") == [] && Numero("") == Some(0.0) by { TrimVazioSseEmBranco(""); }
    assert Numero("0") == Some(0.0) by {
      NumeroDecimal(0);
      assert Decimal(0) == "0";
    }
    assert Numero("-5") == Some(-5.0) by {
      NumeroNegativo(5);
      assert "-" + Decimal(5) == "-5";
    }
  }

  /* ---------- Edit ---------- */

  /** A text answer replaces the field with its trimmed form when that is not empty and differs from the current value. */
  function TextoEditado(atual: string, resposta: string): (r: string)
    ensures r != atual ==> r == Trim(resposta) && r != [] && Trim(r) == r
  {
    TrimIdempotente(resposta);
    var t := Trim(resposta);
    if t != [] && t != atual then t else atual
  }

  /** A numeric answer that is not blank, converts, is at least zero and differs from the current value replaces it. */
  function NumeroEditado(atual: real, resposta: string): (r: real)
    ensures r != atual ==> Numero(resposta) == Some(r) && r >= 0.0
  {
    if Trim(resposta) != [] then
      match Numero(resposta)
      case Some(v) => if v >= 0.0 && v != atual then v else atual
      case None => atual
    else atual
  }

  /** The converse of `TextoEditado`'s contract: a non-blank answer is applied, trimmed; a blank one keeps the field. */
  lemma {:induction false} TextoEditadoAplica(atual: string, resposta: string)
    ensures Trim(resposta) != [] ==> TextoEditado(atual, resposta) == Trim(resposta)
    ensures Trim(resposta) == [] ==> TextoEditado(atual, resposta) == atual
  {
  }

  /**
   * The converse of `NumeroEditado`'s contract: a non-blank answer converting
   * to at least zero is applied; a blank answer, `NaN` or a negative number
   * keeps the field.
   */
  lemma {:induction false} NumeroEditadoAplica(atual: real, resposta: string)
    ensures Trim(resposta) != [] && Numero(resposta).Some? && Numero(resposta).value >= 0.0 ==>
      NumeroEditado(atual, resposta) == Numero(resposta).value
    ensures Trim(resposta) == [] || Numero(resposta).None? || Numero(resposta).value < 0.0 ==>
      NumeroEditado(atual, resposta) == atual
  {
  }

  /** A numeric answer that draws the "invalid, keeping the previous value" warning: typed, but `NaN` or negative. */
  predicate NumeroInvalido(resposta: string)
    ensures NumeroInvalido(resposta) ==> resposta != [] && Numero(resposta) != Some(0.0)
  {
    Trim(resposta) != [] && (Numero(resposta).None? || Numero(resposta).value < 0.0)
  }

  /** The record after the edit callback has applied each of the four answers on its own. */
  function Editado(p: Produto, a: Respostas): (r: Produto)
    ensures r.id == p.id
    ensures BemFormado(p) ==> BemFormado(r)
  {
    TrimIdempotente(a.nome);
    TrimIdempotente(a.categoria);
    p.(nome := TextoEditado(p.nome, a.nome),
       categoria := TextoEditado(p.categoria, a.categoria),
       quantidade := NumeroEditado(p.quantidade, a.quantidade),
       preco := NumeroEditado(p.preco, a.preco))
  }

  /** One entry of `alteracoes`: the field that changed and its new value. */
  datatype Alteracao = NovoNome(nome: string) | NovaCategoria(categoria: string) | NovaQuantidade(quantidade: real) | NovoPreco(preco: real)

  /** The fields whose invalid input is reported. */
  datatype Campo = Quantidade | Preco

  /** The change list: one entry per field in which `depois` differs from `antes`, in the order name, category, quantity, price. */
  function Diferencas(antes: Produto, depois: Produto): (r: seq<Alteracao>)
    ensures |r| <= 4
    ensures antes == depois ==> r == []
  {
    var d0: seq<Alteracao> := [];
    var d1 := if antes.nome != depois.nome then d0 + [NovoNome(depois.nome)] else d0;
    var d2 := if antes.categoria != depois.categoria then d1 + [NovaCategoria(depois.categoria)] else d1;
    var d3 := if antes.quantidade != depois.quantidade then d2 + [NovaQuantidade(depois.quantidade)] else d2;
    if antes.preco != depois.preco then d3 + [NovoPreco(depois.preco)] else d3
  }

  /** The warnings printed for the numeric answers, quantity first. */
  function Avisos(a: Respostas): (r: seq<Campo>)
    ensures |r| <= 2
    ensures Quantidade in r <==> NumeroInvalido(a.quantidade)
    ensures Preco in r <==> NumeroInvalido(a.preco)
  {
    var w0: seq<Campo> := [];
    var w1 := if NumeroInvalido(a.quantidade) then w0 + [Quantidade] else w0;
    if NumeroInvalido(a.preco) then w1 + [Preco] else w1
  }

  /** The position of a field in the fixed order name, category, quantity, price. */
  function Ordem(x: Alteracao): nat
  {
    match x
    case NovoNome(_) => 0
    case NovaCategoria(_) => 1
    case NovaQuantidade(_) => 2
    case NovoPreco(_) => 3
  }

  /** The change list names each field at most once, in the fixed field order. */
  lemma {:induction false} DiferencasOrdenadas(antes: Produto, depois: Produto)
    ensures var d := Diferencas(antes, depois);
      |d| <= 4 && forall i, j :: 0 <= i < j < |d| ==> Ordem(d[i]) < Ordem(d[j])
  {
  }

  /** Between two versions of one record the change list is empty exactly when nothing changed. */
  lemma {:induction false} DiferencasVaziasSseIguais(antes: Produto, depois: Produto)
    requires antes.id == depois.id
    ensures Diferencas(antes, depois) == [] <==> antes == depois
  {
  }

  /** Each entry of the change list carries the field's new value, which differs from the old one. */
  lemma {:induction false} DiferencasDescrevemMudancas(antes: Produto, depois: Produto, x: Alteracao)
    requires x in Diferencas(antes, depois)
    ensures x.NovoNome? ==> x.nome == depois.nome != antes.nome
    ensures x.NovaCategoria? ==> x.categoria == depois.categoria != antes.categoria
    ensures x.NovaQuantidade? ==> x.quantidade == depois.quantidade != antes.quantidade
    ensures x.NovoPreco? ==> x.preco == depois.preco != antes.preco
  {
  }

  /** Every field that changed has its entry in the change list, carrying the new value. */
  lemma {:induction false} DiferencasCompletas(antes: Produto, depois: Produto)
    ensures antes.nome != depois.nome ==> NovoNome(depois.nome) in Diferencas(antes, depois)
    ensures antes.categoria != depois.categoria ==> NovaCategoria(depois.categoria) in Diferencas(antes, depois)
    ensures antes.quantidade != depois.quantidade ==> NovaQuantidade(depois.quantidade) in Diferencas(antes, depois)
    ensures antes.preco != depois.preco ==> NovoPreco(depois.preco) in Diferencas(antes, depois)
  {
  }

  /**
   * Each field of the edited record on its own: the trimmed text answer when it
   * is not empty, the converted number when the answer is not blank and
   * converts to at least zero, and otherwise the field as it was.
   */
  lemma {:induction false} EditadoPorCampo(p: Produto, a: Respostas)
    ensures Editado(p, a).nome == (if Trim(a.nome) != [] then Trim(a.nome) else p.nome)
    ensures Editado(p, a).categoria == (if Trim(a.categoria) != [] then Trim(a.categoria) else p.categoria)
    ensures Editado(p, a).quantidade ==
      (if Trim(a.quantidade) != [] && Numero(a.quantidade).Some? && Numero(a.quantidade).value >= 0.0
       then Numero(a.quantidade).value else p.quantidade)
    ensures Editado(p, a).preco ==
      (if Trim(a.preco) != [] && Numero(a.preco).Some? && Numero(a.preco).value >= 0.0
       then Numero(a.preco).value else p.preco)
  {
  }

  /** Answering only "20" to the quantity question sets the quantity to 20 and changes nothing else. */
  lemma {:induction false} EdicaoQuantidadeVinte(p: Produto)
    ensures Editado(p, Respostas("", "", "20", "")) == p.(quantidade := 20.0)
  {
    assert Trim("") == [] by { TrimVazioSseEmBranco(""); }
    assert Digitos("20") == 20;
    NumeroDeDigitos("20");
    TrimDeDigitos("20");
  }

  /** The create promise: right after an accepted create, looking up the new id finds the new record. */
  lemma {:induction false} CadastradoEncontrado(rs: seq<Produto>, id: Id, a: Respostas)
    requires ErroDeCadastro(a).None? && id !in Ids(rs)
    ensures BuscarPorId(rs + [Cadastrado(id, a)], id) == Some(Cadastrado(id, a))
  {
    AcrescentadoEncontrado(rs, Cadastrado(id, a));
  }

  /** Four blank answers change nothing and warn about nothing. */
  lemma {:induction false} EdicaoEmBranco(p: Produto, a: Respostas)
    requires EmBranco(a.nome) && EmBranco(a.categoria) && EmBranco(a.quantidade) && EmBranco(a.preco)
    ensures Editado(p, a) == p
    ensures Diferencas(p, Editado(p, a)) == [] && Avisos(a) == []
  {
    TrimVazioSseEmBranco(a.nome);
    TrimVazioSseEmBranco(a.categoria);
    TrimVazioSseEmBranco(a.quantidade);
    TrimVazioSseEmBranco(a.preco);
  }

  /** Answering only the quantity touches only the quantity. */
  lemma {:induction false} EdicaoSoQuantidade(p: Produto, a: Respostas)
    requires EmBranco(a.nome) && EmBranco(a.categoria) && EmBranco(a.preco)
    ensures Editado(p, a) == p.(quantidade := NumeroEditado(p.quantidade, a.quantidade))
  {
    TrimVazioSseEmBranco(a.nome);
    TrimVazioSseEmBranco(a.categoria);
    TrimVazioSseEmBranco(a.preco);
  }

  /**
   * An invalid quantity is ignored exactly as a blank one would be, and an
   * invalid price likewise, while the other answers of the same edit still apply.
   */
  lemma {:induction false} NumeroInvalidoIgnorado(p: Produto, a: Respostas)
    ensures NumeroInvalido(a.quantidade) ==> Editado(p, a) == Editado(p, a.(quantidade := ""))
    ensures NumeroInvalido(a.preco) ==> Editado(p, a) == Editado(p, a.(preco := ""))
  {
    TrimVazioSseEmBranco("");
  }

  /** Repeating an edit with the same answers changes nothing more. */
  lemma {:induction false} EdicaoIdempotente(p: Produto, a: Respostas)
    ensures Editado(Editado(p, a), a) == Editado(p, a)
    ensures Diferencas(Editado(p, a), Editado(Editado(p, a), a)) == []
  {
  }
}
