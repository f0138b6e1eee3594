/**
 * The in-memory record store: the module-level array `registros` and the
 * operations that change it (create, edit, confirmed delete, export), each
 * followed by `salvarDados()` exactly where the source calls it.
 *
 * The durable file is not modelled as bytes: `gravacoes` lists, in order, the
 * collection each `salvarDados()` call wrote, and `exportacoes` the collection
 * each export wrote to its own file.
 */
module Estoque {
  import opened Wrappers
  import opened Texto
  import opened Numeros
  import opened Produtos
  import opened Regras

  /** The outcome of the create callback. */
  datatype Cadastro = Criado(produto: Produto) | Rejeitado(erro: ErroCadastro)

  /** The outcome of an edit: the id matched nothing, or the ordered change list and the warnings printed. */
  datatype ResultadoEdicao = ProdutoNaoEncontrado | Aplicada(alteracoes: seq<Alteracao>, avisos: seq<Campo>)

  /** The outcome of a delete: the id matched nothing, the user did not confirm, or the record removed. */
  datatype ResultadoExclusao = IdNaoEncontrado | Cancelada | Excluido(produto: Produto)

  /** What the store holds at one moment: the collection, the writes of the file and the exports. */
  datatype Estado = Estado(registros: seq<Produto>, gravacoes: seq<seq<Produto>>, exportacoes: seq<seq<Produto>>)

  function Ultima(gs: seq<seq<Produto>>): seq<Produto>
    requires gs != []
  {
    gs[|gs| - 1]
  }

  /** One text answer of the edit: its trimmed form, when not empty and different, replaces the field. */
  method AplicarTexto(atual: string, resposta: string) returns (novo: string)
    ensures novo == TextoEditado(atual, resposta)
    ensures novo != atual ==> novo == Trim(resposta) && novo != []
  {
    novo := Trim(resposta);
    if novo == [] || novo == atual {
      novo := atual;
    }
  }

  /**
   * One numeric answer of the edit: a blank answer keeps the field; a number at
   * least zero and different replaces it; `NaN` or a negative number keeps it
   * and is reported.
   */
  method AplicarNumero(atual: real, resposta: string) returns (novo: real, invalido: bool)
    ensures novo == NumeroEditado(atual, resposta)
    ensures invalido == NumeroInvalido(resposta)
    ensures invalido ==> novo == atual
  {
    novo := atual;
    invalido := false;
    if Trim(resposta) != [] {
      var valor := Numero(resposta);
      if valor.Some? && valor.value >= 0.0 && valor.value != atual {
        novo := valor.value;
      } else if valor.None? || valor.value < 0.0 {
        invalido := true;
      }
    }
  }

  /**
   * The four answers applied to one record, field by field in the order name,
   * category, quantity, price: each applied change is pushed onto the change
   * list, each rejected number onto the warnings.
   */
  method AplicarRespostas(p: Produto, a: Respostas) returns (novo: Produto, alteracoes: seq<Alteracao>, avisos: seq<Campo>)
    ensures novo == Editado(p, a)
    ensures alteracoes == Diferencas(p, novo)
    ensures avisos == Avisos(a)
  {
    novo := p;
    alteracoes := [];
    avisos := [];

    var nome := AplicarTexto(novo.nome, a.nome);
    if nome != novo.nome {
      novo := novo.(nome := nome);
      alteracoes := alteracoes + [NovoNome(novo.nome)];
    }

    var categoria := AplicarTexto(novo.categoria, a.categoria);
    if categoria != novo.categoria {
      novo := novo.(categoria := categoria);
      alteracoes := alteracoes + [NovaCategoria(novo.categoria)];
    }
    assert novo == p.(nome := TextoEditado(p.nome, a.nome), categoria := TextoEditado(p.categoria, a.categoria));

    var quantidade, quantidadeInvalida := AplicarNumero(novo.quantidade, a.quantidade);
    if quantidade != novo.quantidade {
      novo := novo.(quantidade := quantidade);
      alteracoes := alteracoes + [NovaQuantidade(novo.quantidade)];
    }
    if quantidadeInvalida {
      avisos := avisos + [Quantidade];
    }

    var preco, precoInvalido := AplicarNumero(novo.preco, a.preco);
    if preco != novo.preco {
      novo := novo.(preco := preco);
      alteracoes := alteracoes + [NovoPreco(novo.preco)];
    }
    if precoInvalido {
      avisos := avisos + [Preco];
    }
    assert novo == Editado(p, a);
  }

  class Loja {
    /** What `carregarDados()` put in `registros` at start-up. */
    const carregados: seq<Produto>
    /** The products, in insertion order. */
    var registros: seq<Produto>
    /** The collection written by each `salvarDados()` call, oldest first. */
    var gravacoes: seq<seq<Produto>>
    /** The collection written by each export, oldest first. */
    var exportacoes: seq<seq<Produto>>

    /**
     * Write-through: the store's last write is the collection in memory, or,
     * before anything has been written, the collection is still what was loaded.
     */
    ghost predicate Sincronizada()
      reads this
    {
      registros == if gravacoes == [] then carregados else Ultima(gravacoes)
    }

    function Atual(): Estado
      reads this
    {
      Estado(registros, gravacoes, exportacoes)
    }

    /** Nothing in the store changed: the collection, the file and the exports are as they were. */
    twostate predicate Intacta()
      reads this
    {
      registros == old(registros) && gravacoes == old(gravacoes) && exportacoes == old(exportacoes)
    }

    /** `carregarDados()`: the parsed file, or an empty collection when it is absent or unreadable. */
    constructor (arquivo: Option<seq<Produto>>)
      ensures registros == carregados == (if arquivo.Some? then arquivo.value else [])
      ensures gravacoes == [] && exportacoes == []
      ensures Sincronizada()
    {
      carregados := if arquivo.Some? then arquivo.value else [];
      registros := if arquivo.Some? then arquivo.value else [];
      gravacoes := [];
      exportacoes := [];
    }

    /** `salvarDados()`: writes the whole collection over the file. */
    method Salvar()
      modifies this
      ensures registros == old(registros) && exportacoes == old(exportacoes)
      ensures gravacoes == old(gravacoes) + [registros]
      ensures Sincronizada()
    {
      gravacoes := gravacoes + [registros];
    }

    /**
     * The answer callback of `cadastrarProduto`: rejects blank text and numbers
     * that are `NaN` or not above zero without touching anything; otherwise
     * appends the new record and saves once.
     */
    method Cadastrar(a: Respostas, novoId: Id) returns (r: Cadastro)
      requires Sincronizada()
      requires novoId !in Ids(registros)
      modifies this
      ensures Sincronizada() && exportacoes == old(exportacoes)
      ensures ErroDeCadastro(a).Some? ==>
        r == Rejeitado(ErroDeCadastro(a).value) && Intacta()
      ensures ErroDeCadastro(a).None? ==>
        && r == Criado(Cadastrado(novoId, a))
        && registros == old(registros) + [r.produto]
        && gravacoes == old(gravacoes) + [registros]
      ensures Ids(registros) <= Ids(old(registros)) + {novoId}
      ensures Consistente(old(registros)) ==> Consistente(registros)
    {
      var quantidade := Numero(a.quantidade);
      var preco := Numero(a.preco);
      if Trim(a.nome) == [] || Trim(a.categoria) == [] {
        return Rejeitado(CamposObrigatorios);
      }
      if quantidade.None? || quantidade.value <= 0.0 || preco.None? || preco.value <= 0.0 {
        return Rejeitado(NumerosInvalidos);
      }
      var produto := Produto(novoId, a.nome, a.categoria, quantidade.value, preco.value);
      Acrescentar(produto);
      r := Criado(produto);
    }

    /** `registros.push(produto); salvarDados();` */
    method Acrescentar(produto: Produto)
      requires Sincronizada()
      modifies this
      ensures Sincronizada() && exportacoes == old(exportacoes)
      ensures registros == old(registros) + [produto] && gravacoes == old(gravacoes) + [registros]
      ensures Ids(registros) == Ids(old(registros)) + {produto.id}
      ensures Consistente(old(registros)) && BemFormado(produto) && produto.id !in Ids(old(registros)) ==>
        Consistente(registros)
    {
      AcrescentarIds(registros, produto);
      if Consistente(registros) && BemFormado(produto) && produto.id !in Ids(registros) {
        AcrescentarConsistente(registros, produto);
      }
      registros := registros + [produto];
      Salvar();
    }

    /**
     * The answer callback of `editarProdutoPorId`: each answer is applied to
     * its own field, every applied change is pushed onto the change list, an
     * invalid number is reported and skipped, and the store saves only when the
     * list is not empty.
     */
    method Editar(id: Id, a: Respostas) returns (r: ResultadoEdicao)
      requires Sincronizada()
      modifies this
      ensures Sincronizada() && exportacoes == old(exportacoes)
      ensures IndiceDe(old(registros), id).None? ==>
        r == ProdutoNaoEncontrado && Intacta()
      ensures IndiceDe(old(registros), id).Some? ==>
        var i := IndiceDe(old(registros), id).value;
        var depois := Editado(old(registros)[i], a);
        && registros == old(registros)[i := depois]
        && r == Aplicada(Diferencas(old(registros)[i], depois), Avisos(a))
        && gravacoes == (if r.alteracoes == [] then old(gravacoes) else old(gravacoes) + [registros])
      ensures r.Aplicada? && r.alteracoes == [] ==> registros == old(registros)
      ensures Ids(registros) == Ids(old(registros))
      ensures Consistente(old(registros)) ==> Consistente(registros)
    {
      var indice := IndiceDe(registros, id);
      if indice.None? {
        return ProdutoNaoEncontrado;
      }
      var i := indice.value;
      var produto, alteracoes, avisos := AplicarRespostas(registros[i], a);
      DiferencasVaziasSseIguais(registros[i], produto);
      SubstituirConsistente(registros, i, produto);
      registros := registros[i := produto];
      if |alteracoes| > 0 {
        Salvar();
      }
      r := Aplicada(alteracoes, avisos);
    }

    /**
     * The confirmation callback of `excluirProduto`: with the id found and the
     * answer lowering to "s", `findIndex` and `splice(index, 1)` remove that
     * record and the store saves; otherwise nothing changes.
     */
    method Excluir(id: Id, confirmacao: string) returns (r: ResultadoExclusao)
      requires Sincronizada()
      modifies this
      ensures Sincronizada() && exportacoes == old(exportacoes)
      ensures IndiceDe(old(registros), id).None? ==>
        r == IdNaoEncontrado && Intacta()
      ensures IndiceDe(old(registros), id).Some? && Minusculas(confirmacao) != "s" ==>
        r == Cancelada && Intacta()
      ensures IndiceDe(old(registros), id).Some? && Minusculas(confirmacao) == "s" ==>
        var i := IndiceDe(old(registros), id).value;
        && r == Excluido(old(registros)[i])
        && registros == Remover(old(registros), i)
        && gravacoes == old(gravacoes) + [registros]
      ensures Ids(registros) <= Ids(old(registros))
      ensures Consistente(old(registros)) ==> Consistente(registros)
    {
      var produto := BuscarPorId(registros, id);
      if produto.None? {
        return IdNaoEncontrado;
      }
      if Minusculas(confirmacao) == "s" {
        var indice := IndiceDe(registros, id);
        var i := indice.value;
        BuscaNoIndice(registros, id);
        var removido := registros[i];
        if IdsUnicos(registros) {
          RemoverIds(registros, i);
        } else {
          RemoverSubconjunto(registros, i);
        }
        if Consistente(registros) {
          RemoverConsistente(registros, i);
        }
        registros := Remover(registros, i);
        Salvar();
        r := Excluido(removido);
      } else {
        r := Cancelada;
      }
    }

    /** `exportarDados()`: with products to export, one more file holding the whole collection; the store file is untouched. */
    method Exportar() returns (exportou: bool)
      requires Sincronizada()
      modifies this
      ensures Sincronizada()
      ensures registros == old(registros) && gravacoes == old(gravacoes)
      ensures exportou == (registros != [])
      ensures exportacoes == if exportou then old(exportacoes) + [registros] else old(exportacoes)
    {
      if registros == [] {
        return false;
      }
      exportacoes := exportacoes + [registros];
      exportou := true;
    }
  }
}
