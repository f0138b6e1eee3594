/**
 * The interactive menu: `mostrarMenu` reads an option, the `switch` dispatches
 * it, each operation asks its questions, and every path except "0" ends with
 * `mostrarMenuAposPausa`, which waits for Enter and shows the menu again.
 *
 * One pass through the menu is a round (`Rodada`); `Executar` repeats rounds
 * until the user chooses "0" or the input runs out. What the program prints is
 * summarised by the round's `Evento`.
 */
module Menu {
  import opened Wrappers
  import opened Texto
  import opened Produtos
  import opened Regras
  import opened Estoque
  import opened Leitura
  import opened Opcoes

  const PerguntaOpcao := "Escolha uma opção: "
  const PerguntaPausa := "\n↵ Pressione Enter para continuar..."
  const PerguntasCadastro := ["Nome: ", "Categoria: ", "Quantidade: ", "Preço: "]
  const PerguntaId := "Digite o ID do produto: "
  const PerguntaCategoria := "Digite a categoria: "
  const PerguntaIdEdicao := "\nDigite o ID do produto (ou 'listar' para ver IDs completos): "
  const PerguntaIdCompleto := "\nDigite o ID completo do produto: "
  const PerguntaIdExclusao := "\nDigite o ID do produto para excluir: "

  /** The edit questions, which show the current name and category. */
  function PerguntasEdicao(p: Produto): seq<string>
  {
    ["Nome (" + p.nome + "): ", "Categoria (" + p.categoria + "): ", "Quantidade: ", "Preço: "]
  }

  function PerguntaConfirmacao(p: Produto): string
  {
    "\n⚠️  TEM CERTEZA ABSOLUTA que deseja excluir PERMANENTEMENTE \"" + p.nome + "\"? (s/N): "
  }

  class Sistema {
    const loja: Loja
    const terminal: Terminal
    /** Set once "0" was chosen and `rl.close()` ran. */
    var encerrado: bool

    /**
     * What every step keeps: the store stays in step with its file, input is
     * only consumed from the front, consistency survives, and the only id that
     * may appear is one in `novos`.
     */
    twostate predicate Passo(novos: set<Id>)
      reads loja, terminal
    {
      && loja.Sincronizada()
      && Sufixo(terminal.entrada, old(terminal.entrada))
      && (Consistente(old(loja.registros)) ==> Consistente(loja.registros))
      && Ids(loja.registros) <= Ids(old(loja.registros)) + novos
    }

    /** Start-up: `carregarDados()`, then the menu is ready to read `linhas`. */
    constructor (arquivo: Option<seq<Produto>>, linhas: seq<string>)
      ensures fresh(loja) && fresh(terminal) && !encerrado
      ensures loja.registros == (if arquivo.Some? then arquivo.value else [])
      ensures loja.gravacoes == [] && loja.exportacoes == [] && loja.Sincronizada()
      ensures terminal.entrada == linhas && terminal.perguntas == []
    {
      loja := new Loja(arquivo);
      terminal := new Terminal(linhas);
      encerrado := false;
    }

    /** `cadastrarProduto`: four questions, then the create callback with the id `uuid()` gives. */
    method OpcaoCadastrar(novoId: Id) returns (e: Evento)
      requires loja.Sincronizada() && novoId !in Ids(loja.registros)
      modifies loja, terminal
      ensures Passo({novoId})
      ensures Desfecho(e, loja.Atual(), terminal.entrada) == EfeitoCadastro(novoId, old(terminal.entrada), old(loja.Atual()))
    {
      ghost var linhas := terminal.entrada;
      var respostas := terminal.FazerPerguntas(PerguntasCadastro);
      if respostas.None? {
        return EntradaEsgotada;
      }
      var r := respostas.value;
      var a := Respostas(r[0], r[1], r[2], r[3]);
      assert a == Respostas(linhas[0], linhas[1], linhas[2], linhas[3]) && terminal.entrada == linhas[4..];
      var cadastro := loja.Cadastrar(a, novoId);
      e := Cadastrou(cadastro);
    }

    /** `buscarProdutoPorIdMenu`: with products present, one question and an exact-id lookup. */
    method OpcaoBuscar() returns (e: Evento)
      requires loja.Sincronizada()
      modifies terminal
      ensures Passo({})
      ensures Desfecho(e, loja.Atual(), terminal.entrada) == EfeitoBusca(old(terminal.entrada), old(loja.Atual()))
    {
      if loja.registros == [] {
        return SemProdutos;
      }
      var id := terminal.Perguntar(PerguntaId);
      if id.None? {
        return EntradaEsgotada;
      }
      e := Buscou(id.value, BuscarPorId(loja.registros, id.value));
    }

    /** `filtrarPorCategoria`: one question and the case-insensitive filter; no check for an empty store. */
    method OpcaoFiltrar() returns (e: Evento)
      requires loja.Sincronizada()
      modifies terminal
      ensures Passo({})
      ensures Desfecho(e, loja.Atual(), terminal.entrada) == EfeitoFiltro(old(terminal.entrada), old(loja.Atual()))
    {
      var categoria := terminal.Perguntar(PerguntaCategoria);
      if categoria.None? {
        return EntradaEsgotada;
      }
      e := Filtrou(categoria.value, FiltrarPorCategoria(loja.registros, categoria.value));
    }

    /**
     * The id question of `editarProduto`: when the answer lowers to `listar`
     * the full ids are shown and a second question asks for the id.
     */
    method EscolherId() returns (id: Option<Id>)
      modifies terminal
      ensures Sufixo(terminal.entrada, old(terminal.entrada))
      ensures old(terminal.entrada) == [] ==> id == None
      ensures old(terminal.entrada) != [] ==>
        var linhas := old(terminal.entrada);
        var k := LinhasDoId(linhas);
        && (|linhas| < k ==> id == None && terminal.entrada == [])
        && (|linhas| >= k ==> id == Some(linhas[k - 1]) && terminal.entrada == linhas[k..])
    {
      id := terminal.Perguntar(PerguntaIdEdicao);
      if id.Some? && Minusculas(id.value) == "listar" {
        id := terminal.Perguntar(PerguntaIdCompleto);
      }
    }

    /**
     * `editarProdutoPorId`: an exact-id lookup and, only for a record found,
     * the four questions and the edit callback.
     */
    method EditarPorId(id: Id) returns (e: Evento)
      requires loja.Sincronizada()
      modifies loja, terminal
      ensures Passo({}) && Ids(loja.registros) == Ids(old(loja.registros))
      ensures Desfecho(e, loja.Atual(), terminal.entrada) == EfeitoEdicaoPorId(id, old(terminal.entrada), old(loja.Atual()))
    {
      var produto := BuscarPorId(loja.registros, id);
      if produto.None? {
        return Editou(id, ProdutoNaoEncontrado);
      }
      ghost var linhas := terminal.entrada;
      var respostas := terminal.FazerPerguntas(PerguntasEdicao(produto.value));
      if respostas.None? {
        return EntradaEsgotada;
      }
      var r := respostas.value;
      var a := Respostas(r[0], r[1], r[2], r[3]);
      assert a == Respostas(linhas[0], linhas[1], linhas[2], linhas[3]) && terminal.entrada == linhas[4..];
      var edicao := loja.Editar(id, a);
      e := Editou(id, edicao);
    }

    /** `editarProduto`: with products present, the id and then `editarProdutoPorId`. */
    method OpcaoEditar() returns (e: Evento)
      requires loja.Sincronizada()
      modifies loja, terminal
      ensures Passo({}) && Ids(loja.registros) == Ids(old(loja.registros))
      ensures Desfecho(e, loja.Atual(), terminal.entrada) == EfeitoEdicao(old(terminal.entrada), old(loja.Atual()))
    {
      if loja.registros == [] {
        return SemProdutos;
      }
      var id := EscolherId();
      if id.None? {
        return EntradaEsgotada;
      }
      ghost var restantes := terminal.entrada;
      e := EditarPorId(id.value);
      SufixoTransitivo(terminal.entrada, restantes, old(terminal.entrada));
    }

    /**
     * The answer callback of `excluirProduto`'s id question: an exact-id lookup
     * and, only for a record found, the confirmation and the delete.
     */
    method ExcluirPorId(id: Id) returns (e: Evento)
      requires loja.Sincronizada()
      modifies loja, terminal
      ensures Passo({})
      ensures Desfecho(e, loja.Atual(), terminal.entrada) == EfeitoExclusaoPorId(id, old(terminal.entrada), old(loja.Atual()))
    {
      var produto := BuscarPorId(loja.registros, id);
      if produto.None? {
        return Excluiu(id, IdNaoEncontrado);
      }
      ghost var linhas := terminal.entrada;
      var confirmacao := terminal.Perguntar(PerguntaConfirmacao(produto.value));
      if confirmacao.None? {
        return EntradaEsgotada;
      }
      assert confirmacao.value == linhas[0] && terminal.entrada == linhas[1..];
      var exclusao := loja.Excluir(id, confirmacao.value);
      e := Excluiu(id, exclusao);
    }

    /** `excluirProduto`: with products present, the id question and its callback. */
    method OpcaoExcluir() returns (e: Evento)
      requires loja.Sincronizada()
      modifies loja, terminal
      ensures Passo({})
      ensures Desfecho(e, loja.Atual(), terminal.entrada) == EfeitoExclusao(old(terminal.entrada), old(loja.Atual()))
    {
      if loja.registros == [] {
        return SemProdutos;
      }
      var id := terminal.Perguntar(PerguntaIdExclusao);
      if id.None? {
        return EntradaEsgotada;
      }
      ghost var restantes := terminal.entrada;
      assert Sufixo(restantes, old(terminal.entrada));
      e := ExcluirPorId(id.value);
      SufixoTransitivo(terminal.entrada, restantes, old(terminal.entrada));
    }

    /** `exportarDados`: exports the collection when there is one. */
    method OpcaoExportar() returns (e: Evento)
      requires loja.Sincronizada()
      modifies loja
      ensures loja.Sincronizada()
      ensures Desfecho(e, loja.Atual(), terminal.entrada) == EfeitoExportacao(old(terminal.entrada), old(loja.Atual()))
    {
      var exportou := loja.Exportar();
      e := if exportou then Exportou(loja.registros) else SemProdutos;
    }

    /** `mostrarMenuAposPausa`: waits for Enter before the menu is shown again. */
    method Pausa()
      modifies terminal
      ensures terminal.entrada == AposPausa(old(terminal.entrada))
    {
      var enter := terminal.Perguntar(PerguntaPausa);
    }

    /** The `switch` for every entry but "0": the operation the entry names, or the invalid-option message. */
    method Operacao(o: Opcao, novoId: Id) returns (e: Evento)
      requires o != Sair
      requires loja.Sincronizada() && novoId !in Ids(loja.registros)
      modifies loja, terminal
      ensures Passo({novoId})
      ensures Desfecho(e, loja.Atual(), terminal.entrada) == Efeito(o, novoId, old(terminal.entrada), old(loja.Atual()))
    {
      match o {
        case Invalida =>
          e := OpcaoInvalida;
        case Cadastrar =>
          e := OpcaoCadastrar(novoId);
        case Listar =>
          e := Listou(loja.registros);
        case Buscar =>
          e := OpcaoBuscar();
        case Filtrar =>
          e := OpcaoFiltrar();
        case Editar =>
          e := OpcaoEditar();
        case Excluir =>
          e := OpcaoExcluir();
        case Exportar =>
          e := OpcaoExportar();
      }
    }

    /**
     * One round of `mostrarMenu`: reads the option and dispatches it. "0" saves
     * and closes the input; any text other than "0" to "7" changes nothing; an
     * operation that runs out of input changes nothing; every other path ends
     * by waiting for Enter.
     */
    method Rodada(novoId: Id) returns (e: Evento)
      requires loja.Sincronizada() && !encerrado
      requires novoId !in Ids(loja.registros)
      modifies this, loja, terminal
      ensures Passo({novoId})
      ensures Desfecho(e, loja.Atual(), terminal.entrada) == EfeitoRodada(novoId, old(terminal.entrada), old(loja.Atual()))
      ensures encerrado <==> old(terminal.entrada) != [] && Despachar(old(terminal.entrada)[0]) == Sair
      ensures encerrado ==> loja.gravacoes != [] && Ultima(loja.gravacoes) == loja.registros
    {
      var opcao := terminal.Perguntar(PerguntaOpcao);
      if opcao.None? {
        return EntradaEsgotada;
      }
      var o := Despachar(opcao.value);
      if o == Sair {
        loja.Salvar();
        encerrado := true;
        return Saiu;
      }
      ghost var aposOpcao := terminal.entrada;
      assert aposOpcao == old(terminal.entrada)[1..] && loja.Atual() == old(loja.Atual());
      assert Sufixo(aposOpcao, old(terminal.entrada));
      e := Operacao(o, novoId);
      ghost var aposOperacao := terminal.entrada;
      SufixoTransitivo(aposOperacao, aposOpcao, old(terminal.entrada));
      if !e.EntradaEsgotada? {
        Pausa();
        SufixoTransitivo(terminal.entrada, aposOperacao, old(terminal.entrada));
      }
    }

    /** One round of the session: the first step of `Sessao` on the input still to be typed. */
    method RodadaDaSessao(ids: seq<Id>)
      requires loja.Sincronizada() && !encerrado && terminal.entrada != []
      requires |ids| >= |terminal.entrada| && ids[0] !in Ids(loja.registros)
      modifies this, loja, terminal
      ensures Passo({ids[0]})
      ensures |terminal.entrada| < |old(terminal.entrada)|
      ensures encerrado ==> loja.gravacoes != [] && loja.Atual() == Sessao(ids, old(terminal.entrada), old(loja.Atual()))
      ensures !encerrado ==> Sessao(ids[1..], terminal.entrada, loja.Atual()) == Sessao(ids, old(terminal.entrada), old(loja.Atual()))
    {
      ghost var linhas, antes := terminal.entrada, loja.Atual();
      var e := Rodada(ids[0]);
      SessaoPorRodadas(ids, linhas, antes, Desfecho(e, loja.Atual(), terminal.entrada));
    }

    /**
     * The session: `mostrarMenu` answers one option and, unless it was "0",
     * calls itself again after the pause, until the input runs out. The
     * `uuid()` results `ids`, distinct and new to the store, are used in turn.
     * When the session ends by "0", the file holds exactly the collection.
     */
    method Executar(ids: seq<Id>)
      requires loja.Sincronizada() && !encerrado
      requires |ids| >= |terminal.entrada|
      requires IdsNovos(ids, loja.registros)
      modifies this, loja, terminal
      ensures loja.Sincronizada()
      ensures encerrado || terminal.entrada == []
      ensures encerrado ==> loja.gravacoes != [] && Ultima(loja.gravacoes) == loja.registros
      ensures Consistente(old(loja.registros)) ==> Consistente(loja.registros)
      ensures loja.Atual() == Sessao(ids, old(terminal.entrada), old(loja.Atual()))
      decreases |terminal.entrada|
    {
      if terminal.entrada != [] {
        ghost var antes := loja.registros;
        RodadaDaSessao(ids);
        if !encerrado {
          IdsNovosSeguintes(ids, antes, loja.registros);
          Executar(ids[1..]);
        }
      }
    }
  }
}
