/**
 * The menu's entries and what each one does: the `switch (opcao)` that maps
 * the typed line to an entry, the events a round reports, and, per entry, the
 * relation between the input it reads, the store before and after, and the
 * event.
 */
module Opcoes {
  import opened Wrappers
  import opened Texto
  import opened Produtos
  import opened Regras
  import opened Estoque
  import opened Leitura

  /** The menu entries, and `Invalida` for anything the `switch` does not list. */
  datatype Opcao = Sair | Cadastrar | Listar | Buscar | Filtrar | Editar | Excluir | Exportar | Invalida

  /** The `switch (opcao)`: the line must be exactly one of "0" to "7", untrimmed. */
  function Despachar(s: string): (o: Opcao)
    ensures o != Invalida ==> |s| == 1 && '0' <= s[0] <= '7'
  {
    if s == "1" then Cadastrar
    else if s == "2" then Listar
    else if s == "3" then Buscar
    else if s == "4" then Filtrar
    else if s == "5" then Editar
    else if s == "6" then Excluir
    else if s == "7" then Exportar
    else if s == "0" then Sair
    else Invalida
  }

  /** The key the menu shows for each entry. */
  function Tecla(o: Opcao): (s: string)
    requires o != Invalida
    ensures |s| == 1
  {
    match o
    case Sair => "0"
    case Cadastrar => "1"
    case Listar => "2"
    case Buscar => "3"
    case Filtrar => "4"
    case Editar => "5"
    case Excluir => "6"
    case Exportar => "7"
  }

  /** Typing the key of an entry selects that entry. */
  lemma TeclaSeleciona(o: Opcao)
    requires o != Invalida
    ensures Despachar(Tecla(o)) == o
  {
  }

  /** Only the key of an entry selects it: no other text reaches any operation. */
  lemma SoATeclaSeleciona(s: string)
    requires Despachar(s) != Invalida
    ensures Tecla(Despachar(s)) == s
  {
  }

  /** The number of lines that choose the record to edit: one, or two after the keyword `listar`. */
  function LinhasDoId(linhas: seq<string>): (k: nat)
    requires linhas != []
    ensures 1 <= k <= 2
    ensures k == 2 ==> |linhas[0]| == |"listar"|
  {
    if Minusculas(linhas[0]) == "listar" then 2 else 1
  }

  /** What a round did, as the messages it prints report it. */
  datatype Evento =
    | EntradaEsgotada
    | OpcaoInvalida
    | Saiu
    | SemProdutos
    | Cadastrou(cadastro: Cadastro)
    | Listou(produtos: seq<Produto>)
    | Buscou(id: Id, encontrado: Option<Produto>)
    | Filtrou(categoria: string, produtos: seq<Produto>)
    | Editou(id: Id, edicao: ResultadoEdicao)
    | Excluiu(id: Id, exclusao: ResultadoExclusao)
    | Exportou(produtos: seq<Produto>)

  /** What an entry leads to: the event it reports, the store after it and the input it left unread. */
  datatype Desfecho = Desfecho(evento: Evento, depois: Estado, resto: seq<string>)

  /*
   * What each entry does, as a function of the input it starts reading from
   * (`linhas`) and of the store before it (`antes`).
   */

  /** The store does not change; the entry reports `e` and leaves `resto` unread. */
  function Nada(e: Evento, antes: Estado, resto: seq<string>): Desfecho
  {
    Desfecho(e, antes, resto)
  }

  /** `cadastrarProduto`: four answers; a rejected create changes nothing, an accepted one appends and saves once. */
  function EfeitoCadastro(novoId: Id, linhas: seq<string>, antes: Estado): Desfecho
  {
    if |linhas| < 4 then Nada(EntradaEsgotada, antes, [])
    else
      var a := Respostas(linhas[0], linhas[1], linhas[2], linhas[3]);
      match ErroDeCadastro(a)
      case Some(erro) => Nada(Cadastrou(Rejeitado(erro)), antes, linhas[4..])
      case None =>
        var registros := antes.registros + [Cadastrado(novoId, a)];
        Desfecho(Cadastrou(Criado(Cadastrado(novoId, a))),
                 antes.(registros := registros, gravacoes := antes.gravacoes + [registros]),
                 linhas[4..])
  }

  /** `buscarProdutoPorIdMenu`: an exact-id lookup of the next line, when there are products; nothing changes. */
  function EfeitoBusca(linhas: seq<string>, antes: Estado): Desfecho
  {
    if antes.registros == [] then Nada(SemProdutos, antes, linhas)
    else if linhas == [] then Nada(EntradaEsgotada, antes, [])
    else Nada(Buscou(linhas[0], BuscarPorId(antes.registros, linhas[0])), antes, linhas[1..])
  }

  /** `filtrarPorCategoria`: the case-insensitive filter by the next line; nothing changes. */
  function EfeitoFiltro(linhas: seq<string>, antes: Estado): Desfecho
  {
    if linhas == [] then Nada(EntradaEsgotada, antes, [])
    else Nada(Filtrou(linhas[0], FiltrarPorCategoria(antes.registros, linhas[0])), antes, linhas[1..])
  }

  /**
   * `editarProdutoPorId`: an unknown id changes nothing; otherwise the next
   * four lines edit the first record with that id, and the file is written
   * only when something changed.
   */
  function EfeitoEdicaoPorId(id: Id, linhas: seq<string>, antes: Estado): Desfecho
  {
    match IndiceDe(antes.registros, id)
    case None => Nada(Editou(id, ProdutoNaoEncontrado), antes, linhas)
    case Some(i) =>
      if |linhas| < 4 then Nada(EntradaEsgotada, antes, [])
      else
        var a := Respostas(linhas[0], linhas[1], linhas[2], linhas[3]);
        var novo := Editado(antes.registros[i], a);
        var alteracoes := Diferencas(antes.registros[i], novo);
        var registros := antes.registros[i := novo];
        Desfecho(Editou(id, Aplicada(alteracoes, Avisos(a))),
                 antes.(registros := registros,
                        gravacoes := if alteracoes == [] then antes.gravacoes else antes.gravacoes + [registros]),
                 linhas[4..])
  }

  /** `editarProduto`: with products, the id chosen by one or two lines, then `editarProdutoPorId`. */
  function EfeitoEdicao(linhas: seq<string>, antes: Estado): Desfecho
  {
    if antes.registros == [] then Nada(SemProdutos, antes, linhas)
    else if linhas == [] || |linhas| < LinhasDoId(linhas) then Nada(EntradaEsgotada, antes, [])
    else
      var k := LinhasDoId(linhas);
      EfeitoEdicaoPorId(linhas[k - 1], linhas[k..], antes)
  }

  /**
   * The callback of `excluirProduto`: an unknown id changes nothing; otherwise
   * the next line confirms, and only "s" after lowering removes the first
   * record with that id and saves once.
   */
  function EfeitoExclusaoPorId(id: Id, linhas: seq<string>, antes: Estado): Desfecho
  {
    match IndiceDe(antes.registros, id)
    case None => Nada(Excluiu(id, IdNaoEncontrado), antes, linhas)
    case Some(i) =>
      if linhas == [] then Nada(EntradaEsgotada, antes, [])
      else if Minusculas(linhas[0]) != "s" then Nada(Excluiu(id, Cancelada), antes, linhas[1..])
      else
        var registros := Remover(antes.registros, i);
        Desfecho(Excluiu(id, Excluido(antes.registros[i])),
                 antes.(registros := registros, gravacoes := antes.gravacoes + [registros]),
                 linhas[1..])
  }

  /** `excluirProduto`: with products, the id is the next line. */
  function EfeitoExclusao(linhas: seq<string>, antes: Estado): Desfecho
  {
    if antes.registros == [] then Nada(SemProdutos, antes, linhas)
    else if linhas == [] then Nada(EntradaEsgotada, antes, [])
    else EfeitoExclusaoPorId(linhas[0], linhas[1..], antes)
  }

  /** `exportarDados`: with products, one export of the whole collection; the file is not written and nothing is read. */
  function EfeitoExportacao(linhas: seq<string>, antes: Estado): Desfecho
  {
    if antes.registros == [] then Nada(SemProdutos, antes, linhas)
    else Desfecho(Exportou(antes.registros), antes.(exportacoes := antes.exportacoes + [antes.registros]), linhas)
  }

  /** The `switch (opcao)`: each entry has the effect of its own operation and of no other. */
  function Efeito(o: Opcao, novoId: Id, linhas: seq<string>, antes: Estado): Desfecho
  {
    match o
    case Sair => Desfecho(Saiu, antes.(gravacoes := antes.gravacoes + [antes.registros]), linhas)
    case Invalida => Nada(OpcaoInvalida, antes, linhas)
    case Cadastrar => EfeitoCadastro(novoId, linhas, antes)
    case Listar => Nada(Listou(antes.registros), antes, linhas)
    case Buscar => EfeitoBusca(linhas, antes)
    case Filtrar => EfeitoFiltro(linhas, antes)
    case Editar => EfeitoEdicao(linhas, antes)
    case Excluir => EfeitoExclusao(linhas, antes)
    case Exportar => EfeitoExportacao(linhas, antes)
  }

  /** Every entry reads its lines from the front of the input: what it leaves unread is a suffix. */
  lemma {:induction false} EfeitoLeDaFrente(o: Opcao, novoId: Id, linhas: seq<string>, antes: Estado)
    ensures Sufixo(Efeito(o, novoId, linhas, antes).resto, linhas)
  {
    match o {
      case Cadastrar => CadastroLeDaFrente(novoId, linhas, antes);
      case Buscar =>
      case Filtrar =>
      case Editar => EdicaoLeDaFrente(linhas, antes);
      case Excluir => ExclusaoLeDaFrente(linhas, antes);
      case Exportar =>
      case Sair =>
      case Listar =>
      case Invalida =>
    }
  }

  /** A create reads the four answers, or the rest of the input when it has fewer. */
  lemma {:induction false} CadastroLeDaFrente(novoId: Id, linhas: seq<string>, antes: Estado)
    ensures Sufixo(EfeitoCadastro(novoId, linhas, antes).resto, linhas)
  {
    if |linhas| >= 4 {
      assert EfeitoCadastro(novoId, linhas, antes).resto == linhas[4..];
    }
  }

  /** An edit reads nothing without products, else the id lines and what the edit of that id reads. */
  lemma {:induction false} EdicaoLeDaFrente(linhas: seq<string>, antes: Estado)
    ensures Sufixo(EfeitoEdicao(linhas, antes).resto, linhas)
  {
    if antes.registros != [] && linhas != [] {
      if LinhasDoId(linhas) == 1 {
        var d := EfeitoEdicaoPorId(linhas[0], linhas[1..], antes);
        EdicaoPorIdLeDaFrente(linhas[0], linhas[1..], antes);
        SufixoTransitivo(d.resto, linhas[1..], linhas);
      } else if |linhas| >= 2 {
        var d := EfeitoEdicaoPorId(linhas[1], linhas[2..], antes);
        EdicaoPorIdLeDaFrente(linhas[1], linhas[2..], antes);
        SufixoTransitivo(d.resto, linhas[2..], linhas);
      }
    }
  }

  /** The edit of a record reads nothing, or the four answers, or the rest of the input when it has fewer. */
  lemma {:induction false} EdicaoPorIdLeDaFrente(id: Id, linhas: seq<string>, antes: Estado)
    ensures Sufixo(EfeitoEdicaoPorId(id, linhas, antes).resto, linhas)
  {
    if IndiceDe(antes.registros, id).Some? && |linhas| >= 4 {
      assert EfeitoEdicaoPorId(id, linhas, antes).resto == linhas[4..];
    }
  }

  /** A delete reads nothing without products, else the id and the confirmation when the id is found. */
  lemma {:induction false} ExclusaoLeDaFrente(linhas: seq<string>, antes: Estado)
    ensures Sufixo(EfeitoExclusao(linhas, antes).resto, linhas)
  {
    if antes.registros != [] && |linhas| >= 2 && IndiceDe(antes.registros, linhas[0]).Some? {
      assert EfeitoExclusao(linhas, antes).resto == linhas[2..];
    }
  }

  /** `mostrarMenuAposPausa`: one line, Enter, is read when there is one. */
  function AposPausa(linhas: seq<string>): (r: seq<string>)
    ensures Sufixo(r, linhas)
    ensures linhas != [] ==> |r| == |linhas| - 1
  {
    if linhas == [] then [] else linhas[1..]
  }

  /**
   * One round of `mostrarMenu` on the input `linhas`: the option line, then
   * the entry it selects; every entry but "0" that did not run out of input
   * ends by waiting for Enter. A round reads from the front of the input and
   * reads at least the option line.
   */
  function EfeitoRodada(novoId: Id, linhas: seq<string>, antes: Estado): (r: Desfecho)
    ensures Sufixo(r.resto, linhas)
    ensures linhas != [] ==> |r.resto| < |linhas|
  {
    if linhas == [] then Nada(EntradaEsgotada, antes, [])
    else
      var o := Despachar(linhas[0]);
      var d := Efeito(o, novoId, linhas[1..], antes);
      EfeitoLeDaFrente(o, novoId, linhas[1..], antes);
      SufixoTransitivo(d.resto, linhas[1..], linhas);
      if o == Sair || d.evento.EntradaEsgotada? then d
      else
        SufixoTransitivo(AposPausa(d.resto), d.resto, linhas);
        d.(resto := AposPausa(d.resto))
  }

  /** The `uuid()` results of a session: distinct, and none already an id of `rs`. */
  predicate IdsNovos(ids: seq<Id>, rs: seq<Produto>)
  {
    && (forall i, j :: 0 <= i < j < |ids| ==> ids[i] != ids[j])
    && (forall i :: 0 <= i < |ids| ==> ids[i] !in Ids(rs))
  }

  /** Once a round has added at most the first of them, the remaining results are still new. */
  lemma IdsNovosSeguintes(ids: seq<Id>, antes: seq<Produto>, depois: seq<Produto>)
    requires ids != [] && IdsNovos(ids, antes)
    requires Ids(depois) <= Ids(antes) + {ids[0]}
    ensures IdsNovos(ids[1..], depois)
  {
  }

  /**
   * The session on the input `linhas`, with the `uuid()` results `ids` used
   * one per round: `mostrarMenu` while there is input. The result is the
   * store at the end.
   */
  function Sessao(ids: seq<Id>, linhas: seq<string>, antes: Estado): Estado
    requires |ids| >= |linhas|
    decreases |linhas|, 1
  {
    if linhas == [] then antes else AposOpcao(ids, linhas, antes)
  }

  /**
   * The session once an option line is typed: its round and, unless "0" was
   * chosen, the session again (`mostrarMenuAposPausa`) on what the round left.
   */
  function AposOpcao(ids: seq<Id>, linhas: seq<string>, antes: Estado): Estado
    requires |ids| >= |linhas| && linhas != []
    decreases |linhas|, 0
  {
    var r := EfeitoRodada(ids[0], linhas, antes);
    if Despachar(linhas[0]) == Sair then r.depois
    else Sessao(ids[1..], r.resto, r.depois)
  }

  /** A session is its first round followed by the session on what that round left unread. */
  lemma SessaoPorRodadas(ids: seq<Id>, linhas: seq<string>, antes: Estado, r: Desfecho)
    requires |ids| >= |linhas| && linhas != []
    requires r == EfeitoRodada(ids[0], linhas, antes)
    ensures Despachar(linhas[0]) == Sair ==> Sessao(ids, linhas, antes) == r.depois
    ensures Despachar(linhas[0]) != Sair ==> Sessao(ids, linhas, antes) == Sessao(ids[1..], r.resto, r.depois)
  {
    assert Sessao(ids, linhas, antes) == AposOpcao(ids, linhas, antes);
  }

  /**
   * Write-through over a whole session: the file's writes only grow, a
   * session that changed the collection wrote the file, and the last write of
   * a session that wrote at all is the collection it ends with.
   */
  lemma {:induction false} SessaoGravaMudancas(ids: seq<Id>, linhas: seq<string>, antes: Estado)
    requires |ids| >= |linhas|
    ensures var d := Sessao(ids, linhas, antes);
      && antes.gravacoes <= d.gravacoes
      && (d.registros != antes.registros ==> d.gravacoes != antes.gravacoes)
      && (d.gravacoes != antes.gravacoes ==> Ultima(d.gravacoes) == d.registros)
    decreases |linhas|
  {
    if linhas != [] {
      var o := Despachar(linhas[0]);
      var r := EfeitoRodada(ids[0], linhas, antes);
      SessaoPorRodadas(ids, linhas, antes, r);
      EfeitoGravaMudancas(o, ids[0], linhas[1..], antes);
      assert r.depois == Efeito(o, ids[0], linhas[1..], antes).depois;
      if o != Sair {
        SessaoGravaMudancas(ids[1..], r.resto, r.depois);
      }
    }
  }

  /**
   * Write-through, for every entry: a change to the collection is written to
   * the file at once, the file is only ever written with the collection as it
   * then stands, and only the export entry exports.
   */
  lemma {:induction false} EfeitoGravaMudancas(o: Opcao, novoId: Id, linhas: seq<string>, antes: Estado)
    ensures var d := Efeito(o, novoId, linhas, antes).depois;
      && (d.registros != antes.registros ==> d.gravacoes == antes.gravacoes + [d.registros])
      && (d.gravacoes != antes.gravacoes ==> d.gravacoes == antes.gravacoes + [d.registros])
      && (d.exportacoes != antes.exportacoes ==> o == Exportar)
  {
    match o {
      case Editar =>
        if antes.registros != [] && linhas != [] && |linhas| >= LinhasDoId(linhas) {
          var k := LinhasDoId(linhas);
          assert Efeito(o, novoId, linhas, antes) == EfeitoEdicaoPorId(linhas[k - 1], linhas[k..], antes);
          EdicaoGravaMudancas(linhas[k - 1], linhas[k..], antes);
        }
      case Excluir =>
        if antes.registros != [] && linhas != [] {
          assert Efeito(o, novoId, linhas, antes) == EfeitoExclusaoPorId(linhas[0], linhas[1..], antes);
        }
      case _ =>
    }
  }

  /** An edit that changes the record writes the file; one that changes nothing writes nothing. */
  lemma {:induction false} EdicaoGravaMudancas(id: Id, linhas: seq<string>, antes: Estado)
    ensures var d := EfeitoEdicaoPorId(id, linhas, antes).depois;
      && d.exportacoes == antes.exportacoes
      && (d.registros != antes.registros ==> d.gravacoes == antes.gravacoes + [d.registros])
      && (d.gravacoes != antes.gravacoes ==> d.gravacoes == antes.gravacoes + [d.registros])
  {
    if IndiceDe(antes.registros, id).Some? && |linhas| >= 4 {
      var i := IndiceDe(antes.registros, id).value;
      var a := Respostas(linhas[0], linhas[1], linhas[2], linhas[3]);
      var novo := Editado(antes.registros[i], a);
      if Diferencas(antes.registros[i], novo) == [] {
        DiferencasVaziasSseIguais(antes.registros[i], novo);
        assert antes.registros[i := novo] == antes.registros;
      }
    }
  }
}
