# AgilStore inventory, modelled in Dafny

AgilStore is a terminal program for a small product inventory. It keeps the
products in a module-level array `registros`. Each product (`Produto`) has an
id from `uuid()`, a name, a category, a quantity and a unit price. A `readline`
menu offers these entries:

- 1: create a product
- 2: list the products
- 3: look a product up by its exact id
- 4: filter by category, ignoring letter case
- 5: edit a product by id
- 6: delete a product by id, after confirmation
- 7: export the collection to a JSON file
- 0: save and leave

Every change writes the whole collection back to `produtos.json` through
`salvarDados()`.

The model follows the program's own split between pure code and code that
changes state.

- `texto.dfy` (`Texto`) models `String.prototype.trim` and `toLowerCase`.
- `numeros.dfy` (`Numeros`) models `Number(str)` for decimal text. `None`
  stands for `NaN`.
- `produtos.dfy` (`Produtos`) holds the `Produto` record and the pure queries
  over the collection:
  - `find` and `findIndex` by exact id
  - the category `filter`
  - `splice(i, 1)`

  It also states the collection invariant: ids are unique, and names and
  categories are not blank.
- `regras.dfy` (`Regras`) states the rules of the create and edit callbacks as
  functions over the user's four answers:
  - why a create is rejected
  - the record after an edit
  - the ordered change list `alteracoes`
  - the invalid-number warnings
- `estoque.dfy` (`Estoque`) is the store, the class `Loja`. Its methods change
  `registros` and record each `salvarDados()` call in `gravacoes`, which holds
  the collection each save wrote. Create, edit, delete and export are proved
  against the `Regras` and `Produtos` functions.
- `terminal.dfy` (`Leitura`) is the `readline` interface, the class `Terminal`.
  It holds the lines still to be typed and the prompts written so far.
  `FazerPerguntas` is the loop behind `fazerPerguntas`.
- `opcoes.dfy` (`Opcoes`) holds the `switch` of `mostrarMenu` as the function
  `Despachar`. For each menu entry it defines, as a function, the outcome
  (`Desfecho`), given the input lines and the store before. The outcome has
  three parts: the event reported, the store after and the input lines left
  unread. `EfeitoRodada` is one pass through the menu, and `Sessao` is the
  whole session: rounds until "0" is chosen or the input runs out.
- `menu.dfy` (`Menu`) holds the class `Sistema`, which runs each menu entry.
  The `Opcao*` methods, `EditarPorId`, `ExcluirPorId`, `Operacao` and `Rodada`
  are each proved to produce exactly the outcome that `Opcoes` defines for
  them: the same event, the same store, and the same lines left unread.
  `EscolherId` is proved against `LinhasDoId` and `Pausa` against `AposPausa`.
  - `Rodada` is one pass through the menu, proved against `EfeitoRodada`.
  - `Executar` is `mostrarMenu` calling itself again after each round. It is
    proved to end in the store `Sessao` gives.

What a round prints is summarised by its `Evento`.

## Model

| member | source | states |
|---|---|---|
| `Texto.TrimInicio` | index.js:96 | the leading-space strip keeps a suffix of the text whose first character is not white space |
| `Texto.TrimFim` | index.js:96 | the trailing-space strip keeps a prefix of the text whose last character is not white space |
| `Texto.TrimInicioDescartaEspacos` | index.js:96 | everything the leading strip drops is white space |
| `Texto.TrimFimDescartaEspacos` | index.js:96 | everything the trailing strip drops is white space |
| `Texto.TrimVazioSseEmBranco` | index.js:96 | `s.trim()` is empty exactly when `s` is all white space, so `!nome.trim()` rejects exactly the blank names |
| `Texto.Trim` | index.js:255-261 | `s.trim()` is never longer than `s` and, when not empty, neither starts nor ends with white space; `TrimVazioSseEmBranco` and `TrimIdempotente` characterise it further |
| `Texto.TrimDeAparado` | index.js:255-256 | text with no white space at either end is left unchanged by `trim` |
| `Texto.TrimIdempotente` | index.js:255-256 | trimming twice equals trimming once, so a stored trimmed name compares equal to the same answer trimmed again |
| `Texto.Minusculas` | index.js:213 | `toLowerCase` keeps the length and lowers each character on its own |
| `Texto.MinusculasIdempotente` | index.js:213 | lowering twice equals lowering once |
| `Texto.ConfirmacaoAceita` | index.js:365 | `confirmacao.toLowerCase() === "s"` holds for exactly the answers "s" and "S" |
| `Numeros.Posicao` | index.js:93-94 | the scan for the decimal point or the exponent marker stops at the first occurrence, or at the end when there is none |
| `Numeros.Decimal` | index.js:93-94 | the decimal rendering of a natural number is a non-empty string of digits |
| `Numeros.DigitosDecimal` | index.js:93-94 | reading back the digits of a decimal rendering gives the original number |
| `Numeros.PosicaoEmDigitos` | index.js:93-94 | a string of digits holds no decimal point and no exponent marker |
| `Numeros.TrimDeDigitos` | index.js:93-94 | `trim` leaves a string of digits unchanged |
| `Numeros.MantissaDeDigitos` | index.js:93-94 | a string of digits is a mantissa with no fraction, with the value its digits spell |
| `Numeros.SemSinalDeDigitos` | index.js:93-94 | a string of digits is an unsigned literal with no exponent |
| `Numeros.NumeroDeDigitos` | index.js:93-94 | `Number` of a string of digits is the value those digits spell |
| `Numeros.NumeroDecimal` | index.js:93-94 | round trip: `Number(String(n)) === n` for every natural `n` |
| `Numeros.NumeroNegativo` | index.js:93-94 | a leading minus negates: `Number("-" + String(n)) === -n` |
| `Numeros.NumeroIgnoraEspacos` | index.js:266 | white space around a numeric answer does not change its value |
| `Numeros.Numero` | index.js:93-94 | `Number(str)` of blank text is 0, not `NaN`, which is why an empty quantity is rejected by the "> 0" check; `NumeroDeDigitos`, `NumeroDecimal`, `NumeroNegativo` and `NumeroIgnoraEspacos` give its value on digits, signs and padding |
| `Produtos.IndiceDe` | index.js:366 | `findIndex` gives the position of a record with exactly that id and no earlier one; it finds nothing exactly when the id is absent |
| `Produtos.BuscarPorId` | index.js:167-169 | `find` returns a record of the collection with exactly that id, and nothing exactly when no record has it |
| `Produtos.BuscaNoIndice` | index.js:167-169 | `find` returns the record at the index `findIndex` gives, so both pick the first record with that id |
| `Produtos.BuscaComIdsUnicos` | index.js:167-169 | with unique ids, looking up the id of the record at `i` gives index `i` and that record |
| `Produtos.IdTruncadoNaoEncontra` | index.js:167-169 | the 8-character id shown in the listing (line 140) matches no record when every id is longer: lookup is by whole id, never by prefix |
| `Produtos.FiltrarPorCategoria` | index.js:212-214 | the filter returns only records of the collection whose lowered category equals the lowered query, and never more than the collection holds |
| `Produtos.FiltroCompleto` | index.js:212-214 | every record whose lowered category equals the lowered query is in the result |
| `Produtos.FiltroMantemCopias` | index.js:212-214 | the result holds each record of the category exactly as many times as the collection does, and no record of another category: duplicates are neither lost nor merged |
| `Produtos.SubsequenciaReflexiva` | index.js:212-214 | every collection is an ordered subsequence of itself |
| `Produtos.FiltroSubsequencia` | index.js:212-214 | the result is an ordered subsequence of `registros`: records keep their original order |
| `Produtos.FiltroConcatena` | index.js:212-214 | filtering two collections joined is joining the two filtered results |
| `Produtos.FiltroIgnoraCaixa` | index.js:212-214 | queries that differ only in letter case give identical results |
| `Produtos.Remover` | index.js:366-367 | `splice(index, 1)` shortens the collection by exactly one |
| `Produtos.RemoverSubsequencia` | index.js:366-367 | after the removal the other records keep their relative order |
| `Produtos.RemoverMultiset` | index.js:366-367 | the removal loses exactly the record at the index and nothing else |
| `Produtos.RemoverSubconjunto` | index.js:366-367 | the removal brings in no new id |
| `Produtos.RemoverIds` | index.js:366-367 | with unique ids, the removed id is gone, every other id stays, and a later lookup of the removed id finds nothing |
| `Produtos.RemoverEm` | index.js:366-367 | a record before the index stays where it was; a record after it moves down by one |
| `Produtos.RemoverConsistente` | index.js:366-367 | removing a record keeps the ids unique and the records well formed |
| `Produtos.AcrescentarIds` | index.js:111 | `push` adds exactly the new record's id to the ids in use |
| `Produtos.AcrescentadoEncontrado` | index.js:167-169 | right after a `push` of a record with an unused id, `find` by that id returns that record |
| `Produtos.AcrescentarIdsUnicos` | index.js:111 | pushing a record whose id is unused keeps the ids unique |
| `Produtos.AcrescentarBemFormados` | index.js:111 | pushing a well-formed record onto well-formed records leaves every record well formed |
| `Produtos.AcrescentarConsistente` | index.js:111 | pushing a well-formed record with an unused id keeps the collection consistent |
| `Produtos.SubstituirIds` | index.js:255-287 | changing a record's fields in place but not its id keeps the set of ids in use |
| `Produtos.SubstituirIdsUnicos` | index.js:255-287 | changing a record's fields in place but not its id keeps the ids unique |
| `Produtos.SubstituirBemFormados` | index.js:255-287 | replacing a record by a well-formed one leaves every record well formed |
| `Produtos.SubstituirConsistente` | index.js:255-287 | changing a record's fields in place but not its id keeps the ids in use; with the new fields well formed, it keeps the collection consistent |
| `Regras.Cadastrado` | index.js:14-21 | the new record carries the id `uuid()` gave and the name and category exactly as typed, untrimmed; its quantity and price are the converted answers, both above zero |
| `Regras.ErroDeCadastro` | index.js:96-108 | the checks run in the source's order: invalid numbers are reported only once name and category are present, and an accepted answer has both numbers; `CadastroAceitoSse` gives the exact acceptance condition |
| `Regras.CadastradoEncontrado` | index.js:110-112 | after an accepted create with a fresh `uuid()`, looking the new id up finds exactly the new record |
| `Regras.CadastroAceitoSse` | index.js:96-108 | a create is accepted exactly when name and category are not blank and both numbers are not `NaN` and above zero |
| `Regras.RejeicoesDoCadastro` | index.js:96-108 | quantity "0", price "-5" and an empty quantity are rejected as invalid numbers; an empty name and a category of spaces are rejected as missing fields |
| `Regras.Editado` | index.js:250-287 | the edit never changes the id and keeps a well-formed record well formed; `EditadoPorCampo` gives each field's new value |
| `Regras.TextoEditado` | index.js:255-263 | a change of the field is always the trimmed answer, which is not empty and trims to itself; `TextoEditadoAplica` gives the converse |
| `Regras.TextoEditadoAplica` | index.js:255-263 | a text answer whose trimmed form is not empty becomes the field, trimmed; a blank answer leaves the field as it was |
| `Regras.NumeroEditado` | index.js:265-287 | a change of the field is always the number the answer converts to, at least zero; `NumeroEditadoAplica` gives the converse |
| `Regras.NumeroEditadoAplica` | index.js:265-287 | a non-blank answer that converts to a number at least zero becomes the field; a blank answer, `NaN` or a negative number leaves the field as it was |
| `Regras.NumeroInvalido` | index.js:265-287 | an answer that draws the "keeping the previous value" warning is not empty and does not convert to 0, which the edit accepts; `NumeroInvalidoIgnorado` shows such an answer is ignored as a blank one would be |
| `Regras.Diferencas` | index.js:253-300 | `alteracoes` has at most four entries and is empty for an unchanged record; `DiferencasCompletas` (every changed field has its entry), `DiferencasDescrevemMudancas` (every entry is a changed field), `DiferencasOrdenadas` and `DiferencasVaziasSseIguais` characterise it |
| `Regras.EditadoPorCampo` | index.js:255-287 | each field of the edited record in closed form: the trimmed name or category when not empty, the converted quantity or price when the answer is not blank and converts to at least zero, and otherwise the old value |
| `Regras.EdicaoQuantidadeVinte` | index.js:265-277 | answering only "20" to the quantity sets the quantity to 20 and leaves every other field as it was |
| `Regras.Avisos` | index.js:265-287 | at most two warnings; the quantity warning appears exactly when the quantity answer is invalid, and likewise for the price |
| `Regras.DiferencasOrdenadas` | index.js:253-287 | `alteracoes` lists at most four changes, in the fixed order name, category, quantity, price |
| `Regras.DiferencasVaziasSseIguais` | index.js:289-300 | the change list is empty exactly when the record is unchanged |
| `Regras.DiferencasDescrevemMudancas` | index.js:255-287 | each entry of `alteracoes` carries the field's new value, which differs from the old one |
| `Regras.DiferencasCompletas` | index.js:255-287 | the converse: each field whose value changed has its entry in `alteracoes`, carrying the new value |
| `Regras.EdicaoEmBranco` | index.js:252-300 | four blank answers change nothing, list no change and print no warning |
| `Regras.EdicaoSoQuantidade` | index.js:265-277 | answering only the quantity changes at most the quantity |
| `Regras.NumeroInvalidoIgnorado` | index.js:265-287 | an invalid quantity or price is ignored exactly as a blank answer would be, while the other answers of the same edit still apply |
| `Regras.EdicaoIdempotente` | index.js:250-287 | repeating an edit with the same answers changes nothing more and lists no change |
| `Estoque.AplicarTexto` | index.js:255-263 | a text answer replaces the field only with its trimmed form, only when that is non-empty and different |
| `Estoque.AplicarNumero` | index.js:265-287 | a numeric answer replaces the field when it converts to a number at least zero and different; `NaN` or a negative number keeps the field and raises the warning |
| `Estoque.AplicarRespostas` | index.js:250-287 | applying the four answers in turn gives the edited record; the pushed change list is exactly the fields that differ, in field order; the warnings are exactly the invalid numbers |
| `Estoque.Loja.constructor` | index.js:35-47 | start-up loads the file's collection, or an empty one when the file is absent or unreadable; nothing has been written yet |
| `Estoque.Loja.Salvar` | index.js:50-57 | `salvarDados()` writes the whole collection and changes nothing in memory |
| `Estoque.Loja.Cadastrar` | index.js:92-117 | a rejected create changes nothing and saves nothing; an accepted one appends exactly the new record at the end, with all earlier records unchanged, and saves once; consistency and the store-equals-file invariant are preserved |
| `Estoque.Loja.Acrescentar` | index.js:110-112 | `push` then `salvarDados()`: one record more at the end, its id added to the ids in use, one save |
| `Estoque.Loja.Editar` | index.js:250-301 | an unknown id changes nothing; otherwise only the first record with that id is replaced by its edited form; the result is the ordered change list and the warnings; a save happens if and only if the change list is non-empty; ids and consistency are preserved |
| `Estoque.Loja.Excluir` | index.js:355-381 | an unknown id or a confirmation other than "s"/"S" (after lowering) changes nothing and saves nothing; otherwise exactly the record at the first index with that id is removed and one save follows |
| `Estoque.Loja.Exportar` | index.js:405-425 | with products, one export of the whole collection; with none, nothing; the store file and the collection are untouched |
| `Leitura.SufixoTransitivo` | index.js:64-68 | input read in two rounds is still read only from the front of the original input |
| `Leitura.Terminal.constructor` | index.js:6-9 | a fresh interface has the given input lines and has written no prompt |
| `Leitura.Terminal.Perguntar` | index.js:64-68 | `question` writes its prompt and hands on the next line; when the input is exhausted the callback never runs |
| `Leitura.Terminal.FazerPerguntas` | index.js:71-81 | one answer per question, in question order, with as many answers as questions; each prompt is written only after the previous answer; when the input runs out, no answers are delivered and the remaining questions are never asked |
| `Opcoes.Despachar` | index.js:462-493 | only a line of exactly one character from "0" to "7" selects a menu entry; anything else is the default branch |
| `Opcoes.Tecla` | index.js:435-442 | each menu entry has a one-character key |
| `Opcoes.TeclaSeleciona` | index.js:462-489 | typing an entry's key selects that entry |
| `Opcoes.SoATeclaSeleciona` | index.js:462-493 | only an entry's own key selects it: no padded or longer text reaches an operation |
| `Opcoes.LinhasDoId` | index.js:321-338 | the record to edit is chosen by one line, or by two when the first is the six letters of `listar` in any case |
| `Opcoes.EfeitoCadastro` | index.js:84-119 | defines the create entry: with fewer than four lines left, nothing changes and the input is used up; otherwise the next four lines are the answers, a rejection changes nothing, and an accepted create appends `Cadastrado` of them and saves once; `CadastroLeDaFrente` and `EfeitoGravaMudancas` characterise it |
| `Opcoes.EfeitoBusca` | index.js:389-402 | defines the lookup entry: with no products nothing is read; otherwise the next line is looked up with `BuscarPorId`; the store never changes |
| `Opcoes.EfeitoFiltro` | index.js:208-226 | defines the filter entry: the next line is the category, the result is `FiltrarPorCategoria`, with no empty-store check; the store never changes |
| `Opcoes.EfeitoEdicaoPorId` | index.js:229-306 | defines the edit of one id: an unknown id reads and changes nothing; otherwise four lines are the answers, the first record with that id becomes `Editado`, the event carries `Diferencas` and `Avisos`, and the file is written exactly when the change list is not empty; `EdicaoPorIdLeDaFrente` and `EdicaoGravaMudancas` characterise it |
| `Opcoes.EfeitoEdicao` | index.js:309-339 | defines the edit entry: with no products nothing is read; otherwise the id comes from `LinhasDoId` lines and the edit of that id follows on the rest; `EdicaoLeDaFrente` characterises it |
| `Opcoes.EfeitoExclusaoPorId` | index.js:354-385 | defines the delete of one id: an unknown id reads and changes nothing; otherwise one confirmation line is read, and only "s" after lowering removes the first record with that id and saves once |
| `Opcoes.EfeitoExclusao` | index.js:342-386 | defines the delete entry: with no products nothing is read; otherwise the id is the next line and the delete of that id follows; `ExclusaoLeDaFrente` characterises it |
| `Opcoes.EfeitoExportacao` | index.js:405-425 | defines the export entry: with products one export of the whole collection, with none nothing; no line is read and the file is not written |
| `Opcoes.Efeito` | index.js:462-493 | defines the `switch`: each entry has its own operation's effect, "0" saves once without changing the collection, an invalid option and the listing change nothing; `EfeitoLeDaFrente` and `EfeitoGravaMudancas` characterise it |
| `Opcoes.Sessao` | index.js:457-495 | defines the session: with no input left it ends with the store as it is, otherwise `AposOpcao` runs; `SessaoPorRodadas` and `SessaoGravaMudancas` characterise it |
| `Opcoes.AposOpcao` | index.js:450-495 | defines what follows an option line: the round `EfeitoRodada` and, unless "0" was chosen, the session again on the lines and the store that round left (`mostrarMenuAposPausa` calling `mostrarMenu`) |
| `Opcoes.EfeitoLeDaFrente` | index.js:64-81 | whatever entry runs, the lines it leaves unread are a suffix of its input: every entry reads only from the front |
| `Opcoes.CadastroLeDaFrente` | index.js:84-90 | a create reads its four answers from the front of the input |
| `Opcoes.EdicaoLeDaFrente` | index.js:309-339 | an edit reads its id lines and then the edit's answers from the front of the input |
| `Opcoes.EdicaoPorIdLeDaFrente` | index.js:229-250 | the edit of one id reads its answers from the front of the input |
| `Opcoes.ExclusaoLeDaFrente` | index.js:342-365 | a delete reads its id and its confirmation from the front of the input |
| `Opcoes.AposPausa` | index.js:450-454 | the pause consumes exactly one line when there is one, from the front |
| `Opcoes.EfeitoRodada` | index.js:457-495 | a round reads from the front of the input and, with input left, consumes at least the option line, so a session cannot stall |
| `Opcoes.SessaoPorRodadas` | index.js:450-495 | a session is its first round; after "0" it ends there, and otherwise it goes on as the session on the lines that round left and the store it produced |
| `Opcoes.SessaoGravaMudancas` | index.js:450-495 | over a whole session the file's writes only grow, a session that changed the collection wrote the file, and its last write is the collection it ends with |
| `Opcoes.IdsNovosSeguintes` | index.js:16 | after a round that added at most the first `uuid()` result, the rest are still distinct and unused |
| `Opcoes.EfeitoGravaMudancas` | index.js:457-493 | for every menu entry, a change to the collection is written to the file at once, the file is only written with the collection as it then stands, and only entry "7" exports |
| `Opcoes.EdicaoGravaMudancas` | index.js:289-291 | an edit that changes the record writes the file with the new collection; an edit that changes nothing writes nothing and exports nothing |
| `Menu.Sistema.constructor` | index.js:497-500 | start-up loads the collection; no line has been read and no prompt written yet, and the session is open |
| `Menu.Sistema.OpcaoCadastrar` | index.js:84-119 | the event, the store after and the lines left unread are `EfeitoCadastro` of the input: the four answers are the next four lines in order; a rejected create leaves collection, file and exports unchanged; an accepted one appends the record built from those lines and saves once; with fewer than four lines left nothing changes |
| `Menu.Sistema.OpcaoBuscar` | index.js:389-402 | the outcome is `EfeitoBusca`: with no products no question is asked; otherwise the next line is looked up by exact id; the store never changes |
| `Menu.Sistema.OpcaoFiltrar` | index.js:208-226 | the outcome is `EfeitoFiltro`: the next line is the category and the result is the case-insensitive filter; there is no empty-store check, and the store never changes |
| `Menu.Sistema.EscolherId` | index.js:321-338 | the id is the next line, or the line after when the first lowers to `listar` |
| `Menu.Sistema.EditarPorId` | index.js:229-306 | the outcome is `EfeitoEdicaoPorId`: an unknown id asks nothing and changes nothing; otherwise the next four lines are the answers, the record at the first index with that id becomes its edited form, the event carries the ordered change list and the warnings, and the file is written exactly when the list is not empty; the ids in use are kept |
| `Menu.Sistema.OpcaoEditar` | index.js:309-339 | the outcome is `EfeitoEdicao`: with no products nothing is asked; the id is the next line, or the line after a `listar` line, and then the store changes exactly as `EditarPorId` for that id on the lines that follow; running out of input changes nothing |
| `Menu.Sistema.ExcluirPorId` | index.js:354-385 | the outcome is `EfeitoExclusaoPorId`: an unknown id asks nothing and changes nothing; otherwise the next line confirms: after lowering, "s" removes exactly the record at the first index with that id and saves once, anything else cancels with no change |
| `Menu.Sistema.OpcaoExcluir` | index.js:342-386 | the outcome is `EfeitoExclusao`: with no products nothing is asked; otherwise the id is the next line, and the store changes exactly as `ExcluirPorId` for that id on the lines after it |
| `Menu.Sistema.OpcaoExportar` | index.js:405-425 | the outcome is `EfeitoExportacao`: with products, one export of the whole collection; with none, nothing; the file and the collection are untouched |
| `Menu.Sistema.Pausa` | index.js:450-454 | `mostrarMenuAposPausa` waits for one line, Enter, and reads nothing more: the input left is `AposPausa` of the input before |
| `Menu.Sistema.Operacao` | index.js:462-493 | the outcome of entry `o` is `Efeito(o, ...)`: each entry has exactly its own operation's effect on the event, the collection, the file, the exports and the lines it reads, and an invalid option changes nothing; the store stays in step with its file and consistent |
| `Menu.Sistema.Rodada` | index.js:450-495 | the outcome is `EfeitoRodada`: a round reads one option line and then has exactly the effect `Efeito` of the entry that line selects, on the lines after it, followed by the pause line unless "0" was chosen or the input ran out; "0" saves once without changing the collection and closes the session, and only "0" closes it; with no input nothing changes; every path keeps the store equal to its last write and consistent, and brings in no id but the fresh one |
| `Menu.Sistema.RodadaDaSessao` | index.js:450-495 | one round takes the session one step: it consumes input, and either "0" ended the session with the store `Sessao` gives, or the session on the lines left from the store now ends where the whole session would |
| `Menu.Sistema.Executar` | index.js:450-495 | the store at the end is exactly `Sessao` of the input and the store at start-up, so the rounds that run are those of the options typed, one after another on the lines each leaves; the session keeps the store equal to its last write and the collection consistent; it ends only when "0" is chosen or the input runs out; after "0" the file holds exactly the collection in memory |

## Left out

- Console output: the banner, the product tables, the detail view, the `valorTotal` products and the `toFixed`/`padEnd` formatting are left out. They are display only. What a round reports is summarised by `Opcoes.Evento`.
- `fs` and JSON are left out. A save is recorded as the collection written, in `Loja.gravacoes`, and an export as the collection written, in `Loja.exportacoes`.
  - The bytes of `JSON.stringify` are not modelled.
  - The export file name built from `Date.now()` is not modelled.
  - Write failures are not modelled; the source only prints them.
- The loaded file is a parameter, `None` when it is absent or unreadable. Its records are taken as well-typed products. The model does not assume they are consistent: every operation only promises to keep consistency when it held before.
- `uuid()` is a parameter, an id not already in use. The session takes one such id per round, all distinct.
- Numbers are mathematical reals. Double-precision rounding is not modelled.
- Numeros.Numero: returns `None` (`NaN`) for `Infinity`, `0x…`, `0o…` and `0b…` literals, which JavaScript converts to numbers; only decimal notation is modelled.
- Texto.Minusculas: lowers only A–Z and the Latin-1 capitals. Other Unicode case mappings of `toLowerCase` are not modelled.
- Menu.PerguntasEdicao: the quantity and price prompts of the edit omit the current values that the source shows. Showing them would need the formatting of a double and of `toFixed(2)`.
- The edit changes the found object in place. The model replaces the record at the first index with that id. `registros` holds the only reference to it, so the effect is the same.
- `rl.close()` and the end of the process are left out. `Executar` stops when "0" is chosen or when the input is exhausted; in the source, exhausted input leaves the pending callback never called.
