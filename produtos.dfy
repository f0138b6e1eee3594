/**
 * The product record and the read-only queries over the collection
 * `registros`: `find` and `findIndex` by exact id, the case-insensitive
 * category `filter`, and the `splice(index, 1)` that deletes one record.
 */
module Produtos {
  import opened Wrappers
  import opened Texto

  /** A product id: the text `uuid()` produced when the record was created. */
  type Id = string

  /** `class Produto`: a record with its id and the four fields the user types. */
  datatype Produto = Produto(id: Id, nome: string, categoria: string, quantidade: real, preco: real)

  /** What creation and editing guarantee of every record they write. */
  predicate BemFormado(p: Produto)
  {
    Trim(p.nome) != [] && Trim(p.categoria) != [] && p.quantidade >= 0.0 && p.preco >= 0.0
  }

  predicate IdsUnicos(rs: seq<Produto>)
  {
    forall i, j :: 0 <= i < j < |rs| ==> rs[i].id != rs[j].id
  }

  /** The collection invariant: ids are unique and every record is well formed. */
  predicate Consistente(rs: seq<Produto>)
  {
    IdsUnicos(rs) && forall i :: 0 <= i < |rs| ==> BemFormado(rs[i])
  }

  /** The ids in use. */
  function Ids(rs: seq<Produto>): set<Id>
  {
    set i | 0 <= i < |rs| :: rs[i].id
  }

  /** `registros.findIndex(p => p.id === id)`: the position of the first record with exactly this id. */
  function IndiceDe(rs: seq<Produto>, id: Id): (r: Option<nat>)
    ensures r.Some? ==> r.value < |rs| && rs[r.value].id == id
    ensures r.Some? ==> forall j :: 0 <= j < r.value ==> rs[j].id != id
    ensures r.None? <==> id !in Ids(rs)
  {
    if rs == [] then None
    else if rs[0].id == id then Some(0)
    else
      match IndiceDe(rs[1..], id)
      case None => None
      case Some(k) => Some(k + 1)
  }

  /** `registros.find(p => p.id === id)`: the first record whose id equals `id`. */
  function BuscarPorId(rs: seq<Produto>, id: Id): (r: Option<Produto>)
    ensures r.Some? ==> r.value in rs && r.value.id == id
    ensures r.None? <==> id !in Ids(rs)
  {
    if rs == [] then None
    else if rs[0].id == id then Some(rs[0])
    else BuscarPorId(rs[1..], id)
  }

  /** `find` and `findIndex` agree: the record found is the one at the index found, the first with that id. */
  lemma {:induction false} BuscaNoIndice(rs: seq<Produto>, id: Id)
    ensures BuscarPorId(rs, id) == match IndiceDe(rs, id) case None => None case Some(i) => Some(rs[i])
  {
    if rs != [] && rs[0].id != id {
      BuscaNoIndice(rs[1..], id);
    }
  }

  /**
   * With unique ids, searching for the id of the record at `i` finds exactly
   * that record, and no record comes back for an id nobody has.
   */
  lemma {:induction false} BuscaComIdsUnicos(rs: seq<Produto>, i: nat)
    requires IdsUnicos(rs) && i < |rs|
    ensures IndiceDe(rs, rs[i].id) == Some(i)
    ensures BuscarPorId(rs, rs[i].id) == Some(rs[i])
  {
    BuscaNoIndice(rs, rs[i].id);
  }

  /**
   * The listing shows only the first `k` characters of an id. When every id is
   * longer than that, the shortened text matches no record: search is by the
   * whole id, never by a prefix.
   */
  lemma {:induction false} IdTruncadoNaoEncontra(rs: seq<Produto>, i: nat, k: nat)
    requires i < |rs|
    requires forall j :: 0 <= j < |rs| ==> |rs[j].id| > k
    ensures BuscarPorId(rs, rs[i].id[..k]) == None
  {
  }

  /** Whether a record belongs to category `categoria`: equal after `toLowerCase` on both sides. */
  predicate NaCategoria(p: Produto, categoria: string)
  {
    Minusculas(p.categoria) == Minusculas(categoria)
  }

  /** `registros.filter(p => p.categoria.toLowerCase() === categoria.toLowerCase())`. */
  function FiltrarPorCategoria(rs: seq<Produto>, categoria: string): (r: seq<Produto>)
    ensures |r| <= |rs|
    ensures forall p :: p in r ==> p in rs && NaCategoria(p, categoria)
  {
    if rs == [] then []
    else if NaCategoria(rs[0], categoria) then [rs[0]] + FiltrarPorCategoria(rs[1..], categoria)
    else FiltrarPorCategoria(rs[1..], categoria)
  }

  /** Every record of the category is in the result. */
  lemma {:induction false} FiltroCompleto(rs: seq<Produto>, categoria: string, p: Produto)
    requires p in rs && NaCategoria(p, categoria)
    ensures p in FiltrarPorCategoria(rs, categoria)
  {
    if rs[0] != p {
      FiltroCompleto(rs[1..], categoria, p);
    }
  }

  /**
   * The filter keeps every copy: a record of the category occurs in the
   * result exactly as often as in `rs`, any other record not at all.
   */
  lemma {:induction false} FiltroMantemCopias(rs: seq<Produto>, categoria: string)
    ensures forall p ::
      multiset(FiltrarPorCategoria(rs, categoria))[p] == (if NaCategoria(p, categoria) then multiset(rs)[p] else 0)
  {
    if rs != [] {
      FiltroMantemCopias(rs[1..], categoria);
      assert rs == [rs[0]] + rs[1..];
      assert multiset(rs) == multiset{rs[0]} + multiset(rs[1..]);
    }
  }

  /** `a` is `b` with some elements left out, the rest in their original order. */
  predicate Subsequencia<T(==)>(a: seq<T>, b: seq<T>)
    decreases |b|
  {
    if a == [] then true
    else if b == [] then false
    else (a[0] == b[0] && Subsequencia(a[1..], b[1..])) || Subsequencia(a, b[1..])
  }

  lemma {:induction false} SubsequenciaReflexiva<T>(a: seq<T>)
    ensures Subsequencia(a, a)
  {
    if a != [] {
      SubsequenciaReflexiva(a[1..]);
    }
  }

  /** The filter keeps the records of the category in the order `registros` holds them. */
  lemma {:induction false} FiltroSubsequencia(rs: seq<Produto>, categoria: string)
    ensures Subsequencia(FiltrarPorCategoria(rs, categoria), rs)
  {
    if rs != [] {
      FiltroSubsequencia(rs[1..], categoria);
    }
  }

  /** Filtering a concatenation filters each part. */
  lemma {:induction false} FiltroConcatena(a: seq<Produto>, b: seq<Produto>, categoria: string)
    ensures FiltrarPorCategoria(a + b, categoria) == FiltrarPorCategoria(a, categoria) + FiltrarPorCategoria(b, categoria)
  {
    if a != [] {
      assert (a + b)[1..] == a[1..] + b;
      FiltroConcatena(a[1..], b, categoria);
    } else {
      assert a + b == b;
    }
  }

  /** Queries that differ only in letter case ("Snacks", "snacks") give the same result. */
  lemma {:induction false} FiltroIgnoraCaixa(rs: seq<Produto>, c1: string, c2: string)
    requires Minusculas(c1) == Minusculas(c2)
    ensures FiltrarPorCategoria(rs, c1) == FiltrarPorCategoria(rs, c2)
  {
    if rs != [] {
      FiltroIgnoraCaixa(rs[1..], c1, c2);
    }
  }

  /** `registros.splice(i, 1)`: the collection without the record at `i`. */
  function Remover(rs: seq<Produto>, i: nat): (r: seq<Produto>)
    requires i < |rs|
    ensures |r| == |rs| - 1
  {
    rs[..i] + rs[i + 1..]
  }

  /** Removing one record keeps the others in their relative order. */
  lemma {:induction false} RemoverSubsequencia(rs: seq<Produto>, i: nat)
    requires i < |rs|
    ensures Subsequencia(Remover(rs, i), rs)
  {
    var r := Remover(rs, i);
    if i == 0 {
      assert r == rs[1..];
      SubsequenciaReflexiva(r);
    } else {
      RemoverSubsequencia(rs[1..], i - 1);
      assert r[0] == rs[0];
      assert r[1..] == Remover(rs[1..], i - 1);
    }
  }

  /** Removing one record loses exactly that record: nothing else goes, nothing comes in. */
  lemma {:induction false} RemoverMultiset(rs: seq<Produto>, i: nat)
    requires i < |rs|
    ensures multiset(Remover(rs, i)) + multiset{rs[i]} == multiset(rs)
  {
    assert rs == rs[..i] + [rs[i]] + rs[i + 1..];
  }

  /** Removing a record brings in no new id. */
  lemma {:induction false} RemoverSubconjunto(rs: seq<Produto>, i: nat)
    requires i < |rs|
    ensures Ids(Remover(rs, i)) <= Ids(rs)
  {
    var r := Remover(rs, i);
    forall x | x in Ids(r) ensures x in Ids(rs) {
      var j :| 0 <= j < |r| && r[j].id == x;
      RemoverEm(rs, i, j);
    }
  }

  /** With unique ids, the removed record's id is gone and every other id is still there. */
  lemma {:induction false} RemoverIds(rs: seq<Produto>, i: nat)
    requires i < |rs| && IdsUnicos(rs)
    ensures Ids(Remover(rs, i)) == Ids(rs) - {rs[i].id}
    ensures BuscarPorId(Remover(rs, i), rs[i].id) == None
  {
    var r := Remover(rs, i);
    forall x | x in Ids(r) ensures x in Ids(rs) - {rs[i].id} {
      var j :| 0 <= j < |r| && r[j].id == x;
      if j < i { assert r[j] == rs[j]; } else { assert r[j] == rs[j + 1]; }
    }
    forall x | x in Ids(rs) - {rs[i].id} ensures x in Ids(r) {
      var j :| 0 <= j < |rs| && rs[j].id == x;
      if j < i { assert r[j] == rs[j]; } else { assert r[j - 1] == rs[j]; }
    }
  }

  /** Where each remaining record was before the removal. */
  lemma {:induction false} RemoverEm(rs: seq<Produto>, i: nat, a: nat)
    requires i < |rs| && a < |rs| - 1
    ensures Remover(rs, i)[a] == rs[if a < i then a else a + 1]
  {
  }

  /** Deleting a record keeps the collection consistent. */
  lemma {:induction false} RemoverConsistente(rs: seq<Produto>, i: nat)
    requires i < |rs| && Consistente(rs)
    ensures Consistente(Remover(rs, i))
  {
    var r := Remover(rs, i);
    forall a, b | 0 <= a < b < |r| ensures r[a].id != r[b].id {
      RemoverEm(rs, i, a);
      RemoverEm(rs, i, b);
    }
    forall a | 0 <= a < |r| ensures BemFormado(r[a]) {
      RemoverEm(rs, i, a);
    }
  }

  lemma {:induction false} AcrescentarIds(rs: seq<Produto>, p: Produto)
    ensures Ids(rs + [p]) == Ids(rs) + {p.id}
  {
    var r := rs + [p];
    forall x | x in Ids(r) ensures x in Ids(rs) + {p.id} {
      var j :| 0 <= j < |r| && r[j].id == x;
      if j < |rs| { assert r[j] == rs[j]; }
    }
    forall x | x in Ids(rs) + {p.id} ensures x in Ids(r) {
      if x == p.id { assert r[|rs|].id == x; }
      else {
        var j :| 0 <= j < |rs| && rs[j].id == x;
        assert r[j] == rs[j];
      }
    }
  }

  /** `find` right after a `push` of a record with an unused id returns that record. */
  lemma {:induction false} AcrescentadoEncontrado(rs: seq<Produto>, p: Produto)
    requires p.id !in Ids(rs)
    ensures BuscarPorId(rs + [p], p.id) == Some(p)
    decreases |rs|
  {
    if rs == [] {
      assert [p][0] == p;
    } else {
      assert (rs + [p])[0] == rs[0] && (rs + [p])[1..] == rs[1..] + [p];
      assert rs[0].id in Ids(rs);
      assert Ids(rs[1..]) <= Ids(rs) by {
        forall x | x in Ids(rs[1..]) ensures x in Ids(rs) {
          var j :| 0 <= j < |rs[1..]| && rs[1..][j].id == x;
          assert rs[j + 1].id == x;
        }
      }
      AcrescentadoEncontrado(rs[1..], p);
    }
  }

  /** Appending a record with an unused id keeps the ids unique. */
  lemma {:induction false} AcrescentarIdsUnicos(rs: seq<Produto>, p: Produto)
    requires IdsUnicos(rs) && p.id !in Ids(rs)
    ensures IdsUnicos(rs + [p])
  {
    var r := rs + [p];
    forall a, b | 0 <= a < b < |r| ensures r[a].id != r[b].id {
      assert r[a] == rs[a];
      if b == |rs| {
        assert rs[a].id in Ids(rs);
      } else {
        assert r[b] == rs[b];
      }
    }
  }

  /** Appending a well-formed record with an unused id keeps the collection consistent. */
  lemma {:induction false} AcrescentarConsistente(rs: seq<Produto>, p: Produto)
    requires Consistente(rs) && BemFormado(p) && p.id !in Ids(rs)
    ensures Consistente(rs + [p])
  {
    AcrescentarIdsUnicos(rs, p);
    AcrescentarBemFormados(rs, p, rs + [p]);
  }

  /** Appending a well-formed record keeps every record well formed. */
  lemma {:induction false} AcrescentarBemFormados(rs: seq<Produto>, p: Produto, r: seq<Produto>)
    requires BemFormado(p) && r == rs + [p]
    requires forall j :: 0 <= j < |rs| ==> BemFormado(rs[j])
    ensures forall j :: 0 <= j < |r| ==> BemFormado(r[j])
  {
    forall j | 0 <= j < |r| ensures BemFormado(r[j]) {
      if j < |rs| {
        assert r[j] == rs[j];
      } else {
        assert r[j] == p;
      }
    }
  }

  /** Replacing a record by one with the same id keeps the set of ids. */
  lemma {:induction false} SubstituirIds(rs: seq<Produto>, i: nat, p: Produto)
    requires i < |rs| && p.id == rs[i].id
    ensures Ids(rs[i := p]) == Ids(rs)
  {
    var r := rs[i := p];
    forall x | x in Ids(r) ensures x in Ids(rs) {
      var j :| 0 <= j < |r| && r[j].id == x;
      assert rs[j].id == x;
    }
    forall x | x in Ids(rs) ensures x in Ids(r) {
      var j :| 0 <= j < |rs| && rs[j].id == x;
      assert r[j].id == x;
    }
  }

  /** Replacing a record by one with the same id keeps the ids unique. */
  lemma {:induction false} SubstituirIdsUnicos(rs: seq<Produto>, i: nat, p: Produto)
    requires i < |rs| && p.id == rs[i].id && IdsUnicos(rs)
    ensures IdsUnicos(rs[i := p])
  {
    var r := rs[i := p];
    forall a, b | 0 <= a < b < |r| ensures r[a].id != r[b].id {
      assert r[a].id == rs[a].id && r[b].id == rs[b].id;
    }
  }

  /** Replacing a record by a well-formed one keeps every record well formed. */
  lemma {:induction false} SubstituirBemFormados(rs: seq<Produto>, i: nat, p: Produto, r: seq<Produto>)
    requires i < |rs| && BemFormado(p) && r == rs[i := p]
    requires forall j :: 0 <= j < |rs| ==> BemFormado(rs[j])
    ensures forall j :: 0 <= j < |r| ==> BemFormado(r[j])
  {
    forall j | 0 <= j < |r| ensures BemFormado(r[j]) {
      if j != i {
        assert r[j] == rs[j];
      }
    }
  }

  /** Replacing a record by one with the same id keeps the ids; by a well-formed one, the consistency too. */
  lemma {:induction false} SubstituirConsistente(rs: seq<Produto>, i: nat, p: Produto)
    requires i < |rs| && p.id == rs[i].id
    ensures Ids(rs[i := p]) == Ids(rs)
    ensures Consistente(rs) && BemFormado(p) ==> Consistente(rs[i := p])
  {
    SubstituirIds(rs, i, p);
    if Consistente(rs) && BemFormado(p) {
      SubstituirIdsUnicos(rs, i, p);
      SubstituirBemFormados(rs, i, p, rs[i := p]);
    }
  }
}
