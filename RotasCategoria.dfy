/**
 * The category routes: `add`, `edit` (rename, or show the form with a
 * count and a random sample of the category's products) and `remove`
 * (refused while a product would be left without category). Redirects and
 * flashed messages become the outcome values below.
 */
module RotasCategoria {
  import opened Tipos
  import opened Texto
  import opened Uuid
  import opened Juncoes
  import opened Ordenacao
  import opened Catalogo
  import ModeloCategoria

  /** `add`: a validated submission carries the new name; the new row's key is `novoId`. */
  method Add(db: Banco, nome: Option<string>, novoId: Uuid) returns (adicionada: bool)
    requires db.Valid() && novoId !in db.categorias
    modifies db
    ensures db.Valid()
    ensures adicionada <==> nome.Some?
    ensures adicionada ==> db.Atual() == GravarCategoria(old(db.Atual()), novoId, ModeloCategoria.Categoria(nome.value))
    ensures !adicionada ==> db.Atual() == old(db.Atual())
  {
    adicionada := nome.Some?;
    if adicionada {
      GravarCategoriaConsistente(db.Atual(), novoId, ModeloCategoria.Categoria(nome.value));
      db.categorias := db.categorias[novoId := ModeloCategoria.Categoria(nome.value)];
    }
  }

  datatype Edicao =
    | Inexistente                                       // "Categoria inexistente", back to the list
    | Alterada                                          // "Categoria alterada", back to the list
    | Formulario(totalProdutos: nat, amostra: seq<Uuid>)  // the form, with the category's products

  /** `random.sample(pool, k)`: `k` distinct members of `pool`, chosen freely. */
  method Amostra(pool: set<Uuid>, k: nat) returns (s: seq<Uuid>)
    requires k <= |pool|
    ensures |s| == k
    ensures SemRepeticao(s)
    ensures forall x :: x in s ==> x in pool
  {
    s := [];
    var resto := pool;
    while |s| < k
      invariant |s| <= k
      invariant resto <= pool
      invariant SemRepeticao(s)
      invariant forall x :: x in s <==> x in pool && x !in resto
      invariant |s| + |resto| == |pool|
      decreases k - |s|
    {
      var x :| x in resto;
      s := s + [x];
      resto := resto - {x};
    }
  }

  /** `edit`: a validated submission carries the new name. */
  method Edit(db: Banco, id: Uuid, nome: Option<string>) returns (r: Edicao)
    requires db.Valid()
    modifies db
    ensures db.Valid()
    ensures id !in old(db.categorias) ==> r == Inexistente && db.Atual() == old(db.Atual())
    ensures id in old(db.categorias) && nome.Some? ==>
      r == Alterada && db.Atual() == GravarCategoria(old(db.Atual()), id, ModeloCategoria.Categoria(nome.value))
    ensures id in old(db.categorias) && nome.None? ==> db.Atual() == old(db.Atual()) && r.Formulario?
    ensures r.Formulario? ==>
      var pool := ProdutosDe(db.associacoes, id);
      r.totalProdutos == |pool| &&
      |r.amostra| == (if |pool| < 5 then |pool| else 5) &&
      SemRepeticao(r.amostra) && (forall x :: x in r.amostra ==> x in pool)
  {
    if id !in db.categorias {
      return Inexistente;
    }
    if nome.Some? {
      GravarCategoriaConsistente(db.Atual(), id, ModeloCategoria.Categoria(nome.value));
      db.categorias := db.categorias[id := ModeloCategoria.Categoria(nome.value)];
      return Alterada;
    }
    var pool := ProdutosDe(db.associacoes, id);
    var k := if |pool| < 5 then |pool| else 5;
    var amostra := Amostra(pool, k);
    r := Formulario(|pool|, amostra);
  }

  /** The flashed refusal listing the products that would lose their last category. */
  function MensagemRecusa(nomes: seq<string>): (m: string)
    ensures |m| >= 1
    ensures forall k :: 0 <= k < |nomes| ==> Contem(m, nomes[k])
  {
    var lista := Juntar(nomes, ", ");
    JuntarContem(nomes, ", ");
    ContemTodosComPrefixo(AvisoRecusa, lista, nomes);
    AvisoRecusa + lista
  }

  /** The fixed opening of the refusal message. */
  const AvisoRecusa: string := "Não é possível remover esta categoria. Os seguintes produtos ficariam sem categoria: "

  /**
   * `ids` lists each product of `c` whose only category is `c` exactly once,
   * and `nomes` holds their names in the same order.
   */
  ghost predicate ListaOrfaos(e: Estado, c: Uuid, ids: seq<Uuid>, nomes: seq<string>)
  {
    SemRepeticao(ids) &&
    (forall p :: p in ids <==> p in Orfaos(e, c)) &&
    |nomes| == |ids| &&
    forall k :: 0 <= k < |ids| ==> ids[k] in e.produtos && nomes[k] == e.produtos[ids[k]].nome
  }

  /**
   * The loop over `categoria.lista_de_produtos` keeping the products with a
   * single category: each such product once, with its name alongside.
   */
  method ProdutosComUnicaCategoria(e: Estado, c: Uuid) returns (ids: seq<Uuid>, nomes: seq<string>)
    requires Referencias(e.associacoes, e.produtos.Keys, e.categorias.Keys)
    ensures ListaOrfaos(e, c, ids, nomes)
    ensures |ids| == |Orfaos(e, c)|
  {
    ids, nomes := [], [];
    var pool := ProdutosDe(e.associacoes, c);
    ghost var vistos: set<Uuid> := {};
    while pool != {}
      invariant pool + vistos == ProdutosDe(e.associacoes, c) && pool !! vistos
      invariant SemRepeticao(ids)
      invariant forall p :: p in ids <==> p in vistos && p in Orfaos(e, c)
      invariant |nomes| == |ids|
      invariant forall k :: 0 <= k < |ids| ==> ids[k] in e.produtos && nomes[k] == e.produtos[ids[k]].nome
      decreases pool
    {
      var p :| p in pool;
      if |CategoriasDe(e.associacoes, p)| == 1 {
        assert ProdutoCategoria(p, c) in e.associacoes;
        ids := ids + [p];
        nomes := nomes + [e.produtos[p].nome];
      }
      pool := pool - {p};
      vistos := vistos + {p};
    }
    assert forall p :: p in Orfaos(e, c) ==> p in ProdutosDe(e.associacoes, c);
    ElementosDistintos(ids, Orfaos(e, c));
  }

  /** A repetition-free sequence has as many elements as the set of its members. */
  lemma {:induction false} ElementosDistintos(s: seq<Uuid>, a: set<Uuid>)
    requires SemRepeticao(s)
    requires forall x :: x in s <==> x in a
    ensures |s| == |a|
    decreases |s|
  {
    if s != [] {
      var u := s[|s| - 1];
      var t := s[..|s| - 1];
      assert forall x :: x in t <==> x in a - {u} by {
        forall x ensures x in t <==> x in a - {u} {
          if x in t {
            var k :| 0 <= k < |t| && t[k] == x;
            assert s[k] == x && k < |s| - 1;
          }
          if x in a - {u} {
            assert x in s;
            var k :| 0 <= k < |s| && s[k] == x;
            assert k != |s| - 1;
            assert t[k] == x;
          }
        }
      }
      ElementosDistintos(t, a - {u});
    }
  }

  datatype Remocao =
    | Ausente                                    // "Categoria inexistente"
    | Recusada(mensagem: string, nomes: seq<string>)
    | Removida                                   // "Categoria removida"

  /** `remove`: the guarded deletion of category `id`. */
  method Remove(db: Banco, id: Uuid) returns (r: Remocao, ghost listados: seq<Uuid>)
    requires db.Valid()
    modifies db
    ensures db.Valid()
    ensures id !in old(db.categorias) ==> r == Ausente && db.Atual() == old(db.Atual())
    ensures id in old(db.categorias) ==> (r.Recusada? <==> Orfaos(old(db.Atual()), id) != {})
    ensures id in old(db.categorias) ==> (r.Removida? <==> Orfaos(old(db.Atual()), id) == {})
    ensures r.Recusada? ==>
      db.Atual() == old(db.Atual()) && r.mensagem == MensagemRecusa(r.nomes) &&
      ListaOrfaos(old(db.Atual()), id, listados, r.nomes)
    ensures r.Removida? ==> db.Atual() == ExcluirCategoria(old(db.Atual()), id)
  {
    listados := [];
    if id !in db.categorias {
      return Ausente, listados;
    }
    var e0 := db.Atual();
    var ids, nomes := ProdutosComUnicaCategoria(e0, id);
    listados := ids;
    if |nomes| > 0 {
      return Recusada(MensagemRecusa(nomes), nomes), listados;
    }
    assert Orfaos(e0, id) == {};
    ExcluirCategoriaConsistente(e0, id);
    Excluir(db, id);
    r := Removida;
  }

  /** `db.session.delete(categoria)` and the commit: the row and its association rows go. */
  method Excluir(db: Banco, id: Uuid)
    modifies db
    ensures db.Atual() == ExcluirCategoria(old(db.Atual()), id)
  {
    db.categorias := db.categorias - {id};
    db.associacoes := set x | x in db.associacoes && x.categoriaId != id;
  }

  /** After a removal every product that had the category is still in some category. */
  lemma RemocaoMantemCategorias(e: Estado, id: Uuid, p: Uuid)
    requires Consistente(e) && id in e.categorias && Orfaos(e, id) == {}
    requires p in ProdutosDe(e.associacoes, id)
    ensures CategoriasDe(ExcluirCategoria(e, id).associacoes, p) != {}
  {
    RelacoesDentro(e.associacoes, e.produtos.Keys, e.categorias.Keys, p, id);
    ExcluirCategoriaConsistente(e, id);
  }
}
