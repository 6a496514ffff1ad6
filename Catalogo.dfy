/**
 * The catalogue: the `produtos` and `categorias` tables keyed by their
 * primary keys, and the `produto_categoria` association rows. `Estado` is
 * one snapshot and the functions below are the committed effects of the
 * routes; `Banco` is the store the routes update in place.
 */
module Catalogo {
  import opened Uuid
  import opened Juncoes
  import opened ModeloProduto
  import ModeloCategoria

  datatype Estado = Estado(
    produtos: map<Uuid, Produto>,
    categorias: map<Uuid, ModeloCategoria.Categoria>,
    associacoes: set<ProdutoCategoria>)

  /** What a product row satisfies once a validated form has been stored in it. */
  predicate ProdutoValido(p: Produto)
  {
    FotoCoerente(p) && 0 < |p.nome| <= TamanhoNome && p.preco >= 0.0 && p.estoque >= 0
  }

  /**
   * The invariant the application keeps: the foreign keys of every
   * association row exist, each product row is well formed, and every
   * product belongs to at least one category.
   */
  predicate Consistente(e: Estado)
  {
    Referencias(e.associacoes, e.produtos.Keys, e.categorias.Keys) &&
    (forall id :: id in e.produtos ==> ProdutoValido(e.produtos[id])) &&
    (forall id :: id in e.produtos ==> CategoriasDe(e.associacoes, id) != {})
  }

  /** The rows left after `produto.categorias.clear()`. */
  function SemAssociacoes(a: set<ProdutoCategoria>, id: Uuid): (r: set<ProdutoCategoria>)
    ensures forall x :: x in r <==> x in a && x.produtoId != id
  {
    set x | x in a && x.produtoId != id
  }

  /** The rows pairing product `id` with each of `cats`. */
  function Pares(id: Uuid, cats: set<Uuid>): (r: set<ProdutoCategoria>)
    ensures forall x :: x in r <==> x.produtoId == id && x.categoriaId in cats
  {
    set c | c in cats :: ProdutoCategoria(id, c)
  }

  /** Committing product `id` as `p` with exactly the categories `cats` (add, or edit). */
  function GravarProduto(e: Estado, id: Uuid, p: Produto, cats: set<Uuid>): (r: Estado)
    ensures r.produtos == e.produtos[id := p] && r.categorias == e.categorias
    ensures CategoriasDe(r.associacoes, id) == cats
    ensures forall q :: q != id ==> CategoriasDe(r.associacoes, q) == CategoriasDe(e.associacoes, q)
  {
    Estado(e.produtos[id := p], e.categorias, SemAssociacoes(e.associacoes, id) + Pares(id, cats))
  }

  /** `db.session.delete(produto)`: the row and its association rows go. */
  function ExcluirProduto(e: Estado, id: Uuid): (r: Estado)
    ensures r.produtos == e.produtos - {id} && r.categorias == e.categorias
    ensures forall x :: x in r.associacoes <==> x in e.associacoes && x.produtoId != id
    ensures forall q :: q != id ==> CategoriasDe(r.associacoes, q) == CategoriasDe(e.associacoes, q)
  {
    Estado(e.produtos - {id}, e.categorias, SemAssociacoes(e.associacoes, id))
  }

  /** Committing category `id` as `c` (add, or rename). */
  function GravarCategoria(e: Estado, id: Uuid, c: ModeloCategoria.Categoria): (r: Estado)
    ensures r.categorias == e.categorias[id := c]
    ensures r.produtos == e.produtos && r.associacoes == e.associacoes
  {
    e.(categorias := e.categorias[id := c])
  }

  /** `db.session.delete(categoria)`: the row and its association rows go. */
  function ExcluirCategoria(e: Estado, id: Uuid): (r: Estado)
    ensures r.categorias == e.categorias - {id} && r.produtos == e.produtos
    ensures forall x :: x in r.associacoes <==> x in e.associacoes && x.categoriaId != id
    ensures forall q :: CategoriasDe(r.associacoes, q) == CategoriasDe(e.associacoes, q) - {id}
  {
    Estado(e.produtos, e.categorias - {id}, set x | x in e.associacoes && x.categoriaId != id)
  }

  /** The products of category `c` that have it as their only category. */
  function Orfaos(e: Estado, c: Uuid): (r: set<Uuid>)
    ensures forall p :: p in r <==> p in ProdutosDe(e.associacoes, c) && |CategoriasDe(e.associacoes, p)| == 1
  {
    set p | p in ProdutosDe(e.associacoes, c) && |CategoriasDe(e.associacoes, p)| == 1
  }

  /** The products with at least one association to a category of `sel` (the join, with `DISTINCT`). */
  function Correspondentes(e: Estado, sel: set<Uuid>): (r: set<Uuid>)
    ensures forall p :: p in r <==> p in e.produtos && exists c :: c in sel && ProdutoCategoria(p, c) in e.associacoes
  {
    set p | p in e.produtos && exists c :: c in sel && ProdutoCategoria(p, c) in e.associacoes
  }

  /** A one-element set holding `c` is `{c}`. */
  lemma Unitario(s: set<Uuid>, c: Uuid)
    requires c in s
    ensures |s| == 1 <==> s == {c}
  {
    if |s| == 1 {
      assert |s - {c}| == 0;
      assert s - {c} == {};
    }
  }

  /**
   * Removing a category from a consistent catalogue keeps it consistent
   * exactly when none of its products has it as their only category.
   */
  lemma ExcluirCategoriaConsistente(e: Estado, c: Uuid)
    requires Consistente(e) && c in e.categorias
    ensures Consistente(ExcluirCategoria(e, c)) <==> Orfaos(e, c) == {}
  {
    var r := ExcluirCategoria(e, c);
    if Orfaos(e, c) != {} {
      var p :| p in Orfaos(e, c);
      Unitario(CategoriasDe(e.associacoes, p), c);
      assert CategoriasDe(r.associacoes, p) == {};
      assert !Consistente(r);
    } else {
      forall p | p in r.produtos
        ensures CategoriasDe(r.associacoes, p) != {}
      {
        var s := CategoriasDe(e.associacoes, p);
        if c in s {
          Unitario(s, c);
          assert p !in Orfaos(e, c);
          assert s != {c};
          var d :| d in s && d != c;
          assert d in CategoriasDe(r.associacoes, p);
        } else {
          var d :| d in s;
          assert d in CategoriasDe(r.associacoes, p);
        }
      }
    }
  }

  /** Storing a valid product with a non-empty set of existing categories keeps the catalogue consistent. */
  lemma GravarProdutoConsistente(e: Estado, id: Uuid, p: Produto, cats: set<Uuid>)
    requires Consistente(e) && ProdutoValido(p) && cats != {} && cats <= e.categorias.Keys
    ensures Consistente(GravarProduto(e, id, p, cats))
  {
  }

  /** Deleting a product keeps the catalogue consistent. */
  lemma ExcluirProdutoConsistente(e: Estado, id: Uuid)
    requires Consistente(e)
    ensures Consistente(ExcluirProduto(e, id))
  {
  }

  /** Adding or renaming a category keeps the catalogue consistent. */
  lemma GravarCategoriaConsistente(e: Estado, id: Uuid, c: ModeloCategoria.Categoria)
    requires Consistente(e)
    ensures Consistente(GravarCategoria(e, id, c))
  {
  }

  /** Filtering by a selection that holds every category keeps every product. */
  lemma FiltroCompleto(e: Estado, sel: set<Uuid>)
    requires Consistente(e) && e.categorias.Keys <= sel
    ensures Correspondentes(e, sel) == e.produtos.Keys
  {
    forall p | p in e.produtos
      ensures p in Correspondentes(e, sel)
    {
      var c :| c in CategoriasDe(e.associacoes, p);
      assert c in sel && ProdutoCategoria(p, c) in e.associacoes;
    }
  }

  /** The names of the seeded categories, in insertion order. */
  const Sementes: seq<string> := ["Bebidas", "Carnes", "Padaria", "Laticínios", "Hortifruti"]

  /** The categories the seeding adds under the first `n` of `ids`. */
  function Semeadas(ids: seq<Uuid>, n: nat): (m: map<Uuid, ModeloCategoria.Categoria>)
    requires n <= |ids| && n <= |Sementes|
    ensures forall id :: id in m <==> id in ids[..n]
    ensures (forall i, j :: 0 <= i < j < n ==> ids[i] != ids[j]) ==>
      forall k :: 0 <= k < n ==> m[ids[k]] == ModeloCategoria.Categoria(Sementes[k])
  {
    if n == 0 then map[]
    else
      assert ids[..n] == ids[..n - 1] + [ids[n - 1]];
      Semeadas(ids, n - 1)[ids[n - 1] := ModeloCategoria.Categoria(Sementes[n - 1])]
  }

  /** The store the routes change. Records are held by value in the maps. */
  class Banco {
    var produtos: map<Uuid, Produto>
    var categorias: map<Uuid, ModeloCategoria.Categoria>
    var associacoes: set<ProdutoCategoria>

    function Atual(): (e: Estado)
      reads this
      ensures e.produtos == produtos && e.categorias == categorias && e.associacoes == associacoes
    {
      Estado(produtos, categorias, associacoes)
    }

    predicate Valid()
      reads this
    {
      Consistente(Atual())
    }

    /** An empty database. */
    constructor ()
      ensures produtos == map[] && categorias == map[] && associacoes == {}
      ensures Valid()
    {
      produtos := map[];
      categorias := map[];
      associacoes := {};
    }

    /**
     * Start-up seeding: when there is no category yet, the five default
     * categories are added, under the fresh ids `ids`; otherwise nothing changes.
     */
    method Semear(ids: seq<Uuid>)
      requires Valid()
      requires |ids| == |Sementes|
      requires forall i, j :: 0 <= i < j < |ids| ==> ids[i] != ids[j]
      modifies this
      ensures Valid()
      ensures old(categorias) != map[] ==> categorias == old(categorias)
      ensures old(categorias) == map[] ==> categorias == Semeadas(ids, |ids|)
      ensures produtos == old(produtos) && associacoes == old(associacoes)
    {
      if categorias == map[] {
        var i := 0;
        while i < |ids|
          invariant 0 <= i <= |ids|
          invariant categorias == Semeadas(ids, i)
          invariant produtos == old(produtos) && associacoes == old(associacoes)
          invariant Valid()
        {
          GravarCategoriaConsistente(Atual(), ids[i], ModeloCategoria.Categoria(Sementes[i]));
          categorias := categorias[ids[i] := ModeloCategoria.Categoria(Sementes[i])];
          i := i + 1;
        }
      }
    }
  }
}
