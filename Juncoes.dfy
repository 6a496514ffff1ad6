/**
 * The `produto_categoria` association table: one row per (product,
 * category) pair, identified by that pair and carrying nothing else. As a
 * set of pairs it cannot hold the same pair twice. `Produto.categorias`
 * and `Categoria.lista_de_produtos` are its two directions.
 */
module Juncoes {
  import opened Uuid

  datatype ProdutoCategoria = ProdutoCategoria(produtoId: Uuid, categoriaId: Uuid)

  /** `produto.categorias`: the categories paired with product `p`. */
  function CategoriasDe(a: set<ProdutoCategoria>, p: Uuid): (r: set<Uuid>)
    ensures forall c :: c in r <==> ProdutoCategoria(p, c) in a
  {
    set x | x in a && x.produtoId == p :: x.categoriaId
  }

  /** `categoria.lista_de_produtos`: the products paired with category `c`. */
  function ProdutosDe(a: set<ProdutoCategoria>, c: Uuid): (r: set<Uuid>)
    ensures forall p :: p in r <==> ProdutoCategoria(p, c) in a
  {
    set x | x in a && x.categoriaId == c :: x.produtoId
  }

  /** Both foreign keys of every row refer to existing records. */
  predicate Referencias(a: set<ProdutoCategoria>, produtos: set<Uuid>, categorias: set<Uuid>)
  {
    forall x :: x in a ==> x.produtoId in produtos && x.categoriaId in categorias
  }

  /** `back_populates`: `p` is among `c`'s products exactly when `c` is among `p`'s categories. */
  lemma Inversa(a: set<ProdutoCategoria>, p: Uuid, c: Uuid)
    ensures p in ProdutosDe(a, c) <==> c in CategoriasDe(a, p)
  {
  }

  /** Under referential integrity both directions stay inside the existing records. */
  lemma RelacoesDentro(a: set<ProdutoCategoria>, produtos: set<Uuid>, categorias: set<Uuid>, p: Uuid, c: Uuid)
    requires Referencias(a, produtos, categorias)
    ensures CategoriasDe(a, p) <= categorias
    ensures ProdutosDe(a, c) <= produtos
  {
  }
}
