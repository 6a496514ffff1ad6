/**
 * The pages a listing is served in. `Paginar` follows the rules of the
 * pagination helper the product listing calls (`db.paginate`): a page is a
 * slice of the ordered query, and with error checking on, a page number or
 * size below one, or an empty page other than the first, is a NotFound.
 * Without error checking those values fall back to page 1 and 20 per page.
 * `TodosResultados` is the listing's own single-page stand-in (`AllResults`).
 */
module Paginacao {
  import opened Tipos

  datatype Pagina<T> = Pagina(
    items: seq<T>,
    page: int,
    perPage: int,
    total: nat,
    pages: nat,
    first: nat,
    last: nat,
    hasPrev: bool,
    hasNext: bool)

  const PorPaginaPadrao: int := 20

  function Min(a: int, b: int): (m: int)
    ensures m <= a && m <= b && (m == a || m == b)
  {
    if a <= b then a else b
  }

  /** Number of pages of `total` items, `perPage` to a page. */
  function Paginas(total: nat, perPage: int): (n: nat)
    requires perPage >= 1
    ensures total > 0 ==> (n - 1) * perPage < total <= n * perPage
    ensures total == 0 ==> n == 0
  {
    if total == 0 then 0 else (total + perPage - 1) / perPage
  }

  /** `db.paginate(q, page=page, per_page=perPage, error_out=errorOut)`; `None` is NotFound. */
  function Paginar<T>(q: seq<T>, page: int, perPage: int, errorOut: bool): (r: Option<Pagina<T>>)
    ensures !errorOut ==> r.Some?
    ensures r.Some? ==> r.value.page >= 1 && r.value.perPage >= 1 && r.value.total == |q|
    ensures r.Some? ==> |r.value.items| <= r.value.perPage
  {
    if errorOut && (page < 1 || perPage < 1) then None
    else
      var pg := if page < 1 then 1 else page;
      var pp := if perPage < 1 then PorPaginaPadrao else perPage;
      var inicio := (pg - 1) * pp;
      var itens := if inicio >= |q| then [] else q[inicio..Min(inicio + pp, |q|)];
      if errorOut && itens == [] && pg != 1 then None
      else
        var n := Paginas(|q|, pp);
        Some(Pagina(itens, pg, pp, |q|, n,
                    if itens == [] then 0 else inicio + 1,
                    if itens == [] then 0 else inicio + |itens|,
                    pg > 1, pg < n))
  }

  /** `AllResults(items)`: every item on one pseudo-page. */
  function TodosResultados<T>(q: seq<T>): (r: Pagina<T>)
    ensures r.items == q && r.total == |q| && r.perPage == |q| && r.last == |q|
    ensures r.page == 1 && r.pages == 1 && !r.hasPrev && !r.hasNext
    ensures r.first == if q == [] then 0 else 1
  {
    Pagina(q, 1, |q|, |q|, 1, if q == [] then 0 else 1, |q|, false, false)
  }

  /** Page 1 never fails and holds the first `perPage` items. */
  lemma PrimeiraPagina<T>(q: seq<T>, perPage: int, errorOut: bool)
    requires perPage >= 1
    ensures Paginar(q, 1, perPage, errorOut).Some?
    ensures Paginar(q, 1, perPage, errorOut).value.items == q[..Min(perPage, |q|)]
    ensures Paginar(q, 1, perPage, errorOut).value.page == 1
  {
  }

  /** The NotFound cases exactly: a page or size below one, or a page past the last one. */
  lemma NaoEncontrada<T>(q: seq<T>, page: int, perPage: int)
    ensures Paginar(q, page, perPage, true).None? <==>
      page < 1 || perPage < 1 || (page > 1 && (page - 1) * perPage >= |q|)
  {
  }

  /** Every item is reachable: item `i` is at position `i % perPage` of page `i / perPage + 1`. */
  lemma ItemNaPagina<T>(q: seq<T>, perPage: int, i: int)
    requires perPage >= 1 && 0 <= i < |q|
    ensures var r := Paginar(q, i / perPage + 1, perPage, true);
      r.Some? && i % perPage < |r.value.items| && r.value.items[i % perPage] == q[i]
  {
    var pg := i / perPage + 1;
    var inicio := (pg - 1) * perPage;
    assert inicio == (i / perPage) * perPage;
    assert inicio + i % perPage == i;
    assert inicio <= i < |q|;
  }

  /** With items present, `AllResults` is the one page of a paginate sized to the item count. */
  lemma TodosComoPaginaUnica<T>(q: seq<T>)
    requires q != []
    ensures Paginar(q, 1, |q|, true) == Some(TodosResultados(q))
  {
    var n := |q|;
    assert (n + n - 1) / n == 1 by {
      assert n <= n + n - 1 < 2 * n;
    }
    assert Paginas(n, n) == 1;
    assert Min(0 + n, n) == n;
    assert q[0..n] == q;
  }
}
