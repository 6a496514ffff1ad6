# Catálogo de produtos — a verified model

This project models the core of a small Flask catalogue of products and
categories. The catalogue has three tables:

- `produtos`: name, decimal price, stock, active flag and an optional photo, stored as base64 text plus a MIME type;
- `categorias`: a name;
- `produto_categoria`: the association between the two.

The model covers these parts of the application:

- **The store.** `Catalogo.Banco` is a class with three fields: the products and the categories as maps keyed by UUID, and the association rows as a set of pairs. `Catalogo.Estado` is a snapshot of those fields. The pure functions `GravarProduto`, `ExcluirProduto`, `GravarCategoria` and `ExcluirCategoria` give the committed effect of each route. The store invariant `Consistente` says three things:
  - both foreign keys of every association row exist;
  - every product row is well formed;
  - every product has at least one category.
- **The product routes** (`RotasProduto`): `add`, `edit`, `delete`, the listing `lista`, and the `imagem` and `thumbnail` routes. Each mutating route is a method on the store. Its postcondition gives the outcome the user sees (redirect, flashed message or form with errors) and the new store as a transition function of the old one. `lista` is a method that:
  - parses `page` and `pp`;
  - resolves the category selection from the POST form or the session, and writes the session back;
  - decides whether to filter, and converts the selected ids while dropping malformed ones;
  - orders and de-duplicates the query;
  - pages it: `AllResults`, the requested page, or page 1 with a notice.
- **The category routes** (`RotasCategoria`):
  - `add`;
  - `edit`, which renames the category or shows its product count and a random sample of at most five products;
  - `remove`, which is refused while some product has the category as its only one, and the refusal names those products.
- **The product form** (`FormProduto`): the validators of `ProdutoForm`, including `at_least_one` and the select field's own check that every submitted id is an offered choice.
- **The product entity** (`ModeloProduto`):
  - the column defaults;
  - making the flag and the two photo columns agree;
  - the branch between the placeholder and the stored photo in `imagem` and `thumbnail`, and the MIME type each returns;
  - the caption font rule `max(10, int(size/8))`;
  - the thumbnail target size.
- **Support modules**:
  - standard base64 (RFC 4648 section 4), implemented and proved to round-trip;
  - UUIDs with their canonical text and the parser `uuid.UUID`;
  - Python's `int()` on text, and `str()` of an integer;
  - `ORDER BY nome` as lexicographic order, and a sort that produces it;
  - the `db.paginate` rules of Flask-SQLAlchemy.

The main results are these:

- **Store invariant.** Every route keeps `Consistente` (`Banco.Valid()`).
- **`remove`** deletes a category iff no product would be left without one (`ExcluirCategoriaConsistente`, `Remove`). When it refuses, its message lists exactly those products' names, and the store is unchanged.
- **Photo round trip.** A photo stored by `add` or `edit` is served back byte for byte with its MIME type (`DecodificarCodificar`, `ImagemDoUpload`, `ImagemAposGravar`).
- **Listing filter.** The filter keeps exactly the products that have an association with a selected category. Skipping the filter when every category is selected is sound (`FiltroDeTodasEquivalente`). An id that does not parse never changes the products listed (`AlvoIgnoraMalformado`). Once a selection already filters, it does not change the filter either (`FiltroIgnoraMalformado`).
- **Paging.** The NotFound cases of paging are exactly a page or size below one, or a page past the last (`NaoEncontrada`). `AllResults` is the single page of a paginate sized to the item count (`TodosComoPaginaUnica`).

The model follows the code as written. Two places are worth noting:

- The full-size placeholder is 480×480, while the thumbnail placeholder takes the requested size. The model keeps both as written.
- The session is read with `session.get(key, default)`. A stored empty selection is returned as empty, and then replaced by every category id. The model does the same (`SelecaoGuardada`, `Lista`).

## Model

| member | source | states |
|---|---|---|
| Texto.LerMostrarInteiro | app/routes/produto.py:118 | `int(str(n)) == n` for every integer `n`: a page number written out is read back |
| Texto.LerMostrarNatural | app/routes/produto.py:126 | the digits of a natural number parse back to it |
| Base64.Codificar | app/routes/produto.py:30-31 | `b64encode(...).decode('ascii')`: the text has 4·⌈n/3⌉ characters, all ASCII |
| Base64.IndiceSimbolo | app/models/produto.py:60 | decoding a symbol of the base64 alphabet gives back its index |
| Base64.DecodificarCodificar | app/models/produto.py:60 | `b64decode(b64encode(b)) == b` for every byte string |
| Uuid.LerCanonico | app/routes/produto.py:159-161 | `uuid.UUID(str(u)) == u`: every offered category id parses back to its category |
| Uuid.CanonicoInjetivo | app/routes/produto.py:153 | distinct categories have distinct `str(c.id)` |
| Ordenacao.Inserir | app/routes/produto.py:150 | inserting into a name-ordered sequence keeps it ordered, adds exactly the element, and keeps it repetition-free |
| Ordenacao.Ordenar | app/routes/produto.py:131-132 | `ORDER BY nome`: every element once, in ascending order of name, and nothing else |
| Ordenacao.NomeLeTotal | app/routes/produto.py:150 | any two names are comparable |
| Ordenacao.NomeLeTransitiva | app/routes/produto.py:150 | the name order is transitive |
| Juncoes.CategoriasDe | app/models/produto.py:24-26 | `produto.categorias` is exactly the categories paired with the product |
| Juncoes.ProdutosDe | app/models/categoria.py:17-20 | `lista_de_produtos` is exactly the products paired with the category |
| Juncoes.Inversa | app/models/categoria.py:17-20 | reference fact for `back_populates`: p is among c's products iff c is among p's categories, both read from the same rows |
| Juncoes.RelacoesDentro | app/models/juncoes.py:7-14 | reference fact for the two foreign keys: under them, both directions stay inside the existing records |
| ModeloProduto.NovoProduto | app/models/produto.py:17-22 | column defaults: no photo, both photo columns None, price 0, stock 0, active |
| ModeloProduto.ComFoto | app/routes/produto.py:28-32 | an upload sets the flag, the base64 text of its bytes and its MIME type, and nothing else |
| ModeloProduto.SemFoto | app/routes/produto.py:33-36 | the flag and both photo columns are cleared, and nothing else |
| ModeloProduto.DivTruncada | app/models/produto.py:79 | `int(x / y)` truncates toward zero |
| ModeloProduto.TamanhoFonte | app/models/produto.py:79 | the caption font is at least 10, and is `size / 8` from 88 up |
| ModeloProduto.NovoTamanhoLimite | app/models/produto.py:102-104 | in exact arithmetic, neither side of the target exceeds `size`, and the longer side reaches it |
| ModeloProduto.ImagemSemFoto | app/models/produto.py:30-58 | without a photo, `imagem` is a 480×480 placeholder of type `image/png` |
| ModeloProduto.ImagemDoUpload | app/models/produto.py:59-61 | after an upload is stored, `imagem` returns exactly the uploaded bytes and the uploaded MIME type |
| ModeloProduto.ThumbnailSemFoto | app/models/produto.py:66-96 | without a photo and with `size > 0`, the thumbnail is a size×size PNG placeholder whose font is at least 10; at size 0 the empty canvas cannot be encoded and the request fails |
| ModeloProduto.ThumbnailDoUpload | app/models/produto.py:97-108 | with a stored photo, the thumbnail is that photo reduced within `size` and typed with `foto_mime` rather than a fixed image/png; it fails exactly when a side of the photo or of the reduction target is zero, so always at size 0 |
| FormProduto.Caixa | app/forms/produto.py:40 | an absent check box is false |
| FormProduto.CamposComErro | app/forms/produto.py:31-47 | the reported fields are exactly those whose validators fail; none iff the form validates |
| FormProduto.SelecaoVaziaRecusada | app/forms/produto.py:11-13 | `at_least_one` refuses a missing or empty selection |
| FormProduto.NomeLongoRecusado | app/forms/produto.py:31-33 | a name over 100 characters is reported |
| FormProduto.ExtensaoIgnoraCaixa | app/forms/produto.py:41-42 | `FileAllowed` ignores case: a name passes iff its lower-cased form passes |
| FormProduto.ExtensaoDoSufixo | app/forms/produto.py:41-42 | only the last four characters of a name decide the extension check |
| FormProduto.ExtensaoAceita | app/forms/produto.py:41-42 | every name ending in `.jpg` or `.png`, in either case, passes |
| FormProduto.ExtensaoRecusada | app/forms/produto.py:41-42 | every name ending in `.jpeg` or `.gif` is refused |
| Paginacao.Paginas | app/routes/produto.py:199 | the page count is ⌈total/per_page⌉, and 0 when there is no item |
| Paginacao.Paginar | app/routes/produto.py:199 | without error checking a page always comes back; a page holds at most `per_page` items and reports the full total |
| Paginacao.TodosResultados | app/routes/produto.py:177-196 | `AllResults`: every item, page = pages = 1, no prev/next, total = per_page = last = count, first = 1 iff items |
| Paginacao.PrimeiraPagina | app/routes/produto.py:203 | page 1 never fails and holds the first `per_page` items |
| Paginacao.NaoEncontrada | app/routes/produto.py:198-200 | NotFound exactly when page < 1, per_page < 1, or the page starts past the last item (page > 1) |
| Paginacao.ItemNaPagina | app/routes/produto.py:199 | every item can be reached: item i is at position i mod per_page of page i div per_page + 1 |
| Paginacao.TodosComoPaginaUnica | app/routes/produto.py:172-196 | with items present, `AllResults` equals the one page of a paginate sized to the item count |
| Catalogo.SemAssociacoes | app/routes/produto.py:82 | `categorias.clear()` removes exactly the product's rows |
| Catalogo.Pares | app/routes/produto.py:83-86 | the rows pairing the product with each resolved category, and no others |
| Catalogo.GravarProduto | app/routes/produto.py:81-88 | the product row is replaced, its categories become exactly the given set, and every other product's categories are unchanged |
| Catalogo.ExcluirProduto | app/routes/produto.py:106-107 | the row and exactly its association rows go; other products' categories are unchanged |
| Catalogo.GravarCategoria | app/routes/categoria.py:44-46 | only that category's record changes |
| Catalogo.ExcluirCategoria | app/routes/categoria.py:85-86 | the row and exactly its association rows go; each product loses at most that category |
| Catalogo.Orfaos | app/routes/categoria.py:73-76 | exactly the category's products with a single category |
| Catalogo.Correspondentes | app/routes/produto.py:166-169 | the join with `DISTINCT`: exactly the products with an association to a selected category |
| Catalogo.Unitario | app/routes/categoria.py:75 | a set of one element holding c is {c} |
| Catalogo.ExcluirCategoriaConsistente | app/routes/categoria.py:72-86 | deleting a category keeps the store consistent iff none of its products has it as only category |
| Catalogo.GravarProdutoConsistente | app/routes/produto.py:38-46 | storing a valid row with a non-empty set of existing categories keeps the store consistent |
| Catalogo.ExcluirProdutoConsistente | app/routes/produto.py:106-107 | deleting a product keeps the store consistent |
| Catalogo.GravarCategoriaConsistente | app/routes/categoria.py:24-27 | adding or renaming a category keeps the store consistent |
| Catalogo.FiltroCompleto | app/routes/produto.py:156 | in a consistent store, filtering by every category keeps every product |
| Catalogo.Semeadas | app/__init__.py:55-62 | the seeded map holds exactly the given ids, each with its default name in order |
| Catalogo.Banco.constructor | app/__init__.py:55 | an empty database, which is consistent |
| Catalogo.Banco.Semear | app/__init__.py:55-62 | with no category, the five defaults are added under fresh ids; otherwise nothing changes; the store stays consistent |
| RotasCategoria.Add | app/routes/categoria.py:20-33 | a validated submission adds exactly one category with the submitted name; otherwise nothing changes |
| RotasCategoria.Amostra | app/routes/categoria.py:52-55 | `random.sample`: k distinct members of the pool |
| RotasCategoria.Edit | app/routes/categoria.py:36-62 | unknown id: nothing changes; a valid submission renames only that category; otherwise the count of its products and a sample of min(5, n) distinct ones of them |
| RotasCategoria.MensagemRecusa | app/routes/categoria.py:79-82 | the name of every listed product occurs in the refusal message |
| Texto.JuntarContem | app/routes/categoria.py:81 | every part occurs in `sep.join(partes)` |
| RotasCategoria.ProdutosComUnicaCategoria | app/routes/categoria.py:73-76 | lists each single-category product of the category exactly once, with its name alongside |
| RotasCategoria.ElementosDistintos | app/routes/categoria.py:73-76 | a list without repetition is as long as the set of its members |
| RotasCategoria.Remove | app/routes/categoria.py:65-88 | unknown id: nothing changes; refused iff some product has it as only category, with the message naming those products and the store unchanged; otherwise exactly `ExcluirCategoria` |
| RotasCategoria.Excluir | app/routes/categoria.py:85-86 | the committed deletion is `ExcluirCategoria` |
| RotasCategoria.RemocaoMantemCategorias | app/routes/categoria.py:72-76 | after a removal, every product that had the category still has one |
| RotasProduto.Escolhas | app/routes/produto.py:24 | the choices are exactly `str(c.id)` of the existing categories |
| RotasProduto.ResolverCategoria | app/routes/produto.py:42-43 | `get_by_id` finds a category iff the text parses to an existing key |
| RotasProduto.Resolvidas | app/routes/produto.py:41-44 | exactly the existing categories named by some submitted id |
| RotasProduto.SelecaoValidaResolve | app/routes/produto.py:41-44 | a selection that passes the form resolves every id, so at least one category is attached |
| RotasProduto.ComCampos | app/routes/produto.py:66-69 | copies name, price, stock and active flag, and nothing else |
| RotasProduto.FotoAoAdicionar | app/routes/produto.py:28-36 | the flag is set iff a photo was uploaded; the photo columns agree; nothing else changes |
| RotasProduto.FotoAoAlterar | app/routes/produto.py:71-79 | remove beats upload; an upload replaces the photo; with neither the row is unchanged |
| RotasProduto.FormValidoProdutoValido | app/forms/produto.py:31-39 | a validated form yields a well-formed row on add and on edit |
| RotasProduto.ResolvidasPasso | app/routes/produto.py:83-86 | one more submitted id adds its category, if any |
| RotasProduto.GravacaoValida | app/routes/produto.py:38-46 | storing a validated form keeps the store consistent |
| RotasProduto.Anexar | app/routes/produto.py:41-44 | the append loop adds exactly the rows of the resolved categories |
| RotasProduto.Add | app/routes/produto.py:14-51 | no categories: refused, unchanged; otherwise added iff the form validates, else the form with exactly the failing fields; on success the new state is `GravarProduto` with the resolved categories |
| RotasProduto.Substituir | app/routes/produto.py:81-88 | row update, then clear-then-append, is `GravarProduto` |
| RotasProduto.Edit | app/routes/produto.py:54-96 | unknown product: unchanged; altered iff the form validates; otherwise the form with the current categories pre-selected and the store unchanged |
| RotasProduto.Delete | app/routes/produto.py:99-109 | removes exactly that product and its rows iff it exists |
| RotasProduto.RotaImagem | app/routes/produto.py:214-220 | 404 iff the product does not exist |
| RotasProduto.RotaThumbnail | app/routes/produto.py:223-230 | 404 iff the product does not exist |
| RotasProduto.ImagemAposGravar | app/routes/produto.py:214-220 | the image route serves a stored upload byte for byte with its MIME type |
| RotasProduto.MiniaturaPadrao | app/routes/produto.py:225 | the default thumbnail of a product without photo is a 128×128 PNG with font 16 |
| RotasProduto.PaginaPedida | app/routes/produto.py:118 | the integer value of `page`, or 1 when it is absent or does not parse |
| RotasProduto.PorPaginaPedida | app/routes/produto.py:121-128 | `'all'` iff the text is `all`; its integer value when it parses; else 25, also when absent |
| RotasProduto.ArgumentosNumericos | app/routes/produto.py:118-128 | a page number or size written as an integer is read back as given |
| RotasProduto.Padrao | app/routes/produto.py:142 | `[str(c.id) for c in todas_categorias]`, in the same order |
| RotasProduto.Convertidos | app/routes/produto.py:158-163 | every well-formed id is kept and nothing else; malformed ids are skipped |
| RotasProduto.Filtro | app/routes/produto.py:153-169 | filter iff the selection is non-empty, differs from all ids, and names a well-formed id; then exactly the ids it names |
| RotasProduto.Alvo | app/routes/produto.py:150-169 | without a filter every product; with one, exactly the products with an association row to a filtered category |
| RotasProduto.EscolhasBemFormadas | app/routes/produto.py:153 | every offered id is a well-formed UUID |
| RotasProduto.FiltroIgnoraMalformado | app/routes/produto.py:159-163 | adding a malformed id to a selection that already filters changes nothing |
| RotasProduto.FiltroAcrescimo | app/routes/produto.py:159-163 | an unparsable id outside the choices, added to a selection that differs from all ids, leaves the filter as it was |
| RotasProduto.AlvoIgnoraMalformado | app/routes/produto.py:153-169 | in a consistent store, an unparsable id added to any selection leaves the listed products unchanged, even when the selection named every category |
| RotasProduto.FiltroDeTodasEquivalente | app/routes/produto.py:156 | skipping the filter when all categories are selected keeps the same products as filtering by all |
| Ordenacao.Nomes | app/routes/produto.py:131-132 | the order key of each record is the name read off it, for products and for categories alike |
| RotasProduto.AvisoPagina | app/routes/produto.py:201 | the notice for a missing page carries the requested page number as `str(page)` |
| RotasProduto.SelecaoGuardada | app/routes/produto.py:141-146 | the stored selection when non-empty, else all ids |
| RotasProduto.ConverterIds | app/routes/produto.py:158-163 | the conversion loop yields `Convertidos` |
| RotasProduto.FiltroDaSelecao | app/routes/produto.py:153-169 | the filter decision equals `Filtro` |
| RotasProduto.PaginaDaListagem | app/routes/produto.py:172-203 | `AllResults` for `all`; else the requested page, or page 1 with the notice when it is NotFound |
| RotasProduto.Lista | app/routes/produto.py:112-211 | categories in name order; POST stores the selection in the session, GET reads it; empty means all; the query holds exactly the filtered products, once, by name; paging and fallback as above |

## Left out

- Flask machinery is not modelled, and neither is CSRF protection:
  - routing, `render_template`, `flash`, `redirect`, `abort` and `Response` become result values and message strings;
  - the `category=` tag of each flash is dropped;
  - the message of `categoria.add` (`Categoria '...' adicionada`) is not modelled.
- Transactions are atomic. `session.add`, `delete` and `commit` are the method's effect on the store, and nothing can fail in between.
- ORM object identity, lazy loading and aliasing are not modelled. Records are values held in maps. `produto.categorias` and `lista_de_produtos` are derived from the association set.
- RotasProduto.Anexar: a category id submitted twice collapses into one association row, because associations form a set. The database would reject the duplicate row at commit.
- `app/forms/categoria.py` is not part of this model. The validated category name arrives as an `Option<string>` parameter of `RotasCategoria.Add` and `RotasCategoria.Edit`.
- ModeloCategoria.TamanhoNome records the 128-character width of a category name as documentation only; no route checks it, because the category form is not modelled.
- Fresh keys (`uuid.uuid4`) are parameters of `Add`, and the model requires them to be unused.
- The seed ids of `Banco.Semear` are parameters, and the model requires them to be distinct.
- `random.sample` becomes any choice of `k` distinct members (`RotasCategoria.Amostra`).
- The clock and `TimeStampMixin` are not modelled.
- `get_by_id` and `is_empty` (BasicRepositoryMixin) are not part of this model:
  - `get_by_id` is taken to be membership of the parsed key;
  - `is_empty` means no category row.
- Uuid.Ler accepts a strict subset of what `uuid.UUID` accepts: after dropping hyphens, exactly 32 hex digits. `uuid.UUID` also strips `urn:`, `uuid:` and surrounding braces. It then reads the 32 characters with `int(hex, 16)`, which also takes a sign, a `0x` prefix, underscores and surrounding whitespace, and any Unicode decimal digit, not only ASCII: 32 Arabic-Indic zeros (U+0660) read as the UUID 0. So a posted `cat` of `0x` followed by 30 zeros filters by the UUID 0 in the application and lists nothing. The model treats it as malformed, applies no filter and lists every product.
- Texto.LerInteiro accepts a strict subset of what Python's `int()` accepts: an optional sign and ASCII decimal digits. `int()` also takes surrounding whitespace, underscores between digits and non-ASCII decimal digits. For `page` and `pp`, such text gives a number in the application and the default (1, or 25) in the model.
- Base64.Decodificar is strict. Python's `b64decode` silently discards characters outside the alphabet. Payloads the application stores are always well formed, so this does not change any stored-photo result.
- The decimal price is an exact `real`. `DECIMAL(10,2)` rounding, the column bound and the `places=2` rounding of `DecimalField` are not modelled.
- The stock column has no 32-bit bound.
- The parsing of posted numbers is not modelled. The form fields arrive as absent, malformed or a value.
- ModeloProduto.NovoTamanho and NovoTamanhoLimite compute in exact real arithmetic instead of floating point, and float rounding is not modelled. The bound "no side exceeds size" holds in both. The clause "the longer side reaches size" does not always hold in floats. For a 49×49 photo at the default size 128, `49 * (128/49)` is 127.99999999999999, so the application's target is (127, 127), while the model gives (128, 128). For the same reason, the model's zero-side test on the target can disagree with the application's on photos whose scaled side sits just above or below an integer.
- The imaging library is not modelled:
  - canvas drawing, text centering and the `textbbox` arithmetic;
  - PNG encoding;
  - `Image.open` and the actual `Image.thumbnail` resize, which never enlarges.

  The placeholder is described by its size, caption and font choice. The font-file fallback is a boolean parameter (`arialDisponivel`). The width and height of a stored photo are a parameter (`dimensoes`). A decoding failure or a zero dimension becomes an error value.
- `db.paginate` is library code and not part of this model. `Paginacao.Paginar` follows the documented rules of Flask-SQLAlchemy 3:
  - with error checking on, a page or size below one, or an empty page other than the first, is NotFound;
  - without error checking, those fall back to page 1 and 20 per page;
  - the `max_per_page` cap and `count=False` are not modelled.
- `iter_pages` of `AllResults` and of the paginate object is only used for rendering, and is not modelled.
- Ordenacao.Ordenar: `ORDER BY nome` uses the database collation, and the model takes lexicographic order on code points. Rows with equal names may come in any order.
- The category choices of the product form are listed by name (app/routes/produto.py:23-24). The model keeps them as a set, because their order only affects rendering.
- The session is a map parameter returned updated. Only the `categorias_filtro` key is read or written.
- `DivListWidget`, the HTML of the category check boxes, is not modelled.
- `app/modules.py`, the configuration, logging and the schema check in `app/__init__.py` are plumbing, and none is part of this model.
