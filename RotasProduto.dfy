/**
 * The product routes: `add`, `edit`, `delete`, the listing `lista`, and the
 * two image routes. Redirects, flashed messages and rendered pages become
 * the outcome values below; the Flask session is an explicit map.
 */
module RotasProduto {
  import opened Tipos
  import opened Texto
  import opened Uuid
  import opened Juncoes
  import opened Ordenacao
  import opened Catalogo
  import opened ModeloProduto
  import opened FormProduto
  import opened Paginacao
  import opened Base64
  import ModeloCategoria

  /** `str(c.id)` of every category in `cats`: the offered choices, or a pre-selection. */
  function Escolhas(cats: set<Uuid>): (r: set<string>)
    ensures forall id :: id in cats ==> Canonico(id) in r
    ensures forall s :: s in r ==> exists id :: id in cats && s == Canonico(id)
  {
    set id | id in cats :: Canonico(id)
  }

  /** `Categoria.get_by_id(s)`: the key of the category named by the text `s`, if any. */
  function ResolverCategoria(s: string, cats: set<Uuid>): (r: Option<Uuid>)
    ensures r.Some? <==> Ler(s).Some? && Ler(s).value in cats
    ensures r.Some? ==> r == Ler(s)
  {
    match Ler(s)
    case None => None
    case Some(u) => if u in cats then Some(u) else None
  }

  /** The categories attached by the append loop over the submitted ids `ss`. */
  function Resolvidas(ss: seq<string>, cats: set<Uuid>): (r: set<Uuid>)
    ensures r <= cats
    ensures forall k :: 0 <= k < |ss| && ResolverCategoria(ss[k], cats).Some? ==>
      ResolverCategoria(ss[k], cats).value in r
    ensures forall u :: u in r ==> exists k :: 0 <= k < |ss| && ResolverCategoria(ss[k], cats) == Some(u)
    decreases |ss|
  {
    if ss == [] then {}
    else
      var anteriores := ss[..|ss| - 1];
      assert forall k :: 0 <= k < |anteriores| ==> anteriores[k] == ss[k];
      var ultima := ResolverCategoria(ss[|ss| - 1], cats);
      Resolvidas(anteriores, cats) + (if ultima.Some? then {ultima.value} else {})
  }

  /**
   * A selection that passes the form's checks against the offered choices
   * resolves every one of its ids, so at least one category is attached.
   */
  lemma SelecaoValidaResolve(sel: Option<seq<string>>, cats: set<Uuid>)
    requires CategoriasValidas(sel, Escolhas(cats))
    ensures forall k :: 0 <= k < |sel.value| ==> ResolverCategoria(sel.value[k], cats).Some?
    ensures Resolvidas(sel.value, cats) != {}
  {
    forall k | 0 <= k < |sel.value|
      ensures ResolverCategoria(sel.value[k], cats).Some?
    {
      var id :| id in cats && sel.value[k] == Canonico(id);
      LerCanonico(id);
    }
    assert ResolverCategoria(sel.value[0], cats).Some?;
  }

  /** The submitted fields copied onto a product row. */
  function ComCampos(p: Produto, f: ProdutoForm): (r: Produto)
    requires f.nome.Some? && f.preco.Valor? && f.estoque.Valor?
    ensures r.nome == f.nome.value && r.preco == f.preco.v && r.estoque == f.estoque.v && r.ativo == Caixa(f.ativo)
    ensures r.(nome := p.nome, preco := p.preco, estoque := p.estoque, ativo := p.ativo) == p
  {
    p.(nome := f.nome.value, preco := f.preco.v, estoque := f.estoque.v, ativo := Caixa(f.ativo))
  }

  /** The photo branch of `add`: an upload sets the three photo columns, otherwise all are cleared. */
  function FotoAoAdicionar(p: Produto, foto: Option<Upload>): (r: Produto)
    ensures FotoCoerente(r)
    ensures r.possuiFoto <==> foto.Some?
    ensures foto.Some? ==> r.fotoBase64 == Some(Codificar(foto.value.conteudo)) && r.fotoMime == Some(foto.value.mimetype)
    ensures r.(possuiFoto := p.possuiFoto, fotoBase64 := p.fotoBase64, fotoMime := p.fotoMime) == p
  {
    if foto.Some? then ComFoto(p, foto.value) else SemFoto(p)
  }

  /** The photo branch of `edit`: the remove box wins over an upload; with neither the photo stays. */
  function FotoAoAlterar(p: Produto, remover: bool, foto: Option<Upload>): (r: Produto)
    ensures FotoCoerente(p) ==> FotoCoerente(r)
    ensures remover ==> !r.possuiFoto && r.fotoBase64 == None && r.fotoMime == None
    ensures !remover && foto.Some? ==>
      r.possuiFoto && r.fotoBase64 == Some(Codificar(foto.value.conteudo)) && r.fotoMime == Some(foto.value.mimetype)
    ensures !remover && foto.None? ==> r == p
    ensures r.(possuiFoto := p.possuiFoto, fotoBase64 := p.fotoBase64, fotoMime := p.fotoMime) == p
  {
    if remover then SemFoto(p) else if foto.Some? then ComFoto(p, foto.value) else p
  }

  /** The row `add` builds from a validated form: column defaults, the fields, then the photo branch. */
  function ProdutoNovo(f: ProdutoForm): (r: Produto)
    requires f.nome.Some? && f.preco.Valor? && f.estoque.Valor?
  {
    FotoAoAdicionar(ComCampos(NovoProduto(f.nome.value), f), f.foto)
  }

  /** The row `edit` stores from a validated form. */
  function ProdutoAlterado(p: Produto, f: ProdutoForm): (r: Produto)
    requires f.nome.Some? && f.preco.Valor? && f.estoque.Valor?
  {
    FotoAoAlterar(ComCampos(p, f), Caixa(f.removerfoto), f.foto)
  }

  /** A validated form yields a well-formed row, for a new product and for an edited one. */
  lemma FormValidoProdutoValido(p: Produto, f: ProdutoForm, escolhas: set<string>)
    requires Valido(f, escolhas) && FotoCoerente(p)
    ensures ProdutoValido(ProdutoNovo(f))
    ensures ProdutoValido(ProdutoAlterado(p, f))
  {
  }

  /** One more submitted id extends the resolved set by its category, if it has one. */
  lemma ResolvidasPasso(ss: seq<string>, i: nat, cats: set<Uuid>)
    requires i < |ss|
    ensures Resolvidas(ss[..i + 1], cats) ==
      Resolvidas(ss[..i], cats) + (if ResolverCategoria(ss[i], cats).Some? then {ResolverCategoria(ss[i], cats).value} else {})
  {
    assert ss[..i + 1][..i] == ss[..i];
  }

  /**
   * Storing a well-formed row under a validated form's categories keeps the
   * catalogue consistent; a fresh key has no association rows to clear.
   */
  lemma GravacaoValida(e: Estado, id: Uuid, p: Produto, f: ProdutoForm)
    requires Consistente(e) && ProdutoValido(p) && Valido(f, Escolhas(e.categorias.Keys))
    ensures Consistente(GravarProduto(e, id, p, Resolvidas(f.categorias.value, e.categorias.Keys)))
    ensures id !in e.produtos ==> SemAssociacoes(e.associacoes, id) == e.associacoes
  {
    SelecaoValidaResolve(f.categorias, e.categorias.Keys);
    GravarProdutoConsistente(e, id, p, Resolvidas(f.categorias.value, e.categorias.Keys));
  }

  /**
   * The append loop: each submitted id that resolves to a category adds the
   * row pairing it with product `id`.
   */
  method Anexar(db: Banco, id: Uuid, ss: seq<string>)
    modifies db
    ensures db.associacoes == old(db.associacoes) + Pares(id, Resolvidas(ss, db.categorias.Keys))
    ensures db.produtos == old(db.produtos) && db.categorias == old(db.categorias)
  {
    var cats := db.categorias.Keys;
    var i := 0;
    while i < |ss|
      invariant 0 <= i <= |ss|
      invariant db.associacoes == old(db.associacoes) + Pares(id, Resolvidas(ss[..i], cats))
      invariant db.produtos == old(db.produtos) && db.categorias == old(db.categorias)
    {
      ResolvidasPasso(ss, i, cats);
      var c := ResolverCategoria(ss[i], cats);
      if c.Some? {
        assert Pares(id, Resolvidas(ss[..i], cats) + {c.value}) == Pares(id, Resolvidas(ss[..i], cats)) + {ProdutoCategoria(id, c.value)};
        db.associacoes := db.associacoes + {ProdutoCategoria(id, c.value)};
      }
      i := i + 1;
    }
    assert ss[..|ss|] == ss;
  }

  datatype Adicao =
    | SemCategorias                 // "Impossível adicionar produto...", to the category form
    | FormAdd(erros: set<CampoForm>)  // the form again, with the fields in error
    | Adicionado                    // "Produto adicionado!", to the list

  /** `add`; `form` is `None` for a request without a submission, `novoId` the new row's key. */
  method Add(db: Banco, form: Option<ProdutoForm>, novoId: Uuid) returns (r: Adicao)
    requires db.Valid() && novoId !in db.produtos
    modifies db
    ensures db.Valid()
    ensures old(db.categorias) == map[] ==> r == SemCategorias
    ensures old(db.categorias) != map[] && form.None? ==> r == FormAdd({})
    ensures old(db.categorias) != map[] && form.Some? ==>
      (r.Adicionado? <==> Valido(form.value, Escolhas(old(db.categorias).Keys))) &&
      (r.FormAdd? ==> r.erros == CamposComErro(form.value, Escolhas(old(db.categorias).Keys)))
    ensures !r.Adicionado? ==> db.Atual() == old(db.Atual())
    ensures r.Adicionado? ==>
      form.Some? && Valido(form.value, Escolhas(old(db.categorias).Keys)) &&
      db.Atual() == GravarProduto(old(db.Atual()), novoId, ProdutoNovo(form.value),
                                  Resolvidas(form.value.categorias.value, old(db.categorias).Keys))
  {
    if db.categorias == map[] {
      return SemCategorias;
    }
    var escolhas := Escolhas(db.categorias.Keys);
    if form.None? {
      return FormAdd({});
    }
    var f := form.value;
    if !Valido(f, escolhas) {
      return FormAdd(CamposComErro(f, escolhas));
    }
    var p := ProdutoNovo(f);
    FormValidoProdutoValido(p, f, escolhas);
    GravacaoValida(db.Atual(), novoId, p, f);
    db.produtos := db.produtos[novoId := p];
    Anexar(db, novoId, f.categorias.value);
    r := Adicionado;
  }

  /** The committed part of a validated `edit`: the row's fields, then clear-then-append of its categories. */
  method Substituir(db: Banco, id: Uuid, p: Produto, ss: seq<string>)
    modifies db
    ensures db.Atual() == GravarProduto(old(db.Atual()), id, p, Resolvidas(ss, old(db.categorias).Keys))
  {
    db.produtos := db.produtos[id := p];
    db.associacoes := SemAssociacoes(db.associacoes, id);
    Anexar(db, id, ss);
  }

  datatype Alteracao =
    | ProdutoInexistente                                      // "Produto inexistente", to the list
    | FormEdit(erros: set<CampoForm>, selecionadas: set<string>)  // the form, current categories pre-selected
    | Alterado                                                // "Produto alterado", to the list

  /** `edit` of product `id`; `form` is `None` for a request without a submission. */
  method Edit(db: Banco, id: Uuid, form: Option<ProdutoForm>) returns (r: Alteracao)
    requires db.Valid()
    modifies db
    ensures db.Valid()
    ensures id !in old(db.produtos) ==> r == ProdutoInexistente
    ensures id in old(db.produtos) ==>
      (r.Alterado? <==> form.Some? && Valido(form.value, Escolhas(old(db.categorias).Keys)))
    ensures r.FormEdit? ==>
      r.selecionadas == Escolhas(CategoriasDe(old(db.associacoes), id)) &&
      r.erros == (if form.Some? then CamposComErro(form.value, Escolhas(old(db.categorias).Keys)) else {})
    ensures !r.Alterado? ==> db.Atual() == old(db.Atual())
    ensures r.Alterado? ==>
      id in old(db.produtos) && form.Some? && Valido(form.value, Escolhas(old(db.categorias).Keys)) &&
      db.Atual() == GravarProduto(old(db.Atual()), id, ProdutoAlterado(old(db.produtos)[id], form.value),
                                  Resolvidas(form.value.categorias.value, old(db.categorias).Keys))
  {
    if id !in db.produtos {
      return ProdutoInexistente;
    }
    var escolhas := Escolhas(db.categorias.Keys);
    if form.None? || !Valido(form.value, escolhas) {
      var erros := if form.Some? then CamposComErro(form.value, escolhas) else {};
      return FormEdit(erros, Escolhas(CategoriasDe(db.associacoes, id)));
    }
    var f := form.value;
    var p := ProdutoAlterado(db.produtos[id], f);
    FormValidoProdutoValido(db.produtos[id], f, escolhas);
    GravacaoValida(db.Atual(), id, p, f);
    Substituir(db, id, p, f.categorias.value);
    r := Alterado;
  }

  /** `delete` of product `id`: unconditional when the product exists. */
  method Delete(db: Banco, id: Uuid) returns (removido: bool)
    requires db.Valid()
    modifies db
    ensures db.Valid()
    ensures removido <==> id in old(db.produtos)
    ensures removido ==> db.Atual() == ExcluirProduto(old(db.Atual()), id)
    ensures !removido ==> db.Atual() == old(db.Atual())
  {
    removido := id in db.produtos;
    if removido {
      ExcluirProdutoConsistente(db.Atual(), id);
      db.produtos := db.produtos - {id};
      db.associacoes := SemAssociacoes(db.associacoes, id);
    }
  }

  /** An image route's answer: a 404, or the product's image. */
  datatype Resposta = NaoEncontrado | Imagem(resultado: Resultado)

  /** `imagem/<id>`. */
  function RotaImagem(e: Estado, id: Uuid, arialDisponivel: bool): (r: Resposta)
    ensures r.NaoEncontrado? <==> id !in e.produtos
  {
    if id !in e.produtos then NaoEncontrado else Imagem(ModeloProduto.Imagem(e.produtos[id], arialDisponivel))
  }

  /** The size of `thumbnail/<id>` when the URL gives none. */
  const TamanhoMiniatura: nat := 128

  /** `thumbnail/<id>[/<size>]`. */
  function RotaThumbnail(e: Estado, id: Uuid, size: Option<nat>, arialDisponivel: bool, dimensoes: (int, int)): (r: Resposta)
    ensures r.NaoEncontrado? <==> id !in e.produtos
  {
    if id !in e.produtos then NaoEncontrado
    else Imagem(Thumbnail(e.produtos[id], if size.Some? then size.value else TamanhoMiniatura, arialDisponivel, dimensoes))
  }

  /** A photo stored by `add` or `edit` is served back byte for byte, with its MIME type. */
  lemma ImagemAposGravar(e: Estado, id: Uuid, p: Produto, u: Upload, cats: set<Uuid>, arialDisponivel: bool)
    ensures RotaImagem(GravarProduto(e, id, ComFoto(p, u), cats), id, arialDisponivel) ==
      Imagem(Ok(Original(u.conteudo), Some(u.mimetype)))
  {
    ImagemDoUpload(p, u, arialDisponivel);
  }

  /** Without a size in the URL, a product without photo gets a 128x128 PNG placeholder. */
  lemma MiniaturaPadrao(e: Estado, id: Uuid, arialDisponivel: bool, dimensoes: (int, int))
    requires id in e.produtos && !e.produtos[id].possuiFoto
    ensures var r := RotaThumbnail(e, id, None, arialDisponivel, dimensoes);
      r.Imagem? && r.resultado.Ok? && r.resultado.tipo == Some(Png) &&
      r.resultado.conteudo.Marcador? && r.resultado.conteudo.largura == 128 && r.resultado.conteudo.altura == 128 &&
      (r.resultado.conteudo.fonte.TrueType? ==> r.resultado.conteudo.fonte.tamanho == 16)
  {
    ThumbnailSemFoto(e.produtos[id], TamanhoMiniatura, arialDisponivel, dimensoes);
  }

  // ---- the listing ----

  datatype Metodo = Get | Post

  /** The parts of a listing request: its method, the `page` and `pp` arguments, the posted `cat` list. */
  datatype Requisicao = Requisicao(metodo: Metodo, page: Option<string>, pp: Option<string>, cat: seq<string>)

  /** The page size: every item at once, or a number to a page. */
  datatype PorPagina = Todos | Tamanho(n: int)

  /** The session key under which the posted selection is kept. */
  const ChaveFiltro: string := "categorias_filtro"

  /** `request.args.get('page', type=int, default=1)`. */
  function PaginaPedida(raw: Option<string>): (page: int)
    ensures raw.Some? && LerInteiro(raw.value).Some? ==> page == LerInteiro(raw.value).value
    ensures (raw.None? || LerInteiro(raw.value).None?) ==> page == 1
  {
    if raw.Some? && LerInteiro(raw.value).Some? then LerInteiro(raw.value).value else 1
  }

  /** The `pp` argument: `'all'`, else its integer value, else 25; 25 is also the default. */
  function PorPaginaPedida(raw: Option<string>): (pp: PorPagina)
    ensures pp == Todos <==> raw == Some("all")
    ensures raw.Some? && raw.value != "all" && LerInteiro(raw.value).Some? ==> pp == Tamanho(LerInteiro(raw.value).value)
    ensures raw.Some? && raw.value != "all" && LerInteiro(raw.value).None? ==> pp == Tamanho(25)
    ensures raw.None? ==> pp == Tamanho(25)
  {
    var texto := if raw.Some? then raw.value else "25";
    assert LerInteiro("25") == Some(25) by { LerMostrarInteiro(25); assert MostrarInteiro(25) == "25"; }
    if texto == "all" then Todos
    else match LerInteiro(texto)
      case Some(n) => Tamanho(n)
      case None => Tamanho(25)
  }

  /** Any page number and page size written out as a number are read back as given. */
  lemma ArgumentosNumericos(page: int, pp: int)
    ensures PaginaPedida(Some(MostrarInteiro(page))) == page
    ensures PorPaginaPedida(Some(MostrarInteiro(pp))) == Tamanho(pp)
  {
    LerMostrarInteiro(page);
    LerMostrarInteiro(pp);
    assert LerInteiro("all") == None;
  }

  /** `[str(c.id) for c in todas_categorias]`. */
  function Padrao(todas: seq<Uuid>): (r: seq<string>)
    ensures |r| == |todas|
    ensures forall k :: 0 <= k < |todas| ==> r[k] == Canonico(todas[k])
  {
    seq(|todas|, k requires 0 <= k < |todas| => Canonico(todas[k]))
  }

  /** The identifiers the conversion loop keeps: the well-formed ones, in order, malformed ones skipped. */
  function Convertidos(ss: seq<string>): (r: seq<Uuid>)
    ensures |r| <= |ss|
    ensures forall k :: 0 <= k < |ss| && Ler(ss[k]).Some? ==> Ler(ss[k]).value in r
    ensures forall u :: u in r ==> exists k :: 0 <= k < |ss| && Ler(ss[k]) == Some(u)
    decreases |ss|
  {
    if ss == [] then []
    else
      var anteriores := ss[..|ss| - 1];
      assert forall k :: 0 <= k < |anteriores| ==> anteriores[k] == ss[k];
      var ultimo := Ler(ss[|ss| - 1]);
      Convertidos(anteriores) + (if ultimo.Some? then [ultimo.value] else [])
  }

  /**
   * The category filter of the listing: none when the selection is empty,
   * equals the set of all category ids, or names no well-formed id;
   * otherwise the ids it names.
   */
  function Filtro(sel: seq<string>, todas: set<string>): (r: Option<set<Uuid>>)
    ensures r.Some? <==> Conjunto(sel) != {} && Conjunto(sel) != todas && Convertidos(sel) != []
    ensures r.Some? ==> forall u :: u in r.value <==> u in Convertidos(sel)
  {
    var escolhidas := Conjunto(sel);
    if escolhidas != {} && escolhidas != todas && Convertidos(sel) != [] then Some(Conjunto(Convertidos(sel)))
    else None
  }

  /** The products the query selects. */
  function Alvo(e: Estado, filtro: Option<set<Uuid>>): (r: set<Uuid>)
    ensures r <= e.produtos.Keys
    ensures forall p :: p in r <==>
      (p in e.produtos && (filtro.None? || exists c :: c in filtro.value && ProdutoCategoria(p, c) in e.associacoes))
  {
    match filtro
    case None => e.produtos.Keys
    case Some(s) => Correspondentes(e, s)
  }

  /** Every offered choice is a well-formed identifier. */
  lemma EscolhasBemFormadas(cats: set<Uuid>)
    ensures forall s :: s in Escolhas(cats) ==> BemFormado(s)
  {
    forall s | s in Escolhas(cats) ensures BemFormado(s) {
      var id :| id in cats && s == Canonico(id);
      LerCanonico(id);
    }
  }

  /** A malformed id added to a selection that already filters changes nothing. */
  lemma FiltroIgnoraMalformado(sel: seq<string>, ruim: string, cats: set<Uuid>)
    requires !BemFormado(ruim)
    requires Conjunto(sel) != Escolhas(cats)
    ensures Filtro(sel + [ruim], Escolhas(cats)) == Filtro(sel, Escolhas(cats))
  {
    EscolhasBemFormadas(cats);
    assert ruim !in Escolhas(cats);
    FiltroAcrescimo(sel, ruim, Escolhas(cats));
  }

  lemma FiltroAcrescimo(sel: seq<string>, ruim: string, todas: set<string>)
    requires Ler(ruim).None? && ruim !in todas
    requires Conjunto(sel) != todas
    ensures Filtro(sel + [ruim], todas) == Filtro(sel, todas)
  {
    var ss := sel + [ruim];
    assert ss[..|ss| - 1] == sel;
    var c := Convertidos(sel);
    assert Convertidos(ss) == c;
    var b := Conjunto(ss);
    assert ruim in b && ruim !in todas;
    assert b != {} && b != todas;
    assert Filtro(ss, todas) == if c != [] then Some(Conjunto(c)) else None;
    if sel == [] {
      assert c == [];
    } else {
      var a := Conjunto(sel);
      assert sel[0] in a;
      assert Filtro(sel, todas) == if c != [] then Some(Conjunto(c)) else None;
    }
  }

  /**
   * Skipping the filter is sound: filtering by every category id keeps the
   * same products as no filter at all.
   */
  lemma FiltroDeTodasEquivalente(e: Estado, sel: seq<string>)
    requires Consistente(e)
    requires Conjunto(sel) == Escolhas(e.categorias.Keys)
    ensures Correspondentes(e, Conjunto(Convertidos(sel))) == e.produtos.Keys
  {
    var s := Conjunto(Convertidos(sel));
    forall c | c in e.categorias
      ensures c in s
    {
      assert Canonico(c) in Conjunto(sel);
      var k :| 0 <= k < |sel| && sel[k] == Canonico(c);
      LerCanonico(c);
      assert Ler(sel[k]) == Some(c);
    }
    FiltroCompleto(e, s);
  }

  /** An unparsable id never changes which products the listing selects. */
  lemma AlvoIgnoraMalformado(e: Estado, sel: seq<string>, ruim: string)
    requires Consistente(e)
    requires !BemFormado(ruim)
    ensures Alvo(e, Filtro(sel + [ruim], Escolhas(e.categorias.Keys))) == Alvo(e, Filtro(sel, Escolhas(e.categorias.Keys)))
  {
    var todas := Escolhas(e.categorias.Keys);
    if Conjunto(sel) != todas {
      FiltroIgnoraMalformado(sel, ruim, e.categorias.Keys);
    } else {
      var ss := sel + [ruim];
      assert ss[..|ss| - 1] == sel;
      assert Convertidos(ss) == Convertidos(sel);
      assert Filtro(sel, todas) == None;
      if Convertidos(sel) != [] {
        assert ruim in Conjunto(ss);
        EscolhasBemFormadas(e.categorias.Keys);
        assert Conjunto(ss) != todas;
        assert Filtro(ss, todas) == Some(Conjunto(Convertidos(sel)));
        FiltroDeTodasEquivalente(e, sel);
      }
    }
  }

  /** `Produto.nome`, the key `ORDER BY Produto.nome` sorts on. */
  function NomeProduto(p: Produto): string { p.nome }

  /** `Categoria.nome`, the key `ORDER BY Categoria.nome` sorts on. */
  function NomeCategoria(c: ModeloCategoria.Categoria): string { c.nome }

  /** The notice shown when the requested page does not exist. */
  function AvisoPagina(page: int): (m: string)
    ensures |m| > 0
    ensures Contem(m, MostrarInteiro(page))
  {
    var n := MostrarInteiro(page);
    ContemSi(n);
    ContemConcat(AvisoInicio, n, n);
    ContemConcat(AvisoInicio + n, AvisoFim, n);
    AvisoInicio + n + AvisoFim
  }

  const AvisoInicio: string := "Não temos produtos na página "
  const AvisoFim: string := ". Apresentando página 1"

  /** What the listing page is rendered with. */
  datatype Listagem = Listagem(
    rset: Pagina<Uuid>,
    page: int,
    pp: PorPagina,
    todasCategorias: seq<Uuid>,
    selecionadas: seq<string>,
    aviso: Option<string>)

  /** The selection of a GET: the stored one, or all ids; an empty one means all. */
  function SelecaoGuardada(sessao: map<string, seq<string>>, padrao: seq<string>): (r: seq<string>)
    ensures padrao != [] ==> r != []
    ensures ChaveFiltro in sessao && sessao[ChaveFiltro] != [] ==> r == sessao[ChaveFiltro]
    ensures ChaveFiltro !in sessao || sessao[ChaveFiltro] == [] ==> r == padrao
  {
    if ChaveFiltro in sessao && sessao[ChaveFiltro] != [] then sessao[ChaveFiltro] else padrao
  }

  /** The conversion loop: each selected id that parses is kept, in order. */
  method ConverterIds(sel: seq<string>) returns (uuids: seq<Uuid>)
    ensures uuids == Convertidos(sel)
  {
    uuids := [];
    var i := 0;
    while i < |sel|
      invariant 0 <= i <= |sel|
      invariant uuids == Convertidos(sel[..i])
    {
      assert sel[..i + 1][..i] == sel[..i];
      var u := Ler(sel[i]);
      if u.Some? {
        uuids := uuids + [u.value];
      }
      i := i + 1;
    }
    assert sel[..|sel|] == sel;
  }

  /** The filter decision of the listing, given the set of all category ids. */
  method FiltroDaSelecao(sel: seq<string>, todasIds: set<string>) returns (filtro: Option<set<Uuid>>)
    ensures filtro == Filtro(sel, todasIds)
  {
    filtro := None;
    var escolhidas := Conjunto(sel);
    if escolhidas != {} && escolhidas != todasIds {
      var uuids := ConverterIds(sel);
      if uuids != [] {
        filtro := Some(Conjunto(uuids));
      }
    }
  }

  /**
   * The paging of the listing: every item as one pseudo-page, or the
   * requested page, or page 1 with a notice when that page does not exist.
   */
  method PaginaDaListagem(consulta: seq<Uuid>, page: int, pp: PorPagina) returns (rset: Pagina<Uuid>, pagina: int, aviso: Option<string>)
    ensures pp == Todos ==> rset == TodosResultados(consulta) && pagina == page && aviso == None
    ensures pp.Tamanho? ==>
      var pedida := Paginar(consulta, page, pp.n, true);
      (pedida.Some? ==> rset == pedida.value && pagina == page && aviso == None) &&
      (pedida.None? ==> rset == Paginar(consulta, 1, pp.n, false).value && pagina == 1 && aviso == Some(AvisoPagina(page)))
  {
    pagina := page;
    aviso := None;
    if pp == Todos {
      rset := TodosResultados(consulta);
    } else {
      var pedida := Paginar(consulta, pagina, pp.n, true);
      if pedida.Some? {
        rset := pedida.value;
      } else {
        aviso := Some(AvisoPagina(pagina));
        pagina := 1;
        rset := Paginar(consulta, pagina, pp.n, false).value;
      }
    }
  }

  /**
   * `lista`: `consulta` is the ordered product query before paging and
   * `novaSessao` the session after the request.
   */
  method Lista(db: Banco, sessao: map<string, seq<string>>, req: Requisicao)
    returns (r: Listagem, consulta: seq<Uuid>, novaSessao: map<string, seq<string>>)
    ensures OrdenadoPorNome(r.todasCategorias, Nomes(db.categorias, NomeCategoria))
    ensures SemRepeticao(r.todasCategorias)
    ensures forall c :: c in r.todasCategorias <==> c in db.categorias
    ensures req.metodo == Post ==>
      novaSessao == sessao[ChaveFiltro := req.cat] &&
      r.selecionadas == (if req.cat == [] then Padrao(r.todasCategorias) else req.cat)
    ensures req.metodo == Get ==>
      novaSessao == sessao && r.selecionadas == SelecaoGuardada(sessao, Padrao(r.todasCategorias))
    ensures OrdenadoPorNome(consulta, Nomes(db.produtos, NomeProduto))
    ensures SemRepeticao(consulta)
    ensures forall p :: p in consulta <==> p in Alvo(db.Atual(), Filtro(r.selecionadas, Escolhas(db.categorias.Keys)))
    ensures r.pp == PorPaginaPedida(req.pp)
    ensures r.pp == Todos ==>
      r.rset == TodosResultados(consulta) && r.page == PaginaPedida(req.page) && r.aviso == None
    ensures r.pp.Tamanho? ==>
      var pedida := Paginar(consulta, PaginaPedida(req.page), r.pp.n, true);
      (pedida.Some? ==> r.rset == pedida.value && r.page == PaginaPedida(req.page) && r.aviso == None) &&
      (pedida.None? ==>
        r.rset == Paginar(consulta, 1, r.pp.n, false).value && r.page == 1 &&
        r.aviso == Some(AvisoPagina(PaginaPedida(req.page))))
  {
    var page := PaginaPedida(req.page);
    var pp := PorPaginaPedida(req.pp);

    var todas := Ordenar(db.categorias.Keys, Nomes(db.categorias, NomeCategoria));
    var padrao := Padrao(todas);

    var sel: seq<string>;
    novaSessao := sessao;
    if req.metodo == Post {
      sel := req.cat;
      novaSessao := sessao[ChaveFiltro := sel];
    } else {
      sel := if ChaveFiltro in sessao then sessao[ChaveFiltro] else padrao;
    }
    if sel == [] {
      sel := padrao;
    }

    var todasIds := Escolhas(db.categorias.Keys);
    var filtro := FiltroDaSelecao(sel, todasIds);

    var alvo := Alvo(db.Atual(), filtro);
    consulta := Ordenar(alvo, Nomes(db.produtos, NomeProduto));

    var rset, pagina, aviso := PaginaDaListagem(consulta, page, pp);
    r := Listagem(rset, pagina, pp, todas, sel, aviso);
  }
}
