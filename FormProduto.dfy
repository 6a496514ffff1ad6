/**
 * `ProdutoForm`: the submitted product fields and the rules a submission
 * must meet before any route changes the catalogue.
 */
module FormProduto {
  import opened Tipos
  import opened Texto
  import opened ModeloProduto

  /** A typed field: not submitted (or empty), not parsable, or a value. */
  datatype Campo<T> = Ausente | Malformado | Valor(v: T)

  /**
   * One submission. `nome` is the raw text (absent when not sent); `ativo`
   * and `removerfoto` are the raw check-box values; `foto` is an uploaded
   * file with a non-empty name, if any; `categorias` the list of selected
   * category ids, already strings.
   */
  datatype ProdutoForm = ProdutoForm(
    nome: Option<string>,
    preco: Campo<real>,
    estoque: Campo<int>,
    ativo: seq<string>,
    foto: Option<Upload>,
    categorias: Option<seq<string>>,
    removerfoto: seq<string>)

  /** A check-box field: false when not sent or sent as "" or "false". */
  function Caixa(valores: seq<string>): (b: bool)
    ensures valores == [] ==> !b
  {
    |valores| > 0 && valores[0] != "" && valores[0] != "false"
  }

  /** `at_least_one`: the selection is present and not empty. */
  predicate AtLeastOne(categorias: Option<seq<string>>)
  {
    categorias.Some? && |categorias.value| > 0
  }

  /** `InputRequired` and `Length(max=100)` on `nome`. */
  predicate NomeValido(nome: Option<string>)
  {
    nome.Some? && 0 < |nome.value| <= TamanhoNome
  }

  /** `InputRequired` and `NumberRange(min=0)` on `preco`. */
  predicate PrecoValido(preco: Campo<real>)
  {
    preco.Valor? && preco.v >= 0.0
  }

  /** `InputRequired` and `NumberRange(min=0)` on the integer `estoque`. */
  predicate EstoqueValido(estoque: Campo<int>)
  {
    estoque.Valor? && estoque.v >= 0
  }

  /** `FileAllowed(['jpg', 'png'])`: the lower-cased file name ends in one of them. */
  predicate ExtensaoPermitida(filename: string)
  {
    var n := Minusculas(filename);
    TerminaCom(n, ".jpg") || TerminaCom(n, ".png")
  }

  /** No file, or a file with an allowed extension. */
  predicate FotoValida(foto: Option<Upload>)
  {
    foto.None? || ExtensaoPermitida(foto.value.filename)
  }

  /** Every selected id is one of the offered choices (the select field's own check). */
  predicate EscolhasValidas(categorias: Option<seq<string>>, escolhas: set<string>)
  {
    categorias.None? || forall k :: 0 <= k < |categorias.value| ==> categorias.value[k] in escolhas
  }

  predicate CategoriasValidas(categorias: Option<seq<string>>, escolhas: set<string>)
  {
    EscolhasValidas(categorias, escolhas) && AtLeastOne(categorias)
  }

  /** The whole form validates against the offered category choices. */
  predicate Valido(f: ProdutoForm, escolhas: set<string>)
  {
    NomeValido(f.nome) && PrecoValido(f.preco) && EstoqueValido(f.estoque) &&
    FotoValida(f.foto) && CategoriasValidas(f.categorias, escolhas)
  }

  datatype CampoForm = Nome | Preco | Estoque | Foto | Categorias

  /** The fields whose validators fail, each reported on the form. */
  function CamposComErro(f: ProdutoForm, escolhas: set<string>): (r: set<CampoForm>)
    ensures r == {} <==> Valido(f, escolhas)
    ensures Nome in r <==> !NomeValido(f.nome)
    ensures Preco in r <==> !PrecoValido(f.preco)
    ensures Estoque in r <==> !EstoqueValido(f.estoque)
    ensures Foto in r <==> !FotoValida(f.foto)
    ensures Categorias in r <==> !CategoriasValidas(f.categorias, escolhas)
  {
    (if NomeValido(f.nome) then {} else {Nome}) +
    (if PrecoValido(f.preco) then {} else {Preco}) +
    (if EstoqueValido(f.estoque) then {} else {Estoque}) +
    (if FotoValida(f.foto) then {} else {Foto}) +
    (if CategoriasValidas(f.categorias, escolhas) then {} else {Categorias})
  }

  /** `at_least_one` refuses a missing or empty selection, whatever the choices. */
  lemma SelecaoVaziaRecusada(f: ProdutoForm, escolhas: set<string>)
    requires f.categorias == None || f.categorias == Some([])
    ensures Categorias in CamposComErro(f, escolhas)
    ensures !Valido(f, escolhas)
  {
  }

  /** A name of more than 100 characters is refused. */
  lemma NomeLongoRecusado(f: ProdutoForm, escolhas: set<string>)
    requires f.nome.Some? && |f.nome.value| > TamanhoNome
    ensures Nome in CamposComErro(f, escolhas)
  {
  }

  /** The extension check ignores case: a name passes exactly when its lower-cased form does. */
  lemma ExtensaoIgnoraCaixa(filename: string)
    ensures ExtensaoPermitida(filename) <==> ExtensaoPermitida(Minusculas(filename))
  {
    MinusculasIdempotente(filename);
  }

  lemma TerminaComConcat(m: string, sufixo: string, t: string)
    requires |t| <= |sufixo|
    ensures TerminaCom(m + sufixo, t) <==> TerminaCom(sufixo, t)
  {
    assert (m + sufixo)[|m + sufixo| - |t|..] == sufixo[|sufixo| - |t|..];
  }

  /** Only the last four characters of a name decide the extension check. */
  lemma ExtensaoDoSufixo(stem: string, sufixo: string)
    requires |sufixo| >= 4
    ensures ExtensaoPermitida(stem + sufixo) <==> ExtensaoPermitida(sufixo)
  {
    MinusculasConcat(stem, sufixo);
    TerminaComConcat(Minusculas(stem), Minusculas(sufixo), ".jpg");
    TerminaComConcat(Minusculas(stem), Minusculas(sufixo), ".png");
  }

  /** Whatever the stem, a `.jpg` or `.png` name in either case passes. */
  lemma ExtensaoAceita(stem: string)
    ensures ExtensaoPermitida(stem + ".png") && ExtensaoPermitida(stem + ".PNG")
    ensures ExtensaoPermitida(stem + ".jpg") && ExtensaoPermitida(stem + ".JPG")
  {
    assert Minusculas(".png") == ".png" && Minusculas(".PNG") == ".png";
    assert Minusculas(".jpg") == ".jpg" && Minusculas(".JPG") == ".jpg";
    ExtensaoDoSufixo(stem, ".png");
    ExtensaoDoSufixo(stem, ".PNG");
    ExtensaoDoSufixo(stem, ".jpg");
    ExtensaoDoSufixo(stem, ".JPG");
  }

  /** Whatever the stem, a `.jpeg` or `.gif` name is refused. */
  lemma ExtensaoRecusada(stem: string)
    ensures !ExtensaoPermitida(stem + ".jpeg") && !ExtensaoPermitida(stem + ".gif")
  {
    assert Minusculas(".jpeg") == ".jpeg" && Minusculas(".gif") == ".gif";
    assert ".jpeg"[1..] == "jpeg";
    ExtensaoDoSufixo(stem, ".jpeg");
    ExtensaoDoSufixo(stem, ".gif");
  }


}
