/**
 * The `produtos` record and the two image views of a product: `imagem`
 * (the full picture) and `thumbnail(size)`. Drawing, PNG encoding and
 * resizing are done by the imaging library; the model keeps which branch is
 * taken, the canvas and caption chosen, the MIME type returned and the
 * integer size rules.
 */
module ModeloProduto {
  import opened Tipos
  import opened Base64

  /** Declared width of `nome` (`String(100)`). */
  const TamanhoNome: nat := 100

  /**
   * One product row. `preco` is the decimal price, `estoque` the stock
   * count; the photo is kept as base64 text plus its MIME type.
   */
  datatype Produto = Produto(
    nome: string,
    preco: real,
    estoque: int,
    ativo: bool,
    possuiFoto: bool,
    fotoBase64: Option<string>,
    fotoMime: Option<string>)

  /** The flag and the two photo columns agree. */
  predicate FotoCoerente(p: Produto)
  {
    (p.possuiFoto <==> p.fotoBase64.Some?) && (p.possuiFoto <==> p.fotoMime.Some?)
  }

  /** A product built from a name alone takes the column defaults. */
  function NovoProduto(nome: string): (p: Produto)
    ensures p.nome == nome
    ensures !p.possuiFoto && p.fotoBase64 == None && p.fotoMime == None
    ensures p.preco == 0.0 && p.estoque == 0 && p.ativo
    ensures FotoCoerente(p)
  {
    Produto(nome, 0.0, 0, true, false, None, None)
  }

  /** An uploaded file: its name, the MIME type the client sent and its bytes. */
  datatype Upload = Upload(filename: string, mimetype: string, conteudo: seq<Byte>)

  /** The photo columns after an upload is stored. */
  function ComFoto(p: Produto, u: Upload): (r: Produto)
    ensures r.possuiFoto && r.fotoBase64 == Some(Codificar(u.conteudo)) && r.fotoMime == Some(u.mimetype)
    ensures r.(possuiFoto := p.possuiFoto, fotoBase64 := p.fotoBase64, fotoMime := p.fotoMime) == p
    ensures FotoCoerente(r)
  {
    p.(possuiFoto := true, fotoBase64 := Some(Codificar(u.conteudo)), fotoMime := Some(u.mimetype))
  }

  /** The photo columns cleared. */
  function SemFoto(p: Produto): (r: Produto)
    ensures !r.possuiFoto && r.fotoBase64 == None && r.fotoMime == None
    ensures r.(possuiFoto := p.possuiFoto, fotoBase64 := p.fotoBase64, fotoMime := p.fotoMime) == p
    ensures FotoCoerente(r)
  {
    p.(possuiFoto := false, fotoBase64 := None, fotoMime := None)
  }

  /** The font of a caption: the scalable font at a size, or the library's fallback. */
  datatype Fonte = TrueType(tamanho: int) | Padrao

  /** What an image response carries. */
  datatype Conteudo =
    | Marcador(largura: int, altura: int, texto: string, fonte: Fonte)  // generated grey canvas with caption
    | Original(dados: seq<Byte>)                                       // the stored photo bytes
    | Reduzida(dados: seq<Byte>, largura: int, altura: int)            // the stored photo resized to a target

  /**
   * A request that ends in a server error: a corrupted base64 payload, a
   * decoded photo with a zero side, a 0x0 placeholder canvas the PNG
   * encoder refuses, or a reduction target with a zero side, on which the
   * imaging library's `thumbnail` divides by zero.
   */
  datatype Falha = PayloadCorrompido | DimensaoNula | CanvasVazio | AlvoNulo

  datatype Resultado = Ok(conteudo: Conteudo, tipo: Option<string>) | Erro(falha: Falha)

  const Png: string := "image/png"

  /** The stored payload decoded, as `b64decode(self.foto_base64)` does. */
  function FotoGuardada(p: Produto): Option<seq<Byte>>
  {
    match p.fotoBase64
    case None => None
    case Some(t) => Decodificar(t)
  }

  /** `produto.imagem`; `arialDisponivel` is whether the scalable font loads. */
  function Imagem(p: Produto, arialDisponivel: bool): Resultado
  {
    if !p.possuiFoto then
      Ok(Marcador(480, 480, "Produto sem foto", if arialDisponivel then TrueType(32) else Padrao), Some(Png))
    else
      match FotoGuardada(p)
      case None => Erro(PayloadCorrompido)
      case Some(dados) => Ok(Original(dados), p.fotoMime)
  }

  /** `int(x / y)` for a positive `y`: the quotient truncated toward zero. */
  function DivTruncada(x: int, y: int): (q: int)
    requires y > 0
    ensures x >= 0 ==> q * y <= x < q * y + y
    ensures x < 0 ==> q * y - y < x <= q * y
  {
    if x >= 0 then x / y else -((-x) / y)
  }

  /** `max(10, int(size / 8))`, the caption size of a thumbnail placeholder. */
  function TamanhoFonte(size: int): (t: int)
    ensures t >= 10
    ensures t == if size >= 88 then size / 8 else 10
  {
    var q := DivTruncada(size, 8);
    if q > 10 then q else 10
  }

  function MinReal(a: real, b: real): (m: real)
    ensures m <= a && m <= b && (m == a || m == b)
  {
    if a <= b then a else b
  }

  /**
   * `fator = min(size/largura, size/altura)` and the target
   * `(int(largura * fator), int(altura * fator))`, in exact arithmetic.
   */
  function NovoTamanho(largura: int, altura: int, size: int): (r: (int, int))
    requires largura > 0 && altura > 0 && size >= 0
  {
    var fator := MinReal(size as real / largura as real, size as real / altura as real);
    ((largura as real * fator).Floor, (altura as real * fator).Floor)
  }

  /** Neither side of the target exceeds `size`, and the longer side reaches it. */
  lemma NovoTamanhoLimite(largura: int, altura: int, size: int)
    requires largura > 0 && altura > 0 && size >= 0
    ensures 0 <= NovoTamanho(largura, altura, size).0 <= size
    ensures 0 <= NovoTamanho(largura, altura, size).1 <= size
    ensures largura >= altura ==> NovoTamanho(largura, altura, size).0 == size
    ensures altura >= largura ==> NovoTamanho(largura, altura, size).1 == size
  {
    var w, h, s := largura as real, altura as real, size as real;
    var fw, fh := s / w, s / h;
    assert w * fw == s && h * fh == s;
    var fator := MinReal(fw, fh);
    assert 0.0 <= fator <= fw && fator <= fh;
    assert 0.0 <= w * fator <= w * fw;
    assert 0.0 <= h * fator <= h * fh;
    if largura >= altura {
      assert fw <= fh by {
        assert fh >= 0.0;
        assert fh * w >= fh * h;
        assert (fh - fw) * w == fh * w - s;
        assert (fh - fw) * w >= 0.0;
      }
      assert fator == fw;
    }
    if altura >= largura {
      assert fh <= fw by {
        assert fw >= 0.0;
        assert fw * h >= fw * w;
        assert (fw - fh) * h == fw * h - s;
        assert (fw - fh) * h >= 0.0;
      }
      assert fator == fh;
    }
  }

  /**
   * `produto.thumbnail(size)`; `dimensoes` is the width and height the
   * imaging library reads from the decoded photo.
   */
  function Thumbnail(p: Produto, size: nat, arialDisponivel: bool, dimensoes: (int, int)): Resultado
  {
    if !p.possuiFoto then
      if size == 0 then Erro(CanvasVazio)
      else Ok(Marcador(size, size, "Produto\nsem foto", if arialDisponivel then TrueType(TamanhoFonte(size)) else Padrao), Some(Png))
    else
      match FotoGuardada(p)
      case None => Erro(PayloadCorrompido)
      case Some(dados) =>
        if dimensoes.0 <= 0 || dimensoes.1 <= 0 then Erro(DimensaoNula)
        else
          var alvo := NovoTamanho(dimensoes.0, dimensoes.1, size);
          if alvo.0 <= 0 || alvo.1 <= 0 then Erro(AlvoNulo)
          else Ok(Reduzida(dados, alvo.0, alvo.1), p.fotoMime)
  }

  /** Without a photo, `imagem` is the 480x480 PNG placeholder. */
  lemma ImagemSemFoto(p: Produto, arialDisponivel: bool)
    requires !p.possuiFoto
    ensures Imagem(p, arialDisponivel).Ok?
    ensures Imagem(p, arialDisponivel).tipo == Some(Png)
    ensures Imagem(p, arialDisponivel).conteudo.Marcador?
    ensures Imagem(p, arialDisponivel).conteudo.largura == 480 && Imagem(p, arialDisponivel).conteudo.altura == 480
  {
  }

  /** After an upload is stored, `imagem` returns exactly the uploaded bytes and MIME type. */
  lemma ImagemDoUpload(p: Produto, u: Upload, arialDisponivel: bool)
    ensures Imagem(ComFoto(p, u), arialDisponivel) == Ok(Original(u.conteudo), Some(u.mimetype))
  {
    DecodificarCodificar(u.conteudo);
  }

  /**
   * Without a photo, the thumbnail is a size x size PNG whose caption font is
   * at least 10; at size 0 the empty canvas cannot be encoded.
   */
  lemma ThumbnailSemFoto(p: Produto, size: nat, arialDisponivel: bool, dimensoes: (int, int))
    requires !p.possuiFoto
    ensures size == 0 ==> Thumbnail(p, size, arialDisponivel, dimensoes) == Erro(CanvasVazio)
    ensures size > 0 ==> var r := Thumbnail(p, size, arialDisponivel, dimensoes);
      r.Ok? && r.tipo == Some(Png) && r.conteudo.Marcador? &&
      r.conteudo.largura == size && r.conteudo.altura == size &&
      (r.conteudo.fonte.TrueType? ==> r.conteudo.fonte.tamanho >= 10)
  {
  }

  /**
   * After an upload is stored, the thumbnail is that photo, typed with the
   * uploaded MIME type rather than PNG, and reduced to a target within `size`;
   * it fails exactly when a side of the photo or of the target is zero.
   */
  lemma ThumbnailDoUpload(p: Produto, u: Upload, size: nat, arialDisponivel: bool, dimensoes: (int, int))
    ensures var r := Thumbnail(ComFoto(p, u), size, arialDisponivel, dimensoes);
      (dimensoes.0 <= 0 || dimensoes.1 <= 0) ==> r == Erro(DimensaoNula)
    ensures dimensoes.0 > 0 && dimensoes.1 > 0 ==>
      var r := Thumbnail(ComFoto(p, u), size, arialDisponivel, dimensoes);
      var alvo := NovoTamanho(dimensoes.0, dimensoes.1, size);
      (r.Erro? <==> (alvo.0 == 0 || alvo.1 == 0)) &&
      (r.Erro? ==> r.falha == AlvoNulo) &&
      (r.Ok? ==> (r.tipo == Some(u.mimetype) && r.conteudo.Reduzida? && r.conteudo.dados == u.conteudo &&
                  0 < r.conteudo.largura <= size && 0 < r.conteudo.altura <= size))
    ensures size == 0 ==> Thumbnail(ComFoto(p, u), size, arialDisponivel, dimensoes).Erro?
  {
    DecodificarCodificar(u.conteudo);
    if dimensoes.0 > 0 && dimensoes.1 > 0 {
      NovoTamanhoLimite(dimensoes.0, dimensoes.1, size);
    }
  }
}
