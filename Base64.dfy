/**
 * The standard base64 codec of section 4 of RFC 4648, as used by the
 * product routes (`b64encode(...).decode('ascii')`) and by the product
 * model (`b64decode`). Decoding is the strict form: length a multiple of
 * four, alphabet symbols only, `=` padding only at the end.
 */
module Base64 {
  import opened Tipos

  type Byte = b: int | 0 <= b < 256

  /** Symbol `i` of the base64 alphabet. */
  function Simbolo(i: int): (c: char)
    requires 0 <= i < 64
    ensures c != '=' && (c as int) < 128
  {
    if i < 26 then ('A' as int + i) as char
    else if i < 52 then ('a' as int + i - 26) as char
    else if i < 62 then ('0' as int + i - 52) as char
    else if i == 62 then '+'
    else '/'
  }

  /** Index of an alphabet symbol, `None` for any other character. */
  function Indice(c: char): (r: Option<int>)
    ensures r.Some? ==> 0 <= r.value < 64
    ensures r.Some? ==> Simbolo(r.value) == c
  {
    if 'A' <= c <= 'Z' then Some(c as int - 'A' as int)
    else if 'a' <= c <= 'z' then Some(c as int - 'a' as int + 26)
    else if '0' <= c <= '9' then Some(c as int - '0' as int + 52)
    else if c == '+' then Some(62)
    else if c == '/' then Some(63)
    else None
  }

  lemma IndiceSimbolo(i: int)
    requires 0 <= i < 64
    ensures Indice(Simbolo(i)) == Some(i)
  {
  }

  /** `b64encode(b).decode('ascii')`: every three bytes become four symbols. */
  function Codificar(b: seq<Byte>): (s: string)
    ensures |s| == 4 * ((|b| + 2) / 3)
    ensures forall k :: 0 <= k < |s| ==> (s[k] as int) < 128
    decreases |b|
  {
    if |b| == 0 then []
    else if |b| == 1 then
      [Simbolo(b[0] / 4), Simbolo((b[0] % 4) * 16), '=', '=']
    else if |b| == 2 then
      [Simbolo(b[0] / 4), Simbolo((b[0] % 4) * 16 + b[1] / 16), Simbolo((b[1] % 16) * 4), '=']
    else Quantum(b[0], b[1], b[2]) + Codificar(b[3..])
  }

  /** Four alphabet symbols carry three bytes. */
  function Bloco(c0: char, c1: char, c2: char, c3: char): Option<seq<Byte>>
  {
    match (Indice(c0), Indice(c1), Indice(c2), Indice(c3))
    case (Some(a), Some(b), Some(c), Some(d)) =>
      Some([a * 4 + b / 16, (b % 16) * 16 + c / 4, (c % 4) * 64 + d])
    case _ => None
  }

  /** The final quantum, which may end in one or two `=`. */
  function UltimoBloco(c0: char, c1: char, c2: char, c3: char): Option<seq<Byte>>
  {
    if c2 == '=' && c3 == '=' then
      match (Indice(c0), Indice(c1))
      case (Some(a), Some(b)) => Some([a * 4 + b / 16])
      case _ => None
    else if c3 == '=' then
      match (Indice(c0), Indice(c1), Indice(c2))
      case (Some(a), Some(b), Some(c)) => Some([a * 4 + b / 16, (b % 16) * 16 + c / 4])
      case _ => None
    else Bloco(c0, c1, c2, c3)
  }

  /** `b64decode(s)`; `None` is the `binascii.Error` of a corrupted payload. */
  function Decodificar(s: string): (r: Option<seq<Byte>>)
    decreases |s|
  {
    if |s| == 0 then Some([])
    else if |s| < 4 then None
    else if |s| == 4 then UltimoBloco(s[0], s[1], s[2], s[3])
    else
      match Bloco(s[0], s[1], s[2], s[3])
      case None => None
      case Some(t) =>
        match Decodificar(s[4..])
        case None => None
        case Some(u) => Some(t + u)
  }

  lemma PrimeiroByte(b0: Byte, b1: Byte)
    ensures (b0 / 4) * 4 + ((b0 % 4) * 16 + b1 / 16) / 16 == b0
  {
    var x := (b0 % 4) * 16 + b1 / 16;
    assert x / 16 == b0 % 4;
  }

  lemma SegundoByte(b0: Byte, b1: Byte, b2: Byte)
    ensures (((b0 % 4) * 16 + b1 / 16) % 16) * 16 + ((b1 % 16) * 4 + b2 / 64) / 4 == b1
  {
    var x := (b0 % 4) * 16 + b1 / 16;
    var y := (b1 % 16) * 4 + b2 / 64;
    assert x % 16 == b1 / 16;
    assert y / 4 == b1 % 16;
  }

  lemma TerceiroByte(b1: Byte, b2: Byte)
    ensures (((b1 % 16) * 4 + b2 / 64) % 4) * 64 + b2 % 64 == b2
  {
    var y := (b1 % 16) * 4 + b2 / 64;
    assert y % 4 == b2 / 64;
  }

  lemma BlocoCodificado(b0: Byte, b1: Byte, b2: Byte)
    ensures Bloco(Simbolo(b0 / 4), Simbolo((b0 % 4) * 16 + b1 / 16),
                  Simbolo((b1 % 16) * 4 + b2 / 64), Simbolo(b2 % 64)) == Some([b0, b1, b2])
  {
    var i0, i1, i2, i3 := b0 / 4, (b0 % 4) * 16 + b1 / 16, (b1 % 16) * 4 + b2 / 64, b2 % 64;
    IndiceSimbolo(i0);
    IndiceSimbolo(i1);
    IndiceSimbolo(i2);
    IndiceSimbolo(i3);
    PrimeiroByte(b0, b1);
    SegundoByte(b0, b1, b2);
    TerceiroByte(b1, b2);
  }

  lemma UmByteCodificado(b0: Byte)
    ensures UltimoBloco(Simbolo(b0 / 4), Simbolo((b0 % 4) * 16), '=', '=') == Some([b0])
  {
    IndiceSimbolo(b0 / 4);
    IndiceSimbolo((b0 % 4) * 16);
  }

  lemma DoisBytesCodificados(b0: Byte, b1: Byte)
    ensures UltimoBloco(Simbolo(b0 / 4), Simbolo((b0 % 4) * 16 + b1 / 16),
                        Simbolo((b1 % 16) * 4), '=') == Some([b0, b1])
  {
    var x := (b0 % 4) * 16 + b1 / 16;
    IndiceSimbolo(b0 / 4);
    IndiceSimbolo(x);
    IndiceSimbolo((b1 % 16) * 4);
    assert x / 16 == b0 % 4 && x % 16 == b1 / 16;
    assert ((b1 % 16) * 4) / 4 == b1 % 16;
  }

  /** The four symbols that encode three bytes. */
  function Quantum(b0: Byte, b1: Byte, b2: Byte): (q: string)
    ensures |q| == 4
  {
    [Simbolo(b0 / 4), Simbolo((b0 % 4) * 16 + b1 / 16), Simbolo((b1 % 16) * 4 + b2 / 64), Simbolo(b2 % 64)]
  }

  lemma CodificarLongo(b: seq<Byte>)
    requires |b| >= 3
    ensures Codificar(b) == Quantum(b[0], b[1], b[2]) + Codificar(b[3..])
  {
  }

  lemma DecodificarQuantum(b: seq<Byte>, resto: string)
    requires |b| >= 3
    requires Decodificar(resto) == Some(b[3..])
    ensures Decodificar(Quantum(b[0], b[1], b[2]) + resto) == Some(b)
  {
    var q := Quantum(b[0], b[1], b[2]);
    var s := q + resto;
    BlocoCodificado(b[0], b[1], b[2]);
    assert s[0] == q[0] && s[1] == q[1] && s[2] == q[2] && s[3] == q[3];
    assert b == [b[0], b[1], b[2]] + b[3..];
    if |resto| == 0 {
      assert s == q && b[3..] == [];
      assert q[2] != '=' && q[3] != '=';
      assert UltimoBloco(q[0], q[1], q[2], q[3]) == Bloco(q[0], q[1], q[2], q[3]);
      assert Decodificar(s) == UltimoBloco(s[0], s[1], s[2], s[3]);
      assert b == [b[0], b[1], b[2]];
    } else {
      assert s[4..] == resto;
    }
  }

  /** A single quantum is decoded as a final one. */
  lemma DecodificarQuatro(s: string)
    requires |s| == 4
    ensures Decodificar(s) == UltimoBloco(s[0], s[1], s[2], s[3])
  {
  }

  lemma CodificarUm(b: seq<Byte>)
    requires |b| == 1
    ensures Decodificar(Codificar(b)) == Some(b)
  {
    var s := Codificar(b);
    DecodificarQuatro(s);
    UmByteCodificado(b[0]);
    assert b == [b[0]];
  }

  lemma CodificarDois(b: seq<Byte>)
    requires |b| == 2
    ensures Decodificar(Codificar(b)) == Some(b)
  {
    var s := Codificar(b);
    DecodificarQuatro(s);
    DoisBytesCodificados(b[0], b[1]);
    assert b == [b[0], b[1]];
  }

  /** Decoding what was encoded gives back the original bytes. */
  lemma {:induction false} DecodificarCodificar(b: seq<Byte>)
    ensures Decodificar(Codificar(b)) == Some(b)
    decreases |b|
  {
    if |b| == 1 {
      CodificarUm(b);
    } else if |b| == 2 {
      CodificarDois(b);
    } else if |b| >= 3 {
      DecodificarCodificar(b[3..]);
      CodificarLongo(b);
      DecodificarQuantum(b, Codificar(b[3..]));
    }
  }
}
