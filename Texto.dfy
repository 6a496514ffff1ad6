/**
 * Text helpers the routes and forms rely on: Python's `int()` on a decimal
 * string, `str()` of an integer, `', '.join(...)`, ASCII `lower()` and
 * `endswith`.
 */
module Texto {
  import opened Tipos

  predicate EhDigito(c: char) { '0' <= c <= '9' }

  function ValorDigito(c: char): (d: int)
    requires EhDigito(c)
    ensures 0 <= d < 10
  {
    c as int - '0' as int
  }

  function Digito(d: int): (c: char)
    requires 0 <= d < 10
    ensures EhDigito(c) && ValorDigito(c) == d
  {
    ('0' as int + d) as char
  }

  /** Value of a non-empty run of decimal digits (most significant first). */
  function LerDigitos(s: string): (r: Option<nat>)
    ensures r.Some? ==> |s| > 0 && forall k :: 0 <= k < |s| ==> EhDigito(s[k])
    decreases |s|
  {
    if |s| == 0 || !EhDigito(s[|s| - 1]) then None
    else if |s| == 1 then Some(ValorDigito(s[0]))
    else match LerDigitos(s[..|s| - 1])
      case None => None
      case Some(v) => Some(v * 10 + ValorDigito(s[|s| - 1]))
  }

  /**
   * Python's `int(s)` on a string: an optional sign followed by at least one
   * decimal digit; anything else is a ValueError, here `None`.
   */
  function LerInteiro(s: string): (r: Option<int>)
    ensures |s| == 0 ==> r == None
  {
    if |s| > 0 && s[0] == '-' then
      match LerDigitos(s[1..]) case None => None case Some(v) => Some(-(v as int))
    else if |s| > 0 && s[0] == '+' then
      match LerDigitos(s[1..]) case None => None case Some(v) => Some(v)
    else
      match LerDigitos(s) case None => None case Some(v) => Some(v)
  }

  /** Decimal digits of a natural number, without leading zeros. */
  function MostrarNatural(n: nat): (s: string)
    ensures |s| > 0 && forall k :: 0 <= k < |s| ==> EhDigito(s[k])
    decreases n
  {
    if n < 10 then [Digito(n)] else MostrarNatural(n / 10) + [Digito(n % 10)]
  }

  /** Python's `str(n)` for an integer. */
  function MostrarInteiro(n: int): (s: string)
    ensures |s| > 0
  {
    if n < 0 then "-" + MostrarNatural(-n) else MostrarNatural(n)
  }

  lemma {:induction false} LerMostrarNatural(n: nat)
    ensures LerDigitos(MostrarNatural(n)) == Some(n)
    decreases n
  {
    if n >= 10 {
      var s := MostrarNatural(n);
      LerMostrarNatural(n / 10);
      assert s[..|s| - 1] == MostrarNatural(n / 10);
    }
  }

  /** A run of digits after a minus sign reads as its negated value. */
  lemma LerNegativo(t: string)
    requires LerDigitos(t).Some?
    ensures LerInteiro("-" + t) == Some(-(LerDigitos(t).value as int))
  {
    var s := "-" + t;
    assert s[0] == '-' && s[1..] == t;
  }

  /** A run of digits with no sign reads as its value. */
  lemma LerSemSinal(t: string)
    requires LerDigitos(t).Some?
    ensures LerInteiro(t) == Some(LerDigitos(t).value as int)
  {
    assert EhDigito(t[0]);
  }

  /** Parsing what `str(n)` prints gives `n` back. */
  lemma LerMostrarInteiro(n: int)
    ensures LerInteiro(MostrarInteiro(n)) == Some(n)
  {
    if n < 0 {
      LerMostrarNatural(-n);
      LerNegativo(MostrarNatural(-n));
    } else {
      LerMostrarNatural(n);
      LerSemSinal(MostrarNatural(n));
    }
  }

  /** `sep.join(partes)`. */
  function Juntar(partes: seq<string>, sep: string): (r: string)
    ensures partes == [] ==> r == ""
    ensures |partes| == 1 ==> r == partes[0]
    decreases |partes|
  {
    if |partes| == 0 then ""
    else if |partes| == 1 then partes[0]
    else partes[0] + sep + Juntar(partes[1..], sep)
  }

  /** `s` occurs in `m` starting at offset `o`. */
  predicate OcorreEm(m: string, s: string, o: int)
  {
    0 <= o && o + |s| <= |m| && m[o..o + |s|] == s
  }

  /** `s in m` on strings. */
  predicate Contem(m: string, s: string)
  {
    exists o :: 0 <= o <= |m| && OcorreEm(m, s, o)
  }

  lemma ContemSi(s: string)
    ensures Contem(s, s)
  {
    assert s[0..|s|] == s;
    assert OcorreEm(s, s, 0);
  }

  /** Whatever occurs in either part occurs in the concatenation. */
  lemma ContemConcat(a: string, b: string, s: string)
    ensures Contem(a, s) ==> Contem(a + b, s)
    ensures Contem(b, s) ==> Contem(a + b, s)
  {
    if Contem(a, s) {
      var o :| 0 <= o <= |a| && OcorreEm(a, s, o);
      assert (a + b)[o..o + |s|] == a[o..o + |s|];
      assert OcorreEm(a + b, s, o);
    }
    if Contem(b, s) {
      var o :| 0 <= o <= |b| && OcorreEm(b, s, o);
      var d := |a| + o;
      assert (a + b)[d..d + |s|] == b[o..o + |s|];
      assert OcorreEm(a + b, s, d);
    }
  }

  /** Prefixing a text keeps every one of `partes` that occurs in it. */
  lemma ContemTodosComPrefixo(a: string, b: string, partes: seq<string>)
    requires forall k :: 0 <= k < |partes| ==> Contem(b, partes[k])
    ensures forall k :: 0 <= k < |partes| ==> Contem(a + b, partes[k])
  {
    forall k | 0 <= k < |partes|
      ensures Contem(a + b, partes[k])
    {
      ContemConcat(a, b, partes[k]);
    }
  }

  /** Every part occurs in the joined text. */
  lemma {:induction false} JuntarContem(partes: seq<string>, sep: string)
    ensures forall k :: 0 <= k < |partes| ==> Contem(Juntar(partes, sep), partes[k])
    decreases |partes|
  {
    if |partes| == 1 {
      ContemSi(partes[0]);
    } else if |partes| > 1 {
      var resto := Juntar(partes[1..], sep);
      assert Juntar(partes, sep) == (partes[0] + sep) + resto;
      JuntarContem(partes[1..], sep);
      ContemSi(partes[0]);
      ContemConcat(partes[0], sep, partes[0]);
      ContemConcat(partes[0] + sep, resto, partes[0]);
      forall k | 1 <= k < |partes|
        ensures Contem(Juntar(partes, sep), partes[k])
      {
        assert partes[k] == partes[1..][k - 1];
        ContemConcat(partes[0] + sep, resto, partes[k]);
      }
    }
  }

  /** `c.lower()` restricted to the ASCII letters. */
  function Minuscula(c: char): (r: char)
    ensures !('A' <= r <= 'Z')
  {
    if 'A' <= c <= 'Z' then (c as int - 'A' as int + 'a' as int) as char else c
  }

  function Minusculas(s: string): (r: string)
    ensures |r| == |s|
    ensures forall k :: 0 <= k < |s| ==> r[k] == Minuscula(s[k])
  {
    seq(|s|, k requires 0 <= k < |s| => Minuscula(s[k]))
  }

  lemma MinusculasConcat(a: string, b: string)
    ensures Minusculas(a + b) == Minusculas(a) + Minusculas(b)
  {
    assert forall k :: 0 <= k < |a + b| ==> Minusculas(a + b)[k] == (Minusculas(a) + Minusculas(b))[k];
  }

  /** Lower-casing twice is lower-casing once. */
  lemma MinusculasIdempotente(s: string)
    ensures Minusculas(Minusculas(s)) == Minusculas(s)
  {
    assert forall k :: 0 <= k < |s| ==> Minusculas(Minusculas(s))[k] == Minusculas(s)[k];
  }

  /** `s.endswith(sufixo)`. */
  predicate TerminaCom(s: string, sufixo: string)
  {
    |sufixo| <= |s| && s[|s| - |sufixo|..] == sufixo
  }
}
