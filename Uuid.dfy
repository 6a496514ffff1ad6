/**
 * Identifiers of products and categories: 128-bit UUIDs, their canonical
 * text `str(uuid)` (32 lower-case hex digits grouped 8-4-4-4-12) and the
 * parser `uuid.UUID(s)`, which drops the hyphens and then needs exactly 32
 * hex digits of either case.
 */
module Uuid {
  import opened Tipos

  function Pot16(n: nat): (r: nat)
    ensures r >= 1
  {
    if n == 0 then 1 else 16 * Pot16(n - 1)
  }

  type Uuid = u: int | 0 <= u < Pot16(32)

  function DigitoHex(d: int): (c: char)
    requires 0 <= d < 16
    ensures c != '-'
  {
    if d < 10 then ('0' as int + d) as char else ('a' as int + d - 10) as char
  }

  function ValorHex(c: char): (r: Option<int>)
    ensures r.Some? ==> 0 <= r.value < 16 && c != '-'
  {
    if '0' <= c <= '9' then Some(c as int - '0' as int)
    else if 'a' <= c <= 'f' then Some(c as int - 'a' as int + 10)
    else if 'A' <= c <= 'F' then Some(c as int - 'A' as int + 10)
    else None
  }

  /** The `n` low hex digits of `u`, most significant first. */
  function Hex(u: nat, n: nat): (s: string)
    ensures |s| == n
    ensures forall k :: 0 <= k < n ==> s[k] != '-'
    decreases n
  {
    if n == 0 then [] else Hex(u / 16, n - 1) + [DigitoHex(u % 16)]
  }

  /** Value of a string of hex digits; `None` if any character is not one. */
  function LerHex(s: string): (r: Option<nat>)
    ensures r.Some? ==> r.value < Pot16(|s|)
    decreases |s|
  {
    if s == [] then Some(0)
    else match (LerHex(s[..|s| - 1]), ValorHex(s[|s| - 1]))
      case (Some(v), Some(d)) => Some(v * 16 + d)
      case _ => None
  }

  lemma {:induction false} LerHexHex(u: nat, n: nat)
    requires u < Pot16(n)
    ensures LerHex(Hex(u, n)) == Some(u)
    decreases n
  {
    if n > 0 {
      var s := Hex(u, n);
      assert s[..n - 1] == Hex(u / 16, n - 1);
      LerHexHex(u / 16, n - 1);
      assert u % 16 < 10 || u % 16 >= 10;
    }
  }

  /** `s.replace('-', '')`. */
  function SemHifens(s: string): (r: string)
    ensures forall k :: 0 <= k < |r| ==> r[k] != '-'
    decreases |s|
  {
    if s == [] then [] else (if s[0] == '-' then [] else [s[0]]) + SemHifens(s[1..])
  }

  lemma {:induction false} SemHifensConcat(a: string, b: string)
    ensures SemHifens(a + b) == SemHifens(a) + SemHifens(b)
    decreases |a|
  {
    if a == [] {
      assert a + b == b;
    } else {
      assert (a + b)[1..] == a[1..] + b;
      SemHifensConcat(a[1..], b);
    }
  }

  lemma {:induction false} SemHifensSemEfeito(s: string)
    requires forall k :: 0 <= k < |s| ==> s[k] != '-'
    ensures SemHifens(s) == s
    decreases |s|
  {
    if s != [] {
      SemHifensSemEfeito(s[1..]);
    }
  }

  /** `str(u)`: canonical 8-4-4-4-12 form. */
  function Canonico(u: Uuid): (s: string)
    ensures |s| == 36
  {
    var h := Hex(u, 32);
    h[..8] + "-" + h[8..12] + "-" + h[12..16] + "-" + h[16..20] + "-" + h[20..]
  }

  /** `uuid.UUID(s)`; `None` is the ValueError of a malformed identifier. */
  function Ler(s: string): (r: Option<Uuid>)
  {
    var h := SemHifens(s);
    if |h| != 32 then None
    else match LerHex(h)
      case None => None
      case Some(v) => Some(v)
  }

  predicate BemFormado(s: string) { Ler(s).Some? }

  lemma SemHifensJuntar(a: string, b: string)
    requires forall k :: 0 <= k < |b| ==> b[k] != '-'
    ensures SemHifens(a + "-" + b) == SemHifens(a) + b
  {
    SemHifensConcat(a + "-", b);
    SemHifensConcat(a, "-");
    SemHifensSemEfeito(b);
  }

  /** Dropping the hyphens of the 8-4-4-4-12 grouping of 32 hex digits gives the digits back. */
  lemma SemHifensAgrupado(h: string)
    requires |h| == 32
    requires forall k :: 0 <= k < |h| ==> h[k] != '-'
    ensures SemHifens(h[..8] + "-" + h[8..12] + "-" + h[12..16] + "-" + h[16..20] + "-" + h[20..]) == h
  {
    var p1, p2, p3, p4, p5 := h[..8], h[8..12], h[12..16], h[16..20], h[20..];
    var x2 := p1 + "-" + p2;
    var x3 := x2 + "-" + p3;
    var x4 := x3 + "-" + p4;
    var x5 := x4 + "-" + p5;
    SemHifensSemEfeito(p1);
    SemHifensJuntar(p1, p2);
    SemHifensJuntar(x2, p3);
    SemHifensJuntar(x3, p4);
    SemHifensJuntar(x4, p5);
    assert p1 + p2 + p3 + p4 + p5 == h;
  }

  /** Reading the canonical form gives the identifier back. */
  lemma LerCanonico(u: Uuid)
    ensures Ler(Canonico(u)) == Some(u)
  {
    var h := Hex(u, 32);
    SemHifensAgrupado(h);
    LerHexHex(u, 32);
  }

  /** Distinct identifiers have distinct canonical texts. */
  lemma CanonicoInjetivo(u: Uuid, v: Uuid)
    ensures Canonico(u) == Canonico(v) ==> u == v
  {
    LerCanonico(u);
    LerCanonico(v);
  }
}
