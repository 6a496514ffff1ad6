/**
 * `ORDER BY nome`: the ascending order of names the listing queries ask the
 * database for, taken as lexicographic order on code points, and the sort
 * that produces it.
 */
module Ordenacao {

  /** `a <= b` in lexicographic order. */
  predicate NomeLe(a: string, b: string)
    decreases |a|
  {
    |a| == 0 || (|b| > 0 && (a[0] < b[0] || (a[0] == b[0] && NomeLe(a[1..], b[1..]))))
  }

  lemma {:induction false} NomeLeTotal(a: string, b: string)
    ensures NomeLe(a, b) || NomeLe(b, a)
    decreases |a|
  {
    if |a| > 0 && |b| > 0 && a[0] == b[0] {
      NomeLeTotal(a[1..], b[1..]);
    }
  }

  lemma {:induction false} NomeLeTransitiva(a: string, b: string, c: string)
    requires NomeLe(a, b) && NomeLe(b, c)
    ensures NomeLe(a, c)
    decreases |a|
  {
    if |a| > 0 && a[0] == b[0] && b[0] == c[0] {
      NomeLeTransitiva(a[1..], b[1..], c[1..]);
    }
  }

  /** Every element of `s` has a name in `nomes`. */
  predicate Nomeados<T>(s: seq<T>, nomes: map<T, string>)
  {
    forall k :: 0 <= k < |s| ==> s[k] in nomes
  }

  /** The name `nome` reads off the record under each key of `m`: the key the query orders by. */
  function Nomes<K, V>(m: map<K, V>, nome: V -> string): (r: map<K, string>)
    ensures r.Keys == m.Keys
    ensures forall k :: k in m ==> r[k] == nome(m[k])
  {
    map k | k in m :: nome(m[k])
  }

  /** `s` is in ascending order of name. */
  predicate OrdenadoPorNome<T>(s: seq<T>, nomes: map<T, string>)
  {
    Nomeados(s, nomes) &&
    forall i, j :: 0 <= i < j < |s| ==> NomeLe(nomes[s[i]], nomes[s[j]])
  }

  /** The members of `s`, as a set (`set(s)`). */
  function Conjunto<T(!new)>(s: seq<T>): (r: set<T>)
    ensures forall x :: x in r <==> x in s
  {
    set x | x in s
  }

  /** No element occurs twice (the `DISTINCT` of a query). */
  predicate SemRepeticao<T(==)>(s: seq<T>)
  {
    forall i, j :: 0 <= i < j < |s| ==> s[i] != s[j]
  }

  /** Inserts `x` into the sorted `s` before the first element named above it. */
  function Inserir<T(!new)>(s: seq<T>, x: T, nomes: map<T, string>): (r: seq<T>)
    requires OrdenadoPorNome(s, nomes) && x in nomes
    ensures OrdenadoPorNome(r, nomes)
    ensures |r| == |s| + 1
    ensures forall y :: y in r <==> y in s || y == x
    ensures SemRepeticao(s) && x !in s ==> SemRepeticao(r)
    decreases |s|
  {
    if s == [] then [x]
    else if NomeLe(nomes[x], nomes[s[0]]) then
      assert forall j :: 0 < j < |s| ==> NomeLe(nomes[x], nomes[s[j]]) by {
        forall j | 0 < j < |s| ensures NomeLe(nomes[x], nomes[s[j]]) {
          NomeLeTransitiva(nomes[x], nomes[s[0]], nomes[s[j]]);
        }
      }
      [x] + s
    else
      NomeLeTotal(nomes[x], nomes[s[0]]);
      var resto := Inserir(s[1..], x, nomes);
      assert forall y :: y in resto ==> NomeLe(nomes[s[0]], nomes[y]) by {
        forall y | y in resto ensures NomeLe(nomes[s[0]], nomes[y]) {
          if y != x {
            var k :| 0 <= k < |s[1..]| && s[1..][k] == y;
            assert s[k + 1] == y;
          }
        }
      }
      assert SemRepeticao(s) && x !in s ==> SemRepeticao([s[0]] + resto) by {
        if SemRepeticao(s) && x !in s {
          assert SemRepeticao(s[1..]);
          assert s[0] !in s[1..];
          assert s[0] !in resto;
        }
      }
      [s[0]] + resto
  }

  /** The elements of `itens`, once each, in ascending order of name. */
  method Ordenar<T(!new)>(itens: set<T>, nomes: map<T, string>) returns (r: seq<T>)
    requires itens <= nomes.Keys
    ensures OrdenadoPorNome(r, nomes)
    ensures SemRepeticao(r)
    ensures forall y :: y in r <==> y in itens
    ensures |r| == |itens|
  {
    r := [];
    var resto := itens;
    while resto != {}
      invariant resto <= itens
      invariant OrdenadoPorNome(r, nomes)
      invariant SemRepeticao(r)
      invariant forall y :: y in r <==> y in itens && y !in resto
      invariant |r| + |resto| == |itens|
      decreases resto
    {
      var x :| x in resto;
      r := Inserir(r, x, nomes);
      resto := resto - {x};
    }
  }
}
