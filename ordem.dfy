/** Ruby's `Array#sort` as the server uses it: on room entries (strings) in
    `ListarSalas`, and on a room's members ordered by nick in
    `Sala#AdicionarMembro`. Both are an ascending sort under the string order
    of `Texto.LexMenorIgual`, applied to a key of each element. */
module Ordem {
  import opened Texto

  /** `s` is in ascending order of `chave`, neighbour by neighbour. */
  predicate Ordenada<T>(s: seq<T>, chave: T -> string) {
    forall i :: 0 < i < |s| ==> LexMenorIgual(chave(s[i - 1]), chave(s[i]))
  }

  /** Ascending neighbour by neighbour means ascending between any two
      positions. */
  lemma {:induction false} OrdenadaEntreQuaisquer<T>(s: seq<T>, chave: T -> string, i: nat, j: nat)
    requires Ordenada(s, chave)
    requires i <= j < |s|
    ensures LexMenorIgual(chave(s[i]), chave(s[j]))
    decreases j - i
  {
    if i == j {
      LexReflexiva(chave(s[i]));
    } else {
      OrdenadaEntreQuaisquer(s, chave, i + 1, j);
      LexTransitiva(chave(s[i]), chave(s[i + 1]), chave(s[j]));
    }
  }

  lemma {:induction false} LexReflexiva(a: string)
    ensures LexMenorIgual(a, a)
  {
    if a != [] {
      LexReflexiva(a[1..]);
    }
  }

  /** Puts `x` into the ordered `s` after every element whose key is not
      greater than its own. */
  method Inserir<T>(s: seq<T>, x: T, chave: T -> string) returns (r: seq<T>)
    requires Ordenada(s, chave)
    ensures Ordenada(r, chave)
    ensures multiset(r) == multiset(s) + multiset{x}
  {
    var k := 0;
    while k < |s| && LexMenorIgual(chave(s[k]), chave(x))
      invariant 0 <= k <= |s|
      invariant k > 0 ==> LexMenorIgual(chave(s[k - 1]), chave(x))
    {
      k := k + 1;
    }
    if k < |s| {
      LexTotal(chave(s[k]), chave(x));
    }
    r := s[..k] + [x] + s[k..];
    assert s == s[..k] + s[k..];
    InsercaoOrdenada(s, x, k, chave);
  }

  /** Placing `x` between a neighbour not above it and one not below it keeps
      the sequence ordered. */
  lemma InsercaoOrdenada<T>(s: seq<T>, x: T, k: nat, chave: T -> string)
    requires Ordenada(s, chave) && k <= |s|
    requires k > 0 ==> LexMenorIgual(chave(s[k - 1]), chave(x))
    requires k < |s| ==> LexMenorIgual(chave(x), chave(s[k]))
    ensures Ordenada(s[..k] + [x] + s[k..], chave)
  {
    var r := s[..k] + [x] + s[k..];
    forall i | 0 < i < |r|
      ensures LexMenorIgual(chave(r[i - 1]), chave(r[i]))
    {
      if i < k {
        assert r[i - 1] == s[i - 1] && r[i] == s[i];
      } else if i == k {
        assert r[i - 1] == s[k - 1] && r[i] == x;
      } else if i == k + 1 {
        assert r[i - 1] == x && r[i] == s[k];
      } else {
        assert r[i - 1] == s[i - 2] && r[i] == s[i - 1];
      }
    }
  }

  /** Sorts `s` by `chave`: the result is ascending and holds exactly the
      elements of `s`. */
  method OrdenarPor<T>(s: seq<T>, chave: T -> string) returns (r: seq<T>)
    ensures Ordenada(r, chave)
    ensures multiset(r) == multiset(s)
  {
    r := [];
    var i := 0;
    while i < |s|
      invariant 0 <= i <= |s|
      invariant Ordenada(r, chave)
      invariant multiset(r) == multiset(s[..i])
    {
      r := Inserir(r, s[i], chave);
      assert s[..i + 1] == s[..i] + [s[i]];
      i := i + 1;
    }
    assert s[..|s|] == s;
  }
}
