/** Text helpers shared by the server and the client: the character classes
    the protocol's regular expressions use, ASCII case-insensitive matching,
    decimal digit strings, the string order of Ruby's `sort`, and the
    `|`-terminated list fields of the wire protocol. */
module Texto {

  datatype Option<+T> = None | Some(value: T)

  // ----- characters -----

  /** ASCII lower-casing: the case folding a `/i` regular expression applies
      to the protocol's keywords. */
  function Minuscula(c: char): char {
    if 'A' <= c <= 'Z' then (c as int + 32) as char else c
  }

  predicate EhDigito(c: char) { '0' <= c <= '9' }
  predicate EhLetra(c: char) { 'a' <= c <= 'z' || 'A' <= c <= 'Z' }
  /** `[a-zA-Z0-9]`: the characters of a nick or a room name. */
  predicate EhAlnum(c: char) { EhLetra(c) || EhDigito(c) }
  /** `[a-zA-Z_-]`: the characters of a display name. */
  predicate EhCharNome(c: char) { EhLetra(c) || c == '_' || c == '-' }
  /** Ruby's `\w`: `[a-zA-Z0-9_]`. */
  predicate EhPalavra(c: char) { EhAlnum(c) || c == '_' }

  predicate Todos(s: string, P: char -> bool) {
    forall i :: 0 <= i < |s| ==> P(s[i])
  }

  // ----- regular-expression building blocks -----

  /** `s` begins with `p`, letters compared without regard to case. */
  predicate PrefixoCI(p: string, s: string) {
    |p| <= |s| && forall i :: 0 <= i < |p| ==> Minuscula(p[i]) == Minuscula(s[i])
  }

  /** The shape `/^p( |$)/i`: keyword `p`, then a space or the end of the line. */
  predicate Palavra(p: string, s: string) {
    PrefixoCI(p, s) && (|s| == |p| || s[|p|] == ' ')
  }

  /** How many characters a greedy `[P]{0,max}` takes from the front of `s`:
      the longest prefix of at most `max` characters that all satisfy `P`. */
  function Corrida(s: string, P: char -> bool, max: nat): (k: nat)
    ensures k <= max && k <= |s|
    ensures forall i :: 0 <= i < k ==> P(s[i])
    ensures k < max && k < |s| ==> !P(s[k])
  {
    if max == 0 || s == [] || !P(s[0]) then 0 else 1 + Corrida(s[1..], P, max - 1)
  }

  /** The three facts in `Corrida`'s contract pin its value down. */
  lemma CorridaExata(s: string, P: char -> bool, max: nat, k: nat)
    requires k <= max && k <= |s|
    requires forall i :: 0 <= i < k ==> P(s[i])
    requires k < max && k < |s| ==> !P(s[k])
    ensures Corrida(s, P, max) == k
  {
  }

  /** `[a-zA-Z0-9]{1,24}` matched in full: a valid nick or room name. */
  predicate EhIdentificador(s: string) {
    1 <= |s| <= 24 && Todos(s, EhAlnum)
  }

  // ----- decimal numbers -----

  function Digito(d: nat): char
    requires d < 10
  {
    ('0' as int + d) as char
  }

  function ValorDigito(c: char): nat
    requires EhDigito(c)
  {
    c as int - '0' as int
  }

  function Potencia10(n: nat): nat {
    if n == 0 then 1 else 10 * Potencia10(n - 1)
  }

  /** The decimal rendering of `n` that Ruby's interpolation `"#{n}"` writes:
      digits only, and no leading zero. */
  function NatParaTexto(n: nat): (s: string)
    ensures 1 <= |s| && Todos(s, EhDigito)
    ensures s[0] == '0' ==> s == "0"
  {
    if n < 10 then [Digito(n)] else NatParaTexto(n / 10) + [Digito(n % 10)]
  }

  /** Ruby's `to_i` on a string of decimal digits; `k` digits give less
      than 10^k (so one or two digits give at most 99). */
  function TextoParaNat(s: string): (n: nat)
    requires Todos(s, EhDigito)
    ensures n < Potencia10(|s|)
  {
    if s == [] then 0 else TextoParaNat(s[..|s| - 1]) * 10 + ValorDigito(s[|s| - 1])
  }

  /** Reading back a rendered number gives the number. */
  lemma {:induction false} TextoParaNatDeNatParaTexto(n: nat)
    ensures TextoParaNat(NatParaTexto(n)) == n
  {
    if n >= 10 {
      var s := NatParaTexto(n);
      assert s[..|s| - 1] == NatParaTexto(n / 10);
      TextoParaNatDeNatParaTexto(n / 10);
    }
  }

  // ----- the order of Ruby's String#<=> -----

  /** `a` sorts no later than `b`: character by character, a proper prefix
      first. On UTF-8 text this is the byte order Ruby's `String#<=>` uses. */
  predicate LexMenorIgual(a: string, b: string) {
    a == [] || (b != [] && (a[0] < b[0] || (a[0] == b[0] && LexMenorIgual(a[1..], b[1..]))))
  }

  lemma {:induction false} LexTotal(a: string, b: string)
    ensures LexMenorIgual(a, b) || LexMenorIgual(b, a)
  {
    if a != [] && b != [] && a[0] == b[0] {
      LexTotal(a[1..], b[1..]);
    }
  }

  lemma {:induction false} LexAntissimetrica(a: string, b: string)
    requires LexMenorIgual(a, b) && LexMenorIgual(b, a)
    ensures a == b
  {
    if a != [] && b != [] {
      LexAntissimetrica(a[1..], b[1..]);
      assert a == [a[0]] + a[1..] && b == [b[0]] + b[1..];
    }
  }

  lemma {:induction false} LexTransitiva(a: string, b: string, c: string)
    requires LexMenorIgual(a, b) && LexMenorIgual(b, c)
    ensures LexMenorIgual(a, c)
  {
    if a != [] && b != [] && c != [] && a[0] == b[0] == c[0] {
      LexTransitiva(a[1..], b[1..], c[1..]);
    }
  }

  // ----- `|` lists -----

  /** A list field as the server writes it: every entry followed by `|`. */
  function JuntarBarra(xs: seq<string>): string {
    if xs == [] then "" else xs[0] + "|" + JuntarBarra(xs[1..])
  }

  /** Writing one more entry extends the field by that entry and its `|`. */
  lemma {:induction false} JuntarBarraFinal(xs: seq<string>, x: string)
    ensures JuntarBarra(xs + [x]) == JuntarBarra(xs) + x + "|"
  {
    if xs == [] {
      assert JuntarBarra([x]) == x + "|" + JuntarBarra([]);
    } else {
      assert (xs + [x])[0] == xs[0] && (xs + [x])[1..] == xs[1..] + [x];
      JuntarBarraFinal(xs[1..], x);
    }
  }

  /** The pieces of `s` between `|` separators, empty pieces included;
      putting them back together with `|` between them gives `s`. */
  function Campos(s: string): (r: seq<string>)
    ensures |r| >= 1
    ensures forall i :: 0 <= i < |r| ==> '|' !in r[i]
    ensures Intercalar(r) == s
  {
    if s == [] then [""]
    else
      var t := Campos(s[1..]);
      if s[0] == '|' then [""] + t
      else
        assert Intercalar(t) == t[0] + Intercalar1(t[1..]);
        [[s[0]] + t[0]] + t[1..]
  }

  /** The entries of `xs` with one `|` between each two. */
  function Intercalar(xs: seq<string>): string {
    if xs == [] then "" else xs[0] + Intercalar1(xs[1..])
  }

  function Intercalar1(xs: seq<string>): string {
    if xs == [] then "" else "|" + xs[0] + Intercalar1(xs[1..])
  }

  /** `xs` with its trailing empty entries dropped. */
  function SemVaziosFinais(xs: seq<string>): (r: seq<string>)
    ensures r <= xs
    ensures r == [] || r[|r| - 1] != ""
    ensures forall i :: |r| <= i < |xs| ==> xs[i] == ""
  {
    if xs == [] || xs[|xs| - 1] != "" then xs else SemVaziosFinais(xs[..|xs| - 1])
  }

  /** Ruby's `String#split('|')`: the pieces between separators, trailing
      empty pieces removed (so `"a|b|"` gives `["a", "b"]` and `""` gives `[]`). */
  function DividirBarra(s: string): (r: seq<string>)
    ensures forall i :: 0 <= i < |r| ==> '|' !in r[i]
  {
    SemVaziosFinais(Campos(s))
  }

  lemma {:induction false} CamposDeCampo(x: string, resto: string)
    requires '|' !in x
    ensures Campos(x + "|" + resto) == [x] + Campos(resto)
  {
    if x == [] {
      assert ("" + "|" + resto)[1..] == resto;
    } else {
      CamposDeCampo(x[1..], resto);
      assert (x + "|" + resto)[1..] == x[1..] + "|" + resto;
      assert [x[0]] + x[1..] == x;
    }
  }

  lemma {:induction false} CamposDeJuntar(xs: seq<string>)
    requires forall i :: 0 <= i < |xs| ==> '|' !in xs[i]
    ensures Campos(JuntarBarra(xs)) == xs + [""]
  {
    if xs != [] {
      CamposDeCampo(xs[0], JuntarBarra(xs[1..]));
      CamposDeJuntar(xs[1..]);
      assert xs == [xs[0]] + xs[1..];
    }
  }

  /** Splitting what the server joined gives back the entries, provided no
      entry holds a `|` and the last one is not empty. */
  lemma DividirJuntar(xs: seq<string>)
    requires forall i :: 0 <= i < |xs| ==> '|' !in xs[i]
    requires xs == [] || xs[|xs| - 1] != ""
    ensures DividirBarra(JuntarBarra(xs)) == xs
  {
    CamposDeJuntar(xs);
    assert (xs + [""])[..|xs|] == xs;
  }
}
