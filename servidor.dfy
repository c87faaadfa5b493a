/** The ChatRadical server: users, rooms with their member lists and logs, and
    the handling of each line a client sends, first during the handshake
    (`ClienteConectar`) and then once registered (`ClienteComandos`).

    A client socket is named by its connection id. What the server writes is
    kept as one sequence of writes, each a line and the socket it went to. */
module Servidor {
  import opened Texto
  import opened Ordem
  import opened Protocolo

  /** The number `@connid` hands to each accepted connection; it also names
      that connection's socket. */
  type ConnId = nat

  /** A registered user. The source keeps one shared object per user; here
      the user table holds it and the rooms refer to it by id, so a nick
      change is seen by every room at once, as in the source. */
  datatype Usuario = Usuario(id: ConnId, nick: string, nome: string, sala: string)

  // ----- what the server writes -----

  /** One `puts` of `linha` on the socket of connection `para`. */
  datatype Escrita = Escrita(para: ConnId, linha: string)

  /** The lines socket `c` receives from the writes `es`, in order. */
  function Recebidas(es: seq<Escrita>, c: ConnId): seq<string> {
    if es == [] then []
    else Recebidas(es[..|es| - 1], c) + (if es[|es| - 1].para == c then [es[|es| - 1].linha] else [])
  }

  lemma {:induction false} RecebidasConcat(a: seq<Escrita>, b: seq<Escrita>, c: ConnId)
    ensures Recebidas(a + b, c) == Recebidas(a, c) + Recebidas(b, c)
  {
    if b == [] {
      assert a + b == a;
    } else {
      var n := |b| - 1;
      assert (a + b)[..|a + b| - 1] == a + b[..n];
      RecebidasConcat(a, b[..n], c);
    }
  }

  /** `linha` written to each socket of `destinos`, in order. */
  function Difusao(destinos: seq<ConnId>, linha: string): seq<Escrita> {
    if destinos == [] then []
    else Difusao(destinos[..|destinos| - 1], linha) + [Escrita(destinos[|destinos| - 1], linha)]
  }

  lemma DifusaoFinal(destinos: seq<ConnId>, i: nat, linha: string)
    requires i < |destinos|
    ensures Difusao(destinos[..i + 1], linha) == Difusao(destinos[..i], linha) + [Escrita(destinos[i], linha)]
  {
    assert destinos[..i + 1][..i] == destinos[..i];
  }

  /** No id occurs twice. */
  predicate SemRepeticao(s: seq<ConnId>) {
    forall i, j :: 0 <= i < j < |s| ==> s[i] != s[j]
  }

  /** Without repetition, every id occurs at most once. */
  lemma {:induction false} ContagemSemRepeticao(s: seq<ConnId>, x: ConnId)
    requires SemRepeticao(s)
    ensures multiset(s)[x] <= 1
  {
    if s != [] {
      var n := |s| - 1;
      assert s == s[..n] + [s[n]];
      ContagemSemRepeticao(s[..n], x);
      if s[n] == x {
        forall i | 0 <= i < n ensures s[..n][i] != x {
          assert s[i] != s[n];
        }
      }
    }
  }

  /** Every id occurring at most once means no repetition. */
  lemma SemRepeticaoPorContagem(s: seq<ConnId>)
    requires forall x :: multiset(s)[x] <= 1
    ensures SemRepeticao(s)
  {
    forall i, j | 0 <= i < j < |s| ensures s[i] != s[j] {
      assert s == s[..j] + s[j..];
      assert s[..j][i] == s[i];
      assert s[j..][0] == s[j];
      assert multiset(s)[s[i]] == multiset(s[..j])[s[i]] + multiset(s[j..])[s[i]];
    }
  }

  /** A list that holds the elements of `s`, without repetition, and a new
      `x`, holds each of them once. */
  lemma AcrescimoSemRepeticao(s: seq<ConnId>, t: seq<ConnId>, x: ConnId)
    requires SemRepeticao(s) && x !in s
    requires multiset(t) == multiset(s) + multiset{x}
    ensures SemRepeticao(t)
    ensures forall y :: y in t <==> y in s || y == x
  {
    forall y ensures multiset(t)[y] <= 1 {
      ContagemSemRepeticao(s, y);
    }
    SemRepeticaoPorContagem(t);
    forall y ensures y in t <==> y in s || y == x {
      assert y in t <==> y in multiset(t);
      assert y in s <==> y in multiset(s);
    }
  }

  /** A broadcast to distinct sockets gives each of them the line exactly
      once and nothing to any other socket. */
  lemma {:induction false} DifusaoEntrega(destinos: seq<ConnId>, linha: string, c: ConnId)
    requires SemRepeticao(destinos)
    ensures Recebidas(Difusao(destinos, linha), c) == if c in destinos then [linha] else []
  {
    if destinos != [] {
      var n := |destinos| - 1;
      var antes := destinos[..n];
      assert destinos == antes + [destinos[n]];
      DifusaoEntrega(antes, linha, c);
      var d := Difusao(destinos, linha);
      assert d[..|d| - 1] == Difusao(antes, linha);
      if c == destinos[n] {
        forall i | 0 <= i < n ensures antes[i] != c {
          assert destinos[i] != destinos[n];
        }
      }
    }
  }

  /** The lines `linhas` written to socket `c`, in order. */
  function Para(c: ConnId, linhas: seq<string>): seq<Escrita> {
    if linhas == [] then [] else Para(c, linhas[..|linhas| - 1]) + [Escrita(c, linhas[|linhas| - 1])]
  }

  /** Writes to one socket reach that socket, all of them, and no other. */
  lemma {:induction false} ParaEntrega(c: ConnId, linhas: seq<string>, d: ConnId)
    ensures Recebidas(Para(c, linhas), d) == if d == c then linhas else []
  {
    if linhas != [] {
      var n := |linhas| - 1;
      var p := Para(c, linhas);
      assert p[..|p| - 1] == Para(c, linhas[..n]);
      ParaEntrega(c, linhas[..n], d);
      assert linhas == linhas[..n] + [linhas[n]];
    }
  }

  /** Ruby's `Array#delete`: every occurrence of `x` removed. */
  function Sem(s: seq<ConnId>, x: ConnId): (r: seq<ConnId>)
    ensures |r| <= |s|
    ensures x !in s ==> r == s
  {
    if s == [] then []
    else if s[0] == x then Sem(s[1..], x) else [s[0]] + Sem(s[1..], x)
  }

  /** `Sem` removes every copy of `x` and nothing else. */
  lemma {:induction false} SemContagem(s: seq<ConnId>, x: ConnId)
    ensures multiset(Sem(s, x)) == multiset(s)[x := 0]
  {
    if s != [] {
      assert s == [s[0]] + s[1..];
      SemContagem(s[1..], x);
    }
  }

  /** What `Sem` keeps: exactly the other elements, each still at most once
      if it was so before. */
  lemma SemMembros(s: seq<ConnId>, x: ConnId)
    ensures forall y :: y in Sem(s, x) <==> y in s && y != x
    ensures SemRepeticao(s) ==> SemRepeticao(Sem(s, x))
  {
    var r := Sem(s, x);
    SemContagem(s, x);
    forall y ensures y in r <==> y in s && y != x {
      assert y in r <==> y in multiset(r);
      assert y in s <==> y in multiset(s);
    }
    if SemRepeticao(s) {
      forall y ensures multiset(r)[y] <= 1 {
        ContagemSemRepeticao(s, y);
      }
      SemRepeticaoPorContagem(r);
    }
  }

  // ----- rooms -----

  /** A room: its name and description, its members (sockets, in order of
      arrival), the same members as a list ordered by nick, and its log. */
  class Sala {
    const nome: string
    const descricao: string
    var membros: seq<ConnId>
    var nicks: seq<ConnId>
    var log: seq<string>

    constructor (nome: string, descricao: string)
      ensures this.nome == nome && this.descricao == descricao
      ensures membros == [] && nicks == [] && log == []
    {
      this.nome := nome;
      this.descricao := descricao;
      membros := [];
      nicks := [];
      log := [];
    }

    /** Adds the socket to the members and the user to the nick list, which
        is then sorted again by nick (`nickDe` gives each user's nick). */
    method AdicionarMembro(membro: ConnId, usuario: ConnId, nickDe: ConnId -> string)
      modifies this`membros, this`nicks
      ensures membros == old(membros) + [membro]
      ensures multiset(nicks) == multiset(old(nicks)) + multiset{usuario}
      ensures Ordenada(nicks, nickDe)
    {
      membros := membros + [membro];
      nicks := OrdenarPor(nicks + [usuario], nickDe);
    }

    method RemoverMembro(membro: ConnId, usuario: ConnId)
      modifies this`membros, this`nicks
      ensures membros == Sem(old(membros), membro)
      ensures nicks == Sem(old(nicks), usuario)
    {
      membros := Sem(membros, membro);
      nicks := Sem(nicks, usuario);
    }

    method AdicionarLog(linha: string)
      modifies this`log
      ensures log == old(log) + [linha]
    {
      log := log + [linha];
    }

    /** The last `tail` lines of the log, or all of it when it is shorter. */
    function VerLog(tail: nat): (r: seq<string>)
      reads this
      ensures |r| == if tail < |log| then tail else |log|
      ensures log == log[..|log| - |r|] + r
    {
      var inicio := if |log| - tail < 0 then 0 else |log| - tail;
      assert log == log[..inicio] + log[inicio..];
      log[inicio..]
    }
  }

  /** Each user's current nick, as the sort of a room's nick list reads it. */
  function NickDe(usuarios: map<ConnId, Usuario>): ConnId -> string {
    (id: ConnId) => if id in usuarios then usuarios[id].nick else ""
  }

  /** The current nicks of the users `ids`, in that order. */
  function NicksDe(usuarios: map<ConnId, Usuario>, ids: seq<ConnId>): (r: seq<string>)
    ensures |r| == |ids|
    ensures forall i :: 0 <= i < |ids| ==> r[i] == NickDe(usuarios)(ids[i])
  {
    seq(|ids|, i requires 0 <= i < |ids| => NickDe(usuarios)(ids[i]))
  }

  /** A room's entry in the `CMD_LISTCHN` reply. */
  function Entrada(s: Sala): string {
    s.nome + " - " + s.descricao
  }

  /** `lista` answers `CMD_LISTCHN` for rooms `salas`: one `nome - descricao`
      entry per room, sorted. */
  predicate ListaDeSalas(lista: seq<string>, salas: map<string, Sala>) {
    && Ordenada(lista, Identidade) && |lista| == |salas|
    && (forall n :: n in salas ==> Entrada(salas[n]) in lista)
    && (forall e :: e in lista ==> exists n :: n in salas && e == Entrada(salas[n]))
  }

  function Identidade(s: string): string { s }

  /** The message of the day as written: the file's text, or the fallback
      greeting when it cannot be read (`None`). */
  function TextoMotd(motd: Option<string>): string {
    if motd.Some? then motd.value else MotdPadrao
  }

  /** Writing one more line to socket `c` extends its writes by that line. */
  lemma ParaFinal(c: ConnId, linhas: seq<string>, i: nat)
    requires i < |linhas|
    ensures Para(c, linhas[..i + 1]) == Para(c, linhas[..i]) + [Escrita(c, linhas[i])]
  {
    assert linhas[..i + 1][..i] == linhas[..i];
  }

  // ----- the sort of `Sala#AdicionarMembro` as written -----

  /** `@nicks.sort()` as the source writes it, on `Usuario` objects that
      define no `<=>`: Ruby's default comparison answers only for an object
      against itself, so the sort fails (`None`, an `ArgumentError` in Ruby)
      as soon as the list holds two different users. Any sort must compare
      the two neighbours of some pair of different users, so the list is
      returned only when all its entries are the same user. */
  function OrdenarNicksComoEscrito(nicks: seq<ConnId>): (r: Option<seq<ConnId>>)
    ensures r.Some? <==> forall i, j :: 0 <= i < |nicks| && 0 <= j < |nicks| ==> nicks[i] == nicks[j]
    ensures r.Some? ==> r.value == nicks
  {
    if exists i, j :: 0 <= i < |nicks| && 0 <= j < |nicks| && nicks[i] != nicks[j] then None
    else Some(nicks)
  }

  /** As written, a user joining a room that already has another member
      makes the sort fail: the second user to connect to the default room is
      dropped right after `RCV_MOTD OK`. */
  lemma SegundoMembroComoEscrito(nicks: seq<ConnId>, novo: ConnId)
    requires exists i :: 0 <= i < |nicks| && nicks[i] != novo
    ensures OrdenarNicksComoEscrito(nicks + [novo]).None?
  {
    var i :| 0 <= i < |nicks| && nicks[i] != novo;
    var s := nicks + [novo];
    assert s[i] != s[|nicks|];
  }

  // ----- the server's invariant -----

  /** A room's member list and nick list, as values. */
  datatype Quadro = Quadro(membros: seq<ConnId>, nicks: seq<ConnId>)

  /** Room `n`: no member twice, its nick list holds each of its members
      once, and its members are exactly the registered users who are in
      room `n`. */
  ghost predicate SalaCoerente(n: string, r: Quadro, usuarios: map<ConnId, Usuario>) {
    && SemRepeticao(r.membros) && SemRepeticao(r.nicks)
    && (forall c :: c in r.nicks <==> c in r.membros)
    && forall c :: c in r.membros <==> c in usuarios && usuarios[c].sala == n
  }

  /** Every room is coherent with the users. */
  ghost predicate SalasCoerentes(quadros: map<string, Quadro>, usuarios: map<ConnId, Usuario>) {
    forall n {:trigger SalaCoerente(n, quadros[n], usuarios)} :: n in quadros ==> SalaCoerente(n, quadros[n], usuarios)
  }

  /** Some registered user holds `nick` (compared exactly, as `==` on Ruby
      strings does). */
  predicate NickEmUso(usuarios: map<ConnId, Usuario>, nick: string) {
    exists c :: c in usuarios && usuarios[c].nick == nick
  }

  /** No two registered users hold the same nick. */
  predicate NicksUnicos(usuarios: map<ConnId, Usuario>) {
    forall c, d :: c in usuarios && d in usuarios && usuarios[c].nick == usuarios[d].nick ==> c == d
  }

  /** Registered user `c` is filed under its own id, has an open connection
      and a valid nick. */
  ghost predicate UsuarioCoerente(usuarios: map<ConnId, Usuario>, c: ConnId, abertas: set<ConnId>)
    requires c in usuarios
  {
    usuarios[c].id == c && c in abertas && EhIdentificador(usuarios[c].nick)
  }

  /** Every registered user is coherent, is in an existing room and holds a
      nick no one else holds. */
  ghost predicate UsuariosCoerentes(usuarios: map<ConnId, Usuario>, abertas: set<ConnId>, nomes: set<string>) {
    && (forall c {:trigger UsuarioCoerente(usuarios, c, abertas)} :: c in usuarios ==> UsuarioCoerente(usuarios, c, abertas))
    && (forall c :: c in usuarios ==> usuarios[c].sala in nomes)
    && NicksUnicos(usuarios)
  }

  lemma SemRepeticaoFinal(s: seq<ConnId>, x: ConnId)
    requires SemRepeticao(s) && x !in s
    ensures SemRepeticao(s + [x])
  {
    var t := s + [x];
    forall i, j | 0 <= i < j < |t| ensures t[i] != t[j] {
      if j == |s| {
        assert t[i] == s[i];
      }
    }
  }

  /** A user who is not a member of room `n` enters it: the room stays
      coherent with the user table that records the move. */
  lemma SalaAoEntrar(n: string, r: Quadro, u: map<ConnId, Usuario>, c: ConnId, novo: Usuario, nicks: seq<ConnId>)
    requires SalaCoerente(n, r, u) && c !in r.membros && novo.sala == n
    requires SemRepeticao(nicks) && forall y :: y in nicks <==> y in r.nicks || y == c
    ensures SalaCoerente(n, Quadro(r.membros + [c], nicks), u[c := novo])
  {
    SemRepeticaoFinal(r.membros, c);
  }

  /** A user's record changes without entering or leaving room `n`: the
      room stays coherent. */
  lemma SalaAoAtualizarUsuario(n: string, r: Quadro, u: map<ConnId, Usuario>, c: ConnId, novo: Usuario)
    requires SalaCoerente(n, r, u) && (c in r.membros <==> novo.sala == n)
    ensures SalaCoerente(n, r, u[c := novo])
  {
  }

  /** Connection `c` leaves room `n`'s member and nick lists and the user
      table: the room stays coherent. */
  lemma SalaAoSair(n: string, r: Quadro, u: map<ConnId, Usuario>, c: ConnId)
    requires SalaCoerente(n, r, u)
    ensures SalaCoerente(n, Quadro(Sem(r.membros, c), Sem(r.nicks, c)), u - {c})
  {
    SemMembros(r.membros, c);
    SemMembros(r.nicks, c);
  }

  /** User `c` leaves room `n`'s member and nick lists for another room:
      room `n` stays coherent. */
  lemma SalaAoMudar(n: string, r: Quadro, u: map<ConnId, Usuario>, c: ConnId, novo: Usuario)
    requires SalaCoerente(n, r, u) && novo.sala != n
    ensures SalaCoerente(n, Quadro(Sem(r.membros, c), Sem(r.nicks, c)), u[c := novo])
  {
    SemMembros(r.membros, c);
    SemMembros(r.nicks, c);
  }

  /** `NovaSala`: a new, empty room keeps every room coherent. */
  lemma SalasAoCriar(q: map<string, Quadro>, u: map<ConnId, Usuario>, nome: string)
    requires SalasCoerentes(q, u) && nome !in q
    requires forall c :: c in u ==> u[c].sala in q
    ensures SalasCoerentes(q[nome := Quadro([], [])], u)
  {
    var q' := q[nome := Quadro([], [])];
    forall n | n in q' ensures SalaCoerente(n, q'[n], u) {
      if n != nome {
        assert SalaCoerente(n, q[n], u);
      } else {
        forall c | c in u ensures u[c].sala != nome {
          assert u[c].sala in q;
        }
      }
    }
  }

  /** A change to a user's record that keeps the user in the same room
      keeps every room coherent. */
  lemma SalasAoAtualizarUsuario(q: map<string, Quadro>, u: map<ConnId, Usuario>, c: ConnId, novo: Usuario)
    requires SalasCoerentes(q, u) && c in u && novo.sala == u[c].sala
    ensures SalasCoerentes(q, u[c := novo])
  {
    forall n | n in q ensures SalaCoerente(n, q[n], u[c := novo]) {
      SalaAoAtualizarUsuario(n, q[n], u, c, novo);
    }
  }

  /** A registered user moves from room `de` to room `para`, whose nick list
      becomes `nicks`: both rooms and all the others stay coherent. */
  lemma SalasAoMudar(q: map<string, Quadro>, u: map<ConnId, Usuario>, c: ConnId, para: string, nicks: seq<ConnId>)
    requires SalasCoerentes(q, u) && c in u && u[c].sala in q && para in q && para != u[c].sala
    requires SemRepeticao(nicks) && forall y :: y in nicks <==> y in q[para].nicks || y == c
    ensures var de := u[c].sala;
            SalasCoerentes(q[de := Quadro(Sem(q[de].membros, c), Sem(q[de].nicks, c))]
                            [para := Quadro(q[para].membros + [c], nicks)],
                           u[c := u[c].(sala := para)])
  {
    var de := u[c].sala;
    var novo := u[c].(sala := para);
    var q' := q[de := Quadro(Sem(q[de].membros, c), Sem(q[de].nicks, c))][para := Quadro(q[para].membros + [c], nicks)];
    forall n | n in q' ensures SalaCoerente(n, q'[n], u[c := novo]) {
      if n == de {
        SalaAoMudar(n, q[n], u, c, novo);
      } else if n == para {
        SalaAoEntrar(n, q[n], u, c, novo, nicks);
      } else {
        SalaAoAtualizarUsuario(n, q[n], u, c, novo);
      }
    }
  }

  /** A new user enters its room, whose nick list becomes `nicks`: every
      room stays coherent. */
  lemma SalasAoRegistrar(q: map<string, Quadro>, u: map<ConnId, Usuario>, novo: Usuario, nicks: seq<ConnId>)
    requires SalasCoerentes(q, u) && novo.id !in u && novo.sala in q
    requires SemRepeticao(nicks) && forall y :: y in nicks <==> y in q[novo.sala].nicks || y == novo.id
    ensures SalasCoerentes(q[novo.sala := Quadro(q[novo.sala].membros + [novo.id], nicks)], u[novo.id := novo])
  {
    var q' := q[novo.sala := Quadro(q[novo.sala].membros + [novo.id], nicks)];
    forall n | n in q' ensures SalaCoerente(n, q'[n], u[novo.id := novo]) {
      if n == novo.sala {
        SalaAoEntrar(n, q[n], u, novo.id, novo, nicks);
      } else {
        SalaAoAtualizarUsuario(n, q[n], u, novo.id, novo);
      }
    }
  }

  /** Every room without connection `c`. */
  function SemConexao(q: map<string, Quadro>, c: ConnId): (r: map<string, Quadro>)
    ensures r.Keys == q.Keys
    ensures forall n :: n in r ==> r[n] == Quadro(Sem(q[n].membros, c), Sem(q[n].nicks, c))
  {
    map n | n in q :: Quadro(Sem(q[n].membros, c), Sem(q[n].nicks, c))
  }

  /** The cleanup of a connection keeps every room coherent with the user
      table without it. */
  lemma SalasAoEncerrar(q: map<string, Quadro>, u: map<ConnId, Usuario>, c: ConnId)
    requires SalasCoerentes(q, u)
    ensures SalasCoerentes(SemConexao(q, c), u - {c})
  {
    forall n | n in SemConexao(q, c) ensures SalaCoerente(n, SemConexao(q, c)[n], u - {c}) {
      SalaAoSair(n, q[n], u, c);
    }
  }

  /** `CMD_NICK`: taking a valid nick no one holds keeps nicks unique. */
  lemma UsuariosAoTrocarNick(u: map<ConnId, Usuario>, abertas: set<ConnId>, nomes: set<string>, c: ConnId, novo: string)
    requires UsuariosCoerentes(u, abertas, nomes) && c in u && EhIdentificador(novo) && !NickEmUso(u, novo)
    ensures UsuariosCoerentes(u[c := u[c].(nick := novo)], abertas, nomes)
  {
    var u' := u[c := u[c].(nick := novo)];
    forall x | x in u ensures u[x].nick != novo {
    }
    forall x | x in u' ensures UsuarioCoerente(u', x, abertas) {
      assert UsuarioCoerente(u, x, abertas);
    }
  }

  /** A new user with a valid, free nick on an open connection keeps the
      users coherent. */
  lemma UsuariosAoRegistrar(u: map<ConnId, Usuario>, abertas: set<ConnId>, nomes: set<string>, novo: Usuario)
    requires UsuariosCoerentes(u, abertas, nomes) && novo.id !in u && novo.id in abertas
    requires EhIdentificador(novo.nick) && !NickEmUso(u, novo.nick) && novo.sala in nomes
    ensures UsuariosCoerentes(u[novo.id := novo], abertas, nomes)
  {
    var u' := u[novo.id := novo];
    forall x | x in u ensures u[x].nick != novo.nick {
    }
    forall x | x in u' ensures UsuarioCoerente(u', x, abertas) {
      if x != novo.id {
        assert UsuarioCoerente(u, x, abertas);
      }
    }
  }

  /** Moving user `c` to an existing room keeps the users coherent. */
  lemma UsuariosAoMudar(u: map<ConnId, Usuario>, abertas: set<ConnId>, nomes: set<string>, c: ConnId, sala: string)
    requires UsuariosCoerentes(u, abertas, nomes) && c in u && sala in nomes
    ensures UsuariosCoerentes(u[c := u[c].(sala := sala)], abertas, nomes)
  {
    var u' := u[c := u[c].(sala := sala)];
    forall x | x in u' ensures UsuarioCoerente(u', x, abertas) {
      assert UsuarioCoerente(u, x, abertas);
    }
  }

  /** More open connections and more rooms keep the users coherent. */
  lemma UsuariosAoAmpliar(u: map<ConnId, Usuario>, abertas: set<ConnId>, nomes: set<string>, abertas': set<ConnId>, nomes': set<string>)
    requires UsuariosCoerentes(u, abertas, nomes) && abertas <= abertas' && nomes <= nomes'
    ensures UsuariosCoerentes(u, abertas', nomes')
  {
    forall x | x in u ensures UsuarioCoerente(u, x, abertas') {
      assert UsuarioCoerente(u, x, abertas);
    }
  }

  /** The cleanup of connection `c` keeps the other users coherent. */
  lemma UsuariosAoEncerrar(u: map<ConnId, Usuario>, abertas: set<ConnId>, nomes: set<string>, c: ConnId)
    requires UsuariosCoerentes(u, abertas, nomes)
    ensures UsuariosCoerentes(u - {c}, abertas - {c}, nomes)
  {
    forall x | x in u - {c} ensures UsuarioCoerente(u - {c}, x, abertas - {c}) {
      assert UsuarioCoerente(u, x, abertas);
    }
  }

  /** The part of the server's invariant that is about values only: open
      connections have ids already handed out, the users are coherent with
      the open connections and the room names, and every room is coherent
      with the users. */
  ghost predicate Estado(nomes: set<string>, q: map<string, Quadro>, u: map<ConnId, Usuario>, abertas: set<ConnId>, connid: nat)
  {
    && (forall c :: c in abertas ==> 1 <= c <= connid)
    && UsuariosCoerentes(u, abertas, nomes)
    && SalasCoerentes(q, u)
  }

  /** The cleanup of connection `c` keeps the state coherent. */
  lemma EstadoAoEncerrar(nomes: set<string>, q: map<string, Quadro>, u: map<ConnId, Usuario>, abertas: set<ConnId>, connid: nat, c: ConnId)
    requires Estado(nomes, q, u, abertas, connid)
    ensures Estado(nomes, SemConexao(q, c), u - {c}, abertas - {c}, connid)
  {
    SalasAoEncerrar(q, u, c);
    UsuariosAoEncerrar(u, abertas, nomes, c);
  }

  /** `NovaSala`: a new, empty room keeps the state coherent. */
  lemma EstadoAoCriar(nomes: set<string>, q: map<string, Quadro>, u: map<ConnId, Usuario>, abertas: set<ConnId>, connid: nat, nome: string)
    requires Estado(nomes, q, u, abertas, connid) && nomes == q.Keys && nome !in q
    ensures Estado(nomes + {nome}, q[nome := Quadro([], [])], u, abertas, connid)
  {
    SalasAoCriar(q, u, nome);
    UsuariosAoAmpliar(u, abertas, nomes, abertas, nomes + {nome});
  }

  /** Start-up: empty rooms, no users and no connections form a coherent
      state. */
  lemma EstadoInicial(q: map<string, Quadro>)
    requires forall n :: n in q ==> q[n] == Quadro([], [])
    ensures Estado(q.Keys, q, map[], {}, 0)
  {
    forall n | n in q ensures SalaCoerente(n, q[n], map[]) {
    }
  }

  /** `CMD_NICK`: a user taking a valid nick no one holds keeps the state
      coherent. */
  lemma EstadoAoTrocarNick(nomes: set<string>, q: map<string, Quadro>, u: map<ConnId, Usuario>, abertas: set<ConnId>, connid: nat, c: ConnId, novo: string)
    requires Estado(nomes, q, u, abertas, connid) && c in u && EhIdentificador(novo) && !NickEmUso(u, novo)
    ensures Estado(nomes, q, u[c := u[c].(nick := novo)], abertas, connid)
  {
    UsuariosAoTrocarNick(u, abertas, nomes, c, novo);
    SalasAoAtualizarUsuario(q, u, c, u[c].(nick := novo));
  }

  /** `CMD_JOINCHN`: user `c` leaves its room for room `para`, whose nick
      list gains `c` as `nicks`; the state stays coherent. */
  lemma EstadoAoMudar(nomes: set<string>, q: map<string, Quadro>, u: map<ConnId, Usuario>, abertas: set<ConnId>, connid: nat,
                      c: ConnId, para: string, nicks: seq<ConnId>)
    requires Estado(nomes, q, u, abertas, connid) && nomes == q.Keys
    requires c in u && para in q && para != u[c].sala
    requires multiset(nicks) == multiset(q[para].nicks) + multiset{c}
    ensures var de := u[c].sala;
            Estado(nomes, q[de := Quadro(Sem(q[de].membros, c), Sem(q[de].nicks, c))][para := Quadro(q[para].membros + [c], nicks)],
                   u[c := u[c].(sala := para)], abertas, connid)
  {
    assert SalaCoerente(para, q[para], u);
    AcrescimoSemRepeticao(q[para].nicks, nicks, c);
    SalasAoMudar(q, u, c, para, nicks);
    UsuariosAoMudar(u, abertas, nomes, c, para);
  }

  /** `ClienteConectar`: a new user with a valid, free nick on an open
      connection enters its room, whose nick list gains it as `nicks`; the
      state stays coherent. */
  lemma EstadoAoRegistrar(nomes: set<string>, q: map<string, Quadro>, u: map<ConnId, Usuario>, abertas: set<ConnId>, connid: nat,
                          novo: Usuario, nicks: seq<ConnId>)
    requires Estado(nomes, q, u, abertas, connid) && nomes == q.Keys
    requires novo.id in abertas && novo.id !in u && EhIdentificador(novo.nick) && !NickEmUso(u, novo.nick) && novo.sala in q
    requires multiset(nicks) == multiset(q[novo.sala].nicks) + multiset{novo.id}
    ensures Estado(nomes, q[novo.sala := Quadro(q[novo.sala].membros + [novo.id], nicks)], u[novo.id := novo], abertas, connid)
  {
    assert SalaCoerente(novo.sala, q[novo.sala], u);
    AcrescimoSemRepeticao(q[novo.sala].nicks, nicks, novo.id);
    SalasAoRegistrar(q, u, novo, nicks);
    UsuariosAoRegistrar(u, abertas, nomes, novo);
  }

  // ----- the server -----

  /** The rooms the server starts with. */
  const SalasPadrao: seq<string> := ["default", "Linux", "Ruby", "FIAP"]

  class ChatRadicalServer {
    /** Rooms by name. */
    var salas: map<string, Sala>
    /** Registered users by connection id (the source's `@nicks` hash). */
    var usuarios: map<ConnId, Usuario>
    /** The last connection id handed out. */
    var connid: nat
    /** Connections whose socket is still open. */
    var abertas: set<ConnId>
    /** Everything written to the sockets so far. */
    var saida: seq<Escrita>
    /** The rooms' member and nick lists, as values. */
    ghost var quadros: map<string, Quadro>
    /** The room objects. */
    ghost var Repr: set<Sala>

    /** Every room object is filed under its own name and its lists are
        those recorded in `quadros`. */
    ghost predicate Ligado()
      reads this`salas, this`quadros, this`Repr, Repr`membros, Repr`nicks
    {
      && salas.Keys == quadros.Keys
      && (forall n :: n in salas ==>
            && salas[n] in Repr && salas[n].nome == n
            && salas[n].membros == quadros[n].membros && salas[n].nicks == quadros[n].nicks)
    }

    /** What every operation keeps: the room objects match `quadros`, and
        the values are coherent. */
    ghost predicate Coerente()
      reads this`salas, this`quadros, this`usuarios, this`abertas, this`connid, this`Repr, Repr`membros, Repr`nicks
    {
      Ligado() && Estado(salas.Keys, quadros, usuarios, abertas, connid)
    }

    /** The server's invariant, with the default room present. */
    ghost predicate Valid()
      reads this`salas, this`quadros, this`usuarios, this`abertas, this`connid, this`Repr, Repr`membros, Repr`nicks
    {
      Coerente() && "default" in salas
    }

    /** The invariant survives any step that leaves the fields it reads
        alone (writes to `saida` and to room logs). */
    twostate lemma Estavel()
      requires old(Valid())
      requires unchanged(this`salas, this`quadros, this`usuarios, this`abertas, this`connid, this`Repr)
      requires unchanged(Repr`membros, Repr`nicks)
      ensures Valid()
    {
    }

    /** The invariant, from its parts: the rooms linked to `quadros` and the
        values coherent. */
    lemma Reunir(nomes: set<string>, q: map<string, Quadro>, u: map<ConnId, Usuario>, a: set<ConnId>, k: nat)
      requires Ligado() && "default" in salas
      requires salas.Keys == nomes && quadros == q && usuarios == u && abertas == a && connid == k
      requires Estado(nomes, q, u, a, k)
      ensures Valid()
    {
    }

    /** Room `n`'s part of the invariant. */
    lemma SalaValida(n: string)
      requires Coerente() && n in salas
      ensures SalaCoerente(n, Quadro(salas[n].membros, salas[n].nicks), usuarios)
      ensures salas[n].nome == n
    {
      assert SalaCoerente(n, quadros[n], usuarios);
    }

    /** User `c`'s part of the invariant. */
    lemma UsuarioValido(c: ConnId)
      requires Coerente() && c in usuarios
      ensures usuarios[c].id == c && c in abertas && 1 <= c <= connid && EhIdentificador(usuarios[c].nick)
    {
      assert UsuarioCoerente(usuarios, c, abertas);
    }

    /** A room's nick list holds the same users as its member list. */
    lemma NicksDaSala(n: string, c: ConnId)
      requires Valid() && n in salas
      ensures c in salas[n].nicks <==> c in salas[n].membros
    {
      SalaValida(n);
    }

    /** A connection that is not in room `n` (not registered, or registered
        in another room) is in neither of the room's lists. */
    lemma ForaDaSala(n: string, c: ConnId)
      requires Valid() && n in salas
      requires c !in usuarios || usuarios[c].sala != n
      ensures c !in salas[n].membros && c !in salas[n].nicks
    {
      SalaValida(n);
    }

    /** Rooms under different names are different objects. */
    lemma SalasDistintas(m: string)
      requires Ligado() && m in salas
      ensures forall n :: n in salas && n != m ==> salas[n] != salas[m]
    {
    }

    // ----- one line's effect, from the state before to the state after -----

    /** Room `n` is still the same room, with the same lists and log. */
    twostate predicate SalaIntacta(n: string)
      reads this, salas.Values
    {
      n in old(salas) && n in salas && salas[n] == old(salas[n]) && unchanged(salas[n])
    }

    /** The users, the open connections and every room are as before. */
    twostate predicate Manteve()
      reads this, salas.Values
    {
      && usuarios == old(usuarios) && abertas == old(abertas) && salas == old(salas)
      && (forall n :: n in old(salas) ==> SalaIntacta(n))
    }

    /** Only `linhas` were written; nothing else changed. */
    twostate predicate Respondeu(linhas: seq<Escrita>)
      reads this, salas.Values
    {
      Manteve() && saida == old(saida) + linhas
    }

    /** `CMD_LISTCHN` from `c`: only the sorted room list is written. */
    twostate predicate Listou(c: ConnId)
      reads this, salas.Values
    {
      && Manteve()
      && exists lista :: ListaDeSalas(lista, salas) && saida == old(saida) + [Escrita(c, RespostaListChn(lista))]
    }

    /** `CMD_PVT destino msg` from `c`, whose nick is `nick`: the private line
        goes to the holder of `destino` and `c` is told it went, or `c` is
        told there is no such nick. Nothing else changes. */
    twostate predicate EnviouPrivada(c: ConnId, nick: string, destino: string, msg: string, ts: string)
      reads this, salas.Values
    {
      && Manteve()
      && if NickEmUso(usuarios, destino) then
           exists d :: d in usuarios && usuarios[d].nick == destino &&
             saida == old(saida) + [Escrita(d, MensagemDeChat(LinhaPrivada(ts, nick, msg))), Escrita(c, RespostaPvtOk)]
         else saida == old(saida) + [Escrita(c, ErroPvtNick)]
    }

    /** A successful `CMD_JOINCHN sala descricao` from user `u`: room `sala`
        is new, described by `descricao` and holds only `u`; `u` leaves its
        old room, which hears of it; `u` is told `RCV_JOINCHN OK` and then
        hears its own arrival in `sala`. */
    twostate predicate MudouDeSala(u: Usuario, sala: string, descricao: string, ts: string)
      reads this, salas.Values
    {
      && u.sala in old(salas) && sala in salas && sala != u.sala
      && u.sala in salas && salas[u.sala] == old(salas[u.sala])
      && var s := salas[u.sala];
         var saiu := LinhaDeAviso(ts, AvisoSaiu(u.nick));
         var entrou := LinhaDeAviso(ts, AvisoEntrou(u.nick, sala));
         && fresh(salas[sala]) && salas == old(salas)[sala := salas[sala]]
         && salas[sala].descricao == descricao
         && salas[sala].membros == [u.id] && salas[sala].nicks == [u.id] && salas[sala].log == [entrou]
         && usuarios == old(usuarios)[u.id := u.(sala := sala)] && abertas == old(abertas)
         && s.membros == Sem(old(s.membros), u.id) && s.nicks == Sem(old(s.nicks), u.id)
         && s.log == old(s.log) + [saiu]
         && saida == old(saida) + Difusao(old(s.membros), MensagemDeChat(saiu))
              + [Escrita(u.id, RespostaJoinOk(sala))] + [Escrita(u.id, MensagemDeChat(entrou))]
    }

    /** `CMD_JOINCHN sala descricao` from user `u`: an existing room or a
        missing description is refused and nothing changes; otherwise `u`
        moves to the new room. */
    twostate predicate Juntou(u: Usuario, sala: string, descricao: Option<string>, ts: string)
      reads this, salas.Values
    {
      if sala in old(salas) || descricao.None? then Respondeu([Escrita(u.id, ErroJoinDescricao)])
      else MudouDeSala(u, sala, descricao.value, ts)
    }

    /** `CMD_NICK novo` from user `u`: a nick in use is refused and nothing
        changes; otherwise the room hears of the change under the old nick,
        `u` takes the new one and is told so. */
    twostate predicate TrocouDeNick(u: Usuario, novo: string, ts: string)
      reads this, salas.Values
    {
      && u.sala in old(salas)
      && if NickEmUso(old(usuarios), novo) then Respondeu([Escrita(u.id, ErroNickEmUso)])
         else
           var s := old(salas[u.sala]);
           var aviso := LinhaDeAviso(ts, AvisoTrocouNick(u.nick, novo));
           && usuarios == old(usuarios)[u.id := u.(nick := novo)] && abertas == old(abertas) && salas == old(salas)
           && s.membros == old(s.membros) && s.nicks == old(s.nicks) && s.log == old(s.log) + [aviso]
           && saida == old(saida) + Difusao(s.membros, MensagemDeChat(aviso)) + [Escrita(u.id, RespostaNickOk)]
    }

    /** A chat line `texto` from user `u`: it goes into the room's log and to
        every member, and `u` is told `RCV_CHAT OK`; every other room is
        as before. */
    twostate predicate Conversou(u: Usuario, texto: string, ts: string)
      reads this, salas.Values
    {
      && u.sala in old(salas)
      && var s := old(salas[u.sala]);
         var linha := LinhaDeChat(ts, u.nick, texto);
         && usuarios == old(usuarios) && abertas == old(abertas) && salas == old(salas)
         && (forall n :: n in old(salas) && n != u.sala ==> SalaIntacta(n))
         && s.membros == old(s.membros) && s.nicks == old(s.nicks) && s.log == old(s.log) + [linha]
         && saida == old(saida) + Difusao(s.membros, MensagemDeChat(linha)) + [Escrita(u.id, RespostaChatOk)]
    }

    /** `QUIT` from user `u`: the room hears that `u` left, and `u` leaves the
        room's lists, the user table and the open connections. */
    twostate predicate Desligou(u: Usuario, ts: string)
      reads this, salas.Values
    {
      && u.sala in old(salas)
      && var s := old(salas[u.sala]);
         var saiu := LinhaDeAviso(ts, AvisoSaiu(u.nick));
         && usuarios == old(usuarios) - {u.id} && abertas == old(abertas) - {u.id} && salas == old(salas)
         && s.membros == Sem(old(s.membros), u.id) && s.nicks == Sem(old(s.nicks), u.id)
         && s.log == old(s.log) + [saiu]
         && saida == old(saida) + Difusao(old(s.membros), MensagemDeChat(saiu))
    }

    /** What any command from registered user `c` leaves alone: no id is
        handed out, no other connection opens or closes, the user's room is
        still there and every other room stays the same room with the same
        lists and log. */
    twostate predicate Preservou(c: ConnId)
      reads this, salas.Values
    {
      && c in old(usuarios) && old(usuarios[c]).id == c && old(usuarios[c].sala) in old(salas)
      && var u := old(usuarios[c]);
         && u.sala in salas && salas[u.sala] == old(salas[u.sala])
         && connid == old(connid) && abertas - {c} == old(abertas) - {c}
         && (forall n :: n in old(salas) && n != u.sala ==> SalaIntacta(n))
    }

    /** What `ClienteComandos` does with command `k` from registered user `c`,
        `ts` stamping the room lines: `Preservou` what no command touches,
        and `Efeito` says, command by command, what is written and what
        changes. */
    twostate predicate Atendeu(c: ConnId, k: Comando, ts: string)
      reads this, salas.Values
    {
      Preservou(c) && Efeito(old(usuarios[c]), k, ts)
    }

    /** The effect of command `k` from user `u`, whose room `u.sala` is
        still there. */
    twostate predicate Efeito(u: Usuario, k: Comando, ts: string)
      requires u.sala in old(salas) && u.sala in salas
      reads this, salas.Values
    {
      var c := u.id;
      var s := salas[u.sala];
      match k
      case ListChn => Listou(c)
      case JoinChn(sala, descricao) => Juntou(u, sala, descricao, ts)
      case JoinNomeInvalido => Respondeu([Escrita(c, ErroJoinNome)])
      case InfoChn => Respondeu([Escrita(c, RespostaInfoChn(u.sala, s.descricao))])
      case WhoChn => Respondeu([Escrita(c, RespostaWhoChn(NicksDe(usuarios, s.nicks)))])
      case VLog(tail) => Respondeu(Para(c, LinhasDeLog(s.VerLog(tail))))
      case Pvt(destino, msg) => EnviouPrivada(c, u.nick, destino, msg, ts)
      case PvtSemArgumentos => Respondeu([])
      case WhoAmI => Respondeu([Escrita(c, RespostaWhoAmI(c, u.nick, u.nome, u.sala))])
      case Nick(novo) => TrocouDeNick(u, novo, ts)
      case NickSemArgumento => Respondeu([])
      case Chat(texto) => Conversou(u, texto, ts)
      case ChatVazio => Respondeu([Escrita(c, ErroChatVazio)])
      case Quit => Desligou(u, ts)
      case Invalido => Respondeu([Escrita(c, ErroComando)])
    }

    /** What `ClienteConectar` does with handshake line `h` on the open,
        unregistered connection `c`: a free nick registers the user in
        `default` with the full greeting, a taken nick or bad syntax is
        answered with an error, and `QUIT` closes the connection. No id is
        handed out and no room but `default` changes. */
    twostate predicate Conectou(c: ConnId, h: Conexao, motd: Option<string>, ts: string)
      reads this, salas.Values
    {
      && c in old(abertas) && c !in old(usuarios) && "default" in old(salas)
      && connid == old(connid)
      && match h
         case Conn(nick, nome) =>
           if NickEmUso(old(usuarios), nick) then Respondeu([Escrita(c, ErroConnNickEmUso)])
           else
             var aviso := LinhaDeAviso(ts, AvisoEntrou(nick, "default"));
             && salas == old(salas) && abertas == old(abertas)
             && usuarios == old(usuarios)[c := Usuario(c, nick, nome, "default")]
             && (forall n :: n in old(salas) && n != "default" ==> SalaIntacta(n))
             && var padrao := salas["default"];
                && padrao.membros == old(padrao.membros) + [c]
                && multiset(padrao.nicks) == multiset(old(padrao.nicks)) + multiset{c}
                && Ordenada(padrao.nicks, NickDe(usuarios))
                && padrao.log == old(padrao.log) + [aviso]
                && saida == old(saida)
                     + [Escrita(c, RespostaConnOk(c)), Escrita(c, TextoMotd(motd)),
                        Escrita(c, RespostaMotdOk), Escrita(c, RespostaJoinOk("default"))]
                     + Difusao(padrao.membros, MensagemDeChat(aviso))
         case QuitConexao =>
           && usuarios == old(usuarios) && abertas == old(abertas) - {c} && salas == old(salas)
           && (forall n :: n in old(salas) ==> SalaIntacta(n))
           && saida == old(saida)
         case SintaxeIncorreta => Respondeu([Escrita(c, ErroConnSintaxe)])
    }

    /** A room as start-up leaves it: described by its name, no members, no
        log. */
    static predicate Inicial(s: Sala, n: string)
      reads s
    {
      s.descricao == n && s.membros == [] && s.nicks == [] && s.log == []
    }

    /** Start-up: no users, and the rooms default, Linux, Ruby and FIAP,
        each described by its own name and empty. */
    constructor ()
      ensures Valid()
      ensures forall n :: n in salas <==> n in SalasPadrao
      ensures forall n :: n in salas ==> Inicial(salas[n], n)
      ensures usuarios == map[] && connid == 0 && abertas == {} && saida == []
    {
      salas := map[];
      usuarios := map[];
      connid := 0;
      abertas := {};
      saida := [];
      quadros := map[];
      Repr := {};
      new;
      var padrao := SalasPadrao;
      var i := 0;
      while i < |padrao|
        invariant 0 <= i <= |padrao|
        invariant Ligado()
        invariant forall n :: n in quadros ==> quadros[n] == Quadro([], [])
        invariant forall n :: n in salas <==> n in padrao[..i]
        invariant forall n :: n in salas ==> salas[n].descricao == n && salas[n].log == []
        invariant usuarios == map[] && connid == 0 && abertas == {} && saida == []
      {
        assert padrao[..i + 1] == padrao[..i] + [padrao[i]];
        var _ := NovaSala(padrao[i], Some(padrao[i]));
        i := i + 1;
      }
      assert padrao[..i] == padrao;
      EstadoInicial(quadros);
      Reunir(quadros.Keys, quadros, map[], {}, 0);
    }

    /** `@connid += 1` on an accepted connection: the new connection gets a
        fresh id, never used before. */
    method Aceitar() returns (c: ConnId)
      requires Valid()
      modifies this`connid, this`abertas
      ensures Valid()
      ensures connid == old(connid) + 1 && c == connid
      ensures c !in old(abertas) && abertas == old(abertas) + {c}
      ensures c !in usuarios
    {
      forall x | x in usuarios ensures x <= connid {
        UsuarioValido(x);
      }
      UsuariosAoAmpliar(usuarios, abertas, salas.Keys, abertas + {connid + 1}, salas.Keys);
      connid := connid + 1;
      c := connid;
      abertas := abertas + {c};
    }

    /** Creates room `nome` unless it exists (no result, `nil` in the
        source); without a description nothing is created (`false`). */
    method NovaSala(nome: string, descricao: Option<string>) returns (criada: Option<bool>)
      requires Ligado()
      modifies this`salas, this`quadros, this`Repr
      ensures Ligado()
      ensures nome in old(salas) ==> criada == None && salas == old(salas) && quadros == old(quadros)
      ensures nome !in old(salas) && descricao == None ==> criada == Some(false) && salas == old(salas) && quadros == old(quadros)
      ensures nome !in old(salas) && descricao.Some? ==>
                && criada == Some(true)
                && quadros == old(quadros)[nome := Quadro([], [])]
                && nome in salas && fresh(salas[nome])
                && salas == old(salas)[nome := salas[nome]]
                && salas[nome].descricao == descricao.value
                && salas[nome].membros == [] && salas[nome].nicks == [] && salas[nome].log == []
    {
      if nome in salas {
        return None;
      }
      if descricao == None {
        return Some(false);
      }
      var sala := new Sala(nome, descricao.value);
      salas := salas[nome := sala];
      quadros := quadros[nome := Quadro([], [])];
      Repr := Repr + {sala};
      return Some(true);
    }

    /** `pegar_usuario_por_nick`: the user holding `nick`, compared exactly. */
    method PegarUsuarioPorNick(nick: string) returns (r: Option<ConnId>)
      ensures r.Some? ==> r.value in usuarios && usuarios[r.value].nick == nick
      ensures r.None? <==> !NickEmUso(usuarios, nick)
    {
      var pendentes := usuarios.Keys;
      while pendentes != {}
        invariant pendentes <= usuarios.Keys
        invariant forall c :: c in usuarios && c !in pendentes ==> usuarios[c].nick != nick
        decreases pendentes
      {
        var c :| c in pendentes;
        if usuarios[c].nick == nick {
          return Some(c);
        }
        pendentes := pendentes - {c};
      }
      return None;
    }

    /** `ListarSalas`: one `nome - descricao` entry per room, sorted. */
    method ListarSalas() returns (lista: seq<string>)
      ensures ListaDeSalas(lista, salas)
    {
      var pendentes := salas.Keys;
      var entradas: seq<string> := [];
      while pendentes != {}
        invariant pendentes <= salas.Keys
        invariant |entradas| + |pendentes| == |salas.Keys|
        invariant forall n :: n in salas && n !in pendentes ==> Entrada(salas[n]) in entradas
        invariant forall e :: e in entradas ==> exists n :: n in salas && e == Entrada(salas[n])
        decreases pendentes
      {
        var n :| n in pendentes;
        entradas := entradas + [Entrada(salas[n])];
        pendentes := pendentes - {n};
      }
      lista := OrdenarPor(entradas, Identidade);
      assert |lista| == |multiset(lista)| == |multiset(entradas)| == |entradas|;
      forall e | e in entradas ensures e in lista {
        assert e in multiset(entradas);
      }
      forall e | e in lista ensures e in entradas {
        assert e in multiset(lista);
      }
    }

    /** The `membros.each { |cliente| cliente.puts ... }` loop of `Chat` and
        `ChatNotice`: one `RCV_CHATMSG` line to each member of `sala`. */
    method DifundirNaSala(sala: Sala, linha: string)
      modifies this`saida
      ensures saida == old(saida) + Difusao(sala.membros, MensagemDeChat(linha))
    {
      var i := 0;
      while i < |sala.membros|
        invariant 0 <= i <= |sala.membros|
        invariant saida == old(saida) + Difusao(sala.membros[..i], MensagemDeChat(linha))
      {
        DifusaoFinal(sala.membros, i, MensagemDeChat(linha));
        saida := saida + [Escrita(sala.membros[i], MensagemDeChat(linha))];
        i := i + 1;
      }
      assert sala.membros[..|sala.membros|] == sala.membros;
    }

    /** The common part of `Chat` and `ChatNotice`: the line goes into room
        `n`'s log and to every member of the room. */
    method Publicar(n: string, linha: string)
      requires n in salas
      modifies this`saida, (salas[n] as Sala)`log
      ensures salas[n].log == old(salas[n].log) + [linha]
      ensures saida == old(saida) + Difusao(salas[n].membros, MensagemDeChat(linha))
    {
      var sala := salas[n];
      sala.AdicionarLog(linha);
      DifundirNaSala(sala, linha);
    }

    /** `Chat`: `<nick> texto` in the user's room, log and members. */
    method Chat(c: ConnId, texto: string, ts: string) returns (resposta: string)
      requires Valid() && c in usuarios
      modifies this`saida, (salas[usuarios[c].sala] as Sala)`log
      ensures resposta == RespostaChatOk
      ensures var s := salas[usuarios[c].sala];
              var linha := LinhaDeChat(ts, usuarios[c].nick, texto);
              s.log == old(s.log) + [linha] && saida == old(saida) + Difusao(s.membros, MensagemDeChat(linha))
    {
      Publicar(usuarios[c].sala, LinhaDeChat(ts, usuarios[c].nick, texto));
      resposta := RespostaChatOk;
    }

    /** Writes `linhas` to the sockets, in order. */
    method Escrever(linhas: seq<Escrita>)
      requires Valid()
      modifies this`saida
      ensures Valid() && saida == old(saida) + linhas
      ensures Respondeu(linhas)
    {
      saida := saida + linhas;
    }

    /** `ChatNotice`: `*** msg` in the user's room, log and members (the
        user included). */
    method ChatNotice(c: ConnId, msg: string, ts: string)
      requires Valid() && c in usuarios
      modifies this`saida, (salas[usuarios[c].sala] as Sala)`log
      ensures Valid()
      ensures var s := salas[usuarios[c].sala];
              var linha := LinhaDeAviso(ts, msg);
              s.log == old(s.log) + [linha] && saida == old(saida) + Difusao(s.membros, MensagemDeChat(linha))
    {
      Publicar(usuarios[c].sala, LinhaDeAviso(ts, msg));
    }

    /** Answers the user with `linhas`, then announces `msg` in the user's
        room as `ChatNotice` does. */
    method ResponderEAvisar(c: ConnId, linhas: seq<Escrita>, msg: string, ts: string)
      requires Valid() && c in usuarios
      modifies this`saida, (salas[usuarios[c].sala] as Sala)`log
      ensures Valid()
      ensures var s := salas[usuarios[c].sala];
              var linha := LinhaDeAviso(ts, msg);
              s.log == old(s.log) + [linha] && saida == old(saida) + linhas + Difusao(s.membros, MensagemDeChat(linha))
    {
      Escrever(linhas);
      ChatNotice(c, msg, ts);
    }

    /** `EnviarPVT`: the private line goes to the holder of nick `destino`
        only, and the sender learns whether there was one. */
    method EnviarPVT(c: ConnId, destino: string, msg: string, ts: string) returns (resposta: string)
      requires c in usuarios
      modifies this`saida
      ensures NickEmUso(usuarios, destino) ==>
                && resposta == RespostaPvtOk
                && exists d :: d in usuarios && usuarios[d].nick == destino &&
                     saida == old(saida) + [Escrita(d, MensagemDeChat(LinhaPrivada(ts, usuarios[c].nick, msg)))]
      ensures !NickEmUso(usuarios, destino) ==> resposta == ErroPvtNick && saida == old(saida)
    {
      var alvo := PegarUsuarioPorNick(destino);
      if alvo.Some? {
        saida := saida + [Escrita(alvo.value, MensagemDeChat(LinhaPrivada(ts, usuarios[c].nick, msg)))];
        resposta := RespostaPvtOk;
      } else {
        resposta := ErroPvtNick;
      }
    }

    /** `CMD_PVT destino msg`: `EnviarPVT`, then its answer to the sender. */
    method CmdPvt(c: ConnId, destino: string, msg: string, ts: string)
      requires c in usuarios
      modifies this`saida
      ensures EnviouPrivada(c, usuarios[c].nick, destino, msg, ts)
    {
      var resposta := EnviarPVT(c, destino, msg, ts);
      saida := saida + [Escrita(c, resposta)];
      if NickEmUso(usuarios, destino) {
        ghost var d :| d in usuarios && usuarios[d].nick == destino &&
                 saida == old(saida) + [Escrita(d, MensagemDeChat(LinhaPrivada(ts, usuarios[c].nick, msg)))]
                                     + [Escrita(c, RespostaPvtOk)];
        assert saida == old(saida) + [Escrita(d, MensagemDeChat(LinhaPrivada(ts, usuarios[c].nick, msg))),
                                      Escrita(c, RespostaPvtOk)];
      }
    }

    /** A chat line: `Chat`, then its answer to the sender. */
    method CmdChat(c: ConnId, texto: string, ts: string)
      requires Valid() && c in usuarios
      modifies this`saida, (salas[usuarios[c].sala] as Sala)`log
      ensures Conversou(usuarios[c], texto, ts)
    {
      UsuarioValido(c);
      SalasDistintas(usuarios[c].sala);
      var resposta := Chat(c, texto, ts);
      saida := saida + [Escrita(c, resposta)];
    }

    /** The `cliente.write` loops of `CMD_LISTCHN` and `CMD_WHOCHN`: the
        header, then each item followed by `|`, as one line. */
    method EscreverLista(c: ConnId, cabecalho: string, itens: seq<string>)
      modifies this`saida
      ensures saida == old(saida) + [Escrita(c, cabecalho + JuntarBarra(itens))]
    {
      var linha := cabecalho;
      var i := 0;
      while i < |itens|
        invariant 0 <= i <= |itens|
        invariant linha == cabecalho + JuntarBarra(itens[..i])
        invariant saida == old(saida)
      {
        JuntarBarraFinal(itens[..i], itens[i]);
        assert itens[..i + 1] == itens[..i] + [itens[i]];
        linha := linha + itens[i] + "|";
        i := i + 1;
      }
      assert itens[..|itens|] == itens;
      assert linha == cabecalho + JuntarBarra(itens);
      saida := saida + [Escrita(c, linha)];
    }

    /** `CMD_LISTCHN`: the sorted room list, returned as well as written. */
    method CmdListChn(c: ConnId) returns (lista: seq<string>)
      modifies this`saida
      ensures ListaDeSalas(lista, salas) && Respondeu([Escrita(c, RespostaListChn(lista))])
      ensures Listou(c)
    {
      lista := ListarSalas();
      EscreverLista(c, "RCV_LISTCHN OK ", lista);
    }

    /** `CMD_INFOCHN`: the name and description of the user's room. */
    method CmdInfoChn(c: ConnId)
      requires Valid() && c in usuarios
      modifies this`saida
      ensures saida == old(saida) + [Escrita(c, RespostaInfoChn(usuarios[c].sala, salas[usuarios[c].sala].descricao))]
      ensures Respondeu([Escrita(c, RespostaInfoChn(usuarios[c].sala, salas[usuarios[c].sala].descricao))])
    {
      var sala := salas[usuarios[c].sala];
      SalaValida(usuarios[c].sala);
      saida := saida + [Escrita(c, RespostaInfoChn(sala.nome, sala.descricao))];
    }

    /** `CMD_WHOCHN`: the current nicks of the user's room, in the order of
        its nick list; they are exactly the nicks of the users in the room. */
    method CmdWhoChn(c: ConnId) returns (nicks: seq<string>)
      requires Valid() && c in usuarios
      modifies this`saida
      ensures saida == old(saida) + [Escrita(c, RespostaWhoChn(nicks))]
      ensures nicks == NicksDe(usuarios, salas[usuarios[c].sala].nicks)
      ensures forall d :: d in usuarios && usuarios[d].sala == usuarios[c].sala ==> usuarios[d].nick in nicks
      ensures forall x :: x in nicks ==>
                exists d :: d in usuarios && usuarios[d].sala == usuarios[c].sala && x == usuarios[d].nick
      ensures Respondeu([Escrita(c, RespostaWhoChn(nicks))])
    {
      var n := usuarios[c].sala;
      var sala := salas[n];
      nicks := NicksDe(usuarios, sala.nicks);
      SalaValida(n);
      forall d | d in usuarios && usuarios[d].sala == n
        ensures usuarios[d].nick in nicks
      {
        NicksDaSala(n, d);
        var i :| 0 <= i < |sala.nicks| && sala.nicks[i] == d;
        assert nicks[i] == usuarios[d].nick;
      }
      forall x | x in nicks
        ensures exists d :: d in usuarios && usuarios[d].sala == n && x == usuarios[d].nick
      {
        var i :| 0 <= i < |nicks| && nicks[i] == x;
        NicksDaSala(n, sala.nicks[i]);
      }
      EscreverLista(c, "RCV_WHOCHN OK ", nicks);
    }

    /** The loop of `CMD_VLOG`: one `RCV_CHATLOG` line per log line. */
    method EscreverLog(c: ConnId, log: seq<string>)
      modifies this`saida
      ensures saida == old(saida) + Para(c, LinhasDeLog(log))
      ensures Respondeu(Para(c, LinhasDeLog(log)))
    {
      ghost var linhas := LinhasDeLog(log);
      var i := 0;
      while i < |log|
        invariant 0 <= i <= |log|
        invariant Respondeu(Para(c, linhas[..i]))
      {
        ParaFinal(c, linhas, i);
        saida := saida + [Escrita(c, LinhaDeLog(log[i]))];
        i := i + 1;
      }
      assert linhas[..|log|] == linhas;
    }

    /** `CMD_VLOG`: the last `tail` lines of the user's room log. */
    method CmdVLog(c: ConnId, tail: nat)
      requires Valid() && c in usuarios
      modifies this`saida
      ensures saida == old(saida) + Para(c, LinhasDeLog(salas[usuarios[c].sala].VerLog(tail)))
      ensures Respondeu(Para(c, LinhasDeLog(salas[usuarios[c].sala].VerLog(tail))))
    {
      var log := salas[usuarios[c].sala].VerLog(tail);
      EscreverLog(c, log);
    }

    /** `CMD_WHOAMI`: the user's id, nick, name and room. */
    method CmdWhoAmI(c: ConnId)
      requires Valid() && c in usuarios
      modifies this`saida
      ensures var u := usuarios[c];
              saida == old(saida) + [Escrita(c, RespostaWhoAmI(c, u.nick, u.nome, u.sala))]
      ensures var u := usuarios[c];
              Respondeu([Escrita(c, RespostaWhoAmI(c, u.nick, u.nome, u.sala))])
    {
      var u := usuarios[c];
      UsuarioValido(c);
      saida := saida + [Escrita(c, RespostaWhoAmI(u.id, u.nick, u.nome, u.sala))];
    }

    /** Room `n`'s `RemoverMembro`, with `quadros` following the room. */
    method SairDaSala(n: string, c: ConnId)
      requires Ligado() && n in salas
      modifies this`quadros, (salas[n] as Sala)`membros, (salas[n] as Sala)`nicks
      ensures abertas == old(abertas) && connid == old(connid)
      ensures Ligado()
      ensures salas[n].membros == Sem(old(salas[n].membros), c) && salas[n].nicks == Sem(old(salas[n].nicks), c)
      ensures quadros == old(quadros)[n := Quadro(Sem(old(quadros[n].membros), c), Sem(old(quadros[n].nicks), c))]
    {
      salas[n].RemoverMembro(c, c);
      quadros := quadros[n := Quadro(salas[n].membros, salas[n].nicks)];
    }

    /** Room `n`'s `AdicionarMembro` for user `c`, sorted by the current
        nicks, with `quadros` following the room. */
    method EntrarNaSala(n: string, c: ConnId)
      requires Ligado() && n in salas
      modifies this`quadros, (salas[n] as Sala)`membros, (salas[n] as Sala)`nicks
      ensures abertas == old(abertas) && connid == old(connid)
      ensures Ligado()
      ensures salas[n].membros == old(salas[n].membros) + [c]
      ensures multiset(salas[n].nicks) == multiset(old(salas[n].nicks)) + multiset{c}
      ensures Ordenada(salas[n].nicks, NickDe(usuarios))
      ensures quadros == old(quadros)[n := Quadro(old(quadros[n].membros) + [c], salas[n].nicks)]
    {
      salas[n].AdicionarMembro(c, c, NickDe(usuarios));
      quadros := quadros[n := Quadro(salas[n].membros, salas[n].nicks)];
    }

    /** Replaces the user table, which the rooms do not depend on. */
    method DefinirUsuarios(u: map<ConnId, Usuario>)
      requires Ligado()
      modifies this`usuarios
      ensures abertas == old(abertas) && connid == old(connid)
      ensures Ligado() && usuarios == u
    {
      usuarios := u;
    }

    /** The table part of `CMD_NICK`: user `c` takes nick `novo`. */
    method Renomear(c: ConnId, novo: string)
      requires Valid() && c in usuarios && EhIdentificador(novo) && !NickEmUso(usuarios, novo)
      modifies this`usuarios
      ensures Valid()
      ensures usuarios == old(usuarios)[c := old(usuarios[c]).(nick := novo)]
    {
      ghost var nomes, q, a, k := salas.Keys, quadros, abertas, connid;
      EstadoAoTrocarNick(nomes, q, usuarios, a, k, c, novo);
      DefinirUsuarios(usuarios[c := usuarios[c].(nick := novo)]);
      Reunir(nomes, q, old(usuarios)[c := old(usuarios[c]).(nick := novo)], a, k);
    }

    /** The room part of `CMD_JOINCHN`: user `c` leaves its room's lists and
        becomes the only member of the empty room `para`. */
    method Mover(c: ConnId, para: string)
      requires Valid() && c in usuarios && para in salas && para != usuarios[c].sala
      requires salas[para].membros == [] && salas[para].nicks == []
      modifies this`usuarios, this`quadros, (salas[usuarios[c].sala] as Sala)`membros, (salas[usuarios[c].sala] as Sala)`nicks,
               (salas[para] as Sala)`membros, (salas[para] as Sala)`nicks
      ensures Valid()
      ensures var de := old(usuarios[c].sala);
              && usuarios == old(usuarios)[c := old(usuarios[c]).(sala := para)]
              && salas[de].membros == Sem(old(salas[de].membros), c) && salas[de].nicks == Sem(old(salas[de].nicks), c)
              && salas[para].membros == [c] && salas[para].nicks == [c]
    {
      var u := usuarios[c];
      ghost var nomes, q, a, k := salas.Keys, quadros, abertas, connid;
      SairDaSala(u.sala, c);
      EntrarNaSala(para, c);
      assert salas[para].nicks == [c] by {
        assert multiset(salas[para].nicks) == multiset{c};
        assert |salas[para].nicks| == 1;
        assert salas[para].nicks[0] in multiset(salas[para].nicks);
      }
      EstadoAoMudar(nomes, q, usuarios, a, k, c, para, [c]);
      DefinirUsuarios(usuarios[c := u.(sala := para)]);
      Reunir(nomes, q[u.sala := Quadro(Sem(q[u.sala].membros, c), Sem(q[u.sala].nicks, c))][para := Quadro(q[para].membros + [c], [c])],
             old(usuarios)[c := u.(sala := para)], a, k);
    }

    /** The table and room part of registering: user `novo` is filed and
        enters its room, whose nick list is sorted again. */
    method Inscrever(novo: Usuario)
      requires Valid() && novo.id in abertas && novo.id !in usuarios && novo.sala in salas
      requires EhIdentificador(novo.nick) && !NickEmUso(usuarios, novo.nick)
      modifies this`usuarios, this`quadros, (salas[novo.sala] as Sala)`membros, (salas[novo.sala] as Sala)`nicks
      ensures Valid()
      ensures usuarios == old(usuarios)[novo.id := novo]
      ensures var s := salas[novo.sala];
              && s.membros == old(s.membros) + [novo.id]
              && multiset(s.nicks) == multiset(old(s.nicks)) + multiset{novo.id}
              && Ordenada(s.nicks, NickDe(usuarios))
    {
      ghost var nomes, q, a, k := salas.Keys, quadros, abertas, connid;
      DefinirUsuarios(usuarios[novo.id := novo]);
      EntrarNaSala(novo.sala, novo.id);
      EstadoAoRegistrar(nomes, q, old(usuarios), a, k, novo, salas[novo.sala].nicks);
      Reunir(nomes, q[novo.sala := Quadro(q[novo.sala].membros + [novo.id], salas[novo.sala].nicks)], old(usuarios)[novo.id := novo], a, k);
    }

    /** The accepting branch of `CMD_NICK`: the room hears of the change
        under the old nick, the user takes the new one and is told so. */
    method TrocarNick(c: ConnId, novo: string, ts: string)
      requires Valid() && c in usuarios && EhIdentificador(novo) && !NickEmUso(usuarios, novo)
      modifies this`usuarios, this`saida, (salas[usuarios[c].sala] as Sala)`log
      ensures Valid()
      ensures var u := old(usuarios[c]);
              var aviso := LinhaDeAviso(ts, AvisoTrocouNick(u.nick, novo));
              && usuarios == old(usuarios)[c := u.(nick := novo)]
              && salas[u.sala].log == old(salas[u.sala].log) + [aviso]
              && saida == old(saida) + Difusao(salas[u.sala].membros, MensagemDeChat(aviso)) + [Escrita(c, RespostaNickOk)]
    {
      var u := usuarios[c];
      ChatNotice(c, AvisoTrocouNick(u.nick, novo), ts);
      Renomear(c, novo);
      Escrever([Escrita(c, RespostaNickOk)]);
    }

    /** `CMD_NICK`: a nick any user holds (the requester included) is
        refused; otherwise the user takes it. */
    method CmdNick(c: ConnId, novo: string, ts: string)
      requires Valid() && c in usuarios && EhIdentificador(novo)
      modifies this`usuarios, this`saida, (salas[usuarios[c].sala] as Sala)`log
      ensures Valid()
      ensures Preservou(c) && TrocouDeNick(old(usuarios[c]), novo, ts)
    {
      UsuarioValido(c);
      SalasDistintas(usuarios[c].sala);
      var dono := PegarUsuarioPorNick(novo);
      if dono.Some? {
        saida := saida + [Escrita(c, ErroNickEmUso)];
        Estavel();
      } else {
        TrocarNick(c, novo, ts);
      }
    }

    /** The `else` branch of `CMD_JOINCHN`, once the new room `sala` exists:
        the old room hears that the user left, the user moves to `sala` and
        is told so, and `sala` hears that the user entered. */
    method MudarDeSala(c: ConnId, sala: string, ts: string)
      requires Valid() && c in usuarios && sala in salas && sala != usuarios[c].sala
      requires salas[sala].membros == [] && salas[sala].nicks == [] && salas[sala].log == []
      modifies this`usuarios, this`quadros, this`saida, salas[usuarios[c].sala], salas[sala]
      ensures Valid()
      ensures var u := old(usuarios[c]);
              var saiu := LinhaDeAviso(ts, AvisoSaiu(u.nick));
              var entrou := LinhaDeAviso(ts, AvisoEntrou(u.nick, sala));
              && usuarios == old(usuarios)[c := u.(sala := sala)]
              && salas[u.sala].membros == Sem(old(salas[u.sala].membros), c)
              && salas[u.sala].nicks == Sem(old(salas[u.sala].nicks), c)
              && salas[u.sala].log == old(salas[u.sala].log) + [saiu]
              && salas[sala].membros == [c] && salas[sala].nicks == [c] && salas[sala].log == [entrou]
              && saida == old(saida) + Difusao(old(salas[u.sala].membros), MensagemDeChat(saiu))
                   + [Escrita(c, RespostaJoinOk(sala))] + [Escrita(c, MensagemDeChat(entrou))]
    {
      var u := usuarios[c];
      var antiga, nova := salas[u.sala], salas[sala];
      assert antiga.nome == u.sala && nova.nome == sala;
      ChatNotice(c, AvisoSaiu(u.nick), ts);
      Mover(c, sala);
      ResponderEAvisar(c, [Escrita(c, RespostaJoinOk(sala))], AvisoEntrou(u.nick, sala), ts);
      assert Difusao([c], MensagemDeChat(LinhaDeAviso(ts, AvisoEntrou(u.nick, sala))))
          == [Escrita(c, MensagemDeChat(LinhaDeAviso(ts, AvisoEntrou(u.nick, sala))))];
    }

    /** The body of `CMD_JOINCHN`: `NovaSala`, then the refusal or the move
        into the room just created. */
    method CriarSalaEEntrar(c: ConnId, sala: string, descricao: Option<string>, ts: string)
      requires Valid() && c in usuarios
      modifies this`salas, this`quadros, this`Repr, this`usuarios, this`saida, salas[usuarios[c].sala]
      ensures Valid() && connid == old(connid) && abertas == old(abertas)
      ensures var u := old(usuarios[c]); u.sala in old(salas) && u.sala in salas && salas[u.sala] == old(salas[u.sala])
      ensures Juntou(old(usuarios[c]), sala, descricao, ts)
    {
      UsuarioValido(c);
      SalasDistintas(usuarios[c].sala);
      ghost var nomes, q, u, a, k := salas.Keys, quadros, usuarios, abertas, connid;
      var criada := NovaSala(sala, descricao);
      if criada != Some(true) {
        // `unless NovaSala(...)`: both `nil` and `false` refuse.
        Reunir(nomes, q, u, a, k);
        Escrever([Escrita(c, ErroJoinDescricao)]);
      } else {
        EstadoAoCriar(nomes, q, u, a, k, sala);
        Reunir(nomes + {sala}, q[sala := Quadro([], [])], u, a, k);
        MudarDeSala(c, sala, ts);
      }
    }

    /** `CMD_JOINCHN`: only a room that does not exist yet, given with a
        description, can be joined; it is created and the user moves in.
        No other room is touched. */
    method CmdJoinChn(c: ConnId, sala: string, descricao: Option<string>, ts: string)
      requires Valid() && c in usuarios
      modifies this`salas, this`quadros, this`Repr, this`usuarios, this`saida, salas[usuarios[c].sala]
      ensures Valid() && abertas == old(abertas)
      ensures Preservou(c) && Juntou(old(usuarios[c]), sala, descricao, ts)
    {
      UsuarioValido(c);
      SalasDistintas(usuarios[c].sala);
      CriarSalaEEntrar(c, sala, descricao, ts);
    }

    /** The `@salas.each_value` loop of the cleanup: connection `c` leaves
        every room's member and nick lists. */
    method RemoverDasSalas(c: ConnId)
      requires Ligado()
      modifies this`quadros, Repr`membros, Repr`nicks
      ensures Ligado() && quadros == SemConexao(old(quadros), c)

      ensures forall n :: n in salas ==>
                salas[n].membros == Sem(old(salas[n].membros), c) && salas[n].nicks == Sem(old(salas[n].nicks), c)
    {
      var pendentes := salas.Keys;
      while pendentes != {}
        invariant pendentes <= salas.Keys
        invariant quadros == old(quadros)
        invariant forall n :: n in salas ==>
                    if n in pendentes then salas[n].membros == old(salas[n].membros) && salas[n].nicks == old(salas[n].nicks)
                    else salas[n].membros == Sem(old(salas[n].membros), c) && salas[n].nicks == Sem(old(salas[n].nicks), c)
        decreases pendentes
      {
        var n :| n in pendentes;
        salas[n].RemoverMembro(c, c);
        pendentes := pendentes - {n};
      }
      quadros := SemConexao(quadros, c);
    }

    /** The `@nicks.delete` of the cleanup: connection `c` leaves the user
        table and the open connections. */
    method Esquecer(c: ConnId)
      requires Ligado()
      modifies this`usuarios, this`abertas
      ensures Ligado()
      ensures usuarios == old(usuarios) - {c} && abertas == old(abertas) - {c}
      ensures connid == old(connid)
    {
      usuarios, abertas := usuarios - {c}, abertas - {c};
    }

    /** The cleanup when a connection ends (the `ensure` block): the
        connection leaves every room's member and nick lists, the user table
        and the open connections. */
    method Encerrar(c: ConnId)
      requires Valid() && c in abertas
      modifies this`usuarios, this`quadros, this`abertas, Repr`membros, Repr`nicks
      ensures Valid()
      ensures forall n :: n in salas ==>
                salas[n].membros == Sem(old(salas[n].membros), c) && salas[n].nicks == Sem(old(salas[n].nicks), c)
      ensures usuarios == old(usuarios) - {c} && abertas == old(abertas) - {c}
      ensures forall n :: n in salas && (c !in old(usuarios) || n != old(usuarios[c].sala)) ==>
                salas[n].membros == old(salas[n].membros) && salas[n].nicks == old(salas[n].nicks)
    {
      forall n | n in salas && (c !in usuarios || n != usuarios[c].sala)
        ensures c !in salas[n].membros && c !in salas[n].nicks
      {
        ForaDaSala(n, c);
      }
      ghost var nomes, q, u, a := salas.Keys, SemConexao(quadros, c), usuarios - {c}, abertas - {c};
      EstadoAoEncerrar(nomes, quadros, usuarios, abertas, connid, c);
      RemoverDasSalas(c);
      Esquecer(c);
      Reunir(nomes, q, u, a, connid);
    }

    /** `QUIT` from a registered user: the room hears that the user left,
        then the connection is closed and cleaned up. */
    method CmdQuit(c: ConnId, ts: string)
      requires Valid() && c in usuarios
      modifies this`usuarios, this`quadros, this`abertas, this`saida, Repr`membros, Repr`nicks,
               (salas[usuarios[c].sala] as Sala)`log
      ensures Valid()
      ensures Preservou(c) && Desligou(old(usuarios[c]), ts)
    {
      UsuarioValido(c);
      SalasDistintas(usuarios[c].sala);
      ChatNotice(c, AvisoSaiu(usuarios[c].nick), ts);
      Encerrar(c);
    }

    /** The successful branch of `ClienteConectar`: the user is registered,
        greeted (id, message of the day), put in the default room and
        announced there. */
    method Registrar(c: ConnId, nick: string, nome: string, motd: Option<string>, ts: string)
      requires Valid() && c in abertas && c !in usuarios && EhIdentificador(nick) && !NickEmUso(usuarios, nick)
      modifies this`usuarios, this`quadros, this`saida, salas["default"]
      ensures Valid()
      ensures usuarios == old(usuarios)[c := Usuario(c, nick, nome, "default")]
      ensures var padrao := salas["default"];
              var aviso := LinhaDeAviso(ts, AvisoEntrou(nick, "default"));
              && padrao.membros == old(padrao.membros) + [c]
              && multiset(padrao.nicks) == multiset(old(padrao.nicks)) + multiset{c}
              && Ordenada(padrao.nicks, NickDe(usuarios))
              && padrao.log == old(padrao.log) + [aviso]
              && saida == old(saida)
                   + [Escrita(c, RespostaConnOk(c)), Escrita(c, TextoMotd(motd)),
                      Escrita(c, RespostaMotdOk), Escrita(c, RespostaJoinOk("default"))]
                   + Difusao(padrao.membros, MensagemDeChat(aviso))
    {
      Inscrever(Usuario(c, nick, nome, "default"));
      ResponderEAvisar(c, [Escrita(c, RespostaConnOk(c)), Escrita(c, TextoMotd(motd)),
                           Escrita(c, RespostaMotdOk), Escrita(c, RespostaJoinOk("default"))],
                       AvisoEntrou(nick, "default"), ts);
    }

    /** `CONN` with a well-formed nick: refused when the nick is taken,
        otherwise the user is registered. */
    method Apresentar(c: ConnId, nick: string, nome: string, motd: Option<string>, ts: string)
      requires Valid() && c in abertas && c !in usuarios && EhIdentificador(nick)
      modifies this`usuarios, this`quadros, this`saida, salas["default"]
      ensures Valid()
      ensures Conectou(c, Conn(nick, nome), motd, ts)
    {
      SalasDistintas("default");
      var dono := PegarUsuarioPorNick(nick);
      if dono.Some? {
        Escrever([Escrita(c, ErroConnNickEmUso)]);
      } else {
        Registrar(c, nick, nome, motd, ts);
      }
    }

    /** `QUIT` before the handshake: the connection is closed; no room and no
        user changes, nothing is written. */
    method Desistir(c: ConnId)
      requires Valid() && c in abertas && c !in usuarios
      modifies this`usuarios, this`quadros, this`abertas, Repr`membros, Repr`nicks
      ensures Valid() && connid == old(connid) && saida == old(saida)
      ensures usuarios == old(usuarios) && abertas == old(abertas) - {c} && salas == old(salas)
      ensures forall n :: n in old(salas) ==> SalaIntacta(n)
    {
      Encerrar(c);
    }

    /** `ClienteConectar`: one line before the handshake succeeded. The
        connection is registered exactly on a valid `CONN` with a free nick,
        and closed exactly on `QUIT`. */
    method ClienteConectar(c: ConnId, linha: string, motd: Option<string>, ts: string)
      requires Valid() && c in abertas && c !in usuarios
      modifies this`usuarios, this`quadros, this`abertas, this`saida, Repr
      ensures Valid()
      ensures var h := ClassificarConexao(linha);
              c in usuarios <==> h.Conn? && !NickEmUso(old(usuarios), h.nick)
      ensures c in usuarios ==>
                usuarios == old(usuarios)[c := Usuario(c, ClassificarConexao(linha).nick, ClassificarConexao(linha).nome, "default")]
      ensures c !in usuarios ==> usuarios == old(usuarios)
      ensures c in abertas <==> !ClassificarConexao(linha).QuitConexao?
      ensures Conectou(c, ClassificarConexao(linha), motd, ts)
    {
      match ClassificarConexao(linha)
      case Conn(nick, nome) =>
        Apresentar(c, nick, nome, motd, ts);
      case QuitConexao =>
        Desistir(c);
      case SintaxeIncorreta =>
        Escrever([Escrita(c, ErroConnSintaxe)]);
    }

    /** The queries of `ClienteComandos`: each answers on the connection
        and changes nothing else. */
    method Consultar(c: ConnId, k: Comando, ts: string)
      requires Valid() && c in usuarios
      requires k.ListChn? || k.InfoChn? || k.WhoChn? || k.VLog? || k.WhoAmI?
      modifies this`saida
      ensures Atendeu(c, k, ts)
    {
      match k {
        case ListChn => AtenderListChn(c, ts);
        case InfoChn => AtenderInfoChn(c, ts);
        case WhoChn => AtenderWhoChn(c, ts);
        case VLog(tail) => AtenderVLog(c, tail, ts);
        case WhoAmI => AtenderWhoAmI(c, ts);
      }
    }

    /** The `CMD_LISTCHN` branch of `ClienteComandos`. */
    method AtenderListChn(c: ConnId, ts: string)
      requires Valid() && c in usuarios
      modifies this`saida
      ensures Atendeu(c, ListChn, ts)
    {
      UsuarioValido(c);
      var _ := CmdListChn(c);
    }

    /** The `CMD_INFOCHN` branch of `ClienteComandos`. */
    method AtenderInfoChn(c: ConnId, ts: string)
      requires Valid() && c in usuarios
      modifies this`saida
      ensures Atendeu(c, InfoChn, ts)
    {
      UsuarioValido(c);
      CmdInfoChn(c);
    }

    /** The `CMD_WHOCHN` branch of `ClienteComandos`. */
    method AtenderWhoChn(c: ConnId, ts: string)
      requires Valid() && c in usuarios
      modifies this`saida
      ensures Atendeu(c, WhoChn, ts)
    {
      UsuarioValido(c);
      var _ := CmdWhoChn(c);
    }

    /** The `CMD_VLOG` branch of `ClienteComandos`. */
    method AtenderVLog(c: ConnId, tail: nat, ts: string)
      requires Valid() && c in usuarios
      modifies this`saida
      ensures Atendeu(c, VLog(tail), ts)
    {
      UsuarioValido(c);
      CmdVLog(c, tail);
    }

    /** The `CMD_WHOAMI` branch of `ClienteComandos`. */
    method AtenderWhoAmI(c: ConnId, ts: string)
      requires Valid() && c in usuarios
      modifies this`saida
      ensures Atendeu(c, WhoAmI, ts)
    {
      UsuarioValido(c);
      CmdWhoAmI(c);
    }

    /** The other commands of `ClienteComandos` that neither create rooms
        nor change users: the refusals, `CMD_PVT` and chat lines. Only a chat
        line changes a room, and only its log. */
    method Responder(c: ConnId, k: Comando, ts: string)
      requires Valid() && c in usuarios
      requires k.JoinNomeInvalido? || k.Pvt? || k.PvtSemArgumentos? || k.NickSemArgumento?
               || k.Chat? || k.ChatVazio? || k.Invalido?
      modifies this`saida, (salas[usuarios[c].sala] as Sala)`log
      ensures Atendeu(c, k, ts)
    {
      UsuarioValido(c);
      match k {
        case JoinNomeInvalido =>
          Escrever([Escrita(c, ErroJoinNome)]);
        case Pvt(destino, msg) =>
          CmdPvt(c, destino, msg, ts);
        case PvtSemArgumentos =>
        case NickSemArgumento =>
        case Chat(texto) =>
          CmdChat(c, texto, ts);
        case ChatVazio =>
          Escrever([Escrita(c, ErroChatVazio)]);
        case Invalido =>
          Escrever([Escrita(c, ErroComando)]);
      }
    }

    /** `ClienteComandos`: one line from a registered user. Only `QUIT`
        ends the connection; lines whose arguments do not match are answered
        with an error or, for `CMD_PVT` and `CMD_NICK`, ignored. */
    method ClienteComandos(c: ConnId, linha: string, ts: string)
      requires Valid() && c in usuarios
      modifies this`salas, this`quadros, this`Repr, this`usuarios, this`abertas, this`saida, Repr
      ensures Valid()
      ensures c in abertas <==> !Classificar(linha).Quit?
      ensures c in usuarios <==> !Classificar(linha).Quit?
      ensures Atendeu(c, Classificar(linha), ts)
    {
      UsuarioValido(c);
      SalasDistintas(usuarios[c].sala);
      var k := Classificar(linha);
      if k.JoinChn? {
        CmdJoinChn(c, k.sala, k.descricao, ts);
      } else if k.Nick? {
        CmdNick(c, k.novo, ts);
      } else if k.Quit? {
        CmdQuit(c, ts);
      } else if k.ListChn? || k.InfoChn? || k.WhoChn? || k.VLog? || k.WhoAmI? {
        Consultar(c, k, ts);
        Estavel();
      } else {
        Responder(c, k, ts);
        Estavel();
      }
    }

    /** One line read from connection `c`: handshake lines until the user
        is registered, commands after. A registered user stays registered
        until `QUIT`. */
    method Receber(c: ConnId, linha: string, motd: Option<string>, ts: string)
      requires Valid() && c in abertas
      modifies this`salas, this`quadros, this`Repr, this`usuarios, this`abertas, this`saida, Repr
      ensures Valid()
      ensures old(c in usuarios) ==> (c in usuarios <==> !Classificar(linha).Quit?)
      ensures !old(c in usuarios) ==>
                (c in usuarios <==> ClassificarConexao(linha).Conn? && !NickEmUso(old(usuarios), ClassificarConexao(linha).nick))
      ensures old(c in usuarios) ==> Atendeu(c, Classificar(linha), ts)
      ensures !old(c in usuarios) ==> Conectou(c, ClassificarConexao(linha), motd, ts)
    {
      if c in usuarios {
        ClienteComandos(c, linha, ts);
      } else {
        ClienteConectar(c, linha, motd, ts);
      }
    }
  }
}
