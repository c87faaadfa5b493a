/** The ChatRadical wire protocol as the server speaks it: how one line from a
    client is classified (the regular-expression chains of
    `ClienteConectar` and `ClienteComandos`), and the reply lines the server
    writes. Keywords match without regard to case wherever the server's
    expression carries `/i`, and with regard to case where it does not. */
module Protocolo {
  import opened Texto

  // ----- handshake -----

  /** `[a-zA-Z_-]{1,32}` matched in full: a display name. */
  predicate EhNomeExibicao(s: string) {
    1 <= |s| <= 32 && Todos(s, EhCharNome)
  }

  /** The three outcomes of a line read before the handshake succeeded. */
  datatype Conexao = Conn(nick: string, nome: string) | QuitConexao | SintaxeIncorreta

  /** The arguments of `CONN`: a nick, one space, a display name, and
      nothing after it. */
  function ArgsConn(resto: string): (r: Option<(string, string)>)
    ensures r.Some? ==> EhIdentificador(r.value.0) && EhNomeExibicao(r.value.1)
    ensures r.Some? ==> resto == r.value.0 + " " + r.value.1
  {
    var k := Corrida(resto, EhAlnum, 24);
    if 1 <= k < |resto| && resto[k] == ' ' && EhNomeExibicao(resto[k + 1..]) then
      assert resto == resto[..k] + " " + resto[k + 1..];
      Some((resto[..k], resto[k + 1..]))
    else None
  }

  /** `ClienteConectar`'s tests, first match wins: `CONN <nick> <nome>`
      (the whole line), then `QUIT`, else a syntax error. */
  function ClassificarConexao(linha: string): (r: Conexao)
    ensures r.Conn? ==> EhIdentificador(r.nick) && EhNomeExibicao(r.nome)
    ensures r.Conn? ==> PrefixoCI("CONN ", linha) && linha[5..] == r.nick + " " + r.nome
    ensures r.QuitConexao? ==> Palavra("QUIT", linha)
  {
    if PrefixoCI("CONN ", linha) && ArgsConn(linha[5..]).Some? then
      Conn(ArgsConn(linha[5..]).value.0, ArgsConn(linha[5..]).value.1)
    else if Palavra("QUIT", linha) then QuitConexao
    else SintaxeIncorreta
  }

  /** `CONN nick nome` is accepted as a registration for exactly the valid
      nicks and display names. */
  lemma ConexaoValida(nick: string, nome: string)
    ensures ClassificarConexao("CONN " + nick + " " + nome) == Conn(nick, nome)
            <==> EhIdentificador(nick) && EhNomeExibicao(nome)
  {
    var linha := "CONN " + nick + " " + nome;
    var resto := linha[5..];
    assert resto == nick + " " + nome;
    if EhIdentificador(nick) && EhNomeExibicao(nome) {
      assert PrefixoCI("CONN ", linha) by {
        assert linha[..5] == "CONN ";
      }
      CorridaExata(resto, EhAlnum, 24, |nick|);
      assert resto[..|nick|] == nick && resto[|nick| + 1..] == nome;
    }
  }

  // ----- commands of a connected user -----

  /** `[a-zA-Z0-9]{1,24}( (.+))?` at the front of `resto`: a room name and,
      when a space and at least one more character follow it, a description
      running to the end of the line. */
  function SalaEDescricao(resto: string): (r: Option<(string, Option<string>)>)
    ensures r.None? <==> resto == [] || !EhAlnum(resto[0])
    ensures r.Some? ==> EhIdentificador(r.value.0) && r.value.0 <= resto
    ensures r.Some? && r.value.1.Some? ==>
              r.value.1.value != "" && resto == r.value.0 + " " + r.value.1.value
  {
    var k := Corrida(resto, EhAlnum, 24);
    if k == 0 then None
    else if k + 1 < |resto| && resto[k] == ' ' then
      assert resto == resto[..k] + " " + resto[k + 1..];
      Some((resto[..k], Some(resto[k + 1..])))
    else Some((resto[..k], None))
  }

  /** `[a-zA-Z0-9]{1,24} (.+)` at the front of `resto`: a nick, one space and
      a non-empty rest of the line. */
  function NickEResto(resto: string): (r: Option<(string, string)>)
    ensures r.Some? ==> EhIdentificador(r.value.0) && r.value.1 != ""
    ensures r.Some? ==> resto == r.value.0 + " " + r.value.1
  {
    var k := Corrida(resto, EhAlnum, 24);
    if 1 <= k && k + 1 < |resto| && resto[k] == ' ' then
      assert resto == resto[..k] + " " + resto[k + 1..];
      Some((resto[..k], resto[k + 1..]))
    else None
  }

  /** `[0-9]{1,2}` at the front of `resto`. */
  function DoisDigitos(resto: string): (r: Option<string>)
    ensures r.Some? ==> 1 <= |r.value| <= 2 && Todos(r.value, EhDigito) && r.value <= resto
    ensures r.None? <==> resto == [] || !EhDigito(resto[0])
  {
    var k := Corrida(resto, EhDigito, 2);
    if k == 0 then None else Some(resto[..k])
  }

  /** The log tail `CMD_VLOG` shows when it names none. */
  const TailPadrao: nat := 30

  /** A line from a connected user, as `ClienteComandos` tells it apart. The
      `...Sem...` and `...Invalido` variants are lines that passed a keyword
      test but not the argument pattern behind it. */
  datatype Comando =
    | ListChn
    | JoinChn(sala: string, descricao: Option<string>)
    | JoinNomeInvalido
    | InfoChn
    | WhoChn
    | VLog(tail: nat)
    | Pvt(destino: string, msg: string)
    | PvtSemArgumentos
    | WhoAmI
    | Nick(novo: string)
    | NickSemArgumento
    | Chat(texto: string)
    | ChatVazio
    | Quit
    | Invalido

  /** The tail `CMD_VLOG` asks for: its digits when the line starts with
      `CMD_VLOG ` in capitals followed by a digit (the inner expression has
      no `/i`), and 30 otherwise. */
  function ArgVLog(linha: string): (t: nat)
    ensures t < 100
  {
    if "CMD_VLOG " <= linha && DoisDigitos(linha[9..]).Some? then
      var d := DoisDigitos(linha[9..]).value;
      assert Potencia10(|d|) <= 100;
      TextoParaNat(d)
    else TailPadrao
  }

  /** `CMD_VLOG ` in capitals, then one or two digits, asks for their value;
      the greedy `{1,2}` reads a second digit when there is one, and never a
      third. */
  lemma VLogComDigitos(d: string, resto: string)
    requires 1 <= |d| <= 2 && Todos(d, EhDigito)
    requires |d| == 2 || resto == [] || !EhDigito(resto[0])
    ensures ArgVLog("CMD_VLOG " + (d + resto)) == TextoParaNat(d)
  {
    var linha := "CMD_VLOG " + (d + resto);
    assert linha[..9] == "CMD_VLOG " && linha[9..] == d + resto;
    CorridaExata(d + resto, EhDigito, 2, |d|);
    assert (d + resto)[..|d|] == d;
  }

  /** Every other line asks for the default 30: one whose `CMD_VLOG ` is not
      in capitals (the outer test has `/i`, the inner one does not), or one
      without a digit right after the keyword. */
  lemma VLogPadrao(linha: string)
    requires "CMD_VLOG " <= linha ==> |linha| == 9 || !EhDigito(linha[9])
    ensures ArgVLog(linha) == TailPadrao
  {
  }

  /** `ClienteComandos`'s chain of tests, first match wins. */
  function Classificar(linha: string): (c: Comando)
    ensures c.JoinChn? ==> EhIdentificador(c.sala)
    ensures c.JoinChn? && c.descricao.Some? ==> c.descricao.value != ""
    ensures c.VLog? ==> c.tail < 100
    ensures c.Pvt? ==> EhIdentificador(c.destino) && c.msg != ""
    ensures c.Nick? ==> EhIdentificador(c.novo)
    ensures c.Chat? ==> c.texto != ""
  {
    if Palavra("CMD_LISTCHN", linha) then ListChn
    else if PrefixoCI("CMD_JOINCHN ", linha) then
      match SalaEDescricao(linha[12..])
      case Some((sala, descricao)) => JoinChn(sala, descricao)
      case None => JoinNomeInvalido
    else if Palavra("CMD_INFOCHN", linha) then InfoChn
    else if Palavra("CMD_WHOCHN", linha) then WhoChn
    else if PrefixoCI("CMD_VLOG ", linha) then VLog(ArgVLog(linha))
    else if "CMD_PVT " <= linha then
      match NickEResto(linha[8..])
      case Some((destino, msg)) => Pvt(destino, msg)
      case None => PvtSemArgumentos
    else if Palavra("CMD_WHOAMI", linha) then WhoAmI
    else if PrefixoCI("CMD_NICK ", linha) then
      var k := Corrida(linha[9..], EhAlnum, 24);
      if k == 0 then NickSemArgumento else Nick(linha[9..][..k])
    else if PrefixoCI("CMD_CHAT ", linha) then
      if |linha| > 9 then Chat(linha[9..]) else ChatVazio
    else if Palavra("QUIT", linha) then Quit
    else Invalido
  }

  // ----- what the server writes -----

  const RespostaMotdOk := "RCV_MOTD OK"
  // Each error reply is written as its keyword with `ERR`, then its message.
  const ErroConnNickEmUso := "RCV_CONN ERR " + "Nick já em uso! Tente outro"
  const ErroConnSintaxe := "RCV_CONN ERR " + "Sintaxe incorreta"
  const ErroJoinDescricao := "RCV_JOINCHN ERR " + "Necessário uma descrição para criar uma sala."
  const ErroJoinNome := "RCV_JOINCHN ERR " + "Nome de sala invalido"
  const RespostaPvtOk := "RCV_PVT OK"
  const ErroPvtNick := "RCV_PVT ERR " + "Nick não existe!"
  const ErroNickEmUso := "RCV_NICK ERR " + "Nick já em uso"
  const RespostaNickOk := "RCV_NICK OK"
  const RespostaChatOk := "RCV_CHAT OK"
  const ErroChatVazio := "ERR_CMD Mensagem de chat inválida"
  const ErroComando := "ERR_CMD Comando Invalido"
  /** The greeting written when the message-of-the-day file cannot be read. */
  const MotdPadrao := "Bem vindo ao ChatRadical!"

  function RespostaConnOk(connid: nat): string { "RCV_CONN OK " + NatParaTexto(connid) }
  function RespostaJoinOk(sala: string): string { "RCV_JOINCHN OK " + sala }
  function RespostaListChn(entradas: seq<string>): string { "RCV_LISTCHN OK " + JuntarBarra(entradas) }
  function RespostaInfoChn(nome: string, descricao: string): string { "RCV_INFOCHN OK " + nome + " " + descricao }
  function RespostaWhoChn(nicks: seq<string>): string { "RCV_WHOCHN OK " + JuntarBarra(nicks) }
  function RespostaWhoAmI(id: nat, nick: string, nome: string, sala: string): string {
    "RCV_WHOAMI OK " + NatParaTexto(id) + " " + nick + " " + nome + " " + sala
  }
  /** A room line (chat, notice or private message) pushed to a socket. */
  function MensagemDeChat(linha: string): string { "RCV_CHATMSG " + linha }
  function LinhaDeLog(linha: string): string { "RCV_CHATLOG [LOG] " + linha }

  /** The replies to `CMD_VLOG`: one `RCV_CHATLOG` line per log line, in
      order. */
  function LinhasDeLog(log: seq<string>): (r: seq<string>)
    ensures |r| == |log|
    ensures forall i :: 0 <= i < |log| ==> r[i] == LinhaDeLog(log[i])
  {
    if log == [] then [] else LinhasDeLog(log[..|log| - 1]) + [LinhaDeLog(log[|log| - 1])]
  }

  // Room-log lines; `ts` is the `[HH:MM:SS] ` prefix of the moment of the event.
  function LinhaDeAviso(ts: string, msg: string): string { ts + "*** " + msg }
  function LinhaDeChat(ts: string, nick: string, texto: string): string { ts + "<" + nick + "> " + texto }
  function LinhaPrivada(ts: string, nick: string, msg: string): string { ts + "PVT <" + nick + "> " + msg }
  function AvisoEntrou(nick: string, sala: string): string { nick + " entrou na sala '" + sala + "'" }
  function AvisoSaiu(nick: string): string { nick + " saiu da sala" }
  function AvisoTrocouNick(velho: string, novo: string): string { velho + " trocou de nick para '" + novo + "'" }
}
