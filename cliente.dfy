/** The ChatRadical client's line translators: what a line typed by the user
    sends to the server (`UserCMD` and its send helpers), how a line from the
    server is told apart (`RecebimentoDoServer`), how the handshake reply is
    read (`Conectar`), and the `|` lists of rooms and users. Socket writes
    and console output are returned as values. */
module Cliente {
  import opened Texto
  import opened Protocolo

  // ----- the send helpers -----

  const PedidoListChn := "CMD_LISTCHN"
  const PedidoWhoChn := "CMD_WHOCHN"
  const PedidoInfoChn := "CMD_INFOCHN"
  const PedidoQuit := "QUIT"

  /** `EntrarSala`: a missing description interpolates as nothing, so the
      line ends in a space. */
  function EntrarSala(nome: string, descricao: Option<string>): string {
    "CMD_JOINCHN " + nome + " " + (if descricao.Some? then descricao.value else "")
  }

  /** `VerLog`: a missing tail interpolates as nothing. */
  function VerLog(tail: Option<string>): string {
    "CMD_VLOG " + (if tail.Some? then tail.value else "")
  }

  function MudarNick(nick: string): string { "CMD_NICK " + nick }

  function EnviarPVT(nick: string, msg: string): string { "CMD_PVT " + nick + " " + msg }

  /** The catch-all of `UserCMD`: anything else is chat. */
  function FalarNaSala(linha: string): string { "CMD_CHAT " + linha }

  // ----- what the user typed -----

  /** The branch of `UserCMD` a line takes. */
  datatype Acao =
    | PedirSalas
    | PedirMembros
    | PedirEntrada(sala: string, descricao: Option<string>)
    | PedirInfo
    | PedirNick(nick: string)
    | PedirPvt(destino: string, msg: string)
    | PedirLog(tail: Option<string>)
    | PedirSaida
    | PedirAjuda
    | ComandoInvalido
    | Falar(texto: string)

  /** `/^\/join ([a-zA-Z0-9]{1,24})( (.+))?/i`: the room name and, when a
      space and some text follow it, the description. */
  function ArgsJoin(linha: string): (r: Option<(string, Option<string>)>)
    ensures r.Some? ==> PrefixoCI("/join ", linha) && EhIdentificador(r.value.0) && r.value.0 <= linha[6..]
    ensures r.Some? && r.value.1.Some? ==>
              r.value.1.value != "" && linha[6..] == r.value.0 + " " + r.value.1.value
  {
    if PrefixoCI("/join ", linha) then SalaEDescricao(linha[6..]) else None
  }

  /** `/^\/nick ([a-zA-Z0-9]{1,24})$/`, with regard to case. */
  function ArgNick(linha: string): (r: Option<string>)
    ensures r.Some? ==> EhIdentificador(r.value) && linha == "/nick " + r.value
  {
    if "/nick " <= linha && EhIdentificador(linha[6..]) then
      assert linha == linha[..6] + linha[6..];
      Some(linha[6..])
    else None
  }

  /** `/^\/msg ([a-zA-Z0-9]{1,24}) (.+)/`, with regard to case. */
  function ArgsMsg(linha: string): (r: Option<(string, string)>)
    ensures r.Some? ==> EhIdentificador(r.value.0) && r.value.1 != ""
    ensures r.Some? ==> linha == "/msg " + r.value.0 + " " + r.value.1
  {
    if "/msg " <= linha then
      assert linha == linha[..5] + linha[5..];
      NickEResto(linha[5..])
    else None
  }

  /** `/^\/log( ([0-9]{1,2})|$)/i`: the digits, `None` for a bare `/log`,
      and no match otherwise. */
  function ArgLog(linha: string): (r: Option<Option<string>>)
    ensures r == Some(None) <==> PrefixoCI("/log", linha) && |linha| == 4
    ensures r.Some? && r.value.Some? ==>
              && PrefixoCI("/log", linha) && |linha| > 5 && linha[4] == ' '
              && 1 <= |r.value.value| <= 2 && Todos(r.value.value, EhDigito) && r.value.value <= linha[5..]
  {
    if !PrefixoCI("/log", linha) then None
    else if |linha| == 4 then Some(None)
    else if linha[4] == ' ' && DoisDigitos(linha[5..]).Some? then Some(Some(DoisDigitos(linha[5..]).value))
    else None
  }

  /** `UserCMD`'s chain of tests, first match wins. `/nick` and `/msg` are
      matched with regard to case, every other keyword without. The line is
      the one typed, without its line break. */
  function InterpretarComando(linha: string): (a: Acao)
    ensures a.Falar? <==> linha == [] || linha[0] != '/'
    ensures a.Falar? ==> a.texto == linha
    ensures a.PedirEntrada? ==> ArgsJoin(linha) == Some((a.sala, a.descricao))
    ensures a.PedirNick? ==> ArgNick(linha) == Some(a.nick)
    ensures a.PedirPvt? ==> ArgsMsg(linha) == Some((a.destino, a.msg))
    ensures a.PedirLog? ==> ArgLog(linha) == Some(a.tail)
  {
    if Palavra("/list", linha) then PedirSalas
    else if Palavra("/who", linha) then PedirMembros
    else if ArgsJoin(linha).Some? then PedirEntrada(ArgsJoin(linha).value.0, ArgsJoin(linha).value.1)
    else if Palavra("/info", linha) then PedirInfo
    else if ArgNick(linha).Some? then PedirNick(ArgNick(linha).value)
    else if ArgsMsg(linha).Some? then PedirPvt(ArgsMsg(linha).value.0, ArgsMsg(linha).value.1)
    else if ArgLog(linha).Some? then PedirLog(ArgLog(linha).value)
    else if Palavra("/quit", linha) then PedirSaida
    else if Palavra("/help", linha) then PedirAjuda
    else if linha != [] && linha[0] == '/' then ComandoInvalido
    else Falar(linha)
  }

  /** What `UserCMD` shows on the console besides its own logging. */
  datatype Tela = NadaNaTela | TelaDeAjuda | TelaDeErro(msg: string)

  /** The effect of one typed line: the lines written to the server, what
      the console shows, and the value returned. */
  datatype Efeito = Efeito(enviadas: seq<string>, tela: Tela, retorno: int)

  const MsgComandoInvalido := "Comando inválido!"

  /** `UserCMD`. `/quit` sends `QUIT` and, lacking a `return`, goes on to the
      catch-all for lines starting with `/`. */
  function UserCMD(linha: string): (e: Efeito)
    ensures e.retorno == 1 <==> InterpretarComando(linha).ComandoInvalido? || InterpretarComando(linha).PedirSaida?
    ensures e.retorno == 0 <==> !(InterpretarComando(linha).ComandoInvalido? || InterpretarComando(linha).PedirSaida?)
    ensures e.enviadas == [] <==> InterpretarComando(linha).ComandoInvalido? || InterpretarComando(linha).PedirAjuda?
    ensures |e.enviadas| <= 1
    ensures e.tela == TelaDeErro(MsgComandoInvalido) <==> e.retorno == 1
  {
    match InterpretarComando(linha)
    case PedirSalas => Efeito([PedidoListChn], NadaNaTela, 0)
    case PedirMembros => Efeito([PedidoWhoChn], NadaNaTela, 0)
    case PedirEntrada(sala, descricao) => Efeito([EntrarSala(sala, descricao)], NadaNaTela, 0)
    case PedirInfo => Efeito([PedidoInfoChn], NadaNaTela, 0)
    case PedirNick(nick) => Efeito([MudarNick(nick)], NadaNaTela, 0)
    case PedirPvt(destino, msg) => Efeito([EnviarPVT(destino, msg)], NadaNaTela, 0)
    case PedirLog(tail) => Efeito([VerLog(tail)], NadaNaTela, 0)
    case PedirSaida => Efeito([PedidoQuit], TelaDeErro(MsgComandoInvalido), 1)
    case PedirAjuda => Efeito([], TelaDeAjuda, 0)
    case ComandoInvalido => Efeito([], TelaDeErro(MsgComandoInvalido), 1)
    case Falar(texto) => Efeito([FalarNaSala(texto)], NadaNaTela, 0)
  }

  // ----- how the server reads what the client sends -----

  /** The command the server's dispatcher should see for each action that
      sends a line: a bare `/log` asks for the server's default tail. */
  function Esperado(a: Acao): Comando {
    match a
    case PedirSalas => ListChn
    case PedirMembros => WhoChn
    case PedirEntrada(sala, descricao) => JoinChn(sala, descricao)
    case PedirInfo => InfoChn
    case PedirNick(nick) => Nick(nick)
    case PedirPvt(destino, msg) => Pvt(destino, msg)
    case PedirLog(tail) =>
      if tail.None? then VLog(TailPadrao)
      else if Todos(tail.value, EhDigito) then VLog(TextoParaNat(tail.value))
      else Invalido
    case PedirSaida => Quit
    case PedirAjuda => Invalido
    case ComandoInvalido => Invalido
    case Falar(texto) => if texto == "" then ChatVazio else Chat(texto)
  }

  /** One character, compared without regard to case, is enough to tell a
      line apart from a keyword. */
  lemma Difere(p: string, s: string, i: nat)
    requires i < |p| && i < |s| && Minuscula(p[i]) != Minuscula(s[i])
    ensures !PrefixoCI(p, s) && !Palavra(p, s) && !(p <= s)
  {
  }

  /** Each keyword of the server's chain that comes before `CMD_CHAT`,
      `CMD_NICK` and `QUIT` differs from a line starting `CMD_C`, `CMD_N`
      or `QUIT` in its fifth character or is longer. */
  lemma AntesDoChat(l: string)
    requires |l| > 4 && "CMD_" <= l && Minuscula(l[4]) in {'c', 'n'}
    ensures !Palavra("CMD_LISTCHN", l) && !PrefixoCI("CMD_JOINCHN ", l) && !Palavra("CMD_INFOCHN", l)
    ensures !Palavra("CMD_WHOCHN", l) && !PrefixoCI("CMD_VLOG ", l) && !("CMD_PVT " <= l) && !Palavra("CMD_WHOAMI", l)
  {
    Difere("CMD_LISTCHN", l, 4);
    Difere("CMD_JOINCHN ", l, 4);
    Difere("CMD_INFOCHN", l, 4);
    Difere("CMD_WHOCHN", l, 4);
    Difere("CMD_VLOG ", l, 4);
    Difere("CMD_PVT ", l, 4);
    Difere("CMD_WHOAMI", l, 4);
  }

  /** A line of chat reaches the server's dispatcher as that chat; an empty
      line is the server's empty-chat error. */
  lemma ServidorLeChat(texto: string)
    ensures Classificar(FalarNaSala(texto)) == if texto == "" then ChatVazio else Chat(texto)
  {
    var l := FalarNaSala(texto);
    assert l[..9] == "CMD_CHAT " && l[9..] == texto;
    AntesDoChat(l);
    Difere("CMD_NICK ", l, 4);
  }

  /** The server's parse of `/join`'s arguments gives them back. */
  lemma SalaEDescricaoDeEntrada(sala: string, descricao: Option<string>)
    requires EhIdentificador(sala)
    requires descricao.Some? ==> descricao.value != ""
    ensures SalaEDescricao(sala + " " + (if descricao.Some? then descricao.value else "")) == Some((sala, descricao))
  {
    var resto := sala + " " + (if descricao.Some? then descricao.value else "");
    CorridaExata(resto, EhAlnum, 24, |sala|);
    assert resto[..|sala|] == sala;
    if descricao.Some? {
      assert resto[|sala| + 1..] == descricao.value;
    }
  }

  /** `/join`'s line: with no description the trailing space is no
      description to the server either. */
  lemma ServidorLeEntrada(sala: string, descricao: Option<string>)
    requires EhIdentificador(sala)
    requires descricao.Some? ==> descricao.value != ""
    ensures Classificar(EntrarSala(sala, descricao)) == JoinChn(sala, descricao)
  {
    var l := EntrarSala(sala, descricao);
    assert l[..12] == "CMD_JOINCHN " && l[12..] == sala + " " + (if descricao.Some? then descricao.value else "");
    Difere("CMD_LISTCHN", l, 4);
    SalaEDescricaoDeEntrada(sala, descricao);
  }

  lemma ServidorLeNick(nick: string)
    requires EhIdentificador(nick)
    ensures Classificar(MudarNick(nick)) == Nick(nick)
  {
    var l := MudarNick(nick);
    assert l[..9] == "CMD_NICK " && l[9..] == nick;
    AntesDoChat(l);
    CorridaExata(nick, EhAlnum, 24, |nick|);
    assert nick[..|nick|] == nick;
  }

  /** The nick-and-rest parse gives back a nick, a space and some text. */
  lemma NickERestoDe(destino: string, msg: string)
    requires EhIdentificador(destino) && msg != ""
    ensures NickEResto(destino + " " + msg) == Some((destino, msg))
  {
    var resto := destino + " " + msg;
    CorridaExata(resto, EhAlnum, 24, |destino|);
    assert resto[..|destino|] == destino && resto[|destino| + 1..] == msg;
  }

  lemma ServidorLePvt(destino: string, msg: string)
    requires EhIdentificador(destino) && msg != ""
    ensures Classificar(EnviarPVT(destino, msg)) == Pvt(destino, msg)
  {
    var l := EnviarPVT(destino, msg);
    assert l[..8] == "CMD_PVT " && l[8..] == destino + " " + msg;
    Difere("CMD_LISTCHN", l, 4);
    Difere("CMD_JOINCHN ", l, 4);
    Difere("CMD_INFOCHN", l, 4);
    Difere("CMD_WHOCHN", l, 4);
    Difere("CMD_VLOG ", l, 4);
    NickERestoDe(destino, msg);
  }

  /** `/log n` asks for `n` lines, and a bare `/log` for the server's
      default tail. */
  lemma ServidorLeLog(tail: Option<string>)
    requires tail.Some? ==> 1 <= |tail.value| <= 2 && Todos(tail.value, EhDigito)
    ensures Classificar(VerLog(tail)) == VLog(if tail.None? then TailPadrao else TextoParaNat(tail.value))
  {
    var l := VerLog(tail);
    assert l[..9] == "CMD_VLOG " && l[9..] == (if tail.Some? then tail.value else "");
    Difere("CMD_LISTCHN", l, 4);
    Difere("CMD_JOINCHN ", l, 4);
    Difere("CMD_INFOCHN", l, 4);
    Difere("CMD_WHOCHN", l, 4);
    if tail.Some? {
      CorridaExata(l[9..], EhDigito, 2, |tail.value|);
      assert l[9..][..|tail.value|] == tail.value;
    }
  }

  /** The argument-less requests and `QUIT`. */
  lemma ServidorLeConstantes()
    ensures Classificar(PedidoListChn) == ListChn
    ensures Classificar(PedidoWhoChn) == WhoChn
    ensures Classificar(PedidoInfoChn) == InfoChn
    ensures Classificar(PedidoQuit) == Quit
  {
    Difere("CMD_LISTCHN", PedidoWhoChn, 4);
    Difere("CMD_INFOCHN", PedidoWhoChn, 4);
    Difere("CMD_LISTCHN", PedidoInfoChn, 4);
    Difere("CMD_LISTCHN", PedidoQuit, 0);
    Difere("CMD_INFOCHN", PedidoQuit, 0);
    Difere("CMD_WHOCHN", PedidoQuit, 0);
    Difere("CMD_WHOAMI", PedidoQuit, 0);
  }

  /** Every line `UserCMD` sends is read by the server as the command the
      user asked for. */
  lemma ServidorEntende(linha: string)
    ensures forall l :: l in UserCMD(linha).enviadas ==> Classificar(l) == Esperado(InterpretarComando(linha))
  {
    match InterpretarComando(linha)
    case PedirSalas => ServidorLeConstantes();
    case PedirMembros => ServidorLeConstantes();
    case PedirEntrada(sala, descricao) => ServidorLeEntrada(sala, descricao);
    case PedirInfo => ServidorLeConstantes();
    case PedirNick(nick) => ServidorLeNick(nick);
    case PedirPvt(destino, msg) => ServidorLePvt(destino, msg);
    case PedirLog(tail) => ServidorLeLog(tail);
    case PedirSaida => ServidorLeConstantes();
    case PedirAjuda =>
    case ComandoInvalido =>
    case Falar(texto) => ServidorLeChat(texto);
  }

  // ----- what the server sends -----

  /** The part of a reply after its keyword: an error with its message, or
      the success with what follows `OK `. */
  datatype Parte = ParteErro(msg: string) | ParteOk(valor: string)

  /** `(ERR (.+)|OK (.+))$`: the error alternative is tried first, and each
      needs at least one character after its space. */
  function ErroOuOk(resto: string): (r: Option<Parte>)
    ensures r.None? <==> !(|resto| > 4 && "ERR " <= resto) && !(|resto| > 3 && "OK " <= resto)
    ensures r.Some? && r.value.ParteErro? ==> r.value.msg != "" && resto == "ERR " + r.value.msg
    ensures r.Some? && r.value.ParteOk? ==> r.value.valor != "" && resto == "OK " + r.value.valor
  {
    if |resto| > 4 && "ERR " <= resto then
      assert resto == resto[..4] + resto[4..];
      Some(ParteErro(resto[4..]))
    else if |resto| > 3 && "OK " <= resto then
      assert resto == resto[..3] + resto[3..];
      Some(ParteOk(resto[3..]))
    else None
  }

  /** `(ERR (.*)|OK ([\w]+))$` of `RCV_JOINCHN`: the error message may be
      empty, the room name is word characters. */
  function ErroOuSala(resto: string): (r: Option<Parte>)
    ensures r.None? <==> !("ERR " <= resto) && !(|resto| > 3 && "OK " <= resto && Todos(resto[3..], EhPalavra))
    ensures r.Some? && r.value.ParteErro? ==> resto == "ERR " + r.value.msg
    ensures r.Some? && r.value.ParteOk? ==> r.value.valor != "" && Todos(r.value.valor, EhPalavra) && resto == "OK " + r.value.valor
  {
    if "ERR " <= resto then
      assert resto == resto[..4] + resto[4..];
      Some(ParteErro(resto[4..]))
    else if |resto| > 3 && "OK " <= resto && Todos(resto[3..], EhPalavra) then
      assert resto == resto[..3] + resto[3..];
      Some(ParteOk(resto[3..]))
    else None
  }

  /** `(ERR (.*)|OK)` of `RCV_NICK` and `RCV_PVT`, not anchored at the end:
      anything may follow `OK`. */
  function ErroOuOkSolto(resto: string): (r: Option<Parte>)
    ensures r.None? <==> !("ERR " <= resto) && !("OK" <= resto)
    ensures r.Some? && r.value.ParteErro? ==> resto == "ERR " + r.value.msg
    ensures r.Some? && r.value.ParteOk? ==> "OK" <= resto
  {
    if "ERR " <= resto then
      assert resto == resto[..4] + resto[4..];
      Some(ParteErro(resto[4..]))
    else if "OK" <= resto then Some(ParteOk(resto[2..]))
    else None
  }

  /** `(ERR (.+)|OK ([a-zA-Z0-9]{1,24}) (.+))$` of `RCV_INFOCHN`: the error
      message, or the room name and description, split as the server's
      nick-and-rest parse splits them. */
  function ErroOuInfo(resto: string): (r: Option<Recebido>)
    ensures r.None? <==> !(|resto| > 4 && "ERR " <= resto) && !("OK " <= resto && NickEResto(resto[3..]).Some?)
    ensures r.Some? ==> r.value.ErroDoServidor? || r.value.InformacoesDaSala?
    ensures r.Some? && r.value.ErroDoServidor? ==> r.value.msg != "" && resto == "ERR " + r.value.msg
    ensures r.Some? && r.value.InformacoesDaSala? ==>
              EhIdentificador(r.value.nome) && r.value.descricao != ""
              && resto == "OK " + r.value.nome + " " + r.value.descricao
  {
    if |resto| > 4 && "ERR " <= resto then
      assert resto == resto[..4] + resto[4..];
      Some(ErroDoServidor(resto[4..]))
    else if "OK " <= resto && NickEResto(resto[3..]).Some? then
      var (nome, descricao) := NickEResto(resto[3..]).value;
      assert resto == resto[..3] + resto[3..];
      Some(InformacoesDaSala(nome, descricao))
    else None
  }

  /** What `RecebimentoDoServer` does with a line: the console routine it
      calls, with that routine's arguments. */
  datatype Recebido =
    | ErroDoServidor(msg: string)
    | MudancaDeSala(nome: string)
    | ListaDeSalas(salas: seq<string>)
    | ListaDeMembros(nicks: seq<string>)
    | InformacoesDaSala(nome: string, descricao: string)
    | NickMudado
    | PvtEnviada
    | LogDaSala(linha: string)
    | MensagemRecebida(linha: string)
    | NaoReconhecida

  /** An error reply's message, or `ok` for the success. */
  function ErroOu(parte: Parte, ok: Recebido): Recebido {
    if parte.ParteErro? then ErroDoServidor(parte.msg) else ok
  }

  /** `/^RCV_JOINCHN (ERR (.*)|OK ([\w]+))$/`. */
  function RecebeJoinChn(linha: string): (r: Option<Recebido>)
    ensures r.Some? ==> "RCV_JOINCHN " <= linha
    ensures r.Some? && r.value.MudancaDeSala? ==> linha == "RCV_JOINCHN OK " + r.value.nome
    ensures r.Some? ==> r.value.ErroDoServidor? || r.value.MudancaDeSala?
  {
    if "RCV_JOINCHN " <= linha && ErroOuSala(linha[12..]).Some? then
      var parte := ErroOuSala(linha[12..]).value;
      assert linha == linha[..12] + linha[12..];
      Some(if parte.ParteErro? then ErroDoServidor(parte.msg) else MudancaDeSala(parte.valor))
    else None
  }

  /** `/^RCV_LISTCHN (ERR (.+)|OK (.+))$/`; the list is split at `|`. */
  function RecebeListChn(linha: string): (r: Option<Recebido>)
    ensures r.Some? ==> "RCV_LISTCHN " <= linha
    ensures r.Some? ==> r.value.ErroDoServidor? || r.value.ListaDeSalas?
  {
    if "RCV_LISTCHN " <= linha && ErroOuOk(linha[12..]).Some? then
      var parte := ErroOuOk(linha[12..]).value;
      Some(if parte.ParteErro? then ErroDoServidor(parte.msg) else ListaDeSalas(DividirBarra(parte.valor)))
    else None
  }

  /** `/^RCV_WHOCHN (ERR (.+)|OK (.+))$/`; the list is split at `|`. */
  function RecebeWhoChn(linha: string): (r: Option<Recebido>)
    ensures r.Some? ==> "RCV_WHOCHN " <= linha
    ensures r.Some? ==> r.value.ErroDoServidor? || r.value.ListaDeMembros?
  {
    if "RCV_WHOCHN " <= linha && ErroOuOk(linha[11..]).Some? then
      var parte := ErroOuOk(linha[11..]).value;
      Some(if parte.ParteErro? then ErroDoServidor(parte.msg) else ListaDeMembros(DividirBarra(parte.valor)))
    else None
  }

  /** `/^RCV_INFOCHN (ERR (.+)|OK ([a-zA-Z0-9]{1,24}) (.+))$/`. */
  function RecebeInfoChn(linha: string): (r: Option<Recebido>)
    ensures r.Some? ==> "RCV_INFOCHN " <= linha
    ensures r.Some? ==> r.value.ErroDoServidor? || r.value.InformacoesDaSala?
    ensures r.Some? && r.value.InformacoesDaSala? ==>
              EhIdentificador(r.value.nome) && r.value.descricao != ""
              && linha == RespostaInfoChn(r.value.nome, r.value.descricao)
  {
    if "RCV_INFOCHN " <= linha && ErroOuInfo(linha[12..]).Some? then
      assert linha == linha[..12] + linha[12..];
      ErroOuInfo(linha[12..])
    else None
  }

  /** `/^RCV_NICK (ERR (.*)|OK)/` and `/^RCV_PVT (ERR (.*)|OK)/`. */
  function RecebeSolto(linha: string, chave: string, ok: Recebido): (r: Option<Recebido>)
    ensures r.Some? ==> chave <= linha
    ensures r.Some? ==> r.value.ErroDoServidor? || r.value == ok
  {
    if chave <= linha && ErroOuOkSolto(linha[|chave|..]).Some? then
      Some(ErroOu(ErroOuOkSolto(linha[|chave|..]).value, ok))
    else None
  }

  /** `/^RCV_CHATLOG (.+)/` and `/^RCV_CHATMSG (.+)/`: the rest of the line. */
  function Resto(linha: string, chave: string): (r: Option<string>)
    ensures r.Some? ==> r.value != "" && linha == chave + r.value
  {
    if chave <= linha && |linha| > |chave| then
      assert linha == linha[..|chave|] + linha[|chave|..];
      Some(linha[|chave|..])
    else None
  }

  /** `RecebimentoDoServer`'s chain of tests, first match wins; keywords are
      matched with regard to case. A line that passes no test is ignored. */
  function RecebimentoDoServer(linha: string): (r: Recebido)
    ensures r.MudancaDeSala? ==> linha == "RCV_JOINCHN OK " + r.nome
    ensures r.InformacoesDaSala? ==>
              EhIdentificador(r.nome) && r.descricao != "" && linha == RespostaInfoChn(r.nome, r.descricao)
    ensures r.LogDaSala? ==> r.linha != "" && linha == "RCV_CHATLOG " + r.linha
    ensures r.MensagemRecebida? ==> r.linha != "" && linha == "RCV_CHATMSG " + r.linha
  {
    if RecebeJoinChn(linha).Some? then RecebeJoinChn(linha).value
    else if RecebeListChn(linha).Some? then RecebeListChn(linha).value
    else if RecebeWhoChn(linha).Some? then RecebeWhoChn(linha).value
    else if RecebeInfoChn(linha).Some? then RecebeInfoChn(linha).value
    else if RecebeSolto(linha, "RCV_NICK ", NickMudado).Some? then RecebeSolto(linha, "RCV_NICK ", NickMudado).value
    else if RecebeSolto(linha, "RCV_PVT ", PvtEnviada).Some? then RecebeSolto(linha, "RCV_PVT ", PvtEnviada).value
    else if Resto(linha, "RCV_CHATLOG ").Some? then LogDaSala(Resto(linha, "RCV_CHATLOG ").value)
    else if Resto(linha, "RCV_CHATMSG ").Some? then MensagemRecebida(Resto(linha, "RCV_CHATMSG ").value)
    else NaoReconhecida
  }

  /** `RecebimentoDoServer`'s return value: 1 after an error, nothing for a
      line it ignores, 0 otherwise. */
  function Retorno(r: Recebido): Option<int> {
    if r.ErroDoServidor? then Some(1) else if r.NaoReconhecida? then None else Some(0)
  }

  // ----- how the client reads what the server sends -----

  /** One differing character keeps a keyword from being a prefix. */
  lemma DifereExato(p: string, s: string, i: nat)
    requires i < |p| && i < |s| && p[i] != s[i]
    ensures !(p <= s)
  {
  }

  /** Every line whose keyword differs from those of the first tests
      passes them by. */
  lemma PassaPorJoinEList(l: string)
    requires |l| > 4 && "RCV_" <= l && l[4] !in {'J', 'L'}
    ensures RecebeJoinChn(l).None? && RecebeListChn(l).None?
  {
    DifereExato("RCV_JOINCHN ", l, 4);
    DifereExato("RCV_LISTCHN ", l, 4);
  }

  /** The reply to a successful `CMD_JOINCHN` moves the client to that room. */
  lemma RecebeMudanca(sala: string)
    requires EhIdentificador(sala)
    ensures RecebimentoDoServer(RespostaJoinOk(sala)) == MudancaDeSala(sala)
    ensures Retorno(RecebimentoDoServer(RespostaJoinOk(sala))) == Some(0)
  {
    var l := RespostaJoinOk(sala);
    assert l[..12] == "RCV_JOINCHN " && l[12..] == "OK " + sala && l[12..][3..] == sala;
    DifereExato("ERR ", l[12..], 0);
    assert Todos(sala, EhPalavra) by {
      assert Todos(sala, EhAlnum);
    }
  }

  /** An error of `CMD_JOINCHN` is shown with its message, even an empty
      one. */
  lemma RecebeErroDeEntrada(msg: string)
    ensures RecebimentoDoServer("RCV_JOINCHN ERR " + msg) == ErroDoServidor(msg)
    ensures Retorno(RecebimentoDoServer("RCV_JOINCHN ERR " + msg)) == Some(1)
  {
    var l := "RCV_JOINCHN ERR " + msg;
    assert l[..12] == "RCV_JOINCHN " && l[12..] == "ERR " + msg && l[12..][4..] == msg;
  }

  /** A room list reply is read as the list's entries, split at `|`. */
  lemma RecebeListaDeSalas(v: string)
    requires v != ""
    ensures RecebimentoDoServer("RCV_LISTCHN OK " + v) == ListaDeSalas(DividirBarra(v))
  {
    var l := "RCV_LISTCHN OK " + v;
    assert l[..12] == "RCV_LISTCHN " && l[12..] == "OK " + v && l[12..][3..] == v;
    DifereExato("RCV_JOINCHN ", l, 4);
    Difere("ERR ", l[12..], 0);
  }

  /** The room list comes back entry by entry, as long as no entry holds a
      `|` (a description may) and the last one is not empty. */
  lemma RecebeSalas(entradas: seq<string>)
    requires entradas != []
    requires forall i :: 0 <= i < |entradas| ==> '|' !in entradas[i]
    requires entradas[|entradas| - 1] != ""
    ensures RecebimentoDoServer(RespostaListChn(entradas)) == ListaDeSalas(entradas)
  {
    RecebeListaDeSalas(JuntarBarra(entradas));
    DividirJuntar(entradas);
  }

  /** `CMD_JOINCHN x a|b` asks for room `x` described by `a|b`: the
      description may hold `|`. */
  lemma JuntarComBarra()
    ensures Classificar("CMD_JOINCHN x a|b") == JoinChn("x", Some("a|b"))
  {
    assert EhIdentificador("x");
    ServidorLeEntrada("x", Some("a|b"));
    assert EntrarSala("x", Some("a|b")) == "CMD_JOINCHN x a|b";
  }

  /** An entry holding `|`, such as the one room `x` described by `a|b`
      has in the room list, comes back to the client as two entries. */
  lemma DescricaoComBarra()
    ensures RecebimentoDoServer(RespostaListChn(["x - a|b"])) == ListaDeSalas(["x - a", "b"])
  {
    var partes := ["x - a", "b"];
    assert '|' !in partes[0] && '|' !in partes[1];
    DividirJuntar(partes);
    assert JuntarBarra(["x - a|b"]) == JuntarBarra(partes);
    RecebeListaDeSalas(JuntarBarra(partes));
  }

  /** A member list reply is read as the list's entries, split at `|`. */
  lemma RecebeListaDeMembros(v: string)
    requires v != ""
    ensures RecebimentoDoServer("RCV_WHOCHN OK " + v) == ListaDeMembros(DividirBarra(v))
  {
    var l := "RCV_WHOCHN OK " + v;
    assert l[..11] == "RCV_WHOCHN " && l[11..] == "OK " + v && l[11..][3..] == v;
    PassaPorJoinEList(l);
    Difere("ERR ", l[11..], 0);
  }

  /** The member list comes back nick by nick. */
  lemma RecebeMembros(nicks: seq<string>)
    requires nicks != []
    requires forall i :: 0 <= i < |nicks| ==> EhIdentificador(nicks[i])
    ensures RecebimentoDoServer(RespostaWhoChn(nicks)) == ListaDeMembros(nicks)
  {
    RecebeListaDeMembros(JuntarBarra(nicks));
    NicksDeJuntar(nicks);
  }

  /** A list of nicks, which hold no `|`, splits back into those nicks. */
  lemma NicksDeJuntar(nicks: seq<string>)
    requires nicks != []
    requires forall i :: 0 <= i < |nicks| ==> EhIdentificador(nicks[i])
    ensures DividirBarra(JuntarBarra(nicks)) == nicks
  {
    forall i | 0 <= i < |nicks|
      ensures '|' !in nicks[i]
    {
      SemBarra(nicks[i]);
    }
    DividirJuntar(nicks);
  }

  lemma SemBarra(s: string)
    requires Todos(s, EhAlnum)
    ensures '|' !in s
  {
    forall j | 0 <= j < |s|
      ensures s[j] != '|'
    {
      assert EhAlnum(s[j]);
    }
  }

  /** The room information comes back as the room's name and description. */
  lemma RecebeInformacoes(nome: string, descricao: string)
    requires EhIdentificador(nome) && descricao != ""
    ensures RecebimentoDoServer(RespostaInfoChn(nome, descricao)) == InformacoesDaSala(nome, descricao)
  {
    var l := RespostaInfoChn(nome, descricao);
    assert l[..12] == "RCV_INFOCHN " && l[12..] == "OK " + (nome + " " + descricao);
    assert l[12..][3..] == nome + " " + descricao;
    PassaPorJoinEList(l);
    DifereExato("RCV_WHOCHN ", l, 4);
    Difere("ERR ", l[12..], 0);
    NickERestoDe(nome, descricao);
  }

  /** Every line whose keyword differs from those of the four list and
      room replies passes those tests by. */
  lemma PassaPorSalas(l: string)
    requires |l| > 4 && "RCV_" <= l && l[4] !in {'J', 'L', 'W', 'I'}
    ensures RecebeJoinChn(l).None? && RecebeListChn(l).None? && RecebeWhoChn(l).None? && RecebeInfoChn(l).None?
  {
    PassaPorJoinEList(l);
    DifereExato("RCV_WHOCHN ", l, 4);
    DifereExato("RCV_INFOCHN ", l, 4);
  }

  /** The replies to `CMD_NICK`: an error with its message, or the change. */
  lemma RecebeNick(msg: string)
    ensures RecebimentoDoServer(RespostaNickOk) == NickMudado
    ensures RecebimentoDoServer("RCV_NICK ERR " + msg) == ErroDoServidor(msg)
  {
    var l := "RCV_NICK ERR " + msg;
    PassaPorSalas(RespostaNickOk);
    PassaPorSalas(l);
    assert RespostaNickOk[..9] == "RCV_NICK " && RespostaNickOk[9..] == "OK";
    assert l[..9] == "RCV_NICK " && l[9..] == "ERR " + msg && l[9..][4..] == msg;
  }

  /** The replies to `CMD_PVT`: an error with its message, or the delivery. */
  lemma RecebePvt(msg: string)
    ensures RecebimentoDoServer(RespostaPvtOk) == PvtEnviada
    ensures RecebimentoDoServer("RCV_PVT ERR " + msg) == ErroDoServidor(msg)
  {
    var l := "RCV_PVT ERR " + msg;
    PassaPorSalas(RespostaPvtOk);
    PassaPorSalas(l);
    DifereExato("RCV_NICK ", RespostaPvtOk, 4);
    DifereExato("RCV_NICK ", l, 4);
    assert RespostaPvtOk[..8] == "RCV_PVT " && RespostaPvtOk[8..] == "OK";
    assert l[..8] == "RCV_PVT " && l[8..] == "ERR " + msg && l[8..][4..] == msg;
  }

  /** The server's own error replies reach the client with their messages. */
  lemma RecebeErrosDoServidor()
    ensures RecebimentoDoServer(ErroJoinDescricao) == ErroDoServidor("Necessário uma descrição para criar uma sala.")
    ensures RecebimentoDoServer(ErroJoinNome) == ErroDoServidor("Nome de sala invalido")
    ensures RecebimentoDoServer(ErroNickEmUso) == ErroDoServidor("Nick já em uso")
    ensures RecebimentoDoServer(ErroPvtNick) == ErroDoServidor("Nick não existe!")
  {
    RecebeErroDeEntrada("Necessário uma descrição para criar uma sala.");
    RecebeErroDeEntrada("Nome de sala invalido");
    RecebeNick("Nick já em uso");
    RecebePvt("Nick não existe!");
  }

  /** `RCV_NICK` is not anchored at the end: whatever follows `OK` still
      reads as a changed nick. */
  lemma NickSemAncora(x: string)
    ensures RecebimentoDoServer("RCV_NICK OK" + x) == NickMudado
  {
    var l := "RCV_NICK OK" + x;
    PassaPorSalas(l);
    assert l[..9] == "RCV_NICK " && l[9..][..2] == "OK";
    DifereExato("ERR ", l[9..], 0);
  }

  /** Chat lines are shown as they came. */
  lemma RecebeChat(linha: string)
    requires linha != ""
    ensures RecebimentoDoServer(MensagemDeChat(linha)) == MensagemRecebida(linha)
  {
    var m := MensagemDeChat(linha);
    PassaPorSalas(m);
    DifereExato("RCV_NICK ", m, 4);
    DifereExato("RCV_PVT ", m, 4);
    DifereExato("RCV_CHATLOG ", m, 8);
    assert m[..12] == "RCV_CHATMSG " && m[12..] == linha;
  }

  /** Log lines are shown with the server's `[LOG]` mark. */
  lemma RecebeLog(linha: string)
    ensures RecebimentoDoServer(LinhaDeLog(linha)) == LogDaSala("[LOG] " + linha)
  {
    var g := LinhaDeLog(linha);
    PassaPorSalas(g);
    DifereExato("RCV_NICK ", g, 4);
    DifereExato("RCV_PVT ", g, 4);
    assert g[..12] == "RCV_CHATLOG " && g[12..] == "[LOG] " + linha;
  }

  /** A line that is none of the client's keywords. */
  lemma Ignorada(l: string)
    requires |l| > 8
    requires !("RCV_" <= l) || (l[4] !in {'J', 'L', 'W', 'I', 'N', 'P'} && l[8] != 'L' && l[8] != 'M')
    ensures RecebimentoDoServer(l) == NaoReconhecida && Retorno(RecebimentoDoServer(l)).None?
  {
    if "RCV_" <= l {
      PassaPorSalas(l);
      DifereExato("RCV_NICK ", l, 4);
      DifereExato("RCV_PVT ", l, 4);
      DifereExato("RCV_CHATLOG ", l, 8);
      DifereExato("RCV_CHATMSG ", l, 8);
    } else {
      NaoRcv(l);
    }
  }

  /** A line not starting with `RCV_` starts with none of the keywords. */
  lemma NaoRcv(l: string)
    requires !("RCV_" <= l)
    ensures RecebeJoinChn(l).None? && RecebeListChn(l).None? && RecebeWhoChn(l).None? && RecebeInfoChn(l).None?
    ensures !("RCV_NICK " <= l) && !("RCV_PVT " <= l) && !("RCV_CHATLOG " <= l) && !("RCV_CHATMSG " <= l)
  {
  }

  /** The server's acknowledgement of a chat line and its command errors
      pass every test: the client ignores them. */
  lemma Ignoradas()
    ensures RecebimentoDoServer(RespostaChatOk) == NaoReconhecida
    ensures RecebimentoDoServer(ErroChatVazio) == NaoReconhecida
    ensures RecebimentoDoServer(ErroComando) == NaoReconhecida
  {
    Ignorada(RespostaChatOk);
    DifereExato("RCV_", ErroChatVazio, 0);
    Ignorada(ErroChatVazio);
    DifereExato("RCV_", ErroComando, 0);
    Ignorada(ErroComando);
  }

  // ----- the handshake -----

  /** `Conectar`'s request line. */
  function PedidoConn(nick: string, nome: string): string { "CONN " + nick + " " + nome }

  /** What `Conectar` does after reading the reply to `CONN`: show the error
      and ask again, go on connected, or, when the reply matches neither
      alternative, fail (indexing the missing match raises, and the caller
      gives up on the server). */
  datatype Passo = Repetir(erro: string) | Conectado(id: string) | Falha

  /** `/^RCV_CONN (ERR (.+)|OK ([0-9]+))$/`. */
  function LerRespostaConn(linha: string): (p: Passo)
    ensures p.Repetir? ==> p.erro != "" && linha == "RCV_CONN ERR " + p.erro
    ensures p.Conectado? ==> p.id != "" && Todos(p.id, EhDigito) && linha == "RCV_CONN OK " + p.id
    ensures !("RCV_CONN " <= linha) ==> p.Falha?
  {
    if "RCV_CONN " <= linha && |linha| > 13 && "ERR " <= linha[9..] then
      assert linha == "RCV_CONN ERR " + linha[13..];
      Repetir(linha[13..])
    else if "RCV_CONN " <= linha && |linha| > 12 && "OK " <= linha[9..] && Todos(linha[12..], EhDigito) then
      assert linha == "RCV_CONN OK " + linha[12..];
      Conectado(linha[12..])
    else Falha
  }

  /** The acceptance carries the connection number, which reads back as
      the number the server gave. */
  lemma ConexaoAceita(connid: nat)
    ensures LerRespostaConn(RespostaConnOk(connid)) == Conectado(NatParaTexto(connid))
    ensures TextoParaNat(LerRespostaConn(RespostaConnOk(connid)).id) == connid
  {
    var l := RespostaConnOk(connid);
    assert l[..9] == "RCV_CONN " && l[9..][..3] == "OK " && l[12..] == NatParaTexto(connid);
    Difere("ERR ", l[9..], 0);
    TextoParaNatDeNatParaTexto(connid);
  }

  /** A refused handshake shows the server's reason and asks again. */
  lemma ConexaoRecusada(msg: string)
    requires msg != ""
    ensures LerRespostaConn("RCV_CONN ERR " + msg) == Repetir(msg)
  {
    var l := "RCV_CONN ERR " + msg;
    assert l[..9] == "RCV_CONN " && l[9..][..4] == "ERR " && l[13..] == msg;
  }

  /** The server's two refusals. */
  lemma RecusasDoServidor()
    ensures LerRespostaConn(ErroConnNickEmUso) == Repetir("Nick já em uso! Tente outro")
    ensures LerRespostaConn(ErroConnSintaxe) == Repetir("Sintaxe incorreta")
  {
    ConexaoRecusada("Nick já em uso! Tente outro");
    ConexaoRecusada("Sintaxe incorreta");
  }

  /** The handshake line of a valid nick and display name registers them. */
  lemma ServidorLeConexao(nick: string, nome: string)
    requires EhIdentificador(nick) && EhNomeExibicao(nome)
    ensures ClassificarConexao(PedidoConn(nick, nome)) == Conn(nick, nome)
  {
    ConexaoValida(nick, nome);
  }
}
