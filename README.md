# ChatRadical in Dafny

ChatRadical is a line-based chat system in Ruby, with a TCP server and a
console client. A client connects and registers with
`CONN <nick> <nome>`. The server answers with the connection id, the
message of the day and the `default` room. After that, each line the
client sends is a command:

- `CMD_LISTCHN`, `CMD_JOINCHN`, `CMD_INFOCHN`, `CMD_WHOCHN` and `CMD_VLOG` deal with rooms;
- `CMD_PVT` sends a private message;
- `CMD_WHOAMI` and `CMD_NICK` deal with the user's own identity;
- `CMD_CHAT` speaks in the user's room;
- `QUIT` leaves.

The server answers each command with `RCV_*` lines and pushes room
messages as `RCV_CHATMSG`. The client turns typed `/commands` into
protocol lines. It also reads the server's lines and reports each one as
an error, a room change, a list, and so on.

The project models both sides. It has five modules.

- `Texto`: string helpers used by both sides:
  - ASCII case folding for the `/i` expressions;
  - character classes;
  - decimal numerals;
  - Ruby's string order;
  - the server's `|`-terminated lists and Ruby's `String#split('|')`.
- `Ordem`: `Array#sort` as an insertion sort by a key, proved ascending and a permutation.
- `Protocolo`: how the server classifies one line (`ClienteConectar`'s and `ClienteComandos`'s regular-expression chains, first match wins), and the exact reply lines.
- `Servidor`: the server.
  - A `Usuario` value per registered user.
  - A `Sala` class per room. Its member list, nick list and log are updated in place.
  - A `ChatRadicalServer` class. It holds the rooms, the user table (`@nicks`), `@connid`, the open connections and everything written to sockets.
  - Every operation keeps one invariant, `Valid()`:
    - every room's member list and nick list hold exactly the users in that room, each once;
    - every user is in an existing room, on an open connection, with a valid nick;
    - no two users share a nick;
    - the `default` room exists.
- `Cliente`: the client as pure translators:
  - `UserCMD` from a typed line to the lines sent, the screen and the return value;
  - `RecebimentoDoServer` from a server line to what the client reports;
  - `Conectar`'s reading of the handshake reply.
  Lemmas connect the two sides. Every line the client sends is classified by the server as the command the user asked for. Every reply the server writes is read back by the client as what the server meant.

Modelling choices:

- A socket is the connection's id (`ConnId`). Each line written to a socket is one `Escrita(conn, linha)` appended to the server's `saida`. The list replies of `CMD_LISTCHN` and `CMD_WHOCHN` (a `write` of the header, one `write` per entry and a closing `puts`) form one `Escrita`.
- The timestamp prefix `[HH:MM:SS] ` is a parameter `ts`.
- The message-of-the-day file is a parameter `Option<string>`. `None` means the file could not be read, and the fallback greeting is used.
- Lines read carry no line break. The server `chomp`s its input. On the client, the `$` and `.` of the expressions behave the same with or without the trailing newline that `gets` leaves.
- Lines written carry no line break either, except the message of the day. `ClienteMotd` joins the file's lines with their line breaks and `puts` sends them in one call, so its one `Escrita` may hold line breaks.
- Only ASCII letters are case-folded for `/i`.
- `CMD_JOINCHN` behaves as written:
  - `NovaSala` returns `nil` for a room that already exists;
  - the command's `unless` treats `nil` like `false`;
  - so joining an existing room always answers with the "description needed" error, and a user can only move by creating a new room.

## Model

| member | source | states |
|---|---|---|
| Texto.TextoParaNatDeNatParaTexto | chatradical-server.rb:143 | the decimal text of a connection id reads back as that id |
| Texto.DividirBarra | chatradical-client.rb:307-319 | `split` on the bar yields pieces that contain no bar |
| Texto.DividirJuntar | chatradical-client.rb:307-319 | splitting a list the server wrote (each entry followed by a bar) on the bar gives back exactly the entries, when none holds a bar and the last is not empty |
| Ordem.OrdenarPor | chatradical-server.rb:314-323 | `sort` returns the same elements (as a multiset), in ascending order of the key |
| Protocolo.ArgsConn | chatradical-server.rb:130 | accepted `CONN` arguments are a nick of 1-24 letters/digits and a name of 1-32 of `[a-zA-Z_-]`, joined by one space, and nothing else |
| Protocolo.ClassificarConexao | chatradical-server.rb:129-159 | a registration carries a valid nick and name taken from the line after `CONN `; `QUIT` is recognised only as a whole word |
| Protocolo.ConexaoValida | chatradical-server.rb:130 | `CONN nick nome` registers `nick` and `nome` if and only if both are valid |
| Protocolo.SalaEDescricao | chatradical-server.rb:191 | the room name is absent exactly when the argument does not start with a letter or digit; a description is non-empty and follows the name after one space |
| Protocolo.NickEResto | chatradical-server.rb:240 | a private message has a valid nick, one space and a non-empty text |
| Protocolo.DoisDigitos | chatradical-server.rb:228 | the log tail is one or two digits at the front of the argument, absent exactly when no digit starts it |
| Protocolo.ArgVLog | chatradical-server.rb:226-238 | the tail asked for is below 100 |
| Protocolo.VLogComDigitos | chatradical-server.rb:226-231 | `CMD_VLOG ` followed by one or two digits (and no third) asks for exactly their decimal value |
| Protocolo.VLogPadrao | chatradical-server.rb:226-234 | a line with no digit right after `CMD_VLOG ` (including one whose keyword is not in capitals) asks for the default 30 lines |
| Protocolo.Classificar | chatradical-server.rb:180-279 | the dispatcher's result carries the guarantees of its pattern: a valid room name and a non-empty description, a tail below 100, a valid destination nick and a non-empty message, a valid new nick, non-empty chat text |
| Protocolo.LinhasDeLog | chatradical-server.rb:236-238 | one `RCV_CHATLOG [LOG]` line per log line, in order |
| Servidor.RecebidasConcat | chatradical-server.rb:325-363 | what a socket receives from two runs of writes is what it receives from the first, then from the second |
| Servidor.DifusaoEntrega | chatradical-server.rb:325-351 | a broadcast to a room's distinct members gives each member the line exactly once and other sockets nothing |
| Servidor.ParaEntrega | chatradical-server.rb:226-238 | replies written to one socket reach that socket, all and in order, and no other |
| Servidor.Sem | chatradical-server.rb:41-44 | `Array#delete` never lengthens the list and leaves it unchanged when the element is absent |
| Servidor.SemContagem | chatradical-server.rb:41-44 | `Array#delete` removes every occurrence of the element and nothing else |
| Servidor.SemMembros | chatradical-server.rb:41-44 | after `delete`, exactly the other elements remain, still without repetition |
| Servidor.AcrescimoSemRepeticao | chatradical-server.rb:35-39 | the sorted nick list of a room a new user joins holds each old member and the new one exactly once |
| Servidor.Sala.constructor | chatradical-server.rb:27-33 | a new room has its name and description, no members and an empty log |
| Servidor.Sala.AdicionarMembro | chatradical-server.rb:35-39 | the socket is appended to the members; the nick list gains the user and is sorted by current nick |
| Servidor.Sala.RemoverMembro | chatradical-server.rb:41-44 | the socket and the user are deleted from both lists |
| Servidor.Sala.AdicionarLog | chatradical-server.rb:46-48 | the line is appended to the log |
| Servidor.Sala.VerLog | chatradical-server.rb:50-59 | the result is the suffix of the log of length `min(tail, size)` |
| Servidor.SegundoMembroComoEscrito | chatradical-server.rb:35-39 | as written, a user joining a room that already has a different member makes the sort of `Usuario` objects fail |
| Servidor.SalasAoEncerrar | chatradical-server.rb:112-119 | the cleanup of a connection keeps every room consistent with the remaining users |
| Servidor.UsuariosAoTrocarNick | chatradical-server.rb:246-263 | taking a valid nick nobody holds keeps nicks unique |
| Servidor.UsuariosAoRegistrar | chatradical-server.rb:135-140 | registering a free, valid nick on an open connection keeps the users consistent |
| Servidor.EstadoInicial | chatradical-server.rb:66-73 | start-up (empty rooms, no users, no connections) satisfies the invariant |
| Servidor.EstadoAoCriar | chatradical-server.rb:301-312 | adding an empty room keeps the invariant |
| Servidor.EstadoAoEncerrar | chatradical-server.rb:112-119 | the cleanup keeps the invariant |
| Servidor.EstadoAoTrocarNick | chatradical-server.rb:246-263 | a nick change to a free, valid nick keeps the invariant |
| Servidor.EstadoAoMudar | chatradical-server.rb:190-215 | moving a user to another room keeps the invariant |
| Servidor.EstadoAoRegistrar | chatradical-server.rb:135-150 | registering a user in `default` keeps the invariant |
| Servidor.ChatRadicalServer.NicksDaSala | chatradical-server.rb:35-44 | a room's nick list and member list hold the same users |
| Servidor.ChatRadicalServer.constructor | chatradical-server.rb:66-73 | start-up creates exactly the rooms default, Linux, Ruby and FIAP, each described by its own name and empty; there are no users and no connections; the invariant holds |
| Servidor.ChatRadicalServer.Aceitar | chatradical-server.rb:97-98 | `@connid += 1`: the new connection gets a fresh id above every earlier one and no user |
| Servidor.ChatRadicalServer.NovaSala | chatradical-server.rb:301-312 | an existing name gives nil and changes nothing; no description gives false and changes nothing; otherwise the room is created, empty, with that description |
| Servidor.ChatRadicalServer.PegarUsuarioPorNick | chatradical-server.rb:281-289 | the user found holds exactly that nick; `false` (modelled as `None`) if and only if nobody holds it |
| Servidor.ChatRadicalServer.ListarSalas | chatradical-server.rb:314-323 | sorted, one `nome - descricao` entry per room, and every entry belongs to a room |
| Servidor.ChatRadicalServer.Chat | chatradical-server.rb:325-337 | `<nick> texto` is logged in the user's room and pushed to each member; the answer is `RCV_CHAT OK` |
| Servidor.ChatRadicalServer.ChatNotice | chatradical-server.rb:339-351 | `*** msg` is logged in the user's room and pushed to each member, the invariant kept |
| Servidor.ChatRadicalServer.EnviarPVT | chatradical-server.rb:353-363 | when the nick is held, only its holder receives the `PVT` line; otherwise nothing is written and the answer is the error |
| Servidor.ChatRadicalServer.CmdListChn | chatradical-server.rb:183-189 | the sorted room list, one entry per room, is written as one `RCV_LISTCHN OK` line to the requester and nothing else changes |
| Servidor.ChatRadicalServer.CmdInfoChn | chatradical-server.rb:216-218 | only the user's room name and description are written, to the user; nothing else changes |
| Servidor.ChatRadicalServer.CmdWhoChn | chatradical-server.rb:219-225 | the current nicks of exactly the users in the requester's room, in the room's order; nothing else changes |
| Servidor.ChatRadicalServer.CmdVLog | chatradical-server.rb:226-238 | one `RCV_CHATLOG [LOG]` line per line of the room log's last `tail` lines, in order, to the requester only; nothing else changes |
| Servidor.ChatRadicalServer.EscreverLog | chatradical-server.rb:236-238 | the log lines are written to the socket, one `RCV_CHATLOG [LOG]` line each, in order; nothing else changes |
| Servidor.ChatRadicalServer.CmdWhoAmI | chatradical-server.rb:244-245 | the user's id, nick, name and room |
| Servidor.ChatRadicalServer.CmdNick | chatradical-server.rb:246-263 | a nick any user holds is refused with `RCV_NICK ERR` and nothing else changes; otherwise the room logs and hears the change under the old nick, the user alone is renamed and gets `RCV_NICK OK`; no other room, user or connection changes |
| Servidor.ChatRadicalServer.CmdJoinChn | chatradical-server.rb:190-215 | an existing room or a missing description gives the description error, and only that line is written; otherwise a fresh room with that description holds just the user, the old room loses the user and logs and broadcasts the departure to its old members, the user gets `RCV_JOINCHN OK` and the arrival notice; the invariant holds and no other room, user or connection changes |
| Servidor.ChatRadicalServer.CriarSalaEEntrar | chatradical-server.rb:198-212 | the `NovaSala` test and both of its branches, with the same effect as `CmdJoinChn`, keeping the user's old room object in place |
| Servidor.ChatRadicalServer.MudarDeSala | chatradical-server.rb:200-212 | the user leaves the old room (which logs and broadcasts the departure) and enters the new one, is told `RCV_JOINCHN OK` and hears the arrival; the invariant holds |
| Servidor.ChatRadicalServer.Encerrar | chatradical-server.rb:112-119 | the connection leaves every room's lists, the user table and the open set; every room but the user's keeps its lists; the invariant holds |
| Servidor.ChatRadicalServer.CmdQuit | chatradical-server.rb:271-274 | the room logs and broadcasts that the user left, to its members before the user leaves; the user then leaves the room, the user table and the open set; no other room or connection changes |
| Servidor.ChatRadicalServer.CmdPvt | chatradical-server.rb:239-243 | the private line reaches only the holder of the nick and the sender gets `RCV_PVT OK`, or the sender gets the error; nothing else changes |
| Servidor.ChatRadicalServer.CmdChat | chatradical-server.rb:264-267 | the chat line is logged in the user's room and pushed to each member, then the sender gets `RCV_CHAT OK`; no other room changes |
| Servidor.ChatRadicalServer.Registrar | chatradical-server.rb:138-150 | the user is filed in `default`; the socket gets `RCV_CONN OK id`, the message of the day, `RCV_MOTD OK` and `RCV_JOINCHN OK default`; the room is told |
| Servidor.ChatRadicalServer.ClienteConectar | chatradical-server.rb:129-159 | registered if and only if a valid `CONN` names a free nick, and then in `default` with `RCV_CONN OK id`, the message of the day, `RCV_MOTD OK`, `RCV_JOINCHN OK default` and the arrival broadcast, no other room changing; a taken nick or bad syntax writes only its error line; `QUIT` closes the connection and changes nothing else |
| Servidor.ChatRadicalServer.Apresentar | chatradical-server.rb:130-153 | a taken nick writes only the error; a free one registers the user in `default` with the full greeting |
| Servidor.ChatRadicalServer.Desistir | chatradical-server.rb:154-155 | `QUIT` before registering closes the connection; no user, room or socket output changes |
| Servidor.ChatRadicalServer.ClienteComandos | chatradical-server.rb:180-279 | the user stays registered and connected unless the line is `QUIT`; for each class of line, exactly what is written and what changes (the join, nick, private message, chat and quit effects, the error lines, and nothing at all for the lines the source ignores); no id is handed out, no other connection closes, and every room but the user's (and, on a join, the new one) is the same room with the same lists and log |
| Servidor.ChatRadicalServer.Responder | chatradical-server.rb:190-279 | an invalid room name, an empty chat line and an unknown command each write only their error line; `CMD_PVT` and `CMD_NICK` with unmatched arguments write nothing; a private message and a chat line have their effects; no user, connection or other room changes |
| Servidor.ChatRadicalServer.Consultar | chatradical-server.rb:183-245 | each query command writes only its reply to the requester and changes nothing else |
| Servidor.ChatRadicalServer.AtenderListChn | chatradical-server.rb:183-189 | the `CMD_LISTCHN` branch: only the sorted room list is written, and nothing else changes |
| Servidor.ChatRadicalServer.AtenderInfoChn | chatradical-server.rb:216-218 | the `CMD_INFOCHN` branch: only the room's name and description are written |
| Servidor.ChatRadicalServer.AtenderWhoChn | chatradical-server.rb:219-225 | the `CMD_WHOCHN` branch: only the room's current nicks are written |
| Servidor.ChatRadicalServer.AtenderVLog | chatradical-server.rb:226-238 | the `CMD_VLOG` branch: only the log tail is written |
| Servidor.ChatRadicalServer.AtenderWhoAmI | chatradical-server.rb:244-245 | the `CMD_WHOAMI` branch: only the user's id, nick, name and room are written |
| Servidor.ChatRadicalServer.Receber | chatradical-server.rb:106-110 | handshake lines until registration, with `ClienteConectar`'s effect; commands after, with `ClienteComandos`'s effect; the invariant is kept across every line |
| Cliente.ArgsJoin | chatradical-client.rb:181-185 | `/join` takes a room name of letters and digits and an optional non-empty description |
| Cliente.ArgLog | chatradical-client.rb:209-217 | bare `/log` asks for no tail; otherwise the tail is one or two digits |
| Cliente.InterpretarComando | chatradical-client.rb:165-242 | a line is chat exactly when it does not start with `/`, and then it is sent whole; each command carries its parsed arguments |
| Cliente.UserCMD | chatradical-client.rb:165-242 | returns 1 exactly for an invalid command or `/quit` (which falls through to the invalid-command branch), and 0 otherwise; nothing is sent exactly for an invalid command or `/help`; at most one line is sent |
| Cliente.ServidorLeChat | chatradical-client.rb:240-241 | any text typed is read by the server as that chat message, or as an empty chat when it is empty |
| Cliente.ServidorLeEntrada | chatradical-client.rb:256-258 | `/join` reaches the server as a join of that room with that description |
| Cliente.ServidorLeNick | chatradical-client.rb:264-266 | `/nick` reaches the server as that nick change |
| Cliente.ServidorLePvt | chatradical-client.rb:268-270 | `/msg` reaches the server as that private message |
| Cliente.ServidorLeLog | chatradical-client.rb:260-262 | `/log` reaches the server as a log request for the typed tail, or for the default 30 when none is typed |
| Cliente.ServidorEntende | chatradical-client.rb:165-275 | every line `UserCMD` sends is classified by the server as the command the user typed |
| Cliente.ErroOuOk | chatradical-client.rb:90-112 | `(ERR (.+)\|OK (.+))$`: an error message or a value, never empty |
| Cliente.ErroOuSala | chatradical-client.rb:79-88 | an error, or a room name of word characters running to the end of the line |
| Cliente.RecebeInfoChn | chatradical-client.rb:114-124 | room information is a valid name and a non-empty description, exactly as the server's reply spells them |
| Cliente.RecebimentoDoServer | chatradical-client.rb:77-163 | a room change, room information, log line or chat message is read only from the line that spells it |
| Cliente.RecebeMudanca | chatradical-client.rb:79-88 | the server's join reply is read as a move to that room, returning 0 |
| Cliente.RecebeErroDeEntrada | chatradical-client.rb:79-88 | any join error is reported with its message and returns 1 |
| Cliente.RecebeSalas | chatradical-client.rb:90-100 | the server's room list is read back entry by entry, when no entry holds a bar and the last is not empty |
| Cliente.JuntarComBarra | chatradical-server.rb:190-195 | `CMD_JOINCHN x a` followed by a bar and `b` asks for room `x` with a description that holds the bar |
| Cliente.DescricaoComBarra | chatradical-client.rb:90-100 | the list entry of a room whose description holds a bar comes back to the client as two entries |
| Cliente.RecebeMembros | chatradical-client.rb:102-112 | the server's member list is read back as exactly the nicks |
| Cliente.RecebeInformacoes | chatradical-client.rb:114-124 | the server's room information is read back as that name and description |
| Cliente.RecebeNick | chatradical-client.rb:126-136 | `RCV_NICK OK` is a nick change and an `ERR` reply is an error, with its message |
| Cliente.NickSemAncora | chatradical-client.rb:126-136 | the unanchored pattern also accepts anything after `RCV_NICK OK` |
| Cliente.RecebePvt | chatradical-client.rb:138-148 | `RCV_PVT OK` is a sent message and an `ERR` reply is an error, with its message |
| Cliente.RecebeErrosDoServidor | chatradical-client.rb:77-163 | the server's join, nick and private-message errors are all reported as errors with their messages |
| Cliente.RecebeChat | chatradical-client.rb:157-162 | a pushed room line is shown as exactly that line |
| Cliente.RecebeLog | chatradical-client.rb:150-155 | a log reply is shown as the log line with its `[LOG]` mark |
| Cliente.Ignoradas | chatradical-client.rb:77-163 | `RCV_CHAT OK` and the server's `ERR_CMD` lines match no test and are ignored |
| Cliente.LerRespostaConn | chatradical-client.rb:41-48 | a retry carries the server's non-empty reason; a connection carries a non-empty decimal id; anything not starting with `RCV_CONN ` fails |
| Cliente.ConexaoAceita | chatradical-client.rb:41-48 | the server's acceptance is read as connected, with an id that reads back as the server's number |
| Cliente.ConexaoRecusada | chatradical-client.rb:41-48 | a refusal with any message makes the client show it and ask again |
| Cliente.RecusasDoServidor | chatradical-client.rb:41-48 | both of the server's refusals (nick taken, bad syntax) make the client ask again |
| Cliente.ServidorLeConexao | chatradical-client.rb:37 | the handshake line for a valid nick and name registers exactly them |

## Left out

- Sockets, threads, `TCPServer`, `readline` and the console are not modelled. Sockets are connection ids, writes are `Escrita` values, and each read line is a parameter. Concurrent threads sharing the server's tables are not modelled: each operation runs whole.
- The clock is left out: the `[HH:MM:SS] ` prefix is the parameter `ts`.
- Reading `motd.txt` is left out: its contents, or its absence, are the parameter `motd`.
- `@descriptors` is left out: it is pushed to and deleted from but never read.
- `ClienteDesconectar`'s `close` appears only as the connection leaving the open set.
- `pegar_descricao_de_sala_por_nome` is left out: nothing calls it.
- The server's start-up messages and `rescue` blocks are left out, as is the `Interrupt` handler.
- Servidor.ChatRadicalServer.constructor: does not model a port that cannot be opened.
- The client's console output is left out. This covers `CliAjuda`'s help text (only `TelaDeAjuda` is modelled), the list printing of `CliListaSalas` and `CliListaUsuariosSala` beyond the split, `CliShowMotd`, `CliErro`'s colours, and the `Listener` thread and its loop.
- Cliente.LerRespostaConn: covers `Conectar`'s reading of one reply. It does not model the loop that asks for a nick again or the socket's `rescue` in `initialize`. A reply that matches no alternative, which raises in Ruby, is modelled as `Falha`.
- Cliente.UserCMD: `Desconectar`'s closing of the socket after `/quit` is not modelled. The model keeps only the `QUIT` line sent.
- Servidor.ChatRadicalServer.MudarDeSala: one `ts` stamps both the departure and the arrival notices. Ruby reads the clock once for each `ChatNotice`, so the two prefixes can differ by a second.
- Cliente.RecebeSalas: promises the room list back only when no entry holds a bar. A description may hold one (`CMD_JOINCHN` takes any text), and then the client splits that entry in two, as `DescricaoComBarra` shows.
- Unicode case folding is left out: only ASCII letters fold for `/i`. Every keyword and class in the protocol is ASCII.

## Findings

| source | as written | input that shows it | evidently intended | confidence | as-written member | corrected member |
|---|---|---|---|---|---|---|
| chatradical-server.rb:35-39 | `@nicks.sort()` sorts `Usuario` objects, which define no `<=>`. Ruby's default comparison answers only for an object against itself, so the sort raises `ArgumentError` once two different users are in the list | a second user registers while another is in `default`: the sort raises inside `ClienteConectar` and the new connection is dropped after `RCV_MOTD OK` | the nick list sorted by nick | not executed | Servidor.SegundoMembroComoEscrito | Servidor.Sala.AdicionarMembro |
