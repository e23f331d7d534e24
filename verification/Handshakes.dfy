/** What an accepted handshake does to TeamSpeak and to the session when TeamSpeak answers every
    call, and what becomes of the output mute when it does not let the user move. */
module Handshakes {
  import opened Common
  import opened IdSets
  import opened TeamSpeak
  import opened Bookkeeping
  import opened MuteAgreement
  import opened Protocol
  import opened Session

  /** The user is connected to server `h` under a usable id. */
  ghost predicate Usable(e: Env, h: U64) {
    h != 0 && h in e.servers && e.servers[h].connected && e.servers[h].ownId != 0
  }

  /** `r` is `b` with server `h` now being `server`, after some calls. */
  ghost predicate Became(b: Book, r: Book, cache: set<U16>, server: Server) {
    && r == b.(cache := cache, env := r.env)
    && r.env == b.env.(calls := r.env.calls, memory := r.env.memory, servers := b.env.servers[b.handle := server])
  }

  lemma OutputSwitched(b: Book, muted: bool)
    requires AllGood(b.env) && OnServer(b)
    ensures var server := b.env.servers[b.handle];
            var variables := server.local.(outputMuted := muted);
            Became(b, SetOutputMuted(b, b.handle, muted).book, b.cache, server.(local := variables, published := variables))
  {
  }

  lemma Moved(b: Book, channel: U64)
    requires AllGood(b.env) && Usable(b.env, b.handle)
    ensures MoveToChannel(b, channel).value
    ensures Became(b, MoveToChannel(b, channel).book, b.cache, b.env.servers[b.handle].(channel := channel))
  {
  }

  lemma OneMuted(b: Book, id: U16)
    requires AllGood(b.env) && OnServer(b) && id != 0
    ensures Became(b, MuteClients(b, {id}, true).book, b.cache + {id},
                   b.env.servers[b.handle].(muted := Muted(b) + {id}))
  {
  }

  lemma {:induction false} EachMuted(b: Book, clients: seq<U16>)
    requires AllGood(b.env) && OnServer(b) && 0 !in clients
    ensures Became(b, MuteEach(b, clients, true), b.cache + Elements(clients),
                   b.env.servers[b.handle].(muted := Muted(b) + Elements(clients)))
    decreases |clients|
  {
    ElementsSplit(clients);
    hide MuteClients, Elements;
    if clients == [] {
      assert b.env.servers[b.handle := b.env.servers[b.handle]] == b.env.servers;
      assert Muted(b) + {} == Muted(b) && b.cache + {} == b.cache;
    } else {
      var muted := MuteClients(b, {clients[0]}, true).book;
      OneMuted(b, clients[0]);
      EachMuted(muted, clients[1..]);
      var rest := Elements(clients[1..]);
      assert b.cache + {clients[0]} + rest == b.cache + Elements(clients);
      assert Muted(b) + {clients[0]} + rest == Muted(b) + Elements(clients);
    }
  }

  lemma ElementsSplit(clients: seq<U16>)
    ensures Elements(clients) == if clients == [] then {} else {clients[0]} + Elements(clients[1..])
  {
    assert clients != [] ==> clients == [clients[0]] + clients[1..];
  }

  /** The ids TeamSpeak lists for a channel. */
  function MembersOf(e: Env, h: U64, channel: U64): set<U16>
    requires h in e.servers
  {
    Elements(Listed(e.Members(h, channel)))
  }

  lemma ChannelMuted(b: Book, channel: U64, tempMute: bool)
    requires AllGood(b.env) && OnServer(b)
    ensures var server := b.env.servers[b.handle];
            var ids := MembersOf(b.env, b.handle, channel);
            var variables := server.local.(outputMuted := false);
            Became(b, MuteChannel(b, channel, tempMute), b.cache + ids,
                   server.(muted := Muted(b) + ids,
                           local := if tempMute then variables else server.local,
                           published := if tempMute then variables else server.published))
  {
    hide MuteEach, SetOutputMuted, ClientsInChannel, MembersOf;
    var clients := ClientsInChannel(b, channel);
    MembersListed(b, channel);
    EachMuted(clients.book, clients.value);
    var muted := MuteEach(clients.book, clients.value, true);
    if tempMute {
      OutputSwitched(muted, false);
    } else {
      var server := b.env.servers[b.handle];
      var joined := server.(muted := Muted(b) + Elements(clients.value));
      assert joined == joined.(local := server.local, published := server.published);
    }
  }

  lemma MembersListed(b: Book, channel: U64)
    requires AllGood(b.env) && OnServer(b)
    ensures Elements(ClientsInChannel(b, channel).value) == MembersOf(b.env, b.handle, channel)
  {
    assert ClientsInChannel(b, channel).value == InsertAll([], Listed(b.env.Members(b.handle, channel)));
  }

  /** The plugin mutes the output for the move exactly when it is neither muted nor disabled. */
  predicate NeedsTempMute(server: Server) {
    !server.outputDisabled && !server.published.outputMuted
  }

  lemma MovePrepared(b: Book)
    requires AllGood(b.env) && Usable(b.env, b.handle)
    ensures var server := b.env.servers[b.handle];
            var variables := server.local.(outputMuted := true);
            var r := PrepareMove(b);
            && r.lastChannelId == server.channel && r.tempMute == NeedsTempMute(server)
            && Became(b, r.book, b.cache,
                      if NeedsTempMute(server) then server.(local := variables, published := variables) else server)
  {
    var channel := ChannelId(b.env, b.handle);
    var output := IsOutputMuted(channel.env, b.handle);
    assert b.env.servers[b.handle := b.env.servers[b.handle]] == b.env.servers;
    if !output.value {
      OutputSwitched(b.(env := output.env), true);
    }
    hide SetOutputMuted;
  }

  lemma GameEntered(s: State, lastChannelId: U64)
    requires AllGood(s.book.env) && Usable(s.book.env, s.book.handle)
    ensures var r := EnterGame(s, lastChannelId);
            && r.link == s.link && r.lastChannelId == lastChannelId
            && r.teamspeakId == s.book.env.servers[s.book.handle].ownId
            && r.book == s.book.(env := r.book.env)
            && r.book.env == s.book.env.(calls := r.book.env.calls, memory := r.book.env.memory)
  {
    hide Send;
  }

  /** The server after an accepted handshake: the user in the game channel, its listed members muted
      on top of whoever was, the output as it was. */
  function Joined(server: Server, ids: set<U16>, channel: U64): Server {
    var variables := server.local.(outputMuted := false);
    server.(channel := channel,
            muted := server.muted + ids,
            local := if NeedsTempMute(server) then variables else server.local,
            published := if NeedsTempMute(server) then variables else server.published)
  }

  /** Composition of the moves of one handshake, on the book alone. */
  lemma JoinedExact(b: Book, channel: U64)
    requires AllGood(b.env) && Usable(b.env, b.handle)
    ensures var departure := PrepareMove(b);
            var moved := MoveToChannel(departure.book, channel);
            var ids := MembersOf(b.env, b.handle, channel);
            && departure.lastChannelId == b.env.servers[b.handle].channel
            && moved.value
            && Became(b, MuteChannel(moved.book, channel, departure.tempMute), b.cache + ids,
                      Joined(b.env.servers[b.handle], ids, channel))
  {
    hide PrepareMove, MoveToChannel, MuteChannel;
    MovePrepared(b);
    var departure := PrepareMove(b);
    Moved(departure.book, channel);
    var moved := MoveToChannel(departure.book, channel).book;
    ChannelMuted(moved, channel, departure.tempMute);
    assert MembersOf(moved.env, b.handle, channel) == MembersOf(b.env, b.handle, channel);
    var server := b.env.servers[b.handle];
    assert moved.env.servers[b.handle].muted == server.muted;
  }

  /** An accepted handshake, call by call answered: the session knows the user's id and the channel
      to come back to, and on the chosen server the user has joined the game channel. */
  lemma HandshakeExact(s: State, p: Packet)
    requires p.HandshakeResponse? && p.statusCode == STATUS_CODE_OK && AllGood(s.book.env)
    requires var v := VerifyServer(s.book, p.serverUid); v.value && Usable(s.book.env, v.book.handle)
    ensures var h := VerifyServer(s.book, p.serverUid).book.handle;
            var server := s.book.env.servers[h];
            var ids := MembersOf(s.book.env, h, p.channelId);
            var r := OnHandshakeResponse(s, p);
            && r.link == s.link
            && r.teamspeakId == server.ownId
            && r.lastChannelId == server.channel
            && Became(s.book.(handle := h), r.book, s.book.cache + ids, Joined(server, ids, p.channelId))
  {
    var v := VerifyServer(s.book, p.serverUid).book;
    hide VerifyServer, PrepareMove, MoveToChannel, MuteChannel, EnterGame, Joined, MembersOf;
    SearchKeepsServers(s.book, p.serverUid);
    JoinedExact(v, p.channelId);
    MembersUnmoved(s.book, v, p.channelId);
    var departure := PrepareMove(v);
    var moved := MoveToChannel(departure.book, p.channelId).book;
    var muted := MuteChannel(moved, p.channelId, departure.tempMute);
    JoinedUsable(v.env.servers[v.handle], MembersOf(v.env, v.handle, p.channelId), p.channelId);
    GameEntered(s.(book := muted), departure.lastChannelId);
  }

  lemma MembersNonzero(e: Env, h: U64, channel: U64)
    requires h in e.servers
    ensures 0 !in MembersOf(e, h, channel)
  {
  }

  lemma MembersUnmoved(b: Book, v: Book, channel: U64)
    requires v.env == b.env.(calls := v.env.calls, memory := v.env.memory) && v.handle in b.env.servers
    ensures MembersOf(v.env, v.handle, channel) == MembersOf(b.env, v.handle, channel)
  {
  }

  lemma JoinedUsable(server: Server, ids: set<U16>, channel: U64)
    ensures Joined(server, ids, channel).connected == server.connected
    ensures Joined(server, ids, channel).ownId == server.ownId
  {
  }

  lemma RefusedHandshake(s: State, p: Packet)
    requires p.HandshakeResponse? && p.statusCode != STATUS_CODE_OK
    ensures OnHandshakeResponse(s, p) == s
  {
  }

  lemma SearchKeepsServers(b: Book, uid: Text)
    ensures var v := VerifyServer(b, uid).book;
            && v == b.(handle := v.handle, env := v.env)
            && v.env == b.env.(calls := v.env.calls, memory := v.env.memory)
            && (VerifyServer(b, uid).value ==>
                  v.handle != 0 && v.handle in b.env.servers && b.env.servers[v.handle].uid == uid)
            && (!VerifyServer(b, uid).value && b.env.answers(b.env.calls) ==> v.handle == 0)
  {
  }

  // ---------- the output ----------

  /** Whether the published output of server `h` is muted. */
  predicate OutputOff(e: Env, h: U64)
    requires h in e.servers
  {
    e.servers[h].published.outputMuted
  }

  /** The output is switched off for the move, and TeamSpeak takes both the setting and its flush. */
  predicate SwitchedOff(b: Book) {
    var asked := b.(env := IsOutputMuted(ChannelId(b.env, b.handle).env, b.handle).env);
    PrepareMove(b).tempMute && SetOutputMuted(asked, b.handle, true).value
  }

  /** The move is answered, and so are the setting and the flush that switch the output back on. */
  predicate SwitchedOn(departure: Departure, channel: U64) {
    var moved := MoveToChannel(departure.book, channel);
    var clients := ClientsInChannel(moved.book, channel);
    var muted := MuteEach(clients.book, clients.value, true);
    departure.tempMute && moved.value && SetOutputMuted(muted, muted.handle, false).value
  }

  /** The same server is chosen, and the output there is as it was. */
  ghost predicate SameOutput(b: Book, r: Book) {
    && r.handle == b.handle && OnServer(b) && OnServer(r)
    && OutputOff(r.env, r.handle) == OutputOff(b.env, b.handle)
  }

  lemma SwitchExact(b: Book, muted: bool)
    requires OnServer(b)
    ensures var r := SetOutputMuted(b, b.handle, muted);
            && OnServer(r.book) && r.book.handle == b.handle
            && OutputOff(r.book.env, b.handle) == if r.value then muted else OutputOff(b.env, b.handle)
  {
  }

  lemma PrepareOutput(b: Book)
    requires OnServer(b)
    ensures var r := PrepareMove(b).book;
            && OnServer(r) && r.handle == b.handle
            && OutputOff(r.env, r.handle) == (OutputOff(b.env, b.handle) || SwitchedOff(b))
  {
    hide ChannelId, SetOutputMuted, IsOutputMuted;
    SwitchExact(b.(env := IsOutputMuted(ChannelId(b.env, b.handle).env, b.handle).env), true);
  }

  lemma {:induction false} MutingKeepsOutput(b: Book, clients: seq<U16>)
    requires OnServer(b)
    ensures SameOutput(b, MuteEach(b, clients, true))
    decreases |clients|
  {
    if clients != [] {
      MutingKeepsOutput(MuteClients(b, {clients[0]}, true).book, clients[1..]);
    }
  }

  lemma MovingKeepsOutput(b: Book, channel: U64)
    requires OnServer(b)
    ensures SameOutput(b, MoveToChannel(b, channel).book)
  {
  }

  lemma JoiningOutput(departure: Departure, channel: U64)
    requires OnServer(departure.book)
    ensures var moved := MoveToChannel(departure.book, channel);
            var r := MuteChannel(moved.book, channel, departure.tempMute);
            moved.value ==>
              && OnServer(r) && r.handle == departure.book.handle
              && OutputOff(r.env, r.handle) ==
                   (OutputOff(departure.book.env, departure.book.handle) && !SwitchedOn(departure, channel))
  {
    hide MoveToChannel, ClientsInChannel, SetOutputMuted, MuteEach;
    var moved := MoveToChannel(departure.book, channel);
    MovingKeepsOutput(departure.book, channel);
    var clients := ClientsInChannel(moved.book, channel);
    MutingKeepsOutput(clients.book, clients.value);
    SwitchExact(MuteEach(clients.book, clients.value, true), false);
  }

  lemma GreetingKeepsOutput(s: State, code: I32, lastChannelId: U64)
    requires OnServer(s.book)
    ensures SameOutput(s.book, SendHandshake(s, code).book)
    ensures SameOutput(s.book, EnterGame(s, lastChannelId).book)
  {
    hide Send, IsInputMuted, IsOutputMuted, ClientId;
  }

  /** The output after an OK response for a server that is found, whatever calls TeamSpeak refuses: off
      if it was off before or has been switched off for the move, unless it has been switched on
      again. So it is as before exactly when it was on and has not been switched off or been switched
      on again, or was off and has not been switched on. */
  lemma OutputExact(s: State, p: Packet)
    requires p.HandshakeResponse? && p.statusCode == STATUS_CODE_OK
    requires VerifyServer(s.book, p.serverUid).value
    ensures var v := VerifyServer(s.book, p.serverUid).book;
            var r := OnHandshakeResponse(s, p).book;
            && v.handle in s.book.env.servers && v.handle in r.env.servers
            && var was, now := OutputOff(s.book.env, v.handle), OutputOff(r.env, v.handle);
            var off, on := SwitchedOff(v), SwitchedOn(PrepareMove(v), p.channelId);
            && now == ((was || off) && !on)
            && (now == was <==> if was then !on else !off || on)
  {
    SearchKeepsServers(s.book, p.serverUid);
    hide VerifyServer, PrepareMove, MoveToChannel, MuteChannel, SendHandshake, EnterGame, SwitchedOff, SwitchedOn;
    var v := VerifyServer(s.book, p.serverUid).book;
    PrepareOutput(v);
    var departure := PrepareMove(v);
    MovingKeepsOutput(departure.book, p.channelId);
    JoiningOutput(departure, p.channelId);
    var moved := MoveToChannel(departure.book, p.channelId);
    if !moved.value {
      OnNeedsMove(departure, p.channelId);
      GreetingKeepsOutput(s.(book := moved.book), STATUS_CODE_NOT_MOVED_TO_CHANNEL, 0);
    } else {
      GreetingKeepsOutput(s.(book := MuteChannel(moved.book, p.channelId, departure.tempMute)), 0, departure.lastChannelId);
    }
  }

  lemma OnNeedsMove(departure: Departure, channel: U64)
    ensures SwitchedOn(departure, channel) ==> MoveToChannel(departure.book, channel).value
  {
    hide MoveToChannel, ClientsInChannel, MuteEach, SetOutputMuted;
  }

  /** When TeamSpeak refuses the move, the handshake stops where it is: output the plugin has switched
      off stays off. */
  lemma RefusedMoveKeepsOutputMuted(s: State, p: Packet)
    requires p.HandshakeResponse? && p.statusCode == STATUS_CODE_OK
    requires VerifyServer(s.book, p.serverUid).value
    requires !MoveToChannel(PrepareMove(VerifyServer(s.book, p.serverUid).book).book, p.channelId).value
    ensures var v := VerifyServer(s.book, p.serverUid).book;
            var r := OnHandshakeResponse(s, p).book;
            && v.handle in s.book.env.servers && v.handle in r.env.servers
            && OutputOff(r.env, v.handle) == (OutputOff(s.book.env, v.handle) || SwitchedOff(v))
  {
    hide VerifyServer, PrepareMove, MoveToChannel, OnHandshakeResponse, SwitchedOff, SwitchedOn;
    OutputExact(s, p);
    OnNeedsMove(PrepareMove(VerifyServer(s.book, p.serverUid).book), p.channelId);
  }

  /** After an accepted handshake with every call answered the output is muted exactly if it was
      before. */
  lemma AcceptedMoveRestoresOutput(s: State, p: Packet)
    requires p.HandshakeResponse? && p.statusCode == STATUS_CODE_OK && AllGood(s.book.env)
    requires var v := VerifyServer(s.book, p.serverUid); v.value && Usable(s.book.env, v.book.handle)
    ensures var h := VerifyServer(s.book, p.serverUid).book.handle;
            var r := OnHandshakeResponse(s, p);
            && h in r.book.env.servers
            && r.book.env.servers[h].published.outputMuted == s.book.env.servers[h].published.outputMuted
  {
    HandshakeExact(s, p);
    hide VerifyServer, OnHandshakeResponse, MembersOf;
  }

  /** A new client beside a user alone on a server. */
  function LoneState(answers: nat -> bool, outputMuted: bool): State {
    Initial(0, Book(0, {}, [], LoneEnv(answers, outputMuted)))
  }

  /** Accepted, into channel `channel` of the server above. */
  function Welcome(channel: U64): Packet {
    HandshakeResponse(STATUS_CODE_OK, [], [], channel, [])
  }

  lemma LoneSearch(answers: nat -> bool, outputMuted: bool)
    requires answers(0) && answers(1)
    ensures var b := LoneState(answers, outputMuted).book;
            var v := VerifyServer(b, []);
            && v.value && v.book == b.(handle := 1, env := v.book.env)
            && v.book.env == b.env.(calls := 2, memory := v.book.env.memory)
  {
    var b := LoneState(answers, outputMuted).book;
    assert b.env.handles + [0] == [1, 0];
  }

  /** A user who has muted his output, and whose output TeamSpeak does not report when asked (call 5),
      hears again after the handshake. */
  lemma RefusedOutputQueryUnmutes()
    ensures var s := LoneState(n => n != 5, true);
            var r := OnHandshakeResponse(s, Welcome(9)).book;
            1 in r.env.servers && OutputOff(s.book.env, 1) && !OutputOff(r.env, 1)
  {
    var s := LoneState(n => n != 5, true);
    LoneSearch(n => n != 5, true);
    var v := VerifyServer(s.book, []).book;
    var asked := v.(env := v.env.(calls := 6));
    assert ChannelId(v.env, 1) == Answer(v.env.(calls := 5), 7);
    assert IsOutputMuted(v.env.(calls := 5), 1) == Answer(asked.env, false);
    OutputExact(s, Welcome(9));
    hide OnHandshakeResponse, VerifyServer, ChannelId, IsOutputMuted;
    var departure := PrepareMove(v);
    assert departure.tempMute && departure.book == SetOutputMuted(asked, 1, true).book;
    SetsOutput(asked, true);
    MovesAlone(departure.book);
  }

  lemma SetsOutput(b: Book, muted: bool)
    requires OnServer(b) && b.env.answers(b.env.calls) && b.env.answers(b.env.calls + 1)
    ensures var r := SetOutputMuted(b, b.handle, muted);
            && r.value && r.book == b.(env := r.book.env)
            && r.book.env == b.env.(calls := b.env.calls + 2, servers := r.book.env.servers)
            && r.book.env.servers[b.handle] ==
                 b.env.servers[b.handle].(local := r.book.env.servers[b.handle].local,
                                          published := r.book.env.servers[b.handle].published)
  {
  }

  /** Alone in the channel, a user with answered calls is moved and hears again. */
  lemma MovesAlone(b: Book)
    requires Usable(b.env, b.handle) && b.env.servers[b.handle].members == map[]
    requires forall n: nat | b.env.calls <= n :: b.env.answers(n)
    ensures SwitchedOn(Departure(b, 7, true), 9)
  {
    var moved := MoveToChannel(b, 9);
    assert moved.value;
    var clients := ClientsInChannel(moved.book, 9);
    assert clients.value == [];
    hide MoveToChannel, ClientsInChannel, SetOutputMuted;
  }

  /** What the user's client reports about itself on a server. */
  function VoiceOn(server: Server, talking: bool): Voice {
    Voice(talking,
          server.inputDisabled || server.inputDeactivated || server.inputMuted,
          server.outputDisabled || server.published.outputMuted)
  }

  /** The status code a handshake response is answered with: no server, no channel, or OK. */
  function ReplyCode(b: Book, p: Packet): I32
    requires p.HandshakeResponse?
  {
    var verified := VerifyServer(b, p.serverUid);
    if !verified.value then STATUS_CODE_NOT_CONNECTED_TO_SERVER
    else if !MoveToChannel(PrepareMove(verified.book).book, p.channelId).value then STATUS_CODE_NOT_MOVED_TO_CHANNEL
    else STATUS_CODE_OK
  }

  /** The book when a refusal is sent: after the search that failed, or after the move that failed. */
  function RefusedBook(b: Book, p: Packet): Book
    requires p.HandshakeResponse?
  {
    var verified := VerifyServer(b, p.serverUid);
    if !verified.value then verified.book
    else MoveToChannel(PrepareMove(verified.book).book, p.channelId).book
  }

  /** What a handshake adds to the trace: itself, if it can be archived. */
  lemma ReplySent(s: State, code: I32)
    ensures var reply := Handshake(s.link.gameId, s.teamspeakId, code, ClientIdentity(s.book).value);
            SendHandshake(s, code).log ==
              if Archivable(reply) then s.log + [Sent(HANDSHAKE_CHANNEL, SerializePacket(reply))] else s.log
  {
    hide SerializePacket;
  }

  /** Whatever TeamSpeak answers, an OK response that is not followed into the game is answered, once,
      with the code that says why and the user's identity, and the session is not in game because of
      it. Only a reply that cannot be archived is not sent. */
  lemma RefusalAnswered(s: State, p: Packet)
    requires p.HandshakeResponse? && p.statusCode == STATUS_CODE_OK && ReplyCode(s.book, p) != STATUS_CODE_OK
    ensures var r := OnHandshakeResponse(s, p);
            var identity := ClientIdentity(RefusedBook(s.book, p)).value;
            var reply := Handshake(s.link.gameId, s.teamspeakId, ReplyCode(s.book, p), identity);
            && r.teamspeakId == s.teamspeakId && r.lastChannelId == s.lastChannelId && r.voice == s.voice
            && r.log == if Archivable(reply) then s.log + [Sent(HANDSHAKE_CHANNEL, SerializePacket(reply))] else s.log
  {
    hide VerifyServer, PrepareMove, MoveToChannel, SendHandshake, SerializePacket, ClientIdentity;
    var verified := VerifyServer(s.book, p.serverUid);
    var moved := MoveToChannel(PrepareMove(verified.book).book, p.channelId);
    ReplySent(s.(book := verified.book), STATUS_CODE_NOT_CONNECTED_TO_SERVER);
    ReplySent(s.(book := moved.book), STATUS_CODE_NOT_MOVED_TO_CHANNEL);
    SendHandshakeFrame(s.(book := verified.book), STATUS_CODE_NOT_CONNECTED_TO_SERVER);
    SendHandshakeFrame(s.(book := moved.book), STATUS_CODE_NOT_MOVED_TO_CHANNEL);
  }

  lemma SendHandshakeFrame(s: State, code: I32)
    ensures var r := SendHandshake(s, code); r == s.(book := r.book, log := r.log)
  {
    hide ClientIdentity, Send;
  }
}
