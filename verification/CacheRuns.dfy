/** The mute cache over whole runs of the session, with TeamSpeak refusing whatever it likes. */
module CacheRuns {
  import opened Common
  import opened IdSets
  import opened TeamSpeak
  import opened Bookkeeping
  import opened MuteAgreement
  import opened NicknameSaver
  import opened Protocol
  import opened Session
  import opened Lifecycle
  import opened Shutdown
  import opened Handshakes
  import opened UpdateBatches

  /** The plugin works with server `h` or with none, and believes nobody muted who is not; if `exact`,
      it also knows everybody who is. */
  ghost predicate Within(b: Book, h: U64, exact: bool) {
    && (b.handle == 0 || b.handle == h)
    && h != 0 && h in b.env.servers
    && 0 !in b.cache && b.cache <= b.env.servers[h].muted
    && (exact ==> b.cache == b.env.servers[h].muted)
  }

  // ---------- single operations ----------

  lemma QuietWithin(b: Book, r: Book, h: U64, exact: bool)
    requires Within(b, h, exact) && OnlyPositions(b, r)
    ensures Within(r, h, exact)
  {
  }

  lemma NamesWithin(b: Book, r: Book, h: U64, exact: bool)
    requires Within(b, h, exact) && OnlyNames(b, r)
    ensures Within(r, h, exact)
  {
  }

  lemma MutesWithin(b: Book, clients: set<U16>, mute: bool, h: U64, exact: bool)
    requires Within(b, h, exact) && 0 !in clients
    ensures Within(MuteClients(b, clients, mute).book, h, exact)
    ensures MuteClients(b, clients, mute).book.handle == b.handle
  {
  }

  lemma UnmuteAllWithin(b: Book, h: U64, exact: bool)
    requires Within(b, h, exact) && (exact ==> UnmuteAllClients(b).value)
    ensures Within(UnmuteAllClients(b).book, h, exact)
  {
  }

  lemma {:induction false} EachWithin(b: Book, clients: seq<U16>, h: U64, exact: bool)
    requires Within(b, h, exact) && 0 !in clients
    ensures Within(MuteEach(b, clients, true), h, exact)
    decreases |clients|
  {
    hide MuteClients, Within;
    if clients != [] {
      MutesWithin(b, {clients[0]}, true, h, exact);
      EachWithin(MuteClients(b, {clients[0]}, true).book, clients[1..], h, exact);
    }
  }

  lemma MoveWithin(b: Book, channel: U64, h: U64, exact: bool)
    requires Within(b, h, exact)
    ensures Within(MoveToChannel(b, channel).book, h, exact)
  {
  }

  lemma OutputWithin(b: Book, muted: bool, h: U64, exact: bool)
    requires Within(b, h, exact)
    ensures Within(SetOutputMuted(b, b.handle, muted).book, h, exact)
  {
    NextOnly(b.env, b.handle);
    if b.handle in b.env.servers {
      var variables := b.env.servers[b.handle].local.(outputMuted := muted);
      SetLocalOnly(b.env, b.handle, variables);
      var e := b.env.SetLocal(b.handle, variables).env;
      FlushOnly(e, b.handle);
      OnlyVariablesTransitive(b.env, e, e.Flush(b.handle).env, b.handle);
    }
    hide Env.SetLocal, Env.Flush, OnlyVariables;
    assert OnlyNames(b, SetOutputMuted(b, b.handle, muted).book);
    NamesWithin(b, SetOutputMuted(b, b.handle, muted).book, h, exact);
  }

  lemma AskingWithin(b: Book, k: U64, channel: U64, h: U64, exact: bool)
    requires Within(b, h, exact)
    ensures Within(b.(env := ClientId(b.env, k).env), h, exact)
    ensures Within(b.(env := ChannelId(b.env, k).env), h, exact)
    ensures Within(b.(env := IsInputMuted(b.env, k).env), h, exact)
    ensures Within(b.(env := IsOutputMuted(b.env, k).env), h, exact)
    ensures Within(ClientsInChannel(b, channel).book, h, exact)
    ensures Within(ClientIdentity(b).book, h, exact)
  {
    hide ClientId, ChannelId, IsInputMuted, IsOutputMuted, ClientsInChannel;
  }

  // ---------- composites ----------

  /** The way home does not have its unmute-everybody request refused. */
  predicate Heard(last: U64, b: Book) {
    last != 0 && b.handle != 0 ==>
      var channel := ChannelId(b.env, b.handle);
      var moved := MoveToChannel(b.(env := channel.env), last);
      channel.value != last && moved.value ==> UnmuteAllClients(ResetPositions(moved.book)).value
  }

  lemma GoHomeWithin(last: U64, b: Book, h: U64, exact: bool)
    requires Within(b, h, exact) && (exact ==> Heard(last, b))
    ensures Within(GoHome(last, b).book, h, exact)
  {
    hide ChannelId, MoveToChannel, ResetPositions, UnmuteAllClients, ResetNickname, Within, OnlyPositions, OnlyNames;
    AskingWithin(b, b.handle, 0, h, exact);
    var asked := b.(env := ChannelId(b.env, b.handle).env);
    MoveWithin(asked, last, h, exact);
    var moved := MoveToChannel(asked, last).book;
    ResetPositionsIsQuiet(moved);
    var placed := ResetPositions(moved);
    QuietWithin(moved, placed, h, exact);
    if !exact || UnmuteAllClients(placed).value {
      UnmuteAllWithin(placed, h, exact);
      var unmuted := UnmuteAllClients(placed).book;
      ResetTouchesNames(unmuted);
      NamesWithin(unmuted, ResetNickname(unmuted).book, h, exact);
    }
  }

  lemma SendHandshakeWithin(s: State, code: I32, h: U64, exact: bool)
    requires Within(s.book, h, exact)
    ensures Within(SendHandshake(s, code).book, h, exact)
  {
    hide ClientIdentity, Send, Within;
    AskingWithin(s.book, 0, 0, h, exact);
  }

  lemma EnterGameWithin(s: State, last: U64, h: U64, exact: bool)
    requires Within(s.book, h, exact)
    ensures Within(EnterGame(s, last).book, h, exact)
  {
    hide ClientId, IsInputMuted, IsOutputMuted, SendHandshake, Send, Within;
    AskingWithin(s.book, s.book.handle, 0, h, exact);
    var id := ClientId(s.book.env, s.book.handle);
    var known := s.(teamspeakId := id.value, lastChannelId := last, book := s.book.(env := id.env));
    SendHandshakeWithin(known, STATUS_CODE_OK, h, exact);
    var greeted := SendHandshake(known, STATUS_CODE_OK).book;
    AskingWithin(greeted, greeted.handle, 0, h, exact);
    var asked := greeted.(env := IsInputMuted(greeted.env, greeted.handle).env);
    AskingWithin(asked, greeted.handle, 0, h, exact);
  }

  lemma MuteChannelWithin(b: Book, channel: U64, tempMute: bool, h: U64, exact: bool)
    requires Within(b, h, exact)
    ensures Within(MuteChannel(b, channel, tempMute), h, exact)
  {
    hide ClientsInChannel, MuteEach, SetOutputMuted, Within;
    AskingWithin(b, 0, channel, h, exact);
    var clients := ClientsInChannel(b, channel);
    EachWithin(clients.book, clients.value, h, exact);
    OutputWithin(MuteEach(clients.book, clients.value, true), false, h, exact);
  }

  lemma PrepareMoveWithin(b: Book, h: U64, exact: bool)
    requires Within(b, h, exact)
    ensures Within(PrepareMove(b).book, h, exact)
  {
    hide ChannelId, IsOutputMuted, SetOutputMuted, Within;
    AskingWithin(b, b.handle, 0, h, exact);
    var asked := b.(env := ChannelId(b.env, b.handle).env);
    AskingWithin(asked, b.handle, 0, h, exact);
    OutputWithin(asked.(env := IsOutputMuted(asked.env, b.handle).env), true, h, exact);
  }

  lemma HandshakeWithin(s: State, p: Packet, h: U64, exact: bool)
    requires Within(s.book, h, exact) && p.HandshakeResponse?
    requires VerifyServer(s.book, p.serverUid).book.handle in {0, h}
    ensures Within(OnHandshakeResponse(s, p).book, h, exact)
  {
    if p.statusCode == STATUS_CODE_OK {
      SearchKeepsServers(s.book, p.serverUid);
      var verified := VerifyServer(s.book, p.serverUid);
      assert Within(verified.book, h, exact);
      hide VerifyServer, PrepareMove, MoveToChannel, MuteChannel, EnterGame, SendHandshake, Within;
      SendHandshakeWithin(s.(book := verified.book), STATUS_CODE_NOT_CONNECTED_TO_SERVER, h, exact);
      PrepareMoveWithin(verified.book, h, exact);
      var departure := PrepareMove(verified.book);
      MoveWithin(departure.book, p.channelId, h, exact);
      var moved := MoveToChannel(departure.book, p.channelId);
      SendHandshakeWithin(s.(book := moved.book), STATUS_CODE_NOT_MOVED_TO_CHANNEL, h, exact);
      MuteChannelWithin(moved.book, p.channelId, departure.tempMute, h, exact);
      EnterGameWithin(s.(book := MuteChannel(moved.book, p.channelId, departure.tempMute)), departure.lastChannelId, h, exact);
    }
  }

  // ---------- steps and runs ----------

  /** No message names client 0, and a handshake finds server `h` or none. */
  ghost predicate CleanPacket(b: Book, p: Packet, h: U64) {
    match p
    case HandshakeResponse(status, _, uid, _, _) =>
      status == STATUS_CODE_OK ==> VerifyServer(b, uid).book.handle in {0, h}
    case Update(audio, _) => NonzeroEntries(audio)
    case _ => true
  }

  /** None of the first `n` ways home has its unmute-everybody request refused. */
  ghost predicate AllHeard(s: State, n: nat) {
    forall k: nat | k < n :: Heard(HomeAfter(s, k).lastChannelId, HomeAfter(s, k).book)
  }

  /** Outside the plugin anything may happen, except that a client the plugin has muted on `h` is
      unmuted behind its back. If `exact`, nobody is muted behind its back either, and no
      unmute-everybody request is refused. */
  ghost predicate Clean(s: State, e: Event, h: U64, exact: bool) {
    && (exact ==> AllHeard(s, Closes(s, e)))
    && match e
       case Network(Receive(channel, payload), _) =>
         var p := Parse(channel, payload);
         p.Some? ==> CleanPacket(s.book, p.value, h)
       case ClientMove(_, clientId, _, _) => clientId != 0
       case Outside(env) =>
         && h in s.book.env.servers && h in env.servers
         && s.book.env.servers[h].muted <= env.servers[h].muted
         && (exact ==> s.book.env.servers[h].muted == env.servers[h].muted)
       case _ => true
  }

  ghost predicate CleanRun(s: State, es: seq<Event>, h: U64, exact: bool)
    decreases |es|
  {
    es != [] ==> Clean(s, es[0], h, exact) && CleanRun(Step(s, es[0]), es[1..], h, exact)
  }

  lemma {:induction false} HomesWithin(s: State, n: nat, h: U64, exact: bool)
    requires Within(s.book, h, exact) && (exact ==> AllHeard(s, n))
    ensures Within(HomeAfter(s, n).book, h, exact)
    decreases n
  {
    hide GoHome, Within, Heard;
    if n > 0 {
      HomesWithin(s, n - 1, h, exact);
      GoHomeWithin(HomeAfter(s, n - 1).lastChannelId, HomeAfter(s, n - 1).book, h, exact);
    }
  }

  lemma PacketWithin(s: State, p: Packet, pending: seq<NetEvent>, h: U64, exact: bool)
    requires Within(s.book, h, exact) && CleanPacket(s.book, p, h)
    requires p.VersionResponse? ==>
               p.status == STATUS_CODE_OK && VerifyProtocolVersion(p.major, p.minor, MIN_VERSION_MAJOR, MIN_VERSION_MINOR)
    ensures Within(OnPacket(s, p, pending).book, h, exact)
  {
    hide SendHandshake, OnHandshakeResponse, PlaceEach, SetNickname, MuteClients, Disconnect, VerifyServer, Within, OnlyPositions, OnlyNames;
    match p
    case VersionResponse(_, _, _) => SendHandshakeWithin(s, STATUS_CODE_OK, h, exact);
    case HandshakeResponse(status, _, _, _, _) =>
      if status == STATUS_CODE_OK {
        HandshakeWithin(s, p, h, exact);
      } else {
        RefusedHandshake(s, p);
      }
    case Update(audio, positions) =>
      MutesWithin(s.book, AudioIds(audio, true), true, h, exact);
      MutesWithin(MuteClients(s.book, AudioIds(audio, true), true).book, AudioIds(audio, false), false, h, exact);
      var heard := ApplyAudio(s.book, audio);
      PlaceEachIsQuiet(heard, Placements(positions));
      QuietWithin(heard, PlaceEach(heard, Placements(positions)), h, exact);
    case Control(name) =>
      SetTouchesNames(s.book, name);
      NamesWithin(s.book, SetNickname(s.book, name).book, h, exact);
    case Positions(_, _, _, _, ps) =>
      PlaceEachIsQuiet(s.book, Placements(ps));
      QuietWithin(s.book, PlaceEach(s.book, Placements(ps)), h, exact);
    case _ =>
  }

  lemma TurnWithin(s: State, event: NetEvent, pending: seq<NetEvent>, h: U64, exact: bool)
    requires Inv(s) && Open(s) && Within(s.book, h, exact) && Clean(s, Network(event, pending), h, exact)
    ensures Within(Turn(s, event, pending).book, h, exact)
  {
    hide Parse, OnPacket, HomeAfter, Within, CleanPacket, AllHeard, Returned, Rejects;
    var e := Network(event, pending);
    HomesWithin(s, Closes(s, e), h, exact);
    if Ends(e) {
      EndingsGoHome(s, e);
      assert Turn(s, event, pending) == Step(s, e);
      hide Turn;
    }
    match event
    case Receive(channel, payload) =>
      var logged := Arrived(s).(log := s.log + [Got(channel, payload)]);
      var parsed := Parse(channel, payload);
      if parsed.Some? {
        if !Ends(e) {
          if parsed.value.VersionResponse? {
            ParsedRejection(channel, payload);
          }
          PacketKeeps(logged, parsed.value, pending);
          PacketWithin(logged, parsed.value, pending, h, exact);
          PacketKeepsOpen(logged, parsed.value, pending);
        }
      }
    case _ =>
  }

  lemma CallbacksWithin(s: State, e: Event, h: U64, exact: bool)
    requires e.TalkStatus? || e.SelfVariable? || e.ClientMove?
    requires Within(s.book, h, exact) && Clean(s, e, h, exact)
    ensures Within(Step(s, e).book, h, exact)
  {
    hide Send, SetClientPosition, MuteClients, ClientId, ChannelId, OnlyPositions, Within;
    match e
    case TalkStatus(k, _, _) => AskingWithin(s.book, k, 0, h, exact);
    case ClientMove(k, id, _, _) =>
      AskingWithin(s.book, k, 0, h, exact);
      var asked := s.book.(env := ClientId(s.book.env, k).env);
      AskingWithin(asked, k, 0, h, exact);
      var b := asked.(env := ChannelId(asked.env, k).env);
      var placed := SetClientPosition(b, id, ORIGIN).book;
      PlaceIsQuiet(b, id, ORIGIN);
      QuietWithin(b, placed, h, exact);
      MutesWithin(b, {id}, true, h, exact);
      MutesWithin(placed, {id}, false, h, exact);
    case _ =>
  }

  lemma StepWithin(s: State, e: Event, h: U64, exact: bool)
    requires Inv(s) && Within(s.book, h, exact) && Clean(s, e, h, exact)
    ensures Within(Step(s, e).book, h, exact)
  {
    if e.Dialled? || e.Disconnected? || e.Stopped? {
      HomesWithin(s, Closes(s, e), h, exact);
      LinkStepsGoHome(s, e);
      hide Step, Within, HomeAfter;
    } else if e.Network? {
      if s.link.thread == Looping {
        TurnWithin(s, e.event, e.pending, h, exact);
      }
      hide Turn, Within;
    } else if e.TalkStatus? || e.SelfVariable? || e.ClientMove? {
      CallbacksWithin(s, e, h, exact);
      hide Step, Within;
    }
  }

  /** In every reachable state of every run with one server, through refused mutes, refused moves,
      refused renames, lost servers and any number of reconnects, every client the plugin believes
      muted is muted; and everybody muted is known, as long as no unmute-everybody request has been
      refused. */
  lemma {:induction false} CacheAgreesOverRuns(s: State, es: seq<Event>, h: U64, exact: bool)
    requires Inv(s) && Within(s.book, h, exact) && CleanRun(s, es, h, exact)
    ensures Within(Run(s, es).book, h, exact)
    decreases |es|
  {
    hide Step, Within, Clean;
    if es != [] {
      StepKeepsInv(s, es[0]);
      StepWithin(s, es[0], h, exact);
      CacheAgreesOverRuns(Step(s, es[0]), es[1..], h, exact);
    }
  }
}
