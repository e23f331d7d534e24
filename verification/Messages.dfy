/** What each message of the server does, from its bytes on its channel to the session, the trace and
    TeamSpeak. Stated of the step that serves it, without the handlers. */
module Messages {
  import opened Common
  import opened IdSets
  import opened TeamSpeak
  import opened Bookkeeping
  import opened MuteAgreement
  import opened NicknameSaver
  import opened Protocol
  import opened Session
  import opened Lifecycle
  import opened Shutdown
  import opened Handshakes
  import opened UpdateBatches
  import opened Restoration
  import opened RestorationLimits

  /** The step that serves a packet arriving on a channel. */
  function Served(s: State, channel: nat, p: Packet, pending: seq<NetEvent>): State
    requires Archivable(p)
  {
    Step(s, Network(Receive(channel, SerializePacket(p)), pending))
  }

  /** Where the packets the client handles arrive. */
  function ChannelOf(p: Packet): Option<nat> {
    match p
    case VersionResponse(_, _, _) => Some(PROTOCOL_CHANNEL)
    case HandshakeResponse(_, _, _, _, _) => Some(HANDSHAKE_CHANNEL)
    case Update(_, _) => Some(UPDATE_CHANNEL)
    case Control(_) => Some(CONTROL_CHANNEL)
    case Positions(_, _, _, _, _) => Some(POSITION_CHANNEL)
    case _ => None
  }

  /** The connection is as it was, except that one packet more has been received and destroyed. */
  ghost predicate OnePacketLater(l: Link, r: Link) {
    && r == l.(use := l.use.(packets := r.use.packets))
    && r.use.packets.out == l.use.packets.out + 1
    && Returned(l.use.packets, r.use.packets)
  }

  lemma ParsedAsSent(p: Packet)
    requires Archivable(p) && ChannelOf(p).Some?
    ensures Parse(ChannelOf(p).value, SerializePacket(p)) == Some(Received(p))
  {
    hide DeserializePacket, SerializePacket;
    PacketRoundTrip(p, []);
    assert SerializePacket(p) + [] == SerializePacket(p);
  }

  /** The state in which the handler runs. */
  function Logged(s: State, channel: nat, payload: Text): State {
    Arrived(s).(log := s.log + [Got(channel, payload)])
  }

  /** A handler that leaves the connection alone makes the whole step, but for the packet. */
  lemma ServedByHandler(s: State, channel: nat, p: Packet, pending: seq<NetEvent>)
    requires Inv(s) && Open(s) && Archivable(p) && ChannelOf(p) == Some(channel)
    requires var logged := Logged(s, channel, SerializePacket(p));
             OnPacket(logged, Received(p), pending).link == logged.link
    ensures var r := Served(s, channel, p, pending);
            var handled := OnPacket(Logged(s, channel, SerializePacket(p)), Received(p), pending);
            && r == handled.(link := r.link)
            && OnePacketLater(s.link, r.link) && Open(r) && Inv(r)
  {
    hide Parse, SerializePacket, OnPacket, Returned;
    ParsedAsSent(p);
    var e := Network(Receive(channel, SerializePacket(p)), pending);
    StepKeepsInv(s, e);
    TakenAndGiven(s.link.use.packets);
  }

  // ---------- version responses ----------

  /** The identity the plugin can tell: the chosen server's, if there is one and it answers. */
  function Identity(b: Book): CText {
    if b.env.Up(b.handle) then b.env.servers[b.handle].identity else []
  }

  /** A handshake on the wire, unless its identity is too long to be archived. */
  function HandshakeSent(gameId: U16, teamspeakId: U16, code: I32, identity: CText): seq<Entry> {
    if |identity| < 0x1_0000_0000_0000_0000
    then [Sent(HANDSHAKE_CHANNEL, SerializePacket(Handshake(gameId, teamspeakId, code, identity)))]
    else []
  }

  /** A status on the wire. */
  function StatusSent(v: Voice): Entry {
    Sent(STATUS_CHANNEL, SerializePacket(Status(v.talking, v.microphoneMuted, v.speakersMuted)))
  }

  /** A protocol version that is OK and new enough is answered with one handshake, whatever TeamSpeak
      answers; nothing else changes, except that TeamSpeak does not get the identity string back. */
  lemma AcceptedVersionAnswered(s: State, major: I32, minor: I32, pending: seq<NetEvent>)
    requires Inv(s) && Open(s)
    requires major > MIN_VERSION_MAJOR || (major == MIN_VERSION_MAJOR && minor >= MIN_VERSION_MINOR)
    ensures var p := VersionResponse(STATUS_CODE_OK, major, minor);
            var r := Served(s, PROTOCOL_CHANNEL, p, pending);
            && Open(r) && OnePacketLater(s.link, r.link)
            && r.log == s.log + [Got(PROTOCOL_CHANNEL, SerializePacket(p))]
                 + HandshakeSent(s.link.gameId, s.teamspeakId, STATUS_CODE_OK, Identity(s.book))
            && r.teamspeakId == s.teamspeakId && r.lastChannelId == s.lastChannelId && r.voice == s.voice
            && r.book == s.book.(env := s.book.env.(calls := r.book.env.calls, memory := r.book.env.memory))
            && r.book.env.memory == (if s.book.env.Up(s.book.handle) then s.book.env.memory.Take() else s.book.env.memory)
  {
    hide SerializePacket, Parse, Step, Returned, Settled;
    var p := VersionResponse(STATUS_CODE_OK, major, minor);
    var logged := Logged(s, PROTOCOL_CHANNEL, SerializePacket(p));
    ReplySent(logged, STATUS_CODE_OK);
    SendHandshakeFrame(logged, STATUS_CODE_OK);
    ServedByHandler(s, PROTOCOL_CHANNEL, p, pending);
  }

  /** Any other version response is one the client disconnects on. */
  lemma OtherVersionsRejected(status: I32, major: I32, minor: I32)
    ensures Rejects(SerializePacket(VersionResponse(status, major, minor))) <==>
              || status != STATUS_CODE_OK
              || major < MIN_VERSION_MAJOR || (major == MIN_VERSION_MAJOR && minor < MIN_VERSION_MINOR)
  {
    hide SerializePacket, Parse;
    ParsedAsSent(VersionResponse(status, major, minor));
  }

  // ---------- handshake responses ----------

  /** An accepted handshake, call by call answered, in full: id and old channel are kept, the user has
      joined the game channel, and the server is told so, once, and then how he is muted. He is in
      game then, unless the connection was made under the id 0. */
  lemma AcceptedHandshakeAnnounced(s: State, p: Packet, pending: seq<NetEvent>)
    requires Inv(s) && Open(s) && p.HandshakeResponse? && p.statusCode == STATUS_CODE_OK && Archivable(p)
    requires AllGood(s.book.env)
    requires var v := VerifyServer(s.book, p.serverUid); v.value && Usable(s.book.env, v.book.handle)
    ensures var h := VerifyServer(s.book, p.serverUid).book.handle;
            var server := s.book.env.servers[h];
            var ids := MembersOf(s.book.env, h, p.channelId);
            var r := Served(s, HANDSHAKE_CHANNEL, p, pending);
            && Open(r) && OnePacketLater(s.link, r.link) && (r.IsIngame() <==> s.link.gameId != 0)
            && r.teamspeakId == server.ownId && r.lastChannelId == server.channel
            && Became(s.book.(handle := h), r.book, s.book.cache + ids, Joined(server, ids, p.channelId))
            && r.voice == VoiceOn(server, s.voice.talking)
            && r.log == s.log + [Got(HANDSHAKE_CHANNEL, SerializePacket(p))]
                 + HandshakeSent(s.link.gameId, server.ownId, STATUS_CODE_OK, server.identity)
                 + [StatusSent(r.voice)]
  {
    hide SerializePacket, Parse, Step, Returned, Settled, OnHandshakeResponse, VerifyServer, MembersOf, Joined;
    var logged := Logged(s, HANDSHAKE_CHANNEL, SerializePacket(p));
    HandshakeKeepsLink(logged, p);
    HandshakeExact(logged, p);
    HandshakeTold(logged, p, VerifyServer(s.book, p.serverUid).book.handle);
    ServedByHandler(s, HANDSHAKE_CHANNEL, p, pending);
  }

  /** What entering the game says and reads, and that joining the channel does not change it. */
  lemma HandshakeTold(s: State, p: Packet, h: U64)
    requires p.HandshakeResponse? && p.statusCode == STATUS_CODE_OK && AllGood(s.book.env)
    requires Usable(s.book.env, h)
    requires VerifyServer(s.book, p.serverUid).value && VerifyServer(s.book, p.serverUid).book.handle == h
    ensures var server := s.book.env.servers[h];
            var r := OnHandshakeResponse(s, p);
            && r.voice == VoiceOn(server, s.voice.talking)
            && r.log == s.log
                 + HandshakeSent(s.link.gameId, server.ownId, STATUS_CODE_OK, server.identity)
                 + [StatusSent(r.voice)]
  {
    hide SerializePacket, VerifyServer, PrepareMove, MoveToChannel, MuteChannel, EnterGame, MembersOf, VoiceOn;
    SearchKeepsServers(s.book, p.serverUid);
    var v := VerifyServer(s.book, p.serverUid).book;
    var server := s.book.env.servers[v.handle];
    JoinedExact(v, p.channelId);
    var departure := PrepareMove(v);
    var moved := MoveToChannel(departure.book, p.channelId).book;
    var muted := MuteChannel(moved, p.channelId, departure.tempMute);
    var joined := Joined(server, MembersOf(v.env, v.handle, p.channelId), p.channelId);
    JoinedVoice(server, MembersOf(v.env, v.handle, p.channelId), p.channelId, s.voice.talking);
    JoinedUsable(server, MembersOf(v.env, v.handle, p.channelId), p.channelId);
    assert muted.env.servers[v.handle] == joined;
    EntryTold(s.(book := muted), departure.lastChannelId);
  }

  lemma JoinedVoice(server: Server, ids: set<U16>, channel: U64, talking: bool)
    ensures VoiceOn(Joined(server, ids, channel), talking) == VoiceOn(server, talking)
    ensures Joined(server, ids, channel).identity == server.identity
  {
  }

  lemma EntryTold(s: State, lastChannelId: U64)
    requires AllGood(s.book.env) && OnServer(s.book) && Usable(s.book.env, s.book.handle)
    ensures var server := s.book.env.servers[s.book.handle];
            var r := EnterGame(s, lastChannelId);
            && r.voice == VoiceOn(server, s.voice.talking)
            && r.log == s.log
                 + HandshakeSent(s.link.gameId, server.ownId, STATUS_CODE_OK, server.identity)
                 + [StatusSent(r.voice)]
  {
    hide SerializePacket;
  }

  /** A response that is not OK changes nothing. */
  lemma RefusedHandshakeIgnored(s: State, p: Packet, pending: seq<NetEvent>)
    requires Inv(s) && Open(s) && p.HandshakeResponse? && p.statusCode != STATUS_CODE_OK && Archivable(p)
    ensures var r := Served(s, HANDSHAKE_CHANNEL, p, pending);
            OnePacketLater(s.link, r.link)
            && r == s.(link := r.link, log := s.log + [Got(HANDSHAKE_CHANNEL, SerializePacket(p))])
  {
    hide SerializePacket, Parse, Step, Returned, Settled;
    ServedByHandler(s, HANDSHAKE_CHANNEL, p, pending);
  }

  // ---------- updates ----------

  /** Nothing of the session but the book and the trace has changed. */
  ghost predicate OnlyBook(s: State, r: State, got: Entry) {
    OnePacketLater(s.link, r.link) && r == s.(link := r.link, book := r.book, log := s.log + [got])
  }

  /** Every client is where the last of the updates that name him puts him; all others kept their place. */
  ghost predicate PlacedBy(ps: seq<PositionUpdate>, was: map<U16, Position>, now: map<U16, Position>) {
    forall id: U16 ::
      match LastUpdate(ps, id)
      case Some(u) => id in now && now[id] == Position(u.x, u.y, u.z)
      case None => (id in now <==> id in was) && (id in was ==> now[id] == was[id])
  }

  lemma PlacingExact(b: Book, ps: seq<PositionUpdate>)
    requires AllGood(b.env) && OnServer(b)
    ensures var r := PlaceEach(b, Placements(ps));
            && r.handle == b.handle && OnServer(r) && r.cache == b.cache && r.saved == b.saved
            && r.env == b.env.(calls := r.env.calls, memory := r.env.memory,
                               servers := b.env.servers[b.handle := r.env.servers[b.handle]])
            && var server := b.env.servers[b.handle];
            var positions := r.env.servers[b.handle].positions;
            && r.env.servers[b.handle] == server.(positions := positions)
            && PlacedBy(ps, server.positions, positions)
  {
    var r := PlaceEach(b, Placements(ps));
    PlaceEachIsQuiet(b, Placements(ps));
    PlacesStay(b, Placements(ps));
    forall id: U16
      ensures OnServer(r)
      ensures match LastUpdate(ps, id)
              case Some(u) =>
                id in r.env.servers[b.handle].positions
                && r.env.servers[b.handle].positions[id] == Position(u.x, u.y, u.z)
              case None =>
                var was, now := b.env.servers[b.handle].positions, r.env.servers[b.handle].positions;
                (id in now <==> id in was) && (id in was ==> now[id] == was[id])
    {
      PlacesExact(b, Placements(ps), id);
      PlacementsFollow(ps, id);
    }
    hide PlaceEach, Placements, LastUpdate, LastPlace;
  }

  /** Position calls go to the chosen server alone. */
  lemma {:induction false} PlacesStay(b: Book, entries: seq<Placement>)
    requires OnServer(b)
    ensures var r := PlaceEach(b, entries);
            b.handle in r.env.servers
            && r.env.servers == b.env.servers[b.handle := r.env.servers[b.handle]]
    decreases |entries|
  {
    if entries == [] {
      assert b.env.servers == b.env.servers[b.handle := b.env.servers[b.handle]];
    } else {
      PlacesStay(SetClientPosition(b, entries[0].clientId, entries[0].position).book, entries[1..]);
    }
  }

  /** Filter keys do not travel, and nothing depends on them. */
  lemma ReceivedAudio(p: Packet)
    requires p.Update?
    ensures Received(p).Update? && Received(p).positionUpdates == p.positionUpdates
    ensures forall muted :: AudioIds(Received(p).audioUpdates, muted) == AudioIds(p.audioUpdates, muted)
  {
    var xs, ys := p.audioUpdates, Received(p).audioUpdates;
    forall muted: bool
      ensures AudioIds(ys, muted) == AudioIds(xs, muted)
    {
      forall id | id in AudioIds(xs, muted)
        ensures id in AudioIds(ys, muted)
      {
        var i :| 0 <= i < |xs| && xs[i].muted == muted && xs[i].teamspeakId == id;
        assert ys[i] in ys && ys[i].muted == muted && ys[i].teamspeakId == id;
      }
      forall id | id in AudioIds(ys, muted)
        ensures id in AudioIds(xs, muted)
      {
        var i :| 0 <= i < |ys| && ys[i].muted == muted && ys[i].teamspeakId == id;
        assert xs[i] in xs && xs[i].muted == muted && xs[i].teamspeakId == id;
      }
    }
  }

  /** An update, with every call answered: the clients it mutes are muted and then those it unmutes are
      not, as far as the arrays sent name them; the cache follows; each client it places is where his
      last entry says. Nobody and nothing else is touched, on this server or another. */
  lemma UpdateServed(s: State, p: Packet, pending: seq<NetEvent>)
    requires Inv(s) && Open(s) && p.Update? && Archivable(p)
    requires AllGood(s.book.env) && OnServer(s.book)
    ensures var h := s.book.handle;
            var up, down := AudioIds(p.audioUpdates, true), AudioIds(p.audioUpdates, false);
            var r := Served(s, UPDATE_CHANNEL, p, pending);
            && OnlyBook(s, r, Got(UPDATE_CHANNEL, SerializePacket(p)))
            && r.book.handle == h && h in r.book.env.servers && r.book.saved == s.book.saved
            && r.book.cache == (s.book.cache + up) - down
            && r.book.env.servers == s.book.env.servers[h := r.book.env.servers[h]]
            && var was, now := s.book.env.servers[h], r.book.env.servers[h];
            && now == was.(muted := (was.muted + IdSets.Sent(up)) - IdSets.Sent(down), positions := now.positions)
            && PlacedBy(p.positionUpdates, was.positions, now.positions)
  {
    hide SerializePacket, Parse, Step, Returned, Settled, PlaceEach, MuteClients, AudioIds, PlacedBy, Received, IdSets.Sent;
    ReceivedAudio(p);
    var b := s.book;
    var audio := Received(p).audioUpdates;
    AudioExact(b, audio);
    PlacingExact(ApplyAudio(b, audio), p.positionUpdates);
    ServedByHandler(s, UPDATE_CHANNEL, p, pending);
  }

  // ---------- renames ----------

  /** A rename, with every call answered: the user publicly carries the name, up to its first zero byte,
      and the name to come back to is kept, or saved if it was not. A name he already carries changes
      nothing, and neither does the empty name. Other servers are not touched. */
  lemma RenameServed(s: State, name: Text, original: CText, pending: seq<NetEvent>)
    requires Inv(s) && Open(s) && |name| < 0x1_0000_0000_0000_0000
    requires AllGood(s.book.env) && OnServer(s.book)
    ensures var p := Control(name);
            var h := s.book.handle;
            var was := s.book.env.servers[h];
            var same := name == [] || name == was.published.nickname;
            var variables := was.local.(nickname := CStr(name));
            var r := Served(s, CONTROL_CHANNEL, p, pending);
            && OnlyBook(s, r, Got(CONTROL_CHANNEL, SerializePacket(p)))
            && r.book.handle == h && h in r.book.env.servers && r.book.cache == s.book.cache
            && r.book.env.servers ==
                 (if same then s.book.env.servers
                  else s.book.env.servers[h := was.(local := variables, published := variables)])
            && r.book.saved == (if same || s.book.saved != [] then s.book.saved else was.published.nickname)
            && (name != [] ==> r.book.env.servers[h].published.nickname == CStr(name))
            && (Remembers(s.book, original) && original != [] ==> Remembers(r.book, original))
  {
    hide SerializePacket, Parse, Step, Returned, Settled, SetNickname, CStr;
    if name != [] {
      RenameExact(s.book, name);
    }
    ServedByHandler(s, CONTROL_CHANNEL, Control(name), pending);
  }

  lemma RenameExact(b: Book, name: Text)
    requires AllGood(b.env) && OnServer(b)
    ensures var r := SetNickname(b, name).book;
            var was := b.env.servers[b.handle];
            var variables := was.local.(nickname := CStr(name));
            && r == b.(saved := r.saved, env := r.env)
            && r.env.servers ==
                 (if name == was.published.nickname then b.env.servers
                  else b.env.servers[b.handle := was.(local := variables, published := variables)])
            && r.saved == (if name == was.published.nickname || b.saved != [] then b.saved else was.published.nickname)
  {
    var was := b.env.servers[b.handle];
    if name != was.published.nickname {
      OneRename(b, name);
    }
    SetTouchesNames(b, name);
    hide CStr, OnlyVariables;
  }

  // ---------- positions ----------

  /** A position packet, with every call answered. */
  lemma PositionsServed(s: State, p: Packet, pending: seq<NetEvent>)
    requires Inv(s) && Open(s) && p.Positions? && Archivable(p)
    requires AllGood(s.book.env) && OnServer(s.book)
    ensures var h := s.book.handle;
            var r := Served(s, POSITION_CHANNEL, p, pending);
            && OnlyBook(s, r, Got(POSITION_CHANNEL, SerializePacket(p)))
            && r.book.handle == h && h in r.book.env.servers
            && r.book.saved == s.book.saved && r.book.cache == s.book.cache
            && r.book.env.servers == s.book.env.servers[h := r.book.env.servers[h]]
            && var was, now := s.book.env.servers[h], r.book.env.servers[h];
            && now == was.(positions := now.positions)
            && PlacedBy(p.positions, was.positions, now.positions)
  {
    hide SerializePacket, Parse, Step, Returned, Settled, PlaceEach, PlacedBy;
    PlacingExact(s.book, p.positions);
    ServedByHandler(s, POSITION_CHANNEL, p, pending);
  }

  // ---------- everything else ----------

  /** The kind of packet a channel carries, if any. */
  function Carries(channel: nat): Option<Kind> {
    if channel == PROTOCOL_CHANNEL then Some(VersionResponseKind)
    else if channel == HANDSHAKE_CHANNEL then Some(HandshakeResponseKind)
    else if channel == UPDATE_CHANNEL then Some(UpdateKind)
    else if channel == CONTROL_CHANNEL then Some(ControlKind)
    else if channel == POSITION_CHANNEL then Some(PositionsKind)
    else None
  }

  /** A payload on any other channel, or one that is no packet of its channel's kind, changes nothing. */
  lemma UnreadableIgnored(s: State, channel: nat, payload: Text, pending: seq<NetEvent>)
    requires Inv(s) && Open(s)
    requires Carries(channel) == None || DeserializePacket(Carries(channel).value, payload) == None
    ensures var r := Step(s, Network(Receive(channel, payload), pending));
            OnePacketLater(s.link, r.link) && r == s.(link := r.link, log := s.log + [Got(channel, payload)])
  {
    hide DeserializePacket, Returned;
    TakenAndGiven(s.link.use.packets);
    assert Parse(channel, payload) == None;
  }
}
