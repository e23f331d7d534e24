/** Everything a session changes in TeamSpeak is undone when the session ends, over any number of
    sessions, however each of them ends. */
module Restoration {
  import opened Common
  import opened IdSets
  import opened TeamSpeak
  import opened Bookkeeping
  import opened MuteAgreement
  import opened NicknameSaver
  import opened Protocol
  import opened Session
  import opened Handshakes
  import opened Lifecycle
  import opened Shutdown

  /** Where the user is and what he is called on a server, before any session. */
  datatype Origin = Origin(channel: U64, nickname: CText)

  type Origins = map<U64, Origin>

  /** TeamSpeak answers every call, and the user is connected to every server, under a name. */
  ghost predicate Fine(e: Env, origins: Origins) {
    && AllGood(e)
    && 0 !in e.servers
    && forall h | h in e.servers ::
         h in origins && origins[h].nickname != [] && e.servers[h].connected && e.servers[h].ownId != 0
  }

  /** The user is where he was, called what he was called, and nobody is muted. */
  ghost predicate Untouched(server: Server, origin: Origin) {
    && server.channel == origin.channel
    && server.published.nickname == server.local.nickname == origin.nickname
    && server.muted == {}
  }

  ghost predicate AllUntouched(e: Env, origins: Origins) {
    forall h | h in e.servers :: h in origins && Untouched(e.servers[h], origins[h])
  }

  /** No trace of a session, in TeamSpeak or in the bookkeeping. */
  ghost predicate BookHome(b: Book, origins: Origins) {
    && Fine(b.env, origins)
    && b.cache == {} && b.saved == []
    && forall h | h in b.env.servers :: Untouched(b.env.servers[h], origins[h])
  }

  /** In a game channel: everything changed is on the chosen server, and recorded. */
  ghost predicate BookAway(b: Book, lastChannelId: U64, origins: Origins) {
    && Fine(b.env, origins)
    && OnServer(b)
    && lastChannelId != 0 && lastChannelId == origins[b.handle].channel
    && b.env.servers[b.handle].channel != lastChannelId
    && b.cache == Muted(b) && 0 !in b.cache
    && Remembers(b, origins[b.handle].nickname)
    && forall h | h in b.env.servers && h != b.handle :: Untouched(b.env.servers[h], origins[h])
  }

  ghost predicate AtHome(s: State, origins: Origins) {
    s.teamspeakId == 0 && s.lastChannelId == 0 && BookHome(s.book, origins)
  }

  ghost predicate Away(s: State, origins: Origins) {
    Open(s) && BookAway(s.book, s.lastChannelId, origins)
  }

  // ---------- single operations ----------

  lemma QuietKeeps(b: Book, r: Book, last: U64, origins: Origins)
    requires OnlyPositions(b, r)
    ensures BookHome(b, origins) ==> BookHome(r, origins)
    ensures BookAway(b, last, origins) ==> BookAway(r, last, origins)
  {
  }

  lemma PlacingKeeps(b: Book, entries: seq<Placement>, last: U64, origins: Origins)
    ensures BookHome(b, origins) ==> BookHome(PlaceEach(b, entries), origins)
    ensures BookAway(b, last, origins) ==> BookAway(PlaceEach(b, entries), last, origins)
  {
    PlaceEachIsQuiet(b, entries);
    QuietKeeps(b, PlaceEach(b, entries), last, origins);
  }

  lemma MutesStayAway(b: Book, clients: set<U16>, mute: bool, last: U64, origins: Origins)
    requires BookAway(b, last, origins) && 0 !in clients
    ensures BookAway(MuteClients(b, clients, mute).book, last, origins)
  {
    MutesKeepServer(b, clients, mute);
  }

  lemma RenamesStayAway(b: Book, name: Text, last: U64, origins: Origins)
    requires BookAway(b, last, origins)
    ensures BookAway(SetNickname(b, name).book, last, origins)
  {
    SetRemembers(b, name, origins[b.handle].nickname);
    SetTouchesNames(b, name);
    hide SetNickname;
  }

  /** Without a server to work with nothing is muted or renamed. */
  lemma NoServerNoChange(b: Book, clients: set<U16>, mute: bool, name: Text, origins: Origins)
    requires BookHome(b, origins) && b.handle !in b.env.servers
    ensures var r := MuteClients(b, clients, mute).book;
            BookHome(r, origins) && r.handle == b.handle && r.env.servers == b.env.servers
    ensures BookHome(SetNickname(b, name).book, origins)
  {
  }

  /** One answered request on a server. */
  lemma OneRequest(b: Book, clients: set<U16>, mute: bool)
    requires AllGood(b.env) && OnServer(b)
    ensures var r := MuteClients(b, clients, mute).book;
            var server := b.env.servers[b.handle];
            var muted := if mute then server.muted + IdSets.Sent(clients) else server.muted - IdSets.Sent(clients);
            && r.handle == b.handle && r.saved == b.saved
            && r.cache == (if mute then b.cache + clients else b.cache - clients)
            && r.env == b.env.(calls := r.env.calls, servers := b.env.servers[b.handle := server.(muted := muted)])
  {
    if clients == {} {
      var server := b.env.servers[b.handle];
      assert server.muted + {} == server.muted && server.muted - {} == server.muted;
      assert b.cache + {} == b.cache && b.cache - {} == b.cache;
      assert b.env.servers == b.env.servers[b.handle := server.(muted := server.muted)];
    }
  }

  /** Muting clients to unmute them again changes nothing. */
  lemma HarmlessMutes(b: Book, up: set<U16>, down: set<U16>, origins: Origins)
    requires BookHome(b, origins) && b.handle in b.env.servers && 0 !in up && 0 !in down && up <= down
    ensures BookHome(MuteClients(MuteClients(b, up, true).book, down, false).book, origins)
  {
    hide MuteClients;
    var muted := MuteClients(b, up, true).book;
    var r := MuteClients(muted, down, false).book;
    NothingLeft(up, down);
    OneRequest(b, up, true);
    OneRequest(muted, down, false);
    assert r.cache == ({} + up) - down == up - down;
    var server := b.env.servers[b.handle];
    assert (server.muted + up) - down == server.muted;
    assert r.env.servers == b.env.servers[b.handle := server] == b.env.servers;
  }

  /** Neither does the user's own name. */
  lemma HarmlessName(b: Book, origins: Origins)
    requires BookHome(b, origins) && b.handle in b.env.servers
    ensures BookHome(SetNickname(b, b.env.servers[b.handle].published.nickname).book, origins)
  {
  }

  // ---------- going home ----------

  lemma MoveBack(b: Book, last: U64, origins: Origins)
    requires BookAway(b, last, origins)
    ensures var r := MoveToChannel(b, last);
            && r.value
            && r.book == b.(env := r.book.env)
            && r.book.env.servers == b.env.servers[b.handle := b.env.servers[b.handle].(channel := last)]
            && Fine(r.book.env, origins)
  {
  }

  /** The way back from a game channel leads home. */
  lemma GoHomeReturns(b: Book, last: U64, origins: Origins)
    requires BookAway(b, last, origins)
    ensures GoHome(last, b).lastChannelId == 0
    ensures BookHome(GoHome(last, b).book, origins)
  {
    var channel := ChannelId(b.env, b.handle);
    var asked := b.(env := channel.env);
    QuietKeeps(b, asked, last, origins);
    assert channel.value == b.env.servers[b.handle].channel;
    MoveBack(asked, last, origins);
    var moved := MoveToChannel(asked, last).book;
    ArrivedHome(moved, origins);
  }

  /** Back in the old channel, with mutes and nickname still to be undone. */
  ghost predicate BookBack(b: Book, origins: Origins) {
    && Fine(b.env, origins)
    && OnServer(b)
    && b.env.servers[b.handle].channel == origins[b.handle].channel
    && b.cache == Muted(b) && 0 !in b.cache
    && Remembers(b, origins[b.handle].nickname)
    && forall h | h in b.env.servers && h != b.handle :: Untouched(b.env.servers[h], origins[h])
  }

  lemma QuietStaysBack(b: Book, r: Book, origins: Origins)
    requires BookBack(b, origins) && OnlyPositions(b, r)
    ensures BookBack(r, origins)
  {
  }

  lemma UnmutedStaysBack(b: Book, origins: Origins)
    requires BookBack(b, origins)
    ensures var r := UnmuteAllClients(b).book;
            BookBack(r, origins) && r.cache == {}
  {
    UnmutesAll(b);
    hide UnmuteAllClients;
  }

  lemma RenamedIsHome(b: Book, origins: Origins)
    requires BookBack(b, origins) && b.cache == {}
    ensures BookHome(ResetNickname(b).book, origins)
  {
    ResetSucceeds(b, origins[b.handle].nickname);
    ResetTouchesNames(b);
    hide ResetNickname;
  }

  /** The remaining calls undo mutes and nickname. */
  lemma ArrivedHome(b: Book, origins: Origins)
    requires BookBack(b, origins)
    ensures BookHome(ResetNickname(UnmuteAllClients(ResetPositions(b)).book).book, origins)
  {
    ResetPositionsIsQuiet(b);
    hide ResetPositions, UnmuteAllClients, ResetNickname, BookBack, BookHome;
    QuietStaysBack(b, ResetPositions(b), origins);
    UnmutedStaysBack(ResetPositions(b), origins);
    RenamedIsHome(UnmuteAllClients(ResetPositions(b)).book, origins);
  }

  lemma ResetSucceeds(b: Book, original: CText)
    requires Remembers(b, original) && original != [] && AllGood(b.env)
    ensures var r := ResetNickname(b).book;
            r.saved == [] && Remembers(r, original)
  {
  }

  lemma UnmutesAll(b: Book)
    requires AllGood(b.env) && OnServer(b) && b.cache == Muted(b) && 0 !in b.cache
    ensures var r := UnmuteAllClients(b).book;
            && r == b.(cache := {}, env := r.env)
            && r.env == b.env.(calls := r.env.calls, servers := r.env.servers)
            && r.env.servers == b.env.servers[b.handle := b.env.servers[b.handle].(muted := {})]
  {
    if b.cache == {} {
      assert b.env.servers[b.handle].(muted := {}) == b.env.servers[b.handle];
      assert b.env.servers[b.handle := b.env.servers[b.handle]] == b.env.servers;
    } else {
      assert Muted(b) - b.cache == {};
    }
  }

  // ---------- handlers and callbacks ----------

  /** A handshake that names a server is for one where the user's own channel is known and is not
      the game channel. */
  ghost predicate ProperHandshake(e: Env, p: Packet, origins: Origins)
    requires p.HandshakeResponse?
  {
    forall h | h in e.servers && h in origins && e.servers[h].uid == p.serverUid ::
      origins[h].channel != 0 && origins[h].channel != p.channelId
  }

  lemma SendHandshakeKeeps(s: State, code: I32, origins: Origins)
    ensures var r := SendHandshake(s, code);
            && r.link == s.link && r.teamspeakId == s.teamspeakId && r.lastChannelId == s.lastChannelId
            && (BookHome(s.book, origins) ==> BookHome(r.book, origins))
            && (BookAway(s.book, s.lastChannelId, origins) ==> BookAway(r.book, r.lastChannelId, origins))
  {
    hide ClientIdentity, Send;
    IdentityIsQuiet(s.book);
    QuietKeeps(s.book, ClientIdentity(s.book).book, s.lastChannelId, origins);
  }

  lemma JoinedIsAway(b: Book, r: Book, ids: set<U16>, channel: U64, origins: Origins)
    requires BookHome(b, origins) && OnServer(b) && 0 !in ids
    requires Became(b, r, b.cache + ids, Joined(b.env.servers[b.handle], ids, channel))
    requires origins[b.handle].channel != 0 && origins[b.handle].channel != channel
    ensures BookAway(r, b.env.servers[b.handle].channel, origins)
  {
  }

  /** An accepted handshake takes the session from home into a game channel; a handshake for a server
      that is not there leaves it at home. */
  lemma HandshakeLeadsAway(s: State, p: Packet, origins: Origins)
    requires p.HandshakeResponse? && p.statusCode == STATUS_CODE_OK
    requires Open(s) && AtHome(s, origins) && ProperHandshake(s.book.env, p, origins)
    ensures var r := OnHandshakeResponse(s, p);
            Open(r) && if VerifyServer(s.book, p.serverUid).value then Away(r, origins) else AtHome(r, origins)
  {
    SearchKeepsServers(s.book, p.serverUid);
    var v := VerifyServer(s.book, p.serverUid);
    assert BookHome(v.book, origins) by {
      assert OnlyPositions(s.book.(handle := v.book.handle), v.book);
      QuietKeeps(s.book.(handle := v.book.handle), v.book, 0, origins);
    }
    if v.value {
      var h := v.book.handle;
      HandshakeExact(s, p);
      hide VerifyServer, OnHandshakeResponse, Joined, MembersOf;
      MembersNonzero(s.book.env, h, p.channelId);
      JoinedIsAway(s.book.(handle := h), OnHandshakeResponse(s, p).book,
                   MembersOf(s.book.env, h, p.channelId), p.channelId, origins);
    } else {
      hide VerifyServer;
      SendHandshakeKeeps(s.(book := v.book), STATUS_CODE_NOT_CONNECTED_TO_SERVER, origins);
    }
  }

  /** Every client the packet mutes it also unmutes. */
  predicate UnmutesItsMutes(audio: seq<AudioUpdate>) {
    AudioIds(audio, true) <= AudioIds(audio, false)
  }

  lemma UpdateStaysAway(b: Book, p: Packet, last: U64, origins: Origins)
    requires p.Update? && (forall u | u in p.audioUpdates :: u.teamspeakId != 0)
    requires BookAway(b, last, origins)
             || (BookHome(b, origins) && (b.handle !in b.env.servers || UnmutesItsMutes(p.audioUpdates)))
    ensures var r := PlaceEach(ApplyAudio(b, p.audioUpdates), Placements(p.positionUpdates));
            if BookAway(b, last, origins) then BookAway(r, last, origins) else BookHome(r, origins)
  {
    hide PlaceEach, MuteClients, BookHome, BookAway;
    var up, down := AudioIds(p.audioUpdates, true), AudioIds(p.audioUpdates, false);
    var muted := MuteClients(b, up, true).book;
    if BookAway(b, last, origins) {
      MutesStayAway(b, up, true, last, origins);
      MutesStayAway(muted, down, false, last, origins);
    } else if b.handle !in b.env.servers {
      NoServerNoChange(b, up, true, [], origins);
      NoServerNoChange(muted, down, false, [], origins);
    } else {
      HarmlessMutes(b, up, down, origins);
    }
    PlacingKeeps(ApplyAudio(b, p.audioUpdates), Placements(p.positionUpdates), last, origins);
  }

  // ---------- runs ----------

  /** The packet is one a server sends that has the session's state in mind: at most one accepted
      handshake a session, a proper one; before it, on a server chosen in an earlier session, no update
      that leaves a client muted and no rename; no client 0. That these are the limits is proved in
      `RestorationLimits`. */
  ghost predicate PolitePacket(s: State, p: Packet, origins: Origins) {
    match p
    case HandshakeResponse(code, _, _, _, _) =>
      code == STATUS_CODE_OK ==> s.lastChannelId == 0 && ProperHandshake(s.book.env, p, origins)
    case Update(audio, _) =>
      && (forall u | u in audio :: u.teamspeakId != 0)
      && (s.lastChannelId != 0 || s.book.handle !in s.book.env.servers || UnmutesItsMutes(audio))
    case Control(nickname) =>
      || s.lastChannelId != 0 || s.book.handle !in s.book.env.servers
      || nickname == [] || nickname == s.book.env.servers[s.book.handle].published.nickname
    case _ => true
  }

  /** Whatever happens in TeamSpeak outside the plugin leaves the user's own standing alone: nobody
      moves, renames or disconnects him, and nobody else changes whom he has muted. */
  ghost predicate StandingKept(e: Env, after: Env) {
    && AllGood(after)
    && after.servers.Keys == e.servers.Keys
    && forall h | h in e.servers ::
         var was, now := e.servers[h], after.servers[h];
         && now.connected && now.ownId == was.ownId && now.channel == was.channel
         && now.local.nickname == was.local.nickname && now.published.nickname == was.published.nickname
         && now.muted == was.muted
  }

  ghost predicate Polite(s: State, e: Event, origins: Origins) {
    match e
    case Network(Receive(channel, payload), _) =>
      var p := Parse(channel, payload);
      p.Some? ==> PolitePacket(s, p.value, origins)
    case ClientMove(_, clientId, _, _) => clientId != 0
    case Outside(env) => StandingKept(s.book.env, env)
    case _ => true
  }

  ghost predicate PoliteRun(s: State, es: seq<Event>, origins: Origins)
    decreases |es|
  {
    es != [] ==> Polite(s, es[0], origins) && PoliteRun(Step(s, es[0]), es[1..], origins)
  }

  lemma PacketKeepsSession(s: State, p: Packet, pending: seq<NetEvent>, origins: Origins)
    requires Open(s) && (AtHome(s, origins) || Away(s, origins)) && PolitePacket(s, p, origins)
    requires p.VersionResponse? ==>
               p.status == STATUS_CODE_OK && VerifyProtocolVersion(p.major, p.minor, MIN_VERSION_MAJOR, MIN_VERSION_MINOR)
    ensures var r := OnPacket(s, p, pending);
            r.link == s.link && (AtHome(r, origins) || Away(r, origins))
  {
    hide SendHandshake, OnHandshakeResponse, PlaceEach, SetNickname, ApplyAudio, Disconnect;
    match p
    case VersionResponse(_, _, _) => SendHandshakeKeeps(s, STATUS_CODE_OK, origins);
    case HandshakeResponse(code, _, _, _, _) =>
      HandshakeKeepsLink(s, p);
      if code == STATUS_CODE_OK {
        HandshakeLeadsAway(s, p, origins);
      } else {
        RefusedHandshake(s, p);
      }
    case Update(_, _) => UpdateStaysAway(s.book, p, s.lastChannelId, origins);
    case Control(name) =>
      if s.lastChannelId != 0 {
        RenamesStayAway(s.book, name, s.lastChannelId, origins);
      } else if s.book.handle !in s.book.env.servers {
        NoServerNoChange(s.book, {}, true, name, origins);
      } else if name != [] {
        HarmlessName(s.book, origins);
      }
    case Positions(_, _, _, _, ps) => PlacingKeeps(s.book, Placements(ps), s.lastChannelId, origins);
    case _ =>
  }

  /** However often the session is closed, once is enough. */
  lemma {:induction false} HomesSettle(s: State, n: nat, origins: Origins)
    requires n > 0 && (AtHome(s, origins) || Away(s, origins))
    ensures HomeAfter(s, n).lastChannelId == 0 && BookHome(HomeAfter(s, n).book, origins)
    decreases n
  {
    hide BookHome, BookAway, GoHome;
    if n == 1 {
      if Away(s, origins) {
        GoHomeReturns(s.book, s.lastChannelId, origins);
      } else {
        StayHome(HomeOf(s));
      }
    } else {
      HomesSettle(s, n - 1, origins);
      StayHome(HomeAfter(s, n - 1));
    }
  }

  lemma StayHome(home: Home)
    requires home.lastChannelId == 0
    ensures GoHome(home.lastChannelId, home.book) == home
  {
  }

  lemma TurnKeepsSession(s: State, event: NetEvent, pending: seq<NetEvent>, origins: Origins)
    requires Inv(s) && Open(s) && (AtHome(s, origins) || Away(s, origins))
    requires Polite(s, Network(event, pending), origins)
    ensures var r := Turn(s, event, pending); AtHome(r, origins) || Away(r, origins)
  {
    hide Parse, OnPacket, BookHome, BookAway, HomeAfter, Returned, Rejects;
    var e := Network(event, pending);
    if Ends(e) {
      EndingsGoHome(s, e);
      HomesSettle(s, Closes(s, e), origins);
      assert Turn(s, event, pending) == Step(s, e);
      hide Turn;
    }
    match event
    case Receive(channel, payload) =>
      var logged := Arrived(s).(log := s.log + [Got(channel, payload)]);
      var parsed := Parse(channel, payload);
      if parsed.Some? {
        if !Ends(e) {
          if parsed.value.VersionResponse? {
            ParsedRejection(channel, payload);
          }
          PacketKeepsSession(logged, parsed.value, pending, origins);
        }
      }
    case _ =>
  }

  lemma CallbacksKeepSession(s: State, e: Event, origins: Origins)
    requires e.TalkStatus? || e.SelfVariable? || e.ClientMove?
    requires (AtHome(s, origins) || Away(s, origins)) && Polite(s, e, origins)
    ensures var r := Step(s, e); AtHome(r, origins) || Away(r, origins)
  {
    hide Send, SetClientPosition, MuteClients, BookHome, BookAway, ClientId, ChannelId, OnlyPositions;
    match e
    case TalkStatus(h, talking, id) => AskingKeeps(s.book, h, s.lastChannelId, origins);
    case ClientMove(h, id, from, to) =>
      AskingKeeps(s.book, h, s.lastChannelId, origins);
      var asked := s.book.(env := ClientId(s.book.env, h).env);
      AskingKeeps(asked, h, s.lastChannelId, origins);
      var b := asked.(env := ChannelId(asked.env, h).env);
      if s.IsIngame() {
        var placed := SetClientPosition(b, id, ORIGIN).book;
        PlaceIsQuiet(b, id, ORIGIN);
        QuietKeeps(b, placed, s.lastChannelId, origins);
        MutesStayAway(b, {id}, true, s.lastChannelId, origins);
        MutesStayAway(placed, {id}, false, s.lastChannelId, origins);
      }
    case _ =>
  }

  lemma AskingKeeps(b: Book, h: U64, last: U64, origins: Origins)
    ensures var r := b.(env := ClientId(b.env, h).env);
            (BookHome(b, origins) ==> BookHome(r, origins)) && (BookAway(b, last, origins) ==> BookAway(r, last, origins))
    ensures var r := b.(env := ChannelId(b.env, h).env);
            (BookHome(b, origins) ==> BookHome(r, origins)) && (BookAway(b, last, origins) ==> BookAway(r, last, origins))
  {
    QuietKeeps(b, b.(env := ClientId(b.env, h).env), last, origins);
    QuietKeeps(b, b.(env := ChannelId(b.env, h).env), last, origins);
  }

  lemma OutsideKeeps(b: Book, env: Env, last: U64, origins: Origins)
    requires StandingKept(b.env, env)
    ensures BookHome(b, origins) ==> BookHome(b.(env := env), origins)
    ensures BookAway(b, last, origins) ==> BookAway(b.(env := env), last, origins)
  {
  }

  lemma StepKeepsSession(s: State, e: Event, origins: Origins)
    requires Inv(s) && (AtHome(s, origins) || Away(s, origins)) && Polite(s, e, origins)
    ensures var r := Step(s, e); AtHome(r, origins) || Away(r, origins)
  {
    if e.Dialled? || e.Disconnected? || e.Stopped? {
      LinkStepsGoHome(s, e);
      if Closes(s, e) > 0 {
        HomesSettle(s, Closes(s, e), origins);
      }
      NextHome(s, 0);
      hide Step, BookHome, BookAway, HomeAfter, Closes;
    } else if e.Network? {
      if s.link.thread == Looping {
        TurnKeepsSession(s, e.event, e.pending, origins);
      }
      hide Turn, BookHome, BookAway;
    } else if e.Outside? {
      OutsideKeeps(s.book, e.env, s.lastChannelId, origins);
      hide BookHome, BookAway;
    } else {
      CallbacksKeepSession(s, e, origins);
      hide Step;
    }
  }

  /** Over any number of sessions with polite servers and a TeamSpeak that answers, whatever else
      happens in whatever order and however each session ends: whenever the client is closed, the
      user is back in his channel under his name on every server, nobody is muted, and nothing is
      left in the bookkeeping. */
  lemma {:induction false} SessionsRestore(s: State, es: seq<Event>, origins: Origins)
    requires Inv(s) && (AtHome(s, origins) || Away(s, origins)) && PoliteRun(s, es, origins)
    ensures var r := Run(s, es);
            && Inv(r)
            && (AtHome(r, origins) || Away(r, origins))
            && (Closed(r) ==> AtHome(r, origins))
    decreases |es|
  {
    hide BookHome, BookAway, Step, Polite;
    if es != [] {
      StepKeepsInv(s, es[0]);
      StepKeepsSession(s, es[0], origins);
      SessionsRestore(Step(s, es[0]), es[1..], origins);
    }
  }

  /** One session in full: a connection, an accepted handshake, any polite events that leave the
      session open, and any of the five endings put everything back. */
  lemma SessionRestored(s: State, e: Event, origins: Origins)
    requires Inv(s) && Away(s, origins) && Ends(e)
    ensures var r := Step(s, e);
            Closed(r) && AtHome(r, origins) && AllUntouched(r.book.env, origins)
  {
    hide Step, HomeAfter, Closes, BookAway;
    EndingsGoHome(s, e);
    HomesSettle(s, Closes(s, e), origins);
  }
}
