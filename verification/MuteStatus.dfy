/** In game, whether a client is muted is decided by the last event that names him. */
module MuteStatus {
  import opened Common
  import opened IdSets
  import opened TeamSpeak
  import opened Bookkeeping
  import opened MuteAgreement
  import opened NicknameSaver
  import opened Protocol
  import opened Session
  import opened Lifecycle
  import opened Shutdown
  import opened Handshakes
  import opened UpdateBatches

  /** Where the user sits while in game. */
  datatype Seat = Seat(handle: U64, channel: U64, ownId: U16)

  ghost predicate Seated(e: Env, seat: Seat) {
    && AllGood(e) && Usable(e, seat.handle)
    && e.servers[seat.handle].channel == seat.channel
    && e.servers[seat.handle].ownId == seat.ownId
  }

  ghost predicate BookSeated(b: Book, seat: Seat) {
    Seated(b.env, seat) && b.handle == seat.handle && b.cache == Muted(b) && 0 !in b.cache
  }

  ghost predicate InGame(s: State, seat: Seat) {
    s.IsIngame() && Open(s) && BookSeated(s.book, seat)
  }

  /** Events that leave the user in game in his seat. */
  ghost predicate GamePacket(p: Packet) {
    match p
    case VersionResponse(status, major, minor) =>
      status == STATUS_CODE_OK && VerifyProtocolVersion(major, minor, MIN_VERSION_MAJOR, MIN_VERSION_MINOR)
    case HandshakeResponse(status, _, _, _, _) => status != STATUS_CODE_OK
    case Update(audio, _) => NonzeroEntries(audio)
    case _ => true
  }

  ghost predicate GameEvent(s: State, e: Event, seat: Seat) {
    match e
    case Network(Quiet, _) => true
    case Network(OtherEvent, _) => true
    case Network(Receive(channel, payload), _) =>
      var p := Parse(channel, payload);
      p.Some? ==> GamePacket(p.value)
    case TalkStatus(_, _, _) => true
    case SelfVariable(_, _, _) => true
    case ClientMove(_, clientId, _, _) => clientId != 0
    case Outside(env) =>
      Seated(env, seat) && seat.handle in s.book.env.servers
      && env.servers[seat.handle].muted == s.book.env.servers[seat.handle].muted
    case _ => false
  }

  ghost predicate GameRun(s: State, es: seq<Event>, seat: Seat)
    decreases |es|
  {
    es != [] ==> GameEvent(s, es[0], seat) && GameRun(Step(s, es[0]), es[1..], seat)
  }

  /** What an update packet decides about `id`: unmuting wins. */
  function UpdateVerdict(audio: seq<AudioUpdate>, id: U16): Option<bool> {
    if id in AudioIds(audio, false) then Some(false)
    else if id in AudioIds(audio, true) then Some(true)
    else None
  }

  /** What an event decides about `id`: entering the user's channel mutes, leaving it unmutes, an
      update says which. */
  function Verdict(e: Event, seat: Seat, id: U16): Option<bool> {
    match e
    case ClientMove(handle, clientId, from, to) =>
      if handle != seat.handle || clientId != id || id == seat.ownId then None
      else if to == seat.channel then Some(true)
      else if from == seat.channel then Some(false)
      else None
    case Network(Receive(channel, payload), _) =>
      var p := Parse(channel, payload);
      if p.Some? && p.value.Update? then UpdateVerdict(p.value.audioUpdates, id) else None
    case _ => None
  }

  /** The verdict of the last event that has one. */
  function LastVerdict(es: seq<Event>, seat: Seat, id: U16): Option<bool> {
    if es == [] then None
    else
      var last := Verdict(es[|es| - 1], seat, id);
      if last.Some? then last else LastVerdict(es[..|es| - 1], seat, id)
  }

  ghost predicate Decided(before: Book, after: Book, verdict: Option<bool>, id: U16, seat: Seat)
    requires BookSeated(before, seat)
  {
    && BookSeated(after, seat)
    && (id in Muted(after) <==> match verdict case Some(muted) => muted case None => id in Muted(before))
  }

  // ---------- one event ----------

  lemma OnlyPositionsDecides(b: Book, r: Book, id: U16, seat: Seat)
    requires BookSeated(b, seat) && OnlyPositions(b, r)
    ensures Decided(b, r, None, id, seat)
  {
  }

  lemma OnlyNamesDecides(b: Book, r: Book, id: U16, seat: Seat)
    requires BookSeated(b, seat) && OnlyNames(b, r) && r.cache == b.cache
    ensures Decided(b, r, None, id, seat)
  {
  }

  lemma MuteDecides(b: Book, clientId: U16, mute: bool, id: U16, seat: Seat)
    requires BookSeated(b, seat) && clientId != 0
    ensures Decided(b, MuteClients(b, {clientId}, mute).book, if clientId == id then Some(mute) else None, id, seat)
  {
  }

  lemma AudioDecides(b: Book, audio: seq<AudioUpdate>, id: U16, seat: Seat)
    requires BookSeated(b, seat) && NonzeroEntries(audio)
    ensures Decided(b, ApplyAudio(b, audio), UpdateVerdict(audio, id), id, seat)
  {
    BatchExact(b, audio);
    var up, down := AudioIds(audio, true), AudioIds(audio, false);
    MuteKeepsSeat(b, up, true, seat);
    MuteKeepsSeat(MuteClients(b, up, true).book, down, false, seat);
  }

  lemma MuteKeepsSeat(b: Book, clients: set<U16>, mute: bool, seat: Seat)
    requires BookSeated(b, seat) && 0 !in clients
    ensures BookSeated(MuteClients(b, clients, mute).book, seat)
  {
  }

  lemma PacketDecides(s: State, p: Packet, pending: seq<NetEvent>, id: U16, seat: Seat)
    requires InGame(s, seat) && GamePacket(p)
    ensures var r := OnPacket(s, p, pending);
            && r.link == s.link && r.teamspeakId == s.teamspeakId
            && Decided(s.book, r.book, if p.Update? then UpdateVerdict(p.audioUpdates, id) else None, id, seat)
  {
    hide ClientIdentity, Send, PlaceEach, SetNickname, ApplyAudio, UpdateVerdict, OnlyPositions, OnlyNames, BookSeated, Disconnect;
    match p
    case VersionResponse(_, _, _) =>
      IdentityIsQuiet(s.book);
      OnlyPositionsDecides(s.book, ClientIdentity(s.book).book, id, seat);
    case HandshakeResponse(_, _, _, _, _) =>
      ReflexivelyQuiet(s.book);
      OnlyPositionsDecides(s.book, s.book, id, seat);
    case Update(audio, positions) =>
      AudioDecides(s.book, audio, id, seat);
      var heard := ApplyAudio(s.book, audio);
      PlaceEachIsQuiet(heard, Placements(positions));
      OnlyPositionsDecides(heard, PlaceEach(heard, Placements(positions)), id, seat);
    case Control(name) =>
      SetTouchesNames(s.book, name);
      NamesKeepCache(s.book, SetNickname(s.book, name).book);
      ReflexivelyQuiet(s.book);
      OnlyPositionsDecides(s.book, s.book, id, seat);
      OnlyNamesDecides(s.book, SetNickname(s.book, name).book, id, seat);
    case Positions(_, _, _, _, ps) =>
      PlaceEachIsQuiet(s.book, Placements(ps));
      OnlyPositionsDecides(s.book, PlaceEach(s.book, Placements(ps)), id, seat);
    case _ =>
      ReflexivelyQuiet(s.book);
      OnlyPositionsDecides(s.book, s.book, id, seat);
  }

  lemma NamesKeepCache(b: Book, r: Book)
    requires OnlyNames(b, r)
    ensures r.cache == b.cache
  {
  }

  lemma AskingDecides(b: Book, h: U64, id: U16, seat: Seat)
    requires BookSeated(b, seat)
    ensures Decided(b, b.(env := ClientId(b.env, h).env), None, id, seat)
    ensures Decided(b, b.(env := ChannelId(b.env, h).env), None, id, seat)
    ensures h == seat.handle ==> ClientId(b.env, h).value == seat.ownId && ChannelId(b.env, h).value == seat.channel
  {
  }

  lemma MoveDecides(s: State, handle: U64, clientId: U16, from: U64, to: U64, id: U16, seat: Seat)
    requires InGame(s, seat) && clientId != 0
    ensures var r := OnClientMove(s, handle, clientId, from, to);
            && r.link == s.link && r.teamspeakId == s.teamspeakId
            && Decided(s.book, r.book, Verdict(ClientMove(handle, clientId, from, to), seat, id), id, seat)
  {
    hide ClientId, ChannelId, SetClientPosition, MuteClients, BookSeated, OnlyPositions;
    AskingDecides(s.book, handle, id, seat);
    ReflexivelyQuiet(s.book);
    OnlyPositionsDecides(s.book, s.book, id, seat);
    if handle == s.book.handle {
      assert handle == seat.handle by { SeatHandle(s.book, seat); }
      var asked := s.book.(env := ClientId(s.book.env, handle).env);
      AskingDecides(asked, handle, id, seat);
      var b := asked.(env := ChannelId(asked.env, handle).env);
      MuteDecides(b, clientId, true, id, seat);
      PlaceIsQuiet(b, clientId, ORIGIN);
      var placed := SetClientPosition(b, clientId, ORIGIN).book;
      OnlyPositionsDecides(b, placed, id, seat);
      MuteDecides(placed, clientId, false, id, seat);
    } else {
      SeatHandle(s.book, seat);
    }
  }

  lemma SeatHandle(b: Book, seat: Seat)
    requires BookSeated(b, seat)
    ensures b.handle == seat.handle
  {
  }

  /** One event of a game: the user stays in game in his seat, and every client's status is the
      event's verdict or, without one, what it was. */
  lemma StepDecides(s: State, e: Event, id: U16, seat: Seat)
    requires InGame(s, seat) && GameEvent(s, e, seat)
    ensures var r := Step(s, e);
            InGame(r, seat) && Decided(s.book, r.book, Verdict(e, seat, id), id, seat)
  {
    hide Parse, OnPacket, OnClientMove, ClientId, Send, LeaveLoop, BookSeated, Seated;
    match e
    case Network(Receive(channel, payload), pending) =>
      var logged := Arrived(s).(log := s.log + [Got(channel, payload)]);
      var p := Parse(channel, payload);
      if p.Some? {
        PacketDecides(logged, p.value, pending, id, seat);
      } else {
        ReflexivelyQuiet(s.book);
        OnlyPositionsDecides(s.book, s.book, id, seat);
      }
    case ClientMove(handle, clientId, from, to) => MoveDecides(s, handle, clientId, from, to, id, seat);
    case TalkStatus(handle, _, _) =>
      ReflexivelyQuiet(s.book);
      OnlyPositionsDecides(s.book, s.book, id, seat);
      AskingDecides(s.book, handle, id, seat);
    case Outside(env) => OutsideDecides(s.book, env, id, seat);
    case _ =>
      ReflexivelyQuiet(s.book);
      OnlyPositionsDecides(s.book, s.book, id, seat);
  }

  lemma OutsideDecides(b: Book, env: Env, id: U16, seat: Seat)
    requires BookSeated(b, seat) && Seated(env, seat)
    requires env.servers[seat.handle].muted == b.env.servers[seat.handle].muted
    ensures Decided(b, b.(env := env), None, id, seat)
  {
  }

  // ---------- runs ----------

  lemma {:induction false} RunOnceMore(s: State, es: seq<Event>, e: Event)
    ensures Run(s, es + [e]) == Step(Run(s, es), e)
    decreases |es|
  {
    hide Step;
    if es == [] {
      assert [e][1..] == [];
    } else {
      assert (es + [e])[0] == es[0] && (es + [e])[1..] == es[1..] + [e];
      RunOnceMore(Step(s, es[0]), es[1..], e);
    }
  }

  lemma {:induction false} GameRunSplit(s: State, es: seq<Event>, seat: Seat)
    requires es != [] && GameRun(s, es, seat)
    ensures GameRun(s, es[..|es| - 1], seat)
    ensures GameEvent(Run(s, es[..|es| - 1]), es[|es| - 1], seat)
    decreases |es|
  {
    hide Step, GameEvent;
    var front := es[..|es| - 1];
    if |es| > 1 {
      assert front[0] == es[0] && front[1..] == es[1..][..|es| - 2];
      GameRunSplit(Step(s, es[0]), es[1..], seat);
    }
  }

  /** After any run in game, a client is muted exactly when the last event about him says so, or,
      when none was about him, when he was muted at the start. */
  lemma {:induction false} StatusIsLastVerdict(s: State, es: seq<Event>, id: U16, seat: Seat)
    requires InGame(s, seat) && GameRun(s, es, seat)
    ensures var r := Run(s, es);
            InGame(r, seat) && Decided(s.book, r.book, LastVerdict(es, seat, id), id, seat)
    decreases |es|
  {
    hide Step, Verdict, GameEvent, BookSeated;
    if es == [] {
      ReflexivelyQuiet(s.book);
      OnlyPositionsDecides(s.book, s.book, id, seat);
    } else {
      var front, last := es[..|es| - 1], es[|es| - 1];
      GameRunSplit(s, es, seat);
      StatusIsLastVerdict(s, front, id, seat);
      StepDecides(Run(s, front), last, id, seat);
      RunOnceMore(s, front, last);
      assert front + [last] == es;
    }
  }

  /** An accepted handshake starts such a run, with every listed member of the channel muted. */
  lemma HandshakeSeats(s: State, p: Packet)
    requires Open(s) && s.link.gameId != 0 && p.HandshakeResponse? && p.statusCode == STATUS_CODE_OK
    requires AllGood(s.book.env) && VerifyServer(s.book, p.serverUid).value
    requires var h := VerifyServer(s.book, p.serverUid).book.handle;
             && Usable(s.book.env, h)
             && s.book.cache == s.book.env.servers[h].muted && 0 !in s.book.cache
    ensures var h := VerifyServer(s.book, p.serverUid).book.handle;
            var seat := Seat(h, p.channelId, s.book.env.servers[h].ownId);
            var r := OnHandshakeResponse(s, p);
            && InGame(r, seat)
            && Muted(r.book) == s.book.cache + MembersOf(s.book.env, h, p.channelId)
  {
    HandshakeExact(s, p);
    hide VerifyServer, OnHandshakeResponse, MembersOf, Joined;
    var h := VerifyServer(s.book, p.serverUid).book.handle;
    MembersNonzero(s.book.env, h, p.channelId);
    JoinedSeated(s.book.(handle := h), OnHandshakeResponse(s, p).book, MembersOf(s.book.env, h, p.channelId), p.channelId);
  }

  lemma JoinedSeated(b: Book, r: Book, ids: set<U16>, channel: U64)
    requires AllGood(b.env) && Usable(b.env, b.handle) && b.cache == Muted(b) && 0 !in b.cache && 0 !in ids
    requires Became(b, r, b.cache + ids, Joined(b.env.servers[b.handle], ids, channel))
    ensures BookSeated(r, Seat(b.handle, channel, b.env.servers[b.handle].ownId))
    ensures Muted(r) == b.cache + ids
  {
  }

  // ---------- members ----------

  /** The channel's members as the events tell. */
  function MembersAfter(members: set<U16>, e: Event, seat: Seat): set<U16> {
    match e
    case ClientMove(handle, clientId, from, to) =>
      if handle != seat.handle || clientId == seat.ownId then members
      else if to == seat.channel then members + {clientId}
      else if from == seat.channel then members - {clientId}
      else members
    case _ => members
  }

  /** Updates mute nobody but members. */
  ghost predicate NamesMembers(members: set<U16>, e: Event) {
    match e
    case Network(Receive(channel, payload), _) =>
      var p := Parse(channel, payload);
      p.Some? && p.value.Update? ==> AudioIds(p.value.audioUpdates, true) <= members
    case _ => true
  }

  function MembersAfterAll(members: set<U16>, es: seq<Event>, seat: Seat): set<U16>
    decreases |es|
  {
    if es == [] then members else MembersAfterAll(MembersAfter(members, es[0], seat), es[1..], seat)
  }

  ghost predicate AllNameMembers(members: set<U16>, es: seq<Event>, seat: Seat)
    decreases |es|
  {
    es != [] ==> NamesMembers(members, es[0]) && AllNameMembers(MembersAfter(members, es[0], seat), es[1..], seat)
  }

  lemma StepMutesMembers(s: State, e: Event, members: set<U16>, seat: Seat)
    requires InGame(s, seat) && GameEvent(s, e, seat) && NamesMembers(members, e) && Muted(s.book) <= members
    ensures InGame(Step(s, e), seat) && Muted(Step(s, e).book) <= MembersAfter(members, e, seat)
  {
    StepDecides(s, e, 0, seat);
    forall id | id in Muted(Step(s, e).book)
      ensures id in MembersAfter(members, e, seat)
    {
      StepDecides(s, e, id, seat);
      hide Step, Parse, GameEvent;
    }
  }

  /** If updates mute only members, only members are ever muted. */
  lemma {:induction false} OnlyMembersMuted(s: State, es: seq<Event>, members: set<U16>, seat: Seat)
    requires InGame(s, seat) && GameRun(s, es, seat)
    requires Muted(s.book) <= members && AllNameMembers(members, es, seat)
    ensures InGame(Run(s, es), seat) && Muted(Run(s, es).book) <= MembersAfterAll(members, es, seat)
    decreases |es|
  {
    hide Step, GameEvent, NamesMembers, MembersAfter;
    if es != [] {
      StepMutesMembers(s, es[0], members, seat);
      OnlyMembersMuted(Step(s, es[0]), es[1..], MembersAfter(members, es[0], seat), seat);
    }
  }

  /** A client who leaves the user's channel is put back to the origin; one who enters keeps his place. */
  lemma LeavingResetsPosition(s: State, clientId: U16, from: U64, to: U64, seat: Seat)
    requires InGame(s, seat) && clientId != seat.ownId && (from == seat.channel || to == seat.channel)
    ensures var r := OnClientMove(s, seat.handle, clientId, from, to).book;
            && seat.handle in r.env.servers
            && r.env.servers[seat.handle].positions ==
                 (if to == seat.channel then s.book.env.servers[seat.handle].positions
                  else s.book.env.servers[seat.handle].positions[clientId := ORIGIN])
  {
    var id := ClientId(s.book.env, seat.handle);
    assert id.value == seat.ownId;
    var channel := ChannelId(id.env, seat.handle);
    assert channel.value == seat.channel;
    hide ClientId, ChannelId;
  }
}
