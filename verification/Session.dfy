/** The voice session: the fields of the client and what every operation makes of them, as functions
    of a state value. The class `Client` runs the same operations in place.

    Two actors work on the session: callers, and the update thread the session starts. An operation
    is one step; when a caller stops the update thread, the end of the thread's loop and its `close`
    are part of the caller's step. */
module Session {
  import opened Common
  import opened TeamSpeak
  import opened Bookkeeping
  import opened Protocol

  datatype Actor = Caller | UpdateThread

  /** `_thread`: no object; an object whose thread is in the update loop; an object whose thread has
      returned and waits to be joined. */
  datatype Thread = NoThread | Looping | Finished

  /** One answer of `enet_host_service`: nothing in time, an error, or an event. */
  datatype NetEvent =
    | Quiet
    | NetError
    | ServerGone
    | Receive(channel: nat, payload: Text)
    | OtherEvent

  /** ENet's answers while a connection is set up. */
  datatype Dial = Dial(hostCreated: bool, peerCreated: bool, connected: bool)

  /** What went over the current or last connection, oldest first. */
  datatype Entry =
    | Got(channel: nat, payload: Text)
    | Sent(channel: nat, data: Text)
    | Bye(status: nat)

  /** `packets` is the book of the packets ENet hands out and is to be given back: `Take` is a service
      call that returns one, `Give` an `enet_packet_destroy`. */
  datatype Usage = Usage(
    hostsCreated: nat,
    hostsDestroyed: nat,
    threadsCreated: nat,
    threadsJoined: nat,
    packets: Ledger)
  {
    /** The next packet arrives; its number is the old `packets.out`. */
    function Receive(): Usage {
      this.(packets := packets.Take())
    }

    function Destroy(number: nat): Usage {
      this.(packets := packets.Give(number))
    }
  }

  const DISCONNECT_STATUS_OK: nat := 0
  const DISCONNECT_STATUS_RECONNECT: nat := 1
  const DISCONNECT_STATUS_OUTDATED_SERVER: nat := 2
  const DISCONNECT_STATUS_OUTDATED_CLIENT: nat := 3

  /** The connection. `hostSet` and `peerSet` say whether `_client` and `_peer` are non-null. */
  datatype Link = Link(
    hostSet: bool,
    peerSet: bool,
    thread: Thread,
    running: bool,
    host: Text,
    port: U16,
    gameId: U16,
    use: Usage)
  {
    predicate IsOpen() {
      hostSet && peerSet && running
    }

    /** Peer and host given back, the connection's data cleared. */
    function Released(): Link {
      Link(false, false, thread, false, [], 0, 0,
           if hostSet then use.(hostsDestroyed := use.hostsDestroyed + 1) else use)
    }
  }

  /** What the user's client says about itself. */
  datatype Voice = Voice(talking: bool, microphoneMuted: bool, speakersMuted: bool)

  datatype State = State(
    link: Link,
    teamspeakId: U16,
    lastChannelId: U64,
    voice: Voice,
    book: Book,
    log: seq<Entry>)
  {
    predicate IsOpen() {
      link.IsOpen()
    }

    predicate IsIngame() {
      IsOpen() && link.gameId != 0 && teamspeakId != 0
    }
  }

  function StatusPacket(v: Voice): Packet {
    Status(v.talking, v.microphoneMuted, v.speakersMuted)
  }

  /** A new client; its port is whatever the memory held. */
  function Initial(port: U16, book: Book): State {
    State(Link(false, false, NoThread, false, [], port, 0, Usage(0, 0, 0, 0, EMPTY_LEDGER)),
          0, 0, Voice(false, false, false), book, [])
  }

  // ---------- closing ----------

  datatype Home = Home(lastChannelId: U64, book: Book)

  /** The way back: move to the saved channel, and after that move unmute everybody and take back
      the original nickname. */
  function GoHome(lastChannelId: U64, b: Book): Home {
    if lastChannelId == 0 || b.handle == 0 then Home(lastChannelId, b)
    else
      var channel := ChannelId(b.env, b.handle);
      var asked := b.(env := channel.env);
      if channel.value == lastChannelId then Home(lastChannelId, asked)
      else
        var moved := MoveToChannel(asked, lastChannelId);
        if !moved.value then Home(0, moved.book)
        else Home(0, ResetNickname(UnmuteAllClients(ResetPositions(moved.book)).book).book)
  }

  function Rank(actor: Actor): nat {
    if actor == Caller then 1 else 0
  }

  /** Stops and joins the update thread; nothing when the update thread itself asks. The thread's
      service call may still return one event, the first of `pending`. */
  function AbortThread(s: State, actor: Actor, pending: seq<NetEvent>): State
    decreases Rank(actor), 0
  {
    if s.link.thread == NoThread || actor == UpdateThread then s
    else
      var stopped := s.(link := s.link.(running := false));
      var ended := if s.link.thread == Looping then LeaveLoop(Discard(stopped, pending)) else stopped;
      ended.(link := ended.link.(thread := NoThread, use := Join(ended.link.use)))
  }

  function Join(use: Usage): Usage {
    use.(threadsJoined := use.threadsJoined + 1)
  }

  /** The last event the update thread sees once it has been told to stop: a packet is destroyed
      unread. */
  function Discard(s: State, pending: seq<NetEvent>): State {
    if pending != [] && pending[0].Receive?
    then s.(link := s.link.(use := s.link.use.Receive().Destroy(s.link.use.packets.out)))
    else s
  }

  /** The update thread falls out of its loop, closes the session and returns. */
  function LeaveLoop(s: State): State
    decreases 0, 2
  {
    var closed := Close(s, UpdateThread, []);
    closed.(link := closed.link.(thread := Finished))
  }

  function Close(s: State, actor: Actor, pending: seq<NetEvent>): State
    decreases Rank(actor), 1
  {
    var ended := AbortThread(s, actor, pending);
    var home := GoHome(ended.lastChannelId, ended.book);
    ended.(link := ended.link.Released(), teamspeakId := 0,
           lastChannelId := home.lastChannelId, book := home.book)
  }

  /** The packets thrown away while a disconnect waits for its confirmation. */
  function Drain(use: Usage, pending: seq<NetEvent>): Usage
    decreases |pending|
  {
    if pending == [] then use
    else
      match pending[0]
      case Quiet => use
      case NetError => use
      case ServerGone => use
      case Receive(_, _) => Drain(use.Receive().Destroy(use.packets.out), pending[1..])
      case OtherEvent => Drain(use, pending[1..])
  }

  function Disconnect(s: State, actor: Actor, status: nat, pending: seq<NetEvent>): State {
    if !s.link.peerSet then s
    else
      var ended := AbortThread(s.(log := s.log + [Bye(status)]), actor, pending);
      var use := if ended.link.hostSet then Drain(ended.link.use, pending) else ended.link.use;
      var cleared := ended.(link := ended.link.(host := [], port := 0, gameId := 0, use := use), teamspeakId := 0);
      Close(cleared, actor, [])
  }

  /** Plugin shutdown: disconnect, then the destructor. */
  function Stop(s: State, pending: seq<NetEvent>): State {
    Close(Disconnect(s, Caller, DISCONNECT_STATUS_OK, pending), Caller, [])
  }

  // ---------- sending ----------

  /** A packet that cannot be archived is not sent. */
  function Send(s: State, channel: nat, p: Packet): (r: State)
    ensures r == s.(log := r.log) && s.log <= r.log
  {
    if Archivable(p) then s.(log := s.log + [Sent(channel, SerializePacket(p))]) else s
  }

  function SendProtocolMessage(s: State): State {
    Send(s, PROTOCOL_CHANNEL, Version(VERSION_MAJOR, VERSION_MINOR, MIN_VERSION_MAJOR, MIN_VERSION_MINOR))
  }

  function SendHandshake(s: State, statusCode: I32): State {
    var identity := ClientIdentity(s.book);
    Send(s.(book := identity.book), HANDSHAKE_CHANNEL,
         Handshake(s.link.gameId, s.teamspeakId, statusCode, identity.value))
  }

  function SendStatus(s: State): State {
    Send(s, STATUS_CHANNEL, StatusPacket(s.voice))
  }

  // ---------- connecting ----------

  datatype Attempt = Attempt(state: State, ok: bool)

  function Connect(s: State, host: Text, port: U16, uid: U16, dial: Dial, pending: seq<NetEvent>): Attempt {
    if host == s.link.host && s.link.port == port && s.link.gameId == uid then Attempt(s, true)
    else if s.IsOpen() then
      DialHost(Disconnect(s, Caller, DISCONNECT_STATUS_RECONNECT, pending), host, port, uid, dial)
    else DialHost(s, host, port, uid, dial)
  }

  function CreateHost(l: Link, peerSet: bool): Link {
    l.(hostSet := true, peerSet := peerSet, use := l.use.(hostsCreated := l.use.hostsCreated + 1))
  }

  function DialHost(s: State, host: Text, port: U16, uid: U16, dial: Dial): Attempt {
    if !dial.hostCreated then Attempt(s.(link := s.link.(hostSet := false)), false)
    else
      var hosted := s.(link := CreateHost(s.link, dial.peerCreated));
      if !dial.peerCreated || !dial.connected then Attempt(Close(hosted, Caller, []), false)
      else Attempt(StartThread(AbortThread(hosted, Caller, []), host, port, uid), true)
  }

  function StartThread(s: State, host: Text, port: U16, uid: U16): State {
    var use := s.link.use.(threadsCreated := s.link.use.threadsCreated + 1);
    SendProtocolMessage(
      s.(link := s.link.(gameId := uid, host := host, port := port, running := true, thread := Looping, use := use),
         teamspeakId := 0,
         log := []))
  }

  // ---------- messages ----------

  function OnVersionResponse(s: State, p: Packet, pending: seq<NetEvent>): State
    requires p.VersionResponse?
  {
    if !VerifyProtocolVersion(p.major, p.minor, MIN_VERSION_MAJOR, MIN_VERSION_MINOR) then
      Disconnect(s, UpdateThread, DISCONNECT_STATUS_OUTDATED_SERVER, pending)
    else if p.status != STATUS_CODE_OK then
      Disconnect(s, UpdateThread, DISCONNECT_STATUS_OUTDATED_CLIENT, pending)
    else SendHandshake(s, STATUS_CODE_OK)
  }

  /** The channel to come back to and whether the plugin may mute the output during the move; the
      output muted if so. */
  datatype Departure = Departure(book: Book, lastChannelId: U64, tempMute: bool)

  function PrepareMove(b: Book): Departure {
    var channel := ChannelId(b.env, b.handle);
    var output := IsOutputMuted(channel.env, b.handle);
    var asked := b.(env := output.env);
    if output.value then Departure(asked, channel.value, false)
    else Departure(SetOutputMuted(asked, b.handle, true).book, channel.value, true)
  }

  /** The members of the channel muted one by one, the output back on if the plugin muted it. */
  function MuteChannel(b: Book, channel: U64, tempMute: bool): Book {
    var clients := ClientsInChannel(b, channel);
    var muted := MuteEach(clients.book, clients.value, true);
    if tempMute then SetOutputMuted(muted, muted.handle, false).book else muted
  }

  /** The session enters the game: id and saved channel are stored, handshake and status are sent. */
  function EnterGame(s: State, lastChannelId: U64): State {
    var id := ClientId(s.book.env, s.book.handle);
    var greeted := SendHandshake(s.(teamspeakId := id.value, lastChannelId := lastChannelId,
                                    book := s.book.(env := id.env)), STATUS_CODE_OK);
    var input := IsInputMuted(greeted.book.env, greeted.book.handle);
    var output := IsOutputMuted(input.env, greeted.book.handle);
    SendStatus(greeted.(voice := greeted.voice.(microphoneMuted := input.value, speakersMuted := output.value),
                        book := greeted.book.(env := output.env)))
  }

  function OnHandshakeResponse(s: State, p: Packet): State
    requires p.HandshakeResponse?
  {
    if p.statusCode != STATUS_CODE_OK then s
    else
      var verified := VerifyServer(s.book, p.serverUid);
      if !verified.value then
        SendHandshake(s.(book := verified.book), STATUS_CODE_NOT_CONNECTED_TO_SERVER)
      else
        var departure := PrepareMove(verified.book);
        var moved := MoveToChannel(departure.book, p.channelId);
        if !moved.value then SendHandshake(s.(book := moved.book), STATUS_CODE_NOT_MOVED_TO_CHANNEL)
        else
          EnterGame(s.(book := MuteChannel(moved.book, p.channelId, departure.tempMute)),
                    departure.lastChannelId)
  }

  /** The ids an update wants muted, or unmuted. */
  function AudioIds(updates: seq<AudioUpdate>, muted: bool): set<U16> {
    set u | u in updates && u.muted == muted :: u.teamspeakId
  }

  function Placements(ps: seq<PositionUpdate>): seq<Placement> {
    seq(|ps|, i requires 0 <= i < |ps| => Placement(ps[i].teamspeakId, Position(ps[i].x, ps[i].y, ps[i].z)))
  }

  function ApplyAudio(b: Book, updates: seq<AudioUpdate>): Book {
    MuteClients(MuteClients(b, AudioIds(updates, true), true).book, AudioIds(updates, false), false).book
  }

  function OnUpdate(s: State, p: Packet): State
    requires p.Update?
  {
    s.(book := PlaceEach(ApplyAudio(s.book, p.audioUpdates), Placements(p.positionUpdates)))
  }

  function OnControl(s: State, p: Packet): State
    requires p.Control?
  {
    if p.nickname == [] then s else s.(book := SetNickname(s.book, p.nickname).book)
  }

  function OnPositions(s: State, p: Packet): State
    requires p.Positions?
  {
    s.(book := PlaceEach(s.book, Placements(p.positions)))
  }

  /** What a payload means on its channel: a packet the client handles, or nothing it can use. */
  function Parse(channel: nat, payload: Text): Option<Packet> {
    if channel == PROTOCOL_CHANNEL then DeserializePacket(VersionResponseKind, payload)
    else if channel == HANDSHAKE_CHANNEL then DeserializePacket(HandshakeResponseKind, payload)
    else if channel == UPDATE_CHANNEL then DeserializePacket(UpdateKind, payload)
    else if channel == CONTROL_CHANNEL then DeserializePacket(ControlKind, payload)
    else if channel == POSITION_CHANNEL then DeserializePacket(PositionsKind, payload)
    else None
  }

  lemma ParsedChannel(channel: nat, payload: Text)
    requires Parse(channel, payload).Some? && Parse(channel, payload).value.VersionResponse?
    ensures channel == PROTOCOL_CHANNEL
  {
    hide DeserializePacket;
  }

  function OnPacket(s: State, p: Packet, pending: seq<NetEvent>): State {
    match p
    case VersionResponse(_, _, _) => OnVersionResponse(s, p, pending)
    case HandshakeResponse(_, _, _, _, _) => OnHandshakeResponse(s, p)
    case Update(_, _) => OnUpdate(s, p)
    case Control(_) => OnControl(s, p)
    case Positions(_, _, _, _, _) => OnPositions(s, p)
    case _ => s
  }

  function HandleMessage(s: State, channel: nat, payload: Text, pending: seq<NetEvent>): State {
    var logged := s.(log := s.log + [Got(channel, payload)]);
    match Parse(channel, payload)
    case None => logged
    case Some(p) => OnPacket(logged, p, pending)
  }

  lemma InnerDisconnectKeepsThread(s: State, status: nat, pending: seq<NetEvent>)
    ensures Disconnect(s, UpdateThread, status, pending).link.thread == s.link.thread
  {
    hide GoHome, Drain;
  }

  /** A handler never ends the thread it runs on, not even by disconnecting. */
  lemma HandlersKeepThread(s: State, channel: nat, payload: Text, pending: seq<NetEvent>)
    ensures HandleMessage(s, channel, payload, pending).link.thread == s.link.thread
  {
    hide Parse, GoHome, Send, ClientIdentity, VerifyServer, PrepareMove, MuteChannel, Disconnect;
    var logged := s.(log := s.log + [Got(channel, payload)]);
    InnerDisconnectKeepsThread(logged, DISCONNECT_STATUS_OUTDATED_SERVER, pending);
    InnerDisconnectKeepsThread(logged, DISCONNECT_STATUS_OUTDATED_CLIENT, pending);
  }

  // ---------- the update thread ----------

  /** A service call has returned a packet, which is not destroyed yet. */
  function Arrived(s: State): State {
    s.(link := s.link.(use := s.link.use.Receive()))
  }

  /** The body of the update loop for one answer of the service call; `pending` is what the network
      holds behind it. */
  function Serve(s: State, event: NetEvent, pending: seq<NetEvent>): State {
    match event
    case Quiet => s
    case OtherEvent => s
    case NetError => s.(link := s.link.(running := false))
    case ServerGone => s.(link := s.link.(running := false))
    case Receive(channel, payload) =>
      var arrived := Arrived(s);
      var handled := if s.link.running then HandleMessage(arrived, channel, payload, pending) else arrived;
      handled.(link := handled.link.(use := handled.link.use.Destroy(s.link.use.packets.out)))
  }

  /** One turn of the update loop; a turn that ends the loop includes the thread's way out. */
  function Turn(s: State, event: NetEvent, pending: seq<NetEvent>): State {
    var served := Serve(s, event, pending);
    if served.link.running && served.link.hostSet then served else LeaveLoop(served)
  }

  /** The update loop on a list of service answers, for as long as the loop lasts. */
  function Loop(s: State, events: seq<NetEvent>): State
    decreases |events|
  {
    if events == [] || s.link.thread != Looping then s
    else Loop(Turn(s, events[0], events[1..]), events[1..])
  }

  lemma LoopEnded(s: State, events: seq<NetEvent>)
    ensures Loop(LeaveLoop(s), events) == LeaveLoop(s)
  {
  }

  /** After an event the loop goes on only with a peer. */
  lemma ServeKeepsPeer(s: State, event: NetEvent, pending: seq<NetEvent>)
    requires s.link.running ==> s.link.peerSet
    ensures var r := Serve(s, event, pending); r.link.running ==> r.link.peerSet
  {
    hide Parse, GoHome, Drain, Send, ClientIdentity, VerifyServer, PrepareMove, MoveToChannel, MuteChannel, Disconnect;
    if event.Receive? && s.link.running {
      var logged := Arrived(s).(log := s.log + [Got(event.channel, event.payload)]);
      InnerDisconnectStops(logged, DISCONNECT_STATUS_OUTDATED_SERVER, pending);
      InnerDisconnectStops(logged, DISCONNECT_STATUS_OUTDATED_CLIENT, pending);
    }
  }

  lemma InnerDisconnectStops(s: State, status: nat, pending: seq<NetEvent>)
    requires s.link.peerSet
    ensures !Disconnect(s, UpdateThread, status, pending).link.running
  {
    hide GoHome, Drain;
  }

  /** A caller's disconnect of a session with a peer joins the thread. */
  lemma CallerDisconnectJoins(s: State, status: nat, pending: seq<NetEvent>)
    requires s.link.peerSet
    ensures Disconnect(s, Caller, status, pending).link.thread == NoThread
  {
    hide GoHome, Drain;
  }

  lemma AbortKeepsPeer(s: State)
    requires s.link.thread != Looping
    ensures AbortThread(s, Caller, []).link.peerSet == s.link.peerSet
  {
  }

  // ---------- the plugin's callbacks ----------

  function UpdateTalking(s: State, talking: bool): State {
    if s.IsOpen() then SendStatus(s.(voice := s.voice.(talking := talking))) else s
  }

  function UpdateMicrophoneMute(s: State, muted: bool): State {
    if s.IsOpen() then SendStatus(s.(voice := s.voice.(microphoneMuted := muted))) else s
  }

  function UpdateSpeakersMute(s: State, muted: bool): State {
    if s.IsOpen() then SendStatus(s.(voice := s.voice.(speakersMuted := muted))) else s
  }

  function OnTalkStatusChange(s: State, handle: U64, talking: bool, clientId: U16): State {
    if handle != s.book.handle then s
    else
      var own := ClientId(s.book.env, handle);
      var asked := s.(book := s.book.(env := own.env));
      if clientId != own.value then asked else UpdateTalking(asked, talking)
  }

  datatype SelfFlag = InputMuted | OutputMuted | OtherFlag

  const ONE: Text := [49]

  function OnSelfVariableUpdate(s: State, handle: U64, flag: SelfFlag, newValue: CText): State {
    if handle != s.book.handle then s
    else
      match flag
      case OtherFlag => s
      case InputMuted => UpdateMicrophoneMute(s, newValue == ONE)
      case OutputMuted => UpdateSpeakersMute(s, newValue == ONE)
  }

  function OnClientMove(s: State, handle: U64, clientId: U16, oldChannel: U64, newChannel: U64): State {
    if handle != s.book.handle then s
    else
      var own := ClientId(s.book.env, handle);
      var asked := s.(book := s.book.(env := own.env));
      if clientId == own.value || !asked.IsIngame() then asked
      else
        var channel := ChannelId(asked.book.env, handle);
        var b := asked.book.(env := channel.env);
        if channel.value == newChannel then asked.(book := MuteClients(b, {clientId}, true).book)
        else if channel.value == oldChannel then
          asked.(book := MuteClients(SetClientPosition(b, clientId, ORIGIN).book, {clientId}, false).book)
        else asked.(book := b)
  }

  // ---------- runs ----------

  /** Everything that can happen to the session. `Outside` is anything at all happening in
      TeamSpeak: other users, the user himself, servers coming and going. */
  datatype Event =
    | Dialled(host: Text, port: U16, uid: U16, dial: Dial, pending: seq<NetEvent>)
    | Disconnected(pending: seq<NetEvent>)
    | Stopped(pending: seq<NetEvent>)
    | Network(event: NetEvent, pending: seq<NetEvent>)
    | TalkStatus(handle: U64, talking: bool, clientId: U16)
    | SelfVariable(handle: U64, flag: SelfFlag, newValue: CText)
    | ClientMove(handle: U64, clientId: U16, oldChannel: U64, newChannel: U64)
    | Outside(env: Env)

  function Step(s: State, e: Event): State {
    match e
    case Dialled(host, port, uid, dial, pending) => Connect(s, host, port, uid, dial, pending).state
    case Disconnected(pending) => Disconnect(s, Caller, DISCONNECT_STATUS_OK, pending)
    case Stopped(pending) => Stop(s, pending)
    case Network(event, pending) => if s.link.thread == Looping then Turn(s, event, pending) else s
    case TalkStatus(handle, talking, clientId) => OnTalkStatusChange(s, handle, talking, clientId)
    case SelfVariable(handle, flag, newValue) => OnSelfVariableUpdate(s, handle, flag, newValue)
    case ClientMove(handle, clientId, old', new') => OnClientMove(s, handle, clientId, old', new')
    case Outside(env) => s.(book := s.book.(env := env))
  }

  function Run(s: State, es: seq<Event>): State
    decreases |es|
  {
    if es == [] then s else Run(Step(s, es[0]), es[1..])
  }

  /** The service answers of an update loop as events of a run, each with what is behind it. */
  function Arrivals(events: seq<NetEvent>): seq<Event> {
    if events == [] then [] else [Network(events[0], events[1..])] + Arrivals(events[1..])
  }

  /** The update loop is such a run: what holds of every run holds of the loop. */
  lemma {:induction false} LoopIsRun(s: State, events: seq<NetEvent>)
    ensures Run(s, Arrivals(events)) == Loop(s, events)
    decreases |events|
  {
    hide Turn;
    if events != [] {
      var es := Arrivals(events);
      assert es[0] == Network(events[0], events[1..]) && es[1..] == Arrivals(events[1..]);
      LoopIsRun(Step(s, es[0]), events[1..]);
      LoopStopped(s, events[1..]);
    }
  }

  lemma LoopStopped(s: State, events: seq<NetEvent>)
    ensures s.link.thread != Looping ==> Loop(s, events) == s
  {
  }
}
