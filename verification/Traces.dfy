/** What was said over a connection: no handshake without a reason, and the last status packet always
    tells the truth. */
module Traces {
  import opened Common
  import opened TeamSpeak
  import opened Bookkeeping
  import opened Protocol
  import opened Session
  import opened Lifecycle
  import opened Shutdown

  /** The server reported a protocol version that is OK and not below the minimum. */
  ghost predicate VersionAccepted(x: Entry) {
    x.Got? &&
    var p := Parse(x.channel, x.payload);
    && p.Some? && p.value.VersionResponse? && p.value.status == STATUS_CODE_OK
    && (p.value.major > MIN_VERSION_MAJOR
        || (p.value.major == MIN_VERSION_MAJOR && p.value.minor >= MIN_VERSION_MINOR))
  }

  /** The server accepted a handshake. */
  ghost predicate HandshakeAccepted(x: Entry) {
    x.Got? &&
    var p := Parse(x.channel, x.payload);
    p.Some? && p.value.HandshakeResponse? && p.value.statusCode == STATUS_CODE_OK
  }

  ghost predicate IsHandshake(x: Entry) {
    x.Sent? && x.channel == HANDSHAKE_CHANNEL
  }

  /** Every handshake sent follows an accepted version or an accepted handshake. */
  ghost predicate Gated(log: seq<Entry>) {
    forall i | 0 <= i < |log| && IsHandshake(log[i]) ::
      exists j :: 0 <= j < i && (VersionAccepted(log[j]) || HandshakeAccepted(log[j]))
  }

  /** A known TeamSpeak id comes from an accepted handshake. */
  ghost predicate Greeted(s: State) {
    s.teamspeakId != 0 ==> exists i :: 0 <= i < |s.log| && HandshakeAccepted(s.log[i])
  }

  // ---------- the last status ----------

  ghost predicate IsStatus(x: Entry) {
    x.Sent? && x.channel == STATUS_CHANNEL
  }

  /** The last status packet sent over the connection. */
  ghost function LastStatus(log: seq<Entry>): Option<Text> {
    if log == [] then None
    else if IsStatus(log[|log| - 1]) then Some(log[|log| - 1].data)
    else LastStatus(log[..|log| - 1])
  }

  /** If a status was ever sent, the last one carries the present talking and mute flags. */
  ghost predicate Mirrored(s: State) {
    LastStatus(s.log) in {None, Some(SerializePacket(StatusPacket(s.voice)))}
  }

  ghost predicate TraceInv(s: State) {
    Gated(s.log) && Greeted(s) && Mirrored(s)
  }

  lemma LastStatusAppend(log: seq<Entry>, x: Entry)
    ensures LastStatus(log + [x]) == if IsStatus(x) then Some(x.data) else LastStatus(log)
  {
    assert (log + [x])[..|log|] == log;
  }

  // ---------- growing a trace ----------

  lemma AppendOther(s: State, x: Entry, r: State)
    requires TraceInv(s) && !IsStatus(x)
    requires IsHandshake(x) ==>
               exists j :: 0 <= j < |s.log| && (VersionAccepted(s.log[j]) || HandshakeAccepted(s.log[j]))
    requires r.log == s.log + [x] && r.voice == s.voice
    requires r.teamspeakId == s.teamspeakId || r.teamspeakId == 0
             || exists j :: 0 <= j < |s.log| && HandshakeAccepted(s.log[j])
    ensures TraceInv(r)
  {
    hide VersionAccepted, HandshakeAccepted, SerializePacket;
    LastStatusAppend(s.log, x);
    forall i | 0 <= i < |r.log| && IsHandshake(r.log[i])
      ensures exists j :: 0 <= j < i && (VersionAccepted(r.log[j]) || HandshakeAccepted(r.log[j]))
    {
      if i < |s.log| {
        assert r.log[i] == s.log[i];
        var j :| 0 <= j < i && (VersionAccepted(s.log[j]) || HandshakeAccepted(s.log[j]));
        assert r.log[j] == s.log[j];
      } else {
        var j :| 0 <= j < |s.log| && (VersionAccepted(s.log[j]) || HandshakeAccepted(s.log[j]));
        assert r.log[j] == s.log[j];
      }
    }
    GreetedGrows(s, x, r);
  }

  lemma GreetedGrows(s: State, x: Entry, r: State)
    requires Greeted(s) && r.log == s.log + [x]
    requires r.teamspeakId == s.teamspeakId || r.teamspeakId == 0
             || exists j :: 0 <= j < |s.log| && HandshakeAccepted(s.log[j])
    ensures Greeted(r)
  {
    hide HandshakeAccepted;
    if r.teamspeakId != 0 {
      var j :| 0 <= j < |s.log| && HandshakeAccepted(s.log[j]);
      assert r.log[j] == s.log[j];
    }
  }

  /** Sending the present status keeps the trace in order, whatever was said before about the status. */
  lemma SendStatusKeepsTrace(s: State)
    requires Gated(s.log) && Greeted(s)
    ensures TraceInv(SendStatus(s))
  {
    hide VersionAccepted, HandshakeAccepted, SerializePacket;
    var x := Sent(STATUS_CHANNEL, SerializePacket(StatusPacket(s.voice)));
    var r := SendStatus(s);
    assert r.log == s.log + [x];
    LastStatusAppend(s.log, x);
    GreetedGrows(s, x, r);
    forall i | 0 <= i < |r.log| && IsHandshake(r.log[i])
      ensures exists j :: 0 <= j < i && (VersionAccepted(r.log[j]) || HandshakeAccepted(r.log[j]))
    {
      assert r.log[i] == s.log[i];
      var j :| 0 <= j < i && (VersionAccepted(s.log[j]) || HandshakeAccepted(s.log[j]));
      assert r.log[j] == s.log[j];
    }
  }

  /** Sending a handshake for a reason that is in the trace. */
  lemma SendHandshakeKeepsTrace(s: State, code: I32)
    requires TraceInv(s)
    requires exists j :: 0 <= j < |s.log| && (VersionAccepted(s.log[j]) || HandshakeAccepted(s.log[j]))
    ensures TraceInv(SendHandshake(s, code)) && SendHandshake(s, code).voice == s.voice
    ensures s.log <= SendHandshake(s, code).log && SendHandshake(s, code).teamspeakId == s.teamspeakId
  {
    hide VersionAccepted, HandshakeAccepted, SerializePacket, ClientIdentity, LastStatus;
    var r := SendHandshake(s, code);
    var identity := ClientIdentity(s.book);
    var p := Handshake(s.link.gameId, s.teamspeakId, code, identity.value);
    if Archivable(p) {
      AppendOther(s, Sent(HANDSHAKE_CHANNEL, SerializePacket(p)), r);
    }
  }

  // ---------- handlers ----------

  lemma EnterGameKeepsTrace(s: State, lastChannelId: U64)
    requires TraceInv(s) && s.log != [] && HandshakeAccepted(s.log[|s.log| - 1])
    ensures TraceInv(EnterGame(s, lastChannelId))
  {
    hide HandshakeAccepted, VersionAccepted, SendHandshake, SendStatus, LastStatus, ClientId, IsInputMuted, IsOutputMuted;
    var id := ClientId(s.book.env, s.book.handle);
    var known := s.(teamspeakId := id.value, lastChannelId := lastChannelId, book := s.book.(env := id.env));
    assert TraceInv(known);
    SendHandshakeKeepsTrace(known, STATUS_CODE_OK);
    var greeted := SendHandshake(known, STATUS_CODE_OK);
    var input := IsInputMuted(greeted.book.env, greeted.book.handle);
    var output := IsOutputMuted(input.env, greeted.book.handle);
    var heard := greeted.(voice := greeted.voice.(microphoneMuted := input.value, speakersMuted := output.value),
                          book := greeted.book.(env := output.env));
    assert Greeted(heard) by { assert Greeted(greeted); assert heard.log == greeted.log; }
    SendStatusKeepsTrace(heard);
  }

  lemma HandshakeKeepsTrace(s: State, p: Packet)
    requires TraceInv(s) && p.HandshakeResponse?
    requires p.statusCode == STATUS_CODE_OK ==> s.log != [] && HandshakeAccepted(s.log[|s.log| - 1])
    ensures TraceInv(OnHandshakeResponse(s, p))
  {
    hide HandshakeAccepted, VersionAccepted, SendHandshake, EnterGame, LastStatus, VerifyServer, PrepareMove, MoveToChannel, MuteChannel;
    if p.statusCode == STATUS_CODE_OK {
      var verified := VerifyServer(s.book, p.serverUid);
      var departure := PrepareMove(verified.book);
      var moved := MoveToChannel(departure.book, p.channelId);
      SendHandshakeKeepsTrace(s.(book := verified.book), STATUS_CODE_NOT_CONNECTED_TO_SERVER);
      SendHandshakeKeepsTrace(s.(book := moved.book), STATUS_CODE_NOT_MOVED_TO_CHANNEL);
      EnterGameKeepsTrace(s.(book := MuteChannel(moved.book, p.channelId, departure.tempMute)), departure.lastChannelId);
    }
  }

  lemma InnerDisconnectTrace(s: State, status: nat, pending: seq<NetEvent>)
    requires TraceInv(s) && s.link.peerSet
    ensures TraceInv(Disconnect(s, UpdateThread, status, pending))
  {
    hide HandshakeAccepted, VersionAccepted, LastStatus, Gated, Mirrored, GoHome;
    var r := Disconnect(s, UpdateThread, status, pending);
    assert AbortThread(s.(log := s.log + [Bye(status)]), UpdateThread, pending) == s.(log := s.log + [Bye(status)]);
    assert r.log == s.log + [Bye(status)] && r.voice == s.voice && r.teamspeakId == 0;
    AppendOther(s, Bye(status), r);
  }

  lemma VersionKeepsTrace(s: State, p: Packet, pending: seq<NetEvent>)
    requires TraceInv(s) && s.link.peerSet && p.VersionResponse?
    requires p.status == STATUS_CODE_OK && VerifyProtocolVersion(p.major, p.minor, MIN_VERSION_MAJOR, MIN_VERSION_MINOR)
             ==> s.log != [] && VersionAccepted(s.log[|s.log| - 1])
    ensures TraceInv(OnVersionResponse(s, p, pending))
  {
    hide HandshakeAccepted, VersionAccepted, SendHandshake, LastStatus, Disconnect;
    if !VerifyProtocolVersion(p.major, p.minor, MIN_VERSION_MAJOR, MIN_VERSION_MINOR) {
      InnerDisconnectTrace(s, DISCONNECT_STATUS_OUTDATED_SERVER, pending);
    } else if p.status != STATUS_CODE_OK {
      InnerDisconnectTrace(s, DISCONNECT_STATUS_OUTDATED_CLIENT, pending);
    } else {
      SendHandshakeKeepsTrace(s, STATUS_CODE_OK);
    }
  }

  lemma MessageKeepsTrace(s: State, channel: nat, payload: Text, pending: seq<NetEvent>)
    requires TraceInv(s) && s.link.peerSet
    ensures TraceInv(HandleMessage(s, channel, payload, pending))
  {
    hide Parse, OnVersionResponse, OnHandshakeResponse, LastStatus, Gated, Mirrored, PlaceEach, ApplyAudio, SetNickname;
    var x := Got(channel, payload);
    var logged := s.(log := s.log + [x]);
    AppendOther(s, x, logged);
    assert logged.log[|logged.log| - 1] == x;
    var p := Parse(channel, payload);
    if p.Some? && p.value.VersionResponse? {
      VersionKeepsTrace(logged, p.value, pending);
    } else if p.Some? && p.value.HandshakeResponse? {
      HandshakeKeepsTrace(logged, p.value);
    } else {
      var r := HandleMessage(s, channel, payload, pending);
      assert r.log == logged.log && r.voice == s.voice && r.teamspeakId == s.teamspeakId;
      SameTrace(logged, r);
    }
  }

  // ---------- steps and runs ----------

  lemma LeaveLoopKeepsTrace(s: State)
    requires TraceInv(s)
    ensures TraceInv(LeaveLoop(s))
  {
    hide HandshakeAccepted, VersionAccepted, LastStatus, Gated, GoHome;
    var r := LeaveLoop(s);
    var closed := Close(s, UpdateThread, []);
    assert AbortThread(s, UpdateThread, []) == s;
    assert closed.log == s.log && closed.voice == s.voice && closed.teamspeakId == 0;
    assert r.log == s.log && r.voice == s.voice && r.teamspeakId == 0;
  }

  lemma TurnKeepsTrace(s: State, event: NetEvent, pending: seq<NetEvent>)
    requires TraceInv(s) && s.link.peerSet
    ensures TraceInv(Turn(s, event, pending))
  {
    hide HandleMessage, LastStatus, HandshakeAccepted, VersionAccepted, LeaveLoop, Gated;
    if event.Receive? && s.link.running {
      MessageKeepsTrace(Arrived(s), event.channel, event.payload, pending);
    }
    var served := Serve(s, event, pending);
    assert TraceInv(served);
    LeaveLoopKeepsTrace(served);
  }

  function Hello(): Entry {
    Sent(PROTOCOL_CHANNEL,
         SerializePacket(Version(VERSION_MAJOR, VERSION_MINOR, MIN_VERSION_MAJOR, MIN_VERSION_MINOR)))
  }

  /** A session left for another one says so. */
  function Farewell(e: Event): Entry {
    Bye(if e.Dialled? then DISCONNECT_STATUS_RECONNECT else DISCONNECT_STATUS_OK)
  }

  /** Opening starts a new trace with the protocol message; closing adds at most a farewell. */
  lemma LinkStepsTrace(s: State, e: Event)
    requires Inv(s) && (e.Dialled? || e.Disconnected? || e.Stopped?)
    ensures var r := Step(s, e);
            || r == s
            || (r.teamspeakId == 0 && r.voice == s.voice
                && (r.log == s.log || r.log == s.log + [Farewell(e)] || r.log == [Hello()])
                && (Open(r) ==> r.log == [Hello()]))
  {
    hide GoHome, SerializePacket;
    match e
    case Dialled(host, port, uid, dial, pending) =>
      if host == s.link.host && s.link.port == port && s.link.gameId == uid {
      } else if s.IsOpen() {
        DisconnectCloses(s, Caller, DISCONNECT_STATUS_RECONNECT, pending);
        CallerDisconnectEnds(s, DISCONNECT_STATUS_RECONNECT, pending);
        DialTrace(Disconnect(s, Caller, DISCONNECT_STATUS_RECONNECT, pending), host, port, uid, dial);
      } else {
        DialTrace(s, host, port, uid, dial);
      }
    case Disconnected(pending) =>
      if Open(s) {
        CallerDisconnectEnds(s, DISCONNECT_STATUS_OK, pending);
      }
    case Stopped(pending) =>
      DisconnectCloses(s, Caller, DISCONNECT_STATUS_OK, pending);
      if Open(s) {
        CallerDisconnectEnds(s, DISCONNECT_STATUS_OK, pending);
      }
      var ended := Disconnect(s, Caller, DISCONNECT_STATUS_OK, pending);
      CloseEnds(ended, Caller);
      CloseCloses(ended, Caller, []);
  }

  lemma DialTrace(s: State, host: Text, port: U16, uid: U16, dial: Dial)
    requires Inv(s) && Closed(s)
    ensures var r := DialHost(s, host, port, uid, dial).state;
            && r.teamspeakId == 0 && r.voice == s.voice
            && r.log == (if Open(r) then [Hello()] else s.log)
  {
    hide GoHome, SerializePacket;
    if dial.hostCreated {
      var hosted := s.(link := CreateHost(s.link, dial.peerCreated));
      CloseEnds(hosted, Caller);
      CloseCloses(hosted, Caller, []);
      AbortCloses(hosted, []);
    }
  }

  lemma FreshTrace(r: State, data: Text)
    requires r.log == [Sent(PROTOCOL_CHANNEL, data)] && r.teamspeakId == 0
    ensures TraceInv(r)
  {
    assert r.log == [] + [Sent(PROTOCOL_CHANNEL, data)];
    LastStatusAppend([], Sent(PROTOCOL_CHANNEL, data));
  }

  lemma StatusCallbacksKeepTrace(s: State, e: Event)
    requires TraceInv(s) && (e.TalkStatus? || e.SelfVariable? || e.ClientMove?)
    ensures TraceInv(Step(s, e))
  {
    hide Gated, LastStatus, HandshakeAccepted, SendStatus, MuteClients, SetClientPosition, ClientId, ChannelId;
    match e
    case TalkStatus(h, talking, _) =>
      var asked := s.(book := s.book.(env := ClientId(s.book.env, h).env));
      assert Greeted(asked) && asked.log == s.log;
      SendStatusKeepsTrace(asked.(voice := s.voice.(talking := talking)));
    case SelfVariable(_, _, newValue) =>
      SendStatusKeepsTrace(s.(voice := s.voice.(microphoneMuted := newValue == ONE)));
      SendStatusKeepsTrace(s.(voice := s.voice.(speakersMuted := newValue == ONE)));
    case ClientMove(_, _, _, _) =>
      var r := Step(s, e);
      assert r.log == s.log && r.voice == s.voice && r.teamspeakId == s.teamspeakId;
  }

  lemma StepKeepsTrace(s: State, e: Event)
    requires Inv(s) && TraceInv(s)
    ensures TraceInv(Step(s, e))
  {
    if e.Dialled? || e.Disconnected? || e.Stopped? {
      LinkStepsTrace(s, e);
      hide Step, Gated, Mirrored, HandshakeAccepted, VersionAccepted;
      var r := Step(s, e);
      if r == s {
      } else if r.log == s.log {
        SameTrace(s, r);
      } else if r.log == s.log + [Farewell(e)] {
        AppendOther(s, Farewell(e), r);
      } else {
        FreshTrace(r, Hello().data);
      }
    } else if e.Network? {
      if s.link.thread == Looping {
        TurnKeepsTrace(s, e.event, e.pending);
      }
      hide Turn, TraceInv;
    } else if e.Outside? {
      SameTrace(s, Step(s, e));
    } else {
      StatusCallbacksKeepTrace(s, e);
      hide Step, TraceInv;
    }
  }

  lemma SameTrace(s: State, r: State)
    requires TraceInv(s) && r.log == s.log && r.voice == s.voice
    requires r.teamspeakId == s.teamspeakId || r.teamspeakId == 0
    ensures TraceInv(r)
  {
    hide HandshakeAccepted, Gated, LastStatus;
  }

  /** Every reachable state: every handshake on the connection was preceded by an accepted version or
      an accepted handshake, and the last status packet, if any, is the present status. */
  lemma {:induction false} RunKeepsTrace(s: State, es: seq<Event>)
    requires Inv(s) && TraceInv(s)
    ensures Inv(Run(s, es)) && TraceInv(Run(s, es))
    decreases |es|
  {
    hide Step, TraceInv;
    if es != [] {
      StepKeepsInv(s, es[0]);
      StepKeepsTrace(s, es[0]);
      RunKeepsTrace(Step(s, es[0]), es[1..]);
    }
  }

  lemma InitialTrace(port: U16, book: Book)
    ensures TraceInv(Initial(port, book))
  {
  }

  // ---------- consequences ----------

  /** The server answers handshakes only after it has got one. */
  ghost predicate AnswersHandshakes(log: seq<Entry>) {
    forall i | 0 <= i < |log| && HandshakeAccepted(log[i]) :: exists j :: 0 <= j < i && IsHandshake(log[j])
  }

  /** With such a server, in front of every accepted handshake there is an accepted version. */
  lemma {:induction false} VersionCameFirst(log: seq<Entry>, i: nat)
    requires Gated(log) && AnswersHandshakes(log) && i < |log|
    requires HandshakeAccepted(log[i]) || IsHandshake(log[i])
    ensures exists j :: 0 <= j < i && VersionAccepted(log[j])
    decreases i
  {
    hide HandshakeAccepted, VersionAccepted;
    if IsHandshake(log[i]) {
      var j :| 0 <= j < i && (VersionAccepted(log[j]) || HandshakeAccepted(log[j]));
      if !VersionAccepted(log[j]) {
        VersionCameFirst(log, j);
      }
    } else {
      var j :| 0 <= j < i && IsHandshake(log[j]);
      VersionCameFirst(log, j);
    }
  }

  /** In game means: on this very connection the version check passed, and after it a handshake was
      accepted. */
  lemma IngameWasChecked(port: U16, book: Book, es: seq<Event>)
    requires var s := Run(Initial(port, book), es); s.IsIngame() && AnswersHandshakes(s.log)
    ensures var s := Run(Initial(port, book), es);
            exists i, j :: 0 <= j < i < |s.log| && VersionAccepted(s.log[j]) && HandshakeAccepted(s.log[i])
  {
    hide Run, VersionAccepted, HandshakeAccepted;
    InitialInv(port, book);
    InitialTrace(port, book);
    RunKeepsTrace(Initial(port, book), es);
    var s := Run(Initial(port, book), es);
    var i :| 0 <= i < |s.log| && HandshakeAccepted(s.log[i]);
    VersionCameFirst(s.log, i);
  }

  /** What the server last heard about the user's voice is what the client now holds. */
  lemma ServerHearsStatus(port: U16, book: Book, es: seq<Event>)
    ensures var s := Run(Initial(port, book), es);
            LastStatus(s.log).Some? ==>
              DeserializePacket(StatusKind, LastStatus(s.log).value) == Some(StatusPacket(s.voice))
  {
    hide Run, LastStatus, DeserializePacket, SerializePacket;
    InitialInv(port, book);
    InitialTrace(port, book);
    RunKeepsTrace(Initial(port, book), es);
    var s := Run(Initial(port, book), es);
    PacketRoundTrip(StatusPacket(s.voice), []);
    assert SerializePacket(StatusPacket(s.voice)) + [] == SerializePacket(StatusPacket(s.voice));
  }

  /** The voice after a callback on the chosen server. */
  function Heard(v: Voice, e: Event, ownId: U16): Voice {
    match e
    case TalkStatus(_, talking, clientId) => if clientId == ownId then v.(talking := talking) else v
    case SelfVariable(_, InputMuted, newValue) => v.(microphoneMuted := newValue == ONE)
    case SelfVariable(_, OutputMuted, newValue) => v.(speakersMuted := newValue == ONE)
    case _ => v
  }

  /** The callback concerns the user's own voice. */
  predicate Concerns(e: Event, handle: U64, ownId: U16) {
    match e
    case TalkStatus(h, _, clientId) => h == handle && clientId == ownId
    case SelfVariable(h, flag, _) => h == handle && flag != OtherFlag
    case _ => false
  }

  /** While the session is open, a callback about the user's own voice changes exactly the flag it
      names and tells the server at once; while it is closed, none changes anything. */
  lemma CallbacksTell(s: State, e: Event)
    requires e.TalkStatus? || e.SelfVariable?
    ensures var own := ClientId(s.book.env, s.book.handle).value;
            var r := Step(s, e);
            if s.IsOpen() && Concerns(e, s.book.handle, own)
            then
              && r.voice == Heard(s.voice, e, own)
              && r.log == s.log + [Sent(STATUS_CHANNEL, SerializePacket(StatusPacket(r.voice)))]
            else r.voice == s.voice && r.log == s.log
  {
    hide ClientId, SerializePacket;
  }
}
