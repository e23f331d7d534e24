/** The ways a session ends, and what the second `close` that most of them run can change. */
module Shutdown {
  import opened Common
  import opened TeamSpeak
  import opened Bookkeeping
  import opened Protocol
  import opened Session
  import opened Lifecycle

  function HomeOf(s: State): Home {
    Home(s.lastChannelId, s.book)
  }

  /** Closing `n` times, as far as TeamSpeak is concerned. */
  function HomeAfter(s: State, n: nat): Home {
    if n == 0 then HomeOf(s)
    else
      var home := HomeAfter(s, n - 1);
      GoHome(home.lastChannelId, home.book)
  }

  function Once(s: State): Home {
    GoHome(s.lastChannelId, s.book)
  }

  function Twice(s: State): Home {
    var first := Once(s);
    GoHome(first.lastChannelId, first.book)
  }

  /** One more close. */
  lemma NextHome(s: State, n: nat)
    ensures var home := HomeAfter(s, n); HomeAfter(s, n + 1) == GoHome(home.lastChannelId, home.book)
    ensures HomeAfter(s, 0) == HomeOf(s) && HomeAfter(s, 1) == Once(s) && HomeAfter(s, 2) == Twice(s)
  {
    hide GoHome;
    assert HomeAfter(s, 1) == GoHome(HomeAfter(s, 0).lastChannelId, HomeAfter(s, 0).book);
  }

  /** `r` is a closed session that kept what `s` said about itself, went home as `home` says, and
      whose thread is `thread`. */
  ghost predicate EndedAs(r: State, s: State, home: Home, thread: Thread) {
    && Closed(r) && r.link.port == 0 && Owned(r.link) && PacketsReturned(s, r)
    && r.link.thread == thread
    && r.link.use.hostsDestroyed == s.link.use.hostsDestroyed + 1
    && r.link.use.hostsCreated == s.link.use.hostsCreated
    && r.lastChannelId == home.lastChannelId && r.book == home.book
    && r.voice == s.voice
  }

  lemma LeaveLoopEnds(s: State)
    requires Owned(s.link) && s.link.hostSet && s.link.thread == Looping
    ensures EndedAs(LeaveLoop(s), s, Once(s), Finished)
    ensures LeaveLoop(s).log == s.log
  {
  }

  /** Closing a session whose thread is not running any more, from inside or from a caller. */
  lemma CloseEnds(s: State, actor: Actor)
    requires Owned(s.link) && s.link.thread != Looping
    ensures var r := Close(s, actor, []);
            && r.link.use.hostsDestroyed == s.link.use.hostsDestroyed + (if s.link.hostSet then 1 else 0)
            && r.link.use.hostsCreated == s.link.use.hostsCreated
            && Home(r.lastChannelId, r.book) == Once(s)
            && r.voice == s.voice && r.log == s.log
  {
  }

  /** A caller closes an open session: the thread's own `close` runs first, then the caller's. */
  lemma CallerCloseEnds(s: State, pending: seq<NetEvent>)
    requires Owned(s.link) && Open(s)
    ensures EndedAs(Close(s, Caller, pending), s, Twice(s), NoThread)
    ensures Close(s, Caller, pending).log == s.log
  {
    var told := Discard(s.(link := s.link.(running := false)), pending);
    LeaveLoopEnds(told);
    var left := LeaveLoop(told);
    var joined := left.(link := left.link.(thread := NoThread, use := Join(left.link.use)));
    assert AbortThread(s, Caller, pending) == joined;
    CloseCloses(s, Caller, pending);
    CloseEnds(joined, Caller);
    assert Close(s, Caller, pending) == Close(joined, Caller, []);
  }

  /** A caller disconnects: again both closes run. */
  lemma CallerDisconnectEnds(s: State, status: nat, pending: seq<NetEvent>)
    requires Owned(s.link) && Open(s)
    ensures EndedAs(Disconnect(s, Caller, status, pending), s, Twice(s), NoThread)
    ensures Disconnect(s, Caller, status, pending).log == s.log + [Bye(status)]
  {
    var asked := s.(log := s.log + [Bye(status)]);
    var told := Discard(asked.(link := asked.link.(running := false)), pending);
    LeaveLoopEnds(told);
    var left := LeaveLoop(told);
    var joined := left.(link := left.link.(thread := NoThread, use := Join(left.link.use)));
    assert AbortThread(asked, Caller, pending) == joined;
    var cleared := joined.(link := joined.link.(host := [], port := 0, gameId := 0, use := joined.link.use),
                           teamspeakId := 0);
    assert Disconnect(s, Caller, status, pending) == Close(cleared, Caller, []);
    CloseCloses(cleared, Caller, []);
    CloseEnds(cleared, Caller);
  }

  /** A handler disconnects on the update thread: it closes, and the thread closes again on its way out. */
  lemma HandlerDisconnectEnds(s: State, status: nat, pending: seq<NetEvent>)
    requires Owned(s.link) && Open(s)
    ensures var r := LeaveLoop(Disconnect(s, UpdateThread, status, pending));
            EndedAs(r, s, Twice(s), Finished) && r.log == s.log + [Bye(status)]
  {
    DrainExact(s.link.use, pending);
    var asked := s.(log := s.log + [Bye(status)]);
    var use := Drain(s.link.use, pending);
    var cleared := asked.(link := asked.link.(host := [], port := 0, gameId := 0, use := use), teamspeakId := 0);
    assert AbortThread(asked, UpdateThread, pending) == asked;
    var inner := Disconnect(s, UpdateThread, status, pending);
    assert inner == Close(cleared, UpdateThread, []);
    CloseCloses(cleared, UpdateThread, []);
    assert Home(inner.lastChannelId, inner.book) == Once(s);
    LeaveLoopCloses(inner);
  }

  /** All routes through two closes agree: a caller's disconnect, a disconnect inside a handler, and
      a bare close by a caller (the destructor) leave the same session and the same TeamSpeak, call
      for call, whatever TeamSpeak answers and whatever packets were still under way. Only the
      thread object differs: the caller has joined it, the handler could not. */
  lemma RoutesAgree(s: State, status: nat, p: seq<NetEvent>, q: seq<NetEvent>, r: seq<NetEvent>)
    requires Inv(s) && Open(s)
    ensures var caller := Disconnect(s, Caller, status, p);
            var handler := LeaveLoop(Disconnect(s, UpdateThread, status, q));
            var destructor := Close(s, Caller, r);
            && handler == caller.(link := caller.link.(thread := Finished, use := handler.link.use))
            && handler.link.use.threadsJoined == caller.link.use.threadsJoined - 1
            && destructor == caller.(link := caller.link.(use := destructor.link.use), log := s.log)
            && destructor.link.use.threadsJoined == caller.link.use.threadsJoined
  {
    CallerDisconnectEnds(s, status, p);
    HandlerDisconnectEnds(s, status, q);
    CallerCloseEnds(s, r);
    HandlerThreads(s, status, q);
    CallerThreads(s, status, p, r);
  }

  lemma HandlerThreads(s: State, status: nat, q: seq<NetEvent>)
    requires Owned(s.link) && Open(s)
    ensures LeaveLoop(Disconnect(s, UpdateThread, status, q)).link.use.threadsJoined == s.link.use.threadsJoined
  {
    DrainExact(s.link.use, q);
  }

  lemma CallerThreads(s: State, status: nat, p: seq<NetEvent>, r: seq<NetEvent>)
    requires Owned(s.link) && Open(s)
    ensures Disconnect(s, Caller, status, p).link.use.threadsJoined == s.link.use.threadsJoined + 1
    ensures Close(s, Caller, r).link.use.threadsJoined == s.link.use.threadsJoined + 1
  {
    AbortCloses(s.(log := s.log + [Bye(status)]), p);
  }

  /** A drop by the server and a network error close only once, until the thread is joined. */
  lemma DropsCloseOnce(s: State, pending: seq<NetEvent>)
    requires Inv(s) && Open(s)
    ensures EndedAs(Turn(s, ServerGone, pending), s, Once(s), Finished)
    ensures Turn(s, NetError, pending) == Turn(s, ServerGone, pending)
  {
    LeaveLoopEnds(s.(link := s.link.(running := false)));
  }

  /** A protocol response that makes the client disconnect. */
  predicate Rejects(payload: Text) {
    var p := Parse(PROTOCOL_CHANNEL, payload);
    && p.Some? && p.value.VersionResponse?
    && (p.value.status != STATUS_CODE_OK
        || !VerifyProtocolVersion(p.value.major, p.value.minor, MIN_VERSION_MAJOR, MIN_VERSION_MINOR))
  }

  /** A version response that does not make the client disconnect is OK and new enough. */
  lemma ParsedRejection(channel: nat, payload: Text)
    requires Parse(channel, payload).Some? && Parse(channel, payload).value.VersionResponse?
    ensures channel == PROTOCOL_CHANNEL
    ensures var p := Parse(channel, payload).value;
            Rejects(payload) <==>
              !(p.status == STATUS_CODE_OK
                && VerifyProtocolVersion(p.major, p.minor, MIN_VERSION_MAJOR, MIN_VERSION_MINOR))
  {
    ParsedChannel(channel, payload);
    hide Parse;
  }

  /** An old server is told so first; only a current one can say that the client is too old. */
  function RejectionStatus(payload: Text): nat
    requires Rejects(payload)
  {
    var p := Parse(PROTOCOL_CHANNEL, payload).value;
    if p.major < MIN_VERSION_MAJOR || (p.major == MIN_VERSION_MAJOR && p.minor < MIN_VERSION_MINOR)
    then DISCONNECT_STATUS_OUTDATED_SERVER
    else DISCONNECT_STATUS_OUTDATED_CLIENT
  }

  /** The handler's route in full: the turn of the loop that serves a rejecting response ends the
      session after two closes, the packet and those still under way received and destroyed once. */
  lemma RejectionEnds(s: State, payload: Text, pending: seq<NetEvent>)
    requires Inv(s) && Open(s) && Rejects(payload)
    ensures EndedAs(Turn(s, Receive(PROTOCOL_CHANNEL, payload), pending), s, Twice(s), Finished)
    ensures Turn(s, Receive(PROTOCOL_CHANNEL, payload), pending).log
         == s.log + [Got(PROTOCOL_CHANNEL, payload), Bye(RejectionStatus(payload))]
    ensures Turn(s, Receive(PROTOCOL_CHANNEL, payload), pending).link.use.packets.out
         == s.link.use.packets.out + 1 + Packets(pending[..Awaited(pending)])
  {
    hide Parse, GoHome, Returned, Packets;
    var logged := Arrived(s).(log := s.log + [Got(PROTOCOL_CHANNEL, payload)]);
    var p := Parse(PROTOCOL_CHANNEL, payload).value;
    var status := RejectionStatus(payload);
    var inner := Disconnect(logged, UpdateThread, status, pending);
    assert OnPacket(logged, p, pending) == inner;
    var served := inner.(link := inner.link.(use := inner.link.use.Destroy(s.link.use.packets.out)));
    assert Serve(s, Receive(PROTOCOL_CHANNEL, payload), pending) == served;
    DisconnectCloses(logged, UpdateThread, status, pending);
    HandlerDisconnectEnds(logged, status, pending);
    InnerDisconnectHome(logged, status, pending);
    LeaveLoopCloses(served);
    ReturnedAround(s.link.use.packets, inner.link.use.packets);
    assert Turn(s, Receive(PROTOCOL_CHANNEL, payload), pending) == LeaveLoop(served);
  }

  lemma InnerDisconnectHome(s: State, status: nat, pending: seq<NetEvent>)
    requires Owned(s.link) && Open(s)
    ensures var r := Disconnect(s, UpdateThread, status, pending);
            && Home(r.lastChannelId, r.book) == Once(s) && r.voice == s.voice
            && r.link.use.hostsDestroyed == s.link.use.hostsDestroyed + 1
            && r.link.use.hostsCreated == s.link.use.hostsCreated
            && r.link.use.packets.out == s.link.use.packets.out + Packets(pending[..Awaited(pending)])
  {
    hide Returned;
    DrainExact(s.link.use, pending);
  }

  /** Only a rejecting version response ends a session from inside. */
  lemma PacketKeepsOpen(s: State, p: Packet, pending: seq<NetEvent>)
    requires p.VersionResponse? ==>
               p.status == STATUS_CODE_OK && VerifyProtocolVersion(p.major, p.minor, MIN_VERSION_MAJOR, MIN_VERSION_MINOR)
    ensures OnPacket(s, p, pending).link == s.link
  {
    hide SendHandshake, OnHandshakeResponse, PlaceEach, SetNickname, MuteClients;
    if p.HandshakeResponse? {
      HandshakeKeepsLink(s, p);
    } else if p.VersionResponse? {
      SendHandshakeLink(s, STATUS_CODE_OK);
    }
  }

  lemma SendHandshakeLink(s: State, code: I32)
    ensures SendHandshake(s, code).link == s.link
  {
    hide Send;
  }

  // ---------- what the update loop receives ----------

  predicate RejectedBy(event: NetEvent) {
    event.Receive? && event.channel == PROTOCOL_CHANNEL && Rejects(event.payload)
  }

  predicate EndsLoop(event: NetEvent) {
    event == ServerGone || event == NetError || RejectedBy(event)
  }

  /** How many service answers the update thread takes: up to the one that ends its loop, and those a
      disconnect inside a handler waits through. */
  function Taken(events: seq<NetEvent>): (n: nat)
    ensures n <= |events|
  {
    if events == [] then 0
    else if RejectedBy(events[0]) then 1 + Awaited(events[1..])
    else if EndsLoop(events[0]) then 1
    else 1 + Taken(events[1..])
  }

  lemma TurnReceives(s: State, event: NetEvent, pending: seq<NetEvent>)
    requires Inv(s) && Open(s)
    ensures var r := Turn(s, event, pending);
            && r.link.use.packets.out == s.link.use.packets.out + Packets([event])
                 + (if RejectedBy(event) then Packets(pending[..Awaited(pending)]) else 0)
            && (if EndsLoop(event) then r.link.thread == Finished else Open(r))
  {
    hide Parse, OnPacket, GoHome, Returned, Rejects, Awaited;
    assert Packets([event]) == if event.Receive? then 1 else 0;
    if RejectedBy(event) {
      RejectionEnds(s, event.payload, pending);
      hide Turn;
    } else if event.Receive? {
      var logged := Arrived(s).(log := s.log + [Got(event.channel, event.payload)]);
      var parsed := Parse(event.channel, event.payload);
      if parsed.Some? {
        if parsed.value.VersionResponse? {
          ParsedRejection(event.channel, event.payload);
        }
        PacketKeepsOpen(logged, parsed.value, pending);
      }
    } else if EndsLoop(event) {
      DropsCloseOnce(s, pending);
      LeaveLoopCloses(s.(link := s.link.(running := false)));
    }
  }

  /** Over the whole loop the thread receives exactly the packets among the answers it takes, and
      every one of them is destroyed exactly once. */
  lemma {:induction false} LoopReceives(s: State, events: seq<NetEvent>)
    requires Inv(s) && Open(s)
    ensures var r := Loop(s, events);
            && Inv(r) && PacketsReturned(s, r)
            && r.link.use.packets.out == s.link.use.packets.out + Packets(events[..Taken(events)])
    decreases |events|
  {
    hide Turn, Settled, Returned, RejectedBy, EndsLoop, Awaited;
    TakenAndGiven(s.link.use.packets);
    if events == [] {
      assert events[..0] == [];
    } else {
      var next := Turn(s, events[0], events[1..]);
      TurnKeepsInv(s, events[0], events[1..]);
      TurnReceives(s, events[0], events[1..]);
      PacketsSplit(events, Taken(events));
      RejectedEnds(events[0]);
      if next.link.thread == Looping {
        LoopReceives(next, events[1..]);
        ReturnedTransitive(s.link.use.packets, next.link.use.packets, Loop(next, events[1..]).link.use.packets);
      } else {
        LoopStopped(next, events[1..]);
        assert events[1..][..0] == [];
      }
    }
  }

  lemma RejectedEnds(event: NetEvent)
    ensures RejectedBy(event) ==> EndsLoop(event)
  {
  }

  lemma PacketsSplit(events: seq<NetEvent>, n: nat)
    requires 0 < n <= |events|
    ensures Packets(events[..n]) == Packets([events[0]]) + Packets(events[1..][..n - 1])
  {
    assert events[..n][0] == events[0] && events[..n][1..] == events[1..][..n - 1];
    assert [events[0]][1..] == [];
  }

  // ---------- every step that opens or closes ----------

  /** How many times an event makes the session close. */
  function Closes(s: State, e: Event): nat {
    match e
    case Dialled(host, port, uid, dial, _) =>
      if host == s.link.host && s.link.port == port && s.link.gameId == uid then 0
      else
        (if s.IsOpen() then 2 else 0) +
        (if dial.hostCreated && !(dial.peerCreated && dial.connected) then 1 else 0)
    case Disconnected(_) => if s.link.peerSet then 2 else 0
    case Stopped(_) => if s.link.peerSet then 3 else 1
    case Network(ServerGone, _) => if s.link.thread == Looping then 1 else 0
    case Network(NetError, _) => if s.link.thread == Looping then 1 else 0
    case Network(Receive(channel, payload), _) =>
      if s.link.thread == Looping && channel == PROTOCOL_CHANNEL && Rejects(payload) then 2 else 0
    case _ => 0
  }

  lemma DialHome(s: State, host: Text, port: U16, uid: U16, dial: Dial)
    requires Inv(s) && Closed(s)
    ensures var r := DialHost(s, host, port, uid, dial).state;
            && r.teamspeakId == 0
            && HomeOf(r) == if dial.hostCreated && !(dial.peerCreated && dial.connected) then Once(s) else HomeOf(s)
  {
    hide GoHome;
    NextHome(s, 0);
    if dial.hostCreated {
      var hosted := s.(link := CreateHost(s.link, dial.peerCreated));
      NextHome(hosted, 0);
      CloseEnds(hosted, Caller);
      CloseCloses(hosted, Caller, []);
      AbortCloses(hosted, []);
    }
  }

  /** Connecting, disconnecting and stopping touch TeamSpeak only by going home, exactly as often as
      `Closes` says: twice for a session that was open, once more for a failed dial or the
      destructor. */
  lemma LinkStepsGoHome(s: State, e: Event)
    requires Inv(s) && (e.Dialled? || e.Disconnected? || e.Stopped?)
    ensures var r := Step(s, e);
            && HomeOf(r) == HomeAfter(s, Closes(s, e))
            && (r == s || r.teamspeakId == 0)
            && (Open(s) && Closes(s, e) == 0 ==> r == s)
  {
    hide GoHome, HomeAfter;
    NextHome(s, 0);
    match e
    case Dialled(host, port, uid, dial, pending) =>
      if host == s.link.host && s.link.port == port && s.link.gameId == uid {
      } else if s.IsOpen() {
        RedialHome(s, host, port, uid, dial, pending);
      } else {
        DialHome(s, host, port, uid, dial);
      }
    case Disconnected(pending) =>
      if Open(s) {
        CallerDisconnectEnds(s, DISCONNECT_STATUS_OK, pending);
      }
    case Stopped(pending) => StopHome(s, pending);
  }

  lemma RedialHome(s: State, host: Text, port: U16, uid: U16, dial: Dial, pending: seq<NetEvent>)
    requires Inv(s) && Open(s)
    ensures var left := Disconnect(s, Caller, DISCONNECT_STATUS_RECONNECT, pending);
            var r := DialHost(left, host, port, uid, dial).state;
            && r.teamspeakId == 0
            && HomeOf(r) == HomeAfter(s, if dial.hostCreated && !(dial.peerCreated && dial.connected) then 3 else 2)
  {
    hide GoHome, HomeAfter, Settled, Returned, DialHost, Disconnect;
    var left := Disconnect(s, Caller, DISCONNECT_STATUS_RECONNECT, pending);
    DisconnectCloses(s, Caller, DISCONNECT_STATUS_RECONNECT, pending);
    CallerDisconnectEnds(s, DISCONNECT_STATUS_RECONNECT, pending);
    ReturnedSettles(s.link.use.packets, left.link.use.packets);
    DialHome(left, host, port, uid, dial);
    NextHome(left, 0);
    NextHome(s, 2);
  }

  lemma StopHome(s: State, pending: seq<NetEvent>)
    requires Inv(s)
    ensures var r := Stop(s, pending);
            r.teamspeakId == 0 && HomeOf(r) == HomeAfter(s, if s.link.peerSet then 3 else 1)
  {
    hide GoHome, HomeAfter, Returned, Disconnect, Close;
    var left := Disconnect(s, Caller, DISCONNECT_STATUS_OK, pending);
    DisconnectCloses(s, Caller, DISCONNECT_STATUS_OK, pending);
    if Open(s) {
      CallerDisconnectEnds(s, DISCONNECT_STATUS_OK, pending);
      NextHome(s, 2);
    } else {
      assert left == s by { ClosedDisconnect(s, pending); }
      NextHome(s, 0);
    }
    NextHome(left, 0);
    CloseEnds(left, Caller);
    CloseCloses(left, Caller, []);
  }

  lemma ClosedDisconnect(s: State, pending: seq<NetEvent>)
    requires Closed(s)
    ensures Disconnect(s, Caller, DISCONNECT_STATUS_OK, pending) == s
  {
  }

  /** An event that ends an open session. */
  ghost predicate Ends(e: Event) {
    match e
    case Disconnected(_) => true
    case Stopped(_) => true
    case Network(ServerGone, _) => true
    case Network(NetError, _) => true
    case Network(Receive(channel, payload), _) => channel == PROTOCOL_CHANNEL && Rejects(payload)
    case _ => false
  }

  /** Each of the five endings closes the session, and TeamSpeak sees nothing of it but the way home,
      as often as `Closes` says. */
  lemma EndingsGoHome(s: State, e: Event)
    requires Inv(s) && Open(s) && Ends(e)
    ensures var r := Step(s, e);
            Closed(r) && HomeOf(r) == HomeAfter(s, Closes(s, e)) && Closes(s, e) > 0
  {
    hide GoHome, Turn, HomeAfter, Once, Twice, Returned;
    NextHome(s, 0);
    match e
    case Disconnected(pending) => CallerDisconnectEnds(s, DISCONNECT_STATUS_OK, pending);
    case Stopped(pending) =>
      StopHome(s, pending);
      StopCloses(s, pending);
    case Network(ServerGone, pending) => DropsCloseOnce(s, pending);
    case Network(NetError, pending) => DropsCloseOnce(s, pending);
    case Network(Receive(_, payload), pending) => RejectionEnds(s, payload, pending);
  }

  // ---------- the second close ----------

  /** TeamSpeak sees two equal books except for the number of calls made. */
  ghost predicate SameButCalls(a: Home, b: Home) {
    a == b.(book := b.book.(env := b.book.env.(calls := a.book.env.calls)))
  }

  /** When a further close finds nothing to do: no saved channel, no server, or a user who is, as
      TeamSpeak now answers, already in the saved channel. */
  ghost predicate NothingToDo(home: Home) {
    || home.lastChannelId == 0
    || home.book.handle == 0
    || ChannelId(home.book.env, home.book.handle).value == home.lastChannelId
  }

  /** A further close changes nothing exactly when it finds nothing to do. */
  lemma CloseIdleExact(home: Home)
    ensures SameButCalls(GoHome(home.lastChannelId, home.book), home) <==> NothingToDo(home)
  {
  }

  /** The first close always leaves one of the three reasons, unless TeamSpeak takes back the answer
      that the user is home: with a saved channel and a server left over, the first close has been
      told just before that the user is in that channel. */
  lemma FirstCloseOutcome(s: State)
    ensures var first := Once(s);
            || first.lastChannelId == 0
            || first.book.handle == 0
            || (ChannelId(s.book.env, s.book.handle).value == s.lastChannelId
                && first == Home(s.lastChannelId, s.book.(env := ChannelId(s.book.env, s.book.handle).env)))
  {
    hide ChannelId, MoveToChannel, ResetPositions, UnmuteAllClients, ResetNickname;
    GoHomeKeepsHandle(s.lastChannelId, s.book);
  }

  lemma GoHomeKeepsHandle(lastChannelId: U64, b: Book)
    ensures GoHome(lastChannelId, b).lastChannelId in {0, lastChannelId}
  {
    hide ChannelId, MoveToChannel, ResetPositions, UnmuteAllClients, ResetNickname;
  }

  /** With a TeamSpeak that answers every call, the second close is idle on every route. */
  lemma SecondCloseIdle(s: State)
    requires AllGood(s.book.env)
    ensures SameButCalls(Twice(s), Once(s))
  {
    FirstCloseOutcome(s);
    CloseIdleExact(Once(s));
  }

  /** In particular it finds nothing to do after the first. */
  lemma FirstCloseIdle(s: State)
    requires AllGood(s.book.env)
    ensures NothingToDo(Once(s))
  {
    FirstCloseOutcome(s);
  }

  /** It is not idle in general: when TeamSpeak reports the user in the saved channel for the first
      close and answers nothing afterwards, the second takes that for being elsewhere, cannot move
      him, and gives up the saved channel. */
  lemma SecondCloseActs(s: State)
    requires s.lastChannelId != 0 && s.book.handle != 0 && s.book.handle in s.book.env.servers
    requires var server := s.book.env.servers[s.book.handle];
             server.connected && server.channel == s.lastChannelId
    requires forall n: nat :: s.book.env.answers(n) <==> n < s.book.env.calls + 3
    ensures !SameButCalls(Twice(s), Once(s))
  {
    var e := s.book.env;
    assert ChannelId(e, s.book.handle) == Answer(e.(calls := e.calls + 3), s.lastChannelId);
    var first := Once(s);
    assert first == Home(s.lastChannelId, s.book.(env := e.(calls := e.calls + 3)));
    assert ChannelId(first.book.env, s.book.handle).value == 0;
    CloseIdleExact(first);
  }
}
