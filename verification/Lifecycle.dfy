/** What holds of the session between any two steps, whatever the network, TeamSpeak and the
    callers do; and what `connect` and the ways of closing guarantee. */
module Lifecycle {
  import opened Common
  import opened TeamSpeak
  import opened Bookkeeping
  import opened Protocol
  import opened Session

  /** Every host and every thread ever made is given back or still owned. */
  ghost predicate Owned(l: Link) {
    && l.use.hostsCreated == l.use.hostsDestroyed + (if l.hostSet then 1 else 0)
    && l.use.threadsCreated == l.use.threadsJoined + (if l.thread == NoThread then 0 else 1)
  }

  /** Moreover every packet ever received has been destroyed, exactly once. */
  ghost predicate Conserved(l: Link) {
    Owned(l) && Settled(l.use.packets)
  }

  /** Every packet received between two states has been destroyed in between, exactly once, and no
      other packet has. */
  ghost predicate PacketsReturned(s: State, r: State) {
    Returned(s.link.use.packets, r.link.use.packets)
  }

  /** Closed: no host, no peer, not running, and the connection's data cleared. */
  ghost predicate Closed(s: State) {
    && !s.link.hostSet && !s.link.peerSet && !s.link.running
    && s.link.host == [] && s.link.gameId == 0 && s.teamspeakId == 0
  }

  /** Open: host, peer and flag all set, with the update thread in its loop. */
  ghost predicate Open(s: State) {
    s.link.hostSet && s.link.peerSet && s.link.running && s.link.thread == Looping
  }

  /** All or nothing. */
  ghost predicate Inv(s: State) {
    && Conserved(s.link)
    && (Open(s) || (Closed(s) && s.link.thread != Looping))
  }

  // ---------- closing ----------

  lemma LeaveLoopCloses(s: State)
    requires Owned(s.link) && s.link.thread == Looping
    ensures var r := LeaveLoop(s);
            && Owned(r.link) && Closed(r) && r.link.port == 0 && r.link.thread == Finished
            && r.link.use.packets == s.link.use.packets
  {
  }

  lemma DiscardReturns(s: State, pending: seq<NetEvent>)
    ensures PacketsReturned(s, Discard(s, pending))
    ensures Discard(s, pending) == s.(link := s.link.(use := s.link.use.(packets := Discard(s, pending).link.use.packets)))
  {
    TakenAndGiven(s.link.use.packets);
  }

  lemma AbortCloses(s: State, pending: seq<NetEvent>)
    requires Owned(s.link)
    ensures var r := AbortThread(s, Caller, pending);
            && Owned(r.link) && PacketsReturned(s, r) && r.link.thread == NoThread
            && (s.link.thread == Looping ==> Closed(r))
            && (s.link.thread != Looping ==>
                  && r.link.hostSet == s.link.hostSet && r.link.peerSet == s.link.peerSet
                  && r == s.(link := r.link))
  {
    hide Returned;
    TakenAndGiven(s.link.use.packets);
    if s.link.thread == Looping {
      DiscardReturns(s.(link := s.link.(running := false)), pending);
      LeaveLoopCloses(Discard(s.(link := s.link.(running := false)), pending));
    }
  }

  lemma CloseCloses(s: State, actor: Actor, pending: seq<NetEvent>)
    requires Owned(s.link)
    ensures var r := Close(s, actor, pending);
            && Owned(r.link) && PacketsReturned(s, r) && Closed(r) && r.link.port == 0
            && r.link.thread == (if actor == Caller then NoThread else s.link.thread)
  {
    hide Returned;
    TakenAndGiven(s.link.use.packets);
    if actor == Caller {
      AbortCloses(s, pending);
    }
  }

  /** How many events a waiting disconnect looks at before it stops: up to the confirmation, an error
      or a silence. */
  function Awaited(pending: seq<NetEvent>): (n: nat)
    ensures n <= |pending|
  {
    if pending == [] || pending[0] in {Quiet, NetError, ServerGone} then 0 else 1 + Awaited(pending[1..])
  }

  function Packets(events: seq<NetEvent>): nat {
    if events == [] then 0 else (if events[0].Receive? then 1 else 0) + Packets(events[1..])
  }

  /** A waiting disconnect receives exactly the packets that arrive before it stops waiting, destroys
      each of them once, and uses up nothing else. */
  lemma {:induction false} DrainExact(use: Usage, pending: seq<NetEvent>)
    ensures var r := Drain(use, pending);
            && r == use.(packets := r.packets)
            && r.packets.out == use.packets.out + Packets(pending[..Awaited(pending)])
            && Returned(use.packets, r.packets)
    decreases |pending|
  {
    hide Returned;
    TakenAndGiven(use.packets);
    var k := Awaited(pending);
    if k == 0 {
      assert pending[..k] == [];
    } else {
      assert pending[..k][0] == pending[0] && pending[..k][1..] == pending[1..][..k - 1];
      var next := if pending[0].Receive? then use.Receive().Destroy(use.packets.out) else use;
      DrainExact(next, pending[1..]);
      ReturnedTransitive(use.packets, next.packets, Drain(next, pending[1..]).packets);
    }
  }

  lemma DisconnectCloses(s: State, actor: Actor, status: nat, pending: seq<NetEvent>)
    requires Owned(s.link) && (Open(s) || (Closed(s) && s.link.thread != Looping && actor == Caller))
    ensures var r := Disconnect(s, actor, status, pending);
            && Owned(r.link) && PacketsReturned(s, r) && Closed(r)
            && r.link.thread == (if s.link.peerSet && actor == Caller then NoThread else s.link.thread)
  {
    hide Returned, Drain;
    TakenAndGiven(s.link.use.packets);
    if s.link.peerSet {
      var asked := s.(log := s.log + [Bye(status)]);
      if actor == Caller {
        AbortCloses(asked, pending);
      }
      var ended := AbortThread(asked, actor, pending);
      DrainExact(ended.link.use, pending);
      var use := if ended.link.hostSet then Drain(ended.link.use, pending) else ended.link.use;
      var cleared := ended.(link := ended.link.(host := [], port := 0, gameId := 0, use := use), teamspeakId := 0);
      CloseCloses(cleared, actor, []);
      ReturnedTransitive(s.link.use.packets, ended.link.use.packets, use.packets);
      ReturnedTransitive(s.link.use.packets, use.packets, Close(cleared, actor, []).link.use.packets);
    }
  }

  // ---------- connecting ----------

  lemma CloseKeepsHostCounts(s: State)
    requires s.link.thread != Looping
    ensures var r := Close(s, Caller, []);
            r.link.use.hostsCreated == s.link.use.hostsCreated && r.link.use.hostsDestroyed >= s.link.use.hostsDestroyed
  {
  }

  lemma DisconnectReleases(s: State, pending: seq<NetEvent>)
    requires Inv(s) && Open(s)
    ensures var r := Disconnect(s, Caller, DISCONNECT_STATUS_RECONNECT, pending);
            r.link.use.hostsDestroyed == s.link.use.hostsDestroyed + 1 && r.link.use.hostsCreated == s.link.use.hostsCreated
  {
    var asked := s.(log := s.log + [Bye(DISCONNECT_STATUS_RECONNECT)]);
    AbortCloses(asked, pending);
    var ended := AbortThread(asked, Caller, pending);
    assert ended.link.use.hostsDestroyed == s.link.use.hostsDestroyed + 1 && !ended.link.hostSet;
  }

  lemma ReturnedSettles(a: Ledger, b: Ledger)
    requires Settled(a) && Returned(a, b)
    ensures Settled(b)
  {
  }

  /** Dialling from a closed session opens it for exactly the given endpoint or leaves it closed. */
  lemma DialOpensOrCloses(s: State, host: Text, port: U16, uid: U16, dial: Dial)
    requires Inv(s) && Closed(s)
    ensures var r := DialHost(s, host, port, uid, dial);
            && Inv(r.state)
            && r.state.link.use.hostsDestroyed >= s.link.use.hostsDestroyed
            && r.state.link.use.hostsCreated <= s.link.use.hostsCreated + 1
            && (r.ok <==> dial.hostCreated && dial.peerCreated && dial.connected)
            && if r.ok
               then Open(r.state) && r.state.link.host == host && r.state.link.port == port && r.state.link.gameId == uid
               else Closed(r.state)
  {
    hide Returned, Settled;
    if dial.hostCreated {
      var hosted := s.(link := CreateHost(s.link, dial.peerCreated));
      CloseCloses(hosted, Caller, []);
      ReturnedSettles(hosted.link.use.packets, Close(hosted, Caller, []).link.use.packets);
      CloseKeepsHostCounts(hosted);
      AbortCloses(hosted, []);
      ReturnedSettles(hosted.link.use.packets, AbortThread(hosted, Caller, []).link.use.packets);
    }
  }

  /** The contract of `connect` in every state between steps. Success for a non-empty host means an
      open session with exactly that host, port and id, and calling again changes nothing. Failure
      means a closed session. A session that was open with another endpoint is closed first, its one
      host destroyed and its thread joined before the new host is made. The one success without a session: an empty host, id 0 and the port a closed client
      happens to hold. */
  lemma ConnectContract(s: State, host: Text, port: U16, uid: U16, dial: Dial, pending: seq<NetEvent>)
    requires Inv(s)
    ensures var r := Connect(s, host, port, uid, dial, pending);
            && Inv(r.state)
            && (r.ok && host != [] ==> Open(r.state))
            && (Open(r.state) && r.ok ==> r.state.link.host == host && r.state.link.port == port && r.state.link.gameId == uid)
            && (!r.ok ==> Closed(r.state))
            && (r.ok && !Open(r.state) <==> Closed(s) && host == [] && uid == 0 && port == s.link.port)
            && (Open(s) && !(host == s.link.host && port == s.link.port && uid == s.link.gameId) ==>
                  exists left: State ::
                    && r == DialHost(left, host, port, uid, dial)
                    && Closed(left) && left.link.thread == NoThread
                    && left.link.use.hostsDestroyed == left.link.use.hostsCreated == s.link.use.hostsCreated)
            && r.state.link.use.hostsCreated <= s.link.use.hostsCreated + 1
  {
    if host == s.link.host && s.link.port == port && s.link.gameId == uid {
    } else if s.IsOpen() {
      hide Returned, Settled, Disconnect, DialHost;
      DisconnectCloses(s, Caller, DISCONNECT_STATUS_RECONNECT, pending);
      DisconnectReleases(s, pending);
      var left := Disconnect(s, Caller, DISCONNECT_STATUS_RECONNECT, pending);
      ReturnedSettles(s.link.use.packets, left.link.use.packets);
      DialOpensOrCloses(left, host, port, uid, dial);
    } else {
      hide Returned, Settled, Disconnect, DialHost;
      DialOpensOrCloses(s, host, port, uid, dial);
    }
  }

  /** The success without a session happens to every new client: an empty host, id 0, and the port its
      uninitialised field holds. */
  lemma EmptyHostConnects(port: U16, book: Book, dial: Dial, pending: seq<NetEvent>)
    ensures var s := Initial(port, book);
            Connect(s, [], port, 0, dial, pending) == Attempt(s, true) && Closed(s)
  {
  }

  /** Calling again with the endpoint of the session neither dials nor changes anything. */
  lemma ConnectAgain(s: State, host: Text, port: U16, uid: U16, dial: Dial, pending: seq<NetEvent>,
                     dial': Dial, pending': seq<NetEvent>)
    requires Inv(s)
    requires Connect(s, host, port, uid, dial, pending).ok
    ensures var r := Connect(s, host, port, uid, dial, pending).state;
            Connect(r, host, port, uid, dial', pending') == Attempt(r, true)
  {
    ConnectContract(s, host, port, uid, dial, pending);
  }

  // ---------- the update thread ----------

  /** Handshakes, updates and callbacks leave the connection alone. */
  lemma HandshakeKeepsLink(s: State, p: Packet)
    requires p.HandshakeResponse?
    ensures OnHandshakeResponse(s, p).link == s.link
  {
  }

  ghost predicate SameLink(s: State, r: State) {
    r.link == s.link && r.teamspeakId == s.teamspeakId
  }

  lemma CallbacksKeepLink(s: State, e: Event)
    requires e.TalkStatus? || e.SelfVariable? || e.ClientMove?
    ensures SameLink(s, Step(s, e))
  {
  }

  /** Handlers keep the session open, or disconnect it from inside. */
  lemma PacketKeeps(s: State, p: Packet, pending: seq<NetEvent>)
    requires Owned(s.link) && Open(s)
    ensures var r := OnPacket(s, p, pending);
            && Owned(r.link) && PacketsReturned(s, r)
            && r.link.thread == Looping && (Open(r) || Closed(r))
  {
    hide Returned;
    TakenAndGiven(s.link.use.packets);
    match p
    case VersionResponse(_, _, _) =>
      DisconnectCloses(s, UpdateThread, DISCONNECT_STATUS_OUTDATED_SERVER, pending);
      DisconnectCloses(s, UpdateThread, DISCONNECT_STATUS_OUTDATED_CLIENT, pending);
    case HandshakeResponse(_, _, _, _, _) =>
      HandshakeKeepsLink(s, p);
    case _ =>
  }

  /** While a packet is handled it is the only one not destroyed; after that it is, too. */
  lemma ServeKeeps(s: State, event: NetEvent, pending: seq<NetEvent>)
    requires Owned(s.link) && Open(s)
    ensures var r := Serve(s, event, pending);
            && Owned(r.link) && PacketsReturned(s, r) && r.link.thread == Looping
            && (r.link.running && r.link.hostSet ==> Open(r))
  {
    hide Returned, Parse, OnPacket;
    TakenAndGiven(s.link.use.packets);
    match event
    case Receive(channel, payload) =>
      var arrived := Arrived(s);
      var logged := arrived.(log := s.log + [Got(channel, payload)]);
      var parsed := Parse(channel, payload);
      var handled := HandleMessage(arrived, channel, payload, pending);
      TakenAndGiven(logged.link.use.packets);
      if parsed.Some? {
        PacketKeeps(logged, parsed.value, pending);
      }
      ReturnedAround(s.link.use.packets, handled.link.use.packets);
    case _ =>
  }

  lemma TurnKeepsInv(s: State, event: NetEvent, pending: seq<NetEvent>)
    requires Inv(s) && Open(s)
    ensures Inv(Turn(s, event, pending)) && PacketsReturned(s, Turn(s, event, pending))
  {
    hide Returned, Settled, Serve, LeaveLoop;
    ServeKeeps(s, event, pending);
    var served := Serve(s, event, pending);
    LeaveLoopCloses(served);
    ReturnedSettles(s.link.use.packets, served.link.use.packets);
  }

  lemma StopCloses(s: State, pending: seq<NetEvent>)
    requires Inv(s)
    ensures var r := Stop(s, pending);
            Conserved(r.link) && PacketsReturned(s, r) && Closed(r) && r.link.thread == NoThread
  {
    hide Returned, Settled, Disconnect, Close;
    var left := Disconnect(s, Caller, DISCONNECT_STATUS_OK, pending);
    DisconnectCloses(s, Caller, DISCONNECT_STATUS_OK, pending);
    CloseCloses(left, Caller, []);
    ReturnedTransitive(s.link.use.packets, left.link.use.packets, Stop(s, pending).link.use.packets);
    ReturnedSettles(s.link.use.packets, Stop(s, pending).link.use.packets);
  }

  /** The session is open or closed, with nothing in between and nothing lost, after every step. */
  lemma StepKeepsInv(s: State, e: Event)
    requires Inv(s)
    ensures Inv(Step(s, e))
  {
    hide Returned, Settled, Turn, Disconnect, Connect;
    match e
    case Dialled(host, port, uid, dial, pending) => ConnectContract(s, host, port, uid, dial, pending);
    case Disconnected(pending) =>
      DisconnectCloses(s, Caller, DISCONNECT_STATUS_OK, pending);
      ReturnedSettles(s.link.use.packets, Step(s, e).link.use.packets);
    case Stopped(pending) => StopCloses(s, pending);
    case Network(event, pending) => if s.link.thread == Looping { TurnKeepsInv(s, event, pending); }
    case Outside(_) =>
    case _ => CallbacksKeepLink(s, e);
  }

  lemma InitialInv(port: U16, book: Book)
    ensures Inv(Initial(port, book))
  {
  }

  /** Every reachable state, over all runs. */
  lemma {:induction false} RunKeepsInv(s: State, es: seq<Event>)
    requires Inv(s)
    ensures Inv(Run(s, es))
    decreases |es|
  {
    hide Step, Inv;
    if es != [] {
      StepKeepsInv(s, es[0]);
      RunKeepsInv(Step(s, es[0]), es[1..]);
    }
  }

  /** After the plugin has stopped, every host is destroyed, every thread joined, and every packet ever
      received destroyed exactly once. */
  lemma StopReleasesEverything(port: U16, book: Book, es: seq<Event>, pending: seq<NetEvent>)
    ensures var r := Stop(Run(Initial(port, book), es), pending);
            && Closed(r) && r.link.thread == NoThread
            && r.link.use.hostsCreated == r.link.use.hostsDestroyed
            && r.link.use.threadsCreated == r.link.use.threadsJoined
            && Settled(r.link.use.packets)
  {
    hide Settled, Stop, Run;
    InitialInv(port, book);
    RunKeepsInv(Initial(port, book), es);
    StopCloses(Run(Initial(port, book), es), pending);
  }
}
