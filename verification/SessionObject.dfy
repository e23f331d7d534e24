/** `client.cpp` with its fields updated in place. Every method is proved to compute the function of
    the same name in `Session`. The network's answers are arguments. */
module SessionObject {
  import opened Common
  import opened IdSets
  import opened TeamSpeak
  import opened Protocol
  import opened BookkeepingObject
  import B = Bookkeeping
  import S = Session

  class Client {
    var client: bool
    var peer: bool
    var thread: S.Thread
    var running: bool
    var gameId: U16
    var teamspeakId: U16
    var host: Text
    var port: U16
    var lastChannelId: U64
    var talking: bool
    var microphoneMuted: bool
    var speakersMuted: bool

    const teamspeak: Bookkeeper

    ghost var use: S.Usage
    ghost var log: seq<S.Entry>

    ghost predicate Valid()
      reads this, teamspeak
    {
      teamspeak.Valid()
    }

    ghost function Abs(): S.State
      reads this, teamspeak
    {
      S.State(S.Link(client, peer, thread, running, host, port, gameId, use),
              teamspeakId, lastChannelId, S.Voice(talking, microphoneMuted, speakersMuted),
              teamspeak.Abs(), log)
    }

    constructor (teamspeak: Bookkeeper)
      requires teamspeak.Valid()
      ensures Valid() && this.teamspeak == teamspeak
      ensures Abs() == S.Initial(port, teamspeak.Abs())
    {
      this.teamspeak := teamspeak;
      client := false;
      peer := false;
      thread := S.NoThread;
      running := false;
      gameId := 0;
      teamspeakId := 0;
      talking := false;
      microphoneMuted := false;
      speakersMuted := false;
      lastChannelId := 0;
      host := [];
      port := *;
      use := S.Usage(0, 0, 0, 0, EMPTY_LEDGER);
      log := [];
    }

    method IsOpen() returns (open: bool)
      ensures open == Abs().IsOpen()
    {
      open := client && peer && running;
    }

    method IsIngame() returns (ingame: bool)
      ensures ingame == Abs().IsIngame()
    {
      var open := IsOpen();
      ingame := open && gameId != 0 && teamspeakId != 0;
    }

    // ---------- closing ----------

    method AbortThread(actor: S.Actor, pending: seq<S.NetEvent>)
      requires Valid()
      modifies this, teamspeak
      ensures Valid() && Abs() == S.AbortThread(old(Abs()), actor, pending)
      decreases S.Rank(actor), 0
    {
      if thread == S.NoThread {
        return;
      }
      if actor != S.UpdateThread {
        running := false;
        if thread == S.Looping {
          // the join lets the thread finish its service call and leave its loop
          DiscardEvent(pending);
          LeaveLoop();
        }
        use := S.Join(use);
        thread := S.NoThread;
      }
    }

    /** The update thread, told to stop, destroys a packet its service call still returns. */
    method DiscardEvent(pending: seq<S.NetEvent>)
      modifies this`use
      ensures Abs() == S.Discard(old(Abs()), pending)
    {
      if pending != [] && pending[0].Receive? {
        ghost var packet := use.packets.out;
        use := use.Receive();
        use := use.Destroy(packet);
      }
    }

    method Close(actor: S.Actor, pending: seq<S.NetEvent>)
      requires Valid()
      modifies this, teamspeak
      ensures Valid() && Abs() == S.Close(old(Abs()), actor, pending)
      decreases S.Rank(actor), 1
    {
      AbortThread(actor, pending);
      ReleaseLink();
      GoHome();
    }

    /** The part of closing that gives back peer and host. */
    method ReleaseLink()
      modifies this`peer, this`client, this`use, this`running, this`host, this`port, this`gameId, this`teamspeakId
      ensures S.Link(client, peer, thread, running, host, port, gameId, use)
           == S.Link(old(client), old(peer), thread, old(running), old(host), old(port), old(gameId), old(use)).Released()
      ensures teamspeakId == 0
    {
      peer := false;
      if client {
        use := use.(hostsDestroyed := use.hostsDestroyed + 1);
        client := false;
      }
      running := false;
      host := [];
      port := 0;
      gameId := 0;
      teamspeakId := 0;
    }

    /** The part of closing that puts TeamSpeak back. */
    method GoHome()
      requires Valid()
      modifies this`lastChannelId, teamspeak
      ensures Valid()
      ensures S.Home(lastChannelId, teamspeak.Abs()) == S.GoHome(old(lastChannelId), old(teamspeak.Abs()))
    {
      if lastChannelId == 0 {
        return;
      }
      var serverHandle := teamspeak.serverConnectionHandler;
      if serverHandle == 0 {
        return;
      }
      var channelId := teamspeak.ChannelId(serverHandle);
      if channelId == lastChannelId {
        return;
      }
      var result := teamspeak.MoveToChannel(lastChannelId);
      if !result {
        lastChannelId := 0;
        return;
      }
      lastChannelId := 0;
      teamspeak.ResetClients3DPositions();
      var _ := teamspeak.UnmuteAllClients();
      var _ := teamspeak.ResetNickname();
    }

    method Disconnect(actor: S.Actor, status: nat, pending: seq<S.NetEvent>)
      requires Valid()
      modifies this, teamspeak
      ensures Valid() && Abs() == S.Disconnect(old(Abs()), actor, status, pending)
    {
      hide S.Close, S.AbortThread, S.Drain, Elements, Ascending;
      if !peer {
        return;
      }
      log := log + [S.Bye(status)];
      AbortThread(actor, pending);
      if client {
        DrainEvents(pending);
      }
      ClearEndpoint();
      Close(actor, []);
    }

    /** The part of disconnecting that forgets the server. */
    method ClearEndpoint()
      modifies this`host, this`port, this`gameId, this`teamspeakId
      ensures var s := old(Abs());
              Abs() == s.(link := s.link.(host := [], port := 0, gameId := 0), teamspeakId := 0)
    {
      host := [];
      port := 0;
      gameId := 0;
      teamspeakId := 0;
    }

    /** Discards events until the disconnect is confirmed or nothing more arrives. */
    method DrainEvents(pending: seq<S.NetEvent>)
      modifies this`use
      ensures use == S.Drain(old(use), pending)
    {
      var i := 0;
      assert pending[0..] == pending;
      while i < |pending| && pending[i] != S.Quiet && pending[i] != S.NetError
        invariant 0 <= i <= |pending|
        invariant S.Drain(use, pending[i..]) == S.Drain(old(use), pending)
      {
        assert pending[i..][0] == pending[i] && pending[i..][1..] == pending[i + 1..];
        if pending[i] == S.ServerGone {
          break;
        }
        if pending[i].Receive? {
          ghost var packet := use.packets.out;
          use := use.Receive();
          use := use.Destroy(packet);
        }
        i := i + 1;
      }
      assert i < |pending| ==> pending[i..][0] == pending[i];
    }

    // ---------- connecting ----------

    method Connect(host: Text, port: U16, uniqueIdentifier: U16, dial: S.Dial, pending: seq<S.NetEvent>)
      returns (ok: bool)
      requires Valid() && (thread == S.Looping ==> client && peer && running)
      modifies this, teamspeak
      ensures Valid()
      ensures S.Attempt(Abs(), ok) == S.Connect(old(Abs()), host, port, uniqueIdentifier, dial, pending)
    {
      hide S.Disconnect, S.DialHost;
      if host == this.host && this.port == port && gameId == uniqueIdentifier {
        return true;
      }
      var open := IsOpen();
      if open {
        S.CallerDisconnectJoins(Abs(), S.DISCONNECT_STATUS_RECONNECT, pending);
        Disconnect(S.Caller, S.DISCONNECT_STATUS_RECONNECT, pending);
      }
      ok := DialHost(host, port, uniqueIdentifier, dial);
    }

    method DialHost(host: Text, port: U16, uniqueIdentifier: U16, dial: S.Dial) returns (ok: bool)
      requires Valid() && thread != S.Looping
      modifies this, teamspeak
      ensures Valid()
      ensures S.Attempt(Abs(), ok) == S.DialHost(old(Abs()), host, port, uniqueIdentifier, dial)
    {
      hide S.Close, S.AbortThread, S.StartThread;
      client := dial.hostCreated;
      if !client {
        return false;
      }
      use := use.(hostsCreated := use.hostsCreated + 1);
      peer := dial.peerCreated;
      if !peer {
        Close(S.Caller, []);
        return false;
      }
      if !dial.connected {
        Close(S.Caller, []);
        return false;
      }
      S.AbortKeepsPeer(Abs());
      AbortThread(S.Caller, []);
      StartThread(host, port, uniqueIdentifier);
      return true;
    }

    method StartThread(host: Text, port: U16, uniqueIdentifier: U16)
      requires Valid() && peer
      modifies this
      ensures Valid() && Abs() == S.StartThread(old(Abs()), host, port, uniqueIdentifier)
    {
      hide S.SendProtocolMessage, Elements, Ascending;
      TakeLink(host, port, uniqueIdentifier);
      teamspeakId := 0;
      log := [];
      SendProtocolMessage();
    }

    /** The part of starting that records the endpoint and creates the thread. */
    method TakeLink(host: Text, port: U16, uniqueIdentifier: U16)
      modifies this`thread, this`running, this`host, this`port, this`gameId, this`use
      ensures S.Link(client, peer, thread, running, this.host, this.port, gameId, use)
           == S.Link(client, peer, S.Looping, true, host, port, uniqueIdentifier,
                     old(use).(threadsCreated := old(use).threadsCreated + 1))
    {
      gameId := uniqueIdentifier;
      this.host := host;
      this.port := port;
      running := true;
      thread := S.Looping;
      use := use.(threadsCreated := use.threadsCreated + 1);
    }

    // ---------- sending ----------

    method SendPacket(data: Text, channelId: nat)
      requires peer
      modifies this`log
      ensures log == old(log) + [S.Sent(channelId, data)]
    {
      log := log + [S.Sent(channelId, data)];
    }

    method SendProtocolMessage()
      requires Valid() && peer
      modifies this`log
      ensures Abs() == S.SendProtocolMessage(old(Abs()))
    {
      var data, result := Serialize(Version(VERSION_MAJOR, VERSION_MINOR, MIN_VERSION_MAJOR, MIN_VERSION_MINOR));
      if !result {
        return;
      }
      SendPacket(data, PROTOCOL_CHANNEL);
    }

    method SendHandshake(statusCode: I32)
      requires Valid() && peer
      modifies this`log, teamspeak
      ensures Valid() && Abs() == S.SendHandshake(old(Abs()), statusCode)
    {
      var identity := teamspeak.GetClientIdentity();
      var data, result := Serialize(Handshake(gameId, teamspeakId, statusCode, identity));
      if !result {
        return;
      }
      SendPacket(data, HANDSHAKE_CHANNEL);
    }

    method SendStatus()
      requires Valid() && peer
      modifies this`log
      ensures Abs() == S.SendStatus(old(Abs()))
    {
      var data, result := Serialize(Status(talking, microphoneMuted, speakersMuted));
      if !result {
        return;
      }
      SendPacket(data, STATUS_CHANNEL);
    }

    method SetTalking(talking: bool)
      requires Valid() && peer
      modifies this`talking, this`log
      ensures Abs() == S.SendStatus(old(Abs()).(voice := old(Abs()).voice.(talking := talking)))
    {
      this.talking := talking;
      SendStatus();
    }

    method SetMicrophoneMuted(muted: bool)
      requires Valid() && peer
      modifies this`microphoneMuted, this`log
      ensures Abs() == S.SendStatus(old(Abs()).(voice := old(Abs()).voice.(microphoneMuted := muted)))
    {
      microphoneMuted := muted;
      SendStatus();
    }

    method SetSpeakersMuted(muted: bool)
      requires Valid() && peer
      modifies this`speakersMuted, this`log
      ensures Abs() == S.SendStatus(old(Abs()).(voice := old(Abs()).voice.(speakersMuted := muted)))
    {
      speakersMuted := muted;
      SendStatus();
    }

    // ---------- messages ----------

    method HandleMessage(channel: nat, payload: Text, pending: seq<S.NetEvent>)
      requires Valid() && peer
      modifies this, teamspeak
      ensures Valid() && Abs() == S.HandleMessage(old(Abs()), channel, payload, pending)
    {
      hide S.OnVersionResponse, S.OnHandshakeResponse, S.OnUpdate, S.OnControl, S.OnPositions, DeserializePacket;
      log := log + [S.Got(channel, payload)];
      if channel == PROTOCOL_CHANNEL {
        HandleProtocolResponse(payload, pending);
      } else if channel == HANDSHAKE_CHANNEL {
        HandleHandshakeResponse(payload);
      } else if channel == UPDATE_CHANNEL {
        HandleUpdateMessage(payload);
      } else if channel == CONTROL_CHANNEL {
        HandleControlMessage(payload);
      } else if channel == POSITION_CHANNEL {
        HandlePositionMessage(payload);
      }
    }

    method HandleProtocolResponse(payload: Text, pending: seq<S.NetEvent>)
      requires Valid() && peer
      modifies this, teamspeak
      ensures Valid()
      ensures var p := DeserializePacket(VersionResponseKind, payload);
              Abs() == if p == None then old(Abs()) else S.OnVersionResponse(old(Abs()), p.value, pending)
    {
      var packet, result := Deserialize(VersionResponseKind, payload);
      if !result {
        return;
      }
      var response := packet.value;
      if !VerifyProtocolVersion(response.major, response.minor, MIN_VERSION_MAJOR, MIN_VERSION_MINOR) {
        Disconnect(S.UpdateThread, S.DISCONNECT_STATUS_OUTDATED_SERVER, pending);
        return;
      }
      if response.status != STATUS_CODE_OK {
        Disconnect(S.UpdateThread, S.DISCONNECT_STATUS_OUTDATED_CLIENT, pending);
        return;
      }
      SendHandshake(STATUS_CODE_OK);
    }

    method HandleHandshakeResponse(payload: Text)
      requires Valid() && peer
      modifies this, teamspeak
      ensures Valid()
      ensures var p := DeserializePacket(HandshakeResponseKind, payload);
              Abs() == if p == None then old(Abs()) else S.OnHandshakeResponse(old(Abs()), p.value)
    {
      var packet, result := Deserialize(HandshakeResponseKind, payload);
      if !result {
        return;
      }
      var response := packet.value;
      if response.statusCode != STATUS_CODE_OK {
        return;
      }
      var verified := teamspeak.VerifyServer(response.serverUid);
      if !verified {
        SendHandshake(STATUS_CODE_NOT_CONNECTED_TO_SERVER);
        return;
      }
      var lastChannelId, tempMute := PrepareMove();
      var moved := teamspeak.MoveToChannel(response.channelId);
      if !moved {
        SendHandshake(STATUS_CODE_NOT_MOVED_TO_CHANNEL);
        return;
      }
      MuteChannel(response.channelId, tempMute);
      EnterGame(lastChannelId);
    }

    method PrepareMove() returns (lastChannelId: U64, tempMute: bool)
      requires Valid()
      modifies teamspeak
      ensures Valid()
      ensures S.Departure(teamspeak.Abs(), lastChannelId, tempMute) == S.PrepareMove(old(teamspeak.Abs()))
    {
      var serverHandle := teamspeak.serverConnectionHandler;
      lastChannelId := teamspeak.ChannelId(serverHandle);
      var outputMuted := teamspeak.IsOutputMuted(serverHandle);
      tempMute := !outputMuted;
      if tempMute {
        var _ := teamspeak.SetOutputMuted(serverHandle, true);
      }
    }

    method MuteChannel(channelId: U64, tempMute: bool)
      requires Valid()
      modifies teamspeak
      ensures Valid()
      ensures teamspeak.Abs() == S.MuteChannel(old(teamspeak.Abs()), channelId, tempMute)
    {
      var clients := teamspeak.ClientsInChannel(channelId);
      teamspeak.MuteEach(clients, true);
      if tempMute {
        var _ := teamspeak.SetOutputMuted(teamspeak.serverConnectionHandler, false);
      }
    }

    method EnterGame(lastChannelId: U64)
      requires Valid() && peer
      modifies this, teamspeak
      ensures Valid() && Abs() == S.EnterGame(old(Abs()), lastChannelId)
    {
      hide S.SendHandshake, S.SendStatus, B.ClientId, B.IsInputMuted, B.IsOutputMuted, Elements, Ascending;
      TakeSeat(lastChannelId);
      SendHandshake(STATUS_CODE_OK);
      ReadVoice();
      SendStatus();
    }

    /** The user's own id, and the channel to go back to. */
    method TakeSeat(lastChannelId: U64)
      requires Valid()
      modifies this`teamspeakId, this`lastChannelId, teamspeak
      ensures Valid()
      ensures var s := old(Abs()); var id := B.ClientId(s.book.env, s.book.handle);
              Abs() == s.(teamspeakId := id.value, lastChannelId := lastChannelId, book := s.book.(env := id.env))
    {
      hide B.ClientId, Elements, Ascending;
      teamspeakId := teamspeak.ClientId(teamspeak.serverConnectionHandler);
      this.lastChannelId := lastChannelId;
    }

    /** The user's microphone and speakers as TeamSpeak reports them. */
    method ReadVoice()
      requires Valid()
      modifies this`microphoneMuted, this`speakersMuted, teamspeak
      ensures Valid()
      ensures var s := old(Abs());
              var input := B.IsInputMuted(s.book.env, s.book.handle);
              var output := B.IsOutputMuted(input.env, s.book.handle);
              Abs() == s.(voice := s.voice.(microphoneMuted := input.value, speakersMuted := output.value),
                          book := s.book.(env := output.env))
    {
      hide B.IsInputMuted, B.IsOutputMuted, Elements, Ascending;
      microphoneMuted := teamspeak.IsInputMuted(teamspeak.serverConnectionHandler);
      speakersMuted := teamspeak.IsOutputMuted(teamspeak.serverConnectionHandler);
    }

    method HandleUpdateMessage(payload: Text)
      requires Valid()
      modifies teamspeak
      ensures Valid()
      ensures var p := DeserializePacket(UpdateKind, payload);
              Abs() == if p == None then old(Abs()) else S.OnUpdate(old(Abs()), p.value)
    {
      var packet, result := Deserialize(UpdateKind, payload);
      if !result {
        return;
      }
      var update := packet.value;
      var muteClients, unmuteClients := SortAudioUpdates(update.audioUpdates);
      var _ := teamspeak.MuteClients(muteClients, true);
      var _ := teamspeak.MuteClients(unmuteClients, false);
      teamspeak.PlaceEach(S.Placements(update.positionUpdates));
    }

    /** The two sets filled from the audio entries. */
    method SortAudioUpdates(updates: seq<AudioUpdate>) returns (muteClients: seq<U16>, unmuteClients: seq<U16>)
      ensures Ascending(muteClients) && Elements(muteClients) == S.AudioIds(updates, true)
      ensures Ascending(unmuteClients) && Elements(unmuteClients) == S.AudioIds(updates, false)
    {
      muteClients, unmuteClients := [], [];
      var i := 0;
      while i < |updates|
        invariant 0 <= i <= |updates|
        invariant Ascending(muteClients) && Ascending(unmuteClients)
        invariant forall id :: id in muteClients <==> exists j :: 0 <= j < i && updates[j].muted && updates[j].teamspeakId == id
        invariant forall id :: id in unmuteClients <==> exists j :: 0 <= j < i && !updates[j].muted && updates[j].teamspeakId == id
      {
        var update := updates[i];
        if update.muted {
          muteClients := Insert(muteClients, update.teamspeakId);
        } else {
          unmuteClients := Insert(unmuteClients, update.teamspeakId);
        }
        i := i + 1;
      }
    }

    method HandleControlMessage(payload: Text)
      requires Valid()
      modifies teamspeak
      ensures Valid()
      ensures var p := DeserializePacket(ControlKind, payload);
              Abs() == if p == None then old(Abs()) else S.OnControl(old(Abs()), p.value)
    {
      var packet, result := Deserialize(ControlKind, payload);
      if !result {
        return;
      }
      if packet.value.nickname != [] {
        var _ := teamspeak.SetNickname(packet.value.nickname);
      }
    }

    method HandlePositionMessage(payload: Text)
      requires Valid()
      modifies teamspeak
      ensures Valid()
      ensures var p := DeserializePacket(PositionsKind, payload);
              Abs() == if p == None then old(Abs()) else S.OnPositions(old(Abs()), p.value)
    {
      var packet, result := Deserialize(PositionsKind, payload);
      if !result {
        return;
      }
      teamspeak.PlaceEach(S.Placements(packet.value.positions));
    }

    // ---------- the update thread ----------

    /** Serves the events in turn while the loop lasts; when the loop ends the thread closes the
        session and returns. */
    method Update(events: seq<S.NetEvent>)
      requires Valid() && thread == S.Looping && running && client && peer
      modifies this, teamspeak
      ensures Valid() && Abs() == S.Loop(old(Abs()), events)
    {
      hide S.Serve, S.LeaveLoop;
      var i := 0;
      assert events[0..] == events;
      while running && client
        invariant 0 <= i <= |events| && Valid()
        invariant thread == S.Looping && (running ==> peer)
        invariant running && client ==> S.Loop(Abs(), events[i..]) == S.Loop(old(Abs()), events)
        invariant !(running && client) ==> S.LeaveLoop(Abs()) == S.Loop(old(Abs()), events)
        decreases |events| - i, running && client
      {
        if i == |events| {
          return;
        }
        var rest := events[i..];
        assert rest[0] == events[i] && rest[1..] == events[i + 1..];
        ghost var before := Abs();
        Serve(events[i], events[i + 1..]);
        S.LoopEnded(Abs(), rest[1..]);
        i := i + 1;
      }
      LeaveLoop();
    }

    method LeaveLoop()
      requires Valid()
      modifies this, teamspeak
      ensures Valid() && Abs() == S.LeaveLoop(old(Abs()))
      decreases 0, 2
    {
      Close(S.UpdateThread, []);
      thread := S.Finished;
    }

    method Serve(event: S.NetEvent, pending: seq<S.NetEvent>)
      requires Valid() && thread == S.Looping && (running ==> peer)
      modifies this, teamspeak
      ensures Valid() && thread == S.Looping && (running ==> peer)
      ensures Abs() == S.Serve(old(Abs()), event, pending)
    {
      hide S.HandleMessage;
      S.ServeKeepsPeer(Abs(), event, pending);
      match event {
        case ServerGone =>
          running := false;
        case NetError =>
          running := false;
        case Receive(channel, payload) =>
          ghost var packet := use.packets.out;
          use := use.Receive();
          if !running {
            use := use.Destroy(packet);
          } else {
            S.HandlersKeepThread(Abs(), channel, payload, pending);
            HandleMessage(channel, payload, pending);
            use := use.Destroy(packet);
          }
        case _ =>
      }
    }
  }
}
