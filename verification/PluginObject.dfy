/** The wrappers and TeamSpeak callbacks in front of the client. */
module PluginObject {
  import opened Common
  import opened TeamSpeak
  import opened BookkeepingObject
  import opened SessionObject
  import S = Session
  import L = Lifecycle

  class Plugin {
    var client: Client?

    /** Between any two calls the client, if there is one, satisfies the lifecycle invariant. */
    ghost predicate Valid()
      reads this, client, if client == null then {} else {client.teamspeak}
    {
      client != null ==> client.Valid() && L.Inv(client.Abs())
    }

    constructor ()
      ensures client == null
    {
      client := null;
    }

    method Start(teamspeak: Bookkeeper)
      requires client == null && teamspeak.Valid()
      modifies this
      ensures Valid() && client != null && fresh(client) && client.teamspeak == teamspeak
      ensures client.Abs() == S.Initial(client.port, teamspeak.Abs())
    {
      client := new Client(teamspeak);
      L.InitialInv(client.port, teamspeak.Abs());
    }

    /** Disconnects and runs the client's destructor. */
    method Stop(pending: seq<S.NetEvent>)
      requires Valid() && client != null
      modifies client, client.teamspeak
      ensures Valid() && client.Abs() == S.Stop(old(client.Abs()), pending)
    {
      hide S.Disconnect, S.Close;
      L.StepKeepsInv(client.Abs(), S.Stopped(pending));
      client.Disconnect(S.Caller, S.DISCONNECT_STATUS_OK, pending);
      client.Close(S.Caller, []);
    }

    method Connect(host: Text, port: U16, uniqueIdentifier: U16, dial: S.Dial, pending: seq<S.NetEvent>)
      returns (ok: bool)
      requires Valid()
      modifies client, if client == null then {} else {client.teamspeak}
      ensures Valid()
      ensures client == null ==> !ok
      ensures client != null ==>
                S.Attempt(client.Abs(), ok) == S.Connect(old(client.Abs()), host, port, uniqueIdentifier, dial, pending)
    {
      if client == null {
        return false;
      }
      L.StepKeepsInv(client.Abs(), S.Dialled(host, port, uniqueIdentifier, dial, pending));
      ok := client.Connect(host, port, uniqueIdentifier, dial, pending);
    }

    method Disconnect(pending: seq<S.NetEvent>)
      requires Valid()
      modifies client, if client == null then {} else {client.teamspeak}
      ensures Valid()
      ensures client != null ==>
                client.Abs() == S.Disconnect(old(client.Abs()), S.Caller, S.DISCONNECT_STATUS_OK, pending)
    {
      if client == null {
        return;
      }
      L.StepKeepsInv(client.Abs(), S.Disconnected(pending));
      client.Disconnect(S.Caller, S.DISCONNECT_STATUS_OK, pending);
    }

    method IsIngame() returns (ingame: bool)
      ensures ingame <==> client != null && client.Abs().IsIngame()
    {
      if client == null {
        return false;
      }
      var open := client.IsOpen();
      if !open {
        return false;
      }
      ingame := client.IsIngame();
    }

    method UpdateTalking(talking: bool)
      requires Valid()
      modifies client
      ensures Valid()
      ensures client != null ==> client.Abs() == S.UpdateTalking(old(client.Abs()), talking)
    {
      if client == null {
        return;
      }
      var open := client.IsOpen();
      if open {
        client.SetTalking(talking);
      }
    }

    method UpdateMicrophoneMute(muted: bool)
      requires Valid()
      modifies client
      ensures Valid()
      ensures client != null ==> client.Abs() == S.UpdateMicrophoneMute(old(client.Abs()), muted)
    {
      if client == null {
        return;
      }
      var open := client.IsOpen();
      if open {
        client.SetMicrophoneMuted(muted);
      }
    }

    method UpdateSpeakersMute(muted: bool)
      requires Valid()
      modifies client
      ensures Valid()
      ensures client != null ==> client.Abs() == S.UpdateSpeakersMute(old(client.Abs()), muted)
    {
      if client == null {
        return;
      }
      var open := client.IsOpen();
      if open {
        client.SetSpeakersMuted(muted);
      }
    }

    method OnTalkStatusChange(handle: U64, talking: bool, clientId: U16)
      requires Valid() && client != null
      modifies client, client.teamspeak
      ensures Valid() && client.Abs() == S.OnTalkStatusChange(old(client.Abs()), handle, talking, clientId)
    {
      hide S.UpdateTalking;
      L.StepKeepsInv(client.Abs(), S.TalkStatus(handle, talking, clientId));
      if handle != client.teamspeak.serverConnectionHandler {
        return;
      }
      var ownId := client.teamspeak.ClientId(handle);
      if clientId != ownId {
        return;
      }
      UpdateTalking(talking);
    }

    method OnSelfVariableUpdate(handle: U64, flag: S.SelfFlag, newValue: CText)
      requires Valid() && client != null
      modifies client
      ensures Valid() && client.Abs() == S.OnSelfVariableUpdate(old(client.Abs()), handle, flag, newValue)
    {
      hide S.UpdateMicrophoneMute, S.UpdateSpeakersMute;
      L.StepKeepsInv(client.Abs(), S.SelfVariable(handle, flag, newValue));
      if handle != client.teamspeak.serverConnectionHandler {
        return;
      }
      if flag != S.InputMuted && flag != S.OutputMuted {
        return;
      }
      var mute := newValue == S.ONE;
      if flag == S.InputMuted {
        UpdateMicrophoneMute(mute);
      } else {
        UpdateSpeakersMute(mute);
      }
    }

    method OnClientMove(handle: U64, clientId: U16, oldChannel: U64, newChannel: U64)
      requires Valid() && client != null
      modifies client.teamspeak
      ensures Valid() && client.Abs() == S.OnClientMove(old(client.Abs()), handle, clientId, oldChannel, newChannel)
    {
      L.StepKeepsInv(client.Abs(), S.ClientMove(handle, clientId, oldChannel, newChannel));
      var teamspeak := client.teamspeak;
      if handle != teamspeak.serverConnectionHandler {
        return;
      }
      var ownId := teamspeak.ClientId(handle);
      if clientId == ownId {
        return;
      }
      var ingame := IsIngame();
      if !ingame {
        return;
      }
      var ownChannel := teamspeak.ChannelId(handle);
      if ownChannel == newChannel {
        var _ := teamspeak.MuteClient(clientId, true);
        return;
      }
      if ownChannel == oldChannel {
        var _ := teamspeak.SetClientPosition(clientId, ORIGIN);
        var _ := teamspeak.MuteClient(clientId, false);
      }
    }
  }
}
