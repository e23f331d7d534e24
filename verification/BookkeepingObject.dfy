/** `teamspeak.cpp` with its static variables updated in place. Every method is proved to compute
    the function of the same name in `Bookkeeping`. */
module BookkeepingObject {
  import opened Common
  import opened IdSets
  import opened TeamSpeak
  import B = Bookkeeping

  class Bookkeeper {
    var serverConnectionHandler: U64
    var mutedClients: seq<U16>
    var originalNickname: CText
    var env: Env

    ghost predicate Valid()
      reads this
    {
      Ascending(mutedClients)
    }

    ghost function Abs(): B.Book
      reads this
    {
      B.Book(serverConnectionHandler, Elements(mutedClients), originalNickname, env)
    }

    constructor (env: Env)
      ensures Valid() && Abs() == B.Book(0, {}, [], env)
    {
      serverConnectionHandler := 0;
      mutedClients := [];
      originalNickname := [];
      this.env := env;
    }

    method VerifyServer(uniqueIdentifier: Text) returns (found: bool)
      requires Valid()
      modifies this
      ensures Valid()
      ensures var r := B.VerifyServer(old(Abs()), uniqueIdentifier); Abs() == r.book && found == r.value
    {
      var listed := env.answers(env.calls);
      env := env.Next();
      if !listed {
        return false;
      }
      var listNumber := env.memory.out;
      env := env.Hold();
      var serverList := env.handles + [0];
      serverConnectionHandler := SearchServerList(serverList, uniqueIdentifier);
      env := env.Free(listNumber);
      found := serverConnectionHandler != 0;
    }

    method SearchServerList(serverList: seq<U64>, uniqueIdentifier: Text) returns (chosen: U64)
      requires 0 in serverList
      modifies this`env
      ensures var r := B.SearchServers(old(env), serverList, uniqueIdentifier); env == r.env && chosen == r.value
    {
      var index := 0;
      var handle := serverList[index];
      chosen := 0;
      assert serverList[0..] == serverList;
      while handle != 0
        invariant 0 <= index < |serverList| && handle == serverList[index]
        invariant 0 in serverList[index..]
        invariant chosen == 0
        invariant B.SearchServers(env, serverList[index..], uniqueIdentifier)
               == B.SearchServers(old(env), serverList, uniqueIdentifier)
        decreases |serverList| - index
      {
        ghost var rest := serverList[index..];
        assert rest[0] == handle && rest[1..] == serverList[index + 1..];
        assert rest == [handle] + rest[1..];
        var answered := env.Up(handle);
        env := env.Next();
        if answered {
          var uidNumber := env.memory.out;
          env := env.Hold();
          var uid := env.servers[handle].uid;
          if uniqueIdentifier == uid {
            env := env.Free(uidNumber);
            return handle;
          }
          env := env.Free(uidNumber);
        }
        index := index + 1;
        handle := serverList[index];
      }
    }

    method ChangeMutes(clientIds: array<U16>, mute: bool) returns (ok: bool)
      modifies this
      ensures ok == old(env).Up(serverConnectionHandler)
      ensures env == old(env).ChangeMutes(serverConnectionHandler, Elements(Listed(clientIds[..])), mute)
      ensures serverConnectionHandler == old(serverConnectionHandler)
      ensures mutedClients == old(mutedClients) && originalNickname == old(originalNickname)
    {
      ok := env.Up(serverConnectionHandler);
      env := env.RequestMutes(serverConnectionHandler, clientIds[..], mute);
    }

    method MuteClients(clients: seq<U16>, mute: bool) returns (ok: bool)
      requires Valid() && Ascending(clients)
      modifies this
      ensures Valid()
      ensures var r := B.MuteClients(old(Abs()), Elements(clients), mute); Abs() == r.book && ok == r.value
    {
      if |clients| == 0 {
        return true;
      }
      assert clients[0] in Elements(clients);
      var clientIds := BuildIdArray(clients);
      ok := ChangeMutes(clientIds, mute);
      if ok {
        if mute {
          mutedClients := InsertClients(mutedClients, clients);
        } else {
          mutedClients := EraseClients(mutedClients, clients);
        }
      }
    }

    method MuteClient(clientId: U16, mute: bool) returns (ok: bool)
      requires Valid()
      modifies this
      ensures Valid()
      ensures var r := B.MuteClients(old(Abs()), {clientId}, mute); Abs() == r.book && ok == r.value
    {
      assert Elements([clientId]) == {clientId};
      ok := MuteClients([clientId], mute);
    }

    method MuteEach(clients: seq<U16>, mute: bool)
      requires Valid()
      modifies this
      ensures Valid() && Abs() == B.MuteEach(old(Abs()), clients, mute)
    {
      var i := 0;
      assert clients[0..] == clients;
      while i < |clients|
        invariant 0 <= i <= |clients| && Valid()
        invariant B.MuteEach(Abs(), clients[i..], mute) == B.MuteEach(old(Abs()), clients, mute)
      {
        assert clients[i..][0] == clients[i] && clients[i..][1..] == clients[i + 1..];
        var _ := MuteClient(clients[i], mute);
        i := i + 1;
      }
    }

    method UnmuteAllClients() returns (ok: bool)
      requires Valid()
      modifies this
      ensures Valid()
      ensures var r := B.UnmuteAllClients(old(Abs())); Abs() == r.book && ok == r.value
    {
      if |mutedClients| == 0 {
        return true;
      }
      assert mutedClients[0] in Elements(mutedClients);
      var clientIds := BuildIdArray(mutedClients);
      ok := ChangeMutes(clientIds, false);
      mutedClients := [];
    }

    method ClientsInChannel(channelId: U64) returns (clients: seq<U16>)
      requires Valid()
      modifies this
      ensures Valid()
      ensures var r := B.ClientsInChannel(old(Abs()), channelId); Abs() == r.book && clients == r.value
    {
      var h := serverConnectionHandler;
      clients := [];
      var subscribed := env.Up(h);
      env := env.Next();
      if !subscribed {
        return;
      }
      var waited := env.Up(h);
      env := env.Next();
      if !waited {
        return;
      }
      var listed := env.Up(h);
      if !listed {
        env := env.Next();
        return;
      }
      var members := env.Members(h, channelId);
      var listNumber := env.memory.out;
      env := env.Next().Hold();
      var clientList := new U16[|members| + 1];
      forall i | 0 <= i < |members| {
        clientList[i] := members[i];
      }
      clientList[|members|] := 0;
      assert clientList[..] == members + [0];
      ListedBehindZero(members);
      clients := ReadIdArray(clientList);
      env := env.Free(listNumber);
    }

    method SetNickname(nickname: Text) returns (ok: bool)
      requires Valid()
      modifies this
      ensures Valid()
      ensures var r := B.SetNickname(old(Abs()), nickname); Abs() == r.book && ok == r.value
    {
      var h := serverConnectionHandler;
      if h == 0 {
        return false;
      }
      var answered := env.Up(h);
      if !answered {
        env := env.Next();
        originalNickname := [];
        return false;
      }
      var currentNickname := env.servers[h].published.nickname;
      env := env.Next().Hold();
      if nickname == currentNickname {
        return true;
      } else if originalNickname == [] {
        originalNickname := currentNickname;
      }
      ok := Rename(CStr(nickname));
    }

    method Rename(nickname: CText) returns (ok: bool)
      requires Valid()
      modifies this
      ensures Valid()
      ensures var r := B.Rename(old(Abs()), nickname); Abs() == r.book && ok == r.value
    {
      var h := serverConnectionHandler;
      var set' := if h in env.servers
        then env.SetLocal(h, env.servers[h].local.(nickname := nickname))
        else Answer(env.Next(), false);
      env := set'.env;
      if !set'.value {
        return false;
      }
      var flushed := env.Flush(h);
      env := flushed.env;
      return flushed.value;
    }

    method ResetNickname() returns (ok: bool)
      requires Valid()
      modifies this
      ensures Valid()
      ensures var r := B.ResetNickname(old(Abs())); Abs() == r.book && ok == r.value
    {
      if serverConnectionHandler == 0 {
        return false;
      }
      if originalNickname == [] {
        return true;
      }
      ok := Rename(originalNickname);
      if ok {
        originalNickname := [];
      }
    }

    method GetClientIdentity() returns (identity: CText)
      requires Valid()
      modifies this
      ensures Valid()
      ensures var r := B.ClientIdentity(old(Abs())); Abs() == r.book && identity == r.value
    {
      if serverConnectionHandler == 0 {
        return [];
      }
      var answered := env.Up(serverConnectionHandler);
      env := env.Next();
      if !answered {
        return [];
      }
      env := env.Hold();
      identity := env.servers[serverConnectionHandler].identity;
    }

    method ClientId(h: U64) returns (id: U16)
      requires Valid()
      modifies this`env
      ensures var r := B.ClientId(old(env), h); env == r.env && id == r.value
    {
      if h == 0 {
        return 0;
      }
      var answered := env.Up(h);
      env := env.Next();
      if !answered || !env.servers[h].connected {
        return 0;
      }
      answered := env.Up(h);
      env := env.Next();
      if !answered {
        return 0;
      }
      id := env.servers[h].ownId;
    }

    method ChannelId(h: U64) returns (channelId: U64)
      requires Valid()
      modifies this`env
      ensures var r := B.ChannelId(old(env), h); env == r.env && channelId == r.value
    {
      var clientId := ClientId(h);
      var answer := env.ChannelOfClient(h, clientId);
      env := answer.env;
      if answer.value == None {
        return 0;
      }
      return answer.value.value;
    }

    method IsInputMuted(h: U64) returns (muted: bool)
      requires Valid()
      modifies this`env
      ensures var r := B.IsInputMuted(old(env), h); env == r.env && muted == r.value
    {
      var answered := env.Up(h);
      env := env.Next();
      if !answered {
        return false;
      } else if env.servers[h].inputDisabled {
        return true;
      }
      answered := env.Up(h);
      env := env.Next();
      if !answered {
        return false;
      } else if env.servers[h].inputDeactivated {
        return true;
      }
      answered := env.Up(h);
      env := env.Next();
      if !answered {
        return false;
      }
      muted := env.servers[h].inputMuted;
    }

    method IsOutputMuted(h: U64) returns (muted: bool)
      requires Valid()
      modifies this`env
      ensures var r := B.IsOutputMuted(old(env), h); env == r.env && muted == r.value
    {
      var answered := env.Up(h);
      env := env.Next();
      if !answered {
        return false;
      } else if env.servers[h].outputDisabled {
        return true;
      }
      answered := env.Up(h);
      env := env.Next();
      if !answered {
        return false;
      }
      muted := env.servers[h].published.outputMuted;
    }

    method MoveToChannel(channelId: U64) returns (ok: bool)
      requires Valid()
      modifies this
      ensures Valid()
      ensures var r := B.MoveToChannel(old(Abs()), channelId); Abs() == r.book && ok == r.value
    {
      var clientId := ClientId(serverConnectionHandler);
      if clientId == 0 {
        return false;
      }
      var moved := env.RequestClientMove(serverConnectionHandler, clientId, channelId);
      env := moved.env;
      return moved.value;
    }

    method SetOutputMuted(h: U64, muted: bool) returns (ok: bool)
      requires Valid()
      modifies this
      ensures Valid()
      ensures var r := B.SetOutputMuted(old(Abs()), h, muted); Abs() == r.book && ok == r.value
    {
      var set' := if h in env.servers
        then env.SetLocal(h, env.servers[h].local.(outputMuted := muted))
        else Answer(env.Next(), false);
      env := set'.env;
      if !set'.value {
        return false;
      }
      var flushed := env.Flush(serverConnectionHandler);
      env := flushed.env;
      return flushed.value;
    }

    method SetClientPosition(clientId: U16, position: Position) returns (ok: bool)
      requires Valid()
      modifies this
      ensures Valid()
      ensures var r := B.SetClientPosition(old(Abs()), clientId, position); Abs() == r.book && ok == r.value
    {
      if serverConnectionHandler == 0 {
        return false;
      }
      var answer := env.SetPosition(serverConnectionHandler, clientId, position);
      env := answer.env;
      return answer.value;
    }

    method PlaceEach(entries: seq<B.Placement>)
      requires Valid()
      modifies this
      ensures Valid() && Abs() == B.PlaceEach(old(Abs()), entries)
    {
      var i := 0;
      assert entries[0..] == entries;
      while i < |entries|
        invariant 0 <= i <= |entries| && Valid()
        invariant B.PlaceEach(Abs(), entries[i..]) == B.PlaceEach(old(Abs()), entries)
      {
        assert entries[i..][0] == entries[i] && entries[i..][1..] == entries[i + 1..];
        var _ := SetClientPosition(entries[i].clientId, entries[i].position);
        i := i + 1;
      }
    }

    method ResetClients3DPositions()
      requires Valid()
      modifies this
      ensures Valid() && Abs() == B.ResetPositions(old(Abs()))
    {
      if serverConnectionHandler == 0 {
        return;
      }
      var channelId := ChannelId(serverConnectionHandler);
      var clients := ClientsInChannel(channelId);
      PlaceEach(B.AtOrigin(clients));
    }
  }

  lemma ListedBehindZero(xs: seq<U16>)
    ensures Listed(xs + [0]) == Listed(xs)
  {
    if xs == [] || xs[0] == 0 {
    } else {
      assert (xs + [0])[1..] == xs[1..] + [0];
      ListedBehindZero(xs[1..]);
    }
  }
}
