/** `httpServer.cpp` with its daemon and the connection mutex updated in place. */
module HttpObject {
  import opened Common
  import opened PluginObject
  import opened Http
  import S = Session
  import L = Lifecycle

  class HttpServer {
    var daemon: bool
    var connectionMutex: bool

    constructor ()
      ensures !daemon && !connectionMutex
    {
      daemon := false;
      connectionMutex := false;
    }

    /** `started` is whether the daemon could be started. */
    method Open(started: bool) returns (ok: bool)
      modifies this`daemon
      ensures ok <==> !old(daemon) && started
      ensures daemon == (old(daemon) || started)
    {
      if daemon {
        return false;
      }
      daemon := started;
      ok := daemon;
    }

    method Close()
      modifies this`daemon
      ensures !daemon
    {
      daemon := false;
    }

    /** Handles a request that no other request interrupts. `None` is an exception that leaves the
        handler, and the lock, behind. */
    method HandleRequest(plugin: Plugin, q: Query, dial: S.Dial, pending: seq<S.NetEvent>)
      returns (page: Option<Page>, ghost ingame: bool, ghost connected: bool)
      requires plugin.Valid()
      modifies this`connectionMutex, plugin.client, if plugin.client == null then {} else {plugin.client.teamspeak}
      ensures plugin.Valid()
      ensures ingame <==> plugin.client != null && old(plugin.client != null && plugin.client.Abs().IsIngame())
      ensures var p := Alone(old(connectionMutex), q, ingame, connected);
              && connectionMutex == p.mutex
              && (page == if p.stage.Answered? then Some(p.stage.page) else None)
      ensures plugin.client != null ==>
                if !old(connectionMutex) && !ingame && Complete(q) && Numeric(q)
                then
                  var e := EndpointOf(q);
                  S.Attempt(plugin.client.Abs(), connected)
                    == S.Connect(old(plugin.client.Abs()), e.host, e.port, e.uid, dial, pending)
                else plugin.client.Abs() == old(plugin.client.Abs())
      // the endpoint as the caller wrote it
      ensures plugin.client != null && !old(connectionMutex) && !ingame ==>
                forall host: Text, port: U16, uid: U16 ::
                  q == Query(Some(host), Some(Show(port)), Some(Show(uid))) ==>
                    && S.Attempt(plugin.client.Abs(), connected)
                         == S.Connect(old(plugin.client.Abs()), host, port, uid, dial, pending)
                    && page == Some(if connected then Connected else UnableToConnect)
      ensures page == Some(Connected) ==> plugin.client != null
      ensures page == Some(Connected) ==>
                forall host: Text, port: U16, uid: U16 ::
                  host != [] && q == Query(Some(host), Some(Show(port)), Some(Show(uid))) ==>
                    var link := plugin.client.Abs().link;
                    L.Open(plugin.client.Abs()) && link.host == host && link.port == port && link.gameId == uid
    {
      hide S.Connect, Stoi, ToU16, Show;
      forall host: Text, port: U16, uid: U16 | q == Query(Some(host), Some(Show(port)), Some(Show(uid)))
        ensures Complete(q) && Numeric(q) && EndpointOf(q) == Endpoint(host, port, uid)
      {
        EndpointRead(host, port, uid);
      }
      connected := false;
      ingame := plugin.client != null && plugin.client.Abs().IsIngame();
      if connectionMutex {
        return Some(AlreadyConnecting), ingame, connected;
      }
      connectionMutex := true;
      var isIngame := plugin.IsIngame();
      if isIngame {
        connectionMutex := false;
        return Some(AlreadyIngame), ingame, connected;
      }
      if q.host == None || q.port == None || q.uid == None {
        connectionMutex := false;
        return Some(MissingParameters), ingame, connected;
      }
      var port, uid := Stoi(q.port.value), Stoi(q.uid.value);
      if port == None || uid == None {
        return None, ingame, connected;
      }
      var ok := ConnectTo(plugin, q.host.value, ToU16(port.value), ToU16(uid.value), dial, pending);
      connected := ok;
      connectionMutex := false;
      page := Some(if ok then Connected else UnableToConnect);
    }

    /** The connection attempt of a request; success for a host that has a name means a session with
        exactly that endpoint. */
    method ConnectTo(plugin: Plugin, host: Text, port: U16, uid: U16, dial: S.Dial, pending: seq<S.NetEvent>)
      returns (ok: bool)
      requires plugin.Valid()
      modifies plugin.client, if plugin.client == null then {} else {plugin.client.teamspeak}
      ensures plugin.Valid()
      ensures ok ==> plugin.client != null
      ensures plugin.client != null ==>
                S.Attempt(plugin.client.Abs(), ok) == S.Connect(old(plugin.client.Abs()), host, port, uid, dial, pending)
      ensures ok && host != [] ==>
                var link := plugin.client.Abs().link;
                L.Open(plugin.client.Abs()) && link.host == host && link.port == port && link.gameId == uid
    {
      hide S.Connect;
      if plugin.client != null {
        L.ConnectContract(plugin.client.Abs(), host, port, uid, dial, pending);
      }
      ok := plugin.Connect(host, port, uid, dial, pending);
    }
  }
}
