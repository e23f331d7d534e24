/** TeamSpeak as the plugin sees it: the plugin's own standing on every server, and the requests
    the plugin can make. A request has its effect exactly when it returns `ERROR_ok`, and whether
    it does is up to the environment: `answers(n)` decides the n-th call the plugin ever makes. */
module TeamSpeak {
  import opened Common
  import opened IdSets

  /** The client's own variables. Setting one changes the local copy; a flush publishes it. */
  datatype SelfVariables = SelfVariables(nickname: CText, outputMuted: bool)

  /** Coordinates are opaque 32-bit words. */
  datatype Position = Position(x: U32, y: U32, z: U32)

  const ORIGIN := Position(0, 0, 0)

  datatype Server = Server(
    uid: CText,
    identity: CText,
    connected: bool,
    ownId: U16,
    channel: U64,
    local: SelfVariables,
    published: SelfVariables,
    outputDisabled: bool,
    inputDisabled: bool,
    inputDeactivated: bool,
    inputMuted: bool,
    muted: set<U16>,
    members: map<U64, seq<U16>>,
    positions: map<U16, Position>)

  /** `memory` is the book of the strings and lists TeamSpeak hands out and is to be given back. */
  datatype Env = Env(
    answers: nat -> bool,
    calls: nat,
    handles: seq<U64>,
    servers: map<U64, Server>,
    memory: Ledger)
  {
    /** The next call, if it names server `h`, returns `ERROR_ok`. Handle 0 names no server. */
    predicate Up(h: U64) {
      h != 0 && h in servers && answers(calls)
    }

    function Next(): Env {
      this.(calls := calls + 1)
    }

    function Put(h: U64, server: Server): Env {
      this.(calls := calls + 1, servers := servers[h := server])
    }

    /** A string or a list is handed out; its number is the old `memory.out`. */
    function Hold(): Env {
      this.(memory := memory.Take())
    }

    /** `freeMemory` on the string or list with this number. */
    function Free(number: nat): Env {
      this.(memory := memory.Give(number))
    }

    function Members(h: U64, channel: U64): seq<U16>
      requires h in servers
    {
      if channel in servers[h].members then servers[h].members[channel] else []
    }

    /** The mute requests on the id set the receiver reads out of the array. */
    function ChangeMutes(h: U64, ids: set<U16>, mute: bool): Env {
      if !Up(h) then Next()
      else if mute then Put(h, servers[h].(muted := servers[h].muted + ids))
      else Put(h, servers[h].(muted := servers[h].muted - ids))
    }

    /** `requestMuteClients` and `requestUnmuteClients`: the array is read up to its first zero. */
    function RequestMutes(h: U64, clientIds: seq<U16>, mute: bool): Env {
      ChangeMutes(h, Elements(Listed(clientIds)), mute)
    }

    function RequestClientMove(h: U64, clientId: U16, channel: U64): Answer<bool> {
      if Up(h) && clientId == servers[h].ownId
      then Answer(Put(h, servers[h].(channel := channel)), true)
      else Answer(Next(), false)
    }

    function ChannelOfClient(h: U64, clientId: U16): Answer<Option<U64>> {
      if Up(h) && clientId == servers[h].ownId
      then Answer(Next(), Some(servers[h].channel))
      else Answer(Next(), None)
    }

    function SetLocal(h: U64, variables: SelfVariables): Answer<bool> {
      if Up(h) then Answer(Put(h, servers[h].(local := variables)), true)
      else Answer(Next(), false)
    }

    function Flush(h: U64): Answer<bool> {
      if Up(h) then Answer(Put(h, servers[h].(published := servers[h].local)), true)
      else Answer(Next(), false)
    }

    function SetPosition(h: U64, clientId: U16, position: Position): Answer<bool> {
      if Up(h)
      then Answer(Put(h, servers[h].(positions := servers[h].positions[clientId := position])), true)
      else Answer(Next(), false)
    }
  }

  /** A user alone on server 1, in channel 7, under the name "A": the setting of concrete runs. */
  function LoneServer(outputMuted: bool): Server {
    Server([], [], true, 1, 7, SelfVariables([65], outputMuted), SelfVariables([65], outputMuted),
           false, false, false, false, {}, map[], map[])
  }

  function LoneEnv(answers: nat -> bool, outputMuted: bool): Env {
    Env(answers, 0, [1], map[1 := LoneServer(outputMuted)], EMPTY_LEDGER)
  }

  datatype Answer<+T> = Answer(env: Env, value: T)

  /** Every TeamSpeak call succeeds. */
  ghost predicate AllGood(e: Env) {
    forall n: nat :: e.answers(n)
  }
}
