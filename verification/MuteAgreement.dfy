/** The cache of muted clients against the set TeamSpeak really holds muted. */
module MuteAgreement {
  import opened Common
  import opened IdSets
  import opened TeamSpeak
  import opened Bookkeeping

  /** The set really muted on the chosen server. */
  function Muted(b: Book): set<U16>
    requires b.handle in b.env.servers
  {
    b.env.servers[b.handle].muted
  }

  ghost predicate OnServer(b: Book) {
    b.handle != 0 && b.handle in b.env.servers
  }

  /** Every operation on the bookkeeping that stays with the chosen server. */
  datatype BookOp =
    | Mute(clients: set<U16>, mute: bool)
    | UnmuteAll
    | Nickname(name: Text)
    | RestoreNickname
    | Move(channel: U64)
    | OutputMute(handle: U64, muted: bool)
    | Place(clientId: U16, position: Position)
    | ResetAllPositions
    | List(channel: U64)
    | Query(handle: U64)
    | Identity

  function Apply(b: Book, op: BookOp): Book {
    match op
    case Mute(clients, mute) => MuteClients(b, clients, mute).book
    case UnmuteAll => UnmuteAllClients(b).book
    case Nickname(name) => SetNickname(b, name).book
    case RestoreNickname => ResetNickname(b).book
    case Move(channel) => MoveToChannel(b, channel).book
    case OutputMute(h, muted) => SetOutputMuted(b, h, muted).book
    case Place(id, position) => SetClientPosition(b, id, position).book
    case ResetAllPositions => ResetPositions(b)
    case List(channel) => ClientsInChannel(b, channel).book
    case Query(h) => b.(env := ChannelId(b.env, h).env)
    case Identity => ClientIdentity(b).book
  }

  function ApplyAll(b: Book, ops: seq<BookOp>): Book
    decreases |ops|
  {
    if ops == [] then b else ApplyAll(Apply(b, ops[0]), ops[1..])
  }

  ghost predicate NonzeroIds(ops: seq<BookOp>) {
    forall i :: 0 <= i < |ops| && ops[i].Mute? ==> 0 !in ops[i].clients
  }

  /** No unmute-everybody request along the run was refused. */
  ghost predicate UnmuteAllsSucceed(b: Book, ops: seq<BookOp>)
    decreases |ops|
  {
    ops != [] ==>
      && (ops[0].UnmuteAll? ==> UnmuteAllClients(b).value)
      && UnmuteAllsSucceed(Apply(b, ops[0]), ops[1..])
  }

  /** Nothing TeamSpeak or the plugin keeps has changed, except positions. */
  ghost predicate OnlyPositions(b: Book, r: Book) {
    && r == b.(env := r.env)
    && r.env == b.env.(calls := r.env.calls, memory := r.env.memory, servers := r.env.servers)
    && r.env.servers.Keys == b.env.servers.Keys
    && forall h | h in b.env.servers ::
         r.env.servers[h] == b.env.servers[h].(positions := r.env.servers[h].positions)
  }

  lemma PlaceIsQuiet(b: Book, clientId: U16, position: Position)
    ensures OnlyPositions(b, SetClientPosition(b, clientId, position).book)
  {
  }

  /** Without a chosen server TeamSpeak is not even asked. */
  lemma NoServerNoPlace(b: Book, clientId: U16, position: Position)
    requires b.handle == 0
    ensures SetClientPosition(b, clientId, position) == Outcome(b, false)
  {
  }

  lemma QuietTransitive(a: Book, b: Book, c: Book)
    requires OnlyPositions(a, b) && OnlyPositions(b, c)
    ensures OnlyPositions(a, c)
  {
  }

  /** Position calls leave everything but positions alone. */
  lemma {:induction false} PlaceEachIsQuiet(b: Book, entries: seq<Placement>)
    ensures OnlyPositions(b, PlaceEach(b, entries))
    decreases |entries|
  {
    hide SetClientPosition, OnlyPositions;
    if entries == [] {
      ReflexivelyQuiet(b);
    } else {
      var placed := SetClientPosition(b, entries[0].clientId, entries[0].position).book;
      PlaceIsQuiet(b, entries[0].clientId, entries[0].position);
      PlaceEachIsQuiet(placed, entries[1..]);
      QuietTransitive(b, placed, PlaceEach(placed, entries[1..]));
    }
  }

  lemma ReflexivelyQuiet(b: Book)
    ensures OnlyPositions(b, b)
  {
  }

  lemma IdentityIsQuiet(b: Book)
    ensures OnlyPositions(b, ClientIdentity(b).book)
  {
  }

  lemma ResetPositionsIsQuiet(b: Book)
    ensures OnlyPositions(b, ResetPositions(b))
  {
    if b.handle != 0 {
      var channel := ChannelId(b.env, b.handle);
      var clients := ClientsInChannel(b.(env := channel.env), channel.value);
      PlaceEachIsQuiet(clients.book, AtOrigin(clients.value));
      QuietTransitive(b, clients.book, PlaceEach(clients.book, AtOrigin(clients.value)));
    }
  }

  /** The plugin is still on its server, with the same cache and the same real mutes. */
  ghost predicate SameMutes(b: Book, r: Book) {
    b.handle in b.env.servers && r.handle == b.handle && r.handle in r.env.servers
    && r.cache == b.cache && Muted(r) == Muted(b)
  }

  lemma NicknamesKeepMutes(b: Book, name: Text)
    requires OnServer(b)
    ensures SameMutes(b, SetNickname(b, name).book)
    ensures SameMutes(b, ResetNickname(b).book)
  {
  }

  lemma MovesKeepMutes(b: Book, channel: U64, h: U64, muted: bool)
    requires OnServer(b)
    ensures SameMutes(b, MoveToChannel(b, channel).book)
    ensures SameMutes(b, SetOutputMuted(b, h, muted).book)
  {
  }

  lemma ResetPositionsKeepsMutes(b: Book)
    requires OnServer(b)
    ensures SameMutes(b, ResetPositions(b))
  {
    ResetPositionsIsQuiet(b);
    hide ResetPositions;
  }

  lemma OthersKeepMutes(b: Book, op: BookOp)
    requires OnServer(b) && !op.Mute? && !op.UnmuteAll?
    ensures SameMutes(b, Apply(b, op))
  {
    match op
    case Nickname(name) => NicknamesKeepMutes(b, name);
    case RestoreNickname => NicknamesKeepMutes(b, []);
    case Move(channel) => MovesKeepMutes(b, channel, 0, false);
    case OutputMute(h, muted) => MovesKeepMutes(b, 0, h, muted);
    case ResetAllPositions => ResetPositionsKeepsMutes(b);
    case _ =>
  }

  lemma MutesKeepServer(b: Book, clients: set<U16>, mute: bool)
    requires OnServer(b) && 0 !in clients && 0 !in b.cache && b.cache <= Muted(b)
    ensures var r := MuteClients(b, clients, mute).book;
            && OnServer(r) && r.handle == b.handle && 0 !in r.cache && r.cache <= Muted(r)
            && (b.cache == Muted(b) ==> r.cache == Muted(r))
  {
  }

  /** Whatever requests TeamSpeak refuses along the way, the plugin never believes a client muted
      that is not; and it knows every client it muted unless an unmute-everybody request, which
      clears the cache without looking at the answer, was refused. */
  lemma {:induction false} CacheRefinesMutes(b: Book, ops: seq<BookOp>)
    requires OnServer(b) && NonzeroIds(ops)
    requires 0 !in b.cache && b.cache <= Muted(b)
    ensures OnServer(ApplyAll(b, ops)) && ApplyAll(b, ops).handle == b.handle
    ensures ApplyAll(b, ops).cache <= Muted(ApplyAll(b, ops))
    ensures b.cache == Muted(b) && UnmuteAllsSucceed(b, ops) ==> ApplyAll(b, ops).cache == Muted(ApplyAll(b, ops))
    decreases |ops|
  {
    if ops == [] {
    } else {
      match ops[0] {
        case Mute(clients, mute) => MutesKeepServer(b, clients, mute);
        case UnmuteAll =>
        case other => OthersKeepMutes(b, other);
      }
      CacheRefinesMutes(Apply(b, ops[0]), ops[1..]);
    }
  }

  /** The agreement survives one refusable unmute-everybody call exactly when there was nothing to
      unmute or the call was answered. */
  lemma UnmuteAllAgreement(b: Book)
    requires OnServer(b) && b.cache == Muted(b) && 0 !in b.cache
    ensures var r := UnmuteAllClients(b).book;
            r.cache == Muted(r) <==> b.cache == {} || b.env.Up(b.handle)
  {
  }

  /** The id 0 ends the array early. The agreement survives a mute request exactly when the request
      failed, named no client 0, or was an unmute that named no cached client. */
  lemma MuteAgreementExact(b: Book, clients: set<U16>, mute: bool)
    requires OnServer(b) && b.cache == Muted(b) && 0 !in b.cache
    ensures var r := MuteClients(b, clients, mute).book;
            r.cache == Muted(r) <==>
              !b.env.Up(b.handle) || 0 !in clients || (!mute && clients !! b.cache)
  {
    var r := MuteClients(b, clients, mute).book;
    if b.env.Up(b.handle) && 0 in clients {
      if mute {
        assert 0 in r.cache && 0 !in Muted(r);
      } else if !(clients !! b.cache) {
        var x :| x in clients && x in b.cache;
        assert x !in r.cache && x in Muted(r);
      }
    }
  }
}
