/** What `teamspeak.cpp` keeps about TeamSpeak in its three static variables, as a value, and its
    functions as functions of that value. The class `Bookkeeper` runs the same operations in place. */
module Bookkeeping {
  import opened Common
  import opened IdSets
  import opened TeamSpeak

  /** The chosen server handle, the ids believed muted, the nickname to restore, and TeamSpeak. */
  datatype Book = Book(handle: U64, cache: set<U16>, saved: CText, env: Env)

  datatype Outcome<+T> = Outcome(book: Book, value: T)

  // ---------- queries ----------

  /** The plugin's own client id on server `h`, 0 when it cannot be had. */
  function ClientId(e: Env, h: U64): (r: Answer<U16>)
    ensures r.env == e.(calls := r.env.calls) && r.env.calls >= e.calls
    ensures r.value != 0 ==> h in e.servers && e.servers[h].connected && r.value == e.servers[h].ownId
  {
    if h == 0 then Answer(e, 0)
    else if !e.Up(h) || !e.servers[h].connected then Answer(e.Next(), 0)
    else if !e.Next().Up(h) then Answer(e.Next().Next(), 0)
    else Answer(e.Next().Next(), e.servers[h].ownId)
  }

  /** The channel the plugin's user is in on server `h`, 0 when it cannot be had. */
  function ChannelId(e: Env, h: U64): (r: Answer<U64>)
    ensures r.env == e.(calls := r.env.calls) && r.env.calls > e.calls
    ensures r.value != 0 ==> h in e.servers && r.value == e.servers[h].channel
  {
    var id := ClientId(e, h);
    var c := id.env.ChannelOfClient(h, id.value);
    match c.value
    case None => Answer(c.env, 0)
    case Some(channel) => Answer(c.env, channel)
  }

  function IsInputMuted(e: Env, h: U64): (r: Answer<bool>)
    ensures r.env == e.(calls := r.env.calls) && r.env.calls > e.calls
  {
    if !e.Up(h) then Answer(e.Next(), false)
    else if e.servers[h].inputDisabled then Answer(e.Next(), true)
    else if !e.Next().Up(h) then Answer(e.Next().Next(), false)
    else if e.servers[h].inputDeactivated then Answer(e.Next().Next(), true)
    else if !e.Next().Next().Up(h) then Answer(e.Next().Next().Next(), false)
    else Answer(e.Next().Next().Next(), e.servers[h].inputMuted)
  }

  function IsOutputMuted(e: Env, h: U64): (r: Answer<bool>)
    ensures r.env == e.(calls := r.env.calls) && r.env.calls > e.calls
  {
    if !e.Up(h) then Answer(e.Next(), false)
    else if e.servers[h].outputDisabled then Answer(e.Next(), true)
    else if !e.Next().Up(h) then Answer(e.Next().Next(), false)
    else Answer(e.Next().Next(), e.servers[h].published.outputMuted)
  }

  /** A refused query counts as not muted, unless the hardware is known to be off. */
  lemma MuteQueriesExact(e: Env, h: U64)
    ensures IsInputMuted(e, h).value <==>
              e.Up(h)
              && var server := e.servers[h];
              server.inputDisabled
              || (e.Next().Up(h) && (server.inputDeactivated || (e.Next().Next().Up(h) && server.inputMuted)))
    ensures IsOutputMuted(e, h).value <==>
              e.Up(h)
              && var server := e.servers[h];
              server.outputDisabled || (e.Next().Up(h) && server.published.outputMuted)
  {
  }

  /** The identity string is never given back to TeamSpeak. */
  function ClientIdentity(b: Book): (r: Outcome<CText>)
  {
    if b.handle == 0 then Outcome(b, [])
    else if !b.env.Up(b.handle) then Outcome(b.(env := b.env.Next()), [])
    else Outcome(b.(env := b.env.Next().Hold()), b.env.servers[b.handle].identity)
  }

  // ---------- server search ----------

  /** Asks the servers of a zero-terminated list in turn for their identifier and stops at the
      first match. */
  function SearchServers(e: Env, handles: seq<U64>, uid: Text): (r: Answer<U64>)
    ensures r.env == e.(calls := r.env.calls, memory := r.env.memory)
    ensures r.value != 0 ==> r.value in e.servers && e.servers[r.value].uid == uid
    decreases |handles|
  {
    if handles == [] || handles[0] == 0 then Answer(e, 0)
    else if !e.Up(handles[0]) then SearchServers(e.Next(), handles[1..], uid)
    else
      var held := e.Next().Hold();
      if e.servers[handles[0]].uid == uid then Answer(held.Free(e.memory.out), handles[0])
      else SearchServers(held.Free(e.memory.out), handles[1..], uid)
  }

  function VerifyServer(b: Book, uid: Text): Outcome<bool> {
    if !b.env.answers(b.env.calls) then Outcome(b.(env := b.env.Next()), false)
    else
      var found := SearchServers(b.env.Next().Hold(), b.env.handles + [0], uid);
      Outcome(b.(handle := found.value, env := found.env.Free(b.env.memory.out)), found.value != 0)
  }

  // ---------- mutes ----------

  function MuteClients(b: Book, clients: set<U16>, mute: bool): Outcome<bool> {
    if clients == {} then Outcome(b, true)
    else
      var ok := b.env.Up(b.handle);
      var cache :=
        if !ok then b.cache
        else if mute then b.cache + clients
        else b.cache - clients;
      Outcome(b.(cache := cache, env := b.env.ChangeMutes(b.handle, Sent(clients), mute)), ok)
  }

  /** One request per client, in order. */
  function MuteEach(b: Book, clients: seq<U16>, mute: bool): Book
    decreases |clients|
  {
    if clients == [] then b
    else MuteEach(MuteClients(b, {clients[0]}, mute).book, clients[1..], mute)
  }

  function UnmuteAllClients(b: Book): Outcome<bool> {
    if b.cache == {} then Outcome(b, true)
    else
      Outcome(b.(cache := {}, env := b.env.ChangeMutes(b.handle, Sent(b.cache), false)),
              b.env.Up(b.handle))
  }

  /** The members of a channel. Needs the subscription request, the last query of the loop that
      waits for the subscription, and the list query to succeed. */
  function ClientsInChannel(b: Book, channel: U64): (r: Outcome<seq<U16>>)
    ensures r.book == b.(env := b.env.(calls := r.book.env.calls, memory := r.book.env.memory))
    ensures Returned(b.env.memory, r.book.env.memory)
    ensures Ascending(r.value) && 0 !in r.value
  {
    var e := b.env;
    if !e.Up(b.handle) then Outcome(b.(env := e.Next()), [])
    else if !e.Next().Up(b.handle) then Outcome(b.(env := e.Next().Next()), [])
    else if !e.Next().Next().Up(b.handle) then Outcome(b.(env := e.Next().Next().Next()), [])
    else
      Outcome(b.(env := e.Next().Next().Next().Hold().Free(e.memory.out)),
              InsertAll([], Listed(e.Members(b.handle, channel))))
  }

  /** The listed members exactly when all three calls are answered, nobody otherwise. */
  lemma MembersExact(b: Book, channel: U64)
    ensures var e := b.env;
            Elements(ClientsInChannel(b, channel).value) ==
              if e.Up(b.handle) && e.Next().Up(b.handle) && e.Next().Next().Up(b.handle)
              then Elements(Listed(e.Members(b.handle, channel)))
              else {}
  {
  }

  // ---------- nickname ----------

  function SetNickname(b: Book, nickname: Text): Outcome<bool> {
    var h := b.handle;
    if h == 0 then Outcome(b, false)
    else if !b.env.Up(h) then Outcome(b.(saved := [], env := b.env.Next()), false)
    else
      var current := b.env.servers[h].published.nickname;
      var asked := b.(env := b.env.Next().Hold());
      if nickname == current then Outcome(asked, true)
      else Rename(asked.(saved := if asked.saved == [] then current else asked.saved), CStr(nickname))
  }

  /** Sets and flushes the nickname on the current server. */
  function Rename(b: Book, nickname: CText): Outcome<bool> {
    if b.handle !in b.env.servers then Outcome(b.(env := b.env.Next()), false)
    else
      var set' := b.env.SetLocal(b.handle, b.env.servers[b.handle].local.(nickname := nickname));
      if !set'.value then Outcome(b.(env := set'.env), false)
      else
        var flushed := set'.env.Flush(b.handle);
        Outcome(b.(env := flushed.env), flushed.value)
  }

  function ResetNickname(b: Book): Outcome<bool> {
    if b.handle == 0 then Outcome(b, false)
    else if b.saved == [] then Outcome(b, true)
    else
      var r := Rename(b, b.saved);
      if r.value then Outcome(r.book.(saved := []), true) else r
  }

  // ---------- channel, output and positions ----------

  function MoveToChannel(b: Book, channel: U64): Outcome<bool> {
    var id := ClientId(b.env, b.handle);
    if id.value == 0 then Outcome(b.(env := id.env), false)
    else
      var moved := id.env.RequestClientMove(b.handle, id.value, channel);
      Outcome(b.(env := moved.env), moved.value)
  }

  /** A move succeeds exactly when the user is connected under an id and all three calls are answered. */
  lemma MoveExact(b: Book, channel: U64)
    ensures var e := b.env;
            MoveToChannel(b, channel).value <==>
              && e.Up(b.handle) && e.Next().Up(b.handle) && e.Next().Next().Up(b.handle)
              && e.servers[b.handle].connected && e.servers[b.handle].ownId != 0
  {
  }

  /** Sets the output mute of server `h` and flushes the chosen server. */
  function SetOutputMuted(b: Book, h: U64, muted: bool): Outcome<bool> {
    if h !in b.env.servers then Outcome(b.(env := b.env.Next()), false)
    else
      var set' := b.env.SetLocal(h, b.env.servers[h].local.(outputMuted := muted));
      if !set'.value then Outcome(b.(env := set'.env), false)
      else
        var flushed := set'.env.Flush(b.handle);
        Outcome(b.(env := flushed.env), flushed.value)
  }

  function SetClientPosition(b: Book, clientId: U16, position: Position): Outcome<bool> {
    if b.handle == 0 then Outcome(b, false)
    else
      var r := b.env.SetPosition(b.handle, clientId, position);
      Outcome(b.(env := r.env), r.value)
  }

  datatype Placement = Placement(clientId: U16, position: Position)

  /** One position call per entry, in order. */
  function PlaceEach(b: Book, entries: seq<Placement>): Book
    decreases |entries|
  {
    if entries == [] then b
    else PlaceEach(SetClientPosition(b, entries[0].clientId, entries[0].position).book, entries[1..])
  }

  function AtOrigin(clients: seq<U16>): seq<Placement> {
    seq(|clients|, i requires 0 <= i < |clients| => Placement(clients[i], ORIGIN))
  }

  function ResetPositions(b: Book): Book {
    if b.handle == 0 then b
    else
      var channel := ChannelId(b.env, b.handle);
      var clients := ClientsInChannel(b.(env := channel.env), channel.value);
      PlaceEach(clients.book, AtOrigin(clients.value))
  }
}
