/** An update packet is applied as two batches, one mute and one unmute request. What that means
    against applying its entries one at a time. */
module UpdateBatches {
  import opened Common
  import opened IdSets
  import opened TeamSpeak
  import opened Bookkeeping
  import opened MuteAgreement
  import opened Protocol
  import opened Session
  import opened Handshakes

  ghost predicate NonzeroEntries(updates: seq<AudioUpdate>) {
    forall u | u in updates :: u.teamspeakId != 0
  }

  /** The same clients are named with the same verdicts, in any order and any number of times. */
  ghost predicate SameEntries(xs: seq<AudioUpdate>, ys: seq<AudioUpdate>) {
    && (forall x | x in xs :: exists y :: y in ys && y.teamspeakId == x.teamspeakId && y.muted == x.muted)
    && (forall y | y in ys :: exists x :: x in xs && x.teamspeakId == y.teamspeakId && x.muted == y.muted)
  }

  /** With every request answered: unmute wins over mute, and nobody else is touched. */
  lemma BatchExact(b: Book, updates: seq<AudioUpdate>)
    requires AllGood(b.env) && OnServer(b) && NonzeroEntries(updates) && b.cache == Muted(b)
    ensures var r := ApplyAudio(b, updates);
            && OnServer(r) && r.handle == b.handle && r.cache == Muted(r) && AllGood(r.env)
            && Muted(r) == (Muted(b) + AudioIds(updates, true)) - AudioIds(updates, false)
  {
  }

  /** Order and repetition of the entries do not matter, whatever TeamSpeak answers. */
  lemma BatchIgnoresOrder(b: Book, xs: seq<AudioUpdate>, ys: seq<AudioUpdate>)
    requires SameEntries(xs, ys)
    ensures ApplyAudio(b, xs) == ApplyAudio(b, ys)
  {
    assert AudioIds(xs, true) == AudioIds(ys, true);
    assert AudioIds(xs, false) == AudioIds(ys, false);
  }

  // ---------- against one entry at a time ----------

  function OneByOne(b: Book, updates: seq<AudioUpdate>): Book
    decreases |updates|
  {
    if updates == [] then b
    else OneByOne(MuteClients(b, {updates[0].teamspeakId}, updates[0].muted).book, updates[1..])
  }

  /** What the last entry naming `id` says. */
  function LastEntry(updates: seq<AudioUpdate>, id: U16): Option<bool> {
    if updates == [] then None
    else
      var later := LastEntry(updates[1..], id);
      if later.Some? then later
      else if updates[0].teamspeakId == id then Some(updates[0].muted)
      else None
  }

  lemma {:induction false} OneByOneExact(b: Book, updates: seq<AudioUpdate>, id: U16)
    requires AllGood(b.env) && OnServer(b) && NonzeroEntries(updates)
    ensures var r := OneByOne(b, updates);
            && OnServer(r) && r.handle == b.handle
            && (id in Muted(r) <==> match LastEntry(updates, id) case Some(muted) => muted case None => id in Muted(b))
    decreases |updates|
  {
    if updates != [] {
      assert updates[0] in updates;
      OneByOneExact(MuteClients(b, {updates[0].teamspeakId}, updates[0].muted).book, updates[1..], id);
    }
  }

  lemma {:induction false} LastEntryIsListed(updates: seq<AudioUpdate>, id: U16)
    ensures var last := LastEntry(updates, id);
            && (last == None ==> id !in AudioIds(updates, true) && id !in AudioIds(updates, false))
            && (last.Some? ==> id in AudioIds(updates, last.value))
    decreases |updates|
  {
    if updates != [] {
      LastEntryIsListed(updates[1..], id);
      assert updates == [updates[0]] + updates[1..];
    }
  }

  /** An entry that is overruled by a later mute in sequence, but not in the batch. */
  ghost predicate Overruled(updates: seq<AudioUpdate>, id: U16) {
    LastEntry(updates, id) == Some(true) && id in AudioIds(updates, false)
  }

  /** The batch has the effect of its entries one by one exactly when no client whose last entry mutes
      him is also unmuted by an earlier entry. */
  lemma BatchMatchesSequenceExact(b: Book, updates: seq<AudioUpdate>)
    requires AllGood(b.env) && OnServer(b) && NonzeroEntries(updates) && b.cache == Muted(b)
    ensures OnServer(OneByOne(b, updates)) && OnServer(ApplyAudio(b, updates))
    ensures Muted(ApplyAudio(b, updates)) == Muted(OneByOne(b, updates)) <==> forall id :: !Overruled(updates, id)
  {
    BatchExact(b, updates);
    OneByOneExact(b, updates, 0);
    var batch, sequence := Muted(ApplyAudio(b, updates)), Muted(OneByOne(b, updates));
    forall id: U16
      ensures (id in batch <==> id in sequence) <==> !Overruled(updates, id)
    {
      OneByOneExact(b, updates, id);
      LastEntryIsListed(updates, id);
    }
    if forall id :: !Overruled(updates, id) {
      assert forall id: U16 :: !Overruled(updates, id) ==> (id in batch <==> id in sequence);
    }
  }

  /** An update that unmutes a client and then mutes him: in sequence he ends up muted, in the batch he
      does not. */
  lemma LateMuteIsLost(b: Book, id: U16)
    requires AllGood(b.env) && OnServer(b) && b.cache == Muted(b) && id != 0
    ensures var updates := [AudioUpdate(id, false, 0, []), AudioUpdate(id, true, 0, [])];
            && OnServer(OneByOne(b, updates)) && id in Muted(OneByOne(b, updates))
            && OnServer(ApplyAudio(b, updates)) && id !in Muted(ApplyAudio(b, updates))
  {
    hide OneByOne, ApplyAudio;
    var updates := [AudioUpdate(id, false, 0, []), AudioUpdate(id, true, 0, [])];
    assert updates[0] in updates && updates[1..] == [AudioUpdate(id, true, 0, [])];
    assert updates[1..][1..] == [];
    assert LastEntry(updates[1..], id) == Some(true);
    OneByOneExact(b, updates, id);
    BatchExact(b, updates);
    assert id in AudioIds(updates, false);
  }

  // ---------- positions ----------

  function LastPlace(entries: seq<Placement>, id: U16): Option<Position> {
    if entries == [] then None
    else
      var later := LastPlace(entries[1..], id);
      if later.Some? then later
      else if entries[0].clientId == id then Some(entries[0].position)
      else None
  }

  /** The last position given for a client is the one that stays; clients not named keep theirs. */
  lemma {:induction false} PlacesExact(b: Book, entries: seq<Placement>, id: U16)
    requires AllGood(b.env) && OnServer(b)
    ensures var r := PlaceEach(b, entries);
            && OnServer(r) && r.handle == b.handle
            && var was, now := b.env.servers[b.handle].positions, r.env.servers[b.handle].positions;
            match LastPlace(entries, id)
            case Some(position) => id in now && now[id] == position
            case None => (id in now <==> id in was) && (id in was ==> now[id] == was[id])
    decreases |entries|
  {
    if entries != [] {
      PlacesExact(SetClientPosition(b, entries[0].clientId, entries[0].position).book, entries[1..], id);
    }
  }

  /** The last update that names a client. */
  function LastUpdate(ps: seq<PositionUpdate>, id: U16): Option<PositionUpdate> {
    if ps == [] then None
    else
      var later := LastUpdate(ps[1..], id);
      if later.Some? then later
      else if ps[0].teamspeakId == id then Some(ps[0])
      else None
  }

  lemma {:induction false} PlacementsFollow(ps: seq<PositionUpdate>, id: U16)
    ensures LastPlace(Placements(ps), id) ==
              match LastUpdate(ps, id) case None => None case Some(p) => Some(Position(p.x, p.y, p.z))
    decreases |ps|
  {
    if ps != [] {
      assert Placements(ps)[0] == Placement(ps[0].teamspeakId, Position(ps[0].x, ps[0].y, ps[0].z));
      assert Placements(ps)[1..] == Placements(ps[1..]);
      PlacementsFollow(ps[1..], id);
    }
  }

  /** A position packet leaves every client where its last entry puts him. */
  lemma PositionsExact(s: State, p: Packet, id: U16)
    requires p.Positions? && AllGood(s.book.env) && OnServer(s.book)
    ensures var r := OnPositions(s, p).book;
            && OnServer(r) && r.handle == s.book.handle
            && var was, now := s.book.env.servers[r.handle].positions, r.env.servers[r.handle].positions;
            match LastUpdate(p.positions, id)
            case Some(u) => id in now && now[id] == Position(u.x, u.y, u.z)
            case None => (id in now <==> id in was) && (id in was ==> now[id] == was[id])
  {
    PlacesExact(s.book, Placements(p.positions), id);
    PlacementsFollow(p.positions, id);
    hide PlaceEach, Placements, LastPlace, LastUpdate;
  }

  lemma {:induction false} OriginPlaces(clients: seq<U16>, id: U16)
    ensures LastPlace(AtOrigin(clients), id) == if id in clients then Some(ORIGIN) else None
    decreases |clients|
  {
    if clients != [] {
      assert AtOrigin(clients)[0] == Placement(clients[0], ORIGIN) && AtOrigin(clients)[1..] == AtOrigin(clients[1..]);
      OriginPlaces(clients[1..], id);
    }
  }

  /** Resetting positions puts every listed member of the user's channel to the origin and moves
      nobody else. */
  lemma ResetExact(b: Book, id: U16)
    requires AllGood(b.env) && Usable(b.env, b.handle)
    ensures var r := ResetPositions(b);
            && OnServer(r) && r.handle == b.handle
            && var was, now := b.env.servers[r.handle].positions, r.env.servers[r.handle].positions;
            if id in MembersOf(b.env, b.handle, b.env.servers[b.handle].channel)
            then id in now && now[id] == ORIGIN
            else (id in now <==> id in was) && (id in was ==> now[id] == was[id])
  {
    var channel := ChannelId(b.env, b.handle);
    assert channel.value == b.env.servers[b.handle].channel;
    var asked := b.(env := channel.env);
    MembersListed(asked, channel.value);
    var clients := ClientsInChannel(asked, channel.value);
    assert MembersOf(asked.env, b.handle, channel.value) == MembersOf(b.env, b.handle, channel.value);
    assert id in clients.value <==> id in Elements(clients.value);
    PlacesExact(clients.book, AtOrigin(clients.value), id);
    OriginPlaces(clients.value, id);
    hide PlaceEach, AtOrigin, LastPlace, ChannelId, ClientsInChannel, MembersOf;
  }
}
