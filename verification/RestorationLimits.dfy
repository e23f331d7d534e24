/** Exactly how far restoration goes: what a close puts back whatever TeamSpeak refuses, and which
    packets a session can be sent that closing no longer undoes. */
module RestorationLimits {
  import opened Common
  import opened IdSets
  import opened TeamSpeak
  import opened Bookkeeping
  import opened MuteAgreement
  import opened NicknameSaver
  import opened Protocol
  import opened Session
  import opened Handshakes
  import opened Lifecycle
  import opened Shutdown
  import opened Restoration

  // ---------- one way home, under any refusals ----------

  ghost predicate OthersUntouched(b: Book, origins: Origins) {
    forall h | h in b.env.servers && h != b.handle :: h in origins && Untouched(b.env.servers[h], origins[h])
  }

  /** The user has been found elsewhere and been moved to the saved channel. */
  predicate MovesBack(last: U64, b: Book) {
    var channel := ChannelId(b.env, b.handle);
    channel.value != last && MoveToChannel(b.(env := channel.env), last).value
  }

  /** The book after that move and the reset of positions. */
  function BackAgain(last: U64, b: Book): Book {
    ResetPositions(MoveToChannel(b.(env := ChannelId(b.env, b.handle).env), last).book)
  }

  /** Unmuting everybody the plugin knows of leaves nobody muted: nobody was, or the request is
      answered and the array sent names all who were. */
  predicate MutesGo(b: Book)
    requires b.handle in b.env.servers
  {
    Muted(b) == {} || (b.env.Up(b.handle) && Muted(b) <= IdSets.Sent(b.cache))
  }

  predicate Named(server: Server, name: CText) {
    server.published.nickname == server.local.nickname == name
  }

  /** A reset of the nickname ends with the original name everywhere: nothing is saved and it is there
      already; or the original is saved, and set and flush are answered, or the set is and only the
      local name was wrong; or the set is refused and no name was wrong. */
  predicate NameComesBack(b: Book, original: CText)
    requires b.handle in b.env.servers
  {
    var server := b.env.servers[b.handle];
    if b.saved == [] || !b.env.Up(b.handle) then Named(server, original)
    else b.saved == original && (b.env.Next().Up(b.handle) || server.published.nickname == original)
  }

  lemma MoveOnly(b: Book, channel: U64)
    ensures var r := MoveToChannel(b, channel);
            && r.book == b.(env := b.env.(calls := r.book.env.calls, servers := r.book.env.servers))
            && (r.value ==> OnServer(b))
            && r.book.env.servers ==
                 if r.value then b.env.servers[b.handle := b.env.servers[b.handle].(channel := channel)]
                 else b.env.servers
  {
  }

  /** What unmuting everybody does to the servers. */
  lemma UnmuteOnly(b: Book)
    requires OnServer(b)
    ensures var r := UnmuteAllClients(b).book;
            && r == b.(cache := {}, env := r.env)
            && r.env == b.env.(calls := r.env.calls, servers := r.env.servers)
            && r.env.servers.Keys == b.env.servers.Keys
            && (forall h | h in b.env.servers && h != b.handle :: r.env.servers[h] == b.env.servers[h])
            && r.env.servers[b.handle] == b.env.servers[b.handle].(muted := r.env.servers[b.handle].muted)
            && (Muted(r) == {} <==> MutesGo(b))
  {
    if b.cache == {} {
      assert IdSets.Sent(b.cache) == {};
    }
    hide IdSets.Sent;
    NothingLeft(Muted(b), IdSets.Sent(b.cache));
  }

  lemma NameExact(b: Book, original: CText)
    requires OnServer(b)
    ensures var r := ResetNickname(b).book;
            && OnServer(r) && r.handle == b.handle
            && (Named(r.env.servers[b.handle], original) <==> NameComesBack(b, original))
  {
  }

  lemma BackAgainOnly(last: U64, b: Book)
    requires MovesBack(last, b)
    ensures var r := BackAgain(last, b);
            && OnServer(b) && OnServer(r) && r.handle == b.handle && r.cache == b.cache && r.saved == b.saved
            && r.env.servers.Keys == b.env.servers.Keys
            && forall h | h in b.env.servers ::
                 r.env.servers[h] ==
                   b.env.servers[h].(positions := r.env.servers[h].positions,
                                     channel := if h == b.handle then last else b.env.servers[h].channel)
  {
    hide ChannelId, MoveToChannel, ResetPositions;
    var asked := b.(env := ChannelId(b.env, b.handle).env);
    MoveOnly(asked, last);
    ResetPositionsIsQuiet(MoveToChannel(asked, last).book);
  }

  /** In the saved channel: mutes and names decide, and whether it is the right channel. */
  lemma RestExact(b: Book, origins: Origins)
    requires OnServer(b)
    ensures var unmuted := UnmuteAllClients(b).book;
            && OnServer(unmuted)
            && (AllUntouched(ResetNickname(unmuted).book.env, origins) <==>
                  && OthersUntouched(b, origins) && b.handle in origins
                  && b.env.servers[b.handle].channel == origins[b.handle].channel
                  && MutesGo(b) && NameComesBack(unmuted, origins[b.handle].nickname))
  {
    hide UnmuteAllClients, ResetNickname, NameComesBack, MutesGo;
    UnmuteOnly(b);
    var unmuted := UnmuteAllClients(b).book;
    ResetTouchesNames(unmuted);
    var r := ResetNickname(unmuted).book;
    var h := b.handle;
    assert r.env.servers.Keys == b.env.servers.Keys;
    assert OthersUntouched(b, origins) <==> OthersUntouched(r, origins);
    if h in origins {
      NameExact(unmuted, origins[h].nickname);
      assert Muted(r) == Muted(unmuted) && r.env.servers[h].channel == b.env.servers[h].channel;
      assert Untouched(r.env.servers[h], origins[h]) <==>
        r.env.servers[h].channel == origins[h].channel && Named(r.env.servers[h], origins[h].nickname) && Muted(r) == {};
    }
    SplitUntouched(r, origins);
  }

  lemma SplitUntouched(b: Book, origins: Origins)
    requires b.handle in b.env.servers
    ensures AllUntouched(b.env, origins) <==>
              OthersUntouched(b, origins) && b.handle in origins && Untouched(b.env.servers[b.handle], origins[b.handle])
  {
  }

  /** What closing puts back, in any state of the bookkeeping and whatever calls TeamSpeak refuses.
      If the user is found elsewhere and moved to the saved channel, everything is as it should be
      exactly when no other server had been touched, that channel is his own, the unmute request frees
      everybody, and the name comes back. If not, closing changes nothing: a user who has walked home
      himself keeps mutes and name, and so does one whom TeamSpeak does not let go home. */
  lemma GoHomeRestoresExact(b: Book, last: U64, origins: Origins)
    ensures MovesBack(last, b) ==> OnServer(BackAgain(last, b)) && OnServer(UnmuteAllClients(BackAgain(last, b)).book)
    ensures AllUntouched(GoHome(last, b).book.env, origins) <==>
              if last != 0 && MovesBack(last, b)
              then
                var back := BackAgain(last, b);
                && OthersUntouched(b, origins)
                && b.handle in origins && last == origins[b.handle].channel
                && MutesGo(back)
                && NameComesBack(UnmuteAllClients(back).book, origins[b.handle].nickname)
              else AllUntouched(b.env, origins)
  {
    hide ChannelId, MoveToChannel, ResetPositions, UnmuteAllClients, ResetNickname, NameComesBack, MutesGo, Untouched;
    var asked := b.(env := ChannelId(b.env, b.handle).env);
    MoveOnly(asked, last);
    if MovesBack(last, b) {
      var back := BackAgain(last, b);
      BackAgainOnly(last, b);
      RestExact(back, origins);
      BackUntouched(last, b, origins);
    }
  }

  lemma BackUntouched(last: U64, b: Book, origins: Origins)
    requires MovesBack(last, b)
    ensures OthersUntouched(BackAgain(last, b), origins) <==> OthersUntouched(b, origins)
  {
    hide BackAgain, MovesBack;
    BackAgainOnly(last, b);
  }

  /** A refused move strands the session for good: the saved channel is forgotten, the mutes and the
      names stay as they are, and no later close does anything about it. */
  lemma RefusedMoveStrands(last: U64, b: Book)
    requires last != 0 && b.handle != 0 && b.handle in b.env.servers
    requires ChannelId(b.env, b.handle).value != last
    requires !MoveToChannel(b.(env := ChannelId(b.env, b.handle).env), last).value
    ensures var r := GoHome(last, b);
            && r.lastChannelId == 0
            && r.book.env.servers == b.env.servers && r.book.cache == b.cache && r.book.saved == b.saved
            && GoHome(r.lastChannelId, r.book) == r
  {
  }

  // ---------- the endings ----------

  lemma {:induction false} StayAfter(s: State, n: nat)
    requires s.lastChannelId == 0
    ensures HomeAfter(s, n) == HomeOf(s)
    decreases n
  {
    hide ChannelId, MoveToChannel, ResetPositions, UnmuteAllClients, ResetNickname;
    if n > 0 {
      StayAfter(s, n - 1);
    }
  }

  lemma GoHomeKeepsAnswers(last: U64, b: Book)
    ensures GoHome(last, b).book.env.answers == b.env.answers
  {
    hide ChannelId, MoveToChannel, ResetPositions, UnmuteAllClients, ResetNickname;
    var asked := b.(env := ChannelId(b.env, b.handle).env);
    MoveOnly(asked, last);
    var moved := MoveToChannel(asked, last).book;
    ResetPositionsIsQuiet(moved);
    UnmuteKeepsAnswers(ResetPositions(moved));
    ResetTouchesNames(UnmuteAllClients(ResetPositions(moved)).book);
  }

  lemma UnmuteKeepsAnswers(b: Book)
    ensures UnmuteAllClients(b).book.env.answers == b.env.answers
  {
  }

  lemma AnswersAlike(a: Home, b: Home)
    requires SameButCalls(a, b) && AllGood(b.book.env) && NothingToDo(b)
    ensures NothingToDo(a)
  {
  }

  /** With every call answered, TeamSpeak is after any number of closes as after the first. */
  lemma {:induction false} HomesAlike(s: State, n: nat)
    requires n > 0 && AllGood(s.book.env)
    ensures SameButCalls(HomeAfter(s, n), Once(s)) && NothingToDo(HomeAfter(s, n))
    ensures AllGood(HomeAfter(s, n).book.env)
    decreases n
  {
    hide GoHome, ChannelId;
    NextHome(s, n - 1);
    if n == 1 {
      FirstCloseOutcome(s);
      GoHomeKeepsAnswers(s.lastChannelId, s.book);
      FirstCloseIdle(s);
    } else {
      HomesAlike(s, n - 1);
      var home := HomeAfter(s, n - 1);
      CloseIdleExact(home);
      GoHomeKeepsAnswers(home.lastChannelId, home.book);
      AnswersAlike(HomeAfter(s, n), home);
    }
  }

  /** Each of the five endings leaves the servers as one way home would. */
  lemma EndingRestores(s: State, e: Event)
    requires Inv(s) && Open(s) && Ends(e) && AllGood(s.book.env)
    ensures var r := Step(s, e);
            && Closed(r)
            && r.book.env.servers == GoHome(s.lastChannelId, s.book).book.env.servers
            && (s.lastChannelId == 0 ==> HomeOf(r) == HomeOf(s))
  {
    hide Step, GoHome, HomeAfter, Closes;
    EndingsGoHome(s, e);
    HomesAlike(s, Closes(s, e));
    if s.lastChannelId == 0 {
      StayAfter(s, Closes(s, e));
    }
  }

  // ---------- packets too early ----------

  lemma NoRequest(b: Book, clients: set<U16>, mute: bool)
    requires b.handle !in b.env.servers
    ensures var r := MuteClients(b, clients, mute).book;
            r.handle == b.handle && r.env == b.env.(calls := r.env.calls)
  {
  }

  lemma OneServerUntouched(b: Book, e: Env, server: Server, origins: Origins)
    requires BookHome(b, origins) && b.handle in b.env.servers
    requires e.servers == b.env.servers[b.handle := server]
    ensures AllUntouched(e, origins) <==> Untouched(server, origins[b.handle])
  {
    assert e.servers[b.handle] == server;
  }

  /** Both requests of an update, answered. */
  lemma AudioExact(b: Book, audio: seq<AudioUpdate>)
    requires AllGood(b.env) && OnServer(b)
    ensures var r := ApplyAudio(b, audio);
            var server := b.env.servers[b.handle];
            var up, down := AudioIds(audio, true), AudioIds(audio, false);
            var muted := (server.muted + IdSets.Sent(up)) - IdSets.Sent(down);
            && r.handle == b.handle && r.saved == b.saved && r.cache == (b.cache + up) - down
            && r.env == b.env.(calls := r.env.calls, servers := b.env.servers[b.handle := server.(muted := muted)])
  {
    hide MuteClients, AudioIds, IdSets.Sent;
    OneRequest(b, AudioIds(audio, true), true);
    OneRequest(MuteClients(b, AudioIds(audio, true), true).book, AudioIds(audio, false), false);
  }

  lemma AudioNowhere(b: Book, audio: seq<AudioUpdate>)
    requires b.handle !in b.env.servers
    ensures var r := ApplyAudio(b, audio); r.env == b.env.(calls := r.env.calls)
  {
    hide MuteClients, AudioIds;
    NoRequest(b, AudioIds(audio, true), true);
    NoRequest(MuteClients(b, AudioIds(audio, true), true).book, AudioIds(audio, false), false);
  }

  lemma AudioAtHome(b: Book, audio: seq<AudioUpdate>, origins: Origins)
    requires BookHome(b, origins)
    ensures var r := ApplyAudio(b, audio);
            && r.env == b.env.(calls := r.env.calls, servers := r.env.servers)
            && (AllUntouched(r.env, origins) <==>
                  b.handle !in b.env.servers
                  || IdSets.Sent(AudioIds(audio, true)) <= IdSets.Sent(AudioIds(audio, false)))
  {
    hide ApplyAudio, AudioIds, IdSets.Sent;
    if b.handle !in b.env.servers {
      AudioNowhere(b, audio);
    } else {
      AudioExact(b, audio);
      var up, down := IdSets.Sent(AudioIds(audio, true)), IdSets.Sent(AudioIds(audio, false));
      var server := b.env.servers[b.handle];
      assert (server.muted + up) - down == up - down;
      NothingLeft(up, down);
      OneServerUntouched(b, ApplyAudio(b, audio).env, server.(muted := up - down), origins);
    }
  }

  /** An update served before the session's handshake, while the plugin still works with the server of
      an earlier session, is undone by the ending exactly when every client it mutes it also unmutes:
      the session has no saved channel, so no ending does anything. */
  lemma EarlyUpdateExact(s: State, p: Packet, e: Event, origins: Origins)
    requires Inv(s) && Open(s) && AtHome(s, origins) && p.Update? && Ends(e)
    ensures var r := Step(OnUpdate(s, p), e);
            && Closed(r)
            && (AllUntouched(r.book.env, origins) <==>
                  s.book.handle !in s.book.env.servers
                  || IdSets.Sent(AudioIds(p.audioUpdates, true)) <= IdSets.Sent(AudioIds(p.audioUpdates, false)))
  {
    hide Step, ApplyAudio, PlaceEach, Untouched, AudioIds;
    var heard := ApplyAudio(s.book, p.audioUpdates);
    AudioAtHome(s.book, p.audioUpdates, origins);
    PlaceEachIsQuiet(heard, Placements(p.positionUpdates));
    var updated := OnUpdate(s, p);
    QuietUntouched(heard, updated.book, origins);
    EndingRestores(updated, e);
  }

  lemma QuietUntouched(b: Book, r: Book, origins: Origins)
    requires OnlyPositions(b, r)
    ensures AllUntouched(b.env, origins) <==> AllUntouched(r.env, origins)
  {
    if AllUntouched(r.env, origins) {
      forall h | h in b.env.servers
        ensures h in origins && Untouched(b.env.servers[h], origins[h])
      {
        assert h in r.env.servers;
      }
    }
  }

  /** One answered rename. */
  lemma OneRename(b: Book, nickname: Text)
    requires AllGood(b.env) && OnServer(b) && nickname != b.env.servers[b.handle].published.nickname
    ensures var r := SetNickname(b, nickname).book;
            var server := b.env.servers[b.handle];
            var variables := server.local.(nickname := CStr(nickname));
            r.env == b.env.(calls := r.env.calls, memory := r.env.memory,
                            servers := b.env.servers[b.handle := server.(local := variables, published := variables)])
  {
    hide CStr;
  }

  lemma RenameAtHome(b: Book, nickname: Text, origins: Origins)
    requires BookHome(b, origins) && b.handle in b.env.servers
    ensures var r := SetNickname(b, nickname).book;
            && r.env == b.env.(calls := r.env.calls, memory := r.env.memory, servers := r.env.servers)
            && (AllUntouched(r.env, origins) <==> CStr(nickname) == origins[b.handle].nickname)
  {
    var server := b.env.servers[b.handle];
    var variables := server.local.(nickname := CStr(nickname));
    var r := SetNickname(b, nickname).book;
    if nickname == server.published.nickname {
      assert r.env.servers == b.env.servers;
    } else {
      OneRename(b, nickname);
      hide SetNickname;
      OneServerUntouched(b, r.env, server.(local := variables, published := variables), origins);
    }
    hide CStr;
  }

  /** Likewise a rename: it is undone exactly when it asks for the user's own name. */
  lemma EarlyControlExact(s: State, p: Packet, e: Event, origins: Origins)
    requires Inv(s) && Open(s) && AtHome(s, origins) && p.Control? && Ends(e)
    ensures var r := Step(OnControl(s, p), e);
            && Closed(r)
            && (AllUntouched(r.book.env, origins) <==>
                  s.book.handle !in s.book.env.servers || p.nickname == []
                  || CStr(p.nickname) == origins[s.book.handle].nickname)
  {
    hide Step, SetNickname, Untouched, CStr;
    if s.book.handle in s.book.env.servers {
      RenameAtHome(s.book, p.nickname, origins);
    } else {
      NoServerNoChange(s.book, {}, true, p.nickname, origins);
    }
    EndingRestores(OnControl(s, p), e);
  }

  // ---------- handshakes ----------

  lemma MovesBackGood(last: U64, b: Book)
    requires AllGood(b.env) && Usable(b.env, b.handle)
    ensures MovesBack(last, b) <==> b.env.servers[b.handle].channel != last
  {
    assert ChannelId(b.env, b.handle).value == b.env.servers[b.handle].channel;
  }

  /** With every call answered and the mutes known, only the channel can go wrong. */
  lemma GoodHome(b: Book, last: U64, origins: Origins)
    requires AllGood(b.env) && Usable(b.env, b.handle) && b.handle in origins
    requires b.cache == Muted(b) && 0 !in b.cache && Remembers(b, origins[b.handle].nickname)
    requires origins[b.handle].nickname != []
    ensures AllUntouched(GoHome(last, b).book.env, origins) <==>
              if last != 0 && last != b.env.servers[b.handle].channel
              then OthersUntouched(b, origins) && last == origins[b.handle].channel
              else AllUntouched(b.env, origins)
  {
    hide GoHome, MovesBack, BackAgain, UnmuteAllClients, NameComesBack, Untouched;
    GoHomeRestoresExact(b, last, origins);
    MovesBackGood(last, b);
    if MovesBack(last, b) {
      BackAgainOnly(last, b);
      var back := BackAgain(last, b);
      BackAnswers(last, b);
      GoodNames(back, origins[b.handle].nickname);
    }
  }

  lemma BackAnswers(last: U64, b: Book)
    ensures BackAgain(last, b).env.answers == b.env.answers
  {
    hide MoveToChannel, ResetPositions, ChannelId;
    var asked := b.(env := ChannelId(b.env, b.handle).env);
    MoveOnly(asked, last);
    ResetPositionsIsQuiet(MoveToChannel(asked, last).book);
  }

  lemma GoodNames(b: Book, original: CText)
    requires AllGood(b.env) && OnServer(b) && b.cache == Muted(b) && 0 !in b.cache
    requires Remembers(b, original) && original != []
    ensures MutesGo(b)
    ensures OnServer(UnmuteAllClients(b).book) && NameComesBack(UnmuteAllClients(b).book, original)
  {
    UnmuteOnly(b);
    UnmuteKeepsAnswers(b);
    hide UnmuteAllClients;
  }

  lemma EmptyUnion(a: set<U16>, b: set<U16>)
    ensures a + b == {} <==> a == {} && b == {}
  {
    if a + b == {} {
      assert a <= a + b && b <= a + b;
    }
  }

  /** The user carries the name after joining a channel: switching the output for the move flushes his
      own variables, the local name with them. */
  predicate NamedAfterJoining(server: Server, name: CText) {
    server.local.nickname == name && (NeedsTempMute(server) || server.published.nickname == name)
  }

  /** What is owed to the user after he has joined a channel. */
  lemma JoinedUntouched(b: Book, r: Book, ids: set<U16>, channel: U64, origins: Origins)
    requires b.handle in b.env.servers && b.handle in origins
    requires Became(b, r, b.cache + ids, Joined(b.env.servers[b.handle], ids, channel))
    ensures OthersUntouched(r, origins) <==> OthersUntouched(b, origins)
    ensures var server, origin := b.env.servers[b.handle], origins[b.handle];
            Untouched(r.env.servers[b.handle], origin) <==>
              channel == origin.channel && NamedAfterJoining(server, origin.nickname) && server.muted == {} && ids == {}
  {
    var server, origin := b.env.servers[b.handle], origins[b.handle];
    var joined := Joined(server, ids, channel);
    assert joined.muted == server.muted + ids;
    EmptyUnion(server.muted, ids);
    assert Named(joined, origin.nickname) <==> NamedAfterJoining(server, origin.nickname);
    if OthersUntouched(b, origins) {
      assert forall h | h in r.env.servers && h != r.handle :: r.env.servers[h] == b.env.servers[h];
    }
    if OthersUntouched(r, origins) {
      assert forall h | h in b.env.servers && h != b.handle :: h in r.env.servers && r.env.servers[h] == b.env.servers[h];
    }
    hide Joined;
  }

  /** Joining a channel and going home from there, to the channel that was left. */
  lemma JoinedGoesHome(b: Book, r: Book, ids: set<U16>, channel: U64, origins: Origins)
    requires AllGood(b.env) && Usable(b.env, b.handle) && b.handle in origins
    requires b.cache == Muted(b) && 0 !in b.cache && 0 !in ids
    requires Remembers(b, origins[b.handle].nickname) && origins[b.handle].nickname != []
    requires Became(b, r, b.cache + ids, Joined(b.env.servers[b.handle], ids, channel))
    ensures var server, origin := b.env.servers[b.handle], origins[b.handle];
            AllUntouched(GoHome(server.channel, r).book.env, origins) <==>
              && OthersUntouched(b, origins)
              && if server.channel != 0 && server.channel != channel then server.channel == origin.channel
                 else
                   && channel == origin.channel && NamedAfterJoining(server, origin.nickname)
                   && server.muted == {} && ids == {}
  {
    hide GoHome, Untouched;
    JoinedUntouched(b, r, ids, channel, origins);
    SplitUntouched(r, origins);
    GoodHome(r, b.env.servers[b.handle].channel, origins);
  }

  /** The first accepted handshake of a session is undone exactly when no server is found; or the
      user's own channel is known and is not the game channel; or the game channel is his own and
      nobody else is in it. */
  lemma FirstHandshakeExact(s: State, p: Packet, e: Event, origins: Origins)
    requires Inv(s) && Open(s) && AtHome(s, origins) && Ends(e)
    requires p.HandshakeResponse? && p.statusCode == STATUS_CODE_OK
    ensures var v := VerifyServer(s.book, p.serverUid);
            v.value ==> v.book.handle in s.book.env.servers && v.book.handle in origins
    ensures var v := VerifyServer(s.book, p.serverUid);
            var h := v.book.handle;
            var r := Step(OnHandshakeResponse(s, p), e);
            && Closed(r)
            && (AllUntouched(r.book.env, origins) <==>
                  || !v.value
                  || (origins[h].channel != 0 && origins[h].channel != p.channelId)
                  || (origins[h].channel == p.channelId && MembersOf(s.book.env, h, p.channelId) == {}))
  {
    SearchKeepsServers(s.book, p.serverUid);
    var v := VerifyServer(s.book, p.serverUid);
    var r := OnHandshakeResponse(s, p);
    HandshakeKeepsLink(s, p);
    if v.value {
      var h := v.book.handle;
      HandshakeExact(s, p);
      MembersNonzero(s.book.env, h, p.channelId);
      hide Step, OnHandshakeResponse, VerifyServer, MembersOf, GoHome, Joined;
      EndingRestores(r, e);
      JoinedGoesHome(s.book.(handle := h), r.book, MembersOf(s.book.env, h, p.channelId), p.channelId, origins);
      assert OthersUntouched(s.book.(handle := h), origins);
      assert Untouched(s.book.env.servers[h], origins[h]);
    } else {
      hide Step, VerifyServer, Send;
      SendHandshakeKeeps(s.(book := v.book), STATUS_CODE_NOT_CONNECTED_TO_SERVER, origins);
      EndingRestores(r, e);
    }
  }

  /** A second accepted handshake of a session overwrites the way home: whether it names the same
      server, another one or one that is not found, the ending does not put everything back. The one
      exception needs a user who stood in no channel at all (channel 0) and is sent to his own, alone,
      with nobody muted and his own name. */
  lemma SecondHandshakeExact(s: State, p: Packet, e: Event, origins: Origins)
    requires Inv(s) && Away(s, origins) && Ends(e)
    requires p.HandshakeResponse? && p.statusCode == STATUS_CODE_OK
    ensures var v := VerifyServer(s.book, p.serverUid);
            var h := s.book.handle;
            var server := s.book.env.servers[h];
            var r := Step(OnHandshakeResponse(s, p), e);
            && Closed(r)
            && (AllUntouched(r.book.env, origins) <==>
                  && v.value && v.book.handle == h
                  && server.channel == 0 && p.channelId == origins[h].channel
                  && server.muted == {} && MembersOf(s.book.env, h, p.channelId) == {}
                  && NamedAfterJoining(server, origins[h].nickname))
  {
    SearchKeepsServers(s.book, p.serverUid);
    var v := VerifyServer(s.book, p.serverUid);
    var h := s.book.handle;
    var r := OnHandshakeResponse(s, p);
    HandshakeKeepsLink(s, p);
    if !v.value {
      UnknownServerStrands(s, p, origins);
      UnknownServerAnswers(s, p);
      hide Step, OnHandshakeResponse, VerifyServer, GoHome, Untouched;
      EndingRestores(r, e);
    } else {
      HandshakeExact(s, p);
      hide Step, OnHandshakeResponse, VerifyServer, MembersOf, GoHome, Joined, Untouched;
      EndingRestores(r, e);
      if v.book.handle == h {
        MembersNonzero(s.book.env, h, p.channelId);
        JoinedGoesHome(s.book, r.book, MembersOf(s.book.env, h, p.channelId), p.channelId, origins);
      } else {
        OtherServerStrands(r.book, r.lastChannelId, h, origins);
      }
    }
  }

  /** Going home on one server does not help another. */
  lemma OtherServerStrands(b: Book, last: U64, h: U64, origins: Origins)
    requires h in b.env.servers && h != b.handle && h in origins && b.env.servers[h].channel != origins[h].channel
    ensures !AllUntouched(GoHome(last, b).book.env, origins)
  {
    hide GoHome, MovesBack, BackAgain, NameComesBack, MutesGo, UnmuteAllClients;
    GoHomeRestoresExact(b, last, origins);
    assert !Untouched(b.env.servers[h], origins[h]);
  }

  /** A handshake that names a server the plugin cannot find makes it forget the one it is on: closing
      then finds no server and puts nothing back. */
  lemma UnknownServerStrands(s: State, p: Packet, origins: Origins)
    requires Away(s, origins) && p.HandshakeResponse? && p.statusCode == STATUS_CODE_OK
    requires !VerifyServer(s.book, p.serverUid).value
    ensures var r := OnHandshakeResponse(s, p);
            && r.book.handle == 0
            && GoHome(r.lastChannelId, r.book) == Home(r.lastChannelId, r.book)
            && r.book.env.servers == s.book.env.servers
            && !AllUntouched(r.book.env, origins)
  {
    SearchKeepsServers(s.book, p.serverUid);
    var v := VerifyServer(s.book, p.serverUid).book;
    assert v.handle == 0;
    hide VerifyServer, Send;
    assert ClientIdentity(v).book == v;
    assert !Untouched(s.book.env.servers[s.book.handle], origins[s.book.handle]);
  }

  lemma UnknownServerAnswers(s: State, p: Packet)
    requires p.HandshakeResponse? && p.statusCode == STATUS_CODE_OK && !VerifyServer(s.book, p.serverUid).value
    ensures OnHandshakeResponse(s, p).book.env.answers == s.book.env.answers
  {
    SearchKeepsServers(s.book, p.serverUid);
    hide VerifyServer, Send;
  }

  // ---------- a run in which the second close acts ----------

  function Dialling(): Event {
    Dialled([104], 1, 1, Dial(true, true, true), [])
  }

  function Welcoming(): Event {
    Network(Receive(HANDSHAKE_CHANNEL, SerializePacket(Welcome(9))), [])
  }

  /** The user is back in channel 7, and TeamSpeak answers three more calls. */
  function WalkingHome(e: Env): Event
    requires 1 in e.servers
  {
    Outside(e.(answers := n => n < e.calls + 3, servers := e.servers[1 := e.servers[1].(channel := 7)]))
  }

  lemma WelcomeArrives(s: State)
    requires Inv(s) && Open(s)
    ensures var r := Step(s, Welcoming());
            Open(r) && Inv(r)
            && r.book == OnHandshakeResponse(s, Welcome(9)).book
            && r.lastChannelId == OnHandshakeResponse(s, Welcome(9)).lastChannelId
  {
    hide OnHandshakeResponse, DeserializePacket, SerializePacket;
    var payload := SerializePacket(Welcome(9));
    PacketRoundTrip(Welcome(9), []);
    assert payload + [] == payload;
    assert Parse(HANDSHAKE_CHANNEL, payload) == Some(Welcome(9));
    var logged := Arrived(s).(log := s.log + [Got(HANDSHAKE_CHANNEL, payload)]);
    HandshakeKeepsLink(logged, Welcome(9));
    HandshakeIgnoresLink(s, logged, Welcome(9));
    StepKeepsInv(s, Welcoming());
  }

  /** What a handshake does to TeamSpeak does not depend on the connection or on what was said before. */
  lemma HandshakeIgnoresLink(s: State, t: State, p: Packet)
    requires p.HandshakeResponse? && t.book == s.book && t.lastChannelId == s.lastChannelId
    ensures OnHandshakeResponse(t, p).book == OnHandshakeResponse(s, p).book
    ensures OnHandshakeResponse(t, p).lastChannelId == OnHandshakeResponse(s, p).lastChannelId
  {
    hide VerifyServer, PrepareMove, MoveToChannel, MuteChannel, SerializePacket;
  }

  lemma DialledAlone(s: State)
    requires Inv(s) && Closed(s)
    ensures var r := Step(s, Dialling());
            Open(r) && Inv(r) && r.book == s.book && r.lastChannelId == s.lastChannelId
  {
    hide HomeAfter;
    ConnectContract(s, [104], 1, 1, Dial(true, true, true), []);
    LinkStepsGoHome(s, Dialling());
    NextHome(s, 0);
    DialSucceeds(s, [104], 1, 1, []);
    hide Connect;
  }

  lemma DialSucceeds(s: State, host: Text, port: U16, uid: U16, pending: seq<NetEvent>)
    requires Inv(s) && Closed(s)
    ensures Connect(s, host, port, uid, Dial(true, true, true), pending).ok
  {
    hide SerializePacket;
  }

  lemma OutsideStep(s: State, e: Event)
    requires e.Outside?
    ensures Step(s, e) == s.(book := s.book.(env := e.env))
  {
  }

  lemma ThreeSteps(s: State, es: seq<Event>)
    requires |es| == 3
    ensures Run(s, es) == Step(Step(Step(s, es[0]), es[1]), es[2])
  {
    hide Step;
    assert es[1..][1..] == [es[2]] && es[1..][1..][1..] == [];
    assert Run(s, es) == Run(Step(s, es[0]), es[1..]);
    assert Run(Step(s, es[0]), es[1..]) == Run(Step(Step(s, es[0]), es[1]), es[1..][1..]);
  }

  lemma WelcomedAlone(s: State)
    requires Inv(s) && Open(s) && s.book == LoneState(n => true, false).book
    ensures var r := Step(s, Welcoming());
            && Open(r) && Inv(r) && r.lastChannelId == 7 && r.book.handle == 1
            && 1 in r.book.env.servers && r.book.env.servers[1].connected
  {
    hide Step, OnHandshakeResponse, VerifyServer, MembersOf;
    WelcomeArrives(s);
    LoneSearch(n => true, false);
    HandshakeExact(s, Welcome(9));
  }

  /** A session in which the second close is not idle: the client connects and is accepted into channel
      9, the user walks back to channel 7, and the plugin disconnects. */
  lemma SecondCloseCanAct() returns (es: seq<Event>)
    ensures var s := Run(LoneState(n => true, false), es);
            && Open(s)
            && HomeOf(Step(s, Disconnected([]))) == Twice(s)
            && !SameButCalls(Twice(s), Once(s))
  {
    hide Step, HomeAfter, Twice, Once;
    var s := LoneState(n => true, false);
    InitialInv(0, s.book);
    DialledAlone(s);
    var dialled := Step(s, Dialling());
    WelcomedAlone(dialled);
    var welcomed := Step(dialled, Welcoming());
    var walking := WalkingHome(welcomed.book.env);
    OutsideStep(welcomed, walking);
    var walked := Step(welcomed, walking);
    es := [Dialling(), Welcoming(), walking];
    ThreeSteps(s, es);
    SecondCloseActs(walked);
    CallerDisconnectEnds(walked, DISCONNECT_STATUS_OK, []);
    DisconnectStep(walked);
  }

  lemma DisconnectStep(s: State)
    ensures Step(s, Disconnected([])) == Disconnect(s, Caller, DISCONNECT_STATUS_OK, [])
  {
  }
}
