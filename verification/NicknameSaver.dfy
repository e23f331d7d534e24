/** The saved nickname over any sequence of renames and resets. */
module NicknameSaver {
  import opened Common
  import opened TeamSpeak
  import opened Bookkeeping

  /** An empty saved name means that the user carries, locally and publicly, the name `original`;
      a saved name is `original`. */
  ghost predicate Remembers(b: Book, original: CText) {
    && b.handle != 0 && b.handle in b.env.servers
    && if b.saved == []
       then b.env.servers[b.handle].published.nickname == b.env.servers[b.handle].local.nickname == original
       else b.saved == original
  }

  datatype NicknameOp = Set(name: Text) | Reset

  function Apply(b: Book, op: NicknameOp): Outcome<bool> {
    match op
    case Set(name) => SetNickname(b, name)
    case Reset => ResetNickname(b)
  }

  function ApplyAll(b: Book, ops: seq<NicknameOp>): Book
    decreases |ops|
  {
    if ops == [] then b else ApplyAll(Apply(b, ops[0]).book, ops[1..])
  }

  /** The query for the current nickname, first call of every rename, never fails. */
  ghost predicate QueriesAnswered(b: Book, ops: seq<NicknameOp>)
    decreases |ops|
  {
    ops != [] ==>
      && (ops[0].Set? ==> b.env.Up(b.handle))
      && QueriesAnswered(Apply(b, ops[0]).book, ops[1..])
  }

  /** Between two moments only the user's own variables on server `h` have changed. */
  ghost predicate OnlyVariables(e: Env, r: Env, h: U64) {
    && r == e.(calls := r.calls, memory := r.memory, servers := r.servers)
    && r.servers.Keys == e.servers.Keys
    && forall k | k in e.servers ::
         r.servers[k] ==
           if k == h then e.servers[k].(local := r.servers[k].local, published := r.servers[k].published)
           else e.servers[k]
  }

  lemma OnlyVariablesTransitive(a: Env, b: Env, c: Env, h: U64)
    requires OnlyVariables(a, b, h) && OnlyVariables(b, c, h)
    ensures OnlyVariables(a, c, h)
  {
  }

  lemma SetLocalOnly(e: Env, h: U64, variables: SelfVariables)
    ensures OnlyVariables(e, e.SetLocal(h, variables).env, h)
  {
  }

  lemma FlushOnly(e: Env, h: U64)
    ensures OnlyVariables(e, e.Flush(h).env, h)
  {
  }

  /** Renames and resets touch nothing but the user's own variables on the chosen server and the
      saved name. */
  ghost predicate OnlyNames(b: Book, r: Book) {
    r == b.(saved := r.saved, env := r.env) && OnlyVariables(b.env, r.env, b.handle)
  }

  lemma RenameTouchesNames(b: Book, name: CText)
    ensures OnlyNames(b, Rename(b, name).book)
    ensures Rename(b, name).book.saved == b.saved
  {
    var h := b.handle;
    if h in b.env.servers {
      var variables := b.env.servers[h].local.(nickname := name);
      SetLocalOnly(b.env, h, variables);
      FlushOnly(b.env.SetLocal(h, variables).env, h);
      OnlyVariablesTransitive(b.env, b.env.SetLocal(h, variables).env, b.env.SetLocal(h, variables).env.Flush(h).env, h);
    }
    hide OnlyVariables, Env.SetLocal, Env.Flush;
    if h !in b.env.servers {
      NextOnly(b.env, h);
    }
  }

  lemma NextOnly(e: Env, h: U64)
    ensures OnlyVariables(e, e.Next(), h)
  {
  }

  lemma SetTouchesNames(b: Book, name: Text)
    ensures OnlyNames(b, SetNickname(b, name).book)
  {
    hide Rename;
    if b.handle != 0 && b.env.Up(b.handle) {
      var current := b.env.servers[b.handle].published.nickname;
      var asked := b.(env := b.env.Next().Hold(), saved := if b.saved == [] then current else b.saved);
      RenameTouchesNames(asked, CStr(name));
    }
  }

  lemma ResetTouchesNames(b: Book)
    ensures OnlyNames(b, ResetNickname(b).book)
  {
    hide Rename;
    RenameTouchesNames(b, b.saved);
  }

  lemma SetRemembers(b: Book, name: Text, original: CText)
    requires Remembers(b, original) && original != [] && b.env.Up(b.handle)
    ensures Remembers(SetNickname(b, name).book, original)
  {
  }

  lemma ResetRemembers(b: Book, original: CText)
    requires Remembers(b, original) && original != []
    ensures Remembers(ResetNickname(b).book, original)
    ensures ResetNickname(b).value ==>
              var r := ResetNickname(b).book;
              r.saved == [] && r.env.servers[r.handle].published.nickname == original
  {
  }

  /** Sets and flushes may fail at any point of the run: the original name is never lost, and a
      reset that reports success brings it back. */
  lemma {:induction false} SaverInvariant(b: Book, ops: seq<NicknameOp>, original: CText)
    requires Remembers(b, original) && original != [] && QueriesAnswered(b, ops)
    ensures var r := ApplyAll(b, ops);
            && Remembers(r, original)
            && (ResetNickname(r).value ==>
                  var back := ResetNickname(r).book;
                  back.saved == [] && Remembers(back, original))
    decreases |ops|
  {
    if ops == [] {
      ResetRemembers(b, original);
    } else {
      match ops[0] {
        case Set(name) => SetRemembers(b, name, original);
        case Reset => ResetRemembers(b, original);
      }
      SaverInvariant(Apply(b, ops[0]).book, ops[1..], original);
    }
  }

  /** A refused query forgets the saved name: the saver survives it exactly when the user carries
      the original name at that moment. */
  lemma RefusedQueryForgets(b: Book, name: Text, original: CText)
    requires Remembers(b, original) && original != [] && !b.env.Up(b.handle)
    ensures Remembers(SetNickname(b, name).book, original) <==>
              var s := b.env.servers[b.handle]; s.published.nickname == s.local.nickname == original
  {
  }

  /** The user "A" is renamed to "B"; at the next rename TeamSpeak refuses the query, call 3; a reset
      then reports success, and he is still called "B". */
  lemma RefusedQueryLosesName()
    ensures var b := Book(1, {}, [], LoneEnv(n => n != 3, false));
            var r := ApplyAll(b, [Set([66]), Set([67])]);
            && Remembers(b, [65])
            && ResetNickname(r).value
            && 1 in ResetNickname(r).book.env.servers
            && ResetNickname(r).book.env.servers[1].published.nickname == [66]
  {
    var b := Book(1, {}, [], LoneEnv(n => n != 3, false));
    var renamed := SetNickname(b, [66]).book;
    assert CStr([66]) == [66];
    assert renamed.saved == [65] && renamed.env.calls == 3 && renamed.env.servers[1].published.nickname == [66];
    var refused := SetNickname(renamed, [67]).book;
    assert refused == renamed.(saved := [], env := renamed.env.Next());
    var ops := [Set([66]), Set([67])];
    assert ops[1..] == [Set([67])] && ops[1..][1..] == [];
    assert ApplyAll(b, ops) == refused by { hide SetNickname; }
  }

  /** A name saved by a rename is the name carried before it, whichever of the two later calls fails. */
  lemma FirstRenameSaves(b: Book, name: Text)
    requires b.handle != 0 && b.env.Up(b.handle) && b.saved == []
    requires name != b.env.servers[b.handle].published.nickname
    ensures SetNickname(b, name).book.saved == b.env.servers[b.handle].published.nickname
    ensures SetNickname(b, name).value ==>
              SetNickname(b, name).book.env.servers[b.handle].published.nickname == CStr(name)
  {
  }

  lemma AnsweredQueryKeepsString(b: Book, name: Text)
    ensures SetNickname(b, name).book.env.memory ==
              if b.env.Up(b.handle) then b.env.memory.Take() else b.env.memory
    ensures ResetNickname(b).book.env.memory == b.env.memory
  {
  }

  /** How many renames of the run query the current nickname and are answered. */
  function AnsweredQueries(b: Book, ops: seq<NicknameOp>): nat
    decreases |ops|
  {
    if ops == [] then 0
    else (if ops[0].Set? && b.env.Up(b.handle) then 1 else 0) + AnsweredQueries(Apply(b, ops[0]).book, ops[1..])
  }

  /** Over any run of renames and resets TeamSpeak hands out one string for every answered query, and
      gets none back. */
  lemma {:induction false} QueriesKeepStrings(b: Book, ops: seq<NicknameOp>)
    ensures var r := ApplyAll(b, ops);
            && r.env.memory.out == b.env.memory.out + AnsweredQueries(b, ops)
            && r.env.memory.back == b.env.memory.back
    decreases |ops|
  {
    if ops != [] {
      match ops[0] {
        case Set(name) => AnsweredQueryKeepsString(b, name);
        case Reset => AnsweredQueryKeepsString(b, []);
      }
      QueriesKeepStrings(Apply(b, ops[0]).book, ops[1..]);
    }
  }
}
