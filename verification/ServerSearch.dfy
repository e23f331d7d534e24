/** The server search picks exactly the first handle that answers with the wanted identifier. */
module ServerSearch {
  import opened Common
  import opened TeamSpeak
  import opened Bookkeeping

  /** The handles of a list in front of its terminator. */
  function ListedHandles(handles: seq<U64>): (r: seq<U64>)
    ensures 0 !in r && r <= handles
    ensures |r| < |handles| ==> handles[|r|] == 0
  {
    var r := UpToZero(handles);
    assert forall i :: 0 <= i < |r| ==> r[i] == handles[i];
    r
  }

  /** The i-th of the listed handles `hs` answers its query with `uid`. The list query is call
      number `calls`, so the i-th identifier query is call number `calls + 1 + i`. */
  ghost predicate Matches(e: Env, hs: seq<U64>, uid: Text, i: nat) {
    i < |hs| && e.answers(e.calls + 1 + i) && hs[i] in e.servers && e.servers[hs[i]].uid == uid
  }

  ghost predicate FirstMatch(e: Env, hs: seq<U64>, uid: Text, i: nat) {
    Matches(e, hs, uid, i) && forall j: nat | j < i :: !Matches(e, hs, uid, j)
  }

  /** How many of the first `n` listed handles answer their identifier query. */
  ghost function Answering(e: Env, hs: seq<U64>, n: nat): nat
    requires n <= |hs|
  {
    if n == 0 then 0
    else Answering(e, hs, n - 1) + (if e.answers(e.calls + n) && hs[n - 1] in e.servers then 1 else 0)
  }

  /** How many handles are asked: all, or those up to the first match. */
  ghost predicate Asked(e: Env, hs: seq<U64>, uid: Text, n: nat) {
    if n > 0 && Matches(e, hs, uid, n - 1) then FirstMatch(e, hs, uid, n - 1)
    else n == |hs| && forall i: nat :: !Matches(e, hs, uid, i)
  }

  /** The search from the k-th handle on. */
  function SearchAt(e: Env, list: seq<U64>, uid: Text, k: nat, memory: Ledger): Answer<U64>
    requires k <= |list|
  {
    SearchServers(e.(calls := e.calls + 1 + k, memory := memory), list[k..], uid)
  }

  lemma SearchStep(e: Env, list: seq<U64>, uid: Text, k: nat, memory: Ledger)
    requires k < |list|
    ensures SearchAt(e, list, uid, k, memory) ==
              if list[k] == 0 then Answer(e.(calls := e.calls + 1 + k, memory := memory), 0)
              else if !(e.answers(e.calls + 1 + k) && list[k] in e.servers) then SearchAt(e, list, uid, k + 1, memory)
              else
                var returned := memory.Take().Give(memory.out);
                if e.servers[list[k]].uid == uid
                then Answer(e.(calls := e.calls + 1 + (k + 1), memory := returned), list[k])
                else SearchAt(e, list, uid, k + 1, returned)
  {
    assert list[k..][0] == list[k] && list[k..][1..] == list[k + 1..];
  }

  /** What searching a zero-terminated list from the k-th handle on returns, and what becomes of the
      identifiers handed out on the way. */
  lemma {:induction false} SearchFrom(e: Env, hs: seq<U64>, list: seq<U64>, uid: Text, k: nat, memory: Ledger)
    returns (n: nat)
    requires 0 !in hs && hs <= list && |hs| < |list| && list[|hs|] == 0 && k <= |hs|
    requires forall j: nat | j < k :: !Matches(e, hs, uid, j)
    ensures var r := SearchAt(e, list, uid, k, memory);
            && k <= n <= |hs| && Asked(e, hs, uid, n)
            && r.value == (if n > 0 && Matches(e, hs, uid, n - 1) then hs[n - 1] else 0)
            && Returned(memory, r.env.memory)
            && r.env.memory.out == memory.out + Answering(e, hs, n) - Answering(e, hs, k)
    decreases |hs| - k
  {
    hide Returned, SearchAt;
    n := k;
    TakenAndGiven(memory);
    SearchStep(e, list, uid, k, memory);
    if k < |hs| {
      assert hs[k] in hs;
      if !(e.answers(e.calls + 1 + k) && hs[k] in e.servers) {
        n := SearchFrom(e, hs, list, uid, k + 1, memory);
      } else if e.servers[hs[k]].uid == uid {
        n := k + 1;
      } else {
        var returned := memory.Take().Give(memory.out);
        n := SearchFrom(e, hs, list, uid, k + 1, returned);
        ReturnedTransitive(memory, returned, SearchAt(e, list, uid, k + 1, returned).env.memory);
      }
    }
  }

  /** True exactly when some listed server answers with the identifier, and then the first such
      server is chosen; otherwise the handle is zero. A failed list query keeps the handle of an
      earlier search. One list is handed out and one identifier for every answered query up to the
      first match, and each of them is given back exactly once. Nothing else changes. */
  lemma VerifyServerExact(b: Book, uid: Text) returns (n: nat)
    ensures var r := VerifyServer(b, uid);
            var hs := ListedHandles(b.env.handles);
            && r.book == b.(handle := r.book.handle,
                            env := b.env.(calls := r.book.env.calls, memory := r.book.env.memory))
            && Returned(b.env.memory, r.book.env.memory)
            && if b.env.answers(b.env.calls)
               then
                 && (r.value <==> exists i: nat :: Matches(b.env, hs, uid, i))
                 && (r.value <==> r.book.handle != 0)
                 && (r.value ==> exists i: nat :: FirstMatch(b.env, hs, uid, i) && r.book.handle == hs[i])
                 && n <= |hs| && Asked(b.env, hs, uid, n)
                 && r.book.env.memory.out == b.env.memory.out + 1 + Answering(b.env, hs, n)
               else !r.value && r.book.handle == b.handle && r.book.env.memory == b.env.memory
  {
    n := 0;
    if b.env.answers(b.env.calls) {
      var hs := ListedHandles(b.env.handles);
      var list := b.env.handles + [0];
      var taken := b.env.memory.Take();
      n := SearchFrom(b.env, hs, list, uid, 0, taken);
      assert list[0..] == list;
      assert b.env.Next().Hold() == b.env.(calls := b.env.calls + 1 + 0, memory := taken);
      ReturnedAround(b.env.memory, SearchAt(b.env, list, uid, 0, taken).env.memory);
      hide SearchServers, Returned;
    }
  }
}
