/** `std::set<anyID>` as a strictly ascending sequence, and the zero-terminated id arrays
    that carry such a set to and from TeamSpeak. */
module IdSets {
  import opened Common

  ghost predicate Ascending(s: seq<U16>) {
    forall i, j :: 0 <= i < j < |s| ==> s[i] < s[j]
  }

  function Elements(s: seq<U16>): set<U16> {
    set x | x in s
  }

  /** `std::set::insert`. */
  function Insert(s: seq<U16>, x: U16): (r: seq<U16>)
    requires Ascending(s)
    ensures Ascending(r)
    ensures forall y :: y in r <==> y == x || y in s
  {
    if s == [] || x < s[0] then [x] + s
    else if x == s[0] then s
    else
      var t := Insert(s[1..], x);
      assert s == [s[0]] + s[1..];
      assert forall i :: 0 <= i < |t| ==> t[i] in t;
      [s[0]] + t
  }

  /** Every element of `xs` inserted in turn, first element first. */
  function InsertAll(s: seq<U16>, xs: seq<U16>): (r: seq<U16>)
    requires Ascending(s)
    ensures Ascending(r)
    ensures forall y :: y in r <==> y in s || y in xs
  {
    if xs == [] then s
    else
      assert xs == xs[..|xs| - 1] + [xs[|xs| - 1]];
      Insert(InsertAll(s, xs[..|xs| - 1]), xs[|xs| - 1])
  }

  /** The ascending sequence is a canonical form: a set has only one. */
  lemma {:induction false} AscendingUnique(s: seq<U16>, t: seq<U16>)
    requires Ascending(s) && Ascending(t) && Elements(s) == Elements(t)
    ensures s == t
  {
    if s == [] {
      assert forall i :: 0 <= i < |t| ==> t[i] in Elements(t);
    } else {
      assert s[0] in Elements(t);
      assert t[0] in Elements(s);
      assert Elements(s[1..]) == Elements(s) - {s[0]};
      assert Elements(t[1..]) == Elements(t) - {t[0]};
      AscendingUnique(s[1..], t[1..]);
      assert s == [s[0]] + s[1..] && t == [t[0]] + t[1..];
    }
  }

  /** The ids a receiver finds in a zero-terminated array: everything in front of the first zero. */
  function Listed(a: seq<U16>): (r: seq<U16>)
    ensures 0 !in r && r <= a
  {
    var r := UpToZero(a);
    assert forall i :: 0 <= i < |r| ==> r[i] == a[i];
    r
  }

  /** The set of ids that survives being sent as a zero-terminated array: all of it, unless it
      holds the id 0, which sorts first and hides every other id. */
  function Sent(ids: set<U16>): set<U16> {
    if 0 in ids then {} else ids
  }

  lemma NothingLeft(a: set<U16>, b: set<U16>)
    ensures a - b == {} <==> a <= b
  {
    if a - b == {} {
      assert forall id | id in a :: id in b || id in a - b;
    }
  }

  lemma TerminatedListing(s: seq<U16>)
    requires Ascending(s)
    ensures Elements(Listed(s + [0])) == Sent(Elements(s))
    ensures 0 !in s ==> Listed(s + [0]) == s
  {
    if 0 in s {
      assert s[0] == 0;
    } else {
      TerminatedRoundTrip(s, []);
      assert s + [0] + [] == s + [0];
    }
  }

  /** The array filled by the mute requests: the set in ascending order and a closing zero. */
  method BuildIdArray(clients: seq<U16>) returns (clientIds: array<U16>)
    requires Ascending(clients)
    ensures fresh(clientIds) && clientIds.Length == |clients| + 1
    ensures clientIds[..] == clients + [0]
    ensures Elements(Listed(clientIds[..])) == Sent(Elements(clients))
  {
    clientIds := new U16[|clients| + 1];
    var index := 0;
    while index < |clients|
      invariant 0 <= index <= |clients|
      invariant clientIds[..index] == clients[..index]
    {
      clientIds[index] := clients[index];
      index := index + 1;
    }
    clientIds[index] := 0;
    assert clientIds[..] == clientIds[..index] + [0];
    TerminatedListing(clients);
  }

  /** Scans a zero-terminated array into a set. */
  method ReadIdArray(clientList: array<U16>) returns (clients: seq<U16>)
    requires 0 in clientList[..]
    ensures Ascending(clients)
    ensures clients == InsertAll([], Listed(clientList[..]))
  {
    clients := [];
    ghost var listed := Listed(clientList[..]);
    var index := 0;
    var id := clientList[index];
    while id != 0
      invariant 0 <= index <= |listed| < clientList.Length
      invariant id == clientList[index]
      invariant Ascending(clients) && clients == InsertAll([], listed[..index])
      decreases clientList.Length - index
    {
      assert index < |listed| && listed[index] == id;
      assert listed[..index + 1] == listed[..index] + [id];
      assert listed[..index + 1][..index] == listed[..index];
      clients := Insert(clients, id);
      index := index + 1;
      id := clientList[index];
    }
    assert index == |listed|;
    assert listed[..index] == listed;
  }

  /** Adds every id of `clients` to the cached set. */
  method InsertClients(cached: seq<U16>, clients: seq<U16>) returns (r: seq<U16>)
    requires Ascending(cached)
    ensures Ascending(r)
    ensures Elements(r) == Elements(cached) + Elements(clients)
  {
    r := cached;
    var i := 0;
    while i < |clients|
      invariant 0 <= i <= |clients|
      invariant Ascending(r)
      invariant forall y :: y in r <==> y in cached || y in clients[..i]
    {
      r := Insert(r, clients[i]);
      assert clients[..i + 1] == clients[..i] + [clients[i]];
      i := i + 1;
    }
    assert clients[..i] == clients;
  }

  /** Walks the cached set with an erasing iterator, once for each id of `clients`. */
  method EraseClients(cached: seq<U16>, clients: seq<U16>) returns (r: seq<U16>)
    requires Ascending(cached)
    ensures Ascending(r)
    ensures Elements(r) == Elements(cached) - Elements(clients)
  {
    r := cached;
    var i := 0;
    while i < |clients|
      invariant 0 <= i <= |clients|
      invariant Ascending(r) && Elements(r) == Elements(cached) - Elements(clients[..i])
    {
      var clientId := clients[i];
      ghost var was := r;
      var eraseIt := 0;
      while eraseIt < |r|
        invariant 0 <= eraseIt <= |r|
        invariant Ascending(r)
        invariant clientId !in r[..eraseIt]
        invariant Elements(r) + {clientId} == Elements(was) + {clientId}
        decreases |r| - eraseIt
      {
        if r[eraseIt] == clientId {
          ghost var before := r;
          r := r[..eraseIt] + r[eraseIt + 1..];
          assert before == before[..eraseIt] + [clientId] + before[eraseIt + 1..];
        } else {
          eraseIt := eraseIt + 1;
        }
      }
      assert r[..eraseIt] == r;
      assert clients[..i + 1] == clients[..i] + [clientId];
      i := i + 1;
    }
    assert clients[..i] == clients;
  }
}
