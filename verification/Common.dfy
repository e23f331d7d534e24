/** Fixed-width integers, byte strings and optional values shared by every module. */
module Common {

  type Byte = x: nat | x < 0x100
  type U16 = x: nat | x < 0x1_0000
  type U32 = x: nat | x < 0x1_0000_0000
  type U64 = x: nat | x < 0x1_0000_0000_0000_0000
  type I32 = x: int | -0x8000_0000 <= x < 0x8000_0000

  /** A C++ `std::string`: any bytes, zero bytes included. */
  type Text = seq<Byte>

  /** A C string: the bytes in front of its terminator. */
  type CText = t: Text | 0 !in t witness []

  datatype Option<+T> = None | Some(value: T)

  /** Things borrowed and given back, numbered in the order they are handed out: `out` of them so far,
      number `i` given back `back[i]` times. */
  datatype Ledger = Ledger(out: nat, back: multiset<nat>)
  {
    /** The next thing is handed out; its number is the old `out`. */
    function Take(): Ledger {
      this.(out := out + 1)
    }

    function Give(i: nat): Ledger {
      this.(back := back[i := back[i] + 1])
    }
  }

  const EMPTY_LEDGER := Ledger(0, multiset{})

  /** Everything handed out between two moments has been given back exactly once by the second, and
      nothing else has been given back in between. */
  ghost predicate Returned(before: Ledger, after: Ledger) {
    && before.out <= after.out
    && forall i: nat :: after.back[i] == before.back[i] + (if before.out <= i < after.out then 1 else 0)
  }

  /** Everything ever handed out has been given back, exactly once. */
  ghost predicate Settled(l: Ledger) {
    forall i: nat :: l.back[i] == if i < l.out then 1 else 0
  }

  lemma ReturnedTransitive(a: Ledger, b: Ledger, c: Ledger)
    requires Returned(a, b) && Returned(b, c)
    ensures Returned(a, c)
  {
  }

  lemma TakenAndGiven(a: Ledger)
    ensures Returned(a, a) && Returned(a, a.Take().Give(a.out))
  {
  }

  /** A thing taken, anything returned, and then the thing given back. */
  lemma ReturnedAround(a: Ledger, b: Ledger)
    requires Returned(a.Take(), b)
    ensures Returned(a, b.Give(a.out))
  {
  }

  /** The prefix of `xs` in front of its first zero: what a reader of a zero-terminated array sees. */
  function UpToZero(xs: seq<nat>): (r: seq<nat>)
    ensures 0 !in r && r <= xs
    ensures 0 !in xs ==> r == xs
    ensures |r| < |xs| ==> xs[|r|] == 0
  {
    if xs == [] || xs[0] == 0 then [] else [xs[0]] + UpToZero(xs[1..])
  }

  /** `std::string::c_str` as read by a C function. */
  function CStr(t: Text): (r: CText)
    ensures 0 !in t ==> r == t
  {
    var r := UpToZero(t);
    assert forall i :: 0 <= i < |r| ==> r[i] == t[i];
    r
  }

  /** A scan to the first zero undoes the termination of a zero-free list, whatever lies behind it. */
  lemma {:induction false} TerminatedRoundTrip(xs: seq<nat>, behind: seq<nat>)
    requires 0 !in xs
    ensures UpToZero(xs + [0] + behind) == xs
  {
    if xs == [] {
    } else {
      var whole := xs + [0] + behind;
      assert whole[0] == xs[0] && whole[1..] == xs[1..] + [0] + behind;
      TerminatedRoundTrip(xs[1..], behind);
    }
  }
}
