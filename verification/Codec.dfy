/** The binary archive: little-endian scalars of fixed width, and a 64-bit count in front of every
    string and vector. A schema says which fields a packet archives, in order. */
module Codec {
  import opened Common

  datatype Schema =
    | Number(width: nat)
    | Bytes
    | List(element: Schema)
    | Both(first: Schema, second: Schema)

  datatype Value =
    | Num(n: nat)
    | Str(t: Text)
    | Items(vs: seq<Value>)
    | Pair(a: Value, b: Value)

  const COUNT: nat := 8

  /** `n` can be written with `width` bytes. */
  predicate Small(width: nat, n: nat) {
    if width == 0 then n == 0 else Small(width - 1, n / 0x100)
  }

  /** `v` is a value of schema `s` whose counts can be archived. */
  predicate Fits(s: Schema, v: Value)
    decreases v
  {
    match s
    case Number(width) => v.Num? && Small(width, v.n)
    case Bytes => v.Str? && Small(COUNT, |v.t|)
    case List(element) => v.Items? && Small(COUNT, |v.vs|) && forall w | w in v.vs :: Fits(element, w)
    case Both(first, second) => v.Pair? && Fits(first, v.a) && Fits(second, v.b)
  }

  function EncodeNumber(width: nat, n: nat): (bs: Text)
    ensures |bs| == width
  {
    if width == 0 then [] else [n % 0x100] + EncodeNumber(width - 1, n / 0x100)
  }

  function DecodeNumber(bs: Text): nat {
    if bs == [] then 0 else bs[0] + 0x100 * DecodeNumber(bs[1..])
  }

  function Encode(v: Value, s: Schema): Text
    requires Fits(s, v)
    decreases v
  {
    match s
    case Number(width) => EncodeNumber(width, v.n)
    case Bytes => EncodeNumber(COUNT, |v.t|) + v.t
    case List(element) => EncodeNumber(COUNT, |v.vs|) + EncodeItems(v.vs, element)
    case Both(first, second) => Encode(v.a, first) + Encode(v.b, second)
  }

  function EncodeItems(vs: seq<Value>, element: Schema): Text
    requires forall w | w in vs :: Fits(element, w)
    decreases vs
  {
    if vs == [] then [] else Encode(vs[0], element) + EncodeItems(vs[1..], element)
  }

  /** A value read off the front of the bytes, and the bytes behind it. */
  datatype Read<+T> = Read(value: T, rest: Text)

  /** `None` is the archive's exception: it ran out of bytes. */
  function Decode(s: Schema, bs: Text): Option<Read<Value>>
    decreases s, 0
  {
    match s
    case Number(width) =>
      if |bs| < width then None else Some(Read(Num(DecodeNumber(bs[..width])), bs[width..]))
    case Bytes =>
      if |bs| < COUNT then None
      else
        var n := DecodeNumber(bs[..COUNT]);
        var body := bs[COUNT..];
        if |body| < n then None else Some(Read(Str(body[..n]), body[n..]))
    case List(element) =>
      if |bs| < COUNT then None
      else
        (match DecodeItems(element, DecodeNumber(bs[..COUNT]), bs[COUNT..])
         case None => None
         case Some(r) => Some(Read(Items(r.value), r.rest)))
    case Both(first, second) =>
      match Decode(first, bs)
      case None => None
      case Some(a) =>
        match Decode(second, a.rest)
        case None => None
        case Some(b) => Some(Read(Pair(a.value, b.value), b.rest))
  }

  function DecodeItems(element: Schema, n: nat, bs: Text): Option<Read<seq<Value>>>
    decreases element, n + 1
  {
    if n == 0 then Some(Read([], bs))
    else
      match Decode(element, bs)
      case None => None
      case Some(v) =>
        match DecodeItems(element, n - 1, v.rest)
        case None => None
        case Some(vs) => Some(Read([v.value] + vs.value, vs.rest))
  }

  // ---------- numbers ----------

  lemma {:induction false} NumberRoundTrip(width: nat, n: nat)
    requires Small(width, n)
    ensures DecodeNumber(EncodeNumber(width, n)) == n
  {
    if width != 0 {
      NumberRoundTrip(width - 1, n / 0x100);
      var bs := EncodeNumber(width, n);
      assert bs[1..] == EncodeNumber(width - 1, n / 0x100);
    }
  }

  lemma {:induction false} NumberExact(bs: Text)
    ensures Small(|bs|, DecodeNumber(bs))
    ensures EncodeNumber(|bs|, DecodeNumber(bs)) == bs
  {
    if bs == [] {
    } else {
      NumberExact(bs[1..]);
      var n := DecodeNumber(bs);
      assert n % 0x100 == bs[0] && n / 0x100 == DecodeNumber(bs[1..]);
      assert bs == [bs[0]] + bs[1..];
    }
  }

  // ---------- values ----------

  /** Decoding an encoding, whatever follows it, yields the value and consumes exactly the encoding. */
  lemma {:induction false} RoundTrip(s: Schema, v: Value, rest: Text)
    requires Fits(s, v)
    ensures Decode(s, Encode(v, s) + rest) == Some(Read(v, rest))
    decreases v
  {
    var bs := Encode(v, s) + rest;
    match s
    case Number(width) =>
      NumberRoundTrip(width, v.n);
      assert bs[..width] == EncodeNumber(width, v.n) && bs[width..] == rest;
    case Bytes =>
      NumberRoundTrip(COUNT, |v.t|);
      assert bs[..COUNT] == EncodeNumber(COUNT, |v.t|) && bs[COUNT..] == v.t + rest;
    case List(element) =>
      NumberRoundTrip(COUNT, |v.vs|);
      assert bs[..COUNT] == EncodeNumber(COUNT, |v.vs|) && bs[COUNT..] == EncodeItems(v.vs, element) + rest;
      ItemsRoundTrip(element, v.vs, rest);
    case Both(first, second) =>
      assert bs == Encode(v.a, first) + (Encode(v.b, second) + rest);
      RoundTrip(first, v.a, Encode(v.b, second) + rest);
      RoundTrip(second, v.b, rest);
  }

  lemma {:induction false} ItemsRoundTrip(element: Schema, vs: seq<Value>, rest: Text)
    requires forall w | w in vs :: Fits(element, w)
    ensures DecodeItems(element, |vs|, EncodeItems(vs, element) + rest) == Some(Read(vs, rest))
    decreases vs
  {
    if vs == [] {
      assert EncodeItems(vs, element) + rest == rest;
    } else {
      var tail := EncodeItems(vs[1..], element) + rest;
      assert EncodeItems(vs, element) + rest == Encode(vs[0], element) + tail;
      RoundTrip(element, vs[0], tail);
      ItemsRoundTrip(element, vs[1..], rest);
      assert vs == [vs[0]] + vs[1..];
    }
  }

  lemma NumberSound(width: nat, bs: Text)
    requires |bs| >= width
    ensures var v := Num(DecodeNumber(bs[..width]));
            Fits(Number(width), v) && bs == Encode(v, Number(width)) + bs[width..]
  {
    NumberExact(bs[..width]);
    assert bs == bs[..width] + bs[width..];
  }

  lemma BytesSound(bs: Text)
    requires |bs| >= COUNT && |bs| - COUNT >= DecodeNumber(bs[..COUNT])
    ensures var n := DecodeNumber(bs[..COUNT]);
            var v := Str(bs[COUNT..][..n]);
            Fits(Bytes, v) && bs == Encode(v, Bytes) + bs[COUNT..][n..]
  {
    NumberExact(bs[..COUNT]);
    var n := DecodeNumber(bs[..COUNT]);
    var body := bs[COUNT..];
    assert bs == bs[..COUNT] + body && body == body[..n] + body[n..];
    hide EncodeNumber, DecodeNumber, Small;
  }

  lemma ListSound(element: Schema, bs: Text, vs: seq<Value>, rest: Text)
    requires |bs| >= COUNT && |vs| == DecodeNumber(bs[..COUNT])
    requires (forall w | w in vs :: Fits(element, w)) && bs[COUNT..] == EncodeItems(vs, element) + rest
    ensures Fits(List(element), Items(vs)) && bs == Encode(Items(vs), List(element)) + rest
  {
    NumberExact(bs[..COUNT]);
    assert bs == bs[..COUNT] + bs[COUNT..];
    hide EncodeNumber, DecodeNumber, Small, EncodeItems;
  }

  /** Whatever decodes is the encoding of its value followed by the rest. */
  lemma {:induction false} DecodeSound(s: Schema, bs: Text)
    ensures var r := Decode(s, bs);
            r.Some? ==> Fits(s, r.value.value) && bs == Encode(r.value.value, s) + r.value.rest
    decreases s, 0
  {
    hide EncodeNumber, DecodeNumber, Small, EncodeItems;
    var r := Decode(s, bs);
    if r.Some? {
      match s
      case Number(width) => NumberSound(width, bs);
      case Bytes => BytesSound(bs);
      case List(element) =>
        ItemsSound(element, DecodeNumber(bs[..COUNT]), bs[COUNT..]);
        var items := DecodeItems(element, DecodeNumber(bs[..COUNT]), bs[COUNT..]).value;
        ListSound(element, bs, items.value, items.rest);
      case Both(first, second) =>
        DecodeSound(first, bs);
        var a := Decode(first, bs).value;
        DecodeSound(second, a.rest);
        var b := Decode(second, a.rest).value;
        assert bs == Encode(a.value, first) + Encode(b.value, second) + b.rest;
    }
  }

  lemma {:induction false} ItemsSound(element: Schema, n: nat, bs: Text)
    ensures var r := DecodeItems(element, n, bs);
            r.Some? ==>
              && |r.value.value| == n
              && (forall w | w in r.value.value :: Fits(element, w))
              && bs == EncodeItems(r.value.value, element) + r.value.rest
    decreases element, n + 1
  {
    var r := DecodeItems(element, n, bs);
    if r.Some? {
      if n == 0 {
        assert bs == EncodeItems([], element) + bs;
      } else {
        DecodeSound(element, bs);
        var v := Decode(element, bs).value;
        ItemsSound(element, n - 1, v.rest);
        var vs := DecodeItems(element, n - 1, v.rest).value;
        var all := [v.value] + vs.value;
        assert all[1..] == vs.value && all[0] == v.value;
        assert bs == Encode(v.value, element) + EncodeItems(vs.value, element) + vs.rest;
      }
    }
  }

  /** The two together: the decoder accepts exactly the encodings, with anything behind them. */
  lemma DecodeExact(s: Schema, bs: Text, v: Value, rest: Text)
    ensures Decode(s, bs) == Some(Read(v, rest)) <==> Fits(s, v) && bs == Encode(v, s) + rest
  {
    DecodeSound(s, bs);
    if Fits(s, v) {
      RoundTrip(s, v, rest);
    }
  }

  /** No encoding continues another encoding of the same schema. */
  lemma EncodingsPrefixFree(s: Schema, v: Value, w: Value, behind: Text)
    requires Fits(s, v) && Fits(s, w) && Encode(v, s) == Encode(w, s) + behind
    ensures behind == [] && v == w
  {
    RoundTrip(s, v, []);
    RoundTrip(s, w, behind);
    assert Encode(v, s) + [] == Encode(v, s);
  }

  /** Every strict prefix of an encoding runs out of bytes. */
  lemma TruncationReported(s: Schema, v: Value, k: nat)
    requires Fits(s, v) && k < |Encode(v, s)|
    ensures Decode(s, Encode(v, s)[..k]) == None
  {
    hide Encode, Decode, Fits;
    var whole := Encode(v, s);
    var front, back := whole[..k], whole[k..];
    var r := Decode(s, front);
    if r.Some? {
      DecodeSound(s, front);
      var read := r.value;
      assert whole == front + back;
      assert whole == Encode(read.value, s) + (read.rest + back);
      EncodingsPrefixFree(s, v, read.value, read.rest + back);
    }
  }
}
