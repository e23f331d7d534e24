/** The packets of the voice protocol, their archived fields, and the version check. */
module Protocol {
  import opened Common
  import opened Codec

  const VERSION_MAJOR: I32 := 1
  const VERSION_MINOR: I32 := 3
  const MIN_VERSION_MAJOR: I32 := 1
  const MIN_VERSION_MINOR: I32 := 3

  const PROTOCOL_CHANNEL: nat := 0
  const HANDSHAKE_CHANNEL: nat := 1
  const UPDATE_CHANNEL: nat := 2
  const STATUS_CHANNEL: nat := 3
  const CONTROL_CHANNEL: nat := 4
  const POSITION_CHANNEL: nat := 5

  const STATUS_CODE_OK: I32 := 0
  const STATUS_CODE_NOT_CONNECTED_TO_SERVER: I32 := 2
  const STATUS_CODE_NOT_MOVED_TO_CHANNEL: I32 := 3

  /** Floats are opaque 32-bit words. */
  datatype PositionUpdate = PositionUpdate(teamspeakId: U16, x: U32, y: U32, z: U32, voiceRange: U32)

  datatype AudioUpdate = AudioUpdate(teamspeakId: U16, muted: bool, volume: U32, filterKey: Text)

  datatype Packet =
    | Version(versionMajor: I32, versionMinor: I32, minimumVersionMajor: I32, minimumVersionMinor: I32)
    | VersionResponse(status: I32, major: I32, minor: I32)
    | Positions(x: U32, y: U32, z: U32, rotation: U32, positions: seq<PositionUpdate>)
    | HandshakeResponse(statusCode: I32, reason: Text, serverUid: Text, channelId: U64, channelPassword: Text)
    | Handshake(gameId: U16, teamspeakId: U16, code: I32, identity: Text)
    | Update(audioUpdates: seq<AudioUpdate>, positionUpdates: seq<PositionUpdate>)
    | Status(talking: bool, microphoneMuted: bool, speakersMuted: bool)
    | Control(nickname: Text)

  datatype Kind =
    | VersionKind | VersionResponseKind | PositionsKind | HandshakeResponseKind
    | HandshakeKind | UpdateKind | StatusKind | ControlKind

  function KindOf(p: Packet): Kind {
    match p
    case Version(_, _, _, _) => VersionKind
    case VersionResponse(_, _, _) => VersionResponseKind
    case Positions(_, _, _, _, _) => PositionsKind
    case HandshakeResponse(_, _, _, _, _) => HandshakeResponseKind
    case Handshake(_, _, _, _) => HandshakeKind
    case Update(_, _) => UpdateKind
    case Status(_, _, _) => StatusKind
    case Control(_) => ControlKind
  }

  /** The major version decides first, the minor version breaks the tie. */
  predicate VerifyProtocolVersion(major: int, minor: int, minMajor: int, minMinor: int)
    ensures VerifyProtocolVersion(major, minor, minMajor, minMinor) <==>
              major > minMajor || (major == minMajor && minor >= minMinor)
  {
    if major > minMajor then true
    else if major < minMajor then false
    else if minor > minMinor then true
    else if minor < minMinor then false
    else true
  }

  // ---------- archived fields ----------

  const FLAG := Number(1)
  const SHORT := Number(2)
  const WORD := Number(4)
  const LONG := Number(8)

  const POSITION_UPDATE := Both(SHORT, Both(WORD, Both(WORD, Both(WORD, WORD))))
  const AUDIO_UPDATE := Both(SHORT, Both(FLAG, WORD))

  function SchemaOf(k: Kind): Schema {
    match k
    case VersionKind => Both(WORD, Both(WORD, Both(WORD, WORD)))
    case VersionResponseKind => Both(WORD, Both(WORD, WORD))
    case PositionsKind => Both(WORD, Both(WORD, Both(WORD, Both(WORD, List(POSITION_UPDATE)))))
    case HandshakeResponseKind => Both(WORD, Both(Bytes, Both(Bytes, Both(LONG, Bytes))))
    case HandshakeKind => Both(SHORT, Both(SHORT, Both(WORD, Bytes)))
    case UpdateKind => Both(List(AUDIO_UPDATE), List(POSITION_UPDATE))
    case StatusKind => Both(FLAG, Both(FLAG, FLAG))
    case ControlKind => Bytes
  }

  /** Two's complement. */
  function FromSigned(i: I32): Value {
    Num(if i < 0 then i + 0x1_0000_0000 else i)
  }

  function ToSigned(n: U32): I32 {
    if n < 0x8000_0000 then n else n - 0x1_0000_0000
  }

  function FromFlag(b: bool): Value {
    Num(if b then 1 else 0)
  }

  function FromPosition(p: PositionUpdate): Value {
    Pair(Num(p.teamspeakId), Pair(Num(p.x), Pair(Num(p.y), Pair(Num(p.z), Num(p.voiceRange)))))
  }

  /** The filter key is not archived. */
  function FromAudio(a: AudioUpdate): Value {
    Pair(Num(a.teamspeakId), Pair(FromFlag(a.muted), Num(a.volume)))
  }

  function FromPositions(ps: seq<PositionUpdate>): Value {
    Items(seq(|ps|, i requires 0 <= i < |ps| => FromPosition(ps[i])))
  }

  function FromAudios(xs: seq<AudioUpdate>): Value {
    Items(seq(|xs|, i requires 0 <= i < |xs| => FromAudio(xs[i])))
  }

  function ToValue(p: Packet): Value {
    match p
    case Version(a, b, c, d) => Pair(FromSigned(a), Pair(FromSigned(b), Pair(FromSigned(c), FromSigned(d))))
    case VersionResponse(s, a, b) => Pair(FromSigned(s), Pair(FromSigned(a), FromSigned(b)))
    case Positions(x, y, z, r, ps) => Pair(Num(x), Pair(Num(y), Pair(Num(z), Pair(Num(r), FromPositions(ps)))))
    case HandshakeResponse(s, reason, uid, c, pw) =>
      Pair(FromSigned(s), Pair(Str(reason), Pair(Str(uid), Pair(Num(c), Str(pw)))))
    case Handshake(g, t, s, identity) => Pair(Num(g), Pair(Num(t), Pair(FromSigned(s), Str(identity))))
    case Update(xs, ps) => Pair(FromAudios(xs), FromPositions(ps))
    case Status(t, m, s) => Pair(FromFlag(t), Pair(FromFlag(m), FromFlag(s)))
    case Control(nickname) => Str(nickname)
  }

  lemma SmallBounds(n: nat)
    ensures Small(1, n) <==> n < 0x100
    ensures Small(2, n) <==> n < 0x1_0000
    ensures Small(4, n) <==> n < 0x1_0000_0000
    ensures Small(8, n) <==> n < 0x1_0000_0000_0000_0000
  {
    var a := n / 0x100;
    var b := a / 0x100;
    var c := b / 0x100;
    var d := c / 0x100;
    var e := d / 0x100;
    var f := e / 0x100;
    var g := f / 0x100;
    assert Small(1, n) <==> Small(0, a);
    assert Small(2, n) <==> Small(1, a);
    assert Small(1, a) <==> Small(0, b);
    assert Small(4, n) <==> Small(3, a);
    assert Small(3, a) <==> Small(2, b);
    assert Small(2, b) <==> Small(1, c);
    assert Small(1, c) <==> Small(0, d);
    assert Small(8, n) <==> Small(7, a);
    assert Small(7, a) <==> Small(6, b);
    assert Small(6, b) <==> Small(5, c);
    assert Small(5, c) <==> Small(4, d);
    assert Small(4, d) <==> Small(3, e);
    assert Small(3, e) <==> Small(2, f);
    assert Small(2, f) <==> Small(1, g);
    assert Small(1, g) <==> Small(0, g / 0x100);
  }

  /** One field at a time, up to five fields deep. */
  lemma FieldsFit(s: Schema, v: Value)
    requires s.Both?
    ensures Fits(s, v) <==> v.Pair? && Fits(s.first, v.a) && Fits(s.second, v.b)
    ensures s.second.Both? && v.Pair? ==>
              (Fits(s.second, v.b) <==>
                 v.b.Pair? && Fits(s.second.first, v.b.a) && Fits(s.second.second, v.b.b))
    ensures s.second.Both? && s.second.second.Both? && v.Pair? && v.b.Pair? ==>
              (Fits(s.second.second, v.b.b) <==>
                 && v.b.b.Pair?
                 && Fits(s.second.second.first, v.b.b.a)
                 && Fits(s.second.second.second, v.b.b.b))
    ensures s.second.Both? && s.second.second.Both? && s.second.second.second.Both? && v.Pair? && v.b.Pair? && v.b.b.Pair? ==>
              (Fits(s.second.second.second, v.b.b.b) <==>
                 && v.b.b.b.Pair?
                 && Fits(s.second.second.second.first, v.b.b.b.a)
                 && Fits(s.second.second.second.second, v.b.b.b.b))
  {
    if s.second.Both? && v.Pair? {
      FieldsFit(s.second, v.b);
    }
  }

  function ToPosition(v: Value): PositionUpdate
    requires Fits(POSITION_UPDATE, v)
  {
    FieldsFit(POSITION_UPDATE, v);
    PositionUpdate(ToShort(v.a), ToWord(v.b.a), ToWord(v.b.b.a), ToWord(v.b.b.b.a), ToWord(v.b.b.b.b))
  }

  function ToAudio(v: Value): AudioUpdate
    requires Fits(AUDIO_UPDATE, v)
  {
    FieldsFit(AUDIO_UPDATE, v);
    AudioUpdate(ToShort(v.a), v.b.a.n != 0, ToWord(v.b.b), [])
  }

  function ToPositions(v: Value): seq<PositionUpdate>
    requires Fits(List(POSITION_UPDATE), v)
  {
    seq(|v.vs|, i requires 0 <= i < |v.vs| => ToPosition(v.vs[i]))
  }

  function ToAudios(v: Value): seq<AudioUpdate>
    requires Fits(List(AUDIO_UPDATE), v)
  {
    seq(|v.vs|, i requires 0 <= i < |v.vs| => ToAudio(v.vs[i]))
  }

  function ToWord(v: Value): U32
    requires Fits(WORD, v)
  {
    SmallBounds(v.n);
    v.n
  }

  function ToLong(v: Value): U64
    requires Fits(LONG, v)
  {
    SmallBounds(v.n);
    v.n
  }

  function ToShort(v: Value): U16
    requires Fits(SHORT, v)
  {
    SmallBounds(v.n);
    v.n
  }

  function FromValue(k: Kind, v: Value): (p: Packet)
    requires Fits(SchemaOf(k), v)
    ensures KindOf(p) == k
  {
    match k
    case VersionKind =>
      FieldsFit(SchemaOf(k), v);
      Version(ToSigned(ToWord(v.a)), ToSigned(ToWord(v.b.a)), ToSigned(ToWord(v.b.b.a)), ToSigned(ToWord(v.b.b.b)))
    case VersionResponseKind =>
      FieldsFit(SchemaOf(k), v);
      VersionResponse(ToSigned(ToWord(v.a)), ToSigned(ToWord(v.b.a)), ToSigned(ToWord(v.b.b)))
    case PositionsKind =>
      FieldsFit(SchemaOf(k), v);
      Positions(ToWord(v.a), ToWord(v.b.a), ToWord(v.b.b.a), ToWord(v.b.b.b.a), ToPositions(v.b.b.b.b))
    case HandshakeResponseKind =>
      FieldsFit(SchemaOf(k), v);
      HandshakeResponse(ToSigned(ToWord(v.a)), v.b.a.t, v.b.b.a.t, ToLong(v.b.b.b.a), v.b.b.b.b.t)
    case HandshakeKind =>
      FieldsFit(SchemaOf(k), v);
      Handshake(ToShort(v.a), ToShort(v.b.a), ToSigned(ToWord(v.b.b.a)), v.b.b.b.t)
    case UpdateKind =>
      FieldsFit(SchemaOf(k), v);
      Update(ToAudios(v.a), ToPositions(v.b))
    case StatusKind =>
      FieldsFit(SchemaOf(k), v);
      Status(v.a.n != 0, v.b.a.n != 0, v.b.b.n != 0)
    case ControlKind => Control(v.t)
  }

  // ---------- packets on the wire ----------

  /** Every string and vector is shorter than 2^64, as it is in any C++ program. */
  predicate Archivable(p: Packet) {
    var limit := 0x1_0000_0000_0000_0000;
    match p
    case Positions(_, _, _, _, ps) => |ps| < limit
    case HandshakeResponse(_, reason, uid, _, pw) => |reason| < limit && |uid| < limit && |pw| < limit
    case Handshake(_, _, _, identity) => |identity| < limit
    case Update(xs, ps) => |xs| < limit && |ps| < limit
    case Control(nickname) => |nickname| < limit
    case _ => true
  }

  /** The packet with every filter key at its default, the empty string. */
  function Received(p: Packet): Packet {
    match p
    case Update(xs, ps) => Update(seq(|xs|, i requires 0 <= i < |xs| => xs[i].(filterKey := [])), ps)
    case _ => p
  }

  lemma PositionsFit(ps: seq<PositionUpdate>)
    requires |ps| < 0x1_0000_0000_0000_0000
    ensures Fits(List(POSITION_UPDATE), FromPositions(ps))
    ensures ToPositions(FromPositions(ps)) == ps
  {
    SmallBounds(|ps|);
    forall i | 0 <= i < |ps|
      ensures Fits(POSITION_UPDATE, FromPosition(ps[i])) && ToPosition(FromPosition(ps[i])) == ps[i]
    {
      var p := ps[i];
      FieldsFit(POSITION_UPDATE, FromPosition(p));
      SmallBounds(p.teamspeakId);
      SmallBounds(p.x);
      SmallBounds(p.y);
      SmallBounds(p.z);
      SmallBounds(p.voiceRange);
    }
  }

  lemma AudiosFit(xs: seq<AudioUpdate>)
    requires |xs| < 0x1_0000_0000_0000_0000
    ensures Fits(List(AUDIO_UPDATE), FromAudios(xs))
    ensures ToAudios(FromAudios(xs)) == seq(|xs|, i requires 0 <= i < |xs| => xs[i].(filterKey := []))
  {
    SmallBounds(|xs|);
    forall i | 0 <= i < |xs|
      ensures Fits(AUDIO_UPDATE, FromAudio(xs[i])) && ToAudio(FromAudio(xs[i])) == xs[i].(filterKey := [])
    {
      FieldsFit(AUDIO_UPDATE, FromAudio(xs[i]));
      SmallBounds(xs[i].teamspeakId);
      SmallBounds(1);
      SmallBounds(0);
      SmallBounds(xs[i].volume);
    }
  }

  lemma SignedFits(i: I32)
    ensures Fits(WORD, FromSigned(i)) && ToSigned(ToWord(FromSigned(i))) == i
  {
    SmallBounds(FromSigned(i).n);
  }

  lemma TextFits(t: Text)
    requires |t| < 0x1_0000_0000_0000_0000
    ensures Fits(Bytes, Str(t))
  {
    SmallBounds(|t|);
  }

  lemma ToValueFits(p: Packet)
    requires Archivable(p)
    ensures Fits(SchemaOf(KindOf(p)), ToValue(p))
    ensures FromValue(KindOf(p), ToValue(p)) == Received(p)
  {
    var s, v := SchemaOf(KindOf(p)), ToValue(p);
    if s.Both? {
      FieldsFit(s, v);
    }
    match p
    case Version(a, b, c, d) =>
      SignedFits(a); SignedFits(b); SignedFits(c); SignedFits(d);
    case VersionResponse(a, b, c) =>
      SignedFits(a); SignedFits(b); SignedFits(c);
    case Positions(x, y, z, r, ps) =>
      SmallBounds(x); SmallBounds(y); SmallBounds(z); SmallBounds(r);
      PositionsFit(ps);
    case HandshakeResponse(a, reason, uid, c, pw) =>
      SignedFits(a); TextFits(reason); TextFits(uid); SmallBounds(c); TextFits(pw);
    case Handshake(g, t, a, identity) =>
      SmallBounds(g); SmallBounds(t); SignedFits(a); TextFits(identity);
    case Update(xs, ps) =>
      AudiosFit(xs);
      PositionsFit(ps);
    case Status(_, _, _) =>
      SmallBounds(0); SmallBounds(1);
    case Control(nickname) =>
      TextFits(nickname);
  }

  /** `serializePacket`: the output archive never throws on these packets. */
  function SerializePacket(p: Packet): Text
    requires Archivable(p)
  {
    ToValueFits(p);
    Encode(ToValue(p), SchemaOf(KindOf(p)))
  }

  /** `deserializePacket`: `None` when the archive throws, which is when `result` is false. Bytes
      behind the packet are ignored. */
  function DeserializePacket(k: Kind, data: Text): (r: Option<Packet>)
    ensures r.Some? ==> KindOf(r.value) == k
  {
    match Decode(SchemaOf(k), data)
    case None => None
    case Some(read) =>
      DecodeSound(SchemaOf(k), data);
      Some(FromValue(k, read.value))
  }

  /** Every packet survives the wire, whatever bytes follow it, except for its filter keys. */
  lemma PacketRoundTrip(p: Packet, behind: Text)
    requires Archivable(p)
    ensures DeserializePacket(KindOf(p), SerializePacket(p) + behind) == Some(Received(p))
    ensures Decode(SchemaOf(KindOf(p)), SerializePacket(p) + behind).value.rest == behind
  {
    ToValueFits(p);
    RoundTrip(SchemaOf(KindOf(p)), ToValue(p), behind);
  }

  /** A packet cut short anywhere is reported. */
  lemma PacketTruncation(p: Packet, k: nat)
    requires Archivable(p) && k < |SerializePacket(p)|
    ensures DeserializePacket(KindOf(p), SerializePacket(p)[..k]) == None
  {
    ToValueFits(p);
    TruncationReported(SchemaOf(KindOf(p)), ToValue(p), k);
  }

  /** No encoding of a packet type is a strict prefix of another of that type; and equal encodings
      come from packets the receiver cannot tell apart. */
  lemma PrefixFree(p: Packet, q: Packet)
    requires Archivable(p) && Archivable(q) && KindOf(p) == KindOf(q)
    requires SerializePacket(p) <= SerializePacket(q)
    ensures SerializePacket(p) == SerializePacket(q) && Received(p) == Received(q)
  {
    var dp, dq := SerializePacket(p), SerializePacket(q);
    PacketRoundTrip(p, []);
    PacketRoundTrip(q, []);
    assert dp + [] == dp && dq + [] == dq && dq[..|dp|] == dp;
    if |dp| < |dq| {
      PacketTruncation(q, |dp|);
    } else {
      assert dp == dq;
    }
  }

  // ---------- the bytes themselves ----------

  function Word(n: U32): Text {
    EncodeNumber(4, n)
  }

  /** A 32-bit `int` in two's complement, low byte first. */
  function Int(i: I32): Text {
    Word(if i < 0 then i + 0x1_0000_0000 else i)
  }

  function Flag(b: bool): Text {
    [if b then 1 else 0]
  }

  /** A 64-bit count and the bytes. */
  function Counted(t: Text): Text {
    EncodeNumber(8, |t|) + t
  }

  function PositionBytes(p: PositionUpdate): Text {
    EncodeNumber(2, p.teamspeakId) + Word(p.x) + Word(p.y) + Word(p.z) + Word(p.voiceRange)
  }

  function AudioBytes(a: AudioUpdate): Text {
    EncodeNumber(2, a.teamspeakId) + Flag(a.muted) + Word(a.volume)
  }

  function AllPositionBytes(ps: seq<PositionUpdate>): Text {
    if ps == [] then [] else PositionBytes(ps[0]) + AllPositionBytes(ps[1..])
  }

  function AllAudioBytes(xs: seq<AudioUpdate>): Text {
    if xs == [] then [] else AudioBytes(xs[0]) + AllAudioBytes(xs[1..])
  }

  /** The packet byte by byte, fields in the order the structures archive them. */
  function WireFormat(p: Packet): Text {
    match p
    case Version(major, minor, minMajor, minMinor) => Int(major) + Int(minor) + Int(minMajor) + Int(minMinor)
    case VersionResponse(status, major, minor) => Int(status) + Int(major) + Int(minor)
    case Positions(x, y, z, rotation, ps) =>
      Word(x) + Word(y) + Word(z) + Word(rotation) + EncodeNumber(8, |ps|) + AllPositionBytes(ps)
    case HandshakeResponse(status, reason, uid, channel, password) =>
      Int(status) + Counted(reason) + Counted(uid) + EncodeNumber(8, channel) + Counted(password)
    case Handshake(gameId, teamspeakId, status, identity) =>
      EncodeNumber(2, gameId) + EncodeNumber(2, teamspeakId) + Int(status) + Counted(identity)
    case Update(xs, ps) =>
      EncodeNumber(8, |xs|) + AllAudioBytes(xs) + EncodeNumber(8, |ps|) + AllPositionBytes(ps)
    case Status(talking, microphone, speakers) => Flag(talking) + Flag(microphone) + Flag(speakers)
    case Control(nickname) => Counted(nickname)
  }

  /** Encoding a record is encoding its first field and then the others. */
  lemma FieldsEncode(s: Schema, v: Value)
    requires s.Both? && Fits(s, v)
    ensures v.Pair? && Fits(s.first, v.a) && Fits(s.second, v.b)
    ensures Encode(v, s) == Encode(v.a, s.first) + Encode(v.b, s.second)
  {
  }

  lemma PositionEncodes(p: PositionUpdate)
    requires Fits(POSITION_UPDATE, FromPosition(p))
    ensures Encode(FromPosition(p), POSITION_UPDATE) == PositionBytes(p)
  {
    var v := FromPosition(p);
    FieldsEncode(POSITION_UPDATE, v);
    FieldsEncode(POSITION_UPDATE.second, v.b);
    FieldsEncode(POSITION_UPDATE.second.second, v.b.b);
    FieldsEncode(POSITION_UPDATE.second.second.second, v.b.b.b);
  }

  lemma AudioEncodes(a: AudioUpdate)
    requires Fits(AUDIO_UPDATE, FromAudio(a))
    ensures Encode(FromAudio(a), AUDIO_UPDATE) == AudioBytes(a)
  {
    var v := FromAudio(a);
    FieldsEncode(AUDIO_UPDATE, v);
    FieldsEncode(AUDIO_UPDATE.second, v.b);
    FlagEncodes(a.muted);
  }

  lemma FlagEncodes(b: bool)
    ensures EncodeNumber(1, if b then 1 else 0) == Flag(b)
  {
    assert EncodeNumber(0, 0) == [];
  }

  lemma {:induction false} PositionsEncode(ps: seq<PositionUpdate>)
    requires forall w | w in FromPositions(ps).vs :: Fits(POSITION_UPDATE, w)
    ensures EncodeItems(FromPositions(ps).vs, POSITION_UPDATE) == AllPositionBytes(ps)
    decreases |ps|
  {
    var vs := FromPositions(ps).vs;
    if ps != [] {
      assert vs[0] in vs && vs[1..] == FromPositions(ps[1..]).vs;
      PositionEncodes(ps[0]);
      PositionsEncode(ps[1..]);
    }
  }

  lemma {:induction false} AudiosEncode(xs: seq<AudioUpdate>)
    requires forall w | w in FromAudios(xs).vs :: Fits(AUDIO_UPDATE, w)
    ensures EncodeItems(FromAudios(xs).vs, AUDIO_UPDATE) == AllAudioBytes(xs)
    decreases |xs|
  {
    var vs := FromAudios(xs).vs;
    if xs != [] {
      assert vs[0] in vs && vs[1..] == FromAudios(xs[1..]).vs;
      AudioEncodes(xs[0]);
      AudiosEncode(xs[1..]);
    }
  }

  /** The encoding of the first fields of a record as one concatenation. */
  lemma AllFieldsEncode(s: Schema, v: Value)
    requires s.Both? && Fits(s, v)
    ensures v.Pair? && Fits(s.first, v.a) && Fits(s.second, v.b)
    ensures !s.second.Both? ==> Encode(v, s) == Encode(v.a, s.first) + Encode(v.b, s.second)
    ensures s.second.Both? ==>
              && v.b.Pair? && Fits(s.second.first, v.b.a) && Fits(s.second.second, v.b.b)
              && Encode(v, s) == Encode(v.a, s.first) + Encode(v.b.a, s.second.first) + Encode(v.b.b, s.second.second)
    decreases s
  {
    FieldsEncode(s, v);
    if s.second.Both? {
      FieldsEncode(s.second, v.b);
      assert Encode(v.a, s.first) + (Encode(v.b.a, s.second.first) + Encode(v.b.b, s.second.second))
          == Encode(v.a, s.first) + Encode(v.b.a, s.second.first) + Encode(v.b.b, s.second.second);
    }
  }

  lemma NumbersToWire(p: Packet)
    requires p.Version? || p.VersionResponse? || p.Status?
    ensures SerializePacket(p) == WireFormat(p)
  {
    hide Fits, EncodeNumber, FromValue;
    ToValueFits(p);
    var s, v := SchemaOf(KindOf(p)), ToValue(p);
    AllFieldsEncode(s, v);
    match p
    case Version(_, _, _, _) => AllFieldsEncode(s.second.second, v.b.b);
    case Status(talking, microphone, speakers) =>
      FlagEncodes(talking); FlagEncodes(microphone); FlagEncodes(speakers);
    case _ =>
  }

  lemma TextsToWire(p: Packet)
    requires Archivable(p) && (p.HandshakeResponse? || p.Handshake? || p.Control?)
    ensures SerializePacket(p) == WireFormat(p)
  {
    hide Fits, EncodeNumber, FromValue;
    ToValueFits(p);
    var s, v := SchemaOf(KindOf(p)), ToValue(p);
    if s.Both? {
      AllFieldsEncode(s, v);
      AllFieldsEncode(s.second.second, v.b.b);
    }
  }

  lemma PositionsToWire(p: Packet)
    requires Archivable(p) && p.Positions?
    ensures SerializePacket(p) == WireFormat(p)
  {
    hide Fits, EncodeNumber, EncodeItems, FromPositions, AllPositionBytes, FromValue;
    ToValueFits(p);
    var s, v := SchemaOf(PositionsKind), ToValue(p);
    AllFieldsEncode(s, v);
    AllFieldsEncode(s.second.second, v.b.b);
    PositionListEncodes(p.positions, v.b.b.b.b);
  }

  lemma UpdateToWire(p: Packet)
    requires Archivable(p) && p.Update?
    ensures SerializePacket(p) == WireFormat(p)
  {
    hide Fits, EncodeNumber, EncodeItems, FromPositions, FromAudios, AllPositionBytes, AllAudioBytes, FromValue, Received;
    ToValueFits(p);
    var s, v := SchemaOf(UpdateKind), ToValue(p);
    FieldsEncode(s, v);
    AudioListEncodes(p.audioUpdates, v.a);
    PositionListEncodes(p.positionUpdates, v.b);
    var xs, ps := Encode(v.a, s.first), Encode(v.b, s.second);
    assert xs + ps == WireFormat(p);
  }

  /** What is sent is the wire format. */
  lemma SerializesToWireFormat(p: Packet)
    requires Archivable(p)
    ensures SerializePacket(p) == WireFormat(p)
  {
    hide SerializePacket, WireFormat;
    match p
    case Version(_, _, _, _) => NumbersToWire(p);
    case VersionResponse(_, _, _) => NumbersToWire(p);
    case Status(_, _, _) => NumbersToWire(p);
    case Positions(_, _, _, _, _) => PositionsToWire(p);
    case Update(_, _) => UpdateToWire(p);
    case _ => TextsToWire(p);
  }

  lemma PositionListEncodes(ps: seq<PositionUpdate>, v: Value)
    requires v == FromPositions(ps) && Fits(List(POSITION_UPDATE), v)
    ensures Encode(v, List(POSITION_UPDATE)) == EncodeNumber(8, |ps|) + AllPositionBytes(ps)
  {
    PositionsEncode(ps);
  }

  lemma AudioListEncodes(xs: seq<AudioUpdate>, v: Value)
    requires v == FromAudios(xs) && Fits(List(AUDIO_UPDATE), v)
    ensures Encode(v, List(AUDIO_UPDATE)) == EncodeNumber(8, |xs|) + AllAudioBytes(xs)
  {
    AudiosEncode(xs);
  }

  // ---------- the calls as the handlers make them ----------

  /** When the flag is set, the bytes are those a receiver turns back into the packet. */
  method Serialize(packet: Packet) returns (data: Text, result: bool)
    ensures result <==> Archivable(packet)
    ensures result ==> data == SerializePacket(packet)
  {
    if !Archivable(packet) {
      return [], false;
    }
    ToValueFits(packet);
    data := Encode(ToValue(packet), SchemaOf(KindOf(packet)));
    result := true;
  }

  /** `result` reports whether the archive read a whole packet. */
  method Deserialize(kind: Kind, data: Text) returns (packet: Option<Packet>, result: bool)
    ensures packet == DeserializePacket(kind, data)
    ensures result <==> packet.Some?
  {
    var read := Decode(SchemaOf(kind), data);
    if read == None {
      return None, false;
    }
    DecodeSound(SchemaOf(kind), data);
    return Some(FromValue(kind, read.value.value)), true;
  }
}
