/** The wire protocol: the binary frame codec and the HELLO/AGREE negotiation. */
module Protocol {
  import opened Primitives

  const PROTOCOL_VERSION: u32 := 1
  const PROTOCOL_NAME := "httptunnel"
  const MAX_FRAME_SIZE := 64 * 1024
  const MAX_BODY_CHUNK := MAX_FRAME_SIZE - 128

  // --- Frame codec ---

  datatype MessageType =
    | Hello | Agree | Ping | Pong
    | ReqHeaders | ReqBody | ReqEnd
    | ResHeaders | ResBody | ResEnd
    | Error
  {
    /** The discriminant written on the wire. */
    function Tag(): byte {
      match this
      case Hello => 1
      case Agree => 2
      case Ping => 3
      case Pong => 4
      case ReqHeaders => 10
      case ReqBody => 11
      case ReqEnd => 12
      case ResHeaders => 20
      case ResBody => 21
      case ResEnd => 22
      case Error => 99
    }
  }

  function FromU8(v: byte): (r: Option<MessageType>)
    ensures r.Some? ==> r.value.Tag() == v
    ensures r.None? ==> forall t: MessageType :: t.Tag() != v
  {
    match v
    case 1 => Some(Hello)
    case 2 => Some(Agree)
    case 3 => Some(Ping)
    case 4 => Some(Pong)
    case 10 => Some(ReqHeaders)
    case 11 => Some(ReqBody)
    case 12 => Some(ReqEnd)
    case 20 => Some(ResHeaders)
    case 21 => Some(ResBody)
    case 22 => Some(ResEnd)
    case 99 => Some(Error)
    case _ => None
  }

  datatype TunnelMessage = TunnelMessage(msgType: MessageType, streamId: u32, payload: seq<byte>)

  datatype DecodeError = TooShort(len: nat) | UnknownType(tag: byte)

  /** Big-endian, as `put_u32` writes it. */
  function U32Bytes(v: u32): (b: seq<byte>)
    ensures |b| == 4
  {
    [v / 0x100_0000, v / 0x1_0000 % 256, v / 256 % 256, v % 256]
  }

  function U32Value(b: seq<byte>): u32
    requires |b| == 4
  {
    var b0: int, b1: int, b2: int, b3: int := b[0], b[1], b[2], b[3];
    ((b0 * 256 + b1) * 256 + b2) * 256 + b3
  }

  lemma U32RoundTrip(v: u32)
    ensures U32Value(U32Bytes(v)) == v
  {
    var n: int := v;
    var high, middle := n / 256, n / 256 / 256;
    assert n / 0x1_0000 == middle && n / 0x100_0000 == middle / 256;
    assert middle == middle / 256 * 256 + middle % 256;
    assert high == middle * 256 + high % 256;
    assert n == high * 256 + n % 256;
  }

  lemma LastByte(high: int, last: int)
    requires 0 <= last < 256
    ensures (high * 256 + last) / 256 == high && (high * 256 + last) % 256 == last
  {
  }

  lemma U32BytesOfValue(b: seq<byte>)
    requires |b| == 4
    ensures U32Bytes(U32Value(b)) == b
  {
    var b0: int, b1: int, b2: int, b3: int := b[0], b[1], b[2], b[3];
    LastByte(b0, b1);
    LastByte(b0 * 256 + b1, b2);
    LastByte((b0 * 256 + b1) * 256 + b2, b3);
    var n: int := U32Value(b);
    assert n / 0x1_0000 == n / 256 / 256 && n / 0x100_0000 == n / 256 / 256 / 256;
  }

  function Encode(m: TunnelMessage): seq<byte> {
    [m.msgType.Tag()] + U32Bytes(m.streamId) + m.payload
  }

  function Decode(data: seq<byte>): Result<TunnelMessage, DecodeError> {
    if |data| < 5 then Err(TooShort(|data|))
    else
      match FromU8(data[0])
      case None => Err(UnknownType(data[0]))
      case Some(t) => Ok(TunnelMessage(t, U32Value(data[1..5]), data[5..]))
  }

  /** `encode`: the buffer is filled field by field. */
  method EncodeMessage(m: TunnelMessage) returns (buf: seq<byte>)
    ensures Decode(buf) == Ok(m)
    ensures |buf| == 5 + |m.payload|
    ensures buf == Encode(m)
    ensures buf[0] == m.msgType.Tag() && buf[5..] == m.payload
    ensures Weighed(buf[1], buf[2], buf[3], buf[4]) == m.streamId
  {
    buf := [];
    buf := buf + [m.msgType.Tag()];
    buf := buf + U32Bytes(m.streamId);
    buf := buf + m.payload;
    DecodeEncode(m);
    assert buf[1..5] == U32Bytes(m.streamId);
    BigEndian(buf[1..5]);
    U32RoundTrip(m.streamId);
  }

  /** What four bytes are worth in network order: the first weighs most. */
  function Weighed(b0: int, b1: int, b2: int, b3: int): int {
    b0 * 0x100_0000 + b1 * 0x1_0000 + b2 * 0x100 + b3
  }

  lemma BigEndian(b: seq<byte>)
    requires |b| == 4
    ensures U32Value(b) == Weighed(b[0], b[1], b[2], b[3])
  {
  }

  /** `decode`: the buffer is advanced past each field once it is read. */
  method DecodeMessage(raw: seq<byte>) returns (r: Result<TunnelMessage, DecodeError>)
    ensures r == Decode(raw)
    ensures r.Ok? ==> Encode(r.value) == raw
    ensures r.Ok? ==> r.value.streamId == Weighed(raw[1], raw[2], raw[3], raw[4])
    ensures r.Err? <==> |raw| < 5 || forall t: MessageType :: t.Tag() != raw[0]
    ensures r.Err? ==> r.error == if |raw| < 5 then TooShort(|raw|) else UnknownType(raw[0])
  {
    if |raw| < 5 {
      return Err(TooShort(|raw|));
    }
    EncodeDecode(raw);
    var data := raw;
    var typeByte := data[0];
    var msgType := FromU8(typeByte);
    if msgType.None? {
      return Err(UnknownType(typeByte));
    }
    data := data[1..];
    var streamId := U32Value(data[..4]);
    assert data[..4] == raw[1..5];
    BigEndian(data[..4]);
    data := data[4..];
    return Ok(TunnelMessage(msgType.value, streamId, data));
  }

  lemma DecodeEncode(m: TunnelMessage)
    ensures Decode(Encode(m)) == Ok(m)
  {
    var b := Encode(m);
    assert b[1..5] == U32Bytes(m.streamId);
    assert b[5..] == m.payload;
    U32RoundTrip(m.streamId);
  }

  /** Decoding loses nothing, and rejects exactly what is too short or carries no listed tag. */
  lemma EncodeDecode(b: seq<byte>)
    ensures Decode(b).Ok? <==> |b| >= 5 && exists t: MessageType :: t.Tag() == b[0]
    ensures Decode(b).Ok? ==> Encode(Decode(b).value) == b
  {
    if Decode(b).Ok? {
      U32BytesOfValue(b[1..5]);
      assert b == [b[0]] + b[1..5] + b[5..];
    }
  }

  // --- Handshake ---

  // Field values are those of `Hello` and `Agree`; the wire form of both is JSON.
  datatype HelloInfo = HelloInfo(proto: string, minVersion: u32, maxVersion: u32, features: seq<string>)
  datatype AgreeInfo = AgreeInfo(version: u32, features: seq<string>)
  datatype HandshakeError = UnknownProtocol | NoCompatibleVersion

  const SUPPORTED := ["sse"]

  function NewHello(): HelloInfo {
    HelloInfo(PROTOCOL_NAME, 1, PROTOCOL_VERSION, SUPPORTED)
  }

  function SupportedFeatures(features: seq<string>): seq<string> {
    Filter((f: string) => f in SUPPORTED, features)
  }

  function FromHello(hello: HelloInfo): Result<AgreeInfo, HandshakeError> {
    if hello.proto != PROTOCOL_NAME then Err(UnknownProtocol)
    else
      var overlapMin := Max(hello.minVersion, 1);
      var overlapMax := Min(hello.maxVersion, PROTOCOL_VERSION);
      if overlapMin > overlapMax then Err(NoCompatibleVersion)
      else Ok(AgreeInfo(overlapMax, SupportedFeatures(hello.features)))
  }

  /** Both sides can speak version `v`. */
  ghost predicate Shared(hello: HelloInfo, v: u32) {
    hello.minVersion <= v <= hello.maxVersion && 1 <= v <= PROTOCOL_VERSION
  }

  /** Agreement is reached exactly when the name is ours and the ranges share a version, and on the greatest one
      shared. */
  lemma Negotiation(hello: HelloInfo)
    ensures FromHello(hello).Ok? <==> hello.proto == PROTOCOL_NAME && exists v: u32 :: Shared(hello, v)
    ensures FromHello(hello) == Err(UnknownProtocol) <==> hello.proto != PROTOCOL_NAME
    ensures FromHello(hello).Ok? ==>
              var agree := FromHello(hello).value;
              && Shared(hello, agree.version)
              && (forall v: u32 :: Shared(hello, v) ==> v <= agree.version)
              && (forall f :: multiset(agree.features)[f] == if f in SUPPORTED then multiset(hello.features)[f] else 0)
  {
    KeepsSupported(hello.features);
    if exists v: u32 :: Shared(hello, v) {
      var v: u32 :| Shared(hello, v);
      assert hello.proto == PROTOCOL_NAME ==> FromHello(hello).Ok?;
    }
    if FromHello(hello).Ok? {
      assert Shared(hello, FromHello(hello).value.version);
    }
  }

  /** Every supported feature survives as often as the peer listed it, and nothing else does. */
  lemma {:induction false} KeepsSupported(features: seq<string>)
    ensures forall f :: multiset(SupportedFeatures(features))[f] == if f in SUPPORTED then multiset(features)[f] else 0
  {
    if features != [] {
      var last := |features| - 1;
      KeepsSupported(features[..last]);
      assert features == features[..last] + [features[last]];
    }
  }

  /** Features keep the peer's order: those named first come first. */
  lemma {:induction false} KeepsOrder(first: seq<string>, rest: seq<string>)
    ensures SupportedFeatures(first + rest) == SupportedFeatures(first) + SupportedFeatures(rest)
  {
    if rest == [] {
      assert first + rest == first;
    } else {
      var front, last := rest[..|rest| - 1], rest[|rest| - 1];
      KeepsOrder(first, front);
      assert (first + rest)[..|first + rest| - 1] == first + front;
    }
  }
}
