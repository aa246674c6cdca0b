/** Decoded tunnel frames, with the JSON of header and handshake payloads already parsed. */
module Frames {
  import opened Primitives
  import P = Protocol

  datatype RequestHeaders =
    RequestHeaders(streamId: u32, httpMethod: string, path: string, headers: map<string, string>)
  datatype ResponseHeaders = ResponseHeaders(streamId: u32, status: nat, headers: map<string, string>)

  // A header frame carries the stream id twice: in the frame and in its payload.
  datatype Frame =
    | Hello(hello: P.HelloInfo)
    | Agree(agree: P.AgreeInfo)
    | Ping
    | Pong
    | ReqHeaders(streamId: u32, request: RequestHeaders)
    | ReqBody(streamId: u32, data: seq<byte>)
    | ReqEnd(streamId: u32)
    | ResHeaders(streamId: u32, response: ResponseHeaders)
    | ResBody(streamId: u32, data: seq<byte>)
    | ResEnd(streamId: u32)
    | Error(streamId: u32, text: seq<byte>)
  {
    predicate IsRequest() {
      ReqHeaders? || ReqBody? || ReqEnd?
    }

    predicate IsResponse() {
      ResHeaders? || ResBody? || ResEnd? || Error?
    }

    predicate BelongsTo(id: u32) {
      (IsRequest() || IsResponse()) && streamId == id
    }

    /** The two places a header frame names its stream agree. */
    predicate KeysAgree() {
      && (ReqHeaders? ==> request.streamId == streamId)
      && (ResHeaders? ==> response.streamId == streamId)
    }
  }

  /** `TunnelMessage::req_headers`. */
  function ReqHeadersFrame(request: RequestHeaders): Frame {
    ReqHeaders(request.streamId, request)
  }

  /** `TunnelMessage::res_headers`. */
  function ResHeadersFrame(response: ResponseHeaders): Frame {
    ResHeaders(response.streamId, response)
  }

  function OfStream(id: u32): Frame -> bool {
    (f: Frame) => f.BelongsTo(id)
  }

  const IsPing: Frame -> bool := (f: Frame) => f.Ping?
  const IsPong: Frame -> bool := (f: Frame) => f.Pong?

  /** The body bytes carried by a run of frames. */
  function BodyBytes(frames: seq<Frame>): seq<byte> {
    if frames == [] then []
    else
      var last := frames[|frames| - 1];
      BodyBytes(frames[..|frames| - 1]) + (if last.ReqBody? || last.ResBody? then last.data else [])
  }

  lemma BodyBytesAppend(frames: seq<Frame>, f: Frame)
    ensures BodyBytes(frames + [f]) == BodyBytes(frames) + (if f.ReqBody? || f.ResBody? then f.data else [])
  {
    assert (frames + [f])[..|frames|] == frames;
  }

  lemma BodyBytesNext(frames: seq<Frame>, n: nat)
    requires n < |frames|
    ensures BodyBytes(frames[..n + 1]) ==
            BodyBytes(frames[..n]) + (if frames[n].ReqBody? || frames[n].ResBody? then frames[n].data else [])
  {
    assert frames[..n + 1] == frames[..n] + [frames[n]];
    BodyBytesAppend(frames[..n], frames[n]);
  }

  lemma BodyBytesOne(f: Frame)
    ensures BodyBytes([f]) == if f.ReqBody? || f.ResBody? then f.data else []
  {
    BodyBytesAppend([], f);
    assert [] + [f] == [f];
  }

  lemma ConcatSnoc<T>(a: seq<T>, front: seq<T>, last: T)
    ensures a + (front + [last]) == (a + front) + [last]
  {
  }

  lemma {:induction false} BodyBytesConcat(a: seq<Frame>, b: seq<Frame>)
    ensures BodyBytes(a + b) == BodyBytes(a) + BodyBytes(b)
  {
    if b == [] {
      assert a + b == a;
    } else {
      var front, last := b[..|b| - 1], b[|b| - 1];
      assert b == front + [last];
      BodyBytesConcat(a, front);
      BodyBytesSnoc(a, front, last);
    }
  }

  lemma BodyBytesSnoc(a: seq<Frame>, front: seq<Frame>, last: Frame)
    requires BodyBytes(a + front) == BodyBytes(a) + BodyBytes(front)
    ensures BodyBytes(a + (front + [last])) == BodyBytes(a) + BodyBytes(front + [last])
  {
    ConcatSnoc(a, front, last);
    BodyBytesAppend(a + front, last);
    BodyBytesAppend(front, last);
  }

  /** A head before the body frames and an end after them carry no bytes. */
  lemma BodyBytesFramed(head: Frame, bodies: seq<Frame>, end: seq<Frame>)
    requires (head.ReqHeaders? || head.ResHeaders?) && |end| <= 1
    requires end != [] ==> end[0].ReqEnd? || end[0].ResEnd?
    ensures BodyBytes([head] + bodies + end) == BodyBytes(bodies)
  {
    BodyBytesOne(head);
    BodyBytesConcat([head], bodies);
    BodyBytesConcat([head] + bodies, end);
    if end != [] {
      BodyBytesOne(end[0]);
      assert end == [end[0]];
    }
  }

  lemma {:induction false} BodyBytesPrefix(frames: seq<Frame>, n: nat)
    requires n <= |frames|
    ensures BodyBytes(frames[..n]) <= BodyBytes(frames)
  {
    BodyBytesConcat(frames[..n], frames[n..]);
    assert frames == frames[..n] + frames[n..];
  }

  // --- The wire ---

  /** The JSON codec: one serializer and one parser for each type that travels as JSON. */
  datatype Json = Json(
    hello: P.HelloInfo -> seq<byte>, parseHello: seq<byte> -> Option<P.HelloInfo>,
    agree: P.AgreeInfo -> seq<byte>, parseAgree: seq<byte> -> Option<P.AgreeInfo>,
    request: RequestHeaders -> seq<byte>, parseRequest: seq<byte> -> Option<RequestHeaders>,
    response: ResponseHeaders -> seq<byte>, parseResponse: seq<byte> -> Option<ResponseHeaders>)
  {
    ghost predicate Lossless() {
      && (forall x :: parseHello(hello(x)) == Some(x))
      && (forall x :: parseAgree(agree(x)) == Some(x))
      && (forall x :: parseRequest(request(x)) == Some(x))
      && (forall x :: parseResponse(response(x)) == Some(x))
    }
  }

  function ToWire(json: Json, f: Frame): P.TunnelMessage {
    match f
    case Hello(hello) => P.TunnelMessage(P.Hello, 0, json.hello(hello))
    case Agree(agree) => P.TunnelMessage(P.Agree, 0, json.agree(agree))
    case Ping => P.TunnelMessage(P.Ping, 0, [])
    case Pong => P.TunnelMessage(P.Pong, 0, [])
    case ReqHeaders(id, request) => P.TunnelMessage(P.ReqHeaders, id, json.request(request))
    case ReqBody(id, data) => P.TunnelMessage(P.ReqBody, id, data)
    case ReqEnd(id) => P.TunnelMessage(P.ReqEnd, id, [])
    case ResHeaders(id, response) => P.TunnelMessage(P.ResHeaders, id, json.response(response))
    case ResBody(id, data) => P.TunnelMessage(P.ResBody, id, data)
    case ResEnd(id) => P.TunnelMessage(P.ResEnd, id, [])
    case Error(id, text) => P.TunnelMessage(P.Error, id, text)
  }

  function Parsed<T, U>(x: Option<T>, wrap: T -> U): Option<U> {
    match x
    case None => None
    case Some(v) => Some(wrap(v))
  }

  function FromWire(json: Json, m: P.TunnelMessage): Option<Frame> {
    match m.msgType
    case Hello => Parsed(json.parseHello(m.payload), x => Frame.Hello(x))
    case Agree => Parsed(json.parseAgree(m.payload), x => Frame.Agree(x))
    case Ping => Some(Frame.Ping)
    case Pong => Some(Frame.Pong)
    case ReqHeaders => Parsed(json.parseRequest(m.payload), x => Frame.ReqHeaders(m.streamId, x))
    case ReqBody => Some(Frame.ReqBody(m.streamId, m.payload))
    case ReqEnd => Some(Frame.ReqEnd(m.streamId))
    case ResHeaders => Parsed(json.parseResponse(m.payload), x => Frame.ResHeaders(m.streamId, x))
    case ResBody => Some(Frame.ResBody(m.streamId, m.payload))
    case ResEnd => Some(Frame.ResEnd(m.streamId))
    case Error => Some(Frame.Error(m.streamId, m.payload))
  }

  /** A channel of bytes carries frames unchanged, given a lossless JSON codec. */
  lemma WireIsTransparent(json: Json, f: Frame)
    requires json.Lossless()
    ensures var decoded := P.Decode(P.Encode(ToWire(json, f)));
            decoded.Ok? && FromWire(json, decoded.value) == Some(f)
  {
    P.DecodeEncode(ToWire(json, f));
  }
}
