/** The consumer side: request handlers, the response demultiplexer and the body forwarder. */
module Proxy {
  import opened Primitives
  import opened Frames
  import opened Chunking
  import P = Protocol

  datatype StreamEvent = Headers(response: ResponseHeaders) | Body(data: seq<byte>) | Failed(text: seq<byte>) | End
  {
    predicate Terminal() {
      Failed? || End?
    }
  }

  // --- Response reader ---

  datatype Delivery<C> = Delivery(channel: C, event: StreamEvent)
  datatype Demuxed<C> = Demuxed(pending: map<u32, C>, delivery: Option<Delivery<C>>)

  function Target<C>(pending: map<u32, C>, id: u32, event: StreamEvent): Option<Delivery<C>> {
    if id in pending then Some(Delivery(pending[id], event)) else None
  }

  /** One turn of the reader task: headers are looked up by the id in their payload, everything else by the frame's. */
  function Demux<C>(pending: map<u32, C>, f: Frame): Demuxed<C> {
    match f
    case ResHeaders(_, response) => Demuxed(pending, Target(pending, response.streamId, Headers(response)))
    case ResBody(id, data) => Demuxed(pending, Target(pending, id, Body(data)))
    case ResEnd(id) => Demuxed(pending - {id}, Target(pending, id, End))
    case Error(id, text) => Demuxed(pending - {id}, Target(pending, id, Failed(text)))
    case _ => Demuxed(pending, None)
  }

  // --- Request handler and forwarder ---

  /** What the HTTP client sends; `body` is `None` when reading it fails. */
  datatype HttpRequest =
    HttpRequest(httpMethod: string, path: string, headers: map<string, string>, body: Option<seq<byte>>)

  datatype Outcome =
    | BadRequest      // 400, the request body could not be read
    | SendFailed      // 502, the header frame could not be sent
    | TunnelError     // 502, the stream failed before its headers
    | TimedOut        // 504
    | EndTaken        // the forwarder took `End`
    | ErrorTaken      // the forwarder took an error
    | ClientGone      // the forwarder found the client's body channel closed
    | SenderDropped   // the forwarder's event channel closed without a terminal event
    | Cancelled       // the handler's future was dropped
  {
    /** The handler removed its own entry from the table before replying. */
    predicate Withdraws() {
      SendFailed? || TunnelError? || TimedOut?
    }
  }

  datatype Stage =
    | Collecting | Registering | SendingHeaders | SendingBody | SendingEnd
    | Awaiting | Removing(reply: Outcome) | Forwarding | Finished(outcome: Outcome)

  datatype Handler = Handler(
    id: u32,
    http: HttpRequest,
    stage: Stage,
    enrolled: bool,           // the handler has entered the table
    headersSent: bool,
    offset: nat,              // body bytes sent
    bodyCut: bool,            // a body send failed
    endSent: bool,
    events: seq<StreamEvent>, // everything the reader queued for this stream
    taken: nat,               // how many of them were received
    head: Option<ResponseHeaders>, // response headers handed to the client
    client: seq<byte>)        // body bytes handed to the client
  {
    function Request(): RequestHeaders {
      RequestHeaders(id, http.httpMethod, http.path, http.headers)
    }

    function Body(): seq<byte> {
      if http.body.Some? then http.body.value else []
    }

    /** The receiving half of the event channel still exists. */
    predicate Receiving() {
      !stage.Finished?
    }

    predicate Withdrawn() {
      stage.Finished? && stage.outcome.Withdraws()
    }

    /** A send into a closed channel is lost. */
    function Receive(e: StreamEvent): Handler {
      if Receiving() then this.(events := events + [e]) else this
    }
  }

  function NewHandler(id: u32, http: HttpRequest): Handler {
    Handler(id, http, Collecting, false, false, 0, false, false, [], 0, None, [])
  }

  /** Exactly the frames a handler has put on the wire. */
  function RequestFrames(h: Handler): seq<Frame>
    requires h.offset <= |h.Body()|
  {
    if !h.headersSent then []
    else
      [ReqHeadersFrame(h.Request())] + ReqBodies(h.id, Chunks(h.Body()[..h.offset]))
        + (if h.endSent then [ReqEnd(h.id)] else [])
  }

  datatype HandlerAct =
    | ReadBody
    | Register
    | SendHeaders(ok: bool)
    | SendBody(ok: bool)
    | SendEnd(ok: bool)
    | AwaitEvent
    | Timeout
    | Unregister
    | Forward(clientHere: bool)
    | Cancel

  datatype TableOp = Keep | Insert | Remove

  datatype Stepped = Stepped(handler: Handler, emitted: seq<Frame>, table: TableOp)

  /** `senderAlive`: the table still holds the sending half of this handler's event channel. */
  predicate HandlerEnabled(h: Handler, senderAlive: bool, act: HandlerAct) {
    match act
    case ReadBody => h.stage == Collecting
    case Register => h.stage == Registering
    case SendHeaders(_) => h.stage == SendingHeaders
    case SendBody(_) => h.stage == SendingBody && h.offset < |h.Body()|
    case SendEnd(_) => h.stage == SendingEnd
    case AwaitEvent => h.stage == Awaiting && (h.taken < |h.events| || !senderAlive)
    case Timeout => h.stage == Awaiting
    case Unregister => h.stage.Removing?
    case Forward(_) => h.stage == Forwarding && (h.taken < |h.events| || !senderAlive)
    case Cancel => !h.stage.Forwarding? && !h.stage.Finished?
  }

  function HandlerStep(h: Handler, senderAlive: bool, act: HandlerAct): Stepped
    requires HandlerEnabled(h, senderAlive, act)
  {
    match act
    case ReadBody =>
      Stepped(h.(stage := if h.http.body.Some? then Registering else Finished(BadRequest)), [], Keep)
    case Register =>
      Stepped(h.(stage := SendingHeaders, enrolled := true), [], Insert)
    case SendHeaders(ok) =>
      if !ok then Stepped(h.(stage := Removing(SendFailed)), [], Keep)
      else
        var next := if h.Body() != [] then SendingBody else SendingEnd;
        Stepped(h.(stage := next, headersSent := true), [ReqHeadersFrame(h.Request())], Keep)
    case SendBody(ok) =>
      if !ok then Stepped(h.(stage := SendingEnd, bodyCut := true), [], Keep)
      else
        var end := Min(h.offset + P.MAX_BODY_CHUNK, |h.Body()|);
        var next := if end < |h.Body()| then SendingBody else SendingEnd;
        Stepped(h.(stage := next, offset := end), [ReqBody(h.id, h.Body()[h.offset..end])], Keep)
    case SendEnd(ok) =>
      Stepped(h.(stage := Awaiting, endSent := ok), if ok then [ReqEnd(h.id)] else [], Keep)
    case AwaitEvent =>
      Stepped(AwaitNext(h), [], Keep)
    case Timeout =>
      Stepped(h.(stage := Removing(TimedOut)), [], Keep)
    case Unregister =>
      Stepped(h.(stage := Finished(h.stage.reply)), [], Remove)
    case Forward(clientHere) =>
      Stepped(ForwardNext(h, clientHere), [], Keep)
    case Cancel =>
      Stepped(h.(stage := Finished(Cancelled)), [], Keep)
  }

  function AwaitNext(h: Handler): Handler {
    if h.taken < |h.events| then
      var rest := h.(taken := h.taken + 1);
      match h.events[h.taken]
      case Headers(response) => rest.(stage := Forwarding, head := Some(response))
      case Failed(_) => rest.(stage := Removing(TunnelError))
      case End => rest.(stage := Removing(TunnelError))
      case Body(_) => rest
    else
      h.(stage := Removing(TunnelError))
  }

  function ForwardNext(h: Handler, clientHere: bool): Handler {
    if h.taken < |h.events| then
      var rest := h.(taken := h.taken + 1);
      match h.events[h.taken]
      case Body(data) =>
        if clientHere then rest.(client := h.client + data) else h.(stage := Finished(ClientGone))
      case End => rest.(stage := Finished(EndTaken))
      case Failed(_) => rest.(stage := Finished(ErrorTaken))
      case Headers(_) => rest
    else
      h.(stage := Finished(SenderDropped))
  }

  function Updated(pending: map<u32, nat>, table: TableOp, id: u32, key: nat): map<u32, nat> {
    match table
    case Keep => pending
    case Insert => pending[id := key]
    case Remove => pending - {id}
  }

  // --- Events of a run of response frames ---

  function EventOf(f: Frame): StreamEvent
    requires f.IsResponse()
  {
    match f
    case ResHeaders(_, response) => Headers(response)
    case ResBody(_, data) => Body(data)
    case ResEnd(_) => End
    case Error(_, text) => Failed(text)
  }

  predicate Terminated(events: seq<StreamEvent>) {
    events != [] && events[|events| - 1].Terminal()
  }

  /** What a registered stream is told by `frames`: nothing after the first terminal event. */
  function Events(frames: seq<Frame>): seq<StreamEvent> {
    if frames == [] then []
    else
      var last, before := frames[|frames| - 1], Events(frames[..|frames| - 1]);
      if Terminated(before) || !last.IsResponse() then before else before + [EventOf(last)]
  }

  lemma EventsAppend(frames: seq<Frame>, f: Frame)
    ensures Events(frames + [f]) ==
            if Terminated(Events(frames)) || !f.IsResponse() then Events(frames) else Events(frames) + [EventOf(f)]
  {
    assert (frames + [f])[..|frames|] == frames;
  }

  function EventBytes(events: seq<StreamEvent>): seq<byte> {
    if events == [] then []
    else
      var last := events[|events| - 1];
      EventBytes(events[..|events| - 1]) + (if last.Body? then last.data else [])
  }

  lemma EventBytesAppend(events: seq<StreamEvent>, e: StreamEvent)
    ensures EventBytes(events + [e]) == EventBytes(events) + (if e.Body? then e.data else [])
  {
    assert (events + [e])[..|events|] == events;
  }

  /** The bytes of the first `n` events. */
  function BytesUpTo(events: seq<StreamEvent>, n: nat): seq<byte>
    requires n <= |events|
  {
    if n == 0 then []
    else BytesUpTo(events, n - 1) + (if events[n - 1].Body? then events[n - 1].data else [])
  }

  lemma {:induction false} BytesUpToIs(events: seq<StreamEvent>, n: nat)
    requires n <= |events|
    ensures BytesUpTo(events, n) == EventBytes(events[..n])
  {
    if n > 0 {
      BytesUpToIs(events, n - 1);
      BytesTaken(events, n - 1);
    }
  }

  lemma BytesTaken(events: seq<StreamEvent>, n: nat)
    requires n < |events|
    ensures EventBytes(events[..n + 1]) == EventBytes(events[..n]) + (if events[n].Body? then events[n].data else [])
    ensures !events[n].Body? ==> EventBytes(events[..n + 1]) == EventBytes(events[..n])
  {
    assert events[..n + 1] == events[..n] + [events[n]];
    EventBytesAppend(events[..n], events[n]);
  }

  /** A prefix of `Headers Body* (Failed | End)`. */
  ghost predicate Grammatical(events: seq<StreamEvent>) {
    && (forall i :: 0 <= i < |events| ==> (events[i].Headers? <==> i == 0))
    && (forall i :: 0 <= i < |events| - 1 ==> !events[i].Terminal())
  }
}
