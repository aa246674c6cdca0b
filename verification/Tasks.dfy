/**
 * The loops and tables of both programs, in place. Each is proved against the function the tunnel's steps use, so one
 * step of the tunnel is one send, or one turn of a receive loop, of the code below.
 */
module Tasks {
  import opened Primitives
  import opened Frames
  import opened Proxy
  import opened Serve
  import opened Chunking
  import opened Projection
  import P = Protocol
  import T = Tunnel

  /** One side's end of the data channel. A send either queues its frame or fails; `failures` counts those that did. */
  class DataChannel {
    var sent: seq<Frame>
    var failures: nat

    constructor ()
      ensures sent == [] && failures == 0
    {
      sent, failures := [], 0;
    }

    method Send(f: Frame) returns (ok: bool)
      modifies this
      ensures sent == old(sent) + T.Sent(f, ok) && failures == old(failures) + Failure(ok)
    {
      ok := *;
      if ok {
        sent := sent + [f];
      } else {
        failures := failures + 1;
      }
    }
  }

  function Failure(ok: bool): nat {
    if ok then 0 else 1
  }

  /** A ping is answered by one pong, or by one failed send; nothing else is sent. */
  twostate predicate Ponged(dc: DataChannel, f: Frame)
    reads dc
  {
    if f.Ping? then
      exists ok :: dc.sent == old(dc.sent) + T.Sent(Pong, ok) && dc.failures == old(dc.failures) + Failure(ok)
    else dc.sent == old(dc.sent) && dc.failures == old(dc.failures)
  }

  // --- Proxy ---

  /** The event channel of one stream. */
  class EventChannel {
    var queue: seq<StreamEvent>
    var receiving: bool

    constructor ()
      ensures queue == [] && receiving
    {
      queue, receiving := [], true;
    }

    method Send(e: StreamEvent)
      modifies this`queue
      ensures queue == if receiving then old(queue) + [e] else old(queue)
    {
      if receiving {
        queue := queue + [e];
      }
    }
  }

  /** What the handlers of a proxy share: the id counter and the table of pending responses. */
  class Streams {
    var counter: u32
    var pending: map<u32, EventChannel>

    constructor ()
      ensures counter == 1 && pending == map[]
    {
      counter, pending := 1, map[];
    }

    /** `fetch_add` on a u32. */
    method Allocate() returns (id: u32)
      modifies this`counter
      ensures id == old(counter) && counter == (old(counter) + 1) % U32_RANGE
    {
      id := counter;
      counter := if counter == U32_RANGE - 1 then 0 else counter + 1;
    }

    method Register(id: u32) returns (channel: EventChannel)
      modifies this`pending
      ensures fresh(channel) && channel.queue == [] && channel.receiving
      ensures pending == old(pending)[id := channel]
    {
      channel := new EventChannel();
      pending := pending[id := channel];
    }

    method Forget(id: u32)
      modifies this`pending
      ensures pending == old(pending) - {id}
    {
      pending := pending - {id};
    }

    /** One turn of the response reader: exactly the channel the frame is for hears of it. */
    method OnFrame(f: Frame, dc: DataChannel)
      requires dc as object != this && forall id :: id in pending ==> pending[id] as object != dc as object
      modifies this`pending, pending.Values, dc
      ensures pending == Demux(old(pending), f).pending
      ensures forall c :: c in old(pending.Values) ==>
                c.receiving == old(c.receiving) &&
                var delivery := Demux(old(pending), f).delivery;
                c.queue == if delivery.Some? && delivery.value.channel == c && c.receiving
                           then old(c.queue) + [delivery.value.event] else old(c.queue)
      ensures Ponged(dc, f)
    {
      match f {
        case ResHeaders(_, response) =>
          if response.streamId in pending {
            pending[response.streamId].Send(Headers(response));
          }
        case ResBody(id, data) =>
          if id in pending {
            pending[id].Send(Body(data));
          }
        case ResEnd(id) =>
          if id in pending {
            var tx := pending[id];
            pending := pending - {id};
            tx.Send(End);
          } else {
            assert pending - {id} == pending;
          }
        case Error(id, text) =>
          if id in pending {
            var tx := pending[id];
            pending := pending - {id};
            tx.Send(Failed(text));
          } else {
            assert pending - {id} == pending;
          }
        case Ping =>
          var ok := dc.Send(Pong);
        case _ =>
      }
    }
  }

  /** The state of a handler that has put `h`'s request on the wire as far as the out-parameters say. */
  function Advanced(h: Handler, headersSent: bool, offset: nat, endSent: bool): Handler {
    h.(headersSent := headersSent, offset := offset, endSent := endSent)
  }

  /** The send loop over the collected request body. */
  method SendBody(dc: DataChannel, id: u32, body: seq<byte>) returns (offset: nat, bodyCut: bool)
    modifies dc
    ensures offset <= |body| && dc.sent == old(dc.sent) + ReqBodies(id, Chunks(body[..offset]))
    ensures dc.failures == old(dc.failures) + Failure(!bodyCut)
    ensures if bodyCut then offset < |body| && offset % P.MAX_BODY_CHUNK == 0 else offset == |body|
  {
    ghost var base := dc.sent;
    offset, bodyCut := 0, false;
    assert ReqBodies(id, Chunks(body[..0])) == [];
    while offset < |body|
      invariant offset <= |body| && (offset % P.MAX_BODY_CHUNK == 0 || offset == |body|)
      invariant dc.sent == base + ReqBodies(id, Chunks(body[..offset])) && dc.failures == old(dc.failures)
    {
      var end := Min(offset + P.MAX_BODY_CHUNK, |body|);
      ChunksStep(body, offset, end);
      var ok := dc.Send(ReqBody(id, body[offset..end]));
      if !ok {
        return offset, true;
      }
      assert ReqBodies(id, Chunks(body[..end])) == ReqBodies(id,
             Chunks(body[..offset])) + [ReqBody(id, body[offset..end])];
      offset := end;
    }
  }

  /** The sending half of `handle_proxy_request`: a failed body send cuts the body short, the end is tried
      regardless. */
  method SendRequest(dc: DataChannel, h: Handler) returns (headersSent: bool, offset: nat, bodyCut: bool, endSent: bool)
    modifies dc
    ensures offset <= |h.Body()|
    ensures dc.sent == old(dc.sent) + RequestFrames(Advanced(h, headersSent, offset, endSent))
    ensures headersSent ==>
              if bodyCut then offset < |h.Body()| && offset % P.MAX_BODY_CHUNK == 0 else offset == |h.Body()|
    ensures !headersSent ==> !bodyCut && !endSent && dc.failures == old(dc.failures) + 1
    ensures headersSent ==> dc.failures == old(dc.failures) + Failure(!bodyCut) + Failure(endSent)
  {
    ghost var base := dc.sent;
    offset, bodyCut, endSent := 0, false, false;
    headersSent := dc.Send(ReqHeadersFrame(h.Request()));
    if !headersSent {
      return;
    }
    offset, bodyCut := SendBody(dc, h.id, h.Body());
    endSent := dc.Send(ReqEnd(h.id));
    InOrder(h, offset, endSent, base);
  }

  /**
   * `handle_proxy_request` up to the wait for headers: an id is taken first, and a request whose body cannot be read
   * goes no further; the entry is made before anything is sent, and unmade if the headers cannot be.
   */
  method Begin(streams: Streams, dc: DataChannel, http: HttpRequest)
    returns (h: Handler, channel: EventChannel?, reply: Option<Outcome>)
    modifies streams, dc
    ensures streams.counter == (old(streams.counter) + 1) % U32_RANGE
    ensures h.id == old(streams.counter) && h.http == http && h.offset <= |h.Body()|
    ensures dc.sent == old(dc.sent) + RequestFrames(h)
    ensures reply == Some(BadRequest) <==> http.body.None?
    ensures reply == Some(SendFailed) <==> http.body.Some? && !h.headersSent
    ensures reply == None <==> h.headersSent
    ensures match reply
            case None =>
              && channel != null && channel.queue == [] && channel.receiving
              && streams.pending == old(streams.pending)[h.id := channel]
            case Some(SendFailed) => streams.pending == old(streams.pending) - {h.id}
            case Some(_) => streams.pending == old(streams.pending) && !h.headersSent
  {
    var id := streams.Allocate();
    h, channel := NewHandler(id, http), null;
    if http.body.None? {
      return h, null, Some(BadRequest);
    }
    channel := streams.Register(id);
    var headersSent, offset, bodyCut, endSent := SendRequest(dc, h);
    h := Advanced(h, headersSent, offset, endSent);
    if !headersSent {
      streams.Forget(id);
      return h, null, Some(SendFailed);
    }
    reply := None;
  }

  lemma InOrder(h: Handler, offset: nat, endSent: bool, base: seq<Frame>)
    requires offset <= |h.Body()|
    ensures var bodies := ReqBodies(h.id, Chunks(h.Body()[..offset]));
            base + [ReqHeadersFrame(h.Request())] + bodies + T.Sent(ReqEnd(h.id), endSent) ==
            base + RequestFrames(Advanced(h, true, offset, endSent))
  {
    var h', bodies := Advanced(h, true, offset, endSent), ReqBodies(h.id, Chunks(h.Body()[..offset]));
    assert h'.Body() == h.Body() && h'.Request() == h.Request();
    assert RequestFrames(h') == [ReqHeadersFrame(h.Request())] + bodies + T.Sent(ReqEnd(h.id), endSent);
  }

  /** The HTTP client's end of a streaming response body. The client may leave at any moment, and does not come back. */
  class BodyChannel {
    var handed: seq<byte>
    var open: bool

    method Send(data: seq<byte>) returns (ok: bool)
      modifies this
      ensures ok == open && (open ==> old(open)) && handed == if open then old(handed) + data else old(handed)
    {
      if open {
        open := *;
      }
      ok := open;
      if open {
        handed := handed + data;
      }
    }
  }

  /** The handler after `n` of its steps that ask for the next event. */
  function Awaits(h: Handler, n: nat): Handler {
    if n == 0 then h else AwaitNext(Awaits(h, n - 1))
  }

  ghost predicate AllBodies(events: seq<StreamEvent>, n: nat)
    requires n <= |events|
  {
    forall i :: 0 <= i < n ==> events[i].Body?
  }

  /** How the wait for headers ends: at the first event that is not a body, or with the channel closed before any. */
  ghost predicate WaitEnds(events: seq<StreamEvent>, taken: nat, head: Option<ResponseHeaders>) {
    if AllBodies(events, |events|) then taken == |events| && head == None
    else
      && 0 < taken <= |events| && AllBodies(events, taken - 1) && !events[taken - 1].Body?
      && head == if events[taken - 1].Headers? then Some(events[taken - 1].response) else None
  }

  /** The wait for response headers, over the events that arrive until its channel closes. */
  method AwaitHeaders(events: seq<StreamEvent>) returns (taken: nat, head: Option<ResponseHeaders>)
    ensures WaitEnds(events, taken, head)
  {
    taken := 0;
    while taken < |events|
      invariant taken <= |events| && AllBodies(events, taken)
    {
      match events[taken] {
        case Headers(response) => return taken + 1, Some(response);
        case Failed(_) => return taken + 1, None;
        case End => return taken + 1, None;
        case Body(_) =>
      }
      taken := taken + 1;
    }
    head := None;
  }

  lemma {:induction false} BodiesAreSkipped(h: Handler, n: nat)
    requires h.stage == Awaiting && h.taken == 0 && n <= |h.events| && AllBodies(h.events, n)
    ensures Awaits(h, n) == h.(taken := n)
  {
    if n > 0 {
      BodiesAreSkipped(h, n - 1);
    }
  }

  lemma WaitIsOver(h: Handler, head: Option<ResponseHeaders>)
    requires h.stage == Awaiting
    requires if h.taken < |h.events|
             then
               && !h.events[h.taken].Body?
               && head == if h.events[h.taken].Headers? then Some(h.events[h.taken].response) else None
             else head == None
    ensures AwaitNext(h) ==
            var rest := h.(taken := if h.taken < |h.events| then h.taken + 1 else h.taken);
            if head.Some? then rest.(stage := Forwarding, head := head) else rest.(stage := Removing(TunnelError))
  {
  }

  /** Each turn of the loop is one step of the tunnel: together they leave the handler where the loop's result
      puts it. */
  lemma WaitTakesSteps(h: Handler, taken: nat, head: Option<ResponseHeaders>)
    requires h.stage == Awaiting && h.taken == 0 && WaitEnds(h.events, taken, head)
    ensures var n := if AllBodies(h.events, |h.events|) then taken else taken - 1;
            && n >= 0
            && Awaits(h, n) == h.(taken := n)
            && AwaitNext(Awaits(h, n)) ==
               if head.Some? then h.(taken := taken, stage := Forwarding, head := head)
               else h.(taken := taken, stage := Removing(TunnelError))
  {
    var n := if AllBodies(h.events, |h.events|) then taken else taken - 1;
    BodiesAreSkipped(h, n);
    WaitIsOver(h.(taken := n), head);
  }

  ghost predicate Passed(events: seq<StreamEvent>, from: nat, n: nat)
    requires n <= |events|
  {
    forall i :: from <= i < n ==> !events[i].Terminal()
  }

  /** How forwarding ends, having started with event `from`. */
  ghost predicate ForwardEnds(events: seq<StreamEvent>, from: nat, taken: nat, outcome: Outcome) {
    && from <= taken <= |events|
    && match outcome
       case EndTaken => from < taken && events[taken - 1] == End && Passed(events, from, taken - 1)
       case ErrorTaken => from < taken && events[taken - 1].Failed? && Passed(events, from, taken - 1)
       case ClientGone => taken < |events| && events[taken].Body? && Passed(events, from, taken)
       case SenderDropped => taken == |events| && Passed(events, from, taken)
       case _ => false
  }

  /** The forwarder task, from event `from` on until its channel closes. */
  method Forwarder(events: seq<StreamEvent>, from: nat, body: BodyChannel) returns (taken: nat, outcome: Outcome)
    requires from <= |events| && body.handed == BytesUpTo(events, from)
    modifies body
    ensures ForwardEnds(events, from, taken, outcome) && (outcome == ClientGone ==> !body.open)
    ensures body.handed == BytesUpTo(events, taken)
    ensures !old(body.open) ==> body.handed == old(body.handed)
  {
    taken := from;
    while taken < |events|
      invariant from <= taken <= |events| && Passed(events, from, taken) && (body.open ==> old(body.open))
      invariant body.handed == BytesUpTo(events, taken) && (!old(body.open) ==> body.handed == old(body.handed))
    {
      match events[taken] {
        case Body(chunk) =>
          var ok := body.Send(chunk);
          if !ok {
            return taken, ClientGone;
          }
        case End =>
          return taken + 1, EndTaken;
        case Failed(_) =>
          return taken + 1, ErrorTaken;
        case Headers(_) =>
      }
      taken := taken + 1;
    }
    outcome := SenderDropped;
  }

  /** The client has been handed what was taken so far. */
  ghost predicate HandedOn(h: Handler) {
    h.stage == Forwarding && h.taken <= |h.events| && h.client == EventBytes(h.events[..h.taken])
  }

  /** The handler once it has taken and handed on the events before `to`. */
  function HandedTo(h: Handler, to: nat): Handler
    requires to <= |h.events|
  {
    h.(taken := to, client := EventBytes(h.events[..to]))
  }

  lemma TurnPasses(h: Handler)
    requires HandedOn(h) && h.taken < |h.events| && !h.events[h.taken].Terminal()
    ensures ForwardNext(h, true) == HandedTo(h, h.taken + 1)
  {
    BytesTaken(h.events, h.taken);
  }

  lemma TurnPassesAt(h: Handler, at: nat)
    requires h.stage == Forwarding && at < |h.events| && !h.events[at].Terminal()
    ensures ForwardNext(HandedTo(h, at), true) == HandedTo(h, at + 1)
  {
    TurnPasses(HandedTo(h, at));
  }

  /** The event before which the last turn starts. */
  function LastEvent(taken: nat, outcome: Outcome): int {
    if outcome == EndTaken || outcome == ErrorTaken then taken - 1 else taken
  }

  lemma PassedBeforeLast(events: seq<StreamEvent>, from: nat, taken: nat, outcome: Outcome)
    requires ForwardEnds(events, from, taken, outcome)
    ensures var at := LastEvent(taken, outcome);
            from <= at <= taken && Passed(events, from, at) && ForwardEnds(events, at, taken, outcome)
  {
  }

  lemma LastTurn(h: Handler, taken: nat, outcome: Outcome)
    requires HandedOn(h) && h.taken == LastEvent(taken, outcome) && ForwardEnds(h.events, h.taken, taken, outcome)
    ensures ForwardNext(h, outcome != ClientGone) == HandedTo(h, taken).(stage := Finished(outcome))
  {
    if taken == h.taken + 1 {
      BytesTaken(h.events, h.taken);
    }
  }

  /**
   * Each turn of the loop is one step of the tunnel, from the handler as it is to the handler as the loop leaves it; a
   * client that leaves in between is gone at the last.
   */
  lemma ForwarderTakesSteps(h: Handler, taken: nat, outcome: Outcome)
    requires HandedOn(h) && ForwardEnds(h.events, h.taken, taken, outcome)
    ensures HandedTo(h, h.taken) == h && h.taken <= LastEvent(taken, outcome) <= taken
    ensures HandedTo(h, taken).client == BytesUpTo(h.events, taken)
    ensures forall k: nat :: h.taken <= k < LastEvent(taken, outcome) ==>
              ForwardNext(HandedTo(h, k), true) == HandedTo(h, k + 1)
    ensures ForwardNext(HandedTo(h, LastEvent(taken, outcome)), outcome != ClientGone) ==
            HandedTo(h, taken).(stage := Finished(outcome))
  {
    PassedBeforeLast(h.events, h.taken, taken, outcome);
    BytesUpToIs(h.events, taken);
    forall k: nat | h.taken <= k < LastEvent(taken, outcome)
      ensures ForwardNext(HandedTo(h, k), true) == HandedTo(h, k + 1)
    {
      TurnPassesAt(h, k);
    }
    LastTurnAt(h, LastEvent(taken, outcome), taken, outcome);
  }

  lemma LastTurnAt(h: Handler, at: nat, taken: nat, outcome: Outcome)
    requires h.stage == Forwarding && at == LastEvent(taken, outcome) && ForwardEnds(h.events, at, taken, outcome)
    ensures ForwardNext(HandedTo(h, at), outcome != ClientGone) == HandedTo(h, taken).(stage := Finished(outcome))
  {
    LastTurn(HandedTo(h, at), taken, outcome);
  }

  // --- Serve ---

  datatype Batch = Batch(partials: map<u32, Request>, dispatched: seq<Request>)

  function Turn(b: Batch, f: Frame): Batch {
    var r := Reassemble(b.partials, f);
    Batch(r.partials, b.dispatched + (if r.dispatched.Some? then [r.dispatched.value] else []))
  }

  /** The serve loop over a whole sequence of frames. */
  function ReassembleAll(partials: map<u32, Request>, frames: seq<Frame>): Batch {
    if frames == [] then Batch(partials, [])
    else Turn(ReassembleAll(partials, frames[..|frames| - 1]), frames[|frames| - 1])
  }

  ghost predicate OnlyPongs(before: seq<Frame>, after: seq<Frame>) {
    before <= after && forall i :: |before| <= i < |after| ==> after[i] == Pong
  }

  /** Serve's loop state: incomplete requests, and the ones handed to spawned handlers. */
  class ServeLoop {
    var partials: map<u32, Request>
    var dispatched: seq<Request>

    constructor ()
      ensures partials == map[] && dispatched == []
    {
      partials, dispatched := map[], [];
    }

    method OnFrame(f: Frame, dc: DataChannel)
      requires dc as object != this
      modifies this, dc
      ensures var r := Reassemble(old(partials), f);
              && partials == r.partials
              && dispatched == old(dispatched) + (if r.dispatched.Some? then [r.dispatched.value] else [])
      ensures Ponged(dc, f)
    {
      match f {
        case ReqHeaders(_, headers) =>
          partials := partials[headers.streamId := Request(headers, [])];
        case ReqBody(id, data) =>
          if id in partials {
            partials := partials[id := partials[id].(body := partials[id].body + data)];
          }
        case ReqEnd(id) =>
          if id in partials {
            dispatched := dispatched + [partials[id]];
            partials := partials - {id};
          }
        case Ping =>
          var ok := dc.Send(Pong);
        case _ =>
      }
    }

    method Run(incoming: seq<Frame>, dc: DataChannel)
      requires dc as object != this
      modifies this, dc
      ensures partials == ReassembleAll(old(partials), incoming).partials
      ensures dispatched == old(dispatched) + ReassembleAll(old(partials), incoming).dispatched
      ensures OnlyPongs(old(dc.sent), dc.sent)
      ensures |dc.sent| + dc.failures == |old(dc.sent)| + old(dc.failures) + |Filter(IsPing, incoming)|
    {
      var i := 0;
      while i < |incoming|
        invariant i <= |incoming|
        invariant partials == ReassembleAll(old(partials), incoming[..i]).partials
        invariant dispatched == old(dispatched) + ReassembleAll(old(partials), incoming[..i]).dispatched
        invariant OnlyPongs(old(dc.sent), dc.sent)
        invariant |dc.sent| + dc.failures == |old(dc.sent)| + old(dc.failures) + |Filter(IsPing, incoming[..i])|
      {
        OnFrame(incoming[i], dc);
        assert incoming[..i + 1][..i] == incoming[..i];
        i := i + 1;
      }
      assert incoming[..i] == incoming;
    }
  }

  /** The response went out whole, or up to its first failing send. */
  ghost predicate SentPlan(before: seq<Frame>, after: seq<Frame>, id: u32, u: Upstream, completed: bool) {
    if completed then !u.BadMethod? && after == before + Plan(id, u)
    else if u.BadMethod? then after == before
    else exists n :: 0 <= n < |Plan(id, u)| && after == before + Plan(id, u)[..n]
  }

  /** The rest of `handle_request` once upstream's answer is known: the plan in order, up to the first failing send. */
  method HandleRequest(dc: DataChannel, id: u32, u: Upstream) returns (completed: bool)
    modifies dc
    ensures SentPlan(old(dc.sent), dc.sent, id, u, completed)
    ensures |dc.sent| > |old(dc.sent)| ==>
              dc.sent[|old(dc.sent)|].ResHeaders? && IsHead(dc.sent[|old(dc.sent)|].response, id, u)
    ensures dc.failures == old(dc.failures) + Failure(completed || u.BadMethod?)
  {
    match u {
      case BadMethod => completed := false;
      case Unreachable(error) => completed := BadGateway(dc, id, error);
      case Responded(_, _, _) => completed := Respond(dc, id, u);
    }
    if |dc.sent| > |old(dc.sent)| {
      SentHeadFirst(old(dc.sent), dc.sent, id, u, completed);
    }
  }

  lemma SentHeadFirst(before: seq<Frame>, after: seq<Frame>, id: u32, u: Upstream, completed: bool)
    requires SentPlan(before, after, id, u, completed) && |after| > |before|
    ensures after[|before|].ResHeaders? && IsHead(after[|before|].response, id, u)
  {
    PlanIsShaped(id, u);
    assert after[|before|] == Plan(id, u)[0];
  }

  /** Upstream's own response: its head, its body as it comes, the end. */
  method Respond(dc: DataChannel, id: u32, u: Upstream) returns (completed: bool)
    requires u.Responded?
    modifies dc
    ensures SentPlan(old(dc.sent), dc.sent, id, u, completed)
    ensures dc.failures == old(dc.failures) + Failure(completed)
  {
    ghost var base, plan, n: nat := dc.sent, Plan(id, u), 0;
    assert plan[..0] == [];
    completed := dc.Send(ResHeadersFrame(ResponseHead(id, u)));
    if !completed {
      return;
    }
    assert plan[..1] == [plan[0]] && plan[1..] == BodyPlan(id, u) + [ResEnd(id)];
    completed, n := StreamBody(dc, id, u.items, base, plan, 1);
    if !completed {
      return;
    }
    assert plan[..n] + [ResEnd(id)] == plan;
    completed := dc.Send(ResEnd(id));
  }

  /** The synthetic response when upstream cannot be reached. */
  method BadGateway(dc: DataChannel, id: u32, error: seq<byte>) returns (ok: bool)
    modifies dc
    ensures SentPlan(old(dc.sent), dc.sent, id, Unreachable(error), ok) && dc.failures == old(dc.failures) + Failure(ok)
  {
    ghost var plan := Plan(id, Unreachable(error));
    assert plan == [plan[0], ResBody(id, BAD_GATEWAY + error), ResEnd(id)];
    assert plan[..0] == [] && plan[..1] == [plan[0]] && plan[..2] == [plan[0], plan[1]];
    ok := dc.Send(ResHeadersFrame(ResponseHeaders(id, 502, PLAIN_TEXT)));
    if !ok {
      return;
    }
    ok := dc.Send(ResBody(id, BAD_GATEWAY + error));
    if !ok {
      return;
    }
    ok := dc.Send(ResEnd(id));
  }

  /** The inner loop: one upstream chunk, cut to size. `n` of `plan` are out, and the rest starts with this chunk. */
  method SendChunk(dc: DataChannel, id: u32, chunk: seq<byte>, ghost base: seq<Frame>, ghost plan: seq<Frame>,
      ghost from: nat, ghost after: seq<Frame>)
    returns (ok: bool, ghost n: nat)
    requires from <= |plan| && dc.sent == base + plan[..from]
    requires plan[from..] == ResBodies(id, Chunks(chunk)) + after && after != []
    modifies dc
    ensures n < |plan| && dc.sent == base + plan[..n] && dc.failures == old(dc.failures) + Failure(ok)
    ensures ok ==> plan[n..] == after
  {
    n := from;
    var offset := 0;
    assert chunk[0..] == chunk;
    while offset < |chunk|
      invariant offset <= |chunk| && n <= |plan| && dc.sent == base + plan[..n] && dc.failures == old(dc.failures)
      invariant plan[n..] == ResBodies(id, Chunks(chunk[offset..])) + after
    {
      var end := Min(offset + P.MAX_BODY_CHUNK, |chunk|);
      ChunkNext(plan, n, id, chunk, offset, end, after);
      ok := dc.Send(ResBody(id, chunk[offset..end]));
      if !ok {
        return;
      }
      n := n + 1;
      offset := end;
    }
    assert ResBodies(id, Chunks(chunk[offset..])) + after == after;
    ok := true;
  }

  /** The next frame of the plan is the next slice of the chunk, and the rest of the plan starts after it. */
  lemma ChunkNext(plan: seq<Frame>, n: nat, id: u32, chunk: seq<byte>, offset: nat, end: nat, after: seq<Frame>)
    requires offset < |chunk| && end == Min(offset + P.MAX_BODY_CHUNK, |chunk|)
    requires n <= |plan| && plan[n..] == ResBodies(id, Chunks(chunk[offset..])) + after
    ensures n < |plan| && plan[..n + 1] == plan[..n] + [ResBody(id, chunk[offset..end])]
    ensures plan[n + 1..] == ResBodies(id, Chunks(chunk[end..])) + after
  {
    NextBody(id, chunk, offset, end);
    assert plan[n..] == [ResBody(id, chunk[offset..end])] + (ResBodies(id, Chunks(chunk[end..])) + after);
    PlanNext(plan, n);
  }

  /** The loop over upstream's chunks: `n` of `plan` are out, and the rest starts with this body. */
  method StreamBody(dc: DataChannel, id: u32, items: seq<Item>, ghost base: seq<Frame>, ghost plan: seq<Frame>,
      ghost from: nat)
    returns (ok: bool, ghost n: nat)
    requires from <= |plan| && dc.sent == base + plan[..from]
    requires plan[from..] == ItemFrames(id, items) + [ResEnd(id)]
    modifies dc
    ensures n < |plan| && dc.sent == base + plan[..n] && dc.failures == old(dc.failures) + Failure(ok)
    ensures ok ==> plan[n..] == [ResEnd(id)]
  {
    n := from;
    var k := 0;
    while k < |items|
      invariant k <= |items| && n <= |plan| && dc.sent == base + plan[..n] && dc.failures == old(dc.failures)
      invariant plan[n..] == ItemFrames(id, items[k..]) + [ResEnd(id)]
    {
      assert items[k..][1..] == items[k + 1..];
      match items[k] {
        case Chunk(chunk) =>
          ghost var after := ItemFrames(id, items[k + 1..]) + [ResEnd(id)];
          assert plan[n..] == ResBodies(id, Chunks(chunk)) + after;
          ok, n := SendChunk(dc, id, chunk, base, plan, n, after);
          if !ok {
            return;
          }
        case Broken(error) =>
          PlanNext(plan, n);
          ok := dc.Send(Error(id, UPSTREAM_ERROR + error));
          if !ok {
            return;
          }
          n := n + 1;
          return;
      }
      k := k + 1;
    }
    assert ItemFrames(id, items[k..]) + [ResEnd(id)] == [ResEnd(id)];
    ok := true;
  }

  lemma PlanNext(plan: seq<Frame>, n: nat)
    requires n < |plan|
    ensures plan[n] == plan[n..][0] && plan[..n + 1] == plan[..n] + [plan[n]] && plan[n + 1..] == plan[n..][1..]
  {
  }

  /** The first body frame of what is left of a chunk, and the rest. */
  lemma NextBody(id: u32, chunk: seq<byte>, offset: nat, end: nat)
    requires offset < |chunk| && end == Min(offset + P.MAX_BODY_CHUNK, |chunk|)
    ensures ResBodies(id, Chunks(chunk[offset..])) ==
            [ResBody(id, chunk[offset..end])] + ResBodies(id, Chunks(chunk[end..]))
  {
    var rest, size := chunk[offset..], end - offset;
    assert rest[..size] == chunk[offset..end] && rest[size..] == chunk[end..];
  }

  lemma ReassembleNext(partials: map<u32, Request>, frames: seq<Frame>, f: Frame)
    ensures ReassembleAll(partials, frames + [f]) == Turn(ReassembleAll(partials, frames), f)
  {
    assert (frames + [f])[..|frames|] == frames;
  }

  lemma BodyGathers(partials: map<u32, Request>, r: Request, f: Frame)
    requires f.ReqBody? && f.streamId == r.headers.streamId
    ensures Turn(Batch(partials[f.streamId := r], []), f) ==
            Batch(partials[f.streamId := Request(r.headers, r.body + f.data)], [])
  {
  }

  /** Whatever the table holds, headers followed by bodies of their stream make up exactly that request, an older one
      under the same id notwithstanding. */
  lemma {:induction false} BodiesGather(partials: map<u32, Request>, headers: RequestHeaders, bodies: seq<Frame>)
    requires forall f :: f in bodies ==> f.ReqBody? && f.streamId == headers.streamId
    ensures ReassembleAll(partials, [ReqHeadersFrame(headers)] + bodies) ==
            Batch(partials[headers.streamId := Request(headers, BodyBytes(bodies))], [])
  {
    var first := ReqHeadersFrame(headers);
    if bodies == [] {
      assert [first] + bodies == [] + [first];
      HeadersStart(partials, headers);
    } else {
      var front, last := bodies[..|bodies| - 1], bodies[|bodies| - 1];
      assert bodies == front + [last];
      BodiesGather(partials, headers, front);
      ConcatSnoc([first], front, last);
      BodyBytesAppend(front, last);
      OneMoreBody(partials, [first] + front, Request(headers, BodyBytes(front)), last);
    }
  }

  lemma HeadersStart(partials: map<u32, Request>, headers: RequestHeaders)
    ensures ReassembleAll(partials, [] + [ReqHeadersFrame(headers)]) ==
            Batch(partials[headers.streamId := Request(headers, [])], [])
  {
    ReassembleNext(partials, [], ReqHeadersFrame(headers));
  }

  lemma OneMoreBody(partials: map<u32, Request>, frames: seq<Frame>, r: Request, f: Frame)
    requires f.ReqBody? && f.streamId == r.headers.streamId
    requires ReassembleAll(partials, frames) == Batch(partials[f.streamId := r], [])
    ensures ReassembleAll(partials, frames + [f]) ==
            Batch(partials[f.streamId := Request(r.headers, r.body + f.data)], [])
  {
    ReassembleNext(partials, frames, f);
    BodyGathers(partials, r, f);
  }

  /** And the end of the stream dispatches it, once, and leaves nothing of it. */
  lemma RequestIsDispatched(partials: map<u32, Request>, headers: RequestHeaders, bodies: seq<Frame>)
    requires forall f :: f in bodies ==> f.ReqBody? && f.streamId == headers.streamId
    ensures ReassembleAll(partials, [ReqHeadersFrame(headers)] + bodies + [ReqEnd(headers.streamId)]) ==
            Batch(partials - {headers.streamId}, [Request(headers, BodyBytes(bodies))])
  {
    BodiesGather(partials, headers, bodies);
    ReassembleNext(partials, [ReqHeadersFrame(headers)] + bodies, ReqEnd(headers.streamId));
  }

  /** Bodies and ends of a stream without headers do nothing. */
  lemma StrayIsIgnored(b: Batch, f: Frame)
    requires (f.ReqBody? || f.ReqEnd?) && f.streamId !in b.partials
    ensures Turn(b, f) == b
  {
  }

  function OfRequest(id: u32): Request -> bool {
    (r: Request) => r.headers.streamId == id
  }

  /** `own` is what `all` holds for stream `id`. */
  ghost predicate Apart(all: Batch, own: Batch, id: u32) {
    && T.Filed(all.partials)
    && Restrict(all.partials, id) == own.partials
    && Filter(OfRequest(id), all.dispatched) == own.dispatched
  }

  lemma DispatchKeepsApart(dispatched: seq<Request>, r: Option<Request>, id: u32)
    ensures Filter(OfRequest(id), dispatched + (if r.Some? then [r.value] else [])) ==
            Filter(OfRequest(id), dispatched) +
            (if r.Some? && r.value.headers.streamId == id then [r.value] else [])
  {
    if r.Some? {
      FilterAppend(OfRequest(id), dispatched, r.value);
    } else {
      assert dispatched + [] == dispatched;
    }
  }

  lemma DispatchIsOwn(partials: map<u32, Request>, f: Frame)
    requires T.Filed(partials) && f.KeysAgree()
    ensures var r := Reassemble(partials, f);
            T.Filed(r.partials) && (r.dispatched.Some? ==> f.BelongsTo(r.dispatched.value.headers.streamId))
  {
  }

  lemma TurnKeepsApart(all: Batch, own: Batch, f: Frame, id: u32)
    requires Apart(all, own, id) && f.KeysAgree() && !f.IsResponse()
    ensures Apart(Turn(all, f), if f.BelongsTo(id) then Turn(own, f) else own, id)
  {
    var r := Reassemble(all.partials, f);
    ReassembleRestricts(all.partials, f, id);
    DispatchIsOwn(all.partials, f);
    DispatchKeepsApart(all.dispatched, r.dispatched, id);
    assert own.dispatched + [] == own.dispatched;
  }

  /** However the frames of other streams are interleaved, a stream's requests come out as if it were alone. */
  lemma {:induction false} InterleavingIsInvisible(partials: map<u32, Request>, frames: seq<Frame>, id: u32)
    requires forall f :: f in frames ==> f.KeysAgree() && !f.IsResponse()
    requires T.Filed(partials)
    ensures Apart(ReassembleAll(partials, frames), ReassembleAll(Restrict(partials, id), Filter(OfStream(id), frames)),
            id)
  {
    if frames != [] {
      var front, f := frames[..|frames| - 1], frames[|frames| - 1];
      assert frames == front + [f];
      InterleavingIsInvisible(partials, front, id);
      var own := Filter(OfStream(id), front);
      TurnKeepsApart(ReassembleAll(partials, front), ReassembleAll(Restrict(partials, id), own), f, id);
      FilterAppend(OfStream(id), front, f);
      assert (own + [f])[..|own|] == own;
    }
  }
}
