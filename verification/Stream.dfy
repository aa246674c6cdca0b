/** The tunnel with a single stream in it: the same code, one request, one stream id. */
module Stream {
  import opened Primitives
  import opened Frames
  import opened Proxy
  import opened Serve
  import opened Channel
  import opened Chunking
  import P = Protocol

  /** The id of the request accepted after `key` others: a u32 counter that starts at 1. */
  function Id(key: nat): u32 {
    (1 + key) % U32_RANGE
  }

  datatype Stream = Stream(
    key: nat,
    handler: Option<Handler>,
    pending: map<u32, nat>,      // the proxy's table: stream id to request position
    up: Link,
    partials: map<u32, Request>, // serve's table of incomplete requests
    jobs: seq<Job>,
    down: Link)

  datatype Act =
    | Accept(http: HttpRequest)
    | Handle(handlerAct: HandlerAct)
    | Work(job: nat, jobAct: JobAct)
    | ToServe
    | ToProxy

  function Init(key: nat): Stream {
    Stream(key, None, map[], EMPTY, map[], [], EMPTY)
  }

  predicate Alive(s: Stream) {
    Id(s.key) in s.pending && s.pending[Id(s.key)] == s.key
  }

  predicate Enabled(s: Stream, a: Act) {
    match a
    case Accept(_) => s.handler.None?
    case Handle(act) => s.handler.Some? && HandlerEnabled(s.handler.value, Alive(s), act)
    case Work(j, act) => j < |s.jobs| && JobEnabled(s.jobs[j], act)
    case ToServe => s.up.Waiting()
    case ToProxy => s.down.Waiting()
  }

  function Step(s: Stream, a: Act): Stream
    requires Enabled(s, a)
  {
    match a
    case Accept(http) =>
      s.(handler := Some(NewHandler(Id(s.key), http)))
    case Handle(act) =>
      var r := HandlerStep(s.handler.value, Alive(s), act);
      s.(handler := Some(r.handler), up := s.up.Send(r.emitted),
         pending := Updated(s.pending, r.table, Id(s.key), s.key))
    case Work(j, act) =>
      var r := JobStep(s.jobs[j], act);
      s.(jobs := s.jobs[j := r.job], down := s.down.Send(r.emitted))
    case ToServe =>
      var r := Reassemble(s.partials, s.up.Next());
      s.(up := s.up.Deliver(), partials := r.partials,
         jobs := if r.dispatched.Some? then s.jobs + [NewJob(r.dispatched.value)] else s.jobs)
    case ToProxy =>
      var r := Demux(s.pending, s.down.Next());
      s.(down := s.down.Deliver(), pending := r.pending,
         handler := if s.handler.Some? && r.delivery.Some?
                    then Some(s.handler.value.Receive(r.delivery.value.event)) else s.handler)
  }

  predicate Valid(s: Stream, acts: seq<Act>)
    decreases |acts|
  {
    acts == [] || (Enabled(s, acts[0]) && Valid(Step(s, acts[0]), acts[1..]))
  }

  function Run(s: Stream, acts: seq<Act>): Stream
    requires Valid(s, acts)
    decreases |acts|
  {
    if acts == [] then s else Run(Step(s, acts[0]), acts[1..])
  }

  // --- Invariant ---

  /** The handler's control state, read alone. */
  ghost predicate HandlerInv(h: Handler) {
    && h.offset <= |h.Body()|
    && (h.offset % P.MAX_BODY_CHUNK == 0 || h.offset == |h.Body()|)
    && (h.enrolled ==> h.http.body.Some?)
    && (!h.enrolled ==> !h.headersSent)
    && (!h.headersSent ==> h.offset == 0 && !h.endSent && !h.bodyCut)
    && (h.bodyCut ==> h.offset % P.MAX_BODY_CHUNK == 0 && h.offset < |h.Body()|)
    && (h.endSent ==> h.bodyCut || h.offset == |h.Body()|)
    && match h.stage
       case Collecting => !h.enrolled
       case Registering => !h.enrolled && h.http.body.Some?
       case SendingHeaders => h.enrolled && !h.headersSent
       case SendingBody =>
         && h.headersSent && !h.endSent && !h.bodyCut
         && h.offset < |h.Body()| && h.offset % P.MAX_BODY_CHUNK == 0
       case SendingEnd => h.headersSent && !h.endSent && (h.bodyCut || h.offset == |h.Body()|)
       case Awaiting => h.headersSent && (h.bodyCut || h.offset == |h.Body()|)
       case Removing(reply) => reply.Withdraws() && OutcomeFits(h, reply)
       case Forwarding => h.headersSent
       case Finished(outcome) => OutcomeFits(h, outcome)
  }

  /** How far a handler had come when it got this outcome. */
  ghost predicate OutcomeFits(h: Handler, outcome: Outcome) {
    match outcome
    case BadRequest => !h.enrolled && h.http.body.None?
    case SendFailed => h.enrolled && !h.headersSent
    case Cancelled => true
    case _ => h.headersSent
  }

  /** What was sent up is the request, as far as the handler has come. */
  ghost predicate UpInv(h: Handler, up: Link)
    requires h.offset <= |h.Body()|
  {
    up.Valid() && up.sent == RequestFrames(h)
  }

  /** What serve holds is a function of what it received. */
  ghost predicate ServeInv(h: Handler, up: Link, partials: map<u32, Request>, jobs: seq<Job>)
    requires up.Valid() && h.offset <= |h.Body()|
  {
    if up.delivered == 0 then partials == map[] && jobs == []
    else if h.endSent && up.delivered == |up.sent| then
      partials == map[] && |jobs| == 1 && jobs[0].request == Request(h.Request(), h.Body()[..h.offset])
    else
      partials == map[h.id := Request(h.Request(), BodyBytes(up.Received()))] && jobs == []
  }

  /** What was sent down is the one job's plan, as far as the job has come. */
  ghost predicate DownInv(jobs: seq<Job>, down: Link) {
    && down.Valid()
    && (if jobs == [] then down.sent == [] else |jobs| == 1 && Carries(down, jobs[0].Frames(), jobs[0].sent))
  }

  /** What was sent is the first `n` frames of `fs`. */
  ghost predicate Carries(l: Link, fs: seq<Frame>, n: nat) {
    n <= |fs| && l.sent == fs[..n]
  }

  lemma CarriesNext(l: Link, fs: seq<Frame>, n: nat)
    requires Carries(l, fs, n) && n < |fs|
    ensures Carries(l.Send([fs[n]]), fs, n + 1)
  {
    assert fs[..n + 1] == fs[..n] + [fs[n]];
  }

  /** The table entry and the event queue follow from what the reader received. */
  ghost predicate EventsInv(h: Handler, key: nat, pending: map<u32, nat>, down: Link)
    requires down.Valid()
  {
    EventsTold(h, key, pending, Events(down.Received()))
  }

  ghost predicate EventsTold(h: Handler, key: nat, pending: map<u32, nat>, told: seq<StreamEvent>) {
    && pending == (if h.enrolled && !h.Withdrawn() && !Terminated(told) then map[h.id := key] else map[])
    && h.events <= told
    && (h.Receiving() ==> h.events == told)
    && (!h.enrolled ==> told == [])
  }

  /** What the client got is what was taken. */
  ghost predicate Consumed(h: Handler) {
    && h.taken <= |h.events|
    && h.client == EventBytes(h.events[..h.taken])
    && h.head == (if h.taken > 0 && h.events[0].Headers? then Some(h.events[0].response) else None)
  }

  /** How far it was taken, and that the branches for a malformed response are never entered. */
  ghost predicate TakenInv(stage: Stage, events: seq<StreamEvent>, taken: nat)
    requires taken <= |events|
  {
    && (stage != Forwarding && !stage.Finished? ==> taken == 0)
    && (stage == Forwarding ==> taken > 0 && !events[taken - 1].Terminal())
    && (stage == Finished(EndTaken) ==> taken > 0 && events[taken - 1] == End)
    && (stage == Finished(ErrorTaken) ==> taken > 0 && events[taken - 1].Failed?)
    && stage !in {Removing(TunnelError), Finished(TunnelError), Finished(SenderDropped)}
    && (stage.Removing? ==> stage.reply.Withdraws())
  }

  ghost predicate ConsumerInv(h: Handler) {
    Consumed(h) && TakenInv(h.stage, h.events, h.taken)
  }

  ghost predicate Parts(key: nat, h: Handler, pending: map<u32, nat>, up: Link, partials: map<u32, Request>,
      jobs: seq<Job>, down: Link) {
    && h.id == Id(key)
    && HandlerInv(h)
    && UpInv(h, up)
    && ServeInv(h, up, partials, jobs)
    && DownInv(jobs, down)
    && EventsInv(h, key, pending, down)
    && ConsumerInv(h)
  }

  ghost predicate Inv(s: Stream) {
    if s.handler.None? then s == Init(s.key)
    else Parts(s.key, s.handler.value, s.pending, s.up, s.partials, s.jobs, s.down)
  }

  /** The reader has told the stream a grammatical story, and it came from the one job. */
  lemma ToldIsGrammatical(jobs: seq<Job>, down: Link)
    requires DownInv(jobs, down)
    ensures Grammatical(Events(down.Received()))
  {
    if jobs != [] && jobs[0].upstream.Some? && !jobs[0].upstream.value.BadMethod? {
      var j := jobs[0];
      PlanIsShaped(j.Id(), j.upstream.value);
      ShapeIsLaid(j.Id(), j.Frames(), Intact(j.upstream.value));
      PrefixIsGrammatical(j.Frames(), Intact(j.upstream.value), down.delivered);
      assert down.Received() == j.Frames()[..down.delivered];
    }
  }

  lemma SendingKeepsInv(h: Handler, alive: bool, act: HandlerAct)
    requires HandlerInv(h) && HandlerEnabled(h, alive, act) && (act.SendHeaders? || act.SendBody? || act.SendEnd?)
    ensures HandlerInv(HandlerStep(h, alive, act).handler)
  {
  }

  lemma AwaitKeepsInv(h: Handler)
    requires HandlerInv(h) && h.stage == Awaiting
    ensures HandlerInv(AwaitNext(h))
  {
  }

  lemma ForwardKeepsInv(h: Handler, clientHere: bool)
    requires HandlerInv(h) && h.stage == Forwarding
    ensures HandlerInv(ForwardNext(h, clientHere))
  {
  }

  lemma HandlerStepKeepsInv(h: Handler, alive: bool, act: HandlerAct)
    requires HandlerInv(h) && HandlerEnabled(h, alive, act)
    ensures HandlerInv(HandlerStep(h, alive, act).handler)
  {
    if act.SendHeaders? || act.SendBody? || act.SendEnd? {
      SendingKeepsInv(h, alive, act);
    } else if act.AwaitEvent? {
      AwaitKeepsInv(h);
    } else if act.Forward? {
      ForwardKeepsInv(h, act.clientHere);
    }
  }

  // --- What a handler step may do, as three relations ---

  /** Frames go out in request order: headers, the next body slice, the end. */
  ghost predicate Sends(h: Handler, h': Handler, emitted: seq<Frame>)
    requires h.offset <= |h.Body()|
  {
    && h'.id == h.id && h'.http == h.http
    && h.offset <= h'.offset <= |h.Body()|
    && if emitted == [] then
         h'.headersSent == h.headersSent && h'.offset == h.offset && h'.endSent == h.endSent
       else
         && !h.endSent && h'.headersSent
         && (emitted == [ReqHeadersFrame(h.Request())] ==> !h.headersSent && h.offset == h'.offset == 0 && !h'.endSent)
         && (emitted != [ReqHeadersFrame(h.Request())] ==> h.headersSent)
         && (|| emitted == [ReqHeadersFrame(h.Request())]
             || (&& emitted == [ReqBody(h.id, h.Body()[h.offset..h'.offset])] && !h'.endSent
                 && h.offset < |h.Body()| && h.offset % P.MAX_BODY_CHUNK == 0
                 && h'.offset == Min(h.offset + P.MAX_BODY_CHUNK, |h.Body()|))
             || (emitted == [ReqEnd(h.id)] && h'.endSent && h'.offset == h.offset))
  }

  /** The table entry is made when the handler enrols and unmade when it withdraws. */
  ghost predicate Enrols(h: Handler, h': Handler, table: TableOp) {
    && h'.id == h.id && h'.events == h.events && !h.Withdrawn()
    && (h'.Receiving() ==> h.Receiving())
    && match table
       case Insert => !h.enrolled && h'.enrolled && h'.Receiving()
       case Remove => h.enrolled && h'.enrolled && h'.Withdrawn()
       case Keep => h'.enrolled == h.enrolled && !h'.Withdrawn()
  }

  lemma HandlerStepSends(h: Handler, alive: bool, act: HandlerAct)
    requires HandlerInv(h) && HandlerEnabled(h, alive, act)
    ensures var r := HandlerStep(h, alive, act); Sends(h, r.handler, r.emitted)
  {
  }

  lemma ReadingEnrols(h: Handler, alive: bool, act: HandlerAct)
    requires HandlerInv(h) && HandlerEnabled(h, alive, act) && (act.AwaitEvent? || act.Forward?)
    ensures var r := HandlerStep(h, alive, act); Enrols(h, r.handler, r.table)
  {
  }

  lemma HandlerStepEnrols(h: Handler, alive: bool, act: HandlerAct)
    requires HandlerInv(h) && ConsumerInv(h) && HandlerEnabled(h, alive, act)
    ensures var r := HandlerStep(h, alive, act); Enrols(h, r.handler, r.table)
  {
    if act.AwaitEvent? || act.Forward? {
      ReadingEnrols(h, alive, act);
    }
  }

  lemma SendsKeepUp(h: Handler, h': Handler, emitted: seq<Frame>, up: Link)
    requires h.offset <= |h.Body()| && UpInv(h, up) && Sends(h, h', emitted)
    requires !h.headersSent ==> h.offset == 0 && !h.endSent
    ensures UpInv(h', up.Send(emitted))
  {
    var body := h.Body();
    if emitted == [] {
      assert RequestFrames(h) + emitted == RequestFrames(h);
    } else if emitted[0].ReqBody? {
      ChunksStep(body, h.offset, h'.offset);
      var last := body[h.offset..h'.offset];
      assert ReqBodies(h.id, Chunks(body[..h'.offset])) ==
             ReqBodies(h.id, Chunks(body[..h.offset])) + [ReqBody(h.id, last)];
    } else if emitted[0].ReqHeaders? {
      assert body[..0] == [];
    }
  }

  lemma SendsKeepServe(h: Handler, h': Handler, emitted: seq<Frame>, up: Link, partials: map<u32, Request>,
      jobs: seq<Job>)
    requires h.offset <= |h.Body()| && UpInv(h, up) && Sends(h, h', emitted)
    requires ServeInv(h, up, partials, jobs)
    ensures up.Send(emitted).Valid() && ServeInv(h', up.Send(emitted), partials, jobs)
  {
    assert up.Send(emitted).Received() == up.Received();
  }

  lemma EnrolsKeepEvents(h: Handler, h': Handler, table: TableOp, key: nat, pending: map<u32, nat>, down: Link)
    requires down.Valid() && EventsInv(h, key, pending, down) && Enrols(h, h', table)
    ensures EventsInv(h', key, Updated(pending, table, h.id, key), down)
  {
  }

  /** With the queue grammatical and its sender alive until a terminal event, the next event is the expected one. */
  lemma NextEvent(h: Handler, alive: bool)
    requires HandlerInv(h) && ConsumerInv(h) && Grammatical(h.events)
    requires h.stage == Awaiting || h.stage == Forwarding
    requires !alive ==> Terminated(h.events)
    ensures h.taken == |h.events| ==> alive
    ensures h.taken < |h.events| ==> (h.stage == Awaiting <==> h.events[h.taken].Headers?)
  {
    assert h.taken == |h.events| ==> h.events[..h.taken] == h.events;
  }

  lemma AwaitNextKeepsConsumer(h: Handler)
    requires ConsumerInv(h) && h.stage == Awaiting && h.taken < |h.events| && h.events[h.taken].Headers?
    ensures ConsumerInv(AwaitNext(h))
  {
    var first := h.events[0];
    assert h.events[..0] == [] && h.events[..1] == [] + [first];
    EventBytesAppend([], first);
  }

  lemma BodyHandedOn(h: Handler)
    requires ConsumerInv(h) && h.stage == Forwarding && h.taken < |h.events| && h.events[h.taken].Body?
    ensures ConsumerInv(h.(taken := h.taken + 1, client := h.client + h.events[h.taken].data))
    ensures ConsumerInv(h.(stage := Finished(ClientGone)))
  {
    BytesTaken(h.events, h.taken);
  }

  lemma TerminalTaken(h: Handler, outcome: Outcome)
    requires ConsumerInv(h) && h.stage == Forwarding && h.taken < |h.events|
    requires (outcome == EndTaken && h.events[h.taken].End?) || (outcome == ErrorTaken && h.events[h.taken].Failed?)
    ensures ConsumerInv(h.(taken := h.taken + 1, stage := Finished(outcome)))
  {
    BytesTaken(h.events, h.taken);
  }

  lemma ForwardNextKeepsConsumer(h: Handler, clientHere: bool)
    requires ConsumerInv(h) && h.stage == Forwarding && h.taken < |h.events| && !h.events[h.taken].Headers?
    ensures ConsumerInv(ForwardNext(h, clientHere))
  {
    match h.events[h.taken] {
      case Body(_) => BodyHandedOn(h);
      case End => TerminalTaken(h, EndTaken);
      case Failed(_) => TerminalTaken(h, ErrorTaken);
    }
  }

  lemma HandlerStepKeepsConsumer(h: Handler, alive: bool, act: HandlerAct)
    requires HandlerInv(h) && ConsumerInv(h) && Grammatical(h.events) && HandlerEnabled(h, alive, act)
    requires !alive && (h.stage == Awaiting || h.stage == Forwarding) ==> Terminated(h.events)
    ensures ConsumerInv(HandlerStep(h, alive, act).handler)
  {
    match act {
      case AwaitEvent =>
        NextEvent(h, alive);
        AwaitNextKeepsConsumer(h);
      case Forward(clientHere) =>
        NextEvent(h, alive);
        ForwardNextKeepsConsumer(h, clientHere);
      case _ =>
    }
  }

  // --- Every step keeps the invariant ---

  lemma HandleKeepsParts(key: nat, h: Handler, pending: map<u32, nat>, up: Link, partials: map<u32, Request>,
      jobs: seq<Job>, down: Link, act: HandlerAct)
    requires Parts(key, h, pending, up, partials, jobs, down) && HandlerEnabled(h, h.id in pending, act)
    ensures var r := HandlerStep(h, h.id in pending, act);
            Parts(key, r.handler, Updated(pending, r.table, h.id, key), up.Send(r.emitted), partials, jobs, down)
  {
    var alive := h.id in pending;
    var r := HandlerStep(h, alive, act);
    ToldIsGrammatical(jobs, down);
    HandlerStepKeepsInv(h, alive, act);
    HandlerStepKeepsConsumer(h, alive, act);
    HandlerStepSends(h, alive, act);
    HandlerStepEnrols(h, alive, act);
    SendsKeepUp(h, r.handler, r.emitted, up);
    SendsKeepServe(h, r.handler, r.emitted, up, partials, jobs);
    EnrolsKeepEvents(h, r.handler, r.table, key, pending, down);
  }

  lemma HandleKeepsInv(s: Stream, act: HandlerAct)
    requires Inv(s) && Enabled(s, Handle(act))
    ensures Inv(Step(s, Handle(act)))
  {
    HandleKeepsParts(s.key, s.handler.value, s.pending, s.up, s.partials, s.jobs, s.down, act);
  }

  lemma SendNextKeepsDown(job: Job, down: Link)
    requires DownInv([job], down) && JobEnabled(job, SendNext(true))
    ensures DownInv([job.(sent := job.sent + 1)], down.Send([job.Frames()[job.sent]]))
  {
    CarriesNext(down, job.Frames(), job.sent);
  }

  lemma AnswerKeepsDown(job: Job, down: Link, u: Upstream)
    requires DownInv([job], down) && JobEnabled(job, Answered(u))
    ensures DownInv([job.(upstream := Some(u))], down)
  {
    assert job.Frames() == [];
  }

  lemma WorkKeepsDown(jobs: seq<Job>, down: Link, j: nat, act: JobAct)
    requires DownInv(jobs, down) && j < |jobs| && JobEnabled(jobs[j], act)
    ensures var r := JobStep(jobs[j], act);
            && r.job.request == jobs[j].request
            && DownInv(jobs[j := r.job], down.Send(r.emitted))
            && down.Send(r.emitted).Received() == down.Received()
  {
    var job := jobs[0];
    var r := JobStep(job, act);
    assert jobs == [job] && jobs[j := r.job] == [r.job];
    assert down.Send(r.emitted).Received() == down.Received();
    assert down.sent + [] == down.sent;
    match act {
      case Answered(u) => AnswerKeepsDown(job, down, u);
      case SendNext(ok) =>
        if ok {
          SendNextKeepsDown(job, down);
        } else {
          assert r.job.Frames() == job.Frames();
        }
    }
  }

  lemma WorkKeepsInv(s: Stream, j: nat, act: JobAct)
    requires Inv(s) && Enabled(s, Work(j, act))
    ensures Inv(Step(s, Work(j, act)))
  {
    WorkKeepsDown(s.jobs, s.down, j, act);
  }

  /** Headers, then bodies carrying what was sent of the body, then at most the end. */
  lemma RequestShape(h: Handler)
    requires h.offset <= |h.Body()| && h.headersSent
    ensures var fs := RequestFrames(h);
            && fs != [] && fs[0] == ReqHeadersFrame(h.Request())
            && BodyBytes(fs) == h.Body()[..h.offset]
            && (forall i :: 0 < i < |fs| ==>
                              if h.endSent && i == |fs| - 1 then fs[i] == ReqEnd(h.id)
                              else fs[i].ReqBody? && fs[i].streamId == h.id)
            && (h.endSent ==> |fs| >= 2)
  {
    var chunks := Chunks(h.Body()[..h.offset]);
    ChunksCover(h.Body()[..h.offset]);
    ReqBodiesBytes(h.id, chunks);
    BodyBytesFramed(ReqHeadersFrame(h.Request()), ReqBodies(h.id, chunks), if h.endSent then [ReqEnd(h.id)] else []);
  }

  ghost predicate AfterToServe(h: Handler, up: Link, partials: map<u32, Request>, jobs: seq<Job>)
    requires h.offset <= |h.Body()| && up.Waiting()
  {
    var r := Reassemble(partials, up.Next());
    && ServeInv(h, up.Deliver(), r.partials, if r.dispatched.Some? then jobs + [NewJob(r.dispatched.value)] else jobs)
    && (r.dispatched.Some? ==> jobs == [])
  }

  lemma ReceivedNext(l: Link)
    requires l.Valid() && l.Waiting()
    ensures l.Deliver().Valid() && l.Deliver().Received() == l.Received() + [l.Next()]
    ensures BodyBytes(l.Deliver().Received()) ==
            BodyBytes(l.Received()) + (if l.Next().ReqBody? || l.Next().ResBody? then l.Next().data else [])
  {
    assert l.sent[..l.delivered + 1] == l.sent[..l.delivered] + [l.Next()];
    BodyBytesNext(l.sent, l.delivered);
  }

  /** Which request frame is next, from how many were delivered. */
  lemma NextUp(h: Handler, up: Link)
    requires h.offset <= |h.Body()| && UpInv(h, up) && up.Waiting()
    ensures h.headersSent
    ensures up.delivered == 0 ==> up.Next() == ReqHeadersFrame(h.Request()) && !(h.endSent && |up.sent| == 1)
    ensures up.delivered > 0 ==>
              up.Next() == ReqEnd(h.id) || (up.Next().ReqBody? && up.Next().streamId == h.id)
    ensures up.Next().ReqEnd? <==> h.endSent && up.delivered + 1 == |up.sent|
    ensures BodyBytes(up.sent) == h.Body()[..h.offset]
  {
    RequestShape(h);
  }

  lemma HeadersReachServe(h: Handler, up: Link, partials: map<u32, Request>, jobs: seq<Job>)
    requires h.offset <= |h.Body()| && UpInv(h, up) && ServeInv(h, up, partials, jobs) && up.Waiting()
    requires up.delivered == 0
    ensures AfterToServe(h, up, partials, jobs)
  {
    NextUp(h, up);
    ReceivedNext(up);
  }

  lemma BodyReachesServe(h: Handler, up: Link, partials: map<u32, Request>, jobs: seq<Job>)
    requires h.offset <= |h.Body()| && UpInv(h, up) && ServeInv(h, up, partials, jobs) && up.Waiting()
    requires up.delivered > 0 && up.Next().ReqBody?
    ensures AfterToServe(h, up, partials, jobs)
  {
    NextUp(h, up);
    ReceivedNext(up);
  }

  lemma EndReachesServe(h: Handler, up: Link, partials: map<u32, Request>, jobs: seq<Job>)
    requires h.offset <= |h.Body()| && UpInv(h, up) && ServeInv(h, up, partials, jobs) && up.Waiting()
    requires up.delivered > 0 && up.Next().ReqEnd?
    ensures AfterToServe(h, up, partials, jobs)
  {
    NextUp(h, up);
    ReceivedNext(up);
    assert up.Deliver().Received() == up.sent;
  }

  lemma ToServeKeepsServe(h: Handler, up: Link, partials: map<u32, Request>, jobs: seq<Job>)
    requires h.offset <= |h.Body()| && UpInv(h, up) && ServeInv(h, up, partials, jobs) && up.Waiting()
    ensures AfterToServe(h, up, partials, jobs)
  {
    NextUp(h, up);
    if up.delivered == 0 {
      HeadersReachServe(h, up, partials, jobs);
    } else if up.Next().ReqBody? {
      BodyReachesServe(h, up, partials, jobs);
    } else {
      EndReachesServe(h, up, partials, jobs);
    }
  }

  lemma ToServeKeepsInv(s: Stream)
    requires Inv(s) && Enabled(s, ToServe)
    ensures Inv(Step(s, ToServe))
  {
    ToServeKeepsServe(s.handler.value, s.up, s.partials, s.jobs);
  }

  /** A frame in flight to the proxy is a response frame of the stream whose two ids agree. */
  lemma NextDown(id: u32, jobs: seq<Job>, down: Link)
    requires DownInv(jobs, down) && down.Waiting()
    requires jobs != [] ==> jobs[0].Id() == id
    ensures down.Next().IsResponse() && down.Next().BelongsTo(id) && down.Next().KeysAgree()
  {
    var j := jobs[0];
    PlanIsShaped(j.Id(), j.upstream.value);
    ShapeAt(j.Id(), j.Frames(), Intact(j.upstream.value), down.delivered);
  }

  lemma DemuxKeepsEvents(h: Handler, key: nat, pending: map<u32, nat>, told: seq<StreamEvent>, f: Frame)
    requires EventsTold(h, key, pending, told) && h.enrolled
    requires f.IsResponse() && f.BelongsTo(h.id) && f.KeysAgree()
    ensures var r := Demux(pending, f);
            EventsTold(if r.delivery.Some? then h.Receive(r.delivery.value.event) else h, key, r.pending,
                       if Terminated(told) then told else told + [EventOf(f)])
  {
  }

  lemma ToProxyKeepsEvents(h: Handler, key: nat, pending: map<u32, nat>, down: Link)
    requires down.Valid() && EventsInv(h, key, pending, down) && down.Waiting()
    requires down.Next().IsResponse() && down.Next().BelongsTo(h.id) && down.Next().KeysAgree()
    requires h.enrolled
    ensures var r := Demux(pending, down.Next());
            EventsInv(if r.delivery.Some? then h.Receive(r.delivery.value.event) else h, key, r.pending, down.Deliver())
  {
    EventsNext(down.sent, down.delivered);
    DemuxKeepsEvents(h, key, pending, Events(down.Received()), down.Next());
  }

  lemma ReceiveKeepsConsumer(h: Handler, e: StreamEvent)
    requires ConsumerInv(h)
    ensures ConsumerInv(h.Receive(e))
  {
    assert h.Receive(e).events[..h.taken] == h.events[..h.taken];
  }

  lemma ReceiveKeepsRest(h: Handler, e: StreamEvent, up: Link, partials: map<u32, Request>, jobs: seq<Job>)
    requires HandlerInv(h) && UpInv(h, up) && ServeInv(h, up, partials, jobs) && ConsumerInv(h)
    ensures var h' := h.Receive(e);
            h'.id == h.id && HandlerInv(h') && UpInv(h', up) && ServeInv(h', up, partials, jobs) && ConsumerInv(h')
  {
    ReceiveKeepsConsumer(h, e);
  }

  lemma ToProxyKeepsParts(key: nat, h: Handler, pending: map<u32, nat>, up: Link, partials: map<u32, Request>,
      jobs: seq<Job>, down: Link)
    requires Parts(key, h, pending, up, partials, jobs, down) && down.Waiting()
    ensures var r := Demux(pending, down.Next());
            Parts(key, if r.delivery.Some? then h.Receive(r.delivery.value.event) else h, r.pending,
                  up, partials, jobs, down.Deliver())
  {
    NextDown(h.id, jobs, down);
    ToProxyKeepsEvents(h, key, pending, down);
    ReceiveKeepsRest(h, EventOf(down.Next()), up, partials, jobs);
  }

  lemma ToProxyKeepsInv(s: Stream)
    requires Inv(s) && Enabled(s, ToProxy)
    ensures Inv(Step(s, ToProxy))
  {
    ToProxyKeepsParts(s.key, s.handler.value, s.pending, s.up, s.partials, s.jobs, s.down);
  }

  lemma StepKeepsInv(s: Stream, a: Act)
    requires Inv(s) && Enabled(s, a)
    ensures Inv(Step(s, a))
  {
    match a
    case Accept(_) =>
    case Handle(act) => HandleKeepsInv(s, act);
    case Work(j, act) => WorkKeepsInv(s, j, act);
    case ToServe => ToServeKeepsInv(s);
    case ToProxy => ToProxyKeepsInv(s);
  }

  lemma {:induction false} RunKeepsInv(s: Stream, acts: seq<Act>)
    requires Inv(s) && Valid(s, acts)
    ensures Inv(Run(s, acts))
    decreases |acts|
  {
    if acts != [] {
      StepKeepsInv(s, acts[0]);
      RunKeepsInv(Step(s, acts[0]), acts[1..]);
    }
  }
}
