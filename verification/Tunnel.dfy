/** One proxy and one serve joined by a data channel, carrying any number of interleaved streams. */
module Tunnel {
  import opened Primitives
  import opened Frames
  import opened Proxy
  import opened Serve
  import opened Channel
  import P = Protocol
  import S = Stream

  datatype ProxyPhase =
    | Opening        // HELLO not sent yet
    | AwaitingAgree
    | Listening
    | Detached       // the accept loop has returned; open HTTP connections, handlers and the reader live on
    | ProxyFailed    // the handshake failed

  datatype EndReason = HelloTimeout | NotHello | NoAgreement(error: P.HandshakeError) | AgreeSendFailed | Disconnected

  datatype ServePhase = AwaitingHello | Running | Ended(reason: EndReason)

  datatype Tunnel = Tunnel(
    proxy: ProxyPhase,
    serve: ServePhase,
    counter: u32,                // `stream_counter`
    handlers: seq<Handler>,      // by order of acceptance
    pending: map<u32, nat>,      // stream id to the position of the request whose sender it holds
    up: Link,                    // proxy to serve
    partials: map<u32, Request>, // `pending_requests`
    jobs: seq<Job>,              // by order of dispatch
    down: Link,                  // serve to proxy
    proxyPinging: bool,
    servePinging: bool)

  // `ok` is the fate of the frame the step sends, if it sends one.
  datatype Action =
    | SendHello(ok: bool)
    | ProxyGivesUp               // no AGREE within five minutes
    | ServeGivesUp               // no HELLO within five minutes
    | Accept(http: HttpRequest)
    | Handle(key: nat, handlerAct: HandlerAct)
    | Work(job: nat, jobAct: JobAct)
    | ToServe(ok: bool)
    | ToProxy(ok: bool)
    | ProxyPing(ok: bool)
    | ServePing(ok: bool)
    | ProxyDisconnects
    | ServeDisconnects

  const START := Tunnel(Opening, AwaitingHello, 1, [], map[], EMPTY, map[], [], EMPTY, false, false)

  /** The reader task runs. */
  predicate Reading(t: Tunnel) {
    t.proxy == Listening || t.proxy == Detached
  }

  predicate Alive(t: Tunnel, key: nat)
    requires key < |t.handlers|
  {
    t.handlers[key].id in t.pending && t.pending[t.handlers[key].id] == key
  }

  predicate Enabled(t: Tunnel, a: Action) {
    match a
    case SendHello(_) => t.proxy == Opening
    case ProxyGivesUp => t.proxy == AwaitingAgree
    case ServeGivesUp => t.serve == AwaitingHello
    case Accept(_) => Reading(t)
    case Handle(key, act) => key < |t.handlers| && HandlerEnabled(t.handlers[key], Alive(t, key), act)
    case Work(j, act) => j < |t.jobs| && JobEnabled(t.jobs[j], act)
    case ToServe(_) => t.up.Waiting() && !t.serve.Ended?
    case ToProxy(_) => t.down.Waiting() && (t.proxy == AwaitingAgree || Reading(t))
    case ProxyPing(_) => t.proxyPinging
    case ServePing(_) => t.servePinging
    case ProxyDisconnects => t.proxy == Listening
    case ServeDisconnects => t.serve == Running
  }

  function Sent(f: Frame, ok: bool): seq<Frame> {
    if ok then [f] else []
  }

  /** Serve's first frame must be a HELLO it can agree to. */
  function Greet(t: Tunnel, f: Frame, ok: bool): Tunnel {
    if !f.Hello? then t.(serve := Ended(NotHello))
    else
      match P.FromHello(f.hello)
      case Err(error) => t.(serve := Ended(NoAgreement(error)))
      case Ok(agree) =>
        if ok then t.(serve := Running, down := t.down.Send([Agree(agree)]), servePinging := true)
        else t.(serve := Ended(AgreeSendFailed))
  }

  /** The proxy's first frame must be an AGREE. */
  function Welcome(t: Tunnel, f: Frame): Tunnel {
    if f.Agree? then t.(proxy := Listening, proxyPinging := true) else t.(proxy := ProxyFailed)
  }

  /** Serve has taken its next frame off the channel. */
  function Taken(t: Tunnel): Tunnel {
    t.(up := t.up.Deliver())
  }

  /** The proxy has taken its next frame off the channel. */
  function Fetched(t: Tunnel): Tunnel {
    t.(down := t.down.Deliver())
  }

  function ServeReceives(t: Tunnel, f: Frame, ok: bool): Tunnel {
    if f.Ping? then t.(down := t.down.Send(Sent(Pong, ok)))
    else
      var r := Reassemble(t.partials, f);
      t.(partials := r.partials, jobs := if r.dispatched.Some? then t.jobs + [NewJob(r.dispatched.value)] else t.jobs)
  }

  function Given(handlers: seq<Handler>, delivery: Option<Delivery<nat>>): seq<Handler> {
    if delivery.Some? && delivery.value.channel < |handlers|
    then
      var key := delivery.value.channel;
      handlers[key := handlers[key].Receive(delivery.value.event)]
    else handlers
  }

  function ProxyReceives(t: Tunnel, f: Frame, ok: bool): Tunnel {
    if f.Ping? then t.(up := t.up.Send(Sent(Pong, ok)))
    else
      var r := Demux(t.pending, f);
      t.(pending := r.pending, handlers := Given(t.handlers, r.delivery))
  }

  /** The tunnel after request `key` took a step with outcome `r`. */
  function Moved(t: Tunnel, key: nat, r: Stepped): Tunnel
    requires key < |t.handlers|
  {
    t.(handlers := t.handlers[key := r.handler], up := t.up.Send(r.emitted),
       pending := Updated(t.pending, r.table, t.handlers[key].id, key))
  }

  function HandlerMoves(t: Tunnel, key: nat, act: HandlerAct): Tunnel
    requires key < |t.handlers| && HandlerEnabled(t.handlers[key], Alive(t, key), act)
  {
    Moved(t, key, HandlerStep(t.handlers[key], Alive(t, key), act))
  }

  function JobMoves(t: Tunnel, j: nat, act: JobAct): Tunnel
    requires j < |t.jobs| && JobEnabled(t.jobs[j], act)
  {
    var r := JobStep(t.jobs[j], act);
    t.(jobs := t.jobs[j := r.job], down := t.down.Send(r.emitted))
  }

  function Step(t: Tunnel, a: Action): Tunnel
    requires Enabled(t, a)
  {
    match a
    case SendHello(ok) =>
      if ok then t.(proxy := AwaitingAgree, up := t.up.Send([Hello(P.NewHello())])) else t.(proxy := ProxyFailed)
    case ProxyGivesUp => t.(proxy := ProxyFailed)
    case ServeGivesUp => t.(serve := Ended(HelloTimeout))
    case Accept(http) =>
      t.(handlers := t.handlers + [NewHandler(t.counter, http)], counter := (t.counter + 1) % U32_RANGE)
    case Handle(key, act) => HandlerMoves(t, key, act)
    case Work(j, act) => JobMoves(t, j, act)
    case ToServe(ok) =>
      if t.serve == AwaitingHello then Greet(Taken(t), t.up.Next(), ok) else ServeReceives(Taken(t), t.up.Next(), ok)
    case ToProxy(ok) =>
      if t.proxy == AwaitingAgree then Welcome(Fetched(t), t.down.Next())
      else ProxyReceives(Fetched(t), t.down.Next(), ok)
    case ProxyPing(ok) => t.(proxyPinging := ok, up := t.up.Send(Sent(Ping, ok)))
    case ServePing(ok) => t.(servePinging := ok, down := t.down.Send(Sent(Ping, ok)))
    case ProxyDisconnects => t.(proxy := Detached)
    case ServeDisconnects => t.(serve := Ended(Disconnected), servePinging := false)
  }

  predicate Valid(t: Tunnel, acts: seq<Action>)
    decreases |acts|
  {
    acts == [] || (Enabled(t, acts[0]) && Valid(Step(t, acts[0]), acts[1..]))
  }

  function Run(t: Tunnel, acts: seq<Action>): Tunnel
    requires Valid(t, acts)
    decreases |acts|
  {
    if acts == [] then t else Run(Step(t, acts[0]), acts[1..])
  }

  // --- Routing: what holds of every run, wrapped counter or not ---

  ghost predicate UpRouted(up: Link) {
    up.Valid() && forall f :: f in up.sent ==> f.KeysAgree() && !f.IsResponse()
  }

  ghost predicate DownRouted(down: Link) {
    down.Valid() && forall f :: f in down.sent ==> f.KeysAgree() && !f.IsRequest()
  }

  ghost predicate Allocated(counter: u32, handlers: seq<Handler>) {
    && counter == S.Id(|handlers|)
    && (forall k :: 0 <= k < |handlers| ==> handlers[k].id == S.Id(k))
  }

  ghost predicate Registered(pending: map<u32, nat>, handlers: seq<Handler>) {
    forall id :: id in pending ==> pending[id] < |handlers| && S.Id(pending[id]) == id
  }

  ghost predicate Filed(partials: map<u32, Request>) {
    forall id :: id in partials ==> partials[id].headers.streamId == id
  }

  ghost predicate Routed(t: Tunnel) {
    && Allocated(t.counter, t.handlers)
    && Registered(t.pending, t.handlers)
    && UpRouted(t.up)
    && Filed(t.partials)
    && DownRouted(t.down)
  }

  lemma PlanIsRouted(j: Job, i: nat)
    requires i < |j.Frames()|
    ensures var f := j.Frames()[i]; f.IsResponse() && f.BelongsTo(j.Id()) && f.KeysAgree()
  {
    PlanIsShaped(j.Id(), j.upstream.value);
    ShapeAt(j.Id(), j.Frames(), Intact(j.upstream.value), i);
  }

  lemma AwaitKeepsId(h: Handler)
    ensures AwaitNext(h).id == h.id
  {
  }

  lemma ForwardKeepsId(h: Handler, clientHere: bool)
    ensures ForwardNext(h, clientHere).id == h.id
  {
  }

  lemma HandlerEmits(h: Handler, alive: bool, act: HandlerAct)
    requires HandlerEnabled(h, alive, act)
    ensures var r := HandlerStep(h, alive, act);
            && r.handler.id == h.id
            && |r.emitted| <= 1
            && forall f :: f in r.emitted ==> f.KeysAgree() && f.IsRequest() && f.BelongsTo(h.id)
  {
    match act {
      case AwaitEvent => AwaitKeepsId(h);
      case Forward(clientHere) => ForwardKeepsId(h, clientHere);
      case _ =>
    }
  }

  lemma JobEmits(j: Job, act: JobAct)
    requires JobEnabled(j, act)
    ensures var r := JobStep(j, act);
            && r.job.Id() == j.Id()
            && |r.emitted| <= 1
            && forall f :: f in r.emitted ==> f.KeysAgree() && f.IsResponse() && f.BelongsTo(j.Id())
  {
    if act.SendNext? {
      PlanIsRouted(j, j.sent);
    }
  }

  lemma SendsAreRouted(up: Link, down: Link, fs: seq<Frame>)
    requires UpRouted(up) && DownRouted(down)
    requires forall f :: f in fs ==> f.KeysAgree()
    ensures (forall f :: f in fs ==> !f.IsResponse()) ==> UpRouted(up.Send(fs))
    ensures (forall f :: f in fs ==> !f.IsRequest()) ==> DownRouted(down.Send(fs))
  {
  }

  lemma UpdateKeepsTables(t: Tunnel, key: nat, h: Handler, table: TableOp)
    requires Routed(t) && key < |t.handlers| && h.id == t.handlers[key].id
    ensures Allocated(t.counter, t.handlers[key := h])
    ensures Registered(Updated(t.pending, table, h.id, key), t.handlers[key := h])
  {
  }

  lemma MoveKeepsRouted(t: Tunnel, key: nat, r: Stepped)
    requires Routed(t) && key < |t.handlers| && r.handler.id == t.handlers[key].id
    requires forall f :: f in r.emitted ==> f.KeysAgree() && f.IsRequest()
    ensures Routed(Moved(t, key, r))
  {
    SendsAreRouted(t.up, t.down, r.emitted);
    UpdateKeepsTables(t, key, r.handler, r.table);
  }

  lemma HandleKeepsRouted(t: Tunnel, key: nat, act: HandlerAct)
    requires Routed(t) && Enabled(t, Handle(key, act))
    ensures Routed(HandlerMoves(t, key, act))
  {
    var r := HandlerStep(t.handlers[key], Alive(t, key), act);
    HandlerEmits(t.handlers[key], Alive(t, key), act);
    MoveKeepsRouted(t, key, r);
  }

  lemma WorkKeepsRouted(t: Tunnel, j: nat, act: JobAct)
    requires Routed(t) && Enabled(t, Work(j, act))
    ensures Routed(JobMoves(t, j, act))
  {
    JobEmits(t.jobs[j], act);
    SendsAreRouted(t.up, t.down, JobStep(t.jobs[j], act).emitted);
  }

  lemma ServeReceivesKeepsRouted(t: Tunnel, f: Frame, ok: bool)
    requires Routed(t) && f.KeysAgree()
    ensures Routed(ServeReceives(t, f, ok))
  {
    SendsAreRouted(t.up, t.down, Sent(Pong, ok));
  }

  lemma GivenKeepsIds(handlers: seq<Handler>, delivery: Option<Delivery<nat>>)
    ensures |Given(handlers, delivery)| == |handlers|
    ensures forall k :: 0 <= k < |handlers| ==> Given(handlers, delivery)[k].id == handlers[k].id
  {
  }

  lemma DemuxKeepsRegistered(pending: map<u32, nat>, handlers: seq<Handler>, f: Frame)
    requires Registered(pending, handlers)
    ensures Registered(Demux(pending, f).pending, handlers)
  {
  }

  lemma ProxyReceivesKeepsRouted(t: Tunnel, f: Frame, ok: bool)
    requires Routed(t)
    ensures Routed(ProxyReceives(t, f, ok))
  {
    SendsAreRouted(t.up, t.down, Sent(Pong, ok));
    GivenKeepsIds(t.handlers, Demux(t.pending, f).delivery);
    DemuxKeepsRegistered(t.pending, t.handlers, f);
  }

  lemma GreetKeepsRouted(t: Tunnel, f: Frame, ok: bool)
    requires Routed(t)
    ensures Routed(Greet(t, f, ok))
  {
    if f.Hello? && P.FromHello(f.hello).Ok? {
      SendsAreRouted(t.up, t.down, [Agree(P.FromHello(f.hello).value)]);
    }
  }

  lemma AcceptKeepsTables(counter: u32, handlers: seq<Handler>, pending: map<u32, nat>, http: HttpRequest)
    requires Allocated(counter, handlers) && Registered(pending, handlers)
    ensures Allocated((counter + 1) % U32_RANGE, handlers + [NewHandler(counter, http)])
    ensures Registered(pending, handlers + [NewHandler(counter, http)])
  {
  }

  lemma AcceptKeepsRouted(t: Tunnel, http: HttpRequest)
    requires Routed(t) && Enabled(t, Accept(http))
    ensures Routed(Step(t, Accept(http)))
  {
    AcceptKeepsTables(t.counter, t.handlers, t.pending, http);
  }

  lemma DeliveryKeepsRouted(t: Tunnel)
    requires Routed(t)
    ensures t.up.Waiting() ==> Routed(Taken(t)) && t.up.Next().KeysAgree() && !t.up.Next().IsResponse()
    ensures t.down.Waiting() ==> Routed(Fetched(t)) && t.down.Next().KeysAgree() && !t.down.Next().IsRequest()
  {
    assert t.up.Waiting() ==> t.up.Next() in t.up.sent;
    assert t.down.Waiting() ==> t.down.Next() in t.down.sent;
  }

  lemma ToServeKeepsRouted(t: Tunnel, ok: bool)
    requires Routed(t) && Enabled(t, ToServe(ok))
    ensures Routed(Step(t, ToServe(ok)))
  {
    DeliveryKeepsRouted(t);
    if t.serve == AwaitingHello {
      GreetKeepsRouted(Taken(t), t.up.Next(), ok);
    } else {
      ServeReceivesKeepsRouted(Taken(t), t.up.Next(), ok);
    }
  }

  lemma WelcomeKeepsRouted(t: Tunnel, f: Frame)
    requires Routed(t)
    ensures Routed(Welcome(t, f))
  {
  }

  lemma ToProxyKeepsRouted(t: Tunnel, ok: bool)
    requires Routed(t) && Enabled(t, ToProxy(ok))
    ensures Routed(Step(t, ToProxy(ok)))
  {
    DeliveryKeepsRouted(t);
    if t.proxy == AwaitingAgree {
      WelcomeKeepsRouted(Fetched(t), t.down.Next());
    } else {
      ProxyReceivesKeepsRouted(Fetched(t), t.down.Next(), ok);
    }
  }

  /** Steps that touch no stream. */
  predicate Quiet(a: Action) {
    !(a.Handle? || a.Work? || a.Accept? || a.ToServe? || a.ToProxy?)
  }

  /** What they put on the wire: a HELLO or a ping. */
  function QuietFrames(a: Action): seq<Frame>
    requires Quiet(a)
  {
    match a
    case SendHello(ok) => Sent(Hello(P.NewHello()), ok)
    case ProxyPing(ok) => Sent(Ping, ok)
    case ServePing(ok) => Sent(Ping, ok)
    case _ => []
  }

  lemma QuietStep(t: Tunnel, a: Action)
    requires Enabled(t, a) && Quiet(a)
    ensures var t' := Step(t, a);
            t' == t.(proxy := t'.proxy, serve := t'.serve,
                     proxyPinging := t'.proxyPinging, servePinging := t'.servePinging,
                     up := if a.ServePing? then t.up else t.up.Send(QuietFrames(a)),
                     down := if a.ServePing? then t.down.Send(QuietFrames(a)) else t.down)
  {
    assert t.up.Send([]) == t.up;
  }

  lemma QuietFramesAreNobodys(a: Action)
    requires Quiet(a)
    ensures |QuietFrames(a)| <= 1
    ensures forall f :: f in QuietFrames(a) ==> !f.IsRequest() && !f.IsResponse() && f.KeysAgree()
  {
  }

  lemma QuietKeepsRouted(t: Tunnel, a: Action)
    requires Routed(t) && Enabled(t, a) && Quiet(a)
    ensures Routed(Step(t, a))
  {
    QuietStep(t, a);
    QuietFramesAreNobodys(a);
    SendsAreRouted(t.up, t.down, QuietFrames(a));
  }

  lemma StepKeepsRouted(t: Tunnel, a: Action)
    requires Routed(t) && Enabled(t, a)
    ensures Routed(Step(t, a))
  {
    match a {
      case Accept(http) => AcceptKeepsRouted(t, http);
      case Handle(key, act) => HandleKeepsRouted(t, key, act);
      case Work(j, act) => WorkKeepsRouted(t, j, act);
      case ToServe(ok) => ToServeKeepsRouted(t, ok);
      case ToProxy(ok) => ToProxyKeepsRouted(t, ok);
      case _ => QuietKeepsRouted(t, a);
    }
  }

  lemma {:induction false} RunKeepsRouted(t: Tunnel, acts: seq<Action>)
    requires Routed(t) && Valid(t, acts)
    ensures Routed(Run(t, acts))
    decreases |acts|
  {
    if acts != [] {
      StepKeepsRouted(t, acts[0]);
      RunKeepsRouted(Step(t, acts[0]), acts[1..]);
    }
  }
}
