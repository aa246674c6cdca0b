/** What the actions of a run say about the state it reaches: no bound on the number of requests. */
module History {
  import opened Primitives
  import opened Frames
  import opened Proxy
  import opened Serve
  import opened Channel
  import opened Tunnel
  import opened Projection
  import H = Handshake
  import P = Protocol
  import S = Stream

  ghost predicate Reached(acts: seq<Action>, t: Tunnel) {
    Valid(START, acts) && t == Run(START, acts)
  }

  // --- One handler ---

  /** What request `key` did in a run. */
  function ActsOf(past: seq<Action>, key: nat): seq<HandlerAct> {
    if past == [] then []
    else
      var before, last := ActsOf(past[..|past| - 1], key), past[|past| - 1];
      if last.Handle? && last.key == key then before + [last.handlerAct] else before
  }

  lemma ActsAppend(past: seq<Action>, a: Action, key: nat)
    ensures ActsOf(past + [a], key) ==
            if a.Handle? && a.key == key then ActsOf(past, key) + [a.handlerAct] else ActsOf(past, key)
  {
    assert (past + [a])[..|past|] == past;
  }

  lemma {:induction false} ActsAreActions(past: seq<Action>, key: nat, act: HandlerAct)
    ensures act in ActsOf(past, key) <==> Handle(key, act) in past
  {
    if past != [] {
      var front, last := past[..|past| - 1], past[|past| - 1];
      ActsAreActions(front, key, act);
      assert past == front + [last];
    }
  }

  /** The program text of `handle_proxy_request` and its forwarder: what may come after what. */
  predicate MayFollow(first: HandlerAct, next: HandlerAct) {
    match first
    case ReadBody => next.Register? || next.Cancel?
    case Register => next.SendHeaders? || next.Cancel?
    case SendHeaders(ok) => next.Cancel? || if ok then next.SendBody? || next.SendEnd? else next.Unregister?
    case SendBody(ok) => next.Cancel? || next.SendEnd? || (ok && next.SendBody?)
    case SendEnd(_) => next.AwaitEvent? || next.Timeout? || next.Cancel?
    case AwaitEvent => next.AwaitEvent? || next.Timeout? || next.Unregister? || next.Forward? || next.Cancel?
    case Timeout => next.Unregister? || next.Cancel?
    case Forward(_) => next.Forward?
    case Unregister => false
    case Cancel => false
  }

  ghost predicate InOrder(done: seq<HandlerAct>) {
    && (done != [] ==> done[0].ReadBody? || done[0].Cancel?)
    && (forall i :: 0 < i < |done| ==> MayFollow(done[i - 1], done[i]))
  }

  /** The reply a handler gives after it took its entry out of the table. */
  function ReplyAfter(act: HandlerAct): Outcome {
    match act
    case SendHeaders(_) => SendFailed
    case Timeout => TimedOut
    case _ => TunnelError
  }

  /** Where a handler is after its last act. */
  ghost predicate Left(h: Handler, done: seq<HandlerAct>)
    requires done != []
  {
    match done[|done| - 1]
    case ReadBody => h.stage == if h.http.body.None? then Finished(BadRequest) else Registering
    case Register => h.stage == SendingHeaders
    case SendHeaders(ok) =>
      h.stage == if !ok then Removing(SendFailed) else if h.Body() == [] then SendingEnd else SendingBody
    case SendBody(ok) => h.stage == if ok && h.offset < |h.Body()| then SendingBody else SendingEnd
    case SendEnd(_) => h.stage == Awaiting
    case AwaitEvent => h.stage == Awaiting || h.stage == Forwarding || h.stage == Removing(TunnelError)
    case Timeout => h.stage == Removing(TimedOut)
    case Unregister => |done| >= 2 && h.stage == Finished(ReplyAfter(done[|done| - 2]))
    case Forward(here) =>
      || h.stage == Forwarding || h.stage == Finished(EndTaken) || h.stage == Finished(ErrorTaken)
      || h.stage == Finished(SenderDropped) || (h.stage == Finished(ClientGone) && !here)
    case Cancel => h.stage == Finished(Cancelled)
  }

  /** What a handler has sent. */
  ghost predicate Did(h: Handler, done: seq<HandlerAct>) {
    && (h.enrolled <==> Register in done)
    && (h.headersSent <==> SendHeaders(true) in done)
    && h.offset == Min(|h.Body()|, P.MAX_BODY_CHUNK * multiset(done)[SendBody(true)])
    && (h.bodyCut <==> SendBody(false) in done)
    && (h.endSent <==> SendEnd(true) in done)
  }

  /** The request was asked in full, as far as the channel let it. */
  predicate Asked(stage: Stage) {
    match stage
    case Awaiting => true
    case Forwarding => true
    case Removing(reply) => reply != SendFailed
    case Finished(outcome) => outcome != BadRequest && outcome != SendFailed && outcome != Cancelled
    case _ => false
  }

  /** `done` led the handler to where it is. */
  ghost predicate Led(h: Handler, done: seq<HandlerAct>) {
    && InOrder(done)
    && Did(h, done)
    && (if done == [] then h.stage == Collecting else Left(h, done))
    && (Asked(h.stage) ==> SendEnd(h.endSent) in done)
    && S.HandlerInv(h)
  }

  lemma InOrderAppend(done: seq<HandlerAct>, act: HandlerAct)
    requires InOrder(done)
    requires if done == [] then act.ReadBody? || act.Cancel? else MayFollow(done[|done| - 1], act)
    ensures InOrder(done + [act])
  {
  }

  /** An act the handler's stage allows is one that may come next. */
  lemma NextInOrder(h: Handler, alive: bool, act: HandlerAct, done: seq<HandlerAct>)
    requires Led(h, done) && HandlerEnabled(h, alive, act)
    ensures InOrder(done + [act])
  {
    InOrderAppend(done, act);
  }

  lemma DidAppend(h: Handler, h': Handler, act: HandlerAct, done: seq<HandlerAct>)
    requires Did(h, done) && h'.http == h.http
    requires !act.Register? && !act.SendHeaders? && !act.SendBody? && !act.SendEnd?
    requires h'.enrolled == h.enrolled && h'.headersSent == h.headersSent && h'.offset == h.offset
    requires h'.bodyCut == h.bodyCut && h'.endSent == h.endSent
    ensures Did(h', done + [act])
  {
    assert h'.Body() == h.Body();
  }

  lemma SetUpLeads(h: Handler, alive: bool, act: HandlerAct, done: seq<HandlerAct>)
    requires Led(h, done) && HandlerEnabled(h, alive, act) && (act.ReadBody? || act.Register?)
    ensures Led(HandlerStep(h, alive, act).handler, done + [act])
  {
    NextInOrder(h, alive, act, done);
    S.HandlerStepKeepsInv(h, alive, act);
  }

  lemma HeadersLead(h: Handler, alive: bool, ok: bool, done: seq<HandlerAct>)
    requires Led(h, done) && HandlerEnabled(h, alive, SendHeaders(ok))
    ensures Led(HandlerStep(h, alive, SendHeaders(ok)).handler, done + [SendHeaders(ok)])
  {
    NextInOrder(h, alive, SendHeaders(ok), done);
    S.HandlerStepKeepsInv(h, alive, SendHeaders(ok));
  }

  lemma BodyLeads(h: Handler, alive: bool, ok: bool, done: seq<HandlerAct>)
    requires Led(h, done) && HandlerEnabled(h, alive, SendBody(ok))
    ensures Led(HandlerStep(h, alive, SendBody(ok)).handler, done + [SendBody(ok)])
  {
    NextInOrder(h, alive, SendBody(ok), done);
    S.HandlerStepKeepsInv(h, alive, SendBody(ok));
  }

  lemma EndLeads(h: Handler, alive: bool, ok: bool, done: seq<HandlerAct>)
    requires Led(h, done) && HandlerEnabled(h, alive, SendEnd(ok))
    ensures Led(HandlerStep(h, alive, SendEnd(ok)).handler, done + [SendEnd(ok)])
  {
    NextInOrder(h, alive, SendEnd(ok), done);
    S.HandlerStepKeepsInv(h, alive, SendEnd(ok));
  }

  lemma AwaitLeads(h: Handler, alive: bool, done: seq<HandlerAct>)
    requires Led(h, done) && HandlerEnabled(h, alive, AwaitEvent)
    ensures Led(AwaitNext(h), done + [AwaitEvent])
  {
    NextInOrder(h, alive, AwaitEvent, done);
    S.AwaitKeepsInv(h);
    DidAppend(h, AwaitNext(h), AwaitEvent, done);
  }

  lemma ForwardLeads(h: Handler, alive: bool, here: bool, done: seq<HandlerAct>)
    requires Led(h, done) && HandlerEnabled(h, alive, Forward(here))
    ensures Led(ForwardNext(h, here), done + [Forward(here)])
  {
    NextInOrder(h, alive, Forward(here), done);
    S.ForwardKeepsInv(h, here);
    DidAppend(h, ForwardNext(h, here), Forward(here), done);
  }

  lemma UnregisterLeads(h: Handler, alive: bool, done: seq<HandlerAct>)
    requires Led(h, done) && HandlerEnabled(h, alive, Unregister)
    ensures Led(HandlerStep(h, alive, Unregister).handler, done + [Unregister])
  {
    NextInOrder(h, alive, Unregister, done);
    S.HandlerStepKeepsInv(h, alive, Unregister);
    DidAppend(h, HandlerStep(h, alive, Unregister).handler, Unregister, done);
  }

  lemma GivingUpLeads(h: Handler, alive: bool, act: HandlerAct, done: seq<HandlerAct>)
    requires Led(h, done) && HandlerEnabled(h, alive, act) && (act.Timeout? || act.Cancel?)
    ensures Led(HandlerStep(h, alive, act).handler, done + [act])
  {
    NextInOrder(h, alive, act, done);
    S.HandlerStepKeepsInv(h, alive, act);
    DidAppend(h, HandlerStep(h, alive, act).handler, act, done);
  }

  lemma StepLeads(h: Handler, alive: bool, act: HandlerAct, done: seq<HandlerAct>)
    requires Led(h, done) && HandlerEnabled(h, alive, act)
    ensures Led(HandlerStep(h, alive, act).handler, done + [act])
  {
    match act {
      case SendHeaders(ok) => HeadersLead(h, alive, ok, done);
      case SendBody(ok) => BodyLeads(h, alive, ok, done);
      case SendEnd(ok) => EndLeads(h, alive, ok, done);
      case AwaitEvent => AwaitLeads(h, alive, done);
      case Forward(here) => ForwardLeads(h, alive, here, done);
      case Timeout => GivingUpLeads(h, alive, act, done);
      case Unregister => UnregisterLeads(h, alive, done);
      case Cancel => GivingUpLeads(h, alive, act, done);
      case _ => SetUpLeads(h, alive, act, done);
    }
  }

  lemma ReceivingLeads(h: Handler, e: StreamEvent, done: seq<HandlerAct>)
    requires Led(h, done)
    ensures Led(h.Receive(e), done)
  {
    assert h.Receive(e).Body() == h.Body();
  }

  ghost predicate AllLed(handlers: seq<Handler>, past: seq<Action>) {
    && (forall key: nat :: key < |handlers| ==> Led(handlers[key], ActsOf(past, key)))
    && (forall key: nat :: key >= |handlers| ==> ActsOf(past, key) == [])
  }

  lemma OtherActs(handlers: seq<Handler>, past: seq<Action>, a: Action)
    requires AllLed(handlers, past) && !a.Handle?
    ensures AllLed(handlers, past + [a])
  {
    forall key: nat ensures ActsOf(past + [a], key) == ActsOf(past, key) {
      ActsAppend(past, a, key);
    }
  }

  lemma UpdateKeepsLed(handlers: seq<Handler>, past: seq<Action>, key: nat, h: Handler, act: HandlerAct)
    requires AllLed(handlers, past) && key < |handlers| && Led(h, ActsOf(past, key) + [act])
    ensures AllLed(handlers[key := h], past + [Handle(key, act)])
  {
    forall k: nat
      ensures ActsOf(past + [Handle(key, act)], k) == if k == key then ActsOf(past, k) + [act] else ActsOf(past, k)
    {
      ActsAppend(past, Handle(key, act), k);
    }
  }

  lemma HandleKeepsLed(t: Tunnel, past: seq<Action>, key: nat, act: HandlerAct)
    requires AllLed(t.handlers, past) && Enabled(t, Handle(key, act))
    ensures AllLed(HandlerMoves(t, key, act).handlers, past + [Handle(key, act)])
  {
    var r := HandlerStep(t.handlers[key], Alive(t, key), act);
    StepLeads(t.handlers[key], Alive(t, key), act, ActsOf(past, key));
    UpdateKeepsLed(t.handlers, past, key, r.handler, act);
  }

  lemma AcceptKeepsLed(handlers: seq<Handler>, past: seq<Action>, id: u32, http: HttpRequest)
    requires AllLed(handlers, past)
    ensures AllLed(handlers + [NewHandler(id, http)], past + [Accept(http)])
  {
    OtherActs(handlers, past, Accept(http));
    ActsAppend(past, Accept(http), |handlers|);
    assert ActsOf(past, |handlers|) == [];
    NewIsLed(id, http);
  }

  lemma NewIsLed(id: u32, http: HttpRequest)
    ensures Led(NewHandler(id, http), [])
  {
  }

  lemma GivenKeepsLed(handlers: seq<Handler>, past: seq<Action>, delivery: Option<Delivery<nat>>)
    requires AllLed(handlers, past)
    ensures AllLed(Given(handlers, delivery), past)
  {
    if delivery.Some? && delivery.value.channel < |handlers| {
      var key := delivery.value.channel;
      ReceivingLeads(handlers[key], delivery.value.event, ActsOf(past, key));
    }
  }

  lemma FetchingKeepsLed(t: Tunnel, past: seq<Action>, ok: bool)
    requires AllLed(t.handlers, past) && Enabled(t, ToProxy(ok))
    ensures AllLed(Step(t, ToProxy(ok)).handlers, past + [ToProxy(ok)])
  {
    OtherActs(t.handlers, past, ToProxy(ok));
    if t.proxy == AwaitingAgree {
      assert Step(t, ToProxy(ok)).handlers == t.handlers;
    } else {
      GivenKeepsLed(t.handlers, past + [ToProxy(ok)], Demux(t.pending, t.down.Next()).delivery);
      ProxyReceivesHandlers(t, ok);
    }
  }

  lemma ProxyReceivesHandlers(t: Tunnel, ok: bool)
    requires Enabled(t, ToProxy(ok)) && Reading(t)
    ensures Step(t, ToProxy(ok)).handlers == Given(t.handlers, Demux(t.pending, t.down.Next()).delivery)
  {
  }

  lemma StepKeepsLed(t: Tunnel, past: seq<Action>, a: Action)
    requires AllLed(t.handlers, past) && Enabled(t, a)
    ensures AllLed(Step(t, a).handlers, past + [a])
  {
    match a {
      case Accept(http) => AcceptKeepsLed(t.handlers, past, t.counter, http);
      case Handle(key, act) => HandleKeepsLed(t, past, key, act);
      case ToProxy(ok) => FetchingKeepsLed(t, past, ok);
      case ToServe(ok) =>
        OtherActs(t.handlers, past, a);
        ServingKeepsHandlers(t, ok);
      case Work(j, act) =>
        OtherActs(t.handlers, past, a);
        assert JobMoves(t, j, act).handlers == t.handlers;
      case _ =>
        OtherActs(t.handlers, past, a);
        QuietStep(t, a);
    }
  }

  // --- Jobs ---

  ghost predicate AnswerFits(jobs: seq<Job>, past: seq<Action>, k: nat, u: Upstream) {
    Work(k, Answered(u)) in past <==> k < |jobs| && jobs[k].upstream == Some(u)
  }

  /** A job's upstream is the one its `Answered` action named, and each job is answered once. */
  ghost predicate AllAnswered(jobs: seq<Job>, past: seq<Action>) {
    forall k: nat, u :: AnswerFits(jobs, past, k, u)
  }

  lemma WorkKeepsAnswered(jobs: seq<Job>, past: seq<Action>, k: nat, act: JobAct)
    requires AllAnswered(jobs, past) && k < |jobs| && JobEnabled(jobs[k], act)
    ensures AllAnswered(jobs[k := JobStep(jobs[k], act).job], past + [Work(k, act)])
  {
    var jobs', past' := jobs[k := JobStep(jobs[k], act).job], past + [Work(k, act)];
    forall i: nat, u ensures AnswerFits(jobs', past', i, u) {
      assert AnswerFits(jobs, past, i, u);
    }
  }

  lemma DispatchKeepsAnswered(jobs: seq<Job>, past: seq<Action>, request: Request)
    requires AllAnswered(jobs, past)
    ensures AllAnswered(jobs + [NewJob(request)], past)
  {
    forall i: nat, u ensures AnswerFits(jobs + [NewJob(request)], past, i, u) {
      assert AnswerFits(jobs, past, i, u);
    }
  }

  lemma OthersKeepAnswered(jobs: seq<Job>, past: seq<Action>, a: Action)
    requires AllAnswered(jobs, past) && !a.Work?
    ensures AllAnswered(jobs, past + [a])
  {
    forall i: nat, u ensures AnswerFits(jobs, past + [a], i, u) {
      assert AnswerFits(jobs, past, i, u);
    }
  }

  lemma ServingDispatches(t: Tunnel, ok: bool) returns (jobs: seq<Job>)
    requires Enabled(t, ToServe(ok))
    ensures jobs == Step(t, ToServe(ok)).jobs
    ensures jobs == t.jobs || (|jobs| == |t.jobs| + 1 && jobs == t.jobs + [NewJob(jobs[|t.jobs|].request)])
  {
    if t.serve == AwaitingHello {
      jobs := Greet(Taken(t), t.up.Next(), ok).jobs;
    } else {
      jobs := ServeReceives(Taken(t), t.up.Next(), ok).jobs;
    }
  }

  lemma ServingKeepsAnswered(t: Tunnel, past: seq<Action>, ok: bool)
    requires AllAnswered(t.jobs, past) && Enabled(t, ToServe(ok))
    ensures AllAnswered(Step(t, ToServe(ok)).jobs, past + [ToServe(ok)])
  {
    OthersKeepAnswered(t.jobs, past, ToServe(ok));
    var jobs := ServingDispatches(t, ok);
    if jobs != t.jobs {
      DispatchKeepsAnswered(t.jobs, past + [ToServe(ok)], jobs[|t.jobs|].request);
    }
  }

  lemma StepKeepsAnswered(t: Tunnel, past: seq<Action>, a: Action)
    requires AllAnswered(t.jobs, past) && Enabled(t, a)
    ensures AllAnswered(Step(t, a).jobs, past + [a])
  {
    match a {
      case Work(k, act) =>
        WorkKeepsAnswered(t.jobs, past, k, act);
        assert JobMoves(t, k, act).jobs == t.jobs[k := JobStep(t.jobs[k], act).job];
      case ToServe(ok) => ServingKeepsAnswered(t, past, ok);
      case Accept(_) => OthersKeepAnswered(t.jobs, past, a);
      case Handle(key, act) =>
        OthersKeepAnswered(t.jobs, past, a);
        assert HandlerMoves(t, key, act).jobs == t.jobs;
      case ToProxy(ok) =>
        OthersKeepAnswered(t.jobs, past, a);
        FetchingKeepsJobs(t, ok);
      case _ =>
        OthersKeepAnswered(t.jobs, past, a);
        QuietStep(t, a);
    }
  }

  lemma FetchingKeepsJobs(t: Tunnel, ok: bool)
    requires Enabled(t, ToProxy(ok))
    ensures Step(t, ToProxy(ok)).jobs == t.jobs
  {
    if t.proxy == AwaitingAgree {
      assert Step(t, ToProxy(ok)) == Welcome(Fetched(t), t.down.Next());
    } else {
      assert Step(t, ToProxy(ok)) == ProxyReceives(Fetched(t), t.down.Next(), ok);
    }
  }

  // --- The two sides ---

  /** Why a side is where it is. */
  ghost predicate Caused(t: Tunnel, past: seq<Action>) {
    && (t.proxy == Opening <==> SendHello(true) !in past && SendHello(false) !in past)
    && (t.proxy == ProxyFailed <==> SendHello(false) in past || ProxyGivesUp in past)
    && (t.proxy == Detached <==> ProxyDisconnects in past)
    && (t.serve == Ended(HelloTimeout) <==> ServeGivesUp in past)
    && (t.serve == Ended(Disconnected) <==> ServeDisconnects in past)
    && (t.serve == Ended(AgreeSendFailed) ==> ToServe(false) in past)
    && (t.proxyPinging <==> Reading(t) && ProxyPing(false) !in past)
    && (t.servePinging <==> t.serve == Running && ServePing(false) !in past)
    && (!Reading(t) ==> ProxyPing(false) !in past)
    && (t.serve == AwaitingHello ==> ServePing(false) !in past)
  }

  lemma OthersKeepCaused(t: Tunnel, t': Tunnel, past: seq<Action>, a: Action)
    requires Caused(t, past) && (a.Accept? || a.Handle? || a.Work? || a.ToServe? || a.ToProxy?)
    requires t'.proxy == t.proxy && t'.serve == t.serve
    requires t'.proxyPinging == t.proxyPinging && t'.servePinging == t.servePinging
    ensures Caused(t', past + [a])
  {
  }

  lemma ServingKeepsCaused(t: Tunnel, past: seq<Action>, ok: bool)
    requires Caused(t, past) && H.Greeted(t) && Enabled(t, ToServe(ok))
    ensures Caused(Step(t, ToServe(ok)), past + [ToServe(ok)])
  {
    if t.serve == AwaitingHello {
      H.OursAgree();
      assert t.up.Next() == Hello(P.NewHello());
    } else {
      ServingKeepsPhases(t, ok);
      OthersKeepCaused(t, Step(t, ToServe(ok)), past, ToServe(ok));
    }
  }

  lemma ServingKeepsPhases(t: Tunnel, ok: bool)
    requires Enabled(t, ToServe(ok)) && t.serve == Running
    ensures var t' := Step(t, ToServe(ok));
            && t'.proxy == t.proxy && t'.serve == t.serve
            && t'.proxyPinging == t.proxyPinging && t'.servePinging == t.servePinging
  {
  }

  lemma FetchingKeepsPhases(t: Tunnel, ok: bool)
    requires Enabled(t, ToProxy(ok)) && Reading(t)
    ensures var t' := Step(t, ToProxy(ok));
            && t'.proxy == t.proxy && t'.serve == t.serve
            && t'.proxyPinging == t.proxyPinging && t'.servePinging == t.servePinging
  {
  }

  lemma FetchingKeepsCaused(t: Tunnel, past: seq<Action>, ok: bool)
    requires Caused(t, past) && H.Greeted(t) && Enabled(t, ToProxy(ok))
    ensures Caused(Step(t, ToProxy(ok)), past + [ToProxy(ok)])
  {
    if t.proxy == AwaitingAgree {
      assert t.down.Next() == Agree(H.AGREED);
    } else {
      FetchingKeepsPhases(t, ok);
      OthersKeepCaused(t, Step(t, ToProxy(ok)), past, ToProxy(ok));
    }
  }

  lemma QuietKeepsCaused(t: Tunnel, past: seq<Action>, a: Action)
    requires Caused(t, past) && Enabled(t, a) && Quiet(a)
    ensures Caused(Step(t, a), past + [a])
  {
  }

  lemma StepKeepsCaused(t: Tunnel, past: seq<Action>, a: Action)
    requires Caused(t, past) && H.Greeted(t) && Enabled(t, a)
    ensures Caused(Step(t, a), past + [a])
  {
    match a {
      case Accept(_) => OthersKeepCaused(t, Step(t, a), past, a);
      case Handle(_, _) => OthersKeepCaused(t, Step(t, a), past, a);
      case Work(_, _) => OthersKeepCaused(t, Step(t, a), past, a);
      case ToServe(ok) => ServingKeepsCaused(t, past, ok);
      case ToProxy(ok) => FetchingKeepsCaused(t, past, ok);
      case _ => QuietKeepsCaused(t, past, a);
    }
  }

  // --- Runs ---

  lemma {:induction false} RunKeepsLed(t: Tunnel, past: seq<Action>, acts: seq<Action>)
    requires AllLed(t.handlers, past) && Valid(t, acts)
    ensures AllLed(Run(t, acts).handlers, past + acts)
    decreases |acts|
  {
    if acts == [] {
      assert past + acts == past;
    } else {
      assert past + [acts[0]] + acts[1..] == past + acts;
      StepKeepsLed(t, past, acts[0]);
      RunKeepsLed(Step(t, acts[0]), past + [acts[0]], acts[1..]);
    }
  }

  lemma {:induction false} RunKeepsAnswered(t: Tunnel, past: seq<Action>, acts: seq<Action>)
    requires AllAnswered(t.jobs, past) && Valid(t, acts)
    ensures AllAnswered(Run(t, acts).jobs, past + acts)
    decreases |acts|
  {
    if acts == [] {
      assert past + acts == past;
    } else {
      assert past + [acts[0]] + acts[1..] == past + acts;
      StepKeepsAnswered(t, past, acts[0]);
      RunKeepsAnswered(Step(t, acts[0]), past + [acts[0]], acts[1..]);
    }
  }

  lemma {:induction false} RunKeepsCaused(t: Tunnel, past: seq<Action>, acts: seq<Action>)
    requires Caused(t, past) && H.Greeted(t) && Valid(t, acts)
    ensures Caused(Run(t, acts), past + acts)
    decreases |acts|
  {
    if acts == [] {
      assert past + acts == past;
    } else {
      assert past + [acts[0]] + acts[1..] == past + acts;
      StepKeepsCaused(t, past, acts[0]);
      H.StepKeepsGreeted(t, acts[0]);
      RunKeepsCaused(Step(t, acts[0]), past + [acts[0]], acts[1..]);
    }
  }

  /**
   * In every run each handler did its acts in program order, and stands where they lead: what it has sent, whether it
   * has an entry, and the reply it gives all follow from them. In particular a handler that waits for its response has
   * tried to send the end of its request, a failed body send notwithstanding.
   */
  lemma HandlersFollowTheirProgram(acts: seq<Action>, t: Tunnel, key: nat)
    requires Reached(acts, t) && key < |t.handlers|
    ensures Led(t.handlers[key], ActsOf(acts, key))
  {
    assert [] + acts == acts;
    RunKeepsLed(START, [], acts);
  }

  /** Nothing rules a request or a failure out: once there is an agreement requests may come, each send may succeed or
      fail, the wait may time out, and the handler's future may be dropped until it has returned its response. */
  lemma FailuresArePossible(t: Tunnel, key: nat, j: nat)
    requires key < |t.handlers|
    ensures Enabled(t, Handle(key, SendHeaders(true))) <==> Enabled(t, Handle(key, SendHeaders(false)))
    ensures Enabled(t, Handle(key, SendBody(true))) <==> Enabled(t, Handle(key, SendBody(false)))
    ensures Enabled(t, Handle(key, SendEnd(true))) <==> Enabled(t, Handle(key, SendEnd(false)))
    ensures Enabled(t, Handle(key, Forward(true))) <==> Enabled(t, Handle(key, Forward(false)))
    ensures Enabled(t, Work(j, SendNext(true))) <==> Enabled(t, Work(j, SendNext(false)))
    ensures Reading(t) ==> forall http :: Enabled(t, Accept(http))
    ensures t.handlers[key].stage == Awaiting ==> Enabled(t, Handle(key, Timeout))
    ensures !t.handlers[key].stage.Finished? && t.handlers[key].stage != Forwarding ==> Enabled(t, Handle(key, Cancel))
  {
  }

  /** What a run must contain for a handler to end the way it did. */
  ghost predicate HasCause(acts: seq<Action>, h: Handler, key: nat, outcome: Outcome) {
    match outcome
    case BadRequest => h.http.body.None?
    case SendFailed => h.enrolled && !h.headersSent && Handle(key, SendHeaders(false)) in acts
    case TimedOut => h.headersSent && Handle(key, Timeout) in acts
    case TunnelError => h.headersSent && Handle(key, AwaitEvent) in acts
    case Cancelled => Handle(key, Cancel) in acts
    case ClientGone => h.headersSent && Handle(key, Forward(false)) in acts
    case _ => h.headersSent && (Handle(key, Forward(true)) in acts || Handle(key, Forward(false)) in acts)
  }

  /** The cause is the last act, or the one before the entry was taken out. */
  lemma LedHasCause(acts: seq<Action>, h: Handler, key: nat, done: seq<HandlerAct>)
    requires Led(h, done) && done != [] && Handle(key, done[|done| - 1]) in acts
    requires |done| >= 2 ==> Handle(key, done[|done| - 2]) in acts && MayFollow(done[|done| - 2], done[|done| - 1])
    ensures h.stage.Removing? ==> HasCause(acts, h, key, h.stage.reply)
    ensures h.stage.Finished? ==> HasCause(acts, h, key, h.stage.outcome)
  {
    match done[|done| - 1] {
      case Unregister =>
        match done[|done| - 2] {
          case SendHeaders(ok) =>
          case _ =>
        }
      case _ =>
    }
  }

  lemma ActsHaveCause(acts: seq<Action>, h: Handler, key: nat)
    requires Led(h, ActsOf(acts, key))
    ensures h.stage.Removing? ==> HasCause(acts, h, key, h.stage.reply)
    ensures h.stage.Finished? ==> HasCause(acts, h, key, h.stage.outcome)
  {
    var done := ActsOf(acts, key);
    if done != [] {
      ActsAreActions(acts, key, done[|done| - 1]);
      if |done| >= 2 {
        ActsAreActions(acts, key, done[|done| - 2]);
      }
      LedHasCause(acts, h, key, done);
    }
  }

  /** Every reply and every end of a handler has its cause in the run: no timeout without a timeout, and so on. */
  lemma OutcomesHaveCauses(acts: seq<Action>, t: Tunnel, key: nat)
    requires Reached(acts, t) && key < |t.handlers|
    ensures var h := t.handlers[key];
            && (h.stage.Removing? ==> HasCause(acts, h, key, h.stage.reply))
            && (h.stage.Finished? ==> HasCause(acts, h, key, h.stage.outcome))
    ensures var h := t.handlers[key];
            h.stage == Finished(BadRequest) <==>
            h.http.body.None? && h.stage != Collecting && h.stage != Finished(Cancelled)
  {
    HandlersFollowTheirProgram(acts, t, key);
    ActsHaveCause(acts, t.handlers[key], key);
  }

  /** In every run a job's upstream is what answered it, once. */
  lemma JobsHoldTheirAnswers(acts: seq<Action>, t: Tunnel, k: nat, u: Upstream)
    requires Reached(acts, t)
    ensures Work(k, Answered(u)) in acts <==> k < |t.jobs| && t.jobs[k].upstream == Some(u)
  {
    assert [] + acts == acts;
    assert forall i: nat, v :: AnswerFits(START.jobs, [], i, v);
    RunKeepsAnswered(START, [], acts);
    assert AnswerFits(t.jobs, acts, k, u);
  }

  /** In every run each side is where its own actions put it, and pings until a ping fails. */
  lemma PhasesHaveCauses(acts: seq<Action>, t: Tunnel)
    requires Reached(acts, t)
    ensures Caused(t, acts)
  {
    assert [] + acts == acts;
    H.RunKeepsGreeted(START, []);
    RunKeepsCaused(START, [], acts);
  }
}
