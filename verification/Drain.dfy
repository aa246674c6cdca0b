/** Without new requests and timer ticks the tunnel comes to rest, and what it looks like then. */
module Drain {
  import opened Primitives
  import opened Frames
  import opened Proxy
  import opened Serve
  import opened Channel
  import opened Tunnel
  import opened Projection
  import opened StreamFacts
  import opened TunnelTheorems
  import P = Protocol
  import S = Stream
  import H = History

  function Sum<T>(f: T -> nat, xs: seq<T>): nat {
    if xs == [] then 0 else Sum(f, xs[..|xs| - 1]) + f(xs[|xs| - 1])
  }

  lemma SumAppend<T>(f: T -> nat, xs: seq<T>, x: T)
    ensures Sum(f, xs + [x]) == Sum(f, xs) + f(x)
  {
    assert (xs + [x])[..|xs|] == xs;
  }

  lemma {:induction false} SumUpdate<T>(f: T -> nat, xs: seq<T>, i: nat, x: T)
    requires i < |xs|
    ensures Sum(f, xs[i := x]) + f(xs[i]) == Sum(f, xs) + f(x)
  {
    var last := |xs| - 1;
    if i == last {
      assert xs[i := x] == xs[..last] + [x];
      SumAppend(f, xs[..last], x);
    } else {
      SumUpdate(f, xs[..last], i, x);
      assert xs[i := x][..last] == xs[..last][i := x];
    }
  }

  // --- The measure ---

  /** Pings sent but not yet received. */
  function PingsIn(l: Link): int
    requires l.delivered <= |l.sent|
  {
    |Filter(IsPing, l.sent)| - |Filter(IsPing, l.sent[..l.delivered])|
  }

  function InFlight(l: Link): nat
    requires l.delivered <= |l.sent|
  {
    |l.sent| - l.delivered
  }

  function StageRank(stage: Stage): nat {
    match stage
    case Collecting => 12
    case Registering => 11
    case SendingHeaders => 10
    case SendingBody => 6
    case SendingEnd => 4
    case Awaiting => 2
    case Removing(_) => 1
    case Forwarding => 1
    case Finished(_) => 0
  }

  /** What a handler still has to do on its own account. */
  function Errand(h: Handler): nat {
    StageRank(h.stage) + 2 * (if h.offset <= |h.Body()| then |h.Body()| - h.offset else 0)
  }

  function Unread(h: Handler): nat {
    if h.taken <= |h.events| then |h.events| - h.taken else 0
  }

  function Unanswered(j: Job): nat {
    if j.upstream.None? then 1 else 0
  }

  function Unsent(j: Job): nat {
    if !j.failed && j.sent <= |j.Frames()| then 3 * (|j.Frames()| - j.sent) else 0
  }

  function ProxyRank(p: ProxyPhase): nat {
    match p
    case Opening => 4
    case AwaitingAgree => 2
    case Listening => 1
    case Detached => 0
    case ProxyFailed => 0
  }

  function ServeRank(p: ServePhase): nat {
    match p
    case AwaitingHello => 2
    case Running => 1
    case Ended(_) => 0
  }

  datatype Measure = Measure(pings: int, requests: nat, unanswered: nat, responses: nat) {
    predicate Below(m: Measure) {
      || pings < m.pings
      || (pings == m.pings && (|| requests < m.requests
                               || (requests == m.requests && (|| unanswered < m.unanswered
                                                              || (unanswered == m.unanswered &&
                                                                  responses < m.responses)))))
    }
  }

  ghost function Pending(t: Tunnel): Measure
    requires t.up.Valid() && t.down.Valid()
  {
    Measure(PingsIn(t.up) + PingsIn(t.down),
            ProxyRank(t.proxy) + ServeRank(t.serve) + Sum(Errand, t.handlers) + InFlight(t.up),
            Sum(Unanswered, t.jobs),
            Sum(Unread, t.handlers) + Sum(Unsent, t.jobs) + 2 * InFlight(t.down))
  }

  /** Everything except new requests and the keepalive timer. */
  predicate Draining(a: Action) {
    !a.Accept? && !a.ProxyPing? && !a.ServePing?
  }

  lemma PingsAreCounted(l: Link)
    requires l.delivered <= |l.sent|
    ensures PingsIn(l) >= 0
    ensures l.delivered < |l.sent| ==> PingsIn(l.Deliver()) == PingsIn(l) - (if l.sent[l.delivered].Ping? then 1 else 0)
  {
    FilterPrefix(IsPing, l.sent, l.delivered);
    if l.delivered < |l.sent| {
      assert l.sent[..l.delivered + 1] == l.sent[..l.delivered] + [l.sent[l.delivered]];
      FilterAppend(IsPing, l.sent[..l.delivered], l.sent[l.delivered]);
    }
  }

  lemma SendingAddsNoPing(l: Link, fs: seq<Frame>)
    requires l.delivered <= |l.sent| && |fs| <= 1
    requires forall f :: f in fs ==> !f.Ping?
    ensures PingsIn(l.Send(fs)) == PingsIn(l) && InFlight(l.Send(fs)) == InFlight(l) + |fs|
  {
    assert l.Send(fs).sent[..l.delivered] == l.sent[..l.delivered];
    if fs == [] {
      assert l.sent + fs == l.sent;
    } else {
      assert fs == [fs[0]];
      FilterAppend(IsPing, l.sent, fs[0]);
    }
  }

  ghost predicate Progresses(h: Handler, r: Stepped) {
    || Errand(r.handler) + |r.emitted| < Errand(h)
    || (Errand(r.handler) == Errand(h) && r.emitted == [] && Unread(r.handler) < Unread(h))
  }

  /** Reading changes neither the body nor how much of it was sent. */
  ghost predicate OnlyReads(h: Handler, h': Handler) {
    && h'.http == h.http && h'.offset == h.offset && h'.events == h.events
    && (StageRank(h'.stage) < StageRank(h.stage) || (h'.stage == h.stage && h'.taken == h.taken + 1 <= |h.events|))
  }

  lemma ReadsLower(h: Handler, h': Handler)
    requires OnlyReads(h, h')
    ensures Progresses(h, Stepped(h', [], Keep))
  {
    assert h'.Body() == h.Body();
  }

  lemma AwaitOnlyReads(h: Handler, alive: bool)
    requires HandlerEnabled(h, alive, AwaitEvent)
    ensures OnlyReads(h, AwaitNext(h))
  {
  }

  lemma ForwardsOne(h: Handler, clientHere: bool)
    requires h.stage == Forwarding && h.taken < |h.events|
    ensures OnlyReads(h, ForwardNext(h, clientHere))
  {
  }

  lemma ForwardOnlyReads(h: Handler, alive: bool, clientHere: bool)
    requires HandlerEnabled(h, alive, Forward(clientHere))
    ensures OnlyReads(h, ForwardNext(h, clientHere))
  {
    if h.taken < |h.events| {
      ForwardsOne(h, clientHere);
    }
  }

  lemma ReadingProgresses(h: Handler, h': Handler, r: Stepped)
    requires OnlyReads(h, h') && r == Stepped(h', [], Keep)
    ensures Progresses(h, r)
  {
    ReadsLower(h, h');
  }

  lemma SendBodyProgresses(h: Handler, alive: bool, ok: bool)
    requires HandlerEnabled(h, alive, SendBody(ok))
    ensures Progresses(h, HandlerStep(h, alive, SendBody(ok)))
  {
    var h' := HandlerStep(h, alive, SendBody(ok)).handler;
    assert h'.Body() == h.Body();
  }

  lemma EdgeFrameProgresses(h: Handler, alive: bool, act: HandlerAct)
    requires HandlerEnabled(h, alive, act) && (act.SendHeaders? || act.SendEnd?)
    ensures Progresses(h, HandlerStep(h, alive, act))
  {
    var h' := HandlerStep(h, alive, act).handler;
    assert h'.Body() == h.Body() && h'.offset == h.offset;
  }

  lemma StageProgresses(h: Handler, alive: bool, act: HandlerAct)
    requires HandlerEnabled(h, alive, act)
    requires act.ReadBody? || act.Register? || act.Timeout? || act.Unregister? || act.Cancel?
    ensures Progresses(h, HandlerStep(h, alive, act))
  {
    var h' := HandlerStep(h, alive, act).handler;
    assert h'.Body() == h.Body() && h'.offset == h.offset;
  }

  /** A handler step shortens the handler's errand by more than it puts on the wire, or reads an event. */
  lemma HandlerProgresses(h: Handler, alive: bool, act: HandlerAct)
    requires HandlerEnabled(h, alive, act)
    ensures Progresses(h, HandlerStep(h, alive, act))
  {
    match act {
      case AwaitEvent =>
        AwaitOnlyReads(h, alive);
        ReadingProgresses(h, AwaitNext(h), HandlerStep(h, alive, act));
      case Forward(clientHere) =>
        ForwardOnlyReads(h, alive, clientHere);
        ReadingProgresses(h, ForwardNext(h, clientHere), HandlerStep(h, alive, act));
      case SendBody(ok) => SendBodyProgresses(h, alive, ok);
      case SendHeaders(_) => EdgeFrameProgresses(h, alive, act);
      case SendEnd(_) => EdgeFrameProgresses(h, alive, act);
      case _ => StageProgresses(h, alive, act);
    }
  }

  lemma JobProgresses(j: Job, act: JobAct)
    requires JobEnabled(j, act)
    ensures var r := JobStep(j, act);
            || Unanswered(r.job) < Unanswered(j)
            || (Unanswered(r.job) == Unanswered(j) && Unsent(r.job) + 2 * |r.emitted| < Unsent(j))
    ensures var r := JobStep(j, act); |r.emitted| <= 1 && forall f :: f in r.emitted ==> !f.Ping?
  {
    JobEmits(j, act);
  }

  lemma ErrandsLower(handlers: seq<Handler>, key: nat, h: Handler, up: Link, emitted: seq<Frame>)
    requires key < |handlers| && up.Valid() && |emitted| <= 1
    requires forall f :: f in emitted ==> !f.Ping?
    requires Progresses(handlers[key], Stepped(h, emitted, Keep))
    ensures PingsIn(up.Send(emitted)) == PingsIn(up)
    ensures var was, now := Sum(Errand, handlers) + InFlight(up),
            Sum(Errand, handlers[key := h]) + InFlight(up.Send(emitted));
            now < was || (now == was && Sum(Unread, handlers[key := h]) < Sum(Unread, handlers))
  {
    SendingAddsNoPing(up, emitted);
    SumUpdate(Errand, handlers, key, h);
    SumUpdate(Unread, handlers, key, h);
  }

  lemma SteppedLowers(t: Tunnel, key: nat, r: Stepped)
    requires t.up.Valid() && t.down.Valid() && key < |t.handlers| && |r.emitted| <= 1
    requires forall f :: f in r.emitted ==> !f.Ping?
    requires Progresses(t.handlers[key], r)
    ensures Moved(t, key, r).up.Valid() && Moved(t, key, r).down == t.down
    ensures Pending(Moved(t, key, r)).Below(Pending(t))
  {
    ErrandsLower(t.handlers, key, r.handler, t.up, r.emitted);
  }

  lemma HandleLowers(t: Tunnel, key: nat, act: HandlerAct)
    requires t.up.Valid() && t.down.Valid() && Enabled(t, Handle(key, act))
    ensures HandlerMoves(t, key, act).up.Valid() && HandlerMoves(t, key, act).down == t.down
    ensures Pending(HandlerMoves(t, key, act)).Below(Pending(t))
  {
    var h := t.handlers[key];
    var r := HandlerStep(h, Alive(t, key), act);
    HandlerProgresses(h, Alive(t, key), act);
    HandlerEmits(h, Alive(t, key), act);
    SteppedLowers(t, key, r);
  }

  lemma WorkLowers(t: Tunnel, j: nat, act: JobAct)
    requires t.up.Valid() && t.down.Valid() && Enabled(t, Work(j, act))
    ensures JobMoves(t, j, act).down.Valid() && Pending(JobMoves(t, j, act)).Below(Pending(t))
  {
    var r := JobStep(t.jobs[j], act);
    JobProgresses(t.jobs[j], act);
    SendingAddsNoPing(t.down, r.emitted);
    SumUpdate(Unanswered, t.jobs, j, r.job);
    SumUpdate(Unsent, t.jobs, j, r.job);
  }

  lemma TakingLowers(t: Tunnel)
    requires t.up.Valid() && t.down.Valid() && t.up.Waiting()
    ensures Taken(t).up.Valid() && InFlight(Taken(t).up) == InFlight(t.up) - 1
    ensures PingsIn(Taken(t).up) <= PingsIn(t.up)
  {
    PingsAreCounted(t.up);
  }

  lemma PingTakenLowers(t: Tunnel, ok: bool)
    requires t.up.Valid() && t.down.Valid() && t.up.Waiting() && t.up.Next().Ping?
    ensures var t' := Taken(t).(down := t.down.Send(Sent(Pong, ok)));
            t'.up.Valid() && t'.down.Valid() && Pending(t').Below(Pending(t))
  {
    TakingLowers(t);
    SendingAddsNoPing(t.down, Sent(Pong, ok));
  }

  lemma RequestTakenLowers(t: Tunnel, partials: map<u32, Request>, jobs: seq<Job>)
    requires t.up.Valid() && t.down.Valid() && t.up.Waiting()
    ensures var t' := Taken(t).(partials := partials, jobs := jobs);
            t'.up.Valid() && t'.down.Valid() && Pending(t').Below(Pending(t))
  {
    TakingLowers(t);
  }

  lemma ServeReceivesLowers(t: Tunnel, ok: bool)
    requires t.up.Valid() && t.down.Valid() && t.up.Waiting()
    ensures var t' := ServeReceives(Taken(t), t.up.Next(), ok);
            t'.up.Valid() && t'.down.Valid() && Pending(t').Below(Pending(t))
  {
    var f := t.up.Next();
    if f.Ping? {
      PingTakenLowers(t, ok);
    } else {
      var r := Reassemble(t.partials, f);
      RequestTakenLowers(t, r.partials, if r.dispatched.Some? then t.jobs + [NewJob(r.dispatched.value)] else t.jobs);
    }
  }

  lemma GreetedLowers(t: Tunnel, serve: ServePhase, pinging: bool, fs: seq<Frame>)
    requires t.up.Valid() && t.down.Valid() && t.up.Waiting() && ServeRank(serve) <= ServeRank(t.serve)
    requires |fs| <= 1 && forall f :: f in fs ==> !f.Ping?
    ensures var t' := Taken(t).(serve := serve, servePinging := pinging, down := t.down.Send(fs));
            t'.up.Valid() && t'.down.Valid() && Pending(t').Below(Pending(t))
  {
    TakingLowers(t);
    SendingAddsNoPing(t.down, fs);
  }

  lemma GreetIs(t: Tunnel, f: Frame, ok: bool) returns (fs: seq<Frame>)
    requires t.serve == AwaitingHello
    ensures |fs| <= 1 && forall f :: f in fs ==> !f.Ping?
    ensures var t' := Greet(t, f, ok);
            && ServeRank(t'.serve) <= 2
            && t' == t.(serve := t'.serve, servePinging := t'.servePinging, down := t.down.Send(fs))
  {
    assert t.down.Send([]) == t.down;
    fs := if ok && f.Hello? && P.FromHello(f.hello).Ok? then [Agree(P.FromHello(f.hello).value)] else [];
  }

  lemma GreetLowers(t: Tunnel, ok: bool)
    requires t.up.Valid() && t.down.Valid() && t.up.Waiting() && t.serve == AwaitingHello
    ensures var t' := Greet(Taken(t), t.up.Next(), ok);
            t'.up.Valid() && t'.down.Valid() && Pending(t').Below(Pending(t))
  {
    var fs := GreetIs(Taken(t), t.up.Next(), ok);
    var t' := Greet(Taken(t), t.up.Next(), ok);
    GreetedLowers(t, t'.serve, t'.servePinging, fs);
  }

  lemma ReceivingAddsOneEvent(handlers: seq<Handler>, delivery: Option<Delivery<nat>>)
    ensures Sum(Errand, Given(handlers, delivery)) == Sum(Errand, handlers)
    ensures Sum(Unread, Given(handlers, delivery)) <= Sum(Unread, handlers) + 1
  {
    if delivery.Some? && delivery.value.channel < |handlers| {
      var key := delivery.value.channel;
      var h := handlers[key].Receive(delivery.value.event);
      SumUpdate(Errand, handlers, key, h);
      SumUpdate(Unread, handlers, key, h);
    }
  }

  lemma FetchingLowers(t: Tunnel)
    requires t.up.Valid() && t.down.Valid() && t.down.Waiting()
    ensures Fetched(t).down.Valid() && InFlight(Fetched(t).down) == InFlight(t.down) - 1
    ensures PingsIn(Fetched(t).down) == PingsIn(t.down) - (if t.down.Next().Ping? then 1 else 0)
  {
    PingsAreCounted(t.down);
  }

  lemma PingReceivedLowers(t: Tunnel, ok: bool)
    requires t.up.Valid() && t.down.Valid() && t.down.Waiting() && t.down.Next().Ping?
    ensures var t' := Fetched(t).(up := t.up.Send(Sent(Pong, ok)));
            t'.up.Valid() && t'.down.Valid() && Pending(t').Below(Pending(t))
  {
    FetchingLowers(t);
    SendingAddsNoPing(t.up, Sent(Pong, ok));
  }

  lemma ResponseReceivedLowers(t: Tunnel, pending: map<u32, nat>, delivery: Option<Delivery<nat>>)
    requires t.up.Valid() && t.down.Valid() && t.down.Waiting() && !t.down.Next().Ping?
    ensures var t' := Fetched(t).(pending := pending, handlers := Given(t.handlers, delivery));
            t'.up.Valid() && t'.down.Valid() && Pending(t').Below(Pending(t))
  {
    FetchingLowers(t);
    ReceivingAddsOneEvent(t.handlers, delivery);
  }

  lemma ProxyReceivesLowers(t: Tunnel, ok: bool)
    requires t.up.Valid() && t.down.Valid() && t.down.Waiting()
    ensures var t' := ProxyReceives(Fetched(t), t.down.Next(), ok);
            t'.up.Valid() && t'.down.Valid() && Pending(t').Below(Pending(t))
  {
    var f := t.down.Next();
    if f.Ping? {
      PingReceivedLowers(t, ok);
    } else {
      ResponseReceivedLowers(t, Demux(t.pending, f).pending, Demux(t.pending, f).delivery);
    }
  }

  lemma ToServeLowers(t: Tunnel, ok: bool)
    requires t.up.Valid() && t.down.Valid() && Enabled(t, ToServe(ok))
    ensures var t' := Step(t, ToServe(ok)); t'.up.Valid() && t'.down.Valid() && Pending(t').Below(Pending(t))
  {
    if t.serve == AwaitingHello {
      GreetLowers(t, ok);
    } else {
      ServeReceivesLowers(t, ok);
    }
  }

  lemma AgreeingLowers(t: Tunnel, phase: ProxyPhase, pinging: bool)
    requires t.up.Valid() && t.down.Valid() && t.down.Waiting() && t.proxy == AwaitingAgree
    requires phase == Listening || phase == ProxyFailed
    ensures Pending(Fetched(t).(proxy := phase, proxyPinging := pinging)).Below(Pending(t))
  {
    PingsAreCounted(t.down);
  }

  lemma WelcomeLowers(t: Tunnel)
    requires t.up.Valid() && t.down.Valid() && t.down.Waiting() && t.proxy == AwaitingAgree
    ensures var t' := Welcome(Fetched(t), t.down.Next());
            t'.up.Valid() && t'.down.Valid() && Pending(t').Below(Pending(t))
  {
    if t.down.Next().Agree? {
      AgreeingLowers(t, Listening, true);
    } else {
      AgreeingLowers(t, ProxyFailed, t.proxyPinging);
    }
  }

  lemma ToProxyLowers(t: Tunnel, ok: bool)
    requires t.up.Valid() && t.down.Valid() && Enabled(t, ToProxy(ok))
    ensures var t' := Step(t, ToProxy(ok)); t'.up.Valid() && t'.down.Valid() && Pending(t').Below(Pending(t))
  {
    if t.proxy == AwaitingAgree {
      WelcomeLowers(t);
    } else {
      ProxyReceivesLowers(t, ok);
    }
  }

  lemma HelloLowers(t: Tunnel, ok: bool)
    requires t.up.Valid() && t.down.Valid() && Enabled(t, SendHello(ok))
    ensures var t' := Step(t, SendHello(ok)); t'.up.Valid() && t'.down.Valid() && Pending(t').Below(Pending(t))
  {
    SendingAddsNoPing(t.up, [Hello(P.NewHello())]);
  }

  lemma EndingLowers(t: Tunnel, proxy: ProxyPhase, serve: ServePhase, pinging: bool)
    requires t.up.Valid() && t.down.Valid()
    requires ProxyRank(proxy) + ServeRank(serve) < ProxyRank(t.proxy) + ServeRank(t.serve)
    ensures Pending(t.(proxy := proxy, serve := serve, servePinging := pinging)).Below(Pending(t))
  {
  }

  lemma GivingUpLowers(t: Tunnel, a: Action)
    requires t.up.Valid() && t.down.Valid() && Enabled(t, a)
    requires a.ProxyGivesUp? || a.ServeGivesUp? || a.ProxyDisconnects? || a.ServeDisconnects?
    ensures Step(t, a).up == t.up && Step(t, a).down == t.down && Pending(Step(t, a)).Below(Pending(t))
  {
    var t' := Step(t, a);
    EndingLowers(t, t'.proxy, t'.serve, t'.servePinging);
  }

  /** Every draining step lowers the measure; in particular a ping begets at most a pong, and a pong nothing. */
  lemma DrainingLowers(t: Tunnel, a: Action)
    requires t.up.Valid() && t.down.Valid() && Enabled(t, a) && Draining(a)
    ensures var t' := Step(t, a); t'.up.Valid() && t'.down.Valid() && Pending(t').Below(Pending(t))
  {
    match a {
      case Handle(key, act) => HandleLowers(t, key, act);
      case Work(j, act) => WorkLowers(t, j, act);
      case ToServe(ok) => ToServeLowers(t, ok);
      case ToProxy(ok) => ToProxyLowers(t, ok);
      case SendHello(ok) => HelloLowers(t, ok);
      case _ => GivingUpLowers(t, a);
    }
  }

  ghost predicate DrainStep(states: nat -> Tunnel, acts: nat -> Action, n: nat) {
    Enabled(states(n), acts(n)) && Draining(acts(n)) && states(n + 1) == Step(states(n), acts(n))
  }

  /** No run drains forever: from any state on, some step is a new request, a timer tick, or none at all. */
  lemma {:induction false} DrainingEnds(states: nat -> Tunnel, acts: nat -> Action, from: nat)
    requires states(from).up.Valid() && states(from).down.Valid()
    ensures exists n :: n >= from && !DrainStep(states, acts, n)
    decreases PingsIn(states(from).up) + PingsIn(states(from).down), Pending(states(from)).requests,
              Pending(states(from)).unanswered, Pending(states(from)).responses
  {
    if DrainStep(states, acts, from) {
      PingsAreCounted(states(from).up);
      PingsAreCounted(states(from).down);
      DrainingLowers(states(from), acts(from));
      PingsAreCounted(states(from + 1).up);
      PingsAreCounted(states(from + 1).down);
      DrainingEnds(states, acts, from + 1);
    }
  }

  // --- At rest ---

  /** The steps the two programs take by themselves, timeouts included. */
  predicate Own(a: Action) {
    a.ToServe? || a.ToProxy? || a.Work? || (a.Handle? && !a.handlerAct.Cancel?)
  }

  ghost predicate AtRest(t: Tunnel) {
    forall a :: Own(a) ==> !Enabled(t, a)
  }

  /** How a request ended: with its whole response, with the response up to its break, or in a failure the run shows. */
  ghost predicate Ended(acts: seq<Action>, t: Tunnel, key: nat)
    requires key < |t.handlers|
  {
    var h := t.handlers[key];
    h.stage.Finished? &&
    match h.stage.outcome
    case EndTaken =>
      exists u :: AnsweredBy(t, key, u) && Intact(u) && Delivered(h, u)
    case ErrorTaken =>
      exists u :: AnsweredBy(t, key, u) && !Intact(u) && Delivered(h, u)
    case TunnelError => false
    case SenderDropped => false
    case failure => H.HasCause(acts, h, key, failure)
  }

  /** The client was handed the head and all of the body. */
  ghost predicate Delivered(h: Handler, u: Upstream)
    requires !u.BadMethod?
  {
    h.head.Some? && IsHead(h.head.value, h.id, u) && h.client == ResponseBody(u)
  }

  /** `u` is upstream's answer to the request. */
  ghost predicate AnsweredBy(t: Tunnel, key: nat, u: Upstream)
    requires key < |t.handlers|
  {
    !u.BadMethod? && exists j :: JobOf(t, t.handlers[key].id, j) && j.upstream == Some(u)
  }

  /** The response stopped at a failed send. */
  ghost predicate CutOff(t: Tunnel, key: nat)
    requires key < |t.handlers|
  {
    t.handlers[key].stage == Forwarding && exists j :: JobOf(t, t.handlers[key].id, j) && j.failed
  }

  /**
   * With both sides up and nothing left to do, no frame is in flight, every job is over, and every request has ended:
   * with the whole response, with the response up to the point where upstream broke off, or in one of the failures that
   * have a name. The one exception is a forwarder whose response was cut off by a failed send.
   */
  lemma RestIsComplete(acts: seq<Action>, t: Tunnel)
    requires Session(acts, t) && AtRest(t) && t.serve == Running && Reading(t)
    ensures Drained(t)
    ensures forall j :: j in t.jobs ==> j.Over()
    ensures forall key :: 0 <= key < |t.handlers| ==> Ended(acts, t, key) || CutOff(t, key)
  {
    assert Own(ToServe(true)) && Own(ToProxy(true));
    forall j | j in t.jobs ensures j.Over() {
      var i :| 0 <= i < |t.jobs| && t.jobs[i] == j;
      assert Own(Work(i, SendNext(true))) && Own(Work(i, Answered(BadMethod)));
    }
    forall key | 0 <= key < |t.handlers| ensures Ended(acts, t, key) || CutOff(t, key) {
      HandlerAtRest(acts, t, key);
    }
  }

  lemma HandlerAtRest(acts: seq<Action>, t: Tunnel, key: nat)
    requires Session(acts, t) && AtRest(t) && Drained(t) && key < |t.handlers|
    requires forall j :: j in t.jobs ==> j.Over()
    ensures Ended(acts, t, key) || CutOff(t, key)
  {
    RestingHandler(t, key);
    SessionIsSound(acts, t, key);
    SendingBodyHasMore(t, key);
    if t.handlers[key].stage.Finished? {
      H.OutcomesHaveCauses(acts, t, key);
      FinishedHasEnded(acts, t, key);
    } else {
      LeftoversAreExact(acts, t, key);
      ForwardingIsCutOff(t, key);
    }
  }

  /** A response whose last frame was not sent although the job is over stopped at a failed send. */
  lemma OverIsClosedOrFailed(j: Job)
    requires j.Over() && !j.failed && !j.upstream.value.BadMethod?
    ensures Closed(j)
  {
  }

  lemma HeadIsAnswered(t: Tunnel, key: nat)
    requires Sound(t, key)
    requires t.handlers[key].head.Some? || t.handlers[key].taken > 0
    ensures exists u :: AnsweredBy(t, key, u) && Faithful(t.handlers[key], u)
  {
    var s := Proj(t, key);
    JobsOfStream(t, key);
    ResponseIsFaithful(s);
    assert JobOf(t, t.handlers[key].id, s.jobs[0]);
    assert AnsweredBy(t, key, s.jobs[0].upstream.value);
  }

  lemma FinishedHasEnded(acts: seq<Action>, t: Tunnel, key: nat)
    requires Sound(t, key) && t.handlers[key].stage.Finished?
    requires H.HasCause(acts, t.handlers[key], key, t.handlers[key].stage.outcome)
    ensures Ended(acts, t, key)
  {
    var h := t.handlers[key];
    EventsAreExpected(t, key);
    if h.stage.outcome == EndTaken || h.stage.outcome == ErrorTaken {
      StageIsTaken(t, key);
      HeadIsAnswered(t, key);
    }
  }

  lemma ForwardingIsCutOff(t: Tunnel, key: nat)
    requires Sound(t, key) && t.handlers[key].stage == Forwarding
    requires forall j :: JobOf(t, t.handlers[key].id, j) ==> j.Over() && !Closed(j)
    ensures CutOff(t, key)
  {
    StageIsTaken(t, key);
    HeadIsAnswered(t, key);
    var u :| AnsweredBy(t, key, u);
    var j :| JobOf(t, t.handlers[key].id, j) && j.upstream == Some(u);
    if !j.failed {
      OverIsClosedOrFailed(j);
    }
  }

  lemma StageIsTaken(t: Tunnel, key: nat)
    requires Sound(t, key)
    ensures var h := t.handlers[key];
            h.stage == Forwarding || h.stage == Finished(EndTaken) || h.stage == Finished(ErrorTaken) ==> h.taken > 0
  {
    var s := Proj(t, key);
    assert s.handler == Some(t.handlers[key]);
  }

  lemma SendingBodyHasMore(t: Tunnel, key: nat)
    requires Sound(t, key)
    ensures t.handlers[key].stage == SendingBody ==> t.handlers[key].offset < |t.handlers[key].Body()|
  {
  }

  lemma NoMove(t: Tunnel, key: nat, act: HandlerAct)
    requires AtRest(t) && key < |t.handlers| && !act.Cancel?
    ensures !HandlerEnabled(t.handlers[key], Alive(t, key), act)
  {
    assert Own(Handle(key, act));
  }

  lemma RestingHandler(t: Tunnel, key: nat)
    requires AtRest(t) && key < |t.handlers|
    ensures var h := t.handlers[key];
            || h.stage.Finished?
            || (h.stage == SendingBody && h.offset >= |h.Body()|)
            || (h.stage == Forwarding && Alive(t, key))
  {
    match t.handlers[key].stage {
      case Collecting => NoMove(t, key, ReadBody);
      case Registering => NoMove(t, key, Register);
      case SendingHeaders => NoMove(t, key, SendHeaders(true));
      case SendingBody => NoMove(t, key, SendBody(true));
      case SendingEnd => NoMove(t, key, SendEnd(true));
      case Awaiting => NoMove(t, key, Timeout);
      case Removing(_) => NoMove(t, key, Unregister);
      case Forwarding => NoMove(t, key, Forward(true));
      case Finished(_) =>
    }
  }
}
