/** What every run of the tunnel guarantees to every request, whatever else is interleaved with it. */
module TunnelTheorems {
  import opened Primitives
  import opened Frames
  import opened Proxy
  import opened Serve
  import opened Channel
  import opened Tunnel
  import opened Projection
  import opened StreamFacts
  import P = Protocol
  import S = Stream

  /** `t` is reached by a run in which at most 2^32 requests were accepted. */
  ghost predicate Session(acts: seq<Action>, t: Tunnel) {
    Valid(START, acts) && t == Run(START, acts) && |t.handlers| <= U32_RANGE
  }

  ghost predicate JobOf(t: Tunnel, id: u32, j: Job) {
    j in t.jobs && j.Id() == id
  }

  /** The request's stream is in a state the single-stream tunnel reaches. */
  ghost predicate Sound(t: Tunnel, key: nat) {
    Routed(t) && key < |t.handlers| && S.Inv(Proj(t, key))
  }

  lemma SessionIsSound(acts: seq<Action>, t: Tunnel, key: nat)
    requires Session(acts, t) && key < |t.handlers|
    ensures Sound(t, key)
  {
    RunProjects(acts, key);
  }

  lemma StreamJobs(t: Tunnel, id: u32)
    ensures forall j :: JobOf(t, id, j) <==> j in Filter(OfJob(id), t.jobs)
  {
    forall j ensures JobOf(t, id, j) <==> j in Filter(OfJob(id), t.jobs) {
      FilterMember(OfJob(id), t.jobs, j);
    }
  }

  lemma OnlyJob(js: seq<Job>, j: Job)
    requires |js| <= 1
    ensures j in js <==> js == [j]
  {
  }

  lemma JobsProject(t: Tunnel, key: nat)
    requires Sound(t, key)
    ensures t.handlers[key].id == S.Id(key) && Proj(t, key).handler == Some(t.handlers[key])
    ensures Proj(t, key).jobs == Filter(OfJob(S.Id(key)), t.jobs)
  {
  }

  lemma AtMostOneJob(s: S.Stream)
    requires S.Inv(s) && s.handler.Some?
    ensures |s.jobs| <= 1
  {
    ResponseIsFaithful(s);
  }

  lemma JobsOfStream(t: Tunnel, key: nat)
    requires Sound(t, key)
    ensures t.handlers[key].id == S.Id(key) && Proj(t, key).handler == Some(t.handlers[key])
    ensures |Proj(t, key).jobs| <= 1
    ensures forall j :: JobOf(t, S.Id(key), j) <==> Proj(t, key).jobs == [j]
    ensures Proj(t, key).jobs != [] ==> JobOf(t, S.Id(key), Proj(t, key).jobs[0])
  {
    JobsProject(t, key);
    StreamJobs(t, S.Id(key));
    var js := Proj(t, key).jobs;
    AtMostOneJob(Proj(t, key));
    forall j ensures JobOf(t, S.Id(key), j) <==> js == [j] {
      OnlyJob(js, j);
    }
  }

  /**
   * The head and the bytes handed to the HTTP client are those of the one response produced for it: always a prefix,
   * all of it once the forwarder has taken `End`, and then only if the upstream body did not break off.
   */
  lemma ResponseFidelity(acts: seq<Action>, t: Tunnel, key: nat, j: Job)
    requires Session(acts, t) && key < |t.handlers| && JobOf(t, t.handlers[key].id, j)
    ensures j.upstream.None? ==> t.handlers[key].head == None && t.handlers[key].client == []
    ensures j.upstream.Some? ==> Faithful(t.handlers[key], j.upstream.value)
    ensures var h := t.handlers[key];
            && (h.head.Some? ==> j.upstream.Some? && h.head.value.streamId == h.id)
            && (h.head.Some? && j.upstream.value.Responded? ==>
                  h.head.value.status == j.upstream.value.status && h.head.value.headers == j.upstream.value.headers)
            && (h.head.Some? && j.upstream.value.Unreachable? ==>
                  h.head.value.status == 502 && h.head.value.headers == map["content-type" := "text/plain"])
  {
    SessionIsSound(acts, t, key);
    JobsOfStream(t, key);
    ResponseIsFaithful(Proj(t, key));
  }

  /** Without a dispatched request the client is handed nothing. */
  lemma NothingFromNowhere(acts: seq<Action>, t: Tunnel, key: nat)
    requires Session(acts, t) && key < |t.handlers|
    requires forall j :: !JobOf(t, t.handlers[key].id, j)
    ensures t.handlers[key].head == None && t.handlers[key].client == []
  {
    SessionIsSound(acts, t, key);
    JobsOfStream(t, key);
    ResponseIsFaithful(Proj(t, key));
  }

  /**
   * A request is dispatched at most once, with exactly the method, path and headers the client sent, and with the
   * client's whole body or a prefix of full chunks: whole if and only if no body send failed.
   */
  lemma RequestFidelity(acts: seq<Action>, t: Tunnel, key: nat, j: Job)
    requires Session(acts, t) && key < |t.handlers| && JobOf(t, t.handlers[key].id, j)
    ensures |Accepted(acts)| == |t.handlers|
    ensures var http, r := Accepted(acts)[key], j.request;
            && r.headers.httpMethod == http.httpMethod && r.headers.path == http.path
            && r.headers.headers == http.headers
            && http.body.Some? && r.body <= http.body.value
            && (r.body == http.body.value <==> !t.handlers[key].bodyCut)
            && (t.handlers[key].bodyCut ==> |r.body| % P.MAX_BODY_CHUNK == 0)
    ensures |Filter(OfJob(t.handlers[key].id), t.jobs)| == 1
  {
    SessionIsSound(acts, t, key);
    JobsOfStream(t, key);
    JobsProject(t, key);
    RequestIsFaithful(Proj(t, key));
    AcceptedIsHttp(acts, t, key);
  }

  lemma AcceptedIsHttp(acts: seq<Action>, t: Tunnel, key: nat)
    requires Valid(START, acts) && t == Run(START, acts) && key < |t.handlers|
    ensures |Accepted(acts)| == |t.handlers| && Accepted(acts)[key] == t.handlers[key].http
  {
    HandlersHoldWhatWasSent(START, acts);
    assert HttpOf(START.handlers) == [] && [] + Accepted(acts) == Accepted(acts);
    assert HttpOf(t.handlers)[key] == t.handlers[key].http;
  }

  /** What the handler or the forwarder finds when it asks for its next event. */
  ghost predicate Expected(t: Tunnel, key: nat)
    requires key < |t.handlers|
  {
    var h := t.handlers[key];
    && (h.stage == Awaiting && (h.taken < |h.events| || !Alive(t, key)) ==>
          h.taken < |h.events| && h.events[h.taken].Headers?)
    && (h.stage == Forwarding && (h.taken < |h.events| || !Alive(t, key)) ==>
          h.taken < |h.events| && !h.events[h.taken].Headers?)
  }

  lemma EventsAreExpected(t: Tunnel, key: nat)
    requires Sound(t, key)
    ensures Grammatical(t.handlers[key].events) && Expected(t, key)
    ensures t.handlers[key].stage != Finished(TunnelError) && t.handlers[key].stage != Finished(SenderDropped)
  {
    AliveProjects(t, key);
    NextEventIsExpected(Proj(t, key));
  }

  /**
   * The events queued for a stream are a prefix of `Headers Body* (Failed | End)`, and the handler's branches for body,
   * end, error or a closed channel before the headers, and for headers after them, are never taken.
   */
  lemma EventGrammar(acts: seq<Action>, t: Tunnel, key: nat)
    requires Session(acts, t) && key < |t.handlers|
    ensures Grammatical(t.handlers[key].events) && Expected(t, key)
    ensures t.handlers[key].stage != Finished(TunnelError) && t.handlers[key].stage != Finished(SenderDropped)
  {
    SessionIsSound(acts, t, key);
    EventsAreExpected(t, key);
  }

  /** Part of the response of stream `id` is in flight or still to be sent. */
  ghost predicate ResponseOutstanding(t: Tunnel, id: u32) {
    || (exists i :: t.down.delivered <= i < |t.down.sent| && t.down.sent[i].BelongsTo(id))
    || (exists j :: JobOf(t, id, j) && !j.Over())
  }

  lemma {:induction false} SomethingFollows(id: u32, l: Link, i: nat)
    requires l.delivered <= i < |l.sent| && l.sent[i].BelongsTo(id)
    ensures LinkOf(l, id).Waiting()
  {
    FilterPrefix(OfStream(id), l.sent, i);
    FilterPrefix(OfStream(id), l.sent[..i], l.delivered);
    assert l.sent[..i][..l.delivered] == l.sent[..l.delivered];
  }

  lemma {:induction false} FailureHasFrame(frames: seq<Frame>)
    requires Events(frames) != [] && Events(frames)[|Events(frames)| - 1].Failed?
    ensures exists f :: f in frames && f.Error?
  {
    var front, last := frames[..|frames| - 1], frames[|frames| - 1];
    assert frames == front + [last];
    if !last.Error? {
      FailureHasFrame(front);
    }
  }

  lemma OutstandingProjects(t: Tunnel, key: nat)
    requires Sound(t, key) && ResponseOutstanding(t, t.handlers[key].id)
    ensures var s := Proj(t, key); s.down.Waiting() || (s.jobs != [] && !s.jobs[0].Over())
  {
    var id := t.handlers[key].id;
    JobsOfStream(t, key);
    if i :| t.down.delivered <= i < |t.down.sent| && t.down.sent[i].BelongsTo(id) {
      SomethingFollows(id, t.down, i);
    } else {
      var j :| JobOf(t, id, j) && !j.Over();
      assert Proj(t, key).jobs == [j];
    }
  }

  /** The reader has consumed an error frame for stream `id`. */
  ghost predicate ErrorConsumed(down: Link, id: u32) {
    exists i :: 0 <= i < down.delivered && i < |down.sent| && down.sent[i].Error? && down.sent[i].streamId == id
  }

  lemma ToldOfErrorConsumed(down: Link, id: u32)
    requires down.Valid() && ToldOfFailure(down, id)
    ensures ErrorConsumed(down, id)
  {
    var received := down.sent[..down.delivered];
    var mine := Filter(OfStream(id), received);
    FailureHasFrame(mine);
    var f :| f in mine && f.Error?;
    FilterMember(OfStream(id), received, f);
    var i :| 0 <= i < |received| && received[i] == f;
    assert down.sent[i] == f;
  }

  lemma ReceivedProjects(t: Tunnel, key: nat)
    requires Linked(t)
    ensures Proj(t, key).down.Valid()
    ensures Proj(t, key).down.Received() == Filter(OfStream(S.Id(key)), t.down.sent[..t.down.delivered])
  {
    FilterPrefix(OfStream(S.Id(key)), t.down.sent, t.down.delivered);
  }

  /** The reader told stream `id` of a failure. */
  ghost predicate ToldOfFailure(down: Link, id: u32)
    requires down.Valid()
  {
    EndsInFailure(Events(Filter(OfStream(id), down.sent[..down.delivered])))
  }

  ghost predicate StreamTold(s: S.Stream)
    requires s.down.Valid()
  {
    EndsInFailure(Events(s.down.Received()))
  }

  lemma StreamToldProjects(t: Tunnel, key: nat)
    requires Linked(t) && Proj(t, key).down.Valid() && StreamTold(Proj(t, key))
    ensures ToldOfFailure(t.down, S.Id(key))
  {
    ReceivedProjects(t, key);
  }

  lemma UnfinishedIsHeard(s: S.Stream, h: Handler)
    requires S.Inv(s) && s.handler == Some(h)
    requires s.down.Waiting() || (s.jobs != [] && !s.jobs[0].Over())
    ensures s.down.Valid() && (S.Alive(s) || h.Withdrawn() || StreamTold(s))
  {
    NoOrphan(s);
  }

  lemma ListenedOrTold(t: Tunnel, key: nat)
    requires Sound(t, key) && ResponseOutstanding(t, t.handlers[key].id)
    ensures Linked(t) && Proj(t, key).down.Valid() && t.handlers[key].id == S.Id(key)
    ensures Alive(t, key) || t.handlers[key].Withdrawn() || StreamTold(Proj(t, key))
  {
    OutstandingProjects(t, key);
    JobsProject(t, key);
    UnfinishedIsHeard(Proj(t, key), t.handlers[key]);
    AliveProjects(t, key);
  }

  /** Someone listens, or the handler gave up, or the reader has consumed an error for the request. */
  ghost predicate AccountedFor(t: Tunnel, key: nat)
    requires key < |t.handlers|
  {
    Alive(t, key) || t.handlers[key].Withdrawn() || ErrorConsumed(t.down, t.handlers[key].id)
  }

  lemma OutstandingIsAccountedFor(t: Tunnel, key: nat)
    requires Sound(t, key) && ResponseOutstanding(t, t.handlers[key].id)
    ensures AccountedFor(t, key)
  {
    ListenedOrTold(t, key);
    if StreamTold(Proj(t, key)) {
      StreamToldProjects(t, key);
      ToldOfErrorConsumed(t.down, S.Id(key));
    }
  }

  /** No response is orphaned. */
  lemma NoResponseIsOrphaned(acts: seq<Action>, t: Tunnel, key: nat)
    requires Session(acts, t) && key < |t.handlers| && ResponseOutstanding(t, t.handlers[key].id)
    ensures AccountedFor(t, key)
  {
    SessionIsSound(acts, t, key);
    OutstandingIsAccountedFor(t, key);
  }

  ghost predicate Drained(t: Tunnel) {
    !t.up.Waiting() && !t.down.Waiting()
  }

  lemma LeftoversAt(t: Tunnel, key: nat)
    requires Sound(t, key) && Drained(t)
    ensures var h := t.handlers[key];
            && (h.id in t.partials <==> h.headersSent && !h.endSent)
            && (Alive(t, key) <==> h.enrolled && !h.Withdrawn() && forall j :: JobOf(t, h.id, j) ==> !Closed(j))
  {
    var s := Proj(t, key);
    JobsOfStream(t, key);
    AliveProjects(t, key);
    assert t.up.sent[..t.up.delivered] == t.up.sent && t.down.sent[..t.down.delivered] == t.down.sent;
    EntryIsExact(s);
    PartialIsExact(s);
  }

  /**
   * With both channels drained, the two tables keep an entry for a request in exactly these cases: serve when the
   * header frame was sent and the end frame was not, the proxy when the handler never removed its own entry and no
   * terminal response frame was sent.
   */
  lemma LeftoversAreExact(acts: seq<Action>, t: Tunnel, key: nat)
    requires Session(acts, t) && key < |t.handlers| && Drained(t)
    ensures var h := t.handlers[key];
            && (h.id in t.partials <==> h.headersSent && !h.endSent)
            && (Alive(t, key) <==> h.enrolled && !h.Withdrawn() && forall j :: JobOf(t, h.id, j) ==> !Closed(j))
  {
    SessionIsSound(acts, t, key);
    LeftoversAt(t, key);
  }

  /** Serve's table only holds ids of requests the proxy accepted. */
  lemma PartialsAreOfRequests(acts: seq<Action>, t: Tunnel, id: u32) returns (key: nat)
    requires Session(acts, t) && id in t.partials
    ensures key < |t.handlers| && t.handlers[key].id == id
  {
    key := if id == 0 then U32_RANGE - 1 else id - 1;
    assert S.Id(key) == id;
    RunProjects(acts, key);
    assert id in Proj(t, key).partials;
  }

  /** The request is through: its end frame was sent, and so was the whole of its response. */
  ghost predicate Through(t: Tunnel, key: nat)
    requires key < |t.handlers|
  {
    t.handlers[key].endSent && exists j :: JobOf(t, t.handlers[key].id, j) && j.Completed()
  }

  lemma ThroughLeavesNothing(acts: seq<Action>, t: Tunnel, key: nat)
    requires Session(acts, t) && Drained(t) && key < |t.handlers| && Through(t, key)
    ensures !Alive(t, key) && t.handlers[key].id !in t.partials
  {
    LeftoversAreExact(acts, t, key);
  }

  /** Once every request is through and the channels are drained, both tables are empty, timeouts and disconnects
      included. */
  lemma TablesEmpty(acts: seq<Action>, t: Tunnel)
    requires Session(acts, t) && Drained(t)
    requires forall key :: 0 <= key < |t.handlers| ==> Through(t, key)
    ensures t.pending == map[] && t.partials == map[]
  {
    RunKeepsRouted(START, acts);
    if id :| id in t.pending {
      ThroughLeavesNothing(acts, t, t.pending[id]);
      assert false;
    }
    if id :| id in t.partials {
      var key := PartialsAreOfRequests(acts, t, id);
      ThroughLeavesNothing(acts, t, key);
      assert false;
    }
  }

  // --- Without a bound on the number of requests ---

  /** The requests accepted in a run, in order. */
  function Accepted(acts: seq<Action>): seq<HttpRequest> {
    if acts == [] then []
    else (if acts[0].Accept? then [acts[0].http] else []) + Accepted(acts[1..])
  }

  function HttpOf(handlers: seq<Handler>): (https: seq<HttpRequest>)
    ensures |https| == |handlers|
  {
    seq(|handlers|, i requires 0 <= i < |handlers| => handlers[i].http)
  }

  lemma SameHttp(handlers: seq<Handler>, key: nat, h: Handler)
    requires key < |handlers| && h.http == handlers[key].http
    ensures HttpOf(handlers[key := h]) == HttpOf(handlers)
  {
  }

  lemma HandlerKeepsHttp(h: Handler, alive: bool, act: HandlerAct)
    requires HandlerEnabled(h, alive, act)
    ensures HandlerStep(h, alive, act).handler.http == h.http
  {
    match act {
      case AwaitEvent => assert AwaitNext(h).http == h.http;
      case Forward(clientHere) => assert ForwardNext(h, clientHere).http == h.http;
      case _ =>
    }
  }

  lemma GivenKeepsHttp(handlers: seq<Handler>, delivery: Option<Delivery<nat>>)
    ensures HttpOf(Given(handlers, delivery)) == HttpOf(handlers)
  {
    if delivery.Some? && delivery.value.channel < |handlers| {
      var key := delivery.value.channel;
      SameHttp(handlers, key, handlers[key].Receive(delivery.value.event));
    }
  }

  lemma AcceptKeepsHttp(t: Tunnel, http: HttpRequest)
    requires Enabled(t, Accept(http))
    ensures HttpOf(Step(t, Accept(http)).handlers) == HttpOf(t.handlers) + [http]
  {
  }

  lemma HandleKeepsHttp(t: Tunnel, key: nat, act: HandlerAct)
    requires Enabled(t, Handle(key, act))
    ensures HttpOf(HandlerMoves(t, key, act).handlers) == HttpOf(t.handlers)
  {
    HandlerKeepsHttp(t.handlers[key], Alive(t, key), act);
    SameHttp(t.handlers, key, HandlerStep(t.handlers[key], Alive(t, key), act).handler);
  }

  lemma FetchingKeepsHttp(t: Tunnel, ok: bool)
    requires Enabled(t, ToProxy(ok))
    ensures HttpOf(Step(t, ToProxy(ok)).handlers) == HttpOf(t.handlers)
  {
    GivenKeepsHttp(t.handlers, Demux(t.pending, t.down.Next()).delivery);
  }

  lemma OthersKeepHttp(t: Tunnel, a: Action)
    requires Enabled(t, a) && !a.Accept?
    ensures HttpOf(Step(t, a).handlers) == HttpOf(t.handlers)
  {
    match a {
      case Handle(key, act) => HandleKeepsHttp(t, key, act);
      case Work(j, act) => assert JobMoves(t, j, act).handlers == t.handlers;
      case ToServe(ok) => ServingKeepsHandlers(t, ok);
      case ToProxy(ok) => FetchingKeepsHttp(t, ok);
      case _ => QuietStep(t, a);
    }
  }

  lemma StepKeepsHttp(t: Tunnel, a: Action)
    requires Enabled(t, a)
    ensures HttpOf(Step(t, a).handlers) == HttpOf(t.handlers) + (if a.Accept? then [a.http] else [])
  {
    if a.Accept? {
      AcceptKeepsHttp(t, a.http);
    } else {
      OthersKeepHttp(t, a);
      assert HttpOf(t.handlers) + [] == HttpOf(t.handlers);
    }
  }

  /** Every request in a run keeps the method, path, headers and body its client sent. */
  lemma {:induction false} HandlersHoldWhatWasSent(t: Tunnel, acts: seq<Action>)
    requires Valid(t, acts)
    ensures HttpOf(Run(t, acts).handlers) == HttpOf(t.handlers) + Accepted(acts)
    decreases |acts|
  {
    if acts == [] {
      assert HttpOf(t.handlers) + [] == HttpOf(t.handlers);
    } else {
      StepKeepsHttp(t, acts[0]);
      HandlersHoldWhatWasSent(Step(t, acts[0]), acts[1..]);
      Regroup(HttpOf(t.handlers), if acts[0].Accept? then [acts[0].http] else [], Accepted(acts[1..]));
    }
  }

  lemma Regroup<T>(a: seq<T>, b: seq<T>, c: seq<T>)
    ensures (a + b) + c == a + (b + c)
  {
  }

  /** In every run the two places a header frame names its stream agree, so both kinds of lookup find the same entry. */
  lemma RoutingKeysAgree(acts: seq<Action>, f: Frame)
    requires Valid(START, acts) && (f in Run(START, acts).up.sent || f in Run(START, acts).down.sent)
    ensures f.ReqHeaders? ==> f.request.streamId == f.streamId
    ensures f.ResHeaders? ==> f.response.streamId == f.streamId
  {
    RunKeepsRouted(START, acts);
  }

  /** The k-th request gets (1 + k) mod 2^32, so two share an id exactly when 2^32 divides their distance. */
  lemma IdsWrap(acts: seq<Action>, a: nat, b: nat)
    requires Valid(START, acts) && a < |Run(START, acts).handlers| && b < |Run(START, acts).handlers|
    ensures var hs := Run(START, acts).handlers;
            && hs[a].id == (1 + a) % U32_RANGE
            && (hs[a].id == hs[b].id <==> (a - b) % U32_RANGE == 0)
  {
    RunKeepsRouted(START, acts);
    IdsRepeat(a, b);
  }

  /** Within 2^32 requests, registering never replaces an entry. */
  lemma RegisterIsFresh(acts: seq<Action>, t: Tunnel, key: nat)
    requires Session(acts, t) && key < |t.handlers| && Enabled(t, Handle(key, Register))
    ensures t.handlers[key].id !in t.pending
  {
    SessionIsSound(acts, t, key);
    UnregisteredHasNoEntry(Proj(t, key));
    EntryProjects(t, key);
  }

  lemma EntryProjects(t: Tunnel, key: nat)
    requires Routed(t)
    ensures S.Id(key) in t.pending <==> S.Id(key) in Proj(t, key).pending
  {
  }
}
