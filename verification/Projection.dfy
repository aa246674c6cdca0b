/** Stream projection: the multiplexed tunnel, seen through one stream id, is a single-stream tunnel. */
module Projection {
  import opened Primitives
  import opened Frames
  import opened Proxy
  import opened Serve
  import opened Channel
  import opened Tunnel
  import opened Handshake
  import P = Protocol
  import S = Stream

  function Restrict<V>(m: map<u32, V>, id: u32): map<u32, V> {
    map x | x in m && x == id :: m[x]
  }

  function OfJob(id: u32): Job -> bool {
    (j: Job) => j.Id() == id
  }

  function LinkOf(l: Link, id: u32): Link
    requires l.delivered <= |l.sent|
  {
    Link(Filter(OfStream(id), l.sent), |Filter(OfStream(id), l.sent[..l.delivered])|)
  }

  ghost predicate Linked(t: Tunnel) {
    t.up.Valid() && t.down.Valid()
  }

  /** Everything in the tunnel that concerns the request accepted after `key` others. */
  ghost function Proj(t: Tunnel, key: nat): S.Stream
    requires Linked(t)
  {
    var id := S.Id(key);
    S.Stream(key, if key < |t.handlers| then Some(t.handlers[key]) else None,
             Restrict(t.pending, id), LinkOf(t.up, id), Restrict(t.partials, id),
             Filter(OfJob(id), t.jobs), LinkOf(t.down, id))
  }

  /** The step the single stream takes when the tunnel does `a`: `None` when `a` does not concern it. */
  ghost function Act(t: Tunnel, a: Action, key: nat): Option<S.Act>
    requires Enabled(t, a)
  {
    var id := S.Id(key);
    match a
    case Accept(http) => if |t.handlers| == key then Some(S.Accept(http)) else None
    case Handle(k, act) => if k == key then Some(S.Handle(act)) else None
    case Work(j, act) => if t.jobs[j].Id() == id then Some(S.Work(|Filter(OfJob(id), t.jobs[..j])|, act)) else None
    case ToServe(_) => if t.up.Next().BelongsTo(id) then Some(S.ToServe) else None
    case ToProxy(_) => if t.down.Next().BelongsTo(id) then Some(S.ToProxy) else None
    case _ => None
  }

  /** `s'` is what the single-stream tunnel makes of `s` by `act`. */
  ghost predicate Follows(s: S.Stream, act: Option<S.Act>, s': S.Stream) {
    match act
    case None => s' == s
    case Some(a) => S.Enabled(s, a) && s' == S.Step(s, a)
  }

  lemma IdsRepeat(a: nat, b: nat)
    ensures S.Id(a) == S.Id(b) <==> (a - b) % U32_RANGE == 0
  {
  }

  // --- Links ---

  lemma LinkSends(l: Link, fs: seq<Frame>, id: u32)
    requires l.delivered <= |l.sent| && |fs| <= 1
    ensures LinkOf(l.Send(fs), id) ==
            if fs != [] && fs[0].BelongsTo(id) then LinkOf(l, id).Send(fs) else LinkOf(l, id)
  {
    assert l.Send(fs).sent[..l.delivered] == l.sent[..l.delivered];
    if fs == [] {
      assert l.sent + fs == l.sent;
    } else {
      FilterAppend(OfStream(id), l.sent, fs[0]);
      assert fs == [fs[0]];
    }
  }

  lemma LinkDelivers(l: Link, id: u32)
    requires l.Waiting()
    ensures l.Next().BelongsTo(id) ==>
              && LinkOf(l, id).Waiting() && LinkOf(l, id).Next() == l.Next()
              && LinkOf(l.Deliver(), id) == LinkOf(l, id).Deliver()
    ensures !l.Next().BelongsTo(id) ==> LinkOf(l.Deliver(), id) == LinkOf(l, id)
  {
    FilterPrefix(OfStream(id), l.sent, l.delivered);
    assert l.sent[..l.delivered + 1] == l.sent[..l.delivered] + [l.Next()];
    FilterAppend(OfStream(id), l.sent[..l.delivered], l.Next());
  }

  // --- Tables ---

  lemma ReassembleRestricts(partials: map<u32, Request>, f: Frame, id: u32)
    requires f.KeysAgree()
    ensures f.BelongsTo(id) ==>
              var r, r1 := Reassemble(partials, f), Reassemble(Restrict(partials, id), f);
              Restrict(r.partials, id) == r1.partials && r.dispatched == r1.dispatched
    ensures !f.BelongsTo(id) ==> Restrict(Reassemble(partials, f).partials, id) == Restrict(partials, id)
  {
  }

  lemma DemuxRestricts<C>(pending: map<u32, C>, f: Frame, id: u32)
    requires f.KeysAgree()
    ensures f.BelongsTo(id) ==>
              var r, r1 := Demux(pending, f), Demux(Restrict(pending, id), f);
              Restrict(r.pending, id) == r1.pending && r.delivery == r1.delivery
    ensures !f.BelongsTo(id) ==>
              var r := Demux(pending, f);
              && Restrict(r.pending, id) == Restrict(pending, id)
              && (r.delivery.Some? ==> exists x :: x in pending && x != id && pending[x] == r.delivery.value.channel)
  {
  }

  lemma UpdatedRestricts(pending: map<u32, nat>, table: TableOp, at: u32, key: nat, id: u32)
    ensures Restrict(Updated(pending, table, at, key), id) ==
            if at == id then Updated(Restrict(pending, id), table, id, key) else Restrict(pending, id)
  {
  }

  // --- Steps ---

  lemma AliveProjects(t: Tunnel, key: nat)
    requires Linked(t) && key < |t.handlers| && t.handlers[key].id == S.Id(key)
    ensures S.Alive(Proj(t, key)) == Alive(t, key)
  {
  }

  ghost predicate EmitsOwn(r: Stepped, id: u32) {
    |r.emitted| <= 1 && forall f :: f in r.emitted ==> f.BelongsTo(id)
  }

  lemma OwnMoveProjects(t: Tunnel, r: Stepped, key: nat)
    requires Linked(t) && key < |t.handlers| && t.handlers[key].id == S.Id(key) && EmitsOwn(r, S.Id(key))
    ensures Linked(Moved(t, key, r))
    ensures var s := Proj(t, key);
            Proj(Moved(t, key, r), key) ==
            s.(handler := Some(r.handler), up := s.up.Send(r.emitted),
              pending := Updated(s.pending, r.table, S.Id(key), key))
  {
    var id := S.Id(key);
    LinkSends(t.up, r.emitted, id);
    if r.emitted == [] {
      assert LinkOf(t.up, id).Send(r.emitted) == LinkOf(t.up, id);
    }
    UpdatedRestricts(t.pending, r.table, id, key, id);
  }

  lemma OtherMoveProjects(t: Tunnel, k: nat, r: Stepped, key: nat)
    requires Linked(t) && k < |t.handlers| && k != key && EmitsOwn(r, t.handlers[k].id) && t.handlers[k].id != S.Id(key)
    ensures Linked(Moved(t, k, r)) && Proj(Moved(t, k, r), key) == Proj(t, key)
  {
    assert r.emitted != [] ==> r.emitted[0].BelongsTo(t.handlers[k].id);
    LinkSends(t.up, r.emitted, S.Id(key));
    UpdatedRestricts(t.pending, r.table, t.handlers[k].id, k, S.Id(key));
  }

  lemma OwnHandleProjects(t: Tunnel, act: HandlerAct, key: nat)
    requires Linked(t) && Allocated(t.counter, t.handlers) && Enabled(t, Handle(key, act))
    ensures Linked(HandlerMoves(t, key, act))
    ensures S.Enabled(Proj(t, key), S.Handle(act))
    ensures Proj(HandlerMoves(t, key, act), key) == S.Step(Proj(t, key), S.Handle(act))
  {
    AliveProjects(t, key);
    HandlerEmits(t.handlers[key], Alive(t, key), act);
    OwnMoveProjects(t, HandlerStep(t.handlers[key], Alive(t, key), act), key);
  }

  lemma OtherHandleProjects(t: Tunnel, k: nat, act: HandlerAct, key: nat)
    requires Linked(t) && Allocated(t.counter, t.handlers) && Enabled(t, Handle(k, act))
    requires |t.handlers| <= U32_RANGE && key < U32_RANGE && k != key
    ensures Linked(HandlerMoves(t, k, act))
    ensures Proj(HandlerMoves(t, k, act), key) == Proj(t, key)
  {
    IdsRepeat(k, key);
    HandlerEmits(t.handlers[k], Alive(t, k), act);
    OtherMoveProjects(t, k, HandlerStep(t.handlers[k], Alive(t, k), act), key);
  }

  lemma WorkedProjects(t: Tunnel, j: nat, r: Worked, key: nat)
    requires Linked(t) && j < |t.jobs| && r.job.Id() == t.jobs[j].Id()
    requires |r.emitted| <= 1 && forall f :: f in r.emitted ==> f.BelongsTo(r.job.Id())
    ensures var s, id := Proj(t, key), S.Id(key);
            var t' := t.(jobs := t.jobs[j := r.job], down := t.down.Send(r.emitted));
            var rank := |Filter(OfJob(id), t.jobs[..j])|;
            && Linked(t')
            && (r.job.Id() == id ==> rank < |s.jobs| && s.jobs[rank] == t.jobs[j])
            && Proj(t', key) ==
               if r.job.Id() == id then s.(jobs := s.jobs[rank := r.job], down := s.down.Send(r.emitted)) else s
  {
    var id := S.Id(key);
    assert r.emitted != [] ==> r.emitted[0].BelongsTo(r.job.Id());
    LinkSends(t.down, r.emitted, id);
    FilterUpdate(OfJob(id), t.jobs, j, r.job);
    FilterPrefix(OfJob(id), t.jobs, j);
    if r.emitted == [] {
      assert LinkOf(t.down, id).Send(r.emitted) == LinkOf(t.down, id);
    }
  }

  lemma WorkProjects(t: Tunnel, j: nat, act: JobAct, key: nat)
    requires Linked(t) && Enabled(t, Work(j, act))
    ensures Linked(JobMoves(t, j, act))
    ensures Follows(Proj(t, key), Act(t, Work(j, act), key), Proj(JobMoves(t, j, act), key))
  {
    JobEmits(t.jobs[j], act);
    WorkedProjects(t, j, JobStep(t.jobs[j], act), key);
  }

  lemma AcceptProjects(t: Tunnel, http: HttpRequest, key: nat)
    requires Linked(t) && Allocated(t.counter, t.handlers) && Enabled(t, Accept(http))
    ensures Linked(Step(t, Accept(http)))
    ensures Follows(Proj(t, key), Act(t, Accept(http), key), Proj(Step(t, Accept(http)), key))
  {
  }

  lemma DispatchProjects(jobs: seq<Job>, partials: map<u32, Request>, f: Frame, id: u32)
    requires Filed(partials) && f.KeysAgree()
    ensures var r := Reassemble(partials, f);
            var jobs' := if r.dispatched.Some? then jobs + [NewJob(r.dispatched.value)] else jobs;
            Filter(OfJob(id), jobs') ==
            Filter(OfJob(id), jobs) +
            (if r.dispatched.Some? && f.BelongsTo(id) then [NewJob(r.dispatched.value)] else [])
  {
    var r := Reassemble(partials, f);
    if r.dispatched.Some? {
      FilterAppend(OfJob(id), jobs, NewJob(r.dispatched.value));
    }
  }

  lemma ServeReceivesProjects(t: Tunnel, f: Frame, ok: bool, key: nat)
    requires Linked(t) && Filed(t.partials) && f.KeysAgree() && !f.IsResponse()
    ensures Linked(ServeReceives(t, f, ok))
    ensures var s, s' := Proj(t, key), Proj(ServeReceives(t, f, ok), key);
            var r := Reassemble(s.partials, f);
            s' == if f.BelongsTo(S.Id(key))
                  then s.(partials := r.partials,
                          jobs := if r.dispatched.Some? then s.jobs + [NewJob(r.dispatched.value)] else s.jobs)
                  else s
  {
    var id, s := S.Id(key), Proj(t, key);
    if f.Ping? {
      LinkSends(t.down, Sent(Pong, ok), id);
    } else {
      var r := Reassemble(t.partials, f);
      var t' := ServeReceives(t, f, ok);
      ReassembleRestricts(t.partials, f, id);
      DispatchProjects(t.jobs, t.partials, f, id);
      assert Proj(t', key) == s.(partials := Restrict(r.partials, id), jobs := Filter(OfJob(id), t'.jobs));
    }
  }

  lemma GreetingIsQuiet(t: Tunnel, ok: bool)
    requires Greeted(t) && Enabled(t, ToServe(ok)) && t.serve == AwaitingHello
    ensures t.up.Next() == Hello(P.NewHello())
    ensures var t' := Greet(Taken(t), t.up.Next(), ok);
            t' == Taken(t).(serve := t'.serve, servePinging := t'.servePinging,
              down := t.down.Send(Sent(Agree(AGREED), ok)))
  {
    OursAgree();
    assert t.down.Send([]) == t.down;
  }

  lemma NobodysDown(t: Tunnel, serve: ServePhase, pinging: bool, fs: seq<Frame>, key: nat)
    requires Linked(t) && |fs| <= 1 && forall f :: f in fs ==> !f.IsRequest() && !f.IsResponse()
    ensures var t' := t.(serve := serve, servePinging := pinging, down := t.down.Send(fs));
            Linked(t') && Proj(t', key) == Proj(t, key)
  {
    NobodysFrames(t.down, fs, S.Id(key));
  }

  lemma GreetProjects(t: Tunnel, ok: bool, key: nat)
    requires Routed(t) && Greeted(t) && Enabled(t, ToServe(ok)) && t.serve == AwaitingHello
    ensures Linked(Greet(Taken(t), t.up.Next(), ok)) && !t.up.Next().BelongsTo(S.Id(key))
    ensures Proj(Greet(Taken(t), t.up.Next(), ok), key) == Proj(t, key)
  {
    GreetingIsQuiet(t, ok);
    DeliveringUpProjects(t, key);
    var t' := Greet(Taken(t), t.up.Next(), ok);
    NobodysDown(Taken(t), t'.serve, t'.servePinging, Sent(Agree(AGREED), ok), key);
  }

  lemma RunningProjects(t: Tunnel, ok: bool, key: nat)
    requires Routed(t) && t.up.Waiting()
    ensures Linked(ServeReceives(Taken(t), t.up.Next(), ok))
    ensures Follows(Proj(t, key), if t.up.Next().BelongsTo(S.Id(key)) then Some(S.ToServe) else None,
                    Proj(ServeReceives(Taken(t), t.up.Next(), ok), key))
  {
    DeliveringUpProjects(t, key);
    ServeReceivesProjects(Taken(t), t.up.Next(), ok, key);
  }

  lemma ToServeProjects(t: Tunnel, ok: bool, key: nat)
    requires Routed(t) && Greeted(t) && Enabled(t, ToServe(ok))
    ensures Linked(Step(t, ToServe(ok)))
    ensures Follows(Proj(t, key), Act(t, ToServe(ok), key), Proj(Step(t, ToServe(ok)), key))
  {
    if t.serve == Running {
      RunningProjects(t, ok, key);
    } else {
      GreetProjects(t, ok, key);
    }
  }

  lemma DeliveringUpProjects(t: Tunnel, key: nat)
    requires Routed(t) && t.up.Waiting()
    ensures var s, f := Proj(t, key), t.up.Next();
            && Routed(Taken(t)) && f.KeysAgree() && !f.IsResponse()
            && (f.BelongsTo(S.Id(key)) ==> s.up.Waiting() && s.up.Next() == f)
            && Proj(Taken(t), key) == if f.BelongsTo(S.Id(key)) then s.(up := s.up.Deliver()) else s
  {
    DeliveryKeepsRouted(t);
    LinkDelivers(t.up, S.Id(key));
  }

  lemma DeliveringDownProjects(t: Tunnel, key: nat)
    requires Routed(t) && t.down.Waiting()
    ensures var s, f := Proj(t, key), t.down.Next();
            && Routed(Fetched(t)) && f.KeysAgree() && !f.IsRequest()
            && (f.BelongsTo(S.Id(key)) ==> s.down.Waiting() && s.down.Next() == f)
            && Proj(Fetched(t), key) == if f.BelongsTo(S.Id(key)) then s.(down := s.down.Deliver()) else s
  {
    DeliveryKeepsRouted(t);
    LinkDelivers(t.down, S.Id(key));
  }

  /** Among fewer than 2^32 requests, an event reaches the handler whose id its frame names, and no other. */
  lemma GivenProjects(t: Tunnel, f: Frame, key: nat)
    requires Registered(t.pending, t.handlers) && f.KeysAgree() && !f.IsRequest()
    requires |t.handlers| <= U32_RANGE && key < |t.handlers|
    ensures var given := Given(t.handlers, Demux(t.pending, f).delivery);
            var own := Demux(Restrict(t.pending, S.Id(key)), f).delivery;
            && |given| == |t.handlers|
            && given[key] ==
               if f.BelongsTo(S.Id(key)) && own.Some? then t.handlers[key].Receive(own.value.event)
               else t.handlers[key]
  {
    var r := Demux(t.pending, f);
    DemuxRestricts(t.pending, f, S.Id(key));
    if r.delivery.Some? {
      IdsRepeat(r.delivery.value.channel, key);
    }
  }

  lemma ProxyReceivesProjects(t: Tunnel, f: Frame, ok: bool, key: nat)
    requires Linked(t) && Registered(t.pending, t.handlers) && f.KeysAgree() && !f.IsRequest()
    requires |t.handlers| <= U32_RANGE && key < U32_RANGE
    ensures Linked(ProxyReceives(t, f, ok))
    ensures var s, s' := Proj(t, key), Proj(ProxyReceives(t, f, ok), key);
            var r := Demux(s.pending, f);
            s' == if f.BelongsTo(S.Id(key))
                  then s.(pending := r.pending,
                          handler := if s.handler.Some? && r.delivery.Some?
                            then Some(s.handler.value.Receive(r.delivery.value.event)) else s.handler)
                  else s
  {
    var id, s := S.Id(key), Proj(t, key);
    if f.Ping? {
      LinkSends(t.up, Sent(Pong, ok), id);
    } else {
      var r := Demux(t.pending, f);
      var t' := ProxyReceives(t, f, ok);
      DemuxRestricts(t.pending, f, id);
      if key < |t.handlers| {
        GivenProjects(t, f, key);
      }
      assert Proj(t', key) == s.(pending := Restrict(r.pending, id),
                                 handler := if key < |t'.handlers| then Some(t'.handlers[key]) else None);
    }
  }

  lemma AgreeProjects(t: Tunnel, key: nat)
    requires Routed(t) && Greeted(t) && t.down.Waiting() && t.proxy == AwaitingAgree
    ensures Linked(Welcome(Fetched(t), t.down.Next())) && !t.down.Next().BelongsTo(S.Id(key))
    ensures Proj(Welcome(Fetched(t), t.down.Next()), key) == Proj(t, key)
  {
    DeliveringDownProjects(t, key);
    assert t.down.Next() == Agree(AGREED);
  }

  /** The single stream's own reader step, in two parts. */
  lemma StreamFetches(s: S.Stream)
    requires S.Enabled(s, S.ToProxy)
    ensures var f, s1 := s.down.Next(), s.(down := s.down.Deliver());
            var r := Demux(s.pending, f);
            S.Step(s, S.ToProxy) ==
            s1.(pending := r.pending,
                handler := if s.handler.Some? && r.delivery.Some?
                  then Some(s.handler.value.Receive(r.delivery.value.event)) else s.handler)
  {
  }

  lemma ReaderProjects(t: Tunnel, ok: bool, key: nat)
    requires Routed(t) && t.down.Waiting()
    requires |t.handlers| <= U32_RANGE && key < U32_RANGE
    ensures Linked(ProxyReceives(Fetched(t), t.down.Next(), ok))
    ensures Follows(Proj(t, key), if t.down.Next().BelongsTo(S.Id(key)) then Some(S.ToProxy) else None,
                    Proj(ProxyReceives(Fetched(t), t.down.Next(), ok), key))
  {
    DeliveringDownProjects(t, key);
    ProxyReceivesProjects(Fetched(t), t.down.Next(), ok, key);
    if t.down.Next().BelongsTo(S.Id(key)) {
      StreamFetches(Proj(t, key));
    }
  }

  lemma ToProxyProjects(t: Tunnel, ok: bool, key: nat)
    requires Routed(t) && Greeted(t) && Enabled(t, ToProxy(ok))
    requires |t.handlers| <= U32_RANGE && key < U32_RANGE
    ensures Linked(Step(t, ToProxy(ok)))
    ensures Follows(Proj(t, key), Act(t, ToProxy(ok), key), Proj(Step(t, ToProxy(ok)), key))
  {
    if t.proxy == AwaitingAgree {
      AgreeProjects(t, key);
      assert Step(t, ToProxy(ok)) == Welcome(Fetched(t), t.down.Next());
    } else {
      ReaderProjects(t, ok, key);
      assert Step(t, ToProxy(ok)) == ProxyReceives(Fetched(t), t.down.Next(), ok);
    }
  }

  lemma NobodysFrames(l: Link, fs: seq<Frame>, id: u32)
    requires l.Valid() && |fs| <= 1 && forall f :: f in fs ==> !f.IsRequest() && !f.IsResponse()
    ensures l.Send(fs).Valid() && LinkOf(l.Send(fs), id) == LinkOf(l, id)
  {
    assert fs != [] ==> fs[0] in fs;
    LinkSends(l, fs, id);
  }

  lemma QuietProjects(t: Tunnel, a: Action, key: nat)
    requires Linked(t) && Enabled(t, a) && Quiet(a)
    ensures Linked(Step(t, a))
    ensures Proj(Step(t, a), key) == Proj(t, key)
  {
    QuietStep(t, a);
    QuietFramesAreNobodys(a);
    NobodysFrames(t.up, QuietFrames(a), S.Id(key));
    NobodysFrames(t.down, QuietFrames(a), S.Id(key));
  }

  lemma StepProjects(t: Tunnel, a: Action, key: nat)
    requires Routed(t) && Greeted(t) && Enabled(t, a)
    requires |t.handlers| <= U32_RANGE && key < U32_RANGE
    ensures Linked(Step(t, a))
    ensures Follows(Proj(t, key), Act(t, a, key), Proj(Step(t, a), key))
  {
    if Quiet(a) {
      QuietProjects(t, a, key);
    } else {
      match a {
        case Handle(k, act) =>
          if k == key {
            OwnHandleProjects(t, act, key);
          } else {
            OtherHandleProjects(t, k, act, key);
          }
        case Work(j, act) => WorkProjects(t, j, act, key);
        case Accept(http) => AcceptProjects(t, http, key);
        case ToServe(ok) => ToServeProjects(t, ok, key);
        case ToProxy(ok) => ToProxyProjects(t, ok, key);
      }
    }
  }

  // --- Runs ---

  /** The steps the stream takes in a run of the tunnel. */
  ghost function Acts(t: Tunnel, acts: seq<Action>, key: nat): seq<S.Act>
    requires Valid(t, acts)
    decreases |acts|
  {
    if acts == [] then []
    else
      var rest := Acts(Step(t, acts[0]), acts[1..], key);
      match Act(t, acts[0], key)
      case None => rest
      case Some(a) => [a] + rest
  }

  lemma GreetKeepsHandlers(t: Tunnel, f: Frame, ok: bool)
    ensures Greet(t, f, ok).handlers == t.handlers && Greet(t, f, ok).pending == t.pending
  {
  }

  lemma ServeReceivesKeepsHandlers(t: Tunnel, f: Frame, ok: bool)
    ensures ServeReceives(t, f, ok).handlers == t.handlers && ServeReceives(t, f, ok).pending == t.pending
  {
  }

  lemma ServingKeepsHandlers(t: Tunnel, ok: bool)
    requires Enabled(t, ToServe(ok))
    ensures Step(t, ToServe(ok)).handlers == t.handlers && Step(t, ToServe(ok)).pending == t.pending
  {
    if t.serve == AwaitingHello {
      GreetKeepsHandlers(Taken(t), t.up.Next(), ok);
    } else {
      ServeReceivesKeepsHandlers(Taken(t), t.up.Next(), ok);
    }
  }

  lemma StepGrows(t: Tunnel, a: Action)
    requires Enabled(t, a)
    ensures |t.handlers| <= |Step(t, a).handlers|
  {
    match a {
      case Accept(_) =>
      case Handle(key, act) => assert |HandlerMoves(t, key, act).handlers| == |t.handlers|;
      case Work(j, act) => assert JobMoves(t, j, act).handlers == t.handlers;
      case ToServe(ok) => ServingKeepsHandlers(t, ok);
      case ToProxy(ok) => assert |Given(t.handlers, Demux(t.pending, t.down.Next()).delivery)| == |t.handlers|;
      case _ => QuietStep(t, a);
    }
  }

  lemma {:induction false} HandlersGrow(t: Tunnel, acts: seq<Action>)
    requires Valid(t, acts)
    ensures |t.handlers| <= |Run(t, acts).handlers|
    decreases |acts|
  {
    if acts != [] {
      StepGrows(t, acts[0]);
      HandlersGrow(Step(t, acts[0]), acts[1..]);
    }
  }

  lemma {:induction false} RunProjectsFrom(t: Tunnel, acts: seq<Action>, key: nat)
    requires Routed(t) && Greeted(t) && Valid(t, acts)
    requires |Run(t, acts).handlers| <= U32_RANGE && key < U32_RANGE
    ensures Routed(Run(t, acts))
    ensures S.Valid(Proj(t, key), Acts(t, acts, key))
    ensures S.Run(Proj(t, key), Acts(t, acts, key)) == Proj(Run(t, acts), key)
    decreases |acts|
  {
    if acts != [] {
      var t' := Step(t, acts[0]);
      HandlersGrow(t, acts);
      StepKeepsRouted(t, acts[0]);
      StepKeepsGreeted(t, acts[0]);
      StepProjects(t, acts[0], key);
      RunProjectsFrom(t', acts[1..], key);
      var mine, rest := Act(t, acts[0], key), Acts(t', acts[1..], key);
      if mine.Some? {
        assert ([mine.value] + rest)[1..] == rest;
      }
    }
  }

  lemma StartProjects(key: nat)
    ensures Routed(START) && Greeted(START) && Proj(START, key) == S.Init(key)
  {
  }

  /** Every run with at most 2^32 requests, projected onto one of them, is a run of the single-stream tunnel. */
  lemma RunProjects(acts: seq<Action>, key: nat)
    requires Valid(START, acts) && |Run(START, acts).handlers| <= U32_RANGE && key < U32_RANGE
    ensures Routed(Run(START, acts))
    ensures S.Valid(S.Init(key), Acts(START, acts, key))
    ensures S.Run(S.Init(key), Acts(START, acts, key)) == Proj(Run(START, acts), key)
    ensures S.Inv(Proj(Run(START, acts), key))
  {
    StartProjects(key);
    RunProjectsFrom(START, acts, key);
    S.RunKeepsInv(S.Init(key), Acts(START, acts, key));
  }
}
