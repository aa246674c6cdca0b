/** Runs that show where the guarantees stop: 2^32 is a sharp bound, and a cancelled request leaks both table
    entries. */
module Limits {
  import opened Primitives
  import opened Frames
  import opened Proxy
  import opened Serve
  import opened Channel
  import opened Tunnel
  import opened TunnelTheorems
  import opened History
  import H = Handshake
  import opened Projection
  import P = Protocol
  import S = Stream

  lemma {:induction false} RunSnoc(t: Tunnel, acts: seq<Action>, a: Action)
    requires Valid(t, acts) && Enabled(Run(t, acts), a)
    ensures Valid(t, acts + [a]) && Run(t, acts + [a]) == Step(Run(t, acts), a)
    decreases |acts|
  {
    if acts == [] {
      assert [] + [a] == [a];
      assert [a][1..] == [];
    } else {
      RunSnoc(Step(t, acts[0]), acts[1..], a);
      assert (acts + [a])[1..] == acts[1..] + [a];
    }
  }

  lemma Extend(acts: seq<Action>, t: Tunnel, a: Action) returns (acts': seq<Action>, t': Tunnel)
    requires Reached(acts, t) && Enabled(t, a)
    ensures Reached(acts', t') && t' == Step(t, a)
  {
    RunSnoc(START, acts, a);
    acts', t' := acts + [a], Step(t, a);
  }

  const GREETED := START.(proxy := Listening, serve := Running, proxyPinging := true, servePinging := true,
                          up := Link([Hello(P.NewHello())], 1), down := Link([Agree(H.AGREED)], 1))

  lemma Greet() returns (acts: seq<Action>)
    ensures Reached(acts, GREETED)
  {
    var t := START;
    acts := [];
    H.OursAgree();
    acts, t := Extend(acts, t, SendHello(true));
    acts, t := Extend(acts, t, ToServe(true));
    acts, t := Extend(acts, t, ToProxy(true));
    assert t.up.sent == [Hello(P.NewHello())] && t.down.sent == [Agree(H.AGREED)];
  }

  const GET := HttpRequest("GET", "/", map[], Some([]))

  lemma OneRegistered() returns (acts: seq<Action>, t: Tunnel)
    ensures Reached(acts, t)
    ensures t == GREETED.(counter := 2, handlers := [NewHandler(1, GET).(stage := SendingHeaders, enrolled := true)],
            pending := map[1 := 0])
  {
    acts := Greet();
    t := GREETED;
    acts, t := Extend(acts, t, Accept(GET));
    acts, t := Extend(acts, t, Handle(0, ReadBody));
    acts, t := Extend(acts, t, Handle(0, Register));
    assert t.up.sent == GREETED.up.sent;
  }

  // --- What a cancelled handler leaves behind ---

  /** The handler is gone, its header frame has arrived and its end frame never will. */
  ghost predicate Abandoned(s: S.Stream) {
    && s.handler.Some? && s.handler.value.stage == Finished(Cancelled)
    && s.handler.value.headersSent && !s.handler.value.endSent && s.up.delivered > 0
  }

  lemma AbandonedStays(s: S.Stream, a: S.Act)
    requires Abandoned(s) && S.Enabled(s, a)
    ensures Abandoned(S.Step(s, a))
  {
  }

  lemma {:induction false} AbandonedForGood(s: S.Stream, acts: seq<S.Act>)
    requires Abandoned(s) && S.Valid(s, acts)
    ensures Abandoned(S.Run(s, acts))
    decreases |acts|
  {
    if acts != [] {
      AbandonedStays(s, acts[0]);
      AbandonedForGood(S.Step(s, acts[0]), acts[1..]);
    }
  }

  lemma AbandonedLeaks(s: S.Stream)
    requires S.Inv(s) && Abandoned(s)
    ensures S.Id(s.key) in s.partials && S.Id(s.key) in s.pending && s.pending[S.Id(s.key)] == s.key
  {
    var h := s.handler.value;
    assert s.jobs == [] && s.down.sent == [];
    assert s.down.Received() == [];
  }

  /** Nothing that happens later in the session takes the entries of an abandoned request out of the tables. */
  lemma LeakIsForGood(t: Tunnel, more: seq<Action>, key: nat)
    requires Sound(t, key) && H.Greeted(t) && Abandoned(Proj(t, key)) && key < U32_RANGE
    requires Valid(t, more) && |Run(t, more).handlers| <= U32_RANGE
    ensures var t' := Run(t, more); S.Id(key) in t'.partials && S.Id(key) in t'.pending && t'.pending[S.Id(key)] == key
  {
    var s, s' := Proj(t, key), Acts(t, more, key);
    RunProjectsFrom(t, more, key);
    AbandonedForGood(s, s');
    S.RunKeepsInv(s, s');
    RunKeepsKey(s, s');
    AbandonedLeaks(S.Run(s, s'));
  }

  lemma {:induction false} RunKeepsKey(s: S.Stream, acts: seq<S.Act>)
    requires S.Valid(s, acts)
    ensures S.Run(s, acts).key == s.key
    decreases |acts|
  {
    if acts != [] {
      RunKeepsKey(S.Step(s, acts[0]), acts[1..]);
    }
  }

  lemma OneCancelled() returns (acts: seq<Action>, t: Tunnel)
    ensures Session(acts, t) && Drained(t)
    ensures t.pending == map[1 := 0] && t.partials.Keys == {1} && |t.handlers| == 1
    ensures var h := t.handlers[0]; h.stage == Finished(Cancelled) && h.headersSent && !h.endSent
  {
    acts, t := OneRegistered();
    acts, t := Extend(acts, t, Handle(0, SendHeaders(true)));
    acts, t := Extend(acts, t, Handle(0, Cancel));
    assert t.up.sent == [Hello(P.NewHello()), ReqHeadersFrame(t.handlers[0].Request())];
    acts, t := Extend(acts, t, ToServe(true));
  }

  /** A client that goes away between the header frame and the end frame leaves an entry in each table: although the
      channels are drained and the handler is gone, no continuation of the session takes them out. */
  lemma CancelLeaks() returns (acts: seq<Action>, t: Tunnel)
    ensures Session(acts, t) && Drained(t)
    ensures t.pending == map[1 := 0] && t.partials.Keys == {1}
    ensures |t.handlers| == 1 && t.handlers[0].stage == Finished(Cancelled)
    ensures forall more :: LeavesEntries(t, more)
  {
    acts, t := OneCancelled();
    FirstLeaks(acts, t);
  }

  /** After `more`, the first request of the session still has its two entries. */
  ghost predicate LeavesEntries(t: Tunnel, more: seq<Action>) {
    Valid(t, more) && |Run(t, more).handlers| <= U32_RANGE ==>
      var t' := Run(t, more); 1 in t'.partials && 1 in t'.pending && t'.pending[1] == 0
  }

  lemma FirstLeaks(acts: seq<Action>, t: Tunnel)
    requires Session(acts, t) && t.handlers != [] && 1 in t.partials
    requires var h := t.handlers[0]; h.stage == Finished(Cancelled) && h.headersSent && !h.endSent
    ensures forall more :: LeavesEntries(t, more)
  {
    SessionIsSound(acts, t, 0);
    H.RunKeepsGreeted(START, acts);
    FirstIsAbandoned(t);
    forall more ensures LeavesEntries(t, more) {
      if Valid(t, more) && |Run(t, more).handlers| <= U32_RANGE {
        LeakIsForGood(t, more, 0);
      }
    }
  }

  lemma FirstIsAbandoned(t: Tunnel)
    requires Sound(t, 0) && 1 in t.partials
    requires t.handlers[0].stage == Finished(Cancelled) && t.handlers[0].headersSent && !t.handlers[0].endSent
    ensures Abandoned(Proj(t, 0))
  {
    var s := Proj(t, 0);
    assert S.Id(0) == 1 && 1 in s.partials;
  }

  /** `n` more requests are accepted and nothing else happens. */
  lemma {:induction false} AcceptMany(acts: seq<Action>, t: Tunnel, n: nat) returns (acts': seq<Action>, t': Tunnel)
    requires Reached(acts, t) && t.proxy == Listening
    ensures Reached(acts', t')
    ensures t'.proxy == Listening && t'.pending == t.pending && |t'.handlers| == |t.handlers| + n
    ensures t'.handlers[..|t.handlers|] == t.handlers
    ensures n > 0 ==> t'.handlers[|t'.handlers| - 1].stage == Collecting && t'.handlers[|t'.handlers| - 1].http == GET
    decreases n
  {
    if n == 0 {
      acts', t' := acts, t;
    } else {
      var acts1, t1 := AcceptMany(acts, t, n - 1);
      acts', t' := Extend(acts1, t1, Accept(GET));
      assert t'.handlers[..|t1.handlers|] == t1.handlers;
    }
  }

  lemma LastRegisters(acts: seq<Action>, t: Tunnel, key: nat) returns (acts': seq<Action>, t': Tunnel)
    requires Reached(acts, t) && 0 < key < |t.handlers| && t.handlers[key].stage == Collecting
    requires t.handlers[key].http == GET && t.handlers[key].id == 1
    ensures Reached(acts', t') && |t'.handlers| == |t.handlers| && t'.handlers[0] == t.handlers[0]
    ensures t'.handlers[key].stage == SendingHeaders && t'.pending == t.pending[1 := key]
  {
    acts', t' := Extend(acts, t, Handle(key, ReadBody));
    acts', t' := Extend(acts', t', Handle(key, Register));
  }

  /** With one request more than 2^32 the last one replaces the entry of the first, which is still waiting to be
      sent. */
  lemma WrapOverwrites() returns (acts: seq<Action>, t: Tunnel)
    ensures Reached(acts, t) && |t.handlers| == U32_RANGE + 1
    ensures t.handlers[0].stage == SendingHeaders && t.handlers[U32_RANGE].stage == SendingHeaders
    ensures t.pending == map[1 := U32_RANGE] && !Alive(t, 0)
  {
    acts, t := OneRegistered();
    var first := t.handlers[0];
    acts, t := AcceptMany(acts, t, U32_RANGE);
    assert t.handlers[..1][0] == first;
    IdsWrap(acts, 0, U32_RANGE);
    acts, t := LastRegisters(acts, t, U32_RANGE);
  }

  // --- When registering overwrites ---

  /** A handler that has not registered yet has not entered the table. */
  ghost predicate Waits(h: Handler) {
    h.stage == Collecting || h.stage == Registering ==> !h.enrolled
  }

  /** Only a handler that has registered has an entry. */
  ghost predicate Enlisted(pending: map<u32, nat>, handlers: seq<Handler>) {
    && (forall id :: id in pending ==> pending[id] < |handlers| && handlers[pending[id]].enrolled)
    && (forall k :: 0 <= k < |handlers| ==> Waits(handlers[k]))
  }

  lemma ReadingKeepsEnrolled(h: Handler, alive: bool, act: HandlerAct)
    requires HandlerEnabled(h, alive, act) && (act.AwaitEvent? || act.Forward?)
    ensures var r := HandlerStep(h, alive, act); Waits(r.handler) && r.handler.enrolled == h.enrolled && r.table == Keep
  {
  }

  lemma HandlerKeepsEnrolled(h: Handler, alive: bool, act: HandlerAct)
    requires HandlerEnabled(h, alive, act) && Waits(h)
    ensures var r := HandlerStep(h, alive, act);
            Waits(r.handler) && (h.enrolled || r.table == Insert ==> r.handler.enrolled)
  {
    if act.AwaitEvent? || act.Forward? {
      ReadingKeepsEnrolled(h, alive, act);
    }
  }

  lemma UpdateKeepsEnlisted(pending: map<u32, nat>, handlers: seq<Handler>, key: nat, h: Handler, table: TableOp,
      id: u32)
    requires Enlisted(pending, handlers) && key < |handlers|
    requires Waits(h) && (handlers[key].enrolled || table == Insert ==> h.enrolled)
    ensures Enlisted(Updated(pending, table, id, key), handlers[key := h])
  {
  }

  lemma HandleKeepsEnlisted(t: Tunnel, key: nat, act: HandlerAct)
    requires Enlisted(t.pending, t.handlers) && Enabled(t, Handle(key, act))
    ensures Enlisted(HandlerMoves(t, key, act).pending, HandlerMoves(t, key, act).handlers)
  {
    var h := t.handlers[key];
    var r := HandlerStep(h, Alive(t, key), act);
    HandlerKeepsEnrolled(h, Alive(t, key), act);
    UpdateKeepsEnlisted(t.pending, t.handlers, key, r.handler, r.table, h.id);
  }

  lemma ReceivingKeepsEnlisted(pending: map<u32, nat>, handlers: seq<Handler>, f: Frame)
    requires Enlisted(pending, handlers)
    ensures Enlisted(Demux(pending, f).pending, Given(handlers, Demux(pending, f).delivery))
  {
  }

  lemma AcceptKeepsEnlisted(pending: map<u32, nat>, handlers: seq<Handler>, id: u32, http: HttpRequest)
    requires Enlisted(pending, handlers)
    ensures Enlisted(pending, handlers + [NewHandler(id, http)])
  {
  }

  lemma FetchingKeepsEnlisted(t: Tunnel, ok: bool)
    requires Enlisted(t.pending, t.handlers) && Enabled(t, ToProxy(ok))
    ensures Enlisted(Step(t, ToProxy(ok)).pending, Step(t, ToProxy(ok)).handlers)
  {
    if t.proxy == AwaitingAgree {
      assert Welcome(Fetched(t), t.down.Next()).pending == t.pending;
    } else {
      ReceivingKeepsEnlisted(t.pending, t.handlers, t.down.Next());
    }
  }

  lemma StepKeepsEnlisted(t: Tunnel, a: Action)
    requires Enlisted(t.pending, t.handlers) && Enabled(t, a)
    ensures Enlisted(Step(t, a).pending, Step(t, a).handlers)
  {
    match a {
      case Accept(http) => AcceptKeepsEnlisted(t.pending, t.handlers, t.counter, http);
      case Handle(key, act) => HandleKeepsEnlisted(t, key, act);
      case Work(j, act) => assert JobMoves(t, j, act).handlers == t.handlers;
      case ToServe(ok) => ServingKeepsHandlers(t, ok);
      case ToProxy(ok) => FetchingKeepsEnlisted(t, ok);
      case _ => QuietStep(t, a);
    }
  }

  lemma {:induction false} RunKeepsEnlisted(t: Tunnel, acts: seq<Action>)
    requires Enlisted(t.pending, t.handlers) && Valid(t, acts)
    ensures Enlisted(Run(t, acts).pending, Run(t, acts).handlers)
    decreases |acts|
  {
    if acts != [] {
      StepKeepsEnlisted(t, acts[0]);
      RunKeepsEnlisted(Step(t, acts[0]), acts[1..]);
    }
  }

  /** A request whose distance from `key` is a multiple of 2^32 still has its entry. */
  ghost predicate Collides(t: Tunnel, key: nat, other: nat) {
    other < |t.handlers| && other != key && (other - key) % U32_RANGE == 0 && Alive(t, other)
  }

  /**
   * In a run of any length, registering replaces an entry if and only if a request at a distance divisible by 2^32 is
   * still alive; it is that request's entry, and the request is no longer alive.
   */
  lemma RegisterOverwrites(acts: seq<Action>, t: Tunnel, key: nat)
    requires Reached(acts, t) && Enabled(t, Handle(key, Register))
    ensures t.handlers[key].id in t.pending <==> exists other :: Collides(t, key, other)
    ensures forall other :: Collides(t, key, other) ==>
              t.pending[t.handlers[key].id] == other && !Alive(Step(t, Handle(key, Register)), other)
  {
    RunKeepsRouted(START, acts);
    RunKeepsEnlisted(START, acts);
    CollisionIsExact(t, key);
  }

  lemma CollisionIsExact(t: Tunnel, key: nat)
    requires Routed(t) && Enlisted(t.pending, t.handlers) && Enabled(t, Handle(key, Register))
    ensures t.handlers[key].id in t.pending <==> exists other :: Collides(t, key, other)
    ensures forall other :: Collides(t, key, other) ==>
              t.pending[t.handlers[key].id] == other && !Alive(Step(t, Handle(key, Register)), other)
  {
    var id := t.handlers[key].id;
    if id in t.pending {
      IdsRepeat(t.pending[id], key);
      assert Collides(t, key, t.pending[id]);
    }
    forall other | Collides(t, key, other)
      ensures id in t.pending && t.pending[id] == other && !Alive(Step(t, Handle(key, Register)), other)
    {
      IdsRepeat(other, key);
    }
  }
}
