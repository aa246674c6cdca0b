/** The handshake: what each side receives first, in every interleaving. */
module Handshake {
  import opened Primitives
  import opened Frames
  import opened Proxy
  import opened Serve
  import opened Channel
  import opened Tunnel
  import P = Protocol

  const AGREED := P.AgreeInfo(1, ["sse"])

  /** HELLO is the first thing the proxy sends, and the only thing until it has its AGREE. */
  ghost predicate UpOpens(t: Tunnel) {
    && (t.up.sent != [] ==> t.up.sent[0] == Hello(P.NewHello()))
    && (t.proxy == Opening ==> t.up.sent == [])
    && (t.proxy == AwaitingAgree ==> t.up.sent != [])
    && (!Reading(t) ==> |t.up.sent| <= 1 && t.handlers == [] && !t.proxyPinging && t.down.delivered == 0)
    && (Reading(t) ==> t.up.sent != [] && t.down.delivered > 0)
    && t.down.delivered <= |t.down.sent|
  }

  /** AGREE is the first thing serve sends, and it answers the proxy's HELLO. */
  ghost predicate DownOpens(t: Tunnel) {
    && (t.down.sent != [] ==> t.down.sent[0] == Agree(AGREED))
    && (t.serve == Running ==> t.down.sent != [] && t.up.delivered > 0)
    && (t.serve == AwaitingHello ==> t.down.sent == [] && t.up.delivered == 0)
    && (t.down.sent == [] ==> t.jobs == [] && !t.servePinging)
    && t.serve != Ended(NotHello)
    && !(t.serve.Ended? && t.serve.reason.NoAgreement?)
    && t.up.delivered <= |t.up.sent|
  }

  ghost predicate Greeted(t: Tunnel) {
    UpOpens(t) && DownOpens(t)
  }

  lemma OursAgree()
    ensures P.FromHello(P.NewHello()) == Ok(AGREED)
  {
    FilterAppend((f: string) => f in P.SUPPORTED, [], "sse");
    assert [] + ["sse"] == P.SUPPORTED;
  }

  lemma FirstStays(l: Link, fs: seq<Frame>, f: Frame)
    requires l.sent != [] ==> l.sent[0] == f
    ensures l.sent != [] ==> l.Send(fs).sent != [] && l.Send(fs).sent[0] == f
    ensures |fs| == 0 ==> l.Send(fs) == l
  {
    if |fs| == 0 {
      assert l.sent + fs == l.sent;
    }
  }

  lemma HandleKeepsGreeted(t: Tunnel, key: nat, act: HandlerAct)
    requires Greeted(t) && Enabled(t, Handle(key, act))
    ensures Greeted(HandlerMoves(t, key, act))
  {
    FirstStays(t.up, HandlerStep(t.handlers[key], Alive(t, key), act).emitted, Hello(P.NewHello()));
  }

  lemma WorkKeepsGreeted(t: Tunnel, j: nat, act: JobAct)
    requires Greeted(t) && Enabled(t, Work(j, act))
    ensures Greeted(JobMoves(t, j, act))
  {
    FirstStays(t.down, JobStep(t.jobs[j], act).emitted, Agree(AGREED));
  }

  lemma GreetKeepsGreeted(t: Tunnel, ok: bool)
    requires Greeted(t) && Enabled(t, ToServe(ok)) && t.serve == AwaitingHello
    ensures Greeted(Greet(Taken(t), t.up.Next(), ok))
  {
    OursAgree();
  }

  lemma RequestKeepsGreeted(t: Tunnel, partials: map<u32, Request>, jobs: seq<Job>)
    requires Greeted(t) && t.up.Waiting() && t.serve == Running
    ensures Greeted(Taken(t).(partials := partials, jobs := jobs))
  {
  }

  lemma ServeReceivesKeepsGreeted(t: Tunnel, ok: bool)
    requires Greeted(t) && Enabled(t, ToServe(ok)) && t.serve == Running
    ensures Greeted(ServeReceives(Taken(t), t.up.Next(), ok))
  {
    var f := t.up.Next();
    if f.Ping? {
      FirstStays(t.down, Sent(Pong, ok), Agree(AGREED));
    } else {
      var r := Reassemble(t.partials, f);
      var jobs := if r.dispatched.Some? then t.jobs + [NewJob(r.dispatched.value)] else t.jobs;
      RequestKeepsGreeted(t, r.partials, jobs);
    }
  }

  lemma ToServeKeepsGreeted(t: Tunnel, ok: bool)
    requires Greeted(t) && Enabled(t, ToServe(ok))
    ensures Greeted(Step(t, ToServe(ok)))
  {
    if t.serve == AwaitingHello {
      GreetKeepsGreeted(t, ok);
    } else {
      ServeReceivesKeepsGreeted(t, ok);
    }
  }

  lemma WelcomeKeepsGreeted(t: Tunnel)
    requires Greeted(t) && t.down.Waiting() && t.proxy == AwaitingAgree
    ensures Greeted(Welcome(Fetched(t), t.down.Next())) && Welcome(Fetched(t), t.down.Next()).proxy == Listening
  {
  }

  lemma ResponseKeepsGreeted(t: Tunnel, pending: map<u32, nat>, handlers: seq<Handler>)
    requires Greeted(t) && t.down.Waiting() && Reading(t)
    ensures Greeted(Fetched(t).(pending := pending, handlers := handlers))
  {
  }

  lemma ProxyReceivesKeepsGreeted(t: Tunnel, ok: bool)
    requires Greeted(t) && t.down.Waiting() && Reading(t)
    ensures Greeted(ProxyReceives(Fetched(t), t.down.Next(), ok))
  {
    var f := t.down.Next();
    if f.Ping? {
      FirstStays(t.up, Sent(Pong, ok), Hello(P.NewHello()));
    } else {
      ResponseKeepsGreeted(t, Demux(t.pending, f).pending, Given(t.handlers, Demux(t.pending, f).delivery));
    }
  }

  lemma ToProxyKeepsGreeted(t: Tunnel, ok: bool)
    requires Greeted(t) && Enabled(t, ToProxy(ok))
    ensures Greeted(Step(t, ToProxy(ok)))
    ensures t.proxy == AwaitingAgree ==> Step(t, ToProxy(ok)).proxy == Listening
  {
    if t.proxy == AwaitingAgree {
      WelcomeKeepsGreeted(t);
    } else {
      ProxyReceivesKeepsGreeted(t, ok);
    }
  }

  lemma PingKeepsGreeted(t: Tunnel, a: Action)
    requires Greeted(t) && Enabled(t, a) && (a.ProxyPing? || a.ServePing?)
    ensures Greeted(Step(t, a))
  {
    FirstStays(t.up, Sent(Ping, a.ok), Hello(P.NewHello()));
    FirstStays(t.down, Sent(Ping, a.ok), Agree(AGREED));
  }

  lemma HelloKeepsGreeted(t: Tunnel, ok: bool)
    requires Greeted(t) && Enabled(t, SendHello(ok))
    ensures Greeted(Step(t, SendHello(ok)))
  {
  }

  lemma PhaseKeepsGreeted(t: Tunnel, a: Action)
    requires Greeted(t) && Enabled(t, a)
    requires a.ProxyGivesUp? || a.ServeGivesUp? || a.ProxyDisconnects? || a.ServeDisconnects?
    ensures Greeted(Step(t, a))
  {
  }

  lemma AcceptKeepsGreeted(t: Tunnel, http: HttpRequest)
    requires Greeted(t) && Enabled(t, Accept(http))
    ensures Greeted(Step(t, Accept(http)))
  {
  }

  lemma StepKeepsGreeted(t: Tunnel, a: Action)
    requires Greeted(t) && Enabled(t, a)
    ensures Greeted(Step(t, a))
  {
    match a {
      case Accept(http) => AcceptKeepsGreeted(t, http);
      case Handle(key, act) => HandleKeepsGreeted(t, key, act);
      case Work(j, act) => WorkKeepsGreeted(t, j, act);
      case ToServe(ok) => ToServeKeepsGreeted(t, ok);
      case ToProxy(ok) => ToProxyKeepsGreeted(t, ok);
      case SendHello(ok) => HelloKeepsGreeted(t, ok);
      case ProxyPing(_) => PingKeepsGreeted(t, a);
      case ServePing(_) => PingKeepsGreeted(t, a);
      case _ => PhaseKeepsGreeted(t, a);
    }
  }

  lemma {:induction false} RunKeepsGreeted(t: Tunnel, acts: seq<Action>)
    requires Greeted(t) && Valid(t, acts)
    ensures Greeted(Run(t, acts))
    decreases |acts|
  {
    if acts != [] {
      StepKeepsGreeted(t, acts[0]);
      RunKeepsGreeted(Step(t, acts[0]), acts[1..]);
    }
  }

  /** In every run serve receives HELLO first and the proxy AGREE first, so neither side ever rejects the other. */
  lemma HandshakeOrder(acts: seq<Action>)
    requires Valid(START, acts)
    ensures var t := Run(START, acts);
            && (t.up.sent != [] ==> t.up.sent[0] == Hello(P.HelloInfo("httptunnel", 1, 1, ["sse"])))
            && (t.down.sent != [] ==> t.down.sent[0] == Agree(P.AgreeInfo(1, ["sse"])))
            && (t.serve == Running ==> t.up.delivered > 0)
            && (Reading(t) ==> t.down.delivered > 0)
            && t.serve != Ended(NotHello) && !(t.serve.Ended? && t.serve.reason.NoAgreement?)
            && (forall ok :: t.proxy == AwaitingAgree && Enabled(t, ToProxy(ok)) ==>
                               Step(t, ToProxy(ok)).proxy == Listening)
  {
    RunKeepsGreeted(START, acts);
    OursAgree();
    var t := Run(START, acts);
    forall ok | t.proxy == AwaitingAgree && Enabled(t, ToProxy(ok))
      ensures Step(t, ToProxy(ok)).proxy == Listening
    {
      ToProxyKeepsGreeted(t, ok);
    }
  }

  /** Whatever its first frame is, serve runs exactly if it is a HELLO that names the protocol, shares a version and can
      be answered; it then sends an AGREE on the greatest version shared, and otherwise nothing. */
  lemma GreetingIsExact(t: Tunnel, f: Frame, ok: bool)
    requires t.serve == AwaitingHello
    ensures Greet(t, f, ok).serve == Running <==>
            f.Hello? && f.hello.proto == "httptunnel" && (exists v: u32 :: P.Shared(f.hello, v)) && ok
    ensures Greet(t, f, ok).serve == Ended(NotHello) <==> !f.Hello?
    ensures Greet(t, f, ok).serve == Running ==>
              exists agree: P.AgreeInfo ::
                && Greet(t, f, ok).down.sent == t.down.sent + [Agree(agree)]
                && P.Shared(f.hello, agree.version)
                && (forall v: u32 :: P.Shared(f.hello, v) ==> v <= agree.version)
    ensures Greet(t, f, ok).serve != Running ==> Greet(t, f, ok).serve.Ended? && Greet(t, f, ok).down == t.down
  {
    if f.Hello? {
      P.Negotiation(f.hello);
      if P.FromHello(f.hello).Ok? && ok {
        assert Greet(t, f, ok).down.sent == t.down.sent + [Agree(P.FromHello(f.hello).value)];
      }
    }
  }
}
