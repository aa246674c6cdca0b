/** Every body frame ever sent fits the data channel: no bound on the number of requests. */
module FrameSizes {
  import opened Primitives
  import opened Frames
  import opened Chunking
  import opened Proxy
  import opened Serve
  import opened Channel
  import opened Tunnel
  import P = Protocol

  ghost predicate UpSmall(up: Link) {
    forall f :: f in up.sent ==> Small(f)
  }

  /** `j` has sent `f`. */
  ghost predicate SentBy(j: Job, f: Frame) {
    exists n :: 0 <= n < j.sent && n < |j.Frames()| && j.Frames()[n] == f
  }

  /** One of the jobs has sent `f`. */
  ghost predicate HasSender(jobs: seq<Job>, f: Frame) {
    exists k :: 0 <= k < |jobs| && SentBy(jobs[k], f)
  }

  ghost predicate DownHasSenders(jobs: seq<Job>, down: Link) {
    forall f :: f in down.sent && f.IsResponse() ==> HasSender(jobs, f)
  }

  ghost predicate Sized(t: Tunnel) {
    UpSmall(t.up) && DownHasSenders(t.jobs, t.down)
  }

  lemma HandlerEmitsSmall(h: Handler, alive: bool, act: HandlerAct)
    requires HandlerEnabled(h, alive, act)
    ensures forall f :: f in HandlerStep(h, alive, act).emitted ==> Small(f)
  {
  }

  lemma JobKeepsSent(j: Job, act: JobAct)
    requires JobEnabled(j, act)
    ensures forall f :: SentBy(j, f) || f in JobStep(j, act).emitted ==> SentBy(JobStep(j, act).job, f)
  {
    var j' := JobStep(j, act).job;
    forall f | SentBy(j, f) ensures SentBy(j', f) {
      var n :| 0 <= n < j.sent && n < |j.Frames()| && j.Frames()[n] == f;
      assert j'.Frames()[n] == f;
    }
    forall f | f in JobStep(j, act).emitted ensures SentBy(j', f) {
      assert j'.Frames()[j.sent] == f;
    }
  }

  lemma UpdateKeepsSenders(jobs: seq<Job>, down: Link, i: nat, j: Job, emitted: seq<Frame>)
    requires DownHasSenders(jobs, down) && i < |jobs|
    requires forall f :: SentBy(jobs[i], f) || f in emitted ==> SentBy(j, f)
    ensures DownHasSenders(jobs[i := j], down.Send(emitted))
  {
    forall f | f in down.Send(emitted).sent && f.IsResponse() ensures HasSender(jobs[i := j], f) {
      if f in emitted {
        assert SentBy(jobs[i := j][i], f);
      } else {
        var k :| 0 <= k < |jobs| && SentBy(jobs[k], f);
        assert SentBy(jobs[i := j][k], f);
      }
    }
  }

  lemma AppendKeepsSenders(jobs: seq<Job>, more: seq<Job>, down: Link)
    requires DownHasSenders(jobs, down)
    ensures DownHasSenders(jobs + more, down)
  {
    forall f | f in down.sent && f.IsResponse() ensures HasSender(jobs + more, f) {
      var k :| 0 <= k < |jobs| && SentBy(jobs[k], f);
      assert SentBy((jobs + more)[k], f);
    }
  }

  lemma SendKeepsSized(jobs: seq<Job>, up: Link, down: Link, fs: seq<Frame>)
    requires UpSmall(up) && DownHasSenders(jobs, down)
    requires forall f :: f in fs ==> Small(f) && !f.IsResponse()
    ensures UpSmall(up.Send(fs)) && DownHasSenders(jobs, down.Send(fs))
  {
  }

  lemma ServeReceivesKeepsSized(t: Tunnel, f: Frame, ok: bool)
    requires Sized(t)
    ensures Sized(ServeReceives(t, f, ok))
  {
    SendKeepsSized(t.jobs, t.up, t.down, Sent(Pong, ok));
    var r := Reassemble(t.partials, f);
    if r.dispatched.Some? {
      AppendKeepsSenders(t.jobs, [NewJob(r.dispatched.value)], t.down);
    }
  }

  lemma GreetKeepsSized(t: Tunnel, f: Frame, ok: bool)
    requires Sized(t)
    ensures Sized(Greet(t, f, ok))
  {
    if f.Hello? && P.FromHello(f.hello).Ok? {
      SendKeepsSized(t.jobs, t.up, t.down, [Agree(P.FromHello(f.hello).value)]);
    }
  }

  lemma ProxyReceivesKeepsSized(t: Tunnel, f: Frame, ok: bool)
    requires Sized(t)
    ensures Sized(ProxyReceives(t, f, ok))
  {
    SendKeepsSized(t.jobs, t.up, t.down, Sent(Pong, ok));
  }

  lemma HandleKeepsSized(t: Tunnel, key: nat, act: HandlerAct)
    requires Sized(t) && Enabled(t, Handle(key, act))
    ensures Sized(HandlerMoves(t, key, act))
  {
    HandlerEmitsSmall(t.handlers[key], Alive(t, key), act);
  }

  lemma WorkKeepsSized(t: Tunnel, j: nat, act: JobAct)
    requires Sized(t) && Enabled(t, Work(j, act))
    ensures Sized(JobMoves(t, j, act))
  {
    JobKeepsSent(t.jobs[j], act);
    UpdateKeepsSenders(t.jobs, t.down, j, JobStep(t.jobs[j], act).job, JobStep(t.jobs[j], act).emitted);
  }

  lemma QuietKeepsSized(t: Tunnel, a: Action)
    requires Sized(t) && Enabled(t, a) && Quiet(a)
    ensures Sized(Step(t, a))
  {
    QuietStep(t, a);
    SendKeepsSized(t.jobs, t.up, t.down, QuietFrames(a));
  }

  lemma ToServeKeepsSized(t: Tunnel, ok: bool)
    requires Sized(t) && Enabled(t, ToServe(ok))
    ensures Sized(Step(t, ToServe(ok)))
  {
    if t.serve == AwaitingHello {
      GreetKeepsSized(Taken(t), t.up.Next(), ok);
    } else {
      ServeReceivesKeepsSized(Taken(t), t.up.Next(), ok);
    }
  }

  lemma ToProxyKeepsSized(t: Tunnel, ok: bool)
    requires Sized(t) && Enabled(t, ToProxy(ok))
    ensures Sized(Step(t, ToProxy(ok)))
  {
    ProxyReceivesKeepsSized(Fetched(t), t.down.Next(), ok);
  }

  lemma StepKeepsSized(t: Tunnel, a: Action)
    requires Sized(t) && Enabled(t, a)
    ensures Sized(Step(t, a))
  {
    match a {
      case Accept(_) =>
      case Handle(key, act) => HandleKeepsSized(t, key, act);
      case Work(j, act) => WorkKeepsSized(t, j, act);
      case ToServe(ok) => ToServeKeepsSized(t, ok);
      case ToProxy(ok) => ToProxyKeepsSized(t, ok);
      case _ => QuietKeepsSized(t, a);
    }
  }

  lemma {:induction false} RunKeepsSized(t: Tunnel, acts: seq<Action>)
    requires Sized(t) && Valid(t, acts)
    ensures Sized(Run(t, acts))
    decreases |acts|
  {
    if acts != [] {
      StepKeepsSized(t, acts[0]);
      RunKeepsSized(Step(t, acts[0]), acts[1..]);
    }
  }

  /** Once encoded, the frame carries something and fits the data channel. */
  ghost predicate Fits(json: Json, f: Frame) {
    5 < |P.Encode(ToWire(json, f))| <= P.MAX_FRAME_SIZE
  }

  /** In every run, every request body frame sent fits. */
  lemma RequestBodiesFit(json: Json, acts: seq<Action>, f: Frame)
    requires Valid(START, acts) && f in Run(START, acts).up.sent && f.ReqBody?
    ensures Fits(json, f)
  {
    RunKeepsSized(START, acts);
    SmallFits(json, f);
  }

  /** In every run, every response body frame was sent by a job, and fits unless that job could not reach its
      upstream. */
  lemma ResponseBodiesFit(json: Json, acts: seq<Action>, f: Frame) returns (j: Job)
    requires Valid(START, acts) && f in Run(START, acts).down.sent && f.ResBody?
    ensures j in Run(START, acts).jobs && SentBy(j, f)
    ensures j.upstream.value.Unreachable? || Fits(json, f)
  {
    var jobs := Run(START, acts).jobs;
    RunKeepsSized(START, acts);
    var k :| 0 <= k < |jobs| && SentBy(jobs[k], f);
    j := jobs[k];
    if j.upstream.value.Responded? {
      PlanIsSmall(j.Id(), j.upstream.value);
      SmallFits(json, f);
    }
  }
}
