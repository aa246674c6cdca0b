/** Pings and pongs, counted over whole runs. */
module Keepalive {
  import opened Primitives
  import opened Frames
  import opened Proxy
  import opened Serve
  import opened Channel
  import opened Tunnel
  import opened History
  import H = Handshake
  import P = Protocol

  function Pings(fs: seq<Frame>): nat {
    |Filter(IsPing, fs)|
  }

  function Pongs(fs: seq<Frame>): nat {
    |Filter(IsPong, fs)|
  }

  /** Pings that have reached the other side. */
  function Heard(l: Link): nat
    requires l.delivered <= |l.sent|
  {
    Pings(l.sent[..l.delivered])
  }

  /** One direction: a ping for each tick whose send succeeded, and never more pongs the other way than pings heard. */
  ghost predicate Balanced(pings: Link, pongs: Link, ticks: nat, lossless: bool) {
    && pings.Valid()
    && Pings(pings.sent) == ticks
    && Pongs(pongs.sent) <= Heard(pings)
    && (lossless ==> Pongs(pongs.sent) == Heard(pings))
  }

  ghost predicate Counted(t: Tunnel, past: seq<Action>) {
    && Balanced(t.up, t.down, multiset(past)[ProxyPing(true)], ToServe(false) !in past)
    && Balanced(t.down, t.up, multiset(past)[ServePing(true)], ToProxy(false) !in past)
  }

  lemma CountAppend(fs: seq<Frame>, f: Frame)
    ensures Pings(fs + [f]) == Pings(fs) + if f.Ping? then 1 else 0
    ensures Pongs(fs + [f]) == Pongs(fs) + if f.Pong? then 1 else 0
  {
    FilterAppend(IsPing, fs, f);
    FilterAppend(IsPong, fs, f);
  }

  lemma SendingCounts(l: Link, fs: seq<Frame>)
    requires l.Valid() && |fs| <= 1
    ensures l.Send(fs).Valid() && Heard(l.Send(fs)) == Heard(l)
    ensures Pings(l.Send(fs).sent) == Pings(l.sent) + if fs != [] && fs[0].Ping? then 1 else 0
    ensures Pongs(l.Send(fs).sent) == Pongs(l.sent) + if fs != [] && fs[0].Pong? then 1 else 0
  {
    assert l.Send(fs).sent[..l.delivered] == l.sent[..l.delivered];
    if fs == [] {
      assert l.sent + fs == l.sent;
    } else {
      assert fs == [fs[0]];
      CountAppend(l.sent, fs[0]);
    }
  }

  lemma DeliveringCounts(l: Link)
    requires l.Valid() && l.Waiting()
    ensures l.Deliver().Valid() && Heard(l.Deliver()) == Heard(l) + if l.Next().Ping? then 1 else 0
  {
    assert l.sent[..l.delivered + 1] == l.sent[..l.delivered] + [l.Next()];
    CountAppend(l.sent[..l.delivered], l.Next());
  }

  /** Sending `out` beside the pings and `back` beside the pongs: each ping sent is a tick, and no pong is sent back. */
  lemma SendingKeepsBalance(pings: Link, pongs: Link, out: seq<Frame>, back: seq<Frame>, ticks: nat, lossless: bool)
    requires Balanced(pings, pongs, ticks, lossless) && pongs.Valid()
    requires |out| <= 1 && |back| <= 1 && (back != [] ==> !back[0].Pong?)
    ensures Balanced(pings.Send(out), pongs.Send(back), ticks + (if out != [] && out[0].Ping? then 1 else 0), lossless)
  {
    SendingCounts(pings, out);
    SendingCounts(pongs, back);
  }

  /** Hearing the next frame: a ping is answered by one pong unless the send fails, nothing else by any. */
  lemma HearingKeepsBalance(pings: Link, pongs: Link, back: seq<Frame>, ok: bool, ticks: nat, lossless: bool)
    requires Balanced(pings, pongs, ticks, lossless) && pongs.Valid() && pings.Waiting() && |back| <= 1
    requires if pings.Next().Ping? then back == Sent(Pong, ok) else back != [] ==> !back[0].Pong?
    ensures Balanced(pings.Deliver(), pongs.Send(back), ticks, lossless && ok)
  {
    DeliveringCounts(pings);
    SendingCounts(pongs, back);
  }

  /** A step that moves no frame from one side to the other. */
  lemma LocalKeepsCounted(t: Tunnel, t': Tunnel, past: seq<Action>, a: Action, up: seq<Frame>, down: seq<Frame>)
    requires Counted(t, past) && t'.up == t.up.Send(up) && t'.down == t.down.Send(down)
    requires |up| <= 1 && (up != [] ==> !up[0].Pong? && (up[0].Ping? <==> a == ProxyPing(true)))
    requires |down| <= 1 && (down != [] ==> !down[0].Pong? && (down[0].Ping? <==> a == ServePing(true)))
    requires !a.ToServe? && !a.ToProxy? && (a == ProxyPing(true) ==> up != []) && (a == ServePing(true) ==> down != [])
    ensures Counted(t', past + [a])
  {
    SendingKeepsBalance(t.up, t.down, up, down, multiset(past)[ProxyPing(true)], ToServe(false) !in past);
    SendingKeepsBalance(t.down, t.up, down, up, multiset(past)[ServePing(true)], ToProxy(false) !in past);
  }

  lemma ServingKeepsCounted(t: Tunnel, t': Tunnel, past: seq<Action>, ok: bool, back: seq<Frame>)
    requires Counted(t, past) && t.up.Waiting() && t'.up == t.up.Deliver() && t'.down == t.down.Send(back)
    requires |back| <= 1 && (back != [] ==> !back[0].Ping?)
    requires if t.up.Next().Ping? then back == Sent(Pong, ok) else back != [] ==> !back[0].Pong?
    ensures Counted(t', past + [ToServe(ok)])
  {
    HearingKeepsBalance(t.up, t.down, back, ok, multiset(past)[ProxyPing(true)], ToServe(false) !in past);
    SendingKeepsBalance(t.down, t.up, back, [], multiset(past)[ServePing(true)], ToProxy(false) !in past);
    assert t.up.Send([]).sent == t.up.sent;
  }

  lemma FetchingKeepsCounted(t: Tunnel, t': Tunnel, past: seq<Action>, ok: bool, back: seq<Frame>)
    requires Counted(t, past) && t.down.Waiting() && t'.down == t.down.Deliver() && t'.up == t.up.Send(back)
    requires |back| <= 1 && (back != [] ==> !back[0].Ping?)
    requires if t.down.Next().Ping? then back == Sent(Pong, ok) else back != [] ==> !back[0].Pong?
    ensures Counted(t', past + [ToProxy(ok)])
  {
    HearingKeepsBalance(t.down, t.up, back, ok, multiset(past)[ServePing(true)], ToProxy(false) !in past);
    SendingKeepsBalance(t.up, t.down, back, [], multiset(past)[ProxyPing(true)], ToServe(false) !in past);
    assert t.down.Send([]).sent == t.down.sent;
  }

  lemma ServeReceiving(t: Tunnel, f: Frame, ok: bool) returns (back: seq<Frame>)
    ensures var t' := ServeReceives(t, f, ok); t'.up == t.up && t'.down == t.down.Send(back)
    ensures |back| <= 1 && (if f.Ping? then back == Sent(Pong, ok) else back == [])
  {
    assert t.down.Send([]) == t.down;
    back := if f.Ping? then Sent(Pong, ok) else [];
  }

  lemma ProxyReceiving(t: Tunnel, f: Frame, ok: bool) returns (back: seq<Frame>)
    ensures var t' := ProxyReceives(t, f, ok); t'.down == t.down && t'.up == t.up.Send(back)
    ensures |back| <= 1 && (if f.Ping? then back == Sent(Pong, ok) else back == [])
  {
    assert t.up.Send([]) == t.up;
    back := if f.Ping? then Sent(Pong, ok) else [];
  }

  lemma GreetAnswers(t: Tunnel, ok: bool) returns (back: seq<Frame>)
    requires H.Greeted(t) && Enabled(t, ToServe(ok)) && t.serve == AwaitingHello
    ensures t.up.Next().Hello? && |back| <= 1 && (back != [] ==> back[0].Agree?)
    ensures var t' := Step(t, ToServe(ok)); t'.up == t.up.Deliver() && t'.down == t.down.Send(back)
  {
    H.OursAgree();
    assert t.down.Send([]) == t.down;
    assert t.up.Next() == Hello(P.NewHello());
    back := Sent(Agree(H.AGREED), ok);
  }

  /** What serve sends back for the frame it takes. */
  lemma ServeAnswers(t: Tunnel, ok: bool) returns (back: seq<Frame>)
    requires H.Greeted(t) && Enabled(t, ToServe(ok))
    ensures var t' := Step(t, ToServe(ok)); t'.up == t.up.Deliver() && t'.down == t.down.Send(back)
    ensures |back| <= 1 && (back != [] ==> !back[0].Ping?)
    ensures if t.up.Next().Ping? then back == Sent(Pong, ok) else back != [] ==> !back[0].Pong?
  {
    assert t.down.Send([]) == t.down;
    if t.serve == AwaitingHello {
      back := GreetAnswers(t, ok);
    } else {
      back := ServeReceiving(Taken(t), t.up.Next(), ok);
      assert Step(t, ToServe(ok)) == ServeReceives(Taken(t), t.up.Next(), ok);
    }
  }

  /** What the proxy sends back for the frame it takes. */
  lemma ProxyAnswers(t: Tunnel, ok: bool) returns (back: seq<Frame>)
    requires H.Greeted(t) && Enabled(t, ToProxy(ok))
    ensures var t' := Step(t, ToProxy(ok)); t'.down == t.down.Deliver() && t'.up == t.up.Send(back)
    ensures |back| <= 1 && (back != [] ==> !back[0].Ping?)
    ensures if t.down.Next().Ping? then back == Sent(Pong, ok) else back != [] ==> !back[0].Pong?
  {
    assert t.up.Send([]) == t.up;
    if t.proxy == AwaitingAgree {
      assert t.down.Next() == Agree(H.AGREED);
      back := [];
      assert Step(t, ToProxy(ok)) == Welcome(Fetched(t), t.down.Next());
    } else {
      back := ProxyReceiving(Fetched(t), t.down.Next(), ok);
      assert Step(t, ToProxy(ok)) == ProxyReceives(Fetched(t), t.down.Next(), ok);
    }
  }

  lemma HandleKeepsCounted(t: Tunnel, past: seq<Action>, key: nat, act: HandlerAct)
    requires Counted(t, past) && Enabled(t, Handle(key, act))
    ensures Counted(HandlerMoves(t, key, act), past + [Handle(key, act)])
  {
    var r := HandlerStep(t.handlers[key], Alive(t, key), act);
    HandlerEmits(t.handlers[key], Alive(t, key), act);
    MoveKeepsCounted(t, past, key, act, r);
  }

  lemma MoveKeepsCounted(t: Tunnel, past: seq<Action>, key: nat, act: HandlerAct, r: Stepped)
    requires Counted(t, past) && key < |t.handlers|
    requires |r.emitted| <= 1 && forall f :: f in r.emitted ==> f.IsRequest()
    ensures Counted(Moved(t, key, r), past + [Handle(key, act)])
  {
    assert r.emitted != [] ==> r.emitted[0] in r.emitted;
    assert t.down.Send([]) == t.down;
    LocalKeepsCounted(t, Moved(t, key, r), past, Handle(key, act), r.emitted, []);
  }

  lemma WorkKeepsCounted(t: Tunnel, past: seq<Action>, j: nat, act: JobAct)
    requires Counted(t, past) && Enabled(t, Work(j, act))
    ensures Counted(JobMoves(t, j, act), past + [Work(j, act)])
  {
    var r := JobStep(t.jobs[j], act);
    JobEmits(t.jobs[j], act);
    assert r.emitted != [] ==> r.emitted[0] in r.emitted;
    assert t.up.Send([]) == t.up;
    LocalKeepsCounted(t, JobMoves(t, j, act), past, Work(j, act), [], r.emitted);
  }

  lemma AcceptKeepsCounted(t: Tunnel, past: seq<Action>, http: HttpRequest)
    requires Counted(t, past) && Enabled(t, Accept(http))
    ensures Counted(Step(t, Accept(http)), past + [Accept(http)])
  {
    assert t.up.Send([]) == t.up && t.down.Send([]) == t.down;
    LocalKeepsCounted(t, Step(t, Accept(http)), past, Accept(http), [], []);
  }

  lemma QuietKeepsCounted(t: Tunnel, past: seq<Action>, a: Action)
    requires Counted(t, past) && Enabled(t, a) && Quiet(a)
    ensures Counted(Step(t, a), past + [a])
  {
    QuietStep(t, a);
    assert t.up.Send([]) == t.up && t.down.Send([]) == t.down;
    LocalKeepsCounted(t, Step(t, a), past, a,
                      if a.ServePing? then [] else QuietFrames(a), if a.ServePing? then QuietFrames(a) else []);
  }

  lemma StepKeepsCounted(t: Tunnel, past: seq<Action>, a: Action)
    requires Counted(t, past) && H.Greeted(t) && Enabled(t, a)
    ensures Counted(Step(t, a), past + [a])
  {
    match a {
      case Accept(http) => AcceptKeepsCounted(t, past, http);
      case Handle(key, act) => HandleKeepsCounted(t, past, key, act);
      case Work(j, act) => WorkKeepsCounted(t, past, j, act);
      case ToServe(ok) =>
        var back := ServeAnswers(t, ok);
        ServingKeepsCounted(t, Step(t, a), past, ok, back);
      case ToProxy(ok) =>
        var back := ProxyAnswers(t, ok);
        FetchingKeepsCounted(t, Step(t, a), past, ok, back);
      case _ => QuietKeepsCounted(t, past, a);
    }
  }

  lemma {:induction false} RunKeepsCounted(t: Tunnel, past: seq<Action>, acts: seq<Action>)
    requires Counted(t, past) && H.Greeted(t) && Valid(t, acts)
    ensures Counted(Run(t, acts), past + acts)
    decreases |acts|
  {
    if acts == [] {
      assert past + acts == past;
    } else {
      assert past + [acts[0]] + acts[1..] == past + acts;
      StepKeepsCounted(t, past, acts[0]);
      H.StepKeepsGreeted(t, acts[0]);
      RunKeepsCounted(Step(t, acts[0]), past + [acts[0]], acts[1..]);
    }
  }

  /**
   * In every run a side has sent one ping for each tick whose send succeeded, and at most one pong for each ping it
   * heard: exactly one if no send failed while it received.
   */
  lemma PingsAreAnswered(acts: seq<Action>, t: Tunnel)
    requires Reached(acts, t)
    ensures Counted(t, acts)
  {
    assert [] + acts == acts;
    H.RunKeepsGreeted(START, []);
    RunKeepsCounted(START, [], acts);
  }

  lemma ServePongs(t: Tunnel, ok: bool)
    requires Enabled(t, ToServe(ok)) && t.serve == Running && t.up.Next() == Ping
    ensures Step(t, ToServe(ok)) == t.(up := t.up.Deliver(), down := if ok then t.down.Send([Pong]) else t.down)
  {
    assert t.down.Send([]) == t.down;
    assert Step(t, ToServe(ok)) == ServeReceives(Taken(t), Ping, ok);
  }

  lemma ProxyPongs(t: Tunnel, ok: bool)
    requires Enabled(t, ToProxy(ok)) && Reading(t) && t.down.Next() == Ping
    ensures Step(t, ToProxy(ok)) == t.(down := t.down.Deliver(), up := if ok then t.up.Send([Pong]) else t.up)
  {
    assert t.up.Send([]) == t.up;
    assert Step(t, ToProxy(ok)) == ProxyReceives(Fetched(t), Ping, ok);
  }

  lemma PingsComeLater(t: Tunnel)
    requires H.Greeted(t)
    ensures t.serve == AwaitingHello && t.up.Waiting() ==> t.up.Next() != Ping
    ensures t.proxy == AwaitingAgree && t.down.Waiting() ==> t.down.Next() != Ping
  {
  }

  /** Taking a ping, a side whose send succeeds puts exactly one pong on the wire, and changes nothing else. */
  lemma PingBegetsPong(acts: seq<Action>, t: Tunnel, ok: bool)
    requires Reached(acts, t)
    ensures Enabled(t, ToServe(ok)) && t.up.Next() == Ping ==>
              Step(t, ToServe(ok)) == t.(up := t.up.Deliver(), down := if ok then t.down.Send([Pong]) else t.down)
    ensures Enabled(t, ToProxy(ok)) && t.down.Next() == Ping ==>
              Step(t, ToProxy(ok)) == t.(down := t.down.Deliver(), up := if ok then t.up.Send([Pong]) else t.up)
  {
    GreetedInRun(acts, t);
    if Enabled(t, ToServe(ok)) && t.up.Next() == Ping {
      ServePongs(t, ok);
    }
    if Enabled(t, ToProxy(ok)) && t.down.Next() == Ping {
      ProxyPongs(t, ok);
    }
  }

  lemma GreetedInRun(acts: seq<Action>, t: Tunnel)
    requires Reached(acts, t)
    ensures t.serve == AwaitingHello && t.up.Waiting() ==> t.up.Next() != Ping
    ensures t.proxy == AwaitingAgree && t.down.Waiting() ==> t.down.Next() != Ping
  {
    H.RunKeepsGreeted(START, acts);
    PingsComeLater(t);
  }
}
