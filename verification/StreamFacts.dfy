/** What the invariant of a single stream means for its client, its tables and its events. */
module StreamFacts {
  import opened Primitives
  import opened Frames
  import opened Proxy
  import opened Serve
  import opened Channel
  import opened Stream

  /** A response frame has been received after which the reader keeps no entry. */
  predicate Closed(j: Job) {
    && j.upstream.Some? && !j.upstream.value.BadMethod?
    && j.sent >= |j.Frames()| - (if Intact(j.upstream.value) then 0 else 1)
  }

  /** Head and bytes handed to the client so far, and at the end. */
  ghost predicate Faithful(h: Handler, u: Upstream) {
    && (u.BadMethod? ==> h.head == None && h.client == [])
    && (!u.BadMethod? ==>
          && (h.head.Some? ==> IsHead(h.head.value, h.id, u))
          && (h.stage == Forwarding ==> h.head.Some?)
          && h.client <= ResponseBody(u)
          && (h.stage == Finished(EndTaken) ==> h.head.Some? && Intact(u) && h.client == ResponseBody(u))
          && (h.stage == Finished(ErrorTaken) ==> h.head.Some? && !Intact(u) && h.client == ResponseBody(u))
          && (h.stage == Finished(ErrorTaken) ==> TookBreak(h, u)))
  }

  /** The last event taken told of the break in upstream's body. */
  ghost predicate TookBreak(h: Handler, u: Upstream) {
    0 < h.taken <= |h.events| && h.events[h.taken - 1].Failed? && TellsBreak(h.events[h.taken - 1].text, u)
  }

  lemma {:induction false} EventBytesPrefix(events: seq<StreamEvent>, n: nat)
    requires n <= |events|
    ensures EventBytes(events[..n]) <= EventBytes(events)
  {
    if n == |events| {
      assert events[..n] == events;
    } else {
      var front := events[..|events| - 1];
      EventBytesPrefix(front, n);
      assert front[..n] == events[..n];
    }
  }

  /** What the reader tells a stream about a response: its head, a prefix of its body, and how it ended. */
  ghost predicate Story(told: seq<StreamEvent>, id: u32, u: Upstream)
    requires !u.BadMethod?
  {
    && Grammatical(told)
    && EventBytes(told) <= ResponseBody(u)
    && (told != [] ==> told[0].Headers? && IsHead(told[0].response, id, u))
    && (Terminated(told) ==> EventBytes(told) == ResponseBody(u) && (told[|told| - 1].End? <==> Intact(u)))
    && (Terminated(told) && !Intact(u) ==> told[|told| - 1].Failed? && TellsBreak(told[|told| - 1].text, u))
  }

  lemma BytesOfStory(id: u32, u: Upstream, d: nat)
    requires !u.BadMethod? && d <= |Plan(id, u)|
    ensures EventBytes(Events(Plan(id, u)[..d])) <= ResponseBody(u)
    ensures d >= |Plan(id, u)| - 1 ==> EventBytes(Events(Plan(id, u)[..d])) == ResponseBody(u)
  {
    var plan := Plan(id, u);
    PlanIsShaped(id, u);
    PlanCarriesBody(id, u);
    ShapeIsLaid(id, plan, Intact(u));
    EventBytesOfPlan(plan, Intact(u), d);
    BodyBytesPrefix(plan, d);
    if d >= |plan| - 1 {
      RestCarriesNothing(id, plan, Intact(u), d);
    }
  }

  /** The reader's story about a response of which `d` frames have arrived. */
  lemma StoryOfJob(id: u32, u: Upstream, d: nat)
    requires !u.BadMethod? && d <= |Plan(id, u)|
    ensures Story(Events(Plan(id, u)[..d]), id, u)
    ensures Terminated(Events(Plan(id, u)[..d])) <==> d >= |Plan(id, u)| - (if Intact(u) then 0 else 1)
  {
    PlanIsShaped(id, u);
    ShapeIsLaid(id, Plan(id, u), Intact(u));
    PrefixIsGrammatical(Plan(id, u), Intact(u), d);
    BytesOfStory(id, u, d);
  }

  /** After the terminal frame nothing of the body is left. */
  lemma RestCarriesNothing(id: u32, plan: seq<Frame>, intact: bool, d: nat)
    requires PlanShape(id, plan, intact) && |plan| - 1 <= d <= |plan|
    ensures BodyBytes(plan[..d]) == BodyBytes(plan)
  {
    if d == |plan| {
      assert plan[..d] == plan;
    } else {
      assert plan == plan[..d] + [plan[d]];
      BodyBytesAppend(plan[..d], plan[d]);
    }
  }

  /** Upstream has given an answer there is a response for. */
  predicate Responding(jobs: seq<Job>) {
    jobs != [] && jobs[0].upstream.Some? && !jobs[0].upstream.value.BadMethod?
  }

  lemma ReceivedOfPlan(jobs: seq<Job>, down: Link)
    requires DownInv(jobs, down)
    ensures !Responding(jobs) ==> down.Received() == []
    ensures Responding(jobs) ==>
              var plan := Plan(jobs[0].Id(), jobs[0].upstream.value);
              down.delivered <= |plan| && down.Received() == plan[..down.delivered]
  {
  }

  lemma StoryOfStream(jobs: seq<Job>, down: Link)
    requires DownInv(jobs, down)
    ensures !Responding(jobs) ==> Events(down.Received()) == []
    ensures Responding(jobs) ==> Story(Events(down.Received()), jobs[0].Id(), jobs[0].upstream.value)
    ensures Responding(jobs) ==>
              (Terminated(Events(down.Received())) <==>
               down.delivered >= |jobs[0].Frames()| - (if Intact(jobs[0].upstream.value) then 0 else 1))
  {
    ReceivedOfPlan(jobs, down);
    if Responding(jobs) {
      StoryOfJob(jobs[0].Id(), jobs[0].upstream.value, down.delivered);
    }
  }

  /** Prefixes of the same story. */
  lemma TakenBytes(h: Handler, told: seq<StreamEvent>)
    requires h.taken <= |h.events| && h.events <= told
    ensures EventBytes(h.events[..h.taken]) <= EventBytes(told)
    ensures h.taken > 0 && Grammatical(told) && h.events[h.taken - 1].Terminal() ==>
              Terminated(told) && told[|told| - 1] == h.events[h.taken - 1] && h.events[..h.taken] == told
  {
    EventBytesPrefix(told, h.taken);
    assert h.events[..h.taken] == told[..h.taken];
    if h.taken > 0 && Grammatical(told) && h.events[h.taken - 1].Terminal() {
      assert told[h.taken - 1].Terminal();
      assert told[..h.taken] == told;
    }
  }

  lemma TakenIsFaithful(h: Handler, told: seq<StreamEvent>, u: Upstream)
    requires Consumed(h) && TakenInv(h.stage, h.events, h.taken) && h.events <= told
    requires !u.BadMethod? && Story(told, h.id, u)
    ensures Faithful(h, u)
  {
    TakenBytes(h, told);
  }

  lemma NothingTaken(h: Handler, told: seq<StreamEvent>)
    requires Consumed(h) && h.events <= told && told == []
    ensures h.head == None && h.client == [] && h.taken == 0
  {
  }

  lemma JobIsOurs(h: Handler, up: Link, partials: map<u32, Request>, jobs: seq<Job>)
    requires up.Valid() && h.offset <= |h.Body()| && ServeInv(h, up, partials, jobs)
    ensures |jobs| <= 1 && (jobs != [] ==> jobs[0].Id() == h.id)
  {
  }

  lemma ResponseIsFaithful(s: Stream)
    requires Inv(s) && s.handler.Some?
    ensures |s.jobs| <= 1
    ensures var h := s.handler.value;
            if Responding(s.jobs) then Faithful(h, s.jobs[0].upstream.value)
            else h.head == None && h.client == [] && h.taken == 0
  {
    var h, told := s.handler.value, Events(s.down.Received());
    JobIsOurs(h, s.up, s.partials, s.jobs);
    StoryOfStream(s.jobs, s.down);
    if Responding(s.jobs) {
      TakenIsFaithful(h, told, s.jobs[0].upstream.value);
    } else {
      NothingTaken(h, told);
    }
  }

  lemma RequestIsFaithful(s: Stream)
    requires Inv(s) && s.handler.Some? && s.jobs != []
    ensures var h, r := s.handler.value, s.jobs[0].request;
            && |s.jobs| == 1
            && r.headers == h.Request()
            && h.http.body.Some?
            && r.body == h.Body()[..h.offset]
            && (h.offset == |h.Body()| || h.offset % P.MAX_BODY_CHUNK == 0)
            && (r.body == h.Body() <==> !h.bodyCut)
  {
    var h := s.handler.value;
    assert h.offset == |h.Body()| ==> h.Body()[..h.offset] == h.Body();
  }

  /** The next event the handler or forwarder receives is the one it expects, and its channel is not closed under it. */
  lemma NextEventIsExpected(s: Stream)
    requires Inv(s) && s.handler.Some?
    ensures var h := s.handler.value;
            && Grammatical(h.events)
            && (h.stage == Awaiting || h.stage == Forwarding ==>
                  && (h.taken == |h.events| ==> Alive(s))
                  && (h.taken < |h.events| ==> (h.events[h.taken].Headers? <==> h.stage == Awaiting)))
            && h.stage !in {Removing(TunnelError), Finished(TunnelError), Finished(SenderDropped)}
  {
    var h := s.handler.value;
    ToldIsGrammatical(s.jobs, s.down);
    assert Grammatical(h.events);
    if h.stage == Awaiting || h.stage == Forwarding {
      NextEvent(h, Alive(s));
    }
  }

  /** The table entry, in terms of what the job has sent and the reader received. */
  lemma EntryIsExact(s: Stream)
    requires Inv(s) && s.handler.Some? && !s.down.Waiting()
    ensures var h := s.handler.value;
            Alive(s) <==> h.enrolled && !h.Withdrawn() && !(s.jobs != [] && Closed(s.jobs[0]))
  {
    var h := s.handler.value;
    StoryOfStream(s.jobs, s.down);
    EntryFollows(h, s.key, s.pending, s.down);
    if s.jobs != [] {
      DrainedDown(s.jobs, s.down);
    }
  }

  lemma EntryFollows(h: Handler, key: nat, pending: map<u32, nat>, down: Link)
    requires down.Valid() && EventsInv(h, key, pending, down)
    ensures h.id in pending && pending[h.id] == key <==>
            h.enrolled && !h.Withdrawn() && !Terminated(Events(down.Received()))
  {
  }

  lemma DrainedDown(jobs: seq<Job>, down: Link)
    requires DownInv(jobs, down) && !down.Waiting() && jobs != []
    ensures Responding(jobs) ==> down.delivered == jobs[0].sent
  {
  }

  lemma PartialIsExact(s: Stream)
    requires Inv(s) && s.handler.Some? && !s.up.Waiting()
    ensures Id(s.key) in s.partials <==> s.handler.value.headersSent && !s.handler.value.endSent
  {
  }

  /** The last thing told is a failure. */
  predicate EndsInFailure(told: seq<StreamEvent>) {
    told != [] && told[|told| - 1].Failed?
  }

  /** While part of a response is still to arrive, someone listens, gave up, or was told of the failure. */
  lemma NoOrphan(s: Stream)
    requires Inv(s) && s.handler.Some?
    requires s.down.Waiting() || (s.jobs != [] && !s.jobs[0].Over())
    ensures s.down.Valid()
    ensures var told := Events(s.down.Received());
            Alive(s) || s.handler.value.Withdrawn() || EndsInFailure(told)
  {
    UnfinishedStory(s.jobs, s.down);
    EntryFollows(s.handler.value, s.key, s.pending, s.down);
    EnrolledIfAsked(s.handler.value, s.up, s.partials, s.jobs, s.down);
  }

  /** A response is due only to a handler that has entered the table. */
  lemma EnrolledIfAsked(h: Handler, up: Link, partials: map<u32, Request>, jobs: seq<Job>, down: Link)
    requires HandlerInv(h) && UpInv(h, up) && ServeInv(h, up, partials, jobs) && DownInv(jobs, down)
    requires down.Waiting() || jobs != []
    ensures h.enrolled
  {
  }

  lemma UnfinishedStory(jobs: seq<Job>, down: Link)
    requires DownInv(jobs, down) && (down.Waiting() || (jobs != [] && !jobs[0].Over()))
    ensures Terminated(Events(down.Received())) ==> EndsInFailure(Events(down.Received()))
  {
    StoryOfStream(jobs, down);
  }

  /** Before it registers, a handler has no entry. */
  lemma UnregisteredHasNoEntry(s: Stream)
    requires Inv(s) && s.handler.Some? && s.handler.value.stage == Registering
    ensures s.pending == map[]
  {
  }
}
