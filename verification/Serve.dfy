/** The provider side: request reassembly and the response a handler emits. */
module Serve {
  import opened Primitives
  import opened Frames
  import opened Chunking
  import opened Proxy

  // --- Request reassembly ---

  datatype Request = Request(headers: RequestHeaders, body: seq<byte>)

  datatype Reassembled = Reassembled(partials: map<u32, Request>, dispatched: Option<Request>)

  /** One turn of the serve loop, as far as `pending_requests` is concerned. */
  function Reassemble(partials: map<u32, Request>, f: Frame): Reassembled {
    match f
    case ReqHeaders(_, headers) => Reassembled(partials[headers.streamId := Request(headers, [])], None)
    case ReqBody(id, data) =>
      if id in partials
      then Reassembled(partials[id := partials[id].(body := partials[id].body + data)], None)
      else Reassembled(partials, None)
    case ReqEnd(id) =>
      if id in partials then Reassembled(partials - {id}, Some(partials[id])) else Reassembled(partials, None)
    case _ => Reassembled(partials, None)
  }

  // --- Upstream and response ---

  datatype Item = Chunk(data: seq<byte>) | Broken(error: seq<byte>)

  datatype Upstream =
    | BadMethod                  // the method does not parse
    | Unreachable(error: seq<byte>)
    | Responded(status: nat, headers: map<string, string>, items: seq<Item>)

  // "Bad Gateway: "
  const BAD_GATEWAY: seq<byte> := [66, 97, 100, 32, 71, 97, 116, 101, 119, 97, 121, 58, 32]
  // "upstream error: "
  const UPSTREAM_ERROR: seq<byte> := [117, 112, 115, 116, 114, 101, 97, 109, 32, 101, 114, 114, 111, 114, 58, 32]

  /** The body the client should see. */
  function ResponseBody(u: Upstream): seq<byte> {
    match u
    case BadMethod => []
    case Unreachable(error) => BAD_GATEWAY + error
    case Responded(_, _, items) => ItemBytes(items)
  }

  function ItemBytes(items: seq<Item>): seq<byte> {
    if items == [] || items[0].Broken? then [] else items[0].data + ItemBytes(items[1..])
  }

  predicate AllChunks(items: seq<Item>) {
    forall i :: 0 <= i < |items| ==> items[i].Chunk?
  }

  /** The upstream answered, and its body did not break off. */
  predicate Intact(u: Upstream) {
    u.Unreachable? || (u.Responded? && AllChunks(u.items))
  }

  function ItemFrames(id: u32, items: seq<Item>): seq<Frame> {
    if items == [] then []
    else
      match items[0]
      case Chunk(data) => ResBodies(id, Chunks(data)) + ItemFrames(id, items[1..])
      case Broken(error) => [Error(id, UPSTREAM_ERROR + error)]
  }

  const PLAIN_TEXT: map<string, string> := map["content-type" := "text/plain"]

  function ResponseHead(id: u32, u: Upstream): ResponseHeaders
    requires !u.BadMethod?
  {
    match u
    case Unreachable(_) => ResponseHeaders(id, 502, PLAIN_TEXT)
    case Responded(status, headers, _) => ResponseHeaders(id, status, headers)
  }

  /** `r` is the head the client should see: upstream's own, or a plain-text 502. */
  ghost predicate IsHead(r: ResponseHeaders, id: u32, u: Upstream) {
    && r.streamId == id
    && match u
       case BadMethod => false
       case Unreachable(_) => r.status == 502 && r.headers == map["content-type" := "text/plain"]
       case Responded(status, headers, _) => r.status == status && r.headers == headers
  }

  /** `text` tells of the first break in upstream's body. */
  ghost predicate TellsBreak(text: seq<byte>, u: Upstream) {
    u.Responded? && exists k: nat :: BreaksAt(u.items, k) && text == UPSTREAM_ERROR + u.items[k].error
  }

  predicate BreaksAt(items: seq<Item>, k: nat) {
    k < |items| && items[k].Broken? && AllChunks(items[..k])
  }

  /** The frames between headers and end. */
  function BodyPlan(id: u32, u: Upstream): seq<Frame> {
    match u
    case BadMethod => []
    case Unreachable(error) => [ResBody(id, BAD_GATEWAY + error)]
    case Responded(_, _, items) => ItemFrames(id, items)
  }

  /** Everything `handle_request` sends when no send fails. */
  function Plan(id: u32, u: Upstream): seq<Frame> {
    if u.BadMethod? then []
    else [ResHeadersFrame(ResponseHead(id, u))] + BodyPlan(id, u) + [ResEnd(id)]
  }

  /** A spawned `handle_request`. */
  datatype Job = Job(request: Request, upstream: Option<Upstream>, sent: nat, failed: bool) {
    function Id(): u32 {
      request.headers.streamId
    }

    function Frames(): seq<Frame> {
      if upstream.Some? then Plan(Id(), upstream.value) else []
    }

    /** Ran to its end: the response, if any, is sent in full. */
    predicate Completed() {
      upstream.Some? && !upstream.value.BadMethod? && !failed && sent == |Frames()|
    }

    /** Nothing is left for it to do. */
    predicate Over() {
      upstream.Some? && (failed || sent >= |Frames()|)
    }
  }

  function NewJob(request: Request): Job {
    Job(request, None, 0, false)
  }

  datatype JobAct = Answered(u: Upstream) | SendNext(ok: bool)

  predicate JobEnabled(j: Job, act: JobAct) {
    match act
    case Answered(_) => j.upstream.None?
    case SendNext(_) => j.upstream.Some? && !j.failed && j.sent < |j.Frames()|
  }

  datatype Worked = Worked(job: Job, emitted: seq<Frame>)

  function JobStep(j: Job, act: JobAct): Worked
    requires JobEnabled(j, act)
  {
    match act
    case Answered(u) => Worked(j.(upstream := Some(u)), [])
    case SendNext(ok) =>
      if ok then Worked(j.(sent := j.sent + 1), [j.Frames()[j.sent]]) else Worked(j.(failed := true), [])
  }

  // --- Facts about the plan ---

  /** Body frames of one stream, with an error frame at the very end when the body broke off. */
  ghost predicate BodyShape(id: u32, fs: seq<Frame>, intact: bool) {
    && (forall i :: 0 <= i < |fs| ==> fs[i].ResBody? || (fs[i].Error? && i == |fs| - 1 && !intact))
    && (forall i :: 0 <= i < |fs| ==> fs[i].streamId == id)
    && (!intact ==> fs != [] && fs[|fs| - 1].Error?)
  }

  lemma {:induction false} ItemFramesShape(id: u32, items: seq<Item>)
    ensures BodyShape(id, ItemFrames(id, items), AllChunks(items))
  {
    if items != [] && items[0].Chunk? {
      ItemFramesShape(id, items[1..]);
      AllChunksRest(items);
      ShapePrepends(id, ResBodies(id, Chunks(items[0].data)), ItemFrames(id, items[1..]), AllChunks(items));
    }
  }

  lemma AllChunksRest(items: seq<Item>)
    requires items != [] && items[0].Chunk?
    ensures AllChunks(items) <==> AllChunks(items[1..])
  {
    assert items == [items[0]] + items[1..];
  }

  lemma ShapePrepends(id: u32, first: seq<Frame>, rest: seq<Frame>, intact: bool)
    requires BodyShape(id, rest, intact) && BodyShape(id, first, true)
    ensures BodyShape(id, first + rest, intact)
  {
  }

  lemma {:induction false} ItemFramesBytes(id: u32, items: seq<Item>)
    ensures BodyBytes(ItemFrames(id, items)) == ItemBytes(items)
  {
    if items != [] {
      if items[0].Chunk? {
        ItemFramesBytes(id, items[1..]);
        ChunksCover(items[0].data);
        ResBodiesBytes(id, Chunks(items[0].data));
        BodyBytesConcat(ResBodies(id, Chunks(items[0].data)), ItemFrames(id, items[1..]));
      } else {
        BodyBytesOne(ItemFrames(id, items)[0]);
      }
    }
  }

  /** Upstream's bytes up to a break, or all of them. */
  function Data(items: seq<Item>): (chunks: seq<seq<byte>>)
    requires AllChunks(items)
    ensures |chunks| == |items| && forall i :: 0 <= i < |items| ==> chunks[i] == items[i].data
  {
    seq(|items|, i requires 0 <= i < |items| => items[i].data)
  }

  /** The body is everything that came before the first break, or everything if there was none. */
  lemma {:induction false} BodyIsUpstreams(items: seq<Item>, k: nat)
    requires BreaksAt(items, k) || (k == |items| && AllChunks(items))
    ensures AllChunks(items[..k]) && ItemBytes(items) == Flatten(Data(items[..k]))
  {
    if k == |items| {
      assert items[..k] == items;
    }
    if k > 0 {
      var rest := items[1..];
      assert rest[..k - 1] == items[..k][1..];
      if k < |items| {
        assert BreaksAt(rest, k - 1);
      }
      BodyIsUpstreams(rest, k - 1);
      assert Data(items[..k])[1..] == Data(rest[..k - 1]);
      assert Data(items[..k])[0] == items[0].data;
    }
  }

  /** `body` is the body the client should see: the 502 text, or upstream's bytes up to the first break. */
  ghost predicate IsBody(body: seq<byte>, u: Upstream) {
    match u
    case BadMethod => false
    case Unreachable(error) => body == BAD_GATEWAY + error
    case Responded(_, _, items) =>
      exists k: nat :: (BreaksAt(items, k) || k == |items|) && IsData(body, items, k)
  }

  ghost predicate IsData(body: seq<byte>, items: seq<Item>, k: nat) {
    k <= |items| && AllChunks(items[..k]) && body == Flatten(Data(items[..k]))
  }

  lemma {:induction false} FirstBreak(items: seq<Item>) returns (k: nat)
    ensures BreaksAt(items, k) || (k == |items| && AllChunks(items))
  {
    if items == [] || items[0].Broken? {
      k := 0;
    } else {
      k := FirstBreak(items[1..]);
      assert items == [items[0]] + items[1..];
      assert items[..k + 1] == [items[0]] + items[1..][..k];
      k := k + 1;
    }
  }

  lemma BodyIs(u: Upstream)
    requires !u.BadMethod?
    ensures IsBody(ResponseBody(u), u)
  {
    if u.Responded? {
      var k := FirstBreak(u.items);
      BodyIsUpstreams(u.items, k);
      assert IsData(ResponseBody(u), u.items, k);
    }
  }

  /** The error frame tells of the first break. */
  lemma {:induction false} ErrorTellsBreak(id: u32, items: seq<Item>) returns (k: nat)
    requires !AllChunks(items)
    ensures BreaksAt(items, k) && ItemFrames(id, items) != []
    ensures var fs := ItemFrames(id, items); fs[|fs| - 1] == Error(id, UPSTREAM_ERROR + items[k].error)
  {
    if items[0].Broken? {
      k := 0;
    } else {
      AllChunksRest(items);
      k := ErrorTellsBreak(id, items[1..]);
      BreaksLater(items, k);
      FramesEndAlike(id, items);
      k := k + 1;
    }
  }

  lemma BreaksLater(items: seq<Item>, k: nat)
    requires items != [] && items[0].Chunk? && BreaksAt(items[1..], k)
    ensures BreaksAt(items, k + 1) && items[k + 1] == items[1..][k]
  {
    assert items[..k + 1] == [items[0]] + items[1..][..k];
  }

  lemma FramesEndAlike(id: u32, items: seq<Item>)
    requires items != [] && items[0].Chunk? && ItemFrames(id, items[1..]) != []
    ensures var fs, rest := ItemFrames(id, items), ItemFrames(id, items[1..]);
            fs != [] && fs[|fs| - 1] == rest[|rest| - 1]
  {
    EndOfConcat(ResBodies(id, Chunks(items[0].data)), ItemFrames(id, items[1..]));
  }

  lemma EndOfConcat<T>(a: seq<T>, b: seq<T>)
    requires b != []
    ensures (a + b)[|a + b| - 1] == b[|b| - 1]
  {
  }

  /** Whatever upstream's chunks are, empty ones included, every body frame made of them is neither empty nor too
      long. */
  lemma {:induction false} ItemFramesAreSmall(id: u32, items: seq<Item>)
    ensures forall f :: f in ItemFrames(id, items) ==> Small(f)
  {
    if items != [] && items[0].Chunk? {
      ItemFramesAreSmall(id, items[1..]);
      var bodies := ResBodies(id, Chunks(items[0].data));
      forall f | f in bodies ensures Small(f) {
        var i :| 0 <= i < |bodies| && bodies[i] == f;
        ChunksAreSmall(id, items[0].data, i);
      }
    }
  }

  lemma PlanIsSmall(id: u32, u: Upstream)
    requires u.Responded?
    ensures forall f :: f in Plan(id, u) ==> Small(f)
  {
    ItemFramesAreSmall(id, u.items);
  }

  /** Headers, then body frames, then at most one error frame, then the end. */
  ghost predicate PlanShape(id: u32, fs: seq<Frame>, intact: bool) {
    && |fs| >= 2
    && fs[0].ResHeaders? && fs[0].BelongsTo(id) && fs[0].KeysAgree()
    && BodyShape(id, fs[1..|fs| - 1], intact)
    && fs[|fs| - 1] == ResEnd(id)
  }

  lemma PlanIsShaped(id: u32, u: Upstream)
    requires !u.BadMethod?
    ensures PlanShape(id, Plan(id, u), Intact(u))
    ensures IsHead(Plan(id, u)[0].response, id, u)
    ensures !Intact(u) ==> var e := Plan(id, u)[|Plan(id, u)| - 2]; e.Error? && TellsBreak(e.text, u)
  {
    var plan, body := Plan(id, u), BodyPlan(id, u);
    if u.Responded? {
      ItemFramesShape(id, u.items);
      if !Intact(u) {
        var k := ErrorTellsBreak(id, u.items);
        assert plan[|plan| - 2] == body[|body| - 1];
      }
    }
    assert BodyShape(id, body, Intact(u));
    assert plan[1..|plan| - 1] == body;
  }

  lemma PlanCarriesBody(id: u32, u: Upstream)
    ensures BodyBytes(Plan(id, u)) == ResponseBody(u)
  {
    if !u.BadMethod? {
      BodyPlanCarriesBody(id, u);
      BodyBytesFramed(ResHeadersFrame(ResponseHead(id, u)), BodyPlan(id, u), [ResEnd(id)]);
    }
  }

  lemma BodyPlanCarriesBody(id: u32, u: Upstream)
    ensures BodyBytes(BodyPlan(id, u)) == ResponseBody(u)
  {
    match u {
      case BadMethod =>
      case Unreachable(error) => BodyBytesOne(ResBody(id, BAD_GATEWAY + error));
      case Responded(_, _, items) => ItemFramesBytes(id, items);
    }
  }

  /** How many frames of a response a registered stream hears: an error frame silences the end frame after it. */
  function Heard(fs: seq<Frame>, intact: bool, d: nat): int {
    if intact then d else Min(d, |fs| - 1)
  }

  lemma ShapeAt(id: u32, fs: seq<Frame>, intact: bool, i: nat)
    requires PlanShape(id, fs, intact) && i < |fs|
    ensures fs[i].IsResponse() && fs[i].BelongsTo(id) && fs[i].KeysAgree()
    ensures fs[i].ResHeaders? <==> i == 0
    ensures fs[i].ResEnd? <==> i == |fs| - 1
    ensures fs[i].Error? <==> !intact && i == |fs| - 2
  {
    var body := fs[1..|fs| - 1];
    if 0 < i < |fs| - 1 {
      assert fs[i] == body[i - 1];
    }
    if !intact {
      assert body[|body| - 1] == fs[|fs| - 2];
    }
  }

  /** The same shape, position by position. */
  ghost predicate Laid(fs: seq<Frame>, intact: bool) {
    && |fs| >= 2
    && (forall i :: 0 <= i < |fs| ==> fs[i].IsResponse())
    && (forall i :: 0 <= i < |fs| ==> (fs[i].ResHeaders? <==> i == 0))
    && (forall i :: 0 <= i < |fs| ==> (fs[i].ResEnd? <==> i == |fs| - 1))
    && (forall i :: 0 <= i < |fs| ==> (fs[i].Error? <==> !intact && i == |fs| - 2))
  }

  lemma ShapeIsLaid(id: u32, fs: seq<Frame>, intact: bool)
    requires PlanShape(id, fs, intact)
    ensures Laid(fs, intact)
  {
    forall i: nat | i < |fs|
      ensures fs[i].IsResponse() && (fs[i].ResHeaders? <==> i == 0)
      ensures fs[i].ResEnd? <==> i == |fs| - 1
      ensures fs[i].Error? <==> !intact && i == |fs| - 2
    {
      ShapeAt(id, fs, intact, i);
    }
  }

  /** `told` is what a registered stream heard of the first `d` frames. */
  ghost predicate Tells(fs: seq<Frame>, intact: bool, d: nat, told: seq<StreamEvent>)
    requires Laid(fs, intact) && d <= |fs|
  {
    |told| == Heard(fs, intact, d) && forall i :: 0 <= i < |told| ==> told[i] == EventOf(fs[i])
  }

  lemma ToldTerminates(fs: seq<Frame>, intact: bool, d: nat, told: seq<StreamEvent>)
    requires Laid(fs, intact) && d <= |fs| && Tells(fs, intact, d, told)
    ensures Terminated(told) <==> d >= |fs| - (if intact then 0 else 1)
    ensures Terminated(told) ==> told[|told| - 1] == if intact then End else Failed(fs[|fs| - 2].text)
  {
  }

  lemma ToldGrows(fs: seq<Frame>, intact: bool, d: nat, told: seq<StreamEvent>)
    requires Laid(fs, intact) && d < |fs| && Tells(fs, intact, d, told)
    ensures Tells(fs, intact, d + 1, if Terminated(told) then told else told + [EventOf(fs[d])])
    ensures Terminated(told) ==> fs[d].ResEnd?
  {
    ToldTerminates(fs, intact, d, told);
  }

  lemma EventsNext(fs: seq<Frame>, d: nat)
    requires d < |fs| && fs[d].IsResponse()
    ensures var told := Events(fs[..d]);
            Events(fs[..d + 1]) == if Terminated(told) then told else told + [EventOf(fs[d])]
  {
    assert fs[..d + 1] == fs[..d] + [fs[d]];
    EventsAppend(fs[..d], fs[d]);
  }

  lemma {:induction false} EventsOfPlan(fs: seq<Frame>, intact: bool, d: nat)
    requires Laid(fs, intact) && d <= |fs|
    ensures Tells(fs, intact, d, Events(fs[..d]))
  {
    if d > 0 {
      EventsOfPlan(fs, intact, d - 1);
      EventsNext(fs, d - 1);
      ToldGrows(fs, intact, d - 1, Events(fs[..d - 1]));
    }
  }

  lemma {:induction false} EventBytesOfPlan(fs: seq<Frame>, intact: bool, d: nat)
    requires Laid(fs, intact) && d <= |fs|
    ensures EventBytes(Events(fs[..d])) == BodyBytes(fs[..d])
  {
    if d > 0 {
      EventBytesOfPlan(fs, intact, d - 1);
      EventsOfPlan(fs, intact, d - 1);
      ToldGrows(fs, intact, d - 1, Events(fs[..d - 1]));
      EventBytesNext(fs, d - 1);
    }
  }

  lemma EventBytesNext(fs: seq<Frame>, d: nat)
    requires d < |fs| && fs[d].IsResponse() && EventBytes(Events(fs[..d])) == BodyBytes(fs[..d])
    requires Terminated(Events(fs[..d])) ==> fs[d].ResEnd?
    ensures EventBytes(Events(fs[..d + 1])) == BodyBytes(fs[..d + 1])
  {
    EventsNext(fs, d);
    BodyBytesNext(fs, d);
    EventBytesAppend(Events(fs[..d]), EventOf(fs[d]));
  }

  /** Any prefix of a shaped response tells the client a grammatical story, closed by `End` only if the upstream
      was intact. */
  lemma PrefixIsGrammatical(fs: seq<Frame>, intact: bool, d: nat)
    requires Laid(fs, intact) && d <= |fs|
    ensures var told := Events(fs[..d]);
            && Grammatical(told)
            && (told != [] ==> told[0] == Headers(fs[0].response))
            && (Terminated(told) <==> d >= |fs| - (if intact then 0 else 1))
            && (Terminated(told) ==> told[|told| - 1] == if intact then End else Failed(fs[|fs| - 2].text))
  {
    EventsOfPlan(fs, intact, d);
    ToldTerminates(fs, intact, d, Events(fs[..d]));
  }
}
