# P2P HTTP tunnel: a verified model

The tunnel carries many concurrent HTTP exchanges over one WebRTC data channel. The *proxy* accepts HTTP clients, gives
each request an id from a wrapping 32-bit counter and sends it as frames; *serve* puts the frames of each stream
together again, calls the upstream service and streams the response back; the proxy's reader deals the response frames
out to per-stream event queues. A small *signal server* introduces the two sides to each other, and `connect` decides
from its messages who offers and who answers.

This project models that system and proves what it keeps, for every input, every interleaving and every failure point:
any send may fail, a timeout may fire, a client may leave, a handler may be cancelled and upstream may break off at any
moment.

## How it is built

- `Protocol`, `Frames`, `Chunking`: the frame codec on bytes, the typed frames above it, the cutting of bodies.
- `Proxy`, `Serve`, `Channel`: what one handler, the reader, the forwarder, the reassembly loop and one response job do
  in one step; a direction of the data channel is everything ever sent plus how much of it was delivered.
- `Stream`, `StreamFacts`: the tunnel with a single request in it, its inductive invariant and what that means for the
  client, the tables and the events.
- `Tunnel`, `Handshake`, `Projection`: the multiplexed tunnel with both handshakes, keepalives and disconnects, and the
  refinement theorem: seen through one stream id, every run is a run of the single-stream tunnel.
- `History`, `Keepalive`: what the actions of a run explain about the state it reaches: each handler's program order,
  its frames, its reply; each job's upstream; each side's phase; pings and pongs, counted.
- `TunnelTheorems`, `FrameSizes`, `Drain`, `Limits`: what follows for every request and every body frame of every run,
  why runs without new requests and ticks end, how each request has ended then, and where the guarantees stop.
- `Tasks`: the loops and tables of `proxy.rs` and `serve.rs` as imperative code, each proved against the functions the
  tunnel's steps use.
- `Signal`, `SignalRuns`, `SignalServer`, `Roles`: the signal server as a specification and as a class that updates its
  maps in place, its invariants over all event sequences, what clients conclude from its messages, and role choice.
- `Candidates`: the two establish loops, as far as ICE candidates are concerned.

A *session* is any run from the start with at most 2^32 accepted requests. `Limits.WrapOverwrites` shows that one more
request breaks the isolation of streams, so the bound is sharp.

## What the proofs found

- A client that goes away between the header frame and the end frame leaves an entry in each table for good
  (`Limits.CancelLeaks`): dropping the handler's future removes nothing from `pending`, without the end frame serve
  keeps the partial request, and no continuation of the session takes either out (`Limits.LeakIsForGood`).
  `TunnelTheorems.LeftoversAreExact` says exactly which requests leave entries behind.
- The two members of a full room do not always choose opposite roles. They do if and only if the elder was told of
  nobody when it joined and heard of the younger before any error (`Roles.RolesAreOpposite`); if the first of two peers
  leaves before a third arrives, both members are answerers (`Roles.BothAnswer`).
- After an error frame and after an end frame the client's body ends the same way, so completeness is stated for the
  event the forwarder took, not for what the client can tell.
- The handler's branches for a body, an end, an error or a closed channel before the headers, and the forwarder's branch
  for a second header event, are dead code within a session (`TunnelTheorems.EventGrammar`).

## Assumptions

- A data channel created with default options is reliable and ordered (DATA_CHANNEL_RELIABLE in section 5.1 of RFC
  8832). A send that reports failure has queued nothing.
- The JSON codec is lossless: parsing what was serialized gives it back (`Frames.Json.Lossless`).
- `randomUUID` returns ids it has not returned before.
- No message arrives on a WebSocket that has left the OPEN state. A socket may leave it some time before its error or
  close event is raised; messages sent to it in between are dropped, as `send` does.

## Model

| member | source | states |
|---|---|---|
| Protocol.FromU8 | tunnel/src/protocol.rs:103-118 | the tag decoder is the inverse of the discriminants: a tag is accepted exactly if some message type carries it, and as that type |
| Protocol.DecodeEncode | tunnel/src/protocol.rs:147-172 | every message survives encoding and decoding, stream ids over the whole u32 range included |
| Protocol.EncodeDecode | tunnel/src/protocol.rs:157-172 | every accepted byte string is the encoding of what was decoded from it; rejected is exactly what is shorter than 5 bytes or carries an unlisted tag |
| Protocol.EncodeMessage | tunnel/src/protocol.rs:148-154 | the buffer filled field by field decodes to the message: the tag, four bytes that weigh 2^24, 2^16, 2^8 and 1 in the stream id, the payload |
| Protocol.DecodeMessage | tunnel/src/protocol.rs:157-172 | the step-by-step decoder accepts and rejects exactly as the codec law says |
| Protocol.Negotiation | tunnel/src/protocol.rs:44-80 | for every HELLO: agreement exactly if it names the protocol and the version ranges meet, on the greatest shared version, with each supported feature as often as the peer listed it and no other |
| Protocol.KeepsOrder | tunnel/src/protocol.rs:66-74 | the agreed features are in the peer's order |
| Frames.WireIsTransparent | tunnel/src/protocol.rs:176-262 | each constructor's frame is recovered from its bytes, so a channel of bytes carries typed frames unchanged |
| Serve.BodyIsUpstreams | tunnel/src/serve.rs:263-287 | the body is the concatenation of upstream's chunks before the first break, or of all of them |
| Serve.ErrorTellsBreak | tunnel/src/serve.rs:278-286 | a body that breaks off is closed by an error frame with the text of the first break |
| Chunking.ChunksCover | tunnel/src/proxy.rs:319-330 | chunks are non-empty, at most MAX_BODY_CHUNK long, all but the last full, ceil(n / MAX_BODY_CHUNK) many, and concatenate to the input |
| Chunking.ChunksStep | tunnel/src/proxy.rs:320-329 | one turn of the send loop adds exactly the next chunk, so a loop stopped by a failed send has sent the chunks of a prefix of full chunks |
| Chunking.BodyFramesCarry | tunnel/src/proxy.rs:318-331 | the body frames of any buffer, in either direction, carry exactly that buffer |
| Serve.ItemFramesAreSmall | tunnel/src/serve.rs:263-276 | for every sequence of upstream chunks, empty ones included, each body frame made of them is non-empty and at most MAX_BODY_CHUNK long |
| FrameSizes.RequestBodiesFit | tunnel/src/proxy.rs:318-331 | in every run of any number of requests, each request body frame ever sent carries something and fits MAX_FRAME_SIZE once encoded |
| FrameSizes.ResponseBodiesFit | tunnel/src/protocol.rs:9-12 | in every run, each response body frame ever sent was sent by a job, and fits MAX_FRAME_SIZE unless that job could not reach its upstream |
| Serve.PlanIsShaped | tunnel/src/serve.rs:217-290 | a response is ResHeaders ResBody* Error? ResEnd, every frame under the request's id; its head has upstream's own status and headers, or is a plain-text 502; Error stands just before the end exactly if the body broke off, and tells of the first break |
| Serve.PlanCarriesBody | tunnel/src/serve.rs:217-290 | the body frames of a response carry upstream's bytes up to the first break, or the 502 text, whatever upstream's chunks are |
| Serve.PrefixIsGrammatical | tunnel/src/proxy.rs:139-153 | however much of a response arrived, the events queued are a prefix of Headers Body* (Error or End); they are closed exactly once a terminal frame arrived, and by End only for an intact upstream |
| Stream.RunKeepsInv | tunnel/src/proxy.rs:265-419 | in every run of one stream: what was sent up is the request as far as the handler came, what serve holds is a function of what it received, what was sent down is the one response as far as the job came, the table entry and the queue follow from what the reader received, and what the client got is what was taken |
| Stream.HandlerStepSends | tunnel/src/proxy.rs:298-336 | no handler step sends a request frame out of order: headers first, then exactly the next body slice, then at most one end frame |
| Stream.HandlerStepEnrols | tunnel/src/proxy.rs:291-376 | the table entry is made once, before the first send, and unmade by the handler only when it gives up |
| StreamFacts.StoryOfJob | tunnel/src/proxy.rs:118-153 | what the reader tells a stream about a response cut at any frame: upstream's status and headers, or the 502; a prefix of its body, all of it once closed, closed by End exactly if upstream was intact |
| StreamFacts.RequestIsFaithful | tunnel/src/serve.rs:112-138 | what is dispatched has the handler's headers and the body it sent, whole exactly if no body send failed |
| StreamFacts.EntryIsExact | tunnel/src/proxy.rs:139-152 | with nothing in flight down, the stream has a table entry exactly if it enrolled, did not withdraw and no terminal frame was sent |
| StreamFacts.PartialIsExact | tunnel/src/serve.rs:125-138 | with nothing in flight up, serve keeps a partial request exactly if its header frame was sent and its end frame was not |
| Tunnel.RunKeepsRouted | tunnel/src/proxy.rs:265-296 | in every run, wrapped counter or not: ids are allocated in order, each table entry belongs to a request of that id, partial requests are filed under their own id, and header frames name one stream in both places |
| Handshake.HandshakeOrder | tunnel/src/serve.rs:35-62 | in every interleaving serve's first frame is the HELLO of "httptunnel", version 1 to 1, with "sse", and the proxy's is AGREE on version 1 with "sse"; no ping or request overtakes them and neither side rejects the other |
| Handshake.ToProxyKeepsGreeted | tunnel/src/proxy.rs:64-88 | whatever the proxy receives first makes it start listening |
| Handshake.GreetingIsExact | tunnel/src/serve.rs:35-62 | whatever its first frame is, serve runs exactly if it is a HELLO that names the protocol, shares a version and can be answered, and then sends an AGREE on the greatest version shared; otherwise it ends and sends nothing |
| History.HandlersFollowTheirProgram | tunnel/src/proxy.rs:280-419 | in every run each handler does its acts in program order, and what it has sent, whether it has an entry and where it stands follow from them; one that waits for its response has tried to send the end, a failed body send notwithstanding |
| History.OutcomesHaveCauses | tunnel/src/proxy.rs:280-376 | every reply has its cause in the run: a 400 exactly for an unreadable body, a 502 for a failed header send, a 504 only after a timeout, an abandoned response only after the client was found gone |
| History.FailuresArePossible | tunnel/src/proxy.rs:306-376 | nothing rules a request or a failure out: requests may come while the reader runs, any send may fail, any wait may time out, any handler may be dropped until it has returned its response |
| History.JobsHoldTheirAnswers | tunnel/src/serve.rs:218-243 | in every run a job's upstream is the answer it was given, and it is given one at most |
| History.PhasesHaveCauses | tunnel/src/serve.rs:35-98 | in every run each side is where its own steps put it: which timeout, which failed send or which disconnect ended it, and that it pings until a ping fails |
| Keepalive.PingsAreAnswered | tunnel/src/serve.rs:69-80 | in every run each side has sent one ping for each tick whose send succeeded and at most one pong for each ping it heard, exactly one if none of its sends failed |
| Keepalive.PingBegetsPong | tunnel/src/proxy.rs:156-167 | taking a ping, a side whose send succeeds puts exactly one pong on the wire and changes nothing else |
| Projection.ReassembleRestricts | tunnel/src/serve.rs:111-139 | a frame of stream s changes serve's table as if s were alone in it; a frame of another stream leaves the entry of s as it was |
| Projection.DemuxRestricts | tunnel/src/proxy.rs:118-152 | the same for the reader's table, and an event for another stream goes to another channel |
| Projection.StepProjects | tunnel/src/serve.rs:111-139 | every step of the multiplexed tunnel is, for each stream, either one step of the single-stream tunnel or no step at all |
| Projection.RunProjects | tunnel/src/proxy.rs:118-152 | stream projection is a refinement: every session, projected onto one request, is a run of the single-stream tunnel and satisfies its invariant |
| TunnelTheorems.ResponseFidelity | tunnel/src/proxy.rs:394-419 | in every session: the client is handed upstream's own status and headers, or the plain-text 502, and then a prefix of the one body produced for it: all of it once the forwarder took End, and End is taken only if upstream was intact; an error taken tells of the break |
| TunnelTheorems.NothingFromNowhere | tunnel/src/proxy.rs:118-138 | a client whose request was never dispatched is handed nothing |
| TunnelTheorems.RequestFidelity | tunnel/src/serve.rs:112-138 | a dispatched request is dispatched exactly once, with exactly the method, path and headers its client sent, and the client's body or a prefix of full chunks: whole if and only if no body send failed |
| TunnelTheorems.HandlersHoldWhatWasSent | tunnel/src/proxy.rs:266-289 | the requests in the tunnel are those that were accepted, in order, unchanged by any step |
| TunnelTheorems.EventGrammar | tunnel/src/proxy.rs:342-417 | in every session the events of a stream are a prefix of Headers Body* (Error or End), the next event is the one the handler or forwarder expects, and the branches for a malformed response are never taken |
| TunnelTheorems.NoResponseIsOrphaned | tunnel/src/proxy.rs:291-307 | while a response frame of s is in flight or still to be sent, s is in the table, or its handler gave up, or an error for s was consumed |
| TunnelTheorems.LeftoversAreExact | tunnel/src/proxy.rs:139-152 | with both channels drained, exactly which requests have an entry in serve's table and in the proxy's |
| TunnelTheorems.PartialsAreOfRequests | tunnel/src/serve.rs:112-118 | serve's table holds only ids of accepted requests |
| TunnelTheorems.TablesEmpty | tunnel/src/serve.rs:125-138 | once every request and its response are through and the channels drained, both tables are empty, after timeouts, disconnects and mid-stream errors too |
| TunnelTheorems.RoutingKeysAgree | tunnel/src/protocol.rs:192-222 | every header frame ever sent names the same stream in its payload as in its frame, without a bound on the number of requests |
| TunnelTheorems.IdsWrap | tunnel/src/proxy.rs:265 | the k-th request has id (1 + k) mod 2^32; two share an id exactly if 2^32 divides their distance |
| TunnelTheorems.RegisterIsFresh | tunnel/src/proxy.rs:293-296 | within a session the insert into the table never replaces an entry |
| Drain.HandlerProgresses | tunnel/src/proxy.rs:306-419 | every handler step, failing sends and timeouts included, brings the handler nearer its end by more than it puts on the wire, or reads an event |
| Drain.DrainingLowers | tunnel/src/serve.rs:103-155 | every step but a new request and a timer tick lowers a well-founded measure; in particular a ping begets at most one pong and a pong nothing |
| Drain.DrainingEnds | tunnel/src/proxy.rs:109-170 | no run drains forever |
| Drain.RestIsComplete | tunnel/src/serve.rs:263-290 | where it comes to rest with both sides up, nothing is in flight, every job is over, and every request ended: its client has the whole response, or the response up to upstream's break, or it failed in a way whose cause is in the run; the one exception is a forwarder whose response a failed send cut off |
| Limits.LeakIsForGood | tunnel/src/proxy.rs:293-337 | for every abandoned request and every continuation of the session, the entry in each table is still there |
| Limits.CancelLeaks | tunnel/src/proxy.rs:293-304 | a run after which everything is drained and a cancelled request has an entry in each table, which no continuation of the session takes out |
| Limits.WrapOverwrites | tunnel/src/proxy.rs:265-296 | a run of 2^32 + 1 requests in which the last replaces the live entry of the first |
| Limits.RegisterOverwrites | tunnel/src/proxy.rs:293-296 | in a run of any length, registering replaces an entry if and only if a request at a distance divisible by 2^32 is still alive, and then it is that request's |
| Tasks.DataChannel.Send | tunnel/src/proxy.rs:306-307 | a send queues its frame at the end, or fails and queues nothing |
| Tasks.Streams.Allocate | tunnel/src/proxy.rs:265 | returns the counter and advances it modulo 2^32 |
| Tasks.Streams.Register | tunnel/src/proxy.rs:291-296 | a fresh, empty, open channel is filed under the id, and nothing else changes |
| Tasks.Streams.OnFrame | tunnel/src/proxy.rs:118-170 | the table changes as the demultiplexer says, exactly the addressed channel hears of the frame, all others are untouched, and only a ping is answered |
| Tasks.SendBody | tunnel/src/proxy.rs:318-331 | the loop sends the chunks of a prefix of the body: the whole body unless a send failed, else full chunks only |
| Tasks.SendRequest | tunnel/src/proxy.rs:306-337 | headers, that prefix, and the end frame, which is tried even after a failed body send; nothing follows a failed header send |
| Tasks.Begin | tunnel/src/proxy.rs:265-337 | a handler up to its wait: id, entry, frames sent and reply agree; no entry for an unreadable body, and none left after a failed header send |
| Tasks.AwaitHeaders | tunnel/src/proxy.rs:342-354 | the wait ends at the first event that is not a body chunk, and succeeds exactly if that is the headers |
| Tasks.WaitTakesSteps | tunnel/src/proxy.rs:342-354 | the loop leaves the handler exactly where the tunnel's single steps leave it |
| Tasks.Forwarder | tunnel/src/proxy.rs:394-419 | for a client that may leave at any moment: it is handed exactly the body bytes of the events taken, in order; forwarding stops at the first End or error, or at the first chunk the client is not there for |
| Tasks.ForwarderTakesSteps | tunnel/src/proxy.rs:394-419 | each turn of the forwarder's loop is one step of the tunnel, from the handler as it is to the handler as the loop leaves it, a client that leaves midway included |
| Tasks.ServeLoop.OnFrame | tunnel/src/serve.rs:111-155 | one turn updates the partial requests, dispatches at most the completed one, and answers only a ping |
| Tasks.ServeLoop.Run | tunnel/src/serve.rs:82-157 | over any frames: the table and the dispatched requests are those of the reassembly function, and one pong is sent or fails per ping |
| Tasks.InterleavingIsInvisible | tunnel/src/serve.rs:111-139 | for every interleaving, the table entry and the dispatched requests of a stream are those of its own frames alone |
| Tasks.BodiesGather | tunnel/src/serve.rs:111-124 | whatever the table holds, headers followed by bodies of their stream make up exactly that request, an older one under the same id notwithstanding |
| Tasks.RequestIsDispatched | tunnel/src/serve.rs:125-138 | and the end of the stream dispatches it once and leaves nothing of it |
| Tasks.StrayIsIgnored | tunnel/src/serve.rs:120-126 | bodies and ends of a stream without headers do nothing |
| Tasks.HandleRequest | tunnel/src/serve.rs:203-294 | the first frame sent is the head with upstream's status and headers, or the 502; the response's frames go out in order up to the first failing send, after which nothing follows, no end frame either; it completes exactly if no send failed |
| Tasks.BadGateway | tunnel/src/serve.rs:217-242 | the same for the synthetic 502 |
| Tasks.Respond | tunnel/src/serve.rs:245-294 | the same for upstream's own response |
| Tasks.StreamBody | tunnel/src/serve.rs:263-287 | the nested loops send upstream's body as the plan lays it out, an error frame at a break, stopping at a failed send |
| Tasks.SendChunk | tunnel/src/serve.rs:267-277 | one upstream chunk, cut to size, empty ones included |
| Signal.FirstOtherIsTheOther | signal-server/src/index.ts:45-54 | in a room of at most two the first other member is the one other member, in whichever order the set is iterated |
| SignalRuns.StepKeepsInv | signal-server/src/index.ts:101-221 | every event keeps the server's invariant: maps, connections and what each member has been told agree |
| SignalRuns.MapsAgree | signal-server/src/index.ts:31-78 | for all event sequences: each peer is in exactly the room it records, members are known peers, rooms hold one or two different ones, a live connection's peer is known, and the non-null assertion in the relay never fails |
| SignalRuns.ViewsAgree | signal-server/src/index.ts:131-153 | folding the messages sent to a member whose socket is open, rejecting any that contradicts an earlier one, gives exactly its room minus itself |
| SignalRuns.ErrorIsAnnouncedOnce | signal-server/src/index.ts:215-220 | an error tells the other member once and nobody else; the close after it, however much later, tells nobody |
| SignalRuns.CloseIsAnnouncedOnce | signal-server/src/index.ts:208-213 | so does a close that no error preceded |
| SignalRuns.CloseIsSilent | signal-server/src/index.ts:208-213 | a close does something exactly if the connection has joined and neither an error nor a close came before |
| SignalRuns.ByeIsAnnouncedOnce | signal-server/src/index.ts:195-201 | so does a bye; unless the client joins again, the close after it, however much later, tells nobody |
| SignalRuns.RelayReachesTheOther | signal-server/src/index.ts:156-193 | a relayed message has a receiver exactly in a full room, and it is the other member |
| SignalRuns.RelayIsExact | signal-server/src/index.ts:156-193 | in every run an offer, answer or candidate adds exactly the same kind of message with the same contents, under the sender's id, to the other member's messages, and nothing to anybody else's |
| SignalRuns.RefusedJoinIsExact | signal-server/src/index.ts:112-129 | a join by a connection that has joined, without a room name or to a room of two is answered with that reason, to its sender alone, and changes nothing else |
| SignalRuns.JoinIsExact | signal-server/src/index.ts:131-153 | in every run any other join succeeds: under the fresh id, after whoever is there; the newcomer is told who that is, they are told of it, and nobody else of anything |
| SignalRuns.ComplaintIsExact | signal-server/src/index.ts:102-110 | unreadable JSON, an unknown type and an offer, answer or candidate before a join are each answered with their error, to the sender alone; a bye before a join does nothing |
| SignalServer.SignalServer.Send | signal-server/src/index.ts:39-43 | one message at the end of one connection's outbox if its socket is open, nothing otherwise |
| SignalServer.SignalServer.Notify | signal-server/src/index.ts:145-151 | each listed peer still known is sent the message, in order |
| SignalServer.SignalServer.OtherPeer | signal-server/src/index.ts:45-54 | the loop finds the first other member |
| SignalServer.SignalServer.Remove | signal-server/src/index.ts:56-78 | the in-place removal gives the state the specification describes: out of both maps, an empty room deleted, the rest told |
| SignalServer.SignalServer.HandleJoin | signal-server/src/index.ts:112-154 | the in-place join with its three refusals, in their order |
| SignalServer.SignalServer.Admit | signal-server/src/index.ts:131-153 | the in-place rest of a join that is not refused: both maps, the welcome and the announcement |
| SignalServer.SignalServer.HandleRelay | signal-server/src/index.ts:156-193 | the in-place relay, its refusal before a join and its silent drop in a room of one |
| SignalServer.SignalServer.HandleMessage | signal-server/src/index.ts:102-206 | each message does to the maps what the specification says |
| SignalServer.SignalServer.HandleGone | signal-server/src/index.ts:208-220 | close and error remove the connection's peer if it is still there |
| Roles.ChooseRole | tunnel/src/rtc.rs:471-505 | for every sequence of messages: the first `joined` or error decides; an error refuses with its message, a `joined` naming peers makes an answerer, one naming nobody waits for the next message, where `peer-joined` makes an offerer and an error refuses |
| Roles.ChoiceStartsAgain | tunnel/src/rtc.rs:489-491 | after any other message in the inner wait, the outer wait starts again |
| Roles.RefusedForGood | tunnel/src/rtc.rs:497-499 | composed with the server: a client whose first join is refused is refused with the server's reason, whatever happens afterwards |
| Roles.NeverFallsThrough | tunnel/src/rtc.rs:475-492 | composed with the server: a member told of nobody hears `peer-joined` next, its own mistakes aside, so the ignore branch of the inner wait is never taken; told of nobody means offerer, told of somebody means answerer |
| Roles.OneFounder | signal-server/src/index.ts:135-152 | of two members at most the elder was told of nobody, and it was, unless a departure was announced to it |
| Roles.RolesAreOpposite | tunnel/src/rtc.rs:471-512 | what the members of a full room choose, exactly: the younger answers; the elder offers if and only if it was told of nobody and heard of the younger before any error, answers if and only if it was told of somebody, and is refused otherwise |
| Roles.BothAnswer | tunnel/src/rtc.rs:492-496 | a run after which the room is full and both members are answerers |
| Roles.FirstStay | tunnel/src/signaling.rs:79-93 | a client that joins once, by its first message, has all its messages in one stay, so the facts about stays are about what `connect` receives |
| Candidates.Establishing.constructor | tunnel/src/rtc.rs:194-196 | the loop starts consistent: nothing applied, nothing buffered |
| Candidates.Establishing.ApplyBuffered | tunnel/src/rtc.rs:101-113 | drains the buffer in order, whole unless an operation fails, and leaves it empty |
| Candidates.Establishing.OnDescription | tunnel/src/rtc.rs:366-392 | the description set is the one that arrived; the answerer answers it, the offerer answers nothing |
| Candidates.Establishing.Describe | tunnel/src/rtc.rs:203-209 | after the description is set everything buffered is applied, in order, and nothing stays buffered |
| Candidates.Establishing.Take | tunnel/src/rtc.rs:392-407 | a parsed candidate is applied at once after the description, buffered before it |
| Candidates.Establishing.OnSignal | tunnel/src/rtc.rs:364-421 | for both roles: a signal keeps applied ++ buffered equal to the parsed candidates in order, the descriptions set equal to those that arrived and, for the answerer, each of them answered once, and ends the loop exactly for a departure, an error, a lost connection or a failed operation |
| Candidates.Establishing.TakeTurn | tunnel/src/rtc.rs:240-261 | one turn with the check for an open channel ends the loop in exactly the way its kind says, or leaves it consistent |
| Candidates.Establishing.Loop | tunnel/src/rtc.rs:198-261 | at every loop head: applied ++ buffered is the parsed candidates in arrival order, nothing applied before the description, nothing buffered after, every offer answered; it ends exactly at the first turn whose kind ends it or whose operation fails; however it ends only a prefix of the candidates was applied |

## Left out

- WebRTC, ICE, STUN/TURN, DTLS, WebSocket, hyper and reqwest: an ordered lossless frame channel with failing sends, an
  upstream and a finite client body stand for them.
- Streaming upstream: its whole answer, a finite sequence of chunks or a break, is chosen when it answers; when each
  chunk becomes available is not modelled, which changes no order of frames since every send is a step of its own.
- Undecodable frames and JSON that does not parse: the channel carries only frames the two programs send, so the
  branches at tunnel/src/proxy.rs:110-127 and tunnel/src/serve.rs:103-113 are never needed.
- Liveness on connection failure: that serve or the proxy leaves its loop on a lost connection is a step that may happen,
  not one that must.
- Real time: the 60 s and 300 s timeouts and the 10 s ping are steps that may happen whenever their wait is going on.
- The 503 answer before the tunnel is ready: the listener is only bound after the handshake.
- Concurrency inside one method of `Tasks`: each is proved alone; how sends, deliveries and handlers interleave is
  what `Tunnel` models, step by step.
- SignalRuns.ViewsAgree: speaks of peers that are in a room and whose socket is open; what a client concludes after it
  left, or from a connection that is going down, is not stated.
- Roles.NeverFallsThrough: like the other facts about stays, speaks of members whose socket is open, since a member
  whose socket is closing may miss messages.
- Frame-size bounds for header frames, the 502 body and error frames: the code does not cut them, so none holds.
- Contents of JSON, SDP and UUIDs; lossy UTF-8 decoding of error texts, which only reach the log.
- A message that is JSON `null`, on which the server's message handler throws.
- The data channel missing when the answerer's loop ends (tunnel/src/rtc.rs:443-447): when the channel object arrives is
  not modelled.
- `build_upstream_url`, header filters and the mapping of status codes: one-branch string cases.
- `run_with_retry`, the command line, logging, `signaling.rs` beyond its order of messages, scripts and deployment.
