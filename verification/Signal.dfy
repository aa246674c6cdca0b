/** The signal server: rooms of at most two peers, and what each client is told. */
module Signal {
  import opened Primitives

  type Conn = nat

  datatype ServerMessage =
    | Joined(peerId: string, peers: seq<string>)
    | PeerJoined(peerId: string)
    | Offer(peerId: string, sdp: string)
    | Answer(peerId: string, sdp: string)
    | Candidate(peerId: string, candidate: string)
    | PeerLeft(peerId: string)
    | Error(message: string)
  {
    /** Neither joins, leaves nor starts a session. */
    predicate Neutral() {
      Offer? || Answer? || Candidate? || Error?
    }
  }

  // `Join(None)`: the room is missing or not a string.
  datatype ClientMessage =
    | NotJson
    | Join(room: Option<string>)
    | SendOffer(sdp: string)
    | SendAnswer(sdp: string)
    | SendCandidate(candidate: string)
    | Bye
    | Unknown

  datatype Peer = Peer(id: string, conn: Conn, room: string)

  type Rooms = map<string, seq<string>>
  type Peers = map<string, Peer>
  type Outbox = map<Conn, seq<ServerMessage>>

  const MAX_ROOM_SIZE := 2

  datatype Server = Server(
    rooms: Rooms,          // members in order of arrival
    peers: Peers,
    joined: map<Conn, string>,                // each connection's `peerId`, absent when null
    open: set<Conn>,                          // sockets whose `readyState` is OPEN
    outbox: Outbox,    // everything sent, per connection
    crashed: bool)                            // a non-null assertion failed

  function Out(outbox: Outbox, c: Conn): seq<ServerMessage> {
    if c in outbox then outbox[c] else []
  }

  function Post(outbox: Outbox, c: Conn, m: ServerMessage): Outbox {
    outbox[c := Out(outbox, c) + [m]]
  }

  /** `send`: a message for a socket that is not open is dropped. */
  function Send(open: set<Conn>, outbox: Outbox, c: Conn, m: ServerMessage): Outbox {
    if c in open then Post(outbox, c, m) else outbox
  }

  /** Sends `m` to every listed peer that is still known. */
  function Tell(open: set<Conn>, outbox: Outbox, peers: Peers, ids: seq<string>, m: ServerMessage): Outbox {
    if ids == [] then outbox
    else
      var before, last := Tell(open, outbox, peers, ids[..|ids| - 1], m), ids[|ids| - 1];
      if last in peers then Send(open, before, peers[last].conn, m) else before
  }

  function NotId(id: string): string -> bool {
    (x: string) => x != id
  }

  function Without(ids: seq<string>, id: string): seq<string> {
    Filter(NotId(id), ids)
  }

  function Members(rooms: Rooms, room: string): seq<string> {
    if room in rooms then rooms[room] else []
  }

  /** The first other member in iteration order. */
  function FirstOther(ids: seq<string>, id: string): Option<string> {
    if ids == [] then None else if ids[0] != id then Some(ids[0]) else FirstOther(ids[1..], id)
  }

  function GetOtherPeer(s: Server, id: string, room: string): Option<Peer> {
    var other := FirstOther(Members(s.rooms, room), id);
    if other.Some? then Lookup(s.peers, other.value) else None
  }

  function RemovePeer(s: Server, id: string): Server {
    if id !in s.peers then s
    else
      var room := s.peers[id].room;
      if room !in s.rooms then s.(peers := s.peers - {id})
      else
        var rest := Without(s.rooms[room], id);
        if rest == [] then s.(rooms := s.rooms - {room}, peers := s.peers - {id})
        else s.(rooms := s.rooms[room := rest], peers := s.peers - {id},
                outbox := Tell(s.open, s.outbox, s.peers, rest, PeerLeft(id)))
  }

  function Complain(s: Server, c: Conn, message: string): Server {
    s.(outbox := Send(s.open, s.outbox, c, Error(message)))
  }

  function FullMessage(room: string): string {
    "room '" + room + "' is full (max 2)"
  }

  function Enter(s: Server, c: Conn, room: string, id: string): Server {
    var existing := Members(s.rooms, room);
    var peers := s.peers[id := Peer(id, c, room)];
    Server(s.rooms[room := existing + [id]], peers, s.joined[c := id], s.open,
           Tell(s.open, Send(s.open, s.outbox, c, Joined(id, existing)), peers, existing, PeerJoined(id)), s.crashed)
  }

  function OnJoin(s: Server, c: Conn, room: Option<string>, id: string): Server {
    if c in s.joined then Complain(s, c, "already joined a room")
    else if room.None? || room.value == "" then Complain(s, c, "room name required")
    else if |Members(s.rooms, room.value)| >= MAX_ROOM_SIZE then Complain(s, c, FullMessage(room.value))
    else Enter(s, c, room.value, id)
  }

  function Stamped(m: ClientMessage, id: string): ServerMessage
    requires m.SendOffer? || m.SendAnswer? || m.SendCandidate?
  {
    match m
    case SendOffer(sdp) => Offer(id, sdp)
    case SendAnswer(sdp) => Answer(id, sdp)
    case SendCandidate(candidate) => Candidate(id, candidate)
  }

  function Relay(s: Server, c: Conn, m: ClientMessage): Server
    requires m.SendOffer? || m.SendAnswer? || m.SendCandidate?
  {
    if c !in s.joined then Complain(s, c, "must join a room first")
    else if s.joined[c] !in s.peers then s.(crashed := true)
    else
      var id := s.joined[c];
      var other := GetOtherPeer(s, id, s.peers[id].room);
      if other.Some? then s.(outbox := Send(s.open, s.outbox, other.value.conn, Stamped(m, id))) else s
  }

  /** `id`: the id `randomUUID` would return. */
  function OnMessage(s: Server, c: Conn, m: ClientMessage, id: string): Server {
    match m
    case NotJson => Complain(s, c, "invalid JSON")
    case Join(room) => OnJoin(s, c, room, id)
    case Bye => if c in s.joined then RemovePeer(s, s.joined[c]).(joined := s.joined - {c}) else s
    case Unknown => Complain(s, c, "unknown message type")
    case _ => Relay(s, c, m)
  }

  /** Both for `close` and for `error`: `peerId` is not cleared. */
  function OnGone(s: Server, c: Conn): Server {
    if c in s.joined then RemovePeer(s, s.joined[c]) else s
  }

  // --- Runs ---

  datatype Status = Open | Closing | Errored | Closed
  {
    /** Neither an error nor a close event was raised. */
    predicate Live() {
      Open? || Closing?
    }
  }

  type Sockets = map<Conn, Status>

  /** The server, the fate of each socket, and the ids `randomUUID` has returned. */
  datatype World = World(server: Server, status: Sockets, used: set<string>)

  datatype Event =
    | Connect(conn: Conn)
    | Message(conn: Conn, message: ClientMessage, id: string)
    | SocketClosing(conn: Conn)  // no longer OPEN, no event yet
    | SocketError(conn: Conn)
    | SocketClose(conn: Conn)

  const EMPTY := World(Server(map[], map[], map[], {}, map[], false), map[], {})

  /** Messages arrive on open sockets only, fresh ids are fresh, an error may be followed by a close. */
  predicate Enabled(w: World, e: Event) {
    match e
    case Connect(c) => c !in w.status
    case Message(c, _, id) => c in w.status && w.status[c] == Open && id !in w.used
    case SocketClosing(c) => c in w.status && w.status[c] == Open
    case SocketError(c) => c in w.status && w.status[c].Live()
    case SocketClose(c) => c in w.status && w.status[c] != Closed
  }

  function Shut(s: Server, c: Conn): Server {
    s.(open := s.open - {c})
  }

  function Step(w: World, e: Event): World
    requires Enabled(w, e)
  {
    match e
    case Connect(c) => w.(server := w.server.(open := w.server.open + {c}), status := w.status[c := Open])
    case Message(c, m, id) => World(OnMessage(w.server, c, m, id), w.status, w.used + {id})
    case SocketClosing(c) => w.(server := Shut(w.server, c), status := w.status[c := Closing])
    case SocketError(c) => World(OnGone(Shut(w.server, c), c), w.status[c := Errored], w.used)
    case SocketClose(c) => World(OnGone(Shut(w.server, c), c), w.status[c := Closed], w.used)
  }

  predicate Valid(w: World, es: seq<Event>)
    decreases |es|
  {
    es == [] || (Enabled(w, es[0]) && Valid(Step(w, es[0]), es[1..]))
  }

  function Run(w: World, es: seq<Event>): World
    requires Valid(w, es)
    decreases |es|
  {
    if es == [] then w else Run(Step(w, es[0]), es[1..])
  }

  // --- What a client makes of its messages ---

  /** `view`: the other members as the messages tell it, `None` once a message contradicts an earlier one. */
  datatype Account = Account(
    view: Option<set<string>>,
    told: Option<seq<string>>,       // the peers named when this session was joined
    first: Option<ServerMessage>,    // the first thing said since, errors aside
    left: bool)                      // a departure was announced since

  function Hear(a: Account, m: ServerMessage): Account {
    var first := if a.first.None? && !m.Error? then Some(m) else a.first;
    match m
    case Joined(_, peers) => Account(Some(set x | x in peers), Some(peers), None, false)
    case PeerJoined(id) =>
      Account(if a.view.Some? && id !in a.view.value then Some(a.view.value + {id}) else None, a.told, first, a.left)
    case PeerLeft(id) =>
      Account(if a.view.Some? && id in a.view.value then Some(a.view.value - {id}) else None, a.told, first, true)
    case _ => a.(first := first)
  }

  function AccountOf(msgs: seq<ServerMessage>): Account {
    if msgs == [] then Account(None, None, None, false)
    else Hear(AccountOf(msgs[..|msgs| - 1]), msgs[|msgs| - 1])
  }

  lemma AccountAppend(msgs: seq<ServerMessage>, m: ServerMessage)
    ensures AccountOf(msgs + [m]) == Hear(AccountOf(msgs), m)
  {
    assert (msgs + [m])[..|msgs|] == msgs;
  }

  // --- Invariant ---

  /** A room holds one peer or two different ones. */
  predicate Housed(members: seq<string>) {
    |members| == 1 || (|members| == 2 && members[0] != members[1])
  }

  predicate Has(members: seq<string>, id: string)
    requires Housed(members)
  {
    members[0] == id || (|members| == 2 && members[1] == id)
  }

  ghost predicate RoomsInv(rooms: Rooms, peers: Peers) {
    && (forall r :: r in rooms ==> Housed(rooms[r]))
    && (forall r :: r in rooms ==> rooms[r][0] in peers && peers[rooms[r][0]].room == r)
    && (forall r :: r in rooms && |rooms[r]| == 2 ==> rooms[r][1] in peers && peers[rooms[r][1]].room == r)
    && (forall id :: id in peers ==> peers[id].id == id && peers[id].room in rooms && Has(rooms[peers[id].room], id))
  }

  ghost predicate ConnsInv(peers: Peers, joined: map<Conn, string>, status: Sockets, used: set<string>) {
    && (forall id :: id in peers ==> id in used && peers[id].conn in joined && joined[peers[id].conn] == id)
    && (forall id :: id in peers ==> peers[id].conn in status && status[peers[id].conn].Live())
    && (forall c :: c in joined ==> joined[c] in used && c in status)
    && (forall c :: c in joined && joined[c] in peers ==> peers[joined[c]].conn == c)
    && (forall c :: c in joined && status[c].Live() ==> joined[c] in peers)
  }

  function Others(members: seq<string>, id: string): set<string> {
    set x | x in members && x != id
  }

  /** A member of a room has been told exactly who else is there, and how it came to be there. */
  ghost predicate Informed(members: seq<string>, id: string, a: Account)
    requires Housed(members) && Has(members, id)
  {
    && a.view == Some(Others(members, id))
    && a.told.Some?
    && (members[0] != id ==> a.told.value != [])
    && (members[0] == id && a.told.value != [] ==> a.left)
    && (a.told.value == [] && a.first.None? ==> |members| == 1)
    && (a.told.value == [] && a.first.Some? ==> a.first.value.PeerJoined?)
  }

  /** Every member whose socket is open. */
  ghost predicate AllInformed(rooms: Rooms, peers: Peers, open: set<Conn>, outbox: Outbox)
    requires RoomsInv(rooms, peers)
  {
    forall id :: id in peers && peers[id].conn in open ==>
      Informed(rooms[peers[id].room], id, AccountOf(Out(outbox, peers[id].conn)))
  }

  ghost predicate SocketsInv(open: set<Conn>, status: Sockets) {
    forall c :: c in open <==> c in status && status[c] == Open
  }

  ghost predicate ServerInv(s: Server, status: Sockets, used: set<string>) {
    && !s.crashed
    && RoomsInv(s.rooms, s.peers)
    && ConnsInv(s.peers, s.joined, status, used)
    && SocketsInv(s.open, status)
    && AllInformed(s.rooms, s.peers, s.open, s.outbox)
  }

  ghost predicate Inv(w: World) {
    ServerInv(w.server, w.status, w.used)
  }

  // --- Posting ---

  /** No two peers share a connection. */
  ghost predicate OwnConns(peers: Peers) {
    forall x, y :: x in peers && y in peers && peers[x].conn == peers[y].conn ==> x == y
  }

  lemma ConnsAreDistinct(peers: Peers, joined: map<Conn, string>, status: Sockets, used: set<string>)
    requires ConnsInv(peers, joined, status, used)
    ensures OwnConns(peers)
  {
  }

  lemma HearNeutral(members: seq<string>, id: string, a: Account, m: ServerMessage)
    requires Housed(members) && Has(members, id) && Informed(members, id, a)
    requires m.Neutral() && (m.Error? || |members| == 2)
    ensures Informed(members, id, Hear(a, m))
  {
  }

  lemma PostAccount(outbox: Outbox, c: Conn, m: ServerMessage, at: Conn)
    ensures AccountOf(Out(Post(outbox, c, m), at)) ==
            if at == c then Hear(AccountOf(Out(outbox, c)), m) else AccountOf(Out(outbox, at))
  {
    AccountAppend(Out(outbox, c), m);
  }

  lemma SendAccount(open: set<Conn>, outbox: Outbox, c: Conn, m: ServerMessage, at: Conn)
    requires at in open
    ensures AccountOf(Out(Send(open, outbox, c, m), at)) ==
            if at == c then Hear(AccountOf(Out(outbox, c)), m) else AccountOf(Out(outbox, at))
  {
    PostAccount(outbox, c, m, at);
  }

  /** A neutral message changes nobody's view; a relayed one may be the first thing heard only in a full room. */
  lemma NeutralSendInforms(rooms: Rooms, peers: Peers, open: set<Conn>, outbox: Outbox, c: Conn, m: ServerMessage)
    requires RoomsInv(rooms, peers) && AllInformed(rooms, peers, open, outbox) && m.Neutral()
    requires forall id :: id in peers && peers[id].conn == c ==> m.Error? || |rooms[peers[id].room]| == 2
    ensures AllInformed(rooms, peers, open, Send(open, outbox, c, m))
  {
    forall id | id in peers && peers[id].conn in open
      ensures Informed(rooms[peers[id].room], id, AccountOf(Out(Send(open, outbox, c, m), peers[id].conn)))
    {
      SendAccount(open, outbox, c, m, peers[id].conn);
      if peers[id].conn == c {
        HearNeutral(rooms[peers[id].room], id, AccountOf(Out(outbox, c)), m);
      }
    }
  }

  /** In a room of at most two, the first other member is the other member. */
  lemma FirstOtherIsTheOther(ids: seq<string>, id: string)
    requires Housed(ids) && Has(ids, id)
    ensures FirstOther(ids, id).Some? <==> |ids| == 2
    ensures forall x :: FirstOther(ids, id) == Some(x) <==> x in ids && x != id
  {
    assert FirstOther(ids, id) == if ids[0] != id then Some(ids[0]) else FirstOther(ids[1..], id);
    if |ids| == 2 {
      assert ids[1..] == [ids[1]];
      assert [ids[1]][1..] == [];
    } else {
      assert ids[1..] == [];
    }
  }
}
