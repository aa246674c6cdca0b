/** Every run of the signal server keeps rooms, peers, connections and client views in agreement. */
module SignalRuns {
  import opened Primitives
  import opened Signal

  lemma WithoutOne(members: seq<string>, id: string)
    requires Housed(members) && Has(members, id)
    ensures |members| == 1 ==> Without(members, id) == []
    ensures |members| == 2 ==> Without(members, id) == [if members[0] == id then members[1] else members[0]]
  {
    FilterAppend(NotId(id), [], members[0]);
    assert [] + [members[0]] == [members[0]];
    if |members| == 2 {
      FilterAppend(NotId(id), [members[0]], members[1]);
      assert [members[0]] + [members[1]] == members;
    } else {
      assert members == [members[0]];
    }
  }

  lemma TellOne(open: set<Conn>, outbox: Outbox, peers: Peers, id: string, m: ServerMessage)
    requires id in peers
    ensures Tell(open, outbox, peers, [id], m) == Send(open, outbox, peers[id].conn, m)
  {
    assert [id][..0] == [];
  }

  // --- Joining ---

  lemma EnterHouses(rooms: Rooms, peers: Peers, c: Conn, room: string, id: string)
    requires RoomsInv(rooms, peers) && id !in peers && |Members(rooms, room)| < MAX_ROOM_SIZE
    ensures RoomsInv(rooms[room := Members(rooms, room) + [id]], peers[id := Peer(id, c, room)])
  {
  }

  lemma EnterConnects(peers: Peers, joined: map<Conn, string>, status: Sockets, used: set<string>, c: Conn,
      room: string, id: string)
    requires ConnsInv(peers, joined, status, used) && c !in joined && id !in used && c in status && status[c] == Open
    ensures ConnsInv(peers[id := Peer(id, c, room)], joined[c := id], status, used + {id})
  {
  }

  lemma HearArrival(a: Account, elder: string, id: string)
    requires Informed([elder], elder, a) && id != elder
    ensures Informed([elder, id], elder, Hear(a, PeerJoined(id)))
  {
    assert Others([elder], elder) == {};
    assert Others([elder, id], elder) == {} + {id};
  }

  lemma HearWelcome(a: Account, existing: seq<string>, id: string)
    requires Housed(existing + [id])
    ensures Informed(existing + [id], id, Hear(a, Joined(id, existing)))
  {
    assert Others(existing + [id], id) == set x | x in existing;
  }

  /** What was sent once `id` has entered. */
  function Announced(open: set<Conn>, outbox: Outbox, peers: Peers, c: Conn, existing: seq<string>,
      id: string): Outbox {
    Tell(open, Send(open, outbox, c, Joined(id, existing)), peers, existing, PeerJoined(id))
  }

  /** A welcome to `c`, an announcement to the elder if there is one. */
  lemma AnnouncedAt(open: set<Conn>, outbox: Outbox, peers: Peers, c: Conn, existing: seq<string>, id: string, at: Conn)
    requires |existing| <= 1 && (existing != [] ==> existing[0] in peers && peers[existing[0]].conn != c) && at in open
    ensures AccountOf(Out(Announced(open, outbox, peers, c, existing, id), at)) ==
            if at == c then Hear(AccountOf(Out(outbox, c)), Joined(id, existing))
            else if existing != [] && at == peers[existing[0]].conn
            then Hear(AccountOf(Out(outbox, at)), PeerJoined(id))
            else AccountOf(Out(outbox, at))
  {
    var welcomed := Send(open, outbox, c, Joined(id, existing));
    SendAccount(open, outbox, c, Joined(id, existing), at);
    if existing != [] {
      assert existing == [existing[0]];
      TellOne(open, welcomed, peers, existing[0], PeerJoined(id));
      SendAccount(open, welcomed, peers[existing[0]].conn, PeerJoined(id), at);
    }
  }

  /** A member of the room entered hears of it; the members of other rooms hear nothing. */
  lemma MemberHears(rooms: Rooms, peers: Peers, open: set<Conn>, outbox: Outbox, c: Conn, room: string, id: string,
      x: string)
    requires RoomsInv(rooms, peers) && AllInformed(rooms, peers, open, outbox) && OwnConns(peers)
    requires id !in peers && |Members(rooms, room)| < MAX_ROOM_SIZE && x in peers && peers[x].conn in open
    requires forall y :: y in peers ==> peers[y].conn != c
    ensures var members, existing := rooms[peers[x].room], Members(rooms, room);
            var told := Announced(open, outbox, peers[id := Peer(id, c, room)], c, existing, id);
            var a := AccountOf(Out(told, peers[x].conn));
            if peers[x].room == room then members == [x] && Informed([x, id], x, a) else Informed(members, x, a)
  {
    var existing := Members(rooms, room);
    assert existing != [] ==> existing[0] in peers && peers[existing[0]].room == room;
    AnnouncedAt(open, outbox, peers[id := Peer(id, c, room)], c, existing, id, peers[x].conn);
    if peers[x].room == room {
      assert existing == [x];
      HearArrival(AccountOf(Out(outbox, peers[x].conn)), x, id);
    }
  }

  lemma EnterInforms(rooms: Rooms, peers: Peers, open: set<Conn>, outbox: Outbox, c: Conn, room: string, id: string)
    requires RoomsInv(rooms, peers) && AllInformed(rooms, peers, open, outbox) && OwnConns(peers)
    requires id !in peers && |Members(rooms, room)| < MAX_ROOM_SIZE
    requires forall x :: x in peers ==> peers[x].conn != c
    ensures var existing, peers' := Members(rooms, room), peers[id := Peer(id, c, room)];
            && RoomsInv(rooms[room := existing + [id]], peers')
            && AllInformed(rooms[room := existing + [id]], peers', open,
                           Announced(open, outbox, peers', c, existing, id))
  {
    EnterHouses(rooms, peers, c, room, id);
    var existing, peers' := Members(rooms, room), peers[id := Peer(id, c, room)];
    var rooms', told := rooms[room := existing + [id]], Announced(open, outbox, peers', c, existing, id);
    forall x | x in peers' && peers'[x].conn in open
      ensures Informed(rooms'[peers'[x].room], x, AccountOf(Out(told, peers'[x].conn)))
    {
      if x == id {
        AnnouncedAt(open, outbox, peers', c, existing, id, c);
        HearWelcome(AccountOf(Out(outbox, c)), existing, id);
      } else {
        MemberHears(rooms, peers, open, outbox, c, room, id, x);
        assert peers[x].room == room ==> existing + [id] == [x, id];
      }
    }
  }

  // --- Leaving ---

  lemma LeaveHouses(rooms: Rooms, peers: Peers, id: string)
    requires RoomsInv(rooms, peers) && id in peers
    ensures var room := peers[id].room;
            var rest := Without(rooms[room], id);
            RoomsInv(if rest == [] then rooms - {room} else rooms[room := rest], peers - {id})
  {
    WithoutOne(rooms[peers[id].room], id);
  }

  lemma HearDeparture(a: Account, members: seq<string>, id: string, other: string)
    requires Housed(members) && Has(members, id) && Has(members, other) && id != other && Informed(members, other, a)
    ensures Informed([other], other, Hear(a, PeerLeft(id)))
  {
    assert Others(members, other) == {id};
    assert Others([other], other) == {id} - {id};
  }

  lemma LeaveInforms(rooms: Rooms, peers: Peers, open: set<Conn>, outbox: Outbox, id: string)
    requires RoomsInv(rooms, peers) && AllInformed(rooms, peers, open, outbox) && id in peers && OwnConns(peers)
    ensures var room := peers[id].room;
            var rest := Without(rooms[room], id);
            var rooms' := if rest == [] then rooms - {room} else rooms[room := rest];
            && RoomsInv(rooms', peers - {id})
            && AllInformed(rooms', peers - {id}, open,
                           if rest == [] then outbox else Tell(open, outbox, peers, rest, PeerLeft(id)))
  {
    LeaveHouses(rooms, peers, id);
    var room := peers[id].room;
    WithoutOne(rooms[room], id);
    if |rooms[room]| == 2 {
      OtherIsInformed(rooms, peers, open, outbox, id, if rooms[room][0] == id then rooms[room][1] else rooms[room][0]);
    }
  }

  /** After the departure of `id`, the peer it left behind and the members of other rooms know who is there. */
  lemma StayerHears(rooms: Rooms, peers: Peers, open: set<Conn>, outbox: Outbox, id: string, other: string, x: string)
    requires RoomsInv(rooms, peers) && AllInformed(rooms, peers, open, outbox) && OwnConns(peers)
    requires id in peers && other in peers && x in peers && x != id && peers[x].conn in open
    requires other != id && Has(rooms[peers[id].room], other) && peers[other].room == peers[id].room
    ensures var a := AccountOf(Out(Send(open, outbox, peers[other].conn, PeerLeft(id)), peers[x].conn));
            if peers[x].room == peers[id].room then x == other && Informed([other], x, a)
            else Informed(rooms[peers[x].room], x, a)
  {
    SendAccount(open, outbox, peers[other].conn, PeerLeft(id), peers[x].conn);
    assert peers[x].room == peers[id].room ==> Has(rooms[peers[id].room], x);
    if x == other {
      HearDeparture(AccountOf(Out(outbox, peers[x].conn)), rooms[peers[id].room], id, x);
    }
  }

  lemma OtherIsInformed(rooms: Rooms, peers: Peers, open: set<Conn>, outbox: Outbox, id: string, other: string)
    requires RoomsInv(rooms, peers) && AllInformed(rooms, peers, open, outbox) && id in peers && OwnConns(peers)
    requires other != id && Has(rooms[peers[id].room], other)
    ensures var rooms' := rooms[peers[id].room := [other]];
            && RoomsInv(rooms', peers - {id})
            && other in peers
            && AllInformed(rooms', peers - {id}, open, Tell(open, outbox, peers, [other], PeerLeft(id)))
  {
    var room := peers[id].room;
    WithoutOne(rooms[room], id);
    LeaveHouses(rooms, peers, id);
    TellOne(open, outbox, peers, other, PeerLeft(id));
    var told := Send(open, outbox, peers[other].conn, PeerLeft(id));
    forall x | x in peers - {id} && peers[x].conn in open
      ensures Informed(rooms[room := [other]][peers[x].room], x, AccountOf(Out(told, peers[x].conn)))
    {
      StayerHears(rooms, peers, open, outbox, id, other, x);
    }
  }

  lemma LeaveConnects(peers: Peers, joined: map<Conn, string>, status: Sockets, used: set<string>, c: Conn)
    requires ConnsInv(peers, joined, status, used) && c in joined && c in status
    ensures ConnsInv(peers - {joined[c]}, joined - {c}, status, used)
  {
  }

  lemma GoneConnects(peers: Peers, joined: map<Conn, string>, status: Sockets, used: set<string>, c: Conn, gone: Status)
    requires ConnsInv(peers, joined, status, used) && c in joined && c in status && !gone.Live()
    ensures ConnsInv(peers - {joined[c]}, joined, status[c := gone], used)
  {
  }

  lemma RemoveKeepsRooms(s: Server, status: Sockets, used: set<string>, id: string)
    requires ServerInv(s, status, used)
    ensures var s' := RemovePeer(s, id);
            && s'.peers == s.peers - {id} && s'.joined == s.joined && !s'.crashed
            && s'.open == s.open
            && RoomsInv(s'.rooms, s'.peers) && AllInformed(s'.rooms, s'.peers, s'.open, s'.outbox)
  {
    ConnsAreDistinct(s.peers, s.joined, status, used);
    RemovalKeepsJoined(s, id);
    if id in s.peers {
      LeaveInforms(s.rooms, s.peers, s.open, s.outbox, id);
    } else {
      assert s.peers - {id} == s.peers;
    }
  }

  lemma ByeKeepsServer(s: Server, status: Sockets, used: set<string>, c: Conn)
    requires ServerInv(s, status, used) && c in s.joined
    ensures ServerInv(RemovePeer(s, s.joined[c]).(joined := s.joined - {c}), status, used)
  {
    RemoveKeepsRooms(s, status, used, s.joined[c]);
    LeaveConnects(s.peers, s.joined, status, used, c);
  }

  // --- Sockets ---

  lemma StatusMoves(peers: Peers, joined: map<Conn, string>, status: Sockets, used: set<string>, c: Conn, to: Status)
    requires ConnsInv(peers, joined, status, used) && c in status && to.Live() == status[c].Live()
    ensures ConnsInv(peers, joined, status[c := to], used)
  {
  }

  lemma SocketShuts(open: set<Conn>, status: Sockets, c: Conn, to: Status)
    requires SocketsInv(open, status) && to != Open
    ensures SocketsInv(open - {c}, status[c := to])
  {
  }

  lemma FewerListen(rooms: Rooms, peers: Peers, open: set<Conn>, outbox: Outbox, c: Conn)
    requires RoomsInv(rooms, peers) && AllInformed(rooms, peers, open, outbox)
    ensures AllInformed(rooms, peers, open - {c}, outbox)
  {
  }

  lemma ShutKeepsServer(s: Server, status: Sockets, used: set<string>, c: Conn)
    requires ServerInv(s, status, used) && c in status && status[c].Live()
    ensures ServerInv(Shut(s, c), status[c := Closing], used)
  {
    StatusMoves(s.peers, s.joined, status, used, c, Closing);
    SocketShuts(s.open, status, c, Closing);
    FewerListen(s.rooms, s.peers, s.open, s.outbox, c);
  }

  lemma GoneKeepsServer(s: Server, status: Sockets, used: set<string>, c: Conn, gone: Status)
    requires ServerInv(s, status, used) && c in status && status[c] != Open && !gone.Live()
    ensures ServerInv(OnGone(s, c), status[c := gone], used)
  {
    SocketShuts(s.open, status, c, gone);
    assert s.open - {c} == s.open;
    if c in s.joined {
      RemoveKeepsRooms(s, status, used, s.joined[c]);
      GoneConnects(s.peers, s.joined, status, used, c, gone);
    } else {
      StrangerGoes(s.peers, s.joined, status, used, c, gone);
    }
  }

  lemma StrangerGoes(peers: Peers, joined: map<Conn, string>, status: Sockets, used: set<string>, c: Conn, gone: Status)
    requires ConnsInv(peers, joined, status, used) && c !in joined
    ensures ConnsInv(peers, joined, status[c := gone], used)
  {
  }

  lemma VanishKeepsServer(s: Server, status: Sockets, used: set<string>, c: Conn, gone: Status)
    requires ServerInv(s, status, used) && c in status && !gone.Live()
    ensures ServerInv(OnGone(Shut(s, c), c), status[c := gone], used)
  {
    if status[c].Live() {
      ShutKeepsServer(s, status, used, c);
      GoneKeepsServer(Shut(s, c), status[c := Closing], used, c, gone);
      assert status[c := Closing][c := gone] == status[c := gone];
    } else {
      assert Shut(s, c) == s;
      GoneKeepsServer(s, status, used, c, gone);
    }
  }

  lemma NewcomerListens(rooms: Rooms, peers: Peers, open: set<Conn>, outbox: Outbox, c: Conn)
    requires RoomsInv(rooms, peers) && AllInformed(rooms, peers, open, outbox)
    requires forall x :: x in peers ==> peers[x].conn != c
    ensures AllInformed(rooms, peers, open + {c}, outbox)
  {
  }

  lemma ConnectKeepsServer(s: Server, status: Sockets, used: set<string>, c: Conn)
    requires ServerInv(s, status, used) && c !in status
    ensures ServerInv(s.(open := s.open + {c}), status[c := Open], used)
  {
    StrangerGoes(s.peers, s.joined, status, used, c, Open);
    NewcomerListens(s.rooms, s.peers, s.open, s.outbox, c);
  }

  // --- The whole server ---

  lemma ComplainKeepsServer(s: Server, status: Sockets, used: set<string>, c: Conn, message: string)
    requires ServerInv(s, status, used)
    ensures ServerInv(Complain(s, c, message), status, used)
  {
    NeutralSendInforms(s.rooms, s.peers, s.open, s.outbox, c, Error(message));
  }

  lemma MoreUsed(s: Server, status: Sockets, used: set<string>, id: string)
    requires ServerInv(s, status, used)
    ensures ServerInv(s, status, used + {id})
  {
  }

  lemma JoinKeepsServer(s: Server, status: Sockets, used: set<string>, c: Conn, room: Option<string>, id: string)
    requires ServerInv(s, status, used) && c in status && status[c] == Open && id !in used
    ensures ServerInv(OnJoin(s, c, room, id), status, used + {id})
  {
    if c in s.joined || room.None? || room.value == "" || |Members(s.rooms, room.value)| >= MAX_ROOM_SIZE {
      MoreUsed(s, status, used, id);
      ComplainKeepsServer(s, status, used + {id}, c, "already joined a room");
      ComplainKeepsServer(s, status, used + {id}, c, "room name required");
      if room.Some? {
        ComplainKeepsServer(s, status, used + {id}, c, FullMessage(room.value));
      }
    } else {
      ConnsAreDistinct(s.peers, s.joined, status, used);
      EnterConnects(s.peers, s.joined, status, used, c, room.value, id);
      EnterInforms(s.rooms, s.peers, s.open, s.outbox, c, room.value, id);
    }
  }

  /** A relayed message goes to the one other member of the sender's room, or nowhere when there is none. */
  lemma RelayReachesTheOther(s: Server, c: Conn)
    requires RoomsInv(s.rooms, s.peers) && c in s.joined && s.joined[c] in s.peers
    ensures var id := s.joined[c];
            var members := s.rooms[s.peers[id].room];
            var other := GetOtherPeer(s, id, s.peers[id].room);
            && (other.Some? <==> |members| == 2)
            && (other.Some? ==> other.value.id in members && other.value.id != id && other.value.id in s.peers
                                && s.peers[other.value.id] == other.value && other.value.room == s.peers[id].room)
  {
    var id := s.joined[c];
    FirstOtherIsTheOther(s.rooms[s.peers[id].room], id);
  }

  lemma RelayKeepsServer(s: Server, status: Sockets, used: set<string>, c: Conn, m: ClientMessage)
    requires ServerInv(s, status, used) && c in status && status[c] == Open
    requires m.SendOffer? || m.SendAnswer? || m.SendCandidate?
    ensures ServerInv(Relay(s, c, m), status, used)
  {
    if c !in s.joined {
      ComplainKeepsServer(s, status, used, c, "must join a room first");
    } else {
      var id := s.joined[c];
      var other := GetOtherPeer(s, id, s.peers[id].room);
      RelayReachesTheOther(s, c);
      ConnsAreDistinct(s.peers, s.joined, status, used);
      if other.Some? {
        NeutralSendInforms(s.rooms, s.peers, s.open, s.outbox, other.value.conn, Stamped(m, id));
      }
    }
  }

  lemma MessageKeepsServer(s: Server, status: Sockets, used: set<string>, c: Conn, m: ClientMessage, id: string)
    requires ServerInv(s, status, used) && c in status && status[c] == Open && id !in used
    ensures ServerInv(OnMessage(s, c, m, id), status, used + {id})
  {
    MoreUsed(s, status, used, id);
    match m {
      case NotJson => ComplainKeepsServer(s, status, used + {id}, c, "invalid JSON");
      case Unknown => ComplainKeepsServer(s, status, used + {id}, c, "unknown message type");
      case Join(room) => JoinKeepsServer(s, status, used, c, room, id);
      case Bye =>
        if c in s.joined {
          ByeKeepsServer(s, status, used + {id}, c);
        }
      case _ => RelayKeepsServer(s, status, used + {id}, c, m);
    }
  }

  lemma StepKeepsInv(w: World, e: Event)
    requires Inv(w) && Enabled(w, e)
    ensures Inv(Step(w, e))
  {
    match e {
      case Connect(c) =>
        ConnectKeepsServer(w.server, w.status, w.used, c);
      case SocketClosing(c) =>
        ShutKeepsServer(w.server, w.status, w.used, c);
      case Message(c, m, id) =>
        MessageKeepsServer(w.server, w.status, w.used, c, m, id);
      case SocketError(c) =>
        VanishKeepsServer(w.server, w.status, w.used, c, Errored);
      case SocketClose(c) =>
        VanishKeepsServer(w.server, w.status, w.used, c, Closed);
    }
  }

  lemma {:induction false} RunKeepsInv(w: World, es: seq<Event>)
    requires Inv(w) && Valid(w, es)
    ensures Inv(Run(w, es))
    decreases |es|
  {
    if es != [] {
      StepKeepsInv(w, es[0]);
      RunKeepsInv(Step(w, es[0]), es[1..]);
    }
  }

  // --- What every run guarantees ---

  ghost predicate Reached(es: seq<Event>, w: World) {
    Valid(EMPTY, es) && w == Run(EMPTY, es)
  }

  /** Peers and rooms mirror each other. */
  ghost predicate Mirrored(rooms: Rooms, peers: Peers) {
    && (forall id :: id in peers ==> peers[id].room in rooms && id in rooms[peers[id].room])
    && (forall r, id :: r in rooms && id in rooms[r] ==> id in peers && peers[id].room == r)
    && (forall r :: r in rooms ==> 1 <= |rooms[r]| <= MAX_ROOM_SIZE)
    && (forall r, i, j :: r in rooms && 0 <= i < j < |rooms[r]| ==> rooms[r][i] != rooms[r][j])
  }

  lemma HousedIsMirrored(rooms: Rooms, peers: Peers)
    requires RoomsInv(rooms, peers)
    ensures Mirrored(rooms, peers)
  {
  }

  /**
   * The two maps and the connections agree: a peer is a member of the room it records and of no other, a room holds one
   * or two known peers, a live connection's peer is known, and the relay's non-null assertion never fails.
   */
  lemma MapsAgree(es: seq<Event>, w: World)
    requires Reached(es, w)
    ensures !w.server.crashed
    ensures Mirrored(w.server.rooms, w.server.peers)
    ensures forall c :: c in w.server.joined && c in w.status && w.status[c].Live() ==>
              w.server.joined[c] in w.server.peers && w.server.peers[w.server.joined[c]].conn == c
  {
    RunKeepsInv(EMPTY, es);
    HousedIsMirrored(w.server.rooms, w.server.peers);
  }

  /** Folding the messages a member was sent gives exactly its room minus itself, as long as its socket is open: every
      arrival and departure was announced to it once, and nothing else was. */
  lemma ViewsAgree(es: seq<Event>, w: World, id: string)
    requires Reached(es, w) && id in w.server.peers && w.server.peers[id].conn in w.server.open
    ensures w.server.peers[id].room in w.server.rooms
    ensures AccountOf(Out(w.server.outbox, w.server.peers[id].conn)).view ==
            Some(set x | x in w.server.rooms[w.server.peers[id].room] && x != id)
  {
    RunKeepsInv(EMPTY, es);
  }

  // --- Who hears of a step ---

  /** `c` is the open socket of another member of the room of `id`. */
  ghost predicate Hears(s: Server, id: string, c: Conn) {
    && id in s.peers && c in s.open
    && exists x :: x in s.peers && x != id && s.peers[x].room == s.peers[id].room && s.peers[x].conn == c
  }

  /** What a step sent: `m` to every open socket of the others in the room of `id`, nothing to anybody else. */
  ghost predicate ToldOthers(s: Server, outbox: Outbox, id: string, m: ServerMessage) {
    && id in s.peers
    && forall c :: Out(outbox, c) == Out(s.outbox, c) + (if Hears(s, id, c) then [m] else [])
  }

  /** Two different peers of one room fill it. */
  lemma OnlyOther(rooms: Rooms, peers: Peers, id: string, x: string)
    requires RoomsInv(rooms, peers) && id in peers && x in peers && x != id && peers[x].room == peers[id].room
    ensures |rooms[peers[id].room]| == 2 && forall y :: y in rooms[peers[id].room] ==> y == id || y == x
    ensures forall y :: y in peers && y != id && peers[y].room == peers[id].room ==> y == x
  {
    assert forall y :: y in peers ==> Has(rooms[peers[y].room], y);
  }

  lemma OtherIsTold(s: Server, id: string, other: string, m: ServerMessage)
    requires RoomsInv(s.rooms, s.peers) && id in s.peers && other in s.peers && other != id
    requires s.peers[other].room == s.peers[id].room
    ensures ToldOthers(s, Send(s.open, s.outbox, s.peers[other].conn, m), id, m)
  {
    OnlyOther(s.rooms, s.peers, id, other);
    forall c
      ensures Out(Send(s.open, s.outbox, s.peers[other].conn, m), c) ==
              Out(s.outbox, c) + (if Hears(s, id, c) then [m] else [])
    {
      assert Hears(s, id, c) <==> c in s.open && c == s.peers[other].conn;
      assert Out(s.outbox, c) + [] == Out(s.outbox, c);
    }
  }

  lemma NobodyIsTold(s: Server, id: string, m: ServerMessage)
    requires RoomsInv(s.rooms, s.peers) && id in s.peers && |s.rooms[s.peers[id].room]| == 1
    ensures ToldOthers(s, s.outbox, id, m)
  {
    forall c ensures Out(s.outbox, c) == Out(s.outbox, c) + (if Hears(s, id, c) then [m] else []) {
      assert forall x :: x in s.peers ==> Has(s.rooms[s.peers[x].room], x);
      assert !Hears(s, id, c);
      assert Out(s.outbox, c) + [] == Out(s.outbox, c);
    }
  }

  lemma LeavingTellsOther(s: Server, id: string, other: string)
    requires RoomsInv(s.rooms, s.peers) && id in s.peers && other in s.peers && other != id
    requires s.peers[other].room == s.peers[id].room
    ensures ToldOthers(s, Tell(s.open, s.outbox, s.peers, [other], PeerLeft(id)), id, PeerLeft(id))
  {
    TellOne(s.open, s.outbox, s.peers, other, PeerLeft(id));
    OtherIsTold(s, id, other, PeerLeft(id));
  }

  lemma RemoveTellsOthers(s: Server, id: string)
    requires RoomsInv(s.rooms, s.peers) && id in s.peers
    ensures ToldOthers(s, RemovePeer(s, id).outbox, id, PeerLeft(id))
    ensures RemovePeer(s, id).peers == s.peers - {id}
  {
    var room := s.peers[id].room;
    var members := s.rooms[room];
    WithoutOne(members, id);
    if |members| == 2 {
      LeavingTellsOther(s, id, if members[0] == id then members[1] else members[0]);
    } else {
      NobodyIsTold(s, id, PeerLeft(id));
    }
  }

  /** Closing one's own socket changes nothing for the others. */
  lemma ShutTellsTheSame(s: Server, c: Conn, id: string, outbox: Outbox, m: ServerMessage)
    requires id in s.peers && s.peers[id].conn == c && OwnConns(s.peers)
    requires ToldOthers(Shut(s, c), outbox, id, m)
    ensures ToldOthers(s, outbox, id, m)
  {
    forall at ensures Out(outbox, at) == Out(s.outbox, at) + (if Hears(s, id, at) then [m] else []) {
      assert Hears(s, id, at) <==> Hears(Shut(s, c), id, at);
    }
  }

  // --- One announcement per departure ---

  /** From `s` to `s'` the peer of connection `c` left, and the others in its room were told so. */
  ghost predicate Departs(s: Server, s': Server, c: Conn) {
    && c in s.joined
    && ToldOthers(s, s'.outbox, s.joined[c], PeerLeft(s.joined[c]))
    && s'.peers == s.peers - {s.joined[c]}
  }

  lemma ByeDeparts(s: Server, status: Sockets, used: set<string>, c: Conn)
    requires ServerInv(s, status, used) && c in s.joined && c in status && status[c].Live()
    ensures Departs(s, RemovePeer(s, s.joined[c]), c)
  {
    RemoveTellsOthers(s, s.joined[c]);
  }

  lemma GoneDeparts(s: Server, status: Sockets, used: set<string>, c: Conn)
    requires ServerInv(s, status, used) && c in s.joined && c in status && status[c].Live()
    ensures Departs(s, OnGone(Shut(s, c), c), c)
  {
    ConnsAreDistinct(s.peers, s.joined, status, used);
    RemoveTellsOthers(Shut(s, c), s.joined[c]);
    ShutTellsTheSame(s, c, s.joined[c], OnGone(Shut(s, c), c).outbox, PeerLeft(s.joined[c]));
  }

  /** A close does something exactly if the connection has joined and neither an error nor a close came before. */
  lemma CloseIsSilent(w: World, c: Conn)
    requires Inv(w) && Enabled(w, SocketClose(c))
    ensures Step(w, SocketClose(c)).server == Shut(w.server, c) <==> !(c in w.server.joined && w.status[c].Live())
    ensures !w.status[c].Live() ==> Shut(w.server, c) == w.server
  {
    if c in w.server.joined && w.status[c].Live() {
      GoneDeparts(w.server, w.status, w.used, c);
      assert w.server.joined[c] in w.server.peers;
    }
  }

  lemma {:induction false} StaysErrored(w: World, es: seq<Event>, c: Conn)
    requires Valid(w, es) && c in w.status && !w.status[c].Live()
    ensures c in Run(w, es).status && !Run(w, es).status[c].Live()
    decreases |es|
  {
    if es != [] {
      StaysErrored(Step(w, es[0]), es[1..], c);
    }
  }

  /** `c` does not try to join. */
  ghost predicate NoJoin(es: seq<Event>, c: Conn) {
    forall i :: 0 <= i < |es| ==> !(es[i].Message? && es[i].conn == c && es[i].message.Join?)
  }

  lemma RemovalKeepsJoined(s: Server, id: string)
    ensures RemovePeer(s, id).joined == s.joined
  {
  }

  lemma JoinKeepsOut(s: Server, at: Conn, room: Option<string>, id: string, c: Conn)
    requires c !in s.joined && at != c
    ensures c !in OnJoin(s, at, room, id).joined
  {
    if room.Some? {
      assert Enter(s, at, room.value, id).joined == s.joined[at := id];
    }
  }

  lemma RelayKeepsJoined(s: Server, at: Conn, m: ClientMessage)
    requires m.SendOffer? || m.SendAnswer? || m.SendCandidate?
    ensures Relay(s, at, m).joined == s.joined
  {
    if at in s.joined && s.joined[at] in s.peers {
      assert Relay(s, at, m) == s.(outbox := Relay(s, at, m).outbox);
    } else {
      assert Relay(s, at, m) == s.(outbox := Relay(s, at, m).outbox, crashed := Relay(s, at, m).crashed);
    }
  }

  lemma MessageKeepsOut(s: Server, at: Conn, m: ClientMessage, id: string, c: Conn)
    requires c !in s.joined && !(at == c && m.Join?)
    ensures c !in OnMessage(s, at, m, id).joined
  {
    match m {
      case Bye =>
        if at in s.joined {
          RemovalKeepsJoined(s, s.joined[at]);
        }
      case Join(room) => JoinKeepsOut(s, at, room, id, c);
      case NotJson =>
      case Unknown =>
      case _ => RelayKeepsJoined(s, at, m);
    }
  }

  lemma OthersKeepOut(w: World, e: Event, c: Conn)
    requires Enabled(w, e) && c !in w.server.joined && !(e.Message? && e.conn == c && e.message.Join?)
    ensures c !in Step(w, e).server.joined
  {
    if e.Message? {
      MessageKeepsOut(w.server, e.conn, e.message, e.id, c);
    }
  }

  lemma {:induction false} StaysOut(w: World, es: seq<Event>, c: Conn)
    requires Valid(w, es) && c !in w.server.joined && NoJoin(es, c)
    ensures c !in Run(w, es).server.joined
    decreases |es|
  {
    if es != [] {
      OthersKeepOut(w, es[0], c);
      assert NoJoin(es[1..], c);
      StaysOut(Step(w, es[0]), es[1..], c);
    }
  }

  /** A later close of `c` changes nothing but the state of its socket. */
  ghost predicate CloseIsSilentAfter(w: World, more: seq<Event>, c: Conn) {
    Valid(w, more) && Enabled(Run(w, more), SocketClose(c)) ==>
      Step(Run(w, more), SocketClose(c)).server == Shut(Run(w, more).server, c)
  }

  lemma SilentAfterError(w: World, more: seq<Event>, c: Conn)
    requires Inv(w) && c in w.status && !w.status[c].Live()
    ensures CloseIsSilentAfter(w, more, c)
  {
    if Valid(w, more) && Enabled(Run(w, more), SocketClose(c)) {
      RunKeepsInv(w, more);
      StaysErrored(w, more, c);
      CloseIsSilent(Run(w, more), c);
    }
  }

  lemma SilentAfterBye(w: World, more: seq<Event>, c: Conn)
    requires Inv(w) && c !in w.server.joined && NoJoin(more, c)
    ensures CloseIsSilentAfter(w, more, c)
  {
    if Valid(w, more) && Enabled(Run(w, more), SocketClose(c)) {
      RunKeepsInv(w, more);
      StaysOut(w, more, c);
      CloseIsSilent(Run(w, more), c);
    }
  }

  lemma GoneInRun(es: seq<Event>, w: World, c: Conn)
    requires Reached(es, w) && c in w.status && w.status[c].Live() && c in w.server.joined
    ensures Departs(w.server, OnGone(Shut(w.server, c), c), c)
  {
    RunKeepsInv(EMPTY, es);
    GoneDeparts(w.server, w.status, w.used, c);
  }

  lemma ByeInRun(es: seq<Event>, w: World, c: Conn)
    requires Reached(es, w) && c in w.status && w.status[c].Live() && c in w.server.joined
    ensures Departs(w.server, RemovePeer(w.server, w.server.joined[c]), c)
  {
    RunKeepsInv(EMPTY, es);
    ByeDeparts(w.server, w.status, w.used, c);
  }

  lemma StepInRun(es: seq<Event>, w: World, e: Event)
    requires Reached(es, w) && Enabled(w, e)
    ensures Inv(Step(w, e))
  {
    RunKeepsInv(EMPTY, es);
    StepKeepsInv(w, e);
  }

  lemma ClosesAfterError(es: seq<Event>, w: World, c: Conn, more: seq<Event>)
    requires Reached(es, w) && Enabled(w, SocketError(c))
    ensures CloseIsSilentAfter(Step(w, SocketError(c)), more, c)
  {
    StepInRun(es, w, SocketError(c));
    SilentAfterError(Step(w, SocketError(c)), more, c);
  }

  lemma ByeLeaves(w: World, c: Conn, uuid: string)
    requires Enabled(w, Message(c, Bye, uuid))
    ensures c !in Step(w, Message(c, Bye, uuid)).server.joined
  {
  }

  lemma ClosesAfterBye(es: seq<Event>, w: World, c: Conn, uuid: string, more: seq<Event>)
    requires Reached(es, w) && Enabled(w, Message(c, Bye, uuid)) && NoJoin(more, c)
    ensures CloseIsSilentAfter(Step(w, Message(c, Bye, uuid)), more, c)
  {
    StepInRun(es, w, Message(c, Bye, uuid));
    ByeLeaves(w, c, uuid);
    SilentAfterBye(Step(w, Message(c, Bye, uuid)), more, c);
  }

  /** An error of a joined connection tells the one other member once; the close that follows, however much later, tells
      nobody. */
  lemma ErrorIsAnnouncedOnce(es: seq<Event>, w: World, c: Conn)
    requires Reached(es, w) && Enabled(w, SocketError(c)) && c in w.server.joined
    ensures Departs(w.server, Step(w, SocketError(c)).server, c)
    ensures forall more :: CloseIsSilentAfter(Step(w, SocketError(c)), more, c)
  {
    GoneInRun(es, w, c);
    forall more ensures CloseIsSilentAfter(Step(w, SocketError(c)), more, c) {
      ClosesAfterError(es, w, c, more);
    }
  }

  /** A close that no error preceded tells the one other member once. */
  lemma CloseIsAnnouncedOnce(es: seq<Event>, w: World, c: Conn)
    requires Reached(es, w) && c in w.status && w.status[c].Live() && c in w.server.joined
    ensures Departs(w.server, Step(w, SocketClose(c)).server, c)
  {
    GoneInRun(es, w, c);
  }

  /** A bye of a joined connection tells the one other member once; unless it joins again, the close that follows,
      however much later, tells nobody. */
  lemma ByeIsAnnouncedOnce(es: seq<Event>, w: World, c: Conn, uuid: string)
    requires Reached(es, w) && Enabled(w, Message(c, Bye, uuid)) && c in w.server.joined
    ensures Departs(w.server, Step(w, Message(c, Bye, uuid)).server, c)
    ensures forall more :: NoJoin(more, c) ==> CloseIsSilentAfter(Step(w, Message(c, Bye, uuid)), more, c)
  {
    ByeInRun(es, w, c);
    forall more | NoJoin(more, c) ensures CloseIsSilentAfter(Step(w, Message(c, Bye, uuid)), more, c) {
      ClosesAfterBye(es, w, c, uuid, more);
    }
  }

  // --- Relay ---

  lemma RelayTellsOthers(s: Server, status: Sockets, used: set<string>, c: Conn, m: ClientMessage)
    requires ServerInv(s, status, used) && c in s.joined && c in status && status[c] == Open
    requires m.SendOffer? || m.SendAnswer? || m.SendCandidate?
    ensures ToldOthers(s, Relay(s, c, m).outbox, s.joined[c], Stamped(m, s.joined[c]))
  {
    var id := s.joined[c];
    var other := GetOtherPeer(s, id, s.peers[id].room);
    RelayReachesTheOther(s, c);
    if other.Some? {
      OtherIsTold(s, id, other.value.id, Stamped(m, id));
    } else {
      NobodyIsTold(s, id, Stamped(m, id));
    }
  }

  lemma RelayInRun(es: seq<Event>, w: World, c: Conn, m: ClientMessage)
    requires Reached(es, w) && c in w.server.joined && c in w.status && w.status[c] == Open
    requires m.SendOffer? || m.SendAnswer? || m.SendCandidate?
    ensures w.server.joined[c] in w.server.peers
    ensures ToldOthers(w.server, Relay(w.server, c, m).outbox, w.server.joined[c], Stamped(m, w.server.joined[c]))
    ensures Out(Relay(w.server, c, m).outbox, c) == Out(w.server.outbox, c)
  {
    RunKeepsInv(EMPTY, es);
    RelayTellsOthers(w.server, w.status, w.used, c, m);
    ConnsAreDistinct(w.server.peers, w.server.joined, w.status, w.used);
    assert !Hears(w.server, w.server.joined[c], c);
    assert Out(w.server.outbox, c) + [] == Out(w.server.outbox, c);
  }

  lemma RelayIsQuiet(s: Server, c: Conn, m: ClientMessage)
    requires m.SendOffer? || m.SendAnswer? || m.SendCandidate?
    requires c in s.joined ==> s.joined[c] in s.peers
    ensures Relay(s, c, m) == s.(outbox := Relay(s, c, m).outbox)
  {
  }

  /** An offer, answer or candidate adds one message, the same with the sender's id, to what the other member was sent,
      and nothing to what anybody else was; nothing else changes. */
  lemma RelayIsExact(es: seq<Event>, w: World, c: Conn, m: ClientMessage, uuid: string)
    requires Reached(es, w) && Enabled(w, Message(c, m, uuid)) && c in w.server.joined
    requires m.SendOffer? || m.SendAnswer? || m.SendCandidate?
    ensures var id, s, s' := w.server.joined[c], w.server, Step(w, Message(c, m, uuid)).server;
            && s' == s.(outbox := s'.outbox) && Out(s'.outbox, c) == Out(s.outbox, c)
            && (m.SendOffer? ==> ToldOthers(s, s'.outbox, id, Offer(id, m.sdp)))
            && (m.SendAnswer? ==> ToldOthers(s, s'.outbox, id, Answer(id, m.sdp)))
            && (m.SendCandidate? ==> ToldOthers(s, s'.outbox, id, Candidate(id, m.candidate)))
  {
    RelayInRun(es, w, c, m);
    RelayIsQuiet(w.server, c, m);
  }

  // --- Joins and complaints ---

  /** Between `outbox` and `outbox'` connection `c` was sent `m` if its socket is open, and nobody else anything. */
  ghost predicate OnlyTold(open: set<Conn>, outbox: Outbox, outbox': Outbox, c: Conn, m: ServerMessage) {
    forall at :: Out(outbox', at) == Out(outbox, at) + (if at == c && c in open then [m] else [])
  }

  lemma SendTellsOnly(open: set<Conn>, outbox: Outbox, c: Conn, m: ServerMessage)
    ensures OnlyTold(open, outbox, Send(open, outbox, c, m), c, m)
  {
    forall at ensures Out(Send(open, outbox, c, m), at) == Out(outbox, at)
      + (if at == c && c in open then [m] else []) {
      assert Out(outbox, at) + [] == Out(outbox, at);
    }
  }

  /** The room is named and has a place, and the connection has not joined yet. */
  predicate MayJoin(s: Server, c: Conn, room: Option<string>) {
    && c !in s.joined && room.Some? && room.value != ""
    && (room.value in s.rooms ==> |s.rooms[room.value]| < 2)
  }

  /** Why a join is refused: the first reason counts. */
  function Refusal(s: Server, c: Conn, room: Option<string>): string {
    if c in s.joined then "already joined a room"
    else if room == None || room == Some("") then "room name required"
    else "room '" + room.value + "' is full (max 2)"
  }

  /** `c` was sent an error, and nothing else happened. */
  ghost predicate ComplainedOnly(s: Server, s': Server, c: Conn, message: string) {
    s' == s.(outbox := s'.outbox) && OnlyTold(s.open, s.outbox, s'.outbox, c, Error(message))
  }

  lemma RefusedIsComplaint(s: Server, c: Conn, room: Option<string>, id: string)
    requires !MayJoin(s, c, room)
    ensures OnJoin(s, c, room, id) == Complain(s, c, Refusal(s, c, room))
  {
  }

  /** A join that may not be is answered with the reason, to its sender alone, and changes nothing else. */
  lemma RefusedJoinIsExact(w: World, c: Conn, room: Option<string>, id: string)
    requires Enabled(w, Message(c, Join(room), id)) && !MayJoin(w.server, c, room)
    ensures var s, s' := w.server, Step(w, Message(c, Join(room), id)).server;
            ComplainedOnly(s, s', c, Refusal(s, c, room))
  {
    RefusedIsComplaint(w.server, c, room, id);
    SendTellsOnly(w.server.open, w.server.outbox, c, Error(Refusal(w.server, c, room)));
  }

  /** What everybody was sent when `id` entered a room: a welcome, and an announcement to whoever was there. */
  ghost predicate Welcomed(s: Server, outbox': Outbox, c: Conn, members: seq<string>, id: string) {
    forall at :: Out(outbox', at) ==
                 Out(s.outbox, at) +
                 (if at == c && c in s.open then [Joined(id, members)] else []) +
                 (if at in s.open && Among(members, s.peers, at) then [PeerJoined(id)] else [])
  }

  /** `at` is the connection of one of the members. */
  ghost predicate Among(members: seq<string>, peers: Peers, at: Conn) {
    exists x :: x in members && x in peers && peers[x].conn == at
  }

  lemma AmongAtMostOne(members: seq<string>, peers: Peers, at: Conn)
    requires |members| <= 1 && forall x :: x in members ==> x in peers
    ensures Among(members, peers, at) <==> members != [] && peers[members[0]].conn == at
  {
  }

  lemma AnnouncedTells(s: Server, c: Conn, members: seq<string>, peers': Peers, id: string)
    requires |members| <= 1 && (members != [] ==> members[0] in s.peers && members[0] in peers')
    requires members != [] ==> peers'[members[0]] == s.peers[members[0]]
    ensures Welcomed(s, Announced(s.open, s.outbox, peers', c, members, id), c, members, id)
  {
    var welcomed := Send(s.open, s.outbox, c, Joined(id, members));
    SendTellsOnly(s.open, s.outbox, c, Joined(id, members));
    if members != [] {
      assert members == [members[0]];
      TellOne(s.open, welcomed, peers', members[0], PeerJoined(id));
      SendTellsOnly(s.open, welcomed, s.peers[members[0]].conn, PeerJoined(id));
    }
    forall at
      ensures Out(Announced(s.open, s.outbox, peers', c, members, id), at) ==
              Out(s.outbox, at) +
              (if at == c && c in s.open then [Joined(id, members)] else []) +
              (if at in s.open && Among(members, s.peers, at) then [PeerJoined(id)] else [])
    {
      AmongAtMostOne(members, s.peers, at);
      assert Out(welcomed, at) + [] == Out(welcomed, at);
    }
  }

  lemma AnnouncementReaches(s: Server, c: Conn, room: string, id: string)
    requires RoomsInv(s.rooms, s.peers) && id !in s.peers && |Members(s.rooms, room)| < MAX_ROOM_SIZE
    requires forall x :: x in s.peers ==> s.peers[x].conn != c
    ensures Welcomed(s, Enter(s, c, room, id).outbox, c, Members(s.rooms, room), id)
  {
    AnnouncedTells(s, c, Members(s.rooms, room), s.peers[id := Peer(id, c, room)], id);
  }

  lemma FreshJoin(es: seq<Event>, w: World, c: Conn, room: Option<string>, id: string)
    requires Reached(es, w) && Enabled(w, Message(c, Join(room), id)) && MayJoin(w.server, c, room)
    ensures RoomsInv(w.server.rooms, w.server.peers) && id !in w.server.peers
    ensures |Members(w.server.rooms, room.value)| < MAX_ROOM_SIZE
    ensures forall x :: x in w.server.peers ==> w.server.peers[x].conn != c
  {
    RunKeepsInv(EMPTY, es);
  }

  /** Any other join succeeds: under the fresh id the connection enters the room it names after whoever is there, is
      told who that is, and they are told of it, and nobody else of anything. */
  lemma JoinIsExact(es: seq<Event>, w: World, c: Conn, room: Option<string>, id: string)
    requires Reached(es, w) && Enabled(w, Message(c, Join(room), id)) && MayJoin(w.server, c, room)
    ensures var s, s', name := w.server, Step(w, Message(c, Join(room), id)).server, room.value;
            var members := if name in s.rooms then s.rooms[name] else [];
            && s'.joined == s.joined[c := id]
            && s'.peers == s.peers[id := Peer(id, c, name)]
            && s'.rooms == s.rooms[name := members + [id]]
            && Welcomed(s, s'.outbox, c, members, id)
  {
    FreshJoin(es, w, c, room, id);
    AnnouncementReaches(w.server, c, room.value, id);
  }

  /** A message that cannot be read or comes too early is answered with an error, to its sender alone; a bye without a
      join is not answered. Nothing else changes. */
  lemma ComplaintIsExact(w: World, c: Conn, m: ClientMessage, id: string)
    requires Enabled(w, Message(c, m, id)) && !m.Join?
    ensures var s, s' := w.server, Step(w, Message(c, m, id)).server;
            && (m.NotJson? ==> ComplainedOnly(s, s', c, "invalid JSON"))
            && (m.Unknown? ==> ComplainedOnly(s, s', c, "unknown message type"))
            && (c !in s.joined && (m.SendOffer? || m.SendAnswer? || m.SendCandidate?) ==>
                  ComplainedOnly(s, s', c, "must join a room first"))
            && (c !in s.joined && m.Bye? ==> s' == s)
  {
    SendTellsOnly(w.server.open, w.server.outbox, c, Error("invalid JSON"));
    SendTellsOnly(w.server.open, w.server.outbox, c, Error("unknown message type"));
    SendTellsOnly(w.server.open, w.server.outbox, c, Error("must join a room first"));
  }
}
