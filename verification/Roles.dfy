/** Role choice in `connect`, composed with the signal server that tells the client what it chooses by. */
module Roles {
  import opened Primitives
  import opened Signal
  import opened SignalRuns

  datatype Role = Offerer | Answerer

  datatype Choice =
    | Chosen(role: Role)
    | Refused(message: string)
    | Waiting                   // more has to arrive, or the connection is lost

  /** What `connect` makes of the messages it receives, in order. */
  function Choose(msgs: seq<ServerMessage>): Choice
    decreases |msgs|
  {
    if msgs == [] then Waiting
    else
      match msgs[0]
      case Joined(_, peers) =>
        if peers != [] then Chosen(Answerer)
        else if |msgs| == 1 then Waiting
        else
          (match msgs[1]
           case PeerJoined(_) => Chosen(Offerer)
           case Error(message) => Refused(message)
           case _ => Choose(msgs[2..]))  // ignored, and back to waiting for a `joined`
      case Error(message) => Refused(message)
      case _ => Choose(msgs[1..])
  }

  /** None of the first `i` messages decides anything: no `joined` and no error. */
  ghost predicate Idle(msgs: seq<ServerMessage>, i: nat)
    requires i <= |msgs|
  {
    forall k :: 0 <= k < i ==> !msgs[k].Joined? && !msgs[k].Error?
  }

  /** The outcome by position: what the first `joined` or error, and the message after a `joined` to nobody, decide. */
  ghost predicate Decides(msgs: seq<ServerMessage>, i: nat, choice: Choice)
    requires i < |msgs|
  {
    && (msgs[i].Error? ==> choice == Refused(msgs[i].message))
    && (msgs[i].Joined? && msgs[i].peers != [] ==> choice == Chosen(Answerer))
    && (msgs[i].Joined? && msgs[i].peers == [] ==>
          && (i + 1 == |msgs| ==> choice == Waiting)
          && (i + 1 < |msgs| && msgs[i + 1].PeerJoined? ==> choice == Chosen(Offerer))
          && (i + 1 < |msgs| && msgs[i + 1].Error? ==> choice == Refused(msgs[i + 1].message)))
  }

  /** The first message that decides something decides; if there is none, the client waits. */
  lemma {:induction false} ChoiceByPosition(msgs: seq<ServerMessage>, i: nat)
    requires i <= |msgs| && Idle(msgs, i)
    ensures Choose(msgs) == Choose(msgs[i..])
    ensures if i == |msgs| then Choose(msgs) == Waiting else Decides(msgs, i, Choose(msgs))
    decreases i
  {
    if i == 0 {
      assert msgs[0..] == msgs;
    } else {
      assert Choose(msgs) == Choose(msgs[1..]);
      ChoiceByPosition(msgs[1..], i - 1);
      assert msgs[1..][i - 1..] == msgs[i..];
    }
  }

  /** Fallen through its inner wait, `connect` starts again with the message after. */
  lemma ChoiceStartsAgain(msgs: seq<ServerMessage>, i: nat)
    requires i + 1 < |msgs| && Idle(msgs, i) && msgs[i].Joined? && msgs[i].peers == []
    requires !msgs[i + 1].PeerJoined? && !msgs[i + 1].Error?
    ensures Choose(msgs) == Choose(msgs[i + 2..])
  {
    ChoiceByPosition(msgs, i);
    assert msgs[i..][2..] == msgs[i + 2..];
  }

  method ChooseRole(signals: seq<ServerMessage>) returns (choice: Choice)
    ensures forall i: nat :: i < |signals| && Idle(signals, i) ==> Decides(signals, i, choice)
    ensures Idle(signals, |signals|) ==> choice == Waiting
    ensures choice == Choose(signals)
  {
    choice := ReceiveRole(signals);
    forall i: nat | i < |signals| && Idle(signals, i) ensures Decides(signals, i, choice) {
      ChoiceByPosition(signals, i);
    }
    if Idle(signals, |signals|) {
      ChoiceByPosition(signals, |signals|);
    }
  }

  /** The two nested receives. */
  method ReceiveRole(signals: seq<ServerMessage>) returns (choice: Choice)
    ensures choice == Choose(signals)
  {
    var i := 0;
    while i < |signals|
      invariant i <= |signals| && Choose(signals) == Choose(signals[i..])
    {
      match signals[i] {
        case Joined(_, peers) =>
          if peers == [] {
            i := i + 1;
            if i == |signals| {
              return Waiting;
            }
            match signals[i] {
              case PeerJoined(_) => return Chosen(Offerer);
              case Error(message) => return Refused(message);
              case _ =>
            }
          } else {
            return Chosen(Answerer);
          }
        case Error(message) =>
          return Refused(message);
        case _ =>
      }
      i := i + 1;
    }
    return Waiting;
  }

  /** The messages of a client's current stay: its last `joined` and everything after. */
  function Stay(msgs: seq<ServerMessage>): seq<ServerMessage> {
    if msgs == [] then []
    else
      var before, last := Stay(msgs[..|msgs| - 1]), msgs[|msgs| - 1];
      if last.Joined? then [last] else if before == [] then [] else before + [last]
  }

  lemma {:induction false} StayAccount(msgs: seq<ServerMessage>)
    ensures var session, a := Stay(msgs), AccountOf(msgs);
            && (a.told.Some? <==> session != [])
            && (session != [] ==> session[0].Joined? && a.told == Some(session[0].peers))
            && (|session| >= 2 && !session[1].Error? ==> a.first == Some(session[1]))
            && (|session| == 1 ==> a.first.None?)
            && (|session| >= 2 ==> !session[1].Joined?)
  {
    if msgs != [] {
      StayAccount(msgs[..|msgs| - 1]);
    }
  }

  /** A client that joins once, by its first message, has had one stay. */
  lemma {:induction false} FirstStay(msgs: seq<ServerMessage>)
    requires msgs != [] && msgs[0].Joined? && forall i :: 0 < i < |msgs| ==> !msgs[i].Joined?
    ensures Stay(msgs) == msgs
  {
    var front := msgs[..|msgs| - 1];
    if front == [] {
      assert msgs == [msgs[0]];
    } else {
      FirstStay(front);
      assert msgs == front + [msgs[|msgs| - 1]];
    }
  }

  /** In its inner wait, `connect` gets something other than `peer-joined` or an error. */
  predicate FallsThrough(session: seq<ServerMessage>) {
    |session| >= 2 && session[0].Joined? && session[0].peers == [] && !session[1].PeerJoined? && !session[1].Error?
  }

  ghost predicate Stays(w: World, id: string, session: seq<ServerMessage>) {
    && id in w.server.peers && w.server.peers[id].conn in w.server.open
    && session == Stay(Out(w.server.outbox, w.server.peers[id].conn))
  }

  /**
   * Whoever was told of nobody hears `peer-joined` next, its own mistakes aside: `connect` never falls through, a
   * member told of somebody is an answerer, and one told of nobody becomes an offerer.
   */
  lemma NeverFallsThrough(es: seq<Event>, w: World, id: string, session: seq<ServerMessage>)
    requires Reached(es, w) && Stays(w, id, session)
    ensures session != [] && session[0].Joined? && !FallsThrough(session)
    ensures Choose(session) ==
            if session[0].peers != [] then Chosen(Answerer)
            else if |session| == 1 then Waiting
            else if session[1].Error? then Refused(session[1].message)
            else Chosen(Offerer)
  {
    RunKeepsInv(EMPTY, es);
    StayIsOrderly(w.server, w.status, w.used, id);
    ChooseOrderly(session);
  }

  lemma ChooseOrderly(session: seq<ServerMessage>)
    requires Orderly(session)
    ensures Choose(session) ==
            if session[0].peers != [] then Chosen(Answerer)
            else if |session| == 1 then Waiting
            else if session[1].Error? then Refused(session[1].message)
            else Chosen(Offerer)
  {
  }

  lemma StayIsOrderly(s: Server, status: Sockets, used: set<string>, id: string)
    requires ServerInv(s, status, used) && id in s.peers && s.peers[id].conn in s.open
    ensures Orderly(Stay(Out(s.outbox, s.peers[id].conn)))
  {
    StayAccount(Out(s.outbox, s.peers[id].conn));
  }

  ghost predicate Orderly(session: seq<ServerMessage>) {
    session != [] && session[0].Joined? && !FallsThrough(session)
  }

  /** In a full room at most one member was told of nobody, and it is the one that came first: always so when no
      departure was announced to it. */
  lemma OneFounder(es: seq<Event>, w: World, room: string, first: seq<ServerMessage>, second: seq<ServerMessage>)
    requires Reached(es, w) && room in w.server.rooms && |w.server.rooms[room]| == 2
    requires Stays(w, w.server.rooms[room][0], first) && Stays(w, w.server.rooms[room][1], second)
    ensures first != [] && first[0].Joined? && second != [] && second[0].Joined?
    ensures second[0].peers != []
    ensures first[0].peers == [] || exists i :: 0 < i < |first| && first[i].PeerLeft?
    ensures first[0].peers == [] ==> |first| >= 2
  {
    RunKeepsInv(EMPTY, es);
    var a, b := w.server.rooms[room][0], w.server.rooms[room][1];
    StayAccount(Out(w.server.outbox, w.server.peers[a].conn));
    StayAccount(Out(w.server.outbox, w.server.peers[b].conn));
    LeftIsHeard(Out(w.server.outbox, w.server.peers[a].conn));
    assert Informed(w.server.rooms[room], a, AccountOf(Out(w.server.outbox, w.server.peers[a].conn)));
  }

  lemma {:induction false} LeftIsHeard(msgs: seq<ServerMessage>)
    ensures AccountOf(msgs).left && Stay(msgs) != [] ==> exists i :: 0 < i < |Stay(msgs)| && Stay(msgs)[i].PeerLeft?
  {
    if msgs != [] {
      var front, last := msgs[..|msgs| - 1], msgs[|msgs| - 1];
      LeftIsHeard(front);
      if AccountOf(msgs).left && Stay(msgs) != [] {
        if last.PeerLeft? {
          assert Stay(msgs)[|Stay(msgs)| - 1].PeerLeft?;
        } else {
          var i :| 0 < i < |Stay(front)| && Stay(front)[i].PeerLeft?;
          assert Stay(msgs)[i].PeerLeft?;
        }
      }
    }
  }

  /**
   * What the two members of a full room choose: the younger answers; the elder answers too exactly if it was told of
   * somebody, who has left since, and offers exactly if it was told of nobody and heard of the younger first. (The
   * third case is an elder whose own misuse was answered with an error while it waited: it is refused.)
   */
  lemma RolesAreOpposite(es: seq<Event>, w: World, room: string, first: seq<ServerMessage>, second: seq<ServerMessage>)
    requires Reached(es, w) && room in w.server.rooms && |w.server.rooms[room]| == 2
    requires Stays(w, w.server.rooms[room][0], first) && Stays(w, w.server.rooms[room][1], second)
    ensures first != [] && first[0].Joined?
    ensures Choose(second) == Chosen(Answerer)
    ensures Choose(first) == Chosen(Offerer) <==> first[0].peers == [] && |first| >= 2 && !first[1].Error?
    ensures Choose(first) == Chosen(Answerer) <==> first[0].peers != []
    ensures Choose(first).Refused? <==> first[0].peers == [] && |first| >= 2 && first[1].Error?
  {
    OneFounder(es, w, room, first, second);
    NeverFallsThrough(es, w, w.server.rooms[room][0], first);
    NeverFallsThrough(es, w, w.server.rooms[room][1], second);
  }

  /** Nothing a client was sent is taken back. */
  lemma {:induction false} OutboxGrows(w: World, es: seq<Event>, c: Conn)
    requires Valid(w, es)
    ensures Out(w.server.outbox, c) <= Out(Run(w, es).server.outbox, c)
    decreases |es|
  {
    if es != [] {
      StepGrows(w, es[0], c);
      OutboxGrows(Step(w, es[0]), es[1..], c);
    }
  }

  lemma {:induction false} TellGrows(open: set<Conn>, outbox: Outbox, peers: Peers, ids: seq<string>, m: ServerMessage,
      c: Conn)
    ensures Out(outbox, c) <= Out(Tell(open, outbox, peers, ids, m), c)
  {
    if ids != [] {
      TellGrows(open, outbox, peers, ids[..|ids| - 1], m, c);
    }
  }

  lemma RemovalGrows(s: Server, id: string, c: Conn)
    ensures Out(s.outbox, c) <= Out(RemovePeer(s, id).outbox, c)
  {
    if id in s.peers && s.peers[id].room in s.rooms {
      TellGrows(s.open, s.outbox, s.peers, Without(s.rooms[s.peers[id].room], id), PeerLeft(id), c);
    }
  }

  lemma JoinGrows(s: Server, at: Conn, room: Option<string>, id: string, c: Conn)
    ensures Out(s.outbox, c) <= Out(OnJoin(s, at, room, id).outbox, c)
  {
    if room.Some? {
      var existing := Members(s.rooms, room.value);
      TellGrows(s.open, Send(s.open, s.outbox, at, Joined(id, existing)), s.peers[id := Peer(id, at, room.value)],
                existing, PeerJoined(id), c);
    }
  }

  lemma MessageGrows(s: Server, at: Conn, m: ClientMessage, id: string, c: Conn)
    ensures Out(s.outbox, c) <= Out(OnMessage(s, at, m, id).outbox, c)
  {
    match m {
      case Join(room) => JoinGrows(s, at, room, id, c);
      case Bye =>
        if at in s.joined {
          RemovalGrows(s, s.joined[at], c);
        }
      case _ =>
    }
  }

  lemma StepGrows(w: World, e: Event, c: Conn)
    requires Enabled(w, e)
    ensures Out(w.server.outbox, c) <= Out(Step(w, e).server.outbox, c)
  {
    if e.Message? {
      MessageGrows(w.server, e.conn, e.message, e.id, c);
    } else if e.conn in w.server.joined {
      RemovalGrows(Shut(w.server, e.conn), w.server.joined[e.conn], c);
    }
  }

  /** A client whose first join is refused is refused, whatever happens afterwards. */
  lemma RefusedForGood(w: World, c: Conn, room: Option<string>, id: string, more: seq<Event>)
    requires Enabled(w, Message(c, Join(room), id)) && c in w.server.open && Out(w.server.outbox, c) == []
    requires !MayJoin(w.server, c, room)
    requires Valid(Step(w, Message(c, Join(room), id)), more)
    ensures Choose(Out(Run(Step(w, Message(c, Join(room), id)), more).server.outbox, c)) ==
            Refused(Refusal(w.server, c, room))
  {
    var w1 := Step(w, Message(c, Join(room), id));
    RefusedJoinIsExact(w, c, room, id);
    assert Out(w1.server.outbox, c) == [Error(Refusal(w.server, c, room))];
    OutboxGrows(w1, more, c);
    ChoiceByPosition(Out(Run(w1, more).server.outbox, c), 0);
  }

  lemma {:induction false} RunSnoc(w: World, es: seq<Event>, e: Event)
    requires Valid(w, es) && Enabled(Run(w, es), e)
    ensures Valid(w, es + [e]) && Run(w, es + [e]) == Step(Run(w, es), e)
    decreases |es|
  {
    if es == [] {
      assert [] + [e] == [e] && [e][1..] == [];
    } else {
      RunSnoc(Step(w, es[0]), es[1..], e);
      assert (es + [e])[1..] == es[1..] + [e];
    }
  }

  lemma Extend(es: seq<Event>, w: World, e: Event) returns (es': seq<Event>, w': World)
    requires Reached(es, w) && Enabled(w, e)
    ensures Reached(es', w') && w' == Step(w, e)
  {
    RunSnoc(EMPTY, es, e);
    es', w' := es + [e], Step(w, e);
  }

  const THREE_SOCKETS: Sockets := map[0 := Open, 1 := Open, 2 := Open]

  lemma OneJoined(a: string) returns (es: seq<Event>, w: World)
    ensures Reached(es, w) && w.status == THREE_SOCKETS && w.used == {a}
    ensures w.server == Server(map["r" := [a]], map[a := Peer(a, 0, "r")], map[0 := a], {0, 1, 2},
                               map[0 := [Joined(a, [])]], false)
  {
    es, w := [], EMPTY;
    es, w := Extend(es, w, Event.Connect(0));
    es, w := Extend(es, w, Event.Connect(1));
    es, w := Extend(es, w, Event.Connect(2));
    es, w := Extend(es, w, Message(0, Join(Some("r")), a));
    assert [] + [a] == [a] && [] + [Joined(a, [])] == [Joined(a, [])];
  }

  /** What a join to a room of one does. */
  lemma EnterElder(s: Server, c: Conn, room: string, id: string, elder: string)
    requires room in s.rooms && s.rooms[room] == [elder] && elder in s.peers && elder != id
    requires c in s.open && s.peers[elder].conn in s.open
    ensures Enter(s, c, room, id) ==
            s.(rooms := s.rooms[room := [elder, id]], peers := s.peers[id := Peer(id, c, room)],
               joined := s.joined[c := id],
               outbox := Post(Post(s.outbox, c, Joined(id, [elder])), s.peers[elder].conn, PeerJoined(id)))
  {
    TellOne(s.open, Post(s.outbox, c, Joined(id, [elder])), s.peers[id := Peer(id, c, room)], elder, PeerJoined(id));
    assert [elder] + [id] == [elder, id];
  }

  /** The run that goes on with a join to a room of one. */
  lemma JoinNext(es: seq<Event>, w: World, c: Conn, room: string, id: string, elder: string)
      returns (es': seq<Event>, w': World)
    requires Reached(es, w) && Enabled(w, Message(c, Join(Some(room)), id)) && c !in w.server.joined && room != ""
    requires room in w.server.rooms && w.server.rooms[room] == [elder] && elder in w.server.peers && elder != id
    requires c in w.server.open && w.server.peers[elder].conn in w.server.open
    ensures Reached(es', w') && w'.status == w.status && w'.used == w.used + {id}
    ensures var s := w.server;
            w'.server == s.(rooms := s.rooms[room := [elder, id]], peers := s.peers[id := Peer(id, c, room)],
                            joined := s.joined[c := id],
                            outbox := Post(Post(s.outbox, c, Joined(id, [elder])), s.peers[elder].conn, PeerJoined(id)))
  {
    EnterElder(w.server, c, room, id, elder);
    es', w' := Extend(es, w, Message(c, Join(Some(room)), id));
  }

  lemma TwoJoined(a: string, b: string) returns (es: seq<Event>, w: World)
    requires a != b
    ensures Reached(es, w) && w.status == THREE_SOCKETS && w.used == {a, b}
    ensures w.server == Server(map["r" := [a, b]], map[a := Peer(a, 0, "r"), b := Peer(b, 1, "r")], map[0 := a, 1 := b],
                               {0, 1, 2}, map[0 := [Joined(a, []), PeerJoined(b)], 1 := [Joined(b, [a])]], false)
  {
    es, w := OneJoined(a);
    es, w := JoinNext(es, w, 1, "r", b, a);
    assert [] + [Joined(b, [a])] == [Joined(b, [a])];
    assert [Joined(a, [])] + [PeerJoined(b)] == [Joined(a, []), PeerJoined(b)];
  }

  lemma ElderLeaves(s: Server, elder: string, other: string, room: string)
    requires elder != other && elder in s.peers && other in s.peers && s.peers[elder].room == room
    requires room in s.rooms && s.rooms[room] == [elder, other]
    ensures RemovePeer(s, elder) ==
            s.(rooms := s.rooms[room := [other]], peers := s.peers - {elder},
               outbox := Send(s.open, s.outbox, s.peers[other].conn, PeerLeft(elder)))
  {
    WithoutOne([elder, other], elder);
    TellOne(s.open, s.outbox, s.peers, other, PeerLeft(elder));
  }

  /** The run that goes on with the elder of two saying bye. */
  lemma ByeNext(es: seq<Event>, w: World, c: Conn, uuid: string, elder: string, other: string, room: string)
    returns (es': seq<Event>, w': World)
    requires Reached(es, w) && Enabled(w, Message(c, Bye, uuid)) && c in w.server.joined && w.server.joined[c] == elder
    requires elder != other && elder in w.server.peers && other in w.server.peers && w.server.peers[elder].room == room
    requires room in w.server.rooms && w.server.rooms[room] == [elder, other]
             && w.server.peers[other].conn in w.server.open
    ensures Reached(es', w') && w'.status == w.status && w'.used == w.used + {uuid}
    ensures var s := w.server;
            w'.server == s.(rooms := s.rooms[room := [other]], peers := s.peers - {elder}, joined := s.joined - {c},
                            outbox := Post(s.outbox, s.peers[other].conn, PeerLeft(elder)))
  {
    ElderLeaves(w.server, elder, other, room);
    es', w' := Extend(es, w, Message(c, Bye, uuid));
  }

  lemma OneLeft(a: string, b: string, x: string) returns (es: seq<Event>, w: World)
    requires a != b && x != a && x != b
    ensures Reached(es, w) && w.status == THREE_SOCKETS && w.used == {a, b, x}
    ensures "r" in w.server.rooms && w.server.rooms["r"] == [b] && w.server.open == {0, 1, 2}
    ensures b in w.server.peers && w.server.peers[b].conn == 1 && 2 !in w.server.joined
    ensures Out(w.server.outbox, 1) == [Joined(b, [a]), PeerLeft(a)] && Out(w.server.outbox, 2) == []
  {
    es, w := TwoJoined(a, b);
    es, w := ByeNext(es, w, 0, x, a, b, "r");
    assert [Joined(b, [a])] + [PeerLeft(a)] == [Joined(b, [a]), PeerLeft(a)];
  }

  lemma ThirdJoined(a: string, b: string, c: string, x: string) returns (es: seq<Event>, w: World)
    requires a != b && c != a && c != b && x != a && x != b && x != c
    ensures Reached(es, w) && "r" in w.server.rooms && w.server.rooms["r"] == [b, c] && w.server.open == {0, 1, 2}
    ensures b in w.server.peers && w.server.peers[b].conn == 1
    ensures c in w.server.peers && w.server.peers[c].conn == 2
    ensures Out(w.server.outbox, 1) == [Joined(b, [a]), PeerLeft(a), PeerJoined(c)]
    ensures Out(w.server.outbox, 2) == [Joined(c, [b])]
  {
    es, w := OneLeft(a, b, x);
    es, w := JoinNext(es, w, 2, "r", c, b);
    assert [] + [Joined(c, [b])] == [Joined(c, [b])];
    assert [Joined(b, [a]), PeerLeft(a)] + [PeerJoined(c)] == [Joined(b, [a]), PeerLeft(a), PeerJoined(c)];
  }

  /** One joins, one more, the first leaves, a third joins: the room is full and both members are answerers. */
  lemma BothAnswer(a: string, b: string, c: string, x: string)
    returns (es: seq<Event>, w: World, first: seq<ServerMessage>, second: seq<ServerMessage>)
    requires a != b && c != a && c != b && x != a && x != b && x != c
    ensures Reached(es, w) && "r" in w.server.rooms && w.server.rooms["r"] == [b, c]
    ensures Stays(w, b, first) && Stays(w, c, second)
    ensures Choose(first) == Choose(second) == Chosen(Answerer)
  {
    es, w := ThirdJoined(a, b, c, x);
    first, second := [Joined(b, [a]), PeerLeft(a), PeerJoined(c)], [Joined(c, [b])];
    FirstStay(first);
    FirstStay(second);
  }
}
