/** The signal server as it runs: two maps and the connections' variables, updated in place by the event handlers. */
module SignalServer {
  import opened Primitives
  import opened Signal

  class SignalServer {
    var rooms: Rooms
    var peers: Peers
    var joined: map<Conn, string>
    var open: set<Conn>
    var outbox: Outbox
    var crashed: bool

    ghost function View(): Server
      reads this
    {
      Server(rooms, peers, joined, open, outbox, crashed)
    }

    constructor ()
      ensures View() == EMPTY.server
    {
      rooms, peers, joined, open, outbox, crashed := map[], map[], map[], {}, map[], false;
    }

    method Send(c: Conn, m: ServerMessage)
      modifies this`outbox
      ensures Out(outbox, c) == if c in open then Out(old(outbox), c) + [m] else Out(old(outbox), c)
      ensures outbox == Signal.Send(open, old(outbox), c, m)
    {
      if c in open {
        outbox := outbox[c := (if c in outbox then outbox[c] else []) + [m]];
      }
    }

    /** The loop that notifies every listed peer still known. */
    method Notify(ids: seq<string>, m: ServerMessage)
      modifies this`outbox
      ensures outbox == Tell(open, old(outbox), peers, ids, m)
    {
      var i := 0;
      while i < |ids|
        invariant i <= |ids| && outbox == Tell(open, old(outbox), peers, ids[..i], m)
      {
        if ids[i] in peers {
          Send(peers[ids[i]].conn, m);
        }
        assert ids[..i + 1][..i] == ids[..i];
        i := i + 1;
      }
      assert ids[..i] == ids;
    }

    method OtherPeer(id: string, room: string) returns (other: Option<Peer>)
      ensures other == GetOtherPeer(View(), id, room)
    {
      if room !in rooms {
        return None;
      }
      var ids, i := rooms[room], 0;
      while i < |ids|
        invariant i <= |ids| && FirstOther(ids, id) == FirstOther(ids[i..], id)
      {
        if ids[i] != id {
          return Lookup(peers, ids[i]);
        }
        i := i + 1;
      }
      return None;
    }

    method Remove(id: string)
      modifies this`rooms, this`outbox, this`peers
      ensures View() == RemovePeer(old(View()), id)
    {
      if id !in peers {
        return;
      }
      var room := peers[id].room;
      if room in rooms {
        rooms := rooms[room := Without(rooms[room], id)];
        if |rooms[room]| == 0 {
          rooms := rooms - {room};
          assert rooms == old(rooms) - {room};
        } else {
          Notify(rooms[room], PeerLeft(id));
        }
      }
      peers := peers - {id};
    }

    method HandleJoin(c: Conn, room: Option<string>, id: string)
      modifies this
      ensures View() == OnJoin(old(View()), c, room, id)
    {
      if c in joined {
        Send(c, Error("already joined a room"));
        return;
      }
      if room.None? || room.value == "" {
        Send(c, Error("room name required"));
        return;
      }
      var name := room.value;
      if name in rooms && |rooms[name]| >= MAX_ROOM_SIZE {
        Send(c, Error(FullMessage(name)));
        return;
      }
      Admit(c, name, id);
    }

    /** The rest of a join that is not refused. */
    method Admit(c: Conn, name: string, id: string)
      modifies this
      ensures View() == Enter(old(View()), c, name, id)
    {
      joined := joined[c := id];
      peers := peers[id := Peer(id, c, name)];
      if name !in rooms {
        rooms := rooms[name := []];
      }
      var existing := rooms[name];
      rooms := rooms[name := existing + [id]];
      Send(c, Joined(id, existing));
      Notify(existing, PeerJoined(id));
      Overwritten(old(rooms), name, [], existing + [id]);
    }

    method HandleRelay(c: Conn, m: ClientMessage)
      requires m.SendOffer? || m.SendAnswer? || m.SendCandidate?
      modifies this
      ensures View() == Relay(old(View()), c, m)
    {
      if c !in joined {
        Send(c, Error("must join a room first"));
        return;
      }
      var id := joined[c];
      if id !in peers {
        crashed := true;
        return;
      }
      var other := OtherPeer(id, peers[id].room);
      if other.Some? {
        Send(other.value.conn, Stamped(m, id));
      }
    }

    method HandleMessage(c: Conn, m: ClientMessage, id: string)
      modifies this
      ensures View() == OnMessage(old(View()), c, m, id)
    {
      match m {
        case NotJson => Send(c, Error("invalid JSON"));
        case Join(room) => HandleJoin(c, room, id);
        case Bye =>
          if c in joined {
            Remove(joined[c]);
            joined := joined - {c};
          }
        case Unknown => Send(c, Error("unknown message type"));
        case _ => HandleRelay(c, m);
      }
    }

    /** The `close` and the `error` handler. */
    method HandleGone(c: Conn)
      modifies this
      ensures View() == OnGone(old(View()), c)
    {
      if c in joined {
        Remove(joined[c]);
      }
    }
  }

  lemma Overwritten<K, V>(m: map<K, V>, k: K, before: V, after: V)
    ensures m[k := before][k := after] == m[k := after]
  {
  }
}
