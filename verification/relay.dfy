/** The WebSocket relay of the backend (backend/app/main.py, `room_ws`): a
    registry from room id to the set of open connections, and the handling
    of one received text frame. Connections are identified by number; each
    received frame is one sequential step. */
module Relay {
  import opened Common
  import RoomService

  type Conn = nat

  /** A received text frame: not JSON at all, or a JSON object whose members
      are strings. */
  datatype Frame = Malformed | Object(members: map<string, string>)

  /** The frames the relay sends to peers. */
  datatype OutFrame = CodeFrame(code: string) | TaskFrame(task: string)

  /** One successful send of `frame` to connection `to`. */
  datatype Delivery = Delivery(to: Conn, frame: OutFrame)

  /** What a received frame asks for: nothing, or persisting and relaying a
      new code or task text. */
  datatype Action = Ignore | RelayCode(code: string) | RelayTask(task: string)

  /** The dispatch on the frame's `type` member: a malformed frame and every
      type other than "code_update" and "task_update" are ignored; a missing
      code or task member reads as "". */
  function Dispatch(frame: Frame): (a: Action)
    ensures a.Ignore? <==>
      frame.Malformed? ||
      ("type" in frame.members ==> frame.members["type"] != "code_update" && frame.members["type"] != "task_update")
    ensures a.RelayCode? <==> frame.Object? && "type" in frame.members && frame.members["type"] == "code_update"
    ensures a.RelayCode? ==> a.code == GetOr(frame.members, "code", "")
    ensures a.RelayTask? <==> frame.Object? && "type" in frame.members && frame.members["type"] == "task_update"
    ensures a.RelayTask? ==> a.task == GetOr(frame.members, "task", "")
  {
    match frame
    case Malformed => Ignore
    case Object(m) =>
      if "type" in m && m["type"] == "code_update" then RelayCode(GetOr(m, "code", ""))
      else if "type" in m && m["type"] == "task_update" then RelayTask(GetOr(m, "task", ""))
      else Ignore
  }

  /** The peers a relay reaches: every registered connection other than the
      sender whose send does not fail. */
  function Recipients(peers: set<Conn>, sender: Conn, failing: set<Conn>): (r: set<Conn>)
    ensures r <= peers && sender !in r && r !! failing
    ensures forall c :: c in peers && c != sender && c !in failing ==> c in r
  {
    set c | c in peers && c != sender && c !in failing
  }

  /** One delivery of `frame` to each connection of `to`. */
  function Deliveries(to: set<Conn>, frame: OutFrame): multiset<Delivery> {
    multiset(set c | c in to :: Delivery(c, frame))
  }

  /** Adding one connection to the reached set adds exactly its delivery. */
  lemma DeliveriesAddOne(to: set<Conn>, c: Conn, frame: OutFrame)
    requires c !in to
    ensures Deliveries(to + {c}, frame) == Deliveries(to, frame) + multiset{Delivery(c, frame)}
  {
    var s := set x | x in to :: Delivery(x, frame);
    var s' := set x | x in to + {c} :: Delivery(x, frame);
    assert s' == s + {Delivery(c, frame)};
    assert Delivery(c, frame) !in s;
  }

  /** Taking one more connection out of the unvisited set adds it to the
      reached set exactly when it is a peer other than the sender that does
      not fail. */
  lemma RecipientsStep(peers: set<Conn>, remaining: set<Conn>, ws: Conn, sender: Conn, failing: set<Conn>)
    requires remaining <= peers && ws in remaining
    ensures ws !in Recipients(peers - remaining, sender, failing)
    ensures Recipients(peers - (remaining - {ws}), sender, failing) ==
      if ws != sender && ws !in failing then Recipients(peers - remaining, sender, failing) + {ws}
      else Recipients(peers - remaining, sender, failing)
  {
    assert peers - (remaining - {ws}) == (peers - remaining) + {ws};
  }

  class RelayHub {
    /** `rooms_ws`: room id to the set of its open connections. */
    var roomsWs: map<string, set<Conn>>
    /** Every frame sent so far, to whom. */
    var delivered: multiset<Delivery>
    const store: RoomService.RoomStore

    constructor (store: RoomService.RoomStore)
      ensures this.store == store
      ensures roomsWs == map[] && delivered == multiset{}
    {
      this.store := store;
      roomsWs := map[];
      delivered := multiset{};
    }

    /** The connections registered for a room ([] when none ever joined). */
    function Peers(roomId: string): (ps: set<Conn>)
      reads this
      ensures roomId !in roomsWs ==> ps == {}
      ensures roomId in roomsWs ==> ps == roomsWs[roomId]
    {
      if roomId in roomsWs then roomsWs[roomId] else {}
    }

    /** On connect: the connection joins its room's set, creating the set if
        the room has none. */
    method Accept(roomId: string, conn: Conn)
      modifies this`roomsWs
      ensures roomsWs == old(roomsWs)[roomId := old(Peers(roomId)) + {conn}]
    {
      if roomId !in roomsWs {
        roomsWs := roomsWs[roomId := {}];
      }
      roomsWs := roomsWs[roomId := roomsWs[roomId] + {conn}];
    }

    /** Sends `frame` to every connection of the room except the sender; a
        failing send is swallowed and the loop goes on with the others. */
    method Broadcast(roomId: string, sender: Conn, frame: OutFrame, failing: set<Conn>)
      modifies this`delivered
      ensures delivered == old(delivered) + Deliveries(Recipients(Peers(roomId), sender, failing), frame)
    {
      var peers := Peers(roomId);
      var remaining := peers;
      while remaining != {}
        invariant remaining <= peers
        invariant delivered == old(delivered) + Deliveries(Recipients(peers - remaining, sender, failing), frame)
        decreases remaining
      {
        var ws :| ws in remaining;
        var done := Recipients(peers - remaining, sender, failing);
        RecipientsStep(peers, remaining, ws, sender, failing);
        if ws != sender && ws !in failing {
          DeliveriesAddOne(done, ws, frame);
          delivered := delivered + multiset{Delivery(ws, frame)};
        }
        remaining := remaining - {ws};
      }
      assert peers - remaining == peers;
    }

    /** One received frame from `conn`: a code or task update is persisted
        through the room table (whether or not the room exists) and relayed to
        the room's other connections; anything else changes nothing. */
    method Receive(roomId: string, conn: Conn, frame: Frame, failing: set<Conn>)
      modifies this`delivered, store
      ensures roomsWs == old(roomsWs)
      ensures store.participants == old(store.participants)
      ensures Dispatch(frame).Ignore? ==> delivered == old(delivered) && store.rooms == old(store.rooms)
      ensures Dispatch(frame).RelayCode? ==>
        var c := Dispatch(frame).code;
        store.rooms == RoomService.UpdatedTable(old(store.rooms), roomId, RoomService.CodeField, c) &&
        delivered == old(delivered) + Deliveries(Recipients(Peers(roomId), conn, failing), CodeFrame(c))
      ensures Dispatch(frame).RelayTask? ==>
        var t := Dispatch(frame).task;
        store.rooms == RoomService.UpdatedTable(old(store.rooms), roomId, RoomService.TaskField, t) &&
        delivered == old(delivered) + Deliveries(Recipients(Peers(roomId), conn, failing), TaskFrame(t))
    {
      match Dispatch(frame)
      case Ignore =>
      case RelayCode(c) =>
        var _ := store.UpdateCode(roomId, c);
        Broadcast(roomId, conn, CodeFrame(c), failing);
      case RelayTask(t) =>
        var _ := store.UpdateTask(roomId, t);
        Broadcast(roomId, conn, TaskFrame(t), failing);
    }

    /** On disconnect: only that connection leaves its room's set; the set
        itself stays, even when it becomes empty. */
    method Disconnect(roomId: string, conn: Conn)
      requires roomId in roomsWs
      modifies this`roomsWs
      ensures roomsWs == old(roomsWs)[roomId := old(roomsWs)[roomId] - {conn}]
    {
      roomsWs := roomsWs[roomId := roomsWs[roomId] - {conn}];
    }
  }

  /** The sender never hears its own update, and every other peer whose send
      succeeds hears it exactly once. */
  lemma RelayReachesOthersOnce(peers: set<Conn>, sender: Conn, failing: set<Conn>, frame: OutFrame, c: Conn)
    ensures Deliveries(Recipients(peers, sender, failing), frame)[Delivery(sender, frame)] == 0
    ensures c in peers && c != sender && c !in failing ==>
      Deliveries(Recipients(peers, sender, failing), frame)[Delivery(c, frame)] == 1
  {
    var s := set x | x in Recipients(peers, sender, failing) :: Delivery(x, frame);
    assert Delivery(sender, frame) !in s;
    if c in peers && c != sender && c !in failing {
      assert Delivery(c, frame) in s;
    }
  }
}
