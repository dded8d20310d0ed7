/**
 * The Socket.IO room registry of the server: `joinProject` puts a session
 * into the room of a project, and `taskUpdated` / `taskCreated` are relayed
 * unchanged to every session of the room named by the payload.
 */
module SocketServer {
  import TaskModel

  type SessionId = string

  /** The two relayed event names. */
  datatype EventName = TaskCreated | TaskUpdated

  /** The payload the client sends: `{ projectId, task }`. */
  datatype EventData = EventData(projectId: string, task: TaskModel.Task)

  /** One event as a session receives it. */
  datatype Emitted = Emitted(name: EventName, data: EventData)

  const RoomPrefix := "project-"

  /** `project-${projectId}` */
  function RoomName(projectId: string): string {
    RoomPrefix + projectId
  }

  /** Distinct projects have distinct rooms. */
  lemma RoomNameInjective(p: string, q: string)
    ensures RoomName(p) == RoomName(q) ==> p == q
  {
    if RoomName(p) == RoomName(q) {
      assert p == RoomName(p)[|RoomPrefix|..];
      assert q == RoomName(q)[|RoomPrefix|..];
    }
  }

  /** What a session has received so far; nothing for a session never reached. */
  function Inbox(inboxes: map<SessionId, seq<Emitted>>, s: SessionId): seq<Emitted> {
    if s in inboxes then inboxes[s] else []
  }

  /** Delivering `ev` to the sessions `to`: each of them gets it last, nobody else gets anything. */
  function Deliver(inboxes: map<SessionId, seq<Emitted>>, to: set<SessionId>, ev: Emitted)
    : (r: map<SessionId, seq<Emitted>>)
    ensures forall s :: s in r <==> s in inboxes || s in to
    ensures forall s :: s in to ==> Inbox(r, s) == Inbox(inboxes, s) + [ev]
    ensures forall s :: s !in to ==> Inbox(r, s) == Inbox(inboxes, s)
  {
    map s | s in inboxes.Keys + to :: if s in to then Inbox(inboxes, s) + [ev] else inboxes[s]
  }

  /** Two relays reach a common recipient in the order they were sent. */
  lemma {:induction false} DeliverInOrder(inboxes: map<SessionId, seq<Emitted>>, first: set<SessionId>,
                                          second: set<SessionId>, e1: Emitted, e2: Emitted, s: SessionId)
    requires s in first && s in second
    ensures Inbox(Deliver(Deliver(inboxes, first, e1), second, e2), s) == Inbox(inboxes, s) + [e1, e2]
  {
    var mid := Deliver(inboxes, first, e1);
    assert Inbox(mid, s) == Inbox(inboxes, s) + [e1];
    assert Inbox(Deliver(mid, second, e2), s) == Inbox(mid, s) + [e2];
    assert Inbox(inboxes, s) + [e1] + [e2] == Inbox(inboxes, s) + [e1, e2];
  }

  class Server {
    /** The sessions of each room (Socket.IO's adapter state). */
    var rooms: map<string, set<SessionId>>
    /** Everything each session has been sent, oldest first. */
    var inboxes: map<SessionId, seq<Emitted>>

    constructor ()
      ensures rooms == map[] && inboxes == map[]
    {
      rooms := map[];
      inboxes := map[];
    }

    /** The current sessions of `room`; an unknown room is empty. */
    function Members(room: string): set<SessionId>
      reads this
    {
      if room in rooms then rooms[room] else {}
    }

    /**
     * `socket.on('joinProject', projectId)`: the session joins the project's
     * room and no other room changes. There is no membership check.
     */
    method JoinProject(session: SessionId, projectId: string)
      modifies this
      ensures Members(RoomName(projectId)) == old(Members(RoomName(projectId))) + {session}
      ensures forall q :: q != projectId ==> Members(RoomName(q)) == old(Members(RoomName(q)))
      ensures rooms == old(rooms)[RoomName(projectId) := old(Members(RoomName(projectId))) + {session}]
      ensures inboxes == old(inboxes)
    {
      var room := RoomName(projectId);
      rooms := rooms[room := Members(room) + {session}];
      forall q | q != projectId
        ensures Members(RoomName(q)) == old(Members(RoomName(q)))
      {
        RoomNameInjective(q, projectId);
      }
    }

    /**
     * `io.to(room).emit(name, data)`: every session in the payload's project
     * room, the sender included, receives the event with its name and data
     * unchanged; whom it reaches does not depend on the sender.
     */
    method Relay(name: EventName, data: EventData) returns (delivered: set<SessionId>)
      modifies this
      ensures delivered == old(Members(RoomName(data.projectId)))
      ensures inboxes == Deliver(old(inboxes), delivered, Emitted(name, data))
      ensures rooms == old(rooms)
    {
      delivered := Members(RoomName(data.projectId));
      inboxes := Deliver(inboxes, delivered, Emitted(name, data));
    }

    /** `socket.on('taskUpdated', data)`: relayed to the payload's room; the sender is not checked. */
    method OnTaskUpdated(sender: SessionId, data: EventData) returns (delivered: set<SessionId>)
      modifies this
      ensures delivered == old(Members(RoomName(data.projectId)))
      ensures inboxes == Deliver(old(inboxes), delivered, Emitted(TaskUpdated, data))
      ensures rooms == old(rooms)
    {
      delivered := Relay(TaskUpdated, data);
    }

    /** `socket.on('taskCreated', data)`: relayed the same way to the same room. */
    method OnTaskCreated(sender: SessionId, data: EventData) returns (delivered: set<SessionId>)
      modifies this
      ensures delivered == old(Members(RoomName(data.projectId)))
      ensures inboxes == Deliver(old(inboxes), delivered, Emitted(TaskCreated, data))
      ensures rooms == old(rooms)
    {
      delivered := Relay(TaskCreated, data);
    }
  }

  /**
   * A session that joined a project's room receives the next relay for that
   * project, even when the sender never joined it; a session in no room
   * receives nothing.
   */
  method JoinThenRelay(server: Server, viewer: SessionId, sender: SessionId, stranger: SessionId,
                       data: EventData)
    requires forall room :: room in server.rooms ==> stranger !in server.rooms[room]
    requires stranger != viewer
    modifies server
    ensures Inbox(server.inboxes, viewer) == Inbox(old(server.inboxes), viewer) + [Emitted(TaskUpdated, data)]
    ensures Inbox(server.inboxes, stranger) == Inbox(old(server.inboxes), stranger)
  {
    server.JoinProject(viewer, data.projectId);
    var delivered := server.OnTaskUpdated(sender, data);
    assert viewer in delivered;
    assert stranger !in delivered;
  }
}
