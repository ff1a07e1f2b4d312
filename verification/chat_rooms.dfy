/**
 * The room: its membership table and the three transitions its control loop
 * performs one at a time (join, leave, broadcast), each an atomic step here,
 * plus the lookups the HTTP boundary makes against it.
 */
module ChatRooms {
  import opened Wrappers
  import opened Messages
  import opened Clients

  /** The room's only persistent state: the table from id to client. */
  datatype ChatRoom = ChatRoom(clients: map<string, Client>)

  /** The errors a caller of the room can be given. */
  datatype RoomError = DuplicateMember(id: string) | MemberNotFound(id: string)

  /** What Leave hands back: whether the id was found, the room after the step, and the client it closed. */
  datatype Departure = Departure(found: bool, room: ChatRoom, departed: Option<Client>)

  /** Every client in the table is open: fan-out would otherwise panic on a closed channel. */
  predicate AllOpen(room: ChatRoom) {
    forall id :: id in room.clients ==> !room.clients[id].closed
  }

  /** A well-formed entry: filed under its own id, open, with a buffer of `Capacity` that is not overfull. */
  predicate WellFormedMember(id: string, c: Client) {
    c.id == id && !c.closed && c.capacity == Capacity && c.Bounded()
  }

  /** The room invariant every step preserves. */
  predicate Valid(room: ChatRoom) {
    forall id :: id in room.clients ==> WellFormedMember(id, room.clients[id])
  }

  /** NewChatRoom: an empty table. */
  function NewChatRoom(): (room: ChatRoom)
    ensures Valid(room) && |room.clients| == 0
  {
    ChatRoom(map[])
  }

  /**
   * broadcastMessage: a non-blocking send of `msg` to every member in the
   * table; a member whose buffer is full misses it, silently.
   */
  function BroadcastMessage(room: ChatRoom, msg: Message): (r: ChatRoom)
    requires AllOpen(room)
    ensures r.clients.Keys == room.clients.Keys
    ensures forall id :: id in room.clients ==> Received(room.clients[id], r.clients[id], msg)
    ensures AllOpen(r)
    ensures Valid(room) ==> Valid(r)
  {
    ChatRoom(map id | id in room.clients :: TrySend(room.clients[id], msg))
  }

  /**
   * Join: refuses an id already in the table; otherwise files a fresh client
   * under it and broadcasts the join notice to the resulting membership, the
   * joiner included. The existence check and the insertion are one step here.
   */
  function Join(room: ChatRoom, id: string, now: Timestamp): (r: Result<ChatRoom, RoomError>)
    requires AllOpen(room)
    ensures r.Err? <==> id in room.clients
    ensures r.Err? ==> r.error == DuplicateMember(id)
    ensures r.Ok? ==> r.value.clients.Keys == room.clients.Keys + {id}
    ensures r.Ok? ==> r.value.clients[id] == NewClient(id).(queue := [JoinNotice(id, now)])
    ensures r.Ok? ==> forall k :: k in room.clients ==>
              Received(room.clients[k], r.value.clients[k], JoinNotice(id, now))
    ensures r.Ok? ==> AllOpen(r.value)
    ensures r.Ok? && Valid(room) ==> Valid(r.value)
  {
    if id in room.clients then
      Err(DuplicateMember(id))
    else
      var joined := ChatRoom(room.clients[id := NewClient(id)]);
      assert joined.clients[id] == NewClient(id);
      Ok(BroadcastMessage(joined, JoinNotice(id, now)))
  }

  /**
   * Leave: reports whether `id` was a member. If it was, removes it, closes
   * its client and only then broadcasts the leave notice, so the leaver is
   * not among the receivers.
   */
  function Leave(room: ChatRoom, id: string, now: Timestamp): (r: Departure)
    requires AllOpen(room)
    ensures r.found <==> id in room.clients
    ensures !r.found ==> r.room == room && r.departed == None
    ensures r.found ==> r.room.clients.Keys == room.clients.Keys - {id}
    ensures r.found ==> r.departed == Some(room.clients[id].(closed := true))
    ensures r.found ==> forall k :: k in r.room.clients ==>
              Received(room.clients[k], r.room.clients[k], LeaveNotice(id, now))
    ensures AllOpen(r.room)
    ensures Valid(room) ==> Valid(r.room)
  {
    if id !in room.clients then
      Departure(false, room, None)
    else
      var closed := Close(room.clients[id]);
      var remaining := ChatRoom(room.clients - {id});
      Departure(true, BroadcastMessage(remaining, LeaveNotice(id, now)), Some(closed))
  }

  /**
   * Broadcast: stamps a message from `senderId` and fans it out. It never
   * fails and never changes who is a member; the sender need not be one.
   */
  function Broadcast(room: ChatRoom, senderId: string, content: string, now: Timestamp): (r: ChatRoom)
    requires AllOpen(room)
    ensures r.clients.Keys == room.clients.Keys
    ensures forall id :: id in room.clients ==>
              Received(room.clients[id], r.clients[id], Message(senderId, content, now))
    ensures AllOpen(r)
    ensures Valid(room) ==> Valid(r)
  {
    BroadcastMessage(room, Message(senderId, content, now))
  }

  /** GetClient: the client filed under `id`, if any. */
  function GetClient(room: ChatRoom, id: string): (r: Option<Client>)
    ensures r.Some? <==> id in room.clients
    ensures r.Some? ==> r.value == room.clients[id]
  {
    if id in room.clients then Some(room.clients[id]) else None
  }

  /** Send, as the HTTP boundary does it: only a current member may broadcast. */
  function Send(room: ChatRoom, id: string, content: string, now: Timestamp): (r: Result<ChatRoom, RoomError>)
    requires AllOpen(room)
    ensures r.Err? <==> id !in room.clients
    ensures r.Err? ==> r.error == MemberNotFound(id)
    ensures r.Ok? ==> r.value == Broadcast(room, id, content, now)
  {
    match GetClient(room, id)
    case None => Err(MemberNotFound(id))
    case Some(_) => Ok(Broadcast(room, id, content, now))
  }

  /** What a member's retrieval hands back: the batch, the `ok` flag and the room afterwards. */
  datatype Receipt = Receipt(messages: seq<Message>, ok: bool, room: ChatRoom)

  /**
   * Receive, as the HTTP boundary does it: look the member up, then run
   * GetMessages on its client. A member of the table is open, so it always
   * comes back `ok`: the whole buffer, oldest first, leaving it empty.
   */
  function Receive(room: ChatRoom, id: string): (r: Result<Receipt, RoomError>)
    requires AllOpen(room)
    ensures r.Err? <==> id !in room.clients
    ensures r.Err? ==> r.error == MemberNotFound(id)
    ensures r.Ok? ==> r.value.ok && r.value.messages == room.clients[id].queue
    ensures r.Ok? ==> r.value.room.clients == room.clients[id := room.clients[id].(queue := [])]
    ensures r.Ok? ==> AllOpen(r.value.room)
    ensures r.Ok? && Valid(room) ==> Valid(r.value.room)
  {
    match GetClient(room, id)
    case None => Err(MemberNotFound(id))
    case Some(c) =>
      var got := GetMessages(c);
      Ok(Receipt(got.messages, got.ok, ChatRoom(room.clients[id := got.after])))
  }
}
