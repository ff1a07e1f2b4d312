/**
 * The room seen as a sequence of atomic steps: each turn of its single
 * control loop, and each consumer retrieval made between turns, is one
 * transition, and any history of them keeps the room invariant.
 */
module ControlLoop {
  import opened Wrappers
  import opened Messages
  import opened Clients
  import opened ChatRooms

  /**
   * One atomic step of the room's history: a turn of the control loop (a
   * join, a leave or a broadcast), or a member's consumer draining its own
   * client between turns, which does not pass through the loop.
   */
  datatype Event =
    | JoinEvent(id: string, now: Timestamp)
    | LeaveEvent(id: string, now: Timestamp)
    | BroadcastEvent(senderId: string, content: string, now: Timestamp)
    | ReceiveEvent(id: string)

  /** Reference definition of who is a member after one event: joins add, leaves remove, nothing else matters. */
  function MembersAfterEvent(ids: set<string>, e: Event): set<string> {
    match e
    case JoinEvent(id, _) => ids + {id}
    case LeaveEvent(id, _) => ids - {id}
    case BroadcastEvent(_, _, _) => ids
    case ReceiveEvent(_) => ids
  }

  /** Who is a member after a whole history of events. */
  function MembersAfter(ids: set<string>, events: seq<Event>): set<string>
    decreases |events|
  {
    if |events| == 0 then ids else MembersAfter(MembersAfterEvent(ids, events[0]), events[1..])
  }

  /**
   * One atomic step: a loop turn, or a consumer's retrieval between turns.
   * A refused join and a leave of a non-member
   * leave the room exactly as it was; so does a receive by a non-member.
   */
  function Step(room: ChatRoom, e: Event): (r: ChatRoom)
    requires Valid(room)
    ensures Valid(r)
    ensures r.clients.Keys == MembersAfterEvent(room.clients.Keys, e)
    ensures e.JoinEvent? && e.id in room.clients ==> r == room
    ensures e.LeaveEvent? && e.id !in room.clients ==> r == room
    ensures e.ReceiveEvent? && e.id !in room.clients ==> r == room
  {
    match e
    case JoinEvent(id, now) =>
      (match Join(room, id, now)
       case Err(_) => room
       case Ok(joined) => joined)
    case LeaveEvent(id, now) => Leave(room, id, now).room
    case BroadcastEvent(senderId, content, now) => Broadcast(room, senderId, content, now)
    case ReceiveEvent(id) =>
      (match Receive(room, id)
       case Err(_) => room
       case Ok(receipt) => receipt.room)
  }

  /**
   * A history of steps. Whatever the history, every member's client stays
   * filed under its own id, open, with a buffer of 100 holding at most 100
   * messages, and the membership is the one the reference definition predicts.
   */
  function Run(room: ChatRoom, events: seq<Event>): (r: ChatRoom)
    requires Valid(room)
    ensures Valid(r)
    ensures r.clients.Keys == MembersAfter(room.clients.Keys, events)
    decreases |events|
  {
    if |events| == 0 then room else Run(Step(room, events[0]), events[1..])
  }

  /** Joining twice with the same id: the second join is refused and changes nothing. */
  lemma JoinTwiceRefused(room: ChatRoom, id: string, t: Timestamp, u: Timestamp)
    requires Valid(room)
    ensures Join(room, id, t).Ok? <==> id !in room.clients
    ensures var once := Step(room, JoinEvent(id, t));
            Join(once, id, u) == Err(DuplicateMember(id)) && Step(once, JoinEvent(id, u)) == once
  {
  }

  /** Running three events is the three steps, one after the other. */
  lemma RunThree(room: ChatRoom, e0: Event, e1: Event, e2: Event)
    requires Valid(room)
    ensures Run(room, [e0, e1, e2]) == Step(Step(Step(room, e0), e1), e2)
  {
    var events := [e0, e1, e2];
    assert events[1..] == [e1, e2];
    assert [e1, e2][1..] == [e2];
    assert [e2][1..] == [];
    calc {
      Run(room, events);
      Run(Step(room, e0), [e1, e2]);
      Run(Step(Step(room, e0), e1), [e2]);
      Run(Step(Step(Step(room, e0), e1), e2), []);
    }
  }

  /**
   * Ordering: if a joins, then b joins, then anyone broadcasts, a's client
   * holds its own join notice, b's join notice and the broadcast, in that order.
   */
  lemma JoinJoinBroadcastOrder(room: ChatRoom, a: string, b: string, senderId: string,
                               content: string, t1: Timestamp, t2: Timestamp, t3: Timestamp)
    requires Valid(room) && a !in room.clients && b !in room.clients && a != b
    ensures var r := Run(room, [JoinEvent(a, t1), JoinEvent(b, t2), BroadcastEvent(senderId, content, t3)]);
            a in r.clients &&
            r.clients[a].queue == [JoinNotice(a, t1), JoinNotice(b, t2), Message(senderId, content, t3)]
  {
    RunThree(room, JoinEvent(a, t1), JoinEvent(b, t2), BroadcastEvent(senderId, content, t3));
    var r1 := Step(room, JoinEvent(a, t1));
    JoinGreetsJoiner(room, a, t1);
    var r2 := Step(r1, JoinEvent(b, t2));
    JoinDelivers(r1, b, t2, a);
    var r3 := Step(r2, BroadcastEvent(senderId, content, t3));
    BroadcastDelivers(r2, senderId, content, t3, a);
  }

  /** A newcomer's buffer starts out holding exactly its own join notice. */
  lemma JoinGreetsJoiner(room: ChatRoom, id: string, now: Timestamp)
    requires Valid(room) && id !in room.clients
    ensures id in Step(room, JoinEvent(id, now)).clients
    ensures Step(room, JoinEvent(id, now)).clients[id].queue == [JoinNotice(id, now)]
  {
  }

  /** A member with room in its buffer gets the join notice of a newcomer at the end of its buffer. */
  lemma JoinDelivers(room: ChatRoom, id: string, now: Timestamp, k: string)
    requires Valid(room) && id !in room.clients && k in room.clients && !room.clients[k].Full()
    ensures k in Step(room, JoinEvent(id, now)).clients
    ensures Step(room, JoinEvent(id, now)).clients[k].queue == room.clients[k].queue + [JoinNotice(id, now)]
  {
  }

  /** A member with room in its buffer gets a broadcast at the end of its buffer. */
  lemma BroadcastDelivers(room: ChatRoom, senderId: string, content: string, now: Timestamp, k: string)
    requires Valid(room) && k in room.clients && !room.clients[k].Full()
    ensures k in Step(room, BroadcastEvent(senderId, content, now)).clients
    ensures Step(room, BroadcastEvent(senderId, content, now)).clients[k].queue
            == room.clients[k].queue + [Message(senderId, content, now)]
  {
  }

  /**
   * The leaver never gets the leave notice: its closed client keeps exactly
   * what it had buffered, hands that over once (with `ok` exactly when there
   * was something buffered), and from then on reports the disconnection.
   */
  lemma LeaverKeepsBufferThenDisconnects(room: ChatRoom, id: string, now: Timestamp)
    requires Valid(room) && id in room.clients
    ensures var d := Leave(room, id, now);
            && d.departed.Some?
            && d.departed.value.queue == room.clients[id].queue
            && (GetMessages(d.departed.value).ok <==> |room.clients[id].queue| > 0)
            && GetMessages(d.departed.value).messages == room.clients[id].queue
            && !GetMessages(GetMessages(d.departed.value).after).ok
  {
  }
}
