/** A concrete history of the room, worked through stage by stage, each stage proved. */
module Scenarios {
  import opened Wrappers
  import opened Messages
  import opened Clients
  import opened ChatRooms

  /*
   * The history: alice joins (at time 1), bob joins (2), alice sends "hello"
   * (3), bob retrieves, bob leaves (4), alice retrieves, and bob's consumer
   * retrieves once more on the client it still holds.
   */

  /*
   * Each stage below falls back to an earlier state when a precondition or a
   * success would fail; the staging lemmas show those fallback branches are
   * never taken, so they are not behaviour of the room.
   */

  const Hello: Message := Message("alice", "hello", 3)

  function AliceJoined(): ChatRoom {
    var r := Join(NewChatRoom(), "alice", 1);
    if r.Ok? then r.value else NewChatRoom()
  }

  function BobJoined(): ChatRoom {
    var before := AliceJoined();
    if AllOpen(before) then
      var r := Join(before, "bob", 2);
      if r.Ok? then r.value else before
    else before
  }

  function HelloSent(): ChatRoom {
    var before := BobJoined();
    if AllOpen(before) then
      var r := Send(before, "alice", "hello", 3);
      if r.Ok? then r.value else before
    else before
  }

  function BobRetrieved(): Result<Receipt, RoomError> {
    var before := HelloSent();
    if AllOpen(before) then Receive(before, "bob") else Err(MemberNotFound("bob"))
  }

  function BobLeft(): Departure {
    var before := BobRetrieved();
    if before.Ok? && AllOpen(before.value.room) then Leave(before.value.room, "bob", 4)
    else Departure(false, HelloSent(), None)
  }

  lemma AliceJoinsEmptyRoom()
    ensures Join(NewChatRoom(), "alice", 1).Ok?
    ensures Valid(AliceJoined()) && AliceJoined().clients.Keys == {"alice"}
    ensures AliceJoined().clients["alice"].queue == [JoinNotice("alice", 1)]
  {
  }

  lemma BobJoinsAfterAlice()
    ensures Join(AliceJoined(), "bob", 2).Ok?
    ensures Valid(BobJoined()) && BobJoined().clients.Keys == {"alice", "bob"}
    ensures BobJoined().clients["alice"].queue == [JoinNotice("alice", 1), JoinNotice("bob", 2)]
    ensures BobJoined().clients["bob"].queue == [JoinNotice("bob", 2)]
  {
    AliceJoinsEmptyRoom();
    var before := AliceJoined();
    var r := Join(before, "bob", 2);
    assert Received(before.clients["alice"], r.value.clients["alice"], JoinNotice("bob", 2));
  }

  lemma AliceSendsHello()
    ensures Send(BobJoined(), "alice", "hello", 3).Ok?
    ensures Valid(HelloSent()) && HelloSent().clients.Keys == {"alice", "bob"}
    ensures HelloSent().clients["alice"].queue == [JoinNotice("alice", 1), JoinNotice("bob", 2), Hello]
    ensures HelloSent().clients["bob"].queue == [JoinNotice("bob", 2), Hello]
  {
    BobJoinsAfterAlice();
    var before := BobJoined();
    var r := Send(before, "alice", "hello", 3);
    assert Received(before.clients["alice"], r.value.clients["alice"], Hello);
    assert Received(before.clients["bob"], r.value.clients["bob"], Hello);
  }

  lemma BobRetrievesAfterHello()
    ensures BobRetrieved().Ok? && BobRetrieved().value.ok
    ensures BobRetrieved().value.messages == [JoinNotice("bob", 2), Hello]
    ensures Valid(BobRetrieved().value.room)
    ensures BobRetrieved().value.room.clients.Keys == {"alice", "bob"}
    ensures BobRetrieved().value.room.clients["alice"] == HelloSent().clients["alice"]
    ensures BobRetrieved().value.room.clients["bob"].queue == []
  {
    AliceSendsHello();
  }

  /** A remaining member with room in its buffer gets the leave notice at the end of it. */
  lemma LeaveDelivers(room: ChatRoom, id: string, now: Timestamp, k: string)
    requires AllOpen(room) && id in room.clients && k in room.clients && k != id
    requires !room.clients[k].Full()
    ensures Leave(room, id, now).found && k in Leave(room, id, now).room.clients
    ensures Leave(room, id, now).room.clients[k].queue == room.clients[k].queue + [LeaveNotice(id, now)]
  {
    var d := Leave(room, id, now);
    assert Received(room.clients[k], d.room.clients[k], LeaveNotice(id, now));
  }

  lemma BobLeavesAfterRetrieving()
    ensures BobLeft().found && BobLeft().departed.Some?
    ensures BobLeft().departed.value.closed && BobLeft().departed.value.queue == []
    ensures "alice" in BobLeft().room.clients && AllOpen(BobLeft().room)
    ensures BobLeft().room.clients["alice"].queue
            == [JoinNotice("alice", 1), JoinNotice("bob", 2), Hello, LeaveNotice("bob", 4)]
  {
    BobRetrievesAfterHello();
    AliceSendsHello();
    LeaveDelivers(BobRetrieved().value.room, "bob", 4, "alice");
  }

  /**
   * Bob's batch holds his own join notice and then alice's message (he joined
   * after her, so he never saw her join); alice, who never drained, then
   * gets everything in order, bob's leave notice last; bob's held client,
   * closed and empty, reports the disconnection.
   */
  lemma AliceAndBob()
    ensures BobRetrieved().Ok? && BobRetrieved().value.ok
    ensures BobRetrieved().value.messages == [JoinNotice("bob", 2), Message("alice", "hello", 3)]
    ensures BobLeft().found
    ensures Receive(BobLeft().room, "alice").Ok?
    ensures Receive(BobLeft().room, "alice").value.ok
    ensures Receive(BobLeft().room, "alice").value.messages
            == [JoinNotice("alice", 1), JoinNotice("bob", 2),
                Message("alice", "hello", 3), LeaveNotice("bob", 4)]
    ensures BobLeft().departed.Some?
    ensures !GetMessages(BobLeft().departed.value).ok
    ensures GetMessages(BobLeft().departed.value).messages == []
  {
    BobRetrievesAfterHello();
    BobLeavesAfterRetrieving();
  }
}
