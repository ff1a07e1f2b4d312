# Chat room model

A Dafny model of the room at the heart of a small long-polling chat server
(`pkg/chat`). The room keeps a table from member id to `Client`. Each client
has a buffered channel of 100 messages that can be closed. One control loop
serves three kinds of request, one at a time:

- **join** refuses an existing id. Otherwise it files a fresh client and
  tells everyone, the newcomer included, "User X has joined the chat".
- **leave** reports whether the id was a member. If it was, the loop
  removes it, closes its channel and then tells the remaining members
  "User X has left the chat".
- **broadcast** performs a non-blocking send to every member. A member whose
  buffer is full silently misses the message.

On the consumer side, `GetMessages` waits for a first message, then drains
whatever else is buffered without waiting.

Here every turn of the loop is one atomic, pure transition over immutable
values:

- `Messages`: `Message` and the two system notices.
- `Clients`: the client mailbox (`client.go`), the non-blocking send and
  close the room applies to it, and `GetMessages`.
- `ChatRooms`: `ChatRoom` with `Join`, `Leave`, `Broadcast`,
  `broadcastMessage` and `GetClient` (`chatRoom.go`). It also has the two
  boundary operations `Send` and `Receive`. These mirror the HTTP handlers'
  existence check before broadcasting or retrieving.
- `ControlLoop`: requests as `Event`s, one turn as `Step`, and a history as
  `Run`.
  - The room invariant `Valid` holds after any history. It says every member
    is filed under its own id, is open, has a buffer of 100 and holds at
    most 100 messages.
  - Membership after any history equals an independent reference definition
    (`MembersAfter`).
- `Scenarios`: a concrete alice/bob history worked through stage by stage, each stage proved.

The time of a message is an abstract `Timestamp` that the caller supplies.
The retrieval timeout is the branch "the client is open and its buffer is
empty".

Three facts about the code shape the model:

- The loop does not re-check for duplicates at insertion:
  `pkg/chat/chatRoom.go:45` overwrites. `Join` is modelled as an atomic
  check-then-insert, and nothing is claimed about two concurrent joins of
  one id.
- Fan-out sends to every client in the table (`pkg/chat/chatRoom.go:95`),
  and `Valid` shows all of them are open.
- `ChatRoom.Join` accepts the empty id; only `JoinHandler` refuses it
  (`pkg/api/handlers.go:26`). The model follows `ChatRoom.Join`.

## Model

| member | source | states |
|---|---|---|
| Messages.JoinNotice | pkg/chat/chatRoom.go:50-54 | the join notice comes from "System" and carries the given time; its text is "User ", then the member id, then " has joined the chat" |
| Messages.LeaveNotice | pkg/chat/chatRoom.go:76-80 | the leave notice comes from "System" and carries the given time; its text is "User ", then the member id, then " has left the chat" |
| Messages.JoinNoticeNamesMember | pkg/chat/chatRoom.go:52 | equal join notices name the same member at the same time: the notice identifies the joiner |
| Messages.LeaveNoticeNamesMember | pkg/chat/chatRoom.go:78 | equal leave notices name the same member at the same time |
| Messages.JoinNoticeIsNotLeaveNotice | pkg/chat/chatRoom.go:50-80 | no join notice equals any leave notice, whatever the ids and times |
| Clients.NewClient | pkg/chat/client.go:14-18 | a new client has the given id, an empty buffer of capacity 100, and is open |
| Clients.TrySend | pkg/chat/chatRoom.go:97-103 | a non-blocking send to an open client appends the message when the buffer has room and leaves the client unchanged when it is full; id, capacity and open state are kept, and so is the capacity bound |
| Clients.Close | pkg/chat/chatRoom.go:66 | closing marks the client closed and keeps its id, its buffered messages and its capacity |
| Clients.DrainFrom | pkg/chat/client.go:41-52 | the non-blocking drain loop returns the batch so far followed by every pending message, in order |
| Clients.GetMessages | pkg/chat/client.go:22-54 | the result is `ok` exactly when the client is open or still has something buffered; the batch is the whole buffer in enqueue order (empty on timeout and on a closed, drained client); the buffer is empty afterwards and the closed flag is unchanged; for a retrieval between two loop turns, a bounded client's batch never exceeds its capacity |
| Clients.BatchComesFromQueue | pkg/chat/client.go:41-54 | for a retrieval between two loop turns, a batch holds no message that was not buffered, and at most the buffer's capacity |
| Clients.ClosedClientDrainsThenDisconnects | pkg/chat/client.go:30-47 | a closed client with buffered messages still yields them all with `ok`; the next retrieval yields nothing and reports not-`ok` |
| Clients.SendAll | pkg/chat/chatRoom.go:97-103 | a run of non-blocking sends keeps the client's id, capacity and open state |
| Clients.SendAllKeepsOldest | pkg/chat/chatRoom.go:97-103 | after any run of sends, the buffer is the old buffer followed by the sent messages, cut off at the capacity: the oldest messages are kept, in sending order, and the rest are dropped |
| Clients.SendAllThenRetrieve | pkg/chat/client.go:30-54 | messages sent to a client with room for them all come back in one `ok` batch, after what was already buffered, in sending order |
| ChatRooms.NewChatRoom | pkg/chat/chatRoom.go:27-36 | a new room has no members and satisfies the room invariant |
| ChatRooms.BroadcastMessage | pkg/chat/chatRoom.go:91-105 | fan-out keeps the membership; each member gets the message at the end of its buffer unless the buffer is full, in which case it is unchanged; all members stay open and the invariant is kept |
| ChatRooms.Join | pkg/chat/chatRoom.go:108-124 | covers both the caller-side check (lines 108-124) and the loop's insertion and join notice (lines 43-55): join fails with DuplicateMember exactly when the id is a member; otherwise the membership gains exactly that id, the joiner holds an open, capacity-100 client whose buffer is just its join notice, every earlier member receives the notice unless full, and the invariant is kept |
| ChatRooms.Leave | pkg/chat/chatRoom.go:57-82 | leave reports found exactly when the id was a member. A non-member changes nothing and triggers no notice. A member is removed, and no one else is. The closed client handed back keeps exactly its old buffer, so the leaver gets no notice. Every remaining member receives the leave notice unless full, and the invariant is kept |
| ChatRooms.Broadcast | pkg/chat/chatRoom.go:134-141 | a broadcast never fails and never changes membership; each member gets the stamped message at the end of its buffer unless full; the invariant is kept |
| ChatRooms.GetClient | pkg/chat/chatRoom.go:144-150 | the lookup finds a client exactly when the id is a member, and then it is that member's client |
| ChatRooms.Send | pkg/api/handlers.go:83-91 | sending fails with MemberNotFound exactly when the sender is not a member, and otherwise is the broadcast of its message |
| ChatRooms.Receive | pkg/api/handlers.go:108-120 | retrieval fails with MemberNotFound exactly when the id is not a member; a member always gets `ok` with its whole buffer in order, and only its buffer is emptied |
| ControlLoop.Step | pkg/chat/chatRoom.go:40-87 | one atomic step, either a loop turn or a consumer's retrieval between turns (the retrieval goes through pkg/api/handlers.go:108-120, not the loop), keeps the room invariant and changes membership only as the join/leave reference says; a refused join, a leave of a non-member and a receive by a non-member leave the room unchanged |
| ControlLoop.Run | pkg/chat/chatRoom.go:40-87 | after any history of steps (loop turns and retrievals between them), every member is open and holds at most 100 messages in a buffer of 100, filed under its own id, and the membership is the one the reference definition predicts |
| ControlLoop.JoinTwiceRefused | pkg/chat/chatRoom.go:110-116 | a join succeeds exactly for a non-member; joining the same id again is refused with DuplicateMember and changes nothing |
| ControlLoop.JoinGreetsJoiner | pkg/chat/chatRoom.go:43-55 | a newcomer's buffer starts out holding exactly its own join notice |
| ControlLoop.JoinDelivers | pkg/chat/chatRoom.go:49-55 | an existing member with room in its buffer gets a newcomer's join notice at the end of it |
| ControlLoop.BroadcastDelivers | pkg/chat/chatRoom.go:84-85 | a member with room in its buffer gets a broadcast at the end of it |
| ControlLoop.JoinJoinBroadcastOrder | pkg/chat/chatRoom.go:43-85 | if a joins, then b joins, then anyone broadcasts, a's buffer is its own join notice, b's join notice and the broadcast, in that order |
| ControlLoop.LeaverKeepsBufferThenDisconnects | pkg/chat/chatRoom.go:64-81 | the leaver's closed client keeps exactly its old buffer (no leave notice), yields it once, `ok` exactly when it was non-empty, and then reports the disconnection |
| Scenarios.LeaveDelivers | pkg/chat/chatRoom.go:75-81 | when a member leaves, every other member with room in its buffer gets the leave notice at the end of it |
| Scenarios.AliceAndBob | pkg/chat/chatRoom.go:40-87 | alice joins, bob joins, alice sends "hello": bob retrieves [his join notice, "hello"]; after bob leaves, alice retrieves [alice joined, bob joined, "hello", bob left] in that order; bob's held, closed, drained client reports not-`ok` |

## Left out

- Clients.TrySend: requires an open client, because Go panics on a send to a closed channel; the table never holds a closed client (`Valid`).
- Clients.Close: requires an open client, because Go panics on closing a closed channel; only `Leave` closes a client, once, as it removes it from the table.
- ChatRooms.BroadcastMessage: requires every client in the table to be open (`AllOpen`), because the fan-out's send would panic on a closed channel; `Valid`, which every step keeps, implies it.

- Clients.GetMessages: the bound of a batch by the buffer's capacity (also in Clients.BatchComesFromQueue) holds only for a retrieval between two loop turns; in the program the loop's fan-out can refill freed slots while the drain loop runs, so one call can return more than 100 messages, some broadcast after the call began.
- Goroutines, channels, the `sync.RWMutex` and the leave acknowledgement handshake: each turn of the control loop is one atomic step, and a consumer's retrieval is one atomic step between turns.
- The race between Join's existence check and the loop's insertion (`pkg/chat/chatRoom.go:45` overwrites without re-checking): Join is modelled as atomic check-then-insert.
- `time.Now` and the retrieval timer: timestamps are caller-supplied, and the timeout is the open-and-empty branch of `GetMessages`. With a zero timeout Go's `select` may pick the timer even when a message is buffered; the model assumes the timer has not fired before a buffered message is received.
- `fmt.Printf` logging in the loop and in fan-out.
- The text of the duplicate-join error ("client with ID … already exists"): the model returns `DuplicateMember(id)`.
- The order in which Go iterates the client map during fan-out: each send touches only its own client, so the outcome does not depend on it.
- The HTTP boundary in `pkg/api/handlers.go` beyond its two existence checks: query parsing, the empty-id and empty-message refusals, status codes and JSON encoding. The 410 reply for a not-`ok` retrieval arises only for a client handle held across a leave, which the model covers through `Leave`'s departed client and `GetMessages`.
- Routing (`pkg/server/server.go`) and process start-up (`pkg/di/di.go`): foreign libraries and I/O.
