/**
 * A member's mailbox: the buffered channel of a `Client`, its open/closed
 * state, the non-blocking send the room uses to fill it and the batch
 * retrieval its consumer uses to empty it.
 */
module Clients {
  import opened Messages

  /** Buffer size of every client's channel. */
  const Capacity: nat := 100

  /**
   * A client: its id, the messages buffered in its channel in enqueue order,
   * the channel's buffer size, and whether the channel has been closed.
   */
  datatype Client = Client(id: string, queue: seq<Message>, capacity: nat, closed: bool)
  {
    /** The buffer never holds more than its size. */
    predicate Bounded() {
      |queue| <= capacity
    }

    /** A send would block: the buffer is at (or beyond) its size. */
    predicate Full() {
      |queue| >= capacity
    }
  }

  /** A fresh client for `id`: open, empty, with a buffer of `Capacity`. */
  function NewClient(id: string): (c: Client)
    ensures c.id == id && c.queue == [] && c.capacity == Capacity && !c.closed
    ensures c.Bounded() && !c.Full()
  {
    Client(id, [], Capacity, false)
  }

  /**
   * One receiver's view of a delivery: `after` is `before` with `msg` at the
   * end of its buffer when there was room, and `before` unchanged otherwise.
   */
  ghost predicate Received(before: Client, after: Client, msg: Message) {
    && after.id == before.id
    && after.capacity == before.capacity
    && after.closed == before.closed
    && after.queue == (if before.Full() then before.queue else before.queue + [msg])
  }

  /**
   * A non-blocking send (a `select` with a `default` arm). Sending on a
   * closed channel panics in Go, so the client must be open.
   */
  function TrySend(c: Client, msg: Message): (r: Client)
    requires !c.closed
    ensures Received(c, r, msg)
    ensures c.Bounded() ==> r.Bounded()
  {
    if |c.queue| < c.capacity then c.(queue := c.queue + [msg]) else c
  }

  /** Closes the channel. Closing it twice panics in Go, so it must be open. */
  function Close(c: Client): (r: Client)
    requires !c.closed
    ensures r.closed
    ensures r.id == c.id && r.queue == c.queue && r.capacity == c.capacity
  {
    c.(closed := true)
  }

  /** What a retrieval hands back: the batch, the `ok` flag, and the client afterwards. */
  datatype Retrieval = Retrieval(messages: seq<Message>, ok: bool, after: Client)

  /**
   * The non-blocking drain loop: keeps receiving while a message is
   * buffered and stops as soon as none is (whether or not the channel is closed).
   */
  function DrainFrom(batch: seq<Message>, pending: seq<Message>): (r: seq<Message>)
    ensures r == batch + pending
    decreases |pending|
  {
    if |pending| == 0 then batch
    else
      assert batch + pending == (batch + [pending[0]]) + pending[1..];
      DrainFrom(batch + [pending[0]], pending[1..])
  }

  /**
   * GetMessages: wait for a first message, then drain the rest without
   * waiting. The wait is atomic here: an open, empty client is the branch in
   * which the timer fires first.
   */
  function GetMessages(c: Client): (r: Retrieval)
    ensures r.ok <==> (!c.closed || |c.queue| > 0)
    ensures r.messages == c.queue
    ensures r.after == c.(queue := [])
    ensures c.Bounded() ==> |r.messages| <= c.capacity
  {
    if |c.queue| == 0 then
      if c.closed then Retrieval([], false, c)  // receive on a closed, drained channel
      else Retrieval([], true, c)                // the timer fires first
    else
      Retrieval(DrainFrom([c.queue[0]], c.queue[1..]), true, c.(queue := []))
  }

  /** A batch never holds a message that was not buffered, nor more than the buffer size. */
  lemma BatchComesFromQueue(c: Client, m: Message)
    requires c.Bounded()
    ensures |GetMessages(c).messages| <= c.capacity
    ensures m in GetMessages(c).messages ==> m in c.queue
  {
  }

  /**
   * A closed client with buffered messages still yields them, with `ok`;
   * only the retrieval after that reports the disconnection.
   */
  lemma ClosedClientDrainsThenDisconnects(c: Client)
    requires c.closed && |c.queue| > 0
    ensures GetMessages(c).ok && GetMessages(c).messages == c.queue
    ensures !GetMessages(GetMessages(c).after).ok
    ensures GetMessages(GetMessages(c).after).messages == []
  {
  }

  /** Sends a sequence of messages one by one, in order. */
  function SendAll(c: Client, msgs: seq<Message>): (r: Client)
    requires !c.closed
    ensures r.id == c.id && r.capacity == c.capacity && !r.closed
    decreases |msgs|
  {
    if |msgs| == 0 then c else SendAll(TrySend(c, msgs[0]), msgs[1..])
  }

  function Min(a: int, b: int): int {
    if a <= b then a else b
  }

  /**
   * FIFO with drop-when-full: after any run of sends, the buffer holds the
   * oldest messages that fit, in the order they were sent, and nothing else.
   */
  lemma {:induction false} SendAllKeepsOldest(c: Client, msgs: seq<Message>)
    requires !c.closed && c.Bounded()
    ensures SendAll(c, msgs).queue == (c.queue + msgs)[..Min(|c.queue| + |msgs|, c.capacity)]
    decreases |msgs|
  {
    if |msgs| == 0 {
      assert c.queue + msgs == c.queue;
    } else {
      var c' := TrySend(c, msgs[0]);
      SendAllKeepsOldest(c', msgs[1..]);
      if c.Full() {
        assert |c.queue| == c.capacity;
        assert (c.queue + msgs)[..c.capacity] == c.queue;
        assert (c'.queue + msgs[1..])[..c.capacity] == c.queue;
      } else {
        assert c'.queue + msgs[1..] == c.queue + msgs;
      }
    }
  }

  /** Everything sent to a client with enough room comes back in one batch, in sending order. */
  lemma SendAllThenRetrieve(c: Client, msgs: seq<Message>)
    requires !c.closed && |c.queue| + |msgs| <= c.capacity
    ensures GetMessages(SendAll(c, msgs)).ok
    ensures GetMessages(SendAll(c, msgs)).messages == c.queue + msgs
  {
    SendAllKeepsOldest(c, msgs);
    assert (c.queue + msgs)[..|c.queue| + |msgs|] == c.queue + msgs;
  }
}
