/** Chat messages and the two system notices the room emits. */
module Messages {

  /** Wall-clock instants are abstract: every caller supplies the `now` it observed. */
  type Timestamp = nat

  /** An immutable chat message: who sent it, what it says and when it was made. */
  datatype Message = Message(senderId: string, content: string, time: Timestamp)

  /** Sender id of the notices the room itself emits. */
  const SystemSender: string := "System"

  /** The notice broadcast when `id` joins the room. */
  function JoinNotice(id: string, now: Timestamp): (m: Message)
    ensures m.senderId == SystemSender && m.time == now
    ensures |m.content| == |id| + 25
    ensures m.content[..5] == "User " && m.content[5..5 + |id|] == id
    ensures m.content[5 + |id|..] == " has joined the chat"
  {
    Message(SystemSender, "User " + id + " has joined the chat", now)
  }

  /** The notice broadcast to the remaining members when `id` leaves. */
  function LeaveNotice(id: string, now: Timestamp): (m: Message)
    ensures m.senderId == SystemSender && m.time == now
    ensures |m.content| == |id| + 23
    ensures m.content[..5] == "User " && m.content[5..5 + |id|] == id
    ensures m.content[5 + |id|..] == " has left the chat"
  {
    Message(SystemSender, "User " + id + " has left the chat", now)
  }

  /** A join notice names exactly one member: two equal join notices are about the same id. */
  lemma JoinNoticeNamesMember(a: string, b: string, t: Timestamp, u: Timestamp)
    requires JoinNotice(a, t) == JoinNotice(b, u)
    ensures a == b && t == u
  {
  }

  /** A leave notice names exactly one member. */
  lemma LeaveNoticeNamesMember(a: string, b: string, t: Timestamp, u: Timestamp)
    requires LeaveNotice(a, t) == LeaveNotice(b, u)
    ensures a == b && t == u
  {
  }

  /** No join notice can be mistaken for a leave notice. */
  lemma JoinNoticeIsNotLeaveNotice(a: string, b: string, t: Timestamp, u: Timestamp)
    ensures JoinNotice(a, t) != LeaveNotice(b, u)
  {
    var cj, cl := JoinNotice(a, t).content, LeaveNotice(b, u).content;
    // Thirteen characters from the end, "...joined the chat" reads 'i'
    // and "...left the chat" reads 'l'.
    assert cj[|cj| - 13] == 'i';
    assert cl[|cl| - 13] == 'l';
  }
}
