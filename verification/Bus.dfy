/** The command bus: what `send_command` publishes and what every instance hears of it. */
module Bus {
  import opened Text
  import opened Commands
  import opened CommandCodec
  import opened Routing

  datatype Message = Message(subject: string, payload: seq<byte>)

  /** `send_command`: nothing is published when the command does not fit the buffer. */
  function SendCommand(room: string, c: Command): Option<Message> {
    match Encode(c)
    case None => None
    case Some(bytes) => Some(Message(CmdSubject(room), bytes))
  }

  /** `process`: the room and the command of a message. */
  function Process(msg: Message): Option<(string, Command)> {
    match (SplitOnce(msg.subject, '.'), Decode(msg.payload))
    case (Some((_, room)), Some(c)) => Some((room, c))
    case _ => None
  }

  /** What an instance, subscribed to `cmd.*`, hears when a command is sent. */
  function Heard(room: string, c: Command): Option<(string, Command)> {
    match SendCommand(room, c)
    case None => None
    case Some(msg) => if Receives(CMD_PATTERN, msg.subject) then Process(msg) else None
  }

  /** The room is a token of a subject, and the user fits into the command buffer. */
  predicate WellNamed(room: string, user: string) {
    IsToken(room) && |Utf8(user)| <= 62
  }

  /** A command is heard, as it was sent, exactly for well-formed names; otherwise it vanishes. */
  lemma HeardExactly(room: string, c: Command)
    ensures Heard(room, c) == if WellNamed(room, c.user) then Some((room, c)) else None
  {
    CommandRoundTrip(c);
    CommandsAreHeard(room);
    RoomOfCommand(room);
  }
}
