/**
 * The message-type tags of the chat protocol and the envelopes the server
 * sends to connected clients.
 */
module MessageTypes {

  /** The enumerated message types; outbound-only types are SYSTEM and PONG. */
  datatype MessageType = Chat | JoinRoom | LeaveRoom | Ping | System | Pong

  /** The wire tag of a message type, as it appears in the envelope's `type` field. */
  function Tag(t: MessageType): (s: string)
    ensures s != ""
  {
    match t
    case Chat => "CHAT"
    case JoinRoom => "JOIN_ROOM"
    case LeaveRoom => "LEAVE_ROOM"
    case Ping => "PING"
    case System => "SYSTEM"
    case Pong => "PONG"
  }

  /**
   * An outbound envelope `{type, data}`; the constructor is the type and its
   * arguments are the members of `data`, including the server timestamp.
   */
  datatype Envelope =
    | ChatEnvelope(roomId: string, username: string, message: string, timestamp: int)
    | SystemEnvelope(message: string, roomId: string, timestamp: int)
    | PongEnvelope(timestamp: int)
}
