/** The wire events of the chat rooms, as the client emits and receives them. */
module ChatEvents {

  /** A `receive_message` payload; the broker adds `id`. */
  datatype ChatMessage = ChatMessage(id: string, message: string, userName: string, userRole: string, timestamp: string)

  /**
   * What the client hands to `socket.emit`. The `send_message` timestamp is the
   * client clock in milliseconds (the source formats it with `toISOString`).
   */
  datatype Outbound =
    | JoinRoom(room: string)
    | LeaveRoom(room: string)
    | SendMessage(room: string, message: string, userName: string, userRole: string, timestamp: nat)
    | Typing(room: string, userName: string)
    | StopTyping(room: string)
}
