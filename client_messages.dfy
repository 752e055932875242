/**
 * What both recording servers share besides their tables: the messages a
 * recording client sends, told apart by their `id`, and the errors both
 * servers can throw while handling them.
 */
module ClientMessages {
  import opened SessionTables

  datatype ClientMessage =
    | Start(sdpOffer: string)
    | Stop
    | OnIceCandidate(candidate: IceCandidate)
    | Unrecognized(id: string)

  /**
   * `${message}` of a parsed message object, as both servers put it into their
   * "Invalid message" error: JavaScript renders any plain object this way.
   */
  const ObjectText := "[object Object]"

  const InvalidMessageText := "Invalid message " + ObjectText

  /** A thrown JavaScript error, by its `name` and `message`. */
  datatype Fault = Fault(name: string, message: string)

  /**
   * What `stop` throws when the session exists but its recorder does not, in
   * the wording of V8 9.3 and later (Node.js 16.9, Chrome 93).
   */
  const RecorderUndefined := Fault("TypeError", "Cannot read properties of undefined (reading 'stop')")
}
