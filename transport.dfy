/**
 * The transport as the game code sees it: the state a connection reports
 * when polled, and which of those states mean the connection is lost.
 * Opening, closing, sending and receiving belong to the transport and are
 * not modelled; the scenes record what they hand to it instead.
 */
module Transport {

  /** The states a connection reports from getState(). */
  datatype TransportState =
    | Inactive
    | Negotiating
    | Connected
    | Denied
    | Disconnected
    | Failed
    | Invalid
    | Mismatched

  /** The five states every scene treats as a lost connection. */
  predicate IsFailure(s: TransportState)
  {
    s.Denied? || s.Disconnected? || s.Failed? || s.Invalid? || s.Mismatched?
  }

  /** A connection handle: the room it was allocated for (none when hosting a new room). */
  datatype Connection = Connection(room: RoomRequest)

  datatype RoomRequest = NewRoom | JoinRoom(id: string)
}
