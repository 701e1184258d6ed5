/**
 * The general-purpose network controller of the rocket demo: a small
 * status machine (IDLE, CONNECTING, CONNECTED, NETERROR) driven by the
 * state the transport reports each time it is polled. The transport state
 * and the room id a hosting transport reports are inputs; broadcasts are
 * recorded in a ghost log.
 */
module NetworkStatus {
  import opened Wire
  import opened Transport

  datatype Status = Idle | Connecting | Connected | NetError

  /** The status checkConnection moves to from s when the transport reports state. */
  function Polled(s: Status, state: TransportState): (r: Status)
  {
    if state.Connected? then Status.Connected
    else if state.Negotiating? then Connecting
    else if IsFailure(state) then NetError
    else s
  }

  /** What checkConnection returns: false exactly for the five failure states. */
  function PollResult(state: TransportState): (ok: bool)
  {
    !IsFailure(state)
  }

  /**
   * Polling settles the status: a reported state fixes the status
   * whatever it was before, except for the states that leave it alone.
   */
  lemma PolledDecides(s: Status, t: Status, state: TransportState)
    ensures !state.Inactive? ==> Polled(s, state) == Polled(t, state)
    ensures Polled(s, state) == NetError <==> IsFailure(state) || (state.Inactive? && s == NetError)
    ensures PollResult(state) <==> Polled(s, state) != NetError || (state.Inactive? && s == NetError)
    ensures Polled(Polled(s, state), state) == Polled(s, state)
  {
  }

  /** The status a connect call polls from: a fresh connection starts out CONNECTING. */
  function StatusBeforePoll(s: Status): (r: Status)
    ensures r != Idle && r != NetError
    ensures s == Status.Connected ==> r == Status.Connected
  {
    if s == Idle || s == NetError then Connecting else s
  }

  class NetworkController {
    var status: Status
    var roomId: string
    var isHost: bool
    /** The open connection; none while IDLE. */
    var connection: Option<Connection>
    /** How many connections have been opened. */
    ghost var opens: nat
    /** Every message handed to the transport's broadcast, in order. */
    ghost var sent: seq<seq<Byte>>

    /** A connection is open exactly when the status is not IDLE. */
    ghost predicate Valid()
      reads this
    {
      status == Idle <==> connection == None
    }

    constructor ()
      ensures Valid()
      ensures status == Idle && roomId == "" && connection == None && isHost
      ensures opens == 0 && sent == []
    {
      status, roomId, connection, isHost := Idle, "", None, true;
      opens, sent := 0, [];
    }

    /** Closes the connection (which must be open) and goes back to IDLE. */
    method Disconnect()
      requires connection != None
      modifies this
      ensures Valid()
      ensures status == Idle && connection == None
      ensures roomId == old(roomId) && isHost == old(isHost) && opens == old(opens) && sent == old(sent)
    {
      connection := None;
      status := Idle;
    }

    /**
     * Polls the open connection: CONNECTED gives CONNECTED (and a host
     * learns its room id), NEGOTIATING gives CONNECTING, the five failure
     * states give NETERROR and false, anything else changes nothing.
     */
    method CheckConnection(state: TransportState, reportedRoom: string) returns (ok: bool)
      requires connection != None
      modifies this
      ensures old(Valid()) ==> Valid()
      ensures status == Polled(old(status), state) && ok == PollResult(state)
      ensures roomId == if state.Connected? && isHost then reportedRoom else old(roomId)
      ensures connection == old(connection) && isHost == old(isHost)
      ensures opens == old(opens) && sent == old(sent)
    {
      if state.Connected? {
        status := Status.Connected;
        if isHost {
          roomId := reportedRoom;
        }
        return true;
      } else if state.Negotiating? {
        status := Connecting;
        return true;
      } else if IsFailure(state) {
        status := NetError;
        return false;
      }
      return true;
    }

    /**
     * Connects as host: a connection in NETERROR is dropped first; a new
     * one is opened only from IDLE; then the connection is polled.
     */
    method ConnectAsHost(state: TransportState, reportedRoom: string) returns (ok: bool)
      requires Valid()
      modifies this
      ensures Valid() && isHost
      ensures old(status) in {Idle, NetError} ==> connection == Some(Connection(NewRoom)) && opens == old(opens) + 1
      ensures old(status) !in {Idle, NetError} ==> connection == old(connection) && opens == old(opens)
      ensures status == Polled(StatusBeforePoll(old(status)), state) && ok == PollResult(state)
      ensures roomId == if state.Connected? then reportedRoom else old(roomId)
      ensures sent == old(sent)
    {
      if status == NetError {
        Disconnect();
      }
      isHost := true;
      if status == Idle {
        status := Connecting;
        connection := Some(Connection(NewRoom));
        opens := opens + 1;
      }
      ok := CheckConnection(state, reportedRoom);
    }

    /**
     * Connects as a client of room: as connectAsHost, but the connection
     * is allocated for that room and the room id is recorded.
     */
    method ConnectAsClient(room: string, state: TransportState) returns (ok: bool)
      requires Valid()
      modifies this
      ensures Valid() && !isHost && roomId == room
      ensures old(status) in {Idle, NetError} ==> connection == Some(Connection(JoinRoom(room))) && opens == old(opens) + 1
      ensures old(status) !in {Idle, NetError} ==> connection == old(connection) && opens == old(opens)
      ensures status == Polled(StatusBeforePoll(old(status)), state) && ok == PollResult(state)
      ensures sent == old(sent)
    {
      if status == NetError {
        Disconnect();
      }
      isHost := false;
      if status == Idle {
        status := Connecting;
        connection := Some(Connection(JoinRoom(room)));
        opens := opens + 1;
      }
      roomId := room;
      ok := CheckConnection(state, "");
    }

    /** Hands data to the transport only while CONNECTED. */
    method BroadCast(data: seq<Byte>)
      modifies this
      ensures sent == if old(status) == Status.Connected then old(sent) + [data] else old(sent)
      ensures status == old(status) && roomId == old(roomId) && isHost == old(isHost)
      ensures connection == old(connection) && opens == old(opens)
    {
      if status == Status.Connected {
        sent := sent + [data];
      }
    }
  }
}
