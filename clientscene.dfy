/**
 * The client lobby of the network lab: it turns the room number the
 * player typed into the lobby server's hexadecimal room id, follows the
 * connection through JOIN and WAIT, and starts the game when the host's
 * one-byte start message arrives. The transport state is an input;
 * rebroadcasts are recorded in a ghost log.
 */
module ClientLobby {
  import opened Wire
  import opened Transport

  // ---------------------------------------------------------------- dec2hex

  /** The lower-case hexadecimal digit of d. */
  function HexDigit(d: nat): (c: char)
    requires d < 16
  {
    if d < 10 then '0' + d as char else 'a' + (d - 10) as char
  }

  /** The value of a hexadecimal digit character, if it is one. */
  function DigitValue(c: char): (d: Option<nat>)
    ensures d.Some? ==> d.value < 16
  {
    if '0' <= c <= '9' then Some(c as nat - '0' as nat)
    else if 'a' <= c <= 'f' then Some(c as nat - 'a' as nat + 10)
    else None
  }

  /** The shortest hexadecimal spelling of v ("0" for zero). */
  function Hex(v: nat): (s: string)
    ensures |s| >= 1
    decreases v
  {
    if v < 16 then [HexDigit(v)] else Hex(v / 16) + [HexDigit(v % 16)]
  }

  /** s padded on the left with '0' to at least width characters. */
  function PadLeft(s: string, width: nat): (r: string)
    ensures |r| == if |s| < width then width else |s|
    ensures r[|r| - |s|..] == s
    ensures forall i :: 0 <= i < |r| - |s| ==> r[i] == '0'
  {
    if |s| >= width then s else seq(width - |s|, _ => '0') + s
  }

  /** The number a string of hexadecimal digits denotes; none for any other character. */
  function HexValue(s: string): (v: Option<nat>)
  {
    if s == [] then Some(0)
    else
      match (HexValue(s[..|s| - 1]), DigitValue(s[|s| - 1]))
      case (Some(hi), Some(lo)) => Some(hi * 16 + lo)
      case _ => None
  }

  /** Above this value dec2hex replaces the parsed room number by 0. */
  const RoomCutoff: nat := 655366

  /**
   * dec2hex on the room number stou32 parsed: values from 655366 on become
   * 0, then the number is written in hexadecimal, padded to four digits.
   */
  function Dec2Hex(value: Uint32): (r: string)
  {
    PadLeft(Hex(if value >= RoomCutoff then 0 else value), 4)
  }

  lemma {:induction false} HexDigitValue(d: nat)
    requires d < 16
    ensures DigitValue(HexDigit(d)) == Some(d)
  {
  }

  lemma {:induction false} HexValueSnoc(s: string, c: char)
    ensures HexValue(s + [c]) == match (HexValue(s), DigitValue(c))
                                 case (Some(hi), Some(lo)) => Some(hi * 16 + lo)
                                 case _ => None
  {
    assert (s + [c])[..|s|] == s;
  }

  /** Reading back the hexadecimal spelling of v gives v. */
  lemma {:induction false} HexRoundTrip(v: nat)
    ensures HexValue(Hex(v)) == Some(v)
    decreases v
  {
    if v < 16 {
      HexDigitValue(v);
      HexValueSnoc([], HexDigit(v));
    } else {
      HexRoundTrip(v / 16);
      HexDigitValue(v % 16);
      HexValueSnoc(Hex(v / 16), HexDigit(v % 16));
    }
  }

  /** Leading zeros do not change the number a hexadecimal string denotes. */
  lemma {:induction false} HexValueLeadingZeros(k: nat, s: string)
    ensures HexValue(seq(k, _ => '0') + s) == HexValue(s)
    decreases |s|
  {
    var z := seq(k, _ => '0');
    if s == [] {
      assert z + s == z;
      ZerosValue(k);
    } else {
      var init, last := s[..|s| - 1], s[|s| - 1];
      assert z + s == (z + init) + [last];
      assert s == init + [last];
      HexValueSnoc(z + init, last);
      HexValueSnoc(init, last);
      HexValueLeadingZeros(k, init);
    }
  }

  lemma {:induction false} ZerosValue(k: nat)
    ensures HexValue(seq(k, _ => '0')) == Some(0)
  {
    if k > 0 {
      var z := seq(k, _ => '0');
      assert z == seq(k - 1, _ => '0') + ['0'];
      ZerosValue(k - 1);
      HexValueSnoc(seq(k - 1, _ => '0'), '0');
    }
  }

  /** The hexadecimal spelling of v has at most n digits exactly when v < 16^n. */
  lemma {:induction false} HexLength(v: nat, n: nat)
    requires n >= 1
    ensures |Hex(v)| <= n <==> v < Pow16(n)
    decreases v
  {
    if v >= 16 {
      if n == 1 {
        assert Pow16(1) == 16;
      } else {
        HexLength(v / 16, n - 1);
      }
    }
  }

  function Pow16(n: nat): (r: nat)
    ensures r >= 1
  {
    if n == 0 then 1 else 16 * Pow16(n - 1)
  }

  /**
   * What dec2hex promises as written: at least four hexadecimal digits
   * that read back as the room number, or as 0 from 655366 on.
   */
  lemma Dec2HexMeaning(value: Uint32)
    ensures |Dec2Hex(value)| >= 4
    ensures HexValue(Dec2Hex(value)) == Some(if value >= RoomCutoff then 0 else value)
  {
    var v := if value >= RoomCutoff then 0 else value;
    var h := Hex(v);
    var r := Dec2Hex(value);
    HexRoundTrip(v);
    if |h| < 4 {
      assert r == seq(4 - |h|, _ => '0') + h;
      HexValueLeadingZeros(4 - |h|, h);
    }
  }

  /**
   * The comment on dec2hex promises exactly four characters, but the
   * cutoff lets room numbers 65536..655365 through: 65536 becomes "10000".
   */
  lemma Dec2HexFiveDigits()
    ensures Dec2Hex(65536) == "10000"
    ensures |Dec2Hex(65536)| == 5
  {
    assert Hex(65536) == "10000" by {
      assert Hex(1) == "1";
      assert Hex(16) == Hex(1) + "0";
      assert Hex(256) == Hex(16) + "0";
      assert Hex(4096) == Hex(256) + "0";
      assert Hex(65536) == Hex(4096) + "0";
    }
  }

  /** Room numbers from 65536 on are replaced by 0, so the id always has four digits. */
  const FourDigitCutoff: nat := 0x1_0000

  /** dec2hex as its comment describes it: always exactly four hexadecimal digits. */
  function Dec2HexFourDigits(value: Uint32): (r: string)
    ensures |r| == 4
    ensures HexValue(r) == Some(if value >= FourDigitCutoff then 0 else value)
  {
    var v := if value >= FourDigitCutoff then 0 else value;
    HexLength(v, 4);
    HexRoundTrip(v);
    var h := Hex(v);
    if |h| < 4 then
      HexValueLeadingZeros(4 - |h|, h);
      PadLeft(h, 4)
    else
      PadLeft(h, 4)
  }

  // ---------------------------------------------------------------- the lobby

  datatype Status = Idle | Join | Wait | Start | Abort

  /** The host's start message: exactly one byte, 255. */
  predicate IsStartMessage(data: seq<Byte>)
  {
    |data| == 1 && data[0] == 255
  }

  /** A 32-byte message tagged 111, which a client passes on when it came from another peer. */
  predicate IsRelayMessage(data: seq<Byte>)
  {
    |data| == 32 && data[0] == 111
  }

  class ClientScene {
    var status: Status
    var active: bool
    var connection: Option<Connection>
    /** Every message handed to the transport's broadcast, in order. */
    ghost var sent: seq<seq<Byte>>

    constructor ()
      ensures status == Idle && !active && connection == None && sent == []
    {
      status, active, connection := Idle, false, None;
      sent := [];
    }

    /**
     * processData: the start byte moves the lobby to START; a relay
     * message from another peer is broadcast again unchanged; anything
     * else is ignored.
     */
    method ProcessData(source: string, data: seq<Byte>)
      requires connection != None
      modifies this
      ensures status == if IsStartMessage(data) then Start else old(status)
      ensures sent == if !IsStartMessage(data) && IsRelayMessage(data) && source != ""
                      then old(sent) + [data] else old(sent)
      ensures active == old(active) && connection == old(connection)
    {
      if |data| == 1 && data[0] == 255 {
        status := Start;
      } else if |data| == 32 && data[0] == 111 {
        if source != "" {
          sent := sent + [data];
        }
      }
    }

    /**
     * checkConnection: CONNECTED means WAIT (unless the game already
     * started), NEGOTIATING means JOIN; a failure state drops the
     * connection and returns to IDLE with false.
     */
    method CheckConnection(state: TransportState) returns (ok: bool)
      requires connection != None
      modifies this
      ensures ok <==> !IsFailure(state)
      ensures state.Connected? ==> status == (if old(status) == Start then Start else Wait)
      ensures state.Negotiating? ==> status == Join
      ensures IsFailure(state) ==> status == Idle && connection == None
      ensures !IsFailure(state) ==> connection == old(connection)
      ensures state.Inactive? ==> status == old(status)
      ensures active == old(active) && sent == old(sent)
    {
      if state.Connected? {
        if status != Start {
          status := Wait;
        }
        return true;
      } else if state.Negotiating? {
        status := Join;
        return true;
      } else if IsFailure(state) {
        connection := None;
        status := Idle;
        return false;
      }
      return true;
    }

    /** setActive: becoming active resets the lobby to IDLE with no connection. */
    method SetActive(value: bool)
      modifies this
      ensures active == value
      ensures !old(active) && value ==> status == Idle && connection == None
      ensures !(!old(active) && value) ==> status == old(status) && connection == old(connection)
      ensures sent == old(sent)
    {
      if active != value {
        active := value;
        if value {
          status := Idle;
          connection := None;
        }
      }
    }
  }
}
