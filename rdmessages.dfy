/**
 * The messages of the lockstep rocket demo. Every value the scene's
 * serializer writes is preceded by a one-byte tag naming its type (a bool
 * is its tag alone), so a message frame starts with a 9-byte tagged
 * timestamp and a 5-byte tagged flag: the payload begins at offset 14.
 * The tag values themselves are not part of this model; any five distinct
 * bytes serve, and readers skip the tag without checking it.
 */
module LockstepMessages {
  import opened Wire
  import opened LWCodec
  import opened NetEvents
  import opened NetCaching

  const BoolFalseTag: Byte := 0
  const BoolTrueTag: Byte := 1
  const FloatTag: Byte := 2
  const Uint32Tag: Byte := 3
  const Uint64Tag: Byte := 4

  /** The flag of a cannon-angle message. */
  const CannonFlag: Uint8 := 5

  // ---------------------------------------------------------------- tagged values

  /** A bool: its tag alone. */
  function TaggedBool(b: bool): (r: seq<Byte>)
    ensures |r| == 1
  {
    [if b then BoolTrueTag else BoolFalseTag]
  }

  /** A fixed-width word: the tag, then the word's n bytes. */
  function TaggedWord(tag: Byte, v: nat, n: nat): (r: seq<Byte>)
    requires v < Pow256(n)
    ensures |r| == n + 1 && r[0] == tag
  {
    [tag] + WordBytes(v, n)
  }

  lemma Pow256Widths()
    ensures Pow256(4) == 0x1_0000_0000 && Pow256(8) == 0x1_0000_0000_0000_0000
  {
    assert Pow256(2) == 0x1_0000;
  }

  function TaggedUint32(v: Uint32): (r: seq<Byte>)
    ensures |r| == 5
  {
    Pow256Widths();
    TaggedWord(Uint32Tag, v, 4)
  }

  function TaggedFloat(f: Float32): (r: seq<Byte>)
    ensures |r| == 5
  {
    Pow256Widths();
    TaggedWord(FloatTag, f, 4)
  }

  function TaggedUint64(v: Uint64): (r: seq<Byte>)
    ensures |r| == 9
  {
    Pow256Widths();
    TaggedWord(Uint64Tag, v, 8)
  }

  /** The n bytes from start on, with 0 for every byte past the end. */
  function Padded(data: seq<Byte>, start: nat, n: nat): (w: seq<Byte>)
    ensures |w| == n
    ensures start + n <= |data| ==> w == data[start..start + n]
  {
    seq(n, i requires 0 <= i < n => if start + i < |data| then data[start + i] else 0)
  }

  /** readBool: true exactly for the true tag; at or past the end false, cursor unmoved. */
  function ReadTaggedBool(data: seq<Byte>, pos: nat): (r: (bool, nat))
  {
    if pos >= |data| then (false, pos) else (data[pos] == BoolTrueTag, pos + 1)
  }

  /** A word read: skips the tag and takes n bytes; at or past the end 0, cursor unmoved. */
  function ReadTaggedWord(data: seq<Byte>, pos: nat, n: nat): (r: (nat, nat))
    ensures r.0 < Pow256(n)
  {
    if pos >= |data| then (0, pos) else (WordValue(Padded(data, pos + 1, n)), pos + 1 + n)
  }

  function ReadUint32(data: seq<Byte>, pos: nat): (r: (Uint32, nat))
  {
    Pow256Widths();
    ReadTaggedWord(data, pos, 4)
  }

  function ReadFloat(data: seq<Byte>, pos: nat): (r: (Float32, nat))
  {
    Pow256Widths();
    ReadTaggedWord(data, pos, 4)
  }

  function ReadUint64(data: seq<Byte>, pos: nat): (r: (Uint64, nat))
  {
    Pow256Widths();
    ReadTaggedWord(data, pos, 8)
  }

  /** A word read where a tagged word was written gives the word back. */
  lemma ReadTaggedWordAfterWrite(data: seq<Byte>, pos: nat, tag: Byte, v: nat, n: nat)
    requires v < Pow256(n)
    requires pos + n + 1 <= |data| && data[pos..pos + n + 1] == TaggedWord(tag, v, n)
    ensures ReadTaggedWord(data, pos, n) == (v, pos + n + 1)
  {
    var w := Padded(data, pos + 1, n);
    assert w == WordBytes(v, n) by {
      forall i | 0 <= i < n
        ensures w[i] == WordBytes(v, n)[i]
      {
        assert data[pos..pos + n + 1][i + 1] == data[pos + 1 + i];
      }
    }
    WordRoundTrip(v, n);
  }

  /** A bool read where a bool was written gives it back. */
  lemma ReadTaggedBoolAfterWrite(data: seq<Byte>, pos: nat, b: bool)
    requires pos + 1 <= |data| && data[pos..pos + 1] == TaggedBool(b)
    ensures ReadTaggedBool(data, pos) == (b, pos + 1)
  {
    assert data[pos] == data[pos..pos + 1][0];
  }

  // ---------------------------------------------------------------- payloads

  /** packState's payload: the id, then position, velocity, angle and angular velocity. */
  function EncodeState(p: ObjParam): (r: seq<Byte>)
    ensures |r| == 35
  {
    TaggedUint32(p.objId) + TaggedFloat(p.x) + TaggedFloat(p.y) + TaggedFloat(p.vx)
      + TaggedFloat(p.vy) + TaggedFloat(p.angle) + TaggedFloat(p.vAngular)
  }

  /** processState's seven reads, in the order packState writes. */
  function DecodeState(data: seq<Byte>): ObjParam
  {
    var id := ReadUint32(data, 0);
    var x := ReadFloat(data, id.1);
    var y := ReadFloat(data, x.1);
    var vx := ReadFloat(data, y.1);
    var vy := ReadFloat(data, vx.1);
    var angle := ReadFloat(data, vy.1);
    var angV := ReadFloat(data, angle.1);
    ObjParam(id.0, x.0, y.0, vx.0, vy.0, angle.0, angV.0)
  }

  /** Where each field's tagged value sits in an encoded snapshot: 5 bytes apiece. */
  lemma EncodeStateFields(p: ObjParam)
    ensures var b := EncodeState(p);
      && b[0..5] == TaggedUint32(p.objId) && b[5..10] == TaggedFloat(p.x) && b[10..15] == TaggedFloat(p.y)
      && b[15..20] == TaggedFloat(p.vx) && b[20..25] == TaggedFloat(p.vy)
      && b[25..30] == TaggedFloat(p.angle) && b[30..35] == TaggedFloat(p.vAngular)
  {
    var b := EncodeState(p);
    var e0, e1, e2, e3 := TaggedUint32(p.objId), TaggedFloat(p.x), TaggedFloat(p.y), TaggedFloat(p.vx);
    var e4, e5, e6 := TaggedFloat(p.vy), TaggedFloat(p.angle), TaggedFloat(p.vAngular);
    SplitSlice(b, 0, e0 + e1 + e2 + e3 + e4 + e5, e6);
    SplitSlice(b, 0, e0 + e1 + e2 + e3 + e4, e5);
    SplitSlice(b, 0, e0 + e1 + e2 + e3, e4);
    SplitSlice(b, 0, e0 + e1 + e2, e3);
    SplitSlice(b, 0, e0 + e1, e2);
    SplitSlice(b, 0, e0, e1);
  }

  /** A state message decodes to the snapshot it was packed from. */
  lemma StateRoundTrip(p: ObjParam)
    ensures DecodeState(EncodeState(p)) == p
  {
    Pow256Widths();
    var b := EncodeState(p);
    EncodeStateFields(p);
    ReadTaggedWordAfterWrite(b, 0, Uint32Tag, p.objId, 4);
    ReadTaggedWordAfterWrite(b, 5, FloatTag, p.x, 4);
    ReadTaggedWordAfterWrite(b, 10, FloatTag, p.y, 4);
    ReadTaggedWordAfterWrite(b, 15, FloatTag, p.vx, 4);
    ReadTaggedWordAfterWrite(b, 20, FloatTag, p.vy, 4);
    ReadTaggedWordAfterWrite(b, 25, FloatTag, p.angle, 4);
    ReadTaggedWordAfterWrite(b, 30, FloatTag, p.vAngular, 4);
  }


  /** A fire input: which cannon, its angle and the charged fire power. */
  datatype FireMsg = FireMsg(isHost: bool, angle: Float32, power: Float32)

  function EncodeFire(m: FireMsg): (r: seq<Byte>)
    ensures |r| == 11
  {
    TaggedBool(m.isHost) + TaggedFloat(m.angle) + TaggedFloat(m.power)
  }

  function DecodeFire(data: seq<Byte>): FireMsg
  {
    var host := ReadTaggedBool(data, 0);
    var angle := ReadFloat(data, host.1);
    var power := ReadFloat(data, angle.1);
    FireMsg(host.0, angle.0, power.0)
  }

  /** A fire message decodes to the input it was packed from. */
  lemma FireRoundTrip(m: FireMsg)
    ensures DecodeFire(EncodeFire(m)) == m
  {
    Pow256Widths();
    var b := EncodeFire(m);
    var e0, e1, e2 := TaggedBool(m.isHost), TaggedFloat(m.angle), TaggedFloat(m.power);
    SplitSlice(b, 0, e0 + e1, e2);
    SplitSlice(b, 0, e0, e1);
    ReadTaggedBoolAfterWrite(b, 0, m.isHost);
    ReadTaggedWordAfterWrite(b, 1, FloatTag, m.angle, 4);
    ReadTaggedWordAfterWrite(b, 6, FloatTag, m.power, 4);
  }

  /** A cannon message: which cannon and its angle. */
  datatype CannonMsg = CannonMsg(isHost: bool, angle: Float32)

  function EncodeCannon(m: CannonMsg): (r: seq<Byte>)
    ensures |r| == 6
  {
    TaggedBool(m.isHost) + TaggedFloat(m.angle)
  }

  function DecodeCannon(data: seq<Byte>): CannonMsg
  {
    var host := ReadTaggedBool(data, 0);
    var angle := ReadFloat(data, host.1);
    CannonMsg(host.0, angle.0)
  }

  /** A cannon message decodes to the angle it was packed from. */
  lemma CannonRoundTrip(m: CannonMsg)
    ensures DecodeCannon(EncodeCannon(m)) == m
  {
    Pow256Widths();
    var b := EncodeCannon(m);
    SplitSlice(b, 0, TaggedBool(m.isHost), TaggedFloat(m.angle));
    ReadTaggedBoolAfterWrite(b, 0, m.isHost);
    ReadTaggedWordAfterWrite(b, 1, FloatTag, m.angle, 4);
  }

  /** An empty payload decodes to all zeros and false: every read is past the end. */
  lemma EmptyPayloads()
    ensures DecodeState([]) == ObjParam(0, 0, 0, 0, 0, 0, 0)
    ensures DecodeFire([]) == FireMsg(false, 0, 0) && DecodeCannon([]) == CannonMsg(false, 0)
  {
  }

  // ---------------------------------------------------------------- frames

  /** Where processData takes the payload from: after the tagged timestamp and flag. */
  const HeaderLength: nat := 14

  /** A message as a pack* function builds it: no sender, not yet received. */
  function Packed(timestamp: Uint64, flag: Uint8, payload: seq<Byte>): NetData
  {
    NetData(timestamp, flag, "", payload, 0)
  }

  /** transmitNetdata's bytes: the timestamp, the flag widened to 32 bits, then the payload. */
  function Frame(d: NetData): (r: seq<Byte>)
    ensures |r| == HeaderLength + |d.data| && r[HeaderLength..] == d.data
  {
    TaggedUint64(d.timestamp) + TaggedUint32(d.flag) + d.data
  }

  /**
   * processData: the timestamp and flag read back (the flag cut to its
   * low byte), the payload taken from offset 14, the sender and the local
   * tick recorded. The bytes must hold a whole header.
   */
  function ParseFrame(source: string, bytes: seq<Byte>, counter: Uint64): (d: NetData)
    requires |bytes| >= HeaderLength
    ensures d.sourceId == source && d.receivedBy == counter && d.data == bytes[HeaderLength..]
  {
    var ts := ReadUint64(bytes, 0);
    var flag := ReadUint32(bytes, ts.1);
    NetData(ts.0, flag.0 % 256, source, bytes[HeaderLength..], counter)
  }

  /** A frame parses back to the message it was built from, stamped with its sender and arrival tick. */
  lemma FrameRoundTrip(d: NetData, source: string, counter: Uint64)
    ensures ParseFrame(source, Frame(d), counter) == d.(sourceId := source, receivedBy := counter)
  {
    Pow256Widths();
    var b := Frame(d);
    var h0, h1 := TaggedUint64(d.timestamp), TaggedUint32(d.flag);
    SplitSlice(b, 0, h0 + h1, d.data);
    SplitSlice(b, 0, h0, h1);
    ReadTaggedWordAfterWrite(b, 0, Uint64Tag, d.timestamp, 8);
    ReadTaggedWordAfterWrite(b, 9, Uint32Tag, d.flag, 4);
  }
}
