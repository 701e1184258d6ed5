/**
 * The lightweight byte codec: LWSerializer appends fixed-width values to a
 * growing byte buffer, LWDeserializer reads them back through a cursor.
 * The reader is lenient: a read that starts at or past the end of the
 * buffer yields 0 / false / byte 0 and leaves the cursor where it is.
 */
module LWCodec {
  import opened Wire

  /** The kinds of value the codec can write and read. */
  datatype Kind = BoolKind | ByteKind | Uint16Kind | Uint32Kind | Uint64Kind | Sint32Kind | FloatKind

  datatype Value =
    | BoolV(b: bool)
    | ByteV(byte: Byte)
    | Uint16V(u16: Uint16)
    | Uint32V(u32: Uint32)
    | Uint64V(u64: Uint64)
    | Sint32V(s32: Sint32)
    | FloatV(f: Float32)
  {
    function KindOf(): Kind {
      match this
      case BoolV(_) => BoolKind
      case ByteV(_) => ByteKind
      case Uint16V(_) => Uint16Kind
      case Uint32V(_) => Uint32Kind
      case Uint64V(_) => Uint64Kind
      case Sint32V(_) => Sint32Kind
      case FloatV(_) => FloatKind
    }
  }

  /** sizeof of the C++ type behind each kind. */
  function Width(k: Kind): nat
  {
    match k
    case BoolKind => 1
    case ByteKind => 1
    case Uint16Kind => 2
    case Uint32Kind => 4
    case Uint64Kind => 8
    case Sint32Kind => 4
    case FloatKind => 4
  }

  /** The bytes a single write appends. */
  function Encode(v: Value): (r: seq<Byte>)
    ensures |r| == Width(v.KindOf())
  {
    match v
    case BoolV(b) => [if b then 1 else 0]
    case ByteV(x) => [x]
    case Uint16V(x) => WordBytes(x, 2)
    case Uint32V(x) => WordBytes(x, 4)
    case Uint64V(x) => WordBytes(x, 8)
    case Sint32V(x) => WordBytes(Sint32Bits(x), 4)
    case FloatV(x) => WordBytes(x, 4)
  }

  /**
   * The n bytes a multi-byte read takes from pos. Only pos < |data| is
   * checked by the reader; bytes past the end are taken as 0 here.
   */
  function Window(data: seq<Byte>, pos: nat, n: nat): (w: seq<Byte>)
    requires pos < |data|
    ensures |w| == n
  {
    if pos + n <= |data| then data[pos..pos + n]
    else data[pos..] + seq(pos + n - |data|, _ => 0)
  }

  function ValueOf(k: Kind, w: seq<Byte>): (v: Value)
    requires |w| == Width(k)
    ensures v.KindOf() == k
  {
    WordRoundTripBound(w);
    match k
    case BoolKind => BoolV(w[0] == 1)
    case ByteKind => ByteV(w[0])
    case Uint16Kind => Uint16V(WordValue(w))
    case Uint32Kind => Uint32V(WordValue(w))
    case Uint64Kind => Uint64V(WordValue(w))
    case Sint32Kind => Sint32V(Sint32OfBits(WordValue(w)))
    case FloatKind => FloatV(WordValue(w))
  }

  lemma WordRoundTripBound(w: seq<Byte>)
    ensures |w| == 2 ==> WordValue(w) < 0x1_0000
    ensures |w| == 4 ==> WordValue(w) < 0x1_0000_0000
    ensures |w| == 8 ==> WordValue(w) < 0x1_0000_0000_0000_0000
  {
  }

  /** The default a read yields when the cursor is at or past the end. */
  function Default(k: Kind): (v: Value)
    ensures v.KindOf() == k
  {
    match k
    case BoolKind => BoolV(false)
    case ByteKind => ByteV(0)
    case Uint16Kind => Uint16V(0)
    case Uint32Kind => Uint32V(0)
    case Uint64Kind => Uint64V(0)
    case Sint32Kind => Sint32V(0)
    case FloatKind => FloatV(0)
  }

  /** One read of kind k at cursor pos: the value and the new cursor. */
  function Read(k: Kind, data: seq<Byte>, pos: nat): (r: (Value, nat))
    ensures r.0.KindOf() == k
  {
    if pos >= |data| then (Default(k), pos)
    else (ValueOf(k, Window(data, pos, Width(k))), pos + Width(k))
  }

  /** Decoding the bytes of a value gives the value back. */
  lemma ValueOfEncode(v: Value)
    ensures ValueOf(v.KindOf(), Encode(v)) == v
  {
    match v
    case Uint16V(x) => WordRoundTrip(x, 2);
    case Uint32V(x) => WordRoundTrip(x, 4);
    case Uint64V(x) => WordRoundTrip(x, 8);
    case Sint32V(x) => WordRoundTrip(Sint32Bits(x), 4);
    case FloatV(x) => WordRoundTrip(x, 4);
    case _ =>
  }

  /** A value read right where it was written comes back unchanged. */
  lemma ReadAfterWrite(v: Value, data: seq<Byte>, pos: nat)
    requires pos + |Encode(v)| <= |data| && data[pos..pos + |Encode(v)|] == Encode(v)
    ensures Read(v.KindOf(), data, pos) == (v, pos + |Encode(v)|)
  {
    ValueOfEncode(v);
  }

  lemma AppendAssoc<T>(a: seq<T>, b: seq<T>, c: seq<T>)
    ensures a + b + c == a + (b + c)
  {
  }

  /** The two halves of a slice that holds a + b. */
  lemma SplitSlice<T>(data: seq<T>, pos: nat, a: seq<T>, b: seq<T>)
    requires pos + |a| + |b| <= |data| && data[pos..pos + |a| + |b|] == a + b
    ensures data[pos..pos + |a|] == a
    ensures data[pos + |a|..pos + |a| + |b|] == b
  {
    assert data[pos..pos + |a|] == data[pos..pos + |a| + |b|][..|a|];
    assert data[pos + |a|..pos + |a| + |b|] == data[pos..pos + |a| + |b|][|a|..];
  }

  /** Once the cursor is at or past the end, every read yields the default and stays put. */
  lemma ReadPastEnd(k: Kind, data: seq<Byte>, pos: nat)
    requires pos >= |data|
    ensures Read(k, data, pos) == (Default(k), pos)
  {
  }

  /** A bool reads as true exactly when the byte under the cursor is 1. */
  lemma ReadBoolIsOne(data: seq<Byte>, pos: nat)
    requires pos < |data|
    ensures Read(BoolKind, data, pos).0 == BoolV(data[pos] == 1)
  {
  }

  class LWSerializer {
    /** The bytes written since the last reset. */
    var data: seq<Byte>

    constructor ()
      ensures data == []
    {
      data := [];
    }

    /** Appends the n bytes of v one by one, as each fixed-width write does. */
    method AppendWord(v: nat, n: nat)
      requires v < Pow256(n)
      modifies this
      ensures data == old(data) + WordBytes(v, n)
    {
      var bytes := WordBytes(v, n);
      for j := 0 to n
        invariant data == old(data) + bytes[..j]
      {
        data := data + [bytes[j]];
      }
    }

    method WriteBool(b: bool)
      modifies this
      ensures data == old(data) + Encode(BoolV(b))
      ensures |data| == |old(data)| + 1 && data[|data| - 1] == (if b then 1 else 0)
    {
      data := data + [if b then 1 else 0];
    }

    method WriteByte(b: Byte)
      modifies this
      ensures data == old(data) + Encode(ByteV(b))
    {
      data := data + [b];
    }

    method WriteByteVector(v: seq<Byte>)
      modifies this
      ensures data == old(data) + v
    {
      data := data + v;
    }

    /** Overwrites bytes 0..3 with i; the caller must have written at least 4 bytes. */
    method RewriteFirstUint32(i: Uint32)
      requires |data| >= 4
      modifies this
      ensures |data| == |old(data)|
      ensures data[..4] == WordBytes(i, 4) && data[4..] == old(data)[4..]
    {
      var bytes := WordBytes(i, 4);
      for j := 0 to 4
        invariant |data| == |old(data)|
        invariant data[..j] == bytes[..j] && data[j..] == old(data)[j..]
      {
        data := data[j := bytes[j]];
      }
    }

    method WriteFloat(f: Float32)
      modifies this
      ensures data == old(data) + Encode(FloatV(f))
    {
      AppendWord(f, 4);
    }

    method WriteSint32(i: Sint32)
      modifies this
      ensures data == old(data) + Encode(Sint32V(i))
    {
      AppendWord(Sint32Bits(i), 4);
    }

    method WriteUint16(i: Uint16)
      modifies this
      ensures data == old(data) + Encode(Uint16V(i))
    {
      AppendWord(i, 2);
    }

    method WriteUint32(i: Uint32)
      modifies this
      ensures data == old(data) + Encode(Uint32V(i))
    {
      AppendWord(i, 4);
    }

    method WriteUint64(i: Uint64)
      modifies this
      ensures data == old(data) + Encode(Uint64V(i))
    {
      AppendWord(i, 8);
    }

    /** Any of the writes above, chosen by the value's kind. */
    method Write(v: Value)
      modifies this
      ensures data == old(data) + Encode(v)
    {
      match v
      case BoolV(b) => WriteBool(b);
      case ByteV(x) => WriteByte(x);
      case Uint16V(x) => WriteUint16(x);
      case Uint32V(x) => WriteUint32(x);
      case Uint64V(x) => WriteUint64(x);
      case Sint32V(x) => WriteSint32(x);
      case FloatV(x) => WriteFloat(x);
    }

    method Serialize() returns (r: seq<Byte>)
      ensures r == data
    {
      r := data;
    }

    method Reset()
      modifies this
      ensures data == []
    {
      data := [];
    }
  }

  class LWDeserializer {
    /** The currently loaded message. */
    var data: seq<Byte>
    /** Position of the next byte to read. */
    var pos: nat

    constructor ()
      ensures data == [] && pos == 0
    {
      data, pos := [], 0;
    }

    method Receive(msg: seq<Byte>)
      modifies this
      ensures data == msg && pos == 0
    {
      data, pos := msg, 0;
    }

    method ReadBool() returns (b: bool)
      modifies this
      ensures data == old(data)
      ensures (BoolV(b), pos) == Read(BoolKind, data, old(pos))
      ensures b <==> old(pos) < |data| && data[old(pos)] == 1
    {
      if pos >= |data| {
        return false;
      }
      b := data[pos] == 1;
      pos := pos + 1;
    }

    method ReadByte() returns (x: Byte)
      modifies this
      ensures data == old(data)
      ensures (ByteV(x), pos) == Read(ByteKind, data, old(pos))
    {
      if pos >= |data| {
        return 0;
      }
      x := data[pos];
      pos := pos + 1;
    }

    /** The shared body of the multi-byte reads: only pos >= |data| is guarded. */
    method ReadWord(k: Kind) returns (v: Value)
      requires k !in {BoolKind, ByteKind}
      modifies this
      ensures data == old(data)
      ensures (v, pos) == Read(k, data, old(pos))
    {
      if pos >= |data| {
        return Default(k);
      }
      v := ValueOf(k, Window(data, pos, Width(k)));
      pos := pos + Width(k);
    }

    method ReadFloat() returns (f: Float32)
      modifies this
      ensures data == old(data)
      ensures (FloatV(f), pos) == Read(FloatKind, data, old(pos))
    {
      var v := ReadWord(FloatKind);
      f := v.f;
    }

    method ReadSint32() returns (i: Sint32)
      modifies this
      ensures data == old(data)
      ensures (Sint32V(i), pos) == Read(Sint32Kind, data, old(pos))
    {
      var v := ReadWord(Sint32Kind);
      i := v.s32;
    }

    method ReadUint16() returns (i: Uint16)
      modifies this
      ensures data == old(data)
      ensures (Uint16V(i), pos) == Read(Uint16Kind, data, old(pos))
    {
      var v := ReadWord(Uint16Kind);
      i := v.u16;
    }

    method ReadUint32() returns (i: Uint32)
      modifies this
      ensures data == old(data)
      ensures (Uint32V(i), pos) == Read(Uint32Kind, data, old(pos))
    {
      var v := ReadWord(Uint32Kind);
      i := v.u32;
    }

    method ReadUint64() returns (i: Uint64)
      modifies this
      ensures data == old(data)
      ensures (Uint64V(i), pos) == Read(Uint64Kind, data, old(pos))
    {
      var v := ReadWord(Uint64Kind);
      i := v.u64;
    }

    method Reset()
      modifies this
      ensures data == [] && pos == 0
    {
      pos := 0;
      data := [];
    }
  }
}
