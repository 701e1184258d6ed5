/**
 * Wire-level value types shared by every codec in the library: bytes,
 * fixed-width unsigned and signed integers, single-precision floats kept
 * as opaque 32-bit words, and the canonical (big-endian, network order)
 * byte layout of a fixed-width word.
 */
module Wire {

  type Byte = b: int | 0 <= b < 256
  type Uint8 = Byte
  type Uint16 = n: int | 0 <= n < 0x1_0000
  type Uint32 = n: int | 0 <= n < 0x1_0000_0000
  type Uint64 = n: int | 0 <= n < 0x1_0000_0000_0000_0000
  type Sint32 = n: int | -0x8000_0000 <= n < 0x8000_0000

  /** A single-precision float as the 32 bits that travel on the wire. */
  type Float32 = Uint32

  datatype Option<T> = None | Some(value: T)

  /** 256^n, the number of distinct words of n bytes. */
  function Pow256(n: nat): (r: nat)
    ensures r >= 1
  {
    if n == 0 then 1 else 256 * Pow256(n - 1)
  }

  /** The n bytes of v, most significant first (network byte order). */
  function WordBytes(v: nat, n: nat): (r: seq<Byte>)
    requires v < Pow256(n)
    ensures |r| == n
  {
    if n == 0 then [] else WordBytes(v / 256, n - 1) + [v % 256]
  }

  /** The unsigned value of a big-endian byte string. */
  function WordValue(s: seq<Byte>): (v: nat)
    ensures v < Pow256(|s|)
  {
    if s == [] then 0 else WordValue(s[..|s| - 1]) * 256 + s[|s| - 1]
  }

  /** Decoding the bytes of a word gives the word back. */
  lemma {:induction false} WordRoundTrip(v: nat, n: nat)
    requires v < Pow256(n)
    ensures WordValue(WordBytes(v, n)) == v
  {
    if n > 0 {
      var r := WordBytes(v, n);
      assert r[..n - 1] == WordBytes(v / 256, n - 1);
      WordRoundTrip(v / 256, n - 1);
    }
  }

  /** Every byte string is the encoding of its own value: the layout is injective. */
  lemma {:induction false} WordBytesOfValue(s: seq<Byte>)
    ensures WordBytes(WordValue(s), |s|) == s
  {
    if s != [] {
      var p := s[..|s| - 1];
      WordBytesOfValue(p);
      assert WordValue(s) / 256 == WordValue(p);
      assert s == p + [s[|s| - 1]];
    }
  }

  /** Two's-complement bits of a signed 32-bit integer. */
  function Sint32Bits(i: Sint32): (u: Uint32)
  {
    if i < 0 then i + 0x1_0000_0000 else i
  }

  /** The signed 32-bit integer whose two's-complement bits are u. */
  function Sint32OfBits(u: Uint32): (i: Sint32)
  {
    if u >= 0x8000_0000 then u - 0x1_0000_0000 else u
  }

  lemma Sint32BitsRoundTrip(i: Sint32, u: Uint32)
    ensures Sint32OfBits(Sint32Bits(i)) == i
    ensures Sint32Bits(Sint32OfBits(u)) == u
  {
  }

  function Pow2(e: nat): (r: nat)
    ensures r >= 1
  {
    if e == 0 then 1 else 2 * Pow2(e - 1)
  }

  /**
   * The exact real number denoted by an IEEE-754 binary32 bit pattern
   * (normal and subnormal numbers; infinities and NaNs are mapped to 0).
   * Used where game code computes with a float it has just decoded.
   */
  function FloatValue(w: Float32): real
  {
    var negative := w >= 0x8000_0000;
    var exponent := (w / 0x80_0000) % 256;
    var fraction := w % 0x80_0000;
    var magnitude: real :=
      if exponent == 0 then fraction as real / Pow2(149) as real
      else if exponent == 255 then 0.0
      else if exponent >= 150 then ((0x80_0000 + fraction) * Pow2(exponent - 150)) as real
      else (0x80_0000 + fraction) as real / Pow2(150 - exponent) as real;
    if negative then -magnitude else magnitude
  }
}
