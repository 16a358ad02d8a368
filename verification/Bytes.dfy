/** Bytes, fixed-width little-endian integers, and the vectors the SCALE codec can carry. */
module Bytes {

  type Byte = b: int | 0 <= b < 256
  type U16 = n: int | 0 <= n < 0x1_0000
  type U32 = n: int | 0 <= n < 0x1_0000_0000

  type Bytes = seq<Byte>

  /** A vector whose length fits the u32 that SCALE writes in front of it. */
  type Blob = b: Bytes | |b| < 0x1_0000_0000

  /** A 32-byte value: a block hash, an account id or an sr25519 public key. */
  type Bytes32 = b: Bytes | |b| == 32 witness seq(32, _ => 0)

  datatype Option<+T> = None | Some(value: T)

  function Least(a: nat, b: nat): nat {
    if a < b then a else b
  }

  /** The bytes of an ASCII literal. */
  function Ascii(s: string): (b: Bytes)
    ensures |b| == |s|
  {
    seq(|s|, i requires 0 <= i < |s| => (s[i] as int) % 256)
  }

  function EncodeU16(n: U16): (b: Bytes)
    ensures |b| == 2
  {
    [n % 256, n / 256]
  }

  function DecodeU16(b: Bytes): U16
    requires |b| == 2
  {
    var (lo: int, hi: int) := (b[0], b[1]);
    lo + 256 * hi
  }

  function EncodeU32(n: U32): (b: Bytes)
    ensures |b| == 4
  {
    [n % 256, n / 256 % 256, n / 0x1_0000 % 256, n / 0x100_0000]
  }

  function DecodeU32(b: Bytes): U32
    requires |b| == 4
  {
    var (b0: int, b1: int, b2: int, b3: int) := (b[0], b[1], b[2], b[3]);
    b0 + 256 * b1 + 0x1_0000 * b2 + 0x100_0000 * b3
  }

  lemma U16RoundTrip(n: U16)
    ensures DecodeU16(EncodeU16(n)) == n
  {
  }

  lemma U32RoundTrip(n: U32)
    ensures DecodeU32(EncodeU32(n)) == n
  {
    assert n / 256 / 256 == n / 0x1_0000;
    assert n / 0x1_0000 / 256 == n / 0x100_0000;
  }

  lemma LowDigit(high: nat, low: Byte)
    ensures (low + 256 * high) / 256 == high && (low + 256 * high) % 256 == low
  {
  }

  lemma U32BytesRoundTrip(b: Bytes)
    requires |b| == 4
    ensures EncodeU32(DecodeU32(b)) == b
  {
    var b0: int, b1: int, b2: int, b3: int := b[0], b[1], b[2], b[3];
    var n := DecodeU32(b);
    LowDigit(b2 + 256 * b3, b1);
    LowDigit(b1 + 256 * (b2 + 256 * b3), b0);
    LowDigit(b3, b2);
    assert n == b0 + 256 * (b1 + 256 * (b2 + 256 * b3));
    assert n / 256 / 256 == n / 0x1_0000 && n / 0x1_0000 / 256 == n / 0x100_0000;
  }

  /** The number that bytes stand for, the least significant first. */
  function LittleEndian(b: Bytes): nat {
    if b == [] then 0 else b[0] + 256 * LittleEndian(b[1..])
  }

  lemma U16Value(n: U16)
    ensures LittleEndian(EncodeU16(n)) == n
  {
    var b := EncodeU16(n);
    assert b[1..] == [b[1]] && [b[1]][1..] == [];
    assert LittleEndian([b[1]]) == b[1];
  }

  lemma U32Value(n: U32)
    ensures LittleEndian(EncodeU32(n)) == n
  {
    var b := EncodeU32(n);
    var b0: int, b1: int, b2: int, b3: int := b[0], b[1], b[2], b[3];
    LittleEndianOfFour(b);
    assert n / 256 / 256 == n / 0x1_0000 && n / 0x1_0000 / 256 == n / 0x100_0000;
    assert n == b0 + 256 * (b1 + 256 * (b2 + 256 * b3));
  }

  lemma LittleEndianOfFour(b: Bytes)
    requires |b| == 4
    ensures var (b0: int, b1: int, b2: int, b3: int) := (b[0], b[1], b[2], b[3]);
            LittleEndian(b) == b0 + 256 * (b1 + 256 * (b2 + 256 * b3))
  {
    assert b[1..][1..] == [b[2], b[3]] && [b[2], b[3]][1..] == [b[3]] && [b[3]][1..] == [];
    assert LittleEndian([b[3]]) == b[3];
    assert LittleEndian([b[2], b[3]]) == b[2] + 256 * LittleEndian([b[3]]);
    assert LittleEndian(b[1..]) == b[1] + 256 * LittleEndian([b[2], b[3]]);
  }

  /** Whatever is decoded is the number the bytes stand for. */
  lemma DecodedValue(b: Bytes)
    requires |b| == 4
    ensures DecodeU32(b) == LittleEndian(b)
  {
    U32BytesRoundTrip(b);
    U32Value(DecodeU32(b));
  }
}
