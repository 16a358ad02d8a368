/**
 The part of the SCALE codec the repository's records use: compact lengths and
 byte vectors ("SCALE Codec", section A.2.2 of the Polkadot Protocol
 Specification). Decoders return the value and the bytes that are left, and do
 not ask that all bytes are used, as `Decode::decode` does not.
 */
module Scale {
  import opened Bytes

  datatype Parsed<+T> = Failed | Parsed(value: T, rest: Bytes) {
    predicate IsFailure() { Failed? }
    function PropagateFailure<U>(): Parsed<U> requires Failed? { Failed }
    function Extract(): (T, Bytes) requires Parsed? { (value, rest) }
  }

  // ---------- Compact lengths ----------

  function EncodeCompact(n: U32): (b: Bytes)
    ensures 1 <= |b| <= 5
  {
    if n < 0x40 then [4 * n]
    else if n < 0x4000 then EncodeU16(4 * n + 1)
    else if n < 0x4000_0000 then EncodeU32(4 * n + 2)
    else [3] + EncodeU32(n)
  }

  function ParseCompact(b: Bytes): (r: Parsed<U32>)
    ensures r.Parsed? ==> |r.rest| < |b|
  {
    if b == [] then Failed
    else if b[0] % 4 == 0 then Parsed(b[0] / 4, b[1..])
    else if b[0] % 4 == 1 then
      if |b| < 2 then Failed else
      var x := DecodeU16(b[..2]) / 4;
      if 0x3f < x then Parsed(x, b[2..]) else Failed
    else if b[0] % 4 == 2 then
      if |b| < 4 then Failed else
      var x := DecodeU32(b[..4]) / 4;
      if 0x3fff < x then Parsed(x, b[4..]) else Failed
    else if b[0] != 3 then Failed
    else
      if |b| < 5 then Failed else
      var x := DecodeU32(b[1..5]);
      if 0x3fff_ffff < x then Parsed(x, b[5..]) else Failed
  }

  lemma CompactRoundTrip(n: U32, rest: Bytes)
    ensures ParseCompact(EncodeCompact(n) + rest) == Parsed(n, rest)
  {
    if n < 0x40 {
      assert ([4 * n] + rest)[1..] == rest;
    } else if n < 0x4000 {
      TwoByteRoundTrip(n, rest);
    } else if n < 0x4000_0000 {
      FourByteRoundTrip(n, rest);
    } else {
      FiveByteRoundTrip(n, rest);
    }
  }

  lemma TwoByteRoundTrip(n: U32, rest: Bytes)
    requires 0x40 <= n < 0x4000
    ensures ParseCompact(EncodeU16(4 * n + 1) + rest) == Parsed(n, rest)
  {
    var e := EncodeU16(4 * n + 1);
    U16RoundTrip(4 * n + 1);
    assert e[0] % 4 == 1;
    hide EncodeU16, DecodeU16;
    assert (e + rest)[..2] == e && (e + rest)[2..] == rest;
  }

  lemma FourByteRoundTrip(n: U32, rest: Bytes)
    requires 0x4000 <= n < 0x4000_0000
    ensures ParseCompact(EncodeU32(4 * n + 2) + rest) == Parsed(n, rest)
  {
    var e := EncodeU32(4 * n + 2);
    assert e[0] % 4 == (4 * n + 2) % 4;
    hide EncodeU32, DecodeU32;
    U32RoundTrip(4 * n + 2);
    assert (e + rest)[..4] == e && (e + rest)[4..] == rest;
  }

  lemma FiveByteRoundTrip(n: U32, rest: Bytes)
    requires 0x4000_0000 <= n
    ensures ParseCompact([3] + EncodeU32(n) + rest) == Parsed(n, rest)
  {
    hide EncodeU32, DecodeU32;
    U32RoundTrip(n);
    var b := [3] + EncodeU32(n) + rest;
    assert b[1..5] == EncodeU32(n) && b[5..] == rest;
  }

  /** Only the shortest form of a length is accepted. */
  lemma CompactCanonical(b: Bytes)
    requires ParseCompact(b).Parsed?
    ensures b == EncodeCompact(ParseCompact(b).value) + ParseCompact(b).rest
  {
    if b[0] % 4 == 0 {
      assert b == [b[0]] + b[1..];
    } else if b[0] % 4 == 1 {
      TwoByteCanonical(b);
    } else if b[0] % 4 == 2 {
      FourByteCanonical(b);
    } else {
      hide EncodeU32, DecodeU32;
      U32BytesRoundTrip(b[1..5]);
      assert b == [3] + b[1..5] + b[5..];
    }
  }

  lemma TwoByteCanonical(b: Bytes)
    requires ParseCompact(b).Parsed? && b[0] % 4 == 1
    ensures 0x40 <= ParseCompact(b).value < 0x4000
    ensures b == EncodeU16(4 * ParseCompact(b).value + 1) + b[2..]
  {
    var x := DecodeU16(b[..2]);
    assert x % 4 == 1;
    assert EncodeU16(x) == b[..2];
    hide EncodeU16, DecodeU16;
    assert b == b[..2] + b[2..];
  }

  lemma FourByteCanonical(b: Bytes)
    requires ParseCompact(b).Parsed? && b[0] % 4 == 2
    ensures 0x4000 <= ParseCompact(b).value < 0x4000_0000
    ensures b == EncodeU32(4 * ParseCompact(b).value + 2) + b[4..]
  {
    var x := DecodeU32(b[..4]);
    assert x % 4 == 2;
    hide EncodeU32, DecodeU32;
    U32BytesRoundTrip(b[..4]);
    assert b == b[..4] + b[4..];
  }

  /** The least of the four modes that a length fits. */
  function ModeOf(n: U32): nat {
    if n < 0x40 then 0 else if n < 0x4000 then 1 else if n < 0x4000_0000 then 2 else 3
  }

  /**
   The layout of a compact length ("SCALE Codec", A.2.2): the two low bits of
   the first byte are the mode, and the rest is the length, little-endian.
   */
  lemma CompactLayout(n: U32)
    ensures EncodeCompact(n)[0] % 4 == ModeOf(n)
    ensures |EncodeCompact(n)| == if n < 0x40 then 1 else if n < 0x4000 then 2 else if n < 0x4000_0000 then 4 else 5
    ensures n < 0x4000_0000 ==> LittleEndian(EncodeCompact(n)) == 4 * n + ModeOf(n)
    ensures n >= 0x4000_0000 ==> EncodeCompact(n)[0] == 3 && LittleEndian(EncodeCompact(n)[1..]) == n
  {
    if n < 0x40 {
      OneByteValue(4 * n);
      hide LittleEndian;
    } else if n < 0x4000 {
      U16Value(4 * n + 1);
      LowBits16(n);
      hide LittleEndian, EncodeU16;
    } else if n < 0x4000_0000 {
      U32Value(4 * n + 2);
      LowBits32(n);
      hide LittleEndian, EncodeU32;
    } else {
      U32Value(n);
      assert ([3] + EncodeU32(n))[1..] == EncodeU32(n);
      hide LittleEndian, EncodeU32;
    }
  }

  lemma LowBits16(n: nat)
    requires n < 0x4000
    ensures EncodeU16(4 * n + 1)[0] % 4 == 1
  {
  }

  lemma LowBits32(n: nat)
    requires n < 0x4000_0000
    ensures EncodeU32(4 * n + 2)[0] % 4 == 2
  {
  }

  lemma OneByteValue(b: Byte)
    ensures LittleEndian([b]) == b
  {
    var one: Bytes := [b];
    assert one[1..] == [] && LittleEndian(one[1..]) == 0;
  }

  // ---------- Byte vectors ----------

  function EncodeVec(v: Blob): (b: Bytes) {
    EncodeCompact(|v|) + v
  }

  function ParseVec(b: Bytes): (r: Parsed<Blob>)
    ensures r.Parsed? ==> |r.rest| < |b|
  {
    var (n, rest) :- ParseCompact(b);
    if |rest| < n then Failed else Parsed(rest[..n], rest[n..])
  }

  lemma VecRoundTrip(v: Blob, rest: Bytes)
    ensures ParseVec(EncodeVec(v) + rest) == Parsed(v, rest)
  {
    CompactRoundTrip(|v|, v + rest);
    assert EncodeVec(v) + rest == EncodeCompact(|v|) + (v + rest);
    assert (v + rest)[..|v|] == v && (v + rest)[|v|..] == rest;
  }

  lemma VecCanonical(b: Bytes)
    requires ParseVec(b).Parsed?
    ensures b == EncodeVec(ParseVec(b).value) + ParseVec(b).rest
  {
    CompactCanonical(b);
    var Parsed(n, rest) := ParseCompact(b);
    assert rest == rest[..n] + rest[n..];
  }

  function ParseU32(b: Bytes): (r: Parsed<U32>)
    ensures r.Parsed? ==> |r.rest| < |b|
  {
    if |b| < 4 then Failed else Parsed(DecodeU32(b[..4]), b[4..])
  }

  lemma ParseU32RoundTrip(n: U32, rest: Bytes)
    ensures ParseU32(EncodeU32(n) + rest) == Parsed(n, rest)
  {
    U32RoundTrip(n);
    assert (EncodeU32(n) + rest)[..4] == EncodeU32(n) && (EncodeU32(n) + rest)[4..] == rest;
  }
}
