/** Text as Unicode scalar values, with its UTF-8 (RFC 3629, section 3) and UTF-16 (RFC 2781, section 2) forms. */
module Unicode {
  import opened Bytes

  predicate IsScalar(n: int) {
    0 <= n < 0xD800 || 0xE000 <= n < 0x11_0000
  }

  type Scalar = n: int | 0 <= n < 0xD800 || 0xE000 <= n < 0x11_0000
  type Text = seq<Scalar>

  // ---------- UTF-8 ----------

  function EncodeScalar(c: Scalar): (b: Bytes)
    ensures 1 <= |b| <= 4
  {
    if c < 0x80 then [c]
    else if c < 0x800 then [0xC0 + c / 64, 0x80 + c % 64]
    else if c < 0x1_0000 then [0xE0 + c / 4096, 0x80 + c / 64 % 64, 0x80 + c % 64]
    else [0xF0 + c / 0x4_0000, 0x80 + c / 4096 % 64, 0x80 + c / 64 % 64, 0x80 + c % 64]
  }

  predicate IsContinuation(b: Byte) { 0x80 <= b < 0xC0 }

  /** The six bits a continuation byte carries below those already read. */
  function Shift(acc: int, b: Byte): int { 64 * acc + (b - 0x80) }

  /** Reads one scalar; longer forms than needed, surrogates and values above 0x10FFFF are refused. */
  function DecodeScalar(b: Bytes): (r: Option<(Scalar, Bytes)>)
    ensures r.Some? ==> |r.value.1| < |b|
  {
    if b == [] then None
    else if b[0] < 0x80 then Some((b[0], b[1..]))
    else if 0xC0 <= b[0] < 0xE0 then
      if |b| < 2 || !IsContinuation(b[1]) then None else
      var n := Shift(b[0] - 0xC0, b[1]);
      if 0x80 <= n then Some((n, b[2..])) else None
    else if 0xE0 <= b[0] < 0xF0 then
      if |b| < 3 || !IsContinuation(b[1]) || !IsContinuation(b[2]) then None else
      var n := Shift(Shift(b[0] - 0xE0, b[1]), b[2]);
      if 0x800 <= n && IsScalar(n) then Some((n, b[3..])) else None
    else if 0xF0 <= b[0] < 0xF8 then
      if |b| < 4 || !IsContinuation(b[1]) || !IsContinuation(b[2]) || !IsContinuation(b[3]) then None else
      var n := Shift(Shift(Shift(b[0] - 0xF0, b[1]), b[2]), b[3]);
      if 0x1_0000 <= n && IsScalar(n) then Some((n, b[4..])) else None
    else None
  }

  function EncodeUtf8(t: Text): Bytes {
    if t == [] then [] else EncodeScalar(t[0]) + EncodeUtf8(t[1..])
  }

  function DecodeUtf8(b: Bytes): Option<Text> {
    if b == [] then Some([])
    else
      match DecodeScalar(b)
      case None => None
      case Some((c, rest)) =>
        match DecodeUtf8(rest)
        case None => None
        case Some(t) => Some([c] + t)
  }

  lemma ScalarRoundTrip(c: Scalar, rest: Bytes)
    ensures DecodeScalar(EncodeScalar(c) + rest) == Some((c, rest))
  {
    var e := EncodeScalar(c);
    assert (e + rest)[|e|..] == rest;
    var n: int := c;
    assert n / 64 / 64 == n / 4096 && n / 4096 / 64 == n / 0x4_0000;
  }

  lemma ScalarCanonical(b: Bytes)
    requires DecodeScalar(b).Some?
    ensures b == EncodeScalar(DecodeScalar(b).value.0) + DecodeScalar(b).value.1
  {
    if b[0] < 0x80 {
    } else if b[0] < 0xE0 {
      assert b == b[..2] + b[2..];
    } else if b[0] < 0xF0 {
      ThreeByteCanonical(b);
    } else {
      FourByteCanonical(b);
    }
  }

  lemma ThreeByteCanonical(b: Bytes)
    requires DecodeScalar(b).Some? && 0xE0 <= b[0] < 0xF0
    ensures b == EncodeScalar(DecodeScalar(b).value.0) + DecodeScalar(b).value.1
  {
    var n: int := DecodeScalar(b).value.0;
    assert n / 64 == Shift(b[0] - 0xE0, b[1]);
    assert n / 64 / 64 == n / 4096;
    assert b == b[..3] + b[3..];
  }

  lemma FourByteCanonical(b: Bytes)
    requires DecodeScalar(b).Some? && 0xF0 <= b[0]
    ensures b == EncodeScalar(DecodeScalar(b).value.0) + DecodeScalar(b).value.1
  {
    var n: int := DecodeScalar(b).value.0;
    assert n / 64 == Shift(Shift(b[0] - 0xF0, b[1]), b[2]);
    assert n / 64 / 64 == Shift(b[0] - 0xF0, b[1]);
    assert n / 64 / 64 == n / 4096 && n / 4096 / 64 == n / 0x4_0000;
    assert b == b[..4] + b[4..];
  }

  /** The layout of UTF-8 (RFC 3629, section 3): how many bytes, and which bits each carries. */
  lemma ScalarLayout(c: Scalar)
    ensures var e: seq<int> := EncodeScalar(c);
            && |e| == (if c < 0x80 then 1 else if c < 0x800 then 2 else if c < 0x1_0000 then 3 else 4)
            && (forall i :: 1 <= i < |e| ==> 0x80 <= e[i] < 0xC0)
            && (|e| == 1 ==> c == e[0])
            && (|e| == 2 ==> 0xC0 <= e[0] < 0xE0 && c == 64 * (e[0] - 0xC0) + (e[1] - 0x80))
            && (|e| == 3 ==> 0xE0 <= e[0] < 0xF0 && c == 64 * (64 * (e[0] - 0xE0) + (e[1] - 0x80)) + (e[2] - 0x80))
            && (|e| == 4 ==>
                  0xF0 <= e[0] < 0xF8
                  && c == 64 * (64 * (64 * (e[0] - 0xF0) + (e[1] - 0x80)) + (e[2] - 0x80)) + (e[3] - 0x80))
  {
    var n: int := c;
    assert n / 64 / 64 == n / 4096 && n / 4096 / 64 == n / 0x4_0000;
  }

  lemma {:induction false} Utf8RoundTrip(t: Text)
    ensures DecodeUtf8(EncodeUtf8(t)) == Some(t)
  {
    if t == [] {
    } else {
      ScalarRoundTrip(t[0], EncodeUtf8(t[1..]));
      Utf8RoundTrip(t[1..]);
      assert t == [t[0]] + t[1..];
    }
  }

  /** Only the bytes that `EncodeUtf8` writes are accepted. */
  lemma {:induction false} Utf8Canonical(b: Bytes)
    requires DecodeUtf8(b).Some?
    ensures EncodeUtf8(DecodeUtf8(b).value) == b
  {
    if b == [] {
    } else {
      ScalarCanonical(b);
      var (c, rest) := DecodeScalar(b).value;
      Utf8Canonical(rest);
      assert ([c] + DecodeUtf8(rest).value)[1..] == DecodeUtf8(rest).value;
    }
  }

  lemma {:induction false} Utf8Append(s: Text, t: Text)
    ensures EncodeUtf8(s + t) == EncodeUtf8(s) + EncodeUtf8(t)
  {
    hide EncodeScalar;
    if s == [] {
      assert s + t == t;
    } else {
      assert (s + t)[1..] == s[1..] + t;
      Utf8Append(s[1..], t);
    }
  }

  /** Text of the first 128 characters is its own UTF-8. */
  lemma {:induction false} AsciiText(t: Text)
    requires forall k :: 0 <= k < |t| ==> t[k] < 0x80
    ensures EncodeUtf8(t) == t
  {
    if t == [] {
    } else {
      AsciiText(t[1..]);
      assert t == [t[0]] + t[1..];
    }
  }

  lemma {:induction false} Utf8Size(t: Text)
    ensures |t| <= |EncodeUtf8(t)| <= 4 * |t|
  {
    if t == [] {
    } else {
      Utf8Size(t[1..]);
    }
  }

  // ---------- UTF-16 ----------

  predicate IsHigh(u: U16) { 0xD800 <= u < 0xDC00 }
  predicate IsLow(u: U16) { 0xDC00 <= u < 0xE000 }
  predicate IsSurrogate(u: U16) { IsHigh(u) || IsLow(u) }

  function Pair(c: Scalar): (p: seq<U16>)
    requires c >= 0x1_0000
    ensures |p| == 2 && IsHigh(p[0]) && IsLow(p[1])
  {
    var n: int := c;
    [0xD800 + (n - 0x1_0000) / 0x400, 0xDC00 + (n - 0x1_0000) % 0x400]
  }

  function Join(hi: U16, lo: U16): (c: Scalar)
    requires IsHigh(hi) && IsLow(lo)
    ensures c >= 0x1_0000 && Pair(c) == [hi, lo]
  {
    var (h: int, l: int) := (hi, lo);
    0x1_0000 + 0x400 * (h - 0xD800) + (l - 0xDC00)
  }

  function EncodeUtf16(t: Text): seq<U16> {
    if t == [] then []
    else if t[0] < 0x1_0000 then [t[0]] + EncodeUtf16(t[1..])
    else
      Pair(t[0]) + EncodeUtf16(t[1..])
  }

  function DecodeUtf16(u: seq<U16>): Option<Text> {
    if u == [] then Some([])
    else if !IsSurrogate(u[0]) then
      match DecodeUtf16(u[1..])
      case None => None
      case Some(t) => Some([u[0]] + t)
    else if IsHigh(u[0]) && |u| >= 2 && IsLow(u[1]) then
      match DecodeUtf16(u[2..])
      case None => None
      case Some(t) => Some([Join(u[0], u[1])] + t)
    else None
  }

  /** The layout of a surrogate pair (RFC 2781, section 2.1): ten bits above, ten bits below. */
  lemma PairLayout(c: Scalar)
    requires c >= 0x1_0000
    ensures var p: seq<int> := Pair(c); c == 0x1_0000 + 0x400 * (p[0] - 0xD800) + (p[1] - 0xDC00)
  {
  }

  lemma {:induction false} Utf16RoundTrip(t: Text)
    ensures DecodeUtf16(EncodeUtf16(t)) == Some(t)
  {
    if t == [] {
    } else {
      Utf16RoundTrip(t[1..]);
      var u := EncodeUtf16(t);
      assert t == [t[0]] + t[1..];
      if t[0] < 0x1_0000 {
        assert u[1..] == EncodeUtf16(t[1..]);
      } else {
        assert u[2..] == EncodeUtf16(t[1..]);
        assert Join(u[0], u[1]) == t[0];
      }
    }
  }

  /** Decoding loses nothing: the text it returns has exactly those units. */
  lemma {:induction false} Utf16Canonical(u: seq<U16>)
    requires DecodeUtf16(u).Some?
    ensures EncodeUtf16(DecodeUtf16(u).value) == u
  {
    if u == [] {
    } else {
      var t := DecodeUtf16(u).value;
      if !IsSurrogate(u[0]) {
        Utf16Canonical(u[1..]);
        assert t[1..] == DecodeUtf16(u[1..]).value;
        assert u == [u[0]] + u[1..];
      } else {
        Utf16Canonical(u[2..]);
        assert t[1..] == DecodeUtf16(u[2..]).value;
        assert u == [u[0], u[1]] + u[2..];
      }
    }
  }

  /** Each high surrogate is followed by a low one, and each low one follows a high one. */
  ghost predicate Paired(u: seq<U16>) {
    && (forall k :: 0 <= k < |u| && IsHigh(u[k]) ==> k + 1 < |u| && IsLow(u[k + 1]))
    && (forall k :: 0 <= k < |u| && IsLow(u[k]) ==> k > 0 && IsHigh(u[k - 1]))
  }

  /** Exactly the units whose surrogates are paired are text. */
  lemma {:induction false} DecodesIffPaired(u: seq<U16>)
    ensures DecodeUtf16(u).Some? <==> Paired(u)
  {
    if u == [] {
    } else if !IsSurrogate(u[0]) {
      DecodesIffPaired(u[1..]);
      PairedRest(u, 1);
    } else if IsHigh(u[0]) && |u| >= 2 && IsLow(u[1]) {
      DecodesIffPaired(u[2..]);
      PairedRest(u, 2);
    }
  }

  lemma PairedRest(u: seq<U16>, n: nat)
    requires n <= |u|
    requires (n == 1 && !IsSurrogate(u[0])) || (n == 2 && IsHigh(u[0]) && IsLow(u[1]))
    ensures Paired(u[n..]) <==> Paired(u)
  {
    var v := u[n..];
    assert forall k :: 0 <= k < |v| ==> v[k] == u[k + n];
    assert forall k :: n <= k < |u| ==> u[k] == v[k - n];
  }

  /** Fewer scalars than units exactly when a surrogate pair was joined. */
  lemma {:induction false} Utf16Length(u: seq<U16>)
    requires DecodeUtf16(u).Some?
    ensures |DecodeUtf16(u).value| <= |u|
    ensures |DecodeUtf16(u).value| == |u| <==> forall k :: 0 <= k < |u| ==> !IsSurrogate(u[k])
  {
    if u == [] {
    } else if !IsSurrogate(u[0]) {
      Utf16Length(u[1..]);
      assert forall k :: 1 <= k < |u| ==> u[k] == u[1..][k - 1];
    } else {
      Utf16Length(u[2..]);
    }
  }
}
