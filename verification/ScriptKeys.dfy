/**
 The key a script is stored under: the SCALE form of the script's name written
 the way Rust's `Debug` writes a string, in double quotes with escapes.
 `Unquote` undoes the quoting, which makes the key injective.
 */
module ScriptKeys {
  import opened Bytes
  import opened Scale
  import opened Unicode

  const QUOTE: Scalar := 34
  const BACKSLASH: Scalar := 92

  // ---------- Hexadecimal, as in \u{1f600} ----------

  function HexDigit(d: nat): Scalar
    requires d < 16
  {
    if d < 10 then 48 + d else 87 + d
  }

  function HexValue(c: Scalar): Option<nat> {
    if 48 <= c < 58 then Some(c - 48) else if 97 <= c < 103 then Some(c - 87) else None
  }

  function Hex(n: nat): Text {
    if n < 16 then [HexDigit(n)] else Hex(n / 16) + [HexDigit(n % 16)]
  }

  /** Reads digits up to the closing brace. */
  function ParseHex(acc: nat, t: Text): (r: Option<(nat, Text)>)
    ensures r.Some? ==> |r.value.1| < |t|
    decreases |t|
  {
    if t == [] then None
    else if t[0] == 125 then Some((acc, t[1..]))
    else if HexValue(t[0]).None? then None
    else ParseHex(16 * acc + HexValue(t[0]).value, t[1..])
  }

  lemma {:induction false} HexRoundTrip(n: nat, rest: Text)
    ensures ParseHex(0, Hex(n) + rest) == ParseHex(n, rest)
  {
    if n < 16 {
      assert ([HexDigit(n)] + rest)[1..] == rest;
    } else {
      var d := [HexDigit(n % 16)];
      HexRoundTrip(n / 16, d + rest);
      assert Hex(n) + rest == Hex(n / 16) + (d + rest);
      assert (d + rest)[1..] == rest;
    }
  }

  // ---------- Escapes ----------

  /** What `Debug` writes for one character; `printable` stands for the library's Unicode tables. */
  function Escape(printable: Scalar -> bool, c: Scalar): Text {
    if c == 0 then [BACKSLASH, 48]
    else if c == 9 then [BACKSLASH, 116]
    else if c == 13 then [BACKSLASH, 114]
    else if c == 10 then [BACKSLASH, 110]
    else if c == BACKSLASH || c == QUOTE then [BACKSLASH, c]
    else if printable(c) then [c]
    else [BACKSLASH, 117, 123] + Hex(c) + [125]
  }

  function EscapeAll(printable: Scalar -> bool, t: Text): Text {
    if t == [] then [] else Escape(printable, t[0]) + EscapeAll(printable, t[1..])
  }

  function DebugQuote(printable: Scalar -> bool, t: Text): Text {
    [QUOTE] + EscapeAll(printable, t) + [QUOTE]
  }

  function UnescapeOne(t: Text): (r: Option<(Scalar, Text)>)
    ensures r.Some? ==> |r.value.1| < |t|
  {
    if t == [] then None
    else if t[0] != BACKSLASH then Some((t[0], t[1..]))
    else if |t| < 2 then None
    else if t[1] == 48 then Some((0, t[2..]))
    else if t[1] == 116 then Some((9, t[2..]))
    else if t[1] == 114 then Some((13, t[2..]))
    else if t[1] == 110 then Some((10, t[2..]))
    else if t[1] == BACKSLASH || t[1] == QUOTE then Some((t[1], t[2..]))
    else if t[1] == 117 && |t| > 2 && t[2] == 123 then
      match ParseHex(0, t[3..])
      case None => None
      case Some((n, rest)) => if IsScalar(n) then Some((n, rest)) else None
    else None
  }

  function Unescape(t: Text): Option<Text>
    decreases |t|
  {
    if t == [] then Some([])
    else
      match UnescapeOne(t)
      case None => None
      case Some((c, rest)) =>
        match Unescape(rest)
        case None => None
        case Some(u) => Some([c] + u)
  }

  function Unquote(t: Text): Option<Text> {
    if |t| < 2 || t[0] != QUOTE || t[|t| - 1] != QUOTE then None else Unescape(t[1..|t| - 1])
  }

  lemma EscapeRoundTrip(printable: Scalar -> bool, c: Scalar, rest: Text)
    ensures UnescapeOne(Escape(printable, c) + rest) == Some((c, rest))
  {
    hide Hex, ParseHex;
    var e := Escape(printable, c);
    if |e| <= 2 {
      assert (e + rest)[|e|..] == rest;
    } else {
      HexEscapeRoundTrip(c, rest);
      assert (e + rest)[3..] == Hex(c) + ([125] + rest);
    }
  }

  lemma HexEscapeRoundTrip(n: nat, rest: Text)
    ensures ParseHex(0, Hex(n) + ([125] + rest)) == Some((n, rest))
  {
    HexRoundTrip(n, [125] + rest);
    assert ([125] + rest)[1..] == rest;
  }

  lemma {:induction false} EscapeAllRoundTrip(printable: Scalar -> bool, t: Text)
    ensures Unescape(EscapeAll(printable, t)) == Some(t)
  {
    if t == [] {
    } else {
      EscapeRoundTrip(printable, t[0], EscapeAll(printable, t[1..]));
      EscapeAllRoundTrip(printable, t[1..]);
      assert t == [t[0]] + t[1..];
    }
  }

  lemma QuoteRoundTrip(printable: Scalar -> bool, t: Text)
    ensures Unquote(DebugQuote(printable, t)) == Some(t)
  {
    EscapeAllRoundTrip(printable, t);
    var q := DebugQuote(printable, t);
    assert q[1..|q| - 1] == EscapeAll(printable, t);
  }

  // ---------- Keys ----------

  /** The storage key of a name, or nothing when it does not fit the key bound. */
  function ScriptKey(printable: Scalar -> bool, maxLen: U32, name: Text): (k: Option<Bytes>)
    ensures k.Some? ==> |k.value| <= maxLen
  {
    var quoted := EncodeUtf8(DebugQuote(printable, name));
    if |quoted| >= 0x1_0000_0000 then None
    else
      var key := EncodeVec(quoted);
      if |key| <= maxLen then Some(key) else None
  }

  /** The name a key was built from. */
  function NameOfKey(key: Bytes): Option<Text> {
    match ParseVec(key)
    case Failed => None
    case Parsed(quoted, rest) =>
      match DecodeUtf8(quoted)
      case None => None
      case Some(t) => Unquote(t)
  }

  lemma KeyRoundTrip(printable: Scalar -> bool, maxLen: U32, name: Text)
    requires ScriptKey(printable, maxLen, name).Some?
    ensures NameOfKey(ScriptKey(printable, maxLen, name).value) == Some(name)
  {
    var quoted := EncodeUtf8(DebugQuote(printable, name));
    VecRoundTrip(quoted, []);
    assert EncodeVec(quoted) + [] == EncodeVec(quoted);
    Utf8RoundTrip(DebugQuote(printable, name));
    QuoteRoundTrip(printable, name);
  }

  lemma KeyInjective(printable: Scalar -> bool, maxLen: U32, a: Text, b: Text)
    requires ScriptKey(printable, maxLen, a).Some?
    requires ScriptKey(printable, maxLen, a) == ScriptKey(printable, maxLen, b)
    ensures a == b
  {
    KeyRoundTrip(printable, maxLen, a);
    KeyRoundTrip(printable, maxLen, b);
  }

  // ---------- What the quoting looks like ----------

  /** The characters that have an escape of their own: NUL, tab, both line ends, quote and backslash. */
  predicate HasEscape(c: Scalar) {
    c in {0, 9, 10, 13, 34, 92}
  }

  /** A character is written as itself, as a backslash and one letter, or in hexadecimal. */
  lemma EscapeForms(printable: Scalar -> bool, c: Scalar)
    ensures |Escape(printable, c)| == 1 <==> printable(c) && !HasEscape(c)
    ensures |Escape(printable, c)| == 1 ==> Escape(printable, c) == [c]
    ensures |Escape(printable, c)| == 2 <==> HasEscape(c)
    ensures |Escape(printable, c)| > 2 ==> exists digits :: Escape(printable, c) == [92, 117, 123] + digits + [125]
  {
    if !HasEscape(c) && !printable(c) {
      assert Escape(printable, c) == [92, 117, 123] + Hex(c) + [125];
    }
  }

  lemma {:induction false} PlainUnescaped(printable: Scalar -> bool, t: Text)
    requires forall k :: 0 <= k < |t| ==> printable(t[k]) && !HasEscape(t[k])
    ensures EscapeAll(printable, t) == t
  {
    if t == [] {
    } else {
      PlainUnescaped(printable, t[1..]);
      EscapeForms(printable, t[0]);
      assert t == [t[0]] + t[1..];
    }
  }

  /** A name without special characters is kept as its UTF-8 between two quotes, with the length in front. */
  lemma PlainKey(printable: Scalar -> bool, maxLen: U32, name: Text)
    requires forall k :: 0 <= k < |name| ==> printable(name[k]) && !HasEscape(name[k])
    ensures var written := [34] + EncodeUtf8(name) + [34];
            ScriptKey(printable, maxLen, name)
            == if |written| < 0x1_0000_0000 && |EncodeVec(written)| <= maxLen then Some(EncodeVec(written)) else None
  {
    PlainUnescaped(printable, name);
    Utf8Append([34] + name, [34]);
    Utf8Append([34], name);
    AsciiText([34]);
    hide EncodeUtf8, EncodeVec, EscapeAll;
  }
}
