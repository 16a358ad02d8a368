/**
 The executor's output marshaller: it walks the `Output` schema over linear
 memory and emits concatenated SCALE values; a typed decoder reads them back.
 Floats are their bit patterns.
 */
module FieldWalk {
  import opened Bytes
  import opened Scale
  import opened Unicode
  import opened Memory

  // ---------- Schemas ----------

  datatype Kind = I32 | F32 | I64 | F64 | ClassArray | SkippedArray | Str | Unknown

  predicate StartsWith(s: string, prefix: string) {
    |prefix| <= |s| && s[..|prefix|] == prefix
  }

  /** How the walk treats a type name; an array whose class is not declared is passed over without a read. */
  function Classify(typ: string, classes: set<string>): Kind {
    if typ == "i32" then I32
    else if typ == "f32" then F32
    else if typ == "i64" then I64
    else if typ == "f64" then F64
    else if StartsWith(typ, "Array<") then
      if |typ| > 6 && typ[|typ| - 1] == '>' && typ[6..|typ| - 1] in classes then ClassArray else SkippedArray
    else if typ == "string" then Str
    else Unknown
  }

  /** How far a field moves the offset. */
  function Width(k: Kind): nat {
    match k
    case I64 => 8
    case F64 => 8
    case SkippedArray => 0
    case _ => 4
  }

  /** Where the field after these ones starts. */
  function Offset(kinds: seq<Kind>): nat {
    if kinds == [] then 0 else Offset(kinds[..|kinds| - 1]) + Width(kinds[|kinds| - 1])
  }

  predicate Emits(k: Kind) {
    k != SkippedArray && k != Unknown
  }

  // ---------- Values and their SCALE form ----------

  /** Texts and arrays whose length fits the u32 that SCALE writes in front of them. */
  type SmallText = t: Text | |EncodeUtf8(t)| < 0x1_0000_0000
  type Items = s: seq<U32> | |s| < 0x1_0000_0000

  datatype Value =
    | Word(bits: U32)
    | Long(low: U32, high: U32)
    | Floats(items: Items)
    | String(text: SmallText)

  ghost predicate HasKind(v: Value, k: Kind) {
    match k
    case I32 => v.Word?
    case F32 => v.Word?
    case I64 => v.Long?
    case F64 => v.Long?
    case ClassArray => v.Floats?
    case Str => v.String?
    case _ => false
  }

  function EncodeWords(items: seq<U32>): Bytes {
    if items == [] then [] else EncodeU32(items[0]) + EncodeWords(items[1..])
  }

  function Encode(v: Value): Bytes {
    match v
    case Word(bits) => EncodeU32(bits)
    case Long(low, high) => EncodeU32(low) + EncodeU32(high)
    case Floats(items) => EncodeCompact(|items|) + EncodeWords(items)
    case String(text) => EncodeVec(EncodeUtf8(text))
  }

  function EncodeAll(vs: seq<Value>): Bytes {
    if vs == [] then [] else Encode(vs[0]) + EncodeAll(vs[1..])
  }

  // ---------- Reading one field ----------

  /** The pointers in an array's slots, in order. */
  function Slots(mem: Memory, data: nat, n: nat): (p: seq<U32>)
    requires n == 0 || data + 4 * n <= |mem|
    ensures |p| == n
  {
    if n == 0 then [] else Slots(mem, data, n - 1) + [DecodeU32(mem[data + 4 * (n - 1)..data + 4 * n])]
  }

  function NonNull(p: seq<U32>): (q: seq<U32>)
    ensures |q| <= |p|
  {
    if p == [] then []
    else NonNull(p[..|p| - 1]) + if p[|p| - 1] == 0 then [] else [p[|p| - 1]]
  }

  /** The words the pointers lead to, if all are in memory. */
  function DerefAll(mem: Memory, p: seq<U32>): (r: Read<seq<U32>>)
    ensures r.Ok? ==> |r.value| == |p|
  {
    if p == [] then Ok([])
    else
      var front :- DerefAll(mem, p[..|p| - 1]);
      var last :- LoadU32(mem, p[|p| - 1]);
      Ok(front + [last])
  }

  /** An array's values: its non-null slots, dereferenced in order. */
  function Elements(mem: Memory, data: nat, n: U32): (r: Read<seq<U32>>)
    ensures r.Ok? ==> |r.value| <= n
  {
    if n == 0 || data + 4 * n <= |mem| then DerefAll(mem, NonNull(Slots(mem, data, n)))
    else Read.Fault(OutOfBounds)
  }

  function ReadArray(mem: Memory, addr: nat): Read<Items> {
    var ptr :- LoadU32(mem, addr);
    var header :- Load(mem, ptr, 16);
    var data := DecodeU32(header[4..8]);
    if data == 0 then Read.Fault(NullArrayData) else Elements(mem, data, DecodeU32(header[12..16]))
  }

  /** Text that cannot be read, or is not UTF-16, is replaced by the empty text. */
  function TextAt(mem: Memory, ptr: nat): SmallText {
    match ReadUtf16(mem, ptr, 1024)
    case None => []
    case Some(t) =>
      Utf8Size(t);
      t
  }

  function ReadWord(mem: Memory, addr: nat): Read<Value> {
    var w :- LoadU32(mem, addr);
    Ok(Word(w))
  }

  function ReadLong(mem: Memory, addr: nat): Read<Value> {
    var b :- Load(mem, addr, 8);
    Ok(Long(DecodeU32(b[..4]), DecodeU32(b[4..])))
  }

  function ReadFloats(mem: Memory, addr: nat): Read<Value> {
    var items :- ReadArray(mem, addr);
    Ok(Floats(items))
  }

  function ReadString(mem: Memory, addr: nat): Read<Value> {
    var ptr :- LoadU32(mem, addr);
    Ok(String(TextAt(mem, ptr)))
  }

  /** What one field contributes, read at its address. */
  function ReadField(mem: Memory, addr: nat, k: Kind): (r: Read<Option<Value>>)
    ensures r.Ok? ==> (r.value.Some? <==> Emits(k)) && (Emits(k) ==> HasKind(r.value.value, k))
  {
    match k
    case SkippedArray => Ok(None)
    case Unknown =>
      var w :- LoadU32(mem, addr);
      Ok(None)
    case I32 =>
      var v :- ReadWord(mem, addr);
      Ok(Some(v))
    case F32 =>
      var v :- ReadWord(mem, addr);
      Ok(Some(v))
    case I64 =>
      var v :- ReadLong(mem, addr);
      Ok(Some(v))
    case F64 =>
      var v :- ReadLong(mem, addr);
      Ok(Some(v))
    case ClassArray =>
      var v :- ReadFloats(mem, addr);
      Ok(Some(v))
    case Str =>
      var v :- ReadString(mem, addr);
      Ok(Some(v))
  }

  /** Field `k` of the schema, read at the base plus the widths of the fields before it. */
  function FieldAt(mem: Memory, base: nat, kinds: seq<Kind>, k: nat): Read<Option<Value>>
    requires k < |kinds|
  {
    ReadField(mem, base + Offset(kinds[..k]), kinds[k])
  }

  ghost predicate AllReadable(mem: Memory, base: nat, kinds: seq<Kind>) {
    forall k :: 0 <= k < |kinds| ==> FieldAt(mem, base, kinds, k).Ok?
  }

  /** The values of the emitting fields, in schema order. */
  function Values(mem: Memory, base: nat, kinds: seq<Kind>): seq<Value> {
    if kinds == [] then []
    else
      var front := kinds[..|kinds| - 1];
      Values(mem, base, front)
      + match ReadField(mem, base + Offset(front), kinds[|kinds| - 1])
        case Ok(Some(v)) => [v]
        case _ => []
  }

  function Emitting(kinds: seq<Kind>): seq<Kind> {
    if kinds == [] then []
    else Emitting(kinds[..|kinds| - 1]) + if Emits(kinds[|kinds| - 1]) then [kinds[|kinds| - 1]] else []
  }

  ghost predicate Typed(vs: seq<Value>, kinds: seq<Kind>) {
    |vs| == |kinds| && forall i :: 0 <= i < |vs| ==> HasKind(vs[i], kinds[i])
  }

  lemma {:induction false} ValuesTyped(mem: Memory, base: nat, kinds: seq<Kind>)
    requires AllReadable(mem, base, kinds)
    ensures Typed(Values(mem, base, kinds), Emitting(kinds))
  {
    if kinds == [] {
    } else {
      var front := kinds[..|kinds| - 1];
      AllReadableFront(mem, base, kinds);
      ValuesTyped(mem, base, front);
      assert FieldAt(mem, base, kinds, |kinds| - 1).Ok?;
    }
  }

  lemma AllReadableFront(mem: Memory, base: nat, kinds: seq<Kind>)
    requires kinds != []
    ensures AllReadable(mem, base, kinds)
            <==> AllReadable(mem, base, kinds[..|kinds| - 1]) && FieldAt(mem, base, kinds, |kinds| - 1).Ok?
  {
    var front := kinds[..|kinds| - 1];
    forall k | 0 <= k < |front| ensures FieldAt(mem, base, front, k) == FieldAt(mem, base, kinds, k) {
      assert front[..k] == kinds[..k];
    }
  }

  // ---------- Reading the output back ----------

  function ParseWords(n: nat, b: Bytes): Parsed<seq<U32>> {
    if n == 0 then Parsed([], b)
    else
      var (w, b1) :- ParseU32(b);
      var (ws, b2) :- ParseWords(n - 1, b1);
      Parsed([w] + ws, b2)
  }

  lemma {:induction false} WordsRoundTrip(items: seq<U32>, rest: Bytes)
    ensures ParseWords(|items|, EncodeWords(items) + rest) == Parsed(items, rest)
  {
    hide EncodeU32, ParseU32;
    if items == [] {
      assert [] + rest == rest;
    } else {
      var tail := EncodeWords(items[1..]) + rest;
      ParseU32RoundTrip(items[0], tail);
      WordsRoundTrip(items[1..], rest);
      assert EncodeWords(items) + rest == EncodeU32(items[0]) + tail;
      assert [items[0]] + items[1..] == items;
    }
  }

  function ParseFloats(b: Bytes): Parsed<Value> {
    var (n, b1) :- ParseCompact(b);
    var (ws, b2) :- ParseWords(n, b1);
    ParsedLength(n, b1);
    Parsed(Floats(ws), b2)
  }

  lemma {:induction false} ParsedLength(n: nat, b: Bytes)
    ensures ParseWords(n, b).Parsed? ==> |ParseWords(n, b).value| == n
  {
    if n == 0 {
    } else if ParseU32(b).Parsed? {
      ParsedLength(n - 1, ParseU32(b).rest);
    }
  }

  function ParseString(b: Bytes): Parsed<Value> {
    var (raw, rest) :- ParseVec(b);
    match DecodeUtf8(raw)
    case None => Failed
    case Some(t) =>
      Utf8Canonical(raw);
      Parsed(String(t), rest)
  }

  function ParseLong(b: Bytes): Parsed<Value> {
    var (low, b1) :- ParseU32(b);
    var (high, b2) :- ParseU32(b1);
    Parsed(Long(low, high), b2)
  }

  function ParseWord(b: Bytes): Parsed<Value> {
    var (w, rest) :- ParseU32(b);
    Parsed(Word(w), rest)
  }

  /** A field of a decoded struct, by its type. */
  function ParseValue(k: Kind, b: Bytes): Parsed<Value> {
    match k
    case I32 => ParseWord(b)
    case F32 => ParseWord(b)
    case I64 => ParseLong(b)
    case F64 => ParseLong(b)
    case ClassArray => ParseFloats(b)
    case Str => ParseString(b)
    case _ => Failed
  }

  /** Field after field, as a derived `decode` reads a struct. */
  function ParseAll(kinds: seq<Kind>, b: Bytes): Parsed<seq<Value>> {
    if kinds == [] then Parsed([], b)
    else
      var (v, b1) :- ParseValue(kinds[0], b);
      var (vs, b2) :- ParseAll(kinds[1..], b1);
      Parsed([v] + vs, b2)
  }

  lemma FloatsRoundTrip(items: Items, rest: Bytes)
    ensures ParseFloats(Encode(Floats(items)) + rest) == Parsed(Floats(items), rest)
  {
    hide EncodeCompact, ParseCompact, EncodeWords, ParseWords;
    CompactRoundTrip(|items|, EncodeWords(items) + rest);
    WordsRoundTrip(items, rest);
    assert Encode(Floats(items)) + rest == EncodeCompact(|items|) + (EncodeWords(items) + rest);
  }

  lemma StringRoundTrip(t: SmallText, rest: Bytes)
    ensures ParseString(Encode(String(t)) + rest) == Parsed(String(t), rest)
  {
    hide EncodeVec, ParseVec, EncodeUtf8, DecodeUtf8;
    VecRoundTrip(EncodeUtf8(t), rest);
    Utf8RoundTrip(t);
  }

  lemma LongRoundTrip(low: U32, high: U32, rest: Bytes)
    ensures ParseLong(Encode(Long(low, high)) + rest) == Parsed(Long(low, high), rest)
  {
    hide EncodeU32, ParseU32;
    ParseU32RoundTrip(low, EncodeU32(high) + rest);
    ParseU32RoundTrip(high, rest);
    assert Encode(Long(low, high)) + rest == EncodeU32(low) + (EncodeU32(high) + rest);
  }

  lemma ValueRoundTrip(v: Value, k: Kind, rest: Bytes)
    requires HasKind(v, k)
    ensures ParseValue(k, Encode(v) + rest) == Parsed(v, rest)
  {
    hide Encode, ParseLong, ParseFloats, ParseString, ParseU32;
    match v
    case Word(bits) => WordRoundTrip(bits, rest);
    case Long(low, high) => LongRoundTrip(low, high, rest);
    case Floats(items) => FloatsRoundTrip(items, rest);
    case String(t) => StringRoundTrip(t, rest);
  }

  lemma WordRoundTrip(bits: U32, rest: Bytes)
    ensures ParseU32(Encode(Word(bits)) + rest) == Parsed(bits, rest)
  {
    ParseU32RoundTrip(bits, rest);
  }

  lemma {:induction false} AllRoundTrip(vs: seq<Value>, kinds: seq<Kind>, rest: Bytes)
    requires Typed(vs, kinds)
    ensures ParseAll(kinds, EncodeAll(vs) + rest) == Parsed(vs, rest)
  {
    hide Encode, ParseValue, HasKind;
    if vs == [] {
      assert [] + rest == rest;
    } else {
      var tail := EncodeAll(vs[1..]) + rest;
      assert HasKind(vs[0], kinds[0]);
      ValueRoundTrip(vs[0], kinds[0], tail);
      AllRoundTrip(vs[1..], kinds[1..], rest);
      assert EncodeAll(vs) + rest == Encode(vs[0]) + tail;
      assert [vs[0]] + vs[1..] == vs;
    }
  }

  // ---------- Only encodings are accepted ----------

  lemma U32Canonical(b: Bytes)
    requires ParseU32(b).Parsed?
    ensures b == EncodeU32(ParseU32(b).value) + ParseU32(b).rest
  {
    U32BytesRoundTrip(b[..4]);
    hide EncodeU32, DecodeU32;
    assert b == b[..4] + b[4..];
  }

  lemma {:induction false} WordsCanonical(n: nat, b: Bytes)
    requires ParseWords(n, b).Parsed?
    ensures b == EncodeWords(ParseWords(n, b).value) + ParseWords(n, b).rest
  {
    hide EncodeU32, ParseU32;
    if n == 0 {
      assert b == [] + b;
    } else {
      U32Canonical(b);
      var Parsed(w, rest) := ParseU32(b);
      WordsCanonical(n - 1, rest);
      var ws := ParseWords(n - 1, rest).value;
      assert ([w] + ws)[1..] == ws;
      assert EncodeU32(w) + (EncodeWords(ws) + ParseWords(n, b).rest) == EncodeWords([w] + ws) + ParseWords(n, b).rest;
    }
  }

  lemma FloatsCanonical(b: Bytes)
    requires ParseFloats(b).Parsed?
    ensures b == Encode(ParseFloats(b).value) + ParseFloats(b).rest
  {
    hide EncodeCompact, ParseCompact, EncodeWords, ParseWords;
    CompactCanonical(b);
    var Parsed(n, rest) := ParseCompact(b);
    WordsCanonical(n, rest);
    ParsedLength(n, rest);
    var ws := ParseWords(n, rest).value;
    assert EncodeCompact(n) + (EncodeWords(ws) + ParseFloats(b).rest) == Encode(Floats(ws)) + ParseFloats(b).rest;
  }

  lemma StringCanonical(b: Bytes)
    requires ParseString(b).Parsed?
    ensures b == Encode(ParseString(b).value) + ParseString(b).rest
  {
    hide EncodeVec, ParseVec, EncodeUtf8, DecodeUtf8;
    VecCanonical(b);
    Utf8Canonical(ParseVec(b).value);
  }

  lemma LongCanonical(b: Bytes)
    requires ParseLong(b).Parsed?
    ensures b == Encode(ParseLong(b).value) + ParseLong(b).rest
  {
    hide EncodeU32, ParseU32;
    U32Canonical(b);
    U32Canonical(ParseU32(b).rest);
    var v := ParseLong(b).value;
    assert EncodeU32(v.low) + (EncodeU32(v.high) + ParseLong(b).rest) == Encode(v) + ParseLong(b).rest;
  }

  lemma ValueCanonical(k: Kind, b: Bytes)
    requires ParseValue(k, b).Parsed?
    ensures HasKind(ParseValue(k, b).value, k)
    ensures b == Encode(ParseValue(k, b).value) + ParseValue(k, b).rest
  {
    hide EncodeU32, ParseU32, EncodeCompact, ParseCompact, ParseVec, EncodeVec, EncodeWords, ParseWords;
    match k
    case I32 => U32Canonical(b);
    case F32 => U32Canonical(b);
    case I64 => LongCanonical(b);
    case F64 => LongCanonical(b);
    case ClassArray => FloatsCanonical(b);
    case Str => StringCanonical(b);
  }

  /** The decoder accepts nothing but the encoding of values of the schema's kinds. */
  lemma {:induction false} AllCanonical(kinds: seq<Kind>, b: Bytes)
    requires ParseAll(kinds, b).Parsed?
    ensures Typed(ParseAll(kinds, b).value, kinds)
    ensures b == EncodeAll(ParseAll(kinds, b).value) + ParseAll(kinds, b).rest
  {
    hide Encode, ParseValue, HasKind;
    if kinds == [] {
      assert b == [] + b;
    } else {
      ValueCanonical(kinds[0], b);
      var Parsed(v, rest) := ParseValue(kinds[0], b);
      AllCanonical(kinds[1..], rest);
      var vs := ParseAll(kinds[1..], rest).value;
      assert ([v] + vs)[1..] == vs;
      assert Encode(v) + (EncodeAll(vs) + ParseAll(kinds, b).rest) == EncodeAll([v] + vs) + ParseAll(kinds, b).rest;
    }
  }

  /**
   Whatever the schema and the memory, if every field can be read then decoding
   the emitted bytes under the emitting part of the schema gives back exactly
   the values that were read, and uses every byte.
   */
  lemma OutputRoundTrip(mem: Memory, base: nat, kinds: seq<Kind>)
    requires AllReadable(mem, base, kinds)
    ensures ParseAll(Emitting(kinds), EncodeAll(Values(mem, base, kinds))) == Parsed(Values(mem, base, kinds), [])
  {
    ValuesTyped(mem, base, kinds);
    var vs := Values(mem, base, kinds);
    AllRoundTrip(vs, Emitting(kinds), []);
    assert EncodeAll(vs) + [] == EncodeAll(vs);
  }

  // ---------- The walk ----------

  lemma {:induction false} EncodeAllAppend(vs: seq<Value>, v: Value)
    ensures EncodeAll(vs + [v]) == EncodeAll(vs) + Encode(v)
  {
    hide Encode;
    if vs == [] {
      assert [v][1..] == [];
    } else {
      assert (vs + [v])[1..] == vs[1..] + [v];
      EncodeAllAppend(vs[1..], v);
    }
  }

  function SlotAt(mem: Memory, data: nat, i: nat): Read<U32> {
    LoadU32(mem, data + 4 * i)
  }

  /** The non-null pointers among one more slot. */
  lemma OneMoreSlot(mem: Memory, data: nat, i: nat)
    requires data + 4 * (i + 1) <= |mem|
    ensures SlotAt(mem, data, i).Ok?
    ensures NonNull(Slots(mem, data, i + 1))
            == NonNull(Slots(mem, data, i))
               + if SlotAt(mem, data, i).value == 0 then [] else [SlotAt(mem, data, i).value]
  {
    hide DecodeU32;
    var slots := Slots(mem, data, i + 1);
    assert slots[..i] == Slots(mem, data, i);
  }

  lemma DerefOneMore(mem: Memory, p: seq<U32>, ptr: U32)
    ensures DerefAll(mem, p + [ptr])
            == match DerefAll(mem, p)
               case Fault(f) => Read.Fault(f)
               case Ok(front) =>
                 match LoadU32(mem, ptr) case Fault(f) => Read.Fault(f) case Ok(v) => Ok(front + [v])
  {
    assert (p + [ptr])[..|p|] == p;
  }

  /** The loop over an array's slots: null slots are skipped, the others dereferenced. */
  method ReadElements(mem: Memory, data: nat, cap: U32) returns (r: Read<seq<U32>>)
    ensures r == Elements(mem, data, cap)
  {
    hide Slots, NonNull, DerefAll, DecodeU32;
    var cryptoValues: seq<U32> := [];
    var i := 0;
    NoSlots(mem, data);
    while i < cap
      invariant 0 <= i <= cap
      invariant i == 0 || data + 4 * i <= |mem|
      invariant DerefAll(mem, NonNull(Slots(mem, data, i))) == Ok(cryptoValues)
    {
      var slot := LoadU32(mem, data + i * 4);
      if slot.Fault? {
        return Read.Fault(slot.fault);
      }
      OneMoreSlot(mem, data, i);
      ghost var before := NonNull(Slots(mem, data, i));
      if slot.value != 0 {
        var value := LoadU32(mem, slot.value);
        DerefOneMore(mem, before, slot.value);
        if value.Fault? {
          FaultStays(mem, data, i + 1, cap);
          return Read.Fault(value.fault);
        }
        cryptoValues := cryptoValues + [value.value];
      } else {
        assert before + [] == before;
      }
      i := i + 1;
    }
    r := Ok(cryptoValues);
  }

  lemma NoSlots(mem: Memory, data: nat)
    ensures DerefAll(mem, NonNull(Slots(mem, data, 0))) == Ok([])
  {
  }

  /** An array that cannot be dereferenced up to one slot cannot be read at all. */
  lemma {:induction false} FaultStays(mem: Memory, data: nat, i: nat, n: U32)
    requires i <= n && (i == 0 || data + 4 * i <= |mem|)
    requires DerefAll(mem, NonNull(Slots(mem, data, i))).Fault?
    ensures Elements(mem, data, n) == Read.Fault(OutOfBounds)
    decreases n - i
  {
    hide Slots, NonNull, DerefAll, DecodeU32;
    OnlyOutOfBounds(mem, NonNull(Slots(mem, data, i)));
    if i < n && data + 4 * n <= |mem| {
      OneMoreSlot(mem, data, i);
      var before := NonNull(Slots(mem, data, i));
      var slot := SlotAt(mem, data, i).value;
      if slot != 0 {
        DerefOneMore(mem, before, slot);
      } else {
        assert before + [] == before;
      }
      FaultStays(mem, data, i + 1, n);
    }
  }

  lemma {:induction false} OnlyOutOfBounds(mem: Memory, p: seq<U32>)
    ensures DerefAll(mem, p).Fault? ==> DerefAll(mem, p).fault == OutOfBounds
  {
    if p == [] {
    } else {
      OnlyOutOfBounds(mem, p[..|p| - 1]);
    }
  }

  /** What a field adds to the output. */
  function Emitted(field: Read<Option<Value>>): Read<Bytes> {
    match field
    case Fault(f) => Read.Fault(f)
    case Ok(None) => Ok([])
    case Ok(Some(v)) => Ok(Encode(v))
  }

  /** One round of the loop over the schema: the reads of a field and the bytes it appends. */
  method EmitField(mem: Memory, addr: nat, kind: Kind) returns (r: Read<Bytes>)
    ensures r == Emitted(ReadField(mem, addr, kind))
  {
    hide EncodeU32, DecodeU32, EncodeCompact, EncodeVec;
    match kind {
      case SkippedArray =>
        return Ok([]);
      case ClassArray =>
        var ptr := LoadU32(mem, addr);
        if ptr.Fault? { return Read.Fault(ptr.fault); }
        var header := Load(mem, ptr.value, 16);
        if header.Fault? { return Read.Fault(header.fault); }
        var data := DecodeU32(header.value[4..8]);
        var cap := DecodeU32(header.value[12..16]);
        if data == 0 { return Read.Fault(NullArrayData); }
        var items := ReadElements(mem, data, cap);
        if items.Fault? { return Read.Fault(items.fault); }
        return Ok(Encode(Floats(items.value)));
      case Str =>
        var ptr := LoadU32(mem, addr);
        if ptr.Fault? { return Read.Fault(ptr.fault); }
        return Ok(Encode(String(TextAt(mem, ptr.value))));
      case Unknown =>
        var skipped := LoadU32(mem, addr);
        return if skipped.Fault? then Read.Fault(skipped.fault) else Ok([]);
      case I32 => r := EmitWord(mem, addr);
      case F32 => r := EmitWord(mem, addr);
      case I64 => r := EmitLong(mem, addr);
      case F64 => r := EmitLong(mem, addr);
    }
  }

  /** A four-byte number is emitted with the bytes it was read from. */
  method EmitWord(mem: Memory, addr: nat) returns (r: Read<Bytes>)
    ensures r == match ReadWord(mem, addr) case Fault(f) => Read.Fault(f) case Ok(v) => Ok(Encode(v))
  {
    r := Load(mem, addr, 4);
    if r.Ok? {
      U32BytesRoundTrip(r.value);
    }
  }

  method EmitLong(mem: Memory, addr: nat) returns (r: Read<Bytes>)
    ensures r == match ReadLong(mem, addr) case Fault(f) => Read.Fault(f) case Ok(v) => Ok(Encode(v))
  {
    r := Load(mem, addr, 8);
    if r.Ok? {
      U32BytesRoundTrip(r.value[..4]);
      U32BytesRoundTrip(r.value[4..]);
      assert r.value == r.value[..4] + r.value[4..];
    }
  }

  /** How offset, readability and values grow by one field. */
  lemma OneMoreField(mem: Memory, base: nat, kinds: seq<Kind>, n: nat)
    requires n < |kinds|
    ensures Offset(kinds[..n + 1]) == Offset(kinds[..n]) + Width(kinds[n])
    ensures AllReadable(mem, base, kinds[..n + 1])
            <==> AllReadable(mem, base, kinds[..n]) && FieldAt(mem, base, kinds, n).Ok?
    ensures FieldAt(mem, base, kinds, n).Ok? ==>
              Values(mem, base, kinds[..n + 1])
              == Values(mem, base, kinds[..n])
                 + match FieldAt(mem, base, kinds, n).value case Some(v) => [v] case None => []
  {
    var more := kinds[..n + 1];
    assert more[..n] == kinds[..n] && more[n] == kinds[n];
    AllReadableFront(mem, base, more);
    SameField(mem, base, kinds, n);
    if FieldAt(mem, base, more, n).Ok? {
      ValuesFront(mem, base, more);
    }
    hide FieldAt, AllReadable, Width, Values;
  }

  lemma ValuesFront(mem: Memory, base: nat, kinds: seq<Kind>)
    requires kinds != [] && FieldAt(mem, base, kinds, |kinds| - 1).Ok?
    ensures Values(mem, base, kinds)
            == Values(mem, base, kinds[..|kinds| - 1])
               + match FieldAt(mem, base, kinds, |kinds| - 1).value case Some(v) => [v] case None => []
  {
    hide ReadField, Offset;
  }

  lemma SameField(mem: Memory, base: nat, kinds: seq<Kind>, n: nat)
    requires n < |kinds|
    ensures FieldAt(mem, base, kinds[..n + 1], n) == FieldAt(mem, base, kinds, n)
  {
    assert kinds[..n + 1][..n] == kinds[..n];
    hide ReadField;
  }

  lemma PrefixFields(mem: Memory, base: nat, kinds: seq<Kind>, n: nat)
    requires n <= |kinds|
    ensures AllReadable(mem, base, kinds[..n]) <==> forall j :: 0 <= j < n ==> FieldAt(mem, base, kinds, j).Ok?
  {
    forall j | 0 <= j < n ensures FieldAt(mem, base, kinds[..n], j) == FieldAt(mem, base, kinds, j) {
      assert kinds[..n][..j] == kinds[..j];
    }
  }

  /**
   The loop over the schema. It succeeds exactly when every field can be read
   at the sum of the widths before it, and then emits the encoded values in
   order; otherwise it stops with the fault of the first field that cannot.
   */
  method WalkOutput(mem: Memory, base: nat, kinds: seq<Kind>) returns (r: Read<Bytes>)
    ensures r.Ok? <==> AllReadable(mem, base, kinds)
    ensures r.Ok? ==> r.value == EncodeAll(Values(mem, base, kinds))
    ensures r.Fault? ==>
              exists k :: && 0 <= k < |kinds|
                          && FieldAt(mem, base, kinds, k) == Read.Fault(r.fault)
                          && forall j :: 0 <= j < k ==> FieldAt(mem, base, kinds, j).Ok?
  {
    hide ReadField, Encode;
    var bytesResult: Bytes := [];
    var offset := 0;
    var n := 0;
    while n < |kinds|
      invariant 0 <= n <= |kinds|
      invariant offset == Offset(kinds[..n])
      invariant AllReadable(mem, base, kinds[..n])
      invariant bytesResult == EncodeAll(Values(mem, base, kinds[..n]))
    {
      OneMoreField(mem, base, kinds, n);
      var emitted := EmitField(mem, base + offset, kinds[n]);
      assert emitted == Emitted(FieldAt(mem, base, kinds, n));
      if emitted.Fault? {
        PrefixFields(mem, base, kinds, n);
        PrefixFields(mem, base, kinds, |kinds|);
        assert kinds[..|kinds|] == kinds;
        return emitted;
      }
      var field := FieldAt(mem, base, kinds, n);
      if field.value.Some? {
        EncodeAllAppend(Values(mem, base, kinds[..n]), field.value.value);
      } else {
        assert Values(mem, base, kinds[..n]) + [] == Values(mem, base, kinds[..n]);
      }
      offset := offset + Width(kinds[n]);
      bytesResult := bytesResult + emitted.value;
      n := n + 1;
    }
    assert kinds[..n] == kinds;
    r := Ok(bytesResult);
  }

  // ---------- The `Output` class ----------

  function KindsOf(types: seq<string>, classes: set<string>): (kinds: seq<Kind>)
    ensures |kinds| == |types|
  {
    seq(|types|, k requires 0 <= k < |types| => Classify(types[k], classes))
  }

  /** The schema that is walked: the fields of the class `Output`, if it is declared. */
  function OutputKinds(classes: map<string, seq<string>>): seq<Kind> {
    if "Output" in classes then KindsOf(classes["Output"], classes.Keys) else []
  }

  /** The field types of the struct `Output` that the executor decodes results into. */
  const OUTPUT_STRUCT: seq<Kind> := [Str, ClassArray, I32, F32]

  /**
   The declared field types for which the struct decoder fits: besides fields
   that emit nothing, a string, an array of a declared class and two words.
   */
  lemma StructReadsBack(mem: Memory, base: nat, kinds: seq<Kind>)
    requires AllReadable(mem, base, kinds)
    requires Emitting(kinds) == OUTPUT_STRUCT
    ensures var vs := Values(mem, base, kinds);
            && |vs| == 4 && vs[0].String? && vs[1].Floats? && vs[2].Word? && vs[3].Word?
            && ParseAll(OUTPUT_STRUCT, EncodeAll(vs)) == Parsed(vs, [])
  {
    ValuesTyped(mem, base, kinds);
    OutputRoundTrip(mem, base, kinds);
    var vs := Values(mem, base, kinds);
    assert HasKind(vs[0], Str) && HasKind(vs[1], ClassArray) && HasKind(vs[2], I32) && HasKind(vs[3], F32);
  }
}
