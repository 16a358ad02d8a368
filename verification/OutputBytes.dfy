/**
 What the executor's output is made of, in terms of the bytes in memory and the
 declared type names alone: which bytes each field copies, where text and
 arrays lie, and where the next field starts.
 */
module OutputBytes {
  import opened Bytes
  import opened Scale
  import opened Unicode
  import opened Memory
  import opened FieldWalk

  /** The number in the four bytes at an address. */
  function WordAt(mem: Memory, a: nat): nat
    requires a + 4 <= |mem|
  {
    LittleEndian(mem[a..a + 4])
  }

  // ---------- Text ----------

  /**
   `b` is what a string field with this pointer adds: the SCALE string of the
   text whose UTF-16 units lie there, up to a zero unit or 1024 units, if 2048
   bytes are in memory and the surrogates are paired; else the empty string.
   */
  ghost predicate StringBytes(mem: Memory, ptr: nat, b: Bytes) {
    if ptr + 2048 > |mem| then b == [0]
    else
      exists u :: IsText(mem, ptr, 1024, u) && UnitsBytes(u, b)
  }

  ghost predicate UnitsBytes(u: seq<U16>, b: Bytes) {
    if Paired(u) then exists t: SmallText :: EncodeUtf16(t) == u && b == EncodeVec(EncodeUtf8(t))
    else b == [0]
  }

  lemma EmptyVec()
    ensures EncodeVec(EncodeUtf8([])) == [0]
  {
  }

  lemma UnitsMean(u: seq<U16>, t: SmallText)
    requires t == match DecodeUtf16(u) case Some(d) => d case None => []
    ensures UnitsBytes(u, EncodeVec(EncodeUtf8(t)))
  {
    DecodesIffPaired(u);
    EmptyVec();
    if Paired(u) {
      Utf16Canonical(u);
    }
    hide EncodeVec, EncodeUtf8, DecodeUtf16, EncodeUtf16, Paired;
  }

  lemma StringMeans(mem: Memory, ptr: nat)
    ensures StringBytes(mem, ptr, Encode(String(TextAt(mem, ptr))))
  {
    EmptyVec();
    if ptr + 2048 <= |mem| {
      var u := TakeNonZero(Units(mem, ptr, 1024));
      WindowIsText(mem, ptr, 1024);
      UnitsMean(u, TextAt(mem, ptr));
    }
    hide EncodeVec, EncodeUtf8, IsText, UnitsBytes;
  }

  lemma UnitsBytesUnique(u: seq<U16>, b: Bytes, d: Bytes)
    requires UnitsBytes(u, b) && UnitsBytes(u, d)
    ensures b == d
  {
    hide EncodeVec, EncodeUtf8, EncodeUtf16, DecodeUtf16;
    if Paired(u) {
      var t: SmallText :| EncodeUtf16(t) == u && b == EncodeVec(EncodeUtf8(t));
      var s: SmallText :| EncodeUtf16(s) == u && d == EncodeVec(EncodeUtf8(s));
      Utf16RoundTrip(t);
      Utf16RoundTrip(s);
    }
  }

  lemma StringBytesUnique(mem: Memory, ptr: nat, b: Bytes, d: Bytes)
    requires StringBytes(mem, ptr, b) && StringBytes(mem, ptr, d)
    ensures b == d
  {
    if ptr + 2048 <= |mem| {
      var u :| IsText(mem, ptr, 1024, u) && UnitsBytes(u, b);
      var v :| IsText(mem, ptr, 1024, v) && UnitsBytes(v, d);
      if |u| <= |v| {
        TextIsUnique(mem, ptr, 1024, u, v);
      } else {
        TextIsUnique(mem, ptr, 1024, v, u);
      }
      UnitsBytesUnique(u, b, d);
    }
  }

  // ---------- Arrays ----------

  /** The slots below `n` whose pointer is not null, in order. */
  function Kept(mem: Memory, data: nat, n: nat): seq<nat>
    requires n == 0 || data + 4 * n <= |mem|
  {
    if n == 0 then []
    else Kept(mem, data, n - 1) + if WordAt(mem, data + 4 * (n - 1)) == 0 then [] else [n - 1]
  }

  lemma {:induction false} KeptSlots(mem: Memory, data: nat, n: nat)
    requires n == 0 || data + 4 * n <= |mem|
    ensures var kept := Kept(mem, data, n);
            && |kept| <= n
            && (forall j :: 0 <= j < |kept| ==> kept[j] < n)
            && (forall i, j :: 0 <= i < j < |kept| ==> kept[i] < kept[j])
            && (forall i: nat :: i < n ==> (i in kept <==> WordAt(mem, data + 4 * i) != 0))
  {
    hide LittleEndian;
    if n == 0 {
    } else {
      KeptSlots(mem, data, n - 1);
    }
  }

  /** The four bytes that each kept slot's pointer leads to, one after the other. */
  ghost predicate Copies(mem: Memory, data: nat, kept: seq<nat>, b: Bytes) {
    && |b| == 4 * |kept|
    && forall j :: 0 <= j < |kept| ==>
         && data + 4 * kept[j] + 4 <= |mem|
         && var ptr := WordAt(mem, data + 4 * kept[j]);
            ptr + 4 <= |mem| && b[4 * j..4 * j + 4] == mem[ptr..ptr + 4]
  }

  /**
   `b` is what an array field with this pointer adds: from the header there, a
   data address that is not null and a capacity; then the number of slots that
   are not null and the four bytes each of those leads to, in order.
   */
  ghost predicate ArrayBytes(mem: Memory, ptr: nat, b: Bytes) {
    && ptr + 16 <= |mem|
    && var data, cap := WordAt(mem, ptr + 4), WordAt(mem, ptr + 12);
       && data != 0 && (cap == 0 || data + 4 * cap <= |mem|)
       && exists words ::
            && |Kept(mem, data, cap)| < 0x1_0000_0000 && Copies(mem, data, Kept(mem, data, cap), words)
            && b == EncodeCompact(|Kept(mem, data, cap)|) + words
  }

  lemma WordIsLoaded(mem: Memory, a: nat)
    ensures LoadU32(mem, a).Ok? <==> a + 4 <= |mem|
    ensures a + 4 <= |mem| ==>
              LoadU32(mem, a).value == WordAt(mem, a) && EncodeU32(LoadU32(mem, a).value) == mem[a..a + 4]
  {
    hide LittleEndian, DecodeU32, EncodeU32;
    if a + 4 <= |mem| {
      DecodedValue(mem[a..a + 4]);
      U32BytesRoundTrip(mem[a..a + 4]);
    }
  }

  /** The pointers are those in these slots. */
  ghost predicate InSlots(mem: Memory, data: nat, p: seq<U32>, kept: seq<nat>) {
    && |p| == |kept|
    && forall j :: 0 <= j < |p| ==> data + 4 * kept[j] + 4 <= |mem| && p[j] == WordAt(mem, data + 4 * kept[j])
  }

  lemma OneMoreInSlots(mem: Memory, data: nat, p: seq<U32>, kept: seq<nat>, i: nat)
    requires InSlots(mem, data, p, kept) && data + 4 * i + 4 <= |mem|
    ensures WordAt(mem, data + 4 * i) < 0x1_0000_0000
    ensures InSlots(mem, data, p + [WordAt(mem, data + 4 * i)], kept + [i])
  {
    WordIsLoaded(mem, data + 4 * i);
    hide LittleEndian, DecodeU32, LoadU32;
  }

  /** The pointers that are not null are those of the kept slots. */
  lemma {:induction false} KeptPointers(mem: Memory, data: nat, n: nat)
    requires n == 0 || data + 4 * n <= |mem|
    ensures InSlots(mem, data, NonNull(Slots(mem, data, n)), Kept(mem, data, n))
  {
    hide DecodeU32, WordAt, LoadU32;
    if n == 0 {
    } else {
      hide InSlots, Slots, NonNull;
      KeptPointers(mem, data, n - 1);
      KeptOneMore(mem, data, n - 1);
    }
  }

  lemma KeptOneMore(mem: Memory, data: nat, i: nat)
    requires data + 4 * (i + 1) <= |mem|
    requires InSlots(mem, data, NonNull(Slots(mem, data, i)), Kept(mem, data, i))
    ensures InSlots(mem, data, NonNull(Slots(mem, data, i + 1)), Kept(mem, data, i + 1))
  {
    hide DecodeU32, WordAt, LoadU32, InSlots, Slots, NonNull;
    var p, kept := NonNull(Slots(mem, data, i)), Kept(mem, data, i);
    OneMoreSlot(mem, data, i);
    WordIsLoaded(mem, data + 4 * i);
    OneMoreInSlots(mem, data, p, kept, i);
    if WordAt(mem, data + 4 * i) == 0 {
      assert p + [] == p && kept + [] == kept;
    }
  }

  lemma {:induction false} WordsAppend(items: seq<U32>, w: U32)
    ensures EncodeWords(items + [w]) == EncodeWords(items) + EncodeU32(w)
  {
    hide EncodeU32;
    if items == [] {
      var one := [w];
      assert one[1..] == [];
    } else {
      assert (items + [w])[1..] == items[1..] + [w];
      WordsAppend(items[1..], w);
    }
  }

  /** Dereferencing copies the four bytes at each pointer, if they are all in memory. */
  lemma {:induction false} DerefCopies(mem: Memory, p: seq<U32>)
    ensures DerefAll(mem, p).Ok? <==> forall j :: 0 <= j < |p| ==> p[j] + 4 <= |mem|
    ensures DerefAll(mem, p).Ok? ==>
              var words := EncodeWords(DerefAll(mem, p).value);
              |words| == 4 * |p| && forall j :: 0 <= j < |p| ==> words[4 * j..4 * j + 4] == mem[p[j]..p[j] + 4]
  {
    hide EncodeU32, LoadU32;
    if p == [] {
    } else {
      var front, last := p[..|p| - 1], p[|p| - 1];
      DerefCopies(mem, front);
      WordIsLoaded(mem, last);
      if DerefAll(mem, front).Ok? && LoadU32(mem, last).Ok? {
        var items, w := DerefAll(mem, front).value, LoadU32(mem, last).value;
        WordsAppend(items, w);
        hide EncodeWords;
        forall j | 0 <= j < |p| ensures EncodeWords(items + [w])[4 * j..4 * j + 4] == mem[p[j]..p[j] + 4] {
          if j < |front| {
            assert EncodeWords(items + [w])[4 * j..4 * j + 4] == EncodeWords(items)[4 * j..4 * j + 4];
          }
        }
      }
    }
  }

  /** One word for each pointer. */
  lemma ElementsMean(mem: Memory, data: nat, n: U32)
    ensures Elements(mem, data, n).Ok? <==>
            (n == 0 || data + 4 * n <= |mem|) && exists words :: Copies(mem, data, Kept(mem, data, n), words)
    ensures Elements(mem, data, n).Ok? ==>
              var items := Elements(mem, data, n).value;
              |items| == |Kept(mem, data, n)| && Copies(mem, data, Kept(mem, data, n), EncodeWords(items))
  {
    hide LittleEndian, EncodeWords, DerefAll, Slots, NonNull, Kept;
    if n == 0 || data + 4 * n <= |mem| {
      var p := NonNull(Slots(mem, data, n));
      KeptPointers(mem, data, n);
      DerefCopies(mem, p);
      if DerefAll(mem, p).Ok? {
        assert Copies(mem, data, Kept(mem, data, n), EncodeWords(DerefAll(mem, p).value));
      }
      if exists words :: Copies(mem, data, Kept(mem, data, n), words) {
        var words :| Copies(mem, data, Kept(mem, data, n), words);
        forall j | 0 <= j < |p| ensures p[j] + 4 <= |mem| {
          assert WordAt(mem, data + 4 * Kept(mem, data, n)[j]) + 4 <= |mem|;
        }
      }
    }
  }

  lemma ArrayMeans(mem: Memory, ptr: nat)
    requires ptr + 16 <= |mem|
    ensures var data, cap := WordAt(mem, ptr + 4), WordAt(mem, ptr + 12);
            && cap < 0x1_0000_0000
            && (data == 0 ==> forall b :: !ArrayBytes(mem, ptr, b))
            && (data != 0 && Elements(mem, data, cap).Fault? ==> forall b :: !ArrayBytes(mem, ptr, b))
            && (data != 0 && Elements(mem, data, cap).Ok? ==>
                  ArrayBytes(mem, ptr, Encode(Floats(Elements(mem, data, cap).value))))
  {
    WordIsLoaded(mem, ptr + 4);
    WordIsLoaded(mem, ptr + 12);
    var data, cap := WordAt(mem, ptr + 4), WordAt(mem, ptr + 12);
    if data != 0 {
      ElementsMean(mem, data, cap);
      if cap == 0 || data + 4 * cap <= |mem| {
        KeptSlots(mem, data, cap);
      }
    }
    hide LittleEndian, WordAt, Elements, Kept, Copies, EncodeWords, EncodeCompact, LoadU32;
  }

  lemma CopiesUnique(mem: Memory, data: nat, kept: seq<nat>, b: Bytes, d: Bytes)
    requires Copies(mem, data, kept, b) && Copies(mem, data, kept, d)
    ensures b == d
  {
    hide LittleEndian, WordAt;
    forall k | 0 <= k < |b| ensures b[k] == d[k] {
      var j := k / 4;
      var ptr := WordAt(mem, data + 4 * kept[j]);
      assert b[4 * j..4 * j + 4] == mem[ptr..ptr + 4] == d[4 * j..4 * j + 4];
      assert b[k] == b[4 * j..4 * j + 4][k - 4 * j] && d[k] == d[4 * j..4 * j + 4][k - 4 * j];
    }
  }

  lemma ArrayBytesUnique(mem: Memory, ptr: nat, b: Bytes, d: Bytes)
    requires ArrayBytes(mem, ptr, b) && ArrayBytes(mem, ptr, d)
    ensures b == d
  {
    hide LittleEndian, WordAt, Kept, Copies, EncodeCompact;
    var data, cap := WordAt(mem, ptr + 4), WordAt(mem, ptr + 12);
    var v :| Copies(mem, data, Kept(mem, data, cap), v) && b == EncodeCompact(|Kept(mem, data, cap)|) + v;
    var w :| Copies(mem, data, Kept(mem, data, cap), w) && d == EncodeCompact(|Kept(mem, data, cap)|) + w;
    CopiesUnique(mem, data, Kept(mem, data, cap), v, w);
  }

  // ---------- One field, by its declared type ----------

  predicate IsArray(typ: string) {
    |typ| >= 6 && typ[..6] == "Array<"
  }

  predicate IsArrayOf(typ: string, classes: set<string>) {
    exists name :: name in classes && typ == "Array<" + name + ">"
  }

  /** How far a field of this type moves to the next one. */
  function SizeOf(typ: string, classes: set<string>): nat {
    if typ == "i64" || typ == "f64" then 8 else if IsArray(typ) && !IsArrayOf(typ, classes) then 0 else 4
  }

  /**
   `b` is what a field of this type at this address adds. Numbers are copied;
   strings and arrays of a declared class are followed by their pointer; other
   arrays are passed over; anything else is read and dropped.
   */
  ghost predicate FieldBytes(mem: Memory, a: nat, typ: string, classes: set<string>, b: Bytes) {
    if typ == "i32" || typ == "f32" then a + 4 <= |mem| && b == mem[a..a + 4]
    else if typ == "i64" || typ == "f64" then a + 8 <= |mem| && b == mem[a..a + 8]
    else if IsArrayOf(typ, classes) then a + 4 <= |mem| && ArrayBytes(mem, WordAt(mem, a), b)
    else if IsArray(typ) then b == []
    else if typ == "string" then a + 4 <= |mem| && StringBytes(mem, WordAt(mem, a), b)
    else a + 4 <= |mem| && b == []
  }

  /** The kind by which the walk treats a type. */
  lemma KindMeans(typ: string, classes: set<string>)
    ensures var k := Classify(typ, classes);
            && (k == I32 <==> typ == "i32") && (k == F32 <==> typ == "f32")
            && (k == I64 <==> typ == "i64") && (k == F64 <==> typ == "f64")
            && (k == ClassArray <==> IsArrayOf(typ, classes))
            && (k == SkippedArray <==> IsArray(typ) && !IsArrayOf(typ, classes))
            && (k == Str <==> typ == "string")
            && Width(k) == SizeOf(typ, classes)
  {
    if IsArray(typ) {
      assert typ[0] == 'A';
      if |typ| > 6 && typ[|typ| - 1] == '>' {
        var name := typ[6..|typ| - 1];
        assert typ == typ[..6] + name + [typ[|typ| - 1]];
      }
      forall name | typ == "Array<" + name + ">"
        ensures |typ| > 6 && typ[|typ| - 1] == '>' && name == typ[6..|typ| - 1]
      {
      }
    } else {
      forall name ensures typ != "Array<" + name + ">" {
        assert ("Array<" + name + ">")[..6] == "Array<";
      }
    }
  }

  lemma NumberMeans(mem: Memory, a: nat)
    ensures Emitted(ReadField(mem, a, I32)) == Emitted(ReadField(mem, a, F32))
            == if a + 4 <= |mem| then Ok(mem[a..a + 4]) else Read.Fault(OutOfBounds)
  {
    WordIsLoaded(mem, a);
    hide LittleEndian, EncodeU32, DecodeU32, WordAt;
  }

  lemma LongNumberMeans(mem: Memory, a: nat)
    ensures Emitted(ReadField(mem, a, I64)) == Emitted(ReadField(mem, a, F64))
            == if a + 8 <= |mem| then Ok(mem[a..a + 8]) else Read.Fault(OutOfBounds)
  {
    hide EncodeU32, DecodeU32;
    if a + 8 <= |mem| {
      var b := mem[a..a + 8];
      U32BytesRoundTrip(b[..4]);
      U32BytesRoundTrip(b[4..]);
      assert b == b[..4] + b[4..];
    }
  }

  lemma PointerMeans(mem: Memory, a: nat)
    ensures var text := Emitted(ReadField(mem, a, Str));
            && (text.Ok? <==> a + 4 <= |mem|)
            && (text.Ok? ==> StringBytes(mem, WordAt(mem, a), text.value))
    ensures Emitted(ReadField(mem, a, Unknown)) == if a + 4 <= |mem| then Ok([]) else Read.Fault(OutOfBounds)
    ensures Emitted(ReadField(mem, a, SkippedArray)) == Ok([])
  {
    WordIsLoaded(mem, a);
    if a + 4 <= |mem| {
      StringMeans(mem, WordAt(mem, a));
    }
    hide LittleEndian, EncodeU32, DecodeU32, WordAt, TextAt, StringBytes, EncodeVec, EncodeUtf8, LoadU32;
  }

  lemma ClassArrayMeans(mem: Memory, a: nat)
    ensures var read := Emitted(ReadField(mem, a, ClassArray));
            && (read.Ok? ==> a + 4 <= |mem| && ArrayBytes(mem, WordAt(mem, a), read.value))
            && (read.Fault? && a + 4 <= |mem| ==> forall b :: !ArrayBytes(mem, WordAt(mem, a), b))
  {
    WordIsLoaded(mem, a);
    if a + 4 <= |mem| {
      var ptr := WordAt(mem, a);
      if ptr + 16 <= |mem| {
        HeaderMeans(mem, ptr);
        ArrayMeans(mem, ptr);
      }
    }
    hide LittleEndian, DecodeU32, WordAt, Elements, EncodeWords, EncodeCompact, Kept, Copies, LoadU32;
  }

  lemma SliceOfSlice(mem: Memory, a: nat, n: nat, i: nat)
    requires i + 4 <= n && a + n <= |mem|
    ensures mem[a..a + n][i..i + 4] == mem[a + i..a + i + 4]
  {
    var inner, outer := mem[a..a + n][i..i + 4], mem[a + i..a + i + 4];
    forall k | 0 <= k < 4 ensures inner[k] == outer[k] {
      assert inner[k] == mem[a..a + n][i + k];
    }
    assert inner == outer;
  }

  lemma HeaderMeans(mem: Memory, ptr: nat)
    requires ptr + 16 <= |mem|
    ensures var header := mem[ptr..ptr + 16];
            DecodeU32(header[4..8]) == WordAt(mem, ptr + 4) && DecodeU32(header[12..16]) == WordAt(mem, ptr + 12)
  {
    var header := mem[ptr..ptr + 16];
    SliceOfSlice(mem, ptr, 16, 4);
    SliceOfSlice(mem, ptr, 16, 12);
    DecodedValue(header[4..8]);
    DecodedValue(header[12..16]);
    hide LittleEndian, DecodeU32;
  }

  /** A field is read, and adds these bytes, exactly when its type says so. */
  lemma FieldMeans(mem: Memory, a: nat, typ: string, classes: set<string>, b: Bytes)
    ensures Emitted(ReadField(mem, a, Classify(typ, classes))) == Ok(b) <==> FieldBytes(mem, a, typ, classes, b)
  {
    KindMeans(typ, classes);
    NumberMeans(mem, a);
    LongNumberMeans(mem, a);
    PointerMeans(mem, a);
    ClassArrayMeans(mem, a);
    hide Classify, ReadField, StringBytes, ArrayBytes, WordAt, IsArrayOf, Emitted, SizeOf, Width;
    var r := Emitted(ReadField(mem, a, Classify(typ, classes)));
    if r.Ok? && FieldBytes(mem, a, typ, classes, b) {
      if IsArrayOf(typ, classes) {
        ArrayBytesUnique(mem, WordAt(mem, a), b, r.value);
      } else if typ == "string" {
        StringBytesUnique(mem, WordAt(mem, a), b, r.value);
      }
    }
  }

  // ---------- The whole output ----------

  /** `b` is what fields of these types, laid out from an address on, add one after the other. */
  ghost predicate AllBytes(mem: Memory, a: nat, types: seq<string>, classes: set<string>, b: Bytes)
    decreases |types|
  {
    if types == [] then b == []
    else
      exists first, rest :: && b == first + rest && FieldBytes(mem, a, types[0], classes, first)
                            && AllBytes(mem, a + SizeOf(types[0], classes), types[1..], classes, rest)
  }

  /** The walk from a field on, one field at a time from the front. */
  lemma WalkFront(mem: Memory, a: nat, kinds: seq<Kind>)
    requires kinds != []
    ensures var rest := kinds[1..];
            && (AllReadable(mem, a, kinds)
                <==> ReadField(mem, a, kinds[0]).Ok? && AllReadable(mem, a + Width(kinds[0]), rest))
            && (AllReadable(mem, a, kinds) ==>
                  EncodeAll(Values(mem, a, kinds))
                  == Emitted(ReadField(mem, a, kinds[0])).value + EncodeAll(Values(mem, a + Width(kinds[0]), rest)))
  {
    hide ReadField, Encode, Width, Values, EncodeAll, AllReadable;
    FieldsFromFront(mem, a, a + Width(kinds[0]), kinds);
    if AllReadable(mem, a, kinds) {
      ValuesFromFront(mem, a, a + Width(kinds[0]), kinds);
    }
  }

  lemma {:induction false} OffsetFront(kinds: seq<Kind>)
    requires kinds != []
    ensures Offset(kinds) == Width(kinds[0]) + Offset(kinds[1..])
  {
    hide Width;
    var n := |kinds| - 1;
    if n == 0 {
      assert kinds[..0] == [] && kinds[1..] == [];
    } else {
      OffsetFront(kinds[..n]);
      assert kinds[..n][1..] == kinds[1..][..n - 1];
    }
  }

  lemma FieldFromFront(mem: Memory, a: nat, next: nat, kinds: seq<Kind>, k: nat)
    requires 0 < k < |kinds| && next == a + Width(kinds[0])
    ensures FieldAt(mem, a, kinds, k) == FieldAt(mem, next, kinds[1..], k - 1)
  {
    hide ReadField, Width;
    OffsetFront(kinds[..k]);
    assert kinds[..k][1..] == kinds[1..][..k - 1];
  }

  lemma FieldsFromFront(mem: Memory, a: nat, next: nat, kinds: seq<Kind>)
    requires kinds != [] && next == a + Width(kinds[0])
    ensures AllReadable(mem, a, kinds) <==> ReadField(mem, a, kinds[0]).Ok? && AllReadable(mem, next, kinds[1..])
  {
    hide ReadField, Width, FieldAt;
    var rest := kinds[1..];
    FirstField(mem, a, kinds);
    if AllReadable(mem, a, kinds) {
      assert FieldAt(mem, a, kinds, 0).Ok?;
      forall k | 0 <= k < |rest| ensures FieldAt(mem, next, rest, k).Ok? {
        FieldFromFront(mem, a, next, kinds, k + 1);
        assert FieldAt(mem, a, kinds, k + 1).Ok?;
      }
    }
    if ReadField(mem, a, kinds[0]).Ok? && AllReadable(mem, next, rest) {
      forall k | 0 <= k < |kinds| ensures FieldAt(mem, a, kinds, k).Ok? {
        if k > 0 {
          FieldFromFront(mem, a, next, kinds, k);
        }
      }
    }
  }

  lemma FirstField(mem: Memory, a: nat, kinds: seq<Kind>)
    requires kinds != []
    ensures FieldAt(mem, a, kinds, 0) == ReadField(mem, a, kinds[0])
  {
    hide ReadField;
    assert kinds[..0] == [];
  }

  /** The bytes of the walk are those of its first field and then those of the rest. */
  ghost predicate Split(mem: Memory, a: nat, next: nat, kinds: seq<Kind>)
    requires kinds != []
  {
    && ReadField(mem, a, kinds[0]).Ok?
    && EncodeAll(Values(mem, a, kinds))
       == Emitted(ReadField(mem, a, kinds[0])).value + EncodeAll(Values(mem, next, kinds[1..]))
  }

  lemma {:induction false} ValuesFromFront(mem: Memory, a: nat, next: nat, kinds: seq<Kind>)
    requires kinds != [] && next == a + Width(kinds[0]) && AllReadable(mem, a, kinds)
    ensures Split(mem, a, next, kinds)
    decreases |kinds|
  {
    var n := |kinds| - 1;
    hide ReadField, Width, FieldAt, AllReadable, Encode, EncodeAll, Values, Split;
    if n == 0 {
      OneField(mem, a, next, kinds);
    } else {
      AllReadableFront(mem, a, kinds);
      ValuesFromFront(mem, a, next, kinds[..n]);
      SplitGrows(mem, a, next, kinds);
    }
  }

  lemma OneField(mem: Memory, a: nat, next: nat, kinds: seq<Kind>)
    requires |kinds| == 1 && AllReadable(mem, a, kinds)
    ensures Split(mem, a, next, kinds)
  {
    hide ReadField, Width, FieldAt, AllReadable, Encode, EncodeAll, Values;
    FirstField(mem, a, kinds);
    LastField(mem, a, kinds);
    assert kinds[1..] == [] && kinds[..0] == [];
    NoFields(mem, a);
    NoFields(mem, next);
  }

  lemma SplitGrows(mem: Memory, a: nat, next: nat, kinds: seq<Kind>)
    requires |kinds| > 1 && next == a + Width(kinds[0]) && AllReadable(mem, a, kinds)
    requires Split(mem, a, next, kinds[..|kinds| - 1])
    ensures Split(mem, a, next, kinds)
  {
    hide ReadField, Width, FieldAt, AllReadable, Encode, EncodeAll, Values;
    var n, rest := |kinds| - 1, kinds[1..];
    FieldsFromFront(mem, a, next, kinds);
    LastField(mem, a, kinds);
    LastField(mem, next, rest);
    FieldFromFront(mem, a, next, kinds, n);
    assert kinds[..n][1..] == rest[..n - 1] && kinds[..n][0] == kinds[0];
    Regroup(Emitted(ReadField(mem, a, kinds[0])).value, EncodeAll(Values(mem, next, rest[..n - 1])),
            Emitted(FieldAt(mem, a, kinds, n)).value);
  }

  lemma Regroup(a: Bytes, b: Bytes, c: Bytes)
    ensures (a + b) + c == a + (b + c)
  {
  }

  /** What the last field adds. */
  lemma LastField(mem: Memory, a: nat, kinds: seq<Kind>)
    requires kinds != [] && AllReadable(mem, a, kinds)
    ensures var n := |kinds| - 1;
            && FieldAt(mem, a, kinds, n).Ok?
            && EncodeAll(Values(mem, a, kinds))
               == EncodeAll(Values(mem, a, kinds[..n])) + Emitted(FieldAt(mem, a, kinds, n)).value
  {
    hide ReadField, Encode, Offset;
    var n := |kinds| - 1;
    assert FieldAt(mem, a, kinds, n).Ok?;
    ValuesFront(mem, a, kinds);
    match FieldAt(mem, a, kinds, n).value
    case Some(v) => EncodeAllAppend(Values(mem, a, kinds[..n]), v);
    case None => assert Values(mem, a, kinds[..n]) + [] == Values(mem, a, kinds[..n]);
  }

  /** The walk succeeds with these bytes exactly when the declared types say so. */
  lemma {:induction false} WalkMeans(mem: Memory, a: nat, types: seq<string>, classes: set<string>, b: Bytes)
    ensures var kinds := KindsOf(types, classes);
            AllReadable(mem, a, kinds) && EncodeAll(Values(mem, a, kinds)) == b
            <==> AllBytes(mem, a, types, classes, b)
    decreases |types|
  {
    hide Classify, ReadField, Encode, FieldBytes, Width, SizeOf, Values, AllReadable;
    var kinds := KindsOf(types, classes);
    if types == [] {
      NoFields(mem, a);
    } else {
      var next := a + SizeOf(types[0], classes);
      assert kinds[1..] == KindsOf(types[1..], classes);
      KindMeans(types[0], classes);
      WalkFront(mem, a, kinds);
      var first := Emitted(ReadField(mem, a, kinds[0]));
      if AllReadable(mem, a, kinds) && EncodeAll(Values(mem, a, kinds)) == b {
        var rest := EncodeAll(Values(mem, next, kinds[1..]));
        FieldMeans(mem, a, types[0], classes, first.value);
        WalkMeans(mem, next, types[1..], classes, rest);
      }
      if AllBytes(mem, a, types, classes, b) {
        var head, rest :| && b == head + rest && FieldBytes(mem, a, types[0], classes, head)
                          && AllBytes(mem, next, types[1..], classes, rest);
        FieldMeans(mem, a, types[0], classes, head);
        WalkMeans(mem, next, types[1..], classes, rest);
      }
    }
  }

  lemma NoFields(mem: Memory, a: nat)
    ensures AllReadable(mem, a, []) && EncodeAll(Values(mem, a, [])) == []
  {
  }

  /**
   The end of a run: the walk from the pointer that the script returned. It
   succeeds exactly when some bytes are what the fields of the class `Output`
   add, returns those bytes, and they decode under the emitting kinds.
   */
  method MarshalOutput(mem: Memory, pointer: int, classes: map<string, seq<string>>) returns (r: Read<Bytes>)
    requires -0x8000_0000 <= pointer < 0x8000_0000
    ensures var types := if "Output" in classes then classes["Output"] else [];
            var start := if pointer < 0 then 0x1_0000_0000_0000_0000 + pointer else pointer;
            && (r.Ok? ==> AllBytes(mem, start, types, classes.Keys, r.value))
            && (r.Fault? ==> forall b :: !AllBytes(mem, start, types, classes.Keys, b))
    ensures "Output" !in classes ==> r == Ok([])
    ensures r.Ok? ==>
              var vs := Values(mem, Address(pointer), OutputKinds(classes));
              ParseAll(Emitting(OutputKinds(classes)), r.value) == Parsed(vs, [])
  {
    var a, kinds := Address(pointer), OutputKinds(classes);
    r := WalkOutput(mem, a, kinds);
    if r.Ok? {
      OutputRoundTrip(mem, a, kinds);
    }
    ghost var types := if "Output" in classes then classes["Output"] else [];
    assert kinds == KindsOf(types, classes.Keys);
    forall b ensures AllReadable(mem, a, kinds) && EncodeAll(Values(mem, a, kinds)) == b
                     <==> AllBytes(mem, a, types, classes.Keys, b)
    {
      WalkMeans(mem, a, types, classes.Keys, b);
    }
  }
}
