/** A wasm instance's linear memory and the two readers of UTF-16 text in it. */
module Memory {
  import opened Bytes
  import opened Unicode

  type Memory = Bytes

  /** Why reading stopped: an address outside memory, or an array whose data pointer is null. */
  datatype Fault = OutOfBounds | NullArrayData

  datatype Read<+T> = Ok(value: T) | Fault(fault: Fault) {
    predicate IsFailure() { Fault? }
    function PropagateFailure<U>(): Read<U> requires Fault? { Read.Fault(fault) }
    function Extract(): T requires Ok? { value }
  }

  function Load(mem: Memory, addr: nat, n: nat): (r: Read<Bytes>)
    ensures r.Ok? ==> |r.value| == n
  {
    if addr + n <= |mem| then Ok(mem[addr..addr + n]) else Read.Fault(OutOfBounds)
  }

  function LoadU32(mem: Memory, addr: nat): Read<U32> {
    var b :- Load(mem, addr, 4);
    Ok(DecodeU32(b))
  }

  /** A 32-bit signed value used as an address: negative ones are sign-extended to 64 bits. */
  function Address(v: int): (a: nat)
    requires -0x8000_0000 <= v < 0x8000_0000
    ensures a < 0x1_0000_0000_0000_0000 && (a - v) % 0x1_0000_0000_0000_0000 == 0
  {
    if v < 0 then v + 0x1_0000_0000_0000_0000 else v
  }

  // ---------- Text ----------

  function UnitAt(mem: Memory, a: nat): U16
    requires a + 2 <= |mem|
  {
    DecodeU16(mem[a..a + 2])
  }

  /** The units from `a` on, up to a zero unit or the end of memory. */
  function UnitRun(mem: Memory, a: nat): seq<U16>
    decreases |mem| - a
  {
    if a + 1 >= |mem| || UnitAt(mem, a) == 0 then [] else [UnitAt(mem, a)] + UnitRun(mem, a + 2)
  }

  function TakeNonZero(u: seq<U16>): seq<U16> {
    if u == [] || u[0] == 0 then [] else [u[0]] + TakeNonZero(u[1..])
  }

  function Units(mem: Memory, a: nat, n: nat): (u: seq<U16>)
    requires a + 2 * n <= |mem|
    ensures |u| == n
    decreases n
  {
    if n == 0 then [] else [UnitAt(mem, a)] + Units(mem, a + 2, n - 1)
  }

  /** `read_utf16_string`: all `maxLen` units must be in memory; the text ends at the first zero unit. */
  function ReadUtf16(mem: Memory, ptr: nat, maxLen: nat): (r: Option<Text>)
    ensures r.Some? ==> |r.value| <= maxLen
  {
    if ptr + 2 * maxLen > |mem| then None
    else
      var u := TakeNonZero(Units(mem, ptr, maxLen));
      WindowIsRun(mem, ptr, maxLen);
      if DecodeUtf16(u).Some? then
        Utf16Length(u);
        DecodeUtf16(u)
      else None
  }

  /** One character a unit, with `?` for a surrogate. */
  function LossyText(u: seq<U16>): (t: Text)
    ensures |t| == |u|
  {
    seq(|u|, k requires 0 <= k < |u| => if IsSurrogate(u[k]) then 63 else u[k])
  }

  lemma {:induction false} WindowIsRun(mem: Memory, a: nat, n: nat)
    requires a + 2 * n <= |mem|
    ensures TakeNonZero(Units(mem, a, n)) == UnitRun(mem, a)[..Least(n, |UnitRun(mem, a)|)]
    decreases n
  {
    if n == 0 {
    } else {
      WindowIsRun(mem, a + 2, n - 1);
      assert Units(mem, a, n)[1..] == Units(mem, a + 2, n - 1);
    }
  }

  /** `u` is what lies from `a` on as little-endian units, up to a zero unit, the end of memory or `n` units. */
  ghost predicate IsText(mem: Memory, a: nat, n: nat, u: seq<U16>) {
    && |u| <= n
    && (forall k :: 0 <= k < |u| ==> a + 2 * k + 2 <= |mem| && u[k] != 0 && u[k] == UnitOf(mem, a, k))
    && (|u| < n && a + 2 * |u| + 2 <= |mem| ==> UnitOf(mem, a, |u|) == 0)
  }

  function UnitOf(mem: Memory, a: nat, k: nat): nat
    requires a + 2 * k + 2 <= |mem|
  {
    LittleEndian(mem[a + 2 * k..a + 2 * k + 2])
  }

  lemma UnitIsLittleEndian(b: Bytes)
    requires |b| == 2
    ensures DecodeU16(b) == LittleEndian(b)
  {
    assert b[1..][1..] == [];
    assert LittleEndian(b[1..]) == b[1];
  }

  lemma {:induction false} UnitRunIsText(mem: Memory, a: nat)
    ensures IsText(mem, a, |UnitRun(mem, a)| + 1, UnitRun(mem, a))
    decreases |mem| - a
  {
    hide LittleEndian, DecodeU16;
    if a + 1 < |mem| {
      UnitIsLittleEndian(mem[a..a + 2]);
      assert UnitOf(mem, a, 0) == UnitAt(mem, a);
      if UnitRun(mem, a) != [] {
        UnitRunIsText(mem, a + 2);
        hide IsText, UnitOf;
        TextFromNext(mem, a, UnitRun(mem, a + 2), UnitAt(mem, a));
      }
    }
  }

  lemma TextFromNext(mem: Memory, a: nat, rest: seq<U16>, unit: U16)
    requires IsText(mem, a + 2, |rest| + 1, rest) && a + 2 <= |mem| && unit == UnitOf(mem, a, 0) && unit != 0
    ensures IsText(mem, a, |rest| + 2, [unit] + rest)
  {
    hide LittleEndian, UnitOf;
    var u := [unit] + rest;
    forall k | 0 <= k < |u| ensures a + 2 * k + 2 <= |mem| && u[k] != 0 && u[k] == UnitOf(mem, a, k) {
      if k > 0 {
        assert u[k] == rest[k - 1];
        UnitShift(mem, a, k);
      }
    }
    if a + 2 * |u| + 2 <= |mem| {
      UnitShift(mem, a, |u|);
    }
  }

  lemma UnitShift(mem: Memory, a: nat, k: nat)
    requires k > 0 && a + 2 * k + 2 <= |mem|
    ensures UnitOf(mem, a, k) == UnitOf(mem, a + 2, k - 1)
  {
  }

  /** Texts read from the same place under the same limit are the same. */
  lemma TextIsUnique(mem: Memory, a: nat, n: nat, u: seq<U16>, v: seq<U16>)
    requires IsText(mem, a, n, u) && IsText(mem, a, n, v) && |u| <= |v|
    ensures u == v
  {
    hide LittleEndian;
    assert forall k :: 0 <= k < |u| ==> u[k] == v[k];
  }

  /** The text that the string reader takes: up to a zero unit or `n` units. */
  lemma WindowIsText(mem: Memory, a: nat, n: nat)
    requires a + 2 * n <= |mem|
    ensures IsText(mem, a, n, TakeNonZero(Units(mem, a, n)))
  {
    UnitRunIsText(mem, a);
    WindowIsRun(mem, a, n);
    hide UnitRun, LittleEndian, Units, TakeNonZero;
  }

  /** One character for each unit, which is the unit's own unless it is a surrogate. */
  ghost predicate Shows(u: seq<U16>, t: Text) {
    |t| == |u| && forall k :: 0 <= k < |u| ==> t[k] == if 0xD800 <= u[k] < 0xE000 then 63 else u[k]
  }

  lemma RunShows(mem: Memory, a: nat)
    ensures var run := UnitRun(mem, a); IsText(mem, a, |run| + 1, run) && Shows(run, LossyText(run))
  {
    UnitRunIsText(mem, a);
    hide IsText, UnitRun;
  }

  /** The loop that reads the URL global; `None` when the start address itself overflows. */
  method ReadUrl(mem: Memory, url: int) returns (r: Option<Text>)
    requires -0x8000_0000 <= url < 0x8000_0000
    requires |mem| < 0x1_0000_0000_0000_0000
    ensures r == if url == -1 then None else Some(LossyText(UnitRun(mem, Address(url))))
    ensures r.Some? ==>
              exists u :: IsText(mem, Address(url), |u| + 1, u) && Shows(u, r.value)
  {
    hide IsText, Shows, LittleEndian;
    if url == -1 {
      return None;
    }
    var chars: Text := [];
    var i := Address(url);
    ghost var read: seq<U16> := [];
    while i + 1 < |mem|
      invariant UnitRun(mem, Address(url)) == read + UnitRun(mem, i)
      invariant chars == LossyText(read)
      decreases |mem| - i
    {
      var low, high := mem[i], mem[i + 1];
      assert mem[i..i + 2] == [low, high];
      if low == 0 && high == 0 {
        break;
      }
      var unit := DecodeU16([low, high]);
      chars := chars + [if IsSurrogate(unit) then 63 else unit];
      assert read + UnitRun(mem, i) == read + [unit] + UnitRun(mem, i + 2);
      read := read + [unit];
      i := i + 2;
    }
    assert UnitRun(mem, i) == [] && read + [] == read;
    RunShows(mem, Address(url));
    r := Some(chars);
  }

  lemma {:induction false} PlainUnitsDecode(u: seq<U16>)
    requires forall k :: 0 <= k < |u| ==> !IsSurrogate(u[k])
    ensures DecodeUtf16(u) == Some(LossyText(u))
  {
    if u == [] {
      assert LossyText(u) == [];
    } else {
      PlainUnitsDecode(u[1..]);
      assert LossyText(u) == [u[0]] + LossyText(u[1..]);
    }
  }

  /**
   The two readers return the same text exactly when all 2048 bytes are in
   memory, the text ends within 1024 units, and no unit is a surrogate.
   */
  lemma ReadersAgreeIff(mem: Memory, ptr: nat)
    ensures ReadUtf16(mem, ptr, 1024) == Some(LossyText(UnitRun(mem, ptr)))
            <==> && ptr + 2048 <= |mem|
                 && |UnitRun(mem, ptr)| <= 1024
                 && forall k :: 0 <= k < |UnitRun(mem, ptr)| ==> !IsSurrogate(UnitRun(mem, ptr)[k])
  {
    var run := UnitRun(mem, ptr);
    if ptr + 2048 <= |mem| {
      var u := TakeNonZero(Units(mem, ptr, 1024));
      WindowIsRun(mem, ptr, 1024);
      if DecodeUtf16(u) == Some(LossyText(run)) {
        Utf16Length(u);
        assert u == run;
      } else if |run| <= 1024 && forall k :: 0 <= k < |run| ==> !IsSurrogate(run[k]) {
        assert u == run;
        PlainUnitsDecode(run);
      }
    }
  }
}
