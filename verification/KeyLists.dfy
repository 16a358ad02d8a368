/** The key lists in off-chain storage: the bytes "init" followed by 32-byte job ids. */
module KeyLists {
  import opened Bytes

  const INIT: Bytes := Ascii("init")

  /** The slice's `chunks(32)`: pieces of 32 bytes, the last one shorter if the length does not divide. */
  function Chunks(b: Bytes): (c: seq<Bytes>)
    ensures b != [] ==> c != []
    decreases |b|
  {
    if b == [] then [] else if |b| <= 32 then [b] else [b[..32]] + Chunks(b[32..])
  }

  /** What both readers of a list do after cutting off its first four bytes. */
  function ParseList(list: Bytes): seq<Bytes>
    requires |list| >= 4
  {
    Chunks(list[4..])
  }

  function Concat(ids: seq<Bytes>): Bytes {
    if ids == [] then [] else Concat(ids[..|ids| - 1]) + ids[|ids| - 1]
  }

  /** The list that holds exactly `ids`, in order. */
  function ListOf(ids: seq<Bytes>): (list: Bytes)
    ensures |list| >= 4
  {
    INIT + Concat(ids)
  }

  ghost predicate AllIds(ids: seq<Bytes>) {
    forall k :: 0 <= k < |ids| ==> |ids[k]| == 32
  }

  lemma ListOfAppend(ids: seq<Bytes>, id: Bytes)
    ensures ListOf(ids + [id]) == ListOf(ids) + id
  {
    assert (ids + [id])[..|ids|] == ids;
    assert INIT + (Concat(ids) + id) == (INIT + Concat(ids)) + id;
  }

  lemma {:induction false} ChunksAppend(a: Bytes, id: Bytes)
    requires |a| % 32 == 0 && |id| == 32
    ensures Chunks(a + id) == Chunks(a) + [id]
    decreases |a|
  {
    if a == [] {
      assert a + id == id;
    } else {
      ChunksAppend(a[32..], id);
      assert (a + id)[..32] == a[..32] && (a + id)[32..] == a[32..] + id;
      if |a| == 32 {
        assert a[..32] == a && Chunks(a[32..]) == [];
      }
    }
  }

  lemma {:induction false} ChunksOfConcat(ids: seq<Bytes>)
    requires AllIds(ids)
    ensures Chunks(Concat(ids)) == ids && |Concat(ids)| == 32 * |ids|
  {
    if ids == [] {
    } else {
      var front := ids[..|ids| - 1];
      ChunksOfConcat(front);
      ChunksAppend(Concat(front), ids[|ids| - 1]);
      assert ids == front + [ids[|ids| - 1]];
    }
  }

  /** Reading a list back gives the ids that were appended, in order. */
  lemma ParseListOf(ids: seq<Bytes>)
    requires AllIds(ids)
    ensures ParseList(ListOf(ids)) == ids
  {
    ChunksOfConcat(ids);
    assert ListOf(ids)[4..] == Concat(ids);
  }

  lemma ListOfInjective(a: seq<Bytes>, b: seq<Bytes>)
    requires AllIds(a) && AllIds(b) && ListOf(a) == ListOf(b)
    ensures a == b
  {
    ParseListOf(a);
    ParseListOf(b);
  }

  /** How often an id occurs among others. */
  function Times(ids: seq<Bytes>, id: Bytes): int {
    multiset(ids)[id]
  }

  lemma TimesAppend(ids: seq<Bytes>, x: Bytes, id: Bytes)
    ensures Times(ids + [x], id) == Times(ids, id) + if x == id then 1 else 0
  {
  }

  /** The pieces put together again are the bytes; all but the last are of 32 bytes, and none is empty or longer. */
  lemma {:induction false} ChunksJoin(b: Bytes)
    ensures var c := Chunks(b);
            && Together(c) == b
            && (forall k :: 0 <= k < |c| ==> 0 < |c[k]| <= 32)
            && (forall k :: 0 <= k < |c| - 1 ==> |c[k]| == 32)
    decreases |b|
  {
    if |b| <= 32 {
      var one := [b];
      assert one[1..] == [];
    } else {
      ChunksJoin(b[32..]);
      assert Chunks(b)[1..] == Chunks(b[32..]);
      assert b == b[..32] + b[32..];
    }
  }

  function Together(c: seq<Bytes>): Bytes {
    if c == [] then [] else c[0] + Together(c[1..])
  }
}
