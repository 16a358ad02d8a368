/** Block numbers that lie apart, and how many of them a span of blocks can hold. */
module Spacing {

  /** Each number is at least `gap` after the one before it. */
  ghost predicate Spaced(s: seq<nat>, gap: nat) {
    forall i :: 0 <= i < |s| - 1 ==> s[i] + gap <= s[i + 1]
  }

  /** How many numbers lie in the `span` blocks from `from` on. */
  function CountIn(s: seq<nat>, from: nat, span: nat): nat {
    if s == [] then 0
    else CountIn(s[..|s| - 1], from, span) + if from <= s[|s| - 1] < from + span then 1 else 0
  }

  function CeilDiv(n: nat, d: nat): nat
    requires d > 0
  {
    (n + d - 1) / d
  }

  /** The positions whose number lies in the span. */
  ghost function Positions(s: seq<nat>, from: nat, span: nat): set<nat> {
    set i: nat | i < |s| && from <= s[i] < from + span
  }

  lemma {:induction false} CountInIs(s: seq<nat>, from: nat, span: nat)
    ensures CountIn(s, from, span) == |Positions(s, from, span)|
  {
    if s == [] {
    } else {
      var n := |s| - 1;
      CountInIs(s[..n], from, span);
      assert Positions(s, from, span)
          == Positions(s[..n], from, span) + if from <= s[n] < from + span then {n} else {};
    }
  }

  /** The least number of `d`s that reach `n`. */
  lemma CeilDivIs(n: nat, d: nat)
    requires d > 0
    ensures d * CeilDiv(n, d) >= n && (CeilDiv(n, d) > 0 ==> d * (CeilDiv(n, d) - 1) < n)
  {
    var q := CeilDiv(n, d);
    assert n + d - 1 == d * q + (n + d - 1) % d;
    OneMore(d, q);
  }

  lemma SpacedAppend(s: seq<nat>, gap: nat, x: nat)
    requires Spaced(s, gap) && (s != [] ==> s[|s| - 1] + gap <= x)
    ensures Spaced(s + [x], gap)
  {
  }

  lemma {:induction false} SpacedIsSorted(s: seq<nat>, gap: nat, i: nat, j: nat)
    requires Spaced(s, gap) && i <= j < |s|
    ensures s[i] <= s[j]
    decreases j - i
  {
    if i == j {
    } else {
      SpacedIsSorted(s, gap, i, j - 1);
      assert s[j - 1] + gap <= s[j - 1 + 1];
    }
  }

  /** The numbers in the span reach at least as far as their count says. */
  lemma {:induction false} SpanIsUsed(s: seq<nat>, gap: nat, from: nat, span: nat) returns (i: nat)
    requires Spaced(s, gap) && CountIn(s, from, span) > 0
    ensures i < |s| && from <= s[i] < from + span
    ensures from + gap * (CountIn(s, from, span) - 1) <= s[i]
  {
    var front, last := s[..|s| - 1], s[|s| - 1];
    var c := CountIn(front, from, span);
    if !(from <= last < from + span) {
      i := SpanIsUsed(front, gap, from, span);
    } else if c == 0 {
      i := |s| - 1;
    } else {
      var k := SpanIsUsed(front, gap, from, span);
      LastIsBeyond(s, gap, k);
      OneMore(gap, c);
      hide CountIn, Spaced;
      i := |s| - 1;
    }
  }

  lemma LastIsBeyond(s: seq<nat>, gap: nat, k: nat)
    requires Spaced(s, gap) && k < |s| - 1
    ensures s[k] + gap <= s[|s| - 1]
  {
    SpacedIsSorted(s, gap, k, |s| - 2);
    assert s[|s| - 2] + gap <= s[|s| - 2 + 1];
  }

  lemma OneMore(gap: nat, c: int)
    ensures gap * c == gap * (c - 1) + gap
  {
  }

  /** A span of `span` blocks holds at most ceil(span / gap) of them. */
  lemma SpanHoldsAtMost(s: seq<nat>, gap: nat, from: nat, span: nat)
    requires Spaced(s, gap) && gap > 0
    ensures |Positions(s, from, span)| <= CeilDiv(span, gap)
  {
    CountInIs(s, from, span);
    var c := CountIn(s, from, span);
    if c > 0 {
      var i := SpanIsUsed(s, gap, from, span);
      assert gap * (c - 1) < span;
      MultipleBelow(gap, c, span);
    }
  }

  lemma MultipleBelow(gap: nat, c: nat, span: nat)
    requires gap > 0 && c > 0 && gap * (c - 1) < span
    ensures c <= CeilDiv(span, gap)
  {
    var q := CeilDiv(span, gap);
    assert span + gap - 1 == gap * q + (span + gap - 1) % gap;
    OneMore(gap, q + 1);
    OneMore(gap, c);
    SmallerFactor(gap, c, q + 1);
  }

  lemma SmallerFactor(g: nat, a: nat, b: nat)
    requires g * a < g * b
    ensures a < b
  {
    if b <= a {
      Monotone(g, b, a);
    }
  }

  lemma Monotone(g: nat, a: nat, b: nat)
    requires a <= b
    ensures g * a <= g * b
  {
  }
}
