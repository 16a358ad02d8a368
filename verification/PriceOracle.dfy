/**
 The price oracle's on-chain side: a bounded window of prices that overwrites
 by value once it is full, its saturating average, and the limit on how often
 an unsigned price is accepted.
 */
module PriceOracle {
  import opened Bytes
  import opened Spacing

  const U32_MAX := 0xffff_ffff

  // ---------- The window ----------

  /** One more price: pushed while there is room, else written over the slot `price % cap`. */
  function AddPrice(cap: U32, prices: seq<U32>, price: U32): (r: seq<U32>)
    requires 0 < cap && |prices| <= cap
    ensures |r| <= cap
  {
    if |prices| < cap then prices + [price] else prices[price % cap := price]
  }

  /** The window after a history of submissions. */
  function Window(cap: U32, history: seq<U32>): (w: seq<U32>)
    requires 0 < cap
    ensures |w| <= cap
  {
    if history == [] then []
    else AddPrice(cap, Window(cap, history[..|history| - 1]), history[|history| - 1])
  }

  /** `i` is the last submission after the window was full that went to slot `j`. */
  ghost predicate LastOverflow(cap: U32, history: seq<U32>, j: int, i: int)
    requires 0 < cap
  {
    && cap <= i < |history| && history[i] % cap == j
    && forall k :: i < k < |history| ==> history[k] % cap != j
  }

  /**
   While it fits, the window is the history. Afterwards it keeps its size, and
   slot `j` holds the last overflowing price congruent to `j`, or the `j`-th
   price of all if there was none.
   */
  lemma {:induction false} WindowClosedForm(cap: U32, history: seq<U32>)
    requires 0 < cap
    ensures |history| <= cap ==> Window(cap, history) == history
    ensures |history| > cap ==> |Window(cap, history)| == cap
    ensures forall j, i :: 0 <= j < cap && LastOverflow(cap, history, j, i) ==> Window(cap, history)[j] == history[i]
    ensures forall j :: 0 <= j < cap && j < |history|
                        && (forall i :: cap <= i < |history| ==> history[i] % cap != j)
                        ==> Window(cap, history)[j] == history[j]
  {
    if history == [] {
    } else {
      var front, last := history[..|history| - 1], history[|history| - 1];
      WindowClosedForm(cap, front);
      if |history| > cap {
        forall j, i | 0 <= j < cap && LastOverflow(cap, history, j, i)
          ensures Window(cap, history)[j] == history[i]
        {
          if i < |front| {
            assert history[|front|] % cap != j;
            assert LastOverflow(cap, front, j, i);
          }
        }
        forall j | 0 <= j < cap && (forall i :: cap <= i < |history| ==> history[i] % cap != j)
          ensures Window(cap, history)[j] == history[j]
        {
          assert history[|front|] % cap != j;
          assert forall i :: cap <= i < |front| ==> front[i] == history[i];
        }
      } else {
        assert history == front + [last];
      }
    }
  }

  // ---------- The average ----------

  function Sum(s: seq<U32>): nat {
    if s == [] then 0 else Sum(s[..|s| - 1]) + s[|s| - 1]
  }

  lemma {:induction false} SumConcat(a: seq<U32>, b: seq<U32>)
    ensures Sum(a + b) == Sum(a) + Sum(b)
  {
    if b == [] {
      assert a + b == a;
    } else {
      var front := b[..|b| - 1];
      SumConcat(a, front);
      assert (a + b)[..|a + b| - 1] == a + front;
    }
  }

  lemma SumOne(x: U32)
    ensures Sum([x]) == x
  {
    var one := [x];
    assert one[..0] == [];
  }

  lemma WithoutOne(b: seq<U32>, i: nat)
    requires i < |b|
    ensures multiset(b[..i] + b[i + 1..]) == multiset(b) - multiset{b[i]}
  {
    var front, back, x := b[..i], b[i + 1..], b[i];
    assert b == front + ([x] + back);
    assert multiset(b) == multiset(front) + (multiset{x} + multiset(back));
  }

  lemma SumWithoutOne(b: seq<U32>, i: nat)
    requires i < |b|
    ensures Sum(b) == b[i] + Sum(b[..i] + b[i + 1..])
  {
    hide Sum;
    assert b == b[..i] + ([b[i]] + b[i + 1..]);
    SumConcat(b[..i], [b[i]] + b[i + 1..]);
    SumConcat([b[i]], b[i + 1..]);
    SumConcat(b[..i], b[i + 1..]);
    SumOne(b[i]);
  }

  /** Where the first of one lies in the other, and that the others are the same. */
  lemma FirstIn(a: seq<U32>, b: seq<U32>) returns (i: nat)
    requires a != [] && multiset(a) == multiset(b)
    ensures i < |b| && b[i] == a[0] && multiset(a[1..]) == multiset(b[..i] + b[i + 1..])
  {
    i := PlaceIn(b, a[0]);
    WithoutOne(a, 0);
    WithoutOne(b, i);
    assert a[..0] + a[1..] == a[1..];
  }

  lemma PlaceIn(b: seq<U32>, x: U32) returns (i: nat)
    requires x in multiset(b)
    ensures i < |b| && b[i] == x
  {
    assert x in b;
    i :| 0 <= i < |b| && b[i] == x;
  }

  /** The order of the prices does not matter to their sum. */
  lemma {:induction false} SumPermutes(a: seq<U32>, b: seq<U32>)
    requires multiset(a) == multiset(b)
    ensures Sum(a) == Sum(b)
    decreases |a|
  {
    if a == [] {
      assert |multiset(b)| == |b|;
    } else {
      hide Sum;
      var i := FirstIn(a, b);
      SumPermutes(a[1..], b[..i] + b[i + 1..]);
      SumWithoutOne(a, 0);
      SumWithoutOne(b, i);
      assert a[..0] + a[1..] == a[1..];
    }
  }

  function SaturatingAdd(a: U32, b: U32): U32 {
    var (x: int, y: int) := (a, b);
    if x + y > U32_MAX then U32_MAX else x + y
  }

  function Average(prices: seq<U32>): Option<U32> {
    if prices == [] then None
    else Some((if Sum(prices) > U32_MAX then U32_MAX else Sum(prices)) / |prices|)
  }

  /** `q` is what is left of the sum, cut to a u32, divided among the prices and rounded down. */
  predicate IsAverage(prices: seq<U32>, q: U32) {
    q * |prices| <= Least(Sum(prices), U32_MAX) < (q + 1) * |prices|
  }

  lemma QuotientIs(m: nat, n: nat)
    requires n > 0
    ensures (m / n) * n <= m < (m / n + 1) * n
  {
  }

  lemma AverageIs(prices: seq<U32>)
    ensures Average(prices).None? <==> prices == []
    ensures prices != [] ==> IsAverage(prices, Average(prices).value)
  {
    if prices != [] {
      QuotientIs(Least(Sum(prices), U32_MAX), |prices|);
    }
    hide Sum;
  }

  /** The fold saturates where the true sum does, and divides what is left. */
  method AveragePrice(prices: seq<U32>) returns (r: Option<U32>)
    ensures r == Average(prices)
    ensures r.None? <==> prices == []
    ensures r.Some? ==> IsAverage(prices, r.value)
  {
    hide IsAverage;
    if prices == [] {
      return None;
    }
    var total: U32 := 0;
    for i := 0 to |prices|
      invariant total == if Sum(prices[..i]) > U32_MAX then U32_MAX else Sum(prices[..i])
    {
      assert prices[..i + 1][..i] == prices[..i];
      total := SaturatingAdd(total, prices[i]);
    }
    assert prices[..|prices|] == prices;
    r := Some(total / |prices|);
    AverageIs(prices);
  }

  lemma {:induction false} SumBounds(s: seq<U32>, low: nat, high: nat)
    requires forall i :: 0 <= i < |s| ==> low <= s[i] <= high
    ensures low * |s| <= Sum(s) <= high * |s|
  {
    if s == [] {
    } else {
      SumBounds(s[..|s| - 1], low, high);
      assert low * |s| == low * (|s| - 1) + low && high * |s| == high * (|s| - 1) + high;
    }
  }

  /**
   The average is never above all prices. It is not below a common lower bound
   exactly when that many prices of that size would fit a u32, as they do
   whenever the sum itself fits.
   */
  lemma AverageWithinPrices(s: seq<U32>, low: nat, high: nat)
    requires s != [] && forall i :: 0 <= i < |s| ==> low <= s[i] <= high
    ensures Average(s).value <= high
    ensures low <= Average(s).value <==> low * |s| <= U32_MAX
    ensures Sum(s) <= U32_MAX ==> low * |s| <= U32_MAX
  {
    SumBounds(s, low, high);
    var total := if Sum(s) > U32_MAX then U32_MAX else Sum(s);
    QuotientBounds(total, |s|, low, high);
  }

  lemma QuotientBounds(total: nat, n: nat, low: nat, high: nat)
    requires n > 0 && total <= high * n
    ensures total / n <= high
    ensures low <= total / n <==> low * n <= total
  {
    var q := total / n;
    assert total == n * q + total % n;
    assert n * (q + 1) == n * q + n && n * (high + 1) == high * n + n;
    assert n * q < n * (high + 1);
    SmallerFactor(n, q, high + 1);
    if low <= q {
      Monotone(n, low, q);
    }
    if low * n <= total {
      SmallerFactor(n, low, q + 1);
    }
  }

  /** When the sum saturates the average can fall below every price. */
  lemma SaturatedAverageIsLow()
    ensures Average([U32_MAX, U32_MAX]) == Some(0x7fff_ffff)
  {
    assert [U32_MAX, U32_MAX][..1] == [U32_MAX];
    assert Sum([U32_MAX]) == U32_MAX;
    assert Sum([U32_MAX, U32_MAX]) == 2 * U32_MAX;
  }

  // ---------- Calls, and the limit on unsigned ones ----------

  datatype Limits = Limits(maxPrices: U32, unsignedInterval: nat)

  datatype Oracle = Oracle(block: nat, prices: seq<U32>, nextUnsignedAt: nat)

  datatype Call =
    | SubmitPrice(price: U32)
    | SubmitPriceUnsigned(blockNumber: nat, price: U32)
    | SubmitSignedPayload(blockNumber: nat, price: U32, signatureOk: bool)

  datatype Validity = Valid(priority: nat) | BadProof | Stale | Future | NotUnsigned

  function Distance(a: U32, b: U32): nat {
    if a > b then a - b else b - a
  }

  /** The priority grows with the distance from the average; `base` is the configured one. */
  function ValidateParameters(o: Oracle, base: nat, blockNumber: nat, price: U32): Validity {
    if o.nextUnsignedAt > blockNumber then Stale
    else if o.block < blockNumber then Future
    else
      match Average(o.prices)
      case None => Valid(SaturatingPriority(base, 0))
      case Some(avg) => Valid(SaturatingPriority(base, Distance(avg, price)))
  }

  function SaturatingPriority(base: nat, extra: nat): nat {
    if base + extra > 0xffff_ffff_ffff_ffff then 0xffff_ffff_ffff_ffff else base + extra
  }

  function ValidateUnsigned(o: Oracle, base: nat, call: Call): Validity {
    match call
    case SubmitPrice(_) => NotUnsigned
    case SubmitPriceUnsigned(block, price) => ValidateParameters(o, base, block, price)
    case SubmitSignedPayload(block, price, signatureOk) =>
      if !signatureOk then BadProof else ValidateParameters(o, base, block, price)
  }

  /** Whether a call is included: signed ones always, unsigned ones when valid for the state they meet. */
  predicate Included(o: Oracle, base: nat, call: Call) {
    call.SubmitPrice? || ValidateUnsigned(o, base, call).Valid?
  }

  function Applied(l: Limits, o: Oracle, call: Call): Oracle
    requires 0 < l.maxPrices && |o.prices| <= l.maxPrices
  {
    var prices := AddPrice(l.maxPrices, o.prices, call.price);
    Oracle(o.block, prices, if call.SubmitPrice? then o.nextUnsignedAt else o.block + l.unsignedInterval)
  }

  datatype Event = Submit(call: Call) | NextBlock

  /** A run with the blocks at which unsigned prices were accepted and all prices accepted. */
  datatype Trace = Trace(oracle: Oracle, unsignedAt: seq<nat>, history: seq<U32>)

  const START := Trace(Oracle(0, [], 0), [], [])

  ghost predicate TraceOk(l: Limits, t: Trace) {
    && 0 < l.maxPrices
    && t.oracle.prices == Window(l.maxPrices, t.history)
    && Spaced(t.unsignedAt, l.unsignedInterval)
    && (t.unsignedAt == [] ==> t.oracle.nextUnsignedAt == 0)
    && (t.unsignedAt != [] ==>
          && t.oracle.nextUnsignedAt == t.unsignedAt[|t.unsignedAt| - 1] + l.unsignedInterval
          && t.unsignedAt[|t.unsignedAt| - 1] <= t.oracle.block)
  }

  function Next(l: Limits, base: nat, t: Trace, e: Event): Trace
    requires 0 < l.maxPrices && |t.oracle.prices| <= l.maxPrices
  {
    match e
    case NextBlock => t.(oracle := t.oracle.(block := t.oracle.block + 1))
    case Submit(call) =>
      if !Included(t.oracle, base, call) then t
      else
        Trace(Applied(l, t.oracle, call),
              if call.SubmitPrice? then t.unsignedAt else t.unsignedAt + [t.oracle.block],
              t.history + [call.price])
  }

  lemma NextKeeps(l: Limits, base: nat, t: Trace, e: Event)
    requires TraceOk(l, t)
    ensures TraceOk(l, Next(l, base, t, e))
    ensures t.oracle.nextUnsignedAt <= Next(l, base, t, e).oracle.nextUnsignedAt
  {
    hide AddPrice, Average, Spaced;
    if e.Submit? && Included(t.oracle, base, e.call) {
      WindowGrows(l.maxPrices, t.history, e.call.price);
      if !e.call.SubmitPrice? {
        IncludedIsDue(t.oracle, base, e.call);
        SpacedAppend(t.unsignedAt, l.unsignedInterval, t.oracle.block);
      }
    }
  }

  lemma WindowGrows(cap: U32, history: seq<U32>, price: U32)
    requires 0 < cap
    ensures Window(cap, history + [price]) == AddPrice(cap, Window(cap, history), price)
  {
    assert (history + [price])[..|history|] == history;
  }

  /** An unsigned call is valid exactly when signed as it must be, past the cool-down and not ahead of the chain. */
  lemma IncludedIsDue(o: Oracle, base: nat, call: Call)
    requires !call.SubmitPrice?
    ensures Included(o, base, call)
            <==> && o.nextUnsignedAt <= call.blockNumber <= o.block
                 && (call.SubmitSignedPayload? ==> call.signatureOk)
  {
  }

  /** The priority that a price has: the configured one and its distance from the average, cut to a u64. */
  ghost predicate IsPriority(prices: seq<U32>, base: nat, price: U32, priority: nat) {
    if prices == [] then priority == Least(base, 0xffff_ffff_ffff_ffff)
    else
      exists avg: U32 :: && IsAverage(prices, avg)
                         && var (x: int, y: int) := (avg, price);
                            (x <= y ==> priority == Least(base + (y - x), 0xffff_ffff_ffff_ffff))
                            && (y <= x ==> priority == Least(base + (x - y), 0xffff_ffff_ffff_ffff))
  }

  /** What the validator answers to every call, and with which priority. */
  lemma ValidatorOutcome(o: Oracle, base: nat, call: Call)
    ensures var v := ValidateUnsigned(o, base, call);
            var bad := call.SubmitSignedPayload? && !call.signatureOk;
            && (v == NotUnsigned <==> call.SubmitPrice?)
            && (v == BadProof <==> bad)
            && (!call.SubmitPrice? && !bad ==>
                  && (v == Stale <==> call.blockNumber < o.nextUnsignedAt)
                  && (v == Future <==> o.nextUnsignedAt <= call.blockNumber && o.block < call.blockNumber)
                  && (v.Valid? <==> o.nextUnsignedAt <= call.blockNumber <= o.block)
                  && (v.Valid? ==> IsPriority(o.prices, base, call.price, v.priority)))
  {
    AverageIs(o.prices);
    hide Average, IsAverage;
    if o.prices != [] {
      assert IsAverage(o.prices, Average(o.prices).value);
    }
  }

  /** A signed call is always accepted. An unsigned one is accepted when it is due, and starts the cool-down. */
  predicate Due(o: Oracle, call: Call) {
    call.SubmitPrice? || (o.nextUnsignedAt <= call.blockNumber <= o.block
                          && (call.SubmitSignedPayload? ==> call.signatureOk))
  }

  /** One call in a run: exactly the due ones are accepted, and what they leave. */
  lemma SubmitOutcome(l: Limits, base: nat, t: Trace, call: Call)
    requires TraceOk(l, t)
    ensures var t' := Next(l, base, t, Submit(call));
            && (!Due(t.oracle, call) ==> t' == t)
            && (Due(t.oracle, call) ==>
                  && t'.history == t.history + [call.price] && t'.oracle.block == t.oracle.block
                  && t'.oracle.prices == Window(l.maxPrices, t'.history)
                  && t'.unsignedAt == t.unsignedAt + (if call.SubmitPrice? then [] else [t.oracle.block])
                  && t'.oracle.nextUnsignedAt
                     == if call.SubmitPrice? then t.oracle.nextUnsignedAt else t.oracle.block + l.unsignedInterval)
  {
    if !call.SubmitPrice? {
      IncludedIsDue(t.oracle, base, call);
    }
    WindowGrows(l.maxPrices, t.history, call.price);
    hide AddPrice, Window, Spaced, ValidateUnsigned;
  }

  function Blocks(events: seq<Event>): nat {
    if events == [] then 0 else (if events[0].NextBlock? then 1 else 0) + Blocks(events[1..])
  }

  /** Each new block moves the block number by one, and calls leave it. */
  lemma {:induction false} BlockCountsBlocks(l: Limits, base: nat, t: Trace, events: seq<Event>)
    requires 0 < l.maxPrices && |t.oracle.prices| <= l.maxPrices
    ensures Run(l, base, t, events).oracle.block == t.oracle.block + Blocks(events)
    decreases |events|
  {
    hide Included, AddPrice;
    if events == [] {
    } else {
      BlockCountsBlocks(l, base, Next(l, base, t, events[0]), events[1..]);
    }
  }

  function Run(l: Limits, base: nat, t: Trace, events: seq<Event>): Trace
    requires 0 < l.maxPrices && |t.oracle.prices| <= l.maxPrices
    decreases |events|
  {
    if events == [] then t else Run(l, base, Next(l, base, t, events[0]), events[1..])
  }

  lemma {:induction false} RunKeeps(l: Limits, base: nat, t: Trace, events: seq<Event>)
    requires TraceOk(l, t)
    ensures TraceOk(l, Run(l, base, t, events))
    ensures t.oracle.nextUnsignedAt <= Run(l, base, t, events).oracle.nextUnsignedAt
    decreases |events|
  {
    hide Window, Spaced, Next;
    if events == [] {
    } else {
      NextKeeps(l, base, t, events[0]);
      RunKeeps(l, base, Next(l, base, t, events[0]), events[1..]);
    }
  }

  /**
   In every run the unsigned prices are accepted at least the interval apart,
   so `span` blocks carry at most ceil(span / interval) of them, and the stored
   window is the one its history determines.
   */
  lemma UnsignedPricesAreSpaced(l: Limits, base: nat, events: seq<Event>, from: nat, span: nat)
    requires 0 < l.maxPrices
    ensures var t := Run(l, base, START, events);
            && Spaced(t.unsignedAt, l.unsignedInterval)
            && (l.unsignedInterval > 0 ==> |Positions(t.unsignedAt, from, span)| <= CeilDiv(span, l.unsignedInterval))
            && t.oracle.prices == Window(l.maxPrices, t.history)
  {
    RunKeeps(l, base, START, events);
    if l.unsignedInterval > 0 {
      SpanHoldsAtMost(Run(l, base, START, events).unsignedAt, l.unsignedInterval, from, span);
    }
  }

  // ---------- The pallet ----------

  class Pallet {
    const limits: Limits
    var block: nat
    var prices: seq<U32>
    var nextUnsignedAt: nat

    ghost predicate Valid()
      reads this
    {
      0 < limits.maxPrices && |prices| <= limits.maxPrices
    }

    ghost function View(): Oracle
      reads this
    {
      Oracle(block, prices, nextUnsignedAt)
    }

    constructor (limits: Limits)
      requires 0 < limits.maxPrices
      ensures Valid() && this.limits == limits && View() == START.oracle
    {
      this.limits := limits;
      block, prices, nextUnsignedAt := 0, [], 0;
    }

    /** Adds a price; the average it reports is there, so reading it does not fail. */
    method AddData(price: U32) returns (average: U32)
      requires Valid()
      modifies this`prices
      ensures Valid() && prices == AddPrice(limits.maxPrices, old(prices), price)
      ensures Average(prices) == Some(average) && IsAverage(prices, average)
    {
      if |prices| < limits.maxPrices {
        prices := prices + [price];
      } else {
        prices := prices[price % limits.maxPrices := price];
      }
      var current := AveragePrice(prices);
      average := current.value;
    }

    method SubmitSigned(price: U32)
      requires Valid()
      modifies this
      ensures Valid() && View() == Applied(limits, old(View()), SubmitPrice(price))
    {
      var average := AddData(price);
    }

    method SubmitUnsigned(blockNumber: nat, price: U32)
      requires Valid()
      modifies this
      ensures Valid() && View() == Applied(limits, old(View()), SubmitPriceUnsigned(blockNumber, price))
    {
      var average := AddData(price);
      nextUnsignedAt := block + limits.unsignedInterval;
    }
  }
}
