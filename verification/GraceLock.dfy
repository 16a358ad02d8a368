/**
 The lock in off-chain storage that lets one price-oracle worker send in a
 grace period. A worker reads the entry, decides on what it read, and then
 compare-and-sets; any number of workers may be anywhere in between.
 */
module GraceLock {
  import opened Bytes
  import opened Scale
  import opened Spacing

  datatype Choice = Signed | UnsignedForAny | UnsignedForAll | NoSend

  datatype Worker =
    | Started(block: U32)
    | HasRead(block: U32, seen: Option<Bytes>)
    | Deciding(block: U32, seen: Option<Bytes>)
    | Chosen(choice: Choice)

  /** The stored entry, the workers, and the block numbers of the runs that may send, in order. */
  datatype State = State(entry: Option<Bytes>, workers: map<nat, Worker>, sends: seq<nat>)

  datatype Move = Start(block: U32) | Read | Decide | Swap

  datatype Action = Action(w: nat, move: Move)

  /** The block an entry names; an entry that does not decode counts as none. */
  function LastSend(entry: Option<Bytes>): Option<U32> {
    match entry
    case None => None
    case Some(raw) => match ParseU32(raw) case Failed => None case Parsed(n, _) => Some(n)
  }

  /** Whether the block is still within the grace period of the entry. */
  predicate RecentlySent(entry: Option<Bytes>, block: U32, grace: nat) {
    LastSend(entry).Some? && block < LastSend(entry).value + grace
  }

  function ChoiceFor(block: U32): Choice {
    if block % 3 == 0 then Signed else if block % 3 == 1 then UnsignedForAny else UnsignedForAll
  }

  function Step(grace: nat, s: State, a: Action): State {
    if a.w !in s.workers then
      match a.move
      case Start(block) => s.(workers := s.workers[a.w := Started(block)])
      case _ => s
    else
      match (a.move, s.workers[a.w])
      case (Read, Started(block)) => s.(workers := s.workers[a.w := HasRead(block, s.entry)])
      case (Decide, HasRead(block, seen)) =>
        var next := if RecentlySent(seen, block, grace) then Chosen(NoSend) else Deciding(block, seen);
        s.(workers := s.workers[a.w := next])
      case (Swap, Deciding(block, seen)) =>
        if s.entry == seen then
          State(Some(EncodeU32(block)), s.workers[a.w := Chosen(ChoiceFor(block))], s.sends + [block])
        else s.(workers := s.workers[a.w := Chosen(NoSend)])
      case _ => s
  }

  function Run(grace: nat, s: State, actions: seq<Action>): State
    decreases |actions|
  {
    if actions == [] then s else Run(grace, Step(grace, s, actions[0]), actions[1..])
  }

  ghost predicate WorkerOk(grace: nat, k: Worker) {
    k.Deciding? ==> !RecentlySent(k.seen, k.block, grace)
  }

  /** The entry is the last send, or what was there at first; sends lie a grace period apart. */
  ghost predicate Inv(grace: nat, initial: Option<Bytes>, s: State) {
    && (s.sends == [] ==> s.entry == initial)
    && (s.sends != [] ==> s.sends[|s.sends| - 1] < 0x1_0000_0000 && s.entry == Some(EncodeU32(s.sends[|s.sends| - 1])))
    && (s.sends != [] && LastSend(initial).Some? ==> LastSend(initial).value + grace <= s.sends[0])
    && Spaced(s.sends, grace)
    && (forall w :: w in s.workers ==> WorkerOk(grace, s.workers[w]))
  }

  lemma SwapKeeps(grace: nat, initial: Option<Bytes>, s: State, w: nat)
    requires Inv(grace, initial, s) && w in s.workers && s.workers[w].Deciding?
    ensures Inv(grace, initial, Step(grace, s, Action(w, Swap)))
  {
    var k := s.workers[w];
    assert WorkerOk(grace, k);
    if s.entry == k.seen {
      if s.sends != [] {
        ParseU32RoundTrip(s.sends[|s.sends| - 1], []);
        assert EncodeU32(s.sends[|s.sends| - 1]) + [] == EncodeU32(s.sends[|s.sends| - 1]);
      }
      hide EncodeU32, ParseU32;
      SpacedAppend(s.sends, grace, k.block);
    }
  }

  lemma StepKeeps(grace: nat, initial: Option<Bytes>, s: State, a: Action)
    requires Inv(grace, initial, s)
    ensures Inv(grace, initial, Step(grace, s, a))
  {
    if a.w in s.workers && a.move.Swap? && s.workers[a.w].Deciding? {
      SwapKeeps(grace, initial, s, a.w);
    } else {
      hide Spaced, LastSend, EncodeU32;
    }
  }

  lemma {:induction false} RunKeeps(grace: nat, initial: Option<Bytes>, s: State, actions: seq<Action>)
    requires Inv(grace, initial, s)
    ensures Inv(grace, initial, Run(grace, s, actions))
    decreases |actions|
  {
    hide Inv, Step;
    if actions == [] {
    } else {
      StepKeeps(grace, initial, s, actions[0]);
      RunKeeps(grace, initial, Step(grace, s, actions[0]), actions[1..]);
    }
  }

  /**
   Whatever the entry was and however the workers interleave, runs that may
   send lie at least the grace period apart, so `span` blocks have at most
   ceil(span / grace) of them.
   */
  lemma SendsAreApart(grace: nat, initial: Option<Bytes>, actions: seq<Action>, from: nat, span: nat)
    ensures var s := Run(grace, State(initial, map[], []), actions);
            && Spaced(s.sends, grace)
            && (s.sends != [] && LastSend(initial).Some? ==> LastSend(initial).value + grace <= s.sends[0])
            && (grace > 0 ==> |Positions(s.sends, from, span)| <= CeilDiv(span, grace))
  {
    RunKeeps(grace, initial, State(initial, map[], []), actions);
    if grace > 0 {
      SpanHoldsAtMost(Run(grace, State(initial, map[], []), actions).sends, grace, from, span);
    }
  }

  // ---------- When a run may send ----------

  /** The entry is missing, too short to name a block, or names one at least a grace period before this one. */
  predicate Free(entry: Option<Bytes>, block: U32, grace: nat) {
    entry.None? || |entry.value| < 4 || LittleEndian(entry.value[..4]) + grace <= block
  }

  /** The entry names this block. */
  predicate Names(entry: Option<Bytes>, block: U32) {
    entry.Some? && |entry.value| == 4 && LittleEndian(entry.value) == block
  }

  lemma RecentIsNotFree(entry: Option<Bytes>, block: U32, grace: nat)
    ensures RecentlySent(entry, block, grace) <==> !Free(entry, block, grace)
  {
    if entry.Some? && |entry.value| >= 4 {
      DecodedValue(entry.value[..4]);
    }
    hide LittleEndian, DecodeU32;
  }

  /** Which transaction a run that may send makes: one of three, by its block. */
  predicate IsChoice(choice: Choice, block: U32) {
    && (choice == Signed <==> block % 3 == 0) && (choice == UnsignedForAny <==> block % 3 == 1)
    && (choice == UnsignedForAll <==> block % 3 == 2)
  }

  /**
   In every reachable state a worker goes on exactly when the entry it read is
   free for its block. It then may send exactly when that entry is still there:
   its block is added to the sends, the entry names it, and it makes the
   transaction of its block. Otherwise it sends nothing and the entry stays.
   */
  lemma MaySendIff(grace: nat, initial: Option<Bytes>, actions: seq<Action>, w: nat)
    ensures var s := Run(grace, State(initial, map[], []), actions);
            w in s.workers ==>
              var k := s.workers[w];
              && (k.HasRead? ==>
                    Step(grace, s, Action(w, Decide))
                    == s.(workers := s.workers[w := if Free(k.seen, k.block, grace) then Deciding(k.block, k.seen)
                                                    else Chosen(NoSend)]))
              && (k.Deciding? ==>
                    var s' := Step(grace, s, Action(w, Swap));
                    && Free(k.seen, k.block, grace)
                    && w in s'.workers && s'.workers[w].Chosen? && s'.workers == s.workers[w := s'.workers[w]]
                    && (s.entry == k.seen ==>
                          && s'.sends == s.sends + [k.block] && Names(s'.entry, k.block)
                          && IsChoice(s'.workers[w].choice, k.block))
                    && (s.entry != k.seen ==>
                          s'.sends == s.sends && s'.entry == s.entry && s'.workers[w].choice == NoSend))
  {
    RunKeeps(grace, initial, State(initial, map[], []), actions);
    var s := Run(grace, State(initial, map[], []), actions);
    if w in s.workers && (s.workers[w].HasRead? || s.workers[w].Deciding?) {
      assert WorkerOk(grace, s.workers[w]);
      RecentIsNotFree(s.workers[w].seen, s.workers[w].block, grace);
      U32Value(s.workers[w].block);
      hide Run, Inv, LittleEndian, EncodeU32, RecentlySent, Free;
    }
  }

  /** A worker that runs alone sends exactly when the entry is free for its block. */
  lemma LoneWorkerSendsIff(grace: nat, initial: Option<Bytes>, w: nat, block: U32)
    ensures var s := Run(grace, State(initial, map[], []),
                         [Action(w, Start(block)), Action(w, Read), Action(w, Decide), Action(w, Swap)]);
            s.sends == if Free(initial, block, grace) then [block] else []
  {
    RecentIsNotFree(initial, block, grace);
    hide RecentlySent, Free, EncodeU32;
    var s0 := State(initial, map[], []);
    var s1 := Step(grace, s0, Action(w, Start(block)));
    var s2 := Step(grace, s1, Action(w, Read));
    var s3 := Step(grace, s2, Action(w, Decide));
    FourSteps(grace, s0, Action(w, Start(block)), Action(w, Read), Action(w, Decide), Action(w, Swap));
    assert s2.workers[w] == HasRead(block, initial) && s2.entry == initial;
    assert s3.workers[w] == if Free(initial, block, grace) then Deciding(block, initial) else Chosen(NoSend);
  }

  lemma FourSteps(grace: nat, s: State, a: Action, b: Action, c: Action, d: Action)
    ensures Run(grace, s, [a, b, c, d])
            == Step(grace, Step(grace, Step(grace, Step(grace, s, a), b), c), d)
  {
    hide Step;
    var s1 := Step(grace, s, a);
    var s2 := Step(grace, s1, b);
    var s3 := Step(grace, s2, c);
    assert [a, b, c, d][1..] == [b, c, d] && [b, c, d][1..] == [c, d] && [c, d][1..] == [d] && [d][1..] == [];
    assert Run(grace, s, [a, b, c, d]) == Run(grace, s1, [b, c, d]) == Run(grace, s2, [c, d]);
    assert Run(grace, s2, [c, d]) == Run(grace, s3, [d]) == Run(grace, Step(grace, s3, d), []);
  }
}
