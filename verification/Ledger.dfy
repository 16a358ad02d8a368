/**
 The staking side of the price-oracle pallet: reserving, unreserving and
 slashing into the treasury. Accounts are numbered. The balances pallet appears
 by what its operations promise; dust is left out.
 */
module Ledger {
  import opened Bytes

  datatype Account = Account(free: nat, reserved: nat)

  datatype Stake = Stake(totalStake: nat, creditScore: nat)

  datatype Ledger = Ledger(accounts: seq<Account>, stakes: map<nat, Stake>, burned: nat)

  datatype Error = InsufficientFund | AlreadyStaked | NonExisted

  datatype Outcome = Done | Rejected(error: Error)

  datatype Params = Params(treasury: nat, minimumBalance: nat, minStakeAmount: nat)

  // ---------- What the balances pallet promises ----------

  function Total(a: seq<Account>): nat {
    if a == [] then 0 else Total(a[..|a| - 1]) + a[|a| - 1].free + a[|a| - 1].reserved
  }

  /** Moves free balance to the reserve; `allowed` stands for locks and other reasons to refuse. */
  function Reserve(a: Account, amount: nat, allowed: bool): Account {
    if allowed && amount <= a.free then Account(a.free - amount, a.reserved + amount) else a
  }

  predicate Reserves(a: Account, amount: nat, allowed: bool) { allowed && amount <= a.free }

  function Unreserve(a: Account, amount: nat): Account {
    var moved := Least(amount, a.reserved);
    Account(a.free + moved, a.reserved - moved)
  }

  /** Takes up to `amount` out of the reserve; what is taken is in no account until it is resolved. */
  function SlashReserved(a: Account, amount: nat): (Account, nat) {
    var taken := Least(amount, a.reserved);
    (a.(reserved := a.reserved - taken), taken)
  }

  /**
   Pays into an account; one without funds that would stay below the minimum
   is not opened and the value is burned.
   */
  function Resolve(p: Params, l: Ledger, who: nat, value: nat): Ledger
    requires who < |l.accounts|
  {
    var a := l.accounts[who];
    if a.free + a.reserved == 0 && value < p.minimumBalance then l.(burned := l.burned + value)
    else l.(accounts := l.accounts[who := a.(free := a.free + value)])
  }

  // ---------- Genesis and calls ----------

  /** The top-up of the treasury at genesis. */
  function Build(p: Params, accounts: seq<Account>): Ledger
    requires p.treasury < |accounts|
  {
    var t := accounts[p.treasury];
    var topped := if t.free < p.minimumBalance then accounts[p.treasury := t.(free := p.minimumBalance)] else accounts;
    Ledger(topped, map[], 0)
  }

  datatype Call = StakeCall(amount: nat, allowed: bool) | UnStake | Slash(target: nat, amount: nat)

  function ApplyStake(p: Params, l: Ledger, who: nat, amount: nat, allowed: bool): (Ledger, Outcome)
    requires who < |l.accounts|
  {
    if who in l.stakes then (l, Rejected(AlreadyStaked))
    else if !(amount < p.minStakeAmount) then (l, Rejected(InsufficientFund))
    else if Reserves(l.accounts[who], amount, allowed) then
      (l.(accounts := l.accounts[who := Reserve(l.accounts[who], amount, allowed)],
          stakes := l.stakes[who := Stake(amount, 80)]), Done)
    else (l, Done)
  }

  function ApplyUnStake(l: Ledger, who: nat): (Ledger, Outcome)
    requires who < |l.accounts|
  {
    if who !in l.stakes then (l, Rejected(NonExisted))
    else
      var a := l.accounts[who];
      (l.(accounts := l.accounts[who := Unreserve(a, a.reserved)], stakes := l.stakes - {who}), Done)
  }

  /** The guards look at the caller, not at the target. */
  function ApplySlash(p: Params, l: Ledger, who: nat, target: nat, amount: nat): (Ledger, Outcome)
    requires who < |l.accounts| && target < |l.accounts| && p.treasury < |l.accounts|
  {
    if !(l.accounts[who].reserved < amount) then (l, Rejected(InsufficientFund))
    else if who in l.stakes then (l, Rejected(NonExisted))
    else
      var (slashed, taken) := SlashReserved(l.accounts[target], amount);
      (Resolve(p, l.(accounts := l.accounts[target := slashed]), p.treasury, taken), Done)
  }

  predicate Callable(l: Ledger, who: nat, call: Call) {
    who < |l.accounts| && (call.Slash? ==> call.target < |l.accounts|)
  }

  function Apply(p: Params, l: Ledger, who: nat, call: Call): (Ledger, Outcome)
    requires Callable(l, who, call) && p.treasury < |l.accounts|
  {
    match call
    case StakeCall(amount, allowed) => ApplyStake(p, l, who, amount, allowed)
    case UnStake => ApplyUnStake(l, who)
    case Slash(target, amount) => ApplySlash(p, l, who, target, amount)
  }

  // ---------- Conservation ----------

  lemma {:induction false} TotalUpdate(a: seq<Account>, i: nat, b: Account)
    requires i < |a|
    ensures Total(a[i := b]) + a[i].free + a[i].reserved == Total(a) + b.free + b.reserved
    decreases |a|
  {
    var n := |a| - 1;
    if i < n {
      TotalUpdate(a[..n], i, b);
      assert a[i := b][..n] == a[..n][i := b];
    } else {
      assert a[i := b][..n] == a[..n];
    }
  }

  /** No keyholder controls the treasury: it signs no call, so it has no reserve to lose. */
  ghost predicate Funded(p: Params, l: Ledger) {
    && p.treasury < |l.accounts|
    && p.minimumBalance <= l.accounts[p.treasury].free
    && l.accounts[p.treasury].reserved == 0
    && l.burned == 0
  }

  /** How much a call takes from its target. */
  function Taken(p: Params, l: Ledger, who: nat, call: Call): nat
    requires Callable(l, who, call) && p.treasury < |l.accounts|
  {
    if call.Slash? && Apply(p, l, who, call).1.Done? then Least(call.amount, l.accounts[call.target].reserved) else 0
  }

  lemma BuildFunds(p: Params, accounts: seq<Account>)
    requires p.treasury < |accounts| && accounts[p.treasury].reserved == 0
    ensures Funded(p, Build(p, accounts))
  {
  }

  lemma SlashConserves(p: Params, l: Ledger, who: nat, target: nat, amount: nat)
    requires Funded(p, l) && who < |l.accounts| && target < |l.accounts|
    requires ApplySlash(p, l, who, target, amount).1.Done?
    ensures var l' := ApplySlash(p, l, who, target, amount).0;
            var taken := Least(amount, l.accounts[target].reserved);
            && Funded(p, l') && |l'.accounts| == |l.accounts|
            && Total(l'.accounts) == Total(l.accounts)
            && l'.accounts[p.treasury].free == l.accounts[p.treasury].free + taken
            && (taken > 0 ==> target != p.treasury
                              && l'.accounts[target].reserved + taken == l.accounts[target].reserved)
  {
    var (slashed, taken) := SlashReserved(l.accounts[target], amount);
    TotalUpdate(l.accounts, target, slashed);
    var after := l.accounts[target := slashed];
    var t := after[p.treasury];
    TotalUpdate(after, p.treasury, t.(free := t.free + taken));
    hide Total;
    if t.free + t.reserved == 0 {
      assert taken == 0 ==> after[p.treasury := t.(free := t.free + taken)] == after;
    }
  }

  /** One call moves no value in or out; the treasury gains what the target's reserve loses. */
  lemma CallConserves(p: Params, l: Ledger, who: nat, call: Call)
    requires Funded(p, l) && Callable(l, who, call) && who != p.treasury
    ensures var l' := Apply(p, l, who, call).0;
            && Funded(p, l') && |l'.accounts| == |l.accounts|
            && Total(l'.accounts) == Total(l.accounts)
            && l'.accounts[p.treasury].free == l.accounts[p.treasury].free + Taken(p, l, who, call)
            && (call.Slash? && Taken(p, l, who, call) > 0 ==>
                  call.target != p.treasury
                  && l'.accounts[call.target].reserved + Taken(p, l, who, call) == l.accounts[call.target].reserved)
  {
    hide Total;
    match call
    case StakeCall(amount, allowed) =>
      TotalUpdate(l.accounts, who, Reserve(l.accounts[who], amount, allowed));
    case UnStake =>
      TotalUpdate(l.accounts, who, Unreserve(l.accounts[who], l.accounts[who].reserved));
    case Slash(target, amount) =>
      if ApplySlash(p, l, who, target, amount).1.Done? {
        SlashConserves(p, l, who, target, amount);
      }
  }

  datatype SignedCall = SignedCall(who: nat, call: Call)

  predicate FromKeyholders(p: Params, n: nat, calls: seq<SignedCall>) {
    forall k :: 0 <= k < |calls| ==>
      calls[k].who != p.treasury && calls[k].who < n && (calls[k].call.Slash? ==> calls[k].call.target < n)
  }

  function Run(p: Params, l: Ledger, calls: seq<SignedCall>): Ledger
    requires p.treasury < |l.accounts|
    decreases |calls|
  {
    if calls == [] then l
    else if !Callable(l, calls[0].who, calls[0].call) then Run(p, l, calls[1..])
    else
      SameAccounts(p, l, calls[0].who, calls[0].call);
      Run(p, Apply(p, l, calls[0].who, calls[0].call).0, calls[1..])
  }

  lemma SameAccounts(p: Params, l: Ledger, who: nat, call: Call)
    requires Callable(l, who, call) && p.treasury < |l.accounts|
    ensures |Apply(p, l, who, call).0.accounts| == |l.accounts|
  {
  }

  /** What the calls of a run take from their targets, all together. */
  function TakenInAll(p: Params, l: Ledger, calls: seq<SignedCall>): nat
    requires p.treasury < |l.accounts|
    decreases |calls|
  {
    if calls == [] then 0
    else if !Callable(l, calls[0].who, calls[0].call) then TakenInAll(p, l, calls[1..])
    else
      SameAccounts(p, l, calls[0].who, calls[0].call);
      Taken(p, l, calls[0].who, calls[0].call)
      + TakenInAll(p, Apply(p, l, calls[0].who, calls[0].call).0, calls[1..])
  }

  lemma {:induction false} RunConserves(p: Params, l: Ledger, calls: seq<SignedCall>)
    requires Funded(p, l) && FromKeyholders(p, |l.accounts|, calls)
    ensures var l' := Run(p, l, calls);
            && Funded(p, l') && Total(l'.accounts) == Total(l.accounts)
            && |l'.accounts| == |l.accounts|
            && l'.accounts[p.treasury].free == l.accounts[p.treasury].free + TakenInAll(p, l, calls)
    decreases |calls|
  {
    hide Total, Apply, Taken;
    if calls == [] {
    } else {
      CallConserves(p, l, calls[0].who, calls[0].call);
      RunConserves(p, Apply(p, l, calls[0].who, calls[0].call).0, calls[1..]);
    }
  }

  /**
   From genesis, over any calls that keyholders sign: free plus reserved stays
   what it was, nothing slashed is burned, and the treasury holds the minimum
   and has gained exactly what was taken from targets.
   */
  lemma GenesisRunConserves(p: Params, accounts: seq<Account>, calls: seq<SignedCall>)
    requires p.treasury < |accounts| && accounts[p.treasury].reserved == 0
    requires FromKeyholders(p, |accounts|, calls)
    ensures var start := Build(p, accounts);
            var end := Run(p, start, calls);
            && Total(end.accounts) == Total(start.accounts) && end.burned == 0
            && p.treasury < |end.accounts|
            && end.accounts[p.treasury].free == start.accounts[p.treasury].free + TakenInAll(p, start, calls)
            && p.minimumBalance <= end.accounts[p.treasury].free
  {
    BuildFunds(p, accounts);
    RunConserves(p, Build(p, accounts), calls);
  }

  // ---------- Without the top-up ----------

  lemma SlashBalances(p: Params, l: Ledger, who: nat, target: nat, amount: nat)
    requires who < |l.accounts| && target < |l.accounts| && p.treasury < |l.accounts|
    ensures var l' := ApplySlash(p, l, who, target, amount).0;
            Total(l'.accounts) + l'.burned == Total(l.accounts) + l.burned && l.burned <= l'.burned
  {
    var (slashed, taken) := SlashReserved(l.accounts[target], amount);
    TotalUpdate(l.accounts, target, slashed);
    hide Total;
    ResolveBalances(p, l.(accounts := l.accounts[target := slashed]), p.treasury, taken);
    hide Resolve;
  }

  lemma ResolveBalances(p: Params, l: Ledger, who: nat, value: nat)
    requires who < |l.accounts|
    ensures var l' := Resolve(p, l, who, value);
            Total(l'.accounts) + l'.burned == Total(l.accounts) + l.burned + value && l.burned <= l'.burned
  {
    var a := l.accounts[who];
    TotalUpdate(l.accounts, who, a.(free := a.free + value));
    hide Total;
  }

  lemma CallBalances(p: Params, l: Ledger, who: nat, call: Call)
    requires Callable(l, who, call) && p.treasury < |l.accounts|
    ensures var l' := Apply(p, l, who, call).0;
            Total(l'.accounts) + l'.burned == Total(l.accounts) + l.burned && l.burned <= l'.burned
  {
    hide Total;
    match call
    case StakeCall(amount, allowed) =>
      TotalUpdate(l.accounts, who, Reserve(l.accounts[who], amount, allowed));
    case UnStake =>
      TotalUpdate(l.accounts, who, Unreserve(l.accounts[who], l.accounts[who].reserved));
    case Slash(target, amount) => SlashBalances(p, l, who, target, amount);
  }

  /** From any ledger and whoever calls, value only ever leaves the accounts by being burned. */
  lemma {:induction false} RunBalances(p: Params, l: Ledger, calls: seq<SignedCall>)
    requires p.treasury < |l.accounts|
    ensures var l' := Run(p, l, calls);
            Total(l'.accounts) + l'.burned == Total(l.accounts) + l.burned && l.burned <= l'.burned
    decreases |calls|
  {
    hide Total, Apply;
    if calls == [] {
    } else if !Callable(l, calls[0].who, calls[0].call) {
      RunBalances(p, l, calls[1..]);
    } else {
      SameAccounts(p, l, calls[0].who, calls[0].call);
      CallBalances(p, l, calls[0].who, calls[0].call);
      RunBalances(p, Apply(p, l, calls[0].who, calls[0].call).0, calls[1..]);
    }
  }

  /** An empty treasury loses a slashed amount exactly when it is positive and below the minimum. */
  lemma UnfundedTreasuryBurns(p: Params, l: Ledger, who: nat, target: nat, amount: nat)
    requires Callable(l, who, Slash(target, amount)) && p.treasury < |l.accounts|
    requires target != p.treasury && ApplySlash(p, l, who, target, amount).1.Done?
    requires l.accounts[p.treasury] == Account(0, 0)
    ensures ApplySlash(p, l, who, target, amount).0.burned > l.burned
            <==> 0 < Least(amount, l.accounts[target].reserved) < p.minimumBalance
  {
  }

  /** One keyholder stakes and another slashes the stake. */
  function StakeAndSlash(target: nat, who: nat, amount: nat): seq<SignedCall> {
    [SignedCall(target, StakeCall(amount, true)), SignedCall(who, Slash(target, amount))]
  }

  /**
   Why the treasury is topped up at genesis: with an empty treasury the same two
   calls destroy a small stake without the top-up and keep it with the top-up.
   */
  lemma TopUpIsNeeded(p: Params, accounts: seq<Account>, target: nat, who: nat, amount: nat)
    requires p.treasury < |accounts| && target < |accounts| && who < |accounts|
    requires target != p.treasury && who != p.treasury && who != target
    requires accounts[p.treasury] == Account(0, 0)
    requires amount <= accounts[target].free && accounts[target].reserved == 0 && accounts[who].reserved == 0
    requires 0 < amount < p.minimumBalance && amount < p.minStakeAmount
    ensures var end := Run(p, Ledger(accounts, map[], 0), StakeAndSlash(target, who, amount));
            end.burned > 0 && Total(end.accounts) < Total(accounts)
    ensures var topped := Build(p, accounts);
            var end := Run(p, topped, StakeAndSlash(target, who, amount));
            end.burned == 0 && Total(end.accounts) == Total(topped.accounts)
  {
    var calls := StakeAndSlash(target, who, amount);
    var l := Ledger(accounts, map[], 0);
    var staked := ApplyStake(p, l, target, amount, true).0;
    UnfundedTreasuryBurns(p, staked, who, target, amount);
    TwoCalls(p, l, calls);
    RunBalances(p, l, calls);
    GenesisRunConserves(p, accounts, calls);
  }

  lemma TwoCalls(p: Params, l: Ledger, calls: seq<SignedCall>)
    requires p.treasury < |l.accounts| && |calls| == 2
    requires Callable(l, calls[0].who, calls[0].call) && Callable(l, calls[1].who, calls[1].call)
    ensures |Apply(p, l, calls[0].who, calls[0].call).0.accounts| == |l.accounts|
    ensures Run(p, l, calls)
            == Apply(p, Apply(p, l, calls[0].who, calls[0].call).0, calls[1].who, calls[1].call).0
  {
    SameAccounts(p, l, calls[0].who, calls[0].call);
    var l1 := Apply(p, l, calls[0].who, calls[0].call).0;
    hide Apply;
    assert calls[1..] == [calls[1]] && [calls[1]][1..] == [];
    SameAccounts(p, l1, calls[1].who, calls[1].call);
    assert Run(p, l, calls) == Run(p, l1, [calls[1]]);
    assert Run(p, l1, [calls[1]]) == Run(p, Apply(p, l1, calls[1].who, calls[1].call).0, []);
  }

  // ---------- What each call answers and moves ----------

  /** Only these accounts may differ. */
  predicate OnlyTouches(l: Ledger, after: Ledger, who: set<nat>) {
    && |after.accounts| == |l.accounts|
    && forall i :: 0 <= i < |l.accounts| && i !in who ==> after.accounts[i] == l.accounts[i]
  }

  /** A stake below the bound by someone without one succeeds, and moves the amount to the reserve if it can be. */
  lemma StakeOutcome(p: Params, l: Ledger, who: nat, amount: nat, allowed: bool)
    requires who < |l.accounts|
    ensures var (after, outcome) := ApplyStake(p, l, who, amount, allowed);
            var before, staked := l.accounts[who], who in l.stakes;
            && (outcome == Rejected(AlreadyStaked) <==> staked)
            && (outcome == Rejected(InsufficientFund) <==> !staked && p.minStakeAmount <= amount)
            && (outcome == Done <==> !staked && amount < p.minStakeAmount)
            && (outcome != Done || !allowed || before.free < amount ==> after == l)
            && (outcome == Done && allowed && amount <= before.free ==>
                  && OnlyTouches(l, after, {who}) && after.burned == l.burned
                  && after.accounts[who] == Account(before.free - amount, before.reserved + amount)
                  && after.stakes == l.stakes[who := Stake(amount, 80)])
  {
  }

  /** Unstaking succeeds for stakers alone, frees all that they have reserved and forgets the stake. */
  lemma UnStakeOutcome(l: Ledger, who: nat)
    requires who < |l.accounts|
    ensures var (after, outcome) := ApplyUnStake(l, who);
            var before := l.accounts[who];
            && (outcome == Rejected(NonExisted) <==> who !in l.stakes)
            && (outcome == Done <==> who in l.stakes)
            && (outcome != Done ==> after == l)
            && (outcome == Done ==>
                  && OnlyTouches(l, after, {who}) && after.burned == l.burned
                  && after.accounts[who] == Account(before.free + before.reserved, 0)
                  && after.stakes.Keys == l.stakes.Keys - {who}
                  && forall k :: k in after.stakes ==> after.stakes[k] == l.stakes[k])
  {
  }

  /**
   Slashing succeeds for a caller who reserves less than the amount and has no
   stake. It takes the amount, or all there is, from the target's reserve and
   pays it to the treasury, unless the treasury is empty and the payment is
   below the minimum; then it is burned.
   */
  lemma SlashOutcome(p: Params, l: Ledger, who: nat, target: nat, amount: nat)
    requires who < |l.accounts| && target < |l.accounts| && p.treasury < |l.accounts| && target != p.treasury
    ensures var (after, outcome) := ApplySlash(p, l, who, target, amount);
            var t, taken := l.accounts[p.treasury], Least(amount, l.accounts[target].reserved);
            var lost := t == Account(0, 0) && taken < p.minimumBalance;
            && (outcome == Rejected(InsufficientFund) <==> amount <= l.accounts[who].reserved)
            && (outcome == Rejected(NonExisted) <==> l.accounts[who].reserved < amount && who in l.stakes)
            && (outcome == Done <==> l.accounts[who].reserved < amount && who !in l.stakes)
            && (outcome != Done ==> after == l)
            && (outcome == Done ==>
                  && OnlyTouches(l, after, {target, p.treasury}) && after.stakes == l.stakes
                  && after.accounts[target].free == l.accounts[target].free
                  && after.accounts[target].reserved + taken == l.accounts[target].reserved
                  && after.accounts[p.treasury].reserved == t.reserved
                  && after.accounts[p.treasury].free == t.free + (if lost then 0 else taken)
                  && after.burned == l.burned + (if lost then taken else 0))
  {
  }

  /** Genesis touches the treasury alone, and raises it to the minimum if it holds less. */
  lemma BuildOutcome(p: Params, accounts: seq<Account>)
    requires p.treasury < |accounts|
    ensures var l, t := Build(p, accounts), accounts[p.treasury];
            && OnlyTouches(Ledger(accounts, map[], 0), l, {p.treasury})
            && l.accounts[p.treasury].reserved == t.reserved && l.stakes == map[] && l.burned == 0
            && t.free <= l.accounts[p.treasury].free && p.minimumBalance <= l.accounts[p.treasury].free
            && (l.accounts[p.treasury].free == t.free || l.accounts[p.treasury].free == p.minimumBalance)
  {
  }

  // ---------- The pallet ----------

  class Pallet {
    const params: Params
    var accounts: seq<Account>
    var stakes: map<nat, Stake>
    var burned: nat

    ghost function View(): Ledger
      reads this
    {
      Ledger(accounts, stakes, burned)
    }

    ghost predicate Valid()
      reads this
    {
      Funded(params, View())
    }

    constructor (params: Params, endowed: seq<Account>)
      requires params.treasury < |endowed| && endowed[params.treasury].reserved == 0
      ensures Valid() && this.params == params && View() == Build(params, endowed)
    {
      this.params := params;
      accounts, stakes, burned := endowed, map[], 0;
      new;
      if accounts[params.treasury].free < params.minimumBalance {
        accounts := accounts[params.treasury := accounts[params.treasury].(free := params.minimumBalance)];
      }
      BuildFunds(params, endowed);
    }

    /** A reserve that is refused is logged and the call still succeeds. */
    method StakeAmount(who: nat, amount: nat, allowed: bool) returns (outcome: Outcome)
      requires Valid() && who < |accounts| && who != params.treasury
      modifies this
      ensures Valid() && (View(), outcome) == ApplyStake(params, old(View()), who, amount, allowed)
      ensures Total(accounts) == Total(old(accounts))
    {
      CallConserves(params, View(), who, StakeCall(amount, allowed));
      if who in stakes {
        return Rejected(AlreadyStaked);
      }
      if !(amount < params.minStakeAmount) {
        return Rejected(InsufficientFund);
      }
      if Reserves(accounts[who], amount, allowed) {
        accounts := accounts[who := Reserve(accounts[who], amount, allowed)];
        stakes := stakes[who := Stake(amount, 80)];
      }
      outcome := Done;
    }

    method Withdraw(who: nat) returns (outcome: Outcome)
      requires Valid() && who < |accounts| && who != params.treasury
      modifies this
      ensures Valid() && (View(), outcome) == ApplyUnStake(old(View()), who)
      ensures Total(accounts) == Total(old(accounts))
      ensures outcome.Done? ==> accounts[who].reserved == 0 && who !in stakes
    {
      CallConserves(params, View(), who, UnStake);
      if who !in stakes {
        return Rejected(NonExisted);
      }
      var reserved := accounts[who].reserved;
      accounts := accounts[who := Unreserve(accounts[who], reserved)];
      stakes := stakes - {who};
      outcome := Done;
    }

    method SlashTarget(who: nat, target: nat, amount: nat) returns (outcome: Outcome)
      requires Valid() && who < |accounts| && who != params.treasury && target < |accounts|
      modifies this
      ensures Valid() && (View(), outcome) == ApplySlash(params, old(View()), who, target, amount)
      ensures Total(accounts) == Total(old(accounts))
      ensures outcome.Done? ==>
                accounts[params.treasury].free
                == old(accounts[params.treasury].free) + Least(amount, old(accounts[target].reserved))
    {
      CallConserves(params, View(), who, Slash(target, amount));
      if !(accounts[who].reserved < amount) {
        return Rejected(InsufficientFund);
      }
      if who in stakes {
        return Rejected(NonExisted);
      }
      var (slashed, taken) := SlashReserved(accounts[target], amount);
      accounts := accounts[target := slashed];
      ResolveCreating(params.treasury, taken);
      outcome := Done;
    }

    /** The balances pallet's payment into an account that may have to be opened. */
    method ResolveCreating(who: nat, value: nat)
      requires who < |accounts|
      modifies this`accounts, this`burned
      ensures View() == Resolve(params, old(View()), who, value)
    {
      var account := accounts[who];
      if account.free + account.reserved == 0 && value < params.minimumBalance {
        burned := burned + value;
      } else {
        accounts := accounts[who := account.(free := account.free + value)];
      }
    }
  }
}
