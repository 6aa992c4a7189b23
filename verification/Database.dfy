/**
 * The tables both executors share, as one object. Every transaction on it is a step of the ledger, and
 * deposits, burns, ingestion and operators may act between any two of them.
 */
module Database {
  import opened Coins
  import opened Ledger
  import opened LedgerCoins
  import opened LedgerInvariant
  import opened LedgerMoney
  import opened LedgerRuns
  import opened PoolSelection
  import opened Sums

  /** What others leave alone between two transactions of an executor. */
  ghost predicate Undisturbed(s: State, s': State) {
    && s.coins <= s'.coins && s'.mem == s.mem
    && |s.withdrawals| <= |s'.withdrawals| && |s.refunds| <= |s'.refunds|
    && (forall i :: 0 <= i < |s.withdrawals| ==> OnlyRequeued(s.withdrawals[i], s'.withdrawals[i]))
    && (forall r :: 0 <= r < |s.refunds| ==> OnlyReset(s.refunds[r], s'.refunds[r]))
    && (forall k :: |s.coins| <= k < |s'.coins| ==> s'.coins[k].changeIndex.None? && s'.coins[k].owner.NoOwner?)
    && (forall a :: IndexAt(s'.withdrawals, s'.refunds, a) == IndexAt(s.withdrawals, s.refunds, a))
  }

  /** A burn gets confirmed and queued, and a human may queue a parked order again. */
  predicate MovesOn(before: OutboundState, after: OutboundState) {
    || (before.Burned? && (after.BurnConfirmed? || after.Queued?))
    || ((before.BurnConfirmed? || before.ManualReview?) && after.Queued?)
  }

  /** As it was, but perhaps queued meanwhile. */
  predicate OnlyRequeued(w: Withdrawal, w': Withdrawal) {
    && w' == w.(state := w'.state)
    && (w'.state == w.state || MovesOn(w.state, w'.state))
  }

  /** As it was, but perhaps handed back by a human. */
  predicate OnlyReset(row: Refund, row': Refund) {
    || row' == row
    || (row.status.NeedsAttention? && row.signed.Some? && row' == row.(status := RefundSigned))
    || (row.status.NeedsAttention? && row.signed.None? && row'.address.Some? && row' == row.(status := RefundQueued, address := row'.address))
  }

  lemma OutsideUndisturbed(rate: nat, s: State, a: Action)
    requires IsOutside(a) && OutsideEnabled(s, a)
    ensures Undisturbed(s, OutsideNext(rate, s, a))
  {
  }

  lemma StillNext(s: State, s': State, n: nat)
    requires Undisturbed(s, s') && IsNextChangeIndex(s, n)
    ensures IsNextChangeIndex(s', n)
  {
    if n > 0 {
      if a :| IndexAt(s.withdrawals, s.refunds, a) == Some(n - 1) {
        assert IndexAt(s'.withdrawals, s'.refunds, a) == Some(n - 1);
      } else {
        var k :| 0 <= k < |s.coins| && s.coins[k].changeIndex == Some(n - 1);
        assert s'.coins[k] == s.coins[k];
      }
    }
  }

  class Database {
    const rate: nat

    var coins: seq<Coin>
    var withdrawals: seq<Withdrawal>
    var deposits: seq<Deposit>
    var refunds: seq<Refund>
    var supplySat: nat
    var mem: Option<InFlight>

    ghost var start: State
    ghost var trace: seq<Action>

    function Now(): State
      reads this
    {
      State(coins, withdrawals, deposits, refunds, supplySat, mem)
    }

    ghost predicate Valid()
      reads this
    {
      Initial(start) && IsRun(rate, start, trace, Now())
    }

    /** One step of the ledger, and nothing else. */
    twostate predicate Did(a: Action)
      reads this
    {
      Enabled(old(Now()), a) && Now() == Next(rate, old(Now()), a) && trace == old(trace) + [a] && Valid()
    }

    /** Every order is as it was, but perhaps queued meanwhile. */
    twostate predicate Requeued()
      reads this`withdrawals
    {
      && |old(withdrawals)| <= |withdrawals|
      && forall i :: 0 <= i < |old(withdrawals)| ==> OnlyRequeued(old(withdrawals)[i], withdrawals[i])
    }

    /** An order at PAYOUT_CONFIRMED is where it was. */
    twostate predicate ConfirmedStay()
      reads this`withdrawals
    {
      && |old(withdrawals)| <= |withdrawals|
      && forall i :: 0 <= i < |old(withdrawals)| && old(withdrawals)[i].state.Confirmed? ==> withdrawals[i] == old(withdrawals)[i]
    }

    /** Some steps of the ledger. */
    twostate predicate Ran()
      reads this
    {
      old(trace) <= trace && Valid()
    }

    constructor (rate: nat)
      ensures Valid() && this.rate == rate && Initial(Now()) && trace == []
    {
      this.rate := rate;
      coins, withdrawals, deposits, refunds, supplySat, mem := [], [], [], [], 0, None;
      start, trace := State([], [], [], [], 0, None), [];
    }

    lemma Invariants()
      requires Valid()
      ensures Inv(Now()) && Reachable(rate, Now())
    {
      InitialInv(start);
      RunKeeps(rate, start, trace, Now());
    }

    lemma IsReachable()
      requires Valid()
      ensures Reachable(rate, Now())
    {
    }

    lemma Unowned()
      requires Valid()
      ensures FreeMeansUnowned(coins)
    {
      Invariants();
      CoinsFree(Now());
    }

    lemma Distinct()
      requires Valid()
      ensures DistinctCoins(coins)
    {
      Invariants();
    }

    ghost method Log(a: Action, before: State)
      requires Initial(start) && IsRun(rate, start, trace, before)
      requires Enabled(before, a) && Now() == Next(rate, before, a)
      modifies this`trace
      ensures trace == old(trace) + [a] && Valid()
    {
      RunExtend(rate, start, trace, before, a);
      trace := trace + [a];
    }

    method OutsideStep(a: Action)
      requires Valid() && IsOutside(a) && OutsideEnabled(Now(), a)
      modifies this
      ensures Ran() && Undisturbed(old(Now()), Now()) && Requeued()
    {
      OutsideUndisturbed(rate, Now(), a);
      ghost var before := Now();
      var s := OutsideNext(rate, Now(), a);
      coins, withdrawals, deposits, refunds, supplySat := s.coins, s.withdrawals, s.deposits, s.refunds, s.supplySat;
      Log(a, before);
    }

    /** Any number of deposits, mints, burns, ingestions and operator steps. */
    method TimePasses()
      requires Valid()
      modifies this
      ensures Ran() && Undisturbed(old(Now()), Now()) && Requeued()
    {
      var steps :| 0 <= steps;
      for i := 0 to steps
        invariant Ran() && Undisturbed(old(Now()), Now())
      {
        var a: Action := *;
        if IsOutside(a) && OutsideEnabled(Now(), a) { OutsideStep(a); }
      }
    }

    /** The highest change index in any of the three tables, plus one. */
    method NextChangeIndex() returns (next: nat)
      ensures IsNextChangeIndex(Now(), next)
    {
      var max := -1;
      for k := 0 to |coins|
        invariant max >= -1
        invariant forall j :: 0 <= j < k && coins[j].changeIndex.Some? ==> coins[j].changeIndex.value <= max
        invariant max >= 0 ==> exists j :: 0 <= j < |coins| && coins[j].changeIndex == Some(max)
      {
        if coins[k].changeIndex.Some? && coins[k].changeIndex.value > max { max := coins[k].changeIndex.value; }
      }
      for r := 0 to |refunds|
        invariant max >= -1 && MaxFound(Now(), max)
        invariant forall j :: 0 <= j < |coins| && coins[j].changeIndex.Some? ==> coins[j].changeIndex.value <= max
        invariant forall q :: 0 <= q < r ==> IndexAtMost(Now(), InRefund(q), max)
      {
        max := Higher(InRefund(r), max);
      }
      for i := 0 to |withdrawals|
        invariant max >= -1 && MaxFound(Now(), max)
        invariant forall j :: 0 <= j < |coins| && coins[j].changeIndex.Some? ==> coins[j].changeIndex.value <= max
        invariant forall q :: 0 <= q < |refunds| ==> IndexAtMost(Now(), InRefund(q), max)
        invariant forall j, p: nat :: 0 <= j < i ==> IndexAtMost(Now(), InLog(j, p), max)
      {
        for p := 0 to |withdrawals[i].log|
          invariant max >= -1 && MaxFound(Now(), max)
          invariant forall j :: 0 <= j < |coins| && coins[j].changeIndex.Some? ==> coins[j].changeIndex.value <= max
          invariant forall q :: 0 <= q < |refunds| ==> IndexAtMost(Now(), InRefund(q), max)
          invariant forall j, p: nat :: 0 <= j < i ==> IndexAtMost(Now(), InLog(j, p), max)
          invariant forall q :: 0 <= q < p ==> IndexAtMost(Now(), InLog(i, q), max)
        {
          max := Higher(InLog(i, p), max);
        }
      }
      next := max + 1;
      forall a | IndexAt(withdrawals, refunds, a).Some? ensures IndexAt(withdrawals, refunds, a).value < next {
        assert IndexAtMost(Now(), a, max);
      }
    }

    function Higher(a: Site, max: int): (m: int)
      reads this
      ensures m >= max && IndexAtMost(Now(), a, m)
      ensures max >= -1 && MaxFound(Now(), max) ==> MaxFound(Now(), m)
    {
      var index := IndexAt(withdrawals, refunds, a);
      if index.Some? && index.value > max then index.value else max
    }

    /** UPDATE ... WHERE outpoint = o AND status = 'available': how many rows it touched. */
    method ReserveOne(o: Outpoint, who: Owner) returns (got: nat)
      requires DistinctCoins(coins)
      modifies this`coins
      ensures coins == Reserve(old(coins), {o} * AvailableOutpoints(old(coins)), who)
      ensures got == 1 <==> o in AvailableOutpoints(old(coins))
    {
      got := 0;
      var rows := coins;
      for k := 0 to |rows|
        invariant |coins| == |rows| && rows == old(coins)
        invariant forall j :: k <= j < |rows| ==> coins[j] == rows[j]
        invariant forall j :: 0 <= j < k ==>
          coins[j] == if rows[j].outpoint == o && rows[j].status.Available? then rows[j].(status := Reserved, owner := who) else rows[j]
        invariant got == 0 || got == 1
        invariant got == 1 <==> exists j :: 0 <= j < k && rows[j].outpoint == o && rows[j].status.Available?
      {
        if rows[k].outpoint == o && rows[k].status.Available? {
          coins := coins[k := rows[k].(status := Reserved, owner := who)];
          got := got + 1;
        }
      }
      assert coins == Reserve(rows, {o} * AvailableOutpoints(rows), who);
    }

    /** Reserve every input, or, when someone took one meanwhile, roll back to the pool as it was. */
    method ReserveInputs(inputs: seq<Outpoint>, who: Owner) returns (ok: bool)
      requires DistinctCoins(coins)
      modifies this`coins
      ensures ok <==> NoRepeat(inputs) && forall o :: o in inputs ==> o in AvailableOutpoints(old(coins))
      ensures coins == if ok then Reserve(old(coins), AsSet(inputs), who) else old(coins)
    {
      ghost var before := coins;
      var saved := coins;
      for k := 0 to |inputs|
        invariant coins == Reserve(before, AsSet(inputs[..k]), who)
        invariant NoRepeat(inputs[..k]) && forall o :: o in inputs[..k] ==> o in AvailableOutpoints(before)
      {
        ReservedLeaves(before, AsSet(inputs[..k]), who);
        var got := ReserveOne(inputs[k], who);
        if got != 1 {
          RaceLost(before, inputs, k);
          coins := saved;
          return false;
        }
        ReserveTwice(before, AsSet(inputs[..k]), inputs[k], who);
        assert AsSet(inputs[..k + 1]) == AsSet(inputs[..k]) + {inputs[k]};
      }
      assert inputs[..|inputs|] == inputs;
      ok := true;
    }
  }

  predicate IndexAtMost(s: State, a: Site, max: int) {
    var index := IndexAt(s.withdrawals, s.refunds, a);
    index.Some? ==> index.value <= max
  }

  ghost predicate MaxFound(s: State, max: int) {
    max >= 0 ==>
      || (exists a :: IndexAt(s.withdrawals, s.refunds, a) == Some(max))
      || (exists k :: 0 <= k < |s.coins| && s.coins[k].changeIndex == Some(max))
  }

  lemma ReservedLeaves(coins: seq<Coin>, picks: set<Outpoint>, who: Owner)
    requires DistinctCoins(coins)
    ensures DistinctCoins(Reserve(coins, picks, who))
    ensures AvailableOutpoints(Reserve(coins, picks, who)) == AvailableOutpoints(coins) - picks
  {
    var coins' := Reserve(coins, picks, who);
    forall o | o in AvailableOutpoints(coins) - picks ensures o in AvailableOutpoints(coins') {
      var k :| 0 <= k < |coins| && coins[k].status.Available? && coins[k].outpoint == o;
      assert coins'[k] == coins[k];
    }
  }

  lemma ReserveTwice(coins: seq<Coin>, picks: set<Outpoint>, o: Outpoint, who: Owner)
    requires DistinctCoins(coins) && o in AvailableOutpoints(coins) - picks
    ensures Reserve(Reserve(coins, picks, who), {o} * AvailableOutpoints(Reserve(coins, picks, who)), who) == Reserve(coins, picks + {o}, who)
  {
    ReservedLeaves(coins, picks, who);
  }

  lemma RaceLost(coins: seq<Coin>, inputs: seq<Outpoint>, k: nat)
    requires k < |inputs| && inputs[k] !in AvailableOutpoints(coins) - AsSet(inputs[..k])
    ensures !(NoRepeat(inputs) && forall o :: o in inputs ==> o in AvailableOutpoints(coins))
  {
    if inputs[k] in inputs[..k] {
      var j :| 0 <= j < k && inputs[..k][j] == inputs[k];
    }
  }
}
