/** What holds on every run of the ledger, whatever the interleaving, the node's answers and the crashes. */
module LedgerRuns {
  import opened Coins
  import opened Ledger
  import opened LedgerCoins
  import opened LedgerInvariant
  import opened LedgerMoney
  import opened LedgerSteps
  import opened Sums

  lemma RefundStepKeeps(rate: nat, s: State, a: Action)
    requires Inv(s) && Enabled(s, a)
    requires a.ResolveSender? || a.ParkRefund? || a.ParkSignedRefund? || a.ConfirmRefund?
    ensures Inv(Next(rate, s, a))
  {
    assert RefundOk(s.refunds[a.refund], Owned(s.coins, ByRefund(a.refund)), OwnedSat(s.coins, ByRefund(a.refund)));
    RefundEditKeeps(s, a.refund, Next(rate, s, a).refunds[a.refund]);
  }

  lemma OutsideStepKeeps(rate: nat, s: State, a: Action)
    requires Inv(s) && Arrivals(s) && IsOutside(a) && OutsideEnabled(s, a)
    ensures Inv(OutsideNext(rate, s, a))
  {
    match a
    case DepositDecided(o, d, m) => DepositKeeps(rate, s, o, d, m);
    case MintExecuted(d) => MintKeeps(rate, s, d);
    case Burn(amount, payee) => BurnKeeps(rate, s, amount, payee);
    case ConfirmBurn(i) => StateKeeps(s, i, BurnConfirmed);
    case QueueBurn(i) => StateKeeps(s, i, Queued);
    case Requeue(i) => StateKeeps(s, i, Queued);
    case OperatorRefund(r, _) =>
      assert RefundOk(s.refunds[r], Owned(s.coins, ByRefund(r)), OwnedSat(s.coins, ByRefund(r)));
      RefundEditKeeps(s, r, OutsideNext(rate, s, a).refunds[r]);
  }

  lemma OrderStepKeeps(rate: nat, s: State, a: Action)
    requires Inv(s) && Enabled(s, a)
    requires a.ParkQueued? || a.RetrySameTx? || a.Resend? || a.ParkBroadcast? || a.Confirm? || a.Complete?
    ensures Inv(Next(rate, s, a))
  {
    match a
    case ParkQueued(i) => StateKeeps(s, i, ManualReview);
    case RetrySameTx(i) => RetryKeeps(s, i);
    case Resend(i) => ResendKeeps(s, i);
    case ParkBroadcast(i) => StateKeeps(s, i, ManualReview);
    case Confirm(i) => StateKeeps(s, i, Confirmed);
    case Complete(i) => StateKeeps(s, i, Completed);
  }

  lemma SendStepKeeps(rate: nat, s: State, a: Action)
    requires Inv(s) && Enabled(s, a)
    requires a.RecordAttempt? || a.Answered? || a.RecordRefusal? || a.ParkHeld? || a.Forget?
    ensures Inv(Next(rate, s, a))
  {
    match a
    case RecordAttempt(i) => AttemptKeeps(s, i);
    case Answered(outcome) => AnswerKeeps(s, outcome);
    case RecordRefusal(written) => if written { RefusalWrittenKeeps(s); } else { RefusalLostKeeps(s); }
    case ParkHeld => ParkHeldKeeps(s);
    case Forget(sent) => ForgetKeeps(s, sent);
  }

  lemma StepKeeps(rate: nat, s: State, a: Action)
    requires Inv(s) && Arrivals(s) && Enabled(s, a)
    ensures Inv(Next(rate, s, a)) && Arrivals(Next(rate, s, a))
  {
    ArrivalsStep(rate, s, a);
    if a.SignPayout? {
      SignPayoutKeeps(s, a.order, a.tx, a.feeSat);
    } else if a.SignRefund? {
      SignRefundKeeps(s, a.refund, a.tx, a.feeSat, a.bridgeFeeSat);
    } else if a.ParkAndRelease? {
      ReleaseKeeps(s);
    } else if a.CommitBroadcast? {
      CommitKeeps(s);
    } else if a.CommitRefund? {
      CommitRefundKeeps(s, a.refund);
    } else if a.ResolveSender? || a.ParkRefund? || a.ParkSignedRefund? || a.ConfirmRefund? {
      RefundStepKeeps(rate, s, a);
    } else if a.RecordAttempt? || a.Answered? || a.RecordRefusal? || a.ParkHeld? || a.Forget? {
      SendStepKeeps(rate, s, a);
    } else if IsOutside(a) {
      OutsideStepKeeps(rate, s, a);
    } else {
      OrderStepKeeps(rate, s, a);
    }
  }

  ghost predicate IsRun(rate: nat, s: State, actions: seq<Action>, s': State)
    decreases |actions|
  {
    if actions == [] then s == s'
    else
      var n := |actions| - 1;
      exists mid :: IsRun(rate, s, actions[..n], mid) && Enabled(mid, actions[n]) && Next(rate, mid, actions[n]) == s'
  }

  lemma RunExtend(rate: nat, s: State, actions: seq<Action>, mid: State, a: Action)
    requires IsRun(rate, s, actions, mid) && Enabled(mid, a)
    ensures IsRun(rate, s, actions + [a], Next(rate, mid, a))
  {
    assert (actions + [a])[..|actions|] == actions;
  }

  lemma {:induction false} RunKeeps(rate: nat, s: State, actions: seq<Action>, s': State)
    requires Inv(s) && Arrivals(s) && IsRun(rate, s, actions, s')
    ensures Inv(s') && Arrivals(s')
    decreases |actions|
  {
    if actions != [] {
      var n := |actions| - 1;
      var mid :| IsRun(rate, s, actions[..n], mid) && Enabled(mid, actions[n]) && Next(rate, mid, actions[n]) == s';
      RunKeeps(rate, s, actions[..n], mid);
      StepKeeps(rate, mid, actions[n]);
    }
  }

  /** Reachable from the empty bridge. */
  ghost predicate Reachable(rate: nat, s: State) {
    exists start, actions :: Initial(start) && IsRun(rate, start, actions, s)
  }

  lemma ReachableInv(rate: nat, s: State)
    requires Reachable(rate, s)
    ensures Inv(s) && Arrivals(s)
  {
    var start, actions :| Initial(start) && IsRun(rate, start, actions, s);
    InitialInv(start);
    RunKeeps(rate, start, actions, s);
  }

  // ── Backing ──────────────────────────────────────────────────────────────

  /** Burned but not yet paid out, over the cap but not yet refunded, decided but not yet minted. */
  function BurnedNotPaid(s: State): int { BurnedSat(s) - PaidSat(s) }
  function ExcessNotRefunded(s: State): int { ExcessSat(s) - RefundedSat(s) }
  function DecidedNotMinted(s: State): int { DecidedSat(s) - MintedSat(s) }

  /** All that is owed beyond the supply. */
  function Slack(s: State): int { BurnedNotPaid(s) + ExcessNotRefunded(s) + DecidedNotMinted(s) }

  /** Recorded fees: what the bridge paid the network. */
  function FeesSat(s: State): int { PayoutFeesSat(s) + BridgeFeesSat(s) }

  /** No output was decided for twice. */
  ghost predicate DecidedOnce(ds: seq<Deposit>) {
    forall d, e :: 0 <= d < e < |ds| ==> ds[d].outpoint != ds[e].outpoint
  }

  lemma RepeatedIff(s: State)
    requires Arrivals(s)
    ensures RepeatedSat(s) >= 0
    ensures RepeatedSat(s) == 0 <==> DecidedOnce(s.deposits)
  {
    var ds := s.deposits;
    SumNonNegative(RepeatedRow(ds), |ds|);
    if DecidedOnce(ds) {
      SumZero(|ds|);
      SumSame(_ => 0, RepeatedRow(ds), |ds|);
    } else {
      var d, e :| 0 <= d < e < |ds| && ds[d].outpoint == ds[e].outpoint;
      assert IsRepeat(ds, e);
      SumAtLeastTerm(RepeatedRow(ds), |ds|, e);
    }
  }

  /** The books of every run: what is in the pool, and what it is held for. */
  lemma PoolAccounts(rate: nat, s: State)
    requires Reachable(rate, s)
    ensures UnspentSat(s.coins) == StatusSat(s.coins, Available) + StatusSat(s.coins, Reserved)
    ensures UnspentSat(s.coins) + FeesSat(s) + RepeatedSat(s) == DepositedSat(s) - PaidSat(s) - RefundedSat(s)
    ensures UnspentSat(s.coins) + FeesSat(s) + RepeatedSat(s) == s.supplySat + Slack(s)
    ensures BurnedNotPaid(s) >= 0 && ExcessNotRefunded(s) >= 0 && DecidedNotMinted(s) >= 0
  {
    ReachableInv(rate, s);
    assert Accounts(s);
    PoolSplits(s.coins);
    SumMonotone(PaidRow(s.withdrawals), BurnedRow(s.withdrawals), |s.withdrawals|);
    SumMonotone(RefundedRow(s.refunds), ExcessRow(s.refunds), |s.refunds|);
    SumMonotone(MintedRow(s.deposits), DecidedRow(s.deposits), |s.deposits|);
  }

  /**
   * The 1:1 backing. Every coin not spent, reserved ones included, plus the fees paid, exceeds the wBOB supply
   * by what is owed less what was decided twice for one output. It falls short exactly when that is more than
   * what is owed, and never while each output was decided once.
   */
  lemma Backing(rate: nat, s: State)
    requires Reachable(rate, s)
    ensures UnspentSat(s.coins) + FeesSat(s) == s.supplySat + Slack(s) - RepeatedSat(s)
    ensures Slack(s) >= 0 && RepeatedSat(s) >= 0
    ensures RepeatedSat(s) == 0 <==> DecidedOnce(s.deposits)
    ensures UnspentSat(s.coins) + FeesSat(s) >= s.supplySat <==> RepeatedSat(s) <= Slack(s)
    ensures DecidedOnce(s.deposits) ==> UnspentSat(s.coins) + FeesSat(s) >= s.supplySat
  {
    ReachableInv(rate, s);
    PoolAccounts(rate, s);
    RepeatedIff(s);
  }

  // ── One payment per withdrawal ───────────────────────────────────────────

  /**
   * Of all the transactions signed for one withdrawal, at most one was ever sent without being definitely
   * refused; it is the newest, and its inputs are still the payout's, so nothing else was built on them.
   */
  lemma OnePayment(rate: nat, s: State, i: nat, g: nat, h: nat)
    requires Reachable(rate, s) && i < |s.withdrawals|
    requires g < |s.withdrawals[i].history| && h < |s.withdrawals[i].history|
    requires OnNetwork(s.withdrawals[i].history[g]) && OnNetwork(s.withdrawals[i].history[h])
    ensures var t := s.withdrawals[i].history[g].tx;
      && s.withdrawals[i].history[h].tx == t
      && Newest(s.withdrawals[i].log) == Some(t)
      && Owned(s.coins, ByPayout(i)) == Inputs(t)
      && t.Signed? && t.recipientSat == s.withdrawals[i].amountSat && t.payee == s.withdrawals[i].payee
  {
    ReachableInv(rate, s);
    assert PayoutOk(s.withdrawals[i], Owned(s.coins, ByPayout(i)), OwnedSat(s.coins, ByPayout(i)));
  }

  /** Attempts less refusals is exactly what was not refused, plus what never left and what was refused but not recorded. */
  lemma AttemptsBalance(rate: nat, s: State, i: nat, t: Tx)
    requires Reachable(rate, s) && i < |s.withdrawals|
    ensures Balance(s.withdrawals[i].log, t) == Facts(s.withdrawals[i].history, t) + Unsettled(s.mem, i, t)
    ensures Balance(s.withdrawals[i].log, t) >= 0
  {
    ReachableInv(rate, s);
    assert BooksBalance(s.withdrawals[i], i, s.mem);
  }

  /** Inputs go back to the pool, and a new transaction is signed, only when nothing of this payout is out. */
  lemma ReleaseOnlyWhenNothingIsOut(rate: nat, s: State, i: nat, t: Tx, fee: nat)
    requires Reachable(rate, s)
    requires (Enabled(s, ParkAndRelease) && i == s.mem.value.order) || CanSignPayout(s, i, t, fee)
    ensures i < |s.withdrawals| && forall h :: 0 <= h < |s.withdrawals[i].history| ==> !OnNetwork(s.withdrawals[i].history[h])
  {
    ReachableInv(rate, s);
    assert PayoutOk(s.withdrawals[i], Owned(s.coins, ByPayout(i)), OwnedSat(s.coins, ByPayout(i)));
  }

  /** One process commits only while its order is still PAYOUT_SIGNED and its inputs reserved for it. */
  lemma CommitsInState(rate: nat, s: State, nodeHasIt: bool)
    requires Reachable(rate, s) && Enabled(s, CommitBroadcast(nodeHasIt))
    ensures var m := s.mem.value;
      && s.withdrawals[m.order].state.Signed? && !Sent(s.withdrawals[m.order])
      && Owned(s.coins, ByPayout(m.order)) == Inputs(m.tx)
      && NoneSpent(s.coins, ByPayout(m.order))
  {
    ReachableInv(rate, s);
    var i := s.mem.value.order;
    assert PayoutOk(s.withdrawals[i], Owned(s.coins, ByPayout(i)), OwnedSat(s.coins, ByPayout(i)));
    forall k | 0 <= k < |s.coins| && s.coins[k].owner == ByPayout(i) ensures !s.coins[k].status.Spent? {
      assert CoinOk(s.withdrawals, s.refunds, s.coins[k]);
    }
  }

  // ── Reservation discipline ───────────────────────────────────────────────

  /** The transaction whose inputs this payout or refund holds: the newest one, unless released. */
  function Holding(s: State, who: Owner): Option<Tx> {
    match who
    case NoOwner => None
    case ByPayout(i) => if i < |s.withdrawals| && Owned(s.coins, who) != {} then Newest(s.withdrawals[i].log) else None
    case ByRefund(r) => if r < |s.refunds| then s.refunds[r].signed else None
  }

  lemma ReservationDiscipline(rate: nat, s: State)
    requires Reachable(rate, s)
    ensures forall k :: 0 <= k < |s.coins| ==> (s.coins[k].status.Available? <==> s.coins[k].owner.NoOwner?)
    ensures forall who | who != NoOwner :: Owned(s.coins, who) == (if Holding(s, who).Some? then Inputs(Holding(s, who).value) else {})
    ensures forall who, other | who != other && Holding(s, who).Some? && Holding(s, other).Some? ::
      Inputs(Holding(s, who).value) !! Inputs(Holding(s, other).value)
  {
    ReachableInv(rate, s);
    CoinsFree(s);
    forall who | who != NoOwner
      ensures Owned(s.coins, who) == if Holding(s, who).Some? then Inputs(Holding(s, who).value) else {}
    {
      HoldingOwns(s, who);
    }
    forall who, other | who != other && Holding(s, who).Some? && Holding(s, other).Some?
      ensures Inputs(Holding(s, who).value) !! Inputs(Holding(s, other).value)
    {
      OwnersApart(s, who, other);
    }
  }

  lemma HoldingOwns(s: State, who: Owner)
    requires Inv(s) && who != NoOwner
    ensures Owned(s.coins, who) == if Holding(s, who).Some? then Inputs(Holding(s, who).value) else {}
  {
    match who
    case ByPayout(i) =>
      if i >= |s.withdrawals| { NobodyOwns(s, who); } else { assert PayoutOk(s.withdrawals[i], Owned(s.coins, who), OwnedSat(s.coins, who)); }
    case ByRefund(r) =>
      if r >= |s.refunds| { NobodyOwns(s, who); } else { assert RefundOk(s.refunds[r], Owned(s.coins, who), OwnedSat(s.coins, who)); }
  }

  lemma OwnersApart(s: State, who: Owner, other: Owner)
    requires Inv(s) && who != other && Holding(s, who).Some? && Holding(s, other).Some?
    ensures Inputs(Holding(s, who).value) !! Inputs(Holding(s, other).value)
  {
    HoldingOwns(s, who);
    HoldingOwns(s, other);
    forall o | o in Owned(s.coins, who) ensures o !in Owned(s.coins, other) {
      var k :| 0 <= k < |s.coins| && s.coins[k].owner == who && s.coins[k].outpoint == o;
      assert forall j :: 0 <= j < |s.coins| && s.coins[j].outpoint == o ==> j == k;
    }
  }

  // ── Change indexes ───────────────────────────────────────────────────────

  /** No two signatures with change, payout or refund, ever use the same change index. */
  lemma ChangeIndexesAreFresh(rate: nat, s: State, a: Site, b: Site)
    requires Reachable(rate, s) && a != b
    requires IndexAt(s.withdrawals, s.refunds, a).Some? && IndexAt(s.withdrawals, s.refunds, b).Some?
    ensures IndexAt(s.withdrawals, s.refunds, a) != IndexAt(s.withdrawals, s.refunds, b)
  {
    ReachableInv(rate, s);
  }
}
