/** What every step of the ledger keeps. */
module LedgerInvariant {
  import opened Coins
  import opened Ledger
  import opened LedgerCoins
  import opened Sums

  // ── The invariant ────────────────────────────────────────────────────────

  predicate IsChangeOf(c: Coin, t: Tx) {
    t.Signed? && t.changeSat > 0 && c.outpoint == Outpoint(t, 1) && c.amountSat == t.changeSat && c.changeIndex == Some(t.changeIndex)
  }

  /** A coin is owned by a signed payout or refund, spent exactly when that was sent; change coins come from sent ones. */
  predicate CoinOk(ws: seq<Withdrawal>, rs: seq<Refund>, c: Coin) {
    && (c.status.Available? <==> c.owner.NoOwner?)
    && (c.owner.ByPayout? ==> c.owner.order < |ws| && (c.status.Spent? <==> Sent(ws[c.owner.order])))
    && (c.owner.ByRefund? ==> c.owner.refund < |rs| && (c.status.Spent? <==> RefundSent(rs[c.owner.refund])))
    && match c.source
       case FromDeposit(_) => c.outpoint.txid.Arriving? && c.changeIndex.None?
       case FromPayout(i) => i < |ws| && Sent(ws[i]) && IsChangeOf(c, ws[i].payout.value.txid.value)
       case FromRefund(r) => r < |rs| && RefundSent(rs[r]) && rs[r].signed.Some? && IsChangeOf(c, rs[r].signed.value)
  }

  ghost predicate CoinsOk(s: State) {
    DistinctCoins(s.coins) && forall k :: 0 <= k < |s.coins| ==> CoinOk(s.withdrawals, s.refunds, s.coins[k])
  }

  /** The newest transaction of a payout: it alone may be out, and then its inputs are still held. */
  predicate HeldOk(w: Withdrawal, t: Tx, owned: set<Outpoint>, ownedSat: int)
    requires w.payout.Some?
  {
    && t.Signed? && t.inputs != [] && t.recipientSat == w.amountSat && t.payee == w.payee
    && (owned != {} ==> owned == Inputs(t) && ownedSat == w.amountSat + t.changeSat + w.payout.value.feeSat)
    && (owned == {} ==> !Sent(w) && (w.state.Queued? || w.state.ManualReview?))
    && (Sent(w) ==> w.payout.value.txid.value == t && !w.state.Signed?)
    && (w.state.Broadcast? || w.state.Confirmed? || w.state.Completed? ==> Sent(w))
    && !w.state.Burned? && !w.state.BurnConfirmed?
    && forall h :: 0 <= h < |w.history| && OnNetwork(w.history[h]) ==>
         w.history[h].tx == t && owned != {} && (w.history[h].Resent? ==> Sent(w))
  }

  predicate PayoutOk(w: Withdrawal, owned: set<Outpoint>, ownedSat: int) {
    if w.payout.None? then
      && Newest(w.log).None? && w.log == [] && w.history == [] && owned == {}
      && (w.state.Burned? || w.state.BurnConfirmed? || w.state.Queued? || w.state.ManualReview?)
    else Newest(w.log).Some? && HeldOk(w, Newest(w.log).value, owned, ownedSat)
  }

  /** Recorded attempts minus recorded refusals is exactly what may have gone out, never went, or was refused unrecorded. */
  ghost predicate BooksBalance(w: Withdrawal, i: nat, mem: Option<InFlight>) {
    forall t :: Balance(w.log, t) == Facts(w.history, t) + Unsettled(mem, i, t)
  }

  ghost predicate PayoutsOk(s: State) {
    && (forall i :: 0 <= i < |s.withdrawals| ==>
          PayoutOk(s.withdrawals[i], Owned(s.coins, ByPayout(i)), OwnedSat(s.coins, ByPayout(i))))
    && (forall i :: 0 <= i < |s.withdrawals| ==> BooksBalance(s.withdrawals[i], i, s.mem))
  }

  predicate RefundOk(r: Refund, owned: set<Outpoint>, ownedSat: int) {
    if r.signed.None? then
      owned == {} && (r.status.RefundQueued? || r.status.TooSmall? || r.status.NeedsAttention?)
    else
      var t := r.signed.value;
      && t.Signed? && t.inputs != [] && owned == Inputs(t)
      && ownedSat == t.recipientSat + t.changeSat + r.feeSat == t.changeSat + r.excessSat + r.bridgeFeeSat
      && (RefundSent(r) || r.status.RefundSigned? || r.status.NeedsAttention?)
  }

  predicate RefundsOk(s: State) {
    forall r :: 0 <= r < |s.refunds| ==> RefundOk(s.refunds[r], Owned(s.coins, ByRefund(r)), OwnedSat(s.coins, ByRefund(r)))
  }

  /** No two signatures with change use the same change index. */
  ghost predicate FreshIndexes(ws: seq<Withdrawal>, rs: seq<Refund>) {
    forall a, b | a != b && IndexAt(ws, rs, a).Some? && IndexAt(ws, rs, b).Some? ::
      IndexAt(ws, rs, a) != IndexAt(ws, rs, b)
  }

  /** The send in hand is of a payout still waiting to go out; if nothing went out before it, nothing has yet. */
  predicate MemOk(s: State) {
    s.mem.Some? ==>
      var m := s.mem.value;
      && m.order < |s.withdrawals|
      && var w := s.withdrawals[m.order];
      && w.state.Signed? && w.payout.Some? && Newest(w.log) == Some(m.tx)
      && (m.thisTx == 0 && (m.outcome.Pending? || m.outcome.Refused? || m.outcome.RefusalSettled?) ==>
            forall h :: 0 <= h < |w.history| ==> !OnNetwork(w.history[h]))
  }

  // Row sums of the books.
  function PaidRow(ws: seq<Withdrawal>): nat -> int { (i: nat) => if i < |ws| && Sent(ws[i]) then ws[i].amountSat else 0 }
  function FeeRow(ws: seq<Withdrawal>): nat -> int { (i: nat) => if i < |ws| && Sent(ws[i]) then ws[i].payout.value.feeSat else 0 }
  function BurnedRow(ws: seq<Withdrawal>): nat -> int { (i: nat) => if i < |ws| then ws[i].amountSat else 0 }
  function RefundedRow(rs: seq<Refund>): nat -> int { (i: nat) => if i < |rs| && RefundSent(rs[i]) then rs[i].excessSat else 0 }
  function BridgeFeeRow(rs: seq<Refund>): nat -> int { (i: nat) => if i < |rs| && RefundSent(rs[i]) then rs[i].bridgeFeeSat else 0 }
  function ExcessRow(rs: seq<Refund>): nat -> int { (i: nat) => if i < |rs| then rs[i].excessSat else 0 }
  function DepositRow(ds: seq<Deposit>): nat -> int { (i: nat) => if i < |ds| then ds[i].amountSat else 0 }
  function DecidedRow(ds: seq<Deposit>): nat -> int { (i: nat) => if i < |ds| then ds[i].mintSat else 0 }
  function MintedRow(ds: seq<Deposit>): nat -> int { (i: nat) => if i < |ds| && ds[i].minted then ds[i].mintSat else 0 }

  function PaidSat(s: State): int { SumTo(PaidRow(s.withdrawals), |s.withdrawals|) }
  function PayoutFeesSat(s: State): int { SumTo(FeeRow(s.withdrawals), |s.withdrawals|) }
  function BurnedSat(s: State): int { SumTo(BurnedRow(s.withdrawals), |s.withdrawals|) }
  function RefundedSat(s: State): int { SumTo(RefundedRow(s.refunds), |s.refunds|) }
  function BridgeFeesSat(s: State): int { SumTo(BridgeFeeRow(s.refunds), |s.refunds|) }
  function ExcessSat(s: State): int { SumTo(ExcessRow(s.refunds), |s.refunds|) }
  function DepositedSat(s: State): int { SumTo(DepositRow(s.deposits), |s.deposits|) }
  function DecidedSat(s: State): int { SumTo(DecidedRow(s.deposits), |s.deposits|) }
  function MintedSat(s: State): int { SumTo(MintedRow(s.deposits), |s.deposits|) }

  /** An order for an output that an earlier decision was already made for: it brings no coin. */
  predicate IsRepeat(ds: seq<Deposit>, i: nat) {
    i < |ds| && exists e :: 0 <= e < i && ds[e].outpoint == ds[i].outpoint
  }

  function RepeatedRow(ds: seq<Deposit>): nat -> int { (i: nat) => if IsRepeat(ds, i) then ds[i].amountSat else 0 }
  function RepeatedSat(s: State): int { SumTo(RepeatedRow(s.deposits), |s.deposits|) }

  predicate Decided(ds: seq<Deposit>, o: Outpoint) {
    exists d :: 0 <= d < |ds| && ds[d].outpoint == o
  }

  /** The coins from outside are those of the decided deposits, one for each output. */
  ghost predicate Arrivals(s: State) {
    && (forall k :: 0 <= k < |s.coins| && s.coins[k].outpoint.txid.Arriving? ==> Decided(s.deposits, s.coins[k].outpoint))
    && (forall d :: 0 <= d < |s.deposits| ==> s.deposits[d].amountSat > 0 && InPool(s.coins, s.deposits[d].outpoint))
  }

  predicate Accounts(s: State) {
    && UnspentSat(s.coins) + PayoutFeesSat(s) + BridgeFeesSat(s) == DepositedSat(s) - RepeatedSat(s) - PaidSat(s) - RefundedSat(s)
    && s.supplySat == MintedSat(s) - BurnedSat(s)
    && DepositedSat(s) == DecidedSat(s) + ExcessSat(s)
  }

  ghost predicate Inv(s: State) {
    CoinsOk(s) && PayoutsOk(s) && RefundsOk(s) && FreshIndexes(s.withdrawals, s.refunds) && MemOk(s) && Accounts(s)
  }

  predicate Initial(s: State) {
    s.coins == [] && s.withdrawals == [] && s.deposits == [] && s.refunds == [] && s.supplySat == 0 && s.mem.None?
  }

  lemma InitialInv(s: State)
    requires Initial(s)
    ensures Inv(s) && Arrivals(s)
  {
  }

  /** No coin arrived or left: rows keep their outpoints, and what is new is change. */
  lemma ArrivalsKept(s: State, s': State)
    requires Arrivals(s) && |s.coins| <= |s'.coins| && |s'.deposits| == |s.deposits|
    requires forall k :: 0 <= k < |s.coins| ==> s'.coins[k].outpoint == s.coins[k].outpoint
    requires forall k :: |s.coins| <= k < |s'.coins| ==> s'.coins[k].outpoint.txid.Signed?
    requires forall d :: 0 <= d < |s.deposits| ==> s'.deposits[d].outpoint == s.deposits[d].outpoint && s'.deposits[d].amountSat == s.deposits[d].amountSat
    ensures Arrivals(s')
  {
    forall k | 0 <= k < |s'.coins| && s'.coins[k].outpoint.txid.Arriving? ensures Decided(s'.deposits, s'.coins[k].outpoint) {
      var d :| 0 <= d < |s.deposits| && s.deposits[d].outpoint == s.coins[k].outpoint;
      assert s'.deposits[d].outpoint == s'.coins[k].outpoint;
    }
    forall d | 0 <= d < |s'.deposits| ensures InPool(s'.coins, s'.deposits[d].outpoint) {
      assert InPool(s.coins, s.deposits[d].outpoint);
      var k :| 0 <= k < |s.coins| && s.coins[k].outpoint == s.deposits[d].outpoint;
      assert s'.coins[k].outpoint == s'.deposits[d].outpoint;
    }
  }

  // ── Edits of one withdrawal that move no coin ────────────────────────────

  predicate SameMoney(w: Withdrawal, w': Withdrawal) {
    w'.amountSat == w.amountSat && w'.payee == w.payee && w'.payout == w.payout
  }

  /** The log is the same, or has one more event that is not a signature. */
  predicate NothingSigned(log: seq<Event>, log': seq<Event>) {
    log' == log || (|log'| == |log| + 1 && log'[..|log|] == log && !log'[|log|].SignedEvent?)
  }

  lemma WithdrawalSums(s: State, s': State)
    requires |s'.withdrawals| == |s.withdrawals|
    requires forall i :: 0 <= i < |s.withdrawals| ==> SameMoney(s.withdrawals[i], s'.withdrawals[i])
    ensures PaidSat(s') == PaidSat(s) && PayoutFeesSat(s') == PayoutFeesSat(s) && BurnedSat(s') == BurnedSat(s)
  {
    var n := |s.withdrawals|;
    SumSame(PaidRow(s.withdrawals), PaidRow(s'.withdrawals), n);
    SumSame(FeeRow(s.withdrawals), FeeRow(s'.withdrawals), n);
    SumSame(BurnedRow(s.withdrawals), BurnedRow(s'.withdrawals), n);
  }

  lemma IndexesSame(ws: seq<Withdrawal>, ws': seq<Withdrawal>, rs: seq<Refund>)
    requires |ws'| == |ws| && forall i :: 0 <= i < |ws| ==> NothingSigned(ws[i].log, ws'[i].log)
    requires FreshIndexes(ws, rs)
    ensures FreshIndexes(ws', rs)
  {
    forall a ensures IndexAt(ws', rs, a) == IndexAt(ws, rs, a) {
      if a.InLog? && a.order < |ws| {
        assert NothingSigned(ws[a.order].log, ws'[a.order].log);
        assert a.at < |ws[a.order].log| ==> ws'[a.order].log[..|ws[a.order].log|][a.at] == ws[a.order].log[a.at];
      }
    }
  }

  predicate OthersUnsettledSame(mem: Option<InFlight>, mem': Option<InFlight>, i: nat) {
    && (mem.Some? ==> mem.value.order == i)
    && (mem'.Some? ==> mem'.value.order == i)
  }

  lemma EditKeeps(s: State, s': State, i: nat, w: Withdrawal)
    requires Inv(s) && i < |s.withdrawals| && s' == s.(withdrawals := s.withdrawals[i := w], mem := s'.mem)
    requires SameMoney(s.withdrawals[i], w) && NothingSigned(s.withdrawals[i].log, w.log)
    requires PayoutOk(w, Owned(s.coins, ByPayout(i)), OwnedSat(s.coins, ByPayout(i)))
    requires BooksBalance(w, i, s'.mem) && MemOk(s')
    requires s'.mem == s.mem || OthersUnsettledSame(s.mem, s'.mem, i)
    ensures Inv(s')
  {
    WithdrawalSums(s, s');
    IndexesSame(s.withdrawals, s'.withdrawals, s.refunds);
    EditRows(s, s', i, w);
    forall k | 0 <= k < |s.coins| ensures CoinOk(s'.withdrawals, s'.refunds, s'.coins[k]) {
      assert CoinOk(s.withdrawals, s.refunds, s.coins[k]);
    }
  }

  lemma EditRows(s: State, s': State, i: nat, w: Withdrawal)
    requires PayoutsOk(s) && i < |s.withdrawals| && s' == s.(withdrawals := s.withdrawals[i := w], mem := s'.mem)
    requires PayoutOk(w, Owned(s.coins, ByPayout(i)), OwnedSat(s.coins, ByPayout(i))) && BooksBalance(w, i, s'.mem)
    requires s'.mem == s.mem || OthersUnsettledSame(s.mem, s'.mem, i)
    ensures PayoutsOk(s')
  {
    forall j | 0 <= j < |s'.withdrawals| ensures BooksBalance(s'.withdrawals[j], j, s'.mem) {
      if j != i { assert BooksBalance(s.withdrawals[j], j, s.mem); }
    }
  }
}
