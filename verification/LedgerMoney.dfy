/** The actions that move coins or value keep the ledger's invariant. */
module LedgerMoney {
  import opened Coins
  import opened Ledger
  import opened LedgerCoins
  import opened LedgerInvariant
  import opened LedgerSteps
  import opened Sums

  // ── Coming in ────────────────────────────────────────────────────────────

  lemma NobodyOwns(s: State, who: Owner)
    requires CoinsOk(s)
    requires (who.ByPayout? && who.order >= |s.withdrawals|) || (who.ByRefund? && who.refund >= |s.refunds|)
    ensures Owned(s.coins, who) == {}
  {
    forall k | 0 <= k < |s.coins| ensures s.coins[k].owner != who { assert CoinOk(s.withdrawals, s.refunds, s.coins[k]); }
  }

  lemma DepositCoins(rate: nat, s: State, o: Outpoint, d: nat, m: nat)
    requires CoinsOk(s) && OutsideEnabled(s, DepositDecided(o, d, m))
    ensures CoinsOk(AfterDeposit(rate, s, o, d, m))
  {
    var s' := AfterDeposit(rate, s, o, d, m);
    forall k | 0 <= k < |s'.coins| ensures CoinOk(s'.withdrawals, s'.refunds, s'.coins[k]) {
      if k < |s.coins| { assert CoinOk(s.withdrawals, s.refunds, s.coins[k]); }
    }
  }

  lemma DepositRows(rate: nat, s: State, o: Outpoint, d: nat, m: nat)
    requires CoinsOk(s) && PayoutsOk(s) && RefundsOk(s) && OutsideEnabled(s, DepositDecided(o, d, m))
    ensures var s' := AfterDeposit(rate, s, o, d, m); PayoutsOk(s') && RefundsOk(s')
  {
    var s' := AfterDeposit(rate, s, o, d, m);
    forall i | 0 <= i < |s.withdrawals|
      ensures PayoutOk(s'.withdrawals[i], Owned(s'.coins, ByPayout(i)), OwnedSat(s'.coins, ByPayout(i)))
    {
      OwnedAppend(s.coins, s'.coins[|s.coins|..], ByPayout(i));
    }
    forall r | 0 <= r < |s'.refunds| ensures RefundOk(s'.refunds[r], Owned(s'.coins, ByRefund(r)), OwnedSat(s'.coins, ByRefund(r))) {
      OwnedAppend(s.coins, s'.coins[|s.coins|..], ByRefund(r));
      if r == |s.refunds| { NobodyOwns(s, ByRefund(r)); }
    }
  }

  lemma DepositSums(s: State, s': State, row: Deposit)
    requires s'.deposits == s.deposits + [row] && !row.minted
    ensures DepositedSat(s') == DepositedSat(s) + row.amountSat && DecidedSat(s') == DecidedSat(s) + row.mintSat
    ensures MintedSat(s') == MintedSat(s)
  {
    SumSame(DepositRow(s.deposits), DepositRow(s'.deposits), |s.deposits|);
    SumSame(DecidedRow(s.deposits), DecidedRow(s'.deposits), |s.deposits|);
    SumSame(MintedRow(s.deposits), MintedRow(s'.deposits), |s.deposits|);
  }

  lemma ExcessSums(s: State, s': State, row: Refund)
    requires s'.refunds == s.refunds + [row] && !RefundSent(row)
    ensures ExcessSat(s') == ExcessSat(s) + row.excessSat && RefundedSat(s') == RefundedSat(s) && BridgeFeesSat(s') == BridgeFeesSat(s)
  {
    SumSame(ExcessRow(s.refunds), ExcessRow(s'.refunds), |s.refunds|);
    SumSame(RefundedRow(s.refunds), RefundedRow(s'.refunds), |s.refunds|);
    SumSame(BridgeFeeRow(s.refunds), BridgeFeeRow(s'.refunds), |s.refunds|);
  }

  /** A repeated output adds to what is deposited on paper and to what is repeated alike. */
  lemma RepeatSums(s: State, s': State, row: Deposit)
    requires Arrivals(s) && s'.deposits == s.deposits + [row] && row.outpoint.txid.Arriving?
    ensures RepeatedSat(s') == RepeatedSat(s) + if InPool(s.coins, row.outpoint) then row.amountSat else 0
  {
    var n := |s.deposits|;
    forall i | 0 <= i < n ensures IsRepeat(s'.deposits, i) <==> IsRepeat(s.deposits, i) {
      assert forall e :: 0 <= e <= i ==> s'.deposits[e] == s.deposits[e];
    }
    SumSame(RepeatedRow(s.deposits), RepeatedRow(s'.deposits), n);
    if InPool(s.coins, row.outpoint) {
      var k :| 0 <= k < |s.coins| && s.coins[k].outpoint == row.outpoint;
      var e :| 0 <= e < n && s.deposits[e].outpoint == s.coins[k].outpoint;
      assert s'.deposits[e].outpoint == s'.deposits[n].outpoint;
    } else {
      forall e | 0 <= e < n ensures s.deposits[e].outpoint != row.outpoint { assert InPool(s.coins, s.deposits[e].outpoint); }
    }
  }

  lemma DepositArrivals(rate: nat, s: State, o: Outpoint, d: nat, m: nat)
    requires Arrivals(s) && OutsideEnabled(s, DepositDecided(o, d, m))
    ensures Arrivals(AfterDeposit(rate, s, o, d, m))
  {
    var s' := AfterDeposit(rate, s, o, d, m);
    assert s'.deposits[|s.deposits|].outpoint == o;
    forall k | 0 <= k < |s'.coins| && s'.coins[k].outpoint.txid.Arriving? ensures Decided(s'.deposits, s'.coins[k].outpoint) {
      if k < |s.coins| {
        var e :| 0 <= e < |s.deposits| && s.deposits[e].outpoint == s.coins[k].outpoint;
        assert s'.deposits[e].outpoint == s'.coins[k].outpoint;
      }
    }
    forall e | 0 <= e < |s'.deposits| ensures InPool(s'.coins, s'.deposits[e].outpoint) {
      if e < |s.deposits| || InPool(s.coins, o) {
        var at := s'.deposits[e].outpoint;
        assert InPool(s.coins, at);
        var k :| 0 <= k < |s.coins| && s.coins[k].outpoint == at;
        assert s'.coins[k].outpoint == at;
      } else {
        assert s'.coins[|s.coins|].outpoint == o;
      }
    }
  }

  lemma DepositAccounts(rate: nat, s: State, o: Outpoint, d: nat, m: nat)
    requires Arrivals(s) && Accounts(s) && o.txid.Arriving? && m <= d
    ensures Accounts(AfterDeposit(rate, s, o, d, m))
  {
    var s' := AfterDeposit(rate, s, o, d, m);
    UnspentAppend(s.coins, DepositCoin(s, o, d));
    DepositSums(s, s', s'.deposits[|s.deposits|]);
    RepeatSums(s, s', s'.deposits[|s.deposits|]);
    if d > m { ExcessSums(s, s', s'.refunds[|s.refunds|]); }
  }

  lemma DepositIndexes(rate: nat, s: State, o: Outpoint, d: nat, m: nat)
    requires FreshIndexes(s.withdrawals, s.refunds) && MemOk(s) && m <= d
    ensures var s' := AfterDeposit(rate, s, o, d, m); FreshIndexes(s'.withdrawals, s'.refunds) && MemOk(s')
  {
    var s' := AfterDeposit(rate, s, o, d, m);
    forall a ensures IndexAt(s'.withdrawals, s'.refunds, a) == IndexAt(s.withdrawals, s.refunds, a) {}
  }

  lemma DepositKeeps(rate: nat, s: State, o: Outpoint, d: nat, m: nat)
    requires Inv(s) && Arrivals(s) && OutsideEnabled(s, DepositDecided(o, d, m))
    ensures Inv(AfterDeposit(rate, s, o, d, m))
  {
    DepositCoins(rate, s, o, d, m);
    DepositRows(rate, s, o, d, m);
    DepositAccounts(rate, s, o, d, m);
    DepositIndexes(rate, s, o, d, m);
  }

  lemma MintAccounts(rate: nat, s: State, d: nat)
    requires Accounts(s) && OutsideEnabled(s, MintExecuted(d))
    ensures Accounts(OutsideNext(rate, s, MintExecuted(d)))
  {
    var ds, ds' := s.deposits, OutsideNext(rate, s, MintExecuted(d)).deposits;
    SumSame(DepositRow(ds), DepositRow(ds'), |ds|);
    SumSame(DecidedRow(ds), DecidedRow(ds'), |ds|);
    forall i | 0 <= i < |ds| ensures RepeatedRow(ds')(i) == RepeatedRow(ds)(i) {
      assert forall e :: 0 <= e < |ds| ==> ds'[e].outpoint == ds[e].outpoint;
    }
    SumSame(RepeatedRow(ds), RepeatedRow(ds'), |ds|);
    SumChange(MintedRow(ds), MintedRow(ds'), |ds|, d);
  }

  lemma MintKeeps(rate: nat, s: State, d: nat)
    requires Inv(s) && OutsideEnabled(s, MintExecuted(d))
    ensures Inv(OutsideNext(rate, s, MintExecuted(d)))
  {
    var s' := OutsideNext(rate, s, MintExecuted(d));
    MintAccounts(rate, s, d);
    forall k | 0 <= k < |s'.coins| ensures CoinOk(s'.withdrawals, s'.refunds, s'.coins[k]) {
      assert CoinOk(s.withdrawals, s.refunds, s.coins[k]);
    }
  }

  lemma BurnAccounts(s: State, s': State, w: Withdrawal)
    requires Accounts(s) && s' == s.(withdrawals := s.withdrawals + [w], supplySat := s'.supplySat)
    requires w.payout.None? && s'.supplySat == s.supplySat - w.amountSat
    ensures Accounts(s')
  {
    SumSame(PaidRow(s.withdrawals), PaidRow(s'.withdrawals), |s.withdrawals|);
    SumSame(FeeRow(s.withdrawals), FeeRow(s'.withdrawals), |s.withdrawals|);
    SumSame(BurnedRow(s.withdrawals), BurnedRow(s'.withdrawals), |s.withdrawals|);
  }

  lemma BurnKeeps(rate: nat, s: State, amount: nat, payee: string)
    requires Inv(s) && OutsideEnabled(s, Burn(amount, payee))
    ensures Inv(OutsideNext(rate, s, Burn(amount, payee)))
  {
    var s' := OutsideNext(rate, s, Burn(amount, payee));
    BurnAccounts(s, s', s'.withdrawals[|s.withdrawals|]);
    NobodyOwns(s, ByPayout(|s.withdrawals|));
    forall k | 0 <= k < |s'.coins| ensures CoinOk(s'.withdrawals, s'.refunds, s'.coins[k]) {
      assert CoinOk(s.withdrawals, s.refunds, s.coins[k]);
    }
    forall a ensures IndexAt(s'.withdrawals, s'.refunds, a) == IndexAt(s.withdrawals, s.refunds, a) {}
    forall i | 0 <= i < |s'.withdrawals| ensures BooksBalance(s'.withdrawals[i], i, s'.mem) {
      if i < |s.withdrawals| { assert BooksBalance(s.withdrawals[i], i, s.mem); }
    }
  }

  // ── Refund rows ──────────────────────────────────────────────────────────

  lemma RefundSums(s: State, s': State)
    requires |s'.refunds| == |s.refunds|
    requires forall r :: 0 <= r < |s.refunds| ==>
      var a, b := s.refunds[r], s'.refunds[r];
      b.excessSat == a.excessSat && RefundSent(b) == RefundSent(a) && (RefundSent(a) ==> b.bridgeFeeSat == a.bridgeFeeSat)
    ensures RefundedSat(s') == RefundedSat(s) && BridgeFeesSat(s') == BridgeFeesSat(s) && ExcessSat(s') == ExcessSat(s)
  {
    SumSame(RefundedRow(s.refunds), RefundedRow(s'.refunds), |s.refunds|);
    SumSame(BridgeFeeRow(s.refunds), BridgeFeeRow(s'.refunds), |s.refunds|);
    SumSame(ExcessRow(s.refunds), ExcessRow(s'.refunds), |s.refunds|);
  }

  lemma RefundEditKeeps(s: State, r: nat, row: Refund)
    requires Inv(s) && r < |s.refunds|
    requires row == s.refunds[r].(status := row.status, address := row.address) && RefundSent(row) == RefundSent(s.refunds[r])
    requires RefundOk(row, Owned(s.coins, ByRefund(r)), OwnedSat(s.coins, ByRefund(r)))
    ensures Inv(SetRefund(s, r, row))
  {
    var s' := SetRefund(s, r, row);
    RefundSums(s, s');
    forall k | 0 <= k < |s'.coins| ensures CoinOk(s'.withdrawals, s'.refunds, s'.coins[k]) {
      assert CoinOk(s.withdrawals, s.refunds, s.coins[k]);
    }
    forall a ensures IndexAt(s'.withdrawals, s'.refunds, a) == IndexAt(s.withdrawals, s.refunds, a) {}
  }

  // ── Signing ──────────────────────────────────────────────────────────────

  lemma CoinsFree(s: State)
    requires CoinsOk(s)
    ensures FreeMeansUnowned(s.coins)
  {
    forall k | 0 <= k < |s.coins| ensures s.coins[k].status.Available? <==> s.coins[k].owner.NoOwner? {
      assert CoinOk(s.withdrawals, s.refunds, s.coins[k]);
    }
  }

  /** One more signature keeps indexes apart when its own index, if any, is above all others. */
  lemma IndexesGrow(ws: seq<Withdrawal>, rs: seq<Refund>, ws': seq<Withdrawal>, rs': seq<Refund>, added: Site)
    requires FreshIndexes(ws, rs)
    requires forall a :: a != added ==> IndexAt(ws', rs', a) == IndexAt(ws, rs, a)
    requires forall a :: IndexAt(ws, rs, a).Some? && IndexAt(ws', rs', added).Some? ==>
      IndexAt(ws, rs, a).value < IndexAt(ws', rs', added).value
    ensures FreshIndexes(ws', rs')
  {
  }

  /** The coins of s' are those of s with the picked ones reserved for `who`. */
  lemma ReservedCoinsOk(s: State, s': State, t: Tx, who: Owner)
    requires CoinsOk(s) && Inputs(t) <= AvailableOutpoints(s.coins) && s'.coins == Reserve(s.coins, Inputs(t), who)
    requires forall k :: 0 <= k < |s.coins| && s.coins[k].owner != who ==> CoinOk(s'.withdrawals, s'.refunds, s.coins[k])
    requires Owned(s.coins, who) == {}
    requires (who.ByPayout? && who.order < |s'.withdrawals| && !Sent(s'.withdrawals[who.order]))
          || (who.ByRefund? && who.refund < |s'.refunds| && !RefundSent(s'.refunds[who.refund]))
    ensures CoinsOk(s')
  {
    CoinsFree(s);
    AvailableAreFree(s.coins, Inputs(t));
    forall k | 0 <= k < |s.coins| ensures CoinOk(s'.withdrawals, s'.refunds, s'.coins[k]) {
      assert s.coins[k].outpoint !in Owned(s.coins, who);
      assert CoinOk(s'.withdrawals, s'.refunds, s.coins[k]);
    }
  }

  lemma SignPayoutCoins(s: State, i: nat, t: Tx, fee: nat)
    requires Inv(s) && CanSignPayout(s, i, t, fee)
    ensures CoinsOk(AfterSignPayout(s, i, t, fee))
  {
    var s' := AfterSignPayout(s, i, t, fee);
    forall k | 0 <= k < |s.coins| && s.coins[k].owner != ByPayout(i) ensures CoinOk(s'.withdrawals, s'.refunds, s.coins[k]) {
      assert CoinOk(s.withdrawals, s.refunds, s.coins[k]);
    }
    ReservedCoinsOk(s, s', t, ByPayout(i));
  }

  lemma SignPayoutRow(s: State, i: nat, t: Tx, fee: nat)
    requires Inv(s) && CanSignPayout(s, i, t, fee) && PicksAreFree(s.coins, Inputs(t))
    ensures var s' := AfterSignPayout(s, i, t, fee);
      PayoutOk(s'.withdrawals[i], Owned(s'.coins, ByPayout(i)), OwnedSat(s'.coins, ByPayout(i))) && BooksBalance(s'.withdrawals[i], i, s'.mem)
  {
    var w := s.withdrawals[i];
    ReserveOwned(s.coins, Inputs(t), ByPayout(i));
    assert t.inputs[0] in Inputs(t);
    assert BooksBalance(w, i, s.mem);
    forall u ensures Balance(w.log + [SignedEvent(t)], u) == Balance(w.log, u) { BalanceSnoc(w.log, SignedEvent(t), u); }
    BalanceSnoc(w.log, SignedEvent(t), t);
  }

  lemma SignPayoutRows(s: State, i: nat, t: Tx, fee: nat)
    requires Inv(s) && CanSignPayout(s, i, t, fee) && PicksAreFree(s.coins, Inputs(t))
    ensures var s' := AfterSignPayout(s, i, t, fee); PayoutsOk(s') && RefundsOk(s')
  {
    var s' := AfterSignPayout(s, i, t, fee);
    SignPayoutRow(s, i, t, fee);
    forall j | 0 <= j < |s.withdrawals| && j != i
      ensures PayoutOk(s'.withdrawals[j], Owned(s'.coins, ByPayout(j)), OwnedSat(s'.coins, ByPayout(j)))
      ensures BooksBalance(s'.withdrawals[j], j, s'.mem)
    {
      assert BooksBalance(s.withdrawals[j], j, s.mem);
      ReserveOthers(s.coins, Inputs(t), ByPayout(i), ByPayout(j));
    }
    forall r | 0 <= r < |s.refunds| ensures RefundOk(s'.refunds[r], Owned(s'.coins, ByRefund(r)), OwnedSat(s'.coins, ByRefund(r))) {
      ReserveOthers(s.coins, Inputs(t), ByPayout(i), ByRefund(r));
    }
  }

  lemma SignPayoutIndexes(s: State, i: nat, t: Tx, fee: nat)
    requires FreshIndexes(s.withdrawals, s.refunds) && CanSignPayout(s, i, t, fee)
    ensures var s' := AfterSignPayout(s, i, t, fee); FreshIndexes(s'.withdrawals, s'.refunds)
  {
    var s' := AfterSignPayout(s, i, t, fee);
    var added := InLog(i, |s.withdrawals[i].log|);
    forall a | a != added ensures IndexAt(s'.withdrawals, s'.refunds, a) == IndexAt(s.withdrawals, s.refunds, a) {}
    assert IndexAt(s'.withdrawals, s'.refunds, added) == ChangeIndexOf(t);
    IndexesGrow(s.withdrawals, s.refunds, s'.withdrawals, s'.refunds, added);
  }

  lemma SignPayoutKeeps(s: State, i: nat, t: Tx, fee: nat)
    requires Inv(s) && CanSignPayout(s, i, t, fee)
    ensures Inv(AfterSignPayout(s, i, t, fee))
  {
    CoinsFree(s);
    AvailableAreFree(s.coins, Inputs(t));
    SignPayoutCoins(s, i, t, fee);
    SignPayoutRows(s, i, t, fee);
    ReserveUnspent(s.coins, Inputs(t), ByPayout(i));
    SignPayoutSums(s, i, t, fee);
    SignPayoutIndexes(s, i, t, fee);
    assert PayoutOk(s.withdrawals[i], Owned(s.coins, ByPayout(i)), OwnedSat(s.coins, ByPayout(i)));
  }

  lemma SignPayoutSums(s: State, i: nat, t: Tx, fee: nat)
    requires i < |s.withdrawals| && !Sent(s.withdrawals[i])
    ensures var s' := AfterSignPayout(s, i, t, fee);
      PaidSat(s') == PaidSat(s) && PayoutFeesSat(s') == PayoutFeesSat(s) && BurnedSat(s') == BurnedSat(s)
  {
    var s' := AfterSignPayout(s, i, t, fee);
    SumSame(PaidRow(s.withdrawals), PaidRow(s'.withdrawals), |s.withdrawals|);
    SumSame(FeeRow(s.withdrawals), FeeRow(s'.withdrawals), |s.withdrawals|);
    SumSame(BurnedRow(s.withdrawals), BurnedRow(s'.withdrawals), |s.withdrawals|);
  }

  lemma SignRefundCoins(s: State, r: nat, t: Tx, fee: nat, bridge: nat)
    requires Inv(s) && CanSignRefund(s, r, t, fee, bridge)
    ensures CoinsOk(AfterSignRefund(s, r, t, fee, bridge))
  {
    var s' := AfterSignRefund(s, r, t, fee, bridge);
    forall k | 0 <= k < |s.coins| && s.coins[k].owner != ByRefund(r) ensures CoinOk(s'.withdrawals, s'.refunds, s.coins[k]) {
      assert CoinOk(s.withdrawals, s.refunds, s.coins[k]);
    }
    assert RefundOk(s.refunds[r], Owned(s.coins, ByRefund(r)), OwnedSat(s.coins, ByRefund(r)));
    ReservedCoinsOk(s, s', t, ByRefund(r));
  }

  lemma SignRefundRows(s: State, r: nat, t: Tx, fee: nat, bridge: nat)
    requires PayoutsOk(s) && RefundsOk(s) && CanSignRefund(s, r, t, fee, bridge) && PicksAreFree(s.coins, Inputs(t))
    ensures var s' := AfterSignRefund(s, r, t, fee, bridge); PayoutsOk(s') && RefundsOk(s')
  {
    var s' := AfterSignRefund(s, r, t, fee, bridge);
    assert RefundOk(s.refunds[r], Owned(s.coins, ByRefund(r)), OwnedSat(s.coins, ByRefund(r)));
    ReserveOwned(s.coins, Inputs(t), ByRefund(r));
    forall j | 0 <= j < |s.withdrawals|
      ensures PayoutOk(s'.withdrawals[j], Owned(s'.coins, ByPayout(j)), OwnedSat(s'.coins, ByPayout(j)))
      ensures BooksBalance(s'.withdrawals[j], j, s'.mem)
    {
      assert BooksBalance(s.withdrawals[j], j, s.mem);
      ReserveOthers(s.coins, Inputs(t), ByRefund(r), ByPayout(j));
    }
    forall q | 0 <= q < |s.refunds| && q != r ensures RefundOk(s'.refunds[q], Owned(s'.coins, ByRefund(q)), OwnedSat(s'.coins, ByRefund(q))) {
      ReserveOthers(s.coins, Inputs(t), ByRefund(r), ByRefund(q));
    }
  }

  lemma SignRefundIndexes(s: State, r: nat, t: Tx, fee: nat, bridge: nat)
    requires FreshIndexes(s.withdrawals, s.refunds) && CanSignRefund(s, r, t, fee, bridge)
    ensures var s' := AfterSignRefund(s, r, t, fee, bridge); FreshIndexes(s'.withdrawals, s'.refunds)
  {
    var s' := AfterSignRefund(s, r, t, fee, bridge);
    forall a | a != InRefund(r) ensures IndexAt(s'.withdrawals, s'.refunds, a) == IndexAt(s.withdrawals, s.refunds, a) {}
    assert IndexAt(s'.withdrawals, s'.refunds, InRefund(r)) == ChangeIndexOf(t);
    IndexesGrow(s.withdrawals, s.refunds, s'.withdrawals, s'.refunds, InRefund(r));
  }

  lemma SignRefundKeeps(s: State, r: nat, t: Tx, fee: nat, bridge: nat)
    requires Inv(s) && CanSignRefund(s, r, t, fee, bridge)
    ensures Inv(AfterSignRefund(s, r, t, fee, bridge))
  {
    var s' := AfterSignRefund(s, r, t, fee, bridge);
    CoinsFree(s);
    AvailableAreFree(s.coins, Inputs(t));
    SignRefundCoins(s, r, t, fee, bridge);
    SignRefundRows(s, r, t, fee, bridge);
    ReserveUnspent(s.coins, Inputs(t), ByRefund(r));
    RefundSums(s, s');
    SignRefundIndexes(s, r, t, fee, bridge);
  }

  // ── Releasing ────────────────────────────────────────────────────────────

  predicate CanRelease(s: State) {
    InHand(s) && s.mem.value.outcome.RefusalSettled? && s.mem.value.thisTx == 0
  }

  lemma ReleaseCoins(s: State)
    requires CoinsOk(s) && MemOk(s) && PayoutsOk(s) && CanRelease(s)
    ensures CoinsOk(AfterRelease(s)) && NoneSpent(s.coins, ByPayout(s.mem.value.order))
  {
    var s', i := AfterRelease(s), s.mem.value.order;
    assert PayoutOk(s.withdrawals[i], Owned(s.coins, ByPayout(i)), OwnedSat(s.coins, ByPayout(i)));
    assert !Sent(s.withdrawals[i]);
    forall k | 0 <= k < |s.coins| ensures CoinOk(s'.withdrawals, s'.refunds, s'.coins[k]) {
      assert CoinOk(s.withdrawals, s.refunds, s.coins[k]);
    }
    forall k | 0 <= k < |s.coins| && s.coins[k].owner == ByPayout(i) ensures !s.coins[k].status.Spent? {
      assert CoinOk(s.withdrawals, s.refunds, s.coins[k]);
    }
  }

  lemma ReleaseRows(s: State)
    requires PayoutsOk(s) && RefundsOk(s) && MemOk(s) && CanRelease(s) && NoneSpent(s.coins, ByPayout(s.mem.value.order))
    ensures var s' := AfterRelease(s); PayoutsOk(s') && RefundsOk(s') && UnspentSat(s'.coins) == UnspentSat(s.coins)
  {
    var s', i := AfterRelease(s), s.mem.value.order;
    ReleaseOwned(s.coins, ByPayout(i), ByPayout(i));
    forall j | 0 <= j < |s.withdrawals|
      ensures PayoutOk(s'.withdrawals[j], Owned(s'.coins, ByPayout(j)), OwnedSat(s'.coins, ByPayout(j)))
      ensures BooksBalance(s'.withdrawals[j], j, s'.mem)
    {
      assert BooksBalance(s.withdrawals[j], j, s.mem);
      ReleaseOwned(s.coins, ByPayout(i), ByPayout(j));
    }
    forall r | 0 <= r < |s.refunds| ensures RefundOk(s'.refunds[r], Owned(s'.coins, ByRefund(r)), OwnedSat(s'.coins, ByRefund(r))) {
      ReleaseOwned(s.coins, ByPayout(i), ByRefund(r));
    }
  }

  lemma ReleaseKeeps(s: State)
    requires Inv(s) && CanRelease(s)
    ensures Inv(AfterRelease(s))
  {
    ReleaseCoins(s);
    ReleaseRows(s);
    WithdrawalSums(s, AfterRelease(s));
    IndexesSame(s.withdrawals, AfterRelease(s).withdrawals, s.refunds);
  }

  // ── Broadcasting ─────────────────────────────────────────────────────────

  /** A change output not committed yet is not in the pool. */
  lemma ChangeIsFresh(s: State, t: Tx, a: Site)
    requires CoinsOk(s) && PayoutsOk(s) && FreshIndexes(s.withdrawals, s.refunds)
    requires t.Signed? && t.changeSat > 0 && IndexAt(s.withdrawals, s.refunds, a) == Some(t.changeIndex)
    requires a.InLog? ==> !Sent(s.withdrawals[a.order])
    requires a.InRefund? ==> !RefundSent(s.refunds[a.refund])
    ensures forall k :: 0 <= k < |s.coins| ==> s.coins[k].outpoint != Outpoint(t, 1)
  {
    forall k | 0 <= k < |s.coins| ensures s.coins[k].outpoint != Outpoint(t, 1) {
      assert CoinOk(s.withdrawals, s.refunds, s.coins[k]);
      var b := SourceSite(s, k);
      assert s.coins[k].outpoint.txid == t ==> b == a;
    }
  }

  /** Where the transaction behind a change coin was signed. */
  lemma SourceSite(s: State, k: nat) returns (b: Site)
    requires CoinsOk(s) && PayoutsOk(s) && k < |s.coins|
    ensures s.coins[k].source.FromPayout? ==> b.InLog? && b.order == s.coins[k].source.order < |s.withdrawals| && Sent(s.withdrawals[b.order])
    ensures s.coins[k].source.FromRefund? ==> b.InRefund? && b.refund == s.coins[k].source.refund < |s.refunds| && RefundSent(s.refunds[b.refund])
    ensures !s.coins[k].source.FromDeposit? ==>
      s.coins[k].outpoint.txid.Signed? && IndexAt(s.withdrawals, s.refunds, b) == Some(s.coins[k].outpoint.txid.changeIndex)
    ensures s.coins[k].source.FromDeposit? ==> s.coins[k].outpoint.txid.Arriving?
  {
    b := InRefund(0);
    var c := s.coins[k];
    assert CoinOk(s.withdrawals, s.refunds, c);
    match c.source
    case FromDeposit(_) =>
    case FromPayout(i) =>
      var w := s.withdrawals[i];
      assert PayoutOk(w, Owned(s.coins, ByPayout(i)), OwnedSat(s.coins, ByPayout(i)));
      LogEventSigned(w.log);
      var p :| 0 <= p < |w.log| && w.log[p] == SignedEvent(Newest(w.log).value);
      b := InLog(i, p);
    case FromRefund(r) => b := InRefund(r);
  }

  /** Spending what `who` owns and adding a fresh change coin. */
  lemma SpentCoinsOk(s: State, s': State, t: Tx, who: Owner, source: Source)
    requires CoinsOk(s) && s'.coins == Spend(s.coins, who) + ChangeCoin(t, source)
    requires forall k :: 0 <= k < |s.coins| ==> CoinOk(s'.withdrawals, s'.refunds, Spend(s.coins, who)[k])
    requires forall k :: 0 <= k < |ChangeCoin(t, source)| ==> CoinOk(s'.withdrawals, s'.refunds, ChangeCoin(t, source)[k])
    requires ChangeCoin(t, source) != [] ==> forall k :: 0 <= k < |s.coins| ==> s.coins[k].outpoint != Outpoint(t, 1)
    ensures CoinsOk(s')
  {
    forall k | 0 <= k < |s'.coins| ensures CoinOk(s'.withdrawals, s'.refunds, s'.coins[k]) {
      if k < |s.coins| { assert s'.coins[k] == Spend(s.coins, who)[k]; } else { assert s'.coins[k] == ChangeCoin(t, source)[k - |s.coins|]; }
    }
    assert forall k :: 0 <= k < |s.coins| ==> s'.coins[k].outpoint == s.coins[k].outpoint;
  }

  lemma SpentOwned(coins: seq<Coin>, t: Tx, who: Owner, source: Source, other: Owner)
    requires other != NoOwner
    ensures Owned(Spend(coins, who) + ChangeCoin(t, source), other) == Owned(coins, other)
    ensures OwnedSat(Spend(coins, who) + ChangeCoin(t, source), other) == OwnedSat(coins, other)
  {
    SpendOwned(coins, who, other);
    OwnedAppend(Spend(coins, who), ChangeCoin(t, source), other);
  }

  lemma SpentPool(s: State, t: Tx, who: Owner, source: Source)
    requires CoinsOk(s) && t.Signed?
    requires (who.ByPayout? && who.order < |s.withdrawals| && !Sent(s.withdrawals[who.order]))
          || (who.ByRefund? && who.refund < |s.refunds| && !RefundSent(s.refunds[who.refund]))
    ensures UnspentSat(Spend(s.coins, who) + ChangeCoin(t, source)) == UnspentSat(s.coins) - OwnedSat(s.coins, who) + t.changeSat
  {
    forall k | 0 <= k < |s.coins| && s.coins[k].owner == who ensures !s.coins[k].status.Spent? {
      assert CoinOk(s.withdrawals, s.refunds, s.coins[k]);
    }
    SpendUnspent(s.coins, who);
    UnspentAppend(Spend(s.coins, who), ChangeCoin(t, source));
  }

  lemma PayoutChangeIsFresh(s: State, i: nat, t: Tx)
    requires CoinsOk(s) && PayoutsOk(s) && FreshIndexes(s.withdrawals, s.refunds)
    requires i < |s.withdrawals| && s.withdrawals[i].payout.Some? && s.withdrawals[i].state.Signed? && Newest(s.withdrawals[i].log) == Some(t)
    ensures t.Signed? && !Sent(s.withdrawals[i])
    ensures t.changeSat > 0 ==> forall k :: 0 <= k < |s.coins| ==> s.coins[k].outpoint != Outpoint(t, 1)
  {
    var w := s.withdrawals[i];
    assert PayoutOk(w, Owned(s.coins, ByPayout(i)), OwnedSat(s.coins, ByPayout(i)));
    LogEventSigned(w.log);
    var p :| 0 <= p < |w.log| && w.log[p] == SignedEvent(t);
    if t.changeSat > 0 { ChangeIsFresh(s, t, InLog(i, p)); }
  }

  lemma RefundChangeIsFresh(s: State, r: nat, t: Tx)
    requires CoinsOk(s) && PayoutsOk(s) && RefundsOk(s) && FreshIndexes(s.withdrawals, s.refunds)
    requires r < |s.refunds| && s.refunds[r].status.RefundSigned? && s.refunds[r].signed == Some(t)
    ensures t.Signed?
    ensures t.changeSat > 0 ==> forall k :: 0 <= k < |s.coins| ==> s.coins[k].outpoint != Outpoint(t, 1)
  {
    assert RefundOk(s.refunds[r], Owned(s.coins, ByRefund(r)), OwnedSat(s.coins, ByRefund(r)));
    if t.changeSat > 0 { ChangeIsFresh(s, t, InRefund(r)); }
  }

  lemma CommitCoins(s: State)
    requires CoinsOk(s) && PayoutsOk(s) && FreshIndexes(s.withdrawals, s.refunds) && MemOk(s) && InHand(s) && s.withdrawals[s.mem.value.order].payout.Some?
    ensures CoinsOk(AfterCommit(s))
  {
    var s', m := AfterCommit(s), s.mem.value;
    var i, t := m.order, m.tx;
    PayoutChangeIsFresh(s, i, t);
    forall k | 0 <= k < |s.coins| ensures CoinOk(s'.withdrawals, s'.refunds, Spend(s.coins, ByPayout(i))[k]) {
      assert CoinOk(s.withdrawals, s.refunds, s.coins[k]);
    }
    SpentCoinsOk(s, s', t, ByPayout(i), FromPayout(i));
  }

  lemma CommitRows(s: State)
    requires Inv(s) && InHand(s) && s.withdrawals[s.mem.value.order].payout.Some?
    ensures var s' := AfterCommit(s); PayoutsOk(s') && RefundsOk(s')
  {
    var s', m := AfterCommit(s), s.mem.value;
    LeftoverBalances(s, m, false);
    forall j | 0 <= j < |s.withdrawals|
      ensures PayoutOk(s'.withdrawals[j], Owned(s'.coins, ByPayout(j)), OwnedSat(s'.coins, ByPayout(j)))
      ensures BooksBalance(s'.withdrawals[j], j, s'.mem)
    {
      assert PayoutOk(s.withdrawals[j], Owned(s.coins, ByPayout(j)), OwnedSat(s.coins, ByPayout(j)));
      assert BooksBalance(s.withdrawals[j], j, s.mem);
      SpentOwned(s.coins, m.tx, ByPayout(m.order), FromPayout(m.order), ByPayout(j));
    }
    forall r | 0 <= r < |s.refunds| ensures RefundOk(s'.refunds[r], Owned(s'.coins, ByRefund(r)), OwnedSat(s'.coins, ByRefund(r))) {
      SpentOwned(s.coins, m.tx, ByPayout(m.order), FromPayout(m.order), ByRefund(r));
    }
  }

  lemma CommitSums(s: State)
    requires InHand(s) && s.withdrawals[s.mem.value.order].payout.Some? && !Sent(s.withdrawals[s.mem.value.order])
    ensures var w, s' := s.withdrawals[s.mem.value.order], AfterCommit(s);
      && PaidSat(s') == PaidSat(s) + w.amountSat && PayoutFeesSat(s') == PayoutFeesSat(s) + w.payout.value.feeSat
      && BurnedSat(s') == BurnedSat(s)
  {
    var ws, ws', i := s.withdrawals, AfterCommit(s).withdrawals, s.mem.value.order;
    SumChange(PaidRow(ws), PaidRow(ws'), |ws|, i);
    SumChange(FeeRow(ws), FeeRow(ws'), |ws|, i);
    SumSame(BurnedRow(ws), BurnedRow(ws'), |ws|);
  }

  lemma CommitAccounts(s: State)
    requires CoinsOk(s) && PayoutsOk(s) && MemOk(s) && Accounts(s) && InHand(s) && s.withdrawals[s.mem.value.order].payout.Some?
    ensures Accounts(AfterCommit(s))
  {
    var m := s.mem.value;
    assert PayoutOk(s.withdrawals[m.order], Owned(s.coins, ByPayout(m.order)), OwnedSat(s.coins, ByPayout(m.order)));
    SpentPool(s, m.tx, ByPayout(m.order), FromPayout(m.order));
    CommitSums(s);
  }

  lemma CommitKeeps(s: State)
    requires Inv(s) && InHand(s) && s.withdrawals[s.mem.value.order].payout.Some?
    ensures Inv(AfterCommit(s))
  {
    CommitCoins(s);
    CommitRows(s);
    CommitAccounts(s);
    IndexesSame(s.withdrawals, AfterCommit(s).withdrawals, s.refunds);
  }

  lemma CommitRefundCoins(s: State, r: nat)
    requires CoinsOk(s) && PayoutsOk(s) && RefundsOk(s) && FreshIndexes(s.withdrawals, s.refunds)
    requires r < |s.refunds| && s.refunds[r].status.RefundSigned? && s.refunds[r].signed.Some?
    ensures CoinsOk(AfterCommitRefund(s, r))
  {
    var s', t := AfterCommitRefund(s, r), s.refunds[r].signed.value;
    RefundChangeIsFresh(s, r, t);
    forall k | 0 <= k < |s.coins| ensures CoinOk(s'.withdrawals, s'.refunds, Spend(s.coins, ByRefund(r))[k]) {
      assert CoinOk(s.withdrawals, s.refunds, s.coins[k]);
    }
    SpentCoinsOk(s, s', t, ByRefund(r), FromRefund(r));
  }

  lemma CommitRefundRows(s: State, r: nat)
    requires Inv(s) && r < |s.refunds| && s.refunds[r].status.RefundSigned? && s.refunds[r].signed.Some?
    ensures var s' := AfterCommitRefund(s, r); PayoutsOk(s') && RefundsOk(s')
  {
    var s', t := AfterCommitRefund(s, r), s.refunds[r].signed.value;
    forall j | 0 <= j < |s.withdrawals| ensures PayoutOk(s'.withdrawals[j], Owned(s'.coins, ByPayout(j)), OwnedSat(s'.coins, ByPayout(j))) {
      SpentOwned(s.coins, t, ByRefund(r), FromRefund(r), ByPayout(j));
    }
    forall q | 0 <= q < |s.refunds| ensures RefundOk(s'.refunds[q], Owned(s'.coins, ByRefund(q)), OwnedSat(s'.coins, ByRefund(q))) {
      assert RefundOk(s.refunds[q], Owned(s.coins, ByRefund(q)), OwnedSat(s.coins, ByRefund(q)));
      SpentOwned(s.coins, t, ByRefund(r), FromRefund(r), ByRefund(q));
    }
  }

  lemma CommitRefundAccounts(s: State, r: nat)
    requires Inv(s) && r < |s.refunds| && s.refunds[r].status.RefundSigned? && s.refunds[r].signed.Some?
    ensures Accounts(AfterCommitRefund(s, r))
  {
    var s', t := AfterCommitRefund(s, r), s.refunds[r].signed.value;
    assert RefundOk(s.refunds[r], Owned(s.coins, ByRefund(r)), OwnedSat(s.coins, ByRefund(r)));
    SpentPool(s, t, ByRefund(r), FromRefund(r));
    SumChange(RefundedRow(s.refunds), RefundedRow(s'.refunds), |s.refunds|, r);
    SumChange(BridgeFeeRow(s.refunds), BridgeFeeRow(s'.refunds), |s.refunds|, r);
    SumSame(ExcessRow(s.refunds), ExcessRow(s'.refunds), |s.refunds|);
  }

  lemma CommitRefundKeeps(s: State, r: nat)
    requires Inv(s) && r < |s.refunds| && s.refunds[r].status.RefundSigned? && s.refunds[r].signed.Some?
    ensures Inv(AfterCommitRefund(s, r))
  {
    var s' := AfterCommitRefund(s, r);
    CommitRefundCoins(s, r);
    CommitRefundRows(s, r);
    CommitRefundAccounts(s, r);
    forall a ensures IndexAt(s'.withdrawals, s'.refunds, a) == IndexAt(s.withdrawals, s.refunds, a) {}
  }

  // ── Where coins come from ────────────────────────────────────────────────

  /** Only a deposit decision brings a coin from outside. */
  lemma ArrivalsStep(rate: nat, s: State, a: Action)
    requires Arrivals(s) && Enabled(s, a)
    ensures Arrivals(Next(rate, s, a))
  {
    if a.DepositDecided? {
      DepositArrivals(rate, s, a.outpoint, a.amountSat, a.mintSat);
    } else {
      ArrivalsKept(s, Next(rate, s, a));
    }
  }
}
