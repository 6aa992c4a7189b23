/** The solvency monitor's verdict (backend/src/monitor/checks.ts) against the ledger's backing. */
module Solvency {
  import opened Coins
  import opened Ledger
  import opened LedgerCoins
  import opened LedgerInvariant
  import opened LedgerRuns
  import opened Sums

  datatype SolvencyResult = SolvencyResult(isSolvent: bool, coverageRatio: real, deficitSat: int)

  function CheckSolvency(wBobSupplySat: int, utxoPoolSat: int, cumulativeFeesPaidSat: int): SolvencyResult {
    var effectivePoolSat := utxoPoolSat + cumulativeFeesPaidSat;
    var isSolvent := effectivePoolSat >= wBobSupplySat;
    SolvencyResult(isSolvent,
      if wBobSupplySat == 0 then 1.0 else effectivePoolSat as real / wBobSupplySat as real,
      if isSolvent then 0 else wBobSupplySat - effectivePoolSat)
  }

  /** What the monitor reads: available coins only. */
  function Verdict(s: State): SolvencyResult {
    CheckSolvency(s.supplySat, StatusSat(s.coins, Available), FeesSat(s))
  }

  /** Are all coins not spent, with the fees paid, at least the supply? */
  predicate IsBacked(s: State) {
    UnspentSat(s.coins) + FeesSat(s) >= s.supplySat
  }

  /**
   * The monitor says solvent exactly when what is reserved, and what was decided twice for one output, do not
   * exceed what is burned and unpaid, over the cap and unrefunded, or decided and unminted. It never calls an
   * unbacked bridge solvent, and its verdict is right unless the reserved coins make the difference.
   */
  lemma VerdictIsRightIff(rate: nat, s: State)
    requires Reachable(rate, s)
    ensures Verdict(s).isSolvent <==> StatusSat(s.coins, Reserved) + RepeatedSat(s) <= Slack(s)
    ensures Verdict(s).deficitSat == if Verdict(s).isSolvent then 0 else StatusSat(s.coins, Reserved) + RepeatedSat(s) - Slack(s)
    ensures Verdict(s).isSolvent ==> IsBacked(s)
    ensures (Verdict(s).isSolvent <==> IsBacked(s)) <==> !(RepeatedSat(s) <= Slack(s) < StatusSat(s.coins, Reserved) + RepeatedSat(s))
    ensures StatusSat(s.coins, Reserved) == 0 ==> (Verdict(s).isSolvent <==> IsBacked(s))
  {
    Backing(rate, s);
    PoolSplits(s.coins);
    SumNonNegative(StatusRow(s.coins, Reserved), |s.coins|);
  }

  // ── A false alarm ────────────────────────────────────────────────────────

  const COIN := Outpoint(Arriving(0), 0)
  const PAYOUT := Tx.Signed([COIN], "D", 5_000, 5_000, 0)

  const EMPTY := State([], [], [], [], 0, None)

  function Pool(minted: bool, withdrawals: seq<Withdrawal>, supplySat: nat): State {
    State([Coin(COIN, 10_000, None, FromDeposit(0), Available, NoOwner)], withdrawals,
          [Deposit(COIN, 10_000, 10_000, minted)], [], supplySat, None)
  }

  ghost predicate Steps(rate: nat, s: State, a: Action, s': State) {
    Enabled(s, a) && Next(rate, s, a) == s'
  }

  lemma Extend(rate: nat, mid: State, a: Action, s: State)
    requires (exists actions :: IsRun(rate, EMPTY, actions, mid)) && Steps(rate, mid, a, s)
    ensures exists actions :: IsRun(rate, EMPTY, actions, s)
  {
    var actions :| IsRun(rate, EMPTY, actions, mid);
    RunExtend(rate, EMPTY, actions, mid, a);
  }

  lemma DepositReached(rate: nat)
    ensures exists actions :: IsRun(rate, EMPTY, actions, Pool(false, [], 0))
  {
    assert IsRun(rate, EMPTY, [], EMPTY);
    assert EMPTY.coins + [Coin(COIN, 10_000, None, FromDeposit(0), Available, NoOwner)] == Pool(false, [], 0).coins;
    Extend(rate, EMPTY, DepositDecided(COIN, 10_000, 10_000), Pool(false, [], 0));
  }

  lemma MintReached(rate: nat)
    ensures exists actions :: IsRun(rate, EMPTY, actions, Pool(true, [], 10_000))
  {
    DepositReached(rate);
    Extend(rate, Pool(false, [], 0), MintExecuted(0), Pool(true, [], 10_000));
  }

  function Burnt(st: OutboundState): State {
    Pool(true, [Withdrawal(5_000, "D", st, None, [], [])], 5_000)
  }

  lemma BurnReached(rate: nat)
    ensures exists actions :: IsRun(rate, EMPTY, actions, Burnt(Queued))
  {
    MintReached(rate);
    Extend(rate, Pool(true, [], 10_000), Burn(5_000, "D"), Burnt(Burned));
    Extend(rate, Burnt(Burned), ConfirmBurn(0), Burnt(BurnConfirmed));
    Extend(rate, Burnt(BurnConfirmed), QueueBurn(0), Burnt(Queued));
  }

  lemma PayoutSignable()
    ensures CanSignPayout(Burnt(Queued), 0, PAYOUT, 0)
  {
    var s := Burnt(Queued);
    assert s.coins[0].outpoint == COIN && AvailableOutpoints(s.coins) == {COIN};
    assert Inputs(PAYOUT) == {COIN};
    assert SumTo(PickedRow(s.coins, {COIN}), 0) == 0;
    assert PickedSat(s.coins, {COIN}) == 10_000;
  }

  lemma AlarmState()
    ensures var s := AfterSignPayout(Burnt(Queued), 0, PAYOUT, 0);
      !Verdict(s).isSolvent && IsBacked(s)
  {
    var s := AfterSignPayout(Burnt(Queued), 0, PAYOUT, 0);
    assert COIN in Inputs(PAYOUT);
    assert s.coins[0].status.Reserved? && |s.coins| == |s.withdrawals| == 1;
    SumOfOne(StatusRow(s.coins, Available));
    SumOfOne(UnspentRow(s.coins));
    SumOfOne(FeeRow(s.withdrawals));
  }

  /** One deposit of 10000, minted and half of it burned: signing the payout reserves the only coin and trips the alarm. */
  lemma FalseAlarm(rate: nat)
    ensures exists s :: Reachable(rate, s) && !Verdict(s).isSolvent && IsBacked(s)
  {
    BurnReached(rate);
    PayoutSignable();
    AlarmState();
    var s := AfterSignPayout(Burnt(Queued), 0, PAYOUT, 0);
    Extend(rate, Burnt(Queued), SignPayout(0, PAYOUT, 0), s);
    assert Initial(EMPTY) && Reachable(rate, s);
  }

  // ── Backing lost ─────────────────────────────────────────────────────────

  function Twice(minted: nat): State {
    State([Coin(COIN, 10_000, None, FromDeposit(0), Available, NoOwner)], [],
          [Deposit(COIN, 10_000, 10_000, minted > 0), Deposit(COIN, 10_000, 10_000, minted > 1)], [], minted * 10_000, None)
  }

  lemma TwiceDecided(rate: nat)
    ensures exists actions :: IsRun(rate, EMPTY, actions, Twice(0))
  {
    var once := Pool(false, [], 0);
    DepositReached(rate);
    assert once.coins[0].outpoint == COIN && once.coins + [] == once.coins;
    Extend(rate, once, DepositDecided(COIN, 10_000, 10_000), Twice(0));
  }

  lemma TwiceReached(rate: nat)
    ensures exists actions :: IsRun(rate, EMPTY, actions, Twice(2))
  {
    TwiceDecided(rate);
    Extend(rate, Twice(0), MintExecuted(0), Twice(1));
    Extend(rate, Twice(1), MintExecuted(1), Twice(2));
  }

  /** One output of 10000 recorded on two orders is one coin in the pool, but minted for twice. */
  lemma DecidedTwiceLosesBacking(rate: nat)
    ensures exists s :: Reachable(rate, s) && !IsBacked(s)
  {
    TwiceReached(rate);
    var s := Twice(2);
    SumOfOne(UnspentRow(s.coins));
    assert Initial(EMPTY) && Reachable(rate, s);
  }
}
