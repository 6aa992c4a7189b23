/**
 * The refund executor's jobs (backend/src/executor/refund-executor.ts): find the sender of an over-cap
 * deposit, sign the refund, broadcast it, confirm it. It shares the pool with the payout executor.
 */
module RefundExecutor {
  import opened Coins
  import opened Database
  import opened Ledger
  import opened LedgerCoins
  import opened LedgerInvariant
  import opened LedgerRuns
  import opened PoolSelection
  import Select = CoinSelection

  const REFUND_MIN_CONFIRMATIONS := 3

  /**
   * All that comes from outside in one round. runs: which of the four jobs gets its rows at all. answers: nothing when the
   * node failed, otherwise the sender if there is one.
   */
  datatype Round = Round(runs: nat -> bool, answers: nat -> Option<Option<string>>, autoSend: bool, announced: set<nat>,
                         unreachable: nat -> bool, signFails: nat -> bool,
                         sends: nat -> SendResult, confirmations: nat -> int)

  /** Taken: the node took the transaction or already has it. */
  datatype SendResult = SendResult(taken: bool, unreachable: bool, dbFails: bool)

  /** The states a round went through, and the pool at each turn of its signing job. */
  datatype Stops = Stops(resolved: State, signing: State, pools: seq<seq<Coin>>, signed: State, sending: State, sent: State, confirming: State)

  datatype BuildResult = BuiltTx(tx: Tx, feeSat: nat, bridgeFeeSat: nat) | TooSmallToSend | NotBuilt(transient: bool)

  lemma RefundSignableStill(read: State, now: State, r: nat, t: Tx, feeSat: nat, bridgeFeeSat: nat)
    requires CanSignRefund(read, r, t, feeSat, bridgeFeeSat) && Undisturbed(read, now) && DistinctCoins(now.coins)
    ensures CanSignRefund(now, r, t, feeSat, bridgeFeeSat)
  {
    PickedGrows(read.coins, now.coins, Inputs(t));
    if t.changeSat > 0 { StillNext(read, now, t.changeIndex); }
  }

  // ── What the jobs make of a row ──────────────────────────────────────────

  predicate NeedsSender(row: Refund) {
    row.status.RefundQueued? && row.address.None?
  }

  function Resolved(row: Refund, answer: Option<Option<string>>): Refund {
    if !NeedsSender(row) || answer.None? then row
    else if answer.value.Some? then row.(address := answer.value)
    else row.(status := NeedsAttention)
  }

  predicate ToSign(row: Refund, r: nat, round: Round) {
    round.autoSend && row.status.RefundQueued? && row.address.Some? && r in round.announced
  }

  /** Signed on the shortest prefix of the coins, the deposit's own first, paying the excess less the fee of that prefix. */
  ghost predicate SignedOn(row: Refund, row': Refund, utxos: seq<Utxo>, rate: nat) {
    && row'.signed.Some? && row' == row.(status := RefundSigned, signed := row'.signed, feeSat := row'.feeSat, bridgeFeeSat := row'.bridgeFeeSat)
    && var t, ordered := row'.signed.value, Select.PreferredFirst(utxos, Some(row.deposit));
    && t.Signed? && Some(t.payee) == row.address
    && exists n: nat :: Select.IsShortest(ordered, n, row.excessSat)
         && t.inputs == Outpoints(ordered[..n]) && t.recipientSat == row.excessSat - Select.PrefixFee(ordered[..n], row.excessSat, rate)
  }

  /**
   * What becomes of a refund to sign: nothing to pay goes to a human, too few coins wait, a fee that leaves dust is too
   * small, an unreachable node waits, a transaction that fails goes to a human, and otherwise it is signed.
   */
  ghost predicate SignOutcome(row: Refund, row': Refund, utxos: seq<Utxo>, rate: nat, unreachable: bool, dbFails: bool) {
    if row.excessSat == 0 then row' == row.(status := NeedsAttention)
    else if Select.Total(utxos) < row.excessSat then row' == row
    else if Select.LeavesDust(utxos, row.excessSat, rate, Some(row.deposit)) then row' == row.(status := TooSmall)
    else if unreachable then row' == row
    else if dbFails then row' == row.(status := NeedsAttention)
    else SignedOn(row, row', utxos, rate)
  }

  /** ...and once it waits for a human, it may have been handed back. */
  ghost predicate SignOutcomeLater(row: Refund, row': Refund, utxos: seq<Utxo>, rate: nat, unreachable: bool, dbFails: bool) {
    var parked := row.(status := NeedsAttention);
    || SignOutcome(row, row', utxos, rate, unreachable, dbFails)
    || (SignOutcome(row, parked, utxos, rate, unreachable, dbFails) && OnlyReset(parked, row'))
  }

  ghost predicate SignedAs(r: nat, row: Refund, row': Refund, pool: seq<Coin>, round: Round, rate: nat) {
    if ToSign(row, r, round)
    then SignOutcomeLater(row, row', AvailableUtxos(pool), rate, round.unreachable(r), round.signFails(r)) else OnlyReset(row, row')
  }

  lemma SignedStill(r: nat, row: Refund, row1: Refund, row2: Refund, pool: seq<Coin>, round: Round, rate: nat)
    requires SignedAs(r, row, row1, pool, round, rate) && OnlyReset(row1, row2)
    ensures SignedAs(r, row, row2, pool, round, rate)
  {
  }

  /** Every queued, announced refund ends as the pool at its turn calls for: the pool before less what earlier ones took. */
  ghost predicate SignPass(s: State, s': State, pools: seq<seq<Coin>>, round: Round, rate: nat) {
    && |s.refunds| <= |s'.refunds| && |pools| == |s.refunds|
    && (forall r :: 0 <= r < |pools| ==> TakenBelow(s.coins, pools[r], r, true))
    && (forall r :: 0 <= r < |pools| ==> SignedAs(r, s.refunds[r], s'.refunds[r], pools[r], round, rate))
    && TakenBelow(s.coins, s'.coins, |s.refunds|, true)
  }

  predicate ToSend(row: Refund) {
    row.status.RefundSigned? && row.signed.Some?
  }

  /** Recorded when the node has it, sent again when it could not be asked, otherwise kept for a human. */
  function SentAs(row: Refund, res: SendResult): Refund {
    row.(status := if res.taken then (if res.dbFails then row.status else RefundBroadcast)
                   else if res.unreachable then row.status else NeedsAttention)
  }

  predicate SentRow(row: Refund, row': Refund, res: SendResult) {
    OnlyReset(if ToSend(row) then SentAs(row, res) else row, row')
  }

  /** A coin after the first n refunds were sent: spent when its refund was recorded. */
  function CoinSent(c: Coin, rows: seq<Refund>, n: nat, sends: nat -> SendResult): Coin {
    if c.owner.ByRefund? && c.owner.refund < n && c.owner.refund < |rows| && ToSend(rows[c.owner.refund])
       && sends(c.owner.refund).taken && !sends(c.owner.refund).dbFails
    then c.(status := Spent) else c
  }

  /** The change of a recorded refund is in the pool, available. */
  predicate ChangeTaken(coins: seq<Coin>, row: Refund, r: nat, res: SendResult) {
    ToSend(row) && res.taken && !res.dbFails && row.signed.value.Signed? && row.signed.value.changeSat > 0 ==>
      exists k :: 0 <= k < |coins| && coins[k] == ChangeCoin(row.signed.value, FromRefund(r))[0]
  }

  ghost predicate PoolSent(coins: seq<Coin>, coins': seq<Coin>, rows: seq<Refund>, n: nat, sends: nat -> SendResult) {
    && |coins| <= |coins'| && (forall k :: 0 <= k < |coins| ==> coins'[k] == CoinSent(coins[k], rows, n, sends))
    && forall r :: 0 <= r < n && r < |rows| ==> ChangeTaken(coins', rows[r], r, sends(r))
  }

  /** Every signed refund and every coin ends as its own answer calls for. */
  ghost predicate SendPass(s: State, s': State, sends: nat -> SendResult) {
    && |s.refunds| <= |s'.refunds|
    && (forall r :: 0 <= r < |s.refunds| ==> SentRow(s.refunds[r], s'.refunds[r], sends(r)))
    && PoolSent(s.coins, s'.coins, s.refunds, |s.refunds|, sends)
  }

  /** The pool after one refund's turn. */
  ghost predicate PoolOneSent(coins: seq<Coin>, coins': seq<Coin>, row: Refund, r: nat, res: SendResult) {
    && |coins| <= |coins'|
    && (forall k :: 0 <= k < |coins| ==>
          coins'[k] == if coins[k].owner == ByRefund(r) && res.taken && !res.dbFails then coins[k].(status := Spent) else coins[k])
    && ChangeTaken(coins', row, r, res)
  }

  lemma PoolSentNext(coins: seq<Coin>, mid: seq<Coin>, coins': seq<Coin>, rows: seq<Refund>, r: nat, sends: nat -> SendResult)
    requires r < |rows| && PoolSent(coins, mid, rows, r, sends)
    requires if ToSend(rows[r]) then PoolOneSent(mid, coins', rows[r], r, sends(r)) else coins' == mid
    ensures PoolSent(coins, coins', rows, r + 1, sends)
  {
    forall q | 0 <= q < r ensures ChangeTaken(coins', rows[q], q, sends(q)) {
      assert ChangeTaken(mid, rows[q], q, sends(q));
      if ToSend(rows[q]) && sends(q).taken && !sends(q).dbFails && rows[q].signed.value.Signed? && rows[q].signed.value.changeSat > 0 {
        var k :| 0 <= k < |mid| && mid[k] == ChangeCoin(rows[q].signed.value, FromRefund(q))[0];
        assert coins'[k] == mid[k];
      }
    }
  }

  function AfterCount(row: Refund, confirmations: int): Refund {
    if row.status.RefundBroadcast? && confirmations >= REFUND_MIN_CONFIRMATIONS then row.(status := RefundConfirmed) else row
  }

  ghost predicate ResolvePass(s: State, s': State, answers: nat -> Option<Option<string>>) {
    && s'.coins == s.coins && |s'.refunds| == |s.refunds|
    && forall r :: 0 <= r < |s.refunds| ==> s'.refunds[r] == Resolved(s.refunds[r], answers(r))
  }

  ghost predicate ConfirmPass(s: State, s': State, confirmations: nat -> int) {
    && s'.coins == s.coins && |s'.refunds| == |s.refunds|
    && forall r :: 0 <= r < |s.refunds| ==> s'.refunds[r] == AfterCount(s.refunds[r], confirmations(r))
  }

  /** One round: the jobs in order, each on what the one before left; a job that gets no rows does nothing. */
  ghost predicate RoundDone(s: State, s': State, t: Stops, round: Round, rate: nat) {
    && (if round.runs(0) then ResolvePass(s, t.resolved, round.answers) else t.resolved == s)
    && Undisturbed(t.resolved, t.signing)
    && (if round.runs(1) then SignPass(t.signing, t.signed, t.pools, round, rate) else t.signed == t.signing)
    && Undisturbed(t.signed, t.sending)
    && (if round.runs(2) then SendPass(t.sending, t.sent, round.sends) else t.sent == t.sending)
    && Undisturbed(t.sent, t.confirming)
    && (if round.runs(3) then ConfirmPass(t.confirming, s', round.confirmations) else s' == t.confirming)
  }

  class RefundExecutor {
    const db: Database

    constructor (db: Database)
      ensures this.db == db
    {
      this.db := db;
    }

    static predicate CanMove(row: Refund, a: Action) {
      || (a.ResolveSender? && NeedsSender(row))
      || (a.ParkRefund? && row.status.RefundQueued?)
      || (a.ParkSignedRefund? && row.status.RefundSigned?)
      || (a.ConfirmRefund? && row.status.RefundBroadcast?)
    }

    static function RowAfter(row: Refund, a: Action): Refund {
      if a.ResolveSender? && a.sender.Some? then row.(address := a.sender)
      else if a.ParkRefund? && a.tooSmall then row.(status := TooSmall)
      else if a.ConfirmRefund? then row.(status := RefundConfirmed)
      else row.(status := NeedsAttention)
    }

    /** A status change that moves no coin and touches nothing else. */
    method SetRow(r: nat, a: Action)
      requires db.Valid() && r < |db.refunds| && CanMove(db.refunds[r], a) && a.refund == r
      modifies db
      ensures db.Ran() && db.mem == old(db.mem) && db.coins == old(db.coins) && db.withdrawals == old(db.withdrawals)
      ensures db.refunds == old(db.refunds)[r := RowAfter(old(db.refunds)[r], a)]
    {
      ghost var before := db.Now();
      db.refunds := db.refunds[r := RowAfter(db.refunds[r], a)];
      db.Log(a, before);
    }

    /** Every queued refund without an address gets its sender, or a human, unless the node cannot be reached. */
    method ResolveSenders(answers: nat -> Option<Option<string>>)
      requires db.Valid()
      modifies db
      ensures db.Ran() && db.mem == old(db.mem) && db.Requeued()
      ensures ResolvePass(old(db.Now()), db.Now(), answers)
    {
      for r := 0 to |db.refunds|
        invariant db.Ran() && db.mem == old(db.mem) && db.coins == old(db.coins) && db.Requeued() && |db.refunds| == |old(db.refunds)|
        invariant forall q :: r <= q < |db.refunds| ==> db.refunds[q] == old(db.refunds)[q]
        invariant forall q :: 0 <= q < r ==> db.refunds[q] == Resolved(old(db.refunds)[q], answers(q))
      {
        var row := db.refunds[r];
        if row.status.RefundQueued? && row.address.None? && answers(r).Some? { SetRow(r, ResolveSender(r, answers(r).value)); }
      }
    }

    /**
     * Plan the refund: the deposit's own coin first. While that coin is in the pool a refund worth sending is
     * always built, spends nothing else, and returns the minted part of the deposit to the pool.
     */
    method BuildTx(r: nat) returns (result: BuildResult)
      requires db.Valid() && r < |db.refunds| && db.refunds[r].status.RefundQueued? && db.refunds[r].address.Some?
      ensures result.BuiltTx? ==> CanSignRefund(db.Now(), r, result.tx, result.feeSat, result.bridgeFeeSat) && NoRepeat(result.tx.inputs)
      ensures BuiltAs(result, db.refunds[r], AvailableUtxos(db.coins), db.rate)
      ensures forall own | WorthSending(own, AvailableUtxos(db.coins), db.refunds[r], db.rate) ::
        SpendsOwn(result, own, db.refunds[r].excessSat)
    {
      var row := db.refunds[r];
      var utxos := ReadAvailable(db.coins);
      var changeIndex := db.NextChangeIndex();
      var plan := Select.PlanRefund(utxos, row.excessSat, db.rate, Some(row.deposit));
      db.Distinct();
      PlanSignable(db.Now(), r, db.rate, changeIndex);
      Select.PlanEnds(utxos, row.excessSat, db.rate, Some(row.deposit));
      forall own | WorthSending(own, utxos, row, db.rate)
        ensures plan.Ok? && SpendsOwn(Laid(plan.value, row.address.value, changeIndex), own, row.excessSat)
      {
        OwnCoinAlone(db.coins, own, row, db.rate, changeIndex);
      }
      if plan.Ok? {
        result := Laid(plan.value, row.address.value, changeIndex);
      } else {
        result := if plan.error.RefundTooSmall? then TooSmallToSend else NotBuilt(plan.error.InsufficientUtxos?);
      }
    }

    /** Which way building ends, told by the coins. */
    static ghost predicate BuiltAs(result: BuildResult, row: Refund, utxos: seq<Utxo>, rate: nat) {
      && (result == NotBuilt(false) <==> row.excessSat == 0)
      && (result == NotBuilt(true) <==> row.excessSat > 0 && Select.Total(utxos) < row.excessSat)
      && (result.TooSmallToSend? <==>
            row.excessSat > 0 && Select.Total(utxos) >= row.excessSat && Select.LeavesDust(utxos, row.excessSat, rate, Some(row.deposit)))
      && (result.BuiltTx? ==> SignedOn(row, row.(status := RefundSigned, signed := Some(result.tx), feeSat := result.feeSat,
                                                  bridgeFeeSat := result.bridgeFeeSat), utxos, rate))
    }

    /** The deposit's own coin is available, holds the excess, and the excess is worth a transaction. */
    static predicate WorthSending(own: Utxo, utxos: seq<Utxo>, row: Refund, rate: nat) {
      && own in utxos && own.outpoint == row.deposit && 0 < row.excessSat <= own.amountSat
      && !Select.IsRefundTooSmall(row.excessSat, rate)
    }

    /** A refund just queued by a decision is worth sending, from its own coin, as soon as its address is known. */
    static lemma NewRefundIsWorthSending(s: State, s': State, o: Outpoint, d: nat, m: nat, rate: nat, payee: string)
      requires m < d && Booked(s, s', o, d, m, rate) && !InPool(s.coins, o)
      ensures var row := s'.refunds[|s.refunds|];
        row.status.RefundQueued? ==> WorthSending(Utxo(o, d), AvailableUtxos(s'.coins), row.(address := Some(payee)), rate)
    {
      assert s'.coins[..|s.coins|] == s.coins;
    }

    static function Laid(plan: Select.RefundPlan, payee: string, changeIndex: nat): BuildResult {
      BuiltTx(PaymentTx(plan.built, payee, changeIndex), plan.built.feeSat, plan.bridgeFeeSat)
    }

    static lemma PlanSignable(s: State, r: nat, rate: nat, changeIndex: nat)
      requires DistinctCoins(s.coins) && IsNextChangeIndex(s, changeIndex)
      requires r < |s.refunds| && s.refunds[r].status.RefundQueued? && s.refunds[r].address.Some?
      ensures var row := s.refunds[r];
        var plan := Select.PlanOf(AvailableUtxos(s.coins), row.excessSat, rate, Some(row.deposit));
        plan.Ok? ==>
          var result := Laid(plan.value, row.address.value, changeIndex);
          CanSignRefund(s, r, result.tx, result.feeSat, result.bridgeFeeSat) && NoRepeat(result.tx.inputs)
    {
      var row := s.refunds[r];
      var plan := Select.PlanOf(AvailableUtxos(s.coins), row.excessSat, rate, Some(row.deposit));
      Select.PlanOfHolds(AvailableUtxos(s.coins), row.excessSat, rate, Some(row.deposit));
      if plan.Ok? { BuiltIsPayable(s, plan.value.built, row.address.value, changeIndex); }
    }

    static lemma OwnCoinAlone(coins: seq<Coin>, own: Utxo, row: Refund, rate: nat, changeIndex: nat)
      requires DistinctCoins(coins) && WorthSending(own, AvailableUtxos(coins), row, rate) && row.address.Some?
      ensures var plan := Select.PlanOf(AvailableUtxos(coins), row.excessSat, rate, Some(row.deposit));
        plan.Ok? && SpendsOwn(Laid(plan.value, row.address.value, changeIndex), own, row.excessSat)
    {
      AvailableDistinct(coins);
      Select.RefundSpendsItsDeposit(AvailableUtxos(coins), own, row.excessSat, rate);
    }

    static predicate SpendsOwn(result: BuildResult, own: Utxo, excessSat: nat) {
      && result.BuiltTx? && result.tx.Signed? && result.tx.inputs == [own.outpoint]
      && result.tx.changeSat == (if own.amountSat - excessSat > Select.DUST_THRESHOLD_SAT then own.amountSat - excessSat else 0)
    }

    static lemma {:induction false} AvailableDistinct(coins: seq<Coin>)
      requires DistinctCoins(coins)
      ensures Select.DistinctOutpoints(AvailableUtxos(coins))
    {
      if coins != [] {
        var n := |coins| - 1;
        AvailableDistinct(coins[..n]);
        forall u | u in AvailableUtxos(coins[..n]) ensures u.outpoint != coins[n].outpoint {
          AvailableRow(coins[..n], u);
        }
      }
    }

    method WriteSignature(r: nat, t: Tx, feeSat: nat, bridgeFeeSat: nat)
      requires db.Valid() && CanSignRefund(db.Now(), r, t, feeSat, bridgeFeeSat) && DistinctCoins(db.coins) && NoRepeat(t.inputs)
      modifies db
      ensures db.Did(SignRefund(r, t, feeSat, bridgeFeeSat)) && db.coins == Reserve(old(db.coins), Inputs(t), ByRefund(r))
    {
      ghost var before := db.Now();
      var ok := db.ReserveInputs(t.inputs, ByRefund(r));
      assert ok;
      db.refunds := db.refunds[r := db.refunds[r].(status := RefundSigned, signed := Some(t), feeSat := feeSat, bridgeFeeSat := bridgeFeeSat)];
      db.Log(SignRefund(r, t, feeSat, bridgeFeeSat), before);
    }

    /** The pool may grow between building and writing; nothing is taken from it, so the inputs are still there. */
    method SignBuilt(r: nat, t: Tx, feeSat: nat, bridgeFeeSat: nat)
      requires db.Valid() && CanSignRefund(db.Now(), r, t, feeSat, bridgeFeeSat) && NoRepeat(t.inputs)
      modifies db
      ensures db.Ran() && db.mem == old(db.mem) && db.Requeued() && OthersReset(r)
      ensures db.refunds[r] == old(db.refunds)[r].(status := RefundSigned, signed := Some(t), feeSat := feeSat, bridgeFeeSat := bridgeFeeSat)
      ensures TakenFor(old(db.coins), db.coins, ByRefund(r))
    {
      ghost var read := db.Now();
      db.Unowned();
      db.TimePasses();
      db.Distinct();
      RefundSignableStill(read, db.Now(), r, t, feeSat, bridgeFeeSat);
      ReserveTakes(read.coins, db.coins, Inputs(t), ByRefund(r));
      WriteSignature(r, t, feeSat, bridgeFeeSat);
    }

    /** The other refunds are as they were, but perhaps handed back by a human. */
    twostate predicate OthersReset(r: nat)
      reads db`refunds
    {
      && |old(db.refunds)| <= |db.refunds|
      && forall q :: 0 <= q < |old(db.refunds)| && q != r ==> OnlyReset(old(db.refunds)[q], db.refunds[q])
    }

    /**
     * Signed, called too small, handed to a human, or left for another poll, each exactly when the pool and the node call
     * for it. When the transaction that would sign it fails, nothing is reserved and a human is called.
     */
    method SignOne(r: nat, unreachable: bool, dbFails: bool)
      requires db.Valid() && r < |db.refunds| && db.refunds[r].status.RefundQueued? && db.refunds[r].address.Some?
      modifies db
      ensures db.Ran() && db.mem == old(db.mem) && db.Requeued() && OthersReset(r)
      ensures SignOutcome(old(db.refunds)[r], db.refunds[r], AvailableUtxos(old(db.coins)), db.rate, unreachable, dbFails)
      // While the deposit's own coin is there, an excess worth sending is always signed, from that coin alone.
      ensures forall own | WorthSending(own, AvailableUtxos(old(db.coins)), old(db.refunds)[r], db.rate) && !unreachable && !dbFails ::
        db.refunds[r].signed.Some? && db.refunds[r].signed.value.Signed? && db.refunds[r].signed.value.inputs == [own.outpoint]
      ensures TakenFor(old(db.coins), db.coins, ByRefund(r))
    {
      var result := BuildTx(r);
      match result
      case BuiltTx(t, feeSat, bridgeFeeSat) =>
        if unreachable { return; }
        if dbFails { SetRow(r, ParkRefund(r, false)); } else { SignBuilt(r, t, feeSat, bridgeFeeSat); }
      case TooSmallToSend =>
        SetRow(r, ParkRefund(r, true));
      case NotBuilt(transient) =>
        if !transient { SetRow(r, ParkRefund(r, false)); }
    }

    /** One refund's turn. */
    method SignTurn(r: nat, row: Refund, round: Round)
      requires db.Valid() && r < |db.refunds| && OnlyReset(row, db.refunds[r])
      modifies db
      ensures db.Ran() && db.mem == old(db.mem) && db.Requeued() && OthersReset(r)
      ensures SignedAs(r, row, db.refunds[r], old(db.coins), round, db.rate)
      ensures TakenFor(old(db.coins), db.coins, ByRefund(r))
    {
      if round.autoSend && row.status.RefundQueued? && row.address.Some? && r in round.announced { SignOne(r, round.unreachable(r), round.signFails(r)); }
    }

    method SignQueued(round: Round) returns (ghost pools: seq<seq<Coin>>)
      requires db.Valid()
      modifies db
      ensures db.Ran() && db.mem == old(db.mem) && db.Requeued() && SignPass(old(db.Now()), db.Now(), pools, round, db.rate)
    {
      var start := db.refunds;
      ghost var pool := db.coins;
      pools := [];
      for r := 0 to |start|
        invariant db.Ran() && db.mem == old(db.mem) && db.Requeued() && |start| <= |db.refunds| && |pools| == r
        invariant TakenBelow(pool, db.coins, r, true) && forall q :: 0 <= q < r ==> TakenBelow(pool, pools[q], q, true)
        invariant forall q :: 0 <= q < r ==> SignedAs(q, start[q], db.refunds[q], pools[q], round, db.rate)
        invariant forall q :: r <= q < |start| ==> OnlyReset(start[q], db.refunds[q])
      {
        ghost var before, coins := db.refunds, db.coins;
        pools := pools + [coins];
        SignTurn(r, start[r], round);
        TakenNext(pool, coins, db.coins, r, true);
        forall q | 0 <= q < r ensures SignedAs(q, start[q], db.refunds[q], pools[q], round, db.rate) {
          SignedStill(q, start[q], before[q], db.refunds[q], pools[q], round, db.rate);
        }
      }
    }

    /** Spend the inputs and take the change back. */
    method Commit(r: nat)
      requires db.Valid() && r < |db.refunds| && db.refunds[r].status.RefundSigned? && db.refunds[r].signed.Some?
      modifies db
      ensures db.Did(CommitRefund(r))
    {
      ghost var before := db.Now();
      var row := db.refunds[r];
      db.refunds := db.refunds[r := row.(status := RefundBroadcast)];
      db.coins := Spend(db.coins, ByRefund(r)) + ChangeCoin(row.signed.value, FromRefund(r));
      db.Log(CommitRefund(r), before);
    }

    /**
     * A refund the node took, or already has, is recorded; one it refuses waits for a human with its inputs still
     * reserved; one it could not be asked about is sent again.
     */
    method BroadcastOne(r: nat, res: SendResult)
      requires db.Valid() && r < |db.refunds| && ToSend(db.refunds[r])
      modifies db
      ensures db.Ran() && db.mem == old(db.mem) && db.Requeued() && OthersReset(r)
      ensures db.refunds[r] == SentAs(old(db.refunds)[r], res)
      ensures PoolOneSent(old(db.coins), db.coins, old(db.refunds)[r], r, res)
      ensures !res.taken ==> db.coins == old(db.coins)
    {
      if res.taken {
        db.TimePasses();
        if !res.dbFails { RecordSent(r); }
      } else if !res.unreachable {
        SetRow(r, ParkSignedRefund(r));
      }
    }

    method RecordSent(r: nat)
      requires db.Valid() && r < |db.refunds| && ToSend(db.refunds[r])
      modifies db
      ensures db.Ran() && db.mem == old(db.mem) && db.withdrawals == old(db.withdrawals)
      ensures db.refunds == old(db.refunds)[r := old(db.refunds)[r].(status := RefundBroadcast)]
      ensures db.coins == Spend(old(db.coins), ByRefund(r)) + ChangeCoin(old(db.refunds)[r].signed.value, FromRefund(r))
      ensures ChangeTaken(db.coins, old(db.refunds)[r], r, SendResult(true, false, false))
    {
      Commit(r);
      var t := old(db.refunds)[r].signed.value;
      assert t.Signed? && t.changeSat > 0 ==> db.coins[|old(db.coins)|] == ChangeCoin(t, FromRefund(r))[0];
    }

    method SendTurn(r: nat, row: Refund, res: SendResult)
      requires db.Valid() && r < |db.refunds| && OnlyReset(row, db.refunds[r])
      modifies db
      ensures db.Ran() && db.mem == old(db.mem) && db.Requeued() && OthersReset(r) && SentRow(row, db.refunds[r], res)
      ensures if ToSend(row) then PoolOneSent(old(db.coins), db.coins, row, r, res) else db.coins == old(db.coins)
    {
      if row.status.RefundSigned? && row.signed.Some? { BroadcastOne(r, res); }
    }

    /** Every signed refund once, each as its own answer calls for. */
    method BroadcastSigned(sends: nat -> SendResult)
      requires db.Valid()
      modifies db
      ensures db.Ran() && db.mem == old(db.mem) && db.Requeued() && SendPass(old(db.Now()), db.Now(), sends)
    {
      var start := db.refunds;
      for r := 0 to |start|
        invariant db.Ran() && db.mem == old(db.mem) && db.Requeued() && |start| <= |db.refunds|
        invariant forall q :: 0 <= q < r ==> SentRow(start[q], db.refunds[q], sends(q))
        invariant forall q :: r <= q < |start| ==> OnlyReset(start[q], db.refunds[q])
        invariant PoolSent(old(db.coins), db.coins, start, r, sends)
      {
        ghost var pool := db.coins;
        SendTurn(r, start[r], sends(r));
        PoolSentNext(old(db.coins), pool, db.coins, start, r, sends);
      }
    }

    /** Exactly the broadcast refunds with three confirmations are confirmed. */
    method ConfirmBroadcast(confirmations: nat -> int)
      requires db.Valid()
      modifies db
      ensures db.Ran() && db.mem == old(db.mem) && db.Requeued()
      ensures ConfirmPass(old(db.Now()), db.Now(), confirmations)
    {
      for r := 0 to |db.refunds|
        invariant db.Ran() && db.mem == old(db.mem) && db.coins == old(db.coins) && db.Requeued() && |db.refunds| == |old(db.refunds)|
        invariant forall q :: r <= q < |db.refunds| ==> db.refunds[q] == old(db.refunds)[q]
        invariant forall q :: 0 <= q < r ==> db.refunds[q] == AfterCount(old(db.refunds)[q], confirmations(q))
      {
        if db.refunds[r].status.RefundBroadcast? && confirmations(r) >= REFUND_MIN_CONFIRMATIONS { SetRow(r, ConfirmRefund(r)); }
      }
    }

    /** The jobs in order; a job that fails does not stop the next. */
    method Poll(round: Round) returns (ghost t: Stops)
      requires db.Valid()
      modifies db
      ensures db.Ran() && db.mem == old(db.mem) && db.Requeued()
      ensures RoundDone(old(db.Now()), db.Now(), t, round, db.rate)
    {
      ghost var resolved, signing, pools := FirstHalf(round);
      ghost var signed := db.Now();
      ghost var sending, sent, confirming := SecondHalf(round);
      t := Stops(resolved, signing, pools, signed, sending, sent, confirming);
    }

    method FirstHalf(round: Round) returns (ghost resolved: State, ghost signing: State, ghost pools: seq<seq<Coin>>)
      requires db.Valid()
      modifies db
      ensures db.Ran() && db.mem == old(db.mem) && db.Requeued()
      ensures if round.runs(0) then ResolvePass(old(db.Now()), resolved, round.answers) else resolved == old(db.Now())
      ensures Undisturbed(resolved, signing)
      ensures if round.runs(1) then SignPass(signing, db.Now(), pools, round, db.rate) else db.Now() == signing
    {
      if round.runs(0) { ResolveSenders(round.answers); }
      resolved := db.Now();
      db.TimePasses();
      signing, pools := db.Now(), [];
      if round.runs(1) { pools := SignQueued(round); }
    }

    method SendLater(round: Round) returns (ghost sending: State)
      requires db.Valid()
      modifies db
      ensures db.Ran() && db.mem == old(db.mem) && db.Requeued() && Undisturbed(old(db.Now()), sending)
      ensures if round.runs(2) then SendPass(sending, db.Now(), round.sends) else db.Now() == sending
    {
      db.TimePasses();
      sending := db.Now();
      if round.runs(2) { BroadcastSigned(round.sends); }
    }

    method SecondHalf(round: Round) returns (ghost sending: State, ghost sent: State, ghost confirming: State)
      requires db.Valid()
      modifies db
      ensures db.Ran() && db.mem == old(db.mem) && db.Requeued() && Undisturbed(old(db.Now()), sending)
      ensures if round.runs(2) then SendPass(sending, sent, round.sends) else sent == sending
      ensures Undisturbed(sent, confirming)
      ensures if round.runs(3) then ConfirmPass(confirming, db.Now(), round.confirmations) else db.Now() == confirming
    {
      sending := SendLater(round);
      sent := db.Now();
      db.TimePasses();
      confirming := db.Now();
      if round.runs(3) { ConfirmBroadcast(round.confirmations); }
    }
  }
}
