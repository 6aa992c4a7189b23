/**
 * The pool of coins and everything that moves through it: deposits, burns, payouts and refunds
 * (backend/src/executor/payout-executor.ts, refund-executor.ts). Every database transaction, node
 * answer, operator step and crash is one action.
 */
module Ledger {
  import opened Coins
  import opened Sums
  import Select = CoinSelection

  const MAX_SEND_ATTEMPTS := 240

  // ── Rows ─────────────────────────────────────────────────────────────────

  datatype Owner = NoOwner | ByPayout(order: nat) | ByRefund(refund: nat)
  datatype Source = FromDeposit(deposit: nat) | FromPayout(order: nat) | FromRefund(refund: nat)
  datatype Status = Available | Reserved | Spent

  /** changeIndex: the position on the change path, for change coins. */
  datatype Coin = Coin(outpoint: Outpoint, amountSat: nat, changeIndex: Option<nat>, source: Source, status: Status, owner: Owner)

  datatype OutboundState = Burned | BurnConfirmed | Queued | Signed | Broadcast | Confirmed | Completed | ManualReview

  /** What the append-only audit trail holds about one order's payout. */
  datatype Event = SignedEvent(tx: Tx) | AttemptEvent(tx: Tx) | RefusedEvent(tx: Tx) | RetryEvent

  /**
   * What really became of sends, which no table holds. MaybeSent: a recorded attempt the node did not
   * definitely refuse. NeverSent: recorded, but the process died before sending. RefusalLost: refused, but
   * the refusal was not written down. Resent: a broadcast payout sent again.
   */
  datatype Fact = MaybeSent(tx: Tx) | NeverSent(tx: Tx) | RefusalLost(tx: Tx) | Resent(tx: Tx)

  datatype Payout = Payout(feeSat: nat, txid: Option<Tx>)

  /** A burn on Gnosis and, once ingested, its order. */
  datatype Withdrawal = Withdrawal(amountSat: nat, payee: string, state: OutboundState, payout: Option<Payout>,
                                   log: seq<Event>, history: seq<Fact>)

  datatype Deposit = Deposit(outpoint: Outpoint, amountSat: nat, mintSat: nat, minted: bool)

  datatype RefundStatus = RefundQueued | TooSmall | NeedsAttention | RefundSigned | RefundBroadcast | RefundConfirmed

  datatype Refund = Refund(deposit: Outpoint, excessSat: nat, address: Option<string>, status: RefundStatus,
                           signed: Option<Tx>, feeSat: nat, bridgeFeeSat: nat)

  datatype Outcome = Pending | Accepted | Refused(transient: bool) | RefusalSettled(transient: bool) | Failed(transient: bool)

  /** The send the process is in the middle of, with the history it read when it recorded the attempt. */
  datatype InFlight = InFlight(order: nat, tx: Tx, thisTx: int, sinceRetry: nat, retried: bool, outcome: Outcome)

  datatype State = State(coins: seq<Coin>, withdrawals: seq<Withdrawal>, deposits: seq<Deposit>, refunds: seq<Refund>,
                         supplySat: nat, mem: Option<InFlight>)

  // ── Reading the audit trail ──────────────────────────────────────────────

  function Newest(log: seq<Event>): Option<Tx> {
    if log == [] then None
    else if log[|log| - 1].SignedEvent? then Some(log[|log| - 1].tx) else Newest(log[..|log| - 1])
  }

  /** Attempts at this transaction minus recorded refusals of it. */
  function Balance(log: seq<Event>, t: Tx): int {
    if log == [] then 0
    else
      var e := log[|log| - 1];
      Balance(log[..|log| - 1], t) + if e == AttemptEvent(t) then 1 else if e == RefusedEvent(t) then -1 else 0
  }

  function SinceRetry(log: seq<Event>, t: Tx): nat {
    if log == [] || log[|log| - 1].RetryEvent? then 0
    else SinceRetry(log[..|log| - 1], t) + if log[|log| - 1] == AttemptEvent(t) then 1 else 0
  }

  predicate Retried(log: seq<Event>) {
    exists k :: 0 <= k < |log| && log[k].RetryEvent?
  }

  /** The entries that are this event. */
  function Places(log: seq<Event>, e: Event): set<nat> {
    set k: nat | k < |log| && log[k] == e
  }

  predicate NoRetryAfter(log: seq<Event>, k: nat) {
    forall j :: k < j < |log| ==> !log[j].RetryEvent?
  }

  /** ...and those no operator retry comes after. */
  function PlacesSinceRetry(log: seq<Event>, e: Event): set<nat> {
    set k: nat | k < |log| && log[k] == e && NoRetryAfter(log, k)
  }

  lemma PlacesSnoc(log: seq<Event>, e: Event)
    requires log != []
    ensures var n := |log| - 1;
      && Places(log, e) == Places(log[..n], e) + (if log[n] == e then {n} else {}) && n !in Places(log[..n], e)
      && n !in PlacesSinceRetry(log[..n], e)
      && (!log[n].RetryEvent? ==> PlacesSinceRetry(log, e) == PlacesSinceRetry(log[..n], e) + if log[n] == e then {n} else {})
  {
    var n := |log| - 1;
    forall k: nat | k < n && !log[n].RetryEvent? ensures NoRetryAfter(log, k) <==> NoRetryAfter(log[..n], k) {
      if NoRetryAfter(log[..n], k) {
        forall j | k < j < n ensures !log[j].RetryEvent? { assert !log[..n][j].RetryEvent?; }
      }
    }
  }

  /** What is read back from the trail: the attempts less the refusals, and the attempts since the last retry. */
  lemma {:induction false} HistoryCounts(log: seq<Event>, t: Tx)
    ensures Balance(log, t) == |Places(log, AttemptEvent(t))| - |Places(log, RefusedEvent(t))|
    ensures SinceRetry(log, t) == |PlacesSinceRetry(log, AttemptEvent(t))|
  {
    if log == [] {
      assert Places(log, AttemptEvent(t)) == Places(log, RefusedEvent(t)) == PlacesSinceRetry(log, AttemptEvent(t)) == {};
    } else {
      HistoryCounts(log[..|log| - 1], t);
      PlacesSnoc(log, AttemptEvent(t));
      PlacesSnoc(log, RefusedEvent(t));
      if log[|log| - 1].RetryEvent? { assert PlacesSinceRetry(log, AttemptEvent(t)) == {}; }
    }
  }

  /** How many recorded attempts at this transaction are known not to be recorded refusals. */
  function Facts(history: seq<Fact>, t: Tx): nat {
    if history == [] then 0
    else
      var f := history[|history| - 1];
      Facts(history[..|history| - 1], t) + if f.tx == t && !f.Resent? then 1 else 0
  }

  /** An attempt whose answer is still out, or whose refusal is not written down yet. */
  function Unsettled(mem: Option<InFlight>, i: nat, t: Tx): nat {
    if mem.Some? && mem.value.order == i && mem.value.tx == t && (mem.value.outcome.Pending? || mem.value.outcome.Refused?)
    then 1 else 0
  }

  predicate OnNetwork(f: Fact) {
    f.MaybeSent? || f.Resent?
  }

  // ── Coins ────────────────────────────────────────────────────────────────

  function AsSet(os: seq<Outpoint>): set<Outpoint> {
    set o | o in os
  }

  function Inputs(t: Tx): set<Outpoint> {
    if t.Signed? then AsSet(t.inputs) else {}
  }

  predicate InPool(coins: seq<Coin>, o: Outpoint) {
    exists k :: 0 <= k < |coins| && coins[k].outpoint == o
  }

  function AvailableOutpoints(coins: seq<Coin>): set<Outpoint> {
    set k | 0 <= k < |coins| && coins[k].status.Available? :: coins[k].outpoint
  }

  function Owned(coins: seq<Coin>, who: Owner): set<Outpoint> {
    set k | 0 <= k < |coins| && coins[k].owner == who :: coins[k].outpoint
  }

  function OwnedRow(coins: seq<Coin>, who: Owner): nat -> int {
    (k: nat) => if k < |coins| && coins[k].owner == who then coins[k].amountSat else 0
  }

  function OwnedSat(coins: seq<Coin>, who: Owner): int {
    SumTo(OwnedRow(coins, who), |coins|)
  }

  function PickedRow(coins: seq<Coin>, picks: set<Outpoint>): nat -> int {
    (k: nat) => if k < |coins| && coins[k].outpoint in picks then coins[k].amountSat else 0
  }

  function PickedSat(coins: seq<Coin>, picks: set<Outpoint>): int {
    SumTo(PickedRow(coins, picks), |coins|)
  }

  function StatusRow(coins: seq<Coin>, st: Status): nat -> int {
    (k: nat) => if k < |coins| && coins[k].status == st then coins[k].amountSat else 0
  }

  function StatusSat(coins: seq<Coin>, st: Status): int {
    SumTo(StatusRow(coins, st), |coins|)
  }

  function UnspentRow(coins: seq<Coin>): nat -> int {
    (k: nat) => if k < |coins| && !coins[k].status.Spent? then coins[k].amountSat else 0
  }

  /** What the pool holds, reserved or not. */
  function UnspentSat(coins: seq<Coin>): int {
    SumTo(UnspentRow(coins), |coins|)
  }

  function Reserve(coins: seq<Coin>, picks: set<Outpoint>, who: Owner): seq<Coin> {
    seq(|coins|, k requires 0 <= k < |coins| =>
      if coins[k].outpoint in picks then coins[k].(status := Reserved, owner := who) else coins[k])
  }

  function Release(coins: seq<Coin>, who: Owner): seq<Coin> {
    seq(|coins|, k requires 0 <= k < |coins| =>
      if coins[k].owner == who then coins[k].(status := Available, owner := NoOwner) else coins[k])
  }

  function Spend(coins: seq<Coin>, who: Owner): seq<Coin> {
    seq(|coins|, k requires 0 <= k < |coins| =>
      if coins[k].owner == who then coins[k].(status := Spent) else coins[k])
  }

  function ChangeCoin(t: Tx, source: Source): seq<Coin> {
    if t.Signed? && t.changeSat > 0 then [Coin(Outpoint(t, 1), t.changeSat, Some(t.changeIndex), source, Available, NoOwner)] else []
  }

  // ── Change indexes ───────────────────────────────────────────────────────

  /** A place where a signed transaction is recorded. */
  datatype Site = InLog(order: nat, at: nat) | InRefund(refund: nat)

  function ChangeIndexOf(t: Tx): Option<nat> {
    if t.Signed? && t.changeSat > 0 then Some(t.changeIndex) else None
  }

  function IndexAt(ws: seq<Withdrawal>, rs: seq<Refund>, a: Site): Option<nat> {
    match a
    case InLog(i, p) => if i < |ws| && p < |ws[i].log| && ws[i].log[p].SignedEvent? then ChangeIndexOf(ws[i].log[p].tx) else None
    case InRefund(r) => if r < |rs| && rs[r].signed.Some? then ChangeIndexOf(rs[r].signed.value) else None
  }

  /** Above every change coin's index and every index ever signed with, and by no more than it has to be. */
  ghost predicate IsNextChangeIndex(s: State, n: nat) {
    && (forall a :: IndexAt(s.withdrawals, s.refunds, a).Some? ==> IndexAt(s.withdrawals, s.refunds, a).value < n)
    && (forall k :: 0 <= k < |s.coins| && s.coins[k].changeIndex.Some? ==> s.coins[k].changeIndex.value < n)
    && (n > 0 ==>
          || (exists a :: IndexAt(s.withdrawals, s.refunds, a) == Some(n - 1))
          || (exists k :: 0 <= k < |s.coins| && s.coins[k].changeIndex == Some(n - 1)))
  }

  // ── Actions ──────────────────────────────────────────────────────────────

  datatype Action =
    // The chains and the other jobs
    | DepositDecided(outpoint: Outpoint, amountSat: nat, mintSat: nat)
    | MintExecuted(deposit: nat)
    | Burn(amountSat: nat, payee: string)
    | ConfirmBurn(order: nat)
    | QueueBurn(order: nat)
    // Operators
    | Requeue(order: nat)
    | OperatorRefund(refund: nat, address: string)
    // Payouts
    | ParkQueued(order: nat)
    | RetrySameTx(order: nat)
    | SignPayout(order: nat, tx: Tx, feeSat: nat)
    | RecordAttempt(order: nat)
    | Answered(outcome: Outcome)
    | RecordRefusal(written: bool)
    | ParkAndRelease
    | ParkHeld
    | CommitBroadcast(nodeHasIt: bool)
    | Resend(order: nat)
    | ParkBroadcast(order: nat)
    | Confirm(order: nat)
    | Complete(order: nat)
    // Refunds
    | ResolveSender(refund: nat, sender: Option<string>)
    | ParkRefund(refund: nat, tooSmall: bool)
    | SignRefund(refund: nat, tx: Tx, feeSat: nat, bridgeFeeSat: nat)
    | ParkSignedRefund(refund: nat)
    | CommitRefund(refund: nat)
    | ConfirmRefund(refund: nat)
    // The send in progress is dropped: retried later, or the process died. sent: whether it got out unseen.
    | Forget(sent: bool)

  /** Steps the pool's own executors do not take. */
  predicate IsOutside(a: Action) {
    a.DepositDecided? || a.MintExecuted? || a.Burn? || a.ConfirmBurn? || a.QueueBurn? || a.Requeue? || a.OperatorRefund?
  }

  predicate OutsideEnabled(s: State, a: Action)
    requires IsOutside(a)
  {
    match a
    case DepositDecided(o, d, m) => o.txid.Arriving? && m <= d && d > 0
    case MintExecuted(d) => d < |s.deposits| && !s.deposits[d].minted
    case Burn(amount, _) => amount <= s.supplySat
    case ConfirmBurn(i) => i < |s.withdrawals| && s.withdrawals[i].state.Burned?
    case QueueBurn(i) => i < |s.withdrawals| && s.withdrawals[i].state.BurnConfirmed?
    case Requeue(i) => i < |s.withdrawals| && s.withdrawals[i].state.ManualReview?
    case OperatorRefund(r, _) => r < |s.refunds| && s.refunds[r].status.NeedsAttention?
  }

  predicate Payable(s: State, t: Tx, feeSat: nat) {
    && t.Signed? && t.inputs != [] && Inputs(t) <= AvailableOutpoints(s.coins)
    && PickedSat(s.coins, Inputs(t)) == t.recipientSat + t.changeSat + feeSat
    && (t.changeSat == 0 || t.changeSat > Select.DUST_THRESHOLD_SAT)
  }

  /** A payout of exactly the burned amount to exactly the burn's destination. */
  ghost predicate CanSignPayout(s: State, i: nat, t: Tx, feeSat: nat) {
    && i < |s.withdrawals| && CanSign(s.withdrawals[i], Owned(s.coins, ByPayout(i)))
    && Payable(s, t, feeSat) && t.recipientSat == s.withdrawals[i].amountSat && t.payee == s.withdrawals[i].payee
    && (t.changeSat > 0 ==> IsNextChangeIndex(s, t.changeIndex))
  }

  /** A refund costs the pool the excess and the bridge's sliver of fee, no more. */
  ghost predicate CanSignRefund(s: State, r: nat, t: Tx, feeSat: nat, bridgeFeeSat: nat) {
    && r < |s.refunds| && s.refunds[r].status.RefundQueued?
    && Payable(s, t, feeSat) && s.refunds[r].address == Some(t.payee) && t.recipientSat + feeSat == s.refunds[r].excessSat + bridgeFeeSat
    && (t.changeSat > 0 ==> IsNextChangeIndex(s, t.changeIndex))
  }

  ghost predicate Enabled(s: State, a: Action) {
    match a
    case ParkQueued(i) => i < |s.withdrawals| && s.withdrawals[i].state.Queued?
    case RetrySameTx(i) => i < |s.withdrawals| && CanRetry(s.withdrawals[i], Owned(s.coins, ByPayout(i)))
    case SignPayout(i, t, fee) => CanSignPayout(s, i, t, fee)
    case RecordAttempt(i) =>
      s.mem.None? && i < |s.withdrawals| && s.withdrawals[i].state.Signed? && Newest(s.withdrawals[i].log).Some?
      && s.withdrawals[i].payout.Some? && s.withdrawals[i].payout.value.txid.None?
    case Answered(outcome) => InHand(s) && s.mem.value.outcome.Pending? && (outcome.Accepted? || outcome.Refused? || outcome.Failed?)
    case RecordRefusal(_) => InHand(s) && s.mem.value.outcome.Refused?
    case ParkAndRelease => InHand(s) && s.mem.value.outcome.RefusalSettled? && s.mem.value.thisTx == 0 && !s.mem.value.retried
    case ParkHeld =>
      && InHand(s) && (s.mem.value.outcome.Failed? || s.mem.value.outcome.RefusalSettled?)
      && !(s.mem.value.outcome.transient && s.mem.value.sinceRetry + 1 < MAX_SEND_ATTEMPTS)
    case CommitBroadcast(nodeHasIt) =>
      && InHand(s) && s.withdrawals[s.mem.value.order].payout.Some?
      && (s.mem.value.outcome.Accepted? || (nodeHasIt && (s.mem.value.outcome.Failed? || s.mem.value.outcome.Refused?)))
    case Resend(i) => i < |s.withdrawals| && s.withdrawals[i].state.Broadcast? && Sent(s.withdrawals[i])
    case ParkBroadcast(i) => i < |s.withdrawals| && s.withdrawals[i].state.Broadcast?
    case Confirm(i) => i < |s.withdrawals| && s.withdrawals[i].state.Broadcast?
    case Complete(i) => i < |s.withdrawals| && s.withdrawals[i].state.Confirmed?
    case ResolveSender(r, _) => r < |s.refunds| && s.refunds[r].status.RefundQueued? && s.refunds[r].address.None?
    case ParkRefund(r, _) => r < |s.refunds| && s.refunds[r].status.RefundQueued?
    case SignRefund(r, t, fee, bridge) => CanSignRefund(s, r, t, fee, bridge)
    case ParkSignedRefund(r) => r < |s.refunds| && s.refunds[r].status.RefundSigned?
    case CommitRefund(r) => r < |s.refunds| && s.refunds[r].status.RefundSigned? && s.refunds[r].signed.Some?
    case ConfirmRefund(r) => r < |s.refunds| && s.refunds[r].status.RefundBroadcast?
    case Forget(_) => true
    case _ => OutsideEnabled(s, a)
  }

  predicate InHand(s: State) {
    s.mem.Some? && s.mem.value.order < |s.withdrawals|
  }

  predicate Sent(w: Withdrawal) {
    w.payout.Some? && w.payout.value.txid.Some?
  }

  predicate RefundSent(r: Refund) {
    r.status.RefundBroadcast? || r.status.RefundConfirmed?
  }

  /** Signed before, never broadcast, inputs still held: the same transaction may go out again. */
  predicate CanRetry(w: Withdrawal, owned: set<Outpoint>) {
    w.state.Queued? && w.payout.Some? && w.payout.value.txid.None? && owned != {}
  }

  /** Never signed, or signed but never broadcast and its inputs released. */
  predicate CanSign(w: Withdrawal, owned: set<Outpoint>) {
    w.state.Queued? && owned == {} && (w.payout.None? || w.payout.value.txid.None?)
  }

  function SetOrder(s: State, i: nat, w: Withdrawal): State
    requires i < |s.withdrawals|
  {
    s.(withdrawals := s.withdrawals[i := w])
  }

  function SetState(s: State, i: nat, st: OutboundState): State
    requires i < |s.withdrawals|
  {
    SetOrder(s, i, s.withdrawals[i].(state := st))
  }

  function SetRefund(s: State, r: nat, row: Refund): State
    requires r < |s.refunds|
  {
    s.(refunds := s.refunds[r := row])
  }

  /** What dropping a send leaves behind as history. */
  function Leftover(m: InFlight, sent: bool): seq<Fact> {
    match m.outcome
    case Pending => [if sent then MaybeSent(m.tx) else NeverSent(m.tx)]
    case Refused(_) => [RefusalLost(m.tx)]
    case _ => []
  }

  /** The coin enters the pool once, whatever is decided for its output again: ON CONFLICT (txid, vout) DO NOTHING. */
  function DepositCoin(s: State, o: Outpoint, d: nat): seq<Coin> {
    if InPool(s.coins, o) then [] else [Coin(o, d, None, FromDeposit(|s.deposits|), Available, NoOwner)]
  }

  function AfterDeposit(rate: nat, s: State, o: Outpoint, d: nat, m: nat): State
    requires m <= d
  {
    var excess := d - m;
    s.(coins := s.coins + DepositCoin(s, o, d),
       deposits := s.deposits + [Deposit(o, d, m, false)],
       refunds := if excess > 0
                  then s.refunds + [Refund(o, excess, None, if Select.IsRefundTooSmall(excess, rate) then TooSmall else RefundQueued, None, 0, 0)]
                  else s.refunds)
  }

  /**
   * What a decision on a deposit leaves in the tables: the deposit, its coin unless its output is in the pool already,
   * and, for an excess, one refund row that nothing was done for yet. The row is too small exactly when the fee of a
   * transaction with one input and two outputs leaves dust or less of it.
   */
  predicate Booked(s: State, s': State, o: Outpoint, d: nat, m: nat, rate: nat)
    requires m <= d
  {
    && s' == s.(coins := s'.coins, deposits := s'.deposits, refunds := s'.refunds)
    && s'.deposits == s.deposits + [Deposit(o, d, m, false)]
    && (if exists k :: 0 <= k < |s.coins| && s.coins[k].outpoint == o then s'.coins == s.coins
        else s'.coins == s.coins + [Coin(o, d, None, FromDeposit(|s.deposits|), Available, NoOwner)])
    && (if d == m then s'.refunds == s.refunds
        else
          && |s'.refunds| == |s.refunds| + 1 && s'.refunds[..|s.refunds|] == s.refunds
          && IsNewRefund(s'.refunds[|s.refunds|], o, d - m, rate))
  }

  predicate IsNewRefund(row: Refund, o: Outpoint, excess: nat, rate: nat) {
    && row.deposit == o && row.excessSat == excess && row.address.None? && row.signed.None? && row.feeSat == 0 && row.bridgeFeeSat == 0
    && (row.status.TooSmall? || row.status.RefundQueued?)
    && (row.status.TooSmall? <==> excess - Select.EstimateFee(1, 2, rate) <= Select.DUST_THRESHOLD_SAT)
  }

  lemma AfterDepositBooks(rate: nat, s: State, o: Outpoint, d: nat, m: nat)
    requires m <= d
    ensures Booked(s, AfterDeposit(rate, s, o, d, m), o, d, m, rate)
  {
    assert InPool(s.coins, o) ==> s.coins + [] == s.coins;
  }

  function AfterSignPayout(s: State, i: nat, t: Tx, fee: nat): State
    requires i < |s.withdrawals|
  {
    var w := s.withdrawals[i];
    SetOrder(s, i, w.(state := OutboundState.Signed, payout := Some(Payout(fee, None)), log := w.log + [SignedEvent(t)]))
      .(coins := Reserve(s.coins, Inputs(t), ByPayout(i)))
  }

  function AfterAttempt(s: State, i: nat): State
    requires i < |s.withdrawals| && Newest(s.withdrawals[i].log).Some?
  {
    var w := s.withdrawals[i];
    var t := Newest(w.log).value;
    SetOrder(s, i, w.(log := w.log + [AttemptEvent(t)]))
      .(mem := Some(InFlight(i, t, Balance(w.log, t), SinceRetry(w.log, t), Retried(w.log), Pending)))
  }

  function AfterAnswer(s: State, outcome: Outcome): State
    requires InHand(s)
  {
    var m := s.mem.value;
    var w := s.withdrawals[m.order];
    SetOrder(s, m.order, if outcome.Refused? then w else w.(history := w.history + [MaybeSent(m.tx)]))
      .(mem := Some(m.(outcome := outcome)))
  }

  function AfterRefusal(s: State, written: bool): State
    requires InHand(s) && s.mem.value.outcome.Refused?
  {
    var m := s.mem.value;
    var w := s.withdrawals[m.order];
    SetOrder(s, m.order, if written then w.(log := w.log + [RefusedEvent(m.tx)]) else w.(history := w.history + [RefusalLost(m.tx)]))
      .(mem := Some(m.(outcome := RefusalSettled(m.outcome.transient))))
  }

  function AfterRelease(s: State): State
    requires InHand(s)
  {
    var i := s.mem.value.order;
    SetState(s, i, ManualReview).(coins := Release(s.coins, ByPayout(i)), mem := None)
  }

  function AfterCommit(s: State): State
    requires InHand(s) && s.withdrawals[s.mem.value.order].payout.Some?
  {
    var m := s.mem.value;
    var w := s.withdrawals[m.order];
    SetOrder(s, m.order, w.(state := Broadcast, payout := Some(w.payout.value.(txid := Some(m.tx))),
                            history := w.history + Leftover(m, false)))
      .(coins := Spend(s.coins, ByPayout(m.order)) + ChangeCoin(m.tx, FromPayout(m.order)), mem := None)
  }

  function AfterForget(s: State, sent: bool): State {
    if !InHand(s) then s.(mem := None)
    else
      var m := s.mem.value;
      var w := s.withdrawals[m.order];
      SetOrder(s, m.order, w.(history := w.history + Leftover(m, sent))).(mem := None)
  }

  function AfterSignRefund(s: State, r: nat, t: Tx, fee: nat, bridge: nat): State
    requires r < |s.refunds|
  {
    SetRefund(s, r, s.refunds[r].(status := RefundSigned, signed := Some(t), feeSat := fee, bridgeFeeSat := bridge))
      .(coins := Reserve(s.coins, Inputs(t), ByRefund(r)))
  }

  function AfterCommitRefund(s: State, r: nat): State
    requires r < |s.refunds| && s.refunds[r].signed.Some?
  {
    SetRefund(s, r, s.refunds[r].(status := RefundBroadcast))
      .(coins := Spend(s.coins, ByRefund(r)) + ChangeCoin(s.refunds[r].signed.value, FromRefund(r)))
  }

  function OutsideNext(rate: nat, s: State, a: Action): State
    requires IsOutside(a) && OutsideEnabled(s, a)
  {
    match a
    case DepositDecided(o, d, m) => AfterDeposit(rate, s, o, d, m)
    case MintExecuted(d) =>
      s.(deposits := s.deposits[d := s.deposits[d].(minted := true)], supplySat := s.supplySat + s.deposits[d].mintSat)
    case Burn(amount, payee) =>
      s.(supplySat := s.supplySat - amount, withdrawals := s.withdrawals + [Withdrawal(amount, payee, Burned, None, [], [])])
    case ConfirmBurn(i) => SetState(s, i, BurnConfirmed)
    case QueueBurn(i) => SetState(s, i, Queued)
    case Requeue(i) => SetState(s, i, Queued)
    case OperatorRefund(r, address) =>
      SetRefund(s, r, if s.refunds[r].signed.Some? then s.refunds[r].(status := RefundSigned)
                      else s.refunds[r].(status := RefundQueued, address := Some(address)))
  }

  ghost function Next(rate: nat, s: State, a: Action): State
    requires Enabled(s, a)
  {
    match a
    case ParkQueued(i) => SetState(s, i, ManualReview)
    case RetrySameTx(i) => SetOrder(s, i, s.withdrawals[i].(state := OutboundState.Signed, log := s.withdrawals[i].log + [RetryEvent]))
    case SignPayout(i, t, fee) => AfterSignPayout(s, i, t, fee)
    case RecordAttempt(i) => AfterAttempt(s, i)
    case Answered(outcome) => AfterAnswer(s, outcome)
    case RecordRefusal(written) => AfterRefusal(s, written)
    case ParkAndRelease => AfterRelease(s)
    case ParkHeld => SetState(s, s.mem.value.order, ManualReview).(mem := None)
    case CommitBroadcast(_) => AfterCommit(s)
    case Resend(i) =>
      SetOrder(s, i, s.withdrawals[i].(history := s.withdrawals[i].history + [Resent(s.withdrawals[i].payout.value.txid.value)]))
    case ParkBroadcast(i) => SetState(s, i, ManualReview)
    case Confirm(i) => SetState(s, i, Confirmed)
    case Complete(i) => SetState(s, i, Completed)
    case ResolveSender(r, address) =>
      SetRefund(s, r, if address.Some? then s.refunds[r].(address := address) else s.refunds[r].(status := NeedsAttention))
    case ParkRefund(r, tooSmall) => SetRefund(s, r, s.refunds[r].(status := if tooSmall then TooSmall else NeedsAttention))
    case SignRefund(r, t, fee, bridge) => AfterSignRefund(s, r, t, fee, bridge)
    case ParkSignedRefund(r) => SetRefund(s, r, s.refunds[r].(status := NeedsAttention))
    case CommitRefund(r) => AfterCommitRefund(s, r)
    case ConfirmRefund(r) => SetRefund(s, r, s.refunds[r].(status := RefundConfirmed))
    case Forget(sent) => AfterForget(s, sent)
    case _ => OutsideNext(rate, s, a)
  }
}
