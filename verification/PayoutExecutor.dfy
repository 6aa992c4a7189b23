/**
 * The payout executor's jobs (backend/src/executor/payout-executor.ts): sign, broadcast, confirm. Each
 * database transaction and each node answer is one step of the ledger, so every run of these jobs is a
 * run of it. The node's answers, failed transactions and the process dying are chosen freely.
 */
module PayoutExecutor {
  import opened Coins
  import opened Database
  import opened Destination
  import opened Ledger
  import opened LedgerCoins
  import opened LedgerInvariant
  import opened LedgerRuns
  import opened LedgerSteps
  import opened PoolSelection
  import Refunds = RefundExecutor
  import Select = CoinSelection

  const PAYOUT_MIN_CONFIRMATIONS := 3
  const RESEND_FORGOTTEN_AFTER_MS := 600_000
  const RESEND_FORGOTTEN_MAX_FAILURES := 3

  datatype NodeAnswer = InMempool | InChain | No | Unreachable
  datatype Check = Clear | Defer | Refuse
  datatype ResendAnswer = Taken | AlreadyMined | Silent | RefusedAgain
  datatype ResendState = ResendState(last: int, failures: nat)

  /** What is seen of one broadcast payout, and which of its two transactions get written. */
  datatype Look = Look(confirmations: int, inPool: NodeAnswer, nowMs: int, tooRecent: bool, resend: ResendAnswer,
                       confirmWritten: bool, completeWritten: bool)

  /**
   * All that comes from outside in one round: the node, the burn check, failing transactions, and where a job throws.
   * No look at a payout: the node could not be asked about it.
   */
  datatype Round = Round(node: Tx -> NodeAnswer, inputs: Tx -> Check, burn: nat -> Check, signFails: nat -> bool, stop: nat, queueThrew: bool,
                         recorded: nat -> bool, replies: nat -> Option<Reply>, sent: bool, sendThrew: bool,
                         looks: nat -> Option<Look>)

  // ── What a job may do to one row ─────────────────────────────────────────

  /** The node knows nothing this log signed. */
  predicate NoneOut(log: seq<Event>, node: Tx -> NodeAnswer, inputs: Tx -> Check) {
    forall p :: 0 <= p < |log| && log[p].SignedEvent? ==> node(log[p].tx).No? && inputs(log[p].tx).Clear?
  }

  predicate IsPayable(w: Withdrawal, payoutMinSat: nat) {
    !Unpayable(w.payee) && w.amountSat > payoutMinSat
  }

  /** The amount is above dust and some choice of these coins pays it and its own fee. */
  ghost predicate CanAfford(utxos: seq<Utxo>, amountSat: nat, rate: nat) {
    amountSat > Select.DUST_THRESHOLD_SAT && exists pick :: Select.Sufficient(pick, utxos, amountSat, rate)
  }

  predicate Pays(e: Event, w: Withdrawal) {
    e.SignedEvent? && e.tx.Signed? && e.tx.recipientSat == w.amountSat && e.tx.payee == w.payee
  }

  /** What the node says of one signed transaction, and, if it knows nothing of it, what became of its inputs. */
  function TxVerdict(has: NodeAnswer, inputs: Check): Check {
    match has
    case Unreachable => Defer
    case InMempool => Refuse
    case InChain => Refuse
    case No => inputs
  }

  /** The first signed transaction that is not clear decides. */
  function LogVerdict(log: seq<Event>, node: Tx -> NodeAnswer, inputs: Tx -> Check): Check {
    if log == [] then Clear
    else
      var e, before := log[|log| - 1], LogVerdict(log[..|log| - 1], node, inputs);
      if before.Clear? && e.SignedEvent? then TxVerdict(node(e.tx), inputs(e.tx)) else before
  }

  lemma {:induction false} VerdictOfTail(log: seq<Event>, node: Tx -> NodeAnswer, inputs: Tx -> Check)
    requires log != []
    ensures var first := if log[0].SignedEvent? then TxVerdict(node(log[0].tx), inputs(log[0].tx)) else Clear;
      LogVerdict(log, node, inputs) == if first.Clear? then LogVerdict(log[1..], node, inputs) else first
  {
    var n := |log| - 1;
    if n == 0 {
      assert log[..0] == [] && log[1..] == [];
    } else {
      VerdictOfTail(log[..n], node, inputs);
      assert log[..n][1..] == log[1..][..n - 1];
    }
  }

  /** Everything signed before this one is clear. */
  predicate IsFirstOpen(log: seq<Event>, p: nat, node: Tx -> NodeAnswer, inputs: Tx -> Check) {
    p < |log| && log[p].SignedEvent? && NoneOut(log[..p], node, inputs)
  }

  /** The first one that is not clear is out, or something spent its inputs. */
  predicate RefusedAt(log: seq<Event>, p: nat, node: Tx -> NodeAnswer, inputs: Tx -> Check) {
    && IsFirstOpen(log, p, node, inputs)
    && var t := log[p].tx; node(t).InMempool? || node(t).InChain? || (node(t).No? && inputs(t).Refuse?)
  }

  /** The node could not be asked about the first one that is not clear. */
  predicate DeferredAt(log: seq<Event>, p: nat, node: Tx -> NodeAnswer, inputs: Tx -> Check) {
    && IsFirstOpen(log, p, node, inputs)
    && var t := log[p].tx; node(t).Unreachable? || (node(t).No? && inputs(t).Defer?)
  }

  lemma {:induction false} LogVerdictMeans(log: seq<Event>, node: Tx -> NodeAnswer, inputs: Tx -> Check)
    ensures LogVerdict(log, node, inputs).Clear? <==> NoneOut(log, node, inputs)
    ensures LogVerdict(log, node, inputs).Refuse? <==> exists p: nat :: RefusedAt(log, p, node, inputs)
    ensures LogVerdict(log, node, inputs).Defer? <==> exists p: nat :: DeferredAt(log, p, node, inputs)
  {
    if log != [] {
      var n := |log| - 1;
      LogVerdictMeans(log[..n], node, inputs);
      NoneOutSnoc(log, node, inputs);
      forall p: nat | p < n
        ensures RefusedAt(log, p, node, inputs) <==> RefusedAt(log[..n], p, node, inputs)
        ensures DeferredAt(log, p, node, inputs) <==> DeferredAt(log[..n], p, node, inputs)
      {
        assert log[..n][..p] == log[..p] && log[..n][p] == log[p];
      }
      assert RefusedAt(log, n, node, inputs) || DeferredAt(log, n, node, inputs) ==> LogVerdict(log[..n], node, inputs).Clear?;
    }
  }

  lemma NoneOutSnoc(log: seq<Event>, node: Tx -> NodeAnswer, inputs: Tx -> Check)
    requires log != []
    ensures var e := log[|log| - 1];
      NoneOut(log, node, inputs) <==>
        NoneOut(log[..|log| - 1], node, inputs) && (e.SignedEvent? ==> node(e.tx).No? && inputs(e.tx).Clear?)
  {
    var n := |log| - 1;
    assert forall p :: 0 <= p < n ==> log[..n][p] == log[p];
  }

  /** The checks before a new signature, in order: the node on older ones, the node and their inputs, the burn. */
  function QueueVerdict(w: Withdrawal, node: Tx -> NodeAnswer, inputs: Tx -> Check, burn: Check): Check {
    var older := if w.payout.Some? then LogVerdict(w.log, node, _ => Clear) else Clear;
    var paid := LogVerdict(w.log, node, inputs);
    if !older.Clear? then older else if !paid.Clear? then paid else burn
  }

  /** What becomes of a queued order: by what is held for it, then by the checks, then by what the pool can pay. */
  ghost predicate QueueOutcome(w: Withdrawal, w': Withdrawal, owned: set<Outpoint>, verdict: Check, canSign: bool, payoutMinSat: nat) {
    if !IsPayable(w, payoutMinSat) || Sent(w) then w' == w.(state := ManualReview)
    else if CanRetry(w, owned) then w' == w.(state := OutboundState.Signed, log := w.log + [RetryEvent])
    else
      match verdict
      case Defer => w' == w
      case Refuse => w' == w.(state := ManualReview)
      case Clear => SignedOrParked(w, w', canSign)
  }

  /** ...and once parked, a human may have queued it again. */
  ghost predicate QueueOutcomeLater(w: Withdrawal, w': Withdrawal, owned: set<Outpoint>, verdict: Check, canSign: bool, payoutMinSat: nat) {
    || QueueOutcome(w, w', owned, verdict, canSign, payoutMinSat)
    || (w'.state.Queued? && QueueOutcome(w, w'.(state := ManualReview), owned, verdict, canSign, payoutMinSat))
  }

  /** What the pass makes of a row: its outcome if it was queued and reached, otherwise nothing. */
  ghost predicate ProcessedAs(i: nat, w: Withdrawal, w': Withdrawal, coins: seq<Coin>, pool: seq<Coin>, round: Round, payoutMinSat: nat, rate: nat) {
    if w.state.Queued? && i < round.stop
    then QueueOutcomeLater(w, w', Owned(coins, ByPayout(i)), QueueVerdict(w, round.node, round.inputs, round.burn(i)),
                           !round.signFails(i) && CanAfford(AvailableUtxos(pool), w.amountSat, rate), payoutMinSat)
    else OnlyRequeued(w, w')
  }

  lemma ProcessedStill(i: nat, w: Withdrawal, w1: Withdrawal, w2: Withdrawal, coins: seq<Coin>, pool: seq<Coin>, round: Round,
                       payoutMinSat: nat, rate: nat)
    requires ProcessedAs(i, w, w1, coins, pool, round, payoutMinSat, rate) && OnlyRequeued(w1, w2)
    ensures ProcessedAs(i, w, w2, coins, pool, round, payoutMinSat, rate)
  {
  }

  /**
   * Job 1 over the tables: every order queued and reached ends as its checks and the pool at its turn call for, and the
   * pool at a turn is the pool before less what earlier orders of this pass took.
   */
  ghost predicate QueuePass(s: State, s': State, pools: seq<seq<Coin>>, round: Round, payoutMinSat: nat, rate: nat) {
    && s'.mem == s.mem && |s.withdrawals| <= |s'.withdrawals| && |pools| == |s.withdrawals|
    && (forall i :: 0 <= i < |pools| ==> TakenBelow(s.coins, pools[i], i, false))
    && (forall i :: 0 <= i < |pools| ==>
          ProcessedAs(i, s.withdrawals[i], s'.withdrawals[i], s.coins, pools[i], round, payoutMinSat, rate))
    && TakenBelow(s.coins, s'.coins, |s.withdrawals|, false)
  }

  predicate SignedOrParked(w: Withdrawal, w': Withdrawal, signed: bool) {
    if signed then SignedAnew(w, w') else w' == w.(state := ManualReview)
  }

  predicate SignedAnew(w: Withdrawal, w': Withdrawal) {
    && w'.amountSat == w.amountSat && w'.payee == w.payee
    && |w'.log| == |w.log| + 1 && w'.log[..|w.log|] == w.log && Pays(w'.log[|w.log|], w)
  }

  /** The trail grows by an attempt, and perhaps its refusal, and only the newest transaction is recorded as sent. */
  predicate SentOrKept(w: Withdrawal, w': Withdrawal) {
    && Newest(w.log).Some? && w'.amountSat == w.amountSat && w'.payee == w.payee
    && var t := Newest(w.log).value;
    && (w'.log == w.log + [AttemptEvent(t)] || w'.log == w.log + [AttemptEvent(t)] + [RefusedEvent(t)])
    && (w'.state.Signed? || w'.state.Broadcast? || w'.state.ManualReview? || w'.state.Queued?)
    && (w'.state.Broadcast? <==> Sent(w'))
    && (Sent(w') ==> w'.payout.value.txid == Some(t))
  }

  // ── One send ─────────────────────────────────────────────────────────────

  /**
   * What comes back from a send: the node's answer, what it then says of the transaction, whether a refusal
   * gets written down, and whether the transaction that records the result fails.
   */
  datatype Reply = Reply(outcome: Outcome, has: NodeAnswer, alreadyInChain: bool, written: bool, dbFails: bool)

  predicate IsAnswer(o: Outcome) {
    o.Accepted? || o.Refused? || o.Failed?
  }

  predicate ToSend(w: Withdrawal) {
    w.state.Signed? && w.payout.Some? && w.payout.value.txid.None? && Newest(w.log).Some?
  }

  /** The send as it is recorded: the newest transaction and its history so far. */
  function SendOf(i: nat, w: Withdrawal): InFlight
    requires Newest(w.log).Some?
  {
    var t := Newest(w.log).value;
    InFlight(i, t, Balance(w.log, t), SinceRetry(w.log, t), Retried(w.log), Pending)
  }

  function WithEvent(w: Withdrawal, e: Event): Withdrawal {
    w.(log := w.log + [e])
  }

  /** The node has the transaction. */
  predicate Out(r: Reply) {
    r.outcome.Accepted? || r.alreadyInChain || r.has.InMempool? || r.has.InChain?
  }

  /** No earlier send of it may be out, and no operator retried it. */
  predicate IsFirst(m: InFlight) {
    m.thisTx == 0 && !m.retried
  }

  predicate Frees(m: InFlight, r: Reply) {
    r.outcome.Refused? && IsFirst(m) && r.has.No?
  }

  /** Sent again at the next poll: a first refusal the node cannot confirm, or a failure that may clear. */
  predicate Waits(m: InFlight, r: Reply)
    requires r.outcome.Refused? || r.outcome.Failed?
  {
    || (r.outcome.Refused? && IsFirst(m) && r.has.Unreachable?)
    || (!Frees(m, r) && r.outcome.transient && m.sinceRetry + 1 < MAX_SEND_ATTEMPTS)
  }

  /** The row as it was but for being parked. */
  predicate Parked(w: Withdrawal, w': Withdrawal, parked: bool) {
    && w'.log == w.log && w'.payout == w.payout && w'.amountSat == w.amountSat && w'.payee == w.payee
    && w'.state == if parked then ManualReview else w.state
  }

  predicate Recorded(w: Withdrawal, w': Withdrawal, t: Tx, dbFails: bool) {
    if dbFails then Parked(w, w', false)
    else
      && w'.log == w.log && w'.amountSat == w.amountSat && w'.payee == w.payee
      && w'.state.Broadcast? && w'.payout.Some? && w'.payout.value.txid == Some(t)
      && w.payout.Some? && w'.payout.value.feeSat == w.payout.value.feeSat
  }

  /** The row after the answer: recorded if the node has it, otherwise parked unless there is reason to wait. */
  predicate Settled(w: Withdrawal, w': Withdrawal, m: InFlight, r: Reply) {
    if Out(r) then Recorded(w, w', m.tx, r.dbFails)
    else
      && (r.outcome.Refused? || r.outcome.Failed?)
      && Parked(if r.outcome.Refused? && r.written then WithEvent(w, RefusedEvent(m.tx)) else w, w', !r.dbFails && !Waits(m, r))
  }

  /** The pool after the answer: spent if recorded, released only if that is safe, otherwise untouched. */
  function CoinsAfter(coins: seq<Coin>, m: InFlight, r: Reply): seq<Coin> {
    if r.dbFails then coins
    else if Out(r) then Spend(coins, ByPayout(m.order)) + ChangeCoin(m.tx, FromPayout(m.order))
    else if Frees(m, r) then Release(coins, ByPayout(m.order))
    else coins
  }

  /** The row after its attempt: as the answer calls for, or only the attempt when the process died before one. */
  predicate Ended(i: nat, w: Withdrawal, w': Withdrawal, r: Option<Reply>)
    requires ToSend(w)
  {
    var one := WithEvent(w, AttemptEvent(Newest(w.log).value));
    if r.Some? then Settled(one, w', SendOf(i, w), r.value) else Parked(one, w', false)
  }

  /** A coin of this payout after the answer: spent when the send was recorded, available again when it was freed. */
  function CoinAfter(c: Coin, m: InFlight, r: Option<Reply>): Coin {
    if c.owner != ByPayout(m.order) || r.None? || r.value.dbFails then c
    else if Out(r.value) then c.(status := Spent)
    else if Frees(m, r.value) then c.(status := Available, owner := NoOwner)
    else c
  }

  /** A coin after one pass over the first n orders. */
  function CoinTried(c: Coin, ws: seq<Withdrawal>, n: nat, recorded: nat -> bool, replies: nat -> Option<Reply>): Coin {
    if c.owner.ByPayout? && c.owner.order < n && c.owner.order < |ws| && ToSend(ws[c.owner.order]) && recorded(c.owner.order)
    then CoinAfter(c, SendOf(c.owner.order, ws[c.owner.order]), replies(c.owner.order)) else c
  }

  /** The change of a recorded send is in the pool, available. */
  predicate ChangeTaken(coins: seq<Coin>, m: InFlight, r: Option<Reply>) {
    r.Some? && Out(r.value) && !r.value.dbFails && m.tx.Signed? && m.tx.changeSat > 0 ==>
      exists k :: 0 <= k < |coins| && coins[k] == ChangeCoin(m.tx, FromPayout(m.order))[0]
  }

  /** The pool after one answer, coin by coin. */
  ghost predicate PoolAfter(coins: seq<Coin>, coins': seq<Coin>, m: InFlight, r: Option<Reply>) {
    && |coins| <= |coins'| && (forall k :: 0 <= k < |coins| ==> coins'[k] == CoinAfter(coins[k], m, r))
    && ChangeTaken(coins', m, r)
  }

  /** The pool after one pass over the first n orders, coin by coin. */
  ghost predicate PoolTried(coins: seq<Coin>, coins': seq<Coin>, ws: seq<Withdrawal>, n: nat, recorded: nat -> bool, replies: nat -> Option<Reply>) {
    && |coins| <= |coins'| && (forall k :: 0 <= k < |coins| ==> coins'[k] == CoinTried(coins[k], ws, n, recorded, replies))
    && forall i :: 0 <= i < n && i < |ws| && ToSend(ws[i]) && recorded(i) ==> ChangeTaken(coins', SendOf(i, ws[i]), replies(i))
  }

  lemma CoinsAfterMeans(coins: seq<Coin>, m: InFlight, r: Reply)
    ensures PoolAfter(coins, CoinsAfter(coins, m, r), m, Some(r))
  {
    if Out(r) && !r.dbFails && m.tx.Signed? && m.tx.changeSat > 0 {
      assert CoinsAfter(coins, m, r)[|coins|] == ChangeCoin(m.tx, FromPayout(m.order))[0];
    }
  }

  lemma PoolTriedNext(coins: seq<Coin>, mid: seq<Coin>, coins': seq<Coin>, ws: seq<Withdrawal>, i: nat,
                      recorded: nat -> bool, replies: nat -> Option<Reply>)
    requires i < |ws| && PoolTried(coins, mid, ws, i, recorded, replies)
    requires if ToSend(ws[i]) && recorded(i) then PoolAfter(mid, coins', SendOf(i, ws[i]), replies(i)) else coins' == mid
    ensures PoolTried(coins, coins', ws, i + 1, recorded, replies)
  {
    forall j | 0 <= j < i && ToSend(ws[j]) && recorded(j) ensures ChangeTaken(coins', SendOf(j, ws[j]), replies(j)) {
      var m, r := SendOf(j, ws[j]), replies(j);
      assert ChangeTaken(mid, m, r);
      if r.Some? && Out(r.value) && !r.value.dbFails && m.tx.Signed? && m.tx.changeSat > 0 {
        var k :| 0 <= k < |mid| && mid[k] == ChangeCoin(m.tx, FromPayout(m.order))[0];
        assert coins'[k] == mid[k];
      }
    }
  }

  /** What one pass over the signed payouts does to a row; once parked, a human may have queued it again. */
  predicate Tried(i: nat, w: Withdrawal, w': Withdrawal, recorded: bool, r: Option<Reply>) {
    if ToSend(w) && recorded
    then SentOrKept(w, w') && (Ended(i, w, w', r) || (w'.state.Queued? && Ended(i, w, w'.(state := ManualReview), r)))
    else OnlyRequeued(w, w')
  }

  /** Before its turn, at its turn and after it, a row is at most re-queued by others. */
  lemma TriedOnce(i: nat, w: Withdrawal, w1: Withdrawal, w2: Withdrawal, recorded: bool, r: Option<Reply>, past: bool, now: bool)
    requires if past then Tried(i, w, w1, recorded, r) else OnlyRequeued(w, w1)
    requires if now then !past && recorded && ToSend(w1) && SentOrKept(w1, w2) && Ended(i, w1, w2, r) else OnlyRequeued(w1, w2)
    ensures past || now ==> Tried(i, w, w2, recorded, r)
    ensures !past && !now ==> OnlyRequeued(w, w2) && (!(ToSend(w1) && recorded) ==> Tried(i, w, w2, recorded, r))
  {
  }

  /** Job 2 over the tables: every signed payout and every coin ends as its own answer calls for. */
  ghost predicate SendPass(s: State, s': State, recorded: nat -> bool, replies: nat -> Option<Reply>) {
    && |s.withdrawals| <= |s'.withdrawals|
    && (forall i :: 0 <= i < |s.withdrawals| ==> Tried(i, s.withdrawals[i], s'.withdrawals[i], recorded(i), replies(i)))
    && PoolTried(s.coins, s'.coins, s.withdrawals, |s.withdrawals|, recorded, replies)
  }

  // ── Looking at a broadcast payout ────────────────────────────────────────

  /** Not in the chain and not in the pool, as far as the node knows. */
  predicate IsForgotten(look: Look) {
    look.confirmations < 0 || (look.confirmations == 0 && look.inPool.No?)
  }

  /** The transactions that end a payout at three confirmations are not both written. */
  predicate Throws(look: Look) {
    look.confirmations >= PAYOUT_MIN_CONFIRMATIONS && !(look.confirmWritten && look.completeWritten)
  }

  function Count(counts: map<nat, ResendState>, i: nat): Option<ResendState> {
    if i in counts then Some(counts[i]) else None
  }

  /** Consecutive refused re-sends so far. */
  function Failures(st: Option<ResendState>): nat {
    if st.Some? then st.value.failures else 0
  }

  /** Neither sent nor sent again within the interval. */
  predicate IsDue(st: Option<ResendState>, look: Look) {
    !look.tooRecent && look.nowMs - (if st.Some? then st.value.last else 0) >= RESEND_FORGOTTEN_AFTER_MS
  }

  /** Sent again unless the node has it or refuses it; parked at the third refusal in a row. */
  function ResentNow(w: Withdrawal, failures: nat, answer: ResendAnswer): Withdrawal
    requires Sent(w)
  {
    match answer
    case Taken => w.(history := w.history + [Resent(w.payout.value.txid.value)])
    case Silent => w.(history := w.history + [Resent(w.payout.value.txid.value)])
    case AlreadyMined => w
    case RefusedAgain => if failures == RESEND_FORGOTTEN_MAX_FAILURES - 1 then w.(state := ManualReview) else w
  }

  function CountNow(st: ResendState, answer: ResendAnswer): Option<ResendState> {
    match answer
    case Taken => Some(st.(failures := 0))
    case AlreadyMined => Some(st.(failures := 0))
    case Silent => Some(st)
    case RefusedAgain => if st.failures == RESEND_FORGOTTEN_MAX_FAILURES - 1 then None else Some(st.(failures := st.failures + 1))
  }

  function ResentAs(w: Withdrawal, st: Option<ResendState>, look: Look): Withdrawal
    requires Sent(w)
  {
    if IsDue(st, look) then ResentNow(w, Failures(st), look.resend) else w
  }

  function CountAfter(st: Option<ResendState>, look: Look): Option<ResendState> {
    if IsDue(st, look) then CountNow(ResendState(look.nowMs, Failures(st)), look.resend) else st
  }

  /** As far as the two transactions were written. */
  function ConfirmedAs(w: Withdrawal, look: Look): Withdrawal {
    w.(state := if !look.confirmWritten then w.state else if look.completeWritten then Completed else Confirmed)
  }

  function LookedAt(w: Withdrawal, st: Option<ResendState>, look: Look): Withdrawal
    requires Sent(w)
  {
    if IsForgotten(look) then ResentAs(w, st, look)
    else if look.confirmations < PAYOUT_MIN_CONFIRMATIONS then w
    else ConfirmedAs(w, look)
  }

  predicate ToConfirm(w: Withdrawal, look: Option<Look>) {
    w.state.Broadcast? && Sent(w) && look.Some?
  }

  predicate ConfirmedRow(w: Withdrawal, w': Withdrawal, st: Option<ResendState>, look: Option<Look>) {
    OnlyRequeued(if ToConfirm(w, look) then LookedAt(w, st, look.value) else w, w')
  }

  /**
   * Job 3 over the tables: every broadcast payout the node could be asked about ends as that look calls for, up to the
   * first whose transactions fail; the rows behind it are not reached.
   */
  ghost predicate ConfirmPass(s: State, s': State, counts: map<nat, ResendState>, looks: nat -> Option<Look>, stop: nat) {
    && s'.mem == s.mem && s.coins <= s'.coins && stop <= |s.withdrawals| <= |s'.withdrawals|
    && (forall i :: 0 <= i < stop ==> !(ToConfirm(s.withdrawals[i], looks(i)) && Throws(looks(i).value)))
    && (stop < |s.withdrawals| ==> ToConfirm(s.withdrawals[stop], looks(stop)) && Throws(looks(stop).value))
    && (forall i :: 0 <= i <= stop && i < |s.withdrawals| ==>
          ConfirmedRow(s.withdrawals[i], s'.withdrawals[i], Count(counts, i), looks(i)))
    && (forall i :: stop < i < |s.withdrawals| ==> OnlyRequeued(s.withdrawals[i], s'.withdrawals[i]))
  }

  /** The count of a payout after it was looked at: gone when it has three confirmations. */
  function CountLooked(st: Option<ResendState>, look: Look): Option<ResendState> {
    if IsForgotten(look) then CountAfter(st, look)
    else if look.confirmations >= PAYOUT_MIN_CONFIRMATIONS then None
    else st
  }

  /** The refused re-sends remembered for the next poll: of each payout looked at, as the look calls for. */
  ghost predicate CountPass(ws: seq<Withdrawal>, counts: map<nat, ResendState>, counts': map<nat, ResendState>, looks: nat -> Option<Look>, stop: nat) {
    forall i: nat :: Count(counts', i) ==
      if i <= stop && i < |ws| && ToConfirm(ws[i], looks(i)) then CountLooked(Count(counts, i), looks(i).value) else Count(counts, i)
  }

  /** The states a round went through, and the pool at each turn of its first job. */
  datatype Stops = Stops(pools: seq<seq<Coin>>, queued: State, sending: State, sent: State, confirmStop: nat)

  /** One round: the jobs in order, each on what the one before left, until one throws. */
  ghost predicate RoundDone(s: State, s': State, t: Stops, round: Round, counts: map<nat, ResendState>, counts': map<nat, ResendState>,
                            payoutMinSat: nat, rate: nat)
  {
    && QueuePass(s, t.queued, t.pools, round, payoutMinSat, rate)
    && if round.queueThrew then s' == t.queued && counts' == counts
       else
         && Undisturbed(t.queued, t.sending) && SendPass(t.sending, t.sent, round.recorded, round.replies)
         && if round.sendThrew then s' == t.sent && counts' == counts
            else
              && ConfirmPass(t.sent, s', counts, round.looks, t.confirmStop)
              && CountPass(t.sent.withdrawals, counts, counts', round.looks, t.confirmStop)
  }

  /** No job touches an order left at PAYOUT_CONFIRMED. */
  lemma ConfirmedThrough(s: State, s': State, t: Stops, round: Round, counts: map<nat, ResendState>, counts': map<nat, ResendState>,
                         payoutMinSat: nat, rate: nat)
    requires RoundDone(s, s', t, round, counts, counts', payoutMinSat, rate)
    ensures |s.withdrawals| <= |s'.withdrawals|
    ensures forall i :: 0 <= i < |s.withdrawals| && s.withdrawals[i].state.Confirmed? ==> s'.withdrawals[i] == s.withdrawals[i]
  {
    forall i | 0 <= i < |s.withdrawals| && s.withdrawals[i].state.Confirmed? ensures s'.withdrawals[i] == s.withdrawals[i] {
      assert ProcessedAs(i, s.withdrawals[i], t.queued.withdrawals[i], s.coins, t.pools[i], round, payoutMinSat, rate);
      if !round.queueThrew {
        assert OnlyRequeued(t.queued.withdrawals[i], t.sending.withdrawals[i]);
        assert Tried(i, t.sending.withdrawals[i], t.sent.withdrawals[i], round.recorded(i), round.replies(i));
      }
    }
  }

  lemma AttemptThenHandled(i: nat, w: Withdrawal, w': Withdrawal, r: Option<Reply>)
    requires ToSend(w) && Ended(i, w, w', r)
    ensures SentOrKept(w, w')
  {
  }

  lemma SignableStill(read: State, now: State, i: nat, t: Tx, feeSat: nat)
    requires CanSignPayout(read, i, t, feeSat) && Undisturbed(read, now) && DistinctCoins(now.coins)
    ensures CanSignPayout(now, i, t, feeSat)
  {
    PickedGrows(read.coins, now.coins, Inputs(t));
    if t.changeSat > 0 { StillNext(read, now, t.changeIndex); }
    assert OnlyRequeued(read.withdrawals[i], now.withdrawals[i]);
    forall k | 0 <= k < |now.coins| ensures now.coins[k].owner != ByPayout(i) {
      if k < |read.coins| { assert read.coins[k].outpoint !in Owned(read.coins, ByPayout(i)); }
    }
  }

  class PayoutExecutor {
    const db: Database
    const payoutMinSat: nat
    const refunds: Refunds.RefundExecutor?
    var resendState: map<nat, ResendState>

    constructor (db: Database, payoutMinSat: nat, refunds: Refunds.RefundExecutor?)
      ensures this.db == db && this.payoutMinSat == payoutMinSat && this.refunds == refunds && resendState == map[]
    {
      this.db, this.payoutMinSat, this.refunds, resendState := db, payoutMinSat, refunds, map[];
    }

    // ── Job 1: queued to signed ────────────────────────────────────────────

    method ParkOrRetry(i: nat, a: Action)
      requires db.Valid() && i < |db.withdrawals| && Enabled(db.Now(), a) && (a == ParkQueued(i) || a == RetrySameTx(i))
      modifies db
      ensures db.Did(a)
    {
      ghost var before := db.Now();
      var w := db.withdrawals[i];
      db.withdrawals := db.withdrawals[i :=
        if a.ParkQueued? then w.(state := ManualReview) else w.(state := OutboundState.Signed, log := w.log + [RetryEvent])];
      db.Log(a, before);
    }

    /** How many coins this payout still holds, and how many it spent. */
    method CountCoins(i: nat) returns (held: nat, spent: nat)
      ensures held > 0 <==> exists k :: 0 <= k < |db.coins| && db.coins[k].owner == ByPayout(i) && db.coins[k].status.Reserved?
      ensures spent > 0 <==> exists k :: 0 <= k < |db.coins| && db.coins[k].owner == ByPayout(i) && db.coins[k].status.Spent?
    {
      held, spent := 0, 0;
      for k := 0 to |db.coins|
        invariant held > 0 <==> exists j :: 0 <= j < k && db.coins[j].owner == ByPayout(i) && db.coins[j].status.Reserved?
        invariant spent > 0 <==> exists j :: 0 <= j < k && db.coins[j].owner == ByPayout(i) && db.coins[j].status.Spent?
      {
        if db.coins[k].owner == ByPayout(i) && db.coins[k].status.Reserved? { held := held + 1; }
        if db.coins[k].owner == ByPayout(i) && db.coins[k].status.Spent? { spent := spent + 1; }
      }
    }

    /**
     * Ask the node about every transaction signed for this order, and whether something spent its inputs. Clear only if
     * it knows none of them and every input is still there; the first that is not clear decides whether to wait or refuse.
     */
    method NodeKnowsNone(log: seq<Event>, node: Tx -> NodeAnswer, inputs: Tx -> Check) returns (check: Check)
      ensures check == LogVerdict(log, node, inputs)
      ensures check.Clear? <==> NoneOut(log, node, inputs)
    {
      LogVerdictMeans(log, node, inputs);
      for p := 0 to |log|
        invariant LogVerdict(log, node, inputs) == LogVerdict(log[p..], node, inputs)
      {
        VerdictOfTail(log[p..], node, inputs);
        assert log[p..][1..] == log[p + 1..];
        if log[p].SignedEvent? {
          var t := log[p].tx;
          match node(t)
          case Unreachable => return Defer;
          case InMempool => return Refuse;
          case InChain => return Refuse;
          case No =>
          if !inputs(t).Clear? { return inputs(t); }
        }
      }
      check := Clear;
    }

    /** Select coins and lay out the transaction; nothing is written yet. */
    method BuildTx(i: nat) returns (built: bool, t: Tx, feeSat: nat)
      requires db.Valid() && i < |db.withdrawals| && CanSign(db.withdrawals[i], Owned(db.coins, ByPayout(i)))
      ensures built ==> CanSignPayout(db.Now(), i, t, feeSat) && NoRepeat(t.inputs)
      ensures built <==> CanAfford(AvailableUtxos(db.coins), db.withdrawals[i].amountSat, db.rate)
    {
      var w := db.withdrawals[i];
      var utxos := ReadAvailable(db.coins);
      var changeIndex := db.NextChangeIndex();
      var r := Select.BuildPayout(utxos, w.amountSat, db.rate);
      if r.Err? { return false, Arriving(0), 0; }
      t, feeSat := PaymentTx(r.value, w.payee, changeIndex), r.value.feeSat;
      db.Distinct();
      BuiltIsPayable(db.Now(), r.value, w.payee, changeIndex);
      assert Select.Sufficient(r.value.inputs, utxos, w.amountSat, db.rate);
      built := true;
    }

    /**
     * Build, reserve, and write the row and the signature down in one transaction. The pool may grow while
     * the transaction is being built, but nothing is taken from it, so reserving succeeds. A transaction that
     * fails leaves the order as it was.
     */
    method BuildAndSign(i: nat, dbFails: bool) returns (signed: bool)
      requires db.Valid() && i < |db.withdrawals| && CanSign(db.withdrawals[i], Owned(db.coins, ByPayout(i)))
      modifies db
      ensures db.Ran() && db.mem == old(db.mem) && |db.withdrawals| >= |old(db.withdrawals)|
      ensures forall j :: 0 <= j < |old(db.withdrawals)| && j != i ==> OnlyRequeued(old(db.withdrawals)[j], db.withdrawals[j])
      ensures signed <==> !dbFails && CanAfford(AvailableUtxos(old(db.coins)), old(db.withdrawals)[i].amountSat, db.rate)
      ensures if signed then SignedAnew(old(db.withdrawals)[i], db.withdrawals[i]) else db.withdrawals[i] == old(db.withdrawals)[i]
      ensures TakenFor(old(db.coins), db.coins, ByPayout(i))
    {
      var built, t, feeSat := BuildTx(i);
      if !built { return false; }
      signed := !dbFails;
      SignBuilt(i, t, feeSat, dbFails);
    }

    method SignBuilt(i: nat, t: Tx, feeSat: nat, dbFails: bool)
      requires db.Valid() && CanSignPayout(db.Now(), i, t, feeSat) && NoRepeat(t.inputs)
      modifies db
      ensures db.Ran() && db.mem == old(db.mem) && |db.withdrawals| >= |old(db.withdrawals)|
      ensures forall j :: 0 <= j < |old(db.withdrawals)| && j != i ==> OnlyRequeued(old(db.withdrawals)[j], db.withdrawals[j])
      ensures if dbFails then db.withdrawals[i] == old(db.withdrawals)[i] else SignedAnew(old(db.withdrawals)[i], db.withdrawals[i])
      ensures TakenFor(old(db.coins), db.coins, ByPayout(i))
    {
      ghost var read := db.Now();
      db.Unowned();
      db.TimePasses();
      assert OnlyRequeued(read.withdrawals[i], db.withdrawals[i]);
      if dbFails { return; }
      db.Distinct();
      SignableStill(read, db.Now(), i, t, feeSat);
      ReserveTakes(read.coins, db.coins, Inputs(t), ByPayout(i));
      WriteSignature(i, t, feeSat);
    }

    method WriteSignature(i: nat, t: Tx, feeSat: nat)
      requires db.Valid() && CanSignPayout(db.Now(), i, t, feeSat) && DistinctCoins(db.coins) && NoRepeat(t.inputs)
      modifies db
      ensures db.Did(SignPayout(i, t, feeSat)) && db.coins == Reserve(old(db.coins), Inputs(t), ByPayout(i))
    {
      ghost var before := db.Now();
      var w := db.withdrawals[i];
      var ok := db.ReserveInputs(t.inputs, ByPayout(i));
      assert ok;
      db.withdrawals := db.withdrawals[i := w.(state := OutboundState.Signed, payout := Some(Payout(feeSat, None)), log := w.log + [SignedEvent(t)])];
      db.Log(SignPayout(i, t, feeSat), before);
    }

    lemma OwnsNothing(i: nat)
      requires db.Valid() && i < |db.withdrawals|
      requires forall k :: 0 <= k < |db.coins| && db.coins[k].owner == ByPayout(i) ==> db.coins[k].status.Available?
      ensures Owned(db.coins, ByPayout(i)) == {}
    {
      db.Invariants();
      forall k | 0 <= k < |db.coins| ensures db.coins[k].owner != ByPayout(i) {
        assert CoinOk(db.withdrawals, db.refunds, db.coins[k]);
      }
    }

    /**
     * Sign, re-send, park or leave one queued order. A signature is new only if the inputs of every older one are
     * released, the node knows none of them, and the burn is there; inputs still held mean the same transaction again.
     */
    method ProcessOne(i: nat, node: Tx -> NodeAnswer, inputs: Tx -> Check, burn: Check, dbFails: bool)
      requires db.Valid() && i < |db.withdrawals| && db.withdrawals[i].state.Queued?
      modifies db
      ensures db.Ran() && db.mem == old(db.mem) && |db.withdrawals| >= |old(db.withdrawals)|
      ensures var w := old(db.withdrawals)[i];
        QueueOutcome(w, db.withdrawals[i], old(Owned(db.coins, ByPayout(i))), QueueVerdict(w, node, inputs, burn),
                     !dbFails && CanAfford(AvailableUtxos(old(db.coins)), w.amountSat, db.rate), payoutMinSat)
      ensures forall j :: 0 <= j < |old(db.withdrawals)| && j != i ==> OnlyRequeued(old(db.withdrawals)[j], db.withdrawals[j])
      ensures TakenFor(old(db.coins), db.coins, ByPayout(i))
    {
      var w := db.withdrawals[i];
      if Unpayable(w.payee) || w.amountSat <= payoutMinSat {
        ParkOrRetry(i, ParkQueued(i));
        return;
      }
      var held, spent := CountCoins(i);
      if w.payout.Some? {
        if w.payout.value.txid.Some? || spent > 0 {
          SpentMeansSent(i);
          ParkOrRetry(i, ParkQueued(i));
          return;
        }
        if held > 0 {
          HeldIsOwned(i);
          ParkOrRetry(i, RetrySameTx(i));
          return;
        }
        OwnsNothing(i);
      } else {
        NeverSignedOwnsNothing(i);
      }
      SignUnlessPaid(i, node, inputs, burn, dbFails);
    }

    method CheckQueued(w: Withdrawal, node: Tx -> NodeAnswer, inputs: Tx -> Check, burn: Check) returns (check: Check)
      ensures check == QueueVerdict(w, node, inputs, burn)
      ensures check.Clear? ==> NoneOut(w.log, node, inputs) && burn.Clear?
    {
      check := Clear;
      if w.payout.Some? { check := NodeKnowsNone(w.log, node, _ => Clear); }
      if check.Clear? { check := NodeKnowsNone(w.log, node, inputs); }
      LogVerdictMeans(w.log, node, inputs);
      if check.Clear? { check := burn; }
    }

    /** The checks before a new signature, in order. */
    method SignUnlessPaid(i: nat, node: Tx -> NodeAnswer, inputs: Tx -> Check, burn: Check, dbFails: bool)
      requires db.Valid() && i < |db.withdrawals| && CanSign(db.withdrawals[i], Owned(db.coins, ByPayout(i)))
      modifies db
      ensures db.Ran() && db.mem == old(db.mem) && |db.withdrawals| >= |old(db.withdrawals)|
      ensures var w, w' := old(db.withdrawals)[i], db.withdrawals[i];
        match QueueVerdict(w, node, inputs, burn)
        case Defer => w' == w
        case Refuse => w' == w.(state := ManualReview)
        case Clear => SignedOrParked(w, w', !dbFails && CanAfford(AvailableUtxos(old(db.coins)), w.amountSat, db.rate))
      ensures TakenFor(old(db.coins), db.coins, ByPayout(i))
      ensures forall j :: 0 <= j < |old(db.withdrawals)| && j != i ==> OnlyRequeued(old(db.withdrawals)[j], db.withdrawals[j])
    {
      var check := CheckQueued(db.withdrawals[i], node, inputs, burn);
      if check.Clear? {
        var signed := BuildAndSign(i, dbFails);
        if !signed { ParkOrRetry(i, ParkQueued(i)); }
      } else if check.Refuse? {
        ParkOrRetry(i, ParkQueued(i));
      }
    }

    /** A coin this payout spent means it was sent. */
    lemma SpentMeansSent(i: nat)
      requires db.Valid() && i < |db.withdrawals|
      ensures (exists k :: 0 <= k < |db.coins| && db.coins[k].owner == ByPayout(i) && db.coins[k].status.Spent?) ==> Sent(db.withdrawals[i])
    {
      db.Invariants();
      forall k | 0 <= k < |db.coins| && db.coins[k].owner == ByPayout(i) && db.coins[k].status.Spent? ensures Sent(db.withdrawals[i]) {
        assert CoinOk(db.withdrawals, db.refunds, db.coins[k]);
      }
    }

    lemma HeldIsOwned(i: nat)
      requires exists k :: 0 <= k < |db.coins| && db.coins[k].owner == ByPayout(i)
      ensures Owned(db.coins, ByPayout(i)) != {}
    {
      var k :| 0 <= k < |db.coins| && db.coins[k].owner == ByPayout(i);
      assert db.coins[k].outpoint in Owned(db.coins, ByPayout(i));
    }

    lemma NeverSignedOwnsNothing(i: nat)
      requires db.Valid() && i < |db.withdrawals| && db.withdrawals[i].payout.None?
      ensures Owned(db.coins, ByPayout(i)) == {}
    {
      db.Invariants();
      assert PayoutOk(db.withdrawals[i], Owned(db.coins, ByPayout(i)), OwnedSat(db.coins, ByPayout(i)));
    }

    /** At `stop` something the job does not catch goes wrong. */
    method ProcessQueued(round: Round) returns (ghost pools: seq<seq<Coin>>)
      requires db.Valid()
      modifies db
      ensures db.Ran() && QueuePass(old(db.Now()), db.Now(), pools, round, payoutMinSat, db.rate)
    {
      var start := db.withdrawals;
      ghost var pool := db.coins;
      pools := [];
      for i := 0 to |db.withdrawals|
        invariant db.Ran() && db.mem == old(db.mem) && |start| <= |db.withdrawals| && |pools| == i
        invariant TakenBelow(pool, db.coins, i, false) && forall j :: 0 <= j < i ==> TakenBelow(pool, pools[j], j, false)
        invariant forall j :: 0 <= j < i ==> ProcessedAs(j, start[j], db.withdrawals[j], pool, pools[j], round, payoutMinSat, db.rate)
        invariant forall j :: i <= j < |start| ==> OnlyRequeued(start[j], db.withdrawals[j])
      {
        ghost var before, coins := db.withdrawals, db.coins;
        pools := pools + [coins];
        TakenLeaves(pool, coins, i, false, ByPayout(i));
        if i < round.stop && start[i].state.Queued? {
          ProcessOne(i, round.node, round.inputs, round.burn(i), round.signFails(i));
          TakenNext(pool, coins, db.coins, i, false);
        }
        forall j | 0 <= j < i ensures ProcessedAs(j, start[j], db.withdrawals[j], pool, pools[j], round, payoutMinSat, db.rate) {
          ProcessedStill(j, start[j], before[j], db.withdrawals[j], pool, pools[j], round, payoutMinSat, db.rate);
        }
      }
    }

    // ── Job 2: signed to broadcast ─────────────────────────────────────────

    method RecordBroadcastAttempt(i: nat)
      requires db.Valid() && Enabled(db.Now(), RecordAttempt(i))
      modifies db
      ensures db.Did(RecordAttempt(i))
      ensures var log, m := old(db.withdrawals)[i].log, db.mem.value;
        && m.thisTx == |Places(log, AttemptEvent(m.tx))| - |Places(log, RefusedEvent(m.tx))|
        && m.sinceRetry == |PlacesSinceRetry(log, AttemptEvent(m.tx))| && (m.retried <==> RetryEvent in log)
    {
      ghost var before := db.Now();
      var w := db.withdrawals[i];
      var t := Newest(w.log).value;
      HistoryCounts(w.log, t);
      db.mem := Some(InFlight(i, t, Balance(w.log, t), SinceRetry(w.log, t), Retried(w.log), Pending));
      db.withdrawals := db.withdrawals[i := w.(log := w.log + [AttemptEvent(t)])];
      db.Log(RecordAttempt(i), before);
    }

    /** The node's answer to the send; what it means for the network is not written anywhere. */
    method Send(outcome: Outcome)
      requires db.Valid() && Enabled(db.Now(), Answered(outcome))
      modifies db
      ensures db.Did(Answered(outcome))
    {
      ghost var before := db.Now();
      var m := db.mem.value;
      var w := db.withdrawals[m.order];
      db.withdrawals := db.withdrawals[m.order := if outcome.Refused? then w else w.(history := w.history + [MaybeSent(m.tx)])];
      db.mem := Some(m.(outcome := outcome));
      db.Log(Answered(outcome), before);
    }

    method WriteRefusal(written: bool)
      requires db.Valid() && Enabled(db.Now(), RecordRefusal(written))
      modifies db
      ensures db.Did(RecordRefusal(written))
    {
      ghost var before := db.Now();
      var m := db.mem.value;
      var w := db.withdrawals[m.order];
      db.withdrawals := db.withdrawals[m.order :=
        if written then w.(log := w.log + [RefusedEvent(m.tx)]) else w.(history := w.history + [RefusalLost(m.tx)])];
      db.mem := Some(m.(outcome := RefusalSettled(m.outcome.transient)));
      db.Log(RecordRefusal(written), before);
    }

    method DoParkAndRelease()
      requires db.Valid() && Enabled(db.Now(), ParkAndRelease)
      modifies db
      ensures db.Did(ParkAndRelease)
    {
      ghost var before := db.Now();
      var i := db.mem.value.order;
      db.withdrawals := db.withdrawals[i := db.withdrawals[i].(state := ManualReview)];
      db.coins := Release(db.coins, ByPayout(i));
      db.mem := None;
      db.Log(ParkAndRelease, before);
    }

    method DoParkHeld()
      requires db.Valid() && Enabled(db.Now(), ParkHeld)
      modifies db
      ensures db.Did(ParkHeld)
    {
      ghost var before := db.Now();
      var i := db.mem.value.order;
      db.withdrawals := db.withdrawals[i := db.withdrawals[i].(state := ManualReview)];
      db.mem := None;
      db.Log(ParkHeld, before);
    }

    method DoCommitBroadcast(nodeHasIt: bool)
      requires db.Valid() && Enabled(db.Now(), CommitBroadcast(nodeHasIt))
      modifies db
      ensures db.Did(CommitBroadcast(nodeHasIt))
    {
      ghost var before := db.Now();
      var m := db.mem.value;
      var w := db.withdrawals[m.order];
      db.withdrawals := db.withdrawals[m.order := w.(state := Broadcast, payout := Some(w.payout.value.(txid := Some(m.tx))),
                                                     history := w.history + Leftover(m, false))];
      db.coins := Spend(db.coins, ByPayout(m.order)) + ChangeCoin(m.tx, FromPayout(m.order));
      db.mem := None;
      db.Log(CommitBroadcast(nodeHasIt), before);
    }

    /** The send is left for another poll, or the process died in the middle of it. */
    method Drop(sent: bool)
      requires db.Valid() && InHand(db.Now())
      modifies db
      ensures db.Did(Forget(sent))
    {
      ghost var before := db.Now();
      var m := db.mem.value;
      var w := db.withdrawals[m.order];
      db.withdrawals := db.withdrawals[m.order := w.(history := w.history + Leftover(m, sent))];
      db.mem := None;
      db.Log(Forget(sent), before);
    }

    /** The part of the tables a send leaves alone: every other row. */
    twostate predicate OnlyRow(i: nat)
      reads db
    {
      && |db.withdrawals| == |old(db.withdrawals)| && i < |db.withdrawals|
      && forall j :: 0 <= j < |db.withdrawals| && j != i ==> db.withdrawals[j] == old(db.withdrawals)[j]
    }

    /** Record the broadcast; when that fails the transaction is out all the same, and the next poll tries again. */
    method CommitOrRetry(nodeHasIt: bool, dbFails: bool)
      requires db.Valid() && Enabled(db.Now(), CommitBroadcast(nodeHasIt))
      modifies db
      ensures db.Ran() && db.mem.None? && OnlyRow(old(db.mem).value.order)
      ensures var m := old(db.mem).value;
        && Recorded(old(db.withdrawals)[m.order], db.withdrawals[m.order], m.tx, dbFails)
        && db.coins == if dbFails then old(db.coins) else Spend(old(db.coins), ByPayout(m.order)) + ChangeCoin(m.tx, FromPayout(m.order))
    {
      if dbFails { Drop(false); } else { DoCommitBroadcast(nodeHasIt); }
    }

    method ReleaseOrRetry(dbFails: bool)
      requires db.Valid() && Enabled(db.Now(), ParkAndRelease)
      modifies db
      ensures db.Ran() && db.mem.None? && OnlyRow(old(db.mem).value.order)
      ensures var i := old(db.mem).value.order;
        && Parked(old(db.withdrawals)[i], db.withdrawals[i], !dbFails)
        && db.coins == if dbFails then old(db.coins) else Release(old(db.coins), ByPayout(i))
    {
      if dbFails { Drop(false); } else { DoParkAndRelease(); }
    }

    /** Re-send later while that may help, otherwise park with the inputs held. */
    method RetryOrPark(dbFails: bool)
      requires db.Valid() && InHand(db.Now()) && (db.mem.value.outcome.Failed? || db.mem.value.outcome.RefusalSettled?)
      modifies db
      ensures db.Ran() && db.mem.None? && OnlyRow(old(db.mem).value.order) && db.coins == old(db.coins)
      ensures var m := old(db.mem).value;
        Parked(old(db.withdrawals)[m.order], db.withdrawals[m.order],
               !dbFails && !(m.outcome.transient && m.sinceRetry + 1 < MAX_SEND_ATTEMPTS))
    {
      var m := db.mem.value;
      if (m.outcome.transient && m.sinceRetry + 1 < MAX_SEND_ATTEMPTS) || dbFails { Drop(false); } else { DoParkHeld(); }
    }

    /** Writing a refusal down moves nothing else; it may fail. */
    method SettleRefusal(written: bool)
      requires db.Valid() && InHand(db.Now()) && db.mem.value.outcome.Refused?
      modifies db
      ensures db.Ran() && db.coins == old(db.coins) && OnlyRow(old(db.mem).value.order) && InHand(db.Now())
      ensures db.mem == Some(old(db.mem).value.(outcome := RefusalSettled(old(db.mem).value.outcome.transient)))
      ensures var i, w := old(db.mem).value.order, old(db.withdrawals)[old(db.mem).value.order];
        Parked(if written then WithEvent(w, RefusedEvent(db.mem.value.tx)) else w, db.withdrawals[i], false)
    {
      WriteRefusal(written);
    }

    /** Step 4: a refusal frees the inputs only when no earlier send of this transaction may be out. */
    method HandleRefusal(r: Reply)
      requires db.Valid() && InHand(db.Now()) && db.mem.value.outcome.Refused? && r.outcome == db.mem.value.outcome && !Out(r)
      modifies db
      ensures db.Ran() && db.mem.None? && OnlyRow(old(db.mem).value.order)
      ensures var m := old(db.mem).value; Settled(old(db.withdrawals)[m.order], db.withdrawals[m.order], m, r)
      ensures var m := old(db.mem).value;
        db.coins == if Frees(m, r) && !r.dbFails then Release(old(db.coins), ByPayout(m.order)) else old(db.coins)
    {
      var m := db.mem.value;
      SettleRefusal(r.written);
      if m.thisTx == 0 && !m.retried && r.has.No? {
        ReleaseOrRetry(r.dbFails);
      } else if m.thisTx == 0 && !m.retried && r.has.Unreachable? {
        Drop(false);
      } else {
        RetryOrPark(r.dbFails);
      }
    }

    /** The answer is remembered; nothing is written. */
    method TakeAnswer(outcome: Outcome)
      requires db.Valid() && Enabled(db.Now(), Answered(outcome))
      modifies db
      ensures db.Ran() && db.coins == old(db.coins) && OnlyRow(old(db.mem).value.order) && InHand(db.Now())
      ensures db.mem == Some(old(db.mem).value.(outcome := outcome))
      ensures Parked(old(db.withdrawals)[old(db.mem).value.order], db.withdrawals[old(db.mem).value.order], false)
    {
      Send(outcome);
    }

    /** Steps 2 to 6: what the node answered decides what is written, both ways. */
    method HandleAnswer(r: Reply)
      requires db.Valid() && Enabled(db.Now(), Answered(r.outcome)) && db.withdrawals[db.mem.value.order].payout.Some?
      modifies db
      ensures db.Ran() && db.mem.None? && OnlyRow(old(db.mem).value.order)
      ensures var m := old(db.mem).value; Settled(old(db.withdrawals)[m.order], db.withdrawals[m.order], m, r)
      ensures db.coins == CoinsAfter(old(db.coins), old(db.mem).value, r)
    {
      TakeAnswer(r.outcome);
      if r.outcome.Accepted? {
        CommitOrRetry(false, r.dbFails);
      } else if r.alreadyInChain || r.has.InMempool? || r.has.InChain? {
        CommitOrRetry(true, r.dbFails);
      } else if r.outcome.Refused? {
        HandleRefusal(r);
      } else {
        RetryOrPark(r.dbFails);
      }
    }

    /** Write the attempt down before sending anything. */
    method StartSend(i: nat)
      requires db.Valid() && db.mem.None? && i < |db.withdrawals| && ToSend(db.withdrawals[i])
      modifies db
      ensures db.Ran() && InHand(db.Now()) && db.mem == Some(SendOf(i, old(db.withdrawals)[i])) && |db.withdrawals| >= |old(db.withdrawals)|
      ensures db.withdrawals[i] == WithEvent(old(db.withdrawals)[i], AttemptEvent(db.mem.value.tx))
      ensures forall j :: 0 <= j < |old(db.withdrawals)| && j != i ==> OnlyRequeued(old(db.withdrawals)[j], db.withdrawals[j])
      ensures old(db.coins) <= db.coins
    {
      RecordBroadcastAttempt(i);
      assert db.withdrawals[i].state.Signed?;
      db.TimePasses();
    }

    /** The node answers, or the process dies first. */
    method FinishSend(r: Option<Reply>, sent: bool)
      requires db.Valid() && InHand(db.Now()) && db.mem.value.outcome.Pending? && db.withdrawals[db.mem.value.order].payout.Some?
      requires r.Some? ==> IsAnswer(r.value.outcome)
      modifies db
      ensures db.Ran() && db.mem.None? && OnlyRow(old(db.mem).value.order)
      ensures var m := old(db.mem).value;
        if r.Some? then Settled(old(db.withdrawals)[m.order], db.withdrawals[m.order], m, r.value)
        else Parked(old(db.withdrawals)[m.order], db.withdrawals[m.order], false)
      ensures db.coins == if r.Some? then CoinsAfter(old(db.coins), old(db.mem).value, r.value) else old(db.coins)
    {
      if r.Some? { HandleAnswer(r.value); } else { Drop(sent); }
    }

    /** One signed payout, from recording the attempt to exactly what the answer calls for. */
    method BroadcastOne(i: nat, r: Option<Reply>, sent: bool)
      requires db.Valid() && db.mem.None? && i < |db.withdrawals| && ToSend(db.withdrawals[i]) && (r.Some? ==> IsAnswer(r.value.outcome))
      modifies db
      ensures db.Ran() && db.mem.None? && |db.withdrawals| >= |old(db.withdrawals)|
      ensures SentOrKept(old(db.withdrawals)[i], db.withdrawals[i]) && Ended(i, old(db.withdrawals)[i], db.withdrawals[i], r)
      ensures forall j :: 0 <= j < |old(db.withdrawals)| && j != i ==> OnlyRequeued(old(db.withdrawals)[j], db.withdrawals[j])
      ensures PoolAfter(old(db.coins), db.coins, SendOf(i, old(db.withdrawals)[i]), r)
    {
      StartSend(i);
      if r.Some? { CoinsAfterMeans(db.coins, db.mem.value, r.value); }
      FinishSend(r, sent);
      AttemptThenHandled(i, old(db.withdrawals)[i], db.withdrawals[i], r);
    }

    /**
     * Every signed payout not yet sent is sent once, never without an attempt on record, and ends with its coins as its own
     * answer calls for; other rows and coins are left alone.
     */
    method BroadcastSigned(recorded: nat -> bool, replies: nat -> Option<Reply>, sent: bool)
      requires db.Valid() && db.mem.None? && forall i :: replies(i).Some? ==> IsAnswer(replies(i).value.outcome)
      modifies db
      ensures db.Ran() && db.mem.None? && SendPass(old(db.Now()), db.Now(), recorded, replies)
    {
      ghost var start := db.withdrawals;
      for i := 0 to |db.withdrawals|
        invariant db.Ran() && db.mem.None? && |db.withdrawals| >= |start|
        invariant forall j :: 0 <= j < i ==> Tried(j, start[j], db.withdrawals[j], recorded(j), replies(j))
        invariant forall j :: i <= j < |start| ==> OnlyRequeued(start[j], db.withdrawals[j])
        invariant PoolTried(old(db.coins), db.coins, start, i, recorded, replies)
      {
        ghost var before, pool := db.withdrawals, db.coins;
        var w := db.withdrawals[i];
        var send := w.state.Signed? && w.payout.Some? && w.payout.value.txid.None? && Newest(w.log).Some? && recorded(i);
        if send { BroadcastOne(i, replies(i), sent); }
        PoolTriedNext(old(db.coins), pool, db.coins, start, i, recorded, replies);
        forall j | 0 <= j < |start|
          ensures if j <= i then Tried(j, start[j], db.withdrawals[j], recorded(j), replies(j)) else OnlyRequeued(start[j], db.withdrawals[j])
        {
          TriedOnce(j, start[j], before[j], db.withdrawals[j], recorded(j), replies(j), j < i, j == i && send);
        }
      }
    }

    // ── Job 3: broadcast to completed ──────────────────────────────────────

    method Advance(i: nat, a: Action)
      requires db.Valid() && i < |db.withdrawals| && Enabled(db.Now(), a)
      requires a == Confirm(i) || a == Complete(i) || a == ParkBroadcast(i)
      modifies db
      ensures db.Did(a)
    {
      ghost var before := db.Now();
      var next := if a.Confirm? then Confirmed else if a.Complete? then Completed else ManualReview;
      db.withdrawals := db.withdrawals[i := db.withdrawals[i].(state := next)];
      db.Log(a, before);
    }

    method SendAgain(i: nat)
      requires db.Valid() && Enabled(db.Now(), Resend(i))
      modifies db
      ensures db.Did(Resend(i))
    {
      ghost var before := db.Now();
      var w := db.withdrawals[i];
      db.withdrawals := db.withdrawals[i := w.(history := w.history + [Resent(w.payout.value.txid.value)])];
      db.Log(Resend(i), before);
    }

    /** No payout is ever left with as many refused re-sends in a row as park it. */
    predicate Patient()
      reads this`resendState
    {
      forall i :: i in resendState ==> resendState[i].failures < RESEND_FORGOTTEN_MAX_FAILURES
    }

    /** Is the transaction with the recorded txid stored? */
    method FindSigned(log: seq<Event>, txid: Tx) returns (found: bool)
      ensures found <==> exists p :: 0 <= p < |log| && log[p] == SignedEvent(txid)
    {
      found := false;
      for p := 0 to |log|
        invariant found <==> exists q :: 0 <= q < p && log[q] == SignedEvent(txid)
      {
        if log[p] == SignedEvent(txid) { found := true; }
      }
    }

    lemma TrailHasIt(i: nat)
      requires db.Valid() && i < |db.withdrawals| && Sent(db.withdrawals[i])
      ensures var w := db.withdrawals[i]; exists p :: 0 <= p < |w.log| && w.log[p] == SignedEvent(w.payout.value.txid.value)
    {
      db.Invariants();
      assert PayoutOk(db.withdrawals[i], Owned(db.coins, ByPayout(i)), OwnedSat(db.coins, ByPayout(i)));
      LogEventSigned(db.withdrawals[i].log);
    }

    /** The order i is this now, and nothing else is different. */
    twostate predicate OnlyOrder(i: nat, w: Withdrawal)
      reads db
      requires i < |old(db.withdrawals)|
    {
      db.mem == old(db.mem) && db.coins == old(db.coins) && db.withdrawals == old(db.withdrawals)[i := w]
    }

    /** No count but this payout's is different. */
    twostate predicate OnlyCount(i: nat, st: Option<ResendState>)
      reads this`resendState
    {
      resendState == if st.Some? then old(resendState)[i := st.value] else old(resendState) - {i}
    }

    function CountOf(i: nat): Option<ResendState>
      reads this`resendState
    {
      if i in resendState then Some(resendState[i]) else None
    }

    /** Park the order and forget the count. */
    method GiveUp(i: nat)
      requires db.Valid() && i < |db.withdrawals| && db.withdrawals[i].state.Broadcast? && Patient()
      modifies this`resendState, db
      ensures db.Ran() && OnlyOrder(i, old(db.withdrawals)[i].(state := ManualReview)) && Patient() && OnlyCount(i, None)
    {
      resendState := resendState - {i};
      Advance(i, ParkBroadcast(i));
    }

    /** The third refusal in a row parks the order and forgets the count. */
    method CountRefusal(i: nat, st: ResendState)
      requires db.Valid() && i < |db.withdrawals| && db.withdrawals[i].state.Broadcast? && Patient()
      requires st.failures < RESEND_FORGOTTEN_MAX_FAILURES
      modifies this`resendState, db
      ensures db.Ran() && Patient()
      ensures OnlyOrder(i, if st.failures == RESEND_FORGOTTEN_MAX_FAILURES - 1 then old(db.withdrawals)[i].(state := ManualReview)
                           else old(db.withdrawals)[i])
      ensures OnlyCount(i, if st.failures == RESEND_FORGOTTEN_MAX_FAILURES - 1 then None else Some(st.(failures := st.failures + 1)))
    {
      if st.failures + 1 < RESEND_FORGOTTEN_MAX_FAILURES {
        resendState := resendState[i := st.(failures := st.failures + 1)];
      } else {
        GiveUp(i);
      }
    }

    /**
     * Re-send the recorded transaction, which the trail always holds, at most once per interval. Exactly the third
     * refusal in a row parks the order; a re-send that gets through starts the count again, and a node that cannot be
     * reached leaves it.
     */
    method ResendForgotten(i: nat, look: Look)
      requires db.Valid() && i < |db.withdrawals| && db.withdrawals[i].state.Broadcast? && Sent(db.withdrawals[i]) && Patient()
      modifies this`resendState, db
      ensures db.Ran() && Patient() && OnlyOrder(i, ResentAs(old(db.withdrawals)[i], old(CountOf(i)), look))
      ensures if IsDue(old(CountOf(i)), look) then OnlyCount(i, CountAfter(old(CountOf(i)), look)) else resendState == old(resendState)
    {
      if look.tooRecent { return; }
      var st := if i in resendState then resendState[i] else ResendState(0, 0);
      if look.nowMs - st.last < RESEND_FORGOTTEN_AFTER_MS { return; }
      st := st.(last := look.nowMs);
      resendState := resendState[i := st];
      var found := FindSigned(db.withdrawals[i].log, db.withdrawals[i].payout.value.txid.value);
      TrailHasIt(i);
      assert found;
      ResendNow(i, st, look);
    }

    method ResendNow(i: nat, st: ResendState, look: Look)
      requires db.Valid() && i < |db.withdrawals| && db.withdrawals[i].state.Broadcast? && Sent(db.withdrawals[i]) && Patient()
      requires st.failures < RESEND_FORGOTTEN_MAX_FAILURES && st.last == look.nowMs && i in resendState && resendState[i] == st
      modifies this`resendState, db
      ensures db.Ran() && Patient() && OnlyOrder(i, ResentNow(old(db.withdrawals)[i], st.failures, look.resend))
      ensures OnlyCount(i, CountNow(st, look.resend))
    {
      if look.resend.RefusedAgain? {
        CountRefusal(i, st);
        return;
      }
      if !look.resend.Silent? { resendState := resendState[i := st.(failures := 0)]; }
      if !look.resend.AlreadyMined? { SendOnce(i); }
    }

    /** Out again, and nothing else is different. */
    method SendOnce(i: nat)
      requires db.Valid() && i < |db.withdrawals| && db.withdrawals[i].state.Broadcast? && Sent(db.withdrawals[i])
      modifies db
      ensures db.Ran() && OnlyOrder(i, old(db.withdrawals)[i].(history := old(db.withdrawals)[i].history + [Resent(old(db.withdrawals)[i].payout.value.txid.value)]))
    {
      SendAgain(i);
    }

    /**
     * Three confirmations complete a payout, in two transactions. When the second fails, or the process dies before
     * it, the order is left at PAYOUT_CONFIRMED, and no job picks it up again. One the node does not know is sent again.
     */
    method ConfirmOne(i: nat, look: Look) returns (finished: bool)
      requires db.Valid() && i < |db.withdrawals| && db.withdrawals[i].state.Broadcast? && Sent(db.withdrawals[i]) && Patient()
      modifies this`resendState, db
      ensures db.Ran() && Patient() && OnlyOrder(i, LookedAt(old(db.withdrawals)[i], old(CountOf(i)), look))
      ensures forall j :: j != i ==> CountOf(j) == old(CountOf(j))
      ensures CountOf(i) == CountLooked(old(CountOf(i)), look)
      ensures finished <==> !Throws(look)
    {
      finished := true;
      if look.confirmations < 0 || (look.confirmations == 0 && look.inPool.No?) {
        ResendForgotten(i, look);
        return;
      }
      if look.confirmations < PAYOUT_MIN_CONFIRMATIONS { return; }
      resendState := resendState - {i};
      WriteConfirmed(i, look);
      finished := look.confirmWritten && look.completeWritten;
    }

    method WriteConfirmed(i: nat, look: Look)
      requires db.Valid() && i < |db.withdrawals| && db.withdrawals[i].state.Broadcast?
      modifies db
      ensures db.Ran() && OnlyOrder(i, ConfirmedAs(old(db.withdrawals)[i], look))
    {
      if look.confirmWritten { Advance(i, Confirm(i)); }
      if look.confirmWritten && look.completeWritten { Advance(i, Complete(i)); }
    }

    /** Every broadcast payout that could be asked about, up to the first whose transactions fail: stop. */
    method ConfirmBroadcast(looks: nat -> Option<Look>) returns (stop: nat)
      requires db.Valid() && Patient()
      modifies this`resendState, db
      ensures db.Ran() && Patient() && ConfirmPass(old(db.Now()), db.Now(), old(resendState), looks, stop)
      ensures CountPass(old(db.withdrawals), old(resendState), resendState, looks, stop)
    {
      var start := db.withdrawals;
      ghost var counts := resendState;
      stop := |start|;
      for i := 0 to |start|
        invariant db.Ran() && db.mem == old(db.mem) && old(db.coins) <= db.coins && Patient() && |start| <= |db.withdrawals|
        invariant stop == |start|
        invariant forall j :: 0 <= j < i ==> !(ToConfirm(start[j], looks(j)) && Throws(looks(j).value))
        invariant forall j :: 0 <= j < i ==> ConfirmedRow(start[j], db.withdrawals[j], Count(counts, j), looks(j))
        invariant forall j :: i <= j < |start| ==> OnlyRequeued(start[j], db.withdrawals[j])
        invariant CountedTo(start, counts, looks, i)
      {
        ghost var before := db.withdrawals;
        var finished := LookAt(i, start[i], looks(i));
        forall j | 0 <= j < |start| && j != i
          ensures if j < i then ConfirmedRow(start[j], db.withdrawals[j], Count(counts, j), looks(j)) else OnlyRequeued(start[j], db.withdrawals[j])
        {
          assert OnlyRequeued(before[j], db.withdrawals[j]);
        }
        if !finished { return i; }
      }
    }

    /** The counts after the first n payouts. */
    ghost predicate CountedTo(ws: seq<Withdrawal>, counts: map<nat, ResendState>, looks: nat -> Option<Look>, n: nat)
      reads this`resendState
    {
      forall i: nat :: CountOf(i) ==
        if i < n && i < |ws| && ToConfirm(ws[i], looks(i)) then CountLooked(Count(counts, i), looks(i).value) else Count(counts, i)
    }

    /** One payout's turn; nothing is done for one the node cannot be asked about. */
    method LookAt(i: nat, w: Withdrawal, look: Option<Look>) returns (finished: bool)
      requires db.Valid() && i < |db.withdrawals| && OnlyRequeued(w, db.withdrawals[i]) && Patient()
      modifies this`resendState, db
      ensures db.Ran() && db.mem == old(db.mem) && old(db.coins) <= db.coins && Patient() && |old(db.withdrawals)| <= |db.withdrawals|
      ensures forall j :: 0 <= j < |old(db.withdrawals)| && j != i ==> OnlyRequeued(old(db.withdrawals)[j], db.withdrawals[j])
      ensures ConfirmedRow(w, db.withdrawals[i], old(CountOf(i)), look)
      ensures forall j :: j != i ==> CountOf(j) == old(CountOf(j))
      ensures CountOf(i) == if ToConfirm(w, look) then CountLooked(old(CountOf(i)), look.value) else old(CountOf(i))
      ensures finished <==> !(ToConfirm(w, look) && Throws(look.value))
    {
      db.TimePasses();
      finished := true;
      if w.state.Broadcast? && w.payout.Some? && w.payout.value.txid.Some? && look.Some? {
        finished := ConfirmOne(i, look.value);
      }
    }

    method SendAndConfirm(round: Round, ghost t: Stops) returns (ghost t': Stops)
      requires db.Valid() && db.mem.None? && Patient() && forall i :: round.replies(i).Some? ==> IsAnswer(round.replies(i).value.outcome)
      requires t.queued == db.Now()
      modifies this`resendState, db
      ensures db.Ran() && db.mem.None? && Patient() && t'.pools == t.pools && t'.queued == t.queued
      ensures Undisturbed(t'.queued, t'.sending) && SendPass(t'.sending, t'.sent, round.recorded, round.replies)
      ensures if round.sendThrew then db.Now() == t'.sent && resendState == old(resendState)
              else
                && ConfirmPass(t'.sent, db.Now(), old(resendState), round.looks, t'.confirmStop)
                && CountPass(t'.sent.withdrawals, old(resendState), resendState, round.looks, t'.confirmStop)
    {
      db.TimePasses();
      t' := t.(sending := db.Now());
      BroadcastSigned(round.recorded, round.replies, round.sent);
      t' := t'.(sent := db.Now());
      if round.sendThrew { return; }
      var stop := ConfirmBroadcast(round.looks);
      t' := t'.(confirmStop := stop);
    }

    /** The three payout jobs; one that throws ends the round. */
    method PayOut(round: Round) returns (ghost t: Stops)
      requires db.Valid() && db.mem.None? && Patient() && forall i :: round.replies(i).Some? ==> IsAnswer(round.replies(i).value.outcome)
      modifies this`resendState, db
      ensures db.Ran() && db.mem.None? && Patient()
      ensures RoundDone(old(db.Now()), db.Now(), t, round, old(resendState), resendState, payoutMinSat, db.rate)
    {
      ghost var pools := ProcessQueued(round);
      t := Stops(pools, db.Now(), db.Now(), db.Now(), 0);
      if round.queueThrew { return; }
      t := SendAndConfirm(round, t);
    }

    method PayOutLater(round: Round) returns (ghost t: Stops, ghost started: State)
      requires db.Valid() && db.mem.None? && Patient() && forall i :: round.replies(i).Some? ==> IsAnswer(round.replies(i).value.outcome)
      modifies this`resendState, db
      ensures db.Ran() && db.mem.None? && Patient() && db.ConfirmedStay() && Undisturbed(old(db.Now()), started)
      ensures RoundDone(started, db.Now(), t, round, old(resendState), resendState, payoutMinSat, db.rate)
    {
      db.TimePasses();
      started := db.Now();
      t := PayOut(round);
      ConfirmedThrough(started, db.Now(), t, round, old(resendState), resendState, payoutMinSat, db.rate);
    }

    /** The refund jobs, when this process runs them. */
    method RefundLater(refundRound: Refunds.Round) returns (ghost rt: Refunds.Stops)
      requires db.Valid() && (refunds != null ==> refunds.db == db)
      modifies db
      ensures db.Ran() && db.mem == old(db.mem) && db.Requeued()
      ensures if refunds == null then db.Now() == old(db.Now()) else Refunds.RoundDone(old(db.Now()), db.Now(), rt, refundRound, db.rate)
    {
      ghost var s := db.Now();
      rt := Refunds.Stops(s, s, [], s, s, s, s);
      if refunds != null { rt := refunds.Poll(refundRound); }
    }

    /**
     * Sign, send, confirm, and then the refunds, whether or not a payout job threw. On one database: whatever
     * happened, it is a run of the ledger, and an order left at PAYOUT_CONFIRMED is still there.
     */
    method Poll(round: Round, refundRound: Refunds.Round) returns (ghost t: Stops, ghost started: State, ghost paid: State, ghost rt: Refunds.Stops)
      requires db.Valid() && db.mem.None? && Patient() && (refunds != null ==> refunds.db == db)
      requires forall i :: round.replies(i).Some? ==> IsAnswer(round.replies(i).value.outcome)
      modifies this`resendState, db
      ensures db.Ran() && db.mem.None? && Patient() && db.ConfirmedStay() && Reachable(db.rate, db.Now())
      ensures Undisturbed(old(db.Now()), started)
      ensures RoundDone(started, paid, t, round, old(resendState), resendState, payoutMinSat, db.rate)
      ensures if refunds == null then db.Now() == paid else Refunds.RoundDone(paid, db.Now(), rt, refundRound, db.rate)
    {
      t, started := PayOutLater(round);
      paid := db.Now();
      rt := RefundLater(refundRound);
      db.IsReachable();
    }
  }
}
