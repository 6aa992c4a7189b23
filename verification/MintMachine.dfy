/**
 * The mint pipeline as a state machine: the bridge's rows, the wBOB contract, and the executor
 * account's transactions. Every database transaction, chain event and crash is one action.
 */
module MintMachine {
  import opened Coins
  import opened MintCapacity
  import opened Sums

  const SIGNATURE_THRESHOLD := 3

  datatype SigEntry = SigEntry(signer: nat, sig: nat)

  /** The MintAuthorization the watchers sign; order stands for depositId, recipient and source outpoint. */
  datatype Auth = Auth(order: nat, amount: nat, deadline: nat, nonce: nat)

  datatype SubmitError = AlreadyProcessed | OtherRefusal

  datatype Request = Request(
    amountSat: nat, mintNonce: nat, deadline: nat,
    signatures: seq<SigEntry>, signatureCount: nat,
    gnosisTxHash: Option<nat>, lastSubmitError: Option<SubmitError>)

  datatype OrderState = Finalized | AuthCreated | Submitted | MintConfirmed | Completed | Failed | Refunded

  datatype Order = Order(depositSat: nat, state: OrderState, request: Option<Request>)

  /** hash: the transaction's place in the executor account's nonce order, which identifies it. */
  datatype SentTx = SentTx(hash: nat, auth: Auth, sigs: seq<SigEntry>)

  datatype State = State(
    orders: seq<Order>,
    chain: ChainState,
    processed: set<nat>,          // processedDeposits, by order
    minedAt: map<nat, nat>,       // transaction -> block
    executed: set<nat>,           // the mined transactions that did not revert
    pending: seq<SentTx>,         // sent, not yet mined
    settled: nat,                 // every transaction below this is mined or can no longer be
    nextHash: nat,
    reading: Option<ChainState>,  // the cap state a split is being decided on
    unrecorded: Option<SentTx>)   // sent, database row not yet updated

  function AuthOf(s: State, i: nat): Auth
    requires i < |s.orders| && s.orders[i].request.Some?
  {
    var r := s.orders[i].request.value;
    Auth(i, r.amountSat, r.deadline, r.mintNonce)
  }

  /** At least three entries, by different signers, each recovering to its signer over exactly this authorization. */
  predicate ThresholdMet(recover: (Auth, nat) -> Option<nat>, auth: Auth, sigs: seq<SigEntry>) {
    && |sigs| >= SIGNATURE_THRESHOLD
    && (forall k :: 0 <= k < |sigs| ==> recover(auth, sigs[k].sig) == Some(sigs[k].signer))
    && (forall j, k :: 0 <= j < k < |sigs| ==> sigs[j].signer != sigs[k].signer)
  }

  // ── Commitments ──────────────────────────────────────────────────────────

  predicate Committed(o: Order) {
    (o.state.AuthCreated? || o.state.Submitted?) && o.request.Some?
  }

  /** What a row reserves, given the transactions known to be mined. */
  function Reserved(o: Order, seen: set<nat>): nat {
    if Committed(o) && Outstanding(Reservation(o.request.value.amountSat, o.request.value.gnosisTxHash), seen)
    then o.request.value.amountSat else 0
  }

  function RowReserved(orders: seq<Order>, seen: set<nat>): nat -> int {
    (i: nat) => if i < |orders| then Reserved(orders[i], seen) else 0
  }

  function ReservedTotal(orders: seq<Order>, seen: set<nat>): nat {
    SumNonNegative(RowReserved(orders, seen), |orders|);
    SumTo(RowReserved(orders, seen), |orders|)
  }

  /** What may still be minted: reserved rows the contract has not processed. */
  function RowOwed(s: State): nat -> int {
    (i: nat) => if i < |s.orders| && i !in s.processed then Reserved(s.orders[i], s.minedAt.Keys) else 0
  }

  function Owed(s: State): int {
    SumTo(RowOwed(s), |s.orders|)
  }

  function MinedBy(s: State, block: nat): set<nat> {
    set h | h in s.minedAt && s.minedAt[h] <= block
  }

  // ── Actions ──────────────────────────────────────────────────────────────

  datatype Action =
    | NewBlock(time: nat)
    | Mine(k: nat, time: nat, refused: bool)     // refused: for any reason but the cap
    | Burn(amount: nat)
    | DepositFinalized(depositSat: nat)
    | ReadCap
    | AbandonDecision
    | Decide(order: nat, seen: set<nat>, nonce: nat, deadline: nat)
    | Regenerate(order: nat, nonce: nat, deadline: nat)
    | AppendSignature(order: nat, entry: SigEntry)
    | Prune(order: nat, original: seq<SigEntry>, keep: seq<SigEntry>)
    | RecordError(order: nat, error: SubmitError)
    | Send(order: nat, sigs: seq<SigEntry>)
    | RecordSend
    | Crash
    | ConfirmMint(order: nat)
    | FailMint(order: nat)
    | CompleteMint(order: nat)

  /** The amount a decision on these readings mints. */
  function Split(s: State, i: nat, seen: set<nat>): DepositSplit
    requires s.reading.Some? && i < |s.orders| && s.orders[i].depositSat > 0
  {
    var c := s.reading.value;
    SplitDeposit(s.orders[i].depositSat,
      AvailableCapacity(ComputeCapWindow(c, c.blockTimestamp), ReservedTotal(s.orders, seen))).value
  }

  predicate Enabled(recover: (Auth, nat) -> Option<nat>, s: State, a: Action) {
    match a
    case NewBlock(time) => time >= s.chain.blockTimestamp
    case Mine(k, time, _) => k < |s.pending| && time >= s.chain.blockTimestamp
    case Burn(amount) => amount <= s.chain.totalSupply
    case DepositFinalized(d) => d > 0
    case ReadCap => s.unrecorded.None?
    case AbandonDecision => true
    case Decide(i, seen, _, _) =>
      && s.reading.Some? && i < |s.orders| && s.orders[i].state.Finalized? && s.orders[i].request.None?
      && s.orders[i].depositSat > 0
      && seen <= MinedBy(s, s.reading.value.blockNumber)
    case Regenerate(i, _, _) => Idle(s) && i < |s.orders| && s.orders[i].state.AuthCreated? && Unsent(s.orders[i])
    case AppendSignature(i, e) =>
      i < |s.orders| && s.orders[i].request.Some?
      && forall k :: 0 <= k < |s.orders[i].request.value.signatures| ==> s.orders[i].request.value.signatures[k].signer != e.signer
    case Prune(i, original, _) =>
      i < |s.orders| && Unsent(s.orders[i]) && s.orders[i].request.value.signatures == original
    case RecordError(i, _) => i < |s.orders| && s.orders[i].request.Some?
    case Send(i, sigs) =>
      && Idle(s) && i < |s.orders| && s.orders[i].state.AuthCreated? && Unsent(s.orders[i])
      && ThresholdMet(recover, AuthOf(s, i), sigs)
    case RecordSend => s.unrecorded.Some?
    case Crash => true
    case ConfirmMint(i) =>
      && Idle(s) && i < |s.orders| && s.orders[i].state.Submitted? && s.orders[i].request.Some?
      && Mined(s, s.orders[i].request.value.gnosisTxHash) && s.orders[i].request.value.gnosisTxHash.value in s.executed
    case FailMint(i) =>
      && Idle(s) && i < |s.orders| && s.orders[i].state.Submitted? && s.orders[i].request.Some?
      && Mined(s, s.orders[i].request.value.gnosisTxHash) && s.orders[i].request.value.gnosisTxHash.value !in s.executed
    case CompleteMint(i) => Idle(s) && i < |s.orders| && s.orders[i].state.MintConfirmed? && s.orders[i].request.Some?
  }

  /** One process runs its jobs in sequence: nothing else of its own happens inside a decision or a send. */
  predicate Idle(s: State) {
    s.reading.None? && s.unrecorded.None?
  }

  predicate Unsent(o: Order) {
    o.request.Some? && o.request.value.gnosisTxHash.None?
  }

  predicate Mined(s: State, h: Option<nat>) {
    h.Some? && h.value in s.minedAt
  }

  function WithRequest(s: State, i: nat, r: Request): State
    requires i < |s.orders|
  {
    s.(orders := s.orders[i := s.orders[i].(request := Some(r))])
  }

  function WithState(s: State, i: nat, st: OrderState): State
    requires i < |s.orders|
  {
    s.(orders := s.orders[i := s.orders[i].(state := st)])
  }

  /** Does the contract execute this transaction in a block at `time`? */
  predicate Executes(s: State, t: SentTx, time: nat, refused: bool) {
    !refused && t.auth.order !in s.processed && MintAllowed(s.chain, time, t.auth.amount)
  }

  function AfterBlock(s: State, time: nat): State {
    s.(chain := s.chain.(blockNumber := s.chain.blockNumber + 1, blockTimestamp := time))
  }

  /** The k-th pending transaction is mined alone in a new block; those sent before it never will be. */
  function AfterMined(s: State, k: nat, time: nat, ok: bool): State
    requires k < |s.pending|
  {
    var t := s.pending[k];
    var c := if ok then AfterMint(s.chain, time, t.auth.amount) else s.chain;
    s.(chain := c.(blockNumber := s.chain.blockNumber + 1, blockTimestamp := time),
       processed := if ok then s.processed + {t.auth.order} else s.processed,
       executed := if ok then s.executed + {t.hash} else s.executed,
       minedAt := s.minedAt[t.hash := s.chain.blockNumber + 1],
       pending := s.pending[k + 1..],
       settled := t.hash + 1)
  }

  /** A decision replaces the row's state and, when something is minted, creates its request. */
  function AfterDecision(s: State, i: nat, mint: nat, nonce: nat, deadline: nat): State
    requires i < |s.orders|
  {
    var o := s.orders[i];
    s.(reading := None,
       orders := s.orders[i := if mint > 0
                               then o.(state := AuthCreated, request := Some(Request(mint, nonce, deadline, [], 0, None, None)))
                               else o.(state := Refunded)])
  }

  function AfterSend(s: State, t: SentTx): State {
    s.(pending := s.pending + [t], nextHash := s.nextHash + 1, unrecorded := Some(t))
  }

  function AfterRecord(s: State, t: SentTx): State {
    var s' := s.(unrecorded := None);
    var i := t.auth.order;
    if i < |s.orders| && s.orders[i].state.AuthCreated? && s.orders[i].request.Some? then
      s'.(orders := s.orders[i := s.orders[i].(state := Submitted,
            request := Some(s.orders[i].request.value.(gnosisTxHash := Some(t.hash), lastSubmitError := None)))])
    else s'
  }

  function Next(recover: (Auth, nat) -> Option<nat>, s: State, a: Action): State
    requires Enabled(recover, s, a)
  {
    match a
    case NewBlock(time) => AfterBlock(s, time)
    case Mine(k, time, refused) => AfterMined(s, k, time, Executes(s, s.pending[k], time, refused))
    case Burn(amount) => s.(chain := s.chain.(totalSupply := s.chain.totalSupply - amount))
    case DepositFinalized(d) => s.(orders := s.orders + [Order(d, Finalized, None)])
    case ReadCap => s.(reading := Some(s.chain))
    case AbandonDecision => s.(reading := None)
    case Decide(i, seen, nonce, deadline) => AfterDecision(s, i, Split(s, i, seen).mintSat, nonce, deadline)
    case Regenerate(i, nonce, deadline) =>
      WithRequest(s, i, s.orders[i].request.value.(mintNonce := nonce, deadline := deadline,
        signatures := [], signatureCount := 0, lastSubmitError := None))
    case AppendSignature(i, e) =>
      var r := s.orders[i].request.value;
      WithRequest(s, i, r.(signatures := r.signatures + [e], signatureCount := |r.signatures| + 1))
    case Prune(i, _, keep) => WithRequest(s, i, s.orders[i].request.value.(signatures := keep, signatureCount := |keep|))
    case RecordError(i, e) => WithRequest(s, i, s.orders[i].request.value.(lastSubmitError := Some(e)))
    case Send(i, sigs) => AfterSend(s, SentTx(s.nextHash, AuthOf(s, i), sigs))
    case RecordSend => AfterRecord(s, s.unrecorded.value)
    case Crash => s.(reading := None, unrecorded := None)
    case ConfirmMint(i) => WithState(s, i, MintConfirmed)
    case FailMint(i) => WithState(s, i, Failed)
    case CompleteMint(i) => WithState(s, i, Completed)
  }

  // ── Invariants ───────────────────────────────────────────────────────────

  /** Everything minted today plus everything that may still be minted fits under both limits. */
  predicate WithinCap(s: State) {
    && EffectiveMinted(s.chain, s.chain.blockTimestamp) + Owed(s) <= s.chain.dailyMintLimit
    && (s.chain.maxSupply > 0 ==> s.chain.totalSupply + Owed(s) <= s.chain.maxSupply)
  }

  predicate RowOk(o: Order) {
    && (o.state.Finalized? || o.state.Refunded? ==> o.request.None?)
    && (o.state.AuthCreated? ==> Unsent(o))
    && (o.state.Submitted? ==> o.request.Some? && o.request.value.gnosisTxHash.Some?)
    && (o.request.Some? ==> o.request.value.signatureCount == |o.request.value.signatures|)
  }

  predicate Rows(s: State) {
    && (forall i :: 0 <= i < |s.orders| ==> RowOk(s.orders[i]))
    && (forall i :: i in s.processed ==> i < |s.orders| && s.orders[i].request.Some?)
    && (forall h :: h in s.minedAt ==> h < s.settled)
    && s.settled <= s.nextHash
  }

  /** A pending transaction is for a decided amount that is still reserved, unless its order was minted already. */
  predicate PendingOk(s: State, t: SentTx) {
    && s.settled <= t.hash < s.nextHash
    && t.auth.order < |s.orders|
    && var o := s.orders[t.auth.order];
    && o.request.Some? && o.request.value.amountSat == t.auth.amount
    && (t.auth.order !in s.processed ==> Committed(o))
    && (o.request.value.gnosisTxHash.Some? ==> t.hash <= o.request.value.gnosisTxHash.value)
  }

  predicate Queue(s: State) {
    && (forall k :: 0 <= k < |s.pending| ==> PendingOk(s, s.pending[k]))
    && (forall j, k :: 0 <= j < k < |s.pending| ==> s.pending[j].hash < s.pending[k].hash)
  }

  predicate InFlight(s: State) {
    s.unrecorded.Some? ==>
      && s.reading.None?
      && var t := s.unrecorded.value;
      && t.hash < s.nextHash && t.auth.order < |s.orders|
      && Unsent(s.orders[t.auth.order]) && s.orders[t.auth.order].state.AuthCreated?
      && s.orders[t.auth.order].request.value.amountSat == t.auth.amount
      && forall k :: 0 <= k < |s.pending| && s.pending[k].auth.order == t.auth.order ==> s.pending[k].hash <= t.hash
  }

  /** Since the cap was read, chain and reservations together have not grown past what was read. */
  predicate ReadingOk(s: State) {
    s.reading.Some? ==>
      && var c, seen := s.reading.value, MinedBy(s, s.reading.value.blockNumber);
      && s.unrecorded.None?
      && c.dailyMintLimit == s.chain.dailyMintLimit && c.maxSupply == s.chain.maxSupply
      && c.blockNumber <= s.chain.blockNumber
      && EffectiveMinted(s.chain, s.chain.blockTimestamp) + Owed(s)
         <= EffectiveMinted(c, c.blockTimestamp) + ReservedTotal(s.orders, seen)
      && s.chain.totalSupply + Owed(s) <= c.totalSupply + ReservedTotal(s.orders, seen)
  }

  predicate Inv(s: State) {
    WithinCap(s) && Rows(s) && Queue(s) && InFlight(s) && ReadingOk(s)
  }

  predicate Initial(s: State) {
    && s.orders == [] && s.processed == {} && s.minedAt == map[] && s.executed == {} && s.pending == []
    && s.settled <= s.nextHash && s.reading.None? && s.unrecorded.None?
    && EffectiveMinted(s.chain, s.chain.blockTimestamp) <= s.chain.dailyMintLimit
    && (s.chain.maxSupply > 0 ==> s.chain.totalSupply <= s.chain.maxSupply)
  }

  lemma InitialInv(s: State)
    requires Initial(s)
    ensures Inv(s)
  {
  }

  // ── Each action keeps them ───────────────────────────────────────────────

  lemma SeenLess(orders: seq<Order>, seen: set<nat>, all: set<nat>)
    requires seen <= all
    ensures ReservedTotal(orders, all) <= ReservedTotal(orders, seen)
  {
    SumMonotone(RowReserved(orders, all), RowReserved(orders, seen), |orders|);
  }

  lemma OwedIsReserved(s: State, seen: set<nat>)
    requires seen <= s.minedAt.Keys
    ensures Owed(s) <= ReservedTotal(s.orders, seen)
  {
    SumMonotone(RowOwed(s), RowReserved(s.orders, seen), |s.orders|);
  }

  lemma OwedSame(s: State, s': State)
    requires s'.orders == s.orders && s'.minedAt == s.minedAt && s'.processed == s.processed
    ensures Owed(s') == Owed(s)
  {
    SumSame(RowOwed(s), RowOwed(s'), |s.orders|);
  }

  /** Replacing one row moves the total by what that row owes. */
  lemma OwedAt(s: State, s': State, i: nat, o: Order)
    requires i < |s.orders| && s'.orders == s.orders[i := o]
    requires s'.minedAt == s.minedAt && s'.processed == s.processed
    ensures i !in s.processed ==>
      Owed(s') == Owed(s) - Reserved(s.orders[i], s.minedAt.Keys) + Reserved(o, s.minedAt.Keys)
    ensures i in s.processed ==> Owed(s') == Owed(s)
  {
    SumChange(RowOwed(s), RowOwed(s'), |s.orders|, i);
  }

  lemma ReservedAt(orders: seq<Order>, i: nat, o: Order, seen: set<nat>)
    requires i < |orders|
    ensures ReservedTotal(orders[i := o], seen) == ReservedTotal(orders, seen) - Reserved(orders[i], seen) + Reserved(o, seen)
  {
    SumChange(RowReserved(orders, seen), RowReserved(orders[i := o], seen), |orders|, i);
  }

  /** Replacing one row keeps the queue in order as long as that row still backs what is pending for it. */
  lemma QueueAt(s: State, s': State, i: nat, o: Order)
    requires Rows(s) && Queue(s) && i < |s.orders| && s'.orders == s.orders[i := o]
    requires s'.minedAt == s.minedAt && s'.processed == s.processed && s'.pending == s.pending
    requires s'.settled == s.settled && s'.nextHash == s.nextHash
    requires RowOk(o) && (s.orders[i].request.Some? ==> o.request.Some? && o.request.value.amountSat == s.orders[i].request.value.amountSat)
    requires forall k :: 0 <= k < |s.pending| && s.pending[k].auth.order == i ==>
      && (i in s.processed || Committed(o))
      && o.request.Some? && (o.request.value.gnosisTxHash.Some? ==> s.pending[k].hash <= o.request.value.gnosisTxHash.value)
    ensures Rows(s') && Queue(s')
  {
    forall k | 0 <= k < |s.pending| ensures PendingOk(s', s'.pending[k]) { assert PendingOk(s, s.pending[k]); }
  }

  lemma PendingBacked(s: State, i: nat)
    requires Queue(s)
    ensures forall k :: 0 <= k < |s.pending| && s.pending[k].auth.order == i ==> PendingOk(s, s.pending[k])
  {
  }

  /** A chain in which no more has been minted, read at the same time or later. */
  predicate NotAbove(c': ChainState, c: ChainState) {
    && c'.dailyMintLimit == c.dailyMintLimit && c'.maxSupply == c.maxSupply && c.blockNumber <= c'.blockNumber
    && EffectiveMinted(c', c'.blockTimestamp) <= EffectiveMinted(c, c.blockTimestamp)
    && c'.totalSupply <= c.totalSupply
  }

  lemma ChainOnlyKeeps(s: State, s': State)
    requires Inv(s) && s' == s.(chain := s'.chain) && NotAbove(s'.chain, s.chain)
    ensures Inv(s')
  {
    OwedSame(s, s');
    forall k | 0 <= k < |s.pending| ensures PendingOk(s', s'.pending[k]) { assert PendingOk(s, s.pending[k]); }
  }

  lemma MinedOwed(s: State, k: nat, time: nat, ok: bool)
    requires Rows(s) && Queue(s) && k < |s.pending| && (ok ==> s.pending[k].auth.order !in s.processed)
    ensures Owed(AfterMined(s, k, time, ok)) + (if ok then s.pending[k].auth.amount else 0) <= Owed(s)
  {
    var s', t := AfterMined(s, k, time, ok), s.pending[k];
    assert PendingOk(s, t);
    if ok {
      var g := (n: nat) => if n == t.auth.order then 0 else RowOwed(s)(n);
      assert RowOwed(s)(t.auth.order) == t.auth.amount;
      SumChange(RowOwed(s), g, |s.orders|, t.auth.order);
      SumMonotone(RowOwed(s'), g, |s.orders|);
    } else {
      SumMonotone(RowOwed(s'), RowOwed(s), |s.orders|);
    }
  }

  lemma MinedQueue(s: State, k: nat, time: nat, ok: bool)
    requires Rows(s) && Queue(s) && k < |s.pending|
    ensures Rows(AfterMined(s, k, time, ok)) && Queue(AfterMined(s, k, time, ok))
  {
    var s', t := AfterMined(s, k, time, ok), s.pending[k];
    assert PendingOk(s, t);
    forall j | 0 <= j < |s'.pending| ensures PendingOk(s', s'.pending[j]) {
      assert s'.pending[j] == s.pending[k + 1 + j];
      assert PendingOk(s, s.pending[k + 1 + j]);
    }
  }

  lemma MinedReading(s: State, k: nat, time: nat, ok: bool)
    requires Inv(s) && k < |s.pending| && time >= s.chain.blockTimestamp
    requires ok ==> s.pending[k].auth.order !in s.processed
    ensures ReadingOk(AfterMined(s, k, time, ok))
  {
    var s' := AfterMined(s, k, time, ok);
    MinedOwed(s, k, time, ok);
    if s.reading.Some? {
      var b := s.reading.value.blockNumber;
      assert PendingOk(s, s.pending[k]);
      assert MinedBy(s', b) == MinedBy(s, b);
    }
  }

  lemma MineKeeps(s: State, k: nat, time: nat, refused: bool)
    requires Inv(s) && k < |s.pending| && time >= s.chain.blockTimestamp
    ensures Inv(AfterMined(s, k, time, Executes(s, s.pending[k], time, refused)))
  {
    var ok := Executes(s, s.pending[k], time, refused);
    MinedOwed(s, k, time, ok);
    MinedQueue(s, k, time, ok);
    MinedReading(s, k, time, ok);
  }

  lemma DepositKeeps(s: State, d: nat)
    requires Inv(s)
    ensures Inv(s.(orders := s.orders + [Order(d, Finalized, None)]))
  {
    var s' := s.(orders := s.orders + [Order(d, Finalized, None)]);
    SumSame(RowOwed(s), RowOwed(s'), |s.orders|);
    assert Owed(s') == Owed(s);
    if s.reading.Some? {
      var seen := MinedBy(s, s.reading.value.blockNumber);
      assert MinedBy(s', s.reading.value.blockNumber) == seen;
      SumSame(RowReserved(s.orders, seen), RowReserved(s'.orders, seen), |s.orders|);
      assert ReservedTotal(s'.orders, seen) == ReservedTotal(s.orders, seen);
    }
    forall k | 0 <= k < |s.pending| ensures PendingOk(s', s'.pending[k]) { assert PendingOk(s, s.pending[k]); }
  }

  lemma ReadCapKeeps(s: State)
    requires Inv(s) && s.unrecorded.None?
    ensures Inv(s.(reading := Some(s.chain)))
  {
    var s' := s.(reading := Some(s.chain));
    OwedSame(s, s');
    OwedIsReserved(s', MinedBy(s', s.chain.blockNumber));
    forall k | 0 <= k < |s.pending| ensures PendingOk(s', s'.pending[k]) { assert PendingOk(s, s.pending[k]); }
  }

  lemma ForgetKeeps(s: State, reading: Option<ChainState>, unrecorded: Option<SentTx>)
    requires Inv(s)
    requires reading.None? || reading == s.reading
    requires unrecorded.None? || unrecorded == s.unrecorded
    ensures Inv(s.(reading := reading, unrecorded := unrecorded))
  {
    var s' := s.(reading := reading, unrecorded := unrecorded);
    OwedSame(s, s');
    forall k | 0 <= k < |s.pending| ensures PendingOk(s', s'.pending[k]) { assert PendingOk(s, s.pending[k]); }
  }

  /** The decided amount still fits, whatever the chain did since the cap was read. */
  lemma DecisionFits(s: State, i: nat, seen: set<nat>)
    requires WithinCap(s) && ReadingOk(s) && s.reading.Some? && i < |s.orders| && s.orders[i].depositSat > 0
    requires seen <= MinedBy(s, s.reading.value.blockNumber)
    ensures var mint := Split(s, i, seen).mintSat;
      && EffectiveMinted(s.chain, s.chain.blockTimestamp) + Owed(s) + mint <= s.chain.dailyMintLimit
      && (s.chain.maxSupply > 0 ==> s.chain.totalSupply + Owed(s) + mint <= s.chain.maxSupply)
  {
    SeenLess(s.orders, seen, MinedBy(s, s.reading.value.blockNumber));
  }

  lemma DecideKeeps(s: State, i: nat, seen: set<nat>, nonce: nat, deadline: nat)
    requires Inv(s) && s.reading.Some? && i < |s.orders| && s.orders[i].depositSat > 0
    requires s.orders[i].state.Finalized? && s.orders[i].request.None?
    requires seen <= MinedBy(s, s.reading.value.blockNumber)
    ensures Inv(AfterDecision(s, i, Split(s, i, seen).mintSat, nonce, deadline))
  {
    var s' := AfterDecision(s, i, Split(s, i, seen).mintSat, nonce, deadline);
    DecisionFits(s, i, seen);
    PendingBacked(s, i);
    OwedAt(s, s', i, s'.orders[i]);
    QueueAt(s, s', i, s'.orders[i]);
  }

  /** Editing deadline, nonce, signatures or the last error reserves neither more nor less. */
  lemma RequestEditKeeps(s: State, i: nat, r: Request)
    requires Inv(s) && i < |s.orders| && s.orders[i].request.Some?
    requires r.amountSat == s.orders[i].request.value.amountSat && r.gnosisTxHash == s.orders[i].request.value.gnosisTxHash
    requires r.signatureCount == |r.signatures|
    ensures Inv(WithRequest(s, i, r))
  {
    var s', o := WithRequest(s, i, r), s.orders[i].(request := Some(r));
    OwedAt(s, s', i, o);
    PendingBacked(s, i);
    QueueAt(s, s', i, o);
    if s.reading.Some? {
      var seen := MinedBy(s, s.reading.value.blockNumber);
      assert MinedBy(s', s.reading.value.blockNumber) == seen;
      ReservedAt(s.orders, i, o, seen);
    }
  }

  lemma SendKeeps(s: State, t: SentTx)
    requires Inv(s) && Idle(s) && t.auth.order < |s.orders| && s.orders[t.auth.order].state.AuthCreated?
    requires t.hash == s.nextHash && t.auth == AuthOf(s, t.auth.order)
    ensures Inv(AfterSend(s, t))
  {
    var s' := AfterSend(s, t);
    OwedSame(s, s');
    forall k | 0 <= k < |s'.pending| ensures PendingOk(s', s'.pending[k]) {
      if k < |s.pending| { assert PendingOk(s, s.pending[k]); }
    }
  }

  lemma RecordKeeps(s: State)
    requires Inv(s) && s.unrecorded.Some?
    ensures Inv(AfterRecord(s, s.unrecorded.value))
  {
    var s', i := AfterRecord(s, s.unrecorded.value), s.unrecorded.value.auth.order;
    OwedAt(s, s', i, s'.orders[i]);
    PendingBacked(s, i);
    QueueAt(s, s', i, s'.orders[i]);
  }

  /** A row stops being a commitment only once the contract processed it or its last transaction is settled. */
  lemma SettleKeeps(s: State, i: nat, st: OrderState)
    requires Inv(s) && Idle(s) && i < |s.orders| && s.orders[i].request.Some?
    requires st.MintConfirmed? || st.Failed? || st.Completed?
    requires i in s.processed || !Committed(s.orders[i]) || Mined(s, s.orders[i].request.value.gnosisTxHash)
    ensures Inv(WithState(s, i, st))
  {
    var s' := WithState(s, i, st);
    OwedAt(s, s', i, s'.orders[i]);
    PendingBacked(s, i);
    QueueAt(s, s', i, s'.orders[i]);
  }

  lemma StepKeeps(recover: (Auth, nat) -> Option<nat>, s: State, a: Action)
    requires Inv(s) && Enabled(recover, s, a)
    ensures Inv(Next(recover, s, a))
  {
    match a
    case NewBlock(_) => ChainOnlyKeeps(s, Next(recover, s, a));
    case Burn(_) => ChainOnlyKeeps(s, Next(recover, s, a));
    case Mine(k, time, refused) => MineKeeps(s, k, time, refused);
    case DepositFinalized(d) => DepositKeeps(s, d);
    case ReadCap => ReadCapKeeps(s);
    case AbandonDecision => ForgetKeeps(s, None, s.unrecorded);
    case Crash => ForgetKeeps(s, None, None);
    case Decide(i, seen, nonce, deadline) => DecideKeeps(s, i, seen, nonce, deadline);
    case Regenerate(i, _, _) => RequestEditKeeps(s, i, Next(recover, s, a).orders[i].request.value);
    case AppendSignature(i, _) => RequestEditKeeps(s, i, Next(recover, s, a).orders[i].request.value);
    case Prune(i, _, _) => RequestEditKeeps(s, i, Next(recover, s, a).orders[i].request.value);
    case RecordError(i, _) => RequestEditKeeps(s, i, Next(recover, s, a).orders[i].request.value);
    case Send(i, sigs) => SendKeeps(s, SentTx(s.nextHash, AuthOf(s, i), sigs));
    case RecordSend => RecordKeeps(s);
    case ConfirmMint(i) => SettleKeeps(s, i, MintConfirmed);
    case FailMint(i) => SettleKeeps(s, i, Failed);
    case CompleteMint(i) => SettleKeeps(s, i, Completed);
  }

  // ── Whole runs ───────────────────────────────────────────────────────────

  ghost predicate IsRun(recover: (Auth, nat) -> Option<nat>, s: State, actions: seq<Action>, s': State)
    decreases |actions|
  {
    if actions == [] then s == s'
    else
      var n := |actions| - 1;
      exists mid :: IsRun(recover, s, actions[..n], mid) && Enabled(recover, mid, actions[n]) && Next(recover, mid, actions[n]) == s'
  }

  lemma RunExtend(recover: (Auth, nat) -> Option<nat>, s: State, actions: seq<Action>, mid: State, a: Action)
    requires IsRun(recover, s, actions, mid) && Enabled(recover, mid, a)
    ensures IsRun(recover, s, actions + [a], Next(recover, mid, a))
  {
    assert (actions + [a])[..|actions|] == actions;
  }

  lemma {:induction false} RunKeeps(recover: (Auth, nat) -> Option<nat>, s: State, actions: seq<Action>, s': State)
    requires Inv(s) && IsRun(recover, s, actions, s')
    ensures Inv(s')
    decreases |actions|
  {
    if actions != [] {
      var n := |actions| - 1;
      var mid :| IsRun(recover, s, actions[..n], mid) && Enabled(recover, mid, actions[n]) && Next(recover, mid, actions[n]) == s';
      RunKeeps(recover, s, actions[..n], mid);
      StepKeeps(recover, mid, actions[n]);
    }
  }

  /**
   * The cap is never overrun: on every run, what was minted today and everything still authorised fit
   * together under the daily limit and under MAX_SUPPLY. So every authorised mint the contract has not
   * processed, sent or not, passes the contract's limit checks in any later block.
   */
  lemma CapNeverOverrun(recover: (Auth, nat) -> Option<nat>, s: State, actions: seq<Action>, s': State)
    requires Initial(s) && IsRun(recover, s, actions, s')
    ensures WithinCap(s')
    ensures forall i: nat, time: nat | Authorised(s', i) && time >= s'.chain.blockTimestamp ::
      MintAllowed(s'.chain, time, s'.orders[i].request.value.amountSat)
    ensures forall k: nat, time: nat | k < |s'.pending| && s'.pending[k].auth.order !in s'.processed && time >= s'.chain.blockTimestamp ::
      MintAllowed(s'.chain, time, s'.pending[k].auth.amount)
  {
    InitialInv(s);
    RunKeeps(recover, s, actions, s');
    forall i: nat, time: nat | Authorised(s', i) && time >= s'.chain.blockTimestamp
      ensures MintAllowed(s'.chain, time, s'.orders[i].request.value.amountSat)
    { OwedCovers(s', i, time); }
    forall k: nat, time: nat | k < |s'.pending| && s'.pending[k].auth.order !in s'.processed && time >= s'.chain.blockTimestamp
      ensures MintAllowed(s'.chain, time, s'.pending[k].auth.amount)
    {
      assert PendingOk(s', s'.pending[k]);
      OwedCovers(s', s'.pending[k].auth.order, time);
    }
  }

  /** Decided, not yet minted, and its last transaction not yet mined. */
  predicate Authorised(s: State, i: nat) {
    i < |s.orders| && i !in s.processed && Committed(s.orders[i]) && !Mined(s, s.orders[i].request.value.gnosisTxHash)
  }

  lemma OwedCovers(s: State, i: nat, time: nat)
    requires WithinCap(s) && Authorised(s, i) && time >= s.chain.blockTimestamp
    ensures MintAllowed(s.chain, time, s.orders[i].request.value.amountSat)
  {
    SumAtLeastTerm(RowOwed(s), |s.orders|, i);
  }

  /** A decision leaves an excess only when the capacity it was made on is used to the last unit. */
  lemma DecisionIsTight(s: State, i: nat, seen: set<nat>)
    requires s.reading.Some? && i < |s.orders| && s.orders[i].depositSat > 0
    ensures var c, split := s.reading.value, Split(s, i, seen);
      && split.mintSat + split.excessSat == s.orders[i].depositSat
      && (split.excessSat > 0 ==> !MintAllowed(c, c.blockTimestamp, ReservedTotal(s.orders, seen) + split.mintSat + 1))
  {
    var c := s.reading.value;
    SplitIsTight(c, c.blockTimestamp, ReservedTotal(s.orders, seen), s.orders[i].depositSat);
  }
}
