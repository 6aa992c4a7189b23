/**
 * The mint executor's jobs (backend/src/executor/mint-executor.ts) over its tables. Between any two of
 * its own transactions the chain, the watchers and new deposits may move; every method is a run of the machine.
 */
module MintExecutor {
  import opened Coins
  import opened MintCapacity
  import opened MintMachine
  import opened Signatures
  import opened Sums
  import Books = Database
  import Ledger

  const DEADLINE_MARGIN_SECONDS := 60

  /** What a simulated executeMint can answer. */
  datatype Simulation = Accepted | Unreachable | Reverts(insufficientSignatures: bool, alreadyProcessed: bool)

  /** A decision as it is written down: the readings it was made on and the split they lead to. */
  datatype CapDecision = CapDecision(depositSat: nat, mintSat: nat, excessSat: nat, capacitySat: nat, reservedSat: nat,
                                     state: ChainState, mined: set<nat>)

  /** The split of this deposit that those readings lead to, over the rows reserving at the time. */
  predicate IsDecision(d: CapDecision, orders: seq<Order>, i: nat) {
    && i < |orders| && d.depositSat == orders[i].depositSat
    && d.reservedSat == ReservedTotal(orders, d.mined)
    && d.capacitySat == AvailableCapacity(ComputeCapWindow(d.state, d.state.blockTimestamp), d.reservedSat)
    && SplitDeposit(d.depositSat, d.capacitySat) == Some(DepositSplit(d.mintSat, d.excessSat))
  }

  /** A row when a turn writes it, the row after it, and the signatures kept. */
  datatype Turn = Turn(before: Order, after: Order, valid: seq<SigEntry>)

  /**
   * All that comes from outside in one round. runs: which of the four jobs gets its rows; nows and nonces: the clock and
   * the contract's nonce as each job reads them.
   */
  datatype Round = Round(runs: nat -> bool, nows: nat -> nat, nonces: nat -> nat, mintDeadlineSeconds: nat, registered: nat -> bool,
                         receipts: nat -> bool, died: nat -> bool, unreachable: nat -> bool, answered: nat -> bool, fails: nat -> bool,
                         simulated: nat -> Simulation, lost: nat -> bool)

  /** The tables a round went through, with the decisions it made and the mints it sent. */
  datatype Stops = Stops(confirmed: State, reissuing: State, reissued: State, deciding: State, made: seq<Option<CapDecision>>, decided: State,
                         submitting: State, sent: seq<Option<SentTx>>, turns: seq<Turn>)

  class MintExecutor {
    const recover: (Auth, nat) -> Option<nat>

    // The pool and the refunds, written in the same transaction as a decision.
    const db: Books.Database

    // The output each order was recorded for.
    const txidOf: nat -> nat
    const voutOf: nat -> nat

    // Tables.
    var orders: seq<Order>

    // The contract and the executor's account.
    var chain: ChainState
    var processed: set<nat>
    var minedAt: map<nat, nat>
    var executed: set<nat>
    var pending: seq<SentTx>
    var settled: nat
    var nextHash: nat

    // What the process remembers in the middle of a job.
    var reading: Option<ChainState>
    var unrecorded: Option<SentTx>

    ghost var start: State
    ghost var trace: seq<Action>

    function Now(): State
      reads this
    {
      State(orders, chain, processed, minedAt, executed, pending, settled, nextHash, reading, unrecorded)
    }

    ghost predicate Valid()
      reads this
    {
      Initial(start) && IsRun(recover, start, trace, Now())
    }

    /** One machine step, and nothing else. */
    twostate predicate Did(a: Action)
      reads this
    {
      && Enabled(recover, old(Now()), a) && Now() == Next(recover, old(Now()), a)
      && start == old(start) && trace == old(trace) + [a] && Valid()
    }

    /** Some machine steps. */
    twostate predicate Ran()
      reads this
    {
      start == old(start) && old(trace) <= trace && Valid()
    }

    constructor (recover: (Auth, nat) -> Option<nat>, chain: ChainState, db: Books.Database, txidOf: nat -> nat, voutOf: nat -> nat)
      requires EffectiveMinted(chain, chain.blockTimestamp) <= chain.dailyMintLimit
      requires chain.maxSupply > 0 ==> chain.totalSupply <= chain.maxSupply
      ensures Valid() && this.recover == recover && this.db == db && this.txidOf == txidOf && this.voutOf == voutOf && orders == [] && this.chain == chain && trace == []
    {
      this.recover, this.chain, this.db, this.txidOf, this.voutOf := recover, chain, db, txidOf, voutOf;
      orders, processed, minedAt, executed, pending, settled, nextHash := [], {}, map[], {}, [], 0, 0;
      reading, unrecorded := None, None;
      start := State([], chain, {}, map[], {}, [], 0, 0, None, None);
      trace := [];
    }

    lemma Invariants()
      requires Valid()
      ensures Inv(Now()) && Initial(start)
    {
      InitialInv(start);
      RunKeeps(recover, start, trace, Now());
    }

    lemma RowInvariant(i: nat)
      requires Valid() && i < |orders|
      ensures RowOk(orders[i])
    {
      Invariants();
    }

    ghost method Log(a: Action, before: State)
      requires Initial(start) && IsRun(recover, start, trace, before)
      requires Enabled(recover, before, a) && Now() == Next(recover, before, a)
      modifies this`trace
      ensures trace == old(trace) + [a] && Valid()
    {
      RunExtend(recover, start, trace, before, a);
      trace := trace + [a];
    }

    // ── The world outside ──────────────────────────────────────────────────

    /** Any step that is not the executor's own. */
    method Happen(a: Action)
      requires Valid() && Enabled(recover, Now(), a)
      modifies this
      ensures Did(a)
    {
      ghost var before := Now();
      var s := Next(recover, Now(), a);
      orders, chain, processed, minedAt, executed, pending, settled, nextHash, reading, unrecorded :=
        s.orders, s.chain, s.processed, s.minedAt, s.executed, s.pending, s.settled, s.nextHash, s.reading, s.unrecorded;
      Log(a, before);
    }

    /** What is mined stays mined, and what is mined later is in a later block. */
    twostate predicate KeepsMined()
      reads this`minedAt, this`chain
    {
      && old(chain).blockNumber <= chain.blockNumber
      && (forall h :: h in old(minedAt) ==> h in minedAt && minedAt[h] == old(minedAt)[h])
      && (forall h :: h in minedAt && h !in old(minedAt) ==> minedAt[h] > old(chain).blockNumber)
    }

    /** The mints sent, in order. */
    static function SendsIn(actions: seq<Action>): seq<Action> {
      if actions == [] then []
      else SendsIn(actions[..|actions| - 1]) + if actions[|actions| - 1].Send? then [actions[|actions| - 1]] else []
    }

    /** No mint was sent. */
    twostate predicate Quiet()
      reads this`trace
    {
      SendsIn(trace) == old(SendsIn(trace))
    }

    static lemma SendsSnoc(actions: seq<Action>, a: Action)
      ensures SendsIn(actions + [a]) == SendsIn(actions) + if a.Send? then [a] else []
    {
      assert (actions + [a])[..|actions|] == actions;
    }

    /** Only the chain moved: rows and memory are what they were, and what was mined stays mined. */
    twostate predicate OnlyChainMoved()
      reads this
    {
      && Ran() && orders == old(orders) && reading == old(reading) && unrecorded == old(unrecorded)
      && KeepsMined() && Quiet() && old(executed) <= executed
    }

    method ChainStep(a: Action)
      requires Valid() && Enabled(recover, Now(), a) && (a.NewBlock? || a.Mine? || a.Burn?)
      modifies this
      ensures OnlyChainMoved()
    {
      Invariants();
      assert a.Mine? ==> PendingOk(Now(), pending[a.k]);
      SendsSnoc(trace, a);
      Happen(a);
    }

    /** Blocks, mined transactions and burns, in any number. */
    method ChainMoves()
      requires Valid()
      modifies this
      ensures OnlyChainMoved()
    {
      var steps :| 0 <= steps;
      for i := 0 to steps
        invariant OnlyChainMoved()
      {
        var a: Action := *;
        if (a.NewBlock? || a.Mine? || a.Burn?) && Enabled(recover, Now(), a) { ChainStep(a); }
      }
    }

    /** What watchers and depositors leave alone in existing rows. */
    static predicate SameDecisions(before: seq<Order>, after: seq<Order>) {
      && |before| <= |after|
      && forall i :: 0 <= i < |before| ==> SameDecision(before[i], after[i])
    }

    static predicate SameDecision(o: Order, o': Order) {
      && o'.state == o.state && o'.depositSat == o.depositSat && (o'.request.Some? <==> o.request.Some?)
      && (o.request.Some? ==>
           var r, r' := o.request.value, o'.request.value;
           && r'.amountSat == r.amountSat && r'.mintNonce == r.mintNonce && r'.deadline == r.deadline
           && r'.gnosisTxHash == r.gnosisTxHash && r'.lastSubmitError == r.lastSubmitError && r.signatures <= r'.signatures)
    }

    /** The chain moves, deposits finalise, and watchers append signatures. */
    method TimePasses()
      requires Valid()
      modifies this
      ensures Ran() && SameDecisions(old(orders), orders) && reading == old(reading) && unrecorded == old(unrecorded) && Quiet()
    {
      var steps :| 0 <= steps;
      for i := 0 to steps
        invariant Ran() && SameDecisions(old(orders), orders) && reading == old(reading) && unrecorded == old(unrecorded) && Quiet()
      {
        var a: Action := *;
        if (a.AppendSignature? || a.DepositFinalized?) && Enabled(recover, Now(), a) {
          SendsSnoc(trace, a);
          Happen(a);
        } else {
          ChainMoves();
        }
      }
    }

    /** The process dies and starts again: whatever it remembered is gone. */
    method Restart()
      requires Valid()
      modifies this
      ensures Did(Crash)
    {
      ghost var before := Now();
      reading, unrecorded := None, None;
      Log(Crash, before);
    }

    // ── Deciding a split ───────────────────────────────────────────────────

    method ReadState()
      requires Valid() && unrecorded.None?
      modifies this
      ensures Did(ReadCap)
    {
      ghost var before := Now();
      reading := Some(chain);
      Log(ReadCap, before);
    }

    /** The rows that reserve capacity, as the query returns them. */
    method ReservationRows() returns (rs: seq<Reservation>)
      ensures forall seen :: OutstandingTo(rs, seen, |rs|) == ReservedTotal(orders, seen)
      ensures forall h: nat :: Names(rs, h) <==> ReservedBy(orders, h)
    {
      rs := [];
      for i := 0 to |orders|
        invariant forall seen :: OutstandingTo(rs, seen, |rs|) == SumTo(RowReserved(orders, seen), i)
        invariant forall h: nat :: Names(rs, h) <==> ReservedBy(orders[..i], h)
      {
        if (orders[i].state.AuthCreated? || orders[i].state.Submitted?) && orders[i].request.Some? {
          var r := Reservation(orders[i].request.value.amountSat, orders[i].request.value.gnosisTxHash);
          forall seen ensures OutstandingTo(rs + [r], seen, |rs| + 1) == SumTo(RowReserved(orders, seen), i + 1) {
            OutstandingPrefix(rs, [r], seen, |rs|);
          }
          rs := rs + [r];
          NamesSnoc(rs[..|rs| - 1], r);
        }
        ReservedSnoc(orders, i);
      }
      assert orders[..|orders|] == orders;
    }

    /** Some reservation is for a mint sent in this transaction. */
    static predicate Names(rs: seq<Reservation>, h: nat) {
      exists k :: 0 <= k < |rs| && rs[k].gnosisTxHash == Some(h)
    }

    /** Some row reserving capacity is for a mint sent in this transaction. */
    static predicate ReservedBy(rows: seq<Order>, h: nat) {
      exists i :: 0 <= i < |rows| && Committed(rows[i]) && rows[i].request.value.gnosisTxHash == Some(h)
    }

    static lemma NamesSnoc(rs: seq<Reservation>, r: Reservation)
      ensures forall h: nat :: Names(rs + [r], h) <==> Names(rs, h) || r.gnosisTxHash == Some(h)
    {
      forall h: nat ensures Names(rs + [r], h) <==> Names(rs, h) || r.gnosisTxHash == Some(h) {
        if Names(rs, h) {
          var k :| 0 <= k < |rs| && rs[k].gnosisTxHash == Some(h);
          assert (rs + [r])[k].gnosisTxHash == Some(h);
        }
        assert (rs + [r])[|rs|] == r;
      }
    }

    static lemma ReservedSnoc(rows: seq<Order>, i: nat)
      requires i < |rows|
      ensures forall h: nat :: ReservedBy(rows[..i + 1], h) <==>
        ReservedBy(rows[..i], h) || (Committed(rows[i]) && rows[i].request.value.gnosisTxHash == Some(h))
    {
      forall h: nat ensures ReservedBy(rows[..i + 1], h) <==>
        ReservedBy(rows[..i], h) || (Committed(rows[i]) && rows[i].request.value.gnosisTxHash == Some(h))
      {
        if ReservedBy(rows[..i], h) {
          var k :| 0 <= k < i && Committed(rows[..i][k]) && rows[..i][k].request.value.gnosisTxHash == Some(h);
          assert rows[..i + 1][k] == rows[..i][k];
        }
        assert rows[..i + 1][i] == rows[i];
        if ReservedBy(rows[..i + 1], h) {
          var k :| 0 <= k < i + 1 && Committed(rows[..i + 1][k]) && rows[..i + 1][k].request.value.gnosisTxHash == Some(h);
          if k < i { assert rows[..i][k] == rows[..i + 1][k]; }
        }
      }
    }

    static predicate MinedUpTo(minedAt: map<nat, nat>, h: nat, block: nat) {
      h in minedAt && minedAt[h] <= block
    }

    /**
     * The receipts a decision counts: exactly those of the rows' mints that were mined by the block the cap was read at and
     * whose receipt was answered.
     */
    static ghost predicate Counted(d: CapDecision, rows: seq<Order>, minedAt: map<nat, nat>, answered: nat -> bool) {
      forall h: nat :: h in d.mined <==> ReservedBy(rows, h) && answered(h) && MinedUpTo(minedAt, h, d.state.blockNumber)
    }

    static lemma {:induction false} OutstandingPrefix(rs: seq<Reservation>, more: seq<Reservation>, seen: set<nat>, k: nat)
      requires k <= |rs|
      ensures OutstandingTo(rs + more, seen, k) == OutstandingTo(rs, seen, k)
    {
      if k > 0 { OutstandingPrefix(rs, more, seen, k - 1); }
    }

    /** Read the cap, then every reservation and its receipt; a receipt that cannot be fetched counts as not mined. */
    method DecideSplit(i: nat, answered: nat -> bool) returns (d: CapDecision)
      requires Valid() && Idle(Now()) && i < |orders| && orders[i].depositSat > 0
      modifies this
      ensures Ran() && Quiet() && orders == old(orders) && unrecorded.None? && KeepsMined()
      ensures reading == Some(d.state) && d.state.blockNumber <= chain.blockNumber && d.mined <= MinedBy(Now(), d.state.blockNumber)
      ensures IsDecision(d, orders, i) && Counted(d, orders, minedAt, answered)
    {
      SendsSnoc(trace, ReadCap);
      ReadState();
      ChainMoves();
      var c := reading.value;
      var window := ComputeCapWindow(c, c.blockTimestamp);
      var rs := ReservationRows();
      var seen := {};
      for k := 0 to |rs|
        invariant Ran() && Quiet() && orders == old(orders) && reading == Some(c) && unrecorded.None? && KeepsMined()
        invariant c.blockNumber <= chain.blockNumber
        invariant forall h: nat :: h in seen <==> Names(rs[..k], h) && answered(h) && MinedUpTo(minedAt, h, c.blockNumber)
      {
        ChainMoves();
        NamesSnoc(rs[..k], rs[k]);
        assert rs[..k + 1] == rs[..k] + [rs[k]];
        var hash := rs[k].gnosisTxHash;
        if hash.Some? && answered(hash.value) && hash.value in minedAt && minedAt[hash.value] <= c.blockNumber {
          seen := seen + {hash.value};
        }
      }
      assert rs[..|rs|] == rs;
      var reserved := SumOutstandingReservations(rs, seen);
      var capacity := AvailableCapacity(window, reserved);
      var split := SplitDeposit(orders[i].depositSat, capacity).value;
      d := CapDecision(orders[i].depositSat, split.mintSat, split.excessSat, capacity, reserved, c, seen);
    }

    /** The order's row: reserve the minted part, or send the whole deposit to refund. */
    method RecordDecision(i: nat, d: CapDecision, nonce: nat, deadline: nat)
      requires Valid() && reading == Some(d.state) && i < |orders| && NeedsDecision(orders[i])
      requires d.mined <= MinedBy(Now(), d.state.blockNumber) && IsDecision(d, orders, i)
      modifies this
      ensures Did(Decide(i, d.mined, nonce, deadline))
      ensures orders == old(orders)[i := DecidedRow(old(orders)[i], d, nonce, deadline)]
    {
      ghost var before := Now();
      if d.mintSat > 0 {
        orders := orders[i := Order(d.depositSat, AuthCreated, Some(Request(d.mintSat, nonce, deadline, [], 0, None, None)))];
      } else {
        orders := orders[i := Order(d.depositSat, Refunded, None)];
      }
      reading := None;
      Log(Decide(i, d.mined, nonce, deadline), before);
    }

    function DepositOf(i: nat): Outpoint {
      Outpoint(Arriving(txidOf(i)), voutOf(i))
    }

    /** The deposit's coin, unless its output is in the pool already, and a refund row for the excess. */
    method BookDeposit(i: nat, d: CapDecision)
      requires db.Valid() && 0 < d.depositSat && d.mintSat <= d.depositSat
      modifies db
      ensures db.Ran() && Ledger.Booked(old(db.Now()), db.Now(), DepositOf(i), d.depositSat, d.mintSat, db.rate)
    {
      Ledger.AfterDepositBooks(db.rate, db.Now(), DepositOf(i), d.depositSat, d.mintSat);
      ghost var before := db.Now();
      var s := Ledger.AfterDeposit(db.rate, db.Now(), DepositOf(i), d.depositSat, d.mintSat);
      db.coins, db.deposits, db.refunds := s.coins, s.deposits, s.refunds;
      db.Log(Ledger.DepositDecided(DepositOf(i), d.depositSat, d.mintSat), before);
    }

    method Abandon()
      requires Valid()
      modifies this
      ensures Did(AbandonDecision)
    {
      ghost var before := Now();
      reading := None;
      Log(AbandonDecision, before);
    }

    // ── Job 1 ──────────────────────────────────────────────────────────────

    static predicate NeedsDecision(o: Order) {
      o.state.Finalized? && o.request.None? && o.depositSat > 0
    }

    /** All of the deposit refunded, or the minted part authorised, unsigned. */
    static function DecidedRow(o: Order, d: CapDecision, nonce: nat, deadline: nat): Order {
      if d.mintSat > 0 then o.(state := AuthCreated, request := Some(Request(d.mintSat, nonce, deadline, [], 0, None, None)))
      else o.(state := Refunded)
    }

    method WriteDecision(i: nat, d: CapDecision, nonce: nat, deadline: nat)
      requires Valid() && reading == Some(d.state) && i < |orders| && NeedsDecision(orders[i]) && db.Valid()
      requires d.mined <= MinedBy(Now(), d.state.blockNumber) && IsDecision(d, orders, i) && unrecorded.None?
      modifies this, db
      ensures Ran() && Quiet() && Idle(Now()) && chain == old(chain) && minedAt == old(minedAt) && db.Ran()
      ensures orders == old(orders)[i := DecidedRow(old(orders)[i], d, nonce, deadline)]
      ensures BookedOne(db.rate, old(db.Now()), db.Now(), i, Some(d))
    {
      SendsSnoc(trace, Decide(i, d.mined, nonce, deadline));
      RecordDecision(i, d, nonce, deadline);
      BookDeposit(i, d);
    }

    /** Row, coin and refund in one transaction, or, when it fails, none of them. */
    method DecideOne(i: nat, nonce: nat, deadline: nat, answered: nat -> bool, fails: bool) returns (made: Option<CapDecision>)
      requires Valid() && Idle(Now()) && i < |orders| && db.Valid()
      modifies this, db
      ensures Ran() && Quiet() && Idle(Now()) && KeepsMined() && db.Ran()
      ensures made.Some? <==> NeedsDecision(old(orders)[i]) && !fails
      ensures made.Some? ==>
        && IsDecision(made.value, old(orders), i) && Counted(made.value, old(orders), minedAt, answered)
        && made.value.state.blockNumber <= chain.blockNumber
      ensures orders == if made.None? then old(orders) else old(orders)[i := DecidedRow(old(orders)[i], made.value, nonce, deadline)]
      ensures BookedOne(db.rate, old(db.Now()), db.Now(), i, made)
    {
      made := None;
      if !orders[i].state.Finalized? || orders[i].request.Some? || orders[i].depositSat == 0 { return; }
      var d := DecideSplit(i, answered);
      if fails {
        SendsSnoc(trace, AbandonDecision);
        Abandon();
      } else {
        WriteDecision(i, d, nonce, deadline);
        made := Some(d);
      }
    }

    /** One order's transaction in the pool and the refunds: nothing when it failed. */
    predicate BookedOne(rate: nat, s: Ledger.State, s': Ledger.State, i: nat, made: Option<CapDecision>) {
      if made.None? then s' == s
      else
        && made.value.mintSat <= made.value.depositSat
        && Ledger.Booked(s, s', DepositOf(i), made.value.depositSat, made.value.mintSat, rate)
    }

    /** The transactions of several orders, one after the other. */
    ghost predicate BookedAll(rate: nat, s: Ledger.State, s': Ledger.State, made: seq<Option<CapDecision>>)
      decreases |made|
    {
      if made == [] then s' == s
      else
        var n := |made| - 1;
        exists mid :: BookedAll(rate, s, mid, made[..n]) && BookedOne(rate, mid, s', n, made[n])
    }

    lemma BookedNext(rate: nat, s: Ledger.State, mid: Ledger.State, s': Ledger.State, made: seq<Option<CapDecision>>, next: Option<CapDecision>)
      requires BookedAll(rate, s, mid, made) && BookedOne(rate, mid, s', |made|, next)
      ensures BookedAll(rate, s, s', made + [next])
    {
      assert (made + [next])[..|made|] == made;
    }

    /** This row refunds what was over the cap of order i. */
    predicate Refunds(row: Ledger.Refund, i: nat, made: Option<CapDecision>, rate: nat) {
      && made.Some? && made.value.mintSat < made.value.depositSat
      && Ledger.IsNewRefund(row, DepositOf(i), made.value.depositSat - made.value.mintSat, rate)
    }

    /** Every deposit with an excess has its refund row afterwards. */
    lemma {:induction false} ExcessIsBooked(rate: nat, s: Ledger.State, s': Ledger.State, made: seq<Option<CapDecision>>, i: nat)
      returns (r: nat)
      requires BookedAll(rate, s, s', made)
      requires i < |made| && made[i].Some? && made[i].value.mintSat < made[i].value.depositSat
      ensures |s.refunds| <= r < |s'.refunds| && Refunds(s'.refunds[r], i, made[i], rate)
      decreases |made|
    {
      var n := |made| - 1;
      var mid :| BookedAll(rate, s, mid, made[..n]) && BookedOne(rate, mid, s', n, made[n]);
      OldRefundsStay(rate, s, mid, made[..n]);
      if i < n {
        r := ExcessIsBooked(rate, s, mid, made[..n], i);
        assert s'.refunds[..|mid.refunds|][r] == mid.refunds[r];
      } else {
        r := |mid.refunds|;
      }
    }

    /** Refunds come from nothing else, and the older ones are untouched. */
    lemma {:induction false} OldRefundsStay(rate: nat, s: Ledger.State, s': Ledger.State, made: seq<Option<CapDecision>>)
      requires BookedAll(rate, s, s', made)
      ensures s.refunds <= s'.refunds
      decreases |made|
    {
      if made != [] {
        var n := |made| - 1;
        var mid :| BookedAll(rate, s, mid, made[..n]) && BookedOne(rate, mid, s', n, made[n]);
        OldRefundsStay(rate, s, mid, made[..n]);
        assert mid.refunds <= s'.refunds;
      }
    }

    lemma {:induction false} RefundIsOfExcess(rate: nat, s: Ledger.State, s': Ledger.State, made: seq<Option<CapDecision>>, r: nat)
      returns (i: nat)
      requires BookedAll(rate, s, s', made) && |s.refunds| <= r < |s'.refunds|
      ensures i < |made| && Refunds(s'.refunds[r], i, made[i], rate)
      decreases |made|
    {
      var n := |made| - 1;
      var mid :| BookedAll(rate, s, mid, made[..n]) && BookedOne(rate, mid, s', n, made[n]);
      if r < |mid.refunds| {
        i := RefundIsOfExcess(rate, s, mid, made[..n], r);
        assert mid.refunds <= s'.refunds;
      } else {
        i := n;
      }
    }

    /** What became of an order: nothing, or the split of its readings over the reservations of that moment. */
    static ghost predicate Handled(before: seq<Order>, after: seq<Order>, i: nat, made: Option<CapDecision>, nonce: nat, deadline: nat,
                                   answered: nat -> bool, minedAt: map<nat, nat>, block: nat)
      requires i < |before| == |after|
    {
      if made.None? then after[i] == before[i]
      else
        && after[i] == DecidedRow(before[i], made.value, nonce, deadline)
        && IsDecision(made.value, after[..i] + before[i..], i)
        && Counted(made.value, after[..i] + before[i..], minedAt, answered) && made.value.state.blockNumber <= block
    }

    /** The orders before |made| are handled, the others as they were. */
    static ghost predicate HandledTo(before: seq<Order>, after: seq<Order>, made: seq<Option<CapDecision>>, fails: nat -> bool,
                                     nonce: nat, deadline: nat, answered: nat -> bool, minedAt: map<nat, nat>, block: nat)
    {
      && |made| <= |before| == |after| && after[|made|..] == before[|made|..]
      && (forall i :: 0 <= i < |made| ==> (made[i].Some? <==> NeedsDecision(before[i]) && !fails(i)))
      && (forall i :: 0 <= i < |made| ==> Handled(before, after, i, made[i], nonce, deadline, answered, minedAt, block))
    }

    static lemma HandledAgain(before: seq<Order>, mid: seq<Order>, after: seq<Order>, j: nat, k: nat, made: Option<CapDecision>,
                              nonce: nat, deadline: nat, answered: nat -> bool,
                              minedAt: map<nat, nat>, block: nat, minedAt': map<nat, nat>, block': nat)
      requires j < k <= |before| == |mid| == |after| && after[..k] == mid[..k]
      requires Handled(before, mid, j, made, nonce, deadline, answered, minedAt, block)
      requires LaterMined(minedAt, block, minedAt', block')
      ensures Handled(before, after, j, made, nonce, deadline, answered, minedAt', block')
    {
      assert after[..j] == after[..k][..j] == mid[..k][..j] == mid[..j];
      assert after[j] == after[..k][j] == mid[..k][j];
    }

    static predicate LaterMined(minedAt: map<nat, nat>, block: nat, minedAt': map<nat, nat>, block': nat) {
      && block <= block'
      && (forall h :: h in minedAt ==> h in minedAt' && minedAt'[h] == minedAt[h])
      && (forall h :: h in minedAt' && h !in minedAt ==> minedAt'[h] > block)
    }

    /** At a turn the rows behind it are as before the pass, and those in front of it as after it. */
    static lemma TurnFacts(before: seq<Order>, mid: seq<Order>, after: seq<Order>, n: nat)
      requires n < |before| == |mid| == |after| && mid[n..] == before[n..] && after == mid[n := after[n]]
      ensures mid[n] == before[n] && after[n + 1..] == before[n + 1..] && after[..n] == mid[..n] && after[..n] + before[n..] == mid
    {
      assert mid[n] == mid[n..][0] == before[n..][0];
      assert forall k :: n < k < |before| ==> after[k] == mid[n..][k - n] == before[n..][k - n];
    }

    static lemma HandledNext(before: seq<Order>, mid: seq<Order>, after: seq<Order>, made: seq<Option<CapDecision>>,
                             next: Option<CapDecision>, fails: nat -> bool, nonce: nat, deadline: nat, answered: nat -> bool,
                             minedAt: map<nat, nat>, block: nat, minedAt': map<nat, nat>, block': nat)
      requires |made| < |before| && HandledTo(before, mid, made, fails, nonce, deadline, answered, minedAt, block)
      requires LaterMined(minedAt, block, minedAt', block')
      requires next.Some? <==> NeedsDecision(mid[|made|]) && !fails(|made|)
      requires next.Some? ==>
        IsDecision(next.value, mid, |made|) && Counted(next.value, mid, minedAt', answered) && next.value.state.blockNumber <= block'
      requires after == if next.None? then mid else mid[|made| := DecidedRow(mid[|made|], next.value, nonce, deadline)]
      ensures HandledTo(before, after, made + [next], fails, nonce, deadline, answered, minedAt', block')
    {
      var n := |made|;
      TurnFacts(before, mid, after, n);
      forall j | 0 <= j < n ensures Handled(before, after, j, made[j], nonce, deadline, answered, minedAt', block') {
        HandledAgain(before, mid, after, j, n, made[j], nonce, deadline, answered, minedAt, block, minedAt', block');
      }
    }

    /**
     * Every finalised deposit without a decision gets one, unless its transaction fails; no other row changes. The
     * amount is the split of the readings that transaction made, over the reservations of that moment: those of the
     * rows before it as they are now, and of the others as they were. Its coin and refund are booked with it.
     */
    method CreatePendingAuths(round: Round) returns (made: seq<Option<CapDecision>>)
      requires Valid() && Idle(Now()) && db.Valid()
      modifies this, db
      ensures Ran() && Quiet() && Idle(Now()) && db.Ran() && DecidePass(old(Now()), Now(), made, round)
      ensures BookedAll(db.rate, old(db.Now()), db.Now(), made)
    {
      made := DecideAll(round.nonces(2), round.nows(2) + round.mintDeadlineSeconds, round.answered, round.fails);
    }

    /** Every order has its decision or kept its row, on the receipts known now. */
    static ghost predicate DecidePass(s: State, s': State, made: seq<Option<CapDecision>>, round: Round) {
      && |made| == |s.orders|
      && HandledTo(s.orders, s'.orders, made, round.fails, round.nonces(2), round.nows(2) + round.mintDeadlineSeconds,
                   round.answered, s'.minedAt, s'.chain.blockNumber)
    }

    method DecideAll(nonce: nat, deadline: nat, answered: nat -> bool, fails: nat -> bool) returns (made: seq<Option<CapDecision>>)
      requires Valid() && Idle(Now()) && db.Valid()
      modifies this, db
      ensures Ran() && Quiet() && Idle(Now()) && db.Ran() && |orders| == |made| == |old(orders)|
      ensures HandledTo(old(orders), orders, made, fails, nonce, deadline, answered, minedAt, chain.blockNumber)
      ensures BookedAll(db.rate, old(db.Now()), db.Now(), made)
    {
      made := [];
      for i := 0 to |orders|
        invariant Ran() && Quiet() && Idle(Now()) && db.Ran() && |made| == i && |orders| == |old(orders)|
        invariant HandledTo(old(orders), orders, made, fails, nonce, deadline, answered, minedAt, chain.blockNumber)
        invariant BookedAll(db.rate, old(db.Now()), db.Now(), made)
      {
        ghost var mid, mined, block, tables := orders, minedAt, chain.blockNumber, db.Now();
        var next := DecideOne(i, nonce, deadline, answered, fails(i));
        HandledNext(old(orders), mid, orders, made, next, fails, nonce, deadline, answered,
                    mined, block, minedAt, chain.blockNumber);
        BookedNext(db.rate, old(db.Now()), tables, db.Now(), made, next);
        made := made + [next];
      }
    }

    // ── Job 0 ──────────────────────────────────────────────────────────────

    method RecordSubmitError(i: nat, e: SubmitError)
      requires Valid() && i < |orders| && orders[i].request.Some?
      modifies this
      ensures Did(RecordError(i, e))
    {
      ghost var before := Now();
      orders := orders[i := orders[i].(request := Some(orders[i].request.value.(lastSubmitError := Some(e))))];
      Log(RecordError(i, e), before);
    }

    method Reissue(i: nat, nonce: nat, deadline: nat)
      requires Valid() && Idle(Now()) && i < |orders| && orders[i].state.AuthCreated? && Unsent(orders[i])
      modifies this
      ensures Did(Regenerate(i, nonce, deadline))
    {
      ghost var before := Now();
      var r := orders[i].request.value;
      orders := orders[i := orders[i].(request := Some(r.(mintNonce := nonce, deadline := deadline,
        signatures := [], signatureCount := 0, lastSubmitError := None)))];
      Log(Regenerate(i, nonce, deadline), before);
    }

    /** Expired or for another nonce, and not sent. */
    static predicate Stale(o: Order, mintNonce: nat, now: nat) {
      && o.state.AuthCreated? && Unsent(o)
      && (o.request.value.deadline <= now + DEADLINE_MARGIN_SECONDS || o.request.value.mintNonce != mintNonce)
    }

    /** The same decision under a new deadline and nonce, unsigned again. */
    static function Fresh(o: Order, mintNonce: nat, deadline: nat): Order
      requires o.request.Some?
    {
      o.(request := Some(Request(o.request.value.amountSat, mintNonce, deadline, [], 0, o.request.value.gnosisTxHash, None)))
    }

    static function WithError(o: Order, e: SubmitError): Order
      requires o.request.Some?
    {
      o.(request := Some(o.request.value.(lastSubmitError := Some(e))))
    }

    static predicate ReissuePass(before: seq<Order>, after: seq<Order>, processed: set<nat>, mintNonce: nat, now: nat,
                                 mintDeadlineSeconds: nat, unreachable: nat -> bool)
    {
      && |after| == |before|
      && forall i | 0 <= i < |after| ::
           after[i] ==
           if !Stale(before[i], mintNonce, now) || unreachable(i) then before[i]
           else if i in processed then WithError(before[i], AlreadyProcessed)
           else Fresh(before[i], mintNonce, now + mintDeadlineSeconds)
    }

    /**
     * After the pass an unsent authorisation it could look at, not yet minted, is for the contract's nonce and good for more
     * than a minute: as it was if it was so before, and otherwise for the same amount without a signature.
     */
    static lemma ReissuedIsCurrent(before: seq<Order>, after: seq<Order>, processed: set<nat>, mintNonce: nat, now: nat,
                                   mintDeadlineSeconds: nat, unreachable: nat -> bool, i: nat)
      requires ReissuePass(before, after, processed, mintNonce, now, mintDeadlineSeconds, unreachable) && mintDeadlineSeconds > 60
      requires i < |after| && before[i].state.AuthCreated? && Unsent(before[i]) && i !in processed && !unreachable(i)
      ensures after[i].state.AuthCreated? && Unsent(after[i])
      ensures var r, r' := before[i].request.value, after[i].request.value;
        && r'.mintNonce == mintNonce && r'.deadline - now > 60 && r'.amountSat == r.amountSat
        && (r.mintNonce == mintNonce && r.deadline - now > 60 ==> r' == r)
        && (r' == r || (r'.signatures == [] && r'.signatureCount == 0 && r'.lastSubmitError.None?))
    {
    }

    /** Stale authorisations are reissued, except those the contract already minted: they are flagged and left alone. */
    method RegenerateExpiredAuths(mintNonce: nat, now: nat, mintDeadlineSeconds: nat, unreachable: nat -> bool)
      requires Valid() && Idle(Now())
      modifies this
      ensures Ran() && Quiet() && Idle(Now())
      ensures ReissuePass(old(orders), orders, old(processed), mintNonce, now, mintDeadlineSeconds, unreachable)
    {
      for i := 0 to |orders|
        invariant Ran() && Quiet() && Idle(Now()) && |orders| == |old(orders)| && processed == old(processed)
        invariant forall j :: i <= j < |orders| ==> orders[j] == old(orders)[j]
        invariant forall j | 0 <= j < i ::
          orders[j] ==
          if !Stale(old(orders)[j], mintNonce, now) || unreachable(j) then old(orders)[j]
          else if j in old(processed) then WithError(old(orders)[j], AlreadyProcessed)
          else Fresh(old(orders)[j], mintNonce, now + mintDeadlineSeconds)
      {
        var o := orders[i];
        if o.state.AuthCreated? && o.request.Some? && o.request.value.gnosisTxHash.None?
          && (o.request.value.deadline <= now + DEADLINE_MARGIN_SECONDS || o.request.value.mintNonce != mintNonce) && !unreachable(i)
        {
          if i in processed {
            SendsSnoc(trace, RecordError(i, AlreadyProcessed));
            RecordSubmitError(i, AlreadyProcessed);
          } else {
            SendsSnoc(trace, Regenerate(i, mintNonce, now + mintDeadlineSeconds));
            Reissue(i, mintNonce, now + mintDeadlineSeconds);
          }
        }
      }
    }

    // ── Job 2 ──────────────────────────────────────────────────────────────

    static function WithSignatures(o: Order, keep: seq<SigEntry>): Order
      requires o.request.Some?
    {
      o.(request := Some(o.request.value.(signatures := keep, signatureCount := |keep|)))
    }

    /** The row with its list replaced, if that is still what was read and something was dropped. */
    static function Pruned(o: Order, original: seq<SigEntry>, keep: seq<SigEntry>): Order
      requires o.request.Some?
    {
      if |keep| != |original| && Unsent(o) && o.request.value.signatures == original then WithSignatures(o, keep) else o
    }

    /** Replace the list only if it is still what was read. */
    method PruneSignatures(i: nat, original: seq<SigEntry>, keep: seq<SigEntry>)
      requires Valid() && i < |orders| && orders[i].request.Some?
      modifies this
      ensures Ran() && Quiet() && reading == old(reading) && unrecorded == old(unrecorded)
      ensures orders == old(orders)[i := Pruned(old(orders)[i], original, keep)]
    {
      if |keep| == |original| { return; }
      var r := orders[i].request.value;
      if r.gnosisTxHash.None? && r.signatures == original {
        ghost var before := Now();
        SendsSnoc(trace, Prune(i, original, keep));
        orders := orders[i := orders[i].(request := Some(r.(signatures := keep, signatureCount := |keep|)))];
        Log(Prune(i, original, keep), before);
      }
    }

    method WriteContract(i: nat, valid: seq<SigEntry>) returns (t: SentTx)
      requires Valid() && Idle(Now()) && i < |orders| && orders[i].state.AuthCreated? && Unsent(orders[i])
      requires ThresholdMet(recover, AuthOf(Now(), i), valid)
      modifies this
      ensures Did(Send(i, valid)) && t == SentTx(old(nextHash), AuthOf(old(Now()), i), valid) && unrecorded == Some(t)
    {
      ghost var before := Now();
      var r := orders[i].request.value;
      t := SentTx(nextHash, Auth(i, r.amountSat, r.deadline, r.mintNonce), valid);
      pending, nextHash, unrecorded := pending + [t], nextHash + 1, Some(t);
      Log(Send(i, valid), before);
    }

    method RecordTxHash()
      requires Valid() && unrecorded.Some?
      modifies this
      ensures Did(RecordSend)
    {
      ghost var before := Now();
      var t := unrecorded.value;
      var i := t.auth.order;
      unrecorded := None;
      if i < |orders| && orders[i].state.AuthCreated? && orders[i].request.Some? {
        var r := orders[i].request.value;
        orders := orders[i := orders[i].(state := Submitted, request := Some(r.(gnosisTxHash := Some(t.hash), lastSubmitError := None)))];
      }
      Log(RecordSend, before);
    }

    static function AuthFor(i: nat, o: Order): Auth
      requires o.request.Some?
    {
      Auth(i, o.request.value.amountSat, o.request.value.deadline, o.request.value.mintNonce)
    }

    /** Three different signers signed the row's exact authorisation somewhere in its list. */
    predicate EnoughSigners(i: nat, o: Order)
      requires o.request.Some?
    {
      |ValidSigners(recover, AuthFor(i, o), o.request.value.signatures)| >= SIGNATURE_THRESHOLD
    }

    static function ErrorOf(why: Simulation): SubmitError {
      if why.Reverts? && why.alreadyProcessed then AlreadyProcessed else OtherRefusal
    }

    /** The stored count is below the threshold, or a watcher added to the list meanwhile. */
    static predicate Reopened(before: seq<SigEntry>, o: Order) {
      o.request.Some? && (o.request.value.signatureCount < SIGNATURE_THRESHOLD || before < o.request.value.signatures)
    }

    /** The entries whose signers are registered. */
    static function Registered(valid: seq<SigEntry>, registered: nat -> bool): (keep: seq<SigEntry>)
      ensures |keep| <= |valid| && forall e :: e in keep <==> e in valid && registered(e.signer)
    {
      if valid == [] then []
      else
        var n := |valid| - 1;
        assert valid == valid[..n] + [valid[n]];
        Registered(valid[..n], registered) + if registered(valid[n].signer) then [valid[n]] else []
    }

    static function SubmittedAs(o: Order, hash: nat): Order
      requires o.request.Some?
    {
      o.(state := Submitted, request := Some(o.request.value.(gnosisTxHash := Some(hash), lastSubmitError := None)))
    }

    /**
     * What a turn makes of a ready row o, read before it: with too few signers the list is pruned, an accepted mint goes
     * out with one entry of each signer and is written down unless the process dies, and a refusal is noted, after the
     * entries of unregistered signers were dropped if that was the reason. t.before: the row when it is written.
     */
    ghost predicate TurnOf(i: nat, o: Order, t: Turn, sent: Option<SentTx>, simulated: Simulation, lost: bool, registered: nat -> bool)
      requires o.request.Some?
    {
      var original := o.request.value.signatures;
      && SameDecision(o, t.before) && Kept(recover, AuthFor(i, o), original, t.valid) && (forall e :: e in t.valid ==> e in original)
      && if !EnoughSigners(i, o) then
           sent.None? && t.after == Pruned(t.before, original, t.valid)
         else if simulated.Accepted? then
           && sent.Some? && sent.value.auth == AuthFor(i, o) && sent.value.sigs == t.valid
           && t.after == if lost then t.before else SubmittedAs(t.before, sent.value.hash)
         else
           var noted := if simulated.Reverts? && simulated.insufficientSignatures
                        then Pruned(t.before, original, Registered(t.valid, registered)) else t.before;
           sent.None? && t.after == WithError(noted, ErrorOf(simulated))
    }

    /** Rows but this one are left to the watchers. */
    twostate predicate OnlyRow(i: nat)
      reads this`orders
    {
      && |old(orders)| <= |orders|
      && forall j :: 0 <= j < |old(orders)| && j != i ==> SameDecision(old(orders)[j], orders[j])
    }

    static function SendOf(i: nat, sent: Option<SentTx>): seq<Action> {
      if sent.Some? then [Send(i, sent.value.sigs)] else []
    }

    /**
     * executeMint goes out only with at least three distinct signers' signatures over the row's exact
     * authorization. With fewer it does not go out, and unless a watcher changed the list meanwhile the
     * stored count falls below the threshold, so watchers sign again.
     */
    method SubmitOne(i: nat, o: Order, registered: nat -> bool, simulated: Simulation, lost: bool)
      returns (sent: Option<SentTx>, ghost t: Turn)
      requires Valid() && Idle(Now()) && i < |orders| && o.state.AuthCreated? && Unsent(o) && SameDecision(o, orders[i])
      modifies this
      ensures Ran() && Idle(Now()) && OnlyRow(i) && orders[i] == t.after
      ensures TurnOf(i, o, t, sent, simulated, lost, registered)
      ensures sent.Some? ==> ThresholdMet(recover, sent.value.auth, sent.value.sigs)
      ensures !EnoughSigners(i, o) ==> Reopened(o.request.value.signatures, orders[i])
      ensures SendsIn(trace) == old(SendsIn(trace)) + SendOf(i, sent)
    {
      sent := None;
      var r := o.request.value;
      var original, auth := r.signatures, Auth(i, r.amountSat, r.deadline, r.mintNonce);
      TimePasses();
      assert SameDecision(o, orders[i]);
      var valid := Validate(recover, auth, original);
      KeptIsThreshold(recover, auth, original, valid);
      t := Turn(orders[i], orders[i], valid);
      if |valid| < SIGNATURE_THRESHOLD {
        Reopen(i, original, valid);
      } else if simulated.Accepted? {
        ghost var before;
        var tx;
        tx, before := SendAndRecord(i, valid, lost);
        sent := Some(tx);
        t := t.(before := before);
      } else {
        NoteRefusal(i, original, valid, registered, simulated);
      }
      t := t.(after := orders[i]);
    }

    method Reopen(i: nat, original: seq<SigEntry>, valid: seq<SigEntry>)
      requires Valid() && Idle(Now()) && i < |orders| && orders[i].state.AuthCreated? && Unsent(orders[i])
      requires original <= orders[i].request.value.signatures && |valid| < SIGNATURE_THRESHOLD
      modifies this
      ensures Ran() && Quiet() && Idle(Now()) && orders == old(orders)[i := Pruned(old(orders)[i], original, valid)]
      ensures Reopened(original, orders[i])
    {
      RowInvariant(i);
      PruneSignatures(i, original, valid);
    }

    method NoteRefusal(i: nat, original: seq<SigEntry>, valid: seq<SigEntry>, registered: nat -> bool, why: Simulation)
      requires Valid() && Idle(Now()) && i < |orders| && orders[i].request.Some? && !why.Accepted?
      modifies this
      ensures Ran() && Quiet() && Idle(Now())
      ensures var o := old(orders)[i];
        orders == old(orders)[i := WithError(if why.Reverts? && why.insufficientSignatures then Pruned(o, original, Registered(valid, registered))
                                             else o, ErrorOf(why))]
    {
      if why.Reverts? && why.insufficientSignatures {
        var keep := OnlyRegistered(valid, registered);
        PruneSignatures(i, original, keep);
      }
      var error := if why.Reverts? && why.alreadyProcessed then AlreadyProcessed else OtherRefusal;
      SendsSnoc(trace, RecordError(i, error));
      RecordSubmitError(i, error);
    }

    /** Send, then write the hash down; the process may die in between. before: the row when it is written. */
    method SendAndRecord(i: nat, valid: seq<SigEntry>, lost: bool) returns (t: SentTx, ghost before: Order)
      requires Valid() && Idle(Now()) && i < |orders| && orders[i].state.AuthCreated? && Unsent(orders[i])
      requires ThresholdMet(recover, AuthOf(Now(), i), valid)
      modifies this
      ensures Ran() && Idle(Now()) && OnlyRow(i) && SameDecision(old(orders)[i], before)
      ensures t.auth == AuthOf(old(Now()), i) && t.sigs == valid
      ensures orders[i] == if lost then before else SubmittedAs(before, t.hash)
      ensures SendsIn(trace) == old(SendsIn(trace)) + [Send(i, valid)]
    {
      SendsSnoc(trace, Send(i, valid));
      t := WriteContract(i, valid);
      ghost var row := orders[i];
      TimePasses();
      before := orders[i];
      assert SameDecision(row, before);
      if lost {
        SendsSnoc(trace, Crash);
        Restart();
      } else {
        SendsSnoc(trace, RecordSend);
        RecordTxHash();
      }
    }

    method OnlyRegistered(valid: seq<SigEntry>, registered: nat -> bool) returns (keep: seq<SigEntry>)
      ensures keep == Registered(valid, registered)
    {
      keep := [];
      for k := 0 to |valid|
        invariant keep == Registered(valid[..k], registered)
      {
        assert valid[..k + 1][..k] == valid[..k];
        if registered(valid[k].signer) { keep := keep + [valid[k]]; }
      }
      assert valid[..|valid|] == valid;
    }

    /** Unsent, three stored signatures, more than a minute left, and not known to be minted already. */
    static predicate IsReady(o: Order, now: nat) {
      && o.state.AuthCreated? && Unsent(o) && o.request.value.signatureCount >= SIGNATURE_THRESHOLD
      && o.request.value.deadline > now + DEADLINE_MARGIN_SECONDS && o.request.value.lastSubmitError != Some(AlreadyProcessed)
    }

    /** What the job makes of a row: its turn if it was ready, and whatever watchers added after it. */
    ghost predicate SubmittedRow(i: nat, o: Order, o': Order, t: Turn, sent: Option<SentTx>, round: Round) {
      if IsReady(o, round.nows(3))
      then TurnOf(i, o, t, sent, round.simulated(i), round.lost(i), round.registered) && SameDecision(t.after, o')
      else sent.None? && SameDecision(o, o')
    }

    lemma SubmittedStill(i: nat, o: Order, o1: Order, o2: Order, t: Turn, sent: Option<SentTx>, round: Round)
      requires SubmittedRow(i, o, o1, t, sent, round) && SameDecision(o1, o2)
      ensures SubmittedRow(i, o, o2, t, sent, round)
    {
    }

    /**
     * A mint goes out exactly for a row at AUTH_CREATED without one, with three signatures stored, more than a minute left,
     * not known to be minted, three signers of this very authorisation in its list and an accepted simulation; and then it is
     * written down unless the process dies.
     */
    lemma ReadyIsSubmitted(i: nat, o: Order, o': Order, t: Turn, sent: Option<SentTx>, round: Round)
      requires SubmittedRow(i, o, o', t, sent, round)
      ensures sent.Some? <==>
        && o.state.AuthCreated? && o.request.Some? && o.request.value.gnosisTxHash.None?
        && o.request.value.signatureCount >= 3 && o.request.value.deadline - round.nows(3) > 60
        && o.request.value.lastSubmitError != Some(AlreadyProcessed)
        && EnoughSigners(i, o) && round.simulated(i).Accepted?
      ensures sent.Some? && !round.lost(i) ==>
        o'.state.Submitted? && o'.request.Some? && o'.request.value.gnosisTxHash == Some(sent.value.hash)
    {
    }

    static function SendsOf(sent: seq<Option<SentTx>>): seq<Action> {
      if sent == [] then [] else SendsOf(sent[..|sent| - 1]) + SendOf(|sent| - 1, sent[|sent| - 1])
    }

    /** Every ready row has its turn, and exactly the mints these turns call for are sent. */
    ghost predicate SubmitPass(before: seq<Order>, after: seq<Order>, turns: seq<Turn>, sent: seq<Option<SentTx>>, round: Round) {
      && |turns| == |sent| == |before| <= |after|
      && forall i :: 0 <= i < |before| ==> SubmittedRow(i, before[i], after[i], turns[i], sent[i], round)
    }

    method SubmitReadyMints(round: Round) returns (sent: seq<Option<SentTx>>, ghost turns: seq<Turn>)
      requires Valid() && Idle(Now())
      modifies this
      ensures Ran() && Idle(Now())
      ensures SubmitPass(old(orders), orders, turns, sent, round)
      ensures SendsIn(trace) == old(SendsIn(trace)) + SendsOf(sent)
    {
      var start := orders;
      sent, turns := [], [];
      for i := 0 to |start|
        invariant Ran() && Idle(Now()) && |start| <= |orders| && |sent| == |turns| == i
        invariant forall j :: 0 <= j < i ==> SubmittedRow(j, start[j], orders[j], turns[j], sent[j], round)
        invariant forall j :: i <= j < |start| ==> SameDecision(start[j], orders[j])
        invariant SendsIn(trace) == old(SendsIn(trace)) + SendsOf(sent)
      {
        ghost var before := orders;
        var one, t := SubmitTurn(i, start[i], round);
        forall j | 0 <= j < |start| && j != i
          ensures if j < i then SubmittedRow(j, start[j], orders[j], turns[j], sent[j], round) else SameDecision(start[j], orders[j])
        {
          if j < i { SubmittedStill(j, start[j], before[j], orders[j], turns[j], sent[j], round); }
        }
        assert (sent + [one])[..i] == sent;
        sent, turns := sent + [one], turns + [t];
      }
    }

    method SubmitTurn(i: nat, o: Order, round: Round) returns (sent: Option<SentTx>, ghost t: Turn)
      requires Valid() && Idle(Now()) && i < |orders| && SameDecision(o, orders[i])
      modifies this
      ensures Ran() && Idle(Now()) && OnlyRow(i) && SubmittedRow(i, o, orders[i], t, sent, round)
      ensures SendsIn(trace) == old(SendsIn(trace)) + SendOf(i, sent)
    {
      sent, t := None, Turn(orders[i], orders[i], []);
      if o.state.AuthCreated? && o.request.Some? && o.request.value.gnosisTxHash.None?
        && o.request.value.signatureCount >= SIGNATURE_THRESHOLD && o.request.value.lastSubmitError != Some(AlreadyProcessed)
        && o.request.value.deadline > round.nows(3) + DEADLINE_MARGIN_SECONDS
      {
        sent, t := SubmitOne(i, o, round.registered, round.simulated(i), round.lost(i));
      }
    }

    // ── Job 3 ──────────────────────────────────────────────────────────────

    method Settle(i: nat, a: Action)
      requires Valid() && i < |orders| && Enabled(recover, Now(), a)
      requires a == ConfirmMint(i) || a == FailMint(i) || a == CompleteMint(i)
      modifies this
      ensures Did(a)
    {
      ghost var before := Now();
      var next := if a.ConfirmMint? then MintConfirmed else if a.FailMint? then Failed else Completed;
      orders := orders[i := orders[i].(state := next)];
      Log(a, before);
    }

    /** What a receipt makes of a submitted row: failed if it reverted, otherwise confirmed and, unless the process dies, completed. */
    static function Settled(o: Order, executed: bool, died: bool): Order {
      o.(state := if !executed then Failed else if died then MintConfirmed else Completed)
    }

    /** Submitted, and its transaction is in a block. */
    static predicate HasReceipt(o: Order, minedAt: map<nat, nat>) {
      o.state.Submitted? && o.request.Some? && o.request.value.gnosisTxHash.Some? && o.request.value.gnosisTxHash.value in minedAt
    }

    method ConfirmOne(i: nat, died: bool)
      requires Valid() && Idle(Now()) && i < |orders| && HasReceipt(orders[i], minedAt)
      modifies this
      ensures Ran() && Quiet() && Idle(Now()) && minedAt == old(minedAt) && executed == old(executed)
      ensures orders == old(orders)[i := Settled(old(orders)[i], old(orders)[i].request.value.gnosisTxHash.value in executed, died)]
    {
      SendsSnoc(trace, FailMint(i));
      SendsSnoc(trace, ConfirmMint(i));
      SendsSnoc(trace + [ConfirmMint(i)], CompleteMint(i));
      if orders[i].request.value.gnosisTxHash.value !in executed {
        Settle(i, FailMint(i));
      } else {
        Settle(i, ConfirmMint(i));
        if !died { Settle(i, CompleteMint(i)); }
      }
    }

    static predicate ConfirmPass(before: seq<Order>, after: seq<Order>, minedAt: map<nat, nat>, executed: set<nat>,
                                 receipts: nat -> bool, died: nat -> bool)
    {
      && |after| == |before|
      && forall i | 0 <= i < |after| ::
           after[i] ==
           if HasReceipt(before[i], minedAt) && receipts(i)
           then Settled(before[i], before[i].request.value.gnosisTxHash.value in executed, died(i)) else before[i]
    }

    /** Exactly the mined submissions whose receipt could be read move, each as its receipt says. */
    method ConfirmSubmittedMints(receipts: nat -> bool, died: nat -> bool)
      requires Valid() && Idle(Now())
      modifies this
      ensures Ran() && Quiet() && Idle(Now())
      ensures ConfirmPass(old(orders), orders, old(minedAt), old(executed), receipts, died)
    {
      for i := 0 to |orders|
        invariant Ran() && Quiet() && Idle(Now()) && |orders| == |old(orders)|
        invariant minedAt == old(minedAt) && executed == old(executed)
        invariant forall j :: i <= j < |orders| ==> orders[j] == old(orders)[j]
        invariant forall j | 0 <= j < i ::
          orders[j] ==
          if HasReceipt(old(orders)[j], minedAt) && receipts(j)
          then Settled(old(orders)[j], old(orders)[j].request.value.gnosisTxHash.value in executed, died(j)) else old(orders)[j]
      {
        if orders[i].state.Submitted? && orders[i].request.Some? && orders[i].request.value.gnosisTxHash.Some? && receipts(i) {
          if orders[i].request.value.gnosisTxHash.value in minedAt { ConfirmOne(i, died(i)); }
        }
      }
    }

    // ── One round ──────────────────────────────────────────────────────────

    ghost predicate ConfirmedOr(s: State, s': State, round: Round) {
      if round.runs(0) then ConfirmPass(s.orders, s'.orders, s.minedAt, s.executed, round.receipts, round.died) else s' == s
    }

    ghost predicate ReissuedOr(s: State, s': State, round: Round) {
      if round.runs(1)
      then ReissuePass(s.orders, s'.orders, s.processed, round.nonces(1), round.nows(1), round.mintDeadlineSeconds, round.unreachable)
      else s' == s
    }

    ghost predicate DecidedOr(s: State, s': State, made: seq<Option<CapDecision>>, round: Round) {
      if round.runs(2) then DecidePass(s, s', made, round) else made == [] && s' == s
    }

    ghost predicate SubmittedOr(s: State, s': State, turns: seq<Turn>, sent: seq<Option<SentTx>>, round: Round) {
      if round.runs(3) then SubmitPass(s.orders, s'.orders, turns, sent, round) else sent == [] && s' == s
    }

    /** The jobs in order, each on what the one before left and the world made of it meanwhile. */
    ghost predicate RoundDone(s: State, s': State, t: Stops, round: Round) {
      && ConfirmedOr(s, t.confirmed, round) && SameDecisions(t.confirmed.orders, t.reissuing.orders)
      && ReissuedOr(t.reissuing, t.reissued, round) && SameDecisions(t.reissued.orders, t.deciding.orders)
      && DecidedOr(t.deciding, t.decided, t.made, round) && SameDecisions(t.decided.orders, t.submitting.orders)
      && SubmittedOr(t.submitting, s', t.turns, t.sent, round)
    }

    method ConfirmAndReissue(round: Round) returns (ghost confirmed: State, ghost reissuing: State, ghost reissued: State)
      requires Valid() && Idle(Now())
      modifies this
      ensures Ran() && Quiet() && Idle(Now())
      ensures ConfirmedOr(old(Now()), confirmed, round) && SameDecisions(confirmed.orders, reissuing.orders)
      ensures ReissuedOr(reissuing, reissued, round) && SameDecisions(reissued.orders, orders)
    {
      if round.runs(0) { ConfirmSubmittedMints(round.receipts, round.died); }
      confirmed := Now();
      TimePasses();
      reissuing := Now();
      if round.runs(1) { RegenerateExpiredAuths(round.nonces(1), round.nows(1), round.mintDeadlineSeconds, round.unreachable); }
      reissued := Now();
      TimePasses();
    }

    method CreateOrSkip(round: Round) returns (made: seq<Option<CapDecision>>)
      requires Valid() && Idle(Now()) && db.Valid()
      modifies this, db
      ensures Ran() && Quiet() && Idle(Now()) && db.Ran() && DecidedOr(old(Now()), Now(), made, round)
      ensures BookedAll(db.rate, old(db.Now()), db.Now(), made)
    {
      made := [];
      if round.runs(2) { made := CreatePendingAuths(round); }
    }

    method DecideLater(round: Round) returns (made: seq<Option<CapDecision>>, ghost decided: State)
      requires Valid() && Idle(Now()) && db.Valid()
      modifies this, db
      ensures Ran() && Quiet() && Idle(Now()) && db.Ran()
      ensures DecidedOr(old(Now()), decided, made, round) && SameDecisions(decided.orders, orders)
      ensures BookedAll(db.rate, old(db.Now()), db.Now(), made)
    {
      made := CreateOrSkip(round);
      decided := Now();
      TimePasses();
    }

    lemma Capped()
      requires Valid()
      ensures WithinCap(Now())
    {
      CapNeverOverrun(recover, start, trace, Now());
    }

    method SubmitLater(round: Round) returns (sent: seq<Option<SentTx>>, ghost turns: seq<Turn>)
      requires Valid() && Idle(Now())
      modifies this
      ensures Ran() && Idle(Now()) && SendsIn(trace) == old(SendsIn(trace)) + SendsOf(sent)
      ensures SubmittedOr(old(Now()), Now(), turns, sent, round)
    {
      sent, turns := [], [];
      if round.runs(3) { sent, turns := SubmitReadyMints(round); }
    }

    method RunJobs(round: Round) returns (ghost t: Stops)
      requires Valid() && Idle(Now()) && db.Valid()
      modifies this, db
      ensures Ran() && Idle(Now()) && db.Ran() && RoundDone(old(Now()), Now(), t, round)
      ensures BookedAll(db.rate, old(db.Now()), db.Now(), t.made)
      ensures SendsIn(trace) == old(SendsIn(trace)) + SendsOf(t.sent)
    {
      ghost var confirmed, reissuing, reissued := ConfirmAndReissue(round);
      ghost var deciding := Now();
      var made, decided := DecideLater(round);
      ghost var submitting := Now();
      var sent, turns := SubmitLater(round);
      t := Stops(confirmed, reissuing, reissued, deciding, made, decided, submitting, sent, turns);
    }

    /** Confirm first, then reissue, decide and submit; the world moves in between, and the cap holds at the end. */
    method Poll(round: Round) returns (ghost t: Stops)
      requires Valid() && Idle(Now()) && db.Valid()
      modifies this, db
      ensures Ran() && Idle(Now()) && db.Ran() && RoundDone(old(Now()), Now(), t, round)
      ensures BookedAll(db.rate, old(db.Now()), db.Now(), t.made)
      ensures SendsIn(trace) == old(SendsIn(trace)) + SendsOf(t.sent)
      ensures WithinCap(Now())
    {
      t := RunJobs(round);
      Capped();
    }
  }
}
