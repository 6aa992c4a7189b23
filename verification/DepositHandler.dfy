/** What a block, or an orphaned block, does to the deposits (watcher/src/deposits/block-handler.ts). */
module DepositHandler {
  import opened Coins
  import opened Confirmations

  /** txid, vout and amount of the paying output, and where it was mined. */
  datatype Sighting = Sighting(txid: nat, vout: nat, amountSat: nat, blockHash: nat, blockHeight: nat, confirmations: int)

  /** An inbound order joined with its source_deposits row. */
  datatype Order = Order(state: InboundState, address: string, chain: string, recipient: nat, sighting: Option<Sighting>)

  datatype Tracked = Tracked(address: string, chain: string, recipient: nat)

  /** address: the one a standard pay-to-pubkey-hash output pays, if it is one. */
  datatype Output = Output(txid: nat, vout: nat, address: Option<string>, amountSat: nat)

  datatype Block = Block(hash: nat, height: nat, outputs: seq<Output>)

  /** The node on one transaction. Its answers carry no block height. */
  datatype Answer = NodeError | Unknown | Known(confirmations: nat, blockHash: Option<nat>)

  /** What the deposit id hashes, all of it. */
  datatype DepositId = DepositId(chain: string, txid: nat, vout: nat, address: string, amountSat: nat, recipient: nat)

  function IdFor(o: Order, m: Output): DepositId {
    DepositId(o.chain, m.txid, m.vout, o.address, m.amountSat, o.recipient)
  }

  predicate HasDepositId(o: Order, id: DepositId) {
    o.sighting.Some? && id == DepositId(o.chain, o.sighting.value.txid, o.sighting.value.vout, o.address, o.sighting.value.amountSat, o.recipient)
  }

  predicate Taken(orders: seq<Order>, id: DepositId) {
    exists k :: 0 <= k < |orders| && HasDepositId(orders[k], id)
  }

  predicate Recorded(orders: seq<Order>, m: Output) {
    exists k :: 0 <= k < |orders| && orders[k].sighting.Some? && orders[k].sighting.value.txid == m.txid && orders[k].sighting.value.vout == m.vout
  }

  predicate IsPending(o: Order) {
    o.state.AddressAssigned? && o.sighting.None?
  }

  predicate Pays(m: Output, address: string) {
    m.amountSat > 0 && m.address == Some(address)
  }

  // ── Pass A: first sighting ───────────────────────────────────────────────

  /** The last pending order of the first n with this address: later rows replace earlier ones in the lookup. */
  function Claimant(orders: seq<Order>, n: nat, m: Output): (i: Option<nat>)
    requires n <= |orders|
    ensures i.Some? ==> i.value < n && IsPending(orders[i.value]) && Pays(m, orders[i.value].address)
    ensures i.Some? ==> forall k :: i.value < k < n && IsPending(orders[k]) ==> !Pays(m, orders[k].address)
    ensures i.None? ==> forall k :: 0 <= k < n && IsPending(orders[k]) ==> !Pays(m, orders[k].address)
  {
    if n == 0 then None
    else if IsPending(orders[n - 1]) && Pays(m, orders[n - 1].address) then Some(n - 1)
    else Claimant(orders, n - 1, m)
  }

  /** Whose address this is, if the output pays one. */
  function Found(byAddress: map<string, nat>, m: Output): Option<nat> {
    if m.amountSat > 0 && m.address.Some? && m.address.value in byAddress then Some(byAddress[m.address.value]) else None
  }

  function Seen(o: Order, m: Output, b: Block): Order {
    o.(state := SeenMempool, sighting := Some(Sighting(m.txid, m.vout, m.amountSat, b.hash, b.height, 1)))
  }

  /** May this output be recorded on order i? It must still be waiting, and the deposit id must be new. */
  predicate Claims(orders: seq<Order>, i: nat, m: Output) {
    i < |orders| && orders[i].state.AddressAssigned? && !Taken(orders, IdFor(orders[i], m))
  }

  function ClaimOne(start: seq<Order>, orders: seq<Order>, m: Output, b: Block): (r: seq<Order>)
    ensures |r| == |orders|
  {
    var i := Claimant(start, |start|, m);
    if i.Some? && Claims(orders, i.value, m) then orders[i.value := Seen(orders[i.value], m, b)] else orders
  }

  /** The first k outputs offered to the orders pending at the start of the block. */
  function ClaimTo(start: seq<Order>, b: Block, k: nat): (r: seq<Order>)
    requires k <= |b.outputs|
    ensures |r| == |start|
  {
    if k == 0 then start else ClaimOne(start, ClaimTo(start, b, k - 1), b.outputs[k - 1], b)
  }

  // ── Pass A2: persistent addresses ────────────────────────────────────────

  function TrackedAt(tracked: seq<Tracked>, n: nat, m: Output): (t: Option<nat>)
    requires n <= |tracked|
    ensures t.Some? ==> t.value < n && Pays(m, tracked[t.value].address)
    ensures t.Some? ==> forall k :: t.value < k < n ==> !Pays(m, tracked[k].address)
    ensures t.None? ==> forall k :: 0 <= k < n ==> !Pays(m, tracked[k].address)
  {
    if n == 0 then None
    else if Pays(m, tracked[n - 1].address) then Some(n - 1)
    else TrackedAt(tracked, n - 1, m)
  }

  function IngestOne(tracked: seq<Tracked>, orders: seq<Order>, m: Output, b: Block): seq<Order> {
    var t := TrackedAt(tracked, |tracked|, m);
    if t.Some? && !Recorded(orders, m) then
      var a := tracked[t.value];
      orders + [Seen(Order(SeenMempool, a.address, a.chain, a.recipient, None), m, b)]
    else orders
  }

  function IngestTo(tracked: seq<Tracked>, start: seq<Order>, b: Block, k: nat): seq<Order>
    requires k <= |b.outputs|
  {
    if k == 0 then start else IngestOne(tracked, IngestTo(tracked, start, b, k - 1), b.outputs[k - 1], b)
  }

  // ── Pass B: confirmations ────────────────────────────────────────────────

  predicate Advancing(o: Order, height: nat) {
    (o.state.SeenMempool? || o.state.Confirmed?) && o.sighting.Some? && height - o.sighting.value.blockHeight + 1 >= 1
  }

  /** Never more than the node counts, never more than the heights allow. */
  function Count(o: Order, height: nat, confirmations: nat): int
    requires o.sighting.Some?
  {
    Lower(height - o.sighting.value.blockHeight + 1, confirmations)
  }

  /** The order after the node was asked about its transaction. */
  function Advanced(o: Order, height: nat, answer: Answer, config: Config): Order {
    if !Advancing(o, height) || answer.NodeError? then o
    else
      var d := o.sighting.value;
      if answer.Unknown? || answer.confirmations == 0 then
        var back := ComputeReorgRollback(o.state, 0, config);
        o.(sighting := Some(d.(confirmations := 0)), state := if back.Some? then back.value else o.state)
      else
        var moved := answer.blockHash.Some? && answer.blockHash.value != d.blockHash;
        var here := if moved then d.(blockHash := answer.blockHash.value, confirmations := answer.confirmations) else d;
        var confs := Count(o, height, answer.confirmations);
        o.(sighting := Some(here.(confirmations := if here.confirmations < confs then confs else here.confirmations)),
           state := Moved(o.state, confs, config))
  }

  function AnswerFor(o: Order, node: nat -> Answer): Answer {
    if o.sighting.Some? then node(o.sighting.value.txid) else NodeError
  }

  function AdvanceAll(orders: seq<Order>, height: nat, node: nat -> Answer, config: Config): (r: seq<Order>)
    ensures |r| == |orders|
    ensures forall k :: 0 <= k < |r| ==> r[k] == Advanced(orders[k], height, AnswerFor(orders[k], node), config)
  {
    seq(|orders|, k requires 0 <= k < |orders| => Advanced(orders[k], height, AnswerFor(orders[k], node), config))
  }

  function Sighted(tracked: seq<Tracked>, orders: seq<Order>, b: Block): seq<Order> {
    IngestTo(tracked, ClaimTo(orders, b, |b.outputs|), b, |b.outputs|)
  }

  /** The whole block, when nothing fails. */
  function Handled(tracked: seq<Tracked>, orders: seq<Order>, b: Block, node: nat -> Answer, config: Config): seq<Order> {
    AdvanceAll(Sighted(tracked, orders, b), b.height, node, config)
  }

  // ── Confirmation safety ──────────────────────────────────────────────────

  predicate BothReach(o: Order, height: nat, confirmations: nat, threshold: nat)
    requires o.sighting.Some?
  {
    confirmations >= threshold && height - o.sighting.value.blockHeight + 1 >= threshold
  }

  /** What pass B may do to one order, told by the node's count and the heights. */
  predicate EarnedBy(o: Order, o': Order, height: nat, answer: Answer, config: Config) {
    var looked := (o.state.SeenMempool? || o.state.Confirmed?) && o.sighting.Some? && height >= o.sighting.value.blockHeight;
    var mined := looked && answer.Known? && answer.confirmations > 0;
    var gone := looked && (answer.Unknown? || (answer.Known? && answer.confirmations == 0));
    && o' == o.(state := o'.state, sighting := o'.sighting) && (o'.sighting.Some? <==> o.sighting.Some?)
    && (o.sighting.Some? ==>
          var d, d' := o.sighting.value, o'.sighting.value;
          d'.txid == d.txid && d'.vout == d.vout && d'.amountSat == d.amountSat && d'.blockHeight == d.blockHeight)
    && (!mined && !gone ==> o' == o)
    // Forward exactly on a count both the node and the heights reach.
    && (o'.state.Finalized? && !o.state.Finalized? ==> mined)
    && (o'.state.Confirmed? && !o.state.Confirmed? ==> mined)
    && (mined ==>
          && (o'.state.Finalized? <==> BothReach(o, height, answer.confirmations, config.finalConfirmations))
          && (o'.state.Confirmed? <==>
                && !BothReach(o, height, answer.confirmations, config.finalConfirmations)
                && (o.state.Confirmed? || BothReach(o, height, answer.confirmations, config.minConfirmations))))
    // Wherever it was mined, the row follows: to the node's block, with at least the count both reach.
    && (mined ==>
          && (answer.blockHash.Some? ==> o'.sighting.value.blockHash == answer.blockHash.value)
          && (answer.blockHash.None? ==> o'.sighting.value.blockHash == o.sighting.value.blockHash)
          && (answer.confirmations <= o'.sighting.value.confirmations || height - o.sighting.value.blockHeight < o'.sighting.value.confirmations))
    && (gone ==> o'.sighting.value.confirmations == 0 && o'.sighting.value.blockHash == o.sighting.value.blockHash)
    // Back exactly when the node says the transaction is not in the active chain.
    && (o.state.Confirmed? && looked && config.minConfirmations > 0 ==> (o'.state.SeenMempool? <==> gone))
    && (o'.state.SeenMempool? && !o.state.SeenMempool? ==> o.state.Confirmed?)
  }

  lemma AdvancedIsEarned(o: Order, height: nat, answer: Answer, config: Config)
    ensures EarnedBy(o, Advanced(o, height, answer, config), height, answer, config)
  {
    if Advancing(o, height) && answer.Known? && answer.confirmations > 0 {
      MovesAreEarned(o.state, Count(o, height, answer.confirmations), config);
    }
  }

  /** A deposit mined again in another block goes back when that block is orphaned, and no longer when the first one is. */
  lemma RemineIsFollowed(o: Order, height: nat, answer: Answer, config: Config, hash: nat)
    requires Advancing(o, height) && answer.Known? && answer.blockHash == Some(hash) && answer.confirmations > 0
    ensures var o' := Advanced(o, height, answer, config);
      o'.state.Confirmed? ==> IsOrphaned(o', hash) && (hash != o.sighting.value.blockHash ==> !IsOrphaned(o', o.sighting.value.blockHash))
  {
    AdvancedIsEarned(o, height, answer, config);
  }

  predicate IsOrphaned(o: Order, hash: nat) {
    o.state.Confirmed? && o.sighting.Some? && o.sighting.value.blockHash == hash
  }

  /** Asking the same node about the same order at the same height again changes nothing. */
  lemma AdvancedTwice(o: Order, height: nat, node: nat -> Answer, config: Config)
    ensures var once := Advanced(o, height, AnswerFor(o, node), config);
      Advanced(once, height, AnswerFor(once, node), config) == once
  {
    var answer := AnswerFor(o, node);
    if Advancing(o, height) && answer.Known? && answer.confirmations > 0 {
      MovesAreEarned(o.state, Count(o, height, answer.confirmations), config);
    }
  }

  // ── Replay ───────────────────────────────────────────────────────────────

  predicate PendingDistinct(orders: seq<Order>) {
    forall i, j :: 0 <= i < j < |orders| && IsPending(orders[i]) && IsPending(orders[j]) ==> orders[i].address != orders[j].address
  }

  /** What later steps never undo: sightings stay, and an order that was not pending does not become so. */
  predicate Keeps(o: Order, o': Order) {
    && o'.address == o.address && o'.chain == o.chain && o'.recipient == o.recipient
    && (o.sighting.Some? ==> o'.sighting.Some? && SamePayment(o.sighting.value, o'.sighting.value))
    && (IsPending(o') ==> o' == o)
    && (o'.state.AddressAssigned? ==> o' == o)
  }

  predicate SamePayment(d: Sighting, d': Sighting) {
    d'.txid == d.txid && d'.vout == d.vout && d'.amountSat == d.amountSat && d'.blockHeight == d.blockHeight
  }

  /** The order was paid by an output of this block, at this block's height. */
  predicate PaidIn(o: Order, b: Block) {
    && o.sighting.Some? && o.sighting.value.blockHeight == b.height
    && exists j :: 0 <= j < |b.outputs| && PaidBy(o, b.outputs[j])
  }

  predicate PaidBy(o: Order, m: Output)
    requires o.sighting.Some?
  {
    Pays(m, o.address) && o.sighting.value.txid == m.txid && o.sighting.value.vout == m.vout && o.sighting.value.amountSat == m.amountSat
  }

  /** ...and it has just been seen there. */
  predicate JustSeen(o: Order, b: Block) {
    o.state.SeenMempool? && PaidIn(o, b) && o.sighting.value.blockHash == b.hash && o.sighting.value.confirmations == 1
  }

  /** Some orders that were pending were just seen in this block; the rest is as it was. */
  predicate OnlyClaimed(start: seq<Order>, orders: seq<Order>, b: Block) {
    && |orders| == |start|
    && forall k :: 0 <= k < |orders| ==>
         orders[k] == start[k] || (IsPending(start[k]) && JustSeen(orders[k], b) && Keeps(start[k], orders[k]))
  }

  /** The block the node has the transaction in, or else the one it was seen in. */
  function MinedIn(answer: Answer, hash: nat): nat {
    if answer.Known? && answer.confirmations > 0 && answer.blockHash.Some? then answer.blockHash.value else hash
  }

  /** The row's block is the one it had or the one the node names. */
  predicate Followed(o: Order, o': Order, answer: Answer) {
    o.sighting.Some? && o'.sighting.Some? ==>
      var hash, hash' := o.sighting.value.blockHash, o'.sighting.value.blockHash;
      hash' == hash || hash' == MinedIn(answer, hash)
  }

  /** Every order first seen in this block carries its height, and its hash unless the node names another block. */
  predicate SeenHere(start: seq<Order>, orders: seq<Order>, b: Block, node: nat -> Answer, faulted: bool) {
    forall k :: 0 <= k < |orders| && orders[k].sighting.Some? && (k < |start| ==> start[k].sighting.None?) ==>
      && PaidIn(orders[k], b)
      && var hash, mined := orders[k].sighting.value.blockHash, MinedIn(AnswerFor(orders[k], node), b.hash);
         hash == mined || (faulted && hash == b.hash)
  }

  predicate KeepsAll(orders: seq<Order>, orders': seq<Order>) {
    |orders| <= |orders'| && forall k :: 0 <= k < |orders| ==> Keeps(orders[k], orders'[k])
  }

  lemma TakenStays(orders: seq<Order>, orders': seq<Order>, id: DepositId)
    requires KeepsAll(orders, orders') && Taken(orders, id)
    ensures Taken(orders', id)
  {
    var k :| 0 <= k < |orders| && HasDepositId(orders[k], id);
    assert HasDepositId(orders'[k], id);
  }

  lemma RecordedStays(orders: seq<Order>, orders': seq<Order>, m: Output)
    requires KeepsAll(orders, orders') && Recorded(orders, m)
    ensures Recorded(orders', m)
  {
    var k :| 0 <= k < |orders| && orders[k].sighting.Some? && orders[k].sighting.value.txid == m.txid && orders[k].sighting.value.vout == m.vout;
    assert Keeps(orders[k], orders'[k]);
  }

  lemma ClaimOneKeeps(start: seq<Order>, orders: seq<Order>, m: Output, b: Block)
    requires KeepsAll(start, orders) && |start| == |orders|
    ensures KeepsAll(orders, ClaimOne(start, orders, m, b)) && KeepsAll(start, ClaimOne(start, orders, m, b))
  {
    forall k | 0 <= k < |orders| ensures Keeps(orders[k], ClaimOne(start, orders, m, b)[k]) && Keeps(start[k], ClaimOne(start, orders, m, b)[k]) {
      assert Keeps(start[k], orders[k]);
    }
  }

  lemma {:induction false} ClaimKeeps(start: seq<Order>, b: Block, k: nat)
    requires k <= |b.outputs|
    ensures KeepsAll(start, ClaimTo(start, b, k))
  {
    if k > 0 {
      ClaimKeeps(start, b, k - 1);
      ClaimOneKeeps(start, ClaimTo(start, b, k - 1), b.outputs[k - 1], b);
    }
  }

  lemma {:induction false} IngestKeeps(tracked: seq<Tracked>, start: seq<Order>, b: Block, k: nat)
    requires k <= |b.outputs|
    ensures |start| <= |IngestTo(tracked, start, b, k)| && IngestTo(tracked, start, b, k)[..|start|] == start
    ensures forall n :: |start| <= n < |IngestTo(tracked, start, b, k)| ==> IngestTo(tracked, start, b, k)[n].state.SeenMempool?
  {
    if k > 0 { IngestKeeps(tracked, start, b, k - 1); }
  }

  /** After pass A an order still pending has nothing left to claim in this block, unless each deposit id is taken. */
  lemma {:induction false} ClaimedOut(start: seq<Order>, b: Block, k: nat, j: nat, i: nat)
    requires PendingDistinct(start) && j < k <= |b.outputs| && i < |start|
    requires IsPending(ClaimTo(start, b, k)[i]) && Pays(b.outputs[j], start[i].address)
    ensures Taken(ClaimTo(start, b, k), IdFor(start[i], b.outputs[j]))
  {
    ClaimKeeps(start, b, k);
    ClaimKeeps(start, b, k - 1);
    var before := ClaimTo(start, b, k - 1);
    ClaimOneKeeps(start, before, b.outputs[k - 1], b);
    assert Keeps(before[i], ClaimTo(start, b, k)[i]) && Keeps(start[i], before[i]);
    if j < k - 1 {
      ClaimedOut(start, b, k - 1, j, i);
      TakenStays(before, ClaimTo(start, b, k), IdFor(start[i], b.outputs[j]));
    } else {
      assert Claimant(start, |start|, b.outputs[j]) == Some(i);
      TakenStays(before, ClaimTo(start, b, k), IdFor(start[i], b.outputs[j]));
    }
  }

  /** If every output an order is waiting for is taken, offering them changes nothing. */
  lemma {:induction false} NothingToClaim(start: seq<Order>, b: Block, k: nat)
    requires k <= |b.outputs|
    requires forall i, j :: 0 <= i < |start| && IsPending(start[i]) && 0 <= j < |b.outputs| && Pays(b.outputs[j], start[i].address) ==>
      Taken(start, IdFor(start[i], b.outputs[j]))
    ensures ClaimTo(start, b, k) == start
  {
    if k > 0 { NothingToClaim(start, b, k - 1); }
  }

  lemma {:induction false} NothingToIngest(tracked: seq<Tracked>, start: seq<Order>, b: Block, k: nat)
    requires k <= |b.outputs|
    requires forall j :: 0 <= j < |b.outputs| && TrackedAt(tracked, |tracked|, b.outputs[j]).Some? ==> Recorded(start, b.outputs[j])
    ensures IngestTo(tracked, start, b, k) == start
  {
    if k > 0 { NothingToIngest(tracked, start, b, k - 1); }
  }

  /** Pass A2 leaves every tracked output recorded. */
  lemma {:induction false} IngestedOut(tracked: seq<Tracked>, start: seq<Order>, b: Block, k: nat, j: nat)
    requires j < k <= |b.outputs| && TrackedAt(tracked, |tracked|, b.outputs[j]).Some?
    ensures Recorded(IngestTo(tracked, start, b, k), b.outputs[j])
  {
    var before, after := IngestTo(tracked, start, b, k - 1), IngestTo(tracked, start, b, k);
    if j < k - 1 {
      IngestedOut(tracked, start, b, k - 1, j);
      RecordedStays(before, after, b.outputs[j]);
    } else if !Recorded(before, b.outputs[j]) {
      assert after[|before|].sighting.Some?;
    }
  }

  lemma AdvanceKeeps(orders: seq<Order>, height: nat, node: nat -> Answer, config: Config)
    ensures KeepsAll(orders, AdvanceAll(orders, height, node, config))
  {
    forall k | 0 <= k < |orders| ensures Keeps(orders[k], AdvanceAll(orders, height, node, config)[k]) {
      AdvancedIsEarned(orders[k], height, AnswerFor(orders[k], node), config);
    }
  }

  /** Handling a block again, with the same answers, changes nothing when pending addresses differ. */
  lemma ReplayIsIdle(tracked: seq<Tracked>, orders: seq<Order>, b: Block, node: nat -> Answer, config: Config)
    requires PendingDistinct(orders)
    ensures var once := Handled(tracked, orders, b, node, config); Handled(tracked, once, b, node, config) == once
  {
    var claimed := ClaimTo(orders, b, |b.outputs|);
    var sighted := Sighted(tracked, orders, b);
    var once := Handled(tracked, orders, b, node, config);
    ClaimKeeps(orders, b, |b.outputs|);
    IngestKeeps(tracked, claimed, b, |b.outputs|);
    AdvanceKeeps(sighted, b.height, node, config);
    forall k | 0 <= k < |claimed| ensures Keeps(claimed[k], once[k]) {
      assert sighted[..|claimed|][k] == sighted[k];
      assert Keeps(sighted[k], once[k]);
    }
    NoClaimLeft(orders, once, b);
    NothingToClaim(once, b, |b.outputs|);
    forall j | 0 <= j < |b.outputs| && TrackedAt(tracked, |tracked|, b.outputs[j]).Some? ensures Recorded(once, b.outputs[j]) {
      IngestedOut(tracked, claimed, b, |b.outputs|, j);
      RecordedStays(sighted, once, b.outputs[j]);
    }
    NothingToIngest(tracked, once, b, |b.outputs|);
    forall k | 0 <= k < |once| ensures Handled(tracked, once, b, node, config)[k] == once[k] {
      AdvancedTwice(sighted[k], b.height, node, config);
    }
  }

  lemma NoClaimLeft(orders: seq<Order>, once: seq<Order>, b: Block)
    requires PendingDistinct(orders) && KeepsAll(ClaimTo(orders, b, |b.outputs|), once)
    requires forall k :: |orders| <= k < |once| ==> !IsPending(once[k])
    ensures forall i, j :: 0 <= i < |once| && IsPending(once[i]) && 0 <= j < |b.outputs| && Pays(b.outputs[j], once[i].address) ==>
      Taken(once, IdFor(once[i], b.outputs[j]))
  {
    var claimed := ClaimTo(orders, b, |b.outputs|);
    ClaimKeeps(orders, b, |b.outputs|);
    forall i, j | 0 <= i < |once| && IsPending(once[i]) && 0 <= j < |b.outputs| && Pays(b.outputs[j], once[i].address)
      ensures Taken(once, IdFor(once[i], b.outputs[j]))
    {
      assert Keeps(claimed[i], once[i]) && Keeps(orders[i], claimed[i]);
      ClaimedOut(orders, b, |b.outputs|, j, i);
      TakenStays(claimed, once, IdFor(once[i], b.outputs[j]));
    }
  }

  /** Handling this block twice is handling it once. */
  predicate Idle(tracked: seq<Tracked>, orders: seq<Order>, b: Block, node: nat -> Answer, config: Config) {
    var once := Handled(tracked, orders, b, node, config);
    Handled(tracked, once, b, node, config) == once
  }

  /** A transaction id above all those recorded. */
  function FreshTxid(orders: seq<Order>): (t: nat)
    ensures forall k :: 0 <= k < |orders| && orders[k].sighting.Some? ==> orders[k].sighting.value.txid < t
  {
    if orders == [] then 0
    else
      var n := |orders| - 1;
      var rest := FreshTxid(orders[..n]);
      assert forall k :: 0 <= k < n ==> orders[k] == orders[..n][k];
      if orders[n].sighting.Some? && orders[n].sighting.value.txid >= rest then orders[n].sighting.value.txid + 1 else rest
  }

  /** A new transaction paying one address twice. */
  function TwoOutputs(t: nat, address: string): Block {
    Block(0, 0, [Output(t, 0, Some(address), 1), Output(t, 1, Some(address), 1)])
  }

  /** The first time, one order takes the first output and the second goes to no one. */
  lemma ClaimedOnce(orders: seq<Order>, i: nat) returns (l: nat)
    requires i < |orders| && IsPending(orders[i])
    ensures l < |orders| && IsPending(orders[l]) && orders[l].address == orders[i].address
    ensures var b := TwoOutputs(FreshTxid(orders), orders[i].address);
      ClaimTo(orders, b, 2) == orders[l := Seen(orders[l], b.outputs[0], b)]
  {
    var b := TwoOutputs(FreshTxid(orders), orders[i].address);
    var c := Claimant(orders, |orders|, b.outputs[0]);
    assert Pays(b.outputs[0], orders[i].address) && c.Some?;
    l := c.value;
    SameClaimant(orders, |orders|, b.outputs[0], b.outputs[1]);
    assert ClaimTo(orders, b, 0) == orders;
    assert !Taken(orders, IdFor(orders[l], b.outputs[0]));
    assert ClaimTo(orders, b, 1) == orders[l := Seen(orders[l], b.outputs[0], b)];
  }

  lemma {:induction false} SameClaimant(orders: seq<Order>, n: nat, m: Output, m': Output)
    requires n <= |orders| && m'.address == m.address && m.amountSat > 0 && m'.amountSat > 0
    ensures Claimant(orders, n, m') == Claimant(orders, n, m)
  {
    if n > 0 { SameClaimant(orders, n - 1, m, m'); }
  }

  /** The second time, another order waiting on that address takes what is left. */
  lemma ClaimedAgain(once: seq<Order>, p: nat, b: Block)
    requires p < |once| && IsPending(once[p]) && |b.outputs| == 2 && forall j :: 0 <= j < 2 ==> Pays(b.outputs[j], once[p].address)
    requires forall o | IsPending(o) && o.address == once[p].address :: !Taken(once, IdFor(o, b.outputs[1]))
    ensures ClaimTo(once, b, 2) != once && exists l :: 0 <= l < |once| && once[l].state.AddressAssigned? && ClaimTo(once, b, 2)[l].state.SeenMempool?
  {
    var c := Claimant(once, |once|, b.outputs[0]);
    assert c.Some?;
    SameClaimant(once, |once|, b.outputs[0], b.outputs[1]);
    assert ClaimTo(once, b, 0) == once;
    var first := ClaimTo(once, b, 1);
    if first != once {
      assert first[c.value].state.SeenMempool?;
      assert ClaimTo(once, b, 2)[c.value].state.SeenMempool?;
    } else {
      assert Claims(once, c.value, b.outputs[1]);
      assert ClaimTo(once, b, 2)[c.value].state.SeenMempool?;
    }
  }

  /** No order has the id of the second output. */
  lemma SecondIsFree(orders: seq<Order>, l: nat, b: Block, claimed: seq<Order>, once: seq<Order>)
    requires l < |orders| && IsPending(orders[l]) && b == TwoOutputs(FreshTxid(orders), orders[l].address)
    requires claimed == orders[l := Seen(orders[l], b.outputs[0], b)] && KeepsAll(claimed, once) && |once| == |claimed|
    requires forall k :: 0 <= k < |once| && once[k].sighting.Some? ==> claimed[k].sighting.Some?
    ensures forall o :: !Taken(once, IdFor(o, b.outputs[1]))
  {
    forall o, k | 0 <= k < |once| ensures !HasDepositId(once[k], IdFor(o, b.outputs[1])) {
      assert Keeps(claimed[k], once[k]);
    }
  }

  /** Two orders waiting on one address: some block replayed pays the second of them as well. */
  lemma SharedAddressReplays(orders: seq<Order>, i: nat, j: nat, config: Config) returns (b: Block)
    requires i < j < |orders| && IsPending(orders[i]) && IsPending(orders[j]) && orders[i].address == orders[j].address
    ensures !Idle([], orders, b, _ => Unknown, config)
  {
    var t := FreshTxid(orders);
    b := TwoOutputs(t, orders[i].address);
    var node: nat -> Answer := _ => Unknown;
    var l := ClaimedOnce(orders, i);
    var claimed := ClaimTo(orders, b, 2);
    NothingToIngest([], claimed, b, 2);
    var once := AdvanceAll(claimed, 0, node, config);
    AdvanceKeeps(claimed, 0, node, config);
    assert once == Handled([], orders, b, node, config);
    var p := if l == i then j else i;
    assert claimed[p] == orders[p] && once[p] == orders[p];
    SecondIsFree(orders, l, b, claimed, once);
    ClaimedAgain(once, p, b);
    var again := ClaimTo(once, b, 2);
    NothingToIngest([], again, b, 2);
    var q :| 0 <= q < |once| && once[q].state.AddressAssigned? && again[q].state.SeenMempool?;
    AdvanceKeeps(again, 0, node, config);
    assert Keeps(again[q], AdvanceAll(again, 0, node, config)[q]);
    assert Handled([], once, b, node, config)[q] != once[q];
  }

  /** Replay is idle for every block, every node and every set of tracked addresses exactly when pending addresses differ. */
  lemma ReplayIsIdleIff(orders: seq<Order>, config: Config)
    ensures (forall tracked, b, node :: Idle(tracked, orders, b, node, config)) <==> PendingDistinct(orders)
  {
    if PendingDistinct(orders) {
      forall tracked, b, node ensures Idle(tracked, orders, b, node, config) { ReplayIsIdle(tracked, orders, b, node, config); }
    } else {
      var i, j :| 0 <= i < j < |orders| && IsPending(orders[i]) && IsPending(orders[j]) && orders[i].address == orders[j].address;
      var b := SharedAddressReplays(orders, i, j, config);
      assert !Idle([], orders, b, _ => Unknown, config);
    }
  }

  // ── What a complete block has recorded ───────────────────────────────────

  /** Every output that found its order still waiting could be recorded on it. */
  predicate ClaimsComplete(start: seq<Order>, b: Block) {
    ClaimsCompleteTo(start, b, |b.outputs|)
  }

  predicate ClaimsCompleteTo(start: seq<Order>, b: Block, k: nat)
    requires k <= |b.outputs|
  {
    k == 0 || (ClaimsCompleteTo(start, b, k - 1) && ClaimFits(start, ClaimTo(start, b, k - 1), b.outputs[k - 1]))
  }

  lemma {:induction false} CompleteAt(start: seq<Order>, b: Block, k: nat, j: nat)
    requires j < k <= |b.outputs| && ClaimsCompleteTo(start, b, k)
    ensures ClaimFits(start, ClaimTo(start, b, j), b.outputs[j])
  {
    if j < k - 1 { CompleteAt(start, b, k - 1, j); }
  }

  predicate ClaimFits(start: seq<Order>, orders: seq<Order>, m: Output)
    requires |start| == |orders|
  {
    var c := Claimant(start, |start|, m);
    c.Some? && orders[c.value].state.AddressAssigned? ==> !Taken(orders, IdFor(orders[c.value], m))
  }

  predicate IsTracked(tracked: seq<Tracked>, m: Output) {
    TrackedAt(tracked, |tracked|, m).Some?
  }

  /** An output some quote or some persistent address is there for. */
  predicate Wanted(tracked: seq<Tracked>, start: seq<Order>, m: Output) {
    IsTracked(tracked, m) || Claimant(start, |start|, m).Some?
  }

  predicate AllRecorded(tracked: seq<Tracked>, start: seq<Order>, after: seq<Order>, b: Block) {
    forall j :: 0 <= j < |b.outputs| && Wanted(tracked, start, b.outputs[j]) ==> Recorded(after, b.outputs[j])
  }

  /** An earlier output of the block goes to the same pending address. */
  predicate IsSecond(start: seq<Order>, b: Block, j: nat)
    requires j < |b.outputs|
  {
    var c := Claimant(start, |start|, b.outputs[j]);
    c.Some? && exists i :: 0 <= i < j && Pays(b.outputs[i], start[c.value].address)
  }

  /** No pending address that is not tracked is paid by a second output of the block, unless that is on record already. */
  predicate NoSecondPayment(tracked: seq<Tracked>, start: seq<Order>, b: Block) {
    forall j :: 0 <= j < |b.outputs| && !IsTracked(tracked, b.outputs[j]) && IsSecond(start, b, j) ==> Recorded(start, b.outputs[j])
  }

  predicate TrackedRecorded(tracked: seq<Tracked>, after: seq<Order>, b: Block) {
    forall j :: 0 <= j < |b.outputs| && IsTracked(tracked, b.outputs[j]) ==> Recorded(after, b.outputs[j])
  }

  /** Counting confirmations records nothing and forgets nothing. */
  lemma RecordedSame(sighted: seq<Order>, after: seq<Order>, b: Block)
    requires |after| == |sighted| && KeepsAll(sighted, after)
    requires forall k :: 0 <= k < |after| && sighted[k].sighting.None? ==> after[k] == sighted[k]
    ensures forall j :: 0 <= j < |b.outputs| ==> (Recorded(after, b.outputs[j]) <==> Recorded(sighted, b.outputs[j]))
  {
    forall j | 0 <= j < |b.outputs| ensures Recorded(after, b.outputs[j]) <==> Recorded(sighted, b.outputs[j]) {
      var m := b.outputs[j];
      if Recorded(sighted, m) {
        RecordedStays(sighted, after, m);
      }
    }
  }

  predicate SameOutpoint(m: Output, m': Output) {
    m.txid == m'.txid && m.vout == m'.vout
  }

  predicate DistinctOutputs(b: Block) {
    forall i, j :: 0 <= i < j < |b.outputs| ==> !SameOutpoint(b.outputs[i], b.outputs[j])
  }

  /** Pass A records an output at its own turn or not at all. */
  lemma {:induction false} ClaimRecords(start: seq<Order>, b: Block, k: nat, j: nat)
    requires DistinctOutputs(b) && k <= |b.outputs| && j < |b.outputs| && Recorded(ClaimTo(start, b, k), b.outputs[j])
    ensures Recorded(start, b.outputs[j]) || (j < k && ClaimTo(start, b, j + 1) != ClaimTo(start, b, j))
  {
    if k > 0 {
      var m, before, after := b.outputs[j], ClaimTo(start, b, k - 1), ClaimTo(start, b, k);
      var n :| 0 <= n < |after| && after[n].sighting.Some? && after[n].sighting.value.txid == m.txid && after[n].sighting.value.vout == m.vout;
      if after[n] == before[n] {
        ClaimRecords(start, b, k - 1, j);
      } else {
        assert SameOutpoint(b.outputs[k - 1], m);
        assert j == k - 1;
      }
    }
  }

  lemma {:induction false} IngestRecords(tracked: seq<Tracked>, start: seq<Order>, b: Block, k: nat, j: nat)
    requires DistinctOutputs(b) && k <= |b.outputs| && j < |b.outputs| && !IsTracked(tracked, b.outputs[j])
    requires Recorded(IngestTo(tracked, start, b, k), b.outputs[j])
    ensures Recorded(start, b.outputs[j])
  {
    if k > 0 {
      var m, before, after := b.outputs[j], IngestTo(tracked, start, b, k - 1), IngestTo(tracked, start, b, k);
      var n :| 0 <= n < |after| && after[n].sighting.Some? && after[n].sighting.value.txid == m.txid && after[n].sighting.value.vout == m.vout;
      if n < |before| {
        IngestRecords(tracked, start, b, k - 1, j);
      } else {
        assert SameOutpoint(b.outputs[k - 1], m);
      }
    }
  }

  /** An order no output was for is as it was. */
  lemma {:induction false} Unclaimed(start: seq<Order>, b: Block, k: nat, c: nat)
    requires k <= |b.outputs| && c < |start|
    requires forall i :: 0 <= i < k ==> Claimant(start, |start|, b.outputs[i]) != Some(c)
    ensures ClaimTo(start, b, k)[c] == start[c]
  {
    if k > 0 { Unclaimed(start, b, k - 1, c); }
  }

  lemma {:induction false} ClaimsOnward(start: seq<Order>, b: Block, i: nat, k: nat)
    requires i <= k <= |b.outputs|
    ensures KeepsAll(ClaimTo(start, b, i), ClaimTo(start, b, k))
  {
    if i < k {
      ClaimsOnward(start, b, i, k - 1);
      var first, before, after := ClaimTo(start, b, i), ClaimTo(start, b, k - 1), ClaimTo(start, b, k);
      ClaimKeeps(start, b, k - 1);
      ClaimOneKeeps(start, before, b.outputs[k - 1], b);
      forall n | 0 <= n < |first| ensures Keeps(first[n], after[n]) {
        assert Keeps(first[n], before[n]) && Keeps(before[n], after[n]);
      }
    }
  }

  /** An output whose order still waits is recorded on it, and then that order waits no longer. */
  predicate TakenUp(start: seq<Order>, b: Block, j: nat, c: nat)
    requires j < |b.outputs| && c < |start|
  {
    var before, after := ClaimTo(start, b, j), ClaimTo(start, b, j + 1);
    && !after[c].state.AddressAssigned?
    && if before[c].state.AddressAssigned? then Recorded(after, b.outputs[j]) else after == before
  }

  lemma TakenUpNow(start: seq<Order>, b: Block, j: nat)
    requires j < |b.outputs| && Claimant(start, |start|, b.outputs[j]).Some? && ClaimFits(start, ClaimTo(start, b, j), b.outputs[j])
    ensures TakenUp(start, b, j, Claimant(start, |start|, b.outputs[j]).value)
  {
    var c := Claimant(start, |start|, b.outputs[j]).value;
    var before := ClaimTo(start, b, j);
    if before[c].state.AddressAssigned? {
      assert ClaimTo(start, b, j + 1) == before[c := Seen(before[c], b.outputs[j], b)];
      assert ClaimTo(start, b, j + 1)[c].sighting.Some?;
    }
  }

  /** No order one of the outputs was for still waits. */
  predicate NoneWaits(start: seq<Order>, after: seq<Order>, b: Block)
    requires |start| <= |after|
  {
    forall j :: 0 <= j < |b.outputs| && Claimant(start, |start|, b.outputs[j]).Some? ==>
      !after[Claimant(start, |start|, b.outputs[j]).value].state.AddressAssigned?
  }

  lemma NoneWaiting(start: seq<Order>, b: Block)
    requires ClaimsComplete(start, b)
    ensures NoneWaits(start, ClaimTo(start, b, |b.outputs|), b)
  {
    forall j | 0 <= j < |b.outputs| && Claimant(start, |start|, b.outputs[j]).Some?
      ensures !ClaimTo(start, b, |b.outputs|)[Claimant(start, |start|, b.outputs[j]).value].state.AddressAssigned?
    {
      var c := Claimant(start, |start|, b.outputs[j]).value;
      CompleteAt(start, b, |b.outputs|, j);
      TakenUpNow(start, b, j);
      ClaimsOnward(start, b, j + 1, |b.outputs|);
      assert Keeps(ClaimTo(start, b, j + 1)[c], ClaimTo(start, b, |b.outputs|)[c]);
    }
  }

  /** The first output to a pending address is recorded. */
  lemma FirstIsRecorded(start: seq<Order>, b: Block, j: nat, c: nat)
    requires j < |b.outputs| && c < |start| && IsPending(start[c]) && TakenUp(start, b, j, c)
    requires forall i :: 0 <= i < j ==> Claimant(start, |start|, b.outputs[i]) != Some(c)
    ensures Recorded(ClaimTo(start, b, |b.outputs|), b.outputs[j])
  {
    Unclaimed(start, b, j, c);
    ClaimsOnward(start, b, j + 1, |b.outputs|);
    RecordedStays(ClaimTo(start, b, j + 1), ClaimTo(start, b, |b.outputs|), b.outputs[j]);
  }

  /** A second one finds its order taken, and pass A passes it over in silence. */
  lemma SecondIsPassedOver(start: seq<Order>, b: Block, i: nat, j: nat, c: nat)
    requires DistinctOutputs(b) && i < j < |b.outputs| && c < |start| && TakenUp(start, b, i, c) && TakenUp(start, b, j, c)
    ensures Recorded(ClaimTo(start, b, |b.outputs|), b.outputs[j]) ==> Recorded(start, b.outputs[j])
  {
    ClaimsOnward(start, b, i + 1, j);
    assert Keeps(ClaimTo(start, b, i + 1)[c], ClaimTo(start, b, j)[c]);
    if Recorded(ClaimTo(start, b, |b.outputs|), b.outputs[j]) { ClaimRecords(start, b, |b.outputs|, j); }
  }

  /** Pass A records of one wanted output: the first to its address, and what was recorded before. */
  lemma ClaimedIff(start: seq<Order>, b: Block, j: nat)
    requires DistinctOutputs(b) && ClaimsComplete(start, b) && j < |b.outputs| && Claimant(start, |start|, b.outputs[j]).Some?
    ensures Recorded(ClaimTo(start, b, |b.outputs|), b.outputs[j]) <==> !IsSecond(start, b, j) || Recorded(start, b.outputs[j])
  {
    var c := Claimant(start, |start|, b.outputs[j]).value;
    CompleteAt(start, b, |b.outputs|, j);
    TakenUpNow(start, b, j);
    if Recorded(start, b.outputs[j]) {
      ClaimKeeps(start, b, |b.outputs|);
      RecordedStays(start, ClaimTo(start, b, |b.outputs|), b.outputs[j]);
    } else if IsSecond(start, b, j) {
      var i :| 0 <= i < j && Pays(b.outputs[i], start[c].address);
      SameClaimant(start, |start|, b.outputs[j], b.outputs[i]);
      CompleteAt(start, b, |b.outputs|, i);
      TakenUpNow(start, b, i);
      SecondIsPassedOver(start, b, i, j, c);
    } else {
      FirstIsRecorded(start, b, j, c);
    }
  }

  /** What is recorded of one output: everything tracked, the first to a pending address, and what was recorded before. */
  lemma RecordedIff(tracked: seq<Tracked>, start: seq<Order>, b: Block, j: nat)
    requires DistinctOutputs(b) && ClaimsComplete(start, b) && j < |b.outputs| && Wanted(tracked, start, b.outputs[j])
    ensures Recorded(Sighted(tracked, start, b), b.outputs[j]) <==>
      IsTracked(tracked, b.outputs[j]) || !IsSecond(start, b, j) || Recorded(start, b.outputs[j])
  {
    var n, claimed := |b.outputs|, ClaimTo(start, b, |b.outputs|);
    IngestKeeps(tracked, claimed, b, n);
    assert KeepsAll(claimed, IngestTo(tracked, claimed, b, n)) by {
      forall k | 0 <= k < |claimed| ensures Keeps(claimed[k], IngestTo(tracked, claimed, b, n)[k]) {
        assert IngestTo(tracked, claimed, b, n)[..|claimed|][k] == claimed[k];
      }
    }
    if IsTracked(tracked, b.outputs[j]) {
      IngestedOut(tracked, claimed, b, n, j);
    } else {
      ClaimedIff(start, b, j);
      if Recorded(claimed, b.outputs[j]) {
        RecordedStays(claimed, IngestTo(tracked, claimed, b, n), b.outputs[j]);
      } else if Recorded(Sighted(tracked, start, b), b.outputs[j]) {
        IngestRecords(tracked, claimed, b, n, j);
      }
    }
  }

  /**
   * A complete block has recorded every payment it was asked to exactly when no pending address that is not
   * tracked is paid by a second output of it.
   */
  lemma EveryPaymentIff(tracked: seq<Tracked>, start: seq<Order>, b: Block)
    requires DistinctOutputs(b) && ClaimsComplete(start, b)
    ensures AllRecorded(tracked, start, Sighted(tracked, start, b), b) <==> NoSecondPayment(tracked, start, b)
  {
    forall j | 0 <= j < |b.outputs| && Wanted(tracked, start, b.outputs[j])
      ensures Recorded(Sighted(tracked, start, b), b.outputs[j]) <==>
        IsTracked(tracked, b.outputs[j]) || !IsSecond(start, b, j) || Recorded(start, b.outputs[j])
    {
      RecordedIff(tracked, start, b, j);
    }
  }

  /** Any quote waiting on an address that is not tracked: a transaction paying it twice is half lost, and the block complete. */
  lemma SecondPaymentIsLost(tracked: seq<Tracked>, orders: seq<Order>, i: nat)
    requires i < |orders| && IsPending(orders[i]) && forall k :: 0 <= k < |tracked| ==> tracked[k].address != orders[i].address
    ensures var b := TwoOutputs(FreshTxid(orders), orders[i].address);
      && DistinctOutputs(b) && ClaimsComplete(orders, b)
      && Wanted(tracked, orders, b.outputs[1]) && !Recorded(Sighted(tracked, orders, b), b.outputs[1])
  {
    var b := TwoOutputs(FreshTxid(orders), orders[i].address);
    var l := ClaimedOnce(orders, i);
    var c := Claimant(orders, |orders|, b.outputs[1]);
    assert Pays(b.outputs[0], orders[i].address) && Pays(b.outputs[1], orders[i].address) && c.Some?;
    assert IsSecond(orders, b, 1);
    SameClaimant(orders, |orders|, b.outputs[0], b.outputs[1]);
    assert ClaimTo(orders, b, 0) == orders && !Taken(orders, IdFor(orders[c.value], b.outputs[0]));
    assert ClaimFits(orders, ClaimTo(orders, b, 0), b.outputs[0]);
    assert !ClaimTo(orders, b, 1)[c.value].state.AddressAssigned?;
    assert ClaimFits(orders, ClaimTo(orders, b, 1), b.outputs[1]);
    RecordedIff(tracked, orders, b, 1);
  }

  // ── One output on two orders ─────────────────────────────────────────────

  function OneOutput(t: nat, address: string): Block {
    Block(0, 0, [Output(t, 0, Some(address), 1)])
  }

  /**
   * A quote waits on an address that is also tracked, for another recipient. Pass A's write fails, pass A2 records
   * the output on a new order, and when the block is handled again pass A records it on the quote as well.
   */
  lemma RecordedOnTwoOrders(tracked: seq<Tracked>, orders: seq<Order>, i: nat)
    requires PendingDistinct(orders) && i < |orders| && IsPending(orders[i])
    requires exists k :: 0 <= k < |tracked| && tracked[k].address == orders[i].address
    requires forall k :: 0 <= k < |tracked| && tracked[k].address == orders[i].address ==> tracked[k].recipient != orders[i].recipient
    ensures var b := OneOutput(FreshTxid(orders), orders[i].address);
      var failed := IngestTo(tracked, orders, b, 1);
      var again := Sighted(tracked, failed, b);
      && |again| > |orders| && again[i].sighting.Some? && again[|orders|].sighting.Some?
      && SamePayment(again[i].sighting.value, again[|orders|].sighting.value)
  {
    var b := OneOutput(FreshTxid(orders), orders[i].address);
    var m := b.outputs[0];
    TrackedIsFound(tracked, |tracked|, m, orders[i].address);
    assert IngestTo(tracked, orders, b, 0) == orders;
    var failed := IngestTo(tracked, orders, b, 1);
    assert Pays(m, orders[i].address);
    var c := Claimant(failed, |failed|, m);
    assert failed[i] == orders[i] && c.Some?;
    assert failed[c.value] == orders[c.value] && orders[c.value].address == orders[i].address;
    assert c.value == i;
    assert !Taken(failed, IdFor(failed[i], m));
    assert ClaimTo(failed, b, 0) == failed;
    var claimed := ClaimTo(failed, b, 1);
    assert claimed[i] == Seen(orders[i], m, b) && claimed[|orders|] == failed[|orders|];
    IngestKeeps(tracked, claimed, b, 1);
    assert Sighted(tracked, failed, b)[..|claimed|] == claimed;
    assert Sighted(tracked, failed, b)[i] == claimed[i] && Sighted(tracked, failed, b)[|orders|] == claimed[|orders|];
  }

  lemma {:induction false} TrackedIsFound(tracked: seq<Tracked>, n: nat, m: Output, address: string)
    requires n <= |tracked| && Pays(m, address) && exists k :: 0 <= k < n && tracked[k].address == address
    ensures TrackedAt(tracked, n, m).Some?
  {
    if !Pays(m, tracked[n - 1].address) { TrackedIsFound(tracked, n - 1, m, address); }
  }

  // ── The handlers ─────────────────────────────────────────────────────────

  /** A state reached in this block was earned by the counts of this block. */
  predicate Earned(was: InboundState, o': Order, height: nat, answer: Answer, config: Config) {
    && (o'.state.Finalized? && !was.Finalized? ==>
          answer.Known? && o'.sighting.Some? && BothReach(o', height, answer.confirmations, config.finalConfirmations))
    && (o'.state.Confirmed? && !was.Confirmed? ==>
          answer.Known? && o'.sighting.Some? && BothReach(o', height, answer.confirmations, config.minConfirmations))
  }

  predicate AllEarned(start: seq<Order>, orders: seq<Order>, height: nat, node: nat -> Answer, config: Config) {
    forall k :: 0 <= k < |orders| ==>
      Earned(if k < |start| then start[k].state else SeenMempool, orders[k], height, AnswerFor(orders[k], node), config)
  }

  // ── One order for a deposit id ───────────────────────────────────────────

  predicate SameId(o: Order, o': Order) {
    && o.sighting.Some? && o'.sighting.Some? && o.chain == o'.chain && o.address == o'.address && o.recipient == o'.recipient
    && o.sighting.value.txid == o'.sighting.value.txid && o.sighting.value.vout == o'.sighting.value.vout
    && o.sighting.value.amountSat == o'.sighting.value.amountSat
  }

  /** No two orders have the same deposit id. */
  predicate DistinctIds(orders: seq<Order>) {
    forall i, j :: 0 <= i < j < |orders| ==> !SameId(orders[i], orders[j])
  }

  lemma ClaimIsDistinct(orders: seq<Order>, i: nat, m: Output, b: Block)
    requires DistinctIds(orders) && i < |orders| && !Taken(orders, IdFor(orders[i], m))
    ensures DistinctIds(orders[i := Seen(orders[i], m, b)])
  {
    forall k | 0 <= k < |orders| && k != i ensures !SameId(orders[k], Seen(orders[i], m, b)) && !SameId(Seen(orders[i], m, b), orders[k]) {
      assert !HasDepositId(orders[k], IdFor(orders[i], m));
    }
  }

  lemma IngestIsDistinct(orders: seq<Order>, o: Order, m: Output)
    requires DistinctIds(orders) && !Recorded(orders, m)
    requires o.sighting.Some? && o.sighting.value.txid == m.txid && o.sighting.value.vout == m.vout
    ensures DistinctIds(orders + [o])
  {
  }

  lemma KeptAreDistinct(orders: seq<Order>, orders': seq<Order>)
    requires DistinctIds(orders) && KeepsAll(orders, orders') && |orders'| == |orders|
    requires forall k :: 0 <= k < |orders| && orders[k].sighting.None? ==> orders'[k] == orders[k]
    ensures DistinctIds(orders')
  {
    forall i, j | 0 <= i < j < |orders| ensures !SameId(orders'[i], orders'[j]) {
      assert Keeps(orders[i], orders'[i]) && Keeps(orders[j], orders'[j]) && !SameId(orders[i], orders[j]);
    }
  }

  // ── What the passes do to the orders ─────────────────────────────────────

  /** Passes A and A2: old orders are as they were or were pending and just seen; new ones were just seen. */
  predicate SightedFrom(start: seq<Order>, orders: seq<Order>, b: Block) {
    && KeepsAll(start, orders)
    && (forall k :: 0 <= k < |start| ==> orders[k] == start[k] || (IsPending(start[k]) && JustSeen(orders[k], b)))
    && (forall k :: |start| <= k < |orders| ==> JustSeen(orders[k], b))
  }

  /** Pass B: whatever failed, no order lost its sighting or moved on without its counts. */
  predicate AdvancedFrom(start: seq<Order>, orders: seq<Order>, height: nat, node: nat -> Answer, config: Config) {
    && |orders| == |start|
    && (forall k :: 0 <= k < |orders| ==> Keeps(start[k], orders[k]) && (start[k].sighting.None? ==> orders[k] == start[k]))
    && (forall k :: 0 <= k < |orders| ==> Followed(start[k], orders[k], AnswerFor(start[k], node)))
    && (forall k :: 0 <= k < |orders| ==> Earned(start[k].state, orders[k], height, AnswerFor(start[k], node), config))
  }

  lemma PassesMean(start: seq<Order>, sighted: seq<Order>, orders: seq<Order>, b: Block, node: nat -> Answer, config: Config, faulted: bool)
    requires SightedFrom(start, sighted, b) && AdvancedFrom(sighted, orders, b.height, node, config)
    requires !faulted ==> orders == AdvanceAll(sighted, b.height, node, config)
    ensures KeepsAll(start, orders) && SeenHere(start, orders, b, node, faulted) && AllEarned(start, orders, b.height, node, config)
    ensures forall k :: |start| <= k < |orders| ==> orders[k].sighting.Some?
  {
    forall k | 0 <= k < |start| ensures Keeps(start[k], orders[k]) {
      assert Keeps(start[k], sighted[k]) && Keeps(sighted[k], orders[k]);
    }
  }

  // ── Confirmation safety over runs ────────────────────────────────────────

  /** A block that was handled, and what the node answered meanwhile. */
  datatype Entry = Entry(block: Block, node: nat -> Answer)

  /** The order was first seen in the r-th block handled. */
  predicate SeenIn(history: seq<Entry>, o: Order, r: nat) {
    r < |history| && PaidIn(o, history[r].block)
  }

  /** By the e-th block both counts had reached the threshold: the heights from the r-th block on, and the node's. */
  predicate Reached(history: seq<Entry>, o: Order, r: nat, e: nat, threshold: nat) {
    && SeenIn(history, o, r) && r <= e < |history|
    && history[e].block.height - history[r].block.height + 1 >= threshold
    && var answer := AnswerFor(o, history[e].node); answer.Known? && answer.confirmations >= threshold
  }

  /** Where the order stands is what the blocks handled so far account for. */
  ghost predicate Explained(history: seq<Entry>, o: Order, config: Config) {
    && (o.sighting.Some? ==> exists r: nat :: SeenIn(history, o, r))
    && (o.state.Confirmed? ==> exists r: nat, e: nat :: Reached(history, o, r, e, config.minConfirmations))
    && (o.state.Finalized? ==> exists r: nat, e: nat :: Reached(history, o, r, e, config.finalConfirmations))
  }

  ghost predicate AllExplained(history: seq<Entry>, orders: seq<Order>, config: Config) {
    forall k :: 0 <= k < |orders| ==> Explained(history, orders[k], config)
  }

  lemma ReachedStill(history: seq<Entry>, entry: Entry, o: Order, o': Order, r: nat, e: nat, threshold: nat)
    requires Reached(history, o, r, e, threshold) && Keeps(o, o')
    ensures Reached(history + [entry], o', r, e, threshold)
  {
    var b := history[r].block;
    var j :| 0 <= j < |b.outputs| && PaidBy(o, b.outputs[j]);
    assert PaidBy(o', b.outputs[j]);
  }

  lemma SeenStill(history: seq<Entry>, entry: Entry, o: Order, o': Order, r: nat)
    requires SeenIn(history, o, r) && Keeps(o, o')
    ensures SeenIn(history + [entry], o', r)
  {
    var b := history[r].block;
    var j :| 0 <= j < |b.outputs| && PaidBy(o, b.outputs[j]);
    assert PaidBy(o', b.outputs[j]);
  }

  /** An order that had been seen before, and its step in this block. */
  lemma StepIsExplained(history: seq<Entry>, entry: Entry, o: Order, o': Order, config: Config)
    requires Explained(history, o, config) && o.sighting.Some? && Keeps(o, o')
    requires Earned(o.state, o', entry.block.height, AnswerFor(o', entry.node), config)
    ensures Explained(history + [entry], o', config)
  {
    var r: nat :| SeenIn(history, o, r);
    SeenStill(history, entry, o, o', r);
    var e := |history|;
    if o'.state.Confirmed? {
      if o.state.Confirmed? {
        var p: nat, q: nat :| Reached(history, o, p, q, config.minConfirmations);
        ReachedStill(history, entry, o, o', p, q, config.minConfirmations);
      } else {
        assert Reached(history + [entry], o', r, e, config.minConfirmations);
      }
    }
    if o'.state.Finalized? {
      if o.state.Finalized? {
        var p: nat, q: nat :| Reached(history, o, p, q, config.finalConfirmations);
        ReachedStill(history, entry, o, o', p, q, config.finalConfirmations);
      } else {
        assert Reached(history + [entry], o', r, e, config.finalConfirmations);
      }
    }
  }

  /** An order first seen in this block: however many confirmations the node counts, the heights make it one. */
  lemma SightingIsExplained(history: seq<Entry>, entry: Entry, was: InboundState, o': Order, config: Config)
    requires PaidIn(o', entry.block) && !was.Confirmed? && !was.Finalized?
    requires Earned(was, o', entry.block.height, AnswerFor(o', entry.node), config)
    ensures Explained(history + [entry], o', config)
  {
    var e := |history|;
    assert SeenIn(history + [entry], o', e);
    if o'.state.Confirmed? { assert Reached(history + [entry], o', e, e, config.minConfirmations); }
    if o'.state.Finalized? { assert Reached(history + [entry], o', e, e, config.finalConfirmations); }
  }

  /** Handling one more block keeps every order explained, faults or not. */
  lemma BlockIsExplained(history: seq<Entry>, entry: Entry, start: seq<Order>, orders: seq<Order>, config: Config, faulted: bool)
    requires AllExplained(history, start, config) && KeepsAll(start, orders)
    requires forall k :: |start| <= k < |orders| ==> orders[k].sighting.Some?
    requires SeenHere(start, orders, entry.block, entry.node, faulted)
    requires AllEarned(start, orders, entry.block.height, entry.node, config)
    ensures AllExplained(history + [entry], orders, config)
  {
    forall k | 0 <= k < |orders| ensures Explained(history + [entry], orders[k], config) {
      if k < |start| {
        assert Explained(history, start[k], config) && Keeps(start[k], orders[k]);
        if start[k].sighting.Some? {
          StepIsExplained(history, entry, start[k], orders[k], config);
        } else if orders[k].sighting.Some? {
          SightingIsExplained(history, entry, start[k].state, orders[k], config);
        } else {
          assert Earned(start[k].state, orders[k], entry.block.height, AnswerFor(orders[k], entry.node), config);
        }
      } else {
        SightingIsExplained(history, entry, SeenMempool, orders[k], config);
      }
    }
  }

  class DepositHandler {
    const config: Config
    var orders: seq<Order>
    var tracked: seq<Tracked>

    constructor (config: Config, orders: seq<Order>, tracked: seq<Tracked>)
      ensures this.config == config && this.orders == orders && this.tracked == tracked
    {
      this.config, this.orders, this.tracked := config, orders, tracked;
    }

    /**
     * Pass A. Complete exactly if nothing failed and each output that found its order waiting could be recorded on it;
     * then no order that an output was for is still waiting.
     */
    method FirstSighting(b: Block, healthy: bool) returns (complete: bool, faulted: bool)
      modifies this`orders
      ensures healthy ==> !faulted
      ensures OnlyClaimed(old(orders), orders, b) && (DistinctIds(old(orders)) ==> DistinctIds(orders))
      ensures !faulted ==> orders == ClaimTo(old(orders), b, |b.outputs|)
      ensures complete <==> !faulted && ClaimsComplete(old(orders), b)
      ensures complete ==> NoneWaits(old(orders), orders, b)
    {
      var pending := orders;
      complete, faulted := OfferAll(pending, b, healthy);
      if complete { NoneWaiting(pending, b); }
    }

    /** depositsByAddress: the pending orders by their address. */
    method PendingByAddress() returns (byAddress: map<string, nat>)
      ensures forall m: Output :: Found(byAddress, m) == Claimant(orders, |orders|, m)
    {
      byAddress := map[];
      for k := 0 to |orders|
        invariant forall m: Output :: Found(byAddress, m) == Claimant(orders, k, m)
      {
        if orders[k].state.AddressAssigned? && orders[k].sighting.None? { byAddress := byAddress[orders[k].address := k]; }
      }
    }

    method OfferAll(pending: seq<Order>, b: Block, healthy: bool) returns (complete: bool, faulted: bool)
      requires pending == orders
      modifies this`orders
      ensures healthy ==> !faulted
      ensures OnlyClaimed(pending, orders, b) && (DistinctIds(pending) ==> DistinctIds(orders))
      ensures !faulted ==> orders == ClaimTo(pending, b, |b.outputs|)
      ensures complete <==> !faulted && ClaimsComplete(pending, b)
    {
      var byAddress := PendingByAddress();
      complete, faulted := true, false;
      for j := 0 to |b.outputs|
        invariant healthy ==> !faulted
        invariant OnlyClaimed(pending, orders, b) && (DistinctIds(pending) ==> DistinctIds(orders))
        invariant !faulted ==> orders == ClaimTo(pending, b, j)
        invariant complete <==> !faulted && ClaimsCompleteTo(pending, b, j)
      {
        var missed, bad := SightOne(pending, byAddress, b, j, healthy);
        complete, faulted := complete && !missed, faulted || bad;
      }
    }

    /** One output offered to the order its address belongs to, if that still waits. */
    method SightOne(ghost pending: seq<Order>, byAddress: map<string, nat>, b: Block, j: nat, healthy: bool) returns (missed: bool, faulted: bool)
      requires j < |b.outputs| && OnlyClaimed(pending, orders, b) && Found(byAddress, b.outputs[j]) == Claimant(pending, |pending|, b.outputs[j])
      modifies this`orders
      ensures healthy ==> !faulted
      ensures OnlyClaimed(pending, orders, b) && (DistinctIds(old(orders)) ==> DistinctIds(orders))
      ensures orders == if faulted then old(orders) else ClaimOne(pending, old(orders), b.outputs[j], b)
      ensures missed <==> faulted || !ClaimFits(pending, old(orders), b.outputs[j])
    {
      var m := b.outputs[j];
      missed, faulted := false, false;
      if m.amountSat == 0 || m.address.None? || m.address.value !in byAddress { return; }
      var i := byAddress[m.address.value];
      if orders[i].state.AddressAssigned? {
        var failed: bool := *;
        if failed && !healthy { return true, true; }
        if Taken(orders, IdFor(orders[i], m)) { return true, false; }
        assert CanTransition(AddressAssigned, SeenMempool);
        if DistinctIds(orders) { ClaimIsDistinct(orders, i, m, b); }
        orders := orders[i := orders[i].(state := SeenMempool, sighting := Some(Sighting(m.txid, m.vout, m.amountSat, b.hash, b.height, 1)))];
        assert PaidBy(orders[i], b.outputs[j]);
      }
    }

    /** addrMap: the tracked addresses. */
    method TrackedByAddress() returns (byAddress: map<string, nat>)
      ensures forall m: Output :: Found(byAddress, m) == TrackedAt(tracked, |tracked|, m)
    {
      byAddress := map[];
      for k := 0 to |tracked|
        invariant forall m: Output :: Found(byAddress, m) == TrackedAt(tracked, k, m)
      {
        byAddress := byAddress[tracked[k].address := k];
      }
    }

    /** A new order for a tracked address. */
    method RecordNew(a: Tracked, b: Block, j: nat)
      requires j < |b.outputs| && Pays(b.outputs[j], a.address) && !Recorded(orders, b.outputs[j])
      modifies this`orders
      ensures orders == old(orders) + [Seen(Order(SeenMempool, a.address, a.chain, a.recipient, None), b.outputs[j], b)]
      ensures JustSeen(orders[|old(orders)|], b) && Recorded(orders, b.outputs[j])
      ensures forall m :: Recorded(old(orders), m) ==> Recorded(orders, m)
      ensures DistinctIds(old(orders)) ==> DistinctIds(orders)
    {
      var m := b.outputs[j];
      ghost var before := orders;
      var o := Order(SeenMempool, a.address, a.chain, a.recipient, Some(Sighting(m.txid, m.vout, m.amountSat, b.hash, b.height, 1)));
      if DistinctIds(orders) { IngestIsDistinct(orders, o, m); }
      orders := orders + [o];
      assert orders[|before|].sighting.Some? && PaidBy(orders[|before|], b.outputs[j]);
      forall x | Recorded(before, x) ensures Recorded(orders, x) { RecordedStays(before, orders, x); }
    }

    /** Pass A2. Complete exactly if nothing failed, and then every output to a tracked address is recorded. */
    method AutoIngest(b: Block, healthy: bool) returns (complete: bool, faulted: bool)
      modifies this`orders
      ensures healthy ==> !faulted
      ensures |old(orders)| <= |orders| && orders[..|old(orders)|] == old(orders)
      ensures forall k :: |old(orders)| <= k < |orders| ==> JustSeen(orders[k], b)
      ensures DistinctIds(old(orders)) ==> DistinctIds(orders)
      ensures complete <==> !faulted
      ensures !faulted ==> orders == IngestTo(tracked, old(orders), b, |b.outputs|)
      ensures complete ==> TrackedRecorded(tracked, orders, b)
    {
      var byAddress := TrackedByAddress();
      complete, faulted := true, false;
      for j := 0 to |b.outputs|
        invariant healthy ==> !faulted
        invariant |old(orders)| <= |orders| && orders[..|old(orders)|] == old(orders)
        invariant forall k :: |old(orders)| <= k < |orders| ==> JustSeen(orders[k], b)
        invariant DistinctIds(old(orders)) ==> DistinctIds(orders)
        invariant complete <==> !faulted
        invariant !faulted ==> orders == IngestTo(tracked, old(orders), b, j)
        invariant complete ==> forall i :: 0 <= i < j && TrackedAt(tracked, |tracked|, b.outputs[i]).Some? ==> Recorded(orders, b.outputs[i])
      {
        var m := b.outputs[j];
        assert Found(byAddress, m) == TrackedAt(tracked, |tracked|, m);
        if m.amountSat > 0 && m.address.Some? && m.address.value in byAddress && !Recorded(orders, m) {
          var failed: bool := *;
          if failed && !healthy {
            complete, faulted := false, true;
          } else {
            RecordNew(tracked[byAddress[m.address.value]], b, j);
          }
        }
      }
    }

    /** Pass B on one order: every step taken is an edge of the state machine. */
    method AdvanceOne(k: nat, height: nat, answer: Answer, healthy: bool) returns (faulted: bool)
      requires k < |orders|
      modifies this`orders
      ensures healthy ==> !faulted
      ensures |orders| == |old(orders)| && forall i :: 0 <= i < |orders| && i != k ==> orders[i] == old(orders)[i]
      ensures !faulted ==> orders[k] == Advanced(old(orders)[k], height, answer, config)
      ensures faulted ==> orders[k] == old(orders)[k].(sighting := orders[k].sighting) && Keeps(old(orders)[k], orders[k])
      ensures old(orders)[k].sighting.None? ==> orders[k] == old(orders)[k]
      ensures Followed(old(orders)[k], orders[k], answer)
    {
      var o := orders[k];
      if !(o.state.SeenMempool? || o.state.Confirmed?) || o.sighting.None? { return false; }
      var d := o.sighting.value;
      if height - d.blockHeight + 1 < 1 || answer.NodeError? { return false; }
      var failed: bool := *;
      if answer.Unknown? || answer.confirmations == 0 {
        if failed && !healthy { return true; }
        var back := ComputeReorgRollback(o.state, 0, config);
        assert back.Some? ==> CanTransition(o.state, back.value);
        orders := orders[k := o.(sighting := Some(d.(confirmations := 0)), state := if back.Some? then back.value else o.state)];
        return false;
      }
      if answer.blockHash.Some? && answer.blockHash.value != d.blockHash {
        if failed && !healthy { return true; }
        d := d.(blockHash := answer.blockHash.value, confirmations := answer.confirmations);
        orders := orders[k := o.(sighting := Some(d))];
      }
      var byHeight := height - d.blockHeight + 1;
      var confs := if byHeight < answer.confirmations then byHeight else answer.confirmations;
      failed := *;
      if failed && !healthy { return true; }
      d := d.(confirmations := if d.confirmations < confs then confs else d.confirmations);
      var state := o.state;
      var target := ComputeConfirmationTransition(state, confs, config);
      if target.Some? { state := Walk(state, confs, target.value); }
      orders := orders[k := o.(sighting := Some(d), state := state)];
      faulted := false;
    }

    /** The inner loop over the path; no assertion of the state machine can fail. */
    method Walk(from: InboundState, confs: int, target: InboundState) returns (state: InboundState)
      requires (from.SeenMempool? || from.Confirmed?) && confs >= 1 && ComputeConfirmationTransition(from, confs, config) == Some(target)
      ensures state == target
    {
      MovesAreEarned(from, confs, config);
      var route := Route(from, target);
      state := from;
      for n := 0 to |route|
        invariant ValidRoute(state, route[n..]) && (n > 0 ==> state == route[n - 1])
      {
        assert route[n..][0] == route[n] && route[n..][1..] == route[n + 1..];
        assert CanTransition(state, route[n]);
        state := route[n];
      }
    }

    method AdvanceConfirmations(height: nat, node: nat -> Answer, healthy: bool) returns (faulted: bool)
      modifies this`orders
      ensures healthy ==> !faulted
      ensures !faulted ==> orders == AdvanceAll(old(orders), height, node, config)
      ensures AdvancedFrom(old(orders), orders, height, node, config)
      ensures DistinctIds(old(orders)) ==> DistinctIds(orders)
    {
      faulted := false;
      for k := 0 to |orders|
        invariant healthy ==> !faulted
        invariant |orders| == |old(orders)|
        invariant forall i :: k <= i < |orders| ==> orders[i] == old(orders)[i]
        invariant !faulted ==> forall i :: 0 <= i < k ==> orders[i] == Advanced(old(orders)[i], height, AnswerFor(old(orders)[i], node), config)
        invariant forall i :: 0 <= i < k ==> Keeps(old(orders)[i], orders[i])
        invariant forall i :: 0 <= i < k && old(orders)[i].sighting.None? ==> orders[i] == old(orders)[i]
        invariant forall i :: 0 <= i < k ==> Followed(old(orders)[i], orders[i], AnswerFor(old(orders)[i], node))
        invariant forall i :: 0 <= i < k ==> Earned(old(orders)[i].state, orders[i], height, AnswerFor(old(orders)[i], node), config)
      {
        var bad := AdvanceOne(k, height, AnswerFor(orders[k], node), healthy);
        AdvancedIsEarned(old(orders)[k], height, AnswerFor(old(orders)[k], node), config);
        if bad { faulted := true; }
      }
      if DistinctIds(old(orders)) { KeptAreDistinct(old(orders), orders); }
    }

    /** Passes A and A2. */
    method Sight(b: Block, healthy: bool) returns (complete: bool, faulted: bool)
      modifies this`orders
      ensures healthy ==> !faulted
      ensures SightedFrom(old(orders), orders, b)
      ensures DistinctIds(old(orders)) ==> DistinctIds(orders)
      ensures !faulted ==> orders == Sighted(tracked, old(orders), b) && (complete <==> ClaimsComplete(old(orders), b))
      ensures complete ==> TrackedRecorded(tracked, orders, b) && NoneWaits(old(orders), orders, b)
      ensures complete && DistinctOutputs(b) ==>
        (AllRecorded(tracked, old(orders), orders, b) <==> NoSecondPayment(tracked, old(orders), b))
    {
      var complete1, faulted1 := FirstSighting(b, healthy);
      ghost var claimed := orders;
      var complete2, faulted2 := AutoIngest(b, healthy);
      complete, faulted := complete1 && complete2, faulted1 || faulted2;
      if complete && DistinctOutputs(b) { EveryPaymentIff(tracked, old(orders), b); }
      forall k | 0 <= k < |old(orders)| ensures orders[k] == claimed[k] && Keeps(old(orders)[k], orders[k]) {
        assert orders[..|claimed|][k] == claimed[k];
      }
    }

    /**
     * One block; healthy: no write fails. Without faults it is the function above; whatever fails, no order becomes CONFIRMED or
     * FINALIZED before the node's count and the heights both reach the threshold. A complete answer means that every
     * payment to a tracked address is recorded and no order one could be recorded on waits; that every wanted payment is
     * recorded it means exactly when no pending address that is not tracked is paid by a second output of the block.
     */
    method HandleBlock(b: Block, node: nat -> Answer, healthy: bool) returns (complete: bool, faulted: bool)
      modifies this`orders
      ensures healthy ==> !faulted
      ensures KeepsAll(old(orders), orders)
      ensures !faulted ==> orders == Handled(tracked, old(orders), b, node, config) && (complete <==> ClaimsComplete(old(orders), b))
      ensures complete && DistinctOutputs(b) ==>
        (AllRecorded(tracked, old(orders), orders, b) <==> NoSecondPayment(tracked, old(orders), b))
      ensures complete ==> TrackedRecorded(tracked, orders, b)
      ensures complete ==> NoneWaits(old(orders), orders, b)
      ensures SeenHere(old(orders), orders, b, node, faulted)
      ensures DistinctIds(old(orders)) ==> DistinctIds(orders)
      ensures forall k :: |old(orders)| <= k < |orders| ==> orders[k].sighting.Some?
      ensures AllEarned(old(orders), orders, b.height, node, config)
    {
      var faultedA, faultedB;
      complete, faultedA := Sight(b, healthy);
      ghost var sighted := orders;
      faultedB := AdvanceConfirmations(b.height, node, healthy);
      faulted := faultedA || faultedB;
      RecordedSame(sighted, orders, b);
      PassesMean(old(orders), sighted, orders, b, node, config, faulted);
    }

    /** A CONFIRMED deposit of the orphaned block goes back to SEEN; nothing else changes. */
    method HandleOrphan(hash: nat, healthy: bool) returns (faulted: bool)
      modifies this`orders
      ensures healthy ==> !faulted
      ensures |orders| == |old(orders)|
      ensures forall k :: 0 <= k < |orders| ==>
        && (orders[k] == old(orders)[k] || orders[k] == old(orders)[k].(state := SeenMempool))
        && (orders[k] != old(orders)[k] ==> IsOrphaned(old(orders)[k], hash))
        && (!faulted && IsOrphaned(old(orders)[k], hash) && config.minConfirmations > 0 ==> orders[k].state.SeenMempool?)
    {
      faulted := false;
      for k := 0 to |orders|
        invariant healthy ==> !faulted
        invariant |orders| == |old(orders)|
        invariant forall i :: k <= i < |orders| ==> orders[i] == old(orders)[i]
        invariant forall i :: 0 <= i < k ==>
          && (orders[i] == old(orders)[i] || orders[i] == old(orders)[i].(state := SeenMempool))
          && (orders[i] != old(orders)[i] ==> IsOrphaned(old(orders)[i], hash))
          && (!faulted && IsOrphaned(old(orders)[i], hash) && config.minConfirmations > 0 ==> orders[i].state.SeenMempool?)
      {
        if orders[k].state.Confirmed? && orders[k].sighting.Some? && orders[k].sighting.value.blockHash == hash {
          var rollback := ComputeReorgRollback(orders[k].state, 0, config);
          if rollback.Some? {
            var failed: bool := *;
            if failed && !healthy {
              faulted := true;
            } else {
              assert CanTransition(orders[k].state, rollback.value);
              orders := orders[k := orders[k].(state := rollback.value)];
            }
          }
        }
      }
    }
  }

  // ── A whole run ──────────────────────────────────────────────────────────

  /** A block handled, a block orphaned, or what the rest of the bridge does: orders move on, quotes and addresses come. */
  datatype Event =
    | Handle(block: Block, node: nat -> Answer, healthy: bool)
    | Orphan(hash: nat, healthy: bool)
    | Elsewhere(gone: set<nat>, quotes: seq<Tracked>, tracked: seq<Tracked>)

  /** The blocks handled in the first n events. */
  function EntriesTo(events: seq<Event>, n: nat): seq<Entry>
    requires n <= |events|
  {
    if n == 0 then []
    else if events[n - 1].Handle? then EntriesTo(events, n - 1) + [Entry(events[n - 1].block, events[n - 1].node)]
    else EntriesTo(events, n - 1)
  }

  function MovedOn(orders: seq<Order>, gone: set<nat>): (r: seq<Order>)
    ensures |r| == |orders| && forall k :: 0 <= k < |r| ==> r[k] == if k in gone then orders[k].(state := Later) else orders[k]
  {
    seq(|orders|, k requires 0 <= k < |orders| => if k in gone then orders[k].(state := Later) else orders[k])
  }

  function Waiting(quotes: seq<Tracked>): (r: seq<Order>)
    ensures |r| == |quotes| && forall k :: 0 <= k < |r| ==> IsPending(r[k]) && r[k].address == quotes[k].address
  {
    seq(|quotes|, k requires 0 <= k < |quotes| => Order(AddressAssigned, quotes[k].address, quotes[k].chain, quotes[k].recipient, None))
  }

  /** Going back to SEEN, or leaving the watcher's states, needs no explanation. */
  lemma WithdrawnIsExplained(history: seq<Entry>, o: Order, state: InboundState, config: Config)
    requires Explained(history, o, config) && !state.Confirmed? && !state.Finalized?
    ensures Explained(history, o.(state := state), config)
  {
    if o.sighting.Some? {
      var r: nat :| SeenIn(history, o, r);
      var b := history[r].block;
      var j :| 0 <= j < |b.outputs| && PaidBy(o, b.outputs[j]);
      assert PaidBy(o.(state := state), b.outputs[j]);
      assert SeenIn(history, o.(state := state), r);
    }
  }

  /**
   * Any run from an empty table, with any blocks, forks, faults and answers: an order stands CONFIRMED or FINALIZED only
   * if some block handled at that height or above reached its threshold, counted from the block that recorded its
   * output, while the node counted as many.
   */
  method Live(config: Config, events: seq<Event>) returns (handler: DepositHandler)
    ensures fresh(handler) && handler.config == config
    ensures AllExplained(EntriesTo(events, |events|), handler.orders, config) && DistinctIds(handler.orders)
  {
    handler := new DepositHandler(config, [], []);
    for n := 0 to |events|
      invariant fresh(handler) && handler.config == config
      invariant AllExplained(EntriesTo(events, n), handler.orders, config) && DistinctIds(handler.orders)
    {
      ghost var before := handler.orders;
      ghost var history := EntriesTo(events, n);
      match events[n]
      case Handle(block, node, healthy) =>
        var complete, faulted := handler.HandleBlock(block, node, healthy);
        BlockIsExplained(history, Entry(block, node), before, handler.orders, config, faulted);
      case Orphan(hash, healthy) =>
        var faulted := handler.HandleOrphan(hash, healthy);
        forall k | 0 <= k < |before| ensures Explained(history, handler.orders[k], config) {
          WithdrawnIsExplained(history, before[k], SeenMempool, config);
        }
      case Elsewhere(gone, quotes, tracked) =>
        handler.orders, handler.tracked := MovedOn(handler.orders, gone) + Waiting(quotes), tracked;
        forall k | 0 <= k < |before| ensures Explained(history, handler.orders[k], config) {
          WithdrawnIsExplained(history, before[k], Later, config);
        }
    }
  }
}
