/**
 * Queueing burns that are deep enough (backend/src/gnosis/event-watcher.ts): two transactions for each, and
 * nothing comes back for an order left between them.
 */
module BurnConfirmer {
  import opened Coins
  import opened Database
  import opened Ledger

  datatype Written = Both | FirstOnly | Neither

  class BurnConfirmer {
    const db: Database
    const confirmationDepth: nat

    constructor (db: Database, confirmationDepth: nat)
      ensures this.db == db && this.confirmationDepth == confirmationDepth
    {
      this.db, this.confirmationDepth := db, confirmationDepth;
    }

    predicate IsDeep(burnBlock: Option<nat>, tip: nat) {
      burnBlock.Some? && tip - burnBlock.value >= confirmationDepth
    }

    /** What one pass makes of a row: a burn seen and deep moves as far as its transactions were written. */
    function Queued(w: Withdrawal, burnBlock: Option<nat>, tip: nat, written: Written): Withdrawal {
      if w.state.Burned? && IsDeep(burnBlock, tip) then Moved(w, written) else w
    }

    static function Moved(w: Withdrawal, written: Written): Withdrawal {
      match written
      case Both => w.(state := OutboundState.Queued)
      case FirstOnly => w.(state := BurnConfirmed)
      case Neither => w
    }

    method Transition(i: nat, a: Action)
      requires db.Valid() && i < |db.withdrawals|
      requires (a == ConfirmBurn(i) && db.withdrawals[i].state.Burned?) || (a == QueueBurn(i) && db.withdrawals[i].state.BurnConfirmed?)
      modifies db
      ensures db.Ran() && db.mem == old(db.mem) && db.coins == old(db.coins)
      ensures db.withdrawals == old(db.withdrawals)[i := old(db.withdrawals)[i].(state := if a.ConfirmBurn? then BurnConfirmed else OutboundState.Queued)]
    {
      ghost var before := db.Now();
      db.withdrawals := db.withdrawals[i := db.withdrawals[i].(state := if a.ConfirmBurn? then BurnConfirmed else OutboundState.Queued)];
      db.Log(a, before);
    }

    method QueueOne(i: nat, written: Written)
      requires db.Valid() && i < |db.withdrawals| && db.withdrawals[i].state.Burned?
      modifies db
      ensures db.Ran() && db.mem == old(db.mem) && db.coins == old(db.coins)
      ensures db.withdrawals == old(db.withdrawals)[i := Moved(old(db.withdrawals)[i], written)]
    {
      if !written.Neither? { Transition(i, ConfirmBurn(i)); }
      if written.Both? { Transition(i, QueueBurn(i)); }
    }

    /**
     * Every seen burn at the depth or deeper is queued. When the second transaction of one fails, or the process dies
     * before it, that order is left at BURN_CONFIRMED; a row that is there already is not touched, in this pass or any other.
     */
    method ConfirmPendingBurns(burnBlocks: nat -> Option<nat>, tip: nat, written: nat -> Written)
      requires db.Valid()
      modifies db
      ensures db.Ran() && db.mem == old(db.mem) && db.coins == old(db.coins) && |db.withdrawals| == |old(db.withdrawals)|
      ensures forall i | 0 <= i < |db.withdrawals| ::
        db.withdrawals[i] == Queued(old(db.withdrawals)[i], burnBlocks(i), tip, written(i))
      ensures forall i | 0 <= i < |db.withdrawals| && old(db.withdrawals)[i].state.BurnConfirmed? ::
        db.withdrawals[i] == old(db.withdrawals)[i]
    {
      for i := 0 to |db.withdrawals|
        invariant db.Ran() && db.mem == old(db.mem) && db.coins == old(db.coins) && |db.withdrawals| == |old(db.withdrawals)|
        invariant forall j :: 0 <= j < i ==> db.withdrawals[j] == Queued(old(db.withdrawals)[j], burnBlocks(j), tip, written(j))
        invariant forall j :: i <= j < |db.withdrawals| ==> db.withdrawals[j] == old(db.withdrawals)[j]
      {
        var burnBlock := burnBlocks(i);
        if db.withdrawals[i].state.Burned? && burnBlock.Some? && tip - burnBlock.value >= confirmationDepth { QueueOne(i, written(i)); }
      }
    }
  }
}
