/** What reserving, releasing and spending do to who owns which coins, and to the value in the pool. */
module LedgerCoins {
  import opened Coins
  import opened Ledger
  import opened Sums

  ghost predicate DistinctCoins(coins: seq<Coin>) {
    forall j, k :: 0 <= j < k < |coins| ==> coins[j].outpoint != coins[k].outpoint
  }

  /** A coin is available exactly when nothing owns it. */
  predicate FreeMeansUnowned(coins: seq<Coin>) {
    forall k :: 0 <= k < |coins| ==> (coins[k].status.Available? <==> coins[k].owner.NoOwner?)
  }

  predicate PicksAreFree(coins: seq<Coin>, picks: set<Outpoint>) {
    forall k :: 0 <= k < |coins| && coins[k].outpoint in picks ==> coins[k].status.Available? && coins[k].owner.NoOwner?
  }

  lemma AvailableAreFree(coins: seq<Coin>, picks: set<Outpoint>)
    requires DistinctCoins(coins) && FreeMeansUnowned(coins) && picks <= AvailableOutpoints(coins)
    ensures PicksAreFree(coins, picks)
  {
    forall k | 0 <= k < |coins| && coins[k].outpoint in picks ensures coins[k].status.Available? {
      var j :| 0 <= j < |coins| && coins[j].status.Available? && coins[j].outpoint == coins[k].outpoint;
    }
  }

  predicate NoneSpent(coins: seq<Coin>, who: Owner) {
    forall k :: 0 <= k < |coins| && coins[k].owner == who ==> !coins[k].status.Spent?
  }

  /** Same owners, outpoints and amounts, row by row. */
  predicate SameOwner(coins: seq<Coin>, coins': seq<Coin>, who: Owner) {
    && |coins| == |coins'|
    && forall k :: 0 <= k < |coins| ==>
         coins'[k].outpoint == coins[k].outpoint && coins'[k].amountSat == coins[k].amountSat
         && (coins'[k].owner == who <==> coins[k].owner == who)
  }

  lemma OwnedSame(coins: seq<Coin>, coins': seq<Coin>, who: Owner)
    requires SameOwner(coins, coins', who)
    ensures Owned(coins', who) == Owned(coins, who) && OwnedSat(coins', who) == OwnedSat(coins, who)
  {
    SumSame(OwnedRow(coins, who), OwnedRow(coins', who), |coins|);
    forall o | o in Owned(coins, who) ensures o in Owned(coins', who) {
      var k :| 0 <= k < |coins| && coins[k].owner == who && coins[k].outpoint == o;
      assert coins'[k].owner == who;
    }
    forall o | o in Owned(coins', who) ensures o in Owned(coins, who) {
      var k :| 0 <= k < |coins'| && coins'[k].owner == who && coins'[k].outpoint == o;
      assert coins[k].owner == who;
    }
  }

  lemma OwnedAppend(coins: seq<Coin>, more: seq<Coin>, who: Owner)
    requires |more| <= 1 && forall k :: 0 <= k < |more| ==> more[k].owner != who
    ensures Owned(coins + more, who) == Owned(coins, who) && OwnedSat(coins + more, who) == OwnedSat(coins, who)
  {
    var coins' := coins + more;
    SumSame(OwnedRow(coins, who), OwnedRow(coins', who), |coins|);
    forall o | o in Owned(coins, who) ensures o in Owned(coins', who) {
      var k :| 0 <= k < |coins| && coins[k].owner == who && coins[k].outpoint == o;
      assert coins'[k].owner == who;
    }
  }

  lemma UnspentAppend(coins: seq<Coin>, more: seq<Coin>)
    requires |more| <= 1 && forall k :: 0 <= k < |more| ==> more[k].status.Available?
    ensures UnspentSat(coins + more) == UnspentSat(coins) + if more == [] then 0 else more[0].amountSat
  {
    SumSame(UnspentRow(coins), UnspentRow(coins + more), |coins|);
  }

  lemma ReserveOwned(coins: seq<Coin>, picks: set<Outpoint>, who: Owner)
    requires PicksAreFree(coins, picks) && picks <= AvailableOutpoints(coins) && Owned(coins, who) == {} && who != NoOwner
    ensures Owned(Reserve(coins, picks, who), who) == picks
    ensures OwnedSat(Reserve(coins, picks, who), who) == PickedSat(coins, picks)
  {
    var coins' := Reserve(coins, picks, who);
    forall k | 0 <= k < |coins| ensures coins'[k].owner == who <==> coins[k].outpoint in picks {
      assert coins[k].outpoint !in Owned(coins, who);
    }
    SumSame(OwnedRow(coins', who), PickedRow(coins, picks), |coins|);
    forall o | o in picks ensures o in Owned(coins', who) {
      var k :| 0 <= k < |coins| && coins[k].status.Available? && coins[k].outpoint == o;
      assert coins'[k].owner == who;
    }
  }

  lemma ReserveOthers(coins: seq<Coin>, picks: set<Outpoint>, who: Owner, other: Owner)
    requires PicksAreFree(coins, picks) && other != who && other != NoOwner
    ensures Owned(Reserve(coins, picks, who), other) == Owned(coins, other)
    ensures OwnedSat(Reserve(coins, picks, who), other) == OwnedSat(coins, other)
  {
    OwnedSame(coins, Reserve(coins, picks, who), other);
  }

  lemma ReserveUnspent(coins: seq<Coin>, picks: set<Outpoint>, who: Owner)
    requires PicksAreFree(coins, picks)
    ensures UnspentSat(Reserve(coins, picks, who)) == UnspentSat(coins)
  {
    SumSame(UnspentRow(coins), UnspentRow(Reserve(coins, picks, who)), |coins|);
  }

  lemma ReleaseOwned(coins: seq<Coin>, who: Owner, other: Owner)
    requires who != NoOwner && other != NoOwner && NoneSpent(coins, who)
    ensures Owned(Release(coins, who), other) == if other == who then {} else Owned(coins, other)
    ensures other != who ==> OwnedSat(Release(coins, who), other) == OwnedSat(coins, other)
    ensures UnspentSat(Release(coins, who)) == UnspentSat(coins)
  {
    var coins' := Release(coins, who);
    SumSame(UnspentRow(coins), UnspentRow(coins'), |coins|);
    if other != who { OwnedSame(coins, coins', other); }
  }

  lemma SpendOwned(coins: seq<Coin>, who: Owner, other: Owner)
    ensures Owned(Spend(coins, who), other) == Owned(coins, other)
    ensures OwnedSat(Spend(coins, who), other) == OwnedSat(coins, other)
  {
    OwnedSame(coins, Spend(coins, who), other);
  }

  lemma SpendUnspent(coins: seq<Coin>, who: Owner)
    requires NoneSpent(coins, who)
    ensures UnspentSat(Spend(coins, who)) == UnspentSat(coins) - OwnedSat(coins, who)
  {
    SumAdd(UnspentRow(Spend(coins, who)), OwnedRow(coins, who), UnspentRow(coins), |coins|);
  }

  /** The pool is what is available plus what is reserved. */
  lemma PoolSplits(coins: seq<Coin>)
    ensures UnspentSat(coins) == StatusSat(coins, Available) + StatusSat(coins, Reserved)
  {
    SumAdd(StatusRow(coins, Available), StatusRow(coins, Reserved), UnspentRow(coins), |coins|);
  }

  // ── What one pass of a job takes ─────────────────────────────────────────

  /** One of the first n payouts, or of the first n refunds. */
  predicate IsBelow(who: Owner, n: nat, ofRefunds: bool) {
    if ofRefunds then who.ByRefund? && who.refund < n else who.ByPayout? && who.order < n
  }

  function Nth(n: nat, ofRefunds: bool): Owner {
    if ofRefunds then ByRefund(n) else ByPayout(n)
  }

  /** Some of those took available coins; the others are as they were, and new ones came. */
  ghost predicate TakenBelow(coins: seq<Coin>, coins': seq<Coin>, n: nat, ofRefunds: bool) {
    && |coins| <= |coins'|
    && (forall k :: 0 <= k < |coins| ==> coins'[k] == coins[k] || (IsBelow(coins'[k].owner, n, ofRefunds) && TakenBy(coins[k], coins'[k])))
    && (forall k :: |coins| <= k < |coins'| ==> coins'[k].owner.NoOwner? || IsBelow(coins'[k].owner, n, ofRefunds))
  }

  predicate TakenBy(c: Coin, c': Coin) {
    c.status.Available? && c.owner.NoOwner? && c' == c.(status := Reserved, owner := c'.owner)
  }

  /** Only this one took coins. */
  ghost predicate TakenFor(coins: seq<Coin>, coins': seq<Coin>, who: Owner) {
    && |coins| <= |coins'|
    && (forall k :: 0 <= k < |coins| ==> coins'[k] == coins[k] || (coins'[k].owner == who && TakenBy(coins[k], coins'[k])))
    && (forall k :: |coins| <= k < |coins'| ==> coins'[k].owner.NoOwner?)
  }

  lemma TakenNext(coins: seq<Coin>, mid: seq<Coin>, coins': seq<Coin>, n: nat, ofRefunds: bool)
    requires TakenBelow(coins, mid, n, ofRefunds) && TakenFor(mid, coins', Nth(n, ofRefunds))
    ensures TakenBelow(coins, coins', n + 1, ofRefunds)
  {
  }

  lemma TakenLeaves(coins: seq<Coin>, coins': seq<Coin>, n: nat, ofRefunds: bool, who: Owner)
    requires TakenBelow(coins, coins', n, ofRefunds) && who != NoOwner && !IsBelow(who, n, ofRefunds)
    ensures Owned(coins', who) == Owned(coins, who)
  {
    forall o | o in Owned(coins, who) ensures o in Owned(coins', who) {
      var k :| 0 <= k < |coins| && coins[k].owner == who && coins[k].outpoint == o;
      assert coins'[k].owner == who;
    }
    forall o | o in Owned(coins', who) ensures o in Owned(coins, who) {
      var k :| 0 <= k < |coins'| && coins'[k].owner == who && coins'[k].outpoint == o;
      assert coins[k].owner == who;
    }
  }

  /** Reserving, in a pool that grew meanwhile, what was read as available. */
  lemma ReserveTakes(read: seq<Coin>, now: seq<Coin>, picks: set<Outpoint>, who: Owner)
    requires read <= now && DistinctCoins(now) && picks <= AvailableOutpoints(read) && FreeMeansUnowned(read) && who != NoOwner
    requires forall k :: |read| <= k < |now| ==> now[k].owner.NoOwner?
    ensures TakenFor(read, Reserve(now, picks, who), who)
  {
    forall k | 0 <= k < |now| && now[k].outpoint in picks ensures k < |read| && read[k].status.Available? {
      var j :| 0 <= j < |read| && read[j].status.Available? && read[j].outpoint == now[k].outpoint;
      assert now[j].outpoint == now[k].outpoint;
    }
  }
}
