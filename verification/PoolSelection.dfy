/** From the coin table to coin selection and back: what is selected can be reserved and is worth what was counted. */
module PoolSelection {
  import opened Coins
  import opened Ledger
  import opened LedgerCoins
  import opened Sums
  import Select = CoinSelection

  /** The available coins, as selection sees them. */
  function AvailableUtxos(coins: seq<Coin>): seq<Utxo> {
    if coins == [] then []
    else AvailableUtxos(coins[..|coins| - 1]) +
         if coins[|coins| - 1].status.Available? then [Utxo(coins[|coins| - 1].outpoint, coins[|coins| - 1].amountSat)] else []
  }

  method ReadAvailable(coins: seq<Coin>) returns (utxos: seq<Utxo>)
    ensures utxos == AvailableUtxos(coins)
  {
    utxos := [];
    for k := 0 to |coins|
      invariant utxos == AvailableUtxos(coins[..k])
    {
      assert coins[..k + 1][..k] == coins[..k];
      if coins[k].status.Available? { utxos := utxos + [Utxo(coins[k].outpoint, coins[k].amountSat)]; }
    }
    assert coins[..|coins|] == coins;
  }

  lemma {:induction false} AvailableRow(coins: seq<Coin>, u: Utxo)
    requires u in AvailableUtxos(coins)
    ensures exists k :: 0 <= k < |coins| && coins[k].status.Available? && coins[k].outpoint == u.outpoint && coins[k].amountSat == u.amountSat
  {
    var n := |coins| - 1;
    if u in AvailableUtxos(coins[..n]) {
      AvailableRow(coins[..n], u);
      var k :| 0 <= k < n && coins[..n][k].status.Available? && coins[..n][k].outpoint == u.outpoint && coins[..n][k].amountSat == u.amountSat;
      assert coins[k] == coins[..n][k];
    }
  }

  /** Every available coin is offered. */
  lemma {:induction false} AvailableIsOffered(coins: seq<Coin>, k: nat)
    requires k < |coins| && coins[k].status.Available?
    ensures Utxo(coins[k].outpoint, coins[k].amountSat) in AvailableUtxos(coins)
  {
    var n := |coins| - 1;
    if k < n {
      AvailableIsOffered(coins[..n], k);
      assert coins[..n][k] == coins[k];
    }
  }

  lemma {:induction false} AvailableOnce(coins: seq<Coin>, u: Utxo)
    requires DistinctCoins(coins)
    ensures multiset(AvailableUtxos(coins))[u] <= 1
  {
    if coins != [] {
      var n := |coins| - 1;
      AvailableOnce(coins[..n], u);
      if u in AvailableUtxos(coins[..n]) {
        AvailableRow(coins[..n], u);
        assert coins[n].outpoint != u.outpoint;
      }
    }
  }

  function Outpoints(pick: seq<Utxo>): (os: seq<Outpoint>)
    ensures |os| == |pick| && forall k :: 0 <= k < |pick| ==> os[k] == pick[k].outpoint
  {
    seq(|pick|, k requires 0 <= k < |pick| => pick[k].outpoint)
  }

  predicate NoRepeat(os: seq<Outpoint>) {
    forall j, k :: 0 <= j < k < |os| ==> os[j] != os[k]
  }

  predicate FromPool(coins: seq<Coin>, pick: seq<Utxo>) {
    && NoRepeat(Outpoints(pick))
    && forall j :: 0 <= j < |pick| ==>
         exists k :: 0 <= k < |coins| && coins[k].status.Available? && coins[k].outpoint == pick[j].outpoint && coins[k].amountSat == pick[j].amountSat
  }

  lemma MultisetPeel(pick: seq<Utxo>, a: nat, b: nat)
    requires a < b < |pick| && pick[a] == pick[b]
    ensures multiset(pick)[pick[a]] >= 2
  {
    assert pick == pick[..b] + [pick[b]] + pick[b + 1..];
    assert pick[..b][a] == pick[a];
    assert multiset(pick[..b])[pick[a]] >= 1;
  }

  lemma PickIsFromPool(coins: seq<Coin>, pick: seq<Utxo>)
    requires DistinctCoins(coins) && multiset(pick) <= multiset(AvailableUtxos(coins))
    ensures FromPool(coins, pick)
  {
    forall j | 0 <= j < |pick|
      ensures exists k :: 0 <= k < |coins| && coins[k].status.Available? && coins[k].outpoint == pick[j].outpoint && coins[k].amountSat == pick[j].amountSat
    {
      assert pick[j] in multiset(pick);
      AvailableRow(coins, pick[j]);
    }
    forall a, b | 0 <= a < b < |pick| ensures Outpoints(pick)[a] != Outpoints(pick)[b] {
      var j :| 0 <= j < |coins| && coins[j].status.Available? && coins[j].outpoint == pick[a].outpoint && coins[j].amountSat == pick[a].amountSat;
      var k :| 0 <= k < |coins| && coins[k].status.Available? && coins[k].outpoint == pick[b].outpoint && coins[k].amountSat == pick[b].amountSat;
      AvailableOnce(coins, pick[a]);
      if pick[a] == pick[b] { MultisetPeel(pick, a, b); }
    }
  }

  function FirstOutpoints(pick: seq<Utxo>, n: nat): set<Outpoint>
    requires n <= |pick|
  {
    set j | 0 <= j < n :: pick[j].outpoint
  }

  /** What the picked rows are worth is what selection counted. */
  lemma {:induction false} PickedIsTotal(coins: seq<Coin>, pick: seq<Utxo>, n: nat)
    requires DistinctCoins(coins) && FromPool(coins, pick) && n <= |pick|
    ensures PickedSat(coins, FirstOutpoints(pick, n)) == Select.TotalTo(pick, n)
  {
    if n == 0 {
      SumZero(|coins|);
      SumSame(PickedRow(coins, {}), _ => 0, |coins|);
      assert FirstOutpoints(pick, 0) == {};
    } else {
      PickedIsTotal(coins, pick, n - 1);
      var before, after := FirstOutpoints(pick, n - 1), FirstOutpoints(pick, n);
      var k :| 0 <= k < |coins| && coins[k].status.Available? && coins[k].outpoint == pick[n - 1].outpoint && coins[k].amountSat == pick[n - 1].amountSat;
      assert after == before + {coins[k].outpoint};
      assert coins[k].outpoint !in before by {
        forall j | 0 <= j < n - 1 ensures pick[j].outpoint != pick[n - 1].outpoint {
          assert Outpoints(pick)[j] != Outpoints(pick)[n - 1];
        }
      }
      SumChange(PickedRow(coins, before), PickedRow(coins, after), |coins|, k);
    }
  }

  /** Rows are only added: a pick taken from the shorter table is worth the same in the longer one. */
  lemma PickedGrows(coins: seq<Coin>, later: seq<Coin>, picks: set<Outpoint>)
    requires coins <= later && DistinctCoins(later) && picks <= AvailableOutpoints(coins)
    ensures picks <= AvailableOutpoints(later) && PickedSat(later, picks) == PickedSat(coins, picks)
  {
    forall o | o in picks ensures o in AvailableOutpoints(later) {
      var k :| 0 <= k < |coins| && coins[k].status.Available? && coins[k].outpoint == o;
      assert later[k] == coins[k];
    }
    forall k | |coins| <= k < |later| ensures later[k].outpoint !in picks {
      assert forall j :: 0 <= j < |coins| ==> coins[j].outpoint != later[k].outpoint;
    }
    SumExtend(PickedRow(coins, picks), PickedRow(later, picks), |coins|, |later|);
  }

  function PaymentTx(b: Select.Built, payee: string, changeIndex: nat): Tx {
    Tx.Signed(Outpoints(b.inputs), payee, b.recipientSat, b.changeSat, if b.changeSat > 0 then changeIndex else 0)
  }

  lemma InputsArePicked(b: Select.Built, payee: string, changeIndex: nat)
    ensures Inputs(PaymentTx(b, payee, changeIndex)) == FirstOutpoints(b.inputs, |b.inputs|)
  {
    var t := PaymentTx(b, payee, changeIndex);
    forall o | o in Inputs(t) ensures o in FirstOutpoints(b.inputs, |b.inputs|) {
      var j :| 0 <= j < |t.inputs| && t.inputs[j] == o;
      assert b.inputs[j].outpoint == o;
    }
    forall j | 0 <= j < |b.inputs| ensures b.inputs[j].outpoint in Inputs(t) { assert t.inputs[j] == b.inputs[j].outpoint; }
  }

  /** Whatever selection and the builder produce from the pool can be signed: it is payable, to the last satoshi. */
  lemma BuiltIsPayable(s: State, b: Select.Built, payee: string, changeIndex: nat)
    requires DistinctCoins(s.coins) && Select.Balanced(b, AvailableUtxos(s.coins))
    ensures Payable(s, PaymentTx(b, payee, changeIndex), b.feeSat) && NoRepeat(Outpoints(b.inputs))
  {
    PickIsFromPool(s.coins, b.inputs);
    PickedIsTotal(s.coins, b.inputs, |b.inputs|);
    InputsArePicked(b, payee, changeIndex);
    forall o | o in FirstOutpoints(b.inputs, |b.inputs|) ensures o in AvailableOutpoints(s.coins) {
      var j :| 0 <= j < |b.inputs| && b.inputs[j].outpoint == o;
    }
  }
}
