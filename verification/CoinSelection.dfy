/** Coin selection and transaction amounts (backend/src/dobbscoin/tx-builder.ts). */
module CoinSelection {
  import opened Coins

  const BYTES_PER_INPUT := 148
  const BYTES_PER_OUTPUT := 34
  const TX_OVERHEAD := 10
  const DUST_THRESHOLD_SAT := 546

  function EstimateFee(inputs: nat, outputs: nat, rate: nat): nat {
    (TX_OVERHEAD + inputs * BYTES_PER_INPUT + outputs * BYTES_PER_OUTPUT) * rate
  }

  lemma FeeMonotone(inputs: nat, outputs: nat, more: nat, rate: nat)
    requires outputs <= more
    ensures EstimateFee(inputs, outputs, rate) <= EstimateFee(inputs, more, rate)
  {
    var a, b := TX_OVERHEAD + inputs * BYTES_PER_INPUT + outputs * BYTES_PER_OUTPUT, TX_OVERHEAD + inputs * BYTES_PER_INPUT + more * BYTES_PER_OUTPUT;
    assert (b - a) * rate >= 0;
  }

  /** The first k coins together. */
  function TotalTo(coins: seq<Utxo>, k: nat): nat
    requires k <= |coins|
  {
    if k == 0 then 0 else TotalTo(coins, k - 1) + coins[k - 1].amountSat
  }

  function Total(coins: seq<Utxo>): nat {
    TotalTo(coins, |coins|)
  }

  lemma {:induction false} TotalOfPrefix(coins: seq<Utxo>, n: nat, k: nat)
    requires k <= n <= |coins|
    ensures TotalTo(coins[..n], k) == TotalTo(coins, k)
  {
    if k > 0 { TotalOfPrefix(coins, n, k - 1); }
  }

  lemma {:induction false} TotalGrows(coins: seq<Utxo>, k: nat, n: nat)
    requires k <= n <= |coins|
    ensures TotalTo(coins, k) <= TotalTo(coins, n)
  {
    if k < n { TotalGrows(coins, k, n - 1); }
  }

  function Without(coins: seq<Utxo>, i: nat): seq<Utxo>
    requires i < |coins|
  {
    coins[..i] + coins[i + 1..]
  }

  lemma {:induction false} TotalWithout(coins: seq<Utxo>, i: nat, k: nat)
    requires i < |coins| && k < |coins|
    ensures TotalTo(Without(coins, i), k) == if k <= i then TotalTo(coins, k) else TotalTo(coins, k + 1) - coins[i].amountSat
  {
    if k > 0 {
      TotalWithout(coins, i, k - 1);
      assert Without(coins, i)[k - 1] == if k - 1 < i then coins[k - 1] else coins[k];
    }
  }

  lemma TotalTail(coins: seq<Utxo>, k: nat)
    requires k < |coins|
    ensures TotalTo(coins[1..], k) == TotalTo(coins, k + 1) - coins[0].amountSat
  {
    assert Without(coins, 0) == coins[1..];
    TotalWithout(coins, 0, k);
  }

  lemma MultisetWithout(coins: seq<Utxo>, i: nat)
    requires i < |coins|
    ensures multiset(coins) == multiset(Without(coins, i)) + multiset{coins[i]}
  {
    assert coins == coins[..i] + ([coins[i]] + coins[i + 1..]);
  }

  lemma MatchFirst(a: seq<Utxo>, b: seq<Utxo>) returns (j: nat)
    requires multiset(a) == multiset(b) && a != []
    ensures j < |b| == |a| && b[j] == a[0] && multiset(a[1..]) == multiset(Without(b, j))
  {
    assert |multiset(a)| == |multiset(b)|;
    assert a[0] in multiset(b);
    j := Index(b, a[0]);
    MultisetWithout(a, 0);
    MultisetWithout(b, j);
    assert Without(a, 0) == a[1..];
    assert multiset(a[1..]) == multiset(a) - multiset{a[0]} == multiset(Without(b, j));
  }

  lemma {:induction false} TotalOfPermutation(a: seq<Utxo>, b: seq<Utxo>)
    requires multiset(a) == multiset(b)
    ensures Total(a) == Total(b) && |a| == |b|
  {
    if a == [] {
      assert |multiset(b)| == |multiset(a)|;
    } else {
      var j := MatchFirst(a, b);
      var fewer := Without(b, j);
      TotalOfPermutation(a[1..], fewer);
      TotalTail(a, |a| - 1);
      TotalWithout(b, j, |b| - 1);
    }
  }

  function Index(coins: seq<Utxo>, c: Utxo): (i: nat)
    requires c in coins
    ensures i < |coins| && coins[i] == c
  {
    if coins[0] == c then 0 else 1 + Index(coins[1..], c)
  }

  // ── Array.sort, largest first ────────────────────────────────────────────

  predicate Descending(coins: seq<Utxo>) {
    forall i, j :: 0 <= i < j < |coins| ==> coins[i].amountSat >= coins[j].amountSat
  }

  function Insert(c: Utxo, sorted: seq<Utxo>): (r: seq<Utxo>)
    ensures forall k :: 0 <= k < |r| ==> r[k] == c || r[k] in sorted
  {
    if sorted == [] || c.amountSat >= sorted[0].amountSat then [c] + sorted
    else [sorted[0]] + Insert(c, sorted[1..])
  }

  lemma {:induction false} InsertMultiset(c: Utxo, sorted: seq<Utxo>)
    ensures multiset(Insert(c, sorted)) == multiset(sorted) + multiset{c}
  {
    if sorted != [] && c.amountSat < sorted[0].amountSat {
      InsertMultiset(c, sorted[1..]);
      assert sorted == [sorted[0]] + sorted[1..];
    }
  }

  lemma {:induction false} InsertDescending(c: Utxo, sorted: seq<Utxo>)
    requires Descending(sorted)
    ensures Descending(Insert(c, sorted))
  {
    if sorted != [] && c.amountSat < sorted[0].amountSat {
      var rest := sorted[1..];
      InsertDescending(c, rest);
      forall k | 0 <= k < |Insert(c, rest)| ensures Insert(c, rest)[k].amountSat <= sorted[0].amountSat {
        var x := Insert(c, rest)[k];
        if x in rest {
          var m := Index(rest, x);
          assert x == sorted[m + 1];
        }
      }
    }
  }

  function LargestFirst(coins: seq<Utxo>): seq<Utxo> {
    if coins == [] then [] else Insert(coins[0], LargestFirst(coins[1..]))
  }

  lemma {:induction false} LargestFirstSorts(coins: seq<Utxo>)
    ensures Descending(LargestFirst(coins)) && multiset(LargestFirst(coins)) == multiset(coins)
  {
    if coins != [] {
      LargestFirstSorts(coins[1..]);
      InsertDescending(coins[0], LargestFirst(coins[1..]));
      InsertMultiset(coins[0], LargestFirst(coins[1..]));
      assert coins == [coins[0]] + coins[1..];
    }
  }

  lemma SubMultisetSize(a: seq<Utxo>, b: seq<Utxo>)
    requires multiset(a) <= multiset(b)
    ensures |a| <= |b|
  {
    assert multiset(b) == multiset(a) + (multiset(b) - multiset(a));
    assert |multiset(b)| == |multiset(a)| + |multiset(b) - multiset(a)|;
  }

  lemma PeelOne(p: multiset<Utxo>, s: multiset<Utxo>, fewer: multiset<Utxo>, rest: multiset<Utxo>, x: Utxo, top: Utxo)
    requires p == fewer + multiset{x} && s == rest + multiset{top} && p <= s
    requires x == top || top !in p
    ensures fewer <= rest
  {
    forall c ensures fewer[c] <= rest[c] {
      assert p[c] <= s[c];
    }
  }

  /** Some coin of the pick weighs no more than the largest, and the rest come from the rest. */
  lemma Peel(sorted: seq<Utxo>, pick: seq<Utxo>) returns (j: nat)
    requires Descending(sorted) && multiset(pick) <= multiset(sorted) && pick != []
    ensures j < |pick| <= |sorted| && pick[j].amountSat <= sorted[0].amountSat
    ensures multiset(Without(pick, j)) <= multiset(sorted[1..])
  {
    SubMultisetSize(pick, sorted);
    var top, rest := sorted[0], Without(sorted, 0);
    j := if top in pick then Index(pick, top) else 0;
    MultisetWithout(pick, j);
    MultisetWithout(sorted, 0);
    PeelOne(multiset(pick), multiset(sorted), multiset(Without(pick, j)), multiset(rest), pick[j], top);
    assert rest == sorted[1..];
    assert pick[j] in multiset(sorted);
    assert pick[j] == sorted[Index(sorted, pick[j])];
  }

  lemma DescendingTail(sorted: seq<Utxo>)
    requires Descending(sorted) && sorted != []
    ensures Descending(sorted[1..])
  {
  }

  /** The first k of a descending list outweigh any k coins drawn from it. */
  lemma {:induction false} Dominance(sorted: seq<Utxo>, pick: seq<Utxo>)
    requires Descending(sorted) && multiset(pick) <= multiset(sorted)
    ensures |pick| <= |sorted| && Total(pick) <= TotalTo(sorted, |pick|)
    decreases |sorted|
  {
    if pick != [] {
      var j := Peel(sorted, pick);
      var fewer := Without(pick, j);
      DescendingTail(sorted);
      Dominance(sorted[1..], fewer);
      TotalWithout(pick, j, |pick| - 1);
      TotalTail(sorted, |pick| - 1);
    }
  }

  // ── selectUtxos ──────────────────────────────────────────────────────────

  /** Two outputs when something is left over, one otherwise. */
  function OutputCount(total: nat, target: int): nat {
    if total > target then 2 else 1
  }

  predicate Covers(total: nat, count: nat, target: int, rate: nat) {
    total >= target + EstimateFee(count, OutputCount(total, target), rate)
  }

  /** Enough is the target and a fee for two outputs; or, when fees are free, exactly the target. */
  lemma CoversMeans(total: nat, count: nat, target: int, rate: nat)
    ensures Covers(total, count, target, rate) <==>
      (total > target && total >= target + EstimateFee(count, 2, rate)) || (total == target && rate == 0)
  {
    var bytes := TX_OVERHEAD + count * BYTES_PER_INPUT + BYTES_PER_OUTPUT;
    assert rate > 0 ==> bytes * rate >= bytes;
  }

  /** More value in as many coins still covers. */
  lemma CoversMonotone(total: nat, more: nat, count: nat, target: int, rate: nat)
    requires total <= more && Covers(total, count, target, rate)
    ensures Covers(more, count, target, rate)
  {
    if total <= target < more {
      var bytes := TX_OVERHEAD + count * BYTES_PER_INPUT + BYTES_PER_OUTPUT;
      assert bytes * rate == 0;
      assert rate > 0 ==> bytes * rate >= bytes;
    }
  }

  /** A non-empty choice of available coins that pays for itself. */
  ghost predicate Sufficient(pick: seq<Utxo>, available: seq<Utxo>, target: int, rate: nat) {
    pick != [] && multiset(pick) <= multiset(available) && Covers(Total(pick), |pick|, target, rate)
  }

  datatype Selection = Selected(coins: seq<Utxo>, feeSat: nat) | Insufficient(haveSat: nat)

  /** What a selection promises: success exactly when some choice suffices, and then the fewest coins. */
  ghost predicate Fewest(r: Selection, available: seq<Utxo>, target: int, rate: nat) {
    match r
    case Selected(coins, feeSat) =>
      && Sufficient(coins, available, target, rate)
      && feeSat == EstimateFee(|coins|, OutputCount(Total(coins), target), rate)
      && forall pick :: Sufficient(pick, available, target, rate) ==> |coins| <= |pick|
    case Insufficient(haveSat) =>
      && haveSat == Total(available)
      && forall pick :: !Sufficient(pick, available, target, rate)
  }

  /** The fee is for a second output whenever something is left over; nothing is left over only where fees are free. */
  lemma FeeIsForChange(r: Selection, available: seq<Utxo>, target: int, rate: nat)
    requires Fewest(r, available, target, rate) && r.Selected?
    ensures var total := Total(r.coins);
      if total > target then r.feeSat == EstimateFee(|r.coins|, 2, rate) <= total - target else total == target && rate == r.feeSat == 0
  {
    CoversMeans(Total(r.coins), |r.coins|, target, rate);
  }

  /** Largest-first, adding coins until they pay for the target and their own fee. */
  method SelectUtxos(available: seq<Utxo>, target: int, rate: nat) returns (r: Selection)
    ensures Fewest(r, available, target, rate)
  {
    var sorted := LargestFirst(available);
    LargestFirstSorts(available);
    TotalOfPermutation(sorted, available);
    var selected: seq<Utxo> := [];
    var total := 0;
    for i := 0 to |sorted|
      invariant selected == sorted[..i] && total == TotalTo(sorted, i)
      invariant NoneCovers(sorted, i, target, rate)
    {
      assert sorted[..i + 1] == sorted[..i] + [sorted[i]];
      selected := selected + [sorted[i]];
      total := total + sorted[i].amountSat;
      var fee := EstimateFee(|selected|, OutputCount(total, target), rate);
      if total >= target + fee {
        PrefixIsFewest(sorted, available, i + 1, target, rate);
        return Selected(selected, fee);
      }
    }
    FewestCoins(sorted, available, |sorted|, target, rate);
    r := Insufficient(total);
  }

  lemma PrefixIsFewest(sorted: seq<Utxo>, available: seq<Utxo>, n: nat, target: int, rate: nat)
    requires Descending(sorted) && multiset(sorted) == multiset(available)
    requires 0 < n <= |sorted| && NoneCovers(sorted, n - 1, target, rate)
    requires Covers(TotalTo(sorted, n), n, target, rate)
    ensures Fewest(Selected(sorted[..n], EstimateFee(n, OutputCount(TotalTo(sorted, n), target), rate)),
                   available, target, rate)
  {
    PrefixIsSubset(sorted, n);
    FewestCoins(sorted, available, n - 1, target, rate);
  }

  /** No prefix of at most n coins pays for itself. */
  ghost predicate NoneCovers(sorted: seq<Utxo>, n: nat, target: int, rate: nat)
    requires n <= |sorted|
  {
    forall k :: 0 < k <= n ==> !Covers(TotalTo(sorted, k), k, target, rate)
  }

  lemma FewestCoins(sorted: seq<Utxo>, available: seq<Utxo>, n: nat, target: int, rate: nat)
    requires Descending(sorted) && multiset(sorted) == multiset(available)
    requires n <= |sorted| && NoneCovers(sorted, n, target, rate)
    ensures forall pick :: Sufficient(pick, available, target, rate) ==> n < |pick| <= |sorted|
  {
    forall pick | Sufficient(pick, available, target, rate) ensures n < |pick| <= |sorted| {
      NoSmaller(sorted, pick, target, rate);
    }
  }

  lemma PrefixIsSubset(coins: seq<Utxo>, k: nat)
    requires k <= |coins|
    ensures multiset(coins[..k]) <= multiset(coins) && Total(coins[..k]) == TotalTo(coins, k)
  {
    assert coins == coins[..k] + coins[k..];
    TotalOfPrefix(coins, k, k);
  }

  lemma NoSmaller(sorted: seq<Utxo>, pick: seq<Utxo>, target: int, rate: nat)
    requires Descending(sorted) && Sufficient(pick, sorted, target, rate)
    ensures 0 < |pick| <= |sorted| && Covers(TotalTo(sorted, |pick|), |pick|, target, rate)
  {
    Dominance(sorted, pick);
    CoversMonotone(Total(pick), TotalTo(sorted, |pick|), |pick|, target, rate);
  }

  // ── Payouts ──────────────────────────────────────────────────────────────

  datatype Built = Built(inputs: seq<Utxo>, inputSat: nat, recipientSat: nat, changeSat: nat, feeSat: nat)

  datatype BuildError = DustPayout | InsufficientUtxos | RefundTooSmall(feeSat: nat) | GrossNotPositive
  datatype Result<T> = Ok(value: T) | Err(error: BuildError)

  /** Conservation and dust: what every transaction the bridge signs satisfies. */
  ghost predicate Balanced(b: Built, available: seq<Utxo>) {
    && b.inputs != [] && multiset(b.inputs) <= multiset(available)
    && b.inputSat == Total(b.inputs) == b.recipientSat + b.changeSat + b.feeSat
    && b.recipientSat > DUST_THRESHOLD_SAT
    && (b.changeSat == 0 || b.changeSat > DUST_THRESHOLD_SAT)
  }

  /** buildPayoutTx without the signing: the recipient gets the whole amount, the pool pays the fee. */
  method BuildPayout(utxos: seq<Utxo>, payoutAmountSat: nat, rate: nat) returns (r: Result<Built>)
    ensures r.Ok? ==>
      && Balanced(r.value, utxos)
      && r.value.recipientSat == payoutAmountSat
      && var estimate := EstimateFee(|r.value.inputs|, 2, rate);
         && (r.value.changeSat > 0 ==> r.value.feeSat == estimate)
         && (r.value.inputSat > payoutAmountSat ==> estimate <= r.value.feeSat <= estimate + DUST_THRESHOLD_SAT)
         && (r.value.inputSat == payoutAmountSat ==> rate == 0)
    ensures r == Err(DustPayout) <==> payoutAmountSat <= DUST_THRESHOLD_SAT
    ensures r.Err? && payoutAmountSat > DUST_THRESHOLD_SAT ==>
      r.error == InsufficientUtxos && forall pick :: !Sufficient(pick, utxos, payoutAmountSat, rate)
  {
    if payoutAmountSat <= DUST_THRESHOLD_SAT { return Err(DustPayout); }
    var s := SelectUtxos(utxos, payoutAmountSat, rate);
    if s.Insufficient? { return Err(InsufficientUtxos); }
    FeeIsForChange(s, utxos, payoutAmountSat, rate);
    var inputTotal := 0;
    for i := 0 to |s.coins|
      invariant inputTotal == TotalTo(s.coins, i)
    {
      inputTotal := inputTotal + s.coins[i].amountSat;
    }
    var changeSat := inputTotal - payoutAmountSat - s.feeSat;
    var fee := if changeSat <= DUST_THRESHOLD_SAT then inputTotal - payoutAmountSat else s.feeSat;
    var change := if changeSat > DUST_THRESHOLD_SAT then changeSat else 0;
    r := Ok(Built(s.coins, inputTotal, payoutAmountSat, change, fee));
  }

  // ── Refunds ──────────────────────────────────────────────────────────────

  predicate IsRefundTooSmall(grossSat: int, rate: nat) {
    grossSat - EstimateFee(1, 2, rate) <= DUST_THRESHOLD_SAT
  }

  function Matching(coins: seq<Utxo>, preferred: Option<Outpoint>, want: bool): (r: seq<Utxo>)
    ensures forall c | c in r :: c in coins && (preferred == Some(c.outpoint)) == want
  {
    if coins == [] then []
    else (if (preferred == Some(coins[0].outpoint)) == want then [coins[0]] else []) + Matching(coins[1..], preferred, want)
  }

  lemma {:induction false} MatchingPartitions(coins: seq<Utxo>, preferred: Option<Outpoint>)
    ensures multiset(Matching(coins, preferred, true)) + multiset(Matching(coins, preferred, false)) == multiset(coins)
  {
    if coins != [] {
      MatchingPartitions(coins[1..], preferred);
      assert coins == [coins[0]] + coins[1..];
    }
  }

  /** The preferred coin first, the others largest first. */
  function PreferredFirst(coins: seq<Utxo>, preferred: Option<Outpoint>): seq<Utxo> {
    Matching(coins, preferred, true) + LargestFirst(Matching(coins, preferred, false))
  }

  /** No other coin comes before a preferred one, and the others come largest first. */
  lemma RefundOrder(coins: seq<Utxo>, preferred: Option<Outpoint>)
    ensures var r := PreferredFirst(coins, preferred);
      forall i, j :: 0 <= i < j < |r| && preferred != Some(r[i].outpoint) ==> preferred != Some(r[j].outpoint) && r[i].amountSat >= r[j].amountSat
  {
    var own, others := Matching(coins, preferred, true), Matching(coins, preferred, false);
    LargestFirstSorts(others);
    var r := PreferredFirst(coins, preferred);
    forall k | 0 <= k < |own| ensures preferred == Some(r[k].outpoint) { assert own[k] in own; }
    forall i, j | 0 <= i < j < |r| && preferred != Some(r[i].outpoint)
      ensures preferred != Some(r[j].outpoint) && r[i].amountSat >= r[j].amountSat
    {
      assert r[j] == LargestFirst(others)[j - |own|];
      assert r[j] in multiset(LargestFirst(others));
    }
  }

  lemma PreferredFirstPermutes(coins: seq<Utxo>, preferred: Option<Outpoint>)
    ensures multiset(PreferredFirst(coins, preferred)) == multiset(coins)
  {
    MatchingPartitions(coins, preferred);
    LargestFirstSorts(Matching(coins, preferred, false));
  }

  predicate DistinctOutpoints(coins: seq<Utxo>) {
    forall i, j :: 0 <= i < j < |coins| ==> coins[i].outpoint != coins[j].outpoint
  }

  lemma {:induction false} MatchingNone(coins: seq<Utxo>, o: Outpoint)
    requires forall k :: 0 <= k < |coins| ==> coins[k].outpoint != o
    ensures Matching(coins, Some(o), true) == []
  {
    if coins != [] { MatchingNone(coins[1..], o); }
  }

  lemma {:induction false} MatchingOwn(coins: seq<Utxo>, own: Utxo)
    requires DistinctOutpoints(coins) && own in coins
    ensures Matching(coins, Some(own.outpoint), true) == [own]
  {
    if coins[0] == own {
      MatchingNone(coins[1..], own.outpoint);
    } else {
      var k :| 0 <= k < |coins| && coins[k] == own;
      assert coins[1..][k - 1] == own;
      MatchingOwn(coins[1..], own);
    }
  }

  datatype RefundPlan = RefundPlan(built: Built, bridgeFeeSat: nat)

  /** How many coins of the list it takes, from the k-th on, to reach the gross amount. */
  function Gathered(ordered: seq<Utxo>, grossSat: int, k: nat): (n: nat)
    requires k <= |ordered|
    ensures k <= n <= |ordered|
    ensures TotalTo(ordered, n) < grossSat ==> n == |ordered|
    ensures forall j :: k <= j < n ==> TotalTo(ordered, j) < grossSat
    decreases |ordered| - k
  {
    if k == |ordered| || TotalTo(ordered, k) >= grossSat then k else Gathered(ordered, grossSat, k + 1)
  }

  /** The plan for the first n coins of the list. */
  function PlanFor(ordered: seq<Utxo>, n: nat, grossSat: int, rate: nat): Result<RefundPlan>
    requires n <= |ordered|
  {
    var inputSat := TotalTo(ordered, n);
    if inputSat < grossSat then Err(InsufficientUtxos)
    else
      var rawChange := inputSat - grossSat;
      var hasChange := rawChange > DUST_THRESHOLD_SAT;
      var estFee := EstimateFee(n, if hasChange then 2 else 1, rate);
      var recipientSat := grossSat - estFee;
      if recipientSat <= DUST_THRESHOLD_SAT then Err(RefundTooSmall(estFee))
      else
        var changeSat := if hasChange then rawChange else 0;
        var feeSat := inputSat - recipientSat - changeSat;
        Ok(RefundPlan(Built(ordered[..n], inputSat, recipientSat, changeSat, feeSat), feeSat - estFee))
  }

  function PlanOf(available: seq<Utxo>, grossSat: int, rate: nat, preferred: Option<Outpoint>): Result<RefundPlan> {
    if grossSat <= 0 then Err(GrossNotPositive)
    else
      var ordered := PreferredFirst(available, preferred);
      PlanFor(ordered, Gathered(ordered, grossSat, 0), grossSat, rate)
  }

  /** The first n coins reach the gross amount, and no fewer of the first ones do. */
  ghost predicate IsShortest(ordered: seq<Utxo>, n: nat, grossSat: int) {
    && n <= |ordered| && TotalTo(ordered, n) >= grossSat
    && forall j :: 0 <= j < n ==> TotalTo(ordered, j) < grossSat
  }

  /** On these coins: refused exactly if the fee leaves dust or less, otherwise it spends them and pays the rest. */
  ghost predicate PlannedOn(r: Result<RefundPlan>, inputs: seq<Utxo>, grossSat: int, rate: nat) {
    var feeSat := PrefixFee(inputs, grossSat, rate);
    && (r == Err(RefundTooSmall(feeSat)) <==> grossSat - feeSat <= DUST_THRESHOLD_SAT)
    && (r.Ok? <==> grossSat - feeSat > DUST_THRESHOLD_SAT)
    && (r.Ok? ==> r.value.built.inputs == inputs && r.value.built.recipientSat == grossSat - feeSat)
  }

  /**
   * What every plan satisfies. It is made on the shortest prefix of the preferred-first order that reaches the gross
   * amount. The fee comes out of the refund: the pool gives up the excess and, when the remainder is dust, that
   * remainder as bridge fee.
   */
  ghost predicate PlanHolds(r: Result<RefundPlan>, available: seq<Utxo>, grossSat: int, rate: nat, preferred: Option<Outpoint>) {
    && (r == Err(GrossNotPositive) <==> grossSat <= 0)
    && (r == Err(InsufficientUtxos) <==> grossSat > 0 && Total(available) < grossSat)
    && (grossSat > 0 && Total(available) >= grossSat ==>
         var ordered := PreferredFirst(available, preferred);
         exists n: nat :: IsShortest(ordered, n, grossSat) && PlannedOn(r, ordered[..n], grossSat, rate))
    && (r.Ok? ==>
         var b, bridge := r.value.built, r.value.bridgeFeeSat;
         && Balanced(b, available)
         && b.inputSat - b.changeSat - bridge == grossSat
         && bridge <= DUST_THRESHOLD_SAT && (b.changeSat > 0 ==> bridge == 0)
         && b.feeSat - bridge == EstimateFee(|b.inputs|, if b.changeSat > 0 then 2 else 1, rate))
  }

  /** The gathering loop: coins in order until they reach the gross amount. */
  method Gather(ordered: seq<Utxo>, grossSat: int) returns (selected: seq<Utxo>, inputSat: nat)
    requires grossSat > 0
    ensures var n := Gathered(ordered, grossSat, 0); selected == ordered[..n] && inputSat == TotalTo(ordered, n)
  {
    selected, inputSat := [], 0;
    for i := 0 to |ordered|
      invariant selected == ordered[..i] && inputSat == TotalTo(ordered, i) < grossSat
      invariant Gathered(ordered, grossSat, 0) == Gathered(ordered, grossSat, i)
    {
      assert ordered[..i + 1] == ordered[..i] + [ordered[i]];
      selected := selected + [ordered[i]];
      inputSat := inputSat + ordered[i].amountSat;
      if inputSat >= grossSat { return; }
    }
  }

  method PlanRefund(available: seq<Utxo>, grossSat: int, rate: nat, preferred: Option<Outpoint>)
    returns (r: Result<RefundPlan>)
    ensures r == PlanOf(available, grossSat, rate, preferred)
  {
    if grossSat <= 0 { return Err(GrossNotPositive); }
    var selected, inputSat := Gather(PreferredFirst(available, preferred), grossSat);
    if inputSat < grossSat { return Err(InsufficientUtxos); }
    var rawChange := inputSat - grossSat;
    var hasChange := rawChange > DUST_THRESHOLD_SAT;
    var estFee := EstimateFee(|selected|, if hasChange then 2 else 1, rate);
    var recipientSat := grossSat - estFee;
    if recipientSat <= DUST_THRESHOLD_SAT { return Err(RefundTooSmall(estFee)); }
    var changeSat := if hasChange then rawChange else 0;
    var feeSat := inputSat - recipientSat - changeSat;
    r := Ok(RefundPlan(Built(selected, inputSat, recipientSat, changeSat, feeSat), feeSat - estFee));
  }

  lemma PlanOnShortest(ordered: seq<Utxo>, n: nat, grossSat: int, rate: nat)
    requires IsShortest(ordered, n, grossSat)
    ensures PlannedOn(PlanFor(ordered, n, grossSat, rate), ordered[..n], grossSat, rate)
  {
    TotalOfPrefix(ordered, n, n);
  }

  lemma PlanOfHolds(available: seq<Utxo>, grossSat: int, rate: nat, preferred: Option<Outpoint>)
    ensures PlanHolds(PlanOf(available, grossSat, rate, preferred), available, grossSat, rate, preferred)
  {
    if grossSat > 0 {
      var ordered := PreferredFirst(available, preferred);
      var n := Gathered(ordered, grossSat, 0);
      PreferredFirstPermutes(available, preferred);
      TotalOfPermutation(ordered, available);
      TotalGrows(ordered, n, |ordered|);
      PrefixIsSubset(ordered, n);
      if Total(available) >= grossSat {
        assert IsShortest(ordered, n, grossSat);
        PlanOnShortest(ordered, n, grossSat, rate);
      }
    }
  }

  /** The fee of a transaction on the shortest prefix leaves dust or less of the refund. */
  ghost predicate LeavesDust(available: seq<Utxo>, grossSat: int, rate: nat, preferred: Option<Outpoint>) {
    var ordered := PreferredFirst(available, preferred);
    exists n: nat :: IsShortest(ordered, n, grossSat) && grossSat - PrefixFee(ordered[..n], grossSat, rate) <= DUST_THRESHOLD_SAT
  }

  /** Two outputs exactly when these coins leave more than dust. */
  function PrefixFee(inputs: seq<Utxo>, grossSat: int, rate: nat): nat {
    EstimateFee(|inputs|, if Total(inputs) - grossSat > DUST_THRESHOLD_SAT then 2 else 1, rate)
  }

  /** Each way a plan ends, told by the coins. */
  lemma PlanEnds(available: seq<Utxo>, grossSat: int, rate: nat, preferred: Option<Outpoint>)
    ensures var r := PlanOf(available, grossSat, rate, preferred);
      && (r == Err(GrossNotPositive) <==> grossSat <= 0)
      && (r == Err(InsufficientUtxos) <==> grossSat > 0 && Total(available) < grossSat)
      && (r.Err? && r.error.RefundTooSmall? <==>
            grossSat > 0 && Total(available) >= grossSat && LeavesDust(available, grossSat, rate, preferred))
      && (r.Ok? <==> grossSat > 0 && Total(available) >= grossSat && !LeavesDust(available, grossSat, rate, preferred))
      && (r.Ok? ==>
            exists n: nat :: IsShortest(PreferredFirst(available, preferred), n, grossSat)
              && r.value.built.inputs == PreferredFirst(available, preferred)[..n]
              && r.value.built.recipientSat == grossSat - PrefixFee(r.value.built.inputs, grossSat, rate))
  {
    PlanOfHolds(available, grossSat, rate, preferred);
    if grossSat > 0 && Total(available) >= grossSat {
      var ordered, r := PreferredFirst(available, preferred), PlanOf(available, grossSat, rate, preferred);
      var n: nat :| IsShortest(ordered, n, grossSat) && PlannedOn(r, ordered[..n], grossSat, rate);
      assert forall m: nat :: IsShortest(ordered, m, grossSat) ==> m == n;
    }
  }

  /**
   * While its own deposit coin is in the pool, a refund that ingest did not call too small is never
   * too small to plan; it spends that coin alone, and what comes back is the minted part when above dust.
   */
  lemma RefundSpendsItsDeposit(available: seq<Utxo>, own: Utxo, grossSat: int, rate: nat)
    requires DistinctOutpoints(available) && own in available && 0 < grossSat <= own.amountSat
    requires !IsRefundTooSmall(grossSat, rate)
    ensures var r, minted := PlanOf(available, grossSat, rate, Some(own.outpoint)), own.amountSat - grossSat;
      && r.Ok? && r.value.built.inputs == [own]
      && r.value.built.changeSat == (if minted > DUST_THRESHOLD_SAT then minted else 0)
  {
    var ordered := PreferredFirst(available, Some(own.outpoint));
    MatchingOwn(available, own);
    assert ordered[0] == own && ordered[..1] == [own];
    assert TotalTo(ordered, 1) == own.amountSat;
    assert Gathered(ordered, grossSat, 0) == Gathered(ordered, grossSat, 1) == 1;
    FeeMonotone(1, 1, 2, rate);
  }
}
