/** The daily mint cap (backend/src/executor/mint-capacity.ts) and the contract rule it anticipates. */
module MintCapacity {
  import opened Coins

  const DAY_SECONDS := 86_400

  // ── The contract ─────────────────────────────────────────────────────────

  datatype ChainState = ChainState(
    dailyMintLimit: nat, currentDayMinted: nat, currentDayStart: nat,
    maxSupply: nat,      // 0: uncapped
    totalSupply: nat, blockNumber: nat, blockTimestamp: nat)

  /** What counts as minted today for a mint at time `now`. */
  function EffectiveMinted(c: ChainState, now: nat): nat {
    if now >= c.currentDayStart + DAY_SECONDS then 0 else c.currentDayMinted
  }

  /** The two checks of WBob.mint. */
  predicate MintAllowed(c: ChainState, now: nat, amount: nat) {
    && EffectiveMinted(c, now) + amount <= c.dailyMintLimit
    && (c.maxSupply > 0 ==> c.totalSupply + amount <= c.maxSupply)
  }

  /** The contract after a mint it accepts. */
  function AfterMint(c: ChainState, now: nat, amount: nat): ChainState {
    c.(currentDayMinted := EffectiveMinted(c, now) + amount,
       currentDayStart := if now >= c.currentDayStart + DAY_SECONDS then now - now % DAY_SECONDS else c.currentDayStart,
       totalSupply := c.totalSupply + amount)
  }

  // ── The bridge's reading of it ───────────────────────────────────────────

  datatype CapWindow = CapWindow(
    limitSat: nat, mintedTodaySat: nat, remainingTodaySat: nat,
    windowStale: bool, windowStartSec: nat, resetsAtSec: nat)

  function ComputeCapWindow(state: ChainState, nowSec: nat): CapWindow {
    var stale := nowSec >= state.currentDayStart + DAY_SECONDS;
    var minted := if stale then 0 else state.currentDayMinted;
    var start := if stale then nowSec - nowSec % DAY_SECONDS else state.currentDayStart;
    var underLimit := if state.dailyMintLimit > minted then state.dailyMintLimit - minted else 0;
    var room := if state.maxSupply > state.totalSupply then state.maxSupply - state.totalSupply else 0;
    var remaining := if state.maxSupply > 0 && room < underLimit then room else underLimit;
    CapWindow(state.dailyMintLimit, minted, remaining, stale, start, start + DAY_SECONDS)
  }

  function AvailableCapacity(window: CapWindow, reservedSat: nat): nat {
    if window.remainingTodaySat > reservedSat then window.remainingTodaySat - reservedSat else 0
  }

  datatype DepositSplit = DepositSplit(mintSat: nat, excessSat: nat)

  function SplitDeposit(depositSat: int, capacitySat: int): Option<DepositSplit> {
    if depositSat <= 0 then None
    else
      var cap := if capacitySat > 0 then capacitySat else 0;
      var mint := if depositSat < cap then depositSat else cap;
      Some(DepositSplit(mint, depositSat - mint))
  }

  /** The window is exactly the set of amounts the contract would accept. */
  lemma WindowIsWhatTheContractAccepts(c: ChainState, now: nat, amount: nat)
    requires amount > 0
    ensures MintAllowed(c, now, amount) <==> amount <= ComputeCapWindow(c, now).remainingTodaySat
  {
  }

  /** ...and after the contract's own rollover it still agrees with the window's start and reset. */
  lemma WindowFollowsRollover(c: ChainState, now: nat, amount: nat)
    requires MintAllowed(c, now, amount) && amount > 0
    ensures var w, w' := ComputeCapWindow(c, now), ComputeCapWindow(AfterMint(c, now, amount), now);
      && w'.windowStartSec == w.windowStartSec && w'.resetsAtSec == w.resetsAtSec && !w'.windowStale
      && w'.mintedTodaySat == w.mintedTodaySat + amount
      && w'.remainingTodaySat == w.remainingTodaySat - amount
  {
  }

  /** The largest accepted split: nothing is left over unless the capacity is used up to the last unit. */
  lemma SplitIsTight(c: ChainState, now: nat, reservedSat: nat, depositSat: nat)
    requires depositSat > 0
    ensures var capacity := AvailableCapacity(ComputeCapWindow(c, now), reservedSat);
      var s := SplitDeposit(depositSat, capacity);
      && s.Some? && s.value.mintSat + s.value.excessSat == depositSat
      && (s.value.mintSat > 0 ==> MintAllowed(c, now, reservedSat + s.value.mintSat))
      && (s.value.excessSat > 0 ==> !MintAllowed(c, now, reservedSat + s.value.mintSat + 1))
  {
    var capacity := AvailableCapacity(ComputeCapWindow(c, now), reservedSat);
    var mint := SplitDeposit(depositSat, capacity).value.mintSat;
    if mint > 0 { WindowIsWhatTheContractAccepts(c, now, reservedSat + mint); }
    WindowIsWhatTheContractAccepts(c, now, reservedSat + mint + 1);
  }

  // ── Reservations ─────────────────────────────────────────────────────────

  datatype Reservation = Reservation(amountSat: nat, gnosisTxHash: Option<nat>)

  predicate Outstanding(r: Reservation, mined: set<nat>) {
    r.gnosisTxHash.None? || r.gnosisTxHash.value !in mined
  }

  function OutstandingTo(rs: seq<Reservation>, mined: set<nat>, k: nat): nat
    requires k <= |rs|
  {
    if k == 0 then 0
    else OutstandingTo(rs, mined, k - 1) + if Outstanding(rs[k - 1], mined) then rs[k - 1].amountSat else 0
  }

  method SumOutstandingReservations(rs: seq<Reservation>, mined: set<nat>) returns (total: nat)
    ensures total == OutstandingTo(rs, mined, |rs|)
  {
    total := 0;
    for i := 0 to |rs|
      invariant total == OutstandingTo(rs, mined, i)
    {
      if rs[i].gnosisTxHash.Some? && rs[i].gnosisTxHash.value in mined { continue; }
      total := total + rs[i].amountSat;
    }
  }

  /** Missing a mined transaction only counts a reservation too many. */
  lemma {:induction false} FewerMinedCountsMore(rs: seq<Reservation>, seen: set<nat>, mined: set<nat>, k: nat)
    requires seen <= mined && k <= |rs|
    ensures OutstandingTo(rs, mined, k) <= OutstandingTo(rs, seen, k)
  {
    if k > 0 { FewerMinedCountsMore(rs, seen, mined, k - 1); }
  }
}
