/**
 * Reading withdrawals off the Gnosis chain (backend/src/gnosis/event-watcher.ts): the scan with its
 * watermark and halts, and the independent recount. Calls to the node and the database may fail anywhere.
 */
module GnosisScanner {
  import opened Coins
  import opened Destination

  /** A WithdrawalRequested event of the controller. */
  datatype Log = Log(block: nat, index: nat, withdrawalId: nat, sender: nat, amountSat: nat, destination: Raw, txHash: string)

  datatype Row = Row(withdrawalId: nat, sender: nat, amountSat: nat, destination: string, txHash: string, block: nat)

  datatype Halt = Halt(block: nat, count: nat, withdrawalId: nat)

  /** Which calls get through while one window is scanned: the node's answer, the note of a halt, the other state writes. */
  datatype Calls = Calls(fetched: bool, noted: bool, saved: bool)

  datatype ScanResult = Clean | Halted(log: Log) | Failed

  function RowOf(log: Log): Row {
    Row(log.withdrawalId, log.sender, log.amountSat, Sanitize(log.destination).value, log.txHash, log.block)
  }

  /** The row says of the burn what its event says, and where the event is. */
  predicate Tells(row: Row, log: Log) {
    && row.withdrawalId == log.withdrawalId && row.txHash == log.txHash && row.block == log.block
    && row.sender == log.sender && row.amountSat == log.amountSat && row.destination == Sanitize(log.destination).value
  }

  predicate HasId(rows: seq<Row>, id: nat) {
    exists k :: 0 <= k < |rows| && rows[k].withdrawalId == id
  }

  /** One row per withdrawal id: the table's UNIQUE constraint. */
  predicate UniqueIds(rows: seq<Row>) {
    forall j, k :: 0 <= j < k < |rows| ==> rows[j].withdrawalId != rows[k].withdrawalId
  }

  // ── Logs in order ────────────────────────────────────────────────────────

  predicate NotAfter(a: Log, b: Log) {
    a.block < b.block || (a.block == b.block && a.index <= b.index)
  }

  predicate InOrder(logs: seq<Log>) {
    forall j, k :: 0 <= j < k < |logs| ==> NotAfter(logs[j], logs[k])
  }

  function Insert(sorted: seq<Log>, x: Log): seq<Log> {
    if sorted == [] || NotAfter(sorted[|sorted| - 1], x) then sorted + [x]
    else Insert(sorted[..|sorted| - 1], x) + [sorted[|sorted| - 1]]
  }

  lemma {:induction false} InsertKeeps(sorted: seq<Log>, x: Log)
    ensures multiset(Insert(sorted, x)) == multiset(sorted) + multiset{x}
  {
    if sorted != [] && !NotAfter(sorted[|sorted| - 1], x) {
      InsertKeeps(sorted[..|sorted| - 1], x);
      assert sorted == sorted[..|sorted| - 1] + [sorted[|sorted| - 1]];
    }
  }

  lemma {:induction false} InsertBefore(sorted: seq<Log>, x: Log, last: Log)
    requires NotAfter(x, last) && forall k :: 0 <= k < |sorted| ==> NotAfter(sorted[k], last)
    ensures forall k :: 0 <= k < |Insert(sorted, x)| ==> NotAfter(Insert(sorted, x)[k], last)
  {
    if sorted != [] && !NotAfter(sorted[|sorted| - 1], x) { InsertBefore(sorted[..|sorted| - 1], x, last); }
  }

  lemma {:induction false} InsertSorts(sorted: seq<Log>, x: Log)
    requires InOrder(sorted)
    ensures InOrder(Insert(sorted, x))
  {
    if sorted != [] && !NotAfter(sorted[|sorted| - 1], x) {
      InsertSorts(sorted[..|sorted| - 1], x);
      InsertBefore(sorted[..|sorted| - 1], x, sorted[|sorted| - 1]);
    }
  }

  method SortLogs(logs: seq<Log>) returns (sorted: seq<Log>)
    ensures InOrder(sorted) && multiset(sorted) == multiset(logs)
  {
    sorted := [];
    for k := 0 to |logs|
      invariant InOrder(sorted) && multiset(sorted) == multiset(logs[..k])
    {
      InsertKeeps(sorted, logs[k]);
      InsertSorts(sorted, logs[k]);
      assert logs[..k + 1] == logs[..k] + [logs[k]];
      sorted := Insert(sorted, logs[k]);
    }
    assert logs[..|logs|] == logs;
  }

  // ── The scanner ──────────────────────────────────────────────────────────

  /** The logs of the blocks from..to, in chain order. */
  function Between(final: nat -> seq<Log>, from: nat, last: int): seq<Log>
    decreases last
  {
    if last < from then [] else Between(final, from, last - 1) + final(last)
  }

  class GnosisScanner {
    /** What each block holds once it is deep enough not to change. */
    const final: nat -> seq<Log>
    const confirmationDepth: nat
    const chunk: nat
    const startBlock: nat

    // Tables.
    var rows: seq<Row>
    var lastBlock: nat
    var halt: Option<Halt>
    // Memory.
    var recountCursor: Option<nat>

    ghost const firstWatermark: nat

    /** Every block's events say so themselves. */
    ghost predicate WellFormed() {
      chunk >= 1 && forall b: nat, k :: 0 <= k < |final(b)| ==> final(b)[k].block == b
    }

    ghost predicate Recorded(b: nat)
      reads this`rows
    {
      forall k :: 0 <= k < |final(b)| ==> HasId(rows, final(b)[k].withdrawalId)
    }

    /** No event between the first and the current watermark is missing, and none is there twice. */
    ghost predicate NoGap()
      reads this`rows, this`lastBlock
    {
      UniqueIds(rows) && firstWatermark <= lastBlock && forall b: nat :: firstWatermark < b <= lastBlock ==> Recorded(b)
    }

    /** The recount's own promise, whatever the watermark says. */
    ghost predicate Recounted()
      reads this`rows, this`recountCursor
    {
      recountCursor.Some? ==> forall b: nat :: startBlock <= b < recountCursor.value ==> Recorded(b)
    }

    constructor (final: nat -> seq<Log>, confirmationDepth: nat, chunk: nat, startBlock: nat, rows: seq<Row>, lastBlock: nat)
      requires UniqueIds(rows) && chunk >= 1 && forall b: nat, k :: 0 <= k < |final(b)| ==> final(b)[k].block == b
      ensures WellFormed() && NoGap() && Recounted() && this.final == final && this.rows == rows && this.lastBlock == lastBlock
    {
      this.final, this.confirmationDepth, this.chunk, this.startBlock := final, confirmationDepth, chunk, startBlock;
      this.rows, this.lastBlock, halt, recountCursor, firstWatermark := rows, lastBlock, None, None, lastBlock;
    }

    /** The table only grows, by rows that say exactly what their events say. */
    twostate predicate Grew()
      reads this`rows
    {
      && old(rows) <= rows
      && forall k :: |old(rows)| <= k < |rows| ==> FromChain(rows[k])
    }

    ghost predicate FromChain(row: Row) {
      exists b: nat, k :: 0 <= k < |final(b)| && Tells(row, final(b)[k])
    }

    twostate lemma GrewKeeps()
      requires old(rows) <= rows
      ensures forall id :: HasId(old(rows), id) ==> HasId(rows, id)
      ensures forall b: nat :: old(Recorded(b)) ==> Recorded(b)
    {
      forall id | HasId(old(rows), id) ensures HasId(rows, id) {
        var k :| 0 <= k < |old(rows)| && old(rows)[k].withdrawalId == id;
        assert rows[k].withdrawalId == id;
      }
    }

    /** The node's answer for at most a chunk of blocks, in any order, or a failure. */
    method GetLogs(from: nat, last: nat, up: bool) returns (ok: bool, logs: seq<Log>)
      requires from <= last < from + chunk
      ensures ok == up && (ok ==> multiset(logs) == multiset(Between(final, from, last)))
    {
      logs := *;
      if multiset(logs) != multiset(Between(final, from, last)) { logs := Between(final, from, last); }
      ok := up;
    }

    /** Insert the withdrawal unless its id is there; on failure nothing is written. */
    method CreateWithdrawalOrder(log: Log, fails: bool) returns (ok: bool)
      requires UniqueIds(rows)
      modifies this`rows
      ensures UniqueIds(rows) && ok == !fails
      ensures ok ==> HasId(rows, log.withdrawalId)
      ensures ok && !HasId(old(rows), log.withdrawalId) ==>
        |rows| == |old(rows)| + 1 && rows[..|old(rows)|] == old(rows) && Tells(rows[|old(rows)|], log)
      ensures !ok || HasId(old(rows), log.withdrawalId) ==> rows == old(rows)
    {
      ok := !fails;
      if !ok { return; }
      for k := 0 to |rows|
        invariant forall j :: 0 <= j < k ==> rows[j].withdrawalId != log.withdrawalId
      {
        if rows[k].withdrawalId == log.withdrawalId { return; }
      }
      rows := rows + [RowOf(log)];
      assert rows[|rows| - 1].withdrawalId == log.withdrawalId;
    }

    /** Same block as the last halt: count up. Another block, or none: start at one. */
    method RecordScanHalt(block: nat, withdrawalId: nat, up: bool) returns (ok: bool)
      modifies this`halt
      ensures ok == up
      ensures halt == if ok
        then Some(Halt(block, if old(halt).Some? && old(halt).value.block == block then old(halt).value.count + 1 else 1, withdrawalId))
        else old(halt)
    {
      ok := up;
      if !ok { return; }
      var count := if halt.Some? && halt.value.block == block then halt.value.count + 1 else 1;
      halt := Some(Halt(block, count, withdrawalId));
    }

    /** One event of the window. */
    method IngestOne(logs: seq<Log>, from: nat, last: nat, k: nat, fails: Log -> bool) returns (ok: bool)
      requires WellFormed() && UniqueIds(rows) && multiset(logs) == multiset(Between(final, from, last)) && k < |logs|
      modifies this`rows
      ensures UniqueIds(rows) && Grew() && from <= logs[k].block <= last && ok == !fails(logs[k])
      ensures ok ==> HasId(rows, logs[k].withdrawalId)
      ensures forall id :: HasId(old(rows), id) ==> HasId(rows, id)
    {
      WindowHolds(logs, from, last, k);
      ok := CreateWithdrawalOrder(logs[k], fails(logs[k]));
      GrewKeeps();
    }

    /** Record a window's events in order, stopping at the first that fails. */
    method IngestWindow(logs: seq<Log>, from: nat, last: nat, fails: Log -> bool) returns (failed: Option<Log>)
      requires WellFormed() && UniqueIds(rows) && InOrder(logs) && multiset(logs) == multiset(Between(final, from, last))
      modifies this`rows
      ensures UniqueIds(rows) && Grew() && (failed.Some? ==> fails(failed.value))
      ensures failed.None? ==> forall b: nat :: from <= b <= last ==> Recorded(b)
      ensures failed.Some? ==> from <= failed.value.block <= last && forall b: nat :: from <= b < failed.value.block ==> Recorded(b)
    {
      for k := 0 to |logs|
        invariant UniqueIds(rows) && Grew()
        invariant forall j :: 0 <= j < k ==> HasId(rows, logs[j].withdrawalId)
      {
        var ok := IngestOne(logs, from, last, k, fails);
        if !ok {
          RecordedBelow(logs, from, last, k, logs[k].block);
          return Some(logs[k]);
        }
      }
      RecordedBelow(logs, from, last, |logs|, last + 1);
      failed := None;
    }

    /** A log in the window is a log of one of its blocks. */
    lemma WindowHolds(logs: seq<Log>, from: nat, last: nat, k: nat)
      requires WellFormed() && multiset(logs) == multiset(Between(final, from, last)) && k < |logs|
      ensures from <= logs[k].block <= last && forall row :: Tells(row, logs[k]) ==> FromChain(row)
    {
      assert logs[k] in multiset(logs);
      InBetween(final, from, last, logs[k]);
      var b: nat :| from <= b <= last && logs[k] in final(b);
      var j :| 0 <= j < |final(b)| && final(b)[j] == logs[k];
    }

    /** Once the first k logs in order are recorded, so is every block below the next one. */
    lemma RecordedBelow(logs: seq<Log>, from: nat, last: nat, k: nat, bound: nat)
      requires WellFormed() && InOrder(logs) && multiset(logs) == multiset(Between(final, from, last)) && k <= |logs|
      requires forall j :: 0 <= j < k ==> HasId(rows, logs[j].withdrawalId)
      requires bound <= last + 1 && forall j :: k <= j < |logs| ==> logs[j].block >= bound
      ensures forall b: nat :: from <= b < bound ==> Recorded(b)
    {
      forall b: nat, n: nat | from <= b < bound && n < |final(b)| ensures HasId(rows, final(b)[n].withdrawalId) {
        BetweenHas(final, from, last, b, final(b)[n]);
        assert final(b)[n] in multiset(logs);
        var j :| 0 <= j < |logs| && logs[j] == final(b)[n];
        assert logs[j].block == b;
      }
    }

    /** One step of the sweep: a whole window, or up to just below the first event that failed. */
    method ScanWindow(windowStart: nat, windowEnd: nat, fromBlock: nat, calls: Calls, fails: Log -> bool) returns (r: ScanResult)
      requires WellFormed() && NoGap() && windowStart == lastBlock + 1 && fromBlock <= windowStart <= windowEnd < windowStart + chunk
      modifies this`rows, this`lastBlock, this`halt
      ensures NoGap() && Grew() && old(lastBlock) <= lastBlock <= windowEnd
      ensures r.Clean? ==> lastBlock == windowEnd && halt == old(halt) && calls.fetched && calls.saved
      ensures r.Halted? ==>
        && windowStart <= r.log.block <= windowEnd && lastBlock == r.log.block - 1 && Counted(old(halt), r.log, halt) && fails(r.log)
      ensures r.Failed? ==> !(calls.fetched && calls.noted && calls.saved) && lastBlock == old(lastBlock)
      ensures !calls.fetched ==> r.Failed? && rows == old(rows) && halt == old(halt)
      ensures lastBlock > old(lastBlock) ==> calls.saved
    {
      var fetched, logs := GetLogs(windowStart, windowEnd, calls.fetched);
      if !fetched { return Failed; }
      var sorted := SortLogs(logs);
      var failed := IngestWindow(sorted, windowStart, windowEnd, fails);
      GrewKeeps();
      if failed.Some? {
        var log := failed.value;
        var noted := RecordScanHalt(log.block, log.withdrawalId, calls.noted);
        if !noted { return Failed; }
        if log.block - 1 >= fromBlock {
          if !calls.saved { return Failed; }
          lastBlock := log.block - 1;
        }
        return Halted(log);
      }
      if !calls.saved { return Failed; }
      lastBlock := windowEnd;
      r := Clean;
    }

    /** How many scans in a row have halted at this block. */
    static predicate Counted(before: Option<Halt>, log: Log, after: Option<Halt>) {
      after == Some(Halt(log.block, if before.Some? && before.value.block == log.block then before.value.count + 1 else 1, log.withdrawalId))
    }

    /**
     * Scan everything that is deep enough, window by window. Whatever fails, no event is skipped or recorded
     * twice, and the watermark neither falls nor passes the safe tip; a clean sweep ends exactly there. calls: what
     * gets through while the window from that block is scanned. It halts only at an event that could not be recorded
     * and fails only when a call did.
     */
    method ProcessNewWithdrawals(currentBlock: nat, calls: nat -> Calls, fails: Log -> bool) returns (r: ScanResult)
      requires WellFormed() && NoGap() && Recounted()
      modifies this`rows, this`lastBlock, this`halt
      ensures NoGap() && Recounted() && Grew()
      ensures old(lastBlock) <= lastBlock && (lastBlock > old(lastBlock) ==> lastBlock + confirmationDepth <= currentBlock)
      ensures r.Clean? && old(lastBlock) + confirmationDepth < currentBlock ==>
        lastBlock + confirmationDepth == currentBlock && halt.None? && calls(lastBlock + 1).saved
      ensures old(lastBlock) + confirmationDepth >= currentBlock ==> r.Clean? && lastBlock == old(lastBlock) && halt == old(halt)
      ensures r.Halted? ==> lastBlock == r.log.block - 1 && Counted(old(halt), r.log, halt) && fails(r.log)
      ensures r.Failed? ==>
        exists windowStart :: old(lastBlock) < windowStart <= currentBlock + 1 && calls(windowStart) != Calls(true, true, true)
    {
      var fromBlock := lastBlock + 1;
      var safeTip := currentBlock - confirmationDepth;
      if fromBlock > safeTip { return Clean; }
      var windowStart := fromBlock;
      while windowStart <= safeTip
        invariant NoGap() && Grew() && windowStart == lastBlock + 1 && fromBlock <= windowStart <= safeTip + 1
        invariant halt == old(halt)
        decreases safeTip + 1 - windowStart
      {
        var candidateEnd := windowStart + chunk - 1;
        var windowEnd := if candidateEnd < safeTip then candidateEnd else safeTip;
        r := ScanWindow(windowStart, windowEnd, fromBlock, calls(windowStart), fails);
        if !r.Clean? {
          GrewKeeps();
          return;
        }
        windowStart := windowEnd + 1;
      }
      GrewKeeps();
      if !calls(windowStart).saved { return Failed; }
      halt := None;
      r := Clean;
    }

    // ── Recount ────────────────────────────────────────────────────────────

    /** Record what the table does not have; the ids it has are read once for the window. */
    method RecordMissing(logs: seq<Log>, from: nat, upTo: nat, fails: Log -> bool) returns (ok: bool, missing: seq<nat>)
      requires WellFormed() && UniqueIds(rows) && multiset(logs) == multiset(Between(final, from, upTo))
      modifies this`rows
      ensures UniqueIds(rows) && Grew() && (!ok ==> exists log :: fails(log))
      ensures ok ==> forall b: nat :: from <= b <= upTo ==> Recorded(b)
      ensures ok ==> forall k :: 0 <= k < |logs| && !HasId(old(rows), logs[k].withdrawalId) ==> logs[k].withdrawalId in missing
    {
      var have := rows;
      missing := [];
      for k := 0 to |logs|
        invariant UniqueIds(rows) && Grew()
        invariant forall j :: 0 <= j < k ==> HasId(rows, logs[j].withdrawalId)
        invariant forall j :: 0 <= j < k && !HasId(old(rows), logs[j].withdrawalId) ==> logs[j].withdrawalId in missing
      {
        if HasId(have, logs[k].withdrawalId) {
          GrewKeeps();
        } else {
          missing := missing + [logs[k].withdrawalId];
          ok := IngestOne(logs, from, upTo, k, fails);
          if !ok { return; }
        }
      }
      AllRecorded(logs, from, upTo);
      ok := true;
    }

    lemma AllRecorded(logs: seq<Log>, from: nat, upTo: nat)
      requires WellFormed() && multiset(logs) == multiset(Between(final, from, upTo))
      requires forall j :: 0 <= j < |logs| ==> HasId(rows, logs[j].withdrawalId)
      ensures forall b: nat :: from <= b <= upTo ==> Recorded(b)
    {
      forall b: nat, n: nat | from <= b <= upTo && n < |final(b)| ensures HasId(rows, final(b)[n].withdrawalId) {
        BetweenHas(final, from, upTo, b, final(b)[n]);
        assert final(b)[n] in multiset(logs);
        var j :| 0 <= j < |logs| && logs[j] == final(b)[n];
      }
    }

    /**
     * Re-read from the start block with a cursor of its own. Whatever fails, everything below that cursor is
     * recorded, even when the watermark was moved by hand; and the cursor stays at or below watermark and safe tip.
     */
    method Recount(tipBlock: nat, up: nat -> bool, fails: Log -> bool) returns (done: bool)
      requires WellFormed() && UniqueIds(rows) && Recounted()
      modifies this`rows, this`recountCursor
      ensures UniqueIds(rows) && Recounted() && Grew()
      ensures recountCursor != old(recountCursor) ==>
        recountCursor.Some? && recountCursor.value <= lastBlock + 1 && recountCursor.value + confirmationDepth <= tipBlock + 1
      ensures !done ==> (exists b :: !up(b)) || exists log :: fails(log)
      ensures done ==> forall b: nat :: startBlock <= b <= lastBlock && b + confirmationDepth <= tipBlock ==> Recorded(b)
    {
      var tip := tipBlock - confirmationDepth;
      var end := if lastBlock < tip then lastBlock else tip;
      var from := if recountCursor.Some? then recountCursor.value else startBlock;
      while from <= end
        invariant UniqueIds(rows) && Recounted() && Grew()
        invariant recountCursor == old(recountCursor) || (recountCursor == Some(from) && from <= end + 1)
        invariant from == if recountCursor.Some? then recountCursor.value else startBlock
        decreases end + 1 - from
      {
        var upTo := if from + chunk - 1 < end then from + chunk - 1 else end;
        var fetched, logs := GetLogs(from, upTo, up(from));
        if !fetched { return false; }
        label Before:
        var ok, missing := RecordMissing(logs, from, upTo, fails);
        GrewKeeps@Before();
        if !ok { return false; }
        recountCursor := Some(upTo + 1);
        from := upTo + 1;
      }
      done := true;
    }
  }

  lemma {:induction false} InBetween(final: nat -> seq<Log>, from: nat, last: int, x: Log)
    requires x in Between(final, from, last)
    ensures exists b: nat :: from <= b <= last && x in final(b)
    decreases last
  {
    if x !in final(last) { InBetween(final, from, last - 1, x); }
  }

  lemma {:induction false} BetweenHas(final: nat -> seq<Log>, from: nat, last: int, b: nat, x: Log)
    requires from <= b <= last && x in final(b)
    ensures x in Between(final, from, last)
    decreases last
  {
    if b < last { BetweenHas(final, from, last - 1, b, x); }
  }
}
