/** Re-reading a burn before its payout is signed (backend/src/gnosis/burn-verifier.ts). */
module BurnVerifier {
  import opened Coins
  import opened Destination
  import Scanner = GnosisScanner

  datatype BurnClaim = BurnClaim(withdrawalId: nat, burnTxHash: Option<string>, sender: nat, amountSat: nat, destination: string)

  /** A log of the receipt; event: what decoding it as WithdrawalRequested gives, if it does. */
  datatype ReceiptLog = ReceiptLog(fromController: bool, event: Option<BurnEvent>)
  datatype BurnEvent = BurnEvent(withdrawalId: nat, sender: nat, amountSat: nat, destination: Raw)

  datatype Receipt = Receipt(success: bool, blockNumber: int, logs: seq<ReceiptLog>)
  datatype NodeReply = Reply(receipt: Receipt, tip: int) | NotFound | Unreachable

  datatype Verdict = Ok | Defer | No

  predicate IsHex(c: char) {
    '0' <= c <= '9' || 'a' <= c <= 'f' || 'A' <= c <= 'F'
  }

  predicate IsTxHash(s: string) {
    |s| == 66 && s[..2] == "0x" && forall k :: 2 <= k < 66 ==> IsHex(s[k])
  }

  predicate IsMatch(log: ReceiptLog, id: nat) {
    log.fromController && log.event.Some? && log.event.value.withdrawalId == id
  }

  /** The withdrawal events of the controller with this id among the first k logs. */
  function MatchesTo(logs: seq<ReceiptLog>, id: nat, k: nat): seq<BurnEvent>
    requires k <= |logs|
  {
    if k == 0 then []
    else MatchesTo(logs, id, k - 1) + if IsMatch(logs[k - 1], id) then [logs[k - 1].event.value] else []
  }

  /** The receipt holds exactly one log of this withdrawal, at place n. */
  predicate OnlyAt(logs: seq<ReceiptLog>, id: nat, n: int) {
    0 <= n < |logs| && IsMatch(logs[n], id) && forall j :: 0 <= j < |logs| && IsMatch(logs[j], id) ==> j == n
  }

  lemma {:induction false} NoMatch(logs: seq<ReceiptLog>, id: nat, k: nat)
    requires k <= |logs|
    ensures MatchesTo(logs, id, k) == [] <==> forall j :: 0 <= j < k ==> !IsMatch(logs[j], id)
  {
    if k > 0 { NoMatch(logs, id, k - 1); }
  }

  lemma {:induction false} OneMatch(logs: seq<ReceiptLog>, id: nat, k: nat)
    requires k <= |logs|
    ensures |MatchesTo(logs, id, k)| == 1 <==>
      exists n :: 0 <= n < k && IsMatch(logs[n], id) && forall j :: 0 <= j < k && IsMatch(logs[j], id) ==> j == n
    ensures forall n :: 0 <= n < k && IsMatch(logs[n], id) && |MatchesTo(logs, id, k)| == 1 ==> MatchesTo(logs, id, k)[0] == logs[n].event.value
  {
    if k > 0 {
      OneMatch(logs, id, k - 1);
      NoMatch(logs, id, k - 1);
    }
  }

  lemma SingleLog(logs: seq<ReceiptLog>, id: nat)
    ensures |MatchesTo(logs, id, |logs|)| == 1 <==> exists n :: OnlyAt(logs, id, n)
    ensures forall n :: OnlyAt(logs, id, n) ==> |MatchesTo(logs, id, |logs|)| == 1 && MatchesTo(logs, id, |logs|)[0] == logs[n].event.value
  {
    OneMatch(logs, id, |logs|);
    if |MatchesTo(logs, id, |logs|)| == 1 {
      var n :| 0 <= n < |logs| && IsMatch(logs[n], id) && forall j :: 0 <= j < |logs| && IsMatch(logs[j], id) ==> j == n;
      assert OnlyAt(logs, id, n);
    }
  }

  /** The one log says what is about to be paid, and to whom, as ingest stores it. */
  predicate Backs(e: BurnEvent, c: BurnClaim) {
    e.sender == c.sender && e.amountSat == c.amountSat && Sanitize(e.destination).value == c.destination
  }

  /** What the node's answer has to be for a payout to be signed. */
  ghost predicate Proven(c: BurnClaim, reply: NodeReply) {
    && c.burnTxHash.Some? && IsTxHash(c.burnTxHash.value) && reply.Reply? && reply.receipt.success
    && exists n :: OnlyAt(reply.receipt.logs, c.withdrawalId, n) && Backs(reply.receipt.logs[n].event.value, c)
  }

  predicate Unanswered(c: BurnClaim, reply: NodeReply) {
    c.burnTxHash.Some? && IsTxHash(c.burnTxHash.value) && reply.Unreachable?
  }

  predicate DeepEnough(reply: NodeReply, confirmationDepth: nat)
    requires reply.Reply?
  {
    reply.tip - reply.receipt.blockNumber + 1 >= confirmationDepth
  }

  /** "0x" and 64 hexadecimal digits. */
  method MatchTxHash(s: string) returns (isHash: bool)
    ensures isHash <==> IsTxHash(s)
  {
    if |s| != 66 || s[0] != '0' || s[1] != 'x' { return false; }
    assert s[..2] == "0x";
    for k := 2 to 66
      invariant forall j :: 2 <= j < k ==> IsHex(s[j])
    {
      if !('0' <= s[k] <= '9' || 'a' <= s[k] <= 'f' || 'A' <= s[k] <= 'F') { return false; }
    }
    isHash := true;
  }

  /**
   * Pay only on exactly one matching log that says exactly what is being paid, deep enough; wait when the node
   * cannot be reached or the burn is young; refuse everything else.
   */
  method Verify(c: BurnClaim, reply: NodeReply, confirmationDepth: nat) returns (v: Verdict)
    ensures v.Ok? <==> Proven(c, reply) && DeepEnough(reply, confirmationDepth)
    ensures v.Defer? <==> Unanswered(c, reply) || (Proven(c, reply) && !DeepEnough(reply, confirmationDepth))
  {
    if c.burnTxHash.None? { return No; }
    var isHash := MatchTxHash(c.burnTxHash.value);
    if !isHash || reply.NotFound? { return No; }
    if reply.Unreachable? { return Defer; }
    var rc := reply.receipt;
    if !rc.success { return No; }
    var matches: seq<BurnEvent> := [];
    for k := 0 to |rc.logs|
      invariant matches == MatchesTo(rc.logs, c.withdrawalId, k)
    {
      if !rc.logs[k].fromController { continue; }
      if rc.logs[k].event.None? { continue; }
      if rc.logs[k].event.value.withdrawalId != c.withdrawalId { continue; }
      matches := matches + [rc.logs[k].event.value];
    }
    SingleLog(rc.logs, c.withdrawalId);
    if |matches| != 1 { return No; }
    var m := matches[0];
    if m.sender != c.sender || m.amountSat != c.amountSat || Sanitize(m.destination).value != c.destination { return No; }
    if reply.tip - rc.blockNumber + 1 < confirmationDepth { return Defer; }
    v := Ok;
  }

  /** The claim a stored withdrawal makes. */
  function ClaimOf(row: Scanner.Row): BurnClaim {
    BurnClaim(row.withdrawalId, Some(row.txHash), row.sender, row.amountSat, row.destination)
  }

  function EventOf(log: Scanner.Log): BurnEvent {
    BurnEvent(log.withdrawalId, log.sender, log.amountSat, log.destination)
  }

  /** The receipt under this hash is of the transaction that emitted the log, and in the block of the log. */
  predicate Emitted(log: Scanner.Log, receipt: Receipt, n: int) {
    && IsTxHash(log.txHash) && receipt.success && receipt.blockNumber == log.block
    && OnlyAt(receipt.logs, log.withdrawalId, n) && receipt.logs[n].event == Some(EventOf(log))
  }

  /**
   * What ingest stores is what verification asks for: the row of an honest burn leads to its receipt, is proven by it
   * whatever the destination bytes, and knows how deep it is.
   */
  lemma IngestedBurnIsProven(row: Scanner.Row, log: Scanner.Log, chain: string -> NodeReply, n: int, confirmationDepth: nat)
    requires Scanner.Tells(row, log) && chain(log.txHash).Reply? && Emitted(log, chain(log.txHash).receipt, n)
    ensures var claim := ClaimOf(row);
      var reply := chain(claim.burnTxHash.value);
      Proven(claim, reply) && (DeepEnough(reply, confirmationDepth) <==> reply.tip - row.block + 1 >= confirmationDepth)
  {
    assert Backs(chain(log.txHash).receipt.logs[n].event.value, ClaimOf(row));
  }

  /** A proven claim names the burn: two claims proven by one receipt for one withdrawal id are the same payment. */
  lemma ProofNamesTheBurn(c: BurnClaim, d: BurnClaim, reply: NodeReply)
    requires Proven(c, reply) && Proven(d, reply) && c.withdrawalId == d.withdrawalId
    ensures c.sender == d.sender && c.amountSat == d.amountSat && c.destination == d.destination
  {
    var n :| OnlyAt(reply.receipt.logs, c.withdrawalId, n) && Backs(reply.receipt.logs[n].event.value, c);
    var m :| OnlyAt(reply.receipt.logs, d.withdrawalId, m) && Backs(reply.receipt.logs[m].event.value, d);
    assert m == n;
  }

  /** A proven claim made from a destination of at most 64 bytes pays the very bytes that were burned with. */
  lemma ProvenDestination(row: Scanner.Row, log: Scanner.Log, reply: NodeReply, n: int)
    requires Scanner.Tells(row, log) && Proven(ClaimOf(row), reply) && OnlyAt(reply.receipt.logs, log.withdrawalId, n)
    requires log.destination.Text? && |log.destination.utf8| <= MAX_HEX_BYTES
    ensures reply.receipt.logs[n].event.value.destination == log.destination
  {
    var m :| OnlyAt(reply.receipt.logs, log.withdrawalId, m) && Backs(reply.receipt.logs[m].event.value, ClaimOf(row));
    StoredValueDetermines(log.destination, reply.receipt.logs[m].event.value.destination);
  }
}
