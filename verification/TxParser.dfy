/**
 * Reading the outpoints a serialised legacy transaction spends
 * (txInputsFromRawHex, backend/src/dobbscoin/tx-builder.ts), both with the cursor
 * advance line 84 means and with the one it performs.
 */
module TxParser {
  import opened Radix

  datatype Outpoint = Outpoint(txid: seq<Byte>, vout: nat)   // txid in display order

  datatype Error = Truncated | NoInputs | VarintTooLarge | OutOfRange
  datatype Result<T> = Ok(value: T) | Err(error: Error)

  // ── The wire format ──────────────────────────────────────────────────────

  datatype TxIn = TxIn(txid: seq<Byte>, vout: nat, script: seq<Byte>, sequence: seq<Byte>)
  {
    predicate WellFormed() {
      |txid| == 32 && vout < 0x1_0000_0000 && |script| < 0x1_0000_0000 && |sequence| == 4
    }
  }

  /** tail: the outputs and the lock time, which the parser never reaches. */
  datatype Tx = Tx(version: seq<Byte>, ins: seq<TxIn>, tail: seq<Byte>)
  {
    predicate WellFormed() {
      |version| == 4 && |ins| < 0x1_0000_0000 && forall i :: 0 <= i < |ins| ==> ins[i].WellFormed()
    }
  }

  function Reverse(s: seq<Byte>): (r: seq<Byte>)
    ensures |r| == |s| && forall k :: 0 <= k < |s| ==> r[k] == s[|s| - 1 - k]
  {
    seq(|s|, k requires 0 <= k < |s| => s[|s| - 1 - k])
  }

  function LE2(n: nat): seq<Byte>
    requires n < 0x1_0000
  {
    [n % 256, n / 256]
  }

  function LE4(n: nat): seq<Byte>
    requires n < 0x1_0000_0000
  {
    LE2(n % 0x1_0000) + LE2(n / 0x1_0000)
  }

  function VarInt(n: nat): (s: seq<Byte>)
    requires n < 0x1_0000_0000
    ensures |s| == if n < 0xfd then 1 else if n < 0x1_0000 then 3 else 5
  {
    if n < 0xfd then [n] else if n < 0x1_0000 then [0xfd] + LE2(n) else [0xfe] + LE4(n)
  }

  function SerializeIn(t: TxIn): seq<Byte>
    requires t.WellFormed()
  {
    Reverse(t.txid) + LE4(t.vout) + (VarInt(|t.script|) + t.script + t.sequence)
  }

  function SerializeIns(ins: seq<TxIn>): seq<Byte>
    requires forall i :: 0 <= i < |ins| ==> ins[i].WellFormed()
  {
    if ins == [] then [] else SerializeIn(ins[0]) + SerializeIns(ins[1..])
  }

  function Serialize(tx: Tx): seq<Byte>
    requires tx.WellFormed()
  {
    tx.version + VarInt(|tx.ins|) + SerializeIns(tx.ins) + tx.tail
  }

  function Outpoints(ins: seq<TxIn>): (r: seq<Outpoint>)
    ensures |r| == |ins|
  {
    if ins == [] then [] else [Outpoint(ins[0].txid, ins[0].vout)] + Outpoints(ins[1..])
  }

  // ── The parser ───────────────────────────────────────────────────────────

  function U16(b: seq<Byte>, o: nat): nat
    requires o + 2 <= |b|
  {
    var lo: nat, hi: nat := b[o], b[o + 1];
    lo + 256 * hi
  }

  function U32(b: seq<Byte>, o: nat): nat
    requires o + 4 <= |b|
  {
    U16(b, o) + 0x1_0000 * U16(b, o + 2)
  }

  datatype VarRead = VarRead(value: nat, next: nat)

  function ReadVarint(b: seq<Byte>, o: nat): Result<VarRead> {
    if o >= |b| then Err(VarintTooLarge)   // an undefined byte fails all three comparisons
    else if b[o] < 0xfd then Ok(VarRead(b[o], o + 1))
    else if b[o] == 0xfd then if o + 3 <= |b| then Ok(VarRead(U16(b, o + 1), o + 3)) else Err(OutOfRange)
    else if b[o] == 0xfe then if o + 5 <= |b| then Ok(VarRead(U32(b, o + 1), o + 5)) else Err(OutOfRange)
    else Err(VarintTooLarge)
  }

  /** Intended: past the length bytes too. AsWritten: `o +=` reads o before varint() moves it. */
  datatype Advance = Intended | AsWritten

  function ScriptEnd(b: seq<Byte>, o: nat, adv: Advance): Result<nat> {
    match ReadVarint(b, o)
    case Ok(v) => Ok((if adv.Intended? then v.next else o) + v.value + 4)
    case Err(e) => Err(e)
  }

  function OutpointAt(b: seq<Byte>, o: nat): Outpoint
    requires o + 36 <= |b|
  {
    Outpoint(Reverse(b[o..o + 32]), U32(b, o + 32))
  }

  function Prepend(p: Outpoint, r: Result<seq<Outpoint>>): Result<seq<Outpoint>> {
    match r
    case Err(e) => Err(e)
    case Ok(rest) => Ok([p] + rest)
  }

  function ParseIns(b: seq<Byte>, o: nat, n: nat, adv: Advance): Result<seq<Outpoint>>
    decreases n
  {
    if n == 0 then Ok([])
    else if o + 36 > |b| then Err(Truncated)
    else match ScriptEnd(b, o + 36, adv)
      case Err(e) => Err(e)
      case Ok(next) => Prepend(OutpointAt(b, o), ParseIns(b, next, n - 1, adv))
  }

  function Parse(b: seq<Byte>, adv: Advance): Result<seq<Outpoint>> {
    match ReadVarint(b, 4)
    case Err(e) => Err(e)
    case Ok(v) => if v.value == 0 then Err(NoInputs) else ParseIns(b, v.next, v.value, adv)
  }

  /** The loop of the source. */
  method TxInputsFromRaw(b: seq<Byte>) returns (r: Result<seq<Outpoint>>)
    ensures r == Parse(b, AsWritten)
  {
    var count := ReadVarint(b, 4);
    if count.Err? { return Err(count.error); }
    var n: nat, o: nat := count.value.value, count.value.next;
    if n == 0 { return Err(NoInputs); }
    var ins: seq<Outpoint> := [];
    JoinEmpty(ParseIns(b, o, n, AsWritten));
    for i := 0 to n
      invariant Parse(b, AsWritten) == Join(ins, ParseIns(b, o, n - i, AsWritten))
    {
      if o + 36 > |b| { return Err(Truncated); }
      var read := OutpointAt(b, o);
      o := o + 36;
      var script := ReadVarint(b, o);
      if script.Err? { return Err(script.error); }
      o := o + script.value.value + 4;
      JoinPrepend(ins, read, ParseIns(b, o, n - i - 1, AsWritten));
      ins := ins + [read];
    }
    assert ins + [] == ins;
    r := Ok(ins);
  }

  function Join(got: seq<Outpoint>, r: Result<seq<Outpoint>>): Result<seq<Outpoint>> {
    match r
    case Err(e) => Err(e)
    case Ok(rest) => Ok(got + rest)
  }

  lemma JoinEmpty(r: Result<seq<Outpoint>>)
    ensures Join([], r) == r
  {
    assert r.Ok? ==> [] + r.value == r.value;
  }

  lemma JoinPrepend(got: seq<Outpoint>, p: Outpoint, r: Result<seq<Outpoint>>)
    ensures Join(got, Prepend(p, r)) == Join(got + [p], r)
  {
    assert r.Ok? ==> got + ([p] + r.value) == got + [p] + r.value;
  }

  // ── Reading back what was written ────────────────────────────────────────

  /** The bytes s stand in b at offset o. */
  predicate At(b: seq<Byte>, o: nat, s: seq<Byte>) {
    o + |s| <= |b| && forall k {:trigger s[k]} :: 0 <= k < |s| ==> b[o + k] == s[k]
  }

  lemma AtSplit(b: seq<Byte>, o: nat, s: seq<Byte>, t: seq<Byte>)
    requires At(b, o, s + t)
    ensures At(b, o, s) && At(b, o + |s|, t)
  {
    forall k | 0 <= k < |s| ensures b[o + k] == s[k] { assert (s + t)[k] == s[k]; }
    forall k | 0 <= k < |t| ensures b[o + |s| + k] == t[k] { assert (s + t)[|s| + k] == t[k]; }
  }

  lemma AtSlice(b: seq<Byte>, o: nat, s: seq<Byte>)
    requires o + |s| <= |b|
    ensures At(b, o, s) <==> b[o..o + |s|] == s
  {
    if b[o..o + |s|] == s {
      forall k | 0 <= k < |s| ensures b[o + k] == s[k] { assert b[o..o + |s|][k] == s[k]; }
    }
  }

  lemma AtIndex(b: seq<Byte>, o: nat, s: seq<Byte>, k: nat)
    requires At(b, o, s) && k < |s|
    ensures b[o + k] == s[k]
  {
  }

  lemma U16At(b: seq<Byte>, o: nat, n: nat)
    requires n < 0x1_0000 && At(b, o, LE2(n))
    ensures U16(b, o) == n
  {
    AtIndex(b, o, LE2(n), 0);
    AtIndex(b, o, LE2(n), 1);
  }

  lemma U32At(b: seq<Byte>, o: nat, n: nat)
    requires n < 0x1_0000_0000 && At(b, o, LE4(n))
    ensures U32(b, o) == n
  {
    AtSplit(b, o, LE2(n % 0x1_0000), LE2(n / 0x1_0000));
    U16At(b, o, n % 0x1_0000);
    U16At(b, o + 2, n / 0x1_0000);
  }

  lemma VarIntAt(b: seq<Byte>, o: nat, n: nat)
    requires n < 0x1_0000_0000 && At(b, o, VarInt(n))
    ensures ReadVarint(b, o) == Ok(VarRead(n, o + |VarInt(n)|))
  {
    AtIndex(b, o, VarInt(n), 0);
    if 0xfd <= n < 0x1_0000 {
      AtSplit(b, o, [0xfd], LE2(n));
      U16At(b, o + 1, n);
    } else if n >= 0x1_0000 {
      AtSplit(b, o, [0xfe], LE4(n));
      U32At(b, o + 1, n);
    }
  }

  lemma InputAt(b: seq<Byte>, o: nat, t: TxIn)
    requires t.WellFormed() && At(b, o, SerializeIn(t))
    ensures o + 36 <= |b| && OutpointAt(b, o) == Outpoint(t.txid, t.vout)
    ensures At(b, o, Reverse(t.txid)) && At(b, o + 32, LE4(t.vout)) && At(b, o + 36, VarInt(|t.script|))
    ensures At(b, o + |SerializeIn(t)| - 4, t.sequence)
    ensures ScriptEnd(b, o + 36, Intended) == Ok(o + |SerializeIn(t)|)
    ensures ScriptEnd(b, o + 36, AsWritten) == Ok(o + |SerializeIn(t)| - |VarInt(|t.script|)|)
  {
    var id, rest := Reverse(t.txid), VarInt(|t.script|) + t.script + t.sequence;
    AtSplit(b, o, id + LE4(t.vout), rest);
    AtSplit(b, o, id, LE4(t.vout));
    AtSplit(b, o + 36, VarInt(|t.script|) + t.script, t.sequence);
    AtSplit(b, o + 36, VarInt(|t.script|), t.script);
    U32At(b, o + 32, t.vout);
    VarIntAt(b, o + 36, |t.script|);
    AtSlice(b, o, id);
    assert Reverse(Reverse(t.txid)) == t.txid;
  }

  lemma InputEnds(b: seq<Byte>, o: nat, t: TxIn)
    requires t.WellFormed() && At(b, o, SerializeIn(t))
    ensures |SerializeIn(t)| >= 41
    ensures At(b, o + |SerializeIn(t)| - 4, t.sequence)
  {
    InputAt(b, o, t);
  }

  /** How far short of the next input the cursor lands. */
  function Shortfall(t: TxIn, adv: Advance): nat
    requires t.WellFormed()
  {
    if adv.Intended? then 0 else |VarInt(|t.script|)|
  }

  /** One round of the loop over a serialised input. */
  lemma Round(b: seq<Byte>, o: nat, t: TxIn, n: nat, adv: Advance)
    requires t.WellFormed() && n > 0 && At(b, o, SerializeIn(t))
    ensures |SerializeIn(t)| >= 41
    ensures ParseIns(b, o, n, adv) ==
            Prepend(Outpoint(t.txid, t.vout), ParseIns(b, o + |SerializeIn(t)| - Shortfall(t, adv), n - 1, adv))
  {
    InputAt(b, o, t);
  }

  function FirstAt(tx: Tx): nat
    requires tx.WellFormed()
  {
    4 + |VarInt(|tx.ins|)|
  }

  lemma InputsAt(tx: Tx)
    requires tx.WellFormed()
    ensures At(Serialize(tx), FirstAt(tx), SerializeIns(tx.ins))
    ensures ReadVarint(Serialize(tx), 4) == Ok(VarRead(|tx.ins|, FirstAt(tx)))
  {
    var b, head, ins := Serialize(tx), tx.version + VarInt(|tx.ins|), SerializeIns(tx.ins);
    AtSlice(b, 0, head + ins + tx.tail);
    AtSplit(b, 0, head + ins, tx.tail);
    AtSplit(b, 0, head, ins);
    AtSplit(b, 0, tx.version, VarInt(|tx.ins|));
    VarIntAt(b, 4, |tx.ins|);
  }

  lemma ParseStart(tx: Tx, adv: Advance)
    requires tx.WellFormed()
    ensures Parse(Serialize(tx), adv) ==
            if tx.ins == [] then Err(NoInputs) else ParseIns(Serialize(tx), FirstAt(tx), |tx.ins|, adv)
  {
    InputsAt(tx);
  }

  lemma SplitIns(b: seq<Byte>, o: nat, ins: seq<TxIn>)
    requires ins != [] && forall i :: 0 <= i < |ins| ==> ins[i].WellFormed()
    requires At(b, o, SerializeIns(ins))
    ensures At(b, o, SerializeIn(ins[0])) && At(b, o + |SerializeIn(ins[0])|, SerializeIns(ins[1..]))
  {
    AtSplit(b, o, SerializeIn(ins[0]), SerializeIns(ins[1..]));
  }

  lemma {:induction false} IntendedIns(b: seq<Byte>, o: nat, ins: seq<TxIn>)
    requires forall i :: 0 <= i < |ins| ==> ins[i].WellFormed()
    requires At(b, o, SerializeIns(ins))
    decreases |ins|
    ensures ParseIns(b, o, |ins|, Intended) == Ok(Outpoints(ins))
  {
    if ins != [] {
      SplitIns(b, o, ins);
      Round(b, o, ins[0], |ins|, Intended);
      IntendedIns(b, o + |SerializeIn(ins[0])|, ins[1..]);
    }
  }

  /** With the intended advance the parser inverts serialisation, for every input count and script length. */
  lemma IntendedInverts(tx: Tx)
    requires tx.WellFormed()
    ensures Parse(Serialize(tx), Intended) == if tx.ins == [] then Err(NoInputs) else Ok(Outpoints(tx.ins))
  {
    InputsAt(tx);
    ParseStart(tx, Intended);
    IntendedIns(Serialize(tx), FirstAt(tx), tx.ins);
  }

  // ── Line 84 as written ───────────────────────────────────────────────────

  /** The last round: where the cursor ends up no longer matters. */
  lemma LastRound(b: seq<Byte>, o: nat, adv: Advance)
    requires o + 36 <= |b|
    ensures ParseIns(b, o, 1, adv) ==
            if ReadVarint(b, o + 36).Ok? then Ok([OutpointAt(b, o)]) else Err(ReadVarint(b, o + 36).error)
  {
    if ReadVarint(b, o + 36).Ok? {
      assert ParseIns(b, ScriptEnd(b, o + 36, adv).value, 0, adv) == Ok([]);
      assert [OutpointAt(b, o)] + [] == [OutpointAt(b, o)];
    }
  }

  lemma AsWrittenOneInput(tx: Tx)
    requires tx.WellFormed() && |tx.ins| == 1
    ensures Parse(Serialize(tx), AsWritten) == Ok(Outpoints(tx.ins))
  {
    assert Outpoints(tx.ins) == [Outpoint(tx.ins[0].txid, tx.ins[0].vout)];
    var b, o := Serialize(tx), FirstAt(tx);
    InputsAt(tx);
    ParseStart(tx, AsWritten);
    SplitIns(b, o, tx.ins);
    InputAt(b, o, tx.ins[0]);
    LastRound(b, o, AsWritten);
  }

  /** Where the second input starts. */
  function SecondAt(tx: Tx): nat
    requires tx.WellFormed() && |tx.ins| >= 2
  {
    FirstAt(tx) + |SerializeIn(tx.ins[0])|
  }

  /** The second outpoint cannot be told from the 36 bytes that start one length field earlier. */
  predicate SecondBlurred(tx: Tx)
    requires tx.WellFormed() && |tx.ins| >= 2
  {
    var b, p, k := Serialize(tx), SecondAt(tx), |VarInt(|tx.ins[0].script|)|;
    At(b, p - k, Reverse(tx.ins[1].txid) + LE4(tx.ins[1].vout))
  }

  lemma U32Bytes(b: seq<Byte>, o: nat, n: nat)
    requires o + 4 <= |b| && n < 0x1_0000_0000
    requires U32(b, o) == n
    ensures At(b, o, LE4(n))
  {
    var lo, hi := U16(b, o), U16(b, o + 2);
    assert lo == n % 0x1_0000 && hi == n / 0x1_0000;
    assert b[o..o + 4] == [b[o], b[o + 1], b[o + 2], b[o + 3]];
    assert LE4(n) == [lo % 256, lo / 256, hi % 256, hi / 256];
  }

  lemma OutpointBytes(b: seq<Byte>, o: nat, t: TxIn)
    requires o + 36 <= |b| && t.WellFormed()
    ensures OutpointAt(b, o) == Outpoint(t.txid, t.vout) <==> At(b, o, Reverse(t.txid) + LE4(t.vout))
  {
    if OutpointAt(b, o) == Outpoint(t.txid, t.vout) {
      U32Bytes(b, o + 32, t.vout);
      assert Reverse(Reverse(b[o..o + 32])) == b[o..o + 32];
      AtSlice(b, o + 32, LE4(t.vout));
      assert b[o..o + 36] == b[o..o + 32] + b[o + 32..o + 36];
      AtSlice(b, o, Reverse(t.txid) + LE4(t.vout));
    }
    if At(b, o, Reverse(t.txid) + LE4(t.vout)) {
      AtSplit(b, o, Reverse(t.txid), LE4(t.vout));
      U32At(b, o + 32, t.vout);
      AtSlice(b, o, Reverse(t.txid));
      assert Reverse(Reverse(t.txid)) == t.txid;
    }
  }

  lemma SecondLayout(tx: Tx)
    requires tx.WellFormed() && |tx.ins| >= 2
    ensures var b, p := Serialize(tx), SecondAt(tx);
      && p + 41 <= |b|
      && At(b, p, SerializeIn(tx.ins[1]))
      && At(b, p - 4, tx.ins[0].sequence)
      && At(b, FirstAt(tx), SerializeIn(tx.ins[0]))
  {
    var b, o := Serialize(tx), FirstAt(tx);
    InputsAt(tx);
    SplitIns(b, o, tx.ins);
    SplitIns(b, SecondAt(tx), tx.ins[1..]);
    InputEnds(b, o, tx.ins[0]);
    InputEnds(b, SecondAt(tx), tx.ins[1]);
  }

  /** What the second round of the loop sees. */
  lemma AsWrittenSecond(tx: Tx)
    requires tx.WellFormed() && |tx.ins| >= 2
    ensures Parse(Serialize(tx), AsWritten) ==
            Prepend(Outpoints(tx.ins)[0],
                    ParseIns(Serialize(tx), SecondAt(tx) - |VarInt(|tx.ins[0].script|)|, |tx.ins| - 1, AsWritten))
  {
    ParseStart(tx, AsWritten);
    SecondLayout(tx);
    Round(Serialize(tx), FirstAt(tx), tx.ins[0], |tx.ins|, AsWritten);
  }

  /** As written, two or more inputs are read correctly only if the misplaced bytes happen to agree. */
  lemma AsWrittenNeedsBlur(tx: Tx)
    requires tx.WellFormed() && |tx.ins| >= 2
    requires Parse(Serialize(tx), AsWritten) == Ok(Outpoints(tx.ins))
    ensures SecondBlurred(tx)
    ensures ReadVarint(Serialize(tx), SecondAt(tx) - |VarInt(|tx.ins[0].script|)| + 36).Ok?
  {
    var b, q := Serialize(tx), SecondAt(tx) - |VarInt(|tx.ins[0].script|)|;
    SecondLayout(tx);
    AsWrittenSecond(tx);
    assert Outpoints(tx.ins)[1] == OutpointAt(b, q);
    OutpointBytes(b, q, tx.ins[1]);
  }

  lemma BlurSuffices(tx: Tx)
    requires tx.WellFormed() && |tx.ins| == 2 && SecondBlurred(tx)
    requires ReadVarint(Serialize(tx), SecondAt(tx) - |VarInt(|tx.ins[0].script|)| + 36).Ok?
    ensures Parse(Serialize(tx), AsWritten) == Ok(Outpoints(tx.ins))
  {
    var b, q := Serialize(tx), SecondAt(tx) - |VarInt(|tx.ins[0].script|)|;
    SecondLayout(tx);
    AsWrittenSecond(tx);
    OutpointBytes(b, q, tx.ins[1]);
    LastRound(b, q, AsWritten);
    assert Outpoints(tx.ins) == [Outpoints(tx.ins)[0]] + [OutpointAt(b, q)];
  }

  /** For two inputs that is exactly when. */
  lemma AsWrittenTwoInputs(tx: Tx)
    requires tx.WellFormed() && |tx.ins| == 2
    ensures Parse(Serialize(tx), AsWritten) == Ok(Outpoints(tx.ins)) <==>
      SecondBlurred(tx) && ReadVarint(Serialize(tx), SecondAt(tx) - |VarInt(|tx.ins[0].script|)| + 36).Ok?
  {
    if Parse(Serialize(tx), AsWritten) == Ok(Outpoints(tx.ins)) {
      AsWrittenNeedsBlur(tx);
    } else if SecondBlurred(tx) && ReadVarint(Serialize(tx), SecondAt(tx) - |VarInt(|tx.ins[0].script|)| + 36).Ok? {
      BlurSuffices(tx);
    }
  }

  lemma {:induction false} RepeatsUnderShift(s: seq<Byte>, n: nat)
    requires |s| == n + 1 && s[..n] == s[1..]
    ensures forall j :: 0 <= j <= n ==> s[j] == s[0]
  {
    if n > 0 {
      assert s[n] == s[1..][n - 1] == s[..n][n - 1] == s[n - 1];
      assert s[..n][..n - 1] == s[..n - 1] == s[1..][..n - 1] == s[..n][1..];
      RepeatsUnderShift(s[..n], n - 1);
    }
  }

  /** With a one-byte length field, agreeing means one byte value throughout. */
  lemma BlurIsConstant(tx: Tx)
    requires tx.WellFormed() && |tx.ins| >= 2 && |tx.ins[0].script| < 0xfd && SecondBlurred(tx)
    ensures var b, p := Serialize(tx), SecondAt(tx);
      p + 36 <= |b| && forall j :: p - 1 <= j < p + 36 ==> b[j] == tx.ins[0].sequence[3]
  {
    var b, p, t := Serialize(tx), SecondAt(tx), tx.ins[1];
    SecondLayout(tx);
    AtIndex(b, p - 4, tx.ins[0].sequence, 3);
    var shown := Reverse(t.txid) + LE4(t.vout);
    AtSplit(b, p, shown, VarInt(|t.script|) + t.script + t.sequence);
    var s := b[p - 1..p + 36];
    AtSlice(b, p, shown);
    AtSlice(b, p - 1, shown);
    assert s[..36] == b[p - 1..p + 35] == shown == b[p..p + 36] == s[1..];
    RepeatsUnderShift(s, 36);
    forall j | p - 1 <= j < p + 36 ensures b[j] == b[p - 1] { assert b[j] == s[j - (p - 1)]; }
  }

  /**
   * Every transaction of two or more inputs whose first input is final (sequence 0xffffffff) and has
   * an ordinary scriptSig is misread or refused: the shape of everything the builder signs.
   */
  lemma AsWrittenMisreadsFinalInputs(tx: Tx)
    requires tx.WellFormed() && |tx.ins| >= 2
    requires |tx.ins[0].script| < 0xfd && tx.ins[0].sequence == [0xff, 0xff, 0xff, 0xff]
    ensures Parse(Serialize(tx), AsWritten) != Ok(Outpoints(tx.ins))
  {
    if Parse(Serialize(tx), AsWritten) == Ok(Outpoints(tx.ins)) {
      AsWrittenNeedsBlur(tx);
      BlurIsConstant(tx);
      assert false;
    }
  }

  function PlainTx(n: nat): (tx: Tx)
    requires n < 0x1_0000_0000
    ensures tx.WellFormed() && |tx.ins| == n
  {
    Tx([1, 0, 0, 0], seq(n, i => TxIn(seq(32, j => 0), 0, [], [0xff, 0xff, 0xff, 0xff])), [])
  }

  ghost predicate RightForAll(n: nat, adv: Advance) {
    forall tx: Tx | tx.WellFormed() && |tx.ins| == n :: Parse(Serialize(tx), adv) == Ok(Outpoints(tx.ins))
  }

  /** The input counts for which the parser is right on every transaction: all of them, or only one. */
  lemma WhenParserIsRight(n: nat)
    requires 0 < n < 0x1_0000_0000
    ensures RightForAll(n, Intended)
    ensures RightForAll(n, AsWritten) <==> n == 1
  {
    forall tx: Tx | tx.WellFormed() && |tx.ins| == n
      ensures Parse(Serialize(tx), Intended) == Ok(Outpoints(tx.ins))
    { IntendedInverts(tx); }
    if n == 1 {
      forall tx: Tx | tx.WellFormed() && |tx.ins| == n
        ensures Parse(Serialize(tx), AsWritten) == Ok(Outpoints(tx.ins))
      { AsWrittenOneInput(tx); }
    } else {
      AsWrittenMisreadsFinalInputs(PlainTx(n));
    }
  }
}
