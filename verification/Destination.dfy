/** Withdrawal destinations (backend/src/gnosis/destination.ts), as UTF-8 bytes. */
module Destination {
  import opened Radix

  const SENTINEL := "INVALID:"
  const MAX_HEX_BYTES := 64
  const MAX_PLAUSIBLE := 128

  /** The event argument: any string, or something the decoder did not give as one. */
  datatype Raw = NotAString | Text(utf8: seq<Byte>)

  datatype Reason = NotText | Empty | NulByte | TooLong(bytes: nat) | OddCharacters | ReservedPrefix

  datatype Sanitized = Sanitized(value: string, invalid: bool, reasons: seq<Reason>)

  predicate Printable(b: int) {
    0x21 <= b <= 0x7e
  }

  predicate Plausible(utf8: seq<Byte>) {
    1 <= |utf8| <= MAX_PLAUSIBLE && forall k :: 0 <= k < |utf8| ==> Printable(utf8[k])
  }

  function Ascii(utf8: seq<Byte>): (s: string)
    ensures |s| == |utf8|
    ensures forall k :: 0 <= k < |s| ==> s[k] as int == utf8[k]
  {
    seq(|utf8|, k requires 0 <= k < |utf8| => utf8[k] as char)
  }

  predicate HasReservedPrefix(utf8: seq<Byte>) {
    SENTINEL <= Ascii(utf8)
  }

  function HexChar(d: nat): (c: char)
    requires d < 16
  {
    if d < 10 then ('0' as int + d) as char else ('a' as int + d - 10) as char
  }

  function Hex(bytes: seq<Byte>): (s: string)
    ensures |s| == 2 * |bytes|
    ensures forall k :: 0 <= k < |bytes| ==> s[2 * k] == HexChar(bytes[k] / 16) && s[2 * k + 1] == HexChar(bytes[k] % 16)
  {
    seq(2 * |bytes|, k requires 0 <= k < 2 * |bytes| =>
      HexChar(if k % 2 == 0 then bytes[k / 2] / 16 else bytes[k / 2] % 16))
  }

  function Decimal(n: nat): (s: string)
    ensures |s| == |Digits(10, n)|
    ensures forall k :: 0 <= k < |s| ==> s[k] == HexChar(Digits(10, n)[k])
  {
    var ds := Digits(10, n);
    seq(|ds|, k requires 0 <= k < |ds| => HexChar(ds[k]))
  }

  /** "..(+NB)" for the N bytes past the first 64; nothing for a shorter string. */
  function More(utf8: seq<Byte>): string {
    if |utf8| > MAX_HEX_BYTES then "..(+" + Decimal(|utf8| - MAX_HEX_BYTES) + "B)" else ""
  }

  function Head(utf8: seq<Byte>): seq<Byte> {
    if |utf8| > MAX_HEX_BYTES then utf8[..MAX_HEX_BYTES] else utf8
  }

  function Reasons(utf8: seq<Byte>): seq<Reason> {
    (if utf8 == [] then [Empty] else []) +
    (if 0 in utf8 then [NulByte] else []) +
    (if |utf8| > MAX_PLAUSIBLE then [TooLong(|utf8|)] else []) +
    (if exists k :: 0 <= k < |utf8| && !Printable(utf8[k]) && utf8[k] != 0 then [OddCharacters] else []) +
    (if HasReservedPrefix(utf8) then [ReservedPrefix] else [])
  }

  function Sanitize(raw: Raw): Sanitized {
    match raw
    case NotAString => Sanitized(SENTINEL + "not-a-string", true, [NotText])
    case Text(utf8) =>
      if Plausible(utf8) && !HasReservedPrefix(utf8) then Sanitized(Ascii(utf8), false, [])
      else Sanitized(SENTINEL + Hex(Head(utf8)) + More(utf8), true, Reasons(utf8))
  }

  /** The payout-side guard. */
  predicate Unpayable(stored: string) {
    SENTINEL <= stored
  }

  /** The guard refuses exactly what ingest neutralised, and each refusal has a recorded reason. */
  lemma GuardMatchesIngest(raw: Raw)
    ensures Unpayable(Sanitize(raw).value) <==> Sanitize(raw).invalid
    ensures Sanitize(raw).invalid <==> Sanitize(raw).reasons != []
  {
    if raw.Text? && !Plausible(raw.utf8) && raw.utf8 != [] && |raw.utf8| <= MAX_PLAUSIBLE {
      var k :| 0 <= k < |raw.utf8| && !Printable(raw.utf8[k]);
      if raw.utf8[k] == 0 { assert NulByte in Reasons(raw.utf8); } else { assert OddCharacters in Reasons(raw.utf8); }
    }
  }

  /**
   * Stored byte for byte are exactly the strings of 1 to 128 printable bytes that do not start with the sentinel;
   * everything else is flagged, with the reason it was.
   */
  lemma ValidIsKept(raw: Raw)
    ensures !Sanitize(raw).invalid <==>
      && raw.Text? && 1 <= |raw.utf8| <= 128 && (forall k :: 0 <= k < |raw.utf8| ==> 0x21 <= raw.utf8[k] <= 0x7e)
      && !(|raw.utf8| >= 8 && forall k :: 0 <= k < 8 ==> raw.utf8[k] == "INVALID:"[k] as int)
    ensures var s := Sanitize(raw);
      !s.invalid ==> |s.value| == |raw.utf8| && forall k :: 0 <= k < |s.value| ==> s.value[k] as int == raw.utf8[k]
    ensures raw.Text? && Sanitize(raw).invalid ==>
      var reasons := Sanitize(raw).reasons;
      && (Empty in reasons <==> raw.utf8 == []) && (NulByte in reasons <==> 0 in raw.utf8)
      && (TooLong(|raw.utf8|) in reasons <==> |raw.utf8| > 128)
      && (OddCharacters in reasons <==> exists k :: 0 <= k < |raw.utf8| && !(0x21 <= raw.utf8[k] <= 0x7e) && raw.utf8[k] != 0)
  {
    if raw.Text? {
      var text := Ascii(raw.utf8);
      if |text| >= 8 && forall k :: 0 <= k < 8 ==> raw.utf8[k] == "INVALID:"[k] as int {
        assert text[..8] == SENTINEL;
      }
    }
  }

  lemma HexPrintable(bytes: seq<Byte>, j: nat)
    requires j < |Hex(bytes)|
    ensures Printable(Hex(bytes)[j] as int)
  {
    assert Hex(bytes)[2 * (j / 2)] == HexChar(bytes[j / 2] / 16);
    assert Hex(bytes)[2 * (j / 2) + 1] == HexChar(bytes[j / 2] % 16);
  }

  lemma MorePrintable(utf8: seq<Byte>, k: nat)
    requires |utf8| < Power(10, k)
    ensures |More(utf8)| <= 6 + k
    ensures forall j :: 0 <= j < |More(utf8)| ==> Printable(More(utf8)[j] as int)
  {
    if |utf8| > MAX_HEX_BYTES { DigitCount(10, |utf8| - MAX_HEX_BYTES, k); }
  }

  /** What is stored is always non-empty printable ASCII, of a length the column index can hold. */
  lemma StoredForm(raw: Raw, k: nat)
    requires raw.Text? ==> |raw.utf8| < Power(10, k)
    ensures var v := Sanitize(raw).value;
      0 < |v| <= 142 + k && forall j :: 0 <= j < |v| ==> Printable(v[j] as int)
  {
    if raw.Text? && Sanitize(raw).invalid {
      var hex, more := Hex(Head(raw.utf8)), More(raw.utf8);
      MorePrintable(raw.utf8, k);
      forall j | 0 <= j < |hex| ensures Printable(hex[j] as int) { HexPrintable(Head(raw.utf8), j); }
    }
  }

  lemma HexInjective(a: seq<Byte>, b: seq<Byte>)
    requires Hex(a) == Hex(b)
    ensures a == b
  {
    assert |Hex(a)| == |Hex(b)|;
    forall k | 0 <= k < |a| ensures a[k] == b[k] {
      assert Hex(a)[2 * k] == Hex(b)[2 * k] && Hex(a)[2 * k + 1] == Hex(b)[2 * k + 1];
    }
  }

  lemma DecimalInjective(m: nat, n: nat)
    requires Decimal(m) == Decimal(n)
    ensures m == n
  {
    assert |Decimal(m)| == |Decimal(n)|;
    forall k | 0 <= k < |Digits(10, m)| ensures Digits(10, m)[k] == Digits(10, n)[k] {
      assert Decimal(m)[k] == Decimal(n)[k];
    }
    DigitsInjective(10, m, n);
  }

  lemma AsciiInjective(a: seq<Byte>, b: seq<Byte>)
    requires Ascii(a) == Ascii(b)
    ensures a == b
  {
    assert |Ascii(a)| == |Ascii(b)|;
    forall k | 0 <= k < |a| ensures a[k] == b[k] { assert Ascii(a)[k] == Ascii(b)[k]; }
  }

  /** Two long strings that agree in their first 64 bytes and in their length. */
  predicate SameHead(a: seq<Byte>, b: seq<Byte>) {
    |a| == |b| && Head(a) == Head(b)
  }

  /** A prefix of the same length is the same prefix. */
  lemma SameSplit(x: string, y: string, u: string, v: string)
    requires x + y == u + v && |x| == |u|
    ensures x == u && y == v
  {
    assert x == (x + y)[..|x|] && u == (u + v)[..|u|];
    assert y == (x + y)[|x|..] && v == (u + v)[|u|..];
  }

  lemma MoreDetermines(a: seq<Byte>, b: seq<Byte>)
    requires More(a) == More(b) && |a| > MAX_HEX_BYTES && |b| > MAX_HEX_BYTES
    ensures |a| == |b|
  {
    var da, db := Decimal(|a| - MAX_HEX_BYTES), Decimal(|b| - MAX_HEX_BYTES);
    assert da == More(a)[4..|More(a)| - 2];
    assert db == More(b)[4..|More(b)| - 2];
    DecimalInjective(|a| - MAX_HEX_BYTES, |b| - MAX_HEX_BYTES);
  }

  lemma NeutralisedDetermine(a: seq<Byte>, b: seq<Byte>)
    requires Hex(Head(a)) + More(a) == Hex(Head(b)) + More(b)
    ensures SameHead(a, b)
  {
    assert |Hex(Head(a)) + More(a)| == |Hex(Head(b)) + More(b)|;
    assert |More(a)| >= 6 || More(a) == "";
    assert |More(b)| >= 6 || More(b) == "";
    SameSplit(Hex(Head(a)), More(a), Hex(Head(b)), More(b));
    HexInjective(Head(a), Head(b));
    if |a| > MAX_HEX_BYTES { MoreDetermines(a, b); }
  }

  lemma NotTextDiffers(utf8: seq<Byte>)
    ensures Sanitize(Text(utf8)).value != Sanitize(NotAString).value
  {
    var v := Sanitize(Text(utf8)).value;
    if Sanitize(Text(utf8)).invalid {
      assert v == SENTINEL + (Hex(Head(utf8)) + More(utf8));
      assert utf8 != [] ==> v[8] == HexChar(utf8[0] / 16);
      assert Sanitize(NotAString).value[8] == 'n';
    }
  }

  lemma NeutralisedForm(utf8: seq<Byte>)
    requires Sanitize(Text(utf8)).invalid
    ensures Sanitize(Text(utf8)).value == SENTINEL + (Hex(Head(utf8)) + More(utf8))
  {
  }

  lemma TextDetermined(a: seq<Byte>, b: seq<Byte>)
    requires Sanitize(Text(a)).value == Sanitize(Text(b)).value
    ensures a == b || (Sanitize(Text(a)).invalid && Sanitize(Text(b)).invalid && SameHead(a, b))
  {
    var sa, sb := Sanitize(Text(a)), Sanitize(Text(b));
    GuardMatchesIngest(Text(a));
    GuardMatchesIngest(Text(b));
    if sa.invalid {
      NeutralisedForm(a);
      NeutralisedForm(b);
      SameSplit(SENTINEL, Hex(Head(a)) + More(a), SENTINEL, Hex(Head(b)) + More(b));
      NeutralisedDetermine(a, b);
    } else {
      AsciiInjective(a, b);
    }
  }

  /**
   * Exactly when two event arguments are stored alike: they are the same, or both were
   * neutralised, agree in their first 64 bytes, and have the same length. Up to 64 bytes
   * the stored value therefore determines the argument.
   */
  lemma StoredValueDetermines(a: Raw, b: Raw)
    ensures Sanitize(a).value == Sanitize(b).value <==>
      a == b || (a.Text? && b.Text? && Sanitize(a).invalid && Sanitize(b).invalid && SameHead(a.utf8, b.utf8))
    ensures a.Text? && |a.utf8| <= MAX_HEX_BYTES && Sanitize(a).value == Sanitize(b).value ==> a == b
  {
    if a.Text? && b.Text? {
      if Sanitize(a).value == Sanitize(b).value { TextDetermined(a.utf8, b.utf8); }
    } else if a.Text? {
      NotTextDiffers(a.utf8);
    } else if b.Text? {
      NotTextDiffers(b.utf8);
    }
  }
}
