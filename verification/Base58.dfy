/** Addresses as text (watcher/src/deposits/bridge-address.ts). Hashing is a parameter. */
module Base58 {
  import opened Radix

  const ALPHABET := "123456789" + "ABCDEFGH" + "JKLMN" + "PQRSTUVWXYZ" + "abcdefghijk" + "mnopqrstuvwxyz"

  function DigitChar(d: nat): char
    requires d < 58
  {
    ALPHABET[d]
  }

  /** Position of c in the alphabet; 58 for a character outside it. */
  function CharDigit(c: char): (d: nat)
    ensures d <= 58
  {
    if '1' <= c <= '9' then (c as int) - ('1' as int)
    else if 'A' <= c <= 'H' then 9 + (c as int) - ('A' as int)
    else if 'J' <= c <= 'N' then 17 + (c as int) - ('J' as int)
    else if 'P' <= c <= 'Z' then 22 + (c as int) - ('P' as int)
    else if 'a' <= c <= 'k' then 33 + (c as int) - ('a' as int)
    else if 'm' <= c <= 'z' then 44 + (c as int) - ('m' as int)
    else 58
  }

  lemma CharDigitInvertsLow(d: nat)
    requires d < 22
    ensures CharDigit(DigitChar(d)) == d
  {
    assert d < 9 ==> ALPHABET[d] == "123456789"[d];
    assert 9 <= d < 17 ==> ALPHABET[d] == "ABCDEFGH"[d - 9];
    assert 17 <= d ==> ALPHABET[d] == "JKLMN"[d - 17];
  }

  lemma CharDigitInvertsHigh(d: nat)
    requires 33 <= d < 58
    ensures CharDigit(DigitChar(d)) == d
  {
    assert d < 44 ==> ALPHABET[d] == "abcdefghijk"[d - 33];
    assert 44 <= d ==> ALPHABET[d] == "mnopqrstuvwxyz"[d - 44];
  }

  lemma CharDigitInverts(d: nat)
    requires d < 58
    ensures CharDigit(DigitChar(d)) == d
  {
    if d < 22 {
      CharDigitInvertsLow(d);
    } else if d >= 33 {
      CharDigitInvertsHigh(d);
    } else {
      assert ALPHABET[d] == "PQRSTUVWXYZ"[d - 22];
    }
  }

  function Text(ds: seq<nat>): (s: string)
    requires IsNumeral(58, ds)
    ensures |s| == |ds|
    ensures forall k :: 0 <= k < |s| ==> s[k] == DigitChar(ds[k])
  {
    seq(|ds|, k requires 0 <= k < |ds| => DigitChar(ds[k]))
  }

  function Numeral(s: string): (ds: seq<nat>)
    ensures |ds| == |s| && forall k :: 0 <= k < |s| ==> ds[k] == CharDigit(s[k])
  {
    seq(|s|, k requires 0 <= k < |s| => CharDigit(s[k]))
  }

  lemma TextCons(d: nat, ds: seq<nat>)
    requires d < 58 && IsNumeral(58, ds)
    ensures IsNumeral(58, [d] + ds) && Text([d] + ds) == [DigitChar(d)] + Text(ds)
  {
  }

  lemma NumeralOfText(ds: seq<nat>)
    requires IsNumeral(58, ds)
    ensures Numeral(Text(ds)) == ds
  {
    forall k | 0 <= k < |ds| ensures CharDigit(DigitChar(ds[k])) == ds[k] { CharDigitInverts(ds[k]); }
  }

  /** What base58 computes: one '1' per leading zero byte, then the base-58 numeral of the rest. */
  function Encoding(bytes: seq<Byte>): string {
    Text(Rebase(256, 58, bytes))
  }

  /** A decoder, written from the format rather than from the encoder's loops. */
  function Decode(s: string): (bytes: seq<nat>)
    ensures IsNumeral(256, bytes)
  {
    Rebase(58, 256, Numeral(s))
  }

  /** The bytes as one number. */
  method ToNumber(bytes: seq<Byte>) returns (n: nat)
    ensures n == Value(256, bytes)
  {
    n := 0;
    for i := 0 to |bytes|
      invariant n == Value(256, bytes[..i])
    {
      assert bytes[..i + 1][..i] == bytes[..i];
      n := n * 256 + bytes[i];
    }
    assert bytes[..|bytes|] == bytes;
  }

  /** The digits of a number, by repeated division. */
  method ToText(number: nat) returns (out: string)
    ensures out == Text(Digits(58, number))
  {
    var n := number;
    ghost var digits: seq<nat> := [];
    out := "";
    while n > 0
      invariant IsNumeral(58, digits) && out == Text(digits)
      invariant Digits(58, number) == Digits(58, n) + digits
    {
      TextCons(n % 58, digits);
      LastDigit(58, n);
      Regroup(Digits(58, n / 58), n % 58, digits);
      digits := [n % 58] + digits;
      out := [ALPHABET[n % 58]] + out;
      n := n / 58;
    }
  }

  lemma ZerosCons(i: nat, body: seq<nat>)
    ensures Zeros(i + 1) + body == [0] + (Zeros(i) + body)
  {
  }

  /** One '1' in front for every leading zero byte. */
  method PadZeros(bytes: seq<Byte>, body: string, ghost digits: seq<nat>) returns (out: string)
    requires IsNumeral(58, digits) && body == Text(digits)
    ensures IsNumeral(58, Zeros(LeadingZeros(bytes)) + digits) && out == Text(Zeros(LeadingZeros(bytes)) + digits)
  {
    out := body;
    ghost var padded := digits;
    var i := 0;
    while i < |bytes| && bytes[i] == 0
      invariant i <= LeadingZeros(bytes) && padded == Zeros(i) + digits
      invariant IsNumeral(58, padded) && out == Text(padded)
      decreases |bytes| - i
    {
      TextCons(0, padded);
      ZerosCons(i, digits);
      padded := [0] + padded;
      out := ['1'] + out;
      i := i + 1;
    }
  }

  method Encode(bytes: seq<Byte>) returns (out: string)
    ensures out == Encoding(bytes)
    ensures Decode(out) == bytes
  {
    var n := ToNumber(bytes);
    var text := ToText(n);
    out := PadZeros(bytes, text, Digits(58, n));
    RoundTrip(bytes);
  }

  /** Decoding recovers every byte sequence, leading zeros included. */
  lemma RoundTrip(bytes: seq<Byte>)
    ensures Decode(Encoding(bytes)) == bytes
  {
    NumeralOfText(Rebase(256, 58, bytes));
    RebaseRoundTrip(256, 58, bytes);
  }

  /** ...and every text over the alphabet is the encoding of what it decodes to. */
  lemma TextRoundTrip(s: string)
    requires forall k :: 0 <= k < |s| ==> s[k] in ALPHABET
    ensures Encoding(Decode(s)) == s
  {
    forall k | 0 <= k < |s| ensures CharDigit(s[k]) < 58 && DigitChar(CharDigit(s[k])) == s[k] {
      var d :| 0 <= d < |ALPHABET| && ALPHABET[d] == s[k];
      CharDigitInverts(d);
    }
    RebaseRoundTrip(58, 256, Numeral(s));
  }

  lemma EncodingInjective(a: seq<Byte>, b: seq<Byte>)
    requires Encoding(a) == Encoding(b)
    ensures a == b
  {
    RoundTrip(a);
    RoundTrip(b);
  }

  // ── base58check ──────────────────────────────────────────────────────────

  type Hash = h: seq<Byte> | |h| == 32 witness seq(32, _ => 0)

  function Checksummed(payload: seq<Byte>, sha256: seq<Byte> -> Hash): seq<Byte> {
    payload + sha256(sha256(payload))[..4]
  }

  /** base58check, over whatever hash function the platform supplies. */
  method EncodeCheck(payload: seq<Byte>, sha256: seq<Byte> -> Hash) returns (address: string)
    ensures address == Encoding(Checksummed(payload, sha256))
    ensures payload <= Decode(address)
  {
    var check := sha256(sha256(payload))[..4];
    var full := new Byte[|payload| + 4];
    forall i | 0 <= i < |payload| { full[i] := payload[i]; }
    forall i | 0 <= i < 4 { full[|payload| + i] := check[i]; }
    assert full[..] == payload + check;
    address := Encode(full[..]);
  }

  /** Different payloads get different addresses, whatever the hash function does. */
  lemma AddressesInjective(a: seq<Byte>, b: seq<Byte>, sha256: seq<Byte> -> Hash)
    requires Encoding(Checksummed(a, sha256)) == Encoding(Checksummed(b, sha256))
    ensures a == b
  {
    var fa, fb := Checksummed(a, sha256), Checksummed(b, sha256);
    EncodingInjective(fa, fb);
    assert a == fa[..|fa| - 4] && b == fb[..|fb| - 4];
  }
}
