/** Positional numerals in an arbitrary base, most significant digit first. */
module Radix {

  type Byte = b: int | 0 <= b < 256

  predicate IsNumeral(base: nat, ds: seq<nat>) {
    forall k :: 0 <= k < |ds| ==> ds[k] < base
  }

  function Value(base: nat, ds: seq<nat>): nat {
    if ds == [] then 0 else Value(base, ds[..|ds| - 1]) * base + ds[|ds| - 1]
  }

  /** The shortest numeral of n; zero is the empty one. */
  function Digits(base: nat, n: nat): (ds: seq<nat>)
    requires base >= 2
    ensures IsNumeral(base, ds)
    ensures ds != [] ==> ds[0] != 0
    ensures ds == [] <==> n == 0
  {
    if n == 0 then []
    else
      var q := n / base;
      assert q < n by { QuotientSmaller(base, n); }
      Digits(base, q) + [n % base]
  }

  lemma LastDigit(base: nat, n: nat)
    requires base >= 2 && n > 0
    ensures Digits(base, n) == Digits(base, n / base) + [n % base]
  {
  }

  lemma Regroup(a: seq<nat>, x: nat, b: seq<nat>)
    ensures (a + [x]) + b == a + ([x] + b)
  {
  }

  lemma QuotientSmaller(base: nat, n: nat)
    requires base >= 2 && n > 0
    ensures n / base < n
  {
    if n < base {
      assert n / base == 0;
    } else {
      DividedBy(base, n, n / base);
    }
  }

  lemma DividedBy(base: nat, n: nat, q: nat)
    requires base >= 2 && n > 0 && q == n / base
    ensures q < n
  {
    assert n == q * base + n % base;
    Doubles(q, base);
  }

  lemma Doubles(q: nat, base: nat)
    requires base >= 2
    ensures q * base >= q + q
  {
    assert q * base == q * 2 + q * (base - 2);
  }

  lemma MultipleInRange(base: int, x: int, y: int)
    requires x * base == y && -base < y < base
    ensures x == 0
  {
    assert x >= 1 ==> x * base >= base;
    assert x <= -1 ==> x * base <= -base;
  }

  lemma DivModUnique(base: nat, q: nat, d: nat)
    requires d < base
    ensures (q * base + d) / base == q && (q * base + d) % base == d
  {
    var n := q * base + d;
    assert n == (n / base) * base + n % base;
    assert (n / base - q) * base == d - n % base;
    MultipleInRange(base, n / base - q, d - n % base);
  }

  lemma ValueSnoc(base: nat, ds: seq<nat>, d: nat)
    ensures Value(base, ds + [d]) == Value(base, ds) * base + d
  {
    assert (ds + [d])[..|ds|] == ds;
  }

  lemma {:induction false} ValueOfDigits(base: nat, n: nat)
    requires base >= 2
    ensures Value(base, Digits(base, n)) == n
  {
    if n > 0 {
      var q, d := n / base, n % base;
      assert n == q * base + d;
      QuotientSmaller(base, n);
      ValueOfDigits(base, q);
      ValueSnoc(base, Digits(base, q), d);
      assert Digits(base, n) == Digits(base, q) + [d];
    }
  }

  lemma DigitsInjective(base: nat, m: nat, n: nat)
    requires base >= 2 && Digits(base, m) == Digits(base, n)
    ensures m == n
  {
    ValueOfDigits(base, m);
    ValueOfDigits(base, n);
  }

  function Power(base: nat, k: nat): nat {
    if k == 0 then 1 else base * Power(base, k - 1)
  }

  lemma {:induction false} DigitCount(base: nat, n: nat, k: nat)
    requires base >= 2 && n < Power(base, k)
    ensures |Digits(base, n)| <= k
  {
    if n > 0 {
      var q := n / base;
      QuotientSmaller(base, n);
      assert n == q * base + n % base;
      assert q >= Power(base, k - 1) ==> q * base >= Power(base, k - 1) * base;
      DigitCount(base, q, k - 1);
    }
  }

  lemma {:induction false} LeadingDigitBounds(base: nat, ds: seq<nat>)
    requires base >= 2 && ds != [] && ds[0] != 0
    ensures Value(base, ds) > 0
  {
    if |ds| > 1 {
      LeadingDigitBounds(base, ds[..|ds| - 1]);
      assert Value(base, ds[..|ds| - 1]) * base >= 1;
    }
  }

  lemma {:induction false} DigitsOfValue(base: nat, ds: seq<nat>)
    requires base >= 2 && IsNumeral(base, ds)
    requires ds != [] ==> ds[0] != 0
    ensures Digits(base, Value(base, ds)) == ds
  {
    if ds != [] {
      var init, last := ds[..|ds| - 1], ds[|ds| - 1];
      DigitsOfValue(base, init);
      DivModUnique(base, Value(base, init), last);
      LeadingDigitBounds(base, ds);
      assert ds == init + [last];
    }
  }

  function LeadingZeros(ds: seq<nat>): (k: nat)
    ensures k <= |ds|
    ensures forall j :: 0 <= j < k ==> ds[j] == 0
    ensures k < |ds| ==> ds[k] != 0
  {
    if ds == [] || ds[0] != 0 then 0 else 1 + LeadingZeros(ds[1..])
  }

  function Zeros(k: nat): (ds: seq<nat>)
    ensures |ds| == k && forall j :: 0 <= j < k ==> ds[j] == 0
  {
    seq(k, _ => 0)
  }

  lemma {:induction false} ValueIgnoresLeadingZeros(base: nat, k: nat, ds: seq<nat>)
    ensures Value(base, Zeros(k) + ds) == Value(base, ds)
    decreases |ds| + k
  {
    if ds != [] {
      var whole := Zeros(k) + ds;
      assert whole[..|whole| - 1] == Zeros(k) + ds[..|ds| - 1];
      ValueIgnoresLeadingZeros(base, k, ds[..|ds| - 1]);
    } else if k > 0 {
      var whole := Zeros(k) + ds;
      assert whole[..|whole| - 1] == Zeros(k - 1) + ds;
      ValueIgnoresLeadingZeros(base, k - 1, ds);
    }
  }

  lemma {:induction false} LeadingZerosOfPadded(k: nat, ds: seq<nat>)
    requires ds != [] ==> ds[0] != 0
    ensures LeadingZeros(Zeros(k) + ds) == k
  {
    var whole := Zeros(k) + ds;
    var z := LeadingZeros(whole);
    assert forall j :: 0 <= j < k ==> whole[j] == 0;
    assert ds != [] ==> whole[k] != 0;
  }

  /** The same number in another base, with as many leading zero digits. */
  function Rebase(src: nat, dst: nat, ds: seq<nat>): (r: seq<nat>)
    requires dst >= 2
    ensures IsNumeral(dst, r)
  {
    Zeros(LeadingZeros(ds)) + Digits(dst, Value(src, ds))
  }

  lemma RebaseRoundTrip(a: nat, b: nat, ds: seq<nat>)
    requires a >= 2 && b >= 2 && IsNumeral(a, ds)
    ensures Rebase(b, a, Rebase(a, b, ds)) == ds
  {
    var k := LeadingZeros(ds);
    var core := ds[k..];
    var mid := Digits(b, Value(a, ds));
    assert ds == Zeros(k) + core;
    ValueIgnoresLeadingZeros(a, k, core);
    ValueIgnoresLeadingZeros(b, k, mid);
    LeadingZerosOfPadded(k, mid);
    ValueOfDigits(b, Value(a, ds));
    DigitsOfValue(a, core);
  }
}
