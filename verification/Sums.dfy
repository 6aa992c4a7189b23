/** Finite sums, over an index range and over the rows of a table. */
module Sums {

  function SumTo(f: nat -> int, n: nat): int {
    if n == 0 then 0 else SumTo(f, n - 1) + f(n - 1)
  }

  lemma SumOfOne(f: nat -> int)
    ensures SumTo(f, 1) == f(0)
  {
    assert SumTo(f, 0) == 0;
  }

  lemma {:induction false} SumMonotone(f: nat -> int, g: nat -> int, n: nat)
    requires forall i :: 0 <= i < n ==> f(i) <= g(i)
    ensures SumTo(f, n) <= SumTo(g, n)
  {
    if n > 0 { SumMonotone(f, g, n - 1); }
  }

  lemma SumSame(f: nat -> int, g: nat -> int, n: nat)
    requires forall i :: 0 <= i < n ==> f(i) == g(i)
    ensures SumTo(f, n) == SumTo(g, n)
  {
    SumMonotone(f, g, n);
    SumMonotone(g, f, n);
  }

  lemma SumNonNegative(f: nat -> int, n: nat)
    requires forall i :: 0 <= i < n ==> f(i) >= 0
    ensures SumTo(f, n) >= 0
  {
    SumZero(n);
    SumMonotone(_ => 0, f, n);
  }

  lemma {:induction false} SumZero(n: nat)
    ensures SumTo(_ => 0, n) == 0
  {
    if n > 0 { SumZero(n - 1); }
  }

  /** Changing one row changes the sum by that row's difference. */
  lemma {:induction false} SumChange(f: nat -> int, g: nat -> int, n: nat, j: nat)
    requires j < n && forall i :: 0 <= i < n && i != j ==> f(i) == g(i)
    ensures SumTo(g, n) == SumTo(f, n) - f(j) + g(j)
  {
    if j == n - 1 { SumSame(f, g, n - 1); } else { SumChange(f, g, n - 1, j); }
  }

  lemma {:induction false} SumAtLeastTerm(f: nat -> int, n: nat, j: nat)
    requires j < n && forall i :: 0 <= i < n ==> f(i) >= 0
    ensures f(j) <= SumTo(f, n)
  {
    if j == n - 1 { SumNonNegative(f, n - 1); } else { SumAtLeastTerm(f, n - 1, j); }
  }

  lemma {:induction false} SumAdd(f: nat -> int, g: nat -> int, h: nat -> int, n: nat)
    requires forall i :: 0 <= i < n ==> h(i) == f(i) + g(i)
    ensures SumTo(h, n) == SumTo(f, n) + SumTo(g, n)
  {
    if n > 0 { SumAdd(f, g, h, n - 1); }
  }

  /** Further terms that are zero add nothing. */
  lemma {:induction false} SumExtend(f: nat -> int, g: nat -> int, m: nat, n: nat)
    requires m <= n && (forall i :: 0 <= i < m ==> g(i) == f(i)) && forall i :: m <= i < n ==> g(i) == 0
    ensures SumTo(g, n) == SumTo(f, m)
  {
    if m == n { SumSame(f, g, n); } else { SumExtend(f, g, m, n - 1); }
  }
}
