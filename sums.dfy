/** Finite sums of integer-valued functions, accumulated left to right from 0,
    the way the innermost loop of matrix multiplication accumulates them. */
module Sums {

  /** f(0) + f(1) + ... + f(n - 1), added in that order to an accumulator that starts at 0 */
  function Sum(n: nat, f: nat -> int): int
  {
    if n == 0 then 0 else Sum(n - 1, f) + f(n - 1)
  }

  /** Sums of functions that agree on 0..n-1 are equal */
  lemma {:induction false} SumExt(n: nat, f: nat -> int, g: nat -> int)
    requires forall k: nat :: k < n ==> f(k) == g(k)
    ensures Sum(n, f) == Sum(n, g)
  {
    if n > 0 {
      SumExt(n - 1, f, g);
    }
  }

  /** A sum of zeros is zero */
  lemma {:induction false} SumZero(n: nat, f: nat -> int)
    requires forall k: nat :: k < n ==> f(k) == 0
    ensures Sum(n, f) == 0
  {
    if n > 0 {
      SumZero(n - 1, f);
    }
  }

  /** A common factor moves out of a sum */
  lemma {:induction false} SumScale(n: nat, c: int, f: nat -> int, g: nat -> int)
    requires forall k: nat :: k < n ==> g(k) == c * f(k)
    ensures Sum(n, g) == c * Sum(n, f)
  {
    if n > 0 {
      SumScale(n - 1, c, f, g);
      calc {
        Sum(n, g);
        Sum(n - 1, g) + g(n - 1);
        c * Sum(n - 1, f) + c * f(n - 1);
        c * (Sum(n - 1, f) + f(n - 1));
        c * Sum(n, f);
      }
    }
  }

  /** The sum of a pointwise sum is the sum of the sums */
  lemma {:induction false} SumPlus(n: nat, f: nat -> int, g: nat -> int, h: nat -> int)
    requires forall k: nat :: k < n ==> h(k) == f(k) + g(k)
    ensures Sum(n, h) == Sum(n, f) + Sum(n, g)
  {
    if n > 0 {
      SumPlus(n - 1, f, g, h);
    }
  }

  /** Row k of a two-argument function: l => g(k, l) */
  function RowOf(g: (nat, nat) -> int, k: nat): nat -> int
  {
    (l: nat) => g(k, l)
  }

  /** Column l of a two-argument function: k => g(k, l) */
  function ColOf(g: (nat, nat) -> int, l: nat): nat -> int
  {
    (k: nat) => g(k, l)
  }

  /** k => the sum of row k over its first m entries */
  function RowSums(g: (nat, nat) -> int, m: nat): nat -> int
  {
    (k: nat) => Sum(m, RowOf(g, k))
  }

  /** l => the sum of column l over its first n entries */
  function ColSums(g: (nat, nat) -> int, n: nat): nat -> int
  {
    (l: nat) => Sum(n, ColOf(g, l))
  }

  /** Summing an n x m table row by row or column by column gives the same total */
  lemma {:induction false} SumSwap(n: nat, m: nat, g: (nat, nat) -> int)
    ensures Sum(n, RowSums(g, m)) == Sum(m, ColSums(g, n))
  {
    if n == 0 {
      SumZero(m, ColSums(g, 0));
    } else {
      SumSwap(n - 1, m, g);
      SumPlus(m, ColSums(g, n - 1), RowOf(g, n - 1), ColSums(g, n));
    }
  }
}
