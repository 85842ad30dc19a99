/** Repeated addition and doubling, by recursion: the shape in which loops add up their bounds. */
module Bounds {
  function Times(n: nat, k: nat): nat {
    if n == 0 then 0 else Times(n - 1, k) + k
  }

  function Rests(n: nat, x: real): real {
    if n == 0 then 0.0 else Rests(n - 1, x) + x
  }

  lemma {:induction false} Grows(n: nat, m: nat, k: nat, x: real)
    requires n <= m && x >= 0.0
    ensures Times(n, k) <= Times(m, k) && Rests(n, x) <= Rests(m, x)
    decreases m - n
  {
    if n < m { Grows(n, m - 1, k, x); }
  }

  /** Repeated addition is multiplication. */
  lemma {:induction false} ProductOf(n: nat, k: nat, x: real)
    ensures Times(n, k) == n * k && Rests(n, x) == n as real * x
  {
    if n > 0 {
      ProductOf(n - 1, k, x);
      assert (n - 1) * k + k == n * k;
      assert (n - 1) as real * x + x == n as real * x;
    }
  }

  function Pow2(n: nat): nat {
    if n == 0 then 1 else 2 * Pow2(n - 1)
  }

  /** `d * 2 ** n` */
  function Doubled(d: real, n: nat): (r: real)
    ensures d >= 0.0 ==> r >= d
  {
    if n == 0 then d else 2.0 * Doubled(d, n - 1)
  }

  lemma {:induction false} DoubledIsProduct(d: real, n: nat)
    ensures Doubled(d, n) == d * Pow2(n) as real
  {
    if n > 0 {
      DoubledIsProduct(d, n - 1);
      assert Pow2(n) as real == 2.0 * Pow2(n - 1) as real;
    }
  }

  lemma {:induction false} DoubledGrows(d: real, a: nat, b: nat)
    requires a <= b && d >= 0.0
    ensures Doubled(d, a) <= Doubled(d, b)
  {
    if a < b { DoubledGrows(d, a, b - 1); }
  }
}
