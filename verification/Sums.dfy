/** Finite sums and powers, the terms in which closed forms are stated. */
module Sums {

  /** f(0) + ... + f(n - 1) */
  function Sum(n: nat, f: nat -> real): real {
    if n == 0 then 0.0 else Sum(n - 1, f) + f(n - 1)
  }

  lemma {:induction false} LastOfSum(n: nat, f: nat -> real)
    requires 0 < n
    ensures Sum(n, f) == Sum(n - 1, f) + f(n - 1)
  {
  }

  lemma {:induction false} SumsAgree(n: nat, f: nat -> real, g: nat -> real)
    requires forall i: nat :: i < n ==> f(i) == g(i)
    ensures Sum(n, f) == Sum(n, g)
  {
    if n != 0 {
      SumsAgree(n - 1, f, g);
    }
  }

  lemma {:induction false} SumScales(n: nat, f: nat -> real, g: nat -> real, c: real)
    requires forall i: nat :: i < n ==> g(i) == c * f(i)
    ensures Sum(n, g) == c * Sum(n, f)
  {
    if n != 0 {
      SumScales(n - 1, f, g, c);
    }
  }

  function Pow(x: real, n: nat): real {
    if n == 0 then 1.0 else x * Pow(x, n - 1)
  }
}
