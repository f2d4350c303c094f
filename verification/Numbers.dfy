// Numbers the runner and the embedder compute with.
module Numbers {
  function Max(a: nat, b: nat): nat {
    if a > b then a else b
  }

  function Min(a: nat, b: nat): nat {
    if a < b then a else b
  }

  function Power2(n: nat): nat {
    if n == 0 then 1 else 2 * Power2(n - 1)
  }

  lemma {:induction false} PowerUpTo(n: nat, m: nat)
    requires n <= m
    ensures 1 <= Power2(n) <= Power2(m)
    decreases m
  {
    if n < m {
      PowerUpTo(n, m - 1);
    } else if n > 0 {
      PowerUpTo(n - 1, n - 1);
    }
  }
}
