/** Python's bit operations on non-negative integers. */
module Bits {

  /** Bit `k` of `n`. */
  predicate Bit(n: nat, k: nat)
    decreases k
  {
    if k == 0 then n % 2 == 1 else Bit(n / 2, k - 1)
  }

  /** `a & ~m`. */
  function AndNot(a: nat, m: nat): nat {
    if a == 0 then 0
    else (if a % 2 == 1 && m % 2 == 0 then 1 else 0) + 2 * AndNot(a / 2, m / 2)
  }

  /** `a | m`. */
  function Or(a: nat, m: nat): nat
    decreases a + m
  {
    if a == 0 then m
    else (if a % 2 == 1 || m % 2 == 1 then 1 else 0) + 2 * Or(a / 2, m / 2)
  }

  /** `a << k`. */
  function Shl(a: nat, k: nat): nat {
    if k == 0 then a else 2 * Shl(a, k - 1)
  }

  lemma {:induction false} ZeroBits(k: nat)
    ensures !Bit(0, k)
  {
    if k > 0 {
      ZeroBits(k - 1);
    }
  }

  lemma {:induction false} AndNotBits(a: nat, m: nat, k: nat)
    ensures Bit(AndNot(a, m), k) <==> Bit(a, k) && !Bit(m, k)
    decreases k
  {
    if a == 0 {
      ZeroBits(k);
    } else if k > 0 {
      AndNotBits(a / 2, m / 2, k - 1);
    }
  }

  lemma {:induction false} OrBits(a: nat, m: nat, k: nat)
    ensures Bit(Or(a, m), k) <==> Bit(a, k) || Bit(m, k)
    decreases k
  {
    if a == 0 {
      ZeroBits(k);
    } else if k > 0 {
      OrBits(a / 2, m / 2, k - 1);
    }
  }

  lemma {:induction false} ShlBits(a: nat, s: nat, k: nat)
    ensures Bit(Shl(a, s), k) <==> k >= s && Bit(a, k - s)
    decreases s
  {
    if s > 0 {
      if k > 0 {
        ShlBits(a, s - 1, k - 1);
      }
    }
  }

  /** A number of `n` ones. */
  function Ones(n: nat): nat {
    if n == 0 then 0 else 1 + 2 * Ones(n - 1)
  }

  lemma {:induction false} OnesBits(n: nat, k: nat)
    ensures Bit(Ones(n), k) <==> k < n
    decreases n
  {
    if n == 0 {
      ZeroBits(k);
    } else if k > 0 {
      OnesBits(n - 1, k - 1);
    }
  }

  lemma {:induction false} OneBits(k: nat)
    ensures Bit(1, k) <==> k == 0
  {
    if k > 0 {
      ZeroBits(k - 1);
    }
  }
}
