/** Unsigned words as numbers: powers of two, shifts, low bits. */
module Bits {
  const XLEN := 64
  const WORD := 0x1_0000_0000_0000_0000

  function Pow2(n: nat): (r: nat)
    ensures r > 0
  {
    if n == 0 then 1 else 2 * Pow2(n - 1)
  }

  /** The low `n` bits of `x`, and what is above them. */
  function Low(x: nat, n: nat): nat {
    if n == 0 then 0 else x % 2 + 2 * Low(x / 2, n - 1)
  }

  function Shr(x: nat, n: nat): nat {
    if n == 0 then x else Shr(x / 2, n - 1)
  }

  function Shl(x: nat, n: nat): nat {
    if n == 0 then x else 2 * Shl(x, n - 1)
  }

  function Or(a: nat, b: nat): nat
    decreases a + b
  {
    if a == 0 && b == 0 then 0
    else (if a % 2 == 1 || b % 2 == 1 then 1 else 0) + 2 * Or(a / 2, b / 2)
  }

  lemma {:induction false} Pow2Mono(m: nat, n: nat)
    requires m <= n
    ensures Pow2(m) <= Pow2(n) && (m < n ==> 2 * Pow2(m) <= Pow2(n))
  {
    if m < n {
      Pow2Mono(m, n - 1);
    }
  }

  lemma WordIsPow2()
    ensures Pow2(XLEN) == WORD
  {
    FourMore(0);
    FourMore(4);
    FourMore(8);
    FourMore(12);
    FourMore(16);
    FourMore(20);
    FourMore(24);
    FourMore(28);
    FourMore(32);
    FourMore(36);
    FourMore(40);
    FourMore(44);
    FourMore(48);
    FourMore(52);
    FourMore(56);
    FourMore(60);
  }

  lemma FourMore(n: nat)
    ensures Pow2(n + 4) == 16 * Pow2(n)
  {
    assert Pow2(n + 4) == 2 * Pow2(n + 3) == 4 * Pow2(n + 2) == 8 * Pow2(n + 1);
  }

  lemma {:induction false} OrIsSum(m: nat, k: nat, b: nat)
    requires b < Pow2(k)
    ensures Or(Shl(m, k), b) == Shl(m, k) + b
    decreases k
  {
    if k == 0 {
      OrZero(m);
    } else {
      OrIsSum(m, k - 1, b / 2);
    }
  }

  lemma {:induction false} OrZero(m: nat)
    ensures Or(m, 0) == m
  {
    if m > 0 {
      OrZero(m / 2);
    }
  }

  lemma {:induction false} Split(x: nat, n: nat)
    ensures x == Shl(Shr(x, n), n) + Low(x, n) && Low(x, n) < Pow2(n)
  {
    if n > 0 {
      Split(x / 2, n - 1);
    }
  }

  lemma {:induction false} LowIs(x: nat, n: nat)
    requires x < Pow2(n)
    ensures Low(x, n) == x
  {
    if n > 0 {
      LowIs(x / 2, n - 1);
    }
  }

  lemma {:induction false} ShrOf(m: nat, n: nat, b: nat)
    requires b < Pow2(n)
    ensures Shr(Shl(m, n) + b, n) == m
    decreases n
  {
    if n > 0 {
      ShrOf(m, n - 1, b / 2);
      assert (Shl(m, n) + b) / 2 == Shl(m, n - 1) + b / 2;
    }
  }

  lemma {:induction false} ZeroShl(n: nat)
    ensures Shl(0, n) == 0
  {
    if n > 0 {
      ZeroShl(n - 1);
    }
  }

  lemma {:induction false} ShrHalves(x: nat, n: nat)
    ensures Shr(x, n + 1) == Shr(x, n) / 2
  {
    if n > 0 {
      ShrHalves(x / 2, n - 1);
    }
  }

  lemma {:induction false} ShrShort(x: nat, n: nat, m: nat)
    requires x < Pow2(n + m)
    ensures Shr(x, n) < Pow2(m)
    decreases n
  {
    if n > 0 {
      ShrShort(x / 2, n - 1, m);
    }
  }
}
