/** 64-bit division by shift and subtract (divdi3.c). */
module Division {
  import opened Bits

  /** What division means, for a divisor that is not zero. */
  ghost predicate Divides(n: nat, d: nat, q: nat, r: nat) {
    n == q * d + r && r < d
  }

  lemma {:induction false} MulAtLeast(a: nat, b: nat, m: nat)
    requires b >= m
    ensures a * b >= a * m
  {
    if a > 0 {
      MulAtLeast(a - 1, b, m);
      assert a * b == (a - 1) * b + b && a * m == (a - 1) * m + m;
    }
  }

  lemma MulGap(p: nat, q: nat, d: nat)
    requires q < p
    ensures p * d >= q * d + d
  {
    MulAtLeast(d, p, q + 1);
    assert d * p == p * d && d * (q + 1) == q * d + d;
  }

  /** There is one answer. */
  lemma DividesOnce(n: nat, d: nat, q: nat, r: nat, p: nat, s: nat)
    requires Divides(n, d, q, r) && Divides(n, d, p, s)
    ensures q == p && r == s
  {
    if q < p {
      MulGap(p, q, d);
    } else if p < q {
      MulGap(q, p, d);
    }
  }

  /**
   The state before bit i - 1: `top` is the quotient's bits so far, and the rest of the
   quotient is zero.
   */
  ghost predicate Partial(n: nat, d: nat, i: nat, q: nat, r: nat, top: nat) {
    q == Shl(top, i) && Divides(Shr(n, i), d, top, r)
  }

  lemma Doubles(m: nat, d: nat, top: nat, r: nat, bit: nat)
    requires Divides(m, d, top, r) && bit < 2
    ensures 2 * r + bit < d ==> Divides(2 * m + bit, d, 2 * top, 2 * r + bit)
    ensures 2 * r + bit >= d ==> Divides(2 * m + bit, d, 2 * top + 1, 2 * r + bit - d)
  {
    assert (2 * top) * d == 2 * (top * d);
    assert (2 * top + 1) * d == 2 * (top * d) + d;
  }

  /** The partial remainder has room for one more bit. */
  lemma NoOverflow(n: nat, d: nat, i: nat, q: nat, r: nat, top: nat)
    requires n < WORD && i < XLEN && Partial(n, d, i + 1, q, r, top)
    ensures 2 * r + 1 < WORD
  {
    WordIsPow2();
    ShrShort(n, i + 1, XLEN - i - 1);
    Pow2Mono(XLEN - i - 1, XLEN - 1);
    assert top * d >= 0;
    assert Pow2(XLEN) == 2 * Pow2(XLEN - 1);
  }

  lemma StepPartial(n: nat, d: nat, i: nat, q: nat, r: nat, top: nat)
    requires Partial(n, d, i + 1, q, r, top)
    ensures var s, t := 2 * r + Shr(n, i) % 2, if 2 * r + Shr(n, i) % 2 >= d then 1 else 0;
            && Partial(n, d, i, if t == 1 then Or(q, Pow2(i)) else q, if t == 1 then s - d else s, 2 * top + t)
  {
    ShrHalves(n, i);
    Doubles(Shr(n, i + 1), d, top, r, Shr(n, i) % 2);
    OrIsSum(top, i + 1, Pow2(i));
    ShlPlus(top, i);
  }

  lemma {:induction false} ShlPlus(top: nat, i: nat)
    ensures Shl(2 * top, i) == Shl(top, i + 1) && Shl(2 * top + 1, i) == Shl(top, i + 1) + Pow2(i)
  {
    if i > 0 {
      ShlPlus(top, i - 1);
    }
  }

  /** __udivmoddi4(): by zero it gives all ones, and the dividend back. */
  method UDivMod(n: nat, d: nat) returns (q: nat, r: nat)
    requires n < WORD && d < WORD
    ensures d != 0 ==> Divides(n, d, q, r)
    ensures d == 0 ==> q == WORD - 1 && r == n
    ensures q < WORD && r < WORD
  {
    if d == 0 {
      return WORD - 1, n;
    }
    q, r := 0, 0;
    ghost var top: nat := 0;
    ZeroShl(XLEN);
    WordIsPow2();
    ShrShort(n, XLEN, 0);
    var i := XLEN;
    while i > 0
      invariant 0 <= i <= XLEN && Partial(n, d, i, q, r, top)
    {
      i := i - 1;
      NoOverflow(n, d, i, q, r, top);
      StepPartial(n, d, i, q, r, top);
      r := (2 * r + Shr(n, i) % 2) % WORD;
      if r >= d {
        r := r - d;
        q := Or(q, Pow2(i));
        top := 2 * top + 1;
      } else {
        top := 2 * top;
      }
    }
    QuotientFits(n, d, q, r);
  }

  lemma QuotientFits(n: nat, d: nat, q: nat, r: nat)
    requires Divides(n, d, q, r)
    ensures q <= n
  {
    MulAtLeast(q, d, 1);
  }

  // ---- signed -----------------------------------------------------------------------------------

  const HALF := 0x8000_0000_0000_0000

  predicate IsInt64(x: int) {
    -HALF <= x < HALF
  }

  function Abs(x: int): nat {
    if x < 0 then -x else x
  }

  /** The int64_t that a number is modulo 2^64. */
  function Wrapped(x: int): (r: int)
    ensures IsInt64(r)
  {
    var u := x % WORD;
    if u < HALF then u else u - WORD
  }

  /** Truncating division: the remainder has the sign of the dividend, or is zero. */
  ghost predicate Truncates(n: int, d: int, q: int, r: int) {
    n == q * d + r && Abs(r) < Abs(d) && (r != 0 ==> (r < 0 <==> n < 0))
  }

  function Signed(minus: bool, x: int): int {
    if minus then -x else x
  }

  lemma SignedFrom(n: int, d: int, q: nat, r: nat)
    requires d != 0 && Divides(Abs(n), Abs(d), q, r)
    ensures Truncates(n, d, Signed((n < 0) != (d < 0), q), Signed(n < 0, r))
  {
    var p: int := q * Abs(d);
    var sq := Signed((n < 0) != (d < 0), q);
    assert sq * d == Signed(n < 0, p) by {
      SignedMul(n < 0, d, q);
    }
  }

  lemma SignedMul(minus: bool, d: int, q: nat)
    ensures Signed(minus != (d < 0), q) * d == Signed(minus, q * Abs(d))
  {
    var x: int := q;
    assert (-x) * d == -(x * d) && x * (-d) == -(x * d);
  }

  /** -(uint64_t)n of a negative n, n of another. */
  function Unsigned(n: int): (u: nat)
    requires IsInt64(n)
    ensures u == Abs(n) <= HALF
  {
    if n < 0 then (WORD - n % WORD) % WORD else n % WORD
  }

  /** __divdi3() and __moddi3(), on one pair of operands. */
  method DivMod(n: int, d: int) returns (quot: int, rem: int, ghost q: int, ghost r: int)
    requires IsInt64(n) && IsInt64(d)
    ensures IsInt64(quot) && IsInt64(rem)
    ensures d != 0 ==> Truncates(n, d, q, r) && quot == Wrapped(q) && rem == Wrapped(r)
    ensures d == 0 ==> rem == n && quot == if n < 0 then 1 else -1
  {
    var uq, ur := UDivMod(Unsigned(n), Unsigned(d));
    quot := Wrapped(Signed((n < 0) != (d < 0), Wrapped(uq)));
    rem := Wrapped(Signed(n < 0, Wrapped(ur)));
    q := Signed((n < 0) != (d < 0), uq);
    r := Signed(n < 0, ur);
    SignedWraps((n < 0) != (d < 0), uq);
    SignedWraps(n < 0, ur);
    if d != 0 {
      SignedFrom(n, d, uq, ur);
    } else {
      WrappedIs(n);
    }
  }

  lemma SignedWraps(minus: bool, x: nat)
    requires x < WORD
    ensures Wrapped(Signed(minus, Wrapped(x))) == Wrapped(Signed(minus, x))
  {
  }

  lemma WrappedIs(x: int)
    requires IsInt64(x)
    ensures Wrapped(x) == x
  {
  }

  /** The result is the quotient itself, but for the one that an int64_t cannot hold. */
  lemma WrapsOnce(n: int, d: int, q: int, r: int)
    requires IsInt64(n) && IsInt64(d) && d != 0 && Truncates(n, d, q, r)
    ensures Wrapped(r) == r && (Wrapped(q) == q <==> !(n == -HALF && d == -1))
  {
    QuotientBound(n, d, q, r);
    WrappedIs(r);
    if IsInt64(q) {
      WrappedIs(q);
    }
  }

  lemma QuotientBound(n: int, d: int, q: int, r: int)
    requires d != 0 && Truncates(n, d, q, r)
    ensures Abs(r) <= Abs(n) && Abs(q) <= Abs(n) && (Abs(d) >= 2 ==> 2 * Abs(q) <= Abs(n))
    ensures (d == 1 ==> q == n) && (d == -1 ==> q == -n)
  {
    SignedAbs(n, d, q, r);
    MulAtLeast(Abs(q), Abs(d), 1);
    if Abs(d) >= 2 {
      MulAtLeast(Abs(q), Abs(d), 2);
    }
  }

  lemma AbsMul(q: int, d: int)
    ensures Abs(q * d) == Abs(q) * Abs(d)
  {
    if q < 0 && d < 0 {
      assert q * d == (-q) * (-d);
      MulAtLeast(-q, -d, 0);
    } else if q < 0 {
      assert (-q) * d == -(q * d);
      MulAtLeast(-q, d, 0);
    } else if d < 0 {
      assert q * (-d) == -(q * d);
      MulAtLeast(q, -d, 0);
    } else {
      MulAtLeast(q, d, 0);
    }
  }

  lemma SignedAbs(n: int, d: int, q: int, r: int)
    requires d != 0 && Truncates(n, d, q, r)
    ensures Abs(n) == Abs(q) * Abs(d) + Abs(r)
  {
    AbsMul(q, d);
    if q != 0 {
      MulAtLeast(Abs(d), Abs(q), 1);
      assert Abs(d) * Abs(q) == Abs(q) * Abs(d);
    } else {
      assert q * d == 0;
    }
  }
}
