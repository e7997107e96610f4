/**
 Exclusive or, right shift and population count on natural numbers, as the program's
 unbounded integers behave. Everything is defined bit by bit from the low end.
 */
module Bits {

  type byte = x: int | 0 <= x < 256

  function Xor(x: nat, y: nat): nat {
    if x == 0 && y == 0 then 0 else 2 * Xor(x / 2, y / 2) + (if x % 2 == y % 2 then 0 else 1)
  }

  /** `x >> n`. */
  function Right(x: nat, n: nat): nat {
    if n == 0 then x else Right(x, n - 1) / 2
  }

  function Pow2(n: nat): (p: nat)
    ensures p > 0
  {
    if n == 0 then 1 else 2 * Pow2(n - 1)
  }

  /** The number of 1 bits. */
  function Ones(x: nat): nat {
    if x == 0 then 0 else x % 2 + Ones(x / 2)
  }

  lemma Powers()
    ensures Pow2(8) == 256 && Pow2(15) == 32768 && Pow2(16) == 65536
  {
    assert Pow2(4) == 16;
    assert Pow2(8) == 256;
    assert Pow2(12) == 4096;
    assert Pow2(15) == 32768;
  }

  lemma {:induction false} XorZero(x: nat)
    ensures Xor(x, 0) == x && Xor(0, x) == x
  {
    if x > 0 {
      XorZero(x / 2);
    }
  }

  lemma {:induction false} XorCommutes(x: nat, y: nat)
    ensures Xor(x, y) == Xor(y, x)
  {
    if x > 0 || y > 0 {
      XorCommutes(x / 2, y / 2);
    }
  }

  lemma XorHalves(x: nat, y: nat)
    ensures Xor(x, y) / 2 == Xor(x / 2, y / 2)
    ensures (Xor(x, y) % 2 == 0) == (x % 2 == y % 2)
  {
    if x == 0 && y == 0 {
      assert Xor(0, 0) == 0;
    }
  }

  lemma LeftHalves(x: nat, y: nat, z: nat)
    ensures Xor(Xor(x, y), z) / 2 == Xor(Xor(x / 2, y / 2), z / 2)
    ensures (Xor(Xor(x, y), z) % 2 == 0) == ((x % 2 == y % 2) == (z % 2 == 0))
  {
    XorHalves(x, y);
    XorHalves(Xor(x, y), z);
  }

  lemma RightHalves(x: nat, y: nat, z: nat)
    ensures Xor(x, Xor(y, z)) / 2 == Xor(x / 2, Xor(y / 2, z / 2))
    ensures (Xor(x, Xor(y, z)) % 2 == 0) == ((x % 2 == y % 2) == (z % 2 == 0))
  {
    XorHalves(y, z);
    XorHalves(x, Xor(y, z));
  }

  lemma SameHalves(l: nat, r: nat)
    requires l / 2 == r / 2 && l % 2 == r % 2
    ensures l == r
  {
  }

  lemma {:induction false} XorAssociates(x: nat, y: nat, z: nat)
    ensures Xor(Xor(x, y), z) == Xor(x, Xor(y, z))
    decreases x + y + z
  {
    hide Xor;
    if x + y + z > 0 {
      XorAssociates(x / 2, y / 2, z / 2);
      LeftHalves(x, y, z);
      RightHalves(x, y, z);
      SameHalves(Xor(Xor(x, y), z), Xor(x, Xor(y, z)));
    } else {
      XorZero(0);
    }
  }

  lemma XorBits(x: nat, y: nat)
    requires x < 2 && y < 2
    ensures Xor(x, y) == if x == y then 0 else 1
  {
    assert Xor(0, 0) == 0;
  }

  lemma {:induction false} XorSelf(x: nat)
    ensures Xor(x, x) == 0
  {
    if x > 0 {
      XorSelf(x / 2);
    }
  }

  /** Applying one mask twice restores the operand. */
  lemma XorTwice(x: nat, y: nat)
    ensures Xor(Xor(x, y), y) == x
  {
    hide Xor;
    XorAssociates(x, y, y);
    XorSelf(y);
    XorZero(x);
  }

  lemma {:induction false} XorSwap(a: nat, b: nat, c: nat, d: nat)
    ensures Xor(Xor(a, b), Xor(c, d)) == Xor(Xor(a, c), Xor(b, d))
  {
    hide Xor;
    XorAssociates(a, b, Xor(c, d));
    XorAssociates(b, c, d);
    XorCommutes(b, c);
    XorAssociates(c, b, d);
    XorAssociates(a, c, Xor(b, d));
  }

  lemma {:induction false} XorBound(x: nat, y: nat, n: nat)
    requires x < Pow2(n) && y < Pow2(n)
    ensures Xor(x, y) < Pow2(n)
  {
    if n > 0 {
      XorBound(x / 2, y / 2, n - 1);
    }
  }

  /** The top bit of the larger operand survives. */
  lemma {:induction false} XorTop(x: nat, y: nat, n: nat)
    requires x < Pow2(n) <= y < Pow2(n + 1)
    ensures Xor(x, y) >= Pow2(n)
  {
    if n > 0 {
      XorTop(x / 2, y / 2, n - 1);
    } else {
      assert Xor(0, 1) == 1;
    }
  }

  lemma {:induction false} XorEqualZero(x: nat, y: nat)
    requires Xor(x, y) == 0
    ensures x == y
  {
    hide Xor;
    XorTwice(x, y);
    XorZero(y);
  }

  lemma {:induction false} OnesXor(x: nat, y: nat)
    ensures (Ones(x) + Ones(y) + Ones(Xor(x, y))) % 2 == 0
  {
    if x > 0 || y > 0 {
      OnesXor(x / 2, y / 2);
      XorHalves(x, y);
    }
  }

  lemma OnesStep(x: nat)
    ensures Ones(x) == x % 2 + Ones(x / 2)
  {
  }

  lemma OnesHalf(m: nat, low: nat)
    ensures Ones(2 * m + low) == low % 2 + Ones(m + low / 2)
  {
    hide Ones;
    OnesStep(2 * m + low);
    assert (2 * m + low) / 2 == m + low / 2 && (2 * m + low) % 2 == low % 2;
  }

  lemma TimesPower(high: nat, n: nat)
    requires n > 0
    ensures high * Pow2(n) == 2 * (high * Pow2(n - 1))
  {
    var p := Pow2(n - 1);
    assert Pow2(n) == 2 * p;
    assert high * (2 * p) == 2 * (high * p);
  }

  lemma {:induction false} OnesConcat(high: nat, low: nat, n: nat)
    requires low < Pow2(n)
    ensures Ones(high * Pow2(n) + low) == Ones(high) + Ones(low)
  {
    if n == 0 {
      assert Pow2(0) == 1 && Ones(0) == 0;
    } else {
      assert low / 2 < Pow2(n - 1);
      hide Ones, Pow2;
      TimesPower(high, n);
      OnesHalf(high * Pow2(n - 1), low);
      OnesConcat(high, low / 2, n - 1);
      OnesStep(low);
    }
  }

  lemma {:induction false} RightZero(x: nat, n: nat)
    requires x < Pow2(n)
    ensures Right(x, n) == 0
  {
    hide Right;
    RightBound(x, n, n);
    assert Pow2(0) == 1;
  }

  lemma {:induction false} RightBound(x: nat, n: nat, k: nat)
    requires x < Pow2(n) && k <= n
    ensures Right(x, k) < Pow2(n - k)
  {
    if k > 0 {
      RightBound(x, n, k - 1);
      assert Pow2(n - k + 1) == 2 * Pow2(n - k);
    }
  }

  /** Numbers below 2^n that agree on every bit are equal. */
  lemma {:induction false} EqualBits(x: nat, y: nat, n: nat)
    requires x < Pow2(n) && y < Pow2(n)
    requires forall k: nat | k < n :: Right(x, k) % 2 == Right(y, k) % 2
    ensures x == y
  {
    var k: nat := n;
    RightZero(x, n);
    RightZero(y, n);
    while k > 0
      invariant 0 <= k <= n && Right(x, k) == Right(y, k)
    {
      k := k - 1;
      assert Right(x, k + 1) == Right(x, k) / 2 && Right(y, k + 1) == Right(y, k) / 2;
    }
  }
}
