/**
 Why two flipped bits never cancel. The register steps as multiplication by x modulo the
 polynomial; started at 1 it first returns to 1 after 32767 steps, more than an envelope has
 bits. The period is found from a few products, not by counting.

 The 16 bits of a register are the coefficients of a polynomial, bit 15 that of 1 and bit 0
 that of x^15. The products themselves are computed on bit vectors.
 */
module Period {
  import opened Bits
  import opened Crc

  const ONE: nat := 0x8000
  const PERIOD: nat := 32767

  // ----- Steps are linear and can be undone ---------------------------------------------

  lemma {:induction false} ShiftsBound16(v: nat, n: nat)
    requires v < 65536
    ensures Shifts(v, n) < 65536
  {
    hide Shift;
    if n > 0 {
      ShiftsBound16(v, n - 1);
      ShiftBound(Shifts(v, n - 1));
    }
  }

  lemma {:induction false} ShiftsAdd(v: nat, m: nat, n: nat)
    ensures Shifts(Shifts(v, m), n) == Shifts(v, m + n)
  {
    hide Shift;
    if n > 0 {
      ShiftsAdd(v, m, n - 1);
    }
  }

  lemma {:induction false} ShiftsLinear(u: nat, v: nat, n: nat)
    ensures Shifts(Xor(u, v), n) == Xor(Shifts(u, n), Shifts(v, n))
  {
    hide Shift, Xor;
    if n > 0 {
      ShiftsLinear(u, v, n - 1);
      ShiftLinear(Shifts(u, n - 1), Shifts(v, n - 1));
    }
  }

  lemma {:induction false} ShiftsOfZero(n: nat)
    ensures Shifts(0, n) == 0
  {
    if n > 0 {
      ShiftsOfZero(n - 1);
      assert Shift(0) == 0;
    }
  }

  lemma ShiftInjective(u: nat, v: nat)
    requires u < 65536 && v < 65536 && Shift(u) == Shift(v)
    ensures u == v
  {
    hide Shift, Xor;
    Powers();
    XorBound(u, v, 16);
    ShiftLinear(u, v);
    XorSelf(Shift(u));
    ShiftNonzero(Xor(u, v));
    XorEqualZero(u, v);
  }

  lemma {:induction false} ShiftsInjective(u: nat, v: nat, n: nat)
    requires u < 65536 && v < 65536 && Shifts(u, n) == Shifts(v, n)
    ensures u == v
  {
    hide Shift;
    if n > 0 {
      ShiftsBound16(u, n - 1);
      ShiftsBound16(v, n - 1);
      ShiftInjective(Shifts(u, n - 1), Shifts(v, n - 1));
      ShiftsInjective(u, v, n - 1);
    }
  }

  // ----- Products ---------------------------------------------------------------------------

  /** The product of the polynomial in the `n` bits of `u`, highest bit first, with `v`. */
  function Product(u: nat, n: nat, v: nat): nat {
    if n == 0 then 0
    else Xor(Product(u / 2, n - 1, v), if u % 2 == 1 then Shifts(v, n - 1) else 0)
  }

  lemma {:induction false} ProductLinear(u: nat, n: nat, v: nat, w: nat)
    ensures Product(u, n, Xor(v, w)) == Xor(Product(u, n, v), Product(u, n, w))
  {
    hide Xor, Shifts;
    XorZero(0);
    if n > 0 {
      ProductLinear(u / 2, n - 1, v, w);
      ShiftsLinear(v, w, n - 1);
      var p, q := if u % 2 == 1 then Shifts(v, n - 1) else 0, if u % 2 == 1 then Shifts(w, n - 1) else 0;
      XorSwap(Product(u / 2, n - 1, v), Product(u / 2, n - 1, w), p, q);
    }
  }

  lemma {:induction false} ProductAdds(u: nat, w: nat, n: nat, v: nat)
    ensures Product(Xor(u, w), n, v) == Xor(Product(u, n, v), Product(w, n, v))
  {
    hide Xor, Shifts;
    XorZero(0);
    if n > 0 {
      XorHalves(u, w);
      ProductAdds(u / 2, w / 2, n - 1, v);
      var s := Shifts(v, n - 1);
      var p, q := if u % 2 == 1 then s else 0, if w % 2 == 1 then s else 0;
      XorSelf(s);
      XorZero(s);
      XorSwap(Product(u / 2, n - 1, v), Product(w / 2, n - 1, v), p, q);
    }
  }

  /** A product moves with its right factor. */
  lemma {:induction false} ProductShifts(u: nat, n: nat, v: nat, k: nat)
    ensures Product(u, n, Shifts(v, k)) == Shifts(Product(u, n, v), k)
  {
    hide Xor, Shifts;
    if n == 0 {
      ShiftsOfZero(k);
    } else {
      ProductShifts(u / 2, n - 1, v, k);
      ShiftsAdd(v, k, n - 1);
      ShiftsAdd(v, n - 1, k);
      ShiftsOfZero(k);
      ShiftsLinear(Product(u / 2, n - 1, v), if u % 2 == 1 then Shifts(v, n - 1) else 0, k);
    }
  }

  lemma {:induction false} ProductOfZero(n: nat, v: nat)
    ensures Product(0, n, v) == 0
  {
    if n > 0 {
      ProductOfZero(n - 1, v);
      assert Xor(0, 0) == 0;
    }
  }

  /** `h << k`. */
  function Left(h: nat, k: nat): nat {
    if k == 0 then h else 2 * Left(h, k - 1)
  }

  lemma {:induction false} LeftTwice(h: nat, k: nat)
    ensures Left(2 * h, k) == Left(h, k + 1)
  {
    if k > 0 { LeftTwice(h, k - 1); }
  }

  lemma {:induction false} LeftOne(k: nat)
    ensures Left(1, k) == Pow2(k)
  {
    if k > 0 { LeftOne(k - 1); }
  }

  lemma XorDoubles(x: nat, y: nat)
    ensures Xor(2 * x, 2 * y) == 2 * Xor(x, y)
  {
    XorZero(0);
  }

  lemma XorLowBit(h: nat)
    ensures Xor(2 * h, 1) == 2 * h + 1
  {
    var x := 2 * h;
    XorHalves(x, 1);
    XorZero(h);
    assert x / 2 == h && x % 2 == 0;
    hide Xor;
    SameHalves(Xor(x, 1), 2 * h + 1);
  }

  lemma {:induction false} LeftJoins(h: nat, k: nat)
    ensures Left(2 * h + 1, k) == Xor(Left(2 * h, k), Left(1, k))
  {
    hide Xor;
    if k == 0 {
      XorLowBit(h);
    } else {
      LeftJoins(h, k - 1);
      XorDoubles(Left(2 * h, k - 1), Left(1, k - 1));
    }
  }

  /** 1 is neutral on the right. */
  lemma {:induction false} ProductWithOne(u: nat, n: nat)
    requires n <= 16 && u < Pow2(n)
    ensures Product(u, n, ONE) == Left(u, 16 - n)
  {
    hide Xor, Shifts, Left;
    LeftOfZero(16 - n);
    if n > 0 {
      assert Pow2(n) == 2 * Pow2(n - 1);
      ProductWithOne(u / 2, n - 1);
      OneShifted(n - 1);
      LeftOne(16 - n);
      LeftTwice(u / 2, 16 - n);
      LeftJoins(u / 2, 16 - n);
      XorZero(Left(2 * (u / 2), 16 - n));
    } else {
      assert Pow2(0) == 1;
    }
  }

  lemma {:induction false} LeftOfZero(k: nat)
    ensures Left(0, k) == 0
  {
    if k > 0 { LeftOfZero(k - 1); }
  }

  lemma {:induction false} OneShifted(k: nat)
    requires k < 16
    ensures Shifts(ONE, k) == Pow2(15 - k)
  {
    hide Xor;
    if k == 0 {
      Powers();
    } else {
      OneShifted(k - 1);
      assert Pow2(16 - k) == 2 * Pow2(15 - k);
      XorZero(Pow2(15 - k));
    }
  }

  lemma {:induction false} ProductThrough(u: nat, n: nat, c: nat, w: nat)
    ensures Product(c, 16, Product(u, n, w)) == Product(u, n, Product(c, 16, w))
  {
    hide Xor, Shifts;
    if n == 0 {
      ProductOfZeroRight(c, 16);
    } else {
      ProductThrough(u / 2, n - 1, c, w);
      ProductShifts(c, 16, w, n - 1);
      ProductOfZeroRight(c, 16);
      ProductLinear(c, 16, Product(u / 2, n - 1, w), if u % 2 == 1 then Shifts(w, n - 1) else 0);
    }
  }

  lemma {:induction false} ProductOfZeroRight(u: nat, n: nat)
    ensures Product(u, n, 0) == 0
  {
    if n > 0 {
      ProductOfZeroRight(u / 2, n - 1);
      ShiftsOfZero(n - 1);
      assert Xor(0, 0) == 0;
    }
  }

  /** Sixteen steps are the product with the polynomial: x^16 = 1 + x^5 + x^12. */
  lemma SixteenSteps(v: nat)
    requires v < 65536
    ensures Shifts(v, 16) == Product(POLYNOMIAL, 16, v)
  {
    hide Xor, Shifts, Product;
    Powers();
    assert Left(v, 0) == v && Left(POLYNOMIAL, 0) == POLYNOMIAL;
    ProductWithOne(v, 16);
    ProductWithOne(POLYNOMIAL, 16);
    ProductShifts(v, 16, ONE, 16);
    ProductThrough(v, 16, POLYNOMIAL, ONE);
    OneAfterSixteen();
  }

  lemma OneAfterSixteen()
    ensures Shifts(ONE, 16) == POLYNOMIAL
  {
    hide Xor;
    OneShifted(15);
    assert Pow2(0) == 1;
    XorZero(POLYNOMIAL);
    XorCommutes(0, POLYNOMIAL);
  }

  lemma {:induction false} ProductWider(h: nat, n: nat, v: nat)
    requires h < Pow2(n)
    ensures Product(h, n + 1, v) == Product(h, n, Shift(v))
  {
    hide Xor, Shift;
    if n == 0 {
      assert Pow2(0) == 1;
      ProductOfZero(1, v);
    } else {
      ProductWider(h / 2, n - 1, Shift(v)) by { assert Pow2(n) == 2 * Pow2(n - 1); }
      ProductWider(h / 2, n - 1, v);
      ShiftsAdd(v, 1, n - 1);
      assert Shifts(v, 1) == Shift(v) by { assert Shifts(v, 0) == v; }
    }
  }

  /** A step of the left factor is a step of the right one. */
  lemma ProductStep(u: nat, v: nat)
    requires u < 65536 && v < 65536
    ensures Product(Shift(u), 16, v) == Product(u, 16, Shift(v))
  {
    hide Xor, Shifts, Product;
    Powers();
    var carry := if u % 2 == 1 then POLYNOMIAL else 0;
    ProductAdds(u / 2, carry, 16, v);
    ProductWider(u / 2, 15, v);
    ProductOfZero(16, v);
    SixteenSteps(v);
    ShiftsAdd(v, 1, 15);
    OneStep(v);
    UnfoldProduct(u, v);
  }

  lemma OneStep(v: nat)
    ensures Shifts(v, 1) == Shift(v)
  {
    assert Shifts(v, 0) == v;
  }

  lemma UnfoldProduct(u: nat, v: nat)
    ensures Product(u, 16, Shift(v)) == Xor(Product(u / 2, 15, Shift(v)), if u % 2 == 1 then Shifts(Shift(v), 15) else 0)
  {
  }

  /** Any number of steps is one product. */
  lemma {:induction false} StepsAreAProduct(m: nat, v: nat)
    requires v < 65536
    ensures Shifts(v, m) == Product(Shifts(ONE, m), 16, v)
  {
    hide Xor, Shift, Product;
    if m == 0 {
      assert Shifts(ONE, 0) == ONE && Shifts(v, 0) == v;
      OneOnTheLeft(v);
    } else {
      ShiftBound(v);
      StepsAreAProduct(m - 1, Shift(v));
      ShiftsAdd(v, 1, m - 1);
      OneStep(v);
      ShiftsBound16(ONE, m - 1);
      ProductStep(Shifts(ONE, m - 1), v);
    }
  }

  lemma OneOnTheLeft(v: nat)
    ensures Product(ONE, 16, v) == v
  {
    hide Xor;
    assert Product(1, 1, v) == Xor(Product(0, 0, v), Shifts(v, 0));
    XorZero(v);
    TimesX(1, 1, v);
    TimesX(2, 2, v);
    TimesX(4, 3, v);
    TimesX(8, 4, v);
    TimesX(16, 5, v);
    TimesX(32, 6, v);
    TimesX(64, 7, v);
    TimesX(128, 8, v);
    TimesX(256, 9, v);
    TimesX(512, 10, v);
    TimesX(1024, 11, v);
    TimesX(2048, 12, v);
    TimesX(4096, 13, v);
    TimesX(8192, 14, v);
    TimesX(16384, 15, v);
  }

  lemma TimesX(u: nat, n: nat, v: nat)
    ensures Product(2 * u, n + 1, v) == Product(u, n, v)
  {
    hide Xor;
    XorZero(Product(u, n, v));
    assert 2 * u / 2 == u && 2 * u % 2 == 0;
  }

  lemma Multiply(m: nat, n: nat, x: nat, y: nat)
    requires Shifts(ONE, m) == x && Shifts(ONE, n) == y
    ensures Shifts(ONE, n + m) == Product(x, 16, y)
  {
    hide Shift, Product;
    ShiftsBound16(ONE, n);
    StepsAreAProduct(m, y);
    ShiftsAdd(ONE, n, m);
  }
  // ----- Registers as bit vectors ----------------------------------------------------------------

  function Half(v: bv16): bv16 {
    v >> 1
  }

  predicate IsOdd(v: bv16) {
    v & 1 == 1
  }

  function Plus(u: bv16, v: bv16): bv16 {
    u ^ v
  }

  lemma PlusBits(u: bv16, v: bv16)
    ensures Half(Plus(u, v)) == Plus(Half(u), Half(v))
    ensures IsOdd(Plus(u, v)) <==> IsOdd(u) != IsOdd(v)
  {
  }

  /** The number in the lowest `n` bits. */
  function Low(v: bv16, n: nat): nat {
    if n == 0 then 0 else 2 * Low(Half(v), n - 1) + if IsOdd(v) then 1 else 0
  }

  function Number(v: bv16): nat {
    Low(v, 16)
  }

  function Down(v: bv16, n: nat): bv16 {
    if n == 0 then v else Down(Half(v), n - 1)
  }

  lemma ZeroIsEven()
    ensures !IsOdd(0) && Half(0) == 0
  {
  }

  lemma {:induction false} NothingAbove(v: bv16, n: nat)
    requires Down(v, n) == 0
    ensures Low(v, n + 1) == Low(v, n)
    decreases n
  {
    hide Half, IsOdd;
    if n > 0 {
      NothingAbove(Half(v), n - 1);
    } else {
      ZeroIsEven();
      assert Low(Half(v), 0) == 0;
    }
  }

  lemma HalfIsLow(v: bv16)
    ensures Down(Half(v), 15) == 0
  {
    var w := Half(v);
    var w4 := Half(Half(Half(Half(w))));
    var w8 := Half(Half(Half(Half(w4))));
    var w12 := Half(Half(Half(Half(w8))));
    assert Half(Half(Half(w12))) == 0;
    hide Half;
    FourDown(w, 15);
    FourDown(w4, 11);
    FourDown(w8, 7);
    assert Down(w12, 3) == Down(Half(w12), 2) == Down(Half(Half(w12)), 1) == Down(Half(Half(Half(w12))), 0);
  }

  lemma FourDown(v: bv16, n: nat)
    requires n >= 4
    ensures Down(v, n) == Down(Half(Half(Half(Half(v)))), n - 4)
  {
    hide Half;
    assert Down(Half(Half(v)), n - 2) == Down(Half(Half(Half(v))), n - 3);
  }

  lemma NumberStep(v: bv16)
    ensures Number(v) == 2 * Number(Half(v)) + if IsOdd(v) then 1 else 0
  {
    hide Half, IsOdd;
    HalfIsLow(v);
    NothingAbove(Half(v), 15);
  }

  lemma {:induction false} LowXor(u: bv16, v: bv16, n: nat)
    ensures Xor(Low(u, n), Low(v, n)) == Low(Plus(u, v), n)
    decreases n
  {
    hide Half, IsOdd, Plus, Xor;
    if n == 0 {
      XorZero(0);
    } else {
      LowXor(Half(u), Half(v), n - 1);
      PlusBits(u, v);
      JoinXor(Low(Half(u), n - 1), Low(Half(v), n - 1), IsOdd(u), IsOdd(v));
    }
  }

  lemma JoinXor(x: nat, y: nat, a: bool, b: bool)
    ensures Xor(2 * x + if a then 1 else 0, 2 * y + if b then 1 else 0) == 2 * Xor(x, y) + if a != b then 1 else 0
  {
    var l, r := 2 * x + if a then 1 else 0, 2 * y + if b then 1 else 0;
    XorHalves(l, r);
    assert l / 2 == x && r / 2 == y;
    hide Xor;
    SameHalves(Xor(l, r), 2 * Xor(x, y) + if a != b then 1 else 0);
  }

  lemma Constants()
    ensures Number(0) == 0 && Number(1) == 1 && Number(0x8408) == POLYNOMIAL && Number(0x8000) == ONE
  {
    hide Number;
    NumberOfZero();
    NumberStep(1);
    NumberStep(0x0002);
    NumberStep(0x0004);
    NumberStep(0x0008);
    NumberStep(0x0010);
    NumberStep(0x0021);
    NumberStep(0x0042);
    NumberStep(0x0084);
    NumberStep(0x0108);
    NumberStep(0x0210);
    NumberStep(0x0420);
    NumberStep(0x0840);
    NumberStep(0x1081);
    NumberStep(0x2102);
    NumberStep(0x4204);
    NumberStep(0x8408);
    NumberStep(0x0002);
    NumberStep(0x0004);
    NumberStep(0x0008);
    NumberStep(0x0010);
    NumberStep(0x0020);
    NumberStep(0x0040);
    NumberStep(0x0080);
    NumberStep(0x0100);
    NumberStep(0x0200);
    NumberStep(0x0400);
    NumberStep(0x0800);
    NumberStep(0x1000);
    NumberStep(0x2000);
    NumberStep(0x4000);
    NumberStep(0x8000);
  }

  lemma NumberOfZero()
    ensures Number(0) == 0
  {
    LowOfZero(16);
  }

  lemma {:induction false} LowOfZero(n: nat)
    ensures Low(0, n) == 0
  {
    hide Half, IsOdd;
    ZeroIsEven();
    if n > 0 { LowOfZero(n - 1); }
  }

  function Pick(u: bv16, v: bv16): bv16 {
    if IsOdd(u) then v else 0
  }

  function Step(v: bv16): bv16 {
    Plus(Half(v), Pick(v, 0x8408))
  }

  lemma StepIsShift(v: bv16)
    ensures Shift(Number(v)) == Number(Step(v))
  {
    hide Xor, Half, IsOdd, Plus, Number;
    NumberStep(v);
    Constants();
    NumberXor(Half(v), Pick(v, 0x8408));
  }

  function Flat(u: bv16, v: bv16): bv16 {
    var u1 := Half(u); var u2 := Half(u1); var u3 := Half(u2); var u4 := Half(u3); var u5 := Half(u4);
    var u6 := Half(u5); var u7 := Half(u6); var u8 := Half(u7); var u9 := Half(u8); var u10 := Half(u9);
    var u11 := Half(u10); var u12 := Half(u11); var u13 := Half(u12); var u14 := Half(u13); var u15 := Half(u14);
    var v1 := Step(v); var v2 := Step(v1); var v3 := Step(v2); var v4 := Step(v3); var v5 := Step(v4);
    var v6 := Step(v5); var v7 := Step(v6); var v8 := Step(v7); var v9 := Step(v8); var v10 := Step(v9);
    var v11 := Step(v10); var v12 := Step(v11); var v13 := Step(v12); var v14 := Step(v13); var v15 := Step(v14);
    var p1 := Pick(u15, v); var p2 := Plus(p1, Pick(u14, v1)); var p3 := Plus(p2, Pick(u13, v2));
    var p4 := Plus(p3, Pick(u12, v3)); var p5 := Plus(p4, Pick(u11, v4)); var p6 := Plus(p5, Pick(u10, v5));
    var p7 := Plus(p6, Pick(u9, v6)); var p8 := Plus(p7, Pick(u8, v7)); var p9 := Plus(p8, Pick(u7, v8));
    var p10 := Plus(p9, Pick(u6, v9)); var p11 := Plus(p10, Pick(u5, v10)); var p12 := Plus(p11, Pick(u4, v11));
    var p13 := Plus(p12, Pick(u3, v12)); var p14 := Plus(p13, Pick(u2, v13)); var p15 := Plus(p14, Pick(u1, v14));
    var p16 := Plus(p15, Pick(u, v15));
    p16
  }

  /** One bit more of the left factor. */
  lemma OneMoreBit(u: bv16, n: nat, v: nat, p: bv16, s: bv16)
    requires n > 0 && Product(Number(Half(u)), n - 1, v) == Number(p) && Shifts(v, n - 1) == Number(s)
    ensures Product(Number(u), n, v) == Number(Plus(p, Pick(u, s)))
  {
    hide Xor, Shifts, Number, Half, IsOdd, Plus;
    NumberStep(u);
    NumberOfZero();
    NumberXor(p, Pick(u, s));
  }

  lemma NumberXor(u: bv16, v: bv16)
    ensures Xor(Number(u), Number(v)) == Number(Plus(u, v))
  {
    LowXor(u, v, 16);
  }

  lemma NextShift(v: nat, n: nat, s: bv16)
    requires Shifts(v, n) == Number(s)
    ensures Shifts(v, n + 1) == Number(Step(s))
  {
    hide Shift, Number, Step;
    StepIsShift(s);
  }

  /** The product, computed on bit vectors. */
  lemma FlatIsProduct(u: bv16, v: bv16)
    ensures Product(Number(u), 16, Number(v)) == Number(Flat(u, v))
  {
    hide Step, Pick, Number, Product, Half, Plus;
    var u1 := Half(u); var u2 := Half(u1); var u3 := Half(u2); var u4 := Half(u3); var u5 := Half(u4);
    var u6 := Half(u5); var u7 := Half(u6); var u8 := Half(u7); var u9 := Half(u8); var u10 := Half(u9);
    var u11 := Half(u10); var u12 := Half(u11); var u13 := Half(u12); var u14 := Half(u13); var u15 := Half(u14);
    var v1 := Step(v); var v2 := Step(v1); var v3 := Step(v2); var v4 := Step(v3); var v5 := Step(v4);
    var v6 := Step(v5); var v7 := Step(v6); var v8 := Step(v7); var v9 := Step(v8); var v10 := Step(v9);
    var v11 := Step(v10); var v12 := Step(v11); var v13 := Step(v12); var v14 := Step(v13); var v15 := Step(v14);
    var p1 := Pick(u15, v); var p2 := Plus(p1, Pick(u14, v1)); var p3 := Plus(p2, Pick(u13, v2));
    var p4 := Plus(p3, Pick(u12, v3)); var p5 := Plus(p4, Pick(u11, v4)); var p6 := Plus(p5, Pick(u10, v5));
    var p7 := Plus(p6, Pick(u9, v6)); var p8 := Plus(p7, Pick(u8, v7)); var p9 := Plus(p8, Pick(u7, v8));
    var p10 := Plus(p9, Pick(u6, v9)); var p11 := Plus(p10, Pick(u5, v10)); var p12 := Plus(p11, Pick(u4, v11));
    var p13 := Plus(p12, Pick(u3, v12)); var p14 := Plus(p13, Pick(u2, v13)); var p15 := Plus(p14, Pick(u1, v14));
    var p16 := Plus(p15, Pick(u, v15));
    var x := Number(v);
    assert Shifts(x, 0) == x;
    hide Shifts;
    NextShift(x, 0, v);
    NextShift(x, 1, v1);
    NextShift(x, 2, v2);
    NextShift(x, 3, v3);
    NextShift(x, 4, v4);
    NextShift(x, 5, v5);
    NextShift(x, 6, v6);
    NextShift(x, 7, v7);
    NextShift(x, 8, v8);
    NextShift(x, 9, v9);
    NextShift(x, 10, v10);
    NextShift(x, 11, v11);
    NextShift(x, 12, v12);
    NextShift(x, 13, v13);
    NextShift(x, 14, v14);
    FirstBit(u15, x, v);
    OneMoreBit(u14, 2, x, p1, v1);
    OneMoreBit(u13, 3, x, p2, v2);
    OneMoreBit(u12, 4, x, p3, v3);
    OneMoreBit(u11, 5, x, p4, v4);
    OneMoreBit(u10, 6, x, p5, v5);
    OneMoreBit(u9, 7, x, p6, v6);
    OneMoreBit(u8, 8, x, p7, v7);
    OneMoreBit(u7, 9, x, p8, v8);
    OneMoreBit(u6, 10, x, p9, v9);
    OneMoreBit(u5, 11, x, p10, v10);
    OneMoreBit(u4, 12, x, p11, v11);
    OneMoreBit(u3, 13, x, p12, v12);
    OneMoreBit(u2, 14, x, p13, v13);
    OneMoreBit(u1, 15, x, p14, v14);
    OneMoreBit(u, 16, x, p15, v15);
  }

  lemma FirstBit(u: bv16, x: nat, v: bv16)
    requires x == Number(v)
    ensures Product(Number(u), 1, x) == Number(Pick(u, v))
  {
    hide Number, Xor, Half, IsOdd;
    NumberStep(u);
    NumberOfZero();
    XorZero(x);
    XorZero(0);
    assert Product(Number(u) / 2, 0, x) == 0 && Shifts(x, 0) == x;
  }

  // ----- Where the register is ---------------------------------------------------------------------

  ghost predicate At(n: nat, v: bv16) {
    Shifts(ONE, n) == Number(v)
  }

  lemma Later(m: nat, n: nat, u: bv16, v: bv16)
    requires At(m, u) && At(n, v)
    ensures At(m + n, Flat(u, v))
  {
    hide Shifts, Product, Number, Flat;
    Multiply(m, n, Number(u), Number(v));
    FlatIsProduct(u, v);
  }

  lemma Doublings()
    ensures At(1, 0x4000) && At(2, 0x2000) && At(4, 0x0800) && At(8, 0x0080) && At(16, 0x8408) && At(32, 0x0CEC)
    ensures At(64, 0x861D) && At(128, 0x3F75) && At(256, 0x9471) && At(512, 0x3FC8) && At(1024, 0x236C)
    ensures At(2048, 0x0ABF) && At(4096, 0x7955) && At(8192, 0x3811) && At(16384, 0x1A22) && At(32768, 0x4000)
  {
    AtOne();
    hide At, Flat;
    SquaresTo16();
    SquaresTo256();
    SquaresTo4096();
    SquaresTo32768();
    Later(1, 1, 0x4000, 0x4000);
    Later(2, 2, 0x2000, 0x2000);
    Later(4, 4, 0x0800, 0x0800);
    Later(8, 8, 0x0080, 0x0080);
    Later(16, 16, 0x8408, 0x8408);
    Later(32, 32, 0x0CEC, 0x0CEC);
    Later(64, 64, 0x861D, 0x861D);
    Later(128, 128, 0x3F75, 0x3F75);
    Later(256, 256, 0x9471, 0x9471);
    Later(512, 512, 0x3FC8, 0x3FC8);
    Later(1024, 1024, 0x236C, 0x236C);
    Later(2048, 2048, 0x0ABF, 0x0ABF);
    Later(4096, 4096, 0x7955, 0x7955);
    Later(8192, 8192, 0x3811, 0x3811);
    Later(16384, 16384, 0x1A22, 0x1A22);
  }

  lemma AtOne()
    ensures At(1, 0x4000)
  {
    Constants();
    assert Shifts(ONE, 0) == ONE;
    StepIsShift(0x8000);
  }

  // The squares, by computation.

  lemma SquaresTo16()
    ensures Flat(0x4000, 0x4000) == 0x2000
    ensures Flat(0x2000, 0x2000) == 0x0800
    ensures Flat(0x0800, 0x0800) == 0x0080
    ensures Flat(0x0080, 0x0080) == 0x8408
  {
  }

  lemma SquaresTo256()
    ensures Flat(0x8408, 0x8408) == 0x0CEC
    ensures Flat(0x0CEC, 0x0CEC) == 0x861D
    ensures Flat(0x861D, 0x861D) == 0x3F75
    ensures Flat(0x3F75, 0x3F75) == 0x9471
  {
  }

  lemma SquaresTo4096()
    ensures Flat(0x9471, 0x9471) == 0x3FC8
    ensures Flat(0x3FC8, 0x3FC8) == 0x236C
    ensures Flat(0x236C, 0x236C) == 0x0ABF
    ensures Flat(0x0ABF, 0x0ABF) == 0x7955
  {
  }

  lemma SquaresTo32768()
    ensures Flat(0x7955, 0x7955) == 0x3811
    ensures Flat(0x3811, 0x3811) == 0x1A22
    ensures Flat(0x1A22, 0x1A22) == 0x4000
  {
  }

  // ----- The period --------------------------------------------------------------------------------

  /** The register started at 1 is back after `n` steps. */
  ghost predicate Returns(n: nat) {
    Shifts(ONE, n) == ONE
  }

  lemma NotAfter217()
    ensures !Returns(217)
  {
    Doublings();
    ProductsTo217();
    hide At, Flat;
    Later(128, 64, 0x3F75, 0x861D);
    Later(192, 16, 0xD0A6, 0x8408);
    Later(208, 8, 0x2DA2, 0x0080);
    Later(216, 1, 0x8635, 0x4000);
    NotBack(217, 0xC712);
  }

  lemma ProductsTo217()
    ensures Flat(0x3F75, 0x861D) == 0xD0A6
    ensures Flat(0xD0A6, 0x8408) == 0x2DA2
    ensures Flat(0x2DA2, 0x0080) == 0x8635
    ensures Flat(0x8635, 0x4000) == 0xC712
  {
  }

  lemma NotAfter1057()
    ensures !Returns(1057)
  {
    Doublings();
    ProductsTo1057();
    hide At, Flat;
    Later(1024, 32, 0x236C, 0x0CEC);
    Later(1, 1056, 0x4000, 0xE28F);
    NotBack(1057, 0xF54F);
  }

  lemma ProductsTo1057()
    ensures Flat(0x236C, 0x0CEC) == 0xE28F
    ensures Flat(0x4000, 0xE28F) == 0xF54F
  {
  }

  lemma NotAfter4681()
    ensures !Returns(4681)
  {
    Doublings();
    ProductsTo4681();
    hide At, Flat;
    Later(4096, 512, 0x7955, 0x3FC8);
    Later(4608, 64, 0x052A, 0x861D);
    Later(4672, 8, 0x6080, 0x0080);
    Later(4680, 1, 0x8468, 0x4000);
    NotBack(4681, 0x4234);
  }

  lemma ProductsTo4681()
    ensures Flat(0x7955, 0x3FC8) == 0x052A
    ensures Flat(0x052A, 0x861D) == 0x6080
    ensures Flat(0x6080, 0x0080) == 0x8468
    ensures Flat(0x8468, 0x4000) == 0x4234
  {
  }

  /** A register with one of the lowest three bits set is not 1. */
  lemma NotBack(n: nat, v: bv16)
    requires At(n, v) && (IsOdd(v) || IsOdd(Half(v)) || IsOdd(Half(Half(v))))
    ensures !Returns(n)
  {
    hide Number, Half, IsOdd, Shifts;
    NumberStep(v);
    NumberStep(Half(v));
    NumberStep(Half(Half(v)));
  }

  lemma FullPeriod()
    ensures Returns(PERIOD)
  {
    Doublings();
    AtOne();
    hide Number, Shift;
    ShiftsBound16(ONE, PERIOD);
    OneStep(Shifts(ONE, PERIOD));
    OneStep(ONE);
    hide Shifts;
    ShiftsAdd(ONE, PERIOD, 1);
    ShiftInjective(Shifts(ONE, PERIOD), ONE);
  }

  lemma ReturnsDifference(m: nat, n: nat)
    requires Returns(m + n) && Returns(n)
    ensures Returns(m)
  {
    hide Shifts;
    ShiftsAdd(ONE, m, n);
    ShiftsBound16(ONE, m);
    ShiftsInjective(Shifts(ONE, m), ONE, n);
  }

  lemma {:induction false} ReturnsMultiple(n: nat, k: nat)
    requires Returns(n)
    ensures Returns(n * k)
  {
    if k == 0 {
      assert Shifts(ONE, 0) == ONE;
    } else {
      hide Shifts;
      ReturnsMultiple(n, k - 1);
      ShiftsAdd(ONE, n * (k - 1), n);
      assert n * (k - 1) + n == n * k;
    }
  }

  /** A common divisor of two times of return is one as well. */
  lemma {:induction false} ReturnsGcd(m: nat, n: nat) returns (g: nat, a: nat, b: nat)
    requires m > 0 && n > 0 && Returns(m) && Returns(n)
    ensures g > 0 && Returns(g) && m == a * g && n == b * g
    decreases m + n
  {
    hide Returns;
    if m == n {
      g, a, b := m, 1, 1;
    } else if m > n {
      ReturnsDifference(m - n, n);
      g, a, b := ReturnsGcd(m - n, n);
      assert m == a * g + b * g == (a + b) * g;
      a := a + b;
    } else {
      ReturnsDifference(n - m, m);
      g, a, b := ReturnsGcd(m, n - m);
      assert n == a * g + b * g == (a + b) * g;
      b := a + b;
    }
  }

  /** 32767 is 7 * 31 * 151: a divisor is one of eight numbers. */
  predicate DivisorsUpTo(n: nat) {
    n < 2 || ((PERIOD % n != 0 || n in {7, 31, 151}) && DivisorsUpTo(n - 1))
  }

  lemma {:induction false} SmallDivisor(d: nat, n: nat)
    requires 2 <= d <= n && DivisorsUpTo(n) && PERIOD % d == 0
    ensures d in {7, 31, 151}
  {
    if d < n {
      SmallDivisor(d, n - 1);
    }
  }

  lemma SmallDivisors(d: nat)
    requires 2 <= d <= 181 && PERIOD % d == 0
    ensures d in {7, 31, 151}
  {
    DivisorsUpTo61();
    DivisorsUpTo121();
    DivisorsUpTo181();
    SmallDivisor(d, 181);
  }

  lemma DivisorsUpTo61()
    ensures DivisorsUpTo(61)
  {
    assert DivisorsUpTo(1) && DivisorsUpTo(3) && DivisorsUpTo(5) && DivisorsUpTo(7) && DivisorsUpTo(9) && DivisorsUpTo(11);
    assert DivisorsUpTo(13) && DivisorsUpTo(15) && DivisorsUpTo(17) && DivisorsUpTo(19) && DivisorsUpTo(21) && DivisorsUpTo(23);
    assert DivisorsUpTo(25) && DivisorsUpTo(27) && DivisorsUpTo(29) && DivisorsUpTo(31) && DivisorsUpTo(33) && DivisorsUpTo(35);
    assert DivisorsUpTo(37) && DivisorsUpTo(39) && DivisorsUpTo(41) && DivisorsUpTo(43) && DivisorsUpTo(45) && DivisorsUpTo(47);
    assert DivisorsUpTo(49) && DivisorsUpTo(51) && DivisorsUpTo(53) && DivisorsUpTo(55) && DivisorsUpTo(57) && DivisorsUpTo(59);
    assert DivisorsUpTo(61);
  }

  lemma DivisorsUpTo121()
    requires DivisorsUpTo(61)
    ensures DivisorsUpTo(121)
  {
    assert DivisorsUpTo(63) && DivisorsUpTo(65) && DivisorsUpTo(67) && DivisorsUpTo(69) && DivisorsUpTo(71) && DivisorsUpTo(73);
    assert DivisorsUpTo(75) && DivisorsUpTo(77) && DivisorsUpTo(79) && DivisorsUpTo(81) && DivisorsUpTo(83) && DivisorsUpTo(85);
    assert DivisorsUpTo(87) && DivisorsUpTo(89) && DivisorsUpTo(91) && DivisorsUpTo(93) && DivisorsUpTo(95) && DivisorsUpTo(97);
    assert DivisorsUpTo(99) && DivisorsUpTo(101) && DivisorsUpTo(103) && DivisorsUpTo(105) && DivisorsUpTo(107) && DivisorsUpTo(109);
    assert DivisorsUpTo(111) && DivisorsUpTo(113) && DivisorsUpTo(115) && DivisorsUpTo(117) && DivisorsUpTo(119) && DivisorsUpTo(121);
  }

  lemma DivisorsUpTo181()
    requires DivisorsUpTo(121)
    ensures DivisorsUpTo(181)
  {
    assert DivisorsUpTo(123) && DivisorsUpTo(125) && DivisorsUpTo(127) && DivisorsUpTo(129) && DivisorsUpTo(131) && DivisorsUpTo(133);
    assert DivisorsUpTo(135) && DivisorsUpTo(137) && DivisorsUpTo(139) && DivisorsUpTo(141) && DivisorsUpTo(143) && DivisorsUpTo(145);
    assert DivisorsUpTo(147) && DivisorsUpTo(149) && DivisorsUpTo(151) && DivisorsUpTo(153) && DivisorsUpTo(155) && DivisorsUpTo(157);
    assert DivisorsUpTo(159) && DivisorsUpTo(161) && DivisorsUpTo(163) && DivisorsUpTo(165) && DivisorsUpTo(167) && DivisorsUpTo(169);
    assert DivisorsUpTo(171) && DivisorsUpTo(173) && DivisorsUpTo(175) && DivisorsUpTo(177) && DivisorsUpTo(179) && DivisorsUpTo(181);
  }

  lemma NoSmallMultiple(b: int, k: int, r: int)
    requires b > 0 && b * k == r && 0 <= r < b
    ensures r == 0
  {
    assert k >= 1 ==> b * k >= b;
    assert k <= -1 ==> b * k <= -b;
  }

  lemma Exact(b: nat, g: nat)
    requires b > 0
    ensures b * g % b == 0
  {
    var x := b * g;
    var q, r := x / b, x % b;
    assert x == b * q + r;
    assert b * (g - q) == r;
    NoSmallMultiple(b, g - q, r);
  }

  lemma Large(b: nat, g: nat)
    ensures b >= 182 && g >= 182 ==> b * g >= 33124
  {
    if b >= 182 && g >= 182 {
      assert b * g >= 182 * g;
    }
  }

  lemma FactorDivides(b: nat, g: nat)
    requires b * g == PERIOD && b > 0 && g > 0
    ensures PERIOD % b == 0 && PERIOD % g == 0 && (b <= 181 || g <= 181)
  {
    Exact(b, g);
    Exact(g, b);
    assert g * b == b * g;
    Large(b, g);
  }

  lemma SmallerFactor(n: nat, a: nat, b: nat, g: nat)
    requires 0 < n < PERIOD && n == a * g && PERIOD == b * g
    ensures b >= 2 && g > 0
  {
    assert a >= 1 ==> a * g >= g;
    assert b <= 1 ==> b * g <= g;
  }

  /** An early return would mean one after a seventh, a 31st or a 151st of the period. */
  lemma EarlyReturn(n: nat)
    requires 0 < n < PERIOD && Returns(n)
    ensures Returns(217) || Returns(1057) || Returns(4681)
  {
    hide Returns;
    FullPeriod();
    var g, a, b := ReturnsGcd(n, PERIOD);
    SmallerFactor(n, a, b, g);
    FactorDivides(b, g);
    if b <= 181 {
      SmallDivisors(b);
      assert g == 4681 || g == 1057 || g == 217;
    } else if g == 1 {
      ReturnsMultiple(1, 217);
    } else {
      SmallDivisors(g);
      ReturnsMultiple(g, if g == 7 then 31 else 7);
    }
  }

  /** The register does not return before its period is over. */
  lemma NoEarlyReturn(n: nat)
    requires 0 < n < PERIOD
    ensures !Returns(n)
  {
    hide Returns;
    NotAfter217();
    NotAfter1057();
    NotAfter4681();
    if Returns(n) {
      EarlyReturn(n);
    }
  }
}
