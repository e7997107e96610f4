/**
 Two envelope bodies that both carry their check sequence differ in at least four bits: one,
 two or three flipped bits are always noticed, wherever they are, the check sequence included.
 */
module Distance {
  import opened Base
  import opened Bits
  import opened Crc
  import opened Period
  import opened Protocol

  // ----- Counting bits in transmission order ------------------------------------------------

  /** In how many of the first `n` bits two messages differ. */
  function BitFlips(a: seq<byte>, b: seq<byte>, n: nat): nat
    requires |a| == |b| && n <= 8 * |a|
  {
    if n == 0 then 0 else BitFlips(a, b, n - 1) + if Bit(a, n - 1) != Bit(b, n - 1) then 1 else 0
  }

  lemma OnesOfXor(x: nat, y: nat)
    ensures Ones(Xor(x, y)) == (if x % 2 != y % 2 then 1 else 0) + Ones(Xor(x / 2, y / 2))
  {
    XorHalves(x, y);
    hide Xor, Ones;
    OnesStep(Xor(x, y));
  }

  lemma {:induction false} FlipsInsideByte(a: seq<byte>, b: seq<byte>, j: nat, k: nat)
    requires |a| == |b| && j < |a| && k <= 8
    ensures BitFlips(a, b, 8 * j + k) + Ones(Xor(Right(a[j], k), Right(b[j], k)))
            == BitFlips(a, b, 8 * j) + Ones(Xor(a[j], b[j]))
  {
    hide Xor, Ones;
    if k > 0 {
      FlipsInsideByte(a, b, j, k - 1);
      OnesOfXor(Right(a[j], k - 1), Right(b[j], k - 1));
      assert (8 * j + k - 1) / 8 == j && (8 * j + k - 1) % 8 == k - 1;
    }
  }

  lemma {:induction false} FlipsAreBitFlips(a: seq<byte>, b: seq<byte>, j: nat)
    requires |a| == |b| && j <= |a|
    ensures Flips(a[..j], b[..j]) == BitFlips(a, b, 8 * j)
  {
    hide Xor, Ones, Bit;
    if j > 0 {
      FlipsAreBitFlips(a, b, j - 1);
      assert a[..j][..j - 1] == a[..j - 1] && b[..j][..j - 1] == b[..j - 1];
      FlipsInsideByte(a, b, j - 1, 8);
      Powers();
      RightZero(a[j - 1], 8);
      RightZero(b[j - 1], 8);
      XorZero(0);
      NoOnes();
    }
  }

  lemma NoOnes()
    ensures Ones(0) == 0
  {
  }

  // ----- What one and two flips do to the register --------------------------------------------

  /** A register of 1 does not come back to 1 within an envelope. */
  lemma LowBitMoves(k: nat)
    requires 0 < k < PERIOD
    ensures Shifts(1, k) != 1
  {
    OneShifted(15);
    assert Pow2(0) == 1;
    hide Shifts, Pow2;
    ShiftsAdd(ONE, 15, k);
    ShiftsAdd(ONE, k, 15);
    if Shifts(1, k) == 1 {
      ShiftsBound16(ONE, k);
      ShiftsInjective(Shifts(ONE, k), ONE, 15);
      NoEarlyReturn(k);
    }
  }

  ghost predicate OneFlipAgo(d: nat, n: nat) {
    exists k: nat :: 1 <= k <= n && d == Shifts(1, k)
  }

  /** The difference of two registers after no, one or two flips. */
  ghost predicate Evolved(d: nat, flips: nat, n: nat) {
    && (flips == 0 ==> d == 0)
    && (flips == 1 ==> OneFlipAgo(d, n))
    && (flips == 2 ==> d != 0)
  }

  lemma EvolvesOnce(d: nat, flips: nat, n: nat, e: nat)
    requires d < 65536 && n + 1 < PERIOD && Evolved(d, flips, n) && e < 2
    ensures Evolved(Shift(Xor(d, e)), flips + e, n + 1)
  {
    hide Xor, Shift;
    XorZero(d);
    XorZero(e);
    if e == 0 {
      if flips == 0 {
        assert Shift(0) == 0 by { ShiftOfZero(); }
      } else if flips == 1 {
        var k: nat :| 1 <= k <= n && d == Shifts(1, k);
        assert Shifts(1, k + 1) == Shift(d);
        assert OneFlipAgo(Shift(d), n + 1);
      } else if flips == 2 {
        ShiftKeepsNonzero(d);
      }
    } else if flips == 0 {
      assert Shifts(1, 0) == 1 && Shifts(1, 1) == Shift(1);
      assert OneFlipAgo(Shift(1), n + 1);
    } else if flips == 1 {
      var k: nat :| 1 <= k <= n && d == Shifts(1, k);
      LowBitMoves(k);
      Powers();
      XorBound(d, 1, 16);
      DifferentIsNonzero(d, 1);
      ShiftKeepsNonzero(Xor(d, 1));
    }
  }

  lemma ShiftOfZero()
    ensures Shift(0) == 0
  {
    XorZero(0);
  }

  lemma ShiftKeepsNonzero(v: nat)
    requires 0 < v < 65536
    ensures Shift(v) != 0
  {
    hide Shift;
    if Shift(v) == 0 {
      ShiftNonzero(v);
    }
  }

  lemma DifferentIsNonzero(x: nat, y: nat)
    requires x != y
    ensures Xor(x, y) != 0
  {
    hide Xor;
    if Xor(x, y) == 0 {
      XorEqualZero(x, y);
    }
  }

  lemma {:induction false} Evolution(a: seq<byte>, b: seq<byte>, n: nat)
    requires |a| == |b| && n <= 8 * |a| && n < PERIOD
    ensures Evolved(Xor(Serial(a, n), Serial(b, n)), BitFlips(a, b, n), n)
  {
    hide Xor, Shift, Bit, Evolved;
    if n == 0 {
      XorSelf(ALL_ONES);
      NothingEvolved();
    } else {
      Evolution(a, b, n - 1);
      DifferenceStep(a, b, n - 1);
      DifferenceBound(a, b, n - 1);
      XorBits(Bit(a, n - 1), Bit(b, n - 1));
      EvolvesOnce(Xor(Serial(a, n - 1), Serial(b, n - 1)), BitFlips(a, b, n - 1), n - 1,
                  Xor(Bit(a, n - 1), Bit(b, n - 1)));
    }
  }

  lemma NothingEvolved()
    ensures Evolved(0, 0, 0)
  {
  }

  // ----- Flips in the check sequence -------------------------------------------------------------

  lemma JoinedXor(x: nat, y: nat, p: nat, q: nat)
    ensures Xor(2 * x + p % 2, 2 * y + q % 2) == 2 * Xor(x, y) + if p % 2 != q % 2 then 1 else 0
  {
    JoinXor(x, y, p % 2 == 1, q % 2 == 1);
  }

  lemma {:induction false} XorConcat(h: nat, l: nat, h': nat, l': nat, n: nat)
    requires l < Pow2(n) && l' < Pow2(n)
    ensures Xor(h * Pow2(n) + l, h' * Pow2(n) + l') == Xor(h, h') * Pow2(n) + Xor(l, l')
  {
    hide Xor;
    if n == 0 {
      assert Pow2(0) == 1;
      XorZero(0);
    } else {
      assert Pow2(n) == 2 * Pow2(n - 1);
      hide Pow2;
      XorConcat(h, l / 2, h', l' / 2, n - 1);
      TimesPower(h, n);
      TimesPower(h', n);
      TimesPower(Xor(h, h'), n);
      JoinedXor(h * Pow2(n - 1) + l / 2, h' * Pow2(n - 1) + l' / 2, l, l');
      JoinedXor(l / 2, l' / 2, l, l');
    }
  }

  lemma WordFlips(h: byte, l: byte, h': byte, l': byte)
    ensures Ones(Xor(Word(h, l), Word(h', l'))) == Ones(Xor(h, h')) + Ones(Xor(l, l'))
  {
    hide Xor, Ones;
    Powers();
    XorConcat(h, l, h', l', 8);
    XorBound(l, l', 8);
    OnesConcat(Xor(h, h'), Xor(l, l'), 8);
  }

  /** A number with a single 1 bit. */
  lemma {:induction false} SingleBit(x: nat, n: nat) returns (j: nat)
    requires x < Pow2(n) && Ones(x) == 1
    ensures j < n && x == Pow2(j)
    decreases n
  {
    assert Pow2(0) == 1;
    if x % 2 == 1 {
      OnesZero(x / 2);
      j := 0;
    } else {
      j := SingleBit(x / 2, n - 1);
      j := j + 1;
    }
  }

  lemma {:induction false} OnesZero(x: nat)
    requires Ones(x) == 0
    ensures x == 0
  {
    if x > 0 { OnesZero(x / 2); }
  }

  lemma {:induction false} SingleBitFalls(j: nat)
    ensures Shifts(Pow2(j), j) == 1
  {
    if j == 0 {
      assert Pow2(0) == 1 && Shifts(1, 0) == 1;
    } else {
      SingleBitFalls(j - 1);
      EvenShifts(Pow2(j - 1));
      hide Shift;
      OneStep(Pow2(j));
      ShiftsAdd(Pow2(j), 1, j - 1);
    }
  }

  lemma EvenShifts(x: nat)
    ensures Shift(2 * x) == x
  {
    XorZero(x);
    assert 2 * x / 2 == x && 2 * x % 2 == 0;
  }

  /** One flip in the message and one in its check sequence do not match. */
  lemma OneAndOne(d: nat, n: nat)
    requires d < 65536 && Ones(d) == 1 && n + 15 < PERIOD
    ensures !OneFlipAgo(d, n)
  {
    hide Ones, Shifts;
    Powers();
    if OneFlipAgo(d, n) {
      var k: nat :| 1 <= k <= n && d == Shifts(1, k);
      var j := SingleBit(d, 16);
      SingleBitFalls(j);
      ShiftsAdd(1, k, j);
      LowBitMoves(k + j);
    }
  }

  // ----- The distance --------------------------------------------------------------------------------

  lemma FcsDifference(a: seq<byte>, b: seq<byte>)
    requires |a| == |b|
    ensures Xor(Fcs(a), Fcs(b)) == Xor(Serial(a, 8 * |a|), Serial(b, 8 * |b|))
  {
    hide Xor, Register, Serial;
    FcsIsSerialDivision(a);
    FcsIsSerialDivision(b);
    var x, y := Serial(a, 8 * |a|), Serial(b, 8 * |b|);
    XorSwap(x, ALL_ONES, y, ALL_ONES);
    XorSelf(ALL_ONES);
    XorZero(Xor(x, y));
  }

  lemma {:induction false} FlipsOfTwoMore(a: seq<byte>, b: seq<byte>, h: byte, l: byte, h': byte, l': byte)
    requires |a| == |b|
    ensures Flips(a + [h, l], b + [h', l']) == Flips(a, b) + Ones(Xor(h, h')) + Ones(Xor(l, l'))
  {
    hide Xor, Ones;
    var a1, b1 := a + [h], b + [h'];
    assert (a + [h, l])[..|a| + 1] == a1 && (b + [h', l'])[..|b| + 1] == b1;
    assert a1[..|a|] == a && b1[..|b|] == b;
  }

  /** Two flips are never compensated by the check sequence. */
  lemma NotTwoFlips(a: seq<byte>, b: seq<byte>, h: byte, l: byte, h': byte, l': byte)
    requires |a| == |b| && 8 * |a| + 15 < PERIOD
    requires Fcs(a) == Word(h, l) && Fcs(b) == Word(h', l')
    ensures Flips(a + [h, l], b + [h', l']) != 2
  {
    hide Xor, Ones, Register, Serial, Flips, OneFlipAgo, Fcs;
    var n := 8 * |a|;
    var d := Xor(Serial(a, n), Serial(b, n));
    FlipsOfTwoMore(a, b, h, l, h', l');
    WordFlips(h, l, h', l');
    FcsDifference(a, b);
    FlipsAreBitFlips(a, b, |a|);
    assert a[..|a|] == a && b[..|b|] == b;
    Evolution(a, b, n);
    DifferenceBound(a, b, n);
    OnesOfDifference(d, n);
  }

  lemma OnesOfDifference(d: nat, n: nat)
    requires d < 65536 && n + 15 < PERIOD
    ensures Ones(d) == 1 ==> !OneFlipAgo(d, n)
    ensures Ones(d) == 0 ==> d == 0
    ensures d == 0 ==> Ones(d) == 0
  {
    hide Ones, OneFlipAgo;
    NoOnes();
    if Ones(d) == 1 { OneAndOne(d, n); }
    if Ones(d) == 0 { OnesZero(d); }
  }

  // ----- Envelopes -------------------------------------------------------------------------------------

  lemma {:induction false} UnescapedLength(s: seq<byte>)
    requires Unescape(s).Unstuffed?
    ensures |Unescape(s).body| <= |s|
  {
    if |s| > 0 {
      UnescapedLength(s[..|s| - 1]);
    }
  }

  /** One, two or three flipped bits in the body of an accepted wire, check sequence included, are rejected. */
  lemma FewFlipsAreRejected(wire: seq<byte>, damaged: seq<byte>)
    requires Decode(wire).Success?
    requires |damaged| >= 2 && Unescape(damaged[1..|damaged| - 1]).Unstuffed?
    requires |BodyOf(damaged)| == |BodyOf(wire)| && 1 <= Flips(BodyOf(wire), BodyOf(damaged)) <= 3
    ensures Decode(damaged).Failure?
  {
    hide Fcs, Unescape, Flips, OnesIn;
    if Flips(BodyOf(wire), BodyOf(damaged)) % 2 == 1 {
      OddFlipsAreRejected(wire, damaged);
    } else {
      var a, b := BodyOf(wire), BodyOf(damaged);
      var n := |a| - 2;
      UnescapedLength(wire[1..|wire| - 1]);
      assert a == a[..n] + [a[n], a[n + 1]] && b == b[..n] + [b[n], b[n + 1]];
      if Decode(damaged).Success? {
        NotTwoFlips(a[..n], b[..n], a[n], a[n + 1], b[n], b[n + 1]);
      }
    }
  }
}
