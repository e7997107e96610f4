/**
 The frame check sequence of the eVodnik envelope: CRC-16/X-25, the 16-bit FCS of
 Appendix C of RFC 1662, which this protocol sends big endian.

 `Fcs` is the byte-wise register of the program. `Serial` is the independent reference:
 the same polynomial division carried out one message bit at a time, least significant
 bit of each byte first. The error-detection results are stated on message bits.
 */
module Crc {
  import opened Bits

  const POLYNOMIAL: nat := 0x8408
  const ALL_ONES: nat := 0xFFFF

  /** One division step: the register moves right and the polynomial is subtracted on carry. */
  function Shift(v: nat): nat {
    Xor(v / 2, if v % 2 == 1 then POLYNOMIAL else 0)
  }

  function Shifts(v: nat, n: nat): nat {
    if n == 0 then v else Shift(Shifts(v, n - 1))
  }

  /** The register after all of `data`, before the final inversion. */
  function Register(data: seq<byte>): nat {
    if |data| == 0 then ALL_ONES
    else Shifts(Xor(Register(data[..|data| - 1]), data[|data| - 1]), 8)
  }

  function Fcs(data: seq<byte>): nat {
    Xor(Register(data), ALL_ONES)
  }

  /** The doubly nested loop of the program. */
  method Crc16(data: seq<byte>) returns (crc: nat)
    ensures crc == Fcs(data) && crc < 65536
  {
    var value := ALL_ONES;
    for i := 0 to |data|
      invariant value == Register(data[..i])
    {
      value := Xor(value, data[i]);
      ghost var loaded := value;
      for k := 0 to 8
        invariant value == Shifts(loaded, k)
      {
        value := Xor(value / 2, if value % 2 == 1 then 0x8408 else 0);
      }
      assert data[..i + 1][..i] == data[..i];
    }
    assert data[..|data|] == data;
    crc := Xor(value, ALL_ONES);
    FcsBound(data);
  }

  lemma ShiftBound(v: nat)
    requires v < 65536
    ensures Shift(v) < 65536
  {
    Powers();
    XorBound(v / 2, POLYNOMIAL, 16);
    XorZero(v / 2);
  }

  lemma {:induction false} ShiftsBound(v: nat, n: nat)
    requires v < 65536
    ensures Shifts(v, n) < 65536
  {
    hide Shift;
    if n > 0 {
      ShiftsBound(v, n - 1);
      ShiftBound(Shifts(v, n - 1));
    }
  }

  lemma {:induction false} RegisterBound(data: seq<byte>)
    ensures Register(data) < 65536
  {
    hide Xor, Shifts;
    if |data| > 0 {
      var v := Register(data[..|data| - 1]);
      RegisterBound(data[..|data| - 1]);
      Powers();
      XorBound(v, data[|data| - 1], 16);
      ShiftsBound(Xor(v, data[|data| - 1]), 8);
    }
  }

  lemma FcsBound(data: seq<byte>)
    ensures Fcs(data) < 65536
  {
    hide Xor, Register;
    RegisterBound(data);
    Powers();
    XorBound(Register(data), ALL_ONES, 16);
  }

  // ----- Message bits ---------------------------------------------------------------

  /** Bit `i` of a message in transmission order: byte `i / 8`, least significant bit first. */
  function Bit(data: seq<byte>, i: nat): (bit: nat)
    requires i < 8 * |data|
    ensures bit < 2
  {
    Right(data[i / 8], i % 8) % 2
  }

  /** Bit-serial division: the register after the first `n` bits of `data`. */
  function Serial(data: seq<byte>, n: nat): nat
    requires n <= 8 * |data|
  {
    if n == 0 then ALL_ONES else Shift(Xor(Serial(data, n - 1), Bit(data, n - 1)))
  }

  /** Feeding one bit now and the rest later is the same as loading them all at once. */
  lemma ShiftLoaded(v: nat, x: nat)
    ensures Shift(Xor(v, x)) == Xor(Shift(Xor(v, x % 2)), x / 2)
  {
    hide Xor;
    XorHalves(v, x);
    XorHalves(v, x % 2);
    XorZero(v / 2);
    var carry := if Xor(v, x) % 2 == 1 then POLYNOMIAL else 0;
    assert Shift(Xor(v, x % 2)) == Xor(v / 2, carry);
    XorAssociates(v / 2, x / 2, carry);
    XorCommutes(x / 2, carry);
    XorAssociates(v / 2, carry, x / 2);
  }

  lemma {:induction false} SerialInsideByte(data: seq<byte>, j: nat, k: nat)
    requires j < |data| && k <= 8
    ensures Shifts(Xor(Serial(data, 8 * j), data[j]), k) == Xor(Serial(data, 8 * j + k), Right(data[j], k))
  {
    hide Xor, Shift;
    if k > 0 {
      SerialInsideByte(data, j, k - 1);
      ShiftLoaded(Serial(data, 8 * j + k - 1), Right(data[j], k - 1));
      assert (8 * j + k - 1) / 8 == j && (8 * j + k - 1) % 8 == k - 1;
    }
  }

  lemma {:induction false} RegisterIsSerial(data: seq<byte>, j: nat)
    requires j <= |data|
    ensures Register(data[..j]) == Serial(data, 8 * j)
  {
    hide Xor, Shift, Shifts, Bit;
    if j > 0 {
      RegisterIsSerial(data, j - 1);
      assert data[..j][..j - 1] == data[..j - 1];
      SerialInsideByte(data, j - 1, 8);
      Powers();
      RightZero(data[j - 1], 8);
      XorZero(Serial(data, 8 * j));
    }
  }

  /** The byte-wise loop is the bit-serial division. */
  lemma FcsIsSerialDivision(data: seq<byte>)
    ensures Fcs(data) == Xor(Serial(data, 8 * |data|), ALL_ONES)
  {
    hide Xor, Register, Serial;
    RegisterIsSerial(data, |data|);
    assert data[..|data|] == data;
  }

  // ----- Bursts ---------------------------------------------------------------------

  /** Two messages of one length that differ, and only inside 16 consecutive bits. */
  ghost predicate DifferInBurst(a: seq<byte>, b: seq<byte>) {
    && |a| == |b|
    && a != b
    && forall i: nat, j: nat {:trigger Bit(a, i), Bit(a, j)} |
         i < 8 * |a| && j < 8 * |a| && Bit(a, i) != Bit(b, i) && Bit(a, j) != Bit(b, j) :: j < i + 16
  }

  lemma DifferentBytesDifferentBit(a: seq<byte>, b: seq<byte>) returns (i: nat)
    requires |a| == |b| && a != b
    ensures i < 8 * |a| && Bit(a, i) != Bit(b, i)
  {
    hide Right, Pow2;
    var n: nat :| n < |a| && a[n] != b[n];
    Powers();
    if forall k: nat | k < 8 :: Right(a[n], k) % 2 == Right(b[n], k) % 2 {
      EqualBits(a[n], b[n], 8);
      assert false;
    }
    var k: nat :| k < 8 && Right(a[n], k) % 2 != Right(b[n], k) % 2;
    i := 8 * n + k;
    assert i / 8 == n && i % 8 == k;
  }

  lemma ShiftLinear(u: nat, v: nat)
    ensures Xor(Shift(u), Shift(v)) == Shift(Xor(u, v))
  {
    hide Xor;
    XorHalves(u, v);
    var p := if u % 2 == 1 then POLYNOMIAL else 0;
    var q := if v % 2 == 1 then POLYNOMIAL else 0;
    XorSwap(u / 2, p, v / 2, q);
    XorSelf(POLYNOMIAL);
    XorZero(POLYNOMIAL);
    XorZero(0);
    assert Xor(p, q) == if Xor(u, v) % 2 == 1 then POLYNOMIAL else 0;
  }

  /** The difference of two registers obeys the same recurrence as the register. */
  lemma DifferenceStep(a: seq<byte>, b: seq<byte>, n: nat)
    requires |a| == |b| && n < 8 * |a|
    ensures Xor(Serial(a, n + 1), Serial(b, n + 1))
         == Shift(Xor(Xor(Serial(a, n), Serial(b, n)), Xor(Bit(a, n), Bit(b, n))))
  {
    hide Xor, Shift, Bit;
    ShiftLinear(Xor(Serial(a, n), Bit(a, n)), Xor(Serial(b, n), Bit(b, n)));
    XorSwap(Serial(a, n), Bit(a, n), Serial(b, n), Bit(b, n));
  }

  /** A shift never turns a nonzero 16-bit register into zero. */
  lemma ShiftNonzero(v: nat)
    requires v < 65536 && Shift(v) == 0
    ensures v == 0
  {
    Powers();
    if v % 2 == 1 {
      XorTop(v / 2, POLYNOMIAL, 15);
    } else {
      XorZero(v / 2);
    }
  }

  lemma {:induction false} SerialBound(data: seq<byte>, n: nat)
    requires n <= 8 * |data|
    ensures Serial(data, n) < 65536
  {
    hide Xor, Shift;
    if n > 0 {
      SerialBound(data, n - 1);
      Powers();
      XorBound(Serial(data, n - 1), Bit(data, n - 1), 16);
      ShiftBound(Xor(Serial(data, n - 1), Bit(data, n - 1)));
    }
  }

  lemma DifferenceBound(a: seq<byte>, b: seq<byte>, n: nat)
    requires |a| == |b| && n <= 8 * |a|
    ensures Xor(Serial(a, n), Serial(b, n)) < 65536
  {
    hide Xor, Serial;
    SerialBound(a, n);
    SerialBound(b, n);
    Powers();
    XorBound(Serial(a, n), Serial(b, n), 16);
  }

  lemma {:induction false} EqualUpTo(a: seq<byte>, b: seq<byte>, n: nat)
    requires |a| == |b| && n <= 8 * |a|
    requires forall i: nat | i < n :: Bit(a, i) == Bit(b, i)
    ensures Serial(a, n) == Serial(b, n)
  {
    hide Xor, Shift, Bit;
    if n > 0 {
      EqualUpTo(a, b, n - 1);
      assert Bit(a, n - 1) == Bit(b, n - 1);
    }
  }

  lemma EqualBefore(a: seq<byte>, b: seq<byte>, n: nat)
    requires |a| == |b| && n < 8 * |a|
    requires Bit(a, n) == Bit(b, n) && Serial(a, n + 1) == Serial(b, n + 1)
    ensures Serial(a, n) == Serial(b, n)
  {
    hide Xor, Shift, Serial, Bit;
    var d := Xor(Serial(a, n), Serial(b, n));
    DifferenceStep(a, b, n);
    XorSelf(Bit(a, n));
    XorSelf(Serial(a, n + 1));
    XorZero(d);
    DifferenceBound(a, b, n);
    ShiftNonzero(d);
    XorEqualZero(Serial(a, n), Serial(b, n));
  }

  /** Equal remainders at the end mean equal remainders after the last differing bit. */
  lemma {:induction false} EqualFrom(a: seq<byte>, b: seq<byte>, q: nat, n: nat)
    requires |a| == |b| && q <= n <= 8 * |a|
    requires forall i: nat | q <= i < n :: Bit(a, i) == Bit(b, i)
    requires Serial(a, n) == Serial(b, n)
    ensures Serial(a, q) == Serial(b, q)
    decreases n
  {
    hide Serial, Bit;
    if q < n {
      EqualBefore(a, b, n - 1);
      EqualFrom(a, b, q, n - 1);
    }
  }

  /** The highest set bit of `v` is bit `k`. */
  predicate Top(v: nat, k: nat) {
    Pow2(k) <= v < Pow2(k + 1)
  }

  lemma {:induction false} PowMonotone(m: nat, n: nat)
    requires m <= n
    ensures Pow2(m) <= Pow2(n)
  {
    if m < n {
      PowMonotone(m, n - 1);
    }
  }

  /** Running one step backwards from a register whose top bit is `k` raises the top bit. */
  lemma TopBefore(u: nat, bit: nat, k: nat)
    requires u < 65536 && bit < 2 && k <= 14 && Top(Shift(Xor(u, bit)), k)
    ensures Top(u, k + 1)
  {
    Powers();
    PowMonotone(k + 1, 15);
    XorHalves(u, bit);
    XorZero(u / 2);
    if Xor(u, bit) % 2 == 1 {
      XorTop(u / 2, POLYNOMIAL, 15);
    }
    assert Shift(Xor(u, bit)) == u / 2;
    assert Pow2(k + 2) == 2 * Pow2(k + 1);
  }

  lemma {:induction false} TopBackTo(a: seq<byte>, b: seq<byte>, p: nat, q: nat)
    requires |a| == |b| && p <= q < 8 * |a| && q < p + 16
    requires Bit(a, q) != Bit(b, q) && Serial(a, q + 1) == Serial(b, q + 1)
    ensures Top(Xor(Serial(a, p), Serial(b, p)), q - p)
    decreases q - p
  {
    hide Shift, Serial, Bit, Xor;
    var d := Xor(Serial(a, p), Serial(b, p));
    var e := Xor(Bit(a, p), Bit(b, p));
    DifferenceStep(a, b, p);
    DifferenceBound(a, b, p);
    XorBits(Bit(a, p), Bit(b, p));
    if p == q {
      XorSelf(Serial(a, q + 1));
      Powers();
      XorBound(d, 1, 16);
      ShiftNonzero(Xor(d, 1));
      XorEqualZero(d, 1);
    } else {
      TopBackTo(a, b, p + 1, q);
      TopBefore(d, e, q - p - 1);
    }
  }

  lemma FirstDifference(a: seq<byte>, b: seq<byte>, i: nat) returns (p: nat)
    requires |a| == |b| && i < 8 * |a| && Bit(a, i) != Bit(b, i)
    ensures p <= i && Bit(a, p) != Bit(b, p)
    ensures forall j: nat | j < p :: Bit(a, j) == Bit(b, j)
  {
    p := 0;
    while Bit(a, p) == Bit(b, p)
      invariant p <= i && forall j: nat | j < p :: Bit(a, j) == Bit(b, j)
      decreases i - p
    {
      p := p + 1;
    }
  }

  lemma LastDifference(a: seq<byte>, b: seq<byte>, i: nat) returns (q: nat)
    requires |a| == |b| && i < 8 * |a| && Bit(a, i) != Bit(b, i)
    ensures i <= q < 8 * |a| && Bit(a, q) != Bit(b, q)
    ensures forall j: nat | q < j < 8 * |a| :: Bit(a, j) == Bit(b, j)
  {
    q := 8 * |a| - 1;
    while Bit(a, q) == Bit(b, q)
      invariant i <= q < 8 * |a| && forall j: nat | q < j < 8 * |a| :: Bit(a, j) == Bit(b, j)
      decreases q
    {
      q := q - 1;
    }
  }

  lemma BurstChangesRemainder(a: seq<byte>, b: seq<byte>)
    requires DifferInBurst(a, b)
    ensures Serial(a, 8 * |a|) != Serial(b, 8 * |b|)
  {
    hide Xor, Serial, Bit;
    var i := DifferentBytesDifferentBit(a, b);
    var p := FirstDifference(a, b, i);
    var q := LastDifference(a, b, i);
    assert q < p + 16;
    if Serial(a, 8 * |a|) == Serial(b, 8 * |a|) {
      EqualFrom(a, b, q + 1, 8 * |a|);
      TopBackTo(a, b, p, q);
      EqualUpTo(a, b, p);
      XorSelf(Serial(a, p));
      assert false;
    }
  }

  /** Every nonempty burst of at most 16 consecutive bits changes the check sequence. */
  lemma BurstChangesFcs(a: seq<byte>, b: seq<byte>)
    requires DifferInBurst(a, b)
    ensures Fcs(a) != Fcs(b)
  {
    hide Register, Serial, Xor;
    BurstChangesRemainder(a, b);
    FcsIsSerialDivision(a);
    FcsIsSerialDivision(b);
    XorTwice(Serial(a, 8 * |a|), ALL_ONES);
    XorTwice(Serial(b, 8 * |b|), ALL_ONES);
  }

  // ----- Parity ---------------------------------------------------------------------

  /** The number of 1 bits in a message. */
  function OnesIn(data: seq<byte>): nat {
    if |data| == 0 then 0 else OnesIn(data[..|data| - 1]) + Ones(data[|data| - 1])
  }

  /** The number of bit positions in which two messages of one length differ. */
  function Flips(a: seq<byte>, b: seq<byte>): nat
    requires |a| == |b|
  {
    if |a| == 0 then 0
    else Flips(a[..|a| - 1], b[..|b| - 1]) + Ones(Xor(a[|a| - 1], b[|b| - 1]))
  }

  predicate Odd(x: nat) {
    Ones(x) % 2 == 1
  }

  lemma OddXor(x: nat, y: nat)
    ensures Odd(Xor(x, y)) == (Odd(x) != Odd(y))
  {
    hide Xor, Ones;
    OnesXor(x, y);
  }

  lemma PolynomialIsOdd()
    ensures Odd(POLYNOMIAL)
  {
    assert Ones(0x21) == 2;
    assert Ones(0x84) == 2;
    assert Ones(0x210) == 2;
    assert Ones(0x840) == 2;
    assert Ones(0x1081) == 3;
    assert Ones(0x4204) == 3;
  }

  lemma AllOnesIsEven()
    ensures !Odd(ALL_ONES)
  {
    assert Ones(0xF) == 4;
    assert Ones(0x3F) == 6;
    assert Ones(0xFF) == 8;
    assert Ones(0x3FF) == 10;
    assert Ones(0xFFF) == 12;
    assert Ones(0x3FFF) == 14;
  }

  lemma OddHalf(v: nat)
    ensures Odd(v) == (Odd(v / 2) != (v % 2 == 1))
  {
    hide Ones;
    OnesStep(v);
  }

  /** The polynomial has an odd number of 1 bits, so division keeps the parity of the register. */
  lemma ShiftParity(v: nat)
    ensures Odd(Shift(v)) == Odd(v)
  {
    hide Xor, Odd;
    OddHalf(v);
    if v % 2 == 1 {
      OddXor(v / 2, POLYNOMIAL);
      PolynomialIsOdd();
    } else {
      XorZero(v / 2);
    }
  }

  lemma {:induction false} ShiftsParity(v: nat, n: nat)
    ensures Odd(Shifts(v, n)) == Odd(v)
  {
    hide Shift, Odd;
    if n > 0 {
      ShiftParity(Shifts(v, n - 1));
      ShiftsParity(v, n - 1);
    }
  }

  lemma {:induction false} RegisterParity(data: seq<byte>)
    ensures Odd(Register(data)) == (OnesIn(data) % 2 == 1)
  {
    hide Xor, Shifts, Ones;
    if |data| == 0 {
      AllOnesIsEven();
    } else {
      var k := |data| - 1;
      RegisterParity(data[..k]);
      ShiftsParity(Xor(Register(data[..k]), data[k]), 8);
      OddXor(Register(data[..k]), data[k]);
    }
  }

  /** Two bytes, big endian. */
  function Word(high: byte, low: byte): nat {
    256 * high + low
  }

  /** A message followed by its own check sequence carries an even number of 1 bits. */
  lemma CheckedBodyIsEven(data: seq<byte>, high: byte, low: byte)
    requires Fcs(data) == Word(high, low)
    ensures OnesIn(data + [high, low]) % 2 == 0
  {
    hide Register, Odd, OnesIn, Xor;
    RegisterParity(data);
    OddXor(Register(data), ALL_ONES);
    AllOnesIsEven();
    WordOnes(high, low);
    TwoMore(data, high, low);
  }

  lemma WordOnes(high: byte, low: byte)
    ensures Odd(Word(high, low)) == (Odd(high) != Odd(low))
  {
    hide Ones;
    var p := Pow2(8);
    assert p == 256 && low < p by { Powers(); }
    var w := high * p + low;
    assert Ones(w) == Ones(high) + Ones(low) by { OnesConcat(high, low, 8); }
    assert w == Word(high, low);
  }

  lemma TwoMore(data: seq<byte>, high: byte, low: byte)
    ensures (OnesIn(data + [high, low]) % 2 == 0) == ((OnesIn(data) % 2 == 1) == (Odd(high) != Odd(low)))
  {
    hide Ones;
    var d1 := data + [high];
    assert (data + [high, low])[..|data| + 1] == d1;
    assert d1[..|data|] == data;
  }

  /** An odd number of flips changes the parity of the whole. */
  lemma {:induction false} FlipsParity(a: seq<byte>, b: seq<byte>)
    requires |a| == |b|
    ensures (OnesIn(a) + OnesIn(b) + Flips(a, b)) % 2 == 0
  {
    hide Xor, Ones;
    if |a| > 0 {
      FlipsParity(a[..|a| - 1], b[..|b| - 1]);
      OnesXor(a[|a| - 1], b[|b| - 1]);
    }
  }

  lemma EvenMessagesDifferEvenly(a: seq<byte>, b: seq<byte>)
    requires |a| == |b| && OnesIn(a) % 2 == 0 && OnesIn(b) % 2 == 0
    ensures Flips(a, b) % 2 == 0
  {
    hide OnesIn, Flips;
    var x, y, z := OnesIn(a), OnesIn(b), Flips(a, b);
    assert (x + y + z) % 2 == 0 by { FlipsParity(a, b); }
  }
}
