/**
 The envelope and its known messages, byte for byte: what is accepted, where every field lies,
 and what is read out of it, in literal offsets and codes.
 */
module Envelope {
  import opened Base
  import opened Bits
  import opened Crc
  import opened Period
  import opened Protocol

  // ----- The check vector ---------------------------------------------------------------------

  /** Eight steps of the register. */
  function EightSteps(v: bv16): bv16 {
    Step(Step(Step(Step(Step(Step(Step(Step(v))))))))
  }

  lemma EightShifts(v: bv16)
    ensures Shifts(Number(v), 8) == Number(EightSteps(v))
  {
    hide Step, Number;
    var x := Number(v);
    assert Shifts(x, 0) == x;
    hide Shifts;
    var v1, v2, v3, v4 := Step(v), Step(Step(v)), Step(Step(Step(v))), Step(Step(Step(Step(v))));
    var v5, v6, v7 := Step(v4), Step(Step(v4)), Step(Step(Step(v4)));
    NextShift(x, 0, v);
    NextShift(x, 1, v1);
    NextShift(x, 2, v2);
    NextShift(x, 3, v3);
    NextShift(x, 4, v4);
    NextShift(x, 5, v5);
    NextShift(x, 6, v6);
    NextShift(x, 7, v7);
  }

  /** One more byte of a message, on bit vectors. */
  lemma NextByte(data: seq<byte>, b: byte, v: bv16, w: bv16, v': bv16)
    requires Register(data) == Number(v) && b as int == Number(w) && EightSteps(Plus(v, w)) == v'
    ensures Register(data + [b]) == Number(v')
  {
    hide Number, Plus, EightSteps, Shifts;
    assert (data + [b])[..|data|] == data;
    NumberXor(v, w);
    EightShifts(Plus(v, w));
  }

  lemma Digits()
    ensures Number(0x0031) == 0x0031 && Number(0x0032) == 0x0032 && Number(0x0033) == 0x0033
    ensures Number(0x0034) == 0x0034 && Number(0x0035) == 0x0035
    ensures Number(0x0036) == 0x0036 && Number(0x0037) == 0x0037 && Number(0x0038) == 0x0038 && Number(0x0039) == 0x0039
    ensures Number(0xFFFF) == 0xFFFF && Number(0x906E) == 0x906E
  {
    hide Number;
    Constants();
    NumberStep(0x0002); NumberStep(0x0003); NumberStep(0x0004); NumberStep(0x0006);
    NumberStep(0x0007); NumberStep(0x0009); NumberStep(0x000C); NumberStep(0x000D);
    NumberStep(0x000E); NumberStep(0x000F); NumberStep(0x0012); NumberStep(0x0018);
    NumberStep(0x0019); NumberStep(0x001A); NumberStep(0x001B); NumberStep(0x001C);
    NumberStep(0x001F); NumberStep(0x0024); NumberStep(0x0031); NumberStep(0x0032);
    NumberStep(0x0033); NumberStep(0x0034); NumberStep(0x0035); NumberStep(0x0036);
    NumberStep(0x0037); NumberStep(0x0038); NumberStep(0x0039); NumberStep(0x003F);
    NumberStep(0x0048); NumberStep(0x007F); NumberStep(0x0090); NumberStep(0x00FF);
    NumberStep(0x0120); NumberStep(0x01FF); NumberStep(0x0241); NumberStep(0x03FF);
    NumberStep(0x0483); NumberStep(0x07FF); NumberStep(0x0906); NumberStep(0x0FFF);
    NumberStep(0x120D); NumberStep(0x1FFF); NumberStep(0x241B); NumberStep(0x3FFF);
    NumberStep(0x4837); NumberStep(0x7FFF); NumberStep(0x906E); NumberStep(0xFFFF);
  }

  lemma RegisterValues()
    ensures EightSteps(Plus(0xFFFF, 0x0031)) == 0x2F8D
    ensures EightSteps(Plus(0x2F8D, 0x0032)) == 0x4D53
    ensures EightSteps(Plus(0x4D53, 0x0033)) == 0x634B
    ensures EightSteps(Plus(0x634B, 0x0034)) == 0x8B13
    ensures EightSteps(Plus(0x8B13, 0x0035)) == 0x44BF
    ensures EightSteps(Plus(0x44BF, 0x0036)) == 0x198D
    ensures EightSteps(Plus(0x198D, 0x0037)) == 0x1AC8
    ensures EightSteps(Plus(0x1AC8, 0x0038)) == 0xF795
    ensures EightSteps(Plus(0xF795, 0x0039)) == 0x6F91
  {
  }

  /** Where the register is after a message. */
  ghost predicate Holds(data: seq<byte>, v: bv16) {
    Register(data) == Number(v)
  }

  lemma Appended(data: seq<byte>, b: byte, v: bv16, w: bv16)
    requires Holds(data, v) && b as int == Number(w)
    ensures Holds(data + [b], EightSteps(Plus(v, w)))
  {
    hide Register, Number, Plus, EightSteps;
    NextByte(data, b, v, w, EightSteps(Plus(v, w)));
  }

  lemma NothingHeld()
    ensures Holds([], 0xFFFF)
  {
    hide Number;
    Digits();
  }

  lemma After3Digits()
    ensures Holds([0x31, 0x32, 0x33], 0x634B)
  {
    NothingHeld();
    Digits();
    RegisterValues();
    hide Holds, Number, EightSteps, Plus;
    var d: seq<byte> := [];
    Appended(d, 0x0031, 0xFFFF, 0x0031);
    d := d + [0x0031];
    Appended(d, 0x0032, 0x2F8D, 0x0032);
    d := d + [0x0032];
    Appended(d, 0x0033, 0x4D53, 0x0033);
    d := d + [0x0033];
    assert d == [0x31, 0x32, 0x33];
  }

  lemma After6Digits()
    requires Holds([0x31, 0x32, 0x33], 0x634B)
    ensures Holds([0x31, 0x32, 0x33, 0x34, 0x35, 0x36], 0x198D)
  {
    Digits();
    RegisterValues();
    hide Holds, Number, EightSteps, Plus;
    var d: seq<byte> := [0x31, 0x32, 0x33];
    Appended(d, 0x0034, 0x634B, 0x0034);
    d := d + [0x0034];
    Appended(d, 0x0035, 0x8B13, 0x0035);
    d := d + [0x0035];
    Appended(d, 0x0036, 0x44BF, 0x0036);
    d := d + [0x0036];
    assert d == [0x31, 0x32, 0x33, 0x34, 0x35, 0x36];
  }

  lemma After9Digits()
    requires Holds([0x31, 0x32, 0x33, 0x34, 0x35, 0x36], 0x198D)
    ensures Holds([0x31, 0x32, 0x33, 0x34, 0x35, 0x36, 0x37, 0x38, 0x39], 0x6F91)
  {
    Digits();
    RegisterValues();
    hide Holds, Number, EightSteps, Plus;
    var d: seq<byte> := [0x31, 0x32, 0x33, 0x34, 0x35, 0x36];
    Appended(d, 0x0037, 0x198D, 0x0037);
    d := d + [0x0037];
    Appended(d, 0x0038, 0x1AC8, 0x0038);
    d := d + [0x0038];
    Appended(d, 0x0039, 0xF795, 0x0039);
    d := d + [0x0039];
    assert d == [0x31, 0x32, 0x33, 0x34, 0x35, 0x36, 0x37, 0x38, 0x39];
  }

  /** The standard check vector: the nine digits give 0x906E. */
  lemma CheckVector()
    ensures Fcs([0x31, 0x32, 0x33, 0x34, 0x35, 0x36, 0x37, 0x38, 0x39]) == 0x906E
  {
    After3Digits();
    After6Digits();
    After9Digits();
    Digits();
    hide Register, Number, Plus, Xor;
    NumberXor(0x6F91, 0xFFFF);
    LastXor();
  }

  lemma LastXor()
    ensures Plus(0x6F91, 0xFFFF) == 0x906E
  {
  }

  // ----- Stuffing -------------------------------------------------------------------------------

  /** `b ^ 0x20`, by arithmetic. */
  function Flipped(b: byte): byte {
    if b / 32 % 2 == 0 then b + 32 else b - 32
  }

  lemma MaskedIsFlipped(b: byte)
    ensures Masked(b) == Flipped(b)
  {
    hide Xor;
    FlipThirdBit(b / 8);
    OneBitUp(b / 4, 4);
    OneBitUp(b / 2, 8);
    OneBitUp(b, 16);
    assert b / 4 / 2 == b / 8 && b / 2 / 2 == b / 4;
    assert b / 8 / 4 == b / 32;
  }

  lemma FlipThirdBit(x: nat)
    ensures Xor(x, 4) == if x / 4 % 2 == 0 then x + 4 else x - 4
  {
    hide Xor;
    FlipLowest(x / 4);
    OneBitUp(x / 2, 1);
    OneBitUp(x, 2);
    assert x / 2 / 2 == x / 4;
  }

  lemma FlipLowest(x: nat)
    ensures Xor(x, 1) == if x % 2 == 0 then x + 1 else x - 1
  {
    XorHalves(x, 1);
    XorZero(x / 2);
    hide Xor;
  }

  lemma OneBitUp(x: nat, m: nat)
    ensures Xor(x, 2 * m) == 2 * Xor(x / 2, m) + x % 2
  {
    XorHalves(x, 2 * m);
    hide Xor;
    assert 2 * m / 2 == m && 2 * m % 2 == 0;
    SameHalves(Xor(x, 2 * m), 2 * Xor(x / 2, m) + x % 2);
  }

  /** `inner` is some stuffing of `body`, canonical or not: the reader's rule from left to right. */
  ghost predicate Stuffs(inner: seq<byte>, body: seq<byte>)
    decreases |inner|
  {
    if inner == [] then body == []
    else if inner[0] == 0x7D then
      |inner| >= 2 && body != [] && body[0] == Flipped(inner[1]) && Stuffs(inner[2..], body[1..])
    else
      inner[0] != 0xC0 && inner[0] != 0xC1 && body != [] && body[0] == inner[0] && Stuffs(inner[1..], body[1..])
  }

  /** Unstuffing that goes on from a state reached before. */
  function UnescapeFrom(u: Unstuffed, s: seq<byte>): Unstuffed
    decreases |s|
  {
    if s == [] then u else UnescapeFrom(UnescapeByte(u, s[0]), s[1..])
  }

  lemma {:induction false} UnescapeFromLeft(p: seq<byte>, s: seq<byte>)
    ensures UnescapeFrom(Unescape(p), s) == Unescape(p + s)
    decreases |s|
  {
    if s == [] {
      assert p + s == p;
    } else {
      UnescapeAppend(p, s[0]);
      UnescapeFromLeft(p + [s[0]], s[1..]);
      assert p + [s[0]] + s[1..] == p + s;
    }
  }

  lemma {:induction false} BareForEver(s: seq<byte>)
    ensures UnescapeFrom(BareDelimiter, s) == BareDelimiter
    decreases |s|
  {
    if s != [] {
      BareForEver(s[1..]);
    }
  }

  lemma {:induction false} StuffsIsUnescape(prefix: seq<byte>, inner: seq<byte>, body: seq<byte>)
    ensures Stuffs(inner, body) <==> UnescapeFrom(Unstuffed(prefix, false), inner) == Unstuffed(prefix + body, false)
    decreases |inner|
  {
    hide Masked, Flipped;
    if inner == [] {
      assert prefix + [] == prefix;
      assert body != [] ==> |prefix + body| > |prefix|;
    } else if inner[0] == 0x7D {
      if |inner| >= 2 {
        MaskedIsFlipped(inner[1]);
        var m := Flipped(inner[1]);
        assert inner[1..][1..] == inner[2..];
        NextUnstuffed(prefix, m, inner[2..], body);
        if body != [] { StuffsIsUnescape(prefix + [m], inner[2..], body[1..]); }
      }
    } else if inner[0] == 0xC0 || inner[0] == 0xC1 {
      BareForEver(inner[1..]);
    } else {
      NextUnstuffed(prefix, inner[0], inner[1..], body);
      if body != [] { StuffsIsUnescape(prefix + [inner[0]], inner[1..], body[1..]); }
    }
  }

  lemma {:induction false} GrowsFrom(prefix: seq<byte>, escaped: bool, s: seq<byte>)
    ensures var u := UnescapeFrom(Unstuffed(prefix, escaped), s); u.Unstuffed? ==> prefix <= u.body
    decreases |s|
  {
    hide Masked;
    if s != [] {
      var u := UnescapeByte(Unstuffed(prefix, escaped), s[0]);
      if u.Unstuffed? {
        GrowsFrom(u.body, u.escaped, s[1..]);
      } else {
        BareForEver(s[1..]);
      }
    }
  }

  /** The first byte of the body is settled by the first byte or pair. */
  lemma NextUnstuffed(prefix: seq<byte>, m: byte, rest: seq<byte>, body: seq<byte>)
    ensures var u := UnescapeFrom(Unstuffed(prefix + [m], false), rest);
            u == Unstuffed(prefix + body, false)
            <==> body != [] && body[0] == m && u == Unstuffed(prefix + [m] + body[1..], false)
  {
    var u := UnescapeFrom(Unstuffed(prefix + [m], false), rest);
    GrowsFrom(prefix + [m], false, rest);
    if u == Unstuffed(prefix + body, false) {
      assert (prefix + body)[|prefix|] == (prefix + [m])[|prefix|];
      assert body == [m] + body[1..];
      assert prefix + body == prefix + [m] + body[1..];
    }
    if body != [] && body[0] == m {
      assert body == [m] + body[1..];
      assert prefix + body == prefix + [m] + body[1..];
    }
  }

  // ----- What is accepted -------------------------------------------------------------------------

  /** The fields at their offsets; the address is big endian. */
  ghost predicate Lies(f: Frame, body: seq<byte>) {
    && |body| >= 10
    && f.destination == body[0] && f.source == body[1] && f.opcode == body[2]
    && f.address as int == 16777216 * body[3] as int + 65536 * body[4] as int + 256 * body[5] as int + body[6] as int
    && f.length == body[7] && f.payload == body[8..|body| - 2]
  }

  /** A delimited wire of at most 4096 bytes whose inside stuffs `body`, check sequence big endian. */
  ghost predicate Carries(wire: seq<byte>, body: seq<byte>) {
    && 2 <= |wire| <= 4096 && wire[0] == 0xC0 && wire[|wire| - 1] == 0xC1
    && Stuffs(wire[1..|wire| - 1], body)
    && |body| >= 10 && Fcs(body[..|body| - 2]) == 256 * body[|body| - 2] as int + body[|body| - 1] as int
  }

  /** A frame is decoded if and only if the wire carries some body, and then it has that body's fields. */
  lemma DecodesExactly(wire: seq<byte>, f: Frame)
    ensures Decode(wire) == Success(f) <==> f.wire == wire && exists body :: Carries(wire, body) && Lies(f, body)
  {
    hide Fcs, Stuffs, Unescape, UnescapeFrom;
    if 2 <= |wire| {
      var inner := wire[1..|wire| - 1];
      assert Unescape([]) == Unstuffed([], false) by { NothingUnescaped(); }
      UnescapeFromLeft([], inner);
      assert [] + inner == inner;
      forall body ensures Stuffs(inner, body) <==> Unescape(inner) == Unstuffed(body, false) {
        StuffsIsUnescape([], inner, body);
        assert [] + body == body;
      }
      if Decode(wire) == Success(f) {
        var body := Unescape(inner).body;
        assert Carries(wire, body) && Lies(f, body) && f.wire == wire;
      }
      if f.wire == wire && exists body :: Carries(wire, body) && Lies(f, body) {
        var body :| Carries(wire, body) && Lies(f, body);
        assert Fields(body, wire) == f;
      }
    }
  }

  lemma NothingUnescaped()
    ensures Unescape([]) == Unstuffed([], false)
  {
  }

  /** What the encoder puts on the wire, byte for byte. */
  lemma EncodedBytes(destination: byte, source: byte, opcode: byte, address: word32, length: byte, payload: seq<byte>)
    ensures var body := Body(destination, source, opcode, address, length, payload);
            var n := |payload|;
            && |body| == n + 10 && body[8..n + 8] == payload
            && body[0] == destination && body[1] == source && body[2] == opcode && body[7] == length
            && address as int == 16777216 * body[3] as int + 65536 * body[4] as int + 256 * body[5] as int + body[6] as int
            && Fcs(body[..n + 8]) == 256 * body[n + 8] as int + body[n + 9] as int
            && Wire(body) == [0xC0] + Escape(body) + [0xC1]
  {
    hide Fcs;
    BodyIsChecked(destination, source, opcode, address, length, payload);
    var body := Body(destination, source, opcode, address, length, payload);
    var f := Fields(body, []);
    assert f == Frame(destination, source, opcode, address, length, payload, []);
  }

  /** The canonical stuffing: three bytes are replaced by pairs, all others stay. */
  lemma EscapedBytes(body: seq<byte>, b: byte)
    ensures Escape([]) == []
    ensures Escape(body + [b]) == Escape(body) + if b == 0xC0 then [0x7D, 0xE0] else if b == 0xC1 then [0x7D, 0xE1]
                                                 else if b == 0x7D then [0x7D, 0x5D] else [b]
  {
    EscapeLast(body, b);
    MaskedIsFlipped(b);
    hide Masked;
  }

  // ----- Known messages ---------------------------------------------------------------------------------

  /** The three local requests, field by field. */
  lemma LocalRequests(tag: byte, valve: Valve)
    ensures var f := ReadStatus(tag); f == Frame(0x01, tag, 0x31, 0x20, 16, [], f.wire) && Decode(f.wire) == Success(f)
    ensures var f := ReadSnapshot(tag); f == Frame(0x01, tag, 0x31, 0x00, 128, [], f.wire) && Decode(f.wire) == Success(f)
    ensures var f := CommandFrame(tag, valve);
            && f == Frame(0x01, tag, 0x20, 0x1A, 2, [0x00, if valve == Open then 0xC7 else 0xC8], f.wire)
            && Decode(f.wire) == Success(f)
  {
    hide Decode;
  }

  /** A valve command is recognised by opcode, address, length and both payload bytes. */
  lemma CommandBytes(f: Frame, valve: Valve)
    ensures f.ValveCommand() == Some(valve) <==>
              && f.opcode == 0x20 && f.address == 0x1A && f.length == 2 && |f.payload| == 2
              && f.payload[0] == 0x00 && f.payload[1] == (match valve case Open => 0xC7 case Closed => 0xC8)
  {
    if |f.payload| == 2 {
      assert f.payload == [f.payload[0], f.payload[1]];
    }
  }

  /** A matching answer comes from where the request went, to where it came from, with its opcode. */
  lemma MatchedFields(f: Frame, request: Frame)
    requires f.Matches(request)
    ensures f.destination == request.source && f.source == request.destination && f.opcode == request.opcode
    ensures (request.opcode == 0x31 || request.opcode == 0x41) && request.payload == [] ==>
              f.address == request.address && f.length == request.length && |f.payload| == f.length as int
  {
  }

  /** For any other request the endpoints and the opcode suffice. */
  lemma EndpointsSuffice(f: Frame, request: Frame)
    requires f.destination == request.source && f.source == request.destination && f.opcode == request.opcode
    requires (request.opcode == 0x31 || request.opcode == 0x41) && request.payload == [] ==>
               f.address == request.address && f.length == request.length && |f.payload| == f.length as int
    ensures f.Matches(request)
  {
  }

  /** One frame answers only requests of the same endpoints and opcode: never two tags. */
  lemma OneTagOnly(f: Frame, r1: Frame, r2: Frame)
    requires f.Matches(r1) && f.Matches(r2)
    ensures r1.source == r2.source && r1.destination == r2.destination && r1.opcode == r2.opcode
  {
  }

  /** The position byte: 0xC7 is open, 0xC8 closed, anything else says nothing. */
  ghost predicate PositionByte(valve: Option<Valve>, code: byte) {
    (valve == Some(Open) <==> code == 0xC7) && (valve == Some(Closed) <==> code == 0xC8)
  }

  /** A status report: 16 bytes at address 0x20, the position in byte 13. */
  ghost predicate StatusShape(f: Frame) {
    f.opcode == 0x31 && |f.payload| == 16 && f.length == 16 && f.address == 0x20
  }

  /** A snapshot: 128 bytes at address 0, the position in byte 45, the counter in bytes 48 to 51. */
  ghost predicate SnapshotShape(f: Frame) {
    f.opcode == 0x31 && |f.payload| == 128 && f.length == 128 && f.address == 0
  }

  /** The counter, 32 bits in little endian order. */
  ghost predicate CounterBytes(total: nat, f: Frame)
    requires SnapshotShape(f)
  {
    && total < 0x1_0000_0000
    && f.payload[48] as int == total % 256 && f.payload[49] as int == total / 256 % 256
    && f.payload[50] as int == total / 65536 % 256 && f.payload[51] as int == total / 16777216 % 256
  }

  /** What a response reports, in literal offsets: little endian counter, position byte, or nothing. */
  lemma ReportedBytes(f: Frame)
    ensures StatusValues(f).Some? <==> StatusShape(f) || SnapshotShape(f)
    ensures StatusShape(f) ==> var v := StatusValues(f).value; v.counter == None && PositionByte(v.valve, f.payload[13])
    ensures SnapshotShape(f) ==>
              var v := StatusValues(f).value;
              PositionByte(v.valve, f.payload[45]) && v.counter.Some? && CounterBytes(v.counter.value, f)
  {
    if SnapshotShape(f) {
      var b := f.payload[48..52];
      LittleEndianBytes(b);
      assert b[0] == f.payload[48] && b[1] == f.payload[49] && b[2] == f.payload[50] && b[3] == f.payload[51];
      assert f.payload[32..48][13] == f.payload[45];
    }
  }

  lemma LittleEndianBytes(b: seq<byte>)
    requires |b| == 4
    ensures var c := FromLittleEndian(b);
            && c < 0x1_0000_0000 && b[0] as int == c % 256 && b[1] as int == c / 256 % 256
            && b[2] as int == c / 65536 % 256 && b[3] as int == c / 16777216 % 256
  {
    var c: int := FromLittleEndian(b);
    var b0: int, b1: int, b2: int, b3: int := b[0], b[1], b[2], b[3];
    assert c / 256 == b1 + 256 * b2 + 65536 * b3;
    assert c / 65536 == b2 + 256 * b3;
    assert c / 16777216 == b3;
  }
}
