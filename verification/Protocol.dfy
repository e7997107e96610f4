/**
 Framing and known message shapes of the eVodnik protocol: byte stuffing by the rule of
 section 4.2 of RFC 1662 with the delimiters 0xC0 and 0xC1, and the frame check sequence.
 */
module Protocol {
  import opened Base
  import opened Bits
  import opened Crc

  const START: byte := 0xC0
  const END: byte := 0xC1
  const ESCAPE: byte := 0x7D
  const MASK: byte := 0x20
  const MAX_FRAME_SIZE: nat := 4096
  const DEVICE_ADDRESS: byte := 0x01
  const OPEN_CODE: byte := 0xC7
  const CLOSE_CODE: byte := 0xC8

  type word32 = x: int | 0 <= x < 0x1_0000_0000

  datatype ProtocolError =
    | InvalidDelimitersOrSize
    | UnexpectedDelimiter
    | IncompleteFrame
    | InvalidCrc

  datatype Valve = Open | Closed

  /** What a status or snapshot response reports; the counter is its raw low 32 bits. */
  datatype Values = Values(valve: Option<Valve>, counter: Option<nat>)

  datatype Frame = Frame(
    destination: byte, source: byte, opcode: byte, address: word32, length: byte,
    payload: seq<byte>, wire: seq<byte>)
  {
    /** The valve position this frame commands, when it is a recognized valve write. */
    function ValveCommand(): Option<Valve> {
      if opcode == 0x20 && address == 0x1A && length == 2 then
        if payload == [0x00, OPEN_CODE] then Some(Open)
        else if payload == [0x00, CLOSE_CODE] then Some(Closed)
        else None
      else None
    }

    /** Endpoints are swapped, the opcode is kept, and a known read keeps its shape. */
    predicate Matches(request: Frame) {
      && destination == request.source && source == request.destination && opcode == request.opcode
      && (request.opcode in [0x31, 0x41] && request.payload == [] ==>
            address == request.address && length == request.length && |payload| == length as int)
    }

    /** The decoded fields, without the bytes they were decoded from. */
    ghost predicate SameFields(that: Frame) {
      this == that.(wire := wire)
    }
  }

  function ValveCode(code: byte): Option<Valve> {
    if code == OPEN_CODE then Some(Open) else if code == CLOSE_CODE then Some(Closed) else None
  }

  function StatusValues(frame: Frame): Option<Values> {
    if frame.opcode != 0x31 || |frame.payload| != frame.length as int then None
    else if frame.address == 0x20 && frame.length == 16 then
      Some(Values(ValveCode(frame.payload[13]), None))
    else if frame.address == 0 && frame.length == 128 then
      var status := frame.payload[32..48];
      Some(Values(ValveCode(status[13]), Some(FromLittleEndian(frame.payload[48..52]))))
    else None
  }

  function FromLittleEndian(b: seq<byte>): nat
    requires |b| == 4
  {
    b[0] as int + 0x100 * (b[1] as int) + 0x1_0000 * (b[2] as int) + 0x100_0000 * (b[3] as int)
  }

  function FromBigEndian(b: seq<byte>): word32
    requires |b| == 4
  {
    0x100_0000 * (b[0] as int) + 0x1_0000 * (b[1] as int) + 0x100 * (b[2] as int) + b[3] as int
  }

  function BigEndian(x: word32): (b: seq<byte>)
    ensures |b| == 4
  {
    [x / 0x100_0000, x / 0x1_0000 % 0x100, x / 0x100 % 0x100, x % 0x100]
  }

  lemma BigEndianInverse(x: word32)
    ensures FromBigEndian(BigEndian(x)) == x
  {
    assert x / 0x100 == 0x100 * (x / 0x1_0000) + x / 0x100 % 0x100;
    assert x / 0x1_0000 == 0x100 * (x / 0x100_0000) + x / 0x1_0000 % 0x100;
  }

  lemma FromBigEndianInverse(b: seq<byte>)
    requires |b| == 4
    ensures BigEndian(FromBigEndian(b)) == b
  {
    var x: int := FromBigEndian(b);
    var b0: int, b1: int, b2: int, b3: int := b[0], b[1], b[2], b[3];
    assert x / 0x100 == 0x1_0000 * b0 + 0x100 * b1 + b2;
    assert x / 0x1_0000 == 0x100 * b0 + b1;
    assert x / 0x100_0000 == b0;
  }

  // ----- Byte stuffing --------------------------------------------------------------

  predicate Special(b: byte) {
    b == START || b == END || b == ESCAPE
  }

  /** `b ^ 0x20`. */
  function Masked(b: byte): (m: byte) {
    Powers();
    XorBound(b, MASK, 8);
    Xor(b, MASK)
  }

  lemma MaskedTwice(b: byte)
    ensures Masked(Masked(b)) == b
  {
    hide Xor;
    XorTwice(b, MASK);
  }

  function Escape(body: seq<byte>): seq<byte> {
    if |body| == 0 then []
    else
      var b := body[|body| - 1];
      Escape(body[..|body| - 1]) + (if Special(b) then [ESCAPE, Masked(b)] else [b])
  }

  /** The state of the unstuffing loop; a bare delimiter ends it. */
  datatype Unstuffed = Unstuffed(body: seq<byte>, escaped: bool) | BareDelimiter

  function UnescapeByte(u: Unstuffed, b: byte): Unstuffed {
    match u
    case BareDelimiter => BareDelimiter
    case Unstuffed(body, escaped) =>
      if escaped then Unstuffed(body + [Masked(b)], false)
      else if b == ESCAPE then Unstuffed(body, true)
      else if b == START || b == END then BareDelimiter
      else Unstuffed(body + [b], false)
  }

  function Unescape(s: seq<byte>): Unstuffed {
    if |s| == 0 then Unstuffed([], false) else UnescapeByte(Unescape(s[..|s| - 1]), s[|s| - 1])
  }

  lemma UnescapeAppend(s: seq<byte>, b: byte)
    ensures Unescape(s + [b]) == UnescapeByte(Unescape(s), b)
  {
    assert (s + [b])[..|s|] == s;
  }

  /** What the encoder emits for one byte is read back as that byte. */
  lemma UnescapeOne(s: seq<byte>, body: seq<byte>, b: byte)
    requires Unescape(s) == Unstuffed(body, false)
    ensures Unescape(s + if Special(b) then [ESCAPE, Masked(b)] else [b]) == Unstuffed(body + [b], false)
  {
    hide Unescape, Masked;
    if Special(b) {
      UnescapeAppend(s, ESCAPE);
      UnescapeAppend(s + [ESCAPE], Masked(b));
      assert s + [ESCAPE] + [Masked(b)] == s + [ESCAPE, Masked(b)];
      MaskedTwice(b);
    } else {
      UnescapeAppend(s, b);
    }
  }

  lemma EscapeLast(init: seq<byte>, b: byte)
    ensures Escape(init + [b]) == Escape(init) + if Special(b) then [ESCAPE, Masked(b)] else [b]
  {
    hide Masked, Special;
    assert (init + [b])[..|init|] == init;
  }

  /** Escaping is undone by unescaping, whatever the bytes are. */
  lemma {:induction false} UnescapeEscape(body: seq<byte>)
    ensures Unescape(Escape(body)) == Unstuffed(body, false)
  {
    if |body| > 0 {
      hide *;
      var init, b := body[..|body| - 1], body[|body| - 1];
      assert init + [b] == body;
      UnescapeEscape(init);
      UnescapeOne(Escape(init), init, b);
      EscapeLast(init, b);
    }
  }

  /** No stuffing of a body is shorter than the canonical one. */
  lemma {:induction false} EscapeIsShortest(s: seq<byte>)
    requires Unescape(s).Unstuffed?
    ensures |Escape(Unescape(s).body)| + (if Unescape(s).escaped then 1 else 0) <= |s|
  {
    hide Masked;
    if |s| > 0 {
      var u, b := Unescape(s[..|s| - 1]), s[|s| - 1];
      EscapeIsShortest(s[..|s| - 1]);
      var m := if u.escaped then Masked(b) else b;
      assert (u.body + [m])[..|u.body|] == u.body;
    }
  }

  lemma {:induction false} EscapeLength(body: seq<byte>)
    ensures |body| <= |Escape(body)| <= 2 * |body|
  {
    hide Masked;
    if |body| > 0 {
      EscapeLength(body[..|body| - 1]);
    }
  }

  lemma {:induction false} BareDelimiterStays(s: seq<byte>, k: nat)
    requires k <= |s| && Unescape(s[..k]).BareDelimiter?
    ensures Unescape(s).BareDelimiter?
    decreases |s|
  {
    if k == |s| {
      assert s[..k] == s;
    } else {
      assert s[..|s| - 1][..k] == s[..k];
      BareDelimiterStays(s[..|s| - 1], k);
    }
  }

  // ----- Decoding -------------------------------------------------------------------

  predicate Delimited(wire: seq<byte>) {
    |wire| <= MAX_FRAME_SIZE && |wire| > 1 && wire[0] == START && wire[|wire| - 1] == END
  }

  predicate CheckedBody(body: seq<byte>) {
    |body| >= 10 && Fcs(body[..|body| - 2]) == Word(body[|body| - 2], body[|body| - 1])
  }

  function Fields(body: seq<byte>, wire: seq<byte>): Frame
    requires |body| >= 10
  {
    Frame(body[0], body[1], body[2], FromBigEndian(body[3..7]), body[7], body[8..|body| - 2], wire)
  }

  function Decode(wire: seq<byte>): Result<Frame, ProtocolError> {
    if !Delimited(wire) then Failure(InvalidDelimitersOrSize)
    else match Unescape(wire[1..|wire| - 1])
      case BareDelimiter => Failure(UnexpectedDelimiter)
      case Unstuffed(body, escaped) =>
        if escaped || |body| < 10 then Failure(IncompleteFrame)
        else if !CheckedBody(body) then Failure(InvalidCrc)
        else Success(Fields(body, wire))
  }

  lemma DecodedWire(wire: seq<byte>)
    requires Decode(wire).Success?
    ensures Decode(wire).value.wire == wire
  {
  }

  /** The decoding loop of the program, with its early exits. */
  method DecodeWire(wire: seq<byte>) returns (r: Result<Frame, ProtocolError>)
    ensures r == Decode(wire)
  {
    hide Fcs, Masked;
    if |wire| > MAX_FRAME_SIZE || |wire| == 0 || wire[0] != START || wire[|wire| - 1] != END {
      return Failure(InvalidDelimitersOrSize);
    }
    var inner := wire[1..|wire| - 1];
    var body: seq<byte> := [];
    var escaped := false;
    for i := 0 to |inner|
      invariant Unescape(inner[..i]) == Unstuffed(body, escaped)
    {
      var b := inner[i];
      assert inner[..i + 1][..i] == inner[..i];
      if escaped {
        body := body + [Masked(b)];
        escaped := false;
      } else if b == ESCAPE {
        escaped := true;
      } else if b == START || b == END {
        BareDelimiterStays(inner, i + 1);
        return Failure(UnexpectedDelimiter);
      } else {
        body := body + [b];
      }
    }
    assert inner[..|inner|] == inner;
    if escaped || |body| < 10 {
      return Failure(IncompleteFrame);
    }
    var crc := Crc16(body[..|body| - 2]);
    if crc != Word(body[|body| - 2], body[|body| - 1]) {
      return Failure(InvalidCrc);
    }
    r := Success(Fields(body, wire));
  }

  // ----- Encoding -------------------------------------------------------------------

  /** Header and payload followed by the check sequence, big endian. */
  function Body(destination: byte, source: byte, opcode: byte, address: word32, length: byte, payload: seq<byte>)
    : (body: seq<byte>)
    ensures |body| == 10 + |payload|
  {
    var data := [destination, source, opcode] + BigEndian(address) + [length] + payload;
    FcsBound(data);
    data + [Fcs(data) / 256, Fcs(data) % 256]
  }

  function Wire(body: seq<byte>): seq<byte> {
    [START] + Escape(body) + [END]
  }

  function Encode(destination: byte, source: byte, opcode: byte, address: word32, length: byte, payload: seq<byte>)
    : Result<Frame, ProtocolError>
  {
    Decode(Wire(Body(destination, source, opcode, address, length, payload)))
  }

  /** The encoding loop of the program. */
  method EncodeFields(
    destination: byte, source: byte, opcode: byte, address: word32, length: byte, payload: seq<byte>)
    returns (r: Result<Frame, ProtocolError>)
    ensures r == Encode(destination, source, opcode, address, length, payload)
  {
    hide Fcs, Masked, Decode;
    var body: seq<byte> := [destination, source, opcode] + BigEndian(address);
    body := body + [length] + payload;
    var crc := Crc16(body);
    body := body + [crc / 256, crc % 256];
    var wire: seq<byte> := [START];
    for i := 0 to |body|
      invariant wire == [START] + Escape(body[..i])
    {
      assert body[..i + 1][..i] == body[..i];
      if body[i] == START || body[i] == END || body[i] == ESCAPE {
        wire := wire + [ESCAPE, Masked(body[i])];
      } else {
        wire := wire + [body[i]];
      }
    }
    assert body[..|body|] == body;
    r := DecodeWire(wire + [END]);
  }

  lemma BodyIsChecked(
    destination: byte, source: byte, opcode: byte, address: word32, length: byte, payload: seq<byte>)
    ensures var body := Body(destination, source, opcode, address, length, payload);
            CheckedBody(body)
            && forall wire :: Fields(body, wire) == Frame(destination, source, opcode, address, length, payload, wire)
  {
    hide Fcs;
    var data := [destination, source, opcode] + BigEndian(address) + [length] + payload;
    var body := Body(destination, source, opcode, address, length, payload);
    assert body[..|body| - 2] == data;
    assert body[3..7] == BigEndian(address);
    assert body[8..|body| - 2] == payload;
    BigEndianInverse(address);
  }

  /** Encoding succeeds exactly when the wire fits, and decoding it gives the fields back. */
  lemma EncodeInverts(
    destination: byte, source: byte, opcode: byte, address: word32, length: byte, payload: seq<byte>)
    ensures var wire := Wire(Body(destination, source, opcode, address, length, payload));
            var r := Encode(destination, source, opcode, address, length, payload);
            if |wire| <= MAX_FRAME_SIZE
            then r == Success(Frame(destination, source, opcode, address, length, payload, wire)) && Decode(wire) == r
            else r == Failure(InvalidDelimitersOrSize)
  {
    hide Fcs, CheckedBody, Escape, Unescape, Body;
    var body := Body(destination, source, opcode, address, length, payload);
    var wire := Wire(body);
    BodyIsChecked(destination, source, opcode, address, length, payload);
    UnescapeEscape(body);
    assert wire[1..|wire| - 1] == Escape(body);
  }

  /** Every accepted body is the canonical body of the fields read from it. */
  lemma BodyOfFields(body: seq<byte>, wire: seq<byte>)
    requires CheckedBody(body)
    ensures var f := Fields(body, wire);
            Body(f.destination, f.source, f.opcode, f.address, f.length, f.payload) == body
  {
    hide Fcs;
    var n := |body|;
    var data := body[..n - 2];
    FromBigEndianInverse(body[3..7]);
    assert data == [body[0], body[1], body[2]] + body[3..7] + [body[7]] + body[8..n - 2];
    assert body == data + [body[n - 2], body[n - 1]];
    assert Word(body[n - 2], body[n - 1]) / 256 == body[n - 2];
  }

  /**
   Re-encoding the fields of any accepted wire, canonical or not, gives a wire that decodes
   to the same fields and is no longer than the original.
   */
  lemma ReencodeIsShortest(wire: seq<byte>)
    requires Decode(wire).Success?
    ensures var f := Decode(wire).value;
            var again := Encode(f.destination, f.source, f.opcode, f.address, f.length, f.payload);
            again.Success? && again.value.SameFields(f) && |again.value.wire| <= |wire|
  {
    hide Fcs, Escape, Unescape, Body, CheckedBody, Encode;
    var f := Decode(wire).value;
    var inner := wire[1..|wire| - 1];
    BodyOfFields(Unescape(inner).body, wire);
    EscapeIsShortest(inner);
    EncodeInverts(f.destination, f.source, f.opcode, f.address, f.length, f.payload);
  }

  // ----- Error detection ------------------------------------------------------------

  /** The unescaped bytes between the delimiters, check sequence included. */
  function BodyOf(wire: seq<byte>): seq<byte>
    requires |wire| >= 2 && Unescape(wire[1..|wire| - 1]).Unstuffed?
  {
    Unescape(wire[1..|wire| - 1]).body
  }

  lemma DecodedBodyIsEven(wire: seq<byte>)
    requires Decode(wire).Success?
    ensures OnesIn(BodyOf(wire)) % 2 == 0
  {
    hide Fcs, Unescape, OnesIn;
    var body := BodyOf(wire);
    var n := |body|;
    assert body == body[..n - 2] + [body[n - 2], body[n - 1]];
    CheckedBodyIsEven(body[..n - 2], body[n - 2], body[n - 1]);
  }

  lemma AcceptedBodiesDifferEvenly(wire: seq<byte>, other: seq<byte>)
    requires Decode(wire).Success? && Decode(other).Success? && |BodyOf(wire)| == |BodyOf(other)|
    ensures Flips(BodyOf(wire), BodyOf(other)) % 2 == 0
  {
    hide OnesIn, Flips, CheckedBody;
    DecodedBodyIsEven(wire);
    DecodedBodyIsEven(other);
    EvenMessagesDifferEvenly(BodyOf(wire), BodyOf(other));
  }

  /** Any odd number of bit flips in an accepted body is rejected, wherever the flips are. */
  lemma OddFlipsAreRejected(wire: seq<byte>, damaged: seq<byte>)
    requires Decode(wire).Success?
    requires |damaged| >= 2 && Unescape(damaged[1..|damaged| - 1]).Unstuffed?
    requires |BodyOf(damaged)| == |BodyOf(wire)| && Flips(BodyOf(wire), BodyOf(damaged)) % 2 == 1
    ensures Decode(damaged).Failure?
  {
    hide Decode, Flips;
    if Decode(damaged).Success? {
      AcceptedBodiesDifferEvenly(wire, damaged);
    }
  }

  /** A burst of at most 16 consecutive bits within header and payload is rejected. */
  lemma BurstIsRejected(wire: seq<byte>, damaged: seq<byte>)
    requires Decode(wire).Success?
    requires |damaged| >= 2 && Unescape(damaged[1..|damaged| - 1]).Unstuffed?
    requires var a, b := BodyOf(wire), BodyOf(damaged);
             |a| == |b| && a[|a| - 2..] == b[|a| - 2..] && DifferInBurst(a[..|a| - 2], b[..|a| - 2])
    ensures Decode(damaged).Failure?
  {
    hide Fcs, Unescape;
    var a, b := BodyOf(wire), BodyOf(damaged);
    var n := |a| - 2;
    BurstChangesFcs(a[..n], b[..n]);
    assert a[n] == a[n..][0] == b[n] && a[n + 1] == a[n..][1] == b[n + 1];
  }

  // ----- Request builders -----------------------------------------------------------

  function Request(source: byte, opcode: byte, address: word32, length: byte, payload: seq<byte>): (f: Frame)
    requires |payload| <= 2
    ensures f == Frame(DEVICE_ADDRESS, source, opcode, address, length, payload, f.wire)
    ensures Decode(f.wire) == Success(f)
  {
    EscapeLength(Body(DEVICE_ADDRESS, source, opcode, address, length, payload));
    EncodeInverts(DEVICE_ADDRESS, source, opcode, address, length, payload);
    Encode(DEVICE_ADDRESS, source, opcode, address, length, payload).value
  }

  function ReadStatus(tag: byte): Frame {
    Request(tag, 0x31, 0x20, 16, [])
  }

  function ReadSnapshot(tag: byte): Frame {
    Request(tag, 0x31, 0, 128, [])
  }

  function CommandFrame(tag: byte, valve: Valve): Frame {
    Request(tag, 0x20, 0x1A, 2, [0, if valve.Open? then OPEN_CODE else CLOSE_CODE])
  }

  /** A response matching a status read always reports status values, without a counter. */
  lemma StatusReadYieldsValues(tag: byte, response: Frame)
    requires response.Matches(ReadStatus(tag))
    ensures StatusValues(response).Some? && StatusValues(response).value.counter.None?
  {
    assert 0x31 in [0x31, 0x41];
  }

  /** A response matching a snapshot read always reports status values with a counter. */
  lemma SnapshotReadYieldsCounter(tag: byte, response: Frame)
    requires response.Matches(ReadSnapshot(tag))
    ensures StatusValues(response).Some? && StatusValues(response).value.counter.Some?
  {
    assert 0x31 in [0x31, 0x41];
  }

  /** The request builder for a valve position builds a recognized command for it. */
  lemma CommandFrameCommands(tag: byte, valve: Valve)
    ensures CommandFrame(tag, valve).ValveCommand() == Some(valve)
  {
  }
}
