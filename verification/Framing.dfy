/**
 The incremental parser. `FeedByte` is one turn of its loop and `Feed` a whole chunk.
 `Split` is the independent reference: it cuts a complete byte string at its bare
 delimiters. The results say that no chunking of a stream can be told from the whole.
 */
module Framing {
  import opened Base
  import opened Bits
  import opened Protocol

  datatype ParserState = ParserState(buffer: seq<byte>, escaped: bool)

  const FRESH := ParserState([], false)

  datatype ParseError = MissingStart | SizeExceeded | UnexpectedStart | BadFrame(error: ProtocolError)

  datatype Turn =
    | Waiting(state: ParserState)
    | Completed(frame: Frame, state: ParserState)
    | Rejected(error: ParseError)

  function FeedByte(st: ParserState, b: byte): Turn {
    var buffer := st.buffer + [b];
    if st.buffer == [] then
      if b != START then Rejected(MissingStart) else Waiting(ParserState(buffer, st.escaped))
    else if |buffer| > MAX_FRAME_SIZE then Rejected(SizeExceeded)
    else if st.escaped then Waiting(ParserState(buffer, false))
    else if b == ESCAPE then Waiting(ParserState(buffer, true))
    else if b == START then Rejected(UnexpectedStart)
    else if b == END then
      match Decode(buffer)
      case Success(frame) => Completed(frame, ParserState([], st.escaped))
      case Failure(e) => Rejected(BadFrame(e))
    else Waiting(ParserState(buffer, st.escaped))
  }

  /**
   A chunk is consumed, or a byte of it raises. `lost` are the frames of the chunk that
   were complete before the raising byte: the exception discards them.
   */
  datatype Fed =
    | Fine(frames: seq<Frame>, state: ParserState)
    | Raised(at: nat, lost: seq<Frame>, error: ParseError)

  function Feed(st: ParserState, data: seq<byte>): Fed {
    if |data| == 0 then Fine([], st)
    else
      match Feed(st, data[..|data| - 1])
      case Raised(at, lost, error) => Raised(at, lost, error)
      case Fine(frames, mid) =>
        match FeedByte(mid, data[|data| - 1])
        case Waiting(next) => Fine(frames, next)
        case Completed(frame, next) => Fine(frames + [frame], next)
        case Rejected(error) => Raised(|data| - 1, frames, error)
  }

  /** The parser object of the program. */
  class Parser {
    var buffer: seq<byte>
    var escaped: bool

    constructor ()
      ensures State() == FRESH
    {
      buffer, escaped := [], false;
    }

    ghost function State(): ParserState
      reads this
    {
      ParserState(buffer, escaped)
    }

    predicate Pending()
      reads this
    {
      buffer != []
    }

    method FeedChunk(data: seq<byte>) returns (r: Result<seq<Frame>, ParseError>)
      modifies this
      ensures match Feed(old(State()), data)
              case Fine(frames, next) => r == Success(frames) && State() == next
              case Raised(_, _, error) => r == Failure(error)
    {
      hide Decode;
      var frames: seq<Frame> := [];
      for i := 0 to |data|
        invariant Feed(old(State()), data[..i]) == Fine(frames, State())
      {
        var b := data[i];
        assert data[..i + 1][..i] == data[..i];
        ghost var mid := State();
        if buffer == [] {
          if b != START {
            RaisingStays(old(State()), data, i + 1);
            return Failure(MissingStart);
          }
          buffer := buffer + [b];
        } else {
          buffer := buffer + [b];
          if |buffer| > MAX_FRAME_SIZE {
            RaisingStays(old(State()), data, i + 1);
            return Failure(SizeExceeded);
          }
          if escaped {
            escaped := false;
          } else if b == ESCAPE {
            escaped := true;
          } else if b == START {
            RaisingStays(old(State()), data, i + 1);
            return Failure(UnexpectedStart);
          } else if b == END {
            var decoded := DecodeWire(buffer);
            if decoded.Failure? {
              RaisingStays(old(State()), data, i + 1);
              return Failure(BadFrame(decoded.error));
            }
            frames := frames + [decoded.value];
            buffer := [];
          }
        }
      }
      assert data[..|data|] == data;
      r := Success(frames);
    }

    /** The end of the stream is an error exactly inside a frame. */
    method Finish() returns (ok: bool)
      ensures ok == (State().buffer == [])
    {
      ok := !Pending();
    }
  }

  lemma {:induction false} RaisingStays(st: ParserState, data: seq<byte>, k: nat)
    requires k <= |data| && Feed(st, data[..k]).Raised?
    ensures Feed(st, data) == Feed(st, data[..k])
    decreases |data|
  {
    if k == |data| {
      assert data[..k] == data;
    } else {
      assert data[..|data| - 1][..k] == data[..k];
      RaisingStays(st, data[..|data| - 1], k);
    }
  }

  /** What feeding `later` after `earlier` adds up to. */
  function Then(earlier: Fed, later: seq<byte>, offset: nat): Fed {
    match earlier
    case Raised(_, _, _) => earlier
    case Fine(frames, st) =>
      match Feed(st, later)
      case Fine(more, next) => Fine(frames + more, next)
      case Raised(at, lost, error) => Raised(offset + at, frames + lost, error)
  }

  /** Feeding a concatenation is feeding its parts. */
  lemma {:induction false} FeedAppend(st: ParserState, a: seq<byte>, b: seq<byte>)
    ensures Feed(st, a + b) == Then(Feed(st, a), b, |a|)
    decreases |b|
  {
    if |b| == 0 {
      assert a + b == a;
    } else {
      var init := b[..|b| - 1];
      FeedAppend(st, a, init);
      assert (a + b)[..|a + b| - 1] == a + init;
      assert (a + b)[|a + b| - 1] == b[|b| - 1];
      var first := Feed(st, a);
      if first.Fine? && Feed(first.state, init).Fine? {
        var mid := Feed(first.state, init);
        match FeedByte(mid.state, b[|b| - 1])
        case Waiting(_) =>
        case Completed(frame, _) =>
          assert first.frames + (mid.frames + [frame]) == first.frames + mid.frames + [frame];
        case Rejected(_) =>
      }
    }
  }

  // ----- Chunking -------------------------------------------------------------------

  function Flatten<T>(chunks: seq<seq<T>>): seq<T> {
    if |chunks| == 0 then [] else Flatten(chunks[..|chunks| - 1]) + chunks[|chunks| - 1]
  }

  /** What a consumer of the parser has received, and where the stream raised, if it did. */
  datatype Delivery = Delivery(frames: seq<Frame>, state: ParserState, raised: Option<nat>)

  function Deliver(st: ParserState, chunks: seq<seq<byte>>): Delivery {
    if |chunks| == 0 then Delivery([], st, None)
    else
      var before := Deliver(st, chunks[..|chunks| - 1]);
      if before.raised.Some? then before
      else
        match Feed(before.state, chunks[|chunks| - 1])
        case Fine(frames, next) => Delivery(before.frames + frames, next, None)
        case Raised(at, _, _) => before.(raised := Some(|Flatten(chunks[..|chunks| - 1])| + at))
  }

  /**
   No chunking changes what is parsed: a stream that does not raise gives the same frames
   and the same parser state; a stream that raises does so at the same byte.
   */
  lemma {:induction false} ChunkingIsInvisible(st: ParserState, chunks: seq<seq<byte>>)
    ensures match Feed(st, Flatten(chunks))
            case Fine(frames, next) => Deliver(st, chunks) == Delivery(frames, next, None)
            case Raised(at, _, _) => Deliver(st, chunks).raised == Some(at)
  {
    hide FeedByte;
    if |chunks| > 0 {
      ChunkingIsInvisible(st, chunks[..|chunks| - 1]);
      FeedAppend(st, Flatten(chunks[..|chunks| - 1]), chunks[|chunks| - 1]);
    }
  }

  /**
   A raising stream loses exactly the frames completed in the raising chunk: what was
   delivered is what the chunks before it contain.
   */
  lemma {:induction false} RaisingLosesOneChunk(st: ParserState, chunks: seq<seq<byte>>) returns (k: nat)
    requires Deliver(st, chunks).raised.Some?
    ensures k < |chunks|
    ensures |Flatten(chunks[..k])| <= Deliver(st, chunks).raised.value < |Flatten(chunks[..k + 1])|
    ensures var before := Feed(st, Flatten(chunks[..k]));
            before.Fine? && before.frames == Deliver(st, chunks).frames
  {
    var n := |chunks| - 1;
    if Deliver(st, chunks[..n]).raised.Some? {
      k := RaisingLosesOneChunk(st, chunks[..n]);
      assert chunks[..n][..k] == chunks[..k] && chunks[..n][..k + 1] == chunks[..k + 1];
    } else {
      k := n;
      ChunkingIsInvisible(st, chunks[..n]);
      assert chunks[..n + 1] == chunks;
      RaisedIndex(Deliver(st, chunks[..n]).state, chunks[n]);
    }
  }

  lemma {:induction false} RaisedIndex(st: ParserState, data: seq<byte>)
    requires Feed(st, data).Raised?
    ensures Feed(st, data).at < |data|
  {
    if Feed(st, data[..|data| - 1]).Raised? {
      RaisedIndex(st, data[..|data| - 1]);
    }
  }

  // ----- Conservation ---------------------------------------------------------------

  function Wires(frames: seq<Frame>): seq<byte> {
    if |frames| == 0 then [] else Wires(frames[..|frames| - 1]) + frames[|frames| - 1].wire
  }

  lemma WiresAppend(frames: seq<Frame>, frame: Frame)
    ensures Wires(frames + [frame]) == Wires(frames) + frame.wire
  {
    assert (frames + [frame])[..|frames|] == frames;
  }

  /** Nothing is invented, lost or reordered, and the buffer stays within the frame limit. */
  lemma {:induction false} BytesAreConserved(st: ParserState, data: seq<byte>)
    requires Feed(st, data).Fine?
    ensures var fed := Feed(st, data);
            Wires(fed.frames) + fed.state.buffer == st.buffer + data
            && (|st.buffer| <= MAX_FRAME_SIZE ==> |fed.state.buffer| <= MAX_FRAME_SIZE)
            && forall i :: 0 <= i < |fed.frames| ==> Decode(fed.frames[i].wire) == Success(fed.frames[i])
  {
    hide Decode;
    if |data| > 0 {
      hide Wires;
      var init, b := data[..|data| - 1], data[|data| - 1];
      BytesAreConserved(st, init);
      var mid := Feed(st, init);
      assert st.buffer + data == (st.buffer + init) + [b];
      match FeedByte(mid.state, b)
      case Waiting(_) =>
        assert Wires(mid.frames) + (mid.state.buffer + [b]) == (Wires(mid.frames) + mid.state.buffer) + [b];
      case Completed(frame, _) =>
        WiresAppend(mid.frames, frame);
        DecodedWire(mid.state.buffer + [b]);
        assert Wires(mid.frames) + (mid.state.buffer + [b]) == (Wires(mid.frames) + mid.state.buffer) + [b];
    }
  }

  /** A chunk that completes a frame holds the first byte of whatever is still partial. */
  lemma {:induction false} CompletionRestarts(st: ParserState, data: seq<byte>)
    requires Feed(st, data).Fine?
    ensures Feed(st, data).frames == [] ==> Feed(st, data).state.buffer == st.buffer + data
    ensures Feed(st, data).frames != [] ==> |Feed(st, data).state.buffer| < |data|
  {
    hide Decode;
    if |data| > 0 {
      var init, b := data[..|data| - 1], data[|data| - 1];
      CompletionRestarts(st, init);
      assert st.buffer + data == st.buffer + init + [b];
    }
  }

  // ----- Whole wires ----------------------------------------------------------------

  /** One more byte of an unfinished frame. */
  lemma CollectingTurn(st: ParserState, b: byte)
    requires 0 < |st.buffer| < MAX_FRAME_SIZE && (st.escaped || (b != START && b != END))
    ensures FeedByte(st, b) == Waiting(ParserState(st.buffer + [b], !st.escaped && b == ESCAPE))
  {
    hide Decode;
  }

  lemma FeedLast(st: ParserState, data: seq<byte>, k: nat)
    requires k < |data|
    ensures Feed(st, data[..k + 1]) ==
              match Feed(st, data[..k])
              case Raised(at, lost, error) => Raised(at, lost, error)
              case Fine(frames, mid) =>
                match FeedByte(mid, data[k])
                case Waiting(next) => Fine(frames, next)
                case Completed(frame, next) => Fine(frames + [frame], next)
                case Rejected(error) => Raised(k, frames, error)
  {
    hide FeedByte;
    assert data[..k + 1][..k] == data[..k];
  }

  lemma {:induction false} InsideWire(wire: seq<byte>, k: nat)
    requires Decode(wire).Success? && k + 2 <= |wire|
    ensures Unescape(wire[1..k + 1]).Unstuffed?
    ensures Feed(FRESH, wire[..k + 1]) == Fine([], ParserState(wire[..k + 1], Unescape(wire[1..k + 1]).escaped))
  {
    hide FeedByte, Feed, Decode, Unescape;
    InnerIsStuffed(wire, k);
    FirstInside(wire);
    if k > 0 {
      InsideWire(wire, k - 1);
      InnerIsStuffed(wire, k - 1);
      var u := Unescape(wire[1..k]);
      assert wire[1..k] + [wire[k]] == wire[1..k + 1];
      UnescapeAppend(wire[1..k], wire[k]);
      FeedLast(FRESH, wire, k);
      CollectingTurn(ParserState(wire[..k], u.escaped), wire[k]);
      assert wire[..k] + [wire[k]] == wire[..k + 1];
    }
  }

  lemma FirstInside(wire: seq<byte>)
    requires wire != [] && wire[0] == START
    ensures wire[1..1] == [] && Unescape([]) == Unstuffed([], false)
    ensures Feed(FRESH, wire[..1]) == Fine([], ParserState(wire[..1], false))
  {
    FirstByte(wire);
  }

  lemma InnerIsStuffed(wire: seq<byte>, k: nat)
    requires Decode(wire).Success? && k + 2 <= |wire|
    ensures |wire| <= MAX_FRAME_SIZE && wire[0] == START && Unescape(wire[1..k + 1]).Unstuffed?
  {
    var inner := wire[1..|wire| - 1];
    assert inner[..k] == wire[1..k + 1];
    if Unescape(inner[..k]).BareDelimiter? {
      BareDelimiterStays(inner, k);
    }
  }

  lemma WireEnds(wire: seq<byte>)
    requires Decode(wire).Success?
    ensures 2 <= |wire| <= MAX_FRAME_SIZE && wire[|wire| - 1] == END
    ensures !Unescape(wire[1..|wire| - 1]).BareDelimiter? && !Unescape(wire[1..|wire| - 1]).escaped
  {
    hide Unescape, CheckedBody;
  }

  /** An accepted wire, fed alone, is recognized at its last byte. */
  lemma WireIsOneFrame(wire: seq<byte>)
    requires Decode(wire).Success?
    ensures Feed(FRESH, wire) == Fine([Decode(wire).value], FRESH)
  {
    hide Feed, FeedByte, Decode, Unescape;
    var n := |wire|;
    WireEnds(wire);
    InsideWire(wire, n - 2);
    FeedLast(FRESH, wire, n - 1);
    DelimiterTurn(wire[..n - 1], wire[n - 1]);
    assert wire[..n - 1] + [wire[n - 1]] == wire && wire[..n] == wire;
  }

  /**
   Accepted wires one after the other, in particular the outputs of the encoder, parse to
   exactly their frames with nothing pending.
   */
  lemma {:induction false} ConcatenatedWires(frames: seq<Frame>)
    requires forall i :: 0 <= i < |frames| ==> Decode(frames[i].wire) == Success(frames[i])
    ensures Feed(FRESH, Wires(frames)) == Fine(frames, FRESH)
  {
    hide FeedByte, Decode;
    if |frames| > 0 {
      var n := |frames| - 1;
      ConcatenatedWires(frames[..n]);
      FeedAppend(FRESH, Wires(frames[..n]), frames[n].wire);
      WireIsOneFrame(frames[n].wire);
      assert frames[..n] + [frames[n]] == frames;
    }
  }

  /** The fields of one message. */
  datatype Message = Message(
    destination: byte, source: byte, opcode: byte, address: word32, length: byte, payload: seq<byte>)
  {
    function Encoded(): Result<Frame, ProtocolError> {
      Encode(destination, source, opcode, address, length, payload)
    }
  }

  /** Messages encoded, concatenated, cut anywhere and parsed come back as they went in. */
  lemma EncodedStreamRoundTrip(messages: seq<Message>, frames: seq<Frame>, chunks: seq<seq<byte>>)
    requires |frames| == |messages|
    requires forall i :: 0 <= i < |messages| ==> messages[i].Encoded() == Success(frames[i])
    requires Flatten(chunks) == Wires(frames)
    ensures Deliver(FRESH, chunks) == Delivery(frames, FRESH, None)
    ensures forall i :: 0 <= i < |messages| ==> frames[i] == Frame(
      messages[i].destination, messages[i].source, messages[i].opcode, messages[i].address,
      messages[i].length, messages[i].payload, frames[i].wire)
  {
    forall i | 0 <= i < |messages|
      ensures Decode(frames[i].wire) == Success(frames[i])
      ensures frames[i] == Frame(
        messages[i].destination, messages[i].source, messages[i].opcode, messages[i].address,
        messages[i].length, messages[i].payload, frames[i].wire)
    {
      var m := messages[i];
      EncodeInverts(m.destination, m.source, m.opcode, m.address, m.length, m.payload);
      assert messages[i].Encoded() == Success(frames[i]);
    }
    ConcatenatedWires(frames);
    ChunkingIsInvisible(FRESH, chunks);
  }

  // ----- The batch splitter ---------------------------------------------------------

  /** The position of the first delimiter at or after `k` that is not the second byte of an escape. */
  function BareDelimiterFrom(data: seq<byte>, k: nat): nat
    requires k <= |data|
    decreases |data| - k
  {
    if k == |data| then k
    else if data[k] == START || data[k] == END then k
    else if data[k] == ESCAPE then (if k + 1 < |data| then BareDelimiterFrom(data, k + 2) else |data|)
    else BareDelimiterFrom(data, k + 1)
  }

  lemma {:induction false} BareDelimiterBounds(data: seq<byte>, k: nat)
    requires k <= |data|
    ensures k <= BareDelimiterFrom(data, k) <= |data|
    decreases |data| - k
  {
    if k < |data| && data[k] != START && data[k] != END {
      if data[k] == ESCAPE {
        if k + 1 < |data| {
          BareDelimiterBounds(data, k + 2);
        }
      } else {
        BareDelimiterBounds(data, k + 1);
      }
    }
  }

  /** A complete stream cut at its delimiters: its frames, the partial rest, or the byte at fault. */
  datatype Cut = Whole(frames: seq<Frame>, rest: seq<byte>) | Fault(at: nat, before: seq<Frame>)

  function Split(data: seq<byte>): Cut
    decreases |data|
  {
    if data == [] then Whole([], [])
    else if data[0] != START then Fault(0, [])
    else
      var e := BareDelimiterFrom(data, 1);
      BareDelimiterBounds(data, 1);
      if e >= MAX_FRAME_SIZE && |data| > MAX_FRAME_SIZE then Fault(MAX_FRAME_SIZE, [])
      else if e == |data| then Whole([], data)
      else if data[e] == START then Fault(e, [])
      else
        match Decode(data[..e + 1])
        case Failure(_) => Fault(e, [])
        case Success(frame) =>
          match Split(data[e + 1..])
          case Whole(frames, rest) => Whole([frame] + frames, rest)
          case Fault(at, before) => Fault(e + 1 + at, [frame] + before)
  }

  /** Up to the first bare delimiter the parser only collects, remembering a dangling escape. */
  lemma {:induction false} CollectsUpTo(data: seq<byte>, k: nat, m: nat)
    requires 1 <= k <= m <= |data| && m <= MAX_FRAME_SIZE && m <= BareDelimiterFrom(data, k)
    requires Feed(FRESH, data[..k]) == Fine([], ParserState(data[..k], false))
    ensures exists escaped :: Feed(FRESH, data[..m]) == Fine([], ParserState(data[..m], escaped))
    ensures m == BareDelimiterFrom(data, k) && m < |data| ==> Feed(FRESH, data[..m]) == Fine([], ParserState(data[..m], false))
    decreases m - k
  {
    hide FeedByte, Feed, Decode;
    if k < m {
      FeedLast(FRESH, data, k);
      CollectingTurn(ParserState(data[..k], false), data[k]);
      assert data[..k] + [data[k]] == data[..k + 1];
      if data[k] == ESCAPE {
        if k + 1 < m {
          FeedLast(FRESH, data, k + 1);
          CollectingTurn(ParserState(data[..k + 1], true), data[k + 1]);
          assert data[..k + 1] + [data[k + 1]] == data[..k + 2];
          CollectsUpTo(data, k + 2, m);
        } else if k + 1 < |data| {
          BareDelimiterBounds(data, k + 2);
        }
      } else {
        BareDelimiterBounds(data, k + 1);
        CollectsUpTo(data, k + 1, m);
      }
    }
  }

  lemma FirstByte(data: seq<byte>)
    requires data != []
    ensures data[0] == START ==> Feed(FRESH, data[..1]) == Fine([], ParserState(data[..1], false))
    ensures data[0] != START ==> Feed(FRESH, data[..1]) == Raised(0, [], MissingStart)
  {
    assert data[..1][..0] == [] && data[..1] == [data[0]];
  }

  lemma AtLimit(data: seq<byte>)
    requires data != [] && data[0] == START && |data| > MAX_FRAME_SIZE
    requires BareDelimiterFrom(data, 1) >= MAX_FRAME_SIZE
    ensures Feed(FRESH, data[..MAX_FRAME_SIZE + 1]) == Raised(MAX_FRAME_SIZE, [], SizeExceeded)
  {
    hide Decode;
    FirstByte(data);
    CollectsUpTo(data, 1, MAX_FRAME_SIZE);
    FeedLast(FRESH, data, MAX_FRAME_SIZE);
  }

  lemma DelimiterTurn(buffer: seq<byte>, b: byte)
    requires 0 < |buffer| < MAX_FRAME_SIZE && (b == START || b == END)
    ensures FeedByte(ParserState(buffer, false), b) ==
              if b == START then Rejected(UnexpectedStart)
              else match Decode(buffer + [b])
                case Failure(error) => Rejected(BadFrame(error))
                case Success(frame) => Completed(frame, FRESH)
  {
    hide Decode;
  }

  lemma AtDelimiter(data: seq<byte>)
    requires data != [] && data[0] == START
    requires var e := BareDelimiterFrom(data, 1); 1 <= e < |data| && e < MAX_FRAME_SIZE
    ensures var e := BareDelimiterFrom(data, 1);
            Feed(FRESH, data[..e + 1]) ==
              if data[e] == START then Raised(e, [], UnexpectedStart)
              else match Decode(data[..e + 1])
                case Failure(error) => Raised(e, [], BadFrame(error))
                case Success(frame) => Fine([frame], FRESH)
  {
    hide Decode, FeedByte, Feed, BareDelimiterFrom;
    var e := BareDelimiterFrom(data, 1);
    FirstByte(data);
    CollectsUpTo(data, 1, e);
    BareDelimiterIsDelimiter(data, 1);
    FeedLast(FRESH, data, e);
    DelimiterTurn(data[..e], data[e]);
    assert data[..e] + [data[e]] == data[..e + 1];
  }

  lemma {:induction false} BareDelimiterIsDelimiter(data: seq<byte>, k: nat)
    requires k <= |data| && BareDelimiterFrom(data, k) < |data|
    ensures data[BareDelimiterFrom(data, k)] == START || data[BareDelimiterFrom(data, k)] == END
    decreases |data| - k
  {
    if data[k] != START && data[k] != END {
      if data[k] == ESCAPE {
        BareDelimiterIsDelimiter(data, k + 2);
      } else {
        BareDelimiterIsDelimiter(data, k + 1);
      }
    }
  }

  /** Parser and splitter agree on the frames, the rest and the byte at fault. */
  ghost predicate Agree(fed: Fed, cut: Cut) {
    match cut
    case Whole(frames, rest) => fed.Fine? && fed.frames == frames && fed.state.buffer == rest
    case Fault(at, before) => fed.Raised? && fed.at == at && fed.lost == before
  }

  lemma NothingFed()
    ensures Feed(FRESH, []) == Fine([], FRESH)
  {
  }

  lemma SplitTail(data: seq<byte>, k: nat)
    requires k <= |data|
    ensures Feed(FRESH, data) == Then(Feed(FRESH, data[..k]), data[k..], k)
  {
    hide Feed;
    FeedAppend(FRESH, data[..k], data[k..]);
    assert data[..k] + data[k..] == data;
  }

  /** The incremental parser refines the batch splitter on every byte string. */
  lemma {:induction false} ParserRefinesSplitter(data: seq<byte>)
    ensures Agree(Feed(FRESH, data), Split(data))
    decreases |data|
  {
    hide Feed, FeedByte, Decode, BareDelimiterFrom;
    if data == [] {
      NothingFed();
    } else if data[0] != START {
      FirstByte(data);
      RaisingStays(FRESH, data, 1);
    } else {
      FirstByte(data);
      var e := BareDelimiterFrom(data, 1);
      BareDelimiterBounds(data, 1);
      if e >= MAX_FRAME_SIZE && |data| > MAX_FRAME_SIZE {
        AtLimit(data);
        RaisingStays(FRESH, data, MAX_FRAME_SIZE + 1);
      } else if e == |data| {
        CollectsUpTo(data, 1, e);
        assert data[..e] == data;
      } else {
        AtDelimiter(data);
        if data[e] == START || Decode(data[..e + 1]).Failure? {
          RaisingStays(FRESH, data, e + 1);
        } else {
          ParserRefinesSplitter(data[e + 1..]);
          SplitTail(data, e + 1);
        }
      }
    }
  }
}
