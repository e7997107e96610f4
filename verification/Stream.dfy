/**
 The stream reader: chunks arrive at given times, and a partial frame has an absolute
 deadline. `DeadlineAt` states where the deadline must come from, from the bytes alone;
 `ReadStream` is the loop of the program with its single updated variable.
 */
module Stream {
  import opened Base
  import opened Bits
  import opened Protocol
  import opened Framing

  /**
   A nonempty chunk, the time at which the read can return it, and whether it does so even if
   the deadline is over: data that is already there when the read begins is returned at once,
   and at the very deadline the event loop decides.
   */
  datatype Arrival = Arrival(time: real, data: seq<byte>, ready: bool)

  /** The read is cut off by its deadline. */
  predicate Late(deadline: Option<real>, time: real, ready: bool) {
    deadline.Some? && deadline.value <= time && !ready
  }

  datatype StreamEnd = TimedOut | BadStream | EndedInsideFrame | Ended

  function Chunks(arrivals: seq<Arrival>): (chunks: seq<seq<byte>>)
    ensures |chunks| == |arrivals|
  {
    seq(|arrivals|, i requires 0 <= i < |arrivals| => arrivals[i].data)
  }

  /** The bytes of the first `k` arrivals. */
  function Bytes(arrivals: seq<Arrival>, k: nat): seq<byte>
    requires k <= |arrivals|
  {
    Flatten(Chunks(arrivals)[..k])
  }

  /** The arrival that carried byte `p` of the stream. */
  function CarrierOf(arrivals: seq<Arrival>, k: nat, p: nat): (j: nat)
    requires k <= |arrivals| && p < |Bytes(arrivals, k)|
    ensures j < k
    ensures |Bytes(arrivals, j)| <= p < |Bytes(arrivals, j + 1)|
  {
    BytesGrow(arrivals, k - 1);
    if p >= |Bytes(arrivals, k - 1)| then k - 1 else CarrierOf(arrivals, k - 1, p)
  }

  lemma BytesGrow(arrivals: seq<Arrival>, k: int)
    requires k < |arrivals|
    ensures k >= 0 ==> Bytes(arrivals, k + 1) == Bytes(arrivals, k) + arrivals[k].data
  {
    if k >= 0 {
      assert Chunks(arrivals)[..k + 1][..k] == Chunks(arrivals)[..k];
    }
  }

  /** What the parser holds after the first `k` arrivals. */
  function Parsed(arrivals: seq<Arrival>, k: nat): Fed
    requires k <= |arrivals|
  {
    Feed(FRESH, Bytes(arrivals, k))
  }

  /**
   The deadline that must be in force once `k` chunks are in: none between frames, and
   inside a frame the arrival time of the chunk with that frame's first byte plus the limit.
   */
  function DeadlineAt(arrivals: seq<Arrival>, k: nat, timeout: real): Option<real>
    requires k <= |arrivals| && Parsed(arrivals, k).Fine?
  {
    var partial := Parsed(arrivals, k).state.buffer;
    if partial == [] then None
    else
      BytesAreConserved(FRESH, Bytes(arrivals, k));
      Some(arrivals[CarrierOf(arrivals, k, |Bytes(arrivals, k)| - |partial|)].time + timeout)
  }

  lemma ParsedStep(arrivals: seq<Arrival>, k: nat)
    requires k < |arrivals|
    ensures Parsed(arrivals, k + 1) == Then(Parsed(arrivals, k), arrivals[k].data, |Bytes(arrivals, k)|)
  {
    hide Feed;
    BytesGrow(arrivals, k);
    FeedAppend(FRESH, Bytes(arrivals, k), arrivals[k].data);
  }

  /** Bytes that complete no frame leave the deadline of the partial frame where it was. */
  lemma DeadlineIsNotExtended(arrivals: seq<Arrival>, k: nat, timeout: real)
    requires k < |arrivals| && Parsed(arrivals, k).Fine? && Parsed(arrivals, k + 1).Fine?
    requires Parsed(arrivals, k).state.buffer != []
    requires Parsed(arrivals, k + 1).frames == Parsed(arrivals, k).frames
    ensures Parsed(arrivals, k + 1).state.buffer != []
    ensures DeadlineAt(arrivals, k + 1, timeout) == DeadlineAt(arrivals, k, timeout)
  {
    hide Feed, Flatten, Wires;
    ParsedStep(arrivals, k);
    BytesGrow(arrivals, k);
    BytesAreConserved(FRESH, Bytes(arrivals, k));
    CompletionRestarts(Parsed(arrivals, k).state, arrivals[k].data);
  }

  /** A partial frame that began in the newest chunk gets its deadline from that chunk. */
  lemma DeadlineIsRenewed(arrivals: seq<Arrival>, k: nat, timeout: real)
    requires k < |arrivals| && Parsed(arrivals, k).Fine? && Parsed(arrivals, k + 1).Fine?
    requires Parsed(arrivals, k + 1).state.buffer != []
    requires Parsed(arrivals, k).state.buffer == [] || Parsed(arrivals, k + 1).frames != Parsed(arrivals, k).frames
    ensures DeadlineAt(arrivals, k + 1, timeout) == Some(arrivals[k].time + timeout)
  {
    hide Feed, Flatten, Wires;
    ParsedStep(arrivals, k);
    BytesGrow(arrivals, k);
    BytesAreConserved(FRESH, Bytes(arrivals, k + 1));
    CompletionRestarts(Parsed(arrivals, k).state, arrivals[k].data);
  }

  /**
   The reading loop. `deadlines[k]` is the deadline in force during the k-th read; the last
   read is the one that ended the stream, and every frame parsed before it was yielded.
   */
  method ReadStream(arrivals: seq<Arrival>, closedAt: real, closeReady: bool, timeout: real)
    returns (frames: seq<Frame>, deadlines: seq<Option<real>>, end: StreamEnd)
    ensures 1 <= |deadlines| <= |arrivals| + 1
    ensures forall k :: 0 <= k < |deadlines| ==>
              Parsed(arrivals, k).Fine? && deadlines[k] == DeadlineAt(arrivals, k, timeout)
    ensures forall k :: 0 <= k < |deadlines| - 1 ==> !Late(deadlines[k], arrivals[k].time, arrivals[k].ready)
    ensures Parsed(arrivals, |deadlines| - 1).Fine? && frames == Parsed(arrivals, |deadlines| - 1).frames
    ensures var m := |deadlines| - 1;
            var late := if m < |arrivals| then Late(deadlines[m], arrivals[m].time, arrivals[m].ready)
                        else Late(deadlines[m], closedAt, closeReady);
            && (late <==> end == TimedOut)
            && (end == BadStream <==> !late && m < |arrivals|)
            && (end == BadStream ==> Parsed(arrivals, m + 1).Raised?)
            && (end == Ended <==> !late && m == |arrivals| && Parsed(arrivals, m).state.buffer == [])
  {
    hide Feed, FeedByte, DeadlineAt, InTime, Parsed;
    var parser := new Parser();
    var deadline: Option<real> := None;
    frames, deadlines := [], [];
    NothingParsed(arrivals, timeout);
    for k := 0 to |arrivals|
      invariant InTime(arrivals, deadlines, k, timeout)
      invariant Parsed(arrivals, k) == Fine(frames, parser.State())
      invariant deadline == DeadlineAt(arrivals, k, timeout)
    {
      NextRead(arrivals, deadlines, k, deadline, timeout);
      deadlines := deadlines + [deadline];
      if deadline.Some? && deadline.value <= arrivals[k].time && !arrivals[k].ready {
        return frames, deadlines, TimedOut;
      }
      ParsedStep(arrivals, k);
      AfterFeed(arrivals, k, timeout, frames, parser.State());
      var fed := parser.FeedChunk(arrivals[k].data);
      if fed.Failure? {
        return frames, deadlines, BadStream;
      }
      if !parser.Pending() {
        deadline := None;
      } else if deadline == None || fed.value != [] {
        deadline := Some(arrivals[k].time + timeout);
      }
      frames := frames + fed.value;
    }
    NextRead(arrivals, deadlines, |arrivals|, deadline, timeout);
    deadlines := deadlines + [deadline];
    if deadline.Some? && deadline.value <= closedAt && !closeReady {
      end := TimedOut;
    } else {
      var ok := parser.Finish();
      end := if ok then Ended else EndedInsideFrame;
    }
  }

  /** The first `k` reads had the right deadline and were not cut off. */
  ghost predicate InTime(arrivals: seq<Arrival>, deadlines: seq<Option<real>>, k: nat, timeout: real) {
    && |deadlines| == k <= |arrivals|
    && forall i :: 0 <= i < k ==>
         && Parsed(arrivals, i).Fine? && deadlines[i] == DeadlineAt(arrivals, i, timeout)
         && !Late(deadlines[i], arrivals[i].time, arrivals[i].ready)
  }

  /** One more read: its deadline is right as well, and it may be in time. */
  lemma NextRead(arrivals: seq<Arrival>, deadlines: seq<Option<real>>, k: nat, deadline: Option<real>, timeout: real)
    requires InTime(arrivals, deadlines, k, timeout) && Parsed(arrivals, k).Fine?
    requires deadline == DeadlineAt(arrivals, k, timeout)
    ensures var more := deadlines + [deadline];
            && |more| == k + 1
            && (forall i :: 0 <= i <= k ==> Parsed(arrivals, i).Fine? && more[i] == DeadlineAt(arrivals, i, timeout))
            && (forall i :: 0 <= i < k ==> !Late(more[i], arrivals[i].time, arrivals[i].ready))
            && (k < |arrivals| && !Late(deadline, arrivals[k].time, arrivals[k].ready) ==>
                  InTime(arrivals, more, k + 1, timeout))
  {
    hide DeadlineAt, Late, Parsed;
  }

  /** What feeding the chunk just read does to the frames and to the deadline. */
  lemma AfterFeed(arrivals: seq<Arrival>, k: nat, timeout: real, frames: seq<Frame>, st: ParserState)
    requires k < |arrivals| && Parsed(arrivals, k) == Fine(frames, st)
    ensures match Feed(st, arrivals[k].data)
            case Fine(more, next) =>
              && Parsed(arrivals, k + 1) == Fine(frames + more, next)
              && DeadlineAt(arrivals, k + 1, timeout) ==
                   if next.buffer == [] then None
                   else if DeadlineAt(arrivals, k, timeout) == None || more != [] then Some(arrivals[k].time + timeout)
                   else DeadlineAt(arrivals, k, timeout)
            case Raised(_, _, _) => Parsed(arrivals, k + 1).Raised?
  {
    hide Feed, DeadlineAt;
    ParsedStep(arrivals, k);
    if Parsed(arrivals, k + 1).Fine? {
      AfterChunk(arrivals, k, timeout);
    }
  }

  lemma NothingParsed(arrivals: seq<Arrival>, timeout: real)
    ensures Parsed(arrivals, 0) == Fine([], FRESH) && DeadlineAt(arrivals, 0, timeout) == None
    ensures InTime(arrivals, [], 0, timeout)
  {
  }

  /** How one chunk moves the deadline, in the order of the program's tests. */
  lemma AfterChunk(arrivals: seq<Arrival>, k: nat, timeout: real)
    requires k < |arrivals| && Parsed(arrivals, k).Fine? && Parsed(arrivals, k + 1).Fine?
    ensures DeadlineAt(arrivals, k + 1, timeout) ==
              if Parsed(arrivals, k + 1).state.buffer == [] then None
              else if DeadlineAt(arrivals, k, timeout) == None || Parsed(arrivals, k + 1).frames != Parsed(arrivals, k).frames
              then Some(arrivals[k].time + timeout)
              else DeadlineAt(arrivals, k, timeout)
  {
    hide Feed;
    if Parsed(arrivals, k + 1).state.buffer != [] {
      if Parsed(arrivals, k).state.buffer == [] || Parsed(arrivals, k + 1).frames != Parsed(arrivals, k).frames {
        DeadlineIsRenewed(arrivals, k, timeout);
      } else {
        DeadlineIsNotExtended(arrivals, k, timeout);
      }
    }
  }
}
