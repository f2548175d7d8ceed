/** The length-prefixed frames both sides write to their pipe: a four-byte big-endian size and that
    many bytes of payload. The host reads them from chunks of any size, the peer with exact reads. */
module FrameCodec {
  import opened Wrappers
  import opened Bytes

  type Payload = seq<Byte>

  const FRAME_BYTES: nat := 1_048_576

  // ---- The wire ----

  function Header(size: nat): seq<Byte>
    requires size <= FRAME_BYTES
  {
    [(size / 0x100_0000) as Byte, (size / 0x1_0000 % 256) as Byte, (size / 256 % 256) as Byte, (size % 256) as Byte]
  }

  function Size(header: seq<Byte>): nat
    requires 4 <= |header|
  {
    header[0] as int * 0x100_0000 + header[1] as int * 0x1_0000 + header[2] as int * 256 + header[3] as int
  }

  predicate Sendable(payload: Payload) {
    1 <= |payload| <= FRAME_BYTES
  }

  function Frame(payload: Payload): seq<Byte>
    requires Sendable(payload)
  {
    Header(|payload|) + payload
  }

  function Wire(payloads: seq<Payload>): seq<Byte>
    requires forall p <- payloads :: Sendable(p)
  {
    if payloads == [] then [] else Frame(payloads[0]) + Wire(payloads[1..])
  }

  method EncodeHarborFrame(payload: Payload) returns (wire: Option<seq<Byte>>)
    ensures wire.Some? <==> 1 <= |payload| <= 1_048_576
    ensures wire.Some? ==> wire.value == Wire([payload])
    ensures wire.Some? ==>
              var w := wire.value;
              && 5 <= |w| && w[4..] == payload
              && w[0] as int * 0x100_0000 + w[1] as int * 0x1_0000 + w[2] as int * 256 + w[3] as int == |payload|
  {
    if |payload| < 1 || |payload| > FRAME_BYTES {
      return None;
    }
    HeaderSize(|payload|);
    return Some(Frame(payload));
  }

  lemma HeaderSize(size: nat)
    requires size <= FRAME_BYTES
    ensures Size(Header(size)) == size
  {
  }

  // ---- What a stream of bytes means to the host ----

  datatype Verdict = Continue | Malformed | Terminal

  /** How the host answers a payload, given all payloads it took before: it goes on, it finds that the
      bytes are not a JSON text, or handling the frame ends the session. */
  type Receiver = seq<Payload> -> Verdict

  datatype Ending =
    | InvalidFrameLength
    | MalformedFrame
    | FrameBufferOverflow
    | TruncatedFrame
    | UnexpectedEof
    | Stopped

  datatype Reading = Reading(taken: seq<Payload>, ending: Ending)

  /** The first four bytes give an acceptable length, and that many bytes follow. */
  predicate Ready(wire: seq<Byte>) {
    4 <= |wire| && 1 <= Size(wire) <= FRAME_BYTES && Size(wire) + 4 <= |wire|
  }

  predicate Refused(wire: seq<Byte>) {
    4 <= |wire| && !(1 <= Size(wire) <= FRAME_BYTES)
  }

  function Decode(wire: seq<Byte>, taken: seq<Payload>, receiver: Receiver): Reading
    decreases |wire|
  {
    if Refused(wire) then
      Reading(taken, InvalidFrameLength)
    else if Ready(wire) then
      var payload := wire[4..Size(wire) + 4];
      match receiver(taken + [payload])
      case Malformed => Reading(taken, MalformedFrame)
      case Terminal => Reading(taken + [payload], Stopped)
      case Continue => Decode(wire[Size(wire) + 4..], taken + [payload], receiver)
    else
      Reading(taken, if wire == [] then UnexpectedEof else TruncatedFrame)
  }

  function Concat(chunks: seq<seq<Byte>>): seq<Byte> {
    if chunks == [] then [] else chunks[0] + Concat(chunks[1..])
  }

  lemma ConcatNext(chunks: seq<seq<Byte>>, i: nat, buffered: seq<Byte>)
    requires i < |chunks|
    ensures buffered + Concat(chunks[i..]) == (buffered + chunks[i]) + Concat(chunks[i + 1..])
  {
    assert chunks[i..][1..] == chunks[i + 1..];
  }

  /** Reading a ready frame does not depend on what follows it. */
  lemma DecodeAhead(buffered: seq<Byte>, rest: seq<Byte>, taken: seq<Payload>, receiver: Receiver)
    requires Ready(buffered)
    ensures var payload := buffered[4..Size(buffered) + 4];
            Decode(buffered + rest, taken, receiver) ==
            match receiver(taken + [payload])
            case Malformed => Reading(taken, MalformedFrame)
            case Terminal => Reading(taken + [payload], Stopped)
            case Continue => Decode(buffered[Size(buffered) + 4..] + rest, taken + [payload], receiver)
  {
    var wire := buffered + rest;
    var end := Size(buffered) + 4;
    assert Size(wire) == Size(buffered);
    assert wire[4..end] == buffered[4..end];
    assert wire[end..] == buffered[end..] + rest;
  }

  /** Take all whole frames off the front of the buffer; `end` tells that reading stopped. Either way
      what the remaining bytes will mean does not change, whatever they are. */
  method TakeFrames(bytes: seq<Byte>, before: seq<Payload>, receiver: Receiver, ghost rest: seq<Byte>)
    returns (buffered: seq<Byte>, taken: seq<Payload>, end: Option<Reading>)
    ensures end.Some? ==> end.value == Decode(bytes + rest, before, receiver)
    ensures end.None? ==> Decode(buffered + rest, taken, receiver) == Decode(bytes + rest, before, receiver)
    ensures end.None? ==> !Refused(buffered) && !Ready(buffered)
  {
    buffered, taken, end := bytes, before, None;
    while true
      invariant Decode(buffered + rest, taken, receiver) == Decode(bytes + rest, before, receiver)
      decreases |buffered|
    {
      if |buffered| < 4 {
        return;
      }
      var length := Size(buffered);
      if length < 1 || length > FRAME_BYTES {
        assert Size(buffered + rest) == length;
        return buffered, taken, Some(Reading(taken, InvalidFrameLength));
      }
      if |buffered| < length + 4 {
        return;
      }
      DecodeAhead(buffered, rest, taken, receiver);
      var payload := buffered[4..length + 4];
      buffered := buffered[length + 4..];
      var verdict := receiver(taken + [payload]);
      if verdict == Malformed {
        return buffered, taken, Some(Reading(taken, MalformedFrame));
      }
      taken := taken + [payload];
      if verdict == Terminal {
        return buffered, taken, Some(Reading(taken, Stopped));
      }
    }
  }

  /** The host's incremental reader. Whatever the chunks, it takes the frames and ends the way their
      concatenation says, so it is independent of chunking; it never reports an overflow. */
  method ReadLoop(chunks: seq<seq<Byte>>, receiver: Receiver) returns (reading: Reading)
    ensures reading == Decode(Concat(chunks), [], receiver)
    ensures reading.ending != FrameBufferOverflow
  {
    var taken: seq<Payload> := [];
    var buffered: seq<Byte> := [];
    var overflow := false;
    DecodeEnds(Concat(chunks), [], receiver);
    assert chunks[0..] == chunks && buffered + Concat(chunks) == Concat(chunks);
    for i := 0 to |chunks|
      invariant !Refused(buffered) && !Ready(buffered) && !overflow
      invariant Decode(Concat(chunks), [], receiver) == Decode(buffered + Concat(chunks[i..]), taken, receiver)
    {
      ConcatNext(chunks, i, buffered);
      if |chunks[i]| == 0 {
        assert buffered + chunks[i] == buffered;
        continue;
      }
      ghost var joined := buffered + chunks[i];
      buffered := if |buffered| > 0 then buffered + chunks[i] else chunks[i];
      assert buffered == joined;
      var end;
      buffered, taken, end := TakeFrames(buffered, taken, receiver, Concat(chunks[i + 1..]));
      if end.Some? {
        return end.value;
      }
      overflow := |buffered| > FRAME_BYTES + 4;
      if overflow {
        break;
      }
    }
    if overflow {
      return Reading(taken, FrameBufferOverflow);
    }
    assert buffered + [] == buffered;
    return Reading(taken, if |buffered| > 0 then TruncatedFrame else UnexpectedEof);
  }

  lemma {:induction false} DecodeEnds(wire: seq<Byte>, taken: seq<Payload>, receiver: Receiver)
    ensures Decode(wire, taken, receiver).ending != FrameBufferOverflow
    decreases |wire|
  {
    if Ready(wire) && receiver(taken + [wire[4..Size(wire) + 4]]).Continue? {
      DecodeEnds(wire[Size(wire) + 4..], taken + [wire[4..Size(wire) + 4]], receiver);
    }
  }

  // ---- Round trips ----

  lemma FrameIsReady(payload: Payload, rest: seq<Byte>)
    requires Sendable(payload)
    ensures var wire := Frame(payload) + rest;
            Ready(wire) && Size(wire) == |payload| && wire[4..|payload| + 4] == payload && wire[|payload| + 4..] == rest
  {
    HeaderSize(|payload|);
    var wire := Frame(payload) + rest;
    assert wire[..4] == Header(|payload|);
    assert Size(wire) == Size(Header(|payload|));
  }

  predicate GoesOn(receiver: Receiver, taken: seq<Payload>, payloads: seq<Payload>) {
    forall k | |taken| < k <= |taken + payloads| :: receiver((taken + payloads)[..k]) == Continue
  }

  /** Encode and decode are a round trip for every list of frames, whatever bytes come after it. */
  lemma {:induction false} DecodeWire(payloads: seq<Payload>, rest: seq<Byte>, taken: seq<Payload>, receiver: Receiver)
    requires forall p <- payloads :: Sendable(p)
    requires GoesOn(receiver, taken, payloads)
    ensures Decode(Wire(payloads) + rest, taken, receiver) == Decode(rest, taken + payloads, receiver)
  {
    if payloads == [] {
      assert Wire(payloads) + rest == rest;
      assert taken + payloads == taken;
    } else {
      var tail := Wire(payloads[1..]) + rest;
      assert Wire(payloads) + rest == Frame(payloads[0]) + tail;
      FrameIsReady(payloads[0], tail);
      assert taken + payloads == (taken + [payloads[0]]) + payloads[1..];
      assert receiver((taken + payloads)[..|taken| + 1]) == Continue;
      assert (taken + payloads)[..|taken| + 1] == taken + [payloads[0]];
      DecodeWire(payloads[1..], rest, taken + [payloads[0]], receiver);
    }
  }

  lemma WireRoundTrip(payloads: seq<Payload>, receiver: Receiver)
    requires forall p <- payloads :: Sendable(p)
    requires GoesOn(receiver, [], payloads)
    ensures Decode(Wire(payloads), [], receiver) == Reading(payloads, UnexpectedEof)
  {
    DecodeWire(payloads, [], [], receiver);
    assert Wire(payloads) + [] == Wire(payloads);
    assert [] + payloads == payloads;
  }

  /** How the bytes not taken explain the ending. */
  predicate Explains(ending: Ending, rest: seq<Byte>) {
    match ending
    case UnexpectedEof => rest == []
    case TruncatedFrame => rest != [] && !Ready(rest) && !Refused(rest)
    case InvalidFrameLength => Refused(rest)
    case MalformedFrame => Ready(rest)
    case Stopped => true
    case FrameBufferOverflow => false
  }

  predicate Accounted(wire: seq<Byte>, taken: seq<Payload>, reading: Reading) {
    && taken <= reading.taken
    && var more := reading.taken[|taken|..];
       && (forall p <- more :: Sendable(p))
       && Wire(more) <= wire
       && Explains(reading.ending, wire[|Wire(more)|..])
  }

  /** The converse: the bytes start with the encoding of exactly the frames taken, so no byte is lost,
      repeated or moved between frames; a stream that only ran dry holds no further whole frame. */
  lemma {:induction false} TakenIsWhatWasSent(wire: seq<Byte>, taken: seq<Payload>, receiver: Receiver)
    ensures Accounted(wire, taken, Decode(wire, taken, receiver))
    decreases |wire|
  {
    var r := Decode(wire, taken, receiver);
    if Ready(wire) && !receiver(taken + [wire[4..Size(wire) + 4]]).Malformed? {
      var rest := wire[Size(wire) + 4..];
      var payload := wire[4..Size(wire) + 4];
      if receiver(taken + [payload]).Continue? {
        TakenIsWhatWasSent(rest, taken + [payload], receiver);
      } else {
        assert r.taken[|taken + [payload]|..] == [];
      }
      OneMore(wire, taken, payload, rest, r);
    } else {
      assert r.taken[|taken|..] == [];
    }
  }

  lemma OneMore(wire: seq<Byte>, taken: seq<Payload>, payload: Payload, rest: seq<Byte>, r: Reading)
    requires Ready(wire) && payload == wire[4..Size(wire) + 4] && rest == wire[Size(wire) + 4..]
    requires Accounted(rest, taken + [payload], r)
    ensures Accounted(wire, taken, r)
  {
    var after := r.taken[|taken| + 1..];
    assert taken + [payload] <= r.taken;
    assert r.taken[|taken|] == (taken + [payload])[|taken|];
    assert r.taken[|taken|..] == [payload] + after;
    SizeHeader(wire);
    assert wire == Frame(payload) + rest;
    assert Wire([payload] + after) == Frame(payload) + Wire(after);
    assert wire[|Frame(payload) + Wire(after)|..] == rest[|Wire(after)|..];
  }

  lemma SizeHeader(wire: seq<Byte>)
    requires 4 <= |wire| && Size(wire) <= FRAME_BYTES
    ensures Header(Size(wire)) == wire[..4]
  {
    Digits(wire[0] as int, wire[1] as int, wire[2] as int, wire[3] as int);
  }

  lemma Digits(a: int, b: int, c: int, d: int)
    requires 0 <= a < 256 && 0 <= b < 256 && 0 <= c < 256 && 0 <= d < 256
    ensures var n := a * 0x100_0000 + b * 0x1_0000 + c * 256 + d;
            n / 0x100_0000 == a && n / 0x1_0000 % 256 == b && n / 256 % 256 == c && n % 256 == d
  {
    var n := a * 0x100_0000 + b * 0x1_0000 + c * 256 + d;
    assert n / 256 == a * 0x1_0000 + b * 256 + c;
    assert n / 0x1_0000 == a * 256 + b;
  }

  // ---- The peer's reader ----

  /** What the peer's strict UTF-8 and JSON parser makes of a payload. */
  datatype Parse = AnObject | AnotherValue | NotJson

  type Parser = Payload -> Parse

  /** Malformed JSON is either a frame cut short (`whole` is false) or a whole payload that is no JSON. */
  datatype PeerRead =
    | PeerFrame(payload: Payload, rest: seq<Byte>)
    | PeerEof
    | PeerFrameSize
    | PeerMalformedJson(whole: bool)
    | PeerMalformedFrame

  /** One exact read of a frame from the bytes that will ever arrive. */
  method ReadFrame(stream: seq<Byte>, parser: Parser) returns (read: PeerRead)
    ensures read == PeerReads(stream, parser)
  {
    if |stream| < 4 {
      return PeerEof;
    }
    var header, body := stream[..4], stream[4..];
    var size := Size(header);
    if size < 2 || size > FRAME_BYTES {
      return PeerFrameSize;
    }
    if |body| < size {
      return PeerMalformedJson(false);
    }
    assert body[..size] == stream[4..size + 4] && body[size..] == stream[size + 4..];
    match parser(body[..size]) {
      case NotJson => read := PeerMalformedJson(true);
      case AnotherValue => read := PeerMalformedFrame;
      case AnObject => read := PeerFrame(body[..size], body[size..]);
    }
  }

  function PeerReads(stream: seq<Byte>, parser: Parser): PeerRead {
    if |stream| < 4 then PeerEof
    else if Size(stream) == 1 || Refused(stream) then PeerFrameSize
    else if !Ready(stream) then PeerMalformedJson(false)
    else
      var payload := stream[4..Size(stream) + 4];
      match parser(payload)
      case NotJson => PeerMalformedJson(true)
      case AnotherValue => PeerMalformedFrame
      case AnObject => PeerFrame(payload, stream[Size(stream) + 4..])
  }

  /** All frames of a stream, by repeated exact reads. */
  function PeerReadsAll(stream: seq<Byte>, parser: Parser): (seq<Payload>, PeerRead)
    decreases |stream|
  {
    var read := PeerReads(stream, parser);
    if read.PeerFrame? then
      var (frames, ending) := PeerReadsAll(read.rest, parser);
      ([read.payload] + frames, ending)
    else ([], read)
  }

  /** The peer reads back what the host wrote if and only if every payload is a JSON object of more than
      one byte. */
  lemma {:induction false} PeerReadsWire(payloads: seq<Payload>, parser: Parser)
    requires forall p <- payloads :: Sendable(p)
    ensures PeerReadsAll(Wire(payloads), parser) == (payloads, PeerEof)
            <==> forall p <- payloads :: |p| != 1 && parser(p) == AnObject
  {
    if payloads != [] {
      assert payloads == [payloads[0]] + payloads[1..];
      FrameIsReady(payloads[0], Wire(payloads[1..]));
      PeerReadsWire(payloads[1..], parser);
    }
  }

  /** The peer stopped because the stream did, not because of what a frame holds. */
  predicate RanDry(ending: PeerRead) {
    ending.PeerEof? || (ending.PeerMalformedJson? && !ending.whole)
  }

  /** From the same bytes the host takes all the frames the peer takes, in the same order, as long as its
      receiver goes on; and if the stream ran dry for the peer it did for the host, at the same frame. */
  lemma {:induction false} ReadersAgree(stream: seq<Byte>, taken: seq<Payload>, receiver: Receiver, parser: Parser)
    requires GoesOn(receiver, taken, PeerReadsAll(stream, parser).0)
    ensures var (frames, ending) := PeerReadsAll(stream, parser);
            var host := Decode(stream, taken, receiver);
            && taken + frames <= host.taken
            && (RanDry(ending) ==> host.taken == taken + frames)
            && (ending.PeerEof? ==> host.ending.UnexpectedEof? || host.ending.TruncatedFrame?)
            && (ending == PeerMalformedJson(false) ==> host.ending.TruncatedFrame?)
    decreases |stream|
  {
    var read := PeerReads(stream, parser);
    if read.PeerFrame? {
      var frames := PeerReadsAll(read.rest, parser).0;
      assert taken + ([read.payload] + frames) == (taken + [read.payload]) + frames;
      assert receiver((taken + ([read.payload] + frames))[..|taken| + 1]) == Continue;
      assert (taken + ([read.payload] + frames))[..|taken| + 1] == taken + [read.payload];
      ReadersAgree(read.rest, taken + [read.payload], receiver, parser);
    } else {
      DecodeKeeps(stream, taken, receiver);
    }
  }

  lemma {:induction false} DecodeKeeps(wire: seq<Byte>, taken: seq<Payload>, receiver: Receiver)
    ensures taken <= Decode(wire, taken, receiver).taken
  {
    TakenIsWhatWasSent(wire, taken, receiver);
  }
}
