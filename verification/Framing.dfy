/**
 Length-prefixed framing: four big-endian length bytes, then that many payload bytes.
 The incremental decoder is specified by a recursive parser over the whole byte stream.
 */
module Framing {
  import opened Results

  newtype Byte = b: int | 0 <= b < 256

  type Payload = seq<Byte>

  const HEADER_LENGTH := 4
  const MAX_UINT32 := 0xffff_ffff
  const BLOCK_SIZE := 64 * 1024
  const DEFAULT_MAX_FRAME_LENGTH := 16 * 1024 * 1024

  datatype FrameError =
    | LimitOutOfRange
    | PayloadTooLong
    | IncompletePrefix
    | WrongLength
    | ExceedsLimit(length: nat, limit: nat)
    | Truncated
    | DecoderEnded
    | DecoderFailed

  function ResolveMaxFrameLength(limit: Option<nat>): Result<nat, FrameError> {
    var value := if limit.Some? then limit.value else DEFAULT_MAX_FRAME_LENGTH;
    if value > MAX_UINT32 then Err(LimitOutOfRange) else Ok(value)
  }

  // ----- the length prefix -----

  /** The `width` low base-256 digits of `n`, most significant first. */
  function BigEndian(n: nat, width: nat): (h: seq<Byte>)
    ensures |h| == width
  {
    if width == 0 then [] else BigEndian(n / 0x100, width - 1) + [(n % 0x100) as Byte]
  }

  function FrameLength(header: seq<Byte>): nat
    requires |header| == HEADER_LENGTH
  {
    (header[0] as int) * 0x100_0000 + (header[1] as int) * 0x1_0000 + (header[2] as int) * 0x100 + header[3] as int
  }

  lemma BigEndianDigits(n: nat)
    ensures BigEndian(n, 4) == [(n / 0x100_0000 % 0x100) as Byte, (n / 0x1_0000 % 0x100) as Byte,
                                (n / 0x100 % 0x100) as Byte, (n % 0x100) as Byte]
  {
    var q1, q2, q3 := n / 0x100, n / 0x1_0000, n / 0x100_0000;
    assert q2 == q1 / 0x100 && q3 == q2 / 0x100;
    assert BigEndian(q3, 1) == BigEndian(q3 / 0x100, 0) + [(q3 % 0x100) as Byte];
    assert BigEndian(q2, 2) == BigEndian(q3, 1) + [(q2 % 0x100) as Byte];
    assert BigEndian(q1, 3) == BigEndian(q2, 2) + [(q1 % 0x100) as Byte];
  }

  lemma LengthRoundTrip(n: nat)
    requires n <= MAX_UINT32
    ensures FrameLength(BigEndian(n, HEADER_LENGTH)) == n
  {
    BigEndianDigits(n);
    var q1, q2 := n / 0x100, n / 0x1_0000;
    assert q2 == q1 / 0x100 && n / 0x100_0000 == q2 / 0x100;
  }

  lemma HeaderRoundTrip(header: seq<Byte>)
    requires |header| == HEADER_LENGTH
    ensures FrameLength(header) <= MAX_UINT32
    ensures BigEndian(FrameLength(header), HEADER_LENGTH) == header
  {
    var a, b, c, d := header[0] as int, header[1] as int, header[2] as int, header[3] as int;
    var q3, q2, q1, n := a, a * 0x100 + b, (a * 0x100 + b) * 0x100 + c, ((a * 0x100 + b) * 0x100 + c) * 0x100 + d;
    assert n == FrameLength(header);
    LowDigit(q1, d);
    LowDigit(q2, c);
    LowDigit(q3, b);
    LowDigit(0, a);
    DigitsFrom(n, q1, q2, q3);
    BigEndianDigits(n);
  }

  lemma LowDigit(q: nat, d: nat)
    requires d < 0x100
    ensures (q * 0x100 + d) / 0x100 == q && (q * 0x100 + d) % 0x100 == d
  {
  }

  lemma DigitsFrom(n: nat, q1: nat, q2: nat, q3: nat)
    requires n / 0x100 == q1 && q1 / 0x100 == q2 && q2 / 0x100 == q3
    ensures n / 0x1_0000 == q2 && n / 0x100_0000 == q3
  {
  }

  function FrameBytes(payload: Payload): seq<Byte> {
    BigEndian(|payload|, HEADER_LENGTH) + payload
  }

  function EncodeFrame(payload: Payload): Result<seq<Byte>, FrameError> {
    if |payload| > MAX_UINT32 then Err(PayloadTooLong) else Ok(FrameBytes(payload))
  }

  predicate WithinLimit(limit: nat, payloads: seq<Payload>) {
    forall i | 0 <= i < |payloads| :: |payloads[i]| <= limit
  }

  /** The concatenated frames of a list of payloads. */
  function EncodeAll(payloads: seq<Payload>): seq<Byte> {
    if payloads == [] then [] else FrameBytes(payloads[0]) + EncodeAll(payloads[1..])
  }

  function AssertCompleteFrame(frame: seq<Byte>, limit: Option<nat>): Result<(), FrameError> {
    if |frame| < HEADER_LENGTH then Err(IncompletePrefix)
    else
      var length := FrameLength(frame[..HEADER_LENGTH]);
      match ResolveMaxFrameLength(limit)
      case Err(e) => Err(e)
      case Ok(max) =>
        if length > max then Err(ExceedsLimit(length, max))
        else if |frame| != HEADER_LENGTH + length then Err(WrongLength)
        else Ok(())
  }

  /** Exactly the encodings of a payload within a valid limit are accepted. */
  lemma CompleteFrameIff(frame: seq<Byte>, limit: Option<nat>)
    ensures AssertCompleteFrame(frame, limit).Ok? <==>
            && ResolveMaxFrameLength(limit).Ok?
            && exists payload: Payload ::
                 |payload| <= ResolveMaxFrameLength(limit).value && EncodeFrame(payload) == Ok(frame)
  {
    if AssertCompleteFrame(frame, limit).Ok? {
      var header, payload := frame[..HEADER_LENGTH], frame[HEADER_LENGTH..];
      HeaderRoundTrip(header);
      assert frame == header + payload;
      assert EncodeFrame(payload) == Ok(frame);
    }
    if ResolveMaxFrameLength(limit).Ok? {
      forall payload: Payload
        | |payload| <= ResolveMaxFrameLength(limit).value && EncodeFrame(payload) == Ok(frame)
        ensures AssertCompleteFrame(frame, limit).Ok?
      {
        assert frame[..HEADER_LENGTH] == BigEndian(|payload|, HEADER_LENGTH);
        LengthRoundTrip(|payload|);
      }
    }
  }

  // ----- the whole-stream parser -----

  /** What a byte stream holds: its complete frames, the unconsumed rest, and whether
      the rest starts with a header above the limit. */
  datatype Parse = Parse(frames: seq<Payload>, rest: seq<Byte>, oversized: bool)

  /** How a stream begins: with too few bytes for a frame, with a header above the limit, or
      with one complete frame and a tail. */
  datatype Head = Incomplete | Oversized | Complete(payload: Payload, tail: seq<Byte>)

  function HeadOf(limit: nat, s: seq<Byte>): (h: Head)
    ensures h.Complete? ==> |s| == HEADER_LENGTH + |h.payload| + |h.tail|
  {
    if |s| < HEADER_LENGTH then Incomplete
    else
      var n := FrameLength(s[..HEADER_LENGTH]);
      if n > limit then Oversized
      else if |s| < HEADER_LENGTH + n then Incomplete
      else Complete(s[HEADER_LENGTH..HEADER_LENGTH + n], s[HEADER_LENGTH + n..])
  }

  function ParseStream(limit: nat, s: seq<Byte>): (p: Parse)
    ensures p.oversized ==> |p.rest| >= HEADER_LENGTH && FrameLength(p.rest[..HEADER_LENGTH]) > limit
    decreases |s|
  {
    match HeadOf(limit, s)
    case Incomplete => Parse([], s, false)
    case Oversized => Parse([], s, true)
    case Complete(payload, tail) =>
      var p := ParseStream(limit, tail);
      Parse([payload] + p.frames, p.rest, p.oversized)
  }

  lemma HeadAppend(limit: nat, a: seq<Byte>, b: seq<Byte>)
    requires !HeadOf(limit, a).Incomplete?
    ensures HeadOf(limit, a + b) ==
            match HeadOf(limit, a)
            case Complete(payload, tail) => Complete(payload, tail + b)
            case _ => Oversized
  {
    var s := a + b;
    assert s[..HEADER_LENGTH] == a[..HEADER_LENGTH];
    if HeadOf(limit, a).Complete? {
      var k := HEADER_LENGTH + FrameLength(a[..HEADER_LENGTH]);
      assert s[HEADER_LENGTH..k] == a[HEADER_LENGTH..k];
      assert s[k..] == a[k..] + b;
    }
  }

  lemma HeadOfFrame(limit: nat, payload: Payload, tail: seq<Byte>)
    requires |payload| <= limit <= MAX_UINT32
    ensures HeadOf(limit, FrameBytes(payload) + tail) == Complete(payload, tail)
  {
    var header := BigEndian(|payload|, HEADER_LENGTH);
    LengthRoundTrip(|payload|);
    var s, k := header + payload + tail, HEADER_LENGTH + |payload|;
    assert s[..HEADER_LENGTH] == header;
    assert s[HEADER_LENGTH..k] == payload;
    assert s[k..] == tail;
  }

  /** A complete head is the encoding of the payload it carries. */
  lemma HeadIsFrame(limit: nat, s: seq<Byte>)
    requires limit <= MAX_UINT32
    requires HeadOf(limit, s).Complete?
    ensures var h := HeadOf(limit, s);
            |h.payload| <= limit && s == FrameBytes(h.payload) + h.tail
  {
    HeaderRoundTrip(s[..HEADER_LENGTH]);
  }

  /** Parsing may stop anywhere and resume from what was left over. */
  lemma {:induction false} ParseAppend(limit: nat, a: seq<Byte>, b: seq<Byte>)
    ensures var p := ParseStream(limit, a);
            var whole := ParseStream(limit, a + b);
            if p.oversized then
              whole == Parse(p.frames, p.rest + b, true)
            else
              var q := ParseStream(limit, p.rest + b);
              whole == Parse(p.frames + q.frames, q.rest, q.oversized)
    decreases |a|
  {
    match HeadOf(limit, a)
    case Incomplete =>
    case Oversized => HeadAppend(limit, a, b);
    case Complete(payload, tail) =>
      HeadAppend(limit, a, b);
      ParseAppend(limit, tail, b);
      var p := ParseStream(limit, tail);
      ConcatAssoc([payload], p.frames, ParseStream(limit, p.rest + b).frames);
  }

  /** Soundness: re-encoding the frames and appending the rest gives the stream back, and the
      rest holds no complete frame. */
  lemma {:induction false} ParseSound(limit: nat, s: seq<Byte>)
    requires limit <= MAX_UINT32
    ensures var p := ParseStream(limit, s);
            && WithinLimit(limit, p.frames)
            && s == EncodeAll(p.frames) + p.rest
            && HeadOf(limit, p.rest) == (if p.oversized then Oversized else Incomplete)
    decreases |s|
  {
    match HeadOf(limit, s)
    case Incomplete =>
    case Oversized =>
    case Complete(payload, tail) =>
      ParseSound(limit, tail);
      HeadIsFrame(limit, s);
      var p := ParseStream(limit, tail);
      EncodeCons(payload, p.frames);
      ConcatAssoc(FrameBytes(payload), EncodeAll(p.frames), p.rest);
  }

  lemma EncodeCons(payload: Payload, payloads: seq<Payload>)
    ensures EncodeAll([payload] + payloads) == FrameBytes(payload) + EncodeAll(payloads)
  {
    assert ([payload] + payloads)[1..] == payloads;
  }

  /** Completeness: encoded frames in front of any bytes are all found, in order. */
  lemma {:induction false} ParseEncoded(limit: nat, payloads: seq<Payload>, more: seq<Byte>)
    requires limit <= MAX_UINT32
    requires WithinLimit(limit, payloads)
    ensures var p := ParseStream(limit, more);
            ParseStream(limit, EncodeAll(payloads) + more) == Parse(payloads + p.frames, p.rest, p.oversized)
  {
    if payloads == [] {
      assert EncodeAll(payloads) + more == more;
    } else {
      var head, others := payloads[0], payloads[1..];
      assert payloads == [head] + others;
      ParseEncoded(limit, others, more);
      HeadOfFrame(limit, head, EncodeAll(others) + more);
      ConcatAssoc(FrameBytes(head), EncodeAll(others), more);
      ConcatAssoc([head], others, ParseStream(limit, more).frames);
    }
  }

  /** The frames are a prefix that only grows as more bytes arrive, and an oversized header stays one. */
  lemma ParseMonotone(limit: nat, a: seq<Byte>, b: seq<Byte>)
    ensures ParseStream(limit, a).frames <= ParseStream(limit, a + b).frames
    ensures ParseStream(limit, a).oversized ==> ParseStream(limit, a + b).oversized
  {
    ParseAppend(limit, a, b);
  }
}
