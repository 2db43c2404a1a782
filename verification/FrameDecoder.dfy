/**
 The incremental frame decoder: a mutable, block-buffered parser with sticky failure.
 Every push is proved against `Pushed`, a function of the bytes not yet consumed; the run
 theorems relate any sequence of pushes to the parse of the concatenated chunks.
 */
module FrameDecoding {
  import opened Results
  import opened Framing

  /** What a decoder is to its caller: the bytes it still holds, or one of two final states. */
  datatype View = Open(rest: seq<Byte>) | Ended | Failed

  type Frames = Result<seq<Payload>, FrameError>

  function Refusal(v: View): FrameError
    requires !v.Open?
  {
    if v.Ended? then DecoderEnded else DecoderFailed
  }

  function Pushed(limit: nat, v: View, chunk: seq<Byte>): (View, Frames) {
    if !v.Open? then (v, Err(Refusal(v)))
    else
      var p := ParseStream(limit, v.rest + chunk);
      if p.oversized then
        (Failed, Err(ExceedsLimit(FrameLength(p.rest[..HEADER_LENGTH]), limit)))
      else
        (Open(p.rest), Ok(p.frames))
  }

  function Closed(v: View): (View, Result<(), FrameError>) {
    if !v.Open? then (v, Err(Refusal(v)))
    else if v.rest != [] then (Failed, Err(Truncated))
    else (Ended, Ok(()))
  }

  // ----- whole runs -----

  /** The view and the results after pushing the chunks one by one. */
  function PushAll(limit: nat, v: View, chunks: seq<seq<Byte>>): (run: (View, seq<Frames>))
    ensures |run.1| == |chunks|
  {
    if chunks == [] then (v, [])
    else
      var before := PushAll(limit, v, chunks[..|chunks| - 1]);
      var last := Pushed(limit, before.0, chunks[|chunks| - 1]);
      (last.0, before.1 + [last.1])
  }

  /** The frames handed out by the successful pushes. */
  function Delivered(results: seq<Frames>): seq<Payload> {
    if results == [] then []
    else
      var last := results[|results| - 1];
      Delivered(results[..|results| - 1]) + if last.Ok? then last.value else []
  }

  /** A run refines the whole-stream parser: while the bytes so far hold no oversized header the
      decoder is open on exactly their remainder and has delivered exactly their frames; from the
      push that completes an oversized header on, it has failed. */
  lemma {:induction false} RunRefinesParser(limit: nat, chunks: seq<seq<Byte>>)
    ensures var p := ParseStream(limit, Flatten(chunks));
            var run := PushAll(limit, Open([]), chunks);
            run.0 == ViewOf(p) && (!p.oversized ==> Delivered(run.1) == p.frames)
  {
    if chunks != [] {
      var n := |chunks| - 1;
      var before, chunk := chunks[..n], chunks[n];
      RunRefinesParser(limit, before);
      var run := PushAll(limit, Open([]), before);
      var last := Pushed(limit, run.0, chunk);
      assert Flatten(chunks) == Flatten(before) + chunk by {
        assert chunks == before + [chunk];
        FlattenSnoc(before, chunk);
      }
      PushedAfter(limit, Flatten(before), chunk);
      DeliveredSnoc(run.1, last.1);
    }
  }

  /** What a decoder is after bytes that parse so. */
  function ViewOf(p: Parse): View {
    if p.oversized then Failed else Open(p.rest)
  }

  /** Pushing a chunk after some bytes takes the view those give to the view all give, hands out what the chunk
      adds, and fails exactly when there is an oversized header by then. */
  lemma PushedAfter(limit: nat, a: seq<Byte>, chunk: seq<Byte>)
    ensures var p, whole := ParseStream(limit, a), ParseStream(limit, a + chunk);
            var (v, r) := Pushed(limit, ViewOf(p), chunk);
            && v == ViewOf(whole)
            && (r.Ok? ==> whole.frames == p.frames + r.value)
            && (r.Err? <==> whole.oversized)
            && (r == Err(DecoderFailed) <==> p.oversized)
            && (r.Err? && r.error != DecoderFailed ==>
                r.error.ExceedsLimit? && r.error.limit == limit < r.error.length)
  {
    ParseAppend(limit, a, chunk);
  }

  lemma DeliveredSnoc(results: seq<Frames>, r: Frames)
    ensures Delivered(results + [r]) == Delivered(results) + if r.Ok? then r.value else []
  {
    assert (results + [r])[..|results|] == results;
  }

  /** The result of a push is what that push gave from where the earlier ones had left the view. */
  lemma {:induction false} PushAllAt(limit: nat, chunks: seq<seq<Byte>>, i: nat, k: nat)
    requires i < k <= |chunks|
    ensures PushAll(limit, Open([]), chunks[..k]).1[i]
         == Pushed(limit, PushAll(limit, Open([]), chunks[..i]).0, chunks[i]).1
    decreases k
  {
    assert chunks[..k][..k - 1] == chunks[..k - 1];
    if i < k - 1 {
      PushAllAt(limit, chunks, i, k - 1);
    }
  }

  /** Exactly the pushes from the one completing the first oversized header on fail: that one names
      the length, every later one reports the failed state. */
  lemma PushFailsIff(limit: nat, chunks: seq<seq<Byte>>, i: nat)
    requires i < |chunks|
    ensures var r := PushAll(limit, Open([]), chunks).1[i];
            var earlier, now := Flatten(chunks[..i]), Flatten(chunks[..i + 1]);
            && (r.Err? <==> ParseStream(limit, now).oversized)
            && (r == Err(DecoderFailed) <==> ParseStream(limit, earlier).oversized)
            && (r.Err? && r.error != DecoderFailed ==>
                r.error.ExceedsLimit? && r.error.limit == limit < r.error.length)
  {
    PushAllAt(limit, chunks, i, |chunks|);
    assert chunks[..|chunks|] == chunks;
    FlattenUpTo(chunks, i);
    RunRefinesParser(limit, chunks[..i]);
    PushedAfter(limit, Flatten(chunks[..i]), chunks[i]);
  }

  lemma FlattenUpTo(chunks: seq<seq<Byte>>, i: nat)
    requires i < |chunks|
    ensures Flatten(chunks[..i + 1]) == Flatten(chunks[..i]) + chunks[i]
  {
    assert chunks[..i + 1] == chunks[..i] + [chunks[i]];
    FlattenSnoc(chunks[..i], chunks[i]);
  }

  /** However the encodings of some payloads are cut into chunks, exactly those payloads come out
      and the decoder may end. */
  lemma DecodingInvertsEncoding(limit: nat, payloads: seq<Payload>, chunks: seq<seq<Byte>>)
    requires limit <= MAX_UINT32 && WithinLimit(limit, payloads)
    requires Flatten(chunks) == EncodeAll(payloads)
    ensures var run := PushAll(limit, Open([]), chunks);
            && Delivered(run.1) == payloads
            && (forall i | 0 <= i < |run.1| :: run.1[i].Ok?)
            && Closed(run.0) == (Ended, Ok(()))
  {
    ParseEncoded(limit, payloads, []);
    assert EncodeAll(payloads) + [] == EncodeAll(payloads);
    assert payloads + [] == payloads;
    RunRefinesParser(limit, chunks);
    var results := PushAll(limit, Open([]), chunks).1;
    forall i | 0 <= i < |results|
      ensures results[i].Ok?
    {
      NothingFails(limit, chunks, i);
    }
  }

  lemma NothingFails(limit: nat, chunks: seq<seq<Byte>>, i: nat)
    requires i < |chunks| && !ParseStream(limit, Flatten(chunks)).oversized
    ensures PushAll(limit, Open([]), chunks).1[i].Ok?
  {
    var now, later := Flatten(chunks[..i + 1]), Flatten(chunks[i + 1..]);
    assert now + later == Flatten(chunks) by {
      assert chunks[..i + 1] + chunks[i + 1..] == chunks;
      FlattenAppend(chunks[..i + 1], chunks[i + 1..]);
    }
    ParseMonotone(limit, now, later);
    PushFailsIff(limit, chunks, i);
  }

  /** `end` succeeds exactly when the bytes pushed are whole frames within the limit. */
  lemma EndSucceedsIff(limit: nat, chunks: seq<seq<Byte>>)
    requires limit <= MAX_UINT32
    ensures Closed(PushAll(limit, Open([]), chunks).0).1.Ok? <==>
            exists payloads :: WithinLimit(limit, payloads) && Flatten(chunks) == EncodeAll(payloads)
  {
    RunRefinesParser(limit, chunks);
    var s := Flatten(chunks);
    ParseSound(limit, s);
    var p := ParseStream(limit, s);
    if Closed(PushAll(limit, Open([]), chunks).0).1.Ok? {
      assert EncodeAll(p.frames) + [] == EncodeAll(p.frames);
    }
    forall payloads | WithinLimit(limit, payloads) && s == EncodeAll(payloads)
      ensures p.rest == [] && !p.oversized
    {
      ParseEncoded(limit, payloads, []);
      assert EncodeAll(payloads) + [] == EncodeAll(payloads);
    }
  }

  // ----- the decoder -----

  datatype DecoderState = StateOpen | StateEnded | StateFailed

  /** Every block but the last is full, the last is not empty, and together they hold `length` bytes. */
  predicate BlocksHold(blocks: seq<seq<Byte>>, length: nat) {
    && (forall i | 0 <= i < |blocks| - 1 :: |blocks[i]| == BLOCK_SIZE)
    && (if blocks == [] then length == 0
        else
          var last := |blocks[|blocks| - 1]|;
          0 < last <= BLOCK_SIZE && length == BLOCK_SIZE * (|blocks| - 1) + last)
  }

  lemma {:induction false} BlocksLength(blocks: seq<seq<Byte>>, length: nat)
    requires BlocksHold(blocks, length)
    ensures |Flatten(blocks)| == length
    decreases |blocks|
  {
    if blocks != [] {
      var n := |blocks| - 1;
      assert blocks == blocks[..n] + [blocks[n]];
      FlattenSnoc(blocks[..n], blocks[n]);
      if n > 0 {
        BlocksLength(blocks[..n], BLOCK_SIZE * n);
      }
    }
  }

  lemma Rejoin(held: seq<Byte>, chunk: seq<Byte>, from: nat, mid: nat, to: nat)
    requires from <= mid <= to <= |chunk|
    ensures (held + chunk[from..mid]) + chunk[mid..to] == held + chunk[from..to]
  {
    assert chunk[from..mid] + chunk[mid..to] == chunk[from..to];
  }

  class FrameDecoder {
    const header: array<Byte>
    var headerLength: nat
    const maxFrameLength: nat
    var payloadBlocks: seq<seq<Byte>>
    var payloadLength: nat
    var expectedPayloadLength: Option<nat>
    var state: DecoderState

    ghost predicate Valid()
      reads this, header
    {
      && header.Length == HEADER_LENGTH
      && maxFrameLength <= MAX_UINT32
      && headerLength < HEADER_LENGTH
      && (match expectedPayloadLength
          case None => payloadBlocks == [] && payloadLength == 0
          case Some(n) =>
            && headerLength == 0
            && FrameLength(header[..]) == n
            && payloadLength < n <= maxFrameLength
            && BlocksHold(payloadBlocks, payloadLength))
    }

    /** The bytes received and not yet handed out, headers included. */
    ghost function Held(): seq<Byte>
      requires Valid()
      reads this, header
    {
      match expectedPayloadLength
      case None => header[..headerLength]
      case Some(_) => header[..] + Flatten(payloadBlocks)
    }

    ghost function Seen(): View
      requires Valid()
      reads this, header
    {
      match state
      case StateOpen => Open(Held())
      case StateEnded => Ended
      case StateFailed => Failed
    }

    constructor (limit: nat)
      requires limit <= MAX_UINT32
      ensures Valid() && fresh(header) && maxFrameLength == limit
      ensures Seen() == Open([])
    {
      header := new Byte[HEADER_LENGTH](_ => 0);
      headerLength := 0;
      maxFrameLength := limit;
      payloadBlocks := [];
      payloadLength := 0;
      expectedPayloadLength := None;
      state := StateOpen;
    }

    /** `FrameDecoder::new`: refused exactly when the configured limit is. */
    static method New(limit: Option<nat>) returns (r: Result<FrameDecoder, FrameError>)
      ensures r.Ok? <==> ResolveMaxFrameLength(limit).Ok?
      ensures r.Ok? ==>
                && fresh(r.value) && fresh(r.value.header) && r.value.Valid()
                && r.value.maxFrameLength == ResolveMaxFrameLength(limit).value
                && r.value.Seen() == Open([])
    {
      match ResolveMaxFrameLength(limit) {
        case Err(e) => r := Err(e);
        case Ok(max) =>
          var decoder := new FrameDecoder(max);
          r := Ok(decoder);
      }
    }

    method Push(chunk: seq<Byte>) returns (r: Frames)
      requires Valid()
      modifies this, header
      ensures Valid()
      ensures (Seen(), r) == Pushed(maxFrameLength, old(Seen()), chunk)
    {
      if state == StateEnded {
        return Err(DecoderEnded);
      }
      if state == StateFailed {
        return Err(DecoderFailed);
      }
      var frames: seq<Payload> := [];
      var offset := 0;
      ghost var start := Held();
      assert start + chunk[..0] == start;
      HeldIsIncomplete();
      while offset < |chunk|
        invariant Valid() && state == StateOpen
        invariant 0 <= offset <= |chunk|
        invariant ParseStream(maxFrameLength, start + chunk[..offset]) == Parse(frames, Held(), false)
      {
        ghost var held := Held();
        var to, frame, oversize := Step(chunk, offset);
        Advance(maxFrameLength, start, chunk, offset, to, frames, held);
        if oversize.Some? {
          Oversize(maxFrameLength, start, chunk, to, frames, header[..]);
          r := Fail(ExceedsLimit(oversize.value, maxFrameLength));
          return;
        }
        frames := frames + frame;
        offset := to;
      }
      assert chunk[..offset] == chunk;
      r := Ok(frames);
    }

    /** One round of the push loop: the bytes it consumes, the frame it completes if any, and the
        length of an oversized header if it met one. */
    method Step(chunk: seq<Byte>, from: nat) returns (offset: nat, frame: seq<Payload>, oversize: Option<nat>)
      requires Valid() && state == StateOpen && from < |chunk|
      modifies this, header
      ensures from < offset <= |chunk| && state == StateOpen && |header[..]| == HEADER_LENGTH
      ensures oversize.None? ==> Valid()
      ensures oversize.None? ==>
                ParseStream(maxFrameLength, old(Held()) + chunk[from..offset]) == Parse(frame, Held(), false)
      ensures oversize.Some? ==>
                && oversize.value == FrameLength(header[..]) > maxFrameLength
                && ParseStream(maxFrameLength, old(Held()) + chunk[from..offset]) == Parse([], header[..], true)
    {
      frame, oversize := [], None;
      offset := from;
      if expectedPayloadLength.None? {
        var over;
        offset, over, frame, oversize := StepHeader(chunk, from);
        if over {
          return;
        }
      }
      ghost var mid, held := offset, Held();
      assert old(Held()) + chunk[from..mid] == held;
      offset, frame := StepPayload(chunk, offset);
      Rejoin(old(Held()), chunk, from, mid, offset);
    }

    /** Takes header bytes. The round is over unless a payload is to be read now. */
    method StepHeader(chunk: seq<Byte>, from: nat)
      returns (offset: nat, over: bool, frame: seq<Payload>, oversize: Option<nat>)
      requires Valid() && expectedPayloadLength.None? && state == StateOpen && from < |chunk|
      modifies this, header
      ensures from < offset <= |chunk| && state == StateOpen && |header[..]| == HEADER_LENGTH
      ensures oversize.None? ==> Valid()
      ensures over && oversize.None? ==>
                ParseStream(maxFrameLength, old(Held()) + chunk[from..offset]) == Parse(frame, Held(), false)
      ensures over && oversize.Some? ==>
                && oversize.value == FrameLength(header[..]) > maxFrameLength
                && ParseStream(maxFrameLength, old(Held()) + chunk[from..offset]) == Parse([], header[..], true)
      ensures !over ==> oversize.None? && frame == [] && expectedPayloadLength.Some?
                        && Held() == old(Held()) + chunk[from..offset]
    {
      frame, oversize, over := [], None, true;
      offset := TakeHeader(chunk, from);
      if headerLength < HEADER_LENGTH {
        HeldIsIncomplete();
        return;
      }
      var frameLength := FrameLength(header[..]);
      headerLength := 0;
      if frameLength > maxFrameLength {
        oversize := Some(frameLength);
        return;
      }
      if frameLength == 0 {
        frame := [[]];
        WholeFrame(maxFrameLength, header[..], []);
        return;
      }
      over, expectedPayloadLength, payloadBlocks, payloadLength := false, Some(frameLength), [], 0;
      assert header[..] + Flatten(payloadBlocks) == header[..];
    }

    /** Takes payload bytes, and hands the frame out once it is whole. */
    method StepPayload(chunk: seq<Byte>, from: nat) returns (offset: nat, frame: seq<Payload>)
      requires Valid() && expectedPayloadLength.Some? && from <= |chunk|
      modifies this`payloadBlocks, this`payloadLength, this`expectedPayloadLength
      ensures from <= offset <= |chunk| && (from < |chunk| ==> from < offset) && Valid()
      ensures ParseStream(maxFrameLength, old(Held()) + chunk[from..offset]) == Parse(frame, Held(), false)
    {
      frame := [];
      ghost var taken := Flatten(payloadBlocks);
      offset := TakePayload(chunk, from);
      ConcatAssoc(header[..], taken, chunk[from..offset]);
      BlocksLength(payloadBlocks, payloadLength);
      if payloadLength == expectedPayloadLength.value {
        var payload := Assemble();
        frame := [payload];
        WholeFrame(maxFrameLength, header[..] + payload, payload);
        payloadBlocks := [];
        expectedPayloadLength := None;
        payloadLength := 0;
      } else {
        HeldIsIncomplete();
      }
    }

    /** Copies the header bytes the chunk can supply. */
    method TakeHeader(chunk: seq<Byte>, from: nat) returns (offset: nat)
      requires Valid() && expectedPayloadLength.None?
      requires from < |chunk|
      modifies this`headerLength, header
      ensures from < offset <= |chunk| && headerLength <= HEADER_LENGTH
      ensures header[..headerLength] == old(Held()) + chunk[from..offset]
      ensures headerLength < HEADER_LENGTH ==> offset == |chunk|
    {
      var headerBytes := Min(HEADER_LENGTH - headerLength, |chunk| - from);
      ghost var held, taken := header[..headerLength], chunk[from..from + headerBytes];
      forall i | 0 <= i < headerBytes {
        header[headerLength + i] := chunk[from + i];
      }
      assert forall i | 0 <= i < |held| :: header[i] == held[i];
      assert forall i | |held| <= i < |held| + headerBytes :: header[i] == taken[i - |held|];
      headerLength := headerLength + headerBytes;
      offset := from + headerBytes;
      assert header[..headerLength] == held + taken;
    }

    /** Appends payload bytes block by block, never past the frame or the chunk. */
    method TakePayload(chunk: seq<Byte>, from: nat) returns (offset: nat)
      requires header.Length == HEADER_LENGTH && expectedPayloadLength.Some?
      requires from <= |chunk| && payloadLength < expectedPayloadLength.value
      requires BlocksHold(payloadBlocks, payloadLength)
      modifies this`payloadBlocks, this`payloadLength
      ensures from <= offset <= |chunk| && (from < |chunk| ==> from < offset)
      ensures BlocksHold(payloadBlocks, payloadLength)
      ensures payloadLength <= expectedPayloadLength.value
      ensures payloadLength < expectedPayloadLength.value ==> offset == |chunk|
      ensures Flatten(payloadBlocks) == old(Flatten(payloadBlocks)) + chunk[from..offset]
    {
      var expected := expectedPayloadLength.value;
      ghost var held := Flatten(payloadBlocks);
      offset := from;
      while offset < |chunk| && payloadLength < expected
        invariant from <= offset <= |chunk|
        invariant from < |chunk| ==> from < offset || payloadLength < expected
        invariant payloadLength <= expected
        invariant BlocksHold(payloadBlocks, payloadLength)
        invariant Flatten(payloadBlocks) == held + chunk[from..offset]
      {
        ghost var before := Flatten(payloadBlocks);
        var blockFree := Min(BLOCK_SIZE - payloadLength % BLOCK_SIZE, expected - payloadLength);
        var payloadBytes := Min(blockFree, |chunk| - offset);
        AppendToBlock(chunk[offset..offset + payloadBytes]);
        Regroup(held, chunk, from, offset, offset + payloadBytes, before, []);
        offset := offset + payloadBytes;
      }
    }

    /** Extends the open block, opening a new one when the last is full. */
    method AppendToBlock(bytes: seq<Byte>)
      requires BlocksHold(payloadBlocks, payloadLength)
      requires 0 < |bytes| <= BLOCK_SIZE - payloadLength % BLOCK_SIZE
      modifies this`payloadBlocks, this`payloadLength
      ensures payloadLength == old(payloadLength) + |bytes|
      ensures BlocksHold(payloadBlocks, payloadLength)
      ensures Flatten(payloadBlocks) == old(Flatten(payloadBlocks)) + bytes
    {
      ghost var blocks := payloadBlocks;
      ExtendedHolds(blocks, payloadLength, bytes);
      ExtendedFlatten(blocks, payloadLength, bytes);
      ExtendedInPlace(blocks, payloadLength, bytes);
      if payloadLength % BLOCK_SIZE == 0 {
        payloadBlocks := payloadBlocks + [[]];
      }
      var last := |payloadBlocks| - 1;
      payloadBlocks := payloadBlocks[last := payloadBlocks[last] + bytes];
      payloadLength := payloadLength + |bytes|;
    }

    /** The payload the blocks hold; a single block is handed out as it is. */
    method Assemble() returns (payload: Payload)
      ensures payload == Flatten(payloadBlocks)
    {
      if |payloadBlocks| == 1 {
        return payloadBlocks[0];
      }
      payload := [];
      var k := 0;
      while k < |payloadBlocks|
        invariant 0 <= k <= |payloadBlocks|
        invariant payload == Flatten(payloadBlocks[..k])
      {
        assert payloadBlocks[..k + 1] == payloadBlocks[..k] + [payloadBlocks[k]];
        FlattenSnoc(payloadBlocks[..k], payloadBlocks[k]);
        payload := payload + payloadBlocks[k];
        k := k + 1;
      }
      assert payloadBlocks[..k] == payloadBlocks;
    }

    method End() returns (r: Result<(), FrameError>)
      requires Valid()
      modifies this
      ensures Valid()
      ensures (Seen(), r) == Closed(old(Seen()))
    {
      if state == StateEnded {
        return Err(DecoderEnded);
      }
      if state == StateFailed {
        return Err(DecoderFailed);
      }
      if headerLength != 0 || expectedPayloadLength.Some? {
        var e := Fail(Truncated);
        return Err(e.error);
      }
      state := StateEnded;
      r := Ok(());
    }

    method Fail(error: FrameError) returns (r: Frames)
      requires header.Length == HEADER_LENGTH && maxFrameLength <= MAX_UINT32
      modifies this
      ensures Valid() && Seen() == Failed && r == Err(error)
    {
      state := StateFailed;
      headerLength := 0;
      payloadBlocks := [];
      expectedPayloadLength := None;
      payloadLength := 0;
      r := Err(error);
    }

    /** Held bytes never contain a complete frame. */
    lemma HeldIsIncomplete()
      requires Valid()
      ensures ParseStream(maxFrameLength, Held()) == Parse([], Held(), false)
    {
      if expectedPayloadLength.Some? {
        BlocksLength(payloadBlocks, payloadLength);
        assert Held()[..HEADER_LENGTH] == header[..];
      }
    }
  }

  function Min(a: nat, b: nat): nat {
    if a < b then a else b
  }

  lemma Oversize(limit: nat, start: seq<Byte>, chunk: seq<Byte>, offset: nat, frames: seq<Payload>, header: seq<Byte>)
    requires |header| == HEADER_LENGTH && offset <= |chunk|
    requires ParseStream(limit, start + chunk[..offset]) == Parse(frames, header, true)
    ensures ParseStream(limit, start + chunk) == Parse(frames, header + chunk[offset..], true)
    ensures (header + chunk[offset..])[..HEADER_LENGTH] == header
  {
    ParseAppend(limit, start + chunk[..offset], chunk[offset..]);
    ConcatAssoc(start, chunk[..offset], chunk[offset..]);
    assert chunk == chunk[..offset] + chunk[offset..];
  }

  /** Consuming `chunk[from..to]` on top of what was held advances the parse by its own parse. */
  lemma Advance(
    limit: nat, start: seq<Byte>, chunk: seq<Byte>, from: nat, to: nat, frames: seq<Payload>, held: seq<Byte>)
    requires from <= to <= |chunk|
    requires ParseStream(limit, start + chunk[..from]) == Parse(frames, held, false)
    ensures var q := ParseStream(limit, held + chunk[from..to]);
            ParseStream(limit, start + chunk[..to]) == Parse(frames + q.frames, q.rest, q.oversized)
  {
    ParseAppend(limit, start + chunk[..from], chunk[from..to]);
    ConcatAssoc(start, chunk[..from], chunk[from..to]);
    assert chunk[..to] == chunk[..from] + chunk[from..to];
  }

  lemma Regroup(held: seq<Byte>, chunk: seq<Byte>, from: nat, mid: nat, to: nat, header: seq<Byte>, taken: seq<Byte>)
    requires from <= mid <= to <= |chunk|
    requires held + chunk[from..mid] == header + taken
    ensures held + chunk[from..to] == header + (taken + chunk[mid..to])
  {
    ConcatAssoc(held, chunk[from..mid], chunk[mid..to]);
    ConcatAssoc(header, taken, chunk[mid..to]);
    assert chunk[from..to] == chunk[from..mid] + chunk[mid..to];
  }

  lemma WholeFrame(limit: nat, s: seq<Byte>, payload: Payload)
    requires |s| == HEADER_LENGTH + |payload| && s[HEADER_LENGTH..] == payload
    requires FrameLength(s[..HEADER_LENGTH]) == |payload| <= limit
    ensures ParseStream(limit, s) == Parse([payload], [], false)
  {
    assert HeadOf(limit, s) == Complete(payload, []);
    assert ParseStream(limit, []) == Parse([], [], false);
  }

  /** The blocks after receiving bytes that fit the open block, or start a new one when all are full. */
  function Extended(blocks: seq<seq<Byte>>, length: nat, bytes: seq<Byte>): seq<seq<Byte>>
    requires BlocksHold(blocks, length)
  {
    if length % BLOCK_SIZE == 0 then blocks + [bytes]
    else blocks[..|blocks| - 1] + [blocks[|blocks| - 1] + bytes]
  }

  /** The same as extending the last block, after opening an empty one when all are full. */
  lemma ExtendedInPlace(blocks: seq<seq<Byte>>, length: nat, bytes: seq<Byte>)
    requires BlocksHold(blocks, length)
    ensures var grown := if length % BLOCK_SIZE == 0 then blocks + [[]] else blocks;
            var last := |grown| - 1;
            last >= 0 && grown[last := grown[last] + bytes] == Extended(blocks, length, bytes)
  {
    assert [] + bytes == bytes;
  }

  lemma ExtendedHolds(blocks: seq<seq<Byte>>, length: nat, bytes: seq<Byte>)
    requires BlocksHold(blocks, length)
    requires 0 < |bytes| <= BLOCK_SIZE - length % BLOCK_SIZE
    ensures BlocksHold(Extended(blocks, length, bytes), length + |bytes|)
  {
    if blocks != [] {
      var n := |blocks| - 1;
      var last := |blocks[n]|;
      assert length == BLOCK_SIZE * n + last;
      assert length % BLOCK_SIZE == if last == BLOCK_SIZE then 0 else last;
    }
  }

  lemma ExtendedFlatten(blocks: seq<seq<Byte>>, length: nat, bytes: seq<Byte>)
    requires BlocksHold(blocks, length)
    ensures Flatten(Extended(blocks, length, bytes)) == Flatten(blocks) + bytes
  {
    FlattenSnoc(blocks, bytes);
    if length % BLOCK_SIZE != 0 {
      var last := |blocks| - 1;
      var init := blocks[..last];
      assert blocks == init + [blocks[last]];
      FlattenSnoc(init, blocks[last]);
      FlattenSnoc(init, blocks[last] + bytes);
      ConcatAssoc(Flatten(init), blocks[last], bytes);
    }
  }
}
