/**
 The validated message decoder: the frame decoder lifted to messages through an arbitrary
 per-frame parse function, with its own sticky failure.
 */
module MessageCodec {
  import opened Results
  import opened Framing
  import opened FrameDecoding

  datatype MessageError =
    | HasFailed
    | BadFrame(frame: FrameError)
    | BadFraming(frame: FrameError)
    | Rejected(reason: string)

  /** Decoding one payload and validating the value it holds. */
  type Parser<!T> = Payload -> Result<T, string>

  /** The messages of some frames, or the reason the first bad frame was refused. */
  function ParseFrames<T>(parse: Parser<T>, frames: seq<Payload>): Result<seq<T>, string> {
    if frames == [] then Ok([])
    else
      var n := |frames| - 1;
      match ParseFrames(parse, frames[..n])
      case Err(reason) => Err(reason)
      case Ok(messages) =>
        match parse(frames[n])
        case Err(reason) => Err(reason)
        case Ok(message) => Ok(messages + [message])
  }

  lemma {:induction false} ParseFramesAppend<T>(parse: Parser<T>, a: seq<Payload>, b: seq<Payload>)
    ensures var p, q := ParseFrames(parse, a), ParseFrames(parse, b);
            ParseFrames(parse, a + b) ==
              if p.Err? then p else if q.Err? then q else Ok(p.value + q.value)
    decreases |b|
  {
    var p := ParseFrames(parse, a);
    if b == [] {
      assert a + b == a;
      assert p.Ok? ==> p.value + [] == p.value;
    } else {
      var n := |b| - 1;
      var c := a + b;
      assert c[..|c| - 1] == a + b[..n];
      ParseFramesAppend(parse, a, b[..n]);
      var q, m := ParseFrames(parse, b[..n]), parse(b[n]);
      if p.Ok? && q.Ok? && m.Ok? {
        ConcatAssoc(p.value, q.value, [m.value]);
      }
    }
  }

  /** The messages of a byte stream: none are promised once a header is oversized or a frame is rejected. */
  function Messages<T>(limit: nat, parse: Parser<T>, s: seq<Byte>): Option<seq<T>> {
    var p := ParseStream(limit, s);
    if p.oversized then None
    else
      match ParseFrames(parse, p.frames)
      case Err(_) => None
      case Ok(messages) => Some(messages)
  }

  // ----- whole runs -----

  datatype MessageView = MessageView(failed: bool, frames: View)

  type Batch<!T> = Result<seq<T>, MessageError>

  function Received<T>(limit: nat, parse: Parser<T>, v: MessageView, chunk: seq<Byte>): (MessageView, Batch<T>) {
    if v.failed then (v, Err(HasFailed))
    else
      var (frames, r) := Pushed(limit, v.frames, chunk);
      match r
      case Err(e) => (MessageView(true, frames), Err(BadFrame(e)))
      case Ok(payloads) =>
        match ParseFrames(parse, payloads)
        case Err(reason) => (MessageView(true, frames), Err(Rejected(reason)))
        case Ok(messages) => (MessageView(false, frames), Ok(messages))
  }

  function Finished(v: MessageView): (MessageView, Result<(), MessageError>) {
    if v.failed then (v, Err(HasFailed))
    else
      var (frames, r) := Closed(v.frames);
      match r
      case Ok(_) => (MessageView(false, frames), Ok(()))
      case Err(e) => (MessageView(true, frames), Err(BadFraming(e)))
  }

  const Fresh := MessageView(false, Open([]))

  function ReceiveAll<T>(limit: nat, parse: Parser<T>, chunks: seq<seq<Byte>>): (run: (MessageView, seq<Batch<T>>))
    ensures |run.1| == |chunks|
  {
    if chunks == [] then (Fresh, [])
    else
      var n := |chunks| - 1;
      var before := ReceiveAll(limit, parse, chunks[..n]);
      var last := Received(limit, parse, before.0, chunks[n]);
      (last.0, before.1 + [last.1])
  }

  function Handed<T>(results: seq<Batch<T>>): seq<T> {
    if results == [] then []
    else
      var n := |results| - 1;
      Handed(results[..n]) + if results[n].Ok? then results[n].value else []
  }

  /** One more chunk: it is refused exactly when there are no messages by then, and otherwise adds its own. */
  lemma ReceivedAfter<T>(limit: nat, parse: Parser<T>, v: MessageView, a: seq<Byte>, chunk: seq<Byte>)
    requires var messages := Messages(limit, parse, a);
             if messages.None? then v.failed else v == MessageView(false, Open(ParseStream(limit, a).rest))
    ensures var (earlier, now) := (Messages(limit, parse, a), Messages(limit, parse, a + chunk));
            var (after, r) := Received(limit, parse, v, chunk);
            && (if now.None? then after.failed
                else after == MessageView(false, Open(ParseStream(limit, a + chunk).rest)))
            && (r.Err? <==> now.None?)
            && (r == Err(HasFailed) <==> earlier.None?)
            && (r.Ok? ==> now == Some(earlier.value + r.value))
  {
    ParseAppend(limit, a, chunk);
    var p := ParseStream(limit, a);
    if !p.oversized {
      ParseFramesAppend(parse, p.frames, ParseStream(limit, p.rest + chunk).frames);
    }
  }

  /** A run hands out exactly the messages of the bytes so far; it has failed exactly when those bytes
      have no messages. */
  lemma {:induction false} MessageRunRefinesStream<T>(limit: nat, parse: Parser<T>, chunks: seq<seq<Byte>>)
    ensures var run := ReceiveAll(limit, parse, chunks);
            var p := ParseStream(limit, Flatten(chunks));
            match Messages(limit, parse, Flatten(chunks))
            case None => run.0.failed
            case Some(messages) => run.0 == MessageView(false, Open(p.rest)) && Handed(run.1) == messages
  {
    if chunks != [] {
      var n := |chunks| - 1;
      var before, chunk := chunks[..n], chunks[n];
      MessageRunRefinesStream(limit, parse, before);
      var run := ReceiveAll(limit, parse, before);
      var last := Received(limit, parse, run.0, chunk);
      assert Flatten(chunks) == Flatten(before) + chunk by {
        assert chunks == before + [chunk];
        FlattenSnoc(before, chunk);
      }
      ReceivedAfter(limit, parse, run.0, Flatten(before), chunk);
      HandedSnoc(run.1, last.1);
    }
  }

  lemma HandedSnoc<T>(results: seq<Batch<T>>, r: Batch<T>)
    ensures Handed(results + [r]) == Handed(results) + if r.Ok? then r.value else []
  {
    assert (results + [r])[..|results|] == results;
  }

  /** The result of a push is what that push gave from where the earlier ones had left the view. */
  lemma {:induction false} ReceiveAllAt<T>(limit: nat, parse: Parser<T>, chunks: seq<seq<Byte>>, i: nat, k: nat)
    requires i < k <= |chunks|
    ensures ReceiveAll(limit, parse, chunks[..k]).1[i]
         == Received(limit, parse, ReceiveAll(limit, parse, chunks[..i]).0, chunks[i]).1
    decreases k
  {
    assert chunks[..k][..k - 1] == chunks[..k - 1];
    if i < k - 1 {
      ReceiveAllAt(limit, parse, chunks, i, k - 1);
    }
  }

  /** Exactly the push after which the stream has no messages fails, and every later one with it. */
  lemma ReceiveFailsIff<T>(limit: nat, parse: Parser<T>, chunks: seq<seq<Byte>>, i: nat)
    requires i < |chunks|
    ensures var r := ReceiveAll(limit, parse, chunks).1[i];
            && (r.Err? <==> Messages(limit, parse, Flatten(chunks[..i + 1])).None?)
            && (r == Err(HasFailed) <==> Messages(limit, parse, Flatten(chunks[..i])).None?)
  {
    ReceiveAllAt(limit, parse, chunks, i, |chunks|);
    assert chunks[..|chunks|] == chunks;
    FlattenUpTo(chunks, i);
    MessageRunRefinesStream(limit, parse, chunks[..i]);
    ReceivedAfter(limit, parse, ReceiveAll(limit, parse, chunks[..i]).0, Flatten(chunks[..i]), chunks[i]);
  }

  /** Payloads that parse to some messages bring exactly those messages, however they are chunked. */
  lemma MessagesSurviveTransport<T>(limit: nat, parse: Parser<T>, payloads: seq<Payload>, messages: seq<T>,
                                    chunks: seq<seq<Byte>>)
    requires limit <= MAX_UINT32 && WithinLimit(limit, payloads)
    requires ParseFrames(parse, payloads) == Ok(messages)
    requires Flatten(chunks) == EncodeAll(payloads)
    ensures var run := ReceiveAll(limit, parse, chunks);
            Handed(run.1) == messages && Finished(run.0).1 == Ok(())
  {
    ParseEncoded(limit, payloads, []);
    assert EncodeAll(payloads) + [] == EncodeAll(payloads);
    assert payloads + [] == payloads;
    MessageRunRefinesStream(limit, parse, chunks);
  }

  // ----- the decoder -----

  /** The next frame adds its message, */
  lemma NextFrame<T>(parse: Parser<T>, payloads: seq<Payload>, i: nat, messages: seq<T>)
    requires i < |payloads| && ParseFrames(parse, payloads[..i]) == Ok(messages) && parse(payloads[i]).Ok?
    ensures ParseFrames(parse, payloads[..i + 1]) == Ok(messages + [parse(payloads[i]).value])
  {
    assert payloads[..i + 1][..i] == payloads[..i];
  }

  /** or rejects the whole chunk, whatever follows it. */
  lemma {:induction false} RejectedFrame<T>(parse: Parser<T>, payloads: seq<Payload>, i: nat, k: nat)
    requires i < k <= |payloads| && ParseFrames(parse, payloads[..i]).Ok? && parse(payloads[i]).Err?
    ensures ParseFrames(parse, payloads[..k]) == Err(parse(payloads[i]).error)
    decreases k
  {
    assert payloads[..k][..k - 1] == payloads[..k - 1];
    if i < k - 1 {
      RejectedFrame(parse, payloads, i, k - 1);
    }
  }

  class ValidatedMessageDecoder<T> {
    var failed: bool
    const frames: FrameDecoder
    const parse: Parser<T>

    ghost predicate Valid()
      reads this, frames, frames.header
    {
      frames.Valid()
    }

    ghost function Seen(): MessageView
      requires Valid()
      reads this, frames, frames.header
    {
      MessageView(failed, frames.Seen())
    }

    constructor (limit: nat, parse: Parser<T>)
      requires limit <= MAX_UINT32
      ensures Valid() && fresh(frames) && fresh(frames.header)
      ensures Seen() == Fresh && frames.maxFrameLength == limit && this.parse == parse
    {
      failed := false;
      frames := new FrameDecoder(limit);
      this.parse := parse;
    }

    method Push(chunk: seq<Byte>) returns (r: Batch<T>)
      requires Valid()
      modifies this, frames, frames.header
      ensures Valid()
      ensures (Seen(), r) == Received(frames.maxFrameLength, parse, old(Seen()), chunk)
    {
      if failed {
        return Err(HasFailed);
      }
      var pushed := frames.Push(chunk);
      if pushed.Err? {
        failed := true;
        return Err(BadFrame(pushed.error));
      }
      var payloads, messages := pushed.value, [];
      for i := 0 to |payloads|
        invariant !failed && Valid() && frames.Seen() == Pushed(frames.maxFrameLength, old(frames.Seen()), chunk).0
        invariant ParseFrames(parse, payloads[..i]) == Ok(messages)
      {
        var parsed := parse(payloads[i]);
        if parsed.Err? {
          failed := true;
          RejectedFrame(parse, payloads, i, |payloads|);
          assert payloads[..|payloads|] == payloads;
          return Err(Rejected(parsed.error));
        }
        NextFrame(parse, payloads, i, messages);
        messages := messages + [parsed.value];
      }
      assert payloads[..|payloads|] == payloads;
      r := Ok(messages);
    }

    method End() returns (r: Result<(), MessageError>)
      requires Valid()
      modifies this, frames
      ensures Valid()
      ensures (Seen(), r) == Finished(old(Seen()))
    {
      if failed {
        return Err(HasFailed);
      }
      var ended := frames.End();
      if ended.Err? {
        failed := true;
        return Err(BadFraming(ended.error));
      }
      r := Ok(());
    }
  }
}
