/** Messages queued while a run is going: steering joins after the current step, follow-ups when the agent would
    stop. */
module MessageQueues {
  import opened Results
  import opened AgentTypes

  datatype Mode = All | OneAtATime

  class PendingMessageQueue {
    const mode: Mode
    var messages: seq<Message>
    /** All messages ever queued, without those that were cleared, and all ever drained. */
    ghost var enqueued: seq<Message>
    ghost var delivered: seq<Message>

    /** Nothing is lost, repeated or reordered. */
    ghost predicate Valid()
      reads this
    {
      enqueued == delivered + messages
    }

    constructor (mode: Mode)
      ensures Valid() && this.mode == mode && enqueued == [] && delivered == []
    {
      this.mode := mode;
      messages, enqueued, delivered := [], [], [];
    }

    method Enqueue(message: Message)
      requires Valid()
      modifies this
      ensures Valid() && enqueued == old(enqueued) + [message] && delivered == old(delivered)
    {
      ConcatAssoc(delivered, messages, [message]);
      messages := messages + [message];
      enqueued := enqueued + [message];
    }

    method Drain() returns (drained: seq<Message>)
      requires Valid()
      modifies this
      ensures Valid() && enqueued == old(enqueued) && delivered == old(delivered) + drained
      ensures drained == (if mode.All? || old(messages) == [] then old(messages) else [old(messages)[0]])
    {
      match mode {
        case All => drained, messages := messages, [];
        case OneAtATime =>
          if messages == [] {
            drained := [];
          } else {
            drained, messages := [messages[0]], messages[1..];
          }
      }
      ConcatAssoc(delivered, drained, messages);
      assert drained + messages == old(messages);
      delivered := delivered + drained;
    }

    method Clear()
      requires Valid()
      modifies this
      ensures Valid() && messages == [] && delivered == old(delivered)
    {
      messages, enqueued := [], delivered;
      assert delivered + [] == delivered;
    }

    /** What the loop sees when it polls: anything may have been queued since the last poll. */
    method Poll() returns (drained: seq<Message>)
      requires Valid()
      modifies this
      ensures Valid() && old(enqueued) <= enqueued && delivered == old(delivered) + drained
      ensures drained == [] ==> messages == []
    {
      var count: nat :| count >= 0;
      for i := 0 to count
        invariant Valid() && old(enqueued) <= enqueued && delivered == old(delivered)
      {
        var message: Message := *;
        Enqueue(message);
      }
      drained := Drain();
    }
  }
}
