/** One assistant response: preparing the context, streaming partial messages, and finishing in every way it can. */
module AssistantStream {
  import opened Results
  import opened AgentTypes
  import opened AgentTrace
  import opened ToolBatches

  datatype StreamEvent = Begun(partial: AssistantMessage) | Delta(partial: AssistantMessage) | Settled

  /** The answer of the context hook: it is absent, it fails, or it gives the messages to go on with. */
  datatype Prepared = Unprepared | PrepareFailed(error: string) | PreparedAs(messages: seq<Message>)

  /** What the hooks of one turn answer to the messages of the context: before the request, after the turn, and
      whether to stop there. */
  datatype Hooks = Hooks(prepare: seq<Message> -> Prepared, next: seq<Message> -> seq<Message>, stop: bool)

  /** What one turn gets from outside: the provider's events, the final message they resolve to, the hooks, and what
      the tools make of its calls. */
  datatype Response = Response(events: seq<StreamEvent>, result: AssistantMessage, hooks: Hooks, tools: Tools)

  /** The messages the request is made with, unless the hook fails. */
  function PromptOf(hooks: Hooks, context: seq<Message>): seq<Message> {
    match hooks.prepare(context)
    case PreparedAs(messages) => messages
    case _ => context
  }

  /** No hook changes the messages of the context. */
  ghost predicate KeepsMessages(hooks: Hooks) {
    forall context :: PromptOf(hooks, context) == context && hooks.next(context) == context
  }

  /** The message of a failed context hook. */
  function HookFailure(error: string): AssistantMessage {
    AbortedMessage(None).(stopReason := Error, errorMessage := Some(error))
  }

  /** The message a request with this context comes to when the run is not cancelled. */
  function Sent(response: Response, context: seq<Message>): AssistantMessage {
    match response.hooks.prepare(context)
    case PrepareFailed(error) => HookFailure(error)
    case _ => response.result
  }

  /** A response ends as what the provider sent, as aborted, or as the failure of the hook. */
  predicate Stems(m: AssistantMessage, response: Response) {
    || m == response.result
    || (m.stopReason.Aborted? && m.errorMessage == Some(ABORTED))
    || (m.stopReason.Error? && m.content == [])
  }

  predicate NoneBegun(events: seq<StreamEvent>) {
    NoneBegunIn(events, 0, |events|)
  }

  predicate NoneBegunIn(events: seq<StreamEvent>, lo: nat, hi: nat)
    requires hi <= |events|
  {
    forall i | lo <= i < hi :: !events[i].Begun?
  }

  /** A provider begins a message at most once. */
  predicate BegunOnce(events: seq<StreamEvent>) {
    forall i, j | 0 <= i < j < |events| :: !(events[i].Begun? && events[j].Begun?)
  }

  /** The events emitted for stream events that settle nothing: updates before the start are not shown. */
  function Shown(events: seq<StreamEvent>, begun: bool): seq<Event> {
    if events == [] then []
    else
      match events[0]
      case Begun(partial) => [MessageStart(Assistant(partial))] + Shown(events[1..], true)
      case Delta(partial) =>
        (if begun then [MessageUpdate(Assistant(partial))] else []) + Shown(events[1..], begun)
      case Settled => Shown(events[1..], begun)
  }

  function StageAfter(s: Stage, events: seq<Event>): Stage
    decreases |events|
  {
    if events == [] then s else StageAfter(After(s, events[0]), events[1..])
  }

  lemma {:induction false} MalformedStays(events: seq<Event>)
    ensures StageAfter(Malformed, events) == Malformed
  {
    if events != [] {
      MalformedStays(events[1..]);
    }
  }

  lemma FirstShown(s: Stage, e: Event, rest: seq<Event>)
    ensures StageAfter(s, [e] + rest) == StageAfter(After(s, e), rest)
  {
    assert ([e] + rest)[1..] == rest;
  }

  lemma NoneShown(rest: seq<Event>)
    ensures [] + rest == rest
  {
  }

  lemma BegunFirst(e: StreamEvent, rest: seq<StreamEvent>)
    ensures NoneBegun([e] + rest) <==> !e.Begun? && NoneBegun(rest)
    ensures BegunOnce([e] + rest) <==> if e.Begun? then NoneBegun(rest) else BegunOnce(rest)
  {
    var events := [e] + rest;
    assert events[0] == e && forall i | 0 <= i < |rest| :: events[i + 1] == rest[i];
    assert forall i | 0 < i < |events| :: events[i] == rest[i - 1];
  }

  /** What a provider's stream shows is well formed exactly when it begins its message at most once. */
  lemma {:induction false} ShownWellFormedIff(s: Stage, events: seq<StreamEvent>)
    requires s.InTurn? && (s.open.Some? ==> s.open.value.Assistant?)
    ensures StageAfter(s, Shown(events, s.open.Some?)) != Malformed <==>
            if s.open.Some? then NoneBegun(events) else BegunOnce(events)
    decreases |events|
  {
    if events != [] {
      var rest := events[1..];
      BegunFirst(events[0], rest);
      assert events == [events[0]] + rest;
      NoneShown(Shown(rest, s.open.Some?));
      match events[0] {
        case Begun(partial) =>
          FirstShown(s, MessageStart(Assistant(partial)), Shown(rest, true));
          MalformedStays(Shown(rest, true));
          if s.open.None? {
            ShownWellFormedIff(s.(open := Some(Assistant(partial))), rest);
          }
        case Delta(partial) =>
          if s.open.Some? {
            FirstShown(s, MessageUpdate(Assistant(partial)), Shown(rest, true));
            ShownWellFormedIff(s.(open := Some(Assistant(partial))), rest);
          } else {
            ShownWellFormedIff(s, rest);
          }
        case Settled => ShownWellFormedIff(s, rest);
      }
    }
  }

  const ABORTED := "Operation aborted"

  function AbortedMessage(partial: Option<Message>): AssistantMessage {
    AssistantMessage(
      if partial.Some? && partial.value.Assistant? then partial.value.assistant.content else [], Aborted, Some(ABORTED))
  }

  /** The stage and the messages after one more assistant message. */
  ghost predicate Said(
    m: AssistantMessage, before: Stage, endedBefore: seq<Message>, after: Stage, endedAfter: seq<Message>)
    requires before.InTurn?
  {
    && after == before.(open := None, said := before.said + [Assistant(m)])
    && endedAfter == endedBefore + [Assistant(m)]
  }

  /** While a message is streamed, the context ends in its latest partial content. */
  ghost predicate Streaming(base: seq<Message>, context: seq<Message>, added: bool, s: Stage) {
    && s.InTurn?
    && (if added then s.open.Some? && s.open.value.Assistant? && context == base + [s.open.value]
        else s.open.None? && context == base)
  }

  /** The final message replaces the partial one, or is added; it ends exactly once either way. */
  method FinishAssistantMessage(
    sink: AgentState, context: seq<Message>, m: AssistantMessage, added: bool, ghost base: seq<Message>)
    returns (after: seq<Message>)
    requires sink.Valid() && Streaming(base, context, added, sink.stage)
    modifies sink
    ensures sink.Valid() && sink.history == old(sink.history)
    ensures Said(m, old(sink.stage), old(sink.ended), sink.stage, sink.ended)
    ensures after == base + [Assistant(m)]
  {
    if added {
      after := context[|context| - 1 := Assistant(m)];
    } else {
      after := context + [Assistant(m)];
      sink.ProcessEvent(MessageStart(Assistant(m)));
    }
    sink.ProcessEvent(MessageEnd(Assistant(m)));
  }

  method FinishCancelledResponse(sink: AgentState, context: seq<Message>, added: bool, ghost base: seq<Message>)
    returns (m: AssistantMessage, after: seq<Message>)
    requires sink.Valid() && Streaming(base, context, added, sink.stage)
    modifies sink
    ensures sink.Valid() && sink.history == old(sink.history)
    ensures Said(m, old(sink.stage), old(sink.ended), sink.stage, sink.ended)
    ensures after == base + [Assistant(m)]
    ensures m == AbortedMessage(old(sink.stage).open)
  {
    m := AbortedMessage(if added then Some(context[|context| - 1]) else None);
    after := FinishAssistantMessage(sink, context, m, added, base);
  }

  /** One response, up to its final message: whatever the hook does and whenever the run is cancelled, exactly one
      assistant message is started and ended, and it follows the messages of the context or those of the hook. */
  method StreamAssistantResponse(sink: AgentState, context: seq<Message>, signal: Signal, response: Response)
    returns (m: AssistantMessage, after: seq<Message>, sampled: Signal)
    requires sink.Valid() && Quiet(sink.stage) && BegunOnce(response.events)
    modifies sink
    ensures sink.Valid() && sink.history == old(sink.history)
    ensures Said(m, old(sink.stage), old(sink.ended), sink.stage, sink.ended)
    ensures after == context + [Assistant(m)] || after == PromptOf(response.hooks, context) + [Assistant(m)]
    ensures Later(signal, sampled) && Stems(m, response)
    ensures signal.Cancelled? ==> m.stopReason.Aborted?
    ensures !sampled.Cancelled? ==>
              && after == PromptOf(response.hooks, context) + [Assistant(m)]
              && m == Sent(response, context)
  {
    sampled := Poll(signal);
    if sampled.Cancelled? {
      m, after := FinishCancelledResponse(sink, context, false, context);
      return;
    }
    var prepared := response.hooks.prepare(context);
    var prompt := context;
    if !prepared.Unprepared? {
      sampled := Poll(sampled);
      if sampled.Cancelled? {
        m, after := FinishCancelledResponse(sink, context, false, context);
        return;
      }
      if prepared.PrepareFailed? {
        m := HookFailure(prepared.error);
        after := FinishAssistantMessage(sink, context, m, false, context);
        return;
      }
      prompt := prepared.messages;
    }
    m, after, sampled := Request(sink, prompt, sampled, response);
  }

  /** Converts the context, resolves the key and sends the request, checking for cancellation after each wait. */
  method Request(sink: AgentState, context: seq<Message>, signal: Signal, response: Response)
    returns (m: AssistantMessage, after: seq<Message>, sampled: Signal)
    requires sink.Valid() && Quiet(sink.stage) && BegunOnce(response.events)
    modifies sink
    ensures sink.Valid() && sink.history == old(sink.history)
    ensures Said(m, old(sink.stage), old(sink.ended), sink.stage, sink.ended)
    ensures after == context + [Assistant(m)] && Later(signal, sampled) && Stems(m, response)
    ensures !sampled.Cancelled? ==> m == response.result
  {
    sampled := signal;
    for wait := 0 to 3
      invariant sink.Valid() && unchanged(sink) && Later(signal, sampled)
    {
      sampled := Poll(sampled);
      if sampled.Cancelled? {
        m, after := FinishCancelledResponse(sink, context, false, context);
        return;
      }
    }
    m, after, sampled := Receive(sink, context, sampled, response);
  }

  /** Shows one event that settles nothing. */
  method Show(sink: AgentState, context: seq<Message>, added: bool, e: StreamEvent, ghost base: seq<Message>)
    returns (after: seq<Message>, begun: bool)
    requires sink.Valid() && Streaming(base, context, added, sink.stage)
    requires !e.Settled? && (e.Begun? ==> !added)
    modifies sink
    ensures sink.Valid() && sink.history == old(sink.history) && sink.ended == old(sink.ended)
    ensures Streaming(base, after, begun, sink.stage) && sink.stage == old(sink.stage).(open := sink.stage.open)
    ensures begun == (added || e.Begun?)
    ensures after == base + if begun then [Assistant(e.partial)] else []
  {
    after, begun := context, added;
    match e {
      case Begun(partial) =>
        after, begun := context + [Assistant(partial)], true;
        sink.ProcessEvent(MessageStart(Assistant(partial)));
      case Delta(partial) =>
        if added {
          after := context[|context| - 1 := Assistant(partial)];
          sink.ProcessEvent(MessageUpdate(Assistant(partial)));
        }
    }
  }

  method Receive(sink: AgentState, base: seq<Message>, signal: Signal, response: Response)
    returns (m: AssistantMessage, after: seq<Message>, sampled: Signal)
    requires sink.Valid() && Quiet(sink.stage) && BegunOnce(response.events)
    modifies sink
    ensures sink.Valid() && sink.history == old(sink.history)
    ensures Said(m, old(sink.stage), old(sink.ended), sink.stage, sink.ended)
    ensures after == base + [Assistant(m)] && Later(signal, sampled) && Stems(m, response)
    ensures !sampled.Cancelled? ==> m == response.result
  {
    var context, added, settled := base, false, false;
    sampled := signal;
    for i := 0 to |response.events|
      invariant sink.Valid() && sink.history == old(sink.history) && sink.ended == old(sink.ended)
      invariant Streaming(base, context, added, sink.stage) && Later(signal, sampled)
      invariant sink.stage == old(sink.stage).(open := sink.stage.open)
      invariant if added then NoneBegunIn(response.events, i, |response.events|) else NoneBegunIn(response.events, 0, i)
    {
      sampled := Poll(sampled);
      if sampled.Cancelled? {
        m, after := FinishCancelledResponse(sink, context, added, base);
        return;
      }
      if response.events[i].Settled? {
        settled := true;
        break;
      }
      context, added := Show(sink, context, added, response.events[i], base);
    }
    if !settled {
      sampled := Poll(sampled);
      if sampled.Cancelled? {
        m, after := FinishCancelledResponse(sink, context, added, base);
        return;
      }
    }
    m := response.result;
    after := FinishAssistantMessage(sink, context, m, added, base);
  }
}
