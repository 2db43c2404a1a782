/** Whole runs: prompted or continued, and the lifecycle around them. */
module AgentRun {
  import opened Results
  import opened AgentTypes
  import opened AgentTrace
  import opened ToolBatches
  import opened AssistantStream
  import opened MessageQueues
  import opened AgentRecord
  import opened AgentLoop

  /** `Finished`: the loop ran to its end. `NoStream`: there was nothing to ask, so the turn stays open. `Unfinished`:
      the scripted responses were used up before the run was over. */
  datatype Outcome = Finished | NoStream | Unfinished

  /** What a prompted or continued run leaves behind. It is unfinished only when every scripted response has been
      played, and without a stream function nothing was. Finished and not cancelled, its turns are those the script
      plays out. */
  ghost predicate Ran(
    outcome: Outcome, given: Given, newMessages: seq<Message>, turns: Turns, trace: seq<Event>, signal: Signal)
  {
    && MessageEnds(trace) == newMessages
    && newMessages == given.prompts + Transcript(turns)
    && GoodTurns(turns, given.config.keyOf)
    && match outcome
       case Finished => Complete(trace, newMessages) && EndsWell(given, turns, signal)
       case NoStream => turns.NoTurns? && Idle(StageOf(trace))
       case Unfinished =>
         && PlaysOut(given, turns) && Count(turns) == |given.script|
         && (Idle(StageOf(trace)) || StageOf(trace) == BetweenTurns)
  }

  lemma LoopRan(
    given: Given, starts: Starts, ended: bool, l: Locals, log: Log, trace: seq<Event>, stage: Stage,
    messages: seq<Message>, observed: seq<string>, steered: seq<Message>, followed: seq<Message>)
    requires RunDone(given, starts, ended, l, log, trace, stage, messages, observed, steered, followed)
    requires stage == StageOf(trace) && messages == MessageEnds(trace)
    ensures Ran(if ended then Finished else Unfinished, given, l.newMessages, log.turns, trace, l.signal)
    ensures ended && !l.signal.Cancelled? ==>
              && steered == starts.steering + Steered(log.turns) && followed == starts.followUps + Followed(log.turns)
  {
    assert (starts.steering + Steered(log.turns)) + [] == starts.steering + Steered(log.turns);
    assert (starts.followUps + Followed(log.turns)) + [] == starts.followUps + Followed(log.turns);
  }

  lemma RanLater(
    outcome: Outcome, given: Given, newMessages: seq<Message>, turns: Turns, trace: seq<Event>, signal: Signal,
    later: Signal)
    requires Ran(outcome, given, newMessages, turns, trace, signal) && Later(signal, later)
    ensures Ran(outcome, given, newMessages, turns, trace, later)
  {
  }

  lemma PromptsSpoken(prompts: seq<Message>, context: seq<Message>)
    ensures prompts + Transcript(NoTurns) == prompts && context + [] == context
  {
  }

  /** Emits the opening events and the prompts. */
  method Open(sink: AgentState, prompts: seq<Message>)
    requires sink.Valid() && sink.trace == []
    modifies sink
    ensures sink.Valid() && sink.history == old(sink.history) && sink.ended == prompts
    ensures Idle(sink.stage) && sink.stage.started == {}
  {
    sink.ProcessEvent(AgentStart);
    sink.ProcessEvent(TurnStart);
    for i := 0 to |prompts|
      invariant sink.Valid() && sink.history == old(sink.history) && sink.ended == prompts[..i]
      invariant Idle(sink.stage) && sink.stage.started == {}
    {
      sink.EmitMessage(prompts[i]);
      assert prompts[..i + 1] == prompts[..i] + [prompts[i]];
    }
    assert prompts[..|prompts|] == prompts;
  }

  /** A run from its opening events on: with fresh prompts, which are answered on their own first, or without any, when
      what is queued rides along. */
  method Run(
    sink: AgentState, steering: PendingMessageQueue, followUps: PendingMessageQueue, config: Config,
    prompts: seq<Message>, context: seq<Message>, signal: Signal, script: seq<Response>, haveStream: bool,
    drainSteeringFirst: bool)
    returns (outcome: Outcome, newMessages: seq<Message>, sampled: Signal, ghost turns: Turns)
    requires sink.Valid() && sink.trace == [] && Sendable(script)
    requires steering.Valid() && followUps.Valid() && steering != followUps
    modifies sink, steering, followUps
    ensures sink.Valid() && steering.Valid() && followUps.Valid() && Later(signal, sampled)
    ensures sink.history == old(sink.history) && sink.messages == sink.history + newMessages
    ensures Ran(outcome, Given(context, prompts, config, script), newMessages, turns, sink.trace, sampled)
    ensures outcome.NoStream? <==> !haveStream
    ensures outcome.Finished? ==> EndedFor(turns, script, sampled, steering.messages, followUps.messages)
    ensures outcome.Finished? && !sampled.Cancelled? ==>
              && steering.delivered == old(steering.delivered) + Steered(turns)
              && followUps.delivered == old(followUps.delivered) + Followed(turns)
  {
    Open(sink, prompts);
    newMessages, turns, sampled, outcome := prompts, NoTurns, signal, NoStream;
    PromptsSpoken(prompts, context);
    if haveStream {
      var ended, l;
      ghost var log, observed;
      ended, l, log, observed :=
        RunLoop(sink, steering, followUps, config, context + prompts, prompts, signal, script, drainSteeringFirst,
                context);
      LoopRan(Given(context, prompts, config, script), Starts(old(steering.delivered), old(followUps.delivered)),
              ended, l, log, sink.trace, sink.stage, sink.ended, observed, steering.delivered, followUps.delivered);
      newMessages, turns, sampled, outcome := l.newMessages, log.turns, l.signal,
        if ended then Finished else Unfinished;
    }
  }

  method RunAgentLoop(
    sink: AgentState, steering: PendingMessageQueue, followUps: PendingMessageQueue, config: Config,
    prompts: seq<Message>, context: seq<Message>, signal: Signal, script: seq<Response>, haveStream: bool)
    returns (outcome: Outcome, newMessages: seq<Message>, sampled: Signal, ghost turns: Turns)
    requires sink.Valid() && sink.trace == [] && Sendable(script)
    requires steering.Valid() && followUps.Valid() && steering != followUps
    modifies sink, steering, followUps
    ensures sink.Valid() && steering.Valid() && followUps.Valid() && Later(signal, sampled)
    ensures sink.history == old(sink.history) && sink.messages == sink.history + newMessages
    ensures Ran(outcome, Given(context, prompts, config, script), newMessages, turns, sink.trace, sampled)
    ensures outcome.NoStream? <==> !haveStream
    ensures outcome.Finished? ==> EndedFor(turns, script, sampled, steering.messages, followUps.messages)
    ensures outcome.Finished? && !sampled.Cancelled? ==>
              && steering.delivered == old(steering.delivered) + Steered(turns)
              && followUps.delivered == old(followUps.delivered) + Followed(turns)
  {
    outcome, newMessages, sampled, turns :=
      Run(sink, steering, followUps, config, prompts, context, signal, script, haveStream, false);
  }

  /** A conversation can go on from a user message or a tool result, not from nothing or from the assistant. */
  predicate CanContinue(context: seq<Message>) {
    context != [] && !context[|context| - 1].Assistant?
  }

  method RunAgentLoopContinue(
    sink: AgentState, steering: PendingMessageQueue, followUps: PendingMessageQueue, config: Config,
    context: seq<Message>, signal: Signal, script: seq<Response>, haveStream: bool)
    returns (result: Result<Outcome, string>, newMessages: seq<Message>, sampled: Signal, ghost turns: Turns)
    requires sink.Valid() && sink.trace == [] && Sendable(script)
    requires steering.Valid() && followUps.Valid() && steering != followUps
    modifies sink, steering, followUps
    ensures sink.Valid() && steering.Valid() && followUps.Valid() && Later(signal, sampled)
    ensures result.Ok? <==> CanContinue(context)
    ensures result.Err? ==> unchanged(sink) && unchanged(steering) && unchanged(followUps)
    ensures result.Ok? ==>
              && sink.history == old(sink.history) && sink.messages == sink.history + newMessages
              && Ran(result.value, Given(context, [], config, script), newMessages, turns, sink.trace, sampled)
              && (result.value.NoStream? <==> !haveStream)
    ensures result.Ok? && result.value.Finished? ==>
              EndedFor(turns, script, sampled, steering.messages, followUps.messages)
    ensures result.Ok? && result.value.Finished? && !sampled.Cancelled? ==>
              && steering.delivered == old(steering.delivered) + Steered(turns)
              && followUps.delivered == old(followUps.delivered) + Followed(turns)
  {
    newMessages, sampled, turns := [], signal, NoTurns;
    if context == [] {
      return Err("Cannot continue: no messages in context"), [], signal, NoTurns;
    }
    if context[|context| - 1].Assistant? {
      return Err("Cannot continue from message role: assistant"), [], signal, NoTurns;
    }
    var outcome;
    outcome, newMessages, sampled, turns :=
      Run(sink, steering, followUps, config, [], context, signal, script, haveStream, true);
    result := Ok(outcome);
  }
}
