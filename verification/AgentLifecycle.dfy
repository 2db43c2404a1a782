/** The agent around its runs: one run at a time, closed in every outcome, with every abort on record. */
module AgentLifecycle {
  import opened Results
  import opened AgentTypes
  import opened AgentTrace
  import opened ToolBatches
  import opened AssistantStream
  import opened MessageQueues
  import opened AgentRecord
  import opened AgentLoop
  import opened AgentRun

  /** What a run does: answer prompts, go on from the last message, or only record an abort. */
  datatype Work = Prompted(prompts: seq<Message>) | Continued | RecordAbort

  /** What the environment of a run is: its signal, the scripted responses, and whether there is a stream function. */
  datatype Setting = Setting(signal: Signal, script: seq<Response>, haveStream: bool)

  predicate AbortedMessageIn(messages: seq<Message>, from: nat) {
    exists i :: from <= i < |messages| && messages[i].Assistant? && messages[i].assistant.stopReason.Aborted?
  }

  function FailureMessage(error: string, aborted: bool): Message {
    Assistant(AssistantMessage([Prose("")], if aborted then Aborted else Error, Some(error)))
  }

  class Agent {
    const config: Config
    const state: AgentState
    const steering: PendingMessageQueue
    const followUps: PendingMessageQueue
    var activeRun: bool
    var isStreaming: bool

    ghost predicate Valid()
      reads this, state, steering, followUps
    {
      && state.Valid() && steering.Valid() && followUps.Valid() && steering != followUps
      && (!activeRun ==> !isStreaming && state.trace == [])
    }

    /** No run is going: nothing is streamed, and no tool call is pending. */
    ghost predicate AtRest()
      reads this, state
    {
      !activeRun && !isStreaming && state.streamingMessage == None && state.pendingToolCalls == {}
    }

    constructor (config: Config, messages: seq<Message>, steeringMode: Mode, followUpMode: Mode)
      ensures Valid() && AtRest() && state.messages == messages
      ensures fresh(state) && fresh(steering) && fresh(followUps)
    {
      this.config := config;
      activeRun, isStreaming := false, false;
      state := new AgentState(messages);
      steering := new PendingMessageQueue(steeringMode);
      followUps := new PendingMessageQueue(followUpMode);
    }

    /** Puts a failure on record as an assistant message of its own. */
    method HandleRunFailure(error: string, aborted: bool)
      requires state.Valid()
      modifies state
      ensures state.Valid() && state.messages == old(state.messages) + [FailureMessage(error, aborted)]
      ensures state.errorMessage == Some(error)
    {
      var m := FailureMessage(error, aborted);
      state.ProcessEvent(MessageStart(m));
      state.ProcessEvent(MessageEnd(m));
      state.ProcessEvent(TurnEnd(m, []));
      state.ProcessEvent(AgentEnd([m]));
      NothingAdded(old(state.messages), m);
    }

    static lemma NothingAdded(before: seq<Message>, m: Message)
      ensures (((before + []) + [m]) + []) + [] == before + [m]
      ensures before + [] == before
    {
    }

    method FinishRun()
      requires state.Valid()
      modifies this, state
      ensures state.Valid() && state.trace == [] && AtRest()
      ensures state.messages == old(state.messages) && state.errorMessage == old(state.errorMessage)
    {
      isStreaming := false;
      state.EndRun();
      activeRun := false;
    }

    /** What a run of this work is given. */
    function GivenTo(work: Work, messages: seq<Message>, setting: Setting): Given {
      Given(messages, if work.Prompted? then work.prompts else [], config, setting.script)
    }

    /** Runs the work. A failure says why nothing was run. */
    method Execute(work: Work, setting: Setting)
      returns (result: Result<Outcome, string>, newMessages: seq<Message>, sampled: Signal, ghost turns: Turns)
      requires state.Valid() && steering.Valid() && followUps.Valid() && steering != followUps && state.trace == []
      requires Sendable(setting.script)
      modifies state, steering, followUps
      ensures state.Valid() && steering.Valid() && followUps.Valid() && state.history == old(state.history)
      ensures Later(setting.signal, sampled) || work.RecordAbort?
      ensures result.Err? ==> state.trace == [] && state.messages == old(state.messages)
      ensures result.Ok? ==>
                && !work.RecordAbort? && state.messages == state.history + newMessages
                && Ran(result.value, GivenTo(work, old(state.messages), setting), newMessages, turns, state.trace, sampled)
                && (result.value.NoStream? <==> !setting.haveStream)
      ensures result == Ok(Finished) ==>
                EndedFor(turns, setting.script, sampled, steering.messages, followUps.messages)
      ensures work.RecordAbort? ==> result.Err? && sampled.Cancelled?
      ensures result.Err? ==> work.RecordAbort? || (work.Continued? && !CanContinue(old(state.messages)))
    {
      var context := state.messages;
      match work {
        case Prompted(prompts) =>
          var outcome;
          outcome, newMessages, sampled, turns := RunAgentLoop(
            state, steering, followUps, config, prompts, context, setting.signal, setting.script, setting.haveStream);
          result := Ok(outcome);
        case Continued =>
          result, newMessages, sampled, turns := RunAgentLoopContinue(
            state, steering, followUps, config, context, setting.signal, setting.script, setting.haveStream);
        case RecordAbort =>
          result, newMessages, sampled, turns := Err(ABORTED), [], Cancelled, NoTurns;
      }
    }

    /** Whether the messages from `first` on hold an aborted assistant message. */
    method AbortRecorded(first: nat) returns (recorded: bool)
      requires first <= |state.messages|
      ensures recorded <==> AbortedMessageIn(state.messages, first)
    {
      recorded := false;
      for i := first to |state.messages|
        invariant recorded <==> AbortedMessageIn(state.messages[..i], first)
      {
        var m := state.messages[i];
        if m.Assistant? && m.assistant.stopReason.Aborted? {
          assert state.messages[..i + 1][i] == m;
          recorded := true;
        }
        SameSoFar(state.messages, i, first);
      }
      assert state.messages[..|state.messages|] == state.messages;
    }

    static lemma SameSoFar(messages: seq<Message>, i: nat, first: nat)
      requires first <= i < |messages|
      ensures AbortedMessageIn(messages[..i + 1], first) <==>
              AbortedMessageIn(messages[..i], first) ||
              (messages[i].Assistant? && messages[i].assistant.stopReason.Aborted?)
    {
      if AbortedMessageIn(messages[..i], first) {
        var k :| first <= k < i && messages[..i][k].Assistant? && messages[..i][k].assistant.stopReason.Aborted?;
        assert messages[..i + 1][k] == messages[..i][k];
      }
      if messages[i].Assistant? && messages[i].assistant.stopReason.Aborted? {
        assert messages[..i + 1][i] == messages[i];
      }
      if AbortedMessageIn(messages[..i + 1], first) {
        var k :| first <= k < i + 1 && messages[..i + 1][k].Assistant? &&
                 messages[..i + 1][k].assistant.stopReason.Aborted?;
        if k < i {
          assert messages[..i][k] == messages[..i + 1][k];
        }
      }
    }

    /** A cancellation that left no aborted message gets one now; then the run is closed. */
    method CloseRun(signal: Signal, first: nat) returns (sampled: Signal, ghost added: seq<Message>)
      requires state.Valid() && first <= |state.messages|
      modifies this, state
      ensures state.Valid() && state.trace == [] && AtRest() && Later(signal, sampled)
      ensures state.messages == old(state.messages) + added
      ensures sampled.Cancelled? ==> AbortedMessageIn(state.messages, first)
      ensures added == if sampled.Cancelled? && !AbortedMessageIn(old(state.messages), first)
                       then [FailureMessage(ABORTED, true)] else []
    {
      var recorded := AbortRecorded(first);
      sampled := Poll(signal);
      added := [];
      assert state.messages + [] == state.messages;
      if sampled.Cancelled? && !recorded {
        HandleRunFailure(ABORTED, true);
        added := [FailureMessage(ABORTED, true)];
        assert state.messages[|old(state.messages)|].Assistant?;
      }
      FinishRun();
    }

    /** Puts a failure on record, and closes the run. */
    method CloseAfter(done: Result<Outcome, string>, signal: Signal, first: nat)
      returns (sampled: Signal, ghost added: seq<Message>)
      requires state.Valid() && first <= |state.messages|
      modifies this, state
      ensures state.Valid() && state.trace == [] && AtRest() && Later(signal, sampled)
      ensures state.messages == old(state.messages) + added
      ensures sampled.Cancelled? ==> AbortedMessageIn(state.messages, first)
      ensures !sampled.Cancelled? ==> added == if done.Ok? then [] else [FailureMessage(done.error, false)]
    {
      sampled := signal;
      ghost var failure: seq<Message> := [];
      assert state.messages + [] == state.messages;
      if done.Err? {
        sampled := Poll(sampled);
        failure := [FailureMessage(done.error, sampled.Cancelled?)];
        HandleRunFailure(done.error, sampled.Cancelled?);
      }
      sampled, added := CloseRun(sampled, first);
      ConcatAssoc(old(state.messages), failure, added);
      added := failure + added;
    }

    /** One run from start to finish: the agent is at rest afterwards, however the run went; what was said before is
        still there; a cancelled run has an aborted message on record; and a run that went well without being
        cancelled adds exactly its new messages. `finished` is false only for a run whose scripted responses were used
        up. */
    method RunWithLifecycle(work: Work, setting: Setting)
      returns (finished: bool, result: Result<(), string>, sampled: Signal, ghost outcome: Result<Outcome, string>,
               ghost newMessages: seq<Message>, ghost turns: Turns, ghost events: seq<Event>)
      requires Valid() && Sendable(setting.script)
      modifies this, state, steering, followUps
      ensures finished ==> Valid() && old(state.messages) <= state.messages
      ensures result.Err? <==> old(activeRun)
      ensures result.Err? ==> finished && unchanged(this) && unchanged(state) && unchanged(steering) && unchanged(followUps)
      ensures finished && result.Ok? ==> AtRest()
      ensures finished && result.Ok? && sampled.Cancelled? ==> AbortedMessageIn(state.messages, |old(state.messages)|)
      ensures result.Ok? && outcome.Ok? ==>
                && !work.RecordAbort?
                && Ran(outcome.value, GivenTo(work, old(state.messages), setting), newMessages, turns, events, sampled)
                && (outcome.value.NoStream? <==> !setting.haveStream)
      ensures Later(setting.signal, sampled) || (work.RecordAbort? && sampled.Cancelled?)
      ensures result.Ok? && outcome == Ok(Finished) ==>
                EndedFor(turns, setting.script, sampled, steering.messages, followUps.messages)
      ensures result.Ok? && outcome.Err? ==> work.RecordAbort? || (work.Continued? && !CanContinue(old(state.messages)))
      ensures !finished ==>
                && result.Ok? && outcome == Ok(Unfinished)
                && state.trace == events && state.messages == old(state.messages) + newMessages
      ensures finished && result.Ok? && outcome.Ok? ==>
                outcome.value != Unfinished && old(state.messages) + newMessages <= state.messages
      ensures finished && result.Ok? && !sampled.Cancelled? ==>
                state.messages == old(state.messages) +
                  if outcome.Ok? then newMessages else [FailureMessage(outcome.error, false)]
    {
      finished, outcome, newMessages, turns, events, sampled := true, Ok(NoStream), [], NoTurns, [], setting.signal;
      if activeRun {
        return true, Err("Agent is already processing."), sampled, outcome, [], NoTurns, [];
      }
      result := Ok(());
      activeRun := true;
      state.BeginRun();
      isStreaming := true;
      var first := |state.messages|;
      var done, said;
      done, said, sampled, turns := Execute(work, setting);
      outcome, newMessages, events := done, said, state.trace;
      if done == Ok(Unfinished) {
        return false, result, sampled, outcome, newMessages, turns, events;
      }
      ghost var added, before;
      before := sampled;
      sampled, added := CloseAfter(done, sampled, first);
      if done.Ok? {
        RanLater(done.value, GivenTo(work, old(state.messages), setting), newMessages, turns, events, before, sampled);
      }
    }

    /** What continuing means now: after an assistant message, what is queued becomes the prompt, steering before
        follow-ups; it fails, without draining anything, only if there is nothing to go on with. */
    method ChooseContinuation() returns (work: Result<Work, string>)
      requires Valid() && !activeRun
      modifies steering, followUps
      ensures Valid() && steering.enqueued == old(steering.enqueued) && followUps.enqueued == old(followUps.enqueued)
      ensures work == Ok(Continued) <==> CanContinue(state.messages)
      ensures work.Err? <==>
              state.messages == [] || (state.messages[|state.messages| - 1].Assistant? &&
                                       old(steering.messages) == [] && old(followUps.messages) == [])
      ensures work.Ok? && work.value.Prompted? ==>
                if old(steering.messages) != [] then
                  && steering.delivered == old(steering.delivered) + work.value.prompts
                  && followUps.delivered == old(followUps.delivered)
                else
                  && steering.delivered == old(steering.delivered)
                  && followUps.delivered == old(followUps.delivered) + work.value.prompts
      ensures !(work.Ok? && work.value.Prompted?) ==>
                steering.delivered == old(steering.delivered) && followUps.delivered == old(followUps.delivered)
      ensures work.Ok? ==> !work.value.RecordAbort?
    {
      if state.messages == [] {
        return Err("No messages to continue from");
      }
      if !state.messages[|state.messages| - 1].Assistant? {
        return Ok(Continued);
      }
      var queued := steering.Drain();
      if queued != [] {
        return Ok(Prompted(queued));
      }
      assert old(steering.delivered) + [] == old(steering.delivered);
      queued := followUps.Drain();
      if queued != [] {
        return Ok(Prompted(queued));
      }
      assert old(followUps.delivered) + [] == old(followUps.delivered);
      work := Err("Cannot continue from message role: assistant");
    }
  }
}
