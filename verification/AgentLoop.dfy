/**
 The shared loop body of a run: turns of one assistant response and its tool calls, until nothing is left to do, the
 run fails, or it is cancelled. The responses of the provider are a finite script; a run whose script is used up
 stops at the head of the inner loop, so every claim about that point holds for every prefix of every run.
 */
module AgentLoop {
  import opened Results
  import opened AgentTypes
  import opened AgentTrace
  import opened RepeatBreaking
  import opened ToolBatches
  import opened ParallelBatches
  import opened AssistantStream
  import opened MessageQueues
  import opened AgentRecord

  /** The run is closed: its one `AgentEnd` was the last event and carried the new messages. */
  ghost predicate Closed(trace: seq<Event>, stage: Stage, ended: seq<Message>, newMessages: seq<Message>) {
    && stage == Over && ended == newMessages
    && trace != [] && trace[|trace| - 1] == AgentEnd(newMessages)
  }

  // ----- ways to end -----

  /** Records the abort as a message of its own and closes the run. */
  method FinishCancelledTurn(sink: AgentState, context: seq<Message>, newMessages: seq<Message>)
    returns (after: seq<Message>, all: seq<Message>)
    requires sink.Valid() && Idle(sink.stage) && sink.ended == newMessages
    modifies sink
    ensures sink.Valid() && sink.history == old(sink.history)
    ensures all == newMessages + [Assistant(AbortedMessage(None))]
    ensures after == context + [Assistant(AbortedMessage(None))]
    ensures Closed(sink.trace, sink.stage, sink.ended, all)
  {
    var m := AbortedMessage(None);
    after := FinishAssistantMessage(sink, context, m, false, context);
    all := newMessages + [Assistant(m)];
    EndsWithTail(old(sink.stage).said, m, []);
    sink.ProcessEvent(TurnEnd(Assistant(m), []));
    sink.ProcessEvent(AgentEnd(all));
  }

  lemma EndsWithTail(said: seq<Message>, m: AssistantMessage, results: seq<ToolResultMessage>)
    ensures EndsWith((said + [Assistant(m)]) + Responses(results), [Assistant(m)] + Responses(results))
    ensures results == [] ==> EndsWith(said + [Assistant(m)], [Assistant(m)] + Responses(results))
  {
    var all := (said + [Assistant(m)]) + Responses(results);
    assert all[|said|..] == [Assistant(m)] + Responses(results);
    if results == [] {
      assert all == said + [Assistant(m)];
    }
  }

  /** A cancellation noticed between turns gets a turn of its own. */
  method FinishCancelledAfterTurn(sink: AgentState, context: seq<Message>, newMessages: seq<Message>, signal: Signal)
    returns (done: bool, after: seq<Message>, all: seq<Message>, sampled: Signal)
    requires sink.Valid() && sink.stage == BetweenTurns && sink.ended == newMessages
    modifies sink
    ensures sink.Valid() && sink.history == old(sink.history) && Later(signal, sampled)
    ensures !done ==> unchanged(sink) && after == context && all == newMessages && !sampled.Cancelled?
    ensures done ==> sampled.Cancelled? && all == newMessages + [Assistant(AbortedMessage(None))]
                     && Closed(sink.trace, sink.stage, sink.ended, all)
  {
    sampled := Poll(signal);
    done, after, all := sampled.Cancelled?, context, newMessages;
    if done {
      sink.ProcessEvent(TurnStart);
      after, all := FinishCancelledTurn(sink, context, newMessages);
    }
  }

  // ----- one turn -----

  /** The queued messages join the run before the request; they are user input, so any streak is forgotten. */
  method Inject(
    sink: AgentState, breaker: RepeatBreaker, context: seq<Message>, newMessages: seq<Message>,
    pending: seq<Message>)
    returns (after: seq<Message>, all: seq<Message>)
    requires sink.Valid() && breaker.Valid() && Idle(sink.stage) && sink.ended == newMessages
    requires sink.stage.started == {}
    modifies sink, breaker
    ensures sink.Valid() && sink.history == old(sink.history) && breaker.Valid()
    ensures Idle(sink.stage) && sink.stage.started == {} && sink.ended == all
    ensures after == context + pending && all == newMessages + pending
    ensures pending == [] ==> breaker.observed == old(breaker.observed)
    ensures pending != [] ==> breaker.observed == []
  {
    after, all := context, newMessages;
    if pending != [] {
      breaker.Reset();
      for i := 0 to |pending|
        invariant sink.Valid() && sink.history == old(sink.history) && Idle(sink.stage) && sink.ended == all
        invariant sink.stage.started == {}
        invariant breaker.Valid() && breaker.observed == []
        invariant after == context + pending[..i] && all == newMessages + pending[..i]
      {
        sink.EmitMessage(pending[i]);
        assert pending[..i + 1] == pending[..i] + [pending[i]];
        ConcatAssoc(context, pending[..i], [pending[i]]);
        ConcatAssoc(newMessages, pending[..i], [pending[i]]);
        after, all := after + [pending[i]], all + [pending[i]];
      }
      assert pending[..|pending|] == pending;
    } else {
      assert context + pending == context && newMessages + pending == newMessages;
    }
  }

  /** At most the stop threshold, in every run. */
  ghost predicate Bounded(breaker: RepeatBreaker)
    reads breaker
  {
    breaker.Valid() && breaker.streak <= STOP_AT
  }

  /** Takes the handoff, then refuses or runs the calls of a response. */
  method RunCalls(
    sink: AgentState, breaker: RepeatBreaker, config: Config, m: AssistantMessage, tools: Tools, signal: Signal)
    returns (batch: Batch, refused: bool, sampled: Signal)
    requires sink.Valid() && Idle(sink.stage) && Bounded(breaker) && !Failed(m) && breaker.keyOf == config.keyOf
    modifies sink, breaker
    ensures sink.Valid() && sink.history == old(sink.history) && Bounded(breaker) && Later(signal, sampled)
    ensures Answered(CallsOf(m.content), batch.results, old(sink.stage), old(sink.ended), sink.stage, sink.ended)
    ensures refused == old(breaker.handoffPending)
    ensures breaker.observed ==
            if refused then []
            else old(breaker.observed) +
                 Deduped(if m.stopReason.Length? then [] else Keys(CallsOf(m.content), config.keyOf))
    ensures CallsOf(m.content) == [] ==> batch.terminate
    ensures refused ==> batch.terminate && Refused(config, CallsOf(m.content), TextOnly, batch.results)
    ensures !refused && m.stopReason.Length? && CallsOf(m.content) != [] ==>
              !batch.terminate && Refused(config, CallsOf(m.content), Truncated, batch.results)
    ensures !refused && !m.stopReason.Length? && CallsOf(m.content) != [] ==>
              Executed(config, CallsOf(m.content), JobsDue(config, CallsOf(m.content), tools, old(breaker.observed)),
                       sampled, batch)
    ensures !sampled.Cancelled? ==> batch == BatchDue(config, m, tools, refused, old(breaker.observed))
  {
    var calls := CallsOf(m.content);
    sampled := signal;
    refused := breaker.TakeHandoff();
    assert Streak([]) == 0 && old(breaker.observed) + Deduped([]) == old(breaker.observed);
    if calls == [] {
      batch := Batch([], true);
      assert sink.stage.said + [] == sink.stage.said && sink.ended + [] == sink.ended;
    } else if refused {
      batch := RejectToolCalls(sink, config, calls, TextOnly, true);
      RefusedIs(config, calls, TextOnly, batch);
    } else if m.stopReason.Length? {
      batch := RejectToolCalls(sink, config, calls, Truncated, false);
      RefusedIs(config, calls, Truncated, batch);
    } else {
      ghost var before := breaker.observed;
      var nudges := breaker.Observe(calls);
      BatchBound(before, Keys(calls, breaker.keyOf));
      ghost var finalized;
      batch, sampled, finalized := ExecuteToolCalls(sink, config, calls, JobsFor(nudges, tools), sampled);
      if !sampled.Cancelled? {
        ExecutedIsDue(config, calls, JobsDue(config, calls, tools, before), sampled, batch);
      }
    }
  }

  lemma RefusedIs(config: Config, calls: seq<ToolCall>, reason: Reason, batch: Batch)
    requires Refused(config, calls, reason, batch.results)
    ensures batch == RefusedBatch(config, calls, reason, batch.terminate)
  {
    assert batch.results == RefusedBatch(config, calls, reason, batch.terminate).results;
  }

  /** Everything a turn does after a response that did not fail: the calls, their results in the context, and the
      end of the turn. */
  method FinishTurn(
    sink: AgentState, breaker: RepeatBreaker, config: Config, context: seq<Message>, newMessages: seq<Message>,
    m: AssistantMessage, tools: Tools, signal: Signal, ghost said: seq<Message>)
    returns (after: seq<Message>, all: seq<Message>, more: bool, sampled: Signal, ghost t: Turn)
    requires sink.Valid() && Idle(sink.stage) && Bounded(breaker) && !Failed(m) && breaker.keyOf == config.keyOf
    requires sink.stage.said == said + [Assistant(m)] && sink.ended == newMessages
    modifies sink, breaker
    ensures sink.Valid() && sink.history == old(sink.history) && Bounded(breaker) && Later(signal, sampled)
    ensures sink.stage == BetweenTurns && sink.ended == all
    ensures t.steered == t.followed == [] && GoodTurn(t) && t.more == more && t.assistant == m
    ensures t.refused == old(breaker.handoffPending) && t.armed == breaker.handoffPending
    ensures breaker.observed ==
            if t.refused then [] else old(breaker.observed) + Deduped(KeysOf(t, breaker.keyOf))
    ensures after == context + Responses(t.results) && all == newMessages + Responses(t.results)
    ensures !sampled.Cancelled? ==> CallsDue(config, t, tools, old(breaker.observed))
  {
    var batch, refused;
    batch, refused, sampled := RunCalls(sink, breaker, config, m, tools, signal);
    more := CallsOf(m.content) != [] && !batch.terminate;
    after, all := context + Responses(batch.results), newMessages + Responses(batch.results);
    EndsWithTail(said, m, batch.results);
    sink.ProcessEvent(TurnEnd(Assistant(m), batch.results));
    t := Turn([], [], m, batch.results, refused, breaker.handoffPending, more);
  }

  // ----- between turns -----

  /** How the wait between two turns ended. */
  datatype Ending = Going | Stopped | Aborting

  /** After a turn: the hooks and the steering poll, with a check for cancellation after each of them. */
  method AfterTurn(
    sink: AgentState, steering: PendingMessageQueue, context: seq<Message>, newMessages: seq<Message>, signal: Signal,
    hooks: Hooks)
    returns (ending: Ending, after: seq<Message>, all: seq<Message>, pending: seq<Message>, sampled: Signal)
    requires sink.Valid() && sink.stage == BetweenTurns && sink.ended == newMessages && steering.Valid()
    modifies sink, steering
    ensures sink.Valid() && sink.history == old(sink.history) && steering.Valid() && Later(signal, sampled)
    ensures ending.Going? ==> sink.stage == BetweenTurns && sink.ended == all == newMessages && !hooks.stop
                              && steering.delivered == old(steering.delivered) + pending
                              && after == hooks.next(context) && !sampled.Cancelled?
                              && (pending == [] ==> steering.messages == [])
    ensures ending.Stopped? ==> Closed(sink.trace, sink.stage, sink.ended, all) && all == newMessages && hooks.stop
                                && steering.delivered == old(steering.delivered) && !sampled.Cancelled?
    ensures ending.Aborting? ==> Closed(sink.trace, sink.stage, sink.ended, all) && sampled.Cancelled?
                                 && all == newMessages + [Assistant(AbortedMessage(None))]
  {
    var done;
    ending, pending := Aborting, [];
    done, after, all, sampled := FinishCancelledAfterTurn(sink, context, newMessages, signal);
    if done {
      return;
    }
    after := hooks.next(context);
    done, after, all, sampled := FinishCancelledAfterTurn(sink, after, newMessages, sampled);
    if done {
      return;
    }
    var stop := hooks.stop;
    done, after, all, sampled := FinishCancelledAfterTurn(sink, after, newMessages, sampled);
    if done {
      return;
    }
    if stop {
      sink.ProcessEvent(AgentEnd(newMessages));
      ending := Stopped;
      return;
    }
    pending := steering.Poll();
    done, after, all, sampled := FinishCancelledAfterTurn(sink, after, newMessages, sampled);
    if done {
      return;
    }
    ending := Going;
  }

  // ----- the loops -----

  /** The local variables of the loop. */
  datatype Locals = Locals(
    context: seq<Message>, newMessages: seq<Message>, pending: seq<Message>, hasMore: bool, signal: Signal)

  /** What the run has done: its turns, and where the pending messages come from. */
  datatype Log = Log(turns: Turns, steered: seq<Message>, followed: seq<Message>)

  /** The next response. */
  ghost predicate Plays(given: Given, g: Log, response: Response) {
    Count(g.turns) < |given.script| && response == given.script[Count(g.turns)]
  }

  /** What holds at every head of the inner loop, cancelled or not: the turns so far play out, and the context is what
      the hooks made of them. */
  ghost predicate AtHead(given: Given, l: Locals, g: Log, ended: seq<Message>, observed: seq<string>) {
    && ended == l.newMessages == given.prompts + Transcript(g.turns)
    && l.context == ContextOf(given, g.turns)
    && GoodTurns(g.turns, given.config.keyOf) && PlaysOut(given, g.turns)
    && observed == ObservedAfter(g.turns, given.config.keyOf)
    && l.pending == g.steered + g.followed && (g.steered == [] || g.followed == [])
    && (g.turns.Snoc? ==>
          && !Failed(g.turns.last.assistant) && !AskedToStop(g.turns, given.script)
          && (g.followed != [] ==> !g.turns.last.more)
          && (l.pending == [] && l.hasMore ==> g.turns.last.more))
  }

  /** What holds when the run has ended. */
  ghost predicate AtEnd(given: Given, signal: Signal, all: seq<Message>, turns: Turns, trace: seq<Event>, stage: Stage,
                        ended: seq<Message>)
  {
    && Closed(trace, stage, ended, all)
    && all == given.prompts + Transcript(turns)
    && GoodTurns(turns, given.config.keyOf) && EndsWell(given, turns, signal)
  }

  lemma CancelledSpeaks(prompts: seq<Message>, turns: Turns)
    ensures prompts + Transcript(turns) + [Assistant(AbortedMessage(None))]
            == prompts + Transcript(Snoc(turns, CancelledTurn()))
  {
    var t := CancelledTurn();
    SpeaksOnly(t, [Assistant(AbortedMessage(None))]);
    ConcatAssoc(prompts, Transcript(turns), Spoken(t));
  }

  lemma SpeaksOnly(t: Turn, m: seq<Message>)
    requires m == [Assistant(t.assistant)] && Injected(t) == [] && t.results == []
    ensures Spoken(t) == m
  {
  }

  lemma Grown(before: seq<Message>, injected: seq<Message>, m: seq<Message>, results: seq<Message>)
    ensures ((before + injected) + m) + results == before + (injected + m + results)
  {
  }

  /** A turn that was injected to, answered, and finished, joins the record. */
  lemma TurnRecorded(given: Given, g: Log, t: Turn, before: seq<Message>)
    requires before == given.prompts + Transcript(g.turns)
    ensures ((before + Injected(t)) + [Assistant(t.assistant)]) + Responses(t.results)
            == given.prompts + Transcript(Snoc(g.turns, t))
  {
    Grown(before, Injected(t), [Assistant(t.assistant)], Responses(t.results));
    ConcatAssoc(given.prompts, Transcript(g.turns), Spoken(t));
  }

  /** The record after this turn: what was injected has been used up. */
  ghost predicate UsedUp(g: Log, turns: Turns) {
    Steered(turns) == Steered(g.turns) + g.steered && Followed(turns) == Followed(g.turns) + g.followed
  }

  /** A failed response closes the run at once. */
  method FinishFailed(sink: AgentState, newMessages: seq<Message>, m: AssistantMessage, ghost said: seq<Message>)
    requires sink.Valid() && Idle(sink.stage) && sink.ended == newMessages
    requires sink.stage.said == said + [Assistant(m)]
    modifies sink
    ensures sink.Valid() && sink.history == old(sink.history)
    ensures Closed(sink.trace, sink.stage, sink.ended, newMessages)
  {
    EndsWithTail(said, m, []);
    sink.ProcessEvent(TurnEnd(Assistant(m), []));
    sink.ProcessEvent(AgentEnd(newMessages));
  }

  /** A response with this context: when the run is not cancelled, it is the one the script has. */
  predicate Genuine(response: Response, context: seq<Message>, signal: Signal, m: AssistantMessage) {
    Stems(m, response) && (!signal.Cancelled? ==> m == Sent(response, context))
  }

  lemma FailedRecorded(given: Given, l: Locals, g: Log, ended: seq<Message>, observed: seq<string>,
                       m: AssistantMessage, signal: Signal)
    requires AtHead(given, l, g, ended, observed) && Failed(m) && Count(g.turns) < |given.script|
    requires Genuine(given.script[Count(g.turns)], l.context + l.pending, signal, m)
    ensures var turns := Snoc(g.turns, Turn(g.steered, g.followed, m, [], false, false, false));
            && (l.newMessages + l.pending) + [Assistant(m)] == given.prompts + Transcript(turns)
            && GoodTurns(turns, given.config.keyOf) && UsedUp(g, turns) && EndsWell(given, turns, signal)
  {
    var t := Turn(g.steered, g.followed, m, [], false, false, false);
    TurnRecorded(given, g, t, l.newMessages);
    NoResults((l.newMessages + l.pending) + [Assistant(m)]);
    if !signal.Cancelled? {
      assert PlaysNext(given, g.turns, t);
    }
  }

  lemma NoResults(s: seq<Message>)
    ensures s + Responses([]) == s
  {
  }

  /** A finished turn joins the record; `before` is what was observed once the queued messages had joined. */
  lemma FinishedRecorded(
    given: Given, l: Locals, g: Log, ended: seq<Message>, observed: seq<string>, before: seq<string>, t: Turn,
    after: seq<string>)
    requires AtHead(given, l, g, ended, observed) && GoodTurn(t) && !Failed(t.assistant)
    requires t.steered == g.steered && t.followed == g.followed
    requires l.pending == [] ==> before == observed && (g.turns.Snoc? ==> l.hasMore)
    requires l.pending != [] ==> before == []
    requires t.refused == Reached(before, STOP_AT)
    requires t.armed == Reached(after, STOP_AT)
    requires after == if t.refused then [] else before + Deduped(KeysOf(t, given.config.keyOf))
    ensures after == ObservedAfter(Snoc(g.turns, t), given.config.keyOf)
    ensures GoodTurns(Snoc(g.turns, t), given.config.keyOf) && UsedUp(g, Snoc(g.turns, t))
    ensures ((l.newMessages + l.pending) + [Assistant(t.assistant)]) + Responses(t.results)
            == given.prompts + Transcript(Snoc(g.turns, t))
  {
    TurnRecorded(given, g, t, l.newMessages);
  }

  /** The first turn is open already when the loop is entered; any other is started by the loop. */
  predicate Poised(s: Stage, first: bool) {
    if first then Idle(s) && s.started == {} else s == BetweenTurns
  }

  /** The queued messages, and the final message of the response. */
  method Ask(
    sink: AgentState, breaker: RepeatBreaker, l: Locals, signal: Signal, response: Response)
    returns (m: AssistantMessage, context: seq<Message>, all: seq<Message>, sampled: Signal, ghost said: seq<Message>)
    requires sink.Valid() && Bounded(breaker) && BegunOnce(response.events) && sink.ended == l.newMessages
    requires Idle(sink.stage) && sink.stage.started == {}
    modifies sink, breaker
    ensures sink.Valid() && sink.history == old(sink.history) && Bounded(breaker) && Later(signal, sampled)
    ensures Idle(sink.stage) && sink.stage.said == said + [Assistant(m)] && sink.ended == all
    ensures all == (l.newMessages + l.pending) + [Assistant(m)]
    ensures Genuine(response, l.context + l.pending, sampled, m)
    ensures !sampled.Cancelled? ==> context == PromptOf(response.hooks, l.context + l.pending) + [Assistant(m)]
    ensures breaker.observed == if l.pending == [] then old(breaker.observed) else []
  {
    context, all := Inject(sink, breaker, l.context, l.newMessages, l.pending);
    said := sink.stage.said;
    m, context, sampled := StreamAssistantResponse(sink, context, signal, response);
    all := all + [Assistant(m)];
  }

  /** The rest of a round after a response that did not fail. */
  method FinishAndWait(
    sink: AgentState, breaker: RepeatBreaker, steering: PendingMessageQueue, config: Config, m: AssistantMessage,
    context: seq<Message>, newMessages: seq<Message>, signal: Signal, response: Response, ghost said: seq<Message>)
    returns (ending: Ending, after: Locals, ghost t: Turn)
    requires sink.Valid() && Bounded(breaker) && steering.Valid() && !Failed(m) && breaker.keyOf == config.keyOf
    requires Idle(sink.stage) && sink.stage.said == said + [Assistant(m)] && sink.ended == newMessages
    modifies sink, breaker, steering
    ensures sink.Valid() && sink.history == old(sink.history) && Bounded(breaker) && steering.Valid()
    ensures Later(signal, after.signal)
    ensures t.steered == t.followed == [] && GoodTurn(t) && t.more == after.hasMore && t.assistant == m
    ensures t.refused == old(breaker.handoffPending) && t.armed == breaker.handoffPending
    ensures breaker.observed ==
            if t.refused then [] else old(breaker.observed) + Deduped(KeysOf(t, config.keyOf))
    ensures ending.Going? ==> sink.stage == BetweenTurns && sink.ended == after.newMessages
                              && steering.delivered == old(steering.delivered) + after.pending
                              && (after.pending == [] ==> steering.messages == [])
                              && after.context == response.hooks.next(context + Responses(t.results))
    ensures !ending.Going? ==> Closed(sink.trace, sink.stage, sink.ended, after.newMessages)
    ensures ending.Stopped? ==> steering.delivered == old(steering.delivered)
    ensures if ending.Aborting? then after.signal.Cancelled?
            else !after.signal.Cancelled? && CallsDue(config, t, response.tools, old(breaker.observed))
                 && response.hooks.stop == ending.Stopped?
    ensures after.newMessages == (newMessages + Responses(t.results)) +
                                 if ending.Aborting? then [Assistant(AbortedMessage(None))] else []
  {
    var finished, all, more, sampled, pending;
    finished, all, more, sampled, t :=
      FinishTurn(sink, breaker, config, context, newMessages, m, response.tools, signal, said);
    assert all + [] == all;
    ending, finished, all, pending, sampled := AfterTurn(sink, steering, finished, all, sampled, response.hooks);
    after := Locals(finished, all, pending, more, sampled);
  }

  /** The turn `t` is the one that comes next. */
  lemma TurnPlays(given: Given, l: Locals, g: Log, ended: seq<Message>, observed: seq<string>, before: seq<string>,
                  t: Turn)
    requires AtHead(given, l, g, ended, observed) && Count(g.turns) < |given.script|
    requires t.steered == g.steered && t.followed == g.followed && before == if l.pending == [] then observed else []
    requires t.assistant == Sent(given.script[Count(g.turns)], l.context + l.pending)
    requires CallsDue(given.config, t, given.script[Count(g.turns)].tools, before)
    ensures PlaysOut(given, Snoc(g.turns, t))
  {
    assert l.pending == Injected(t);
    assert before == CountedBefore(given, g.turns, t);
    assert PlaysNext(given, g.turns, t);
  }

  lemma HeadAgain(given: Given, l: Locals, g: Log, ended: seq<Message>, observed: seq<string>, t: Turn,
                  after: Locals, log: Log, now: seq<string>)
    requires AtHead(given, l, g, ended, observed) && t.more == after.hasMore && !Failed(t.assistant)
    requires t.steered == g.steered && t.followed == g.followed
    requires ((l.newMessages + l.pending) + [Assistant(t.assistant)]) + Responses(t.results)
             == given.prompts + Transcript(Snoc(g.turns, t)) == after.newMessages
    requires GoodTurns(Snoc(g.turns, t), given.config.keyOf)
    requires now == ObservedAfter(Snoc(g.turns, t), given.config.keyOf)
    requires log.turns == Snoc(g.turns, t) && log.steered == after.pending && log.followed == []
    requires PlaysOut(given, Snoc(g.turns, t)) && Count(g.turns) < |given.script|
    requires !given.script[Count(g.turns)].hooks.stop
    requires after.context == ContextAfter(given.script[Count(g.turns)], l.context, t)
    ensures AtHead(given, after, log, after.newMessages, now)
  {
    assert after.pending + [] == after.pending;
  }

  /** The turns of a run that ended in this round: one more, and one for a cancellation. */
  predicate Extends(before: Turns, turns: Turns) {
    && turns.Snoc?
    && (|| turns.init == before
        || (CancelledOnly(turns.last) && turns.init.Snoc? && turns.init.init == before))
  }

  /** What one round of the inner loop leaves: the head of the next, with what steering delivered meanwhile pending, or
      the end of the run. Only a cancelled run may drop what the queues delivered. */
  ghost predicate RoundDone(
    given: Given, g: Log, going: bool, after: Locals, log: Log, trace: seq<Event>, stage: Stage, ended: seq<Message>,
    observed: seq<string>, before: seq<Message>, delivered: seq<Message>)
  {
    && (going ==>
          && stage == BetweenTurns && AtHead(given, after, log, ended, observed)
          && log.turns.Snoc? && log.turns.init == g.turns && log.turns.last.more == after.hasMore
          && log.followed == [] && delivered == before + log.steered && UsedUp(g, log.turns))
    && (!going ==>
          && AtEnd(given, after.signal, after.newMessages, log.turns, trace, stage, ended)
          && Extends(g.turns, log.turns)
          && (after.signal.Cancelled? ||
              (UsedUp(g, log.turns) && delivered == before && Quits(log.turns, given.script))))
  }

  lemma EndsCancelled(given: Given, l: Locals, g: Log, before: seq<Message>, observed: seq<string>,
                      after: Locals, trace: seq<Event>, stage: Stage, ended: seq<Message>)
    returns (log: Log)
    requires AtHead(given, l, g, before, observed) && Closed(trace, stage, ended, after.newMessages)
    requires after.newMessages == l.newMessages + [Assistant(AbortedMessage(None))] && after.signal.Cancelled?
    ensures AtEnd(given, after.signal, after.newMessages, log.turns, trace, stage, ended)
    ensures forall now, from, delivered ::
              RoundDone(given, g, false, after, log, trace, stage, ended, now, from, delivered)
  {
    CancelledSpeaks(given.prompts, g.turns);
    log := Log(Snoc(g.turns, CancelledTurn()), [], []);
  }

  /** A failed response ends the run. */
  method FailTurn(
    sink: AgentState, m: AssistantMessage, context: seq<Message>, newMessages: seq<Message>, signal: Signal,
    ghost l: Locals, ghost given: Given, ghost g: Log, ghost before: seq<Message>, ghost observed: seq<string>,
    ghost said: seq<Message>, ghost delivered: seq<Message>)
    returns (after: Locals, ghost log: Log)
    requires sink.Valid() && Idle(sink.stage) && sink.stage.said == said + [Assistant(m)] && sink.ended == newMessages
    requires AtHead(given, l, g, before, observed) && Failed(m)
    requires Count(g.turns) < |given.script|
    requires Genuine(given.script[Count(g.turns)], l.context + l.pending, signal, m)
    requires newMessages == (l.newMessages + l.pending) + [Assistant(m)]
    modifies sink
    ensures sink.Valid() && sink.history == old(sink.history) && after.signal == signal
    ensures RoundDone(given, g, false, after, log, sink.trace, sink.stage, sink.ended, [], delivered, delivered)
  {
    FinishFailed(sink, newMessages, m, said);
    FailedRecorded(given, l, g, before, observed, m, signal);
    after := Locals(context, newMessages, [], false, signal);
    log := Log(Snoc(g.turns, Turn(g.steered, g.followed, m, [], false, false, false)), [], []);
  }

  /** Starts the turn, unless it is open already, and closes the run instead if it was cancelled. */
  method OpenTurn(
    sink: AgentState, l: Locals, first: bool, ghost given: Given, ghost g: Log, ghost observed: seq<string>,
    ghost delivered: seq<Message>)
    returns (cancelled: bool, after: Locals, ghost log: Log)
    requires sink.Valid() && Poised(sink.stage, first) && AtHead(given, l, g, sink.ended, observed)
    modifies sink
    ensures sink.Valid() && sink.history == old(sink.history) && Later(l.signal, after.signal)
    ensures !cancelled ==> Idle(sink.stage) && sink.stage.started == {} && sink.ended == old(sink.ended)
    ensures cancelled ==>
              RoundDone(given, g, false, after, log, sink.trace, sink.stage, sink.ended, observed, delivered, delivered)
  {
    ghost var ended := sink.ended;
    if !first {
      sink.ProcessEvent(TurnStart);
    }
    var signal := Poll(l.signal);
    cancelled, after, log := signal.Cancelled?, l.(signal := signal), g;
    if cancelled {
      var context, all := FinishCancelledTurn(sink, l.context, l.newMessages);
      after := Locals(context, all, [], false, signal);
      log := EndsCancelled(given, l, g, ended, observed, after, sink.trace, sink.stage, sink.ended);
    }
  }

  /** One round of the inner loop. */
  method OneTurn(
    sink: AgentState, breaker: RepeatBreaker, steering: PendingMessageQueue, config: Config, l: Locals, first: bool,
    response: Response, ghost given: Given, ghost g: Log)
    returns (going: bool, after: Locals, ghost log: Log)
    requires sink.Valid() && Bounded(breaker) && breaker.keyOf == config.keyOf && config == given.config
    requires steering.Valid()
    requires BegunOnce(response.events) && Plays(given, g, response) && Poised(sink.stage, first)
    requires AtHead(given, l, g, sink.ended, breaker.observed) && (l.hasMore || l.pending != [])
    modifies sink, breaker, steering
    ensures sink.Valid() && sink.history == old(sink.history) && Bounded(breaker) && steering.Valid()
    ensures Later(l.signal, after.signal)
    ensures RoundDone(given, g, going, after, log, sink.trace, sink.stage, sink.ended, breaker.observed,
                      old(steering.delivered), steering.delivered)
    ensures going && after.pending == [] ==> steering.messages == []
  {
    var cancelled;
    cancelled, after, log := OpenTurn(sink, l, first, given, g, breaker.observed, steering.delivered);
    going := false;
    if !cancelled {
      going, after, log := AskAndAnswer(sink, breaker, steering, config, l, after.signal, response, given, g);
    }
  }

  method AskAndAnswer(
    sink: AgentState, breaker: RepeatBreaker, steering: PendingMessageQueue, config: Config, l: Locals,
    signal: Signal, response: Response, ghost given: Given, ghost g: Log)
    returns (going: bool, after: Locals, ghost log: Log)
    requires sink.Valid() && Bounded(breaker) && breaker.keyOf == config.keyOf && config == given.config
    requires steering.Valid()
    requires BegunOnce(response.events) && Plays(given, g, response)
    requires Idle(sink.stage) && sink.stage.started == {}
    requires AtHead(given, l, g, sink.ended, breaker.observed) && (l.hasMore || l.pending != [])
    modifies sink, breaker, steering
    ensures sink.Valid() && sink.history == old(sink.history) && Bounded(breaker) && steering.Valid()
    ensures Later(signal, after.signal)
    ensures RoundDone(given, g, going, after, log, sink.trace, sink.stage, sink.ended, breaker.observed,
                      old(steering.delivered), steering.delivered)
    ensures going && after.pending == [] ==> steering.messages == []
  {
    ghost var ended, observed := sink.ended, breaker.observed;
    var m, context, all, sampled;
    ghost var said;
    m, context, all, sampled, said := Ask(sink, breaker, l, signal, response);
    going, after, log := AnswerTurn(sink, breaker, steering, config, l, m, context, all, sampled, response,
                                    given, g, ended, observed, said);
  }

  /** From the final message of the response to the head of the next round, or the end. */
  method AnswerTurn(
    sink: AgentState, breaker: RepeatBreaker, steering: PendingMessageQueue, config: Config, ghost l: Locals,
    m: AssistantMessage, context: seq<Message>, newMessages: seq<Message>, signal: Signal, response: Response,
    ghost given: Given, ghost g: Log, ghost ended: seq<Message>, ghost observed: seq<string>,
    ghost said: seq<Message>)
    returns (going: bool, after: Locals, ghost log: Log)
    requires sink.Valid() && Bounded(breaker) && breaker.keyOf == config.keyOf && config == given.config
    requires steering.Valid()
    requires Idle(sink.stage) && sink.stage.said == said + [Assistant(m)] && sink.ended == newMessages
    requires AtHead(given, l, g, ended, observed) && (l.hasMore || l.pending != [])
    requires newMessages == (l.newMessages + l.pending) + [Assistant(m)]
    requires Plays(given, g, response) && Genuine(response, l.context + l.pending, signal, m)
    requires !signal.Cancelled? ==> context == PromptOf(response.hooks, l.context + l.pending) + [Assistant(m)]
    requires breaker.observed == if l.pending == [] then observed else []
    modifies sink, breaker, steering
    ensures sink.Valid() && sink.history == old(sink.history) && Bounded(breaker) && steering.Valid()
    ensures Later(signal, after.signal)
    ensures RoundDone(given, g, going, after, log, sink.trace, sink.stage, sink.ended, breaker.observed,
                      old(steering.delivered), steering.delivered)
    ensures going && after.pending == [] ==> steering.messages == []
  {
    if Failed(m) {
      going := false;
      after, log := FailTurn(sink, m, context, newMessages, signal, l, given, g, ended, observed, said,
                             steering.delivered);
    } else {
      going, after, log := CompleteTurn(sink, breaker, steering, config, l, m, context, newMessages, signal, response,
                                        given, g, ended, observed, said);
    }
  }

  method CompleteTurn(
    sink: AgentState, breaker: RepeatBreaker, steering: PendingMessageQueue, config: Config, ghost l: Locals,
    m: AssistantMessage, context: seq<Message>, newMessages: seq<Message>, signal: Signal, response: Response,
    ghost given: Given, ghost g: Log, ghost ended: seq<Message>, ghost observed: seq<string>,
    ghost said: seq<Message>)
    returns (going: bool, after: Locals, ghost log: Log)
    requires sink.Valid() && Bounded(breaker) && breaker.keyOf == config.keyOf && config == given.config
    requires steering.Valid() && !Failed(m)
    requires Idle(sink.stage) && sink.stage.said == said + [Assistant(m)] && sink.ended == newMessages
    requires AtHead(given, l, g, ended, observed) && (l.hasMore || l.pending != [])
    requires newMessages == (l.newMessages + l.pending) + [Assistant(m)]
    requires Plays(given, g, response) && Genuine(response, l.context + l.pending, signal, m)
    requires !signal.Cancelled? ==> context == PromptOf(response.hooks, l.context + l.pending) + [Assistant(m)]
    requires breaker.observed == if l.pending == [] then observed else []
    modifies sink, breaker, steering
    ensures sink.Valid() && sink.history == old(sink.history) && Bounded(breaker) && steering.Valid()
    ensures Later(signal, after.signal)
    ensures RoundDone(given, g, going, after, log, sink.trace, sink.stage, sink.ended, breaker.observed,
                      old(steering.delivered), steering.delivered)
    ensures going && after.pending == [] ==> steering.messages == []
  {
    ghost var before := breaker.observed;
    var ending;
    ghost var done;
    ending, after, done :=
      FinishAndWait(sink, breaker, steering, config, m, context, newMessages, signal, response, said);
    going := ending.Going?;
    ghost var t := done.(steered := g.steered, followed := g.followed);
    log := RoundOver(given, l, g, ended, observed, before, t, ending, after, newMessages, sink.trace, sink.stage,
                     sink.ended, breaker.observed, old(steering.delivered), steering.delivered);
  }

  /** The record of a round whose turn `t` was finished, whether the run goes on or not. */
  lemma RoundOver(given: Given, l: Locals, g: Log, ended: seq<Message>, observed: seq<string>, before: seq<string>,
                  t: Turn, ending: Ending, after: Locals, newMessages: seq<Message>, trace: seq<Event>, stage: Stage,
                  live: seq<Message>, now: seq<string>, from: seq<Message>, delivered: seq<Message>)
    returns (log: Log)
    requires AtHead(given, l, g, ended, observed) && (l.hasMore || l.pending != [])
    requires GoodTurn(t) && !Failed(t.assistant) && t.steered == g.steered && t.followed == g.followed
    requires t.more == after.hasMore && before == if l.pending == [] then observed else []
    requires t.refused == Reached(before, STOP_AT) && t.armed == Reached(now, STOP_AT)
    requires now == if t.refused then [] else before + Deduped(KeysOf(t, given.config.keyOf))
    requires newMessages == (l.newMessages + l.pending) + [Assistant(t.assistant)]
    requires after.newMessages == (newMessages + Responses(t.results)) +
                                  if ending.Aborting? then [Assistant(AbortedMessage(None))] else []
    requires Count(g.turns) < |given.script| && Stems(t.assistant, given.script[Count(g.turns)])
    requires !ending.Aborting? ==> Finishes(given, l, g, before, t, ending)
    requires ending.Going? ==> stage == BetweenTurns && live == after.newMessages && delivered == from + after.pending
                               && after.context == ContextAfter(given.script[Count(g.turns)], l.context, t)
    requires !ending.Going? ==> Closed(trace, stage, live, after.newMessages)
    requires ending.Stopped? ==> delivered == from
    requires ending.Aborting? ==> after.signal.Cancelled?
    ensures RoundDone(given, g, ending.Going?, after, log, trace, stage, live, now, from, delivered)
  {
    FinishedRecorded(given, l, g, ended, observed, before, t, now);
    if !ending.Aborting? {
      TurnPlays(given, l, g, ended, observed, before, t);
    }
    if ending.Going? {
      log := Log(Snoc(g.turns, t), after.pending, []);
      RoundGoesOn(given, l, g, ended, observed, t, after, log, newMessages, live, now);
    } else {
      NothingMore(newMessages + Responses(t.results));
      if ending.Stopped? {
        RoundStops(given, g, t, after.signal, after.newMessages, trace, stage, live);
        log := Log(Snoc(g.turns, t), [], []);
      } else {
        RoundAborts(given, g, t, after.signal, after.newMessages, trace, stage, live);
        log := Log(Snoc(Snoc(g.turns, t), CancelledTurn()), [], []);
      }
    }
  }

  /** What an uncancelled round knows of its turn. */
  predicate Finishes(given: Given, l: Locals, g: Log, before: seq<string>, t: Turn, ending: Ending)
    requires Count(g.turns) < |given.script|
  {
    var response := given.script[Count(g.turns)];
    && t.assistant == Sent(response, l.context + l.pending)
    && CallsDue(given.config, t, response.tools, before)
    && response.hooks.stop == ending.Stopped?
  }

  lemma RoundGoesOn(given: Given, l: Locals, g: Log, ended: seq<Message>, observed: seq<string>, t: Turn,
                    after: Locals, log: Log, newMessages: seq<Message>, live: seq<Message>, now: seq<string>)
    requires AtHead(given, l, g, ended, observed) && t.more == after.hasMore && !Failed(t.assistant)
    requires t.steered == g.steered && t.followed == g.followed
    requires newMessages == (l.newMessages + l.pending) + [Assistant(t.assistant)]
    requires newMessages + Responses(t.results) == given.prompts + Transcript(Snoc(g.turns, t))
    requires GoodTurns(Snoc(g.turns, t), given.config.keyOf)
    requires now == ObservedAfter(Snoc(g.turns, t), given.config.keyOf)
    requires log == Log(Snoc(g.turns, t), after.pending, [])
    requires PlaysOut(given, Snoc(g.turns, t)) && Count(g.turns) < |given.script|
    requires !given.script[Count(g.turns)].hooks.stop
    requires after.context == ContextAfter(given.script[Count(g.turns)], l.context, t)
    requires live == after.newMessages == (newMessages + Responses(t.results)) + []
    ensures AtHead(given, after, log, live, now)
  {
    NothingMore(newMessages + Responses(t.results));
    HeadAgain(given, l, g, ended, observed, t, after, log, now);
  }

  lemma RoundStops(given: Given, g: Log, t: Turn, signal: Signal, all: seq<Message>, trace: seq<Event>, stage: Stage,
                   ended: seq<Message>)
    requires Closed(trace, stage, ended, all) && all == given.prompts + Transcript(Snoc(g.turns, t))
    requires GoodTurns(Snoc(g.turns, t), given.config.keyOf) && PlaysOut(given, Snoc(g.turns, t))
    requires Count(g.turns) < |given.script| && given.script[Count(g.turns)].hooks.stop
    ensures AtEnd(given, signal, all, Snoc(g.turns, t), trace, stage, ended)
    ensures Quits(Snoc(g.turns, t), given.script)
  {
  }

  lemma RoundAborts(given: Given, g: Log, t: Turn, signal: Signal, all: seq<Message>, trace: seq<Event>, stage: Stage,
                    ended: seq<Message>)
    requires Closed(trace, stage, ended, all) && signal.Cancelled? && !Failed(t.assistant)
    requires all == (given.prompts + Transcript(Snoc(g.turns, t))) + [Assistant(AbortedMessage(None))]
    requires GoodTurns(Snoc(g.turns, t), given.config.keyOf) && PlaysOut(given, g.turns)
    requires Count(g.turns) < |given.script| && Stems(t.assistant, given.script[Count(g.turns)])
    ensures AtEnd(given, signal, all, Snoc(Snoc(g.turns, t), CancelledTurn()), trace, stage, ended)
  {
    CancelledSpeaks(given.prompts, Snoc(g.turns, t));
    AbortedWaiting(given, g.turns, t);
    CancelledFollows(Snoc(g.turns, t), given.config.keyOf);
  }

  lemma AbortedWaiting(given: Given, turns: Turns, t: Turn)
    requires PlaysOut(given, turns) && Count(turns) < |given.script| && Stems(t.assistant, given.script[Count(turns)])
    ensures CutShort(given, Snoc(Snoc(turns, t), CancelledTurn()))
  {
    assert AnsweredFrom(given, Snoc(turns, t));
  }

  /** A turn of its own for a cancellation is good after any turn that did not fail. */
  lemma CancelledFollows(turns: Turns, keyOf: ToolCall -> string)
    requires GoodTurns(turns, keyOf) && (turns.Snoc? ==> !Failed(turns.last.assistant))
    ensures GoodTurns(Snoc(turns, CancelledTurn()), keyOf)
  {
  }

  lemma NothingMore(s: seq<Message>)
    ensures s + [] == s
  {
  }

  // ----- the loops -----

  /** A queue has delivered what the turns used, and what is still pending. */
  ghost predicate Used(delivered: seq<Message>, start: seq<Message>, used: seq<Message>, waiting: seq<Message>) {
    delivered == (start + used) + waiting
  }

  /** What each queue had delivered before the run. */
  datatype Starts = Starts(steering: seq<Message>, followUps: seq<Message>)

  /** What both queues have delivered since the run started is in its turns, in order, or still pending. */
  ghost predicate QueuesUsed(steered: seq<Message>, followed: seq<Message>, starts: Starts, g: Log) {
    && Used(steered, starts.steering, Steered(g.turns), g.steered)
    && Used(followed, starts.followUps, Followed(g.turns), g.followed)
  }

  lemma UsedOn(delivered: seq<Message>, start: seq<Message>, used: seq<Message>, waiting: seq<Message>,
               more: seq<Message>)
    requires Used(delivered, start, used, waiting)
    ensures Used(delivered + more, start, used + waiting, more) && Used(delivered, start, used + waiting, [])
  {
    ConcatAssoc(start, used, waiting);
    assert delivered + [] == delivered;
  }

  /** The queues after a round: what was pending is in the record, and what steering delivered meanwhile is pending. */
  lemma QueuesAfterRound(steered: seq<Message>, followed: seq<Message>, starts: Starts, g: Log, log: Log)
    requires QueuesUsed(steered, followed, starts, g) && UsedUp(g, log.turns)
    ensures log.followed == [] ==> QueuesUsed(steered + log.steered, followed, starts, log)
    ensures QueuesUsed(steered, followed, starts, Log(log.turns, [], []))
  {
    UsedOn(steered, starts.steering, Steered(g.turns), g.steered, log.steered);
    UsedOn(followed, starts.followUps, Followed(g.turns), g.followed, []);
  }

  /** Why the inner loop was left: the script is used up at its head, nothing is left to do but the follow-ups, or
      the run is over. */
  datatype Exit = Paused | WouldStop | Ended

  /** What a run leaves: the head of the inner loop, but only once the script is used up, or its end. A run that was
      never cancelled has lost nothing the queues delivered. */
  ghost predicate RunDone(
    given: Given, starts: Starts, ended: bool, l: Locals, log: Log, trace: seq<Event>, stage: Stage,
    messages: seq<Message>, observed: seq<string>, steered: seq<Message>, followed: seq<Message>)
  {
    if ended then
      && AtEnd(given, l.signal, l.newMessages, log.turns, trace, stage, messages)
      && (l.signal.Cancelled? || QueuesUsed(steered, followed, starts, Log(log.turns, [], [])))
    else
      && AtHead(given, l, log, messages, observed) && (l.hasMore || l.pending != [])
      && QueuesUsed(steered, followed, starts, log)
      && (Idle(stage) || stage == BetweenTurns)
      && Count(log.turns) == |given.script|
  }

  predicate Sendable(responses: seq<Response>) {
    forall i | 0 <= i < |responses| :: BegunOnce(responses[i].events)
  }

  /** The head of the inner loop, with the sink and the queues as they then are. */
  ghost predicate InLoop(
    given: Given, starts: Starts, l: Locals, log: Log, first: bool, stage: Stage, messages: seq<Message>,
    observed: seq<string>, steered: seq<Message>, followed: seq<Message>)
  {
    && Poised(stage, first) && AtHead(given, l, log, messages, observed)
    && QueuesUsed(steered, followed, starts, log)
  }

  /** Why an uncancelled run ended: its last turn ended it on the spot, or nothing is left in the queues. */
  predicate EndedFor(turns: Turns, script: seq<Response>, signal: Signal, steering: seq<Message>,
                     followUps: seq<Message>)
  {
    signal.Cancelled? || Quits(turns, script) || steering == followUps == []
  }

  /** What a run leaves, with what is left in the queues. */
  ghost predicate RunOver(
    given: Given, starts: Starts, ended: bool, l: Locals, log: Log, trace: seq<Event>, stage: Stage,
    messages: seq<Message>, observed: seq<string>, steered: seq<Message>, followed: seq<Message>,
    steering: seq<Message>, followUps: seq<Message>)
  {
    && RunDone(given, starts, ended, l, log, trace, stage, messages, observed, steered, followed)
    && (ended ==> EndedFor(log.turns, given.script, l.signal, steering, followUps))
  }

  /** One round, and what it means for the queues. */
  method PlayRound(
    sink: AgentState, breaker: RepeatBreaker, steering: PendingMessageQueue, config: Config, l: Locals, first: bool,
    response: Response, ghost given: Given, ghost g: Log, ghost starts: Starts, ghost followed: seq<Message>,
    ghost later: seq<Message>)
    returns (going: bool, after: Locals, ghost log: Log)
    requires sink.Valid() && Bounded(breaker) && breaker.keyOf == config.keyOf && config == given.config
    requires steering.Valid()
    requires BegunOnce(response.events) && Plays(given, g, response) && (l.hasMore || l.pending != [])
    requires InLoop(given, starts, l, g, first, sink.stage, sink.ended, breaker.observed, steering.delivered, followed)
    modifies sink, breaker, steering
    ensures sink.Valid() && sink.history == old(sink.history) && Bounded(breaker) && steering.Valid()
    ensures Later(l.signal, after.signal)
    ensures going ==>
              && InLoop(given, starts, after, log, false, sink.stage, sink.ended, breaker.observed, steering.delivered,
                        followed)
              && log.turns.Snoc? && log.turns.init == g.turns && log.turns.last.more == after.hasMore
              && log.followed == []
    ensures !going ==>
              RunOver(given, starts, true, after, log, sink.trace, sink.stage, sink.ended, breaker.observed,
                      steering.delivered, followed, steering.messages, later)
    ensures going && after.pending == [] ==> steering.messages == []
  {
    ghost var delivered := steering.delivered;
    going, after, log := OneTurn(sink, breaker, steering, config, l, first, response, given, g);
    if going || !after.signal.Cancelled? {
      QueuesAfterRound(delivered, followed, starts, g, log);
    }
  }

  /** Tool calls and steering messages, until neither is left. */
  method InnerLoop(
    sink: AgentState, breaker: RepeatBreaker, steering: PendingMessageQueue, config: Config, start: Locals,
    opening: bool, script: seq<Response>, from: nat, ghost given: Given, ghost g: Log, ghost starts: Starts,
    ghost followed: seq<Message>, ghost later: seq<Message>)
    returns (exit: Exit, l: Locals, played: nat, ghost log: Log)
    requires sink.Valid() && Bounded(breaker) && breaker.keyOf == config.keyOf && config == given.config
    requires steering.Valid()
    requires Sendable(script) && script == given.script
    requires from == Count(g.turns) <= |script| && start.hasMore
    requires InLoop(given, starts, start, g, opening, sink.stage, sink.ended, breaker.observed, steering.delivered,
                    followed)
    modifies sink, breaker, steering
    ensures sink.Valid() && sink.history == old(sink.history) && Bounded(breaker) && steering.Valid()
    ensures Later(start.signal, l.signal)
    ensures !exit.WouldStop? ==>
              RunOver(given, starts, exit.Ended?, l, log, sink.trace, sink.stage, sink.ended, breaker.observed,
                      steering.delivered, followed, steering.messages, later)
    ensures exit.WouldStop? ==>
              && InLoop(given, starts, l, log, false, sink.stage, sink.ended, breaker.observed, steering.delivered,
                        followed)
              && from < played == Count(log.turns) <= |script|
              && l.pending == [] && log.followed == [] && log.turns.Snoc? && !log.turns.last.more
              && steering.messages == []
  {
    l, played, log := start, from, g;
    var first := opening;
    while l.hasMore || l.pending != []
      invariant sink.Valid() && sink.history == old(sink.history) && Bounded(breaker) && steering.Valid()
      invariant Later(start.signal, l.signal) && from <= played == Count(log.turns) <= |script|
      invariant InLoop(given, starts, l, log, first, sink.stage, sink.ended, breaker.observed, steering.delivered,
                       followed)
      invariant if played == from then l.hasMore
                else !first && log.turns.Snoc? && log.turns.last.more == l.hasMore && log.followed == []
                     && (l.pending == [] ==> steering.messages == [])
      decreases |script| - played
    {
      if played == |script| {
        exit := Paused;
        return;
      }
      var going;
      going, l, log := PlayRound(sink, breaker, steering, config, l, first, script[played], given, log, starts,
                                 followed, later);
      first, played := false, played + 1;
      if !going {
        exit := Ended;
        return;
      }
    }
    exit := WouldStop;
  }

  lemma FollowUpsPending(given: Given, l: Locals, log: Log, ended: seq<Message>, observed: seq<string>,
                         pending: seq<Message>, signal: Signal, again: Locals, next: Log)
    requires AtHead(given, l, log, ended, observed) && l.pending == [] && log.followed == []
    requires log.turns.Snoc? && !log.turns.last.more && pending != []
    requires again == Locals(l.context, l.newMessages, pending, true, signal)
    requires next == Log(log.turns, [], pending)
    ensures AtHead(given, again, next, ended, observed)
  {
    assert again.context == l.context && again.newMessages == l.newMessages && next.turns == log.turns;
    assert [] + pending == pending;
  }

  lemma EndsQuietly(given: Given, l: Locals, log: Log, before: seq<Message>, observed: seq<string>,
                    trace: seq<Event>, stage: Stage, ended: seq<Message>)
    requires AtHead(given, l, log, before, observed) && Closed(trace, stage, ended, l.newMessages)
    requires log.turns.Snoc? && !log.turns.last.more
    ensures AtEnd(given, l.signal, l.newMessages, log.turns, trace, stage, ended)
  {
  }

  /** With no follow-up delivered, both queues are used up. */
  lemma FollowUpsDrained(steered: seq<Message>, followed: seq<Message>, starts: Starts, log: Log, drained: seq<Message>)
    requires QueuesUsed(steered, followed, starts, log) && log.steered == log.followed == []
    ensures QueuesUsed(steered, followed + drained, starts, log.(followed := drained))
    ensures drained == [] ==> QueuesUsed(steered, followed + drained, starts, Log(log.turns, [], []))
  {
    UsedOn(followed, starts.followUps, Followed(log.turns), [], drained);
    assert Followed(log.turns) + [] == Followed(log.turns);
  }

  /** Nothing is left to do: follow-ups start another round, and without them the run ends. */
  method FollowUp(
    sink: AgentState, followUps: PendingMessageQueue, l: Locals, ghost given: Given, ghost log: Log,
    ghost starts: Starts, ghost observed: seq<string>, ghost steered: seq<Message>, ghost waiting: seq<Message>)
    returns (over: bool, after: Locals, ghost next: Log)
    requires sink.Valid() && followUps.Valid()
    requires InLoop(given, starts, l, log, false, sink.stage, sink.ended, observed, steered, followUps.delivered)
    requires l.pending == [] && log.followed == [] && log.turns.Snoc? && !log.turns.last.more && waiting == []
    modifies sink, followUps
    ensures sink.Valid() && sink.history == old(sink.history) && followUps.Valid() && Later(l.signal, after.signal)
    ensures over ==>
              RunOver(given, starts, true, after, next, sink.trace, sink.stage, sink.ended, observed, steered,
                      followUps.delivered, waiting, followUps.messages)
    ensures !over ==>
              && after.hasMore && next.turns == log.turns
              && InLoop(given, starts, after, next, false, sink.stage, sink.ended, observed, steered,
                        followUps.delivered)
  {
    ghost var ended, delivered := sink.ended, followUps.delivered;
    var drained := followUps.Poll();
    FollowUpsDrained(steered, delivered, starts, log, drained);
    var done, context, all, signal;
    done, context, all, signal := FinishCancelledAfterTurn(sink, l.context, l.newMessages, l.signal);
    over, after, next := true, Locals(context, all, [], false, signal), log;
    if done {
      next := EndsCancelled(given, l, log, ended, observed, after, sink.trace, sink.stage, sink.ended);
    } else if drained != [] {
      over, after := false, l.(pending := drained, hasMore := true, signal := signal);
      next := Log(log.turns, [], drained);
      FollowUpsPending(given, l, log, ended, observed, drained, signal, after, next);
    } else {
      sink.ProcessEvent(AgentEnd(l.newMessages));
      after := l.(signal := signal);
      EndsQuietly(given, after, log, ended, observed, sink.trace, sink.stage, sink.ended);
    }
  }

  /** The shared loop body. Whatever the hooks, the provider, the tools and the queues do, and whenever the run is
      cancelled, it goes on until the run is over or the script is used up; it leaves a well-formed trace, and the
      messages it ended are the new messages. */
  method RunLoop(
    sink: AgentState, steering: PendingMessageQueue, followUps: PendingMessageQueue, config: Config,
    context: seq<Message>, newMessages: seq<Message>, signal: Signal, script: seq<Response>,
    drainSteeringFirst: bool, ghost history: seq<Message>)
    returns (ended: bool, l: Locals, ghost log: Log, ghost observed: seq<string>)
    requires sink.Valid() && steering.Valid() && followUps.Valid() && steering != followUps
    requires Idle(sink.stage) && sink.stage.started == {} && Sendable(script)
    requires sink.ended == newMessages && context == history + newMessages
    modifies sink, steering, followUps
    ensures sink.Valid() && sink.history == old(sink.history) && steering.Valid() && followUps.Valid()
    ensures Later(signal, l.signal) && Streak(observed) <= STOP_AT
    ensures RunOver(Given(history, newMessages, config, script),
                    Starts(old(steering.delivered), old(followUps.delivered)), ended, l, log, sink.trace,
                    sink.stage, sink.ended, observed, steering.delivered, followUps.delivered, steering.messages,
                    followUps.messages)
  {
    ghost var given := Given(history, newMessages, config, script);
    ghost var starts := Starts(steering.delivered, followUps.delivered);
    var breaker := new RepeatBreaker(config.keyOf);
    assert Streak([]) == 0;
    var pending: seq<Message> := [];
    if drainSteeringFirst {
      pending := steering.Poll();
    } else {
      assert starts.steering + [] == starts.steering;
    }
    l, log := Locals(context, newMessages, pending, true, signal), Log(NoTurns, pending, []);
    BeforeFirstTurn(given, newMessages, pending, starts);
    ended, l, log := OuterLoop(sink, breaker, steering, followUps, config, l, script, given, log, starts);
    observed := breaker.observed;
  }

  /** Rounds of the inner loop, again whenever follow-ups arrive after the run would stop. */
  method OuterLoop(
    sink: AgentState, breaker: RepeatBreaker, steering: PendingMessageQueue, followUps: PendingMessageQueue,
    config: Config, start: Locals, script: seq<Response>, ghost given: Given, ghost g: Log, ghost starts: Starts)
    returns (ended: bool, l: Locals, ghost log: Log)
    requires sink.Valid() && Bounded(breaker) && breaker.keyOf == config.keyOf && config == given.config
    requires steering.Valid() && followUps.Valid() && steering != followUps
    requires Sendable(script) && script == given.script
    requires g.turns == NoTurns && start.hasMore
    requires InLoop(given, starts, start, g, true, sink.stage, sink.ended, breaker.observed, steering.delivered,
                    followUps.delivered)
    modifies sink, breaker, steering, followUps
    ensures sink.Valid() && sink.history == old(sink.history) && Bounded(breaker)
    ensures steering.Valid() && followUps.Valid() && Later(start.signal, l.signal)
    ensures RunOver(given, starts, ended, l, log, sink.trace, sink.stage, sink.ended, breaker.observed,
                    steering.delivered, followUps.delivered, steering.messages, followUps.messages)
  {
    l, log := start, g;
    var played, over := 0, false;
    while true
      invariant sink.Valid() && sink.history == old(sink.history) && Bounded(breaker)
      invariant steering.Valid() && followUps.Valid() && Later(start.signal, l.signal)
      invariant l.hasMore && played == Count(log.turns) <= |script|
      invariant InLoop(given, starts, l, log, played == 0, sink.stage, sink.ended, breaker.observed,
                       steering.delivered, followUps.delivered)
      decreases |script| - played
    {
      over, ended, l, played, log :=
        OuterRound(sink, breaker, steering, followUps, config, l, script, played, given, log, starts);
      if over {
        return;
      }
    }
  }

  /** The inner loop, and the follow-ups that may start it again. */
  method OuterRound(
    sink: AgentState, breaker: RepeatBreaker, steering: PendingMessageQueue, followUps: PendingMessageQueue,
    config: Config, start: Locals, script: seq<Response>, from: nat, ghost given: Given, ghost g: Log,
    ghost starts: Starts)
    returns (over: bool, ended: bool, l: Locals, played: nat, ghost log: Log)
    requires sink.Valid() && Bounded(breaker) && breaker.keyOf == config.keyOf && config == given.config
    requires steering.Valid() && followUps.Valid() && steering != followUps
    requires Sendable(script) && script == given.script
    requires start.hasMore && from == Count(g.turns) <= |script|
    requires InLoop(given, starts, start, g, from == 0, sink.stage, sink.ended, breaker.observed, steering.delivered,
                    followUps.delivered)
    modifies sink, breaker, steering, followUps
    ensures sink.Valid() && sink.history == old(sink.history) && Bounded(breaker)
    ensures steering.Valid() && followUps.Valid() && Later(start.signal, l.signal)
    ensures over ==>
              RunOver(given, starts, ended, l, log, sink.trace, sink.stage, sink.ended, breaker.observed,
                      steering.delivered, followUps.delivered, steering.messages, followUps.messages)
    ensures !over ==>
              && l.hasMore && from < played == Count(log.turns) <= |script|
              && InLoop(given, starts, l, log, false, sink.stage, sink.ended, breaker.observed, steering.delivered,
                        followUps.delivered)
  {
    var exit;
    exit, l, played, log := InnerLoop(sink, breaker, steering, config, start, from == 0, script, from, given, g, starts,
                                      followUps.delivered, followUps.messages);
    over, ended := !exit.WouldStop?, exit.Ended?;
    if !over {
      over, l, log := FollowUp(sink, followUps, l, given, log, starts, breaker.observed, steering.delivered,
                               steering.messages);
      ended := over;
    }
  }

  lemma BeforeFirstTurn(given: Given, newMessages: seq<Message>, pending: seq<Message>, starts: Starts)
    ensures newMessages + Transcript(NoTurns) == newMessages && pending + [] == pending
    ensures QueuesUsed(starts.steering + pending, starts.followUps, starts, Log(NoTurns, pending, []))
  {
    assert starts.steering + [] == starts.steering;
    assert (starts.followUps + []) + [] == starts.followUps;
  }
}
