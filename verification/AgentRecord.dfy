/**
 The record of a run: its turns, what makes them good, and what they are when nothing cancels the run.
 */
module AgentRecord {
  import opened Results
  import opened AgentTypes
  import opened RepeatBreaking
  import opened ToolBatches
  import opened ParallelBatches
  import opened AssistantStream

  // ----- turns -----

  /** One turn: what the queues gave to it, the response, and what became of its calls. `refused` says that the
      handoff after a forced stop was taken, `armed` that the batch forced a stop, `more` that the loop should go
      on. */
  datatype Turn = Turn(
    steered: seq<Message>, followed: seq<Message>, assistant: AssistantMessage, results: seq<ToolResultMessage>,
    refused: bool, armed: bool, more: bool)

  function CancelledTurn(): Turn {
    Turn([], [], AbortedMessage(None), [], false, false, false)
  }

  function Injected(t: Turn): seq<Message> {
    t.steered + t.followed
  }

  function Spoken(t: Turn): seq<Message> {
    Injected(t) + [Assistant(t.assistant)] + Responses(t.results)
  }

  /** The turns of a run so far. */
  datatype Turns = NoTurns | Snoc(init: Turns, last: Turn)

  function Transcript(turns: Turns): seq<Message> {
    if turns.NoTurns? then [] else Transcript(turns.init) + Spoken(turns.last)
  }

  function Steered(turns: Turns): seq<Message> {
    if turns.NoTurns? then [] else Steered(turns.init) + turns.last.steered
  }

  function Followed(turns: Turns): seq<Message> {
    if turns.NoTurns? then [] else Followed(turns.init) + turns.last.followed
  }

  /** The keys a turn counts: those of the calls it ran. */
  function KeysOf(t: Turn, keyOf: ToolCall -> string): seq<string> {
    if Failed(t.assistant) || t.refused || t.assistant.stopReason.Length? then []
    else Keys(CallsOf(t.assistant.content), keyOf)
  }

  /** The deduplicated keys counted since user input, or a handoff, last cleared them. */
  function ObservedAfter(turns: Turns, keyOf: ToolCall -> string): seq<string> {
    if turns.NoTurns? || turns.last.refused then []
    else
      (if Injected(turns.last) != [] then [] else ObservedAfter(turns.init, keyOf)) + Deduped(KeysOf(turns.last, keyOf))
  }

  /** A failed response has no results and counts nothing; any other is answered call by call. A refused batch runs
      nothing and ends the tool loop. */
  predicate GoodTurn(t: Turn) {
    && (if Failed(t.assistant) then t.results == [] && !t.refused && !t.armed
        else Answers(CallsOf(t.assistant.content), t.results))
    && (t.more ==> t.results != [])
    && (t.assistant.stopReason.Length? && !t.refused && t.results != [] ==> t.more)
    && (t.refused ==> !t.more && !t.armed && forall i | 0 <= i < |t.results| :: t.results[i].isError)
    && (t.steered == [] || t.followed == [])
  }

  /** How a turn may follow another: only a failed response ends the run on the spot; calls are refused exactly in the
      turn after a forced stop, unless the user spoke first; and follow-ups are used only when there is nothing else
      to do. */
  predicate Follows(t: Turn, next: Turn) {
    && !Failed(t.assistant)
    && (!Failed(next.assistant) ==> (next.refused <==> t.armed && Injected(next) == []))
    && (next.followed != [] ==> !t.more)
    && (!Failed(next.assistant) && Injected(next) == [] ==> t.more)
  }

  /** Every turn is good and follows the one before, and a stop is forced exactly when the calls since the last user
      input or handoff reached the threshold. */
  predicate GoodTurns(turns: Turns, keyOf: ToolCall -> string) {
    turns.Snoc? ==>
      && GoodTurns(turns.init, keyOf)
      && GoodTurn(turns.last)
      && (if turns.init.NoTurns? then !turns.last.refused else Follows(turns.init.last, turns.last))
      && ArmedByStreak(turns, keyOf)
  }

  predicate ArmedByStreak(turns: Turns, keyOf: ToolCall -> string)
    requires turns.Snoc?
  {
    !Failed(turns.last.assistant) ==> (turns.last.armed <==> Reached(ObservedAfter(turns, keyOf), STOP_AT))
  }

  predicate Begins(turns: Turns, prefix: Turns) {
    turns == prefix || (turns.Snoc? && Begins(turns.init, prefix))
  }

  /** What a good record says of its turns, one by one: each is answered and follows the one before, and its calls
      are refused exactly when the calls up to the turn before had reached the threshold and the user did not speak
      in between. */
  lemma {:induction false} EveryTurn(turns: Turns, keyOf: ToolCall -> string, upTo: Turns)
    requires GoodTurns(turns, keyOf) && Begins(turns, upTo) && upTo.Snoc?
    ensures GoodTurn(upTo.last)
    ensures upTo.init.Snoc? ==> Follows(upTo.init.last, upTo.last)
    ensures !Failed(upTo.last.assistant) ==>
              (upTo.last.refused <==>
               Injected(upTo.last) == [] && Reached(ObservedAfter(upTo.init, keyOf), STOP_AT))
  {
    if turns != upTo {
      EveryTurn(turns.init, keyOf, upTo);
    } else if upTo.init.Snoc? {
      assert GoodTurns(upTo.init, keyOf);
    }
  }

  // ----- what a run is given -----

  /** What was said before, the prompts, the configuration, and one response for each turn. */
  datatype Given = Given(history: seq<Message>, prompts: seq<Message>, config: Config, script: seq<Response>)

  function Count(turns: Turns): nat {
    if turns.NoTurns? then 0 else Count(turns.init) + 1
  }

  function RefusedBatch(config: Config, calls: seq<ToolCall>, reason: Reason, terminate: bool): Batch {
    Batch(seq(|calls|, i requires 0 <= i < |calls| => Refusal(config, calls[i], reason)), terminate)
  }

  /** What the calls of a response come to when the run is not cancelled: refused after a forced stop or a truncation,
      and otherwise what each is due, with the reminders the streak earns. */
  function BatchDue(config: Config, m: AssistantMessage, tools: Tools, refused: bool, before: seq<string>): Batch {
    var calls := CallsOf(m.content);
    if calls == [] then Batch([], true)
    else if refused then RefusedBatch(config, calls, TextOnly, true)
    else if m.stopReason.Length? then RefusedBatch(config, calls, Truncated, false)
    else BatchOf(AllTold(config, calls, JobsDue(config, calls, tools, before)))
  }

  function JobsDue(config: Config, calls: seq<ToolCall>, tools: Tools, before: seq<string>): (jobs: seq<Job>)
    ensures |jobs| == |calls|
  {
    Effective(config, calls, JobsFor(Nudges(before, Keys(calls, config.keyOf)), tools))
  }

  /** The results of a turn are those its calls are due, and the loop goes on exactly when the batch does not end it. */
  predicate CallsDue(config: Config, t: Turn, tools: Tools, before: seq<string>) {
    var batch := BatchDue(config, t.assistant, tools, t.refused, before);
    t.results == batch.results && t.more == (CallsOf(t.assistant.content) != [] && !batch.terminate)
  }

  /** The keys counted when the calls of a turn come up. */
  function CountedBefore(given: Given, before: Turns, t: Turn): seq<string> {
    if Injected(t) != [] then [] else ObservedAfter(before, given.config.keyOf)
  }

  /** The context after these turns: each hook sees what the ones before made of it. */
  function ContextOf(given: Given, turns: Turns): seq<Message> {
    if turns.NoTurns? then given.history + given.prompts
    else if Count(turns.init) < |given.script| then
      ContextAfter(given.script[Count(turns.init)], ContextOf(given, turns.init), turns.last)
    else []
  }

  function ContextAfter(response: Response, context: seq<Message>, t: Turn): seq<Message> {
    response.hooks.next(
      (PromptOf(response.hooks, context + Injected(t)) + [Assistant(t.assistant)]) + Responses(t.results))
  }

  /** A hook asked to stop after the last of these turns. */
  predicate AskedToStop(turns: Turns, script: seq<Response>) {
    turns.Snoc? && Count(turns.init) < |script| && script[Count(turns.init)].hooks.stop
  }

  /** The turn that comes after these when nothing cancels the run: the message is what the script's response comes to
      in the context, and its calls come to what they are due. */
  predicate PlaysNext(given: Given, before: Turns, t: Turn) {
    && Count(before) < |given.script| && !AskedToStop(before, given.script)
    && var response := given.script[Count(before)];
       && t.assistant == Sent(response, ContextOf(given, before) + Injected(t))
       && (!Failed(t.assistant) ==> CallsDue(given.config, t, response.tools, CountedBefore(given, before, t)))
  }

  /** Every turn is the one that comes next. */
  predicate PlaysOut(given: Given, turns: Turns) {
    turns.Snoc? ==> PlaysOut(given, turns.init) && PlaysNext(given, turns.init, turns.last)
  }

  predicate CancelledOnly(t: Turn) {
    t == CancelledTurn()
  }

  /** A cancellation cuts the last turn short, before it asked or while it was asking, or the wait after it, which then
      has a turn of its own. */
  predicate CutShort(given: Given, turns: Turns) {
    && turns.Snoc?
    && (|| (CancelledOnly(turns.last) && PlaysOut(given, turns.init))
        || (Failed(turns.last.assistant) && AnsweredFrom(given, turns))
        || (CancelledOnly(turns.last) && AnsweredFrom(given, turns.init)))
  }

  /** The last turn answers to its response, and those before it play out. */
  predicate AnsweredFrom(given: Given, turns: Turns) {
    && turns.Snoc? && PlaysOut(given, turns.init)
    && Count(turns.init) < |given.script| && Stems(turns.last.assistant, given.script[Count(turns.init)])
  }

  /** The last turn ends the run on the spot: it failed, or a hook asked to stop. */
  predicate Quits(turns: Turns, script: seq<Response>) {
    turns.Snoc? && (Failed(turns.last.assistant) || AskedToStop(turns, script))
  }

  /** How a run may end: played out, with a turn that ends it or one that left nothing more to do; or cut short, if it
      was cancelled. */
  predicate EndsWell(given: Given, turns: Turns, signal: Signal) {
    || (PlaysOut(given, turns) && (Quits(turns, given.script) || (turns.Snoc? && !turns.last.more)))
    || (signal.Cancelled? && CutShort(given, turns))
  }

  ghost predicate AllKeepMessages(script: seq<Response>) {
    forall i | 0 <= i < |script| :: KeepsMessages(script[i].hooks)
  }

  /** When no hook changes the messages, the context is history, prompts and transcript after every turn. */
  lemma {:induction false} KeptContext(given: Given, turns: Turns)
    requires AllKeepMessages(given.script) && PlaysOut(given, turns)
    ensures ContextOf(given, turns) == given.history + (given.prompts + Transcript(turns))
  {
    if turns.NoTurns? {
      assert given.prompts + [] == given.prompts;
    } else {
      var t, response := turns.last, given.script[Count(turns.init)];
      var before := ContextOf(given, turns.init);
      KeptContext(given, turns.init);
      assert KeepsMessages(response.hooks);
      assert ContextOf(given, turns) == ((before + Injected(t)) + [Assistant(t.assistant)]) + Responses(t.results);
      assert ContextOf(given, turns) == before + Spoken(t) by {
        ConcatAssoc(before, Injected(t), [Assistant(t.assistant)]);
        ConcatAssoc(before, Injected(t) + [Assistant(t.assistant)], Responses(t.results));
      }
      ConcatAssoc(given.history, given.prompts + Transcript(turns.init), Spoken(t));
      ConcatAssoc(given.prompts, Transcript(turns.init), Spoken(t));
    }
  }

  /** The queues gave the same to the turns of both. */
  predicate SameQueued(a: Turns, b: Turns) {
    a.Snoc? == b.Snoc?
    && (a.Snoc? ==>
          SameQueued(a.init, b.init) && a.last.steered == b.last.steered && a.last.followed == b.last.followed)
  }

  /** An uncancelled run is determined by what it was given and by what the queues delivered to each turn: any two
      such runs have the same turns, whatever order background tasks ended in. */
  lemma {:induction false} RunIsDetermined(given: Given, a: Turns, b: Turns)
    requires PlaysOut(given, a) && GoodTurns(a, given.config.keyOf)
    requires PlaysOut(given, b) && GoodTurns(b, given.config.keyOf)
    requires SameQueued(a, b)
    ensures a == b
  {
    if a.Snoc? {
      RunIsDetermined(given, a.init, b.init);
      EveryTurn(a, given.config.keyOf, a);
      EveryTurn(b, given.config.keyOf, b);
      SameFlags(given, a, b);
    }
  }

  lemma SameFlags(given: Given, a: Turns, b: Turns)
    requires a.Snoc? && b.Snoc? && a.init == b.init
    requires a.last.steered == b.last.steered && a.last.followed == b.last.followed
    requires PlaysNext(given, a.init, a.last) && PlaysNext(given, b.init, b.last)
    requires GoodTurn(a.last) && GoodTurn(b.last)
    requires ArmedByStreak(a, given.config.keyOf) && ArmedByStreak(b, given.config.keyOf)
    requires !Failed(a.last.assistant) && !Failed(b.last.assistant) ==> a.last.refused == b.last.refused
    ensures a.last == b.last
  {
    assert a.last.assistant == b.last.assistant;
    if !Failed(a.last.assistant) {
      assert ObservedAfter(a, given.config.keyOf) == ObservedAfter(b, given.config.keyOf);
    }
  }
}
