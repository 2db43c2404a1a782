/**
 Running the tool calls of one assistant message: refused, one after the other, or as background tasks that
 make progress whenever the loop waits, finish in any order, and may die at any point.
 */
module ToolBatches {
  import opened Results
  import opened AgentTypes
  import opened AgentTrace
  import opened RepeatBreaking

  // ----- the environment -----

  /** A cancellation token, if the run has one: sampling it may find that it was cancelled meanwhile. */
  datatype Signal = Absent | Live | Cancelled

  method Poll(signal: Signal) returns (sampled: Signal)
    ensures sampled == signal || (signal.Live? && sampled.Cancelled?)
  {
    sampled := signal;
    if * {
      sampled := if signal.Live? then Cancelled else signal;
    }
  }

  predicate Later(before: Signal, after: Signal) {
    after == before || (before.Live? && after.Cancelled?)
  }

  /** What becomes of a call when the run is not cancelled: there is no such tool, the arguments are not valid, the
      hook before the call blocks it, or it runs and the hook after it leaves this result. */
  datatype Fate = Missing | Invalid | Blocking(terminate: bool) | Runs(result: ToolResult, isError: bool)

  /** What one call gets: the reminder it earned, its fate, and whether a background task running it would die, before
      or after announcing the end. */
  datatype Job = Job(nudge: Option<Nudge>, fate: Fate, dies: bool)

  /** For each call of a batch, by its place: its fate, and whether a background task running it would die. */
  datatype Tools = Tools(fate: nat -> Fate, dies: nat -> bool)

  function JobsFor(nudges: seq<Option<Nudge>>, tools: Tools): (jobs: seq<Job>)
    ensures |jobs| == |nudges|
  {
    seq(|nudges|, i requires 0 <= i < |nudges| => Job(nudges[i], tools.fate(i), tools.dies(i)))
  }

  datatype Reason =
    | NotFound | InvalidArguments | Blocked | Interrupted | NoResult | TextOnly | Truncated

  datatype Config = Config(
    words: (Reason, Name) -> string,
    reminder: Nudge -> string,
    sequential: bool,
    sequentialTool: Name -> bool,
    keyOf: ToolCall -> string)

  datatype Finalized = Finalized(call: ToolCall, result: ToolResult, isError: bool)

  datatype Batch = Batch(results: seq<ToolResultMessage>, terminate: bool)

  function ErrorResult(config: Config, reason: Reason, name: Name): ToolResult {
    ToolResult([TextBlock(config.words(reason, name))], None)
  }

  function ResultMessage(f: Finalized): ToolResultMessage {
    Report(f.call.id, f.call.name, f.result, f.isError)
  }

  function EndEvent(f: Finalized): Event {
    ToolExecutionEnd(f.call.id, f.call.name, f.result, f.isError)
  }

  predicate Terminates(finalized: seq<Finalized>) {
    finalized != [] && forall i | 0 <= i < |finalized| :: finalized[i].result.terminate == Some(true)
  }

  function ApplyNudge(config: Config, f: Finalized, nudge: Option<Nudge>): Finalized {
    if nudge.Some? then f.(result := Apply(f.result, config.reminder(nudge.value))) else f
  }

  function BlockedResult(config: Config, name: Name, terminate: bool): ToolResult {
    var blocked := ErrorResult(config, Blocked, name);
    if terminate then blocked.(terminate := Some(true)) else blocked
  }

  /** What a call comes to when the run is not cancelled. */
  function Due(config: Config, call: ToolCall, job: Job): Finalized {
    match job.fate
    case Missing => Finalized(call, ErrorResult(config, NotFound, call.name), true)
    case Invalid => Finalized(call, ErrorResult(config, InvalidArguments, call.name), true)
    case Blocking(terminate) => Finalized(call, BlockedResult(config, call.name, terminate), true)
    case Runs(result, isError) =>
      if job.dies then Finalized(call, ErrorResult(config, NoResult, call.name), true)
      else Finalized(call, result, isError)
  }

  function Told(config: Config, call: ToolCall, job: Job): Finalized {
    ApplyNudge(config, Due(config, call, job), job.nudge)
  }

  /** An outcome of this call, with the reminder it earned, if any, at the very end; and while the run is not cancelled,
      the one it is due. */
  predicate OutcomeOf(config: Config, call: ToolCall, job: Job, signal: Signal, f: Finalized) {
    && f.call == call
    && (job.nudge.Some? ==> EndsInText(f.result.content, config.reminder(job.nudge.value)))
    && (!signal.Cancelled? ==> f == Told(config, call, job))
  }

  lemma NudgedOutcome(config: Config, call: ToolCall, job: Job, signal: Signal, raw: Finalized)
    requires raw.call == call && (!signal.Cancelled? ==> raw == Due(config, call, job))
    ensures OutcomeOf(config, call, job, signal, ApplyNudge(config, raw, job.nudge))
    ensures ApplyNudge(config, raw, job.nudge).result.terminate == raw.result.terminate
  {
    if job.nudge.Some? {
      ApplyOnlyAppends(raw.result, config.reminder(job.nudge.value));
    }
  }

  /** The results in order, and the batch they make. */
  ghost predicate Collected(
    config: Config, calls: seq<ToolCall>, jobs: seq<Job>, signal: Signal, finalized: seq<Finalized>, batch: Batch)
  {
    && |finalized| == |calls| == |jobs| == |batch.results|
    && (forall i | 0 <= i < |calls| ::
          OutcomeOf(config, calls[i], jobs[i], signal, finalized[i]) && batch.results[i] == ResultMessage(finalized[i]))
    && batch.terminate == Terminates(finalized)
  }

  /** The results of the first calls. */
  ghost predicate CollectedSoFar(
    config: Config, calls: seq<ToolCall>, jobs: seq<Job>, signal: Signal, finalized: seq<Finalized>,
    results: seq<ToolResultMessage>)
  {
    && |results| == |finalized| <= |calls| == |jobs|
    && forall i | 0 <= i < |finalized| ::
         OutcomeOf(config, calls[i], jobs[i], signal, finalized[i]) && results[i] == ResultMessage(finalized[i])
  }

  lemma CollectedMore(
    config: Config, calls: seq<ToolCall>, jobs: seq<Job>, before: Signal, signal: Signal, finalized: seq<Finalized>,
    results: seq<ToolResultMessage>, f: Finalized)
    requires CollectedSoFar(config, calls, jobs, before, finalized, results) && |finalized| < |calls|
    requires Later(before, signal) && OutcomeOf(config, calls[|finalized|], jobs[|finalized|], signal, f)
    ensures CollectedSoFar(config, calls, jobs, signal, finalized + [f], results + [ResultMessage(f)])
  {
  }

  ghost predicate Executed(
    config: Config, calls: seq<ToolCall>, jobs: seq<Job>, signal: Signal, batch: Batch)
  {
    exists finalized :: Collected(config, calls, jobs, signal, finalized, batch)
  }

  /** What every call is due, in source order. */
  function AllTold(config: Config, calls: seq<ToolCall>, jobs: seq<Job>): (finalized: seq<Finalized>)
    requires |calls| == |jobs|
    ensures |finalized| == |calls|
  {
    seq(|calls|, i requires 0 <= i < |calls| => Told(config, calls[i], jobs[i]))
  }

  function BatchOf(finalized: seq<Finalized>): Batch {
    Batch(seq(|finalized|, i requires 0 <= i < |finalized| => ResultMessage(finalized[i])), Terminates(finalized))
  }

  /** Uncancelled, there is one batch the calls can come to. */
  lemma ExecutedIsDue(config: Config, calls: seq<ToolCall>, jobs: seq<Job>, signal: Signal, batch: Batch)
    requires Executed(config, calls, jobs, signal, batch) && !signal.Cancelled?
    ensures |jobs| == |calls| && batch == BatchOf(AllTold(config, calls, jobs))
  {
    var finalized :| Collected(config, calls, jobs, signal, finalized, batch);
    assert finalized == AllTold(config, calls, jobs);
    assert batch.results == BatchOf(finalized).results;
  }

  /** A stage inside a turn with nothing open and nothing running. */
  predicate Idle(s: Stage) {
    Quiet(s) && s.unended == multiset{}
  }

  /** Every result was announced by the end of an execution in this turn. */
  predicate Announced(results: seq<ToolResultMessage>, s: Stage)
    requires s.InTurn?
  {
    forall i | 0 <= i < |results| :: results[i] in s.announced
  }

  /** A batch leaves nothing running; its results are the messages it ended, each announced before. */
  ghost predicate Answered(
    calls: seq<ToolCall>, results: seq<ToolResultMessage>,
    before: Stage, endedBefore: seq<Message>, after: Stage, endedAfter: seq<Message>)
    requires before.InTurn?
  {
    && Idle(after)
    && Answers(calls, results) && Announced(results, after)
    && after.said == before.said + Responses(results)
    && endedAfter == endedBefore + Responses(results)
  }

  /** One more result, of the next call. */
  lemma AnsweredMore(
    calls: seq<ToolCall>, i: nat, results: seq<ToolResultMessage>, r: ToolResultMessage,
    before: Stage, endedBefore: seq<Message>, mid: Stage, endedMid: seq<Message>, after: Stage, endedAfter: seq<Message>)
    requires before.InTurn? && i < |calls| && Answered(calls[..i], results, before, endedBefore, mid, endedMid)
    requires Idle(after) && r.toolCallId == calls[i].id && r.toolName == calls[i].name
    requires after.said == mid.said + [ToolResponse(r)] && endedAfter == endedMid + [ToolResponse(r)]
    requires mid.announced <= after.announced && r in after.announced
    ensures Answered(calls[..i + 1], results + [r], before, endedBefore, after, endedAfter)
  {
    ResponsesSnoc(results, r);
    ConcatAssoc(before.said, Responses(results), [ToolResponse(r)]);
    ConcatAssoc(endedBefore, Responses(results), [ToolResponse(r)]);
  }

  // ----- one call after the other -----

  /** The result of a call that is not executed. */
  function Refusal(config: Config, call: ToolCall, reason: Reason): ToolResultMessage {
    ResultMessage(Finalized(call, ErrorResult(config, reason, call.name), true))
  }

  /** Starts, ends and reports one call that is not executed. */
  method RejectOne(sink: AgentState, config: Config, call: ToolCall, reason: Reason)
    returns (message: ToolResultMessage)
    requires sink.Valid() && Idle(sink.stage)
    modifies sink
    ensures sink.Valid() && sink.history == old(sink.history) && Idle(sink.stage)
    ensures message == Refusal(config, call, reason)
    ensures old(sink.stage).announced <= sink.stage.announced && message in sink.stage.announced
    ensures sink.stage.said == old(sink.stage).said + [ToolResponse(message)]
    ensures sink.ended == old(sink.ended) + [ToolResponse(message)]
  {
    sink.ProcessEvent(ToolExecutionStart(call.id, call.name));
    var finalized := Finalized(call, ErrorResult(config, reason, call.name), true);
    sink.ProcessEvent(EndEvent(finalized));
    message := ResultMessage(finalized);
    sink.EmitMessage(ToolResponse(message));
  }

  predicate Refused(config: Config, calls: seq<ToolCall>, reason: Reason, results: seq<ToolResultMessage>) {
    && |results| == |calls|
    && forall i | 0 <= i < |calls| :: results[i] == Refusal(config, calls[i], reason)
  }

  /** Answers each call of a message with the same refusal; no tool runs. */
  method RejectToolCalls(sink: AgentState, config: Config, calls: seq<ToolCall>, reason: Reason, terminate: bool)
    returns (batch: Batch)
    requires sink.Valid() && Idle(sink.stage)
    modifies sink
    ensures sink.Valid() && sink.history == old(sink.history)
    ensures Answered(calls, batch.results, old(sink.stage), old(sink.ended), sink.stage, sink.ended)
    ensures batch.terminate == terminate
    ensures Refused(config, calls, reason, batch.results)
  {
    var results: seq<ToolResultMessage> := [];
    for i := 0 to |calls|
      invariant sink.Valid() && sink.history == old(sink.history)
      invariant Answered(calls[..i], results, old(sink.stage), old(sink.ended), sink.stage, sink.ended)
      invariant forall k | 0 <= k < i :: results[k] == Refusal(config, calls[k], reason)
    {
      ghost var mid, ended := sink.stage, sink.ended;
      var message := RejectOne(sink, config, calls[i], reason);
      AnsweredMore(calls, i, results, message, old(sink.stage), old(sink.ended), mid, ended, sink.stage, sink.ended);
      results := results + [message];
    }
    assert calls[..|calls|] == calls;
    batch := Batch(results, terminate);
  }

  datatype Preparation = Prepared | Immediate(result: ToolResult, isError: bool)

  /** What the preparation of a call of this fate comes to when the run is not cancelled. */
  function Settled(config: Config, name: Name, fate: Fate): Preparation {
    match fate
    case Missing => Immediate(ErrorResult(config, NotFound, name), true)
    case Invalid => Immediate(ErrorResult(config, InvalidArguments, name), true)
    case Blocking(terminate) => Immediate(BlockedResult(config, name, terminate), true)
    case Runs(_, _) => Prepared
  }

  /** Lookup, validation and the hook before the call; once cancelled, no call is prepared. */
  method PrepareToolCall(config: Config, call: ToolCall, fate: Fate, signal: Signal)
    returns (p: Preparation, sampled: Signal)
    ensures Later(signal, sampled)
    ensures signal.Cancelled? ==> p.Immediate?
    ensures p.Immediate? ==> p.isError
    ensures p.Prepared? ==> fate.Runs?
    ensures !sampled.Cancelled? ==> p == Settled(config, call.name, fate)
  {
    sampled := signal;
    if fate.Missing? {
      return Immediate(ErrorResult(config, NotFound, call.name), true), sampled;
    }
    if fate.Invalid? {
      return Immediate(ErrorResult(config, InvalidArguments, call.name), true), sampled;
    }
    var hooked: bool := *;
    if hooked || fate.Blocking? {
      sampled := Poll(sampled);
      if sampled.Cancelled? {
        return Immediate(ErrorResult(config, Interrupted, call.name), true), sampled;
      }
      if fate.Blocking? {
        return Immediate(BlockedResult(config, call.name, fate.terminate), true), sampled;
      }
    }
    sampled := Poll(sampled);
    p := if sampled.Cancelled? then Immediate(ErrorResult(config, Interrupted, call.name), true) else Prepared;
  }

  /** What the tool and the hook after it leave: their result, or anything at all once the run is cancelled. */
  method Perform(call: ToolCall, fate: Fate, signal: Signal) returns (f: Finalized)
    requires fate.Runs?
    ensures f.call == call
    ensures !signal.Cancelled? ==> f == Finalized(call, fate.result, fate.isError)
  {
    var result, isError := fate.result, fate.isError;
    if signal.Cancelled? {
      result, isError := *, *;
    }
    f := Finalized(call, result, isError);
  }

  /** Any number of updates. */
  method EmitUpdates(sink: AgentState, call: ToolCall)
    requires sink.Valid() && Quiet(sink.stage) && call.id in sink.stage.started
    modifies sink
    ensures sink.Valid() && sink.history == old(sink.history) && sink.ended == old(sink.ended)
    ensures sink.stage == old(sink.stage)
  {
    var updates: nat :| updates >= 0;
    for i := 0 to updates
      invariant sink.Valid() && sink.history == old(sink.history) && sink.ended == old(sink.ended)
      invariant sink.stage == old(sink.stage)
    {
      var partial: ToolResult := *;
      sink.ProcessEvent(ToolExecutionUpdate(call.id, call.name, partial));
    }
  }

  /** Runs one started call to its end: any number of updates, all before the end. */
  method RunToEnd(
    sink: AgentState, config: Config, call: ToolCall, nudge: Option<Nudge>, fate: Fate, signal: Signal)
    returns (f: Finalized, sampled: Signal)
    requires sink.Valid() && Quiet(sink.stage)
    requires call.id in sink.stage.started && sink.stage.unended == multiset{call.id}
    modifies sink
    ensures sink.Valid() && sink.history == old(sink.history) && sink.ended == old(sink.ended)
    ensures Idle(sink.stage) && sink.stage.said == old(sink.stage).said && ResultMessage(f) in sink.stage.announced
    ensures old(sink.stage).announced <= sink.stage.announced
    ensures OutcomeOf(config, call, Job(nudge, fate, false), sampled, f) && Later(signal, sampled)
  {
    var p;
    p, sampled := PrepareToolCall(config, call, fate, signal);
    if p.Immediate? {
      f := Finalized(call, p.result, p.isError);
    } else {
      sampled := Poll(sampled);
      EmitUpdates(sink, call);
      sampled := Poll(sampled);
      f := Perform(call, fate, sampled);
    }
    NudgedOutcome(config, call, Job(nudge, fate, false), sampled, f);
    f := ApplyNudge(config, f, nudge);
    sink.ProcessEvent(EndEvent(f));
  }

  method RunOne(sink: AgentState, config: Config, call: ToolCall, nudge: Option<Nudge>, fate: Fate, signal: Signal)
    returns (f: Finalized, sampled: Signal)
    requires sink.Valid() && Idle(sink.stage)
    modifies sink
    ensures sink.Valid() && sink.history == old(sink.history) && Idle(sink.stage)
    ensures OutcomeOf(config, call, Job(nudge, fate, false), sampled, f) && Later(signal, sampled)
    ensures old(sink.stage).announced <= sink.stage.announced && ResultMessage(f) in sink.stage.announced
    ensures sink.stage.said == old(sink.stage).said + [ToolResponse(ResultMessage(f))]
    ensures sink.ended == old(sink.ended) + [ToolResponse(ResultMessage(f))]
  {
    sink.ProcessEvent(ToolExecutionStart(call.id, call.name));
    f, sampled := RunToEnd(sink, config, call, nudge, fate, signal);
    sink.EmitMessage(ToolResponse(ResultMessage(f)));
  }

  /** The same calls where no background task can die. */
  function Undying(jobs: seq<Job>): (steady: seq<Job>)
    ensures |steady| == |jobs|
  {
    seq(|jobs|, i requires 0 <= i < |jobs| => jobs[i].(dies := false))
  }

  method ExecuteSequential(sink: AgentState, config: Config, calls: seq<ToolCall>, jobs: seq<Job>, signal: Signal)
    returns (batch: Batch, sampled: Signal, ghost finalized: seq<Finalized>)
    requires sink.Valid() && Idle(sink.stage) && |jobs| == |calls|
    modifies sink
    ensures sink.Valid() && sink.history == old(sink.history) && Later(signal, sampled)
    ensures Collected(config, calls, Undying(jobs), sampled, finalized, batch)
    ensures Answered(calls, batch.results, old(sink.stage), old(sink.ended), sink.stage, sink.ended)
  {
    var outcomes: seq<Finalized>, results: seq<ToolResultMessage> := [], [];
    ghost var steady := Undying(jobs);
    sampled := signal;
    for i := 0 to |calls|
      invariant sink.Valid() && sink.history == old(sink.history) && Later(signal, sampled)
      invariant |outcomes| == i && CollectedSoFar(config, calls, steady, sampled, outcomes, results)
      invariant Answered(calls[..i], results, old(sink.stage), old(sink.ended), sink.stage, sink.ended)
    {
      ghost var mid, ended, before := sink.stage, sink.ended, sampled;
      var f;
      f, sampled := RunOne(sink, config, calls[i], jobs[i].nudge, jobs[i].fate, sampled);
      AnsweredMore(calls, i, results, ResultMessage(f), old(sink.stage), old(sink.ended), mid, ended,
                   sink.stage, sink.ended);
      CollectedMore(config, calls, steady, before, sampled, outcomes, results, f);
      outcomes, results := outcomes + [f], results + [ResultMessage(f)];
    }
    assert calls[..|calls|] == calls;
    batch, finalized := Batch(results, Terminates(outcomes)), outcomes;
  }
}
