/**
 The events of a run: an automaton that accepts exactly the well-formed traces, and the reducer that keeps the
 agent's visible state up to date with them.
 */
module AgentTrace {
  import opened Results
  import opened AgentTypes

  // ----- well-formed traces -----

  /** Where a trace stands. Inside a turn: the message being streamed, the ids of tool executions started in this
      turn and of those not ended yet, the results announced by their ends, and the messages ended in this turn. */
  datatype Stage =
    | Nothing
    | Started
    | InTurn(
        open: Option<Message>, started: set<Id>, unended: multiset<Id>, announced: set<ToolResultMessage>,
        said: seq<Message>)
    | BetweenTurns
    | Over
    | Malformed

  const FreshTurn := InTurn(None, {}, multiset{}, {}, [])

  predicate Quiet(s: Stage) {
    s.InTurn? && s.open.None?
  }

  /** A message ends as it started, except that an assistant message is streamed under changing content. */
  predicate Closes(open: Message, m: Message) {
    open == m || (open.Assistant? && m.Assistant?)
  }

  /** Once an execution has started in this turn, a tool result is reported only after an end announced that very
      result; before that, only queued messages are reported. */
  predicate Reportable(s: Stage, m: Message)
    requires s.InTurn?
  {
    m.ToolResponse? && s.started != {} ==> m.result in s.announced
  }

  predicate EndsWith(said: seq<Message>, tail: seq<Message>) {
    |tail| <= |said| && said[|said| - |tail|..] == tail
  }

  function After(s: Stage, e: Event): Stage {
    match e
    case AgentStart => if s.Nothing? then Started else Malformed
    case TurnStart => if s.Started? || s.BetweenTurns? then FreshTurn else Malformed
    case MessageStart(m) => if Quiet(s) && Reportable(s, m) then s.(open := Some(m)) else Malformed
    case MessageUpdate(m) =>
      if s.InTurn? && s.open.Some? && s.open.value.Assistant? && m.Assistant? then s.(open := Some(m)) else Malformed
    case MessageEnd(m) =>
      if s.InTurn? && s.open.Some? && Closes(s.open.value, m) then s.(open := None, said := s.said + [m])
      else Malformed
    case ToolExecutionStart(id, _) =>
      if Quiet(s) then s.(started := s.started + {id}, unended := s.unended + multiset{id}) else Malformed
    case ToolExecutionUpdate(id, _, _) => if Quiet(s) && id in s.started then s else Malformed
    case ToolExecutionEnd(id, name, outcome, isError) =>
      if Quiet(s) && id in s.started then
        s.(unended := s.unended - multiset{id}, announced := s.announced + {Report(id, name, outcome, isError)})
      else Malformed
    case TurnEnd(m, results) =>
      if Quiet(s) && s.unended == multiset{} && m.Assistant? && EndsWith(s.said, [m] + Responses(results))
      then BetweenTurns else Malformed
    case AgentEnd(_) => if s.BetweenTurns? then Over else Malformed
  }

  /** The stage before event `k`. */
  function StageBefore(trace: seq<Event>, k: nat): Stage
    requires k <= |trace|
  {
    if k == 0 then Nothing else After(StageBefore(trace, k - 1), trace[k - 1])
  }

  function StageOf(trace: seq<Event>): Stage {
    StageBefore(trace, |trace|)
  }

  /** The messages of the first `k` events that are a `MessageEnd`, in emission order. */
  function EndsBefore(trace: seq<Event>, k: nat): seq<Message>
    requires k <= |trace|
  {
    if k == 0 then [] else EndsBefore(trace, k - 1) + EndedBy(trace[k - 1])
  }

  /** The messages of all `MessageEnd` events, in emission order. */
  function MessageEnds(trace: seq<Event>): seq<Message> {
    EndsBefore(trace, |trace|)
  }

  function EndedBy(e: Event): seq<Message> {
    if e.MessageEnd? then [e.message] else []
  }

  /** A finished run: it ends with its one `AgentEnd`, which carries every message that ended. */
  ghost predicate Complete(trace: seq<Event>, messages: seq<Message>) {
    && StageOf(trace) == Over
    && MessageEnds(trace) == messages
    && trace != [] && trace[|trace| - 1] == AgentEnd(messages)
  }

  // ----- what a well-formed trace shows -----

  lemma {:induction false} SameBefore(trace: seq<Event>, e: Event, k: nat)
    requires k <= |trace|
    ensures StageBefore(trace + [e], k) == StageBefore(trace, k) && EndsBefore(trace + [e], k) == EndsBefore(trace, k)
  {
    if k > 0 {
      SameBefore(trace, e, k - 1);
      assert (trace + [e])[k - 1] == trace[k - 1];
    }
  }

  lemma Emitted(trace: seq<Event>, e: Event)
    ensures StageOf(trace + [e]) == After(StageOf(trace), e) && MessageEnds(trace + [e]) == MessageEnds(trace) + EndedBy(e)
  {
    SameBefore(trace, e, |trace|);
  }

  lemma {:induction false} MalformedForGood(trace: seq<Event>, k: nat, n: nat)
    requires k <= n <= |trace| && StageBefore(trace, n) != Malformed
    ensures StageBefore(trace, k) != Malformed
    decreases n
  {
    if k < n {
      MalformedForGood(trace, k, n - 1);
    }
  }

  lemma StageAt(trace: seq<Event>, k: nat)
    requires k < |trace| && StageOf(trace) != Malformed
    ensures StageBefore(trace, k + 1) == After(StageBefore(trace, k), trace[k]) != Malformed
  {
    MalformedForGood(trace, k + 1, |trace|);
  }

  lemma StepAtTheEnds(s: Stage, e: Event)
    requires After(s, e) != Malformed
    ensures e.AgentStart? <==> s == Nothing
    ensures e.AgentEnd? <==> After(s, e) == Over
    ensures After(s, e) != Nothing && s != Over
  {
  }

  /** The one `AgentStart` comes first, and an `AgentEnd` only at the very end. */
  lemma StartFirstEndLast(trace: seq<Event>, k: nat)
    requires StageOf(trace) != Malformed && k < |trace|
    ensures trace[k].AgentStart? <==> k == 0
    ensures trace[k].AgentEnd? ==> k == |trace| - 1
  {
    StageAt(trace, k);
    StepAtTheEnds(StageBefore(trace, k), trace[k]);
    if k > 0 {
      StageAt(trace, k - 1);
      StepAtTheEnds(StageBefore(trace, k - 1), trace[k - 1]);
    }
    if k + 1 < |trace| {
      StageAt(trace, k + 1);
      StepAtTheEnds(StageBefore(trace, k + 1), trace[k + 1]);
    }
  }

  predicate Boundary(e: Event) {
    e.TurnStart? || e.TurnEnd?
  }

  lemma StepWithinTurns(s: Stage, e: Event)
    requires After(s, e) != Malformed
    ensures e.TurnStart? ==> !s.InTurn? && After(s, e).InTurn?
    ensures e.TurnEnd? ==> s.InTurn? && After(s, e) == BetweenTurns
    ensures !Boundary(e) ==> (s.InTurn? <==> After(s, e).InTurn?)
    ensures !Boundary(e) && (s.BetweenTurns? || s.Over?) ==> After(s, e) == Over
    ensures s != Over
  {
  }

  /** The stage stays on the same side of the turn boundary until the next boundary event. */
  lemma {:induction false} BetweenBoundaries(trace: seq<Event>, i: nat, j: nat)
    requires StageOf(trace) != Malformed && i < j <= |trace| && Boundary(trace[i])
    requires forall k | i < k < j :: !Boundary(trace[k])
    ensures trace[i].TurnStart? ==> StageBefore(trace, j).InTurn?
    ensures trace[i].TurnEnd? ==> StageBefore(trace, j).BetweenTurns? || StageBefore(trace, j).Over?
    decreases j
  {
    StageAt(trace, j - 1);
    StepWithinTurns(StageBefore(trace, j - 1), trace[j - 1]);
    if i + 1 < j {
      BetweenBoundaries(trace, i, j - 1);
    }
  }

  /** `TurnStart` and `TurnEnd` alternate: the next of the two after either is the other kind. */
  lemma TurnsAlternate(trace: seq<Event>, i: nat, j: nat)
    requires StageOf(trace) != Malformed && i < j < |trace| && Boundary(trace[i]) && Boundary(trace[j])
    requires forall k | i < k < j :: !Boundary(trace[k])
    ensures trace[i].TurnStart? <==> trace[j].TurnEnd?
  {
    BetweenBoundaries(trace, i, j);
    StageAt(trace, j);
    StepWithinTurns(StageBefore(trace, j), trace[j]);
  }

  predicate Starts(e: Event, id: Id) {
    e.ToolExecutionStart? && e.id == id
  }

  predicate Ends(e: Event, id: Id) {
    e.ToolExecutionEnd? && e.id == id
  }

  /** How often executions of that id are started, and ended, by the events from `lo` on and before `hi`. */
  function StartCount(trace: seq<Event>, lo: nat, hi: nat, id: Id): nat
    requires lo <= hi <= |trace|
    decreases hi
  {
    if lo == hi then 0 else StartCount(trace, lo, hi - 1, id) + if Starts(trace[hi - 1], id) then 1 else 0
  }

  function EndCount(trace: seq<Event>, lo: nat, hi: nat, id: Id): nat
    requires lo <= hi <= |trace|
    decreases hi
  {
    if lo == hi then 0 else EndCount(trace, lo, hi - 1, id) + if Ends(trace[hi - 1], id) then 1 else 0
  }

  lemma StepCounts(s: Stage, e: Event, id: Id)
    requires s.InTurn? && After(s, e).InTurn?
    ensures s.unended[id] + (if Starts(e, id) then 1 else 0) <= After(s, e).unended[id] + if Ends(e, id) then 1 else 0
  {
  }

  /** Before event `k`, what was started and not ended since `lo` is unended. */
  ghost predicate Balanced(trace: seq<Event>, lo: nat, k: nat, id: Id)
    requires lo <= k <= |trace|
  {
    && StageBefore(trace, k).InTurn?
    && StartCount(trace, lo, k, id) <= StageBefore(trace, k).unended[id] + EndCount(trace, lo, k, id)
  }

  lemma BalancedStep(trace: seq<Event>, lo: nat, k: nat, id: Id)
    requires StageOf(trace) != Malformed && lo <= k < |trace| && Balanced(trace, lo, k, id) && !Boundary(trace[k])
    ensures Balanced(trace, lo, k + 1, id)
  {
    StageAt(trace, k);
    StepWithinTurns(StageBefore(trace, k), trace[k]);
    StepCounts(StageBefore(trace, k), trace[k], id);
  }

  lemma {:induction false} BalancedInTurn(trace: seq<Event>, i: nat, lo: nat, j: nat, id: Id)
    requires StageOf(trace) != Malformed && i < lo <= j <= |trace| && trace[i].TurnStart?
    requires forall k | i < k < j :: !Boundary(trace[k])
    ensures Balanced(trace, lo, j, id)
    decreases j
  {
    if lo < j {
      var last := j - 1;
      BalancedInTurn(trace, i, lo, last, id);
      BalancedStep(trace, lo, last, id);
      assert last + 1 == j;
    } else {
      BetweenBoundaries(trace, i, lo);
      BalancedAtFirst(trace, lo, id);
    }
  }

  lemma BalancedAtFirst(trace: seq<Event>, lo: nat, id: Id)
    requires lo <= |trace| && StageBefore(trace, lo).InTurn?
    ensures Balanced(trace, lo, lo, id)
  {
  }

  /** From any point of a turn to its `TurnEnd`, an execution id is ended at least as often as it is started. */
  lemma StartedEndsInTurn(trace: seq<Event>, i: nat, k: nat, j: nat, id: Id)
    requires StageOf(trace) != Malformed && i < k <= j < |trace| && trace[i].TurnStart? && trace[j].TurnEnd?
    requires forall e | i < e < j :: !Boundary(trace[e])
    ensures StartCount(trace, k, j, id) <= EndCount(trace, k, j, id)
  {
    BalancedInTurn(trace, i, k, j, id);
    StageAt(trace, j);
  }

  lemma {:induction false} CountsSplit(trace: seq<Event>, lo: nat, hi: nat, id: Id)
    requires lo < hi <= |trace|
    ensures StartCount(trace, lo, hi, id) >= if Starts(trace[lo], id) then 1 else 0
    decreases hi
  {
    if lo + 1 < hi {
      CountsSplit(trace, lo, hi - 1, id);
    } else {
      assert StartCount(trace, lo, lo, id) == 0;
    }
  }

  lemma {:induction false} EndAmong(trace: seq<Event>, lo: nat, hi: nat, id: Id) returns (e: nat)
    requires lo <= hi <= |trace| && EndCount(trace, lo, hi, id) > 0
    ensures lo <= e < hi && Ends(trace[e], id)
    decreases hi
  {
    if Ends(trace[hi - 1], id) {
      e := hi - 1;
    } else {
      e := EndAmong(trace, lo, hi - 1, id);
    }
  }

  /** Every tool execution that starts is followed by an end of that id before its turn ends. */
  lemma StartIsEnded(trace: seq<Event>, i: nat, k: nat, j: nat) returns (e: nat)
    requires StageOf(trace) != Malformed && i < k < j < |trace| && trace[i].TurnStart? && trace[j].TurnEnd?
    requires forall e | i < e < j :: !Boundary(trace[e])
    requires trace[k].ToolExecutionStart?
    ensures k < e < j && Ends(trace[e], trace[k].id)
  {
    StartedEndsInTurn(trace, i, k, j, trace[k].id);
    CountsSplit(trace, k, j, trace[k].id);
    e := EndAmong(trace, k, j, trace[k].id);
  }

  /** The message open before event `k`. */
  function OpenBefore(trace: seq<Event>, k: nat): Option<Message>
    requires k <= |trace|
  {
    var s := StageBefore(trace, k);
    if s.InTurn? then s.open else None
  }

  /** A message is open after its start, or after an update of one that was open. */
  lemma OpenStep(trace: seq<Event>, k: nat)
    requires StageOf(trace) != Malformed && k < |trace| && OpenBefore(trace, k + 1).Some?
    ensures trace[k].MessageStart? || trace[k].MessageUpdate?
    ensures OpenBefore(trace, k + 1).value == trace[k].message
    ensures trace[k].MessageUpdate? ==>
              && trace[k].message.Assistant?
              && OpenBefore(trace, k).Some? && OpenBefore(trace, k).value.Assistant?
  {
    StageAt(trace, k);
  }

  lemma {:induction false} OpenedBefore(trace: seq<Event>, j: nat) returns (i: nat)
    requires StageOf(trace) != Malformed && j <= |trace| && OpenBefore(trace, j).Some?
    ensures i < j && trace[i].MessageStart? && Closes(trace[i].message, OpenBefore(trace, j).value)
    ensures forall k | i < k < j :: trace[k].MessageUpdate?
    decreases j
  {
    OpenStep(trace, j - 1);
    if trace[j - 1].MessageStart? {
      i := j - 1;
    } else {
      i := OpenedBefore(trace, j - 1);
    }
  }

  /** Every `MessageEnd` closes the message of its own `MessageStart`, with only updates in between. */
  lemma EndHasStart(trace: seq<Event>, j: nat) returns (i: nat)
    requires StageOf(trace) != Malformed && j < |trace| && trace[j].MessageEnd?
    ensures i < j && trace[i].MessageStart? && Closes(trace[i].message, trace[j].message)
    ensures forall k | i < k < j :: trace[k].MessageUpdate?
  {
    StageAt(trace, j);
    i := OpenedBefore(trace, j);
  }

  // ----- the reducer -----

  /** The streaming message is the open one, and only unended executions are pending. */
  ghost predicate Mirrors(s: Stage, streaming: Option<Message>, pending: set<Id>) {
    && streaming == (if s.InTurn? then s.open else None)
    && (if s.InTurn? then forall id | id in pending :: id in s.unended else pending == {})
  }

  function StreamingAfter(streaming: Option<Message>, e: Event): Option<Message> {
    match e
    case MessageStart(m) => Some(m)
    case MessageUpdate(m) => Some(m)
    case MessageEnd(_) => None
    case AgentEnd(_) => None
    case _ => streaming
  }

  function PendingAfter(pending: set<Id>, e: Event): set<Id> {
    match e
    case ToolExecutionStart(id, _) => pending + {id}
    case ToolExecutionEnd(id, _, _, _) => pending - {id}
    case _ => pending
  }

  function ErrorAfter(error: Option<string>, e: Event): Option<string> {
    if e.TurnEnd? && e.message.Assistant? && e.message.assistant.errorMessage.Some?
    then e.message.assistant.errorMessage else error
  }

  lemma StillMirrors(s: Stage, streaming: Option<Message>, pending: set<Id>, e: Event)
    requires Mirrors(s, streaming, pending) && After(s, e) != Malformed
    ensures Mirrors(After(s, e), StreamingAfter(streaming, e), PendingAfter(pending, e))
  {
  }

  /** The agent's visible state, fed by the event sink. */
  class AgentState {
    var messages: seq<Message>
    var streamingMessage: Option<Message>
    var pendingToolCalls: set<Id>
    var errorMessage: Option<string>
    ghost var history: seq<Message>
    ghost var trace: seq<Event>
    ghost var stage: Stage
    ghost var ended: seq<Message>

    /** Whatever was emitted, the visible messages are the history and every message that ended; and while the
        trace is well formed, the streaming message is the open one and only unended executions are pending. */
    ghost predicate Valid()
      reads this
    {
      && stage == StageOf(trace)
      && ended == MessageEnds(trace)
      && messages == history + ended
      && (!stage.Malformed? ==> Mirrors(stage, streamingMessage, pendingToolCalls))
    }

    constructor (initial: seq<Message>)
      ensures Valid() && messages == initial && trace == [] && ended == [] && stage == Nothing && history == initial
      ensures errorMessage == None
    {
      messages, streamingMessage, pendingToolCalls, errorMessage := initial, None, {}, None;
      history, trace, stage, ended := initial, [], Nothing, [];
    }

    method ProcessEvent(e: Event)
      requires Valid()
      modifies this
      ensures Valid() && trace == old(trace) + [e]
      ensures stage == After(old(stage), e) && ended == old(ended) + EndedBy(e)
      ensures history == old(history) && messages == old(messages) + EndedBy(e)
      ensures errorMessage == ErrorAfter(old(errorMessage), e)
    {
      if After(stage, e) != Malformed {
        StillMirrors(stage, streamingMessage, pendingToolCalls, e);
      }
      Reduce(e);
      ConcatAssoc(history, ended, EndedBy(e));
      Emitted(trace, e);
      trace, stage, ended := trace + [e], After(stage, e), ended + EndedBy(e);
    }

    /** What an event does to the visible state. */
    method Reduce(e: Event)
      modifies this`messages, this`streamingMessage, this`pendingToolCalls, this`errorMessage
      ensures messages == old(messages) + EndedBy(e)
      ensures streamingMessage == StreamingAfter(old(streamingMessage), e)
      ensures pendingToolCalls == PendingAfter(old(pendingToolCalls), e)
      ensures errorMessage == ErrorAfter(old(errorMessage), e)
    {
      match e {
        case MessageStart(m) => streamingMessage := Some(m);
        case MessageUpdate(m) => streamingMessage := Some(m);
        case MessageEnd(m) =>
          streamingMessage := None;
          messages := messages + [m];
        case ToolExecutionStart(id, _) => pendingToolCalls := pendingToolCalls + {id};
        case ToolExecutionEnd(id, _, _, _) => pendingToolCalls := pendingToolCalls - {id};
        case TurnEnd(m, _) =>
          if m.Assistant? && m.assistant.errorMessage.Some? {
            errorMessage := m.assistant.errorMessage;
          }
        case AgentEnd(_) => streamingMessage := None;
        case _ =>
      }
    }

    /** A run begins: nothing has been emitted yet. */
    method BeginRun()
      requires Valid() && trace == []
      modifies this
      ensures Valid() && trace == [] && history == messages == old(messages) && errorMessage == None
    {
      streamingMessage, errorMessage := None, None;
      history, ended := messages, [];
      assert messages + [] == messages;
    }

    /** A run is over, however it went: nothing is streaming or pending, and its messages are history. */
    method EndRun()
      requires Valid()
      modifies this
      ensures Valid() && trace == [] && messages == old(messages) && errorMessage == old(errorMessage)
      ensures streamingMessage == None && pendingToolCalls == {}
    {
      streamingMessage, pendingToolCalls := None, {};
      history, trace, stage, ended := messages, [], Nothing, [];
      assert messages + [] == messages;
    }

    /** Emits a whole message at once. */
    method EmitMessage(m: Message)
      requires Valid() && Quiet(stage) && Reportable(stage, m)
      modifies this
      ensures Valid() && history == old(history)
      ensures trace == old(trace) + [MessageStart(m), MessageEnd(m)]
      ensures stage == old(stage).(said := old(stage).said + [m]) && ended == old(ended) + [m]
    {
      ProcessEvent(MessageStart(m));
      ProcessEvent(MessageEnd(m));
    }
  }
}
