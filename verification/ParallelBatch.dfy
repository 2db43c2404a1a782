/**
 Running the tool calls of one message as background tasks: preflight in source order, tasks that make progress
 whenever the loop waits, end in any order and may die at any point, and results put back in source order.
 */
module ParallelBatches {
  import opened Results
  import opened AgentTypes
  import opened AgentTrace
  import opened RepeatBreaking
  import opened ToolBatches

  /** A background task. `Preparing` is not spawned yet; `Announced` has emitted its end but not returned yet; `Dead`
      died before or after emitting it; `NoTask` was never spawned, or was joined already. */
  datatype Task = NoTask | Preparing | Running | Announced(finalized: Finalized) | Returned(finalized: Finalized) | Dead

  predicate HasOutcome(t: Task) {
    t.Announced? || t.Returned?
  }

  predicate Spawned(t: Task) {
    !t.NoTask? && !t.Preparing?
  }

  datatype Entry = Entry(index: nat, finalized: Finalized)

  // ----- executions that have started but not ended -----

  /** The first `n` calls that are not marked ended. */
  function OwedOf(calls: seq<ToolCall>, ended: seq<bool>, n: nat): multiset<Id>
    requires n <= |ended| <= |calls|
  {
    if n == 0 then multiset{}
    else OwedOf(calls, ended, n - 1) + OwedAt(calls, ended, n - 1)
  }

  function OwedAt(calls: seq<ToolCall>, ended: seq<bool>, k: nat): multiset<Id>
    requires k < |ended| <= |calls|
  {
    if ended[k] then multiset{} else multiset{calls[k].id}
  }

  function Owed(calls: seq<ToolCall>, ended: seq<bool>): multiset<Id>
    requires |ended| <= |calls|
  {
    OwedOf(calls, ended, |ended|)
  }

  lemma {:induction false} OwedSame(calls: seq<ToolCall>, a: seq<bool>, b: seq<bool>, n: nat)
    requires n <= |a| <= |calls| && n <= |b| <= |calls| && forall k | 0 <= k < n :: a[k] == b[k]
    ensures OwedOf(calls, a, n) == OwedOf(calls, b, n)
    decreases n
  {
    if n > 0 {
      OwedSame(calls, a, b, n - 1);
    }
  }

  lemma OwedSnoc(calls: seq<ToolCall>, ended: seq<bool>)
    requires |ended| < |calls|
    ensures Owed(calls, ended + [false]) == Owed(calls, ended) + multiset{calls[|ended|].id}
  {
    OwedSame(calls, ended + [false], ended, |ended|);
  }

  lemma LessThrough<T>(a: multiset<T>, b: multiset<T>, c: multiset<T>, y: T)
    requires a <= b && b - multiset{y} <= c
    ensures a - multiset{y} <= c
  {
  }

  lemma LessSum<T>(a: multiset<T>, b: multiset<T>, x: multiset<T>)
    requires a <= b
    ensures a + x <= b + x
  {
  }

  lemma SwapSum<T>(a: multiset<T>, b: multiset<T>, c: multiset<T>)
    ensures (a + b) + c == (a + c) + b
  {
  }

  lemma SumNone<T>(a: multiset<T>)
    ensures a + multiset{} == a
  {
  }

  lemma LessOne<T>(a: multiset<T>, b: multiset<T>, y: T)
    requires b == multiset{} || b == multiset{y}
    ensures (a + b) - multiset{y} <= a
  {
  }

  /** Marking a call ended takes away what it owed. */
  lemma {:induction false} OwedLess(calls: seq<ToolCall>, ended: seq<bool>, k: nat, n: nat)
    requires k < n <= |ended| <= |calls|
    ensures OwedOf(calls, ended, n) == OwedOf(calls, ended[k := true], n) + OwedAt(calls, ended, k)
    decreases n
  {
    var marked, m := ended[k := true], n - 1;
    var before, last := OwedOf(calls, marked, m), OwedAt(calls, marked, m);
    assert OwedOf(calls, marked, n) == before + last;
    if k == m {
      OwedSame(calls, ended, marked, m);
      SumNone(before);
      assert last == multiset{};
    } else {
      OwedLess(calls, ended, k, m);
      SwapSum(before, OwedAt(calls, ended, k), last);
      assert last == OwedAt(calls, ended, m);
    }
  }

  lemma OwedEnds(calls: seq<ToolCall>, ended: seq<bool>, k: nat)
    requires k < |ended| <= |calls|
    ensures Owed(calls, ended) - multiset{calls[k].id} <= Owed(calls, ended[k := true])
  {
    OwedLess(calls, ended, k, |ended|);
    LessOne(Owed(calls, ended[k := true]), OwedAt(calls, ended, k), calls[k].id);
  }

  lemma NothingOwed(calls: seq<ToolCall>, ended: seq<bool>)
    requires |ended| <= |calls| && forall k | 0 <= k < |ended| :: ended[k]
    ensures Owed(calls, ended) == multiset{}
  {
    NothingOwedOf(calls, ended, |ended|);
  }

  lemma {:induction false} NothingOwedOf(calls: seq<ToolCall>, ended: seq<bool>, n: nat)
    requires n <= |ended| <= |calls| && forall k | 0 <= k < n :: ended[k]
    ensures OwedOf(calls, ended, n) == multiset{}
    decreases n
  {
    if n > 0 {
      NothingOwedOf(calls, ended, n - 1);
    }
  }

  /** The sink during a batch: the first `|ended|` calls have started, and only calls not marked ended are owed an
      end. */
  ghost predicate Under(calls: seq<ToolCall>, ended: seq<bool>, s: Stage) {
    && |ended| <= |calls| && Quiet(s)
    && (forall k | 0 <= k < |ended| :: calls[k].id in s.started)
    && s.unended <= Owed(calls, ended)
  }

  lemma EndedUnder(calls: seq<ToolCall>, ended: seq<bool>, s: Stage, k: nat, f: Finalized)
    requires Under(calls, ended, s) && k < |ended| && f.call == calls[k]
    ensures var next := After(s, EndEvent(f));
            && Under(calls, ended[k := true], next) && next.said == s.said
            && next.announced == s.announced + {ResultMessage(f)}
  {
    var id := calls[k].id;
    OwedEnds(calls, ended, k);
    LessThrough(s.unended, Owed(calls, ended), Owed(calls, ended[k := true]), id);
  }

  lemma StartedUnder(calls: seq<ToolCall>, ended: seq<bool>, s: Stage)
    requires Under(calls, ended, s) && |ended| < |calls|
    ensures var call := calls[|ended|];
            && var next := After(s, ToolExecutionStart(call.id, call.name));
            && Under(calls, ended + [false], next) && next.said == s.said && next.announced == s.announced
  {
    var id := calls[|ended|].id;
    OwedSnoc(calls, ended);
    LessSum(s.unended, Owed(calls, ended), multiset{id});
  }

  /** The outcome of this call, announced by the end of an execution. */
  predicate Heard(
    config: Config, call: ToolCall, job: Job, heard: set<ToolResultMessage>, signal: Signal, f: Finalized)
  {
    OutcomeOf(config, call, job, signal, f) && ResultMessage(f) in heard
  }

  /** Only prepared calls are spawned; a task with an outcome has announced it, with its reminder; and exactly those
      that die do not return. */
  ghost predicate TaskGood(
    config: Config, call: ToolCall, job: Job, task: Task, ended: bool, heard: set<ToolResultMessage>, signal: Signal)
  {
    && (Spawned(task) ==> job.fate.Runs?)
    && (HasOutcome(task) ==> ended && (!job.dies ==> Heard(config, call, job, heard, signal, task.finalized)))
    && (task.Returned? ==> !job.dies)
    && (task.Dead? ==> job.dies)
  }

  ghost predicate InFlight(
    config: Config, calls: seq<ToolCall>, jobs: seq<Job>, tasks: seq<Task>, ended: seq<bool>,
    heard: set<ToolResultMessage>, signal: Signal)
  {
    && |tasks| == |ended| <= |calls| == |jobs|
    && forall k | 0 <= k < |tasks| :: TaskGood(config, calls[k], jobs[k], tasks[k], ended[k], heard, signal)
  }

  lemma InFlightLater(
    config: Config, calls: seq<ToolCall>, jobs: seq<Job>, tasks: seq<Task>, ended: seq<bool>,
    heard: set<ToolResultMessage>, signal: Signal, more: set<ToolResultMessage>, later: Signal)
    requires InFlight(config, calls, jobs, tasks, ended, heard, signal) && heard <= more && Later(signal, later)
    ensures InFlight(config, calls, jobs, tasks, ended, more, later)
  {
    forall k | 0 <= k < |tasks|
      ensures TaskGood(config, calls[k], jobs[k], tasks[k], ended[k], more, later)
    {
      assert TaskGood(config, calls[k], jobs[k], tasks[k], ended[k], heard, signal);
    }
  }

  /** One task moved on. */
  lemma InFlightMoved(
    config: Config, calls: seq<ToolCall>, jobs: seq<Job>, tasks: seq<Task>, ended: seq<bool>,
    heard: set<ToolResultMessage>, signal: Signal, k: nat, task: Task, done: bool)
    requires InFlight(config, calls, jobs, tasks, ended, heard, signal) && k < |tasks|
    requires TaskGood(config, calls[k], jobs[k], task, done, heard, signal)
    ensures InFlight(config, calls, jobs, tasks[k := task], ended[k := done], heard, signal)
  {
    forall i | 0 <= i < |tasks|
      ensures TaskGood(config, calls[i], jobs[i], tasks[k := task][i], ended[k := done][i], heard, signal)
    {
      assert TaskGood(config, calls[i], jobs[i], tasks[i], ended[i], heard, signal);
    }
  }

  /** The same calls have no task, and the same are being prepared. */
  ghost predicate SameTasks(before: seq<Task>, after: seq<Task>) {
    && |before| == |after|
    && (forall k | 0 <= k < |before| :: before[k].NoTask? <==> after[k].NoTask?)
    && (forall k | 0 <= k < |before| :: before[k].Preparing? <==> after[k].Preparing?)
  }

  ghost predicate StillEnded(before: seq<bool>, after: seq<bool>) {
    |before| == |after| && forall k | 0 <= k < |before| && before[k] :: after[k]
  }

  /** Emits the end of call `k`, with the reminder it earned. */
  method Announce(
    sink: AgentState, config: Config, calls: seq<ToolCall>, k: nat, nudge: Option<Nudge>, raw: Finalized,
    ghost ended: seq<bool>)
    returns (f: Finalized)
    requires sink.Valid() && k < |ended| && Under(calls, ended, sink.stage) && raw.call == calls[k]
    modifies sink
    ensures sink.Valid() && sink.history == old(sink.history) && sink.ended == old(sink.ended)
    ensures Under(calls, ended[k := true], sink.stage) && sink.stage.said == old(sink.stage).said
    ensures f == ApplyNudge(config, raw, nudge) && ResultMessage(f) in sink.stage.announced
    ensures old(sink.stage).announced <= sink.stage.announced
  {
    f := ApplyNudge(config, raw, nudge);
    EndedUnder(calls, ended, sink.stage, k, f);
    sink.ProcessEvent(EndEvent(f));
  }

  /** A running task ends: it may die before it announces anything. */
  method EndTask(
    sink: AgentState, config: Config, calls: seq<ToolCall>, jobs: seq<Job>, tasks: seq<Task>, k: nat, signal: Signal,
    ghost ended: seq<bool>)
    returns (after: seq<Task>, ghost endedAfter: seq<bool>)
    requires sink.Valid() && Under(calls, ended, sink.stage)
    requires InFlight(config, calls, jobs, tasks, ended, sink.stage.announced, signal)
    requires k < |tasks| && tasks[k].Running?
    modifies sink
    ensures sink.Valid() && sink.history == old(sink.history) && sink.ended == old(sink.ended)
    ensures sink.stage.InTurn? && sink.stage.said == old(sink.stage).said
    ensures Under(calls, endedAfter, sink.stage)
    ensures InFlight(config, calls, jobs, after, endedAfter, sink.stage.announced, signal)
    ensures old(sink.stage).announced <= sink.stage.announced
    ensures SameTasks(tasks, after) && StillEnded(ended, endedAfter) && (after[k].Announced? || after[k].Dead?)
  {
    assert TaskGood(config, calls[k], jobs[k], tasks[k], ended[k], sink.stage.announced, signal);
    var early: bool := *;
    if jobs[k].dies && early {
      InFlightMoved(config, calls, jobs, tasks, ended, sink.stage.announced, signal, k, Dead, ended[k]);
      after, endedAfter := tasks[k := Dead], ended;
      assert ended[k := ended[k]] == ended;
    } else {
      ghost var heard := sink.stage.announced;
      var raw := Perform(calls[k], jobs[k].fate, signal);
      var f := Announce(sink, config, calls, k, jobs[k].nudge, raw, ended);
      if !jobs[k].dies {
        NudgedOutcome(config, calls[k], jobs[k], signal, raw);
      }
      InFlightLater(config, calls, jobs, tasks, ended, heard, signal, sink.stage.announced, signal);
      InFlightMoved(config, calls, jobs, tasks, ended, sink.stage.announced, signal, k, Announced(f), true);
      after, endedAfter := tasks[k := Announced(f)], ended[k := true];
    }
  }

  /** A task that has announced its end returns, or dies. */
  method LeaveTask(
    config: Config, calls: seq<ToolCall>, jobs: seq<Job>, tasks: seq<Task>, k: nat, ghost ended: seq<bool>,
    ghost heard: set<ToolResultMessage>, ghost signal: Signal)
    returns (after: seq<Task>)
    requires InFlight(config, calls, jobs, tasks, ended, heard, signal) && k < |tasks| && tasks[k].Announced?
    ensures InFlight(config, calls, jobs, after, ended, heard, signal) && SameTasks(tasks, after)
    ensures after[k].Returned? || after[k].Dead?
  {
    assert TaskGood(config, calls[k], jobs[k], tasks[k], ended[k], heard, signal);
    var task := if jobs[k].dies then Dead else Returned(tasks[k].finalized);
    InFlightMoved(config, calls, jobs, tasks, ended, heard, signal, k, task, ended[k]);
    after := tasks[k := task];
    assert ended[k := ended[k]] == ended;
  }

  /** Task `k` looks at the token and makes one step: updates, announces its end, returns, or dies. */
  method StepTask(
    sink: AgentState, config: Config, calls: seq<ToolCall>, jobs: seq<Job>, tasks: seq<Task>, k: nat, signal: Signal,
    ghost ended: seq<bool>)
    returns (after: seq<Task>, sampled: Signal, ghost endedAfter: seq<bool>)
    requires sink.Valid() && Under(calls, ended, sink.stage)
    requires InFlight(config, calls, jobs, tasks, ended, sink.stage.announced, signal)
    requires k < |tasks| && Spawned(tasks[k])
    modifies sink
    ensures sink.Valid() && sink.history == old(sink.history) && sink.ended == old(sink.ended)
    ensures sink.stage.InTurn? && sink.stage.said == old(sink.stage).said && Later(signal, sampled)
    ensures Under(calls, endedAfter, sink.stage)
    ensures InFlight(config, calls, jobs, after, endedAfter, sink.stage.announced, sampled)
    ensures old(sink.stage).announced <= sink.stage.announced
    ensures SameTasks(tasks, after) && StillEnded(ended, endedAfter)
  {
    after, endedAfter := tasks, ended;
    sampled := Poll(signal);
    InFlightLater(config, calls, jobs, tasks, ended, sink.stage.announced, signal, sink.stage.announced, sampled);
    if tasks[k].Running? {
      if * {
        EmitUpdates(sink, calls[k]);
      } else {
        after, endedAfter := EndTask(sink, config, calls, jobs, tasks, k, sampled, ended);
      }
    } else if tasks[k].Announced? {
      after := LeaveTask(config, calls, jobs, tasks, k, ended, sink.stage.announced, sampled);
    }
  }

  /** While the loop waits, any tasks make any number of steps, in any order. */
  method LetTasksRun(
    sink: AgentState, config: Config, calls: seq<ToolCall>, jobs: seq<Job>, tasks: seq<Task>, signal: Signal,
    ghost ended: seq<bool>)
    returns (after: seq<Task>, sampled: Signal, ghost endedAfter: seq<bool>)
    requires sink.Valid() && Under(calls, ended, sink.stage)
    requires InFlight(config, calls, jobs, tasks, ended, sink.stage.announced, signal)
    modifies sink
    ensures sink.Valid() && sink.history == old(sink.history) && sink.ended == old(sink.ended)
    ensures sink.stage.InTurn? && sink.stage.said == old(sink.stage).said && Later(signal, sampled)
    ensures Under(calls, endedAfter, sink.stage)
    ensures InFlight(config, calls, jobs, after, endedAfter, sink.stage.announced, sampled)
    ensures old(sink.stage).announced <= sink.stage.announced
    ensures SameTasks(tasks, after) && StillEnded(ended, endedAfter)
  {
    after, sampled, endedAfter := tasks, signal, ended;
    var steps: nat :| steps >= 0;
    for i := 0 to steps
      invariant sink.Valid() && sink.history == old(sink.history) && sink.ended == old(sink.ended)
      invariant sink.stage.InTurn? && sink.stage.said == old(sink.stage).said && Later(signal, sampled)
      invariant Under(calls, endedAfter, sink.stage)
      invariant InFlight(config, calls, jobs, after, endedAfter, sink.stage.announced, sampled)
      invariant old(sink.stage).announced <= sink.stage.announced
      invariant SameTasks(tasks, after) && StillEnded(ended, endedAfter)
    {
      var k: nat :| k >= 0;
      if k < |after| && Spawned(after[k]) {
        after, sampled, endedAfter := StepTask(sink, config, calls, jobs, after, k, sampled, endedAfter);
      }
    }
  }

  // ----- collected entries -----

  predicate Holds(entries: seq<Entry>, k: nat) {
    exists e :: 0 <= e < |entries| && entries[e].index == k
  }

  /** Entries are for different calls that have ended and have no task any more. */
  ghost predicate Gathered(
    config: Config, calls: seq<ToolCall>, jobs: seq<Job>, tasks: seq<Task>, ended: seq<bool>,
    entries: seq<Entry>, heard: set<ToolResultMessage>, signal: Signal)
  {
    && |tasks| == |ended| <= |calls| == |jobs|
    && (forall e | 0 <= e < |entries| :: EntryGood(config, calls, jobs, tasks, ended, entries[e], heard, signal))
    && (forall d, e | 0 <= d < e < |entries| :: entries[d].index != entries[e].index)
  }

  ghost predicate EntryGood(
    config: Config, calls: seq<ToolCall>, jobs: seq<Job>, tasks: seq<Task>, ended: seq<bool>, entry: Entry,
    heard: set<ToolResultMessage>, signal: Signal)
    requires |tasks| == |ended| <= |calls| == |jobs|
  {
    var k := entry.index;
    k < |tasks| && tasks[k].NoTask? && ended[k] && Heard(config, calls[k], jobs[k], heard, signal, entry.finalized)
  }

  /** A call with neither a task nor an entry is one whose task died. */
  ghost predicate OnlyDeadMissing(jobs: seq<Job>, tasks: seq<Task>, entries: seq<Entry>) {
    && |tasks| <= |jobs|
    && forall k: nat | k < |tasks| && tasks[k].NoTask? && !Holds(entries, k) :: jobs[k].fate.Runs? && jobs[k].dies
  }

  lemma GatheredLater(
    config: Config, calls: seq<ToolCall>, jobs: seq<Job>, tasks: seq<Task>, ended: seq<bool>,
    after: seq<Task>, endedAfter: seq<bool>, entries: seq<Entry>,
    heard: set<ToolResultMessage>, signal: Signal, more: set<ToolResultMessage>, later: Signal)
    requires Gathered(config, calls, jobs, tasks, ended, entries, heard, signal)
    requires SameTasks(tasks, after) && StillEnded(ended, endedAfter) && heard <= more && Later(signal, later)
    ensures Gathered(config, calls, jobs, after, endedAfter, entries, more, later)
  {
    forall e | 0 <= e < |entries|
      ensures EntryGood(config, calls, jobs, after, endedAfter, entries[e], more, later)
    {
      assert EntryGood(config, calls, jobs, tasks, ended, entries[e], heard, signal);
    }
  }

  lemma MissingLater(jobs: seq<Job>, tasks: seq<Task>, after: seq<Task>, entries: seq<Entry>)
    requires OnlyDeadMissing(jobs, tasks, entries) && SameTasks(tasks, after)
    ensures OnlyDeadMissing(jobs, after, entries)
  {
  }

  // ----- preflight -----

  method StartCall(sink: AgentState, call: ToolCall, ghost calls: seq<ToolCall>, ghost ended: seq<bool>)
    requires sink.Valid() && Under(calls, ended, sink.stage) && |ended| < |calls| && call == calls[|ended|]
    modifies sink
    ensures sink.Valid() && sink.history == old(sink.history) && sink.ended == old(sink.ended)
    ensures Under(calls, ended + [false], sink.stage) && sink.stage.said == old(sink.stage).said
    ensures sink.stage.announced == old(sink.stage).announced
  {
    StartedUnder(calls, ended, sink.stage);
    sink.ProcessEvent(ToolExecutionStart(call.id, call.name));
  }

  /** Starting a call adds no outcome and no entry. */
  lemma StartKeeps(
    config: Config, calls: seq<ToolCall>, jobs: seq<Job>, tasks: seq<Task>, ended: seq<bool>,
    entries: seq<Entry>, heard: set<ToolResultMessage>, signal: Signal)
    requires InFlight(config, calls, jobs, tasks, ended, heard, signal) && |tasks| < |calls|
    requires Gathered(config, calls, jobs, tasks, ended, entries, heard, signal)
    requires OnlyDeadMissing(jobs, tasks, entries)
    ensures InFlight(config, calls, jobs, tasks + [Preparing], ended + [false], heard, signal)
    ensures Gathered(config, calls, jobs, tasks + [Preparing], ended + [false], entries, heard, signal)
    ensures OnlyDeadMissing(jobs, tasks + [Preparing], entries) && !Holds(entries, |tasks|)
  {
    var more, marks := tasks + [Preparing], ended + [false];
    forall k | 0 <= k < |more|
      ensures TaskGood(config, calls[k], jobs[k], more[k], marks[k], heard, signal)
    {
      if k < |tasks| {
        assert TaskGood(config, calls[k], jobs[k], tasks[k], ended[k], heard, signal);
      }
    }
    forall e | 0 <= e < |entries|
      ensures EntryGood(config, calls, jobs, more, marks, entries[e], heard, signal) && entries[e].index < |tasks|
    {
      assert EntryGood(config, calls, jobs, tasks, ended, entries[e], heard, signal);
    }
  }

  /** One more entry, of a call that has no task now. */
  lemma GatheredSnoc(
    config: Config, calls: seq<ToolCall>, jobs: seq<Job>, tasks: seq<Task>, ended: seq<bool>,
    entries: seq<Entry>, heard: set<ToolResultMessage>, signal: Signal, k: nat, f: Finalized)
    requires Gathered(config, calls, jobs, tasks, ended, entries, heard, signal)
    requires k < |tasks| && Heard(config, calls[k], jobs[k], heard, signal, f) && !Holds(entries, k)
    ensures Gathered(config, calls, jobs, tasks[k := NoTask], ended[k := true], entries + [Entry(k, f)], heard, signal)
  {
    var more, now, marks := entries + [Entry(k, f)], tasks[k := NoTask], ended[k := true];
    forall e | 0 <= e < |more|
      ensures EntryGood(config, calls, jobs, now, marks, more[e], heard, signal)
    {
      if e < |entries| {
        assert EntryGood(config, calls, jobs, tasks, ended, entries[e], heard, signal);
      }
    }
  }

  lemma MissingSnoc(jobs: seq<Job>, tasks: seq<Task>, entries: seq<Entry>, k: nat, f: Finalized)
    requires OnlyDeadMissing(jobs, tasks, entries) && k < |tasks|
    ensures OnlyDeadMissing(jobs, tasks[k := NoTask], entries + [Entry(k, f)])
  {
    var more := entries + [Entry(k, f)];
    forall i: nat | i < |tasks| && tasks[k := NoTask][i].NoTask? && !Holds(more, i)
      ensures jobs[i].fate.Runs? && jobs[i].dies
    {
      assert more[|entries|].index == k;
      if Holds(entries, i) {
        HoldsLater(entries, more, i);
      }
    }
  }

  lemma HoldsLater(entries: seq<Entry>, later: seq<Entry>, k: nat)
    requires Holds(entries, k) && entries <= later
    ensures Holds(later, k)
  {
    var e :| 0 <= e < |entries| && entries[e].index == k;
    assert later[e] == entries[e];
  }

  /** Starts the next call, and either settles it at once or spawns its task; earlier tasks run meanwhile. */
  method Preflight(
    sink: AgentState, config: Config, calls: seq<ToolCall>, jobs: seq<Job>, signal: Signal,
    tasks: seq<Task>, immediate: seq<Entry>, ghost ended: seq<bool>)
    returns (after: seq<Task>, settled: seq<Entry>, sampled: Signal, ghost endedAfter: seq<bool>)
    requires sink.Valid() && Under(calls, ended, sink.stage) && |tasks| < |calls| && NonePreparing(tasks)
    requires InFlight(config, calls, jobs, tasks, ended, sink.stage.announced, signal)
    requires Gathered(config, calls, jobs, tasks, ended, immediate, sink.stage.announced, signal)
    requires OnlyDeadMissing(jobs, tasks, immediate)
    modifies sink
    ensures sink.Valid() && sink.history == old(sink.history) && sink.ended == old(sink.ended)
    ensures sink.stage.InTurn? && sink.stage.said == old(sink.stage).said && Later(signal, sampled)
    ensures Under(calls, endedAfter, sink.stage) && |after| == |tasks| + 1 && NonePreparing(after)
    ensures InFlight(config, calls, jobs, after, endedAfter, sink.stage.announced, sampled)
    ensures Gathered(config, calls, jobs, after, endedAfter, settled, sink.stage.announced, sampled)
    ensures OnlyDeadMissing(jobs, after, settled)
  {
    var i := |tasks|;
    StartCall(sink, calls[i], calls, ended);
    StartKeeps(config, calls, jobs, tasks, ended, immediate, sink.stage.announced, signal);
    after, sampled, endedAfter :=
      RunMeanwhile(sink, config, calls, jobs, tasks + [Preparing], signal, immediate, ended + [false]);
    var p;
    ghost var before := sampled;
    p, sampled := PrepareToolCall(config, calls[i], jobs[i].fate, sampled);
    Resampled(config, calls, jobs, after, endedAfter, immediate, sink.stage.announced, before, sampled);
    after, settled, endedAfter :=
      SettleOrSpawn(sink, config, calls, jobs, p, after, sampled, immediate, endedAfter, i);
    after, sampled, endedAfter := RunMeanwhile(sink, config, calls, jobs, after, sampled, settled, endedAfter);
  }

  predicate NonePreparing(tasks: seq<Task>) {
    forall k | 0 <= k < |tasks| :: !tasks[k].Preparing?
  }

  /** The books stay good when the token is sampled again. */
  lemma Resampled(
    config: Config, calls: seq<ToolCall>, jobs: seq<Job>, tasks: seq<Task>, ended: seq<bool>, entries: seq<Entry>,
    heard: set<ToolResultMessage>, signal: Signal, later: Signal)
    requires InFlight(config, calls, jobs, tasks, ended, heard, signal)
    requires Gathered(config, calls, jobs, tasks, ended, entries, heard, signal) && Later(signal, later)
    ensures InFlight(config, calls, jobs, tasks, ended, heard, later)
    ensures Gathered(config, calls, jobs, tasks, ended, entries, heard, later)
  {
    InFlightLater(config, calls, jobs, tasks, ended, heard, signal, heard, later);
    GatheredLater(config, calls, jobs, tasks, ended, tasks, ended, entries, heard, signal, heard, later);
  }

  /** Tasks run while the loop waits, and the entries gathered so far stay good. */
  method RunMeanwhile(
    sink: AgentState, config: Config, calls: seq<ToolCall>, jobs: seq<Job>, tasks: seq<Task>, signal: Signal,
    ghost entries: seq<Entry>, ghost ended: seq<bool>)
    returns (after: seq<Task>, sampled: Signal, ghost endedAfter: seq<bool>)
    requires sink.Valid() && Under(calls, ended, sink.stage)
    requires InFlight(config, calls, jobs, tasks, ended, sink.stage.announced, signal)
    requires Gathered(config, calls, jobs, tasks, ended, entries, sink.stage.announced, signal)
    requires OnlyDeadMissing(jobs, tasks, entries)
    modifies sink
    ensures sink.Valid() && sink.history == old(sink.history) && sink.ended == old(sink.ended)
    ensures sink.stage.InTurn? && sink.stage.said == old(sink.stage).said && Later(signal, sampled)
    ensures Under(calls, endedAfter, sink.stage) && SameTasks(tasks, after)
    ensures InFlight(config, calls, jobs, after, endedAfter, sink.stage.announced, sampled)
    ensures Gathered(config, calls, jobs, after, endedAfter, entries, sink.stage.announced, sampled)
    ensures OnlyDeadMissing(jobs, after, entries)
  {
    ghost var heard := sink.stage.announced;
    after, sampled, endedAfter := LetTasksRun(sink, config, calls, jobs, tasks, signal, ended);
    GatheredLater(config, calls, jobs, tasks, ended, after, endedAfter, entries, heard, signal, sink.stage.announced,
                  sampled);
    MissingLater(jobs, tasks, after, entries);
  }

  method SettleOrSpawn(
    sink: AgentState, config: Config, calls: seq<ToolCall>, jobs: seq<Job>, p: Preparation, tasks: seq<Task>,
    ghost signal: Signal, immediate: seq<Entry>, ghost ended: seq<bool>, i: nat)
    returns (after: seq<Task>, settled: seq<Entry>, ghost endedAfter: seq<bool>)
    requires sink.Valid() && Under(calls, ended, sink.stage)
    requires InFlight(config, calls, jobs, tasks, ended, sink.stage.announced, signal)
    requires Gathered(config, calls, jobs, tasks, ended, immediate, sink.stage.announced, signal)
    requires OnlyDeadMissing(jobs, tasks, immediate) && i < |tasks| && !Holds(immediate, i)
    requires forall k | 0 <= k < |tasks| :: tasks[k].Preparing? <==> k == i
    requires p.Prepared? ==> jobs[i].fate.Runs?
    requires !signal.Cancelled? ==> p == Settled(config, calls[i].name, jobs[i].fate)
    modifies sink
    ensures sink.Valid() && sink.history == old(sink.history) && sink.ended == old(sink.ended)
    ensures sink.stage.InTurn? && sink.stage.said == old(sink.stage).said
    ensures Under(calls, endedAfter, sink.stage) && |after| == |tasks| && NonePreparing(after)
    ensures InFlight(config, calls, jobs, after, endedAfter, sink.stage.announced, signal)
    ensures Gathered(config, calls, jobs, after, endedAfter, settled, sink.stage.announced, signal)
    ensures OnlyDeadMissing(jobs, after, settled)
  {
    if p.Immediate? {
      after, settled, endedAfter :=
        SettleNow(sink, config, calls, jobs, Finalized(calls[i], p.result, p.isError), tasks, signal, immediate, ended, i);
    } else {
      InFlightMoved(config, calls, jobs, tasks, ended, sink.stage.announced, signal, i, Running, ended[i]);
      assert ended[i := ended[i]] == ended;
      SpawnKeeps(config, calls, jobs, tasks, ended, immediate, sink.stage.announced, signal, i);
      after, settled, endedAfter := tasks[i := Running], immediate, ended;
    }
  }

  lemma SpawnKeeps(
    config: Config, calls: seq<ToolCall>, jobs: seq<Job>, tasks: seq<Task>, ended: seq<bool>, entries: seq<Entry>,
    heard: set<ToolResultMessage>, signal: Signal, i: nat)
    requires Gathered(config, calls, jobs, tasks, ended, entries, heard, signal) && OnlyDeadMissing(jobs, tasks, entries)
    requires i < |tasks| && tasks[i].Preparing?
    ensures Gathered(config, calls, jobs, tasks[i := Running], ended, entries, heard, signal)
    ensures OnlyDeadMissing(jobs, tasks[i := Running], entries)
  {
    forall e | 0 <= e < |entries|
      ensures EntryGood(config, calls, jobs, tasks[i := Running], ended, entries[e], heard, signal)
    {
      assert EntryGood(config, calls, jobs, tasks, ended, entries[e], heard, signal);
    }
  }

  /** Announces call `i` and enters it; it has no task from now on. */
  method SettleNow(
    sink: AgentState, config: Config, calls: seq<ToolCall>, jobs: seq<Job>, raw: Finalized, tasks: seq<Task>,
    ghost signal: Signal, entries: seq<Entry>, ghost ended: seq<bool>, i: nat)
    returns (after: seq<Task>, settled: seq<Entry>, ghost endedAfter: seq<bool>)
    requires sink.Valid() && Under(calls, ended, sink.stage)
    requires InFlight(config, calls, jobs, tasks, ended, sink.stage.announced, signal)
    requires Gathered(config, calls, jobs, tasks, ended, entries, sink.stage.announced, signal)
    requires OnlyDeadMissing(jobs, tasks, entries) && i < |tasks| && !Holds(entries, i)
    requires raw.call == calls[i] && (!signal.Cancelled? ==> raw == Due(config, calls[i], jobs[i]))
    modifies sink
    ensures sink.Valid() && sink.history == old(sink.history) && sink.ended == old(sink.ended)
    ensures sink.stage.InTurn? && sink.stage.said == old(sink.stage).said
    ensures Under(calls, endedAfter, sink.stage) && after == tasks[i := NoTask] && |endedAfter| == |ended|
    ensures InFlight(config, calls, jobs, after, endedAfter, sink.stage.announced, signal)
    ensures Gathered(config, calls, jobs, after, endedAfter, settled, sink.stage.announced, signal)
    ensures OnlyDeadMissing(jobs, after, settled) && entries <= settled && Holds(settled, i)
  {
    ghost var heard := sink.stage.announced;
    var f := Announce(sink, config, calls, i, jobs[i].nudge, raw, ended);
    NudgedOutcome(config, calls[i], jobs[i], signal, raw);
    InFlightLater(config, calls, jobs, tasks, ended, heard, signal, sink.stage.announced, signal);
    InFlightMoved(config, calls, jobs, tasks, ended, sink.stage.announced, signal, i, NoTask, true);
    GatheredLater(config, calls, jobs, tasks, ended, tasks, ended, entries, heard, signal, sink.stage.announced, signal);
    GatheredSnoc(config, calls, jobs, tasks, ended, entries, sink.stage.announced, signal, i, f);
    MissingSnoc(jobs, tasks, entries, i, f);
    after, settled, endedAfter := tasks[i := NoTask], entries + [Entry(i, f)], ended[i := true];
    assert settled[|entries|].index == i;
  }

  // ----- joining -----

  ghost function Unjoined(tasks: seq<Task>): set<nat> {
    set k: nat | k < |tasks| && !tasks[k].NoTask?
  }

  lemma Joined(tasks: seq<Task>, now: seq<Task>, k: nat)
    requires k < |tasks| && SameTasks(tasks, now)
    ensures Unjoined(now[k := NoTask]) == Unjoined(tasks) - {k}
  {
  }

  /** Task `k` goes on to its end, after any steps of all tasks. */
  method FinishTask(
    sink: AgentState, config: Config, calls: seq<ToolCall>, jobs: seq<Job>, tasks: seq<Task>, k: nat, signal: Signal,
    ghost ended: seq<bool>)
    returns (after: seq<Task>, sampled: Signal, ghost endedAfter: seq<bool>)
    requires sink.Valid() && Under(calls, ended, sink.stage)
    requires InFlight(config, calls, jobs, tasks, ended, sink.stage.announced, signal)
    requires k < |tasks| && Spawned(tasks[k])
    modifies sink
    ensures sink.Valid() && sink.history == old(sink.history) && sink.ended == old(sink.ended)
    ensures sink.stage.InTurn? && sink.stage.said == old(sink.stage).said && Later(signal, sampled)
    ensures Under(calls, endedAfter, sink.stage)
    ensures InFlight(config, calls, jobs, after, endedAfter, sink.stage.announced, sampled)
    ensures old(sink.stage).announced <= sink.stage.announced
    ensures SameTasks(tasks, after) && StillEnded(ended, endedAfter) && (after[k].Returned? || after[k].Dead?)
  {
    after, sampled, endedAfter := LetTasksRun(sink, config, calls, jobs, tasks, signal, ended);
    assert Spawned(after[k]);
    if after[k].Running? {
      after, endedAfter := EndTask(sink, config, calls, jobs, after, k, sampled, endedAfter);
    }
    if after[k].Announced? {
      after := LeaveTask(config, calls, jobs, after, k, endedAfter, sink.stage.announced, sampled);
    }
  }

  /** Joins task `k`, whichever is next: its entry is taken if it returned, and nothing if it died. */
  method JoinNext(
    sink: AgentState, config: Config, calls: seq<ToolCall>, jobs: seq<Job>, tasks: seq<Task>, k: nat, signal: Signal,
    entries: seq<Entry>, ghost ended: seq<bool>)
    returns (after: seq<Task>, gathered: seq<Entry>, sampled: Signal, ghost endedAfter: seq<bool>)
    requires sink.Valid() && Under(calls, ended, sink.stage) && k < |tasks| && Spawned(tasks[k])
    requires InFlight(config, calls, jobs, tasks, ended, sink.stage.announced, signal)
    requires Gathered(config, calls, jobs, tasks, ended, entries, sink.stage.announced, signal)
    requires OnlyDeadMissing(jobs, tasks, entries) && NonePreparing(tasks)
    modifies sink
    ensures sink.Valid() && sink.history == old(sink.history) && sink.ended == old(sink.ended)
    ensures sink.stage.InTurn? && sink.stage.said == old(sink.stage).said && Later(signal, sampled)
    ensures Under(calls, endedAfter, sink.stage) && |after| == |tasks| && NonePreparing(after)
    ensures InFlight(config, calls, jobs, after, endedAfter, sink.stage.announced, sampled)
    ensures Gathered(config, calls, jobs, after, endedAfter, gathered, sink.stage.announced, sampled)
    ensures OnlyDeadMissing(jobs, after, gathered) && Unjoined(after) == Unjoined(tasks) - {k}
  {
    ghost var heard := sink.stage.announced;
    after, sampled, endedAfter := FinishTask(sink, config, calls, jobs, tasks, k, signal, ended);
    GatheredLater(config, calls, jobs, tasks, ended, after, endedAfter, entries, heard, signal, sink.stage.announced,
                  sampled);
    MissingLater(jobs, tasks, after, entries);
    Joined(tasks, after, k);
    gathered := if after[k].Returned? then entries + [Entry(k, after[k].finalized)] else entries;
    JoinedKeeps(config, calls, jobs, after, endedAfter, entries, sink.stage.announced, sampled, k, gathered);
    after := after[k := NoTask];
  }

  lemma JoinedKeeps(
    config: Config, calls: seq<ToolCall>, jobs: seq<Job>, tasks: seq<Task>, ended: seq<bool>, entries: seq<Entry>,
    heard: set<ToolResultMessage>, signal: Signal, k: nat, gathered: seq<Entry>)
    requires InFlight(config, calls, jobs, tasks, ended, heard, signal)
    requires Gathered(config, calls, jobs, tasks, ended, entries, heard, signal) && OnlyDeadMissing(jobs, tasks, entries)
    requires k < |tasks| && (tasks[k].Returned? || tasks[k].Dead?)
    requires gathered == if tasks[k].Returned? then entries + [Entry(k, tasks[k].finalized)] else entries
    ensures InFlight(config, calls, jobs, tasks[k := NoTask], ended, heard, signal)
    ensures Gathered(config, calls, jobs, tasks[k := NoTask], ended, gathered, heard, signal)
    ensures OnlyDeadMissing(jobs, tasks[k := NoTask], gathered)
  {
    assert TaskGood(config, calls[k], jobs[k], tasks[k], ended[k], heard, signal);
    InFlightMoved(config, calls, jobs, tasks, ended, heard, signal, k, NoTask, ended[k]);
    assert ended[k := ended[k]] == ended;
    NoEntryYet(config, calls, jobs, tasks, ended, entries, heard, signal, k);
    if tasks[k].Returned? {
      GatheredSnoc(config, calls, jobs, tasks, ended, entries, heard, signal, k, tasks[k].finalized);
      MissingSnoc(jobs, tasks, entries, k, tasks[k].finalized);
    } else {
      DropKeeps(config, calls, jobs, tasks, ended, entries, heard, signal, k);
    }
  }

  lemma NoEntryYet(
    config: Config, calls: seq<ToolCall>, jobs: seq<Job>, tasks: seq<Task>, ended: seq<bool>, entries: seq<Entry>,
    heard: set<ToolResultMessage>, signal: Signal, k: nat)
    requires Gathered(config, calls, jobs, tasks, ended, entries, heard, signal) && k < |tasks| && !tasks[k].NoTask?
    ensures !Holds(entries, k)
  {
    forall e | 0 <= e < |entries|
      ensures entries[e].index != k
    {
      assert EntryGood(config, calls, jobs, tasks, ended, entries[e], heard, signal);
    }
  }

  lemma DropKeeps(
    config: Config, calls: seq<ToolCall>, jobs: seq<Job>, tasks: seq<Task>, ended: seq<bool>, entries: seq<Entry>,
    heard: set<ToolResultMessage>, signal: Signal, k: nat)
    requires Gathered(config, calls, jobs, tasks, ended, entries, heard, signal) && OnlyDeadMissing(jobs, tasks, entries)
    requires k < |tasks| && jobs[k].fate.Runs? && jobs[k].dies
    ensures Gathered(config, calls, jobs, tasks[k := NoTask], ended, entries, heard, signal)
    ensures OnlyDeadMissing(jobs, tasks[k := NoTask], entries)
  {
    forall e | 0 <= e < |entries|
      ensures EntryGood(config, calls, jobs, tasks[k := NoTask], ended, entries[e], heard, signal)
    {
      assert EntryGood(config, calls, jobs, tasks, ended, entries[e], heard, signal);
    }
  }

  method JoinToolCalls(
    sink: AgentState, config: Config, calls: seq<ToolCall>, jobs: seq<Job>, tasks: seq<Task>, signal: Signal,
    immediate: seq<Entry>, ghost ended: seq<bool>)
    returns (entries: seq<Entry>, sampled: Signal, ghost endedAfter: seq<bool>)
    requires sink.Valid() && Under(calls, ended, sink.stage) && NonePreparing(tasks)
    requires InFlight(config, calls, jobs, tasks, ended, sink.stage.announced, signal)
    requires Gathered(config, calls, jobs, tasks, ended, immediate, sink.stage.announced, signal)
    requires OnlyDeadMissing(jobs, tasks, immediate)
    modifies sink
    ensures sink.Valid() && sink.history == old(sink.history) && sink.ended == old(sink.ended)
    ensures sink.stage.InTurn? && sink.stage.said == old(sink.stage).said && Later(signal, sampled)
    ensures Under(calls, endedAfter, sink.stage) && |endedAfter| == |ended|
    ensures AllJoined(config, calls, jobs, endedAfter, entries, sink.stage.announced, sampled)
  {
    var unjoined := tasks;
    entries, sampled, endedAfter := immediate, signal, ended;
    while exists k :: 0 <= k < |unjoined| && !unjoined[k].NoTask?
      invariant sink.Valid() && sink.history == old(sink.history) && sink.ended == old(sink.ended)
      invariant sink.stage.InTurn? && sink.stage.said == old(sink.stage).said && Later(signal, sampled)
      invariant Under(calls, endedAfter, sink.stage) && |unjoined| == |ended| && NonePreparing(unjoined)
      invariant InFlight(config, calls, jobs, unjoined, endedAfter, sink.stage.announced, sampled)
      invariant Gathered(config, calls, jobs, unjoined, endedAfter, entries, sink.stage.announced, sampled)
      invariant OnlyDeadMissing(jobs, unjoined, entries)
      decreases Unjoined(unjoined)
    {
      var k: nat :| k < |unjoined| && !unjoined[k].NoTask?;
      assert k in Unjoined(unjoined);
      unjoined, entries, sampled, endedAfter :=
        JoinNext(sink, config, calls, jobs, unjoined, k, sampled, entries, endedAfter);
    }
    assert unjoined == NoTasks(|ended|);
  }

  function NoTasks(n: nat): seq<Task> {
    seq(n, _ => NoTask)
  }

  /** No task is left; there are entries for the calls that have ended, and only those whose task died lack one. */
  ghost predicate AllJoined(
    config: Config, calls: seq<ToolCall>, jobs: seq<Job>, ended: seq<bool>, entries: seq<Entry>,
    heard: set<ToolResultMessage>, signal: Signal)
  {
    && Gathered(config, calls, jobs, NoTasks(|ended|), ended, entries, heard, signal)
    && OnlyDeadMissing(jobs, NoTasks(|ended|), entries)
  }

  // ----- calls no task answered -----

  /** Answers call `i` with an error unless it has an entry already. */
  method FillIn(
    sink: AgentState, config: Config, calls: seq<ToolCall>, jobs: seq<Job>, signal: Signal, i: nat,
    entries: seq<Entry>, ghost ended: seq<bool>)
    returns (filled: seq<Entry>, sampled: Signal, ghost endedAfter: seq<bool>)
    requires sink.Valid() && Under(calls, ended, sink.stage) && i < |calls| == |ended|
    requires AllJoined(config, calls, jobs, ended, entries, sink.stage.announced, signal)
    modifies sink
    ensures sink.Valid() && sink.history == old(sink.history) && sink.ended == old(sink.ended)
    ensures sink.stage.InTurn? && sink.stage.said == old(sink.stage).said && Later(signal, sampled)
    ensures Under(calls, endedAfter, sink.stage) && |endedAfter| == |ended|
    ensures AllJoined(config, calls, jobs, endedAfter, filled, sink.stage.announced, sampled)
    ensures entries <= filled && Holds(filled, i)
  {
    filled, sampled, endedAfter := entries, signal, ended;
    if exists e :: 0 <= e < |entries| && entries[e].index == i {
      return;
    }
    assert NoTasks(|ended|)[i].NoTask?;
    assert jobs[i].fate.Runs? && jobs[i].dies;
    sampled := Poll(signal);
    var reason := if sampled.Cancelled? then Interrupted else NoResult;
    var raw := Finalized(calls[i], ErrorResult(config, reason, calls[i].name), true);
    ghost var none := NoTasks(|ended|);
    NothingInFlight(config, calls, jobs, ended, sink.stage.announced, sampled);
    GatheredLater(config, calls, jobs, none, ended, none, ended, entries, sink.stage.announced, signal,
                  sink.stage.announced, sampled);
    ghost var after;
    after, filled, endedAfter := SettleNow(sink, config, calls, jobs, raw, NoTasks(|calls|), sampled, entries, ended, i);
    assert after == none;
  }

  lemma NothingInFlight(
    config: Config, calls: seq<ToolCall>, jobs: seq<Job>, ended: seq<bool>, heard: set<ToolResultMessage>,
    signal: Signal)
    requires |ended| <= |calls| == |jobs|
    ensures InFlight(config, calls, jobs, NoTasks(|ended|), ended, heard, signal)
  {
  }

  method FillAll(
    sink: AgentState, config: Config, calls: seq<ToolCall>, jobs: seq<Job>, signal: Signal,
    entries: seq<Entry>, ghost ended: seq<bool>)
    returns (filled: seq<Entry>, sampled: Signal, ghost marks: seq<bool>)
    requires sink.Valid() && Under(calls, ended, sink.stage) && |calls| == |ended|
    requires AllJoined(config, calls, jobs, ended, entries, sink.stage.announced, signal)
    modifies sink
    ensures sink.Valid() && sink.history == old(sink.history) && sink.ended == old(sink.ended)
    ensures sink.stage.InTurn? && sink.stage.said == old(sink.stage).said && Later(signal, sampled)
    ensures Idle(sink.stage)
    ensures forall i: nat | i < |calls| :: Holds(filled, i)
    ensures |marks| == |calls|
    ensures Gathered(config, calls, jobs, NoTasks(|calls|), marks, filled, sink.stage.announced, sampled)
  {
    filled, sampled, marks := entries, signal, ended;
    for i := 0 to |calls|
      invariant sink.Valid() && sink.history == old(sink.history) && sink.ended == old(sink.ended)
      invariant sink.stage.InTurn? && sink.stage.said == old(sink.stage).said && Later(signal, sampled)
      invariant Under(calls, marks, sink.stage) && |marks| == |calls|
      invariant AllJoined(config, calls, jobs, marks, filled, sink.stage.announced, sampled)
      invariant forall k: nat | k < i :: Holds(filled, k)
    {
      var more;
      more, sampled, marks := FillIn(sink, config, calls, jobs, sampled, i, filled, marks);
      forall k: nat | k < i
        ensures Holds(more, k)
      {
        HoldsLater(filled, more, k);
      }
      filled := more;
    }
    AllEnded(config, calls, jobs, marks, filled, sink.stage.announced, sampled);
    NothingOwed(calls, marks);
  }

  lemma AllEnded(
    config: Config, calls: seq<ToolCall>, jobs: seq<Job>, marks: seq<bool>, entries: seq<Entry>,
    heard: set<ToolResultMessage>, signal: Signal)
    requires |marks| == |calls| && Gathered(config, calls, jobs, NoTasks(|calls|), marks, entries, heard, signal)
    requires forall k: nat | k < |calls| :: Holds(entries, k)
    ensures forall k | 0 <= k < |marks| :: marks[k]
  {
    forall k: nat | k < |marks|
      ensures marks[k]
    {
      assert Holds(entries, k);
      var e :| 0 <= e < |entries| && entries[e].index == k;
      assert EntryGood(config, calls, jobs, NoTasks(|calls|), marks, entries[e], heard, signal);
    }
  }

  // ----- back to source order -----

  predicate Ascending(entries: seq<Entry>) {
    forall d, e | 0 <= d < e < |entries| :: entries[d].index < entries[e].index
  }

  function InsertEntry(x: Entry, entries: seq<Entry>): seq<Entry> {
    if entries == [] || x.index <= entries[0].index then [x] + entries
    else [entries[0]] + InsertEntry(x, entries[1..])
  }

  /** The stable sort by index. */
  function SortByIndex(entries: seq<Entry>): seq<Entry> {
    if entries == [] then [] else InsertEntry(entries[0], SortByIndex(entries[1..]))
  }

  lemma {:induction false} InsertEntryKeeps(x: Entry, entries: seq<Entry>)
    ensures forall y :: y in InsertEntry(x, entries) <==> y == x || y in entries
    ensures Ascending(entries) && (forall y | y in entries :: y.index != x.index) ==> Ascending(InsertEntry(x, entries))
  {
    if entries != [] && x.index > entries[0].index {
      InsertEntryKeeps(x, entries[1..]);
      if Ascending(entries) && (forall y | y in entries :: y.index != x.index) {
        var rest := InsertEntry(x, entries[1..]);
        forall e | 0 <= e < |rest|
          ensures entries[0].index < rest[e].index
        {
          assert rest[e] in rest;
        }
      }
    }
  }

  lemma {:induction false} SortKeeps(entries: seq<Entry>)
    requires forall d, e | 0 <= d < e < |entries| :: entries[d].index != entries[e].index
    ensures forall y :: y in SortByIndex(entries) <==> y in entries
    ensures Ascending(SortByIndex(entries))
  {
    if entries != [] {
      SortKeeps(entries[1..]);
      InsertEntryKeeps(entries[0], SortByIndex(entries[1..]));
    }
  }

  lemma {:induction false} NoMoreThan(entries: seq<Entry>, n: nat)
    requires Ascending(entries) && (forall e | 0 <= e < |entries| :: entries[e].index < n)
    ensures |entries| <= n
  {
    if entries != [] {
      NoMoreThan(entries[..|entries| - 1], entries[|entries| - 1].index);
    }
  }

  /** Entries in ascending order that hold every index below `n`, and no other, are at their own index. */
  lemma {:induction false} AtOwnIndex(entries: seq<Entry>, n: nat)
    requires Ascending(entries) && (forall e | 0 <= e < |entries| :: entries[e].index < n)
    requires forall k: nat | k < n :: Holds(entries, k)
    ensures |entries| == n && forall e | 0 <= e < n :: entries[e].index == e
    decreases n
  {
    NoMoreThan(entries, n);
    if n > 0 {
      assert Holds(entries, n - 1);
      var last := |entries| - 1;
      assert entries[last].index == n - 1;
      var init := entries[..last];
      forall k: nat | k < n - 1
        ensures Holds(init, k)
      {
        assert Holds(entries, k);
        var e :| 0 <= e < |entries| && entries[e].index == k;
        assert init[e] == entries[e];
      }
      AtOwnIndex(init, n - 1);
    }
  }

  /** After the sort, entry `i` is the outcome of call `i`. */
  lemma SortedOutcomes(
    config: Config, calls: seq<ToolCall>, jobs: seq<Job>, marks: seq<bool>, entries: seq<Entry>,
    heard: set<ToolResultMessage>, signal: Signal)
    requires |marks| == |calls| && Gathered(config, calls, jobs, NoTasks(|calls|), marks, entries, heard, signal)
    requires forall k: nat | k < |calls| :: Holds(entries, k)
    ensures |SortByIndex(entries)| == |calls| == |jobs|
    ensures forall i | 0 <= i < |calls| ::
              Heard(config, calls[i], jobs[i], heard, signal, SortByIndex(entries)[i].finalized)
  {
    SortKeeps(entries);
    var sorted := SortByIndex(entries);
    forall e | 0 <= e < |sorted|
      ensures sorted[e].index < |calls|
      ensures Heard(config, calls[sorted[e].index], jobs[sorted[e].index], heard, signal, sorted[e].finalized)
    {
      assert sorted[e] in entries;
      var d :| 0 <= d < |entries| && entries[d] == sorted[e];
      assert EntryGood(config, calls, jobs, NoTasks(|calls|), marks, entries[d], heard, signal);
    }
    forall k: nat | k < |calls|
      ensures Holds(sorted, k)
    {
      assert Holds(entries, k);
      var e :| 0 <= e < |entries| && entries[e].index == k;
      assert entries[e] in sorted;
    }
    AtOwnIndex(sorted, |calls|);
  }

  /** Reports the next finalized call. */
  method EmitResult(
    sink: AgentState, calls: seq<ToolCall>, i: nat, results: seq<ToolResultMessage>, f: Finalized,
    ghost before: Stage, ghost endedBefore: seq<Message>)
    returns (more: seq<ToolResultMessage>)
    requires sink.Valid() && Idle(sink.stage) && before.InTurn? && i < |calls|
    requires Answered(calls[..i], results, before, endedBefore, sink.stage, sink.ended)
    requires f.call == calls[i] && ResultMessage(f) in sink.stage.announced
    modifies sink
    ensures sink.Valid() && sink.history == old(sink.history)
    ensures sink.stage.InTurn? && sink.stage.announced == old(sink.stage).announced
    ensures more == results + [ResultMessage(f)]
    ensures Answered(calls[..i + 1], more, before, endedBefore, sink.stage, sink.ended)
  {
    var message := ResultMessage(f);
    sink.EmitMessage(ToolResponse(message));
    AnsweredMore(
      calls, i, results, message, before, endedBefore, old(sink.stage), old(sink.ended), sink.stage, sink.ended);
    more := results + [message];
  }

  /** Reports finalized calls in the order given. */
  method ReportAll(sink: AgentState, calls: seq<ToolCall>, finalized: seq<Finalized>)
    returns (results: seq<ToolResultMessage>)
    requires sink.Valid() && Idle(sink.stage) && |finalized| == |calls|
    requires forall i | 0 <= i < |calls| ::
               finalized[i].call == calls[i] && ResultMessage(finalized[i]) in sink.stage.announced
    modifies sink
    ensures sink.Valid() && sink.history == old(sink.history)
    ensures |results| == |finalized| && forall i | 0 <= i < |finalized| :: results[i] == ResultMessage(finalized[i])
    ensures Answered(calls, results, old(sink.stage), old(sink.ended), sink.stage, sink.ended)
  {
    results := [];
    for i := 0 to |finalized|
      invariant sink.Valid() && sink.history == old(sink.history)
      invariant sink.stage.InTurn? && sink.stage.announced == old(sink.stage).announced
      invariant |results| == i && forall k | 0 <= k < i :: results[k] == ResultMessage(finalized[k])
      invariant Answered(calls[..i], results, old(sink.stage), old(sink.ended), sink.stage, sink.ended)
    {
      results := EmitResult(sink, calls, i, results, finalized[i], old(sink.stage), old(sink.ended));
    }
    assert calls[..|calls|] == calls;
  }

  /** Reports the outcomes of a batch, one per call. */
  method EmitResults(
    sink: AgentState, config: Config, calls: seq<ToolCall>, jobs: seq<Job>, finalized: seq<Finalized>,
    ghost signal: Signal)
    returns (batch: Batch)
    requires sink.Valid() && Idle(sink.stage)
    requires |finalized| == |calls| == |jobs|
    requires forall i | 0 <= i < |calls| ::
               Heard(config, calls[i], jobs[i], sink.stage.announced, signal, finalized[i])
    modifies sink
    ensures sink.Valid() && sink.history == old(sink.history)
    ensures Collected(config, calls, jobs, signal, finalized, batch)
    ensures Answered(calls, batch.results, old(sink.stage), old(sink.ended), sink.stage, sink.ended)
  {
    forall i | 0 <= i < |calls|
      ensures finalized[i].call == calls[i] && ResultMessage(finalized[i]) in sink.stage.announced
      ensures OutcomeOf(config, calls[i], jobs[i], signal, finalized[i])
    {
      assert Heard(config, calls[i], jobs[i], sink.stage.announced, signal, finalized[i]);
    }
    var results := ReportAll(sink, calls, finalized);
    batch := Batch(results, Terminates(finalized));
  }

  /** Whatever order the tasks end in, and whichever of them die, there is one result per call, in source order. */
  method ExecuteParallel(sink: AgentState, config: Config, calls: seq<ToolCall>, jobs: seq<Job>, signal: Signal)
    returns (batch: Batch, sampled: Signal, ghost finalized: seq<Finalized>)
    requires sink.Valid() && Idle(sink.stage) && |jobs| == |calls|
    modifies sink
    ensures sink.Valid() && sink.history == old(sink.history) && Later(signal, sampled)
    ensures Collected(config, calls, jobs, sampled, finalized, batch)
    ensures Answered(calls, batch.results, old(sink.stage), old(sink.ended), sink.stage, sink.ended)
  {
    var entries;
    entries, sampled := GatherOutcomes(sink, config, calls, jobs, signal);
    var sorted := SortByIndex(entries);
    var outcomes := seq(|sorted|, i requires 0 <= i < |sorted| => sorted[i].finalized);
    finalized := outcomes;
    batch := EmitResults(sink, config, calls, jobs, outcomes, sampled);
  }

  method GatherOutcomes(sink: AgentState, config: Config, calls: seq<ToolCall>, jobs: seq<Job>, signal: Signal)
    returns (entries: seq<Entry>, sampled: Signal)
    requires sink.Valid() && Idle(sink.stage) && |jobs| == |calls|
    modifies sink
    ensures sink.Valid() && sink.history == old(sink.history) && sink.ended == old(sink.ended)
    ensures Idle(sink.stage) && sink.stage.said == old(sink.stage).said && Later(signal, sampled)
    ensures |SortByIndex(entries)| == |calls|
    ensures forall i | 0 <= i < |calls| ::
              Heard(config, calls[i], jobs[i], sink.stage.announced, sampled, SortByIndex(entries)[i].finalized)
  {
    var tasks: seq<Task>, immediate: seq<Entry> := [], [];
    ghost var ended: seq<bool> := [];
    sampled := signal;
    for i := 0 to |calls|
      invariant sink.Valid() && sink.history == old(sink.history) && sink.ended == old(sink.ended)
      invariant sink.stage.InTurn? && sink.stage.said == old(sink.stage).said && Later(signal, sampled)
      invariant |tasks| == i && Under(calls, ended, sink.stage) && NonePreparing(tasks)
      invariant InFlight(config, calls, jobs, tasks, ended, sink.stage.announced, sampled)
      invariant Gathered(config, calls, jobs, tasks, ended, immediate, sink.stage.announced, sampled)
      invariant OnlyDeadMissing(jobs, tasks, immediate)
    {
      tasks, immediate, sampled, ended := Preflight(sink, config, calls, jobs, sampled, tasks, immediate, ended);
    }
    entries, sampled, ended := JoinToolCalls(sink, config, calls, jobs, tasks, sampled, immediate, ended);
    ghost var marks;
    entries, sampled, marks := FillAll(sink, config, calls, jobs, sampled, entries, ended);
    SortedOutcomes(config, calls, jobs, marks, entries, sink.stage.announced, sampled);
  }

  /** One call after the other, because the configuration or one of the tools asks for it. */
  predicate InSequence(config: Config, calls: seq<ToolCall>) {
    config.sequential || exists i :: 0 <= i < |calls| && config.sequentialTool(calls[i].name)
  }

  /** What the calls get in the mode they are executed in: only background tasks can die. */
  function Effective(config: Config, calls: seq<ToolCall>, jobs: seq<Job>): (effective: seq<Job>)
    ensures |effective| == |jobs|
  {
    if InSequence(config, calls) then Undying(jobs) else jobs
  }

  /** Picks the execution mode. */
  method ExecuteToolCalls(sink: AgentState, config: Config, calls: seq<ToolCall>, jobs: seq<Job>, signal: Signal)
    returns (batch: Batch, sampled: Signal, ghost finalized: seq<Finalized>)
    requires sink.Valid() && Idle(sink.stage) && |jobs| == |calls|
    modifies sink
    ensures sink.Valid() && sink.history == old(sink.history) && Later(signal, sampled)
    ensures Collected(config, calls, Effective(config, calls, jobs), sampled, finalized, batch)
    ensures Answered(calls, batch.results, old(sink.stage), old(sink.ended), sink.stage, sink.ended)
  {
    if InSequence(config, calls) {
      batch, sampled, finalized := ExecuteSequential(sink, config, calls, jobs, signal);
    } else {
      batch, sampled, finalized := ExecuteParallel(sink, config, calls, jobs, signal);
    }
  }
}
