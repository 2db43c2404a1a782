/**
 The breaker of repeated tool calls: a streak of equal calls, counted across batches but not across user input,
 earns escalating reminders and in the end one response in which calls are refused.
 */
module RepeatBreaking {
  import opened Results
  import opened AgentTypes
  import CallKeys

  const REFLECT_FROM: nat := 3
  const CHOOSE_FROM: nat := 5
  const CONCLUDE_FROM: nat := 8
  const STOP_AT: nat := 12

  datatype Nudge = Reflect | Choose(streak: nat) | Conclude | StopNow

  function ForStreak(streak: nat): Option<Nudge> {
    if streak >= STOP_AT then Some(StopNow)
    else if streak >= CONCLUDE_FROM then Some(Conclude)
    else if streak >= CHOOSE_FROM then Some(Choose(streak))
    else if streak >= REFLECT_FROM then Some(Reflect)
    else None
  }

  // ----- applying a nudge to a result -----

  /** A blank line separates the reminder from what was there. */
  function WithReminder(text: string, reminder: string): string {
    (if text != "" && text[|text| - 1] != '\n' then text + "\n" else text) + "\n" + reminder
  }

  /** Appends the reminder to the last text block, or as a block of its own. */
  function Apply(result: ToolResult, reminder: string): ToolResult {
    var blocks := result.content;
    if blocks != [] && blocks[|blocks| - 1].TextBlock? then
      result.(content := blocks[|blocks| - 1 := TextBlock(WithReminder(blocks[|blocks| - 1].text, reminder))])
    else
      result.(content := blocks + [TextBlock(reminder)])
  }

  predicate TextEndsWith(text: string, tail: string) {
    |tail| <= |text| && text[|text| - |tail|..] == tail
  }

  predicate EndsInText(blocks: seq<ResultBlock>, tail: string) {
    blocks != [] && blocks[|blocks| - 1].TextBlock? && TextEndsWith(blocks[|blocks| - 1].text, tail)
  }

  predicate Extends(before: ResultBlock, after: ResultBlock) {
    before == after || (before.TextBlock? && after.TextBlock? && before.text <= after.text)
  }

  lemma WithReminderExtends(text: string, reminder: string)
    ensures text <= WithReminder(text, reminder) && TextEndsWith(WithReminder(text, reminder), reminder)
  {
    var broken := if text != "" && text[|text| - 1] != '\n' then text + "\n" else text;
    assert broken + "\n" + reminder == broken + ("\n" + reminder);
  }

  /** The reminder comes last, every block that was there stays in its place, and nothing else changes. */
  lemma ApplyOnlyAppends(result: ToolResult, reminder: string)
    ensures var after := Apply(result, reminder);
            && EndsInText(after.content, reminder)
            && after.terminate == result.terminate
            && |result.content| <= |after.content| <= |result.content| + 1
            && (forall i | 0 <= i < |result.content| :: Extends(result.content[i], after.content[i]))
            && (forall i | 0 <= i < |after.content| - 1 :: after.content[i] == result.content[i])
  {
    var blocks := result.content;
    if blocks != [] && blocks[|blocks| - 1].TextBlock? {
      WithReminderExtends(blocks[|blocks| - 1].text, reminder);
    } else {
      assert TextEndsWith(reminder, reminder);
    }
  }

  // ----- streaks -----

  /** Adjacent copies in one batch count once. */
  function Deduped(keys: seq<string>): seq<string> {
    if |keys| < 2 then keys
    else
      var rest := Deduped(keys[..|keys| - 1]);
      if keys[|keys| - 1] == keys[|keys| - 2] then rest else rest + [keys[|keys| - 1]]
  }

  /** The length of the longest constant suffix. */
  function Streak(s: seq<string>): (n: nat)
    ensures n <= |s| && (s != [] ==> n > 0)
  {
    if |s| < 2 then |s|
    else if s[|s| - 1] == s[|s| - 2] then Streak(s[..|s| - 1]) + 1
    else 1
  }

  predicate ConstantSuffix(s: seq<string>, n: nat) {
    n <= |s| && forall i | |s| - n <= i < |s| :: s[i] == s[|s| - 1]
  }

  /** The streak is exactly the longest suffix of equal keys. */
  lemma {:induction false} StreakIsLongest(s: seq<string>, n: nat)
    ensures ConstantSuffix(s, n) <==> n <= Streak(s)
  {
    if |s| >= 2 {
      var init := s[..|s| - 1];
      if s[|s| - 1] == s[|s| - 2] {
        if n > 0 {
          StreakIsLongest(init, n - 1);
          assert ConstantSuffix(s, n) ==> ConstantSuffix(init, n - 1);
        }
      }
    }
  }

  /** Some point since the last reset saw a streak that stops the run. */
  predicate Reached(s: seq<string>, limit: nat) {
    s != [] && (Streak(s) >= limit || Reached(s[..|s| - 1], limit))
  }

  lemma StreakSnoc(s: seq<string>, key: string)
    ensures Streak(s + [key]) == if s != [] && s[|s| - 1] == key then Streak(s) + 1 else 1
    ensures Reached(s + [key], STOP_AT) <==> Streak(s + [key]) >= STOP_AT || Reached(s, STOP_AT)
  {
    assert (s + [key])[..|s|] == s;
  }

  lemma DedupedSnoc(keys: seq<string>, key: string)
    ensures Deduped(keys + [key]) == if keys != [] && keys[|keys| - 1] == key then Deduped(keys) else Deduped(keys) + [key]
  {
    assert (keys + [key])[..|keys|] == keys;
  }

  lemma {:induction false} DedupedLast(keys: seq<string>)
    ensures keys != [] ==> Deduped(keys) != [] && Deduped(keys)[|Deduped(keys)| - 1] == keys[|keys| - 1]
  {
    if |keys| >= 2 {
      DedupedLast(keys[..|keys| - 1]);
    }
  }

  /** One call of a batch: an adjacent copy changes nothing; any other call after the first starts a streak of
      one, because it differs from the call before it. */
  lemma NextInBatch(before: seq<string>, keys: seq<string>, key: string)
    ensures var now, next := before + Deduped(keys), before + Deduped(keys + [key]);
            if keys != [] && keys[|keys| - 1] == key then next == now
            else next == now + [key] && Streak(next) == (if keys == [] then Streak(before + [key]) else 1)
  {
    DedupedSnoc(keys, key);
    DedupedLast(keys);
    var now := before + Deduped(keys);
    if keys == [] || keys[|keys| - 1] != key {
      ConcatAssoc(before, Deduped(keys), [key]);
      StreakSnoc(now, key);
      if keys == [] {
        assert now == before;
      } else {
        assert now[|now| - 1] == keys[|keys| - 1];
      }
    }
  }

  function Keys(calls: seq<ToolCall>, keyOf: ToolCall -> string): seq<string> {
    seq(|calls|, i requires 0 <= i < |calls| => keyOf(calls[i]))
  }

  /** What the first key of a batch earns. */
  function FirstNudge(before: seq<string>, keys: seq<string>): Option<Nudge> {
    if keys == [] then None else ForStreak(Streak(before + [keys[0]]))
  }

  lemma {:induction false} ReachedInBatch(before: seq<string>, keys: seq<string>)
    ensures Reached(before + Deduped(keys), STOP_AT) <==>
            Reached(before, STOP_AT) || FirstNudge(before, keys) == Some(StopNow)
    decreases |keys|
  {
    if keys == [] {
      assert before + Deduped(keys) == before;
    } else {
      var init, last := keys[..|keys| - 1], keys[|keys| - 1];
      assert init + [last] == keys;
      ReachedInBatch(before, init);
      ReachedStep(before, init, last);
    }
  }

  lemma ReachedStep(before: seq<string>, keys: seq<string>, key: string)
    ensures Reached(before + Deduped(keys + [key]), STOP_AT) <==>
            || Reached(before + Deduped(keys), STOP_AT)
            || (keys == [] && FirstNudge(before, [key]) == Some(StopNow))
  {
    var now, next := before + Deduped(keys), before + Deduped(keys + [key]);
    NextInBatch(before, keys, key);
    if keys == [] || keys[|keys| - 1] != key {
      assert next == now + [key];
      StreakSnoc(now, key);
    }
  }

  /** What a batch earns: only its first call can be nudged. */
  function Nudges(before: seq<string>, keys: seq<string>): (nudges: seq<Option<Nudge>>)
    ensures |nudges| == |keys|
  {
    seq(|keys|, i requires 0 <= i < |keys| => if i == 0 then FirstNudge(before, keys) else None)
  }

  lemma NudgesSnoc(before: seq<string>, keys: seq<string>, key: string)
    ensures Nudges(before, keys + [key]) == Nudges(before, keys) + [if keys == [] then FirstNudge(before, [key]) else None]
  {
  }

  // ----- the breaker -----

  class RepeatBreaker {
    const keyOf: ToolCall -> string
    var lastKey: Option<string>
    var streak: nat
    var handoffPending: bool
    /** The deduplicated keys of all batches since the last reset. */
    ghost var observed: seq<string>

    ghost predicate Valid()
      reads this
    {
      && lastKey == (if observed == [] then None else Some(observed[|observed| - 1]))
      && streak == Streak(observed)
      && handoffPending == Reached(observed, STOP_AT)
    }

    constructor (keyOf: ToolCall -> string)
      ensures Valid() && observed == [] && !handoffPending && this.keyOf == keyOf
    {
      this.keyOf := keyOf;
      lastKey, streak, handoffPending, observed := None, 0, false, [];
    }

    method Reset()
      modifies this
      ensures Valid() && observed == [] && streak == 0 && !handoffPending
    {
      lastKey, streak, handoffPending, observed := None, 0, false, [];
    }

    /** Whatever the batch, only its first call can be nudged. */
    method Observe(calls: seq<ToolCall>) returns (nudges: seq<Option<Nudge>>)
      requires Valid()
      modifies this
      ensures Valid() && observed == old(observed) + Deduped(Keys(calls, keyOf))
      ensures nudges == Nudges(old(observed), Keys(calls, keyOf))
      ensures handoffPending ==
              (old(handoffPending) || FirstNudge(old(observed), Keys(calls, keyOf)) == Some(StopNow))
    {
      ghost var before := observed;
      ghost var keys := Keys(calls, keyOf);
      var previous: Option<string> := None;
      nudges := [];
      for i := 0 to |calls|
        invariant Valid()
        invariant previous == if i == 0 then None else Some(keys[i - 1])
        invariant observed == before + Deduped(keys[..i])
        invariant nudges == Nudges(before, keys[..i])
      {
        var key := keyOf(calls[i]);
        assert keys[..i + 1] == keys[..i] + [key];
        NudgesSnoc(before, keys[..i], key);
        var nudge := ObserveOne(previous, key, before, keys[..i]);
        previous, nudges := Some(key), nudges + [nudge];
      }
      assert keys[..|calls|] == keys;
      ReachedInBatch(before, keys);
    }

    /** One call of a batch, after those with the given keys. */
    method ObserveOne(previous: Option<string>, key: string, ghost before: seq<string>, ghost keys: seq<string>)
      returns (nudge: Option<Nudge>)
      requires Valid() && observed == before + Deduped(keys)
      requires previous == if keys == [] then None else Some(keys[|keys| - 1])
      modifies this
      ensures Valid() && observed == before + Deduped(keys + [key])
      ensures nudge == if keys == [] then FirstNudge(before, [key]) else None
    {
      NextInBatch(before, keys, key);
      nudge := None;
      if previous != Some(key) {
        nudge := Count(key);
      }
    }

    /** Counts one call that is no adjacent copy. */
    method Count(key: string) returns (nudge: Option<Nudge>)
      requires Valid()
      modifies this
      ensures Valid() && observed == old(observed) + [key] && nudge == ForStreak(Streak(observed))
    {
      if lastKey == Some(key) {
        streak := streak + 1;
      } else {
        lastKey, streak := Some(key), 1;
      }
      nudge := ForStreak(streak);
      if nudge == Some(StopNow) {
        handoffPending := true;
      }
      StreakSnoc(observed, key);
      observed := observed + [key];
    }

    method TakeHandoff() returns (pending: bool)
      requires Valid()
      modifies this
      ensures Valid() && pending == old(handoffPending) && !handoffPending
      ensures observed == if pending then [] else old(observed)
    {
      pending := handoffPending;
      if pending {
        Reset();
      }
    }
  }

  // ----- the streak is bounded when handoffs are taken -----

  lemma {:induction false} NotReachedBelow(s: seq<string>, limit: nat)
    requires limit > 0 && !Reached(s, limit)
    ensures Streak(s) < limit
  {
  }

  /** A batch observed with no handoff pending leaves the streak at the limit at most. */
  lemma {:induction false} BatchBound(before: seq<string>, keys: seq<string>)
    requires !Reached(before, STOP_AT)
    ensures Streak(before + Deduped(keys)) <= STOP_AT
    decreases |keys|
  {
    NotReachedBelow(before, STOP_AT);
    if keys == [] {
      assert before + Deduped(keys) == before;
    } else {
      var init, last := keys[..|keys| - 1], keys[|keys| - 1];
      assert init + [last] == keys;
      NextInBatch(before, init, last);
      StreakSnoc(before, last);
      BatchBound(before, init);
    }
  }

  datatype Step = Calls(keys: seq<string>) | UserInput

  /** The keys counted after a run of responses: user input resets, and every response takes the handoff before
      it observes. */
  function Observed(steps: seq<Step>): seq<string> {
    if steps == [] then []
    else
      var before, step := Observed(steps[..|steps| - 1]), steps[|steps| - 1];
      if step.UserInput? || Reached(before, STOP_AT) then [] else before + Deduped(step.keys)
  }

  /** In no run of batches and resets does a streak exceed the stop threshold. */
  lemma {:induction false} StreakNeverExceedsStop(steps: seq<Step>)
    ensures Streak(Observed(steps)) <= STOP_AT
  {
    if steps != [] {
      var before, step := Observed(steps[..|steps| - 1]), steps[|steps| - 1];
      if step.Calls? && !Reached(before, STOP_AT) {
        BatchBound(before, step.keys);
      }
    }
  }
}
