/**
 Generation-fenced catalog refresh: concurrent refreshes of model providers, each publishing under a
 per-provider lock, interleaved at every await with each other and with superseding calls.
 */
module CatalogRefresh {
  import opened Results

  datatype ProviderId = ProviderId(name: string)

  datatype Catalog = Catalog(models: seq<string>)

  // ----- the state behind the refresh mutex -----

  /** Generations, the registered cancellation token per provider, and the tokens cancelled so far. */
  datatype RefreshState = RefreshState(
    generations: map<ProviderId, nat>,
    controllers: map<ProviderId, nat>,
    cancelled: set<nat>,
    issued: nat)

  function Generation(r: RefreshState, p: ProviderId): nat {
    if p in r.generations then r.generations[p] else 0
  }

  function Superseded(r: RefreshState, p: ProviderId): RefreshState {
    r.(generations := r.generations[p := Generation(r, p) + 1],
       cancelled := if p in r.controllers then r.cancelled + {r.controllers[p]} else r.cancelled,
       controllers := r.controllers - {p})
  }

  function Registered(r: RefreshState, p: ProviderId): RefreshState {
    r.(controllers := r.controllers[p := r.issued], issued := r.issued + 1)
  }

  /** A refresh begins by superseding the previous one; its token is the last one issued. */
  function Begun(r: RefreshState, p: ProviderId): RefreshState {
    Registered(Superseded(r, p), p)
  }

  /** The test a finishing refresh uses to decide whether the registered token is its own. */
  predicate LooksOwn(r: RefreshState, p: ProviderId, controller: nat) {
    p in r.controllers && (r.controllers[p] in r.cancelled <==> controller in r.cancelled)
  }

  function Closed(r: RefreshState, p: ProviderId, controller: nat): RefreshState {
    if LooksOwn(r, p, controller) then r.(controllers := r.controllers - {p}) else r
  }

  class Models {
    var refresh: RefreshState

    constructor ()
      ensures refresh == RefreshState(map[], map[], {}, 0)
    {
      refresh := RefreshState(map[], map[], {}, 0);
    }

    method SupersedeProviderRefresh(p: ProviderId) returns (generation: nat)
      modifies this
      ensures refresh == Superseded(old(refresh), p)
      ensures generation == Generation(refresh, p) == Generation(old(refresh), p) + 1
      ensures p !in refresh.controllers
      ensures p in old(refresh).controllers ==> old(refresh).controllers[p] in refresh.cancelled
    {
      generation := Generation(refresh, p) + 1;
      refresh := refresh.(generations := refresh.generations[p := generation]);
      if p in refresh.controllers {
        var previous := refresh.controllers[p];
        refresh := refresh.(controllers := refresh.controllers - {p});
        refresh := refresh.(cancelled := refresh.cancelled + {previous});
      } else {
        assert refresh.controllers - {p} == refresh.controllers;
      }
    }

    method BeginProviderRefresh(p: ProviderId) returns (generation: nat, controller: nat)
      modifies this
      ensures refresh == Begun(old(refresh), p)
      ensures generation == Generation(refresh, p) && controller == old(refresh).issued
      ensures p in refresh.controllers && refresh.controllers[p] == controller
    {
      generation := SupersedeProviderRefresh(p);
      controller := refresh.issued;
      refresh := refresh.(issued := controller + 1);
      refresh := refresh.(controllers := refresh.controllers[p := controller]);
    }

    method CloseProviderRefresh(p: ProviderId, controller: nat)
      modifies this
      ensures refresh == Closed(old(refresh), p, controller)
    {
      if p in refresh.controllers && ((refresh.controllers[p] in refresh.cancelled) == (controller in refresh.cancelled)) {
        refresh := refresh.(controllers := refresh.controllers - {p});
      }
    }
  }

  // ----- interleaved runs -----

  datatype Persist = Keep | Delete | Write(models: Catalog)

  datatype Publication = Publication(persist: Persist, update: Option<Catalog>)

  /** Where one refresh stands. From `Admitted` to `Rechecked` it holds its provider's chain. */
  datatype Phase =
    | Idle
    | Waiting(pub: Publication)
    | Admitted(pub: Publication)
    | Checked(pub: Publication)
    | Persisted(pub: Publication)
    | Rechecked(pub: Publication)
    | Abandoned
    | Finished

  predicate Holding(phase: Phase) {
    phase.Admitted? || phase.Checked? || phase.Persisted? || phase.Rechecked?
  }

  datatype Task = Task(provider: ProviderId, generation: nat, controller: nat, signalled: bool, phase: Phase)

  /** A store write (or delete) or an in-memory update, tagged with the generation it came from. */
  datatype Effect = Stored(generation: nat) | Updated(generation: nat)

  datatype System = System(
    refresh: RefreshState,
    tasks: seq<Task>,
    chains: map<ProviderId, nat>,
    store: map<ProviderId, Catalog>,
    live: map<ProviderId, Catalog>,
    effects: map<ProviderId, seq<Effect>>)

  const Initial := System(RefreshState(map[], map[], {}, 0), [], map[], map[], map[], map[])

  datatype Step =
    | Supersede(p: ProviderId)
    | Begin(p: ProviderId)
    | Signal(i: nat)
    | Ask(i: nat, pub: Publication)
    | Acquire(i: nat)
    | Check(i: nat)
    | Store(i: nat, succeeds: bool)
    | Recheck(i: nat)
    | Update(i: nat)
    | Abandon(i: nat)
    | Finish(i: nat)

  function Effects(s: System, p: ProviderId): seq<Effect> {
    if p in s.effects then s.effects[p] else []
  }

  function Emit(s: System, p: ProviderId, e: Effect): System {
    s.(effects := s.effects[p := Effects(s, p) + [e]])
  }

  function At(s: System, i: nat, phase: Phase): System
    requires i < |s.tasks|
  {
    s.(tasks := s.tasks[i := s.tasks[i].(phase := phase)])
  }

  function Unlock(s: System, i: nat, phase: Phase): System
    requires i < |s.tasks|
  {
    At(s, i, phase).(chains := s.chains - {s.tasks[i].provider})
  }

  predicate Current(s: System, t: Task) {
    !t.signalled && Generation(s.refresh, t.provider) == t.generation
  }

  /** A check: go on while neither cancelled nor superseded, give the chain up otherwise. */
  function Passing(s: System, i: nat, next: Phase): System
    requires i < |s.tasks|
  {
    if Current(s, s.tasks[i]) then At(s, i, next) else Unlock(s, i, Idle)
  }

  function Persisting(s: System, i: nat, succeeds: bool): System
    requires i < |s.tasks| && s.tasks[i].phase.Checked?
  {
    var t := s.tasks[i];
    var s' := At(s, i, Persisted(t.phase.pub));
    match t.phase.pub.persist
    case Keep => s'
    case Delete =>
      if succeeds then Emit(s', t.provider, Stored(t.generation)).(store := s.store - {t.provider}) else s'
    case Write(models) =>
      if succeeds then Emit(s', t.provider, Stored(t.generation)).(store := s.store[t.provider := models]) else s'
  }

  function Updating(s: System, i: nat): System
    requires i < |s.tasks| && s.tasks[i].phase.Rechecked?
  {
    var t := s.tasks[i];
    var s' := Unlock(s, i, Idle);
    match t.phase.pub.update
    case None => s'
    case Some(models) => Emit(s', t.provider, Updated(t.generation)).(live := s.live[t.provider := models])
  }

  /** What beginning a refresh does on top of the supersede it starts from. */
  function Joined(s: System, p: ProviderId): System {
    var r := Registered(s.refresh, p);
    s.(refresh := r, tasks := s.tasks + [Task(p, Generation(r, p), s.refresh.issued, false, Idle)])
  }

  /** One atomic step; a step that is not enabled changes nothing. */
  function Next(s: System, step: Step): System {
    match step
    case Supersede(p) => s.(refresh := Superseded(s.refresh, p))
    case Begin(p) => Joined(s.(refresh := Superseded(s.refresh, p)), p)
    case _ => if step.i < |s.tasks| then TaskStep(s, step, step.i) else s
  }

  function TaskStep(s: System, step: Step, i: nat): System
    requires i < |s.tasks|
  {
    match step
    case Signal(_) => s.(tasks := s.tasks[i := s.tasks[i].(signalled := true)])
    case Ask(_, pub) => if s.tasks[i].phase.Idle? then At(s, i, Waiting(pub)) else s
    case Acquire(_) => Acquiring(s, i)
    case Abandon(_) => Abandoning(s, i)
    case Finish(_) => Finishing(s, i)
    case _ => PublicationStep(s, step, i)
  }

  function Acquiring(s: System, i: nat): System
    requires i < |s.tasks|
  {
    var t := s.tasks[i];
    if t.phase.Waiting? && t.provider !in s.chains then
      At(s, i, Admitted(t.phase.pub)).(chains := s.chains[t.provider := i])
    else s
  }

  /** The abort race drops a refresh only where it awaits: between publications, at the lock, in the store. */
  function Abandoning(s: System, i: nat): System
    requires i < |s.tasks|
  {
    var t := s.tasks[i];
    if !t.signalled then s
    else if t.phase.Checked? then Unlock(s, i, Abandoned)
    else if t.phase.Idle? || t.phase.Waiting? then At(s, i, Abandoned)
    else s
  }

  function Finishing(s: System, i: nat): System
    requires i < |s.tasks|
  {
    var t := s.tasks[i];
    if t.phase.Idle? || t.phase.Abandoned? then
      At(s, i, Finished).(refresh := Closed(s.refresh, t.provider, t.controller))
    else s
  }

  /** The steps of one publication between taking the chain and giving it up. */
  function PublicationStep(s: System, step: Step, i: nat): System
    requires i < |s.tasks|
  {
    var t := s.tasks[i];
    match step
    case Check(_) => if t.phase.Admitted? then Passing(s, i, Checked(t.phase.pub)) else s
    case Store(_, succeeds) => if t.phase.Checked? then Persisting(s, i, succeeds) else s
    case Recheck(_) => if t.phase.Persisted? then Passing(s, i, Rechecked(t.phase.pub)) else s
    case Update(_) => if t.phase.Rechecked? then Updating(s, i) else s
    case _ => s
  }

  function Run(s: System, steps: seq<Step>): System {
    if steps == [] then s else Next(Run(s, steps[..|steps| - 1]), steps[|steps| - 1])
  }

  // ----- what every step keeps -----

  predicate Ordered(effects: seq<Effect>) {
    forall a, b | 0 <= a < b < |effects| :: effects[a].generation <= effects[b].generation
  }

  predicate AtMost(effects: seq<Effect>, generation: nat) {
    forall a | 0 <= a < |effects| :: effects[a].generation <= generation
  }

  /** Generations of one provider grow with each refresh and never pass the current one. */
  ghost predicate GenerationsGrow(s: System) {
    && (forall i | 0 <= i < |s.tasks| :: s.tasks[i].generation <= Generation(s.refresh, s.tasks[i].provider))
    && (forall i, j | 0 <= i < j < |s.tasks| && s.tasks[i].provider == s.tasks[j].provider ::
          s.tasks[i].generation < s.tasks[j].generation)
  }

  /** The chain of a provider is held by the one task inside a publication for it. */
  ghost predicate ChainsExclude(s: System) {
    && (forall p | p in s.chains :: s.chains[p] < |s.tasks| && s.tasks[s.chains[p]].provider == p)
    && (forall i | 0 <= i < |s.tasks| ::
          Holding(s.tasks[i].phase) <==> (s.tasks[i].provider in s.chains && s.chains[s.tasks[i].provider] == i))
  }

  predicate PastCheck(phase: Phase) {
    Holding(phase) && !phase.Admitted?
  }

  /** Effects are ordered; a task past its first check is no older than any of them. */
  ghost predicate EffectsOrdered(s: System) {
    && (forall p :: Ordered(Effects(s, p)) && AtMost(Effects(s, p), Generation(s.refresh, p)))
    && (forall i | 0 <= i < |s.tasks| && PastCheck(s.tasks[i].phase) ::
          AtMost(Effects(s, s.tasks[i].provider), s.tasks[i].generation))
  }

  /** Registered tokens are live, and a refresh whose token is live is the registered one until it finishes. */
  ghost predicate TokensOwned(s: System) {
    && (forall p | p in s.refresh.controllers ::
          s.refresh.controllers[p] < s.refresh.issued && s.refresh.controllers[p] !in s.refresh.cancelled)
    && (forall c | c in s.refresh.cancelled :: c < s.refresh.issued)
    && (forall p, q | p in s.refresh.controllers && q in s.refresh.controllers && p != q ::
          s.refresh.controllers[p] != s.refresh.controllers[q])
    && (forall i, j | 0 <= i < j < |s.tasks| :: s.tasks[i].controller < s.tasks[j].controller)
    && (forall i | 0 <= i < |s.tasks| ::
          && s.tasks[i].controller < s.refresh.issued
          && (!s.tasks[i].phase.Finished? && s.tasks[i].controller !in s.refresh.cancelled ==>
              var p := s.tasks[i].provider;
              p in s.refresh.controllers && s.refresh.controllers[p] == s.tasks[i].controller))
  }

  ghost predicate Inv(s: System) {
    GenerationsGrow(s) && ChainsExclude(s) && EffectsOrdered(s) && TokensOwned(s)
  }

  // The four parts of what a step of refresh `i` may do to the system.

  /** It moves that refresh only, and keeps what identifies it. */
  ghost predicate MovesOnly(s: System, s': System, i: nat) {
    && i < |s.tasks| == |s'.tasks|
    && (forall j | 0 <= j < |s.tasks| && j != i :: s'.tasks[j] == s.tasks[j])
    && s'.tasks[i].provider == s.tasks[i].provider
    && s'.tasks[i].generation == s.tasks[i].generation
    && s'.tasks[i].controller == s.tasks[i].controller
    && (s.tasks[i].phase.Finished? ==> s'.tasks[i].phase.Finished?)
  }

  /** Of the refresh state it may only close its own registration, and only by finishing. */
  ghost predicate ClosesOwn(s: System, s': System, i: nat)
    requires MovesOnly(s, s', i)
  {
    var t := s.tasks[i];
    || s'.refresh == s.refresh
    || (!t.phase.Finished? && s'.tasks[i].phase.Finished? &&
        s'.refresh == Closed(s.refresh, t.provider, t.controller))
  }

  /** It takes its provider's chain only when free, and holds it exactly while inside a publication. */
  ghost predicate TakesChain(s: System, s': System, i: nat)
    requires MovesOnly(s, s', i)
  {
    var t, t' := s.tasks[i], s'.tasks[i];
    if Holding(t.phase) == Holding(t'.phase) then s'.chains == s.chains
    else if Holding(t.phase) then s'.chains == s.chains - {t.provider}
    else t.provider !in s.chains && s'.chains == s.chains[t.provider := i]
  }

  /** It has at most one effect, its own, past a check; and it passes a check only while current. */
  ghost predicate Publishes(s: System, s': System, i: nat)
    requires MovesOnly(s, s', i)
  {
    var t, t' := s.tasks[i], s'.tasks[i];
    var before, after := Effects(s, t.provider), Effects(s', t.provider);
    && (forall p | p != t.provider :: Effects(s', p) == Effects(s, p))
    && (|| after == before
        || (t.phase.Checked? && t'.phase.Persisted? && after == before + [Stored(t.generation)])
        || (t.phase.Rechecked? && t'.phase.Idle? && after == before + [Updated(t.generation)]))
    && (PastCheck(t'.phase) && t'.phase != t.phase && (t'.phase.Checked? || t'.phase.Rechecked?) ==>
        t.generation == Generation(s.refresh, t.provider))
    && (t'.phase.Persisted? && t'.phase != t.phase ==> t.phase.Checked?)
  }

  ghost predicate TaskMoves(s: System, s': System, i: nat) {
    MovesOnly(s, s', i) && ClosesOwn(s, s', i) && TakesChain(s, s', i) && Publishes(s, s', i)
  }

  lemma TaskStepMoves(s: System, step: Step, i: nat)
    requires i < |s.tasks|
    ensures TaskMoves(s, TaskStep(s, step, i), i)
  {
    match step
    case Abandon(_) => AbandonMoves(s, i);
    case Finish(_) => FinishMoves(s, i);
    case Acquire(_) => AcquireMoves(s, i);
    case Signal(_) => SignalMoves(s, step, i);
    case Ask(_, _) => AskMoves(s, step, i);
    case _ => PublicationStepMoves(s, step, i);
  }

  lemma SignalMoves(s: System, step: Step, i: nat)
    requires i < |s.tasks| && step.Signal?
    ensures TaskMoves(s, TaskStep(s, step, i), i)
  {
  }

  lemma AskMoves(s: System, step: Step, i: nat)
    requires i < |s.tasks| && step.Ask?
    ensures TaskMoves(s, TaskStep(s, step, i), i)
  {
  }

  lemma AbandonMoves(s: System, i: nat)
    requires i < |s.tasks|
    ensures TaskMoves(s, Abandoning(s, i), i)
  {
  }

  lemma FinishMoves(s: System, i: nat)
    requires i < |s.tasks|
    ensures TaskMoves(s, Finishing(s, i), i)
  {
  }

  lemma AcquireMoves(s: System, i: nat)
    requires i < |s.tasks|
    ensures TaskMoves(s, Acquiring(s, i), i)
  {
  }

  lemma PublicationStepMoves(s: System, step: Step, i: nat)
    requires i < |s.tasks|
    ensures TaskMoves(s, PublicationStep(s, step, i), i)
  {
    var t := s.tasks[i];
    match step
    case Check(_) => if t.phase.Admitted? { PassingMoves(s, i, Checked(t.phase.pub)); } else { StayingMoves(s, i); }
    case Recheck(_) => if t.phase.Persisted? { PassingMoves(s, i, Rechecked(t.phase.pub)); } else { StayingMoves(s, i); }
    case Store(_, succeeds) => if t.phase.Checked? { PersistingMoves(s, i, succeeds); } else { StayingMoves(s, i); }
    case Update(_) => if t.phase.Rechecked? { UpdatingMoves(s, i); } else { StayingMoves(s, i); }
    case _ => StayingMoves(s, i);
  }

  lemma StayingMoves(s: System, i: nat)
    requires i < |s.tasks|
    ensures TaskMoves(s, s, i)
  {
  }

  lemma UpdatingMoves(s: System, i: nat)
    requires i < |s.tasks| && s.tasks[i].phase.Rechecked?
    ensures TaskMoves(s, Updating(s, i), i)
  {
    var t := s.tasks[i];
    match t.phase.pub.update
    case None => UpdatedNothingMoves(s, i);
    case Some(models) => UpdatedMoves(s, i, s.live[t.provider := models]);
  }

  lemma UpdatedNothingMoves(s: System, i: nat)
    requires i < |s.tasks| && s.tasks[i].phase.Rechecked?
    ensures TaskMoves(s, Unlock(s, i, Idle), i)
  {
  }

  lemma UpdatedMoves(s: System, i: nat, live: map<ProviderId, Catalog>)
    requires i < |s.tasks| && s.tasks[i].phase.Rechecked?
    ensures var t := s.tasks[i];
            TaskMoves(s, Emit(Unlock(s, i, Idle), t.provider, Updated(t.generation)).(live := live), i)
  {
  }

  lemma PersistingMoves(s: System, i: nat, succeeds: bool)
    requires i < |s.tasks| && s.tasks[i].phase.Checked?
    ensures TaskMoves(s, Persisting(s, i, succeeds), i)
  {
    var t := s.tasks[i];
    match t.phase.pub.persist
    case Keep => UnstoredMoves(s, i);
    case Delete =>
      if succeeds { StoredMoves(s, i, s.store - {t.provider}); } else { UnstoredMoves(s, i); }
    case Write(models) =>
      if succeeds { StoredMoves(s, i, s.store[t.provider := models]); } else { UnstoredMoves(s, i); }
  }

  lemma UnstoredMoves(s: System, i: nat)
    requires i < |s.tasks| && s.tasks[i].phase.Checked?
    ensures TaskMoves(s, At(s, i, Persisted(s.tasks[i].phase.pub)), i)
  {
  }

  lemma StoredMoves(s: System, i: nat, store: map<ProviderId, Catalog>)
    requires i < |s.tasks| && s.tasks[i].phase.Checked?
    ensures var t := s.tasks[i];
            TaskMoves(s, Emit(At(s, i, Persisted(t.phase.pub)), t.provider, Stored(t.generation)).(store := store), i)
  {
  }

  lemma PassingMoves(s: System, i: nat, next: Phase)
    requires i < |s.tasks| && Holding(s.tasks[i].phase) && (next.Checked? || next.Rechecked?)
    ensures TaskMoves(s, Passing(s, i, next), i)
  {
    if Current(s, s.tasks[i]) {
      PassedMoves(s, i, next);
    } else {
      GivenUpMoves(s, i);
    }
  }

  lemma PassedMoves(s: System, i: nat, next: Phase)
    requires i < |s.tasks| && Holding(s.tasks[i].phase) && (next.Checked? || next.Rechecked?)
    requires Current(s, s.tasks[i])
    ensures TaskMoves(s, At(s, i, next), i)
  {
  }

  lemma GivenUpMoves(s: System, i: nat)
    requires i < |s.tasks| && Holding(s.tasks[i].phase)
    ensures TaskMoves(s, Unlock(s, i, Idle), i)
  {
  }

  lemma MoveKeepsGenerations(s: System, s': System, i: nat)
    requires GenerationsGrow(s) && TaskMoves(s, s', i)
    ensures GenerationsGrow(s')
  {
    assert s'.refresh.generations == s.refresh.generations;
  }

  lemma MoveKeepsChains(s: System, s': System, i: nat)
    requires ChainsExclude(s) && TaskMoves(s, s', i)
    ensures ChainsExclude(s')
  {
  }

  lemma MoveKeepsOrder(s: System, s': System, i: nat)
    requires Inv(s) && TaskMoves(s, s', i)
    ensures EffectsOrdered(s')
  {
    assert s'.refresh.generations == s.refresh.generations;
    forall p
      ensures Ordered(Effects(s', p)) && AtMost(Effects(s', p), Generation(s'.refresh, p))
    {
      assert Ordered(Effects(s, p)) && AtMost(Effects(s, p), Generation(s.refresh, p));
      if p == s.tasks[i].provider {
        MoverStaysOrdered(s, s', i);
      }
    }
    HolderIsNewest(s, s', i);
  }

  lemma OrderedSnoc(effects: seq<Effect>, e: Effect, bound: nat)
    requires Ordered(effects) && AtMost(effects, e.generation) && e.generation <= bound
    ensures Ordered(effects + [e]) && AtMost(effects + [e], bound)
  {
  }

  lemma MoverStaysOrdered(s: System, s': System, i: nat)
    requires GenerationsGrow(s) && EffectsOrdered(s) && MovesOnly(s, s', i) && Publishes(s, s', i)
    ensures var p := s.tasks[i].provider;
            Ordered(Effects(s', p)) && AtMost(Effects(s', p), Generation(s.refresh, p))
  {
    var t := s.tasks[i];
    var before, after, g := Effects(s, t.provider), Effects(s', t.provider), Generation(s.refresh, t.provider);
    assert Ordered(before) && AtMost(before, g) && t.generation <= g;
    if after != before {
      assert AtMost(before, t.generation);
      OrderedSnoc(before, if t.phase.Checked? then Stored(t.generation) else Updated(t.generation), g);
    }
  }

  lemma HolderIsNewest(s: System, s': System, i: nat)
    requires Inv(s) && TaskMoves(s, s', i)
    ensures forall j | 0 <= j < |s'.tasks| && PastCheck(s'.tasks[j].phase) ::
              AtMost(Effects(s', s'.tasks[j].provider), s'.tasks[j].generation)
  {
    forall j | 0 <= j < |s'.tasks| && PastCheck(s'.tasks[j].phase)
      ensures AtMost(Effects(s', s'.tasks[j].provider), s'.tasks[j].generation)
    {
      if j == i {
        MoverIsNewest(s, s', i);
      } else {
        BystanderIsNewest(s, s', i, j);
      }
    }
  }

  lemma MoverIsNewest(s: System, s': System, i: nat)
    requires Inv(s) && TaskMoves(s, s', i) && PastCheck(s'.tasks[i].phase)
    ensures AtMost(Effects(s', s'.tasks[i].provider), s'.tasks[i].generation)
  {
    var t := s.tasks[i];
    var before := Effects(s, t.provider);
    assert AtMost(before, Generation(s.refresh, t.provider));
    assert PastCheck(t.phase) ==> AtMost(before, t.generation);
  }

  lemma BystanderIsNewest(s: System, s': System, i: nat, j: nat)
    requires Inv(s) && TaskMoves(s, s', i) && j != i
    requires j < |s.tasks| && PastCheck(s.tasks[j].phase)
    ensures AtMost(Effects(s', s'.tasks[j].provider), s'.tasks[j].generation)
  {
    assert AtMost(Effects(s, s.tasks[j].provider), s.tasks[j].generation);
    if s.tasks[j].provider == s.tasks[i].provider {
      assert !Holding(s.tasks[i].phase);
    }
  }

  lemma MoveKeepsTokens(s: System, s': System, i: nat)
    requires TokensOwned(s) && TaskMoves(s, s', i)
    ensures TokensOwned(s')
  {
  }

  lemma SupersedeKeepsInv(s: System, p: ProviderId)
    requires Inv(s)
    ensures Inv(s.(refresh := Superseded(s.refresh, p)))
  {
    var s' := s.(refresh := Superseded(s.refresh, p));
    assert forall q :: Generation(s'.refresh, q) >= Generation(s.refresh, q) && Effects(s', q) == Effects(s, q);
  }

  lemma JoinedKeepsOrder(s: System, p: ProviderId)
    requires Inv(s)
    requires forall i | 0 <= i < |s.tasks| && s.tasks[i].provider == p ::
               s.tasks[i].generation < Generation(s.refresh, p)
    ensures GenerationsGrow(Joined(s, p)) && EffectsOrdered(Joined(s, p))
  {
    var s' := Joined(s, p);
    assert forall q :: Generation(s'.refresh, q) == Generation(s.refresh, q) && Effects(s', q) == Effects(s, q);
    forall i | 0 <= i < |s'.tasks| && PastCheck(s'.tasks[i].phase)
      ensures AtMost(Effects(s', s'.tasks[i].provider), s'.tasks[i].generation)
    {
      assert s'.tasks[i] == s.tasks[i];
    }
  }

  lemma JoinedKeepsChains(s: System, p: ProviderId)
    requires ChainsExclude(s)
    ensures ChainsExclude(Joined(s, p))
  {
  }

  lemma JoinedKeepsTokens(s: System, p: ProviderId)
    requires TokensOwned(s) && p !in s.refresh.controllers
    ensures TokensOwned(Joined(s, p))
  {
  }

  lemma BeginKeepsInv(s: System, p: ProviderId)
    requires Inv(s)
    ensures Inv(Joined(s.(refresh := Superseded(s.refresh, p)), p))
  {
    var s1 := s.(refresh := Superseded(s.refresh, p));
    SupersedeKeepsInv(s, p);
    JoinedKeepsOrder(s1, p);
    JoinedKeepsChains(s1, p);
    JoinedKeepsTokens(s1, p);
  }

  lemma MoveKeepsInv(s: System, s': System, i: nat)
    requires Inv(s) && TaskMoves(s, s', i)
    ensures Inv(s')
  {
    MoveKeepsGenerations(s, s', i);
    MoveKeepsChains(s, s', i);
    MoveKeepsOrder(s, s', i);
    MoveKeepsTokens(s, s', i);
  }

  lemma NextKeepsInv(s: System, step: Step)
    requires Inv(s)
    ensures Inv(Next(s, step))
  {
    match step
    case Supersede(p) => SupersedeKeepsInv(s, p);
    case Begin(p) => BeginKeepsInv(s, p);
    case _ =>
      if step.i < |s.tasks| {
        TaskStepMoves(s, step, step.i);
        MoveKeepsInv(s, TaskStep(s, step, step.i), step.i);
      }
  }

  lemma {:induction false} RunKeepsInv(s: System, steps: seq<Step>)
    requires Inv(s)
    ensures Inv(Run(s, steps))
  {
    if steps != [] {
      RunKeepsInv(s, steps[..|steps| - 1]);
      NextKeepsInv(Run(s, steps[..|steps| - 1]), steps[|steps| - 1]);
    }
  }

  // ----- what every run shows -----

  /** In every interleaving, the store writes and in-memory updates of a provider happen in
      nondecreasing generation order, wherever supersedes land. */
  lemma PublicationsInOrder(steps: seq<Step>, p: ProviderId)
    ensures Ordered(Effects(Run(Initial, steps), p))
  {
    RunKeepsInv(Initial, steps);
  }

  /** The finishing test recognises exactly the refresh's own token, so finishing never drops another's. */
  lemma FinishingTestIsIdentity(steps: seq<Step>, i: nat)
    requires i < |Run(Initial, steps).tasks|
    requires !Run(Initial, steps).tasks[i].phase.Finished?
    ensures var s := Run(Initial, steps);
            var t := s.tasks[i];
            var closed := Closed(s.refresh, t.provider, t.controller);
            && (LooksOwn(s.refresh, t.provider, t.controller) <==>
                t.provider in s.refresh.controllers && s.refresh.controllers[t.provider] == t.controller)
            && (t.provider !in closed.controllers <==>
                t.provider in s.refresh.controllers ==> s.refresh.controllers[t.provider] == t.controller)
            && (forall p | p in s.refresh.controllers && s.refresh.controllers[p] != t.controller ::
                  p in closed.controllers && closed.controllers[p] == s.refresh.controllers[p])
  {
    RunKeepsInv(Initial, steps);
  }

  function Count(effects: seq<Effect>, generation: nat): nat {
    if effects == [] then 0
    else
      var n := |effects| - 1;
      Count(effects[..n], generation) + if effects[n].generation == generation then 1 else 0
  }

  ghost predicate Stale(s: System, i: nat) {
    i < |s.tasks| && s.tasks[i].generation < Generation(s.refresh, s.tasks[i].provider)
  }

  /** The effects a superseded refresh can still have: the one its last passed check admits. */
  function Allowance(t: Task): nat {
    if t.phase.Checked? || t.phase.Rechecked? then 1 else 0
  }

  function OwnEffects(s: System, i: nat): nat
    requires i < |s.tasks|
  {
    Count(Effects(s, s.tasks[i].provider), s.tasks[i].generation)
  }

  lemma StaleMove(s: System, s': System, k: nat, i: nat)
    requires Inv(s) && Stale(s, i) && TaskMoves(s, s', k)
    ensures Stale(s', i)
    ensures OwnEffects(s', i) + Allowance(s'.tasks[i]) <= OwnEffects(s, i) + Allowance(s.tasks[i])
  {
    if k == i {
      OwnStaleMove(s, s', i);
    } else {
      OtherStaleMove(s, s', k, i);
    }
  }

  lemma CountSnoc(effects: seq<Effect>, e: Effect, generation: nat)
    ensures Count(effects + [e], generation) == Count(effects, generation) + if e.generation == generation then 1 else 0
  {
    assert (effects + [e])[..|effects|] == effects;
  }

  lemma OwnStaleMove(s: System, s': System, i: nat)
    requires Stale(s, i) && TaskMoves(s, s', i)
    ensures Stale(s', i)
    ensures OwnEffects(s', i) + Allowance(s'.tasks[i]) <= OwnEffects(s, i) + Allowance(s.tasks[i])
  {
    var t := s.tasks[i];
    var before := Effects(s, t.provider);
    CountSnoc(before, Stored(t.generation), t.generation);
    CountSnoc(before, Updated(t.generation), t.generation);
  }

  /** Another refresh of the same provider has another generation, so its effects are not counted. */
  lemma OtherStaleMove(s: System, s': System, k: nat, i: nat)
    requires Inv(s) && Stale(s, i) && TaskMoves(s, s', k) && k != i
    ensures Stale(s', i)
    ensures OwnEffects(s', i) + Allowance(s'.tasks[i]) <= OwnEffects(s, i) + Allowance(s.tasks[i])
  {
    var t := s.tasks[k];
    var before := Effects(s, t.provider);
    CountSnoc(before, Stored(t.generation), s.tasks[i].generation);
    CountSnoc(before, Updated(t.generation), s.tasks[i].generation);
  }

  lemma StaleStep(s: System, step: Step, i: nat)
    requires Inv(s) && Stale(s, i)
    ensures Stale(Next(s, step), i)
    ensures var s' := Next(s, step);
            OwnEffects(s', i) + Allowance(s'.tasks[i]) <= OwnEffects(s, i) + Allowance(s.tasks[i])
  {
    if step.Supersede? || step.Begin? {
      var p := s.tasks[i].provider;
      assert Effects(Next(s, step), p) == Effects(s, p);
    } else if step.i < |s.tasks| {
      TaskStepMoves(s, step, step.i);
      StaleMove(s, TaskStep(s, step, step.i), step.i, i);
    }
  }

  /** Once superseded, a refresh has at most one more effect in any continuation, and none at all unless
      it had just passed a check. */
  lemma {:induction false} SupersededIsFenced(s: System, steps: seq<Step>, i: nat)
    requires Inv(s) && Stale(s, i)
    ensures Stale(Run(s, steps), i)
    ensures var s' := Run(s, steps);
            OwnEffects(s', i) + Allowance(s'.tasks[i]) <= OwnEffects(s, i) + Allowance(s.tasks[i])
  {
    if steps != [] {
      var n := |steps| - 1;
      SupersededIsFenced(s, steps[..n], i);
      RunKeepsInv(s, steps[..n]);
      StaleStep(Run(s, steps[..n]), steps[n], i);
    }
  }
}
