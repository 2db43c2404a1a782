/**
 Session leases in the client: per-session counts, an exclusive owner, generations bumped by invalidation,
 and handles whose releases are in flight while other steps interleave.
 */
module ClientLeases {
  import opened Results

  datatype SessionId = SessionId(name: string)

  datatype Mode = Shared | Exclusive

  datatype Token = Token(id: nat, mode: Mode)

  datatype OwnershipError = AlreadyLeased | ExclusivelyLeased

  // ----- the lease tables of the client -----

  datatype LeaseData = LeaseData(
    counts: map<SessionId, nat>,
    exclusive: map<SessionId, nat>,
    generations: map<SessionId, nat>,
    sequence: nat)

  function Lookup(m: map<SessionId, nat>, s: SessionId): nat {
    if s in m then m[s] else 0
  }

  function Reserved(d: LeaseData, s: SessionId, mode: Mode): (r: Result<(LeaseData, Token), OwnershipError>) {
    var count := Lookup(d.counts, s);
    if mode == Exclusive && count > 0 then Err(AlreadyLeased)
    else if mode == Shared && s in d.exclusive then Err(ExclusivelyLeased)
    else
      var token := Token(d.sequence + 1, mode);
      Ok((d.(sequence := token.id,
             counts := d.counts[s := count + 1],
             exclusive := if mode == Exclusive then d.exclusive[s := token.id] else d.exclusive), token))
  }

  function Released(d: LeaseData, s: SessionId, token: Token): LeaseData {
    var count := Lookup(d.counts, s);
    d.(counts := if count <= 1 then d.counts - {s} else d.counts[s := count - 1],
       exclusive := if s in d.exclusive && d.exclusive[s] == token.id then d.exclusive - {s} else d.exclusive)
  }

  function Invalidated(d: LeaseData, s: SessionId): LeaseData {
    d.(counts := d.counts - {s},
       exclusive := d.exclusive - {s},
       generations := d.generations[s := Lookup(d.generations, s) + 1])
  }

  /** Invalidating every session with a count, in any order. */
  function AllInvalidated(d: LeaseData): LeaseData {
    d.(counts := map[],
       exclusive := d.exclusive - d.counts.Keys,
       generations := map s | s in d.generations.Keys + d.counts.Keys ::
         if s in d.counts then Lookup(d.generations, s) + 1 else d.generations[s])
  }

  class LeaseTable {
    var data: LeaseData

    constructor ()
      ensures data == LeaseData(map[], map[], map[], 0)
    {
      data := LeaseData(map[], map[], map[], 0);
    }

    method ReserveSessionLease(s: SessionId, mode: Mode) returns (r: Result<Token, OwnershipError>)
      modifies this
      ensures match Reserved(old(data), s, mode)
              case Ok((after, token)) => r == Ok(token) && data == after
              case Err(e) => r == Err(e) && data == old(data)
    {
      var count := if s in data.counts then data.counts[s] else 0;
      if mode == Exclusive && count > 0 {
        return Err(AlreadyLeased);
      }
      if mode == Shared && s in data.exclusive {
        return Err(ExclusivelyLeased);
      }
      data := data.(sequence := data.sequence + 1);
      var token := Token(data.sequence, mode);
      data := data.(counts := data.counts[s := count + 1]);
      if mode == Exclusive {
        data := data.(exclusive := data.exclusive[s := token.id]);
      }
      r := Ok(token);
    }

    method ReleaseSessionLease(s: SessionId, token: Token)
      modifies this
      ensures data == Released(old(data), s, token)
    {
      var count := if s in data.counts then data.counts[s] else 0;
      if count <= 1 {
        data := data.(counts := data.counts - {s});
      } else {
        data := data.(counts := data.counts[s := count - 1]);
      }
      if s in data.exclusive && data.exclusive[s] == token.id {
        data := data.(exclusive := data.exclusive - {s});
      }
    }

    method InvalidateSessionLeases(s: SessionId)
      modifies this
      ensures data == Invalidated(old(data), s)
    {
      data := data.(counts := data.counts - {s});
      data := data.(exclusive := data.exclusive - {s});
      var generation := if s in data.generations then data.generations[s] else 0;
      data := data.(generations := data.generations[s := generation + 1]);
    }

    method InvalidateAllSessionLeases()
      modifies this
      ensures data == AllInvalidated(old(data))
    {
      ghost var before := data;
      var ids := data.counts.Keys;
      ghost var gone: set<SessionId> := {};
      while ids != {}
        invariant ids + gone == before.counts.Keys && ids !! gone
        invariant data.sequence == before.sequence
        invariant data.counts == before.counts - gone
        invariant data.exclusive == before.exclusive - gone
        invariant data.generations.Keys == before.generations.Keys + gone
        invariant forall s | s in data.generations ::
                    data.generations[s] == Lookup(before.generations, s) + if s in gone then 1 else 0
        decreases ids
      {
        var s :| s in ids;
        InvalidateSessionLeases(s);
        ids := ids - {s};
        gone := gone + {s};
      }
      assert data.counts == map[];
    }
  }

  // ----- runs -----

  datatype Cell = Active | Releasing | Done | Void

  /** A handle: the lease it came from, the generation it was created in, its cell, and whether a release in
      flight waits for the server and gives up on failure. */
  datatype Handle = Handle(lease: nat, generation: nat, cell: Cell, flight: Option<Flight>)

  datatype Flight = Flight(detaches: bool, relinquishes: bool)

  /** A lease, with the generation its session was in when it was reserved. */
  datatype Lease = Lease(session: SessionId, token: Token, generation: nat)

  /** The client with every lease ever issued, those given back, and, per session, those neither given back
      nor invalidated. */
  datatype Client = Client(
    data: LeaseData,
    issued: seq<Lease>,
    back: set<nat>,
    held: map<SessionId, set<nat>>,
    handles: seq<Handle>,
    attached: set<SessionId>,
    connected: bool)

  const Start := Client(LeaseData(map[], map[], map[], 0), [], {}, map[], [], {}, false)

  function Held(c: Client, s: SessionId): set<nat> {
    if s in c.held then c.held[s] else {}
  }

  datatype Step =
    | Reserve(s: SessionId, mode: Mode)
    | GiveUp(lease: nat)
    | Open(lease: nat)
    | Query(h: nat)
    | Release(h: nat, relinquish: bool)
    | Finish(h: nat, succeeded: bool)
    | Attach(s: SessionId)
    | Detach(s: SessionId)
    | Connect
    | Remove(s: SessionId)
    | Disconnect

  function GenerationOf(c: Client, lease: nat): nat
    requires lease < |c.issued|
  {
    Lookup(c.data.generations, c.issued[lease].session)
  }

  ghost predicate Wellformed(c: Client) {
    LeasesNumbered(c) && CountsPositive(c.data) && HandlesRefer(c) && HeldRefers(c)
  }

  ghost predicate LeasesNumbered(c: Client) {
    |c.issued| == c.data.sequence && forall k | 0 <= k < |c.issued| :: c.issued[k].token.id == k + 1
  }

  ghost predicate CountsPositive(d: LeaseData) {
    forall s | s in d.counts :: d.counts[s] > 0
  }

  /** A handle refers to an issued lease and is of no later generation; a release is in flight while it is
      releasing, and otherwise only when it is void. */
  ghost predicate HandlesRefer(c: Client) {
    forall h | 0 <= h < |c.handles| ::
      && c.handles[h].lease < |c.issued|
      && c.handles[h].generation <= GenerationOf(c, c.handles[h].lease)
      && (c.handles[h].cell.Releasing? ==> c.handles[h].flight.Some?)
      && (c.handles[h].flight.Some? ==> c.handles[h].cell.Releasing? || c.handles[h].cell.Void?)
  }

  ghost predicate HeldRefers(c: Client) {
    forall s, k {:trigger k in Held(c, s)} | k in Held(c, s) :: k < |c.issued| && c.issued[k].session == s
  }

  /** What looking at a handle does to its cell: a stale one is marked void. */
  function Refreshed(c: Client, handle: Handle): Handle
    requires handle.lease < |c.issued|
  {
    if (handle.cell.Active? || handle.cell.Releasing?) && GenerationOf(c, handle.lease) != handle.generation then
      handle.(cell := Void)
    else handle
  }

  predicate IsActive(c: Client, handle: Handle)
    requires handle.lease < |c.issued|
  {
    Refreshed(c, handle).cell.Active? && c.issued[handle.lease].session in c.attached
  }

  function GivenBack(c: Client, lease: nat): Client
    requires lease < |c.issued|
  {
    var l := c.issued[lease];
    c.(data := Released(c.data, l.session, l.token),
       back := c.back + {lease},
       held := c.held[l.session := Held(c, l.session) - {lease}])
  }

  function SetHandle(c: Client, h: nat, handle: Handle): Client
    requires h < |c.handles|
  {
    c.(handles := c.handles[h := handle])
  }

  function ReleaseStarted(c: Client, h: nat, relinquish: bool): Client
    requires h < |c.handles| && c.handles[h].lease < |c.issued|
  {
    var handle := Refreshed(c, c.handles[h]);
    if handle.cell.Done? || handle.cell.Void? || handle.flight.Some? || !c.connected || !IsActive(c, handle) then
      SetHandle(c, h, handle)
    else
      var detaches := Lookup(c.data.counts, c.issued[handle.lease].session) <= 1;
      SetHandle(c, h, handle.(cell := Releasing, flight := Some(Flight(detaches, relinquish))))
  }

  /** Whether completing the release in flight gives the lease back: always on success or without a detach,
      and on failure only when relinquishing a handle that is not stale. */
  predicate GivesBack(c: Client, handle: Handle, succeeded: bool)
    requires handle.lease < |c.issued|
  {
    && handle.flight.Some?
    && (!handle.flight.value.detaches || succeeded
        || (handle.flight.value.relinquishes && !Refreshed(c, handle).cell.Void?))
  }

  function ReleaseFinished(c: Client, h: nat, succeeded: bool): Client
    requires h < |c.handles| && c.handles[h].lease < |c.issued|
  {
    var handle := c.handles[h];
    if handle.flight.None? then c
    else if GivesBack(c, handle, succeeded) then
      SetHandle(GivenBack(c, handle.lease), h, handle.(cell := Done, flight := None))
    else
      var looked := Refreshed(c, handle).(flight := None);
      SetHandle(c, h, if looked.cell.Void? then looked else looked.(cell := Active))
  }

  function Next(c: Client, step: Step): Client
    requires Wellformed(c)
  {
    match step
    case Reserve(s, mode) =>
      (match Reserved(c.data, s, mode)
       case Err(_) => c
       case Ok((data, token)) =>
         c.(data := data, issued := c.issued + [Lease(s, token, Lookup(c.data.generations, s))],
            held := c.held[s := Held(c, s) + {|c.issued|}]))
    case GiveUp(lease) => if lease < |c.issued| then GivenBack(c, lease) else c
    case Open(lease) =>
      if lease < |c.issued| then
        c.(handles := c.handles + [Handle(lease, GenerationOf(c, lease), Active, None)])
      else c
    case Query(h) => if h < |c.handles| then SetHandle(c, h, Refreshed(c, c.handles[h])) else c
    case Release(h, relinquish) => if h < |c.handles| then ReleaseStarted(c, h, relinquish) else c
    case Finish(h, succeeded) => if h < |c.handles| then ReleaseFinished(c, h, succeeded) else c
    case Attach(s) => c.(attached := c.attached + {s})
    case Detach(s) => c.(attached := c.attached - {s})
    case Connect => c.(connected := true)
    case Remove(s) => c.(data := Invalidated(c.data, s), held := c.held - {s}, attached := c.attached - {s})
    case Disconnect =>
      c.(data := AllInvalidated(c.data), held := c.held - c.data.counts.Keys, attached := {}, connected := false)
  }

  /** Only reserving makes something held, and then only the lease it issues. */
  ghost predicate NewlyHeld(c: Client, c': Client) {
    || (c'.issued == c.issued && forall s :: Held(c', s) <= Held(c, s))
    || (exists l: Lease :: c'.issued == c.issued + [l] &&
          forall s :: Held(c', s) == Held(c, s) + if l.session == s then {|c.issued|} else {})
  }

  lemma NextNewlyHeld(c: Client, step: Step)
    requires Wellformed(c)
    ensures NewlyHeld(c, Next(c, step))
  {
    var c' := Next(c, step);
    if step.Reserve? && Reserved(c.data, step.s, step.mode).Ok? {
      var l := Lease(step.s, Reserved(c.data, step.s, step.mode).value.1, Lookup(c.data.generations, step.s));
      assert c'.issued == c.issued + [l];
    }
  }

  lemma NewlyHeldRefers(c: Client, c': Client)
    requires HeldRefers(c) && NewlyHeld(c, c')
    ensures HeldRefers(c')
  {
    if c'.issued != c.issued {
      var l: Lease :| c'.issued == c.issued + [l] &&
        forall s :: Held(c', s) == Held(c, s) + if l.session == s then {|c.issued|} else {};
      assert forall s, k | k in Held(c', s) :: k in Held(c, s) || (k == |c.issued| && l.session == s);
    }
  }

  lemma NextWellformed(c: Client, step: Step)
    requires Wellformed(c)
    ensures Wellformed(Next(c, step))
  {
    NextNewlyHeld(c, step);
    NewlyHeldRefers(c, Next(c, step));
    NextHandlesRefer(c, step);
  }

  lemma NextHandlesRefer(c: Client, step: Step)
    requires Wellformed(c)
    ensures LeasesNumbered(Next(c, step)) && CountsPositive(Next(c, step).data) && HandlesRefer(Next(c, step))
  {
    match step
    case Release(h, relinquish) => if h < |c.handles| { StartedRefers(c, h, relinquish); }
    case Finish(h, succeeded) => if h < |c.handles| { FinishedRefers(c, h, succeeded); }
    case Reserve(s, mode) => ReservedRefers(c, s, mode);
    case Open(lease) => OpenedRefers(c, lease);
    case Query(h) => QueriedRefers(c, h);
    case GiveUp(lease) => if lease < |c.issued| { GivenBackRefers(c, lease); }
    case _ => ClearedRefers(c, step);
  }

  lemma OpenedRefers(c: Client, lease: nat)
    requires Wellformed(c)
    ensures var c' := Next(c, Open(lease));
            LeasesNumbered(c') && CountsPositive(c'.data) && HandlesRefer(c')
  {
  }

  lemma QueriedRefers(c: Client, h: nat)
    requires Wellformed(c)
    ensures var c' := Next(c, Query(h));
            LeasesNumbered(c') && CountsPositive(c'.data) && HandlesRefer(c')
  {
  }

  lemma GivenBackRefers(c: Client, lease: nat)
    requires Wellformed(c) && lease < |c.issued|
    ensures var c' := GivenBack(c, lease);
            LeasesNumbered(c') && CountsPositive(c'.data) && HandlesRefer(c')
  {
  }

  lemma ReservedRefers(c: Client, s: SessionId, mode: Mode)
    requires Wellformed(c)
    ensures var c' := Next(c, Reserve(s, mode));
            LeasesNumbered(c') && CountsPositive(c'.data) && HandlesRefer(c')
  {
  }

  lemma ClearedRefers(c: Client, step: Step)
    requires Wellformed(c)
    requires step.Attach? || step.Detach? || step.Connect? || step.Remove? || step.Disconnect?
    ensures LeasesNumbered(Next(c, step)) && CountsPositive(Next(c, step).data) && HandlesRefer(Next(c, step))
  {
    var c' := Next(c, step);
    assert forall t :: Lookup(c.data.generations, t) <= Lookup(c'.data.generations, t);
  }

  lemma StartedRefers(c: Client, h: nat, relinquish: bool)
    requires Wellformed(c) && h < |c.handles|
    ensures LeasesNumbered(ReleaseStarted(c, h, relinquish)) && HandlesRefer(ReleaseStarted(c, h, relinquish))
  {
  }

  lemma FinishedRefers(c: Client, h: nat, succeeded: bool)
    requires Wellformed(c) && h < |c.handles|
    ensures LeasesNumbered(ReleaseFinished(c, h, succeeded)) && HandlesRefer(ReleaseFinished(c, h, succeeded))
  {
  }

  function Run(c: Client, steps: seq<Step>): (r: Client)
    requires Wellformed(c)
    ensures Wellformed(r)
    decreases |steps|
  {
    if steps == [] then c
    else
      var before := Run(c, steps[..|steps| - 1]);
      NextWellformed(before, steps[|steps| - 1]);
      Next(before, steps[|steps| - 1])
  }

  // ----- handles never come back -----

  /** Released, voided, or created in a generation that has passed. */
  predicate Dead(c: Client, h: nat)
    requires h < |c.handles| && c.handles[h].lease < |c.issued|
  {
    c.handles[h].cell.Done? || c.handles[h].cell.Void? || GenerationOf(c, c.handles[h].lease) != c.handles[h].generation
  }

  lemma NextKeepsDead(c: Client, step: Step, h: nat)
    requires Wellformed(c) && h < |c.handles| && Dead(c, h)
    ensures Wellformed(Next(c, step)) && h < |Next(c, step).handles| && Dead(Next(c, step), h)
  {
    NextWellformed(c, step);
    match step
    case Release(j, relinquish) => if j < |c.handles| { StartedKeepsDead(c, j, relinquish, h); }
    case Finish(j, succeeded) => if j < |c.handles| { FinishedKeepsDead(c, j, succeeded, h); }
    case _ =>
  }

  lemma StartedKeepsDead(c: Client, j: nat, relinquish: bool, h: nat)
    requires HandlesRefer(c) && h < |c.handles| && j < |c.handles| && Dead(c, h)
    ensures var c' := ReleaseStarted(c, j, relinquish);
            h < |c'.handles| && c'.handles[h].lease < |c'.issued| && Dead(c', h)
  {
  }

  lemma FinishedKeepsDead(c: Client, j: nat, succeeded: bool, h: nat)
    requires HandlesRefer(c) && h < |c.handles| && j < |c.handles| && Dead(c, h)
    ensures var c' := ReleaseFinished(c, j, succeeded);
            h < |c'.handles| && c'.handles[h].lease < |c'.issued| && Dead(c', h)
  {
  }

  /** A dead handle is never reported active again, whatever happens next; a release still in flight, failing
      or not, does not bring it back. */
  lemma {:induction false} DeadForever(c: Client, steps: seq<Step>, h: nat)
    requires Wellformed(c) && h < |c.handles| && Dead(c, h)
    ensures var after := Run(c, steps);
            h < |after.handles| && Dead(after, h) && !IsActive(after, after.handles[h])
    decreases |steps|
  {
    if steps != [] {
      var n := |steps| - 1;
      DeadForever(c, steps[..n], h);
      NextKeepsDead(Run(c, steps[..n]), steps[n], h);
    }
  }

  /** Invalidation kills every handle of its session; a disconnect kills exactly the handles of sessions that
      still have a count. */
  lemma InvalidationKills(c: Client, h: nat)
    requires Wellformed(c) && h < |c.handles|
    ensures var s := c.issued[c.handles[h].lease].session;
            && Wellformed(Next(c, Remove(s))) && Dead(Next(c, Remove(s)), h)
            && Wellformed(Next(c, Disconnect))
            && (Dead(Next(c, Disconnect), h) <==> Dead(c, h) || s in c.data.counts)
  {
    NextWellformed(c, Remove(c.issued[c.handles[h].lease].session));
    NextWellformed(c, Disconnect);
  }

  // ----- counts -----

  /** The tables say exactly what is held: the count, and the one exclusive lease if there is one. */
  ghost predicate Exact(c: Client) {
    forall s :: ExactFor(c, s)
  }

  ghost predicate ExactFor(c: Client, s: SessionId) {
    && Lookup(c.data.counts, s) == |Held(c, s)|
    && (s in c.data.counts <==> Held(c, s) != {})
    && (forall k | k in Held(c, s) && k < |c.issued| && c.issued[k].token.mode == Exclusive ::
          Held(c, s) == {k} && s in c.data.exclusive && c.data.exclusive[s] == k + 1)
    && (s in c.data.exclusive ==>
          exists k :: k in Held(c, s) && k < |c.issued| && c.issued[k].token.mode == Exclusive)
  }

  /** Giving back a lease that is still held, or one of a session holding none. */
  predicate Due(c: Client, lease: nat)
    requires lease < |c.issued|
  {
    var s := c.issued[lease].session;
    lease in Held(c, s) || Held(c, s) == {}
  }

  predicate Fenced(c: Client, step: Step)
    requires Wellformed(c)
  {
    match step
    case GiveUp(lease) => lease < |c.issued| ==> Due(c, lease)
    case Finish(h, succeeded) =>
      h < |c.handles| && GivesBack(c, c.handles[h], succeeded) ==> Due(c, c.handles[h].lease)
    case _ => true
  }

  lemma SameSession(c: Client, c': Client, s: SessionId)
    requires ExactFor(c, s)
    requires c.issued == c'.issued && Held(c', s) == Held(c, s)
    requires s in c'.data.counts <==> s in c.data.counts
    requires Lookup(c'.data.counts, s) == Lookup(c.data.counts, s)
    requires s in c'.data.exclusive <==> s in c.data.exclusive
    requires s in c.data.exclusive ==> c'.data.exclusive[s] == c.data.exclusive[s]
    ensures ExactFor(c', s)
  {
  }

  /** Giving a lease back keeps the tables exact exactly when it is due. */
  lemma GiveBackExactIff(c: Client, lease: nat)
    requires Wellformed(c) && Exact(c) && lease < |c.issued|
    ensures Exact(GivenBack(c, lease)) <==> Due(c, lease)
  {
    var s := c.issued[lease].session;
    var c' := GivenBack(c, lease);
    assert ExactFor(c, s);
    assert Held(c', s) == Held(c, s) - {lease};
    if Due(c, lease) {
      forall t
        ensures ExactFor(c', t)
      {
        assert ExactFor(c, t);
        if t == s {
          GiveBackDue(c, lease);
        } else {
          SameSession(c, c', t);
        }
      }
    } else {
      assert Held(c', s) == Held(c, s);
      assert !ExactFor(c', s);
    }
  }

  lemma GiveBackDue(c: Client, lease: nat)
    requires Wellformed(c) && lease < |c.issued| && ExactFor(c, c.issued[lease].session) && Due(c, lease)
    ensures ExactFor(GivenBack(c, lease), c.issued[lease].session)
  {
    var s := c.issued[lease].session;
    var before, after := Held(c, s), Held(GivenBack(c, lease), s);
    assert after == before - {lease};
    if lease in before {
      assert |after| == |before| - 1;
      if after == {} {
        assert before == {lease};
      }
    }
  }

  /** Steps that touch no lease table: those on handles and attachments, unless they give a lease back. */
  predicate Neutral(c: Client, step: Step)
    requires Wellformed(c)
  {
    match step
    case Finish(h, succeeded) => h < |c.handles| ==> !GivesBack(c, c.handles[h], succeeded)
    case Open(_) => true
    case Query(_) => true
    case Release(_, _) => true
    case Attach(_) => true
    case Detach(_) => true
    case Connect => true
    case _ => false
  }

  lemma NeutralKeepsTables(c: Client, step: Step)
    requires Wellformed(c) && Neutral(c, step)
    ensures var c' := Next(c, step);
            c'.data == c.data && c'.issued == c.issued && c'.back == c.back && c'.held == c.held
  {
  }

  lemma OtherSession(c: Client, step: Step, s: SessionId)
    requires Wellformed(c) && ExactFor(c, s)
    requires (step.Reserve? || step.Remove?) && step.s != s
    ensures ExactFor(Next(c, step), s)
  {
    if step.Reserve? {
      OtherReserved(c, step.s, step.mode, s);
    } else {
      SameSession(c, Next(c, step), s);
    }
  }

  lemma OtherReserved(c: Client, t: SessionId, mode: Mode, s: SessionId)
    requires Wellformed(c) && ExactFor(c, s) && t != s
    ensures ExactFor(Next(c, Reserve(t, mode)), s)
  {
    var c' := Next(c, Reserve(t, mode));
    assert Held(c', s) == Held(c, s);
    assert forall k | k in Held(c, s) :: c'.issued[k] == c.issued[k];
  }

  lemma ReserveKeepsExact(c: Client, s: SessionId, mode: Mode)
    requires Wellformed(c) && ExactFor(c, s)
    ensures ExactFor(Next(c, Reserve(s, mode)), s)
  {
    var c' := Next(c, Reserve(s, mode));
    if Reserved(c.data, s, mode).Ok? {
      var n := |c.issued|;
      assert n !in Held(c, s);
      assert Held(c', s) == Held(c, s) + {n};
      assert c'.issued[n] == Lease(s, Token(n + 1, mode), Lookup(c.data.generations, s));
      assert forall k | k in Held(c, s) :: c'.issued[k] == c.issued[k];
      if mode == Exclusive {
        assert Held(c, s) == {};
        assert n in Held(c', s);
      }
    }
  }

  lemma ClearingKeepsExact(c: Client, step: Step, s: SessionId)
    requires Wellformed(c) && ExactFor(c, s)
    requires step == Disconnect || step == Remove(s)
    ensures ExactFor(Next(c, step), s)
  {
  }

  lemma FencedKeepsExact(c: Client, step: Step, s: SessionId)
    requires Wellformed(c) && Exact(c) && Fenced(c, step)
    ensures ExactFor(Next(c, step), s)
  {
    assert ExactFor(c, s);
    if Neutral(c, step) {
      NeutralKeepsTables(c, step);
    } else {
      match step
      case Reserve(t, mode) => if t == s { ReserveKeepsExact(c, s, mode); } else { OtherSession(c, step, s); }
      case Remove(t) => if t == s { ClearingKeepsExact(c, step, s); } else { OtherSession(c, step, s); }
      case Disconnect => ClearingKeepsExact(c, step, s);
      case GiveUp(lease) =>
        if lease < |c.issued| {
          GiveBackExactIff(c, lease);
          assert ExactFor(GivenBack(c, lease), s);
        }
      case Finish(h, succeeded) =>
        GiveBackExactIff(c, c.handles[h].lease);
        assert ExactFor(GivenBack(c, c.handles[h].lease), s);
    }
  }

  /** From exact tables, a step leads to exact tables exactly when every lease it gives back is due. */
  lemma StepExactIff(c: Client, step: Step)
    requires Wellformed(c) && Exact(c)
    ensures Exact(Next(c, step)) <==> Fenced(c, step)
  {
    if Fenced(c, step) {
      forall s
        ensures ExactFor(Next(c, step), s)
      {
        FencedKeepsExact(c, step, s);
      }
    } else if step.GiveUp? {
      UnduePartsTables(c, Next(c, step), step.lease);
    } else {
      UnduePartsTables(c, Next(c, step), c.handles[step.h].lease);
    }
  }

  lemma UnduePartsTables(c: Client, c': Client, lease: nat)
    requires Wellformed(c) && Exact(c) && lease < |c.issued| && !Due(c, lease)
    requires var given := GivenBack(c, lease);
             c'.data == given.data && c'.issued == given.issued && c'.held == given.held
    ensures !Exact(c')
  {
    GiveBackExactIff(c, lease);
    var given := GivenBack(c, lease);
    var s :| !ExactFor(given, s);
    assert Held(c', s) == Held(given, s);
    assert !ExactFor(c', s);
  }

  predicate FencedRun(c: Client, steps: seq<Step>)
    requires Wellformed(c)
  {
    forall i | 0 <= i < |steps| :: Fenced(Run(c, steps[..i]), steps[i])
  }

  /** In every run giving back only leases that are due, the count of a session is the number of its
      outstanding leases, an exclusive lease is alone, and every lease issued has a number of its own. */
  lemma {:induction false} CountsAreExact(steps: seq<Step>)
    requires Wellformed(Start) && FencedRun(Start, steps)
    ensures Exact(Run(Start, steps))
    decreases |steps|
  {
    if steps != [] {
      var n := |steps| - 1;
      forall i | 0 <= i < n
        ensures Fenced(Run(Start, steps[..n][..i]), steps[..n][i])
      {
        assert steps[..n][..i] == steps[..i];
      }
      CountsAreExact(steps[..n]);
      StepExactIff(Run(Start, steps[..n]), steps[n]);
    }
  }

  /** Why the condition matters: giving back a stale lease of a session with one shared lease erases that
      lease's count, and an exclusive lease is then granted beside it. */
  lemma StaleGiveBackBreaksExclusion(c: Client, s: SessionId, stale: nat, k: nat)
    requires Wellformed(c) && ExactFor(c, s) && Held(c, s) == {k} && c.issued[k].token.mode == Shared
    requires stale < |c.issued| && c.issued[stale].session == s && stale != k
    ensures Wellformed(Next(c, GiveUp(stale)))
    ensures var c' := Next(Next(c, GiveUp(stale)), Reserve(s, Exclusive));
            var n := |c.issued|;
            Held(c', s) == {k, n} && n < |c'.issued| && c'.issued[n].token.mode == Exclusive
  {
    NextWellformed(c, GiveUp(stale));
    assert Lookup(c.data.counts, s) == 1;
    var c1 := Next(c, GiveUp(stale));
    assert s !in c1.data.counts && Held(c1, s) == {k};
  }

  /** The state that lemma starts from is reached by reserving, removing the session, and reserving again. */
  lemma StaleLeaseReachable(steps: seq<Step>, s: SessionId)
    requires steps == [Reserve(s, Shared), Remove(s), Reserve(s, Shared)]
    ensures Wellformed(Start)
    ensures var c := Run(Start, steps);
            Held(c, s) == {1} && |c.issued| == 2 && c.issued[0].session == s && c.issued[1].token.mode == Shared
  {
    ReservedAt(steps, 0, s);
    RemovedAt(steps, 1, s);
    ReservedAgain(steps, s);
    assert steps[..3] == steps;
  }

  lemma ReservedAgain(steps: seq<Step>, s: SessionId)
    requires Wellformed(Start) && |steps| >= 3 && steps[2] == Reserve(s, Shared)
    requires FirstLost(Run(Start, steps[..2]), s)
    ensures var c := Run(Start, steps[..3]);
            Held(c, s) == {1} && |c.issued| == 2 && c.issued[0].session == s && c.issued[1].token.mode == Shared
  {
    var after := StepTo(steps, 2);
  }

  lemma StepTo(steps: seq<Step>, i: nat) returns (after: Client)
    requires i < |steps|
    ensures Wellformed(Start)
    ensures after == Run(Start, steps[..i + 1]) == Next(Run(Start, steps[..i]), steps[i])
  {
    assert steps[..i + 1][..i] == steps[..i];
    after := Run(Start, steps[..i + 1]);
  }

  /** One session with one shared lease, reserved first of all. */
  predicate FirstLease(c: Client, s: SessionId) {
    && c.data == LeaseData(map[s := 1], map[], map[], 1) && c.issued == [Lease(s, Token(1, Shared), 0)]
    && c.back == {} && c.handles == []
  }

  /** The same after the session was removed. */
  predicate FirstLost(c: Client, s: SessionId) {
    && c.data == LeaseData(map[], map[], map[s := 1], 1) && c.issued == [Lease(s, Token(1, Shared), 0)]
    && c.back == {} && c.handles == [] && Held(c, s) == {}
  }

  lemma FirstReserved(c: Client, s: SessionId)
    requires Wellformed(c) && c.data == Start.data && c.issued == [] && c.back == {} && c.handles == []
    ensures FirstLease(Next(c, Reserve(s, Shared)), s)
  {
    var (data, token) := Reserved(c.data, s, Shared).value;
    assert data.counts == map[s := 1] && token == Token(1, Shared);
  }

  lemma LeaseRemoved(c: Client, s: SessionId)
    requires Wellformed(c) && FirstLease(c, s)
    ensures FirstLost(Next(c, Remove(s)), s)
  {
    var data := Invalidated(c.data, s);
    assert data.counts == map[] && data.exclusive == map[] && data.generations == map[s := 1];
  }

  lemma ReservedAt(steps: seq<Step>, i: nat, s: SessionId)
    requires Wellformed(Start) && i < |steps| && steps[i] == Reserve(s, Shared)
    requires var c := Run(Start, steps[..i]);
             c.data == Start.data && c.issued == [] && c.back == {} && c.handles == []
    ensures FirstLease(Run(Start, steps[..i + 1]), s)
  {
    FirstReserved(Run(Start, steps[..i]), s);
    var after := StepTo(steps, i);
  }

  lemma RemovedAt(steps: seq<Step>, i: nat, s: SessionId)
    requires Wellformed(Start) && i < |steps| && steps[i] == Remove(s) && FirstLease(Run(Start, steps[..i]), s)
    ensures FirstLost(Run(Start, steps[..i + 1]), s)
  {
    LeaseRemoved(Run(Start, steps[..i]), s);
    var after := StepTo(steps, i);
  }

  // ----- what a caller knows of its lease -----

  /** Not given back, and of the session's present generation. */
  predicate Outstanding(c: Client, lease: nat)
    requires lease < |c.issued|
  {
    lease !in c.back && c.issued[lease].generation == GenerationOf(c, lease)
  }

  predicate NoneOutstanding(c: Client, s: SessionId) {
    forall k | 0 <= k < |c.issued| && c.issued[k].session == s :: !Outstanding(c, k)
  }

  ghost predicate HeldIsOutstanding(c: Client) {
    && (forall k | k in c.back :: k < |c.issued|)
    && (forall k | 0 <= k < |c.issued| :: HeldIffOutstanding(c, k))
  }

  ghost predicate HeldIffOutstanding(c: Client, k: nat)
    requires k < |c.issued|
  {
    && c.issued[k].generation <= GenerationOf(c, k)
    && (k in Held(c, c.issued[k].session) <==> Outstanding(c, k))
  }

  lemma ReserveKeepsOutstanding(c: Client, s: SessionId, mode: Mode)
    requires Wellformed(c) && HeldIsOutstanding(c)
    ensures HeldIsOutstanding(Next(c, Reserve(s, mode)))
  {
    var c' := Next(c, Reserve(s, mode));
    forall k | 0 <= k < |c'.issued|
      ensures HeldIffOutstanding(c', k)
    {
      if k < |c.issued| {
        assert c'.issued[k] == c.issued[k] && HeldIffOutstanding(c, k);
      }
    }
  }

  lemma GivingBackKeepsOutstanding(c: Client, lease: nat)
    requires HeldIsOutstanding(c) && lease < |c.issued|
    ensures HeldIsOutstanding(GivenBack(c, lease))
  {
    var c' := GivenBack(c, lease);
    forall k | 0 <= k < |c'.issued|
      ensures HeldIffOutstanding(c', k)
    {
      assert HeldIffOutstanding(c, k);
    }
  }

  lemma ClearingKeepsOutstanding(c: Client, step: Step)
    requires Wellformed(c) && HeldIsOutstanding(c) && (step.Remove? || step.Disconnect?)
    ensures HeldIsOutstanding(Next(c, step))
  {
    var c' := Next(c, step);
    forall k | 0 <= k < |c'.issued|
      ensures HeldIffOutstanding(c', k)
    {
      assert HeldIffOutstanding(c, k);
    }
  }

  lemma NextKeepsOutstanding(c: Client, step: Step)
    requires Wellformed(c) && HeldIsOutstanding(c)
    ensures HeldIsOutstanding(Next(c, step))
  {
    if Neutral(c, step) {
      NeutralKeepsTables(c, step);
      assert forall k | 0 <= k < |c.issued| :: HeldIffOutstanding(c, k) == HeldIffOutstanding(Next(c, step), k);
    } else {
      match step
      case Reserve(s, mode) => ReserveKeepsOutstanding(c, s, mode);
      case GiveUp(lease) => if lease < |c.issued| { GivingBackKeepsOutstanding(c, lease); }
      case Finish(h, succeeded) => FinishingKeepsOutstanding(c, h, succeeded);
      case _ => ClearingKeepsOutstanding(c, step);
    }
  }

  lemma FinishingKeepsOutstanding(c: Client, h: nat, succeeded: bool)
    requires Wellformed(c) && HeldIsOutstanding(c)
    requires h < |c.handles| && GivesBack(c, c.handles[h], succeeded)
    ensures HeldIsOutstanding(ReleaseFinished(c, h, succeeded))
  {
    var lease := c.handles[h].lease;
    GivingBackKeepsOutstanding(c, lease);
    var given, c' := GivenBack(c, lease), ReleaseFinished(c, h, succeeded);
    assert c'.data == given.data && c'.issued == given.issued && c'.back == given.back && c'.held == given.held;
    assert forall k | 0 <= k < |given.issued| :: HeldIffOutstanding(given, k) == HeldIffOutstanding(c', k);
  }

  /** In every run a lease is held exactly when it is outstanding, so giving one back is due exactly when it
      is outstanding or its session has no outstanding lease at all. */
  lemma DueIff(steps: seq<Step>, lease: nat)
    requires Wellformed(Start) && lease < |Run(Start, steps).issued|
    ensures var c := Run(Start, steps);
            && HeldIsOutstanding(c)
            && (Due(c, lease) <==> Outstanding(c, lease) || NoneOutstanding(c, c.issued[lease].session))
  {
    RunKeepsOutstanding(steps);
    DueByOutstanding(Run(Start, steps), lease);
  }

  lemma DueByOutstanding(c: Client, lease: nat)
    requires HeldRefers(c) && HeldIsOutstanding(c) && lease < |c.issued|
    ensures Due(c, lease) <==> Outstanding(c, lease) || NoneOutstanding(c, c.issued[lease].session)
  {
    var s := c.issued[lease].session;
    assert HeldIffOutstanding(c, lease);
    if Held(c, s) != {} {
      var k :| k in Held(c, s);
      assert HeldIffOutstanding(c, k);
    } else {
      forall k | 0 <= k < |c.issued| && c.issued[k].session == s
        ensures !Outstanding(c, k)
      {
        assert HeldIffOutstanding(c, k);
      }
    }
  }

  lemma {:induction false} RunKeepsOutstanding(steps: seq<Step>)
    requires Wellformed(Start)
    ensures HeldIsOutstanding(Run(Start, steps))
    decreases |steps|
  {
    if steps != [] {
      var n := |steps| - 1;
      RunKeepsOutstanding(steps[..n]);
      NextKeepsOutstanding(Run(Start, steps[..n]), steps[n]);
    }
  }

  /** In every fenced run, an exclusive reservation is refused exactly when some lease of the session is
      outstanding, and a shared one exactly when an exclusive lease of it is. */
  lemma RefusedIff(steps: seq<Step>, s: SessionId, mode: Mode)
    requires Wellformed(Start) && FencedRun(Start, steps)
    ensures var c := Run(Start, steps);
            Reserved(c.data, s, mode).Err? <==>
            exists k :: 0 <= k < |c.issued| && c.issued[k].session == s && Outstanding(c, k)
                        && (mode == Exclusive || c.issued[k].token.mode == Exclusive)
  {
    var c := Run(Start, steps);
    CountsAreExact(steps);
    RunKeepsOutstanding(steps);
    assert ExactFor(c, s);
    if Reserved(c.data, s, mode).Err? {
      var k :| k in Held(c, s) && (mode == Exclusive || c.issued[k].token.mode == Exclusive);
      assert HeldIffOutstanding(c, k);
    } else {
      forall k | 0 <= k < |c.issued| && c.issued[k].session == s && Outstanding(c, k)
        ensures mode == Shared && c.issued[k].token.mode == Shared
      {
        assert HeldIffOutstanding(c, k);
      }
    }
  }

  /** Releasing what was just reserved restores the tables, up to the number used, exactly when an exclusive
      reservation did not displace an owner whose count was already gone. */
  lemma ReleaseUndoesReserve(d: LeaseData, s: SessionId, mode: Mode)
    requires CountsPositive(d) && Reserved(d, s, mode).Ok?
    ensures var (after, token) := Reserved(d, s, mode).value;
            Released(after, s, token) == d.(sequence := d.sequence + 1)
            <==> (mode == Exclusive ==> s !in d.exclusive)
  {
    var (after, token) := Reserved(d, s, mode).value;
    var undone := Released(after, s, token);
    assert undone.counts == d.counts;
    if mode == Exclusive {
      assert s !in undone.exclusive;
      if s !in d.exclusive {
        assert undone.exclusive == d.exclusive;
      }
    }
  }

  /** Releases in flight may complete in any order. */
  lemma ReleasesCommute(d: LeaseData, s: SessionId, a: Token, t: SessionId, b: Token)
    ensures Released(Released(d, s, a), t, b) == Released(Released(d, t, b), s, a)
  {
    var left, right := Released(Released(d, s, a), t, b), Released(Released(d, t, b), s, a);
    assert left.counts == right.counts;
    assert left.exclusive == right.exclusive;
  }

  /** A lease that is no longer outstanding never is again. */
  lemma {:induction false} LeaseNeverReturns(c: Client, steps: seq<Step>, lease: nat)
    requires Wellformed(c) && HeldIsOutstanding(c) && lease < |c.issued| && !Outstanding(c, lease)
    ensures var after := Run(c, steps);
            && HeldIsOutstanding(after)
            && lease < |after.issued| && after.issued[lease] == c.issued[lease] && !Outstanding(after, lease)
    decreases |steps|
  {
    if steps != [] {
      var n := |steps| - 1;
      LeaseNeverReturns(c, steps[..n], lease);
      var before := Run(c, steps[..n]);
      NextKeepsOutstanding(before, steps[n]);
      NextKeepsLost(before, steps[n], lease);
    }
  }

  lemma NextKeepsLost(c: Client, step: Step, lease: nat)
    requires Wellformed(c) && HeldIsOutstanding(c) && lease < |c.issued| && !Outstanding(c, lease)
    ensures var c' := Next(c, step);
            lease < |c'.issued| && c'.issued[lease] == c.issued[lease] && !Outstanding(c', lease)
  {
    assert HeldIffOutstanding(c, lease);
    if Neutral(c, step) {
      NeutralKeepsTables(c, step);
    }
  }

  /** Removing a session loses all its leases for good and leaves those of other sessions as they were;
      the session may then be leased in either mode, as its only lease. */
  lemma RemovalLosesLeases(c: Client, s: SessionId, later: seq<Step>, lease: nat, mode: Mode)
    requires Wellformed(c) && HeldIsOutstanding(c) && lease < |c.issued|
    ensures var gone := Next(c, Remove(s));
            && Wellformed(gone)
            && (if c.issued[lease].session == s then
                  lease < |Run(gone, later).issued| && !Outstanding(Run(gone, later), lease)
                else Outstanding(gone, lease) == Outstanding(c, lease))
            && Reserved(gone.data, s, mode).Ok?
            && Reserved(gone.data, s, mode).value.0.counts[s] == 1
  {
    var gone := Next(c, Remove(s));
    NextWellformed(c, Remove(s));
    NextKeepsOutstanding(c, Remove(s));
    assert HeldIffOutstanding(c, lease);
    if c.issued[lease].session == s {
      LeaseNeverReturns(gone, later, lease);
    }
  }

  // ----- which handles come back -----

  /** Dead, or releasing in a way that ends it however the release ends. */
  predicate Doomed(c: Client, h: nat)
    requires h < |c.handles| && c.handles[h].lease < |c.issued|
  {
    var flight := c.handles[h].flight;
    Dead(c, h) || (flight.Some? && (!flight.value.detaches || flight.value.relinquishes))
  }

  predicate ActiveAfter(c: Client, later: seq<Step>, h: nat)
    requires Wellformed(c)
  {
    var after := Run(c, later);
    h < |after.handles| && IsActive(after, after.handles[h])
  }

  ghost predicate NeverActive(c: Client, h: nat)
    requires Wellformed(c)
  {
    forall later: seq<Step> :: !ActiveAfter(c, later, h)
  }

  lemma NextKeepsDoomed(c: Client, step: Step, h: nat)
    requires Wellformed(c) && h < |c.handles| && Doomed(c, h)
    ensures Wellformed(Next(c, step)) && h < |Next(c, step).handles| && Doomed(Next(c, step), h)
  {
    NextWellformed(c, step);
    if Dead(c, h) {
      NextKeepsDead(c, step, h);
    } else {
      match step
      case Release(j, relinquish) => if j < |c.handles| { StartedKeepsDoomed(c, j, relinquish, h); }
      case Finish(j, succeeded) => if j < |c.handles| { FinishedKeepsDoomed(c, j, succeeded, h); }
      case _ =>
    }
  }

  lemma StartedKeepsDoomed(c: Client, j: nat, relinquish: bool, h: nat)
    requires HandlesRefer(c) && h < |c.handles| && j < |c.handles| && Doomed(c, h)
    ensures var c' := ReleaseStarted(c, j, relinquish);
            h < |c'.handles| && c'.handles[h].lease < |c'.issued| && Doomed(c', h)
  {
  }

  lemma FinishedKeepsDoomed(c: Client, j: nat, succeeded: bool, h: nat)
    requires HandlesRefer(c) && h < |c.handles| && j < |c.handles| && Doomed(c, h)
    ensures var c' := ReleaseFinished(c, j, succeeded);
            h < |c'.handles| && c'.handles[h].lease < |c'.issued| && Doomed(c', h)
  {
  }

  lemma {:induction false} DoomedForever(c: Client, later: seq<Step>, h: nat)
    requires Wellformed(c) && h < |c.handles| && Doomed(c, h)
    ensures var after := Run(c, later);
            h < |after.handles| && Doomed(after, h) && !ActiveAfter(c, later, h)
    decreases |later|
  {
    if later != [] {
      var n := |later| - 1;
      DoomedForever(c, later[..n], h);
      NextKeepsDoomed(Run(c, later[..n]), later[n], h);
    }
  }

  lemma RunOne(c: Client, step: Step)
    requires Wellformed(c)
    ensures Run(c, [step]) == Next(c, step)
  {
    assert [step][..0] == [];
  }

  lemma RunThen(c: Client, steps: seq<Step>, step: Step)
    requires Wellformed(c)
    ensures Run(c, steps + [step]) == Next(Run(c, steps), step)
  {
    assert (steps + [step])[..|steps|] == steps;
  }

  /** What brings back a handle that is not doomed: a failing end of its release, and an attachment. */
  lemma ComesBack(c: Client, h: nat) returns (later: seq<Step>)
    requires Wellformed(c) && h < |c.handles| && !Doomed(c, h)
    ensures ActiveAfter(c, later, h)
  {
    var s := c.issued[c.handles[h].lease].session;
    RunOne(c, Finish(h, false));
    RunThen(c, [Finish(h, false)], Attach(s));
    later := [Finish(h, false)] + [Attach(s)];
    assert FailedEndRevives(c, h) by {
      assert HandlesRefer(c);
    }
  }

  predicate FailedEndRevives(c: Client, h: nat)
    requires h < |c.handles| && c.handles[h].lease < |c.issued|
  {
    var ended := ReleaseFinished(c, h, false);
    && ended.data == c.data && ended.issued == c.issued
    && |ended.handles| == |c.handles| && ended.handles[h].cell.Active?
    && ended.handles[h].lease == c.handles[h].lease && ended.handles[h].generation == c.handles[h].generation
  }

  /** A handle is never active again, whatever happens, exactly when it is doomed. */
  lemma NeverActiveIff(c: Client, h: nat)
    requires Wellformed(c) && h < |c.handles|
    ensures NeverActive(c, h) <==> Doomed(c, h)
  {
    if Doomed(c, h) {
      forall later: seq<Step>
        ensures !ActiveAfter(c, later, h)
      {
        DoomedForever(c, later, h);
      }
    } else {
      var later := ComesBack(c, h);
      assert ActiveAfter(c, later, h);
    }
  }

  /** Losing the connection ends a handle for good exactly when it was doomed or its session had a count. */
  lemma DisconnectEndsHandleIff(c: Client, h: nat)
    requires Wellformed(c) && h < |c.handles|
    ensures Wellformed(Next(c, Disconnect))
    ensures NeverActive(Next(c, Disconnect), h)
            <==> Doomed(c, h) || c.issued[c.handles[h].lease].session in c.data.counts
  {
    InvalidationKills(c, h);
    NeverActiveIff(Next(c, Disconnect), h);
  }

  // ----- runs in which every acquire has one outcome -----

  predicate HasHandle(c: Client, lease: nat) {
    exists h | 0 <= h < |c.handles| :: c.handles[h].lease == lease
  }

  /** An acquire ends by opening one handle or by giving its lease up, never both. */
  predicate Proper(c: Client, step: Step)
    requires Wellformed(c)
  {
    match step
    case Open(lease) => !HasHandle(c, lease) && lease !in c.back
    case GiveUp(lease) => !HasHandle(c, lease) && lease !in c.back
    case _ => true
  }

  predicate ProperRun(c: Client, steps: seq<Step>)
    requires Wellformed(c)
  {
    forall i | 0 <= i < |steps| :: Proper(Run(c, steps[..i]), steps[i])
  }

  predicate LeasesApart(handles: seq<Handle>) {
    forall h, j | 0 <= h < j < |handles| :: handles[h].lease != handles[j].lease
  }

  /** No two handles share a lease, and only a released handle's lease has been given back. */
  predicate Owned(c: Client) {
    LeasesApart(c.handles) && forall h | 0 <= h < |c.handles| :: OwnLease(c, h)
  }

  predicate OwnLease(c: Client, h: nat)
    requires h < |c.handles|
  {
    c.handles[h].lease in c.back ==> c.handles[h].cell.Done?
  }

  predicate SameLeases(handles: seq<Handle>, after: seq<Handle>) {
    |handles| == |after| && forall h | 0 <= h < |handles| :: handles[h].lease == after[h].lease
  }

  lemma StartedKeepsOwned(c: Client, h: nat, relinquish: bool)
    requires Owned(c) && h < |c.handles| && c.handles[h].lease < |c.issued|
    ensures Owned(ReleaseStarted(c, h, relinquish))
  {
    var c' := ReleaseStarted(c, h, relinquish);
    assert SameLeases(c.handles, c'.handles);
    forall j | 0 <= j < |c'.handles|
      ensures OwnLease(c', j)
    {
      assert OwnLease(c, j);
    }
  }

  lemma FinishedKeepsOwned(c: Client, h: nat, succeeded: bool)
    requires Owned(c) && h < |c.handles| && c.handles[h].lease < |c.issued|
    requires c.handles[h].flight.Some? ==> !c.handles[h].cell.Done?
    ensures Owned(ReleaseFinished(c, h, succeeded))
  {
    var c' := ReleaseFinished(c, h, succeeded);
    assert SameLeases(c.handles, c'.handles);
    forall j | 0 <= j < |c'.handles|
      ensures OwnLease(c', j)
    {
      assert OwnLease(c, j);
    }
  }

  lemma NextKeepsOwned(c: Client, step: Step)
    requires Wellformed(c) && Owned(c) && Proper(c, step)
    ensures Owned(Next(c, step))
  {
    match step
    case Release(h, relinquish) => if h < |c.handles| { StartedKeepsOwned(c, h, relinquish); }
    case Finish(h, succeeded) => if h < |c.handles| { FinishedKeepsOwned(c, h, succeeded); }
    case _ =>
      var c' := Next(c, step);
      forall j | 0 <= j < |c'.handles|
        ensures OwnLease(c', j)
      {
        assert j < |c.handles| ==> OwnLease(c, j);
      }
  }

  lemma {:induction false} ProperRunsKeepOwned(steps: seq<Step>)
    requires Wellformed(Start) && ProperRun(Start, steps)
    ensures Owned(Run(Start, steps))
    decreases |steps|
  {
    if steps != [] {
      var n := |steps| - 1;
      forall i | 0 <= i < n
        ensures Proper(Run(Start, steps[..n][..i]), steps[..n][i])
      {
        assert steps[..n][..i] == steps[..i];
      }
      ProperRunsKeepOwned(steps[..n]);
      NextKeepsOwned(Run(Start, steps[..n]), steps[n]);
    }
  }

  /** Whatever was invalidated meanwhile, a handle that is still alive holds its lease exactly when it was
      opened in the generation its lease was reserved in. */
  lemma LiveHandleHeldIff(steps: seq<Step>, h: nat)
    requires Wellformed(Start) && ProperRun(Start, steps) && h < |Run(Start, steps).handles|
    requires !Dead(Run(Start, steps), h)
    ensures var c := Run(Start, steps);
            var handle := c.handles[h];
            handle.lease in Held(c, c.issued[handle.lease].session)
            <==> handle.generation == c.issued[handle.lease].generation
  {
    var c := Run(Start, steps);
    ProperRunsKeepOwned(steps);
    RunKeepsOutstanding(steps);
    assert OwnLease(c, h) && HeldIffOutstanding(c, c.handles[h].lease);
  }

  /** In every run that gives back only leases that are due, losing the connection ends a handle for good
      exactly when it was doomed or some lease of its session was outstanding, its own or another's; so it
      ends every handle opened in the generation its lease was reserved in. */
  lemma DisconnectEndsHandles(steps: seq<Step>, h: nat)
    requires Wellformed(Start) && ProperRun(Start, steps) && FencedRun(Start, steps)
    requires h < |Run(Start, steps).handles|
    ensures var c := Run(Start, steps);
            var handle := c.handles[h];
            && Wellformed(Next(c, Disconnect))
            && (NeverActive(Next(c, Disconnect), h) <==>
                  Doomed(c, h) || exists k :: 0 <= k < |c.issued| && Outstanding(c, k)
                                              && c.issued[k].session == c.issued[handle.lease].session)
            && (handle.generation == c.issued[handle.lease].generation ==> NeverActive(Next(c, Disconnect), h))
  {
    var c := Run(Start, steps);
    var s := c.issued[c.handles[h].lease].session;
    DisconnectEndsHandleIff(c, h);
    CountsAreExact(steps);
    RunKeepsOutstanding(steps);
    assert ExactFor(c, s);
    if s in c.data.counts {
      var k :| k in Held(c, s);
      assert HeldIffOutstanding(c, k);
    }
    forall k | 0 <= k < |c.issued| && Outstanding(c, k) && c.issued[k].session == s
      ensures s in c.data.counts
    {
      assert HeldIffOutstanding(c, k);
    }
    if !Dead(c, h) {
      LiveHandleHeldIff(steps, h);
    }
  }

  /** A handle opened on a lease that was invalidated while its attach was in flight survives a disconnect:
      it is active again once the session is attached anew. */
  lemma SurvivesDisconnect(steps: seq<Step>, s: SessionId)
    requires steps == [Connect, Reserve(s, Shared), Remove(s), Open(0), Attach(s), Disconnect, Connect, Attach(s)]
    ensures Wellformed(Start)
    ensures ProperRun(Start, steps) && FencedRun(Start, steps) && ActiveAfter(Start, steps, 0)
  {
    StaleOpened(steps, s);
    StaleReturns(steps, s);
    assert steps[..8] == steps;
    forall i | 0 <= i < |steps|
      ensures Proper(Run(Start, steps[..i]), steps[i]) && Fenced(Run(Start, steps[..i]), steps[i])
    {
      assert !steps[i].GiveUp? && !steps[i].Finish?;
      assert steps[i].Open? ==> i == 3;
    }
  }

  /** No count, one generation passed, and one handle of that generation on a lease of the one before. */
  predicate StaleHandle(c: Client, s: SessionId) {
    && c.data == LeaseData(map[], map[], map[s := 1], 1)
    && c.issued == [Lease(s, Token(1, Shared), 0)] && c.handles == [Handle(0, 1, Active, None)]
  }

  lemma StaleOpened(steps: seq<Step>, s: SessionId)
    requires |steps| >= 4
    requires steps[0] == Connect && steps[1] == Reserve(s, Shared) && steps[2] == Remove(s) && steps[3] == Open(0)
    ensures Wellformed(Start)
    ensures StaleHandle(Run(Start, steps[..4]), s) && Proper(Run(Start, steps[..3]), steps[3])
  {
    var c1 := StepTo(steps, 0);
    ReservedAt(steps, 1, s);
    RemovedAt(steps, 2, s);
    OpenedAt(steps, 3, s);
  }

  lemma OpenedAt(steps: seq<Step>, i: nat, s: SessionId)
    requires Wellformed(Start) && i < |steps| && steps[i] == Open(0) && FirstLost(Run(Start, steps[..i]), s)
    ensures StaleHandle(Run(Start, steps[..i + 1]), s) && Proper(Run(Start, steps[..i]), steps[i])
  {
    var after := StepTo(steps, i);
  }

  lemma StaleKept(c: Client, step: Step, s: SessionId)
    requires Wellformed(c) && StaleHandle(c, s) && (step.Attach? || step.Disconnect? || step.Connect?)
    ensures StaleHandle(Next(c, step), s) && (step == Attach(s) ==> s in Next(c, step).attached)
  {
    if step.Disconnect? {
      assert AllInvalidated(c.data).generations == c.data.generations;
    }
  }

  lemma StaleKeptAt(steps: seq<Step>, i: nat, s: SessionId)
    requires Wellformed(Start) && i < |steps| && (steps[i].Attach? || steps[i].Disconnect? || steps[i].Connect?)
    requires StaleHandle(Run(Start, steps[..i]), s)
    ensures StaleHandle(Run(Start, steps[..i + 1]), s)
    ensures steps[i] == Attach(s) ==> s in Run(Start, steps[..i + 1]).attached
  {
    StaleKept(Run(Start, steps[..i]), steps[i], s);
    var after := StepTo(steps, i);
  }

  lemma StaleReturns(steps: seq<Step>, s: SessionId)
    requires |steps| == 8 && Wellformed(Start)
    requires steps[4] == Attach(s) && steps[5] == Disconnect && steps[6] == Connect && steps[7] == Attach(s)
    requires StaleHandle(Run(Start, steps[..4]), s)
    ensures ActiveAfter(Start, steps[..8], 0)
  {
    StaleKeptAt(steps, 4, s);
    StaleKeptAt(steps, 5, s);
    StaleKeptAt(steps, 6, s);
    StaleKeptAt(steps, 7, s);
  }
}
