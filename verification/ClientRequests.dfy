/**
 Request/response correlation in the client: a table of pending requests keyed by a sequence-numbered id,
 and resolvers that settle a promise once.
 */
module ClientRequests {
  import opened Results

  datatype CommandName = List | Create | Attach | Detach | Prompt | Steer | Abort | SetModel | SetThinking

  datatype Command = Command(name: CommandName, body: string)

  datatype CommandResult = CommandResult(command: CommandName, body: string)

  datatype Error = Disposed | NotConnected | ProtocolValidation | Server(message: string) | Closed(reason: string)

  datatype Settlement = Open | Resolved(result: CommandResult) | Rejected(error: Error)

  // ----- request ids -----

  datatype RequestId = RequestId(text: string)

  function Digits(n: nat): (s: string)
    ensures s != []
    decreases n
  {
    var digit := [('0' as int + n % 10) as char];
    if n < 10 then digit else Digits(n / 10) + digit
  }

  /** The id of the request with sequence number `k + 1`. */
  function IdOf(k: nat): RequestId {
    RequestId("request-" + Digits(k + 1))
  }

  lemma {:induction false} DigitsInjective(m: nat, n: nat)
    requires Digits(m) == Digits(n)
    ensures m == n
    decreases m
  {
    var a, b := Digits(m), Digits(n);
    assert a[|a| - 1] == ('0' as int + m % 10) as char && b[|b| - 1] == ('0' as int + n % 10) as char;
    assert m % 10 == n % 10;
    if m >= 10 && n >= 10 {
      assert a[..|a| - 1] == Digits(m / 10) && b[..|b| - 1] == Digits(n / 10);
      DigitsInjective(m / 10, n / 10);
    }
  }

  /** Sequence numbers are never reused, so ids never clash. */
  lemma IdsUnique(m: nat, n: nat)
    ensures IdOf(m) == IdOf(n) <==> m == n
  {
    if IdOf(m) == IdOf(n) {
      var prefix := "request-";
      assert (prefix + Digits(m + 1))[|prefix|..] == Digits(m + 1);
      assert (prefix + Digits(n + 1))[|prefix|..] == Digits(n + 1);
      DigitsInjective(m + 1, n + 1);
    }
  }

  // ----- the table -----

  datatype ConnectionState = Disconnected | Connecting | Connected

  /** What an answer makes of the request it names. */
  function Outcome(expected: CommandName, answer: Result<CommandResult, string>): Settlement {
    match answer
    case Err(message) => Rejected(Server(message))
    case Ok(result) => if result.command == expected then Resolved(result) else Rejected(ProtocolValidation)
  }

  datatype PendingRequest = PendingRequest(command: Command, promise: nat)

  /** A successful response, by the request id it names. */
  datatype Heard = Heard(id: RequestId, result: CommandResult)

  /** Ids in the table carry earlier sequence numbers, so the next id is new. */
  lemma FreshId(pending: map<RequestId, PendingRequest>, next: nat)
    requires forall id | id in pending :: pending[id].promise < next && id == IdOf(pending[id].promise)
    ensures IdOf(next) !in pending
    ensures forall k | 0 <= k < next :: IdOf(k) != IdOf(next)
  {
    forall k | 0 <= k < next
      ensures IdOf(k) != IdOf(next)
    {
      IdsUnique(k, next);
    }
  }

  /** What settling one promise does to the promises: it takes effect once. */
  function Settled(promises: seq<Settlement>, k: nat, outcome: Settlement): (after: seq<Settlement>)
    requires k < |promises| && !outcome.Open?
    ensures |after| == |promises|
    ensures after[k] == if promises[k].Open? then outcome else promises[k]
    ensures forall j | 0 <= j < |promises| && j != k :: after[j] == promises[j]
  {
    if promises[k].Open? then promises[k := outcome] else promises
  }

  /** However often a promise is settled, the first settlement is the one that stays. */
  lemma {:induction false} FirstSettlementStays(promises: seq<Settlement>, k: nat, outcomes: seq<Settlement>)
    requires k < |promises| && promises[k].Open? && outcomes != []
    requires forall i | 0 <= i < |outcomes| :: !outcomes[i].Open?
    ensures SettledBy(promises, k, outcomes) == promises[k := outcomes[0]]
    decreases |outcomes|
  {
    var n := |outcomes| - 1;
    if n > 0 {
      FirstSettlementStays(promises, k, outcomes[..n]);
      assert outcomes[..n][0] == outcomes[0];
    } else {
      assert SettledBy(promises, k, outcomes[..n]) == promises;
    }
  }

  function SettledBy(promises: seq<Settlement>, k: nat, outcomes: seq<Settlement>): (after: seq<Settlement>)
    requires k < |promises| && forall i | 0 <= i < |outcomes| :: !outcomes[i].Open?
    ensures |after| == |promises|
    decreases |outcomes|
  {
    if outcomes == [] then promises
    else Settled(SettledBy(promises, k, outcomes[..|outcomes| - 1]), k, outcomes[|outcomes| - 1])
  }

  /** The request table of a client whose listeners may call back into it at every notification, up to an arbitrary
      `depth` of nesting. */
  class RequestTable {
    var connection: ConnectionState
    var disposed: bool
    var requestSequence: nat
    var pending: map<RequestId, PendingRequest>
    /** The promise of the request with sequence number `k + 1`. */
    var promises: seq<Settlement>
    ghost var commands: seq<Command>
    /** Promises taken from the table by a response that is still being applied. */
    ghost var answering: set<nat>
    /** All successful responses received. */
    ghost var heard: set<Heard>

    /** Every open promise is in the table under its own id, or is being answered; and a resolved one holds a result
        that a response naming its id brought for its command. */
    ghost predicate Table()
      reads this
    {
      && requestSequence == |promises| == |commands|
      && (forall k | k in answering :: k < |promises|)
      && Entered(pending, commands, answering)
      && OpenEntered(pending, promises, answering)
      && ResolvedAsHeard(promises, commands, heard)
    }

    static predicate OpenEntered(pending: map<RequestId, PendingRequest>, promises: seq<Settlement>, answering: set<nat>) {
      forall k | 0 <= k < |promises| && promises[k].Open? && k !in answering ::
        IdOf(k) in pending && pending[IdOf(k)].promise == k
    }

    static ghost predicate ResolvedAsHeard(promises: seq<Settlement>, commands: seq<Command>, heard: set<Heard>)
      requires |promises| == |commands|
    {
      forall k | 0 <= k < |promises| && promises[k].Resolved? ::
        Heard(IdOf(k), promises[k].result) in heard && promises[k].result.command == commands[k].name
    }

    static predicate Entered(pending: map<RequestId, PendingRequest>, commands: seq<Command>, answering: set<nat>) {
      forall id | id in pending ::
        && pending[id].promise < |commands| && pending[id].promise !in answering
        && id == IdOf(pending[id].promise)
        && pending[id].command == commands[pending[id].promise]
    }

    /** Besides, while not connected only promises being answered are open; and a disposed client is not connected. */
    ghost predicate Valid()
      reads this
    {
      && Table()
      && (connection != Connected ==> OpenOnlyInAnswer())
      && (disposed ==> connection == Disconnected)
    }

    ghost predicate OpenOnlyInAnswer()
      reads this
    {
      forall k | 0 <= k < |promises| && promises[k].Open? :: k in answering
    }

    ghost predicate AllSettled()
      reads this
    {
      forall k | 0 <= k < |promises| :: !promises[k].Open?
    }

    /** No answer to an open request is in progress. */
    ghost predicate NoneInAnswer()
      requires forall k | k in answering :: k < |promises|
      reads this
    {
      forall k | k in answering :: !promises[k].Open?
    }

    /** What every call keeps, however nested: promises are only added, a settled one stays as it was settled, and one
        that is being answered is left to its answer. */
    twostate predicate Kept()
      reads this
    {
      && |old(promises)| <= |promises| && old(commands) <= commands
      && (forall k | 0 <= k < |old(promises)| && (!old(promises)[k].Open? || k in old(answering)) ::
            promises[k] == old(promises)[k])
      && answering == old(answering) && old(heard) <= heard && (old(disposed) ==> disposed)
    }

    /** Every request that was open and is not being answered has been rejected with the error. */
    twostate predicate Cleared(error: Error)
      reads this
    {
      && |old(promises)| <= |promises|
      && forall k | 0 <= k < |old(promises)| && old(promises)[k].Open? && k !in old(answering) ::
           promises[k] == Rejected(error)
    }

    /** Every request issued before the call is settled. */
    twostate predicate EarlierSettled()
      requires |old(promises)| <= |promises|
      reads this
    {
      forall k | 0 <= k < |old(promises)| :: !promises[k].Open?
    }

    constructor ()
      ensures Valid() && connection == Disconnected && !disposed && promises == [] && answering == {}
    {
      connection, disposed, requestSequence, pending, promises := Disconnected, false, 0, map[], [];
      commands, answering, heard := [], {}, {};
    }

    // ----- callbacks -----

    /** An arbitrary listener: any number of calls into the client, and of responses arriving meanwhile. */
    method Listener(depth: nat)
      requires Valid()
      modifies this
      ensures Valid() && Kept()
      ensures depth == 0 ==> unchanged(this)
      decreases depth, 0
    {
      var calls: nat :| calls >= 0;
      while calls > 0 && depth > 0
        invariant Valid() && Kept()
        invariant depth == 0 ==> unchanged(this)
        decreases calls
      {
        calls := calls - 1;
        label before:
        Call(depth - 1);
        assert Kept@before();
      }
    }

    /** Any one call. */
    method Call(depth: nat)
      requires Valid()
      modifies this
      ensures Valid() && Kept()
      decreases depth, 5
    {
      if * {
        var command: Command, encodes: bool, sends: bool := *, *, *;
        var _ := Request(command, encodes, sends);
      } else if * {
        var id: RequestId, answer: Result<CommandResult, string> := *, *;
        OnResponse(id, answer, depth);
      } else if * {
        Connect(depth);
      } else if * {
        Handshake(depth);
      } else if * {
        var error: Error := *;
        Fail(error, depth);
      } else {
        Dispose(depth);
      }
    }

    // ----- requests -----

    method Settle(promise: nat, outcome: Settlement)
      requires promise < |promises| && !outcome.Open?
      modifies this`promises
      ensures promises == Settled(old(promises), promise, outcome)
    {
      if promises[promise].Open? {
        promises := promises[promise := outcome];
      }
    }

    /** Issues a request under a fresh id, or reports why none was issued. `encodes` and `sends` say whether the
        frame can be built and handed to the transport. */
    method Request(command: Command, encodes: bool, sends: bool) returns (r: Result<nat, Error>)
      requires Valid()
      modifies this
      ensures Valid() && Kept()
      ensures connection == old(connection) && disposed == old(disposed)
      ensures r.Ok? <==> !old(disposed) && old(connection) == Connected
      ensures r.Err? ==> promises == old(promises) && pending == old(pending)
                         && r.error == (if disposed then Disposed else NotConnected)
      ensures r.Ok? ==> r.value == |old(promises)| && IdOf(r.value) !in old(pending)
      ensures r.Ok? ==>
                promises == old(promises) + [Fate(encodes, sends)]
      ensures r.Ok? ==>
                pending == if encodes then old(pending)[IdOf(r.value) := PendingRequest(command, r.value)]
                           else old(pending)
    {
      if disposed {
        return Err(Disposed);
      }
      if connection != Connected {
        return Err(NotConnected);
      }
      var promise := Issue(command, encodes, sends);
      r := Ok(promise);
    }

    /** What became of a request that was entered: unless it could be built and sent, it is settled at once. */
    static function Fate(encodes: bool, sends: bool): Settlement {
      if !encodes then Rejected(ProtocolValidation) else if !sends then Rejected(NotConnected) else Open
    }

    method Issue(command: Command, encodes: bool, sends: bool) returns (promise: nat)
      requires Valid() && !disposed && connection == Connected
      modifies this`promises, this`requestSequence, this`commands, this`pending, this`answering
      ensures Table() && promise == |old(promises)| && IdOf(promise) !in old(pending)
      ensures promises == old(promises) + [Fate(encodes, sends)] && commands == old(commands) + [command]
      ensures pending == if encodes then old(pending)[IdOf(promise) := PendingRequest(command, promise)]
                         else old(pending)
      ensures answering == old(answering)
    {
      promise := Register(command);
      if !encodes {
        Withdraw(promise, ProtocolValidation);
        Restored(old(pending), IdOf(promise), PendingRequest(command, promise));
      } else if !sends {
        RejectInTable(promise, NotConnected);
      }
    }

    static lemma Restored(pending: map<RequestId, PendingRequest>, id: RequestId, request: PendingRequest)
      requires id !in pending
      ensures pending[id := request] - {id} == pending
    {
    }

    /** Takes a request from the table and rejects it. */
    method Withdraw(promise: nat, error: Error)
      requires Table() && IdOf(promise) in pending && pending[IdOf(promise)].promise == promise
      modifies this`pending, this`promises, this`answering
      ensures Table() && promises == Settled(old(promises), promise, Rejected(error))
      ensures pending == old(pending) - {IdOf(promise)} && answering == old(answering)
    {
      var request := BeginAnswer(IdOf(promise));
      FinishAnswer(request, Rejected(error));
    }

    /** Settles a promise whose request stays in the table. */
    method RejectInTable(promise: nat, error: Error)
      requires Table() && promise < |promises| && promise !in answering
      modifies this`promises
      ensures Table() && promises == Settled(old(promises), promise, Rejected(error))
    {
      Settle(promise, Rejected(error));
    }

    /** Enters an open request under the next id. */
    method Register(command: Command) returns (promise: nat)
      requires Table() && !disposed && connection == Connected
      modifies this`promises, this`requestSequence, this`commands, this`pending
      ensures Table() && promise == |old(promises)| && IdOf(promise) !in old(pending)
      ensures promises == old(promises) + [Open] && commands == old(commands) + [command]
      ensures pending == old(pending)[IdOf(promise) := PendingRequest(command, promise)]
      ensures forall id | id in old(pending) :: old(pending)[id].promise < promise
    {
      promise := |promises|;
      FreshId(pending, promise);
      EnteredOn(pending, commands, answering, command);
      OpenOn(pending, promises, answering, command);
      promises, commands := promises + [Open], commands + [command];
      requestSequence := requestSequence + 1;
      pending := pending[IdOf(promise) := PendingRequest(command, promise)];
    }

    static lemma EnteredOn(pending: map<RequestId, PendingRequest>, commands: seq<Command>, answering: set<nat>,
                           command: Command)
      requires Entered(pending, commands, answering) && |commands| !in answering
      ensures Entered(pending[IdOf(|commands|) := PendingRequest(command, |commands|)], commands + [command], answering)
    {
    }

    static lemma OpenOn(pending: map<RequestId, PendingRequest>, promises: seq<Settlement>, answering: set<nat>,
                        command: Command)
      requires OpenEntered(pending, promises, answering) && IdOf(|promises|) !in pending
      ensures OpenEntered(pending[IdOf(|promises|) := PendingRequest(command, |promises|)], promises + [Open], answering)
    {
    }

    method TakePendingRequest(id: RequestId) returns (r: Option<PendingRequest>)
      modifies this`pending
      ensures r == if id in old(pending) then Some(old(pending)[id]) else None
      ensures pending == old(pending) - {id}
    {
      if id in pending {
        r := Some(pending[id]);
        pending := pending - {id};
      } else {
        r := None;
        assert pending - {id} == pending;
      }
    }

    /** Rejects every request still in the table. */
    method RejectPendingRequests(error: Error)
      requires Table()
      modifies this`pending, this`promises
      ensures Table() && Kept() && Cleared(error) && OpenOnlyInAnswer() && pending == map[]
      ensures |promises| == |old(promises)|
    {
      var requests := pending;
      pending := map[];
      RejectAll(requests, error);
    }

    /** Every open promise not being answered is that of some request in the list. */
    ghost predicate Covered(requests: map<RequestId, PendingRequest>)
      reads this
    {
      && (forall id | id in requests :: requests[id].promise < |promises| && requests[id].promise !in answering)
      && (forall k | 0 <= k < |promises| && promises[k].Open? && k !in answering ::
            exists id :: id in requests && requests[id].promise == k)
    }

    method RejectAll(drained: map<RequestId, PendingRequest>, error: Error)
      requires Covered(drained)
      modifies this`promises
      ensures Kept() && OpenOnlyInAnswer() && |promises| == |old(promises)|
      ensures forall k | 0 <= k < |promises| :: promises[k] == old(promises)[k] || promises[k] == Rejected(error)
    {
      var requests := drained;
      while requests != map[]
        invariant Covered(requests) && |promises| == |old(promises)|
        invariant forall k | 0 <= k < |promises| && (!old(promises)[k].Open? || k in answering) ::
                    promises[k] == old(promises)[k]
        invariant forall k | 0 <= k < |promises| :: promises[k] == old(promises)[k] || promises[k] == Rejected(error)
        decreases |requests|
      {
        var id :| id in requests;
        var request := requests[id];
        ghost var before := requests;
        requests := requests - {id};
        Settle(request.promise, Rejected(error));
        forall k | 0 <= k < |promises| && promises[k].Open? && k !in answering
          ensures exists other :: other in requests && requests[other].promise == k
        {
          var other :| other in before && before[other].promise == k;
          assert other in requests;
        }
      }
    }

    // ----- responses -----

    /** Takes the request a response names from the table; its answer is in progress until it is settled. */
    method BeginAnswer(id: RequestId) returns (request: PendingRequest)
      requires Table() && id in pending
      modifies this`pending, this`answering
      ensures Table() && request == old(pending)[id] && pending == old(pending) - {id}
      ensures request.promise !in old(answering) && answering == old(answering) + {request.promise}
    {
      var taken := TakePendingRequest(id);
      request := taken.value;
      answering := answering + {request.promise};
      OthersStay(id);
    }

    /** Taking one entry leaves every other open request in the table. */
    twostate lemma OthersStay(id: RequestId)
      requires old(Table()) && id in old(pending) && pending == old(pending) - {id}
      ensures forall k | 0 <= k < |old(promises)| && old(promises)[k].Open? && k !in old(answering)
                         && k != old(pending)[id].promise ::
                IdOf(k) in pending && pending[IdOf(k)].promise == k
    {
      var p := old(pending)[id].promise;
      forall k | 0 <= k < |old(promises)| && old(promises)[k].Open? && k !in old(answering) && k != p
        ensures IdOf(k) in pending && pending[IdOf(k)].promise == k
      {
        IdsUnique(k, p);
      }
    }

    /** Settles the request whose answer is in progress. */
    method FinishAnswer(request: PendingRequest, outcome: Settlement)
      requires Table() && request.promise in answering && !outcome.Open?
      requires outcome.Resolved? ==>
                 && Heard(IdOf(request.promise), outcome.result) in heard
                 && outcome.result.command == commands[request.promise].name
      modifies this`promises, this`answering
      ensures Table() && promises == Settled(old(promises), request.promise, outcome)
      ensures answering == old(answering) - {request.promise}
    {
      Settle(request.promise, outcome);
      answering := answering - {request.promise};
    }

    /** The result of another command. */
    static predicate Mismatched(command: Command, answer: Result<CommandResult, string>) {
      answer.Ok? && answer.value.command != command.name
    }

    /** A response settles the request it names, successfully only if it answers the same command; listeners hear of a
        result before its request is settled. An unknown id, or another command, tears the connection down. */
    method OnResponse(id: RequestId, answer: Result<CommandResult, string>, depth: nat)
      requires Valid()
      modifies this
      ensures Valid() && Kept()
      ensures id !in old(pending) && old(connection) != Disconnected ==> Cleared(ProtocolValidation)
      ensures id in old(pending) ==>
                var k := old(pending)[id].promise;
                && !promises[k].Open?
                && (old(promises)[k].Open? ==> promises[k] == Outcome(old(commands)[k].name, answer))
      ensures id in old(pending) && answer.Err? ==>
                && connection == old(connection) && pending == old(pending) - {id}
                && |promises| == |old(promises)|
                && forall j | 0 <= j < |promises| && j != old(pending)[id].promise :: promises[j] == old(promises)[j]
      ensures id in old(pending) && Mismatched(old(pending)[id].command, answer) && old(connection) != Disconnected ==>
                Cleared(ProtocolValidation)
      ensures old(answering) == {} && connection != Connected ==> AllSettled()
      decreases depth, 4
    {
      if id !in pending {
        Fail(ProtocolValidation, depth);
        return;
      }
      var request := BeginAnswer(id);
      label begun:
      ApplyAnswer(request, id, answer, depth);
      assert AnsweredBy@begun(request.promise, Outcome(request.command.name, answer));
    }

    /** What finishing the answer to request `k` leaves: that request is settled by the outcome, no other promise being
        answered is touched, and nothing settled changes. */
    twostate predicate AnsweredBy(k: nat, outcome: Settlement)
      reads this
    {
      && k < |old(promises)| <= |promises| && old(commands) <= commands
      && promises[k] == (if old(promises)[k].Open? then outcome else old(promises)[k])
      && (forall j | 0 <= j < |old(promises)| && (!old(promises)[j].Open? || j in old(answering)) && j != k ::
            promises[j] == old(promises)[j])
      && answering == old(answering) - {k} && old(heard) <= heard && (old(disposed) ==> disposed)
    }

    /** Applies the answer to a request taken from the table. */
    method ApplyAnswer(request: PendingRequest, id: RequestId, answer: Result<CommandResult, string>, depth: nat)
      requires Valid() && request.promise in answering && id == IdOf(request.promise)
      requires request.command == commands[request.promise]
      modifies this
      ensures Valid() && AnsweredBy(request.promise, Outcome(request.command.name, answer))
      ensures answer.Err? ==>
                && connection == old(connection) && pending == old(pending) && |promises| == |old(promises)|
                && forall j | 0 <= j < |promises| && j != request.promise :: promises[j] == old(promises)[j]
      ensures Mismatched(request.command, answer) && old(connection) != Disconnected ==> Cleared(ProtocolValidation)
      decreases depth, 3
    {
      if answer.Err? {
        FinishAnswer(request, Rejected(Server(answer.error)));
      } else if answer.value.command != request.command.name {
        RefuseResult(request, depth);
      } else {
        DeliverResult(request, answer.value, depth);
      }
    }

    method RefuseResult(request: PendingRequest, depth: nat)
      requires Valid() && request.promise in answering
      modifies this
      ensures Valid() && AnsweredBy(request.promise, Rejected(ProtocolValidation))
      ensures old(connection) != Disconnected ==> Cleared(ProtocolValidation)
      decreases depth, 2, 1
    {
      FinishAnswer(request, Rejected(ProtocolValidation));
      Fail(ProtocolValidation, depth);
    }

    /** Listeners hear of the result, and may do anything, before its request succeeds. */
    method DeliverResult(request: PendingRequest, result: CommandResult, depth: nat)
      requires Valid() && request.promise in answering && result.command == commands[request.promise].name
      modifies this
      ensures Valid() && AnsweredBy(request.promise, Resolved(result))
      decreases depth, 2, 1
    {
      heard := heard + {Heard(IdOf(request.promise), result)};
      Listener(depth);
      FinishAnswer(request, Resolved(result));
    }

    // ----- the connection -----

    /** Tears the connection down, as the connection's own failure path does. */
    method Fail(error: Error, depth: nat)
      requires Valid()
      modifies this
      ensures Valid() && Kept()
      ensures old(connection) != Disconnected ==> Cleared(error) && (EarlierSettled() <==> old(NoneInAnswer()))
      ensures old(connection) == Disconnected ==> unchanged(this)
      decreases depth, 2, 0
    {
      if connection != Disconnected {
        connection := Disconnected;
        OnStateChange(Disconnected, error, depth);
      }
    }

    method Connect(depth: nat)
      requires Valid()
      modifies this
      ensures Valid() && Kept()
      ensures depth == 0 ==>
                && connection == (if !old(disposed) && old(connection) == Disconnected then Connecting
                                  else old(connection))
                && promises == old(promises) && disposed == old(disposed) && pending == old(pending)
      decreases depth, 2
    {
      if !disposed && connection == Disconnected {
        connection := Connecting;
        OnStateChange(Connecting, NotConnected, depth);
      }
    }

    method Handshake(depth: nat)
      requires Valid()
      modifies this
      ensures Valid() && Kept()
      ensures depth == 0 ==>
                && connection == (if old(connection) == Connecting then Connected else old(connection))
                && promises == old(promises) && disposed == old(disposed) && pending == old(pending)
      decreases depth, 2
    {
      if connection == Connecting {
        connection := Connected;
        OnStateChange(Connected, NotConnected, depth);
      }
    }

    /** The callback of a state change: going down rejects what is pending, and then listeners hear of it. */
    method OnStateChange(state: ConnectionState, error: Error, depth: nat)
      requires Table() && connection == state && (disposed ==> connection == Disconnected)
      requires state == Connecting ==> OpenOnlyInAnswer()
      modifies this
      ensures Valid() && Kept()
      ensures state == Disconnected ==> Cleared(error)
      ensures depth == 0 && state != Disconnected ==> unchanged(this)
      decreases depth, 1
    {
      if state == Disconnected {
        RejectPendingRequests(error);
      }
      label settled:
      Listener(depth);
      assert Kept@settled();
    }

    method Dispose(depth: nat)
      requires Valid()
      modifies this
      ensures Valid() && Kept() && disposed && connection == Disconnected
      ensures !old(disposed) ==> Cleared(Disposed)
      ensures AllSettled() <==> old(NoneInAnswer())
      decreases depth, 3
    {
      if disposed {
        return;
      }
      disposed := true;
      RejectPendingRequests(Disposed);
      if connection != Disconnected {
        connection := Disconnected;
        label rejected:
        OnStateChange(Disconnected, Disposed, depth);
        assert Kept@rejected();
      }
    }
  }

  /** Why nothing more can be said while an answer is in progress: a listener that disposes of the client from inside
      the notification of a result returns with that request still open, and it succeeds afterwards. */
  method DisposeFromListener(command: Command, result: CommandResult)
    returns (t: RequestTable, openAfterDispose: bool)
    requires result.command == command.name
    ensures openAfterDispose && t.disposed && t.promises != [] && t.promises[0] == Resolved(result)
  {
    t := ConnectedClient();
    var issued := t.Request(command, true, true);
    var request := t.BeginAnswer(IdOf(0));
    t.heard := t.heard + {Heard(IdOf(0), result)};
    t.Dispose(0);
    openAfterDispose := t.promises[0].Open?;
    t.FinishAnswer(request, Resolved(result));
  }

  method ConnectedClient() returns (t: RequestTable)
    ensures fresh(t) && t.Valid() && t.connection == Connected && !t.disposed
    ensures t.promises == [] && t.answering == {}
  {
    t := new RequestTable();
    t.Connect(0);
    t.Handshake(0);
  }
}
