/**
 The client connection: one lifecycle replaced in place by transport handlers and callers, an epoch that
 grows with every replacement, and listeners that may call back into the connection.
 A callback is an arbitrary number of nested `connect` and `disconnect` calls, themselves re-entrant, up to
 an arbitrary `depth`.
 */
module ClientConnection {
  import opened Results

  datatype ConnectionState = Disconnected | Connecting | Connected

  /** A live lifecycle knows its number, its transport and the `connect` promise it still owes. */
  datatype Lifecycle =
    | Down
    | Opening(id: nat, slot: Option<nat>, owed: nat)
    | Up(id: nat, transport: nat, handshake: Option<nat>)
  {
    function State(): ConnectionState {
      match this
      case Down => Disconnected
      case Opening(_, _, _) => Connecting
      case Up(_, _, _) => Connected
    }

    predicate Is(number: nat) {
      !Down? && id == number
    }

    function Transport(): Option<nat> {
      match this
      case Down => None
      case Opening(_, slot, _) => slot
      case Up(_, t, _) => Some(t)
    }

    function Owes(): Option<nat> {
      match this
      case Down => None
      case Opening(_, _, promise) => Some(promise)
      case Up(_, _, h) => h
    }
  }

  datatype Failure =
    | AlreadyActive(state: ConnectionState)
    | Refused
    | TransportLost
    | ProtocolViolation
    | Requested
    | ListenerPanicked

  datatype Promise = Pending | Resolved | Rejected(error: Failure)

  datatype ServerMessage = Hello | HelloError | Response | Event

  // ----- the order of state changes -----

  function Follow(phase: Option<ConnectionState>, change: ConnectionState): Option<ConnectionState> {
    match (phase, change)
    case (Some(Disconnected), Connecting) => Some(Connecting)
    case (Some(Connecting), Connected) => Some(Connected)
    case (Some(Connecting), Disconnected) => Some(Disconnected)
    case (Some(Connected), Disconnected) => Some(Disconnected)
    case _ => None
  }

  /** Where a log of state changes leaves a subscriber that starts disconnected; None if it breaks the order. */
  function PhaseOf(log: seq<ConnectionState>): Option<ConnectionState> {
    if log == [] then Some(Disconnected)
    else Follow(PhaseOf(log[..|log| - 1]), log[|log| - 1])
  }

  /** One connection's life as its subscribers see it. */
  function Round(reachedConnected: bool): seq<ConnectionState> {
    if reachedConnected then [Connecting, Connected, Disconnected] else [Connecting, Disconnected]
  }

  function Rounds(reached: seq<bool>): seq<ConnectionState> {
    if reached == [] then []
    else Rounds(reached[..|reached| - 1]) + Round(reached[|reached| - 1])
  }

  lemma PhaseSnoc(log: seq<ConnectionState>, change: ConnectionState)
    ensures PhaseOf(log + [change]) == Follow(PhaseOf(log), change)
  {
    assert (log + [change])[..|log|] == log;
  }

  /** A log in order is whole rounds followed by the start of one. */
  lemma {:induction false} OrderedLogIsRounds(log: seq<ConnectionState>) returns (reached: seq<bool>)
    requires PhaseOf(log).Some?
    ensures match PhaseOf(log).value
            case Disconnected => log == Rounds(reached)
            case Connecting => log == Rounds(reached) + [Connecting]
            case Connected => log == Rounds(reached) + [Connecting, Connected]
    decreases |log|
  {
    reached := [];
    if log != [] {
      var before, last := log[..|log| - 1], log[|log| - 1];
      assert log == before + [last];
      reached := OrderedLogIsRounds(before);
      if last == Disconnected {
        var up := PhaseOf(before).value == Connected;
        assert (reached + [up])[..|reached|] == reached;
        assert log == Rounds(reached) + Round(up);
        reached := reached + [up];
      }
    }
  }

  lemma RoundInSteps(log: seq<ConnectionState>, up: bool)
    ensures log + Round(up) ==
            if up then ((log + [Connecting]) + [Connected]) + [Disconnected]
            else (log + [Connecting]) + [Disconnected]
  {
  }

  /** A whole round leads from disconnected to disconnected. */
  lemma RoundPhase(log: seq<ConnectionState>, up: bool)
    requires PhaseOf(log) == Some(Disconnected)
    ensures PhaseOf(log + Round(up)) == Some(Disconnected)
  {
    RoundInSteps(log, up);
    var connecting := log + [Connecting];
    PhaseSnoc(log, Connecting);
    if up {
      PhaseSnoc(connecting, Connected);
      PhaseSnoc(connecting + [Connected], Disconnected);
    } else {
      PhaseSnoc(connecting, Disconnected);
    }
  }

  lemma {:induction false} RoundsPhase(reached: seq<bool>)
    ensures PhaseOf(Rounds(reached)) == Some(Disconnected)
  {
    if reached != [] {
      var n := |reached| - 1;
      RoundsPhase(reached[..n]);
      RoundPhase(Rounds(reached[..n]), reached[n]);
    }
  }

  lemma {:induction false} PrefixInOrder(log: seq<ConnectionState>, k: nat)
    requires PhaseOf(log).Some? && k <= |log|
    ensures PhaseOf(log[..k]).Some?
    decreases |log| - k
  {
    if k == |log| {
      assert log[..k] == log;
    } else {
      PrefixInOrder(log, k + 1);
      assert log[..k + 1][..k] == log[..k];
    }
  }

  /** The subscribers' automaton accepts exactly the prefixes of (Connecting Connected? Disconnected)*. */
  lemma InOrderIffPrefixOfRounds(log: seq<ConnectionState>)
    ensures PhaseOf(log).Some? <==> exists reached :: log <= Rounds(reached)
  {
    if PhaseOf(log).Some? {
      var reached := OrderedLogIsRounds(log);
      var more := reached + [PhaseOf(log).value == Connected];
      assert more[..|reached|] == reached;
      assert Rounds(more) == Rounds(reached) + Round(PhaseOf(log).value == Connected);
      assert log <= Rounds(more);
    }
    forall reached | log <= Rounds(reached)
      ensures PhaseOf(log).Some?
    {
      RoundsPhase(reached);
      PrefixInOrder(Rounds(reached), |log|);
      assert Rounds(reached)[..|log|] == log;
    }
  }

  // ----- what messages do to the lifecycle -----

  /** What the client makes of a message: whether its callback panics, and whether it rejects the message. */
  datatype Reaction = Reaction(panics: bool, rejects: bool)

  /** Nothing has been sent to the server yet. */
  predicate TooEarly(l: Lifecycle) {
    l.Opening? && l.slot.None?
  }

  /** The lifecycle after a message, if no listener calls back. */
  function AfterMessage(l: Lifecycle, message: ServerMessage, reaction: Reaction): Lifecycle {
    match l
    case Down => Down
    case Opening(id, slot, _) =>
      if message == Hello && slot.Some? && !reaction.panics then Up(id, slot.value, None) else Down
    case Up(_, _, _) => if message == Hello || message == HelloError || reaction.rejects then Down else l
  }

  function AfterMessages(l: Lifecycle, messages: seq<ServerMessage>, reactions: nat -> Reaction, n: nat): Lifecycle
    requires n <= |messages|
  {
    if n == 0 then l else AfterMessage(AfterMessages(l, messages, reactions, n - 1), messages[n - 1], reactions(n - 1))
  }

  // ----- the connection -----

  class Connection {
    var lifecycle: Lifecycle
    var epoch: nat
    var sequence: nat
    /** Every `connect` promise handed out, by number. */
    var promises: seq<Promise>
    /** Every state-change callback, in order of entry. */
    ghost var log: seq<ConnectionState>

    /** The promises still open are exactly the one the lifecycle owes, and `changes` tells subscribers of the
        lifecycle; a fresh Up has not been announced until its promise is about to be resolved. */
    ghost predicate Agrees(changes: seq<ConnectionState>)
      reads this
    {
      && (lifecycle.Owes().Some? ==> lifecycle.Owes().value < |promises|)
      && (forall k | 0 <= k < |promises| :: promises[k].Pending? <==> lifecycle.Owes() == Some(k))
      && (match lifecycle
          case Down => PhaseOf(changes) == Some(Disconnected)
          case Opening(_, _, _) => PhaseOf(changes) == Some(Connecting)
          case Up(_, _, None) => PhaseOf(changes) == Some(Connected)
          case Up(_, _, Some(_)) => PhaseOf(changes) == Some(Connecting) || PhaseOf(changes) == Some(Connected))
    }

    ghost predicate Valid()
      reads this
    {
      Agrees(log)
    }

    /** What no call, however nested, breaks: the epoch and the log only grow, an unchanged epoch means an
        unchanged lifecycle and log, and a settled promise stays as it was settled. */
    twostate predicate Progress()
      reads this
    {
      && old(epoch) <= epoch
      && old(log) <= log
      && (epoch == old(epoch) ==> lifecycle == old(lifecycle) && log == old(log))
      && Kept(old(promises), promises)
    }

    /** Progress in which no `connect` succeeds: everything but a server hello. */
    twostate predicate Quiet()
      reads this
    {
      Progress() && forall k | 0 <= k < |promises| && promises[k].Resolved? ::
        k < |old(promises)| && old(promises)[k].Resolved?
    }

    constructor ()
      ensures Valid() && lifecycle == Down && epoch == 0 && promises == [] && log == []
    {
      lifecycle, epoch, sequence, promises := Down, 0, 0, [];
      log := [];
    }

    // ----- callbacks -----

    /** An arbitrary listener: any number of connects and disconnects. */
    method Listener(depth: nat)
      requires Valid()
      modifies this
      ensures Valid() && Quiet()
      ensures depth == 0 ==> unchanged(this)
      decreases depth, 0
    {
      var calls: nat := *;
      while calls > 0 && depth > 0
        invariant Valid() && Quiet()
        invariant depth == 0 ==> unchanged(this)
        decreases calls
      {
        calls := calls - 1;
        label before:
        if * {
          var _ := Connect(depth - 1);
        } else {
          Disconnect(Requested, depth - 1);
        }
        assert Quiet@before();
      }
    }

    method NotifyStateChange(state: ConnectionState, depth: nat)
      requires Agrees(log + [state])
      modifies this
      ensures Valid()
      ensures old(epoch) <= epoch && old(log) + [state] <= log && Kept(old(promises), promises)
      ensures forall k | 0 <= k < |promises| && promises[k].Resolved? :: k < |old(promises)| && old(promises)[k].Resolved?
      ensures epoch == old(epoch) ==> lifecycle == old(lifecycle) && log == old(log) + [state]
      ensures depth == 0 ==> epoch == old(epoch) && promises == old(promises)
      decreases depth, 1
    {
      log := log + [state];
      Listener(depth);
    }

    // ----- calls -----

    method Connect(depth: nat) returns (promise: nat)
      requires Valid()
      modifies this
      ensures Valid() && Quiet()
      ensures promise == old(|promises|) < |promises|
      ensures old(lifecycle) != Down ==>
                && promises == old(promises) + [Rejected(AlreadyActive(old(lifecycle).State()))]
                && epoch == old(epoch)
      ensures old(lifecycle) == Down ==>
                epoch > old(epoch) && old(log) + [Connecting] <= log
      decreases depth, 2
    {
      promise := |promises|;
      promises := promises + [Pending];
      if lifecycle != Down {
        Settle(promise, Rejected(AlreadyActive(lifecycle.State())));
        return;
      }
      sequence := sequence + 1;
      lifecycle := Opening(sequence, None, promise);
      epoch := epoch + 1;
      PhaseSnoc(log, Connecting);
      NotifyStateChange(Connecting, depth);
    }

    method Disconnect(reason: Failure, depth: nat)
      requires Valid()
      modifies this
      ensures Valid() && Quiet()
      ensures old(lifecycle) == Down ==> epoch == old(epoch)
      ensures TornDown(reason)
      decreases depth, 4
    {
      if lifecycle == Down {
        return;
      }
      FailAndClose(reason, depth);
    }

    /** What tearing the lifecycle down means: subscribers hear it and the owed promise is rejected. */
    twostate predicate TornDown(reason: Failure)
      reads this
    {
      old(lifecycle) != Down ==>
        && epoch > old(epoch)
        && old(log) + [Disconnected] <= log
        && (old(lifecycle).Owes().Some? ==>
            var k := old(lifecycle).Owes().value;
            k < |promises| && promises[k] == Rejected(reason))
    }

    method FailAndClose(error: Failure, depth: nat)
      requires Valid()
      modifies this
      ensures Valid() && Quiet() && TornDown(error)
      ensures old(lifecycle) == Down ==> epoch == old(epoch)
      ensures depth == 0 ==> lifecycle == Down
      decreases depth, 3
    {
      DoFail(error, depth);
    }

    method DoFail(error: Failure, depth: nat)
      requires Valid()
      modifies this
      ensures Valid() && Quiet() && TornDown(error)
      ensures old(lifecycle) == Down ==> epoch == old(epoch)
      ensures depth == 0 ==> lifecycle == Down
      decreases depth, 2
    {
      if lifecycle == Down {
        return;
      }
      var handshake := lifecycle.Owes();
      lifecycle := Down;
      epoch := epoch + 1;
      if handshake.Some? {
        Settle(handshake.value, Rejected(error));
      }
      PhaseSnoc(log, Disconnected);
      NotifyStateChange(Disconnected, depth);
    }

    /** A resolver settles its promise once; later calls do nothing. */
    method Settle(promise: nat, outcome: Promise)
      requires promise < |promises| && !outcome.Pending?
      modifies this`promises
      ensures promises == if old(promises)[promise].Pending? then old(promises)[promise := outcome] else old(promises)
    {
      if promises[promise].Pending? {
        promises := promises[promise := outcome];
      }
    }

    // ----- what the transport delivers -----

    method TransportOpened(id: nat, transport: Option<nat>, depth: nat)
      requires Valid()
      modifies this
      ensures Valid() && Quiet()
      ensures transport.None? && old(lifecycle).Is(id) ==> TornDown(TransportLost)
      ensures transport.Some? ==>
                if old(lifecycle).Opening? && old(lifecycle).id == id then
                  epoch == old(epoch) + 1 && lifecycle == old(lifecycle).(slot := transport)
                else epoch == old(epoch)
      ensures !old(lifecycle).Is(id) ==> epoch == old(epoch)
    {
      if transport.None? {
        if lifecycle.Is(id) {
          FailAndClose(TransportLost, depth);
        }
        return;
      }
      if lifecycle.Opening? && lifecycle.id == id {
        lifecycle := lifecycle.(slot := transport);
        epoch := epoch + 1;
      }
    }

    method TransportClosed(id: nat, depth: nat)
      requires Valid()
      modifies this
      ensures Valid() && Quiet()
      ensures !old(lifecycle).Is(id) ==> epoch == old(epoch)
      ensures old(lifecycle).Is(id) ==> TornDown(TransportLost) || TornDown(ProtocolViolation)
    {
      if lifecycle.Is(id) {
        var truncated: bool := *;
        DoFail(if truncated then ProtocolViolation else TransportLost, depth);
      }
    }

    /** A transport error, a failed hello, or a failed send on the current transport. */
    method TransportFailed(id: nat, depth: nat)
      requires Valid()
      modifies this
      ensures Valid() && Quiet()
      ensures if old(lifecycle).Is(id) then TornDown(TransportLost) else epoch == old(epoch)
    {
      if lifecycle.Is(id) {
        FailAndClose(TransportLost, depth);
      }
    }

    method SendFailed(transport: nat, depth: nat)
      requires Valid()
      modifies this
      ensures Valid() && Quiet()
      ensures if old(lifecycle).Transport() == Some(transport) then TornDown(TransportLost) else epoch == old(epoch)
    {
      if lifecycle.Transport() == Some(transport) {
        FailAndClose(TransportLost, depth);
      }
    }

    /** `decoded` is what the decoder makes of a chunk: None when it refuses the bytes. Data that comes too early or is
        refused tears the connection down. With listeners that call nothing back, the lifecycle afterwards is what the
        messages make of it one by one, and a `connect` succeeds exactly by a hello as the first of them. */
    method HandleData(id: nat, decoded: Option<seq<ServerMessage>>, reactions: nat -> Reaction, depth: nat)
      requires Valid()
      modifies this
      ensures Valid() && Progress()
      ensures !old(lifecycle).Is(id) ==> epoch == old(epoch)
      ensures old(lifecycle).Is(id) && (TooEarly(old(lifecycle)) || decoded.None?) ==> TornDown(ProtocolViolation)
      ensures old(lifecycle).Is(id) && !TooEarly(old(lifecycle)) && decoded.Some? && depth == 0 ==>
                lifecycle == AfterMessages(old(lifecycle), decoded.value, reactions, |decoded.value|)
      ensures old(lifecycle).Is(id) && old(lifecycle).Opening? && !TooEarly(old(lifecycle)) && depth == 0
              && decoded.Some? && decoded.value != [] ==>
                (promises[old(lifecycle).owed].Resolved? <==> decoded.value[0].Hello? && !reactions(0).panics)
      ensures old(lifecycle).Is(id) && old(lifecycle).Opening? && decoded != Some([]) ==> epoch > old(epoch)
    {
      if !lifecycle.Is(id) {
        return;
      }
      if lifecycle.Opening? && lifecycle.slot.None? {
        FailAndClose(ProtocolViolation, depth);
        return;
      }
      if decoded.None? {
        FailAndClose(ProtocolViolation, depth);
        return;
      }
      HandleMessages(decoded.value, reactions, depth);
    }

    /** Each message in turn, until the connection is down. */
    method HandleMessages(messages: seq<ServerMessage>, reactions: nat -> Reaction, depth: nat)
      requires Valid() && !TooEarly(lifecycle)
      modifies this
      ensures Valid() && Progress()
      ensures depth == 0 ==> lifecycle == AfterMessages(old(lifecycle), messages, reactions, |messages|)
      ensures depth == 0 && old(lifecycle).Opening? && messages != [] ==>
                (promises[old(lifecycle).owed].Resolved? <==> messages[0].Hello? && !reactions(0).panics)
      ensures old(lifecycle).Opening? && messages != [] ==> epoch > old(epoch)
    {
      for i := 0 to |messages|
        invariant Valid() && Progress()
        invariant old(lifecycle).Opening? && i > 0 ==> epoch > old(epoch)
        invariant depth == 0 ==> lifecycle == AfterMessages(old(lifecycle), messages, reactions, i)
        invariant depth == 0 && old(lifecycle).Opening? && i > 0 ==>
                    && (promises[old(lifecycle).owed].Resolved? <==> messages[0].Hello? && !reactions(0).panics)
                    && !promises[old(lifecycle).owed].Pending?
      {
        if lifecycle == Down {
          if depth == 0 {
            DownStays(old(lifecycle), messages, reactions, i, |messages|);
          }
          return;
        }
        label before:
        HandleMessage(messages[i], reactions(i), depth);
        assert Progress@before();
      }
    }

    static lemma DownStays(l: Lifecycle, messages: seq<ServerMessage>, reactions: nat -> Reaction, i: nat, n: nat)
      requires i <= n <= |messages| && AfterMessages(l, messages, reactions, i) == Down
      ensures AfterMessages(l, messages, reactions, n) == Down
      decreases n
    {
      if i < n {
        DownStays(l, messages, reactions, i, n - 1);
      }
    }

    method HandleMessage(message: ServerMessage, reaction: Reaction, depth: nat)
      requires Valid()
      modifies this
      ensures Valid() && Progress()
      ensures old(lifecycle).Opening? ==> epoch > old(epoch)
      ensures depth == 0 ==> lifecycle == AfterMessage(old(lifecycle), message, reaction)
      ensures depth == 0 && old(lifecycle).Opening? ==>
                && !promises[old(lifecycle).owed].Pending?
                && (promises[old(lifecycle).owed].Resolved? <==>
                    message.Hello? && old(lifecycle).slot.Some? && !reaction.panics)
    {
      match lifecycle {
        case Down =>
        case Opening(_, _, _) => HandleHandshakeMessage(message, reaction.panics, depth);
        case Up(_, _, _) =>
          if message.Hello? || message.HelloError? {
            FailAndClose(ProtocolViolation, depth);
          } else if reaction.rejects {
            FailAndClose(ProtocolViolation, depth);
          } else {
            Listener(depth);
          }
      }
    }

    method HandleHandshakeMessage(message: ServerMessage, panics: bool, depth: nat)
      requires Valid() && lifecycle.Opening?
      modifies this
      ensures Valid() && Progress() && epoch > old(epoch)
      ensures message.HelloError? ==> TornDown(Refused)
      ensures message.Response? || message.Event? || (message.Hello? && old(lifecycle).slot.None?) ==>
                TornDown(ProtocolViolation)
      ensures promises[old(lifecycle).owed].Resolved? ==> message == Hello && old(log) + [Connected] <= log
      ensures forall k | 0 <= k < |promises| && promises[k].Resolved? ::
                k == old(lifecycle).owed || (k < |old(promises)| && old(promises)[k].Resolved?)
      ensures message == Hello && old(lifecycle).slot.Some? && depth == 0 ==>
                if panics then TornDown(ListenerPanicked)
                else
                  && lifecycle == Up(old(lifecycle).id, old(lifecycle).slot.value, None)
                  && promises == old(promises)[old(lifecycle).owed := Resolved] && log == old(log) + [Connected]
      ensures depth == 0 ==> !promises[old(lifecycle).owed].Pending? && (lifecycle.Up? || lifecycle == Down)
      ensures depth == 0 && lifecycle.Up? ==> message == Hello && old(lifecycle).slot.Some? && !panics
    {
      if message == HelloError {
        FailAndClose(Refused, depth);
        return;
      }
      if message != Hello {
        FailAndClose(ProtocolViolation, depth);
        return;
      }
      if lifecycle.slot.None? {
        epoch := epoch + 1;
        FailAndClose(ProtocolViolation, depth);
        return;
      }
      AcceptHello(panics, depth);
    }

    /** Takes the lifecycle up, lets listeners hear of it, and resolves the owed promise unless one of them tore the
        connection down or panicked. */
    method AcceptHello(panics: bool, depth: nat)
      requires Valid() && lifecycle.Opening? && lifecycle.slot.Some?
      modifies this
      ensures Valid() && Progress() && epoch > old(epoch)
      ensures promises[old(lifecycle).owed].Resolved? ==> old(log) + [Connected] <= log
      ensures forall k | 0 <= k < |promises| && promises[k].Resolved? ::
                k == old(lifecycle).owed || (k < |old(promises)| && old(promises)[k].Resolved?)
      ensures depth == 0 ==>
                if panics then TornDown(ListenerPanicked) && lifecycle == Down
                else
                  && lifecycle == Up(old(lifecycle).id, old(lifecycle).slot.value, None)
                  && promises == old(promises)[old(lifecycle).owed := Resolved] && log == old(log) + [Connected]
    {
      var Opening(id, slot, handshake) := lifecycle;
      lifecycle := Up(id, slot.value, Some(handshake));
      epoch := epoch + 1;
      var current := epoch;
      label announced:
      Listener(depth);
      if panics {
        if epoch == current {
          FailAndClose(ListenerPanicked, depth);
        }
        return;
      }
      if epoch != current {
        return;
      }
      PhaseSnoc(log, Connected);
      NotifyStateChange(Connected, depth);
      if epoch != current {
        return;
      }
      lifecycle := Up(id, slot.value, None);
      epoch := epoch + 1;
      Settle(handshake, Resolved);
    }
  }

  /** Settled promises stay settled the same way; promises are only added. */
  predicate Kept(before: seq<Promise>, after: seq<Promise>) {
    && |before| <= |after|
    && forall k | 0 <= k < |before| :: !before[k].Pending? ==> after[k] == before[k]
  }

  /** In every state the calls above can reach, subscribers have seen a prefix of
      (Connecting Connected? Disconnected)*, and at most one `connect` promise is open: the one the current
      lifecycle owes. */
  lemma ReachableStates(c: Connection)
    requires c.Valid()
    ensures exists reached :: c.log <= Rounds(reached)
    ensures forall j, k | 0 <= j < |c.promises| && 0 <= k < |c.promises| ::
              c.promises[j].Pending? && c.promises[k].Pending? ==> j == k
    ensures c.lifecycle == Down ==> forall k | 0 <= k < |c.promises| :: !c.promises[k].Pending?
  {
    InOrderIffPrefixOfRounds(c.log);
  }
}
