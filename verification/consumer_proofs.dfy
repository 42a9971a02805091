/** What the auto-recovering consumer guarantees, proved about the
    specification functions of module Consumer (which the class's methods
    are proved to follow). */
module ConsumerProofs {
  import opened Types
  import opened Recoverable
  import opened Consumer

  // ---------------------------------------------------------------------
  // Single operations

  /** Recover disposes best-effort (a failing disposal makes no difference),
      never touches the terminal flag, cause or gate, and either installs a
      consumer attached to the new connection for the stored configuration
      or propagates the broker's refusal and keeps the old reference. */
  lemma RecoverFacts(s: ConsumerState, connection: Connection, disposeError: Option<Exception>)
    ensures var c := AfterRecover(s, connection, disposeError);
      c == AfterRecover(s, connection, None) &&
      c.state.config == s.config &&
      c.state.life.closed == s.life.closed && c.state.life.cause == s.life.cause &&
      c.state.life.gateOpen == s.life.gateOpen &&
      (c.error.None? <==> s.config !in connection.refusals) &&
      (c.error.None? ==> c.state.underlying == Some(LiveConsumer(connection.id, s.config))) &&
      (c.error.Some? ==> c.error.value == connection.refusals[s.config] && c.state.underlying == s.underlying)
  {
  }

  /** Terminate closes the consumer with exactly the given cause and opens
      the gate, whatever the disposal of the old consumer does. */
  lemma TerminateFacts(s: ConsumerState, cause: Option<Exception>, disposeError: Option<Exception>)
    ensures var t := AfterTerminate(s, cause, disposeError);
      t == AfterTerminate(s, cause, None) &&
      t.life.closed && t.life.cause == cause && !Suspended(t.life) &&
      t.underlying == s.underlying &&
      ClosedFailure(t) == Some(ConsumerClosedException(cause))
  {
  }

  /** Dispose lets the disposal's exception through (none when there is no
      underlying consumer), raises Closed exactly once when disposal
      succeeded and not at all otherwise, and leaves the terminal flag,
      cause and gate alone. */
  lemma DisposeFacts(s: ConsumerState, disposeError: Option<Exception>)
    ensures var c := AfterDispose(s, disposeError);
      c.error == (if s.underlying.Some? then disposeError else None) &&
      Extends(s.life, c.state.life) &&
      multiset(Emitted(s.life, c.state.life))[Closed] == (if c.error.None? then 1 else 0) &&
      c.state.life.closed == s.life.closed && c.state.life.cause == s.life.cause &&
      c.state.life.gateOpen == s.life.gateOpen && c.state.underlying == s.underlying
  {
    var c := AfterDispose(s, disposeError);
    var d := if s.underlying.Some? then [UnderlyingDisposed] else [];
    assert Emitted(s.life, c.state.life) == d + (if c.error.None? then [Closed] else []);
  }

  /** A closed consumer refuses accept and reject with the closed exception,
      wrapping the recorded cause, without reaching the underlying consumer. */
  lemma ClosedDelegationRefused(s: ConsumerState, request: Request, response: Option<Exception>)
    requires s.life.closed
    ensures Delegate(s, request, response) == Refused(ConsumerClosedException(s.life.cause))
  {
  }

  lemma NeutralStep(l: Lifecycle, s: Signal)
    requires Neutral(s)
    ensures WellOrdered(l, Emit(l, [s]))
  {
    TransitionsWellOrdered(l, None, s);
  }

  lemma DisposeUnderlyingWellOrdered(s: ConsumerState, disposeError: Option<Exception>)
    ensures WellOrdered(s.life, AfterDisposeUnderlying(s, disposeError).state.life)
  {
    if s.underlying.Some? {
      NeutralStep(s.life, UnderlyingDisposed);
    } else {
      WellOrderedReflexive(s.life);
    }
  }

  /** Every call another party can make keeps the configuration, keeps the
      underlying consumer faithful to it, keeps the trace faithful to the
      gate, never reopens a closed consumer, and only termination changes
      the terminal flag or the cause. */
  lemma CallFacts(s: ConsumerState, call: Call)
    ensures var t := ApplyCall(s, call);
      t.config == s.config &&
      (FaithfulToConfiguration(s) ==> FaithfulToConfiguration(t)) &&
      WellOrdered(s.life, t.life) &&
      (s.life.closed ==> t.life.closed) &&
      (!call.TerminateCall? ==> t.life.closed == s.life.closed && t.life.cause == s.life.cause)
  {
    var t := ApplyCall(s, call);
    match call
    case SuspendCall =>
      TransitionsWellOrdered(s.life, None, GateSet);
    case ResumeCall =>
      TransitionsWellOrdered(s.life, None, GateSet);
    case RecoverCall(connection, d) =>
      var u := AfterDisposeUnderlyingSafe(s, d);
      DisposeUnderlyingWellOrdered(s, d);
      if CreateConsumer(connection, s.config).Success? {
        NeutralStep(u.life, Logged(RecoveredEntry));
        assert t.life == Emit(u.life, [Logged(RecoveredEntry)]);
        WellOrderedTransitive(s.life, u.life, t.life);
      }
    case TerminateCall(cause, d) =>
      var m := s.(life := AfterMarkTerminated(s.life, cause));
      TransitionsWellOrdered(s.life, cause, GateSet);
      DisposeUnderlyingWellOrdered(m, d);
      WellOrderedTransitive(s.life, m.life, t.life);
    case DisposeCall(d) =>
      var u := AfterDisposeUnderlying(s, d);
      DisposeUnderlyingWellOrdered(s, d);
      if u.error.None? {
        NeutralStep(u.state.life, Closed);
        WellOrderedTransitive(s.life, u.state.life, t.life);
      }
  }

  // ---------------------------------------------------------------------
  // The receive loop

  lemma LinkClosedWellOrdered(s: ConsumerState)
    ensures WellOrdered(s.life, AfterLinkClosed(s).life)
    ensures AfterLinkClosed(s).config == s.config && AfterLinkClosed(s).underlying == s.underlying
    ensures AfterLinkClosed(s).life.closed == s.life.closed && Suspended(AfterLinkClosed(s).life)
  {
    var l1 := Emit(s.life, [Logged(RetryingReceiveEntry)]);
    NeutralStep(s.life, Logged(RetryingReceiveEntry));
    TransitionsWellOrdered(l1, None, GateSet);
    WellOrderedTransitive(s.life, l1, AfterLinkClosed(s).life);
  }

  /** Whatever happens during a receive keeps the configuration and its
      fidelity, never reopens a closed consumer, and leaves a trace in which
      the gate replays to its final state and every recovery request was
      raised after the gate had been reset. */
  lemma {:induction false} RunFacts(s: ConsumerState, phase: Phase, cancelled: bool, script: seq<Event>)
    ensures var r := Run(s, phase, cancelled, script);
      r.state.config == s.config &&
      (FaithfulToConfiguration(s) ==> FaithfulToConfiguration(r.state)) &&
      WellOrdered(s.life, r.state.life) &&
      (s.life.closed ==> r.state.life.closed)
    decreases |script|, Rank(phase)
  {
    var r := Run(s, phase, cancelled, script);
    match phase
    case AtTop =>
      if ClosedFailure(s).None? && s.underlying.Some? {
        RunFacts(s, Receiving, cancelled, script);
      } else {
        WellOrderedReflexive(s.life);
      }
    case Receiving =>
      if script == [] {
        WellOrderedReflexive(s.life);
      } else {
        match script[0]
        case Cancels =>
          RunFacts(s, Receiving, true, script[1..]);
        case Calls(call) =>
          var t := ApplyCall(s, call);
          CallFacts(s, call);
          RunFacts(t, Receiving, cancelled, script[1..]);
          WellOrderedTransitive(s.life, t.life, r.state.life);
        case Advances =>
          RunFacts(s, Receiving, cancelled, script[1..]);
        case Completes(Delivered(m)) =>
          WellOrderedReflexive(s.life);
        case Completes(Raised(e)) =>
          if !e.ConsumerClosedException? || ClosedFailure(s).Some? {
            WellOrderedReflexive(s.life);
          } else {
            RunFacts(s, Rechecked, cancelled, script[1..]);
          }
      }
    case Rechecked =>
      if script == [] {
        WellOrderedReflexive(s.life);
      } else {
        match script[0]
        case Cancels =>
          RunFacts(s, Rechecked, true, script[1..]);
        case Calls(call) =>
          var t := ApplyCall(s, call);
          CallFacts(s, call);
          RunFacts(t, Rechecked, cancelled, script[1..]);
          WellOrderedTransitive(s.life, t.life, r.state.life);
        case Completes(_) =>
          RunFacts(s, Rechecked, cancelled, script[1..]);
        case Advances =>
          var t := AfterLinkClosed(s);
          LinkClosedWellOrdered(s);
          RunFacts(t, Waiting, cancelled, script[1..]);
          WellOrderedTransitive(s.life, t.life, r.state.life);
      }
    case Waiting =>
      match GateWait(s.life.gateOpen, cancelled)
      case Proceeds =>
        RunFacts(s, AtTop, cancelled, script);
      case Cancelled =>
        WellOrderedReflexive(s.life);
      case Blocked =>
        if script == [] {
          WellOrderedReflexive(s.life);
        } else {
          match script[0]
          case Cancels =>
            RunFacts(s, Waiting, true, script[1..]);
          case Calls(call) =>
            var t := ApplyCall(s, call);
            CallFacts(s, call);
            RunFacts(t, Waiting, cancelled, script[1..]);
            WellOrderedTransitive(s.life, t.life, r.state.life);
          case Completes(_) =>
            RunFacts(s, Waiting, cancelled, script[1..]);
          case Advances =>
            RunFacts(s, Waiting, cancelled, script[1..]);
      }
  }

  /** A message a receive returns is one that the underlying consumer
      delivered, unchanged. */
  lemma {:induction false} ReceivedFromUnderlying(s: ConsumerState, phase: Phase, cancelled: bool, script: seq<Event>)
    ensures var r := Run(s, phase, cancelled, script);
      r.result.Received? ==> Completes(Delivered(r.result.message)) in script
    decreases |script|, Rank(phase)
  {
    match phase
    case AtTop =>
      if ClosedFailure(s).None? && s.underlying.Some? {
        ReceivedFromUnderlying(s, Receiving, cancelled, script);
      }
    case Receiving =>
      if script != [] {
        match script[0]
        case Cancels =>
          ReceivedFromUnderlying(s, Receiving, true, script[1..]);
        case Calls(call) =>
          ReceivedFromUnderlying(ApplyCall(s, call), Receiving, cancelled, script[1..]);
        case Advances =>
          ReceivedFromUnderlying(s, Receiving, cancelled, script[1..]);
        case Completes(Delivered(m)) =>
        case Completes(Raised(e)) =>
          if e.ConsumerClosedException? && ClosedFailure(s).None? {
            ReceivedFromUnderlying(s, Rechecked, cancelled, script[1..]);
          }
      }
    case Rechecked =>
      if script != [] {
        match script[0]
        case Cancels =>
          ReceivedFromUnderlying(s, Rechecked, true, script[1..]);
        case Calls(call) =>
          ReceivedFromUnderlying(ApplyCall(s, call), Rechecked, cancelled, script[1..]);
        case Completes(_) =>
          ReceivedFromUnderlying(s, Rechecked, cancelled, script[1..]);
        case Advances =>
          ReceivedFromUnderlying(AfterLinkClosed(s), Waiting, cancelled, script[1..]);
      }
    case Waiting =>
      match GateWait(s.life.gateOpen, cancelled)
      case Proceeds =>
        ReceivedFromUnderlying(s, AtTop, cancelled, script);
      case Cancelled =>
      case Blocked =>
        if script != [] {
          match script[0]
          case Cancels =>
            ReceivedFromUnderlying(s, Waiting, true, script[1..]);
          case Calls(call) =>
            ReceivedFromUnderlying(ApplyCall(s, call), Waiting, cancelled, script[1..]);
          case Completes(_) =>
            ReceivedFromUnderlying(s, Waiting, cancelled, script[1..]);
          case Advances =>
            ReceivedFromUnderlying(s, Waiting, cancelled, script[1..]);
        }
  }

  /** How a receive can fail. A closed-exception reaches the caller only as
      the terminal error of a consumer that is closed, wrapping its recorded
      cause: a link closure of the underlying consumer never does. Any other
      failure is an exception of the underlying receive passed on unchanged,
      a cancellation of a token that was cancelled, or the dereference of a
      consumer that has no underlying consumer. */
  lemma {:induction false} ReceiveFailures(s: ConsumerState, phase: Phase, cancelled: bool, script: seq<Event>)
    ensures var r := Run(s, phase, cancelled, script);
      r.result.Failed? && r.result.error.ConsumerClosedException? ==>
        r.state.life.closed && ClosedFailure(r.state) == Some(r.result.error)
    ensures var r := Run(s, phase, cancelled, script);
      r.result.Failed? && !r.result.error.ConsumerClosedException? ==>
        Completes(Raised(r.result.error)) in script ||
        (r.result.error == OperationCanceledException && (cancelled || Cancels in script)) ||
        (r.result.error == NullReferenceException && r.state.underlying.None?)
    decreases |script|, Rank(phase)
  {
    match phase
    case AtTop =>
      if ClosedFailure(s).None? && s.underlying.Some? {
        ReceiveFailures(s, Receiving, cancelled, script);
      }
    case Receiving =>
      if script != [] {
        match script[0]
        case Cancels =>
          ReceiveFailures(s, Receiving, true, script[1..]);
        case Calls(call) =>
          ReceiveFailures(ApplyCall(s, call), Receiving, cancelled, script[1..]);
        case Advances =>
          ReceiveFailures(s, Receiving, cancelled, script[1..]);
        case Completes(Delivered(m)) =>
        case Completes(Raised(e)) =>
          if e.ConsumerClosedException? && ClosedFailure(s).None? {
            ReceiveFailures(s, Rechecked, cancelled, script[1..]);
          }
      }
    case Rechecked =>
      if script != [] {
        match script[0]
        case Cancels =>
          ReceiveFailures(s, Rechecked, true, script[1..]);
        case Calls(call) =>
          ReceiveFailures(ApplyCall(s, call), Rechecked, cancelled, script[1..]);
        case Completes(_) =>
          ReceiveFailures(s, Rechecked, cancelled, script[1..]);
        case Advances =>
          ReceiveFailures(AfterLinkClosed(s), Waiting, cancelled, script[1..]);
      }
    case Waiting =>
      match GateWait(s.life.gateOpen, cancelled)
      case Proceeds =>
        ReceiveFailures(s, AtTop, cancelled, script);
      case Cancelled =>
      case Blocked =>
        if script != [] {
          match script[0]
          case Cancels =>
            ReceiveFailures(s, Waiting, true, script[1..]);
          case Calls(call) =>
            ReceiveFailures(ApplyCall(s, call), Waiting, cancelled, script[1..]);
          case Completes(_) =>
            ReceiveFailures(s, Waiting, cancelled, script[1..]);
          case Advances =>
            ReceiveFailures(s, Waiting, cancelled, script[1..]);
        }
  }

  /** The receive passes on what the underlying receive in flight answers,
      whatever follows in the script: a delivered message is returned
      unchanged, and an exception other than the closed exception is raised
      unchanged; the consumer's state is untouched either way. */
  lemma UnderlyingOutcomePropagates(s: ConsumerState, cancelled: bool, outcome: ReceiveOutcome, rest: seq<Event>)
    ensures outcome.Delivered? ==>
      Run(s, Receiving, cancelled, [Completes(outcome)] + rest) == Receipt(Received(outcome.message), s)
    ensures outcome.Raised? && !outcome.error.ConsumerClosedException? ==>
      Run(s, Receiving, cancelled, [Completes(outcome)] + rest) == Receipt(Failed(outcome.error), s)
  {
    assert ([Completes(outcome)] + rest)[0] == Completes(outcome);
  }

  /** The re-check after a closed exception: when a termination lands
      while the underlying receive is in flight and that receive then fails
      with the closed exception, the receive fails with the termination's
      cause wrapped, without suspending and without requesting recovery. */
  lemma TerminationDuringReceive(s: ConsumerState, cancelled: bool, cause: Option<Exception>, d: Option<Exception>,
                                 linkCause: Option<Exception>, rest: seq<Event>)
    ensures Run(s, Receiving, cancelled,
                [Calls(TerminateCall(cause, d)), Completes(Raised(ConsumerClosedException(linkCause)))] + rest) ==
            Receipt(Failed(ConsumerClosedException(cause)), AfterTerminate(s, cause, d))
  {
    var script := [Calls(TerminateCall(cause, d)), Completes(Raised(ConsumerClosedException(linkCause)))] + rest;
    var t := AfterTerminate(s, cause, d);
    assert script[0] == Calls(TerminateCall(cause, d));
    assert script[1..][0] == Completes(Raised(ConsumerClosedException(linkCause)));
    calc {
      Run(s, Receiving, cancelled, script);
      Run(t, Receiving, cancelled, script[1..]);
      Receipt(Failed(ConsumerClosedException(cause)), t);
    }
  }

  /** Whether `e` is an event that can open a closed gate or release its
      waiter: a resume, a termination, or a cancellation of the token. */
  predicate Wakes(e: Event)
  {
    e == Cancels || e == Calls(ResumeCall) || (e.Calls? && e.call.TerminateCall?)
  }

  /** A receive waiting on a closed gate stays parked, whatever else
      happens, until a resume, a termination or a cancellation arrives: it
      retries only after the gate opens. */
  lemma {:induction false} BlockedUntilOpened(s: ConsumerState, script: seq<Event>)
    requires Suspended(s.life)
    requires forall k :: 0 <= k < |script| ==> !Wakes(script[k])
    ensures Run(s, Waiting, false, script).result == Parked
    ensures Run(s, Waiting, false, script).state.life.closed == s.life.closed
    ensures Run(s, Waiting, false, script).state.life.cause == s.life.cause
    ensures Suspended(Run(s, Waiting, false, script).state.life)
    decreases |script|
  {
    if script != [] {
      assert !Wakes(script[0]);
      forall k | 0 <= k < |script[1..]|
        ensures !Wakes(script[1..][k])
      {
        assert script[1..][k] == script[k + 1];
      }
      match script[0]
      case Calls(call) =>
        CallFacts(s, call);
        assert Suspended(ApplyCall(s, call).life);
        BlockedUntilOpened(ApplyCall(s, call), script[1..]);
      case Completes(_) =>
        BlockedUntilOpened(s, script[1..]);
      case Advances =>
        BlockedUntilOpened(s, script[1..]);
    }
  }

  /** A closed consumer fails every receive at once, with the closed
      exception wrapping its cause, whatever would have happened next. */
  lemma ClosedReceiveFailsFast(s: ConsumerState, script: seq<Event>)
    requires s.life.closed
    ensures Receive(s, script) == Receipt(Failed(ConsumerClosedException(s.life.cause)), s)
  {
  }

  /** Termination wakes a receive that is blocked on the gate, and that
      receive fails with the closed exception wrapping the termination cause,
      instead of hanging. */
  lemma TerminationWakesBlockedReceive(s: ConsumerState, cause: Option<Exception>, disposeError: Option<Exception>, rest: seq<Event>)
    requires Suspended(s.life)
    ensures Run(s, Waiting, false, [Calls(TerminateCall(cause, disposeError))] + rest) ==
            Receipt(Failed(ConsumerClosedException(cause)), AfterTerminate(s, cause, disposeError))
  {
    var script := [Calls(TerminateCall(cause, disposeError))] + rest;
    var t := AfterTerminate(s, cause, disposeError);
    assert script[0] == Calls(TerminateCall(cause, disposeError)) && script[1..] == rest;
    calc {
      Run(s, Waiting, false, script);
      Run(t, Waiting, false, rest);
      Run(t, AtTop, false, rest);
    }
  }

  // ---------------------------------------------------------------------
  // Transparent recovery

  /** One recovery cycle as a pending receive sees it: the underlying
      receive fails because its link closed; the connection recovers the
      consumer against a connection and then resumes it. */
  datatype Cycle = Cycle(linkCause: Option<Exception>, connection: Connection, disposeError: Option<Exception>)

  function CycleEvents(c: Cycle): seq<Event>
  {
    [Completes(Raised(ConsumerClosedException(c.linkCause))),
     Advances,
     Calls(RecoverCall(c.connection, c.disposeError)),
     Calls(ResumeCall)]
  }

  function Cycles(cs: seq<Cycle>): seq<Event>
  {
    if cs == [] then [] else CycleEvents(cs[0]) + Cycles(cs[1..])
  }

  function AfterCycle(s: ConsumerState, c: Cycle): ConsumerState
  {
    var t := AfterRecover(AfterLinkClosed(s), c.connection, c.disposeError).state;
    t.(life := AfterResume(t.life))
  }

  lemma OneCycle(s: ConsumerState, c: Cycle, rest: seq<Event>)
    requires !s.life.closed && s.underlying.Some?
    requires s.config !in c.connection.refusals
    ensures Run(s, AtTop, false, CycleEvents(c) + rest) == Run(AfterCycle(s, c), AtTop, false, rest)
    ensures var t := AfterCycle(s, c);
      !t.life.closed && t.config == s.config &&
      t.underlying == Some(LiveConsumer(c.connection.id, s.config))
  {
    var script := CycleEvents(c) + rest;
    var s1 := AfterLinkClosed(s);
    var s2 := AfterRecover(s1, c.connection, c.disposeError).state;
    var s3 := AfterCycle(s, c);
    var x1 := script[1..];
    var x2 := x1[1..];
    var x3 := x2[1..];
    assert script[0] == Completes(Raised(ConsumerClosedException(c.linkCause)));
    assert x1[0] == Advances;
    assert x2[0] == Calls(RecoverCall(c.connection, c.disposeError));
    assert x3[0] == Calls(ResumeCall);
    assert x3[1..] == rest;
    assert Suspended(s1.life) && Suspended(s2.life);
    calc {
      Run(s, AtTop, false, script);
      Run(s, Receiving, false, script);
      Run(s, Rechecked, false, x1);
      Run(s1, Waiting, false, x2);
      Run(s2, Waiting, false, x3);
      Run(s3, Waiting, false, rest);
      Run(s3, AtTop, false, rest);
    }
  }

  /** A receive rides out any number of link closures, each followed by a
      successful recovery and a resume, and returns the next message the
      recovered consumer delivers, without the caller seeing an error. */
  lemma {:induction false} ReceiveRidesOutRecoveries(s: ConsumerState, cs: seq<Cycle>, m: Message)
    requires !s.life.closed && s.underlying.Some?
    requires forall k :: 0 <= k < |cs| ==> s.config !in cs[k].connection.refusals
    ensures Receive(s, Cycles(cs) + [Completes(Delivered(m))]).result == Received(m)
    decreases |cs|
  {
    if cs == [] {
      var script := [Completes(Delivered(m))];
      assert Cycles(cs) + [Completes(Delivered(m))] == script;
      assert Run(s, AtTop, false, script) == Run(s, Receiving, false, script);
    } else {
      var rest := Cycles(cs[1..]) + [Completes(Delivered(m))];
      assert Cycles(cs) + [Completes(Delivered(m))] == CycleEvents(cs[0]) + rest;
      OneCycle(s, cs[0], rest);
      var t := AfterCycle(s, cs[0]);
      forall k | 0 <= k < |cs[1..]|
        ensures t.config !in cs[1..][k].connection.refusals
      {
        assert cs[1..][k] == cs[k + 1];
      }
      ReceiveRidesOutRecoveries(t, cs[1..], m);
    }
  }

  /** The consumer's queue is gone after a reconnect: the broker refuses to
      recreate the consumer, the connection terminates it with that
      refusal as cause, and the receive that was waiting fails with the
      closed exception wrapping exactly that cause. */
  lemma RefusedRecoveryFailsPendingReceive(
    s: ConsumerState, linkCause: Option<Exception>, connection: Connection,
    disposeError: Option<Exception>, terminateDisposeError: Option<Exception>, rest: seq<Event>)
    requires !s.life.closed && s.underlying.Some?
    requires s.config in connection.refusals
    ensures var cause := Some(connection.refusals[s.config]);
      Receive(s, [Completes(Raised(ConsumerClosedException(linkCause))),
                  Advances,
                  Calls(RecoverCall(connection, disposeError)),
                  Calls(TerminateCall(cause, terminateDisposeError))] + rest).result ==
      Failed(ConsumerClosedException(cause))
  {
    var cause := Some(connection.refusals[s.config]);
    var tail := [Calls(TerminateCall(cause, terminateDisposeError))] + rest;
    var script := [Completes(Raised(ConsumerClosedException(linkCause))),
                   Advances,
                   Calls(RecoverCall(connection, disposeError))] + tail;
    assert [Completes(Raised(ConsumerClosedException(linkCause))),
            Advances,
            Calls(RecoverCall(connection, disposeError)),
            Calls(TerminateCall(cause, terminateDisposeError))] + rest == script;
    var s1 := AfterLinkClosed(s);
    var s2 := AfterRecover(s1, connection, disposeError).state;
    var x1 := script[1..];
    var x2 := x1[1..];
    assert script[0] == Completes(Raised(ConsumerClosedException(linkCause)));
    assert x1[0] == Advances;
    assert x2[0] == Calls(RecoverCall(connection, disposeError));
    assert x2[1..] == tail;
    assert Suspended(s1.life) && Suspended(s2.life);
    calc {
      Run(s, AtTop, false, script);
      Run(s, Receiving, false, script);
      Run(s, Rechecked, false, x1);
      Run(s1, Waiting, false, x2);
      Run(s2, Waiting, false, tail);
    }
    TerminationWakesBlockedReceive(s2, cause, terminateDisposeError, rest);
  }

  // ---------------------------------------------------------------------
  // Sequences of calls: termination is permanent and deterministic

  function ApplyCalls(s: ConsumerState, calls: seq<Call>): ConsumerState
    decreases |calls|
  {
    if calls == [] then s else ApplyCalls(ApplyCall(s, calls[0]), calls[1..])
  }

  /** The cause of the last termination among `calls`, if there is one. */
  function LastTermination(calls: seq<Call>): Option<Option<Exception>>
    decreases |calls|
  {
    if calls == [] then None
    else match LastTermination(calls[1..])
      case Some(cause) => Some(cause)
      case None => if calls[0].TerminateCall? then Some(calls[0].cause) else None
  }

  /** After any sequence of calls the terminal check reports the cause of
      the last termination; with no termination it reports what it did
      before. Recovery, resumption and disposal never reopen a consumer. */
  lemma {:induction false} TerminalDeterminism(s: ConsumerState, calls: seq<Call>)
    ensures match LastTermination(calls)
      case Some(cause) => ClosedFailure(ApplyCalls(s, calls)) == Some(ConsumerClosedException(cause))
      case None => ClosedFailure(ApplyCalls(s, calls)) == ClosedFailure(s)
    decreases |calls|
  {
    if calls != [] {
      CallFacts(s, calls[0]);
      TerminalDeterminism(ApplyCall(s, calls[0]), calls[1..]);
    }
  }

  /** Once terminated, and whatever calls follow, every receive, accept and
      reject fails immediately with the closed exception wrapping the cause
      of the last termination, and never reaches an underlying consumer. */
  lemma TerminatedConsumerFailsFast(s: ConsumerState, calls: seq<Call>, script: seq<Event>, request: Request, response: Option<Exception>)
    requires LastTermination(calls).Some?
    ensures var t := ApplyCalls(s, calls);
      var failure := ConsumerClosedException(LastTermination(calls).value);
      Receive(t, script) == Receipt(Failed(failure), t) &&
      Delegate(t, request, response) == Refused(failure)
  {
    TerminalDeterminism(s, calls);
  }

  // ---------------------------------------------------------------------
  // A termination lost between the re-check and the suspension

  /** As written: the link closes, the re-check finds the consumer open, and
      the connection terminates it before the receive suspends. The receive's
      suspension then closes the gate that the termination had opened. The
      consumer is terminated with a closed gate, and the receive stays parked
      until something resumes the gate or cancels its token, which for a
      terminated consumer with the default token never happens. */
  lemma LostWakeUp(s: ConsumerState, linkCause: Option<Exception>, cause: Option<Exception>,
                   disposeError: Option<Exception>, rest: seq<Event>)
    requires !s.life.closed && s.underlying.Some?
    requires forall k :: 0 <= k < |rest| ==> !Wakes(rest[k])
    ensures var r := Receive(s, [Completes(Raised(ConsumerClosedException(linkCause))),
                                 Calls(TerminateCall(cause, disposeError)),
                                 Advances] + rest);
      r.result == Parked && r.state.life.closed && r.state.life.cause == cause &&
      Suspended(r.state.life)
  {
    var script := [Completes(Raised(ConsumerClosedException(linkCause))),
                   Calls(TerminateCall(cause, disposeError)),
                   Advances] + rest;
    var s1 := AfterTerminate(s, cause, disposeError);
    var s2 := AfterLinkClosed(s1);
    var x1 := script[1..];
    var x2 := x1[1..];
    assert script[0] == Completes(Raised(ConsumerClosedException(linkCause)));
    assert x1[0] == Calls(TerminateCall(cause, disposeError));
    assert x2[0] == Advances && x2[1..] == rest;
    calc {
      Run(s, AtTop, false, script);
      Run(s, Receiving, false, script);
      Run(s, Rechecked, false, x1);
      Run(s1, Rechecked, false, x2);
      Run(s2, Waiting, false, rest);
    }
    BlockedUntilOpened(s2, rest);
  }

  /** A resource whose termination has not been undone: once closed, its
      gate is open. */
  predicate Awake(l: Lifecycle)
  {
    l.closed ==> l.gateOpen
  }

  lemma CallKeepsAwake(s: ConsumerState, call: Call)
    requires Awake(s.life) && call != SuspendCall
    ensures Awake(ApplyCall(s, call).life)
  {
    match call
    case ResumeCall =>
      ResumeProperties(s.life);
    case RecoverCall(connection, d) =>
      RecoverFacts(s, connection, d);
    case TerminateCall(cause, d) =>
      TerminateFacts(s, cause, d);
    case DisposeCall(d) =>
      DisposeFacts(s, d);
  }

  /** Corrected: with the Rechecking handler, no receive closes the gate of a
      terminated consumer, and a receive is never left parked on a
      terminated consumer, whatever calls land and wherever they land, as
      long as nobody else suspends the consumer. */
  lemma {:induction false} RecheckingKeepsTerminatedAwake(s: ConsumerState, phase: Phase, cancelled: bool, script: seq<Event>)
    requires Awake(s.life)
    requires forall k :: 0 <= k < |script| ==> script[k] != Calls(SuspendCall)
    ensures var r := Loop(Rechecking, s, phase, cancelled, script);
      Awake(r.state.life) && (r.result == Parked ==> !r.state.life.closed)
    decreases |script|, Rank(phase)
  {
    if script != [] {
      forall k | 0 <= k < |script[1..]|
        ensures script[1..][k] != Calls(SuspendCall)
      {
        assert script[1..][k] == script[k + 1];
      }
      assert script[0] != Calls(SuspendCall);
    }
    match phase
    case AtTop =>
      if ClosedFailure(s).None? && s.underlying.Some? {
        RecheckingKeepsTerminatedAwake(s, Receiving, cancelled, script);
      }
    case Receiving =>
      if script != [] {
        match script[0]
        case Cancels =>
          RecheckingKeepsTerminatedAwake(s, Receiving, true, script[1..]);
        case Calls(call) =>
          CallKeepsAwake(s, call);
          RecheckingKeepsTerminatedAwake(ApplyCall(s, call), Receiving, cancelled, script[1..]);
        case Advances =>
          RecheckingKeepsTerminatedAwake(s, Receiving, cancelled, script[1..]);
        case Completes(Delivered(m)) =>
        case Completes(Raised(e)) =>
          if e.ConsumerClosedException? && ClosedFailure(s).None? {
            RecheckingKeepsTerminatedAwake(s, Rechecked, cancelled, script[1..]);
          }
      }
    case Rechecked =>
      if script != [] {
        match script[0]
        case Cancels =>
          RecheckingKeepsTerminatedAwake(s, Rechecked, true, script[1..]);
        case Calls(call) =>
          CallKeepsAwake(s, call);
          RecheckingKeepsTerminatedAwake(ApplyCall(s, call), Rechecked, cancelled, script[1..]);
        case Completes(_) =>
          RecheckingKeepsTerminatedAwake(s, Rechecked, cancelled, script[1..]);
        case Advances =>
          var t := AfterRetrySuspend(s);
          if !t.life.closed {
            RecheckingKeepsTerminatedAwake(Emit1(t, RecoveryRequested), Waiting, cancelled, script[1..]);
          }
      }
    case Waiting =>
      match GateWait(s.life.gateOpen, cancelled)
      case Proceeds =>
        RecheckingKeepsTerminatedAwake(s, AtTop, cancelled, script);
      case Cancelled =>
      case Blocked =>
        if script != [] {
          match script[0]
          case Cancels =>
            RecheckingKeepsTerminatedAwake(s, Waiting, true, script[1..]);
          case Calls(call) =>
            CallKeepsAwake(s, call);
            RecheckingKeepsTerminatedAwake(ApplyCall(s, call), Waiting, cancelled, script[1..]);
          case Completes(_) =>
            RecheckingKeepsTerminatedAwake(s, Waiting, cancelled, script[1..]);
          case Advances =>
            RecheckingKeepsTerminatedAwake(s, Waiting, cancelled, script[1..]);
        }
  }

  /** Corrected, on the interleaving that loses the wake-up as written: the
      receive sees the termination after suspending, reopens the gate and
      fails with the closed exception wrapping the termination's cause. */
  lemma RecheckingAnswersLateTermination(s: ConsumerState, linkCause: Option<Exception>, cause: Option<Exception>,
                                         disposeError: Option<Exception>, rest: seq<Event>)
    requires !s.life.closed && s.underlying.Some?
    ensures var r := Loop(Rechecking, s, AtTop, false,
                          [Completes(Raised(ConsumerClosedException(linkCause))),
                           Calls(TerminateCall(cause, disposeError)),
                           Advances] + rest);
      r.result == Failed(ConsumerClosedException(cause)) && r.state.life.closed &&
      !Suspended(r.state.life)
  {
    var script := [Completes(Raised(ConsumerClosedException(linkCause))),
                   Calls(TerminateCall(cause, disposeError)),
                   Advances] + rest;
    var s1 := AfterTerminate(s, cause, disposeError);
    var x1 := script[1..];
    var x2 := x1[1..];
    assert script[0] == Completes(Raised(ConsumerClosedException(linkCause)));
    assert x1[0] == Calls(TerminateCall(cause, disposeError));
    assert x2[0] == Advances;
    calc {
      Loop(Rechecking, s, AtTop, false, script);
      Loop(Rechecking, s, Receiving, false, script);
      Loop(Rechecking, s, Rechecked, false, x1);
      Loop(Rechecking, s1, Rechecked, false, x2);
    }
  }
}
