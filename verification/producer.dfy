/** The behaviour that every auto-recovering producer shares: the terminal
    flag, the failure cause and the suspension gate, with suspend, resume,
    recover, terminate and dispose. Creating, recreating and disposing the
    underlying producer are left to the concrete producers; here they are
    hooks whose outcomes are parameters and whose invocations the trace
    records. The whole state of the base is a Lifecycle. */
module Producer {
  import opened Types
  import opened Recoverable

  /** The terminal-state check of the producer. */
  function ClosedFailure(l: Lifecycle): Option<Exception>
  {
    if l.closed then Some(ProducerClosedException(l.cause)) else None
  }

  /** Run the disposal hook and swallow whatever it throws. */
  function AfterDisposeUnderlyingSafe(l: Lifecycle, disposeError: Option<Exception>): Lifecycle
  {
    Emit(l, [UnderlyingDisposed])
  }

  /** Best-effort disposal, then the recovery hook against the connection;
      the hook's exception propagates, and only success is logged. */
  function AfterRecover(l: Lifecycle, connection: Connection, disposeError: Option<Exception>, recoverError: Option<Exception>): Completion<Lifecycle>
  {
    var t := Emit(AfterDisposeUnderlyingSafe(l, disposeError), [UnderlyingRecoveryInvoked(connection.id)]);
    if recoverError.Some? then Completion(recoverError, t)
    else Completion(None, Emit(t, [Logged(RecoveredEntry)]))
  }

  function AfterTerminate(l: Lifecycle, cause: Option<Exception>, disposeError: Option<Exception>): Lifecycle
  {
    AfterDisposeUnderlyingSafe(AfterMarkTerminated(l, cause), disposeError)
  }

  /** Run the disposal hook (its exception propagates), then raise Closed. */
  function AfterDispose(l: Lifecycle, disposeError: Option<Exception>): Completion<Lifecycle>
  {
    var t := Emit(l, [UnderlyingDisposed]);
    if disposeError.Some? then Completion(disposeError, t)
    else Completion(None, Emit(t, [Closed]))
  }

  /** The calls a producer receives from its owner, its concrete subclass
      (which reports a closed link) and the application. */
  datatype Call =
    | SuspendCall
    | ResumeCall
    | LinkClosedCall
    | RecoverCall(connection: Connection, disposeError: Option<Exception>, recoverError: Option<Exception>)
    | TerminateCall(cause: Option<Exception>, disposeError: Option<Exception>)
    | DisposeCall(disposeError: Option<Exception>)

  function ApplyCall(l: Lifecycle, call: Call): Lifecycle
  {
    match call
    case SuspendCall => AfterSuspend(l)
    case ResumeCall => AfterResume(l)
    case LinkClosedCall => AfterRequestRecovery(l)
    case RecoverCall(connection, d, e) => AfterRecover(l, connection, d, e).state
    case TerminateCall(cause, d) => AfterTerminate(l, cause, d)
    case DisposeCall(d) => AfterDispose(l, d).state
  }

  function ApplyCalls(l: Lifecycle, calls: seq<Call>): Lifecycle
    decreases |calls|
  {
    if calls == [] then l else ApplyCalls(ApplyCall(l, calls[0]), calls[1..])
  }

  /** The cause of the last termination among `calls`, if there is one. */
  function LastTermination(calls: seq<Call>): Option<Option<Exception>>
    decreases |calls|
  {
    if calls == [] then None
    else match LastTermination(calls[1..])
      case Some(cause) => Some(cause)
      case None => if calls[0].TerminateCall? then Some(calls[0].cause) else None
  }

  // ---------------------------------------------------------------------

  class AutoRecoveringProducerBase {
    var closed: bool
    var failureCause: Option<Exception>
    var gateOpen: bool
    ghost var signals: seq<Signal>

    ghost function Life(): Lifecycle
      reads this
    {
      Lifecycle(closed, failureCause, gateOpen, signals)
    }

    constructor ()
      ensures Life() == Fresh
      ensures !IsSuspended()
    {
      closed, failureCause, gateOpen := false, None, true;
      signals := [];
    }

    method Resume()
      modifies this
      ensures Life() == AfterResume(old(Life()))
    {
      var wasSuspended := IsSuspended();
      gateOpen := true;
      signals := signals + [GateSet];
      if wasSuspended {
        signals := signals + [Logged(ResumedEntry)];
      }
    }

    function IsSuspended(): (suspended: bool)
      reads this
      ensures suspended <==> Suspended(Life())
    {
      !gateOpen
    }

    method RecoverAsync(connection: Connection, disposeError: Option<Exception>, recoverError: Option<Exception>)
      returns (error: Option<Exception>)
      modifies this
      ensures Completion(error, Life()) == AfterRecover(old(Life()), connection, disposeError, recoverError)
      ensures error == recoverError
      ensures closed == old(closed) && failureCause == old(failureCause) && gateOpen == old(gateOpen)
    {
      DisposeUnderlyingProducerSafe(disposeError);
      error := RecoverUnderlyingProducer(connection, recoverError);
      if error.None? {
        signals := signals + [Logged(RecoveredEntry)];
      }
    }

    /** Called by a concrete producer when its link closed: suspend first,
        then ask the owner for recovery. */
    method HandleProducerClosed()
      modifies this
      ensures Life() == AfterRequestRecovery(old(Life()))
      ensures IsSuspended() && closed == old(closed) && failureCause == old(failureCause)
    {
      Suspend();
      signals := signals + [RecoveryRequested];
    }

    method Suspend()
      modifies this
      ensures Life() == AfterSuspend(old(Life()))
    {
      var wasSuspended := IsSuspended();
      gateOpen := false;
      signals := signals + [GateReset];
      if !wasSuspended {
        signals := signals + [Logged(SuspendedEntry)];
      }
    }

    /** Waiting on the gate, synchronously or not: through when open, a
        cancellation when closed and the token is cancelled, blocked
        otherwise. */
    method Wait(cancelled: bool) returns (outcome: WaitOutcome)
      ensures outcome == Proceeds <==> !IsSuspended()
      ensures outcome == Cancelled <==> IsSuspended() && cancelled
    {
      outcome := GateWait(gateOpen, cancelled);
    }

    method TerminateAsync(cause: Option<Exception>, disposeError: Option<Exception>)
      modifies this
      ensures Life() == AfterTerminate(old(Life()), cause, disposeError)
      ensures closed && failureCause == cause && !IsSuspended()
    {
      closed := true;
      failureCause := cause;
      gateOpen := true;
      signals := signals + [GateSet];
      DisposeUnderlyingProducerSafe(disposeError);
    }

    method DisposeAsync(disposeError: Option<Exception>) returns (error: Option<Exception>)
      modifies this
      ensures Completion(error, Life()) == AfterDispose(old(Life()), disposeError)
      ensures error == disposeError
      ensures closed == old(closed) && failureCause == old(failureCause) && gateOpen == old(gateOpen)
    {
      error := DisposeUnderlyingProducer(disposeError);
      if error.None? {
        signals := signals + [Closed];
      }
    }

    method DisposeUnderlyingProducerSafe(disposeError: Option<Exception>)
      modifies this
      ensures Life() == AfterDisposeUnderlyingSafe(old(Life()), disposeError)
    {
      var ignored := DisposeUnderlyingProducer(disposeError);
    }

    method CheckClosed() returns (failure: Option<Exception>)
      ensures failure == ClosedFailure(Life())
      ensures failure.None? <==> !closed
      ensures closed ==> failure == Some(ProducerClosedException(failureCause))
    {
      if closed {
        if failureCause.Some? {
          failure := Some(ProducerClosedException(failureCause));
        } else {
          failure := Some(ProducerClosedException(None));
        }
      } else {
        failure := None;
      }
    }

    /** The disposal hook of a concrete producer, as an oracle: it is
        recorded as invoked and throws `disposeError`, if any. */
    method DisposeUnderlyingProducer(disposeError: Option<Exception>) returns (error: Option<Exception>)
      modifies this
      ensures Life() == Emit(old(Life()), [UnderlyingDisposed]) && error == disposeError
    {
      signals := signals + [UnderlyingDisposed];
      error := disposeError;
    }

    /** The recovery hook of a concrete producer, as an oracle: it is
        recorded as invoked with the connection and throws `recoverError`,
        if any. */
    method RecoverUnderlyingProducer(connection: Connection, recoverError: Option<Exception>) returns (error: Option<Exception>)
      modifies this
      ensures Life() == Emit(old(Life()), [UnderlyingRecoveryInvoked(connection.id)]) && error == recoverError
    {
      signals := signals + [UnderlyingRecoveryInvoked(connection.id)];
      error := recoverError;
    }
  }

  // ---------------------------------------------------------------------
  // Lemmas

  /** Recovery disposes the old producer before asking for a new one,
      swallows what the disposal throws, propagates what the recovery hook
      throws, and never changes the terminal flag, the cause or the gate. */
  lemma RecoverFacts(l: Lifecycle, connection: Connection, disposeError: Option<Exception>, recoverError: Option<Exception>)
    ensures var c := AfterRecover(l, connection, disposeError, recoverError);
      c == AfterRecover(l, connection, None, recoverError) &&
      c.error == recoverError &&
      c.state.closed == l.closed && c.state.cause == l.cause && c.state.gateOpen == l.gateOpen &&
      Extends(l, c.state) &&
      Emitted(l, c.state)[..2] == [UnderlyingDisposed, UnderlyingRecoveryInvoked(connection.id)] &&
      (Logged(RecoveredEntry) in Emitted(l, c.state) <==> recoverError.None?)
  {
    var c := AfterRecover(l, connection, disposeError, recoverError);
    assert Emitted(l, c.state) == [UnderlyingDisposed, UnderlyingRecoveryInvoked(connection.id)] +
      (if recoverError.None? then [Logged(RecoveredEntry)] else []);
  }

  /** Termination closes the producer with exactly the given cause and opens
      the gate, whatever the disposal hook does. */
  lemma TerminateFacts(l: Lifecycle, cause: Option<Exception>, disposeError: Option<Exception>)
    ensures var t := AfterTerminate(l, cause, disposeError);
      t == AfterTerminate(l, cause, None) &&
      t.closed && t.cause == cause && !Suspended(t) &&
      ClosedFailure(t) == Some(ProducerClosedException(cause))
  {
  }

  /** Disposal propagates the hook's exception, raises Closed exactly once
      when the hook succeeded and not at all otherwise, and does not close
      the producer. */
  lemma DisposeFacts(l: Lifecycle, disposeError: Option<Exception>)
    ensures var c := AfterDispose(l, disposeError);
      c.error == disposeError &&
      Extends(l, c.state) &&
      multiset(Emitted(l, c.state))[Closed] == (if disposeError.None? then 1 else 0) &&
      c.state.closed == l.closed && c.state.cause == l.cause && c.state.gateOpen == l.gateOpen
  {
    var c := AfterDispose(l, disposeError);
    assert Emitted(l, c.state) == [UnderlyingDisposed] + (if disposeError.None? then [Closed] else []);
  }

  lemma RecoverWellOrdered(l: Lifecycle, connection: Connection, d: Option<Exception>, e: Option<Exception>)
    ensures WellOrdered(l, AfterRecover(l, connection, d, e).state)
  {
    var l1 := Emit(l, [UnderlyingDisposed]);
    var l2 := Emit(l1, [UnderlyingRecoveryInvoked(connection.id)]);
    TransitionsWellOrdered(l, None, UnderlyingDisposed);
    TransitionsWellOrdered(l1, None, UnderlyingRecoveryInvoked(connection.id));
    WellOrderedTransitive(l, l1, l2);
    if e.None? {
      TransitionsWellOrdered(l2, None, Logged(RecoveredEntry));
      WellOrderedTransitive(l, l2, Emit(l2, [Logged(RecoveredEntry)]));
    }
  }

  lemma TerminateWellOrdered(l: Lifecycle, cause: Option<Exception>, d: Option<Exception>)
    ensures WellOrdered(l, AfterTerminate(l, cause, d))
  {
    var m := AfterMarkTerminated(l, cause);
    TransitionsWellOrdered(l, cause, UnderlyingDisposed);
    TransitionsWellOrdered(m, cause, UnderlyingDisposed);
    WellOrderedTransitive(l, m, Emit(m, [UnderlyingDisposed]));
  }

  lemma DisposeWellOrdered(l: Lifecycle, d: Option<Exception>)
    ensures WellOrdered(l, AfterDispose(l, d).state)
  {
    var l1 := Emit(l, [UnderlyingDisposed]);
    TransitionsWellOrdered(l, None, UnderlyingDisposed);
    if d.None? {
      TransitionsWellOrdered(l1, None, Closed);
      WellOrderedTransitive(l, l1, Emit(l1, [Closed]));
    }
  }

  lemma CallWellOrdered(l: Lifecycle, call: Call)
    ensures WellOrdered(l, ApplyCall(l, call))
    ensures !call.TerminateCall? ==> ApplyCall(l, call).closed == l.closed && ApplyCall(l, call).cause == l.cause
  {
    match call
    case SuspendCall =>
      TransitionsWellOrdered(l, None, GateSet);
    case ResumeCall =>
      TransitionsWellOrdered(l, None, GateSet);
    case LinkClosedCall =>
      TransitionsWellOrdered(l, None, GateSet);
    case RecoverCall(connection, d, e) =>
      RecoverWellOrdered(l, connection, d, e);
    case TerminateCall(cause, d) =>
      TerminateWellOrdered(l, cause, d);
    case DisposeCall(d) =>
      DisposeWellOrdered(l, d);
  }

  /** Over any sequence of calls the producer's trace stays faithful to its
      gate, and every recovery request it raised was raised while the gate
      was closed, that is after the suspension. */
  lemma {:induction false} CallsWellOrdered(l: Lifecycle, calls: seq<Call>)
    ensures WellOrdered(l, ApplyCalls(l, calls))
    decreases |calls|
  {
    if calls == [] {
      WellOrderedReflexive(l);
    } else {
      var t := ApplyCall(l, calls[0]);
      CallWellOrdered(l, calls[0]);
      CallsWellOrdered(t, calls[1..]);
      WellOrderedTransitive(l, t, ApplyCalls(l, calls));
    }
  }

  /** After any sequence of calls the closed check reports the cause of the
      last termination; with no termination, what it reported before.
      Recovery, a closed link, resumption and disposal never reopen a
      producer. */
  lemma {:induction false} TerminalDeterminism(l: Lifecycle, calls: seq<Call>)
    ensures match LastTermination(calls)
      case Some(cause) => ClosedFailure(ApplyCalls(l, calls)) == Some(ProducerClosedException(cause))
      case None => ClosedFailure(ApplyCalls(l, calls)) == ClosedFailure(l)
    decreases |calls|
  {
    if calls != [] {
      CallWellOrdered(l, calls[0]);
      TerminalDeterminism(ApplyCall(l, calls[0]), calls[1..]);
    }
  }
}
