/** The auto-recovering consumer: a wrapper around one underlying broker
    consumer that survives the loss of that consumer's link. Its state is the
    shared lifecycle (terminal flag, failure cause, suspension gate, trace),
    the configuration it was created from, and the underlying consumer it
    currently delegates to. */
module Consumer {
  import opened Types
  import opened Recoverable

  datatype ConsumerState = ConsumerState(
    config: ConsumerConfiguration,
    life: Lifecycle,
    underlying: Option<LiveConsumer>)

  /** A newly constructed consumer: no underlying consumer yet, gate open. */
  function Initial(config: ConsumerConfiguration): ConsumerState
  {
    ConsumerState(config, Fresh, None)
  }

  /** Configuration fidelity: the underlying consumer, when there is one, was
      created for exactly the configuration the wrapper holds. */
  predicate FaithfulToConfiguration(s: ConsumerState)
  {
    s.underlying.Some? ==> s.underlying.value.config == s.config
  }

  /** The terminal-state check: the exception a caller gets from a closed
      consumer, or None while it is not closed. */
  function ClosedFailure(s: ConsumerState): Option<Exception>
  {
    if s.life.closed then Some(ConsumerClosedException(s.life.cause)) else None
  }

  function Emit1(s: ConsumerState, signal: Signal): ConsumerState
  {
    s.(life := Emit(s.life, [signal]))
  }

  /** Dispose the underlying consumer, if there is one; `disposeError` is
      what its disposal throws, which propagates. */
  function AfterDisposeUnderlying(s: ConsumerState, disposeError: Option<Exception>): Completion<ConsumerState>
  {
    if s.underlying.Some? then Completion(disposeError, Emit1(s, UnderlyingDisposed))
    else Completion(None, s)
  }

  /** The same, with any exception of the disposal swallowed. */
  function AfterDisposeUnderlyingSafe(s: ConsumerState, disposeError: Option<Exception>): ConsumerState
  {
    AfterDisposeUnderlying(s, disposeError).state
  }

  /** Best-effort disposal of the old consumer, then a new one from the
      connection for the stored configuration. A refusal propagates and
      leaves the old reference in place. */
  function AfterRecover(s: ConsumerState, connection: Connection, disposeError: Option<Exception>): Completion<ConsumerState>
  {
    var t := AfterDisposeUnderlyingSafe(s, disposeError);
    match CreateConsumer(connection, s.config)
    case Success(h) => Completion(None, Emit1(t.(underlying := Some(h)), Logged(RecoveredEntry)))
    case Failure(e) => Completion(Some(e), t)
  }

  /** Close for good with `cause`, wake the waiters, dispose best-effort. */
  function AfterTerminate(s: ConsumerState, cause: Option<Exception>, disposeError: Option<Exception>): ConsumerState
  {
    AfterDisposeUnderlyingSafe(s.(life := AfterMarkTerminated(s.life, cause)), disposeError)
  }

  /** Dispose the underlying consumer (errors propagate), then raise Closed. */
  function AfterDispose(s: ConsumerState, disposeError: Option<Exception>): Completion<ConsumerState>
  {
    var c := AfterDisposeUnderlying(s, disposeError);
    if c.error.Some? then c else Completion(None, Emit1(c.state, Closed))
  }

  /** What a receive does when the underlying receive failed because its
      link closed, once its re-check found the consumer open: log the retry
      and suspend. */
  function AfterRetrySuspend(s: ConsumerState): ConsumerState
  {
    s.(life := AfterSuspend(Emit(s.life, [Logged(RetryingReceiveEntry)])))
  }

  /** The same, followed by the RecoveryRequested event. */
  function AfterLinkClosed(s: ConsumerState): ConsumerState
  {
    Emit1(AfterRetrySuspend(s), RecoveryRequested)
  }

  // ---------------------------------------------------------------------
  // Accept and reject: terminal check, then direct delegation.

  datatype Request =
    | AcceptRequest(message: Message, transaction: Option<Transaction>)
    | RejectRequest(message: Message, undeliverableHere: bool)

  /** Either the call failed before reaching any underlying consumer, or it
      was handed to `target`, whose exception (if any) propagates. */
  datatype Delegation =
    | Refused(error: Exception)
    | Delegated(target: LiveConsumer, request: Request, response: Option<Exception>)

  /** `response` is what the underlying consumer throws for the request, if
      it is reached. A missing underlying consumer is a null dereference. */
  function Delegate(s: ConsumerState, request: Request, response: Option<Exception>): Delegation
  {
    match ClosedFailure(s)
    case Some(e) => Refused(e)
    case None =>
      if s.underlying.None? then Refused(NullReferenceException)
      else Delegated(s.underlying.value, request, response)
  }

  // ---------------------------------------------------------------------
  // Everything that can happen while a receive is in progress.

  /** A call that another party (the connection recovering or terminating,
      the application disposing) makes into the consumer. Recover and dispose
      report their exceptions to that party, not to the receiver. */
  datatype Call =
    | SuspendCall
    | ResumeCall
    | RecoverCall(connection: Connection, disposeError: Option<Exception>)
    | TerminateCall(cause: Option<Exception>, disposeError: Option<Exception>)
    | DisposeCall(disposeError: Option<Exception>)

  function ApplyCall(s: ConsumerState, call: Call): ConsumerState
  {
    match call
    case SuspendCall => s.(life := AfterSuspend(s.life))
    case ResumeCall => s.(life := AfterResume(s.life))
    case RecoverCall(connection, d) => AfterRecover(s, connection, d).state
    case TerminateCall(cause, d) => AfterTerminate(s, cause, d)
    case DisposeCall(d) => AfterDispose(s, d).state
  }

  datatype ReceiveOutcome = Delivered(message: Message) | Raised(error: Exception)

  /** One step of the world around a pending receive: the underlying receive
      in flight completes; another party calls into the consumer; the
      caller's cancellation token is signalled; or the receive, having
      re-checked the terminal state after a link closure, carries on to
      suspend. An event that finds the receive elsewhere than where it
      applies has no effect. */
  datatype Event =
    | Completes(outcome: ReceiveOutcome)
    | Calls(call: Call)
    | Cancels
    | Advances

  /** Where the receive loop is: about to check state and start an
      underlying receive; waiting for that receive; past the re-check that
      follows a link closure but not yet suspended; or waiting on the gate. */
  datatype Phase = AtTop | Receiving | Rechecked | Waiting

  function Rank(p: Phase): nat
  {
    match p
    case Receiving => 0
    case Rechecked => 0
    case AtTop => 1
    case Waiting => 2
  }

  /** The receive's answer when the script ends first: Parked when it is
      blocked on the gate, Pending when it is anywhere else. */
  datatype ReceiveResult = Received(message: Message) | Failed(error: Exception) | Pending | Parked

  datatype Receipt = Receipt(result: ReceiveResult, state: ConsumerState)

  /** How the receive handles a link closure once its re-check passed.
      AsWritten suspends and requests recovery. Rechecking suspends, then
      checks the terminal state again: a termination that landed in between
      is answered by reopening the gate and failing with the closed
      exception. */
  datatype Handler = AsWritten | Rechecking

  /** The receive loop with handler `h`, from `phase`, with the token
      cancelled or not, against the events of `script` in order. */
  function Loop(h: Handler, s: ConsumerState, phase: Phase, cancelled: bool, script: seq<Event>): Receipt
    decreases |script|, Rank(phase)
  {
    match phase
    case AtTop =>
      if ClosedFailure(s).Some? then Receipt(Failed(ClosedFailure(s).value), s)
      else if s.underlying.None? then Receipt(Failed(NullReferenceException), s)
      else Loop(h, s, Receiving, cancelled, script)
    case Receiving =>
      if script == [] then Receipt(Pending, s)
      else
        (match script[0]
         case Cancels => Loop(h, s, Receiving, true, script[1..])
         case Calls(call) => Loop(h, ApplyCall(s, call), Receiving, cancelled, script[1..])
         case Advances => Loop(h, s, Receiving, cancelled, script[1..])
         case Completes(Delivered(m)) => Receipt(Received(m), s)
         case Completes(Raised(e)) =>
           if !e.ConsumerClosedException? then Receipt(Failed(e), s)
           else if ClosedFailure(s).Some? then Receipt(Failed(ClosedFailure(s).value), s)
           else Loop(h, s, Rechecked, cancelled, script[1..]))
    case Rechecked =>
      if script == [] then Receipt(Pending, s)
      else
        (match script[0]
         case Cancels => Loop(h, s, Rechecked, true, script[1..])
         case Calls(call) => Loop(h, ApplyCall(s, call), Rechecked, cancelled, script[1..])
         case Completes(_) => Loop(h, s, Rechecked, cancelled, script[1..])
         case Advances =>
           var t := AfterRetrySuspend(s);
           if h.Rechecking? && ClosedFailure(t).Some? then
             Receipt(Failed(ClosedFailure(t).value), t.(life := AfterResume(t.life)))
           else Loop(h, Emit1(t, RecoveryRequested), Waiting, cancelled, script[1..]))
    case Waiting =>
      match GateWait(s.life.gateOpen, cancelled)
      case Proceeds => Loop(h, s, AtTop, cancelled, script)
      case Cancelled => Receipt(Failed(OperationCanceledException), s)
      case Blocked =>
        if script == [] then Receipt(Parked, s)
        else
          (match script[0]
           case Cancels => Loop(h, s, Waiting, true, script[1..])
           case Calls(call) => Loop(h, ApplyCall(s, call), Waiting, cancelled, script[1..])
           case Completes(_) => Loop(h, s, Waiting, cancelled, script[1..])
           case Advances => Loop(h, s, Waiting, cancelled, script[1..]))
  }

  /** The receive loop as the consumer runs it. */
  function Run(s: ConsumerState, phase: Phase, cancelled: bool, script: seq<Event>): Receipt
  {
    Loop(AsWritten, s, phase, cancelled, script)
  }

  /** A receive call made with an uncancelled token. */
  function Receive(s: ConsumerState, script: seq<Event>): Receipt
  {
    Run(s, AtTop, false, script)
  }

  // ---------------------------------------------------------------------

  class AutoRecoveringConsumer {
    const configuration: ConsumerConfiguration
    var closed: bool
    var failureCause: Option<Exception>
    var gateOpen: bool
    var underlying: Option<LiveConsumer>
    ghost var signals: seq<Signal>

    ghost function Life(): Lifecycle
      reads this
    {
      Lifecycle(closed, failureCause, gateOpen, signals)
    }

    ghost function State(): ConsumerState
      reads this
    {
      ConsumerState(configuration, Life(), underlying)
    }

    ghost predicate Valid()
      reads this
    {
      FaithfulToConfiguration(State())
    }

    constructor (configuration: ConsumerConfiguration)
      ensures State() == Initial(configuration) && Valid()
      ensures !IsSuspended()
    {
      this.configuration := configuration;
      closed, failureCause, gateOpen, underlying := false, None, true, None;
      signals := [];
    }

    function IsSuspended(): (suspended: bool)
      reads this
      ensures suspended <==> Suspended(Life())
    {
      !gateOpen
    }

    method CheckState() returns (failure: Option<Exception>)
      ensures failure == ClosedFailure(State())
      ensures failure.None? <==> !closed
      ensures closed ==> failure == Some(ConsumerClosedException(failureCause))
    {
      if closed {
        if failureCause.Some? {
          failure := Some(ConsumerClosedException(failureCause));
        } else {
          failure := Some(ConsumerClosedException(None));
        }
      } else {
        failure := None;
      }
    }

    method Suspend()
      modifies this
      ensures Life() == AfterSuspend(old(Life())) && underlying == old(underlying)
    {
      var wasSuspended := IsSuspended();
      gateOpen := false;
      signals := signals + [GateReset];
      if !wasSuspended {
        signals := signals + [Logged(SuspendedEntry)];
      }
    }

    method Resume()
      modifies this
      ensures Life() == AfterResume(old(Life())) && underlying == old(underlying)
    {
      var wasSuspended := IsSuspended();
      gateOpen := true;
      signals := signals + [GateSet];
      if wasSuspended {
        signals := signals + [Logged(ResumedEntry)];
      }
    }

    method AcceptAsync(message: Message, transaction: Option<Transaction>, response: Option<Exception>)
      returns (r: Delegation)
      ensures r == Delegate(State(), AcceptRequest(message, transaction), response)
      ensures closed ==> r == Refused(ConsumerClosedException(failureCause))
    {
      var failure := CheckState();
      if failure.Some? {
        return Refused(failure.value);
      }
      if underlying.None? {
        return Refused(NullReferenceException);
      }
      r := Delegated(underlying.value, AcceptRequest(message, transaction), response);
    }

    method Reject(message: Message, undeliverableHere: bool, response: Option<Exception>)
      returns (r: Delegation)
      ensures r == Delegate(State(), RejectRequest(message, undeliverableHere), response)
      ensures closed ==> r == Refused(ConsumerClosedException(failureCause))
    {
      var failure := CheckState();
      if failure.Some? {
        return Refused(failure.value);
      }
      if underlying.None? {
        return Refused(NullReferenceException);
      }
      r := Delegated(underlying.value, RejectRequest(message, undeliverableHere), response);
    }

    method DisposeUnderlyingConsumer(disposeError: Option<Exception>) returns (error: Option<Exception>)
      modifies this
      ensures Completion(error, State()) == AfterDisposeUnderlying(old(State()), disposeError)
    {
      if underlying.Some? {
        signals := signals + [UnderlyingDisposed];
        error := disposeError;
      } else {
        error := None;
      }
    }

    method DisposeUnderlyingConsumerSafe(disposeError: Option<Exception>)
      modifies this
      ensures State() == AfterDisposeUnderlyingSafe(old(State()), disposeError)
    {
      var ignored := DisposeUnderlyingConsumer(disposeError);
    }

    method RecoverAsync(connection: Connection, disposeError: Option<Exception>) returns (error: Option<Exception>)
      requires Valid()
      modifies this
      ensures Completion(error, State()) == AfterRecover(old(State()), connection, disposeError)
      ensures Valid()
      ensures closed == old(closed) && failureCause == old(failureCause) && gateOpen == old(gateOpen)
    {
      DisposeUnderlyingConsumerSafe(disposeError);
      var created := CreateConsumer(connection, configuration);
      match created
      case Success(h) =>
        underlying := Some(h);
        signals := signals + [Logged(RecoveredEntry)];
        error := None;
      case Failure(e) =>
        error := Some(e);
    }

    method TerminateAsync(cause: Option<Exception>, disposeError: Option<Exception>)
      requires Valid()
      modifies this
      ensures State() == AfterTerminate(old(State()), cause, disposeError)
      ensures Valid()
      ensures closed && failureCause == cause && gateOpen && underlying == old(underlying)
    {
      closed := true;
      failureCause := cause;
      gateOpen := true;
      signals := signals + [GateSet];
      DisposeUnderlyingConsumerSafe(disposeError);
    }

    method DisposeAsync(disposeError: Option<Exception>) returns (error: Option<Exception>)
      requires Valid()
      modifies this
      ensures Completion(error, State()) == AfterDispose(old(State()), disposeError)
      ensures Valid()
      ensures closed == old(closed) && failureCause == old(failureCause) && gateOpen == old(gateOpen)
    {
      error := DisposeUnderlyingConsumer(disposeError);
      if error.None? {
        signals := signals + [Closed];
      }
    }

    /** Another party's call, taking effect while a receive is pending. */
    method Interleave(call: Call)
      requires Valid()
      modifies this
      ensures State() == ApplyCall(old(State()), call) && Valid()
    {
      match call
      case SuspendCall => Suspend();
      case ResumeCall => Resume();
      case RecoverCall(connection, d) => var ignored := RecoverAsync(connection, d);
      case TerminateCall(cause, d) => TerminateAsync(cause, d);
      case DisposeCall(d) => var ignored := DisposeAsync(d);
    }

    /** The receive loop against the events of `script`: check the terminal
        state, receive from the underlying consumer, and on a link closure
        re-check, then log, suspend, request recovery, wait on the gate and
        retry. */
    method ReceiveAsync(script: seq<Event>) returns (r: ReceiveResult)
      requires Valid()
      modifies this
      ensures Receipt(r, State()) == Receive(old(State()), script)
      ensures Valid()
    {
      ghost var goal := Receive(State(), script);
      var i, phase, cancelled := 0, AtTop, false;
      while true
        invariant 0 <= i <= |script|
        invariant Valid()
        invariant Run(State(), phase, cancelled, script[i..]) == goal
        decreases |script| - i, Rank(phase)
      {
        match phase
        case AtTop =>
          var failure := CheckState();
          if failure.Some? {
            return Failed(failure.value);
          }
          if underlying.None? {
            return Failed(NullReferenceException);
          }
          phase := Receiving;
        case Receiving =>
          if i == |script| {
            return Pending;
          }
          var event := script[i];
          assert script[i..][0] == event && script[i..][1..] == script[i + 1..];
          i := i + 1;
          match event {
            case Cancels =>
              cancelled := true;
            case Calls(call) =>
              Interleave(call);
            case Advances =>
            case Completes(Delivered(m)) =>
              return Received(m);
            case Completes(Raised(e)) =>
              if !e.ConsumerClosedException? {
                return Failed(e);
              }
              var failure := CheckState();
              if failure.Some? {
                return Failed(failure.value);
              }
              phase := Rechecked;
          }
        case Rechecked =>
          if i == |script| {
            return Pending;
          }
          var event := script[i];
          assert script[i..][0] == event && script[i..][1..] == script[i + 1..];
          i := i + 1;
          match event {
            case Cancels =>
              cancelled := true;
            case Calls(call) =>
              Interleave(call);
            case Completes(_) =>
            case Advances =>
              signals := signals + [Logged(RetryingReceiveEntry)];
              Suspend();
              signals := signals + [RecoveryRequested];
              phase := Waiting;
          }
        case Waiting =>
          var wait := GateWait(gateOpen, cancelled);
          if wait == Proceeds {
            phase := AtTop;
          } else if wait == Cancelled {
            return Failed(OperationCanceledException);
          } else {
            if i == |script| {
              return Parked;
            }
            var event := script[i];
            assert script[i..][0] == event && script[i..][1..] == script[i + 1..];
            i := i + 1;
            match event {
              case Cancels =>
                cancelled := true;
              case Calls(call) =>
                Interleave(call);
              case Completes(_) =>
              case Advances =>
            }
          }
      }
    }
  }
}
