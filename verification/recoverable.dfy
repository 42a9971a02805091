/** The state and transitions that every recoverable resource shares: the
    terminal flag, the recorded failure cause, the suspension gate (an
    asynchronous manual-reset event, open while the resource is usable) and
    a ghost trace of what the resource did that an observer could see: gate
    operations, log entries and raised events. */
module Recoverable {
  import opened Types

  datatype LogEntry = SuspendedEntry | ResumedEntry | RecoveredEntry | RetryingReceiveEntry

  datatype Signal =
    | GateReset                                 // the gate was reset (closed)
    | GateSet                                   // the gate was set (opened)
    | Logged(entry: LogEntry)                   // a trace-level log entry was written
    | RecoveryRequested                         // the RecoveryRequested event was raised
    | Closed                                    // the Closed event was raised with this resource
    | UnderlyingDisposed                        // disposal of the underlying link was started
    | UnderlyingRecoveryInvoked(connection: nat) // the subclass was asked to recreate its link

  datatype Lifecycle = Lifecycle(closed: bool, cause: Option<Exception>, gateOpen: bool, signals: seq<Signal>)

  /** A newly constructed resource: not closed, no cause, gate open. */
  const Fresh: Lifecycle := Lifecycle(false, None, true, [])

  function Emit(l: Lifecycle, more: seq<Signal>): Lifecycle
  {
    l.(signals := l.signals + more)
  }

  /** Suspend: reset the gate; log only when it was open before. */
  function AfterSuspend(l: Lifecycle): Lifecycle
  {
    Emit(l, [GateReset] + (if l.gateOpen then [Logged(SuspendedEntry)] else [])).(gateOpen := false)
  }

  /** Resume: set the gate; log only when it was closed before. */
  function AfterResume(l: Lifecycle): Lifecycle
  {
    Emit(l, [GateSet] + (if !l.gateOpen then [Logged(ResumedEntry)] else [])).(gateOpen := true)
  }

  /** Suspend, then raise RecoveryRequested. */
  function AfterRequestRecovery(l: Lifecycle): Lifecycle
  {
    Emit(AfterSuspend(l), [RecoveryRequested])
  }

  /** The field updates of termination: closed, cause recorded, gate set
      (without the "resumed" log, since the gate is set directly). */
  function AfterMarkTerminated(l: Lifecycle, cause: Option<Exception>): Lifecycle
  {
    Emit(l, [GateSet]).(closed := true, cause := cause, gateOpen := true)
  }

  /** Waiting on the gate with a cancellation token: an open gate lets the
      waiter through at once, even if the token is cancelled; a closed gate
      fails a cancelled waiter and blocks any other. */
  datatype WaitOutcome = Proceeds | Cancelled | Blocked

  function GateWait(gateOpen: bool, cancelled: bool): (w: WaitOutcome)
  {
    if gateOpen then Proceeds else if cancelled then Cancelled else Blocked
  }

  /** True when the resource's gate would block a waiter whose token is not
      cancelled. */
  predicate Suspended(l: Lifecycle)
  {
    GateWait(l.gateOpen, false) == Blocked
  }

  // ---------------------------------------------------------------------
  // Reading the trace back: replaying the gate operations it records.

  function GateEffect(open: bool, s: Signal): bool
  {
    match s
    case GateSet => true
    case GateReset => false
    case _ => open
  }

  /** The gate state after replaying `trace` from `open`. */
  function GateAfter(open: bool, trace: seq<Signal>): bool
    decreases |trace|
  {
    if trace == [] then open else GateAfter(GateEffect(open, trace[0]), trace[1..])
  }

  /** Replaying `trace` from `open`, every RecoveryRequested is met while the
      gate is closed. */
  predicate RequestsWhileSuspended(open: bool, trace: seq<Signal>)
    decreases |trace|
  {
    trace == [] ||
    ((trace[0] == RecoveryRequested ==> !open) &&
     RequestsWhileSuspended(GateEffect(open, trace[0]), trace[1..]))
  }

  /** `t` is `l` with signals appended. */
  predicate Extends(l: Lifecycle, t: Lifecycle)
  {
    |l.signals| <= |t.signals| && t.signals[..|l.signals|] == l.signals
  }

  function Emitted(l: Lifecycle, t: Lifecycle): seq<Signal>
    requires Extends(l, t)
  {
    t.signals[|l.signals|..]
  }

  /** `t` follows `l` by appending to the trace; the gate state of `t` is
      the replay of the gate operations appended; and every recovery
      request appended was raised while the gate was closed. */
  predicate WellOrdered(l: Lifecycle, t: Lifecycle)
  {
    Extends(l, t) &&
    GateAfter(l.gateOpen, Emitted(l, t)) == t.gateOpen &&
    RequestsWhileSuspended(l.gateOpen, Emitted(l, t))
  }

  /** A signal that neither touches the gate nor requests recovery. */
  predicate Neutral(s: Signal)
  {
    !s.GateSet? && !s.GateReset? && !s.RecoveryRequested?
  }

  // ---------------------------------------------------------------------
  // Lemmas

  lemma {:induction false} GateAfterConcat(open: bool, a: seq<Signal>, b: seq<Signal>)
    ensures GateAfter(open, a + b) == GateAfter(GateAfter(open, a), b)
    decreases |a|
  {
    if a == [] {
      assert a + b == b;
    } else {
      assert (a + b)[0] == a[0];
      assert (a + b)[1..] == a[1..] + b;
      GateAfterConcat(GateEffect(open, a[0]), a[1..], b);
    }
  }

  lemma {:induction false} RequestsConcat(open: bool, a: seq<Signal>, b: seq<Signal>)
    ensures RequestsWhileSuspended(open, a + b) <==>
            RequestsWhileSuspended(open, a) && RequestsWhileSuspended(GateAfter(open, a), b)
    decreases |a|
  {
    if a == [] {
      assert a + b == b;
    } else {
      assert (a + b)[0] == a[0];
      assert (a + b)[1..] == a[1..] + b;
      RequestsConcat(GateEffect(open, a[0]), a[1..], b);
    }
  }

  /** A gate operation followed by at most one neutral signal. */
  lemma GateThenNeutral(open: bool, g: Signal, tail: seq<Signal>)
    requires g.GateSet? || g.GateReset?
    requires |tail| <= 1 && forall k :: 0 <= k < |tail| ==> Neutral(tail[k])
    ensures GateAfter(open, [g] + tail) == g.GateSet?
    ensures RequestsWhileSuspended(open, [g] + tail)
  {
    var o := GateEffect(open, g);
    assert o == g.GateSet?;
    assert ([g] + tail)[0] == g && ([g] + tail)[1..] == tail;
    assert GateAfter(open, [g] + tail) == GateAfter(o, tail);
    if tail != [] {
      assert Neutral(tail[0]);
      assert GateEffect(o, tail[0]) == o;
      assert tail[1..] == [];
      assert GateAfter(o, tail) == GateAfter(o, []);
    }
  }

  /** Well-ordered steps compose. */
  lemma WellOrderedTransitive(a: Lifecycle, b: Lifecycle, c: Lifecycle)
    requires WellOrdered(a, b) && WellOrdered(b, c)
    ensures WellOrdered(a, c)
  {
    var e1, e2 := Emitted(a, b), Emitted(b, c);
    assert c.signals == a.signals + e1 + e2 by {
      assert b.signals == b.signals[..|a.signals|] + b.signals[|a.signals|..];
      assert c.signals == c.signals[..|b.signals|] + c.signals[|b.signals|..];
    }
    assert Emitted(a, c) == e1 + e2;
    GateAfterConcat(a.gateOpen, e1, e2);
    RequestsConcat(a.gateOpen, e1, e2);
  }

  lemma WellOrderedReflexive(l: Lifecycle)
    ensures WellOrdered(l, l)
  {
    assert Emitted(l, l) == [];
  }

  /** Every shared transition keeps the trace faithful to the gate, and in
      particular a recovery request is only ever raised after the gate was
      reset. */
  lemma TransitionsWellOrdered(l: Lifecycle, cause: Option<Exception>, s: Signal)
    ensures WellOrdered(l, AfterSuspend(l))
    ensures WellOrdered(l, AfterResume(l))
    ensures WellOrdered(l, AfterRequestRecovery(l))
    ensures WellOrdered(l, AfterMarkTerminated(l, cause))
    ensures Neutral(s) ==> WellOrdered(l, Emit(l, [s]))
  {
    GateThenNeutral(l.gateOpen, GateReset, if l.gateOpen then [Logged(SuspendedEntry)] else []);
    assert Emitted(l, AfterSuspend(l)) == [GateReset] + (if l.gateOpen then [Logged(SuspendedEntry)] else []);
    GateThenNeutral(l.gateOpen, GateSet, if !l.gateOpen then [Logged(ResumedEntry)] else []);
    assert Emitted(l, AfterResume(l)) == [GateSet] + (if !l.gateOpen then [Logged(ResumedEntry)] else []);
    GateThenNeutral(l.gateOpen, GateSet, []);
    assert Emitted(l, AfterMarkTerminated(l, cause)) == [GateSet] + [];
    assert Emitted(l, Emit(l, [s])) == [s];
    var t := AfterSuspend(l);
    assert WellOrdered(l, t);
    assert WellOrdered(t, AfterRequestRecovery(l)) by {
      assert Emitted(t, AfterRequestRecovery(l)) == [RecoveryRequested];
    }
    WellOrderedTransitive(l, t, AfterRequestRecovery(l));
  }

  /** Suspend leaves the gate closed, touches nothing else, and logs exactly
      when the gate was open; a second Suspend changes only the trace, by a
      bare gate reset. */
  lemma SuspendProperties(l: Lifecycle)
    ensures Suspended(AfterSuspend(l))
    ensures AfterSuspend(l).closed == l.closed && AfterSuspend(l).cause == l.cause
    ensures Logged(SuspendedEntry) in Emitted(l, AfterSuspend(l)) <==> !Suspended(l)
    ensures AfterSuspend(AfterSuspend(l)) == Emit(AfterSuspend(l), [GateReset])
  {
    assert Emitted(l, AfterSuspend(l)) == [GateReset] + (if l.gateOpen then [Logged(SuspendedEntry)] else []);
  }

  /** Resume leaves the gate open, touches nothing else, and logs exactly
      when the gate was closed; a second Resume changes only the trace, by a
      bare gate set. */
  lemma ResumeProperties(l: Lifecycle)
    ensures !Suspended(AfterResume(l))
    ensures AfterResume(l).closed == l.closed && AfterResume(l).cause == l.cause
    ensures Logged(ResumedEntry) in Emitted(l, AfterResume(l)) <==> Suspended(l)
    ensures AfterResume(AfterResume(l)) == Emit(AfterResume(l), [GateSet])
  {
    assert Emitted(l, AfterResume(l)) == [GateSet] + (if !l.gateOpen then [Logged(ResumedEntry)] else []);
  }

  /** Requesting recovery leaves the gate closed, and the gate reset comes
      strictly before the RecoveryRequested event in the trace. */
  lemma RequestRecoveryOrder(l: Lifecycle)
    ensures Suspended(AfterRequestRecovery(l))
    ensures AfterRequestRecovery(l).closed == l.closed && AfterRequestRecovery(l).cause == l.cause
    ensures var e := Emitted(l, AfterRequestRecovery(l));
            |e| >= 2 && e[0] == GateReset && e[|e| - 1] == RecoveryRequested &&
            RecoveryRequested !in e[..|e| - 1]
  {
    var e := Emitted(l, AfterRequestRecovery(l));
    assert e == [GateReset] + (if l.gateOpen then [Logged(SuspendedEntry)] else []) + [RecoveryRequested];
  }

  /** After termination the resource is closed with exactly the given cause
      and the gate is open, so every waiter proceeds, cancelled or not. */
  lemma MarkTerminatedWakesWaiters(l: Lifecycle, cause: Option<Exception>, cancelled: bool)
    ensures AfterMarkTerminated(l, cause).closed
    ensures AfterMarkTerminated(l, cause).cause == cause
    ensures GateWait(AfterMarkTerminated(l, cause).gateOpen, cancelled) == Proceeds
  {
  }
}
