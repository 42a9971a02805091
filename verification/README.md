# Auto-recovering consumer and producer of the ActiveMQ Artemis .NET client

This project models the auto-recovery core of the ActiveMQ Artemis .NET
client in Dafny. It covers the consumer wrapper `AutoRecoveringConsumer` and
the base class of the auto-recovering producers, `AutoRecoveringProducerBase`.
Both are small state machines over the same fields:

- a terminal flag and an optional failure cause;
- a suspension gate (an asynchronous manual-reset event, created open);
- for the consumer only, the replaceable underlying broker consumer and the
  immutable configuration it is recreated from.

Their operations are suspend, resume, recover, terminate and dispose. The
consumer also has a receive loop that rides out link closures, and accept
and reject operations that delegate directly.

Files:

- `types.dfy` (module `Types`): exceptions, configuration, and the broker
  connection as an oracle. `CreateConsumer` either attaches a consumer for
  exactly the requested configuration or returns the broker's refusal.
- `recoverable.dfy` (module `Recoverable`): the shared `Lifecycle`
  (terminal flag, cause, gate and a ghost trace of observable signals). It
  holds the shared transitions, the gate wait, and a replay of the trace that
  defines when a trace is well ordered.
- `consumer.dfy` (module `Consumer`): the consumer's specification
  functions, including the receive loop `Run`. It also holds the class
  `AutoRecoveringConsumer`, whose methods are proved to follow those
  functions.
- `consumer_proofs.dfy` (module `ConsumerProofs`): what the consumer
  guarantees, proved about the specification functions.
- `producer.dfy` (module `Producer`): the class
  `AutoRecoveringProducerBase`, its specification functions and its lemmas.

How the model represents things the source does not compute itself:

- Log entries and raised events (`Closed`, `RecoveryRequested`) are
  appended to the ghost trace `signals`.
- Concurrency during a pending receive is a finite script of events:
  - the underlying receive completes with a message or an exception;
  - another party calls into the consumer;
  - the caller's token is cancelled;
  - the receive, past the re-check that follows a link closure, carries on
    to suspend (`Advances`).

  Calls can therefore land while the underlying receive is in flight, while
  the receive waits on the gate, and in the window between that re-check
  and the suspension. When the script ends first, a receive blocked on the
  gate returns `Parked` and one blocked anywhere else returns `Pending`.
- What the underlying consumer or producer throws is a parameter of the
  operation. These are the disposal error, the recovery hook's error and the
  response of an accept or reject.

Where the code behaves differently than one might expect, the model follows the code:

- Accept and reject only check the terminal state and delegate. They do not
  wait on the gate.
- A failed consumer recovery keeps the old, already-disposed reference. The
  consumer's `DisposeAsync` does not swallow the disposal's exception, does
  not raise `Closed` when that disposal throws, and never sets the terminal
  flag.
- Every link closure seen by a receive raises `RecoveryRequested` again,
  even when the consumer is already suspended.
- A receive does not wait on the gate before its first underlying receive.
  A receive that starts while the consumer is suspended goes straight to the
  current, possibly disposed, underlying consumer. Whatever that consumer
  throws, other than the closed exception, reaches the caller.
- A consumer that has never been recovered has no underlying consumer. A
  receive, accept or reject on it dereferences null, modelled as
  `NullReferenceException`.

## Model

| member | source | states |
|---|---|---|
| Consumer.AutoRecoveringConsumer.constructor | src/ActiveMQ.Artemis.Client/AutoRecovering/AutoRecoveringConsumer.cs:14-24 | A new consumer holds the given configuration, is not closed, has no cause and no underlying consumer, and its gate is open, so it is not suspended |
| Consumer.AutoRecoveringConsumer.IsSuspended | src/ActiveMQ.Artemis.Client/AutoRecovering/AutoRecoveringConsumer.cs:100-103 | Suspended exactly when a waiter whose token is not cancelled would block on the gate |
| Consumer.AutoRecoveringConsumer.CheckState | src/ActiveMQ.Artemis.Client/AutoRecovering/AutoRecoveringConsumer.cs:63-76 | No failure while not closed. Once closed, the failure is a ConsumerClosedException wrapping the recorded cause, or the plain one when there is no cause |
| Consumer.AutoRecoveringConsumer.Suspend | src/ActiveMQ.Artemis.Client/AutoRecovering/AutoRecoveringConsumer.cs:78-87 | The gate ends closed, the "suspended" entry is logged only if the gate was open, and the underlying consumer is untouched |
| Consumer.AutoRecoveringConsumer.Resume | src/ActiveMQ.Artemis.Client/AutoRecovering/AutoRecoveringConsumer.cs:89-98 | The gate ends open, the "resumed" entry is logged only if the gate was closed, and the underlying consumer is untouched |
| Consumer.AutoRecoveringConsumer.AcceptAsync | src/ActiveMQ.Artemis.Client/AutoRecovering/AutoRecoveringConsumer.cs:49-54 | A closed consumer refuses with the closed exception wrapping its cause, without reaching an underlying consumer. Otherwise the message and transaction go unchanged to the current underlying consumer, and its exception propagates. The cancellation token is not modelled |
| Consumer.AutoRecoveringConsumer.Reject | src/ActiveMQ.Artemis.Client/AutoRecovering/AutoRecoveringConsumer.cs:56-61 | Same rule as accept, for a rejection with its undeliverable-here flag |
| Consumer.AutoRecoveringConsumer.DisposeUnderlyingConsumer | src/ActiveMQ.Artemis.Client/AutoRecovering/AutoRecoveringConsumer.cs:138-144 | Nothing happens when there is no underlying consumer. Otherwise its disposal is recorded and its exception propagates |
| Consumer.AutoRecoveringConsumer.DisposeUnderlyingConsumerSafe | src/ActiveMQ.Artemis.Client/AutoRecovering/AutoRecoveringConsumer.cs:120-130 | Same effect as the disposal, with its exception swallowed |
| Consumer.AutoRecoveringConsumer.RecoverAsync | src/ActiveMQ.Artemis.Client/AutoRecovering/AutoRecoveringConsumer.cs:105-110 | Follows AfterRecover. Flag, cause and gate are unchanged, and the underlying consumer stays faithful to the configuration |
| Consumer.AutoRecoveringConsumer.TerminateAsync | src/ActiveMQ.Artemis.Client/AutoRecovering/AutoRecoveringConsumer.cs:112-118 | Follows AfterTerminate: closed, cause recorded, gate open, underlying reference kept, configuration fidelity kept |
| Consumer.AutoRecoveringConsumer.DisposeAsync | src/ActiveMQ.Artemis.Client/AutoRecovering/AutoRecoveringConsumer.cs:132-136 | Follows AfterDispose. Flag, cause and gate are unchanged |
| Consumer.AutoRecoveringConsumer.ReceiveAsync | src/ActiveMQ.Artemis.Client/AutoRecovering/AutoRecoveringConsumer.cs:26-47 | The loop's result and final state are those of the specification Receive applied to the initial state and the script. Configuration fidelity is preserved |
| ConsumerProofs.RecoverFacts | src/ActiveMQ.Artemis.Client/AutoRecovering/AutoRecoveringConsumer.cs:105-110 | The disposal's error makes no difference, and flag, cause, gate and configuration are unchanged. Recovery succeeds exactly when the broker does not refuse the configuration, and then installs a consumer on the new connection for that configuration. Otherwise the refusal propagates and the old reference stays |
| ConsumerProofs.TerminateFacts | src/ActiveMQ.Artemis.Client/AutoRecovering/AutoRecoveringConsumer.cs:112-118 | Whatever the disposal throws, the consumer ends closed with exactly the given cause, not suspended, with the same underlying reference, and its check fails with the cause wrapped |
| ConsumerProofs.DisposeFacts | src/ActiveMQ.Artemis.Client/AutoRecovering/AutoRecoveringConsumer.cs:132-144 | The error is the disposal's (none without an underlying consumer). Closed is raised exactly once if there is no error and never otherwise. Flag, cause, gate and reference are unchanged |
| ConsumerProofs.ClosedDelegationRefused | src/ActiveMQ.Artemis.Client/AutoRecovering/AutoRecoveringConsumer.cs:49-61 | A closed consumer refuses accept and reject with the closed exception wrapping its cause |
| ConsumerProofs.CallFacts | src/ActiveMQ.Artemis.Client/AutoRecovering/AutoRecoveringConsumer.cs:78-136 | Every outside call keeps the configuration and its fidelity, keeps the trace well ordered, and never reopens a closed consumer. Only termination changes flag or cause |
| ConsumerProofs.LinkClosedWellOrdered | src/ActiveMQ.Artemis.Client/AutoRecovering/AutoRecoveringConsumer.cs:36-45 | Handling a link closure leaves the consumer suspended and still open, and the trace gets the gate reset before the recovery request |
| ConsumerProofs.RunFacts | src/ActiveMQ.Artemis.Client/AutoRecovering/AutoRecoveringConsumer.cs:26-47 | Over any script a receive keeps the configuration and its fidelity, never reopens a closed consumer, and leaves a well-ordered trace: every RecoveryRequested comes after a gate reset, with steps atomic as stated under Left out |
| ConsumerProofs.ReceivedFromUnderlying | src/ActiveMQ.Artemis.Client/AutoRecovering/AutoRecoveringConsumer.cs:34 | A message a receive returns is one the underlying consumer delivered, unchanged |
| ConsumerProofs.ReceiveFailures | src/ActiveMQ.Artemis.Client/AutoRecovering/AutoRecoveringConsumer.cs:26-47 | A closed exception reaches the caller only as the terminal error of a closed consumer, wrapping its cause; a link closure never does. Any other failure is one of three: an underlying exception passed on unchanged, a cancellation of a cancelled token, or a null dereference with no underlying consumer |
| ConsumerProofs.UnderlyingOutcomePropagates | src/ActiveMQ.Artemis.Client/AutoRecovering/AutoRecoveringConsumer.cs:34 | Whatever follows in the script, a message the in-flight underlying receive delivers is returned unchanged, and an exception it raises other than the closed exception is raised unchanged. The consumer's state is untouched in both cases |
| ConsumerProofs.TerminationDuringReceive | src/ActiveMQ.Artemis.Client/AutoRecovering/AutoRecoveringConsumer.cs:36-38 | When a termination lands while the underlying receive is in flight and that receive then fails with the closed exception, the re-check fails the receive with the closed exception wrapping the termination's cause. It does not suspend and does not raise RecoveryRequested, and the state is exactly the terminated one |
| ConsumerProofs.BlockedUntilOpened | src/ActiveMQ.Artemis.Client/AutoRecovering/AutoRecoveringConsumer.cs:44 | A receive waiting on a closed gate stays parked until a resume, a termination or a cancellation arrives, whatever else happens. It retries only after the gate opens, and the flag, cause and closed gate are unchanged meanwhile |
| ConsumerProofs.LostWakeUp | src/ActiveMQ.Artemis.Client/AutoRecovering/AutoRecoveringConsumer.cs:36-44 | A termination can land between the re-check and the suspension. The suspension then closes the gate the termination opened, and the receive stays parked on a terminated consumer with a closed gate |
| ConsumerProofs.RecheckingKeepsTerminatedAwake | src/ActiveMQ.Artemis.Client/AutoRecovering/AutoRecoveringConsumer.cs:36-44 | With the terminal check repeated after the suspension, no receive leaves a terminated consumer with a closed gate and none stays parked on one, wherever the calls land, as long as no one else suspends it |
| ConsumerProofs.RecheckingAnswersLateTermination | src/ActiveMQ.Artemis.Client/AutoRecovering/AutoRecoveringConsumer.cs:36-44 | With the repeated check, the interleaving that loses the wake-up instead reopens the gate and fails with the closed exception wrapping the termination's cause |
| ConsumerProofs.ClosedReceiveFailsFast | src/ActiveMQ.Artemis.Client/AutoRecovering/AutoRecoveringConsumer.cs:28-30 | On a closed consumer a receive fails at once with the closed exception wrapping the cause, and the state is unchanged |
| ConsumerProofs.TerminationWakesBlockedReceive | src/ActiveMQ.Artemis.Client/AutoRecovering/AutoRecoveringConsumer.cs:112-118 | A receive blocked on the gate is woken by termination and fails with the closed exception wrapping the termination cause |
| ConsumerProofs.OneCycle | src/ActiveMQ.Artemis.Client/AutoRecovering/AutoRecoveringConsumer.cs:36-45 | A link closure, then a successful recovery and a resume, bring a pending receive back to the top of its loop. The consumer is still open and attached to the new connection for the same configuration |
| ConsumerProofs.ReceiveRidesOutRecoveries | src/ActiveMQ.Artemis.Client/AutoRecovering/AutoRecoveringConsumer.cs:26-47 | Across any number of closure, recovery and resume cycles, a pending receive returns the next delivered message without an error |
| ConsumerProofs.RefusedRecoveryFailsPendingReceive | src/ActiveMQ.Artemis.Client/AutoRecovering/AutoRecoveringConsumer.cs:105-118 | The broker refuses recovery and the consumer is terminated with that refusal as cause. The waiting receive then fails with the closed exception wrapping exactly that cause |
| ConsumerProofs.TerminalDeterminism | src/ActiveMQ.Artemis.Client/AutoRecovering/AutoRecoveringConsumer.cs:112-118 | After any calls, the terminal check reports the cause of the last termination, or what it reported before if there was none |
| ConsumerProofs.TerminatedConsumerFailsFast | src/ActiveMQ.Artemis.Client/AutoRecovering/AutoRecoveringConsumer.cs:26-61 | Once terminated, whatever calls follow, receive, accept and reject all fail at once with the closed exception wrapping the last termination's cause |
| Recoverable.TransitionsWellOrdered | src/ActiveMQ.Artemis.Client/AutoRecovering/AutoRecoveringConsumer.cs:78-98 | Suspend, resume, request-recovery, terminate and neutral signals keep the gate's replay equal to its state. A recovery request is only raised with the gate closed |
| Recoverable.SuspendProperties | src/ActiveMQ.Artemis.Client/AutoRecovering/AutoRecoveringConsumer.cs:78-87 | Suspend leaves the gate closed and flag and cause alone. It logs exactly when the gate was open, and a second suspend only adds a bare gate reset |
| Recoverable.ResumeProperties | src/ActiveMQ.Artemis.Client/AutoRecovering/AutoRecoveringConsumer.cs:89-98 | Resume leaves the gate open and flag and cause alone. It logs exactly when the gate was closed, and a second resume only adds a bare gate set |
| Recoverable.RequestRecoveryOrder | src/ActiveMQ.Artemis.Client/AutoRecovering/AutoRecoveringProducerBase.cs:45-49 | After requesting recovery the gate is closed. The emitted trace starts with the gate reset and ends with the only RecoveryRequested |
| Recoverable.MarkTerminatedWakesWaiters | src/ActiveMQ.Artemis.Client/AutoRecovering/AutoRecoveringProducerBase.cs:75-79 | Termination leaves the resource closed with exactly the given cause and lets every waiter through, cancelled or not |
| Producer.AutoRecoveringProducerBase.constructor | src/ActiveMQ.Artemis.Client/AutoRecovering/AutoRecoveringProducerBase.cs:13-20 | A new producer is not closed, has no cause, its gate is open and it is not suspended |
| Producer.AutoRecoveringProducerBase.Resume | src/ActiveMQ.Artemis.Client/AutoRecovering/AutoRecoveringProducerBase.cs:22-31 | The gate ends open, logging only on a closed-to-open change |
| Producer.AutoRecoveringProducerBase.IsSuspended | src/ActiveMQ.Artemis.Client/AutoRecovering/AutoRecoveringProducerBase.cs:33-36 | Suspended exactly when an uncancelled waiter would block on the gate |
| Producer.AutoRecoveringProducerBase.RecoverAsync | src/ActiveMQ.Artemis.Client/AutoRecovering/AutoRecoveringProducerBase.cs:38-43 | Best-effort disposal, then the recovery hook with the connection. The hook's error propagates, and flag, cause and gate are unchanged |
| Producer.AutoRecoveringProducerBase.HandleProducerClosed | src/ActiveMQ.Artemis.Client/AutoRecovering/AutoRecoveringProducerBase.cs:45-49 | Suspends and then raises RecoveryRequested. The producer ends suspended, and flag and cause are unchanged |
| Producer.AutoRecoveringProducerBase.Suspend | src/ActiveMQ.Artemis.Client/AutoRecovering/AutoRecoveringProducerBase.cs:51-60 | The gate ends closed, logging only on an open-to-closed change |
| Producer.AutoRecoveringProducerBase.Wait | src/ActiveMQ.Artemis.Client/AutoRecovering/AutoRecoveringProducerBase.cs:62-70 | A waiter proceeds exactly when not suspended, and is cancelled exactly when suspended with its token cancelled |
| Producer.AutoRecoveringProducerBase.TerminateAsync | src/ActiveMQ.Artemis.Client/AutoRecovering/AutoRecoveringProducerBase.cs:75-81 | Closed with the given cause, gate open, disposal attempted best-effort |
| Producer.AutoRecoveringProducerBase.DisposeAsync | src/ActiveMQ.Artemis.Client/AutoRecovering/AutoRecoveringProducerBase.cs:83-87 | The disposal's error propagates. Closed is raised only when there is none. Flag, cause and gate are unchanged |
| Producer.AutoRecoveringProducerBase.DisposeUnderlyingProducerSafe | src/ActiveMQ.Artemis.Client/AutoRecovering/AutoRecoveringProducerBase.cs:89-99 | The disposal hook runs and its error is swallowed |
| Producer.AutoRecoveringProducerBase.CheckClosed | src/ActiveMQ.Artemis.Client/AutoRecovering/AutoRecoveringProducerBase.cs:101-115 | No failure while not closed. Once closed, a ProducerClosedException wrapping the cause, or the plain one with no cause |
| Producer.AutoRecoveringProducerBase.DisposeUnderlyingProducer | src/ActiveMQ.Artemis.Client/AutoRecovering/AutoRecoveringProducerBase.cs:117 | The disposal hook is recorded as invoked and throws the given error, if any |
| Producer.AutoRecoveringProducerBase.RecoverUnderlyingProducer | src/ActiveMQ.Artemis.Client/AutoRecovering/AutoRecoveringProducerBase.cs:118 | The recovery hook is recorded as invoked with the connection and throws the given error, if any |
| Producer.RecoverFacts | src/ActiveMQ.Artemis.Client/AutoRecovering/AutoRecoveringProducerBase.cs:38-43 | The disposal's error makes no difference, and flag, cause and gate are unchanged. Disposal comes before the recovery hook, which gets the connection. The error is the hook's, and "recovered" is logged exactly when there is none |
| Producer.TerminateFacts | src/ActiveMQ.Artemis.Client/AutoRecovering/AutoRecoveringProducerBase.cs:75-81 | Whatever the disposal throws, the producer ends closed with exactly the given cause, not suspended, and its check fails with the cause wrapped |
| Producer.DisposeFacts | src/ActiveMQ.Artemis.Client/AutoRecovering/AutoRecoveringProducerBase.cs:83-87 | The error is the disposal's. Closed is raised exactly once if there is none and never otherwise. Flag, cause and gate are unchanged |
| Producer.CallWellOrdered | src/ActiveMQ.Artemis.Client/AutoRecovering/AutoRecoveringProducerBase.cs:22-99 | Every producer operation keeps the trace well ordered. Only termination changes flag or cause |
| Producer.CallsWellOrdered | src/ActiveMQ.Artemis.Client/AutoRecovering/AutoRecoveringProducerBase.cs:45-60 | Over any sequence of calls, with each call atomic, every RecoveryRequested is raised with the gate closed, that is after the suspension |
| Producer.TerminalDeterminism | src/ActiveMQ.Artemis.Client/AutoRecovering/AutoRecoveringProducerBase.cs:101-115 | After any calls, the closed check reports the cause of the last termination, or what it reported before if there was none |

## Findings

| source | as written | input that shows it | evidently intended | confidence | as-written member | corrected member |
|---|---|---|---|---|---|---|
| src/ActiveMQ.Artemis.Client/AutoRecovering/AutoRecoveringConsumer.cs:36-44 | After a link closure the receive re-checks the terminal state (:38), then suspends (:42, which resets the gate) and waits (:44). Nothing orders this against TerminateAsync (:114-116), which sets the gate | An open consumer's receive gets a ConsumerClosedException. The connection's TerminateAsync(e) runs after the re-check and before the reset. No resume or cancellation follows, since nothing resumes a terminated consumer. The consumer ends terminated with a closed gate, and the receive never returns | Termination wakes every waiter: no receive is left blocked on a terminated consumer, and a terminated consumer's gate stays open | not executed; the interleaving needs a termination inside a window of a few instructions | ConsumerProofs.LostWakeUp | ConsumerProofs.RecheckingKeepsTerminatedAwake |

## Left out

- Logging: message texts and logger levels are not modelled. Only which entry is written, and when, is recorded in the trace.
- The asynchronous manual-reset event: real blocking, waking and the waiter set are not modelled. The gate is a boolean, and a wait is GateWait: proceeds, cancelled or blocked.
- Event multicast: the subscribers of `Closed` and `RecoveryRequested` are not modelled. Raising an event appends a signal.
- The underlying `IConsumer`, `IConnection` and the concrete producer subclasses are not part of this model. They appear only as oracle outcomes. This includes how the underlying receive reacts to cancellation, which the script expresses as an outcome.
- The connection-level orchestrator, the resource registry, the retry and backoff loop, and the send paths of the concrete producers are not part of this model.
- Consumer.AutoRecoveringConsumer.ReceiveAsync: the unbounded `while (true)` is modelled over a finite script of events. A receive still blocked when the script ends returns Pending or Parked instead of blocking forever.
- Consumer.AutoRecoveringConsumer.ReceiveAsync: the steps between the receive's own awaits are atomic, except for the window between the re-check after a link closure and the suspension. The model therefore leaves out three other windows:
  - Between the first terminal check and the underlying receive: a call landing there has the same effect as landing just before or just after it.
  - Inside Suspend, between its read of the gate and the reset: a call landing there can only change whether "suspended" is logged.
  - Between the suspension and the RecoveryRequested event (lines 42-43): a resume or a termination landing there leaves the fields as if it had landed just after. In the trace, however, RecoveryRequested is then raised with the gate open. The well-ordering that RunFacts, LinkClosedWellOrdered and Recoverable.TransitionsWellOrdered prove ("every recovery request is raised with the gate closed") holds only because the model makes this window atomic. What holds under every interleaving is that the handler's own emissions put its gate reset before its RecoveryRequested, as Recoverable.RequestRecoveryOrder states.
- Producer.AutoRecoveringProducerBase.HandleProducerClosed: the suspension and the RecoveryRequested event are one atomic step, and each producer call runs to completion before the next begins. A resume or a termination landing between the suspension and the event (AutoRecoveringProducerBase.cs lines 47-48) would leave the fields as if it had landed just after, but RecoveryRequested would then be raised with the gate open. Producer.CallWellOrdered and Producer.CallsWellOrdered state the well-ordering of the trace only under this atomicity. What holds under every interleaving is that the handler's own gate reset precedes its RecoveryRequested (Recoverable.RequestRecoveryOrder).
- Consumer.AutoRecoveringConsumer.ReceiveAsync: the class follows the code's order. The corrected order of the finding below is the Rechecking handler of the same loop, and only the lemmas about the finding use it.
- Consumer.AutoRecoveringConsumer.RecoverAsync: each outside call on the consumer (RecoverAsync, TerminateAsync, DisposeAsync, Suspend, Resume, AcceptAsync, Reject) is one atomic step, and outside calls never overlap one another. In the code, RecoverAsync awaits the disposal and then CreateConsumerAsync (lines 107-108), and TerminateAsync and DisposeAsync await the disposal (lines 117 and 134). A TerminateAsync or DisposeAsync that lands while RecoverAsync awaits CreateConsumerAsync would leave the wrapper terminated, or already announced as Closed, yet holding a fresh underlying consumer that nothing disposes. The model does not capture this leak.
- Consumer.AutoRecoveringConsumer.AcceptAsync: the cancellation token (lines 49 and 53) is passed through to the underlying consumer and is not modelled. The request carries only the message and the transaction.
- Producer.AutoRecoveringProducerBase.Wait: only the outcome of the wait is modelled. A blocked waiter does not wait for a later resume, because no caller in the base class loops on it.
- Cancellation tokens passed to recovery and creation calls are not modelled. A cancelled creation is one more refusal outcome.
- Test files: they need a live broker and are not modelled.
