# Message processing in mersal: a verified model

This project models how mersal takes a message from a queue to its end: the worker's permits and
background tasks, the transaction context with its five lists of actions, the retry step and the
dead-letter queue, the transport that sends on commit, sagas with optimistic revisions, the outbox
with its relay, the idempotency step, flow correlation, the dependency resolver, and the pipeline.

Objects that the program updates in place are classes here, and their methods are proved equal to
functions on the objects' values (`View()`); the theorems are about those functions, over every
input and every run. Failures are data: an action carries the way it will end, a retried call
carries the outcome of each attempt, and a run of a protocol is any sequence of steps of any of
its participants. So a statement about all inputs is a statement about all patterns of failures
and all interleavings.

| file | what it holds |
|---|---|
| `Messages.dfy` | messages, headers, addresses |
| `TransactionContext.dfy` | the transaction context; each list runs at most once, in order; opposite lists exclude each other |
| `Transport.dfy` | network, in-memory transport; sends are atomic with the context |
| `Retry.dfy` | error tracker, ambient scope, retry step; the retry bound |
| `Worker.dfy` | the worker's methods over the real transport, retry step and context |
| `TaskSteps.dfy` | one background task action by action, refined to the atomic completion and close |
| `Delivery.dfy` | the whole worker as interleaved steps: no message is lost, permits are conserved |
| `Draining.dfy` | draining ends, makes progress, and ends well |
| `SagaStorage.dfy` | the storage of private copies, isolated from its clients' objects; revisions count updates |
| `SagaSaving.dfy` | one save under interference; the store after a saga step |
| `LoadSagaData.dfy` | the saga step's methods over the storage |
| `Outbox.dfy` | the outbox decorator and the unit of work; when they commit together |
| `OutboxForwarder.dfy` | the retrier and the relay: at least once from any storage, in order from an ordered one |
| `DependencyResolver.dfy`, `RankedResolution.dfy`, `Resolution.dfy` | memoised re-entrant lookups; when they agree with plain evaluation |
| `PipelineInjection.dfy`, `PipelineInvocation.dfy` | stacked injectors commute; the two invokers agree |
| `Correlation.dfy` | correlation headers follow the causation tree |
| `Idempotency.dfy` | handlers of one message id run in one attempt |

## What the code does that one might not expect

Each of these is a lemma; where a guarantee fails, the lemma gives the exact condition or a run.

* No message is lost *unless* the close of a context without a verdict stops early: its rollback
  actions fail with a `BaseException`, or with an exception on which an on-error action raises.
  Then neither the requeue nor an acknowledgement runs (`Deliveries.FinalPlaces` says if and only
  if; `Deliveries.AnAbortedCloseLosesTheMessage` is a run).
* A `BaseException` that leaves the close leaks the permit. With a verdict it can come from the close
  actions only; without one, from the first of rollback, nack and close actions that does not end
  well (`Deliveries.PermitsAreConserved` says if and only if; `Deliveries.ACancelledCloseLeaksThePermit`
  is a run in which the message is consumed and the permit is lost).
* Calling `complete` a second time acknowledges a message that was already requeued exactly when the
  verdict acks, the first list failed, and there are both ack and nack actions
  (`TransactionContexts.SecondCompletionCondition`; `TwoCompletionsAckAndNack` is a run).
* A verdict changed after a completion, or given after a close, lets commit and rollback actions both
  run whenever there are both (`TransactionContexts.VerdictTakenBack` and `VerdictGivenTooLate` say if
  and only if; `AChangedVerdictBreaksTheExclusion` and `ALateVerdictBreaksTheExclusion` are runs). Ack
  and nack actions, where there are both, then both run if and only if, in the first case, the first
  list of the completion succeeded and the close gets past its rollback (`AckTakenBack`), and in the
  second the close rolled back well and the commit actions, if they are to run, succeed
  (`AckGivenTooLate`); `ANackFollowsTheAck` and `ALateAckFollowsTheNack` are runs.
* A rollback action that fails after dead-lettering requeues the message whose copy is already in
  the error queue (`TaskSteps.FinalTask`: such a context's fate is to be returned;
  `Deliveries.ABuriedMessageComesBack` is a run).
* With `commit_with_transaction` messages are saved before the unit of work commits only if something
  was sent before the unit of work registered its commit. When the first send comes later, from a step
  around the unit of work, the data become durable and the messages do not
  (`Outbox.DataAndMessagesCommitTogether` says if and only if; `Outbox.ALateFirstSendStaysBehind` is
  the smallest case).
* Without `commit_with_transaction` the unit of work commits by itself and the outbox messages are
  saved afterwards (`Outbox.WithoutTransactionMessagesStayBehind`).
* Five conflicting rounds end a saga save with nothing written and no exception
  (`SagaSaving.SaveUnderInterference`).
* A type one of whose decorators raises any exception, with a truthy instance in place by then, stays
  marked as running, so the next lookup returns the partly decorated instance
  (`Resolution.TheSecondLookupHidesTheError`). Lookups agree with plain evaluation, over every series
  of them, if and only if no registered type is like that (`Resolution.LookupsAgreeIffSound`).
* The documentation on idempotency (docs/usage/idempotency.rst:19) has a message tracked at the end
  of its handling; the code tracks it before the handlers run. With the in-memory tracker a failed
  first attempt is therefore never handled again (`Idempotency.AFailedFirstAttemptIsFinal`). The
  model follows the code.
* The same documentation (docs/usage/idempotency.rst:101) has handlers test the mark of a repeated
  message as a condition. Both marks are texts, "True" and "False", so the test takes every first
  delivery for a repeat (`Idempotency.EveryMarkIsTruthy`).

## Model

| member | source | states |
|---|---|---|
| `TransactionContexts.DefaultTransactionContext.Register` | src/mersal/transport/default_transaction_context.py:44-62 | an action joins the end of its own list and no other, or the call raises once the context is completed |
| `TransactionContexts.DefaultTransactionContext.InvokeActions` | src/mersal/transport/default_transaction_context.py:132-151 | the list is taken and emptied first; then exactly the prefix up to the first failure is started, and that failure is the outcome |
| `TransactionContexts.DefaultTransactionContext.InvokeErrorActions` | src/mersal/transport/default_transaction_context.py:153-155 | on-error actions stop at the first that raises, whatever it raises |
| `TransactionContexts.DefaultTransactionContext.Complete` | src/mersal/transport/default_transaction_context.py:67-120 | commit or rollback, then ack or nack; a failure nacks and is raised again; without a verdict nothing happens but the error |
| `TransactionContexts.DefaultTransactionContext.CloseContext` | src/mersal/transport/default_transaction_context.py:82-95 | rolls back and nacks what the verdict does not forbid, stops at a failure that on-error actions do not contain, and does nothing the second time |
| `TransactionContexts.StartedConcat` | src/mersal/transport/default_transaction_context.py:147-151 | the second part of a list is started only if the first part is all done |
| `TransactionContexts.ActionsRunAtMostOnceInOrder` | src/mersal/transport/default_transaction_context.py:44-151 | over any order of registrations, verdicts, completions and closes, started and pending actions of a list are together a subsequence of those registered: none runs twice or out of order |
| `TransactionContexts.OppositeListsNeverBothRun` | src/mersal/transport/default_transaction_context.py:67-114 | with one completion after the final verdict, and any number of closes, commit and rollback actions never both run, nor do ack and nack actions |
| `TransactionContexts.SecondCompletionCondition` | src/mersal/transport/default_transaction_context.py:67-114 | after two completions ack and nack actions have both run if and only if the verdict acks, the first list fails, and both lists have actions |
| `TransactionContexts.TwoCompletionsAckAndNack` | src/mersal/transport/default_transaction_context.py:67-76 | a run in which that happens: the second completion acks after the first has nacked |
| `TransactionContexts.VerdictTakenBack` | src/mersal/transport/default_transaction_context.py:67-95 | a commit verdict changed after the completion makes the close roll back as well, if and only if there are commit and rollback actions |
| `TransactionContexts.VerdictGivenTooLate` | src/mersal/transport/default_transaction_context.py:67-95 | a commit verdict given after a close without one makes the completion commit as well, under the same condition |
| `TransactionContexts.AckTakenBack` | src/mersal/transport/default_transaction_context.py:67-95 | an ack changed to a nack after the completion makes both run, if and only if the completion's first list succeeded, there are both, and the close gets past its rollback |
| `TransactionContexts.AckGivenTooLate` | src/mersal/transport/default_transaction_context.py:67-95 | an ack given after a close without a verdict makes both run, if and only if the close rolled back well, there are both, and the commit actions, if the verdict commits, succeed |
| `TransactionContexts.AChangedVerdictBreaksTheExclusion` | src/mersal/transport/default_transaction_context.py:67-95 | a run with a changed verdict in which commit and rollback actions both run |
| `TransactionContexts.ALateVerdictBreaksTheExclusion` | src/mersal/transport/default_transaction_context.py:67-95 | a run with a late verdict in which they do |
| `TransactionContexts.ANackFollowsTheAck` | src/mersal/transport/default_transaction_context.py:67-95 | a run with an ack changed to a nack in which both run |
| `TransactionContexts.ALateAckFollowsTheNack` | src/mersal/transport/default_transaction_context.py:67-95 | a run with an ack after the close in which both run |
| `TransactionContexts.CompleteEffect` | src/mersal/transport/default_transaction_context.py:67-120 | for each kind, what a completion starts of its list and leaves pending |
| `TransactionContexts.CloseEffect` | src/mersal/transport/default_transaction_context.py:82-95 | the same for a close, with the way it ends, for every pattern of failures |
| `TransactionContexts.CompleteOutcome` | src/mersal/transport/default_transaction_context.py:67-120 | how a completion ends, from its lists: without a verdict it raises, it succeeds if and only if both lists that it starts do, a failed first list is raised again unless the nack fails uncontained |
| `TransactionContexts.ClosedStaysClosed` | src/mersal/transport/default_transaction_context.py:82-84 | closing again does nothing |
| `TransactionContexts.NotifiedInOrder` | src/mersal/transport/default_transaction_context.py:153-155 | on-error actions are told in order, and the first that does not return ends that with what it raises |
| `TransactionContexts.ContainedExceptions` | src/mersal/transport/default_transaction_context.py:116-126 | an exception is contained if and only if every on-error action returns; a `BaseException` never goes to them |
| `Transports.InMemoryNetwork.Deliver` | src/mersal/transport/in_memory/in_memory_network.py:21-22 | puts a message at the left end of its address's deque |
| `Transports.InMemoryNetwork.GetNext` | src/mersal/transport/in_memory/in_memory_network.py:24-28 | takes the oldest waiting message of one address and leaves every other address as it was |
| `Transports.DeliverAllIsFifo` | src/mersal/transport/in_memory/in_memory_network.py:21-28 | any series of deliveries reaches each address at the end of its queue in delivery order |
| `Transports.InMemoryTransport.Send` | src/mersal/transport/base_transport.py:17-33 | collects the message in the context's list, and registers the send action only when the list is empty |
| `Transports.InMemoryTransport.Receive` | src/mersal/transport/in_memory/in_memory_transport.py:43-54 | pops the next message and registers its requeue as a nack action; on a completed context the message is popped and the call raises; without a message nothing changes |
| `Transports.InMemoryTransport.SendOutgoingMessages` | src/mersal/transport/in_memory/in_memory_transport.py:56-62 | delivers the list in order |
| `Transports.OneSendAction` | src/mersal/transport/base_transport.py:23-33 | however many sends there are, exactly one send action is registered, at the place of the first send |
| `Transports.SendCases` | src/mersal/transport/base_transport.py:17-33 | what one send does to list and context: first, later, and first on a completed context |
| `Transports.ListIs` | src/mersal/transport/base_transport.py:23-24 | the list is the one kept under its key, and empty without one |
| `Transports.JudgedThenClosed` | src/mersal/transport/default_transaction_context.py:67-95 | the runs of the atomicity results: a verdict, a completion, then one close after the other |
| `Transports.SendsAreAtomic` | src/mersal/transport/base_transport.py:17-33 | the whole send sequence is delivered in per-destination order exactly when the verdict commits and every commit action registered before the first send succeeds; otherwise nothing is, whatever else fails and however often the context closes |
| `Retries.InMemoryErrorTracker.RegisterError` | src/mersal/retry/error_tracking/in_memory_error_tracker.py:16-17 | adds one error for one id |
| `Retries.InMemoryErrorTracker.HasFailedTooManyTimes` | src/mersal/retry/error_tracking/in_memory_error_tracker.py:22-23 | true for an id marked as final or with the maximum of errors; looking does not change any id's errors |
| `Retries.InMemoryErrorTracker.CleanUp` | src/mersal/retry/error_tracking/in_memory_error_tracker.py:19-20 | forgets the errors of one id and not its final mark |
| `Retries.TrackerCases` | src/mersal/retry/error_tracking/in_memory_error_tracker.py:16-29 | what registering and forgetting do to the errors and marks of every id, and when an id has failed too often |
| `Retries.TransactionScope.CloseScope` | src/mersal/transport/transaction_scope.py:46-52 | closes the held context, swallows its failure and restores the previous ambient context |
| `Retries.DefaultRetryStep.Call` | src/mersal/retry/default_retry_step.py:36-64 | for every way the pipeline and the error handler can end: the verdict, the tracker, the queues and the ambient context afterwards; only the dead-letter copy is ever sent, so the handler's own sends are not |
| `Retries.DefaultRetryStep.HandlePoisonousMessage` | src/mersal/retry/default_retry_step.py:66-80 | hands over the copy with the details of all recorded errors, or the default text if there are none, and forgets them only if that succeeded |
| `Retries.DetailsOf` | src/mersal/retry/default_retry_step.py:71-77 | one recorded error gives its text, one more adds its text after "--", none gives the default text |
| `Retries.DeadLetterHas` | src/mersal/retry/default_retry_step.py:78-85 | the copy has these details, and body and all other headers of the message |
| `Retries.DefaultRetryStep.PassToDeadletterQueue` | src/mersal/retry/default_retry_step.py:82-85 | delivers exactly one copy, with body and other headers kept, through a context of its own, and restores the ambient one |
| `Retries.RetryBound` | src/mersal/retry/error_tracking/in_memory_error_tracker.py:16-29 | over any interleaving of failures of any ids and whatever the error handler accepts, a failure dead-letters its message if and only if a failure of that id was fail-fast or this is at least failure number max(1, maximum) since the last accepted burial of that id |
| `Retries.AcceptedRetryBound` | src/mersal/retry/error_tracking/in_memory_error_tracker.py:16-29 | when every burial is accepted: if and only if a failure was fail-fast or the number of failures is a multiple of max(1, maximum) |
| `Retries.AttemptIsDecided` | src/mersal/retry/default_retry_step.py:47-64 | one failure in these histories is what the retry step decides, with the tracker it leaves |
| `Workers.AnyioWorker.ReceiveMessage` | src/mersal/workers/anyio/anyio_worker.py:126-153 | the permit stays taken exactly when a message was handed off, together with a context that will requeue it; an empty, failed or cancelled receive changes neither permits nor queue |
| `Workers.AnyioWorker.ProcessMessage` | src/mersal/workers/anyio/anyio_worker.py:178-190 | pipeline with the retry step outermost, then completion if there is a verdict: the decision, the tracker, the context and what is raised, for every way handler and error handler end; what reaches the network is the dead-letter copy and then what the commit sent |
| `Workers.AnyioWorker.ProcessMessageInBackground` | src/mersal/workers/anyio/anyio_worker.py:155-176 | for every handler and failure: the decision and the tracker; sends, dead-letter copy and requeue of one message, in order, as a function of the context the pipeline left; the permit returns after the close unless a `BaseException` leaves it |
| `Workers.RequeuedWhenReturned` | src/mersal/transport/in_memory/in_memory_transport.py:49-52 | completing and closing a context puts its message back exactly once if its fate is to be returned, and not at all otherwise |
| `Workers.DecisionsAreSteps` | src/mersal/retry/default_retry_step.py:36-85 | what these methods decide is what the steps of the interleaved machine do: one step, or a failure and a burial, after which verdict and tracker are as decided, and the error queue has the copy, with the details of all recorded errors, or nothing new |
| `Workers.HandlingIsSteps` | src/mersal/transport/base_transport.py:17-33 | and what a handler does to its context is too: registering, watching, and sending, of which only the first registers anything |
| `Workers.MatchesMeans` | src/mersal/retry/default_retry_step.py:36-85 | spelt out: verdict, tracker and error queue after the machine's steps for a decision |
| `Workers.AnyioWorker.CopyIs` | src/mersal/retry/default_retry_step.py:66-85 | a dead-lettered message sends one copy with the details of all recorded errors, any other none |
| `Workers.AnyioWorker.BackIs` | src/mersal/transport/in_memory/in_memory_transport.py:49-52 | the message goes back to its own address when its fate is to be returned |
| `TaskSteps.DriveComplete` | src/mersal/transport/default_transaction_context.py:67-120 | running a completion action by action ends in the context of the atomic completion |
| `TaskSteps.DriveClose` | src/mersal/transport/default_transaction_context.py:82-95 | the same for a close, and where the task ends when an exception leaves the close |
| `TaskSteps.FinalTask` | src/mersal/workers/anyio/anyio_worker.py:155-190 | a task's end is determined by the context its pipeline left: the requeue runs if and only if that context's fate is to be returned |
| `TaskSteps.AdvanceOneRequeue` | src/mersal/transport/in_memory/in_memory_transport.py:49-52 | no step of a task requeues its message a second time, and until it is requeued the requeue stays first in line |
| `TaskSteps.RequeuesWhen` | src/mersal/transport/in_memory/in_memory_transport.py:49-52 | only a requeue that succeeds puts a message back, and it is that message |
| `TaskSteps.ConcludedEffect` | src/mersal/transport/default_transaction_context.py:67-120 | what completing and closing start of each list, given the context as the pipeline left it |
| `TaskSteps.LeakCondition` | src/mersal/transport/default_transaction_context.py:82-95 | a `BaseException` leaves the close if and only if, with a verdict, the close actions let one out, and without one, the first of rollback, nack and close that does not end well does |
| `Deliveries.StepKeepsInv` | src/mersal/workers/anyio/anyio_worker.py:126-190 | every step of the receiver, of any task and of the outside world keeps the accounts of messages, dead letters and permits, and every dead letter is a copy of its task's message |
| `Deliveries.ReceivingIsSteps` | src/mersal/workers/anyio/anyio_worker.py:126-153 | one receive is a permit taken, and given back unless a message was received |
| `Deliveries.BurialIs` | src/mersal/retry/default_retry_step.py:66-85 | verdict, tracker and error queue for every way the error handler ends, also after it delivered the copy |
| `Deliveries.MessagesAreConserved` | src/mersal/workers/anyio/anyio_worker.py:126-190 | in every state of every run each accepted copy is in exactly one place: queued, held by one unended task whose requeue is still to run, consumed, buried, or gone |
| `Deliveries.DeadLettersAreCopies` | src/mersal/retry/default_retry_step.py:66-85 | in every state of every run the error queue holds, for any message, exactly as many copies as tasks buried it, or a message that differs in error details only |
| `Deliveries.FinalPlaces` | src/mersal/transport/default_transaction_context.py:67-95 | consumed means that all commit actions ran and succeeded; buried that a copy of the message is in the error queue and nothing was committed; gone, if and only if the close aborted, that nothing was acked, nacked or committed; and a task crashes exactly under the leak condition |
| `Deliveries.NoMessageIsLost` | src/mersal/workers/anyio/anyio_worker.py:126-190 | without an aborted close each accepted copy is queued, held with its requeue pending, consumed, or buried, and the error queue has a copy for each that is buried |
| `Deliveries.AnAbortedCloseLosesTheMessage` | src/mersal/transport/default_transaction_context.py:82-95 | a run in which the message of a cancelled handler ends nowhere |
| `Deliveries.ABuriedMessageComesBack` | src/mersal/transport/default_transaction_context.py:97-119 | a run in which a dead-lettered message's rollback fails, and it is both in the error queue and back on its own |
| `Deliveries.PermitsAreConserved` | src/mersal/workers/anyio/anyio_worker.py:126-176 | free permits, the receiver's and those of unreleased tasks add up to the maximum; a returned permit means a completed and closed context, and it fails to return exactly when the leak condition holds of the context as the pipeline left it |
| `Deliveries.ACancelledCloseLeaksThePermit` | src/mersal/workers/anyio/anyio_worker.py:155-176 | a run in which the message is consumed, its close action is cancelled, and the only permit is gone for good |
| `Draining.ReceivesAreBounded` | src/mersal/retry/default_retry_step.py:36-85 | in a smooth run no message is received more than max(1, maximum) times |
| `Draining.DrainingTerminates` | src/mersal/retry/default_retry_step.py:36-85 | over all interleavings the remaining budget of receives is never negative, each receive takes one from it, and only a new message adds to it |
| `Draining.TasksTerminate` | src/mersal/workers/anyio/anyio_worker.py:155-190 | every step inside a task uses up work, the turns it may still take and the actions it may still run |
| `Draining.DrainingMakesProgress` | src/mersal/workers/anyio/anyio_worker.py:126-176 | while anything is queued or unended some step is possible that is not an arrival or a give-back |
| `Draining.DrainedStateIsFinal` | src/mersal/retry/default_retry_step.py:36-85 | at rest each message was consumed or dead-lettered exactly once, and the error queue has exactly one copy of it if it was dead-lettered, and none otherwise |
| `Draining.DrainingEndsWell` | src/mersal/workers/anyio/anyio_worker.py:126-190 | from any reachable state the draining steps of a run, whatever arrives or is registered in between, are no more than a number fixed by that state, plus one per registration and per permit given back, and eleven per receive of a newly accepted message; and when no draining step can extend the run, the queue is empty and each message was consumed, or dead-lettered with one copy, exactly once |
| `SagaStorages.InMemorySagaStorage.Find` | src/mersal/persistence/in_memory/in_memory_saga_storage.py:30-38 | a fresh copy of a record of that type with that property, or nothing if there is none |
| `SagaStorages.InMemorySagaStorage.Insert` | src/mersal/persistence/in_memory/in_memory_saga_storage.py:40-53 | stores a private copy at revision 0, or changes nothing |
| `SagaStorages.InMemorySagaStorage.Update` | src/mersal/persistence/in_memory/in_memory_saga_storage.py:55-72 | stores a private copy one revision on and advances the caller's object, or changes neither |
| `SagaStorages.InMemorySagaStorage.Delete` | src/mersal/persistence/in_memory/in_memory_saga_storage.py:74-78 | removes the record if there is one and advances the caller's object |
| `SagaStorages.StorageOutcomes` | src/mersal/persistence/in_memory/in_memory_saga_storage.py:40-78 | when each call succeeds and what it stores, and with which exception it fails otherwise |
| `SagaStorages.CallsPerform` | src/mersal/persistence/in_memory/in_memory_saga_storage.py:40-78 | histories are made of these calls |
| `SagaStorages.RunScript` | src/mersal/persistence/in_memory/in_memory_saga_storage.py:30-78 | over any script of clients that make, find, insert, update and delete with objects they keep, and write into them in between: the store is what the calls made of it, with the values at the time, no kept object is in the store, and every find gave a stored record |
| `SagaStorages.ScenesChange` | src/mersal/persistence/in_memory/in_memory_saga_storage.py:30-78 | what each step of a script does to the client's objects and to the calls made |
| `SagaStorages.PlaysMeans` | src/mersal/persistence/in_memory/in_memory_saga_storage.py:36-72 | spelt out: no kept object is in the store or kept twice, and all have the values of the scene |
| `SagaStorages.FoundMeans` | src/mersal/persistence/in_memory/in_memory_saga_storage.py:30-38 | a find that found something gave a stored record with the asked value, and one that did not missed none |
| `SagaStorages.EachFoundRightly` | src/mersal/persistence/in_memory/in_memory_saga_storage.py:30-38 | every find of a history did, at its time |
| `SagaStorages.RevisionCountsUpdates` | src/mersal/persistence/in_memory/in_memory_saga_storage.py:40-78 | over any client calls a live record's revision is the number of its successful updates since it was inserted |
| `SagaStorages.UpdatesAreLinear` | src/mersal/persistence/in_memory/in_memory_saga_storage.py:55-72 | of two successful updates the later one started from a later revision: at most one succeeds from each |
| `LoadSagaData.LoadSagaDataStep.TryToFindExistingSaga` | src/mersal/sagas/load_saga_data_step.py:87-106 | a copy of a record that the first matching correlation property points at, or nothing if none does |
| `LoadSagaData.NothingToLoad` | src/mersal/sagas/load_saga_data_step.py:87-106 | a message whose correlation values no stored saga of the type has loads nothing |
| `LoadSagaData.TheOneSagaIsLoaded` | src/mersal/sagas/load_saga_data_step.py:87-106 | one that has a value which exactly one stored saga of the type has loads that saga, if no earlier property finds any |
| `LoadSagaData.LoadSagaDataStep.Load` | src/mersal/sagas/load_saga_data_step.py:57-75 | splits the sagas, in order, into those with loaded data, those with newly created data and those with neither, which raise if the correlation error handler does, without touching the store |
| `LoadSagaData.SplitSnoc` | src/mersal/sagas/load_saga_data_step.py:57-75 | sagas that find data are loaded, others that may start with the message start, both in order |
| `LoadSagaData.SeparateMeans` | src/mersal/sagas/load_saga_data_step.py:57-75 | the wrapped objects are distinct and none is in the store |
| `LoadSagaData.LoadSagaDataStep.SaveSagaData` | src/mersal/sagas/load_saga_data_step.py:108-133 | the bounded retry loop, with other clients' calls before each attempt and between its conflict and the fresh read |
| `LoadSagaData.LoadSagaDataStep.Call` | src/mersal/sagas/load_saga_data_step.py:49-85 | nothing is written if the correlation error handler or the next step raises; otherwise the store is what updates, inserts and deletes make of the sagas as loaded and then handled, and with fresh ids and resolvers that do not raise it is the final store of `SagaSaving.SagaStepFinalStore` |
| `LoadSagaData.HandledIs` | src/mersal/sagas/load_saga_data_step.py:76-85 | what handlers leave: the saga's id and revision, their data and their marks |
| `LoadSagaData.WorksAreHandled` | src/mersal/sagas/load_saga_data_step.py:57-85 | spelt out for each saga of the step, loaded or created |
| `LoadSagaData.ReflectsMeans` | src/mersal/sagas/load_saga_data_step.py:76-85 | the values saved are those of the wrapped objects |
| `SagaSaving.SaveUnderInterference` | src/mersal/sagas/load_saga_data_step.py:108-133 | an update lands, one revision on from all that went before and touching nothing else, if and only if one of the rounds is free of other updates before the attempt, with its own data in the first round and later with what resolving made of it against the data met at each conflict; else it gives up unwritten |
| `SagaSaving.FewUpdatesAreSurvived` | src/mersal/sagas/load_saga_data_step.py:117-133 | fewer than five updates by others never keep a save from landing, and each of those that came before is counted in the revision |
| `SagaSaving.SavesTryFiveTimes` | src/mersal/sagas/load_saga_data_step.py:117-133 | five attempts: a save lands if one of five rounds is free, and gives up otherwise |
| `SagaSaving.ConflictsThatRaise` | src/mersal/sagas/load_saga_data_step.py:123-133 | a conflict over a record that is gone by then, or that the resolver raises on, ends the save with nothing written |
| `SagaSaving.MissingRecordsRaise` | src/mersal/sagas/load_saga_data_step.py:117-122 | so does a record that is gone before the first attempt |
| `SagaSaving.InsertsAreTriedOnce` | src/mersal/sagas/load_saga_data_step.py:119-122 | an insert is tried once and raises if it fails |
| `SagaSaving.WindowsInOrder` | src/mersal/sagas/load_saga_data_step.py:117-133 | the interference of each round is what the round meets, and none comes after the last |
| `SagaSaving.CalmUpdate` | src/mersal/sagas/load_saga_data_step.py:118-133 | without interference a save meets at most one conflict, resolves it against the stored data and lands |
| `SagaSaving.SagaStepFinalStore` | src/mersal/sagas/load_saga_data_step.py:49-85 | the whole store after a step: completed sagas absent, every other loaded record moved on by one revision per saved wrapper and holding their merged data, created sagas present at revision 0, everything else untouched |
| `SagaSaving.FinalStoreMeans` | src/mersal/sagas/load_saga_data_step.py:49-85 | spelt out for one stored record, one created saga and one record of the new store |
| `SagaSaving.FreshWhen` | src/mersal/sagas/load_saga_data_step.py:49-85 | created sagas that are not completed need ids that are neither stored nor shared, and revision 0 |
| `SagaSaving.PhasesInOrder` | src/mersal/sagas/load_saga_data_step.py:76-85 | updates, then inserts, then deletions, up to the first exception |
| `SagaSaving.SavesOneByOne` | src/mersal/sagas/load_saga_data_step.py:76-85 | one wrapper after the other; completed sagas, and unchanged loaded ones, are not saved |
| `SagaSaving.DeletesCompleted` | src/mersal/sagas/load_saga_data_step.py:76-85 | each completed saga's record is deleted |
| `Outbox.OutboxTransportDecorator.Send` | src/mersal/outbox/outbox_transport_decorator.py:27-50 | with the flag set, collects the message and registers the save once; without it, exactly the plain send |
| `Outbox.CollectCases` | src/mersal/outbox/outbox_transport_decorator.py:34-50 | what one send does to list and context: first, later, and first on a completed context |
| `Outbox.CollectedIs` | src/mersal/outbox/outbox_transport_decorator.py:34-36 | the list is the one kept under its key |
| `Outbox.TruthOf` | src/mersal/outbox/outbox_transport_decorator.py:29-32 | the flag counts as Python's truth value of the item |
| `Outbox.OutboxIncomingStep` | src/mersal/outbox/outbox_incoming_step.py:16-20 | sets the flag and no other item |
| `Outbox.UnitOfWorkStep.Call` | src/mersal/unit_of_work/unit_of_work_step.py:30-42 | for both modes, inside a message context or not, and every way the factory, the pipeline and the actions end: what is registered, what is done at once, and which exception leaves |
| `Outbox.UnitOfWorkStep.FinishWith` | src/mersal/unit_of_work/unit_of_work_step.py:44-88 | registers the action and the close, which raises on a completed context, or runs them in that order |
| `Outbox.FailureIsRolledBack` | src/mersal/unit_of_work/unit_of_work_step.py:30-88 | without `commit_with_transaction`, after a pipeline or a commit that raises, nothing is durable, with a rollback that is done nothing is pending, and the first exception leaves unless rollback or close raise another |
| `Outbox.SuccessIsCommitted` | src/mersal/unit_of_work/unit_of_work_step.py:30-65 | after a pipeline and a commit that succeed everything pending is durable, also when the close raises |
| `Outbox.CancellationGoesThrough` | src/mersal/unit_of_work/unit_of_work_step.py:35-42 | a `BaseException` leaves the session as it is |
| `Outbox.RegisteredActions` | src/mersal/unit_of_work/unit_of_work_step.py:44-88 | with `commit_with_transaction`, which actions join which lists, for every end of the pipeline |
| `Outbox.EffectsOf` | src/mersal/unit_of_work/unit_of_work_step.py:44-88 | what saving, committing, rolling back and closing do to a session |
| `Outbox.OneSaveAction` | src/mersal/outbox/outbox_transport_decorator.py:38-50 | all messages sent are in the list, in order, with exactly one save action, at the place of the first send |
| `Outbox.DoOpCases` | src/mersal/outbox/outbox_transport_decorator.py:22-50 | what each operation of a handler leaves in session, list and context |
| `Outbox.DataAndMessagesCommitTogether` | src/mersal/unit_of_work/unit_of_work_step.py:44-65 | with `commit_with_transaction`, given a verdict to commit and a list that succeeds up to the unit of work's own commit, business data and the full ordered list of messages that the context collected, those sent by outer steps included, become durable together if and only if something was sent before the unit of work registered its commit or nothing is sent at all; without that verdict and success neither does |
| `Outbox.DurableFromBeforeTheCommit` | src/mersal/outbox/outbox_transport_decorator.py:34-50 | what becomes durable in every case: all that was written, and all of the collected list or none, depending on whether the first send came before the unit of work's commit |
| `Outbox.ALateFirstSendStaysBehind` | src/mersal/outbox/outbox_transport_decorator.py:38-48 | a handler writes, an outer step sends first of all, everything succeeds: the row is durable and the message is not |
| `Outbox.FailedHandlersLeaveNothing` | src/mersal/unit_of_work/unit_of_work_step.py:67-88 | after a handler's failure nothing becomes durable, whatever the verdict |
| `Outbox.WithoutTransactionMessagesStayBehind` | src/mersal/unit_of_work/unit_of_work_step.py:53-55 | without it the data become durable and the messages do not |
| `OutboxForwarders.AsyncRetrier.Retry` | src/mersal/utils/retrier.py:12-24 | the outcome, the number of attempts, at most one more than there are delays, and the delays slept, a prefix of the list |
| `OutboxForwarders.RetrySucceedsWithinBound` | src/mersal/utils/retrier.py:12-24 | a call succeeds if and only if some attempt within the bound does and only exceptions and completed sleeps came before it |
| `OutboxForwarders.DelaysGrow` | src/mersal/outbox/outbox_forwarder.py:40-41 | fifteen delays: five short, five longer, five of a second |
| `OutboxForwarders.OutboxStorage.GetNextMessageBatch` | src/mersal/outbox/outbox_storage.py:33-35 | all that the protocol says: some saved messages that are not completed, each once |
| `OutboxForwarders.OutboxForwarder.SendMessages` | src/mersal/outbox/outbox_forwarder.py:70-86 | collects the batch in order in one context, or stops at the first message whose retries fail |
| `OutboxForwarders.SendsAllOrStops` | src/mersal/outbox/outbox_forwarder.py:70-86 | all messages are sent if and only if each is within sixteen attempts |
| `OutboxForwarders.OutboxForwarder.ProcessBatch` | src/mersal/outbox/outbox_forwarder.py:64-68 | delivers the whole batch in order, or nothing |
| `OutboxForwarders.OutboxForwarder.RunTask` | src/mersal/outbox/outbox_forwarder.py:54-62 | one run of the relay: a batch is completed only after all of it was delivered, wherever the run fails |
| `OutboxForwarders.RunCases` | src/mersal/outbox/outbox_forwarder.py:54-68 | what one run leaves in every case: nothing, an unsent batch, a batch delivered, and completed or not |
| `OutboxForwarders.StepsLeave` | src/mersal/outbox/outbox_forwarder.py:54-68 | what saves, runs and crashes leave |
| `OutboxForwarders.RunsGoOn` | src/mersal/outbox/outbox_forwarder.py:54-68 | runs go step by step |
| `OutboxForwarders.DeliveriesAreConserved` | src/mersal/outbox/outbox_forwarder.py:54-68 | over any saves, any batches the protocol allows, failing runs and crashes, every delivered copy either completed its message or is an extra that may be offered again |
| `OutboxForwarders.CompletedWasDelivered` | src/mersal/outbox/outbox_forwarder.py:54-68 | at least once, for any storage: what is completed was delivered |
| `OutboxForwarders.SavedIsDeliveredOrOffered` | src/mersal/outbox/outbox_forwarder.py:54-68 | with a storage that offers the first messages in the order saved: every saved message was delivered, or is in the next batch, or that batch is full of earlier ones, whatever batches came before |
| `OutboxForwarders.CleanRunsForwardInOrder` | src/mersal/outbox/outbox_forwarder.py:54-87 | with such a storage, unless a completion fails or the process dies in between, messages are delivered once each and in the order saved, whatever else fails |
| `OutboxForwarders.SuccessfulRunsMakeProgress` | src/mersal/outbox/outbox_forwarder.py:54-62 | each successful run delivers exactly the next messages up to the limit |
| `DependencyResolvers.DependencyResolver.Register` | src/mersal/configuration/dependency_resolver.py:20-21 | a resolver replaces the one of its type, whose place in the order stays |
| `DependencyResolvers.DependencyResolver.AddDecorator` | src/mersal/configuration/dependency_resolver.py:23-24 | a decorator goes after the earlier ones of its type and leaves other types alone |
| `DependencyResolvers.DependencyResolver.GetItem` | src/mersal/configuration/dependency_resolver.py:34-55 | the re-entrant lookup, with its three dictionaries and the running marks, for every configuration and state, for callables whose requests and end depend on how their lookups ended, and on every path, also those on which a callable raises a KeyError or anything else, or the stack is exhausted |
| `DependencyResolvers.DependencyResolver.RunDecorators` | src/mersal/configuration/dependency_resolver.py:47-55 | decorators run in registration order, each seeing the instance so far, and stop at the first that raises; the instance becomes final after the last |
| `DependencyResolvers.DependencyResolver.ResolveRemaining` | src/mersal/configuration/dependency_resolver.py:29-32 | resolves, in registration order, what is not final yet, and stops at the first error |
| `RankedResolution.FindIsGet` | src/mersal/configuration/dependency_resolver.py:34-55 | where requests are not cyclic, any stack deeper than a type's rank makes the lookup behave like the form that needs no bound |
| `RankedResolution.RemainingIsResolveAll` | src/mersal/configuration/dependency_resolver.py:29-32 | and so does the loop of `resolve_remaining` |
| `Resolution.ResolveAgrees` | src/mersal/configuration/dependency_resolver.py:34-55 | in any consistent state a registered type resolves to its plain evaluation, or raises the same exception; what that leaves is in order, unless a decorator raised with a truthy instance in place, which the next lookup then finds |
| `Resolution.LookupsAgreeIffSound` | src/mersal/configuration/dependency_resolver.py:34-55 | over every series of lookups from a fresh resolver, failing ones included, each gives the plain evaluation or its exception, if and only if no registered type has a decorator that raises, a KeyError or anything else, with a truthy instance in place by then |
| `Resolution.FindAgrees` | src/mersal/configuration/dependency_resolver.py:34-55 | the same of the code's own lookups, with the stack they need |
| `Resolution.MemoisedResolutionIsEvaluation` | src/mersal/configuration/dependency_resolver.py:29-55 | when every registered type can be evaluated, `resolve_remaining`, after any series of lookups, gives each the decorators folded in registration order over the base instance, and, if no instance is falsy, every resolver and decorator has run exactly once by then |
| `Resolution.TheSecondLookupHidesTheError` | src/mersal/configuration/dependency_resolver.py:34-51 | every lowest type of that kind: the first lookup raises, and the second returns what the decorators before the failure made |
| `Resolution.RaisesIffIncomplete` | src/mersal/configuration/dependency_resolver.py:29-32 | where lookups agree, `resolve_remaining`, after any series of them, raises if and only if some registered type cannot be evaluated |
| `Resolution.ClosedIsComplete` | src/mersal/configuration/dependency_resolver.py:34-55 | a configuration in which every callable returns an instance when it gets the registered types it asks for, and a KeyError for others, has none of these failures |
| `PipelineInjection.PipelineInjector.InjectStep` | src/mersal/pipeline/pipeline_injector.py:50-56 | adds the injection after the earlier ones of its anchor and leaves other anchors alone |
| `PipelineInjection.PipelineInjector.PrependStep` | src/mersal/pipeline/pipeline_injector.py:44-45 | puts the step before those prepended earlier |
| `PipelineInjection.PipelineInjector.AppendStep` | src/mersal/pipeline/pipeline_injector.py:47-48 | puts the step after those appended earlier |
| `PipelineInjection.PipelineInjector.Call` | src/mersal/pipeline/pipeline_injector.py:32-42 | prepended, inner and appended steps in order, each within its injected steps |
| `PipelineInjection.AtPositionSnoc` | src/mersal/pipeline/pipeline_injector.py:58-68 | the injections at a position are those made there, in the order they were made |
| `PipelineInjection.AtIs` | src/mersal/pipeline/pipeline_injector.py:39-41 | an anchor without injections has none |
| `PipelineInjection.StackIsWoven` | src/mersal/pipeline/pipeline_injector.py:32-68 | what any stack of injectors builds, if none anchors anything to a step that another injects: before each base step the injections from the innermost out, after it from the outermost in |
| `PipelineInjection.StackedInjectionsCommute` | src/mersal/pipeline/pipeline_injector.py:32-68 | when at most one injector uses each anchor and position, every stacking order builds the same pipeline |
| `PipelineInjection.StackContents` | src/mersal/pipeline/pipeline_injector.py:32-68 | base steps stay an ordered subsequence, and each injection appears exactly once for each step of its anchor type |
| `PipelineInjection.LayersAreWoven` | src/mersal/pipeline/pipeline_injector.py:32-68 | what any stack of injectors that also prepend and append builds: prepended steps from the outermost injector in, the base steps, and appended steps from the innermost out, each with the injections of its own injector and those outside it |
| `PipelineInjection.OnlyInjecting` | src/mersal/pipeline/pipeline_injector.py:32-42 | stacks that only inject are its special case |
| `PipelineInvocation.InvokeIteratively` | src/mersal/pipeline/iterative_pipeline_invoker.py:30-40 | the closure chain built backwards computes the same transformation of the state as recursion on the step index (src/mersal/pipeline/recursive_pipeline_invoker.py:25-35), for steps that call next any number of times and catch what they like |
| `PipelineInvocation.FirstStepAndRest` | src/mersal/pipeline/recursive_pipeline_invoker.py:25-35 | every step runs, with the pipeline of all later steps as the rest it may call |
| `PipelineInvocation.EmptyPipeline` | src/mersal/pipeline/recursive_pipeline_invoker.py:25-29 | a pipeline without steps returns |
| `PipelineInvocation.OneStep` | src/mersal/pipeline/recursive_pipeline_invoker.py:25-35 | a pipeline of one step is that step with a rest that returns |
| `PipelineInvocation.StepsNest` | src/mersal/pipeline/recursive_pipeline_invoker.py:25-35 | steps that record their number before and after one call of next nest, and a step that does not call leaves out exactly the later ones |
| `PipelineInvocation.TraceUpAndDown` | src/mersal/pipeline/recursive_pipeline_invoker.py:25-35 | spelt out: 0 up to n - 1, then n - 1 down to 0 |
| `PipelineInvocation.ScriptedOnlyCalls` | src/mersal/pipeline/recursive_pipeline_invoker.py:25-35 | any step written as parts between calls of next meets the one condition of that equivalence |
| `PipelineInvocation.PartsInOrder` | src/mersal/pipeline/recursive_pipeline_invoker.py:25-35 | each part of such a step sees how the last call ended, and returns or calls again |
| `Correlation.ParsePrint` | src/mersal/messages/message_headers.py:23-41 | a sequence number survives its way through a text header |
| `Correlation.ParseForms` | src/mersal/pipeline/send/flow_correlation_step.py:37-55 | which header texts count as numbers |
| `Correlation.PrintForms` | src/mersal/messages/message_headers.py:23-41 | numbers are written with a sign only if negative and without leading zeros |
| `Correlation.StrOf` | src/mersal/messages/message_headers.py:23-41 | the text that every kind of header value is turned into |
| `Correlation.FlowCorrelationStep` | src/mersal/pipeline/send/flow_correlation_step.py:17-71 | the headers after the step, for every combination of present, empty and malformed ones |
| `Correlation.CorrelationFillsIn` | src/mersal/pipeline/send/flow_correlation_step.py:17-71 | flow headers are filled in where missing or empty, from the message being handled or else the message itself; given ones stay and nothing else changes |
| `Correlation.FlowOfHeaders` | src/mersal/pipeline/send/flow_correlation_step.py:37-71 | correlation id and sequence of any headers, also without them |
| `Correlation.SetDefaultHeaders` | src/mersal/pipeline/send/set_default_headers_step.py:27-37 | fills in id and time only where they are missing or empty |
| `Correlation.DefaultsFillIn` | src/mersal/pipeline/send/set_default_headers_step.py:27-37 | id and time are filled in where missing or empty, and nothing else changes |
| `Correlation.CorrelationFollowsTheTree` | src/mersal/pipeline/send/flow_correlation_step.py:17-71 | in any forest of sends, whose roots may also arrive from outside with any headers, each message carries the correlation id of the message its flow started from, the start's sequence plus its depth, and the id of the message it was sent for, also where senders choose their own headers |
| `Correlation.FlowsGoOn` | src/mersal/pipeline/send/flow_correlation_step.py:26-35 | a flow goes on from a message to those sent for it, one further along, unless they choose a correlation id |
| `Correlation.UntouchedFlows` | src/mersal/pipeline/send/flow_correlation_step.py:26-35 | when they do not: the id of the root's flow, which is the root's id if it was sent from here, its start plus the depth in the tree, and the parent's id |
| `Idempotency.InMemoryMessageTracker.TrackMessage` | src/mersal/persistence/in_memory/in_memory_message_tracker.py:16-19 | tracks an id, and raises if it was tracked |
| `Idempotency.IdempotencyCheckerStep.Call` | src/mersal/idempotency/idempotency_checker_step.py:18-38 | a message is a duplicate if its id was tracked before the check or by others before its own track; what that does to headers and invokers in both modes |
| `Idempotency.IdempotencyCheckerStep.HandleDuplicate` | src/mersal/idempotency/idempotency_checker_step.py:40-45 | switches every invoker off, or marks the message as repeated |
| `Idempotency.HandledInOneAttempt` | src/mersal/idempotency/idempotency_checker_step.py:18-45 | however attempts interleave, the handlers of one id run unmarked in one attempt only, each at most once and in order, and with `stop_invocation` no others run |
| `Idempotency.AllHandlersRun` | src/mersal/idempotency/idempotency_checker_step.py:18-45 | a first attempt in which no handler raises invokes all its handlers, and without `stop_invocation` so does every other |
| `Idempotency.AloneItRuns` | src/mersal/idempotency/idempotency_checker_step.py:18-45 | an attempt left alone: the first for its id tracks it and invokes all handlers, a later one invokes them marked, or skips them with `stop_invocation` |
| `Idempotency.RaisingEnds` | src/mersal/idempotency/idempotency_checker_step.py:18-45 | a handler that raises is the last one invoked |
| `Idempotency.EveryMarkIsTruthy` | src/mersal/idempotency/idempotency_checker_step.py:36-45 | both marks are texts that are not empty, and only the text tells a repeated message from a first delivery |
| `Idempotency.CheckAndTrackAreSteps` | src/mersal/idempotency/idempotency_checker_step.py:24-34 | the step's call is the interleaved machine's check, whatever others do in between, and track: the same duplicates and the same tracked ids |
| `Idempotency.AFailedFirstAttemptIsFinal` | src/mersal/idempotency/idempotency_checker_step.py:24-34 | once the attempt that tracked an id has ended, no handler ever runs for that id again |

## Left out

* Scheduling by anyio, clocks and signals: a step of a protocol is any await of any participant; delays are numbers; shutdown deadlines, heartbeat, backoff and the start and stop of workers are not modelled.
* A task group that is already cancelled when the worker hands a message to it.
* Sends to the worker's own input queue inside the interleaved machine: arrivals are steps of their own there; `Workers.AnyioWorker.ProcessMessageInBackground` does deliver such sends. The error queue is taken to differ from the input queue.
* Actions that register further actions while they run, and handlers that set the verdict of their context themselves.
* More than one base transport per context, which would share one list of outgoing messages. A send action that has started does not fail, as the in-memory transport's does not; the machine in `Delivery.dfy` has error handlers that fail after handing the copy over, and the one in `OutboxForwarder.dfy` has deliveries cut short.
* What an on-error action does apart from how it ends, and what the correlation error handler does apart from raising.
* Error texts: exceptions are compared by kind, and the dead-letter details join their texts by a given function.
* SagaStorages.InMemorySagaStorage.Find: says that a matching record is found, not which of several, because a dictionary's order is not part of the model.
* The uniqueness check of correlation properties, and clients that write to the object that `find_using_id` returns, which is the stored one.
* Handlers that replace a saga's data object or change its id or revision: they change its data and its marks.
* SagaSaving.SaveUnderInterference: is for interference by updates and inserts, and for conflict resolvers that do not raise; for deletes and raising resolvers there are `SagaSaving.ConflictsThatRaise` and `SagaSaving.MissingRecordsRaise`, about the round in which they end a save.
* Databases: a unit of work's session is taken to commit atomically, and an unsuccessful commit to make nothing durable.
* The in-memory and SQLAlchemy outbox storages: the relay runs against the protocol instead.
* Resolution.LookupsAgreeIffSound: is for configurations in which resolvers ask for lower-ranked types, and decorators for lower ones or for their own type when they find a truthy instance of it; cyclic requests, and a decorator that asks for a falsy instance of its own type, may recurse for ever. A callable makes a bounded number of requests, and does the same when its lookups end the same.
* PipelineInvocation.InvokeIteratively: is for steps that see the rest of the pipeline only by calling it; one that compared closures could tell the two invokers apart.
* Forms of numbers that Python's `int` also accepts: surrounding white space, underscores, and digits that are not ASCII; and its limit on the length of numbers.
* File-system storages and transports, logging, serializers, routing, subscriptions, application set-up and plugin wiring: thin wrappers, look-ups, or disk and library behaviour.
* `pdb_on_exception`, random ids and time stamps: ids and times are given.
