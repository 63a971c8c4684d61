# Valve controller: a verified model

A controller for irrigation valves. Each valve has a pipeline with two goroutines:
the action loop takes commands from a bounded queue, sends them over MQTT, waits for
the device to confirm, and closes a timed open again; the keep-closed ping sends OFF
on its own ticker. Both wait for device reports through a dispatcher and share the
valve's record. The point of the program is physical: a confirmed timed open is
closed again whatever happens, and "closed" is never recorded without evidence.

The project proves this about a model of the code.

- `Device.dfy`: the records of valves and actions.
- `DispatchKeys.dfy`, `Dispatcher.dfy`: canonical identifiers; the dispatcher as a
  class over a map of slices, refined to a plain list of subscriptions.
- `ActionQueue.dfy`, `Waiters.dfy`: the bounded channel with its producers, and the
  confirmation futures, as small step systems. `Hub.dfy` puts the futures on the dispatcher;
  `WaiterRace.dfy` takes one future apart into the single lines of its bodies.
- `Machine.dfy`: one pipeline and everything that acts on it as one step system, with
  logs of sends, attempts, writes and executions.
- `Frames.dfy`, `Books.dfy`, `Lifecycle.dfy`, `Traffic.dfy`, `Evidence.dfy`,
  `Verdicts.dfy`, `Outcomes.dfy`, `Fates.dfy`, `PingRounds.dfy`, `Timing.dfy`: the
  invariants. `Reachability.dfy` puts them together over all runs; `Order.dfy` says which
  writes follow each other, and what comes after a given state.
- `Theorems.dfy`: what follows; `PingTheorems.dfy`: what follows for the ping;
  `Limits.dfy`: MaxOpenDuration in time. `Witness.dfy`, `HoldRuns.dfy`: runs that reach
  surprising ends.
- `PipelineCode.dfy`: the pipeline as a class whose methods update its fields, with the
  loops of the source. Between two critical sections anything else may act. Its
  invariant is that its state is one the step system reaches, so the theorems hold of it.
- `Scheduler.dfy`: the registry of pipelines. `Bridge.dfy`: the routing of ZbStatus3
  replies to queries.

How the model reads the code:

- A step holds at most one critical section, context check, channel operation or
  dispatcher access, with the local code around it. Publishes and status writes are a
  begin and an end step. Time passes only in its own step.
- The receive at line 334 of `internal/scheduler/pipeline.go` and the context check at
  line 340 are one step, as are lines 219-221, 231-234, 243-245, 251-269 and 177-181
  with line 278. Lines 221 and 231 are separate steps, so a ping can act while a timed
  open is briefly fulfilled. The ping's check and its write (lines 467 and 468) are
  separate, and so are the removal of the current action and its entry into the history.
- The handler body of a waiter (lines 534-546) and its timeout body (lines 551-557) are
  each one step; in the code they are not mutually atomic. `WaiterRaces.SecondCloseExactly`
  says exactly when their interleaving closes `done` twice, which stops the controller;
  in every other interleaving there is one outcome, as in the model.
- A run is prompt when time passes only while the action loop blocks, and a timer, a
  context deadline or the 10 s limit of a status write is acted on when it is reached.
  `Theorems.ClosedInTime` and the theorems of `Limits.dfy` need this; the runs of
  `HoldRuns.dfy` are prompt.
- A publish succeeds, fails or blocks at will, in prompt runs until its context ends.
- Action objects live in a map by id; lists of actions are lists of ids. Ids are new.
- Slices and channels are sequences, times are milliseconds, errors are values.
- A new pipeline's record may carry a CurrentActionID. It stays until the first timed
  open is announced or a command is confirmed, since a failing command does not clear it.
- The one-step methods of `PipelineCode.dfy` have no row below: each states its effect on
  the fields it changes and ties it to one step of `Machine.dfy`.

Where code and documentation disagree, the model follows the code:

- MaxOpenDuration is called a hard limit (`api/v1alpha1/mqttvalve_types.go:45`), but only
  converts an untimed open, and the timer of line 238 starts only after the status writes of
  lines 379 and 494. `Limits.OpenLimit` says exactly when a close starts within the limit,
  and `Limits.LimitKeptExactly` that a duration keeps the limit in all prompt runs exactly
  if it leaves room for both writes, 20 s. `Limits.LimitExceeded` (a longer duration was
  requested) and `Limits.LimitMissed` (none was) are runs in which it is not kept.
- A close cancels the running action, but an attempt without a successful publish goes on
  without looking at its context, so the action may end failed. `Theorems.CancelledExactly`
  says when it ends cancelled, `Witness.CancelledYetFailed` gives a run in which it does not.
- A timed open is fulfilled for a moment before it is closing, and the ping checks before it
  writes. `HoldRuns.PingSendsIntoHold` and `HoldRuns.PingClosesHeldOpen` are the runs in which
  the ping gets in between; `PingTheorems.HoldDisturbedExactly` and
  `PingTheorems.PingOverwritesNewerOpens` say exactly when it does.
- Overlapping ZbStatus3 queries for one device disturb each other.
  `Bridging.RepliesRouted` says exactly when a query stays registered.

## Model

| member | source | states |
|---|---|---|
| `Theorems.ConfirmedTimedOpenIsClosed` | internal/scheduler/pipeline.go:231-270 | over every run, an ended timed open has made an OFF send call in its close phase exactly if its ON was confirmed; it then ends fulfilled exactly if that close was confirmed, and otherwise failed with FailedAt = ClosedAt; without a confirmed ON it ends failed or cancelled |
| `Theorems.FulfilledExactlyIfConfirmed` | internal/scheduler/pipeline.go:195-221 | every other ended command is fulfilled exactly if a confirmation of it was recorded, and has no close phase |
| `Theorems.AttemptSucceedsExactly` | internal/scheduler/pipeline.go:290-343 | an ended attempt succeeded exactly if one of its publishes went through and its waiter was called with a confirming event before it gave up |
| `Theorems.WhatConfirms` | internal/scheduler/pipeline.go:528-547 | an event confirms an attempt exactly if it was dispatched after the waiter was registered, reports the commanded power, and names by name or address the CommandTarget the attempt itself read |
| `Theorems.NoConfirmationLost` | internal/scheduler/pipeline.go:304-312 | every event that would confirm an unsettled waiter and was dispatched since its registration is on its way to the handler |
| `Theorems.RecordedStateHasEvidence` | internal/scheduler/pipeline.go:351-364 | in every reachable state the recorded valve state is the initial one or the last write; open is written only by the action loop; open and closed only on a report of that power by the commanded device, dispatched after the attempt or ping round of the write began and its waiter was registered, and before the write; unknown only over a recorded closed |
| `Theorems.RecordedExactlyIfSucceeded` | internal/scheduler/pipeline.go:334-338 | a confirmation of a command is recorded exactly if one of the attempts of that action and phase succeeded; the write rests on the waiter of that attempt |
| `Theorems.OnlyWritesChangeState` | internal/scheduler/pipeline.go:51-60 | of all steps of everybody only the two confirmation writes and the downgrade change the recorded state, each with one log entry; config and telemetry updates never do |
| `Theorems.FailedCloseIsDowngraded` | internal/scheduler/pipeline.go:195-270 | over every run from a failed close that was not cancelled, alone or ending a timed open, to where its execution has gone on, the downgrade is one of the steps; it finds the action failed, leaves a record other than closed, and changes no record but closed |
| `Theorems.ClosedAgainOnlyOnReport` | internal/scheduler/pipeline.go:463-468 | over every run from a state whose record is not closed to one whose record is closed, the last write came in between and rests on a Power=0 report since its attempt or round began; that report came in between too, if the goroutine that wrote was not in the middle of an attempt or a round |
| `Theorems.ClosedInTime` | internal/scheduler/pipeline.go:219-252 | in prompt runs an uncancelled timed open starts its close in [ExpiresAt, ExpiresAt + 10 s], a cancelled one no later, ClosedAt is at most ExpiresAt + 10 s + 120 s + 10 s, and after that time no confirmed timed open is without its ClosedAt |
| `PingTheorems.HoldIsQuiet` | internal/scheduler/pipeline.go:235-240 | over every run within the hold of a timed open, if the ping is quiet at its start (between ticks, suppressed by its snapshot, or past its last send call), neither goroutine sends anything |
| `PingTheorems.HoldDisturbedExactly` | internal/scheduler/pipeline.go:425-458 | in every reachable state in the hold of a timed open, some run within the hold lets the ping send OFF exactly if the ping is not quiet: it read another current action or none, or is in a round with send calls left |
| `PingTheorems.ShutoffIsUndisturbed` | internal/scheduler/pipeline.go:420-427 | a quiet ping stays quiet until the close that ends the timed open has returned |
| `PingTheorems.RoundsAreComplete` | internal/scheduler/pipeline.go:444-458 | between ticks every ping round has made max(1, CloseRepeatCount) OFF calls of its own snapshot, to the device of that snapshot, in consecutive blocks |
| `PingTheorems.TickSendsExactly` | internal/scheduler/pipeline.go:414-458 | over every run from the snapshot of a tick to its end: if the action read at the snapshot is an unfinished open at the check, the tick sends nothing; otherwise exactly max(1, CloseRepeatCount) OFFs to the device, all of the snapshot |
| `HoldRuns.PingSendsIntoHold` | internal/scheduler/pipeline.go:221-234 | a run in which a ping that reads the open between fulfilled and closing sends OFF while the open is held |
| `HoldRuns.PingClosesHeldOpen` | internal/scheduler/pipeline.go:467-468 | a run in which a write that the ping was granted before records closed over a held open |
| `PingTheorems.PingOverwritesNewerOpens` | internal/scheduler/pipeline.go:467-468 | while the ping has written nothing since its check, its write overwrites an open recorded since then exactly if the last confirmed attempt is an ON that began after the check |
| `Theorems.AttemptsAreBounded` | internal/scheduler/pipeline.go:280-284 | every attempt is within the retry count its execution read at its start, and attempts of one call are numbered consecutively from zero |
| `Theorems.CounterIsBounded` | internal/scheduler/pipeline.go:301 | Action.Attempts never exceeds that retry count |
| `Theorems.AttemptTraffic` | internal/scheduler/pipeline.go:286-327 | an ended attempt made exactly one ON or max(1, CloseRepeatCount) OFF calls under the config, target and bridge it read itself, as a consecutive block of the send log |
| `Theorems.OnIsLicensed` | internal/scheduler/pipeline.go:159-175 | every ON belongs to an open whose start-of-execution config was not disabled; under a MaxOpenDuration it is timed, with the requested duration or else the limit |
| `Limits.CloseStarts` | internal/scheduler/pipeline.go:231-245 | in prompt runs the timer of a hold starts at most two status writes after the confirmation of the ON, one of them after FulfilledAt; an uncancelled close starts exactly when the timer fires, a cancelled one no later |
| `Limits.OpenLimit` | internal/scheduler/pipeline.go:159-168 | under a MaxOpenDuration an uncancelled close starts within the limit, counted from the confirmation or from FulfilledAt, exactly if the delay of the timer is at most limit minus duration; every close starts within limit + 20 s of the confirmation and limit + 10 s of FulfilledAt if no longer duration was requested, and an uncancelled one after the limit if a longer one was |
| `Limits.LimitKeptExactly` | api/v1alpha1/mqttvalve_types.go:45-48 | for any duration and limit: the close starts within the limit in all prompt runs exactly if duration + 20 s is at most the limit |
| `Limits.LimitMissed` | internal/scheduler/pipeline.go:235-238 | a run in which nothing longer than a limit of a minute was requested and the close starts 70 s after the confirmation |
| `Limits.LimitExceeded` | api/v1alpha1/mqttvalve_types.go:45 | a run in which a valve limited to one hour is held open for two |
| `Theorems.CancelledExactly` | internal/scheduler/pipeline.go:329-343 | a command that was not confirmed ends cancelled exactly if its last attempt had a successful publish and its context had ended when that attempt was judged, and otherwise failed |
| `Theorems.LateCommandFails` | internal/scheduler/pipeline.go:329-332 | if the context had ended before the last attempt began, it ends failed exactly if none of the publishes of that attempt went through |
| `Theorems.RejectedExactly` | internal/scheduler/pipeline.go:170-175 | a command without an attempt ends cancelled exactly if it is an open whose start-of-execution config was disabled |
| `Witness.CancelledYetFailed` | internal/scheduler/pipeline.go:329-332 | a run in which a close cancels an open whose publish fails: the open ends failed, not cancelled |
| `Theorems.CurrentAction` | internal/scheduler/pipeline.go:177-192 | at most one action is current, cancelFn is set exactly with it and cancels its context, and a non-empty CurrentActionID is the id of the current timed open, or what the pipeline was created with |
| `Theorems.OneActionOnePlace` | internal/scheduler/pipeline.go:64-82 | every enqueued id is in exactly one of its Enqueue call, the queue, execution, ended, dropped; at most 8 wait; executions are a subsequence of the admissions, followed by the shutdown close |
| `Theorems.HistoryIsNewest` | internal/scheduler/pipeline.go:497-504 | the history is the newest hundred, newest first, of all ended executions but the internal pings, and each of them is terminal |
| `Theorems.TerminalIsFinal` | internal/scheduler/action.go:69-75 | no step changes a terminal action, except that a confirmed timed open that is still current goes from fulfilled to closing |
| `Theorems.HistoryIsFinal` | internal/scheduler/pipeline.go:184-191 | over every run an action in the history never changes again |
| `Theorems.NeverListedTwice` | internal/scheduler/scheduler.go:140-150 | history read first and current read after any further steps never share an action, and the list has no duplicates |
| `Theorems.DispatcherServesWaiters` | internal/scheduler/pipeline.go:533-558 | in every reachable state an event makes the dispatcher call the handler of each waiter subscribed to its device, once, and no other |
| `Hubs.DispatcherCallsRecipients` | internal/mqtt/dispatcher.go:45-99 | the same over every run of registrations, events, handler calls, timeouts and unsubscribes on a dispatcher |
| `Theorems.WaiterSettlesOnce` | internal/scheduler/pipeline.go:528-564 | over every run a settled waiter keeps its one outcome |
| `Theorems.NoLeakedSubscription` | internal/scheduler/pipeline.go:543-556 | every live subscription belongs to an unsettled waiter or to a confirmed one whose unsubscribe is pending |
| `Theorems.KeyStays` | internal/device/valve.go:54-56 | a pipeline keeps its valve key for all its life |
| `Reachability.InvStep` | internal/scheduler/pipeline.go:108-470 | every step of action loop, ping, producers, devices, contexts and time keeps all invariants |
| `Reachability.ReachableInv` | internal/scheduler/pipeline.go:39-48 | the invariants hold in every state reachable from a new pipeline |
| `Reachability.PromptlyReachableInv` | internal/scheduler/pipeline.go:373-381 | the time bounds hold in every state reachable by a prompt run |
| `Waiters.ConfirmationSound` | internal/scheduler/pipeline.go:539-543 | a confirmed waiter had an event with the expected power, by the awaited device, dispatched after its registration |
| `Waiters.ConfirmationNotLost` | internal/scheduler/pipeline.go:533-547 | a confirming event dispatched since the registration is in flight while the waiter is unsettled |
| `Waiters.ConfirmationExact` | internal/scheduler/pipeline.go:549-561 | a settled waiter is confirmed exactly if a handler call with a confirming event came before it gave up |
| `Waiters.LiveSubscriptions` | internal/scheduler/pipeline.go:534-558 | the owner of a live subscription is unsettled, or confirmed |
| `WaiterRaces.SecondCloseExactly` | internal/scheduler/pipeline.go:534-557 | over every interleaving of handler calls and timeout body, line by line: done is closed twice exactly if two of them passed their checks before either closed |
| `WaiterRaces.OneOutcome` | internal/scheduler/pipeline.go:534-561 | otherwise, once the timeout body has ended and no handler is between its send and its close, exactly one outcome was sent, by the one body that closed done |
| `WaiterRaces.AtomicBodiesCloseOnce` | internal/scheduler/pipeline.go:534-557 | if every close comes right after its own check, done is never closed twice |
| `WaiterRaces.BothClose` | internal/scheduler/pipeline.go:543-557 | a run in which the handler and the timeout body both close |
| `ActionQueues.QueueConservation` | internal/scheduler/pipeline.go:64-82 | over any interleaving of Enqueue steps and dequeues: never more than 8 wait, and what left followed by what waits is what entered, without repetition |
| `ActionQueues.ExactlyOnePlace` | internal/scheduler/pipeline.go:71-80 | an id is in at most one of: Enqueue call, queue, ran, dropped, and in one of the last three once admitted |
| `ActionQueues.ExecutionOrder` | internal/scheduler/pipeline.go:115-118 | the order of execution is a subsequence of the order of admission |
| `ActionQueues.OnlyOldestDropped` | internal/scheduler/pipeline.go:75-78 | only a discard drops, only the oldest waiting action, and never its own |
| `ActionQueues.CallEndsAdmitted` | internal/scheduler/pipeline.go:79-81 | an Enqueue call ends only by putting its action last |
| `ActionQueues.EnqueueAlone` | internal/scheduler/pipeline.go:72-80 | one call alone admits its action and at most drops the oldest |
| `DispatchKeys.DispatchKeyIdempotent` | internal/mqtt/dispatcher.go:16-21 | the canonical key of a canonical key is itself |
| `DispatchKeys.DispatchKeyIdentifies` | internal/mqtt/dispatcher.go:10-21 | two identifiers share a key exactly if they are equal or are hex addresses equal up to letter case |
| `DispatchKeys.EventReaches` | internal/mqtt/dispatcher.go:82-86 | an event reaches a subscriber exactly if its non-empty name or address is the same device |
| `DispatchKeys.RenameKeepsReaching` | internal/mqtt/dispatcher.go:73-76 | a subscriber under the short address keeps receiving through every rename |
| `Dispatching.Dispatcher.constructor` | internal/mqtt/dispatcher.go:36-40 | starts without subscriptions |
| `Dispatching.Dispatcher.Subscribe` | internal/mqtt/dispatcher.go:45-52 | appends one live subscription with a new id under the canonical key |
| `Dispatching.Dispatcher.Unsubscribe` | internal/mqtt/dispatcher.go:54-67 | removes exactly that subscription from the plain list the map stands for |
| `Dispatching.Dispatcher.Dispatch` | internal/mqtt/dispatcher.go:77-99 | collects the calls of the plain list, in order |
| `Dispatching.CallsExactly` | internal/mqtt/dispatcher.go:77-99 | every live subscription under a canonical non-empty name or address is called exactly once, and no other |
| `Dispatching.UnsubscribeTwice` | internal/mqtt/dispatcher.go:54-67 | unsubscribing twice is unsubscribing once |
| `PipelineCode.Pipeline.constructor` | internal/scheduler/pipeline.go:39-48 | a new pipeline is an initial state of the step system |
| `PipelineCode.Pipeline.AttemptWithRetry` | internal/scheduler/pipeline.go:277-348 | makes at most retryCount attempts numbered from zero, each judged failed but possibly the last; returns nil exactly if the last succeeded, and the no-confirmation error only after all of them; every state on the way is a state of a run |
| `PipelineCode.Pipeline.ApplyDeviceState` | internal/scheduler/pipeline.go:351-382 | writes the confirmed position next, for this attempt and its waiter, judges the attempt as successful and returns without error |
| `PipelineCode.Pipeline.HoldOpen` | internal/scheduler/pipeline.go:235-240 | announces the action and returns only when its timer has fired or its context has ended |
| `PipelineCode.Pipeline.MarkCloseUnconfirmed` | internal/scheduler/pipeline.go:393-412 | writes the failed close exactly over a recorded closed, leaves any other record, and takes the command past its downgrade |
| `PipelineCode.Pipeline.Execute` | internal/scheduler/pipeline.go:159-273 | whatever acts in between: the action ends, is listed first, nothing is current any more, and the record agrees with what was sent and confirmed |
| `PipelineCode.Pipeline.RunLoop` | internal/scheduler/pipeline.go:115-129 | after any number of iterations every execution that began has ended, in order |
| `PipelineCode.Pipeline.Shutdown` | internal/scheduler/pipeline.go:120-127 | a valve recorded open gets one more execution, of a new close, that ends; then the loop stops |
| `PipelineCode.Pipeline.EnqueueAlone` | internal/scheduler/pipeline.go:64-82 | while nobody else acts: the newest action is admitted last, dropping only the oldest of a full queue; a close cancels the running action; nothing else changes |
| `PipelineCode.Pipeline.Enqueue` | internal/scheduler/pipeline.go:64-82 | among other producers and everybody else: the call returns only with its action last in the channel, and otherwise still blocks at line 79 on a full channel; a close cancels what is current when the call begins |
| `PipelineCode.Pipeline.UpdateConfig` | internal/scheduler/pipeline.go:51-60 | changes the spec-derived fields only |
| `PipelineCode.Pipeline.UpdateSensors` | internal/scheduler/scheduler.go:195-222 | changes the telemetry fields only |
| `PipelineCode.Pipeline.ListActions` | internal/scheduler/scheduler.go:145-149 | history, then current, with anything in between: no action twice |
| `PipelineCode.Pipeline.GetAction` | internal/scheduler/scheduler.go:128-136 | found exactly if current at the first read or in the history at the second |
| `PipelineCode.Pipeline.KeepClosedPing` | internal/scheduler/pipeline.go:414-470 | a tick that finds the action it read an unfinished open sends nothing; otherwise exactly max(1, CloseRepeatCount) OFFs of its snapshot |
| `PipelineCode.Pipeline.RecordPing` | internal/scheduler/pipeline.go:467-469 | writes closed for its round and waiter exactly if no action was in flight at the check, anything may happen between check and write; otherwise no write is one of this round |
| `PipelineCode.GenerateID` | internal/scheduler/action.go:62-66 | an id not in use |
| `Scheduling.AfterSlashOfKey` | internal/scheduler/scheduler.go:168-169 | splitting a key at its first slash gives back the name exactly if the namespace has no slash |
| `Scheduling.KeyInjective` | internal/device/valve.go:54-56 | without slashes in namespaces two valves share a key exactly if namespace and name agree |
| `Scheduling.KeyAmbiguous` | internal/device/valve.go:54-56 | with slashes two different valves can share a key |
| `Scheduling.Scheduler.constructor` | internal/scheduler/scheduler.go:34-43 | no valves |
| `Scheduling.Scheduler.RegisterValve` | internal/scheduler/scheduler.go:47-75 | both maps gain the key; a known valve keeps its pipeline with queue, history, current action and recorded state and changes only spec fields; a new one starts fresh |
| `Scheduling.Scheduler.DeregisterValve` | internal/scheduler/scheduler.go:78-91 | both maps lose the key and exactly that pipeline is told to stop |
| `Scheduling.Scheduler.Elapse` | internal/scheduler/scheduler.go:28-31 | whatever happens inside a pipeline keeps the registry in order: same keys, each pipeline under its own key |
| `Scheduling.Scheduler.Open` | internal/scheduler/scheduler.go:94-109 | refused exactly for an unknown or disabled valve; otherwise, whatever happens after that check and during the Enqueue, the call returns only with its action last in the channel, and otherwise blocks at line 79; timed exactly for a positive duration; cancels nothing |
| `Scheduling.Scheduler.Close` | internal/scheduler/scheduler.go:112-120 | refused only for an unknown valve; otherwise, whatever happens after the lookup and during the Enqueue, the call returns only with its close last in the channel, and otherwise blocks at line 79; it cancels what is current when the Enqueue begins |
| `Scheduling.Scheduler.GetAction` | internal/scheduler/scheduler.go:123-137 | finds what is current at the call or in the history at its end |
| `Scheduling.Scheduler.ListActions` | internal/scheduler/scheduler.go:140-150 | fails exactly for an unknown valve, and never lists an action twice |
| `Scheduling.Scheduler.FindKey` | internal/scheduler/scheduler.go:163-181 | over the keys in any order: for namespaces without a slash the one registered valve of that name, or which of none and several it is |
| `Bridging.BridgeClient.HandleResult` | internal/mqtt/bridge.go:171-195 | handles the replies one after the other |
| `Bridging.BridgeClient.Deliver` | internal/mqtt/bridge.go:173-193 | offers a reply to the waiter under its name, else under its address, at most once and without blocking |
| `Bridging.BridgeClient.Register` | internal/mqtt/bridge.go:218-222 | the newest query under a key takes its entry |
| `Bridging.BridgeClient.Delete` | internal/mqtt/bridge.go:223-227 | the deferred delete removes whatever is registered under the key |
| `Bridging.BridgeClient.SendZbStatus3` | internal/mqtt/bridge.go:217-249 | an answer is a reply to the queried device that came after the call began |
| `Bridging.RouteExact` | internal/mqtt/bridge.go:175-189 | a reply goes to a registered query exactly if it names its device, or addresses it while nobody waits under its name |
| `Bridging.RepliesRouted` | internal/mqtt/bridge.go:168-227 | over every run a query is registered exactly while it waits and no other query under its key began or ended meanwhile; then no reply that names its device is lost; what any query holds answers it |
| `Bridging.OverwrittenQueryMissesReply` | internal/mqtt/bridge.go:220-222 | two overlapping queries for one device: the older misses the reply |
| `Bridging.DeletedQueryMissesReply` | internal/mqtt/bridge.go:223-227 | and the newer misses it once the older has ended |

## Left out

- The Go memory model: every field access is atomic here.
- JSON parsing and building, the MQTT client library, connection handling and the bridge manager.
- What the status writer does with a status, metrics and logging: a status write is a delay of at most 10 s.
- The advisory ZbStatus3 check after a close: it only logs. The routing of its replies is modelled.
- Kubernetes reconcilers, REST handlers, configuration, database and deployment files.
- Ticker periods: a tick of the ping is a step that may happen at any time between rounds.
- The generation of random ids: a new id is assumed not to be in use.
- Several pipelines for one valve key: after a deregistration the old pipeline's shutdown close and a new pipeline are not related to each other.
- PipelineCode.Pipeline.EnqueueAlone: one call undisturbed; PipelineCode.Pipeline.Enqueue is the call among other producers.
- PipelineCode.Pipeline.RunLoop: a finite number of iterations of an endless loop.
- PipelineCode.Pipeline.GetAction: an action that both reads meet between its removal from current (line 188) and its entry into the history (line 190) is not found, as in the source.
- Hubs.DispatcherCallsRecipients: a dispatcher with the waiters of one pipeline; the subscriptions of others are covered by Dispatching.CallsExactly.
- Bridging.BridgeClient.SendZbStatus3: whether an answer arrives in time is left open; RepliesRouted says when it is in the channel.
