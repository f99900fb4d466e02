# Verified model of the Botloader control plane

Botloader runs guild scripts. A broker forwards Discord events to a scheduler; the
scheduler keeps one handler and one VM session per guild; sessions claim worker
processes from a pool, dispatch numbered events to the VM inside them, collect acks
and give the workers back. Around that core sit the command trees scripts
contribute, their timers and tasks, and two limiters.

The modules model these parts and prove what they promise together. Most of the
guarantees rest on the order of messages between components, so the protocol parts
are state machines over explicit FIFO channels, with theorems about every state of
every run. The objects that the program updates in place are classes, and their
methods are proved equal to the step functions the run theorems are about. Where the
steps of a state machine are finer than an object's methods, a separate module ties the
two: `SessionRuns.dfy` shows that the session object's claims, dispatches and loads are
runs of the protocol, `ClientRuns.dfy` that what the client object forwards is the log
of the delivery protocol. The broker's half of `Delivery.dfy` is finer than the broker
object, which has theorems of its own in `Broker.dfy`.

| file | what it holds |
|---|---|
| `Protocol.dfy` | sessions, workers and VMs as steps over channels |
| `Isolation.dfy`, `Tokens.dfy`, `Quiescence.dfy`, `Bookkeeping.dfy`, `Replies.dfy` | guild isolation in both directions, quiescent return, ack bookkeeping over all runs |
| `Progress.dfy`, `Dispatches.dfy` | a held worker comes back within a bounded number of steps; which dispatched events are lost |
| `VmSession.dfy`, `VmWorker.dfy`, `SessionRuns.dfy` | the session, the worker process and the VM tick loop as objects; the session object's loops as protocol runs |
| `WorkerPool.dfy`, `PoolRuns.dfy`, `PoolHistory.dfy` | the tiered worker pool; grant order, conservation, affinity and served requests over all runs |
| `Broker.dfy`, `BrokerClient.dfy`, `Delivery.dfy`, `ClientRuns.dfy` | the event queue, the client loop, and end-to-end delivery between them |
| `GuildScheduler.dfy`, `SchedulerRuns.dfy`, `SchedulerHistory.dfy`, `SchedulerLoop.dfy` | guild handlers, suspensions and queued events |
| `CommandMerge.dfy`, `CommandUnion.dfy`, `CommandConflicts.dfy` | merging command trees: loops, idempotence, left-biased union, which paths survive conflicts |
| `CommandRoundTrip.dfy`, `CommandLeaves.dfy`, `CommandScripts.dfy` | nesting, invoking, flattening and matching commands, for one script and for several merged |
| `IntervalTimers.dfy`, `IntervalRuns.dfy`, `IntervalExact.dfy`, `IntervalHistory.dfy` | interval timers: spacing of firings, acks, contributions |
| `ScheduledTasks.dfy`, `TaskHistory.dfy` | the cached next task time, registered names, pending tasks and the fate of rescheduled ones |
| `StorageLimiter.dfy`, `FailureWindow.dfy` | the storage quota check and the failed-request window |
| `Common.dfy` | options, distinct sequences, subsequences |

Time, the network, the pool's choice of worker, the store's answers and the hash
map's order are parameters or nondeterministic steps, so the theorems hold whatever
they do.

## Findings

Properties that are false of the code as it stands, each with a witness and the
condition under which it holds:

- A reload sent to a worker that is already held is not tracked, and neither is the
  request to complete of a session that shuts down, so a `NonePending` already on its
  way returns the worker with the scripts or the request unread
  (`Quiescence.ReloadToHeldWorkerBreaksIt`, `Quiescence.ShutdownOfSessionBreaksIt`).
  `Quiescence.QuiescentReturn` covers every worker that since it was last settled was
  sent neither and suffered no forced shutdown, whatever happens to other workers.
- The next guild that claims such a worker reads replies that are not its own. The ack
  of the stale reload can carry a number the new session uses for a stored task, which
  is then deleted although no VM has seen its event (`Replies.ForeignAckDeletesTask`);
  the VM told to complete reports its shutdown to the new session
  (`Replies.ForeignShutdownIsRead`). `Replies.ForeignRepliesExactly` says of every claim
  in every run whether that can happen.
- A failed Hello does not refresh the broker's disconnect time, so events can be lost
  within a minute of the last scheduler (`Broker.FailedHelloKeepsOldDeadline`);
  `Broker.LostWithinAMinuteExactly` says when.
- A command that precedes an undeclared subgroup of its own name makes that
  subgroup's commands impossible to invoke
  (`CommandLeaves.ShadowedCommandCannotBeInvoked`, exactly when by
  `CommandLeaves.InvocableExactly`). The only caller of `to_twilight_commands`
  (cmd/scheduler/src/vm_session.rs:536-540) passes groups a script collected from its
  own commands, and `CommandLeaves.ScriptRoundTrip` shows that these never run into it.
- A group first met through a subgroup is given the subgroup's description
  (`CommandLeaves.CollectedDescriptionIsWrong`, exactly when by
  `CommandLeaves.CollectedDescriptionIsOwnExactly`).
- Merging is not idempotent for a command that repeats a subgroup name
  (`CommandMerge.RepeatedSubgroupIsNotIdempotent`, exactly when by
  `CommandMerge.ListIdempotentExactly`).
- Scripts that disagree on kinds lose paths (`CommandUnion.KindConflictLosesPath`,
  exactly which by `CommandConflicts.PathsSurviveExactly`).
- A failed store write followed by a reload lets an interval timer fire again at
  once (`IntervalRuns.FailedWriteBreaksSpacing`; which acks are respected, exactly, by
  `IntervalExact.AcksRespectedExactly`).
- The store narrows an interval to 32 bits, so the next run is as asked only below 2^31
  minutes and lies before the last run whenever the lower 32 bits are 2^31 or more
  (`IntervalRuns.HugeIntervalIsDueAtOnce`, exactly when by
  `IntervalRuns.NextRunAsAskedExactly`).
- A task rescheduled under its own key while a run of it is in flight is deleted by
  the ack of that run (`ScheduledTasks.RescheduledTaskIsLost`, exactly when by
  `ScheduledTasks.RescheduledTaskLostExactly`).
- A storage call that waits for a usage query that then fails is admitted, outside
  any budget (`StorageLimiter.WaiterAdmittedAfterFailedQuery`, exactly when waiters are
  admitted by `StorageLimiter.WaitersAdmittedExactly`).

## Model

| member | source | states |
|---|---|---|
| `Protocol.NextKeepsLinked` | cmd/scheduler/src/vm_session.rs:399-476 | every step keeps sessions and workers in agreement on who holds whom |
| `Isolation.GuildIsolation` | cmd/scheduler/src/vm_session.rs:399-464 | in every state of every run, each event a VM took or has queued was dispatched by the session of the guild that VM was created for, also when the same-guild shortcut skips the scripts |
| `Isolation.NoForeignVmEvent` | cmd/vmworker/src/main.rs:246-300 | no worker ever sees an event of a VM other than the one it runs, so the guild filter on VM events discards nothing |
| `Isolation.WorkerStepIsolated` | cmd/vmworker/src/main.rs:199-373 | every step of a worker or its VM keeps the routing invariant |
| `Isolation.ClaimIsolated` | cmd/scheduler/src/vmworkerpool.rs:55-69 | claiming a worker, with or without sending scripts, keeps its inbox routed to the right VM |
| `Quiescence.QuiescentReturn` | cmd/scheduler/src/vm_session.rs:276-308 | a worker returned as healthy, which since it was last settled (free, quiescent and with a VM, or new) was not shut down, asked to complete or reloaded while held, has had every dispatched event taken exactly once and in order, an idle VM of the returning guild, and none of the modelled messages in any channel, whatever happened to other workers |
| `Quiescence.PendingIsOnTheLine` | cmd/scheduler/src/vm_session.rs:276-305 | for a worker steady in that sense, every ack its session waits for is still on its channels, as a dispatch to be taken or an ack to be read |
| `Quiescence.ReloadToHeldWorkerBreaksIt` | cmd/scheduler/src/vm_session.rs:170-197 | a reachable run in which a reload to a held worker makes the return not quiescent |
| `Quiescence.ShutdownOfSessionBreaksIt` | cmd/scheduler/src/vm_session.rs:138-163 | a reachable run in which a session shutdown makes the return not quiescent |
| `Quiescence.NextOk` | cmd/scheduler/src/vm_session.rs:276-476 | every step that does not shut the worker down or reload it while held keeps it either quiescent and free, or held with its channels in the order that makes NonePending trustworthy |
| `Replies.ForeignRepliesExactly` | cmd/scheduler/src/vm_session.rs:429-464 | of every claim in every run: the session can come to read a message of another guild from the worker if and only if the claimed worker carries one, carries scripts of another guild, or has a VM of another guild that is not at rest, was told to complete, or will be handed something before it is replaced; reloads and shutdowns within the hold make no difference |
| `Replies.RepliesAreOwn` | cmd/vmworker/src/main.rs:229-373 | as long as a hold that began with nothing of another guild lasts, every Ack, NonePending, ScriptStarted, TaskScheduled and Shutdown still to be read, and every runtime event behind them, is the holder's own |
| `Replies.SteadyWorkerCarriesNothing` | cmd/scheduler/src/vm_session.rs:276-308 | a free worker that was steady since it was last settled carries nothing of another guild, whoever claims it |
| `Replies.ForeignAckDeletesTask` | cmd/scheduler/src/vm_session.rs:170-184 | a reachable run in which the ack of another guild's reload deletes a stored task before any VM has seen its event |
| `Replies.ForeignShutdownIsRead` | cmd/scheduler/src/vm_session.rs:138-146 | a reachable run in which a session is to read the shutdown of another guild's VM |
| `Bookkeeping.AckBookkeeping` | cmd/scheduler/src/vm_session.rs:399-476 | no worker held means no ack pending; every pending number was dispatched to the worker now held; numbers are never reused; each deletion was of the task dispatched under the acked number, at most once per dispatch |
| `Progress.HoldMovesOn` | cmd/scheduler/src/vm_session.rs:276-308 | no hold gets stuck: while a session holds a worker that it wrote to and that was steady since it was last settled, the worker, its VM or the session can handle something that is there |
| `Progress.HoldEnds` | components/vm/src/vm.rs:222-286 | as long as only what is there is handled, such a worker is given back within a number of steps bounded by what is on its channels |
| `Dispatches.DispatchesKeptExactly` | cmd/vmworker/src/main.rs:199-373 | in every run, for every worker since it connected, the events sent to it are those its VMs took and then those waiting, in order and without a gap, if and only if no event found the worker without a VM and no VM was replaced, shut down or closed with events still to take; a restart by the same guild loses none |
| `VmSession.VmSession.constructor` | cmd/scheduler/src/vm_session.rs:50-82 | a fresh session holds nothing, awaits nothing, and starts its ids at 1 |
| `VmSession.VmSession.GenId` | cmd/scheduler/src/vm_session.rs:494-497 | the next number, recorded as issued |
| `VmSession.VmSession.HandleWorkerMsg` | cmd/scheduler/src/vm_session.rs:276-322 | the new session state and every effect on timers, tasks and pool, for each worker message; the bookkeeping invariant is kept |
| `VmSession.VmSession.BrokenWorker` | cmd/scheduler/src/vm_session.rs:466-476 | all remaining messages are handled in order before the worker is given back as broken and everything is reset |
| `VmSession.VmSession.TryOffer` | cmd/scheduler/src/vm_session.rs:431-462 | one round of claiming: scripts sent unless the worker last served this guild and no reload is forced |
| `VmSession.VmSession.EnsureClaimWorker` | cmd/scheduler/src/vm_session.rs:429-464 | the claim loop equals the recursive specification over the pool's offers, with its effects in order |
| `VmSession.VmSession.TryTurn` | cmd/scheduler/src/vm_session.rs:404-426 | one round of the dispatch loop |
| `VmSession.VmSession.DispatchWorkerEvt` | cmd/scheduler/src/vm_session.rs:399-427 | the dispatch retry loop equals its specification, with effects in order, and keeps the bookkeeping invariant |
| `VmSession.VmSession.LoadContribs` | cmd/scheduler/src/vm_session.rs:170-197 | both arms: scripts to the held worker, or reset and claim |
| `VmSession.DispatchOutcome` | cmd/scheduler/src/vm_session.rs:399-427 | a finished dispatch ends with the event written to the worker now held, under a number pending for exactly that event |
| `VmSession.DispatchOverOk` | cmd/scheduler/src/vm_session.rs:399-464 | any number of broken workers and failed claims during a dispatch keeps the bookkeeping invariant |
| `VmSession.ClaimFromOk` | cmd/scheduler/src/vm_session.rs:429-464 | so does any sequence of useless offers |
| `SessionRuns.ClaimOutcome` | cmd/scheduler/src/vm_session.rs:429-464 | a successful claim takes one of the offers; either that worker served this guild last, no load was forced and nothing was written, or the last thing written is the guild's CreateScriptsVm, to it, under the newest number |
| `SessionRuns.LoadSendsScripts` | cmd/scheduler/src/vm_session.rs:186-196 | loading scripts without a worker sends them to whichever worker is claimed |
| `SessionRuns.MessageEffectsExactly` | cmd/scheduler/src/vm_session.rs:276-322 | which message acks which task or timer, returns the worker, loads a script, refreshes the tasks or resets the contributions |
| `SessionRuns.ClaimIsRun` | cmd/scheduler/src/vm_session.rs:429-464 | from any state, the object's claim is a run of the protocol over the offers, and the inboxes gain exactly what it wrote |
| `SessionRuns.BrokenIsRun` | cmd/scheduler/src/vm_session.rs:466-476 | so is giving up a broken worker |
| `SessionRuns.DispatchIsRun` | cmd/scheduler/src/vm_session.rs:399-464 | so is a dispatch with any number of broken workers and failed claims |
| `SessionRuns.LoadIsRun` | cmd/scheduler/src/vm_session.rs:170-197 | so is loading scripts, to the held worker, a broken one, or the worker claimed |
| `SessionRuns.DispatchKeepsIsolation` | cmd/scheduler/src/vm_session.rs:399-464 | after any dispatch of the object every worker is still routed to its guilds |
| `VmWorker.Worker.HandleRuntimeEvt` | cmd/vmworker/src/main.rs:229-245 | each runtime event becomes the corresponding message to the session |
| `VmWorker.Worker.DrainRuntime` | cmd/vmworker/src/main.rs:293-295 | all waiting runtime events are written, in order, before anything else |
| `VmWorker.Worker.HandleCreateScriptsVm` | cmd/vmworker/src/main.rs:302-373 | restart of a VM of the same guild, replacement of any other, then the ack |
| `VmWorker.Worker.HandleSchedulerCmd` | cmd/vmworker/src/main.rs:199-227 | equals the protocol's worker step on the oldest message |
| `VmWorker.Worker.HandleVmEvt` | cmd/vmworker/src/main.rs:246-300 | equals the protocol's worker step on the oldest VM event, with runtime events flushed before NonePending |
| `VmWorker.TickLoop.Tick` | components/vm/src/vm.rs:222-286 | one turn of the VM loop with its termination check, wake-ups, closed command channel and completed flag equals the protocol's VM steps, reporting completion once per idle period |
| `WorkerPool.VmWorkerPool.FindAffine` | cmd/scheduler/src/vmworkerpool.rs:84-94 | the first worker of a tier that last served the guild, or none exists |
| `WorkerPool.VmWorkerPool.FindLongestIdle` | cmd/scheduler/src/vmworkerpool.rs:106-121 | the worker idle longest, earliest among equals |
| `WorkerPool.VmWorkerPool.InnerGetWorker` | cmd/scheduler/src/vmworkerpool.rs:71-139 | affinity on the highest tier first, then least recently used, never above the request's tier; otherwise the request is queued |
| `WorkerPool.VmWorkerPool.ReqWorker` | cmd/scheduler/src/vmworkerpool.rs:55-69 | the worker taken is claimed for the guild, and reported as the guild's own if and only if an idle worker at or below the tier served it last |
| `WorkerPool.ChosenIsUnique` | cmd/scheduler/src/vmworkerpool.rs:71-139 | the selection rule names at most one worker |
| `WorkerPool.VmWorkerPool.AddWorkerToPool` | cmd/scheduler/src/vmworkerpool.rs:172-197 | the worker goes to the oldest request of the highest waiting tier that may have it, else to its pool |
| `WorkerPool.VmWorkerPool.ReturnWorker` | cmd/scheduler/src/vmworkerpool.rs:147-170 | a broken worker is replaced by a new one of its tier, a healthy one handed on or pooled |
| `WorkerPool.VmWorkerPool.WorkerConnected` | cmd/scheduler/src/vmworkerpool.rs:232-241 | a starting worker is handed on or pooled, an unknown id ignored |
| `WorkerPool.VmWorkerPool.Spawn` | cmd/scheduler/src/vmworkerpool.rs:210-230 | a fresh id in the starting set |
| `PoolRuns.GrantOrder` | cmd/scheduler/src/vmworkerpool.rs:71-197 | in every run, every grant, immediate or by hand-over, goes to a request with no higher tier waiting and no older one of its tier, with a worker of no higher tier |
| `PoolRuns.PoolConservation` | cmd/scheduler/src/vmworkerpool.rs:141-241 | in every state a request waits only while all pools it may use are empty, each worker is in exactly one place, and per tier idle, claimed and starting workers add up to those spawned |
| `PoolRuns.NextOk` | cmd/scheduler/src/vmworkerpool.rs:71-241 | every step keeps grant order and conservation |
| `PoolHistory.PoolRemembers` | cmd/scheduler/src/vmworkerpool.rs:147-197 | in every state of every run an idle worker carries the guild of its last grant and the time it last came in, and a claimed one the guild it was granted to |
| `PoolHistory.OwnWorkerExactly` | cmd/scheduler/src/vmworkerpool.rs:71-126 | in every run a guild that asks gets a worker last granted to it if and only if one is idle at or below its tier; otherwise the one that came in first in the highest tier that has any |
| `PoolHistory.RequestsServedInOrder` | cmd/scheduler/src/vmworkerpool.rs:128-197 | in every run the requests of a tier that had to wait are those handed a worker since, in order of arrival, then those in the queue |
| `Broker.QueueInvariant` | cmd/discordbroker/src/broker.rs:264-348 | after any connections and events: connected means nothing queued; acked then queued events are the dispatched ones, or an ordered subsequence once the queue expired |
| `Broker.OnConnectOk` | cmd/discordbroker/src/broker.rs:264-311 | a new connection moves as many events from queued to acked as the scheduler acknowledges, without losing or reordering any; the scheduler counts as connected if and only if it answered the Hello and took the whole queue |
| `Broker.OnEventOk` | cmd/discordbroker/src/broker.rs:313-348 | a new event keeps the invariant whether sent, requeued or expired; it is acked, and the scheduler stays connected, if and only if it was connected and took it |
| `Broker.LossExactly` | cmd/discordbroker/src/broker.rs:313-348 | an event makes the broker lose something exactly when no scheduler is connected and the recorded disconnect is more than a minute old |
| `Broker.LostWithinAMinuteExactly` | cmd/discordbroker/src/broker.rs:264-348 | after any run: unless the last scheduler was lost by an unanswered Hello, events are lost exactly when that loss is more than a minute old; within the minute they are lost exactly when it was an unanswered Hello and the disconnect recorded before it is more than a minute old |
| `Broker.FailedHelloKeepsOldDeadline` | cmd/discordbroker/src/broker.rs:264-283 | a run in which a queued event is thrown away one millisecond after an unanswered Hello |
| `Broker.Broker.HandleNewSchedulerConnected` | cmd/discordbroker/src/broker.rs:264-311 | equals the connection step: Hello, then the queue until the connection fails |
| `Broker.Broker.SendPending` | cmd/discordbroker/src/broker.rs:286-310 | the requeue loop: acknowledged events form a prefix and the rest is queued again in order |
| `Broker.Broker.QueueEvent` | cmd/discordbroker/src/broker.rs:340-348 | queueing, or clearing the queue after 60 seconds |
| `Broker.Broker.DispatchOrQueueEvent` | cmd/discordbroker/src/broker.rs:313-338 | sending with requeue on failure |
| `BrokerClient.Client.Run` | cmd/scheduler/src/broker_client.rs:37-72 | a prefix of the stream is forwarded in order, ending before the stream does only when the scheduler takes no more or an ack cannot be written; every forwarded message but possibly the last is acked, and the last unless its ack cannot be written |
| `BrokerClient.Client.BrokerClient` | cmd/scheduler/src/broker_client.rs:9-29 | the reconnect loop hands the scheduler exactly the transcript of the connections, in which messages lie only between a connect and the next disconnect |
| `Delivery.EndToEndDelivery` | cmd/scheduler/src/broker_client.rs:9-72 | in every run over failing connections the client's log, adjacent duplicates collapsed, is a prefix of the dispatch order with all acked events and at most one more |
| `Delivery.NothingForgotten` | cmd/discordbroker/src/broker.rs:264-369 | acked events followed by those in hand or queued are always exactly the dispatched ones |
| `ClientRuns.TranscriptIsLog` | cmd/scheduler/src/broker_client.rs:9-72 | in every state of every run of the delivery protocol, the events forwarded so far are those in the transcript the client object makes of the run's connections |
| `SchedulerRuns.SuspensionWindow` | cmd/scheduler/src/scheduler.rs:126-340 | no handler of a guild starts within 15 seconds of a suspension for CPU, or 10 minutes of one for invalid requests, recorded before |
| `SchedulerRuns.SuspendedIsQuietAndHandlersSingle` | cmd/scheduler/src/scheduler.rs:73-95 | a suspended guild has no queued event and no pending start; at most one handler per guild runs |
| `SchedulerRuns.PerGuildOrder` | cmd/scheduler/src/scheduler.rs:126-166 | events handed to successive handlers, then those queued, are a subsequence of the arrivals; events queue only while the handler takes no more |
| `SchedulerRuns.NextOk` | cmd/scheduler/src/scheduler.rs:73-95 | every step of the main loop and of a handler keeps all three invariants |
| `SchedulerHistory.MayRunExactly` | cmd/scheduler/src/scheduler.rs:329-339 | in every run a guild may run if and only if each session event read for it so far lies further back than its suspension lasts |
| `SchedulerHistory.EventsKeptExactly` | cmd/scheduler/src/scheduler.rs:126-296 | in every run the events handed to a guild's handlers, then those queued for it, are its events in order of arrival without those that came while it was suspended and those a suspension found queued |
| `SchedulerHistory.NothingLostUnlessSuspended` | cmd/scheduler/src/scheduler.rs:235-296 | without a session event of the guild they are exactly its arrivals |
| `SchedulerHistory.HandlersExactly` | cmd/scheduler/src/scheduler.rs:73-327 | in every run, after every step, which guilds have a handler registered, which of these have not been told to stop, and how often a start is pending, from the state before and the session events read |
| `SchedulerLoop.Scheduler.TryUnsuspendGuild` | cmd/scheduler/src/scheduler.rs:329-339 | allowed exactly when not suspended or strictly past the duration, which lifts the suspension |
| `SchedulerLoop.Scheduler.GetOrStartGuild` | cmd/scheduler/src/scheduler.rs:300-319 | an existing handler or a newly started one |
| `SchedulerLoop.Scheduler.SendOrQueueBrokerEvt` | cmd/scheduler/src/scheduler.rs:282-296 | delivered to a live handler, otherwise queued at the end |
| `SchedulerLoop.Scheduler.CollectIndexes` | cmd/scheduler/src/scheduler.rs:138-149 | exactly the guild's positions, ascending |
| `SchedulerLoop.Scheduler.DrainGuild` | cmd/scheduler/src/scheduler.rs:138-160 | the reversed-index removal is a stable partition of the queue |
| `SchedulerLoop.Scheduler.CheckQueueStartWorker` | cmd/scheduler/src/scheduler.rs:126-166 | first pending start removed and started, drained events resent in order |
| `SchedulerLoop.Scheduler.MarkGuildAsSuspended` | cmd/scheduler/src/scheduler.rs:187-205 | the suspension recorded and the guild's starts and events dropped, others kept in order |
| `SchedulerLoop.Scheduler.ShutdownHandlers` | cmd/scheduler/src/scheduler.rs:321-327 | every handler told to stop, none removed |
| `SchedulerLoop.Scheduler.BrokerHello` | cmd/scheduler/src/scheduler.rs:211-229 | shutdown, then start or schedule each connected guild that may run |
| `SchedulerLoop.Scheduler.DiscordEvent` | cmd/scheduler/src/scheduler.rs:235-250 | dropped while suspended, otherwise sent or queued |
| `SchedulerLoop.Scheduler.DiscordGuildDelete` | cmd/scheduler/src/scheduler.rs:240-246 | the guild's handler is told to stop |
| `SchedulerLoop.Scheduler.ReloadGuildScripts` | cmd/scheduler/src/scheduler.rs:254-271 | starts the handler unless suspended, and forwards the reload to it unless it was told to stop |
| `SchedulerLoop.Scheduler.HandlerFinished` | cmd/scheduler/src/scheduler.rs:83-90 | a finished handler is removed and, if the guild may run, its queue restarts it |
| `SchedulerLoop.Scheduler.HandleGuildHandlerEvent` | cmd/scheduler/src/scheduler.rs:168-185 | a session event suspends the guild |
| `CommandMerge.MergeScriptCommands` | cmd/scheduler/src/command_manager.rs:373-390 | the nested loops compute the fold over all scripts' commands |
| `CommandMerge.MergeCommand` | cmd/scheduler/src/command_manager.rs:393-435 | both early returns and the per-option cases equal the specification |
| `CommandMerge.MergeSubgroups` | cmd/scheduler/src/command_manager.rs:437-455 | a missing list is replaced by the whole source list, otherwise only unused names are added |
| `CommandMerge.MergedFixed` | cmd/scheduler/src/command_manager.rs:393-455 | merging changes nothing exactly when the destination absorbs the source |
| `CommandMerge.MergedGrows` | cmd/scheduler/src/command_manager.rs:393-455 | merging only extends: positions, names and kinds stay, descriptions leave the placeholder at most, and the result absorbs the source |
| `CommandMerge.MergeIsIdempotent` | cmd/scheduler/src/command_manager.rs:373-455 | merging the scripts twice over equals merging them once, with any kind conflicts and early returns, if each command absorbs itself |
| `CommandMerge.DistinctNamesMergeIdempotently` | cmd/scheduler/src/command_manager.rs:373-455 | in particular for distinct option names within each command |
| `CommandMerge.IdempotentExactly` | cmd/scheduler/src/command_manager.rs:373-455 | for one command, idempotence holds if and only if it absorbs itself |
| `CommandMerge.ListIdempotentExactly` | cmd/scheduler/src/command_manager.rs:373-455 | for any list, merging it twice over equals merging it once if and only if the merged list absorbs the first command of each name |
| `CommandMerge.RepeatedSubgroupIsNotIdempotent` | cmd/scheduler/src/command_manager.rs:437-455 | a command on which it fails |
| `CommandUnion.MergeIsLeftBiasedUnion` | cmd/scheduler/src/command_manager.rs:373-455 | for agreeing kinds, the merged tree as a map from paths to definitions is the left-biased union of the inputs, with distinct names at every level |
| `CommandUnion.MergedPathsExactly` | cmd/scheduler/src/command_manager.rs:373-455 | no path is lost or invented, each keeps its first definition, and commands and subgroups carry the first description that is not the placeholder |
| `CommandUnion.KindConflictLosesPath` | cmd/scheduler/src/command_manager.rs:417-429 | two scripts of conflicting kinds for which a path is lost |
| `CommandConflicts.PathsSurviveExactly` | cmd/scheduler/src/command_manager.rs:373-455 | for any list of commands with distinct option names, the merged tree has exactly the paths some command offers and no conflict hides: the first command of the name is not invoked directly, and the first definition of the subgroup is a subgroup |
| `CommandConflicts.PairLosesExactly` | cmd/scheduler/src/command_manager.rs:393-455 | of two commands of one name the second loses a path if and only if the first is invoked directly and the second nests something, or the first has a subcommand where the second has a subgroup with a leaf |
| `CommandRoundTrip.ToTwilightCommands` | cmd/scheduler/src/command_manager.rs:200-310 | the filter and the find-or-create loop compute the nesting |
| `CommandRoundTrip.AddToGroups` | cmd/scheduler/src/command_manager.rs:240-305 | one command placed in its group or subgroup, creating either |
| `CommandRoundTrip.FlattenInteraction` | components/runtime-models/src/internal/interaction.rs:25-60 | the flattening loop, with the panic on an empty subcommand group |
| `CommandRoundTrip.MatchIsKeyEquality` | components/runtime/src/ts/commands.ts:136-152 | matching a well-named command's names is equality of names, group and parent group |
| `CommandRoundTrip.NamelessGroupNeverMatches` | components/runtime/src/ts/commands.ts:136-152 | a command matches its own names exactly when its outermost group has a non-empty name |
| `CommandRoundTrip.System.AddCommand` | components/runtime/src/ts/commands.ts:22-28 | refuses exactly the commands that match the names of an earlier one |
| `CommandRoundTrip.RegisteredKeysDistinct` | components/runtime/src/ts/commands.ts:22-28 | so registered commands whose outermost group has a name have distinct keys |
| `CommandRoundTrip.System.Lookup` | components/runtime/src/ts/commands.ts:33-37 | the first matching command |
| `CommandLeaves.FlattenInvocation` | components/runtime-models/src/internal/interaction.rs:25-60 | flattening the invocation of any leaf recovers the names on its path and all arguments |
| `CommandLeaves.InvokedLeafSelectsItsCommand` | components/runtime/src/ts/commands.ts:33-37 | whatever leaf of the tree is invoked, exactly the command whose names, description, options and type it carries is selected |
| `CommandLeaves.InvocableExactly` | cmd/scheduler/src/command_manager.rs:240-305 | a command can be invoked through the tree if and only if no earlier plain command took the name of its undeclared subgroup |
| `CommandLeaves.ShadowedCommandCannotBeInvoked` | cmd/scheduler/src/command_manager.rs:255-272 | two registered commands of which the second cannot be invoked when its subgroup is not declared |
| `CommandLeaves.ScriptRoundTrip` | components/runtime/src/ts/script.ts:270-355 | with the groups a script collects from its own commands, every leaf runs its own command and every command has a leaf |
| `CommandLeaves.CollectedDescription` | components/runtime/src/ts/script.ts:308-354 | a collected group carries the description of the innermost group of the first command that belongs to it |
| `CommandLeaves.CollectedDescriptionIsOwnExactly` | components/runtime/src/ts/script.ts:313-335 | it is the group's own description if and only if that command sits directly in the group or in a subgroup described alike |
| `CommandLeaves.CollectedDescriptionIsWrong` | components/runtime/src/ts/script.ts:316-324 | commands for which a group gets its subgroup's description |
| `CommandLeaves.CollectedSubGroup` | components/runtime/src/ts/script.ts:308-354 | a collected subgroup carries the description of the group of the first command in it |
| `CommandLeaves.GroupsShown` | cmd/scheduler/src/command_manager.rs:234-310 | every declared group has its node in the tree, with its description and its subgroups with theirs |
| `CommandScripts.MergedLeafSelects` | cmd/scheduler/src/command_manager.rs:373-455 | whatever leaf of the merged tree of several scripts is invoked, with whatever conflicts, exactly the registered command whose names it carries is selected |
| `CommandScripts.MergedInvocableExactly` | cmd/scheduler/src/command_manager.rs:373-455 | a registered command can be invoked through the merged tree if and only if no conflict with another script hides its names |
| `IntervalTimers.Manager.NextEventTime` | cmd/scheduler/src/interval_timer_manager.rs:188-196 | the least next run among timers that are not pending |
| `IntervalTimers.Manager.NextTimerAction` | cmd/scheduler/src/interval_timer_manager.rs:36-50 | run exactly when some timer is due, otherwise wait no longer than the first |
| `IntervalTimers.Manager.GetTriggeredTimers` | cmd/scheduler/src/interval_timer_manager.rs:123-130 | exactly the loaded timers that are not pending and past their next run, each once |
| `IntervalTimers.Manager.TriggerTimers` | cmd/scheduler/src/interval_timer_manager.rs:52-70 | those timers fire and become pending |
| `IntervalTimers.Manager.TimerAck` | cmd/scheduler/src/interval_timer_manager.rs:72-82 | ignored unless pending; otherwise removed by swap, last and next run updated, and the store if the write succeeds |
| `IntervalTimers.Manager.ScriptStarted` | cmd/scheduler/src/interval_timer_manager.rs:95-114 | every contributed timer stored and loaded as the store gives it back, with the last run the store had, or now |
| `IntervalTimers.Manager.ClearLoadedTimers` | cmd/scheduler/src/interval_timer_manager.rs:116-118 | no timer is loaded, the store and the pending list unchanged |
| `IntervalTimers.Manager.ClearPendingAcks` | cmd/scheduler/src/interval_timer_manager.rs:119-121 | no firing is pending, timers and store unchanged |
| `IntervalExact.AcksRespectedExactly` | cmd/scheduler/src/interval_timer_manager.rs:52-196 | in every run, through resets, interval changes and failed writes: the last run a firing is computed from is at or after every earlier accepted ack that is respected (it or a later one reached the store or was not followed by a reload), and at or before every one that is not |
| `IntervalExact.IntervalSpacing` | cmd/scheduler/src/interval_timer_manager.rs:52-196 | a firing comes more than its loaded interval after every respected ack |
| `IntervalExact.SpacingWhenWritesSucceed` | cmd/scheduler/src/interval_timer_manager.rs:52-196 | with successful writes a firing comes more than the contributed number of minutes after every earlier accepted ack, for every number that survives the store |
| `IntervalExact.CronSpacing` | cmd/scheduler/src/interval_timer_manager.rs:241-247 | a cron firing is strictly after every respected ack |
| `IntervalRuns.NoDoubleFiring` | cmd/scheduler/src/interval_timer_manager.rs:52-82 | between two firings of a timer lies an ack for it or a reset |
| `IntervalRuns.FailedWriteBreaksSpacing` | cmd/scheduler/src/interval_timer_manager.rs:132-154 | a run in which a failed write and a reload let a timer fire at the instant of its ack |
| `IntervalRuns.NextRunAsAskedExactly` | cmd/scheduler/src/interval_timer_manager.rs:165-182 | in every state a loaded timer's next run is the contributed number of minutes after its last run if and only if that number is below 2^31, and before its last run if and only if the number's lower 32 bits are 2^31 or more |
| `IntervalRuns.NarrowExactly` | components/stores/src/postgres/timers.rs:57-60 | a number of minutes survives the store if and only if it is below 2^31, comes back negative if and only if its lower 32 bits are not, and is then stable |
| `IntervalRuns.HugeIntervalIsDueAtOnce` | cmd/scheduler/src/interval_timer_manager.rs:156-186 | a run that loads an interval of 2^31 minutes, whose timer is due at once |
| `IntervalHistory.StoredExactly` | cmd/scheduler/src/interval_timer_manager.rs:95-172 | scripts that start leave in the store, for every timer name, the last contribution with the last run stored before or else now |
| `IntervalHistory.LoadedExactly` | cmd/scheduler/src/interval_timer_manager.rs:156-226 | and loaded the last contribution that can be scheduled, due one interval after that last run, or what was loaded if there is none |
| `IntervalHistory.AckExactly` | cmd/scheduler/src/interval_timer_manager.rs:72-154 | the ack of a pending, loaded timer makes now its last run, in the store if the write succeeds, and its next run one interval later, or 1000 hours if its expression has none; other timers and other acks change nothing |
| `IntervalHistory.FiresExactly` | cmd/scheduler/src/interval_timer_manager.rs:52-70 | triggering makes exactly the named timers pending, one firing each |
| `IntervalHistory.PendingExactly` | cmd/scheduler/src/interval_timer_manager.rs:52-121 | in every run a timer is pending if and only if it fired and was neither acknowledged nor cleared since |
| `ScheduledTasks.NeverOversleeps` | cmd/scheduler/src/scheduled_task_manager.rs:33-146 | in every run a cached time fetched without error is no later than any stored task that is registered, not pending and whose creation notice was handled |
| `ScheduledTasks.DueTasksRun` | cmd/scheduler/src/scheduled_task_manager.rs:54-66 | so a due task makes the session run and any other wakes it in time |
| `ScheduledTasks.NextOk` | cmd/scheduler/src/vm_session.rs:306-308 | triggers, acks, script starts, resets, creations, notices and script-side deletes all keep the cache safe |
| `ScheduledTasks.StartsExactlyDue` | cmd/scheduler/src/scheduled_task_manager.rs:68-88 | starting tasks leaves none due and starts no other |
| `ScheduledTasks.AckDeletesUnrunExactly` | cmd/scheduler/src/scheduled_task_manager.rs:90-109 | an ack that arrives while a created version is stored deletes it, and did not run it exactly when its run was in flight at the creation |
| `ScheduledTasks.StoredUntilAck` | cmd/scheduler/src/scheduled_task_manager.rs:90-109 | untouched by scripts, a created version is stored exactly until the first ack of a run of its id |
| `ScheduledTasks.RescheduledTaskLostExactly` | cmd/scheduler/src/scheduled_task_manager.rs:68-109 | without script deletes a created task is deleted before it ran if and only if the first ack of its id afterwards is of a run in flight at its creation; with none in flight never |
| `ScheduledTasks.RescheduledTaskIsLost` | cmd/scheduler/src/scheduled_task_manager.rs:90-109 | a run in which that happens although a reset in mid-dispatch had emptied the pending list |
| `TaskHistory.NamesExactly` | cmd/scheduler/src/scheduled_task_manager.rs:137-146 | in every run a task name is registered if and only if a script that contributes it started since the last reset |
| `TaskHistory.PendingExactly` | cmd/scheduler/src/scheduled_task_manager.rs:68-109 | in every run a task is pending if and only if it was started and no run of it was acknowledged and no reset came since |
| `TaskHistory.RunsStartedExactly` | cmd/scheduler/src/scheduled_task_manager.rs:68-88 | each started task gets one run, of the version stored then |
| `TaskHistory.CacheExactly` | cmd/scheduler/src/scheduled_task_manager.rs:33-88 | in every run the cached time is there if and only if it was fetched since the last event that clears it, and is the answer, or ten seconds from then if the fetch failed |
| `ScheduledTasks.Manager.QueryNextTaskTime` | components/stores/src/timers.rs:92-97 | the least time among registered tasks that are not ignored, or none exists |
| `ScheduledTasks.Manager.QueryTriggeredTasks` | components/stores/src/timers.rs:99-105 | exactly the registered, not ignored tasks strictly before now, each once |
| `ScheduledTasks.Manager.InitNextTaskTime` | cmd/scheduler/src/scheduled_task_manager.rs:33-52 | fetched only when unknown, with the retry delay on error |
| `ScheduledTasks.Manager.NextTaskAction` | cmd/scheduler/src/scheduled_task_manager.rs:54-66 | run whenever a noticed task is due |
| `ScheduledTasks.Manager.StartTriggeredTasks` | cmd/scheduler/src/scheduled_task_manager.rs:68-88 | due tasks become pending and the cache is cleared; on error nothing changes |
| `ScheduledTasks.Manager.AckTriggeredTask` | cmd/scheduler/src/scheduled_task_manager.rs:90-109 | removed from pending by swap and, at the first deletion that succeeds, from the store; until then the call has not returned |
| `ScheduledTasks.Manager.OnScriptStarted` | cmd/scheduler/src/scheduled_task_manager.rs:137-146 | names added without repetition and the cache cleared |
| `ScheduledTasks.Manager.ResetContribs` | cmd/scheduler/src/vm_session.rs:478-484 | pending, names and cache cleared |
| `StorageLimiter.BudgetExactly` | components/runtime/src/extensions/storage.rs:312-368 | under any interleaving at most one query is in flight, calls admitted without waiting plus remaining budget equal eleven times the passed checks, and a hit limit means no budget and no query |
| `StorageLimiter.AnswersAreCounted` | components/runtime/src/extensions/storage.rs:312-368 | in every run a call is answered Admitted if and only if the number of admitted calls rises, by one, and a finished query admits its caller if and only if it returned a usage below the limit |
| `StorageLimiter.CallAnsweredExactly` | components/runtime/src/extensions/storage.rs:312-332 | in every run a call that enters waits while a query runs, else is turned away if the limit is hit, else admitted while fewer than eleven times the passed checks were admitted without waiting, else starts a query |
| `StorageLimiter.ClosedUntilDelete` | components/runtime/src/extensions/storage.rs:136-169 | once the limit is hit every call that enters or wakes is turned away, and none is admitted, until a delete removes an entry |
| `StorageLimiter.WaitersAdmittedExactly` | components/runtime/src/extensions/storage.rs:353-367 | a waiting call goes on waiting exactly while a query runs, and is then admitted if and only if the last query passed, failed, or was over the limit before a delete |
| `StorageLimiter.WaiterAdmittedAfterFailedQuery` | components/runtime/src/extensions/storage.rs:334-367 | a run in which a waiter is admitted although no check ever passed |
| `StorageLimiter.StorageState.Begin` | components/runtime/src/extensions/storage.rs:312-332 | the fast path, the start of a check, or waiting |
| `StorageLimiter.StorageState.QueryReturned` | components/runtime/src/extensions/storage.rs:339-350 | the end of the check in its three outcomes |
| `StorageLimiter.StorageState.WaitTurn` | components/runtime/src/extensions/storage.rs:353-367 | one poll of the waiting loop |
| `StorageLimiter.StorageState.AfterDelete` | components/runtime/src/extensions/storage.rs:136-142 | a delete that removed something lifts the limit |
| `FailureWindow.WindowDecides` | components/runtime/src/extensions/discord.rs:118-138 | for every ordered history, the last 29 failures decide whether at least 29 of all failures are younger than a minute |
| `FailureWindow.DiscordOpsState.AddFailedReq` | components/runtime/src/extensions/discord.rs:123-129 | the deque is the last min(29, n) failures of the whole history |
| `FailureWindow.DiscordOpsState.ShouldSuspendGuild` | components/runtime/src/extensions/discord.rs:131-137 | true exactly when at least 29 failures of the whole history are younger than a minute |

## Left out

- Postgres, the Discord gateway and HTTP clients, gRPC, sockets and JSON encoding: stores are maps, connections are FIFO channels that may lose a suffix.
- V8 isolates, TypeScript compilation and module loading: a VM takes commands, is busy, runs dry or terminates.
- `cmd/webapi`, the frontends, the editor extension, metrics, logging and the remaining model conversions: request plumbing and field-by-field copies.
- Session shutdown: a `Shutdown` message read there reaches `unreachable!`, so the session theorems cover the normal loop; `RequestComplete` and the end of a session appear as protocol steps.
- `wait_all_shutdown` of the scheduler: the scheduler theorems cover the main loop of `run`.
- Liveness beyond `Progress.HoldEnds`: retry loops are given finitely many answers and stop in the state they are waiting in.
- Exactly-once task firing and freshness of script versions on reused workers: the code does not promise them.
- Process spawning races and panics: `spawn_worker` is atomic and one clock reading serves each least-recently-used scan.
- Cron computation: a table from expression and instant to an answer; only `CronSpacing` assumes its times lie after the argument.
- `fetch_premium_tier` and the forwarding of cache commands to a handler: they would only add easy members.
- VmSession.VmSession.HandleWorkerMsg: has no GuildLog and Metric arms, which only log and count, and takes its Shutdown arm from `handle_action`.
- VmSession.VmSession.BrokenWorker: a Shutdown among the last messages of a broken worker resets the session here, where the source reaches `unreachable!`.
- VmWorker.Worker.HandleSchedulerCmd: has no Shutdown message, which the scheduler never sends.
- Quiescence.QuiescentReturn: excludes runs in which an idle VM of the worker wakes without a command, because the event loop of a VM that ran dry has nothing left to poll; GuildLog and Metric messages share the channel and are not modelled.
- Progress.HoldEnds: covers workers steady in the sense of `Quiescence.QuiescentReturn`, and a hold in which nothing new is dispatched or reported by scripts.
- Replies.ForeignRepliesExactly: excludes waking or terminating a VM of another guild that is at rest and was not told to complete, because nothing runs in it.
- CommandScripts.MergedInvocableExactly: assumes distinct option names in each node of a script's tree, that is, no command sharing a subgroup's name in its group.
- Delivery.EndToEndDelivery: assumes one client and no expiry of the queue; `Broker.QueueInvariant` covers expiry on the broker's side.
- CommandUnion.MergeIsLeftBiasedUnion: assumes distinct option names per level and agreeing kinds; `CommandConflicts.PathsSurviveExactly` says what is left without agreement.
