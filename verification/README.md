# LMT, verified

LMT is a control plane for mirror synchronisation: a server with one SQLite store
dispatches attempts to agents, which survive crashes through a file spool and publish
finished trees by directory exchange. This project models that machinery in Dafny and
proves what the system is for.

| files | what they hold |
|---|---|
| `Lifecycle`, `Schedule` | attempt and run states, event projection, schedules, retry decisions |
| `StoreModel` | the tables and the state each store transaction commits |
| `StoreRuns`, `StoreApply`, `StoreSchedules`, `StoreSteps`, `StoreHistory` | what every transaction and every history of transactions keeps |
| `StoreOutcomes`, `StoreModes`, `StoreDue` | what a caller of the store may rely on: ends, retries, requests and cancellations, publication modes, when schedules are due |
| `Store` | the store as a class, one method per transaction, proved against `StoreModel` |
| `Spool`, `Namespace`, `Publication` | spool records and the publication state machine over renames, with failures and crashes at every primitive |
| `Generations`, `Lineage` | candidates, garbage collection and the bound on private generations; every history of a mirror's attempts and what was ever public |
| `AgentModel`, `AgentHistories`, `AgentOutcomes`, `Agent` | one agent: its steps, what all histories keep, what starts, ends and cancellations mean, and the process as a class |
| `Delivery`, `System`, `Safety`, `Launches`, `Writers` | the protocol of one attempt, server, agents and network composed, and the system-wide theorems |
| `Witnesses`, `StoreWitnesses` | histories from the empty system that end where a property fails |
| `Logs`, `Retention`, `Placeholders` | log upload and reading, the retention planner, placeholder resolution |

`dafny verify dfyconfig.toml` checks everything; pass `--resource-limit 2000000
--verification-time-limit 0` so that no proof is cut off by time.

## Main results

* One writer: `Safety.NeverTwoWriters` under a condition on the agents,
  `Writers.OneWriterUnlessRepeated` under the server's own. Two histories from the empty
  system break both and end with two writers, `Witnesses.TwoWritersAreReached` by lost
  writes and `Witnesses.TwoWritersWithoutLostWrites` by a failing preparation alone.
* One launch of each attempt, with no condition on writes: `Launches.AtMostOneLaunch`.
* What the server knows of an attempt: `Safety.ServerFollowsHistoryExactly`,
  `Safety.OnlyRejectionsAreRefused`, `Safety.RejectionIsNeverKnown`.
* The store over all histories of transactions: `StoreHistory.NoOrphanedRunEver`,
  `StoreHistory.IntervalsNeverDie`, `StoreHistory.CancellationIsFinal`,
  `StoreHistory.StaleBundleIsRefused`, and `StoreRuns.EventKeepsRunsExactly` and
  `StoreApply.ApplyConverges` for one transaction. `Store.Store.Apply` is the loop that
  refines the simultaneous change.
* What the store's answers mean, over the same histories: how runs end and when they are
  retried (`StoreOutcomes.EveryEndTellsOutcome`, `StoreOutcomes.OutcomeDecides`), that a
  request names one run (`StoreOutcomes.RequestNamesOneRun`), that an active run fixes its
  mirror's publication mode (`StoreModes.ActiveRunFixesTheMode`), and how due times
  coalesce and are spaced (`StoreDue.MissedCronTimesAreOne`, `StoreDue.IntervalRunsAreSpaced`).
* Publication under crashes at every primitive: `Publication.Site.Recover`,
  `Publication.Site.RecoverRepeatedly`, and over all histories of a mirror
  `Lineage.LineageIsTheVisibleAttempts`.
* One agent over all histories: `AgentHistories.FencePersists`,
  `AgentHistories.CancelledAttemptEndsCancelled`, `AgentOutcomes.EndIsEarned`,
  `AgentOutcomes.SuccessNeedsAnExit`, `AgentOutcomes.ConcurrencyIsBounded`.
* `Logs.LogSurvivesTheNetwork`, `Retention.PlannedPrefixIsNecessary`,
  `Placeholders.SequentialIsSimultaneous`.

They are set in bold in the table below; the other rows are the methods of the code,
each against its specification, and the lemmas a reader may want to start from.

## Reading guide

A transaction of the store is atomic: it commits the state `StoreModel` gives or changes
nothing. Where the source orders candidate rows and takes the first, the choice is any
matching row. A hash is the value it hashes, and an identifier is new when the source
generates one.

In `Publication` the namespace is a map from path to inode identity. Every primitive may
fail or be the last thing the process does; a failing write may still have replaced the
file. The contract of each method holds at every such point, so what it says of the record
on disk at the end it says of every record the method ever writes. `healthy` switches the
failures off for the claims about completion, and `Trouble` names the one call that fails
nevertheless, in the preparation, the verification or the sync of what is visible. The
record in memory may lag behind the one on disk. The ghost fields `shown` and `unsynced`
are kept by the primitives alone: every tree a rename or an exchange made public, and
whether a directory sync followed the last of them.

In `Lineage` an event relates two snapshots of a mirror; the theorem is about all
sequences of snapshots related by events, and the class `History` proves that the code
makes such sequences, whatever fails, and what an event achieves if nothing does.

In `System` a start is in flight until it is consumed or lost, while cancellations and
events, once sent, may arrive any number of times, ever after. Any write of an agent may
fail, with or without having replaced the file; a task that ended keeps its outcome in
memory and may report it either way, as the code does. A publication persists its records
one by one while it holds the acceptance lock, and each is visible at once to a reader that
takes no lock, as the reporting of `reconcile_all` does; so are those of a recovery. Any
other locked section writes once and is one step. The final log chunk is acknowledged to a record that has ended on
disk, or whose ended task is still in memory. An attempt executes while its process is yet
to start or may be alive.

Premises:

* One number for the end of an attempt: a step that ends an execution, or persists or ends
  its publication, must leave the record on disk and the one in memory to end under the
  number the execution's record had (`AgentHistories.KeepsOneNumber`). One lost write keeps
  that. It fails when the Running write and the write of the end are both lost, and when a
  preparation is undone and reported twice (`Publication.Site.Finalize` says exactly when),
  whether or not any write is lost. `Witnesses.TwoWritersAreReached` and
  `Witnesses.TwoWritersWithoutLostWrites` show that the single writer and the run invariant
  need it. `Launches` and `Writers` do without it: what the store's invariant needs of each
  step is exactly that it applies no old outcome anew (`Writers.StepKeepsRunsExactly`).
* A start response is consumed before the record of its attempt retires.
* Recovery acts on the record that is on disk while the lock is held. `reconcile_all`
  reads the record before it takes the lock (apps/lmt-agent/src/lib.rs:1157-1163); a stale
  `preparing_exchange` copy is outside the theorem.
* A spool read fails only for an absent record, an agent's death ends its processes, and
  nothing but LMT changes the namespace.
* The composed system has no database restore and no spool reset; both are modelled and
  proved on their own side.
* `Lineage` starts an attempt only if none of the mirror is executing and the attempt is
  new, which is what `Safety`, under its premise, and `Launches` prove of the whole system.

Findings, each with its exact condition and an example:

* A rejected attempt is never known to the server: `reconcile` reports Accepted first and
  Accepted does not allow Rejected, so the attempt stays open on the server, whatever is
  cancelled, and the record never retires (`Safety.RejectionIsNeverKnown`,
  `Witnesses.RejectionIsReached`).
* Two lost writes in a row let one attempt end under two numbers, and the second end
  retries a run whose retry is already out (`StoreRuns.EventKeepsRunsExactly`,
  `Witnesses.TwoWritersAreReached`).
* A failing preparation is reported twice, under two numbers
  (`Publication.Site.Finalize`, `Publication.Site.EndTwice`). The background task may post
  the first report before the second replaces it, and then one failing call, with no write
  lost, is enough for two writers (`Witnesses.TwoWritersWithoutLostWrites`).
* An end whose write failed is reported all the same, so the server may hold an outcome
  that no record ever had (`Safety.ServerFollowsHistoryExactly`,
  `Witnesses.ServerLeavesHistory`). It never does while every write that ends an execution
  reaches the disk (`Safety.ServerFollowsHistory`).
* A pre-visibility recovery that resumes after a crash reports the persisted state but,
  for a cancellation, with the failure kind `InvalidResult` where the uninterrupted path
  reports none (`Publication.PersistedKindIsReportedExactly`,
  `Publication.CancelledKindIsLost`).
* An interval schedule can die: behind the run of another node after its mirror was
  removed and added back there (`StoreSchedules.TickKeepsIntervalsAliveExactly`,
  `StoreWitnesses.ReaddingStopsAnInterval`), and by a restore
  (`StoreSchedules.RestoreKeepsIntervalsAliveExactly`,
  `StoreWitnesses.RestoreStopsAnInterval`).

## Model

| member | source | states |
|---|---|---|
| `Safety.NeverTwoWriters` | apps/lmt-agent/src/lib.rs:884-968 | **In every state reached from an empty store and idle agents, under lost, repeated, delayed and reordered messages, agent crashes and failing writes, at most one attempt of a mirror executes on all nodes together (its process is yet to start or may be alive), as long as no step of an execution or of its publication moves the attempt to a second end number.** |
| `Witnesses.TwoWritersAreReached` | apps/lmt-agent/src/executor.rs:87-183 | **What that excludes does happen: a history from the empty world in which the Running write and the end of one attempt are both lost, its two ends arrive in turn, the run is retried twice and one mirror has two executing attempts; the run invariant fails with it.** |
| `Witnesses.TwoWritersWithoutLostWrites` | apps/lmt-agent/src/executor.rs:114-183 | **The other way to it, with every write stored: a preparation fails and is undone, a reader that takes no lock posts the first of its two reports, the run is retried, the second report repeats the outcome under the next number, and one mirror has two executing attempts.** |
| `Writers.OneWriterUnlessRepeated` | crates/lmt-store/src/lib.rs:1107-1211 | **The single writer under the server's own condition: as long as no event it applies repeats, under a higher number, the end of an attempt whose successor is out, every reachable state has one writer for each mirror, however agents number their outcomes.** |
| `Writers.StepKeepsRunsExactly` | crates/lmt-store/src/lib.rs:846-1211 | A step of the whole system keeps the store's run invariant if and only if it applies no such event. |
| `Writers.OneNumberRepeatsNothing` | apps/lmt-agent/src/executor.rs:87-183 | One number for each end is enough for that: no history that keeps to it applies such an event. |
| `Safety.SingleWriter` | crates/lmt-store/src/lib.rs:933-1211 | Two executing attempts of one mirror in a sound state are the same attempt on the same node. |
| `Safety.ExecutingIsOpen` | apps/lmt-agent/src/lib.rs:937-968 | An executing attempt is not terminal on the server, belongs to the node that owns its run, and executes exactly the spec the server dispatched. |
| `Launches.AtMostOneLaunch` | apps/lmt-agent/src/lib.rs:884-968 | **Over every history of the whole system, whatever writes fail and however outcomes are numbered, each attempt starts a process at most once.** |
| `Launches.LaunchIsFirst` | apps/lmt-agent/src/lib.rs:892-968 | In every reached state a process about to start is the first of its attempt, on the node that owns the run and with exactly the spec the server dispatched, and no cancellation tombstone came before it. |
| `Launches.StepKeepsOnce` | apps/lmt-agent/src/lib.rs:884-1266 | Every step keeps what bounds an attempt's launches: once it ran or was tombstoned, it has a record or no start of it is or will be in flight. |
| `Safety.AcknowledgementNeverAhead` | apps/lmt-agent/src/lib.rs:1207-1213 | An agent's acknowledged sequence never exceeds the server's, although it is not monotone on disk. |
| `Safety.ServerFollowsHistoryExactly` | apps/lmt-agent/src/lib.rs:1177-1214 | **The server's state and sequence number are an entry of the attempt's durable history (or the Accepted reported ahead of a rejection) if and only if they are not an end that was reported from memory and never written.** |
| `Witnesses.ServerLeavesHistory` | apps/lmt-agent/src/executor.rs:207-226 | The other case happens, in a sound state reached from the empty world: a launch fails, the write of that end fails too, and the reported failure is in no durable record. |
| `Safety.ServerFollowsHistory` | apps/lmt-agent/src/lib.rs:1177-1214 | In a history in which every write that ends an execution reaches the disk, the server's state and sequence number are always an entry of the attempt's durable history. |
| `Safety.OnlyRejectionsAreRefused` | crates/lmt-store/src/lib.rs:1107-1162 | **An event in flight is refused as illegal exactly when it is unheard news of a rejection; it is never missing and never repeats a decided outcome.** |
| `Safety.RejectionIsNeverKnown` | apps/lmt-agent/src/lib.rs:921-935 | **Because Accepted is reported first, a rejection never reaches the server: the row stays open, the record is never acknowledged and never retires.** |
| `Witnesses.RejectionIsReached` | apps/lmt-agent/src/lib.rs:921-935 | A history from the empty world that ends in a sound state with such a record. |
| `Safety.ReachableIsSound` | apps/lmt-agent/src/lib.rs:1058-1147 | Every state any such history of the system reaches satisfies the system invariant. |
| `System.StepKeepsWorld` | apps/lmt-agent/src/lib.rs:884-1266 | Every server transaction, message arrival or loss, and agent step, its writes failing or not, each record a publication persists being visible at once, keeps the invariant that ties every row, record, task and message of every attempt, as long as it keeps to the one number for the end of each attempt. |
| `System.ArrivingEvent` | crates/lmt-store/src/lib.rs:1107-1162 | What the server makes of any event that may ever arrive: applied, stale, or a refused rejection. |
| `System.EventArrivesKeepsWorld` | crates/lmt-store/src/lib.rs:1107-1211 | Delivering any sent event, any number of times and in any order, keeps the system invariant. |
| `System.StartArrivesKeepsWorld` | apps/lmt-agent/src/lib.rs:884-968 | Delivering a start keeps the invariant whether it is known, conflicting, without room, rejected, lost in writing or accepted. |
| `System.CancelArrivesKeepsWorld` | apps/lmt-agent/src/lib.rs:1058-1098 | Delivering a cancellation, early, late or repeated, keeps the invariant, including the tombstone case. |
| `System.AgentPollsKeepsWorld` | crates/lmt-store/src/lib.rs:933-1015 | Whatever a poll answers, new dispatch, redelivery or cancellation, keeps the invariant. |
| `System.RemovalKeepsWorld` | apps/lmt-agent/src/spool.rs:254-272 | Retiring a record, or clearing a fence, forgets an attempt only once the server has its outcome. |
| `Delivery.EventIsLegal` | crates/lmt-core/src/state.rs:43-61 | Per attempt: a newer event in flight finds a non-terminal row, and is refused if and only if it is a rejection. |
| `Delivery.EventKeepsKey` | crates/lmt-store/src/lib.rs:1132-1170 | Applying a newer event leaves nothing newer on disk or in flight once the outcome is known. |
| `Delivery.AdvanceKeepsKey` | apps/lmt-agent/src/executor.rs:87-183 | Every change of an attempt's record and memory, written or not, keeps the invariant of its protocol if record and memory keep to one number for its end. |
| `Delivery.AcknowledgedOutcomeIsKnown` | apps/lmt-agent/src/spool.rs:202-207 | An acknowledged terminal record implies that the server has the outcome. |
| `Delivery.SendKeepsKey` | apps/lmt-agent/src/lib.rs:1178-1188 | Reporting from disk or from memory, Accepted first, keeps every event in flight explainable by the durable history or by an end that was not written. |
| `StoreHistory.NoOrphanedRunEver` | crates/lmt-store/src/lib.rs:846-1211 | **Over any interleaving of transactions every active run is in exactly one of the phases awaiting its first attempt, attempt out, awaiting a retry; numbers are dense and bounded; a mirror has one active run.** |
| `StoreHistory.EmptyStoreIsSound` | crates/lmt-store/src/lib.rs:304-325 | A store just opened satisfies the run and schedule invariants, so every history starts sound. |
| `StoreRuns.PhasesAreExclusive` | crates/lmt-store/src/lib.rs:846-1211 | The phases of a run exclude each other and cover every run. |
| `StoreRuns.EveryActiveRunIsInSight` | crates/lmt-store/src/lib.rs:933-1015 | What an active run waits for is, if and only if, a row some poll of its owner selects. |
| `StoreDue.IntentIsInSight` | crates/lmt-store/src/lib.rs:933-1015 | Pending intent without an active run is, if and only if, what a poll of the owner serves. |
| `StoreRuns.OneLiveAttemptPerMirror` | crates/lmt-store/src/lib.rs:846-931 | At most one attempt of a mirror is non-terminal on the server. |
| `StoreRuns.EventKeepsRunsExactly` | crates/lmt-store/src/lib.rs:1107-1211 | **An event keeps the run invariant if and only if it does not repeat, under a higher number, the outcome of an attempt whose successor is already out.** |
| `StoreOutcomes.EveryEndTellsOutcome` | crates/lmt-store/src/lib.rs:1107-1211 | **Over every history of transactions a run has succeeded if and only if its latest attempt did, has timed out only if that timed out, has failed never over a success or a cancellation, and is cancelled over another outcome only on request.** |
| `StoreOutcomes.OutcomeDecides` | crates/lmt-core/src/schedule.rs:238-264 | **The end of an open attempt leaves the run waiting if and only if the attempt failed, timed out or was interrupted, the run is not cancelled, its mirror still eligible under its owner, and attempts are left; it then waits until now plus the delay of its document, saturated, and otherwise ends as the attempt did.** |
| `Witnesses.RepeatIsPossible` | crates/lmt-store/src/lib.rs:1107-1211 | A store that satisfies the run invariant and one such event. |
| `StoreRuns.PollKeepsRuns` | crates/lmt-store/src/lib.rs:933-1015 | Every choice of a poll keeps the run invariant. |
| `StoreOutcomes.PollOrder` | crates/lmt-store/src/lib.rs:933-1015 | A poll delivers a waiting cancellation first and then resends what was not heard of, both whatever the capacity; without capacity nothing starts, with it a manual run goes before a retry and a retry before a due schedule. |
| `StoreOutcomes.ChosenRunStarts` | crates/lmt-store/src/lib.rs:1917-1954 | The manual run or retry chosen starts its next attempt under its own document and is out with the agent, unless the document is Atomic and the agent cannot publish it; then nothing changes. |
| `StoreOutcomes.DueRunStarts` | crates/lmt-store/src/lib.rs:933-1015 | The run of a due mirror is created for its intent under the current document, clears the intent and starts, or nothing changes. |
| `StoreRuns.CancelRequestKeepsRuns` | crates/lmt-store/src/lib.rs:1017-1105 | A cancellation request ends a run that is not out, and marks one that is, keeping the invariant. |
| `StoreOutcomes.RequestCancels` | crates/lmt-store/src/lib.rs:1017-1105 | A cancellation request ends a waiting run at once, or makes the attempt that is out the first thing a poll of its owner answers. |
| `StoreRuns.ManualKeepsRuns` | crates/lmt-store/src/lib.rs:846-931 | Creating a manual run, or refusing it, keeps the invariant. |
| `StoreOutcomes.RequestNamesOneRun` | crates/lmt-store/src/lib.rs:846-931 | **A request names one run for ever: after any history, repeating it for the same mirror gives that run, for another mirror is a conflict, and nothing is created.** |
| `StoreOutcomes.NewRequestCreates` | crates/lmt-store/src/lib.rs:846-931 | A new request creates a run exactly for a managed, enabled mirror without an active one; the run waits in sight of its owner under the current document and the mirror's intent is cleared. |
| `StoreRuns.RestoreKeepsRuns` | crates/lmt-store/src/lib.rs:1516-1551 | A restore closes every attempt and run and orphans none. |
| `StoreOutcomes.RestoreClosesExactly` | crates/lmt-store/src/lib.rs:1516-1551 | A restore interrupts every open attempt, cancels a run that waits for its first and fails every other active one. |
| `StoreApply.ApplyKeepsRuns` | crates/lmt-store/src/lib.rs:424-521 | A configuration change, or its refusal, keeps the run invariant; mirrors keep dense generations. |
| `StoreApply.ApplyConverges` | crates/lmt-store/src/lib.rs:424-521 | **After a successful apply, planning the same bundle gives no change; the managed set, owners and documents are the bundle's; every earlier generation is untouched and each mirror written has exactly one more.** |
| `StoreOutcomes.ApplyEndsWaitingRuns` | crates/lmt-store/src/lib.rs:1704-1725 | A configuration change ends exactly the waiting runs of the mirrors it removes or disables: cancelled before a first attempt, timed out or failed as the latest attempt says before another; no other run changes. |
| `StoreHistory.StaleBundleIsRefused` | crates/lmt-store/src/lib.rs:434-440 | **Of two bundles planned on one revision at most one is ever applied: after one has been, and any history of transactions since, another on that revision is refused and changes no table.** |
| `StoreModes.ActiveRunFixesTheMode` | crates/lmt-store/src/lib.rs:1683-1702 | **In every history an active run is published in the mode of its mirror's current document, and a bundle that would give the mirror another mode is refused and changes no table.** |
| `StoreModes.BusyExactly` | crates/lmt-store/src/lib.rs:1683-1702 | A bundle on the current revision is refused as busy if and only if it gives a managed mirror with an active run to another node, or publishes a mirror with an active run in another mode. |
| `StoreModes.ApplyKeepsMode` | crates/lmt-store/src/lib.rs:424-521 | After a committed bundle every mirror with an active run has a current document of the same publication mode as before. |
| `StoreSteps.OneMoreChange` | crates/lmt-store/src/lib.rs:440-521 | Changing one more mirror extends the simultaneous change by exactly that mirror, so the order of changes does not matter. |
| `StoreHistory.IntervalsNeverDie` | crates/lmt-store/src/lib.rs:365-416 | **Over any history without the two exclusions every interval schedule has a next due time, a pending intent or an active run, and every mirror that wants a row has one.** |
| `StoreDue.MissedCronTimesAreOne` | crates/lmt-core/src/schedule.rs:169-212 | **However many cron times were missed before a tick, they are one intent: after any history since, runs started and ended included and configuration changes no older than the tick, no tick at a time up to that one finds the schedule due again.** |
| `StoreDue.TickLeavesNothingDue` | crates/lmt-core/src/schedule.rs:169-212 | A tick intends a run for each due row exactly if none is active, re-arms a cron schedule from now, stops an interval until a run ends, and leaves nothing due and no other row changed. |
| `StoreDue.IntervalRunsAreSpaced` | crates/lmt-core/src/schedule.rs:213-218 | **Within an interval of the end of a mirror's last run it is not due again and no poll starts a scheduled run of it, whatever happens but a change of its own configuration.** |
| `StoreDue.EndArmsInterval` | crates/lmt-store/src/lib.rs:1107-1211 | The end of a run arms the interval of its mirror from that moment, without intent, while the mirror is still its owner's. |
| `StoreDue.ForeignEndArmsNothing` | crates/lmt-store/src/lib.rs:1773-1785 | The end of a run whose mirror is ineligible or another owner's, by event or by cancellation, changes no schedule. |
| `StoreSchedules.TickKeepsIntervalsAliveExactly` | crates/lmt-core/src/schedule.rs:169-211 | A tick keeps interval schedules alive if and only if none is due behind a run of another owner. |
| `StoreSchedules.ApplyKeepsOwnersExactly` | crates/lmt-store/src/lib.rs:1633-1638 | A configuration change keeps runs with their mirrors' owners if and only if no mirror is re-added on another node behind an open run. |
| `StoreDue.ScheduleSurvivesApplyExactly` | crates/lmt-store/src/lib.rs:1553-1598 | A committed bundle keeps a schedule row as it is, intent and all, exactly for a mirror that stays enabled under its owner with its schedule; every other scheduled mirror starts afresh from now, and no other mirror has a row. |
| `StoreWitnesses.ReaddingStopsAnInterval` | crates/lmt-store/src/lib.rs:1633-1638 | A history of the store after which a bundle does so: the owners disagree, and the next due time passes without anything left to arm the schedule. |
| `StoreSchedules.RestoreKeepsIntervalsAliveExactly` | crates/lmt-store/src/lib.rs:1516-1551 | A restore, which re-arms nothing, keeps intervals alive exactly when none lived by its run alone. |
| `StoreWitnesses.RestoreStopsAnInterval` | crates/lmt-store/src/lib.rs:1516-1551 | A history of the store after which a restore leaves an interval schedule dead. |
| `StoreHistory.CommitKeepsSchedules` | crates/lmt-store/src/lib.rs:1553-1598 | Every transaction keeps rows matched to documents and lets intent keep the first due time since it was cleared. |
| `Schedule.MissedTicksCoalesce` | crates/lmt-core/src/schedule.rs:169-211 | However many ticks are missed or repeated, intent exists exactly if one came late enough, and keeps the first due time. |
| `Schedule.PendingIntentIsStable` | crates/lmt-core/src/schedule.rs:169-211 | Pending intent keeps its start through any number of further ticks. |
| `StoreHistory.CancellationIsFinal` | crates/lmt-store/src/lib.rs:1017-1105 | **After a cancellation request no later poll of any history starts the run and no retry waits for it.** |
| `StoreOutcomes.RequestIsFinal` | crates/lmt-store/src/lib.rs:1017-1105 | From the request on, no poll of any history starts the run and no retry waits for it. |
| `StoreHistory.CancelledRunIsNotStarted` | crates/lmt-store/src/lib.rs:1723-1743 | A poll never starts an attempt of a cancelled or ended run. |
| `StoreHistory.CommitGrows` | crates/lmt-store/src/lib.rs:1107-1211 | Ended runs are absorbing, attempts never regress, specs never change and a requested cancellation is never forgotten. |
| `Lifecycle.AttemptsNeverRegress` | crates/lmt-core/src/state.rs:129-159 | Replaying any events never lowers an attempt's progress and never changes a terminal state. |
| `Lifecycle.LegalExactly` | crates/lmt-core/src/state.rs:129-164 | An event is legal if and only if it repeats the state, moves one step on, or ends an open attempt, by a rejection only before acceptance; starting and ending states move the run as they say. |
| `Store.Store.CreateManualRun` | crates/lmt-store/src/lib.rs:846-931 | The method commits the specified run or refuses with the specified error, idempotently per request. |
| `Store.Store.PollAction` | crates/lmt-store/src/lib.rs:933-1015 | The method picks in the priority order and commits exactly the chosen action. |
| `Store.Store.Persist` | crates/lmt-store/src/lib.rs:1917-1954 | Writes the dispatch rows, or nothing when there is nothing to send. |
| `Store.Store.RequestCancellation` | crates/lmt-store/src/lib.rs:1017-1105 | Commits the specified cancellation, reports the run as it is afterwards and whether the request was new, and fails for an unknown run. |
| `Store.Store.ApplyEvent` | crates/lmt-store/src/lib.rs:1107-1211 | Refuses, ignores or applies any event whole, as specified, and keeps the run invariant, in which every end tells its latest attempt's outcome, if and only if the event does not repeat an old outcome. |
| `Store.Store.EvaluateDueSchedules` | crates/lmt-store/src/lib.rs:365-416 | The row loop commits the simultaneous tick and counts the due rows, or rolls back and fails exactly when some due row has no schedule. |
| `Store.Store.FinalizeIneligibleRetries` | crates/lmt-store/src/lib.rs:1845-1877 | The loop ends every waiting run of the mirror by its last attempt's outcome, and no other. |
| `Store.Store.CancelUndispatchedPending` | crates/lmt-store/src/lib.rs:1706-1721 | Two statements end the never-dispatched pending runs of the mirror and their attempts. |
| `Store.Store.Apply` | crates/lmt-store/src/lib.rs:424-521 | **The per-mirror loop, in any order, commits the simultaneous change of all planned mirrors.** |
| `Store.Store.NormalizeRestored` | crates/lmt-store/src/lib.rs:1516-1551 | Three statements close every open attempt and run as specified. |
| `Publication.Site.RecoverRepeatedly` | apps/lmt-agent/src/publication.rs:386-478 | **Over any number of recovery calls with failures and crashes anywhere and cancellations becoming durable in between: an outcome once persisted is the one reported, an ended attempt matches the slots, nothing becomes visible before the control plane is heard, an attempt cancelled before visibility is never visible and ends cancelled or failed with its slots as before (cancelled if it was ready to commit), and a last failure-free call ends the attempt.** |
| `Publication.Site.Serve` | apps/lmt-agent/src/publication.rs:386-478 | One call of recovery or one cancellation: what it may do to slots and record, whatever fails. |
| `Publication.Site.Recover` | apps/lmt-agent/src/publication.rs:386-427 | **From every phase: invariant, confinement to the attempt's slots and conservation of identities at every crash point, nothing moved once visible, success only after a completed directory sync; without failures, and with exactly one in the preparation, the verification or the sync, the attempt ends as the phase demands.** |
| `Publication.Site.RecoverBeforeControlPlane` | apps/lmt-agent/src/publication.rs:429-478 | The public path is unchanged and the attempt stays recoverable; without failures it prepares, undoes and finishes, but commits nothing. |
| `Publication.Site.PersistPreparing` | apps/lmt-agent/src/publication.rs:495-541 | Makes the plan durable before anything moves, exactly from what the slots hold. |
| `Publication.Site.PrepareNamespace` | apps/lmt-agent/src/publication.rs:543-609 | Rotates and stages so that at every crash point the durable phase fits the slots; success means staged. |
| `Publication.Site.CommitReady` | apps/lmt-agent/src/publication.rs:611-654 | An uncancelled staged candidate becomes visible or is undone, a cancelled one never becomes visible; if only its verification fails it is undone and failed, if only the sync fails it is visible and pending. |
| `Publication.Site.RecoverReady` | apps/lmt-agent/src/publication.rs:656-681 | Forward if the candidate is visible, commit if it is staged, ending as that commit or sync does, whichever one call fails. |
| `Publication.Site.FinishVisible` | apps/lmt-agent/src/publication.rs:705-747 | Reports success only for a visible candidate whose directories were synced; when only the sync fails the publication is durable as pending, on disk and in memory. |
| `Publication.Site.SettleAfterFailedSync` | apps/lmt-agent/src/publication.rs:705-747 | A recovery whose only failure is the sync of a visible tree leaves what the operator addresses: a retry then ends it as a durable success, giving up as a fence. |
| `Publication.Site.EnsureCommittedTerminal` | apps/lmt-agent/src/publication.rs:749-758 | Completes the report of a committed record, once. |
| `Publication.Site.RestoreThenTerminal` | apps/lmt-agent/src/publication.rs:760-826 | Persists the intent before anything moves, undoes every rename and reports the outcome with every slot as before. |
| `Publication.Site.Commit` | apps/lmt-agent/src/publication.rs:374-384 | A failure-free commit publishes; with one failure it is undone or left pending as that call demands; otherwise record, slots and memory account for each other, and a commit whose preparation was undone leaves exactly that report. |
| `Publication.Site.Finalize` | apps/lmt-agent/src/executor.rs:114-183 | The end of an atomic attempt: a Cancelled outcome leaves the namespace untouched, success needs a completed sync, the attempt ends under two numbers if and only if it went on to publish, its preparation failed and the undoing was reported, and at every crash point record and memory are what the agent's steps allow a publication. |
| `Publication.Site.EndTwice` | apps/lmt-agent/src/executor.rs:114-183 | That path exists: a run of the whole ending with every write succeeding, in which only the first call of the preparation fails, fails the attempt under the next number and then under the one after. |
| `Publication.Site.RetryDurability` | apps/lmt-agent/src/publication.rs:246-264 | Completes exactly the addressed visible publication and no other. |
| `Publication.Site.Abandon` | apps/lmt-agent/src/publication.rs:266-296 | Fences exactly the addressed visible publication, durably before reporting, and moves nothing. |
| `Publication.AbandonIsAddressed` | apps/lmt-agent/src/publication.rs:266-296 | The agent abandons exactly what the operator addresses: a visible publication pending durability of that mirror and spec. |
| `Publication.Site.ClearFence` | apps/lmt-agent/src/publication.rs:298-340 | Removes a fence only with its exact identity, acknowledged and logged, its tree public and its predecessor in the exchange slot, and nothing of the mirror left to recover; without failures if and only if so. |
| `Publication.Site.Rename` | apps/lmt-agent/src/publication_fs.rs:44-65 | A no-replace rename moves one identity, fails without effect, and conserves all identities even if the process dies. |
| `Publication.Site.ExchangePaths` | apps/lmt-agent/src/publication_fs.rs:40-42 | An exchange swaps two present identities or does nothing, and conserves all identities. |
| `Publication.CommittedSlots` | apps/lmt-agent/src/publication.rs:611-654 | A committed attempt leaves its candidate public, the old tree in the exchange slot and the old previous rotated. |
| `Publication.ServedStops` | apps/lmt-agent/src/publication.rs:611-631 | A call leaves a cancelled, unpublished attempt unpublished or ended with its slots as before, and one bound to end cancelled so bound. |
| `Publication.ServedOutcomes` | apps/lmt-agent/src/publication.rs:386-478 | One more call keeps the outcome first persisted and the agreement of record and slots. |
| `Publication.RecoveryIsAllowed` | apps/lmt-agent/src/publication.rs:386-478 | Whatever fails, a recovery is one of the moves the agent model and the composed system allow a publication. |
| `Publication.PersistedKindIsReportedExactly` | apps/lmt-agent/src/publication.rs:409-421 | After a crash the persisted state is reported, and its failure kind exactly unless the attempt was cancelled. |
| `Publication.CancelledKindIsLost` | apps/lmt-agent/src/publication.rs:409-421 | A cancelled attempt, sound and not yet visible, whose reported kind is not the persisted one. |
| `Publication.ConfinedKeepsSite` | apps/lmt-agent/src/publication.rs:543-826 | A change confined to one attempt keeps every other attempt's evidence sound. |
| `Namespace.SlotsHoldThePlan` | apps/lmt-agent/src/publication.rs:495-609 | In every layout of every phase the four slots hold candidate, old tree and stable previous exactly once each, and nothing else. |
| `Namespace.PublishedIsOldOrNew` | apps/lmt-agent/src/publication.rs:611-747 | The public path always resolves to exactly the old or the new generation. |
| `Namespace.SwapConserves` | apps/lmt-agent/src/publication_fs.rs:40-42 | Exchanging two paths loses and duplicates no identity. |
| `Namespace.MoveConserves` | apps/lmt-agent/src/publication_fs.rs:44-46 | Moving to a free path loses and duplicates no identity. |
| `Generations.CollectGarbage` | apps/lmt-agent/src/publication.rs:56-130 | Removes only what no record names, even when stopped midway; success means the count is below the bound. |
| `Generations.CollectionKeepsSite` | apps/lmt-agent/src/publication.rs:132-153 | A collection, finished or not, leaves every slot of a recorded attempt, its phase and so every later recovery as they were. |
| `Generations.ConfinedKeepsBound` | apps/lmt-agent/src/publication.rs:495-826 | No preparing, committing, undoing or recovering step raises the number of private generations. |
| `Generations.PrepareCandidate` | apps/lmt-agent/src/publication.rs:204-244 | Creates a fresh candidate and a basis beside it and refuses an attempt that already has either. |
| `Lineage.LineageIsTheVisibleAttempts` | apps/lmt-agent/src/publication.rs:56-826 | **At every moment of every history of a mirror's attempts and operator commands: the trees ever public are the candidates of the attempts that became visible, each once and in order; the last is public and, with nothing to recover or report, the one before it is in the exchange slot; an attempt that ended is among them if and only if it succeeded or was fenced; the private generations are within their bound.** |
| `Lineage.EventKeeps` | apps/lmt-agent/src/publication.rs:56-826 | Every event, failing or interrupted anywhere, keeps that, and makes at most one new tree public. |
| `Lineage.RunHistory` | apps/lmt-agent/src/publication.rs:56-826 | Any sequence of admissions, candidates, executions, commits, cancellations, restarts, recoveries, operator commands and retirements, run with failures at every primitive, is such a history, and each event none of whose calls fails achieves what it is for: a start is admitted exactly if nothing bars it, an execution that may publish makes its candidate public, recovery ends, restart leaves nothing open. |
| `Lineage.History.Start` | apps/lmt-agent/src/lib.rs:1031-1056 | Admission collects and counts before anything is accepted; a refusal is recorded and either write may fail. Without failures no garbage is left and a new attempt is accepted if and only if nothing bars it and the count is below the bound. |
| `Lineage.History.Finish` | apps/lmt-agent/src/executor.rs:114-183 | The end of an execution follows the plan made from the slots it found, or leaves them all. Without failures an execution that goes on to publish makes its candidate public and ends as a success, any other ends as its outcome says. |
| `Lineage.History.Restart` | apps/lmt-agent/src/lib.rs:1100-1147 | The loop ends what has no plan yet, as far as the writes succeed and all of it without failures, and keeps every plan. |
| `AgentHistories.FencePersists` | apps/lmt-agent/src/lib.rs:530-563 | **From abandonment to clearing on the exact identity, the fence survives every step of every history and no start naming the mirror runs.** |
| `AgentHistories.FenceSurvivesStep` | apps/lmt-agent/src/publication.rs:298-340 | No step but the exact clearing removes or changes a fence, restart and reset included. |
| `AgentHistories.FencedMirrorIsNotStarted` | apps/lmt-agent/src/lib.rs:975-1021 | A start naming a fenced mirror by identity or by publication is not accepted, Direct or Atomic. |
| `AgentHistories.CancelledAttemptEndsCancelled` | apps/lmt-agent/src/executor.rs:107-181 | **A Direct attempt with a durable cancellation stays on its way to Cancelled over every history, until it retires so.** |
| `AgentOutcomes.EndIsEarned` | apps/lmt-agent/src/executor.rs:114-183 | **Over every history a Direct attempt shows an end only if a step earned it: a success an exit with status 0, a failure another exit or a failed launch, a timeout the clock, an interruption a lost process or a restart, a cancellation a request or signal, a rejection its start.** |
| `AgentOutcomes.ExitDecidesTheEnd` | apps/lmt-agent/src/executor.rs:114-183 | For an execution with nothing to publish, each end and its failure kind if and only if: cancelled by request or signal, succeeded on status 0, failed on any other, timed out, or interrupted by a lost wait or a shutdown; on disk the same unless the write failed. |
| `AgentOutcomes.SuccessNeedsAnExit` | apps/lmt-agent/src/executor.rs:114-183 | **Over every history no attempt, Direct or Atomic, succeeds or begins to publish whose process did not exit with status 0 uncancelled.** |
| `AgentOutcomes.UnlaunchedEnds` | apps/lmt-agent/src/executor.rs:185-226 | A launch that fails ends as failed with its kind, an attempt found open at a restart as interrupted, and either as cancelled if that is wanted. |
| `AgentOutcomes.CancelTakesHold` | apps/lmt-agent/src/lib.rs:1058-1098 | Each answer to a cancellation and what is durable with it: conflict on another spec, intent or tombstone persisted, or an attempt already ended and unchanged. |
| `AgentOutcomes.PersistedCancellationEnds` | apps/lmt-agent/src/lib.rs:1058-1098 | A Direct attempt whose cancellation was persisted ends cancelled in every history without a reset. |
| `AgentHistories.CancellationSurvivesStep` | apps/lmt-agent/src/executor.rs:185-226 | Exit, timeout, launch failure and restart of a cancelled Direct attempt end only in Cancelled. |
| `AgentHistories.AbandonFences` | apps/lmt-agent/src/publication.rs:282-295 | Abandoning makes a fence that reports a failure, cannot retire and blocks a reset. |
| `AgentHistories.StepKeepsInv` | apps/lmt-agent/src/executor.rs:87-111 | Every agent step keeps each task's copy within what its record on disk allows. |
| `AgentProcess.Process.Accept` | apps/lmt-agent/src/lib.rs:884-968 | Accepts, rejects or ignores a start exactly as specified, scanning every record for fences and recoveries. |
| `AgentOutcomes.AcceptExactly` | apps/lmt-agent/src/lib.rs:884-968 | A start is known if and only if the stored spec and identity are the ones received, conflicting if they differ, without room at the bound, and otherwise accepted if and only if policy and namespace allow it and the write succeeds; acceptance alone begins a task and leaves at most the bound. |
| `AgentOutcomes.AcceptIsIdempotent` | apps/lmt-agent/src/lib.rs:884-968 | Hearing an accepted start again changes nothing, whatever policy, room and namespace say by then. |
| `AgentOutcomes.ConcurrencyIsBounded` | apps/lmt-agent/src/lib.rs:894-903 | **Over every history no more attempts are at work than the bound any start was accepted under.** |
| `AgentProcess.Process.PublicationAdmission` | apps/lmt-agent/src/lib.rs:975-1056 | The scan refuses exactly the blocked starts. |
| `AgentProcess.Process.FindBlocker` | apps/lmt-agent/src/lib.rs:997-1021 | The loop finds a blocking record if and only if one exists. |
| `AgentProcess.Process.Cancel` | apps/lmt-agent/src/lib.rs:1058-1098 | Persists the intent, the tombstone, or nothing, as specified. |
| `AgentProcess.Process.Spawned` | apps/lmt-agent/src/executor.rs:87-96 | The write-back merges only the cancellation flag from disk. |
| `AgentProcess.Process.LaunchFailed` | apps/lmt-agent/src/executor.rs:185-226 | A launch failure is Cancelled if a cancellation is durable and Failed otherwise; it stays in memory to be reported whether or not its write succeeds. |
| `AgentProcess.Process.Finished` | apps/lmt-agent/src/executor.rs:114-183 | The outcome table, with a durable cancellation outranking every outcome; the outcome stays in memory to be reported whether or not its write succeeds. |
| `AgentProcess.Process.Recover` | apps/lmt-agent/src/lib.rs:1100-1147 | The loop ends every open record without a publication to recover, leaves the others, and hands every end to reconciliation even if its write was lost; after it only publications are open, but for lost writes. |
| `AgentProcess.Process.EventAcknowledged` | apps/lmt-agent/src/lib.rs:1207-1213 | Merges an answer into the record now on disk, never lowering the acknowledgement there. |
| `AgentOutcomes.AcknowledgementStays` | apps/lmt-agent/src/lib.rs:1207-1213 | Without a task at work on it, what the server acknowledged of a record, events and log, is never lowered. |
| `AgentProcess.Process.RetireIfReady` | apps/lmt-agent/src/lib.rs:1262-1264 | Retires exactly the records that are ended, acknowledged, fully logged and unprotected. |
| `AgentOutcomes.NoRecordLeavesBeforeItsLog` | apps/lmt-agent/src/spool.rs:202-207 | Over every history without a reset a record stays in the spool until the server has acknowledged the whole log. |
| `AgentProcess.Process.ResetSpool` | apps/lmt-agent/src/lib.rs:530-563 | Refuses the whole reset if and only if some record holds protected evidence; otherwise nothing is left. |
| `AgentOutcomes.ResetExactly` | apps/lmt-agent/src/spool.rs:209-220 | A reset empties the spool if and only if every publication is over: not begun, undone, or reported, acknowledged and logged. |
| `AgentProcess.Process.ClearFence` | apps/lmt-agent/src/publication.rs:307-340 | Clears exactly an addressed, acknowledged fence without another recoverable attempt of its mirror, given the check of the namespace. |
| `AgentOutcomes.ClearedMirrorIsFree` | apps/lmt-agent/src/publication.rs:298-340 | Once a fence is cleared nothing but another fence keeps its mirror from publishing. |
| `AgentProcess.Process.Abandon` | apps/lmt-agent/src/publication.rs:266-296 | Abandons exactly the addressed visible publication, and is done once the fence is on disk; a failing write may leave it there. |
| `AgentProcess.Process.FindRecoverable` | apps/lmt-agent/src/publication.rs:318-338 | The loop finds another recoverable attempt of the mirror if and only if there is one. |
| `Logs.LogSurvivesTheNetwork` | apps/lmt-server/src/lib.rs:1845-1892 | **Under any loss, duplication, overlap or delay the server's file is a prefix of the agent's log, no chunk conflicts, and a complete acknowledgement means the server has the whole log.** |
| `Logs.ExpiredIsNeverRecreated` | apps/lmt-server/src/lib.rs:1851-1855 | An expired log stays expired, and its removed file is never created again. |
| `Logs.LogStore.Append` | apps/lmt-server/src/lib.rs:1845-1892 | The append compares the overlap, writes only the tail and then the row, failing as specified. |
| `Logs.AppendExactly` | apps/lmt-server/src/lib.rs:1845-1892 | For any file and chunk: ahead if and only if it starts past the end, in conflict if and only if a shared byte differs, and otherwise the file is extended to contain the whole chunk, its row and the answer say its length, and completeness is never lost. |
| `Logs.RoundTripDelivers` | apps/lmt-agent/src/lib.rs:1215-1261 | A chunk sent from the acknowledged offset whose round trip meets no fault is acknowledged to its end, and the final one leaves the whole log on the server. |
| `Logs.LogStepKeepsInv` | apps/lmt-agent/src/lib.rs:1215-1261 | Every capture, chunk, answer, write-back, expiry and removal keeps the log invariant. |
| `Logs.PieceExtendsPrefix` | apps/lmt-server/src/lib.rs:1868-1887 | A piece of the log never conflicts with a prefix of it and extends it to a longer prefix. |
| `Logs.ReadLogChunks` | apps/lmt-cli/src/main.rs:468-521 | The reader emits a prefix of the log, exactly the log once it sees the complete flag, everything stored before it stops without following, and is refused only by an expired log. |
| `Logs.ReadMakesProgress` | apps/lmt-server/src/lib.rs:1792-1832 | On a complete unexpired log every request makes progress, and complete is answered exactly at the end. |
| `Retention.PlanLogMaintenance` | apps/lmt-server/src/lib.rs:469-530 | The two passes choose the oldest expirable entries, as many as age or the cap demands, whichever is more; the bytes are their sum. |
| `Retention.PlannedPrefixIsNecessary` | apps/lmt-server/src/lib.rs:488-524 | **No planned entry could have been spared and none after them had to go.** |
| `Retention.AgePrefixIsExact` | apps/lmt-server/src/lib.rs:490-502 | On the ordered list the too old entries are exactly a prefix. |
| `Retention.CapPrefixIsShortest` | apps/lmt-server/src/lib.rs:503-524 | The cap's prefix is the shortest that suffices, or everything. |
| `Retention.PlanIsSound` | apps/lmt-server/src/lib.rs:469-530 | A plan names no entry twice, none expired and none in use, and no more bytes than are stored. |
| `Retention.CountsAndChoosesExactly` | apps/lmt-server/src/lib.rs:469-530 | What counts as stored is each entry not expired, once, and what may be chosen is each of those not in use, once. |
| `Retention.CapPass` | apps/lmt-server/src/lib.rs:503-524 | The second pass skips what the first chose and stops at the shortest sufficient prefix. |
| `Placeholders.SequentialIsSimultaneous` | crates/lmt-core/src/config.rs:244-253 | **For every accepted string and brace-free values the seven replacements made one after another equal one simultaneous substitution and leave no brace.** |
| `Placeholders.NamesResolve` | crates/lmt-core/src/config.rs:244-253 | Each of the seven documented names in braces resolves to its own value. |
| `Placeholders.ValidatePlaceholders` | crates/lmt-core/src/config.rs:550-570 | The loop accepts exactly the strings that parse into literals and known placeholders, and reports the first fault of any other. |
| `Placeholders.ParseThenRender` | crates/lmt-core/src/config.rs:550-570 | An accepted string is the rendering of its segments, whose literals hold no brace. |
| `Placeholders.RenderThenParse` | crates/lmt-core/src/config.rs:550-570 | Every rendering of brace-free literals and known placeholders is accepted and parses back to them. |
| `Placeholders.ReplaceFills` | crates/lmt-core/src/config.rs:244-253 | One replacement fills the holes of its placeholder and touches nothing else. |

## Left out

- Timestamps, exit codes, failure texts and other diagnostic columns of runs, attempts and records.
- Node capacity and agent binding, which `observe_node` maintains: a poll is given whether there is capacity.
- Cron parsing, time zones and overflow of `next_after_ms`: a cron schedule is any function that answers a later time.
- Hashing, ULIDs, JSON and TOML: hashes stand for values, new identifiers are new.
- SQLite, migrations, the backup files and their verification.
- HTTP routing, authentication, credentials, metrics, health and doctor reports, the rest of the command line, the installer.
- Process spawning, signals and reaping, below the outcome of an execution.
- Durability below rename and fsync: a crash is a process crash.
- Checks that fail before anything changes (device equality, mount points, path shapes, unrecognised private entries, free space) are one step that may fail.
- The recorded `exchange_identity` and `rotated_previous_identity`, which nothing reads.
- `validate_atomic_rsync_args`, `target_overlap_errors` and the rest of configuration validation, which are local checks without state.
- Generations.CollectGarbage: removes candidate and basis of one attempt directory as two deletions in any order, and stops at any of them; the free-space reserve is not computed.
- Publication.Site.RecoverReady: the branch for inconsistent identities is proved unreachable instead of modelled.
- Logs.ReadLogChunks: follows for as many requests as servers are given, and leaves the waiting out.
- Store.Store.PollAction: leaves open which candidate row of the right kind is chosen, because the ORDER BY of the queries is not part of any property here.
- AgentProcess.Process.ClearFence: takes the check of the namespace as an argument; Publication.Site.ClearFence makes that check.
