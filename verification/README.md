# JUDAH support assignment: a verified model

JUDAH assigns HubSpot support tickets to agents. Its assignment writer is a set
of protocols made of short database transactions around slow provider calls:
durable assignment attempts beside a ledger of ticket occupancies and held
reservations, conversation cycles and their closes, the queue and its ranking,
availability reconciliation, the opening barrier, the n8n outbox, and the
attribution of agents to cycles. This project models those protocols in Dafny
and proves what they keep over every run.

Each database transaction is one step on an explicit value that holds the
tables. Provider reads and writes are steps of their own, so everything other
actors commit in between is part of every theorem. A transaction that raises or
returns early leaves the tables as they were. Code that updates rows in place is
also written as classes whose methods reassign the table fields, and every such
method is proved equal to the step it stands for.

## How the modules fit

- `CapacityLedger`, `LedgerFrames`, `LedgerChanges`: occupancies, reservations
  and agent rows (`capacity_service.py`, the row writes of
  `owner_reconciliation_service.py`); seven lawful kinds of change.
- `AssignmentProtocol`, `AssignmentInvariants`, `AssignmentSteps`: the world of
  tables and its fifteen transactions (`durable_assignment_service.py`,
  `owner_reconciliation_service.py`, `admin_api.py`); every enforcing
  transaction is one of the seven changes.
- `AssignmentSafety`, `HoldCoverage`, `AttemptLifecycle`, `NonEnforcingCounter`,
  `CompensationUndo`, `SpentKey`: what holds in every run. `ReachableStates` states it for
  every run from a database that knows only its agents, and `ReachableFailures`
  gives the runs from there on which a promise fails.
- `CapacityGate`, `OwnerProjection`, `RetryCount`, `TransactionEffects`: the same
  transactions told from their rows alone. Which answer each gives, which fields
  each writes, and what that means over a run: whoever is held a ticket was freshly
  marked ready, an assignment follows its ticket's owner, and waits double with the
  failures counted.
- `ObservationFreshness`, `PortfolioScan`: provider observations in flight, and
  the generation check of a portfolio scan.
- `EffectDrivers`, `RetryDriver`, `TransferDriver`: the drivers around one
  provider effect, with other workers' commits between their transactions.
  `ExecutionOutcomes` says how an undisturbed execution or readback ends for each
  answer of the provider.
- `SupportStore`: the same transactions as row updates of a class.
- `ConversationCycles`, `CycleRace`, `TicketClose`, `CycleHistory`,
  `HistoryFailures`, `CycleStore`: cycle admission, racing inserts, close
  resolution, whole histories, the runs on which they surprise, and the tables in
  place. `ClosedCredit` says whom a closed attendance is credited to over a whole
  history. `CycleRefinement` ties these full cycle rows to the few facts of a cycle
  that the assignment protocol looks at.
- `QueueRanking`, `ConcurrentRanking`, `QueueDrain`: the ranking, its fairness
  bounds for one and for several reservations at a time, and the drain loop.
- `Availability`, `AvailabilityService`: one agent's availability against its
  history, the lease, and the passes over all agents.
- `OpeningCohort`, `OperationalCalendar`, `OpeningDeadline`: the opening barrier,
  the window the calendar resolves, and how long the two can hold a row.
- `Outbox`, `Attribution`: delivery with per-thread leases, and the batched
  attribution sweep.

Capacity is proved in enforcing mode (`SUPPORT_CAPACITY_MODE == "enforce"`)
unless a statement says otherwise; `NonEnforcingCounter` is the other mode.

## What the code does not promise

Some promises of the code's documentation or names hold only under a condition.
Each has its exact condition, an equivalence over one step or over every run, and
an input or a run from an empty database on which it fails.

- An attempt keeps its terminal state over a run exactly when the repair loop's
  exception handler never overwrites it while its cycle has no other live attempt:
  `TerminalLeavesIff`, `TerminalForever`; a completed one that is overwritten:
  `OverwriteLeavesTotalAhead`.
- The handler's overwrite looks at nothing, and the guards alone would let it leave
  two live attempts on a cycle. The unique constraint on live attempts refuses it
  exactly then, and the refusal raises out of the repair loop: `OverwriteBreaksIff`,
  `OverwriteRefusedIff`, `OverwriteIsRefused`. So one live attempt for each cycle
  holds in every run: `RunKeepsOneEach`, `ReachableAttempts`.
- A row whose automatic attempt was given up for good without quarantine waits in
  the queue, but no automatic reservation of it is ever granted again: as soon as
  all its checks pass, the unique key refuses the insert, and the exception ends the
  drain: `SpentKeyIff`, `SpentRowEndsDrain`, `SpentKeyBlocksRow`.
- An agent's total is its completed attempts plus the overwrites that hit a
  completed one: `RunTotalsMatch`, `OverwriteLeavesTotalAhead`.
- Execution never looks at the attempt's reservation, so a provider write is covered
  by held capacity exactly when the hold was there before the read; a reserved
  attempt loses its hold exactly when an observation confirms its owner or ends its
  ticket's scope first: `PatchCoveredIff`, `RunCoversIff`, and the write without a
  hold: `PatchWithoutHold`.
- Without enforcement each counter is the number of open attempts exactly as long as
  no close of an assigned conversation takes one off: `RunExactIff`,
  `ReachableBalance`, `CloseLeavesCounterBehind`.
- When two stage entries of a ticket race, the unique constraints still leave one
  active cycle and one row per entry, but that cycle is the latest exactly when
  no unseen cycle began later: `RaceKeepsOrderIff`, `RaceCanBreakOrder`.
- Delivering a close again is a duplicate exactly when no later attendance
  began by the close's effective time: `RedeliveryIsDuplicateIff`,
  `RedeliveryEndsNextAttendance`.
- The "no consecutive" rule can leave a ticket unassigned although the last
  owner is available: exactly when every other eligible agent fails a later
  check: `StalledIff`, `StallsAfterOneAssignment`.
- In every run a cohort waits at most the stability time plus one heartbeat from the
  look that freezes it, unless a clock change skips the window's start on the wall
  clock and the look comes before the instant that start is read as; for one look
  that condition is exact: `ResolvedCohortsAreBounded`, `WindowStartsLateIff`,
  `ResolvedBoundIff`, `SkippedOpeningWaitsLonger`.
- An evaluation that loses the race to freeze a cohort follows the winner's row
  exactly when its own snapshot would have frozen one; otherwise its row passes the
  barrier: `EvaluateAgreesWithFinalize`, `RaceKeepsWinner`.
- A dead letter is final exactly when no worker still holds a claim on it:
  `DeadLetterLeavesIff`, `DeadLetterIsFinalIff`, `DeadLetterComesBack`.
- An event is attempted more often than its maximum exactly when a claim takes it
  over with the last attempt already spent: `AttemptsPassIff`, `RunKeepsBudgetIff`,
  `TakeoverExceedsBudget`.

## Model

| member | source | states |
|---|---|---|
| CapacityLedger.MaterializeRestoresCounters | apps/support/capacity_service.py:82-90 | re-projecting any set of agents that covers everyone whose union changed makes every stored counter agree again |
| CapacityLedger.AffectedCoversChanges | apps/support/owner_reconciliation_service.py:230-278 | an observation changes no agent's ticket union outside the set it collects as affected |
| CapacityLedger.HoldCounts | apps/support/capacity_service.py:104-132 | a hold adds exactly its ticket to the agent's union, so the count grows by one unless the ticket was already counted |
| CapacityLedger.HoldKeepsCounters | apps/support/capacity_service.py:104-132 | holding capacity keeps every counter equal to its agent's union |
| CapacityLedger.ConcludeKeepsCounters | apps/support/capacity_service.py:135-142 | concluding a reservation and materializing its agent keeps every counter equal to its union |
| CapacityLedger.ObservationKeepsCounters | apps/support/owner_reconciliation_service.py:163-379 | an applied observation keeps every counter equal to its agent's union |
| CapacityLedger.ConfirmationKeepsUnion | apps/support/owner_reconciliation_service.py:365-372 | converting a held reservation on a matching owner leaves the agent's set of counted tickets unchanged |
| LedgerChanges.ChangeKeepsCounters | apps/support/capacity_service.py:73-151 | each of the seven lawful ledger changes keeps all counters |
| LedgerChanges.UnionGrowth | apps/support/capacity_service.py:93-132 | an agent's union grows only by the ticket a change holds for it or observes on it |
| LedgerChanges.ChangeKeepsMaximum | apps/support/capacity_service.py:93-132 | a guarded hold, or an observation of an owner that already counted the ticket, takes nobody past the maximum |
| LedgerChanges.ChangeBumpsGeneration | apps/support/capacity_service.py:82-151 | every change to an agent's occupancy, reservations or standing raises its revision |
| LedgerChanges.ObservationGeneration | apps/support/owner_reconciliation_service.py:380-382 | an applied observation raises exactly the affected agents' revisions, by one |
| LedgerChanges.TicketRevision | apps/support/owner_reconciliation_service.py:373-378 | a ticket's revision rises by one with each hold or observation of it and with nothing else |
| LedgerChanges.HeldUntilConcluded | apps/support/capacity_service.py:135-142 | a held reservation stops being held exactly when a change concludes it |
| AssignmentInvariants.StepKeepsLinks | apps/support/durable_assignment_service.py:236-1102 | every transaction keeps attempts tied to known agents, cycles and their own reservation |
| AssignmentSteps.StepIsAChange | apps/support/durable_assignment_service.py:236-1102 | every enforcing transaction is one of seven lawful ledger changes, with its guards |
| CapacityGate.ReservationAnswers | apps/support/durable_assignment_service.py:274-420 | each answer of a reservation read off the rows, in the order of its checks: capacity asks for a ready agent, reconciled within the freshness and below its maximum, and for nothing else |
| CapacityGate.RetryAnswers | apps/support/durable_assignment_service.py:1055-1085 | a retry goes ahead exactly for a retryable attempt whose reservation is released and whose agent is ready, fresh and below its maximum |
| CapacityGate.TransferAnswers | apps/support/admin_api.py:679-700 | a transfer is held exactly for an unchanged, active, assigned ticket without pending holds, and a ready, fresh target with room that does not own it |
| CapacityGate.NewHoldsNeedOpenAgents | apps/support/capacity_service.py:93-101 | whatever transaction newly holds a ticket, its agent is ready, freshly reconciled and below its maximum at that moment |
| CapacityGate.HoldersAreFresh | apps/support/capacity_service.py:93-101 | in every enforcing run from the start an agent newly held a ticket was marked ready by a scan no longer ago than the freshness, and no transaction degraded it since |
| TransactionEffects.GrantWrites | apps/support/durable_assignment_service.py:383-446 | a granted reservation writes one attempt on the row's ticket and cycle, claims the row for the claim's time, stamps the agent and takes its capacity, and touches nothing else |
| TransactionEffects.OtherAnswersWrite | apps/support/durable_assignment_service.py:290-382 | a reservation that is not granted at most fails its row as stale or removes it as done |
| TransactionEffects.RetryWrites | apps/support/durable_assignment_service.py:1085-1101 | a retry reopens the same attempt with its count of failures and takes capacity again, or writes nothing |
| TransactionEffects.TransferWrites | apps/support/admin_api.py:701-719 | a transfer takes its target's capacity, leaves the target's newest assignment alone, and writes nothing else |
| TransactionEffects.FinalizationWrites | apps/support/durable_assignment_service.py:722-809 | finalization goes through exactly for a marked attempt of a queued cycle whose owner has been seen on the ticket, and then writes these five rows; otherwise nothing |
| TransactionEffects.MarkWrites | apps/support/durable_assignment_service.py:208-233 | marking changes the state of an attempt under way and of nothing else |
| TransactionEffects.CloseWrites | apps/support/ticket_close_service.py:294-331 | a close ends its own cycle and drops its rows, and only outside enforcement takes one off its agent's counter |
| TransactionEffects.OpeningWrites | apps/support/matchmaker_service.py:400-413 | a cycle opens queued once, and a row is enqueued pending and unclaimed for a cycle without one |
| TransactionEffects.CompensationCounts | apps/support/durable_assignment_service.py:846-859 | a compensation that lets go re-projects its agent from the tickets that remain, or without enforcement takes one off the counter the first time only |
| AssignmentSafety.RunKeepsCounters | apps/support/durable_assignment_service.py:430-431 | over every interleaving each chat counter is the size of the union of occupied and held tickets |
| AssignmentSafety.RunKeepsMaximum | apps/support/durable_assignment_service.py:368-382 | if no observed owner surprises the ledger, no agent ever exceeds its maximum |
| AssignmentSafety.HoldEndsIff | apps/support/durable_assignment_service.py:825-871 | a held attempt reservation ends exactly on a matching-owner observation, a terminal-scope observation, or a compensation that is not a repair |
| AssignmentSafety.RunKeepsConcluded | apps/support/durable_assignment_service.py:1055-1101 | in every run a compensated or retryable attempt has no held reservation |
| HoldCoverage.StepCoversIff | apps/support/durable_assignment_service.py:607-668 | a reserved attempt with held capacity keeps it through a transaction exactly when that is not an observation confirming its owner or ending its ticket's scope |
| HoldCoverage.RunCoversIff | apps/support/durable_assignment_service.py:607-668 | over any enforcing run a reserved attempt has its capacity held in every state exactly when no such observation landed |
| ReachableStates.StartIsSound | apps/support/models.py:155-187 | a database holding only its agents satisfies every invariant |
| ReachableStates.ReachableCapacity | apps/support/capacity_service.py:73-132 | in every reachable enforcing state the counters are the unions, concluded attempts hold nothing, and without surprises nobody is over the maximum |
| ReachableStates.ReachableAttempts | apps/support/models.py:729-749 | in every reachable state a cycle has one live and one completed attempt at most, and each total is the completed attempts plus the overwritten ones |
| ReachableStates.ReachableBalance | apps/support/durable_assignment_service.py:830-859 | without enforcement, over every run from the start, the counters are the open attempts in every state exactly when no close takes one off |
| ReachableStates.ReachableReadIsFresh | apps/support/owner_reconciliation_service.py:235-244 | in every enforcing run from the start an observation that lands was read after its ticket's last commit |
| ReachableFailures.OverwriteIsRefused | apps/support/durable_assignment_service.py:1176-1181 | a run from the start on which the handler's overwrite meets another live attempt, is refused and changes nothing |
| ReachableFailures.OverwriteLeavesTotalAhead | apps/support/durable_assignment_service.py:1176-1181 | a run from the start on which the overwrite leaves an agent's total one ahead of its completed attempts |
| ReachableFailures.PatchWithoutHold | apps/support/durable_assignment_service.py:607-668 | a run from the start after which a reserved attempt without held capacity is written to the provider |
| ReachableFailures.ReachableCoverage | apps/support/durable_assignment_service.py:607-668 | in every enforcing run from the start reserved attempts hold their capacity exactly when no conclusive observation landed while they were reserved |
| ReachableFailures.CloseLeavesCounterBehind | apps/support/ticket_close_service.py:281-331 | a run from the start, without enforcement, on which a close leaves a counter below its agent's open attempts |
| ReachableFailures.SpentKeyBlocksRow | apps/support/durable_assignment_service.py:412-420 | a run from the start after which a ready row's next automatic reservation breaks the unique key and changes nothing |
| AttemptLifecycle.StepWrites | apps/support/durable_assignment_service.py:208-1102 | a transaction writes at most one attempt row, the one its guards allow |
| AttemptLifecycle.StepFollowsEdges | apps/support/durable_assignment_service.py:208-1102 | every guarded transaction moves an attempt along an edge of its state machine and never changes its cycle or agent |
| AttemptLifecycle.TerminalLeavesIff | apps/support/durable_assignment_service.py:1176-1181 | a terminal attempt leaves its state exactly when the repair handler overwrites it and no other attempt of its cycle is live |
| AttemptLifecycle.TerminalForever | apps/support/durable_assignment_service.py:1176-1181 | over any run a terminal attempt keeps its state exactly when no overwrite names it while it is the only one that could be live |
| AttemptLifecycle.StepAdvancesCycles | apps/support/durable_assignment_service.py:805-808 | no transaction forgets a cycle, re-queues one, or reopens a closed one |
| AttemptLifecycle.OverwriteBreaksIff | apps/support/durable_assignment_service.py:1176-1181 | what the guards alone give, without the unique constraint: the handler's write keeps one live attempt for each cycle exactly when no other attempt of the cycle is live |
| AttemptLifecycle.OverwriteRefusedIff | apps/support/models.py:730-743 | the constraint refuses the handler's write exactly when another attempt of the cycle is live, which is exactly when it would break the promise, and then the attempt had already ended |
| AttemptLifecycle.RunKeepsOneEach | apps/support/models.py:729-749 | in every run, handler writes included, a cycle has at most one live and at most one completed attempt |
| AttemptLifecycle.KindReservesOnce | apps/support/durable_assignment_service.py:102-105 | a cycle is reserved at most once for each kind of assignment in any run |
| AttemptLifecycle.StepTotalsMatch | apps/support/durable_assignment_service.py:789-808 | one transaction raises a total by the attempts it completes, and by one more exactly when the handler overwrites a completed one |
| AttemptLifecycle.RunTotalsMatch | apps/support/durable_assignment_service.py:789-808 | over any run an agent's total rises by its newly completed attempts plus the overwrites that hit a completed one |
| AttemptLifecycle.GrantShieldsRow | apps/support/durable_assignment_service.py:383-400 | until its claim expires a granted row is out of reach of every other automatic reservation |
| AttemptLifecycle.FinalizationConsumesRow | apps/support/durable_assignment_service.py:744-795 | finalization leaves the assignment under the attempt's agent and owner, and no row to reserve on its cycle |
| AttemptLifecycle.NeverReservedAgain | apps/support/durable_assignment_service.py:108-115 | once a cycle has left the queued state no reservation on it is granted in any run |
| CompensationUndo.CompensationUndoesReserve | apps/support/durable_assignment_service.py:846-864 | compensating a fresh reservation gives every agent back exactly the tickets it counted before |
| CompensationUndo.CompensationRestoresCounters | apps/support/durable_assignment_service.py:846-864 | the same round trip restores every stored counter |
| CompensationUndo.RetryDelayDoubles | apps/support/durable_assignment_service.py:868-871 | each further retry doubles the wait, from a minute up to half an hour |
| CompensationUndo.NextAfterCompensation | apps/support/durable_assignment_service.py:872-926 | who may reserve a row after a compensation, and when: nobody while a retry or repair is left, never the same kind again, the other kind under its own guards unless quarantined |
| RetryCount.CompensationWrites | apps/support/durable_assignment_service.py:859-871 | the attempt row a compensation leaves: its state, one more failure exactly when it was not compensated before, and its first compensation time |
| RetryCount.CompensationFreesRow | apps/support/durable_assignment_service.py:872-890 | the attempt's own queue row loses its claim, says what failed and waits exactly as long as the attempt; no other row changes |
| RetryCount.RunCountsFailures | apps/support/durable_assignment_service.py:859-868 | in every run from the start an attempt's retry count is the number of its compensations that found it not compensated and were not kept as a held repair |
| RetryCount.NthRetryWaits | apps/support/durable_assignment_service.py:868-890 | in every run from the start the n-th failure, if it is to be retried, makes the attempt and its row wait a minute times two to the n-1, half an hour at most |
| SpentKey.SpentKeyIff | apps/support/durable_assignment_service.py:102-105 | once a cycle has had an attempt of a kind, in every later run a reservation of that kind is refused by the key exactly when all its checks pass, and changes nothing |
| SpentKey.FinalCompensationKeepsRow | apps/support/durable_assignment_service.py:872-890 | a final compensation without quarantine leaves its row ready, and an automatic reservation of it meets the key exactly under the remaining checks |
| SpentKey.RetriesChangeNothing | apps/support/durable_assignment_service.py:408-420 | trying such a row again, any number of times, leaves it where it was |
| SpentKey.SpentRowEndsDrain | apps/support/matchmaker_service.py:262-305 | a drain that meets such a row first raises there as soon as one candidate passes, and leaves the rows behind it alone |
| NonEnforcingCounter.StepDelta | apps/support/durable_assignment_service.py:401-407 | without enforcement one transaction adds one for a hold taken, subtracts one for a hold released, and nothing else |
| NonEnforcingCounter.RunKeepsBalance | apps/support/durable_assignment_service.py:830-859 | the counter moves over a run by exactly the change in attempts whose `compensated_at` is unset |
| NonEnforcingCounter.ClampNeverActs | apps/support/durable_assignment_service.py:849-859 | the clamp at zero never takes effect |
| NonEnforcingCounter.StepExactIff | apps/support/ticket_close_service.py:281-331 | one transaction keeps every counter equal to the open attempts exactly when it is not a close that takes one off |
| NonEnforcingCounter.RunExactIff | apps/support/durable_assignment_service.py:830-859 | over any run the counters are exact in every state exactly when no close takes one off |
| ObservationFreshness.EventKeepsCoherent | apps/support/owner_reconciliation_service.py:150-244 | every event keeps each read in flight either outdated by revision or begun after the ticket's last commit |
| ObservationFreshness.AppliedReadIsFresh | apps/support/owner_reconciliation_service.py:235-244 | every applied observation was read after the ticket's last committed hold or observation, at a position no earlier than the last applied |
| ObservationFreshness.RejectedLeavesTables | apps/support/owner_reconciliation_service.py:235-244 | an observation that does not land changes no occupancy and no reservation |
| OwnerProjection.ObservationAnswers | apps/support/owner_reconciliation_service.py:207-272 | each answer to an observation read off the rows: rejected, not current, waiting for its close time, or applied |
| OwnerProjection.ReadsLandIff | apps/support/owner_reconciliation_service.py:207-272 | a read lands exactly when it is applied on its ticket's own unfinished cycle and assignment; one that waits for its time creates at most the occupancy row |
| OwnerProjection.ObservationProjects | apps/support/owner_reconciliation_service.py:60-147 | which assignment an applied observation writes or removes: a new owner's is created, another owner's is moved to the observed owner and agent, an absent owner's or a closed cycle's is removed, and every other stays |
| OwnerProjection.ObservationMovesCycle | apps/support/owner_reconciliation_service.py:106-147 | a new owner assigns the queued cycle and takes its queue row exactly when no live attempt holds or has converted the ticket for that agent; a close ends both |
| OwnerProjection.RejectionDegrades | apps/support/owner_reconciliation_service.py:380-390 | a rejected read degrades exactly the agents it may concern, and writes nothing else |
| OwnerProjection.ObservationStamps | apps/support/owner_reconciliation_service.py:274-379 | an owner new to the ticket is its agent's newest assignment, and nobody else is stamped |
| OwnerProjection.ReadReprojects | apps/support/owner_reconciliation_service.py:274-382 | an applied read raises, by one, the generation of exactly the agents its ticket was, is or will be counted for, is held for or assigned to, and changes nobody's standing |
| OwnerProjection.AssignmentFollowsOccupancy | apps/support/owner_reconciliation_service.py:87-104 | in every reachable state an applied read of an owner leaves the assignment it concerns with the owner and the agent of its ticket's occupancy |
| ObservationFreshness.RunNeverGoesBack | apps/support/owner_reconciliation_service.py:373-378 | over any interleaving applied positions and provider timestamps never go back |
| PortfolioScan.TrackerMatchesIff | apps/support/owner_reconciliation_service.py:488-494 | the stored revision equals the scan's tracker exactly when no foreign turn moved the agent's generation |
| PortfolioScan.MatchMeansUndisturbed | apps/support/owner_reconciliation_service.py:488-494 | a match means no other actor changed the agent's tickets or degraded it during the scan |
| PortfolioScan.DegradeMovesGeneration | apps/support/capacity_service.py:145-151 | degrading an agent always moves its generation |
| PortfolioScan.RefreshAgentCapacity | apps/support/owner_reconciliation_service.py:393-502 | the scan marks the agent ready exactly when it observed the whole portfolio in time, found no unclassified attempt and then no ambiguous hold, and nothing else moved the agent's generation up to the mark; otherwise it degrades it |
| PortfolioScan.NothingOpen | apps/support/owner_reconciliation_service.py:473-487 | what the two closing queries of a scan look for: unfinished attempts without a reservation, and held transfers or repairs |
| EffectDrivers.ConfirmedEffectCompletes | apps/support/durable_assignment_service.py:684-696 | a confirming read, marking and finalization complete the attempt and assign its cycle, whatever is committed in between that spares the attempt, its cycle and its ticket's owner |
| EffectDrivers.ReconcileAmbiguousAttempt | apps/support/durable_assignment_service.py:930-1026 | with and without enforcement the readback driver converges to the decision its read supports, with other commits between all its transactions |
| EffectDrivers.ReadbackReleasesOnlyConclusively | apps/support/durable_assignment_service.py:930-1026 | whatever others commit in between, a readback itself takes held capacity away only on conclusive evidence |
| EffectDrivers.ReadbackAssignsTruthfully | apps/support/durable_assignment_service.py:982-990 | an assignment is reported only for a completed attempt, completed by others or with its owner shown by the ledger |
| EffectDrivers.ExecuteAssignmentAttempt | apps/support/durable_assignment_service.py:607-719 | one execution is precondition read, patch and readback, with every early stop, in both modes and with other commits in between; `ExecutionOutcomes` says what each answer of the provider ends in |
| EffectDrivers.PatchCoveredIff | apps/support/durable_assignment_service.py:607-668 | the provider is written to only for an attempt seen reserved on a queued cycle and just read without owner, and undisturbed that write is covered exactly when the hold was there before |
| EffectDrivers.PlainReadbackGivesBack | apps/support/durable_assignment_service.py:1000-1026 | without enforcement a readback keeps the agent's slot only on the confirmed owner and gives it back on every other answer |
| ExecutionOutcomes.ExecutionStopsEarly | apps/support/durable_assignment_service.py:607-670 | undisturbed, the outcome and the state left of attempt, hold and row for a completed attempt, a cycle that waits no more, an attempt not reserved, a provider not allowed, a missing ticket and a failed read |
| ExecutionOutcomes.ReadStopsExecution | apps/support/durable_assignment_service.py:646-690 | the same for a rejected read, a ticket outside the first stage, and the desired owner already there |
| ExecutionOutcomes.OtherOwnerConverges | apps/support/durable_assignment_service.py:682-696 | another owner on the ticket: nothing is written to the provider, the attempt is given up and its hold ended, its row is quarantined as observed elsewhere, and the ticket is observed again |
| ExecutionOutcomes.UnownedIsWritten | apps/support/durable_assignment_service.py:698-719 | an unowned ticket, and no other, is written to the provider; a missing one is given up and quarantined, any other result is read back |
| ExecutionOutcomes.AppliedIsReadBack | apps/support/durable_assignment_service.py:619-623 | an attempt already applied is read back and never written again |
| ExecutionOutcomes.ReadbackWithoutAnswer | apps/support/durable_assignment_service.py:930-983 | a readback of an ended cycle gives up, and one without anything usable leaves the attempt for repair |
| ExecutionOutcomes.ReadbackDecides | apps/support/durable_assignment_service.py:930-1026 | under enforcement the observed row decides a readback: over, owned by the desired agent, rejected and unowned, or left for repair, with what each leaves behind |
| ExecutionOutcomes.PlainReadbackDecides | apps/support/durable_assignment_service.py:1000-1026 | without enforcement the owner just read decides: completed, tried again when nobody owns it, otherwise left for repair |
| RetryDriver.RetryAssignmentAttempt | apps/support/durable_assignment_service.py:1029-1102 | a retry stops at each early check in order, takes capacity again, and executes once more |
| RetryDriver.RetryWritesCovered | apps/support/durable_assignment_service.py:1055-1102 | a retry that executes holds its capacity again, and undisturbed it writes under that hold to a cycle still queued |
| RetryDriver.StaleRetryGivesBack | apps/support/durable_assignment_service.py:1029-1102 | a retry whose cycle left the queue after the early check writes nothing to the provider and leaves every agent the tickets it had |
| RetryDriver.RetryStopsIff | apps/support/durable_assignment_service.py:1029-1085 | the exact condition of each stop of a retry and of its going ahead, and that a stopped one has written nothing of its own |
| TransferDriver.CapacityForceReassign | apps/support/admin_api.py:666-746 | the forced reassignment observes, holds its target, calls the provider and reads back, degrading the target on a failed call or an unconfirmed owner |
| TransferDriver.TransferHoldEndsIff | apps/support/owner_reconciliation_service.py:365-372 | a transfer's hold ends exactly on an applied observation of its ticket under the target, or out of scope |
| TransferDriver.RunHoldsTransferIff | apps/support/admin_api.py:721-729 | over any run a transfer stays held exactly until such an observation lands |
| TransferDriver.TransferKeepsTicketCounted | apps/support/admin_api.py:701-729 | from the hold on the target counts the ticket: a confirmed transfer leaves it occupied or held, a failed readback leaves it held, and an unconfirmed one keeps it until a read settles it |
| TransferDriver.TransferEndsCounted | apps/support/admin_api.py:666-746 | the same from the driver's start: every transfer that reaches its provider call ends as its readback does, with the ticket's capacity kept |
| TransferDriver.TransferStopsIff | apps/support/admin_api.py:666-719 | the exact condition of each end of a transfer before its provider call, and what it has written by then |
| TransferDriver.PatchDegrades | apps/support/admin_api.py:721-729 | a failed provider call degrades the target, and no call touches the hold |
| TransferDriver.ReadbackEnds | apps/support/admin_api.py:721-746 | a transfer's readback fails, confirms the target as active owner, or degrades the target, each exactly when |
| SupportStore.Store.constructor | apps/support/models.py:155-187 | the store starts with its agents and nothing else |
| SupportStore.Store.MaterializeAgents | apps/support/capacity_service.py:82-90 | the row loop writes what re-projection specifies, and nothing else |
| SupportStore.Store.DegradeAgents | apps/support/capacity_service.py:145-151 | the row loop degrades the listed agents and nobody else |
| SupportStore.Store.HoldCapacity | apps/support/capacity_service.py:104-132 | the hold writes the reservation, the revision and the agent row as specified |
| SupportStore.Store.ConcludeReservation | apps/support/capacity_service.py:135-142 | concluding an already concluded reservation changes nothing |
| SupportStore.Store.SettleReservations | apps/support/owner_reconciliation_service.py:365-372 | the loop settles every held reservation of the ticket by owner or scope and reports its holders |
| SupportStore.Store.WriteObservation | apps/support/owner_reconciliation_service.py:274-379 | the row writes of an applied observation, with the affected agents collected on the way |
| SupportStore.Store.TryReserve | apps/support/durable_assignment_service.py:274-446 | one candidate's transaction, its checks made on the rows in order, takes the branch that `ReservationAnswers` describes and writes what `GrantWrites` and `OtherAnswersWrite` say |
| SupportStore.Store.ReserveRanked | apps/support/durable_assignment_service.py:270-446 | candidates are tried in order until one transaction does not just reject its agent |
| SupportStore.Store.MarkExternalApplied | apps/support/durable_assignment_service.py:208-233 | marking is refused without a write from a wrong state |
| SupportStore.Store.FinalizeAttempt | apps/support/durable_assignment_service.py:722-809 | finalization writes assignment, total, queue, attempt and cycle together, once |
| SupportStore.Store.CompensateAttempt | apps/support/durable_assignment_service.py:812-927 | compensation leaves exactly the specified world, ignored repeats included: the rows that `CompensationWrites`, `CompensationFreesRow` and `CompensationCounts` describe |
| SupportStore.Store.RetryAttempt | apps/support/durable_assignment_service.py:1055-1101 | the re-reservation transaction of a due retry takes capacity again on the same attempt |
| SupportStore.Store.OverwriteAfterCrash | apps/support/durable_assignment_service.py:1176-1181 | the handler's write reports a raise exactly when the unique constraint refuses it, and writes one state otherwise |
| SupportStore.Store.ReserveTransfer | apps/support/admin_api.py:679-719 | the transfer's transaction checks revision, owner, pending holds and room on the rows, and holds its target |
| SupportStore.Store.ReconcileTicket | apps/support/owner_reconciliation_service.py:207-390 | the write transaction of an observation: its checks on the locked row, the projection that `ObservationProjects` describes, and its failure path with everything undone |
| ConversationCycles.TransitionRespectsStates | apps/support/conversation_cycle_service.py:454-485 | a finished cycle never moves, without reconciliation a cycle only moves forward, and repair is left only by explicit reconciliation |
| ConversationCycles.CreatedIff | apps/support/conversation_cycle_service.py:271-313 | an entry is admitted exactly when it is new, later than every known entry, and nothing is active |
| ConversationCycles.LatestDecides | apps/support/conversation_cycle_service.py:271-313 | in an ordered history an entry that is no repetition is decided by the ticket's latest cycle alone: stale before it, and after it in repair, in conflict or admitted by its state |
| ConversationCycles.EntryOpens | apps/support/conversation_cycle_service.py:417-451 | an admitted entry adds exactly one queued row with its own identity, unless another ticket already has its key |
| ConversationCycles.IdentityUnavailableIff | apps/support/conversation_cycle_service.py:139-243 | an entry has no identity exactly when its account, its ticket or a plausible time with a zone is missing |
| ConversationCycles.MovesWrite | apps/support/conversation_cycle_service.py:454-485 | an assignment needs a queued cycle and takes its queue row, a transition changes the state alone, and neither touches another cycle |
| ConversationCycles.AttachWrites | apps/support/matchmaker_service.py:400-436 | a cycle without a row gets its ticket's row, new or taken from another cycle of the ticket |
| ConversationCycles.AdmittedIsLatest | apps/support/conversation_cycle_service.py:295-313 | an admitted entry is later than every known cycle and finds none active, so its insert meets both unique constraints |
| ConversationCycles.OpenKeepsOrder | apps/support/conversation_cycle_service.py:370-451 | opening keeps the ordering and every row already there |
| ConversationCycles.RepeatedEntryIsDuplicate | apps/support/conversation_cycle_service.py:271-313 | the same entry delivered again is a duplicate and writes nothing |
| CycleRace.RaceKeepsConstraints | apps/support/conversation_cycle_service.py:417-451 | whatever a racing transaction saw, a ticket keeps one active cycle and one row per entry |
| CycleRace.RaceAnswers | apps/support/conversation_cycle_service.py:417-451 | how a racing entry ends: refused by the rows it saw, inserted unless a committed row blocks it, and otherwise answered with the committed row of its own entry, or raised |
| CycleRace.LoserFindsWinner | apps/support/conversation_cycle_service.py:438-450 | the loser of a race for one entry gets the winner's row as a duplicate and writes nothing |
| CycleRace.RaceKeepsOrderIff | apps/support/conversation_cycle_service.py:417-451 | a racing insert keeps the ordering exactly when what the transaction saw does not admit the entry, the table already has an active cycle or the entry, or no committed cycle of the ticket began later |
| CycleRace.WithoutRace | apps/support/conversation_cycle_service.py:370-451 | with nothing committed in between the racing transaction is the plain one |
| TicketClose.PickIsLatest | apps/support/ticket_close_service.py:74-78 | sorting and filtering picks the latest cycle entered by the close's time, in whatever order rows are listed |
| TicketClose.NeverHistorical | apps/support/ticket_close_service.py:62-88 | in an ordered history no close is historical, and a close is current exactly when the latest cycle by its time is active |
| TicketClose.CloseAnswers | apps/support/ticket_close_service.py:62-88 | what a close answers in an ordered history: the latest cycle its time admits is a conflict when cancelled, a duplicate when closed, and otherwise closed if the provider lets it |
| TicketClose.ProviderAnswers | apps/support/ticket_close_service.py:114-141 | which rejection the provider's state gives, in the order of its checks |
| TicketClose.CloseChangesActiveOrNothing | apps/support/ticket_close_service.py:209-273 | a close changes the ticket's active cycle, with the provider's leave, or nothing; everything it writes and leaves alone |
| TicketClose.MaterializeClosesOnly | apps/support/ticket_close_service.py:281-331 | materializing closes the cycle at the effective time, removes its queue and assigned rows, and writes one record that tells the close and whom the cycle was assigned to until then |
| TicketClose.ProviderAllowsIff | apps/support/ticket_close_service.py:114-141 | the provider allows a close exactly when it describes this ticket in full, knows no later entry, and shows it closed, archived or outside support |
| TicketClose.ProviderReopenBlocksClose | apps/support/ticket_close_service.py:114-141 | a provider entry later than the close's time means the close writes nothing |
| CycleHistory.StepKeepsSound | apps/support/ticket_close_service.py:209-331 | every entry, transition and close keeps ordering, keys, records and row links |
| CycleHistory.RunKeepsSound | apps/support/conversation_cycle_service.py:417-451 | in every history a ticket has at most one active cycle, and it is strictly the latest by entry time |
| CycleHistory.HistoricalIsUnreachable | apps/support/ticket_close_service.py:74-88 | from an empty database no close ever resolves to a past attendance |
| CycleHistory.StepPreserves | apps/support/ticket_close_service.py:217-252 | a step alters no finished cycle or closed record, adds cycles only later than all before, and writes records only by a close |
| CycleHistory.RunPreserves | apps/support/ticket_close_service.py:294-331 | a closed record is written once and stays the same for good |
| CycleHistory.RedeliveryIsDuplicateIff | apps/support/ticket_close_service.py:74-88 | a close that finds its cycle closed is a duplicate exactly when no later attendance began by its time |
| CycleHistory.RepeatedCloseChangesNothing | apps/support/ticket_close_service.py:209-273 | applying the same close twice in a row changes nothing the second time |
| ClosedCredit.RecordsCreditLastAssignment | apps/support/ticket_close_service.py:294-324 | in every history from an empty database each closed record was written by one close, tells its ticket, time and owner, carries the last assignment its cycle had before it, and names the system exactly when another owner closed it |
| HistoryFailures.RaceCanBreakOrder | apps/support/conversation_cycle_service.py:417-451 | a run from an empty database after which a racing older entry is inserted behind a later attendance |
| HistoryFailures.RedeliveryEndsNextAttendance | apps/support/ticket_close_service.py:74-88 | a run from an empty database after which the same close, delivered again, closes the next attendance |
| CycleRefinement.AssignmentRefines | apps/support/durable_assignment_service.py:805-808 | finalization does to a queued cycle what the history's assignment does |
| CycleRefinement.CloseRefines | apps/support/ticket_close_service.py:324-331 | an applied close is the assignment protocol's close of that cycle |
| CycleRefinement.HistoryRefinesProtocol | apps/support/conversation_cycle_service.py:370-451 | every entry, assignment and close of a sound history is a cycle step of the assignment protocol, or none |
| CycleStore.Store.OpenOrGetCycle | apps/support/conversation_cycle_service.py:370-451 | opening leaves the specified tables and returns the occurrence's own cycle, new or already stored |
| CycleStore.Store.MaterializeClose | apps/support/ticket_close_service.py:281-331 | the row moves of a close, with the assignment's agent, owner and time carried into the record as `MaterializeClosesOnly` says |
| CycleStore.Store.ApplyCloseOccurrence | apps/support/ticket_close_service.py:209-273 | the close transaction returns what `CloseAnswers` describes and writes what `CloseChangesActiveOrNothing` says, dry runs included |
| QueueRanking.SortFacts | apps/support/queue_service.py:107-116 | ranking is a permutation of the candidates in key order |
| QueueRanking.RankedMembers | apps/support/queue_service.py:101-105 | exactly who is ranked: all eligible, less the last owner's agents when anyone else is left |
| QueueRanking.RankingIgnoresRowOrder | apps/support/queue_service.py:93-116 | the ranking does not depend on the order rows came back in |
| QueueRanking.ChosenIsAhead | apps/support/durable_assignment_service.py:271-446 | an available agent that is not stepping aside loses only to one ranked ahead of it |
| QueueRanking.ChosenWaitedLongest | apps/support/queue_service.py:107-116 | whoever is chosen has waited longest of all that pass, ties going to fewer chats and then to the lower primary key |
| QueueRanking.EventStamps | apps/support/durable_assignment_service.py:401-407 | an assignment stamps its agent with its time, and nobody else |
| QueueRanking.StarvationBound | apps/support/queue_service.py:93-116 | an available agent is passed over at most once per agent that can rank ahead, besides the times it steps aside |
| QueueRanking.VetoDelaysOnce | apps/support/queue_service.py:230-249 | when assignments reach the log promptly the no-consecutive rule delays an agent once |
| QueueRanking.ServedWithin | apps/support/durable_assignment_service.py:401-407 | with r agents that can rank ahead and one reservation at a time, an always available agent is chosen after at most r + 1 assignments to others |
| QueueRanking.StalledIff | apps/support/queue_service.py:101-105 | nobody is chosen although an agent is available exactly when it steps aside for others and none of them passes |
| QueueRanking.StallsAfterOneAssignment | apps/support/queue_service.py:101-105 | after one assignment the only passing agent steps aside and nobody is chosen |
| ConcurrentRanking.ConcurrentStarvationBound | apps/support/durable_assignment_service.py:128-184 | with k reservations at a time an available agent is passed over at most k times for each agent that can rank ahead, besides the times it steps aside |
| ConcurrentRanking.VetoDelaysAtMost | apps/support/queue_service.py:230-249 | with a prompt log the no-consecutive rule costs it at most k picks |
| ConcurrentRanking.ServedWithinConcurrently | apps/support/durable_assignment_service.py:128-184 | with k reservations at a time and r agents that can rank ahead, it is picked after at most k times r + 1 picks of others |
| QueueDrain.TakesOldest | apps/support/durable_assignment_service.py:187-205 | a reservation takes the oldest ready row that is not excluded |
| QueueDrain.ProcessItem | apps/support/matchmaker_service.py:138-202 | a result never names an excluded row, and progress always names a row |
| QueueDrain.NewEffectIff | apps/support/matchmaker_service.py:174-202 | a new effect is reported exactly when this call's attempt was still reserved and its execution assigned |
| QueueDrain.SystemicFailureIff | apps/support/matchmaker_service.py:180-202 | a drain stops for a systemic failure exactly when an execution asked for repair |
| QueueDrain.RaisedIff | apps/support/matchmaker_service.py:154-174 | an item raises exactly when its reservation meets a taken key or its execution raises |
| QueueDrain.CapacityBlamedIff | apps/support/durable_assignment_service.py:264-268 | capacity is blamed only by an enforcing call with a ready row, no candidate, and an agent that is not ready |
| QueueDrain.FirstAnswerDecides | apps/support/durable_assignment_service.py:270-446 | the first candidate that is offered no row or is not rejected decides the reservation |
| QueueDrain.BacksOffOldest | apps/support/durable_assignment_service.py:552-590 | a drain without candidates backs off the oldest row that is not excluded, ready or not |
| QueueDrain.ReservationStopsEarly | apps/support/durable_assignment_service.py:236-269 | what a reservation answers before any candidate: nothing ready, a barrier, or nobody to offer the row to |
| QueueDrain.ItemAnswers | apps/support/matchmaker_service.py:138-202 | which outcome an item reports for each reservation and each execution, and when it counts as progress |
| QueueDrain.CandidateReasons | apps/support/durable_assignment_service.py:270-446 | a fresh reservation comes from the first candidate whose transaction does not reject it |
| QueueDrain.NoRowTwice | apps/support/matchmaker_service.py:271-305 | no row is processed twice in one drain |
| QueueDrain.OnlyLastStops | apps/support/matchmaker_service.py:271-305 | every result but the last names a new row, so the drain ends within the rows pending at its start |
| QueueDrain.CountersAddUp | apps/support/matchmaker_service.py:280-292 | each result is counted in exactly one class |
| QueueDrain.StopsAreLast | apps/support/matchmaker_service.py:275-280 | a drain meets an empty queue, a systemic failure or an exception at most once, at its end |
| QueueDrain.DrainQueue | apps/support/matchmaker_service.py:224-325 | the loop terminates against any environment, has no report exactly when an item raised, and otherwise its counters are the tallies of its results, with assigned within the rows pending |
| Availability.RunIsMaximal | apps/support/sat_service.py:496-507 | the run counted is the longest run of passing observations the history ends with |
| Availability.PassKeepsFaith | apps/support/sat_service.py:459-510 | one heartbeat or off-hours pass keeps the stored counter and eligibility true to the history |
| Availability.RunKeepsFaith | apps/support/sat_service.py:496-534 | after any passes the stored sample count and start are those of the trailing passing run, and eligible means that run is long enough |
| Availability.HeartbeatAnswers | apps/support/sat_service.py:459-534 | the reason and eligibility a heartbeat leaves: the first obstacle in order, out of office included, or, with none, whether the run of clear observations is long enough |
| Availability.FirstObstacle | apps/support/sat_service.py:459-510 | the signals of one observation give the first obstacle as the reason: identity, remote status, out of office, working hours |
| Availability.HeartbeatMarks | apps/support/sat_service.py:496-534 | a heartbeat stores the reported status, the time and the token, and online means eligible when enforced and reported available otherwise |
| Availability.PassRecords | apps/support/sat_service.py:516-606 | a pass appends one audit entry, with both sides and the time, exactly when it changes what is audited |
| Availability.OffHoursAnswers | apps/support/sat_service.py:188-297 | an off-hours pass leaves the agent away, out of hours and without a run, and writes a row exactly when that or its heartbeat needs it |
| Availability.OnlineSinceIsPast | apps/support/sat_service.py:496-530 | the stored start of a run is never later than the latest pass |
| Availability.RunKeepsCoherent | apps/support/sat_service.py:509-534 | after any applied pass, and ever after, verdict, reason and status agree, and nobody is online or eligible without the provider saying available |
| Availability.RunKeepsAudit | apps/support/sat_service.py:516-606 | audit revisions are contiguous and the last entry always equals the agent's current status, eligibility, reason and remote status |
| Availability.TokenNeverDecreases | apps/support/sat_service.py:200-234 | an agent's fencing token never goes back, even when an expired holder resumes |
| Availability.StalePassIsFenced | apps/support/sat_service.py:432-439 | a pass under an older generation changes nothing |
| AvailabilityService.GenerationsIncrease | apps/support/sat_service.py:102-129 | every grant of the lease has the next generation |
| AvailabilityService.OnlyOwnerReleases | apps/support/sat_service.py:132-147 | before it expires nobody but its owner ends a lease |
| AvailabilityService.GrantsDoNotOverlap | apps/support/sat_service.py:102-147 | in any run the next grant of the lease comes no earlier than the last one's expiry, unless its holder released it |
| AvailabilityService.AcquireAnswers | apps/support/sat_service.py:102-147 | a grant starts a full lease under the next generation exactly when none is unexpired, and a release clears only its owner's |
| AvailabilityService.BatchReachesEveryone | apps/support/sat_service.py:419-625 | an agent the batch does not mention is ineligible for want of an observation, one it mentions carries its reported status, and inactive or fenced agents are left alone |
| AvailabilityService.CountsAreAgents | apps/support/sat_service.py:432-625 | the two counts of a pass are the numbers of agents not fenced off and of agents whose status changed |
| AvailabilityService.Service.AcquireLease | apps/support/sat_service.py:102-129 | a lease is granted exactly when nobody holds an unexpired one |
| AvailabilityService.Service.ReleaseLease | apps/support/sat_service.py:132-147 | a release takes effect exactly for the owner's token |
| AvailabilityService.Service.ApplyHeartbeat | apps/support/sat_service.py:419-625 | the loop applies each agent's heartbeat, skips agents a newer holder wrote, and counts both |
| AvailabilityService.Service.MaterializeOffHours | apps/support/sat_service.py:188-297 | the loop applies each agent's schedule veto and writes only rows that need it |
| OpeningCohort.RecheckWithinBounds | apps/support/opening_cohort_service.py:80-106 | the recheck is strictly after creation, no later than the deadline, and not before the last agent is due |
| OpeningCohort.RecheckFollowsLastDue | apps/support/opening_cohort_service.py:93-106 | the recheck is two seconds after the last settling agent is due, or after now if that is later, and no later than the deadline |
| OpeningCohort.WaitCountsFromFirstOnline | apps/support/opening_cohort_service.py:84-90 | the wait counts from the first candidate to come online, but not from before the window, and from now when a start is missing |
| OpeningCohort.FreezesIff | apps/support/opening_cohort_service.py:74-92 | a cohort is frozen exactly when somebody is settling, somebody is ready, and nobody has been online for the whole maximum wait |
| OpeningCohort.FinalizationAnswers | apps/support/opening_cohort_service.py:164-200 | a released cohort answers its reason; an open one is settled once nobody settles, released by its deadline from then on, and defers otherwise |
| OpeningCohort.EvaluationAnswers | apps/support/opening_cohort_service.py:228-285 | when the barrier says nothing about a row, that shadow never defers and enforcement always does, and when a callback is scheduled |
| OpeningCohort.FrozenMembers | apps/support/opening_cohort_service.py:55-71 | a frozen cohort's members are everyone who could take work then |
| OpeningCohort.DeadlineBoundIff | apps/support/opening_cohort_service.py:84-92 | for any window and agents the wait is at most stability plus heartbeat exactly when the window has started and a candidate was online, or a start is missing |
| OpeningCohort.CohortsAreBounded | apps/support/opening_cohort_service.py:84-92 | every cohort of every run was frozen by one look and waits at most stability plus heartbeat from it, when windows have started and online times are past |
| OpeningCohort.DefersWithinMaximum | apps/support/opening_cohort_service.py:281-285 | no row is deferred later than that after the look that froze its cohort |
| OperationalCalendar.WindowStartsLateIff | apps/support/helpdesk_calendar/service.py:292-336 | the resolved window has started by the look that resolved it unless a clock change skips its start |
| OperationalCalendar.WindowEndsEarlyIff | apps/support/helpdesk_calendar/service.py:292-336 | the resolved window has not ended yet unless a clock change repeats its end; away from a change it is the interval itself |
| OperationalCalendar.WallRoundTrip | apps/support/helpdesk_calendar/service.py:292-336 | a wall-clock time read as an instant shows itself on the clock exactly unless the change skips it, and is read as its first occurrence |
| OperationalCalendar.ResolvesIff | apps/support/helpdesk_calendar/service.py:292-336 | a window is resolved exactly while some interval of the local day contains the local time |
| OpeningDeadline.PassesArePast | apps/support/sat_service.py:496-530 | the online times that heartbeats and off-hours passes write lie in the past |
| OpeningDeadline.ResolvedBoundIff | apps/support/opening_cohort_service.py:67-106 | at a resolved window the bound holds exactly unless a clock change skips the window's start and every start is known |
| OpeningDeadline.ResolvedCohortsAreBounded | apps/support/opening_cohort_service.py:228-246 | every cohort of every run over resolved windows is bounded when no clock change skips a start |
| OpeningDeadline.SkippedOpeningWaitsLonger | apps/support/helpdesk_calendar/service.py:327-332 | a spring change, hours that start inside it, and a look that freezes a cohort for twenty minutes too long |
| OpeningCohort.DefersOnlyBeforeDeadline | apps/support/opening_cohort_service.py:228-285 | a row is deferred only before the deadline while a member settles, and never rescheduled past it |
| OpeningCohort.CreationDefers | apps/support/opening_cohort_service.py:109-124 | an enforcing evaluation that finds no cohort defers exactly when it freezes one |
| OpeningCohort.EvaluateAgreesWithFinalize | apps/support/opening_cohort_service.py:173-200 | evaluation and finalization agree on a stored cohort, a raced evaluation exactly when its own snapshot would have frozen one |
| OpeningCohort.RaceKeepsWinner | apps/support/opening_cohort_service.py:109-124 | losing the race for a window is evaluating the winner's row, or passing the barrier without a write |
| OpeningCohort.ReleaseRecordsReason | apps/support/opening_cohort_service.py:181-200 | a release records its time and reason: by deadline only past it with a member still settling, otherwise because nobody was |
| OpeningCohort.ReleaseIsPermanent | apps/support/opening_cohort_service.py:127-136 | in every run a release is for good and a cohort's times and members never change |
| OpeningCohort.NeverDefersAgain | apps/support/opening_cohort_service.py:237-285 | once anyone looks at a cohort past its deadline no row is ever deferred for that window again |
| OpeningCohort.CohortTables.EvaluateOpeningCohortBarrier | apps/support/opening_cohort_service.py:228-285 | the evaluation writes cohort and row exactly as specified |
| OpeningCohort.CohortTables.FinalizeOpeningAssignmentCohort | apps/support/opening_cohort_service.py:164-200 | the finalization writes the cohort exactly as specified |
| Outbox.StepKeepsLeased | apps/webhooks/n8n_outbox.py:97-230 | every claim, report, crash and wait keeps leases and locks in agreement |
| Outbox.RunKeepsLeased | apps/webhooks/n8n_outbox.py:107-154 | a lease with a current event always names an event in processing with the same lock time |
| Outbox.OneFreshPerThread | apps/webhooks/n8n_outbox.py:133-145 | a thread has at most one event in processing whose lock is not stale |
| Outbox.TakeAnswers | apps/webhooks/n8n_outbox.py:107-154 | a claim goes through exactly for an event that is due, not over, on a thread and not being worked on, while no other event holds the thread; and all it writes |
| Outbox.ReportAnswers | apps/webhooks/n8n_outbox.py:97-230 | a report lets its claim go, and its thread only if its own event still holds it, and leaves a delivered event and every other event alone |
| Outbox.FailureAnswers | apps/webhooks/n8n_outbox.py:209-230 | a failed attempt ends the event exactly when it cannot be retried or was the last one, and otherwise schedules it after the delay |
| Outbox.DelayPassesInFull | apps/webhooks/n8n_outbox.py:107-230 | after a failure of its only worker an event is claimed again, in any run, no earlier than its delay has passed |
| Outbox.DeliveredForever | apps/webhooks/n8n_outbox.py:192-218 | a delivered event stays delivered whatever superseded workers report later |
| Outbox.MissingConfigurationCostsNothing | apps/webhooks/n8n_outbox.py:216-218 | a missing configuration costs no attempt, releases the thread, and reschedules the event on any attempt |
| Outbox.DeadLetterLeavesIff | apps/webhooks/n8n_outbox.py:192-225 | one act takes an event out of the dead letters exactly when it reports a success, or a failure its claim still allows to retry, on a live claim of the event |
| Outbox.DeadLetterIsFinalIff | apps/webhooks/n8n_outbox.py:192-225 | a dead letter is one in every later run exactly when no worker holds a claim on it |
| Outbox.DeadLetterComesBack | apps/webhooks/n8n_outbox.py:141-145 | a run from an empty outbox on which a superseded worker reschedules an event already dead |
| Outbox.AttemptsPassIff | apps/webhooks/n8n_outbox.py:141-154 | one act takes an event past its maximum exactly when it claims it with the last attempt already spent |
| Outbox.RunKeepsBudgetIff | apps/webhooks/n8n_outbox.py:212-226 | over any run attempts stay within the maximum and each event has one worker exactly when no claim overruns |
| Outbox.AttemptsNeverExceed | apps/webhooks/n8n_outbox.py:212-226 | from an empty outbox, with no assumption on the state, runs without an overrun keep attempts within the maximum |
| Outbox.TakeoverExceedsBudget | apps/webhooks/n8n_outbox.py:141-145 | a run from an empty outbox on which one crash on the last attempt passes the maximum |
| Outbox.LastFailureEnds | apps/webhooks/n8n_outbox.py:212-226 | from an empty outbox, without an overrun, an event's failures never pass its maximum and the last one ends it |
| Outbox.RunKeepsSerial | apps/webhooks/n8n_outbox.py:80-86 | while every worker reports or dies before its claim goes stale, no two workers deliver to one thread at a time |
| Outbox.DelayBounds | apps/webhooks/n8n_outbox.py:72-77 | the retry delay lies between the capped backoff and the cap, and its floor does not fall with more attempts |
| Outbox.BackoffDoubles | apps/webhooks/n8n_outbox.py:72-77 | the backoff starts at the base and doubles with each attempt up to the cap, and the jitter adds at most as much again |
| Outbox.OutboxTables.ClaimOutboxEvent | apps/webhooks/n8n_outbox.py:107-154 | a claim is granted exactly when event and thread are free, and otherwise no event and no held lease changes |
| Outbox.OutboxTables.RecordDelivered | apps/webhooks/n8n_outbox.py:192-206 | a success writes the event once and releases the thread only if this event still holds it |
| Outbox.OutboxTables.RecordFailed | apps/webhooks/n8n_outbox.py:209-230 | a failure dead-letters or reschedules as its claim and kind demand, and never touches a delivered event |
| Attribution.CollectOwners | apps/support/agent_message_evidence.py:18-46 | the dictionaries hold each cycle's recorded owner and each owner's first assignment |
| Attribution.BuildWindows | apps/support/agent_message_evidence.py:70-100 | the table holds every window of every transfer and no other |
| Attribution.WindowBetweenTransfers | apps/support/agent_message_evidence.py:78-97 | a window lies between the previous transfer of its cycle and its own, within the cycle's life |
| Attribution.WindowMoments | apps/support/agent_message_evidence.py:70-100 | the moments a transfer credits to its source: those at which the log or an earlier transfer already gave it the cycle, before the transfer and within the cycle's life, if the source is one known user |
| Attribution.WindowNames | apps/support/agent_message_evidence.py:78-100 | a window is for the source's own user on the ticket's account, and names the cycle and the owner it left |
| Attribution.RecordedIsNewest | apps/support/agent_message_evidence.py:18-46 | the recorded owner is that of the cycle's newest row even when it has none, and without rows the last timed log entry's |
| Attribution.WindowsDisjoint | apps/support/agent_message_evidence.py:78-97 | when each transfer starts from the previous target, windows of one cycle never overlap |
| Attribution.PrefilterLosesNothing | apps/support/agent_message_evidence.py:106-115 | the batch's separate filters and outer time bounds lose no message that proves anything |
| Attribution.SweepWindows | apps/support/agent_message_evidence.py:102-120 | sweeping a hundred keys at a time finds exactly what checking every message against every window finds |
| Attribution.AttributedAgentCycles | apps/support/agent_message_evidence.py:13-120 | the result is exactly the recorded owners and the earlier owners with a message inside their window |
| Attribution.RestrictionCommutes | apps/support/agent_message_evidence.py:15-16 | asking about some cycles gives the full answer restricted to them |

## Left out

Assumptions the theorems are stated under:

- A provider owner id belongs to one agent; the column is not declared unique.
- The directory of agents, owners and maxima does not change during a run, and provider reads are linearizable.
- Queue rows have a cycle; legacy rows without one, legacy backfill and the legacy branch of owner changes are not modelled.
- A cycle and assignment type get one attempt row for ever, by the unique idempotency key; `GrantKeepsLinks` takes a fresh identifier for the same reason.
- Clocks do not run backwards, and a transaction's own reads and writes are one step; the exceptions are the inserts of a cycle and of an opening cohort, which can race their own locked reads.

Parts of the code that are not here:

- HTTP, Celery, Redis and cache locks, metrics, logging, tokens and signatures, administration screens, the web application and the AI agents.
- The help-desk calendar's rules and legacy tables, the parsing of provider availability, the provider client and the conversation lifecycle engine: a day's hours, an observation's signals, a provider snapshot and a patch result are inputs. A time zone changes its offset once at most around a look.
- Eligibility verdicts and the opening barrier's verdict are inputs of the reservation transaction; the barrier itself is `OpeningCohort`.
- The cycle an observation opens for itself is a separate step before it.
- The choice of one row among several by an unordered query is an input checked against the query's filter.
- `prior_observed_owner_id` is never written by the code and is treated as unset.
- The early return of a capacity refresh that is still fresh, and the writer-authority checks in front of every entry point.
- The thirty-second back-off of the oldest row when nobody can take it, and the re-activation of a failed row on a new stage entry: both write a queue row's own scheduling fields, which `Waiting` reads.
- Purging terminal attempts, the circuit breaker, the rate limiter, the idempotent admin audit and the occurrence retry budget: sound but easy.
- Durations in minutes and their rounding, online-time accumulation, contact fields copied between rows, and hashes of raw provider state.
- The matching of provider items to agents by user id or unique e-mail: a heartbeat gets each agent's reading.
- Writers of an agent's availability fields other than the heartbeat and the off-hours pass.
- Dispatch order and limit of due outbox events, response classification, and cancelled events, which no modelled code creates.

Statements weaker than they could be read:

- RunKeepsMaximum: needs every observed owner to count the ticket already, since an external owner change can exceed any maximum.
- RunKeepsBalance: needs the protocol to be the only writer of the counter; `RunExactIff` says when that is so.
- ConfirmedEffectCompletes: needs the commits in between to spare the attempt, its cycle and its ticket's owner.
- RetryWritesCovered: covers an undisturbed execution; `RunCoversIff` says what others can do to its hold.
- ServedWithin: one reservation at a time, which `ServedWithinConcurrently` generalizes; primary keys are compared as numbers.
- ServedWithinConcurrently: needs each pick to be on the log by the next ranking; without it `ConcurrentStarvationBound` is what remains.
- RunKeepsFaith: strict evaluation only; the compatibility mode keeps no run.
- RunKeepsAudit: fields written by somebody else in between would not be audited.
- RefreshAgentCapacity: the tickets to read, and which of them are backlog, are inputs.
- RaisedIff: of the exceptions that can leave an item, a taken key's and an execution's; others end the drain the same way.
- RunKeepsSerial: needs timely workers; without it `OneFreshPerThread` is what remains.
- OpenOrGetCycle: one transaction without a race; the re-read after a lost insert is in `CycleRace`.
- RunKeepsSound: histories without racing inserts; `RaceKeepsOrderIff` gives the exact condition under a race.
- HistoryRefinesProtocol: administrative state moves are outside it, since the assignment protocol never makes one.
