# gpu-broker, modelled and proved in Dafny

gpu-broker shares a club's GPU budget: members submit jobs, a scheduler gives them machines under a pool cap
and a per-member limit, and a ledger records every hold and every cent. This project models its money path and
the parts that must survive a crash, and proves what they promise.

## How it is built

**Tables and effects.** `Tables` says what each store operation does to the job table, the ledger and the logs;
`Store` is the class that does it, method by method. `World` adds the machines and lists the single durable
effects a broker can commit, each with the check its caller makes first (`Enabled`). A process that dies loses
only its memory, so the states a crash can leave are exactly the states between two effects. `Books` proves that
every effect keeps the invariants, `Theorems` draws the conclusions for every state of every run, and `Rows` reads
the ledger row by row.

**The broker as objects.** `Engine` owns a store and a fleet of machines and remembers every effect it committed;
its validity says that they are a run of the world from empty. `Scheduler`, `Dispatch`, `Tick`, `Broker` and
`Reconcile` are the source's methods over it, so every theorem about runs holds of every state these methods pass
through. `Advance` gives the exact list of effects of looking at one job and `Outcomes` the row they leave, `Decisions`
the greedy walk over the queue with its counters, `Drift` what a crash in the middle leaves, `Accrual` what ticks settle,
`Lifetimes` and `Billing` what a job keeps and is billed over its whole life, `Pieces` a tick as the list of its effects,
and `Service` any sequence of whole calls. `Reaching` shows that the scripts are always open to the broker, `Carryover`
when spending can pass a budget, and `Overspend`, `CancelledHold` and `ResumeRaises` are three runs of the broker, effect
by effect.

**Placement and priority.** `Placement`, `FairShare`, `Sorting` and `QueueOrder`.

**Admission.** `Admission` holds the checks, `Broker` the order in which they are asked.

**Work that survives.** `Checkpoint` (an upload is many writes, only the last makes it visible), `FakeBackend`
(checkpointed work that counts every step once), `Spool` (the worker agent's event log) and `JobLog`.

**Traces.** `Trace` replays an exported trace, computes Jain's index and the FIFO comparison.

Amounts are whole quanta (cents, or hundredths of a GPU-hour); hours, prices, scores and clocks are exact reals.
A poll's answer, a launch's success, free slots, the passing of time and the month's end are arbitrary.
`Counting`, `Sorting` and `Wrappers` are helpers.

## What the proofs turned up

- A SETTLE passed together with a terminal transition would stay held for ever; the docstring calls that call
  typical, but no caller makes it (`Tables.TerminalLeavesHeld`, `Tables.FinalSettleStaysHeld`).
- An interruption of a RESUMING job raises after its machine has been stopped, and aborts the whole tick
  (`Lifetimes.ReachedRaises`, `Tick.RunTick`; `ResumeRaises` is a run that gets there). The other edge missing from
  the transition table, CHECKPOINTING to CANCELLED, is never met, because nothing enters CHECKPOINTING.
- A crash between PREEMPTED and QUEUED leaves a job no tick ever looks at again (`Advance.AdvanceCrash`,
  `Tick.RunTick`) and no reconciliation ever reports as lost (`Reconcile.OnlyStrandedIsMissed`).
- Cancelling a job whose backend is no longer configured leaves its machine up (`Broker.StopCrash`, `Broker.StopJob`).
- Held plus spent never passes a month's budget (`Theorems.UserBudget`), but spending alone can, exactly when the
  user's jobs held something when the month began (`Carryover.StaysWithinIff`), and by at most that much. A hold is
  dated by the month it was taken in and its return by the month it goes back in, so an old hold that goes back makes
  room in the new month's balance, whether it is settled (`Overspend`) or only cancelled (`CancelledHold`).
- A budget that is not a whole number of quanta can be passed by rounding, by at most half a quantum
  (`Admission.OverrunExactly`).
- A requeued job is billed for its wait between attempts (`Billing.WaitBetweenAttemptsIsBilled`) and never ages
  again, so newcomers can overtake it for ever (`QueueOrder.RequeuedIsOvertaken`, `QueueOrder.RequeuedFallsBehind`).
- Once both currencies are blocked, later jobs are reported as blocked by the pool even when their owner is
  suspended (`Decisions.EarlyReturn`).
- `reap` compares and charges machines by name alone. If two backends gave one name it would overlook an orphan whose
  job runs on its namesake (`Reconcile.ReapAgrees`) and charge two namesakes as one
  (`Reconcile.NamesakesShareACharge`). The shipped backends' names do not coincide: the simulator's begin with its own
  name, EC2's are instance ids, GCE's begin with `gpu-broker-` and the lab's with a host name.
- Checkpoint pitfalls, each with its exact condition: uploading a step twice (to a bucket, and on disk), names that end
  like the manifest, thirteen-digit steps, a manifest that does not parse (`Checkpoint`).
- More than 500 events spooled between two stored requests lose the oldest for good (`Spool.AttemptSpool.Flush`).
- A machine interrupted twice claims all its steps (`FakeBackend.SecondInterruptOvercountsIff`).
- A log width below 3 makes cut lines longer than the width (`JobLog.ClippedFitsIff`).

## Model

| member | source | states |
|---|---|---|
| `Money.Quantize` | gpu_broker/money.py:55-57 | rounding is half-up: the result is within half a quantum, and a tie goes away from zero |
| `Money.QuantizeMonotone` | gpu_broker/money.py:55-57 | rounding never reverses the order of two amounts |
| `Money.QuantizeWhole` | gpu_broker/money.py:55-57 | a whole amount is its own rounding, so rounding twice is rounding once |
| `Money.QuantizeMinusWhole` | gpu_broker/money.py:55-57 | whole quanta can be taken off before or after rounding, as overlapping reap passes do |
| `Money.QuantizeReaches` | gpu_broker/scheduler.py:390-393 | a rounded cost reaches a whole ceiling if and only if the cost itself is at most half a quantum short |
| `States.StatesAreSplit` | gpu_broker/states.py:52-152 | every state holds budget or is terminal, never both; exactly the terminal states have no way out; nothing enters REFUSED; QUEUED is re-entered only from PREEMPTED |
| `States.ActiveBoundary` | gpu_broker/states.py:62-143 | capacity is taken only by QUEUED to ALLOCATING, and given back only by ending or by being preempted |
| `States.EnteredFrom` | gpu_broker/states.py:81-143 | from where each state can be entered: the transition table read backwards |
| `Ledger.Aggregate` | gpu_broker/store.py:764-776 | one pass with two accumulators computes what is held and what is spent by the matching rows |
| `Ledger.RowCounts` | gpu_broker/store.py:685-776 | what one more row adds to what is held and spent, for its own job, user, month, pool and machine and for no other |
| `Ledger.SettledWithinSpend` | gpu_broker/store.py:758-776 | what a job settled is part of what the job spent, because the spend query also counts ABANDONED rows and every currency |
| `Tables.TerminalLeavesHeld` | gpu_broker/store.py:455-481 | exactly what a transition into a terminal state leaves held, for any rows the caller passes along |
| `Tables.TerminalReturnsHoldIff` | gpu_broker/store.py:297-310 | the hold is fully returned if and only if the caller settles nothing in the same call |
| `Tables.FinalSettleStaysHeld` | gpu_broker/store.py:455-481 | a SETTLE passed in the same call, which the source calls typical, stays held for ever (no caller passes one) |
| `History.LogLength` | gpu_broker/states.py:81-143 | a legal log has at most six rows per preemption and six more |
| `History.NothingAfterTerminal` | gpu_broker/states.py:81-143 | nothing follows a terminal row, and REFUSED is only ever a log of one row |
| `History.InterleavedLogsLegal` | gpu_broker/store.py:370-441 | any number of processes calling with arbitrarily stale snapshots leave every log a legal path from QUEUED (or the one row REFUSED) to the current state, with at most 6*preemptions + 6 rows |
| `History.SecondWriterLoses` | gpu_broker/store.py:418-437 | two processes that read the same snapshot cannot both move the job |
| `Books.EffectKeeps` | gpu_broker/store.py:263-587 | every single durable effect keeps all the invariants: books, pool cap, user budgets, places, limits and logs |
| `Books.AccruePool` | gpu_broker/store.py:483-517 | a settlement moves money from held to spent and leaves what the pool is committed to unchanged |
| `Books.MovePool` | gpu_broker/store.py:351-453 | a transition raises what the pool owes by at most the reservation, and only when capacity is taken, also for a requeued job that holds less |
| `Books.MoveRows` | gpu_broker/store.py:375-387 | the last transition releases exactly the remaining hold, and every other one moves no money |
| `Books.ElapsePool` | gpu_broker/store.py:716-744 | a new billing period never raises what the pool owes, and starts with nothing spent in it |
| `Theorems.PoolCap` | gpu_broker/scheduler.py:475-562 | in every state of every run, settled plus active holds stay within the pool budget of the currency, also halfway through a dispatch pass and across month ends |
| `Theorems.MachineLimit` | gpu_broker/scheduler.py:514-527 | in every state of every run no member has more jobs that are ALLOCATING, RUNNING, CHECKPOINTING or RESUMING than the limit |
| `Rows.RowsWritten` | gpu_broker/store.py:263-587 | exactly the ledger rows each effect of a run writes, with their job, owner, currency, amount, month and moment |
| `Rows.ActiveHoldsByRow` | gpu_broker/store.py:716-744 | added up job by job or row by row, the holds of the jobs that have a machine are the same |
| `Rows.PoolCapByRow` | gpu_broker/scheduler.py:475-562 | the month's settlements and the rows that hold money for jobs on a machine never pass the dollar or the GPU-hour budget of the pool |
| `Theorems.Conservation` | gpu_broker/store.py:483-517 | hold plus settlements is the reservation while a job holds budget; once it is over the hold is exactly zero and it settled at most its reservation |
| `Theorems.HoldsBelongToJobs` | gpu_broker/store.py:685-700 | what a user holds over all periods is the sum of what their own jobs hold |
| `Theorems.UserBudget` | gpu_broker/broker.py:343-375 | held plus settled stays within every monthly budget rounded to the quantum, and within the budget itself when it is a whole number of quanta |
| `Theorems.UserSpend` | gpu_broker/store.py:685-700 | settlements alone are bounded by the budget plus what the user reserved in other periods and did not give back in those |
| `Theorems.UserSpendInOnePeriod` | gpu_broker/store.py:685-700 | in a run that stays in one period settlements alone stay within the budget |
| `Theorems.LegalHistory` | gpu_broker/states.py:81-143 | in every state of every run each log is a legal path to where the job is, with its length bounded by the job's preemptions |
| `Theorems.AppendOnly` | gpu_broker/store.py:1245-1274 | the ledger and every log only ever grow |
| `Carryover.CarriedIsHeldAtStart` | gpu_broker/store.py:685-700 | what a user brings into a period is what their jobs hold when it begins |
| `Carryover.CarriedIsFixed` | gpu_broker/store.py:685-700 | nothing that happens inside the period changes it |
| `Carryover.SpendWithinCarried` | gpu_broker/broker.py:343-375 | settlements in the current period pass the rounded budget by at most what was brought into it |
| `Carryover.NothingCarried` | gpu_broker/broker.py:343-375 | a user who brought nothing into a period settles at most the rounded budget in it, however the broker goes on |
| `Carryover.SpendReaches` | gpu_broker/store.py:455-481 | cancelling everything, submitting what the balance then leaves and running that job to its ceiling settles exactly the rounded budget and what was brought in, by submissions the broker accepts |
| `Carryover.StaysWithinIff` | gpu_broker/store.py:685-700 | settlements stay within the rounded budget whatever the broker goes on to do in the period if and only if the user brought nothing into it, where no suspension, cap or pool stands in the way |
| `CancelledHold.CancelledHoldPassesBudget` | gpu_broker/broker.py:449-461 | a run of the broker, effect by effect, in which a hold of the month before is only cancelled, and twice the budget is spent on a job submitted and run inside the month |
| `CancelledHold.CarriedDecidesHere` | gpu_broker/store.py:455-481 | the conditions under which what was brought in decides are met in that run |
| `Overspend.SpendPassesBudget` | gpu_broker/store.py:685-700 | a run of the broker, effect by effect, at whose end settlements in one month are twice the budget: both are what looking at a finished job settles after an hour at the stated price, and one of the holds was taken the month before |
| `Store.Store.CreateJob` | gpu_broker/store.py:263-311 | job row, first transition and hold, together |
| `Store.Store.RecordRefusal` | gpu_broker/store.py:313-349 | a REFUSED row that never held anything |
| `Store.Store.Transition` | gpu_broker/store.py:351-453 | commits if and only if the snapshot's state has the edge and the row is still in that state, and then the tables are the transitioned ones; otherwise nothing changed |
| `Store.Store.ReleaseRemainingHold` | gpu_broker/store.py:455-481 | the release row is what is left of the hold after the rows being written are counted |
| `Store.Store.Settle` | gpu_broker/store.py:483-517 | one SETTLE and one RELEASE of the same amount, or nothing when there is nothing to settle |
| `Store.Store.RecordAbandoned` | gpu_broker/store.py:530-587 | a machine name ends up charged the whole cost reported, or keeps the larger charge it carried; charges are matched by name and currency alone |
| `Store.AbandonedDelta` | gpu_broker/store.py:530-587 | the part of a cost still to be written is positive if and only if the rounded cost exceeds what the name already carries |
| `Store.Store.Annotate` | gpu_broker/store.py:918-967 | single-column updates that touch neither state nor money |
| `Store.Store.ActiveJobs` | gpu_broker/store.py:645-646 | exactly the active jobs, each once, in submission order |
| `Store.Store.QueuedJobs` | gpu_broker/store.py:642-643 | exactly the queued jobs, each once, in submission order |
| `Store.Store.RunningCountOf` | gpu_broker/store.py:653-659 | how many jobs a member has on a machine: as many as are ALLOCATING, RUNNING, CHECKPOINTING or RESUMING |
| `World.CountIsMachines` | gpu_broker/store.py:653-659 | the count that the machine limit is compared with is the number of such jobs |
| `Store.Store.PoolCommittedNow` | gpu_broker/store.py:716-744 | spent this period plus the holds of active jobs only |
| `Store.Store.AbandonedFor` | gpu_broker/store.py:519-528 | what a machine name has been charged in a currency, whichever backend gave it |
| `Store.Store.JobSpend` | gpu_broker/store.py:758-762 | everything written against a job, settled or abandoned |
| `Engine.Fleet.LaunchOn` | gpu_broker/backends/base.py:126-128 | a launch gives a machine carrying the job's tag under a name that is free (new, or that of a machine of the same job that is down), or fails and leaves nothing |
| `Engine.Fleet.Terminate` | gpu_broker/backends/base.py:161-163 | safe on a machine that is down or unknown |
| `Engine.ReachedIsFreshRun` | gpu_broker/store.py:351-453 | the effects the objects have committed form a run of the world from empty, so every theorem about runs holds of every state they pass through |
| `Engine.BooksHoldThroughout` | gpu_broker/store.py:263-587 | at every point between two committed effects of whatever was called: pool cap, user budgets, conservation and legal logs |
| `Scheduler.SettleUp` | gpu_broker/scheduler.py:378-388 | settles exactly what brings the job up to its clamped cost so far |
| `Scheduler.DrainLogs` | gpu_broker/scheduler.py:443-459 | the cursor moves past what was fetched |
| `Scheduler.CollectCheckpoint` | gpu_broker/scheduler.py:361-376 | only a checkpoint newer than the one on record counts as progress |
| `Scheduler.GiveUp` | gpu_broker/scheduler.py:277-289 | machine stopped, checkpoint collected, preemption counted, and then PREEMPTED if the state has that edge, in this order |
| `Scheduler.BackInQueue` | gpu_broker/scheduler.py:291-338 | the pin, when nothing was saved for too long and there is somewhere to go, and then QUEUED |
| `Scheduler.Preempt` | gpu_broker/scheduler.py:264-338 | exactly the effects of the preemption script; it raises if and only if the state has no edge to PREEMPTED |
| `Scheduler.Respond` | gpu_broker/scheduler.py:176-262 | what each answer of a poll makes the broker do, in the order the source asks: ready, interrupted, over, ceiling, progress |
| `Scheduler.CancelOnRequest` | gpu_broker/scheduler.py:162-174 | machine, logs, then CANCELLED when the state has that edge |
| `Scheduler.AdvanceJob` | gpu_broker/scheduler.py:145-262 | exactly the durable effects of the script in its order, an exception exactly when the script says so, and the row the answer calls for, every other row untouched |
| `Advance.RaisesExactly` | gpu_broker/states.py:97-111 | the two edges the transition table lacks under an advance of an active job, of which only RESUMING to PREEMPTED is ever met |
| `Advance.AdvanceCrash` | gpu_broker/scheduler.py:145-338 | exactly what an advance cut after any effect leaves: nothing orphaned; its job lost if and only if the cut is after the machine is stopped and before the record lets go of it; stranded if and only if the cut is after PREEMPTED and before QUEUED |
| `Advance.AdvanceMoves` | gpu_broker/scheduler.py:176-262 | where an advance leaves its job, for every answer; every other job untouched |
| `Outcomes.AdvanceOutcome` | gpu_broker/scheduler.py:145-338 | in every state the broker can reach, the whole row an advance leaves, answer by answer: state, exit code, end, machine, checkpoint, preemptions, pin and log cursor; every other row untouched |
| `Outcomes.EndsAsTold` | gpu_broker/scheduler.py:191-240 | a job with no cancellation pending ends COMPLETED if and only if the backend said so, and FAILED if and only if it said failed or gone, its command could not start or it had reached its ceiling; an interrupted one waits again |
| `Outcomes.SpentIs` | gpu_broker/scheduler.py:378-388 | a look leaves a job having spent its whole cost up to its reservation, or what it had spent before if that is more |
| `Advance.AdvanceEnds` | gpu_broker/scheduler.py:145-338 | an advance that returns leaves no drift and clears its job's own; one that raises leaves exactly its own job naming a stopped machine |
| `Lifetimes.EveryJobTimed` | tests/test_demo_scenario.py:18-23 | in every state the broker can reach no job is CHECKPOINTING, a job has an end exactly when it is over, and a start if it holds a machine |
| `Lifetimes.StartIsKept` | gpu_broker/store.py:377-383 | owner, reservation and first start of a job never change again, through any number of preemptions |
| `Lifetimes.SpendOnlySo` | gpu_broker/store.py:758-776 | nothing but a settlement of a job or an abandonment tagged with it changes what is spent on it |
| `Lifetimes.ReachedRaises` | gpu_broker/scheduler.py:162-174 | of any job the broker can have, an advance raises if and only if the machine is seen interrupted while the job is RESUMING with no cancel pending |
| `Lifetimes.ReachedCancels` | gpu_broker/broker.py:449-461 | every job that is not over has the edge to CANCELLED |
| `Reaching.AdvanceReached` | gpu_broker/scheduler.py:145-338 | every effect of looking at an active job is enabled when its turn comes, whatever the backend answers |
| `Reaching.DispatchReached` | gpu_broker/scheduler.py:646-675 | so is every effect of a dispatch, when owner and pool have room |
| `ResumeRaises.InterruptedWhileResuming` | gpu_broker/scheduler.py:264-289 | a run of the broker, effect by effect, that ends in such a raise and leaves the job naming a stopped machine |
| `Accrual.SettledIsPeak` | gpu_broker/scheduler.py:378-388 | after any sequence of ticks a job has spent the dearest clamped cost any of them saw |
| `Accrual.CeilingExactly` | gpu_broker/scheduler.py:390-393 | the ceiling stop fires if and only if the cost is within half a quantum of the reservation or above, which is when the clamped cost is the whole reservation |
| `Accrual.DefaultReservationCovers` | gpu_broker/admission.py:60-72 | a job on its default reservation is not stopped while its cost is more than a quantum below the hours asked for plus startup |
| `Accrual.DefaultIsRounded` | gpu_broker/admission.py:60-72 | the default reservation is the price of the hours asked for and the startup allowance, rounded |
| `Accrual.AdvanceSettles` | gpu_broker/scheduler.py:145-160 | an advance of a reachable job leaves it having spent its clamped cost so far, however the advance ends |
| `Accrual.CostGrowsIff` | gpu_broker/scheduler.py:378-388 | a clamped cost grows between two moments if and only if the ceiling was not reached at the first and the second is half a quantum past what it rounded to |
| `Billing.SpentIsPeakOfLooks` | gpu_broker/scheduler.py:378-388 | over a whole life of a job, with anything else happening between two looks, it has spent the dearest clamped cost any look saw, counted from its first start |
| `Billing.AccrualIgnoresTickTiming` | gpu_broker/scheduler.py:153-156 | at one price, after any life, a job has spent exactly min(round(price * (last look - first start)), reserved), however often it was looked at, preempted, requeued and started again before |
| `ResumeRaises.HourWithoutMachineIsBilled` | gpu_broker/store.py:377-383 | a run of the broker in which a job is charged an hour's price for an hour in which it had no machine |
| `Pieces.AdvanceSpends` | gpu_broker/scheduler.py:378-388 | a look settles what brings its own job up to its clamped cost and nothing of any other job |
| `Pieces.TickIsAPieceOfLife` | gpu_broker/scheduler.py:72-81 | for each job it looks at on a configured backend, a tick is a look between two stretches that spend nothing on the job, so the billing results hold across ticks |
| `Billing.WaitBetweenAttemptsIsBilled` | gpu_broker/store.py:377-383 | after an interruption and a restart the first start is kept, so the next look settles the wait too; and exactly when that settles anything |
| `Decisions.Pass.Gate` | gpu_broker/scheduler.py:496-527 | the checks before the pool cap give the decision the policy asks for, or show the job passed them all |
| `Decisions.Pass.Next` | gpu_broker/scheduler.py:496-562 | one turn of the generator keeps the walk greedy, each job going to the backend placement finds for it under the slots reported then, and its counters equal to the sums over the decisions so far |
| `Decisions.Plan` | gpu_broker/scheduler.py:564-591 | a dry run decides about every job greedily and changes nothing |
| `Decisions.NoBackfill` | gpu_broker/scheduler.py:529-552 | behind a job the pool stopped, nothing in that currency is dispatched |
| `Decisions.StopIsEarned` | gpu_broker/scheduler.py:529-547 | the job that stops a currency really does not fit, and nothing else kept it waiting |
| `Decisions.WhatStops` | gpu_broker/scheduler.py:496-562 | a job waits on the machine limit only when its owner's machines and the ones just given fill it, on the pool only when it does not fit what is left or its currency was stopped before, and on capacity, or is dispatched, only when it fits both |
| `Decisions.TakenAreCounted` | gpu_broker/scheduler.py:514-562 | the machines a walk counts for a user are the dispatches of their jobs so far |
| `Decisions.EarlyReturn` | gpu_broker/scheduler.py:548-552 | once both currencies are blocked every later job is reported as blocked by the pool, also a suspended member's |
| `Decisions.WithinHeadroom` | gpu_broker/scheduler.py:475-562 | at every point of a walk, what was dispatched fits the headroom read at its start |
| `Decisions.WithinUserLimit` | gpu_broker/scheduler.py:482-527 | at every point of a walk nobody was given machines past the limit |
| `Decisions.GreedyIsUnique` | gpu_broker/scheduler.py:467-562 | the greedy rules leave no choice, given the slots reported at each turn: mutable counters and early return give the one walk they describe |
| `Placement.SearchTier` | gpu_broker/placement.py:83-107 | within a tier, the first eligible backend as listed, and why each one before it was not used |
| `Placement.Choose` | gpu_broker/placement.py:58-121 | without a pin the first listed backend of the cheapest tier that has one able to take the job, with a pin the same from the pin on, none if and only if there is none; every backend passed over with what is wrong with it; and the reason |
| `Placement.SearchFindsFirst` | gpu_broker/placement.py:83-121 | what a search ends with is the first backend in order that suits the job and has a slot, and nothing only when there is none |
| `Placement.CandidatesGiveCheapest` | gpu_broker/placement.py:67-107 | the search through tiers and lists finds the first listed backend of the earliest tier that has one able to take the job, and none if and only if no tier has one |
| `Placement.SkippedWithReason` | gpu_broker/placement.py:83-121 | every backend passed over is a configured one with what is wrong with it |
| `Placement.PinHolds` | gpu_broker/placement.py:70-76 | a pinned job can be placed exactly on the backends at or below its pin |
| `Placement.AcceptedIffUsable` | gpu_broker/placement.py:134-141 | the order check accepts exactly the configurations in which every backend is a candidate |
| `Placement.FallbackTier` | gpu_broker/scheduler.py:340-359 | the first tier below the current one with a backend that could run the job, or none when there is none |
| `Placement.FallbackIsNextBelow` | gpu_broker/scheduler.py:340-359 | a fallback has a backend that takes the job, stands below the tier the job is at, and no tier in between has one |
| `Placement.PinNeverStrands` | gpu_broker/scheduler.py:296-324 | a job pinned to its fallback tier always has a backend that could take it |
| `FairShare.DecayedUsage` | gpu_broker/fairshare.py:35-45 | each member's usage is the sum of their own settlements in the currency within the window, decayed by age, and the values sum to the total |
| `FairShare.RowsFor` | gpu_broker/store.py:778-786 | which rows count for a member and for how much: their settlements in the currency no older than the cutoff, in full when dated now or later |
| `FairShare.RowOutside` | gpu_broker/fairshare.py:35-45 | a row of another kind or currency, or older than the window, changes nobody's usage |
| `FairShare.RowInside` | gpu_broker/fairshare.py:35-45 | a settlement within the window raises its member's usage by its decayed amount, and nobody else's |
| `FairShare.UsageShares` | gpu_broker/fairshare.py:48-79 | the loop over currencies computes every member's blended share; whoever alone consumed a currency within the window has the whole of its weight |
| `FairShare.SoleShare` | gpu_broker/fairshare.py:48-79 | whoever alone consumed a currency within the window has all of it, and everybody else nothing |
| `FairShare.ShareInUnit` | gpu_broker/fairshare.py:48-79 | every share lies between 0 and 1 |
| `FairShare.SharesSumToAtMostOne` | gpu_broker/fairshare.py:48-79 | the shares of any distinct members sum to at most 1 |
| `FairShare.SharesIgnoreTime` | gpu_broker/fairshare.py:28-45 | time alone moves nobody's share while no settlement enters or leaves the window |
| `QueueOrder.OneQueue` | gpu_broker/fairshare.py:102-114 | the queue is every job once, best first, and does not depend on the order the rows were read in |
| `QueueOrder.LeadNeverGrows` | gpu_broker/fairshare.py:82-99 | with fixed shares the older of two never-started jobs never gains on the younger, and its lead is constant until it saturates |
| `QueueOrder.OvertakenOnce` | gpu_broker/fairshare.py:82-114 | two never-started jobs swap at most once and never back |
| `QueueOrder.OwnJobsInOrder` | gpu_broker/models.py:120-126 | one member's never-started jobs always go by submission time and then by id |
| `QueueOrder.NoStarvation` | gpu_broker/config.py:284-293 | with the weights the configuration accepts, a job that has waited the maximum is never behind one that has just arrived |
| `QueueOrder.RequeuedIsOvertaken` | gpu_broker/fairshare.py:82-114 | exactly when a requeued job is behind a newcomer, however long it has been waiting: when its first wait weighs less than the difference in usage |
| `QueueOrder.RequeuedFallsBehind` | gpu_broker/models.py:120-126 | a requeued job only loses ground to a never-started one and never gets back in front, and exactly when it ends up behind; behind its owner's later jobs if and only if it first started before waiting the maximum |
| `Dispatch.OrderedQueue` | gpu_broker/scheduler.py:463-465 | the queue handed to dispatch is every queued job once, each pair ordered by the scores the ledger gives |
| `Dispatch.StartTakes` | gpu_broker/store.py:716-744 | starting a job takes one machine of its owner's limit and at most its reservation of the pool |
| `Dispatch.StartJob` | gpu_broker/scheduler.py:646-675 | launch, attempt, ALLOCATING, in this order, with the row and the ledger this leaves; a failed launch changes nothing |
| `Tick.DispatchAllowed` | gpu_broker/scheduler.py:529-562 | a DISPATCH decision may still be acted on later in the pass, after time has passed, jobs have started and launches have failed |
| `Tick.WalkNext` | gpu_broker/scheduler.py:496-562 | each decision of the pass is the one the policy asks for, with placement under the slots reported then |
| `Tick.DecideOne` | gpu_broker/scheduler.py:602-684 | one such decision acted on: only that job may change, and only by starting on the backend placement found for it |
| `Tick.DispatchAll` | gpu_broker/scheduler.py:593-692 | one greedy decision for every queued job in priority order, dispatching a job if and only if nothing is against it and placement finds a backend; exactly the started jobs changed, each on the cheapest backend its currency, type and pin allow |
| `Tick.StartedWellPlaced` | gpu_broker/scheduler.py:593-692 | every started job sits on the first listed backend of the cheapest tier its pin allows that took its currency and type and had a slot when it was decided about |
| `Tick.AdvanceAll` | gpu_broker/scheduler.py:72-81 | the loop commits exactly the script of one look at every active job, in order of submission; each job has the row its look leaves and has spent what that settles; jobs that were not active are untouched; only a RESUMING job can end the loop |
| `Tick.RunTick` | gpu_broker/scheduler.py:65-134 | a whole tick commits exactly its looks and then what its decisions led to; a job with a reachable machine ends COMPLETED if and only if its backend said so, FAILED if and only if it said failed or gone, its command could not start or it had reached its ceiling, with the exit code reported; every such job has spent its clamped cost; greedy dispatch; at most one drift wherever it is killed, none when it returns, and exactly what is left when it raises, which only a RESUMING job can make it |
| `Tick.TidyMeans` | gpu_broker/scheduler.py:145-262 | between ticks that return: a handle iff active, no job between attempts, every tagged live machine on exactly one active job |
| `Tick.TidyLimit` | gpu_broker/scheduler.py:514-527 | between ticks that return no member has more machines up than the limit |
| `Drift.AdvanceCuts` | gpu_broker/scheduler.py:145-338 | however a tick is cut during an advance, at most one job has drifted since it began, with the exact drift at every cut |
| `Drift.DispatchCrash` | gpu_broker/scheduler.py:646-675 | a dispatch cut between launch and record orphans exactly the new machine, and nothing else |
| `Drift.DispatchCuts` | gpu_broker/scheduler.py:593-692 | however a tick is cut during a dispatch, at most one machine has drifted since it began, with the exact drift at every cut |
| `Reconcile.Compare` | gpu_broker/scheduler.py:700-768 | exactly the untagged machines, the tagged ones no active job names, and the active jobs whose machine is not listed |
| `Reconcile.ReportsAreDrift` | gpu_broker/scheduler.py:700-768 | in every reachable state the reports are exactly the orphans on configured backends and the jobs whose machine is down, and jobs on an unconfigured backend are always reported lost |
| `Reconcile.OnlyStrandedIsMissed` | gpu_broker/scheduler.py:700-768 | no report ever names a job left between attempts, and the reports cover all drift if and only if there is none such |
| `Reconcile.ReapAgrees` | gpu_broker/reaper.py:141-166 | reap reports an orphan if and only if reconcile does, except a machine whose job runs on a machine of the same name elsewhere; where no two backends give one name they agree about every machine |
| `Reconcile.Reap` | gpu_broker/broker.py:675-702 | the name of every leaked machine of known cost ends up charged at least that cost, a charge that changed is exactly one of those costs, and a pass that finds nothing new writes nothing |
| `Reconcile.NamesakesShareACharge` | gpu_broker/store.py:519-554 | after a pass a name carries what its machines cost together if and only if it did before or no two of them cost anything |
| `Admission.ValidateRequest` | gpu_broker/admission.py:28-48 | a request is a typo if and only if its type, hours or command length is out of range |
| `Admission.AcceptedFits` | gpu_broker/admission.py:140-144 | what an accepted reservation rounds to fits the budget rounded the same way |
| `Admission.OverrunExactly` | gpu_broker/admission.py:140-144 | a reservation can round past the budget if and only if what is left of the budget rounds up, so never for whole budgets |
| `Admission.ShortfallIsNamed` | gpu_broker/admission.py:140-159 | the shortfall in a refusal is what is missing, to the nearest quantum |
| `Broker.Check` | gpu_broker/broker.py:343-355 | the first failing check in the broker's order is the refusal, and there is none if and only if every check passes |
| `Broker.AdmissibleWhen` | gpu_broker/broker.py:343-355 | policy allows a request if and only if its user is not suspended and it fits the cap of one job, the queue depth and what is left of the month after everything held, settled and abandoned |
| `Broker.RefusedBecause` | gpu_broker/broker.py:343-375 | what each refusal means, in which order they are told apart, and the amount missing to the nearest quantum |
| `Broker.AskedRounds` | gpu_broker/broker.py:314-318 | a request without a budget reserves the default reservation, and one with a budget that budget rounded |
| `Broker.QueuedCountOf` | gpu_broker/store.py:648-651 | how many of a member's jobs are QUEUED |
| `Broker.SubmitJob` | gpu_broker/broker.py:294-385 | a typo raises and leaves no record; otherwise one row, QUEUED with its hold if and only if policy allows it, else REFUSED with the first reason, with every column and the ledger row it leaves |
| `Broker.StopCrash` | gpu_broker/broker.py:449-461 | exactly what a cancel cut anywhere leaves: the job lost between its two steps, and its machine orphaned if and only if the job is over, the machine was up and its backend is not configured |
| `Broker.StopJob` | gpu_broker/broker.py:629-641 | machine first, then the record; the row this leaves, the hold returned, nothing more spent, and exactly which machine stays up unrecorded |
| `Broker.Cancel` | gpu_broker/broker.py:419-461 | unknown, unauthorized and already over are told apart and change nothing; the owner, an officer, an admin and a caller naming no actor are let through and nobody else; any other job ends CANCELLED with nothing held, never in an IllegalTransition, with exactly the drift of a stop |
| `Service.Serve` | gpu_broker/broker.py:294-461 | over any sequence of whole calls all that drifts are jobs a tick raised on and machines of jobs stopped while their backend was not configured, a crash anywhere leaves at most one thing more, and otherwise a tidy broker stays tidy |
| `Checkpoint.CutUploadIsInvisible` | gpu_broker/checkpoint.py:112-138 | an upload cut before its manifest changes neither the newest checkpoint nor what any other one restores |
| `Checkpoint.FinishedUploadRestores` | gpu_broker/checkpoint.py:200-234 | a finished upload restores exactly its files despite leftovers, and is the newest when its step is the largest |
| `Checkpoint.SecondUploadIsWholeIff` | gpu_broker/checkpoint.py:200-234 | uploading a step twice to a bucket restores one upload or the other whole at every cut if and only if no shared file changed, or exactly one did and both have the same files |
| `Checkpoint.DiskSecondUploadBreaksIff` | gpu_broker/checkpoint.py:112-138 | putting a step twice on disk: at exactly which cuts `latest` answers with a checkpoint that cannot be restored |
| `Checkpoint.DiskSecondUploadSafeIff` | gpu_broker/checkpoint.py:112-138 | there is no such cut if and only if the manifest is removed before any file it names |
| `Checkpoint.SecondUploadTears` | gpu_broker/checkpoint.py:200-234 | the smallest case in which it restores a mixture |
| `Checkpoint.CutUploadHidesIff` | gpu_broker/checkpoint.py:248-266 | an upload of any files, cut anywhere, leaves the newest checkpoint what it was if and only if no file written so far is named like a manifest and parses as a checkpoint at least as new |
| `Checkpoint.LookalikeIsVisibleEarly` | gpu_broker/checkpoint.py:248-266 | the smallest case in which it does not |
| `Checkpoint.NamesSortLikeSteps` | gpu_broker/checkpoint.py:109-110 | folder names sort in step order for all steps below 10^12 |
| `Checkpoint.NamesSortIff` | gpu_broker/checkpoint.py:109-110 | two names sort in step order if and only if the smaller step is at most the leading digits of the larger, as many as its own name has; otherwise pruning both to one deletes the newer |
| `Checkpoint.ThirteenDigitsSortFirst` | gpu_broker/checkpoint.py:169-181 | the first case: of 10^12 - 1 and 10^12, pruning to one deletes the newer |
| `Checkpoint.CutPruneIsSafe` | gpu_broker/checkpoint.py:284-294 | prune with keep at least 1, cut after any deletion, neither changes nor breaks the newest checkpoint |
| `Checkpoint.PruneKeepsNewestIff` | gpu_broker/checkpoint.py:169-181 | whatever is in the store, a prune keeps the newest checkpoint newest and restorable at every cut if and only if fewer than `keep` folder names sort after its own |
| `Checkpoint.CorruptManifestLosesAll` | gpu_broker/checkpoint.py:169-181 | the smallest case in which it does not: a newer folder whose manifest does not parse |
| `Checkpoint.UploadStaysHealthy` | gpu_broker/checkpoint.py:112-138 | uploads never leave a manifest that does not parse or names another step, wherever they are cut |
| `Checkpoint.NestedManifest` | gpu_broker/checkpoint.py:236-246 | a manifest in a directory of its step names files of that directory |
| `Checkpoint.CheckpointStore.Put` | gpu_broker/checkpoint.py:112-138 | the durable changes of a put are the leftovers' removal (on disk), the files, and last the manifest |
| `Checkpoint.CheckpointStore.LatestRef` | gpu_broker/checkpoint.py:141-153 | whatever order manifests are listed in, a complete checkpoint with the largest step, and none if and only if there is none |
| `Checkpoint.CheckpointStore.Fetch` | gpu_broker/checkpoint.py:155-167 | every file the manifest names or the first one missing; on disk a folder without a manifest is refused |
| `Checkpoint.CheckpointStore.Prune` | gpu_broker/checkpoint.py:169-181 | all but the last `keep` folders by name go, and nothing else |
| `FakeBackend.SumOfAll` | gpu_broker/backends/fake.py:302-307 | the total of an uninterrupted run of n steps is n(n-1)/2 |
| `FakeBackend.StepsInRange` | gpu_broker/backends/fake.py:327-335 | an attempt has between its starting step and all steps, none before it is ready and all of them at its end |
| `FakeBackend.StepsNeverRegress` | gpu_broker/backends/fake.py:327-335 | within an attempt steps never go backwards as time passes |
| `FakeBackend.StepsKeepPace` | gpu_broker/backends/fake.py:327-335 | between ready and finish an attempt has exactly the whole steps that the time passed pays for |
| `FakeBackend.HalfWayIsHalf` | gpu_broker/backends/fake.py:327-335 | half way through an attempt half of its steps are done |
| `FakeBackend.SecondInterruptOvercountsIff` | gpu_broker/backends/fake.py:378-396 | exactly when a second interruption counts steps that were never done; from an instant after ready on, whenever some were left |
| `FakeBackend.FakeBackend.Launch` | gpu_broker/backends/fake.py:144-184 | an attempt starts, if there is a free machine, at the newest checkpoint with its sum, runs for the planned time from the end of the startup, and never starts before the start or last saved step of an earlier attempt |
| `FakeBackend.FakeBackend.Save` | gpu_broker/backends/fake.py:342-351 | a checkpoint holds the sum of exactly the steps before it, and no earlier one is changed |
| `FakeBackend.FakeBackend.MaybeCheckpoint` | gpu_broker/backends/fake.py:353-359 | after a running poll fewer than one interval of steps is unsaved |
| `FakeBackend.FakeBackend.Poll` | gpu_broker/backends/fake.py:206-235 | what is reported from the clock alone; when a job is reported complete its newest checkpoint is its last step |
| `FakeBackend.FakeBackend.Interrupt` | gpu_broker/backends/fake.py:378-396 | an interrupted attempt has saved every step it had done |
| `FakeBackend.FakeBackend.FinalValue` | gpu_broker/backends/fake.py:361-374 | the value of the newest checkpoint, which is the sum of the steps before it |
| `FakeBackend.ExactlyOnce` | gpu_broker/backends/fake.py:361-374 | however often it was interrupted, a job whose newest checkpoint is its last step has the total of an uninterrupted run |
| `Spool.AttemptSpool.Append` | controlplane/internal/agent/agent.go:418-447 | events are numbered 1..n without gaps and a second exit event is dropped |
| `Spool.AttemptSpool.BuildRequest` | controlplane/internal/agent/agent.go:460-484 | the request is the last 500 events as they were spooled, messages longer than 16384 cut to that, and is terminal if and only if some event carries an outcome |
| `Spool.AttemptSpool.Compact` | controlplane/internal/agent/agent.go:513-525 | compaction keeps every number and blanks the messages |
| `Spool.AttemptSpool.Flush` | controlplane/internal/agent/agent.go:449-508 | under each number the control plane only ever has the event as it was spooled; whatever becomes of request, reply or process, none is changed or invented; a stored request brings the last 500 and completes delivery if and only if at most 500 had piled up; the file goes only after an accepted outcome or an unknown attempt |
| `Trace.Sweep` | gpu_broker/schedule_trace.py:341-359 | the sweep of a well-formed trace never rejects and finds the peak concurrency |
| `Trace.PeakAtAStart` | gpu_broker/schedule_trace.py:341-359 | some start sees as many running jobs as any instant does |
| `Trace.Replay` | gpu_broker/schedule_trace.py:302-359 | past the digest check, exactly the well-formed traces are accepted, and max_active is the largest number of closed run intervals containing one instant |
| `Trace.RunningAreJobs` | gpu_broker/schedule_trace.py:341-359 | the jobs counted at an instant are those that have started by then and not finished before it |
| `Trace.JainBounds` | gpu_broker/schedule_trace.py:296-299 | for non-negative values with a positive sum the index lies between 1/n and 1, and is 1 if and only if all are equal |
| `Trace.FifoReplay` | gpu_broker/schedule_trace.py:102-121 | the FIFO schedule: no early start, no overlap within a type, no idle wait |
| `Trace.OneFifoSchedule` | gpu_broker/schedule_trace.py:102-121 | those rules determine the schedule |
| `JobLog.ClippedFitsIff` | gpu_broker/store.py:1134-1138 | cutting a long line to its first characters and three dots makes it fit if and only if the width is at least 3; below that the end of the cut counts from the back |
| `JobLog.JobLog.WithinBudget` | gpu_broker/store.py:1115-1146 | what is kept of a batch makes the stored rows the closed form of everything offered so far |
| `JobLog.JobLog.AppendLog` | gpu_broker/store.py:1148-1159 | a line of the broker's own counts against the same budget |
| `JobLog.JobLog.AppendBackendLogs` | gpu_broker/store.py:1161-1184 | the cursor equals the number of lines polled, kept or dropped |
| `JobLog.BudgetHolds` | gpu_broker/store.py:1115-1184 | over any appends: never more rows than the cap, all lines kept below it, the notice last from then on, every other row an offered line, whole when it fits and exactly as wide as allowed when it does not |

## Left out

- Theorems.PoolCap: counts settlements and holds but not ABANDONED rows, because those record money that leaked machines already burned and that no check of the broker could have stopped.
- Theorems.UserBudget: leaves ABANDONED rows out for the same reason, and takes each user's budget as fixed during a run.
- Billing.AccrualIgnoresTickTiming: takes the price as fixed and nothing abandoned under the job's tag; `Billing.SpentIsPeakOfLooks` says what happens at changing prices.
- Reconcile.ReapAgrees: takes a backend's names as numbers, so which of them can coincide is not part of the model.
- Tick.RunTick: lets time pass between jobs but not inside one job's advance or dispatch, and the clock it reads is the one at its start, as in the source; runs as such (`Theorems`) allow time between any two effects.
- Carryover.StaysWithinIff: spends what the balance leaves with one job, so it asks that the cap of a single job and the pool have room for it; several smaller jobs are not tried.
- Decisions.Plan: is not claimed to agree with a tick, because a dry run never uses up a slot.
- FairShare.SharesIgnoreTime: takes decay as any positive function that turns sums into products, which is all that is used of halving every half-life.
- Checkpoint.CheckpointStore.Prune: deletes whole folders; a bucket's prune deletes only the first page of a folder's listing, which `Checkpoint.CutPruneIsSafe` covers as a cut, and nested names ending like the manifest are taken to mark their step's folder.
- Spool.AttemptSpool.Append: takes an append as atomic; torn lines, and lines over the scanner's one-megabyte buffer, are not modelled.
- Trace.Replay: leaves the digest, the p95 wait and the sums per user and currency out.
- QueueOrder.OneQueue: sorts with a specification of sorting, standing for the library sort.
- The two-process ledger: only transition logs are proved under interleaving, because the release and the admission balance are read outside the write transaction.
- Backends that raise from `terminate` or `poll`, and the idle detection that picks jobs to reclaim.
- Cloud and lab backends (EC2, GCE, SSH), command line, web application, status page, dashboards, metrics, tracing spans, forecasts, digests.
- SQL text, migrations and pragmas: a transaction is one step of the tables or none.
- Users, environments, price refreshes and drains, apart from the budgets and suspensions that decisions read.
- Log rows that `pin_tier` and `request_cancel` insert past the log budget.
- The worker agent's leases, artifact upload and runtime, and the Go control plane, whose sources are not part of this model.
- Floats, time zones, hashing, message wording and percentiles.
