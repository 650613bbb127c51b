# Job queue: a verified model of its lifecycle, scheduler and storage protocols

The service accepts jobs over HTTP, keeps them in a repository, announces them on Kafka and has workers claim, run,
retry and re-create them on a cron schedule. This project models that logic in Dafny and proves what it guarantees
over every input and every run. It has three parts that share one job record (`Jobs.dfy`).

**The cron scheduler.** `CronText` models splitting, parsing and normalising an expression, `Calendar` the Gregorian
calendar behind `datetime`, `CronSearch` the bounded minute-by-minute search, `CronHorizon` when that search can fail,
and `CronRecurrence` which expressions have a run at all; `CronExamples` holds two stored expressions at the edges.
`CronFields` says what all of this means in terms of the characters of the expression. All five fields are required at
once and Monday is 0, as in the code (POSIX crontab differs on both).

**The locked repository with the service around it.** `MemoryRepository`, `Queue`, `Service` and `Workers` hold the
classes `InMemoryJobRepository`, `FakeJobProducer`, `JobService` and `Worker`; every method is proved equal to a
function of the old state, and what it leaves is stated column by column as well. `Lifecycle` interleaves the
repository calls of any number of service calls, with crashes and an unreliable producer, and proves the invariant
that the run theorems rest on. `ServiceRuns` and `WorkerRuns` show that `process_job` and the whole worker loop are
runs of that model. `Draining`, `Termination`, `StartTimes`, `LockedChains`, `LostSuccess` and `Reporting` prove
properties of its runs and reports, and `Announcements` what the events it has sent say of the jobs. `Lineages` holds
what recurrence chains are, for this model and the next.

**The PostgreSQL repository.** `SqlTables` says what each transaction writes when it commits; `SqlProtocol` splits
every transaction into its read and its commit, and the row it reads back after one, and lets any number of workers
and requests take these steps in any order, with messages lost, duplicated and reordered, and crashes anywhere.
`SqlInvariant` is the inductive invariant (it speaks about stale snapshots); `SqlTheorems`, `SqlWrites`,
`SqlOutcomes`, `SqlStartable`, `SqlChains`, `SqlSubmission`, `SqlDeadLetters` and `SqlRaces` are its consequences.
`SqlRefinement` compares the two repositories call by call, and `SqlService` and `SqlWorkers` carry that to
`process_job` and to the worker's loop. The class `Worker` runs over the in-memory repository, while the program's
worker opens PostgreSQL sessions: for one worker alone `SqlLoopIsRun` shows that this makes no difference to records
and dead letters, and many workers at once are what `SqlProtocol` models.

Times are microseconds since 0001-01-01, ids are fresh numbers, a payload stands for its compact JSON bytes. Clock
readings, fresh ids, handler outcomes and message delivery are parameters, so every theorem holds for all of them; the
only assumption about clocks is that one call's readings, and the readings of the shared clock, never go back.

Where the code and its documentation differ, the model follows the code:

- The design document promises that a worker claims with a conditional update. `claim_job` reads and then writes; what
  makes two claims of one attempt exclude each other is the unique index on the attempts table
  (`ClaimComparesAndSwaps`).
- Its promise that cancelled jobs are never claimed does not hold of the PostgreSQL repository:
  `CancelledJobIsClaimed` is a run that breaks it. `CancelledIsClaimedIff` says exactly which claim commits break it,
  and `StartableIff` exactly which jobs can still be started.
- Nor does its promise that drain prevents claims (the same run). `DrainedStartableIff` says exactly which jobs can be
  started while drain stays on.
- Nor does its promise that cancellation changes only pending jobs: `cancel_job` reads the status and then writes it.
  `FinishedJobIsCancelled` is a run that overwrites a succeeded or a dead-lettered job; `OverwrittenIff` says exactly
  when a job that is not pending can be overwritten, and `LateCancelIff` when one that is finished for good can.
- A job can have two dead letters in PostgreSQL: `mark_failed_attempt` reads the row back after its commit, and
  `process_job` goes by what it finds. `TwoDeadLetters` is a run; `SuperfluousIff` says exactly which dead letters are
  superfluous, and `AnotherLetterIff` exactly when another one can follow.
- `create_next_recurring_job` is inside the `try` of `process_job`. A job whose expression has no next run is marked
  succeeded and then failed by the same call; `SuccessIsKeptIff` gives the condition for one call, `TerminalAbsorbs`
  for every run, and `SuccessIsLost` shows runs.
- A failure before the last attempt clears `processed_at` in memory and leaves it in PostgreSQL, and a next job is
  created there with a later reading of the clock than the one its slot was searched from; `TablesDivergeIff` says
  exactly when that shows.

## Model

| member | source | states |
|---|---|---|
| CronText.SplitOfJoin | app/jobs/scheduling.py:7-22 | words joined with single spaces split back into the same words |
| CronText.AcceptedPart | app/jobs/scheduling.py:39-56 | an accepted field allows at least one value, none out of range, and a star form always allows the minimum; which values exactly is `CronFields.FieldMeaning` |
| CronText.ValidateNormalises | app/jobs/scheduling.py:6-13 | validation is idempotent, and its output has the same five fields with the same meaning as its input |
| CronText.StoredFieldsWellRanged | app/jobs/scheduling.py:6-22 | every field of a stored expression is a non-empty choice of in-range values |
| CronFields.SplitOfSpread | app/jobs/scheduling.py:7-22 | words spread out by any white space split into just these words |
| CronFields.ParseIntReads | app/jobs/scheduling.py:44-51 | a text is read as an integer iff it is that integer in decimal, with a sign and leading zeros if one likes |
| CronFields.StepMeaning | app/jobs/scheduling.py:42-49 | `*/n` is accepted iff n is positive, and allows exactly the values lo + k n that are at most hi |
| CronFields.NumberMeaning | app/jobs/scheduling.py:50-56 | a number is accepted iff it is in range, and allows exactly itself |
| CronFields.OtherwiseRefused | app/jobs/scheduling.py:43-53 | any other text is refused, as a bad step if it begins like one |
| CronFields.FieldMeaning | app/jobs/scheduling.py:39-56 | the accepted texts are `*`, positive steps and numbers in range, and the set a field parses to is exactly what its text allows |
| CronFields.ValidateMeaning | app/jobs/scheduling.py:6-13 | the validator accepts exactly five accepted fields, whatever the spacing, and returns them with single spaces |
| CronFields.RunMeaning | app/jobs/scheduling.py:16-36 | for every text: the result is the start of the first of the following 527,040 minutes that all five texts allow, or the no-run error when there is none, or the validator's error |
| CronFields.RunsEveryNMinutes | app/jobs/scheduling.py:16-49 | `*/n * * * *` is found at a minute that is a multiple of n, with no such minute between the instant and it |
| Calendar.DayNumberOfDate | app/jobs/scheduling.py:21-35 | stepping a date one day at a time agrees with counting days by years and months |
| Calendar.DaysBeforeYearClosedForm | app/jobs/scheduling.py:21-35 | days before a year follow the fours, hundreds and four-hundreds rule |
| Calendar.EpochIsThursday | app/jobs/scheduling.py:32 | 1970-01-01 is day 719,162 and, with Monday as 0, weekday 3 |
| CronSearch.FirstMatchIsLeast | app/jobs/scheduling.py:24-36 | the scan returns the least matching minute of its window, and nothing only when the window has none |
| CronSearch.NextCronRun | app/jobs/scheduling.py:16-36 | the method with the loop computes `NextRun`, errors included, whose meaning in terms of the text is `CronFields.RunMeaning` |
| CronSearch.Search | app/jobs/scheduling.py:21-36 | the loop ends at the first match of the 527,040 minutes, or raises the no-run error |
| CronSearch.NextRunIsLeast | app/jobs/scheduling.py:16-36 | the result is a whole minute strictly after the given instant, matches all five fields, and no earlier such minute does |
| CronSearch.NextRunRaisesIff | app/jobs/scheduling.py:24-36 | on a stored expression the search raises if and only if none of the 527,040 minutes matches, and never a format error |
| CronSearch.RunsAreConsecutive | app/jobs/scheduling.py:16-36 | iterating gives strictly later runs with no matching minute between two of them |
| CronSearch.EveryMatchIsServed | app/jobs/scheduling.py:24-36 | while gaps fit the window, every later matching minute is reached by iterating |
| CronHorizon.StarAllowsAll | app/jobs/scheduling.py:40-41 | a star in the day or weekday field allows every value |
| CronHorizon.HorizonDichotomy | app/jobs/scheduling.py:24-36 | with any weekday allowed: a date of ordinary years is always found, a date of no year never, and 29 February exactly when it is near enough |
| CronHorizon.LeapDayRunsIff | app/jobs/scheduling.py:24-36 | when only 29 February is allowed, the search succeeds iff that day of this or the next year lies in the window |
| CronHorizon.AnyDayAlwaysRuns | app/jobs/scheduling.py:24-36 | with any day of month allowed, every weekday choice has a run |
| CronHorizon.WindowIsTight | app/jobs/scheduling.py:24-26 | one minute less than 366 days would not do: a yearly expression can match in the last minute of the window only |
| CronRecurrence.RunsAgain | app/jobs/scheduling.py:24-36 | an expression that allows some date of a leap year, on whatever weekdays, has runs after every instant |
| CronRecurrence.NeverRuns | app/jobs/scheduling.py:24-36 | an expression whose dates exist in no year raises after every instant |
| CronRecurrence.HasRunIff | app/jobs/scheduling.py:24-36 | a stored expression has any run at all iff some allowed (month, day) exists in a leap year |
| CronExamples.FebruaryThirtyIsAccepted | app/jobs/scheduling.py:6-13 | the validator accepts "0 0 30 2 *" as it stands |
| CronExamples.FebruaryThirtyNeverRuns | app/jobs/scheduling.py:24-36 | and the search raises for it after every instant |
| CronExamples.FebruaryTwentyEightNeedsTheWindow | app/jobs/scheduling.py:24-36 | "0 0 28 2 *", searched from midnight on 28 February of a leap year, is found in the last of the 527,040 minutes |
| Ordering.SortByIsStable | app/jobs/repositories.py:431 | the sort orders by key, keeps every element and the order of equal keys |
| Ordering.StableSortIsUnique | app/worker.py:56 | there is only one such rearrangement, so it is what `sorted` returns |
| Jobs.BackoffBeforeClosedForm | app/jobs/service.py:84-86 | the delays before attempt n add up to 2^(n-1) - 1 seconds for n <= 10 and 511 + 300 (n - 10) beyond |
| Jobs.BackoffIsRetryDelay | app/jobs/service.py:84-86 | the delay after attempt n is 2^(n-1) seconds up to the ninth and 300 from the tenth on, in microseconds |
| MemoryRepository.CreateKeepsWellFormed | app/jobs/repositories.py:375-408 | creating a job keeps the index the exact inverse of the jobs' keys and the order a listing of the dict |
| MemoryRepository.PutKeepsWellFormed | app/jobs/repositories.py:460-549 | rewriting a record under its id and key keeps them too |
| MemoryRepository.DueOrderIsExact | app/jobs/repositories.py:424-432 | the due scan lists exactly the due jobs, each once; of two of them the first has the higher priority, or the same and was created no later, or both the same and was inserted before |
| MemoryRepository.DueInColumns | app/jobs/repositories.py:424-432 | so it is of what a limit leaves, and each returned job comes in that order before every due job left out |
| MemoryRepository.InMemoryJobRepository.CreateJob | app/jobs/repositories.py:375-408 | a known key gives back the job that has it and changes nothing; otherwise the new job is stored and indexed, every column as requested, due at once or at a later `run_at` |
| MemoryRepository.InMemoryJobRepository.GetJob | app/jobs/repositories.py:410-414 | the record, or not found |
| MemoryRepository.InMemoryJobRepository.ClaimJob | app/jobs/repositories.py:460-476 | claims if and only if drain is off and the job is pending and due; then that record alone changes: running, locked by the worker now, one attempt more |
| MemoryRepository.InMemoryJobRepository.CreateNextRecurringJob | app/jobs/repositories.py:478-507 | the next job of a recurring one, every column of it, due at the searched slot; nothing for a one-off job, the search's error otherwise |
| MemoryRepository.InMemoryJobRepository.MarkSucceeded | app/jobs/repositories.py:509-522 | that record alone changes, whatever the old status: succeeded, result kept, lock released, processed now |
| MemoryRepository.InMemoryJobRepository.MarkFailedAttempt | app/jobs/repositories.py:524-539 | that record alone changes: dead-lettered iff its attempts exceed its retries, otherwise failed and due after the delay; error kept, lock released |
| MemoryRepository.InMemoryJobRepository.CancelJob | app/jobs/repositories.py:541-549 | cancels pending jobs only, changing status and times alone; a conflict, which names the status, or not found changes nothing |
| MemoryRepository.InMemoryJobRepository.SetDrain | app/jobs/repositories.py:551-552 | changes the flag and nothing else |
| MemoryRepository.InMemoryJobRepository.DueJobs | app/jobs/repositories.py:424-432 | stored due jobs, each once, by priority, creation and insertion, at most `limit`; one left out is one too many and comes before none returned |
| Queue.FakeJobProducer.PublishJob | app/queue/kafka.py:89-94 | appends one event, or raises and appends nothing |
| Queue.FakeJobProducer.PublishDeadLetter | app/queue/kafka.py:96-99 | the same for dead letters |
| Service.JobService.SubmitJob | app/jobs/service.py:24-30 | refused for an unknown handler or a payload too large; a replay publishes nothing; a new job has every column as requested, and one event with its id, handler, priority, due time and attempt 0 is sent, or the producer's error raised with the job stored |
| Service.JobService.ProcessJob | app/jobs/service.py:55-71 | nothing happens unless drain is off and the job pending and due; otherwise, column by column, it is started, and its failure recorded, or its success and then its next run or the failure of the search for it; publishes no job event |
| Service.JobService.RunJob | app/jobs/service.py:60-71 | the `try` statement with its `except` branch does what `Attempt` says, whose effect column by column is part of `ProcessJob` |
| Service.JobService.RecordFailure | app/jobs/service.py:65-71 | the `except` branch: the record is failed and due after 1, 2, 4 seconds and so on up to 300, or dead-lettered, and then one dead letter with its id, handler and attempt is sent |
| Service.JobService.PublishDueJobs | app/jobs/service.py:73-77 | the first due jobs, by priority, creation and insertion, are announced in order, each event with its job's id, handler, priority, due time and attempt; with the producer down none; the repository does not change |
| Service.JobService.CancelJob | app/jobs/service.py:43-44 | the repository's cancellation |
| Service.JobService.SetDrain | app/jobs/service.py:46-47 | changes the drain flag and nothing else |
| Service.PublishAllSends | app/jobs/service.py:73-77 | the loop sends every event of a batch in order, or stops at the first with nothing sent |
| Service.SuccessIsKeptIff | app/jobs/service.py:60-71 | after a handler returns, the job stays succeeded iff it does not recur or its expression has a run in the horizon; else it ends failed or dead-lettered |
| LostSuccess.SuccessIsLost | app/jobs/service.py:60-71 | runs in which a job is succeeded and then, by the same call, failed or dead-lettered |
| Lifecycle.RunKeepsInv | app/jobs/repositories.py:368-555 | every interleaving of calls, crashes and producer failures keeps the lifecycle invariant |
| Lifecycle.JobsInOrder | app/jobs/repositories.py:460-549 | in every reachable state: running iff both lock fields are set, terminal iff `processed_at` is set, attempts fit the status, expressions are normalised, the index inverts the keys |
| Lifecycle.SubmittedAsRequested | app/jobs/repositories.py:375-408 | whatever happens after a submission, its job still has the handler, payload, priority, limits, expression, key and `run_at` asked for |
| Lifecycle.RunKeepsIdentity | app/jobs/repositories.py:460-549 | no run changes the columns fixed at creation or removes a job |
| Lifecycle.OneCallPerJob | app/jobs/repositories.py:460-476 | at most one call has a job in hand, and it is the latest attempt |
| Lifecycle.TerminalAbsorbs | app/jobs/service.py:60-71 | in every run a cancelled or dead-lettered record stays as it is, and a succeeded one does iff no search of the job for its next run raises and is then followed to its failure |
| Lifecycle.SettledForever | app/jobs/service.py:60-71 | a terminal job that no live call has in hand never changes again, whatever its expression |
| Lifecycle.RecurRaisesOnlyNoRun | app/jobs/schemas.py:26-31 | in every reachable state the search for a next run raises for want of a run only, because stored expressions are normalised |
| Lifecycle.SucceededIsLost | app/jobs/service.py:60-71 | in every reachable state where the search raises, the same call takes the job out of succeeded |
| Lifecycle.DrainBlocksStarts | app/jobs/repositories.py:460-463 | while drain is on no event starts an attempt |
| Lifecycle.DeadLettersAreDead | app/jobs/service.py:68-70 | at most one dead-letter event per job, and only for dead-lettered jobs |
| Lifecycle.DeadLetterLogAgrees | app/jobs/service.py:65-71 | without crashes and with the producer up, in every reachable state the logged ids are exactly the dead-lettered jobs but for those whose event is about to be sent |
| ServiceRuns.ProcessIsRun | app/jobs/service.py:55-71 | a sequential `process_job` does to repository and log what a run of the interleaving model does |
| ServiceRuns.ClientCallsAreEvents | app/jobs/service.py:24-47 | a submission, a cancellation and a change of the drain flag do what one event of the interleaving model does |
| StartTimes.StartsAreSpaced | app/jobs/repositories.py:460-539 | starts of a job are counted by `attempt_count`, at most `max_retries` + 1, none before `run_at`, and attempt n keeps the cumulative backoff after the first |
| StartTimes.NoStrandedWork | app/jobs/service.py:73-77 | whatever messages and publishes are lost, a due job keeps its record until it is started or cancelled, and until then, drain off, any delivery to an idle worker starts it |
| StartTimes.FailureInColumns | app/jobs/repositories.py:524-539 | in every state that keeps the invariant a failed attempt n leaves its job failed and due 1, 2, 4 seconds and so on, at most 300, later, or dead-lettered |
| StartTimes.RetryStartsIff | app/jobs/service.py:84-86 | with drain off, a delivery to an idle worker starts such a job again iff that delay is over: at that very instant and not before |
| LockedChains.OneLiveJobPerChain | app/jobs/repositories.py:478-507 | at most one job of a recurrence chain is pending or running in any reachable state |
| LockedChains.SlotsServedOnce | app/jobs/repositories.py:478-507 | slots along a chain strictly increase and no attempt of a spawned job starts before its slot |
| LockedChains.ChainSharesWork | app/jobs/repositories.py:478-507 | all jobs of a recurrence chain have the same handler, payload, priority, limits and expression |
| Termination.FinitelyManyTransitions | app/jobs/service.py:55-77 | without new jobs a run changes the job table at most 2 (`max_retries` + 1 - `attempt_count`) + 1 times per pending job and one more per running one |
| Draining.PublishesFirstDue | app/jobs/service.py:73-77 | what is published is the first `limit` due jobs by priority, creation and insertion, each event telling of its job, so a due job with fewer than `limit` before it is published |
| Draining.DrainsInBatches | app/jobs/service.py:73-77 | k passes of publishing and processing settle exactly k * limit jobs, whatever the order and repetition of delivery |
| Draining.EmptyAfterBatches | app/jobs/service.py:73-77 | the queue is empty after pass k iff k is at least ceil(n / limit) |
| Announcements.EventsTellOfJobs | app/jobs/service.py:24-30 | in every run every event sent names a stored job, its handler and priority, and until its attempt is started the due time of that attempt |
| Announcements.TopicsOfBands | app/queue/kafka.py:25-30 | an event of priority 8 and more goes to the high topic, of 0 to the low one, others to the default one; the worker ranks high, default, retry, low and then any other |
| Announcements.BatchFollowsPriorities | app/worker.py:55-58 | in every run, of any messages that were sent, a batch processes none of a job of a lower priority band before one of a higher band |
| Workers.RankIsAntitone | app/worker.py:80-87 | with distinct topics, a higher priority never ranks later, with the one exception of 0 behind negative priorities |
| Workers.BatchIsOrdered | app/worker.py:55-58 | a batch is a stable permutation by rank; no lower priority band runs before a higher one |
| Workers.FlattenInOrder | app/worker.py:55 | messages are taken partition after partition, each with its own in order |
| Workers.Worker.ProcessBatch | app/worker.py:56-58 | messages are processed in order, each by a call whose effect is stated column by column, until the first exception, which is raised |
| Workers.Worker.RunIteration | app/worker.py:52-58 | the first due jobs are announced before the batch, a stable sort by rank of the polled messages, is processed; if that raises, no message is |
| Workers.Worker.Run | app/worker.py:51-59 | the loop takes poll after poll in this way until a signal has come, an iteration has raised, or no poll is left, and raises what its last iteration did |
| WorkerRuns.LoopIsRun | app/worker.py:51-59 | over the in-memory repository, for any polled messages the loop is a run of the lifecycle model, so its invariants hold after it |
| SqlInvariant.ClaimComparesAndSwaps | app/jobs/repositories.py:244-267 | in every state that keeps the invariant a claim commits if and only if `attempt_count` is what it read |
| SqlInvariant.StepKeepsInv | app/jobs/repositories.py:142-365 | every read, commit, crash and delivery keeps the invariant |
| SqlTheorems.MutualExclusion | app/db/models.py:53 | in every interleaving at most one process has an attempt of a job in hand, and it is the latest |
| SqlTheorems.AttemptHistory | app/jobs/repositories.py:244-267 | attempt rows are exactly 1..`attempt_count`, only the latest can be unfinished, and none is while the job is pending; how they ended is `SqlOutcomes.AttemptOutcomes` |
| SqlTheorems.RetryBound | app/jobs/repositories.py:249-254 | the handler is started exactly `attempt_count` and at most `max_retries` + 1 times, and the status says how many are used |
| SqlTheorems.RunKeepsIdentity | app/jobs/repositories.py:244-337 | no interleaving changes the columns fixed at creation or removes a row, stale commits included |
| SqlTheorems.CumulativeBackoff | app/jobs/service.py:84-86 | attempt n starts no earlier than the cumulative delay after the first |
| SqlTheorems.ClosedForever | app/jobs/repositories.py:327-337 | a terminal job with no live holder and no fresh snapshot is never started again, and keeps its status unless it is not cancelled and a cancellation has read it as pending and not committed yet |
| SqlTheorems.LateCancelIff | app/jobs/repositories.py:327-337 | some run turns such a job, when it is not cancelled, into a cancelled one iff a cancellation has read it as pending and not committed yet |
| SqlTheorems.OverwrittenIff | app/jobs/repositories.py:327-337 | a running, succeeded or dead-lettered job can be turned into a cancelled one without being pending in between iff a cancellation has read it as pending and not committed yet |
| SqlWrites.ClaimWrites | app/jobs/repositories.py:244-267 | in every state that keeps the invariant a claim that commits starts the job and opens the row of its next attempt, and another writes nothing |
| SqlWrites.MarkWrites | app/jobs/repositories.py:296-325 | a mark closes the row of the latest attempt as succeeded without an error, or as failed with it, and leaves the job succeeded, or failed and due after 1, 2, 4 seconds and so on up to 300, or dead-lettered |
| SqlWrites.VerdictIsRecorded | app/jobs/service.py:60-71 | what became of the handler, its result or its error, is what the process records of its job |
| SqlWrites.RaisedSearchIsRecorded | app/jobs/service.py:60-71 | and when the search for the next run raises, that is what it records as the failure |
| SqlWrites.CancelWrites | app/jobs/repositories.py:327-337 | a cancellation writes status and times over the row as it is by then, and nothing else |
| SqlWrites.InsertWrites | app/jobs/repositories.py:146-184 | an insert adds the job, every column as requested, unless its key is in use |
| SqlWrites.SpawnWrites | app/jobs/repositories.py:269-294 | the next job of a chain is added with its parent's work, due at the slot |
| SqlWrites.DeliveryStartsIff | app/jobs/repositories.py:244-267 | with drain off, a message for a pending job, taken by an idle worker, starts its next attempt iff the job is due by then |
| SqlWrites.RetryStartsIff | app/jobs/repositories.py:310-325 | after a failed attempt that is not the last it does so iff the retry delay is over: at that very instant and not before |
| SqlOutcomes.AttemptOutcomes | app/jobs/repositories.py:355-365 | in every interleaving the latest attempt row is open while the job runs, succeeded when it succeeded, failed with the job's last error when it failed or is dead-lettered; earlier rows have failed; a row has an end iff it is closed and an error iff it failed |
| SqlStartable.StartableIff | app/jobs/repositories.py:244-267 | in every state that keeps the invariant, some run starts a job iff it does not exist yet, is pending, has attempts left and a live holder that may still fail, or a claim has a fresh snapshot of it |
| SqlStartable.DrainStopsClaims | app/jobs/repositories.py:244-246 | with drain on, no attempt of a job starts before drain is switched off, unless a claim of that job is under way already |
| SqlStartable.DrainedStartableIff | app/jobs/repositories.py:244-267 | while drain stays on, some run starts a job, whatever its status, iff a claim has a fresh snapshot of it, or its message has been taken and the job does not exist yet or may be pending when it is read |
| SqlRaces.CancelledIsClaimedIff | app/jobs/repositories.py:244-267 | a claim of a cancelled job starts the handler iff no attempt started since it read the row |
| SqlRaces.CancelledJobIsClaimed | app/jobs/repositories.py:327-337 | a run that starts the handler of a cancelled job while drain is on |
| SqlRaces.FinishedJobIsCancelled | app/jobs/repositories.py:327-337 | runs in which a succeeded, and a dead-lettered, job is turned into a cancelled one |
| SqlRaces.TwoDeadLetters | app/jobs/repositories.py:310-325 | a run that sends two dead letters for one job |
| SqlDeadLetters.OneLetterPerAttempt | app/jobs/service.py:65-71 | in any interleaving each failed attempt leads to at most one dead letter, and only jobs that are dead-lettered, or were before a late cancellation, have one |
| SqlDeadLetters.SuperfluousIff | app/jobs/repositories.py:322-325 | a dead letter is for an attempt that was not the last iff the row was read back after a later attempt had dead-lettered the job |
| SqlDeadLetters.RepeatsAreLate | app/jobs/repositories.py:322-325 | a job has two dead letters only if one of them was read back so late |
| SqlDeadLetters.AnotherLetterIff | app/jobs/repositories.py:310-325 | in every reachable state, some run sends a further dead letter for a job that has one iff a process is about to send it, or to read back the job while it stands dead-lettered |
| SqlDeadLetters.NoLetterLost | app/jobs/service.py:65-71 | unless a process is given up between a failed attempt and its letter, every dead-lettered job has the letter of its last attempt, sent or still with a process |
| SqlDeadLetters.DeadLetteredForever | app/jobs/repositories.py:310-337 | a dead-lettered job is never started again, and stays dead-lettered unless a cancellation that has read it as pending is still under way |
| SqlDeadLetters.DeadLetteredOverwrittenIff | app/jobs/repositories.py:327-337 | some run turns a dead-lettered job into a cancelled one iff such a cancellation is under way |
| SqlChains.OneLiveJobPerChain | app/jobs/repositories.py:269-294 | at most one job of a recurrence chain is pending or running in any interleaving |
| SqlChains.SlotsServedOnce | app/jobs/repositories.py:269-294 | slots along a chain strictly increase and no spawned job starts before its slot |
| SqlChains.ChainSharesWork | app/jobs/repositories.py:269-294 | all jobs of a recurrence chain have the same handler, payload, priority, limits and expression, stale commits or not |
| SqlChains.SuccessGoesOn | app/jobs/repositories.py:269-294 | whatever the clock readings and the new id, a process that has recorded a success is never stuck: it ends a one-off job, creates the next job at the searched slot, or fails the job with the search's error |
| SqlSubmission.OneJobPerKey | app/jobs/repositories.py:146-184 | under any races one job per key, the same id in every reply, one reply that is no replay, one submission event |
| SqlSubmission.LostRaceFindsWinner | app/jobs/repositories.py:176-182 | the loser of an insert race always finds the winner's job, so the integrity error never reaches the client |
| SqlRefinement.CallRefines | app/jobs/repositories.py:142-555 | from related states each call gives related states and the same answer, and no unique constraint aborts it; a next job whose insert reads a later clock differs in its creation and change times alone |
| SqlRefinement.SequencesRefine | app/jobs/repositories.py:142-555 | so does every sequence of calls |
| SqlRefinement.EmptyRelated | app/jobs/repositories.py:369-372 | the empty repositories are related |
| SqlRefinement.TablesDivergeIff | app/jobs/repositories.py:269-325 | equal tables become unequal iff the call fails, before its last attempt, a job whose `processed_at` is set, or creates a next job with the clock moved between search and insert |
| SqlRefinement.DueScansAgree | app/jobs/repositories.py:200-207 | both due scans have the same length and the same priority at every position |
| SqlRefinement.DueTimesAgree | app/jobs/repositories.py:200-207 | and the same creation time, unless a due job was inserted at a later reading than its search |
| SqlRefinement.SqlDueIsFirst | app/jobs/repositories.py:200-207 | the query returns due rows, each once, by priority and then creation, and each of them comes in that order before every due row left out |
| SqlService.ProcessRefines | app/jobs/service.py:55-71 | `process_job` over related repositories leaves them related, sends the same dead letters and returns the same record |
| SqlService.PublishDueRefines | app/jobs/service.py:73-77 | so does `publish_due_jobs`, with the same priorities in the same order |
| SqlService.SqlPublishesRows | app/jobs/service.py:73-77 | over PostgreSQL too, one event per row is sent in order, with its id, handler, priority, due time and attempt, or with the producer down none |
| SqlWorkers.LoopRefines | app/worker.py:51-78 | so does the worker's loop, ended by the same exception if any |
| SqlWorkers.SqlLoopIsRun | app/worker.py:51-78 | a worker alone on PostgreSQL leaves what some run of the lifecycle model leaves, for any polled messages |
| Reporting.QueueDepthOf | app/jobs/repositories.py:434-446 | the counts are right, `due` <= `queued`, and the per-priority table is increasing, exact and sums to `queued` |
| Reporting.Tally | app/jobs/repositories.py:437-439 | the loop's dict has exactly the priorities that occur, each with the number of its jobs |
| Reporting.TableSums | app/jobs/repositories.py:437-445 | any increasing exact table sums to the number of jobs |
| Reporting.StatusesPartition | app/jobs/repositories.py:434-458 | the six status counts sum to the number of jobs |
| Reporting.RetryCounts | app/jobs/repositories.py:452 | the database's sum is the in-memory count less the never-attempted jobs; clamped it never exceeds it, and equals it iff all were attempted or none retried |
| Reporting.RelatedRetryCounts | app/jobs/repositories.py:231 | so it is between the two repositories after the same calls |
| Reporting.RatesSumToOne | app/jobs/service.py:107-113 | the rates are the shares of successes and of failures with dead letters, and sum to one, or to zero when there is nothing to count |
| Reporting.MetricsMean | app/jobs/repositories.py:448-458 | success, failure and dead letters are the numbers of jobs in these states, retries the attempts after the first |
| Reporting.LatenciesMean | app/jobs/repositories.py:558-563 | the latencies are the times from creation to the end of the processed jobs |
| Reporting.UtilizationIsProportion | app/jobs/repositories.py:574-578 | utilization is the share of running jobs among running and queued ones, 0 iff nothing runs |
| Reporting.PercentileHasRank | app/jobs/repositories.py:558-571 | a percentile is one of the latencies and has the right rank among them |
| Reporting.PercentilesOrdered | app/jobs/repositories.py:558-571 | a higher percentile is never smaller, so p50 <= p95 |
| Reporting.RoundIsNearest | app/jobs/repositories.py:558-571 | ranks are rounded to the nearest integer and halves to the even one |
| Reporting.ReportsOfRuns | app/jobs/repositories.py:448-458 | in every reachable state there is one latency per terminal job, and none is negative |

## Left out

- HTTP routes, middleware, error bodies, readiness checks, settings and deployment: plumbing around the modelled calls.
- Kafka clients and offsets: delivery is arbitrary. The bare commit after each message covers the whole batch, so nothing is claimed from offsets; the retry topic is read but never written.
- The SQL engine: commits are atomic, reads see committed rows, unique constraints are enforced, an update writes the columns the code assigns. Session caching, connection errors and the race of two first `set_drain` inserts are not modelled.
- The row read back after a claim, a success, a cancellation or a new job: only the caller's reply depends on it, or columns that cannot have changed. The one after a failed attempt is modelled.
- `_run_with_timeout` and handler bodies: an attempt is an arbitrary result or error message.
- Stale-lock recovery and the timeout status of attempts: declared in the source but never used; the job of a crashed worker stays running.
- `create_next_recurring_job` of the in-memory repository takes no lock, so its insert can come later than its clock reading; the model inserts at the reading.
- `list_jobs`, its filters and paging, `get_drain` of the PostgreSQL repository, and logging: they only read, and nothing else depends on them.
- Negative limits of `due_jobs`: every caller passes a positive configured limit.
- Payload contents: a payload is its compact JSON bytes, of which only the length matters.
- The text of error details: errors are compared by kind, and the status in a conflict is kept.
- Whitespace stripping of handler names and the length limits of names and expressions in the request schema.
- `int` extras of Python in cron fields (underscores, Unicode digits, the digit limit): decimal digits with an optional sign only.
- The end of `datetime` in year 9999: the calendar goes on, so the overflow error there is not modelled.
- Floating point: rates and utilization are exact quotients, percentile ranks exact hundredths rounded half to even, and latencies are kept in microseconds.
- SqlWorkers.SqlLoopIsRun: is about one worker alone on the database; what many workers at once do there is the subject of `SqlProtocol` and its theorems.
- Reports of the PostgreSQL repository other than the retry count: its other counts are the same queries over the same columns; a failed job that keeps `processed_at` would add a latency there.
