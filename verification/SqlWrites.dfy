// What each step of the split-transaction protocol writes, column by column (app/jobs/repositories.py:142-365).
module SqlWrites {
  import opened Core
  import opened Jobs
  import opened SqlTables
  import opened SqlProtocol
  import opened SqlInvariant
  import opened SqlTheorems

  /** Of the jobs table only the row of this job changes. */
  ghost predicate OnlyWrites(db: Tables, db': Tables, id: JobId) {
    id in db.jobs && id in db'.jobs && db'.jobs == db.jobs[id := db'.jobs[id]] && db'.drain == db.drain
  }

  /** Of the attempts table only this row changes, or is added. */
  ghost predicate OnlyWritesAttempt(db: Tables, db': Tables, id: JobId, n: nat) {
    (id, n) in db'.attempts && db'.attempts == db.attempts[(id, n) := db'.attempts[(id, n)]]
  }

  /** The attempt is closed: its status, its error and its end are set, and nothing else. */
  predicate IsClosed(after: AttemptRow, before: AttemptRow, status: AttemptStatus, error: Option<Failure>, at: Time) {
    && after.status == status && after.error == error && after.finishedAt == Some(at)
    && after.startedAt == before.startedAt && after.workerId == before.workerId
  }

  /** A claim starts the job as it is now, and opens the row of its next attempt. */
  ghost predicate ClaimWrote(db: Tables, db': Tables, id: JobId, worker: string, at: Time) {
    && OnlyWrites(db, db', id) && IsStarted(db'.jobs[id], db.jobs[id], worker, at)
    && var n := db.jobs[id].attemptCount + 1;
       && (id, n) !in db.attempts && OnlyWritesAttempt(db, db', id, n)
       && db'.attempts[(id, n)] == AttemptRow(AttemptRunning, at, None, None, worker)
  }

  lemma ClaimWrites(s: State, p: Proc, worker: string, at: Time)
    requires Inv(s) && CanClaim(s, p, at)
    ensures var snap, db' := PhaseOf(s, p).snap, ClaimStep(s, p, worker, at).db;
            if s.db.jobs[snap.id].attemptCount == snap.attemptCount then ClaimWrote(s.db, db', snap.id, worker, at)
            else db' == s.db
  {
    ClaimComparesAndSwaps(s, p, worker, at);
  }

  /** The success of the latest attempt: the job succeeded, its row closed as such, without an error. */
  ghost predicate SuccessWrote(db: Tables, db': Tables, id: JobId, result: Payload, at: Time, finishedAt: Time) {
    && OnlyWrites(db, db', id) && IsSucceeded(db'.jobs[id], db.jobs[id], result, at)
    && var n := db.jobs[id].attemptCount;
       && (id, n) in db.attempts && OnlyWritesAttempt(db, db', id, n)
       && IsClosed(db'.attempts[(id, n)], db.attempts[(id, n)], AttemptSucceeded, None, finishedAt)
  }

  /** The failure of the latest attempt n: a retry due 1, 2, 4 seconds and so on after it, at most 300, or the job given
      up; its row closed as failed, with the error. */
  ghost predicate FailureWrote(db: Tables, db': Tables, id: JobId, failure: Failure, at: Time, finishedAt: Time) {
    && OnlyWrites(db, db', id)
    && var n := db.jobs[id].attemptCount;
       && IsFailed(db'.jobs[id], db.jobs[id], failure, RetryDelay(n), at)
       && db'.jobs[id].processedAt ==
          (if db'.jobs[id].status == DeadLettered then Some(at) else db.jobs[id].processedAt)
       && (id, n) in db.attempts && OnlyWritesAttempt(db, db', id, n)
       && IsClosed(db'.attempts[(id, n)], db.attempts[(id, n)], AttemptFailed, Some(failure), finishedAt)
  }

  /** A mark as its verdict says, from one set of tables to the other. */
  ghost predicate MarkWrote(db: Tables, db': Tables, id: JobId, verdict: Verdict, at: Time, finishedAt: Time) {
    match verdict
    case Good(result) => SuccessWrote(db, db', id, result, at, finishedAt)
    case Bad(failure) => FailureWrote(db, db', id, failure, at, finishedAt)
  }

  lemma CommitWrites(db: Tables, snap: JobRecord, verdict: Verdict, at: Time, finishedAt: Time)
    requires snap.id in db.jobs && (snap.id, snap.attemptCount) in db.attempts
    requires snap.attemptCount == db.jobs[snap.id].attemptCount && snap.maxRetries == db.jobs[snap.id].maxRetries
    ensures match verdict
            case Good(result) =>
              SuccessWrote(db, CommitSucceeded(db, snap, result, at, finishedAt), snap.id, result, at, finishedAt)
            case Bad(failure) =>
              var db' := CommitFailed(db, snap, failure, Backoff(snap.attemptCount), at, finishedAt);
              FailureWrote(db, db', snap.id, failure, at, finishedAt)
  {
    BackoffIsRetryDelay(snap.attemptCount);
  }

  /** A process that marks has the latest attempt in hand. */
  lemma MarksLatest(s: State, p: Proc)
    requires Inv(s) && PhaseOf(s, p).Marking?
    ensures var snap := PhaseOf(s, p).snap;
            && snap.id in s.db.jobs && (snap.id, snap.attemptCount) in s.db.attempts
            && snap.attemptCount == s.db.jobs[snap.id].attemptCount && snap.maxRetries == s.db.jobs[snap.id].maxRetries
  {
    assert PhaseOk(s, PhaseOf(s, p));
  }

  lemma MarkWrites(s: State, p: Proc, at: Time, finishedAt: Time)
    requires Inv(s) && CanMark(s, p, at, finishedAt)
    ensures var id, db' := PhaseOf(s, p).snap.id, MarkStep(s, p, at, finishedAt).db;
            MarkWrote(s.db, db', id, PhaseOf(s, p).verdict, at, finishedAt)
  {
    MarksLatest(s, p);
    CommitWrites(s.db, PhaseOf(s, p).snap, PhaseOf(s, p).verdict, at, finishedAt);
  }

  lemma ReadThenMarked(s: State, read: State, p: Proc, verdict: Verdict, at: Time, finishedAt: Time)
    requires Inv(read) && read.db == s.db && CanMark(read, p, at, finishedAt) && PhaseOf(read, p).verdict == verdict
    ensures MarkWrote(s.db, MarkStep(read, p, at, finishedAt).db, PhaseOf(read, p).snap.id, verdict, at, finishedAt)
  {
    MarkWrites(read, p, at, finishedAt);
  }

  /** What became of the handler is what the process records: its result as the success of its job, its error as the
      failure. */
  lemma VerdictIsRecorded(s: State, p: Proc, verdict: Verdict, wait: nat, at: Time, finishedAt: Time)
    requires Inv(s) && Enabled(s, ReadForMark(p, verdict)) && s.clock <= at <= finishedAt <= s.clock + wait
    ensures var read := Apply(Apply(s, ReadForMark(p, verdict)), Tick(wait));
            && CanMark(read, p, at, finishedAt)
            && MarkWrote(s.db, MarkStep(read, p, at, finishedAt).db, PhaseOf(s, p).job, verdict, at, finishedAt)
  {
    var read := Apply(Apply(s, ReadForMark(p, verdict)), Tick(wait));
    StepKeepsInv(s, ReadForMark(p, verdict));
    StepKeepsInv(Apply(s, ReadForMark(p, verdict)), Tick(wait));
    assert s.db.jobs[PhaseOf(s, p).job].id == PhaseOf(s, p).job;
    ReadThenMarked(s, read, p, verdict, at, finishedAt);
  }

  /** And when the search for the next run raises, it records that as the failure of the job. */
  lemma RaisedSearchIsRecorded(s: State, p: Proc, searchedAt: Time, error: ServiceError, wait: nat, at: Time,
        finishedAt: Time)
    requires Inv(s) && Enabled(s, NoNextRun(p, searchedAt, error)) && s.clock <= at <= finishedAt <= s.clock + wait
    ensures var read := Apply(Apply(s, NoNextRun(p, searchedAt, error)), Tick(wait));
            && CanMark(read, p, at, finishedAt)
            && FailureWrote(
                 s.db, MarkStep(read, p, at, finishedAt).db, PhaseOf(s, p).job, Raised(error), at, finishedAt)
  {
    var read := Apply(Apply(s, NoNextRun(p, searchedAt, error)), Tick(wait));
    StepKeepsInv(s, NoNextRun(p, searchedAt, error));
    StepKeepsInv(Apply(s, NoNextRun(p, searchedAt, error)), Tick(wait));
    assert s.db.jobs[PhaseOf(s, p).job].id == PhaseOf(s, p).job;
    ReadThenMarked(s, read, p, Bad(Raised(error)), at, finishedAt);
  }

  /** A cancellation writes its columns over the row as it is by then. */
  lemma CancelWrites(s: State, step: Step)
    requires Enabled(s, step) && step.CancelCommit?
    ensures var id, db' := PhaseOf(s, step.p).job, Apply(s, step).db;
            && OnlyWrites(s.db, db', id) && IsCancelled(db'.jobs[id], s.db.jobs[id], step.at)
            && db'.attempts == s.db.attempts
  {
  }

  /** A row is added, and nothing else changes. */
  ghost predicate OnlyAdds(db: Tables, db': Tables, id: JobId) {
    && id !in db.jobs && id in db'.jobs && db'.jobs == db.jobs[id := db'.jobs[id]]
    && db'.attempts == db.attempts && db'.drain == db.drain
  }

  /** Some job has the key. */
  ghost predicate KeyInUse(db: Tables, key: Option<string>) {
    key.Some? && exists id :: id in db.jobs && db.jobs[id].idempotencyKey == key
  }

  lemma InsertedRow(db: Tables, request: JobCreate, id: JobId, at: Time)
    requires id !in db.jobs
    ensures match InsertJob(db, NewJob(request, id, at))
            case None => KeyInUse(db, request.idempotencyKey)
            case Some(db') =>
              && !KeyInUse(db, request.idempotencyKey) && OnlyAdds(db, db', id)
              && IsRequested(db'.jobs[id], request, id, at)
  {
  }

  /** An insert adds the job as requested, unless its key is in use. */
  lemma InsertWrites(s: State, p: Proc, id: JobId, at: Time)
    requires CanInsert(s, p, id, at)
    ensures var request, db' := PhaseOf(s, p).request, InsertStep(s, p, id, at).db;
            if KeyInUse(s.db, request.idempotencyKey) then db' == s.db
            else OnlyAdds(s.db, db', id) && IsRequested(db'.jobs[id], request, id, at)
  {
    InsertedRow(s.db, PhaseOf(s, p).request, id, at);
  }

  /** The next job of a chain is added as a copy of its parent's work. */
  lemma SpawnWrites(s: State, step: Step)
    requires Enabled(s, step) && step.Spawn?
    ensures var parent, db' := PhaseOf(s, step.p).job, Apply(s, step).db;
            && parent in s.db.jobs && OnlyAdds(s.db, db', step.id)
            && IsNextOf(db'.jobs[step.id], s.db.jobs[parent], step.id, step.slot, step.at)
  {
  }

  // ----- when a retry starts -----

  /** A worker that takes a message for the job and reads its row. */
  function Taken(s: State, q: Proc, id: JobId): State
    requires PhaseOf(s, q) == Idle && !s.db.drain
  {
    Apply(Apply(s, Deliver(q, id)), ReadRow(q))
  }

  lemma TakenRow(s: State, q: Proc, id: JobId)
    requires PhaseOf(s, q) == Idle && !s.db.drain && id in s.db.jobs && IsPending(s.db.jobs[id].status)
    ensures PhaseOf(Taken(s, q, id), q) == Claiming(s.db.jobs[id], s.clock)
    ensures Taken(s, q, id).db == s.db && Taken(s, q, id).clock == s.clock
  {
  }

  lemma TakenKeepsInv(s: State, q: Proc, id: JobId, wait: nat)
    requires Inv(s) && PhaseOf(s, q) == Idle && !s.db.drain
    ensures Inv(Apply(Taken(s, q, id), Tick(wait)))
  {
    StepKeepsInv(s, Deliver(q, id));
    StepKeepsInv(Apply(s, Deliver(q, id)), ReadRow(q));
    StepKeepsInv(Taken(s, q, id), Tick(wait));
  }

  /** What a process that has just read a pending row can do with it, and what comes of that. */
  lemma FreshClaimStarts(s: State, q: Proc, id: JobId, readAt: Time, worker: string, at: Time)
    requires Inv(s) && id in s.db.jobs && PhaseOf(s, q) == Claiming(s.db.jobs[id], readAt) && readAt <= at <= s.clock
    ensures var claim := ClaimCommit(q, worker, at);
            && (Enabled(s, claim) <==> s.db.jobs[id].nextRunAt <= at)
            && (Enabled(s, claim) ==>
                  PhaseOf(Apply(s, claim), q) == Executing(id, s.db.jobs[id].attemptCount + 1))
  {
    assert PhaseOk(s, PhaseOf(s, q));
    ClaimComparesAndSwaps(s, q, worker, at);
  }

  /** With drain off, a message for a pending job, taken by an idle worker, starts its next attempt at a moment `at` if
      and only if the job is due by then. */
  lemma DeliveryStartsIff(s: State, q: Proc, id: JobId, wait: nat, worker: string, at: Time)
    requires Inv(s) && PhaseOf(s, q) == Idle && !s.db.drain && s.clock <= at <= s.clock + wait
    requires id in s.db.jobs && IsPending(s.db.jobs[id].status)
    ensures var read, claim := Apply(Taken(s, q, id), Tick(wait)), ClaimCommit(q, worker, at);
            && (Enabled(read, claim) <==> s.db.jobs[id].nextRunAt <= at)
            && (Enabled(read, claim) ==>
                  PhaseOf(Apply(read, claim), q) == Executing(id, s.db.jobs[id].attemptCount + 1))
  {
    TakenRow(s, q, id);
    TakenKeepsInv(s, q, id, wait);
    FreshClaimStarts(Apply(Taken(s, q, id), Tick(wait)), q, id, s.clock, worker, at);
  }

  lemma FailedThenPending(s: State, p: Proc, failedAt: Time, finishedAt: Time)
    requires Inv(s) && CanMark(s, p, failedAt, finishedAt) && PhaseOf(s, p).verdict.Bad?
    requires var row := s.db.jobs[PhaseOf(s, p).snap.id]; row.attemptCount <= row.maxRetries
    ensures var id, failed := PhaseOf(s, p).snap.id, MarkStep(s, p, failedAt, finishedAt);
            && Inv(failed) && failed.db.drain == s.db.drain && failed.clock == s.clock
            && (forall q: Proc :: q != p ==> PhaseOf(failed, q) == PhaseOf(s, q))
            && id in failed.db.jobs && IsPending(failed.db.jobs[id].status)
            && failed.db.jobs[id].nextRunAt == failedAt + RetryDelay(failed.db.jobs[id].attemptCount)
  {
    MarkWrites(s, p, failedAt, finishedAt);
    StepKeepsInv(s, MarkCommit(p, failedAt, finishedAt));
  }

  /** With drain off, a message for a job whose attempt n has failed at `failedAt` and whose retries are not used up,
      taken by an idle worker after that, starts attempt n + 1 at a moment `at` if and only if the delay of 1, 2, 4
      seconds and so on, at most 300, is over by then. */
  lemma RetryStartsIff(s: State, p: Proc, failedAt: Time, finishedAt: Time, q: Proc, worker: string, wait: nat,
        at: Time)
    requires Inv(s) && CanMark(s, p, failedAt, finishedAt) && PhaseOf(s, p).verdict.Bad?
    requires q != p && PhaseOf(s, q) == Idle && !s.db.drain && s.clock <= at <= s.clock + wait
    requires var row := s.db.jobs[PhaseOf(s, p).snap.id]; row.attemptCount <= row.maxRetries
    ensures var id, failed := PhaseOf(s, p).snap.id, MarkStep(s, p, failedAt, finishedAt);
            && PhaseOf(failed, q) == Idle && !failed.db.drain && id in failed.db.jobs
            && var n, read := failed.db.jobs[id].attemptCount, Apply(Taken(failed, q, id), Tick(wait));
               var claim := ClaimCommit(q, worker, at);
               && (Enabled(read, claim) <==> at >= failedAt + RetryDelay(n))
               && (Enabled(read, claim) ==> PhaseOf(Apply(read, claim), q) == Executing(id, n + 1))
  {
    var id, failed := PhaseOf(s, p).snap.id, MarkStep(s, p, failedAt, finishedAt);
    FailedThenPending(s, p, failedAt, finishedAt);
    DeliveryStartsIff(failed, q, id, wait, worker, at);
  }
}
