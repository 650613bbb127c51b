// The PostgreSQL tables and what each transaction of the repository writes when it commits
// (app/jobs/repositories.py:142-365, app/db/models.py).
module SqlTables {
  import opened Core
  import opened Jobs

  datatype AttemptStatus = AttemptRunning | AttemptSucceeded | AttemptFailed

  datatype AttemptRow = AttemptRow(
    status: AttemptStatus, startedAt: Time, finishedAt: Option<Time>, error: Option<Failure>, workerId: string)

  /** The attempts table is a map because `(job_id, attempt_number)` is unique: an insert that would repeat
      a key aborts its transaction. */
  datatype Tables = Tables(jobs: map<JobId, JobRecord>, attempts: map<(JobId, nat), AttemptRow>, drain: bool)

  const NO_ROWS := Tables(map[], map[], false)

  predicate HasKey(db: Tables, key: string) {
    exists id :: id in db.jobs && db.jobs[id].idempotencyKey == Some(key)
  }

  /** Would inserting a job with this key break the unique constraint? Absent keys never collide. */
  predicate KeyTaken(db: Tables, key: Option<string>) {
    key.Some? && HasKey(db, key.value)
  }

  function InsertJob(db: Tables, job: JobRecord): Option<Tables> {
    if KeyTaken(db, job.idempotencyKey) then None
    else Some(db.(jobs := db.jobs[job.id := job]))
  }

  /** A claim writes its own columns of the row as it is now, `attempt_count` from the value it read,
      and one new attempt row; the commit aborts when that attempt number exists already. */
  function CommitClaim(db: Tables, snap: JobRecord, worker: string, now: Time): Option<Tables>
    requires snap.id in db.jobs
  {
    var number := snap.attemptCount + 1;
    if (snap.id, number) in db.attempts then None
    else
      var row := db.jobs[snap.id].(
        status := Running, lockedBy := Some(worker), lockedAt := Some(now), attemptCount := number, updatedAt := now);
      Some(db.(
        jobs := db.jobs[snap.id := row],
        attempts := db.attempts[(snap.id, number) := AttemptRow(AttemptRunning, now, None, None, worker)]))
  }

  /** `_finish_attempt`: the attempt row of the number that was read, if there is one. */
  function FinishedAttempts(db: Tables, snap: JobRecord, status: AttemptStatus, error: Option<Failure>, at: Time)
    : map<(JobId, nat), AttemptRow>
  {
    var number := (snap.id, snap.attemptCount);
    if number !in db.attempts then db.attempts
    else db.attempts[number := db.attempts[number].(status := status, error := error, finishedAt := Some(at))]
  }

  function CommitSucceeded(db: Tables, snap: JobRecord, result: Payload, now: Time, finishedAt: Time): Tables
    requires snap.id in db.jobs
  {
    var row := db.jobs[snap.id].(
      status := Succeeded, result := Some(result), lockedBy := None, lockedAt := None,
      processedAt := Some(now), updatedAt := now);
    db.(jobs := db.jobs[snap.id := row], attempts := FinishedAttempts(db, snap, AttemptSucceeded, None, finishedAt))
  }

  /** Unlike the in-memory repository, a failure that is not the last leaves `processed_at` alone. */
  function CommitFailed(db: Tables, snap: JobRecord, failure: Failure, backoff: Time, now: Time, finishedAt: Time)
    : Tables
    requires snap.id in db.jobs
  {
    var row := db.jobs[snap.id].(
      status := if Exhausted(snap) then DeadLettered else Failed, lastError := Some(failure),
      lockedBy := None, lockedAt := None, nextRunAt := now + backoff, updatedAt := now);
    db.(
      jobs := db.jobs[snap.id := if Exhausted(snap) then row.(processedAt := Some(now)) else row],
      attempts := FinishedAttempts(db, snap, AttemptFailed, Some(failure), finishedAt))
  }

  function CommitCancel(db: Tables, id: JobId, now: Time): Tables
    requires id in db.jobs
  {
    db.(jobs := db.jobs[id := db.jobs[id].(status := Cancelled, updatedAt := now, processedAt := Some(now))])
  }
}
