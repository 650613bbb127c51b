// The job record, the request that creates one, and the retry delay
// (app/jobs/repositories.py, app/jobs/schemas.py, app/jobs/service.py).
module Jobs {
  import opened Core
  import CronText

  type JobId = nat

  /** A payload stands for its compact JSON encoding; nothing looks inside. */
  type Payload = seq<bv8>

  /** The text kept in `last_error`: a handler's message, or an exception raised beside the handler. */
  datatype Failure = HandlerFailed(message: string) | Raised(error: ServiceError)

  datatype JobRecord = JobRecord(
    id: JobId,
    handler: string,
    payload: Payload,
    status: JobStatus,
    priority: int,
    maxRetries: nat,
    timeoutSeconds: nat,
    attemptCount: nat,
    nextRunAt: Time,
    runAt: Option<Time>,
    recurringCron: Option<string>,
    lockedBy: Option<string>,
    lockedAt: Option<Time>,
    kafkaMessageKey: JobId,
    lastError: Option<Failure>,
    result: Option<Payload>,
    idempotencyKey: Option<string>,
    createdAt: Time,
    updatedAt: Time,
    processedAt: Option<Time>)

  datatype Submission = Submission(
    handler: string,
    payload: Payload,
    priority: int,
    maxRetries: nat,
    timeoutSeconds: nat,
    runAt: Option<Time>,
    recurringCron: Option<string>,
    idempotencyKey: Option<string>)

  /** A recurrence chain and a job's place in it. */
  datatype Lineage = Lineage(origin: JobId, generation: nat)

  /** The bounds `JobCreate` puts on a request; its validator stores the normalised expression
      (app/jobs/schemas.py:11-31). */
  predicate AcceptedBySchema(r: Submission) {
    && 0 <= r.priority <= 10
    && r.maxRetries <= 10
    && 1 <= r.timeoutSeconds <= 300
    && (r.idempotencyKey.Some? ==> 1 <= |r.idempotencyKey.value| <= 200)
    && (r.recurringCron.Some? ==> CronText.Normalised(r.recurringCron.value))
  }

  type JobCreate = r: Submission | AcceptedBySchema(r)
    witness Submission("echo", [], 0, 3, 30, None, None, None)

  predicate IsPending(status: JobStatus) {
    status == Queued || status == Failed
  }

  predicate IsTerminal(status: JobStatus) {
    status == Succeeded || status == DeadLettered || status == Cancelled
  }

  predicate IsLive(status: JobStatus) {
    IsPending(status) || status == Running
  }

  predicate IsDue(job: JobRecord, now: Time) {
    IsPending(job.status) && job.nextRunAt <= now
  }

  predicate Exhausted(job: JobRecord) {
    job.attemptCount > job.maxRetries
  }

  /** What a job is to do and how: never changed, and handed on when it recurs. */
  datatype Work = Work(
    handler: string,
    payload: Payload,
    priority: int,
    maxRetries: nat,
    timeoutSeconds: nat,
    recurringCron: Option<string>)

  function WorkOf(job: JobRecord): Work {
    Work(job.handler, job.payload, job.priority, job.maxRetries, job.timeoutSeconds, job.recurringCron)
  }

  function RequestedWork(request: Submission): Work {
    Work(
      request.handler, request.payload, request.priority, request.maxRetries, request.timeoutSeconds,
      request.recurringCron)
  }

  /** The columns fixed at creation agree. */
  predicate SameIdentity(a: JobRecord, b: JobRecord) {
    && WorkOf(a) == WorkOf(b) && a.id == b.id && a.runAt == b.runAt && a.kafkaMessageKey == b.kafkaMessageKey
    && a.idempotencyKey == b.idempotencyKey && a.createdAt == b.createdAt
  }

  function NewJob(request: JobCreate, id: JobId, now: Time): JobRecord {
    JobRecord(
      id, request.handler, request.payload, Queued, request.priority, request.maxRetries, request.timeoutSeconds, 0,
      if request.runAt.Some? && request.runAt.value > now then request.runAt.value else now,
      request.runAt, request.recurringCron, None, None, id, None, None, request.idempotencyKey, now, now, None)
  }

  function NextJob(job: JobRecord, id: JobId, slot: Time, now: Time): JobRecord {
    JobRecord(
      id, job.handler, job.payload, Queued, job.priority, job.maxRetries, job.timeoutSeconds, 0,
      slot, Some(slot), job.recurringCron, None, None, id, None, None, None, now, now, None)
  }

  function Claimed(job: JobRecord, worker: string, now: Time): JobRecord {
    job.(status := Running, lockedBy := Some(worker), lockedAt := Some(now),
         attemptCount := job.attemptCount + 1, updatedAt := now)
  }

  function MarkedSucceeded(job: JobRecord, result: Payload, now: Time): JobRecord {
    job.(status := Succeeded, result := Some(result), lockedBy := None, lockedAt := None,
         updatedAt := now, processedAt := Some(now))
  }

  function MarkedFailed(job: JobRecord, failure: Failure, backoff: Time, now: Time): JobRecord {
    job.(status := if Exhausted(job) then DeadLettered else Failed, lastError := Some(failure),
         lockedBy := None, lockedAt := None, nextRunAt := now + backoff, updatedAt := now,
         processedAt := if Exhausted(job) then Some(now) else None)
  }

  function MarkedCancelled(job: JobRecord, now: Time): JobRecord {
    job.(status := Cancelled, updatedAt := now, processedAt := Some(now))
  }

  // ----- what each operation leaves, column by column -----

  /** A job as requested: not started, and due at once or at `run_at`, whichever is later. */
  predicate IsRequested(job: JobRecord, request: Submission, id: JobId, now: Time) {
    && job.id == id && job.kafkaMessageKey == id && job.handler == request.handler && job.payload == request.payload
    && job.priority == request.priority && job.maxRetries == request.maxRetries
    && job.timeoutSeconds == request.timeoutSeconds && job.runAt == request.runAt
    && job.recurringCron == request.recurringCron && job.idempotencyKey == request.idempotencyKey
    && job.status == Queued && job.attemptCount == 0 && job.createdAt == now && job.updatedAt == now
    && now <= job.nextRunAt && (job.runAt.Some? ==> job.runAt.value <= job.nextRunAt)
    && (job.nextRunAt == now || job.runAt == Some(job.nextRunAt))
    && job.lockedBy == None && job.lockedAt == None && job.lastError == None && job.result == None
    && job.processedAt == None
  }

  /** The next job of a recurring one: the same work, not started, due at its slot, and without a key. */
  predicate IsNextOf(next: JobRecord, job: JobRecord, id: JobId, slot: Time, now: Time) {
    && next.id == id && next.kafkaMessageKey == id && next.handler == job.handler && next.payload == job.payload
    && next.priority == job.priority && next.maxRetries == job.maxRetries
    && next.timeoutSeconds == job.timeoutSeconds && next.recurringCron == job.recurringCron
    && next.runAt == Some(slot) && next.nextRunAt == slot && next.idempotencyKey == None
    && next.status == Queued && next.attemptCount == 0 && next.createdAt == now && next.updatedAt == now
    && next.lockedBy == None && next.lockedAt == None && next.lastError == None && next.result == None
    && next.processedAt == None
  }

  /** Started by a worker: locked in its name, with one attempt more. */
  predicate IsStarted(after: JobRecord, before: JobRecord, worker: string, now: Time) {
    && SameIdentity(after, before) && after.status == Running && after.attemptCount == before.attemptCount + 1
    && after.lockedBy == Some(worker) && after.lockedAt == Some(now) && after.updatedAt == now
    && after.nextRunAt == before.nextRunAt && after.lastError == before.lastError && after.result == before.result
    && after.processedAt == before.processedAt
  }

  /** Ended well: the result kept, the lock released. */
  predicate IsSucceeded(after: JobRecord, before: JobRecord, result: Payload, now: Time) {
    && SameIdentity(after, before) && after.status == Succeeded && after.attemptCount == before.attemptCount
    && after.lockedBy == None && after.lockedAt == None && after.updatedAt == now
    && after.nextRunAt == before.nextRunAt && after.lastError == before.lastError && after.result == Some(result)
    && after.processedAt == Some(now)
  }

  /** Ended badly: the error kept, the lock released, a retry due after the delay, or the job given up when its
      attempts exceed its retries. What becomes of `processed_at` is the repository's affair. */
  predicate IsFailed(after: JobRecord, before: JobRecord, failure: Failure, delay: Time, now: Time) {
    && SameIdentity(after, before) && after.attemptCount == before.attemptCount
    && after.status == (if before.attemptCount > before.maxRetries then DeadLettered else Failed)
    && after.lockedBy == None && after.lockedAt == None && after.updatedAt == now
    && after.nextRunAt == now + delay && after.lastError == Some(failure) && after.result == before.result
  }

  /** Called off. */
  predicate IsCancelled(after: JobRecord, before: JobRecord, now: Time) {
    && SameIdentity(after, before) && after.status == Cancelled && after.attemptCount == before.attemptCount
    && after.lockedBy == before.lockedBy && after.lockedAt == before.lockedAt && after.updatedAt == now
    && after.nextRunAt == before.nextRunAt && after.lastError == before.lastError && after.result == before.result
    && after.processedAt == Some(now)
  }

  /** How many attempts a job has had in each state of its life. */
  predicate RetryShape(job: JobRecord) {
    match job.status
    case Queued => job.attemptCount == 0
    case Failed => 1 <= job.attemptCount <= job.maxRetries
    case Running => 1 <= job.attemptCount <= job.maxRetries + 1
    case Succeeded => 1 <= job.attemptCount <= job.maxRetries + 1
    case DeadLettered => job.attemptCount == job.maxRetries + 1
    case Cancelled => job.attemptCount <= job.maxRetries + 1
  }

  // ----- retry delay -----

  function Pow2(n: nat): nat {
    if n == 0 then 1 else 2 * Pow2(n - 1)
  }

  /** The powers of two that are delays, in figures. */
  lemma PowersOfTwo()
    ensures [Pow2(0), Pow2(1), Pow2(2), Pow2(3), Pow2(4), Pow2(5), Pow2(6), Pow2(7), Pow2(8)] ==
            [1, 2, 4, 8, 16, 32, 64, 128, 256]
  {
    assert Pow2(1) == 2 && Pow2(2) == 4 && Pow2(3) == 8 && Pow2(4) == 16;
    assert Pow2(5) == 32 && Pow2(6) == 64 && Pow2(7) == 128;
  }

  /** A retry after attempt n: 1, 2, 4 seconds and so on up to 256 after the ninth, then always 300. */
  function RetryDelay(n: nat): Time {
    (if n == 0 then 1 else if n <= 9 then Pow2(n - 1) else 300) * 1_000_000
  }

  function BackoffSeconds(attemptCount: nat): nat {
    var doubled := Pow2(if attemptCount > 0 then attemptCount - 1 else 0);
    if doubled < 300 then doubled else 300
  }

  function Backoff(attemptCount: nat): Time {
    BackoffSeconds(attemptCount) * 1_000_000
  }

  /** Delay that the attempts before attempt `n` add up to. */
  function BackoffBefore(n: nat): nat {
    if n <= 1 then 0 else BackoffBefore(n - 1) + BackoffSeconds(n - 1)
  }

  lemma {:induction false} Pow2AtLeast(n: nat)
    requires n >= 9
    ensures Pow2(n) >= 512
  {
    if n == 9 {
      assert Pow2(6) == 64;
    } else {
      Pow2AtLeast(n - 1);
    }
  }

  lemma {:induction false} Pow2AtMost(n: nat)
    requires n <= 8
    ensures Pow2(n) <= 256
    decreases 8 - n
  {
    if n < 8 {
      Pow2AtMost(n + 1);
    } else {
      assert Pow2(4) == 16;
    }
  }

  /** The delay the service computes is the one promised, in microseconds. */
  lemma BackoffIsRetryDelay(n: nat)
    ensures Backoff(n) == RetryDelay(n)
  {
    if n >= 10 {
      Pow2AtLeast(n - 1);
    } else if n > 0 {
      Pow2AtMost(n - 1);
    }
  }

  /** The delays double up to 256 seconds and then stay at 300: 2^(n-1) - 1 in all before attempt n <= 10,
      and 300 more for every attempt after that. */
  lemma {:induction false} BackoffBeforeClosedForm(n: nat)
    requires n >= 1
    ensures BackoffBefore(n) == (if n <= 10 then Pow2(n - 1) - 1 else 511 + 300 * (n - 10))
  {
    if n == 1 {
    } else {
      BackoffBeforeClosedForm(n - 1);
      if n <= 10 {
        Pow2AtMost(n - 2);
      } else {
        Pow2AtLeast(n - 2);
        assert Pow2(5) == 32 && Pow2(9) == 512;
      }
    }
  }
}
