// The service and the worker over the PostgreSQL repository, when nobody else uses the database: they do what they
// do over the in-memory one (app/jobs/service.py:55-77, app/worker.py:51-78).
module SqlService {
  import opened Core
  import opened Jobs
  import opened MemoryRepository
  import opened Queue
  import opened Service
  import opened SqlTables
  import opened SqlRefinement

  datatype SqlWorld = SqlWorld(db: Tables, log: Log)

  /** The surroundings of a call, the readings with which its marks close the attempt row, and the one with which
      the next job is inserted after the search. */
  datatype SqlSurroundings = SqlSurroundings(call: Surroundings, succeededAt: Time, failedAt: Time, insertAt: Time)

  // ----- process_job -----

  function SqlFailAttempt(v: SqlWorld, job: JobRecord, failure: Failure, now: Time, finishedAt: Time)
    : (SqlWorld, Answer)
    requires RowIds(v.db)
  {
    var (db, updated) := SqlFail(v.db, job.id, failure, Backoff(job.attemptCount), now, finishedAt);
    match updated
    case Answered(Ok(row)) =>
      var (log, r) := Report(v.log, row);
      (SqlWorld(db, log), Perhaps(r))
    case Answered(Err(e)) => (SqlWorld(db, v.log), Perhaps(Err(e)))
    case _ => (SqlWorld(db, v.log), updated)
  }

  function SqlRecurAttempt(v: SqlWorld, job: JobRecord, succeeded: JobRecord, s: SqlSurroundings): (SqlWorld, Answer)
    requires RowIds(v.db)
  {
    var (db, next) := SqlNext(v.db, succeeded, s.call.freshId, s.call.recurAt, s.insertAt);
    match next
    case Perhaps(Ok(_)) => (SqlWorld(db, v.log), Perhaps(Ok(Some(succeeded))))
    case Perhaps(Err(e)) => SqlFailAttempt(v, job, Raised(e), s.call.failAt, s.failedAt)
    case _ => (v, next)
  }

  lemma SuccessKeepsRowIds(db: Tables, id: JobId, result: Payload, now: Time, finishedAt: Time)
    requires RowIds(db)
    ensures RowIds(SqlSucceed(db, id, result, now, finishedAt).0)
  {
  }

  function SqlFinishCall(v: SqlWorld, job: JobRecord, result: Payload, s: SqlSurroundings): (SqlWorld, Answer)
    requires RowIds(v.db)
  {
    SuccessKeepsRowIds(v.db, job.id, result, s.call.succeedAt, s.succeededAt);
    var (db, marked) := SqlSucceed(v.db, job.id, result, s.call.succeedAt, s.succeededAt);
    match marked
    case Answered(Ok(row)) => SqlRecurAttempt(SqlWorld(db, v.log), job, row, s)
    case Answered(Err(e)) => SqlFailAttempt(SqlWorld(db, v.log), job, Raised(e), s.call.failAt, s.failedAt)
    case _ => (SqlWorld(db, v.log), marked)
  }

  function SqlAttempt(v: SqlWorld, job: JobRecord, s: SqlSurroundings): (SqlWorld, Answer)
    requires RowIds(v.db)
  {
    match s.call.outcome
    case Returned(result) => SqlFinishCall(v, job, result, s)
    case Raising(message) => SqlFailAttempt(v, job, HandlerFailed(message), s.call.failAt, s.failedAt)
  }

  lemma ClaimKeepsRowIds(db: Tables, id: JobId, worker: string, now: Time)
    requires RowIds(db)
    ensures RowIds(SqlClaim(db, id, worker, now).0)
  {
  }

  function SqlProcess(v: SqlWorld, id: JobId, worker: string, s: SqlSurroundings): (SqlWorld, Answer)
    requires RowIds(v.db)
  {
    ClaimKeepsRowIds(v.db, id, worker, s.call.claimAt);
    var (db, claimed) := SqlClaim(v.db, id, worker, s.call.claimAt);
    match claimed
    case Perhaps(Ok(Some(job))) =>
      if job.handler !in HANDLERS then (SqlWorld(db, v.log), Perhaps(Err(BadRequest(UnsupportedHandler))))
      else SqlAttempt(SqlWorld(db, v.log), job, s)
    case _ => (SqlWorld(db, v.log), claimed)
  }

  // ----- rows stay under their own ids -----

  lemma FailKeepsRowIds(v: SqlWorld, job: JobRecord, failure: Failure, now: Time, finishedAt: Time)
    requires RowIds(v.db)
    ensures RowIds(SqlFailAttempt(v, job, failure, now, finishedAt).0.db)
  {
  }

  lemma RecurKeepsRowIds(v: SqlWorld, job: JobRecord, succeeded: JobRecord, s: SqlSurroundings)
    requires RowIds(v.db)
    ensures RowIds(SqlRecurAttempt(v, job, succeeded, s).0.db)
  {
    match SqlNext(v.db, succeeded, s.call.freshId, s.call.recurAt, s.insertAt).1
    case Perhaps(Err(e)) => FailKeepsRowIds(v, job, Raised(e), s.call.failAt, s.failedAt);
    case _ =>
  }

  lemma AttemptKeepsRowIds(v: SqlWorld, job: JobRecord, s: SqlSurroundings)
    requires RowIds(v.db)
    ensures RowIds(SqlAttempt(v, job, s).0.db)
  {
    match s.call.outcome
    case Raising(message) => FailKeepsRowIds(v, job, HandlerFailed(message), s.call.failAt, s.failedAt);
    case Returned(result) =>
      SuccessKeepsRowIds(v.db, job.id, result, s.call.succeedAt, s.succeededAt);
      var (db, marked) := SqlSucceed(v.db, job.id, result, s.call.succeedAt, s.succeededAt);
      match marked {
        case Answered(Ok(row)) => RecurKeepsRowIds(SqlWorld(db, v.log), job, row, s);
        case Answered(Err(e)) =>
          FailKeepsRowIds(SqlWorld(db, v.log), job, Failure.Raised(e), s.call.failAt, s.failedAt);
        case _ =>
      }
  }

  lemma ProcessKeepsRowIds(v: SqlWorld, id: JobId, worker: string, s: SqlSurroundings)
    requires RowIds(v.db)
    ensures RowIds(SqlProcess(v, id, worker, s).0.db)
  {
    ClaimKeepsRowIds(v.db, id, worker, s.call.claimAt);
    var (db, claimed) := SqlClaim(v.db, id, worker, s.call.claimAt);
    match claimed
    case Perhaps(Ok(Some(job))) => AttemptKeepsRowIds(SqlWorld(db, v.log), job, s);
    case _ =>
  }

  // ----- the relation -----

  /** The same dead letters, and as many published events, each of the same priority; ties may come in another order. */
  predicate SameLog(memory: Log, sql: Log) {
    && memory.available == sql.available && memory.deadLetters == sql.deadLetters
    && |memory.published| == |sql.published|
    && (forall i :: 0 <= i < |memory.published| ==> memory.published[i].priority == sql.published[i].priority)
  }

  ghost predicate RelatedWorlds(w: World, v: SqlWorld, late: set<JobId>) {
    Related(w.repo, v.db, late) && SameLog(w.log, v.log)
  }

  /** `late` has the ids of the next jobs that are inserted after a second reading of the clock. */
  predicate CoversCall(late: set<JobId>, s: SqlSurroundings) {
    s.call.recurAt != s.insertAt ==> s.call.freshId in late
  }

  ghost predicate SameResult(memory: Result<Option<JobRecord>>, sql: Answer, late: set<JobId>) {
    SameAnswer(Perhaps(memory), sql, late) && sql.Perhaps?
  }

  lemma FailureCases(r: Repo, db: Tables, late: set<JobId>, id: JobId, failure: Failure, backoff: Time, now: Time,
        finishedAt: Time)
    requires Related(r, db, late)
    ensures var (after, updated) := Fail(r, id, failure, backoff, now);
            var (after', updated') := SqlFail(db, id, failure, backoff, now, finishedAt);
            && Related(after, after', late)
            && (match updated
                case Ok(job) =>
                  updated'.Answered? && updated'.result.Ok? && SameRecord(job, updated'.result.value, late)
                case Err(e) => updated' == Answered(Err(e)))
  {
    FailRefines(r, db, late, id, failure, backoff, now, finishedAt);
  }

  /** From the failure on record, both go the same way: dead letter or not, and the same answer. */
  lemma ReportAlike(memory: Log, sql: Log, job: JobRecord, row: JobRecord, late: set<JobId>)
    requires SameLog(memory, sql) && SameRecord(job, row, late)
    ensures SameLog(Report(memory, job).0, Report(sql, row).0)
    ensures SameResult(Report(memory, job).1, Perhaps(Report(sql, row).1), late)
  {
  }

  /** What a job is known by does not depend on the repository. */
  lemma SameJob(job: JobRecord, row: JobRecord, late: set<JobId>)
    requires SameRecord(job, row, late)
    ensures job.id == row.id && job.attemptCount == row.attemptCount && job.handler == row.handler
  {
  }

  lemma FailedRefines(w: World, v: SqlWorld, late: set<JobId>, id: JobId, failure: Failure, backoff: Time, now: Time,
        finishedAt: Time)
    requires RelatedWorlds(w, v, late)
    ensures var (repo, updated) := Fail(w.repo, id, failure, backoff, now);
            var (db, written) := SqlFail(v.db, id, failure, backoff, now, finishedAt);
            && Related(repo, db, late)
            && (match updated
                case Err(e) => written == Answered(Err(e))
                case Ok(job) =>
                  && written.Answered? && written.result.Ok?
                  && SameLog(Report(w.log, job).0, Report(v.log, written.result.value).0)
                  && SameResult(Report(w.log, job).1, Perhaps(Report(v.log, written.result.value).1), late))
  {
    FailureCases(w.repo, v.db, late, id, failure, backoff, now, finishedAt);
    var updated := Fail(w.repo, id, failure, backoff, now).1;
    if updated.Ok? {
      var written := SqlFail(v.db, id, failure, backoff, now, finishedAt).1;
      ReportAlike(w.log, v.log, updated.value, written.result.value, late);
    }
  }

  lemma FailAttemptRefines(w: World, v: SqlWorld, late: set<JobId>, job: JobRecord, row: JobRecord, failure: Failure,
        now: Time, finishedAt: Time)
    requires RelatedWorlds(w, v, late) && SameRecord(job, row, late)
    ensures var (after, r) := FailAttempt(w, job, failure, now);
            var (after', r') := SqlFailAttempt(v, row, failure, now, finishedAt);
            RelatedWorlds(after, after', late) && SameResult(r, r', late)
  {
    SameJob(job, row, late);
    FailedRefines(w, v, late, job.id, failure, Backoff(job.attemptCount), now, finishedAt);
  }

  /** Either both repositories add a next job or none is due, or both searches raise and nothing changes. */
  lemma NextCases(r: Repo, db: Tables, late: set<JobId>, id: JobId, freshId: JobId, scanAt: Time, insertAt: Time)
    requires Related(r, db, late) && id in r.jobs && id in db.jobs && freshId !in r.jobs
    requires scanAt != insertAt ==> freshId in late
    ensures var (after, next) := CreateNext(r, r.jobs[id], freshId, scanAt);
            var (after', next') := SqlNext(db, db.jobs[id], freshId, scanAt, insertAt);
            match next
            case Ok(_) => next'.Perhaps? && next'.found.Ok? && Related(after, after', late)
            case Err(e) => next' == Perhaps(Err(e)) && after == r
  {
    NextRefines(r, db, late, id, freshId, scanAt, insertAt);
  }

  lemma RaisedNextRefines(w: World, v: SqlWorld, late: set<JobId>, job: JobRecord, row: JobRecord, s: SqlSurroundings,
        e: ServiceError)
    requires RelatedWorlds(w, v, late) && SameRecord(job, row, late)
    requires job.id in w.repo.jobs && job.id in v.db.jobs
    requires CreateNext(w.repo, w.repo.jobs[job.id], s.call.freshId, s.call.recurAt) == (w.repo, Err(e))
    requires SqlNext(v.db, v.db.jobs[job.id], s.call.freshId, s.call.recurAt, s.insertAt).1 == Perhaps(Err(e))
    ensures var (after, r) := RecurAttempt(w, job, w.repo.jobs[job.id], s.call);
            var (after', r') := SqlRecurAttempt(v, row, v.db.jobs[job.id], s);
            RelatedWorlds(after, after', late) && SameResult(r, r', late)
  {
    FailAttemptRefines(w, v, late, job, row, Raised(e), s.call.failAt, s.failedAt);
  }

  lemma RecurAttemptRefines(w: World, v: SqlWorld, late: set<JobId>, job: JobRecord, row: JobRecord, s: SqlSurroundings)
    requires RelatedWorlds(w, v, late) && SameRecord(job, row, late)
    requires s.call.freshId !in w.repo.jobs && CoversCall(late, s)
    requires job.id in w.repo.jobs && job.id in v.db.jobs && SameRecord(w.repo.jobs[job.id], v.db.jobs[job.id], late)
    ensures var (after, r) := RecurAttempt(w, job, w.repo.jobs[job.id], s.call);
            var (after', r') := SqlRecurAttempt(v, row, v.db.jobs[job.id], s);
            RelatedWorlds(after, after', late) && SameResult(r, r', late)
  {
    NextCases(w.repo, v.db, late, job.id, s.call.freshId, s.call.recurAt, s.insertAt);
    var next := CreateNext(w.repo, w.repo.jobs[job.id], s.call.freshId, s.call.recurAt).1;
    if next.Err? {
      RaisedNextRefines(w, v, late, job, row, s, next.error);
    }
  }

  lemma SuccessCase(r: Repo, db: Tables, late: set<JobId>, id: JobId, result: Payload, now: Time, finishedAt: Time)
    requires Related(r, db, late) && id in r.jobs
    ensures var (after, marked) := Succeed(r, id, result, now);
            var (after', marked') := SqlSucceed(db, id, result, now, finishedAt);
            && Related(after, after', late) && after.jobs.Keys == r.jobs.Keys && id in after'.jobs
            && marked == Ok(after.jobs[id]) && marked' == Answered(Ok(after'.jobs[id]))
            && SameRecord(after.jobs[id], after'.jobs[id], late)
  {
    SucceedRefines(r, db, late, id, result, now, finishedAt);
  }

  lemma FinishAttemptIs(w: World, job: JobRecord, result: Payload, s: Surroundings)
    requires job.id in w.repo.jobs
    ensures var (repo, marked) := Succeed(w.repo, job.id, result, s.succeedAt);
            marked.Ok? && FinishAttempt(w, job, result, s) == RecurAttempt(World(repo, w.log), job, marked.value, s)
  {
  }

  lemma SqlFinishCallIs(v: SqlWorld, job: JobRecord, result: Payload, s: SqlSurroundings)
    requires RowIds(v.db)
    requires SqlSucceed(v.db, job.id, result, s.call.succeedAt, s.succeededAt).1.Answered?
    requires SqlSucceed(v.db, job.id, result, s.call.succeedAt, s.succeededAt).1.result.Ok?
    ensures var (db, marked) := SqlSucceed(v.db, job.id, result, s.call.succeedAt, s.succeededAt);
            && RowIds(db)
            && SqlFinishCall(v, job, result, s) == SqlRecurAttempt(SqlWorld(db, v.log), job, marked.result.value, s)
  {
    SuccessKeepsRowIds(v.db, job.id, result, s.call.succeedAt, s.succeededAt);
  }

  lemma FinishCallRefines(w: World, v: SqlWorld, late: set<JobId>, job: JobRecord, row: JobRecord, result: Payload,
        s: SqlSurroundings)
    requires RelatedWorlds(w, v, late) && SameRecord(job, row, late) && job.id in w.repo.jobs
    requires s.call.freshId !in w.repo.jobs && CoversCall(late, s)
    ensures var (after, r) := FinishAttempt(w, job, result, s.call);
            var (after', r') := SqlFinishCall(v, row, result, s);
            RelatedWorlds(after, after', late) && SameResult(r, r', late)
  {
    SuccessCase(w.repo, v.db, late, job.id, result, s.call.succeedAt, s.succeededAt);
    var marked := World(Succeed(w.repo, job.id, result, s.call.succeedAt).0, w.log);
    var marked' := SqlWorld(SqlSucceed(v.db, job.id, result, s.call.succeedAt, s.succeededAt).0, v.log);
    RecurAttemptRefines(marked, marked', late, job, row, s);
    FinishAttemptIs(w, job, result, s.call);
    SqlFinishCallIs(v, row, result, s);
  }

  lemma ClaimLeaves(r: Repo, id: JobId, worker: string, now: Time)
    requires WellFormed(r)
    ensures var (after, claimed) := Claim(r, id, worker, now);
            after.jobs.Keys == r.jobs.Keys && (claimed.Some? ==> claimed.value.id == id && id in after.jobs)
  {
  }

  lemma ClaimCases(r: Repo, db: Tables, late: set<JobId>, id: JobId, worker: string, now: Time)
    requires Related(r, db, late)
    ensures var (after, claimed) := Claim(r, id, worker, now);
            var (after', claimed') := SqlClaim(db, id, worker, now);
            && Related(after, after', late) && after.jobs.Keys == r.jobs.Keys
            && (match claimed
                case None => claimed' == Perhaps(Ok(None))
                case Some(job) =>
                  && claimed'.Perhaps? && claimed'.found.Ok? && claimed'.found.value.Some?
                  && SameRecord(job, claimed'.found.value.value, late) && job.id == id && id in after.jobs)
  {
    ClaimRefines(r, db, late, id, worker, now);
    ClaimLeaves(r, id, worker, now);
  }

  lemma AttemptRefines(w: World, v: SqlWorld, late: set<JobId>, job: JobRecord, row: JobRecord, s: SqlSurroundings)
    requires RelatedWorlds(w, v, late) && SameRecord(job, row, late) && job.id in w.repo.jobs
    requires s.call.freshId !in w.repo.jobs && CoversCall(late, s)
    ensures var (after, r) := Attempt(w, job, s.call);
            var (after', r') := SqlAttempt(v, row, s);
            RelatedWorlds(after, after', late) && SameResult(r, r', late)
  {
    match s.call.outcome
    case Returned(result) => FinishCallRefines(w, v, late, job, row, result, s);
    case Raising(message) =>
      FailAttemptRefines(w, v, late, job, row, HandlerFailed(message), s.call.failAt, s.failedAt);
  }

  lemma ClaimedRefines(w: World, v: SqlWorld, late: set<JobId>, id: JobId, worker: string, s: SqlSurroundings,
        repo: Repo, job: JobRecord, db: Tables, row: JobRecord)
    requires RowIds(v.db) && SameLog(w.log, v.log)
    requires Claim(w.repo, id, worker, s.call.claimAt) == (repo, Some(job))
    requires SqlClaim(v.db, id, worker, s.call.claimAt) == (db, Perhaps(Ok(Some(row))))
    requires Related(repo, db, late) && SameRecord(job, row, late) && job.id in repo.jobs
    requires s.call.freshId !in repo.jobs && CoversCall(late, s)
    ensures var (after, r) := Process(w, id, worker, s.call);
            var (after', r') := SqlProcess(v, id, worker, s);
            RelatedWorlds(after, after', late) && SameResult(r, r', late)
  {
    if job.handler in HANDLERS {
      AttemptRefines(World(repo, w.log), SqlWorld(db, v.log), late, job, row, s);
    }
  }

  /** One call of `process_job` over related repositories leaves them related, sends the same dead letters and
      returns the same record. */
  lemma ProcessRefines(w: World, v: SqlWorld, late: set<JobId>, id: JobId, worker: string, s: SqlSurroundings)
    requires RelatedWorlds(w, v, late) && s.call.freshId !in w.repo.jobs && CoversCall(late, s)
    ensures var (after, r) := Process(w, id, worker, s.call);
            var (after', r') := SqlProcess(v, id, worker, s);
            RelatedWorlds(after, after', late) && SameResult(r, r', late)
  {
    ClaimCases(w.repo, v.db, late, id, worker, s.call.claimAt);
    var (repo, claimed) := Claim(w.repo, id, worker, s.call.claimAt);
    var (db, claimed') := SqlClaim(v.db, id, worker, s.call.claimAt);
    match claimed
    case None =>
    case Some(job) => ClaimedRefines(w, v, late, id, worker, s, repo, job, db, claimed'.found.value.value);
  }

  // ----- publish_due_jobs and the worker's loop -----

  /** The service publishes the rows the scan returned. */
  function SqlPublishDue(v: SqlWorld, rows: seq<JobId>): (SqlWorld, Result<()>)
    requires forall id :: id in rows ==> id in v.db.jobs
  {
    var (log, sent) := PublishAll(v.log, Rows(v.db, rows));
    (SqlWorld(v.db, log), sent)
  }

  /** With the producer up, one event per row is sent, in order, telling of that row; with it down, nothing is, and that
      raises if there is any row. The tables do not change. */
  lemma SqlPublishesRows(v: SqlWorld, rows: seq<JobId>)
    requires forall id :: id in rows ==> id in v.db.jobs
    ensures var (after', sent) := SqlPublishDue(v, rows);
            && after'.db == v.db && after'.log == v.log.(published := after'.log.published)
            && if v.log.available || rows == [] then
                 && sent == Ok(()) && |after'.log.published| == |v.log.published| + |rows|
                 && after'.log.published[..|v.log.published|] == v.log.published
                 && forall i :: 0 <= i < |rows| ==>
                      Announces(after'.log.published[|v.log.published| + i], v.db.jobs[rows[i]])
               else after' == v && sent == Err(DependencyUnavailable)
  {
    PublishAllSends(v.log, Rows(v.db, rows));
    assert rows == [] ==> PublishAll(v.log, Rows(v.db, rows)) == (v.log, Ok(()));
  }

  lemma EventsSamePriorities(w: World, v: SqlWorld, late: set<JobId>, limit: nat, now: Time, rows: seq<JobId>,
        all: seq<JobId>)
    requires RelatedWorlds(w, v, late) && SqlDue(v.db, limit, now, rows, all)
    ensures forall id :: id in rows ==> id in v.db.jobs
    ensures var events, events' := Events(Due(w.repo, limit, now)), Events(Rows(v.db, rows));
            |events| == |events'| && forall i :: 0 <= i < |events| ==> events[i].priority == events'[i].priority
  {
    DueScansAgree(w.repo, v.db, late, limit, now, rows, all);
    var due := Due(w.repo, limit, now);
    forall i | 0 <= i < |rows| ensures rows[i] in v.db.jobs && due[i].priority == v.db.jobs[rows[i]].priority {
      assert SameRecord(w.repo.jobs[rows[i]], v.db.jobs[rows[i]], late);
    }
  }

  lemma SameLogAfter(memory: Log, sql: Log, jobs: seq<JobRecord>, rows: seq<JobRecord>)
    requires SameLog(memory, sql) && |jobs| == |rows|
    requires forall i :: 0 <= i < |jobs| ==> Events(jobs)[i].priority == Events(rows)[i].priority
    ensures SameLog(PublishAll(memory, jobs).0, PublishAll(sql, rows).0)
    ensures PublishAll(memory, jobs).1 == PublishAll(sql, rows).1
  {
    PublishAllSends(memory, jobs);
    PublishAllSends(sql, rows);
  }

  lemma PublishDueRefines(w: World, v: SqlWorld, late: set<JobId>, limit: nat, now: Time, rows: seq<JobId>,
        all: seq<JobId>)
    requires RelatedWorlds(w, v, late) && SqlDue(v.db, limit, now, rows, all)
    ensures forall id :: id in rows ==> id in v.db.jobs
    ensures var (log, sent) := PublishAll(w.log, Due(w.repo, limit, now));
            var (after', sent') := SqlPublishDue(v, rows);
            RelatedWorlds(World(w.repo, log), after', late) && sent == sent'
  {
    EventsSamePriorities(w, v, late, limit, now, rows, all);
    SameLogAfter(w.log, v.log, Due(w.repo, limit, now), Rows(v.db, rows));
  }
}
