// Used sequentially, the PostgreSQL repository answers as the in-memory one does.
module SqlRefinement {
  import opened Core
  import opened Jobs
  import opened Ordering
  import opened MemoryRepository
  import opened SqlTables
  import opened SqlInvariant
  import opened Draining
  import CronSearch

  /** One repository call. Ids of new jobs are fresh; a mark reads the clock again for the attempt row, and in
      PostgreSQL the insert of a next job reads it again after the search. */
  datatype Call =
    | CallCreate(request: JobCreate, id: JobId, now: Time)
    | CallGet(job: JobId)
    | CallClaim(job: JobId, worker: string, now: Time)
    | CallSucceed(job: JobId, result: Payload, now: Time, finishedAt: Time)
    | CallFail(job: JobId, failure: Failure, backoff: Time, now: Time, finishedAt: Time)
    | CallNext(job: JobId, id: JobId, scanAt: Time, insertAt: Time)
    | CallCancel(job: JobId, now: Time)
    | CallDrain(enabled: bool)

  datatype Answer =
    | Created(job: JobRecord, replay: bool)
    | Answered(result: Result<JobRecord>)
    | Perhaps(found: Result<Option<JobRecord>>)
    | IntegrityError
    | Nothing

  predicate FreshCall(ids: set<JobId>, call: Call) {
    match call
    case CallCreate(_, id, _) => id !in ids
    case CallNext(job, id, _, _) => id !in ids && job in ids
    case _ => true
  }

  // ----- the in-memory repository -----

  function MemoryCall(r: Repo, call: Call): (Repo, Answer)
    requires IndexInverts(r) && FreshCall(r.jobs.Keys, call)
  {
    match call
    case CallCreate(request, id, now) =>
      var (after, job, replay) := Create(r, request, id, now);
      (after, Created(job, replay))
    case CallGet(id) =>
      (r, Answered(Get(r, id)))
    case CallClaim(id, worker, now) =>
      var (after, claimed) := Claim(r, id, worker, now);
      (after, Perhaps(Ok(claimed)))
    case CallSucceed(id, result, now, _) =>
      var (after, job) := Succeed(r, id, result, now);
      (after, Answered(job))
    case CallFail(id, failure, backoff, now, _) =>
      var (after, job) := Fail(r, id, failure, backoff, now);
      (after, Answered(job))
    case CallNext(id, freshId, scanAt, _) =>
      var (after, next) := CreateNext(r, r.jobs[id], freshId, scanAt);
      (after, Perhaps(next))
    case CallCancel(id, now) =>
      var (after, job) := Cancel(r, id, now);
      (after, Answered(job))
    case CallDrain(enabled) =>
      (r.(drain := enabled), Nothing)
  }

  // ----- the same calls as transactions, each reading and committing with nothing in between -----

  ghost function FindKey(db: Tables, key: string): JobId
    requires HasKey(db, key)
  {
    var id :| id in db.jobs && db.jobs[id].idempotencyKey == Some(key); id
  }

  function SqlGet(db: Tables, id: JobId): Answer {
    Answered(if id in db.jobs then Ok(db.jobs[id]) else Err(NotFound))
  }

  /** Rows are found under their own id. */
  ghost predicate RowIds(db: Tables) {
    forall id :: id in db.jobs ==> db.jobs[id].id == id
  }

  ghost function SqlCreate(db: Tables, request: JobCreate, id: JobId, now: Time): (Tables, Answer) {
    if KeyTaken(db, request.idempotencyKey) then (db, Created(db.jobs[FindKey(db, request.idempotencyKey.value)], true))
    else
      match InsertJob(db, NewJob(request, id, now))
      case None => (db, IntegrityError)
      case Some(after) => (after, Created(after.jobs[id], false))
  }

  function SqlClaim(db: Tables, id: JobId, worker: string, now: Time): (Tables, Answer)
    requires RowIds(db)
  {
    if db.drain || id !in db.jobs || !IsDue(db.jobs[id], now) then (db, Perhaps(Ok(None)))
    else
      match CommitClaim(db, db.jobs[id], worker, now)
      case None => (db, IntegrityError)
      case Some(after) => (after, Perhaps(Ok(Some(after.jobs[id]))))
  }

  function SqlSucceed(db: Tables, id: JobId, result: Payload, now: Time, finishedAt: Time): (Tables, Answer)
    requires RowIds(db)
  {
    if id !in db.jobs then (db, Answered(Err(NotFound)))
    else var after := CommitSucceeded(db, db.jobs[id], result, now, finishedAt); (after, SqlGet(after, id))
  }

  function SqlFail(db: Tables, id: JobId, failure: Failure, backoff: Time, now: Time, finishedAt: Time)
    : (Tables, Answer)
    requires RowIds(db)
  {
    if id !in db.jobs then (db, Answered(Err(NotFound)))
    else var after := CommitFailed(db, db.jobs[id], failure, backoff, now, finishedAt); (after, SqlGet(after, id))
  }

  function SqlInsertNext(db: Tables, next: JobRecord): (Tables, Answer) {
    match InsertJob(db, next)
    case None => (db, IntegrityError)
    case Some(after) => (after, Perhaps(Ok(Some(after.jobs[next.id]))))
  }

  function SqlNext(db: Tables, job: JobRecord, freshId: JobId, scanAt: Time, insertAt: Time): (Tables, Answer) {
    if job.recurringCron.None? || job.recurringCron.value == [] then (db, Perhaps(Ok(None)))
    else
      match CronSearch.NextRun(job.recurringCron.value, scanAt)
      case Err(e) => (db, Perhaps(Err(e)))
      case Ok(slot) => SqlInsertNext(db, NextJob(job, freshId, slot, insertAt))
  }

  function SqlCancel(db: Tables, id: JobId, now: Time): (Tables, Answer) {
    if id !in db.jobs then (db, Answered(Err(NotFound)))
    else if !IsPending(db.jobs[id].status) then (db, Answered(Err(Conflict(db.jobs[id].status))))
    else var after := CommitCancel(db, id, now); (after, SqlGet(after, id))
  }

  ghost function SqlCall(db: Tables, call: Call): (Tables, Answer)
    requires RowIds(db) && FreshCall(db.jobs.Keys, call)
  {
    match call
    case CallCreate(request, id, now) => SqlCreate(db, request, id, now)
    case CallGet(id) => (db, SqlGet(db, id))
    case CallClaim(id, worker, now) => SqlClaim(db, id, worker, now)
    case CallSucceed(id, result, now, finishedAt) => SqlSucceed(db, id, result, now, finishedAt)
    case CallFail(id, failure, backoff, now, finishedAt) => SqlFail(db, id, failure, backoff, now, finishedAt)
    case CallNext(id, freshId, scanAt, insertAt) => SqlNext(db, db.jobs[id], freshId, scanAt, insertAt)
    case CallCancel(id, now) => SqlCancel(db, id, now)
    case CallDrain(enabled) => (db.(drain := enabled), Nothing)
  }

  // ----- the relation -----

  /** The record, with the row's times of creation and last change if its id is in `late`. */
  function Restamped(memory: JobRecord, sql: JobRecord, late: set<JobId>): JobRecord {
    if memory.id in late then memory.(createdAt := sql.createdAt, updatedAt := sql.updatedAt) else memory
  }

  /** Equal but for `processed_at`, which is equal for terminal jobs and never set in memory for others, and, for the
      jobs in `late`, whose insert read the clock after their search, for the times of creation and last change. */
  predicate SameRecord(memory: JobRecord, sql: JobRecord, late: set<JobId>) {
    && sql.(processedAt := None) == Restamped(memory, sql, late).(processedAt := None)
    && (if IsTerminal(memory.status) then memory.processedAt == sql.processedAt else memory.processedAt == None)
  }

  ghost predicate RelatedRows(r: Repo, db: Tables, late: set<JobId>) {
    && Contiguous(db) && RowIds(db)
    && r.jobs.Keys == db.jobs.Keys && r.drain == db.drain
    && (forall id :: id in r.jobs ==> SameRecord(r.jobs[id], db.jobs[id], late))
  }

  ghost predicate Related(r: Repo, db: Tables, late: set<JobId>) {
    WellFormed(r) && RelatedRows(r, db, late)
  }

  predicate SameAnswer(memory: Answer, sql: Answer, late: set<JobId>) {
    match (memory, sql)
    case (Created(a, replayA), Created(b, replayB)) => SameRecord(a, b, late) && replayA == replayB
    case (Answered(Ok(a)), Answered(Ok(b))) => SameRecord(a, b, late)
    case (Perhaps(Ok(Some(a))), Perhaps(Ok(Some(b)))) => SameRecord(a, b, late)
    case _ => memory == sql
  }

  /** The job recurs, and its expression has a run after the given moment. */
  predicate SearchFinds(job: JobRecord, scanAt: Time) {
    && job.recurringCron.Some? && job.recurringCron.value != []
    && CronSearch.NextRun(job.recurringCron.value, scanAt).Ok?
  }

  /** `late` has the ids of the jobs whose insert reads the clock after their search. */
  predicate Covers(late: set<JobId>, call: Call) {
    call.CallNext? && call.scanAt != call.insertAt ==> call.id in late
  }

  lemma RowsWritten(r: Repo, db: Tables, late: set<JobId>, id: JobId, memory: JobRecord, r': Repo, db': Tables)
    requires RelatedRows(r, db, late)
    requires r'.jobs == r.jobs[id := memory] && r'.drain == r.drain
    requires id in db'.jobs && db'.jobs == db.jobs[id := db'.jobs[id]] && db'.drain == db.drain && Contiguous(db')
    requires SameRecord(memory, db'.jobs[id], late) && db'.jobs[id].id == id
    ensures RelatedRows(r', db', late)
  {
  }

  /** Writing related records under one id, the attempts kept contiguous, keeps the relation. */
  lemma WriteKeepsRelated(r: Repo, db: Tables, late: set<JobId>, id: JobId, memory: JobRecord, db': Tables)
    requires Related(r, db, late) && id in r.jobs
    requires memory.id == id && memory.idempotencyKey == r.jobs[id].idempotencyKey
    requires id in db'.jobs && db'.jobs == db.jobs[id := db'.jobs[id]] && db'.drain == db.drain && Contiguous(db')
    requires SameRecord(memory, db'.jobs[id], late) && db'.jobs[id].id == id
    ensures Related(Put(r, id, memory), db', late)
  {
    PutKeepsWellFormed(r, id);
    RowsWritten(r, db, late, id, memory, Put(r, id, memory), db');
  }

  lemma SequentialClaimCommits(db: Tables, id: JobId, worker: string, now: Time) returns (after: Tables)
    requires Contiguous(db) && RowIds(db) && id in db.jobs && !db.drain && IsDue(db.jobs[id], now)
    ensures Contiguous(after) && after.drain == db.drain
    ensures after.jobs == db.jobs[id := Claimed(db.jobs[id], worker, now)]
    ensures SqlClaim(db, id, worker, now) == (after, Perhaps(Ok(Some(Claimed(db.jobs[id], worker, now)))))
  {
    after := CommitClaim(db, db.jobs[id], worker, now).value;
  }

  lemma ClaimedAlike(memory: JobRecord, sql: JobRecord, late: set<JobId>, worker: string, now: Time)
    requires SameRecord(memory, sql, late)
    ensures IsDue(memory, now) == IsDue(sql, now)
    ensures IsDue(memory, now) ==> SameRecord(Claimed(memory, worker, now), Claimed(sql, worker, now), late)
  {
  }

  lemma DueClaimRelates(r: Repo, db: Tables, late: set<JobId>, id: JobId, worker: string, now: Time)
    requires Related(r, db, late) && id in r.jobs && !r.drain && IsDue(r.jobs[id], now)
    requires SameRecord(r.jobs[id], db.jobs[id], late)
    ensures Related(Claim(r, id, worker, now).0, SqlClaim(db, id, worker, now).0, late)
  {
    ClaimedAlike(r.jobs[id], db.jobs[id], late, worker, now);
    var after := SequentialClaimCommits(db, id, worker, now);
    WriteKeepsRelated(r, db, late, id, Claimed(r.jobs[id], worker, now), after);
  }

  lemma DueClaimAnswers(r: Repo, db: Tables, late: set<JobId>, id: JobId, worker: string, now: Time)
    requires Contiguous(db) && RowIds(db) && r.drain == db.drain && !r.drain
    requires id in r.jobs && id in db.jobs && IsDue(r.jobs[id], now) && SameRecord(r.jobs[id], db.jobs[id], late)
    ensures SameAnswer(Perhaps(Ok(Claim(r, id, worker, now).1)), SqlClaim(db, id, worker, now).1, late)
    ensures r.jobs == db.jobs ==> Claim(r, id, worker, now).0.jobs == SqlClaim(db, id, worker, now).0.jobs
  {
    ClaimedAlike(r.jobs[id], db.jobs[id], late, worker, now);
    var after := SequentialClaimCommits(db, id, worker, now);
  }

  lemma ClaimRefines(r: Repo, db: Tables, late: set<JobId>, id: JobId, worker: string, now: Time)
    requires Related(r, db, late)
    ensures Related(Claim(r, id, worker, now).0, SqlClaim(db, id, worker, now).0, late)
    ensures SameAnswer(Perhaps(Ok(Claim(r, id, worker, now).1)), SqlClaim(db, id, worker, now).1, late)
    ensures r.jobs == db.jobs ==> Claim(r, id, worker, now).0.jobs == SqlClaim(db, id, worker, now).0.jobs
  {
    assert id in r.jobs ==> SameRecord(r.jobs[id], db.jobs[id], late);
    if id in r.jobs && !r.drain && IsDue(r.jobs[id], now) {
      DueClaimRelates(r, db, late, id, worker, now);
      DueClaimAnswers(r, db, late, id, worker, now);
    } else {
      assert SqlClaim(db, id, worker, now) == (db, Perhaps(Ok(None)));
    }
  }

  lemma FinishKeepsContiguous(db: Tables, snap: JobRecord, row: JobRecord, status: AttemptStatus,
        error: Option<Failure>, at: Time)
    requires Contiguous(db) && snap.id in db.jobs && row.attemptCount == db.jobs[snap.id].attemptCount
    ensures Contiguous(db.(jobs := db.jobs[snap.id := row], attempts := FinishedAttempts(db, snap, status, error, at)))
  {
    assert FinishedAttempts(db, snap, status, error, at).Keys == db.attempts.Keys;
    forall id, n ensures (id, n) in FinishedAttempts(db, snap, status, error, at) <==> (id, n) in db.attempts {
      assert (id, n) in FinishedAttempts(db, snap, status, error, at).Keys <==> (id, n) in db.attempts.Keys;
    }
  }

  lemma SuccessCommits(db: Tables, id: JobId, result: Payload, now: Time, finishedAt: Time) returns (after: Tables)
    requires Contiguous(db) && RowIds(db) && id in db.jobs
    ensures Contiguous(after) && after.drain == db.drain
    ensures after.jobs == db.jobs[id := MarkedSucceeded(db.jobs[id], result, now)]
    ensures SqlSucceed(db, id, result, now, finishedAt) == (after, Answered(Ok(after.jobs[id])))
  {
    after := CommitSucceeded(db, db.jobs[id], result, now, finishedAt);
    FinishKeepsContiguous(db, db.jobs[id], after.jobs[id], AttemptSucceeded, None, finishedAt);
  }

  lemma SucceedRefines(r: Repo, db: Tables, late: set<JobId>, id: JobId, result: Payload, now: Time, finishedAt: Time)
    requires Related(r, db, late)
    ensures Related(Succeed(r, id, result, now).0, SqlSucceed(db, id, result, now, finishedAt).0, late)
    ensures SameAnswer(Answered(Succeed(r, id, result, now).1), SqlSucceed(db, id, result, now, finishedAt).1, late)
    ensures r.jobs == db.jobs ==>
        Succeed(r, id, result, now).0.jobs == SqlSucceed(db, id, result, now, finishedAt).0.jobs
  {
    if id in r.jobs {
      assert SameRecord(r.jobs[id], db.jobs[id], late);
      var after := SuccessCommits(db, id, result, now, finishedAt);
      WriteKeepsRelated(r, db, late, id, MarkedSucceeded(r.jobs[id], result, now), after);
    }
  }

  /** The row a failure leaves: `processed_at` is only set, never cleared. */
  lemma FailureCommits(db: Tables, id: JobId, failure: Failure, backoff: Time, now: Time, finishedAt: Time)
    returns (after: Tables)
    requires Contiguous(db) && RowIds(db) && id in db.jobs
    ensures Contiguous(after) && after.drain == db.drain
    ensures var row, marked := db.jobs[id], MarkedFailed(db.jobs[id], failure, backoff, now);
            after.jobs == db.jobs[id := if Exhausted(row) then marked else marked.(processedAt := row.processedAt)]
    ensures SqlFail(db, id, failure, backoff, now, finishedAt) == (after, Answered(Ok(after.jobs[id])))
  {
    after := CommitFailed(db, db.jobs[id], failure, backoff, now, finishedAt);
    FinishKeepsContiguous(db, db.jobs[id], after.jobs[id], AttemptFailed, Some(failure), finishedAt);
  }

  lemma FailRefines(r: Repo, db: Tables, late: set<JobId>, id: JobId, failure: Failure, backoff: Time, now: Time,
        finishedAt: Time)
    requires Related(r, db, late)
    ensures Related(Fail(r, id, failure, backoff, now).0, SqlFail(db, id, failure, backoff, now, finishedAt).0, late)
    ensures var answer := Answered(Fail(r, id, failure, backoff, now).1);
            SameAnswer(answer, SqlFail(db, id, failure, backoff, now, finishedAt).1, late)
  {
    if id in r.jobs {
      assert SameRecord(r.jobs[id], db.jobs[id], late);
      var after := FailureCommits(db, id, failure, backoff, now, finishedAt);
      WriteKeepsRelated(r, db, late, id, MarkedFailed(r.jobs[id], failure, backoff, now), after);
    }
  }

  lemma SequentialCancelCommits(db: Tables, id: JobId, now: Time) returns (after: Tables)
    requires Contiguous(db) && id in db.jobs && IsPending(db.jobs[id].status)
    ensures Contiguous(after) && after.drain == db.drain
    ensures after.jobs == db.jobs[id := MarkedCancelled(db.jobs[id], now)]
    ensures SqlCancel(db, id, now) == (after, Answered(Ok(MarkedCancelled(db.jobs[id], now))))
  {
    after := CommitCancel(db, id, now);
  }

  lemma CancelRefines(r: Repo, db: Tables, late: set<JobId>, id: JobId, now: Time)
    requires Related(r, db, late)
    ensures Related(Cancel(r, id, now).0, SqlCancel(db, id, now).0, late)
    ensures SameAnswer(Answered(Cancel(r, id, now).1), SqlCancel(db, id, now).1, late)
    ensures r.jobs == db.jobs ==> Cancel(r, id, now).0.jobs == SqlCancel(db, id, now).0.jobs
  {
    assert id in r.jobs ==> SameRecord(r.jobs[id], db.jobs[id], late);
    if id in r.jobs && IsPending(r.jobs[id].status) {
      var after := SequentialCancelCommits(db, id, now);
      WriteKeepsRelated(r, db, late, id, MarkedCancelled(r.jobs[id], now), after);
    } else {
      assert SqlCancel(db, id, now).0 == db;
    }
  }

  /** The index finds a key exactly when the select does, and the same job. */
  lemma KeysAgree(r: Repo, db: Tables, late: set<JobId>, key: string)
    requires Related(r, db, late)
    ensures key in r.index <==> HasKey(db, key)
    ensures key in r.index ==> FindKey(db, key) == r.index[key]
  {
    forall id | id in r.jobs ensures r.jobs[id].idempotencyKey == db.jobs[id].idempotencyKey {
      assert SameRecord(r.jobs[id], db.jobs[id], late);
    }
    if key in r.index {
      assert db.jobs[r.index[key]].idempotencyKey == Some(key);
    }
  }

  lemma AddKeepsContiguous(db: Tables, job: JobRecord)
    requires Contiguous(db) && job.id !in db.jobs && job.attemptCount == 0
    ensures Contiguous(db.(jobs := db.jobs[job.id := job]))
  {
  }

  lemma FirstCreateRefines(r: Repo, db: Tables, late: set<JobId>, request: JobCreate, id: JobId, now: Time)
    requires Related(r, db, late) && id !in r.jobs && !KeyTaken(db, request.idempotencyKey)
    requires request.idempotencyKey.Some? ==> request.idempotencyKey.value !in r.index
    ensures Related(Create(r, request, id, now).0, db.(jobs := db.jobs[id := NewJob(request, id, now)]), late)
    ensures Create(r, request, id, now).0.jobs == r.jobs[id := NewJob(request, id, now)]
    ensures Create(r, request, id, now).1 == NewJob(request, id, now) && !Create(r, request, id, now).2
  {
    CreateKeepsWellFormed(r, request, id, now);
    var job := NewJob(request, id, now);
    AddKeepsContiguous(db, job);
    RowsWritten(r, db, late, id, job, Create(r, request, id, now).0, db.(jobs := db.jobs[id := job]));
  }

  lemma CreateRefines(r: Repo, db: Tables, late: set<JobId>, request: JobCreate, id: JobId, now: Time)
    requires Related(r, db, late) && id !in r.jobs
    ensures Related(Create(r, request, id, now).0, SqlCreate(db, request, id, now).0, late)
    ensures var (_, job, replay) := Create(r, request, id, now);
            SameAnswer(Created(job, replay), SqlCreate(db, request, id, now).1, late)
    ensures r.jobs == db.jobs ==> Create(r, request, id, now).0.jobs == SqlCreate(db, request, id, now).0.jobs
  {
    var key := request.idempotencyKey;
    if key.Some? {
      KeysAgree(r, db, late, key.value);
    }
    if KeyTaken(db, key) {
      assert Create(r, request, id, now) == (r, r.jobs[r.index[key.value]], true);
      assert SqlCreate(db, request, id, now) == (db, Created(db.jobs[r.index[key.value]], true));
      assert SameRecord(r.jobs[r.index[key.value]], db.jobs[r.index[key.value]], late);
    } else {
      FirstCreateRefines(r, db, late, request, id, now);
      var job := NewJob(request, id, now);
      assert SqlCreate(db, request, id, now) == (db.(jobs := db.jobs[id := job]), Created(job, false));
    }
  }

  lemma InsertNextRefines(r: Repo, db: Tables, late: set<JobId>, next: JobRecord, row: JobRecord)
    requires Related(r, db, late) && next.id !in r.jobs && next.idempotencyKey == None && next.attemptCount == 0
    requires next.status == Queued && next.processedAt == None && SameRecord(next, row, late)
    ensures Related(Put(r, next.id, next), SqlInsertNext(db, row).0, late)
    ensures SqlInsertNext(db, row) == (db.(jobs := db.jobs[next.id := row]), Perhaps(Ok(Some(row))))
  {
    AddKeepsWellFormed(r, next.id, next);
    AddKeepsContiguous(db, row);
    RowsWritten(r, db, late, next.id, next, Put(r, next.id, next), db.(jobs := db.jobs[next.id := row]));
  }

  lemma NextJobsSame(memory: JobRecord, sql: JobRecord, id: JobId, slot: Time, scanAt: Time, insertAt: Time,
        late: set<JobId>)
    requires SameRecord(memory, sql, late) && (scanAt != insertAt ==> id in late)
    ensures SameRecord(NextJob(memory, id, slot, scanAt), NextJob(sql, id, slot, insertAt), late)
  {
  }

  lemma MemoryNextIs(r: Repo, job: JobRecord, freshId: JobId, scanAt: Time, slot: Time)
    requires SearchFinds(job, scanAt) && CronSearch.NextRun(job.recurringCron.value, scanAt) == Ok(slot)
    ensures var next := NextJob(job, freshId, slot, scanAt);
            CreateNext(r, job, freshId, scanAt) == (Put(r, freshId, next), Ok(Some(next)))
  {
  }

  lemma SqlNextIs(db: Tables, job: JobRecord, freshId: JobId, scanAt: Time, insertAt: Time, slot: Time)
    requires SearchFinds(job, scanAt) && CronSearch.NextRun(job.recurringCron.value, scanAt) == Ok(slot)
    ensures SqlNext(db, job, freshId, scanAt, insertAt) == SqlInsertNext(db, NextJob(job, freshId, slot, insertAt))
  {
  }

  lemma FoundNextRefines(r: Repo, db: Tables, late: set<JobId>, id: JobId, freshId: JobId, scanAt: Time, insertAt: Time)
    requires Related(r, db, late) && id in r.jobs && id in db.jobs && SameRecord(r.jobs[id], db.jobs[id], late)
    requires freshId !in r.jobs && (scanAt != insertAt ==> freshId in late) && SearchFinds(r.jobs[id], scanAt)
    ensures var (after, next) := CreateNext(r, r.jobs[id], freshId, scanAt);
            var (after', next') := SqlNext(db, db.jobs[id], freshId, scanAt, insertAt);
            Related(after, after', late) && SameAnswer(Perhaps(next), next', late)
  {
    var slot := CronSearch.NextRun(r.jobs[id].recurringCron.value, scanAt).value;
    NextJobsSame(r.jobs[id], db.jobs[id], freshId, slot, scanAt, insertAt, late);
    var next, row := NextJob(r.jobs[id], freshId, slot, scanAt), NextJob(db.jobs[id], freshId, slot, insertAt);
    InsertNextRefines(r, db, late, next, row);
    MemoryNextIs(r, r.jobs[id], freshId, scanAt, slot);
    SqlNextIs(db, db.jobs[id], freshId, scanAt, insertAt, slot);
  }

  lemma NoNextAlike(r: Repo, db: Tables, job: JobRecord, row: JobRecord, freshId: JobId, scanAt: Time, insertAt: Time)
    requires !SearchFinds(job, scanAt) && row.recurringCron == job.recurringCron
    ensures var (after, next) := CreateNext(r, job, freshId, scanAt);
            after == r && SqlNext(db, row, freshId, scanAt, insertAt) == (db, Perhaps(next))
  {
  }

  /** The search is made from the same reading; in PostgreSQL the new row carries the later one of its insert. */
  lemma NextRefines(r: Repo, db: Tables, late: set<JobId>, id: JobId, freshId: JobId, scanAt: Time, insertAt: Time)
    requires Related(r, db, late) && id in r.jobs && freshId !in r.jobs && (scanAt != insertAt ==> freshId in late)
    ensures var (after, next) := CreateNext(r, r.jobs[id], freshId, scanAt);
            var (after', next') := SqlNext(db, db.jobs[id], freshId, scanAt, insertAt);
            Related(after, after', late) && SameAnswer(Perhaps(next), next', late)
  {
    assert SameRecord(r.jobs[id], db.jobs[id], late);
    if SearchFinds(r.jobs[id], scanAt) {
      FoundNextRefines(r, db, late, id, freshId, scanAt, insertAt);
    } else {
      NoNextAlike(r, db, r.jobs[id], db.jobs[id], freshId, scanAt, insertAt);
    }
  }

  /** The calls a worker makes for one attempt. */
  predicate OfAttempt(call: Call) {
    call.CallClaim? || call.CallSucceed? || call.CallFail? || call.CallNext?
  }

  lemma AttemptCallRefines(r: Repo, db: Tables, late: set<JobId>, call: Call)
    requires Related(r, db, late) && FreshCall(r.jobs.Keys, call) && Covers(late, call) && OfAttempt(call)
    ensures Related(MemoryCall(r, call).0, SqlCall(db, call).0, late)
    ensures SameAnswer(MemoryCall(r, call).1, SqlCall(db, call).1, late)
  {
    match call
    case CallClaim(id, worker, now) => ClaimRefines(r, db, late, id, worker, now);
    case CallSucceed(id, result, now, end) => SucceedRefines(r, db, late, id, result, now, end);
    case CallFail(id, failure, backoff, now, end) => FailRefines(r, db, late, id, failure, backoff, now, end);
    case CallNext(id, freshId, scanAt, insertAt) => NextRefines(r, db, late, id, freshId, scanAt, insertAt);
  }

  lemma ClientCallRefines(r: Repo, db: Tables, late: set<JobId>, call: Call)
    requires Related(r, db, late) && FreshCall(r.jobs.Keys, call) && !OfAttempt(call)
    ensures Related(MemoryCall(r, call).0, SqlCall(db, call).0, late)
    ensures SameAnswer(MemoryCall(r, call).1, SqlCall(db, call).1, late)
  {
    match call
    case CallCreate(request, id, now) => CreateRefines(r, db, late, request, id, now);
    case CallGet(id) => assert id in r.jobs ==> SameRecord(r.jobs[id], db.jobs[id], late);
    case CallCancel(id, now) => CancelRefines(r, db, late, id, now);
    case CallDrain(_) =>
  }

  /** Every call, from related states, gives related states and the same answer; the unique constraints never
      abort a sequential caller. */
  lemma CallRefines(r: Repo, db: Tables, late: set<JobId>, call: Call)
    requires Related(r, db, late) && FreshCall(r.jobs.Keys, call) && Covers(late, call)
    ensures Related(MemoryCall(r, call).0, SqlCall(db, call).0, late)
    ensures SameAnswer(MemoryCall(r, call).1, SqlCall(db, call).1, late)
  {
    if OfAttempt(call) {
      AttemptCallRefines(r, db, late, call);
    } else {
      ClientCallRefines(r, db, late, call);
    }
  }

  // ----- sequences of calls -----

  ghost predicate Callable(r: Repo, calls: seq<Call>)
    decreases |calls|
  {
    calls == [] ||
    (IndexInverts(r) && FreshCall(r.jobs.Keys, calls[0]) && Callable(MemoryCall(r, calls[0]).0, calls[1..]))
  }

  ghost function MemoryAnswers(r: Repo, calls: seq<Call>): (Repo, seq<Answer>)
    requires Callable(r, calls)
    decreases |calls|
  {
    if calls == [] then (r, [])
    else
      var (after, answer) := MemoryCall(r, calls[0]);
      var (last, answers) := MemoryAnswers(after, calls[1..]);
      (last, [answer] + answers)
  }

  ghost function SqlAnswers(db: Tables, calls: seq<Call>): (Tables, seq<Answer>)
    decreases |calls|
  {
    if calls == [] || !FreshCall(db.jobs.Keys, calls[0]) || !RowIds(db) then (db, [])
    else
      var (after, answer) := SqlCall(db, calls[0]);
      var (last, answers) := SqlAnswers(after, calls[1..]);
      (last, [answer] + answers)
  }

  ghost predicate SameAnswers(memory: seq<Answer>, sql: seq<Answer>, late: set<JobId>) {
    |memory| == |sql| && forall i :: 0 <= i < |memory| ==> SameAnswer(memory[i], sql[i], late)
  }

  /** For every sequence of calls, in whatever order, the two repositories give the same answers and end in
      related states. */
  lemma {:induction false} SequencesRefine(r: Repo, db: Tables, late: set<JobId>, calls: seq<Call>)
    requires Related(r, db, late) && Callable(r, calls)
    requires forall i :: 0 <= i < |calls| ==> Covers(late, calls[i])
    ensures Related(MemoryAnswers(r, calls).0, SqlAnswers(db, calls).0, late)
    ensures SameAnswers(MemoryAnswers(r, calls).1, SqlAnswers(db, calls).1, late)
    decreases |calls|
  {
    if calls == [] {
    } else {
      assert Covers(late, calls[0]);
      CallRefines(r, db, late, calls[0]);
      SequencesRefine(MemoryCall(r, calls[0]).0, SqlCall(db, calls[0]).0, late, calls[1..]);
    }
  }

  lemma EmptyRelated(late: set<JobId>)
    ensures Related(EMPTY, NO_ROWS, late)
  {
  }

  // ----- where they differ -----

  lemma FailDivergesIff(r: Repo, db: Tables, late: set<JobId>, id: JobId, failure: Failure, backoff: Time, now: Time,
        finishedAt: Time)
    requires Related(r, db, late) && r.jobs == db.jobs
    ensures Fail(r, id, failure, backoff, now).0.jobs != SqlFail(db, id, failure, backoff, now, finishedAt).0.jobs <==>
              id in r.jobs && !Exhausted(r.jobs[id]) && r.jobs[id].processedAt.Some?
  {
    if id in r.jobs {
      var memory := MarkedFailed(r.jobs[id], failure, backoff, now);
      var sql := CommitFailed(db, db.jobs[id], failure, backoff, now, finishedAt);
      assert Fail(r, id, failure, backoff, now).0.jobs[id] == memory;
      assert memory.(processedAt := None) == sql.jobs[id].(processedAt := None);
      assert sql.jobs == db.jobs[id := sql.jobs[id]];
    }
  }

  lemma NextDivergesIff(r: Repo, db: Tables, id: JobId, freshId: JobId, scanAt: Time, insertAt: Time)
    requires r.jobs == db.jobs && id in r.jobs
    ensures var memory := CreateNext(r, r.jobs[id], freshId, scanAt).0.jobs;
            var sql := SqlNext(db, r.jobs[id], freshId, scanAt, insertAt).0.jobs;
            memory != sql <==> scanAt != insertAt && SearchFinds(r.jobs[id], scanAt)
  {
    if SearchFinds(r.jobs[id], scanAt) {
      var slot := CronSearch.NextRun(r.jobs[id].recurringCron.value, scanAt).value;
      var next, row := NextJob(r.jobs[id], freshId, slot, scanAt), NextJob(r.jobs[id], freshId, slot, insertAt);
      assert CreateNext(r, r.jobs[id], freshId, scanAt).0.jobs == r.jobs[freshId := next];
      assert next.createdAt == scanAt && row.createdAt == insertAt;
    }
  }

  /** From equal tables, a call leaves them equal unless it fails, before its last attempt, a job whose
      `processed_at` is already set (one that was marked succeeded first), or it creates a next job and the clock
      moved between its search and its insert. */
  lemma TablesDivergeIff(r: Repo, db: Tables, late: set<JobId>, call: Call)
    requires Related(r, db, late) && r.jobs == db.jobs && FreshCall(r.jobs.Keys, call) && Covers(late, call)
    ensures MemoryCall(r, call).0.jobs != SqlCall(db, call).0.jobs <==>
              || (&& call.CallFail? && call.job in r.jobs
                  && !Exhausted(r.jobs[call.job]) && r.jobs[call.job].processedAt.Some?)
              || (call.CallNext? && call.scanAt != call.insertAt && SearchFinds(r.jobs[call.job], call.scanAt))
  {
    match call
    case CallFail(id, failure, backoff, now, end) => FailDivergesIff(r, db, late, id, failure, backoff, now, end);
    case CallClaim(id, worker, now) => ClaimRefines(r, db, late, id, worker, now);
    case CallCreate(request, id, now) => CreateRefines(r, db, late, request, id, now);
    case CallNext(id, freshId, scanAt, insertAt) => NextDivergesIff(r, db, id, freshId, scanAt, insertAt);
    case CallSucceed(id, result, now, end) => SucceedRefines(r, db, late, id, result, now, end);
    case CallCancel(id, now) => CancelRefines(r, db, late, id, now);
    case _ =>
  }

  // ----- the due scan -----

  /** `ORDER BY priority DESC, created_at ASC`. */
  predicate RowsInOrder(a: JobRecord, b: JobRecord) {
    a.priority > b.priority || (a.priority == b.priority && a.createdAt <= b.createdAt)
  }

  /** What the database may return for the due scan: ties can come in any order. */
  ghost predicate SqlDue(db: Tables, limit: nat, now: Time, rows: seq<JobId>, all: seq<JobId>) {
    && Distinct(all) && rows == Take(all, limit)
    && (forall id :: id in all <==> id in db.jobs && IsDue(db.jobs[id], now))
    && (forall i, j :: 0 <= i < j < |all| && all[i] in db.jobs && all[j] in db.jobs ==>
          RowsInOrder(db.jobs[all[i]], db.jobs[all[j]]))
  }

  /** The scan returns due rows in order, at most `limit`, and a due row is missing only when there are `limit` that do
      not come after it. */
  lemma SqlDueIsFirst(db: Tables, limit: nat, now: Time, rows: seq<JobId>, all: seq<JobId>)
    requires SqlDue(db, limit, now, rows, all)
    ensures |rows| <= limit && Distinct(rows)
    ensures forall id :: id in rows ==>
              && id in db.jobs && db.jobs[id].nextRunAt <= now
              && (db.jobs[id].status == Queued || db.jobs[id].status == Failed)
    ensures forall i, j :: 0 <= i < j < |rows| ==> RowsInOrder(db.jobs[rows[i]], db.jobs[rows[j]])
    ensures forall id :: id in db.jobs && db.jobs[id].nextRunAt <= now && IsPending(db.jobs[id].status) ==>
              || id in rows
              || (|rows| == limit && forall i :: 0 <= i < limit ==> RowsInOrder(db.jobs[rows[i]], db.jobs[id]))
  {
    forall i | 0 <= i < |rows| ensures rows[i] == all[i] && rows[i] in all {}
    forall id | id in db.jobs && db.jobs[id].nextRunAt <= now && IsPending(db.jobs[id].status) && id !in rows
      ensures |rows| == limit && forall i :: 0 <= i < limit ==> RowsInOrder(db.jobs[rows[i]], db.jobs[id])
    {
      assert id in all;
      var k :| 0 <= k < |all| && all[k] == id;
      assert k >= |rows|;
    }
  }

  lemma DistinctSameMultiset(xs: seq<JobId>, ys: seq<JobId>)
    requires Distinct(xs) && Distinct(ys) && forall id :: id in xs <==> id in ys
    ensures multiset(xs) == multiset(ys)
  {
    forall id ensures multiset(xs)[id] == multiset(ys)[id] {
      CountOfDistinct(xs, id);
      CountOfDistinct(ys, id);
    }
  }

  /** Jobs by priority alone, highest first. */
  ghost function PriorityKey(r: Repo, id: JobId): Key {
    if id in r.jobs then (-r.jobs[id].priority, 0) else (0, 0)
  }

  /** The order in which a job comes in the scan of the memory repository. */
  ghost function IdKey(r: Repo, id: JobId): Key {
    if id in r.jobs then DueKey(r.jobs[id]) else (0, 0)
  }

  /** On the due jobs, `key` is no finer than the order of the scan. */
  ghost predicate Coarsens(jobs: map<JobId, JobRecord>, now: Time, key: JobId -> Key) {
    forall a, b :: a in jobs && b in jobs && IsDue(jobs[a], now) && IsDue(jobs[b], now) && Before(key(a), key(b)) ==>
      Before(DueKey(jobs[a]), DueKey(jobs[b]))
  }

  lemma DueIdsOrdered(r: Repo, now: Time, key: JobId -> Key)
    requires WellFormed(r) && Coarsens(r.jobs, now, key)
    ensures var ids := Ids(DueOrder(r, now));
            && Distinct(ids) && Ordered(ids, key)
            && (forall id :: id in ids <==> id in r.jobs && IsDue(r.jobs[id], now))
  {
    DueOrderIsExact(r, now);
    var ordered := DueOrder(r, now);
    var ids := Ids(ordered);
    forall id ensures id in ids <==> id in r.jobs && IsDue(r.jobs[id], now) {
      assert id in ids <==> id in Elements(ids);
    }
    forall i, j | 0 <= i < j < |ids| ensures !Before(key(ids[j]), key(ids[i])) {
      assert ordered[i] in ordered && ordered[j] in ordered;
      assert !Before(DueKey(ordered[j]), DueKey(ordered[i]));
    }
  }

  /** The database's due jobs are the same ones, and in an order that `key` does not contradict either. */
  lemma RelatedScan(r: Repo, db: Tables, late: set<JobId>, limit: nat, now: Time, rows: seq<JobId>, all: seq<JobId>,
        key: JobId -> Key)
    requires Related(r, db, late) && SqlDue(db, limit, now, rows, all) && Coarsens(db.jobs, now, key)
    ensures Ordered(all, key)
    ensures forall id :: id in all <==> id in r.jobs && IsDue(r.jobs[id], now)
  {
    forall id ensures id in r.jobs ==> IsDue(r.jobs[id], now) == IsDue(db.jobs[id], now) {
      assert id in r.jobs ==> SameRecord(r.jobs[id], db.jobs[id], late);
    }
    forall i, j | 0 <= i < j < |all| ensures !Before(key(all[j]), key(all[i])) {
      assert all[i] in all && all[j] in all;
    }
  }

  /** Two orders of the same jobs agree at every position on any key that is no finer than either. */
  lemma ScansHaveSameKeys(r: Repo, db: Tables, late: set<JobId>, limit: nat, now: Time, rows: seq<JobId>,
        all: seq<JobId>, key: JobId -> Key)
    requires Related(r, db, late) && SqlDue(db, limit, now, rows, all)
    requires Coarsens(r.jobs, now, key) && Coarsens(db.jobs, now, key)
    ensures |all| == |DueOrder(r, now)|
    ensures forall i :: 0 <= i < |all| ==>
              all[i] in r.jobs && IsDue(r.jobs[all[i]], now) && key(all[i]) == key(DueOrder(r, now)[i].id)
  {
    var ids := Ids(DueOrder(r, now));
    DueIdsOrdered(r, now, key);
    RelatedScan(r, db, late, limit, now, rows, all, key);
    DistinctSameMultiset(all, ids);
    OrderedKeysAgree(all, ids, key);
    forall i | 0 <= i < |all|
      ensures all[i] in r.jobs && IsDue(r.jobs[all[i]], now) && key(all[i]) == key(DueOrder(r, now)[i].id)
    {
      assert all[i] in all && Keys(all, key)[i] == Keys(ids, key)[i];
    }
  }

  /** The rows under these ids, in this order. */
  function Rows(db: Tables, order: seq<JobId>): (rows: seq<JobRecord>)
    requires forall id :: id in order ==> id in db.jobs
    ensures |rows| == |order|
    ensures forall i :: 0 <= i < |rows| ==> rows[i] == db.jobs[order[i]]
  {
    seq(|order|, i requires 0 <= i < |order| => db.jobs[order[i]])
  }

  lemma PrioritiesCoarsen(r: Repo, db: Tables, late: set<JobId>, now: Time, key: JobId -> Key)
    requires Related(r, db, late) && forall id: JobId :: key(id) == PriorityKey(r, id)
    ensures Coarsens(r.jobs, now, key) && Coarsens(db.jobs, now, key)
  {
    forall id | id in r.jobs ensures r.jobs[id].priority == db.jobs[id].priority {
      assert SameRecord(r.jobs[id], db.jobs[id], late);
    }
  }

  lemma ScannedAreStored(r: Repo, now: Time)
    requires WellFormed(r)
    ensures forall i :: 0 <= i < |DueOrder(r, now)| ==>
              var job := DueOrder(r, now)[i]; job.id in r.jobs && r.jobs[job.id] == job
  {
    DueOrderIsExact(r, now);
    forall i | 0 <= i < |DueOrder(r, now)|
      ensures var job := DueOrder(r, now)[i]; job.id in r.jobs && r.jobs[job.id] == job
    {
      assert DueOrder(r, now)[i] in DueOrder(r, now);
    }
  }

  lemma DueIsPrefix(r: Repo, db: Tables, limit: nat, now: Time, rows: seq<JobId>, all: seq<JobId>)
    requires WellFormed(r) && SqlDue(db, limit, now, rows, all) && |all| == |DueOrder(r, now)|
    ensures |rows| <= |all| && rows == all[..|rows|] && Due(r, limit, now) == DueOrder(r, now)[..|rows|]
  {
  }

  /** Both scans return as many jobs, of the same priority at every position. */
  lemma DueScansAgree(r: Repo, db: Tables, late: set<JobId>, limit: nat, now: Time, rows: seq<JobId>, all: seq<JobId>)
    requires Related(r, db, late) && SqlDue(db, limit, now, rows, all)
    ensures |rows| == |Due(r, limit, now)|
    ensures forall i :: 0 <= i < |rows| ==>
              rows[i] in r.jobs && r.jobs[rows[i]].priority == Due(r, limit, now)[i].priority
  {
    var key: JobId -> Key := (id: JobId) => PriorityKey(r, id);
    PrioritiesCoarsen(r, db, late, now, key);
    ScansHaveSameKeys(r, db, late, limit, now, rows, all, key);
    ScannedAreStored(r, now);
    DueIsPrefix(r, db, limit, now, rows, all);
    var order := DueOrder(r, now);
    forall i | 0 <= i < |rows| ensures rows[i] in r.jobs && r.jobs[rows[i]].priority == order[i].priority {
      assert rows[i] == all[i] && PriorityKey(r, all[i]) == PriorityKey(r, order[i].id);
    }
  }

  /** No due job was inserted after a second reading of the clock. */
  ghost predicate NoneLate(r: Repo, late: set<JobId>, now: Time) {
    forall id :: id in late && id in r.jobs ==> !IsDue(r.jobs[id], now)
  }

  lemma TimesCoarsen(r: Repo, db: Tables, late: set<JobId>, now: Time, key: JobId -> Key)
    requires Related(r, db, late) && NoneLate(r, late, now) && forall id: JobId :: key(id) == IdKey(r, id)
    ensures Coarsens(r.jobs, now, key) && Coarsens(db.jobs, now, key)
  {
    forall id | id in db.jobs && IsDue(db.jobs[id], now) ensures key(id) == DueKey(db.jobs[id]) {
      assert SameRecord(r.jobs[id], db.jobs[id], late);
    }
  }

  /** And, unless a due job was inserted late, of the same priority and creation time. */
  lemma DueTimesAgree(r: Repo, db: Tables, late: set<JobId>, limit: nat, now: Time, rows: seq<JobId>, all: seq<JobId>)
    requires Related(r, db, late) && SqlDue(db, limit, now, rows, all) && NoneLate(r, late, now)
    ensures |rows| == |Due(r, limit, now)|
    ensures forall i :: 0 <= i < |rows| ==>
              rows[i] in r.jobs && DueKey(r.jobs[rows[i]]) == DueKey(Due(r, limit, now)[i])
  {
    var key: JobId -> Key := (id: JobId) => IdKey(r, id);
    TimesCoarsen(r, db, late, now, key);
    ScansHaveSameKeys(r, db, late, limit, now, rows, all, key);
    ScannedAreStored(r, now);
  }
}
