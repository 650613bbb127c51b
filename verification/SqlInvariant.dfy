// The inductive invariant of the split-transaction protocol: who holds a job, which snapshots are still
// fresh, and what the attempts table records.
module SqlInvariant {
  import opened Core
  import opened Jobs
  import opened SqlTables
  import opened SqlProtocol

  /** Attempt rows are exactly 1..attempt_count of existing jobs. */
  ghost predicate Contiguous(db: Tables) {
    forall id, n :: (id, n) in db.attempts <==> id in db.jobs && 1 <= n <= db.jobs[id].attemptCount
  }

  /** Only the latest attempt of a job can be unfinished. */
  ghost predicate EarlierFinished(db: Tables) {
    forall id, n :: (id, n) in db.attempts && id in db.jobs && n < db.jobs[id].attemptCount ==>
        db.attempts[(id, n)].finishedAt.Some?
  }

  /** Consecutive attempts start at least the retry delay apart. */
  ghost predicate Spaced(db: Tables) {
    forall id, n :: (id, n) in db.attempts && (id, n + 1) in db.attempts ==>
      db.attempts[(id, n)].startedAt + Backoff(n) <= db.attempts[(id, n + 1)].startedAt
  }

  ghost predicate StartedInPast(s: State) {
    forall key :: key in s.db.attempts ==> s.db.attempts[key].startedAt <= s.clock
  }

  ghost predicate RowsShaped(db: Tables) {
    forall id :: id in db.jobs ==> db.jobs[id].id == id && RetryShape(db.jobs[id])
  }

  /** Nobody holds the job, its latest attempt is finished, and its retry delay is in `next_run_at`. */
  ghost predicate Quiet(s: State, id: JobId)
    requires Contiguous(s.db) && id in s.db.jobs
  {
    var row := s.db.jobs[id];
    && (forall p :: Held(PhaseOf(s, p)) != Some(id))
    && row.attemptCount <= row.maxRetries
    && (row.attemptCount >= 1 ==>
          && s.db.attempts[(id, row.attemptCount)].finishedAt.Some?
          && s.db.attempts[(id, row.attemptCount)].startedAt + Backoff(row.attemptCount) <= row.nextRunAt)
  }

  ghost predicate PendingQuiet(s: State)
    requires Contiguous(s.db)
  {
    forall id :: id in s.db.jobs && IsPending(s.db.jobs[id].status) ==> Quiet(s, id)
  }

  /** No two processes hold the same job. */
  ghost predicate Exclusive(s: State) {
    forall p, q :: Held(PhaseOf(s, p)).Some? && Held(PhaseOf(s, p)) == Held(PhaseOf(s, q)) ==> p == q
  }

  ghost predicate HoldsLatest(s: State, id: JobId, attempt: nat) {
    id in s.db.jobs && attempt >= 1 && attempt == s.db.jobs[id].attemptCount
  }

  /** A claim's snapshot is fresh while the attempt count it read still stands. Then nothing but a
      cancellation can have happened to the row. */
  ghost predicate SnapshotOk(s: State, snap: JobRecord)
    requires Contiguous(s.db)
  {
    && snap.id in s.db.jobs
    && IsPending(snap.status)
    && snap.attemptCount <= s.db.jobs[snap.id].attemptCount
    && (snap.attemptCount == s.db.jobs[snap.id].attemptCount ==>
          && Quiet(s, snap.id)
          && snap.nextRunAt == s.db.jobs[snap.id].nextRunAt
          && (IsPending(s.db.jobs[snap.id].status) || s.db.jobs[snap.id].status == Cancelled))
  }

  ghost predicate PhaseOk(s: State, phase: Phase)
    requires Contiguous(s.db)
  {
    match phase
    case Claiming(snap, readAt) => SnapshotOk(s, snap)
    case Executing(id, attempt) =>
      HoldsLatest(s, id, attempt) && s.db.jobs[id].status in {Running, Cancelled}
    case Marking(snap, verdict, readAt) =>
      && HoldsLatest(s, snap.id, snap.attemptCount)
      && s.db.jobs[snap.id].status in {Running, Succeeded, Cancelled}
      && snap.maxRetries == s.db.jobs[snap.id].maxRetries
      && s.db.attempts[(snap.id, snap.attemptCount)].startedAt <= readAt
    case Recurring(id, attempt, since) =>
      && HoldsLatest(s, id, attempt) && s.db.jobs[id].status in {Succeeded, Cancelled}
      && s.db.attempts[(id, attempt)].startedAt <= since
    case Crashed(id, attempt) =>
      HoldsLatest(s, id, attempt) && s.db.jobs[id].status in {Running, Succeeded, Cancelled}
    case Cancelling(id, readAt) => id in s.db.jobs
    case _ => true
  }

  ghost predicate PhasesOk(s: State)
    requires Contiguous(s.db)
  {
    forall p :: PhaseOk(s, PhaseOf(s, p))
  }

  ghost predicate Inv(s: State) {
    && RowsShaped(s.db)
    && Contiguous(s.db)
    && EarlierFinished(s.db)
    && Spaced(s.db)
    && StartedInPast(s)
    && PendingQuiet(s)
    && Exclusive(s)
    && PhasesOk(s)
  }

  lemma StartInv()
    ensures Inv(START)
  {
  }

  /** The unique index turns the unlocked read-then-write into a compare-and-swap on `attempt_count`:
      a claim commits exactly when the count it read still stands. */
  lemma ClaimComparesAndSwaps(s: State, p: Proc, worker: string, at: Time)
    requires Inv(s) && PhaseOf(s, p).Claiming?
    ensures var snap := PhaseOf(s, p).snap;
            && snap.id in s.db.jobs
            && (CommitClaim(s.db, snap, worker, at).Some? <==> s.db.jobs[snap.id].attemptCount == snap.attemptCount)
  {
    assert PhaseOk(s, PhaseOf(s, p));
  }

  // ----- steps that leave the tables alone -----

  /** A process may change phase, without taking hold of a job, whenever the new phase is in order. */
  lemma PhaseChange(s: State, p: Proc, phase: Phase)
    requires Inv(s) && PhaseOk(s, phase)
    requires Held(phase) == None || Held(phase) == Held(PhaseOf(s, p))
    ensures Inv(Go(s, p, phase))
  {
    var s' := Go(s, p, phase);
    forall q ensures PhaseOf(s', q) == (if q == p then phase else PhaseOf(s, q)) {}
    assert Exclusive(s') by {
      forall q, r | Held(PhaseOf(s', q)).Some? && Held(PhaseOf(s', q)) == Held(PhaseOf(s', r)) ensures q == r {
        assert Held(PhaseOf(s, q)) == Held(PhaseOf(s, r));
      }
    }
    forall id | id in s.db.jobs && Quiet(s, id) ensures Quiet(s', id) {}
    forall q ensures PhaseOk(s', PhaseOf(s', q)) {
      assert PhaseOk(s, PhaseOf(s, q));
    }
  }

  /** The recorded history and a later clock make no difference. */
  lemma HistoryIrrelevant(s: State, s': State)
    requires Inv(s) && s'.db.jobs == s.db.jobs && s'.db.attempts == s.db.attempts
    requires s'.procs == s.procs && s.clock <= s'.clock
    ensures Inv(s')
  {
    forall p ensures PhaseOf(s', p) == PhaseOf(s, p) {}
    forall id | id in s.db.jobs && Quiet(s, id) ensures Quiet(s', id) {}
    forall p ensures PhaseOk(s', PhaseOf(s', p)) {
      assert PhaseOk(s, PhaseOf(s, p));
    }
  }

  // ----- commits that write one job's rows -----

  /** The tables agree on every job but `id`. */
  ghost predicate SameElsewhere(db: Tables, db': Tables, id: JobId) {
    && db'.jobs.Keys == db.jobs.Keys
    && (forall other :: other in db.jobs && other != id ==> db'.jobs[other] == db.jobs[other])
    && (forall other, n :: other != id ==> ((other, n) in db'.attempts <==> (other, n) in db.attempts))
    && (forall other, n :: other != id && (other, n) in db.attempts ==>
        db'.attempts[(other, n)] == db.attempts[(other, n)])
  }

  ghost predicate TablesOk(db: Tables) {
    RowsShaped(db) && Contiguous(db) && EarlierFinished(db) && Spaced(db)
  }

  lemma OthersUndisturbed(s: State, p: Proc, id: JobId, db: Tables, phase: Phase)
    requires Inv(s) && TablesOk(db) && SameElsewhere(s.db, db, id)
    requires Held(phase) == None || Held(phase) == Some(id)
    ensures var s' := Go(s.(db := db), p, phase);
            && (forall q :: PhaseOf(s', q) == if q == p then phase else PhaseOf(s, q))
            && (forall other :: other in s.db.jobs && other != id && Quiet(s, other) ==> Quiet(s', other))
  {
    var s' := Go(s.(db := db), p, phase);
    forall q ensures PhaseOf(s', q) == if q == p then phase else PhaseOf(s, q) {}
    forall other | other in s.db.jobs && other != id && Quiet(s, other) ensures Quiet(s', other) {}
  }

  lemma ExclusiveAfter(s: State, s': State, p: Proc)
    requires Exclusive(s)
    requires forall q :: q != p ==> PhaseOf(s', q) == PhaseOf(s, q)
    requires Held(PhaseOf(s', p)).Some? ==> forall q :: q != p ==> Held(PhaseOf(s, q)) != Held(PhaseOf(s', p))
    ensures Exclusive(s')
  {
    forall q, r | Held(PhaseOf(s', q)).Some? && Held(PhaseOf(s', q)) == Held(PhaseOf(s', r)) ensures q == r {
      if q != p && r != p {
        assert Held(PhaseOf(s, q)) == Held(PhaseOf(s, r));
      }
    }
  }

  /** A phase that is about another job stays in order. */
  lemma ElsewherePhaseOk(s: State, s': State, id: JobId, phase: Phase)
    requires Inv(s) && PhaseOk(s, phase) && Contiguous(s'.db) && SameElsewhere(s.db, s'.db, id)
    requires forall other :: other in s.db.jobs && other != id && Quiet(s, other) ==> Quiet(s', other)
    requires Held(phase) != Some(id) && !(phase.Claiming? && phase.snap.id == id)
    ensures PhaseOk(s', phase)
  {
    match phase
    case Claiming(snap, _) =>
      if snap.attemptCount == s.db.jobs[snap.id].attemptCount {
        assert Quiet(s', snap.id);
      }
    case Marking(snap, _, _) => assert (snap.id, snap.attemptCount) in s.db.attempts;
    case Recurring(other, attempt, _) => assert (other, attempt) in s.db.attempts;
    case _ =>
  }

  /** When no other process holds `id`, a commit on it keeps the invariant if the rows it leaves are in order,
      the new phase is, and the snapshots others have of `id` are. */
  lemma CommitKeepsInv(s: State, p: Proc, id: JobId, db: Tables, phase: Phase)
    requires Inv(s) && id in s.db.jobs && TablesOk(db) && SameElsewhere(s.db, db, id)
    requires StartedInPast(s.(db := db))
    requires forall q :: q != p ==> Held(PhaseOf(s, q)) != Some(id)
    requires Held(phase) == None || Held(phase) == Some(id)
    requires PhaseOk(Go(s.(db := db), p, phase), phase)
    requires forall q :: q != p && PhaseOf(s, q).Claiming? && PhaseOf(s, q).snap.id == id ==>
               SnapshotOk(Go(s.(db := db), p, phase), PhaseOf(s, q).snap)
    requires IsPending(db.jobs[id].status) ==> Quiet(Go(s.(db := db), p, phase), id)
    ensures Inv(Go(s.(db := db), p, phase))
  {
    var s' := Go(s.(db := db), p, phase);
    OthersUndisturbed(s, p, id, db, phase);
    ExclusiveAfter(s, s', p);
    forall q ensures PhaseOk(s', PhaseOf(s', q)) {
      if q != p && !(PhaseOf(s, q).Claiming? && PhaseOf(s, q).snap.id == id) {
        ElsewherePhaseOk(s, s', id, PhaseOf(s, q));
      }
    }
  }

  // ----- claim -----

  /** Before the new attempt starts, the retry delay of the one before has passed. */
  lemma ClaimKeepsSpaced(s: State, snap: JobRecord, worker: string, at: Time)
    requires TablesOk(s.db) && SnapshotOk(s, snap) && IsDue(snap, at)
    requires CommitClaim(s.db, snap, worker, at).Some? && snap.attemptCount == s.db.jobs[snap.id].attemptCount
    ensures Spaced(CommitClaim(s.db, snap, worker, at).value)
  {
  }

  lemma ClaimKeepsContiguous(db: Tables, snap: JobRecord, worker: string, at: Time)
    requires Contiguous(db) && snap.id in db.jobs && snap.attemptCount == db.jobs[snap.id].attemptCount
    requires CommitClaim(db, snap, worker, at).Some?
    ensures Contiguous(CommitClaim(db, snap, worker, at).value)
  {
  }

  lemma ClaimKeepsRows(s: State, snap: JobRecord, worker: string, at: Time)
    requires TablesOk(s.db) && SnapshotOk(s, snap)
    requires CommitClaim(s.db, snap, worker, at).Some? && snap.attemptCount == s.db.jobs[snap.id].attemptCount
    ensures var db := CommitClaim(s.db, snap, worker, at).value;
            RowsShaped(db) && Contiguous(db) && EarlierFinished(db) && SameElsewhere(s.db, db, snap.id)
  {
    ClaimKeepsContiguous(s.db, snap, worker, at);
  }

  lemma ClaimKeepsTables(s: State, snap: JobRecord, worker: string, at: Time)
    requires Inv(s) && SnapshotOk(s, snap) && IsDue(snap, at) && at <= s.clock
    requires CommitClaim(s.db, snap, worker, at).Some?
    ensures var db := CommitClaim(s.db, snap, worker, at).value;
            TablesOk(db) && SameElsewhere(s.db, db, snap.id) && StartedInPast(s.(db := db))
  {
    assert snap.attemptCount == s.db.jobs[snap.id].attemptCount;
    ClaimKeepsSpaced(s, snap, worker, at);
    ClaimKeepsRows(s, snap, worker, at);
  }

  lemma ClaimedPhases(s: State, p: Proc, worker: string, at: Time)
    requires Inv(s) && Enabled(s, ClaimCommit(p, worker, at))
    requires CommitClaim(s.db, PhaseOf(s, p).snap, worker, at).Some?
    ensures var snap, db := PhaseOf(s, p).snap, CommitClaim(s.db, PhaseOf(s, p).snap, worker, at).value;
            && Contiguous(db) && snap.id in s.db.jobs
            && (forall q :: Held(PhaseOf(s, q)) != Some(snap.id))
            && HoldsLatest(s.(db := db), snap.id, snap.attemptCount + 1) && db.jobs[snap.id].status == Running
            && (forall q :: PhaseOf(s, q).Claiming? && PhaseOf(s, q).snap.id == snap.id ==>
                  && IsPending(PhaseOf(s, q).snap.status)
                  && PhaseOf(s, q).snap.attemptCount < db.jobs[snap.id].attemptCount)
  {
    var snap := PhaseOf(s, p).snap;
    assert PhaseOk(s, PhaseOf(s, p));
    ClaimKeepsTables(s, snap, worker, at);
    assert Quiet(s, snap.id);
    forall q | PhaseOf(s, q).Claiming? && PhaseOf(s, q).snap.id == snap.id
      ensures IsPending(PhaseOf(s, q).snap.status) && PhaseOf(s, q).snap.attemptCount <= snap.attemptCount
    {
      assert PhaseOk(s, PhaseOf(s, q));
    }
  }

  lemma ClaimSucceedsKeepsInv(s: State, p: Proc, id: JobId, worker: string, at: Time, db: Tables, attempt: nat)
    requires Inv(s) && Enabled(s, ClaimCommit(p, worker, at))
    requires id == PhaseOf(s, p).snap.id && attempt == PhaseOf(s, p).snap.attemptCount + 1
    requires CommitClaim(s.db, PhaseOf(s, p).snap, worker, at) == Some(db)
    ensures Inv(Go(s.(db := db), p, Executing(id, attempt)))
  {
    assert PhaseOk(s, PhaseOf(s, p));
    ClaimKeepsTables(s, PhaseOf(s, p).snap, worker, at);
    ClaimedPhases(s, p, worker, at);
    CommitKeepsInv(s, p, id, db, Executing(id, attempt));
  }

  lemma ClaimStepKeepsInv(s: State, p: Proc, worker: string, at: Time)
    requires Inv(s) && CanClaim(s, p, at)
    ensures Inv(ClaimStep(s, p, worker, at))
  {
    var snap := PhaseOf(s, p).snap;
    match CommitClaim(s.db, snap, worker, at)
    case None =>
      PhaseChange(s, p, Idle);
    case Some(db) =>
      ClaimSucceedsKeepsInv(s, p, snap.id, worker, at, db, snap.attemptCount + 1);
  }

  lemma ClaimCommitKeepsInv(s: State, step: Step)
    requires Inv(s) && Enabled(s, step) && step.ClaimCommit?
    ensures Inv(Apply(s, step))
  {
    ClaimStepKeepsInv(s, step.p, step.worker, step.at);
  }

  // ----- marks -----

  lemma MarkFinishes(s: State, snap: JobRecord, status: AttemptStatus, error: Option<Failure>, at: Time)
    requires Contiguous(s.db) && HoldsLatest(s, snap.id, snap.attemptCount)
    ensures var attempts := FinishedAttempts(s.db, snap, status, error, at);
            && attempts.Keys == s.db.attempts.Keys
            && attempts[(snap.id, snap.attemptCount)].finishedAt.Some?
            && (forall key :: key in attempts ==> attempts[key].startedAt == s.db.attempts[key].startedAt)
            && (forall key :: key in attempts && s.db.attempts[key].finishedAt.Some? ==> attempts[key].finishedAt.Some?)
            && (forall key :: key in attempts && key != (snap.id, snap.attemptCount) ==>
                attempts[key] == s.db.attempts[key])
  {
  }

  /** The row a mark leaves. */
  lemma MarkedContiguous(db: Tables, id: JobId, row: JobRecord, attempts: map<(JobId, nat), AttemptRow>)
    requires Contiguous(db) && id in db.jobs && row.attemptCount == db.jobs[id].attemptCount
    requires attempts.Keys == db.attempts.Keys
    ensures Contiguous(db.(jobs := db.jobs[id := row], attempts := attempts))
  {
    var jobs := db.jobs[id := row];
    forall other, n ensures (other, n) in attempts <==> other in jobs && 1 <= n <= jobs[other].attemptCount {
      assert (other, n) in attempts.Keys <==> (other, n) in db.attempts.Keys;
    }
  }

  lemma MarkedTables(s: State, id: JobId, row: JobRecord, attempts: map<(JobId, nat), AttemptRow>)
    requires TablesOk(s.db) && StartedInPast(s) && id in s.db.jobs
    requires row.id == id && row.attemptCount == s.db.jobs[id].attemptCount && RetryShape(row)
    requires attempts.Keys == s.db.attempts.Keys
    requires forall key :: key in attempts ==> attempts[key].startedAt == s.db.attempts[key].startedAt
    requires forall key :: key in attempts && s.db.attempts[key].finishedAt.Some? ==> attempts[key].finishedAt.Some?
    requires forall key :: key in attempts && key.0 != id ==> attempts[key] == s.db.attempts[key]
    ensures var db := s.db.(jobs := s.db.jobs[id := row], attempts := attempts);
            TablesOk(db) && SameElsewhere(s.db, db, id) && StartedInPast(s.(db := db))
  {
    MarkedContiguous(s.db, id, row, attempts);
    forall other, n | (other, n) in attempts && (other, n + 1) in attempts
      ensures attempts[(other, n)].startedAt + Backoff(n) <= attempts[(other, n + 1)].startedAt
    {
      assert (other, n) in s.db.attempts && (other, n + 1) in s.db.attempts;
    }
  }

  lemma HolderFacts(s: State, p: Proc)
    requires Inv(s) && PhaseOf(s, p).Marking?
    ensures var id := PhaseOf(s, p).snap.id;
            && (forall q :: q != p ==> Held(PhaseOf(s, q)) != Some(id))
            && (forall q :: PhaseOf(s, q).Claiming? && PhaseOf(s, q).snap.id == id ==>
                  SnapshotOk(s, PhaseOf(s, q).snap) && PhaseOf(s, q).snap.attemptCount < s.db.jobs[id].attemptCount)
  {
    var id := PhaseOf(s, p).snap.id;
    assert PhaseOk(s, PhaseOf(s, p));
    assert Held(PhaseOf(s, p)) == Some(id);
    forall q | PhaseOf(s, q).Claiming? && PhaseOf(s, q).snap.id == id
      ensures SnapshotOk(s, PhaseOf(s, q).snap) && PhaseOf(s, q).snap.attemptCount < s.db.jobs[id].attemptCount
    {
      assert PhaseOk(s, PhaseOf(s, q));
    }
  }

  lemma GoodMarkTables(s: State, p: Proc, result: Payload, at: Time, finishedAt: Time)
    requires Inv(s) && CanMark(s, p, at, finishedAt)
    ensures var snap := PhaseOf(s, p).snap;
            var db := CommitSucceeded(s.db, snap, result, at, finishedAt);
            && TablesOk(db) && SameElsewhere(s.db, db, snap.id) && StartedInPast(s.(db := db))
            && (var phase := Recurring(snap.id, snap.attemptCount, at); PhaseOk(Go(s.(db := db), p, phase), phase))
  {
    var snap := PhaseOf(s, p).snap;
    assert PhaseOk(s, PhaseOf(s, p));
    var db := CommitSucceeded(s.db, snap, result, at, finishedAt);
    MarkFinishes(s, snap, AttemptSucceeded, None, finishedAt);
    MarkedTables(s, snap.id, db.jobs[snap.id], db.attempts);
  }

  lemma GoodMarkKeepsInv(s: State, p: Proc, result: Payload, at: Time, finishedAt: Time)
    requires Inv(s) && Enabled(s, MarkCommit(p, at, finishedAt)) && PhaseOf(s, p).verdict == Good(result)
    ensures Inv(Apply(s, MarkCommit(p, at, finishedAt)))
  {
    var snap := PhaseOf(s, p).snap;
    HolderFacts(s, p);
    GoodMarkTables(s, p, result, at, finishedAt);
    var db := CommitSucceeded(s.db, snap, result, at, finishedAt);
    CommitKeepsInv(s, p, snap.id, db, Recurring(snap.id, snap.attemptCount, at));
  }

  lemma BadMarkQuiet(s: State, p: Proc, db: Tables)
    requires Inv(s) && PhaseOf(s, p).Marking?
    requires var snap := PhaseOf(s, p).snap;
             && Contiguous(db) && snap.id in db.jobs && db.jobs[snap.id].attemptCount == snap.attemptCount >= 1
             && db.jobs[snap.id].status == Failed && RetryShape(db.jobs[snap.id])
             && var attempt := db.attempts[(snap.id, snap.attemptCount)];
                && attempt.finishedAt.Some?
                && attempt.startedAt + Backoff(snap.attemptCount) <= db.jobs[snap.id].nextRunAt
    ensures var snap := PhaseOf(s, p).snap;
            Quiet(Go(s.(db := db), p, Refreshing(snap.id, snap.attemptCount)), snap.id)
  {
    var s' := Go(s.(db := db), p, Refreshing(PhaseOf(s, p).snap.id, PhaseOf(s, p).snap.attemptCount));
    HolderFacts(s, p);
    forall q ensures Held(PhaseOf(s', q)) != Some(PhaseOf(s, p).snap.id) {
      assert q != p ==> PhaseOf(s', q) == PhaseOf(s, q);
    }
  }

  lemma BadMarkTables(s: State, p: Proc, failure: Failure, at: Time, finishedAt: Time)
    requires Inv(s) && CanMark(s, p, at, finishedAt)
    ensures var snap := PhaseOf(s, p).snap;
            var db := CommitFailed(s.db, snap, failure, Backoff(snap.attemptCount), at, finishedAt);
            && TablesOk(db) && SameElsewhere(s.db, db, snap.id) && StartedInPast(s.(db := db))
            && (IsPending(db.jobs[snap.id].status) ==>
                  Quiet(Go(s.(db := db), p, Refreshing(snap.id, snap.attemptCount)), snap.id))
  {
    var snap := PhaseOf(s, p).snap;
    assert PhaseOk(s, PhaseOf(s, p));
    var db := CommitFailed(s.db, snap, failure, Backoff(snap.attemptCount), at, finishedAt);
    MarkFinishes(s, snap, AttemptFailed, Some(failure), finishedAt);
    MarkedTables(s, snap.id, db.jobs[snap.id], db.attempts);
    if IsPending(db.jobs[snap.id].status) {
      BadMarkQuiet(s, p, db);
    }
  }

  lemma BadMarkKeepsInv(s: State, p: Proc, failure: Failure, at: Time, finishedAt: Time)
    requires Inv(s) && Enabled(s, MarkCommit(p, at, finishedAt)) && PhaseOf(s, p).verdict == Bad(failure)
    ensures Inv(Apply(s, MarkCommit(p, at, finishedAt)))
  {
    var snap := PhaseOf(s, p).snap;
    HolderFacts(s, p);
    BadMarkTables(s, p, failure, at, finishedAt);
    var db := CommitFailed(s.db, snap, failure, Backoff(snap.attemptCount), at, finishedAt);
    CommitKeepsInv(s, p, snap.id, db, Refreshing(snap.id, snap.attemptCount));
  }

  // ----- cancel -----

  lemma CancelledPhaseOk(s: State, s': State, id: JobId, at: Time, phase: Phase)
    requires Inv(s) && id in s.db.jobs && s'.db == CommitCancel(s.db, id, at) && PhaseOk(s, phase)
    requires Contiguous(s'.db)
    requires forall other :: other in s.db.jobs && Quiet(s, other) ==> Quiet(s', other)
    ensures PhaseOk(s', phase)
  {
    match phase
    case Claiming(snap, _) =>
      if snap.attemptCount == s.db.jobs[snap.id].attemptCount {
        assert Quiet(s', snap.id);
      }
    case _ =>
  }

  lemma CancelledRows(s: State, p: Proc, id: JobId, at: Time)
    requires Inv(s) && id in s.db.jobs && Held(PhaseOf(s, p)) == None
    ensures var s' := Go(s.(db := CommitCancel(s.db, id, at)), p, Idle);
            && TablesOk(s'.db) && StartedInPast(s')
            && (forall other :: other in s.db.jobs && Quiet(s, other) ==> Quiet(s', other))
            && (forall q :: PhaseOf(s', q) == if q == p then Idle else PhaseOf(s, q))
  {
    var s' := Go(s.(db := CommitCancel(s.db, id, at)), p, Idle);
    forall q ensures PhaseOf(s', q) == if q == p then Idle else PhaseOf(s, q) {}
    forall other | other in s.db.jobs && Quiet(s, other) ensures Quiet(s', other) {}
  }

  lemma CancelCommitKeepsInv(s: State, step: Step)
    requires Inv(s) && Enabled(s, step) && step.CancelCommit?
    ensures Inv(Apply(s, step))
  {
    var p, id := step.p, PhaseOf(s, step.p).job;
    var s' := Go(s.(db := CommitCancel(s.db, id, step.at)), p, Idle);
    CancelledRows(s, p, id, step.at);
    ExclusiveAfter(s, s', p);
    forall q ensures PhaseOk(s', PhaseOf(s', q)) {
      if q != p {
        CancelledPhaseOk(s, s', id, step.at, PhaseOf(s, q));
      }
    }
  }

  // ----- new rows -----

  lemma AddRowKeepsInv(s: State, job: JobRecord)
    requires Inv(s) && job.id !in s.db.jobs && job.status == Queued && job.attemptCount == 0
    ensures Inv(s.(db := s.db.(jobs := s.db.jobs[job.id := job])))
  {
    var s' := s.(db := s.db.(jobs := s.db.jobs[job.id := job]));
    forall q ensures PhaseOf(s', q) == PhaseOf(s, q) {}
    forall q ensures Held(PhaseOf(s, q)) != Some(job.id) {
      assert PhaseOk(s, PhaseOf(s, q));
    }
    forall id | id in s.db.jobs && Quiet(s, id) ensures Quiet(s', id) {}
    forall q ensures PhaseOk(s', PhaseOf(s', q)) {
      assert PhaseOk(s, PhaseOf(s, q));
    }
  }

  lemma ReadRowKeepsInv(s: State, step: Step)
    requires Inv(s) && Enabled(s, step) && step.ReadRow?
    ensures Inv(Apply(s, step))
  {
    var p, job := step.p, PhaseOf(s, step.p).job;
    if job in s.db.jobs && IsPending(s.db.jobs[job].status) {
      assert Quiet(s, job);
      PhaseChange(s, p, Claiming(s.db.jobs[job], s.clock));
    } else {
      PhaseChange(s, p, Idle);
    }
  }

  lemma MarkReadKeepsInv(s: State, step: Step)
    requires Inv(s) && Enabled(s, step) && (step.ReadForMark? || step.NoNextRun?)
    ensures Inv(Apply(s, step))
  {
    var p := step.p;
    assert PhaseOk(s, PhaseOf(s, p));
    var row := s.db.jobs[PhaseOf(s, p).job];
    PhaseChange(s, p, PhaseOf(Apply(s, step), p));
  }

  lemma SpawnKeepsInv(s: State, step: Step)
    requires Inv(s) && Enabled(s, step) && step.Spawn?
    ensures Inv(Apply(s, step))
  {
    var s' := Apply(s, step);
    var next := s'.db.jobs[step.id];
    var added := s.(db := s'.db);
    AddRowKeepsInv(s, next);
    var recorded := added.(lineage := s'.lineage, spawned := s'.spawned);
    HistoryIrrelevant(added, recorded);
    PhaseChange(recorded, step.p, Idle);
  }

  lemma LookUpKeepsInv(s: State, step: Step)
    requires Inv(s) && Enabled(s, step) && step.LookUp?
    ensures Inv(Apply(s, step))
  {
    if step.found.Some? {
      HistoryIrrelevant(s, Apply(s, step));
    } else {
      PhaseChange(s, step.p, Inserting(step.request, s.clock));
    }
  }

  lemma InsertCommitKeepsInv(s: State, step: Step)
    requires Inv(s) && Enabled(s, step) && step.InsertCommit?
    ensures Inv(Apply(s, step))
  {
    var p, request := step.p, PhaseOf(s, step.p).request;
    var job := NewJob(request, step.id, step.at);
    var inserted := InsertJob(s.db, job);
    if inserted.None? {
      PhaseChange(s, p, LostRace(request));
    } else {
      var added := s.(db := inserted.value);
      AddRowKeepsInv(s, job);
      var placed := added.(lineage := s.lineage[step.id := Lineage(step.id, 0)]);
      var logged := Log(placed, request.idempotencyKey, step.id, false);
      HistoryIrrelevant(added, logged);
      PhaseChange(logged, p, Publishing(step.id));
    }
  }

  lemma CrashKeepsInv(s: State, step: Step)
    requires Inv(s) && Enabled(s, step) && step.Crash?
    ensures Inv(Apply(s, step))
  {
    var p := step.p;
    assert PhaseOk(s, PhaseOf(s, p));
    PhaseChange(s, p, Crashed(Held(PhaseOf(s, p)).value, HeldAttempt(PhaseOf(s, p))));
  }

  lemma ResolveKeepsInv(s: State, step: Step)
    requires Inv(s) && Enabled(s, step) && step.ResolveRace?
    ensures Inv(Apply(s, step))
  {
    var logged := Log(s, PhaseOf(s, step.p).request.idempotencyKey, step.existing, true);
    HistoryIrrelevant(s, logged);
    PhaseChange(logged, step.p, Idle);
  }

  lemma SendKeepsInv(s: State, step: Step)
    requires Inv(s) && Enabled(s, step) && (step.SendEvent? || step.SendDeadLetter?)
    ensures Inv(Apply(s, step))
  {
    var s' := Apply(s, step);
    var sent := s.(published := s'.published, deadLetters := s'.deadLetters);
    HistoryIrrelevant(s, sent);
    PhaseChange(sent, step.p, Idle);
  }

  lemma MarkCommitKeepsInv(s: State, step: Step)
    requires Inv(s) && Enabled(s, step) && step.MarkCommit?
    ensures Inv(Apply(s, step))
  {
    match PhaseOf(s, step.p).verdict
    case Good(result) => GoodMarkKeepsInv(s, step.p, result, step.at, step.finishedAt);
    case Bad(failure) => BadMarkKeepsInv(s, step.p, failure, step.at, step.finishedAt);
  }

  /** Steps that only move a process to a phase without a hold. */
  lemma MoveKeepsInv(s: State, step: Step)
    requires Inv(s) && Enabled(s, step)
    requires step.Deliver? || step.EndOnce? || step.Abandon? || step.ReadForCancel? || step.ReadBack?
    ensures Inv(Apply(s, step))
  {
    var phase := PhaseOf(Apply(s, step), step.p);
    assert Apply(s, step) == Go(s, step.p, phase);
    PhaseChange(s, step.p, phase);
  }

  lemma WaitKeepsInv(s: State, step: Step)
    requires Inv(s) && Enabled(s, step) && (step.Tick? || step.SetDrain?)
    ensures Inv(Apply(s, step))
  {
    HistoryIrrelevant(s, Apply(s, step));
  }

  /** Every step of every process keeps the invariant. */
  lemma StepKeepsInv(s: State, step: Step)
    requires Inv(s) && Enabled(s, step)
    ensures Inv(Apply(s, step))
  {
    match step
    case Tick(_) => WaitKeepsInv(s, step);
    case SetDrain(_) => WaitKeepsInv(s, step);
    case ReadRow(_) => ReadRowKeepsInv(s, step);
    case ClaimCommit(_, _, _) => ClaimCommitKeepsInv(s, step);
    case ReadForMark(_, _) => MarkReadKeepsInv(s, step);
    case MarkCommit(_, _, _) => MarkCommitKeepsInv(s, step);
    case NoNextRun(_, _, _) => MarkReadKeepsInv(s, step);
    case Spawn(_, _, _, _, _) => SpawnKeepsInv(s, step);
    case Crash(_) => CrashKeepsInv(s, step);
    case LookUp(_, _, _) => LookUpKeepsInv(s, step);
    case InsertCommit(_, _, _) => InsertCommitKeepsInv(s, step);
    case ResolveRace(_, _) => ResolveKeepsInv(s, step);
    case SendEvent(_) => SendKeepsInv(s, step);
    case SendDeadLetter(_) => SendKeepsInv(s, step);
    case CancelCommit(_, _) => CancelCommitKeepsInv(s, step);
    case _ => MoveKeepsInv(s, step);
  }

  /** The invariant holds after every run. */
  lemma {:induction false} RunKeepsInv(s: State, steps: seq<Step>)
    requires Inv(s) && Admissible(s, steps)
    ensures Inv(Run(s, steps))
    decreases |steps|
  {
    if steps == [] {
    } else {
      StepKeepsInv(s, steps[0]);
      RunKeepsInv(Apply(s, steps[0]), steps[1..]);
    }
  }
}
