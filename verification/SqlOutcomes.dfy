// What the attempts table records of how the attempts ended (app/jobs/repositories.py:244-325, 355-365).
module SqlOutcomes {
  import opened Core
  import opened Jobs
  import opened SqlTables
  import opened SqlProtocol
  import opened SqlInvariant
  import opened SqlWrites

  /** An open attempt has no end and no error, one that succeeded has an end and no error, one that failed has both. */
  predicate RowFits(row: AttemptRow) {
    match row.status
    case AttemptRunning => row.finishedAt.None? && row.error.None?
    case AttemptSucceeded => row.finishedAt.Some? && row.error.None?
    case AttemptFailed => row.finishedAt.Some? && row.error.Some?
  }

  /** The row of a job's latest attempt agrees with the job: open, and made by the holder of the lock, while the job is
      running; succeeded when the job has; failed, with the job's last error, when the job has failed or is given up.
      After a cancellation it is as the attempt left it. */
  predicate LatestFits(job: JobRecord, row: AttemptRow) {
    match job.status
    case Queued => false
    case Running =>
      row.status == AttemptRunning && job.lockedBy == Some(row.workerId) && job.lockedAt == Some(row.startedAt)
    case Succeeded => row.status == AttemptSucceeded
    case Failed => row.status == AttemptFailed && row.error == job.lastError
    case DeadLettered => row.status == AttemptFailed && row.error == job.lastError
    case Cancelled => true
  }

  ghost predicate RowsFit(db: Tables) {
    forall key :: key in db.attempts ==> RowFits(db.attempts[key])
  }

  ghost predicate LatestRowsFit(db: Tables) {
    forall id :: id in db.jobs && (id, db.jobs[id].attemptCount) in db.attempts ==>
      LatestFits(db.jobs[id], db.attempts[(id, db.jobs[id].attemptCount)])
  }

  ghost predicate EarlierFailed(db: Tables) {
    forall id, n :: (id, n) in db.attempts && id in db.jobs && n < db.jobs[id].attemptCount ==>
      db.attempts[(id, n)].status == AttemptFailed
  }

  /** A claim whose snapshot is fresh has read a job whose latest attempt, if any, had failed. */
  ghost predicate FreshFailed(s: State) {
    forall p :: PhaseOf(s, p).Claiming? ==>
      var snap := PhaseOf(s, p).snap;
      snap.id in s.db.jobs && s.db.jobs[snap.id].attemptCount == snap.attemptCount
      && (snap.id, snap.attemptCount) in s.db.attempts ==>
        s.db.attempts[(snap.id, snap.attemptCount)].status == AttemptFailed
  }

  ghost predicate Outcomes(s: State) {
    RowsFit(s.db) && LatestRowsFit(s.db) && EarlierFailed(s.db) && FreshFailed(s)
  }

  // ----- tables -----

  ghost predicate TablesFit(db: Tables) {
    RowsFit(db) && LatestRowsFit(db) && EarlierFailed(db)
  }

  lemma ClaimKeepsTablesFit(db: Tables, db': Tables, id: JobId, worker: string, at: Time)
    requires Contiguous(db) && TablesFit(db) && ClaimWrote(db, db', id, worker, at)
    requires (id, db.jobs[id].attemptCount) in db.attempts ==>
               db.attempts[(id, db.jobs[id].attemptCount)].status == AttemptFailed
    ensures TablesFit(db')
  {
  }

  lemma SuccessKeepsTablesFit(db: Tables, db': Tables, id: JobId, result: Payload, at: Time, finishedAt: Time)
    requires Contiguous(db) && TablesFit(db) && SuccessWrote(db, db', id, result, at, finishedAt)
    ensures TablesFit(db')
  {
  }

  lemma FailureKeepsTablesFit(db: Tables, db': Tables, id: JobId, failure: Failure, at: Time, finishedAt: Time)
    requires Contiguous(db) && TablesFit(db) && FailureWrote(db, db', id, failure, at, finishedAt)
    ensures TablesFit(db')
  {
  }

  lemma CancelKeepsTablesFit(db: Tables, db': Tables, id: JobId, at: Time)
    requires Contiguous(db) && TablesFit(db) && OnlyWrites(db, db', id) && db'.attempts == db.attempts
    requires IsCancelled(db'.jobs[id], db.jobs[id], at)
    ensures TablesFit(db')
  {
  }

  lemma AddingKeepsTablesFit(db: Tables, db': Tables, id: JobId)
    requires Contiguous(db) && TablesFit(db) && OnlyAdds(db, db', id)
    ensures TablesFit(db')
  {
  }

  // ----- snapshots -----

  /** After a write of this job's rows no snapshot of it is fresh. */
  lemma WriteKeepsFresh(s: State, s': State, id: JobId)
    requires FreshFailed(s) && OnlyWrites(s.db, s'.db, id)
    requires forall other, n :: other != id ==> ((other, n) in s'.db.attempts <==> (other, n) in s.db.attempts)
    requires forall other, n :: other != id && (other, n) in s.db.attempts ==>
               s'.db.attempts[(other, n)] == s.db.attempts[(other, n)]
    requires forall q: Proc :: PhaseOf(s', q).Claiming? ==> PhaseOf(s', q) == PhaseOf(s, q)
    requires forall q: Proc :: PhaseOf(s', q).Claiming? && PhaseOf(s', q).snap.id == id ==>
               PhaseOf(s', q).snap.attemptCount < s'.db.jobs[id].attemptCount
    ensures FreshFailed(s')
  {
  }

  lemma SameAttemptsKeepFresh(s: State, s': State)
    requires FreshFailed(s) && s'.db.attempts == s.db.attempts
    requires forall q: Proc :: PhaseOf(s', q).Claiming? ==> PhaseOf(s', q) == PhaseOf(s, q)
    requires forall id :: id in s.db.jobs ==>
               id in s'.db.jobs && s'.db.jobs[id].attemptCount == s.db.jobs[id].attemptCount
    requires forall q: Proc :: PhaseOf(s, q).Claiming? ==> PhaseOf(s, q).snap.id in s.db.jobs
    ensures FreshFailed(s')
  {
  }

  lemma SnapshotsKnown(s: State)
    requires Inv(s)
    ensures forall q: Proc :: PhaseOf(s, q).Claiming? ==>
              && PhaseOf(s, q).snap.id in s.db.jobs
              && PhaseOf(s, q).snap.attemptCount <= s.db.jobs[PhaseOf(s, q).snap.id].attemptCount
  {
    forall q: Proc | PhaseOf(s, q).Claiming? ensures SnapshotOk(s, PhaseOf(s, q).snap) {
      assert PhaseOk(s, PhaseOf(s, q));
    }
  }

  // ----- steps -----

  lemma ClaimKeepsOutcomes(s: State, p: Proc, worker: string, at: Time)
    requires Inv(s) && Outcomes(s) && CanClaim(s, p, at)
    ensures Outcomes(ClaimStep(s, p, worker, at))
  {
    var s', snap := ClaimStep(s, p, worker, at), PhaseOf(s, p).snap;
    ClaimWrites(s, p, worker, at);
    SnapshotsKnown(s);
    if s.db.jobs[snap.id].attemptCount == snap.attemptCount {
      ClaimKeepsTablesFit(s.db, s'.db, snap.id, worker, at);
      WriteKeepsFresh(s, s', snap.id);
    } else {
      SameAttemptsKeepFresh(s, s');
    }
  }

  lemma MarkKeepsOutcomes(s: State, p: Proc, at: Time, finishedAt: Time)
    requires Inv(s) && Outcomes(s) && CanMark(s, p, at, finishedAt)
    ensures Outcomes(MarkStep(s, p, at, finishedAt))
  {
    var s', id := MarkStep(s, p, at, finishedAt), PhaseOf(s, p).snap.id;
    MarkWrites(s, p, at, finishedAt);
    HolderFacts(s, p);
    match PhaseOf(s, p).verdict
    case Good(result) =>
      SuccessKeepsTablesFit(s.db, s'.db, id, result, at, finishedAt);
      WriteKeepsFresh(s, s', id);
    case Bad(failure) =>
      FailureKeepsTablesFit(s.db, s'.db, id, failure, at, finishedAt);
      WriteKeepsFresh(s, s', id);
  }

  lemma CancelKeepsOutcomes(s: State, step: Step, s': State)
    requires Inv(s) && Outcomes(s) && Enabled(s, step) && step.CancelCommit? && s' == Apply(s, step)
    ensures Outcomes(s')
  {
    CancelWrites(s, step);
    CancelKeepsTablesFit(s.db, s'.db, PhaseOf(s, step.p).job, step.at);
    SnapshotsKnown(s);
    SameAttemptsKeepFresh(s, s');
  }

  lemma SpawnKeepsOutcomes(s: State, step: Step, s': State)
    requires Inv(s) && Outcomes(s) && Enabled(s, step) && step.Spawn? && s' == Apply(s, step)
    ensures Outcomes(s')
  {
    SpawnWrites(s, step);
    AddingKeepsTablesFit(s.db, s'.db, step.id);
    SnapshotsKnown(s);
    SameAttemptsKeepFresh(s, s');
  }

  lemma InsertKeepsOutcomes(s: State, p: Proc, id: JobId, at: Time, s': State)
    requires Inv(s) && Outcomes(s) && CanInsert(s, p, id, at) && s' == InsertStep(s, p, id, at)
    ensures Outcomes(s')
  {
    InsertWrites(s, p, id, at);
    if s'.db != s.db {
      AddingKeepsTablesFit(s.db, s'.db, id);
    }
    SnapshotsKnown(s);
    SameAttemptsKeepFresh(s, s');
  }

  /** The process has the snapshot it had, or has just read the pending row as it stands. */
  ghost predicate OldOrRead(s: State, s': State, q: Proc)
    requires PhaseOf(s', q).Claiming?
  {
    var snap := PhaseOf(s', q).snap;
    PhaseOf(s', q) == PhaseOf(s, q) || (snap.id in s.db.jobs && s.db.jobs[snap.id] == snap && IsPending(snap.status))
  }

  /** A snapshot that has just been read is of a pending row, whose latest attempt, if any, had failed. */
  lemma ReadKeepsFresh(s: State, s': State)
    requires FreshFailed(s) && LatestRowsFit(s.db) && s'.db.jobs == s.db.jobs && s'.db.attempts == s.db.attempts
    requires forall q: Proc :: PhaseOf(s', q).Claiming? ==> OldOrRead(s, s', q)
    ensures FreshFailed(s')
  {
    forall q: Proc | PhaseOf(s', q).Claiming?
      ensures var snap := PhaseOf(s', q).snap;
              snap.id in s'.db.jobs && s'.db.jobs[snap.id].attemptCount == snap.attemptCount
              && (snap.id, snap.attemptCount) in s'.db.attempts ==>
                s'.db.attempts[(snap.id, snap.attemptCount)].status == AttemptFailed
    {
      assert OldOrRead(s, s', q);
    }
  }

  lemma ReadKeepsOutcomes(s: State, step: Step, s': State)
    requires Outcomes(s) && Enabled(s, step) && !Writes(step) && s' == Apply(s, step)
    requires forall id :: id in s.db.jobs ==> s.db.jobs[id].id == id
    ensures Outcomes(s')
  {
    ReadersWriteNothing(s, step);
    forall q: Proc | PhaseOf(s', q).Claiming? ensures OldOrRead(s, s', q) {
      SnapshotsComeFromReads(s, step, q);
    }
    ReadKeepsFresh(s, s');
  }

  lemma StepKeepsOutcomes(s: State, step: Step)
    requires Inv(s) && Outcomes(s) && Enabled(s, step)
    ensures Outcomes(Apply(s, step))
  {
    if !Writes(step) {
      ReadKeepsOutcomes(s, step, Apply(s, step));
    } else {
      match step
      case ClaimCommit(p, worker, at) => ClaimKeepsOutcomes(s, p, worker, at);
      case MarkCommit(p, at, finishedAt) => MarkKeepsOutcomes(s, p, at, finishedAt);
      case CancelCommit(_, _) => CancelKeepsOutcomes(s, step, Apply(s, step));
      case Spawn(_, _, _, _, _) => SpawnKeepsOutcomes(s, step, Apply(s, step));
      case InsertCommit(p, id, at) => InsertKeepsOutcomes(s, p, id, at, Apply(s, step));
    }
  }

  lemma {:induction false} RunKeepsOutcomes(s: State, steps: seq<Step>)
    requires Inv(s) && Outcomes(s) && Admissible(s, steps)
    ensures Inv(Run(s, steps)) && Outcomes(Run(s, steps))
    decreases |steps|
  {
    if steps == [] {
    } else {
      StepKeepsInv(s, steps[0]);
      StepKeepsOutcomes(s, steps[0]);
      RunKeepsOutcomes(Apply(s, steps[0]), steps[1..]);
    }
  }

  /** In every interleaving an attempt that is not its job's latest has failed, the latest one agrees with the job's
      status, and an attempt has an end exactly when it is not open and an error exactly when it has failed. */
  lemma AttemptOutcomes(steps: seq<Step>, id: JobId, n: nat)
    requires Admissible(START, steps) && (id, n) in Run(START, steps).db.attempts
    ensures var db := Run(START, steps).db;
            && id in db.jobs && RowFits(db.attempts[(id, n)])
            && if n == db.jobs[id].attemptCount then LatestFits(db.jobs[id], db.attempts[(id, n)])
               else db.attempts[(id, n)].status == AttemptFailed
  {
    StartInv();
    RunKeepsOutcomes(START, steps);
    assert Contiguous(Run(START, steps).db);
  }
}
