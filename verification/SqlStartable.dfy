// Exactly when a job can still be started in the split-transaction protocol, with drain off or on.
module SqlStartable {
  import opened Core
  import opened Jobs
  import opened SqlTables
  import opened SqlProtocol
  import opened SqlInvariant
  import opened SqlTheorems
  import CronSearch

  // ----- starting from a fresh snapshot or a message taken -----

  /** A claim has read the job's row, and no attempt has been started since. */
  ghost predicate HasFreshSnapshot(s: State, p: Proc, id: JobId) {
    && PhaseOf(s, p).Claiming? && PhaseOf(s, p).snap.id == id
    && id in s.db.jobs && PhaseOf(s, p).snap.attemptCount == s.db.jobs[id].attemptCount
  }

  /** The steps start the job's handler at least once. */
  ghost predicate Restarts(s: State, steps: seq<Step>, id: JobId) {
    Admissible(s, steps) && HandlerStarts(s, steps, id) > 0
  }

  lemma OneStepRestarts(s: State, step: Step, id: JobId)
    requires Enabled(s, step) && FollowsCron(s, step) && StartsHandler(s, step, id)
    ensures Restarts(s, [step], id)
  {
    var after := Apply(s, step);
    assert [step][1..] == [];
    assert Admissible(after, []) && HandlerStarts(after, [], id) == 0;
  }

  lemma LaterRestarts(s: State, step: Step, rest: seq<Step>, id: JobId)
    requires Enabled(s, step) && FollowsCron(s, step) && Restarts(Apply(s, step), rest, id)
    ensures Restarts(s, [step] + rest, id)
  {
    assert ([step] + rest)[1..] == rest;
  }

  /** Wait until the retry delay is over, then commit the claim. */
  function CommitWhenDue(s: State, p: Proc): seq<Step>
    requires PhaseOf(s, p).Claiming?
  {
    var Claiming(snap, readAt) := PhaseOf(s, p);
    [Tick(snap.nextRunAt + readAt), ClaimCommit(p, "", s.clock + snap.nextRunAt + readAt)]
  }

  lemma FreshSnapshotStarts(s: State, p: Proc, id: JobId)
    requires Inv(s) && HasFreshSnapshot(s, p, id)
    ensures Restarts(s, CommitWhenDue(s, p), id)
  {
    var Claiming(snap, readAt) := PhaseOf(s, p);
    var tick, claim := Tick(snap.nextRunAt + readAt), ClaimCommit(p, "", s.clock + snap.nextRunAt + readAt);
    StepKeepsInv(s, tick);
    var later := Apply(s, tick);
    assert PhaseOk(s, PhaseOf(s, p)) && PhaseOf(later, p) == PhaseOf(s, p);
    ClaimComparesAndSwaps(later, p, "", s.clock + snap.nextRunAt + readAt);
    OneStepRestarts(later, claim, id);
    LaterRestarts(s, tick, [claim], id);
    assert [tick] + [claim] == CommitWhenDue(s, p);
  }

  lemma DeliveredStarts(s: State, p: Proc, id: JobId)
    requires Inv(s) && id in s.db.jobs && IsPending(s.db.jobs[id].status) && PhaseOf(s, p) == Delivered(id)
    ensures Enabled(s, ReadRow(p)) && PhaseOf(Apply(s, ReadRow(p)), p).Claiming?
    ensures Restarts(s, [ReadRow(p)] + CommitWhenDue(Apply(s, ReadRow(p)), p), id)
  {
    var read := Apply(s, ReadRow(p));
    StepKeepsInv(s, ReadRow(p));
    assert s.db.jobs[id].id == id;
    assert HasFreshSnapshot(read, p, id);
    FreshSnapshotStarts(read, p, id);
    LaterRestarts(s, ReadRow(p), CommitWhenDue(read, p), id);
  }

  // ----- what may become of a job in somebody's hands -----

  /** Searched from some moment on, the job's expression has no run. */
  ghost predicate SearchMayRaise(job: JobRecord, from: Time) {
    HasCron(job) && exists t: Time :: from <= t && CronSearch.NextRun(job.recurringCron.value, t).Err?
  }

  /** The process has the job in hand, is alive, and can still end its attempt in failure. */
  ghost predicate MayFail(s: State, p: Proc, id: JobId) {
    && id in s.db.jobs
    && match PhaseOf(s, p)
       case Executing(job, _) => job == id
       case Marking(snap, verdict, readAt) => snap.id == id && (verdict.Bad? || SearchMayRaise(s.db.jobs[id], readAt))
       case Recurring(job, _, since) => job == id && SearchMayRaise(s.db.jobs[id], since)
       case _ => false
  }

  /** The job is pending, or has attempts left and somebody who may fail the present one. */
  ghost predicate MayBePending(s: State, id: JobId) {
    && id in s.db.jobs
    && (IsPending(s.db.jobs[id].status) || (!Exhausted(s.db.jobs[id]) && exists p :: MayFail(s, p, id)))
  }

  /** Nothing can start the job again. */
  ghost predicate NeverAgain(s: State, id: JobId) {
    id in s.db.jobs && !MayBePending(s, id) && forall p :: !HasFreshSnapshot(s, p, id)
  }

  lemma SnapshotsAreOldOrRead(s: State, step: Step, p: Proc)
    requires Enabled(s, step) && PhaseOf(Apply(s, step), p).Claiming?
    ensures || PhaseOf(Apply(s, step), p) == PhaseOf(s, p)
            || (&& PhaseOf(s, p).Delivered? && PhaseOf(s, p).job in s.db.jobs
                && PhaseOf(Apply(s, step), p).snap == s.db.jobs[PhaseOf(s, p).job])
  {
    OnlyActorMoves(s, step);
  }

  lemma StartNeedsSnapshot(s: State, step: Step, id: JobId)
    requires Inv(s) && Enabled(s, step) && StartsHandler(s, step, id)
    ensures HasFreshSnapshot(s, step.p, id)
  {
    ClaimComparesAndSwaps(s, step.p, step.worker, step.at);
  }

  /** A later start of the search has fewer moments at which it may raise. */
  lemma LaterRaisesLess(job: JobRecord, from: Time, later: Time)
    requires SearchMayRaise(job, later) && from <= later
    ensures SearchMayRaise(job, from)
  {
    var t: Time :| later <= t && CronSearch.NextRun(job.recurringCron.value, t).Err?;
    assert from <= t;
  }

  lemma MarkerMayFail(s: State, p: Proc, at: Time, finishedAt: Time, id: JobId)
    requires CanMark(s, p, at, finishedAt) && MayFail(MarkStep(s, p, at, finishedAt), p, id) && id in s.db.jobs
    requires SameIdentity(MarkStep(s, p, at, finishedAt).db.jobs[id], s.db.jobs[id])
    ensures MayFail(s, p, id)
  {
    LaterRaisesLess(s.db.jobs[id], PhaseOf(s, p).readAt, at);
  }

  lemma SearcherMayFail(s: State, step: Step, id: JobId)
    requires RowsShaped(s.db) && Enabled(s, step) && FollowsCron(s, step) && step.NoNextRun?
    requires MayFail(Apply(s, step), step.p, id)
    ensures MayFail(s, step.p, id)
  {
    assert CronSearch.NextRun(s.db.jobs[PhaseOf(s, step.p).job].recurringCron.value, step.at).Err?;
  }

  lemma ReaderMayFail(s: State, step: Step, id: JobId)
    requires RowsShaped(s.db) && Enabled(s, step) && step.ReadForMark? && MayFail(Apply(s, step), step.p, id)
    ensures MayFail(s, step.p, id)
  {
  }

  lemma ClaimerMayFail(s: State, step: Step, id: JobId)
    requires Enabled(s, step) && step.ClaimCommit? && MayFail(Apply(s, step), step.p, id)
    ensures StartsHandler(s, step, id)
  {
  }

  /** The steps after which a process has an attempt in hand that can still fail. */
  lemma HandsComeFrom(s: State, step: Step)
    requires Enabled(s, step) && Actor(step).Some?
    ensures var phase := PhaseOf(Apply(s, step), step.p);
            && (phase.Executing? ==> step.ClaimCommit?) && (phase.Recurring? ==> step.MarkCommit?)
            && (phase.Marking? ==> step.ReadForMark? || step.NoNextRun?)
  {
  }

  lemma ActorMayFail(s: State, step: Step, id: JobId)
    requires RowsShaped(s.db) && Enabled(s, step) && FollowsCron(s, step) && id in s.db.jobs && Actor(step).Some?
    requires !StartsHandler(s, step, id) && MayFail(Apply(s, step), step.p, id)
    requires id in Apply(s, step).db.jobs && SameIdentity(Apply(s, step).db.jobs[id], s.db.jobs[id])
    ensures MayFail(s, step.p, id)
  {
    if step.MarkCommit? {
      MarkerMayFail(s, step.p, step.at, step.finishedAt, id);
    } else if step.NoNextRun? {
      SearcherMayFail(s, step, id);
    } else if step.ReadForMark? {
      ReaderMayFail(s, step, id);
    } else {
      HandsComeFrom(s, step);
      if step.ClaimCommit? {
        ClaimerMayFail(s, step, id);
      }
    }
  }

  /** Whoever may fail the attempt might have before, unless the step starts a new attempt. */
  lemma MayFailComesFromMayFail(s: State, step: Step, p: Proc, id: JobId)
    requires Inv(s) && Enabled(s, step) && FollowsCron(s, step) && id in s.db.jobs
    requires !StartsHandler(s, step, id) && MayFail(Apply(s, step), p, id)
    ensures MayFail(s, p, id)
  {
    StepKeepsIdentity(s, step, id);
    OnlyActorMoves(s, step);
    if Actor(step) == Some(p) {
      ActorMayFail(s, step, id);
    }
  }

  lemma MarkToPending(s: State, p: Proc, at: Time, finishedAt: Time, id: JobId)
    requires CanMark(s, p, at, finishedAt) && id in s.db.jobs && !IsPending(s.db.jobs[id].status)
    requires var after := MarkStep(s, p, at, finishedAt).db.jobs; id in after && IsPending(after[id].status)
    ensures PhaseOf(s, p).snap.id == id && PhaseOf(s, p).verdict.Bad? && !Exhausted(PhaseOf(s, p).snap)
  {
  }

  lemma ClaimLeavesNothingPending(s: State, p: Proc, worker: string, at: Time, id: JobId)
    requires CanClaim(s, p, at) && id in s.db.jobs && !IsPending(s.db.jobs[id].status)
    ensures var after := ClaimStep(s, p, worker, at).db.jobs; id in after ==> !IsPending(after[id].status)
  {
  }

  lemma PendingComesFromMark(s: State, step: Step, id: JobId)
    requires Enabled(s, step) && id in s.db.jobs && !IsPending(s.db.jobs[id].status)
    requires id in Apply(s, step).db.jobs && IsPending(Apply(s, step).db.jobs[id].status)
    ensures step.MarkCommit?
  {
    if !Writes(step) {
      ReadersWriteNothing(s, step);
    } else if step.ClaimCommit? {
      ClaimLeavesNothingPending(s, step.p, step.worker, step.at, id);
    }
  }

  /** A job that is not pending becomes so only when an attempt of it fails that is not the last. */
  lemma PendingComesFromFailure(s: State, step: Step, id: JobId)
    requires Inv(s) && Enabled(s, step) && id in s.db.jobs && !IsPending(s.db.jobs[id].status)
    requires id in Apply(s, step).db.jobs && IsPending(Apply(s, step).db.jobs[id].status)
    ensures step.MarkCommit? && MayFail(s, step.p, id) && !Exhausted(s.db.jobs[id])
  {
    PendingComesFromMark(s, step, id);
    assert PhaseOk(s, PhaseOf(s, step.p));
    MarkToPending(s, step.p, step.at, step.finishedAt, id);
  }

  lemma NewSnapshotIsPending(s: State, step: Step, p: Proc)
    requires RowsShaped(s.db) && Enabled(s, step)
    requires PhaseOf(Apply(s, step), p).Claiming? && PhaseOf(Apply(s, step), p) != PhaseOf(s, p)
    ensures var snap := PhaseOf(Apply(s, step), p).snap;
            snap.id in s.db.jobs && s.db.jobs[snap.id] == snap && IsPending(snap.status)
  {
    OnlyActorMoves(s, step);
  }

  /** A snapshot is fresh because it was, or because the job is pending and has just been read. */
  lemma FreshComesFromFresh(s: State, step: Step, p: Proc, id: JobId)
    requires Inv(s) && Enabled(s, step) && id in s.db.jobs && HasFreshSnapshot(Apply(s, step), p, id)
    ensures HasFreshSnapshot(s, p, id) || IsPending(s.db.jobs[id].status)
  {
    StepCountsStart(s, step, id);
    SnapshotsAreOldOrRead(s, step, p);
    assert PhaseOk(s, PhaseOf(s, p));
    if PhaseOf(Apply(s, step), p) != PhaseOf(s, p) {
      NewSnapshotIsPending(s, step, p);
    }
  }

  lemma NeverAgainStep(s: State, step: Step, id: JobId)
    requires Inv(s) && Enabled(s, step) && FollowsCron(s, step) && NeverAgain(s, id)
    ensures !StartsHandler(s, step, id) && NeverAgain(Apply(s, step), id)
  {
    var s' := Apply(s, step);
    if StartsHandler(s, step, id) {
      StartNeedsSnapshot(s, step, id);
    }
    StepCountsStart(s, step, id);
    StepKeepsIdentity(s, step, id);
    if IsPending(s'.db.jobs[id].status) {
      PendingComesFromFailure(s, step, id);
    }
    forall p | MayFail(s', p, id) ensures MayFail(s, p, id) {
      MayFailComesFromMayFail(s, step, p, id);
    }
    forall p ensures !HasFreshSnapshot(s', p, id) {
      if HasFreshSnapshot(s', p, id) {
        FreshComesFromFresh(s, step, p, id);
      }
    }
  }

  lemma {:induction false} NeverAgainForever(s: State, steps: seq<Step>, id: JobId)
    requires Inv(s) && Admissible(s, steps) && NeverAgain(s, id)
    ensures HandlerStarts(s, steps, id) == 0
    decreases |steps|
  {
    if steps == [] {
    } else {
      NeverAgainStep(s, steps[0], id);
      StepKeepsInv(s, steps[0]);
      NeverAgainForever(Apply(s, steps[0]), steps[1..], id);
    }
  }

  // ----- drain -----

  /** A claim of the job has read drain as off and is not over: its message has been taken, or it has a fresh
      snapshot. */
  ghost predicate ClaimUnderWay(s: State, id: JobId) {
    exists p :: PhaseOf(s, p) == Delivered(id) || HasFreshSnapshot(s, p, id)
  }

  /** Drain is not switched off. */
  predicate StaysDrained(steps: seq<Step>) {
    forall i :: 0 <= i < |steps| ==> steps[i] != SetDrain(false)
  }

  lemma DeliveriesNeedDrainOff(s: State, step: Step, p: Proc)
    requires Enabled(s, step) && s.db.drain && PhaseOf(Apply(s, step), p).Delivered?
    ensures PhaseOf(Apply(s, step), p) == PhaseOf(s, p)
  {
    OnlyActorMoves(s, step);
  }

  /** No step makes a stale snapshot fresh, and with drain on none begins a claim. */
  lemma NoneComesUnderWay(s: State, step: Step, id: JobId)
    requires Inv(s) && Enabled(s, step) && s.db.drain && !ClaimUnderWay(s, id)
    ensures !ClaimUnderWay(Apply(s, step), id)
  {
    var s' := Apply(s, step);
    StepCountsStart(s, step, id);
    forall p ensures !(PhaseOf(s', p) == Delivered(id) || HasFreshSnapshot(s', p, id)) {
      assert !(PhaseOf(s, p) == Delivered(id) || HasFreshSnapshot(s, p, id));
      if PhaseOf(s', p).Delivered? {
        DeliveriesNeedDrainOff(s, step, p);
      } else if PhaseOf(s', p).Claiming? {
        SnapshotsAreOldOrRead(s, step, p);
        assert PhaseOk(s, PhaseOf(s, p));
      }
    }
  }

  lemma DrainStays(s: State, step: Step)
    requires Enabled(s, step) && s.db.drain && step != SetDrain(false)
    ensures Apply(s, step).db.drain
  {
  }

  /** Drain stops the claims of each job: unless one is under way already, no attempt of it is started before
      drain is switched off, whatever goes on with other jobs. */
  lemma {:induction false} DrainStopsClaims(s: State, steps: seq<Step>, id: JobId)
    requires Inv(s) && Admissible(s, steps) && s.db.drain && StaysDrained(steps) && !ClaimUnderWay(s, id)
    ensures HandlerStarts(s, steps, id) == 0
    decreases |steps|
  {
    if steps == [] {
    } else {
      var step := steps[0];
      if StartsHandler(s, step, id) {
        StartNeedsSnapshot(s, step, id);
      }
      assert steps[0] != SetDrain(false);
      DrainStays(s, step);
      NoneComesUnderWay(s, step, id);
      StepKeepsInv(s, step);
      DrainStopsClaims(Apply(s, step), steps[1..], id);
    }
  }

  // ----- runs that start the job -----

  /** The steps start the job's handler and leave drain on if it is. */
  ghost predicate StartsDrained(s: State, steps: seq<Step>, id: JobId) {
    StaysDrained(steps) && Restarts(s, steps, id)
  }

  lemma LaterStarts(s: State, step: Step, rest: seq<Step>, id: JobId)
    requires Enabled(s, step) && FollowsCron(s, step) && step != SetDrain(false)
    requires StartsDrained(Apply(s, step), rest, id)
    ensures StartsDrained(s, [step] + rest, id)
  {
    LaterRestarts(s, step, rest, id);
  }

  lemma WaitingStarts(s: State, q: Proc, id: JobId) returns (steps: seq<Step>)
    requires Inv(s) && id in s.db.jobs && IsPending(s.db.jobs[id].status) && PhaseOf(s, q) == Delivered(id)
    ensures StartsDrained(s, steps, id)
  {
    DeliveredStarts(s, q, id);
    steps := [ReadRow(q)] + CommitWhenDue(Apply(s, ReadRow(q)), q);
  }

  lemma FailureCommitted(s: State, p: Proc, id: JobId, at: Time)
    requires Inv(s) && CanMark(s, p, at, at) && PhaseOf(s, p).verdict.Bad? && PhaseOf(s, p).snap.id == id
    requires !Exhausted(s.db.jobs[id])
    ensures var s' := MarkStep(s, p, at, at);
            && id in s'.db.jobs && IsPending(s'.db.jobs[id].status)
            && (forall q :: q != p ==> PhaseOf(s', q) == PhaseOf(s, q))
  {
    assert PhaseOk(s, PhaseOf(s, p));
  }

  /** A failing mark makes the job pending for a claim that waits with its message. */
  lemma MarkingStarts(s: State, p: Proc, q: Proc, id: JobId) returns (steps: seq<Step>)
    requires Inv(s) && PhaseOf(s, q) == Delivered(id) && id in s.db.jobs && !Exhausted(s.db.jobs[id])
    requires PhaseOf(s, p).Marking? && PhaseOf(s, p).verdict.Bad? && PhaseOf(s, p).snap.id == id
    ensures StartsDrained(s, steps, id)
  {
    var wait := Tick(PhaseOf(s, p).readAt);
    var at := s.clock + PhaseOf(s, p).readAt;
    StepKeepsInv(s, wait);
    var later := Apply(s, wait);
    assert PhaseOf(later, p) == PhaseOf(s, p) && PhaseOf(later, q) == PhaseOf(s, q);
    FailureCommitted(later, p, id, at);
    StepKeepsInv(later, MarkCommit(p, at, at));
    var rest := WaitingStarts(MarkStep(later, p, at, at), q, id);
    LaterStarts(later, MarkCommit(p, at, at), rest, id);
    LaterStarts(s, wait, [MarkCommit(p, at, at)] + rest, id);
    steps := [wait] + ([MarkCommit(p, at, at)] + rest);
  }

  lemma ExecutingStarts(s: State, p: Proc, q: Proc, id: JobId) returns (steps: seq<Step>)
    requires Inv(s) && PhaseOf(s, q) == Delivered(id) && id in s.db.jobs && !Exhausted(s.db.jobs[id])
    requires PhaseOf(s, p).Executing? && PhaseOf(s, p).job == id
    ensures StartsDrained(s, steps, id)
  {
    var read := ReadForMark(p, Bad(HandlerFailed("")));
    StepKeepsInv(s, read);
    OnlyActorMoves(s, read);
    assert s.db.jobs[id].id == id;
    var rest := MarkingStarts(Apply(s, read), p, q, id);
    LaterStarts(s, read, rest, id);
    steps := [read] + rest;
  }

  lemma SearchRaised(s: State, p: Proc, t: Time, error: ServiceError)
    requires Inv(s) && PhaseOf(s, p).Recurring? && PhaseOf(s, p).since <= t <= s.clock
    requires PhaseOf(s, p).job in s.db.jobs && HasCron(s.db.jobs[PhaseOf(s, p).job])
    requires CronSearch.NextRun(s.db.jobs[PhaseOf(s, p).job].recurringCron.value, t) == Err(error)
    ensures var step := NoNextRun(p, t, error);
            && Enabled(s, step) && FollowsCron(s, step) && Apply(s, step).db == s.db
            && PhaseOf(Apply(s, step), p) == Marking(s.db.jobs[PhaseOf(s, p).job], Bad(Raised(error)), s.clock)
            && (forall q :: q != p ==> PhaseOf(Apply(s, step), q) == PhaseOf(s, q))
  {
  }

  lemma RecurringStarts(s: State, p: Proc, q: Proc, id: JobId) returns (steps: seq<Step>)
    requires Inv(s) && PhaseOf(s, q) == Delivered(id) && id in s.db.jobs && !Exhausted(s.db.jobs[id])
    requires PhaseOf(s, p).Recurring? && PhaseOf(s, p).job == id && SearchMayRaise(s.db.jobs[id], PhaseOf(s, p).since)
    ensures StartsDrained(s, steps, id)
  {
    var cron := s.db.jobs[id].recurringCron.value;
    var t: Time :| PhaseOf(s, p).since <= t && CronSearch.NextRun(cron, t).Err?;
    var wait, raise := Tick(t), NoNextRun(p, t, CronSearch.NextRun(cron, t).error);
    StepKeepsInv(s, wait);
    var later := Apply(s, wait);
    assert PhaseOf(later, p) == PhaseOf(s, p) && PhaseOf(later, q) == PhaseOf(s, q);
    SearchRaised(later, p, t, CronSearch.NextRun(cron, t).error);
    StepKeepsInv(later, raise);
    assert s.db.jobs[id].id == id;
    var rest := MarkingStarts(Apply(later, raise), p, q, id);
    LaterStarts(later, raise, rest, id);
    LaterStarts(s, wait, [raise] + rest, id);
    steps := [wait] + ([raise] + rest);
  }

  lemma SuccessCommitted(s: State, p: Proc, id: JobId, at: Time)
    requires Inv(s) && CanMark(s, p, at, at) && PhaseOf(s, p).verdict.Good? && PhaseOf(s, p).snap.id == id
    ensures var s' := MarkStep(s, p, at, at);
            && id in s'.db.jobs && SameButProgress(s'.db.jobs[id], s.db.jobs[id])
            && PhaseOf(s', p) == Recurring(id, PhaseOf(s, p).snap.attemptCount, at)
            && (forall q :: q != p ==> PhaseOf(s', q) == PhaseOf(s, q))
  {
    MarkKeeps(s, p, at, at, id);
  }

  lemma GoodMarkStarts(s: State, p: Proc, q: Proc, id: JobId) returns (steps: seq<Step>)
    requires Inv(s) && PhaseOf(s, q) == Delivered(id) && id in s.db.jobs && !Exhausted(s.db.jobs[id])
    requires PhaseOf(s, p).Marking? && PhaseOf(s, p).verdict.Good? && PhaseOf(s, p).snap.id == id
    requires SearchMayRaise(s.db.jobs[id], PhaseOf(s, p).readAt) && PhaseOf(s, p).readAt <= s.clock
    ensures StartsDrained(s, steps, id)
  {
    var at := PhaseOf(s, p).readAt;
    var mark := MarkCommit(p, at, at);
    SuccessCommitted(s, p, id, at);
    StepKeepsInv(s, mark);
    var rest := RecurringStarts(MarkStep(s, p, at, at), p, q, id);
    LaterStarts(s, mark, rest, id);
    steps := [mark] + rest;
  }

  lemma SucceedingStarts(s: State, p: Proc, q: Proc, id: JobId) returns (steps: seq<Step>)
    requires Inv(s) && PhaseOf(s, q) == Delivered(id) && id in s.db.jobs && !Exhausted(s.db.jobs[id])
    requires PhaseOf(s, p).Marking? && PhaseOf(s, p).verdict.Good? && PhaseOf(s, p).snap.id == id
    requires SearchMayRaise(s.db.jobs[id], PhaseOf(s, p).readAt)
    ensures StartsDrained(s, steps, id)
  {
    var wait := Tick(PhaseOf(s, p).readAt);
    StepKeepsInv(s, wait);
    var later := Apply(s, wait);
    assert PhaseOf(later, p) == PhaseOf(s, p) && PhaseOf(later, q) == PhaseOf(s, q);
    var rest := GoodMarkStarts(later, p, q, id);
    LaterStarts(s, wait, rest, id);
    steps := [wait] + rest;
  }

  /** A claim that waits with its message starts the job once it is pending. */
  lemma MayBePendingStarts(s: State, q: Proc, id: JobId) returns (steps: seq<Step>)
    requires Inv(s) && PhaseOf(s, q) == Delivered(id) && MayBePending(s, id)
    ensures StartsDrained(s, steps, id)
  {
    if IsPending(s.db.jobs[id].status) {
      steps := WaitingStarts(s, q, id);
    } else {
      var p :| MayFail(s, p, id);
      match PhaseOf(s, p)
      case Executing(_, _) => steps := ExecutingStarts(s, p, q, id);
      case Recurring(_, _, _) => steps := RecurringStarts(s, p, q, id);
      case Marking(_, verdict, _) =>
        if verdict.Bad? {
          steps := MarkingStarts(s, p, q, id);
        } else {
          steps := SucceedingStarts(s, p, q, id);
        }
    }
  }

  lemma {:induction false} Above(keys: set<nat>) returns (bound: nat)
    ensures forall k :: k in keys ==> k < bound
    decreases |keys|
  {
    if keys == {} {
      bound := 0;
    } else {
      var k :| k in keys;
      var rest := Above(keys - {k});
      bound := if k < rest then rest else k + 1;
      forall j | j in keys ensures j < bound {
        assert j == k || j in keys - {k};
      }
    }
  }

  /** There is always a process that does nothing. */
  lemma SomebodyIdle(s: State) returns (q: Proc)
    ensures PhaseOf(s, q) == Idle
  {
    q := Above(s.procs.Keys);
  }

  const ANY_REQUEST: JobCreate := Submission("echo", [], 0, 3, 30, None, None, None)

  lemma InsertingStarts(s: State, r: Proc, q: Proc, id: JobId) returns (steps: seq<Step>)
    requires Inv(s) && PhaseOf(s, q) == Delivered(id) && id !in s.db.jobs
    requires PhaseOf(s, r) == Inserting(ANY_REQUEST, s.clock)
    ensures StartsDrained(s, steps, id)
  {
    var insert := InsertCommit(r, id, s.clock);
    StepKeepsInv(s, insert);
    var inserted := Apply(s, insert);
    assert PhaseOf(inserted, q) == PhaseOf(s, q);
    var rest := WaitingStarts(inserted, q, id);
    LaterStarts(s, insert, rest, id);
    steps := [insert] + rest;
  }

  /** A message may be taken for an id before the job with it is submitted. */
  lemma UnknownStarts(s: State, q: Proc, id: JobId) returns (steps: seq<Step>)
    requires Inv(s) && PhaseOf(s, q) == Delivered(id) && id !in s.db.jobs
    ensures StartsDrained(s, steps, id)
  {
    var r := SomebodyIdle(s);
    var look := LookUp(r, ANY_REQUEST, None);
    StepKeepsInv(s, look);
    var looked := Apply(s, look);
    assert PhaseOf(looked, r) == Inserting(ANY_REQUEST, s.clock) && PhaseOf(looked, q) == PhaseOf(s, q);
    var rest := InsertingStarts(looked, r, q, id);
    LaterStarts(s, look, rest, id);
    steps := [look] + rest;
  }

  lemma TakenStarts(s: State, q: Proc, id: JobId) returns (steps: seq<Step>)
    requires Inv(s) && PhaseOf(s, q) == Delivered(id) && (id !in s.db.jobs || MayBePending(s, id))
    ensures StartsDrained(s, steps, id)
  {
    if id in s.db.jobs {
      steps := MayBePendingStarts(s, q, id);
    } else {
      steps := UnknownStarts(s, q, id);
    }
  }

  lemma DeliveryKeepsMayBePending(s: State, q: Proc, id: JobId)
    requires PhaseOf(s, q) == Idle
    ensures var taken := Apply(Apply(s, SetDrain(false)), Deliver(q, id));
            && taken.db.jobs == s.db.jobs && PhaseOf(taken, q) == Delivered(id)
            && (MayBePending(s, id) ==> MayBePending(taken, id))
  {
    var taken := Apply(Apply(s, SetDrain(false)), Deliver(q, id));
    forall p | MayFail(s, p, id) ensures MayFail(taken, p, id) {
      assert PhaseOf(taken, p) == PhaseOf(s, p);
    }
  }

  /** With drain switched off a message can be taken first. */
  lemma DeliveryStarts(s: State, id: JobId) returns (steps: seq<Step>)
    requires Inv(s) && (id !in s.db.jobs || MayBePending(s, id))
    ensures Restarts(s, steps, id)
  {
    var open := Apply(s, SetDrain(false));
    StepKeepsInv(s, SetDrain(false));
    var q := SomebodyIdle(open);
    StepKeepsInv(open, Deliver(q, id));
    var taken := Apply(open, Deliver(q, id));
    DeliveryKeepsMayBePending(s, q, id);
    var rest := TakenStarts(taken, q, id);
    LaterRestarts(open, Deliver(q, id), rest, id);
    LaterRestarts(s, SetDrain(false), [Deliver(q, id)] + rest, id);
    steps := [SetDrain(false)] + ([Deliver(q, id)] + rest);
  }

  // ----- exactly when -----

  /** In every state that keeps the invariant, some run starts the job if and only if it does not exist yet, is pending,
      has attempts left and a live holder that may still fail the present one, or a claim has a fresh snapshot of it. */
  lemma StartableIff(s: State, id: JobId)
    requires Inv(s)
    ensures (exists steps :: Restarts(s, steps, id)) <==>
            id !in s.db.jobs || MayBePending(s, id) || exists p :: HasFreshSnapshot(s, p, id)
  {
    if id !in s.db.jobs || MayBePending(s, id) {
      var steps := DeliveryStarts(s, id);
    } else if p: Proc :| HasFreshSnapshot(s, p, id) {
      FreshSnapshotStarts(s, p, id);
    } else {
      forall steps ensures !Restarts(s, steps, id) {
        if Admissible(s, steps) {
          NeverAgainForever(s, steps, id);
        }
      }
    }
  }

  /** While drain stays on, some run starts the job if and only if a claim has a fresh snapshot of it, or one has
      taken its message and the job does not exist yet or may be pending when the claim reads it. */
  lemma DrainedStartableIff(s: State, id: JobId)
    requires Inv(s) && s.db.drain
    ensures (exists steps :: StartsDrained(s, steps, id)) <==>
            || (exists p :: HasFreshSnapshot(s, p, id))
            || ((exists p :: PhaseOf(s, p) == Delivered(id)) && (id !in s.db.jobs || MayBePending(s, id)))
  {
    if p: Proc :| HasFreshSnapshot(s, p, id) {
      FreshSnapshotStarts(s, p, id);
      assert StartsDrained(s, CommitWhenDue(s, p), id);
    } else if q: Proc :| PhaseOf(s, q) == Delivered(id) {
      if id !in s.db.jobs || MayBePending(s, id) {
        var steps := TakenStarts(s, q, id);
      } else {
        forall steps ensures !StartsDrained(s, steps, id) {
          if Admissible(s, steps) {
            NeverAgainForever(s, steps, id);
          }
        }
      }
    } else {
      forall steps ensures !StartsDrained(s, steps, id) {
        if Admissible(s, steps) && StaysDrained(steps) {
          DrainStopsClaims(s, steps, id);
        }
      }
    }
  }
}
