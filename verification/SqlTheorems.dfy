// What every run of the split-transaction protocol guarantees.
module SqlTheorems {
  import opened Core
  import opened Jobs
  import opened SqlTables
  import opened SqlProtocol
  import opened SqlInvariant

  // ----- mutual exclusion and the attempts table -----

  /** In every interleaving at most one process, crashed ones included, has an attempt of a job in hand,
      and it is the job's latest attempt. */
  lemma MutualExclusion(steps: seq<Step>, p: Proc, q: Proc, id: JobId)
    requires Admissible(START, steps)
    requires var s := Run(START, steps); Held(PhaseOf(s, p)) == Some(id) && Held(PhaseOf(s, q)) == Some(id)
    ensures p == q
    ensures var s := Run(START, steps);
            && id in s.db.jobs && !IsPending(s.db.jobs[id].status)
            && HeldAttempt(PhaseOf(s, p)) == s.db.jobs[id].attemptCount
  {
    StartInv();
    RunKeepsInv(START, steps);
    var s := Run(START, steps);
    assert PhaseOk(s, PhaseOf(s, p));
  }

  /** In every reachable state a job's attempt rows are exactly 1..attempt_count, only the latest can be
      unfinished, and a job that waits for an attempt has none unfinished. */
  lemma AttemptHistory(steps: seq<Step>, id: JobId, n: nat)
    requires Admissible(START, steps)
    ensures var db := Run(START, steps).db;
            && ((id, n) in db.attempts <==> id in db.jobs && 1 <= n <= db.jobs[id].attemptCount)
            && ((id, n) in db.attempts && db.attempts[(id, n)].finishedAt.None? ==>
                  n == db.jobs[id].attemptCount && !IsPending(db.jobs[id].status))
  {
    StartInv();
    RunKeepsInv(START, steps);
    var s := Run(START, steps);
    if (id, n) in s.db.attempts && IsPending(s.db.jobs[id].status) {
      assert Quiet(s, id);
    }
  }

  // ----- what stays -----

  /** The columns fixed at creation agree, and so do the attempt counts. */
  predicate SameButProgress(a: JobRecord, b: JobRecord) {
    SameIdentity(a, b) && a.attemptCount == b.attemptCount
  }

  lemma SuccessKeeps(db: Tables, snap: JobRecord, result: Payload, now: Time, finishedAt: Time, id: JobId)
    requires snap.id in db.jobs && id in db.jobs
    ensures var jobs := CommitSucceeded(db, snap, result, now, finishedAt).jobs;
            jobs.Keys == db.jobs.Keys && SameButProgress(jobs[id], db.jobs[id])
  {
  }

  lemma FailureKeeps(db: Tables, snap: JobRecord, failure: Failure, backoff: Time, now: Time, finishedAt: Time,
        id: JobId)
    requires snap.id in db.jobs && id in db.jobs
    ensures var jobs := CommitFailed(db, snap, failure, backoff, now, finishedAt).jobs;
            jobs.Keys == db.jobs.Keys && SameButProgress(jobs[id], db.jobs[id])
  {
  }

  lemma MarkKeeps(s: State, p: Proc, at: Time, finishedAt: Time, id: JobId)
    requires CanMark(s, p, at, finishedAt)
    ensures MarkStep(s, p, at, finishedAt).db.jobs.Keys == s.db.jobs.Keys
    ensures id in s.db.jobs ==> SameButProgress(MarkStep(s, p, at, finishedAt).db.jobs[id], s.db.jobs[id])
  {
    var snap := PhaseOf(s, p).snap;
    var kept := if id in s.db.jobs then id else snap.id;
    match PhaseOf(s, p).verdict
    case Good(result) => SuccessKeeps(s.db, snap, result, at, finishedAt, kept);
    case Bad(failure) => FailureKeeps(s.db, snap, failure, Backoff(snap.attemptCount), at, finishedAt, kept);
  }

  lemma ClaimKeepsIdentity(s: State, p: Proc, worker: string, at: Time, id: JobId)
    requires CanClaim(s, p, at) && id in s.db.jobs
    ensures var after := ClaimStep(s, p, worker, at).db.jobs; id in after && SameIdentity(after[id], s.db.jobs[id])
  {
  }

  lemma StepKeepsIdentity(s: State, step: Step, id: JobId)
    requires Enabled(s, step) && id in s.db.jobs
    ensures id in Apply(s, step).db.jobs && SameIdentity(Apply(s, step).db.jobs[id], s.db.jobs[id])
  {
    if !Writes(step) {
      ReadersWriteNothing(s, step);
    } else if step.ClaimCommit? {
      ClaimKeepsIdentity(s, step.p, step.worker, step.at, id);
    } else if step.MarkCommit? {
      MarkKeeps(s, step.p, step.at, step.finishedAt, id);
    }
  }

  /** No run changes the columns fixed at creation, or takes a row away, stale commits included. */
  lemma {:induction false} RunKeepsIdentity(s: State, steps: seq<Step>, id: JobId)
    requires Admissible(s, steps) && id in s.db.jobs
    ensures id in Run(s, steps).db.jobs && SameIdentity(Run(s, steps).db.jobs[id], s.db.jobs[id])
    decreases |steps|
  {
    if steps == [] {
    } else {
      StepKeepsIdentity(s, steps[0], id);
      RunKeepsIdentity(Apply(s, steps[0]), steps[1..], id);
    }
  }

  // ----- retry bound -----

  function AttemptsOf(s: State, id: JobId): nat {
    if id in s.db.jobs then s.db.jobs[id].attemptCount else 0
  }

  /** Does this step start the handler of job `id`? */
  predicate StartsHandler(s: State, step: Step, id: JobId)
    requires Enabled(s, step)
  {
    step.ClaimCommit? && PhaseOf(s, step.p).snap.id == id && PhaseOf(Apply(s, step), step.p).Executing?
  }

  /** How often the steps start the handler of job `id`. */
  function HandlerStarts(s: State, steps: seq<Step>, id: JobId): nat
    requires Admissible(s, steps)
    decreases |steps|
  {
    if steps == [] then 0
    else (if StartsHandler(s, steps[0], id) then 1 else 0) + HandlerStarts(Apply(s, steps[0]), steps[1..], id)
  }

  lemma ClaimCountsStart(s: State, step: Step, id: JobId)
    requires Inv(s) && Enabled(s, step) && step.ClaimCommit?
    ensures AttemptsOf(Apply(s, step), id) == AttemptsOf(s, id) + (if StartsHandler(s, step, id) then 1 else 0)
  {
    ClaimComparesAndSwaps(s, step.p, step.worker, step.at);
  }

  lemma OthersStartNothing(s: State, step: Step, id: JobId)
    requires Enabled(s, step) && !step.ClaimCommit?
    ensures AttemptsOf(Apply(s, step), id) == AttemptsOf(s, id)
  {
    if !Writes(step) {
      ReadersWriteNothing(s, step);
    } else if step.MarkCommit? {
      MarkKeeps(s, step.p, step.at, step.finishedAt, id);
    }
  }

  lemma StepCountsStart(s: State, step: Step, id: JobId)
    requires Inv(s) && Enabled(s, step)
    ensures AttemptsOf(Apply(s, step), id) == AttemptsOf(s, id) + (if StartsHandler(s, step, id) then 1 else 0)
  {
    if step.ClaimCommit? {
      ClaimCountsStart(s, step, id);
    } else {
      OthersStartNothing(s, step, id);
    }
  }

  lemma {:induction false} StartsAreCounted(s: State, steps: seq<Step>, id: JobId)
    requires Inv(s) && Admissible(s, steps)
    ensures AttemptsOf(Run(s, steps), id) == AttemptsOf(s, id) + HandlerStarts(s, steps, id)
    decreases |steps|
  {
    if steps == [] {
    } else {
      StepCountsStart(s, steps[0], id);
      StepKeepsInv(s, steps[0]);
      StartsAreCounted(Apply(s, steps[0]), steps[1..], id);
    }
  }

  /** However messages are lost, duplicated or reordered, a job's handler is started at most
      max_retries + 1 times, and its status says how many of these have been used. */
  lemma RetryBound(steps: seq<Step>, id: JobId)
    requires Admissible(START, steps) && id in Run(START, steps).db.jobs
    ensures var job := Run(START, steps).db.jobs[id];
            && HandlerStarts(START, steps, id) == job.attemptCount
            && HandlerStarts(START, steps, id) <= job.maxRetries + 1
            && RetryShape(job)
  {
    StartInv();
    RunKeepsInv(START, steps);
    StartsAreCounted(START, steps, id);
  }

  // ----- cumulative backoff -----

  lemma {:induction false} SpacedAddsUp(db: Tables, id: JobId, n: nat)
    requires Contiguous(db) && Spaced(db) && (id, n) in db.attempts
    ensures (id, 1) in db.attempts
    ensures db.attempts[(id, 1)].startedAt + BackoffBefore(n) * 1_000_000 <= db.attempts[(id, n)].startedAt
    decreases n
  {
    if n == 1 {
    } else {
      assert (id, n - 1) in db.attempts;
      SpacedAddsUp(db, id, n - 1);
      assert (id, n - 1 + 1) in db.attempts;
    }
  }

  /** Attempt n starts at least 2^(n-1) - 1 seconds after the first for n <= 10, and 511 + 300 (n - 10) for more. */
  lemma CumulativeBackoff(steps: seq<Step>, id: JobId, n: nat)
    requires Admissible(START, steps) && (id, n) in Run(START, steps).db.attempts
    ensures n >= 1 && (id, 1) in Run(START, steps).db.attempts
    ensures var attempts := Run(START, steps).db.attempts;
            var seconds := if n <= 10 then Pow2(n - 1) - 1 else 511 + 300 * (n - 10);
            attempts[(id, 1)].startedAt + seconds * 1_000_000 <= attempts[(id, n)].startedAt
  {
    StartInv();
    RunKeepsInv(START, steps);
    SpacedAddsUp(Run(START, steps).db, id, n);
    BackoffBeforeClosedForm(n);
  }

  // ----- what cancellation and drain do guarantee -----

  /** The job is finished, nobody who holds it is still alive, and every claim that has read it read an earlier
      attempt count. */
  ghost predicate Closed(s: State, id: JobId) {
    && id in s.db.jobs && IsTerminal(s.db.jobs[id].status)
    && (forall p :: Held(PhaseOf(s, p)) == Some(id) ==> PhaseOf(s, p).Crashed?)
    && (forall p :: PhaseOf(s, p).Claiming? && PhaseOf(s, p).snap.id == id ==>
          PhaseOf(s, p).snap.attemptCount < s.db.jobs[id].attemptCount)
  }

  /** A claim commit touches the row of a closed job only to abort. */
  lemma ClosedClaim(s: State, step: Step, id: JobId)
    requires Inv(s) && Enabled(s, step) && step.ClaimCommit? && Closed(s, id)
    ensures id in Apply(s, step).db.jobs && Apply(s, step).db.jobs[id] == s.db.jobs[id]
  {
    ClaimComparesAndSwaps(s, step.p, step.worker, step.at);
  }

  lemma ClosedMark(s: State, step: Step, id: JobId)
    requires Enabled(s, step) && step.MarkCommit? && Closed(s, id)
    ensures id in Apply(s, step).db.jobs && Apply(s, step).db.jobs[id] == s.db.jobs[id]
  {
    assert Held(PhaseOf(s, step.p)) == Some(PhaseOf(s, step.p).snap.id);
  }

  lemma ClosedRow(s: State, step: Step, id: JobId)
    requires Inv(s) && Enabled(s, step) && Closed(s, id)
    ensures id in Apply(s, step).db.jobs
    ensures var row := Apply(s, step).db.jobs[id];
            && (row.status == s.db.jobs[id].status || row.status == Cancelled)
            && row.attemptCount == s.db.jobs[id].attemptCount
  {
    if !Writes(step) {
      ReadersWriteNothing(s, step);
    } else if step.ClaimCommit? {
      ClosedClaim(s, step, id);
    } else if step.MarkCommit? {
      ClosedMark(s, step, id);
    }
  }

  lemma ClaimOfClosedAborts(s: State, step: Step, p: Proc, id: JobId)
    requires Inv(s) && Enabled(s, step) && Closed(s, id)
    requires step.ClaimCommit? && step.p == p && PhaseOf(s, p).Claiming? && PhaseOf(s, p).snap.id == id
    ensures PhaseOf(Apply(s, step), p) == Idle
  {
    ClaimComparesAndSwaps(s, p, step.worker, step.at);
  }

  lemma ClosedStep(s: State, step: Step, id: JobId)
    requires Inv(s) && Enabled(s, step) && Closed(s, id)
    ensures Closed(Apply(s, step), id)
    ensures Apply(s, step).db.jobs[id].status == s.db.jobs[id].status || Apply(s, step).db.jobs[id].status == Cancelled
    ensures Apply(s, step).db.jobs[id].attemptCount == s.db.jobs[id].attemptCount
  {
    var s' := Apply(s, step);
    ClosedRow(s, step, id);
    forall p ensures PhaseOk(s, PhaseOf(s, p)) {}
    forall p | Held(PhaseOf(s', p)) == Some(id) ensures PhaseOf(s', p).Crashed? {
      if !PhaseOf(s', p).Crashed? {
        HoldsComeFromClaims(s, step, p, id);
        ClaimOfClosedAborts(s, step, p, id);
      }
    }
    forall p | PhaseOf(s', p).Claiming? && PhaseOf(s', p).snap.id == id
      ensures PhaseOf(s', p).snap.attemptCount < s'.db.jobs[id].attemptCount
    {
      SnapshotsComeFromReads(s, step, p);
    }
  }

  /** A cancellation has read the job as pending and not committed yet. */
  ghost predicate CancelUnderWay(s: State, id: JobId) {
    exists p :: PhaseOf(s, p).Cancelling? && PhaseOf(s, p).job == id
  }

  lemma NewCancelling(s: State, step: Step, p: Proc, id: JobId)
    requires Enabled(s, step) && id in s.db.jobs && !IsPending(s.db.jobs[id].status) && !CancelUnderWay(s, id)
    ensures !(PhaseOf(Apply(s, step), p).Cancelling? && PhaseOf(Apply(s, step), p).job == id)
  {
    assert !(PhaseOf(s, p).Cancelling? && PhaseOf(s, p).job == id);
    OnlyActorMoves(s, step);
  }

  lemma UncancelledRow(s: State, step: Step, id: JobId)
    requires Inv(s) && Enabled(s, step) && Closed(s, id) && !CancelUnderWay(s, id)
    ensures id in Apply(s, step).db.jobs && Apply(s, step).db.jobs[id].status == s.db.jobs[id].status
  {
    if !Writes(step) {
      ReadersWriteNothing(s, step);
    } else if step.ClaimCommit? {
      ClosedClaim(s, step, id);
    } else if step.MarkCommit? {
      ClosedMark(s, step, id);
    }
  }

  /** Nobody reads a closed job as pending any more, so no cancellation of it comes under way, and without one its
      status stands. */
  lemma UncancelledStep(s: State, step: Step, id: JobId)
    requires Inv(s) && Enabled(s, step) && Closed(s, id) && !CancelUnderWay(s, id)
    ensures id in Apply(s, step).db.jobs && Apply(s, step).db.jobs[id].status == s.db.jobs[id].status
    ensures !CancelUnderWay(Apply(s, step), id)
  {
    UncancelledRow(s, step, id);
    forall p ensures !(PhaseOf(Apply(s, step), p).Cancelling? && PhaseOf(Apply(s, step), p).job == id) {
      NewCancelling(s, step, p, id);
    }
  }

  /** A closed job is never started again. It keeps its status unless a cancellation of it is under way already, and
      a cancelled one keeps it always. */
  lemma {:induction false} ClosedForever(s: State, steps: seq<Step>, id: JobId)
    requires Inv(s) && Admissible(s, steps) && Closed(s, id)
    ensures Closed(Run(s, steps), id)
    ensures Run(s, steps).db.jobs[id].status == s.db.jobs[id].status || Run(s, steps).db.jobs[id].status == Cancelled
    ensures !CancelUnderWay(s, id) ==> Run(s, steps).db.jobs[id].status == s.db.jobs[id].status
    ensures HandlerStarts(s, steps, id) == 0
    decreases |steps|
  {
    if steps == [] {
    } else {
      ClosedStep(s, steps[0], id);
      if !CancelUnderWay(s, id) {
        UncancelledStep(s, steps[0], id);
      }
      StepKeepsInv(s, steps[0]);
      StepCountsStart(s, steps[0], id);
      ClosedForever(Apply(s, steps[0]), steps[1..], id);
    }
  }

  /** The run ends with the job cancelled. */
  ghost predicate Cancels(s: State, steps: seq<Step>, id: JobId) {
    Admissible(s, steps) && id in Run(s, steps).db.jobs && Run(s, steps).db.jobs[id].status == Cancelled
  }

  lemma CancelCommits(s: State, p: Proc, id: JobId)
    requires PhaseOf(s, p).Cancelling? && PhaseOf(s, p).job == id && id in s.db.jobs
    ensures var wait := Tick(PhaseOf(s, p).readAt);
            Cancels(s, [wait, CancelCommit(p, s.clock + PhaseOf(s, p).readAt)], id)
  {
    var wait, commit := Tick(PhaseOf(s, p).readAt), CancelCommit(p, s.clock + PhaseOf(s, p).readAt);
    var later := Apply(s, wait);
    assert PhaseOf(later, p) == PhaseOf(s, p);
    var after := Apply(later, commit);
    assert [wait, commit][1..] == [commit] && [commit][1..] == [];
    assert Admissible(after, []) && Run(after, []) == after;
    assert Admissible(later, [commit]) && Run(later, [commit]) == after;
  }

  /** Exactly when a cancellation can still overwrite what a finished job ended as: when one had read the job as
      pending and has not committed. */
  lemma LateCancelIff(s: State, id: JobId)
    requires Inv(s) && Closed(s, id) && s.db.jobs[id].status != Cancelled
    ensures (exists steps :: Cancels(s, steps, id)) <==> CancelUnderWay(s, id)
  {
    if CancelUnderWay(s, id) {
      var p :| PhaseOf(s, p).Cancelling? && PhaseOf(s, p).job == id;
      CancelCommits(s, p, id);
    } else {
      forall steps ensures !Cancels(s, steps, id) {
        if Admissible(s, steps) {
          ClosedForever(s, steps, id);
        }
      }
    }
  }

  /** The job is not pending in any state the run passes through. */
  ghost predicate NeverPending(s: State, steps: seq<Step>, id: JobId)
    requires Admissible(s, steps)
    decreases |steps|
  {
    && id in s.db.jobs && !IsPending(s.db.jobs[id].status)
    && (steps == [] || NeverPending(Apply(s, steps[0]), steps[1..], id))
  }

  /** Nothing but the commit of a cancellation cancels a job. */
  lemma OnlyCancelsCancel(s: State, step: Step, id: JobId)
    requires Enabled(s, step) && id in s.db.jobs && s.db.jobs[id].status != Cancelled && !CancelUnderWay(s, id)
    ensures id in Apply(s, step).db.jobs && Apply(s, step).db.jobs[id].status != Cancelled
  {
    StepKeepsIdentity(s, step, id);
    if !Writes(step) {
      ReadersWriteNothing(s, step);
    }
  }

  lemma {:induction false} NotOverwritten(s: State, steps: seq<Step>, id: JobId)
    requires Admissible(s, steps) && NeverPending(s, steps, id)
    requires s.db.jobs[id].status != Cancelled && !CancelUnderWay(s, id)
    ensures !Cancels(s, steps, id)
    decreases |steps|
  {
    if steps == [] {
    } else {
      OnlyCancelsCancel(s, steps[0], id);
      forall p ensures !(PhaseOf(Apply(s, steps[0]), p).Cancelling? && PhaseOf(Apply(s, steps[0]), p).job == id) {
        NewCancelling(s, steps[0], p, id);
      }
      NotOverwritten(Apply(s, steps[0]), steps[1..], id);
    }
  }

  lemma StaysOverwritten(s: State, p: Proc, id: JobId)
    requires PhaseOf(s, p).Cancelling? && PhaseOf(s, p).job == id
    requires id in s.db.jobs && !IsPending(s.db.jobs[id].status)
    ensures var steps := [Tick(PhaseOf(s, p).readAt), CancelCommit(p, s.clock + PhaseOf(s, p).readAt)];
            Admissible(s, steps) && NeverPending(s, steps, id)
  {
    var wait, commit := Tick(PhaseOf(s, p).readAt), CancelCommit(p, s.clock + PhaseOf(s, p).readAt);
    var later := Apply(s, wait);
    assert PhaseOf(later, p) == PhaseOf(s, p);
    assert [wait, commit][1..] == [commit] && [commit][1..] == [];
    assert Admissible(Apply(later, commit), []) && NeverPending(Apply(later, commit), [], id);
    assert Admissible(later, [commit]) && NeverPending(later, [commit], id);
  }

  /** Exactly when a cancellation can overwrite a job that is running, succeeded or dead-lettered without its having
      been pending again in between: when one had read it as pending before and has not committed. */
  lemma OverwrittenIff(s: State, id: JobId)
    requires id in s.db.jobs && !IsPending(s.db.jobs[id].status) && s.db.jobs[id].status != Cancelled
    ensures (exists steps :: Cancels(s, steps, id) && NeverPending(s, steps, id)) <==> CancelUnderWay(s, id)
  {
    if CancelUnderWay(s, id) {
      var p :| PhaseOf(s, p).Cancelling? && PhaseOf(s, p).job == id;
      CancelCommits(s, p, id);
      var wait, commit := Tick(PhaseOf(s, p).readAt), CancelCommit(p, s.clock + PhaseOf(s, p).readAt);
      StaysOverwritten(s, p, id);
      assert Cancels(s, [wait, commit], id) && NeverPending(s, [wait, commit], id);
    } else {
      forall steps ensures !(Cancels(s, steps, id) && NeverPending(s, steps, id)) {
        if Admissible(s, steps) && NeverPending(s, steps, id) {
          NotOverwritten(s, steps, id);
        }
      }
    }
  }
}
