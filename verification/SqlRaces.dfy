// What split transactions let through: a claim that read a job before it was cancelled, or drain before it was
// switched on, still commits; a failed attempt that is read back late sends a second dead letter; a cancellation that
// read a job as pending overwrites what it has become meanwhile.
module SqlRaces {
  import opened Core
  import opened Jobs
  import opened SqlTables
  import opened SqlProtocol
  import opened SqlInvariant
  import opened SqlTheorems

  /** A claim of a job that has been cancelled starts the handler exactly when no attempt was started since the
      claim read the job, which it then read as pending. */
  lemma CancelledIsClaimedIff(steps: seq<Step>, p: Proc, worker: string, at: Time)
    requires Admissible(START, steps) && Enabled(Run(START, steps), ClaimCommit(p, worker, at))
    requires var s := Run(START, steps); s.db.jobs[PhaseOf(s, p).snap.id].status == Cancelled
    ensures var s := Run(START, steps);
            var snap := PhaseOf(s, p).snap;
            && IsPending(snap.status)
            && (StartsHandler(s, ClaimCommit(p, worker, at), snap.id) <==>
                snap.attemptCount == s.db.jobs[snap.id].attemptCount)
  {
    StartInv();
    RunKeepsInv(START, steps);
    var s := Run(START, steps);
    assert PhaseOk(s, PhaseOf(s, p));
    ClaimComparesAndSwaps(s, p, worker, at);
  }

  // ----- a run that claims a cancelled job while drain is on -----

  lemma {:induction false} LastStep(s: State, steps: seq<Step>, step: Step)
    requires Admissible(s, steps) && Enabled(Run(s, steps), step) && FollowsCron(Run(s, steps), step)
    ensures Admissible(s, steps + [step]) && Run(s, steps + [step]) == Apply(Run(s, steps), step)
    decreases |steps|
  {
    if steps == [] {
      var after := Apply(s, step);
      assert [] + [step] == [step] && [step][1..] == [];
      assert Admissible(after, []) && Run(after, []) == after;
    } else {
      assert (steps + [step])[1..] == steps[1..] + [step];
      LastStep(Apply(s, steps[0]), steps[1..], step);
    }
  }

  lemma OneMore(steps: seq<Step>, step: Step)
    requires Admissible(START, steps) && Enabled(Run(START, steps), step) && !step.NoNextRun? && !step.Spawn?
    ensures Admissible(START, steps + [step]) && Run(START, steps + [step]) == Apply(Run(START, steps), step)
  {
    LastStep(START, steps, step);
  }

  /** One submitted job at time 0, nobody else about. */
  lemma Submitted(p: Proc, request: JobCreate, id: JobId) returns (steps: seq<Step>)
    requires request.idempotencyKey == None
    ensures Admissible(START, steps)
    ensures var s := Run(START, steps);
            && id in s.db.jobs && s.db.jobs[id] == NewJob(request, id, 0)
            && s.db.attempts == map[] && !s.db.drain && s.clock == 0 && s.deadLetters == []
            && (forall q :: q != p ==> PhaseOf(s, q) == Idle)
  {
    steps := [];
    OneMore(steps, LookUp(p, request, None));
    steps := steps + [LookUp(p, request, None)];
    var s := Run(START, steps);
    assert PhaseOf(s, p) == Inserting(request, 0);
    OneMore(steps, InsertCommit(p, id, 0));
    steps := steps + [InsertCommit(p, id, 0)];
  }

  /** What an attempt leaves alone: the clock, drain, the letters and the other processes. */
  ghost predicate OnlyMoves(s: State, s': State, p: Proc) {
    && s'.clock == s.clock && s'.db.drain == s.db.drain && s'.deadLetters == s.deadLetters
    && (forall q :: q != p ==> PhaseOf(s', q) == PhaseOf(s, q))
  }

  lemma ReadDue(before: seq<Step>, p: Proc, id: JobId) returns (steps: seq<Step>)
    requires Admissible(START, before)
    requires var s := Run(START, before);
             PhaseOf(s, p) == Idle && !s.db.drain && id in s.db.jobs && IsPending(s.db.jobs[id].status)
    ensures Admissible(START, steps)
    ensures var s, s' := Run(START, before), Run(START, steps);
            OnlyMoves(s, s', p) && s'.db == s.db && PhaseOf(s', p) == Claiming(s.db.jobs[id], s.clock)
  {
    OneMore(before, Deliver(p, id));
    var delivered := before + [Deliver(p, id)];
    OneMore(delivered, ReadRow(p));
    steps := delivered + [ReadRow(p)];
  }

  /** The job has been read by a claim of `q` while it was still pending. */
  ghost predicate ReadBy(s: State, q: Proc, id: JobId, job: JobRecord) {
    && id in s.db.jobs && s.db.attempts == map[] && s.clock == 0
    && PhaseOf(s, q) == Claiming(job, 0) && job.id == id && job.attemptCount == 0 && IsDue(job, 0)
  }

  lemma CancelledMeanwhile(before: seq<Step>, q: Proc, r: Proc, id: JobId, job: JobRecord) returns (steps: seq<Step>)
    requires Admissible(START, before)
    requires var s := Run(START, before);
             ReadBy(s, q, id, job) && s.db.jobs[id] == job && PhaseOf(s, r) == Idle && r != q
    ensures Admissible(START, steps)
    ensures var s := Run(START, steps); ReadBy(s, q, id, job) && s.db.jobs[id] == MarkedCancelled(job, 0)
  {
    OneMore(before, ReadForCancel(r, id));
    steps := before + [ReadForCancel(r, id)];
    OneMore(steps, CancelCommit(r, 0));
    steps := steps + [CancelCommit(r, 0)];
  }

  lemma DrainedMeanwhile(before: seq<Step>, q: Proc, id: JobId, job: JobRecord) returns (steps: seq<Step>)
    requires Admissible(START, before) && ReadBy(Run(START, before), q, id, job)
    ensures Admissible(START, steps)
    ensures var s, s' := Run(START, before), Run(START, steps);
            ReadBy(s', q, id, job) && s'.db == s.db.(drain := true)
  {
    OneMore(before, SetDrain(true));
    steps := before + [SetDrain(true)];
  }

  /** A cancelled job can be claimed, and a job can be claimed while drain is on: whatever is submitted, there is a
      run in which the cancellation has committed and drain is on, and the next step starts the job's handler. */
  lemma CancelledJobIsClaimed(p: Proc, q: Proc, r: Proc, request: JobCreate, id: JobId, worker: string)
    returns (steps: seq<Step>)
    requires request.idempotencyKey == None && request.runAt == None && p != q && p != r && q != r
    ensures Admissible(START, steps) && id in Run(START, steps).db.jobs
    ensures Run(START, steps).db.jobs[id].status == Cancelled && Run(START, steps).db.drain
    ensures var claim, s := ClaimCommit(q, worker, 0), Run(START, steps);
            && Enabled(s, claim) && StartsHandler(s, claim, id)
            && Apply(s, claim).db.jobs[id].status == Running
  {
    var submitted := Submitted(p, request, id);
    var job := NewJob(request, id, 0);
    var read := ReadDue(submitted, q, id);
    var cancelled := CancelledMeanwhile(read, q, r, id, job);
    steps := DrainedMeanwhile(cancelled, q, id, job);
    CancelledIsClaimedIff(steps, q, worker, 0);
  }

  // ----- a run that sends two dead letters -----

  lemma Claim(before: seq<Step>, p: Proc, id: JobId, worker: string) returns (steps: seq<Step>)
    requires Admissible(START, before)
    requires var s := Run(START, before);
             && PhaseOf(s, p) == Idle && !s.db.drain
             && id in s.db.jobs && s.db.jobs[id].id == id && IsDue(s.db.jobs[id], s.clock)
    ensures Admissible(START, steps)
    ensures var s, s' := Run(START, before), Run(START, steps);
            && OnlyMoves(s, s', p) && PhaseOf(s', p) == Executing(id, s.db.jobs[id].attemptCount + 1)
            && id in s'.db.jobs && s'.db.jobs[id] == Claimed(s.db.jobs[id], worker, s.clock)
  {
    var s := Run(START, before);
    AttemptHistory(before, id, s.db.jobs[id].attemptCount + 1);
    var read := ReadDue(before, p, id);
    OneMore(read, ClaimCommit(p, worker, s.clock));
    steps := read + [ClaimCommit(p, worker, s.clock)];
  }

  lemma Fail(before: seq<Step>, p: Proc, id: JobId, failure: Failure) returns (steps: seq<Step>)
    requires Admissible(START, before)
    requires var s := Run(START, before);
             id in s.db.jobs && s.db.jobs[id].id == id && PhaseOf(s, p) == Executing(id, s.db.jobs[id].attemptCount)
    ensures Admissible(START, steps)
    ensures var s, s' := Run(START, before), Run(START, steps);
            && OnlyMoves(s, s', p) && PhaseOf(s', p) == Refreshing(id, s.db.jobs[id].attemptCount)
            && id in s'.db.jobs && s'.db.jobs[id].id == id && s'.db.jobs[id].maxRetries == s.db.jobs[id].maxRetries
            && s'.db.jobs[id].attemptCount == s.db.jobs[id].attemptCount
            && s'.db.jobs[id].status == (if Exhausted(s.db.jobs[id]) then DeadLettered else Failed)
            && s'.db.jobs[id].nextRunAt == s.clock + Backoff(s.db.jobs[id].attemptCount)
  {
    var s := Run(START, before);
    OneMore(before, ReadForMark(p, Bad(failure)));
    var read := before + [ReadForMark(p, Bad(failure))];
    OneMore(read, MarkCommit(p, s.clock, s.clock));
    steps := read + [MarkCommit(p, s.clock, s.clock)];
  }

  lemma Wait(before: seq<Step>, elapsed: nat) returns (steps: seq<Step>)
    requires Admissible(START, before)
    ensures Admissible(START, steps)
    ensures var s, s' := Run(START, before), Run(START, steps); s' == s.(clock := s.clock + elapsed)
  {
    OneMore(before, Tick(elapsed));
    steps := before + [Tick(elapsed)];
  }

  /** Read back the row of a dead-lettered job and send the letter. */
  lemma Report(before: seq<Step>, p: Proc, id: JobId, attempt: nat) returns (steps: seq<Step>)
    requires Admissible(START, before)
    requires var s := Run(START, before);
             PhaseOf(s, p) == Refreshing(id, attempt) && id in s.db.jobs && s.db.jobs[id].status == DeadLettered
    ensures Admissible(START, steps)
    ensures var s, s' := Run(START, before), Run(START, steps);
            && s'.db == s.db && s'.deadLetters == s.deadLetters + [(id, attempt)]
            && (forall q :: q != p ==> PhaseOf(s', q) == PhaseOf(s, q))
  {
    OneMore(before, ReadBack(p));
    steps := before + [ReadBack(p)];
    OneMore(steps, SendDeadLetter(p));
    steps := steps + [SendDeadLetter(p)];
  }

  /** `p` has failed the first attempt and not read the row back; the retry delay is over and `q` is idle. */
  lemma FailedOnce(p: Proc, q: Proc, r: Proc, request: JobCreate, id: JobId, worker: string, failure: Failure)
    returns (steps: seq<Step>)
    requires request.idempotencyKey == None && request.runAt == None && request.maxRetries == 1
    requires p != q && p != r && q != r
    ensures Admissible(START, steps)
    ensures var s := Run(START, steps);
            && id in s.db.jobs && s.db.jobs[id].id == id
            && s.db.jobs[id].maxRetries == 1 && s.db.jobs[id].attemptCount == 1
            && IsDue(s.db.jobs[id], s.clock) && !s.db.drain && s.deadLetters == []
            && PhaseOf(s, p) == Refreshing(id, 1) && PhaseOf(s, q) == Idle
  {
    var submitted := Submitted(r, request, id);
    var claimed := Claim(submitted, p, id, worker);
    var failed := Fail(claimed, p, id, failure);
    steps := Wait(failed, Backoff(1));
    assert PhaseOf(Run(START, submitted), q) == Idle;
    assert PhaseOf(Run(START, claimed), q) == PhaseOf(Run(START, submitted), q);
    assert PhaseOf(Run(START, failed), q) == PhaseOf(Run(START, claimed), q);
    assert PhaseOf(Run(START, steps), q) == PhaseOf(Run(START, failed), q);
    assert PhaseOf(Run(START, steps), p) == PhaseOf(Run(START, failed), p);
  }

  lemma FailedTwice(p: Proc, q: Proc, r: Proc, request: JobCreate, id: JobId, worker: string, failure: Failure)
    returns (steps: seq<Step>)
    requires request.idempotencyKey == None && request.runAt == None && request.maxRetries == 1
    requires p != q && p != r && q != r
    ensures Admissible(START, steps)
    ensures var s := Run(START, steps);
            && id in s.db.jobs && s.db.jobs[id].status == DeadLettered && s.deadLetters == []
            && PhaseOf(s, p) == Refreshing(id, 1) && PhaseOf(s, q) == Refreshing(id, 2)
  {
    var once := FailedOnce(p, q, r, request, id, worker, failure);
    var again := Claim(once, q, id, worker);
    steps := Fail(again, q, id, failure);
    assert PhaseOf(Run(START, again), p) == PhaseOf(Run(START, once), p);
    assert PhaseOf(Run(START, steps), p) == PhaseOf(Run(START, again), p);
  }

  /** Two dead letters for one job: a worker that reads its failed attempt back only after another worker has failed
      the last one finds the job dead-lettered too. */
  lemma TwoDeadLetters(p: Proc, q: Proc, r: Proc, request: JobCreate, id: JobId, worker: string, failure: Failure)
    returns (steps: seq<Step>)
    requires request.idempotencyKey == None && request.runAt == None && request.maxRetries == 1
    requires p != q && p != r && q != r
    ensures Admissible(START, steps) && Run(START, steps).deadLetters == [(id, 2), (id, 1)]
  {
    var failed := FailedTwice(p, q, r, request, id, worker, failure);
    var reported := Report(failed, q, id, 2);
    steps := Report(reported, p, id, 1);
  }

  // ----- runs in which a cancellation overwrites what a finished job ended as -----

  lemma Finish(before: seq<Step>, p: Proc, id: JobId, verdict: Verdict) returns (steps: seq<Step>)
    requires Admissible(START, before)
    requires var s := Run(START, before);
             id in s.db.jobs && s.db.jobs[id].id == id && PhaseOf(s, p) == Executing(id, s.db.jobs[id].attemptCount)
    ensures Admissible(START, steps)
    ensures var s, s' := Run(START, before), Run(START, steps);
            && OnlyMoves(s, s', p) && id in s'.db.jobs
            && s'.db.jobs[id].status ==
               if verdict.Good? then Succeeded else if Exhausted(s.db.jobs[id]) then DeadLettered else Failed
  {
    var s := Run(START, before);
    OneMore(before, ReadForMark(p, verdict));
    var read := before + [ReadForMark(p, verdict)];
    OneMore(read, MarkCommit(p, s.clock, s.clock));
    steps := read + [MarkCommit(p, s.clock, s.clock)];
  }

  lemma ReadToCancel(before: seq<Step>, r: Proc, id: JobId) returns (steps: seq<Step>)
    requires Admissible(START, before)
    requires var s := Run(START, before); PhaseOf(s, r) == Idle && id in s.db.jobs && IsPending(s.db.jobs[id].status)
    ensures Admissible(START, steps)
    ensures var s, s' := Run(START, before), Run(START, steps);
            && OnlyMoves(s, s', r) && s'.db == s.db && PhaseOf(s', r) == Cancelling(id, s.clock)
  {
    OneMore(before, ReadForCancel(r, id));
    steps := before + [ReadForCancel(r, id)];
  }

  lemma FinishedMeanwhile(p: Proc, q: Proc, r: Proc, request: JobCreate, id: JobId, worker: string, verdict: Verdict)
    returns (steps: seq<Step>)
    requires request.idempotencyKey == None && request.runAt == None && (verdict.Bad? ==> request.maxRetries == 0)
    requires p != q && p != r && q != r
    ensures Admissible(START, steps)
    ensures var s := Run(START, steps);
            && id in s.db.jobs && s.db.jobs[id].status == (if verdict.Good? then Succeeded else DeadLettered)
            && s.clock == 0 && PhaseOf(s, r) == Cancelling(id, 0)
  {
    var submitted := Submitted(p, request, id);
    var read := ReadToCancel(submitted, r, id);
    assert PhaseOf(Run(START, read), q) == PhaseOf(Run(START, submitted), q) == Idle;
    var claimed := Claim(read, q, id, worker);
    steps := Finish(claimed, q, id, verdict);
    assert PhaseOf(Run(START, claimed), r) == PhaseOf(Run(START, read), r);
    assert PhaseOf(Run(START, steps), r) == PhaseOf(Run(START, claimed), r);
  }

  /** A finished job can be turned into a cancelled one: whatever the verdict of its attempt, there is a run in which
      the job has succeeded or been dead-lettered and the commit of a cancellation that read it before overwrites
      that. */
  lemma FinishedJobIsCancelled(p: Proc, q: Proc, r: Proc, request: JobCreate, id: JobId, worker: string,
        verdict: Verdict)
    returns (steps: seq<Step>)
    requires request.idempotencyKey == None && request.runAt == None && (verdict.Bad? ==> request.maxRetries == 0)
    requires p != q && p != r && q != r
    ensures Admissible(START, steps) && id in Run(START, steps).db.jobs
    ensures Run(START, steps).db.jobs[id].status == (if verdict.Good? then Succeeded else DeadLettered)
    ensures var cancel, s := CancelCommit(r, 0), Run(START, steps);
            Enabled(s, cancel) && Apply(s, cancel).db.jobs[id].status == Cancelled
  {
    steps := FinishedMeanwhile(p, q, r, request, id, worker, verdict);
  }
}
