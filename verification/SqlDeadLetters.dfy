// Dead letters in the split-transaction protocol. `mark_failed_attempt` reads its row back after the commit, and
// `process_job` sends a dead letter when it then finds the job dead-lettered (app/jobs/repositories.py:310-325,
// app/jobs/service.py:65-71).
module SqlDeadLetters {
  import opened Core
  import opened Jobs
  import opened SqlTables
  import opened SqlProtocol
  import opened SqlInvariant
  import opened SqlTheorems

  /** A job, and the attempt whose failure is read back. */
  type Letter = (JobId, nat)

  predicate IsDeadLettered(db: Tables, id: JobId) {
    id in db.jobs && db.jobs[id].status == DeadLettered
  }

  /** The failed attempt a process may still send a dead letter for. */
  function LetterOf(phase: Phase): Option<Letter> {
    match phase
    case Refreshing(job, attempt) => Some((job, attempt))
    case Reporting(job, attempt) => Some((job, attempt))
    case _ => None
  }

  // ----- what a step does to letters -----

  lemma LettersComeFromFailures(s: State, step: Step, q: Proc)
    requires Enabled(s, step) && LetterOf(PhaseOf(Apply(s, step), q)).Some?
    ensures || LetterOf(PhaseOf(s, q)) == LetterOf(PhaseOf(Apply(s, step), q))
            || (&& step.MarkCommit? && step.p == q && PhaseOf(s, q).verdict.Bad?
                && var snap := PhaseOf(s, q).snap;
                   LetterOf(PhaseOf(Apply(s, step), q)) == Some((snap.id, snap.attemptCount)))
  {
    OnlyActorMoves(s, step);
  }

  lemma ReportsComeFromReadBacks(s: State, step: Step, q: Proc)
    requires Enabled(s, step) && PhaseOf(Apply(s, step), q).Reporting?
    ensures || PhaseOf(s, q) == PhaseOf(Apply(s, step), q)
            || (&& step == ReadBack(q) && LetterOf(PhaseOf(s, q)) == LetterOf(PhaseOf(Apply(s, step), q))
                && s.db.jobs[PhaseOf(s, q).job].status == DeadLettered)
  {
    OnlyActorMoves(s, step);
  }

  lemma LogGrows(s: State, step: Step)
    requires Enabled(s, step)
    ensures Apply(s, step).deadLetters ==
              if step.SendDeadLetter? then s.deadLetters + [(PhaseOf(s, step.p).job, PhaseOf(s, step.p).attempt)]
              else s.deadLetters
    ensures step.SendDeadLetter? ==> PhaseOf(Apply(s, step), step.p) == Idle
  {
  }

  /** A process comes by a job only with the claim that starts its handler. */
  lemma NewHoldStarts(s: State, step: Step, p: Proc, id: JobId)
    requires Enabled(s, step) && step.ClaimCommit? && step.p == p
    requires Held(PhaseOf(s, p)) != Some(id) && Held(PhaseOf(Apply(s, step), p)) == Some(id)
    ensures StartsHandler(s, step, id)
  {
  }

  lemma ReadsKeepHold(s: State, step: Step, p: Proc)
    requires RowsShaped(s.db) && Enabled(s, step) && (step.ReadForMark? || step.NoNextRun?)
    ensures Held(PhaseOf(Apply(s, step), p)) == Held(PhaseOf(s, p))
  {
  }

  lemma RestTakesNothing(s: State, step: Step, p: Proc, id: JobId)
    requires Enabled(s, step) && !step.ClaimCommit? && !step.ReadForMark? && !step.NoNextRun?
    requires Held(PhaseOf(s, p)) != Some(id)
    ensures Held(PhaseOf(Apply(s, step), p)) != Some(id)
  {
    OnlyActorMoves(s, step);
  }

  lemma OtherStepsTakeNothing(s: State, step: Step, p: Proc, id: JobId)
    requires Inv(s) && Enabled(s, step) && !step.ClaimCommit? && Held(PhaseOf(s, p)) != Some(id)
    ensures Held(PhaseOf(Apply(s, step), p)) != Some(id)
  {
    if step.ReadForMark? || step.NoNextRun? {
      ReadsKeepHold(s, step, p);
    } else {
      RestTakesNothing(s, step, p, id);
    }
  }

  /** Nobody takes hold of a job without starting its handler. */
  lemma StaysFree(s: State, step: Step, id: JobId)
    requires Inv(s) && Enabled(s, step) && !StartsHandler(s, step, id)
    requires forall p :: Held(PhaseOf(s, p)) != Some(id)
    ensures forall p :: Held(PhaseOf(Apply(s, step), p)) != Some(id)
  {
    forall p ensures Held(PhaseOf(Apply(s, step), p)) != Some(id) {
      assert Held(PhaseOf(s, p)) != Some(id);
      if !step.ClaimCommit? {
        OtherStepsTakeNothing(s, step, p, id);
      } else if step.p != p {
        OnlyActorMoves(s, step);
      } else if Held(PhaseOf(Apply(s, step), p)) == Some(id) {
        NewHoldStarts(s, step, p, id);
      }
    }
  }

  // ----- the invariant -----

  /** The attempt has been made and is over. */
  ghost predicate Over(s: State, id: JobId, attempt: nat) {
    && id in s.db.jobs && 1 <= attempt <= s.db.jobs[id].attemptCount
    && (attempt == s.db.jobs[id].attemptCount ==> forall p :: Held(PhaseOf(s, p)) != Some(id))
  }

  /** The job is finished for good, dead-lettered unless a late cancellation has overwritten that. */
  ghost predicate Dead(s: State, id: JobId) {
    Closed(s, id) && (s.db.jobs[id].status == DeadLettered || s.db.jobs[id].status == JobStatus.Cancelled)
  }

  ghost predicate SentOnce(s: State) {
    && (forall i, j :: 0 <= i < j < |s.deadLetters| ==> s.deadLetters[i] != s.deadLetters[j])
    && (forall p :: LetterOf(PhaseOf(s, p)).Some? ==> LetterOf(PhaseOf(s, p)).value !in s.deadLetters)
    && (forall p, q :: LetterOf(PhaseOf(s, p)).Some? && LetterOf(PhaseOf(s, p)) == LetterOf(PhaseOf(s, q)) ==> p == q)
  }

  ghost predicate LettersOver(s: State) {
    && (forall i :: 0 <= i < |s.deadLetters| ==> Over(s, s.deadLetters[i].0, s.deadLetters[i].1))
    && (forall p :: LetterOf(PhaseOf(s, p)).Some? ==>
          Over(s, LetterOf(PhaseOf(s, p)).value.0, LetterOf(PhaseOf(s, p)).value.1))
  }

  ghost predicate SentDead(s: State) {
    && (forall i :: 0 <= i < |s.deadLetters| ==> Dead(s, s.deadLetters[i].0))
    && (forall p :: PhaseOf(s, p).Reporting? ==> Dead(s, PhaseOf(s, p).job))
  }

  ghost predicate Letters(s: State) {
    SentOnce(s) && LettersOver(s) && SentDead(s)
  }

  lemma OverStays(s: State, step: Step, id: JobId, attempt: nat)
    requires Inv(s) && Enabled(s, step) && Over(s, id, attempt)
    ensures Over(Apply(s, step), id, attempt)
  {
    StepKeepsIdentity(s, step, id);
    StepCountsStart(s, step, id);
    if !StartsHandler(s, step, id) && attempt == s.db.jobs[id].attemptCount {
      StaysFree(s, step, id);
    }
  }

  lemma DeadStays(s: State, step: Step, id: JobId)
    requires Inv(s) && Enabled(s, step) && Dead(s, id)
    ensures Dead(Apply(s, step), id) && Apply(s, step).db.jobs[id].attemptCount == s.db.jobs[id].attemptCount
  {
    ClosedStep(s, step, id);
  }

  /** A dead-lettered job is out of everybody's hands. */
  lemma DeadLetteredIsDead(s: State, id: JobId)
    requires Inv(s) && IsDeadLettered(s.db, id)
    ensures Dead(s, id)
  {
    forall p ensures Held(PhaseOf(s, p)) != Some(id) {
      assert PhaseOk(s, PhaseOf(s, p));
    }
    forall p | PhaseOf(s, p).Claiming? && PhaseOf(s, p).snap.id == id
      ensures PhaseOf(s, p).snap.attemptCount < s.db.jobs[id].attemptCount
    {
      assert PhaseOk(s, PhaseOf(s, p));
    }
  }

  /** The failure a mark commits ends the latest attempt, which nobody has sent a letter for. */
  lemma FailureEndsAttempt(s: State, step: Step)
    requires Inv(s) && LettersOver(s) && Enabled(s, step) && step.MarkCommit? && PhaseOf(s, step.p).verdict.Bad?
    ensures var letter := (PhaseOf(s, step.p).snap.id, PhaseOf(s, step.p).snap.attemptCount);
            && Over(Apply(s, step), letter.0, letter.1)
            && letter !in s.deadLetters
            && (forall q :: LetterOf(PhaseOf(s, q)) != Some(letter))
  {
    var p, snap := step.p, PhaseOf(s, step.p).snap;
    assert PhaseOk(s, PhaseOf(s, p));
    assert Held(PhaseOf(s, p)) == Some(snap.id);
    HolderFacts(s, p);
    StepCountsStart(s, step, snap.id);
    OnlyActorMoves(s, step);
    MarkKeeps(s, p, step.at, step.finishedAt, snap.id);
  }

  lemma StepKeepsSentOnce(s: State, step: Step)
    requires Inv(s) && SentOnce(s) && LettersOver(s) && Enabled(s, step)
    ensures SentOnce(Apply(s, step))
  {
    var s' := Apply(s, step);
    LogGrows(s, step);
    if step.MarkCommit? && PhaseOf(s, step.p).verdict.Bad? {
      FailureEndsAttempt(s, step);
    }
    forall q | LetterOf(PhaseOf(s', q)).Some?
      ensures LetterOf(PhaseOf(s', q)).value !in s'.deadLetters
    {
      LettersComeFromFailures(s, step, q);
      if step.SendDeadLetter? {
        assert LetterOf(PhaseOf(s, step.p)) == Some((PhaseOf(s, step.p).job, PhaseOf(s, step.p).attempt));
        assert q != step.p && LetterOf(PhaseOf(s, q)) == LetterOf(PhaseOf(s', q));
      }
    }
    forall q, r | LetterOf(PhaseOf(s', q)).Some? && LetterOf(PhaseOf(s', q)) == LetterOf(PhaseOf(s', r))
      ensures q == r
    {
      LettersComeFromFailures(s, step, q);
      LettersComeFromFailures(s, step, r);
    }
  }

  lemma StepKeepsLettersOver(s: State, step: Step)
    requires Inv(s) && LettersOver(s) && Enabled(s, step)
    ensures LettersOver(Apply(s, step))
  {
    var s' := Apply(s, step);
    LogGrows(s, step);
    forall i | 0 <= i < |s'.deadLetters| ensures Over(s', s'.deadLetters[i].0, s'.deadLetters[i].1) {
      if i == |s.deadLetters| {
        assert LetterOf(PhaseOf(s, step.p)) == Some(s'.deadLetters[i]);
      }
      OverStays(s, step, s'.deadLetters[i].0, s'.deadLetters[i].1);
    }
    forall q | LetterOf(PhaseOf(s', q)).Some?
      ensures Over(s', LetterOf(PhaseOf(s', q)).value.0, LetterOf(PhaseOf(s', q)).value.1)
    {
      LettersComeFromFailures(s, step, q);
      if LetterOf(PhaseOf(s, q)) == LetterOf(PhaseOf(s', q)) {
        OverStays(s, step, LetterOf(PhaseOf(s', q)).value.0, LetterOf(PhaseOf(s', q)).value.1);
      } else {
        FailureEndsAttempt(s, step);
      }
    }
  }

  lemma StepKeepsSentDead(s: State, step: Step)
    requires Inv(s) && SentDead(s) && Enabled(s, step)
    ensures SentDead(Apply(s, step))
  {
    var s' := Apply(s, step);
    LogGrows(s, step);
    forall i | 0 <= i < |s'.deadLetters| ensures Dead(s', s'.deadLetters[i].0) {
      DeadStays(s, step, s'.deadLetters[i].0);
    }
    forall q | PhaseOf(s', q).Reporting? ensures Dead(s', PhaseOf(s', q).job) {
      ReportsComeFromReadBacks(s, step, q);
      if PhaseOf(s, q) != PhaseOf(s', q) {
        DeadLetteredIsDead(s, PhaseOf(s', q).job);
      }
      DeadStays(s, step, PhaseOf(s', q).job);
    }
  }

  lemma {:induction false} RunKeepsLetters(s: State, steps: seq<Step>)
    requires Inv(s) && Letters(s) && Admissible(s, steps)
    ensures Inv(Run(s, steps)) && Letters(Run(s, steps))
    decreases |steps|
  {
    if steps == [] {
    } else {
      StepKeepsInv(s, steps[0]);
      StepKeepsSentOnce(s, steps[0]);
      StepKeepsLettersOver(s, steps[0]);
      StepKeepsSentDead(s, steps[0]);
      RunKeepsLetters(Apply(s, steps[0]), steps[1..]);
    }
  }

  // ----- what every run guarantees -----

  /** A job once dead-lettered is never started again, and stays dead-lettered unless a cancellation that read it as
      pending is still under way. */
  lemma DeadLetteredForever(s: State, steps: seq<Step>, id: JobId)
    requires Inv(s) && Admissible(s, steps) && IsDeadLettered(s.db, id)
    ensures id in Run(s, steps).db.jobs && HandlerStarts(s, steps, id) == 0
    ensures var status := Run(s, steps).db.jobs[id].status;
            status == DeadLettered || (status == JobStatus.Cancelled && CancelUnderWay(s, id))
  {
    DeadLetteredIsDead(s, id);
    ClosedForever(s, steps, id);
  }

  /** And such a cancellation, if there is one, can overwrite the status. */
  lemma DeadLetteredOverwrittenIff(s: State, id: JobId)
    requires Inv(s) && IsDeadLettered(s.db, id)
    ensures (exists steps :: Cancels(s, steps, id)) <==> CancelUnderWay(s, id)
  {
    DeadLetteredIsDead(s, id);
    LateCancelIff(s, id);
  }

  /** In every interleaving: each failed attempt leads to at most one dead letter, so a job has at most as many as
      attempts, and only jobs that are dead-lettered, or were before a late cancellation, have one. */
  lemma OneLetterPerAttempt(steps: seq<Step>, i: nat, j: nat)
    requires Admissible(START, steps)
    ensures var s := Run(START, steps);
            && (i < j < |s.deadLetters| ==> s.deadLetters[i] != s.deadLetters[j])
            && (i < |s.deadLetters| ==>
                  var (id, attempt) := s.deadLetters[i];
                  && id in s.db.jobs && 1 <= attempt <= s.db.jobs[id].attemptCount
                  && Dead(s, id))
  {
    StartInv();
    RunKeepsLetters(START, steps);
  }

  // ----- late read-backs -----

  /** The step reads back a failed attempt and finds the job dead-lettered. */
  ghost predicate FindsDead(s: State, step: Step, letter: Letter)
    requires Enabled(s, step)
  {
    step.ReadBack? && PhaseOf(s, step.p) == Refreshing(letter.0, letter.1) && s.db.jobs[letter.0].status == DeadLettered
  }

  /** Some step of the run does so when a later attempt has been made already. */
  ghost predicate ReadLate(s: State, steps: seq<Step>, letter: Letter)
    requires Admissible(s, steps)
    decreases |steps|
  {
    steps != [] &&
    ((FindsDead(s, steps[0], letter) && letter.1 < s.db.jobs[letter.0].attemptCount)
     || ReadLate(Apply(s, steps[0]), steps[1..], letter))
  }

  ghost predicate NotRead(s: State, letter: Letter) {
    letter !in s.deadLetters && forall p :: PhaseOf(s, p) != Reporting(letter.0, letter.1)
  }

  ghost predicate ReadAlready(s: State, letter: Letter) {
    Dead(s, letter.0) && forall p :: PhaseOf(s, p) != Refreshing(letter.0, letter.1)
  }

  lemma NewRefreshing(s: State, step: Step, p: Proc)
    requires Enabled(s, step) && PhaseOf(Apply(s, step), p).Refreshing?
    ensures PhaseOf(s, p) == PhaseOf(Apply(s, step), p) || Held(PhaseOf(s, p)) == Some(PhaseOf(Apply(s, step), p).job)
    ensures PhaseOf(s, p) != PhaseOf(Apply(s, step), p) ==> PhaseOf(s, p).Marking?
  {
    OnlyActorMoves(s, step);
  }

  lemma ReadAlreadyStays(s: State, step: Step, letter: Letter)
    requires Inv(s) && Enabled(s, step) && ReadAlready(s, letter)
    ensures ReadAlready(Apply(s, step), letter)
    ensures Apply(s, step).db.jobs[letter.0].attemptCount == s.db.jobs[letter.0].attemptCount
  {
    DeadStays(s, step, letter.0);
    forall p ensures PhaseOf(Apply(s, step), p) != Refreshing(letter.0, letter.1) {
      if PhaseOf(Apply(s, step), p) == Refreshing(letter.0, letter.1) {
        NewRefreshing(s, step, p);
      }
    }
  }

  lemma {:induction false} ReadOnlyOnce(s: State, steps: seq<Step>, letter: Letter)
    requires Inv(s) && Admissible(s, steps) && ReadAlready(s, letter)
    ensures letter.0 in Run(s, steps).db.jobs
    ensures Run(s, steps).db.jobs[letter.0].attemptCount == s.db.jobs[letter.0].attemptCount
    ensures !ReadLate(s, steps, letter)
    decreases |steps|
  {
    if steps == [] {
    } else {
      ReadAlreadyStays(s, steps[0], letter);
      StepKeepsInv(s, steps[0]);
      ReadOnlyOnce(Apply(s, steps[0]), steps[1..], letter);
    }
  }

  lemma FoundDead(s: State, step: Step, letter: Letter)
    requires Inv(s) && SentOnce(s) && Enabled(s, step) && FindsDead(s, step, letter)
    ensures ReadAlready(Apply(s, step), letter)
    ensures Apply(s, step).db.jobs[letter.0].attemptCount == s.db.jobs[letter.0].attemptCount
  {
    DeadLetteredIsDead(s, letter.0);
    DeadStays(s, step, letter.0);
    OnlyActorMoves(s, step);
    forall p ensures PhaseOf(Apply(s, step), p) != Refreshing(letter.0, letter.1) {
      assert LetterOf(PhaseOf(s, step.p)) == Some(letter);
      assert p != step.p ==> LetterOf(PhaseOf(s, p)) != Some(letter);
    }
  }

  lemma NotReadStays(s: State, step: Step, letter: Letter)
    requires Enabled(s, step) && NotRead(s, letter) && !FindsDead(s, step, letter)
    ensures NotRead(Apply(s, step), letter)
  {
    LogGrows(s, step);
    forall p ensures PhaseOf(Apply(s, step), p) != Reporting(letter.0, letter.1) {
      if PhaseOf(Apply(s, step), p) == Reporting(letter.0, letter.1) {
        ReportsComeFromReadBacks(s, step, p);
      }
    }
  }

  lemma {:induction false} SentLateIff(s: State, steps: seq<Step>, letter: Letter)
    requires Inv(s) && Letters(s) && Admissible(s, steps) && NotRead(s, letter)
    requires letter in Run(s, steps).deadLetters
    ensures letter.0 in Run(s, steps).db.jobs
    ensures letter.1 < Run(s, steps).db.jobs[letter.0].attemptCount <==> ReadLate(s, steps, letter)
    decreases |steps|
  {
    if steps == [] {
    } else {
      var step := steps[0];
      StepKeepsInv(s, step);
      if FindsDead(s, step, letter) {
        FoundDead(s, step, letter);
        ReadOnlyOnce(Apply(s, step), steps[1..], letter);
      } else {
        NotReadStays(s, step, letter);
        StepKeepsSentOnce(s, step);
        StepKeepsLettersOver(s, step);
        StepKeepsSentDead(s, step);
        SentLateIff(Apply(s, step), steps[1..], letter);
      }
    }
  }

  /** Which dead letters are superfluous: one is sent for an attempt that was not the job's last if and only if the
      row was read back so late that the job had been dead-lettered by a later attempt. */
  lemma SuperfluousIff(steps: seq<Step>, i: nat)
    requires Admissible(START, steps) && i < |Run(START, steps).deadLetters|
    ensures var s := Run(START, steps);
            var letter := s.deadLetters[i];
            && letter.0 in s.db.jobs
            && (letter.1 < s.db.jobs[letter.0].attemptCount <==> ReadLate(START, steps, letter))
  {
    StartInv();
    SentLateIff(START, steps, Run(START, steps).deadLetters[i]);
  }

  /** A job has two dead letters only if one of them was read back late. */
  lemma RepeatsAreLate(steps: seq<Step>, i: nat, j: nat)
    requires Admissible(START, steps) && i < j < |Run(START, steps).deadLetters|
    requires Run(START, steps).deadLetters[i].0 == Run(START, steps).deadLetters[j].0
    ensures var letters := Run(START, steps).deadLetters;
            ReadLate(START, steps, letters[i]) || ReadLate(START, steps, letters[j])
  {
    OneLetterPerAttempt(steps, i, j);
    OneLetterPerAttempt(steps, j, j + 1);
    SuperfluousIff(steps, i);
    SuperfluousIff(steps, j);
  }

  // ----- when another letter can follow -----

  /** A process is about to send a letter for the job, or to read it back while it still stands dead-lettered. */
  ghost predicate LetterUnderWay(s: State, id: JobId) {
    exists p ::
      || (PhaseOf(s, p).Reporting? && PhaseOf(s, p).job == id)
      || (PhaseOf(s, p).Refreshing? && PhaseOf(s, p).job == id && IsDeadLettered(s.db, id))
  }

  /** The run sends a letter for the job beyond those sent already. */
  ghost predicate SendsAnother(s: State, steps: seq<Step>, id: JobId) {
    && Admissible(s, steps)
    && exists i :: |s.deadLetters| <= i < |Run(s, steps).deadLetters| && Run(s, steps).deadLetters[i].0 == id
  }

  lemma NoneComesUnderWay(s: State, step: Step, id: JobId)
    requires Inv(s) && Enabled(s, step) && Dead(s, id) && !LetterUnderWay(s, id)
    ensures !LetterUnderWay(Apply(s, step), id)
  {
    var s' := Apply(s, step);
    ClosedStep(s, step, id);
    forall p
      ensures !(PhaseOf(s', p).Reporting? && PhaseOf(s', p).job == id)
      ensures !(PhaseOf(s', p).Refreshing? && PhaseOf(s', p).job == id && IsDeadLettered(s'.db, id))
    {
      assert !(PhaseOf(s, p).Reporting? && PhaseOf(s, p).job == id);
      assert !(PhaseOf(s, p).Refreshing? && PhaseOf(s, p).job == id && IsDeadLettered(s.db, id));
      if PhaseOf(s', p).Reporting? {
        ReportsComeFromReadBacks(s, step, p);
      } else if PhaseOf(s', p).Refreshing? {
        NewRefreshing(s, step, p);
      }
    }
  }

  lemma NotSentNow(s: State, step: Step, id: JobId)
    requires Enabled(s, step) && !LetterUnderWay(s, id)
    ensures s.deadLetters <= Apply(s, step).deadLetters
    ensures forall i :: |s.deadLetters| <= i < |Apply(s, step).deadLetters| ==> Apply(s, step).deadLetters[i].0 != id
  {
    LogGrows(s, step);
  }

  lemma {:induction false} NoMoreLetters(s: State, steps: seq<Step>, id: JobId)
    requires Inv(s) && Admissible(s, steps) && Dead(s, id) && !LetterUnderWay(s, id)
    ensures s.deadLetters <= Run(s, steps).deadLetters
    ensures forall i :: |s.deadLetters| <= i < |Run(s, steps).deadLetters| ==> Run(s, steps).deadLetters[i].0 != id
    decreases |steps|
  {
    if steps == [] {
    } else {
      var s' := Apply(s, steps[0]);
      NotSentNow(s, steps[0], id);
      NoneComesUnderWay(s, steps[0], id);
      ClosedStep(s, steps[0], id);
      StepKeepsInv(s, steps[0]);
      NoMoreLetters(s', steps[1..], id);
      forall i | |s.deadLetters| <= i < |Run(s, steps).deadLetters| ensures Run(s, steps).deadLetters[i].0 != id {
        if i < |s'.deadLetters| {
          assert Run(s, steps).deadLetters[i] == s'.deadLetters[i];
        }
      }
    }
  }

  lemma ReportingSends(s: State, p: Proc, id: JobId)
    requires PhaseOf(s, p).Reporting? && PhaseOf(s, p).job == id
    ensures SendsAnother(s, [SendDeadLetter(p)], id)
  {
    var sent := Apply(s, SendDeadLetter(p));
    assert [SendDeadLetter(p)][1..] == [];
    assert Admissible(sent, []) && Run(sent, []) == sent;
    assert Run(s, [SendDeadLetter(p)]).deadLetters[|s.deadLetters|].0 == id;
  }

  lemma RefreshingSends(s: State, p: Proc, id: JobId)
    requires PhaseOf(s, p).Refreshing? && PhaseOf(s, p).job == id && IsDeadLettered(s.db, id)
    ensures SendsAnother(s, [ReadBack(p), SendDeadLetter(p)], id)
  {
    var found := Apply(s, ReadBack(p));
    ReportingSends(found, p, id);
    assert [ReadBack(p), SendDeadLetter(p)][1..] == [SendDeadLetter(p)];
    assert Run(s, [ReadBack(p), SendDeadLetter(p)]) == Run(found, [SendDeadLetter(p)]);
  }

  /** Exactly when a job that has a dead letter can be sent another: when a process is about to send one, or to read
      the job back before a late cancellation hides that it was dead-lettered. */
  lemma AnotherLetterIff(steps: seq<Step>, i: nat)
    requires Admissible(START, steps) && i < |Run(START, steps).deadLetters|
    ensures var s, id := Run(START, steps), Run(START, steps).deadLetters[i].0;
            (exists more :: SendsAnother(s, more, id)) <==> LetterUnderWay(s, id)
  {
    StartInv();
    RunKeepsLetters(START, steps);
    var s, id := Run(START, steps), Run(START, steps).deadLetters[i].0;
    if LetterUnderWay(s, id) {
      var p :| (PhaseOf(s, p).Reporting? && PhaseOf(s, p).job == id)
            || (PhaseOf(s, p).Refreshing? && PhaseOf(s, p).job == id && IsDeadLettered(s.db, id));
      if PhaseOf(s, p).Reporting? {
        ReportingSends(s, p, id);
      } else {
        RefreshingSends(s, p, id);
      }
    } else {
      forall more ensures !SendsAnother(s, more, id) {
        if Admissible(s, more) {
          NoMoreLetters(s, more, id);
        }
      }
    }
  }

  // ----- no letter is lost -----

  /** The letter has been sent, or a process still carries it. */
  ghost predicate Carried(s: State, letter: Letter) {
    letter in s.deadLetters || exists p :: LetterOf(PhaseOf(s, p)) == Some(letter)
  }

  ghost predicate AllCarried(s: State) {
    forall id :: IsDeadLettered(s.db, id) ==> Carried(s, (id, s.db.jobs[id].attemptCount))
  }

  /** The step gives up a process between its failed attempt and the letter: a crash there, or a producer that is
      down. */
  ghost predicate DropsLetter(s: State, step: Step) {
    step.Abandon? && LetterOf(PhaseOf(s, step.p)).Some?
  }

  ghost predicate NeverDrops(s: State, steps: seq<Step>)
    requires Admissible(s, steps)
    decreases |steps|
  {
    steps == [] || (!DropsLetter(s, steps[0]) && NeverDrops(Apply(s, steps[0]), steps[1..]))
  }

  lemma CarrierKeeps(s: State, step: Step, p: Proc, letter: Letter)
    requires Enabled(s, step) && !DropsLetter(s, step) && LetterOf(PhaseOf(s, p)) == Some(letter)
    requires IsDeadLettered(s.db, letter.0)
    ensures LetterOf(PhaseOf(Apply(s, step), p)) == Some(letter) || step == SendDeadLetter(p)
  {
    OnlyActorMoves(s, step);
  }

  lemma CarriedStays(s: State, step: Step, letter: Letter)
    requires Enabled(s, step) && !DropsLetter(s, step) && Carried(s, letter)
    requires IsDeadLettered(s.db, letter.0)
    ensures Carried(Apply(s, step), letter)
  {
    LogGrows(s, step);
    if letter !in s.deadLetters {
      var p :| LetterOf(PhaseOf(s, p)) == Some(letter);
      CarrierKeeps(s, step, p, letter);
    }
  }

  lemma FailureCarries(s: State, p: Proc, at: Time, finishedAt: Time, id: JobId)
    requires CanMark(s, p, at, finishedAt)
    requires var snap := PhaseOf(s, p).snap; snap.attemptCount == s.db.jobs[snap.id].attemptCount
    requires IsDeadLettered(MarkStep(s, p, at, finishedAt).db, id) && !IsDeadLettered(s.db, id)
    ensures var s' := MarkStep(s, p, at, finishedAt);
            LetterOf(PhaseOf(s', p)) == Some((id, s'.db.jobs[id].attemptCount))
  {
  }

  lemma NewlyDead(s: State, step: Step, id: JobId)
    requires Enabled(s, step) && IsDeadLettered(Apply(s, step).db, id) && !IsDeadLettered(s.db, id)
    ensures step.MarkCommit?
  {
    if !Writes(step) {
      ReadersWriteNothing(s, step);
    }
  }

  lemma NewlyDeadIsCarried(s: State, step: Step, id: JobId)
    requires Inv(s) && Enabled(s, step) && IsDeadLettered(Apply(s, step).db, id) && !IsDeadLettered(s.db, id)
    ensures Carried(Apply(s, step), (id, Apply(s, step).db.jobs[id].attemptCount))
  {
    NewlyDead(s, step, id);
    assert PhaseOk(s, PhaseOf(s, step.p));
    FailureCarries(s, step.p, step.at, step.finishedAt, id);
  }

  lemma StepKeepsAllCarried(s: State, step: Step)
    requires Inv(s) && Enabled(s, step) && AllCarried(s) && !DropsLetter(s, step)
    ensures AllCarried(Apply(s, step))
  {
    var s' := Apply(s, step);
    forall id | IsDeadLettered(s'.db, id)
      ensures Carried(s', (id, s'.db.jobs[id].attemptCount))
    {
      if IsDeadLettered(s.db, id) {
        DeadLetteredIsDead(s, id);
        DeadStays(s, step, id);
        CarriedStays(s, step, (id, s.db.jobs[id].attemptCount));
      } else {
        NewlyDeadIsCarried(s, step, id);
      }
    }
  }

  lemma {:induction false} RunKeepsAllCarried(s: State, steps: seq<Step>)
    requires Inv(s) && Admissible(s, steps) && AllCarried(s) && NeverDrops(s, steps)
    ensures AllCarried(Run(s, steps))
    decreases |steps|
  {
    if steps == [] {
    } else {
      StepKeepsAllCarried(s, steps[0]);
      StepKeepsInv(s, steps[0]);
      RunKeepsAllCarried(Apply(s, steps[0]), steps[1..]);
    }
  }

  /** Unless a process is given up between a failed attempt and its letter, no letter is lost: for every dead-lettered
      job the one of its last attempt has been sent, or a process still carries it. */
  lemma NoLetterLost(steps: seq<Step>, id: JobId)
    requires Admissible(START, steps) && NeverDrops(START, steps)
    requires IsDeadLettered(Run(START, steps).db, id)
    ensures Carried(Run(START, steps), (id, Run(START, steps).db.jobs[id].attemptCount))
  {
    StartInv();
    RunKeepsAllCarried(START, steps);
  }
}
