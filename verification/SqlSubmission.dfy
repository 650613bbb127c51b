// Idempotent submission under races on the unique key (app/jobs/repositories.py:146-184).
module SqlSubmission {
  import opened Core
  import opened Jobs
  import opened SqlTables
  import opened SqlProtocol
  import opened SqlTheorems

  ghost predicate KeysUnique(db: Tables) {
    forall a, b ::
      && a in db.jobs && b in db.jobs
      && db.jobs[a].idempotencyKey.Some? && db.jobs[a].idempotencyKey == db.jobs[b].idempotencyKey
      ==> a == b
  }

  /** Every reply names the job that carries the key, and only the first reply for a key is not a replay. */
  ghost predicate RepliesOk(s: State) {
    && (forall i :: 0 <= i < |s.replies| ==>
          s.replies[i].job in s.db.jobs && s.db.jobs[s.replies[i].job].idempotencyKey == Some(s.replies[i].key))
    && (forall i, j :: 0 <= i < j < |s.replies| && s.replies[i].key == s.replies[j].key ==> s.replies[j].replay)
  }

  /** A lost race leaves a job with the key to be found. */
  ghost predicate RacesLost(s: State) {
    forall p :: PhaseOf(s, p).LostRace? ==> KeyTaken(s.db, PhaseOf(s, p).request.idempotencyKey)
  }

  /** Each job has at most one process about to publish it, and none once it is published. */
  ghost predicate PublishedOnce(s: State) {
    && (forall i, j :: 0 <= i < j < |s.published| ==> s.published[i] != s.published[j])
    && (forall i :: 0 <= i < |s.published| ==> s.published[i] in s.db.jobs)
    && (forall p :: PhaseOf(s, p).Publishing? ==> PhaseOf(s, p).job in s.db.jobs && PhaseOf(s, p).job !in s.published)
    && (forall p, q :: PhaseOf(s, p).Publishing? && PhaseOf(s, p) == PhaseOf(s, q) ==> p == q)
  }

  ghost predicate Submissions(s: State) {
    KeysUnique(s.db) && RepliesOk(s) && RacesLost(s) && PublishedOnce(s)
  }

  /** No step but an insert adds a keyed job, and none changes or removes a key. */
  lemma NewRowsKeyless(s: State, step: Step)
    requires Enabled(s, step) && !step.InsertCommit?
    ensures forall id :: id in Apply(s, step).db.jobs && id !in s.db.jobs ==>
        Apply(s, step).db.jobs[id].idempotencyKey == None
  {
    if !Writes(step) {
      ReadersWriteNothing(s, step);
    } else if step.MarkCommit? {
      MarkKeeps(s, step.p, step.at, step.finishedAt, PhaseOf(s, step.p).snap.id);
    }
  }

  lemma KeysKept(s: State, step: Step)
    requires Enabled(s, step)
    ensures forall id :: id in s.db.jobs ==>
              id in Apply(s, step).db.jobs && Apply(s, step).db.jobs[id].idempotencyKey == s.db.jobs[id].idempotencyKey
    ensures !step.InsertCommit? ==>
              forall id :: id in Apply(s, step).db.jobs && id !in s.db.jobs ==>
                  Apply(s, step).db.jobs[id].idempotencyKey == None
  {
    forall id | id in s.db.jobs
      ensures id in Apply(s, step).db.jobs && Apply(s, step).db.jobs[id].idempotencyKey == s.db.jobs[id].idempotencyKey
    {
      StepKeepsIdentity(s, step, id);
    }
    if !step.InsertCommit? {
      NewRowsKeyless(s, step);
    }
  }

  lemma InsertKeepsKeysUnique(db: Tables, job: JobRecord)
    requires KeysUnique(db) && InsertJob(db, job).Some?
    ensures KeysUnique(InsertJob(db, job).value)
    ensures job.idempotencyKey.Some? ==>
              forall other :: other in db.jobs ==> db.jobs[other].idempotencyKey != job.idempotencyKey
  {
  }

  lemma InsertKeepsReplies(s: State, p: Proc, id: JobId, at: Time)
    requires KeysUnique(s.db) && RepliesOk(s) && CanInsert(s, p, id, at)
    ensures KeysUnique(InsertStep(s, p, id, at).db) && RepliesOk(InsertStep(s, p, id, at))
  {
    var job := NewJob(PhaseOf(s, p).request, id, at);
    if InsertJob(s.db, job).Some? {
      InsertKeepsKeysUnique(s.db, job);
    }
  }

  lemma InsertKeepsRaces(s: State, p: Proc, id: JobId, at: Time)
    requires RacesLost(s) && CanInsert(s, p, id, at)
    ensures RacesLost(InsertStep(s, p, id, at))
  {
    var s' := InsertStep(s, p, id, at);
    forall q | q != p && PhaseOf(s', q).LostRace? ensures KeyTaken(s'.db, PhaseOf(s', q).request.idempotencyKey) {
      assert PhaseOf(s', q) == PhaseOf(s, q);
      var other :| other in s.db.jobs && s.db.jobs[other].idempotencyKey == PhaseOf(s, q).request.idempotencyKey;
      assert s'.db.jobs[other] == s.db.jobs[other];
    }
  }

  lemma InsertKeepsPublished(s: State, p: Proc, id: JobId, at: Time)
    requires PublishedOnce(s) && CanInsert(s, p, id, at)
    ensures PublishedOnce(InsertStep(s, p, id, at))
  {
    var s' := InsertStep(s, p, id, at);
    forall q | q != p ensures PhaseOf(s', q) == PhaseOf(s, q) {}
    assert id !in s.published;
  }

  lemma InsertKeepsSubmissions(s: State, p: Proc, id: JobId, at: Time)
    requires Submissions(s) && CanInsert(s, p, id, at)
    ensures Submissions(InsertStep(s, p, id, at))
  {
    InsertKeepsReplies(s, p, id, at);
    InsertKeepsRaces(s, p, id, at);
    InsertKeepsPublished(s, p, id, at);
  }

  lemma LookUpKeepsSubmissions(s: State, step: Step)
    requires Submissions(s) && Enabled(s, step) && (step.LookUp? || step.ResolveRace?)
    ensures Submissions(Apply(s, step))
  {
    var s' := Apply(s, step);
    OnlyActorMoves(s, step);
    forall q | PhaseOf(s', q).LostRace? || PhaseOf(s', q).Publishing? ensures PhaseOf(s', q) == PhaseOf(s, q) {}
  }

  /** Steps that neither look up nor insert leave replies and published events as they are, or publish one. */
  lemma OtherEffects(s: State, step: Step)
    requires Enabled(s, step) && !step.LookUp? && !step.ResolveRace? && !step.InsertCommit?
    ensures Apply(s, step).replies == s.replies
    ensures Apply(s, step).published ==
        (if step.SendEvent? then s.published + [PhaseOf(s, step.p).job] else s.published)
    ensures forall q: Proc :: PhaseOf(Apply(s, step), q).LostRace? || PhaseOf(Apply(s, step), q).Publishing? ==>
              PhaseOf(Apply(s, step), q) == PhaseOf(s, q) && (step.SendEvent? ==> q != step.p)
  {
    OnlyActorMoves(s, step);
  }

  lemma OthersKeepKeys(s: State, step: Step)
    requires KeysUnique(s.db) && Enabled(s, step) && !step.InsertCommit?
    ensures KeysUnique(Apply(s, step).db)
  {
    KeysKept(s, step);
  }

  lemma OthersKeepReplies(s: State, step: Step)
    requires RepliesOk(s) && Enabled(s, step) && !step.LookUp? && !step.ResolveRace? && !step.InsertCommit?
    ensures RepliesOk(Apply(s, step))
  {
    KeysKept(s, step);
    OtherEffects(s, step);
  }

  lemma OthersKeepRaces(s: State, step: Step)
    requires RacesLost(s) && Enabled(s, step) && !step.LookUp? && !step.ResolveRace? && !step.InsertCommit?
    ensures RacesLost(Apply(s, step))
  {
    KeysKept(s, step);
    OtherEffects(s, step);
    var s' := Apply(s, step);
    forall p | PhaseOf(s', p).LostRace? ensures KeyTaken(s'.db, PhaseOf(s', p).request.idempotencyKey) {
      var id :| id in s.db.jobs && s.db.jobs[id].idempotencyKey == PhaseOf(s, p).request.idempotencyKey;
      assert s'.db.jobs[id].idempotencyKey == PhaseOf(s, p).request.idempotencyKey;
    }
  }

  lemma OthersKeepPublished(s: State, step: Step)
    requires PublishedOnce(s) && Enabled(s, step) && !step.LookUp? && !step.ResolveRace? && !step.InsertCommit?
    ensures PublishedOnce(Apply(s, step))
  {
    KeysKept(s, step);
    OtherEffects(s, step);
  }

  lemma OthersKeepSubmissions(s: State, step: Step)
    requires Submissions(s) && Enabled(s, step) && !step.LookUp? && !step.ResolveRace? && !step.InsertCommit?
    ensures Submissions(Apply(s, step))
  {
    OthersKeepKeys(s, step);
    OthersKeepReplies(s, step);
    OthersKeepRaces(s, step);
    OthersKeepPublished(s, step);
  }

  lemma {:induction false} RunKeepsSubmissions(s: State, steps: seq<Step>)
    requires Submissions(s) && Admissible(s, steps)
    ensures Submissions(Run(s, steps))
    decreases |steps|
  {
    if steps == [] {
    } else {
      var step := steps[0];
      if step.InsertCommit? {
        InsertKeepsSubmissions(s, step.p, step.id, step.at);
      } else if step.LookUp? || step.ResolveRace? {
        LookUpKeepsSubmissions(s, step);
      } else {
        OthersKeepSubmissions(s, step);
      }
      RunKeepsSubmissions(Apply(s, step), steps[1..]);
    }
  }

  /** Whatever races there are: one job per key, one id in every reply for it, one reply that is not a replay,
      and one submission event. */
  lemma OneJobPerKey(steps: seq<Step>)
    requires Admissible(START, steps)
    ensures var s := Run(START, steps);
            && KeysUnique(s.db)
            && (forall i, j :: 0 <= i < j < |s.replies| && s.replies[i].key == s.replies[j].key ==>
                  s.replies[i].job == s.replies[j].job && s.replies[j].replay)
            && (forall i, j :: 0 <= i < j < |s.published| ==>
                  && s.published[i] in s.db.jobs && s.published[j] in s.db.jobs
                  && (s.db.jobs[s.published[i]].idempotencyKey.Some? ==>
                        s.db.jobs[s.published[i]].idempotencyKey != s.db.jobs[s.published[j]].idempotencyKey))
  {
    RunKeepsSubmissions(START, steps);
  }

  /** The loser of an insert race always finds the winner's job, so the integrity error never reaches the client. */
  lemma LostRaceFindsWinner(steps: seq<Step>, p: Proc) returns (winner: JobId)
    requires Admissible(START, steps) && PhaseOf(Run(START, steps), p).LostRace?
    ensures Enabled(Run(START, steps), ResolveRace(p, winner))
  {
    RunKeepsSubmissions(START, steps);
    var s := Run(START, steps);
    winner :| winner in s.db.jobs && s.db.jobs[winner].idempotencyKey == PhaseOf(s, p).request.idempotencyKey;
  }
}
