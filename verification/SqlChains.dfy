// Recurrence chains in the split-transaction protocol: one live job per chain, every slot served once.
module SqlChains {
  import opened Core
  import opened Jobs
  import opened SqlTables
  import opened SqlProtocol
  import opened SqlInvariant
  import opened SqlTheorems
  import opened Lineages
  import CronSearch

  ghost predicate SpawnersClosed(s: State) {
    forall id :: id in s.spawned ==> Closed(s, id)
  }

  /** A spawned job keeps its slot in `run_at` and never runs before it. */
  ghost predicate SlotsKept(s: State) {
    && (forall id {:trigger Spawned(s.lineage, id)} :: Spawned(s.lineage, id) && id in s.db.jobs ==>
          s.db.jobs[id].runAt.Some? && s.db.jobs[id].runAt.value <= s.db.jobs[id].nextRunAt)
    && (forall id, n {:trigger Spawned(s.lineage, id), (id, n) in s.db.attempts} ::
          (Spawned(s.lineage, id) && id in s.db.jobs && s.db.jobs[id].runAt.Some? && (id, n) in s.db.attempts) ==>
          s.db.jobs[id].runAt.value <= s.db.attempts[(id, n)].startedAt)
  }

  /** The part of the invariant that is about places and slots. */
  ghost predicate PlacesAndSlots(s: State) {
    InOrder(s.lineage, s.spawned.Keys, s.db.jobs) && SlotsKept(s)
  }

  ghost predicate Chains(s: State) {
    PlacesAndSlots(s) && SpawnersClosed(s)
  }

  lemma ClosedStays(s: State, step: Step)
    requires Inv(s) && Enabled(s, step) && SpawnersClosed(s)
    ensures forall id :: id in s.spawned ==> Closed(Apply(s, step), id)
  {
    forall id | id in s.spawned ensures Closed(Apply(s, step), id) {
      ClosedStep(s, step, id);
    }
  }

  /** What a claim leaves of the columns that carry slots, and the attempt it adds. */
  lemma ClaimRow(s: State, p: Proc, worker: string, at: Time)
    requires CanClaim(s, p, at)
    ensures var s', id := ClaimStep(s, p, worker, at), PhaseOf(s, p).snap.id;
            && s'.lineage == s.lineage && s'.spawned == s.spawned && s'.db.jobs.Keys == s.db.jobs.Keys
            && (forall j :: j in s.db.jobs ==>
                s'.db.jobs[j].runAt == s.db.jobs[j].runAt && s'.db.jobs[j].nextRunAt == s.db.jobs[j].nextRunAt)
            && (forall key :: key in s'.db.attempts ==>
                  (key in s.db.attempts && s'.db.attempts[key] == s.db.attempts[key])
                  || (CommitClaim(s.db, PhaseOf(s, p).snap, worker, at).Some? && key.0 == id
                      && s'.db.attempts[key].startedAt == at))
  {
  }

  /** What a mark leaves of them: a failure moves `next_run_at` past the moment of the mark. */
  lemma MarkRow(s: State, p: Proc, at: Time, finishedAt: Time)
    requires CanMark(s, p, at, finishedAt)
    ensures var s', id := MarkStep(s, p, at, finishedAt), PhaseOf(s, p).snap.id;
            && s'.lineage == s.lineage && s'.spawned == s.spawned && s'.db.jobs.Keys == s.db.jobs.Keys
            && (forall j :: j in s.db.jobs ==> s'.db.jobs[j].runAt == s.db.jobs[j].runAt)
            && (forall j :: j in s.db.jobs ==>
                s'.db.jobs[j].nextRunAt == s.db.jobs[j].nextRunAt || (j == id && s'.db.jobs[j].nextRunAt >= at))
  {
  }

  /** No mark adds an attempt or moves the start of one. */
  lemma MarkStarts(s: State, p: Proc, at: Time, finishedAt: Time)
    requires CanMark(s, p, at, finishedAt)
    ensures var s' := MarkStep(s, p, at, finishedAt);
            && s'.db.attempts.Keys == s.db.attempts.Keys
            && (forall key :: key in s.db.attempts ==> s'.db.attempts[key].startedAt == s.db.attempts[key].startedAt)
  {
  }

  lemma RowChanges(s: State, step: Step)
    requires Enabled(s, step) && !step.Spawn? && !step.InsertCommit?
    ensures Apply(s, step).db.jobs.Keys == s.db.jobs.Keys
    ensures forall id :: id in s.db.jobs ==> Apply(s, step).db.jobs[id].runAt == s.db.jobs[id].runAt
    ensures Apply(s, step).lineage == s.lineage && Apply(s, step).spawned == s.spawned
  {
    if !Writes(step) {
      ReadersWriteNothing(s, step);
    } else if step.ClaimCommit? {
      ClaimRow(s, step.p, step.worker, step.at);
    } else if step.MarkCommit? {
      MarkRow(s, step.p, step.at, step.finishedAt);
    }
  }

  lemma FreshClaim(s: State, step: Step)
    requires Inv(s) && Enabled(s, step) && step.ClaimCommit?
    ensures CommitClaim(s.db, PhaseOf(s, step.p).snap, step.worker, step.at).Some? ==>
              s.db.jobs[PhaseOf(s, step.p).snap.id].nextRunAt <= step.at
  {
    ClaimComparesAndSwaps(s, step.p, step.worker, step.at);
    assert PhaseOk(s, PhaseOf(s, step.p));
  }

  lemma ClaimKeepsSlots(s: State, step: Step)
    requires Inv(s) && SlotsKept(s) && Enabled(s, step) && step.ClaimCommit?
    ensures SlotsKept(Apply(s, step))
  {
    ClaimRow(s, step.p, step.worker, step.at);
    FreshClaim(s, step);
    var s' := Apply(s, step);
    forall id | Spawned(s'.lineage, id) ensures Spawned(s.lineage, id) {}
  }

  lemma MarkKeepsSlots(s: State, step: Step)
    requires Inv(s) && SlotsKept(s) && Enabled(s, step) && step.MarkCommit?
    ensures SlotsKept(Apply(s, step))
  {
    MarkRow(s, step.p, step.at, step.finishedAt);
    MarkStarts(s, step.p, step.at, step.finishedAt);
    var snap := PhaseOf(s, step.p).snap;
    assert PhaseOk(s, PhaseOf(s, step.p));
    assert (snap.id, snap.attemptCount) in s.db.attempts;
    var s' := Apply(s, step);
    forall id | Spawned(s'.lineage, id) ensures Spawned(s.lineage, id) {}
  }

  lemma SlotsUnchanged(s: State, s': State)
    requires SlotsKept(s) && s'.lineage == s.lineage && s'.db.jobs == s.db.jobs && s'.db.attempts == s.db.attempts
    ensures SlotsKept(s')
  {
    forall id | Spawned(s'.lineage, id) ensures Spawned(s.lineage, id) {}
  }

  lemma CancelKeepsSlots(s: State, step: Step)
    requires SlotsKept(s) && Enabled(s, step) && step.CancelCommit?
    ensures SlotsKept(Apply(s, step))
  {
    forall id | Spawned(Apply(s, step).lineage, id) ensures Spawned(s.lineage, id) {}
  }

  lemma SlotsKeptStep(s: State, step: Step)
    requires Inv(s) && SlotsKept(s) && Enabled(s, step) && !step.Spawn? && !step.InsertCommit?
    ensures SlotsKept(Apply(s, step))
  {
    if !Writes(step) {
      ReadersWriteNothing(s, step);
      SlotsUnchanged(s, Apply(s, step));
    } else if step.ClaimCommit? {
      ClaimKeepsSlots(s, step);
    } else if step.MarkCommit? {
      MarkKeepsSlots(s, step);
    } else {
      CancelKeepsSlots(s, step);
    }
  }

  /** The process that spawns is the only one left that could touch its job, so the job is closed after it. */
  lemma SpawnerCloses(s: State, p: Proc, id: JobId, scanAt: Time, slot: Time, at: Time)
    requires Inv(s) && CanSpawn(s, p, id, scanAt, slot, at)
    ensures Closed(SpawnStep(s, p, id, scanAt, slot, at), PhaseOf(s, p).job)
    ensures !Closed(s, PhaseOf(s, p).job)
  {
    var parent := PhaseOf(s, p).job;
    var s' := SpawnStep(s, p, id, scanAt, slot, at);
    assert PhaseOk(s, PhaseOf(s, p));
    assert Held(PhaseOf(s, p)) == Some(parent);
    forall q | PhaseOf(s, q).Claiming? && PhaseOf(s, q).snap.id == parent
      ensures PhaseOf(s, q).snap.attemptCount < s.db.jobs[parent].attemptCount
    {
      assert PhaseOk(s, PhaseOf(s, q));
    }
    forall q | q != p ensures PhaseOf(s', q) == PhaseOf(s, q) && Held(PhaseOf(s, q)) != Some(parent) {}
  }

  /** What a new job adds to the records, and that it has made no attempts yet. */
  ghost predicate Adds(s: State, s': State, id: JobId, job: JobRecord) {
    && id !in s.db.jobs && s'.db.jobs == s.db.jobs[id := job] && s'.db.attempts == s.db.attempts
    && forall n :: (id, n) !in s.db.attempts
  }

  lemma AddsOne(s: State, s': State, id: JobId, job: JobRecord)
    requires Adds(s, s', id, job)
    ensures AddsJob(s.db.jobs, s'.db.jobs, id) && SameSlots(s.db.jobs, s'.db.jobs)
  {
  }

  lemma ChildKeepsSlotsKept(s: State, s': State, parent: JobId, id: JobId, job: JobRecord)
    requires SlotsKept(s) && Adds(s, s', id, job) && parent in s.lineage
    requires s'.lineage == WithChild(s.lineage, parent, id) && job.runAt == Some(job.nextRunAt)
    ensures SlotsKept(s')
  {
    forall j | Spawned(s'.lineage, j) ensures j == id || Spawned(s.lineage, j) {}
  }

  lemma RootKeepsSlotsKept(s: State, s': State, id: JobId, job: JobRecord)
    requires SlotsKept(s) && Adds(s, s', id, job) && s'.lineage == WithRoot(s.lineage, id)
    ensures SlotsKept(s')
  {
    forall j | Spawned(s'.lineage, j) ensures Spawned(s.lineage, j) && j != id {}
  }

  /** The spawning process scans after its job was started, which was not before its job's own slot. */
  ghost predicate ReadyToSpawn(s: State, parent: JobId, since: Time) {
    && parent in s.db.jobs && parent !in s.spawned
    && (Spawned(s.lineage, parent) ==> s.db.jobs[parent].runAt.Some? && s.db.jobs[parent].runAt.value <= since)
  }

  lemma SpawnerIsOpen(s: State, p: Proc)
    requires PhaseOf(s, p).Recurring?
    ensures !Closed(s, PhaseOf(s, p).job)
  {
    assert Held(PhaseOf(s, p)) == Some(PhaseOf(s, p).job);
  }

  /** A recurring process holds an attempt that started before its success was committed. */
  lemma SpawnerStarted(s: State, p: Proc)
    requires Contiguous(s.db) && PhaseOk(s, PhaseOf(s, p)) && PhaseOf(s, p).Recurring?
    ensures var Recurring(id, n, since) := PhaseOf(s, p);
            id in s.db.jobs && (id, n) in s.db.attempts && s.db.attempts[(id, n)].startedAt <= since
  {
  }

  lemma SpawnerIsReady(s: State, p: Proc)
    requires Contiguous(s.db) && PhaseOk(s, PhaseOf(s, p)) && PhaseOf(s, p).Recurring?
    requires SlotsKept(s) && SpawnersClosed(s)
    ensures ReadyToSpawn(s, PhaseOf(s, p).job, PhaseOf(s, p).since)
  {
    SpawnerIsOpen(s, p);
    SpawnerStarted(s, p);
  }

  lemma NoAttemptsYet(s: State, id: JobId)
    requires Contiguous(s.db) && id !in s.db.jobs
    ensures forall n :: (id, n) !in s.db.attempts
  {
  }

  lemma SpawnAdds(s: State, p: Proc, id: JobId, scanAt: Time, slot: Time, at: Time)
    requires Contiguous(s.db) && CanSpawn(s, p, id, scanAt, slot, at)
    ensures var parent, s' := PhaseOf(s, p).job, SpawnStep(s, p, id, scanAt, slot, at);
            && Adds(s, s', id, NextJob(s.db.jobs[parent], id, slot, at))
            && s'.lineage == WithChild(s.lineage, parent, id) && s'.spawned == s.spawned[parent := id]
  {
    NoAttemptsYet(s, id);
  }

  lemma NewSpawner(spawned: map<JobId, JobId>, parent: JobId, id: JobId)
    ensures spawned[parent := id].Keys == spawned.Keys + {parent}
  {
  }

  lemma ChildSlotIsLater(s: State, s': State, parent: JobId, id: JobId, job: JobRecord, since: Time)
    requires ReadyToSpawn(s, parent, since) && Adds(s, s', id, job) && job.runAt.Some? && since < job.runAt.value
    ensures Spawned(s.lineage, parent) ==> SlotBefore(s'.db.jobs, parent, id)
  {
  }

  lemma ChildKeepsPlaces(s: State, s': State, parent: JobId, id: JobId, job: JobRecord)
    requires InOrder(s.lineage, s.spawned.Keys, s.db.jobs) && Adds(s, s', id, job)
    requires parent in s.lineage && parent !in s.spawned && s'.lineage == WithChild(s.lineage, parent, id)
    requires s'.spawned == s.spawned[parent := id]
    requires Spawned(s.lineage, parent) ==> SlotBefore(s'.db.jobs, parent, id)
    ensures InOrder(s'.lineage, s'.spawned.Keys, s'.db.jobs)
  {
    AddsOne(s, s', id, job);
    ChildKeepsOrder(s.lineage, s.spawned.Keys, s.db.jobs, s'.db.jobs, parent, id);
    NewSpawner(s.spawned, parent, id);
  }

  /** The places and slots after a job has spawned another one. */
  lemma ChildKeepsPlacesAndSlots(s: State, s': State, parent: JobId, id: JobId, job: JobRecord, since: Time)
    requires PlacesAndSlots(s) && ReadyToSpawn(s, parent, since) && Adds(s, s', id, job)
    requires parent in s.lineage && s'.lineage == WithChild(s.lineage, parent, id)
    requires s'.spawned == s.spawned[parent := id]
    requires job.runAt == Some(job.nextRunAt) && since < job.nextRunAt
    ensures PlacesAndSlots(s')
  {
    ChildSlotIsLater(s, s', parent, id, job, since);
    ChildKeepsPlaces(s, s', parent, id, job);
    ChildKeepsSlotsKept(s, s', parent, id, job);
  }

  /** The places and slots after a job that was submitted. */
  lemma RootKeepsPlacesAndSlots(s: State, s': State, id: JobId, job: JobRecord)
    requires PlacesAndSlots(s) && Adds(s, s', id, job)
    requires s'.lineage == WithRoot(s.lineage, id) && s'.spawned == s.spawned
    ensures PlacesAndSlots(s')
  {
    AddsOne(s, s', id, job);
    RootKeepsOrder(s.lineage, s.spawned.Keys, s.db.jobs, s'.db.jobs, id);
    RootKeepsSlotsKept(s, s', id, job);
  }

  lemma InsertAdds(s: State, p: Proc, id: JobId, at: Time)
    requires Contiguous(s.db) && CanInsert(s, p, id, at)
    ensures var s', job := InsertStep(s, p, id, at), NewJob(PhaseOf(s, p).request, id, at);
            && s'.spawned == s.spawned
            && (if InsertJob(s.db, job).Some? then Adds(s, s', id, job) && s'.lineage == WithRoot(s.lineage, id)
                else s'.lineage == s.lineage && s'.db == s.db)
  {
    NoAttemptsYet(s, id);
  }

  lemma PlacesAndSlotsStay(s: State, s': State)
    requires PlacesAndSlots(s) && SlotsKept(s') && s'.lineage == s.lineage && s'.spawned == s.spawned
    requires SameSlots(s.db.jobs, s'.db.jobs) && forall id :: id in s'.db.jobs ==> id in s.db.jobs
    ensures PlacesAndSlots(s')
  {
    OrderStays(s.lineage, s.spawned.Keys, s.db.jobs, s'.db.jobs);
  }

  lemma InsertKeepsPlacesAndSlots(s: State, p: Proc, id: JobId, at: Time)
    requires PlacesAndSlots(s) && Contiguous(s.db) && CanInsert(s, p, id, at)
    ensures PlacesAndSlots(InsertStep(s, p, id, at))
  {
    var s', job := InsertStep(s, p, id, at), NewJob(PhaseOf(s, p).request, id, at);
    InsertAdds(s, p, id, at);
    if InsertJob(s.db, job).Some? {
      RootKeepsPlacesAndSlots(s, s', id, job);
    } else {
      SlotsUnchanged(s, s');
      PlacesAndSlotsStay(s, s');
    }
  }

  lemma SpawnKeepsPlacesAndSlots(s: State, p: Proc, id: JobId, scanAt: Time, slot: Time, at: Time)
    requires PlacesAndSlots(s) && Contiguous(s.db) && CanSpawn(s, p, id, scanAt, slot, at)
    requires ReadyToSpawn(s, PhaseOf(s, p).job, PhaseOf(s, p).since)
    ensures PlacesAndSlots(SpawnStep(s, p, id, scanAt, slot, at))
  {
    var s', parent := SpawnStep(s, p, id, scanAt, slot, at), PhaseOf(s, p).job;
    SpawnAdds(s, p, id, scanAt, slot, at);
    ChildKeepsPlacesAndSlots(s, s', parent, id, NextJob(s.db.jobs[parent], id, slot, at), PhaseOf(s, p).since);
  }

  /** The process that spawns is the only one left that could touch its job, so the job is closed after it. */
  lemma SpawnStepKeepsClosed(s: State, step: Step)
    requires Inv(s) && SpawnersClosed(s) && Enabled(s, step) && step.Spawn?
    ensures SpawnersClosed(Apply(s, step))
  {
    ClosedStays(s, step);
    SpawnerCloses(s, step.p, step.id, step.scanAt, step.slot, step.at);
  }

  lemma SpawnKeepsChains(s: State, step: Step)
    requires Inv(s) && Chains(s) && Enabled(s, step) && step.Spawn?
    ensures Chains(Apply(s, step))
  {
    assert PhaseOk(s, PhaseOf(s, step.p));
    SpawnerIsReady(s, step.p);
    SpawnKeepsPlacesAndSlots(s, step.p, step.id, step.scanAt, step.slot, step.at);
    SpawnStepKeepsClosed(s, step);
  }

  lemma InsertStepIs(s: State, step: Step)
    requires Enabled(s, step) && step.InsertCommit?
    ensures CanInsert(s, step.p, step.id, step.at) && Apply(s, step) == InsertStep(s, step.p, step.id, step.at)
    ensures Apply(s, step).spawned == s.spawned
  {
  }

  lemma InsertKeepsChains(s: State, step: Step)
    requires Inv(s) && Chains(s) && Enabled(s, step) && step.InsertCommit?
    ensures Chains(Apply(s, step))
  {
    ClosedStays(s, step);
    InsertStepIs(s, step);
    InsertKeepsPlacesAndSlots(s, step.p, step.id, step.at);
  }

  lemma OtherStepKeepsChains(s: State, step: Step)
    requires Inv(s) && Chains(s) && Enabled(s, step) && !step.Spawn? && !step.InsertCommit?
    ensures Chains(Apply(s, step))
  {
    SlotsKeptStep(s, step);
    RowChanges(s, step);
    PlacesAndSlotsStay(s, Apply(s, step));
    ClosedStays(s, step);
  }

  lemma StepKeepsChains(s: State, step: Step)
    requires Inv(s) && Chains(s) && Enabled(s, step)
    ensures Chains(Apply(s, step))
  {
    if step.Spawn? {
      SpawnKeepsChains(s, step);
    } else if step.InsertCommit? {
      InsertKeepsChains(s, step);
    } else {
      OtherStepKeepsChains(s, step);
    }
  }

  lemma {:induction false} RunKeepsChains(s: State, steps: seq<Step>)
    requires Inv(s) && Chains(s) && Admissible(s, steps)
    ensures Chains(Run(s, steps))
    decreases |steps|
  {
    if steps == [] {
    } else {
      StepKeepsInv(s, steps[0]);
      StepKeepsChains(s, steps[0]);
      RunKeepsChains(Apply(s, steps[0]), steps[1..]);
    }
  }

  lemma ReachableChains(steps: seq<Step>)
    requires Admissible(START, steps)
    ensures Inv(Run(START, steps)) && Chains(Run(START, steps))
  {
    StartInv();
    RunKeepsInv(START, steps);
    RunKeepsChains(START, steps);
  }

  lemma OneLiveInChain(s: State, a: JobId, b: JobId)
    requires OneHead(s.lineage, s.spawned.Keys) && SpawnersClosed(s)
    requires SameChain(s.lineage, a, b) && a in s.db.jobs && b in s.db.jobs
    requires IsLive(s.db.jobs[a].status) && IsLive(s.db.jobs[b].status)
    ensures a == b
  {
    OneLive(s.lineage, s.spawned.Keys, s.db.jobs, a, b);
  }

  /** At most one job of a recurrence chain is ever pending or running. */
  lemma OneLiveJobPerChain(steps: seq<Step>, a: JobId, b: JobId)
    requires Admissible(START, steps)
    requires var s := Run(START, steps);
             && SameChain(s.lineage, a, b) && a in s.db.jobs && b in s.db.jobs
             && IsLive(s.db.jobs[a].status) && IsLive(s.db.jobs[b].status)
    ensures a == b
  {
    ReachableChains(steps);
    OneLiveInChain(Run(START, steps), a, b);
  }

  /** No slot is served twice: the slots of the jobs a chain spawns strictly increase, and no attempt of a
      spawned job starts before its slot. */
  lemma SlotsServedOnce(steps: seq<Step>, a: JobId, b: JobId, n: nat)
    requires Admissible(START, steps)
    requires var places := Run(START, steps).lineage;
             SameChain(places, a, b) && 1 <= places[a].generation < places[b].generation
    ensures SlotBefore(Run(START, steps).db.jobs, a, b)
    ensures var db := Run(START, steps).db;
            (b, n) in db.attempts ==> db.jobs[b].runAt.value <= db.attempts[(b, n)].startedAt
  {
    ReachableChains(steps);
    var s := Run(START, steps);
    assert Spawned(s.lineage, a) && Spawned(s.lineage, b);
  }

  // ----- one chain, one piece of work -----

  lemma WorkSame(s: State, step: Step)
    requires Enabled(s, step)
    ensures SameWork(s.db.jobs, Apply(s, step).db.jobs)
  {
    forall id | id in s.db.jobs
      ensures id in Apply(s, step).db.jobs && WorkOf(Apply(s, step).db.jobs[id]) == WorkOf(s.db.jobs[id])
    {
      StepKeepsIdentity(s, step, id);
    }
  }

  lemma SpawnPlaces(s: State, step: Step)
    requires Enabled(s, step) && step.Spawn?
    ensures var s', parent := Apply(s, step), PhaseOf(s, step.p).job;
            && parent in s.lineage && step.id !in s.db.jobs && s'.lineage == WithChild(s.lineage, parent, step.id)
            && parent in s'.db.jobs && step.id in s'.db.jobs
            && WorkOf(s'.db.jobs[step.id]) == WorkOf(s'.db.jobs[parent])
  {
  }

  lemma InsertPlaces(s: State, step: Step)
    requires Enabled(s, step) && step.InsertCommit?
    ensures step.id !in s.db.jobs
    ensures Apply(s, step).lineage == s.lineage || Apply(s, step).lineage == WithRoot(s.lineage, step.id)
  {
  }

  lemma SpawnSharesWork(s: State, step: Step, s': State)
    requires Placed(s.lineage, s.db.jobs) && Enabled(s, step) && step.Spawn? && s' == Apply(s, step)
    requires SharedWork(s.lineage, s'.db.jobs)
    ensures SharedWork(s'.lineage, s'.db.jobs)
  {
    SpawnPlaces(s, step);
    ChildSharesWork(s.lineage, s'.db.jobs, PhaseOf(s, step.p).job, step.id);
  }

  lemma InsertSharesWork(s: State, step: Step, s': State)
    requires Placed(s.lineage, s.db.jobs) && Enabled(s, step) && step.InsertCommit? && s' == Apply(s, step)
    requires SharedWork(s.lineage, s'.db.jobs)
    ensures SharedWork(s'.lineage, s'.db.jobs)
  {
    InsertPlaces(s, step);
    RootSharesWork(s.lineage, s'.db.jobs, step.id);
  }

  lemma StepSharesWork(s: State, step: Step, s': State)
    requires Placed(s.lineage, s.db.jobs) && SharedWork(s.lineage, s.db.jobs) && Enabled(s, step)
    requires s' == Apply(s, step)
    ensures SharedWork(s'.lineage, s'.db.jobs)
  {
    WorkSame(s, step);
    OldWorkShared(s.lineage, s.db.jobs, s'.db.jobs);
    if step.Spawn? {
      SpawnSharesWork(s, step, s');
    } else if step.InsertCommit? {
      InsertSharesWork(s, step, s');
    } else {
      RowChanges(s, step);
    }
  }

  lemma {:induction false} RunSharesWork(s: State, steps: seq<Step>)
    requires Inv(s) && Chains(s) && SharedWork(s.lineage, s.db.jobs) && Admissible(s, steps)
    ensures SharedWork(Run(s, steps).lineage, Run(s, steps).db.jobs)
    decreases |steps|
  {
    if steps == [] {
    } else {
      StepKeepsInv(s, steps[0]);
      StepKeepsChains(s, steps[0]);
      StepSharesWork(s, steps[0], Apply(s, steps[0]));
      RunSharesWork(Apply(s, steps[0]), steps[1..]);
    }
  }

  /** All jobs of a chain have the same handler, payload, priority, limits and expression. */
  lemma ChainSharesWork(steps: seq<Step>, a: JobId, b: JobId)
    requires Admissible(START, steps) && SameChain(Run(START, steps).lineage, a, b)
    ensures var jobs := Run(START, steps).db.jobs; a in jobs && b in jobs && WorkOf(jobs[a]) == WorkOf(jobs[b])
  {
    StartInv();
    RunSharesWork(START, steps);
    ReachableChains(steps);
    assert Placed(Run(START, steps).lineage, Run(START, steps).db.jobs);
  }

  // ----- the next run -----

  /** The one step a process has left whose attempt succeeded, with the readings of the clock it takes. */
  function Onward(s: State, p: Proc, id: JobId, scanAt: Time, at: Time): Step
    requires PhaseOf(s, p).Recurring? && PhaseOf(s, p).job in s.db.jobs
  {
    var job := s.db.jobs[PhaseOf(s, p).job];
    if !HasCron(job) then EndOnce(p)
    else match CronSearch.NextRun(job.recurringCron.value, scanAt)
      case Ok(slot) => Spawn(p, id, scanAt, slot, at)
      case Err(error) => NoNextRun(p, scanAt, error)
  }

  lemma OnwardIsOpen(s: State, p: Proc, id: JobId, scanAt: Time, at: Time)
    requires PhaseOf(s, p).Recurring? && PhaseOf(s, p).job in s.db.jobs && PhaseOf(s, p).job in s.lineage
    requires PhaseOf(s, p).since <= scanAt <= at <= s.clock && id !in s.db.jobs
    ensures var step := Onward(s, p, id, scanAt, at); Enabled(s, step) && FollowsCron(s, step)
  {
    var job := s.db.jobs[PhaseOf(s, p).job];
    if HasCron(job) && CronSearch.NextRun(job.recurringCron.value, scanAt).Ok? {
      CronSearch.NextRunIsLater(job.recurringCron.value, scanAt);
    }
  }

  lemma SuccessHasJob(s: State, p: Proc)
    requires Inv(s) && Placed(s.lineage, s.db.jobs) && PhaseOf(s, p).Recurring?
    ensures PhaseOf(s, p).job in s.db.jobs && PhaseOf(s, p).job in s.lineage
  {
    assert PhaseOk(s, PhaseOf(s, p));
  }

  /** Nothing holds up a chain but a crash: in every reachable state a process that has recorded a success can go
      on, whatever clock readings and new id it takes, and its step ends the chain, creates the next job at the
      searched slot, or turns the missing slot into a failure. */
  lemma SuccessGoesOn(steps: seq<Step>, p: Proc, id: JobId, scanAt: Time, at: Time)
    requires Admissible(START, steps) && PhaseOf(Run(START, steps), p).Recurring?
    requires var s := Run(START, steps); PhaseOf(s, p).since <= scanAt <= at <= s.clock && id !in s.db.jobs
    ensures PhaseOf(Run(START, steps), p).job in Run(START, steps).db.jobs
    ensures var s := Run(START, steps);
            var step := Onward(s, p, id, scanAt, at);
            Enabled(s, step) && FollowsCron(s, step)
  {
    ReachableChains(steps);
    SuccessHasJob(Run(START, steps), p);
    OnwardIsOpen(Run(START, steps), p, id, scanAt, at);
  }
}
