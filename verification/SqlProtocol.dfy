// Workers and clients against the PostgreSQL repository, every transaction split into its read and its
// commit, in any interleaving, with arbitrary message delivery and crashes.
module SqlProtocol {
  import opened Core
  import opened Jobs
  import opened SqlTables
  import CronSearch

  type Proc = nat

  datatype Verdict = Good(result: Payload) | Bad(failure: Failure)

  /** Where one worker process or API request stands. */
  datatype Phase =
    | Idle
    | Delivered(job: JobId)                                     // a message arrived and drain read as off
    | Claiming(snap: JobRecord, readAt: Time)                   // pending row read by `claim_job`
    | Executing(job: JobId, attempt: nat)                       // claim committed, handler running
    | Marking(snap: JobRecord, verdict: Verdict, readAt: Time)  // row read by a mark
    | Recurring(job: JobId, attempt: nat, since: Time)          // success committed, next run not yet created
    | Crashed(job: JobId, attempt: nat)                         // died holding an attempt
    | Refreshing(job: JobId, attempt: nat)                      // failure committed, row not yet read back
    | Reporting(job: JobId, attempt: nat)                       // read back as dead-lettered, event not yet sent
    | Inserting(request: JobCreate, readAt: Time)               // no job with the key was found
    | LostRace(request: JobCreate)                              // the insert hit the unique key
    | Publishing(job: JobId)                                    // new job committed, event not yet sent
    | Cancelling(job: JobId, readAt: Time)                      // pending row read by `cancel_job`

  datatype Reply = Reply(key: string, job: JobId, replay: bool)

  /** The tables, the clock and the processes; the last five fields only record what has happened. A dead letter
      is recorded with the attempt whose failure led its sender to send it. */
  datatype State = State(
    db: Tables,
    clock: Time,
    procs: map<Proc, Phase>,
    lineage: map<JobId, Lineage>,
    spawned: map<JobId, JobId>,
    replies: seq<Reply>,
    published: seq<JobId>,
    deadLetters: seq<(JobId, nat)>)

  const START := State(NO_ROWS, 0, map[], map[], map[], [], [], [])

  datatype Step =
    | Tick(elapsed: nat)
    | SetDrain(enabled: bool)
    | Deliver(p: Proc, job: JobId)
    | ReadRow(p: Proc)
    | ClaimCommit(p: Proc, worker: string, at: Time)
    | ReadForMark(p: Proc, verdict: Verdict)
    | MarkCommit(p: Proc, at: Time, finishedAt: Time)
    | ReadBack(p: Proc)
    | SendDeadLetter(p: Proc)
    | NoNextRun(p: Proc, at: Time, error: ServiceError)
    | Spawn(p: Proc, id: JobId, scanAt: Time, slot: Time, at: Time)
    | EndOnce(p: Proc)
    | Crash(p: Proc)
    | Abandon(p: Proc)
    | LookUp(p: Proc, request: JobCreate, found: Option<JobId>)
    | InsertCommit(p: Proc, id: JobId, at: Time)
    | ResolveRace(p: Proc, existing: JobId)
    | SendEvent(p: Proc)
    | ReadForCancel(p: Proc, job: JobId)
    | CancelCommit(p: Proc, at: Time)

  function PhaseOf(s: State, p: Proc): Phase {
    if p in s.procs then s.procs[p] else Idle
  }

  /** The job whose latest attempt a process has in hand, if any. A crashed process never lets go. */
  function Held(phase: Phase): Option<JobId> {
    match phase
    case Executing(job, _) => Some(job)
    case Marking(snap, _, _) => Some(snap.id)
    case Recurring(job, _, _) => Some(job)
    case Crashed(job, _) => Some(job)
    case _ => None
  }

  function HeldAttempt(phase: Phase): nat {
    match phase
    case Executing(_, attempt) => attempt
    case Marking(snap, _, _) => snap.attemptCount
    case Recurring(_, attempt, _) => attempt
    case Crashed(_, attempt) => attempt
    case _ => 0
  }

  predicate HasCron(job: JobRecord) {
    job.recurringCron.Some? && job.recurringCron.value != []
  }

  predicate CanClaim(s: State, p: Proc, at: Time) {
    var phase := PhaseOf(s, p);
    phase.Claiming? && phase.snap.id in s.db.jobs && phase.readAt <= at <= s.clock && IsDue(phase.snap, at)
  }

  predicate CanMark(s: State, p: Proc, at: Time, finishedAt: Time) {
    var phase := PhaseOf(s, p);
    phase.Marking? && phase.snap.id in s.db.jobs && phase.readAt <= at <= finishedAt <= s.clock
  }

  predicate CanSpawn(s: State, p: Proc, id: JobId, scanAt: Time, slot: Time, at: Time) {
    var phase := PhaseOf(s, p);
    && phase.Recurring? && phase.job in s.db.jobs && phase.since <= scanAt <= at <= s.clock && scanAt < slot
    && id !in s.db.jobs && phase.job in s.lineage
    && HasCron(s.db.jobs[phase.job])
  }

  predicate CanInsert(s: State, p: Proc, id: JobId, at: Time) {
    var phase := PhaseOf(s, p);
    phase.Inserting? && id !in s.db.jobs && phase.readAt <= at <= s.clock
  }

  predicate Enabled(s: State, step: Step) {
    match step
    case Tick(_) => true
    case SetDrain(_) => true
    case Deliver(p, _) => PhaseOf(s, p).Idle? && !s.db.drain
    case ReadRow(p) => PhaseOf(s, p).Delivered?
    case ClaimCommit(p, _, at) => CanClaim(s, p, at)
    case ReadForMark(p, _) => PhaseOf(s, p).Executing? && PhaseOf(s, p).job in s.db.jobs
    case MarkCommit(p, at, finishedAt) => CanMark(s, p, at, finishedAt)
    case ReadBack(p) => PhaseOf(s, p).Refreshing? && PhaseOf(s, p).job in s.db.jobs
    case SendDeadLetter(p) => PhaseOf(s, p).Reporting?
    case NoNextRun(p, at, _) =>
      var phase := PhaseOf(s, p);
      phase.Recurring? && phase.job in s.db.jobs && phase.since <= at <= s.clock && HasCron(s.db.jobs[phase.job])
    case Spawn(p, id, scanAt, slot, at) => CanSpawn(s, p, id, scanAt, slot, at)
    case EndOnce(p) =>
      var phase := PhaseOf(s, p);
      phase.Recurring? && phase.job in s.db.jobs && !HasCron(s.db.jobs[phase.job])
    case Crash(p) => Held(PhaseOf(s, p)).Some?
    case Abandon(p) => Held(PhaseOf(s, p)).None?
    case LookUp(p, request, found) =>
      && PhaseOf(s, p).Idle?
      && (if found.Some? then
            && request.idempotencyKey.Some? && found.value in s.db.jobs
            && s.db.jobs[found.value].idempotencyKey == request.idempotencyKey
          else !KeyTaken(s.db, request.idempotencyKey))
    case InsertCommit(p, id, at) => CanInsert(s, p, id, at)
    case ResolveRace(p, existing) =>
      var phase := PhaseOf(s, p);
      phase.LostRace? && existing in s.db.jobs && phase.request.idempotencyKey.Some?
      && s.db.jobs[existing].idempotencyKey == phase.request.idempotencyKey
    case SendEvent(p) => PhaseOf(s, p).Publishing?
    case ReadForCancel(p, job) => PhaseOf(s, p).Idle? && job in s.db.jobs && IsPending(s.db.jobs[job].status)
    case CancelCommit(p, at) =>
      var phase := PhaseOf(s, p);
      phase.Cancelling? && phase.job in s.db.jobs && phase.readAt <= at <= s.clock
  }

  function Go(s: State, p: Proc, phase: Phase): State {
    s.(procs := s.procs[p := phase])
  }

  function Log(s: State, key: Option<string>, job: JobId, replay: bool): State {
    if key.Some? then s.(replies := s.replies + [Reply(key.value, job, replay)]) else s
  }

  function ClaimStep(s: State, p: Proc, worker: string, at: Time): State
    requires CanClaim(s, p, at)
  {
    var snap := PhaseOf(s, p).snap;
    match CommitClaim(s.db, snap, worker, at)
    case None => Go(s, p, Idle)
    case Some(db) => Go(s.(db := db), p, Executing(snap.id, snap.attemptCount + 1))
  }

  function MarkStep(s: State, p: Proc, at: Time, finishedAt: Time): State
    requires CanMark(s, p, at, finishedAt)
  {
    var snap := PhaseOf(s, p).snap;
    match PhaseOf(s, p).verdict
    case Good(result) =>
      var db := CommitSucceeded(s.db, snap, result, at, finishedAt);
      Go(s.(db := db), p, Recurring(snap.id, snap.attemptCount, at))
    case Bad(failure) =>
      var db := CommitFailed(s.db, snap, failure, Backoff(snap.attemptCount), at, finishedAt);
      Go(s.(db := db), p, Refreshing(snap.id, snap.attemptCount))
  }

  function SpawnStep(s: State, p: Proc, id: JobId, scanAt: Time, slot: Time, at: Time): State
    requires CanSpawn(s, p, id, scanAt, slot, at)
  {
    var parent := PhaseOf(s, p).job;
    var place := s.lineage[parent];
    Go(s.(
      db := s.db.(jobs := s.db.jobs[id := NextJob(s.db.jobs[parent], id, slot, at)]),
      lineage := s.lineage[id := Lineage(place.origin, place.generation + 1)],
      spawned := s.spawned[parent := id]), p, Idle)
  }

  function InsertStep(s: State, p: Proc, id: JobId, at: Time): State
    requires CanInsert(s, p, id, at)
  {
    var request := PhaseOf(s, p).request;
    match InsertJob(s.db, NewJob(request, id, at))
    case None => Go(s, p, LostRace(request))
    case Some(db) =>
      var inserted := s.(db := db, lineage := s.lineage[id := Lineage(id, 0)]);
      Go(Log(inserted, request.idempotencyKey, id, false), p, Publishing(id))
  }

  function Apply(s: State, step: Step): State
    requires Enabled(s, step)
  {
    match step
    case Tick(elapsed) => s.(clock := s.clock + elapsed)
    case SetDrain(enabled) => s.(db := s.db.(drain := enabled))
    case Deliver(p, job) => Go(s, p, Delivered(job))
    case ReadRow(p) =>
      var job := PhaseOf(s, p).job;
      if job in s.db.jobs && IsPending(s.db.jobs[job].status) then Go(s, p, Claiming(s.db.jobs[job], s.clock))
      else Go(s, p, Idle)
    case ClaimCommit(p, worker, at) => ClaimStep(s, p, worker, at)
    case ReadForMark(p, verdict) =>
      Go(s, p, Marking(s.db.jobs[PhaseOf(s, p).job], verdict, s.clock))
    case MarkCommit(p, at, finishedAt) => MarkStep(s, p, at, finishedAt)
    case ReadBack(p) =>
      var Refreshing(job, attempt) := PhaseOf(s, p);
      Go(s, p, if s.db.jobs[job].status == DeadLettered then Reporting(job, attempt) else Idle)
    case SendDeadLetter(p) =>
      Go(s.(deadLetters := s.deadLetters + [(PhaseOf(s, p).job, PhaseOf(s, p).attempt)]), p, Idle)
    case NoNextRun(p, _, error) =>
      Go(s, p, Marking(s.db.jobs[PhaseOf(s, p).job], Bad(Raised(error)), s.clock))
    case Spawn(p, id, scanAt, slot, at) => SpawnStep(s, p, id, scanAt, slot, at)
    case EndOnce(p) => Go(s, p, Idle)
    case Crash(p) => Go(s, p, Crashed(Held(PhaseOf(s, p)).value, HeldAttempt(PhaseOf(s, p))))
    case Abandon(p) => Go(s, p, Idle)
    case LookUp(p, request, found) =>
      if found.Some? then Log(s, request.idempotencyKey, found.value, true)
      else Go(s, p, Inserting(request, s.clock))
    case InsertCommit(p, id, at) => InsertStep(s, p, id, at)
    case ResolveRace(p, existing) => Go(Log(s, PhaseOf(s, p).request.idempotencyKey, existing, true), p, Idle)
    case SendEvent(p) => Go(s.(published := s.published + [PhaseOf(s, p).job]), p, Idle)
    case ReadForCancel(p, job) => Go(s, p, Cancelling(job, s.clock))
    case CancelCommit(p, at) => Go(s.(db := CommitCancel(s.db, PhaseOf(s, p).job, at)), p, Idle)
  }

  /** The slot of a spawned job, or the exception in its place, is what the cron search gives. */
  predicate FollowsCron(s: State, step: Step)
    requires Enabled(s, step)
  {
    match step
    case NoNextRun(p, at, error) =>
      CronSearch.NextRun(s.db.jobs[PhaseOf(s, p).job].recurringCron.value, at) == Err(error)
    case Spawn(p, _, scanAt, slot, _) =>
      CronSearch.NextRun(s.db.jobs[PhaseOf(s, p).job].recurringCron.value, scanAt) == Ok(slot)
    case _ => true
  }

  /** Can these steps be taken one after the other from `s`? */
  predicate Admissible(s: State, steps: seq<Step>)
    decreases |steps|
  {
    steps == [] || (Enabled(s, steps[0]) && FollowsCron(s, steps[0]) && Admissible(Apply(s, steps[0]), steps[1..]))
  }

  function Run(s: State, steps: seq<Step>): State
    requires Admissible(s, steps)
    decreases |steps|
  {
    if steps == [] then s else Run(Apply(s, steps[0]), steps[1..])
  }

  // ----- what a single step can change -----

  /** The process that takes a step, if one does. */
  function Actor(step: Step): Option<Proc> {
    match step
    case Tick(_) => None
    case SetDrain(_) => None
    case _ => Some(step.p)
  }

  /** Does the step write job or attempt rows when it commits? */
  predicate Writes(step: Step) {
    step.ClaimCommit? || step.MarkCommit? || step.Spawn? || step.InsertCommit? || step.CancelCommit?
  }

  lemma OnlyActorMoves(s: State, step: Step)
    requires Enabled(s, step)
    ensures forall q: Proc :: Actor(step) != Some(q) ==> PhaseOf(Apply(s, step), q) == PhaseOf(s, q)
  {
  }

  lemma ReadersWriteNothing(s: State, step: Step)
    requires Enabled(s, step) && !Writes(step)
    ensures Apply(s, step).db.jobs == s.db.jobs && Apply(s, step).db.attempts == s.db.attempts
    ensures Apply(s, step).lineage == s.lineage && Apply(s, step).spawned == s.spawned
  {
  }

  /** A process has a job in hand only because it had it before or because its claim has just committed. */
  lemma HoldsComeFromClaims(s: State, step: Step, q: Proc, id: JobId)
    requires Enabled(s, step) && Held(PhaseOf(Apply(s, step), q)) == Some(id)
    requires !PhaseOf(Apply(s, step), q).Crashed?
    requires forall p :: PhaseOf(s, p).Marking? ==> PhaseOf(s, p).snap.id in s.db.jobs
    requires forall j :: j in s.db.jobs ==> s.db.jobs[j].id == j
    ensures || (Held(PhaseOf(s, q)) == Some(id) && !PhaseOf(s, q).Crashed?)
            || (step.ClaimCommit? && step.p == q && PhaseOf(s, q).Claiming? && PhaseOf(s, q).snap.id == id)
  {
    OnlyActorMoves(s, step);
  }

  /** A snapshot is either an old one or the pending row as it stands. */
  lemma SnapshotsComeFromReads(s: State, step: Step, q: Proc)
    requires Enabled(s, step) && PhaseOf(Apply(s, step), q).Claiming?
    ensures var snap := PhaseOf(Apply(s, step), q).snap;
            || PhaseOf(s, q) == PhaseOf(Apply(s, step), q)
            || (exists job :: job in s.db.jobs && s.db.jobs[job] == snap && IsPending(snap.status))
  {
    OnlyActorMoves(s, step);
  }
}
