// Every interleaving of service calls over the locked repository: workers claim, run, mark, recur, report and
// crash while clients submit and cancel (app/jobs/service.py:24-77, app/jobs/repositories.py:368-555).
module Lifecycle {
  import opened Core
  import opened Jobs
  import opened MemoryRepository
  import opened Queue
  import opened Service
  import CronText
  import CronSearch

  type Proc = nat

  /** Where a call of `process_job` stands between two repository calls. */
  datatype Activity =
    | Executing(job: JobId, attempt: nat)                  // claimed, handler running
    | Recurring(job: JobId, attempt: nat)                  // marked succeeded, next run not yet created
    | Failing(job: JobId, attempt: nat, failure: Failure)  // in the `except` branch
    | Reporting(job: JobId, attempt: nat)                  // dead-lettered, event not yet sent
    | Crashed(job: JobId, attempt: nat)

  datatype Sys = Sys(repo: Repo, log: Log, active: map<Proc, Activity>, clock: Time)

  const START := Sys(EMPTY, Log([], [], true), map[], 0)

  datatype Event =
    | Submits(request: JobCreate, id: JobId, now: Time)
    | Starts(p: Proc, job: JobId, worker: string, now: Time)
    | Succeeds(p: Proc, result: Payload, now: Time)
    | Raises(p: Proc, message: string)
    | Recurs(p: Proc, id: JobId, now: Time)
    | Fails(p: Proc, now: Time)
    | Reports(p: Proc)
    | Crashes(p: Proc)
    | Cancels(job: JobId, now: Time)
    | Drains(enabled: bool)
    | Republishes(limit: nat, now: Time)
    | Kafka(available: bool)

  /** The clock reading an event carries; clocks never go back. */
  function NowOf(s: Sys, e: Event): Time {
    match e
    case Submits(_, _, now) => now
    case Starts(_, _, _, now) => now
    case Succeeds(_, _, now) => now
    case Recurs(_, _, now) => now
    case Fails(_, now) => now
    case Cancels(_, now) => now
    case Republishes(_, now) => now
    case _ => s.clock
  }

  ghost predicate Enabled(s: Sys, e: Event) {
    && s.clock <= NowOf(s, e)
    && Listed(s.repo) && IndexInverts(s.repo)
    && match e
       case Submits(request, id, _) => id !in s.repo.jobs && request.handler in HANDLERS
       case Starts(p, _, _, _) => p !in s.active
       case Succeeds(p, _, _) => p in s.active && s.active[p].Executing?
       case Raises(p, _) => p in s.active && s.active[p].Executing?
       case Recurs(p, id, _) =>
         p in s.active && s.active[p].Recurring? && s.active[p].job in s.repo.jobs && id !in s.repo.jobs
       case Fails(p, _) => p in s.active && s.active[p].Failing?
       case Reports(p) => p in s.active && s.active[p].Reporting? && s.active[p].job in s.repo.jobs
       case Crashes(p) => p in s.active
       case _ => true
  }

  function SubmitStep(s: Sys, request: JobCreate, id: JobId, now: Time): Sys
    requires IndexInverts(s.repo)
  {
    var (repo, job, replay) := Create(s.repo, request, id, now);
    Sys(repo, if replay then s.log else Publish(s.log, EventOf(job)).0, s.active, now)
  }

  function StartStep(s: Sys, p: Proc, job: JobId, worker: string, now: Time): Sys {
    var (repo, claimed) := Claim(s.repo, job, worker, now);
    if claimed.None? then Sys(repo, s.log, s.active, now)
    else Sys(repo, s.log, s.active[p := Executing(job, claimed.value.attemptCount)], now)
  }

  function SucceedStep(s: Sys, p: Proc, result: Payload, now: Time): Sys
    requires p in s.active && s.active[p].Executing?
  {
    var Executing(job, attempt) := s.active[p];
    Sys(Succeed(s.repo, job, result, now).0, s.log, s.active[p := Recurring(job, attempt)], now)
  }

  function RecurStep(s: Sys, p: Proc, id: JobId, now: Time): Sys
    requires p in s.active && s.active[p].Recurring? && s.active[p].job in s.repo.jobs
  {
    var Recurring(job, attempt) := s.active[p];
    var (repo, next) := CreateNext(s.repo, s.repo.jobs[job], id, now);
    Sys(repo, s.log, if next.Ok? then s.active - {p} else s.active[p := Failing(job, attempt, Raised(next.error))], now)
  }

  function FailStep(s: Sys, p: Proc, now: Time): Sys
    requires p in s.active && s.active[p].Failing?
  {
    var Failing(job, attempt, failure) := s.active[p];
    var (repo, updated) := Fail(s.repo, job, failure, Backoff(attempt), now);
    var reports := updated.Ok? && updated.value.status == DeadLettered;
    Sys(repo, s.log, if reports then s.active[p := Reporting(job, attempt)] else s.active - {p}, now)
  }

  function ReportStep(s: Sys, p: Proc): Sys
    requires p in s.active && s.active[p].Reporting? && s.active[p].job in s.repo.jobs
  {
    var job := s.repo.jobs[s.active[p].job];
    s.(log := PublishDead(s.log, DeadLetterEvent(job.id, job.handler, job.attemptCount)).0, active := s.active - {p})
  }

  function CrashStep(s: Sys, p: Proc): Sys
    requires p in s.active
  {
    var a := s.active[p];
    s.(active := if a.Reporting? then s.active - {p} else s.active[p := Crashed(a.job, a.attempt)])
  }

  ghost function Apply(s: Sys, e: Event): Sys
    requires Enabled(s, e)
  {
    match e
    case Submits(request, id, now) => SubmitStep(s, request, id, now)
    case Starts(p, job, worker, now) => StartStep(s, p, job, worker, now)
    case Succeeds(p, result, now) => SucceedStep(s, p, result, now)
    case Raises(p, message) =>
      s.(active := s.active[p := Failing(s.active[p].job, s.active[p].attempt, HandlerFailed(message))])
    case Recurs(p, id, now) => RecurStep(s, p, id, now)
    case Fails(p, now) => FailStep(s, p, now)
    case Reports(p) => ReportStep(s, p)
    case Crashes(p) => CrashStep(s, p)
    case Cancels(job, now) => Sys(Cancel(s.repo, job, now).0, s.log, s.active, now)
    case Drains(enabled) => s.(repo := s.repo.(drain := enabled))
    case Republishes(limit, now) => Sys(s.repo, PublishAll(s.log, Due(s.repo, limit, now)).0, s.active, now)
    case Kafka(available) => s.(log := s.log.(available := available))
  }

  ghost predicate Admissible(s: Sys, events: seq<Event>)
    decreases |events|
  {
    events == [] || (Enabled(s, events[0]) && Admissible(Apply(s, events[0]), events[1..]))
  }

  ghost function Run(s: Sys, events: seq<Event>): Sys
    requires Admissible(s, events)
    decreases |events|
  {
    if events == [] then s else Run(Apply(s, events[0]), events[1..])
  }

  lemma {:induction false} AppendRuns(s: Sys, a: seq<Event>, b: seq<Event>)
    requires Admissible(s, a) && Admissible(Run(s, a), b)
    ensures Admissible(s, a + b) && Run(s, a + b) == Run(Run(s, a), b)
    decreases |a|
  {
    if a == [] {
      assert a + b == b;
    } else {
      assert (a + b)[1..] == a[1..] + b;
      AppendRuns(Apply(s, a[0]), a[1..], b);
    }
  }

  // ----- the invariant -----

  /** Lock fields are set exactly while running, `processed_at` exactly when terminal, times are in order,
      the attempts fit the status, and the expression, if any, is a stored one. */
  predicate JobOk(job: JobRecord, clock: Time) {
    && RetryShape(job)
    && job.lockedBy.Some? == job.lockedAt.Some? == (job.status == Running)
    && job.processedAt.Some? == IsTerminal(job.status)
    && job.createdAt <= clock
    && (job.processedAt.Some? ==> job.createdAt <= job.processedAt.value)
    && job.handler in HANDLERS
    && (job.recurringCron.Some? ==> CronText.Normalised(job.recurringCron.value))
  }

  ghost predicate JobsOk(s: Sys) {
    forall id :: id in s.repo.jobs ==> JobOk(s.repo.jobs[id], s.clock)
  }

  predicate HasDeadLetter(log: Log, id: JobId) {
    exists i :: 0 <= i < |log.deadLetters| && log.deadLetters[i].job == id
  }

  ghost predicate ActivityOk(s: Sys, a: Activity) {
    && a.job in s.repo.jobs
    && a.attempt == s.repo.jobs[a.job].attemptCount
    && var job := s.repo.jobs[a.job];
       match a
       case Executing(_, _) => job.status == Running
       case Recurring(_, _) => job.status == Succeeded
       case Failing(_, _, failure) =>
         || job.status == Running
         || (job.status == Succeeded && job.recurringCron.Some? && failure == Raised(BadRequest(CronNoRun)))
       case Reporting(_, _) => job.status == DeadLettered && !HasDeadLetter(s.log, a.job)
       case Crashed(_, _) => job.status == Running || job.status == Succeeded
  }

  ghost predicate ActivitiesOk(s: Sys) {
    && (forall p :: p in s.active ==> ActivityOk(s, s.active[p]))
    && (forall p, q :: p in s.active && q in s.active && s.active[p].job == s.active[q].job ==> p == q)
  }

  /** Each job has at most one dead-letter event, and it is dead-lettered. */
  ghost predicate DeadLettersOk(s: Sys) {
    && (forall i, j :: 0 <= i < j < |s.log.deadLetters| ==> s.log.deadLetters[i].job != s.log.deadLetters[j].job)
    && (forall i :: 0 <= i < |s.log.deadLetters| ==>
          && s.log.deadLetters[i].job in s.repo.jobs
          && s.repo.jobs[s.log.deadLetters[i].job].status == DeadLettered)
  }

  ghost predicate Inv(s: Sys) {
    WellFormed(s.repo) && JobsOk(s) && ActivitiesOk(s) && DeadLettersOk(s)
  }

  lemma StartInv()
    ensures Inv(START)
  {
  }

  // ----- one record changes -----

  /** The activities there are: those on `id` fit its new record, and the others are old ones. */
  ghost predicate ActiveAfter(s: Sys, s': Sys, id: JobId) {
    && (forall p :: p in s'.active ==>
          if s'.active[p].job == id then ActivityOk(s', s'.active[p]) else p in s.active && s'.active[p] == s.active[p])
    && (forall p, q :: p in s'.active && q in s'.active && s'.active[p].job == id == s'.active[q].job ==> p == q)
  }

  lemma UpdateKeepsActivities(s: Sys, s': Sys, id: JobId, job: JobRecord)
    requires ActivitiesOk(s) && ActiveAfter(s, s', id)
    requires s'.repo.jobs == s.repo.jobs[id := job] && s'.log == s.log
    ensures ActivitiesOk(s')
  {
    forall p | p in s'.active ensures ActivityOk(s', s'.active[p]) {
      if s'.active[p].job != id {
        assert ActivityOk(s, s.active[p]);
      }
    }
  }

  /** Replacing the record of `id` keeps the invariant if the record is in order, whoever is active on `id` still
      fits it, and a dead-lettered job stays so. */
  lemma UpdateKeepsInv(s: Sys, id: JobId, job: JobRecord, active: map<Proc, Activity>, now: Time)
    requires Inv(s) && id in s.repo.jobs && s.clock <= now
    requires job.id == id && job.idempotencyKey == s.repo.jobs[id].idempotencyKey && JobOk(job, now)
    requires s.repo.jobs[id].status == DeadLettered ==> job.status == DeadLettered
    requires ActiveAfter(s, Sys(Put(s.repo, id, job), s.log, active, now), id)
    ensures Inv(Sys(Put(s.repo, id, job), s.log, active, now))
  {
    PutKeepsWellFormed(s.repo, id);
    UpdateKeepsActivities(s, Sys(Put(s.repo, id, job), s.log, active, now), id, job);
  }

  /** Adding a record under a fresh id disturbs nothing. */
  lemma AddKeepsInv(s: Sys, repo: Repo, id: JobId, job: JobRecord, now: Time)
    requires Inv(s) && id !in s.repo.jobs && s.clock <= now
    requires WellFormed(repo) && repo.jobs == s.repo.jobs[id := job] && JobOk(job, now)
    ensures Inv(Sys(repo, s.log, s.active, now))
  {
    var s' := Sys(repo, s.log, s.active, now);
    forall p | p in s.active ensures ActivityOk(s', s.active[p]) {
      assert ActivityOk(s, s.active[p]);
    }
  }

  /** Events other than a dead letter, the drain flag, a later clock and activities that end do not matter. */
  lemma ShrinkKeepsInv(s: Sys, s': Sys)
    requires Inv(s) && s.clock <= s'.clock
    requires s'.repo == s.repo.(drain := s'.repo.drain) && s'.log.deadLetters == s.log.deadLetters
    requires forall p :: p in s'.active ==> p in s.active && s'.active[p] == s.active[p]
    ensures Inv(s')
  {
    forall p | p in s'.active ensures ActivityOk(s', s'.active[p]) {
      assert ActivityOk(s, s.active[p]);
    }
  }

  // ----- each event -----

  lemma SubmitKeepsInv(s: Sys, request: JobCreate, id: JobId, now: Time)
    requires Inv(s) && Enabled(s, Submits(request, id, now))
    ensures Inv(SubmitStep(s, request, id, now))
  {
    var (repo, job, replay) := Create(s.repo, request, id, now);
    var s' := SubmitStep(s, request, id, now);
    if replay {
      ShrinkKeepsInv(s, s');
    } else {
      CreateKeepsWellFormed(s.repo, request, id, now);
      AddKeepsInv(s, repo, id, job, now);
      ShrinkKeepsInv(Sys(repo, s.log, s.active, now), s');
    }
  }

  /** Nobody is active on a job that is pending. */
  lemma PendingIsIdle(s: Sys, id: JobId)
    requires Inv(s) && id in s.repo.jobs && IsPending(s.repo.jobs[id].status)
    ensures forall q :: q in s.active ==> s.active[q].job != id
  {
    forall q | q in s.active ensures s.active[q].job != id {
      assert ActivityOk(s, s.active[q]);
    }
  }

  lemma ClaimKeepsInv(s: Sys, p: Proc, id: JobId, worker: string, now: Time)
    requires Inv(s) && Enabled(s, Starts(p, id, worker, now)) && Claim(s.repo, id, worker, now).1.Some?
    ensures Inv(StartStep(s, p, id, worker, now))
  {
    PendingIsIdle(s, id);
    UpdateKeepsInv(s, id, Claimed(s.repo.jobs[id], worker, now), StartStep(s, p, id, worker, now).active, now);
  }

  lemma StartKeepsInv(s: Sys, p: Proc, id: JobId, worker: string, now: Time)
    requires Inv(s) && Enabled(s, Starts(p, id, worker, now))
    ensures Inv(StartStep(s, p, id, worker, now))
  {
    if Claim(s.repo, id, worker, now).1.None? {
      ShrinkKeepsInv(s, StartStep(s, p, id, worker, now));
    } else {
      ClaimKeepsInv(s, p, id, worker, now);
    }
  }

  lemma SucceedKeepsInv(s: Sys, p: Proc, result: Payload, now: Time)
    requires Inv(s) && Enabled(s, Succeeds(p, result, now))
    ensures Inv(SucceedStep(s, p, result, now))
  {
    var id := s.active[p].job;
    assert ActivityOk(s, s.active[p]);
    UpdateKeepsInv(s, id, MarkedSucceeded(s.repo.jobs[id], result, now), SucceedStep(s, p, result, now).active, now);
  }

  lemma ActiveKeepsInv(s: Sys, p: Proc, a: Activity)
    requires Inv(s) && p in s.active && a.job == s.active[p].job && ActivityOk(s, a)
    ensures Inv(s.(active := s.active[p := a]))
  {
    var s' := s.(active := s.active[p := a]);
    forall q | q in s'.active ensures ActivityOk(s', s'.active[q]) {
      if q != p {
        assert ActivityOk(s, s.active[q]);
      }
    }
  }

  lemma NoRunKeepsInv(s: Sys, p: Proc, e: ServiceError, now: Time)
    requires Inv(s) && p in s.active && s.active[p].Recurring? && s.clock <= now && e == BadRequest(CronNoRun)
    requires s.repo.jobs[s.active[p].job].recurringCron.Some?
    ensures Inv(Sys(s.repo, s.log, s.active[p := Failing(s.active[p].job, s.active[p].attempt, Raised(e))], now))
  {
    assert ActivityOk(s, s.active[p]);
    ActiveKeepsInv(s, p, Failing(s.active[p].job, s.active[p].attempt, Raised(e)));
    var failing := s.(active := s.active[p := Failing(s.active[p].job, s.active[p].attempt, Raised(e))]);
    ShrinkKeepsInv(failing, failing.(clock := now));
  }

  lemma NextJobOk(job: JobRecord, id: JobId, slot: Time, now: Time)
    requires JobOk(job, now)
    ensures JobOk(NextJob(job, id, slot, now), now)
  {
  }

  lemma NextKeepsInv(s: Sys, job: JobRecord, freshId: JobId, now: Time)
    requires Inv(s) && freshId !in s.repo.jobs && s.clock <= now && JobOk(job, now)
    ensures Inv(Sys(CreateNext(s.repo, job, freshId, now).0, s.log, s.active, now))
  {
    var (repo, next) := CreateNext(s.repo, job, freshId, now);
    match next
    case Ok(Some(child)) =>
      NextJobOk(job, freshId, child.nextRunAt, now);
      AddKeepsWellFormed(s.repo, freshId, child);
      AddKeepsInv(s, repo, freshId, child, now);
    case _ =>
      ShrinkKeepsInv(s, Sys(repo, s.log, s.active, now));
  }

  /** The search for the next run of a stored expression raises for one reason only. */
  lemma RecurRaisesOnlyNoRun(s: Sys, p: Proc, freshId: JobId, now: Time)
    requires Inv(s) && Enabled(s, Recurs(p, freshId, now))
    ensures var next := CreateNext(s.repo, s.repo.jobs[s.active[p].job], freshId, now).1;
            next.Err? ==> next.error == BadRequest(CronNoRun)
  {
    var job := s.repo.jobs[s.active[p].job];
    assert JobOk(job, s.clock);
    if job.recurringCron.Some? {
      CronSearch.NextRunRaisesIff(job.recurringCron.value, now);
    }
  }

  lemma RecurKeepsInv(s: Sys, p: Proc, freshId: JobId, now: Time)
    requires Inv(s) && Enabled(s, Recurs(p, freshId, now))
    ensures Inv(RecurStep(s, p, freshId, now))
  {
    var job := s.repo.jobs[s.active[p].job];
    assert ActivityOk(s, s.active[p]);
    var (repo, next) := CreateNext(s.repo, job, freshId, now);
    match next
    case Err(e) =>
      RecurRaisesOnlyNoRun(s, p, freshId, now);
      NoRunKeepsInv(s, p, e, now);
    case Ok(_) =>
      NextKeepsInv(s, job, freshId, now);
      ShrinkKeepsInv(Sys(repo, s.log, s.active, now), RecurStep(s, p, freshId, now));
  }

  lemma FailLeavesActive(s: Sys, p: Proc, now: Time)
    requires ActivitiesOk(s) && DeadLettersOk(s) && p in s.active && s.active[p].Failing?
    ensures ActiveAfter(s, FailStep(s, p, now), s.active[p].job)
  {
    assert ActivityOk(s, s.active[p]);
  }

  lemma FailedJobOk(job: JobRecord, failure: Failure, backoff: Time, clock: Time, now: Time)
    requires JobOk(job, clock) && clock <= now && (job.status == Running || job.status == Succeeded)
    ensures JobOk(MarkedFailed(job, failure, backoff, now), now)
  {
  }

  lemma FailKeepsInv(s: Sys, p: Proc, now: Time)
    requires Inv(s) && Enabled(s, Fails(p, now))
    ensures Inv(FailStep(s, p, now))
  {
    var Failing(id, attempt, failure) := s.active[p];
    assert ActivityOk(s, s.active[p]);
    FailLeavesActive(s, p, now);
    FailedJobOk(s.repo.jobs[id], failure, Backoff(attempt), s.clock, now);
    var marked := MarkedFailed(s.repo.jobs[id], failure, Backoff(attempt), now);
    UpdateKeepsInv(s, id, marked, FailStep(s, p, now).active, now);
  }

  /** Reporting a job adds a dead letter for no other. */
  lemma ReportAddsItsLetter(s: Sys, p: Proc)
    requires p in s.active && s.active[p].Reporting? && s.active[p].job in s.repo.jobs
    requires s.repo.jobs[s.active[p].job].id == s.active[p].job
    ensures forall id :: HasDeadLetter(ReportStep(s, p).log, id) ==> HasDeadLetter(s.log, id) || id == s.active[p].job
  {
    var s' := ReportStep(s, p);
    forall id | HasDeadLetter(s'.log, id) ensures HasDeadLetter(s.log, id) || id == s.active[p].job {
      var i :| 0 <= i < |s'.log.deadLetters| && s'.log.deadLetters[i].job == id;
      assert i < |s.log.deadLetters| ==> s.log.deadLetters[i] == s'.log.deadLetters[i];
    }
  }

  lemma ReportKeepsInv(s: Sys, p: Proc)
    requires Inv(s) && Enabled(s, Reports(p))
    ensures Inv(ReportStep(s, p))
  {
    var s' := ReportStep(s, p);
    assert ActivityOk(s, s.active[p]);
    ReportAddsItsLetter(s, p);
    forall q | q in s'.active ensures ActivityOk(s', s'.active[q]) {
      assert ActivityOk(s, s.active[q]) && s.active[q].job != s.active[p].job;
    }
  }

  lemma CancelKeepsInv(s: Sys, id: JobId, now: Time)
    requires Inv(s) && s.clock <= now
    ensures Inv(Sys(Cancel(s.repo, id, now).0, s.log, s.active, now))
  {
    var (repo, cancelled) := Cancel(s.repo, id, now);
    if cancelled.Err? {
      ShrinkKeepsInv(s, Sys(repo, s.log, s.active, now));
    } else {
      forall q | q in s.active ensures s.active[q].job != id {
        assert ActivityOk(s, s.active[q]);
      }
      UpdateKeepsInv(s, id, cancelled.value, s.active, now);
    }
  }

  lemma EventKeepsInv(s: Sys, e: Event)
    requires Inv(s) && Enabled(s, e)
    ensures Inv(Apply(s, e))
  {
    match e
    case Submits(request, id, now) => SubmitKeepsInv(s, request, id, now);
    case Starts(p, id, worker, now) => StartKeepsInv(s, p, id, worker, now);
    case Succeeds(p, result, now) => SucceedKeepsInv(s, p, result, now);
    case Raises(p, message) =>
      assert ActivityOk(s, s.active[p]);
      ActiveKeepsInv(s, p, Failing(s.active[p].job, s.active[p].attempt, HandlerFailed(message)));
    case Recurs(p, id, now) => RecurKeepsInv(s, p, id, now);
    case Fails(p, now) => FailKeepsInv(s, p, now);
    case Reports(p) => ReportKeepsInv(s, p);
    case Crashes(p) =>
      assert ActivityOk(s, s.active[p]);
      if s.active[p].Reporting? {
        ShrinkKeepsInv(s, Apply(s, e));
      } else {
        ActiveKeepsInv(s, p, Crashed(s.active[p].job, s.active[p].attempt));
      }
    case Cancels(id, now) => CancelKeepsInv(s, id, now);
    case Drains(_) => ShrinkKeepsInv(s, Apply(s, e));
    case Republishes(limit, now) =>
      PublishAllSends(s.log, Due(s.repo, limit, now));
      ShrinkKeepsInv(s, Apply(s, e));
    case Kafka(_) => ShrinkKeepsInv(s, Apply(s, e));
  }

  lemma {:induction false} RunKeepsInv(s: Sys, events: seq<Event>)
    requires Inv(s) && Admissible(s, events)
    ensures Inv(Run(s, events))
    decreases |events|
  {
    if events == [] {
    } else {
      EventKeepsInv(s, events[0]);
      RunKeepsInv(Apply(s, events[0]), events[1..]);
    }
  }

  // ----- what every run guarantees -----

  /** In every reachable state: the index inverts the keys, RUNNING jobs and only they carry both lock fields,
      terminal jobs and only they carry `processed_at`, attempts fit the status, and latencies are not negative. */
  lemma JobsInOrder(events: seq<Event>, id: JobId)
    requires Admissible(START, events) && id in Run(START, events).repo.jobs
    ensures WellFormed(Run(START, events).repo)
    ensures JobOk(Run(START, events).repo.jobs[id], Run(START, events).clock)
  {
    StartInv();
    RunKeepsInv(START, events);
  }

  /** In every reachable state at most one call, live or crashed, has a given job in hand, and always its latest
      attempt. */
  lemma OneCallPerJob(events: seq<Event>, p: Proc, q: Proc)
    requires Admissible(START, events)
    requires var active := Run(START, events).active; p in active && q in active && active[p].job == active[q].job
    ensures p == q
    ensures var s := Run(START, events);
            s.active[p].job in s.repo.jobs && s.active[p].attempt == s.repo.jobs[s.active[p].job].attemptCount
  {
    StartInv();
    RunKeepsInv(START, events);
    assert ActivityOk(Run(START, events), Run(START, events).active[p]);
  }

  /** Which events can change the record of a job. */
  ghost predicate Changes(s: Sys, e: Event, id: JobId)
    requires Enabled(s, e) && id in s.repo.jobs
  {
    match e
    case Starts(_, job, _, now) => job == id && !s.repo.drain && IsDue(s.repo.jobs[id], now)
    case Succeeds(p, _, _) => s.active[p].job == id
    case Fails(p, _) => s.active[p].job == id
    case Cancels(job, _) => job == id && IsPending(s.repo.jobs[id].status)
    case _ => false
  }

  lemma RecordAfter(s: Sys, e: Event, id: JobId)
    requires Enabled(s, e) && id in s.repo.jobs
    ensures var jobs := Apply(s, e).repo.jobs;
            && id in jobs
            && (!Changes(s, e, id) ==> jobs[id] == s.repo.jobs[id])
            && SameIdentity(jobs[id], s.repo.jobs[id])
            && (!e.Starts? ==> jobs[id].attemptCount == s.repo.jobs[id].attemptCount)
            && (!e.Starts? && jobs[id].status == Running ==> s.repo.jobs[id].status == Running)
  {
  }

  /** No run changes the columns fixed at creation, or takes a job away. */
  lemma {:induction false} RunKeepsIdentity(s: Sys, events: seq<Event>, id: JobId)
    requires Admissible(s, events) && id in s.repo.jobs
    ensures id in Run(s, events).repo.jobs && SameIdentity(Run(s, events).repo.jobs[id], s.repo.jobs[id])
    decreases |events|
  {
    if events == [] {
    } else {
      RecordAfter(s, events[0], id);
      RunKeepsIdentity(Apply(s, events[0]), events[1..], id);
    }
  }

  /** Whatever happens after a submission that is no replay, its job still is what was asked for. */
  lemma SubmittedAsRequested(s: Sys, request: JobCreate, id: JobId, now: Time, events: seq<Event>)
    requires Enabled(s, Submits(request, id, now)) && Admissible(Apply(s, Submits(request, id, now)), events)
    requires !(request.idempotencyKey.Some? && request.idempotencyKey.value in s.repo.index)
    ensures var jobs := Run(Apply(s, Submits(request, id, now)), events).repo.jobs;
            && id in jobs && jobs[id].id == id && WorkOf(jobs[id]) == RequestedWork(request)
            && jobs[id].runAt == request.runAt && jobs[id].createdAt == now
            && jobs[id].idempotencyKey == request.idempotencyKey
  {
    RunKeepsIdentity(SubmitStep(s, request, id, now), events, id);
  }

  // ----- terminal states -----

  /** The event ends a failing call of the job. */
  ghost predicate FailsJob(s: Sys, e: Event, id: JobId)
    requires Enabled(s, e)
  {
    e.Fails? && s.active[e.p].job == id
  }

  /** The event is the job's own search for its next run, and it raises: there is none in the horizon of that moment. */
  ghost predicate SearchRaises(s: Sys, e: Event, id: JobId)
    requires Enabled(s, e)
  {
    && e.Recurs? && s.active[e.p].job == id
    && var cron := s.repo.jobs[id].recurringCron;
       cron.Some? && cron.value != [] && CronSearch.NextRun(cron.value, e.now).Err?
  }

  ghost predicate InFailure(s: Sys, id: JobId) {
    exists p :: p in s.active && s.active[p].Failing? && s.active[p].job == id
  }

  /** Some search of the job raises, unless one has already, and after it a failing call of the job ends. */
  ghost predicate LosesSuccess(s: Sys, events: seq<Event>, id: JobId, raised: bool)
    requires Admissible(s, events)
    decreases |events|
  {
    events != [] &&
    ((raised && FailsJob(s, events[0], id))
     || LosesSuccess(Apply(s, events[0]), events[1..], id, raised || SearchRaises(s, events[0], id)))
  }

  /** No call that is still alive has the job in hand. */
  ghost predicate NoneAlive(s: Sys, id: JobId) {
    forall p :: p in s.active && s.active[p].job == id ==> s.active[p].Crashed?
  }

  lemma TerminalEvent(s: Sys, e: Event, id: JobId)
    requires Inv(s) && Enabled(s, e) && id in s.repo.jobs && IsTerminal(s.repo.jobs[id].status)
    requires s.repo.jobs[id].status == Succeeded ==> !FailsJob(s, e, id)
    ensures id in Apply(s, e).repo.jobs && Apply(s, e).repo.jobs[id] == s.repo.jobs[id]
  {
    RecordAfter(s, e, id);
    if e.Succeeds? || e.Fails? {
      assert ActivityOk(s, s.active[e.p]);
    }
    assert !Changes(s, e, id);
  }

  /** A call fails because its handler raised or its search did, unless it was failing already. */
  lemma NewFailing(s: Sys, e: Event, p: Proc)
    requires Enabled(s, e) && p in Apply(s, e).active && Apply(s, e).active[p].Failing?
    ensures p in s.active && s.active[p].job == Apply(s, e).active[p].job
    ensures s.active[p].Failing? || s.active[p].Executing? || SearchRaises(s, e, s.active[p].job)
  {
  }

  /** Of a succeeded job, only its own raising search turns a call into a failing one. */
  lemma FailureComesFromSearch(s: Sys, e: Event, id: JobId)
    requires Inv(s) && Enabled(s, e) && id in s.repo.jobs && s.repo.jobs[id].status == Succeeded
    ensures InFailure(Apply(s, e), id) ==> InFailure(s, id) || SearchRaises(s, e, id)
  {
    if InFailure(Apply(s, e), id) {
      var p :| p in Apply(s, e).active && Apply(s, e).active[p].Failing? && Apply(s, e).active[p].job == id;
      NewFailing(s, e, p);
      assert ActivityOk(s, s.active[p]);
    }
  }

  /** The job is past its attempt number `n`: it has had a later one, or that one has not ended in success. */
  predicate Past(job: JobRecord, n: nat) {
    job.attemptCount >= n && (job.status == Succeeded || job.status == Running ==> job.attemptCount > n)
  }

  lemma PastStays(s: Sys, e: Event, id: JobId, n: nat)
    requires Inv(s) && Enabled(s, e) && id in s.repo.jobs && Past(s.repo.jobs[id], n)
    ensures id in Apply(s, e).repo.jobs && Past(Apply(s, e).repo.jobs[id], n)
  {
    RecordAfter(s, e, id);
    if e.Succeeds? {
      assert ActivityOk(s, s.active[e.p]);
    }
  }

  lemma {:induction false} PastForever(s: Sys, events: seq<Event>, id: JobId, n: nat)
    requires Inv(s) && Admissible(s, events) && id in s.repo.jobs && Past(s.repo.jobs[id], n)
    ensures id in Run(s, events).repo.jobs && Past(Run(s, events).repo.jobs[id], n)
    decreases |events|
  {
    if events == [] {
    } else {
      PastStays(s, events[0], id, n);
      EventKeepsInv(s, events[0]);
      PastForever(Apply(s, events[0]), events[1..], id, n);
    }
  }

  lemma FailureLeavesSuccess(s: Sys, e: Event, id: JobId)
    requires Inv(s) && Enabled(s, e) && FailsJob(s, e, id)
    ensures id in s.repo.jobs && id in Apply(s, e).repo.jobs
    ensures Past(Apply(s, e).repo.jobs[id], s.repo.jobs[id].attemptCount)
  {
    assert ActivityOk(s, s.active[e.p]);
  }

  lemma {:induction false} SucceededAbsorbs(s: Sys, events: seq<Event>, id: JobId, raised: bool)
    requires Inv(s) && Admissible(s, events) && id in s.repo.jobs && s.repo.jobs[id].status == Succeeded
    requires InFailure(s, id) ==> raised
    ensures id in Run(s, events).repo.jobs
    ensures Run(s, events).repo.jobs[id] == s.repo.jobs[id] <==> !LosesSuccess(s, events, id, raised)
    decreases |events|
  {
    if events == [] {
    } else {
      var e := events[0];
      EventKeepsInv(s, e);
      if FailsJob(s, e, id) {
        FailureLeavesSuccess(s, e, id);
        PastForever(Apply(s, e), events[1..], id, s.repo.jobs[id].attemptCount);
        assert InFailure(s, id);
      } else {
        TerminalEvent(s, e, id);
        FailureComesFromSearch(s, e, id);
        SucceededAbsorbs(Apply(s, e), events[1..], id, raised || SearchRaises(s, e, id));
      }
    }
  }

  /** Terminal states absorb. In every run the record of a cancelled or dead-lettered job stays as it is; that of a
      succeeded one does if and only if no search of the job for its next run raises and is then followed to its
      failure (or was already on the way to it at the start). */
  lemma {:induction false} TerminalAbsorbs(s: Sys, events: seq<Event>, id: JobId)
    requires Inv(s) && Admissible(s, events) && id in s.repo.jobs && IsTerminal(s.repo.jobs[id].status)
    ensures id in Run(s, events).repo.jobs
    ensures Run(s, events).repo.jobs[id] == s.repo.jobs[id] <==>
              !(s.repo.jobs[id].status == Succeeded && LosesSuccess(s, events, id, InFailure(s, id)))
    decreases |events|
  {
    if s.repo.jobs[id].status == Succeeded {
      SucceededAbsorbs(s, events, id, InFailure(s, id));
    } else if events == [] {
    } else {
      TerminalEvent(s, events[0], id);
      EventKeepsInv(s, events[0]);
      TerminalAbsorbs(Apply(s, events[0]), events[1..], id);
    }
  }

  lemma NoneAliveStays(s: Sys, e: Event, id: JobId)
    requires Inv(s) && Enabled(s, e) && id in s.repo.jobs && IsTerminal(s.repo.jobs[id].status) && NoneAlive(s, id)
    ensures id in Apply(s, e).repo.jobs && Apply(s, e).repo.jobs[id] == s.repo.jobs[id] && NoneAlive(Apply(s, e), id)
  {
    TerminalEvent(s, e, id);
  }

  /** A terminal job that no live call has in hand is settled for good, whatever its expression. */
  lemma {:induction false} SettledForever(s: Sys, events: seq<Event>, id: JobId)
    requires Inv(s) && Admissible(s, events)
    requires id in s.repo.jobs && IsTerminal(s.repo.jobs[id].status) && NoneAlive(s, id)
    ensures id in Run(s, events).repo.jobs && Run(s, events).repo.jobs[id] == s.repo.jobs[id]
    decreases |events|
  {
    if events == [] {
    } else {
      NoneAliveStays(s, events[0], id);
      EventKeepsInv(s, events[0]);
      SettledForever(Apply(s, events[0]), events[1..], id);
    }
  }

  lemma NoNextRun(s: Sys, p: Proc, freshId: JobId, now: Time)
    requires p in s.active && s.active[p].Recurring? && s.active[p].job in s.repo.jobs
    requires CreateNext(s.repo, s.repo.jobs[s.active[p].job], freshId, now).1.Err?
    ensures var failing := RecurStep(s, p, freshId, now);
            && failing.repo == s.repo && failing.clock == now
            && p in failing.active && failing.active[p].Failing? && failing.active[p].job == s.active[p].job
  {
  }

  /** The proviso is needed: in every reachable state, a job just marked succeeded whose expression has no run
      after `now` is taken out of SUCCEEDED by the very call that marked it. */
  lemma SucceededIsLost(s: Sys, p: Proc, freshId: JobId, now: Time, later: Time)
    requires Inv(s) && Enabled(s, Recurs(p, freshId, now)) && now <= later
    requires CreateNext(s.repo, s.repo.jobs[s.active[p].job], freshId, now).1.Err?
    ensures var id, failing := s.active[p].job, RecurStep(s, p, freshId, now);
            && s.repo.jobs[id].status == Succeeded
            && Enabled(failing, Fails(p, later))
            && var lost := Apply(failing, Fails(p, later)).repo.jobs;
               id in lost && (lost[id].status == Failed || lost[id].status == DeadLettered)
  {
    assert ActivityOk(s, s.active[p]);
    NoNextRun(s, p, freshId, now);
  }

  /** While drain is on, no event starts an attempt of any job. */
  lemma DrainBlocksStarts(s: Sys, e: Event, id: JobId)
    requires Enabled(s, e) && s.repo.drain && id in s.repo.jobs
    ensures id in Apply(s, e).repo.jobs && Apply(s, e).repo.jobs[id].attemptCount == s.repo.jobs[id].attemptCount
    ensures s.repo.jobs[id].status != Running ==> Apply(s, e).repo.jobs[id].status != Running
  {
    RecordAfter(s, e, id);
  }

  // ----- dead letters -----

  /** Each job has at most one dead-letter event, and only dead-lettered jobs have one. */
  lemma DeadLettersAreDead(events: seq<Event>, i: nat, j: nat)
    requires Admissible(START, events)
    ensures var s := Run(START, events);
            && (i < j < |s.log.deadLetters| ==> s.log.deadLetters[i].job != s.log.deadLetters[j].job)
            && (i < |s.log.deadLetters| ==>
                  var job := s.log.deadLetters[i].job;
                  job in s.repo.jobs && s.repo.jobs[job].status == DeadLettered)
  {
    StartInv();
    RunKeepsInv(START, events);
  }

  /** No worker crashes and the producer stays up. */
  predicate Lossless(events: seq<Event>) {
    forall i :: 0 <= i < |events| ==> !events[i].Crashes? && events[i] != Kafka(false)
  }

  ghost predicate BeingReported(s: Sys, id: JobId) {
    exists p :: p in s.active && s.active[p].Reporting? && s.active[p].job == id
  }

  /** Every dead-lettered job has its event in the log, or a worker about to send it. */
  ghost predicate AllLogged(s: Sys) {
    && s.log.available
    && (forall id :: id in s.repo.jobs && s.repo.jobs[id].status == DeadLettered ==>
        HasDeadLetter(s.log, id) || BeingReported(s, id))
  }

  /** Dead-letter events are never taken back, and only reporting adds one. */
  lemma DeadLettersGrow(s: Sys, e: Event)
    requires Enabled(s, e)
    ensures s.log.deadLetters <= Apply(s, e).log.deadLetters
    ensures e.Reports? && s.log.available ==>
              && |Apply(s, e).log.deadLetters| == |s.log.deadLetters| + 1
              && Apply(s, e).log.deadLetters[|s.log.deadLetters|].job == s.repo.jobs[s.active[e.p].job].id
  {
    if e.Republishes? {
      PublishAllSends(s.log, Due(s.repo, e.limit, e.now));
    }
  }

  lemma LoggedStays(s: Sys, e: Event, id: JobId)
    requires Enabled(s, e) && HasDeadLetter(s.log, id)
    ensures HasDeadLetter(Apply(s, e).log, id)
  {
    DeadLettersGrow(s, e);
    var i :| 0 <= i < |s.log.deadLetters| && s.log.deadLetters[i].job == id;
    assert Apply(s, e).log.deadLetters[i].job == id;
  }

  lemma ReportStays(s: Sys, e: Event, p: Proc)
    requires Enabled(s, e) && p in s.active && s.active[p].Reporting? && e != Reports(p) && e != Crashes(p)
    ensures p in Apply(s, e).active && Apply(s, e).active[p] == s.active[p]
  {
  }

  lemma BecomesDead(s: Sys, e: Event, id: JobId)
    requires Enabled(s, e)
    requires id in Apply(s, e).repo.jobs && Apply(s, e).repo.jobs[id].status == DeadLettered
    requires !(id in s.repo.jobs && s.repo.jobs[id].status == DeadLettered)
    ensures BeingReported(Apply(s, e), id)
  {
    assert e.Fails?;
    assert s.active[e.p].job == id;
    assert Apply(s, e).active[e.p].Reporting?;
  }

  lemma LosslessJob(s: Sys, e: Event, id: JobId)
    requires Inv(s) && Enabled(s, e) && AllLogged(s) && !e.Crashes? && e != Kafka(false)
    requires id in Apply(s, e).repo.jobs && Apply(s, e).repo.jobs[id].status == DeadLettered
    ensures HasDeadLetter(Apply(s, e).log, id) || BeingReported(Apply(s, e), id)
  {
    if !(id in s.repo.jobs && s.repo.jobs[id].status == DeadLettered) {
      BecomesDead(s, e, id);
    } else if HasDeadLetter(s.log, id) {
      LoggedStays(s, e, id);
    } else {
      var p :| p in s.active && s.active[p].Reporting? && s.active[p].job == id;
      if e == Reports(p) {
        DeadLettersGrow(s, e);
      } else {
        ReportStays(s, e, p);
      }
    }
  }

  lemma LosslessEvent(s: Sys, e: Event)
    requires Inv(s) && Enabled(s, e) && AllLogged(s) && !e.Crashes? && e != Kafka(false)
    ensures AllLogged(Apply(s, e))
  {
    var s' := Apply(s, e);
    if e.Republishes? {
      PublishAllSends(s.log, Due(s.repo, e.limit, e.now));
    }
    forall id | id in s'.repo.jobs && s'.repo.jobs[id].status == DeadLettered
      ensures HasDeadLetter(s'.log, id) || BeingReported(s', id)
    {
      LosslessJob(s, e, id);
    }
  }

  lemma {:induction false} LosslessRun(s: Sys, events: seq<Event>)
    requires Inv(s) && Admissible(s, events) && AllLogged(s) && Lossless(events)
    ensures AllLogged(Run(s, events))
    decreases |events|
  {
    if events == [] {
    } else {
      assert !events[0].Crashes? && events[0] != Kafka(false);
      LosslessEvent(s, events[0]);
      EventKeepsInv(s, events[0]);
      LosslessRun(Apply(s, events[0]), events[1..]);
    }
  }

  lemma ReportedNotLogged(s: Sys, id: JobId)
    requires Inv(s) && BeingReported(s, id)
    ensures !HasDeadLetter(s.log, id)
  {
    var p :| p in s.active && s.active[p].Reporting? && s.active[p].job == id;
    assert ActivityOk(s, s.active[p]);
  }

  /** Without crashes and with the producer up, the log names exactly the dead-lettered jobs but for those whose
      event is just about to be sent. */
  lemma DeadLetterLogAgrees(events: seq<Event>, id: JobId)
    requires Admissible(START, events) && Lossless(events)
    ensures var s := Run(START, events);
            HasDeadLetter(s.log, id) <==>
              id in s.repo.jobs && s.repo.jobs[id].status == DeadLettered && !BeingReported(s, id)
  {
    StartInv();
    RunKeepsInv(START, events);
    LosslessRun(START, events);
    if BeingReported(Run(START, events), id) {
      ReportedNotLogged(Run(START, events), id);
    }
  }
}
