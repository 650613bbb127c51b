// The service layer over the in-memory repository and the recording producer (app/jobs/service.py).
module Service {
  import opened Core
  import opened Jobs
  import opened MemoryRepository
  import opened Queue
  import CronSearch

  const HANDLERS: set<string> := {"echo", "always_fail", "fail_once", "sleep"}

  /** Repository and producer together. */
  datatype World = World(repo: Repo, log: Log)

  /** How the handler's child process ended. */
  datatype Outcome = Returned(result: Payload) | Raising(message: string)

  /** What one processing attempt takes from outside: the handler's outcome, a fresh id, and the clock
      readings of the calls it makes. */
  datatype Surroundings = Surroundings(
    outcome: Outcome, freshId: JobId, claimAt: Time, succeedAt: Time, recurAt: Time, failAt: Time)

  function Submit(
    w: World, maxPayloadBytes: nat, request: JobCreate, id: JobId, now: Time): (World, Result<(JobRecord, bool)>)
    requires IndexInverts(w.repo)
  {
    if request.handler !in HANDLERS then (w, Err(BadRequest(UnsupportedHandler)))
    else if |request.payload| > maxPayloadBytes then (w, Err(BadRequest(PayloadTooLarge)))
    else
      var (repo, job, replay) := Create(w.repo, request, id, now);
      if replay then (World(repo, w.log), Ok((job, true)))
      else
        var (log, sent) := Publish(w.log, EventOf(job));
        (World(repo, log), if sent.Err? then Err(sent.error) else Ok((job, false)))
  }

  /** A failed attempt is reported when it was the last. */
  function Report(log: Log, job: JobRecord): (Log, Result<Option<JobRecord>>) {
    if job.status != DeadLettered then (log, Ok(Some(job)))
    else
      var (after, sent) := PublishDead(log, DeadLetterEvent(job.id, job.handler, job.attemptCount));
      (after, if sent.Err? then Err(sent.error) else Ok(Some(job)))
  }

  /** The `except` branch of `process_job`. */
  function FailAttempt(w: World, job: JobRecord, failure: Failure, now: Time): (World, Result<Option<JobRecord>>) {
    var (repo, updated) := Fail(w.repo, job.id, failure, Backoff(job.attemptCount), now);
    if updated.Err? then (World(repo, w.log), Err(updated.error))
    else
      var (log, r) := Report(w.log, updated.value);
      (World(repo, log), r)
  }

  /** After success has been recorded: create the next run, or, if the search raises, take the failure branch. */
  function RecurAttempt(
    w: World, job: JobRecord, succeeded: JobRecord, s: Surroundings): (World, Result<Option<JobRecord>>) {
    var (recurred, next) := CreateNext(w.repo, succeeded, s.freshId, s.recurAt);
    if next.Err? then FailAttempt(World(recurred, w.log), job, Raised(next.error), s.failAt)
    else (World(recurred, w.log), Ok(Some(succeeded)))
  }

  /** The `try` branch after the handler has returned. */
  function FinishAttempt(
    w: World, job: JobRecord, result: Payload, s: Surroundings): (World, Result<Option<JobRecord>>) {
    var (marked, succeeded) := Succeed(w.repo, job.id, result, s.succeedAt);
    if succeeded.Err? then FailAttempt(World(marked, w.log), job, Raised(succeeded.error), s.failAt)
    else RecurAttempt(World(marked, w.log), job, succeeded.value, s)
  }

  /** A claimed job's handler runs in its child process. */
  function Attempt(w: World, job: JobRecord, s: Surroundings): (World, Result<Option<JobRecord>>) {
    match s.outcome
    case Returned(result) => FinishAttempt(w, job, result, s)
    case Raising(message) => FailAttempt(w, job, HandlerFailed(message), s.failAt)
  }

  function Process(w: World, id: JobId, worker: string, s: Surroundings): (World, Result<Option<JobRecord>>) {
    var (repo, claimed) := Claim(w.repo, id, worker, s.claimAt);
    var started := World(repo, w.log);
    if claimed.None? then (started, Ok(None))
    else if claimed.value.handler !in HANDLERS then (started, Err(BadRequest(UnsupportedHandler)))
    else Attempt(started, claimed.value, s)
  }

  function PublishAll(log: Log, jobs: seq<JobRecord>): (Log, Result<()>)
    decreases |jobs|
  {
    if jobs == [] then (log, Ok(()))
    else
      var (sentLog, sent) := Publish(log, EventOf(jobs[0]));
      if sent.Err? then (sentLog, sent) else PublishAll(sentLog, jobs[1..])
  }

  function Events(jobs: seq<JobRecord>): (events: seq<JobEvent>)
    ensures |events| == |jobs|
    ensures forall i :: 0 <= i < |jobs| ==> events[i] == EventOf(jobs[i])
  {
    seq(|jobs|, i requires 0 <= i < |jobs| => EventOf(jobs[i]))
  }

  /** Publishing a batch sends one event per job in order, or, with the producer down, nothing at all. */
  lemma {:induction false} PublishAllSends(log: Log, jobs: seq<JobRecord>)
    ensures log.available ==> PublishAll(log, jobs) == (log.(published := log.published + Events(jobs)), Ok(()))
    ensures !log.available ==> PublishAll(log, jobs).0 == log
    ensures !log.available && jobs != [] ==> PublishAll(log, jobs).1 == Err(DependencyUnavailable)
    decreases |jobs|
  {
    if jobs == [] {
      assert log.published + Events(jobs) == log.published;
    } else if log.available {
      var (sent, _) := Publish(log, EventOf(jobs[0]));
      PublishAllSends(sent, jobs[1..]);
      assert log.published + Events(jobs) == sent.published + Events(jobs[1..]);
    }
  }

  // ----- what the calls do, column by column -----

  /** The names the worker has handlers for (app/jobs/handlers.py). */
  predicate Supported(handler: string) {
    handler == "echo" || handler == "always_fail" || handler == "fail_once" || handler == "sleep"
  }

  /** The call adds this event, if the producer is up, and nothing else to what has been sent. */
  ghost predicate Sends(log: Log, log': Log, event: JobEvent) {
    log' == log.(published := if log.available then log.published + [event] else log.published)
  }

  /** The same for a dead letter of the job. */
  ghost predicate SendsDead(log: Log, log': Log, job: JobRecord) {
    var letter := DeadLetterEvent(job.id, job.handler, job.attemptCount);
    log' == log.(deadLetters := if log.available then log.deadLetters + [letter] else log.deadLetters)
  }

  /** A request is refused for an unknown handler or a payload too large; a known key gives back the job that has it;
      otherwise the new job is stored and announced. */
  ghost predicate Submitted(w: World, w': World, r: Result<(JobRecord, bool)>, maxPayloadBytes: nat, request: JobCreate,
        id: JobId, now: Time)
  {
    if !Supported(request.handler) then w' == w && r == Err(BadRequest(UnsupportedHandler))
    else if |request.payload| > maxPayloadBytes then w' == w && r == Err(BadRequest(PayloadTooLarge))
    else if request.idempotencyKey.Some? && request.idempotencyKey.value in w.repo.index then
      && w' == w && r.Ok? && r.value.1 && w.repo.index[request.idempotencyKey.value] in w.repo.jobs
      && r.value.0 == w.repo.jobs[w.repo.index[request.idempotencyKey.value]]
    else
      && id in w'.repo.jobs && IsRequested(w'.repo.jobs[id], request, id, now)
      && w'.repo.jobs == w.repo.jobs[id := w'.repo.jobs[id]] && w'.repo.drain == w.repo.drain
      && Sends(w.log, w'.log, JobEvent(id, request.handler, request.priority, w'.repo.jobs[id].nextRunAt, 0))
      && r == if w.log.available then Ok((w'.repo.jobs[id], false)) else Err(DependencyUnavailable)
  }

  lemma SubmitInColumns(w: World, maxPayloadBytes: nat, request: JobCreate, id: JobId, now: Time)
    requires WellFormed(w.repo) && id !in w.repo.jobs
    ensures var (w', r) := Submit(w, maxPayloadBytes, request, id, now);
            Submitted(w, w', r, maxPayloadBytes, request, id, now)
  {
  }

  /** These are due jobs as they are stored, in due order, at most `limit`, and a due job is missing only when there are
      `limit` that come before it. */
  ghost predicate FirstDue(r: Repo, due: seq<JobRecord>, limit: nat, now: Time) {
    && |due| <= limit && InDueOrder(r.order, due) && Distinct(Ids(due))
    && (forall job :: job in due ==>
          && job.id in r.jobs && r.jobs[job.id] == job
          && (job.status == Queued || job.status == Failed) && job.nextRunAt <= now)
    && (forall id :: id in r.jobs && (r.jobs[id].status == Queued || r.jobs[id].status == Failed)
                     && r.jobs[id].nextRunAt <= now ==>
          || r.jobs[id] in due
          || (|due| == limit && forall i :: 0 <= i < limit ==> ComesFirst(r.order, due[i], r.jobs[id])))
  }

  /** One new event per job, in order, telling of that job. */
  ghost predicate AllAnnounced(before: seq<JobEvent>, after: seq<JobEvent>, jobs: seq<JobRecord>) {
    && |after| == |before| + |jobs| && after[..|before|] == before
    && forall i :: 0 <= i < |jobs| ==> Announces(after[|before| + i], jobs[i])
  }

  lemma DueIsFirstDue(r: Repo, limit: nat, now: Time)
    requires WellFormed(r)
    ensures FirstDue(r, Due(r, limit, now), limit, now)
  {
    DueIsFirst(r, limit, now);
    DueInColumns(r, limit, now);
  }

  lemma EventsAnnounce(before: seq<JobEvent>, jobs: seq<JobRecord>)
    ensures AllAnnounced(before, before + Events(jobs), jobs)
  {
  }

  /** The failure of an attempt is recorded: the retry is due after 1, 2, 4 seconds and so on, at most 300, or the job
      is given up, and then a dead letter says so. */
  ghost predicate FailureRecorded(w: World, w': World, r: Result<Option<JobRecord>>, id: JobId, attempt: nat,
        failure: Failure, now: Time)
  {
    && OnlyRewrites(w.repo, w'.repo, id)
    && IsFailed(w'.repo.jobs[id], w.repo.jobs[id], failure, RetryDelay(attempt), now)
    && var job := w'.repo.jobs[id];
       if job.status == DeadLettered then
         && job.processedAt == Some(now) && SendsDead(w.log, w'.log, job)
         && r == if w.log.available then Ok(Some(job)) else Err(DependencyUnavailable)
       else
         job.processedAt == None && w'.log == w.log && r == Ok(Some(job))
  }

  lemma FailInColumns(w: World, job: JobRecord, failure: Failure, now: Time)
    ensures var (w', r) := FailAttempt(w, job, failure, now);
            if job.id in w.repo.jobs then FailureRecorded(w, w', r, job.id, job.attemptCount, failure, now)
            else w' == w && r == Err(NotFound)
  {
    BackoffIsRetryDelay(job.attemptCount);
  }

  ghost predicate SucceededThen(started: World, marked: World, w': World, r: Result<Option<JobRecord>>, job: JobRecord,
        result: Payload, s: Surroundings)
  {
    && OnlyRewrites(started.repo, marked.repo, job.id) && marked.log == started.log
    && IsSucceeded(marked.repo.jobs[job.id], job, result, s.succeedAt)
    && var done := marked.repo.jobs[job.id];
       if done.recurringCron.None? || done.recurringCron.value == [] then w' == marked && r == Ok(Some(done))
       else
         match CronSearch.NextRun(done.recurringCron.value, s.recurAt)
         case Ok(slot) =>
           && s.freshId in w'.repo.jobs && IsNextOf(w'.repo.jobs[s.freshId], done, s.freshId, slot, s.recurAt)
           && w'.repo.jobs == marked.repo.jobs[s.freshId := w'.repo.jobs[s.freshId]]
           && w'.repo.drain == marked.repo.drain && w'.log == marked.log && r == Ok(Some(done))
         case Err(e) => FailureRecorded(marked, w', r, job.id, job.attemptCount, Raised(e), s.failAt)
  }

  /** What `process_job` does with a job it may start: nothing else to do for an unknown handler; the handler's error
      is recorded as a failure; its result as success, followed by the next run of a recurring job, or, if the search
      for that raises, by a failure all the same. */
  ghost predicate Processed(started: World, w': World, r: Result<Option<JobRecord>>, job: JobRecord, s: Surroundings) {
    if !Supported(job.handler) then w' == started && r == Err(BadRequest(UnsupportedHandler))
    else
      match s.outcome
      case Raising(message) =>
        FailureRecorded(started, w', r, job.id, job.attemptCount, HandlerFailed(message), s.failAt)
      case Returned(result) =>
        exists marked: World :: SucceededThen(started, marked, w', r, job, result, s)
  }

  lemma FinishInColumns(w: World, job: JobRecord, result: Payload, s: Surroundings)
    requires job.id in w.repo.jobs && w.repo.jobs[job.id] == job && s.freshId !in w.repo.jobs
    ensures var (w', r) := FinishAttempt(w, job, result, s);
            SucceededThen(w, World(Succeed(w.repo, job.id, result, s.succeedAt).0, w.log), w', r, job, result, s)
  {
    var marked := World(Succeed(w.repo, job.id, result, s.succeedAt).0, w.log);
    var next := CreateNext(marked.repo, marked.repo.jobs[job.id], s.freshId, s.recurAt).1;
    if next.Err? {
      FailInColumns(marked, job, Raised(next.error), s.failAt);
    }
  }

  /** May a delivery start the job at this moment? */
  predicate MayStart(r: Repo, id: JobId, now: Time) {
    && !r.drain && id in r.jobs && (r.jobs[id].status == Queued || r.jobs[id].status == Failed)
    && r.jobs[id].nextRunAt <= now
  }

  /** `process_job` as a whole: it does nothing unless the job may start, and then starts it and goes on as above. */
  ghost predicate ProcessedJob(w: World, w': World, r: Result<Option<JobRecord>>, id: JobId, worker: string,
        s: Surroundings)
  {
    if !MayStart(w.repo, id, s.claimAt) then w' == w && r == Ok(None)
    else
      exists started: World ::
        && OnlyRewrites(w.repo, started.repo, id) && started.log == w.log
        && IsStarted(started.repo.jobs[id], w.repo.jobs[id], worker, s.claimAt)
        && Processed(started, w', r, started.repo.jobs[id], s)
  }

  lemma AttemptInColumns(started: World, job: JobRecord, s: Surroundings)
    requires job.id in started.repo.jobs && started.repo.jobs[job.id] == job && s.freshId !in started.repo.jobs
    ensures var (w', r) := if job.handler !in HANDLERS then (started, Err(BadRequest(UnsupportedHandler)))
                           else Attempt(started, job, s);
            Processed(started, w', r, job, s)
  {
    if job.handler in HANDLERS {
      match s.outcome
      case Raising(message) => FailInColumns(started, job, HandlerFailed(message), s.failAt);
      case Returned(result) => FinishInColumns(started, job, result, s);
    }
  }

  lemma ProcessInColumns(w: World, id: JobId, worker: string, s: Surroundings)
    requires WellFormed(w.repo) && s.freshId !in w.repo.jobs
    ensures var (w', r) := Process(w, id, worker, s); ProcessedJob(w, w', r, id, worker, s)
  {
    var (repo, claimed) := Claim(w.repo, id, worker, s.claimAt);
    if claimed.Some? {
      AttemptInColumns(World(repo, w.log), claimed.value, s);
    }
  }

  class JobService {
    const repository: InMemoryJobRepository
    const producer: FakeJobProducer
    const maxPayloadBytes: nat

    function View(): World
      reads repository, producer
    {
      World(repository.View(), producer.View())
    }

    constructor (repository: InMemoryJobRepository, producer: FakeJobProducer, maxPayloadBytes: nat)
      ensures this.repository == repository && this.producer == producer && this.maxPayloadBytes == maxPayloadBytes
    {
      this.repository, this.producer, this.maxPayloadBytes := repository, producer, maxPayloadBytes;
    }

    method SubmitJob(request: JobCreate, freshId: JobId, now: Time) returns (r: Result<(JobRecord, bool)>)
      requires repository.Valid() && freshId !in repository.jobs
      modifies repository, producer`published
      ensures repository.Valid()
      ensures (View(), r) == Submit(old(View()), maxPayloadBytes, request, freshId, now)
      ensures request.handler !in HANDLERS || |request.payload| > maxPayloadBytes ==> r.Err? && View() == old(View())
      ensures r.Ok? && r.value.1 ==> producer.published == old(producer.published)
      ensures r.Ok? && !r.value.1 ==> producer.published == old(producer.published) + [EventOf(r.value.0)]
      ensures Submitted(old(View()), View(), r, maxPayloadBytes, request, freshId, now)
    {
      SubmitInColumns(View(), maxPayloadBytes, request, freshId, now);
      if request.handler !in HANDLERS {
        return Err(BadRequest(UnsupportedHandler));
      }
      if |request.payload| > maxPayloadBytes {
        return Err(BadRequest(PayloadTooLarge));
      }
      var job, replay := repository.CreateJob(request, freshId, now);
      if !replay {
        var _ :- producer.PublishJob(EventOf(job));
      }
      return Ok((job, replay));
    }

    method CancelJob(id: JobId, now: Time) returns (r: Result<JobRecord>)
      requires repository.Valid()
      modifies repository
      ensures repository.Valid()
      ensures (repository.View(), r) == Cancel(old(repository.View()), id, now)
    {
      r := repository.CancelJob(id, now);
    }

    method SetDrain(enabled: bool)
      requires repository.Valid()
      modifies repository`drainEnabled
      ensures repository.Valid() && repository.View() == old(repository.View()).(drain := enabled)
    {
      repository.SetDrain(enabled);
    }

    method RecordFailure(job: JobRecord, failure: Failure, now: Time) returns (r: Result<Option<JobRecord>>)
      requires repository.Valid()
      modifies repository, producer`deadLetters
      ensures repository.Valid()
      ensures (View(), r) == FailAttempt(old(View()), job, failure, now)
      ensures if job.id in old(repository.jobs) then
                FailureRecorded(old(View()), View(), r, job.id, job.attemptCount, failure, now)
              else View() == old(View()) && r == Err(NotFound)
    {
      FailInColumns(View(), job, failure, now);
      var updated :- repository.MarkFailedAttempt(job.id, failure, Backoff(job.attemptCount), now);
      if updated.status == DeadLettered {
        var _ :- producer.PublishDeadLetter(DeadLetterEvent(updated.id, updated.handler, updated.attemptCount));
      }
      return Ok(Some(updated));
    }

    /** The `try` statement of `process_job`, with its `except` branch. */
    method RunJob(job: JobRecord, s: Surroundings) returns (r: Result<Option<JobRecord>>)
      requires repository.Valid() && s.freshId !in repository.jobs
      modifies repository, producer`deadLetters
      ensures repository.Valid()
      ensures (View(), r) == Attempt(old(View()), job, s)
    {
      var failure: Failure;
      match s.outcome {
        case Raising(message) =>
          failure := HandlerFailed(message);
        case Returned(result) =>
          var succeeded := repository.MarkSucceeded(job.id, result, s.succeedAt);
          match succeeded {
            case Err(e) =>
              failure := Raised(e);
            case Ok(marked) =>
              var next := repository.CreateNextRecurringJob(marked, s.freshId, s.recurAt);
              match next {
                case Ok(_) => return Ok(Some(marked));
                case Err(e) => failure := Raised(e);
              }
          }
      }
      r := RecordFailure(job, failure, s.failAt);
    }

    method ProcessJob(id: JobId, worker: string, s: Surroundings) returns (r: Result<Option<JobRecord>>)
      requires repository.Valid() && s.freshId !in repository.jobs
      modifies repository, producer`deadLetters
      ensures repository.Valid()
      ensures (View(), r) == Process(old(View()), id, worker, s)
      ensures producer.published == old(producer.published)
      ensures var before, after := old(View()), View(); ProcessedJob(before, after, r, id, worker, s)
    {
      ProcessInColumns(View(), id, worker, s);
      var claimed := repository.ClaimJob(id, worker, s.claimAt);
      if claimed.None? {
        return Ok(None);
      }
      if claimed.value.handler !in HANDLERS {
        return Err(BadRequest(UnsupportedHandler));
      }
      r := RunJob(claimed.value, s);
    }

    method PublishDueJobs(limit: nat, now: Time) returns (r: Result<nat>)
      requires repository.Valid()
      modifies producer`published
      ensures var due := Due(repository.View(), limit, now);
              var (log, sent) := PublishAll(old(producer.View()), due);
              producer.View() == log && r == (if sent.Err? then Err(sent.error) else Ok(|due|))
      ensures old(producer.available) ==>
                && r == Ok(|Due(repository.View(), limit, now)|)
                && |producer.published| == |old(producer.published)| + |Due(repository.View(), limit, now)|
      ensures !old(producer.available) ==> producer.published == old(producer.published)
      ensures old(producer.available) ==>
                exists due: seq<JobRecord> ::
                  && FirstDue(repository.View(), due, limit, now)
                  && AllAnnounced(old(producer.published), producer.published, due)
    {
      DueIsFirstDue(repository.View(), limit, now);
      var due := repository.DueJobs(limit, now);
      PublishAllSends(producer.View(), due);
      EventsAnnounce(producer.published, due);
      for i := 0 to |due|
        invariant PublishAll(old(producer.View()), due) == PublishAll(producer.View(), due[i..])
      {
        assert due[i..][1..] == due[i + 1..];
        var _ :- producer.PublishJob(EventOf(due[i]));
      }
      return Ok(|due|);
    }
  }

  /** A claimed attempt whose handler returns leaves its job succeeded exactly when the job does not recur or its
      expression has a next run; otherwise the job ends failed or dead-lettered, although it was marked succeeded. In
      both cases the record holds the result and one attempt more. */
  lemma SuccessIsKeptIff(w: World, id: JobId, worker: string, s: Surroundings)
    requires id in w.repo.jobs && w.repo.jobs[id].id == id && w.repo.jobs[id].handler in HANDLERS
    requires Claim(w.repo, id, worker, s.claimAt).1.Some? && s.outcome.Returned? && s.freshId !in w.repo.jobs
    ensures var after := Process(w, id, worker, s).0.repo.jobs;
            var job := w.repo.jobs[id];
            && id in after
            && (after[id].status == Succeeded <==>
                  || job.recurringCron.None? || job.recurringCron.value == []
                  || CronSearch.NextRun(job.recurringCron.value, s.recurAt).Ok?)
            && (after[id].status == Succeeded || after[id].status == Failed || after[id].status == DeadLettered)
            && after[id].result == Some(s.outcome.result) && after[id].attemptCount == job.attemptCount + 1
  {
  }
}
