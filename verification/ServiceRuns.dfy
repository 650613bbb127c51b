// One sequential call of `process_job` is one run of the interleaving model, so what holds of all runs
// holds of all sequences of service calls.
module ServiceRuns {
  import opened Core
  import opened Jobs
  import opened MemoryRepository
  import opened Queue
  import opened Service
  import opened Lifecycle

  /** The run ends with the call over and the given repository and log. */
  ghost predicate Ends(s: Sys, events: seq<Event>, w: World, active: map<Proc, Activity>) {
    && Admissible(s, events)
    && Run(s, events).repo == w.repo && Run(s, events).log == w.log && Run(s, events).active == active
  }

  lemma Then(s: Sys, e: Event, rest: seq<Event>, w: World, active: map<Proc, Activity>)
    requires Enabled(s, e) && Ends(Apply(s, e), rest, w, active)
    ensures Ends(s, [e] + rest, w, active)
  {
    assert ([e] + rest)[1..] == rest;
  }

  lemma Over(s: Sys, w: World, active: map<Proc, Activity>)
    requires s.repo == w.repo && s.log == w.log && s.active == active
    ensures Ends(s, [], w, active)
  {
  }

  function FailEvents(repo: Repo, p: Proc, job: JobRecord, failure: Failure, now: Time): seq<Event> {
    var updated := Fail(repo, job.id, failure, Backoff(job.attemptCount), now).1;
    [Fails(p, now)] + (if updated.Ok? && updated.value.status == DeadLettered then [Reports(p)] else [])
  }

  lemma ReportIsRun(s: Sys, p: Proc, job: JobRecord)
    requires Inv(s) && p in s.active && s.active[p] == Reporting(job.id, job.attemptCount)
    requires job.id in s.repo.jobs && s.repo.jobs[job.id] == job
    ensures var w := World(s.repo, PublishDead(s.log, DeadLetterEvent(job.id, job.handler, job.attemptCount)).0);
            Ends(s, [Reports(p)], w, s.active - {p})
  {
    var w := World(s.repo, PublishDead(s.log, DeadLetterEvent(job.id, job.handler, job.attemptCount)).0);
    Over(ReportStep(s, p), w, s.active - {p});
    Then(s, Reports(p), [], w, s.active - {p});
    assert [Reports(p)] + [] == [Reports(p)];
  }

  lemma FailedState(s: Sys, p: Proc, job: JobRecord, failure: Failure, now: Time)
    requires Inv(s) && p in s.active && s.active[p] == Failing(job.id, job.attemptCount, failure) && s.clock <= now
    ensures var (repo, updated) := Fail(s.repo, job.id, failure, Backoff(job.attemptCount), now);
            var failed := FailStep(s, p, now);
            && updated.Ok? && updated.value.id == job.id && updated.value.attemptCount == job.attemptCount
            && failed.repo == repo && failed.log == s.log
            && job.id in repo.jobs && repo.jobs[job.id] == updated.value
            && failed.active ==
               if updated.value.status == DeadLettered then s.active[p := Reporting(job.id, job.attemptCount)]
               else s.active - {p}
  {
    assert ActivityOk(s, s.active[p]);
  }

  lemma FailAttemptIsRun(s: Sys, p: Proc, job: JobRecord, failure: Failure, now: Time)
    requires Inv(s) && p in s.active && s.active[p] == Failing(job.id, job.attemptCount, failure) && s.clock <= now
    ensures var w := FailAttempt(World(s.repo, s.log), job, failure, now).0;
            Ends(s, FailEvents(s.repo, p, job, failure, now), w, s.active - {p})
  {
    FailKeepsInv(s, p, now);
    FailedState(s, p, job, failure, now);
    var failed := FailStep(s, p, now);
    var updated := failed.repo.jobs[job.id];
    var w := FailAttempt(World(s.repo, s.log), job, failure, now).0;
    if updated.status == DeadLettered {
      ReportIsRun(failed, p, updated);
      assert failed.active - {p} == s.active - {p};
      Then(s, Fails(p, now), [Reports(p)], w, s.active - {p});
    } else {
      Over(failed, w, s.active - {p});
      Then(s, Fails(p, now), [], w, s.active - {p});
    }
  }

  function RecurEvents(repo: Repo, p: Proc, job: JobRecord, succeeded: JobRecord, s: Surroundings): seq<Event> {
    var (recurred, next) := CreateNext(repo, succeeded, s.freshId, s.recurAt);
    [Recurs(p, s.freshId, s.recurAt)] +
    if next.Ok? then [] else FailEvents(recurred, p, job, Raised(next.error), s.failAt)
  }

  function FinishEvents(repo: Repo, p: Proc, job: JobRecord, result: Payload, s: Surroundings): seq<Event> {
    var (marked, succeeded) := Succeed(repo, job.id, result, s.succeedAt);
    if succeeded.Err? then [] else RecurEvents(marked, p, job, succeeded.value, s)
  }

  function ProcessEvents(w: World, p: Proc, id: JobId, worker: string, s: Surroundings): seq<Event> {
    var (repo, claimed) := Claim(w.repo, id, worker, s.claimAt);
    [Starts(p, id, worker, s.claimAt)] +
    if claimed.None? then []
    else
      match s.outcome
      case Raising(message) =>
        [Raises(p, message)] + FailEvents(repo, p, claimed.value, HandlerFailed(message), s.failAt)
      case Returned(result) =>
        [Succeeds(p, result, s.succeedAt)] + FinishEvents(repo, p, claimed.value, result, s)
  }

  /** The clock readings of one call come in order. */
  predicate InOrder(clock: Time, s: Surroundings) {
    clock <= s.claimAt <= s.succeedAt <= s.recurAt <= s.failAt
  }

  lemma RecurredState(s: Sys, p: Proc, job: JobRecord, record: JobRecord, env: Surroundings)
    requires p in s.active && s.active[p] == Recurring(job.id, job.attemptCount)
    requires job.id in s.repo.jobs && s.repo.jobs[job.id] == record
    ensures var (repo, next) := CreateNext(s.repo, record, env.freshId, env.recurAt);
            var recurred := RecurStep(s, p, env.freshId, env.recurAt);
            && recurred.repo == repo && recurred.log == s.log && recurred.clock == env.recurAt
            && recurred.active - {p} == s.active - {p}
            && (match next
                case Ok(_) => recurred.active == s.active - {p}
                case Err(e) =>
                  p in recurred.active && recurred.active[p] == Failing(job.id, job.attemptCount, Raised(e)))
  {
  }

  /** From the moment the job is marked succeeded. */
  lemma RecurIsRun(s: Sys, p: Proc, job: JobRecord, record: JobRecord, env: Surroundings)
    requires Inv(s) && p in s.active && s.active[p] == Recurring(job.id, job.attemptCount)
    requires job.id in s.repo.jobs && s.repo.jobs[job.id] == record
    requires s.clock <= env.recurAt <= env.failAt && env.freshId !in s.repo.jobs
    ensures var w := RecurAttempt(World(s.repo, s.log), job, record, env).0;
            Ends(s, RecurEvents(s.repo, p, job, record, env), w, s.active - {p})
  {
    RecurKeepsInv(s, p, env.freshId, env.recurAt);
    RecurredState(s, p, job, record, env);
    var recurred := RecurStep(s, p, env.freshId, env.recurAt);
    var w := RecurAttempt(World(s.repo, s.log), job, record, env).0;
    match CreateNext(s.repo, record, env.freshId, env.recurAt).1
    case Ok(_) =>
      Over(recurred, w, s.active - {p});
      Then(s, Recurs(p, env.freshId, env.recurAt), [], w, s.active - {p});
    case Err(e) =>
      FailAttemptIsRun(recurred, p, job, Raised(e), env.failAt);
      var rest := FailEvents(recurred.repo, p, job, Raised(e), env.failAt);
      Then(s, Recurs(p, env.freshId, env.recurAt), rest, w, s.active - {p});
  }

  lemma MarkedState(s: Sys, p: Proc, job: JobRecord, result: Payload, now: Time)
    requires Inv(s) && p in s.active && s.active[p] == Executing(job.id, job.attemptCount) && s.clock <= now
    ensures var (repo, succeeded) := Succeed(s.repo, job.id, result, now);
            var marked := SucceedStep(s, p, result, now);
            && succeeded.Ok? && marked.repo == repo && marked.log == s.log && marked.clock == now
            && job.id in repo.jobs && repo.jobs[job.id] == succeeded.value && repo.jobs.Keys == s.repo.jobs.Keys
            && p in marked.active && marked.active[p] == Recurring(job.id, job.attemptCount)
            && marked.active - {p} == s.active - {p}
  {
    assert ActivityOk(s, s.active[p]);
  }

  lemma FinishIsRun(s: Sys, p: Proc, job: JobRecord, result: Payload, env: Surroundings)
    requires Inv(s) && p in s.active && s.active[p] == Executing(job.id, job.attemptCount)
    requires s.clock <= env.succeedAt <= env.recurAt <= env.failAt && env.freshId !in s.repo.jobs
    ensures var w := FinishAttempt(World(s.repo, s.log), job, result, env).0;
            Ends(s, [Succeeds(p, result, env.succeedAt)] + FinishEvents(s.repo, p, job, result, env), w, s.active - {p})
  {
    SucceedKeepsInv(s, p, result, env.succeedAt);
    MarkedState(s, p, job, result, env.succeedAt);
    var marked := SucceedStep(s, p, result, env.succeedAt);
    RecurIsRun(marked, p, job, marked.repo.jobs[job.id], env);
    var w := FinishAttempt(World(s.repo, s.log), job, result, env).0;
    Then(s, Succeeds(p, result, env.succeedAt), FinishEvents(s.repo, p, job, result, env), w, s.active - {p});
  }

  lemma RaisedState(s: Sys, p: Proc, job: JobRecord, message: string)
    requires Inv(s) && p in s.active && s.active[p] == Executing(job.id, job.attemptCount)
    ensures Enabled(s, Raises(p, message))
    ensures var raised := Apply(s, Raises(p, message));
            && Inv(raised) && raised.repo == s.repo && raised.log == s.log && raised.clock == s.clock
            && p in raised.active && raised.active[p] == Failing(job.id, job.attemptCount, HandlerFailed(message))
            && raised.active - {p} == s.active - {p}
  {
    EventKeepsInv(s, Raises(p, message));
  }

  lemma RaiseIsRun(s: Sys, p: Proc, job: JobRecord, message: string, now: Time)
    requires Inv(s) && p in s.active && s.active[p] == Executing(job.id, job.attemptCount) && s.clock <= now
    ensures var w := FailAttempt(World(s.repo, s.log), job, HandlerFailed(message), now).0;
            Ends(s, [Raises(p, message)] + FailEvents(s.repo, p, job, HandlerFailed(message), now), w, s.active - {p})
  {
    RaisedState(s, p, job, message);
    var raised := Apply(s, Raises(p, message));
    FailAttemptIsRun(raised, p, job, HandlerFailed(message), now);
    var w := FailAttempt(World(s.repo, s.log), job, HandlerFailed(message), now).0;
    Then(s, Raises(p, message), FailEvents(raised.repo, p, job, HandlerFailed(message), now), w, s.active - {p});
  }

  lemma StartedState(s: Sys, p: Proc, id: JobId, worker: string, now: Time)
    requires Inv(s) && p !in s.active && s.clock <= now && Claim(s.repo, id, worker, now).1.Some?
    ensures var (repo, claimed) := Claim(s.repo, id, worker, now);
            var started := StartStep(s, p, id, worker, now);
            && started.repo == repo && started.log == s.log && started.clock == now
            && p in started.active && started.active[p] == Executing(claimed.value.id, claimed.value.attemptCount)
            && started.active - {p} == s.active
            && claimed.value.handler in HANDLERS && repo.jobs.Keys == s.repo.jobs.Keys
  {
  }

  /** A sequential `process_job` does to repository and log what the run of its events does. */
  lemma ProcessIsRun(s: Sys, p: Proc, id: JobId, worker: string, env: Surroundings)
    requires Inv(s) && p !in s.active && InOrder(s.clock, env) && env.freshId !in s.repo.jobs
    ensures var w := World(s.repo, s.log);
            Ends(s, ProcessEvents(w, p, id, worker, env), Process(w, id, worker, env).0, s.active)
  {
    StartKeepsInv(s, p, id, worker, env.claimAt);
    var started := StartStep(s, p, id, worker, env.claimAt);
    var w := Process(World(s.repo, s.log), id, worker, env).0;
    match Claim(s.repo, id, worker, env.claimAt).1
    case None =>
      Over(started, w, s.active);
      Then(s, Starts(p, id, worker, env.claimAt), [], w, s.active);
    case Some(job) =>
      StartedState(s, p, id, worker, env.claimAt);
      match env.outcome {
        case Returned(result) =>
          FinishIsRun(started, p, job, result, env);
          var rest := [Succeeds(p, result, env.succeedAt)] + FinishEvents(started.repo, p, job, result, env);
          Then(s, Starts(p, id, worker, env.claimAt), rest, w, s.active);
        case Raising(message) =>
          RaiseIsRun(started, p, job, message, env.failAt);
          var rest := [Raises(p, message)] + FailEvents(started.repo, p, job, HandlerFailed(message), env.failAt);
          Then(s, Starts(p, id, worker, env.claimAt), rest, w, s.active);
      }
  }

  // ----- the calls of clients -----

  /** A submission the service accepts, a cancellation and a change of the drain flag are single events: each does to
      the repository and the log what the call does, and leaves the calls under way alone. */
  lemma ClientCallsAreEvents(s: Sys, e: Event, maxPayloadBytes: nat)
    requires Enabled(s, e)
    ensures match e
            case Submits(request, id, now) =>
              && Apply(s, e).active == s.active
              && (|request.payload| <= maxPayloadBytes ==>
                    Submit(World(s.repo, s.log), maxPayloadBytes, request, id, now).0 ==
                    World(Apply(s, e).repo, Apply(s, e).log))
            case Cancels(id, now) => Apply(s, e) == Sys(Cancel(s.repo, id, now).0, s.log, s.active, now)
            case Drains(enabled) => Apply(s, e) == Sys(s.repo.(drain := enabled), s.log, s.active, s.clock)
            case _ => true
  {
  }
}
