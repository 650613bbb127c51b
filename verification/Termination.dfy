// Runs without new work make finitely many effective transitions, and due work drains in batches.
module Termination {
  import opened Core
  import opened Jobs
  import opened MemoryRepository
  import opened Queue
  import opened Service
  import opened Lifecycle
  import opened Totals

  // ----- a bound on effective transitions -----

  /** How many more changes a job's record can still go through. */
  function Rank(job: JobRecord): nat {
    var left := if job.attemptCount <= job.maxRetries then job.maxRetries + 1 - job.attemptCount else 0;
    if IsPending(job.status) then 2 * left + 1
    else if job.status == Running then 2 * left + 2
    else 0
  }

  function TotalRank(r: Repo): nat
    requires forall id :: id in r.order ==> id in r.jobs
  {
    Total(Records(r), Rank)
  }

  ghost predicate NoRecurrence(r: Repo) {
    forall id :: id in r.jobs ==> r.jobs[id].recurringCron == None
  }

  /** Does the event add a job? A submission with a known key does not. */
  predicate AddsJob(s: Sys, e: Event) {
    e.Submits? && !(e.request.idempotencyKey.Some? && e.request.idempotencyKey.value in s.repo.index)
  }

  predicate Effective(s: Sys, after: Sys) {
    after.repo.jobs != s.repo.jobs
  }

  lemma PutRank(r: Repo, id: JobId, job: JobRecord)
    requires Listed(r) && id in r.jobs
    ensures TotalRank(Put(r, id, job)) + Rank(r.jobs[id]) == TotalRank(r) + Rank(job)
  {
    var i :| 0 <= i < |r.order| && r.order[i] == id;
    assert Records(Put(r, id, job)) == Records(r)[i := job];
    TotalOfUpdate(Records(r), i, job, Rank);
  }

  /** The one record an event replaces, and that its rank goes down. */
  ghost predicate OneDown(s: Sys, after: Sys, id: JobId, job: JobRecord) {
    && id in s.repo.jobs && after.repo == Put(s.repo, id, job)
    && Rank(job) < Rank(s.repo.jobs[id])
  }

  /** The job table stays, or one record goes down. */
  ghost predicate Descends(s: Sys, after: Sys) {
    || (after.repo.jobs == s.repo.jobs && after.repo.order == s.repo.order)
    || (exists id, job :: OneDown(s, after, id, job) && job.recurringCron == None)
  }

  lemma StartDescends(s: Sys, p: Proc, id: JobId, worker: string, now: Time)
    requires JobsOk(s) && NoRecurrence(s.repo)
    ensures Descends(s, StartStep(s, p, id, worker, now))
  {
    var claimed := Claim(s.repo, id, worker, now).1;
    if claimed.Some? {
      assert RetryShape(s.repo.jobs[id]);
      assert OneDown(s, StartStep(s, p, id, worker, now), id, claimed.value);
    }
  }

  lemma SuccessDescends(s: Sys, p: Proc, result: Payload, now: Time)
    requires ActivitiesOk(s) && NoRecurrence(s.repo) && p in s.active && s.active[p].Executing?
    ensures Descends(s, SucceedStep(s, p, result, now))
  {
    assert ActivityOk(s, s.active[p]);
    var id := s.active[p].job;
    assert OneDown(s, SucceedStep(s, p, result, now), id, MarkedSucceeded(s.repo.jobs[id], result, now));
  }

  lemma FailureDescends(s: Sys, p: Proc, now: Time)
    requires ActivitiesOk(s) && JobsOk(s) && NoRecurrence(s.repo) && p in s.active && s.active[p].Failing?
    requires s.active[p].job in s.repo.jobs && s.repo.jobs[s.active[p].job].status == Running
    ensures Descends(s, FailStep(s, p, now))
  {
    assert ActivityOk(s, s.active[p]);
    var Failing(id, attempt, failure) := s.active[p];
    assert RetryShape(s.repo.jobs[id]);
    assert OneDown(s, FailStep(s, p, now), id, MarkedFailed(s.repo.jobs[id], failure, Backoff(attempt), now));
  }

  lemma CancelDescends(s: Sys, after: Sys, id: JobId, now: Time)
    requires NoRecurrence(s.repo) && after.repo == Cancel(s.repo, id, now).0
    ensures Descends(s, after)
  {
    var cancelled := Cancel(s.repo, id, now).1;
    if cancelled.Ok? {
      assert OneDown(s, after, id, cancelled.value);
    }
  }

  lemma FailDescends(s: Sys, p: Proc, now: Time)
    requires Inv(s) && NoRecurrence(s.repo) && p in s.active && s.active[p].Failing?
    ensures Descends(s, FailStep(s, p, now))
  {
    assert ActivityOk(s, s.active[p]);
    FailureDescends(s, p, now);
  }

  lemma RecurDescends(s: Sys, p: Proc, id: JobId, now: Time)
    requires Enabled(s, Recurs(p, id, now)) && NoRecurrence(s.repo)
    ensures Descends(s, RecurStep(s, p, id, now))
  {
  }

  lemma SubmitDescends(s: Sys, request: JobCreate, id: JobId, now: Time)
    requires Enabled(s, Submits(request, id, now)) && !AddsJob(s, Submits(request, id, now))
    ensures Descends(s, SubmitStep(s, request, id, now))
  {
  }

  lemma EventDescends(s: Sys, e: Event)
    requires Inv(s) && NoRecurrence(s.repo) && Enabled(s, e) && !AddsJob(s, e)
    ensures Descends(s, Apply(s, e))
  {
    match e
    case Submits(request, id, now) => SubmitDescends(s, request, id, now);
    case Starts(p, id, worker, now) => StartDescends(s, p, id, worker, now);
    case Succeeds(p, result, now) => SuccessDescends(s, p, result, now);
    case Recurs(p, id, now) => RecurDescends(s, p, id, now);
    case Fails(p, now) => FailDescends(s, p, now);
    case Cancels(id, now) => CancelDescends(s, Apply(s, e), id, now);
    case _ =>
  }

  ghost function EffectiveEvents(s: Sys, events: seq<Event>): nat
    requires Admissible(s, events)
    decreases |events|
  {
    if events == [] then 0
    else (if Effective(s, Apply(s, events[0])) then 1 else 0) + EffectiveEvents(Apply(s, events[0]), events[1..])
  }

  /** No event of the run adds a job. */
  ghost predicate NoNewJobs(s: Sys, events: seq<Event>)
    requires Admissible(s, events)
    decreases |events|
  {
    events == [] || (!AddsJob(s, events[0]) && NoNewJobs(Apply(s, events[0]), events[1..]))
  }

  lemma DescentPays(s: Sys, after: Sys)
    requires Listed(s.repo) && Listed(after.repo) && NoRecurrence(s.repo) && Descends(s, after)
    ensures NoRecurrence(after.repo)
    ensures TotalRank(after.repo) + (if Effective(s, after) then 1 else 0) <= TotalRank(s.repo)
  {
    if after.repo.jobs == s.repo.jobs && after.repo.order == s.repo.order {
      assert Records(after.repo) == Records(s.repo);
    } else {
      var id, job :| OneDown(s, after, id, job) && job.recurringCron == None;
      PutRank(s.repo, id, job);
    }
  }

  lemma EventPays(s: Sys, e: Event)
    requires Inv(s) && NoRecurrence(s.repo) && Enabled(s, e) && !AddsJob(s, e)
    ensures Inv(Apply(s, e)) && NoRecurrence(Apply(s, e).repo)
    ensures TotalRank(Apply(s, e).repo) + (if Effective(s, Apply(s, e)) then 1 else 0) <= TotalRank(s.repo)
  {
    EventDescends(s, e);
    EventKeepsInv(s, e);
    DescentPays(s, Apply(s, e));
  }

  /** Without new submissions or recurrence, the job table changes at most 2 (max_retries + 1 - attempt_count) + 1
      times per pending job and once more per running one, however long the run. */
  lemma {:induction false} FinitelyManyTransitions(s: Sys, events: seq<Event>)
    requires Inv(s) && NoRecurrence(s.repo) && Admissible(s, events) && NoNewJobs(s, events)
    ensures EffectiveEvents(s, events) <= TotalRank(s.repo)
    decreases |events|
  {
    if events == [] {
    } else {
      EventPays(s, events[0]);
      FinitelyManyTransitions(Apply(s, events[0]), events[1..]);
    }
  }
}
