// A job that recurs on 30 February: accepted by the validator, marked succeeded, then failed by the same call.
module LostSuccess {
  import opened Core
  import opened CronExamples
  import opened Jobs
  import opened MemoryRepository
  import opened Queue
  import opened Service
  import opened Lifecycle

  /** Submit, claim, succeed; then search for the next run and fail. */
  function FirstEvents(request: JobCreate, id: JobId, p: Proc, worker: string, result: Payload, now: Time): seq<Event> {
    [Submits(request, id, now), Starts(p, id, worker, now), Succeeds(p, result, now)]
  }

  function LastEvents(next: JobId, p: Proc, now: Time): seq<Event> {
    [Recurs(p, next, now), Fails(p, now)]
  }

  predicate RecursOnFebruary30(request: JobCreate) {
    request.handler in HANDLERS && request.recurringCron == Some(FEBRUARY_30) && request.runAt == None
  }

  lemma Submitted(request: JobCreate, id: JobId, now: Time) returns (s: Sys)
    requires RecursOnFebruary30(request)
    ensures Enabled(START, Submits(request, id, now)) && s == Apply(START, Submits(request, id, now)) && Inv(s)
    ensures id in s.repo.jobs && s.repo.jobs[id] == NewJob(request, id, now)
    ensures s.active == map[] && s.clock == now && !s.repo.drain && s.repo.jobs.Keys == {id}
  {
    StartInv();
    SubmitKeepsInv(START, request, id, now);
    s := SubmitStep(START, request, id, now);
  }

  lemma Started(before: Sys, id: JobId, p: Proc, worker: string) returns (s: Sys)
    requires Inv(before) && id in before.repo.jobs && p !in before.active && !before.repo.drain
    requires IsDue(before.repo.jobs[id], before.clock)
    ensures var e := Starts(p, id, worker, before.clock); Enabled(before, e) && s == Apply(before, e) && Inv(s)
    ensures p in s.active && s.active[p].Executing? && s.active[p].job == id
    ensures id in s.repo.jobs && s.repo.jobs[id].recurringCron == before.repo.jobs[id].recurringCron
    ensures s.clock == before.clock && s.repo.jobs.Keys == before.repo.jobs.Keys
  {
    StartKeepsInv(before, p, id, worker, before.clock);
    s := StartStep(before, p, id, worker, before.clock);
  }

  lemma Marked(before: Sys, id: JobId, p: Proc, result: Payload) returns (s: Sys)
    requires Inv(before) && id in before.repo.jobs
    requires p in before.active && before.active[p].Executing? && before.active[p].job == id
    ensures var e := Succeeds(p, result, before.clock); Enabled(before, e) && s == Apply(before, e)
    ensures p in s.active && s.active[p].Recurring? && s.active[p].job == id
    ensures id in s.repo.jobs && s.repo.jobs[id].recurringCron == before.repo.jobs[id].recurringCron
    ensures s.repo.jobs[id].status == Succeeded && s.clock == before.clock && s.repo.jobs.Keys == before.repo.jobs.Keys
  {
    s := SucceedStep(before, p, result, before.clock);
  }

  lemma One(s: Sys, e: Event)
    requires Enabled(s, e)
    ensures Admissible(s, [e]) && Run(s, [e]) == Apply(s, e)
  {
    var after := Apply(s, e);
    assert Admissible(after, [e][1..]) && Run(after, [e][1..]) == after;
  }

  lemma Two(s: Sys, e: Event, f: Event)
    requires Enabled(s, e) && Enabled(Apply(s, e), f)
    ensures Admissible(s, [e, f]) && Run(s, [e, f]) == Apply(Apply(s, e), f)
  {
    One(s, e);
    One(Apply(s, e), f);
    AppendRuns(s, [e], [f]);
    assert [e] + [f] == [e, f];
  }

  lemma Three(s: Sys, e: Event, f: Event, g: Event)
    requires Enabled(s, e) && Enabled(Apply(s, e), f) && Enabled(Apply(Apply(s, e), f), g)
    ensures Admissible(s, [e, f, g]) && Run(s, [e, f, g]) == Apply(Apply(Apply(s, e), f), g)
  {
    Two(s, e, f);
    One(Apply(Apply(s, e), f), g);
    AppendRuns(s, [e, f], [g]);
    assert [e, f] + [g] == [e, f, g];
  }

  /** The first three events lead to a job marked succeeded whose next run is still to be searched for. */
  lemma FirstRun(request: JobCreate, id: JobId, p: Proc, worker: string, result: Payload, now: Time) returns (s: Sys)
    requires RecursOnFebruary30(request)
    ensures Admissible(START, FirstEvents(request, id, p, worker, result, now))
    ensures s == Run(START, FirstEvents(request, id, p, worker, result, now)) && s.clock == now
    ensures id in s.repo.jobs && s.repo.jobs[id].status == Succeeded
    ensures s.repo.jobs[id].recurringCron == Some(FEBRUARY_30)
    ensures p in s.active && s.active[p].Recurring? && s.active[p].job == id && s.repo.jobs.Keys == {id}
  {
    var submitted := Submitted(request, id, now);
    var started := Started(submitted, id, p, worker);
    s := Marked(started, id, p, result);
    Three(START, Submits(request, id, now), Starts(p, id, worker, now), Succeeds(p, result, now));
  }

  lemma LastRun(s: Sys, id: JobId, next: JobId, p: Proc)
    requires Inv(s) && p in s.active && s.active[p].Recurring? && s.active[p].job == id
    requires id in s.repo.jobs && s.repo.jobs[id].recurringCron == Some(FEBRUARY_30) && next !in s.repo.jobs
    ensures Admissible(s, LastEvents(next, p, s.clock))
    ensures var lost := Run(s, LastEvents(next, p, s.clock)).repo.jobs;
            id in lost && (lost[id].status == Failed || lost[id].status == DeadLettered)
  {
    FebruaryThirtyNeverRuns(s.clock);
    SucceededIsLost(s, p, next, s.clock, s.clock);
    Two(s, Recurs(p, next, s.clock), Fails(p, s.clock));
  }

  /** Runs in which SUCCEEDED is left: whatever else the request says, its job is marked succeeded and then, by the
      same call, failed or dead-lettered. */
  lemma SuccessIsLost(request: JobCreate, id: JobId, next: JobId, p: Proc, worker: string, result: Payload, now: Time)
    requires RecursOnFebruary30(request) && next != id
    ensures var (first, last) := (FirstEvents(request, id, p, worker, result, now), LastEvents(next, p, now));
            && Admissible(START, first) && Admissible(START, first + last)
            && var (marked, lost) := (Run(START, first).repo.jobs, Run(START, first + last).repo.jobs);
               && id in marked && marked[id].status == Succeeded
               && id in lost && (lost[id].status == Failed || lost[id].status == DeadLettered)
  {
    var marked := FirstRun(request, id, p, worker, result, now);
    StartInv();
    RunKeepsInv(START, FirstEvents(request, id, p, worker, result, now));
    LastRun(marked, id, next, p);
    AppendRuns(START, FirstEvents(request, id, p, worker, result, now), LastEvents(next, p, now));
  }
}
