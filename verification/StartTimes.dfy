// When, and how often, the attempts of a job start in the locked repository, whatever is delivered.
module StartTimes {
  import opened Core
  import opened Jobs
  import opened MemoryRepository
  import opened Lifecycle

  /** The event starts an attempt of the job. */
  predicate StartsAttempt(s: Sys, e: Event, id: JobId) {
    e.Starts? && e.job == id && Claim(s.repo, id, e.worker, e.now).1.Some?
  }

  function EventStarts(s: Sys, e: Event, id: JobId): seq<Time> {
    if StartsAttempt(s, e, id) then [NowOf(s, e)] else []
  }

  /** The moments at which a run starts attempts of the job. */
  ghost function StartsOf(s: Sys, events: seq<Event>, id: JobId): seq<Time>
    requires Admissible(s, events)
    decreases |events|
  {
    if events == [] then []
    else EventStarts(s, events[0], id) + StartsOf(Apply(s, events[0]), events[1..], id)
  }

  /** Each start comes at least the retry delay after the one before. */
  ghost predicate Apart(starts: seq<Time>) {
    forall i :: 0 < i < |starts| ==> starts[i - 1] + Backoff(i) <= starts[i]
  }

  /** The first start, or the first moment a start is possible, is not before `run_at`. */
  predicate NotBeforeRunAt(job: JobRecord, starts: seq<Time>) {
    job.runAt.Some? ==> job.runAt.value <= (if starts == [] then job.nextRunAt else starts[0])
  }

  /** The starts so far are counted in `attempt_count`, and a pending job waits out the delay after the last. */
  ghost predicate History(s: Sys, starts: seq<Time>, id: JobId) {
    && Apart(starts)
    && |starts| == (if id in s.repo.jobs then s.repo.jobs[id].attemptCount else 0)
    && (id in s.repo.jobs ==> NotBeforeRunAt(s.repo.jobs[id], starts))
    && (starts != [] ==>
          && starts[|starts| - 1] <= s.clock
          && (id in s.repo.jobs && IsPending(s.repo.jobs[id].status) ==>
              starts[|starts| - 1] + Backoff(|starts|) <= s.repo.jobs[id].nextRunAt))
  }

  lemma ClockAdvances(s: Sys, e: Event)
    requires Enabled(s, e)
    ensures s.clock <= Apply(s, e).clock == NowOf(s, e)
  {
  }

  /** A job that appears has not been started. */
  lemma NewJobUnstarted(s: Sys, e: Event, id: JobId)
    requires Enabled(s, e) && id !in s.repo.jobs && id in Apply(s, e).repo.jobs
    ensures Apply(s, e).repo.jobs[id].attemptCount == 0 && NotBeforeRunAt(Apply(s, e).repo.jobs[id], [])
  {
  }

  lemma StartRecorded(s: Sys, e: Event, starts: seq<Time>, id: JobId)
    requires Enabled(s, e) && History(s, starts, id) && StartsAttempt(s, e, id)
    ensures History(Apply(s, e), starts + [NowOf(s, e)], id)
  {
    assert IsDue(s.repo.jobs[id], e.now);
    var after := StartStep(s, e.p, id, e.worker, e.now);
    assert after.repo.jobs[id] == Claimed(s.repo.jobs[id], e.worker, e.now);
  }

  lemma FailureDelays(s: Sys, e: Event, id: JobId)
    requires Inv(s) && Enabled(s, e) && e.Fails? && s.active[e.p].job == id
    ensures id in s.repo.jobs && id in Apply(s, e).repo.jobs
    ensures Apply(s, e).repo.jobs[id].attemptCount == s.repo.jobs[id].attemptCount
    ensures Apply(s, e).repo.jobs[id].nextRunAt == e.now + Backoff(s.repo.jobs[id].attemptCount)
  {
    assert ActivityOk(s, s.active[e.p]);
  }

  lemma SettledNotPending(s: Sys, e: Event, id: JobId)
    requires Enabled(s, e) && id in s.repo.jobs
    requires || (e.Succeeds? && s.active[e.p].job == id)
             || (e.Cancels? && e.job == id && IsPending(s.repo.jobs[id].status))
    ensures id in Apply(s, e).repo.jobs && !IsPending(Apply(s, e).repo.jobs[id].status)
    ensures Apply(s, e).repo.jobs[id].attemptCount == s.repo.jobs[id].attemptCount
  {
  }

  lemma OtherKeepsHistory(s: Sys, e: Event, starts: seq<Time>, id: JobId)
    requires Inv(s) && Enabled(s, e) && History(s, starts, id) && !StartsAttempt(s, e, id)
    ensures History(Apply(s, e), starts, id)
  {
    ClockAdvances(s, e);
    if id !in s.repo.jobs {
      if id in Apply(s, e).repo.jobs {
        NewJobUnstarted(s, e, id);
      }
    } else {
      RecordAfter(s, e, id);
      if e.Fails? && s.active[e.p].job == id {
        FailureDelays(s, e, id);
      } else if Changes(s, e, id) && !e.Starts? {
        SettledNotPending(s, e, id);
      }
    }
  }

  lemma EventKeepsHistory(s: Sys, e: Event, starts: seq<Time>, id: JobId)
    requires Inv(s) && Enabled(s, e) && History(s, starts, id)
    ensures History(Apply(s, e), starts + EventStarts(s, e, id), id)
  {
    if StartsAttempt(s, e, id) {
      StartRecorded(s, e, starts, id);
    } else {
      OtherKeepsHistory(s, e, starts, id);
      assert starts + [] == starts;
    }
  }

  lemma Regroup(a: seq<Time>, b: seq<Time>, c: seq<Time>)
    ensures a + b + c == a + (b + c)
  {
  }

  lemma {:induction false} RunKeepsHistory(s: Sys, past: seq<Time>, events: seq<Event>, id: JobId)
    requires Inv(s) && Admissible(s, events) && History(s, past, id)
    ensures Inv(Run(s, events)) && History(Run(s, events), past + StartsOf(s, events, id), id)
    decreases |events|
  {
    if events == [] {
      assert past + [] == past;
    } else {
      var e, after := events[0], Apply(s, events[0]);
      EventKeepsInv(s, e);
      EventKeepsHistory(s, e, past, id);
      RunKeepsHistory(after, past + EventStarts(s, e, id), events[1..], id);
      Regroup(past, EventStarts(s, e, id), StartsOf(after, events[1..], id));
    }
  }

  lemma ReachableHistory(events: seq<Event>, id: JobId)
    requires Admissible(START, events)
    ensures Inv(Run(START, events)) && History(Run(START, events), StartsOf(START, events, id), id)
  {
    StartInv();
    RunKeepsHistory(START, [], events, id);
    Regroup([], [], StartsOf(START, events, id));
    assert [] + StartsOf(START, events, id) == StartsOf(START, events, id);
  }

  lemma {:induction false} ApartAddsUp(starts: seq<Time>, n: nat)
    requires Apart(starts) && 1 <= n <= |starts|
    ensures starts[0] + BackoffBefore(n) * 1_000_000 <= starts[n - 1]
  {
    if n == 1 {
    } else {
      ApartAddsUp(starts, n - 1);
      assert starts[n - 1 - 1] + Backoff(n - 1) <= starts[n - 1];
    }
  }

  lemma HistorySpaced(s: Sys, starts: seq<Time>, id: JobId, n: nat)
    requires Inv(s) && History(s, starts, id) && 1 <= n <= |starts|
    ensures id in s.repo.jobs && |starts| == s.repo.jobs[id].attemptCount <= s.repo.jobs[id].maxRetries + 1
    ensures s.repo.jobs[id].runAt.Some? ==> s.repo.jobs[id].runAt.value <= starts[0]
    ensures starts[0] + BackoffBefore(n) * 1_000_000 <= starts[n - 1]
  {
    ApartAddsUp(starts, n);
    assert id in s.repo.jobs ==> JobOk(s.repo.jobs[id], s.clock);
  }

  /** In every run, whatever messages come, an attempt is started once per count of `attempt_count`, at most
      `max_retries` + 1 times, none before `run_at`, and attempt n no earlier than 2^(n-1) - 1 seconds after the first
      for n <= 10 and 511 + 300 (n - 10) seconds for n > 10. */
  lemma StartsAreSpaced(events: seq<Event>, id: JobId, n: nat)
    requires Admissible(START, events) && 1 <= n <= |StartsOf(START, events, id)|
    ensures var s, starts := Run(START, events), StartsOf(START, events, id);
            && id in s.repo.jobs && |starts| == s.repo.jobs[id].attemptCount <= s.repo.jobs[id].maxRetries + 1
            && (s.repo.jobs[id].runAt.Some? ==> s.repo.jobs[id].runAt.value <= starts[0])
            && starts[0] + (if n <= 10 then Pow2(n - 1) - 1 else 511 + 300 * (n - 10)) * 1_000_000 <= starts[n - 1]
  {
    ReachableHistory(events, id);
    HistorySpaced(Run(START, events), StartsOf(START, events, id), id, n);
    BackoffBeforeClosedForm(n);
  }

  /** No attempt of a job starts before its `run_at`. */
  lemma StartsNotBeforeRunAt(events: seq<Event>, id: JobId, n: nat)
    requires Admissible(START, events) && n < |StartsOf(START, events, id)|
    ensures id in Run(START, events).repo.jobs
    ensures var runAt := Run(START, events).repo.jobs[id].runAt;
            runAt.Some? ==> runAt.value <= StartsOf(START, events, id)[n]
  {
    ReachableHistory(events, id);
    HistorySpaced(Run(START, events), StartsOf(START, events, id), id, n + 1);
  }

  // ----- no stranded work -----

  predicate CancelsJob(e: Event, id: JobId) {
    e.Cancels? && e.job == id
  }

  /** Some event of the run cancels the job. */
  ghost predicate IsCancelledIn(events: seq<Event>, id: JobId) {
    exists i :: 0 <= i < |events| && CancelsJob(events[i], id)
  }

  lemma PendingWaits(s: Sys, e: Event, id: JobId)
    requires Inv(s) && Enabled(s, e) && id in s.repo.jobs && IsPending(s.repo.jobs[id].status)
    requires !StartsAttempt(s, e, id) && !CancelsJob(e, id)
    ensures id in Apply(s, e).repo.jobs && Apply(s, e).repo.jobs[id] == s.repo.jobs[id]
  {
    RecordAfter(s, e, id);
    if e.Succeeds? || e.Fails? {
      assert ActivityOk(s, s.active[e.p]);
    }
    assert !Changes(s, e, id);
  }

  /** Due work is never stranded: whatever messages and publishes are lost and whoever crashes, a due pending job
      keeps its record until an attempt of it starts or it is cancelled, and until then, drain off, any delivery to
      an idle worker starts it. */
  lemma {:induction false} NoStrandedWork(s: Sys, events: seq<Event>, id: JobId, p: Proc, worker: string, now: Time)
    requires Inv(s) && Admissible(s, events) && id in s.repo.jobs && IsDue(s.repo.jobs[id], s.clock)
    requires StartsOf(s, events, id) == [] && !IsCancelledIn(events, id)
    ensures var last := Run(s, events);
            && id in last.repo.jobs && last.repo.jobs[id] == s.repo.jobs[id]
            && (!last.repo.drain && p !in last.active && last.clock <= now ==>
                  Enabled(last, Starts(p, id, worker, now)) && StartsAttempt(last, Starts(p, id, worker, now), id))
    decreases |events|
  {
    if events == [] {
    } else {
      assert !StartsAttempt(s, events[0], id) && !CancelsJob(events[0], id);
      PendingWaits(s, events[0], id);
      EventKeepsInv(s, events[0]);
      ClockAdvances(s, events[0]);
      assert !IsCancelledIn(events[1..], id) by {
        forall i | 0 <= i < |events[1..]| ensures !CancelsJob(events[1..][i], id) {
          assert !CancelsJob(events[i + 1], id);
        }
      }
      NoStrandedWork(Apply(s, events[0]), events[1..], id, p, worker, now);
    }
  }

  // ----- when a retry starts -----

  /** The `except` branch in the columns: the error kept, the lock released, and the retry due 1, 2, 4 seconds and so on
      after the failure, at most 300, or the job given up. */
  lemma FailureInColumns(s: Sys, p: Proc, now: Time)
    requires Inv(s) && Enabled(s, Fails(p, now))
    ensures var id, failure, repo := s.active[p].job, s.active[p].failure, Apply(s, Fails(p, now)).repo;
            && OnlyRewrites(s.repo, repo, id)
            && IsFailed(repo.jobs[id], s.repo.jobs[id], failure, RetryDelay(s.repo.jobs[id].attemptCount), now)
            && repo.jobs[id].processedAt == (if repo.jobs[id].status == DeadLettered then Some(now) else None)
  {
    assert ActivityOk(s, s.active[p]);
    BackoffIsRetryDelay(s.active[p].attempt);
  }

  /** With drain off, a delivery to an idle worker starts a job whose attempt n has failed, and which has retries left,
      if and only if the delay after attempt n is over by then. */
  lemma RetryStartsIff(s: Sys, p: Proc, failedAt: Time, q: Proc, worker: string, at: Time)
    requires Inv(s) && Enabled(s, Fails(p, failedAt)) && !s.repo.drain && failedAt <= at
    requires q == p || q !in s.active
    requires var id := s.active[p].job;
             id in s.repo.jobs && s.repo.jobs[id].attemptCount <= s.repo.jobs[id].maxRetries
    ensures var id, failed := s.active[p].job, Apply(s, Fails(p, failedAt));
            && Enabled(failed, Starts(q, id, worker, at))
            && (StartsAttempt(failed, Starts(q, id, worker, at), id) <==>
                  at >= failedAt + RetryDelay(s.repo.jobs[id].attemptCount))
  {
    FailureInColumns(s, p, failedAt);
    EventKeepsInv(s, Fails(p, failedAt));
  }
}
