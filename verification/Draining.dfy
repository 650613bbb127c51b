// Republishing due work and processing it: what is published, and how fast the queue empties
// (app/jobs/service.py:73-77, app/jobs/repositories.py:424-432).
module Draining {
  import opened Core
  import opened Jobs
  import opened Ordering
  import opened MemoryRepository
  import opened Queue
  import opened Service

  // ----- what one publishing pass sends -----

  /** `publish_due_jobs` changes no job and, with the producer up, sends one event for each of the first `limit`
      due jobs, in due order; a due job with fewer than `limit` before it is among them. */
  lemma PublishesFirstDue(w: World, limit: nat, now: Time, id: JobId)
    requires WellFormed(w.repo) && w.log.available
    ensures var sent := PublishAll(w.log, Due(w.repo, limit, now)).0;
            && sent.published == w.log.published + Events(Due(w.repo, limit, now))
            && Due(w.repo, limit, now) == Take(DueOrder(w.repo, now), limit)
    ensures var order, sent := DueOrder(w.repo, now), PublishAll(w.log, Due(w.repo, limit, now)).0;
            id in DueIds(w.repo, now) ==>
              exists k :: && 0 <= k < |order| && order[k] == w.repo.jobs[id]
                          && (k < limit ==> EventOf(w.repo.jobs[id]) in sent.published)
    ensures var due, sent := Due(w.repo, limit, now), PublishAll(w.log, Due(w.repo, limit, now)).0;
            FirstDue(w.repo, due, limit, now) && AllAnnounced(w.log.published, sent.published, due)
  {
    PublishAllSends(w.log, Due(w.repo, limit, now));
    DueIsFirstDue(w.repo, limit, now);
    EventsAnnounce(w.log.published, Due(w.repo, limit, now));
    DueOrderIsExact(w.repo, now);
    if id in DueIds(w.repo, now) {
      var ordered, due := DueOrder(w.repo, now), Due(w.repo, limit, now);
      assert id in Ids(ordered);
      var k :| 0 <= k < |ordered| && Ids(ordered)[k] == id;
      assert ordered[k] in ordered;
      if k < limit {
        assert due[k] == ordered[k];
        assert Events(due)[k] in w.log.published + Events(due);
      }
    }
  }

  // ----- draining -----

  ghost function PendingIds(r: Repo): set<JobId> {
    set id | id in r.jobs && IsPending(r.jobs[id].status)
  }

  /** The messages of one pass, in any order and with any repetition, and the surroundings of each attempt. */
  datatype Pass = Pass(now: Time, ids: seq<JobId>, surroundings: seq<Surroundings>)

  function ProcessAll(w: World, ids: seq<JobId>, worker: string, s: seq<Surroundings>): World
    requires |ids| == |s|
    decreases |ids|
  {
    if ids == [] then w else ProcessAll(Process(w, ids[0], worker, s[0]).0, ids[1..], worker, s[1..])
  }

  function RunPass(w: World, limit: nat, worker: string, pass: Pass): World
    requires |pass.ids| == |pass.surroundings|
    requires forall id :: id in w.repo.order ==> id in w.repo.jobs
  {
    ProcessAll(World(w.repo, PublishAll(w.log, Due(w.repo, limit, pass.now)).0), pass.ids, worker, pass.surroundings)
  }

  /** Drain is off, nothing recurs, every handler is known and everything pending is due. */
  ghost predicate Ready(w: World, now: Time) {
    && WellFormed(w.repo) && !w.repo.drain && w.log.available
    && (forall id :: id in w.repo.jobs ==> w.repo.jobs[id].recurringCron == None && w.repo.jobs[id].handler in HANDLERS)
    && (forall id :: id in w.repo.jobs && IsPending(w.repo.jobs[id].status) ==> w.repo.jobs[id].nextRunAt <= now)
  }

  /** Every attempt returns and no clock reading is before `now`. */
  ghost predicate AllSucceed(s: seq<Surroundings>, now: Time) {
    forall i :: 0 <= i < |s| ==> s[i].outcome.Returned? && now <= s[i].claimAt
  }

  /** What a successful attempt leaves of a pending job that does not recur. */
  lemma ProcessedRepo(w: World, id: JobId, worker: string, s: Surroundings, now: Time)
    requires Ready(w, now) && s.outcome.Returned? && now <= s.claimAt
    requires id in w.repo.jobs && IsPending(w.repo.jobs[id].status)
    ensures var done := MarkedSucceeded(Claimed(w.repo.jobs[id], worker, s.claimAt), s.outcome.result, s.succeedAt);
            Process(w, id, worker, s).0 == World(Put(w.repo, id, done), w.log)
  {
    var claimed := Claimed(w.repo.jobs[id], worker, s.claimAt);
    assert Claim(w.repo, id, worker, s.claimAt) == (Put(w.repo, id, claimed), Some(claimed));
    var done := MarkedSucceeded(claimed, s.outcome.result, s.succeedAt);
    assert Put(Put(w.repo, id, claimed), id, done) == Put(w.repo, id, done);
  }

  /** Settling one job leaves the others as ready as they were. */
  lemma SettledReady(w: World, id: JobId, job: JobRecord, now: Time)
    requires Ready(w, now) && id in w.repo.jobs && job.status == Succeeded
    requires job.id == id && job.idempotencyKey == w.repo.jobs[id].idempotencyKey
    requires job.recurringCron == None && job.handler == w.repo.jobs[id].handler
    ensures Ready(World(Put(w.repo, id, job), w.log), now)
    ensures PendingIds(Put(w.repo, id, job)) == PendingIds(w.repo) - {id}
  {
    PutKeepsWellFormed(w.repo, id);
  }

  lemma ProcessSettles(w: World, id: JobId, worker: string, s: Surroundings, now: Time)
    requires Ready(w, now) && s.outcome.Returned? && now <= s.claimAt
    ensures var after := Process(w, id, worker, s).0;
            Ready(after, now) && PendingIds(after.repo) == PendingIds(w.repo) - {id} && after.log == w.log
  {
    if id in w.repo.jobs && IsPending(w.repo.jobs[id].status) {
      ProcessedRepo(w, id, worker, s, now);
      var claimed := Claimed(w.repo.jobs[id], worker, s.claimAt);
      SettledReady(w, id, MarkedSucceeded(claimed, s.outcome.result, s.succeedAt), now);
    } else {
      assert Process(w, id, worker, s).0 == w;
    }
  }

  lemma {:induction false} BatchSettles(w: World, ids: seq<JobId>, worker: string, s: seq<Surroundings>, now: Time)
    requires |ids| == |s| && Ready(w, now) && AllSucceed(s, now)
    ensures var after := ProcessAll(w, ids, worker, s);
            Ready(after, now) && PendingIds(after.repo) == PendingIds(w.repo) - Elements(ids)
    decreases |ids|
  {
    if ids == [] {
    } else {
      assert s[0].outcome.Returned? && now <= s[0].claimAt;
      ProcessSettles(w, ids[0], worker, s[0], now);
      BatchSettles(Process(w, ids[0], worker, s[0]).0, ids[1..], worker, s[1..], now);
      assert Elements(ids) == {ids[0]} + Elements(ids[1..]);
    }
  }

  lemma {:induction false} DistinctCount<T(!new)>(xs: seq<T>)
    requires Distinct(xs)
    ensures |Elements(xs)| == |xs|
  {
    if xs == [] {
    } else {
      DistinctCount(xs[1..]);
      assert Elements(xs) == {xs[0]} + Elements(xs[1..]);
    }
  }

  /** What was published is delivered, in any order and possibly more than once. */
  ghost predicate DeliversPublished(w: World, limit: nat, pass: Pass, now: Time)
    requires forall id :: id in w.repo.order ==> id in w.repo.jobs
  {
    && |pass.ids| == |pass.surroundings| && AllSucceed(pass.surroundings, now) && now <= pass.now
    && Elements(pass.ids) == Elements(Ids(Due(w.repo, limit, pass.now)))
  }

  /** Jobs left of `n` after `k` batches of `limit`. */
  function Left(n: nat, k: nat, limit: nat): nat {
    if n <= k * limit then 0 else n - k * limit
  }

  lemma PassSettles(w: World, limit: nat, worker: string, pass: Pass, now: Time)
    requires Ready(w, now) && DeliversPublished(w, limit, pass, now)
    ensures var after := RunPass(w, limit, worker, pass);
            && Ready(after, now)
            && |PendingIds(after.repo)| == Left(|PendingIds(w.repo)|, 1, limit)
  {
    var due, ordered := Due(w.repo, limit, pass.now), DueOrder(w.repo, pass.now);
    DueOrderIsExact(w.repo, pass.now);
    assert DueIds(w.repo, pass.now) == PendingIds(w.repo);
    DistinctCount(Ids(ordered));
    assert Ids(due) == Take(Ids(ordered), limit);
    DistinctCount(Ids(due));
    PublishAllSends(w.log, due);
    var published := World(w.repo, PublishAll(w.log, due).0);
    assert Ready(published, now);
    BatchSettles(published, pass.ids, worker, pass.surroundings, now);
    assert Elements(Ids(due)) <= PendingIds(w.repo);
  }

  ghost predicate PassFollows(w: World, after: World, limit: nat, worker: string, pass: Pass, now: Time) {
    && Listed(w.repo) && DeliversPublished(w, limit, pass, now)
    && after == RunPass(w, limit, worker, pass)
  }

  /** The worlds before, between and after the passes; each pass delivers what it published. */
  ghost predicate PassChain(worlds: seq<World>, limit: nat, worker: string, passes: seq<Pass>, now: Time) {
    && |worlds| == |passes| + 1
    && forall i :: 0 <= i < |passes| ==> PassFollows(worlds[i], worlds[i + 1], limit, worker, passes[i], now)
  }

  lemma LeftStep(n: nat, k: nat, limit: nat)
    ensures Left(n, k + 1, limit) == Left(Left(n, k, limit), 1, limit)
  {
    assert (k + 1) * limit == k * limit + limit;
  }

  lemma FollowingPassSettles(w: World, after: World, limit: nat, worker: string, pass: Pass, now: Time)
    requires Ready(w, now) && PassFollows(w, after, limit, worker, pass, now)
    ensures Ready(after, now) && |PendingIds(after.repo)| == Left(|PendingIds(w.repo)|, 1, limit)
  {
    PassSettles(w, limit, worker, pass, now);
  }

  lemma PassSettlesAt(worlds: seq<World>, limit: nat, worker: string, passes: seq<Pass>, now: Time, i: nat)
    requires PassChain(worlds, limit, worker, passes, now) && i < |passes| && Ready(worlds[i], now)
    ensures Ready(worlds[i + 1], now)
    ensures |PendingIds(worlds[i + 1].repo)| == Left(|PendingIds(worlds[i].repo)|, 1, limit)
  {
    FollowingPassSettles(worlds[i], worlds[i + 1], limit, worker, passes[i], now);
  }

  /** With everything pending due, drain off and every attempt succeeding, each pass of publishing up to `limit`
      jobs and processing what was published settles exactly that many: k passes leave n - k * limit jobs. */
  lemma {:induction false} DrainsInBatches(worlds: seq<World>, limit: nat, worker: string, passes: seq<Pass>, now: Time,
        k: nat)
    requires PassChain(worlds, limit, worker, passes, now) && Ready(worlds[0], now) && k <= |passes|
    ensures Ready(worlds[k], now)
    ensures |PendingIds(worlds[k].repo)| == Left(|PendingIds(worlds[0].repo)|, k, limit)
  {
    if k == 0 {
    } else {
      DrainsInBatches(worlds, limit, worker, passes, now, k - 1);
      PassSettlesAt(worlds, limit, worker, passes, now, k - 1);
      LeftStep(|PendingIds(worlds[0].repo)|, k - 1, limit);
    }
  }

  lemma Multiples(a: nat, b: nat, limit: nat)
    requires a <= b
    ensures a * limit <= b * limit
  {
  }

  lemma LeftIsZero(n: nat, k: nat, limit: nat)
    requires limit >= 1
    ensures Left(n, k, limit) == 0 <==> (n + limit - 1) / limit <= k
  {
    var batches := (n + limit - 1) / limit;
    assert n + limit - 1 == limit * batches + (n + limit - 1) % limit;
    if batches <= k {
      Multiples(batches, k, limit);
    } else {
      Multiples(k + 1, batches, limit);
    }
  }

  /** The queue is empty after pass k if and only if k is at least ceil(n / limit). */
  lemma EmptyAfterBatches(worlds: seq<World>, limit: nat, worker: string, passes: seq<Pass>, now: Time, k: nat)
    requires PassChain(worlds, limit, worker, passes, now) && Ready(worlds[0], now) && k <= |passes| && limit >= 1
    ensures PendingIds(worlds[k].repo) == {} <==> (|PendingIds(worlds[0].repo)| + limit - 1) / limit <= k
  {
    DrainsInBatches(worlds, limit, worker, passes, now, k);
    LeftIsZero(|PendingIds(worlds[0].repo)|, k, limit);
    assert PendingIds(worlds[k].repo) == {} <==> |PendingIds(worlds[k].repo)| == 0;
  }
}
