// The locked, in-memory repository (app/jobs/repositories.py:368-555).
module MemoryRepository {
  import opened Core
  import opened Jobs
  import opened Ordering
  import CronSearch

  /** The value of the repository: the `jobs` dict with its insertion order, the idempotency index, the drain flag. */
  datatype Repo = Repo(jobs: map<JobId, JobRecord>, order: seq<JobId>, index: map<string, JobId>, drain: bool)

  const EMPTY := Repo(map[], [], map[], false)

  ghost predicate Distinct<T>(xs: seq<T>) {
    forall i, j :: 0 <= i < j < |xs| ==> xs[i] != xs[j]
  }

  /** `order` lists the keys of the dict once each. */
  ghost predicate Listed(r: Repo) {
    && Distinct(r.order)
    && (forall id :: id in r.order <==> id in r.jobs)
  }

  /** The index is exactly the inverse of the jobs' keys. */
  ghost predicate IndexInverts(r: Repo) {
    forall key, id :: (key in r.index && r.index[key] == id) <==>
        (id in r.jobs && r.jobs[id].idempotencyKey == Some(key))
  }

  ghost predicate WellFormed(r: Repo) {
    && Listed(r)
    && (forall id :: id in r.jobs ==> r.jobs[id].id == id)
    && IndexInverts(r)
  }

  /** The dict's values in insertion order. */
  function Records(r: Repo): (records: seq<JobRecord>)
    requires forall id :: id in r.order ==> id in r.jobs
    ensures |records| == |r.order|
    ensures forall i :: 0 <= i < |records| ==> records[i] == r.jobs[r.order[i]]
  {
    seq(|r.order|, i requires 0 <= i < |r.order| => r.jobs[r.order[i]])
  }

  function Put(r: Repo, id: JobId, job: JobRecord): Repo {
    r.(jobs := r.jobs[id := job], order := if id in r.jobs then r.order else r.order + [id])
  }

  function Create(r: Repo, request: JobCreate, id: JobId, now: Time): (Repo, JobRecord, bool)
    requires IndexInverts(r)
  {
    if request.idempotencyKey.Some? && request.idempotencyKey.value in r.index then
      (r, r.jobs[r.index[request.idempotencyKey.value]], true)
    else
      var job := NewJob(request, id, now);
      var stored := Put(r, id, job);
      (if request.idempotencyKey.Some? then stored.(index := r.index[request.idempotencyKey.value := id]) else stored,
       job, false)
  }

  function Claim(r: Repo, id: JobId, worker: string, now: Time): (Repo, Option<JobRecord>) {
    if r.drain || id !in r.jobs || !IsDue(r.jobs[id], now) then (r, None)
    else
      var job := Claimed(r.jobs[id], worker, now);
      (Put(r, id, job), Some(job))
  }

  function CreateNext(r: Repo, job: JobRecord, id: JobId, now: Time): (Repo, Result<Option<JobRecord>>) {
    if job.recurringCron.None? || job.recurringCron.value == [] then (r, Ok(None))
    else
      match CronSearch.NextRun(job.recurringCron.value, now)
      case Err(e) => (r, Err(e))
      case Ok(slot) =>
        var next := NextJob(job, id, slot, now);
        (Put(r, id, next), Ok(Some(next)))
  }

  function Get(r: Repo, id: JobId): Result<JobRecord> {
    if id in r.jobs then Ok(r.jobs[id]) else Err(NotFound)
  }

  function Succeed(r: Repo, id: JobId, result: Payload, now: Time): (Repo, Result<JobRecord>) {
    if id !in r.jobs then (r, Err(NotFound))
    else
      var job := MarkedSucceeded(r.jobs[id], result, now);
      (Put(r, id, job), Ok(job))
  }

  function Fail(r: Repo, id: JobId, failure: Failure, backoff: Time, now: Time): (Repo, Result<JobRecord>) {
    if id !in r.jobs then (r, Err(NotFound))
    else
      var job := MarkedFailed(r.jobs[id], failure, backoff, now);
      (Put(r, id, job), Ok(job))
  }

  function Cancel(r: Repo, id: JobId, now: Time): (Repo, Result<JobRecord>) {
    if id !in r.jobs then (r, Err(NotFound))
    else if !IsPending(r.jobs[id].status) then (r, Err(Conflict(r.jobs[id].status)))
    else
      var job := MarkedCancelled(r.jobs[id], now);
      (Put(r, id, job), Ok(job))
  }

  // ----- scans -----

  function Filter<T(!new)>(xs: seq<T>, keep: T -> bool): (ys: seq<T>)
    ensures forall y :: y in ys <==> y in xs && keep(y)
    ensures |ys| <= |xs|
  {
    if xs == [] then [] else (if keep(xs[0]) then [xs[0]] else []) + Filter(xs[1..], keep)
  }

  function Take<T>(xs: seq<T>, limit: nat): seq<T> {
    if limit < |xs| then xs[..limit] else xs
  }

  /** Highest priority first, then oldest first. */
  function DueKey(job: JobRecord): Key {
    (-job.priority, job.createdAt)
  }

  function AllDue(r: Repo, now: Time): seq<JobRecord>
    requires forall id :: id in r.order ==> id in r.jobs
  {
    Filter(Records(r), job => IsDue(job, now))
  }

  function Due(r: Repo, limit: nat, now: Time): seq<JobRecord>
    requires forall id :: id in r.order ==> id in r.jobs
  {
    Take(SortBy(AllDue(r, now), DueKey), limit)
  }

  // ----- what the due scan returns -----

  ghost function DueIds(r: Repo, now: Time): set<JobId> {
    set id | id in r.jobs && IsDue(r.jobs[id], now)
  }

  function Ids(jobs: seq<JobRecord>): (ids: seq<JobId>)
    ensures |ids| == |jobs|
    ensures forall i :: 0 <= i < |jobs| ==> ids[i] == jobs[i].id
  {
    seq(|jobs|, i requires 0 <= i < |jobs| => jobs[i].id)
  }

  ghost function Elements<T(!new)>(xs: seq<T>): set<T> {
    set x | x in xs
  }

  lemma {:induction false} FilterKeepsDistinct(xs: seq<JobRecord>, keep: JobRecord -> bool)
    requires Distinct(Ids(xs))
    ensures Distinct(Ids(Filter(xs, keep)))
  {
    if xs == [] {
    } else {
      assert Ids(xs)[1..] == Ids(xs[1..]);
      assert Distinct(Ids(xs[1..])) by {
        forall i, j | 0 <= i < j < |xs[1..]| ensures Ids(xs[1..])[i] != Ids(xs[1..])[j] {
          assert Ids(xs)[i + 1] != Ids(xs)[j + 1];
        }
      }
      FilterKeepsDistinct(xs[1..], keep);
      var rest := Filter(xs[1..], keep);
      if keep(xs[0]) {
        forall j | 0 <= j < |rest| ensures rest[j].id != xs[0].id {
          assert rest[j] in xs[1..];
          var k :| 0 <= k < |xs[1..]| && xs[1..][k] == rest[j];
          assert Ids(xs)[0] != Ids(xs)[k + 1];
        }
      }
    }
  }

  lemma Twice<T>(ys: seq<T>, i: nat, j: nat)
    requires i < j < |ys| && ys[i] == ys[j]
    ensures multiset(ys)[ys[i]] >= 2
  {
    assert ys == ys[..j] + ys[j..];
    assert ys[i] in ys[..j] && ys[j] in ys[j..];
    assert multiset(ys) == multiset(ys[..j]) + multiset(ys[j..]);
  }

  lemma Once(xs: seq<JobRecord>, a: nat)
    requires a < |xs| && Distinct(Ids(xs))
    ensures multiset(xs)[xs[a]] == 1
  {
    assert xs == xs[..a] + [xs[a]] + xs[a + 1..];
    forall b | 0 <= b < |xs| && b != a ensures xs[b] != xs[a] {
      assert if b < a then Ids(xs)[b] != Ids(xs)[a] else Ids(xs)[a] != Ids(xs)[b];
    }
    assert xs[a] !in xs[..a] && xs[a] !in xs[a + 1..];
  }

  /** Jobs with distinct ids, rearranged, still have distinct ids. */
  lemma RearrangedDistinct(xs: seq<JobRecord>, ys: seq<JobRecord>)
    requires Distinct(Ids(xs)) && multiset(xs) == multiset(ys)
    ensures Distinct(Ids(ys))
  {
    forall i, j | 0 <= i < j < |ys| ensures ys[i].id != ys[j].id {
      if ys[i].id == ys[j].id {
        assert ys[i] in multiset(xs) && ys[j] in multiset(xs);
        var a :| 0 <= a < |xs| && xs[a] == ys[i];
        var b :| 0 <= b < |xs| && xs[b] == ys[j];
        assert Ids(xs)[a] == Ids(xs)[b];
        assert a == b;
        Twice(ys, i, j);
        Once(xs, a);
      }
    }
  }

  lemma {:induction false} CountOfDistinct<T>(xs: seq<T>, x: T)
    requires Distinct(xs)
    ensures multiset(xs)[x] == (if x in xs then 1 else 0)
  {
    if xs == [] {
    } else {
      CountOfDistinct(xs[1..], x);
      assert xs == [xs[0]] + xs[1..];
      assert xs[0] !in xs[1..];
    }
  }

  lemma PermutedDistinct<T>(xs: seq<T>, ys: seq<T>)
    requires Distinct(xs) && multiset(xs) == multiset(ys)
    ensures Distinct(ys)
  {
    forall i, j | 0 <= i < j < |ys| ensures ys[i] != ys[j] {
      if ys[i] == ys[j] {
        Twice(ys, i, j);
        CountOfDistinct(xs, ys[i]);
      }
    }
  }

  /** All due jobs in due order. */
  function DueOrder(r: Repo, now: Time): seq<JobRecord>
    requires forall id :: id in r.order ==> id in r.jobs
  {
    SortBy(AllDue(r, now), DueKey)
  }

  lemma AllDueIsDue(r: Repo, now: Time)
    requires WellFormed(r)
    ensures Distinct(Ids(AllDue(r, now)))
    ensures Elements(Ids(AllDue(r, now))) == DueIds(r, now)
    ensures forall job :: job in AllDue(r, now) ==> job.id in r.jobs && r.jobs[job.id] == job && IsDue(job, now)
  {
    var all := Records(r);
    assert Distinct(Ids(all)) by {
      forall i, j | 0 <= i < j < |all| ensures Ids(all)[i] != Ids(all)[j] {
        assert r.order[i] != r.order[j];
      }
    }
    FilterKeepsDistinct(all, job => IsDue(job, now));
    var due := AllDue(r, now);
    forall job | job in due ensures job.id in r.jobs && r.jobs[job.id] == job && IsDue(job, now) {
      assert job in all;
    }
    forall id | id in DueIds(r, now) ensures id in Ids(due) {
      var i :| 0 <= i < |r.order| && r.order[i] == id;
      assert all[i] == r.jobs[id] && all[i] in all;
      assert r.jobs[id] in due;
      var k :| 0 <= k < |due| && due[k] == r.jobs[id];
      assert Ids(due)[k] == id;
    }
    forall id | id in Ids(due) ensures id in DueIds(r, now) {
      var k :| 0 <= k < |due| && Ids(due)[k] == id;
      assert due[k] in due;
    }
  }

  lemma SameElementsSameIds(xs: seq<JobRecord>, ys: seq<JobRecord>)
    requires forall job :: job in ys <==> job in xs
    ensures Elements(Ids(xs)) == Elements(Ids(ys))
  {
    forall id ensures id in Ids(xs) <==> id in Ids(ys) {
      if id in Ids(xs) {
        var k :| 0 <= k < |xs| && Ids(xs)[k] == id;
        assert xs[k] in ys;
        var j :| 0 <= j < |ys| && ys[j] == xs[k];
        assert Ids(ys)[j] == id;
      }
      if id in Ids(ys) {
        var k :| 0 <= k < |ys| && Ids(ys)[k] == id;
        assert ys[k] in xs;
        var j :| 0 <= j < |xs| && xs[j] == ys[k];
        assert Ids(xs)[j] == id;
      }
    }
  }

  // ----- the due order, column by column -----

  /** The one id was inserted before the other. */
  ghost predicate InsertedBefore(order: seq<JobId>, a: JobId, b: JobId) {
    exists i, j :: 0 <= i < j < |order| && order[i] == a && order[j] == b
  }

  /** Higher priority comes first, among equals the job created earlier, and among those the one inserted earlier. */
  ghost predicate ComesFirst(order: seq<JobId>, a: JobRecord, b: JobRecord) {
    || a.priority > b.priority
    || (a.priority == b.priority && a.createdAt < b.createdAt)
    || (a.priority == b.priority && a.createdAt == b.createdAt && InsertedBefore(order, a.id, b.id))
  }

  ghost predicate InDueOrder(order: seq<JobId>, jobs: seq<JobRecord>) {
    forall i, j :: 0 <= i < j < |jobs| ==> ComesFirst(order, jobs[i], jobs[j])
  }

  /** Filtering leaves elements in the order of the list. */
  lemma {:induction false} PlacesOfKept<T(!new)>(xs: seq<T>, keep: T -> bool, a: nat, b: nat) returns (i: nat, j: nat)
    requires a < b < |Filter(xs, keep)|
    ensures i < j < |xs| && xs[i] == Filter(xs, keep)[a] && xs[j] == Filter(xs, keep)[b]
  {
    var head := if keep(xs[0]) then [xs[0]] else [];
    assert Filter(xs, keep) == head + Filter(xs[1..], keep);
    if a < |head| {
      var y := Filter(xs[1..], keep)[b - 1];
      assert y in xs[1..];
      var c :| 0 <= c < |xs[1..]| && xs[1..][c] == y;
      i, j := 0, c + 1;
    } else {
      var c, d := PlacesOfKept(xs[1..], keep, a - |head|, b - |head|);
      i, j := c + 1, d + 1;
    }
  }

  lemma AllDueAsInserted(r: Repo, now: Time, a: nat, b: nat)
    requires WellFormed(r) && a < b < |AllDue(r, now)|
    ensures InsertedBefore(r.order, AllDue(r, now)[a].id, AllDue(r, now)[b].id)
  {
    var i, j := PlacesOfKept(Records(r), job => IsDue(job, now), a, b);
    assert r.order[i] == AllDue(r, now)[a].id && r.order[j] == AllDue(r, now)[b].id;
  }

  lemma DueOrderInColumns(r: Repo, now: Time)
    requires WellFormed(r)
    ensures InDueOrder(r.order, DueOrder(r, now))
  {
    var due, ordered := AllDue(r, now), DueOrder(r, now);
    SortByIsStable(due, DueKey);
    forall i, j | 0 <= i < j < |ordered| ensures ComesFirst(r.order, ordered[i], ordered[j]) {
      assert !Before(DueKey(ordered[j]), DueKey(ordered[i]));
      if DueKey(ordered[i]) == DueKey(ordered[j]) {
        var a, b := StableKeepsOrder(due, ordered, DueKey, i, j);
        AllDueAsInserted(r, now, a, b);
      }
    }
  }

  /** The scan is a stable sort, by priority descending and creation ascending, of exactly the due jobs, each once. */
  lemma DueOrderIsExact(r: Repo, now: Time)
    requires WellFormed(r)
    ensures StableSortOf(AllDue(r, now), DueOrder(r, now), DueKey)
    ensures Distinct(Ids(DueOrder(r, now)))
    ensures Elements(Ids(DueOrder(r, now))) == DueIds(r, now)
    ensures forall job :: job in DueOrder(r, now) ==> job.id in r.jobs && r.jobs[job.id] == job && IsDue(job, now)
    ensures InDueOrder(r.order, DueOrder(r, now))
  {
    var due, ordered := AllDue(r, now), DueOrder(r, now);
    AllDueIsDue(r, now);
    DueOrderInColumns(r, now);
    SortByIsStable(due, DueKey);
    RearrangedDistinct(due, ordered);
    forall job ensures job in ordered <==> job in due {
      assert job in ordered <==> job in multiset(ordered);
      assert job in due <==> job in multiset(due);
    }
    SameElementsSameIds(due, ordered);
  }

  /** What the scan returns is in due order, and each of it comes before every due job it leaves out. */
  lemma DueInColumns(r: Repo, limit: nat, now: Time)
    requires WellFormed(r)
    ensures InDueOrder(r.order, Due(r, limit, now))
    ensures forall id :: id in r.jobs && IsPending(r.jobs[id].status) && r.jobs[id].nextRunAt <= now ==>
              || r.jobs[id] in Due(r, limit, now)
              || (&& |Due(r, limit, now)| == limit
                  && forall i :: 0 <= i < limit ==> ComesFirst(r.order, Due(r, limit, now)[i], r.jobs[id]))
  {
    var ordered, due := DueOrder(r, now), Due(r, limit, now);
    DueOrderIsExact(r, now);
    forall id | id in r.jobs && IsPending(r.jobs[id].status) && r.jobs[id].nextRunAt <= now && r.jobs[id] !in due
      ensures |due| == limit && forall i :: 0 <= i < limit ==> ComesFirst(r.order, due[i], r.jobs[id])
    {
      assert IsDue(r.jobs[id], now) && id in Elements(Ids(ordered));
      var k :| 0 <= k < |ordered| && Ids(ordered)[k] == id;
      assert ordered[k] in ordered && ordered[k] == r.jobs[id];
      assert k >= |due|;
    }
  }

  lemma TakeIds(jobs: seq<JobRecord>, limit: nat)
    requires Distinct(Ids(jobs))
    ensures Distinct(Ids(Take(jobs, limit)))
  {
    assert Ids(Take(jobs, limit)) == Take(Ids(jobs), limit);
  }

  /** The scan returns due jobs as they are stored, each once and in order; a due job it leaves out is one too many
      and comes before none that it returns. */
  lemma DueIsFirst(r: Repo, limit: nat, now: Time)
    requires WellFormed(r)
    ensures var due := Due(r, limit, now);
            && Ordered(due, DueKey) && Distinct(Ids(due)) && |due| <= limit
            && (forall job :: job in due ==> job.id in r.jobs && r.jobs[job.id] == job && IsDue(job, now))
            && (forall id :: id in r.jobs && IsDue(r.jobs[id], now) && r.jobs[id] !in due ==>
                  |due| == limit && forall i :: 0 <= i < |due| ==> !Before(DueKey(r.jobs[id]), DueKey(due[i])))
  {
    var ordered, due := DueOrder(r, now), Due(r, limit, now);
    DueOrderIsExact(r, now);
    TakeIds(ordered, limit);
    forall id | id in r.jobs && IsDue(r.jobs[id], now) && r.jobs[id] !in due
      ensures |due| == limit && forall i :: 0 <= i < |due| ==> !Before(DueKey(r.jobs[id]), DueKey(due[i]))
    {
      assert id in Elements(Ids(ordered));
      var k :| 0 <= k < |ordered| && Ids(ordered)[k] == id;
      assert ordered[k] in ordered;
      assert k >= |due|;
    }
  }

  // ----- what every operation keeps -----

  lemma PutKeepsWellFormed(r: Repo, id: JobId)
    requires WellFormed(r)
    ensures forall job: JobRecord {:trigger Put(r, id, job)} ::
              id in r.jobs && job.id == id && job.idempotencyKey == r.jobs[id].idempotencyKey
              ==> WellFormed(Put(r, id, job))
  {
  }

  lemma AddKeepsListed(r: Repo, id: JobId, job: JobRecord)
    requires Listed(r) && id !in r.jobs
    ensures Listed(Put(r, id, job))
  {
  }

  lemma AddKeepsWellFormed(r: Repo, id: JobId, job: JobRecord)
    requires WellFormed(r) && id !in r.jobs
    requires job.id == id && job.idempotencyKey == None
    ensures WellFormed(Put(r, id, job))
  {
    AddKeepsListed(r, id, job);
  }

  lemma CreateKeepsIndex(r: Repo, request: JobCreate, id: JobId, now: Time)
    requires IndexInverts(r) && id !in r.jobs
    ensures IndexInverts(Create(r, request, id, now).0)
  {
  }

  lemma CreateKeepsWellFormed(r: Repo, request: JobCreate, id: JobId, now: Time)
    requires WellFormed(r) && id !in r.jobs
    ensures WellFormed(Create(r, request, id, now).0)
  {
    AddKeepsListed(r, id, NewJob(request, id, now));
    CreateKeepsIndex(r, request, id, now);
  }

  // ----- the class -----

  /** Nothing changes but the record of a job there is. */
  ghost predicate OnlyRewrites(r: Repo, r': Repo, id: JobId) {
    id in r.jobs && id in r'.jobs && r' == r.(jobs := r.jobs[id := r'.jobs[id]])
  }

  class InMemoryJobRepository {
    var jobs: map<JobId, JobRecord>
    var order: seq<JobId>
    var idempotency: map<string, JobId>
    var drainEnabled: bool

    function View(): Repo
      reads this
    {
      Repo(jobs, order, idempotency, drainEnabled)
    }

    ghost predicate Valid()
      reads this
    {
      WellFormed(View())
    }

    constructor ()
      ensures Valid() && View() == EMPTY
    {
      jobs, order, idempotency, drainEnabled := map[], [], map[], false;
    }

    method Store(id: JobId, job: JobRecord)
      modifies this
      ensures View() == Put(old(View()), id, job)
    {
      order := if id in jobs then order else order + [id];
      jobs := jobs[id := job];
    }

    method CreateJob(request: JobCreate, freshId: JobId, now: Time) returns (job: JobRecord, replay: bool)
      requires Valid() && freshId !in jobs
      modifies this
      ensures Valid()
      ensures (View(), job, replay) == Create(old(View()), request, freshId, now)
      ensures replay <==> request.idempotencyKey.Some? && request.idempotencyKey.value in old(idempotency)
      ensures job.idempotencyKey == request.idempotencyKey && job.id in jobs && jobs[job.id] == job
      ensures replay ==> View() == old(View())
      ensures !replay ==>
                && IsRequested(job, request, freshId, now) && jobs == old(jobs)[freshId := job]
                && order == old(order) + [freshId] && drainEnabled == old(drainEnabled)
                && idempotency == if request.idempotencyKey.None? then old(idempotency)
                                  else old(idempotency)[request.idempotencyKey.value := freshId]
    {
      CreateKeepsWellFormed(View(), request, freshId, now);
      if request.idempotencyKey.Some? && request.idempotencyKey.value in idempotency {
        return jobs[idempotency[request.idempotencyKey.value]], true;
      }
      job, replay := NewJob(request, freshId, now), false;
      Store(freshId, job);
      if request.idempotencyKey.Some? {
        idempotency := idempotency[request.idempotencyKey.value := freshId];
      }
    }

    method GetJob(id: JobId) returns (r: Result<JobRecord>)
      ensures r == Get(View(), id)
      ensures r == if id in jobs then Ok(jobs[id]) else Err(NotFound)
    {
      if id in jobs {
        return Ok(jobs[id]);
      }
      return Err(NotFound);
    }

    method ClaimJob(id: JobId, worker: string, now: Time) returns (claimed: Option<JobRecord>)
      requires Valid()
      modifies this
      ensures Valid()
      ensures (View(), claimed) == Claim(old(View()), id, worker, now)
      ensures claimed.Some? <==> !old(drainEnabled) && id in old(jobs) && IsDue(old(jobs)[id], now)
      ensures claimed.Some? <==>
                && !old(drainEnabled) && id in old(jobs) && old(jobs)[id].nextRunAt <= now
                && (old(jobs)[id].status == Queued || old(jobs)[id].status == Failed)
      ensures claimed.None? ==> View() == old(View())
      ensures claimed.Some? ==> OnlyRewrites(old(View()), View(), id) && jobs[id] == claimed.value
      ensures claimed.Some? ==> IsStarted(claimed.value, old(jobs)[id], worker, now)
    {
      PutKeepsWellFormed(View(), id);
      if drainEnabled {
        return None;
      }
      if id !in jobs || !IsPending(jobs[id].status) || jobs[id].nextRunAt > now {
        return None;
      }
      Store(id, Claimed(jobs[id], worker, now));
      return Some(jobs[id]);
    }

    method CreateNextRecurringJob(job: JobRecord, freshId: JobId, now: Time) returns (r: Result<Option<JobRecord>>)
      requires Valid() && freshId !in jobs
      modifies this
      ensures Valid()
      ensures (View(), r) == CreateNext(old(View()), job, freshId, now)
      ensures job.recurringCron.None? || job.recurringCron.value == [] ==> r == Ok(None) && View() == old(View())
      ensures r.Err? ==> View() == old(View())
      ensures job.recurringCron.Some? && job.recurringCron.value != [] ==>
                match CronSearch.NextRun(job.recurringCron.value, now)
                case Err(e) => r == Err(e)
                case Ok(slot) =>
                  && r.Ok? && r.value.Some? && IsNextOf(r.value.value, job, freshId, slot, now)
                  && jobs == old(jobs)[freshId := r.value.value] && order == old(order) + [freshId]
                  && idempotency == old(idempotency) && drainEnabled == old(drainEnabled)
    {
      if job.recurringCron.None? || job.recurringCron.value == [] {
        return Ok(None);
      }
      var found := CronSearch.NextCronRun(job.recurringCron.value, now);
      match found {
        case Err(e) =>
          return Err(e);
        case Ok(slot) =>
          var next := NextJob(job, freshId, slot, now);
          AddKeepsWellFormed(View(), freshId, next);
          Store(freshId, next);
          return Ok(Some(next));
      }
    }

    method MarkSucceeded(id: JobId, result: Payload, now: Time) returns (r: Result<JobRecord>)
      requires Valid()
      modifies this
      ensures Valid()
      ensures (View(), r) == Succeed(old(View()), id, result, now)
      ensures if id in old(jobs) then
                && r.Ok? && IsSucceeded(r.value, old(jobs)[id], result, now)
                && OnlyRewrites(old(View()), View(), id) && jobs[id] == r.value
              else r == Err(NotFound) && View() == old(View())
    {
      PutKeepsWellFormed(View(), id);
      var job :- GetJob(id);
      Store(id, MarkedSucceeded(job, result, now));
      return Ok(jobs[id]);
    }

    method MarkFailedAttempt(id: JobId, failure: Failure, backoff: Time, now: Time) returns (r: Result<JobRecord>)
      requires Valid()
      modifies this
      ensures Valid()
      ensures (View(), r) == Fail(old(View()), id, failure, backoff, now)
      ensures if id in old(jobs) then
                && r.Ok? && IsFailed(r.value, old(jobs)[id], failure, backoff, now)
                && r.value.processedAt == (if r.value.status == DeadLettered then Some(now) else None)
                && OnlyRewrites(old(View()), View(), id) && jobs[id] == r.value
              else r == Err(NotFound) && View() == old(View())
    {
      PutKeepsWellFormed(View(), id);
      var job :- GetJob(id);
      Store(id, MarkedFailed(job, failure, backoff, now));
      return Ok(jobs[id]);
    }

    method CancelJob(id: JobId, now: Time) returns (r: Result<JobRecord>)
      requires Valid()
      modifies this
      ensures Valid()
      ensures (View(), r) == Cancel(old(View()), id, now)
      ensures r.Ok? <==> id in old(jobs) && (old(jobs)[id].status == Queued || old(jobs)[id].status == Failed)
      ensures r.Err? ==>
                && View() == old(View())
                && r.error == if id in old(jobs) then Conflict(old(jobs)[id].status) else NotFound
      ensures r.Ok? ==> OnlyRewrites(old(View()), View(), id) && jobs[id] == r.value
      ensures r.Ok? ==> IsCancelled(r.value, old(jobs)[id], now)
    {
      PutKeepsWellFormed(View(), id);
      var job :- GetJob(id);
      if !IsPending(job.status) {
        return Err(Conflict(job.status));
      }
      Store(id, MarkedCancelled(job, now));
      return Ok(jobs[id]);
    }

    method SetDrain(enabled: bool)
      requires Valid()
      modifies this`drainEnabled
      ensures Valid() && View() == old(View()).(drain := enabled)
    {
      drainEnabled := enabled;
    }

    method DueJobs(limit: nat, now: Time) returns (due: seq<JobRecord>)
      requires Valid()
      ensures due == Due(View(), limit, now)
      ensures Ordered(due, DueKey) && Distinct(Ids(due)) && |due| <= limit
      ensures forall job :: job in due ==> job.id in jobs && jobs[job.id] == job && IsDue(job, now)
      ensures forall id :: id in jobs && IsDue(jobs[id], now) && jobs[id] !in due ==>
                |due| == limit && forall i :: 0 <= i < |due| ==> !Before(DueKey(jobs[id]), DueKey(due[i]))
      ensures forall job :: job in due ==> (job.status == Queued || job.status == Failed) && job.nextRunAt <= now
      ensures InDueOrder(order, due)
      ensures forall id :: id in jobs && IsPending(jobs[id].status) && jobs[id].nextRunAt <= now ==>
                || jobs[id] in due
                || (|due| == limit && forall i :: 0 <= i < limit ==> ComesFirst(order, due[i], jobs[id]))
    {
      DueIsFirst(View(), limit, now);
      DueInColumns(View(), limit, now);
      var pending := Filter(Records(View()), job => IsDue(job, now));
      var ordered := SortBy(pending, DueKey);
      due := if limit < |ordered| then ordered[..limit] else ordered;
    }
  }
}
