// Queue depth and metrics over the job table (app/jobs/repositories.py:434-458, 558-578, app/jobs/service.py:107-113).
module Reporting {
  import opened Core
  import opened Jobs
  import opened Ordering
  import opened MemoryRepository
  import opened Totals
  import opened Draining
  import SqlRefinement
  import SqlTables
  import Lifecycle

  function Count<T(!new)>(xs: seq<T>, keep: T -> bool): nat {
    |Filter(xs, keep)|
  }

  function CountStatus(jobs: seq<JobRecord>, status: JobStatus): nat {
    Count(jobs, (job: JobRecord) => job.status == status)
  }

  function CountPriority(jobs: seq<JobRecord>, priority: int): nat {
    Count(jobs, (job: JobRecord) => job.priority == priority)
  }

  function CountDue(jobs: seq<JobRecord>, now: Time): nat {
    Count(jobs, (job: JobRecord) => IsDue(job, now))
  }

  /** Jobs whose next run time has come, whatever their status. */
  function CountReached(jobs: seq<JobRecord>, now: Time): nat {
    Count(jobs, (job: JobRecord) => job.nextRunAt <= now)
  }

  lemma {:induction false} CountOfConcat<T(!new)>(xs: seq<T>, ys: seq<T>, keep: T -> bool)
    ensures Count(xs + ys, keep) == Count(xs, keep) + Count(ys, keep)
  {
    if xs == [] {
      assert xs + ys == ys;
    } else {
      assert (xs + ys)[1..] == xs[1..] + ys;
      CountOfConcat(xs[1..], ys, keep);
    }
  }

  lemma {:induction false} CountAll<T(!new)>(xs: seq<T>, keep: T -> bool)
    requires forall x :: x in xs ==> keep(x)
    ensures Count(xs, keep) == |xs|
  {
    if xs == [] {
    } else {
      CountAll(xs[1..], keep);
    }
  }

  lemma {:induction false} CountImplied<T(!new)>(xs: seq<T>, narrow: T -> bool, wide: T -> bool)
    requires forall x :: x in xs && narrow(x) ==> wide(x)
    ensures Count(xs, narrow) <= Count(xs, wide)
  {
    if xs == [] {
    } else {
      CountImplied(xs[1..], narrow, wide);
    }
  }

  lemma CountWithout<T(!new)>(xs: seq<T>, j: nat, keep: T -> bool)
    requires j < |xs|
    ensures Count(xs, keep) == Count(Without(xs, j), keep) + (if keep(xs[j]) then 1 else 0)
  {
    assert xs == xs[..j] + ([xs[j]] + xs[j + 1..]);
    CountOfConcat(xs[..j], xs[j + 1..], keep);
    CountOfConcat(xs[..j], [xs[j]] + xs[j + 1..], keep);
    CountOfConcat([xs[j]], xs[j + 1..], keep);
    assert Count([xs[j]], keep) == if keep(xs[j]) then 1 else 0;
  }

  /** Counting is blind to order. */
  lemma {:induction false} CountOfPermutation<T(!new)>(xs: seq<T>, ys: seq<T>, keep: T -> bool)
    requires multiset(xs) == multiset(ys)
    ensures Count(xs, keep) == Count(ys, keep)
    decreases |xs|
  {
    assert |multiset(xs)| == |multiset(ys)|;
    if xs == [] {
    } else {
      var j := SameRest(xs, ys);
      CountWithout(xs, 0, keep);
      CountWithout(ys, j, keep);
      CountOfPermutation(Without(xs, 0), Without(ys, j), keep);
    }
  }

  // ----- queue depth -----

  datatype QueueDepth = QueueDepth(queued: nat, due: nat, running: nat, deadLettered: nat, byPriority: seq<(int, nat)>)

  /** Priorities strictly increase. */
  ghost predicate Increasing(table: seq<(int, nat)>) {
    forall i, j :: 0 <= i < j < |table| ==> table[i].0 < table[j].0
  }

  /** The table has a line for each priority that occurs, with the number of its jobs, and no other line. */
  ghost predicate Tabulates(table: seq<(int, nat)>, jobs: seq<JobRecord>) {
    && (forall i :: 0 <= i < |table| ==> table[i].1 == CountPriority(jobs, table[i].0) > 0)
    && (forall job :: job in jobs ==> exists i :: 0 <= i < |table| && table[i].0 == job.priority)
  }

  function SumOfCounts(table: seq<(int, nat)>): nat {
    if table == [] then 0 else table[0].1 + SumOfCounts(table[1..])
  }

  lemma {:induction false} SplitPriority(jobs: seq<JobRecord>, priority: int, other: int)
    ensures |jobs| == CountPriority(jobs, priority) + |Filter(jobs, (job: JobRecord) => job.priority != priority)|
    ensures var rest := Filter(jobs, (job: JobRecord) => job.priority != priority);
            other != priority ==> CountPriority(rest, other) == CountPriority(jobs, other)
  {
    if jobs == [] {
    } else {
      SplitPriority(jobs[1..], priority, other);
      var rest := Filter(jobs[1..], (job: JobRecord) => job.priority != priority);
      assert ([jobs[0]] + rest)[1..] == rest;
      assert Filter(jobs, (job: JobRecord) => job.priority != priority) ==
          (if jobs[0].priority != priority then [jobs[0]] + rest else rest);
    }
  }

  /** The lines of a table sum to the number of jobs it tabulates. */
  lemma {:induction false} TableSums(table: seq<(int, nat)>, jobs: seq<JobRecord>)
    requires Increasing(table) && Tabulates(table, jobs)
    ensures SumOfCounts(table) == |jobs|
    decreases |table|
  {
    if table == [] {
      assert forall job :: job !in jobs;
    } else {
      var first := table[0].0;
      var rest := Filter(jobs, (job: JobRecord) => job.priority != first);
      SplitPriority(jobs, first, first);
      forall i | 0 <= i < |table[1..]| ensures table[1..][i].1 == CountPriority(rest, table[1..][i].0) > 0 {
        assert table[i + 1].0 > first;
        SplitPriority(jobs, first, table[i + 1].0);
      }
      forall job | job in rest ensures exists i :: 0 <= i < |table[1..]| && table[1..][i].0 == job.priority {
        var i :| 0 <= i < |table| && table[i].0 == job.priority;
        assert table[1..][i - 1].0 == job.priority;
      }
      TableSums(table[1..], rest);
    }
  }

  /** The dict's items in insertion order. */
  function Items(keys: seq<int>, counts: map<int, nat>): (items: seq<(int, nat)>)
    requires forall i :: 0 <= i < |keys| ==> keys[i] in counts
    ensures |items| == |keys|
    ensures forall i :: 0 <= i < |items| ==> items[i] == (keys[i], counts[keys[i]])
  {
    seq(|keys|, i requires 0 <= i < |keys| => (keys[i], counts[keys[i]]))
  }

  /** Sorting pairs with distinct first components gives strictly increasing first components. */
  lemma SortedItems(keys: seq<int>, counts: map<int, nat>)
    requires Distinct(keys) && forall i :: 0 <= i < |keys| ==> keys[i] in counts
    ensures var table := SortBy(Items(keys, counts), (item: (int, nat)) => (item.0, item.1 as int));
            && Increasing(table)
            && (forall item :: item in table <==> item.0 in keys && item.1 == counts[item.0])
  {
    var items := Items(keys, counts);
    var key := (item: (int, nat)) => (item.0, item.1 as int);
    var table := SortBy(items, key);
    SortByIsStable(items, key);
    PermutedDistinct(items, table);
    forall item ensures item in table <==> item in items {
      assert item in table <==> item in multiset(table);
      assert item in items <==> item in multiset(items);
    }
    forall item ensures item in items <==> item.0 in keys && item.1 == counts[item.0] {
      if item.0 in keys && item.1 == counts[item.0] {
        var i :| 0 <= i < |keys| && keys[i] == item.0;
        assert items[i] == item;
      }
    }
    forall i, j | 0 <= i < j < |table| ensures table[i].0 < table[j].0 {
      assert table[i] in table && table[j] in table && table[i] != table[j];
      assert !Before(key(table[j]), key(table[i]));
    }
  }

  function PendingJobs(jobs: seq<JobRecord>): seq<JobRecord> {
    Filter(jobs, (job: JobRecord) => IsPending(job.status))
  }

  /** `order` lists the keys of the dict once each. */
  ghost predicate KeysListed(order: seq<int>, priorities: map<int, nat>) {
    && Distinct(order)
    && (forall i :: 0 <= i < |order| ==> order[i] in priorities)
    && (forall k :: k in priorities ==> k in order)
  }

  ghost predicate Counted(priorities: map<int, nat>, jobs: seq<JobRecord>) {
    forall k :: k in priorities ==> priorities[k] == CountPriority(jobs, k) > 0
  }

  ghost predicate Covered(priorities: map<int, nat>, jobs: seq<JobRecord>) {
    forall j :: 0 <= j < |jobs| ==> jobs[j].priority in priorities
  }

  /** The dict holds the number of jobs of each priority that occurs, and its keys are `order`. */
  ghost predicate Tallied(order: seq<int>, priorities: map<int, nat>, jobs: seq<JobRecord>) {
    KeysListed(order, priorities) && Counted(priorities, jobs) && Covered(priorities, jobs)
  }

  lemma CountNext(jobs: seq<JobRecord>, job: JobRecord, k: int)
    ensures CountPriority(jobs + [job], k) == CountPriority(jobs, k) + (if job.priority == k then 1 else 0)
  {
    CountOfConcat(jobs, [job], (job: JobRecord) => job.priority == k);
  }

  lemma {:induction false} NoneCounted(priorities: map<int, nat>, jobs: seq<JobRecord>, k: int)
    requires Covered(priorities, jobs) && k !in priorities
    ensures CountPriority(jobs, k) == 0
  {
    if jobs == [] {
    } else {
      assert Covered(priorities, jobs[1..]) by {
        forall j | 0 <= j < |jobs[1..]| ensures jobs[1..][j].priority in priorities {
          assert jobs[j + 1].priority in priorities;
        }
      }
      NoneCounted(priorities, jobs[1..], k);
      assert jobs[0].priority in priorities;
    }
  }

  function PlusOne(priorities: map<int, nat>, p: int): map<int, nat> {
    priorities[p := (if p in priorities then priorities[p] else 0) + 1]
  }

  lemma ListedNext(order: seq<int>, priorities: map<int, nat>, p: int)
    requires KeysListed(order, priorities)
    ensures p in priorities ==> KeysListed(order, PlusOne(priorities, p))
    ensures p !in priorities ==> KeysListed(order + [p], PlusOne(priorities, p))
  {
  }

  lemma CountedNext(priorities: map<int, nat>, jobs: seq<JobRecord>, job: JobRecord)
    requires Counted(priorities, jobs)
    requires job.priority !in priorities ==> CountPriority(jobs, job.priority) == 0
    ensures Counted(PlusOne(priorities, job.priority), jobs + [job])
  {
    forall k | k in PlusOne(priorities, job.priority)
      ensures PlusOne(priorities, job.priority)[k] == CountPriority(jobs + [job], k) > 0
    {
      CountNext(jobs, job, k);
    }
  }

  lemma CoveredNext(priorities: map<int, nat>, jobs: seq<JobRecord>, job: JobRecord)
    requires Covered(priorities, jobs)
    ensures Covered(PlusOne(priorities, job.priority), jobs + [job])
  {
  }

  /** What the loop of `queue_depth` makes of the jobs: the keys in order of appearance, and the dict. */
  function TallyOf(jobs: seq<JobRecord>): (seq<int>, map<int, nat>) {
    if jobs == [] then ([], map[])
    else
      var (order, priorities) := TallyOf(jobs[..|jobs| - 1]);
      var p := jobs[|jobs| - 1].priority;
      (if p in priorities then order else order + [p], PlusOne(priorities, p))
  }

  lemma {:induction false} TallyLists(jobs: seq<JobRecord>)
    ensures KeysListed(TallyOf(jobs).0, TallyOf(jobs).1)
  {
    if jobs == [] {
    } else {
      var before, job := jobs[..|jobs| - 1], jobs[|jobs| - 1];
      TallyLists(before);
      ListedNext(TallyOf(before).0, TallyOf(before).1, job.priority);
    }
  }

  lemma {:induction false} TallyCovers(jobs: seq<JobRecord>)
    ensures Covered(TallyOf(jobs).1, jobs)
  {
    if jobs == [] {
    } else {
      var before, job := jobs[..|jobs| - 1], jobs[|jobs| - 1];
      TallyCovers(before);
      CoveredNext(TallyOf(before).1, before, job);
      assert before + [job] == jobs;
    }
  }

  lemma {:induction false} TallyCounts(jobs: seq<JobRecord>)
    ensures Counted(TallyOf(jobs).1, jobs)
  {
    if jobs == [] {
    } else {
      var before, job := jobs[..|jobs| - 1], jobs[|jobs| - 1];
      TallyCounts(before);
      TallyCovers(before);
      if job.priority !in TallyOf(before).1 {
        NoneCounted(TallyOf(before).1, before, job.priority);
      }
      CountedNext(TallyOf(before).1, before, job);
      assert before + [job] == jobs;
    }
  }

  lemma TallyIsRight(jobs: seq<JobRecord>)
    ensures Tallied(TallyOf(jobs).0, TallyOf(jobs).1, jobs)
  {
    TallyLists(jobs);
    TallyCovers(jobs);
    TallyCounts(jobs);
  }

  lemma TallySorted(order: seq<int>, priorities: map<int, nat>, jobs: seq<JobRecord>)
    requires Tallied(order, priorities, jobs)
    ensures var table := SortBy(Items(order, priorities), (item: (int, nat)) => (item.0, item.1 as int));
            Increasing(table) && Tabulates(table, jobs) && SumOfCounts(table) == |jobs|
  {
    SortedItems(order, priorities);
    var table := SortBy(Items(order, priorities), (item: (int, nat)) => (item.0, item.1 as int));
    forall i | 0 <= i < |table| ensures table[i].1 == CountPriority(jobs, table[i].0) > 0 {
      assert table[i] in table;
    }
    forall job | job in jobs ensures exists i :: 0 <= i < |table| && table[i].0 == job.priority {
      var j :| 0 <= j < |jobs| && jobs[j] == job;
      assert (job.priority, priorities[job.priority]) in table;
    }
    TableSums(table, jobs);
  }

  lemma {:induction false} PendingCounts(jobs: seq<JobRecord>, now: Time)
    ensures |PendingJobs(jobs)| == CountStatus(jobs, Queued) + CountStatus(jobs, Failed)
    ensures CountReached(PendingJobs(jobs), now) == CountDue(jobs, now)
    ensures CountDue(jobs, now) <= |PendingJobs(jobs)|
  {
    if jobs == [] {
    } else {
      PendingCounts(jobs[1..], now);
      var first := if IsPending(jobs[0].status) then [jobs[0]] else [];
      assert PendingJobs(jobs) == first + PendingJobs(jobs[1..]);
      CountOfConcat(first, PendingJobs(jobs[1..]), (job: JobRecord) => job.nextRunAt <= now);
    }
  }

  /** The loop of `queue_depth`. */
  method Tally(queued: seq<JobRecord>) returns (order: seq<int>, priorities: map<int, nat>)
    ensures (order, priorities) == TallyOf(queued)
    ensures Tallied(order, priorities, queued)
  {
    order, priorities := [], map[];
    for i := 0 to |queued|
      invariant (order, priorities) == TallyOf(queued[..i])
    {
      var p := queued[i].priority;
      assert queued[..i + 1][..i] == queued[..i];
      order := if p in priorities then order else order + [p];
      priorities := PlusOne(priorities, p);
    }
    assert queued[..|queued|] == queued;
    TallyIsRight(queued);
  }

  /** The depth counts what it says, `due` never exceeds `queued`, and the table's lines sum to `queued`. */
  method QueueDepthOf(jobs: seq<JobRecord>, now: Time) returns (depth: QueueDepth)
    ensures depth.queued == CountStatus(jobs, Queued) + CountStatus(jobs, Failed)
    ensures depth.due == CountDue(jobs, now) <= depth.queued
    ensures depth.running == CountStatus(jobs, Running) && depth.deadLettered == CountStatus(jobs, DeadLettered)
    ensures Increasing(depth.byPriority) && Tabulates(depth.byPriority, PendingJobs(jobs))
    ensures SumOfCounts(depth.byPriority) == depth.queued
  {
    var queued := PendingJobs(jobs);
    var order, priorities := Tally(queued);
    var table := SortBy(Items(order, priorities), (item: (int, nat)) => (item.0, item.1 as int));
    TallySorted(order, priorities, queued);
    PendingCounts(jobs, now);
    depth := QueueDepth(
      |queued|, CountReached(queued, now), CountStatus(jobs, Running), CountStatus(jobs, DeadLettered), table);
  }

  // ----- metrics -----

  /** Times from creation to the end, in microseconds. */
  function Latencies(jobs: seq<JobRecord>): seq<int> {
    if jobs == [] then []
    else
      var latency := if jobs[0].processedAt.Some? then [jobs[0].processedAt.value - jobs[0].createdAt] else [];
      latency + Latencies(jobs[1..])
  }

  function ByValue(): int -> Key {
    (x: int) => (x, 0)
  }

  /** Python's `round` of a count of hundredths: to the nearest integer, halves to the even one. */
  function RoundHundredths(a: int): int {
    if a % 100 < 50 || (a % 100 == 50 && a / 100 % 2 == 0) then a / 100 else a / 100 + 1
  }

  function Clamped(rank: int, last: int): int {
    var capped := if rank < last then rank else last;
    if capped > 0 then capped else 0
  }

  function PercentileIndex(count: nat, percent: nat): int {
    Clamped(RoundHundredths((count - 1) * percent), count - 1)
  }

  function Percentile(values: seq<int>, percent: nat): int
    requires values != []
  {
    values[PercentileIndex(|values|, percent)]
  }

  function LatencyPercentile(jobs: seq<JobRecord>, percent: nat): int {
    var values := SortBy(Latencies(jobs), ByValue());
    if values == [] then 0 else Percentile(values, percent)
  }

  function Utilization(running: nat, queued: nat): real {
    if running + queued == 0 then 0.0 else running as real / (running + queued) as real
  }

  datatype JobMetrics = JobMetrics(
    success: nat, failure: nat, retries: nat, deadLettered: nat, p50: int, p95: int, utilization: real)

  /** Memory: each job's attempts after its first. */
  function MemoryRetries(jobs: seq<JobRecord>): nat {
    Total(jobs, (job: JobRecord) => if job.attemptCount > 1 then job.attemptCount - 1 else 0)
  }

  /** The sum the database takes, one less per job that was never attempted. */
  function SumOfRetries(jobs: seq<JobRecord>): int {
    if jobs == [] then 0 else jobs[0].attemptCount - 1 + SumOfRetries(jobs[1..])
  }

  function SqlRetries(jobs: seq<JobRecord>): nat {
    if SumOfRetries(jobs) > 0 then SumOfRetries(jobs) else 0
  }

  function NeverAttempted(jobs: seq<JobRecord>): nat {
    Count(jobs, (job: JobRecord) => job.attemptCount == 0)
  }

  function Metrics(jobs: seq<JobRecord>): JobMetrics {
    JobMetrics(
      CountStatus(jobs, Succeeded), CountStatus(jobs, Failed), MemoryRetries(jobs), CountStatus(jobs, DeadLettered),
      LatencyPercentile(jobs, 50), LatencyPercentile(jobs, 95),
      Utilization(CountStatus(jobs, Running), CountStatus(jobs, Queued)))
  }

  function SuccessFailureRates(m: JobMetrics): (real, real) {
    var total := m.success + m.failure + m.deadLettered;
    if total == 0 then (0.0, 0.0)
    else (m.success as real / total as real, (m.failure + m.deadLettered) as real / total as real)
  }

  // ----- counts -----

  /** Every job has one of the six statuses. */
  lemma {:induction false} StatusesPartition(jobs: seq<JobRecord>)
    ensures CountStatus(jobs, Queued) + CountStatus(jobs, Running) + CountStatus(jobs, Succeeded)
            + CountStatus(jobs, Failed) + CountStatus(jobs, DeadLettered) + CountStatus(jobs, Cancelled) == |jobs|
  {
    if jobs == [] {
    } else {
      StatusesPartition(jobs[1..]);
    }
  }

  /** The database's sum falls short of the in-memory count by exactly the number of jobs never attempted, so the
      clamped value never exceeds it, and equals it only when every job was attempted or none was retried. */
  lemma {:induction false} RetryCounts(jobs: seq<JobRecord>)
    ensures SumOfRetries(jobs) == MemoryRetries(jobs) - NeverAttempted(jobs)
    ensures SqlRetries(jobs) <= MemoryRetries(jobs)
    ensures SqlRetries(jobs) == MemoryRetries(jobs) <==> NeverAttempted(jobs) == 0 || MemoryRetries(jobs) == 0
  {
    if jobs == [] {
    } else {
      RetryCounts(jobs[1..]);
    }
  }

  lemma {:induction false} SameAttempts(a: seq<JobRecord>, b: seq<JobRecord>)
    requires |a| == |b| && forall i :: 0 <= i < |a| ==> a[i].attemptCount == b[i].attemptCount
    ensures SumOfRetries(a) == SumOfRetries(b)
  {
    if a == [] {
    } else {
      SameAttempts(a[1..], b[1..]);
    }
  }

  /** So do the two repositories' reports after the same calls. */
  lemma RelatedRetryCounts(r: Repo, db: SqlTables.Tables, late: set<JobId>)
    requires SqlRefinement.Related(r, db, late)
    ensures SumOfRetries(SqlRefinement.Rows(db, r.order)) == MemoryRetries(Records(r)) - NeverAttempted(Records(r))
    ensures SqlRetries(SqlRefinement.Rows(db, r.order)) <= MemoryRetries(Records(r))
  {
    forall i | 0 <= i < |r.order|
      ensures SqlRefinement.Rows(db, r.order)[i].attemptCount == Records(r)[i].attemptCount
    {
      assert SqlRefinement.SameRecord(r.jobs[r.order[i]], db.jobs[r.order[i]], late);
    }
    SameAttempts(SqlRefinement.Rows(db, r.order), Records(r));
    RetryCounts(Records(r));
  }

  lemma ProportionOf(part: real, whole: real)
    requires 0.0 <= part <= whole && whole > 0.0
    ensures 0.0 <= part / whole <= 1.0
  {
    var ratio := part / whole;
    assert ratio * whole == part;
    assert ratio > 1.0 ==> (ratio - 1.0) * whole > 0.0;
  }

  lemma SharesAddUp(a: real, b: real, whole: real)
    requires a + b == whole && whole > 0.0
    ensures a / whole + b / whole == 1.0
  {
    var x, y := a / whole, b / whole;
    assert x * whole == a && y * whole == b;
    assert (x + y - 1.0) * whole == 0.0;
  }

  /** The share of running jobs among those that are running or queued. */
  lemma UtilizationIsProportion(running: nat, queued: nat)
    ensures Utilization(running, queued) * (running + queued) as real == running as real
    ensures 0.0 <= Utilization(running, queued) <= 1.0
    ensures Utilization(running, queued) == 0.0 <==> running == 0
  {
    if running + queued != 0 {
      ProportionOf(running as real, (running + queued) as real);
    }
  }

  /** The rates are the shares of successes and of failures and dead letters, and sum to one unless there is nothing to
      share. */
  lemma RatesSumToOne(m: JobMetrics)
    ensures var total := (m.success + m.failure + m.deadLettered) as real;
            && SuccessFailureRates(m).0 * total == m.success as real
            && SuccessFailureRates(m).1 * total == (m.failure + m.deadLettered) as real
    ensures var (success, failure) := SuccessFailureRates(m);
            && 0.0 <= success <= 1.0 && 0.0 <= failure <= 1.0
            && success + failure == (if m.success + m.failure + m.deadLettered == 0 then 0.0 else 1.0)
  {
    var total := (m.success + m.failure + m.deadLettered) as real;
    if total != 0.0 {
      ProportionOf(m.success as real, total);
      ProportionOf((m.failure + m.deadLettered) as real, total);
      SharesAddUp(m.success as real, (m.failure + m.deadLettered) as real, total);
    }
  }

  // ----- what the metrics count -----

  ghost function Having(jobs: seq<JobRecord>, status: JobStatus): set<nat> {
    set i: nat | i < |jobs| && jobs[i].status == status
  }

  lemma HavingAt(front: seq<JobRecord>, last: JobRecord, status: JobStatus, i: nat)
    ensures i in Having(front + [last], status) <==>
              i in Having(front, status) || (i == |front| && last.status == status)
  {
    if i < |front| {
      assert (front + [last])[i] == front[i];
    }
  }

  lemma HavingNext(front: seq<JobRecord>, last: JobRecord, status: JobStatus)
    ensures |Having(front + [last], status)| == |Having(front, status)| + if last.status == status then 1 else 0
  {
    var more := if last.status == status then {|front|} else {};
    forall i: nat ensures i in Having(front + [last], status) <==> i in Having(front, status) + more {
      HavingAt(front, last, status, i);
    }
    assert Having(front + [last], status) == Having(front, status) + more;
    assert |front| !in Having(front, status);
  }

  lemma CountStatusNext(front: seq<JobRecord>, last: JobRecord, status: JobStatus)
    ensures CountStatus(front + [last], status) == CountStatus(front, status) + if last.status == status then 1 else 0
  {
    CountOfConcat(front, [last], (job: JobRecord) => job.status == status);
    assert [last][1..] == [];
  }

  lemma {:induction false} CountIsHaving(jobs: seq<JobRecord>, status: JobStatus)
    ensures CountStatus(jobs, status) == |Having(jobs, status)|
  {
    if jobs == [] {
      assert Having(jobs, status) == {};
    } else {
      var front, last := jobs[..|jobs| - 1], jobs[|jobs| - 1];
      CountIsHaving(front, status);
      HavingNext(front, last, status);
      CountStatusNext(front, last, status);
      assert jobs == front + [last];
    }
  }

  /** The latencies are the times from creation to the end of the jobs that have an end. */
  lemma {:induction false} LatenciesMean(jobs: seq<JobRecord>, x: int)
    ensures x in Latencies(jobs) <==>
              exists job :: job in jobs && job.processedAt.Some? && x == job.processedAt.value - job.createdAt
  {
    if jobs == [] {
    } else {
      LatenciesMean(jobs[1..], x);
    }
  }

  /** The metrics count the jobs by their statuses, take the median and the 95th percentile of the latencies, and relate
      running jobs to running and queued ones. */
  lemma MetricsMean(jobs: seq<JobRecord>)
    ensures var m := Metrics(jobs);
            && m.success == |Having(jobs, Succeeded)| && m.failure == |Having(jobs, Failed)|
            && m.deadLettered == |Having(jobs, DeadLettered)|
            && m.retries == SumOfRetries(jobs) + NeverAttempted(jobs)
            && m.p50 == LatencyPercentile(jobs, 50) && m.p95 == LatencyPercentile(jobs, 95)
            && m.utilization == Utilization(|Having(jobs, Running)|, |Having(jobs, Queued)|)
  {
    CountIsHaving(jobs, Succeeded);
    CountIsHaving(jobs, Failed);
    CountIsHaving(jobs, DeadLettered);
    CountIsHaving(jobs, Running);
    CountIsHaving(jobs, Queued);
    RetryCounts(jobs);
  }

  // ----- percentiles -----

  lemma RoundIsNearest(a: int)
    ensures -50 <= 100 * RoundHundredths(a) - a <= 50
    ensures a % 100 == 50 ==> RoundHundredths(a) % 2 == 0
  {
  }

  lemma RoundIsMonotone(a: int, b: int)
    requires a <= b
    ensures RoundHundredths(a) <= RoundHundredths(b)
  {
    RoundIsNearest(a);
    RoundIsNearest(b);
  }

  lemma Scaled(n: nat, a: nat, b: nat)
    requires a <= b
    ensures n * a <= n * b
  {
  }

  /** The index k is within one half of the exact rank (count - 1) * p / 100. */
  predicate NearRank(count: nat, p: nat, k: int) {
    -50 <= 100 * k - (count - 1) * p <= 50
  }

  /** The index lies in the list, within one half of the exact rank. */
  lemma IndexInRange(count: nat, p: nat)
    requires count > 0 && p <= 100
    ensures 0 <= PercentileIndex(count, p) < count && NearRank(count, p, PercentileIndex(count, p))
  {
    Scaled(count - 1, 0, p);
    Scaled(count - 1, p, 100);
    RoundIsMonotone(0, (count - 1) * p);
    RoundIsMonotone((count - 1) * p, (count - 1) * 100);
    RoundIsNearest((count - 1) * p);
  }

  lemma IndexIsMonotone(count: nat, p: nat, q: nat)
    requires count > 0 && p <= q
    ensures PercentileIndex(count, p) <= PercentileIndex(count, q)
  {
    Scaled(count - 1, p, q);
    RoundIsMonotone((count - 1) * p, (count - 1) * q);
  }

  function AtMost(v: int): int -> bool {
    (x: int) => x <= v
  }

  function AtLeast(v: int): int -> bool {
    (x: int) => x >= v
  }

  lemma ValuesOrdered(values: seq<int>)
    requires Ordered(values, ByValue())
    ensures forall i, j :: 0 <= i < j < |values| ==> values[i] <= values[j]
  {
    forall i, j | 0 <= i < j < |values| ensures values[i] <= values[j] {
      assert !Before(ByValue()(values[j]), ByValue()(values[i]));
    }
  }

  lemma ManyAtMost(values: seq<int>, k: nat, v: int)
    requires k < |values| && forall i :: 0 <= i <= k ==> values[i] <= v
    ensures Count(values, AtMost(v)) >= k + 1
  {
    assert values == values[..k + 1] + values[k + 1..];
    CountOfConcat(values[..k + 1], values[k + 1..], AtMost(v));
    CountAll(values[..k + 1], AtMost(v));
  }

  lemma ManyAtLeast(values: seq<int>, k: nat, v: int)
    requires k < |values| && forall i :: k <= i < |values| ==> values[i] >= v
    ensures Count(values, AtLeast(v)) >= |values| - k
  {
    assert values == values[..k] + values[k..];
    CountOfConcat(values[..k], values[k..], AtLeast(v));
    CountAll(values[k..], AtLeast(v));
  }

  /** In an ordered list, at least k + 1 values are no greater than the one at k, and at least n - k no smaller. */
  lemma RankInOrdered(values: seq<int>, k: nat)
    requires Ordered(values, ByValue()) && k < |values|
    ensures Count(values, AtMost(values[k])) >= k + 1
    ensures Count(values, AtLeast(values[k])) >= |values| - k
  {
    ValuesOrdered(values);
    ManyAtMost(values, k, values[k]);
    ManyAtLeast(values, k, values[k]);
  }

  lemma RankInUnordered(all: seq<int>, values: seq<int>, k: nat)
    requires multiset(all) == multiset(values) && Ordered(values, ByValue()) && k < |values|
    ensures values[k] in all
    ensures Count(all, AtMost(values[k])) >= k + 1
    ensures Count(all, AtLeast(values[k])) >= |values| - k
  {
    RankInOrdered(values, k);
    CountOfPermutation(all, values, AtMost(values[k]));
    CountOfPermutation(all, values, AtLeast(values[k]));
    assert values[k] in multiset(values);
  }

  lemma PercentileOfOrdered(all: seq<int>, values: seq<int>, p: nat)
    requires multiset(all) == multiset(values) && Ordered(values, ByValue()) && values != [] && p <= 100
    ensures var k := PercentileIndex(|values|, p);
            && 0 <= k < |values| && values[k] in all
            && Count(all, AtMost(values[k])) >= k + 1 && Count(all, AtLeast(values[k])) >= |values| - k
  {
    IndexInRange(|values|, p);
    RankInUnordered(all, values, PercentileIndex(|values|, p));
  }

  /** A latency percentile is a latency of the right rank: some k within one half of (n - 1) * p / 100 has at
      least k + 1 latencies at or below the result and at least n - k at or above it. */
  lemma PercentileHasRank(jobs: seq<JobRecord>, p: nat)
    requires p <= 100 && Latencies(jobs) != []
    ensures var all, v := Latencies(jobs), LatencyPercentile(jobs, p);
            var k := PercentileIndex(|all|, p);
            && v in all
            && 0 <= k < |all| && NearRank(|all|, p, k)
            && Count(all, AtMost(v)) >= k + 1 && Count(all, AtLeast(v)) >= |all| - k
  {
    var all := Latencies(jobs);
    var values := SortBy(all, ByValue());
    SortByIsStable(all, ByValue());
    PercentileOfOrdered(all, values, p);
    IndexInRange(|values|, p);
  }

  lemma PercentileGrows(jobs: seq<JobRecord>, p: nat, q: nat)
    requires p <= q <= 100
    ensures LatencyPercentile(jobs, p) <= LatencyPercentile(jobs, q)
  {
    var values := SortBy(Latencies(jobs), ByValue());
    if values != [] {
      SortByIsStable(Latencies(jobs), ByValue());
      IndexIsMonotone(|values|, p, q);
      IndexInRange(|values|, p);
      IndexInRange(|values|, q);
      var i, j := PercentileIndex(|values|, p), PercentileIndex(|values|, q);
      assert i < j ==> !Before(ByValue()(values[j]), ByValue()(values[i]));
    }
  }

  /** A higher percentile is never a smaller latency; in particular p50 <= p95. */
  lemma PercentilesOrdered(jobs: seq<JobRecord>, p: nat, q: nat)
    requires p <= q <= 100
    ensures LatencyPercentile(jobs, p) <= LatencyPercentile(jobs, q)
    ensures Metrics(jobs).p50 <= Metrics(jobs).p95
  {
    PercentileGrows(jobs, p, q);
    PercentileGrows(jobs, 50, 95);
  }

  // ----- reports on reachable states -----

  lemma {:induction false} LatenciesInOrder(jobs: seq<JobRecord>, clock: Time)
    requires forall job :: job in jobs ==> Lifecycle.JobOk(job, clock)
    ensures |Latencies(jobs)| ==
            CountStatus(jobs, Succeeded) + CountStatus(jobs, DeadLettered) + CountStatus(jobs, Cancelled)
    ensures forall x :: x in Latencies(jobs) ==> x >= 0
  {
    if jobs == [] {
    } else {
      assert Lifecycle.JobOk(jobs[0], clock);
      LatenciesInOrder(jobs[1..], clock);
    }
  }

  lemma ListedCount(r: Repo)
    requires Listed(r)
    ensures |r.order| == |r.jobs|
  {
    DistinctCount(r.order);
    assert Elements(r.order) == r.jobs.Keys;
  }

  /** In every reachable state there is one latency per terminal job, none negative, and the percentiles follow. */
  lemma ReportsOfRuns(events: seq<Lifecycle.Event>)
    requires Lifecycle.Admissible(Lifecycle.START, events)
    ensures var repo := Lifecycle.Run(Lifecycle.START, events).repo;
            WellFormed(repo) &&
            var jobs := Records(repo);
            && |repo.jobs| ==
               |Latencies(jobs)| + CountStatus(jobs, Queued) + CountStatus(jobs, Failed) + CountStatus(jobs, Running)
            && (forall x :: x in Latencies(jobs) ==> x >= 0)
            && 0 <= Metrics(jobs).p50 <= Metrics(jobs).p95
  {
    Lifecycle.StartInv();
    Lifecycle.RunKeepsInv(Lifecycle.START, events);
    var s := Lifecycle.Run(Lifecycle.START, events);
    var jobs := Records(s.repo);
    LatenciesInOrder(jobs, s.clock);
    StatusesPartition(jobs);
    PercentilesOrdered(jobs, 50, 95);
    if Latencies(jobs) != [] {
      PercentileHasRank(jobs, 50);
    }
    ListedCount(s.repo);
  }
}
