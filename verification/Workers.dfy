// The worker's loop: poll, republish due jobs, process the batch by topic rank (app/worker.py).
module Workers {
  import opened Core
  import opened Jobs
  import opened Ordering
  import opened MemoryRepository
  import opened Queue
  import opened Service

  // ----- topic ranks -----

  predicate DistinctTopics(t: Topics) {
    && t.high != t.default && t.high != t.low && t.high != t.retry
    && t.default != t.low && t.default != t.retry && t.low != t.retry
  }

  /** A dict literal: when two topics share a name, the later entry wins. */
  function TopicRank(t: Topics, topic: string): int {
    var ranks := map[t.high := 0][t.default := 1][t.retry := 2][t.low := 3];
    if topic in ranks then ranks[topic] else 99
  }

  /** With distinct topics a priority of 8 or more ranks first and 0 last, and a higher priority never ranks later,
      except that 0 ranks behind negative priorities. */
  lemma RankIsAntitone(t: Topics, p: int, q: int)
    requires DistinctTopics(t) && p <= q
    ensures TopicRank(t, TopicForPriority(t, p)) == 0 <==> p >= 8
    ensures TopicRank(t, TopicForPriority(t, p)) == 3 <==> p == 0
    ensures TopicRank(t, TopicForPriority(t, p)) >= TopicRank(t, TopicForPriority(t, q)) <==> !(p < 0 && q == 0)
  {
  }

  datatype Message = Message(topic: string, job: JobId)

  function RankKey(t: Topics): Message -> Key {
    (m: Message) => (TopicRank(t, m.topic), 0)
  }

  function Batch(t: Topics, messages: seq<Message>): seq<Message> {
    SortBy(messages, RankKey(t))
  }

  /** The message of a job of priority `p` is published on this topic. */
  predicate PublishedFor(t: Topics, m: Message, p: int) {
    m.topic == TopicForPriority(t, p) && 0 <= p <= 10
  }

  /** A batch is the polled messages in stable order of rank; among messages published for accepted priorities,
      none of a lower band comes before one of a higher band, and a band's messages keep their order. */
  lemma BatchIsOrdered(t: Topics, messages: seq<Message>)
    requires DistinctTopics(t)
    ensures StableSortOf(messages, Batch(t, messages), RankKey(t))
    ensures multiset(Batch(t, messages)) == multiset(messages)
    ensures forall i, j, p, q ::
              (&& 0 <= i < j < |Batch(t, messages)|
               && PublishedFor(t, Batch(t, messages)[i], p) && PublishedFor(t, Batch(t, messages)[j], q)
               && TopicForPriority(t, p) != TopicForPriority(t, q)) ==> p > q
  {
    var batch, key := Batch(t, messages), RankKey(t);
    SortByIsStable(messages, key);
    forall i, j, p, q | 0 <= i < j < |batch| && PublishedFor(t, batch[i], p) && PublishedFor(t, batch[j], q)
                        && TopicForPriority(t, p) != TopicForPriority(t, q)
      ensures p > q
    {
      assert !Before(key(batch[j]), key(batch[i]));
    }
  }

  // ----- the loop -----

  /** One poll: its messages by partition, what the iteration takes from outside (one entry per message, in the
      order of processing), and whether a stop signal came meanwhile. */
  datatype Poll = Poll(partitions: seq<seq<Message>>, dueAt: Time, surroundings: seq<Surroundings>, stop: bool)

  datatype Settings = Settings(topics: Topics, workerId: string, batchSize: nat)

  function Flatten<T>(parts: seq<seq<T>>): seq<T> {
    if parts == [] then [] else parts[0] + Flatten(parts[1..])
  }

  /** Partition after partition, each with its own messages in order. */
  lemma {:induction false} FlattenInOrder<T>(front: seq<seq<T>>, part: seq<T>, back: seq<seq<T>>)
    ensures Flatten(front + [part] + back) == Flatten(front) + part + Flatten(back)
  {
    if front == [] {
      assert [part] + back == front + [part] + back && ([part] + back)[1..] == back;
    } else {
      assert (front + [part] + back)[1..] == front[1..] + [part] + back;
      FlattenInOrder(front[1..], part, back);
    }
  }

  /** Processing stops at the first exception, which leaves the loop. */
  function ProcessMessages(w: World, messages: seq<Message>, worker: string, s: seq<Surroundings>): (World, Result<()>)
    requires |messages| == |s|
    decreases |messages|
  {
    if messages == [] then (w, Ok(()))
    else
      var (after, r) := Process(w, messages[0].job, worker, s[0]);
      if r.Err? then (after, Err(r.error)) else ProcessMessages(after, messages[1..], worker, s[1..])
  }

  function BatchOf(settings: Settings, poll: Poll): (batch: seq<Message>)
    ensures |batch| == |Flatten(poll.partitions)|
  {
    SortByIsStable(Flatten(poll.partitions), RankKey(settings.topics));
    Batch(settings.topics, Flatten(poll.partitions))
  }

  predicate Supplied(poll: Poll) {
    |poll.surroundings| == |Flatten(poll.partitions)|
  }

  /** One iteration: due jobs are republished before the batch is processed. */
  function Iterate(w: World, settings: Settings, poll: Poll): (World, Result<()>)
    requires Supplied(poll) && forall id :: id in w.repo.order ==> id in w.repo.jobs
  {
    var (log, sent) := PublishAll(w.log, Due(w.repo, settings.batchSize, poll.dueAt));
    if sent.Err? then (World(w.repo, log), sent)
    else ProcessMessages(World(w.repo, log), BatchOf(settings, poll), settings.workerId, poll.surroundings)
  }

  // ----- fresh ids -----

  ghost predicate Fresh(keys: set<JobId>, s: seq<Surroundings>) {
    && (forall i :: 0 <= i < |s| ==> s[i].freshId !in keys)
    && (forall i, j :: 0 <= i < j < |s| ==> s[i].freshId != s[j].freshId)
  }

  ghost function FreshIds(s: seq<Surroundings>): set<JobId> {
    set i | 0 <= i < |s| :: s[i].freshId
  }

  lemma FailAddsNothing(w: World, job: JobRecord, failure: Failure, now: Time)
    requires WellFormed(w.repo)
    ensures var after := FailAttempt(w, job, failure, now).0.repo;
            WellFormed(after) && after.jobs.Keys == w.repo.jobs.Keys
  {
    PutKeepsWellFormed(w.repo, job.id);
  }

  lemma RecurAddsFresh(w: World, job: JobRecord, record: JobRecord, s: Surroundings)
    requires WellFormed(w.repo) && s.freshId !in w.repo.jobs
    ensures var after := RecurAttempt(w, job, record, s).0.repo;
            WellFormed(after) && w.repo.jobs.Keys <= after.jobs.Keys <= w.repo.jobs.Keys + {s.freshId}
  {
    var (recurred, next) := CreateNext(w.repo, record, s.freshId, s.recurAt);
    match next
    case Err(e) => FailAddsNothing(World(recurred, w.log), job, Raised(e), s.failAt);
    case Ok(None) =>
    case Ok(Some(child)) => AddKeepsWellFormed(w.repo, s.freshId, child);
  }

  lemma FinishAddsFresh(w: World, job: JobRecord, result: Payload, s: Surroundings)
    requires WellFormed(w.repo) && s.freshId !in w.repo.jobs
    ensures var after := FinishAttempt(w, job, result, s).0.repo;
            WellFormed(after) && w.repo.jobs.Keys <= after.jobs.Keys <= w.repo.jobs.Keys + {s.freshId}
  {
    PutKeepsWellFormed(w.repo, job.id);
    var (marked, succeeded) := Succeed(w.repo, job.id, result, s.succeedAt);
    match succeeded
    case Err(e) => FailAddsNothing(World(marked, w.log), job, Raised(e), s.failAt);
    case Ok(record) => RecurAddsFresh(World(marked, w.log), job, record, s);
  }

  /** An attempt creates at most the job with its fresh id, and keeps the repository well formed. */
  lemma ProcessAddsFresh(w: World, id: JobId, worker: string, s: Surroundings)
    requires WellFormed(w.repo) && s.freshId !in w.repo.jobs
    ensures var after := Process(w, id, worker, s).0.repo;
            WellFormed(after) && w.repo.jobs.Keys <= after.jobs.Keys <= w.repo.jobs.Keys + {s.freshId}
  {
    var (repo, claimed) := Claim(w.repo, id, worker, s.claimAt);
    PutKeepsWellFormed(w.repo, id);
    if claimed.Some? && claimed.value.handler in HANDLERS {
      var started, job := World(repo, w.log), claimed.value;
      match s.outcome
      case Raising(message) => FailAddsNothing(started, job, HandlerFailed(message), s.failAt);
      case Returned(result) => FinishAddsFresh(started, job, result, s);
    }
  }

  lemma FreshTail(keys: set<JobId>, after: set<JobId>, s: seq<Surroundings>)
    requires s != [] && Fresh(keys, s) && after <= keys + {s[0].freshId}
    ensures Fresh(after, s[1..])
    ensures FreshIds(s) == {s[0].freshId} + FreshIds(s[1..])
  {
    assert s == [s[0]] + s[1..];
    forall id | id in FreshIds(s) ensures id in {s[0].freshId} + FreshIds(s[1..]) {
      var i :| 0 <= i < |s| && s[i].freshId == id;
      assert i > 0 ==> s[1..][i - 1].freshId == id;
    }
    forall id | id in FreshIds(s[1..]) ensures id in FreshIds(s) {
      var i :| 0 <= i < |s[1..]| && s[1..][i].freshId == id;
      assert s[i + 1].freshId == id;
    }
  }

  lemma {:induction false} MessagesAddFresh(w: World, messages: seq<Message>, worker: string, s: seq<Surroundings>)
    requires |messages| == |s| && WellFormed(w.repo) && Fresh(w.repo.jobs.Keys, s)
    ensures var after := ProcessMessages(w, messages, worker, s).0.repo;
            WellFormed(after) && after.jobs.Keys <= w.repo.jobs.Keys + FreshIds(s)
    decreases |messages|
  {
    if messages == [] {
    } else {
      ProcessAddsFresh(w, messages[0].job, worker, s[0]);
      var after := Process(w, messages[0].job, worker, s[0]).0;
      FreshTail(w.repo.jobs.Keys, after.repo.jobs.Keys, s);
      MessagesAddFresh(after, messages[1..], worker, s[1..]);
    }
  }

  /** Each iteration's ids are new, to the repository and to the iterations before. */
  ghost predicate FreshPolls(keys: set<JobId>, polls: seq<Poll>)
    decreases |polls|
  {
    polls == [] ||
    (&& Supplied(polls[0]) && Fresh(keys, polls[0].surroundings)
     && FreshPolls(keys + FreshIds(polls[0].surroundings), polls[1..]))
  }

  lemma {:induction false} FewerKeys(keys: set<JobId>, fewer: set<JobId>, polls: seq<Poll>)
    requires FreshPolls(keys, polls) && fewer <= keys
    ensures FreshPolls(fewer, polls)
    decreases |polls|
  {
    if polls == [] {
    } else {
      FewerKeys(keys + FreshIds(polls[0].surroundings), fewer + FreshIds(polls[0].surroundings), polls[1..]);
    }
  }

  lemma IterateKeeps(w: World, settings: Settings, poll: Poll)
    requires WellFormed(w.repo) && Supplied(poll) && Fresh(w.repo.jobs.Keys, poll.surroundings)
    ensures var after := Iterate(w, settings, poll).0.repo;
            WellFormed(after) && after.jobs.Keys <= w.repo.jobs.Keys + FreshIds(poll.surroundings)
  {
    var (log, sent) := PublishAll(w.log, Due(w.repo, settings.batchSize, poll.dueAt));
    MessagesAddFresh(World(w.repo, log), BatchOf(settings, poll), settings.workerId, poll.surroundings);
  }

  lemma NextPollsFresh(w: World, settings: Settings, polls: seq<Poll>)
    requires WellFormed(w.repo) && polls != [] && FreshPolls(w.repo.jobs.Keys, polls)
    ensures var after := Iterate(w, settings, polls[0]).0.repo;
            WellFormed(after) && FreshPolls(after.jobs.Keys, polls[1..])
  {
    IterateKeeps(w, settings, polls[0]);
    var after := Iterate(w, settings, polls[0]).0.repo;
    FewerKeys(w.repo.jobs.Keys + FreshIds(polls[0].surroundings), after.jobs.Keys, polls[1..]);
  }

  /** The loop over the polls it gets to see, until a signal or an exception. */
  ghost function Loop(w: World, settings: Settings, polls: seq<Poll>): (World, Result<()>)
    requires WellFormed(w.repo) && FreshPolls(w.repo.jobs.Keys, polls)
    decreases |polls|
  {
    if polls == [] then (w, Ok(()))
    else
      NextPollsFresh(w, settings, polls);
      var (after, r) := Iterate(w, settings, polls[0]);
      if r.Err? || polls[0].stop then (after, r) else Loop(after, settings, polls[1..])
  }

  lemma LoopNext(w: World, settings: Settings, polls: seq<Poll>, i: nat)
    requires i < |polls| && WellFormed(w.repo) && FreshPolls(w.repo.jobs.Keys, polls[i..])
    ensures Supplied(polls[i]) && Fresh(w.repo.jobs.Keys, polls[i].surroundings)
    ensures var (after, r) := Iterate(w, settings, polls[i]);
            && WellFormed(after.repo) && FreshPolls(after.repo.jobs.Keys, polls[i + 1..])
            && Loop(w, settings, polls[i..]) ==
               if r.Err? || polls[i].stop then (after, r) else Loop(after, settings, polls[i + 1..])
  {
    assert polls[i..][0] == polls[i] && polls[i..][1..] == polls[i + 1..];
    NextPollsFresh(w, settings, polls[i..]);
  }

  // ----- what the loop passes through -----

  /** Up to `n` steps are taken, from one world to the next, each with an answer, until one raises or it is time to
      stop; what the last one raises is raised. */
  ghost predicate GoesThrough<T(!new)>(worlds: seq<World>, answers: seq<Result<T>>, r: Result<()>, n: nat,
        step: (nat, World, Result<T>, World) -> bool, stop: nat -> bool)
  {
    && |worlds| == |answers| + 1 && |answers| <= n
    && (forall i :: 0 <= i < |answers| ==> step(i, worlds[i], answers[i], worlds[i + 1]))
    && (forall i :: 0 <= i < |answers| - 1 ==> answers[i].Ok? && !stop(i))
    && if answers != [] && answers[|answers| - 1].Err? then r == Err(answers[|answers| - 1].error)
       else r == Ok(()) && (|answers| == n || (answers != [] && stop(|answers| - 1)))
  }

  ghost predicate Goes<T(!new)>(w: World, w': World, r: Result<()>, n: nat,
        step: (nat, World, Result<T>, World) -> bool, stop: nat -> bool)
  {
    exists worlds, answers ::
      GoesThrough(worlds, answers, r, n, step, stop) && worlds[0] == w && worlds[|answers|] == w'
  }

  /** The call for message `i` of a batch does what `process_job` does with its job. */
  ghost function CallFor(batch: seq<Message>, worker: string, s: seq<Surroundings>)
    : (nat, World, Result<Option<JobRecord>>, World) -> bool
  {
    (i: nat, w: World, a: Result<Option<JobRecord>>, w': World) =>
      i < |batch| && i < |s| && ProcessedJob(w, w', a, batch[i].job, worker, s[i])
  }

  ghost function Never(): nat -> bool {
    (i: nat) => false
  }

  /** A batch is processed message by message in its order, all of it or up to the first exception. */
  ghost predicate BatchTaken(w: World, w': World, r: Result<()>, batch: seq<Message>, worker: string,
        s: seq<Surroundings>)
  {
    Goes(w, w', r, |batch|, CallFor(batch, worker, s), Never())
  }

  /** With the producer up the first due jobs are announced; with it down, that raises if there is any. */
  ghost predicate Republished(w: World, w': World, r: Result<()>, limit: nat, now: Time) {
    && w'.repo == w.repo && w'.log == w.log.(published := w'.log.published)
    && exists due: seq<JobRecord> ::
         && FirstDue(w.repo, due, limit, now)
         && if w.log.available || due == [] then r == Ok(()) && AllAnnounced(w.log.published, w'.log.published, due)
            else r == Err(DependencyUnavailable) && w' == w
  }

  /** One iteration republishes what is due before it, and then processes what it polled, best rank first, messages of
      equal rank as they came; when republishing raises, nothing is processed. */
  ghost predicate IterationTaken(w: World, w': World, r: Result<()>, settings: Settings, poll: Poll) {
    exists sent: World, published: Result<()> ::
      && Republished(w, sent, published, settings.batchSize, poll.dueAt)
      && if published.Err? then w' == sent && r == published
         else
           exists batch: seq<Message> ::
             && StableSortOf(Flatten(poll.partitions), batch, RankKey(settings.topics))
             && BatchTaken(sent, w', r, batch, settings.workerId, poll.surroundings)
  }

  ghost function IterationFor(settings: Settings, polls: seq<Poll>): (nat, World, Result<()>, World) -> bool {
    (i: nat, w: World, a: Result<()>, w': World) => i < |polls| && IterationTaken(w, w', a, settings, polls[i])
  }

  function StopAt(polls: seq<Poll>): nat -> bool {
    (i: nat) => i < |polls| && polls[i].stop
  }

  /** The loop takes one poll after the other, until a stop signal has come, an iteration has raised, or there is no
      poll left. */
  ghost predicate PollsTaken(w: World, w': World, r: Result<()>, settings: Settings, polls: seq<Poll>) {
    Goes(w, w', r, |polls|, IterationFor(settings, polls), StopAt(polls))
  }

  lemma GoesNowhere<T(!new)>(w: World, step: (nat, World, Result<T>, World) -> bool, stop: nat -> bool)
    ensures Goes(w, w, Ok(()), 0, step, stop)
  {
    assert GoesThrough([w], [], Ok(()), 0, step, stop);
  }

  lemma GoesOnce<T(!new)>(w: World, a: Result<T>, w': World, n: nat, step: (nat, World, Result<T>, World) -> bool,
                          stop: nat -> bool)
    requires n > 0 && step(0, w, a, w') && (a.Err? || stop(0))
    ensures Goes(w, w', if a.Err? then Err(a.error) else Ok(()), n, step, stop)
  {
    assert GoesThrough([w, w'], [a], if a.Err? then Err(a.error) else Ok(()), n, step, stop);
  }

  lemma StepsOn<T(!new)>(w: World, a: Result<T>, worlds: seq<World>, answers: seq<Result<T>>,
                         step: (nat, World, Result<T>, World) -> bool, later: (nat, World, Result<T>, World) -> bool)
    requires |worlds| == |answers| + 1 && step(0, w, a, worlds[0])
    requires forall i :: 0 <= i < |answers| ==> later(i, worlds[i], answers[i], worlds[i + 1])
    requires forall i: nat, u, b, v :: later(i, u, b, v) ==> step(i + 1, u, b, v)
    ensures var all, told := [w] + worlds, [a] + answers;
            forall i :: 0 <= i < |told| ==> step(i, all[i], told[i], all[i + 1])
  {
    var all, told := [w] + worlds, [a] + answers;
    forall i | 0 <= i < |told| ensures step(i, all[i], told[i], all[i + 1]) {
      assert i > 0 ==> later(i - 1, worlds[i - 1], answers[i - 1], worlds[i]);
    }
  }

  lemma NoStopOn<T(!new)>(a: Result<T>, answers: seq<Result<T>>, stop: nat -> bool, stopLater: nat -> bool)
    requires a.Ok? && !stop(0) && forall i: nat :: stopLater(i) <==> stop(i + 1)
    requires forall i :: 0 <= i < |answers| - 1 ==> answers[i].Ok? && !stopLater(i)
    ensures forall i :: 0 <= i < |answers| ==> ([a] + answers)[i].Ok? && !stop(i)
    ensures answers != [] ==> (stopLater(|answers| - 1) <==> stop(|answers|))
  {
    forall i | 0 <= i < |answers| ensures ([a] + answers)[i].Ok? && !stop(i) {
      assert i > 0 ==> answers[i - 1].Ok? && !stopLater(i - 1);
    }
  }

  lemma ThroughOn<T(!new)>(w: World, a: Result<T>, worlds: seq<World>, answers: seq<Result<T>>, r: Result<()>, n: nat,
                           step: (nat, World, Result<T>, World) -> bool, stop: nat -> bool,
                           later: (nat, World, Result<T>, World) -> bool, stopLater: nat -> bool)
    requires n > 0 && GoesThrough(worlds, answers, r, n - 1, later, stopLater)
    requires a.Ok? && !stop(0) && step(0, w, a, worlds[0])
    requires forall i: nat, u, b, v :: later(i, u, b, v) ==> step(i + 1, u, b, v)
    requires forall i: nat :: stopLater(i) <==> stop(i + 1)
    ensures GoesThrough([w] + worlds, [a] + answers, r, n, step, stop)
  {
    StepsOn(w, a, worlds, answers, step, later);
    NoStopOn(a, answers, stop, stopLater);
  }

  lemma GoesOn<T(!new)>(w: World, a: Result<T>, mid: World, w': World, r: Result<()>, n: nat,
                        step: (nat, World, Result<T>, World) -> bool, stop: nat -> bool,
                        later: (nat, World, Result<T>, World) -> bool, stopLater: nat -> bool)
    requires n > 0 && a.Ok? && !stop(0) && step(0, w, a, mid) && Goes(mid, w', r, n - 1, later, stopLater)
    requires forall i: nat, u, b, v :: later(i, u, b, v) ==> step(i + 1, u, b, v)
    requires forall i: nat :: stopLater(i) <==> stop(i + 1)
    ensures Goes(w, w', r, n, step, stop)
  {
    var worlds: seq<World>, answers: seq<Result<T>> :|
      GoesThrough(worlds, answers, r, n - 1, later, stopLater) && worlds[0] == mid && worlds[|answers|] == w';
    ThroughOn(w, a, worlds, answers, r, n, step, stop, later, stopLater);
  }

  lemma LaterCalls(batch: seq<Message>, worker: string, s: seq<Surroundings>)
    requires |batch| == |s| && batch != []
    ensures forall i: nat, u, b, v ::
              CallFor(batch[1..], worker, s[1..])(i, u, b, v) ==> CallFor(batch, worker, s)(i + 1, u, b, v)
  {
    assert forall i: nat :: i < |batch[1..]| ==> batch[1..][i] == batch[i + 1] && s[1..][i] == s[i + 1];
  }

  lemma CallTaken(w: World, batch: seq<Message>, worker: string, s: seq<Surroundings>)
    requires batch != [] && |batch| == |s| && WellFormed(w.repo) && s[0].freshId !in w.repo.jobs
    ensures var (mid, a) := Process(w, batch[0].job, worker, s[0]); CallFor(batch, worker, s)(0, w, a, mid)
  {
    ProcessInColumns(w, batch[0].job, worker, s[0]);
  }

  lemma {:induction false} MessagesTaken(w: World, messages: seq<Message>, worker: string, s: seq<Surroundings>)
    requires |messages| == |s| && WellFormed(w.repo) && Fresh(w.repo.jobs.Keys, s)
    ensures var (w', r) := ProcessMessages(w, messages, worker, s); BatchTaken(w, w', r, messages, worker, s)
    decreases |messages|
  {
    var step := CallFor(messages, worker, s);
    if messages == [] {
      GoesNowhere(w, step, Never());
    } else {
      CallTaken(w, messages, worker, s);
      var (mid, a) := Process(w, messages[0].job, worker, s[0]);
      if a.Err? {
        GoesOnce(w, a, mid, |messages|, step, Never());
      } else {
        ProcessAddsFresh(w, messages[0].job, worker, s[0]);
        FreshTail(w.repo.jobs.Keys, mid.repo.jobs.Keys, s);
        MessagesTaken(mid, messages[1..], worker, s[1..]);
        var (w', r) := ProcessMessages(mid, messages[1..], worker, s[1..]);
        LaterCalls(messages, worker, s);
        var later := CallFor(messages[1..], worker, s[1..]);
        GoesOn(w, a, mid, w', r, |messages|, step, Never(), later, Never());
      }
    }
  }

  lemma DueRepublished(w: World, limit: nat, now: Time)
    requires WellFormed(w.repo)
    ensures var (log, sent) := PublishAll(w.log, Due(w.repo, limit, now));
            Republished(w, World(w.repo, log), sent, limit, now)
  {
    var due := Due(w.repo, limit, now);
    DueIsFirstDue(w.repo, limit, now);
    PublishAllSends(w.log, due);
    EventsAnnounce(w.log.published, due);
    assert due == [] ==> PublishAll(w.log, due) == (w.log, Ok(()));
  }

  lemma IterateTaken(w: World, settings: Settings, poll: Poll)
    requires WellFormed(w.repo) && Supplied(poll) && Fresh(w.repo.jobs.Keys, poll.surroundings)
    ensures var (w', r) := Iterate(w, settings, poll); IterationTaken(w, w', r, settings, poll)
  {
    DueRepublished(w, settings.batchSize, poll.dueAt);
    var (log, sent) := PublishAll(w.log, Due(w.repo, settings.batchSize, poll.dueAt));
    if sent.Ok? {
      SortByIsStable(Flatten(poll.partitions), RankKey(settings.topics));
      MessagesTaken(World(w.repo, log), BatchOf(settings, poll), settings.workerId, poll.surroundings);
    }
  }

  lemma LaterPolls(settings: Settings, polls: seq<Poll>)
    requires polls != []
    ensures forall i: nat, u, b, v ::
              IterationFor(settings, polls[1..])(i, u, b, v) ==> IterationFor(settings, polls)(i + 1, u, b, v)
    ensures forall i: nat :: StopAt(polls[1..])(i) <==> StopAt(polls)(i + 1)
  {
    assert forall i: nat :: i < |polls[1..]| ==> polls[1..][i] == polls[i + 1];
  }

  lemma PollTaken(w: World, settings: Settings, polls: seq<Poll>)
    requires polls != [] && WellFormed(w.repo) && Supplied(polls[0]) && Fresh(w.repo.jobs.Keys, polls[0].surroundings)
    ensures var (mid, a) := Iterate(w, settings, polls[0]); IterationFor(settings, polls)(0, w, a, mid)
  {
    IterateTaken(w, settings, polls[0]);
  }

  lemma LastPollTaken(w: World, a: Result<()>, w': World, settings: Settings, polls: seq<Poll>)
    requires polls != [] && IterationFor(settings, polls)(0, w, a, w') && (a.Err? || polls[0].stop)
    ensures PollsTaken(w, w', a, settings, polls)
  {
    GoesOnce(w, a, w', |polls|, IterationFor(settings, polls), StopAt(polls));
  }

  lemma LaterPollsTaken(w: World, a: Result<()>, mid: World, w': World, r: Result<()>, settings: Settings,
                        polls: seq<Poll>)
    requires polls != [] && a.Ok? && !polls[0].stop && IterationFor(settings, polls)(0, w, a, mid)
    requires PollsTaken(mid, w', r, settings, polls[1..])
    ensures PollsTaken(w, w', r, settings, polls)
  {
    LaterPolls(settings, polls);
    var later, stopLater := IterationFor(settings, polls[1..]), StopAt(polls[1..]);
    GoesOn(w, a, mid, w', r, |polls|, IterationFor(settings, polls), StopAt(polls), later, stopLater);
  }

  lemma {:induction false} LoopTaken(w: World, settings: Settings, polls: seq<Poll>)
    requires WellFormed(w.repo) && FreshPolls(w.repo.jobs.Keys, polls)
    ensures var (w', r) := Loop(w, settings, polls); PollsTaken(w, w', r, settings, polls)
    decreases |polls|
  {
    if polls == [] {
      GoesNowhere(w, IterationFor(settings, polls), StopAt(polls));
    } else {
      NextPollsFresh(w, settings, polls);
      PollTaken(w, settings, polls);
      var (mid, a) := Iterate(w, settings, polls[0]);
      if a.Err? || polls[0].stop {
        LastPollTaken(w, a, mid, settings, polls);
      } else {
        LoopTaken(mid, settings, polls[1..]);
        var (w', r) := Loop(mid, settings, polls[1..]);
        LaterPollsTaken(w, a, mid, w', r, settings, polls);
      }
    }
  }

  class Worker {
    var running: bool
    const service: JobService
    const settings: Settings

    constructor (service: JobService, settings: Settings)
      ensures running && this.service == service && this.settings == settings
    {
      this.running, this.service, this.settings := true, service, settings;
    }

    method Stop()
      modifies this
      ensures !running
    {
      running := false;
    }

    method ProcessBatch(batch: seq<Message>, s: seq<Surroundings>) returns (r: Result<()>)
      requires service.repository.Valid() && |batch| == |s| && Fresh(service.repository.jobs.Keys, s)
      modifies service.repository, service.producer`deadLetters
      ensures service.repository.Valid()
      ensures (service.View(), r) == ProcessMessages(old(service.View()), batch, settings.workerId, s)
      ensures BatchTaken(old(service.View()), service.View(), r, batch, settings.workerId, s)
    {
      MessagesTaken(service.View(), batch, settings.workerId, s);
      for i := 0 to |batch|
        invariant service.repository.Valid() && Fresh(service.repository.jobs.Keys, s[i..])
        invariant ProcessMessages(old(service.View()), batch, settings.workerId, s) ==
                  ProcessMessages(service.View(), batch[i..], settings.workerId, s[i..])
      {
        ProcessAddsFresh(service.View(), batch[i].job, settings.workerId, s[i]);
        ghost var after := Process(service.View(), batch[i].job, settings.workerId, s[i]).0.repo;
        FreshTail(service.repository.jobs.Keys, after.jobs.Keys, s[i..]);
        assert batch[i..][1..] == batch[i + 1..] && s[i..][1..] == s[i + 1..];
        var _ :- service.ProcessJob(batch[i].job, settings.workerId, s[i]);
      }
      return Ok(());
    }

    method RunIteration(poll: Poll) returns (r: Result<()>)
      requires service.repository.Valid() && Supplied(poll) && Fresh(service.repository.jobs.Keys, poll.surroundings)
      modifies service.repository, service.producer
      ensures service.repository.Valid()
      ensures (service.View(), r) == Iterate(old(service.View()), settings, poll)
      ensures IterationTaken(old(service.View()), service.View(), r, settings, poll)
    {
      IterateTaken(service.View(), settings, poll);
      var _ :- service.PublishDueJobs(settings.batchSize, poll.dueAt);
      r := ProcessBatch(BatchOf(settings, poll), poll.surroundings);
    }

    method Run(polls: seq<Poll>) returns (r: Result<()>)
      requires running && service.repository.Valid() && FreshPolls(service.repository.jobs.Keys, polls)
      modifies this, service.repository, service.producer
      ensures service.repository.Valid()
      ensures (service.View(), r) == Loop(old(service.View()), settings, polls)
      ensures var before, after := old(service.View()), service.View(); PollsTaken(before, after, r, settings, polls)
    {
      LoopTaken(service.View(), settings, polls);
      ghost var outcome := Loop(service.View(), settings, polls);
      assert polls[0..] == polls;
      var i := 0;
      while running && i < |polls|
        invariant i <= |polls| && service.repository.Valid()
        invariant FreshPolls(service.repository.jobs.Keys, polls[i..])
        invariant outcome == if running then Loop(service.View(), settings, polls[i..]) else (service.View(), Ok(()))
        decreases |polls| - i
      {
        LoopNext(service.View(), settings, polls, i);
        ghost var (after, ended) := Iterate(service.View(), settings, polls[i]);
        var _ :- RunIteration(polls[i]);
        assert service.View() == after;
        if polls[i].stop {
          Stop();
        }
        i := i + 1;
      }
      return Ok(());
    }
  }
}
