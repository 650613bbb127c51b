// The worker's loop over the PostgreSQL repository, as the only one at work: it keeps step with the loop over the
// in-memory repository, and so with a run of the lifecycle model (app/worker.py:51-78).
module SqlWorkers {
  import opened Core
  import opened Jobs
  import opened MemoryRepository
  import opened Queue
  import opened Service
  import opened Workers
  import opened SqlTables
  import opened SqlRefinement
  import opened SqlService
  import opened Lifecycle
  import opened ServiceRuns
  import opened WorkerRuns

  /** One poll: its messages, the order in which the due scan returns its rows, the readings of the calls, and
      whether a stop signal came meanwhile. */
  datatype SqlPoll = SqlPoll(
    partitions: seq<seq<Message>>, dueAt: Time, all: seq<JobId>, calls: seq<SqlSurroundings>, stop: bool)

  function CallsOf(s: seq<SqlSurroundings>): (calls: seq<Surroundings>)
    ensures |calls| == |s|
    ensures forall i :: 0 <= i < |s| ==> calls[i] == s[i].call
  {
    seq(|s|, i requires 0 <= i < |s| => s[i].call)
  }

  function PollOf(p: SqlPoll): Poll {
    Poll(p.partitions, p.dueAt, CallsOf(p.calls), p.stop)
  }

  /** A call that raises leaves the loop; the value is what it raised. */
  predicate Raises(answer: Answer) {
    !(answer.Perhaps? && answer.found.Ok?)
  }

  predicate CoversCalls(late: set<JobId>, s: seq<SqlSurroundings>) {
    forall i :: 0 <= i < |s| ==> CoversCall(late, s[i])
  }

  predicate CoversPolls(late: set<JobId>, polls: seq<SqlPoll>) {
    forall i :: 0 <= i < |polls| ==> CoversCalls(late, polls[i].calls)
  }

  // ----- a batch -----

  function SqlMessages(v: SqlWorld, messages: seq<Message>, worker: string, s: seq<SqlSurroundings>)
    : (SqlWorld, Option<Answer>)
    requires |messages| == |s| && RowIds(v.db)
    decreases |messages|
  {
    if messages == [] then (v, None)
    else
      ProcessKeepsRowIds(v, messages[0].job, worker, s[0]);
      var (after, answer) := SqlProcess(v, messages[0].job, worker, s[0]);
      if Raises(answer) then (after, Some(answer)) else SqlMessages(after, messages[1..], worker, s[1..])
  }

  /** Both end normally, or both raise the same. */
  predicate SameEnd(memory: Result<()>, sql: Option<Answer>) {
    match memory
    case Ok(_) => sql.None?
    case Err(e) => sql == Some(Perhaps(Err(e)))
  }

  lemma RaiseAlike(r: Result<Option<JobRecord>>, answer: Answer, late: set<JobId>)
    requires SameResult(r, answer, late)
    ensures r.Err? <==> Raises(answer)
    ensures r.Err? ==> answer == Perhaps(Err(r.error))
  {
  }

  /** The ids of the other calls are still fresh after the first. */
  lemma NextCallsFresh(w: World, message: Message, worker: string, s: seq<SqlSurroundings>)
    requires s != [] && WellFormed(w.repo) && Fresh(w.repo.jobs.Keys, CallsOf(s))
    ensures Fresh(Process(w, message.job, worker, CallsOf(s)[0]).0.repo.jobs.Keys, CallsOf(s[1..]))
  {
    var calls := CallsOf(s);
    ProcessAddsFresh(w, message.job, worker, calls[0]);
    FreshTail(w.repo.jobs.Keys, Process(w, message.job, worker, calls[0]).0.repo.jobs.Keys, calls);
    assert CallsOf(s[1..]) == calls[1..];
  }

  /** One message: related worlds again, and both calls raise the same or neither does. */
  lemma MessageRefines(w: World, v: SqlWorld, late: set<JobId>, id: JobId, worker: string, s: SqlSurroundings)
    requires RelatedWorlds(w, v, late) && s.call.freshId !in w.repo.jobs && CoversCall(late, s)
    ensures var (after, r) := Process(w, id, worker, s.call);
            var (after', answer) := SqlProcess(v, id, worker, s);
            && RelatedWorlds(after, after', late)
            && (r.Err? <==> Raises(answer)) && (r.Err? ==> answer == Perhaps(Err(r.error)))
  {
    ProcessRefines(w, v, late, id, worker, s);
    RaiseAlike(Process(w, id, worker, s.call).1, SqlProcess(v, id, worker, s).1, late);
  }

  lemma {:induction false} MessagesRefine(w: World, v: SqlWorld, late: set<JobId>, messages: seq<Message>,
        worker: string, s: seq<SqlSurroundings>)
    requires |messages| == |s| && RelatedWorlds(w, v, late)
    requires Fresh(w.repo.jobs.Keys, CallsOf(s)) && CoversCalls(late, s)
    ensures var (after, r) := ProcessMessages(w, messages, worker, CallsOf(s));
            var (after', r') := SqlMessages(v, messages, worker, s);
            RelatedWorlds(after, after', late) && SameEnd(r, r')
    decreases |messages|
  {
    if messages == [] {
    } else {
      MessageRefines(w, v, late, messages[0].job, worker, s[0]);
      NextCallsFresh(w, messages[0], worker, s);
      var after := Process(w, messages[0].job, worker, CallsOf(s)[0]).0;
      var after' := SqlProcess(v, messages[0].job, worker, s[0]).0;
      assert CallsOf(s[1..]) == CallsOf(s)[1..];
      MessagesRefine(after, after', late, messages[1..], worker, s[1..]);
    }
  }

  lemma {:induction false} MessagesKeepRowIds(v: SqlWorld, messages: seq<Message>, worker: string,
        s: seq<SqlSurroundings>)
    requires |messages| == |s| && RowIds(v.db)
    ensures RowIds(SqlMessages(v, messages, worker, s).0.db)
    decreases |messages|
  {
    if messages == [] {
    } else {
      ProcessKeepsRowIds(v, messages[0].job, worker, s[0]);
      MessagesKeepRowIds(SqlProcess(v, messages[0].job, worker, s[0]).0, messages[1..], worker, s[1..]);
    }
  }

  // ----- the loop -----

  /** The scan of the poll returns what the database may return for it. */
  ghost predicate Scans(v: SqlWorld, settings: Settings, p: SqlPoll) {
    && Supplied(PollOf(p))
    && SqlDue(v.db, settings.batchSize, p.dueAt, Take(p.all, settings.batchSize), p.all)
  }

  function SqlIterate(v: SqlWorld, settings: Settings, p: SqlPoll): (SqlWorld, Option<Answer>)
    requires RowIds(v.db) && Scans(v, settings, p)
  {
    var (published, sent) := SqlPublishDue(v, Take(p.all, settings.batchSize));
    if sent.Err? then (published, Some(Perhaps(Err(sent.error))))
    else SqlMessages(published, BatchOf(settings, PollOf(p)), settings.workerId, p.calls)
  }

  lemma IterateKeepsRowIds(v: SqlWorld, settings: Settings, p: SqlPoll)
    requires RowIds(v.db) && Scans(v, settings, p)
    ensures RowIds(SqlIterate(v, settings, p).0.db)
  {
    var (published, _) := SqlPublishDue(v, Take(p.all, settings.batchSize));
    MessagesKeepRowIds(published, BatchOf(settings, PollOf(p)), settings.workerId, p.calls);
  }

  lemma IterateRefines(w: World, v: SqlWorld, late: set<JobId>, settings: Settings, p: SqlPoll)
    requires RelatedWorlds(w, v, late) && Scans(v, settings, p) && Fresh(w.repo.jobs.Keys, PollOf(p).surroundings)
    requires CoversCalls(late, p.calls)
    ensures var (after, r) := Iterate(w, settings, PollOf(p));
            var (after', r') := SqlIterate(v, settings, p);
            RelatedWorlds(after, after', late) && SameEnd(r, r')
  {
    PublishDueRefines(w, v, late, settings.batchSize, p.dueAt, Take(p.all, settings.batchSize), p.all);
    var published := World(w.repo, PublishAll(w.log, Due(w.repo, settings.batchSize, p.dueAt)).0);
    var published' := SqlPublishDue(v, Take(p.all, settings.batchSize)).0;
    MessagesRefine(published, published', late, BatchOf(settings, PollOf(p)), settings.workerId, p.calls);
  }

  /** Every scan the loop gets to make returns what the database may return. */
  ghost predicate AllScan(v: SqlWorld, settings: Settings, polls: seq<SqlPoll>)
    requires RowIds(v.db)
    decreases |polls|
  {
    polls == [] ||
    (&& Scans(v, settings, polls[0])
     && (IterateKeepsRowIds(v, settings, polls[0]);
         var (after, raised) := SqlIterate(v, settings, polls[0]);
         raised.Some? || polls[0].stop || AllScan(after, settings, polls[1..])))
  }

  ghost function SqlLoop(v: SqlWorld, settings: Settings, polls: seq<SqlPoll>): (SqlWorld, Option<Answer>)
    requires RowIds(v.db) && AllScan(v, settings, polls)
    decreases |polls|
  {
    if polls == [] then (v, None)
    else
      IterateKeepsRowIds(v, settings, polls[0]);
      var (after, raised) := SqlIterate(v, settings, polls[0]);
      if raised.Some? || polls[0].stop then (after, raised) else SqlLoop(after, settings, polls[1..])
  }

  function PollsOf(polls: seq<SqlPoll>): (r: seq<Poll>)
    ensures |r| == |polls|
    ensures forall i :: 0 <= i < |polls| ==> r[i] == PollOf(polls[i])
  {
    seq(|polls|, i requires 0 <= i < |polls| => PollOf(polls[i]))
  }

  /** The two loops keep step: related repositories, the same dead letters, the same exception if one ends them. */
  lemma {:induction false} LoopRefines(w: World, v: SqlWorld, late: set<JobId>, settings: Settings, polls: seq<SqlPoll>)
    requires RelatedWorlds(w, v, late) && AllScan(v, settings, polls) && FreshPolls(w.repo.jobs.Keys, PollsOf(polls))
    requires CoversPolls(late, polls)
    ensures var (after, r) := Loop(w, settings, PollsOf(polls));
            var (after', r') := SqlLoop(v, settings, polls);
            RelatedWorlds(after, after', late) && SameEnd(r, r')
    decreases |polls|
  {
    if polls == [] {
    } else {
      IterateRefines(w, v, late, settings, polls[0]);
      NextPollsFresh(w, settings, PollsOf(polls));
      assert PollsOf(polls)[1..] == PollsOf(polls[1..]);
      if SqlIterate(v, settings, polls[0]).1.None? && !polls[0].stop {
        var w', v' := Iterate(w, settings, PollOf(polls[0])).0, SqlIterate(v, settings, polls[0]).0;
        LoopRefines(w', v', late, settings, polls[1..]);
      }
    }
  }

  /** A worker alone on the database: for any polled messages, what its loop leaves is related to what some run of
      the lifecycle model leaves, so the job records and dead letters have the properties of all runs. */
  lemma SqlLoopIsRun(s: Sys, v: SqlWorld, late: set<JobId>, p: Proc, settings: Settings, polls: seq<SqlPoll>)
    returns (events: seq<Event>)
    requires Inv(s) && p !in s.active && RelatedWorlds(World(s.repo, s.log), v, late) && AllScan(v, settings, polls)
    requires CoversPolls(late, polls)
    requires PollsInOrder(s.clock, PollsOf(polls)) && FreshPolls(s.repo.jobs.Keys, PollsOf(polls))
    ensures Admissible(s, events)
    ensures var last, (after, _) := Run(s, events), SqlLoop(v, settings, polls);
            RelatedWorlds(World(last.repo, last.log), after, late)
  {
    LoopRefines(World(s.repo, s.log), v, late, settings, polls);
    events := LoopIsRun(s, p, settings, PollsOf(polls));
  }
}
