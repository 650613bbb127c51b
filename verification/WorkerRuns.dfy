// Whatever Kafka delivers, a worker's loop is a run of the lifecycle model, so what every run keeps it keeps.
module WorkerRuns {
  import opened Core
  import opened Jobs
  import opened MemoryRepository
  import opened Queue
  import opened Service
  import opened Lifecycle
  import opened ServiceRuns
  import opened Workers

  /** The clock reading an event itself carries. */
  function TimeOf(e: Event): Time {
    match e
    case Submits(_, _, now) => now
    case Starts(_, _, _, now) => now
    case Succeeds(_, _, now) => now
    case Recurs(_, _, now) => now
    case Fails(_, now) => now
    case Cancels(_, now) => now
    case Republishes(_, now) => now
    case _ => 0
  }

  predicate NoneAfter(events: seq<Event>, bound: Time) {
    forall i :: 0 <= i < |events| ==> TimeOf(events[i]) <= bound
  }

  lemma ClockAfter(s: Sys, e: Event, bound: Time)
    requires Enabled(s, e) && s.clock <= bound && TimeOf(e) <= bound
    ensures Apply(s, e).clock <= bound
  {
  }

  lemma {:induction false} RunClock(s: Sys, events: seq<Event>, bound: Time)
    requires Admissible(s, events) && s.clock <= bound && NoneAfter(events, bound)
    ensures Run(s, events).clock <= bound
    decreases |events|
  {
    if events == [] {
    } else {
      assert TimeOf(events[0]) <= bound;
      ClockAfter(s, events[0], bound);
      RunClock(Apply(s, events[0]), events[1..], bound);
    }
  }

  lemma ProcessReadings(w: World, p: Proc, id: JobId, worker: string, env: Surroundings, clock: Time)
    requires InOrder(clock, env)
    ensures NoneAfter(ProcessEvents(w, p, id, worker, env), env.failAt)
  {
  }

  // ----- a batch -----

  /** The readings of successive calls come in order. */
  predicate AllInOrder(clock: Time, envs: seq<Surroundings>)
    decreases |envs|
  {
    envs == [] || (InOrder(clock, envs[0]) && AllInOrder(envs[0].failAt, envs[1..]))
  }

  function LastReading(clock: Time, envs: seq<Surroundings>): Time {
    if envs == [] then clock else envs[|envs| - 1].failAt
  }

  /** The run ends with the given repository and log, no call under way that was not before, and a bounded clock. */
  ghost predicate EndsBy(s: Sys, events: seq<Event>, w: World, bound: Time) {
    Ends(s, events, w, s.active) && Run(s, events).clock <= bound
  }

  lemma CallIsRun(s: Sys, p: Proc, id: JobId, worker: string, env: Surroundings) returns (events: seq<Event>)
    requires Inv(s) && p !in s.active && InOrder(s.clock, env) && env.freshId !in s.repo.jobs
    ensures EndsBy(s, events, Process(World(s.repo, s.log), id, worker, env).0, env.failAt)
    ensures Inv(Run(s, events))
  {
    events := ProcessEvents(World(s.repo, s.log), p, id, worker, env);
    ProcessIsRun(s, p, id, worker, env);
    ProcessReadings(World(s.repo, s.log), p, id, worker, env, s.clock);
    RunClock(s, events, env.failAt);
    RunKeepsInv(s, events);
  }

  lemma Weaken(clock: Time, earlier: Time, envs: seq<Surroundings>)
    requires AllInOrder(clock, envs) && earlier <= clock
    ensures AllInOrder(earlier, envs)
    ensures LastReading(earlier, envs) <= LastReading(clock, envs)
  {
  }

  lemma NothingRuns(s: Sys)
    ensures EndsBy(s, [], World(s.repo, s.log), s.clock)
  {
  }

  lemma {:induction false} MessagesAreRun(s: Sys, p: Proc, messages: seq<Message>, worker: string,
        envs: seq<Surroundings>)
    returns (events: seq<Event>)
    requires |messages| == |envs| && Inv(s) && p !in s.active
    requires AllInOrder(s.clock, envs) && Fresh(s.repo.jobs.Keys, envs)
    ensures Ends(s, events, ProcessMessages(World(s.repo, s.log), messages, worker, envs).0, s.active)
    ensures ProcessMessages(World(s.repo, s.log), messages, worker, envs).1.Ok? ==>
        Run(s, events).clock <= LastReading(s.clock, envs)
    decreases |messages|
  {
    var w := World(s.repo, s.log);
    if messages == [] {
      NothingRuns(s);
      events := [];
    } else {
      var call := CallIsRun(s, p, messages[0].job, worker, envs[0]);
      var (after, r) := Process(w, messages[0].job, worker, envs[0]);
      if r.Err? {
        events := call;
      } else {
        var mid := Run(s, call);
        ProcessAddsFresh(w, messages[0].job, worker, envs[0]);
        FreshTail(s.repo.jobs.Keys, mid.repo.jobs.Keys, envs);
        Weaken(envs[0].failAt, mid.clock, envs[1..]);
        var rest := MessagesAreRun(mid, p, messages[1..], worker, envs[1..]);
        AppendRuns(s, call, rest);
        events := call + rest;
      }
    }
  }

  // ----- the loop -----

  predicate PollsInOrder(clock: Time, polls: seq<Poll>)
    decreases |polls|
  {
    polls == [] ||
    (&& clock <= polls[0].dueAt && AllInOrder(polls[0].dueAt, polls[0].surroundings)
     && PollsInOrder(LastReading(polls[0].dueAt, polls[0].surroundings), polls[1..]))
  }

  lemma WeakenPolls(clock: Time, earlier: Time, polls: seq<Poll>)
    requires PollsInOrder(clock, polls) && earlier <= clock
    ensures PollsInOrder(earlier, polls)
  {
  }

  lemma RepublishIsEvent(s: Sys, limit: nat, now: Time)
    requires Inv(s) && s.clock <= now
    ensures Enabled(s, Republishes(limit, now)) && Inv(Apply(s, Republishes(limit, now)))
    ensures Apply(s, Republishes(limit, now)) ==
        Sys(s.repo, PublishAll(s.log, Due(s.repo, limit, now)).0, s.active, now)
  {
    EventKeepsInv(s, Republishes(limit, now));
  }

  lemma IterationIsRun(s: Sys, p: Proc, settings: Settings, poll: Poll) returns (events: seq<Event>)
    requires Inv(s) && p !in s.active && s.clock <= poll.dueAt && AllInOrder(poll.dueAt, poll.surroundings)
    requires Supplied(poll) && Fresh(s.repo.jobs.Keys, poll.surroundings)
    ensures Ends(s, events, Iterate(World(s.repo, s.log), settings, poll).0, s.active)
    ensures Iterate(World(s.repo, s.log), settings, poll).1.Ok? ==>
              Run(s, events).clock <= LastReading(poll.dueAt, poll.surroundings)
  {
    var e := Republishes(settings.batchSize, poll.dueAt);
    RepublishIsEvent(s, settings.batchSize, poll.dueAt);
    var published := Apply(s, e);
    var rest := [];
    NothingRuns(published);
    if PublishAll(s.log, Due(s.repo, settings.batchSize, poll.dueAt)).1.Ok? {
      rest := MessagesAreRun(published, p, BatchOf(settings, poll), settings.workerId, poll.surroundings);
    }
    Then(s, e, rest, Iterate(World(s.repo, s.log), settings, poll).0, s.active);
    events := [e] + rest;
    assert events[1..] == rest;
  }

  /** Polls of any messages (duplicated, reordered, lost or never sent) take a reachable state to a reachable one,
      also when a signal or an exception ends the loop. */
  lemma {:induction false} LoopIsRun(s: Sys, p: Proc, settings: Settings, polls: seq<Poll>) returns (events: seq<Event>)
    requires Inv(s) && p !in s.active && PollsInOrder(s.clock, polls) && FreshPolls(s.repo.jobs.Keys, polls)
    ensures Ends(s, events, Loop(World(s.repo, s.log), settings, polls).0, s.active)
    decreases |polls|
  {
    if polls == [] {
      NothingRuns(s);
      events := [];
    } else {
      var w := World(s.repo, s.log);
      events := IterationIsRun(s, p, settings, polls[0]);
      RunKeepsInv(s, events);
      NextPollsFresh(w, settings, polls);
      if Iterate(w, settings, polls[0]).1.Ok? && !polls[0].stop {
        var mid := Run(s, events);
        WeakenPolls(LastReading(polls[0].dueAt, polls[0].surroundings), mid.clock, polls[1..]);
        var rest := LoopIsRun(mid, p, settings, polls[1..]);
        AppendRuns(s, events, rest);
        events := events + rest;
      }
    }
  }
}
