// What the events that have been sent say of the jobs, in every run, and in what order a worker takes their messages
// (app/jobs/service.py:24-30, 73-77, app/queue/kafka.py:25-58, app/worker.py:52-87).
module Announcements {
  import opened Core
  import opened Jobs
  import opened Ordering
  import opened MemoryRepository
  import opened Queue
  import opened Service
  import opened Lifecycle
  import opened Workers

  // ----- what has been sent -----

  /** The event has the job's handler and priority. It is for an attempt that has been started since, or it has the due
      time of the one the job waits for, or waited for when it was cancelled. */
  predicate Fits(event: JobEvent, job: JobRecord) {
    && event.job == job.id && event.handler == job.handler && event.priority == job.priority
    && (|| event.attempt < job.attemptCount
        || (&& event.attempt == job.attemptCount && event.dueAt == job.nextRunAt
            && (IsPending(job.status) || job.status == JobStatus.Cancelled)))
  }

  ghost predicate EventsFit(r: Repo, events: seq<JobEvent>) {
    forall i :: 0 <= i < |events| ==> events[i].job in r.jobs && Fits(events[i], r.jobs[events[i].job])
  }

  /** Whatever happens to the job, an event that fits it still does. */
  lemma EventStaysFit(s: Sys, e: Event, event: JobEvent)
    requires Inv(s) && Enabled(s, e) && event.job in s.repo.jobs && Fits(event, s.repo.jobs[event.job])
    ensures event.job in Apply(s, e).repo.jobs && Fits(event, Apply(s, e).repo.jobs[event.job])
  {
    RecordAfter(s, e, event.job);
    if e.Succeeds? || e.Fails? {
      assert ActivityOk(s, s.active[e.p]);
    }
  }

  lemma OldEventsStayFit(s: Sys, e: Event)
    requires Inv(s) && Enabled(s, e) && EventsFit(s.repo, s.log.published)
    ensures EventsFit(Apply(s, e).repo, s.log.published)
  {
    forall i | 0 <= i < |s.log.published|
      ensures && s.log.published[i].job in Apply(s, e).repo.jobs
              && Fits(s.log.published[i], Apply(s, e).repo.jobs[s.log.published[i].job])
    {
      EventStaysFit(s, e, s.log.published[i]);
    }
  }

  lemma AnnouncedFit(r: Repo, before: seq<JobEvent>, after: seq<JobEvent>, jobs: seq<JobRecord>)
    requires EventsFit(r, before) && AllAnnounced(before, after, jobs)
    requires forall job :: job in jobs ==> job.id in r.jobs && r.jobs[job.id] == job && IsPending(job.status)
    ensures EventsFit(r, after)
  {
    forall i | 0 <= i < |after| ensures after[i].job in r.jobs && Fits(after[i], r.jobs[after[i].job]) {
      if i < |before| {
        assert after[i] == after[..|before|][i];
      } else {
        assert jobs[i - |before|] in jobs && Announces(after[|before| + (i - |before|)], jobs[i - |before|]);
      }
    }
  }

  lemma PublishedFit(s: Sys, e: Event)
    requires Inv(s) && Enabled(s, e) && e.Republishes? && EventsFit(s.repo, s.log.published)
    ensures EventsFit(Apply(s, e).repo, Apply(s, e).log.published)
  {
    var due := Due(s.repo, e.limit, e.now);
    PublishAllSends(s.log, due);
    DueIsFirstDue(s.repo, e.limit, e.now);
    EventsAnnounce(s.log.published, due);
    if s.log.available {
      AnnouncedFit(s.repo, s.log.published, s.log.published + Events(due), due);
    }
  }

  lemma SubmittedFit(s: Sys, e: Event)
    requires Inv(s) && Enabled(s, e) && e.Submits? && EventsFit(s.repo, s.log.published)
    ensures EventsFit(Apply(s, e).repo, Apply(s, e).log.published)
  {
    OldEventsStayFit(s, e);
  }

  lemma StepKeepsEventsFit(s: Sys, e: Event)
    requires Inv(s) && Enabled(s, e) && EventsFit(s.repo, s.log.published)
    ensures EventsFit(Apply(s, e).repo, Apply(s, e).log.published)
  {
    if e.Submits? {
      SubmittedFit(s, e);
    } else if e.Republishes? {
      PublishedFit(s, e);
    } else {
      OldEventsStayFit(s, e);
    }
  }

  lemma {:induction false} RunKeepsEventsFit(s: Sys, events: seq<Event>)
    requires Inv(s) && Admissible(s, events) && EventsFit(s.repo, s.log.published)
    ensures EventsFit(Run(s, events).repo, Run(s, events).log.published)
    decreases |events|
  {
    if events == [] {
    } else {
      EventKeepsInv(s, events[0]);
      StepKeepsEventsFit(s, events[0]);
      RunKeepsEventsFit(Apply(s, events[0]), events[1..]);
    }
  }

  /** In every run every event that was sent, by a submission or by republishing, names a job there is, its handler and
      its priority, and the due time of the attempt it is for as long as that attempt has not been started. */
  lemma EventsTellOfJobs(events: seq<Event>, i: nat)
    requires Admissible(START, events) && i < |Run(START, events).log.published|
    ensures var s := Run(START, events);
            var event := s.log.published[i];
            event.job in s.repo.jobs && Fits(event, s.repo.jobs[event.job])
  {
    StartInv();
    RunKeepsEventsFit(START, events);
  }

  // ----- the messages a worker polls -----

  /** The message that carries the event: its topic is the one for the event's priority. */
  function MessageOf(t: Topics, event: JobEvent): Message {
    Message(TopicForPriority(t, event.priority), event.job)
  }

  /** Every message carries some event that has been sent. */
  ghost predicate Carry(t: Topics, messages: seq<Message>, sent: seq<JobEvent>) {
    forall k :: 0 <= k < |messages| ==> exists i :: 0 <= i < |sent| && messages[k] == MessageOf(t, sent[i])
  }

  /** 8 and more, 0, and what is between. */
  function Band(priority: int): nat {
    if priority >= 8 then 2 else if priority == 0 then 0 else 1
  }

  /** The topic of a message tells the band of the priority, and the worker takes the topics in the order high, default,
      retry, low. */
  lemma TopicsOfBands(t: Topics, event: JobEvent)
    ensures MessageOf(t, event).topic == [t.low, t.default, t.high][Band(event.priority)]
    ensures DistinctTopics(t) ==>
              && TopicRank(t, t.high) < TopicRank(t, t.default) < TopicRank(t, t.retry) < TopicRank(t, t.low)
              && forall topic :: topic !in [t.high, t.default, t.retry, t.low] ==>
                   TopicRank(t, t.low) < TopicRank(t, topic)
  {
  }

  ghost predicate PrioritiesAccepted(r: Repo) {
    forall id :: id in r.jobs ==> 0 <= r.jobs[id].priority <= 10
  }

  /** A job that appears has the priority of a request or of the job it follows. */
  lemma NewJobAccepted(s: Sys, e: Event, id: JobId)
    requires Enabled(s, e) && PrioritiesAccepted(s.repo) && id !in s.repo.jobs && id in Apply(s, e).repo.jobs
    ensures 0 <= Apply(s, e).repo.jobs[id].priority <= 10
  {
  }

  lemma StepKeepsPriorities(s: Sys, e: Event)
    requires Enabled(s, e) && PrioritiesAccepted(s.repo)
    ensures PrioritiesAccepted(Apply(s, e).repo)
  {
    forall id | id in Apply(s, e).repo.jobs ensures 0 <= Apply(s, e).repo.jobs[id].priority <= 10 {
      if id in s.repo.jobs {
        RecordAfter(s, e, id);
      } else {
        NewJobAccepted(s, e, id);
      }
    }
  }

  lemma {:induction false} RunKeepsPriorities(s: Sys, events: seq<Event>)
    requires Admissible(s, events) && PrioritiesAccepted(s.repo)
    ensures PrioritiesAccepted(Run(s, events).repo)
    decreases |events|
  {
    if events == [] {
    } else {
      StepKeepsPriorities(s, events[0]);
      RunKeepsPriorities(Apply(s, events[0]), events[1..]);
    }
  }

  /** A message that was sent is on the topic for its job's priority. */
  lemma CarriedIsPublished(r: Repo, t: Topics, messages: seq<Message>, sent: seq<JobEvent>, m: Message)
    requires EventsFit(r, sent) && PrioritiesAccepted(r) && Carry(t, messages, sent) && m in messages
    ensures m.job in r.jobs && PublishedFor(t, m, r.jobs[m.job].priority)
  {
    var k :| 0 <= k < |messages| && messages[k] == m;
    var i :| 0 <= i < |sent| && messages[k] == MessageOf(t, sent[i]);
    assert Fits(sent[i], r.jobs[sent[i].job]);
  }

  lemma InBatch(t: Topics, messages: seq<Message>, i: nat)
    requires i < |Batch(t, messages)| && multiset(Batch(t, messages)) == multiset(messages)
    ensures Batch(t, messages)[i] in messages
  {
    assert Batch(t, messages)[i] in multiset(messages);
  }

  lemma BandsFollow(t: Topics, p: int, q: int)
    requires DistinctTopics(t) && 0 <= p && 0 <= q && (TopicForPriority(t, p) != TopicForPriority(t, q) ==> p > q)
    ensures Band(p) >= Band(q)
  {
  }

  lemma BatchByBand(r: Repo, t: Topics, messages: seq<Message>, sent: seq<JobEvent>, i: nat, j: nat)
    requires EventsFit(r, sent) && PrioritiesAccepted(r) && Carry(t, messages, sent) && DistinctTopics(t)
    requires i < j < |Batch(t, messages)|
    ensures var batch := Batch(t, messages);
            && batch[i].job in r.jobs && batch[j].job in r.jobs
            && Band(r.jobs[batch[i].job].priority) >= Band(r.jobs[batch[j].job].priority)
  {
    var batch := Batch(t, messages);
    BatchIsOrdered(t, messages);
    InBatch(t, messages, i);
    InBatch(t, messages, j);
    CarriedIsPublished(r, t, messages, sent, batch[i]);
    CarriedIsPublished(r, t, messages, sent, batch[j]);
    BandsFollow(t, r.jobs[batch[i].job].priority, r.jobs[batch[j].job].priority);
  }

  /** In every run, whatever messages that were sent a worker polls, it processes them by the priorities of their jobs:
      none of a lower band before one of a higher band, each message as often as it was polled. */
  lemma BatchFollowsPriorities(events: seq<Event>, t: Topics, messages: seq<Message>, i: nat, j: nat)
    requires Admissible(START, events) && DistinctTopics(t) && Carry(t, messages, Run(START, events).log.published)
    requires i < j < |Batch(t, messages)|
    ensures multiset(Batch(t, messages)) == multiset(messages)
    ensures var jobs, batch := Run(START, events).repo.jobs, Batch(t, messages);
            && batch[i].job in jobs && batch[j].job in jobs
            && Band(jobs[batch[i].job].priority) >= Band(jobs[batch[j].job].priority)
  {
    StartInv();
    RunKeepsEventsFit(START, events);
    RunKeepsPriorities(START, events);
    BatchIsOrdered(t, messages);
    BatchByBand(Run(START, events).repo, t, messages, Run(START, events).log.published, i, j);
  }
}
