// Topics and the recording producer (app/queue/kafka.py).
module Queue {
  import opened Core
  import opened Jobs

  datatype Topics = Topics(high: string, default: string, low: string, retry: string)

  function TopicForPriority(topics: Topics, priority: int): string {
    if priority >= 8 then topics.high
    else if priority == 0 then topics.low
    else topics.default
  }

  datatype JobEvent = JobEvent(job: JobId, handler: string, priority: int, dueAt: Time, attempt: nat)

  datatype DeadLetterEvent = DeadLetterEvent(job: JobId, handler: string, attempt: nat)

  /** What a producer has sent so far, and whether it can send now. */
  datatype Log = Log(published: seq<JobEvent>, deadLetters: seq<DeadLetterEvent>, available: bool)

  /** The event tells of the job as it is: whose it is, for which handler, how urgent, when due, which attempt. */
  predicate Announces(event: JobEvent, job: JobRecord) {
    && event.job == job.id && event.handler == job.handler && event.priority == job.priority
    && event.dueAt == job.nextRunAt && event.attempt == job.attemptCount
  }

  function EventOf(job: JobRecord): JobEvent {
    JobEvent(job.id, job.handler, job.priority, job.nextRunAt, job.attemptCount)
  }

  function Publish(log: Log, event: JobEvent): (Log, Result<()>) {
    if !log.available then (log, Err(DependencyUnavailable))
    else (log.(published := log.published + [event]), Ok(()))
  }

  function PublishDead(log: Log, event: DeadLetterEvent): (Log, Result<()>) {
    if !log.available then (log, Err(DependencyUnavailable))
    else (log.(deadLetters := log.deadLetters + [event]), Ok(()))
  }

  class FakeJobProducer {
    var published: seq<JobEvent>
    var deadLetters: seq<DeadLetterEvent>
    var available: bool

    function View(): Log
      reads this
    {
      Log(published, deadLetters, available)
    }

    constructor ()
      ensures View() == Log([], [], true)
    {
      published, deadLetters, available := [], [], true;
    }

    method PublishJob(event: JobEvent) returns (r: Result<()>)
      modifies this`published
      ensures (View(), r) == Publish(old(View()), event)
      ensures r == if available then Ok(()) else Err(DependencyUnavailable)
      ensures published == if available then old(published) + [event] else old(published)
    {
      if !available {
        return Err(DependencyUnavailable);
      }
      published := published + [event];
      return Ok(());
    }

    method PublishDeadLetter(event: DeadLetterEvent) returns (r: Result<()>)
      modifies this`deadLetters
      ensures (View(), r) == PublishDead(old(View()), event)
      ensures r == if available then Ok(()) else Err(DependencyUnavailable)
      ensures deadLetters == if available then old(deadLetters) + [event] else old(deadLetters)
    {
      if !available {
        return Err(DependencyUnavailable);
      }
      deadLetters := deadLetters + [event];
      return Ok(());
    }
  }
}
