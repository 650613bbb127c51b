// Statuses and errors shared by every module (app/core/enums.py, app/core/errors.py).
module Core {

  datatype Option<+T> = None | Some(value: T)

  datatype JobStatus = Queued | Running | Succeeded | Failed | DeadLettered | Cancelled

  datatype BadRequestReason =
    | CronFieldCount
    | CronStepNotInteger
    | CronStepNotPositive
    | CronFieldNotRecognised
    | CronValueOutOfRange
    | CronNoRun
    | UnsupportedHandler
    | PayloadTooLarge

  datatype ServiceError =
    | NotFound
    | Conflict(status: JobStatus)
    | BadRequest(reason: BadRequestReason)
    | DependencyUnavailable

  /** What a Python call gives back: a value, or the exception it raised. */
  datatype Result<+T> = Ok(value: T) | Err(error: ServiceError) {
    predicate IsFailure() {
      Err?
    }

    function PropagateFailure<U>(): Result<U>
      requires Err?
    {
      Err(error)
    }

    function Extract(): T
      requires Ok?
    {
      value
    }
  }

  /** Microseconds since 0001-01-01T00:00:00 UTC, the first instant of Python's `datetime`. */
  type Time = nat

  /** The instant at which minute number `m` starts. */
  function InstantOf(m: nat): Time {
    m * 60_000_000
  }

  /** The minute number an instant falls in. */
  function MinuteOf(t: Time): (m: nat)
    ensures InstantOf(m) <= t < InstantOf(m + 1)
    ensures forall k :: t == InstantOf(k) ==> m == k
  {
    t / 60_000_000
  }
}
