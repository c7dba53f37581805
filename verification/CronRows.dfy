/** Rows of the cron tables and the schedule arithmetic: src/cron/scheduler.rs and migrations 0001, 0004 and 0013. */
module CronRows {
  import opened Prelude
  import opened Json

  // Instants and durations are counted in milliseconds.
  type Time = int
  type JobId = string
  type RunId = nat
  type Token = nat
  type Pid = int

  const SECOND: Time := 1_000
  const MINUTE: Time := 60 * SECOND
  const DAY: Time := 24 * 60 * MINUTE
  const LEASE_DURATION: Time := 30 * MINUTE
  const STALE_LEASE_SAFETY_NET: Time := 120 * MINUTE
  const ONESHOT_GRACE: Time := 120 * SECOND

  datatype Status = Running | Succeeded | Failed

  datatype Run = Run(
    job: JobId, token: Token, lease: Time, started: Time, completed: Option<Time>,
    status: Status, attempt: nat, error: Option<string>, owner: Option<Pid>)

  datatype Job = Job(expression: string, payload: Json, enabled: bool, next: Option<Time>, updated: Time)

  /** The foreign parsers: RFC 3339 instants, and the interval and cron grammars with their next firing time. */
  datatype Clockwork = Clockwork(instant: string -> Option<Time>, following: (string, Time) -> Option<Time>)

  const ONCE: string := "once:"

  predicate IsOnce(expression: string) {
    ONCE <= expression
  }

  /** `next_run`; `None` is the error return. */
  function NextRun(clock: Clockwork, expression: string, after: Time): Option<Time> {
    if IsOnce(expression) then
      match clock.instant(expression[|ONCE|..])
      case None => None
      case Some(instant) => if instant >= after || after - instant <= ONESHOT_GRACE then Some(instant) else None
    else
      clock.following(expression, after)
  }

  /**
   * A one-shot has its instant as next run until two minutes after it; any other schedule is asked for its next time.
   */
  lemma NextRunMeaning(clock: Clockwork, expression: string, after: Time)
    ensures "once:" <= expression ==>
      var instant := clock.instant(expression[5..]);
      NextRun(clock, expression, after) ==
        if instant.Some? && after <= instant.value + 120_000 then instant else None
    ensures !("once:" <= expression) ==> NextRun(clock, expression, after) == clock.following(expression, after)
  {
  }

  /** `should_reclaim_with`. */
  predicate ShouldReclaim(owner: Option<Pid>, expired: bool, leaseAge: Time, alive: set<Pid>) {
    && expired
    && (leaseAge >= STALE_LEASE_SAFETY_NET || owner.None? || owner.value == 0 || owner.value !in alive)
  }

  /** The owner column as `claim_job` reads it: anything not positive is no owner. */
  function ReadOwner(owner: Option<Pid>): Option<Pid> {
    if owner.Some? && owner.value > 0 then owner else None
  }
}
