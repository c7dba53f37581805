/**
 * The statements and transactions of the cron scheduler: src/cron/scheduler.rs, lines 570-660 and 719-1065.
 *
 * Every function below is one atomic step on the two tables; the class at the end runs them on mutable tables in the
 * order of the source. How steps of different schedulers interleave is the subject of module CronProtocol.
 */
module CronTables {
  import opened Prelude
  import opened Json
  import opened Repeat
  import opened CronRows
  import opened FailureSchedule

  datatype Db = Db(jobs: map<JobId, Job>, runs: map<RunId, Run>)

  /** What a claimed execution carries until its completion; `snapshot` is the job row as read after the insert. */
  datatype Claim = Claim(run: RunId, token: Token, job: JobId, snapshot: Job, advance: bool)

  datatype Outcome = Committed | AlreadyFinal | NoLongerActive | NotFound | RolledBack

  const EXPIRED_ERROR := "lease expired before completion"

  // --- Claiming ---

  predicate RunningFor(runs: map<RunId, Run>, job: JobId, r: RunId) {
    r in runs && runs[r].job == job && runs[r].status == Running
  }

  predicate HasRunning(runs: map<RunId, Run>, job: JobId) {
    exists r :: r in runs && RunningFor(runs, job, r)
  }

  predicate Due(row: Job, now: Time) {
    row.enabled && row.next.Some? && row.next.value <= now
  }

  /** The rows the first query of `claim_job` returns. */
  predicate Expired(runs: map<RunId, Run>, job: JobId, now: Time, r: RunId) {
    RunningFor(runs, job, r) && runs[r].lease <= now
  }

  /** The decision taken on a row as it was read. */
  predicate Reclaimable(runs: map<RunId, Run>, job: JobId, now: Time, alive: set<Pid>, r: RunId) {
    Expired(runs, job, now, r) && ShouldReclaim(ReadOwner(runs[r].owner), true, now - runs[r].lease, alive)
  }

  function Reclaimed(run: Run, now: Time): Run {
    run.(status := Failed, completed := Some(now), error := Some(run.error.GetOr(EXPIRED_ERROR)))
  }

  function ReclaimRun(db: Db, r: RunId, now: Time): Db {
    if r in db.runs && db.runs[r].status == Running then db.(runs := db.runs[r := Reclaimed(db.runs[r], now)]) else db
  }

  /** COALESCE(MAX(attempt) + 1, 1) over the runs of a job. */
  ghost predicate IsNextAttempt(runs: map<RunId, Run>, job: JobId, a: nat) {
    && (forall r :: r in runs && runs[r].job == job ==> runs[r].attempt < a)
    && (if JobRuns(runs, job) == {} then a == 1 else exists r :: r in JobRuns(runs, job) && runs[r].attempt + 1 == a)
  }

  predicate CanInsert(db: Db, job: JobId, now: Time, requireDue: bool) {
    && job in db.jobs
    && (requireDue ==> Due(db.jobs[job], now))
    && !HasRunning(db.runs, job)
  }

  function NewRun(job: JobId, token: Token, attempt: nat, now: Time, owner: Pid): Run {
    Run(job, token, now + LEASE_DURATION, now, None, Running, attempt, None, Some(owner))
  }

  // --- Lease and history maintenance ---

  function RefreshLease(db: Db, token: Token, now: Time): Db {
    db.(runs := map r | r in db.runs ::
      if db.runs[r].token == token && db.runs[r].status == Running then db.runs[r].(lease := now + LEASE_DURATION)
      else db.runs[r])
  }

  /** Nothing but leases differs, those only of running runs with the token, and each of these has its new lease. */
  ghost predicate RenewsOnly(before: map<RunId, Run>, after: map<RunId, Run>, token: Token, now: Time) {
    && after.Keys == before.Keys
    && forall r :: r in before ==>
         && after[r].(lease := before[r].lease) == before[r]
         && (after[r].lease != before[r].lease ==> before[r].token == token && before[r].status == Running)
         && (before[r].token == token && before[r].status == Running ==> after[r].lease == now + LEASE_DURATION)
  }

  lemma RefreshRenewsOnly(db: Db, token: Token, now: Time)
    ensures RenewsOnly(db.runs, RefreshLease(db, token, now).runs, token, now)
  {
  }

  predicate Prunable(run: Run, cutoff: Time) {
    run.status != Running && run.completed.GetOr(run.started) < cutoff
  }

  function Prune(db: Db, cutoff: Time): Db {
    db.(runs := map r | r in db.runs && !Prunable(db.runs[r], cutoff) :: db.runs[r])
  }

  // --- Completion ---

  /** The guard of both completion transactions. */
  predicate Holds(db: Db, claim: Claim) {
    claim.run in db.runs && db.runs[claim.run].token == claim.token && db.runs[claim.run].status == Running
  }

  function LostOutcome(db: Db, claim: Claim): Outcome {
    if claim.run !in db.runs then NotFound
    else if db.runs[claim.run].status == Running then NoLongerActive
    else AlreadyFinal
  }

  /** The compare-and-swap condition of every job update a completion makes. */
  predicate Matches(db: Db, claim: Claim) {
    && claim.job in db.jobs
    && db.jobs[claim.job].expression == claim.snapshot.expression
    && db.jobs[claim.job].payload == claim.snapshot.payload
  }

  function Retire(job: Job, now: Time): Job {
    job.(enabled := false, next := None, updated := now)
  }

  function SuccessRuns(db: Db, claim: Claim, now: Time): map<RunId, Run>
    requires Holds(db, claim)
  {
    db.runs[claim.run := db.runs[claim.run].(status := Succeeded, completed := Some(now), lease := now, error := None)]
  }

  function FailureRuns(db: Db, claim: Claim, now: Time, error: string): map<RunId, Run>
    requires Holds(db, claim)
  {
    db.runs[claim.run :=
      db.runs[claim.run].(status := Failed, completed := Some(now), lease := now, error := Some(error))]
  }

  /** Whether a success retires the schedule: a one-shot, or a repeat that has reached its limit. */
  predicate Finishes(snapshot: Job) {
    var (_, times, completed) := IncrementRepeatCompleted(snapshot.payload);
    IsOnce(snapshot.expression) || ShouldDisableAfter(completed, times)
  }

  /** Whether the success transaction is abandoned because no next run can be computed. */
  predicate CannotReschedule(clock: Clockwork, claim: Claim, now: Time) {
    && claim.advance
    && !Finishes(claim.snapshot)
    && NextRun(clock, claim.snapshot.expression, now).None?
  }

  function SuccessJobs(db: Db, clock: Clockwork, claim: Claim, now: Time): map<JobId, Job>
    requires !CannotReschedule(clock, claim, now)
  {
    var payload := IncrementRepeatCompleted(claim.snapshot.payload).0;
    if !Matches(db, claim) then db.jobs
    else
      var row := db.jobs[claim.job];
      if !claim.advance then db.jobs[claim.job := row.(payload := payload, updated := now)]
      else if Finishes(claim.snapshot) then db.jobs[claim.job := Retire(row, now).(payload := payload)]
      else if row.enabled then
        db.jobs[claim.job :=
          row.(next := NextRun(clock, claim.snapshot.expression, now), payload := payload, updated := now)]
      else db.jobs
  }

  function CompleteSuccess(db: Db, clock: Clockwork, claim: Claim, now: Time): (Db, Outcome) {
    if !Holds(db, claim) then (db, LostOutcome(db, claim))
    else if CannotReschedule(clock, claim, now) then (db, RolledBack)
    else (Db(SuccessJobs(db, clock, claim, now), SuccessRuns(db, claim, now)), Committed)
  }

  /** `failures` is the streak counted inside the transaction, this run included. */
  function FailureJobs(db: Db, clock: Clockwork, claim: Claim, now: Time, failures: nat): map<JobId, Job> {
    if !claim.advance || !Matches(db, claim) then db.jobs
    else
      var row := db.jobs[claim.job];
      match NextRunAfterFailure(clock, claim.snapshot.expression, now, failures)
      case At(next) => if row.enabled then db.jobs[claim.job := row.(next := Some(next), updated := now)] else db.jobs
      case _ => db.jobs[claim.job := Retire(row, now)]
  }

  ghost function CompleteFailure(db: Db, clock: Clockwork, claim: Claim, now: Time, error: string): (Db, Outcome) {
    if !Holds(db, claim) then (db, LostOutcome(db, claim))
    else
      var runs := FailureRuns(db, claim, now, error);
      (Db(FailureJobs(db, clock, claim, now, ConsecutiveFailures(runs, claim.job)), runs), Committed)
  }

  /** A completion can only move its own run, out of running, and its own job's row. */
  ghost predicate TouchesOnly(before: Db, after: Db, claim: Claim) {
    && after.runs.Keys == before.runs.Keys && after.jobs.Keys == before.jobs.Keys
    && (forall r :: r in before.runs && r != claim.run ==> after.runs[r] == before.runs[r])
    && (forall j :: j in before.jobs && j != claim.job ==> after.jobs[j] == before.jobs[j])
    && (forall j :: j in before.jobs ==> after.jobs[j].expression == before.jobs[j].expression)
    && (after != before ==>
          Holds(before, claim) && after.runs[claim.run].status != Running
          && after.runs[claim.run].job == before.runs[claim.run].job
          && after.runs[claim.run].token == before.runs[claim.run].token
          && after.runs[claim.run].attempt == before.runs[claim.run].attempt)
  }

  lemma SuccessTouchesOneRun(db: Db, clock: Clockwork, claim: Claim, now: Time)
    ensures TouchesOnly(db, CompleteSuccess(db, clock, claim, now).0, claim)
  {
  }

  lemma FailureTouchesOneRun(db: Db, clock: Clockwork, claim: Claim, now: Time, error: string)
    ensures TouchesOnly(db, CompleteFailure(db, clock, claim, now, error).0, claim)
    ensures forall j :: j in db.jobs ==>
      CompleteFailure(db, clock, claim, now, error).0.jobs[j].payload == db.jobs[j].payload
  {
  }

  /** The claim still has its run: the row is there, with its token, and running. */
  predicate StillClaimed(db: Db, claim: Claim) {
    && claim.run in db.runs && db.runs[claim.run].token == claim.token && db.runs[claim.run].status == Running
  }

  /** The job's row has the expression and the payload that the claim read. */
  predicate RowAsRead(db: Db, claim: Claim) {
    && claim.job in db.jobs && db.jobs[claim.job].expression == claim.snapshot.expression
    && db.jobs[claim.job].payload == claim.snapshot.payload
  }

  /**
   * What a success makes of the job it ran, read off the row: a trigger only counts; a scheduled run of a one-shot, or
   * the one that reaches a limit, switches the job off; any other moves an enabled job to its next run, and is given up
   * if there is none. A limit of 0 and no limit are the same.
   */
  lemma SuccessMovesJob(db: Db, clock: Clockwork, claim: Claim, now: Time)
    requires StillClaimed(db, claim) && RowAsRead(db, claim)
    requires CountsCleanly(claim.snapshot.payload) && Completed(claim.snapshot.payload) + 1 < U64_LIMIT
    ensures var (after, outcome) := CompleteSuccess(db, clock, claim, now);
      && claim.job in after.jobs
      && var (row, moved) := (db.jobs[claim.job], after.jobs[claim.job]);
         var counted := row.(payload := moved.payload, updated := now);
         var times := Times(row.payload);
         var reached := times.Some? && 0 < times.value <= Completed(row.payload) + 1;
         var next := NextRun(clock, row.expression, now);
         && (Completed(moved.payload) == Completed(row.payload) + 1 || moved == row)
         && if !claim.advance then outcome == Committed && moved != row && moved == counted
            else if "once:" <= row.expression || reached then
              outcome == Committed && moved == counted.(enabled := false, next := None) && moved.payload != row.payload
            else if next.None? then outcome == RolledBack && after == db
            else if row.enabled then
              outcome == Committed && moved == counted.(next := next) && moved.payload != row.payload
            else outcome == Committed && moved == row
  {
    IncrementIsReadBack(claim.snapshot.payload);
    IncrementKeepsTimes(claim.snapshot.payload);
  }

  /** What a success makes of the runs, and when it makes nothing of anything. */
  lemma SuccessEndsRun(db: Db, clock: Clockwork, claim: Claim, now: Time)
    ensures var (after, outcome) := CompleteSuccess(db, clock, claim, now);
      && (outcome == Committed ==>
            && StillClaimed(db, claim)
            && after.runs == db.runs[claim.run :=
                 db.runs[claim.run].(status := Succeeded, completed := Some(now), lease := now, error := None)]
            && (!RowAsRead(db, claim) ==> after.jobs == db.jobs))
      && (outcome != Committed ==> after == db)
      && (!StillClaimed(db, claim) ==>
            outcome == if claim.run !in db.runs then NotFound
                       else if db.runs[claim.run].status == Running then NoLongerActive else AlreadyFinal)
  {
  }

  /**
   * What a failure makes of the job it ran: a trigger leaves it alone; a scheduled run switches off a one-shot, and a
   * job without a next run; the next run of an enabled one is `FailedRunIsRescheduled`.
   */
  lemma FailureMovesJob(db: Db, clock: Clockwork, claim: Claim, now: Time, error: string)
    requires StillClaimed(db, claim)
    ensures var (after, outcome) := CompleteFailure(db, clock, claim, now, error);
      && outcome == Committed
      && after.runs == db.runs[claim.run :=
           db.runs[claim.run].(status := Failed, completed := Some(now), lease := now, error := Some(error))]
      && (!claim.advance || !RowAsRead(db, claim) ==> after.jobs == db.jobs)
      && (claim.advance && RowAsRead(db, claim) ==>
            var (row, moved) := (db.jobs[claim.job], after.jobs[claim.job]);
            if "once:" <= row.expression || NextRun(clock, row.expression, now).None? then
              moved == row.(enabled := false, next := None, updated := now)
            else if row.enabled then moved.next.Some? && moved == row.(next := moved.next, updated := now)
            else moved == row)
  {
  }

  /**
   * Where a failed scheduled run of an enabled recurring job ends up: at the later of its schedule and the end of the
   * backoff for the unbroken tail of failures in the order of starting, however many runs that tail has.
   */
  lemma FailedRunIsRescheduled(
      db: Db, clock: Clockwork, claim: Claim, now: Time, error: string, scheduled: Time, log: seq<RunId>)
    requires Holds(db, claim) && Matches(db, claim) && claim.advance && db.jobs[claim.job].enabled
    requires !IsOnce(claim.snapshot.expression)
    requires NextRun(clock, claim.snapshot.expression, now) == Some(scheduled)
    requires var runs := FailureRuns(db, claim, now, error); StartOrder(runs, JobRuns(runs, claim.job), log)
    ensures var runs := FailureRuns(db, claim, now, error);
      CompleteFailure(db, clock, claim, now, error).0.jobs[claim.job].next ==
        Some(Max(scheduled, now + BackoffSeconds(TrailingFailures(runs, log)) * SECOND))
  {
    var runs := FailureRuns(db, claim, now, error);
    FiftyRunsAreEnough(clock, runs, claim.job, claim.snapshot.expression, now);
    StreakIsTrailingFailures(runs, JobRuns(runs, claim.job), log);
  }

  // --- Operator commands ---

  function Pause(db: Db, job: JobId, now: Time): Db {
    if job in db.jobs then db.(jobs := db.jobs[job := Retire(db.jobs[job], now)]) else db
  }

  /** The update of `resume`, with the next run computed from the expression it read first. */
  function ResumeWith(db: Db, job: JobId, next: Time, now: Time): Db {
    if job in db.jobs then
      db.(jobs := db.jobs[job := db.jobs[job].(enabled := true, next := Some(next), updated := now)])
    else db
  }

  /** A pause switches the job off and takes its next run; a resume switches it on with the next run it computed. */
  lemma SwitchMeaning(db: Db, job: JobId, next: Time, now: Time)
    ensures job !in db.jobs ==> Pause(db, job, now) == db && ResumeWith(db, job, next, now) == db
    ensures job in db.jobs ==>
      && Pause(db, job, now) ==
           db.(jobs := db.jobs[job := db.jobs[job].(enabled := false, next := None, updated := now)])
      && ResumeWith(db, job, next, now) ==
           db.(jobs := db.jobs[job := db.jobs[job].(enabled := true, next := Some(next), updated := now)])
  {
  }

  /** Deleting a job deletes its runs with it (ON DELETE CASCADE). */
  function Delete(db: Db, job: JobId): Db {
    Db(db.jobs - {job}, map r | r in db.runs && db.runs[r].job != job :: db.runs[r])
  }

  // --- One whole claim, undisturbed ---

  function ReclaimAll(db: Db, job: JobId, now: Time, alive: set<Pid>): Db {
    db.(runs := map r | r in db.runs ::
      if Reclaimable(db.runs, job, now, alive, r) then Reclaimed(db.runs[r], now) else db.runs[r])
  }

  ghost predicate IsNextOf(runs: map<RunId, Run>, ids: set<RunId>, a: nat) {
    && ids <= runs.Keys && (forall r :: r in ids ==> runs[r].attempt < a)
    && if ids == {} then a == 1 else exists r :: r in ids && runs[r].attempt + 1 == a
  }

  lemma NextOfOneMore(runs: map<RunId, Run>, ids: set<RunId>, a: nat, x: RunId)
    requires IsNextOf(runs, ids, a) && x in runs
    ensures IsNextOf(runs, ids + {x}, if ids == {} || runs[x].attempt >= a then runs[x].attempt + 1 else a)
  {
    var more := ids + {x};
    assert x in more;
    if ids != {} && runs[x].attempt < a {
      var r :| r in ids && runs[r].attempt + 1 == a;
      assert r in more;
    }
  }

  lemma NextOfAllIsNext(runs: map<RunId, Run>, job: JobId, ids: set<RunId>, a: nat)
    requires ids == JobRuns(runs, job) && IsNextOf(runs, ids, a)
    ensures IsNextAttempt(runs, job, a)
  {
  }

  lemma {:induction false} NextAttemptExists(runs: map<RunId, Run>, ids: set<RunId>) returns (a: nat)
    requires ids <= runs.Keys
    ensures IsNextOf(runs, ids, a)
  {
    if ids == {} {
      a := 1;
    } else {
      var x :| x in ids;
      a := NextAttemptExists(runs, ids - {x});
      NextOfOneMore(runs, ids - {x}, a, x);
      assert ids - {x} + {x} == ids;
      a := if ids - {x} == {} || runs[x].attempt >= a then runs[x].attempt + 1 else a;
    }
  }

  ghost function NextAttempt(runs: map<RunId, Run>, job: JobId): (a: nat)
    ensures IsNextAttempt(runs, job, a)
  {
    assert exists a: nat :: IsNextAttempt(runs, job, a) by {
      var a := NextAttemptExists(runs, JobRuns(runs, job));
      assert IsNextAttempt(runs, job, a);
    }
    var a: nat :| IsNextAttempt(runs, job, a);
    a
  }

  ghost function InsertRun(db: Db, job: JobId, r: RunId, token: Token, owner: Pid, now: Time, requireDue: bool): Db {
    if CanInsert(db, job, now, requireDue) then
      db.(runs := db.runs[r := NewRun(job, token, NextAttempt(db.runs, job), now, owner)])
    else db
  }

  lemma ClaimNeedsEveryLease(db: Db, job: JobId, now: Time, alive: set<Pid>, requireDue: bool)
    ensures CanInsert(ReclaimAll(db, job, now, alive), job, now, requireDue) <==>
      && job in db.jobs && (requireDue ==> Due(db.jobs[job], now))
      && forall r :: RunningFor(db.runs, job, r) ==> Reclaimable(db.runs, job, now, alive, r)
  {
    var after := ReclaimAll(db, job, now, alive);
    forall r ensures RunningFor(after.runs, job, r) <==>
      RunningFor(db.runs, job, r) && !Reclaimable(db.runs, job, now, alive, r)
    {
    }
    if !HasRunning(after.runs, job) {
      forall r | RunningFor(db.runs, job, r) ensures Reclaimable(db.runs, job, now, alive, r) {
        assert r in after.runs && !RunningFor(after.runs, job, r);
      }
    }
  }

  /**
   * A claim made without interference succeeds exactly when the job is there, is enabled with a next run that is not in
   * the future if that was asked, and every lease still running on it has expired and either did so 120 minutes ago or
   * has no live owner.
   */
  lemma ClaimSucceedsExactlyWhen(db: Db, job: JobId, now: Time, alive: set<Pid>, requireDue: bool)
    ensures CanInsert(ReclaimAll(db, job, now, alive), job, now, requireDue) <==>
      && job in db.jobs
      && (requireDue ==> db.jobs[job].enabled && db.jobs[job].next.Some? && db.jobs[job].next.value <= now)
      && forall r :: r in db.runs && db.runs[r].job == job && db.runs[r].status == Running ==>
           && db.runs[r].lease <= now
           && (|| now - db.runs[r].lease >= 7_200_000
               || db.runs[r].owner.None? || db.runs[r].owner.value <= 0 || db.runs[r].owner.value !in alive)
  {
    ClaimNeedsEveryLease(db, job, now, alive, requireDue);
    forall r | r in db.runs ensures RunningFor(db.runs, job, r) <==>
      db.runs[r].job == job && db.runs[r].status == Running
    {
    }
  }

  /**
   * What a claim that succeeds leaves: a run of its own with a lease of 30 minutes, the runs it took over failed and
   * with their leases as they were, and everything else alone.
   */
  lemma ClaimedRunIsNew(
      db: Db, job: JobId, r: RunId, token: Token, pid: Pid, now: Time, alive: set<Pid>, requireDue: bool)
    requires r !in db.runs && CanInsert(ReclaimAll(db, job, now, alive), job, now, requireDue)
    ensures var after := InsertRun(ReclaimAll(db, job, now, alive), job, r, token, pid, now, requireDue);
      && after.jobs == db.jobs && after.runs.Keys == db.runs.Keys + {r}
      && after.runs[r] ==
           Run(job, token, now + 1_800_000, now, None, Running, after.runs[r].attempt, None, Some(pid))
      && (forall q :: q in db.runs && db.runs[q].job == job ==> db.runs[q].attempt < after.runs[r].attempt)
      && forall q :: q in db.runs ==>
           after.runs[q] ==
             if db.runs[q].job == job && db.runs[q].status == Running
             then db.runs[q].(status := Failed, completed := Some(now),
                              error := Some(db.runs[q].error.GetOr("lease expired before completion")))
             else db.runs[q]
  {
    ClaimNeedsEveryLease(db, job, now, alive, requireDue);
    var cleared := ReclaimAll(db, job, now, alive);
    var attempt := NextAttempt(cleared.runs, job);
    forall q | q in db.runs
      ensures cleared.runs[q] == if RunningFor(db.runs, job, q) then Reclaimed(db.runs[q], now) else db.runs[q]
      ensures db.runs[q].job == job ==> db.runs[q].attempt < attempt
    {
      assert cleared.runs[q].job == db.runs[q].job && cleared.runs[q].attempt == db.runs[q].attempt;
    }
  }

  /** A wedged owner blocks its job for at most its lease plus the safety net, alive or not. */
  lemma WedgedOwnerIsBounded(db: Db, job: JobId, now: Time, alive: set<Pid>, requireDue: bool)
    requires job in db.jobs && (requireDue ==> Due(db.jobs[job], now))
    requires forall r :: RunningFor(db.runs, job, r) ==> now >= db.runs[r].lease + STALE_LEASE_SAFETY_NET
    ensures CanInsert(ReclaimAll(db, job, now, alive), job, now, requireDue)
  {
    ClaimNeedsEveryLease(db, job, now, alive, requireDue);
  }

  /** Before that bound a lease of a live owner, and at any time an unexpired lease, keeps everyone else out. */
  lemma LiveLeaseIsExclusive(db: Db, job: JobId, now: Time, alive: set<Pid>, requireDue: bool, r: RunId)
    requires RunningFor(db.runs, job, r)
    requires
      || now < db.runs[r].lease
      || (db.runs[r].owner.Some? && db.runs[r].owner.value > 0 && db.runs[r].owner.value in alive
          && now < db.runs[r].lease + STALE_LEASE_SAFETY_NET)
    ensures ReclaimAll(db, job, now, alive).runs[r] == db.runs[r]
    ensures !CanInsert(ReclaimAll(db, job, now, alive), job, now, requireDue)
  {
    ClaimNeedsEveryLease(db, job, now, alive, requireDue);
    assert !Reclaimable(db.runs, job, now, alive, r);
  }

  /**
   * What a heartbeat is for: while its run is running nobody else claims the job until the renewed lease expires, nor,
   * if the owner is alive, before the safety net; every other run may be taken over exactly when it could be before.
   */
  lemma RenewedLeaseIsExclusive(
      db: Db, job: JobId, r: RunId, beat: Time, now: Time, alive: set<Pid>, requireDue: bool, other: RunId)
    requires RunningFor(db.runs, job, r)
    ensures var after := RefreshLease(db, db.runs[r].token, beat);
      && (now < beat + LEASE_DURATION
            + (if ReadOwner(db.runs[r].owner).Some? && db.runs[r].owner.value in alive then STALE_LEASE_SAFETY_NET
              else 0)
          ==> !CanInsert(ReclaimAll(after, job, now, alive), job, now, requireDue)
              && RunningFor(ReclaimAll(after, job, now, alive).runs, job, r))
      && (other in db.runs && db.runs[other].token != db.runs[r].token ==>
            (Reclaimable(after.runs, job, now, alive, other) <==> Reclaimable(db.runs, job, now, alive, other)))
  {
    var after := RefreshLease(db, db.runs[r].token, beat);
    assert RunningFor(after.runs, job, r) && after.runs[r].lease == beat + LEASE_DURATION;
    if now < beat + LEASE_DURATION
             + (if ReadOwner(db.runs[r].owner).Some? && db.runs[r].owner.value in alive then STALE_LEASE_SAFETY_NET
               else 0) {
      LiveLeaseIsExclusive(after, job, now, alive, requireDue, r);
    }
  }

  /**
   * Pruning is invisible to the protocol: every claim and every completion is decided as it would have been without
   * it, and it commutes with a reclaim that happens after the cutoff.
   */
  lemma PruningIsInvisible(
      db: Db, cutoff: Time, job: JobId, now: Time, alive: set<Pid>, requireDue: bool, claim: Claim)
    ensures CanInsert(ReclaimAll(Prune(db, cutoff), job, now, alive), job, now, requireDue) <==>
            CanInsert(ReclaimAll(db, job, now, alive), job, now, requireDue)
    ensures Holds(Prune(db, cutoff), claim) <==> Holds(db, claim)
    ensures cutoff <= now ==>
      Prune(ReclaimAll(db, job, now, alive), cutoff) == ReclaimAll(Prune(db, cutoff), job, now, alive)
  {
    var pruned := Prune(db, cutoff);
    forall r ensures RunningFor(pruned.runs, job, r) <==> RunningFor(db.runs, job, r) {
    }
    ClaimNeedsEveryLease(db, job, now, alive, requireDue);
    ClaimNeedsEveryLease(pruned, job, now, alive, requireDue);
    forall r | RunningFor(db.runs, job, r)
      ensures Reclaimable(pruned.runs, job, now, alive, r) <==> Reclaimable(db.runs, job, now, alive, r)
    {
    }
    if cutoff <= now {
      SameRuns(Prune(ReclaimAll(db, job, now, alive), cutoff).runs, ReclaimAll(pruned, job, now, alive).runs);
    }
  }

  // --- The tables as the scheduler mutates them ---

  lemma MoveAcross(rest: set<RunId>, seen: set<RunId>, r: RunId)
    requires r in rest
    ensures (rest - {r}) + (seen + {r}) == rest + seen
  {
  }

  lemma SameRuns(a: map<RunId, Run>, b: map<RunId, Run>)
    requires a.Keys == b.Keys && forall r :: r in a ==> a[r] == b[r]
    ensures a == b
  {
  }

  lemma RemoveOne(runs: map<RunId, Run>, r: RunId)
    requires r in runs
    ensures |runs - {r}| == |runs| - 1
  {
    assert (runs - {r}).Keys == runs.Keys - {r};
  }

  /** The update of a heartbeat, carried out but for the rows of `rest`. */
  ghost predicate RenewedBut(before: map<RunId, Run>, after: map<RunId, Run>, rest: set<RunId>, token: Token,
                             now: Time)
  {
    && after.Keys == before.Keys
    && (forall r :: r in rest ==> r in before && before[r].token == token && before[r].status == Running)
    && forall r :: r in before ==>
         after[r] == if before[r].token == token && before[r].status == Running && r !in rest
                     then before[r].(lease := now + LEASE_DURATION) else before[r]
  }

  lemma RenewOneMore(
      before: map<RunId, Run>, after: map<RunId, Run>, rest: set<RunId>, token: Token, now: Time, r: RunId)
    requires RenewedBut(before, after, rest, token, now) && r in rest
    ensures RenewedBut(before, after[r := after[r].(lease := now + LEASE_DURATION)], rest - {r}, token, now)
  {
  }

  lemma RenewedAll(db: Db, after: map<RunId, Run>, token: Token, now: Time)
    requires RenewedBut(db.runs, after, {}, token, now)
    ensures after == RefreshLease(db, token, now).runs
  {
  }

  /** The reclaim loop, carried out but for the rows of `rest`. */
  ghost predicate ReclaimedBut(
      before: map<RunId, Run>, after: map<RunId, Run>, rest: set<RunId>, job: JobId, now: Time, alive: set<Pid>) {
    && after.Keys == before.Keys
    && (forall r :: r in rest ==> r in before && Expired(before, job, now, r))
    && forall r :: r in before ==>
         after[r]
           == if Reclaimable(before, job, now, alive, r) && r !in rest then Reclaimed(before[r], now) else before[r]
  }

  lemma ReclaimOneMore(
      before: map<RunId, Run>, after: map<RunId, Run>, rest: set<RunId>, job: JobId, now: Time, alive: set<Pid>,
      r: RunId)
    requires ReclaimedBut(before, after, rest, job, now, alive) && r in rest
    ensures var more := if ShouldReclaim(ReadOwner(after[r].owner), true, now - after[r].lease, alive)
                        then after[r := Reclaimed(after[r], now)] else after;
      ReclaimedBut(before, more, rest - {r}, job, now, alive)
  {
  }

  lemma ReclaimedThemAll(db: Db, after: map<RunId, Run>, job: JobId, now: Time, alive: set<Pid>)
    requires ReclaimedBut(db.runs, after, {}, job, now, alive)
    ensures after == ReclaimAll(db, job, now, alive).runs
  {
  }

  class Tables {
    var jobs: map<JobId, Job>
    var runs: map<RunId, Run>

    constructor ()
      ensures Contents() == Db(map[], map[])
    {
      jobs, runs := map[], map[];
    }

    ghost function Contents(): Db
      reads this
    {
      Db(jobs, runs)
    }

    /** The aggregate subquery of the insert. */
    method QueryNextAttempt(job: JobId) returns (a: nat)
      ensures IsNextAttempt(runs, job, a)
    {
      var table := runs;
      var rest := set r | r in table && table[r].job == job;
      var first := true;
      ghost var seen: set<RunId> := {};
      a := 1;
      while rest != {}
        invariant rest <= table.Keys && rest + seen == JobRuns(table, job) && first == (seen == {})
        invariant IsNextOf(table, seen, a)
        decreases |rest|
      {
        var r :| r in rest;
        NextOfOneMore(table, seen, a, r);
        MoveAcross(rest, seen, r);
        if first || table[r].attempt >= a {
          a := table[r].attempt + 1;
        }
        rest, seen, first := rest - {r}, seen + {r}, false;
      }
      NextOfAllIsNext(table, job, seen, a);
    }

    method QueryNewest(ids: set<RunId>) returns (newest: RunId)
      requires ids <= runs.Keys && ids != {}
      ensures newest == Newest(runs, ids)
    {
      newest :| newest in ids;
      var rest := ids - {newest};
      while rest != {}
        invariant rest <= ids && newest in ids - rest
        invariant IsNewest(runs, ids - rest, newest)
        decreases |rest|
      {
        var r :| r in rest;
        NewestOfOneMore(runs, ids - rest, newest, r);
        assert ids - (rest - {r}) == ids - rest + {r};
        if Newer(runs, r, newest) {
          newest := r;
        }
        rest := rest - {r};
      }
      assert ids - rest == ids;
    }

    /** The history query of `complete_failure`. */
    method QueryRecentStatuses(job: JobId) returns (statuses: seq<Status>)
      ensures statuses == Take(History(runs, job), HISTORY_LIMIT)
    {
      var table := runs;
      var rest := set r | r in table && table[r].job == job;
      ghost var all := rest;
      ghost var picked: seq<RunId> := [];
      statuses := [];
      while rest != {} && |statuses| < HISTORY_LIMIT
        invariant rest <= all && |statuses| <= HISTORY_LIMIT
        invariant forall r :: r in picked ==> r in table
        invariant NewestFirst(table, all) == picked + NewestFirst(table, rest)
        invariant statuses == StatusesOf(table, picked)
        decreases |rest|
      {
        var r := QueryNewest(rest);
        StatusesSnoc(table, picked, r);
        Regroup(picked, [r], NewestFirst(table, rest - {r}));
        statuses, rest, picked := statuses + [table[r].status], rest - {r}, picked + [r];
      }
      StatusesPrefix(table, all, picked, NewestFirst(table, rest));
    }

    /** The reclaim loop: each row the query returned, decided on and updated in turn. */
    method ReclaimExpired(job: JobId, now: Time, alive: set<Pid>)
      modifies this
      ensures Contents() == ReclaimAll(old(Contents()), job, now, alive)
    {
      var candidates := set c | c in runs && Expired(runs, job, now, c);
      ghost var before := runs;
      while candidates != {}
        invariant jobs == old(jobs) && ReclaimedBut(before, runs, candidates, job, now, alive)
        decreases |candidates|
      {
        var c :| c in candidates;
        ReclaimOneMore(before, runs, candidates, job, now, alive, c);
        if ShouldReclaim(ReadOwner(runs[c].owner), true, now - runs[c].lease, alive) {
          runs := runs[c := Reclaimed(runs[c], now)];
        }
        candidates := candidates - {c};
      }
      ReclaimedThemAll(Db(jobs, before), runs, job, now, alive);
    }

    /** `claim_job` with nothing else running in between. */
    method ClaimJob(job: JobId, requireDue: bool, advance: bool, now: Time, alive: set<Pid>, r: RunId, token: Token,
                    pid: Pid)
      returns (claim: Option<Claim>)
      requires r !in runs
      modifies this
      ensures var cleared := ReclaimAll(old(Contents()), job, now, alive);
        && Contents() == InsertRun(cleared, job, r, token, pid, now, requireDue)
        && claim == if CanInsert(cleared, job, now, requireDue)
                    then Some(Claim(r, token, job, old(jobs)[job], advance)) else None
    {
      ReclaimExpired(job, now, alive);
      if CanInsert(Db(jobs, runs), job, now, requireDue) {
        var attempt := QueryNextAttempt(job);
        assert attempt == NextAttempt(runs, job);
        runs := runs[r := NewRun(job, token, attempt, now, pid)];
        claim := Some(Claim(r, token, job, jobs[job], advance));
      } else {
        claim := None;
      }
    }

    /** The update of `refresh_lease`, row by row. */
    method Heartbeat(token: Token, now: Time)
      modifies this
      ensures jobs == old(jobs) && RenewsOnly(old(runs), runs, token, now)
      ensures Contents() == RefreshLease(old(Contents()), token, now)
    {
      var rest := set r | r in runs && runs[r].token == token && runs[r].status == Running;
      ghost var before := runs;
      while rest != {}
        invariant jobs == old(jobs) && RenewedBut(before, runs, rest, token, now)
        decreases |rest|
      {
        var r :| r in rest;
        RenewOneMore(before, runs, rest, token, now, r);
        runs := runs[r := runs[r].(lease := now + LEASE_DURATION)];
        rest := rest - {r};
      }
      RenewedAll(Db(jobs, before), runs, token, now);
      RefreshRenewsOnly(Db(jobs, before), token, now);
    }

    method Succeed(clock: Clockwork, claim: Claim, now: Time) returns (outcome: Outcome)
      modifies this
      ensures (Contents(), outcome) == CompleteSuccess(old(Contents()), clock, claim, now)
    {
      var db := Db(jobs, runs);
      if !Holds(db, claim) {
        return LostOutcome(db, claim);
      }
      var (payload, times, completed) := IncrementRepeatCompleted(claim.snapshot.payload);
      var finished := IsOnce(claim.snapshot.expression) || ShouldDisableAfter(completed, times);
      var next := None;
      if claim.advance && !finished {
        next := NextRun(clock, claim.snapshot.expression, now);
        if next.None? {
          return RolledBack;
        }
      }
      runs := SuccessRuns(db, claim, now);
      if Matches(db, claim) {
        var row := jobs[claim.job];
        if !claim.advance {
          jobs := jobs[claim.job := row.(payload := payload, updated := now)];
        } else if finished {
          jobs := jobs[claim.job := row.(enabled := false, next := None, payload := payload, updated := now)];
        } else if row.enabled {
          jobs := jobs[claim.job := row.(next := next, payload := payload, updated := now)];
        }
      }
      outcome := Committed;
    }

    method Fail(clock: Clockwork, claim: Claim, now: Time, error: string) returns (outcome: Outcome)
      modifies this
      ensures (Contents(), outcome) == CompleteFailure(old(Contents()), clock, claim, now, error)
    {
      var db := Db(jobs, runs);
      if !Holds(db, claim) {
        return LostOutcome(db, claim);
      }
      runs := FailureRuns(db, claim, now, error);
      if claim.advance {
        if IsOnce(claim.snapshot.expression) {
          if Matches(db, claim) {
            jobs := jobs[claim.job := Retire(jobs[claim.job], now)];
          }
        } else {
          var recent := QueryRecentStatuses(claim.job);
          var failures := LeadingFailures(recent);
          if Matches(db, claim) {
            var row := jobs[claim.job];
            var retry := NextRunAfterFailure(clock, claim.snapshot.expression, now, failures);
            if !retry.At? {
              jobs := jobs[claim.job := Retire(row, now)];
            } else if row.enabled {
              jobs := jobs[claim.job := row.(next := Some(retry.when), updated := now)];
            }
          }
        }
      }
      outcome := Committed;
    }

    method PauseJob(job: JobId, now: Time) returns (found: bool)
      modifies this
      ensures Contents() == Pause(old(Contents()), job, now)
      ensures found == (job in old(jobs)) && runs == old(runs)
      ensures jobs == if found then old(jobs)[job := old(jobs)[job].(enabled := false, next := None, updated := now)]
                      else old(jobs)
    {
      found := job in jobs;
      if found {
        jobs := jobs[job := jobs[job].(enabled := false, next := None, updated := now)];
      }
    }

    /** `None` is the error return: the schedule has no next run, and nothing changes. */
    method ResumeJob(clock: Clockwork, job: JobId, now: Time) returns (found: Option<bool>)
      modifies this
      ensures job !in old(jobs) ==> found == Some(false) && Contents() == old(Contents())
      ensures job in old(jobs) ==>
        match NextRun(clock, old(jobs)[job].expression, now)
        case None => found == None && Contents() == old(Contents())
        case Some(next) => found == Some(true) && Contents() == ResumeWith(old(Contents()), job, next, now)
    {
      if job !in jobs {
        return Some(false);
      }
      match NextRun(clock, jobs[job].expression, now) {
        case None => found := None;
        case Some(next) =>
          jobs := jobs[job := jobs[job].(enabled := true, next := Some(next), updated := now)];
          found := Some(true);
      }
    }

    /** `prune_terminal_cron_runs`; `None` is the error return of a negative retention. */
    method PruneTerminal(retentionDays: int, now: Time) returns (removed: Option<nat>)
      modifies this
      ensures removed.None? <==> retentionDays < 0
      ensures removed.None? ==> Contents() == old(Contents())
      ensures removed.Some? ==>
        && Contents() == Prune(old(Contents()), now - retentionDays * DAY)
        && |runs| + removed.value == |old(runs)|
        && jobs == old(jobs)
        && (forall r :: r in runs ==> r in old(runs) && runs[r] == old(runs)[r])
        && forall r :: r in old(runs) ==>
             (r !in runs <==>
                && old(runs)[r].status != Running
                && old(runs)[r].completed.GetOr(old(runs)[r].started) < now - retentionDays * DAY)
    {
      if retentionDays < 0 {
        return None;
      }
      var cutoff := now - retentionDays * DAY;
      var rest := set r | r in runs && Prunable(runs[r], cutoff);
      ghost var matching := rest;
      ghost var before := runs;
      var count: nat := 0;
      while rest != {}
        invariant rest <= matching && jobs == old(jobs)
        invariant forall r :: r in runs <==> r in before && r !in matching - rest
        invariant forall r :: r in runs ==> runs[r] == before[r]
        invariant |runs| + count == |before|
        decreases |rest|
      {
        var r :| r in rest;
        RemoveOne(runs, r);
        runs := runs - {r};
        rest, count := rest - {r}, count + 1;
      }
      SameRuns(runs, Prune(Db(jobs, before), cutoff).runs);
      removed := Some(count);
    }
  }
}
