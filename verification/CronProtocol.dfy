/**
 * Any number of schedulers on one database: every interleaving of the statements of src/cron/scheduler.rs, with
 * crashes, operator commands and outside writes. `claim_job` is cut at every point where another scheduler can act:
 * the read that decides a reclaim, each reclaiming update, the insert, and the read of the job row.
 */
module CronProtocol {
  import opened Prelude
  import opened CronRows
  import opened CronTables
  import opened StoreMerge

  /** A run that has been inserted and whose claimant has not read the job row yet. */
  datatype Inserted = Inserted(run: RunId, token: Token, job: JobId, advance: bool)

  /**
   * The database with what the schedulers hold in memory: reclaims decided but not issued, inserts not yet followed
   * by their read, and executions not yet completed. `issued` and `tokens` record the identifiers ever drawn.
   */
  datatype World = World(
    db: Db, issued: set<RunId>, tokens: set<Token>, decided: set<RunId>,
    inserted: map<RunId, Inserted>, claims: map<RunId, Claim>)

  /** `Insert` claims a due job and advances its schedule when `scheduled`, and is a manual trigger otherwise. */
  datatype Step =
    | Decide(job: JobId, now: Time, alive: set<Pid>)
    | Reclaim(run: RunId, now: Time)
    | Insert(job: JobId, run: RunId, token: Token, pid: Pid, now: Time, scheduled: bool)
    | ReadRow(run: RunId)
    | Heartbeat(token: Token, now: Time)
    | Succeed(run: RunId, now: Time)
    | Fail(run: RunId, now: Time, error: string)
    | PruneHistory(cutoff: Time)
    | PauseJob(job: JobId, now: Time)
    | ResumeJob(job: JobId, expressionRead: string, now: Time)
    | Crash(lost: set<RunId>)
    | DeleteJob(job: JobId)
    | WriteJob(job: JobId, row: Job)
    | SyncJob(job: JobId, incoming: Incoming)

  /** One step; a step that its guard rules out leaves the world alone. */
  ghost function Next(clock: Clockwork, w: World, s: Step): World {
    match s
    case Decide(job, now, alive) =>
      w.(decided := w.decided + set r | r in w.db.runs && Reclaimable(w.db.runs, job, now, alive, r))
    case Reclaim(r, now) =>
      if r in w.decided then w.(db := ReclaimRun(w.db, r, now)) else w
    case Insert(job, r, token, pid, now, scheduled) =>
      if r in w.issued || token in w.tokens || !CanInsert(w.db, job, now, scheduled) then w
      else w.(db := InsertRun(w.db, job, r, token, pid, now, scheduled),
              issued := w.issued + {r}, tokens := w.tokens + {token},
              inserted := w.inserted[r := Inserted(r, token, job, scheduled)])
    case ReadRow(r) =>
      if r !in w.inserted then w
      else
        var i := w.inserted[r];
        if i.job !in w.db.jobs then w.(inserted := w.inserted - {r})
        else w.(inserted := w.inserted - {r},
          claims := w.claims[r := Claim(r, i.token, i.job, w.db.jobs[i.job], i.advance)])
    case Heartbeat(token, now) =>
      w.(db := RefreshLease(w.db, token, now))
    case Succeed(r, now) =>
      if r !in w.claims then w
      else w.(db := CompleteSuccess(w.db, clock, w.claims[r], now).0, claims := w.claims - {r})
    case Fail(r, now, error) =>
      if r !in w.claims then w
      else w.(db := CompleteFailure(w.db, clock, w.claims[r], now, error).0, claims := w.claims - {r})
    case PruneHistory(cutoff) => w.(db := Prune(w.db, cutoff))
    case PauseJob(job, now) => w.(db := Pause(w.db, job, now))
    case ResumeJob(job, expression, now) =>
      (match NextRun(clock, expression, now)
       case None => w
       case Some(next) => w.(db := ResumeWith(w.db, job, next, now)))
    case Crash(lost) =>
      w.(decided := w.decided - lost, inserted := w.inserted - lost, claims := w.claims - lost)
    case DeleteJob(job) => w.(db := Delete(w.db, job))
    case WriteJob(job, row) => w.(db := w.db.(jobs := w.db.jobs[job := row]))
    case SyncJob(job, x) => w.(db := w.db.(jobs := Upsert(w.db.jobs, job, x)))
  }

  ghost function After(clock: Clockwork, w: World, steps: seq<Step>): World
    decreases |steps|
  {
    if steps == [] then w else After(clock, Next(clock, w, steps[0]), steps[1..])
  }

  // --- The invariant of every reachable state ---

  ghost predicate OneRunning(db: Db) {
    forall job, a, b :: RunningFor(db.runs, job, a) && RunningFor(db.runs, job, b) ==> a == b
  }

  ghost predicate DistinctAttempts(db: Db) {
    forall a, b :: a in db.runs && b in db.runs && a != b && db.runs[a].job == db.runs[b].job ==>
      db.runs[a].attempt != db.runs[b].attempt
  }

  ghost predicate DistinctTokens(w: World) {
    && (forall a, b :: a in w.db.runs && b in w.db.runs && a != b ==> w.db.runs[a].token != w.db.runs[b].token)
    && (forall a :: a in w.db.runs ==> w.db.runs[a].token in w.tokens)
  }

  /** What a scheduler remembers about a run agrees with the run's row, if the row is still there. */
  ghost predicate Remembered(w: World) {
    && (forall r :: r in w.inserted ==>
          w.inserted[r].run == r && r in w.issued && w.inserted[r].token in w.tokens
          && (r in w.db.runs ==> w.db.runs[r].token == w.inserted[r].token && w.db.runs[r].job == w.inserted[r].job))
    && (forall r :: r in w.claims ==>
          w.claims[r].run == r && r in w.issued && w.claims[r].token in w.tokens
          && (r in w.db.runs ==> w.db.runs[r].token == w.claims[r].token && w.db.runs[r].job == w.claims[r].job))
  }

  ghost predicate Inv(w: World) {
    && w.db.runs.Keys <= w.issued && w.decided <= w.issued
    && (forall r :: r in w.db.runs ==> w.db.runs[r].job in w.db.jobs)
    && OneRunning(w.db) && DistinctAttempts(w.db) && DistinctTokens(w) && Remembered(w)
  }

  /** A database with jobs and a well-formed history, and no scheduler started yet. */
  ghost predicate Fresh(w: World) {
    && Inv(w) && w.decided == {} && w.inserted == map[] && w.claims == map[]
  }

  lemma EmptyDatabaseIsFresh(jobs: map<JobId, Job>)
    ensures Fresh(World(Db(jobs, map[]), {}, {}, {}, map[], map[]))
  {
  }

  /** `v` is `w` with the new run `run` of a job without a running one. */
  ghost predicate Adds(w: World, v: World, r: RunId, run: Run, i: Inserted) {
    && r !in w.issued && run.token !in w.tokens && run.job in w.db.jobs && !HasRunning(w.db.runs, run.job)
    && (forall k :: k in w.db.runs && w.db.runs[k].job == run.job ==> w.db.runs[k].attempt < run.attempt)
    && i.run == r && i.token == run.token && i.job == run.job
    && v == w.(db := w.db.(runs := w.db.runs[r := run]), issued := w.issued + {r}, tokens := w.tokens + {run.token},
               inserted := w.inserted[r := i])
  }

  lemma InsertAdds(clock: Clockwork, w: World, s: Step)
    requires s.Insert? && Next(clock, w, s) != w
    ensures CanInsert(w.db, s.job, s.now, s.scheduled)
    ensures Adds(w, Next(clock, w, s), s.run, NewRun(s.job, s.token, NextAttempt(w.db.runs, s.job), s.now, s.pid),
                 Inserted(s.run, s.token, s.job, s.scheduled))
  {
  }

  lemma AddingKeepsDistinct(w: World, v: World, r: RunId, run: Run, i: Inserted)
    requires Inv(w) && Adds(w, v, r, run, i)
    ensures DistinctAttempts(v.db) && DistinctTokens(v)
  {
  }

  lemma AddingKeepsRemembered(w: World, v: World, r: RunId, run: Run, i: Inserted)
    requires Inv(w) && Adds(w, v, r, run, i)
    ensures Remembered(v)
  {
  }

  lemma AddingKeepsInv(w: World, v: World, r: RunId, run: Run, i: Inserted)
    requires Inv(w) && Adds(w, v, r, run, i)
    ensures Inv(v)
  {
    AddingKeepsDistinct(w, v, r, run, i);
    AddingKeepsRemembered(w, v, r, run, i);
    forall job, k | RunningFor(v.db.runs, job, k)
      ensures if k == r then job == run.job else RunningFor(w.db.runs, job, k) && job != run.job
    {
      if k != r {
        assert RunningFor(w.db.runs, job, k);
      }
    }
  }

  lemma InsertKeepsInv(clock: Clockwork, w: World, s: Step)
    requires Inv(w) && s.Insert?
    ensures Inv(Next(clock, w, s))
  {
    var v := Next(clock, w, s);
    if v != w {
      InsertAdds(clock, w, s);
      AddingKeepsInv(w, v, s.run, NewRun(s.job, s.token, NextAttempt(w.db.runs, s.job), s.now, s.pid),
                     Inserted(s.run, s.token, s.job, s.scheduled));
    }
  }

  /** What every step but the insert does to the runs and to what is remembered of them. */
  ghost predicate Evolves(w: World, v: World) {
    && v.issued == w.issued && v.tokens == w.tokens
    && v.db.runs.Keys <= w.db.runs.Keys
    && (forall r :: r in v.db.runs ==>
          && v.db.runs[r].job == w.db.runs[r].job && v.db.runs[r].job in v.db.jobs
          && v.db.runs[r].token == w.db.runs[r].token && v.db.runs[r].attempt == w.db.runs[r].attempt
          && (w.db.runs[r].status != Running ==> v.db.runs[r] == w.db.runs[r]))
    && (forall r :: r in v.inserted ==> r in w.inserted && v.inserted[r] == w.inserted[r])
    && (forall r :: r in v.claims ==>
          || (r in w.claims && v.claims[r] == w.claims[r])
          || (r in w.inserted && v.claims[r].run == r && v.claims[r].token == w.inserted[r].token
              && v.claims[r].job == w.inserted[r].job && v.claims[r].advance == w.inserted[r].advance))
  }

  lemma EvolvingKeepsInv(w: World, v: World)
    requires Inv(w) && Evolves(w, v) && v.decided <= v.issued
    ensures Inv(v)
  {
    forall job, r | RunningFor(v.db.runs, job, r) ensures RunningFor(w.db.runs, job, r) {
    }
  }

  lemma TouchingEvolves(w: World, r: RunId, after: Db)
    requires Inv(w) && r in w.claims && TouchesOnly(w.db, after, w.claims[r])
    ensures Evolves(w, w.(db := after, claims := w.claims - {r}))
  {
    assert after.runs.Keys == w.db.runs.Keys;
    assert after.jobs.Keys == w.db.jobs.Keys;
  }

  lemma CompletionEvolves(clock: Clockwork, w: World, s: Step)
    requires Inv(w) && (s.Succeed? || s.Fail?)
    ensures Evolves(w, Next(clock, w, s)) && Next(clock, w, s).decided <= w.issued
  {
    if s.run in w.claims {
      if s.Succeed? {
        SuccessTouchesOneRun(w.db, clock, w.claims[s.run], s.now);
        TouchingEvolves(w, s.run, CompleteSuccess(w.db, clock, w.claims[s.run], s.now).0);
      } else {
        FailureTouchesOneRun(w.db, clock, w.claims[s.run], s.now, s.error);
        TouchingEvolves(w, s.run, CompleteFailure(w.db, clock, w.claims[s.run], s.now, s.error).0);
      }
    }
  }

  /** A step that only moves runs, and only as `Evolves` allows. */
  lemma RunsOnlyEvolve(w: World, runs: map<RunId, Run>)
    requires Inv(w) && runs.Keys <= w.db.runs.Keys
    requires forall r :: r in runs ==>
      && runs[r].job == w.db.runs[r].job && runs[r].token == w.db.runs[r].token
      && runs[r].attempt == w.db.runs[r].attempt && (w.db.runs[r].status != Running ==> runs[r] == w.db.runs[r])
    ensures Evolves(w, w.(db := w.db.(runs := runs)))
  {
  }

  lemma ReclaimMovesOneRun(clock: Clockwork, w: World, s: Step)
    requires s.Reclaim?
    ensures Next(clock, w, s) == w.(db := w.db.(runs := Next(clock, w, s).db.runs))
    ensures Next(clock, w, s).db.runs == w.db.runs || Next(clock, w, s).db == ReclaimRun(w.db, s.run, s.now)
  {
  }

  lemma ReclaimEvolves(clock: Clockwork, w: World, s: Step)
    requires Inv(w) && s.Reclaim?
    ensures Evolves(w, Next(clock, w, s)) && Next(clock, w, s).decided <= w.issued
  {
    var v := Next(clock, w, s);
    ReclaimMovesOneRun(clock, w, s);
    RunsOnlyEvolve(w, v.db.runs);
  }

  lemma RunTableStepEvolves(clock: Clockwork, w: World, s: Step)
    requires Inv(w) && (s.Decide? || s.Heartbeat? || s.PruneHistory?)
    ensures Evolves(w, Next(clock, w, s)) && Next(clock, w, s).decided <= w.issued
  {
    match s {
      case Heartbeat(token, now) => RunsOnlyEvolve(w, RefreshLease(w.db, token, now).runs);
      case PruneHistory(cutoff) => RunsOnlyEvolve(w, Prune(w.db, cutoff).runs);
      case _ =>
    }
  }

  lemma JobsOnlyEvolve(w: World, jobs: map<JobId, Job>)
    requires Inv(w) && w.db.jobs.Keys <= jobs.Keys
    ensures Evolves(w, w.(db := w.db.(jobs := jobs)))
  {
  }

  lemma SwitchMovesJobsOnly(clock: Clockwork, w: World, s: Step)
    requires s.PauseJob? || s.ResumeJob?
    ensures Next(clock, w, s) == w.(db := w.db.(jobs := Next(clock, w, s).db.jobs))
    ensures w.db.jobs.Keys <= Next(clock, w, s).db.jobs.Keys
  {
  }

  lemma SwitchStepEvolves(clock: Clockwork, w: World, s: Step)
    requires Inv(w) && (s.PauseJob? || s.ResumeJob?)
    ensures Evolves(w, Next(clock, w, s)) && Next(clock, w, s).decided <= w.issued
  {
    SwitchMovesJobsOnly(clock, w, s);
    JobsOnlyEvolve(w, Next(clock, w, s).db.jobs);
  }

  lemma DeleteEvolves(clock: Clockwork, w: World, s: Step)
    requires Inv(w) && s.DeleteJob?
    ensures Evolves(w, Next(clock, w, s)) && Next(clock, w, s).decided <= w.issued
  {
  }

  lemma WriteStepEvolves(clock: Clockwork, w: World, s: Step)
    requires Inv(w) && (s.WriteJob? || s.SyncJob?)
    ensures Evolves(w, Next(clock, w, s)) && Next(clock, w, s).decided <= w.issued
  {
    JobsOnlyEvolve(w, Next(clock, w, s).db.jobs);
  }

  lemma ReadEvolves(clock: Clockwork, w: World, s: Step)
    requires Inv(w) && s.ReadRow?
    ensures Evolves(w, Next(clock, w, s)) && Next(clock, w, s).decided <= w.issued
  {
  }

  lemma CrashEvolves(clock: Clockwork, w: World, s: Step)
    requires Inv(w) && s.Crash?
    ensures Evolves(w, Next(clock, w, s)) && Next(clock, w, s).decided <= w.issued
  {
  }

  lemma StepEvolves(clock: Clockwork, w: World, s: Step)
    requires Inv(w) && !s.Insert?
    ensures Evolves(w, Next(clock, w, s)) && Next(clock, w, s).decided <= w.issued
  {
    match s {
      case Succeed(_, _) => CompletionEvolves(clock, w, s);
      case Fail(_, _, _) => CompletionEvolves(clock, w, s);
      case ReadRow(_) => ReadEvolves(clock, w, s);
      case Crash(_) => CrashEvolves(clock, w, s);
      case PauseJob(_, _) => SwitchStepEvolves(clock, w, s);
      case ResumeJob(_, _, _) => SwitchStepEvolves(clock, w, s);
      case WriteJob(_, _) => WriteStepEvolves(clock, w, s);
      case SyncJob(_, _) => WriteStepEvolves(clock, w, s);
      case DeleteJob(_) => DeleteEvolves(clock, w, s);
      case Reclaim(_, _) => ReclaimEvolves(clock, w, s);
      case _ => RunTableStepEvolves(clock, w, s);
    }
  }

  lemma StepKeepsInv(clock: Clockwork, w: World, s: Step)
    requires Inv(w)
    ensures Inv(Next(clock, w, s))
  {
    if s.Insert? {
      InsertKeepsInv(clock, w, s);
    } else {
      StepEvolves(clock, w, s);
      EvolvingKeepsInv(w, Next(clock, w, s));
    }
  }

  /**
   * In every state any interleaving reaches, each job has at most one running run, and the attempt numbers of the
   * runs it still has are distinct.
   */
  lemma {:induction false} EveryStateIsSafe(clock: Clockwork, w: World, steps: seq<Step>)
    requires Inv(w)
    ensures Inv(After(clock, w, steps))
    decreases |steps|
  {
    if steps != [] {
      StepKeepsInv(clock, w, steps[0]);
      EveryStateIsSafe(clock, Next(clock, w, steps[0]), steps[1..]);
    }
  }

  // --- Terminal runs ---

  lemma StepKeepsTerminal(clock: Clockwork, w: World, s: Step, r: RunId)
    requires Inv(w) && r in w.issued
    requires r in w.db.runs ==> w.db.runs[r].status != Running
    ensures var v := Next(clock, w, s);
      r in v.issued && (r in v.db.runs ==> r in w.db.runs && v.db.runs[r] == w.db.runs[r])
  {
    if !s.Insert? {
      StepEvolves(clock, w, s);
    }
  }

  /** A terminal run is never touched again: its whole row stays until it is pruned, and it never comes back. */
  lemma {:induction false} TerminalIsForever(clock: Clockwork, w: World, steps: seq<Step>, r: RunId)
    requires Inv(w) && r in w.issued
    requires r in w.db.runs ==> w.db.runs[r].status != Running
    ensures var v := After(clock, w, steps);
      r in v.db.runs ==> r in w.db.runs && v.db.runs[r] == w.db.runs[r]
    decreases |steps|
  {
    if steps != [] {
      StepKeepsTerminal(clock, w, steps[0], r);
      StepKeepsInv(clock, w, steps[0]);
      TerminalIsForever(clock, Next(clock, w, steps[0]), steps[1..], r);
    }
  }

  // --- Fencing ---

  /** The success transaction of `r` commits in this step. */
  ghost predicate Commits(clock: Clockwork, w: World, s: Step) {
    s.Succeed? && s.run in w.claims && CompleteSuccess(w.db, clock, w.claims[s.run], s.now).1 == Committed
  }

  /** Steps that write a job row from outside the run protocol. */
  predicate OutsideWrite(s: Step) {
    s.DeleteJob? || s.WriteJob? || s.SyncJob?
  }

  /** A completion of a run that is no longer running changes nothing at all, in either table. */
  lemma LateCompletionIsInert(clock: Clockwork, w: World, s: Step)
    requires Inv(w) && (s.Succeed? || s.Fail?) && s.run in w.issued
    requires s.run in w.db.runs ==> w.db.runs[s.run].status != Running
    ensures Next(clock, w, s).db == w.db
  {
  }

  /**
   * A completion is carried out and forgotten: the run of a claim that still holds it has ended, and ends only once.
   */
  lemma CompletionHappensOnce(clock: Clockwork, w: World, s: Step)
    requires Inv(w) && (s.Succeed? || s.Fail?) && s.run in w.claims
    ensures var (v, claim) := (Next(clock, w, s), w.claims[s.run]);
      && s.run !in v.claims && Next(clock, v, s) == v
      && (forall r :: r in w.claims && r != s.run ==> r in v.claims && v.claims[r] == w.claims[r])
      && v.db == (if s.Succeed? then CompleteSuccess(w.db, clock, claim, s.now).0
                  else CompleteFailure(w.db, clock, claim, s.now, s.error).0)
      && (s.Fail? && s.run in w.db.runs && w.db.runs[s.run].status == Running ==> v.db.runs[s.run].status == Failed)
  {
  }

  /** A run ends by its own completion, or by a scheduler that has decided to reclaim it. */
  lemma RunsEndForAReason(clock: Clockwork, w: World, s: Step, r: RunId)
    requires Inv(w) && r in w.db.runs && w.db.runs[r].status == Running
    requires r in Next(clock, w, s).db.runs && Next(clock, w, s).db.runs[r].status != Running
    ensures (s.Succeed? || s.Fail? || s.Reclaim?) && s.run == r
    ensures if s.Reclaim? then r in w.decided else r in w.claims && w.claims[r].token == w.db.runs[r].token
  {
    if s.Succeed? && s.run in w.claims {
      SuccessTouchesOneRun(w.db, clock, w.claims[s.run], s.now);
    } else if s.Fail? && s.run in w.claims {
      FailureTouchesOneRun(w.db, clock, w.claims[s.run], s.now, s.error);
    }
  }

  /** And that has been decided only on an expired lease that was 120 minutes late or had no live owner. */
  lemma ReclaimsAreDecidedOnExpiry(clock: Clockwork, w: World, s: Step, r: RunId)
    requires r in w.db.runs && r !in w.decided && r in Next(clock, w, s).decided
    ensures s.Decide? && w.db.runs[r].job == s.job && w.db.runs[r].status == Running && w.db.runs[r].lease <= s.now
    ensures
      || s.now - w.db.runs[r].lease >= 7_200_000 || w.db.runs[r].owner.None?
      || w.db.runs[r].owner.value <= 0 || w.db.runs[r].owner.value !in s.alive
  {
  }

  /** What an operator does: a pause, a resume at the next run of the schedule that was read, and a deletion. */
  lemma OperatorSteps(clock: Clockwork, w: World, job: JobId, expression: string, now: Time)
    requires job in w.db.jobs
    ensures var (row, paused) := (w.db.jobs[job], Next(clock, w, PauseJob(job, now)));
      && paused.db.runs == w.db.runs
      && paused.db.jobs == w.db.jobs[job := row.(enabled := false, next := None, updated := now)]
    ensures var (row, next) := (w.db.jobs[job], NextRun(clock, expression, now));
      var resumed := Next(clock, w, ResumeJob(job, expression, now));
      && resumed.db.runs == w.db.runs
      && (next.None? ==> resumed == w)
      && (next.Some? ==> resumed.db.jobs == w.db.jobs[job := row.(enabled := true, next := next, updated := now)])
    ensures var deleted := Next(clock, w, DeleteJob(job));
      && deleted.db.jobs == w.db.jobs - {job}
      && forall r :: r in deleted.db.runs <==> r in w.db.runs && w.db.runs[r].job != job
  {
    if NextRun(clock, expression, now).Some? {
      SwitchMeaning(w.db, job, NextRun(clock, expression, now).value, now);
    }
  }

  /** A crash forgets what the lost executors had in memory, and nothing that is stored. */
  lemma CrashForgets(clock: Clockwork, w: World, lost: set<RunId>, r: RunId)
    ensures var v := Next(clock, w, Crash(lost));
      && v.db == w.db && v.issued == w.issued && v.tokens == w.tokens
      && (r in v.decided <==> r in w.decided && r !in lost)
      && (r in v.inserted <==> r in w.inserted && r !in lost)
      && (r in v.claims <==> r in w.claims && r !in lost)
  {
  }

  /** The heartbeat of the execution that holds `token`. */
  predicate OwnBeat(s: Step, token: Token) {
    s.Heartbeat? && s.token == token
  }

  /** The lease of a run after `steps`, as far as its own heartbeats go. */
  function LeaseAfter(lease: Time, token: Token, steps: seq<Step>): Time {
    if steps == [] then lease
    else
      var last := steps[|steps| - 1];
      if OwnBeat(last, token) then last.now + LEASE_DURATION else LeaseAfter(lease, token, steps[..|steps| - 1])
  }

  lemma {:induction false} NoBeatKeepsLease(lease: Time, token: Token, steps: seq<Step>)
    requires forall i :: 0 <= i < |steps| ==> !OwnBeat(steps[i], token)
    ensures LeaseAfter(lease, token, steps) == lease
  {
    if steps != [] {
      NoBeatKeepsLease(lease, token, steps[..|steps| - 1]);
    }
  }

  lemma {:induction false} LeaseAfterHead(lease: Time, token: Token, s: Step, rest: seq<Step>)
    ensures LeaseAfter(lease, token, [s] + rest) ==
            LeaseAfter(if OwnBeat(s, token) then s.now + LEASE_DURATION else lease, token, rest)
  {
    if rest == [] {
      assert [s] + rest == [s];
      assert [s][..0] == [];
    } else {
      var n := |rest| - 1;
      assert ([s] + rest)[..n + 1] == [s] + rest[..n];
      LeaseAfterHead(lease, token, s, rest[..n]);
    }
  }

  /** While the run is running it has this token and this lease. */
  predicate Leased(w: World, r: RunId, token: Token, lease: Time) {
    r in w.db.runs && w.db.runs[r].status == Running ==> w.db.runs[r].token == token && w.db.runs[r].lease == lease
  }

  /** If the run is still running afterwards, its row is the one it was. */
  ghost predicate KeepsWhileRunning(w: World, v: World, r: RunId) {
    r in v.db.runs && r in w.db.runs && v.db.runs[r].status == Running ==> v.db.runs[r] == w.db.runs[r]
  }

  lemma JobStepsKeepRuns(clock: Clockwork, w: World, s: Step, r: RunId)
    requires s.PauseJob? || s.ResumeJob? || s.WriteJob? || s.SyncJob?
    ensures KeepsWhileRunning(w, Next(clock, w, s), r)
  {
  }

  lemma MemoryStepsKeepRuns(clock: Clockwork, w: World, s: Step, r: RunId)
    requires s.ReadRow? || s.Crash? || s.Decide?
    ensures KeepsWhileRunning(w, Next(clock, w, s), r)
  {
  }

  lemma RunStepsKeepRuns(clock: Clockwork, w: World, s: Step, r: RunId)
    requires Inv(w) && (s.Insert? || s.PruneHistory? || s.DeleteJob? || s.Reclaim?)
    ensures KeepsWhileRunning(w, Next(clock, w, s), r)
  {
  }

  lemma CompletionsKeepRuns(clock: Clockwork, w: World, s: Step, r: RunId)
    requires Inv(w) && (s.Succeed? || s.Fail?)
    ensures KeepsWhileRunning(w, Next(clock, w, s), r)
  {
    if s.run in w.claims {
      if s.Succeed? {
        SuccessTouchesOneRun(w.db, clock, w.claims[s.run], s.now);
      } else {
        FailureTouchesOneRun(w.db, clock, w.claims[s.run], s.now, s.error);
      }
    }
  }

  lemma OnlyBeatsMoveLeases(clock: Clockwork, w: World, s: Step, r: RunId)
    requires Inv(w) && !s.Heartbeat?
    ensures KeepsWhileRunning(w, Next(clock, w, s), r)
  {
    if s.Succeed? || s.Fail? {
      CompletionsKeepRuns(clock, w, s, r);
    } else if s.Insert? || s.PruneHistory? || s.DeleteJob? || s.Reclaim? {
      RunStepsKeepRuns(clock, w, s, r);
    } else if s.ReadRow? || s.Crash? || s.Decide? {
      MemoryStepsKeepRuns(clock, w, s, r);
    } else {
      JobStepsKeepRuns(clock, w, s, r);
    }
  }

  lemma BeatMovesLease(clock: Clockwork, w: World, s: Step, r: RunId, token: Token, lease: Time)
    requires s.Heartbeat? && r in w.db.runs && Leased(w, r, token, lease)
    ensures Leased(Next(clock, w, s), r, token, if OwnBeat(s, token) then s.now + LEASE_DURATION else lease)
  {
  }

  lemma KeepingKeepsLease(w: World, v: World, r: RunId, token: Token, lease: Time)
    requires Leased(w, r, token, lease) && KeepsWhileRunning(w, v, r) && r in w.db.runs
    ensures Leased(v, r, token, lease)
  {
  }

  lemma LeaseMoves(clock: Clockwork, w: World, s: Step, r: RunId, token: Token, lease: Time)
    requires Inv(w) && r in w.issued && Leased(w, r, token, lease)
    ensures Leased(Next(clock, w, s), r, token, if OwnBeat(s, token) then s.now + LEASE_DURATION else lease)
  {
    if r !in w.db.runs || w.db.runs[r].status != Running {
      StepKeepsTerminal(clock, w, s, r);
    } else if s.Heartbeat? {
      BeatMovesLease(clock, w, s, r, token, lease);
    } else {
      OnlyBeatsMoveLeases(clock, w, s, r);
      KeepingKeepsLease(w, Next(clock, w, s), r, token, lease);
    }
  }

  /** While a run is running, its lease is the one its own last heartbeat gave it, whatever anyone else did. */
  lemma {:induction false} LeaseFollowsTheHeartbeats(
      clock: Clockwork, w: World, steps: seq<Step>, r: RunId, token: Token, lease: Time)
    requires Inv(w) && r in w.issued && Leased(w, r, token, lease)
    ensures Leased(After(clock, w, steps), r, token, LeaseAfter(lease, token, steps))
    decreases |steps|
  {
    if steps != [] {
      var s, rest := steps[0], steps[1..];
      var next := if OwnBeat(s, token) then s.now + LEASE_DURATION else lease;
      StepKeepsInv(clock, w, s);
      LeaseMoves(clock, w, s, r, token, lease);
      NextIssues(clock, w, s, r);
      LeaseFollowsTheHeartbeats(clock, Next(clock, w, s), rest, r, token, next);
      LeaseAfterHead(lease, token, s, rest);
      HeadAndTail(steps);
    }
  }

  lemma NextIssues(clock: Clockwork, w: World, s: Step, r: RunId)
    requires r in w.issued
    ensures r in Next(clock, w, s).issued
  {
  }

  /**
   * The lease a decided reclaim hits, whatever happens between the decision at `seen` and the update: the lease that
   * was found expired, unless the run's own executor renewed it in between, and then the renewed one.
   */
  lemma ReclaimHitsTheLastRenewal(
      clock: Clockwork, w: World, job: JobId, seen: Time, alive: set<Pid>, r: RunId, steps: seq<Step>, now: Time)
    requires Inv(w) && Reclaimable(w.db.runs, job, seen, alive, r)
    ensures var v := After(clock, Next(clock, w, Decide(job, seen, alive)), steps);
      var (lease, token) := (w.db.runs[r].lease, w.db.runs[r].token);
      r in v.decided && r in v.db.runs && v.db.runs[r].status == Running ==>
        && Next(clock, v, Reclaim(r, now)).db.runs[r].status == Failed
        && v.db.runs[r].lease == LeaseAfter(lease, token, steps)
        && ((forall i :: 0 <= i < |steps| ==> !OwnBeat(steps[i], token)) ==> v.db.runs[r].lease == lease <= seen)
  {
    var u := Next(clock, w, Decide(job, seen, alive));
    var (lease, token) := (w.db.runs[r].lease, w.db.runs[r].token);
    StepKeepsInv(clock, w, Decide(job, seen, alive));
    NextIssues(clock, w, Decide(job, seen, alive), r);
    assert Leased(u, r, token, lease);
    LeaseFollowsTheHeartbeats(clock, u, steps, r, token, lease);
    DecidedIsFailed(clock, After(clock, u, steps), r, now);
    if forall i :: 0 <= i < |steps| ==> !OwnBeat(steps[i], token) {
      NoBeatKeepsLease(lease, token, steps);
    }
  }

  lemma DecidedIsFailed(clock: Clockwork, w: World, r: RunId, now: Time)
    ensures r in w.decided && r in w.db.runs && w.db.runs[r].status == Running ==>
      Next(clock, w, Reclaim(r, now)).db.runs[r] == Reclaimed(w.db.runs[r], now)
  {
  }

  /**
   * The reclaiming update does not look at the lease again: once a scheduler has decided, a heartbeat that renews the
   * lease first does not save the run.
   */
  lemma RenewalDoesNotStopADecidedReclaim(clock: Clockwork, w: World, r: RunId, beat: Time, now: Time)
    requires Inv(w) && r in w.decided && r in w.db.runs && w.db.runs[r].status == Running
    ensures var renewed := Next(clock, w, Heartbeat(w.db.runs[r].token, beat));
      && renewed.db.runs[r].lease == beat + LEASE_DURATION
      && Next(clock, renewed, Reclaim(r, now)).db.runs[r].status == Failed
  {
  }

  lemma AfterCons(clock: Clockwork, w: World, s: Step, rest: seq<Step>)
    ensures After(clock, w, [s] + rest) == After(clock, Next(clock, w, s), rest)
  {
    assert ([s] + rest)[1..] == rest;
  }

  const LATE: Time := LEASE_DURATION + STALE_LEASE_SAFETY_NET

  /** A first run of `job`, claimed at time 0 by process 7, at the moment its claim has been read. */
  ghost function FirstRun(jobs: map<JobId, Job>, job: JobId, run: Run, decided: set<RunId>): World
    requires job in jobs
  {
    World(Db(jobs, map[0 := run]), {0}, {0}, decided, map[], map[0 := Claim(0, 0, job, jobs[job], false)])
  }

  lemma FirstRunStarts(clock: Clockwork, jobs: map<JobId, Job>, job: JobId)
    requires job in jobs
    ensures After(clock, World(Db(jobs, map[]), {}, {}, {}, map[], map[]), [Insert(job, 0, 0, 7, 0, false), ReadRow(0)])
            == FirstRun(jobs, job, NewRun(job, 0, 1, 0, 7), {})
  {
    var insert, read := Insert(job, 0, 0, 7, 0, false), ReadRow(0);
    var w := World(Db(jobs, map[]), {}, {}, {}, map[], map[]);
    var inserted :=
      World(Db(jobs, map[0 := NewRun(job, 0, 1, 0, 7)]), {0}, {0}, {}, map[0 := Inserted(0, 0, job, false)], map[]);
    assert Next(clock, w, insert) == inserted by {
      assert CanInsert(w.db, job, 0, false);
      assert NextAttempt(w.db.runs, job) == 1;
      assert {} + {0} == {0};
    }
    assert Next(clock, inserted, read) == FirstRun(jobs, job, NewRun(job, 0, 1, 0, 7), {});
    AfterCons(clock, inserted, read, []);
    AfterCons(clock, w, insert, [read] + []);
    assert [insert] + ([read] + []) == [insert, read];
  }

  lemma LateRunIsDecided(clock: Clockwork, jobs: map<JobId, Job>, job: JobId, run: Run)
    requires job in jobs && run == NewRun(job, 0, 1, 0, 7)
    ensures Next(clock, FirstRun(jobs, job, run, {}), Decide(job, LATE, {7})) == FirstRun(jobs, job, run, {0})
  {
    var w := FirstRun(jobs, job, run, {});
    assert RunningFor(w.db.runs, job, 0) && Reclaimable(w.db.runs, job, LATE, {7}, 0);
    assert (set r | r in w.db.runs && Reclaimable(w.db.runs, job, LATE, {7}, r)) == {0};
  }

  lemma LateRunIsRenewed(clock: Clockwork, jobs: map<JobId, Job>, job: JobId, run: Run)
    requires job in jobs && run == NewRun(job, 0, 1, 0, 7)
    ensures Next(clock, FirstRun(jobs, job, run, {0}), Heartbeat(0, LATE)) ==
            FirstRun(jobs, job, run.(lease := LATE + LEASE_DURATION), {0})
  {
    var w := FirstRun(jobs, job, run, {0});
    assert RefreshLease(w.db, 0, LATE).runs == map[0 := run.(lease := LATE + LEASE_DURATION)];
  }

  /**
   * A run of the protocol in which that happens: a live owner is late by the safety net, renews its lease just after a
   * scheduler has looked at it, and is failed with the whole new lease before it.
   */
  lemma ARenewedRunIsReclaimed(clock: Clockwork, jobs: map<JobId, Job>, job: JobId)
    requires job in jobs
    ensures var w := World(Db(jobs, map[]), {}, {}, {}, map[], map[]);
      var claimed := After(clock, w, [Insert(job, 0, 0, 7, 0, false), ReadRow(0)]);
      var v := After(clock, claimed, [Decide(job, LATE, {7}), Heartbeat(0, LATE), Reclaim(0, LATE)]);
      && Fresh(w)
      && 0 in v.db.runs && v.db.runs[0].status == Failed
      && v.db.runs[0].owner == Some(7) && v.db.runs[0].completed == Some(LATE)
      && v.db.runs[0].lease == LATE + LEASE_DURATION
  {
    EmptyDatabaseIsFresh(jobs);
    FirstRunStarts(clock, jobs, job);
    var run := NewRun(job, 0, 1, 0, 7);
    var renewed := run.(lease := LATE + LEASE_DURATION);
    var decide, beat, reclaim := Decide(job, LATE, {7}), Heartbeat(0, LATE), Reclaim(0, LATE);
    LateRunIsDecided(clock, jobs, job, run);
    LateRunIsRenewed(clock, jobs, job, run);
    DecidedIsFailed(clock, FirstRun(jobs, job, renewed, {0}), 0, LATE);
    AfterCons(clock, FirstRun(jobs, job, renewed, {0}), reclaim, []);
    AfterCons(clock, FirstRun(jobs, job, run, {0}), beat, [reclaim] + []);
    AfterCons(clock, FirstRun(jobs, job, run, {}), decide, [beat] + ([reclaim] + []));
    assert [decide] + ([beat] + ([reclaim] + [])) == [decide, beat, reclaim];
  }

  /**
   * After a run has been reclaimed, whatever its old executor still does, and whatever everyone else does meanwhile,
   * its completion leaves both tables alone.
   */
  lemma ReclaimFencesTheOldExecutor(clock: Clockwork, w: World, steps: seq<Step>, r: RunId, now: Time, late: Step)
    requires Inv(w) && r in w.decided
    requires (late.Succeed? || late.Fail?) && late.run == r
    ensures var v := After(clock, Next(clock, w, Reclaim(r, now)), steps);
      Next(clock, v, late).db == v.db
  {
    var u := Next(clock, w, Reclaim(r, now));
    StepKeepsInv(clock, w, Reclaim(r, now));
    TerminalIsForever(clock, u, steps, r);
    EveryStateIsSafe(clock, u, steps);
    IssuedGrows(clock, u, steps, r);
    LateCompletionIsInert(clock, After(clock, u, steps), late);
  }

  lemma {:induction false} IssuedGrows(clock: Clockwork, w: World, steps: seq<Step>, r: RunId)
    requires r in w.issued
    ensures r in After(clock, w, steps).issued
    decreases |steps|
  {
    if steps != [] {
      IssuedGrows(clock, Next(clock, w, steps[0]), steps[1..], r);
    }
  }

  ghost predicate KeepsContent(w: World, v: World, job: JobId)
    requires job in w.db.jobs
  {
    job in v.db.jobs && v.db.jobs[job].expression == w.db.jobs[job].expression
      && v.db.jobs[job].payload == w.db.jobs[job].payload
  }

  lemma OtherStepsKeepContent(clock: Clockwork, w: World, s: Step, job: JobId)
    requires !OutsideWrite(s) && !s.Succeed? && !s.Fail? && job in w.db.jobs
    ensures KeepsContent(w, Next(clock, w, s), job)
  {
  }

  lemma FailuresKeepContent(clock: Clockwork, w: World, s: Step, job: JobId)
    requires s.Fail? && job in w.db.jobs
    ensures KeepsContent(w, Next(clock, w, s), job)
  {
  }

  /** Only the completion that itself moves its run from running to succeeded changes a job's payload. */
  lemma OnlyCommitsChangePayload(clock: Clockwork, w: World, s: Step, job: JobId)
    requires Inv(w) && !OutsideWrite(s) && job in w.db.jobs
    ensures var v := Next(clock, w, s);
      && job in v.db.jobs && v.db.jobs[job].expression == w.db.jobs[job].expression
      && (v.db.jobs[job].payload != w.db.jobs[job].payload ==>
            && Commits(clock, w, s) && w.claims[s.run].job == job
            && w.db.runs[s.run].status == Running && v.db.runs[s.run].status == Succeeded)
  {
    if s.Fail? {
      FailuresKeepContent(clock, w, s, job);
    } else if !s.Succeed? {
      OtherStepsKeepContent(clock, w, s, job);
    }
  }
}
