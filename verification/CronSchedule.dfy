/**
 * The schedule of one job over whole runs of the protocol: when it rests, and that it goes on. src/cron/scheduler.rs,
 * lines 699-799 and 864-1066.
 */
module CronSchedule {
  import opened Prelude
  import opened Json
  import opened Repeat
  import opened CronRows
  import opened CronTables
  import opened FailureSchedule
  import opened CronProtocol
  import opened CronCounter

  // --- A job rests until its next run ---

  /** Nothing of the job is running, and its row names no next run before `t`. */
  ghost predicate Resting(w: World, job: JobId, t: Time) {
    && job in w.db.jobs && !HasRunning(w.db.runs, job)
    && (w.db.jobs[job].next.Some? ==> w.db.jobs[job].next.value >= t)
  }

  /** No resume and no outside write of the job, and it is claimed for its schedule only, before `t`. */
  predicate Waits(s: Step, job: JobId, t: Time) {
    match s
    case Insert(j, _, _, _, now, scheduled) => j == job ==> scheduled && now < t
    case ResumeJob(j, _, _) => j != job
    case DeleteJob(j) => j != job
    case WriteJob(j, _) => j != job
    case SyncJob(j, _) => j != job
    case _ => true
  }

  lemma InsertWaits(clock: Clockwork, w: World, s: Step, job: JobId, t: Time)
    requires Inv(w) && Resting(w, job, t) && s.Insert? && Waits(s, job, t)
    ensures Resting(Next(clock, w, s), job, t)
    ensures JobRuns(Next(clock, w, s).db.runs, job) == JobRuns(w.db.runs, job)
  {
    var v := Next(clock, w, s);
    forall r ensures RunningFor(v.db.runs, job, r) <==> RunningFor(w.db.runs, job, r) {
    }
  }

  lemma StepKeepsResting(clock: Clockwork, w: World, s: Step, job: JobId, t: Time)
    requires Inv(w) && Resting(w, job, t) && Waits(s, job, t)
    ensures Resting(Next(clock, w, s), job, t)
    ensures JobRuns(Next(clock, w, s).db.runs, job) <= JobRuns(w.db.runs, job)
  {
    if s.Insert? {
      InsertWaits(clock, w, s, job, t);
    } else {
      if CommitsFor(clock, w, s, job) {
        CommitEndsTheRun(clock, w, s, job);
      }
      IdleHasNoScheduledRun(w, job);
      StepKeepsOrRetires(clock, w, s, job);
      IdleStaysIdle(clock, w, s, job);
    }
  }

  lemma {:induction false} RestsUntilItsTime(clock: Clockwork, w: World, steps: seq<Step>, job: JobId, t: Time)
    requires Inv(w) && Resting(w, job, t) && forall i :: 0 <= i < |steps| ==> Waits(steps[i], job, t)
    ensures var v := After(clock, w, steps);
      Resting(v, job, t) && JobRuns(v.db.runs, job) <= JobRuns(w.db.runs, job)
    decreases |steps|
  {
    if steps != [] {
      StepKeepsResting(clock, w, steps[0], job, t);
      StepKeepsInv(clock, w, steps[0]);
      RestsUntilItsTime(clock, Next(clock, w, steps[0]), steps[1..], job, t);
    }
  }

  /**
   * After a success that leaves the job at its next run `t`, the schedule starts nothing of it before `t`, whatever any
   * number of schedulers and executors do.
   */
  lemma NothingStartsBeforeItsTime(clock: Clockwork, w: World, s: Step, job: JobId, steps: seq<Step>, t: Time)
    requires Inv(w) && CommitsFor(clock, w, s, job)
    requires var v := Next(clock, w, s); job in v.db.jobs && v.db.jobs[job].next == Some(t)
    requires forall i :: 0 <= i < |steps| ==> Waits(steps[i], job, t)
    ensures var (v, u) := (Next(clock, w, s), After(clock, Next(clock, w, s), steps));
      && (forall r :: r in u.db.runs && u.db.runs[r].job == job ==> r in v.db.runs && v.db.runs[r].job == job)
      && forall r :: r in u.db.runs && u.db.runs[r].job == job ==> u.db.runs[r].status != Running
  {
    var v := Next(clock, w, s);
    CommitEndsTheRun(clock, w, s, job);
    StepKeepsInv(clock, w, s);
    RestsUntilItsTime(clock, v, steps, job, t);
    forall r | r in After(clock, v, steps).db.runs && After(clock, v, steps).db.runs[r].job == job
      ensures r in v.db.runs && v.db.runs[r].job == job
    {
      assert r in JobRuns(After(clock, v, steps).db.runs, job);
      assert r in JobRuns(v.db.runs, job);
    }
    forall r | r in After(clock, v, steps).db.runs && After(clock, v, steps).db.runs[r].job == job
      ensures After(clock, v, steps).db.runs[r].status != Running
    {
      assert !RunningFor(After(clock, v, steps).db.runs, job, r);
    }
  }

  // --- A job without a limit goes on ---

  predicate Unlimited(payload: Json) {
    CountsCleanly(payload) && (Times(payload).None? || Times(payload) == Some(0))
  }

  /** An enabled recurring job without a limit, with a next run, on whose row all its executions work. */
  ghost predicate GoesOn(w: World, job: JobId) {
    && Synchronised(w, job) && Unlimited(w.db.jobs[job].payload)
    && !("once:" <= w.db.jobs[job].expression) && w.db.jobs[job].enabled && w.db.jobs[job].next.Some?
  }

  predicate LeavesSwitch(s: Step, job: JobId) {
    match s
    case PauseJob(j, _) => j != job
    case DeleteJob(j) => j != job
    case WriteJob(j, _) => j != job
    case SyncJob(j, _) => j != job
    case _ => true
  }

  lemma CommitGoesOn(clock: Clockwork, w: World, s: Step, job: JobId)
    requires Inv(w) && GoesOn(w, job) && CommitsFor(clock, w, s, job)
    requires NextRun(clock, w.db.jobs[job].expression, s.now).Some?
    ensures GoesOn(Next(clock, w, s), job)
  {
    CommitCounts(clock, w, s, job);
    CommitRow(clock, w, s, job);
    IncrementKeepsTimes(w.db.jobs[job].payload);
  }

  lemma QuietStepGoesOn(clock: Clockwork, w: World, s: Step, job: JobId)
    requires Inv(w) && GoesOn(w, job) && LeavesSwitch(s, job) && !s.Succeed? && !s.Fail?
    ensures var v := Next(clock, w, s); job in v.db.jobs && v.db.jobs[job].enabled && v.db.jobs[job].next.Some?
  {
  }

  lemma FailureGoesOn(clock: Clockwork, w: World, s: Step, job: JobId)
    requires Inv(w) && GoesOn(w, job) && s.Fail? && s.run in w.claims && RunningFor(w.db.runs, job, s.run)
    requires NextRun(clock, w.db.jobs[job].expression, s.now).Some?
    ensures var v := Next(clock, w, s); job in v.db.jobs && v.db.jobs[job].enabled && v.db.jobs[job].next.Some?
  {
    HoldsExactlyWhileRunning(w, s.run);
    FailureMovesJob(w.db, clock, w.claims[s.run], s.now, s.error);
  }

  lemma OtherStepGoesOn(clock: Clockwork, w: World, s: Step, job: JobId)
    requires Inv(w) && GoesOn(w, job) && LeavesSwitch(s, job) && !CommitsFor(clock, w, s, job)
    requires s.Fail? ==> NextRun(clock, w.db.jobs[job].expression, s.now).Some?
    ensures var v := Next(clock, w, s); job in v.db.jobs && v.db.jobs[job].enabled && v.db.jobs[job].next.Some?
  {
    if !s.Succeed? && !s.Fail? {
      QuietStepGoesOn(clock, w, s, job);
    } else if !RunningFor(w.db.runs, job, s.run) {
      ForeignCompletionKeepsRow(clock, w, s, job);
    } else if s.run in w.claims {
      HoldsExactlyWhileRunning(w, s.run);
      if s.Fail? {
        FailureGoesOn(clock, w, s, job);
      } else {
        NoCommitKeepsJobs(clock, w, s);
      }
    }
  }

  lemma StepGoesOn(clock: Clockwork, w: World, s: Step, job: JobId)
    requires Inv(w) && GoesOn(w, job) && LeavesSwitch(s, job)
    requires forall t :: clock.following(w.db.jobs[job].expression, t).Some?
    ensures GoesOn(Next(clock, w, s), job)
    ensures Next(clock, w, s).db.jobs[job].expression == w.db.jobs[job].expression
  {
    if CommitsFor(clock, w, s, job) {
      CommitCounts(clock, w, s, job);
      CommitGoesOn(clock, w, s, job);
    } else {
      OtherStepIsNoEdit(clock, w, s, job);
      OtherStepsDoNotCount(clock, w, s, job);
      OtherStepGoesOn(clock, w, s, job);
    }
  }

  /**
   * A recurring job without a limit, of a schedule that always has a next time, stays enabled with a next run in every
   * run of the protocol in which it is neither paused nor written from outside, however often it succeeds or fails.
   */
  lemma {:induction false} UnlimitedJobGoesOn(clock: Clockwork, w: World, steps: seq<Step>, job: JobId)
    requires Inv(w) && GoesOn(w, job) && forall i :: 0 <= i < |steps| ==> LeavesSwitch(steps[i], job)
    requires forall t :: clock.following(w.db.jobs[job].expression, t).Some?
    ensures var v := After(clock, w, steps);
      && job in v.db.jobs && v.db.jobs[job].enabled && v.db.jobs[job].next.Some? && GoesOn(v, job)
      && v.db.jobs[job].expression == w.db.jobs[job].expression
    decreases |steps|
  {
    if steps != [] {
      StepGoesOn(clock, w, steps[0], job);
      StepKeepsInv(clock, w, steps[0]);
      UnlimitedJobGoesOn(clock, Next(clock, w, steps[0]), steps[1..], job);
    }
  }
}
