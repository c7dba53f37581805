/** The repeat counter of one job over whole runs of the protocol: src/cron/scheduler.rs, lines 256-302 and 864-964. */
module CronCounter {
  import opened Prelude
  import opened Json
  import opened Repeat
  import opened CronRows
  import opened FailureSchedule
  import opened CronTables
  import opened StoreMerge
  import opened CronProtocol

  // --- What the compare-and-swap on the job row relies on ---

  /** Every execution of `job` that still holds its run works on the row as it is now. */
  ghost predicate Synchronised(w: World, job: JobId) {
    && job in w.db.jobs
    && forall r :: r in w.claims && RunningFor(w.db.runs, job, r) ==>
         && w.claims[r].snapshot.expression == w.db.jobs[job].expression
         && w.claims[r].snapshot.payload == w.db.jobs[job].payload
  }

  /** An outside write that leaves the row without, or with another, expression or payload. */
  ghost predicate EditsRow(clock: Clockwork, w: World, s: Step, job: JobId)
    requires job in w.db.jobs
  {
    var v := Next(clock, w, s);
    && OutsideWrite(s)
    && (job in v.db.jobs ==>
          v.db.jobs[job].expression != w.db.jobs[job].expression || v.db.jobs[job].payload != w.db.jobs[job].payload)
  }

  ghost predicate CommitsFor(clock: Clockwork, w: World, s: Step, job: JobId) {
    Commits(clock, w, s) && w.claims[s.run].job == job
  }

  /** A scheduled success that finds its job disabled and has no schedule to retire: its update misses the row. */
  ghost predicate Misses(clock: Clockwork, w: World, s: Step, job: JobId)
    requires job in w.db.jobs
  {
    && CommitsFor(clock, w, s, job)
    && w.claims[s.run].advance && !Finishes(w.claims[s.run].snapshot) && !w.db.jobs[job].enabled
  }

  lemma HoldsExactlyWhileRunning(w: World, r: RunId)
    requires Inv(w) && r in w.claims
    ensures Holds(w.db, w.claims[r]) <==> RunningFor(w.db.runs, w.claims[r].job, r)
  {
  }

  /** The job row a commit leaves, given that its execution worked on the row as it is. */
  function CommittedRow(clock: Clockwork, row: Job, advance: bool, now: Time): Job {
    var payload := IncrementRepeatCompleted(row.payload).0;
    if !advance then row.(payload := payload, updated := now)
    else if Finishes(row) then Retire(row, now).(payload := payload)
    else if row.enabled then row.(next := NextRun(clock, row.expression, now), payload := payload, updated := now)
    else row
  }

  lemma CommitRow(clock: Clockwork, w: World, s: Step, job: JobId)
    requires Inv(w) && Synchronised(w, job) && CommitsFor(clock, w, s, job)
    ensures job in Next(clock, w, s).db.jobs
    ensures Next(clock, w, s).db.jobs[job] == CommittedRow(clock, w.db.jobs[job], w.claims[s.run].advance, s.now)
    ensures Finishes(w.claims[s.run].snapshot) <==> Finishes(w.db.jobs[job])
  {
    HoldsExactlyWhileRunning(w, s.run);
    assert Matches(w.db, w.claims[s.run]);
  }

  lemma OnlyTheTouchedRunRan(w: World, after: Db, claim: Claim)
    requires Inv(w) && TouchesOnly(w.db, after, claim) && RunningFor(w.db.runs, claim.job, claim.run)
    requires claim.run in after.runs && after.runs[claim.run].status != Running
    ensures !HasRunning(after.runs, claim.job)
  {
    forall r ensures !RunningFor(after.runs, claim.job, r) {
      assert RunningFor(after.runs, claim.job, r) ==> RunningFor(w.db.runs, claim.job, r);
    }
  }

  lemma CommitEndsTheRun(clock: Clockwork, w: World, s: Step, job: JobId)
    requires Inv(w) && CommitsFor(clock, w, s, job)
    ensures RunningFor(w.db.runs, job, s.run) && !HasRunning(Next(clock, w, s).db.runs, job)
  {
    HoldsExactlyWhileRunning(w, s.run);
    SuccessTouchesOneRun(w.db, clock, w.claims[s.run], s.now);
    OnlyTheTouchedRunRan(w, Next(clock, w, s).db, w.claims[s.run]);
  }

  lemma IdleIsSynchronised(w: World, job: JobId)
    requires job in w.db.jobs && !HasRunning(w.db.runs, job)
    ensures Synchronised(w, job)
  {
  }

  lemma CommitCounts(clock: Clockwork, w: World, s: Step, job: JobId)
    requires Inv(w) && Synchronised(w, job) && CommitsFor(clock, w, s, job)
    ensures var v := Next(clock, w, s);
      && Synchronised(v, job) && v.db.jobs[job].expression == w.db.jobs[job].expression
      && v.db.jobs[job].payload ==
           (if Misses(clock, w, s, job) then w.db.jobs[job].payload
            else IncrementRepeatCompleted(w.db.jobs[job].payload).0)
      && !HasRunning(v.db.runs, job)
  {
    CommitRow(clock, w, s, job);
    CommitEndsTheRun(clock, w, s, job);
    IdleIsSynchronised(Next(clock, w, s), job);
  }

  /** The part of a row that the compare-and-swap looks at. */
  ghost predicate SameContent(w: World, v: World, job: JobId)
    requires job in w.db.jobs
  {
    && job in v.db.jobs
    && v.db.jobs[job].payload == w.db.jobs[job].payload && v.db.jobs[job].expression == w.db.jobs[job].expression
  }

  lemma OutsideWriteKeepsContent(clock: Clockwork, w: World, s: Step, job: JobId)
    requires Inv(w) && job in w.db.jobs && OutsideWrite(s) && !EditsRow(clock, w, s, job)
    ensures SameContent(w, Next(clock, w, s), job)
  {
  }

  lemma OtherStepKeepsContent(clock: Clockwork, w: World, s: Step, job: JobId)
    requires Inv(w) && job in w.db.jobs && !CommitsFor(clock, w, s, job) && !EditsRow(clock, w, s, job)
    ensures SameContent(w, Next(clock, w, s), job)
  {
    if OutsideWrite(s) {
      OutsideWriteKeepsContent(clock, w, s, job);
    } else {
      OnlyCommitsChangePayload(clock, w, s, job);
    }
  }

  lemma ContentKeepsSynchronised(w: World, v: World, job: JobId)
    requires Synchronised(w, job) && SameContent(w, v, job)
    requires forall r :: r in v.claims && RunningFor(v.db.runs, job, r) ==>
      && RunningFor(w.db.runs, job, r)
      && ((r in w.claims && v.claims[r] == w.claims[r]) || v.claims[r].snapshot == w.db.jobs[job])
    ensures Synchronised(v, job)
  {
  }

  lemma RunsWereRunning(clock: Clockwork, w: World, s: Step, job: JobId, r: RunId)
    requires Inv(w) && r in Next(clock, w, s).claims && RunningFor(Next(clock, w, s).db.runs, job, r)
    ensures RunningFor(w.db.runs, job, r)
  {
    if !s.Insert? {
      StepEvolves(clock, w, s);
    }
  }

  lemma ClaimsStayOrAreRead(clock: Clockwork, w: World, s: Step, job: JobId, r: RunId)
    requires Inv(w) && job in w.db.jobs
    requires r in Next(clock, w, s).claims && RunningFor(Next(clock, w, s).db.runs, job, r)
    ensures RunningFor(w.db.runs, job, r)
    ensures var v := Next(clock, w, s);
      (r in w.claims && v.claims[r] == w.claims[r]) || v.claims[r].snapshot == w.db.jobs[job]
  {
    RunsWereRunning(clock, w, s, job, r);
    if !s.ReadRow? {
      OnlyReadsAddClaims(clock, w, s, r);
    } else if s.run in w.inserted && s.run == r {
      ReadClaimsTheRow(clock, w, r, job);
    }
  }

  lemma OnlyReadsAddClaims(clock: Clockwork, w: World, s: Step, r: RunId)
    requires !s.ReadRow? && r in Next(clock, w, s).claims
    ensures r in w.claims && Next(clock, w, s).claims[r] == w.claims[r]
  {
  }

  lemma ReadClaimsTheRow(clock: Clockwork, w: World, r: RunId, job: JobId)
    requires Inv(w) && r in w.inserted && job in w.db.jobs && RunningFor(w.db.runs, job, r)
    ensures r in Next(clock, w, ReadRow(r)).claims ==> Next(clock, w, ReadRow(r)).claims[r].snapshot == w.db.jobs[job]
  {
  }

  /** Every step but a commit leaves the payload, and the agreement of the executions with the row. */
  lemma OtherStepsDoNotCount(clock: Clockwork, w: World, s: Step, job: JobId)
    requires Inv(w) && Synchronised(w, job) && !CommitsFor(clock, w, s, job) && !EditsRow(clock, w, s, job)
    ensures Synchronised(Next(clock, w, s), job) && SameContent(w, Next(clock, w, s), job)
  {
    OtherStepKeepsContent(clock, w, s, job);
    var v := Next(clock, w, s);
    forall r | r in v.claims && RunningFor(v.db.runs, job, r)
      ensures RunningFor(w.db.runs, job, r)
      ensures (r in w.claims && v.claims[r] == w.claims[r]) || v.claims[r].snapshot == w.db.jobs[job]
    {
      ClaimsStayOrAreRead(clock, w, s, job, r);
    }
    ContentKeepsSynchronised(w, v, job);
  }

  // --- The count over a whole run ---

  ghost predicate Undisturbed(clock: Clockwork, w: World, steps: seq<Step>, job: JobId)
    requires job in w.db.jobs
    decreases |steps|
  {
    steps == [] ||
    (var v := Next(clock, w, steps[0]);
     !EditsRow(clock, w, steps[0], job) && job in v.db.jobs && Undisturbed(clock, v, steps[1..], job))
  }

  ghost function Successes(clock: Clockwork, w: World, steps: seq<Step>, job: JobId): nat
    decreases |steps|
  {
    if steps == [] then 0
    else
      (if CommitsFor(clock, w, steps[0], job) then 1 else 0)
      + Successes(clock, Next(clock, w, steps[0]), steps[1..], job)
  }

  ghost function MissedUpdates(clock: Clockwork, w: World, steps: seq<Step>, job: JobId): nat
    requires job in w.db.jobs && Undisturbed(clock, w, steps, job)
    decreases |steps|
  {
    if steps == [] then 0
    else (if Misses(clock, w, steps[0], job) then 1 else 0)
         + MissedUpdates(clock, Next(clock, w, steps[0]), steps[1..], job)
  }

  lemma PayloadCounts(before: Json, after: Json, missed: bool)
    requires CountsCleanly(before) && Completed(before) + 1 < U64_LIMIT
    requires after == if missed then before else IncrementRepeatCompleted(before).0
    ensures CountsCleanly(after) && Completed(after) == Completed(before) + (if missed then 0 else 1)
  {
    IncrementKeepsTimes(before);
  }

  lemma StepCounts(clock: Clockwork, w: World, s: Step, job: JobId)
    requires Inv(w) && Synchronised(w, job) && CommitsFor(clock, w, s, job)
    requires CountsCleanly(w.db.jobs[job].payload) && Completed(w.db.jobs[job].payload) + 1 < U64_LIMIT
    ensures var v := Next(clock, w, s);
      && Inv(v) && Synchronised(v, job) && CountsCleanly(v.db.jobs[job].payload)
      && Completed(v.db.jobs[job].payload) ==
           Completed(w.db.jobs[job].payload) + (if Misses(clock, w, s, job) then 0 else 1)
  {
    StepKeepsInv(clock, w, s);
    CommitCounts(clock, w, s, job);
    PayloadCounts(w.db.jobs[job].payload, Next(clock, w, s).db.jobs[job].payload, Misses(clock, w, s, job));
  }

  lemma IdleStepKeepsCount(clock: Clockwork, w: World, s: Step, job: JobId)
    requires Inv(w) && Synchronised(w, job) && !EditsRow(clock, w, s, job) && !CommitsFor(clock, w, s, job)
    ensures var v := Next(clock, w, s);
      Inv(v) && Synchronised(v, job) && v.db.jobs[job].payload == w.db.jobs[job].payload
  {
    StepKeepsInv(clock, w, s);
    OtherStepsDoNotCount(clock, w, s, job);
  }

  /**
   * Over any interleaving without an outside edit of the row, the counter grows by exactly the number of runs that
   * moved to succeeded, less those scheduled successes whose update found the job disabled.
   */
  lemma {:induction false} CompletedCountsSuccesses(clock: Clockwork, w: World, steps: seq<Step>, job: JobId)
    requires Inv(w) && Synchronised(w, job) && Undisturbed(clock, w, steps, job)
    requires CountsCleanly(w.db.jobs[job].payload)
    requires Completed(w.db.jobs[job].payload) + Successes(clock, w, steps, job) < U64_LIMIT
    ensures var v := After(clock, w, steps);
      && job in v.db.jobs
      && Completed(v.db.jobs[job].payload) ==
           Completed(w.db.jobs[job].payload) + Successes(clock, w, steps, job) - MissedUpdates(clock, w, steps, job)
    decreases |steps|
  {
    if steps != [] {
      if CommitsFor(clock, w, steps[0], job) {
        StepCounts(clock, w, steps[0], job);
      } else {
        IdleStepKeepsCount(clock, w, steps[0], job);
      }
      CompletedCountsSuccesses(clock, Next(clock, w, steps[0]), steps[1..], job);
    }
  }

  /** The scheduled executions of `job` that still hold their run. */
  ghost predicate ScheduledRun(w: World, job: JobId, r: RunId) {
    && RunningFor(w.db.runs, job, r)
    && ((r in w.inserted && w.inserted[r].advance) || (r in w.claims && w.claims[r].advance))
  }

  ghost predicate ScheduledMeansEnabled(w: World, job: JobId) {
    job in w.db.jobs && forall r :: ScheduledRun(w, job, r) ==> w.db.jobs[job].enabled
  }

  /** A pause, or an outside write, that disables the job in the middle of a scheduled run. */
  ghost predicate Interrupts(clock: Clockwork, w: World, s: Step, job: JobId)
    requires job in w.db.jobs
  {
    var v := Next(clock, w, s);
    && (s.PauseJob? || OutsideWrite(s))
    && job in v.db.jobs && !v.db.jobs[job].enabled && exists r :: ScheduledRun(w, job, r)
  }

  /** A completion that does not finish a running run of the job leaves the job's row alone. */
  lemma ForeignCompletionKeepsRow(clock: Clockwork, w: World, s: Step, job: JobId)
    requires Inv(w) && job in w.db.jobs && (s.Succeed? || s.Fail?)
    requires !RunningFor(w.db.runs, job, s.run)
    ensures job in Next(clock, w, s).db.jobs && Next(clock, w, s).db.jobs[job] == w.db.jobs[job]
  {
    if s.run in w.claims {
      HoldsExactlyWhileRunning(w, s.run);
      if s.Succeed? {
        SuccessTouchesOneRun(w.db, clock, w.claims[s.run], s.now);
      } else {
        FailureTouchesOneRun(w.db, clock, w.claims[s.run], s.now, s.error);
      }
    }
  }

  /** A run of the job that a completion finds running, and leaves running, is not the completed one. */
  lemma StillRunningIsNotCompleted(clock: Clockwork, w: World, s: Step, job: JobId, r: RunId)
    requires Inv(w) && (s.Succeed? || s.Fail?) && s.run in w.claims && RunningFor(w.db.runs, job, s.run)
    requires RunningFor(w.db.runs, job, r) && RunningFor(Next(clock, w, s).db.runs, job, r)
    ensures Next(clock, w, s).db == w.db
  {
    HoldsExactlyWhileRunning(w, s.run);
    var claim := w.claims[s.run];
    if s.Succeed? {
      SuccessTouchesOneRun(w.db, clock, claim, s.now);
    } else {
      FailureTouchesOneRun(w.db, clock, claim, s.now, s.error);
    }
    assert s.run == r;
  }

  lemma OtherStepsKeepEnabled(clock: Clockwork, w: World, s: Step, job: JobId)
    requires job in w.db.jobs && w.db.jobs[job].enabled
    requires !s.PauseJob? && !OutsideWrite(s) && !s.Succeed? && !s.Fail?
    ensures job in Next(clock, w, s).db.jobs && Next(clock, w, s).db.jobs[job].enabled
  {
  }

  /** As long as a job's run is still running, no completion has switched the job off. */
  lemma EnabledWhileRunning(clock: Clockwork, w: World, s: Step, job: JobId, r: RunId)
    requires Inv(w) && !s.Insert? && !s.PauseJob? && !OutsideWrite(s)
    requires job in w.db.jobs && w.db.jobs[job].enabled
    requires RunningFor(w.db.runs, job, r) && RunningFor(Next(clock, w, s).db.runs, job, r)
    ensures job in Next(clock, w, s).db.jobs && Next(clock, w, s).db.jobs[job].enabled
  {
    if !s.Succeed? && !s.Fail? {
      OtherStepsKeepEnabled(clock, w, s, job);
    } else if !RunningFor(w.db.runs, job, s.run) {
      ForeignCompletionKeepsRow(clock, w, s, job);
    } else if s.run in w.claims {
      StillRunningIsNotCompleted(clock, w, s, job, r);
    }
  }

  lemma ScheduledRunsStay(clock: Clockwork, w: World, s: Step, job: JobId, r: RunId)
    requires Inv(w) && ScheduledRun(Next(clock, w, s), job, r)
    ensures ScheduledRun(w, job, r)
      || (s.Insert? && r == s.run && s.job == job && s.scheduled && CanInsert(w.db, job, s.now, true))
  {
    if !s.Insert? {
      StepEvolves(clock, w, s);
    }
  }

  lemma EnabledThroughStep(clock: Clockwork, w: World, s: Step, job: JobId)
    requires Inv(w) && ScheduledMeansEnabled(w, job)
    requires !Interrupts(clock, w, s, job) && job in Next(clock, w, s).db.jobs
    ensures ScheduledMeansEnabled(Next(clock, w, s), job)
  {
    var v := Next(clock, w, s);
    forall r | ScheduledRun(v, job, r) ensures v.db.jobs[job].enabled {
      ScheduledRunsStay(clock, w, s, job, r);
      if s.Insert? {
        assert v.db.jobs == w.db.jobs;
      } else if !s.PauseJob? && !OutsideWrite(s) {
        EnabledWhileRunning(clock, w, s, job, r);
      }
    }
  }

  ghost predicate Uninterrupted(clock: Clockwork, w: World, steps: seq<Step>, job: JobId)
    requires job in w.db.jobs && Undisturbed(clock, w, steps, job)
    decreases |steps|
  {
    steps == []
      || (!Interrupts(clock, w, steps[0], job) && Uninterrupted(clock, Next(clock, w, steps[0]), steps[1..], job))
  }

  lemma {:induction false} NothingIsMissed(clock: Clockwork, w: World, steps: seq<Step>, job: JobId)
    requires Inv(w) && ScheduledMeansEnabled(w, job)
    requires Undisturbed(clock, w, steps, job) && Uninterrupted(clock, w, steps, job)
    ensures MissedUpdates(clock, w, steps, job) == 0
    decreases |steps|
  {
    if steps != [] {
      StepKeepsInv(clock, w, steps[0]);
      EnabledThroughStep(clock, w, steps[0], job);
      if CommitsFor(clock, w, steps[0], job) {
        HoldsExactlyWhileRunning(w, steps[0].run);
        assert w.claims[steps[0].run].advance ==> ScheduledRun(w, job, steps[0].run);
      }
      NothingIsMissed(clock, Next(clock, w, steps[0]), steps[1..], job);
    }
  }

  /**
   * With no outside edit of the row and no pause in the middle of a scheduled run, the counter is its start value plus
   * the number of runs that succeeded, whatever else any number of schedulers did.
   */
  lemma CounterIsStartPlusSuccesses(clock: Clockwork, w: World, steps: seq<Step>, job: JobId)
    requires Fresh(w) && job in w.db.jobs
    requires Undisturbed(clock, w, steps, job) && Uninterrupted(clock, w, steps, job)
    requires CountsCleanly(w.db.jobs[job].payload)
    requires Completed(w.db.jobs[job].payload) + Successes(clock, w, steps, job) < U64_LIMIT
    ensures job in After(clock, w, steps).db.jobs
    ensures Completed(After(clock, w, steps).db.jobs[job].payload) ==
            Completed(w.db.jobs[job].payload) + Successes(clock, w, steps, job)
  {
    CompletedCountsSuccesses(clock, w, steps, job);
    NothingIsMissed(clock, w, steps, job);
  }

  // --- The limit: one row ---

  /** An imported job with a repeat limit, as its file lists it. */
  predicate Limited(x: Incoming, times: nat) {
    && HasRepeat(x.payload)
    && 0 < times <= I64_MAX && Extract(x.payload, "times") == Some(Int(times))
    && Extract(x.payload, "completed").Some? && Extract(x.payload, "completed").value.Int?
    && 0 <= Extract(x.payload, "completed").value.n <= times
  }

  predicate CountedAs(payload: Json, completed: nat) {
    HasRepeat(payload) && Extract(payload, "completed") == Some(Int(completed))
  }

  lemma CounterDeterminesPayload(p: Json, q: Json, completed: nat)
    requires CountedAs(p, completed) && HasRepeat(q) && RemoveCompleted(p) == RemoveCompleted(q)
    ensures p == SetCompleted(q, completed)
    ensures ExtractInteger(p, "times") == ExtractInteger(q, "times")
    ensures Extract(p, "times") == Extract(q, "times")
  {
    var a, b := p.fields["repeat"].fields, q.fields["repeat"].fields;
    assert RemoveCompleted(p).fields["repeat"] == RemoveCompleted(q).fields["repeat"];
    assert a - {"completed"} == b - {"completed"};
    assert "times" in a <==> "times" in a - {"completed"};
    assert "times" in b <==> "times" in b - {"completed"};
    assert a == b["completed" := Int(completed)] by {
      forall k ensures k in a <==> k in b["completed" := Int(completed)] {
        assert k != "completed" ==> (k in a <==> k in a - {"completed"}) && (k in b <==> k in b - {"completed"});
      }
      forall k | k in a ensures a[k] == b["completed" := Int(completed)][k] {
        assert k != "completed" ==> a[k] == (a - {"completed"})[k] && b[k] == (b - {"completed"})[k];
      }
    }
    forall k ensures k in p.fields <==> k in SetCompleted(q, completed).fields {
      assert k in p.fields <==> k in RemoveCompleted(p).fields;
      assert k in q.fields <==> k in RemoveCompleted(q).fields;
    }
    forall k | k in p.fields ensures p.fields[k] == SetCompleted(q, completed).fields[k] {
      if k != "repeat" {
        assert p.fields[k] == RemoveCompleted(p).fields[k] && q.fields[k] == RemoveCompleted(q).fields[k];
      }
    }
    assert p.fields == SetCompleted(q, completed).fields;
  }

  lemma LimitedRowMerges(payload: Json, x: Incoming, times: nat, completed: nat)
    requires Limited(x, times) && CountedAs(payload, completed) && completed <= I64_MAX
    requires RemoveCompleted(payload) == RemoveCompleted(x.payload) && StoredCount(x.payload) <= completed
    ensures MergePayload(payload, x.payload) == payload
  {
    CounterDeterminesPayload(payload, x.payload, completed);
    if completed == Extract(x.payload, "completed").value.n {
      CounterDeterminesPayload(x.payload, x.payload, completed);
    }
  }

  lemma LimitedRowCounts(payload: Json, x: Incoming, times: nat, completed: nat)
    requires Limited(x, times) && CountedAs(payload, completed) && completed < I64_MAX
    requires RemoveCompleted(payload) == RemoveCompleted(x.payload)
    ensures var (updated, t, c) := IncrementRepeatCompleted(payload);
      && CountedAs(updated, completed + 1) && RemoveCompleted(updated) == RemoveCompleted(x.payload)
      && t == Some(times) && c == completed + 1
  {
    CounterDeterminesPayload(payload, x.payload, completed);
    assert AsU64(Some(Int(times))) == Some(times);
    SetThenExtract(payload, completed + 1);
    assert IncrementRepeatCompleted(payload).0 == SetCompleted(payload, completed + 1);
  }

  /** What the scheduler reads from, and writes to, such a row, within its limit and beyond. */
  lemma LimitedRowReads(payload: Json, x: Incoming, times: nat, completed: nat)
    requires Limited(x, times) && CountedAs(payload, completed) && completed <= I64_MAX
    requires RemoveCompleted(payload) == RemoveCompleted(x.payload)
    ensures Times(payload) == Some(times) && Completed(payload) == completed && CountsCleanly(payload)
    ensures Exhausted(payload) <==> completed >= times
    ensures StoredCount(x.payload) <= completed ==> MergePayload(payload, x.payload) == payload
    ensures completed < I64_MAX ==>
      var (updated, t, c) := IncrementRepeatCompleted(payload);
      && CountedAs(updated, completed + 1) && RemoveCompleted(updated) == RemoveCompleted(x.payload)
      && t == Some(times) && c == completed + 1
  {
    CounterDeterminesPayload(payload, x.payload, completed);
    assert AsU64(Some(Int(times))) == Some(times);
    if StoredCount(x.payload) <= completed {
      LimitedRowMerges(payload, x, times, completed);
    }
    if completed < I64_MAX {
      LimitedRowCounts(payload, x, times, completed);
    }
  }

  /** The row is the file's job with its counter advanced to `completed`. */
  ghost predicate FileRow(w: World, job: JobId, x: Incoming, completed: nat) {
    && Synchronised(w, job)
    && CountedAs(w.db.jobs[job].payload, completed)
    && StoredCount(x.payload) <= completed
    && w.db.jobs[job].expression == x.expression
    && RemoveCompleted(w.db.jobs[job].payload) == RemoveCompleted(x.payload)
  }

  /** Anything but resumes and outside writes of `job`; in particular syncs of the unchanged file, and triggers. */
  predicate Drives(s: Step, job: JobId, x: Incoming) {
    match s
    case ResumeJob(j, _, _) => j != job
    case DeleteJob(j) => j != job
    case WriteJob(j, _) => j != job
    case SyncJob(j, y) => j == job ==> SameFileJob(x, y)
    case _ => true
  }

  lemma LimitedFinishes(row: Job, x: Incoming, times: nat, completed: nat)
    requires Limited(x, times) && CountedAs(row.payload, completed) && completed < I64_MAX
    requires RemoveCompleted(row.payload) == RemoveCompleted(x.payload)
    ensures Finishes(row) <==> IsOnce(row.expression) || completed + 1 >= times
  {
    LimitedRowCounts(row.payload, x, times, completed);
  }

  lemma CommitMovesFileRow(clock: Clockwork, w: World, s: Step, job: JobId, x: Incoming, times: nat, completed: nat)
    requires Inv(w) && Limited(x, times) && FileRow(w, job, x, completed) && completed < I64_MAX
    requires CommitsFor(clock, w, s, job)
    ensures FileRow(Next(clock, w, s), job, x, if Misses(clock, w, s, job) then completed else completed + 1)
  {
    LimitedRowCounts(w.db.jobs[job].payload, x, times, completed);
    CommitCounts(clock, w, s, job);
  }

  lemma SyncIsNoEdit(clock: Clockwork, w: World, s: Step, job: JobId, x: Incoming, times: nat, completed: nat)
    requires Inv(w) && Limited(x, times) && FileRow(w, job, x, completed) && completed <= I64_MAX
    requires s.SyncJob? && s.job == job && SameFileJob(x, s.incoming)
    ensures !EditsRow(clock, w, s, job)
    ensures Next(clock, w, s).db.jobs[job] == Merge(w.db.jobs[job], s.incoming)
  {
    LimitedRowMerges(w.db.jobs[job].payload, x, times, completed);
  }

  lemma OtherStepIsNoEdit(clock: Clockwork, w: World, s: Step, job: JobId)
    requires job in w.db.jobs && (OutsideWrite(s) ==> s.job != job)
    ensures !EditsRow(clock, w, s, job)
  {
  }

  lemma ContentKeepsFileRow(w: World, v: World, job: JobId, x: Incoming, completed: nat)
    requires FileRow(w, job, x, completed) && Synchronised(v, job) && SameContent(w, v, job)
    ensures FileRow(v, job, x, completed)
  {
  }

  lemma StepKeepsFileRow(clock: Clockwork, w: World, s: Step, job: JobId, x: Incoming, times: nat, completed: nat)
    requires Inv(w) && Limited(x, times) && FileRow(w, job, x, completed) && completed <= I64_MAX
    requires Drives(s, job, x) && !CommitsFor(clock, w, s, job)
    ensures FileRow(Next(clock, w, s), job, x, completed)
  {
    if s.SyncJob? && s.job == job {
      SyncIsNoEdit(clock, w, s, job, x, times, completed);
    } else {
      OtherStepIsNoEdit(clock, w, s, job);
    }
    OtherStepsDoNotCount(clock, w, s, job);
    ContentKeepsFileRow(w, Next(clock, w, s), job, x, completed);
  }

  // --- The limit: the switch and the schedule ---

  /** Neither an import of the unchanged file nor a scheduled claim can start the job any more. */
  predicate Unstartable(row: Job, x: Incoming) {
    row.next.None? || (!row.enabled && !x.enabled)
  }

  /** Its limit used up, the job has no scheduled run under way and cannot get one. */
  ghost predicate Spent(w: World, job: JobId, x: Incoming)
    requires job in w.db.jobs
  {
    Unstartable(w.db.jobs[job], x) && forall r :: !ScheduledRun(w, job, r)
  }

  predicate KeptOrRetired(before: Job, after: Job) {
    after == before || (!after.enabled && after.next.None?)
  }

  lemma QuietStepKeepsRow(clock: Clockwork, w: World, s: Step, job: JobId)
    requires Inv(w) && job in w.db.jobs && !s.Succeed? && !s.Fail?
    requires !(s.ResumeJob? && s.job == job) && !(OutsideWrite(s) && s.job == job)
    ensures job in Next(clock, w, s).db.jobs && KeptOrRetired(w.db.jobs[job], Next(clock, w, s).db.jobs[job])
  {
  }

  lemma TriggeredFailureKeepsRow(clock: Clockwork, w: World, s: Step, job: JobId)
    requires Inv(w) && job in w.db.jobs && s.Fail? && s.run in w.claims
    requires RunningFor(w.db.runs, job, s.run) && !w.claims[s.run].advance
    ensures job in Next(clock, w, s).db.jobs && Next(clock, w, s).db.jobs[job] == w.db.jobs[job]
  {
    HoldsExactlyWhileRunning(w, s.run);
  }

  lemma NoCommitKeepsJobs(clock: Clockwork, w: World, s: Step)
    requires s.Succeed? && !Commits(clock, w, s)
    ensures Next(clock, w, s).db == w.db
  {
  }

  /** Without a scheduled run under way only a resume, an outside write or a commit gives a job a next run. */
  lemma StepKeepsOrRetires(clock: Clockwork, w: World, s: Step, job: JobId)
    requires Inv(w) && job in w.db.jobs && !CommitsFor(clock, w, s, job)
    requires !(s.ResumeJob? && s.job == job) && !(OutsideWrite(s) && s.job == job)
    requires forall r :: !ScheduledRun(w, job, r)
    ensures job in Next(clock, w, s).db.jobs && KeptOrRetired(w.db.jobs[job], Next(clock, w, s).db.jobs[job])
  {
    if !s.Succeed? && !s.Fail? {
      QuietStepKeepsRow(clock, w, s, job);
    } else if !RunningFor(w.db.runs, job, s.run) {
      ForeignCompletionKeepsRow(clock, w, s, job);
    } else if s.run in w.claims {
      HoldsExactlyWhileRunning(w, s.run);
      assert !ScheduledRun(w, job, s.run);
      if s.Fail? {
        TriggeredFailureKeepsRow(clock, w, s, job);
      } else {
        NoCommitKeepsJobs(clock, w, s);
      }
    }
  }

  lemma ImportKeepsUnstartable(row: Job, x: Incoming, y: Incoming)
    requires Unstartable(row, x) && Exhausted(row.payload) && SameFileJob(x, y)
    ensures Unstartable(Merge(row, y), x)
  {
  }

  lemma StepKeepsSpent(clock: Clockwork, w: World, s: Step, job: JobId, x: Incoming, times: nat, completed: nat)
    requires Inv(w) && Limited(x, times) && FileRow(w, job, x, completed) && times <= completed <= I64_MAX
    requires Drives(s, job, x) && !CommitsFor(clock, w, s, job) && Spent(w, job, x)
    ensures job in Next(clock, w, s).db.jobs && Spent(Next(clock, w, s), job, x)
  {
    var v := Next(clock, w, s);
    LimitedRowReads(w.db.jobs[job].payload, x, times, completed);
    if s.SyncJob? && s.job == job {
      SyncIsNoEdit(clock, w, s, job, x, times, completed);
      ImportKeepsUnstartable(w.db.jobs[job], x, s.incoming);
    } else {
      StepKeepsOrRetires(clock, w, s, job);
    }
    forall r ensures !ScheduledRun(v, job, r) {
      if ScheduledRun(v, job, r) {
        ScheduledRunsStay(clock, w, s, job, r);
        assert false;
      }
    }
  }

  // --- The limit: whole runs ---

  /** A success of a manual trigger of the job. */
  ghost predicate TriggerCommits(clock: Clockwork, w: World, s: Step, job: JobId) {
    CommitsFor(clock, w, s, job) && !w.claims[s.run].advance
  }

  /** At most `times` completions and `extra` ones, and none to come from the schedule once these are used up. */
  ghost predicate WithinAllowance(w: World, job: JobId, x: Incoming, times: nat, completed: nat, extra: nat) {
    && FileRow(w, job, x, completed) && completed <= times + extra
    && (completed == times + extra ==> Spent(w, job, x))
  }

  lemma IdleHasNoScheduledRun(w: World, job: JobId)
    requires !HasRunning(w.db.runs, job)
    ensures forall r :: !ScheduledRun(w, job, r)
  {
  }

  lemma CommitStaysWithinAllowance(
      clock: Clockwork, w: World, s: Step, job: JobId, x: Incoming, times: nat, completed: nat, extra: nat)
      returns (after: nat)
    requires Inv(w) && Limited(x, times) && WithinAllowance(w, job, x, times, completed, extra)
    requires CommitsFor(clock, w, s, job)
    requires times + extra + (if TriggerCommits(clock, w, s, job) then 1 else 0) <= I64_MAX
    ensures after == if Misses(clock, w, s, job) then completed else completed + 1
    ensures var granted := extra + if TriggerCommits(clock, w, s, job) then 1 else 0;
      WithinAllowance(Next(clock, w, s), job, x, times, after, granted)
  {
    CommitEndsTheRun(clock, w, s, job);
    IdleHasNoScheduledRun(Next(clock, w, s), job);
    CommitRow(clock, w, s, job);
    assert w.claims[s.run].advance ==> ScheduledRun(w, job, s.run);
    LimitedFinishes(w.db.jobs[job], x, times, completed);
    CommitMovesFileRow(clock, w, s, job, x, times, completed);
    after := if Misses(clock, w, s, job) then completed else completed + 1;
  }

  lemma StepStaysWithinAllowance(
      clock: Clockwork, w: World, s: Step, job: JobId, x: Incoming, times: nat, completed: nat, extra: nat)
      returns (after: nat)
    requires Inv(w) && Limited(x, times) && WithinAllowance(w, job, x, times, completed, extra) && Drives(s, job, x)
    requires times + extra + (if TriggerCommits(clock, w, s, job) then 1 else 0) <= I64_MAX
    ensures completed <= after && (!CommitsFor(clock, w, s, job) ==> after == completed)
    ensures var granted := extra + if TriggerCommits(clock, w, s, job) then 1 else 0;
      WithinAllowance(Next(clock, w, s), job, x, times, after, granted)
  {
    if CommitsFor(clock, w, s, job) {
      after := CommitStaysWithinAllowance(clock, w, s, job, x, times, completed, extra);
    } else {
      after := completed;
      StepKeepsFileRow(clock, w, s, job, x, times, completed);
      if completed == times + extra {
        StepKeepsSpent(clock, w, s, job, x, times, completed);
      }
    }
  }

  ghost function TriggeredSuccesses(clock: Clockwork, w: World, steps: seq<Step>, job: JobId): nat
    decreases |steps|
  {
    if steps == [] then 0
    else (if TriggerCommits(clock, w, steps[0], job) then 1 else 0)
         + TriggeredSuccesses(clock, Next(clock, w, steps[0]), steps[1..], job)
  }

  /**
   * Over any run without resumes and outside writes of the job, its completions exceed the limit by at most the number
   * of manual triggers that succeeded: `after` counts them.
   */
  lemma {:induction false} LimitIsExceededByTriggersOnly(
      clock: Clockwork, w: World, steps: seq<Step>, job: JobId, x: Incoming, times: nat, completed: nat, extra: nat)
      returns (after: nat)
    requires Inv(w) && Limited(x, times) && WithinAllowance(w, job, x, times, completed, extra)
    requires forall i :: 0 <= i < |steps| ==> Drives(steps[i], job, x)
    requires times + extra + TriggeredSuccesses(clock, w, steps, job) <= I64_MAX
    ensures completed <= after <= times + extra + TriggeredSuccesses(clock, w, steps, job)
    ensures WithinAllowance(
      After(clock, w, steps), job, x, times, after, extra + TriggeredSuccesses(clock, w, steps, job))
    ensures Completed(After(clock, w, steps).db.jobs[job].payload) == after
    decreases |steps|
  {
    if steps == [] {
      after := completed;
      LimitedRowReads(w.db.jobs[job].payload, x, times, completed);
    } else {
      var s, rest := steps[0], steps[1..];
      var granted := extra + if TriggerCommits(clock, w, s, job) then 1 else 0;
      StepKeepsInv(clock, w, s);
      var middle := StepStaysWithinAllowance(clock, w, s, job, x, times, completed, extra);
      after := LimitIsExceededByTriggersOnly(clock, Next(clock, w, s), rest, job, x, times, middle, granted);
    }
  }

  // --- Without triggers ---

  /** As `Drives`, and the job is started by its schedule only. */
  predicate Schedules(s: Step, job: JobId, x: Incoming) {
    Drives(s, job, x) && (s.Insert? && s.job == job ==> s.scheduled)
  }

  /** No run of the job that is still running comes from a trigger. */
  ghost predicate NoTriggeredRun(w: World, job: JobId) {
    forall r :: RunningFor(w.db.runs, job, r) ==>
      (r in w.inserted ==> w.inserted[r].advance) && (r in w.claims ==> w.claims[r].advance)
  }

  /** Switched off, without a next run, and nothing of it running. */
  ghost predicate Off(w: World, job: JobId) {
    job in w.db.jobs && !w.db.jobs[job].enabled && w.db.jobs[job].next.None? && !HasRunning(w.db.runs, job)
  }

  /**
   * The row is the file's job with its counter advanced; only scheduled runs are under way; and from the moment the
   * limit is reached the job is off.
   */
  ghost predicate WithinLimit(w: World, job: JobId, x: Incoming, times: nat, completed: nat) {
    && WithinAllowance(w, job, x, times, completed, 0) && NoTriggeredRun(w, job)
    && (completed == times ==> Off(w, job))
  }

  lemma ScheduleKeepsTriggersOut(clock: Clockwork, w: World, s: Step, job: JobId, x: Incoming)
    requires Inv(w) && Schedules(s, job, x) && NoTriggeredRun(w, job)
    ensures NoTriggeredRun(Next(clock, w, s), job)
  {
    var v := Next(clock, w, s);
    if s.Insert? {
      InsertedRunIsScheduled(clock, w, s, job);
    } else {
      StepEvolves(clock, w, s);
      forall r | RunningFor(v.db.runs, job, r) ensures RunningFor(w.db.runs, job, r) {
      }
    }
  }

  lemma InsertedRunIsScheduled(clock: Clockwork, w: World, s: Step, job: JobId)
    requires Inv(w) && s.Insert? && (s.job == job ==> s.scheduled) && NoTriggeredRun(w, job)
    ensures NoTriggeredRun(Next(clock, w, s), job)
  {
    var v := Next(clock, w, s);
    forall r | RunningFor(v.db.runs, job, r)
      ensures (r in v.inserted ==> v.inserted[r].advance) && (r in v.claims ==> v.claims[r].advance)
    {
      assert r != s.run || v == w ==> RunningFor(w.db.runs, job, r);
    }
  }

  lemma ScheduledCommit(clock: Clockwork, w: World, s: Step, job: JobId)
    requires Inv(w) && NoTriggeredRun(w, job) && CommitsFor(clock, w, s, job)
    ensures RunningFor(w.db.runs, job, s.run) && w.claims[s.run].advance && !TriggerCommits(clock, w, s, job)
  {
    HoldsExactlyWhileRunning(w, s.run);
  }

  /** A job that is off stays off, whatever is done but a resume, a trigger or an outside write. */
  lemma OffStepStaysOff(clock: Clockwork, w: World, s: Step, job: JobId)
    requires Inv(w) && Off(w, job) && (s.Insert? && s.job == job ==> s.scheduled)
    requires !(s.ResumeJob? && s.job == job) && !(OutsideWrite(s) && s.job == job)
    ensures Off(Next(clock, w, s), job) && JobRuns(Next(clock, w, s).db.runs, job) <= JobRuns(w.db.runs, job)
  {
    var v := Next(clock, w, s);
    if s.Insert? {
      OffBlocksInserts(clock, w, s, job);
    } else {
      if CommitsFor(clock, w, s, job) {
        CommitEndsTheRun(clock, w, s, job);
      }
      IdleHasNoScheduledRun(w, job);
      StepKeepsOrRetires(clock, w, s, job);
      IdleStaysIdle(clock, w, s, job);
    }
  }

  lemma OffBlocksInserts(clock: Clockwork, w: World, s: Step, job: JobId)
    requires Inv(w) && Off(w, job) && s.Insert? && (s.job == job ==> s.scheduled)
    ensures Off(Next(clock, w, s), job) && JobRuns(Next(clock, w, s).db.runs, job) == JobRuns(w.db.runs, job)
  {
    var v := Next(clock, w, s);
    forall r ensures RunningFor(v.db.runs, job, r) <==> RunningFor(w.db.runs, job, r) {
    }
  }

  lemma IdleStaysIdle(clock: Clockwork, w: World, s: Step, job: JobId)
    requires Inv(w) && !HasRunning(w.db.runs, job) && !s.Insert?
    ensures !HasRunning(Next(clock, w, s).db.runs, job)
    ensures JobRuns(Next(clock, w, s).db.runs, job) <= JobRuns(w.db.runs, job)
  {
    var v := Next(clock, w, s);
    StepEvolves(clock, w, s);
    forall r ensures !RunningFor(v.db.runs, job, r) {
      assert !RunningFor(w.db.runs, job, r);
    }
  }

  lemma SyncKeepsOff(clock: Clockwork, w: World, s: Step, job: JobId)
    requires Off(w, job) && s.SyncJob? && s.job == job && Finished(w.db.jobs[job])
    ensures Off(Next(clock, w, s), job) && Next(clock, w, s).db.runs == w.db.runs
    ensures Next(clock, w, s).db.jobs[job].expression == s.incoming.expression
  {
  }

  lemma LastCommitSwitchesOff(
      clock: Clockwork, w: World, s: Step, job: JobId, x: Incoming, times: nat, completed: nat)
    requires Inv(w) && Limited(x, times) && FileRow(w, job, x, completed) && completed < times
    requires NoTriggeredRun(w, job) && CommitsFor(clock, w, s, job)
    ensures completed + 1 == times ==> Off(Next(clock, w, s), job)
  {
    CommitEndsTheRun(clock, w, s, job);
    CommitRow(clock, w, s, job);
    LimitedFinishes(w.db.jobs[job], x, times, completed);
    ScheduledCommit(clock, w, s, job);
  }

  lemma LimitSwitchesOff(
      clock: Clockwork, w: World, s: Step, job: JobId, x: Incoming, times: nat, completed: nat, after: nat)
    requires Inv(w) && Limited(x, times) && WithinLimit(w, job, x, times, completed) && Schedules(s, job, x)
    requires after == completed || (after == completed + 1 && CommitsFor(clock, w, s, job))
    ensures after == times ==> Off(Next(clock, w, s), job)
    ensures completed == times ==> JobRuns(Next(clock, w, s).db.runs, job) <= JobRuns(w.db.runs, job)
  {
    if completed == times {
      if s.SyncJob? && s.job == job {
        LimitedRowReads(w.db.jobs[job].payload, x, times, completed);
        SyncKeepsOff(clock, w, s, job);
      } else {
        OffStepStaysOff(clock, w, s, job);
      }
    } else if CommitsFor(clock, w, s, job) {
      LastCommitSwitchesOff(clock, w, s, job, x, times, completed);
    }
  }

  lemma StepStaysWithinLimit(
      clock: Clockwork, w: World, s: Step, job: JobId, x: Incoming, times: nat, completed: nat) returns (after: nat)
    requires Inv(w) && Limited(x, times) && WithinLimit(w, job, x, times, completed) && Schedules(s, job, x)
    ensures completed <= after && WithinLimit(Next(clock, w, s), job, x, times, after)
    ensures completed == times ==> JobRuns(Next(clock, w, s).db.runs, job) <= JobRuns(w.db.runs, job)
  {
    if CommitsFor(clock, w, s, job) {
      ScheduledCommit(clock, w, s, job);
      after := CommitStaysWithinAllowance(clock, w, s, job, x, times, completed, 0);
    } else {
      after := StepStaysWithinAllowance(clock, w, s, job, x, times, completed, 0);
    }
    ScheduleKeepsTriggersOut(clock, w, s, job, x);
    LimitSwitchesOff(clock, w, s, job, x, times, completed, after);
  }

  /**
   * A job driven only by scheduled runs, reclaims, failures and syncs of its unchanged file never completes more than
   * `times` times. From the moment it has, it is disabled with no next run, and no run of it is ever started again.
   */
  lemma {:induction false} LimitIsNeverExceeded(
      clock: Clockwork, w: World, steps: seq<Step>, job: JobId, x: Incoming, times: nat, completed: nat)
      returns (after: nat)
    requires Inv(w) && Limited(x, times) && WithinLimit(w, job, x, times, completed)
    requires forall i :: 0 <= i < |steps| ==> Schedules(steps[i], job, x)
    ensures completed <= after <= times
    ensures var v := After(clock, w, steps);
      && job in v.db.jobs && Completed(v.db.jobs[job].payload) == after
      && WithinLimit(v, job, x, times, after)
      && (after == times ==> !v.db.jobs[job].enabled && v.db.jobs[job].next.None? && !HasRunning(v.db.runs, job))
      && (completed == times ==> JobRuns(v.db.runs, job) <= JobRuns(w.db.runs, job))
    decreases |steps|
  {
    if steps == [] {
      after := completed;
      LimitedRowReads(w.db.jobs[job].payload, x, times, completed);
    } else {
      var v := Next(clock, w, steps[0]);
      StepKeepsInv(clock, w, steps[0]);
      var middle := StepStaysWithinLimit(clock, w, steps[0], job, x, times, completed);
      after := LimitIsNeverExceeded(clock, v, steps[1..], job, x, times, middle);
    }
  }

  /** A job just imported from its file, with nothing of it under way, is where that guarantee starts. */
  lemma ImportStartsWithinLimit(w: World, job: JobId, x: Incoming, times: nat)
    requires Fresh(w) && Limited(x, times) && StoredCount(x.payload) < times
    requires job in w.db.jobs && w.db.jobs[job] == NewRow(x) && !HasRunning(w.db.runs, job)
    ensures WithinLimit(w, job, x, times, StoredCount(x.payload))
  {
  }

  // --- What a trigger does to the guarantee ---

  function OneRun(job: JobId, r: RunId, token: Token, pid: Pid, now: Time, scheduled: bool): seq<Step> {
    [Insert(job, r, token, pid, now, scheduled), ReadRow(r), Succeed(r, now)]
  }

  ghost function Claimed(w: World, job: JobId, r: RunId, token: Token, scheduled: bool): Claim
    requires job in w.db.jobs
  {
    Claim(r, token, job, w.db.jobs[job], scheduled)
  }

  /** A claim that is followed at once by the read of its row. */
  lemma ClaimIsRead(clock: Clockwork, w: World, job: JobId, r: RunId, token: Token, pid: Pid, now: Time,
                    scheduled: bool)
    requires Inv(w) && r !in w.issued && token !in w.tokens && CanInsert(w.db, job, now, scheduled)
    ensures var v := Next(clock, Next(clock, w, Insert(job, r, token, pid, now, scheduled)), ReadRow(r));
      && Inv(v) && v.db.jobs == w.db.jobs && RunningFor(v.db.runs, job, r)
      && v.issued == w.issued + {r} && v.tokens == w.tokens + {token}
      && r in v.claims && v.claims[r] == Claimed(w, job, r, token, scheduled)
  {
    var insert := Insert(job, r, token, pid, now, scheduled);
    var u := Next(clock, w, insert);
    StepKeepsInv(clock, w, insert);
    StepKeepsInv(clock, u, ReadRow(r));
    InsertAdds(clock, w, insert);
    ReadTakesTheRow(clock, u, r);
  }

  lemma ReadTakesTheRow(clock: Clockwork, w: World, r: RunId)
    requires r in w.inserted && w.inserted[r].job in w.db.jobs
    ensures var v := Next(clock, w, ReadRow(r));
      && v.db == w.db && v.issued == w.issued && v.tokens == w.tokens
      && r in v.claims
      && v.claims[r]
        == Claim(r, w.inserted[r].token, w.inserted[r].job, w.db.jobs[w.inserted[r].job], w.inserted[r].advance)
  {
  }

  lemma ClaimedIsSynchronised(w: World, job: JobId, r: RunId)
    requires Inv(w) && RunningFor(w.db.runs, job, r) && job in w.db.jobs && r in w.claims
    requires w.claims[r].snapshot == w.db.jobs[job]
    ensures Synchronised(w, job)
  {
  }

  lemma ReadClaimCommits(clock: Clockwork, w: World, job: JobId, r: RunId, now: Time)
    requires Inv(w) && RunningFor(w.db.runs, job, r) && r in w.claims && job in w.db.jobs
    requires w.claims[r].job == job && w.claims[r].snapshot == w.db.jobs[job]
    requires w.claims[r].advance ==> Finishes(w.db.jobs[job])
    ensures CommitsFor(clock, w, Succeed(r, now), job)
  {
    HoldsExactlyWhileRunning(w, r);
  }

  lemma AfterThree(clock: Clockwork, w: World, a: Step, b: Step, c: Step)
    ensures After(clock, w, [a, b, c]) == Next(clock, Next(clock, Next(clock, w, a), b), c)
  {
    var u := Next(clock, w, a);
    AfterCons(clock, Next(clock, u, b), c, []);
    AfterCons(clock, u, b, [c] + []);
    AfterCons(clock, w, a, [b] + ([c] + []));
    assert [a] + ([b] + ([c] + [])) == [a, b, c];
  }

  lemma ReadClaimSucceeds(clock: Clockwork, w: World, job: JobId, r: RunId, now: Time)
    requires Inv(w) && RunningFor(w.db.runs, job, r) && r in w.claims && job in w.db.jobs
    requires w.claims[r].job == job && w.claims[r].snapshot == w.db.jobs[job]
    requires w.claims[r].advance ==> Finishes(w.db.jobs[job])
    ensures var v := Next(clock, w, Succeed(r, now));
      && Inv(v) && job in v.db.jobs && v.db.jobs[job] == CommittedRow(clock, w.db.jobs[job], w.claims[r].advance, now)
      && !HasRunning(v.db.runs, job) && v.issued == w.issued && v.tokens == w.tokens
  {
    var succeed := Succeed(r, now);
    ClaimedIsSynchronised(w, job, r);
    ReadClaimCommits(clock, w, job, r, now);
    CommitRow(clock, w, succeed, job);
    CommitEndsTheRun(clock, w, succeed, job);
    StepKeepsInv(clock, w, succeed);
    StepEvolves(clock, w, succeed);
  }

  /** One whole undisturbed run, scheduled or triggered, from its claim to its success. */
  lemma OneRunSucceeds(clock: Clockwork, w: World, job: JobId, r: RunId, token: Token, pid: Pid, now: Time,
                       scheduled: bool)
    requires Inv(w) && r !in w.issued && token !in w.tokens && CanInsert(w.db, job, now, scheduled)
    requires scheduled ==> Finishes(w.db.jobs[job])
    ensures var v := After(clock, w, OneRun(job, r, token, pid, now, scheduled));
      && Inv(v) && job in v.db.jobs && v.db.jobs[job] == CommittedRow(clock, w.db.jobs[job], scheduled, now)
      && !HasRunning(v.db.runs, job) && v.issued == w.issued + {r} && v.tokens == w.tokens + {token}
  {
    var insert, read := Insert(job, r, token, pid, now, scheduled), ReadRow(r);
    ClaimIsRead(clock, w, job, r, token, pid, now, scheduled);
    ReadClaimSucceeds(clock, Next(clock, Next(clock, w, insert), read), job, r, now);
    AfterThree(clock, w, insert, read, Succeed(r, now));
  }

  ghost predicate OnSchedule(steps: seq<Step>, job: JobId, x: Incoming) {
    forall i :: 0 <= i < |steps| ==> Schedules(steps[i], job, x)
  }

  ghost function Counter(w: World, job: JobId): nat {
    if job in w.db.jobs then Completed(w.db.jobs[job].payload) else 0
  }

  lemma {:induction false} NothingIsTriggered(clock: Clockwork, w: World, steps: seq<Step>, job: JobId, x: Incoming)
    requires Inv(w) && NoTriggeredRun(w, job) && OnSchedule(steps, job, x)
    ensures TriggeredSuccesses(clock, w, steps, job) == 0
    decreases |steps|
  {
    if steps != [] {
      var s, rest := steps[0], steps[1..];
      if CommitsFor(clock, w, s, job) {
        ScheduledCommit(clock, w, s, job);
      }
      StepKeepsInv(clock, w, s);
      ScheduleKeepsTriggersOut(clock, w, s, job, x);
      NothingIsTriggered(clock, Next(clock, w, s), rest, job, x);
    }
  }

  lemma ScheduleStaysWithin(
      clock: Clockwork, w: World, steps: seq<Step>, job: JobId, x: Incoming, times: nat, completed: nat)
    requires Inv(w) && Limited(x, times) && WithinAllowance(w, job, x, times, completed, 0) && NoTriggeredRun(w, job)
    requires OnSchedule(steps, job, x)
    ensures Counter(After(clock, w, steps), job) <= times
  {
    NothingIsTriggered(clock, w, steps, job, x);
    var after := LimitIsExceededByTriggersOnly(clock, w, steps, job, x, times, completed, 0);
  }

  lemma {:induction false} FreshId(used: set<nat>) returns (id: nat)
    ensures forall k :: k in used ==> k < id
  {
    if used == {} {
      id := 0;
    } else {
      var k :| k in used;
      var rest := FreshId(used - {k});
      id := if k < rest then rest else k + 1;
      forall j | j in used ensures j < id {
        assert j == k || j in used - {k};
      }
    }
  }

  lemma LastRunCounts(clock: Clockwork, row: Job, x: Incoming, times: nat, completed: nat, advance: bool, now: Time)
    requires Limited(x, times) && CountedAs(row.payload, completed) && completed < I64_MAX
    requires RemoveCompleted(row.payload) == RemoveCompleted(x.payload) && (advance ==> completed + 1 >= times)
    ensures advance ==> Finishes(row)
    ensures var after := CommittedRow(clock, row, advance, now);
      && CountedAs(after.payload, completed + 1) && RemoveCompleted(after.payload) == RemoveCompleted(x.payload)
      && Completed(after.payload) == completed + 1 && Times(after.payload) == Some(times)
  {
    LimitedFinishes(row, x, times, completed);
    LimitedRowCounts(row.payload, x, times, completed);
    LimitedRowReads(CommittedRow(clock, row, advance, now).payload, x, times, completed + 1);
  }

  lemma OneRunIsOnSchedule(job: JobId, r: RunId, token: Token, pid: Pid, now: Time, x: Incoming)
    ensures OnSchedule(OneRun(job, r, token, pid, now, true), job, x)
  {
  }

  lemma LastRunPasses(clock: Clockwork, row: Job, v: World, job: JobId, x: Incoming, times: nat, now: Time)
    requires Limited(x, times) && CountedAs(row.payload, times) && times < I64_MAX
    requires RemoveCompleted(row.payload) == RemoveCompleted(x.payload)
    requires job in v.db.jobs && v.db.jobs[job] == CommittedRow(clock, row, true, now)
    ensures Counter(v, job) > times
  {
    LastRunCounts(clock, row, x, times, times, true, now);
  }

  lemma EnabledPassesTheLimit(clock: Clockwork, w: World, job: JobId, x: Incoming, times: nat)
    returns (steps: seq<Step>)
    requires Inv(w) && Limited(x, times) && FileRow(w, job, x, times) && times < I64_MAX
    requires !HasRunning(w.db.runs, job) && w.db.jobs[job].enabled && w.db.jobs[job].next.Some?
    ensures OnSchedule(steps, job, x) && Counter(After(clock, w, steps), job) > times
  {
    var row := w.db.jobs[job];
    var now := row.next.value;
    var r := FreshId(w.issued);
    var token := FreshId(w.tokens);
    LastRunCounts(clock, row, x, times, times, true, now);
    OneRunSucceeds(clock, w, job, r, token, 1, now, true);
    steps := OneRun(job, r, token, 1, now, true);
    OneRunIsOnSchedule(job, r, token, 1, now, x);
    LastRunPasses(clock, row, After(clock, w, steps), job, x, times, now);
  }

  lemma ImportEnables(clock: Clockwork, w: World, job: JobId, x: Incoming, times: nat)
    requires Inv(w) && Limited(x, times) && FileRow(w, job, x, times) && !HasRunning(w.db.runs, job)
    requires !w.db.jobs[job].enabled && w.db.jobs[job].next.Some? && x.enabled
    ensures var v := Next(clock, w, SyncJob(job, x.(next := Some(0))));
      && Inv(v) && FileRow(v, job, x, times) && !HasRunning(v.db.runs, job)
      && v.db.jobs[job].enabled && v.db.jobs[job].next == Some(0)
  {
    var sync := SyncJob(job, x.(next := Some(0)));
    StepKeepsInv(clock, w, sync);
    StepKeepsFileRow(clock, w, sync, job, x, times, times);
    SyncIsNoEdit(clock, w, sync, job, x, times, times);
    IdleStaysIdle(clock, w, sync, job);
  }

  /**
   * With the counter at its limit, nothing running, and the job still startable, its schedule can go past the limit.
   */
  lemma SchedulePassesTheLimit(clock: Clockwork, w: World, job: JobId, x: Incoming, times: nat)
    returns (steps: seq<Step>)
    requires Inv(w) && Limited(x, times) && FileRow(w, job, x, times) && times < I64_MAX
    requires !HasRunning(w.db.runs, job) && !Unstartable(w.db.jobs[job], x)
    ensures OnSchedule(steps, job, x) && Counter(After(clock, w, steps), job) > times
  {
    if w.db.jobs[job].enabled {
      steps := EnabledPassesTheLimit(clock, w, job, x, times);
    } else {
      var sync := SyncJob(job, x.(next := Some(0)));
      ImportEnables(clock, w, job, x, times);
      var rest := EnabledPassesTheLimit(clock, Next(clock, w, sync), job, x, times);
      steps := [sync] + rest;
      AfterCons(clock, w, sync, rest);
    }
  }

  /**
   * From a state without a running run, some run of the schedule alone takes the counter above the limit exactly when
   * it is there already, or is at the limit while the job can still be started, by its schedule or by the next import.
   */
  lemma SchedulePassesTheLimitExactlyWhen(clock: Clockwork, w: World, job: JobId, x: Incoming, times: nat,
                                          completed: nat)
    requires Inv(w) && Limited(x, times) && FileRow(w, job, x, completed) && completed < I64_MAX
    requires !HasRunning(w.db.runs, job) && NoTriggeredRun(w, job)
    ensures (exists steps :: OnSchedule(steps, job, x) && Counter(After(clock, w, steps), job) > times) <==>
      completed > times || (completed == times && !Unstartable(w.db.jobs[job], x))
  {
    if completed > times {
      LimitedRowReads(w.db.jobs[job].payload, x, times, completed);
      assert OnSchedule([], job, x) && After(clock, w, []) == w;
    } else if completed == times && !Unstartable(w.db.jobs[job], x) {
      var steps := SchedulePassesTheLimit(clock, w, job, x, times);
      assert OnSchedule(steps, job, x);
    } else {
      IdleHasNoScheduledRun(w, job);
      forall steps | OnSchedule(steps, job, x) ensures Counter(After(clock, w, steps), job) <= times {
        ScheduleStaysWithin(clock, w, steps, job, x, times, completed);
      }
    }
  }

  lemma TriggerKeepsSwitch(clock: Clockwork, w: World, s: Step, job: JobId)
    requires Inv(w) && Synchronised(w, job) && TriggerCommits(clock, w, s, job)
    ensures var v := Next(clock, w, s);
      && job in v.db.jobs && v.db.jobs[job].enabled == w.db.jobs[job].enabled
        && v.db.jobs[job].next == w.db.jobs[job].next
      && !Misses(clock, w, s, job)
  {
    CommitRow(clock, w, s, job);
  }

  lemma IdleHasNoTriggeredRun(w: World, job: JobId)
    requires !HasRunning(w.db.runs, job)
    ensures NoTriggeredRun(w, job)
  {
  }

  /** What a triggered success leaves: one completion more, switch and schedule as they were, and nothing running. */
  lemma TriggerCountsOneMore(clock: Clockwork, w: World, s: Step, job: JobId, x: Incoming, times: nat, completed: nat)
    requires Inv(w) && Limited(x, times) && FileRow(w, job, x, completed) && completed < I64_MAX
    requires TriggerCommits(clock, w, s, job)
    ensures var v := Next(clock, w, s);
      && Inv(v) && FileRow(v, job, x, completed + 1) && !HasRunning(v.db.runs, job) && NoTriggeredRun(v, job)
      && (Unstartable(v.db.jobs[job], x) <==> Unstartable(w.db.jobs[job], x))
  {
    StepKeepsInv(clock, w, s);
    TriggerKeepsSwitch(clock, w, s, job);
    CommitMovesFileRow(clock, w, s, job, x, times, completed);
    CommitEndsTheRun(clock, w, s, job);
    IdleHasNoTriggeredRun(Next(clock, w, s), job);
  }

  lemma LimitBrokenFrom(clock: Clockwork, row: Job, v: World, job: JobId, x: Incoming, times: nat, completed: nat)
    requires Inv(v) && Limited(x, times) && FileRow(v, job, x, completed + 1) && completed + 2 <= I64_MAX
    requires !HasRunning(v.db.runs, job) && NoTriggeredRun(v, job)
    requires Unstartable(v.db.jobs[job], x) <==> Unstartable(row, x)
    ensures (exists steps :: OnSchedule(steps, job, x) && Counter(After(clock, v, steps), job) > times) <==>
      completed + 1 > times || (completed + 1 == times && row.next.Some? && (row.enabled || x.enabled))
  {
    SchedulePassesTheLimitExactlyWhen(clock, v, job, x, times, completed + 1);
  }

  /**
   * When a triggered success breaks the limit, for good: if the counter had reached the limit before it, or if it takes
   * the counter to the limit while the job can still be started, by its schedule or by the next import of its file.
   * Then and only then some run of the schedule alone gets past the limit.
   */
  lemma TriggerBreaksTheLimitExactlyWhen(
      clock: Clockwork, w: World, s: Step, job: JobId, x: Incoming, times: nat, completed: nat)
    requires Inv(w) && Limited(x, times) && FileRow(w, job, x, completed) && completed + 2 <= I64_MAX
    requires TriggerCommits(clock, w, s, job)
    ensures
      (exists steps :: OnSchedule(steps, job, x) && Counter(After(clock, Next(clock, w, s), steps), job) > times) <==>
      completed + 1 > times
      || (completed + 1 == times && w.db.jobs[job].next.Some? && (w.db.jobs[job].enabled || x.enabled))
  {
    TriggerCountsOneMore(clock, w, s, job, x, times, completed);
    LimitBrokenFrom(clock, w.db.jobs[job], Next(clock, w, s), job, x, times, completed);
  }

  const ONCE_A_DAY := Incoming("0 9 * * *", Obj(map["repeat" := Obj(map["times" := Int(1), "completed" := Int(0)])]),
                               true, Some(9), 0)

  lemma OnceADayIsLimited()
    ensures Limited(ONCE_A_DAY, 1) && StoredCount(ONCE_A_DAY.payload) == 0
  {
    assert Extract(ONCE_A_DAY.payload, "completed") == Some(Int(0));
    assert Extract(ONCE_A_DAY.payload, "times") == Some(Int(1));
  }

  lemma DailyIsTriggered(clock: Clockwork, w: World)
    requires w == World(Db(map["daily" := NewRow(ONCE_A_DAY)], map[]), {}, {}, {}, map[], map[]) && Inv(w)
    ensures var v := After(clock, w, OneRun("daily", 0, 0, 1, 5, false));
      && Inv(v) && v.issued == {0} && v.tokens == {0} && !HasRunning(v.db.runs, "daily")
      && "daily" in v.db.jobs && v.db.jobs["daily"] == CommittedRow(clock, NewRow(ONCE_A_DAY), false, 5)
  {
    assert CanInsert(w.db, "daily", 5, false);
    OneRunSucceeds(clock, w, "daily", 0, 0, 1, 5, false);
    assert w.issued + {0} == {0} && w.tokens + {0} == {0};
  }

  lemma DailyRunsAgain(clock: Clockwork, w: World)
    requires Inv(w) && w.issued == {0} && w.tokens == {0} && !HasRunning(w.db.runs, "daily")
    requires "daily" in w.db.jobs && w.db.jobs["daily"] == CommittedRow(clock, NewRow(ONCE_A_DAY), false, 5)
    ensures var v := After(clock, w, OneRun("daily", 1, 1, 1, 9, true));
      Counter(v, "daily") == 2 && "daily" in v.db.jobs && Times(v.db.jobs["daily"].payload) == Some(1)
  {
    OnceADayIsLimited();
    LastRunCounts(clock, NewRow(ONCE_A_DAY), ONCE_A_DAY, 1, 0, false, 5);
    LastRunCounts(clock, w.db.jobs["daily"], ONCE_A_DAY, 1, 1, true, 9);
    OneRunSucceeds(clock, w, "daily", 1, 1, 1, 9, true);
  }

  /**
   * A run from a fresh import: a job limited to one completion is triggered, which takes its counter to the limit and
   * leaves it enabled, then runs on its schedule, and has completed twice.
   */
  lemma TriggerCountsPastTheLimit(clock: Clockwork)
    ensures var w := World(Db(map["daily" := NewRow(ONCE_A_DAY)], map[]), {}, {}, {}, map[], map[]);
      var triggered := After(clock, w, OneRun("daily", 0, 0, 1, 5, false));
      var v := After(clock, triggered, OneRun("daily", 1, 1, 1, 9, true));
      && Fresh(w) && Limited(ONCE_A_DAY, 1)
      && Counter(triggered, "daily") == 1 && triggered.db.jobs["daily"].enabled
      && Counter(v, "daily") == 2 && Times(v.db.jobs["daily"].payload) == Some(1)
  {
    var row := NewRow(ONCE_A_DAY);
    var w := World(Db(map["daily" := row], map[]), {}, {}, {}, map[], map[]);
    EmptyDatabaseIsFresh(w.db.jobs);
    OnceADayIsLimited();
    LastRunCounts(clock, row, ONCE_A_DAY, 1, 0, false, 5);
    DailyIsTriggered(clock, w);
    DailyRunsAgain(clock, After(clock, w, OneRun("daily", 0, 0, 1, 5, false)));
  }

  // --- One-shots ---

  /** Anything but resumes, triggers and outside writes of `job`; a sync may edit it as long as it stays a one-shot. */
  predicate KeepsOneShot(s: Step, job: JobId) {
    match s
    case Insert(j, _, _, _, _, scheduled) => j == job ==> scheduled
    case ResumeJob(j, _, _) => j != job
    case DeleteJob(j) => j != job
    case WriteJob(j, _) => j != job
    case SyncJob(j, y) => j == job ==> LikeOnce(y.expression)
    case _ => true
  }

  ghost predicate OneShotOver(w: World, job: JobId) {
    Off(w, job) && LikeOnce(w.db.jobs[job].expression)
  }

  lemma OneShotStepStaysOver(clock: Clockwork, w: World, s: Step, job: JobId)
    requires Inv(w) && OneShotOver(w, job) && KeepsOneShot(s, job)
    ensures OneShotOver(Next(clock, w, s), job) && !CommitsFor(clock, w, s, job)
    ensures JobRuns(Next(clock, w, s).db.runs, job) <= JobRuns(w.db.runs, job)
  {
    if CommitsFor(clock, w, s, job) {
      CommitEndsTheRun(clock, w, s, job);
      assert false;
    }
    if s.SyncJob? && s.job == job {
      SyncKeepsOff(clock, w, s, job);
    } else {
      OffStepStaysOff(clock, w, s, job);
      OtherStepIsNoEdit(clock, w, s, job);
      OtherStepKeepsContent(clock, w, s, job);
    }
  }

  /**
   * A one-shot that is over, be it by success, by failure or by a pause, stays off: whatever all schedulers do and
   * however often a file that lists it as a one-shot is imported, it is never enabled, and no run of it is started
   * again.
   */
  lemma {:induction false} OneShotStaysOver(clock: Clockwork, w: World, steps: seq<Step>, job: JobId)
    requires Inv(w) && OneShotOver(w, job) && forall i :: 0 <= i < |steps| ==> KeepsOneShot(steps[i], job)
    ensures OneShotOver(After(clock, w, steps), job) && Successes(clock, w, steps, job) == 0
    ensures JobRuns(After(clock, w, steps).db.runs, job) <= JobRuns(w.db.runs, job)
    decreases |steps|
  {
    if steps != [] {
      var s, rest := steps[0], steps[1..];
      StepKeepsInv(clock, w, s);
      OneShotStepStaysOver(clock, w, s, job);
      OneShotStaysOver(clock, Next(clock, w, s), rest, job);
    }
  }

  /** A one-shot as its file lists it, that has not succeeded yet. */
  ghost predicate OneShotPending(w: World, job: JobId, x: Incoming) {
    && Synchronised(w, job) && NoTriggeredRun(w, job)
    && HasRepeat(x.payload) && IsOnce(x.expression) && w.db.jobs[job].expression == x.expression
    && MergePayload(w.db.jobs[job].payload, x.payload) == w.db.jobs[job].payload
  }

  lemma OnceIsLikeOnce(expression: string)
    requires IsOnce(expression)
    ensures LikeOnce(expression)
  {
    assert expression[..|ONCE|] == ONCE;
    assert forall i :: 0 <= i < |ONCE| ==> expression[i] == ONCE[i];
  }

  lemma OneShotCommitIsTheLast(clock: Clockwork, w: World, s: Step, job: JobId, x: Incoming)
    requires Inv(w) && OneShotPending(w, job, x) && CommitsFor(clock, w, s, job)
    ensures OneShotOver(Next(clock, w, s), job)
  {
    ScheduledCommit(clock, w, s, job);
    CommitRow(clock, w, s, job);
    CommitEndsTheRun(clock, w, s, job);
    OnceIsLikeOnce(x.expression);
  }

  lemma SyncOfOneShotIsNoEdit(clock: Clockwork, w: World, s: Step, job: JobId, x: Incoming)
    requires Inv(w) && OneShotPending(w, job, x) && s.SyncJob? && s.job == job && SameFileJob(x, s.incoming)
    ensures !EditsRow(clock, w, s, job)
  {
  }

  lemma OneShotStaysPending(clock: Clockwork, w: World, s: Step, job: JobId, x: Incoming)
    requires Inv(w) && OneShotPending(w, job, x) && Schedules(s, job, x) && !CommitsFor(clock, w, s, job)
    ensures OneShotPending(Next(clock, w, s), job, x)
  {
    if s.SyncJob? && s.job == job {
      SyncOfOneShotIsNoEdit(clock, w, s, job, x);
    } else {
      OtherStepIsNoEdit(clock, w, s, job);
    }
    OtherStepsDoNotCount(clock, w, s, job);
    ScheduleKeepsTriggersOut(clock, w, s, job, x);
  }

  lemma ScheduleKeepsOneShot(steps: seq<Step>, job: JobId, x: Incoming)
    requires OnSchedule(steps, job, x) && IsOnce(x.expression)
    ensures forall i :: 0 <= i < |steps| ==> KeepsOneShot(steps[i], job)
  {
    OnceIsLikeOnce(x.expression);
    forall i | 0 <= i < |steps| ensures KeepsOneShot(steps[i], job) {
      assert Schedules(steps[i], job, x);
    }
  }

  /**
   * A one-shot driven by its schedule and by syncs of its unchanged file succeeds at most once, and then it is over.
   */
  lemma {:induction false} OneShotSucceedsAtMostOnce(
      clock: Clockwork, w: World, steps: seq<Step>, job: JobId, x: Incoming)
    requires Inv(w) && OneShotPending(w, job, x) && OnSchedule(steps, job, x)
    ensures Successes(clock, w, steps, job) <= 1
    ensures Successes(clock, w, steps, job) == 1 ==> OneShotOver(After(clock, w, steps), job)
    decreases |steps|
  {
    if steps != [] {
      var s, rest := steps[0], steps[1..];
      StepKeepsInv(clock, w, s);
      if CommitsFor(clock, w, s, job) {
        OneShotCommitIsTheLast(clock, w, s, job, x);
        ScheduleKeepsOneShot(rest, job, x);
        OneShotStaysOver(clock, Next(clock, w, s), rest, job);
      } else {
        OneShotStaysPending(clock, w, s, job, x);
        OneShotSucceedsAtMostOnce(clock, Next(clock, w, s), rest, job, x);
      }
    }
  }

  /** A one-shot just imported from its file is where that guarantee starts. */
  lemma ImportStartsPending(w: World, job: JobId, x: Incoming)
    requires Fresh(w) && HasRepeat(x.payload) && IsOnce(x.expression) && StoredCount(x.payload) >= 0
    requires job in w.db.jobs && w.db.jobs[job] == NewRow(x) && !HasRunning(w.db.runs, job)
    ensures OneShotPending(w, job, x)
  {
    FirstImportSettles(x, x);
  }
}
