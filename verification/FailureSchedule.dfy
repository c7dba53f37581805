/** Rescheduling after a failure: src/cron/scheduler.rs, lines 1002-1065 and 1454-1481. */
module FailureSchedule {
  import opened CronRows

  const MIN_RETRY_SECONDS := 10
  const MAX_RETRY_SECONDS := 3600
  const HISTORY_LIMIT := 50

  function Pow2(n: nat): (p: nat)
    ensures p >= 1
  {
    if n == 0 then 1 else 2 * Pow2(n - 1)
  }

  function Min(a: nat, b: nat): nat { if a < b then a else b }

  function Max(a: int, b: int): int { if a < b then b else a }

  /** `failure_backoff_duration`, in seconds; every intermediate value fits a `u64`. */
  function BackoffSeconds(failures: nat): nat {
    if failures == 0 then 0
    else
      var seconds := 10 * Pow2(Min(failures - 1, 10));
      Max(MIN_RETRY_SECONDS, Min(seconds, MAX_RETRY_SECONDS))
  }

  datatype Retry = Disable | At(when: Time) | Broken

  /** `next_run_after_failure`; `Broken` is the error return. */
  function NextRunAfterFailure(clock: Clockwork, expression: string, now: Time, failures: nat): Retry {
    if IsOnce(expression) then Disable
    else
      match NextRun(clock, expression, now)
      case None => Broken
      case Some(scheduled) => At(Max(scheduled, now + BackoffSeconds(failures) * SECOND))
  }

  lemma {:induction false} Pow2Monotone(a: nat, b: nat)
    requires a <= b
    ensures Pow2(a) <= Pow2(b)
  {
    if a < b {
      Pow2Monotone(a, b - 1);
    }
  }

  lemma Pow2Values()
    ensures Pow2(9) == 512 && Pow2(10) == 1024
  {
    assert Pow2(4) == 16;
    assert Pow2(8) == 256;
  }

  /** Monotone, within its bounds, and the product before the clamp never leaves `u64`. */
  lemma BackoffIsMonotoneAndBounded(a: nat, b: nat)
    requires a <= b
    ensures BackoffSeconds(a) <= BackoffSeconds(b)
    ensures b > 0 ==> MIN_RETRY_SECONDS <= BackoffSeconds(b) <= MAX_RETRY_SECONDS
    ensures 10 * Pow2(Min(b, 10)) <= 10_240
  {
    Pow2Values();
    Pow2Monotone(Min(b, 10), 10);
    if a > 0 {
      Pow2Monotone(Min(a - 1, 10), Min(b - 1, 10));
    }
  }

  /** The streak doubles the delay until the cap, and from the tenth failure on nothing changes. */
  lemma BackoffShape(failures: nat)
    ensures 1 <= failures < 10 ==> BackoffSeconds(failures) == 10 * Pow2(failures - 1)
    ensures failures >= 10 ==> BackoffSeconds(failures) == MAX_RETRY_SECONDS
  {
    Pow2Values();
    if 1 <= failures < 10 {
      Pow2Monotone(failures - 1, 8);
      assert Pow2(8) == 256;
    } else if failures >= 10 {
      Pow2Monotone(9, Min(failures - 1, 10));
    }
  }

  /** `take_while(status == "failed").count()`. */
  function LeadingFailures(statuses: seq<Status>): (n: nat)
    ensures n <= |statuses|
  {
    if statuses != [] && statuses[0] == Failed then 1 + LeadingFailures(statuses[1..]) else 0
  }

  function Take<T>(s: seq<T>, n: nat): seq<T> { s[..Min(|s|, n)] }

  lemma {:induction false} LeadingFailuresOfTake(statuses: seq<Status>, n: nat)
    ensures LeadingFailures(Take(statuses, n)) == Min(LeadingFailures(statuses), n)
  {
    if statuses != [] && n > 0 {
      LeadingFailuresOfTake(statuses[1..], n - 1);
      assert Take(statuses, n)[1..] == Take(statuses[1..], n - 1);
    }
  }

  // --- The history query: ORDER BY started_at DESC, run_id DESC ---

  predicate Newer(runs: map<RunId, Run>, a: RunId, b: RunId)
    requires a in runs && b in runs
  {
    runs[a].started > runs[b].started || (runs[a].started == runs[b].started && a > b)
  }

  ghost predicate IsNewest(runs: map<RunId, Run>, ids: set<RunId>, r: RunId) {
    && ids <= runs.Keys && r in ids
    && forall q :: q in ids && q != r ==> Newer(runs, r, q)
  }

  lemma NewestOfOneMore(runs: map<RunId, Run>, ids: set<RunId>, newest: RunId, r: RunId)
    requires IsNewest(runs, ids, newest) && r in runs && r !in ids
    ensures IsNewest(runs, ids + {r}, if Newer(runs, r, newest) then r else newest)
  {
    if Newer(runs, r, newest) {
      forall q | q in ids + {r} && q != r ensures Newer(runs, r, q) {
        assert q != newest ==> Newer(runs, newest, q);
      }
    }
  }

  lemma {:induction false} NewestExists(runs: map<RunId, Run>, ids: set<RunId>)
    requires ids <= runs.Keys && ids != {}
    ensures exists r :: IsNewest(runs, ids, r)
  {
    var x :| x in ids;
    var rest := ids - {x};
    assert forall q :: q in ids ==> q == x || q in rest;
    if rest == {} {
      assert IsNewest(runs, ids, x);
    } else {
      NewestExists(runs, rest);
      var y :| IsNewest(runs, rest, y);
      assert IsNewest(runs, ids, if Newer(runs, x, y) then x else y);
    }
  }

  ghost function Newest(runs: map<RunId, Run>, ids: set<RunId>): (r: RunId)
    requires ids <= runs.Keys && ids != {}
    ensures IsNewest(runs, ids, r)
  {
    NewestExists(runs, ids);
    var r :| IsNewest(runs, ids, r);
    r
  }

  ghost function NewestFirst(runs: map<RunId, Run>, ids: set<RunId>): seq<RunId>
    requires ids <= runs.Keys
    decreases |ids|
  {
    if ids == {} then [] else
      var r := Newest(runs, ids);
      [r] + NewestFirst(runs, ids - {r})
  }

  ghost function JobRuns(runs: map<RunId, Run>, job: JobId): set<RunId> {
    set r | r in runs && runs[r].job == job
  }

  ghost function StatusesOf(runs: map<RunId, Run>, order: seq<RunId>): seq<Status>
    requires forall r :: r in order ==> r in runs
  {
    seq(|order|, i requires 0 <= i < |order| => assert order[i] in order; runs[order[i]].status)
  }

  lemma StatusesSnoc(runs: map<RunId, Run>, order: seq<RunId>, r: RunId)
    requires r in runs && forall q :: q in order ==> q in runs
    ensures forall q :: q in order + [r] ==> q in runs
    ensures StatusesOf(runs, order + [r]) == StatusesOf(runs, order) + [runs[r].status]
  {
  }

  lemma {:induction false} NewestFirstMembers(runs: map<RunId, Run>, ids: set<RunId>)
    requires ids <= runs.Keys
    ensures |NewestFirst(runs, ids)| == |ids|
    ensures forall r :: r in NewestFirst(runs, ids) <==> r in ids
    decreases |ids|
  {
    if ids != {} {
      NewestFirstMembers(runs, ids - {Newest(runs, ids)});
    }
  }

  ghost function History(runs: map<RunId, Run>, job: JobId): seq<Status> {
    var ids := JobRuns(runs, job);
    NewestFirstMembers(runs, ids);
    StatusesOf(runs, NewestFirst(runs, ids))
  }

  /** A query that stopped at its limit, or at the end, has read the newest fifty statuses. */
  lemma StatusesPrefix(runs: map<RunId, Run>, ids: set<RunId>, read: seq<RunId>, unread: seq<RunId>)
    requires ids <= runs.Keys && NewestFirst(runs, ids) == read + unread
    requires |read| == HISTORY_LIMIT || (|read| < HISTORY_LIMIT && unread == [])
    ensures forall r :: r in read + unread ==> r in runs
    ensures StatusesOf(runs, read) == Take(StatusesOf(runs, NewestFirst(runs, ids)), HISTORY_LIMIT)
  {
    NewestFirstMembers(runs, ids);
    assert forall r :: r in read ==> r in read + unread;
  }

  /** What `complete_failure` counts: the failures leading the newest fifty runs. */
  ghost function ConsecutiveFailures(runs: map<RunId, Run>, job: JobId): nat {
    LeadingFailures(Take(History(runs, job), HISTORY_LIMIT))
  }

  // --- Reference definition of the full streak, without any ordering or limit ---

  /** The failed runs with nothing but failures after them. */
  ghost function Streak(runs: map<RunId, Run>, ids: set<RunId>): set<RunId>
    requires ids <= runs.Keys
  {
    set r | r in ids && runs[r].status == Failed
      && forall q :: q in ids && Newer(runs, q, r) ==> runs[q].status == Failed
  }

  lemma StreakStep(runs: map<RunId, Run>, ids: set<RunId>, newest: RunId)
    requires IsNewest(runs, ids, newest)
    ensures newest !in Streak(runs, ids - {newest})
    ensures Streak(runs, ids) ==
      if runs[newest].status == Failed then {newest} + Streak(runs, ids - {newest}) else {}
  {
    var rest := ids - {newest};
    forall r | r in ids && runs[newest].status == Failed
      ensures r in Streak(runs, ids) <==> r == newest || r in Streak(runs, rest)
    {
      assert forall q :: q in ids ==> q == newest || q in rest;
    }
  }

  lemma StatusesCons(runs: map<RunId, Run>, r: RunId, order: seq<RunId>)
    requires r in runs && forall q :: q in order ==> q in runs
    ensures StatusesOf(runs, [r] + order) == [runs[r].status] + StatusesOf(runs, order)
  {
  }

  lemma LeadingFailuresCons(first: Status, statuses: seq<Status>)
    ensures LeadingFailures([first] + statuses) == if first == Failed then 1 + LeadingFailures(statuses) else 0
  {
    assert ([first] + statuses)[1..] == statuses;
  }

  lemma {:induction false} LeadingFailuresIsStreak(runs: map<RunId, Run>, ids: set<RunId>)
    requires ids <= runs.Keys
    ensures forall r :: r in NewestFirst(runs, ids) ==> r in runs
    ensures LeadingFailures(StatusesOf(runs, NewestFirst(runs, ids))) == |Streak(runs, ids)|
    decreases |ids|
  {
    NewestFirstMembers(runs, ids);
    if ids == {} {
      assert Streak(runs, ids) == {};
    } else {
      var newest := Newest(runs, ids);
      var rest := ids - {newest};
      var order := NewestFirst(runs, rest);
      NewestFirstMembers(runs, rest);
      LeadingFailuresIsStreak(runs, rest);
      StatusesCons(runs, newest, order);
      LeadingFailuresCons(runs[newest].status, StatusesOf(runs, order));
      StreakStep(runs, ids, newest);
    }
  }

  /**
   * Looking at only the newest fifty runs loses nothing: the delay is that of the full streak, however long it is,
   * and the retry is the later of the schedule and the end of that delay.
   */
  lemma FiftyRunsAreEnough(clock: Clockwork, runs: map<RunId, Run>, job: JobId, expression: string, now: Time)
    ensures var streak := |Streak(runs, JobRuns(runs, job))|;
      && BackoffSeconds(ConsecutiveFailures(runs, job)) == BackoffSeconds(streak)
      && NextRunAfterFailure(clock, expression, now, ConsecutiveFailures(runs, job)) ==
         (if IsOnce(expression) then Disable
          else match NextRun(clock, expression, now)
               case None => Broken
               case Some(scheduled) => At(Max(scheduled, now + BackoffSeconds(streak) * SECOND)))
  {
    LeadingFailuresIsStreak(runs, JobRuns(runs, job));
    LeadingFailuresOfTake(History(runs, job), HISTORY_LIMIT);
    BackoffShape(|Streak(runs, JobRuns(runs, job))|);
    BackoffShape(ConsecutiveFailures(runs, job));
  }

  // --- Start order ---

  /** `log` lists the runs in the order in which they were started, with strictly increasing start times. */
  ghost predicate StartOrder(runs: map<RunId, Run>, ids: set<RunId>, log: seq<RunId>) {
    && ids <= runs.Keys
    && (forall r :: r in log <==> r in ids)
    && forall i, j :: 0 <= i < j < |log| ==> runs[log[i]].started < runs[log[j]].started
  }

  ghost function TrailingFailures(runs: map<RunId, Run>, log: seq<RunId>): nat
    requires forall r :: r in log ==> r in runs
  {
    if log != [] && runs[log[|log| - 1]].status == Failed then 1 + TrailingFailures(runs, log[..|log| - 1]) else 0
  }

  lemma StartOrderStep(runs: map<RunId, Run>, ids: set<RunId>, log: seq<RunId>)
    requires StartOrder(runs, ids, log) && log != []
    ensures IsNewest(runs, ids, log[|log| - 1])
    ensures StartOrder(runs, ids - {log[|log| - 1]}, log[..|log| - 1])
  {
    var last := |log| - 1;
    assert log[last] in log;
    forall q | q in ids && q != log[last] ensures Newer(runs, log[last], q) {
      assert q in log;
      var i :| 0 <= i < |log| && log[i] == q;
      assert i < last;
    }
    forall r | r in log[..last] ensures r in ids - {log[last]} {
      var i :| 0 <= i < last && log[i] == r;
      assert log[i] in log && runs[log[i]].started < runs[log[last]].started;
    }
    forall r | r in ids - {log[last]} ensures r in log[..last] {
      assert r in log;
      var i :| 0 <= i < |log| && log[i] == r;
      assert log[..last][i] == r;
    }
  }

  /** With strictly increasing start times the counted streak is the unbroken tail of failures of the start log. */
  lemma {:induction false} StreakIsTrailingFailures(runs: map<RunId, Run>, ids: set<RunId>, log: seq<RunId>)
    requires StartOrder(runs, ids, log)
    ensures |Streak(runs, ids)| == TrailingFailures(runs, log)
    decreases |log|
  {
    if log == [] {
      assert ids == {};
      assert Streak(runs, ids) == {};
    } else {
      var last := log[|log| - 1];
      var rest := log[..|log| - 1];
      assert last in log;
      StartOrderStep(runs, ids, log);
      StreakStep(runs, ids, last);
      if runs[last].status == Failed {
        StreakIsTrailingFailures(runs, ids - {last}, rest);
      }
    }
  }
}
