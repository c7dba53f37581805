/**
 * The periodic import of a jobs file and its merge into the job table: src/cron/store.rs, lines 167-195 and 393-458.
 */
module StoreMerge {
  import opened Prelude
  import opened Text
  import opened Json
  import opened Repeat
  import opened CronRows

  const I64_MAX: int := 0x7FFF_FFFF_FFFF_FFFF
  const I64_MIN: int := -0x8000_0000_0000_0000

  // --- The SQLite functions the upsert uses ---

  function Clamp(n: int): int {
    if n > I64_MAX then I64_MAX else if n < I64_MIN then I64_MIN else n
  }

  function DigitsValue(s: string, acc: nat): nat {
    if s != [] && '0' <= s[0] <= '9' then DigitsValue(s[1..], 10 * acc + (s[0] as int - '0' as int)) else acc
  }

  /** The longest integer prefix of a text, after leading spaces. */
  function IntegerPrefix(s: string): int {
    if s != [] && (s[0] == ' ' || '\t' <= s[0] <= '\r') then IntegerPrefix(s[1..])
    else if "-" <= s then 0 - DigitsValue(s[1..], 0)
    else if "+" <= s then DigitsValue(s[1..], 0)
    else DigitsValue(s, 0)
  }

  /** CAST(json_extract(...) AS INTEGER) of a value that is not NULL. */
  function CastInteger(v: Json): (n: int)
    ensures I64_MIN <= n <= I64_MAX
  {
    match v
    case Int(n) => Clamp(n)
    case Real(r) => Clamp(if r >= 0.0 then r.Floor else -((-r).Floor))
    case Str(s) => Clamp(IntegerPrefix(s))
    case Bool(b) => if b then 1 else 0
    case _ => 0
  }

  /** json_extract(payload, '$.repeat.<key>'); `None` is SQL NULL. */
  function Extract(payload: Json, key: string): Option<Json> {
    match GetPath(Get(payload, "repeat"), key)
    case Some(v) => if v.Null? then None else Some(v)
    case None => None
  }

  function ExtractInteger(payload: Json, key: string): Option<int> {
    match Extract(payload, key)
    case Some(v) => Some(CastInteger(v))
    case None => None
  }

  /** A payload with a `repeat` object, as every imported job has one. */
  predicate HasRepeat(payload: Json) {
    Get(payload, "repeat").Some? && Get(payload, "repeat").value.Obj?
  }

  /** json_set(payload, '$.repeat.completed', n). */
  function SetCompleted(payload: Json, n: int): Json {
    if !HasRepeat(payload) then payload
    else WithField(payload, "repeat", WithField(payload.fields["repeat"], "completed", Int(n)))
  }

  /** json_remove(payload, '$.repeat.completed'). */
  function RemoveCompleted(payload: Json): Json {
    if !HasRepeat(payload) then payload
    else WithField(payload, "repeat", Obj(payload.fields["repeat"].fields - {"completed"}))
  }

  function AsciiLower(c: char): char {
    if 'A' <= c <= 'Z' then (c as int + 32) as char else c
  }

  /** expression LIKE 'once:%', which ignores ASCII case. */
  predicate LikeOnce(expression: string) {
    |expression| >= |ONCE| && forall i :: 0 <= i < |ONCE| ==> AsciiLower(expression[i]) == ONCE[i]
  }

  // --- The upsert ---

  /** The values bound to the insert. */
  datatype Incoming = Incoming(expression: string, payload: Json, enabled: bool, next: Option<Time>, now: Time)

  function NewRow(x: Incoming): Job {
    Job(x.expression, x.payload, x.enabled, x.next, x.now)
  }

  /** A repeat whose limit is reached, as the SQL sees it. */
  predicate Exhausted(payload: Json) {
    var times := ExtractInteger(payload, "times");
    var completed := ExtractInteger(payload, "completed");
    times.Some? && times.value > 0 && completed.Some? && completed.value >= times.value
  }

  /** The rows the first two WHEN branches protect. */
  predicate Finished(row: Job) {
    row.next.None? && (LikeOnce(row.expression) || Exhausted(row.payload))
  }

  function MergePayload(row: Json, incoming: Json): Json {
    var completed := ExtractInteger(row, "completed");
    if completed.Some? && completed.value > ExtractInteger(incoming, "completed").GetOr(0)
    then SetCompleted(incoming, completed.value)
    else incoming
  }

  /** The job is the same in the file as in the table, whatever its counters say. */
  predicate Unchanged(row: Job, x: Incoming) {
    && row.expression == x.expression
    && RemoveCompleted(row.payload) == RemoveCompleted(x.payload)
    && row.enabled == x.enabled
  }

  function Merge(row: Job, x: Incoming): Job {
    Job(x.expression,
        MergePayload(row.payload, x.payload),
        if Finished(row) then row.enabled else x.enabled,
        if Finished(row) then None else if !Unchanged(row, x) then x.next else row.next,
        x.now)
  }

  function Upsert(jobs: map<JobId, Job>, id: JobId, x: Incoming): map<JobId, Job> {
    jobs[id := if id in jobs then Merge(jobs[id], x) else NewRow(x)]
  }

  // --- What the pieces of the statement mean ---

  predicate IsDigit(c: char) { '0' <= c <= '9' }

  predicate AllDigits(s: string) { forall i :: 0 <= i < |s| ==> IsDigit(s[i]) }

  /** The number that reading on from `acc` gives. */
  function ReadOn(acc: nat, digits: string): int {
    if digits == [] then acc
    else 10 * ReadOn(acc, digits[..|digits| - 1]) + (digits[|digits| - 1] as int - '0' as int)
  }

  lemma {:induction false} ReadOnFromFront(acc: nat, c: char, digits: string)
    requires IsDigit(c)
    ensures ReadOn(acc, [c] + digits) == ReadOn(10 * acc + (c as int - '0' as int), digits)
  {
    var all := [c] + digits;
    if digits == [] {
      assert all[..0] == [];
    } else {
      var n := |digits| - 1;
      assert all[..n + 1] == [c] + digits[..n];
      ReadOnFromFront(acc, c, digits[..n]);
    }
  }

  lemma {:induction false} ReadOnFromNothing(digits: string)
    ensures ReadOn(0, digits) == NumberRead(digits)
  {
    if digits != [] {
      ReadOnFromNothing(digits[..|digits| - 1]);
    }
  }

  lemma {:induction false} DigitsAreRead(digits: string, rest: string, acc: nat)
    requires AllDigits(digits) && (rest != "" ==> !IsDigit(rest[0]))
    ensures DigitsValue(digits + rest, acc) == ReadOn(acc, digits)
  {
    if digits == [] {
      assert digits + rest == rest;
    } else {
      var c, more := digits[0], digits[1..];
      var next := 10 * acc + (c as int - '0' as int);
      assert (digits + rest)[1..] == more + rest;
      DigitsAreRead(more, rest, next);
      ReadOnFromFront(acc, c, more);
      assert [c] + more == digits;
    }
  }

  /** The blanks that a text may begin with when it is read as a number: space, tab, line feed, and the three after. */
  predicate IsSpace(c: char) { c == ' ' || 9 <= c as int <= 13 }

  lemma {:induction false} SpacesAreSkipped(spaces: string, rest: string)
    requires forall i :: 0 <= i < |spaces| ==> IsSpace(spaces[i])
    ensures IntegerPrefix(spaces + rest) == IntegerPrefix(rest)
  {
    if spaces == [] {
      assert spaces + rest == rest;
    } else {
      assert (spaces + rest)[1..] == spaces[1..] + rest;
      SpacesAreSkipped(spaces[1..], rest);
    }
  }

  /** A text reads as the number it begins with, behind spaces and a sign, and as 0 if it begins with none. */
  lemma TextReadsAs(spaces: string, sign: string, digits: string, rest: string)
    requires (forall i :: 0 <= i < |spaces| ==> IsSpace(spaces[i])) && sign in {"", "+", "-"}
    requires AllDigits(digits) && (rest != "" ==> !IsDigit(rest[0]))
    requires sign == "" && digits == "" && rest != "" ==> !IsSpace(rest[0]) && rest[0] != '+' && rest[0] != '-'
    ensures IntegerPrefix(spaces + (sign + (digits + rest))) ==
      if sign == "-" then -NumberRead(digits) else NumberRead(digits)
  {
    SpacesAreSkipped(spaces, sign + (digits + rest));
    DigitsAreRead(digits, rest, 0);
    ReadOnFromNothing(digits);
    var text := sign + (digits + rest);
    if sign == "" {
      assert text == digits + rest;
    } else {
      assert text[1..] == digits + rest && text[0] == sign[0];
    }
  }

  /** A JSON value as an integer of 64 bits: the nearest one, towards zero; a truth value as 1 or 0; else 0. */
  lemma CastMeaning(v: Json)
    ensures var n := CastInteger(v);
      match v
      case Int(m) =>
        && (I64_MIN <= m <= I64_MAX ==> n == m) && (m > I64_MAX ==> n == I64_MAX) && (m < I64_MIN ==> n == I64_MIN)
      case Real(r) =>
        && (0.0 <= r < I64_MAX as real ==> n as real <= r < n as real + 1.0)
        && (I64_MIN as real < r < 0.0 ==> n as real - 1.0 < r <= n as real)
      case Str(s) => I64_MIN <= IntegerPrefix(s) <= I64_MAX ==> n == IntegerPrefix(s)
      case Bool(b) => n == if b then 1 else 0
      case _ => n == 0
  {
  }

  predicate IsLetter(c: char, small: char, large: char) { c == small || c == large }

  /** The pattern `once:%`, in whatever case. */
  lemma LikeOnceMeaning(e: string)
    ensures LikeOnce(e) <==>
      && |e| >= 5 && IsLetter(e[0], 'o', 'O') && IsLetter(e[1], 'n', 'N') && IsLetter(e[2], 'c', 'C')
      && IsLetter(e[3], 'e', 'E') && e[4] == ':'
  {
    assert ONCE == ['o', 'n', 'c', 'e', ':'];
  }

  /** What a payload holds apart from its counter. */
  ghost predicate SameButCounter(p: Json, q: Json) {
    && (forall key :: key != "repeat" ==> Get(p, key) == Get(q, key))
    && forall key :: key != "completed" ==> GetPath(Get(p, "repeat"), key) == GetPath(Get(q, "repeat"), key)
  }

  lemma RemoveCompletedMeaning(p: Json, q: Json)
    requires HasRepeat(p) && HasRepeat(q)
    ensures RemoveCompleted(p) == RemoveCompleted(q) <==> SameButCounter(p, q)
  {
    var a, b := p.fields["repeat"].fields, q.fields["repeat"].fields;
    var r, t := RemoveCompleted(p), RemoveCompleted(q);
    assert forall key :: key != "repeat" ==> Get(r, key) == Get(p, key) && Get(t, key) == Get(q, key);
    assert forall key :: key != "completed" ==>
      GetPath(Get(r, "repeat"), key) == GetPath(Get(p, "repeat"), key)
      && GetPath(Get(t, "repeat"), key) == GetPath(Get(q, "repeat"), key);
    if SameButCounter(p, q) {
      forall key ensures key in a - {"completed"} <==> key in b - {"completed"} {
        assert key != "completed" ==> GetPath(Get(p, "repeat"), key) == GetPath(Get(q, "repeat"), key);
      }
      forall key | key in a - {"completed"} ensures (a - {"completed"})[key] == (b - {"completed"})[key] {
        assert GetPath(Get(p, "repeat"), key) == GetPath(Get(q, "repeat"), key);
      }
      assert a - {"completed"} == b - {"completed"};
      forall key ensures key in r.fields <==> key in t.fields {
        assert key != "repeat" ==> Get(p, key) == Get(q, key);
      }
      forall key | key in r.fields ensures r.fields[key] == t.fields[key] {
        assert key != "repeat" ==> Get(p, key) == Get(q, key);
      }
      assert r.fields == t.fields;
    }
  }

  /**
   * The upsert on a row that is there: the file's schedule text and time; for a finished job, a one-shot or a repeat
   * with a positive limit it has reached, that has no next run, the row's switch and still no next run; for any other
   * the file's switch, and its next run only if the file changed anything but the counter.
   */
  lemma MergeMeaning(row: Job, x: Incoming)
    requires HasRepeat(x.payload)
    ensures var (times, completed) := (ExtractInteger(row.payload, "times"), ExtractInteger(row.payload, "completed"));
      var reached := times.Some? && completed.Some? && 0 < times.value <= completed.value;
      var finished := row.next.None? && (LikeOnce(row.expression) || reached);
      var edited := row.expression != x.expression || row.enabled != x.enabled
        || !HasRepeat(row.payload) || !SameButCounter(row.payload, x.payload);
      var after := Merge(row, x);
      && after.expression == x.expression && after.updated == x.now
      && after.enabled == (if finished then row.enabled else x.enabled)
      && after.next == if finished then None else if edited then x.next else row.next
  {
    if HasRepeat(row.payload) {
      RemoveCompletedMeaning(row.payload, x.payload);
    } else {
      assert HasRepeat(RemoveCompleted(x.payload));
    }
  }

  // --- What the merge guarantees, row by row ---

  /** The counter as the merge compares it. */
  function StoredCount(payload: Json): int {
    ExtractInteger(payload, "completed").GetOr(0)
  }

  lemma SetThenExtract(payload: Json, n: int)
    requires HasRepeat(payload)
    ensures HasRepeat(SetCompleted(payload, n))
    ensures Get(SetCompleted(payload, n), "repeat") ==
            Some(WithField(payload.fields["repeat"], "completed", Int(n)))
    ensures ExtractInteger(SetCompleted(payload, n), "completed") == Some(Clamp(n))
    ensures ExtractInteger(SetCompleted(payload, n), "times") == ExtractInteger(payload, "times")
    ensures SetCompleted(SetCompleted(payload, n), n) == SetCompleted(payload, n)
    ensures RemoveCompleted(SetCompleted(payload, n)) == RemoveCompleted(payload)
  {
    var set1 := SetCompleted(payload, n);
    var inner := WithField(payload.fields["repeat"], "completed", Int(n));
    assert set1.fields["repeat"] == inner;
    assert Get(inner, "completed") == Some(Int(n));
    assert Get(inner, "times") == Get(payload.fields["repeat"], "times");
    assert inner.fields["completed" := Int(n)] == inner.fields;
    assert set1.fields["repeat" := inner] == set1.fields;
    assert inner.fields - {"completed"} == payload.fields["repeat"].fields - {"completed"};
    assert payload.fields["repeat" := inner]["repeat" := Obj(inner.fields - {"completed"})] ==
           payload.fields["repeat" := Obj(inner.fields - {"completed"})];
  }

  /** Outside the counter the merged payload is the file's; the counter is the larger of the two. */
  lemma MergePayloadMeaning(row: Json, incoming: Json)
    requires HasRepeat(incoming)
    ensures RemoveCompleted(MergePayload(row, incoming)) == RemoveCompleted(incoming)
    ensures ExtractInteger(MergePayload(row, incoming), "times") == ExtractInteger(incoming, "times")
    ensures HasRepeat(MergePayload(row, incoming))
    ensures StoredCount(incoming) >= 0 ==>
      StoredCount(MergePayload(row, incoming)) ==
        (if StoredCount(row) > StoredCount(incoming) then StoredCount(row) else StoredCount(incoming))
  {
    var completed := ExtractInteger(row, "completed");
    if completed.Some? {
      SetThenExtract(incoming, completed.value);
    }
  }

  /** Importing never loses completions, whatever the file says. */
  lemma CountNeverDecreases(row: Job, x: Incoming)
    requires HasRepeat(x.payload) && StoredCount(x.payload) >= 0
    ensures StoredCount(Merge(row, x).payload) >= StoredCount(row.payload)
  {
    MergePayloadMeaning(row.payload, x.payload);
  }

  /** A job unchanged apart from its counters keeps the schedule the scheduler advanced, and its switch. */
  lemma UnchangedKeepsSchedule(row: Job, x: Incoming)
    requires Unchanged(row, x)
    ensures Merge(row, x).next == row.next && Merge(row, x).enabled == row.enabled
    ensures Merge(row, x).expression == row.expression
  {
  }

  /** Any edit of the file reaches the schedule and the switch of a job that is not finished. */
  lemma EditsAreImported(row: Job, x: Incoming)
    requires !Finished(row) && !Unchanged(row, x)
    ensures Merge(row, x) == NewRow(x).(payload := MergePayload(row.payload, x.payload))
  {
  }

  /** One import never re-arms a finished one-shot or an exhausted repeat. */
  lemma FinishedIsNotRearmed(row: Job, x: Incoming)
    requires Finished(row)
    ensures Merge(row, x).next.None? && Merge(row, x).enabled == row.enabled
  {
  }

  /**
   * Importing the same job again and again: `x` and `y` differ in nothing but the clock, which may also have moved the
   * next run computed for a file that names none.
   */
  predicate SameFileJob(x: Incoming, y: Incoming) {
    x.expression == y.expression && x.payload == y.payload && x.enabled == y.enabled
  }

  lemma MergePayloadSettles(row: Json, incoming: Json)
    requires HasRepeat(incoming)
    ensures MergePayload(MergePayload(row, incoming), incoming) == MergePayload(row, incoming)
  {
    var completed := ExtractInteger(row, "completed");
    if completed.Some? {
      SetThenExtract(incoming, completed.value);
    }
  }

  function Untimed(row: Job): Job { row.(updated := 0) }

  /** Two imports reach the fixed point: a third changes nothing but the time stamp. */
  lemma TwoImportsSettle(row: Job, x: Incoming, y: Incoming, z: Incoming)
    requires HasRepeat(x.payload) && SameFileJob(x, y) && SameFileJob(y, z)
    ensures Untimed(Merge(Merge(Merge(row, x), y), z)) == Untimed(Merge(Merge(row, x), y))
  {
    MergePayloadSettles(row.payload, x.payload);
    MergePayloadMeaning(row.payload, x.payload);
  }

  /** A first import of a new job is already the fixed point. */
  lemma FirstImportSettles(x: Incoming, y: Incoming)
    requires HasRepeat(x.payload) && SameFileJob(x, y)
    ensures Untimed(Merge(NewRow(x), y)) == Untimed(NewRow(x))
  {
    MergePayloadMeaning(x.payload, x.payload);
  }

  /** The file's job, merged into the row, is neither a one-shot nor used up. */
  predicate RunsAgain(row: Job, x: Incoming) {
    !LikeOnce(x.expression) && !Exhausted(MergePayload(row.payload, x.payload))
  }

  /**
   * What a second import makes of a finished job. It comes back only after the file itself turned it into a job that is
   * not finished, and it gets a next run only if the file also disagrees with the row about the switch: the schedule is
   * taken from the file where something differs, and after the first import nothing but the switch can.
   */
  lemma RearmedExactlyWhenTheFileChangesIt(row: Job, x: Incoming, y: Incoming)
    requires Finished(row) && HasRepeat(x.payload) && SameFileJob(x, y)
    ensures Merge(Merge(row, x), y).enabled == if RunsAgain(row, x) then x.enabled else row.enabled
    ensures Merge(Merge(row, x), y).next == if RunsAgain(row, x) && row.enabled != x.enabled then y.next else None
  {
    MergePayloadSettles(row.payload, x.payload);
    MergePayloadMeaning(row.payload, x.payload);
  }

  /** When one import is the fixed point already. */
  lemma OneImportSettlesExactlyWhen(row: Job, x: Incoming, y: Incoming)
    requires HasRepeat(x.payload) && SameFileJob(x, y)
    ensures Untimed(Merge(Merge(row, x), y)) == Untimed(Merge(row, x)) <==>
      !(Finished(row) && RunsAgain(row, x) && row.enabled != x.enabled)
  {
    MergePayloadSettles(row.payload, x.payload);
    MergePayloadMeaning(row.payload, x.payload);
  }

  function ImportAll(row: Job, xs: seq<Incoming>): Job {
    if xs == [] then row else Merge(ImportAll(row, xs[..|xs| - 1]), xs[|xs| - 1])
  }

  /** However often the same file job is imported after the second time, only the time stamp moves. */
  lemma {:induction false} ManyImportsAreTwo(row: Job, x: Incoming, y: Incoming, zs: seq<Incoming>)
    requires HasRepeat(x.payload) && SameFileJob(x, y) && forall i :: 0 <= i < |zs| ==> SameFileJob(y, zs[i])
    ensures Untimed(ImportAll(Merge(Merge(row, x), y), zs)) == Untimed(Merge(Merge(row, x), y))
  {
    if zs != [] {
      var n := |zs| - 1;
      ManyImportsAreTwo(row, x, y, zs[..n]);
      TwoImportsSettle(row, x, y, zs[n]);
      MergeIgnoresTime(ImportAll(Merge(Merge(row, x), y), zs[..n]), Merge(Merge(row, x), y), zs[n]);
    }
  }

  lemma MergeIgnoresTime(a: Job, b: Job, x: Incoming)
    requires Untimed(a) == Untimed(b)
    ensures Merge(a, x) == Merge(b, x)
  {
  }

  /**
   * A finished job whose switch the file agrees with never runs again, whatever job the file has made of it, however
   * often that file is imported.
   */
  lemma FinishedStaysWithoutNextRun(row: Job, x: Incoming, y: Incoming, zs: seq<Incoming>)
    requires Finished(row) && row.enabled == x.enabled && HasRepeat(x.payload)
    requires SameFileJob(x, y) && forall i :: 0 <= i < |zs| ==> SameFileJob(y, zs[i])
    ensures ImportAll(Merge(Merge(row, x), y), zs).next.None?
    ensures ImportAll(Merge(Merge(row, x), y), zs).enabled == x.enabled
    ensures ImportAll(Merge(Merge(row, x), y), zs).expression == x.expression
  {
    ManyImportsAreTwo(row, x, y, zs);
    RearmedExactlyWhenTheFileChangesIt(row, x, y);
  }

  const UNLIMITED := Obj(map["repeat" := Obj(map["times" := Null, "completed" := Int(0)])])

  lemma NewYearIsAOneShot()
    ensures LikeOnce("once:2026-01-01T00:00:00Z")
  {
    var expression := "once:2026-01-01T00:00:00Z";
    assert expression[..5] == ONCE;
    assert forall i :: 0 <= i < |ONCE| ==> expression[i] == expression[..5][i];
  }

  lemma NineIsNoOneShot()
    ensures !LikeOnce("0 9 * * *") && !Exhausted(MergePayload(UNLIMITED, UNLIMITED))
  {
    assert "0 9 * * *"[0] == '0' && ONCE[0] == 'o';
    MergePayloadMeaning(UNLIMITED, UNLIMITED);
    assert Extract(UNLIMITED, "times").None?;
  }

  /**
   * A one-shot imported too late to run has no next run and is still enabled. When its file turns it into a daily job,
   * no number of imports gives that job a next run.
   */
  lemma EditedLateOneShotNeverRuns(zs: seq<Incoming>)
    requires var x := Incoming("0 9 * * *", UNLIMITED, true, Some(9), 1);
      forall i :: 0 <= i < |zs| ==> SameFileJob(x, zs[i])
    ensures var row := NewRow(Incoming("once:2026-01-01T00:00:00Z", UNLIMITED, true, None, 0));
      var x := Incoming("0 9 * * *", UNLIMITED, true, Some(9), 1);
      && RunsAgain(row, x)
      && var last := ImportAll(Merge(Merge(row, x), x), zs);
         last.enabled && last.expression == "0 9 * * *" && last.next.None?
  {
    NewYearIsAOneShot();
    NineIsNoOneShot();
    var row := NewRow(Incoming("once:2026-01-01T00:00:00Z", UNLIMITED, true, None, 0));
    var x := Incoming("0 9 * * *", UNLIMITED, true, Some(9), 1);
    FinishedStaysWithoutNextRun(row, x, x, zs);
  }

  /** One import is not always enough: a finished one-shot that the file turned into a cron job starts at the second. */
  lemma OneImportMayNotSettle()
    ensures
      var row := Job("once:2026-01-01T00:00:00Z", UNLIMITED, false, None, 0);
      var x := Incoming("0 9 * * *", UNLIMITED, true, Some(9), 1);
      && !Merge(row, x).enabled && Merge(row, x).next.None?
      && Merge(Merge(row, x), x).enabled && Merge(Merge(row, x), x).next == Some(9)
  {
    NewYearIsAOneShot();
    NineIsNoOneShot();
    var row := Job("once:2026-01-01T00:00:00Z", UNLIMITED, false, None, 0);
    var x := Incoming("0 9 * * *", UNLIMITED, true, Some(9), 1);
    RearmedExactlyWhenTheFileChangesIt(row, x, x);
  }

  // --- The file ---

  datatype Schedule = Schedule(kind: string, expr: Option<string>, minutes: Option<nat>, runAt: Option<string>)

  /**
   * A job as the file lists it; `fields` are its other serialised fields, `allowed` the verdict of the lifecycle guard
   * on its prompt and script.
   */
  datatype FileJob = FileJob(
    id: string, allowed: bool, schedule: Schedule, fields: map<string, Json>, times: Option<nat>, completed: nat,
    enabled: bool, nextRunAt: Option<string>, createdAt: Option<string>)

  datatype Store = Store(profile: string, home: string, source: string)

  /** `HermesJob::expression`; `None` is the error return. */
  function Expression(schedule: Schedule): Option<string> {
    if schedule.kind == "cron" then
      if schedule.expr.Some? && Trim(schedule.expr.value) != [] then schedule.expr else None
    else if schedule.kind == "interval" then
      match schedule.minutes
      case Some(minutes) => Some("interval:" + Decimal(minutes) + "m")
      case None => None
    else if schedule.kind == "once" then
      match schedule.runAt
      case Some(instant) => Some(ONCE + instant)
      case None => None
    else None
  }

  function FilePayload(store: Store, job: FileJob): (payload: Json)
    ensures HasRepeat(payload)
  {
    var times := match job.times case Some(n) => Int(n) case None => Null;
    Obj(job.fields["repeat" := Obj(map["times" := times, "completed" := Int(job.completed)])]
                  ["_omon_hermes_source" := Str(store.source)]
                  ["_omon_hermes_profile" := Str(store.profile)]
                  ["_omon_hermes_home" := Str(store.home)])
  }

  function RowId(store: Store, job: FileJob): JobId {
    "hermes:" + store.profile + ":" + job.id
  }

  /** The values bound for one job, or `None` when the import stops with an error. */
  function Import(clock: Clockwork, store: Store, job: FileJob, now: Time): Option<Incoming> {
    match Expression(job.schedule)
    case None => None
    case Some(expression) =>
      if job.nextRunAt.Some? && clock.instant(job.nextRunAt.value).None? then None
      else if job.createdAt.Some? && clock.instant(job.createdAt.value).None? then None
      else
        var next := if job.nextRunAt.Some? then clock.instant(job.nextRunAt.value) else NextRun(clock, expression, now);
        Some(Incoming(expression, FilePayload(store, job), job.enabled, next, now))
  }

  /** The state of the loop over the file's jobs; `ok` is false once it has returned an error. */
  datatype Progress = Progress(jobs: map<JobId, Job>, live: set<JobId>, ok: bool)

  function ImportJob(clock: Clockwork, store: Store, job: FileJob, now: Time, p: Progress): Progress {
    if !p.ok then p
    else if Trim(job.id) == [] then p.(ok := false)
    else if !job.allowed then p
    else
      match Import(clock, store, job, now)
      case None => p.(ok := false)
      case Some(x) => p.(jobs := Upsert(p.jobs, RowId(store, job), x), live := p.live + {RowId(store, job)})
  }

  function ImportJobs(clock: Clockwork, store: Store, jobs: seq<FileJob>, now: Time, p: Progress): Progress {
    if jobs == [] then p
    else ImportJob(clock, store, jobs[|jobs| - 1], now, ImportJobs(clock, store, jobs[..|jobs| - 1], now, p))
  }

  predicate FromSource(row: Job, source: string) {
    Get(row.payload, "_omon_hermes_source") == Some(Str(source))
  }

  function DropDead(jobs: map<JobId, Job>, source: string, live: set<JobId>): map<JobId, Job> {
    map id | id in jobs && !(FromSource(jobs[id], source) && id !in live) :: jobs[id]
  }

  /** One store of one `sync`: the table afterwards, and whether the store was imported to its end. */
  function SyncStore(clock: Clockwork, store: Store, file: seq<FileJob>, now: Time, jobs: map<JobId, Job>)
    : (map<JobId, Job>, bool)
  {
    var p := ImportJobs(clock, store, file, now, Progress(jobs, {}, true));
    (if p.ok then DropDead(p.jobs, store.source, p.live) else p.jobs, p.ok)
  }

  /** A store with its file, or without one when it could not be loaded. */
  datatype Loaded = Loaded(store: Store, file: Option<seq<FileJob>>)

  /** `sync`: the stores in turn, until one cannot be loaded or imported to its end. */
  function SyncStores(clock: Clockwork, stores: seq<Loaded>, now: Time,
                      jobs: map<JobId, Job>): (map<JobId, Job>, bool)
  {
    if stores == [] then (jobs, true)
    else
      var (before, ok) := SyncStores(clock, stores[..|stores| - 1], now, jobs);
      match stores[|stores| - 1]
      case Loaded(store, Some(file)) => if ok then SyncStore(clock, store, file, now, before) else (before, false)
      case Loaded(_, None) => (before, false)
  }

  class JobTable {
    var jobs: map<JobId, Job>

    constructor (jobs: map<JobId, Job>)
      ensures this.jobs == jobs
    {
      this.jobs := jobs;
    }

    method Sync(clock: Clockwork, stores: seq<Loaded>, now: Time) returns (ok: bool)
      modifies this
      ensures (jobs, ok) == SyncStores(clock, stores, now, old(jobs))
    {
      for i := 0 to |stores|
        invariant (jobs, true) == SyncStores(clock, stores[..i], now, old(jobs))
      {
        assert stores[..i + 1][..i] == stores[..i];
        match stores[i].file {
          case None =>
            SyncStopped(clock, stores, i + 1, now, old(jobs));
            return false;
          case Some(file) =>
            ok := SyncOne(clock, stores[i].store, file, now);
            if !ok {
              SyncStopped(clock, stores, i + 1, now, old(jobs));
              return;
            }
        }
      }
      assert stores[..|stores|] == stores;
      ok := true;
    }

    method SyncOne(clock: Clockwork, store: Store, file: seq<FileJob>, now: Time) returns (ok: bool)
      modifies this
      ensures (jobs, ok) == SyncStore(clock, store, file, now, old(jobs))
    {
      var live: set<JobId> := {};
      for i := 0 to |file|
        invariant Progress(jobs, live, true) == ImportJobs(clock, store, file[..i], now, Progress(old(jobs), {}, true))
      {
        var job := file[i];
        assert file[..i + 1][..i] == file[..i];
        if Trim(job.id) == [] {
          ImportStopped(clock, store, file, i + 1, now, Progress(old(jobs), {}, true));
          return false;
        }
        if !job.allowed {
          continue;
        }
        match Import(clock, store, job, now) {
          case None =>
            ImportStopped(clock, store, file, i + 1, now, Progress(old(jobs), {}, true));
            return false;
          case Some(x) =>
            live := live + {RowId(store, job)};
            jobs := Upsert(jobs, RowId(store, job), x);
        }
      }
      assert file[..|file|] == file;
      jobs := DropDead(jobs, store.source, live);
      ok := true;
    }
  }

  /** After an error the remaining stores are not read. */
  lemma {:induction false} SyncStopped(clock: Clockwork, stores: seq<Loaded>, n: nat, now: Time, jobs: map<JobId, Job>)
    requires n <= |stores| && !SyncStores(clock, stores[..n], now, jobs).1
    ensures SyncStores(clock, stores, now, jobs) == SyncStores(clock, stores[..n], now, jobs)
    decreases |stores| - n
  {
    if n == |stores| {
      assert stores[..n] == stores;
    } else {
      assert stores[..n + 1][..n] == stores[..n];
      SyncStopped(clock, stores, n + 1, now, jobs);
    }
  }

  /** After an error the rest of the file is not read. */
  lemma {:induction false} ImportStopped(
      clock: Clockwork, store: Store, file: seq<FileJob>, n: nat, now: Time, p: Progress)
    requires n <= |file| && !ImportJobs(clock, store, file[..n], now, p).ok
    ensures ImportJobs(clock, store, file, now, p) == ImportJobs(clock, store, file[..n], now, p)
    decreases |file| - n
  {
    if n == |file| {
      assert file[..n] == file;
    } else {
      assert file[..n + 1][..n] == file[..n];
      ImportStopped(clock, store, file, n + 1, now, p);
    }
  }

  // --- Whole-table convergence ---

  /** A file that imports to its end. */
  predicate Importable(clock: Clockwork, store: Store, file: seq<FileJob>, now: Time) {
    forall i :: 0 <= i < |file| ==>
      Trim(file[i].id) != [] && (file[i].allowed ==> Import(clock, store, file[i], now).Some?)
  }

  predicate Lists(file: seq<FileJob>, store: Store, id: JobId, i: int) {
    0 <= i < |file| && file[i].allowed && RowId(store, file[i]) == id
  }

  ghost predicate Listed(file: seq<FileJob>, store: Store, id: JobId) {
    exists i :: Lists(file, store, id, i)
  }

  ghost predicate ListedAtMostOnce(file: seq<FileJob>, store: Store, id: JobId) {
    forall i, j :: Lists(file, store, id, i) && Lists(file, store, id, j) ==> i == j
  }

  ghost predicate ListedTwice(file: seq<FileJob>, store: Store, id: JobId, i: int, j: int) {
    && i < j && Lists(file, store, id, i) && Lists(file, store, id, j)
    && forall k :: Lists(file, store, id, k) ==> k == i || k == j
  }

  lemma RowIdInjective(store: Store, a: FileJob, b: FileJob)
    ensures RowId(store, a) == RowId(store, b) <==> a.id == b.id
  {
    var prefix := "hermes:" + store.profile + ":";
    assert RowId(store, a)[|prefix|..] == a.id && RowId(store, b)[|prefix|..] == b.id;
  }

  /** A file of distinct ids lists every row at most once. */
  lemma DistinctIdsAreListedOnce(file: seq<FileJob>, store: Store, id: JobId)
    requires forall i, j :: 0 <= i < j < |file| ==> file[i].id != file[j].id
    ensures ListedAtMostOnce(file, store, id)
  {
    forall i, j | Lists(file, store, id, i) && Lists(file, store, id, j) ensures i == j {
      RowIdInjective(store, file[i], file[j]);
    }
  }

  function Lookup(jobs: map<JobId, Job>, id: JobId): Option<Job> {
    if id in jobs then Some(jobs[id]) else None
  }

  function Met(row: Option<Job>, x: Option<Incoming>): Option<Job> {
    if x.None? then row else Some(if row.Some? then Merge(row.value, x.value) else NewRow(x.value))
  }

  /** What the entries of a file make of the row `id`, one after the other. */
  function Merged(
      clock: Clockwork, store: Store, file: seq<FileJob>, now: Time, id: JobId, row: Option<Job>): Option<Job>
  {
    if file == [] then row
    else
      var last := file[|file| - 1];
      var before := Merged(clock, store, file[..|file| - 1], now, id, row);
      if last.allowed && RowId(store, last) == id then Met(before, Import(clock, store, last, now)) else before
  }

  lemma {:induction false} UnlistedEndIsPassed(
      clock: Clockwork, store: Store, file: seq<FileJob>, now: Time, id: JobId, row: Option<Job>, n: nat)
    requires n <= |file| && forall k :: n <= k < |file| ==> !Lists(file, store, id, k)
    ensures Merged(clock, store, file, now, id, row) == Merged(clock, store, file[..n], now, id, row)
  {
    if n == |file| {
      assert file[..n] == file;
    } else {
      var init := file[..|file| - 1];
      assert !Lists(file, store, id, |file| - 1);
      forall k | n <= k < |init| ensures !Lists(init, store, id, k) {
        assert !Lists(file, store, id, k);
      }
      UnlistedEndIsPassed(clock, store, init, now, id, row, n);
      assert init[..n] == file[..n];
    }
  }

  lemma LastEntryIsMet(
      clock: Clockwork, store: Store, file: seq<FileJob>, now: Time, id: JobId, row: Option<Job>, i: nat)
    requires Lists(file, store, id, i) && forall k :: i < k < |file| ==> !Lists(file, store, id, k)
    ensures Merged(clock, store, file, now, id, row) ==
      Met(Merged(clock, store, file[..i], now, id, row), Import(clock, store, file[i], now))
  {
    var n := i + 1;
    UnlistedEndIsPassed(clock, store, file, now, id, row, n);
    assert file[..n][..i] == file[..i];
  }

  lemma UnlistedIsKept(clock: Clockwork, store: Store, file: seq<FileJob>, now: Time, id: JobId, row: Option<Job>)
    requires !Listed(file, store, id)
    ensures Merged(clock, store, file, now, id, row) == row
  {
    forall k: nat | k < |file| ensures !Lists(file, store, id, k) {
    }
    UnlistedEndIsPassed(clock, store, file, now, id, row, 0);
  }

  lemma OnceListedIsMerged(
      clock: Clockwork, store: Store, file: seq<FileJob>, now: Time, id: JobId, row: Option<Job>, i: nat)
    requires ListedAtMostOnce(file, store, id) && Lists(file, store, id, i)
    ensures Merged(clock, store, file, now, id, row) == Met(row, Import(clock, store, file[i], now))
  {
    LastEntryIsMet(clock, store, file, now, id, row, i);
    forall k | Lists(file[..i], store, id, k) ensures false {
      assert Lists(file, store, id, k);
    }
    UnlistedIsKept(clock, store, file[..i], now, id, row);
  }

  /** What the loop has done to the row `id` once it has read `file`. */
  ghost predicate Rowwise(
      clock: Clockwork, store: Store, file: seq<FileJob>, now: Time, jobs: map<JobId, Job>, p: Progress, id: JobId) {
    && p.ok && (id in p.live <==> Listed(file, store, id))
    && Lookup(p.jobs, id) == Merged(clock, store, file, now, id, Lookup(jobs, id))
  }

  /** Importing a job touches no row but its own. */
  lemma OneRowMoves(clock: Clockwork, store: Store, job: FileJob, now: Time, p: Progress, id: JobId)
    requires p.ok && Trim(job.id) != [] && (job.allowed ==> Import(clock, store, job, now).Some?)
    ensures var after := ImportJob(clock, store, job, now, p);
      if job.allowed && RowId(store, job) == id then
        && after.ok && id in after.live
        && Lookup(after.jobs, id) == Met(Lookup(p.jobs, id), Import(clock, store, job, now))
      else after.ok && (id in after.live <==> id in p.live) && Lookup(after.jobs, id) == Lookup(p.jobs, id)
  {
  }

  lemma ListedSnoc(file: seq<FileJob>, store: Store, id: JobId)
    requires file != []
    ensures Listed(file, store, id) <==>
      Listed(file[..|file| - 1], store, id) || Lists(file, store, id, |file| - 1)
  {
    var init := file[..|file| - 1];
    forall k | Lists(init, store, id, k) ensures Lists(file, store, id, k) {
    }
    forall k | Lists(file, store, id, k) && k < |init| ensures Lists(init, store, id, k) {
    }
  }

  /** Each listed job meets its own row and no other; a job listed several times meets it as often. */
  lemma {:induction false} ImportJobsRowwise(
      clock: Clockwork, store: Store, file: seq<FileJob>, now: Time, jobs: map<JobId, Job>, id: JobId)
    requires Importable(clock, store, file, now)
    ensures Rowwise(clock, store, file, now, jobs, ImportJobs(clock, store, file, now, Progress(jobs, {}, true)), id)
  {
    if file == [] {
      assert !Listed(file, store, id);
    } else {
      var n := |file| - 1;
      var before := ImportJobs(clock, store, file[..n], now, Progress(jobs, {}, true));
      ImportJobsRowwise(clock, store, file[..n], now, jobs, id);
      OneRowMoves(clock, store, file[n], now, before, id);
      ListedSnoc(file, store, id);
    }
  }

  /** One row before and after a sync of one store. */
  ghost function SyncedRow(
      clock: Clockwork, store: Store, file: seq<FileJob>, now: Time, id: JobId, row: Option<Job>): Option<Job>
  {
    if Listed(file, store, id) then Merged(clock, store, file, now, id, row)
    else if row.Some? && FromSource(row.value, store.source) then None
    else row
  }

  lemma SyncStoreRow(clock: Clockwork, store: Store, file: seq<FileJob>, now: Time, jobs: map<JobId, Job>, id: JobId)
    requires Importable(clock, store, file, now)
    ensures SyncStore(clock, store, file, now, jobs).1
    ensures Lookup(SyncStore(clock, store, file, now, jobs).0, id)
      == SyncedRow(clock, store, file, now, id, Lookup(jobs, id))
  {
    ImportJobsRowwise(clock, store, file, now, jobs, id);
    if !Listed(file, store, id) {
      UnlistedIsKept(clock, store, file, now, id, Lookup(jobs, id));
    }
  }

  /**
   * After a sync the row of a job listed once is the job's merge, the rows of this source that are not listed are gone,
   * and every other row is as it was.
   */
  lemma SyncRowwise(
      clock: Clockwork, store: Store, file: seq<FileJob>, now: Time, jobs: map<JobId, Job>, id: JobId, i: int)
    requires Importable(clock, store, file, now)
    ensures SyncStore(clock, store, file, now, jobs).1
    ensures Lists(file, store, id, i) && ListedAtMostOnce(file, store, id) ==>
      var after := SyncStore(clock, store, file, now, jobs).0;
      id in after && after[id] == Upsert(jobs, id, Import(clock, store, file[i], now).value)[id]
    ensures !Listed(file, store, id) ==>
      var after := SyncStore(clock, store, file, now, jobs).0;
      && (id in after <==> id in jobs && !FromSource(jobs[id], store.source))
      && (id in after ==> after[id] == jobs[id])
  {
    SyncStoreRow(clock, store, file, now, jobs, id);
    if Lists(file, store, id, i) && ListedAtMostOnce(file, store, id) {
      OnceListedIsMerged(clock, store, file, now, id, Lookup(jobs, id), i);
    }
  }

  // --- What an import binds ---

  /** The schedule text of a job, by kind; any other kind, and one without its field, has none. */
  lemma ExpressionMeaning(schedule: Schedule)
    ensures var e := Expression(schedule);
      && (schedule.kind == "cron" ==> (e.Some? <==> schedule.expr.Some? && !Blank(schedule.expr.value)))
      && (schedule.kind == "cron" && e.Some? ==> e == schedule.expr)
      && (schedule.kind == "interval" ==> (e.Some? <==> schedule.minutes.Some?))
      && (schedule.kind == "interval" && e.Some? ==> e.value == "interval:" + Decimal(schedule.minutes.value) + "m")
      && (schedule.kind == "once" ==> (e.Some? <==> schedule.runAt.Some?))
      && (schedule.kind == "once" && e.Some? ==> e.value == "once:" + schedule.runAt.value)
      && (e.Some? ==> schedule.kind in {"cron", "interval", "once"})
  {
    if schedule.expr.Some? {
      TrimmedAway(schedule.expr.value);
    }
  }

  /** An import fails exactly for a job without a schedule text, or with a time that is not one. */
  lemma ImportFailsExactlyWhen(clock: Clockwork, store: Store, job: FileJob, now: Time)
    ensures Import(clock, store, job, now).None? <==>
      || Expression(job.schedule).None?
      || (job.nextRunAt.Some? && clock.instant(job.nextRunAt.value).None?)
      || (job.createdAt.Some? && clock.instant(job.createdAt.value).None?)
  {
  }

  /** The payload of a row as its file gives it. */
  ghost predicate PayloadOf(payload: Json, store: Store, job: FileJob) {
    && payload.Obj?
    && Get(payload, "repeat") == Some(Obj(map["times" := if job.times.Some? then Int(job.times.value) else Null,
                                              "completed" := Int(job.completed)]))
    && Get(payload, "_omon_hermes_source") == Some(Str(store.source))
    && Get(payload, "_omon_hermes_profile") == Some(Str(store.profile))
    && Get(payload, "_omon_hermes_home") == Some(Str(store.home))
    && forall key :: key !in {"repeat", "_omon_hermes_source", "_omon_hermes_profile", "_omon_hermes_home"} ==>
         Get(payload, key) == if key in job.fields then Some(job.fields[key]) else None
  }

  /** What is bound for one job: its schedule, its switch, its counters, and the next run it names or the clock does. */
  lemma ImportBinds(clock: Clockwork, store: Store, job: FileJob, now: Time)
    requires Import(clock, store, job, now).Some?
    ensures var x := Import(clock, store, job, now).value;
      && Expression(job.schedule) == Some(x.expression) && x.enabled == job.enabled && x.now == now
      && x.next == (if job.nextRunAt.Some? then clock.instant(job.nextRunAt.value)
                    else NextRun(clock, x.expression, now))
      && PayloadOf(x.payload, store, job)
  {
  }

  /** The row that a sync leaves for a job that is new to the table, read off the file. */
  lemma NewJobIsAsListed(
      clock: Clockwork, store: Store, file: seq<FileJob>, now: Time, jobs: map<JobId, Job>, i: nat)
    requires Importable(clock, store, file, now) && i < |file| && file[i].allowed
    requires ListedAtMostOnce(file, store, RowId(store, file[i])) && RowId(store, file[i]) !in jobs
    ensures var (job, after) := (file[i], SyncStore(clock, store, file, now, jobs).0);
      var id := "hermes:" + store.profile + ":" + job.id;
      && id in after && Expression(job.schedule) == Some(after[id].expression)
      && after[id].enabled == job.enabled && PayloadOf(after[id].payload, store, job)
      && after[id].next == if job.nextRunAt.Some? then clock.instant(job.nextRunAt.value)
                           else NextRun(clock, after[id].expression, now)
  {
    assert Lists(file, store, RowId(store, file[i]), i);
    SyncRowwise(clock, store, file, now, jobs, RowId(store, file[i]), i);
    ImportBinds(clock, store, file[i], now);
  }

  /**
   * The first job without an id, or with an error, ends the sync: what comes before it is imported, nothing deleted.
   */
  lemma SyncStopsAtFirstError(
      clock: Clockwork, store: Store, file: seq<FileJob>, now: Time, jobs: map<JobId, Job>, i: nat, id: JobId)
    requires i < |file| && Importable(clock, store, file[..i], now)
    requires Trim(file[i].id) == [] || (file[i].allowed && Import(clock, store, file[i], now).None?)
    ensures !SyncStore(clock, store, file, now, jobs).1
    ensures Lookup(SyncStore(clock, store, file, now, jobs).0, id) ==
      Merged(clock, store, file[..i], now, id, Lookup(jobs, id))
  {
    var n := i + 1;
    var start := Progress(jobs, {}, true);
    ImportJobsRowwise(clock, store, file[..i], now, jobs, id);
    assert file[..n][..i] == file[..i];
    assert ImportJobs(clock, store, file[..n], now, start) ==
      ImportJobs(clock, store, file[..i], now, start).(ok := false);
    ImportStopped(clock, store, file, n, now, start);
  }

  /** The first store that cannot be loaded, or synced to its end, ends the whole sync. */
  lemma SyncStopsAtFirstStore(clock: Clockwork, stores: seq<Loaded>, now: Time, jobs: map<JobId, Job>, i: nat)
    requires i < |stores| && SyncStores(clock, stores[..i], now, jobs).1
    ensures var before := SyncStores(clock, stores[..i], now, jobs).0;
      && (stores[i].file.None? ==> SyncStores(clock, stores, now, jobs) == (before, false))
      && (stores[i].file.Some? ==>
            var (after, ok) := SyncStore(clock, stores[i].store, stores[i].file.value, now, before);
            !ok ==> SyncStores(clock, stores, now, jobs) == (after, false))
  {
    var n := i + 1;
    assert stores[..n][..i] == stores[..i];
    if !SyncStores(clock, stores[..n], now, jobs).1 {
      SyncStopped(clock, stores, n, now, jobs);
    }
  }

  predicate SameButTime(a: Option<Job>, b: Option<Job>) {
    (a.Some? <==> b.Some?) && (a.Some? ==> Untimed(a.value) == Untimed(b.value))
  }

  lemma SyncedRowSettles(
      clock: Clockwork, store: Store, file: seq<FileJob>, t1: Time, t2: Time, t3: Time, id: JobId, row: Option<Job>)
    requires Importable(clock, store, file, t1) && Importable(clock, store, file, t2)
    requires Importable(clock, store, file, t3) && ListedAtMostOnce(file, store, id)
    ensures var second := SyncedRow(clock, store, file, t2, id, SyncedRow(clock, store, file, t1, id, row));
      SameButTime(SyncedRow(clock, store, file, t3, id, second), second)
  {
    if Listed(file, store, id) {
      var i :| Lists(file, store, id, i);
      var x := Import(clock, store, file[i], t1).value;
      var y := Import(clock, store, file[i], t2).value;
      var z := Import(clock, store, file[i], t3).value;
      var once, twice := Met(row, Some(x)), Met(Met(row, Some(x)), Some(y));
      OnceListedIsMerged(clock, store, file, t1, id, row, i);
      OnceListedIsMerged(clock, store, file, t2, id, once, i);
      OnceListedIsMerged(clock, store, file, t3, id, twice, i);
      if row.Some? {
        TwoImportsSettle(row.value, x, y, z);
      } else {
        FirstImportSettles(x, y);
        FirstImportSettles(x.(now := y.now), z);
      }
    }
  }

  /**
   * Syncing an unchanged file three times leaves the table, time stamps aside, where the second sync left it: the same
   * jobs, and in each the same row. A job listed twice is excepted: see `TwiceListedSettlesExactlyWhen`.
   */
  lemma SyncSettles(
      clock: Clockwork, store: Store, file: seq<FileJob>, t1: Time, t2: Time, t3: Time, jobs: map<JobId, Job>,
      id: JobId)
    requires Importable(clock, store, file, t1) && Importable(clock, store, file, t2)
    requires Importable(clock, store, file, t3) && ListedAtMostOnce(file, store, id)
    ensures var second := SyncStore(clock, store, file, t2, SyncStore(clock, store, file, t1, jobs).0).0;
      var third := SyncStore(clock, store, file, t3, second).0;
      && (id in third <==> id in second)
      && (id in second ==> Untimed(third[id]) == Untimed(second[id]))
  {
    var first := SyncStore(clock, store, file, t1, jobs).0;
    var second := SyncStore(clock, store, file, t2, first).0;
    SyncStoreRow(clock, store, file, t1, jobs, id);
    SyncStoreRow(clock, store, file, t2, first, id);
    SyncStoreRow(clock, store, file, t3, second, id);
    SyncedRowSettles(clock, store, file, t1, t2, t3, id, Lookup(jobs, id));
    var third := SyncStore(clock, store, file, t3, second).0;
    assert SameButTime(Lookup(third, id), Lookup(second, id));
  }

  // --- A job listed twice ---

  /** The row after two entries of its id have been imported one after the other. */
  function TwiceImported(row: Option<Job>, x: Incoming, y: Incoming): Job {
    Merge(if row.Some? then Merge(row.value, x) else NewRow(x), y)
  }

  /** An entry without a limit that is no one-shot leaves a row that the next entry, of another schedule, replaces. */
  lemma SecondEntryWins(row: Option<Job>, x: Incoming, y: Incoming)
    requires HasRepeat(x.payload) && x.expression != y.expression
    requires !LikeOnce(x.expression) && ExtractInteger(x.payload, "times").None?
    ensures var after := TwiceImported(row, x, y);
      after.next == y.next && after.enabled == y.enabled && after.expression == y.expression
  {
    if row.Some? {
      MergePayloadMeaning(row.value.payload, x.payload);
    }
  }

  lemma CountIsStored(row: Json, incoming: Json)
    requires HasRepeat(incoming) && StoredCount(incoming) >= 0
    ensures MergePayload(row, incoming) ==
      if StoredCount(row) > StoredCount(incoming) then SetCompleted(incoming, StoredCount(row)) else incoming
  {
  }

  lemma TwiceMergedPayloadSettles(row: Json, x: Json, y: Json)
    requires HasRepeat(x) && HasRepeat(y) && StoredCount(x) >= 0 && StoredCount(y) >= 0
    ensures var once := MergePayload(MergePayload(row, x), y); MergePayload(MergePayload(once, x), y) == once
  {
    var once := MergePayload(MergePayload(row, x), y);
    MergePayloadMeaning(row, x);
    MergePayloadMeaning(MergePayload(row, x), y);
    MergePayloadMeaning(once, x);
    CountIsStored(row, x);
    CountIsStored(MergePayload(row, x), y);
    CountIsStored(once, x);
  }

  /** Importing both entries again changes only the time stamp if and only if the second names the same next run. */
  lemma TwiceImportedSettlesExactlyWhen(row: Option<Job>, x: Incoming, y: Incoming, x2: Incoming, y2: Incoming)
    requires HasRepeat(x.payload) && HasRepeat(y.payload) && StoredCount(x.payload) >= 0 && StoredCount(y.payload) >= 0
    requires x.expression != y.expression && !LikeOnce(x.expression) && ExtractInteger(x.payload, "times").None?
    requires SameFileJob(x, x2) && SameFileJob(y, y2)
    ensures var first := TwiceImported(row, x, y);
      Untimed(TwiceImported(Some(first), x2, y2)) == Untimed(first) <==> y2.next == y.next
  {
    var first := TwiceImported(row, x, y);
    SecondEntryWins(row, x, y);
    SecondEntryWins(Some(first), x2, y2);
    CountIsStored(x.payload, x.payload);
    TwiceMergedPayloadSettles(if row.Some? then row.value.payload else x.payload, x.payload, y.payload);
  }

  lemma ImportedPayload(clock: Clockwork, store: Store, job: FileJob, now: Time)
    requires Import(clock, store, job, now).Some?
    ensures var x := Import(clock, store, job, now).value;
      && HasRepeat(x.payload) && StoredCount(x.payload) >= 0
      && (job.times.None? ==> ExtractInteger(x.payload, "times").None?)
  {
  }

  /** What a sync makes of the row of a job that its file lists twice. */
  lemma TwiceListedIsTwiceImported(
      clock: Clockwork, store: Store, file: seq<FileJob>, now: Time, jobs: map<JobId, Job>, id: JobId, i: nat, j: nat)
    requires Importable(clock, store, file, now) && ListedTwice(file, store, id, i, j)
    ensures var x, y := Import(clock, store, file[i], now).value, Import(clock, store, file[j], now).value;
      Lookup(SyncStore(clock, store, file, now, jobs).0, id) == Some(TwiceImported(Lookup(jobs, id), x, y))
  {
    var row, init := Lookup(jobs, id), file[..j];
    SyncStoreRow(clock, store, file, now, jobs, id);
    LastEntryIsMet(clock, store, file, now, id, row, j);
    assert Lists(init, store, id, i);
    forall k | Lists(init, store, id, k) ensures k == i {
      assert Lists(file, store, id, k);
    }
    OnceListedIsMerged(clock, store, init, now, id, row, i);
  }

  predicate NextRunStands(clock: Clockwork, job: FileJob, t1: Time, t2: Time) {
    var expression := Expression(job.schedule).GetOr("");
    job.nextRunAt.Some? || NextRun(clock, expression, t2) == NextRun(clock, expression, t1)
  }

  /**
   * A job that a file lists twice, with two schedules, is at rest from one sync to the next if and only if the second
   * entry names its next run, or the clock names the same one again: each sync takes that next run anew.
   */
  lemma TwiceListedSettlesExactlyWhen(
      clock: Clockwork, store: Store, file: seq<FileJob>, t1: Time, t2: Time, jobs: map<JobId, Job>, id: JobId,
      i: nat, j: nat)
    requires Importable(clock, store, file, t1) && Importable(clock, store, file, t2)
    requires ListedTwice(file, store, id, i, j) && Expression(file[i].schedule) != Expression(file[j].schedule)
    requires file[i].times.None? && !LikeOnce(Expression(file[i].schedule).GetOr(""))
    ensures var first := SyncStore(clock, store, file, t1, jobs).0;
      var second := SyncStore(clock, store, file, t2, first).0;
      SameButTime(Lookup(second, id), Lookup(first, id)) <==> NextRunStands(clock, file[j], t1, t2)
  {
    var first := SyncStore(clock, store, file, t1, jobs).0;
    TwiceListedIsTwiceImported(clock, store, file, t1, jobs, id, i, j);
    TwiceListedIsTwiceImported(clock, store, file, t2, first, id, i, j);
    ImportedPayload(clock, store, file[i], t1);
    ImportedPayload(clock, store, file[j], t1);
    TwiceImportedSettlesExactlyWhen(
      Lookup(jobs, id), Import(clock, store, file[i], t1).value, Import(clock, store, file[j], t1).value,
      Import(clock, store, file[i], t2).value, Import(clock, store, file[j], t2).value);
  }

  // --- Several stores ---

  predicate AllImportable(clock: Clockwork, stores: seq<Loaded>, now: Time) {
    forall i :: 0 <= i < |stores| ==>
      stores[i].file.Some? && Importable(clock, stores[i].store, stores[i].file.value, now)
  }

  /** No store but the `k`-th has this row in its file or as its source; the source of each store is its own. */
  ghost predicate OwnedBy(stores: seq<Loaded>, k: nat, id: JobId, row: Option<Job>) {
    && k < |stores| && stores[k].file.Some?
    && (row.Some? ==> FromSource(row.value, stores[k].store.source))
    && forall i :: 0 <= i < |stores| && i != k ==>
         && stores[i].store.source != stores[k].store.source
         && (stores[i].file.Some? ==> !Listed(stores[i].file.value, stores[i].store, id))
  }

  lemma MergeKeepsSource(row: Json, store: Store, job: FileJob)
    ensures Get(MergePayload(row, FilePayload(store, job)), "_omon_hermes_source") == Some(Str(store.source))
  {
    assert Get(FilePayload(store, job), "_omon_hermes_source") == Some(Str(store.source));
  }

  lemma {:induction false} SyncKeepsOwner(
      clock: Clockwork, store: Store, file: seq<FileJob>, now: Time, id: JobId, row: Option<Job>)
    requires row.Some? ==> FromSource(row.value, store.source)
    ensures var after := Merged(clock, store, file, now, id, row);
      after.Some? ==> FromSource(after.value, store.source)
  {
    if file != [] {
      var last := file[|file| - 1];
      var before := Merged(clock, store, file[..|file| - 1], now, id, row);
      SyncKeepsOwner(clock, store, file[..|file| - 1], now, id, row);
      if before.Some? {
        MergeKeepsSource(before.value.payload, store, last);
      }
    }
  }

  /** The row of one store, after `sync` has gone through the first `n` stores. */
  lemma {:induction false} OwnRowsOnly(
      clock: Clockwork, stores: seq<Loaded>, n: nat, now: Time, jobs: map<JobId, Job>, k: nat, id: JobId)
    requires n <= |stores| && AllImportable(clock, stores, now) && OwnedBy(stores, k, id, Lookup(jobs, id))
    ensures SyncStores(clock, stores[..n], now, jobs).1
    ensures Lookup(SyncStores(clock, stores[..n], now, jobs).0, id) ==
      if n <= k then Lookup(jobs, id)
      else SyncedRow(clock, stores[k].store, stores[k].file.value, now, id, Lookup(jobs, id))
  {
    if n > 0 {
      var m := n - 1;
      assert stores[..n][..m] == stores[..m];
      OwnRowsOnly(clock, stores, m, now, jobs, k, id);
      SyncKeepsOwner(clock, stores[k].store, stores[k].file.value, now, id, Lookup(jobs, id));
      SyncStoreRow(clock, stores[m].store, stores[m].file.value, now, SyncStores(clock, stores[..m], now, jobs).0, id);
    }
  }

  /** `sync` over all stores does to the rows of each store what a sync of that store alone does. */
  lemma StoresKeepApart(clock: Clockwork, stores: seq<Loaded>, now: Time, jobs: map<JobId, Job>, k: nat, id: JobId)
    requires AllImportable(clock, stores, now) && OwnedBy(stores, k, id, Lookup(jobs, id))
    ensures SyncStores(clock, stores, now, jobs).1
    ensures Lookup(SyncStores(clock, stores, now, jobs).0, id) ==
            Lookup(SyncStore(clock, stores[k].store, stores[k].file.value, now, jobs).0, id)
    ensures OwnedBy(stores, k, id, Lookup(SyncStores(clock, stores, now, jobs).0, id))
  {
    assert stores[..|stores|] == stores;
    OwnRowsOnly(clock, stores, |stores|, now, jobs, k, id);
    SyncStoreRow(clock, stores[k].store, stores[k].file.value, now, jobs, id);
    SyncKeepsOwner(clock, stores[k].store, stores[k].file.value, now, id, Lookup(jobs, id));
  }

  /** So the fixed point is reached after two syncs for every row of every store. */
  lemma AllStoresSettle(
      clock: Clockwork, stores: seq<Loaded>, t1: Time, t2: Time, t3: Time, jobs: map<JobId, Job>, k: nat, id: JobId)
    requires AllImportable(clock, stores, t1) && AllImportable(clock, stores, t2) && AllImportable(clock, stores, t3)
    requires OwnedBy(stores, k, id, Lookup(jobs, id)) && ListedAtMostOnce(stores[k].file.value, stores[k].store, id)
    ensures var second := SyncStores(clock, stores, t2, SyncStores(clock, stores, t1, jobs).0).0;
      SameButTime(Lookup(SyncStores(clock, stores, t3, second).0, id), Lookup(second, id))
  {
    var store, file := stores[k].store, stores[k].file.value;
    var first := SyncStores(clock, stores, t1, jobs).0;
    var second := SyncStores(clock, stores, t2, first).0;
    StoresKeepApart(clock, stores, t1, jobs, k, id);
    StoresKeepApart(clock, stores, t2, first, k, id);
    StoresKeepApart(clock, stores, t3, second, k, id);
    SyncStoreRow(clock, store, file, t1, jobs, id);
    SyncStoreRow(clock, store, file, t2, first, id);
    SyncStoreRow(clock, store, file, t3, second, id);
    SyncedRowSettles(clock, store, file, t1, t2, t3, id, Lookup(jobs, id));
  }
}
