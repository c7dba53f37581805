/** The repeat counter inside a job's payload: src/cron/scheduler.rs, lines 256-302. */
module Repeat {
  import opened Prelude
  import opened Json

  predicate ShouldDisableAfter(completed: nat, times: Option<nat>) {
    times.Some? && times.value > 0 && completed >= times.value
  }

  function ExtractRepeatInfo(payload: Json): (Option<nat>, nat) {
    match Get(payload, "repeat")
    case Some(repeat) => (AsU64(Get(repeat, "times")), AsU64(Get(repeat, "completed")).GetOr(0))
    case None => (AsU64(Get(payload, "times")), AsU64(Get(payload, "completed")).GetOr(0))
  }

  function Times(payload: Json): Option<nat> { ExtractRepeatInfo(payload).0 }

  function Completed(payload: Json): nat { ExtractRepeatInfo(payload).1 }

  /** `u64` addition of one, as a release build wraps it. */
  function Successor(n: nat): nat {
    (n + 1) % U64_LIMIT
  }

  /** A field as the counter functions read it: a 64-bit natural number, or nothing. */
  predicate HoldsNumber(fields: map<string, Json>, key: string, n: nat) {
    key in fields && fields[key] == Int(n) && n < U64_LIMIT
  }

  /** Where limit and counter are read: in `repeat` if there is one, and else beside it. */
  lemma RepeatIsRead(fields: map<string, Json>, inner: map<string, Json>, n: nat)
    requires "repeat" in fields ==> fields["repeat"] == Obj(inner)
    ensures var from := if "repeat" in fields then inner else fields;
      && (Times(Obj(fields)) == Some(n) <==> HoldsNumber(from, "times", n))
      && (Completed(Obj(fields)) == n <==>
            HoldsNumber(from, "completed", n) || (n == 0 && forall k: nat :: !HoldsNumber(from, "completed", k)))
  {
    var from := if "repeat" in fields then inner else fields;
    assert Get(Obj(fields), "repeat") == if "repeat" in fields then Some(Obj(inner)) else None;
    if "completed" in from && from["completed"].Int? && 0 <= from["completed"].n < U64_LIMIT {
      assert HoldsNumber(from, "completed", from["completed"].n);
    }
  }

  function WithField(v: Json, key: string, value: Json): Json
    requires v.Obj?
  {
    Obj(v.fields[key := value])
  }

  /** The new payload with the `(times, completed)` pair the scheduler goes on to use. */
  function IncrementRepeatCompleted(payload: Json): (Json, Option<nat>, nat) {
    var repeat := Get(payload, "repeat");
    if repeat.Some? && repeat.value.Obj? then
      var completed := Successor(AsU64(Get(repeat.value, "completed")).GetOr(0));
      (WithField(payload, "repeat", WithField(repeat.value, "completed", Int(completed))),
       AsU64(Get(repeat.value, "times")), completed)
    else
      var times := AsU64(Get(payload, "times"));
      var completed := Successor(AsU64(Get(payload, "completed")).GetOr(0));
      var updated :=
        if !payload.Obj? then payload
        else if times.Some? then WithField(payload, "completed", Int(completed))
        else WithField(payload, "repeat", Obj(map["completed" := Int(completed)]));
      (updated, times, completed)
  }

  /** The payload shapes on which one increment is read back as one more completion. */
  predicate CountsCleanly(payload: Json) {
    && payload.Obj?
    && match Get(payload, "repeat")
       case None => true
       case Some(repeat) =>
         || repeat.Obj?
         || (AsU64(Get(payload, "times")).None? && AsU64(Get(payload, "completed")).GetOr(0) == 0)
  }

  /**
   * `increment_repeat_completed` and `extract_repeat_info` agree on exactly the clean shapes: a payload that is
   * not an object keeps no counter, and a `repeat` that is not an object hides the counter kept beside it.
   */
  lemma IncrementIsReadBack(payload: Json)
    requires Completed(payload) + 1 < U64_LIMIT
    ensures Completed(IncrementRepeatCompleted(payload).0) == Completed(payload) + 1 <==> CountsCleanly(payload)
  {
    var updated := IncrementRepeatCompleted(payload).0;
    var repeat := Get(payload, "repeat");
    if repeat.Some? && repeat.value.Obj? {
      assert Get(updated, "repeat") == Some(WithField(repeat.value, "completed", Int(Completed(payload) + 1)));
    }
  }

  /** On a clean shape the pair handed to the limit check is the pair a later read sees, and `times` never moves. */
  lemma IncrementKeepsTimes(payload: Json)
    requires CountsCleanly(payload)
    ensures var (updated, times, completed) := IncrementRepeatCompleted(payload);
      && CountsCleanly(updated)
      && times == Times(updated) == Times(payload)
      && completed == Completed(updated) == Successor(Completed(payload))
  {
    var repeat := Get(payload, "repeat");
    if repeat.Some? && repeat.value.Obj? {
      var inner := WithField(repeat.value, "completed", Int(Successor(Completed(payload))));
      var updated := IncrementRepeatCompleted(payload).0;
      assert Get(updated, "repeat") == Some(inner);
      assert Get(inner, "times") == Get(repeat.value, "times");
    }
  }

  /** What an increment leaves alone: every top-level field but `repeat` and `completed`. */
  lemma IncrementFrame(payload: Json, key: string)
    requires key != "repeat" && key != "completed"
    ensures Get(IncrementRepeatCompleted(payload).0, key) == Get(payload, key)
  {
  }

  /** A payload whose `repeat` is not an object: the run succeeds and the counter still reads zero. */
  lemma NonObjectRepeatLosesTheCount()
    ensures var payload := Obj(map["repeat" := Str("daily"), "times" := Int(3)]);
      Completed(payload) == 0 && Completed(IncrementRepeatCompleted(payload).0) == 0
  {
    var payload := Obj(map["repeat" := Str("daily"), "times" := Int(3)]);
    IncrementIsReadBack(payload);
    assert Get(IncrementRepeatCompleted(payload).0, "repeat") == Some(Str("daily"));
  }
}
