/**
 * Concurrent updates of one live-edited response: src/discord/throttler.rs, lines 130-217. Every atomic load, every
 * visit to the mutex and every edit under it is a step; the mutex is fair, and serves its waiters first come, first
 * served.
 */
module LiveEditProtocol {
  import opened Prelude
  import opened Chunker
  import opened LiveEdit

  type Revision = nat

  // --- Interleavings of updates ---

  /** Where an `update` call stands; a deadline is carried while it sleeps or comes back from sleeping. */
  datatype Place =
    | WaitCheck | WaitRead | WaitSleep(until: Time) | WaitConfirm
    | WantLock | Locked | Deadline
    | Sleeping(until: Time) | Recheck(until: Time) | WantLockAgain(until: Time) | LockedAgain(until: Time)
    | Ready | Stamping | Done

  datatype Update = Update(content: string, final: bool, place: Place)

  /** One edit that reached the wire, with the moment it started. */
  datatype Edit = Edit(rev: Revision, final: bool, start: Time)

  /** `waiters` is the queue of the mutex, which serves the calls in the order in which they came to it. */
  datatype World = World(
    now: Time, revision: Revision, lock: Option<Revision>, waiters: seq<Revision>, last: Option<Time>, wire: Wire,
    updates: map<Revision, Update>, log: seq<Edit>)

  datatype Step = Call(content: string, final: bool) | Advance(rev: Revision) | Tick(elapsed: nat)

  function At(w: World, r: Revision, place: Place): World
    requires r in w.updates
  {
    w.(updates := w.updates[r := w.updates[r].(place := place)])
  }

  /** A call comes to the mutex. */
  function Join(w: World, r: Revision): World {
    w.(waiters := w.waiters + [r])
  }

  /** The mutex is free, and `r` is the first that waits for it. */
  predicate Granted(w: World, r: Revision) {
    w.lock.None? && w.waiters != [] && w.waiters[0] == r
  }

  function Current(w: World, r: Revision, yes: Place, no: Place): Place {
    if w.revision == r then yes else no
  }

  /**
   * The next atomic action of one call: an atomic load, coming to the mutex, being granted it, releasing it, or the
   * edit under it. Coming to a free mutex nobody waits for and being granted it are two actions here, with nobody
   * served in between. The read of the last edit takes and releases the mutex in one action.
   */
  ghost function Act(w: World, r: Revision, debounce: Time, paginate: bool): World
    requires r in w.updates && Sound(w.wire)
  {
    var u := w.updates[r];
    match u.place
    case WaitCheck => At(w, r, Current(w, r, WaitRead, Done))
    case WaitRead =>
      if r !in w.waiters then Join(w, r)
      else if !Granted(w, r) then w
      else
        At(w.(waiters := w.waiters[1..]), r,
           if w.last.None? || w.last.value + debounce <= w.now then WaitConfirm else WaitSleep(w.last.value + debounce))
    case WaitSleep(until) => if until <= w.now then At(w, r, WaitCheck) else w
    case WaitConfirm => At(w, r, Current(w, r, WantLock, Done))
    case WantLock =>
      if r !in w.waiters then Join(w, r)
      else if !Granted(w, r) then w
      else At(w.(lock := Some(r), waiters := w.waiters[1..]), r, Locked)
    case Locked =>
      if u.final then At(w, r, Ready)
      else if w.revision != r then At(w.(lock := None), r, Done)
      else At(w, r, Deadline)
    case Deadline =>
      if w.last.Some? && w.last.value + debounce > w.now
      then At(w.(lock := None), r, Sleeping(w.last.value + debounce))
      else At(w, r, Ready)
    case Sleeping(until) => if until <= w.now then At(w, r, Recheck(until)) else w
    case Recheck(until) => At(w, r, Current(w, r, WantLockAgain(until), Done))
    case WantLockAgain(until) =>
      if r !in w.waiters then Join(w, r)
      else if !Granted(w, r) then w
      else At(w.(lock := Some(r), waiters := w.waiters[1..]), r, LockedAgain(until))
    case LockedAgain(until) => if w.revision != r then At(w.(lock := None), r, Done) else At(w, r, Ready)
    case Ready =>
      var wire := if u.final then FinalEdit(w.wire, Paginated(u.content, MESSAGE_LIMIT, paginate))
                  else PreviewEdit(w.wire, u.content);
      At(w.(wire := wire, log := w.log + [Edit(r, u.final, w.now)]), r, Stamping)
    case Stamping => At(w.(last := Some(w.now), lock := None), r, Done)
    case Done => w
  }

  ghost function Next(w: World, s: Step, debounce: Time, paginate: bool): World
    requires Sound(w.wire)
  {
    match s
    case Call(content, final) =>
      w.(revision := w.revision + 1,
         updates := w.updates[w.revision + 1 := Update(content, final, if final then WantLock else WaitCheck)])
    case Advance(r) => if r in w.updates then Act(w, r, debounce, paginate) else w
    case Tick(elapsed) => w.(now := w.now + elapsed)
  }

  /** The places at which a call may be in the queue of the mutex. */
  predicate AtMutex(p: Place) {
    p.WaitRead? || p.WantLock? || p.WantLockAgain?
  }

  /** The queue stays, grows by `r` at its end, or loses `r` at its head. */
  predicate QueueMoves(before: seq<Revision>, after: seq<Revision>, r: Revision) {
    after == before || after == before + [r] || (before != [] && before[0] == r && after == before[1..])
  }

  /** `v` is `w` with one call moved, and perhaps in or out of the queue, or the mutex taken or released. */
  predicate OnlyMoved(w: World, v: World, r: Revision) {
    && r in w.updates && r in v.updates && QueueMoves(w.waiters, v.waiters, r)
    && v == w.(updates := w.updates[r := w.updates[r].(place := v.updates[r].place)], waiters := v.waiters,
               lock := v.lock, last := v.last)
  }

  lemma LockedActMoves(w: World, r: Revision, debounce: Time, paginate: bool)
    requires Sound(w.wire) && r in w.updates
    requires var p := w.updates[r].place; p.Locked? || p.Deadline? || p.LockedAgain? || p.Stamping?
    ensures OnlyMoved(w, Act(w, r, debounce, paginate), r)
    ensures Act(w, r, debounce, paginate).waiters == w.waiters
  {
    assert w.updates[r := w.updates[r]] == w.updates;
  }

  lemma WaitingActMoves(w: World, r: Revision, debounce: Time, paginate: bool)
    requires Sound(w.wire) && r in w.updates
    requires var p := w.updates[r].place;
      p.WaitCheck? || p.WaitSleep? || p.WaitConfirm? || p.Sleeping? || p.Recheck? || p.Done?
    ensures OnlyMoved(w, Act(w, r, debounce, paginate), r)
    ensures Act(w, r, debounce, paginate).waiters == w.waiters
  {
    assert w.updates[r := w.updates[r]] == w.updates;
  }

  lemma QueuedActMoves(w: World, r: Revision, debounce: Time, paginate: bool)
    requires Sound(w.wire) && r in w.updates && AtMutex(w.updates[r].place)
    ensures OnlyMoved(w, Act(w, r, debounce, paginate), r)
    ensures Act(w, r, debounce, paginate).waiters ==
      if r !in w.waiters then w.waiters + [r] else if Granted(w, r) then w.waiters[1..] else w.waiters
    ensures !Granted(w, r) || r !in w.waiters ==> Act(w, r, debounce, paginate).updates == w.updates
  {
    assert w.updates[r := w.updates[r]] == w.updates;
  }

  /** Any action but the edit itself moves the one call, and touches neither the wire nor the log. */
  lemma ActMoves(w: World, r: Revision, debounce: Time, paginate: bool)
    requires Sound(w.wire) && r in w.updates && !w.updates[r].place.Ready?
    ensures OnlyMoved(w, Act(w, r, debounce, paginate), r)
    ensures !AtMutex(w.updates[r].place) ==> Act(w, r, debounce, paginate).waiters == w.waiters
    ensures Granted(w, r) && AtMutex(w.updates[r].place) ==> Act(w, r, debounce, paginate).waiters == w.waiters[1..]
  {
    var p := w.updates[r].place;
    if p.Locked? || p.Deadline? || p.LockedAgain? || p.Stamping? {
      LockedActMoves(w, r, debounce, paginate);
    } else if AtMutex(p) {
      QueuedActMoves(w, r, debounce, paginate);
    } else {
      WaitingActMoves(w, r, debounce, paginate);
    }
  }

  lemma ActEdits(w: World, r: Revision, debounce: Time, paginate: bool)
    requires Sound(w.wire) && r in w.updates && w.updates[r].place.Ready?
    ensures var v := Act(w, r, debounce, paginate);
      && v == w.(wire := v.wire, log := w.log + [Edit(r, w.updates[r].final, w.now)],
                 updates := w.updates[r := w.updates[r].(place := Stamping)])
      && v.wire
        == if w.updates[r].final then FinalEdit(w.wire, Paginated(w.updates[r].content, MESSAGE_LIMIT, paginate))
                   else PreviewEdit(w.wire, w.updates[r].content)
  {
  }

  // --- The invariant ---

  predicate HoldsLock(p: Place) {
    p.Locked? || p.Deadline? || p.LockedAgain? || p.Ready? || p.Stamping?
  }

  /** A non-final update that has passed its check and kept the mutex since. */
  predicate Cleared(u: Update) {
    !u.final && (u.place.Deadline? || u.place.Ready?)
  }

  /** A non-final update that let go of the mutex to sleep out the deadline `until`. */
  predicate Napping(u: Update) {
    !u.final && (u.place.Sleeping? || u.place.Recheck? || u.place.WantLockAgain? || u.place.LockedAgain?)
  }

  predicate Spaced(e: Edit, t: Time, debounce: Time) {
    !e.final ==> e.start + debounce <= t
  }

  /** What holds of one call, given the rest of the world. */
  ghost predicate UpdateOk(w: World, r: Revision, u: Update, debounce: Time) {
    && 1 <= r <= w.revision
    && (HoldsLock(u.place) <==> w.lock == Some(r))
    && (u.place.Deadline? || u.place.Sleeping? || u.place.Recheck? || u.place.WantLockAgain? || u.place.LockedAgain? ==>
          !u.final)
    && (!u.place.Stamping? && !u.place.Done? ==> forall i :: 0 <= i < |w.log| ==> w.log[i].rev != r)
    && (Cleared(u) ==> forall i :: 0 <= i < |w.log| ==> w.log[i].rev < r)
    && (!u.final && u.place.Ready? ==> forall i :: 0 <= i < |w.log| ==> Spaced(w.log[i], w.now, debounce))
    && (Napping(u) ==>
          && (forall i :: 0 <= i < |w.log| && w.log[i].rev < r ==> Spaced(w.log[i], u.place.until, debounce))
          && (!u.place.Sleeping? ==> u.place.until <= w.now))
    && (u.place.Stamping? ==> |w.log| > 0 && w.log[|w.log| - 1].rev == r)
  }

  ghost predicate LockOk(w: World) {
    w.lock.Some? ==> w.lock.value in w.updates
  }

  /** The edits that have already been stamped: all but one still under the mutex. */
  ghost function Settled(w: World): int {
    if w.lock.Some? && w.lock.value in w.updates && w.updates[w.lock.value].place.Stamping? then |w.log| - 1
      else |w.log|
  }

  /** Every stamped edit started no later than `last`. */
  ghost predicate Stamped(w: World) {
    && (forall i :: 0 <= i < |w.log| ==> w.log[i].start <= w.now && w.log[i].rev <= w.revision)
    && (w.last.Some? ==> w.last.value <= w.now)
    && (Settled(w) > 0 ==> w.last.Some?)
    && var settled := Settled(w); forall i :: 0 <= i < settled && w.last.Some? ==> w.log[i].start <= w.last.value
  }

  /** Who has been cleared was called after everyone who is napping. */
  ghost predicate ClearedIsNewer(w: World) {
    forall p, q :: p in w.updates && q in w.updates && Cleared(w.updates[p]) && Napping(w.updates[q]) ==> q < p
  }

  /** What reaches the wire: a non-final edit is newer than everything before it, and late enough after the previous. */
  ghost predicate Orderly(log: seq<Edit>, debounce: Time) {
    forall i, j :: 0 <= i < j < |log| && !log[j].final ==>
      log[i].rev < log[j].rev && Spaced(log[i], log[j].start, debounce)
  }

  ghost predicate Distinct(s: seq<Revision>) {
    forall i, j :: 0 <= i < j < |s| ==> s[i] != s[j]
  }

  /** Each call waits in the queue once, at a place that waits for the mutex. */
  ghost predicate QueueOk(w: World) {
    Distinct(w.waiters) && forall r :: r in w.waiters ==> r in w.updates && AtMutex(w.updates[r].place)
  }

  ghost predicate Inv(w: World, debounce: Time) {
    && Sound(w.wire) && QueueOk(w) && LockOk(w) && Stamped(w) && ClearedIsNewer(w) && Orderly(w.log, debounce)
    && forall r :: r in w.updates ==> UpdateOk(w, r, w.updates[r], debounce)
  }

  ghost predicate Started(w: World) {
    && Sound(w.wire) && w.revision == 0 && w.lock.None? && w.waiters == [] && w.last.None? && w.updates == map[]
    && w.log == []
  }

  /** A call that moves away from the mutex leaves the queue, which otherwise stays. */
  predicate LeavesQueue(w: World, v: World, r: Revision) {
    || (v.waiters == w.waiters && r !in w.waiters)
    || (w.waiters != [] && w.waiters[0] == r && v.waiters == w.waiters[1..])
  }

  /** A step of one call that moves it to a new place and may take or release the mutex, but edits nothing. */
  ghost predicate Moves(w: World, v: World, r: Revision, place: Place) {
    && r in w.updates && LeavesQueue(w, v, r)
    && v == w.(updates := w.updates[r := w.updates[r].(place := place)], waiters := v.waiters, lock := v.lock,
               last := v.last)
    && (v.lock == w.lock || ((w.lock.None? || w.lock == Some(r)) && (v.lock.None? || v.lock == Some(r))))
  }

  lemma MovingKeepsQueue(w: World, v: World, r: Revision, place: Place)
    requires QueueOk(w) && Moves(w, v, r, place)
    ensures QueueOk(v)
  {
    if v.waiters != w.waiters {
      forall q | q in v.waiters ensures q in w.waiters && q != r {
        var k :| 0 <= k < |v.waiters| && v.waiters[k] == q;
        assert w.waiters[k + 1] == q;
      }
    }
  }

  lemma JoiningKeepsInv(w: World, r: Revision, debounce: Time)
    requires Inv(w, debounce) && r in w.updates && AtMutex(w.updates[r].place) && r !in w.waiters
    ensures Inv(Join(w, r), debounce)
  {
    var v := Join(w, r);
    assert Settled(v) == Settled(w);
    forall q | q in v.updates ensures UpdateOk(v, q, v.updates[q], debounce) {
      assert UpdateOk(w, q, w.updates[q], debounce);
    }
  }

  lemma MovingKeepsInv(w: World, v: World, r: Revision, place: Place, debounce: Time)
    requires Inv(w, debounce) && Moves(w, v, r, place) && UpdateOk(v, r, v.updates[r], debounce)
    requires Stamped(v)
    requires Cleared(v.updates[r]) ==> forall q :: q in w.updates && q != r && Napping(w.updates[q]) ==> q < r
    requires Napping(v.updates[r]) ==> forall p :: p in w.updates && p != r && Cleared(w.updates[p]) ==> r < p
    ensures Inv(v, debounce)
  {
    forall q | q in v.updates && q != r ensures UpdateOk(v, q, v.updates[q], debounce) {
      OtherUpdateOk(w, v, r, place, q, debounce);
    }
    NewerStays(w, v, r, place);
    MovingKeepsQueue(w, v, r, place);
  }

  lemma OtherUpdateOk(w: World, v: World, r: Revision, place: Place, q: Revision, debounce: Time)
    requires Moves(w, v, r, place) && q in w.updates && q != r && UpdateOk(w, q, w.updates[q], debounce)
    ensures UpdateOk(v, q, v.updates[q], debounce)
  {
    assert v.updates[q] == w.updates[q] && v.log == w.log && v.now == w.now && v.revision == w.revision;
    assert v.lock == Some(q) <==> w.lock == Some(q);
  }

  lemma NewerStays(w: World, v: World, r: Revision, place: Place)
    requires Moves(w, v, r, place) && ClearedIsNewer(w)
    requires Cleared(v.updates[r]) ==> forall q :: q in w.updates && q != r && Napping(w.updates[q]) ==> q < r
    requires Napping(v.updates[r]) ==> forall p :: p in w.updates && p != r && Cleared(w.updates[p]) ==> r < p
    ensures ClearedIsNewer(v)
  {
    forall p, q | p in v.updates && q in v.updates && Cleared(v.updates[p]) && Napping(v.updates[q]) ensures q < p {
      assert p != r ==> v.updates[p] == w.updates[p];
      assert q != r ==> v.updates[q] == w.updates[q];
    }
  }

  lemma OthersSurviveCall(w: World, v: World, u: Update, debounce: Time)
    requires Inv(w, debounce) && v == w.(revision := w.revision + 1, updates := w.updates[w.revision + 1 := u])
    ensures forall r :: r in w.updates ==>
      r <= w.revision && v.updates[r] == w.updates[r] && UpdateOk(v, r, v.updates[r], debounce)
  {
    forall r | r in w.updates ensures r <= w.revision && UpdateOk(v, r, v.updates[r], debounce) {
      assert UpdateOk(w, r, w.updates[r], debounce);
    }
  }

  lemma NewCallKeepsInv(w: World, v: World, u: Update, debounce: Time)
    requires Inv(w, debounce) && v == w.(revision := w.revision + 1, updates := w.updates[w.revision + 1 := u])
    requires u.place == if u.final then WantLock else WaitCheck
    ensures Inv(v, debounce)
  {
    var newest := w.revision + 1;
    OthersSurviveCall(w, v, u, debounce);
    assert w.lock != Some(newest) && Settled(v) == Settled(w);
    assert UpdateOk(v, newest, u, debounce);
    forall p, q | p in v.updates && q in v.updates && Cleared(v.updates[p]) && Napping(v.updates[q]) ensures q < p {
      assert p != newest && q != newest;
    }
  }

  lemma CallKeepsInv(w: World, s: Step, debounce: Time, paginate: bool)
    requires Inv(w, debounce) && s.Call?
    ensures Inv(Next(w, s, debounce, paginate), debounce)
  {
    NewCallKeepsInv(w, Next(w, s, debounce, paginate),
      Update(s.content, s.final, if s.final then WantLock else WaitCheck), debounce);
  }

  lemma TickKeepsInv(w: World, s: Step, debounce: Time, paginate: bool)
    requires Inv(w, debounce) && s.Tick?
    ensures Inv(Next(w, s, debounce, paginate), debounce)
  {
    var v := Next(w, s, debounce, paginate);
    forall r | r in v.updates ensures UpdateOk(v, r, v.updates[r], debounce) {
      assert UpdateOk(w, r, w.updates[r], debounce);
    }
  }

  lemma OthersSurviveEdit(w: World, v: World, r: Revision, debounce: Time)
    requires Inv(w, debounce) && r in w.updates && w.updates[r].place.Ready?
    requires v == w.(wire := v.wire, log := w.log + [Edit(r, w.updates[r].final, w.now)],
                     updates := w.updates[r := w.updates[r].(place := Stamping)])
    ensures forall q :: q in v.updates ==> UpdateOk(v, q, v.updates[q], debounce)
  {
    forall q | q in v.updates ensures UpdateOk(v, q, v.updates[q], debounce) {
      assert UpdateOk(w, q, w.updates[q], debounce) && UpdateOk(w, r, w.updates[r], debounce);
      assert q != r ==> !Cleared(w.updates[q]);
      assert q != r && !w.updates[r].final && Napping(w.updates[q]) ==> q < r;
    }
  }

  /** `v` is `w` after the edit of `r`. */
  ghost predicate Logged(w: World, v: World, r: Revision) {
    && r in w.updates && w.updates[r].place.Ready? && Sound(v.wire)
    && v == w.(wire := v.wire, log := w.log + [Edit(r, w.updates[r].final, w.now)],
               updates := w.updates[r := w.updates[r].(place := Stamping)])
  }

  lemma LoggedIsOrderly(w: World, v: World, r: Revision, debounce: Time)
    requires Inv(w, debounce) && Logged(w, v, r)
    ensures Orderly(v.log, debounce)
  {
    assert UpdateOk(w, r, w.updates[r], debounce);
  }

  lemma LoggedIsStamped(w: World, v: World, r: Revision, debounce: Time)
    requires Inv(w, debounce) && Logged(w, v, r)
    ensures LockOk(v) && Stamped(v)
  {
    assert UpdateOk(w, r, w.updates[r], debounce);
    assert Settled(w) == |w.log| && Settled(v) == |w.log|;
  }

  lemma LoggedKeepsInv(w: World, v: World, r: Revision, debounce: Time)
    requires Inv(w, debounce) && Logged(w, v, r)
    ensures Inv(v, debounce)
  {
    LoggedIsOrderly(w, v, r, debounce);
    LoggedIsStamped(w, v, r, debounce);
    OthersSurviveEdit(w, v, r, debounce);
  }

  lemma EditKeepsInv(w: World, r: Revision, debounce: Time, paginate: bool)
    requires Inv(w, debounce) && r in w.updates && w.updates[r].place.Ready?
    ensures Inv(Act(w, r, debounce, paginate), debounce)
  {
    var u := w.updates[r];
    ActEdits(w, r, debounce, paginate);
    if u.final {
      FinalEditShowsTheChunks(w.wire, Paginated(u.content, MESSAGE_LIMIT, paginate));
    }
    LoggedKeepsInv(w, Act(w, r, debounce, paginate), r, debounce);
  }

  predicate Waiting(p: Place) {
    p.WaitCheck? || p.WaitRead? || p.WaitSleep? || p.WaitConfirm? || p.Done?
  }

  lemma IdleMoveIsOk(w: World, v: World, r: Revision, place: Place, debounce: Time)
    requires Inv(w, debounce) && Moves(w, v, r, place) && v.lock == w.lock && v.last == w.last
    requires Waiting(w.updates[r].place) && (Waiting(place) || place.WantLock?)
    requires w.updates[r].place.Done? ==> place.Done?
    ensures UpdateOk(v, r, v.updates[r], debounce) && Stamped(v)
  {
    assert UpdateOk(w, r, w.updates[r], debounce);
    assert w.lock != Some(r) && Settled(v) == Settled(w);
  }

  lemma IdlePlaceIsOk(w: World, v: World, r: Revision, place: Place, debounce: Time)
    requires Inv(w, debounce) && Moves(w, v, r, place) && v.lock == w.lock && v.last == w.last
    requires Waiting(w.updates[r].place) && (Waiting(place) || place.WantLock?)
    requires w.updates[r].place.Done? ==> place.Done?
    ensures Inv(v, debounce)
  {
    IdleMoveIsOk(w, v, r, place, debounce);
    MovingKeepsInv(w, v, r, place, debounce);
  }

  lemma WaitKeepsInv(w: World, r: Revision, debounce: Time, paginate: bool)
    requires Inv(w, debounce) && r in w.updates && Waiting(w.updates[r].place) && !w.updates[r].place.WaitRead?
    ensures Inv(Act(w, r, debounce, paginate), debounce)
  {
    var v := Act(w, r, debounce, paginate);
    assert w.updates[r := w.updates[r]] == w.updates;
    assert v == At(w, r, v.updates[r].place) && r !in w.waiters;
    IdlePlaceIsOk(w, v, r, v.updates[r].place, debounce);
  }

  lemma ReadKeepsInv(w: World, r: Revision, debounce: Time, paginate: bool)
    requires Inv(w, debounce) && r in w.updates && w.updates[r].place.WaitRead?
    ensures Inv(Act(w, r, debounce, paginate), debounce)
  {
    if r !in w.waiters {
      JoiningKeepsInv(w, r, debounce);
    } else if Granted(w, r) {
      var v := Act(w, r, debounce, paginate);
      assert v == At(w.(waiters := w.waiters[1..]), r, v.updates[r].place);
      IdlePlaceIsOk(w, v, r, v.updates[r].place, debounce);
    }
  }

  /** A napping call sleeps on, checks again, takes the mutex again, or gives up. */
  ghost predicate NapMoves(w: World, v: World, r: Revision, place: Place) {
    && Moves(w, v, r, place) && v.last == w.last
    && (w.updates[r].place.Sleeping? || w.updates[r].place.Recheck? || w.updates[r].place.WantLockAgain?)
    && v.lock == (if place.LockedAgain? then Some(r) else w.lock)
    && (place.Done? || ((place.Sleeping? || place.Recheck? || place.WantLockAgain? || place.LockedAgain?)
                        && place.until == w.updates[r].place.until))
    && (!place.Sleeping? && !place.Done? ==> place.until <= w.now)
  }

  lemma NapMoveIsOk(w: World, v: World, r: Revision, place: Place, debounce: Time)
    requires Inv(w, debounce) && NapMoves(w, v, r, place)
    ensures UpdateOk(v, r, v.updates[r], debounce) && Stamped(v) && Napping(w.updates[r])
  {
    assert UpdateOk(w, r, w.updates[r], debounce);
    assert Settled(v) == Settled(w) && w.lock != Some(r);
  }

  lemma NapMovesKeepsInv(w: World, v: World, r: Revision, place: Place, debounce: Time)
    requires Inv(w, debounce) && NapMoves(w, v, r, place)
    ensures Inv(v, debounce)
  {
    NapMoveIsOk(w, v, r, place, debounce);
    forall p | p in w.updates && p != r && Cleared(w.updates[p]) ensures r < p {
      assert Napping(w.updates[r]) && Cleared(w.updates[p]);
    }
    MovingKeepsInv(w, v, r, place, debounce);
  }

  lemma SleepKeepsInv(w: World, r: Revision, debounce: Time, paginate: bool)
    requires Inv(w, debounce) && r in w.updates && w.updates[r].place.Sleeping?
    ensures Inv(Act(w, r, debounce, paginate), debounce)
  {
    var until := w.updates[r].place.until;
    assert r !in w.waiters;
    if until <= w.now {
      NapMovesKeepsInv(w, Act(w, r, debounce, paginate), r, Recheck(until), debounce);
    }
  }

  lemma RecheckKeepsInv(w: World, r: Revision, debounce: Time, paginate: bool)
    requires Inv(w, debounce) && r in w.updates && w.updates[r].place.Recheck?
    ensures Inv(Act(w, r, debounce, paginate), debounce)
  {
    var until := w.updates[r].place.until;
    assert UpdateOk(w, r, w.updates[r], debounce) && r !in w.waiters;
    NapMovesKeepsInv(w, Act(w, r, debounce, paginate), r, Current(w, r, WantLockAgain(until), Done), debounce);
  }

  lemma LockAgainKeepsInv(w: World, r: Revision, debounce: Time, paginate: bool)
    requires Inv(w, debounce) && r in w.updates && w.updates[r].place.WantLockAgain?
    ensures Inv(Act(w, r, debounce, paginate), debounce)
  {
    var until := w.updates[r].place.until;
    assert UpdateOk(w, r, w.updates[r], debounce);
    if r !in w.waiters {
      JoiningKeepsInv(w, r, debounce);
    } else if Granted(w, r) {
      NapMovesKeepsInv(w, Act(w, r, debounce, paginate), r, LockedAgain(until), debounce);
    }
  }

  lemma TakingKeepsInv(w: World, v: World, r: Revision, debounce: Time)
    requires Inv(w, debounce) && Granted(w, r) && r in w.updates && w.updates[r].place.WantLock?
    requires v == At(w.(lock := Some(r), waiters := w.waiters[1..]), r, Locked)
    ensures Inv(v, debounce)
  {
    assert UpdateOk(w, r, w.updates[r], debounce) && UpdateOk(v, r, v.updates[r], debounce);
    assert Settled(v) == Settled(w);
    MovingKeepsInv(w, v, r, Locked, debounce);
  }

  lemma AcquireKeepsInv(w: World, r: Revision, debounce: Time, paginate: bool)
    requires Inv(w, debounce) && r in w.updates && w.updates[r].place.WantLock?
    ensures Inv(Act(w, r, debounce, paginate), debounce)
  {
    if r !in w.waiters {
      JoiningKeepsInv(w, r, debounce);
    } else if Granted(w, r) {
      TakingKeepsInv(w, Act(w, r, debounce, paginate), r, debounce);
    }
  }

  /** A call that finds itself the newest is newer than every other call and than everything on the wire. */
  lemma NewestIsNewer(w: World, r: Revision, debounce: Time)
    requires Inv(w, debounce) && r in w.updates && w.revision == r
    requires !w.updates[r].place.Stamping? && !w.updates[r].place.Done?
    ensures forall i :: 0 <= i < |w.log| ==> w.log[i].rev < r
    ensures forall q :: q in w.updates && q != r ==> q < r
  {
    assert UpdateOk(w, r, w.updates[r], debounce);
    forall q | q in w.updates && q != r ensures q < r {
      assert UpdateOk(w, q, w.updates[q], debounce);
    }
  }

  /** The holder of the mutex finds a newer call and leaves. */
  lemma LeavingKeepsInv(w: World, v: World, r: Revision, debounce: Time)
    requires Inv(w, debounce) && r in w.updates && (w.updates[r].place.Locked? || w.updates[r].place.LockedAgain?)
    requires v == At(w.(lock := None), r, Done)
    ensures Inv(v, debounce)
  {
    assert UpdateOk(w, r, w.updates[r], debounce);
    assert Settled(v) == Settled(w) && r !in w.waiters;
    MovingKeepsInv(w, v, r, Done, debounce);
  }

  lemma PassingIsOk(w: World, v: World, r: Revision, place: Place, debounce: Time)
    requires Inv(w, debounce) && r in w.updates && (w.updates[r].place.Locked? || w.updates[r].place.LockedAgain?)
    requires w.updates[r].final || forall i :: 0 <= i < |w.log| ==> w.log[i].rev < r
    requires v == At(w, r, place) && (place.Ready? || (place.Deadline? && !w.updates[r].final))
    requires place.Ready? ==> w.updates[r].final || w.updates[r].place.LockedAgain?
    ensures UpdateOk(v, r, v.updates[r], debounce) && Stamped(v) && r !in w.waiters
  {
    assert UpdateOk(w, r, w.updates[r], debounce);
    assert Settled(v) == Settled(w);
  }

  /** The holder of the mutex is final, or finds itself the newest, and goes on. */
  lemma PassingKeepsInv(w: World, v: World, r: Revision, place: Place, debounce: Time)
    requires Inv(w, debounce) && r in w.updates && (w.updates[r].place.Locked? || w.updates[r].place.LockedAgain?)
    requires w.updates[r].final || w.revision == r
    requires v == At(w, r, place) && (place.Ready? || (place.Deadline? && !w.updates[r].final))
    requires place.Ready? ==> w.updates[r].final || w.updates[r].place.LockedAgain?
    ensures Inv(v, debounce)
  {
    if w.revision == r {
      NewestIsNewer(w, r, debounce);
    }
    PassingIsOk(w, v, r, place, debounce);
    MovingKeepsInv(w, v, r, place, debounce);
  }

  lemma CheckKeepsInv(w: World, r: Revision, debounce: Time, paginate: bool)
    requires Inv(w, debounce) && r in w.updates && (w.updates[r].place.Locked? || w.updates[r].place.LockedAgain?)
    ensures Inv(Act(w, r, debounce, paginate), debounce)
  {
    var v := Act(w, r, debounce, paginate);
    assert UpdateOk(w, r, w.updates[r], debounce);
    if !w.updates[r].final && w.revision != r {
      LeavingKeepsInv(w, v, r, debounce);
    } else if w.updates[r].place.Locked? && !w.updates[r].final {
      PassingKeepsInv(w, v, r, Deadline, debounce);
    } else {
      PassingKeepsInv(w, v, r, Ready, debounce);
    }
  }

  lemma DeadlineIsOk(w: World, r: Revision, debounce: Time, paginate: bool)
    requires Inv(w, debounce) && r in w.updates && w.updates[r].place.Deadline?
    ensures var v := Act(w, r, debounce, paginate);
      && Moves(w, v, r, v.updates[r].place) && UpdateOk(v, r, v.updates[r], debounce) && Stamped(v)
      && Cleared(w.updates[r])
      && (Cleared(v.updates[r]) || Napping(v.updates[r]))
  {
    assert UpdateOk(w, r, w.updates[r], debounce);
    assert Settled(w) == |w.log| && Settled(Act(w, r, debounce, paginate)) == |w.log| && r !in w.waiters;
  }

  lemma DeadlineKeepsInv(w: World, r: Revision, debounce: Time, paginate: bool)
    requires Inv(w, debounce) && r in w.updates && w.updates[r].place.Deadline?
    ensures Inv(Act(w, r, debounce, paginate), debounce)
  {
    var v := Act(w, r, debounce, paginate);
    DeadlineIsOk(w, r, debounce, paginate);
    forall p | p in w.updates && Cleared(w.updates[p]) ensures p == r {
      assert UpdateOk(w, p, w.updates[p], debounce) && UpdateOk(w, r, w.updates[r], debounce);
    }
    forall q | q in w.updates && Napping(w.updates[q]) ensures q < r {
      assert Cleared(w.updates[r]) && Napping(w.updates[q]);
    }
    MovingKeepsInv(w, v, r, v.updates[r].place, debounce);
  }

  lemma StampKeepsInv(w: World, r: Revision, debounce: Time, paginate: bool)
    requires Inv(w, debounce) && r in w.updates && w.updates[r].place.Stamping?
    ensures Inv(Act(w, r, debounce, paginate), debounce)
  {
    var v := Act(w, r, debounce, paginate);
    assert UpdateOk(w, r, w.updates[r], debounce) && r !in w.waiters;
    MovingKeepsInv(w, v, r, Done, debounce);
  }

  lemma StepKeepsInv(w: World, s: Step, debounce: Time, paginate: bool)
    requires Inv(w, debounce)
    ensures Inv(Next(w, s, debounce, paginate), debounce)
  {
    match s {
      case Call(_, _) => CallKeepsInv(w, s, debounce, paginate);
      case Tick(_) => TickKeepsInv(w, s, debounce, paginate);
      case Advance(r) =>
        if r in w.updates {
          match w.updates[r].place {
            case Ready => EditKeepsInv(w, r, debounce, paginate);
            case Locked => CheckKeepsInv(w, r, debounce, paginate);
            case LockedAgain(_) => CheckKeepsInv(w, r, debounce, paginate);
            case Deadline => DeadlineKeepsInv(w, r, debounce, paginate);
            case Stamping => StampKeepsInv(w, r, debounce, paginate);
            case WaitRead => ReadKeepsInv(w, r, debounce, paginate);
            case WantLock => AcquireKeepsInv(w, r, debounce, paginate);
            case Sleeping(_) => SleepKeepsInv(w, r, debounce, paginate);
            case Recheck(_) => RecheckKeepsInv(w, r, debounce, paginate);
            case WantLockAgain(_) => LockAgainKeepsInv(w, r, debounce, paginate);
            case _ => WaitKeepsInv(w, r, debounce, paginate);
          }
        }
    }
  }

  // --- Whole runs ---

  ghost function After(w: World, steps: seq<Step>, debounce: Time, paginate: bool): World
    requires Inv(w, debounce)
    decreases |steps|
  {
    if steps == [] then w
    else
      StepKeepsInv(w, steps[0], debounce, paginate);
      After(Next(w, steps[0], debounce, paginate), steps[1..], debounce, paginate)
  }

  lemma {:induction false} AfterKeepsInv(w: World, steps: seq<Step>, debounce: Time, paginate: bool)
    requires Inv(w, debounce)
    ensures Inv(After(w, steps, debounce, paginate), debounce)
    decreases |steps|
  {
    if steps != [] {
      StepKeepsInv(w, steps[0], debounce, paginate);
      AfterKeepsInv(Next(w, steps[0], debounce, paginate), steps[1..], debounce, paginate);
    }
  }

  /**
   * Whatever way any number of updates interleave, every non-final edit is newer than everything that reached the wire
   * before it, so none lands after a final edit that is newer; and it starts at least the debounce after every earlier
   * non-final edit.
   */
  lemma EditsAreOrderlyInEveryRun(w: World, steps: seq<Step>, debounce: Time, paginate: bool, i: nat, j: nat)
    requires Started(w) && i < j < |After(StartedIsInv(w, debounce), steps, debounce, paginate).log|
    requires !After(w, steps, debounce, paginate).log[j].final
    ensures var log := After(w, steps, debounce, paginate).log;
      && log[i].rev < log[j].rev
      && (!log[i].final ==> log[i].start + debounce <= log[j].start)
  {
    AfterKeepsInv(w, steps, debounce, paginate);
  }

  ghost function StartedIsInv(w: World, debounce: Time): (v: World)
    requires Started(w)
    ensures v == w && Inv(v, debounce)
  {
    w
  }

  /** A final edit of the newest update closes the log to everything but another final update. */
  lemma NothingOlderFollowsTheNewestFinal(w: World, debounce: Time, i: nat, j: nat)
    requires Inv(w, debounce) && i < j < |w.log| && w.log[i].rev == w.revision
    ensures w.log[j].final
  {
  }

  /** The step in which a final update reaches the wire leaves its chunks there. */
  lemma FinalStepShowsTheChunks(w: World, r: Revision, debounce: Time, paginate: bool)
    requires Inv(w, debounce) && r in w.updates && w.updates[r].final && w.updates[r].place.Ready?
    ensures var v := Next(w, Advance(r), debounce, paginate);
      var chunks := Paginated(w.updates[r].content, MESSAGE_LIMIT, paginate);
      && v.log == w.log + [Edit(r, true, w.now)]
      && Sound(v.wire) && |v.wire.ids| == |chunks|
      && forall i :: 0 <= i < |chunks| ==> v.wire.messages[v.wire.ids[i]] == chunks[i]
  {
    FinalEditShowsTheChunks(w.wire, Paginated(w.updates[r].content, MESSAGE_LIMIT, paginate));
  }

  /** So does the step in which a non-final one does, with its preview in the first message. */
  lemma PreviewStepShowsTheText(w: World, r: Revision, debounce: Time, paginate: bool)
    requires Inv(w, debounce) && r in w.updates && !w.updates[r].final && w.updates[r].place.Ready?
    ensures var (v, content) := (Next(w, Advance(r), debounce, paginate), w.updates[r].content);
      && v.log == w.log + [Edit(r, false, w.now)] && Sound(v.wire) && v.wire.ids == w.wire.ids
      && (w.wire.ids != [] ==> v.wire.messages[w.wire.ids[0]] == Preview(content, 2_000))
      && forall m :: m in w.wire.messages && (w.wire.ids == [] || m != w.wire.ids[0]) ==>
           m in v.wire.messages && v.wire.messages[m] == w.wire.messages[m]
  {
    PreviewEditShowsOneMessage(w.wire, w.updates[r].content);
  }

  /** Whoever sleeps, sleeps until the debounce after the last edit is over, and no longer. */
  lemma SleepsOutTheDebounce(w: World, v: World, r: Revision, debounce: Time, paginate: bool)
    requires Sound(w.wire) && r in w.updates && v == Act(w, r, debounce, paginate)
    requires r in v.updates && v.updates[r].place != w.updates[r].place
    ensures var (before, after) := (w.updates[r].place, v.updates[r].place);
      && (after.WaitSleep? || after.Sleeping? ==>
            w.last.Some? && after.until == w.last.value + debounce && w.now < after.until)
      && (before.WaitSleep? || before.Sleeping? ==> before.until <= w.now)
  {
  }

  /** A non-final update that finds a newer one, before or under the mutex, gives up; a newest one goes on. */
  lemma SupersededGivesUp(w: World, r: Revision, debounce: Time, paginate: bool)
    requires Sound(w.wire) && r in w.updates && !w.updates[r].final
    requires var p := w.updates[r].place;
      p.WaitCheck? || p.WaitConfirm? || p.Recheck? || p.Locked? || p.LockedAgain?
    ensures var v := Act(w, r, debounce, paginate);
      && r in v.updates && v.wire == w.wire && v.log == w.log
      && (v.updates[r].place.Done? <==> w.revision != r)
      && (w.revision != r && HoldsLock(w.updates[r].place) ==> v.lock.None?)
  {
  }

  /** When that time has come, whoever sleeps goes on. */
  lemma WakesOnTime(w: World, r: Revision, debounce: Time, paginate: bool)
    requires Sound(w.wire) && r in w.updates && (w.updates[r].place.WaitSleep? || w.updates[r].place.Sleeping?)
    ensures var v := Act(w, r, debounce, paginate);
      r in v.updates && (v.updates[r].place != w.updates[r].place <==> w.updates[r].place.until <= w.now)
  {
  }

  /** Between edits nobody touches the wire. */
  lemma OnlyEditsTouchTheWire(w: World, s: Step, debounce: Time, paginate: bool)
    requires Inv(w, debounce)
    ensures Next(w, s, debounce, paginate).wire == w.wire ||
            |Next(w, s, debounce, paginate).log| == |w.log| + 1
  {
    if s.Advance? && s.rev in w.updates {
      if w.updates[s.rev].place.Ready? {
        ActEdits(w, s.rev, debounce, paginate);
      } else {
        ActMoves(w, s.rev, debounce, paginate);
      }
    }
  }

  lemma AfterCons(w: World, s: Step, rest: seq<Step>, debounce: Time, paginate: bool)
    requires Inv(w, debounce)
    ensures Inv(Next(w, s, debounce, paginate), debounce)
    ensures After(w, [s] + rest, debounce, paginate) == After(Next(w, s, debounce, paginate), rest, debounce, paginate)
  {
    StepKeepsInv(w, s, debounce, paginate);
    assert ([s] + rest)[1..] == rest;
  }

  lemma {:induction false} AfterAppend(w: World, a: seq<Step>, b: seq<Step>, debounce: Time, paginate: bool)
    requires Inv(w, debounce)
    ensures Inv(After(w, a, debounce, paginate), debounce)
    ensures After(w, a + b, debounce, paginate) == After(After(w, a, debounce, paginate), b, debounce, paginate)
    decreases |a|
  {
    AfterKeepsInv(w, a, debounce, paginate);
    if a == [] {
      assert a + b == b;
    } else {
      var s, rest := a[0], a[1..];
      HeadAndTail(a);
      Regroup([s], rest, b);
      AfterCons(w, s, rest + b, debounce, paginate);
      AfterCons(w, s, rest, debounce, paginate);
      AfterAppend(Next(w, s, debounce, paginate), rest, b, debounce, paginate);
    }
  }

  // --- Who waits for the mutex ---

  /** A final update that has its revision and has not yet come to the mutex. */
  predicate Late(w: World, r: Revision) {
    r in w.updates && w.updates[r].final && w.updates[r].place.WantLock? && r !in w.waiters
  }

  /** A final update in the queue of the mutex. */
  predicate Joined(w: World, r: Revision) {
    r in w.updates && w.updates[r].final && w.updates[r].place.WantLock? && r in w.waiters
  }

  /** A final update that holds the mutex and has not reached the wire. */
  predicate Editing(w: World, r: Revision) {
    r in w.updates && w.updates[r].final && (w.updates[r].place.Locked? || w.updates[r].place.Ready?)
  }

  predicate FinalPlace(p: Place) {
    p.WantLock? || p.Locked? || p.Ready? || p.Stamping? || p.Done?
  }

  lemma OthersDoNotEdit(w: World, r: Revision, p: Revision, debounce: Time)
    requires Inv(w, debounce) && r in w.updates && HoldsLock(w.updates[r].place) && Editing(w, p)
    ensures p == r
  {
    assert UpdateOk(w, r, w.updates[r], debounce) && UpdateOk(w, p, w.updates[p], debounce);
  }

  lemma FreeMutexHasNoEditor(w: World, debounce: Time)
    requires Inv(w, debounce) && w.lock.None?
    ensures forall p :: !Editing(w, p)
  {
    forall p: Revision ensures !Editing(w, p) {
      assert p in w.updates ==> UpdateOk(w, p, w.updates[p], debounce);
    }
  }

  // --- Two final updates in the queue ---

  ghost predicate Before(waiters: seq<Revision>, a: Revision, b: Revision) {
    exists i, j :: 0 <= i < j < |waiters| && waiters[i] == a && waiters[j] == b
  }

  /** `a` is on the wire, and `b` was not there before it. */
  ghost predicate LoggedFirst(log: seq<Edit>, a: Revision, b: Revision) {
    exists i :: 0 <= i < |log| && log[i].rev == a && forall k :: 0 <= k < i ==> log[k].rev != b
  }

  /** `a` will be on the wire before `b`: it is there, or edits, or waits in front of it. */
  ghost predicate Ahead(w: World, a: Revision, b: Revision) {
    || LoggedFirst(w.log, a, b)
    || (Joined(w, b) && (Editing(w, a) || (Joined(w, a) && Before(w.waiters, a, b))))
  }

  lemma LoggedFirstStays(log: seq<Edit>, more: seq<Edit>, a: Revision, b: Revision)
    requires LoggedFirst(log, a, b) && log <= more
    ensures LoggedFirst(more, a, b)
  {
    var i :| 0 <= i < |log| && log[i].rev == a && forall k :: 0 <= k < i ==> log[k].rev != b;
    assert more[i] == log[i] && forall k :: 0 <= k < i ==> more[k] == log[k];
  }

  lemma BeforeGrows(waiters: seq<Revision>, r: Revision, a: Revision, b: Revision)
    requires Before(waiters, a, b)
    ensures Before(waiters + [r], a, b)
  {
    var i, j :| 0 <= i < j < |waiters| && waiters[i] == a && waiters[j] == b;
    assert (waiters + [r])[i] == a && (waiters + [r])[j] == b;
  }

  lemma BeforePops(waiters: seq<Revision>, a: Revision, b: Revision)
    requires Before(waiters, a, b) && (forall i, j :: 0 <= i < j < |waiters| ==> waiters[i] != waiters[j])
    ensures waiters[0] != b && (waiters[0] != a ==> Before(waiters[1..], a, b)) && b in waiters[1..]
  {
    var i, j :| 0 <= i < j < |waiters| && waiters[i] == a && waiters[j] == b;
    assert waiters[1..][j - 1] == b;
    if i > 0 {
      assert waiters[1..][i - 1] == a;
    }
  }

  /** One call moves, and the queue stays, grows behind, or loses its head. */
  lemma QueueKeepsAhead(w: World, v: World, r: Revision, a: Revision, b: Revision)
    requires OnlyMoved(w, v, r) && Distinct(w.waiters) && Joined(w, b) && Joined(w, a) && Before(w.waiters, a, b)
    requires r == a || r == b ==>
      (v.updates[r] == w.updates[r] && v.waiters == w.waiters) || (w.waiters[0] == r && v.updates[r].place.Locked?)
    ensures Ahead(v, a, b)
  {
    if v.waiters == w.waiters + [r] {
      BeforeGrows(w.waiters, r, a, b);
    } else if v.waiters != w.waiters {
      BeforePops(w.waiters, a, b);
    }
  }

  lemma JoinedActs(w: World, r: Revision, debounce: Time, paginate: bool)
    requires Sound(w.wire) && Joined(w, r)
    ensures var v := Act(w, r, debounce, paginate);
      v == if Granted(w, r) then At(w.(lock := Some(r), waiters := w.waiters[1..]), r, Locked) else w
  {
  }

  lemma WaitingKeepsAhead(w: World, r: Revision, a: Revision, b: Revision, debounce: Time, paginate: bool)
    requires Inv(w, debounce) && r in w.updates && Joined(w, b) && Joined(w, a) && Before(w.waiters, a, b)
    ensures Ahead(Act(w, r, debounce, paginate), a, b)
  {
    var v := Act(w, r, debounce, paginate);
    if w.updates[r].place.Ready? {
      ActEdits(w, r, debounce, paginate);
    } else {
      ActMoves(w, r, debounce, paginate);
      if r == a || r == b {
        JoinedActs(w, r, debounce, paginate);
      }
      QueueKeepsAhead(w, v, r, a, b);
    }
  }

  lemma EditorActs(w: World, a: Revision, b: Revision, debounce: Time, paginate: bool)
    requires Inv(w, debounce) && Editing(w, a) && Joined(w, b)
    ensures Ahead(Act(w, a, debounce, paginate), a, b)
  {
    var v := Act(w, a, debounce, paginate);
    assert UpdateOk(w, b, w.updates[b], debounce);
    if w.updates[a].place.Ready? {
      ActEdits(w, a, debounce, paginate);
      assert v.log[|w.log|].rev == a && forall k :: 0 <= k < |w.log| ==> v.log[k] == w.log[k];
    } else {
      assert v == At(w, a, Ready);
    }
  }

  /** While `a` edits, another call only waits, or comes to the end of the queue. */
  lemma BesideTheEditor(
      w: World, r: Revision, a: Revision, b: Revision, debounce: Time, paginate: bool)
    requires Inv(w, debounce) && Editing(w, a) && Joined(w, b) && r in w.updates && r != a
    ensures Ahead(Act(w, r, debounce, paginate), a, b)
  {
    var v := Act(w, r, debounce, paginate);
    assert UpdateOk(w, a, w.updates[a], debounce) && UpdateOk(w, r, w.updates[r], debounce);
    ActMoves(w, r, debounce, paginate);
    if r == b {
      JoinedActs(w, r, debounce, paginate);
    } else {
      assert v.waiters == w.waiters || v.waiters == w.waiters + [r];
    }
  }

  lemma ActGrowsLog(w: World, r: Revision, debounce: Time, paginate: bool)
    requires Sound(w.wire) && r in w.updates
    ensures w.log <= Act(w, r, debounce, paginate).log
  {
    if w.updates[r].place.Ready? {
      ActEdits(w, r, debounce, paginate);
    } else {
      ActMoves(w, r, debounce, paginate);
    }
  }

  lemma ActKeepsAhead(w: World, r: Revision, a: Revision, b: Revision, debounce: Time, paginate: bool)
    requires Inv(w, debounce) && r in w.updates && Ahead(w, a, b)
    ensures Ahead(Act(w, r, debounce, paginate), a, b)
  {
    if LoggedFirst(w.log, a, b) {
      ActGrowsLog(w, r, debounce, paginate);
      LoggedFirstStays(w.log, Act(w, r, debounce, paginate).log, a, b);
    } else if !Editing(w, a) {
      WaitingKeepsAhead(w, r, a, b, debounce, paginate);
    } else if r == a {
      EditorActs(w, a, b, debounce, paginate);
    } else {
      BesideTheEditor(w, r, a, b, debounce, paginate);
    }
  }

  lemma CallKeepsAhead(w: World, s: Step, a: Revision, b: Revision, debounce: Time, paginate: bool)
    requires Inv(w, debounce) && s.Call? && Ahead(w, a, b)
    ensures Ahead(Next(w, s, debounce, paginate), a, b)
  {
    var v := Next(w, s, debounce, paginate);
    forall r | r in w.updates ensures r in v.updates && v.updates[r] == w.updates[r] {
      assert UpdateOk(w, r, w.updates[r], debounce);
    }
  }

  lemma StepKeepsAhead(w: World, s: Step, a: Revision, b: Revision, debounce: Time, paginate: bool)
    requires Inv(w, debounce) && Ahead(w, a, b)
    ensures Ahead(Next(w, s, debounce, paginate), a, b)
  {
    match s {
      case Call(_, _) => CallKeepsAhead(w, s, a, b, debounce, paginate);
      case Tick(_) =>
      case Advance(r) =>
        if r in w.updates {
          ActKeepsAhead(w, r, a, b, debounce, paginate);
        }
    }
  }

  lemma {:induction false} AheadInEveryRun(
      w: World, steps: seq<Step>, a: Revision, b: Revision, debounce: Time, paginate: bool)
    requires Inv(w, debounce) && Ahead(w, a, b)
    ensures Ahead(After(w, steps, debounce, paginate), a, b)
    decreases |steps|
  {
    if steps != [] {
      var s, rest := steps[0], steps[1..];
      StepKeepsInv(w, s, debounce, paginate);
      StepKeepsAhead(w, s, a, b, debounce, paginate);
      AheadInEveryRun(Next(w, s, debounce, paginate), rest, a, b, debounce, paginate);
    }
  }

  /**
   * Two final updates that are both in the queue reach the wire in the order in which they came to it, in every run.
   */
  lemma JoinedLandInJoiningOrder(
      w: World, steps: seq<Step>, a: Revision, b: Revision, debounce: Time, paginate: bool, j: nat)
    requires Inv(w, debounce) && Joined(w, a) && Joined(w, b) && Before(w.waiters, a, b)
    requires j < |After(w, steps, debounce, paginate).log| && After(w, steps, debounce, paginate).log[j].rev == b
    ensures exists i :: 0 <= i < j && After(w, steps, debounce, paginate).log[i].rev == a
  {
    AheadInEveryRun(w, steps, a, b, debounce, paginate);
    AfterKeepsInv(w, steps, debounce, paginate);
    BeforeDiffer(w.waiters, a, b);
    AheadIsLoggedFirst(After(w, steps, debounce, paginate), a, b, j, debounce);
  }

  lemma QueuedIsNotLogged(w: World, r: Revision, debounce: Time)
    requires Inv(w, debounce) && Joined(w, r)
    ensures forall i :: 0 <= i < |w.log| ==> w.log[i].rev != r
  {
    assert UpdateOk(w, r, w.updates[r], debounce);
  }

  lemma AheadIsLoggedFirst(w: World, a: Revision, b: Revision, j: nat, debounce: Time)
    requires Inv(w, debounce) && Ahead(w, a, b) && a != b && j < |w.log| && w.log[j].rev == b
    ensures exists i :: 0 <= i < j && w.log[i].rev == a
  {
    if Joined(w, b) {
      QueuedIsNotLogged(w, b, debounce);
    } else {
      var i :| 0 <= i < |w.log| && w.log[i].rev == a && forall k :: 0 <= k < i ==> w.log[k].rev != b;
      assert i < j;
    }
  }

  lemma BeforeDiffer(waiters: seq<Revision>, a: Revision, b: Revision)
    requires Before(waiters, a, b) && Distinct(waiters)
    ensures a != b
  {
  }

  // --- The order of final updates ---

  /** The final edits of the log are in the order of their calls. */
  ghost predicate FinalsIncrease(log: seq<Edit>) {
    forall i, j :: 0 <= i < j < |log| && log[i].final && log[j].final ==> log[i].rev < log[j].rev
  }

  ghost predicate FinalsBelow(log: seq<Edit>, r: Revision) {
    forall i :: 0 <= i < |log| && log[i].final ==> log[i].rev < r
  }

  ghost predicate QueueIncreases(w: World) {
    forall i, j :: 0 <= i < j < |w.waiters| && Joined(w, w.waiters[i]) && Joined(w, w.waiters[j]) ==>
      w.waiters[i] < w.waiters[j]
  }

  predicate Pending(w: World, r: Revision) {
    Late(w, r) || Joined(w, r) || Editing(w, r)
  }

  /**
   * Final edits, the final update that edits, the queued ones and then at most one late one are in order of their
   * calls.
   */
  ghost predicate InTurn(w: World) {
    && FinalsIncrease(w.log) && QueueIncreases(w)
    && (forall r :: r in w.updates && w.updates[r].final ==> FinalPlace(w.updates[r].place))
    && (forall p, q :: Late(w, p) && Late(w, q) ==> p == q)
    && (forall p, q :: (Joined(w, p) || Editing(w, p)) && Late(w, q) ==> p < q)
    && (forall p, q :: Editing(w, p) && Joined(w, q) ==> p < q)
    && (forall r :: Pending(w, r) ==> FinalsBelow(w.log, r))
  }

  lemma StartedIsInTurn(w: World)
    requires Started(w)
    ensures InTurn(w)
  {
  }

  lemma NewCallInTurn(w: World, v: World, u: Update, newest: Revision)
    requires InTurn(w) && newest !in w.updates && newest !in w.waiters && FinalsBelow(w.log, newest)
    requires v == w.(revision := newest, updates := w.updates[newest := u])
    requires forall r :: r in w.updates ==> r < newest
    requires u.final ==> u.place == WantLock && forall r :: !Late(w, r)
    ensures InTurn(v)
  {
    forall r: Revision | Editing(v, r) ensures Editing(w, r) && r < newest {
    }
    forall r: Revision | Joined(v, r) ensures Joined(w, r) && r < newest {
    }
    forall r: Revision | Late(v, r) ensures if r == newest then u.final else Late(w, r) {
    }
    forall r: Revision | Pending(v, r) ensures FinalsBelow(v.log, r) {
      assert r != newest ==> Pending(w, r);
    }
  }

  lemma CallInTurn(w: World, s: Step, debounce: Time, paginate: bool)
    requires Inv(w, debounce) && InTurn(w) && s.Call? && (s.final ==> forall r :: !Late(w, r))
    ensures InTurn(Next(w, s, debounce, paginate))
  {
    var newest := w.revision + 1;
    forall r | r in w.updates ensures r < newest {
      assert UpdateOk(w, r, w.updates[r], debounce);
    }
    assert newest !in w.waiters && FinalsBelow(w.log, newest);
    NewCallInTurn(w, Next(w, s, debounce, paginate),
      Update(s.content, s.final, if s.final then WantLock else WaitCheck), newest);
  }

  /** A step after which nobody is newly late, queued or editing, and log and queue are in order. */
  lemma StaysInTurn(w: World, v: World)
    requires InTurn(w) && FinalsIncrease(v.log) && QueueIncreases(v)
    requires forall r :: r in v.updates && v.updates[r].final ==> FinalPlace(v.updates[r].place)
    requires forall r :: Late(v, r) ==> Late(w, r)
    requires forall r :: Joined(v, r) ==> Joined(w, r)
    requires forall r :: Editing(v, r) ==> Editing(w, r)
    requires forall r :: Pending(v, r) && FinalsBelow(w.log, r) ==> FinalsBelow(v.log, r)
    ensures InTurn(v)
  {
  }

  /** The queue stays as it is, or loses its head. */
  lemma ShorterQueueIncreases(w: World, v: World)
    requires QueueIncreases(w) && (v.waiters == w.waiters || (w.waiters != [] && v.waiters == w.waiters[1..]))
    requires forall r :: Joined(v, r) ==> Joined(w, r)
    ensures QueueIncreases(v)
  {
    if v.waiters != w.waiters {
      forall i, j | 0 <= i < j < |v.waiters| && Joined(v, v.waiters[i]) && Joined(v, v.waiters[j])
        ensures v.waiters[i] < v.waiters[j]
      {
        assert v.waiters[i] == w.waiters[i + 1] && v.waiters[j] == w.waiters[j + 1];
      }
    }
  }

  lemma LateIsNewest(w: World, r: Revision)
    requires InTurn(w) && Late(w, r)
    ensures forall q: Revision :: Joined(w, q) || Editing(w, q) ==> q < r
    ensures forall q: Revision :: Late(w, q) ==> q == r
  {
  }

  lemma JoiningMoves(w: World, v: World, r: Revision, q: Revision)
    requires Late(w, r) && v == w.(waiters := w.waiters + [r])
    ensures Late(v, q) <==> Late(w, q) && q != r
    ensures Joined(v, q) <==> Joined(w, q) || q == r
    ensures Editing(v, q) <==> Editing(w, q)
  {
  }

  /** The late update joins the queue, behind all the others. */
  lemma LateJoinsInTurn(w: World, v: World, r: Revision)
    requires InTurn(w) && Late(w, r) && v == w.(waiters := w.waiters + [r])
    ensures InTurn(v)
  {
    LateIsNewest(w, r);
    forall q: Revision
      ensures !Late(v, q) && (Joined(v, q) <==> Joined(w, q) || q == r) && (Editing(v, q) <==> Editing(w, q))
      ensures Pending(v, q) <==> Pending(w, q)
    {
      JoiningMoves(w, v, r, q);
    }
    forall i, j | 0 <= i < j < |v.waiters| && Joined(v, v.waiters[i]) && Joined(v, v.waiters[j])
      ensures v.waiters[i] < v.waiters[j]
    {
      assert v.waiters[i] == w.waiters[i] && v.waiters[i] in w.waiters;
      assert j < |w.waiters| ==> v.waiters[j] == w.waiters[j];
    }
  }

  /** The head of the queue takes the mutex. */
  lemma HeadEditsInTurn(w: World, v: World, r: Revision)
    requires InTurn(w) && Distinct(w.waiters) && Joined(w, r) && (forall p :: !Editing(w, p))
    requires w.waiters[0] == r && v == At(w.(lock := Some(r), waiters := w.waiters[1..]), r, Locked)
    ensures InTurn(v)
  {
    forall q: Revision | Joined(v, q) ensures Joined(w, q) && r < q {
      var k :| 0 <= k < |v.waiters| && v.waiters[k] == q;
      assert w.waiters[k + 1] == q && w.waiters[0] == r && q in w.waiters;
    }
    forall p: Revision | Editing(v, p) ensures p == r {
      assert p != r ==> Editing(w, p);
    }
    forall q: Revision | Late(v, q) ensures Late(w, q) {
      OthersStayInQueue(w.waiters, v.waiters, r, q);
    }
    ShorterQueueIncreases(w, v);
    assert FinalsBelow(v.log, r);
  }

  /** A final update that is done, or goes from its checks to its edit. */
  lemma FinalMovesInTurn(w: World, v: World, r: Revision, place: Place)
    requires InTurn(w) && r in w.updates && w.updates[r].final
    requires v == w.(updates := w.updates[r := w.updates[r].(place := place)], lock := v.lock, last := v.last)
    requires place == w.updates[r].place || (w.updates[r].place.Locked? && place.Ready?) || place.Done?
    ensures InTurn(v)
  {
    ShorterQueueIncreases(w, v);
    StaysInTurn(w, v);
  }

  lemma FinalEditsInTurn(w: World, v: World, r: Revision, debounce: Time)
    requires Inv(w, debounce) && InTurn(w) && Editing(w, r) && w.updates[r].place.Ready?
    requires v == w.(wire := v.wire, log := w.log + [Edit(r, true, w.now)],
                     updates := w.updates[r := w.updates[r].(place := Stamping)])
    ensures InTurn(v)
  {
    assert FinalsBelow(w.log, r);
    forall p ensures !Editing(v, p) {
      if Editing(v, p) {
        OthersDoNotEdit(w, r, p, debounce);
      }
    }
    forall q: Revision | Pending(v, q) ensures r < q && FinalsBelow(w.log, q) {
      assert Late(v, q) ==> Late(w, q);
      assert Joined(v, q) ==> Joined(w, q);
    }
    ShorterQueueIncreases(w, v);
    StaysInTurn(w, v);
  }

  lemma AtTheMutexInTurn(w: World, r: Revision, debounce: Time, paginate: bool)
    requires Inv(w, debounce) && InTurn(w) && r in w.updates && w.updates[r].final && w.updates[r].place.WantLock?
    ensures InTurn(Act(w, r, debounce, paginate))
  {
    var v := Act(w, r, debounce, paginate);
    if r !in w.waiters {
      LateJoinsInTurn(w, v, r);
    } else if Granted(w, r) {
      FreeMutexHasNoEditor(w, debounce);
      HeadEditsInTurn(w, v, r);
    }
  }

  lemma FinalStepInTurn(w: World, r: Revision, debounce: Time, paginate: bool)
    requires Inv(w, debounce) && InTurn(w) && r in w.updates && w.updates[r].final
    ensures InTurn(Act(w, r, debounce, paginate))
  {
    var v := Act(w, r, debounce, paginate);
    if w.updates[r].place.Ready? {
      ActEdits(w, r, debounce, paginate);
      FinalEditsInTurn(w, v, r, debounce);
    } else if w.updates[r].place.WantLock? {
      AtTheMutexInTurn(w, r, debounce, paginate);
    } else {
      ActMoves(w, r, debounce, paginate);
      assert FinalPlace(w.updates[r].place);
      FinalMovesInTurn(w, v, r, v.updates[r].place);
    }
  }

  /** A call that is not final moves, may join or leave the queue, and may log an edit that is not final. */
  lemma OtherMovesInTurn(w: World, v: World, r: Revision)
    requires InTurn(w) && r in w.updates && !w.updates[r].final && r in v.updates && !v.updates[r].final
    requires v.updates == w.updates[r := v.updates[r]]
    requires QueueMoves(w.waiters, v.waiters, r)
    requires v.log == w.log || v.log == w.log + [Edit(r, false, w.now)]
    ensures InTurn(v)
  {
    forall q: Revision | q != r ensures q in v.waiters <==> q in w.waiters {
      OthersStayInQueue(w.waiters, v.waiters, r, q);
    }
    if v.waiters == w.waiters + [r] {
      forall i, j | 0 <= i < j < |v.waiters| && Joined(v, v.waiters[i]) && Joined(v, v.waiters[j])
        ensures v.waiters[i] < v.waiters[j]
      {
        assert v.waiters[j] != r && v.waiters[i] == w.waiters[i] && v.waiters[j] == w.waiters[j];
      }
    } else {
      ShorterQueueIncreases(w, v);
    }
    StaysInTurn(w, v);
  }

  lemma OthersStayInQueue(before: seq<Revision>, after: seq<Revision>, r: Revision, q: Revision)
    requires q != r && QueueMoves(before, after, r)
    ensures q in after <==> q in before
  {
    if before != [] && before[0] == r && after == before[1..] {
      assert before == [r] + after;
    }
  }

  lemma OtherStepInTurn(w: World, r: Revision, debounce: Time, paginate: bool)
    requires Inv(w, debounce) && InTurn(w) && r in w.updates && !w.updates[r].final
    ensures InTurn(Act(w, r, debounce, paginate))
  {
    if w.updates[r].place.Ready? {
      ActEdits(w, r, debounce, paginate);
    } else {
      ActMoves(w, r, debounce, paginate);
    }
    OtherMovesInTurn(w, Act(w, r, debounce, paginate), r);
  }

  lemma StepInTurn(w: World, s: Step, debounce: Time, paginate: bool)
    requires Inv(w, debounce) && InTurn(w) && (s.Call? && s.final ==> forall r :: !Late(w, r))
    ensures InTurn(Next(w, s, debounce, paginate))
  {
    match s {
      case Call(_, _) => CallInTurn(w, s, debounce, paginate);
      case Tick(_) => StaysInTurn(w, Next(w, s, debounce, paginate));
      case Advance(r) =>
        if r in w.updates {
          if w.updates[r].final {
            FinalStepInTurn(w, r, debounce, paginate);
          } else {
            OtherStepInTurn(w, r, debounce, paginate);
          }
        }
    }
  }

  /** No final update is called while another one has its revision and has not come to the mutex. */
  ghost predicate CallsInTurn(w: World, steps: seq<Step>, debounce: Time, paginate: bool)
    requires Inv(w, debounce)
    decreases |steps|
  {
    steps == [] ||
    (StepKeepsInv(w, steps[0], debounce, paginate);
     && (steps[0].Call? && steps[0].final ==> forall r :: !Late(w, r))
     && CallsInTurn(Next(w, steps[0], debounce, paginate), steps[1..], debounce, paginate))
  }

  lemma {:induction false} InTurnInEveryRun(w: World, steps: seq<Step>, debounce: Time, paginate: bool)
    requires Inv(w, debounce) && InTurn(w) && CallsInTurn(w, steps, debounce, paginate)
    ensures InTurn(After(w, steps, debounce, paginate))
    decreases |steps|
  {
    if steps != [] {
      var s, rest := steps[0], steps[1..];
      StepKeepsInv(w, s, debounce, paginate);
      StepInTurn(w, s, debounce, paginate);
      InTurnInEveryRun(Next(w, s, debounce, paginate), rest, debounce, paginate);
    }
  }

  /**
   * Final updates reach the wire in the order of their calls if none is called while another has its revision and has
   * not come to the mutex.
   */
  lemma FinalsLandInOrder(w: World, steps: seq<Step>, debounce: Time, paginate: bool)
    requires Started(w) && CallsInTurn(StartedIsInv(w, debounce), steps, debounce, paginate)
    ensures FinalsIncrease(After(StartedIsInv(w, debounce), steps, debounce, paginate).log)
  {
    StartedIsInTurn(w);
    InTurnInEveryRun(w, steps, debounce, paginate);
  }

  // --- How final updates cross ---

  ghost predicate NoFinalCalls(steps: seq<Step>) {
    forall i :: 0 <= i < |steps| ==> !(steps[i].Call? && steps[i].final)
  }

  /** The log has grown, the queue is what is left of it, and whoever is still in it has not moved. */
  ghost predicate Drained(w: World, v: World, left: seq<Revision>) {
    && w.log <= v.log && v.waiters == left
    && forall q :: q in left ==> q in w.updates && q in v.updates && v.updates[q] == w.updates[q]
  }

  lemma DrainedTwice(w: World, u: World, v: World, mid: seq<Revision>, left: seq<Revision>)
    requires Drained(w, u, mid) && Drained(u, v, left) && forall q :: q in left ==> q in mid
    ensures Drained(w, v, left)
  {
  }

  /** The place of the call that holds the mutex, counted down to its release. */
  function Rank(p: Place): nat {
    match p
    case Locked => 4
    case Deadline => 3
    case LockedAgain(_) => 3
    case Ready => 2
    case Stamping => 1
    case _ => 0
  }

  lemma HolderMovesOn(w: World, r: Revision, debounce: Time, paginate: bool)
    requires Inv(w, debounce) && w.lock == Some(r) && r in w.updates
    ensures var v := Next(w, Advance(r), debounce, paginate);
      v.lock.None? || (v.lock == Some(r) && r in v.updates && Rank(v.updates[r].place) < Rank(w.updates[r].place))
  {
    assert UpdateOk(w, r, w.updates[r], debounce);
  }

  lemma HolderLeavesTheQueue(w: World, r: Revision, debounce: Time, paginate: bool)
    requires Inv(w, debounce) && w.lock == Some(r) && r in w.updates
    ensures Drained(w, Next(w, Advance(r), debounce, paginate), w.waiters)
  {
    assert UpdateOk(w, r, w.updates[r], debounce);
    assert r !in w.waiters;
    if w.updates[r].place.Ready? {
      ActEdits(w, r, debounce, paginate);
    } else {
      ActMoves(w, r, debounce, paginate);
    }
  }

  /** Whoever holds the mutex can go on until it is free, and the queue stays. */
  lemma {:induction false} MutexIsFreed(w: World, debounce: Time, paginate: bool) returns (steps: seq<Step>)
    requires Inv(w, debounce)
    ensures NoFinalCalls(steps)
    ensures After(w, steps, debounce, paginate).lock.None?
    ensures Drained(w, After(w, steps, debounce, paginate), w.waiters)
    decreases if w.lock.Some? && w.lock.value in w.updates then 1 + Rank(w.updates[w.lock.value].place) else 0
  {
    if w.lock.None? {
      steps := [];
    } else {
      var r := w.lock.value;
      var s := Advance(r);
      var v := Next(w, s, debounce, paginate);
      StepKeepsInv(w, s, debounce, paginate);
      HolderMovesOn(w, r, debounce, paginate);
      HolderLeavesTheQueue(w, r, debounce, paginate);
      var rest := MutexIsFreed(v, debounce, paginate);
      AfterCons(w, s, rest, debounce, paginate);
      DrainedTwice(w, v, After(v, rest, debounce, paginate), w.waiters, w.waiters);
      steps := [s] + rest;
    }
  }

  lemma HeadLeavesTheQueue(w: World, r: Revision, debounce: Time, paginate: bool)
    requires Inv(w, debounce) && Granted(w, r)
    ensures Drained(w, Next(w, Advance(r), debounce, paginate), w.waiters[1..])
  {
    var left := w.waiters[1..];
    assert r in w.waiters;
    forall q | q in left ensures q in w.waiters && q != r {
      var k :| 0 <= k < |left| && left[k] == q;
      assert w.waiters[k + 1] == q;
    }
    ActMoves(w, r, debounce, paginate);
  }

  function Landing(r: Revision): seq<Step> {
    [Advance(r), Advance(r), Advance(r), Advance(r)]
  }

  lemma AfterFour(w: World, s: Step, debounce: Time, paginate: bool) returns (v1: World, v2: World, v3: World)
    requires Inv(w, debounce)
    ensures v1 == Next(w, s, debounce, paginate) && Inv(v1, debounce)
    ensures v2 == Next(v1, s, debounce, paginate) && Inv(v2, debounce)
    ensures v3 == Next(v2, s, debounce, paginate) && Inv(v3, debounce)
    ensures After(w, [s, s, s, s], debounce, paginate) == Next(v3, s, debounce, paginate)
  {
    StepKeepsInv(w, s, debounce, paginate);
    v1 := Next(w, s, debounce, paginate);
    StepKeepsInv(v1, s, debounce, paginate);
    v2 := Next(v1, s, debounce, paginate);
    StepKeepsInv(v2, s, debounce, paginate);
    v3 := Next(v2, s, debounce, paginate);
    AfterCons(v3, s, [], debounce, paginate);
    AfterCons(v2, s, [s] + [], debounce, paginate);
    AfterCons(v1, s, [s] + ([s] + []), debounce, paginate);
    AfterCons(w, s, [s] + ([s] + ([s] + [])), debounce, paginate);
    assert [s] + ([s] + ([s] + ([s] + []))) == [s, s, s, s];
  }

  lemma FinalIsReady(w: World, r: Revision, debounce: Time, paginate: bool)
    requires Sound(w.wire) && r in w.updates && w.updates[r].final && w.updates[r].place.Locked?
    ensures Next(w, Advance(r), debounce, paginate) == w.(updates := w.updates[r := w.updates[r].(place := Ready)])
  {
    assert Next(w, Advance(r), debounce, paginate) == At(w, r, Ready);
  }

  lemma FinalIsLogged(w: World, r: Revision, debounce: Time, paginate: bool)
    requires Sound(w.wire) && r in w.updates && w.updates[r].final && w.updates[r].place.Ready?
    ensures var v := Next(w, Advance(r), debounce, paginate);
      && v.log == w.log + [Edit(r, true, w.now)] && v.waiters == w.waiters
      && v.updates == w.updates[r := w.updates[r].(place := Stamping)]
  {
  }

  lemma FinalLetsGo(w: World, r: Revision, debounce: Time, paginate: bool)
    requires Sound(w.wire) && r in w.updates && w.updates[r].place.Stamping?
    ensures var v := Next(w, Advance(r), debounce, paginate);
      && v.log == w.log && v.waiters == w.waiters && v.lock.None?
      && v.updates == w.updates[r := w.updates[r].(place := Done)]
  {
  }

  /** `r` is the last edit of the log, and was not in the log of `w`. */
  ghost predicate LandsLast(w: World, v: World, r: Revision) {
    |w.log| < |v.log| && v.log[|v.log| - 1].rev == r && v.log[|v.log| - 1].final
  }

  /** The final update at the head of the queue of the free mutex can be the next on the wire, and frees the mutex. */
  lemma HeadLands(w: World, r: Revision, debounce: Time, paginate: bool)
    requires Inv(w, debounce) && Granted(w, r) && Joined(w, r)
    ensures var v := After(w, Landing(r), debounce, paginate);
      && Inv(v, debounce) && v.lock.None? && LandsLast(w, v, r) && |v.log| == |w.log| + 1
      && Drained(w, v, w.waiters[1..])
  {
    AfterKeepsInv(w, Landing(r), debounce, paginate);
    var v1, v2, v3 := AfterFour(w, Advance(r), debounce, paginate);
    JoinedActs(w, r, debounce, paginate);
    HeadLeavesTheQueue(w, r, debounce, paginate);
    FinalIsReady(v1, r, debounce, paginate);
    FinalIsLogged(v2, r, debounce, paginate);
    FinalLetsGo(v3, r, debounce, paginate);
  }

  /** Steps that can be taken without a final call, and end with the edit of `r` and the queue `left`. */
  ghost predicate Lands(
      w: World, steps: seq<Step>, r: Revision, left: seq<Revision>, debounce: Time, paginate: bool)
    requires Inv(w, debounce)
  {
    && NoFinalCalls(steps) && LandsLast(w, After(w, steps, debounce, paginate), r)
    && Drained(w, After(w, steps, debounce, paginate), left)
  }

  lemma LandsAfterAll(w: World, u: World, v: World, mid: seq<Revision>, left: seq<Revision>, r: Revision)
    requires Drained(w, u, mid) && Drained(u, v, left) && LandsLast(u, v, r) && forall q :: q in left ==> q in mid
    ensures Drained(w, v, left) && LandsLast(w, v, r)
  {
    DrainedTwice(w, u, v, mid, left);
  }

  lemma NoFinalCallsAppend(a: seq<Step>, b: seq<Step>)
    requires NoFinalCalls(a) && NoFinalCalls(b)
    ensures NoFinalCalls(a + b)
  {
  }

  lemma LandsLater(
      w: World, first: seq<Step>, mid: seq<Revision>, more: seq<Step>, r: Revision, left: seq<Revision>, debounce: Time,
      paginate: bool)
    requires Inv(w, debounce) && NoFinalCalls(first) && Drained(w, After(w, first, debounce, paginate), mid)
    requires Inv(After(w, first, debounce, paginate), debounce)
    requires Lands(After(w, first, debounce, paginate), more, r, left, debounce, paginate)
    requires forall q :: q in left ==> q in mid
    ensures Lands(w, first + more, r, left, debounce, paginate)
  {
    var u := After(w, first, debounce, paginate);
    var v := After(u, more, debounce, paginate);
    AfterAppend(w, first, more, debounce, paginate);
    LandsAfterAll(w, u, v, mid, left, r);
    NoFinalCallsAppend(first, more);
  }

  /** A final update in the queue can reach the wire once everyone before it has been served. */
  lemma {:induction false} QueuedLands(w: World, r: Revision, k: nat, debounce: Time, paginate: bool)
      returns (steps: seq<Step>)
    requires Inv(w, debounce) && k < |w.waiters| && w.waiters[k] == r && Joined(w, r)
    ensures Lands(w, steps, r, w.waiters[k + 1..], debounce, paginate)
    decreases k, 1
  {
    var free := MutexIsFreed(w, debounce, paginate);
    AfterKeepsInv(w, free, debounce, paginate);
    var u := After(w, free, debounce, paginate);
    var more := FreeQueueLands(u, r, k, debounce, paginate);
    RestOfQueue(w.waiters, k);
    LandsLater(w, free, w.waiters, more, r, w.waiters[k + 1..], debounce, paginate);
    steps := free + more;
  }

  lemma HeadLandsAtOnce(w: World, r: Revision, debounce: Time, paginate: bool)
    requires Inv(w, debounce) && Granted(w, r) && Joined(w, r)
    ensures Lands(w, Landing(r), r, w.waiters[1..], debounce, paginate)
  {
    HeadLands(w, r, debounce, paginate);
  }

  /** With the mutex free the head of the queue is served, and then the updates behind it. */
  lemma {:induction false} FreeQueueLands(w: World, r: Revision, k: nat, debounce: Time, paginate: bool)
      returns (steps: seq<Step>)
    requires Inv(w, debounce) && k < |w.waiters| && w.waiters[k] == r && Joined(w, r) && w.lock.None?
    ensures Lands(w, steps, r, w.waiters[k + 1..], debounce, paginate)
    decreases k, 0
  {
    if k == 0 {
      HeadLandsAtOnce(w, r, debounce, paginate);
      steps := Landing(r);
    } else {
      var before := k - 1;
      var v := HeadIsServed(w, r, k, before, debounce, paginate);
      var rest := QueuedLands(v, r, before, debounce, paginate);
      steps := ServedFirst(w, v, rest, r, k, before, debounce, paginate);
    }
  }

  lemma ServedFirst(
      w: World, v: World, rest: seq<Step>, r: Revision, k: nat, before: nat, debounce: Time, paginate: bool)
      returns (steps: seq<Step>)
    requires Inv(w, debounce) && 0 < k < |w.waiters| && before == k - 1
    requires v == After(w, [Advance(w.waiters[0])], debounce, paginate) && Inv(v, debounce)
    requires Drained(w, v, w.waiters[1..]) && Lands(v, rest, r, v.waiters[before + 1..], debounce, paginate)
    ensures Lands(w, steps, r, w.waiters[k + 1..], debounce, paginate)
  {
    var left := w.waiters[k + 1..];
    assert v.waiters[before + 1..] == left;
    RestOfQueue(v.waiters, before);
    LandsLater(w, [Advance(w.waiters[0])], v.waiters, rest, r, left, debounce, paginate);
    steps := [Advance(w.waiters[0])] + rest;
  }

  lemma HeadIsServed(w: World, r: Revision, k: nat, before: nat, debounce: Time, paginate: bool) returns (v: World)
    requires Inv(w, debounce) && w.lock.None? && 0 < k < |w.waiters| && before == k - 1
    requires w.waiters[k] == r && Joined(w, r)
    ensures v == After(w, [Advance(w.waiters[0])], debounce, paginate) && Inv(v, debounce)
    ensures Drained(w, v, w.waiters[1..]) && v.waiters[before] == r && Joined(v, r)
  {
    var s := Advance(w.waiters[0]);
    StepKeepsInv(w, s, debounce, paginate);
    HeadLeavesTheQueue(w, w.waiters[0], debounce, paginate);
    AfterCons(w, s, [], debounce, paginate);
    assert [s] + [] == [s];
    v := Next(w, s, debounce, paginate);
    assert v.waiters[before] == r && r in v.waiters;
  }

  lemma RestOfQueue(waiters: seq<Revision>, k: nat)
    requires k < |waiters|
    ensures forall q :: q in waiters[k + 1..] ==> q in waiters
  {
  }

  lemma LateJoins(w: World, r: Revision, debounce: Time, paginate: bool)
    requires Sound(w.wire) && Late(w, r)
    ensures Next(w, Advance(r), debounce, paginate) == w.(waiters := w.waiters + [r])
  {
  }

  /** Two late final updates can still cross: the newer one comes to the mutex first. */
  lemma LateCanCross(w: World, a: Revision, b: Revision, debounce: Time, paginate: bool) returns (steps: seq<Step>)
    requires Inv(w, debounce) && a < b && Late(w, a) && Late(w, b)
    ensures NoFinalCalls(steps) && !FinalsIncrease(After(w, steps, debounce, paginate).log)
  {
    var v := AfterTwo(w, Advance(b), Advance(a), debounce, paginate);
    LateJoins(w, b, debounce, paginate);
    LateJoins(Next(w, Advance(b), debounce, paginate), a, debounce, paginate);
    assert v.waiters == w.waiters + [b] + [a];
    var lands := NewerLandsFirst(v, a, b, |w.waiters|, debounce, paginate);
    steps := [Advance(b)] + ([Advance(a)] + lands);
  }

  lemma NewerLandsFirst(w: World, a: Revision, b: Revision, k: nat, debounce: Time, paginate: bool)
      returns (steps: seq<Step>)
    requires Inv(w, debounce) && a < b && Joined(w, a) && Joined(w, b)
    requires |w.waiters| == k + 2 && w.waiters[k] == b && w.waiters[k + 1] == a
    ensures NoFinalCalls(steps) && !FinalsIncrease(After(w, steps, debounce, paginate).log)
  {
    var first := QueuedLands(w, b, k, debounce, paginate);
    AfterKeepsInv(w, first, debounce, paginate);
    var u := After(w, first, debounce, paginate);
    assert w.waiters[k + 1..] == [a] && a in [a];
    var second := QueuedLands(u, a, 0, debounce, paginate);
    AfterAppend(w, first, second, debounce, paginate);
    LastOfTwoDecrease(u, After(u, second, debounce, paginate), b, a, w);
    steps := first + second;
  }

  lemma LastOfTwoDecrease(u: World, v: World, b: Revision, a: Revision, w: World)
    requires LandsLast(w, u, b) && LandsLast(u, v, a) && u.log <= v.log && a < b
    ensures !FinalsIncrease(v.log)
  {
    assert v.log[|u.log| - 1] == u.log[|u.log| - 1];
  }

  lemma {:induction false} NoCallsAreInTurn(w: World, steps: seq<Step>, debounce: Time, paginate: bool)
    requires Inv(w, debounce) && NoFinalCalls(steps)
    ensures CallsInTurn(w, steps, debounce, paginate)
    decreases |steps|
  {
    if steps != [] {
      var rest := steps[1..];
      StepKeepsInv(w, steps[0], debounce, paginate);
      NoCallsAreInTurn(Next(w, steps[0], debounce, paginate), rest, debounce, paginate);
    }
  }

  /**
   * When a final update, called where all went in turn so far, can end with an older one landing after a newer one: if
   * and only if, at the moment of the call, another final update has its revision and has not come to the mutex.
   */
  lemma FinalsCrossExactlyWhen(w: World, content: string, debounce: Time, paginate: bool)
    requires Inv(w, debounce) && InTurn(w)
    ensures (exists steps :: NoFinalCalls(steps)
              && !FinalsIncrease(After(w, [Call(content, true)] + steps, debounce, paginate).log))
            <==> exists r :: Late(w, r)
  {
    var call := Call(content, true);
    StepKeepsInv(w, call, debounce, paginate);
    var v := Next(w, call, debounce, paginate);
    if r :| Late(w, r) {
      CallIsLate(w, content, r, debounce, paginate);
      var steps := LateCanCross(v, r, v.revision, debounce, paginate);
      AfterCons(w, call, steps, debounce, paginate);
    } else {
      StepInTurn(w, call, debounce, paginate);
      forall steps | NoFinalCalls(steps)
        ensures FinalsIncrease(After(w, [call] + steps, debounce, paginate).log)
      {
        AfterCons(w, call, steps, debounce, paginate);
        NoCallsAreInTurn(v, steps, debounce, paginate);
        InTurnInEveryRun(v, steps, debounce, paginate);
      }
    }
  }

  lemma CallIsLate(w: World, content: string, r: Revision, debounce: Time, paginate: bool)
    requires Inv(w, debounce) && Late(w, r)
    ensures var v := Next(w, Call(content, true), debounce, paginate);
      r < v.revision && Late(v, r) && Late(v, v.revision)
  {
    forall q | q in w.updates ensures q <= w.revision {
      assert UpdateOk(w, q, w.updates[q], debounce);
    }
    assert w.revision + 1 !in w.waiters;
  }

  lemma AfterTwo(w: World, a: Step, b: Step, debounce: Time, paginate: bool) returns (v: World)
    requires Inv(w, debounce)
    ensures Sound(Next(w, a, debounce, paginate).wire)
    ensures Inv(v, debounce) && v == Next(Next(w, a, debounce, paginate), b, debounce, paginate)
    ensures forall rest ::
      After(w, [a] + ([b] + rest), debounce, paginate) == After(v, rest, debounce, paginate)
  {
    var u := Next(w, a, debounce, paginate);
    StepKeepsInv(w, a, debounce, paginate);
    StepKeepsInv(u, b, debounce, paginate);
    v := Next(u, b, debounce, paginate);
    forall rest ensures After(w, [a] + ([b] + rest), debounce, paginate) == After(v, rest, debounce, paginate) {
      AfterCons(u, b, rest, debounce, paginate);
      AfterCons(w, a, [b] + rest, debounce, paginate);
    }
  }

  lemma BothAreLate(w: World, first: Step, second: Step, debounce: Time, paginate: bool)
    requires Started(w) && first.Call? && first.final && second.Call? && second.final
    ensures var v := Next(Next(w, first, debounce, paginate), second, debounce, paginate);
      && v.log == [] && v.lock.None? && v.waiters == [] && Late(v, 1) && Late(v, 2)
  {
  }

  lemma TwoLandInTheOrderOfTheQueue(w: World, a: Revision, b: Revision, debounce: Time, paginate: bool)
      returns (steps: seq<Step>)
    requires Inv(w, debounce) && w.lock.None? && w.waiters == [b, a] && Joined(w, a) && Joined(w, b) && w.log == []
    ensures var log := After(w, steps, debounce, paginate).log;
      |log| == 2 && log[0].final && log[1].final && log[0].rev == b && log[1].rev == a
  {
    HeadLands(w, b, debounce, paginate);
    var u := After(w, Landing(b), debounce, paginate);
    assert w.waiters[1..] == [a] && a in [a];
    HeadLands(u, a, debounce, paginate);
    AfterAppend(w, Landing(b), Landing(a), debounce, paginate);
    assert u.log[0] == After(u, Landing(a), debounce, paginate).log[0];
    steps := Landing(b) + Landing(a);
  }

  lemma BothJoin(w: World, debounce: Time, paginate: bool) returns (v: World)
    requires Inv(w, debounce) && w.lock.None? && w.waiters == [] && w.log == [] && Late(w, 1) && Late(w, 2)
    ensures Inv(v, debounce) && v.lock.None? && v.waiters == [2, 1] && v.log == [] && Joined(v, 1) && Joined(v, 2)
    ensures forall rest ::
      After(w, [Advance(2)] + ([Advance(1)] + rest), debounce, paginate) == After(v, rest, debounce, paginate)
  {
    v := AfterTwo(w, Advance(2), Advance(1), debounce, paginate);
    LateJoins(w, 2, debounce, paginate);
    LateJoins(Next(w, Advance(2), debounce, paginate), 1, debounce, paginate);
    assert [] + [2] + [1] == [2, 1];
  }

  /** Final updates check nothing: of two of them the older one can be the last on the wire. */
  lemma AnOlderFinalCanLandLast(w: World, debounce: Time, paginate: bool) returns (steps: seq<Step>)
    requires Started(w)
    ensures var log := After(StartedIsInv(w, debounce), steps, debounce, paginate).log;
      |log| == 2 && log[0].final && log[1].final && log[0].rev > log[1].rev
  {
    var first, second := Call("old", true), Call("new", true);
    var called := AfterTwo(w, first, second, debounce, paginate);
    BothAreLate(w, first, second, debounce, paginate);
    var joined := BothJoin(called, debounce, paginate);
    var landings := TwoLandInTheOrderOfTheQueue(joined, 1, 2, debounce, paginate);
    steps := [first] + ([second] + ([Advance(2)] + ([Advance(1)] + landings)));
  }

  // --- An update that is left alone is shown ---

  ghost predicate Quiet(w: World) {
    w.lock.None? && w.waiters == []
  }

  /** `w`, a debounce later, with a newest update on its way. */
  function OnItsWay(
      w: World, content: string, debounce: Time, place: Place, lock: bool, waits: bool): World
  {
    var r := w.revision + 1;
    w.(now := w.now + debounce, revision := r, lock := if lock then Some(r) else None,
       waiters := if waits then [r] else [], updates := w.updates[r := Update(content, false, place)])
  }

  /** One more step of it. */
  ghost predicate Steps(
      w: World, content: string, debounce: Time, paginate: bool,
      place: Place, lock: bool, waits: bool, place': Place, lock': bool, waits': bool)
    requires Sound(w.wire)
  {
    Next(OnItsWay(w, content, debounce, place, lock, waits), Advance(w.revision + 1), debounce, paginate)
      == OnItsWay(w, content, debounce, place', lock', waits')
  }

  lemma CheckSteps(w: World, content: string, debounce: Time, paginate: bool)
    requires Inv(w, debounce) && Quiet(w) && debounce >= 0
    ensures Steps(w, content, debounce, paginate, WaitCheck, false, false, WaitRead, false, false)
    ensures Steps(w, content, debounce, paginate, WaitConfirm, false, false, WantLock, false, false)
  {
  }

  lemma JoinToReadStep(w: World, content: string, debounce: Time, paginate: bool)
    requires Inv(w, debounce) && Quiet(w) && debounce >= 0
    ensures Steps(w, content, debounce, paginate, WaitRead, false, false, WaitRead, false, true)
  {
  }

  lemma ReadStep(w: World, content: string, debounce: Time, paginate: bool)
    requires Inv(w, debounce) && Quiet(w) && debounce >= 0
    ensures Steps(w, content, debounce, paginate, WaitRead, false, true, WaitConfirm, false, false)
  {
  }

  lemma JoinToLockStep(w: World, content: string, debounce: Time, paginate: bool)
    requires Inv(w, debounce) && Quiet(w) && debounce >= 0
    ensures Steps(w, content, debounce, paginate, WantLock, false, false, WantLock, false, true)
  {
  }

  lemma LockStep(w: World, content: string, debounce: Time, paginate: bool)
    requires Inv(w, debounce) && Quiet(w) && debounce >= 0
    ensures Steps(w, content, debounce, paginate, WantLock, false, true, Locked, true, false)
  {
  }

  lemma LockedSteps(w: World, content: string, debounce: Time, paginate: bool)
    requires Inv(w, debounce) && Quiet(w) && debounce >= 0
    ensures Steps(w, content, debounce, paginate, Locked, true, false, Deadline, true, false)
    ensures Steps(w, content, debounce, paginate, Deadline, true, false, Ready, true, false)
  {
  }

  /** What the call, its edit and its end leave. */
  ghost predicate ShownBy(w: World, v: World, content: string, final: bool, paginate: bool)
    requires Sound(w.wire)
  {
    && v.wire == (if final then FinalEdit(w.wire, Paginated(content, MESSAGE_LIMIT, paginate))
                  else PreviewEdit(w.wire, content))
    && v.log == w.log + [Edit(w.revision + 1, final, v.now)] && v.last == Some(v.now) && Quiet(v)
    && v.revision == w.revision + 1 && v.updates[w.revision + 1 := Update(content, final, Done)] == v.updates
  }

  lemma LastSteps(w: World, content: string, debounce: Time, paginate: bool)
    requires Inv(w, debounce) && Quiet(w) && debounce >= 0
    ensures var ready := OnItsWay(w, content, debounce, Ready, true, false);
      var edited := Next(ready, Advance(w.revision + 1), debounce, paginate);
      && Sound(edited.wire)
      && ShownBy(w, Next(edited, Advance(w.revision + 1), debounce, paginate), content, false, paginate)
      && Next(edited, Advance(w.revision + 1), debounce, paginate).now == w.now + debounce
  {
  }

  lemma OneMore(w: World, steps: seq<Step>, v: World, s: Step, u: World, debounce: Time, paginate: bool)
    returns (longer: seq<Step>)
    requires Inv(w, debounce) && Inv(v, debounce) && After(w, steps, debounce, paginate) == v
    requires Next(v, s, debounce, paginate) == u
    ensures Inv(u, debounce) && After(w, longer, debounce, paginate) == u
  {
    longer := steps + [s];
    AfterAppend(w, steps, [s], debounce, paginate);
    AfterCons(v, s, [], debounce, paginate);
    assert [s] + [] == [s];
  }

  lemma Comes(w: World, content: string, debounce: Time, paginate: bool) returns (steps: seq<Step>)
    requires Inv(w, debounce) && Quiet(w) && debounce >= 0
    ensures After(w, steps, debounce, paginate) == OnItsWay(w, content, debounce, WaitCheck, false, false)
    ensures Inv(OnItsWay(w, content, debounce, WaitCheck, false, false), debounce)
  {
    var later := w.(now := w.now + debounce);
    steps := OneMore(w, [], w, Tick(debounce), later, debounce, paginate);
    steps := OneMore(w, steps, later, Call(content, false),
                     OnItsWay(w, content, debounce, WaitCheck, false, false), debounce, paginate);
  }

  lemma Goes(
      w: World, content: string, debounce: Time, paginate: bool, steps: seq<Step>,
      place: Place, lock: bool, waits: bool, place': Place, lock': bool, waits': bool)
    returns (longer: seq<Step>)
    requires Inv(w, debounce) && Inv(OnItsWay(w, content, debounce, place, lock, waits), debounce)
    requires After(w, steps, debounce, paginate) == OnItsWay(w, content, debounce, place, lock, waits)
    requires Steps(w, content, debounce, paginate, place, lock, waits, place', lock', waits')
    ensures Inv(OnItsWay(w, content, debounce, place', lock', waits'), debounce)
    ensures After(w, longer, debounce, paginate) == OnItsWay(w, content, debounce, place', lock', waits')
  {
    longer := OneMore(w, steps, OnItsWay(w, content, debounce, place, lock, waits), Advance(w.revision + 1),
                      OnItsWay(w, content, debounce, place', lock', waits'), debounce, paginate);
  }

  /** A non-final update that is called when nobody is at the mutex, a debounce later, and left alone, is shown. */
  lemma LoneUpdateIsShown(w: World, content: string, debounce: Time, paginate: bool) returns (steps: seq<Step>)
    requires Inv(w, debounce) && Quiet(w) && debounce >= 0
    ensures var v := After(w, steps, debounce, paginate);
      ShownBy(w, v, content, false, paginate) && v.now == w.now + debounce
  {
    steps := Comes(w, content, debounce, paginate);
    CheckSteps(w, content, debounce, paginate);
    JoinToReadStep(w, content, debounce, paginate);
    ReadStep(w, content, debounce, paginate);
    JoinToLockStep(w, content, debounce, paginate);
    LockStep(w, content, debounce, paginate);
    LockedSteps(w, content, debounce, paginate);
    steps := Goes(w, content, debounce, paginate, steps, WaitCheck, false, false, WaitRead, false, false);
    steps := Goes(w, content, debounce, paginate, steps, WaitRead, false, false, WaitRead, false, true);
    steps := Goes(w, content, debounce, paginate, steps, WaitRead, false, true, WaitConfirm, false, false);
    steps := Goes(w, content, debounce, paginate, steps, WaitConfirm, false, false, WantLock, false, false);
    steps := Goes(w, content, debounce, paginate, steps, WantLock, false, false, WantLock, false, true);
    steps := Goes(w, content, debounce, paginate, steps, WantLock, false, true, Locked, true, false);
    steps := Goes(w, content, debounce, paginate, steps, Locked, true, false, Deadline, true, false);
    steps := Goes(w, content, debounce, paginate, steps, Deadline, true, false, Ready, true, false);
    steps := Edits(w, content, debounce, paginate, steps);
  }

  lemma Edits(w: World, content: string, debounce: Time, paginate: bool, steps: seq<Step>) returns (longer: seq<Step>)
    requires Inv(w, debounce) && Quiet(w) && debounce >= 0
    requires Inv(OnItsWay(w, content, debounce, Ready, true, false), debounce)
    requires After(w, steps, debounce, paginate) == OnItsWay(w, content, debounce, Ready, true, false)
    ensures var v := After(w, longer, debounce, paginate);
      ShownBy(w, v, content, false, paginate) && v.now == w.now + debounce
  {
    LastSteps(w, content, debounce, paginate);
    var ready := OnItsWay(w, content, debounce, Ready, true, false);
    var edit := Advance(w.revision + 1);
    var edited := Next(ready, edit, debounce, paginate);
    longer := OneMore(w, steps, ready, edit, edited, debounce, paginate);
    longer := OneMore(w, longer, edited, edit, Next(edited, edit, debounce, paginate), debounce, paginate);
  }
}
