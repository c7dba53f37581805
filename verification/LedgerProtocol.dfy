/**
 * Many gateway processes on one obligation table: senders, startup sweeps and redeliveries interleaved in every way,
 * with processes crashing at any point and process ids never reused. A sweep's select, each visit to a row it read,
 * and each of mark, dispatch and conclude are separate steps (src/ledger/service.rs, lines 198-350; src/main.rs,
 * lines 301-366).
 */
module LedgerProtocol {
  import opened Prelude
  import opened Ledger

  datatype Key = Key(pid: Pid, id: Id)

  /** A row as a sweep read it, and how many owners the row had had before that one. */
  datatype Seen = Seen(row: Row, version: int)

  datatype Phase = Held | Marked | Dispatched

  /**
   * A reply a process is delivering: its own, or one it claimed, whose row the sweep read in state `read` with this
   * content. `late` is history: the obligation had already been sent when it was claimed.
   */
  datatype Job = Job(recovered: bool, read: State, content: string, late: bool, phase: Phase)

  datatype Takeover = Takeover(id: Id, version: int, prev: Option<Pid>, claimer: Pid)

  /** A message on the wire; everything but `id`, `pid` and `text` is history. */
  datatype Send = Send(id: Id, pid: Pid, text: string, recovered: bool, marked: bool, late: bool)

  /** `base` and `owners` are history: the attempts a row started with, and every owner it has had, in order. */
  datatype World = World(
    rows: Rows, alive: set<Pid>, gone: set<Pid>, base: map<Id, nat>, owners: map<Id, seq<Option<Pid>>>,
    todo: map<Key, Seen>, jobs: map<Key, Job>, takeovers: seq<Takeover>, sends: seq<Send>)

  datatype Step =
    | Start(pid: Pid)
    | Crash(pid: Pid)
    | Record(pid: Pid, id: Id, content: string, now: Time)
    | ReadRows(pid: Pid)
    | Visit(pid: Pid, id: Id, now: Time)
    | Mark(pid: Pid, id: Id)
    | Dispatch(pid: Pid, id: Id)
    | Finish(pid: Pid, id: Id, ok: bool)

  function Version(w: World, id: Id): int {
    if id in w.owners then |w.owners[id]| - 1 else -1
  }

  predicate WasSent(sends: seq<Send>, id: Id) {
    sends != [] && (sends[|sends| - 1].id == id || WasSent(sends[..|sends| - 1], id))
  }

  function Redeliveries(sends: seq<Send>, id: Id): nat {
    if sends == [] then 0
    else
      Redeliveries(sends[..|sends| - 1], id)
      + (if sends[|sends| - 1].id == id && sends[|sends| - 1].recovered then 1 else 0)
  }

  function StartStep(w: World, pid: Pid): World {
    if pid > 0 && pid !in w.alive && pid !in w.gone then w.(alive := w.alive + {pid}) else w
  }

  function CrashStep(w: World, pid: Pid): World {
    if pid !in w.alive then w
    else
      w.(alive := w.alive - {pid}, gone := w.gone + {pid},
         todo := map k | k in w.todo && k.pid != pid :: w.todo[k],
         jobs := map k | k in w.jobs && k.pid != pid :: w.jobs[k])
  }

  function RecordStep(w: World, k: Key, content: string, now: Time): World {
    if k.pid !in w.alive then w
    else
      w.(rows := RecordRow(w.rows, k.id, content, k.pid, now),
         jobs := w.jobs[k := Job(false, State.Pending, content, false, Held)],
         base := if k.id in w.base then w.base else w.base[k.id := 0],
         owners := w.owners[k.id := (if k.id in w.owners then w.owners[k.id] else []) + [Some(k.pid)]])
  }

  function ReadStep(w: World, pid: Pid): World {
    if pid !in w.alive then w
    else
      var others := map k | k in w.todo && k.pid != pid :: w.todo[k];
      var keys := set id | id in w.rows && Recoverable(w.rows[id]) :: Key(pid, id);
      w.(todo := others + map k | k in keys && k.id in w.rows :: Seen(w.rows[k.id], Version(w, k.id)))
  }

  /** Whether the visit claims the row: decided on the row as read and the processes alive now. */
  predicate Claims(w: World, k: Key, limits: Limits, now: Time) {
    && k in w.todo && k.id in w.owners
    && !OwnedByLive(w.todo[k].row, w.alive) && !GivenUp(w.todo[k].row, limits, now)
    && CanClaim(w.rows, k.id, w.todo[k].row.owner, k.pid)
  }

  function ClaimStep(w: World, k: Key): World
    requires k in w.todo && k.id in w.owners && k.id in w.rows
  {
    var late := WasSent(w.sends, k.id);
    w.(todo := w.todo - {k},
       rows := ClaimRow(w.rows, k.id, k.pid),
       owners := w.owners[k.id := w.owners[k.id] + [Some(k.pid)]],
       jobs := w.jobs[k := Job(true, w.todo[k].row.state, w.todo[k].row.content, late, Held)],
       takeovers := w.takeovers + [Takeover(k.id, Version(w, k.id), w.rows[k.id].owner, k.pid)])
  }

  function VisitStep(w: World, k: Key, limits: Limits, now: Time): World {
    if k !in w.todo then w
    else if Claims(w, k, limits, now) then ClaimStep(w, k)
    else if !OwnedByLive(w.todo[k].row, w.alive) && GivenUp(w.todo[k].row, limits, now) then
      w.(todo := w.todo - {k}, rows := AbandonRow(w.rows, k.id))
    else w.(todo := w.todo - {k})
  }

  /**
   * A sweep decides on each row it read once: it claims a row without live owner that is not given up, if its owner is
   * still the one that was read; it abandons a given-up row without live owner; it leaves any other.
   */
  lemma VisitDecides(w: World, k: Key, limits: Limits, now: Time)
    requires k in w.todo && k.id in w.rows && k.id in w.owners
    ensures var (v, read, row) := (VisitStep(w, k, limits, now), w.todo[k].row, w.rows[k.id]);
      var live := read.owner.Some? && read.owner.value > 0 && read.owner.value in w.alive;
      var over := read.attempts >= limits.maxAttempts || Seconds(now - read.created) > limits.staleAfter;
      var mine := row.owner.None? || row.owner == read.owner || row.owner == Some(k.pid);
      && v.todo == w.todo - {k} && v.rows == w.rows[k.id := v.rows[k.id]]
      && v.rows[k.id] == (if live then row
                          else if over then row.(state := State.Abandoned)
                          else if mine then row.(owner := Some(k.pid), attempts := row.attempts + 1)
                          else row)
      && (!live && !over && mine ==>
            v.jobs == w.jobs[k := Job(true, read.state, read.content, WasSent(w.sends, k.id), Held)])
      && (live || over || !mine ==> v.jobs == w.jobs)
  {
    ClaimTakesFreeRows(w.rows, k.id, w.todo[k].row.owner, k.pid);
  }

  function MarkStep(w: World, k: Key): World {
    if k in w.jobs && w.jobs[k].phase == Held then
      w.(rows := UpdateState(w.rows, k.id, State.Attempting, None), jobs := w.jobs[k := w.jobs[k].(phase := Marked)])
    else w
  }

  function SendOf(k: Key, j: Job): Send {
    Send(k.id, k.pid, if j.recovered then Redelivered(j.read, j.content) else j.content,
         j.recovered, j.recovered && !j.read.Pending?, j.late)
  }

  function DispatchStep(w: World, k: Key): World {
    if k in w.jobs && w.jobs[k].phase == Marked then
      w.(sends := w.sends + [SendOf(k, w.jobs[k])], jobs := w.jobs[k := w.jobs[k].(phase := Dispatched)])
    else w
  }

  function FinishStep(w: World, k: Key, ok: bool): World {
    if k in w.jobs && w.jobs[k].phase == Dispatched then
      w.(rows := UpdateState(w.rows, k.id, if ok then State.Delivered else State.Failed, None), jobs := w.jobs - {k})
    else w
  }

  /** A delivery marks its row attempting, sends, and marks it delivered or failed, in this order and once each. */
  lemma DeliveryGoesOn(w: World, k: Key, ok: bool)
    requires k in w.jobs && k.id in w.rows
    ensures var row := w.rows[k.id];
      match w.jobs[k].phase
      case Held =>
        && MarkStep(w, k).rows == w.rows[k.id := row.(state := State.Attempting, error := None)]
        && MarkStep(w, k).jobs == w.jobs[k := w.jobs[k].(phase := Marked)]
        && DispatchStep(w, k) == w && FinishStep(w, k, ok) == w
      case Marked =>
        && |DispatchStep(w, k).sends| == |w.sends| + 1 && DispatchStep(w, k).rows == w.rows
        && DispatchStep(w, k).jobs == w.jobs[k := w.jobs[k].(phase := Dispatched)]
        && MarkStep(w, k) == w && FinishStep(w, k, ok) == w
      case Dispatched =>
        && FinishStep(w, k, ok).rows ==
             w.rows[k.id := row.(state := if ok then State.Delivered else State.Failed, error := None)]
        && FinishStep(w, k, ok).jobs == w.jobs - {k}
        && MarkStep(w, k) == w && DispatchStep(w, k) == w
  {
  }

  function Next(w: World, s: Step, limits: Limits): World {
    match s
    case Start(p) => StartStep(w, p)
    case Crash(p) => CrashStep(w, p)
    case Record(p, id, content, now) => RecordStep(w, Key(p, id), content, now)
    case ReadRows(p) => ReadStep(w, p)
    case Visit(p, id, now) => VisitStep(w, Key(p, id), limits, now)
    case Mark(p, id) => MarkStep(w, Key(p, id))
    case Dispatch(p, id) => DispatchStep(w, Key(p, id))
    case Finish(p, id, ok) => FinishStep(w, Key(p, id), ok)
  }

  /**
   * Obligations are recorded under new ids. This is an assumption about the callers: recording itself takes a known id
   * and replaces its owner, alive or not (`RecordingKeepsOneSenderExactlyWhen`).
   */
  predicate Admissible(w: World, s: Step) {
    s.Record? ==> s.id !in w.rows
  }

  // --- Ownership ---

  predicate IsDead(w: World, owner: Option<Pid>) {
    owner.None? || owner.value !in w.alive
  }

  ghost predicate Distinct<T>(s: seq<T>) {
    forall i, j :: 0 <= i < j < |s| ==> s[i] != s[j]
  }

  /** The owners of a row never repeat, only the last can be alive, and the attempts count the takeovers. */
  ghost predicate OwnersOk(w: World, id: Id, limits: Limits) {
    && id in w.owners && id in w.base && id in w.rows
    && var owners := w.owners[id];
    && |owners| > 0 && owners[|owners| - 1] == w.rows[id].owner && Distinct(owners)
    && (forall i :: 0 <= i < |owners| && owners[i].Some? ==> owners[i].value in w.alive + w.gone)
    && (forall i :: 1 <= i < |owners| ==> owners[i].Some?)
    && (forall i :: 0 <= i < |owners| - 1 ==> IsDead(w, owners[i]))
    && w.rows[id].attempts == w.base[id] + |owners| - 1
    && (|owners| > 1 ==> w.rows[id].attempts <= limits.maxAttempts)
  }

  ghost predicate SeenOk(w: World, k: Key)
    requires k in w.todo
  {
    && k.pid in w.alive && k.id in w.owners && k.id in w.base && k.id in w.rows
    && var seen := w.todo[k];
    && 0 <= seen.version < |w.owners[k.id]|
    && seen.row.owner == w.owners[k.id][seen.version]
    && seen.row.attempts == w.base[k.id] + seen.version
    && (seen.row.owner != Some(k.pid) ==> w.rows[k.id].owner != Some(k.pid))
  }

  ghost predicate TakeoverOk(w: World, t: Takeover) {
    && t.id in w.owners && 0 <= t.version < |w.owners[t.id]| - 1
    && w.owners[t.id][t.version] == t.prev && w.owners[t.id][t.version + 1] == Some(t.claimer)
  }

  ghost predicate Basics(w: World) {
    w.alive !! w.gone && (forall p :: p in w.alive ==> p > 0) && w.rows.Keys == w.owners.Keys == w.base.Keys
  }

  ghost predicate AllOwnersOk(w: World, limits: Limits) {
    forall id :: id in w.rows ==> OwnersOk(w, id, limits)
  }

  ghost predicate AllSeenOk(w: World) {
    forall k :: k in w.todo ==> SeenOk(w, k)
  }

  ghost predicate TakeoversOk(w: World) {
    && (forall i :: 0 <= i < |w.takeovers| ==> TakeoverOk(w, w.takeovers[i]))
    && (forall i, j :: 0 <= i < j < |w.takeovers| ==>
          w.takeovers[i].id != w.takeovers[j].id || w.takeovers[i].version != w.takeovers[j].version)
  }

  ghost predicate Owned(w: World, limits: Limits) {
    Basics(w) && AllOwnersOk(w, limits) && AllSeenOk(w) && TakeoversOk(w)
  }

  /** A claim takes over from a dead owner, at the version the sweep read, by a process that never owned the row. */
  lemma ClaimIsCurrent(w: World, k: Key, limits: Limits, now: Time)
    requires Basics(w) && AllOwnersOk(w, limits) && AllSeenOk(w) && Claims(w, k, limits, now)
    ensures w.rows[k.id].owner == w.todo[k].row.owner && w.todo[k].version == |w.owners[k.id]| - 1
    ensures w.rows[k.id].attempts == w.todo[k].row.attempts < limits.maxAttempts
    ensures IsDead(w, w.rows[k.id].owner) && Some(k.pid) !in w.owners[k.id] && k.pid in w.alive
  {
    assert SeenOk(w, k) && OwnersOk(w, k.id, limits);
    var owners := w.owners[k.id];
    var seen := w.todo[k];
    assert w.rows[k.id].owner != Some(k.pid);
    assert owners[|owners| - 1] == w.rows[k.id].owner;
    forall i | 0 <= i < |owners| ensures owners[i] != Some(k.pid) {
      assert i < |owners| - 1 ==> IsDead(w, owners[i]);
    }
  }

  /** Nobody comes back, and owners and attempts of the rows stay as they are. */
  ghost predicate Keeps(w: World, v: World) {
    && v.alive * (w.alive + w.gone) <= w.alive && w.alive + w.gone <= v.alive + v.gone
    && v.alive !! v.gone && (forall p :: p in v.alive ==> p > 0)
    && v.owners == w.owners && v.base == w.base && v.takeovers == w.takeovers && v.rows.Keys == w.rows.Keys
    && forall id :: id in w.rows ==> v.rows[id].owner == w.rows[id].owner && v.rows[id].attempts == w.rows[id].attempts
  }

  lemma KeepsOwners(w: World, v: World, id: Id, limits: Limits)
    requires Keeps(w, v) && OwnersOk(w, id, limits)
    ensures OwnersOk(v, id, limits)
  {
    var owners := w.owners[id];
    forall i | 0 <= i < |owners| - 1 ensures IsDead(v, owners[i]) {
      assert IsDead(w, owners[i]);
    }
  }

  lemma KeepsSeen(w: World, v: World, k: Key)
    requires Keeps(w, v) && k in w.todo && k in v.todo && v.todo[k] == w.todo[k] && SeenOk(w, k) && k.pid in v.alive
    ensures SeenOk(v, k)
  {
  }

  lemma KeepsTakeovers(w: World, v: World)
    requires Keeps(w, v) && TakeoversOk(w)
    ensures TakeoversOk(v)
  {
    forall i | 0 <= i < |v.takeovers| ensures TakeoverOk(v, v.takeovers[i]) {
      assert TakeoverOk(w, w.takeovers[i]);
    }
  }

  /** What was read stays as it was read, by processes that are still alive. */
  ghost predicate TodoShrinks(w: World, v: World) {
    forall k :: k in v.todo ==> k in w.todo && v.todo[k] == w.todo[k] && (k.pid in w.alive ==> k.pid in v.alive)
  }

  lemma KeepingKeepsOwned(w: World, v: World, limits: Limits)
    requires Owned(w, limits) && Keeps(w, v) && (TodoShrinks(w, v) || AllSeenOk(v))
    ensures Owned(v, limits)
  {
    forall id | id in v.rows ensures OwnersOk(v, id, limits) {
      KeepsOwners(w, v, id, limits);
    }
    if TodoShrinks(w, v) {
      forall k | k in v.todo ensures SeenOk(v, k) {
        assert SeenOk(w, k);
        KeepsSeen(w, v, k);
      }
    }
    KeepsTakeovers(w, v);
  }

  lemma FreshRowIsSeen(w: World, v: World, k: Key, limits: Limits)
    requires OwnersOk(w, k.id, limits) && k.pid in w.alive && v == w.(todo := v.todo)
    requires k in v.todo && v.todo[k] == Seen(w.rows[k.id], Version(w, k.id))
    ensures SeenOk(v, k)
  {
  }

  lemma ReadMeaning(w: World, pid: Pid, k: Key)
    requires pid in w.alive && k in ReadStep(w, pid).todo
    ensures var v := ReadStep(w, pid);
      && v == w.(todo := v.todo)
      && (if k.pid == pid then k.id in w.rows && v.todo[k] == Seen(w.rows[k.id], Version(w, k.id))
          else k in w.todo && v.todo[k] == w.todo[k])
  {
  }

  lemma UnreadStaysSeen(w: World, v: World, k: Key)
    requires v == w.(todo := v.todo) && k in w.todo && k in v.todo && v.todo[k] == w.todo[k] && SeenOk(w, k)
    ensures SeenOk(v, k)
  {
  }

  lemma ReadIsSeen(w: World, pid: Pid, limits: Limits)
    requires Basics(w) && AllOwnersOk(w, limits) && AllSeenOk(w)
    ensures AllSeenOk(ReadStep(w, pid))
  {
    if pid in w.alive {
      var v := ReadStep(w, pid);
      forall k | k in v.todo ensures SeenOk(v, k) {
        ReadMeaning(w, pid, k);
        if k.pid == pid {
          FreshRowIsSeen(w, v, k, limits);
        } else {
          UnreadStaysSeen(w, v, k);
        }
      }
    }
  }

  lemma CrashKeeps(w: World, pid: Pid)
    requires Basics(w)
    ensures Keeps(w, CrashStep(w, pid)) && TodoShrinks(w, CrashStep(w, pid))
  {
  }

  lemma IdleVisitKeeps(w: World, k: Key, limits: Limits, now: Time)
    requires Basics(w) && !Claims(w, k, limits, now)
    ensures Keeps(w, VisitStep(w, k, limits, now)) && TodoShrinks(w, VisitStep(w, k, limits, now))
  {
  }

  lemma StartKeeps(w: World, pid: Pid)
    requires Basics(w)
    ensures Keeps(w, StartStep(w, pid)) && TodoShrinks(w, StartStep(w, pid))
  {
  }

  lemma MarkKeeps(w: World, k: Key)
    requires Basics(w)
    ensures Keeps(w, MarkStep(w, k)) && TodoShrinks(w, MarkStep(w, k))
  {
  }

  lemma DispatchKeeps(w: World, k: Key)
    requires Basics(w)
    ensures Keeps(w, DispatchStep(w, k)) && TodoShrinks(w, DispatchStep(w, k))
  {
  }

  lemma FinishKeeps(w: World, k: Key, ok: bool)
    requires Basics(w)
    ensures Keeps(w, FinishStep(w, k, ok)) && TodoShrinks(w, FinishStep(w, k, ok))
  {
  }

  /** The row at `id` gets one more owner, `pid`. */
  ghost predicate OwnerAdded(w: World, v: World, id: Id, pid: Pid) {
    && v.alive == w.alive && v.gone == w.gone && v.base.Keys == v.rows.Keys == v.owners.Keys == w.rows.Keys + {id}
    && id in v.owners && v.owners[id] == (if id in w.owners then w.owners[id] else []) + [Some(pid)]
    && v.rows[id].owner == Some(pid) && v.rows[id].attempts == v.base[id] + |v.owners[id]| - 1
    && (id in w.base ==> v.base[id] == w.base[id])
    && forall i :: i in w.rows && i != id ==>
         i in w.owners && i in w.base && v.rows[i] == w.rows[i] && v.owners[i] == w.owners[i] && v.base[i] == w.base[i]
  }

  lemma AppendedIsDistinct<T>(s: seq<T>, x: T)
    requires Distinct(s) && x !in s
    ensures Distinct(s + [x])
  {
  }

  lemma AddedOwnerIsOk(w: World, v: World, id: Id, pid: Pid, limits: Limits)
    requires Basics(w) && OwnerAdded(w, v, id, pid) && pid in w.alive
    requires id in w.rows && OwnersOk(w, id, limits)
    requires Some(pid) !in w.owners[id] && IsDead(w, w.rows[id].owner) && w.rows[id].attempts < limits.maxAttempts
    ensures OwnersOk(v, id, limits)
  {
    var owners := w.owners[id];
    AppendedIsDistinct(owners, Some(pid));
    forall j | 0 <= j < |v.owners[id]| - 1 ensures IsDead(v, v.owners[id][j]) {
      assert v.owners[id][j] == owners[j];
      assert j < |owners| - 1 ==> IsDead(w, owners[j]);
    }
    assert v.rows[id].attempts == w.rows[id].attempts + 1;
  }

  lemma OtherOwnersStay(w: World, v: World, id: Id, pid: Pid, limits: Limits, i: Id)
    requires Basics(w) && OwnerAdded(w, v, id, pid) && i in w.rows && i != id && OwnersOk(w, i, limits)
    ensures OwnersOk(v, i, limits)
  {
    assert v.owners[i] == w.owners[i] && v.alive == w.alive && v.gone == w.gone;
    forall j | 0 <= j < |v.owners[i]| - 1 ensures IsDead(v, v.owners[i][j]) {
      assert IsDead(w, w.owners[i][j]);
    }
  }

  lemma OwnerAddedKeepsOwners(w: World, v: World, id: Id, pid: Pid, limits: Limits)
    requires Basics(w) && AllOwnersOk(w, limits) && OwnerAdded(w, v, id, pid) && pid in w.alive
    requires id in w.rows ==>
      Some(pid) !in w.owners[id] && IsDead(w, w.rows[id].owner) && w.rows[id].attempts < limits.maxAttempts
    ensures AllOwnersOk(v, limits)
  {
    forall i | i in v.rows ensures OwnersOk(v, i, limits) {
      if i != id {
        OtherOwnersStay(w, v, id, pid, limits, i);
      } else if id in w.rows {
        AddedOwnerIsOk(w, v, id, pid, limits);
      } else {
        assert v.owners[id] == [Some(pid)];
      }
    }
  }

  lemma OwnerAddedKeepsSeen(w: World, v: World, id: Id, pid: Pid, k: Key)
    requires Basics(w) && OwnerAdded(w, v, id, pid) && k in w.todo && k in v.todo && v.todo[k] == w.todo[k]
    requires k != Key(pid, id)
    requires SeenOk(w, k)
    ensures SeenOk(v, k)
  {
  }

  lemma OwnerAddedKeepsTakeover(w: World, v: World, id: Id, pid: Pid, t: Takeover)
    requires Basics(w) && OwnerAdded(w, v, id, pid) && TakeoverOk(w, t)
    ensures TakeoverOk(v, t)
  {
  }

  /** What a claim does to everything but the jobs. */
  ghost predicate TakenOver(w: World, v: World, k: Key)
    requires k.id in w.owners && k.id in w.rows
  {
    && v.alive == w.alive && v.gone == w.gone && v.base == w.base
    && v.rows == ClaimRow(w.rows, k.id, k.pid)
    && v.owners == w.owners[k.id := w.owners[k.id] + [Some(k.pid)]]
    && v.todo == w.todo - {k}
    && v.takeovers == w.takeovers + [Takeover(k.id, Version(w, k.id), w.rows[k.id].owner, k.pid)]
  }

  lemma ClaimTakesOver(w: World, k: Key)
    requires k in w.todo && k.id in w.owners && k.id in w.rows
    ensures TakenOver(w, ClaimStep(w, k), k)
  {
  }

  lemma TakingAddsOwner(w: World, v: World, k: Key, limits: Limits)
    requires Basics(w) && k.id in w.rows && OwnersOk(w, k.id, limits) && TakenOver(w, v, k)
    ensures OwnerAdded(w, v, k.id, k.pid)
  {
  }

  lemma TakeoverAppended(w: World, v: World, t: Takeover)
    requires TakeoversOk(w) && v.takeovers == w.takeovers + [t] && TakeoverOk(v, t)
    requires forall i :: 0 <= i < |w.takeovers| ==> TakeoverOk(v, w.takeovers[i])
    requires t.version == Version(w, t.id)
    ensures TakeoversOk(v)
  {
    forall i | 0 <= i < |w.takeovers| ensures w.takeovers[i].id == t.id ==> w.takeovers[i].version < t.version {
      assert TakeoverOk(w, w.takeovers[i]);
    }
  }

  lemma OwnerAddedKeepsAllTakeovers(w: World, v: World, id: Id, pid: Pid)
    requires Basics(w) && OwnerAdded(w, v, id, pid) && TakeoversOk(w)
    ensures forall i :: 0 <= i < |w.takeovers| ==> TakeoverOk(v, w.takeovers[i])
  {
    forall i | 0 <= i < |w.takeovers| ensures TakeoverOk(v, w.takeovers[i]) {
      assert TakeoverOk(w, w.takeovers[i]);
      OwnerAddedKeepsTakeover(w, v, id, pid, w.takeovers[i]);
    }
  }

  lemma TakingKeepsTakeovers(w: World, v: World, k: Key, limits: Limits)
    requires Basics(w) && k.id in w.rows && OwnersOk(w, k.id, limits) && TakeoversOk(w)
    requires TakenOver(w, v, k) && OwnerAdded(w, v, k.id, k.pid)
    ensures TakeoversOk(v)
  {
    OwnerAddedKeepsAllTakeovers(w, v, k.id, k.pid);
    TakeoverAppended(w, v, Takeover(k.id, Version(w, k.id), w.rows[k.id].owner, k.pid));
  }

  lemma OwnerAddedKeepsAllSeen(w: World, v: World, id: Id, pid: Pid)
    requires Basics(w) && OwnerAdded(w, v, id, pid) && AllSeenOk(w)
    requires forall k :: k in v.todo ==> k in w.todo && v.todo[k] == w.todo[k] && k != Key(pid, id)
    ensures AllSeenOk(v)
  {
    forall q | q in v.todo ensures SeenOk(v, q) {
      assert SeenOk(w, q);
      OwnerAddedKeepsSeen(w, v, id, pid, q);
    }
  }

  lemma ClaimKeepsOwned(w: World, k: Key, limits: Limits, now: Time)
    requires Owned(w, limits) && Claims(w, k, limits, now)
    ensures Owned(ClaimStep(w, k), limits)
  {
    var v := ClaimStep(w, k);
    ClaimIsCurrent(w, k, limits, now);
    ClaimTakesOver(w, k);
    TakingKeepsOwned(w, v, k, limits);
  }

  lemma TakingKeepsOwned(w: World, v: World, k: Key, limits: Limits)
    requires Owned(w, limits) && k.id in w.rows && TakenOver(w, v, k) && k.pid in w.alive
    requires Some(k.pid) !in w.owners[k.id] && IsDead(w, w.rows[k.id].owner)
    requires w.rows[k.id].attempts < limits.maxAttempts
    ensures Owned(v, limits)
  {
    assert OwnersOk(w, k.id, limits);
    TakingAddsOwner(w, v, k, limits);
    OwnerAddedKeepsOwners(w, v, k.id, k.pid, limits);
    OwnerAddedKeepsAllSeen(w, v, k.id, k.pid);
    TakingKeepsTakeovers(w, v, k, limits);
  }

  lemma RecordAddsOwner(w: World, k: Key, content: string, now: Time)
    requires Basics(w) && k.pid in w.alive && k.id !in w.rows
    ensures var v := RecordStep(w, k, content, now);
      OwnerAdded(w, v, k.id, k.pid) && v.todo == w.todo && v.takeovers == w.takeovers
  {
    assert RecordStep(w, k, content, now).rows[k.id] == Row(State.Pending, 0, Some(k.pid), now, content, None);
  }

  lemma RecordingKeepsOwned(w: World, v: World, k: Key, limits: Limits)
    requires Owned(w, limits) && k.id !in w.rows && k.pid in w.alive
    requires OwnerAdded(w, v, k.id, k.pid) && v.todo == w.todo && v.takeovers == w.takeovers
    ensures Owned(v, limits)
  {
    OwnerAddedKeepsOwners(w, v, k.id, k.pid, limits);
    forall q | q in w.todo ensures q != k {
      assert SeenOk(w, q);
    }
    OwnerAddedKeepsAllSeen(w, v, k.id, k.pid);
    OwnerAddedKeepsAllTakeovers(w, v, k.id, k.pid);
  }

  lemma RecordKeepsOwned(w: World, k: Key, content: string, now: Time, limits: Limits)
    requires Owned(w, limits) && k.id !in w.rows
    ensures Owned(RecordStep(w, k, content, now), limits)
  {
    if k.pid in w.alive {
      RecordAddsOwner(w, k, content, now);
      RecordingKeepsOwned(w, RecordStep(w, k, content, now), k, limits);
    }
  }

  lemma ReadKeepsOwned(w: World, pid: Pid, limits: Limits)
    requires Owned(w, limits)
    ensures Owned(ReadStep(w, pid), limits)
  {
    ReadIsSeen(w, pid, limits);
    KeepingKeepsOwned(w, ReadStep(w, pid), limits);
  }

  lemma CrashKeepsOwned(w: World, pid: Pid, limits: Limits)
    requires Owned(w, limits)
    ensures Owned(CrashStep(w, pid), limits)
  {
    CrashKeeps(w, pid);
    KeepingKeepsOwned(w, CrashStep(w, pid), limits);
  }

  lemma VisitKeepsOwned(w: World, k: Key, limits: Limits, now: Time)
    requires Owned(w, limits)
    ensures Owned(VisitStep(w, k, limits, now), limits)
  {
    if Claims(w, k, limits, now) {
      ClaimKeepsOwned(w, k, limits, now);
    } else {
      IdleVisitKeeps(w, k, limits, now);
      KeepingKeepsOwned(w, VisitStep(w, k, limits, now), limits);
    }
  }

  lemma JobStepKeepsOwned(w: World, s: Step, limits: Limits)
    requires Owned(w, limits) && (s.Start? || s.Mark? || s.Dispatch? || s.Finish?)
    ensures Owned(Next(w, s, limits), limits)
  {
    match s {
      case Start(p) => StartKeeps(w, p);
      case Mark(p, id) => MarkKeeps(w, Key(p, id));
      case Dispatch(p, id) => DispatchKeeps(w, Key(p, id));
      case Finish(p, id, ok) => FinishKeeps(w, Key(p, id), ok);
    }
    KeepingKeepsOwned(w, Next(w, s, limits), limits);
  }

  lemma StepKeepsOwned(w: World, s: Step, limits: Limits)
    requires Owned(w, limits) && Admissible(w, s)
    ensures Owned(Next(w, s, limits), limits)
  {
    match s {
      case Crash(p) => CrashKeepsOwned(w, p, limits);
      case Record(p, id, content, now) => RecordKeepsOwned(w, Key(p, id), content, now, limits);
      case ReadRows(p) => ReadKeepsOwned(w, p, limits);
      case Visit(p, id, now) => VisitKeepsOwned(w, Key(p, id), limits, now);
      case _ => JobStepKeepsOwned(w, s, limits);
    }
  }

  // --- Jobs and sends ---

  /** A job's process owns the row; until its send, the history is as it was when the job began. */
  ghost predicate JobOk(w: World, k: Key)
    requires k in w.jobs
  {
    && k.pid in w.alive && k.id in w.rows && k.id in w.owners && w.rows[k.id].owner == Some(k.pid)
    && var j := w.jobs[k];
    && (j.recovered <==> |w.owners[k.id]| > 1)
    && (j.phase != Held ==> !w.rows[k.id].state.Pending?)
    && (j.phase != Dispatched ==> (j.late <==> WasSent(w.sends, k.id)))
    && (j.phase != Dispatched && j.recovered ==> Redeliveries(w.sends, k.id) < |w.owners[k.id]| - 1)
  }

  ghost predicate SentOk(w: World, id: Id) {
    if id in w.rows then
      && id in w.owners && (w.rows[id].state.Pending? ==> !WasSent(w.sends, id))
      && Redeliveries(w.sends, id) <= |w.owners[id]| - 1
    else !WasSent(w.sends, id) && Redeliveries(w.sends, id) == 0
  }

  /** An unmarked send is a duplicate exactly when its claim came after a send. */
  ghost predicate MarksOk(sends: seq<Send>) {
    forall i :: 0 <= i < |sends| && !sends[i].marked ==> (sends[i].late <==> WasSent(sends[..i], sends[i].id))
  }

  ghost predicate AllJobsOk(w: World) {
    forall k :: k in w.jobs ==> JobOk(w, k)
  }

  ghost predicate AllSentOk(w: World) {
    forall id :: SentOk(w, id)
  }

  /** One process at a time delivers an obligation. */
  lemma OneSenderAtATime(w: World, k: Key, q: Key)
    requires AllJobsOk(w) && k in w.jobs && q in w.jobs && k.id == q.id
    ensures k == q
  {
    assert JobOk(w, k) && JobOk(w, q);
  }

  ghost predicate OneSender(w: World) {
    forall k, q :: k in w.jobs && q in w.jobs && k.id == q.id ==> k == q
  }

  /**
   * Recording an obligation, under a new id or a known one, adds a second sender exactly when another process has it.
   */
  lemma RecordingKeepsOneSenderExactlyWhen(w: World, k: Key, content: string, now: Time)
    requires OneSender(w) && k.pid in w.alive
    ensures var v := RecordStep(w, k, content, now);
      && k in v.jobs && v.rows[k.id].owner == Some(k.pid)
      && (OneSender(v) <==> forall q :: q in w.jobs && q.id == k.id ==> q.pid == k.pid)
  {
    var v := RecordStep(w, k, content, now);
    assert v.jobs == w.jobs[k := Job(false, State.Pending, content, false, Held)];
    forall q | q in w.jobs && q.id == k.id && OneSender(v) ensures q.pid == k.pid {
      assert q in v.jobs && k in v.jobs;
    }
  }

  lemma SendAppended(sends: seq<Send>, s: Send, id: Id)
    ensures WasSent(sends + [s], id) <==> WasSent(sends, id) || s.id == id
    ensures Redeliveries(sends + [s], id) == Redeliveries(sends, id) + if s.id == id && s.recovered then 1 else 0
  {
    assert (sends + [s])[..|sends|] == sends;
  }

  lemma MarkAppended(sends: seq<Send>, s: Send)
    requires MarksOk(sends) && (s.late <==> WasSent(sends, s.id))
    ensures MarksOk(sends + [s])
  {
    var after := sends + [s];
    forall i | 0 <= i < |after| && !after[i].marked ensures after[i].late <==> WasSent(after[..i], after[i].id) {
      assert after[..i] == sends[..i];
      assert i == |sends| ==> sends[..i] == sends;
    }
  }

  /** Owner, owners and sends of one obligation stay, and it does not become pending. */
  ghost predicate Settled(w: World, v: World, id: Id) {
    && (id in v.rows <==> id in w.rows)
    && (id in w.rows ==>
      v.rows[id].owner == w.rows[id].owner && (v.rows[id].state.Pending? ==> w.rows[id].state.Pending?))
    && (id in w.owners ==> id in v.owners && v.owners[id] == w.owners[id])
    && (WasSent(v.sends, id) <==> WasSent(w.sends, id)) && Redeliveries(v.sends, id) == Redeliveries(w.sends, id)
  }

  lemma SettledKeepsJob(w: World, v: World, k: Key)
    requires Settled(w, v, k.id) && k in w.jobs && k in v.jobs && v.jobs[k] == w.jobs[k] && JobOk(w, k)
    requires k.pid in v.alive
    ensures JobOk(v, k)
  {
  }

  lemma SettledKeepsSent(w: World, v: World, id: Id)
    requires Settled(w, v, id) && SentOk(w, id)
    ensures SentOk(v, id)
  {
  }

  ghost predicate Working(w: World) {
    AllJobsOk(w) && AllSentOk(w) && MarksOk(w.sends)
  }

  /** No job starts or moves on. */
  ghost predicate JobsShrink(w: World, v: World) {
    && v.sends == w.sends
    && (forall k :: k in v.jobs ==> k in w.jobs && v.jobs[k] == w.jobs[k] && (k.pid in w.alive ==> k.pid in v.alive))
    && forall id :: Settled(w, v, id)
  }

  lemma ShrinkingKeepsWorking(w: World, v: World)
    requires Working(w) && JobsShrink(w, v)
    ensures Working(v)
  {
    forall k | k in v.jobs ensures JobOk(v, k) {
      assert JobOk(w, k);
      SettledKeepsJob(w, v, k);
    }
    forall id ensures SentOk(v, id) {
      SettledKeepsSent(w, v, id);
    }
  }

  lemma StartShrinksJobs(w: World, pid: Pid)
    requires Basics(w)
    ensures JobsShrink(w, StartStep(w, pid))
  {
  }

  lemma ReadShrinksJobs(w: World, pid: Pid)
    requires Basics(w)
    ensures JobsShrink(w, ReadStep(w, pid))
  {
  }

  lemma QuietStepShrinksJobs(w: World, s: Step, limits: Limits)
    requires Basics(w) && (s.Start? || s.ReadRows?)
    ensures JobsShrink(w, Next(w, s, limits))
  {
    if s.Start? {
      StartShrinksJobs(w, s.pid);
    } else {
      ReadShrinksJobs(w, s.pid);
    }
  }

  lemma CrashShrinksJobs(w: World, pid: Pid)
    requires Basics(w)
    ensures JobsShrink(w, CrashStep(w, pid))
  {
  }

  lemma FinishShrinksJobs(w: World, k: Key, ok: bool)
    requires Basics(w)
    ensures JobsShrink(w, FinishStep(w, k, ok))
  {
  }

  lemma IdleVisitShrinksJobs(w: World, k: Key, limits: Limits, now: Time)
    requires Basics(w) && !Claims(w, k, limits, now)
    ensures JobsShrink(w, VisitStep(w, k, limits, now))
  {
  }

  /** Only the obligation of `k` moves, and no other process is delivering it. */
  lemma OneMoves(w: World, v: World, k: Key)
    requires k in v.jobs && Working(w) && JobOk(v, k) && SentOk(v, k.id) && MarksOk(v.sends) && v.alive == w.alive
    requires forall q :: q in v.jobs && q != k ==> q in w.jobs && v.jobs[q] == w.jobs[q] && q.id != k.id
    requires forall id :: id != k.id ==> Settled(w, v, id)
    ensures Working(v)
  {
    forall q | q in v.jobs ensures JobOk(v, q) {
      if q != k {
        assert JobOk(w, q);
        SettledKeepsJob(w, v, q);
      }
    }
    forall id ensures SentOk(v, id) {
      if id != k.id {
        SettledKeepsSent(w, v, id);
      }
    }
  }

  lemma MarkKeepsWorking(w: World, k: Key)
    requires Working(w)
    ensures Working(MarkStep(w, k))
  {
    var v := MarkStep(w, k);
    if k in w.jobs && w.jobs[k].phase == Held {
      assert JobOk(w, k) && SentOk(w, k.id);
      forall q | q in w.jobs && q.id == k.id ensures q == k {
        OneSenderAtATime(w, k, q);
      }
      OneMoves(w, v, k);
    }
  }

  /** The send of `k` is appended, and its job has been dispatched. */
  ghost predicate Sent(w: World, v: World, k: Key)
    requires k in w.jobs
  {
    v == w.(sends := w.sends + [SendOf(k, w.jobs[k])], jobs := w.jobs[k := w.jobs[k].(phase := Dispatched)])
  }

  lemma SendingSettlesOthers(w: World, v: World, k: Key, id: Id)
    requires k in w.jobs && Sent(w, v, k) && id != k.id
    ensures Settled(w, v, id)
  {
    SendAppended(w.sends, SendOf(k, w.jobs[k]), id);
  }

  lemma SendingKeepsOwn(w: World, v: World, k: Key)
    requires k in w.jobs && w.jobs[k].phase == Marked && Sent(w, v, k) && JobOk(w, k) && SentOk(w, k.id)
    requires MarksOk(w.sends)
    ensures JobOk(v, k) && SentOk(v, k.id) && MarksOk(v.sends)
  {
    SendAppended(w.sends, SendOf(k, w.jobs[k]), k.id);
    MarkAppended(w.sends, SendOf(k, w.jobs[k]));
  }

  lemma DispatchKeepsWorking(w: World, k: Key)
    requires Working(w)
    ensures Working(DispatchStep(w, k))
  {
    var v := DispatchStep(w, k);
    if k in w.jobs && w.jobs[k].phase == Marked {
      assert JobOk(w, k) && SentOk(w, k.id);
      forall q | q in w.jobs && q.id == k.id ensures q == k {
        OneSenderAtATime(w, k, q);
      }
      SendingKeepsOwn(w, v, k);
      forall id | id != k.id ensures Settled(w, v, id) {
        SendingSettlesOthers(w, v, k, id);
      }
      OneMoves(w, v, k);
    }
  }

  lemma ClaimStartsJob(w: World, k: Key)
    requires Basics(w) && k in w.todo && k.id in w.rows && SentOk(w, k.id) && |w.owners[k.id]| > 0 && k.pid in w.alive
    ensures k in ClaimStep(w, k).jobs && JobOk(ClaimStep(w, k), k) && SentOk(ClaimStep(w, k), k.id)
    ensures forall id :: id != k.id ==> Settled(w, ClaimStep(w, k), id)
  {
  }

  /** Whoever delivers an obligation owns it, so nobody does when its owner is dead. */
  lemma DeadOwnerDeliversNothing(w: World, id: Id)
    requires AllJobsOk(w) && id in w.rows && IsDead(w, w.rows[id].owner)
    ensures forall q :: q in w.jobs ==> q.id != id
  {
    forall q | q in w.jobs ensures q.id != id {
      assert JobOk(w, q);
    }
  }

  lemma ClaimKeepsWorking(w: World, k: Key, limits: Limits, now: Time)
    requires Owned(w, limits) && Working(w) && Claims(w, k, limits, now)
    ensures Working(ClaimStep(w, k))
  {
    ClaimIsCurrent(w, k, limits, now);
    assert OwnersOk(w, k.id, limits) && SentOk(w, k.id);
    DeadOwnerDeliversNothing(w, k.id);
    ClaimStartsJob(w, k);
    OneMoves(w, ClaimStep(w, k), k);
  }

  lemma RecordKeepsWorking(w: World, k: Key, content: string, now: Time)
    requires Basics(w) && Working(w) && k.id !in w.rows
    ensures Working(RecordStep(w, k, content, now))
  {
    if k.pid in w.alive {
      assert SentOk(w, k.id);
      forall q | q in w.jobs ensures q.id != k.id {
        assert JobOk(w, q);
      }
      OneMoves(w, RecordStep(w, k, content, now), k);
    }
  }

  lemma StepKeepsWorking(w: World, s: Step, limits: Limits)
    requires Owned(w, limits) && Working(w) && Admissible(w, s)
    ensures Working(Next(w, s, limits))
  {
    match s {
      case Record(p, id, content, now) => RecordKeepsWorking(w, Key(p, id), content, now);
      case Visit(p, id, now) =>
        if Claims(w, Key(p, id), limits, now) {
          ClaimKeepsWorking(w, Key(p, id), limits, now);
        } else {
          IdleVisitShrinksJobs(w, Key(p, id), limits, now);
          ShrinkingKeepsWorking(w, Next(w, s, limits));
        }
      case Mark(p, id) => MarkKeepsWorking(w, Key(p, id));
      case Dispatch(p, id) => DispatchKeepsWorking(w, Key(p, id));
      case Finish(p, id, ok) =>
        FinishShrinksJobs(w, Key(p, id), ok);
        ShrinkingKeepsWorking(w, Next(w, s, limits));
      case Crash(p) =>
        CrashShrinksJobs(w, p);
        ShrinkingKeepsWorking(w, Next(w, s, limits));
      case _ =>
        QuietStepShrinksJobs(w, s, limits);
        ShrinkingKeepsWorking(w, Next(w, s, limits));
    }
  }

  // --- Every run ---

  /** Rows left by earlier processes, and nothing under way. */
  ghost predicate Initial(w: World) {
    && w.alive == {} && w.todo == map[] && w.jobs == map[] && w.takeovers == [] && w.sends == []
    && w.rows.Keys == w.owners.Keys == w.base.Keys
    && forall id :: id in w.rows ==>
         && w.owners[id] == [w.rows[id].owner] && w.base[id] == w.rows[id].attempts
         && (w.rows[id].owner.Some? ==> w.rows[id].owner.value in w.gone)
  }

  function After(w: World, run: seq<Step>, limits: Limits): World
    decreases |run|
  {
    if run == [] then w else Next(After(w, run[..|run| - 1], limits), run[|run| - 1], limits)
  }

  predicate AdmissibleRun(w: World, run: seq<Step>, limits: Limits)
    decreases |run|
  {
    run == [] ||
    (AdmissibleRun(w, run[..|run| - 1], limits) && Admissible(After(w, run[..|run| - 1], limits), run[|run| - 1]))
  }

  lemma {:induction false} EveryRunIsSound(w: World, run: seq<Step>, limits: Limits)
    requires Initial(w) && AdmissibleRun(w, run, limits)
    ensures Owned(After(w, run, limits), limits) && Working(After(w, run, limits))
    decreases |run|
  {
    if run != [] {
      var before := After(w, run[..|run| - 1], limits);
      EveryRunIsSound(w, run[..|run| - 1], limits);
      StepKeepsOwned(before, run[|run| - 1], limits);
      StepKeepsWorking(before, run[|run| - 1], limits);
    }
  }

  /** No dead ownership is claimed twice, by whichever processes and in whichever order. */
  lemma OwnershipIsClaimedOnce(w: World, run: seq<Step>, limits: Limits, i: nat, j: nat)
    requires Initial(w) && AdmissibleRun(w, run, limits)
    requires i < j < |After(w, run, limits).takeovers|
    ensures var t := After(w, run, limits).takeovers; t[i].id == t[j].id ==> t[i].prev != t[j].prev
  {
    EveryRunIsSound(w, run, limits);
    var v := After(w, run, limits);
    assert TakeoverOk(v, v.takeovers[i]) && TakeoverOk(v, v.takeovers[j]);
    if v.takeovers[i].id == v.takeovers[j].id {
      assert OwnersOk(v, v.takeovers[i].id, limits);
    }
  }

  /** An obligation is redelivered no more often than its attempts allow, counting those it started with. */
  lemma RedeliveriesAreBounded(w: World, run: seq<Step>, limits: Limits, id: Id)
    requires Initial(w) && AdmissibleRun(w, run, limits)
    ensures var v := After(w, run, limits);
      Redeliveries(v.sends, id) > 0 ==>
        id in v.base && id in v.rows
          && v.base[id] + Redeliveries(v.sends, id) <= v.rows[id].attempts <= limits.maxAttempts
  {
    EveryRunIsSound(w, run, limits);
    var v := After(w, run, limits);
    assert SentOk(v, id);
    assert id in v.rows ==> OwnersOk(v, id, limits);
  }

  lemma {:induction false} WasSentMeaning(sends: seq<Send>, id: Id)
    ensures WasSent(sends, id) <==> exists j :: 0 <= j < |sends| && sends[j].id == id
  {
    if sends != [] {
      var rest := sends[..|sends| - 1];
      WasSentMeaning(rest, id);
      assert forall j :: 0 <= j < |rest| ==> rest[j] == sends[j];
    }
  }

  // --- What the messages say ---

  /** The message is the content, under the marker if that is what its history says. */
  predicate Worded(s: Send, content: string) {
    s.text == (if s.marked then MARKER + content else content)
  }

  /** Whatever was read, is being delivered or was sent of an obligation has its recorded content. */
  ghost predicate Texts(w: World) {
    && (forall k :: k in w.todo ==> k.id in w.rows && w.todo[k].row.content == w.rows[k.id].content)
    && (forall k :: k in w.jobs ==> k.id in w.rows && w.jobs[k].content == w.rows[k.id].content)
    && forall i :: 0 <= i < |w.sends| ==> w.sends[i].id in w.rows && Worded(w.sends[i], w.rows[w.sends[i].id].content)
  }

  ghost predicate ContentsStay(w: World, v: World) {
    forall id :: id in w.rows ==> id in v.rows && v.rows[id].content == w.rows[id].content
  }

  lemma StepKeepsContents(w: World, s: Step, limits: Limits)
    requires Admissible(w, s)
    ensures ContentsStay(w, Next(w, s, limits))
  {
  }

  lemma SweepStepKeepsTexts(w: World, s: Step, limits: Limits)
    requires Texts(w) && (s.Start? || s.Crash? || s.ReadRows? || s.Visit?) && ContentsStay(w, Next(w, s, limits))
    ensures Texts(Next(w, s, limits))
  {
  }

  lemma DeliveryStepKeepsTexts(w: World, s: Step, limits: Limits)
    requires Texts(w) && (s.Record? || s.Mark? || s.Dispatch? || s.Finish?) && Admissible(w, s)
    requires ContentsStay(w, Next(w, s, limits))
    ensures Texts(Next(w, s, limits))
  {
  }

  lemma {:induction false} EveryRunIsWorded(w: World, run: seq<Step>, limits: Limits)
    requires Initial(w) && AdmissibleRun(w, run, limits)
    ensures Texts(After(w, run, limits))
    decreases |run|
  {
    if run != [] {
      var before, s := After(w, run[..|run| - 1], limits), run[|run| - 1];
      EveryRunIsWorded(w, run[..|run| - 1], limits);
      StepKeepsContents(before, s, limits);
      if s.Record? || s.Mark? || s.Dispatch? || s.Finish? {
        DeliveryStepKeepsTexts(before, s, limits);
      } else {
        SweepStepKeepsTexts(before, s, limits);
      }
    }
  }

  /**
   * Every message is the recorded content, bare or under the marker; a bare one repeats an earlier message exactly when
   * its claim was made after a send.
   */
  lemma UnmarkedDuplicateExactlyWhenLate(w: World, run: seq<Step>, limits: Limits, i: nat)
    requires Initial(w) && AdmissibleRun(w, run, limits) && i < |After(w, run, limits).sends|
    ensures var (sends, rows) := (After(w, run, limits).sends, After(w, run, limits).rows);
      && sends[i].id in rows
      && var content := rows[sends[i].id].content;
         || sends[i].text == MARKER + content
         || (sends[i].text == content && (sends[i].late <==> exists j :: 0 <= j < i && sends[j].id == sends[i].id))
  {
    EveryRunIsSound(w, run, limits);
    EveryRunIsWorded(w, run, limits);
    var sends := After(w, run, limits).sends;
    WasSentMeaning(sends[..i], sends[i].id);
    assert forall j :: 0 <= j < i ==> sends[..i][j] == sends[j];
  }

  // --- Claims that look at the row again ---

  /** The claim of a row read as pending finds it pending still. */
  predicate ReadsTrue(w: World, s: Step, limits: Limits) {
    s.Visit? && Claims(w, Key(s.pid, s.id), limits, s.now) && w.todo[Key(s.pid, s.id)].row.state.Pending? ==>
      w.rows[s.id].state.Pending?
  }

  predicate RunReadsTrue(w: World, run: seq<Step>, limits: Limits)
    decreases |run|
  {
    run == [] ||
    (RunReadsTrue(w, run[..|run| - 1], limits) && ReadsTrue(After(w, run[..|run| - 1], limits), run[|run| - 1], limits))
  }

  ghost predicate LateIsMarked(w: World) {
    && (forall k :: k in w.jobs && w.jobs[k].late ==> w.jobs[k].recovered && !w.jobs[k].read.Pending?)
    && (forall i :: 0 <= i < |w.sends| && w.sends[i].late ==> w.sends[i].marked)
  }

  lemma DispatchKeepsLateMarked(w: World, k: Key)
    requires LateIsMarked(w)
    ensures LateIsMarked(DispatchStep(w, k))
  {
  }

  lemma VisitKeepsLateMarked(w: World, k: Key, limits: Limits, now: Time)
    requires LateIsMarked(w) && SentOk(w, k.id)
    requires Claims(w, k, limits, now) && w.todo[k].row.state.Pending? ==> w.rows[k.id].state.Pending?
    ensures LateIsMarked(VisitStep(w, k, limits, now))
  {
  }

  /** A step that sends nothing and begins no late job. */
  lemma OtherStepKeepsLateMarked(w: World, s: Step, limits: Limits)
    requires LateIsMarked(w) && !s.Visit? && !s.Dispatch?
    ensures LateIsMarked(Next(w, s, limits))
  {
    var v := Next(w, s, limits);
    assert v.sends == w.sends;
    forall k | k in v.jobs && v.jobs[k].late
      ensures k in w.jobs && w.jobs[k].(phase := Held) == v.jobs[k].(phase := Held)
    {
    }
  }

  lemma StepKeepsLateMarked(w: World, s: Step, limits: Limits)
    requires Working(w) && LateIsMarked(w) && ReadsTrue(w, s, limits)
    ensures LateIsMarked(Next(w, s, limits))
  {
    match s {
      case Dispatch(p, id) => DispatchKeepsLateMarked(w, Key(p, id));
      case Visit(p, id, now) =>
        assert SentOk(w, id);
        VisitKeepsLateMarked(w, Key(p, id), limits, now);
      case _ => OtherStepKeepsLateMarked(w, s, limits);
    }
  }

  lemma {:induction false} TrueReadsAreMarked(w: World, run: seq<Step>, limits: Limits)
    requires Initial(w) && AdmissibleRun(w, run, limits) && RunReadsTrue(w, run, limits)
    ensures LateIsMarked(After(w, run, limits))
    decreases |run|
  {
    if run != [] {
      var before := run[..|run| - 1];
      TrueReadsAreMarked(w, before, limits);
      EveryRunIsSound(w, before, limits);
      StepKeepsLateMarked(After(w, before, limits), run[|run| - 1], limits);
    }
  }

  /** Then every message after the first is the content under the marker. */
  lemma EverySendAfterTheFirstIsMarked(w: World, run: seq<Step>, limits: Limits, i: nat, j: nat)
    requires Initial(w) && AdmissibleRun(w, run, limits) && RunReadsTrue(w, run, limits)
    requires i < j < |After(w, run, limits).sends|
    requires After(w, run, limits).sends[i].id == After(w, run, limits).sends[j].id
    ensures var v := After(w, run, limits);
      v.sends[j].id in v.rows && v.sends[j].text == MARKER + v.rows[v.sends[j].id].content
  {
    TrueReadsAreMarked(w, run, limits);
    EveryRunIsSound(w, run, limits);
    EveryRunIsWorded(w, run, limits);
    var sends := After(w, run, limits).sends;
    WasSentMeaning(sends[..j], sends[j].id);
    assert sends[..j][i] == sends[i];
  }

  lemma Extend(start: World, w: World, run: seq<Step>, limits: Limits, s: Step, v: World) returns (longer: seq<Step>)
    requires AdmissibleRun(start, run, limits) && After(start, run, limits) == w && Admissible(w, s)
    requires Next(w, s, limits) == v
    ensures AdmissibleRun(start, longer, limits) && After(start, longer, limits) == v
  {
    longer := run + [s];
    assert longer[..|run|] == run;
  }

  const REPLY: string := "hi"
  const UNSENT: Row := Row(State.Pending, 0, Some(1), 0, REPLY, None)
  const SENT: Row := UNSENT.(state := State.Attempting)
  const OWN: Key := Key(1, "a")
  const FOUND: Key := Key(2, "a")

  /** Process 1 has recorded the obligation; process 2 comes up. */
  function Scene(row: Row, todo: map<Key, Seen>, phase: Phase, sends: seq<Send>): World {
    World(map["a" := row], {1, 2}, {}, map["a" := 0], map["a" := [Some(1)]], todo,
          map[OWN := Job(false, State.Pending, REPLY, false, phase)], [], sends)
  }

  const READ: map<Key, Seen> := map[FOUND := Seen(UNSENT, 0)]
  const FIRST: Send := Send("a", 1, REPLY, false, false, false)
  const SECOND: Send := Send("a", 2, REPLY, true, false, true)

  /** Process 1 has sent and died, and process 2 has claimed the row it read while it was pending. */
  function Resumed(row: Row, phase: Phase, sends: seq<Send>): World {
    World(map["a" := row], {2}, {1}, map["a" := 0], map["a" := [Some(1), Some(2)]], map[],
          map[FOUND := Job(true, State.Pending, REPLY, true, phase)], [Takeover("a", 0, Some(1), 2)], sends)
  }

  const EMPTY: World := World(map[], {}, {}, map[], map[], map[], map[], [], [])
  const BOTH: World := EMPTY.(alive := {1, 2})
  const DEAD: World := World(map["a" := SENT], {2}, {1}, map["a" := 0], map["a" := [Some(1)]], READ, map[], [], [FIRST])

  lemma BothRecordAndRead(limits: Limits)
    ensures Next(EMPTY, Start(1), limits) == EMPTY.(alive := {1})
    ensures Next(EMPTY.(alive := {1}), Start(2), limits) == BOTH
    ensures Next(BOTH, Record(1, "a", REPLY, 0), limits) == Scene(UNSENT, map[], Held, [])
  {
    assert {1} + {2} == {1, 2};
    assert RecordRow(map[], "a", REPLY, 1, 0) == map["a" := UNSENT];
    assert [] + [Some(1)] == [Some(1)];
  }

  lemma SecondReads(limits: Limits)
    ensures Next(Scene(UNSENT, map[], Held, []), ReadRows(2), limits) == Scene(UNSENT, READ, Held, [])
  {
    var w := Scene(UNSENT, map[], Held, []);
    assert Recoverable(w.rows["a"]);
    var todo := ReadStep(w, 2).todo;
    forall k ensures k in todo <==> k == FOUND {
    }
    assert todo == READ;
  }

  lemma FirstMarks(limits: Limits)
    ensures Next(Scene(UNSENT, READ, Held, []), Mark(1, "a"), limits) == Scene(SENT, READ, Marked, [])
  {
    assert UpdateState(map["a" := UNSENT], "a", State.Attempting, None) == map["a" := SENT];
  }

  lemma FirstSends(limits: Limits)
    ensures Next(Scene(SENT, READ, Marked, []), Dispatch(1, "a"), limits) == Scene(SENT, READ, Dispatched, [FIRST])
  {
    assert [] + [FIRST] == [FIRST];
  }

  lemma FirstDies(limits: Limits)
    ensures Next(Scene(SENT, READ, Dispatched, [FIRST]), Crash(1), limits) == DEAD
  {
    var v := CrashStep(Scene(SENT, READ, Dispatched, [FIRST]), 1);
    assert v.alive == {2} && v.gone == {1} && v.todo == READ && v.jobs == map[];
  }

  lemma SecondClaims(limits: Limits)
    requires limits.maxAttempts > 0 && limits.staleAfter >= 0
    ensures Next(DEAD, Visit(2, "a", 0), limits) == Resumed(ClaimRow(map["a" := SENT], "a", 2)["a"], Held, [FIRST])
  {
    assert Claims(DEAD, FOUND, limits, 0);
    assert [FIRST][..0] == [];
    assert WasSent([FIRST], "a");
    var v := ClaimStep(DEAD, FOUND);
    assert v.rows == map["a" := ClaimRow(map["a" := SENT], "a", 2)["a"]];
    assert v.todo == map[] && v.takeovers == [Takeover("a", 0, Some(1), 2)];
    assert [Some(1)] + [Some(2)] == [Some(1), Some(2)];
    assert v.owners == map["a" := [Some(1), Some(2)]];
  }

  lemma SecondSends(limits: Limits, row: Row) returns (marked: Row)
    ensures Next(Resumed(row, Held, [FIRST]), Mark(2, "a"), limits) == Resumed(marked, Marked, [FIRST])
    ensures Next(Resumed(marked, Marked, [FIRST]), Dispatch(2, "a"), limits)
      == Resumed(marked, Dispatched, [FIRST, SECOND])
  {
    marked := UpdateState(map["a" := row], "a", State.Attempting, None)["a"];
    assert UpdateState(map["a" := row], "a", State.Attempting, None) == map["a" := marked];
    assert [FIRST] + [SECOND] == [FIRST, SECOND];
  }

  /** Process 1 has recorded the obligation and not sent it; process 2 has read the row. */
  lemma ReadComesFirst(limits: Limits) returns (run: seq<Step>)
    ensures AdmissibleRun(EMPTY, run, limits) && After(EMPTY, run, limits) == Scene(UNSENT, READ, Held, [])
  {
    BothRecordAndRead(limits);
    SecondReads(limits);
    run := Extend(EMPTY, EMPTY, [], limits, Start(1), EMPTY.(alive := {1}));
    run := Extend(EMPTY, EMPTY.(alive := {1}), run, limits, Start(2), BOTH);
    run := Extend(EMPTY, BOTH, run, limits, Record(1, "a", REPLY, 0), Scene(UNSENT, map[], Held, []));
    run := Extend(EMPTY, Scene(UNSENT, map[], Held, []), run, limits, ReadRows(2), Scene(UNSENT, READ, Held, []));
  }

  /** The row is no longer pending, its sender is gone, and process 2 still holds what it read. */
  lemma OwnerSendsAndDies(limits: Limits, before: seq<Step>) returns (run: seq<Step>)
    requires AdmissibleRun(EMPTY, before, limits) && After(EMPTY, before, limits) == Scene(UNSENT, READ, Held, [])
    ensures AdmissibleRun(EMPTY, run, limits) && After(EMPTY, run, limits) == DEAD
  {
    FirstMarks(limits);
    FirstSends(limits);
    FirstDies(limits);
    run := Extend(EMPTY, Scene(UNSENT, READ, Held, []), before, limits, Mark(1, "a"), Scene(SENT, READ, Marked, []));
    run := Extend(EMPTY, Scene(SENT, READ, Marked, []), run, limits, Dispatch(1, "a"),
      Scene(SENT, READ, Dispatched, [FIRST]));
    run := Extend(EMPTY, Scene(SENT, READ, Dispatched, [FIRST]), run, limits, Crash(1), DEAD);
  }

  lemma StaleClaimSendsUnmarked(limits: Limits, before: seq<Step>) returns (v: World, run: seq<Step>)
    requires limits.maxAttempts > 0 && limits.staleAfter >= 0
    requires AdmissibleRun(EMPTY, before, limits) && After(EMPTY, before, limits) == DEAD
    ensures AdmissibleRun(EMPTY, run, limits) && After(EMPTY, run, limits) == v && v.sends == [FIRST, SECOND]
  {
    var row := ClaimRow(map["a" := SENT], "a", 2)["a"];
    SecondClaims(limits);
    var marked := SecondSends(limits, row);
    v := Resumed(marked, Dispatched, [FIRST, SECOND]);
    run := Extend(EMPTY, DEAD, before, limits, Visit(2, "a", 0), Resumed(row, Held, [FIRST]));
    run := Extend(EMPTY, Resumed(row, Held, [FIRST]), run, limits, Mark(2, "a"), Resumed(marked, Marked, [FIRST]));
    run := Extend(EMPTY, Resumed(marked, Marked, [FIRST]), run, limits, Dispatch(2, "a"), v);
  }

  /** The row is read while pending, sent by its owner, and claimed after the owner's crash: no marker. */
  lemma StaleReadIsResentUnmarked(limits: Limits) returns (w: World, run: seq<Step>)
    requires limits.maxAttempts > 0 && limits.staleAfter >= 0
    ensures Initial(w) && AdmissibleRun(w, run, limits)
    ensures var sends := After(w, run, limits).sends;
      |sends| == 2 && sends[0].id == sends[1].id && sends[0].pid != sends[1].pid
      && sends[0].text == sends[1].text == REPLY
  {
    w := EMPTY;
    run := ReadComesFirst(limits);
    run := OwnerSendsAndDies(limits, run);
    var v;
    v, run := StaleClaimSendsUnmarked(limits, run);
  }
}
