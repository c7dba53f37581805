/**
 * Emptying the migrated cron stores: src/migrate/cron_cutover.rs, lines 40-128 and 160-222. A store is named by its
 * directory; `parse` stands for the JSON reader of a store's job ids.
 */
module Cutover {
  import opened Prelude
  import opened Text

  type Dir = string

  datatype Path = StoreFile(dir: Dir) | BackupFile(dir: Dir, stamp: string) | TemporaryFile(dir: Dir, stamp: string)

  type Files = map<Path, string>

  datatype Instant = Instant(stamp: string, rfc3339: string)

  datatype Error =
    | InvalidStore(dir: Dir)
    | JobWithoutId(dir: Dir)
    | NotImported(id: string)
    | Unreadable(path: Path)
    | Changed(dir: Dir)

  type Parser = string -> Option<seq<string>>

  datatype Prepared = Prepared(profile: string, dir: Dir, original: string, jobIds: seq<string>,
    unverified: seq<string>)

  datatype Summary = Summary(profile: string, jobsFound: nat, allImported: bool, wouldEmpty: bool,
    unverified: seq<string>)

  datatype Found = Found(profile: string, dir: Dir)

  function Content(files: Files, path: Path): Option<string> {
    if path in files then Some(files[path]) else None
  }

  function EmptyStore(t: Instant): string {
    "{\"jobs\":[],\"updated_at\":\"" + t.rfc3339 + "\"}"
  }

  // --- Preparing ---

  function ImportedId(profile: string, job: string): string {
    "hermes:" + profile + ":" + job
  }

  function Unverified(profile: string, jobs: seq<string>, imported: set<string>): seq<string> {
    if jobs == [] then []
    else
      var last := jobs[|jobs| - 1];
      Unverified(profile, jobs[..|jobs| - 1], imported) + if ImportedId(profile, last) in imported then [] else [last]
  }

  function JobIds(files: Files, parse: Parser, dir: Dir): Result<seq<string>, Error> {
    match Content(files, StoreFile(dir))
    case None => Ok([])
    case Some(text) =>
      match parse(text)
      case None => Err(InvalidStore(dir))
      case Some(ids) => if exists i :: 0 <= i < |ids| && Trim(ids[i]) == "" then Err(JobWithoutId(dir)) else Ok(ids)
  }

  function PreparedStore(files: Files, parse: Parser, imported: set<string>, f: Found): Result<Prepared, Error> {
    match JobIds(files, parse, f.dir)
    case Err(error) => Err(error)
    case Ok(ids) => Ok(Prepared(f.profile, f.dir, Content(files, StoreFile(f.dir)).GetOr(""), ids,
      Unverified(f.profile, ids, imported)))
  }

  function PreparedAll(files: Files, parse: Parser, imported: set<string>,
                       found: seq<Found>): Result<seq<Prepared>, Error>
  {
    if found == [] then Ok([])
    else
      match PreparedAll(files, parse, imported, found[..|found| - 1])
      case Err(error) => Err(error)
      case Ok(before) =>
        match PreparedStore(files, parse, imported, found[|found| - 1])
        case Err(error) => Err(error)
        case Ok(last) => Ok(before + [last])
  }

  function SummaryOf(p: Prepared): Summary {
    Summary(p.profile, |p.jobIds|, p.unverified == [], p.jobIds != [] && p.unverified == [], p.unverified)
  }

  function Summaries(prepared: seq<Prepared>): seq<Summary> {
    seq(|prepared|, i requires 0 <= i < |prepared| => SummaryOf(prepared[i]))
  }

  /** The first store that has a job nobody imported. */
  function Refusal(prepared: seq<Prepared>): Option<Error> {
    if prepared == [] then None
    else if prepared[0].unverified != [] then
      Some(NotImported(ImportedId(prepared[0].profile, prepared[0].unverified[0])))
    else Refusal(prepared[1..])
  }

  // --- Emptying, with nobody else writing ---

  /** Backup, temporary file, rename. */
  function Emptied(files: Files, p: Prepared, t: Instant): Files {
    var staged := files[BackupFile(p.dir, t.stamp) := p.original][TemporaryFile(p.dir, t.stamp) := EmptyStore(t)];
    (staged - {TemporaryFile(p.dir, t.stamp)})[StoreFile(p.dir) := EmptyStore(t)]
  }

  function CutoverOne(files: Files, p: Prepared, t: Instant): Result<Files, Error> {
    match Content(files, StoreFile(p.dir))
    case None => Err(Unreadable(StoreFile(p.dir)))
    case Some(text) => if text != p.original then Err(Changed(p.dir)) else Ok(Emptied(files, p, t))
  }

  function CutoverAll(files: Files, prepared: seq<Prepared>, clock: nat -> Instant): (Files, Option<Error>) {
    if prepared == [] then (files, None)
    else
      var n := |prepared| - 1;
      var (before, error) := CutoverAll(files, prepared[..n], clock);
      if error.Some? || prepared[n].jobIds == [] then (before, error)
      else match CutoverOne(before, prepared[n], clock(n))
        case Err(e) => (before, Some(e))
        case Ok(after) => (after, None)
  }

  function CutOver(files: Files, parse: Parser, imported: set<string>, found: seq<Found>, clock: nat -> Instant,
                   dryRun: bool)
    : (Files, Result<seq<Summary>, Error>)
  {
    match PreparedAll(files, parse, imported, found)
    case Err(error) => (files, Err(error))
    case Ok(prepared) =>
      if dryRun then (files, Ok(Summaries(prepared)))
      else if Refusal(prepared).Some? then (files, Err(Refusal(prepared).value))
      else
        var (after, error) := CutoverAll(files, prepared, clock);
        (after, if error.Some? then Err(error.value) else Ok(Summaries(prepared)))
  }

  lemma {:induction false} PreparingFails(files: Files, parse: Parser, imported: set<string>, found: seq<Found>, i: nat)
    requires i <= |found| && PreparedAll(files, parse, imported, found[..i]).Err?
    ensures PreparedAll(files, parse, imported, found) == PreparedAll(files, parse, imported, found[..i])
    decreases |found| - i
  {
    if i < |found| {
      assert found[..i + 1][..i] == found[..i];
      PreparingFails(files, parse, imported, found, i + 1);
    } else {
      assert found[..i] == found;
    }
  }

  lemma {:induction false} CutoverFails(files: Files, prepared: seq<Prepared>, clock: nat -> Instant, i: nat)
    requires i <= |prepared| && CutoverAll(files, prepared[..i], clock).1.Some?
    ensures CutoverAll(files, prepared, clock) == CutoverAll(files, prepared[..i], clock)
    decreases |prepared| - i
  {
    if i < |prepared| {
      assert prepared[..i + 1][..i] == prepared[..i];
      CutoverFails(files, prepared, clock, i + 1);
    } else {
      assert prepared[..i] == prepared;
    }
  }

  class FileSystem {
    var files: Files

    constructor (initial: Files)
      ensures files == initial
    {
      files := initial;
    }

    method Write(path: Path, text: string)
      modifies this
      ensures files == old(files)[path := text]
    {
      files := files[path := text];
    }

    method Rename(source: Path, target: Path)
      requires source in files
      modifies this
      ensures files == (old(files) - {source})[target := old(files)[source]]
    {
      var text := files[source];
      files := (files - {source})[target := text];
    }

    method CheckIds(ids: seq<string>) returns (ok: bool)
      ensures ok <==> !exists i :: 0 <= i < |ids| && Trim(ids[i]) == ""
    {
      for i := 0 to |ids|
        invariant forall j :: 0 <= j < i ==> Trim(ids[j]) != ""
      {
        if Trim(ids[i]) == "" {
          return false;
        }
      }
      ok := true;
    }

    method FindUnverified(profile: string, ids: seq<string>, imported: set<string>) returns (unverified: seq<string>)
      ensures unverified == Unverified(profile, ids, imported)
    {
      unverified := [];
      for i := 0 to |ids|
        invariant unverified == Unverified(profile, ids[..i], imported)
      {
        assert ids[..i + 1][..i] == ids[..i];
        if ImportedId(profile, ids[i]) !in imported {
          unverified := unverified + [ids[i]];
        }
      }
      assert ids[..|ids|] == ids;
    }

    method Prepare(parse: Parser, imported: set<string>, f: Found) returns (r: Result<Prepared, Error>)
      ensures r == PreparedStore(files, parse, imported, f)
    {
      var original := if StoreFile(f.dir) in files then files[StoreFile(f.dir)] else "";
      var ids: seq<string> := [];
      if StoreFile(f.dir) in files {
        var parsed := parse(original);
        if parsed.None? {
          return Err(InvalidStore(f.dir));
        }
        ids := parsed.value;
        var ok := CheckIds(ids);
        if !ok {
          return Err(JobWithoutId(f.dir));
        }
      }
      var unverified := FindUnverified(f.profile, ids, imported);
      r := Ok(Prepared(f.profile, f.dir, original, ids, unverified));
    }

    method CutoverStore(p: Prepared, t: Instant) returns (error: Option<Error>)
      modifies this
      ensures match CutoverOne(old(files), p, t)
        case Err(e) => error == Some(e) && files == old(files)
        case Ok(after) => error == None && files == after
    {
      if StoreFile(p.dir) !in files {
        return Some(Unreadable(StoreFile(p.dir)));
      }
      var current := files[StoreFile(p.dir)];
      if current != p.original {
        return Some(Changed(p.dir));
      }
      Write(BackupFile(p.dir, t.stamp), p.original);
      Write(TemporaryFile(p.dir, t.stamp), EmptyStore(t));
      Rename(TemporaryFile(p.dir, t.stamp), StoreFile(p.dir));
      error := None;
    }

    method CutoverCronStores(parse: Parser, imported: set<string>, found: seq<Found>, clock: nat -> Instant,
                             dryRun: bool)
      returns (r: Result<seq<Summary>, Error>)
      modifies this
      ensures (files, r) == CutOver(old(files), parse, imported, found, clock, dryRun)
    {
      var prepared: seq<Prepared> := [];
      for i := 0 to |found|
        invariant files == old(files)
        invariant PreparedAll(files, parse, imported, found[..i]) == Ok(prepared)
      {
        assert found[..i + 1][..i] == found[..i];
        var p := Prepare(parse, imported, found[i]);
        if p.Err? {
          PreparingFails(files, parse, imported, found, i + 1);
          return Err(p.error);
        }
        prepared := prepared + [p.value];
      }
      assert found[..|found|] == found;
      if dryRun {
        return Ok(Summaries(prepared));
      }
      var refusal := Refusal(prepared);
      if refusal.Some? {
        return Err(refusal.value);
      }
      for i := 0 to |prepared|
        invariant CutoverAll(old(files), prepared[..i], clock) == (files, None)
      {
        assert prepared[..i + 1][..i] == prepared[..i];
        if prepared[i].jobIds == [] {
          continue;
        }
        var error := CutoverStore(prepared[i], clock(i));
        if error.Some? {
          CutoverFails(old(files), prepared, clock, i + 1);
          return Err(error.value);
        }
      }
      assert prepared[..|prepared|] == prepared;
      r := Ok(Summaries(prepared));
    }
  }

  lemma {:induction false} RefusedExactlyWhenUnverified(prepared: seq<Prepared>)
    ensures Refusal(prepared).Some? <==> exists i :: 0 <= i < |prepared| && prepared[i].unverified != []
  {
    if prepared != [] {
      RefusedExactlyWhenUnverified(prepared[1..]);
      if i :| 0 <= i < |prepared| && prepared[i].unverified != [] {
        assert i > 0 ==> prepared[1..][i - 1] == prepared[i];
      }
    }
  }

  lemma {:induction false} UnverifiedMeaning(profile: string, jobs: seq<string>, imported: set<string>)
    ensures Unverified(profile, jobs, imported) == [] <==>
      forall i :: 0 <= i < |jobs| ==> ImportedId(profile, jobs[i]) in imported
  {
    if jobs != [] {
      var n := |jobs| - 1;
      UnverifiedMeaning(profile, jobs[..n], imported);
      if Unverified(profile, jobs[..n], imported) != [] {
        var i :| 0 <= i < n && ImportedId(profile, jobs[..n][i]) !in imported;
        assert jobs[i] == jobs[..n][i];
      }
    }
  }

  /** `ids` are the wanted jobs in order: `at` are their positions, which are all there are. */
  ghost predicate Picked(jobs: seq<string>, wanted: seq<bool>, ids: seq<string>, at: seq<int>) {
    && |wanted| == |jobs| && |at| == |ids| && (forall i, j :: 0 <= i < j < |at| ==> at[i] < at[j])
    && (forall i :: 0 <= i < |at| ==> 0 <= at[i] < |jobs| && wanted[at[i]] && ids[i] == jobs[at[i]])
    && forall k :: 0 <= k < |jobs| && wanted[k] ==> k in at
  }

  lemma OneMorePicked(jobs: seq<string>, wanted: seq<bool>, ids: seq<string>, before: seq<int>, n: nat)
    returns (at: seq<int>)
    requires |wanted| == |jobs| == n + 1 && Picked(jobs[..n], wanted[..n], ids, before)
    ensures Picked(jobs, wanted, ids + if wanted[n] then [jobs[n]] else [], at)
  {
    at := if wanted[n] then before + [n] else before;
    forall k | 0 <= k < |jobs| && wanted[k] ensures k in at {
      if k == n {
        assert at[|before|] == n;
      } else {
        assert wanted[..n][k];
        var i :| 0 <= i < |before| && before[i] == k;
        assert at[i] == k;
      }
    }
  }

  function WithoutRow(profile: string, jobs: seq<string>, imported: set<string>): seq<bool> {
    seq(|jobs|, i requires 0 <= i < |jobs| => "hermes:" + profile + ":" + jobs[i] !in imported)
  }

  lemma {:induction false} UnverifiedAre(profile: string, jobs: seq<string>, imported: set<string>)
    returns (at: seq<int>)
    ensures Picked(jobs, WithoutRow(profile, jobs, imported), Unverified(profile, jobs, imported), at)
  {
    at := [];
    if jobs != [] {
      var n := |jobs| - 1;
      var before := UnverifiedAre(profile, jobs[..n], imported);
      var wanted := WithoutRow(profile, jobs, imported);
      assert wanted[..n] == WithoutRow(profile, jobs[..n], imported);
      assert wanted[n] <==> ImportedId(profile, jobs[n]) !in imported;
      at := OneMorePicked(jobs, wanted, Unverified(profile, jobs[..n], imported), before, n);
    }
  }

  /** What is prepared of one store: nothing of a missing one, and else its bytes and jobs, if it can be read. */
  lemma PreparedStoreMeaning(files: Files, parse: Parser, imported: set<string>, f: Found)
    ensures var r := PreparedStore(files, parse, imported, f);
      if StoreFile(f.dir) !in files then r == Ok(Prepared(f.profile, f.dir, "", [], []))
      else
        var text := files[StoreFile(f.dir)];
        if parse(text).None? then r == Err(InvalidStore(f.dir))
        else if exists i :: 0 <= i < |parse(text).value| && Blank(parse(text).value[i]) then
          r == Err(JobWithoutId(f.dir))
        else
          && r.Ok? && r.value.profile == f.profile && r.value.dir == f.dir
          && r.value.original == text && r.value.jobIds == parse(text).value
          && exists at ::
               Picked(parse(text).value, WithoutRow(f.profile, parse(text).value, imported), r.value.unverified, at)
  {
    if StoreFile(f.dir) in files {
      var ids := parse(files[StoreFile(f.dir)]);
      if ids.Some? {
        forall i | 0 <= i < |ids.value| ensures Trim(ids.value[i]) == "" <==> Blank(ids.value[i]) {
          TrimmedAway(ids.value[i]);
        }
        var at := UnverifiedAre(f.profile, ids.value, imported);
      }
    }
  }

  /** The first store that cannot be prepared is the error of them all. */
  lemma {:induction false} FirstErrorIsReturned(
      files: Files, parse: Parser, imported: set<string>, found: seq<Found>, i: nat)
    requires i < |found| && PreparedStore(files, parse, imported, found[i]).Err?
    requires forall k :: 0 <= k < i ==> PreparedStore(files, parse, imported, found[k]).Ok?
    ensures PreparedAll(files, parse, imported, found) == Err(PreparedStore(files, parse, imported, found[i]).error)
  {
    var n := |found| - 1;
    if i < n {
      FirstErrorIsReturned(files, parse, imported, found[..n], i);
    } else {
      AllCanBePrepared(files, parse, imported, found[..n]);
    }
  }

  lemma {:induction false} AllCanBePrepared(files: Files, parse: Parser, imported: set<string>, found: seq<Found>)
    requires forall k :: 0 <= k < |found| ==> PreparedStore(files, parse, imported, found[k]).Ok?
    ensures PreparedAll(files, parse, imported, found).Ok?
  {
    if found != [] {
      var n := |found| - 1;
      assert forall k :: 0 <= k < n ==> found[..n][k] == found[k];
      AllCanBePrepared(files, parse, imported, found[..n]);
    }
  }

  /**
   * A run that does not fail reports every store: how many jobs it has, which of them were not imported, and that it
   * is emptied if it has any and all of them were. A dry run reports the same, and changes nothing.
   */
  lemma SummariesReport(
      files: Files, parse: Parser, imported: set<string>, found: seq<Found>, clock: nat -> Instant, dryRun: bool,
      prepared: seq<Prepared>, i: nat)
    requires PreparedAll(files, parse, imported, found) == Ok(prepared) && i < |prepared|
    ensures var (after, outcome) := CutOver(files, parse, imported, found, clock, dryRun);
      && (dryRun ==> outcome.Ok? && after == files)
      && (outcome.Ok? ==>
            && |outcome.value| == |prepared|
            && var s := outcome.value[i];
               && s.profile == prepared[i].profile && s.jobsFound == |prepared[i].jobIds|
               && s.unverified == prepared[i].unverified && (s.allImported <==> prepared[i].unverified == [])
               && (s.wouldEmpty <==> prepared[i].jobIds != [] && prepared[i].unverified == []))
  {
  }

  /** One job of one store that was not imported, and no file changes at all. */
  lemma OneUnverifiedJobStopsEverything(
      files: Files, parse: Parser, imported: set<string>, found: seq<Found>, clock: nat -> Instant, dryRun: bool,
      prepared: seq<Prepared>, i: nat, j: nat)
    requires PreparedAll(files, parse, imported, found) == Ok(prepared) && i < |prepared| && j < |prepared[i].jobIds|
    requires "hermes:" + prepared[i].profile + ":" + prepared[i].jobIds[j] !in imported
    ensures CutOver(files, parse, imported, found, clock, dryRun).0 == files
    ensures !dryRun ==> CutOver(files, parse, imported, found, clock, dryRun).1.Err?
  {
    PreparedAt(files, parse, imported, found, i);
    UnverifiedMeaning(prepared[i].profile, prepared[i].jobIds, imported);
    RefusedExactlyWhenUnverified(prepared);
  }

  /** The refusal names the first job, of the first store, that was not imported. */
  lemma RefusalNamesTheFirst(
      files: Files, parse: Parser, imported: set<string>, found: seq<Found>, clock: nat -> Instant,
      prepared: seq<Prepared>, i: nat, j: nat)
    requires PreparedAll(files, parse, imported, found) == Ok(prepared) && i < |prepared| && j < |prepared[i].jobIds|
    requires forall k, id :: 0 <= k < i && id in prepared[k].jobIds ==>
      "hermes:" + prepared[k].profile + ":" + id in imported
    requires forall k :: 0 <= k < j ==> "hermes:" + prepared[i].profile + ":" + prepared[i].jobIds[k] in imported
    requires "hermes:" + prepared[i].profile + ":" + prepared[i].jobIds[j] !in imported
    ensures CutOver(files, parse, imported, found, clock, false).1 ==
      Err(NotImported("hermes:" + prepared[i].profile + ":" + prepared[i].jobIds[j]))
  {
    forall k | 0 <= k < i ensures prepared[k].unverified == [] {
      PreparedAt(files, parse, imported, found, k);
      UnverifiedMeaning(prepared[k].profile, prepared[k].jobIds, imported);
    }
    PreparedAt(files, parse, imported, found, i);
    UnverifiedStartsWith(prepared[i].profile, prepared[i].jobIds, imported, j);
    FirstIsRefused(prepared, i);
  }

  lemma {:induction false} UnverifiedStartsWith(profile: string, jobs: seq<string>, imported: set<string>, j: nat)
    requires j < |jobs| && ImportedId(profile, jobs[j]) !in imported
    requires forall k :: 0 <= k < j ==> ImportedId(profile, jobs[k]) in imported
    ensures Unverified(profile, jobs, imported) != [] && Unverified(profile, jobs, imported)[0] == jobs[j]
  {
    var n := |jobs| - 1;
    if j < n {
      UnverifiedStartsWith(profile, jobs[..n], imported, j);
    } else {
      UnverifiedMeaning(profile, jobs[..n], imported);
    }
  }

  lemma {:induction false} FirstIsRefused(prepared: seq<Prepared>, i: nat)
    requires i < |prepared| && prepared[i].unverified != []
    requires forall k :: 0 <= k < i ==> prepared[k].unverified == []
    ensures Refusal(prepared) == Some(NotImported(ImportedId(prepared[i].profile, prepared[i].unverified[0])))
  {
    if i > 0 {
      FirstIsRefused(prepared[1..], i - 1);
    }
  }

  lemma {:induction false} PreparedAt(files: Files, parse: Parser, imported: set<string>, found: seq<Found>, i: nat)
    requires PreparedAll(files, parse, imported, found).Ok?
    ensures |PreparedAll(files, parse, imported, found).value| == |found|
    ensures i < |found| ==>
      PreparedStore(files, parse, imported, found[i]) == Ok(PreparedAll(files, parse, imported, found).value[i])
  {
    if found != [] {
      PreparedAt(files, parse, imported, found[..|found| - 1], i);
    }
  }

  // --- Emptying, with others writing and crashes at every point ---

  datatype Phase = Idle | Locked | Checked | BackedUp(t: Instant) | Staged(t: Instant) | Stopped

  /** `outside` and `kept` are history: what others last made of each store, and the stamps of the finished backups. */
  datatype World = World(
    files: Files, at: nat, phase: Phase, outside: map<Dir, Option<string>>, kept: map<Dir, string>)

  /**
   * `Edit` is another program writing or removing a store; `Stop` is a crash or a failed operation after `k`
   * characters.
   */
  datatype Step = Edit(dir: Dir, text: Option<string>) | Advance(t: Instant) | Stop(k: nat, t: Instant)

  /** Others respect the lock that the store in hand is under. */
  predicate LockedOut(w: World, prepared: seq<Prepared>, dir: Dir) {
    w.at < |prepared| && !w.phase.Idle? && !w.phase.Stopped? && prepared[w.at].dir == dir
  }

  function EditStep(w: World, prepared: seq<Prepared>, dir: Dir, text: Option<string>): World {
    if LockedOut(w, prepared, dir) then w
    else
      w.(files := if text.Some? then w.files[StoreFile(dir) := text.value] else w.files - {StoreFile(dir)},
         outside := w.outside[dir := text])
  }

  function AdvanceStep(w: World, prepared: seq<Prepared>, t: Instant): World {
    if w.at >= |prepared| then w
    else
      var p := prepared[w.at];
      match w.phase
      case Idle => if p.jobIds == [] then w.(at := w.at + 1) else w.(phase := Locked)
      case Locked => w.(phase := if Content(w.files, StoreFile(p.dir)) == Some(p.original) then Checked else Stopped)
      case Checked => w.(phase := BackedUp(t), files := w.files[BackupFile(p.dir, t.stamp) := p.original])
      case BackedUp(u) => w.(phase := Staged(u), files := w.files[TemporaryFile(p.dir, u.stamp) := EmptyStore(u)])
      case Staged(u) =>
        w.(phase := Idle, at := w.at + 1, kept := w.kept[p.dir := u.stamp],
           files := (w.files - {TemporaryFile(p.dir, u.stamp)})[StoreFile(p.dir) := EmptyStore(u)])
      case Stopped => w
  }

  function Prefix(text: string, k: nat): string {
    if k < |text| then text[..k] else text
  }

  /** What each undisturbed step writes: the backup, the empty store beside the store, and that one in its place. */
  lemma StepsWrite(w: World, prepared: seq<Prepared>, t: Instant)
    requires w.at < |prepared|
    ensures var (v, p) := (AdvanceStep(w, prepared, t), prepared[w.at]);
      match w.phase
      case Checked => v.phase == BackedUp(t) && v.files == w.files[BackupFile(p.dir, t.stamp) := p.original]
      case BackedUp(u) => v.phase == Staged(u) && v.files == w.files[TemporaryFile(p.dir, u.stamp) := EmptyStore(u)]
      case Staged(u) =>
        && v.phase == Idle && v.at == w.at + 1
        && v.files == (w.files - {TemporaryFile(p.dir, u.stamp)})[StoreFile(p.dir) := EmptyStore(u)]
      case _ => v.files == w.files
  {
  }

  /** A write that does not finish leaves part of the text; a rename happens or does not. */
  function StopStep(w: World, prepared: seq<Prepared>, k: nat, t: Instant): World {
    if w.at >= |prepared| then w.(phase := Stopped)
    else
      var p := prepared[w.at];
      match w.phase
      case Checked => w.(phase := Stopped, files := w.files[BackupFile(p.dir, t.stamp) := Prefix(p.original, k)])
      case BackedUp(u) => w.(phase := Stopped,
        files := w.files[TemporaryFile(p.dir, u.stamp) := Prefix(EmptyStore(u), k)])
      case _ => w.(phase := Stopped)
  }

  /** A crash or a failed write leaves as much of the file being written as it likes, and every other file. */
  lemma StopLeavesAPrefix(w: World, prepared: seq<Prepared>, k: nat, t: Instant)
    requires w.at < |prepared|
    ensures var (v, dir) := (StopStep(w, prepared, k, t), prepared[w.at].dir);
      && v.phase.Stopped?
      && (w.phase.Checked? ==>
            v.files == w.files[BackupFile(dir, t.stamp) := Prefix(prepared[w.at].original, k)])
      && (w.phase.BackedUp? ==>
            v.files == w.files[TemporaryFile(dir, w.phase.t.stamp) := Prefix(EmptyStore(w.phase.t), k)])
      && (!w.phase.Checked? && !w.phase.BackedUp? ==> v.files == w.files)
  {
  }

  function Next(w: World, prepared: seq<Prepared>, s: Step): World {
    match s
    case Edit(dir, text) => EditStep(w, prepared, dir, text)
    case Advance(t) => AdvanceStep(w, prepared, t)
    case Stop(k, t) => StopStep(w, prepared, k, t)
  }

  function After(w: World, prepared: seq<Prepared>, run: seq<Step>): World {
    if run == [] then w else Next(After(w, prepared, run[..|run| - 1]), prepared, run[|run| - 1])
  }

  ghost predicate DistinctDirs(prepared: seq<Prepared>) {
    forall i, j :: 0 <= i < j < |prepared| ==> prepared[i].dir != prepared[j].dir
  }

  /** A store with the bytes it was prepared from, or a missing one. */
  predicate ReadAs(store: Option<string>, p: Prepared) {
    store == Some(p.original) || (p.jobIds == [] && p.original == "" && store.None?)
  }

  /** The state of one store: emptied with its bytes kept, or as it was verified, or as others left it. */
  ghost predicate StoreOk(w: World, prepared: seq<Prepared>, j: nat)
    requires j < |prepared|
  {
    var p := prepared[j];
    var store := Content(w.files, StoreFile(p.dir));
    && (j < w.at && p.jobIds != [] ==>
          p.dir in w.kept && Content(w.files, BackupFile(p.dir, w.kept[p.dir])) == Some(p.original))
    && (j >= w.at || p.jobIds == [] ==> if p.dir in w.outside then store == w.outside[p.dir] else ReadAs(store, p))
    && (p.dir in w.outside && w.outside[p.dir] != Some(p.original) ==> store == w.outside[p.dir])
  }

  ghost predicate PhaseOk(w: World, prepared: seq<Prepared>) {
    w.at < |prepared| ==>
      var p := prepared[w.at];
      && (!w.phase.Idle? && !w.phase.Stopped? ==> p.jobIds != [])
      && (w.phase.Checked? || w.phase.BackedUp? || w.phase.Staged? ==>
        Content(w.files, StoreFile(p.dir)) == Some(p.original))
      && (w.phase.BackedUp? || w.phase.Staged? ==>
        Content(w.files, BackupFile(p.dir, w.phase.t.stamp)) == Some(p.original))
  }

  ghost predicate Inv(w: World, prepared: seq<Prepared>) {
    PhaseOk(w, prepared) && forall j :: 0 <= j < |prepared| ==> StoreOk(w, prepared, j)
  }

  /** The cutover begins: every store is as it was read, or as others left it since. */
  ghost predicate Initial(w: World, prepared: seq<Prepared>) {
    && w.at == 0 && w.phase == Idle && w.kept == map[]
    && forall j :: 0 <= j < |prepared| ==>
         var (dir, store) := (prepared[j].dir, Content(w.files, StoreFile(prepared[j].dir)));
         if dir in w.outside then store == w.outside[dir] else ReadAs(store, prepared[j])
  }

  lemma EditKeepsStore(w: World, prepared: seq<Prepared>, s: Step, j: nat)
    requires s.Edit? && j < |prepared| && StoreOk(w, prepared, j)
    ensures StoreOk(Next(w, prepared, s), prepared, j)
  {
  }

  lemma StopKeepsStore(w: World, prepared: seq<Prepared>, s: Step, j: nat)
    requires s.Stop? && j < |prepared| && DistinctDirs(prepared) && PhaseOk(w, prepared) && StoreOk(w, prepared, j)
    ensures StoreOk(Next(w, prepared, s), prepared, j)
  {
  }

  lemma AdvanceKeepsStore(w: World, prepared: seq<Prepared>, s: Step, j: nat)
    requires s.Advance? && j < |prepared| && DistinctDirs(prepared) && PhaseOk(w, prepared) && StoreOk(w, prepared, j)
    ensures StoreOk(Next(w, prepared, s), prepared, j)
  {
  }

  lemma StepKeepsStore(w: World, prepared: seq<Prepared>, s: Step, j: nat)
    requires DistinctDirs(prepared) && j < |prepared| && PhaseOk(w, prepared) && StoreOk(w, prepared, j)
    ensures StoreOk(Next(w, prepared, s), prepared, j)
  {
    match s {
      case Edit(_, _) => EditKeepsStore(w, prepared, s, j);
      case Stop(_, _) => StopKeepsStore(w, prepared, s, j);
      case Advance(_) => AdvanceKeepsStore(w, prepared, s, j);
    }
  }

  lemma StepKeepsPhase(w: World, prepared: seq<Prepared>, s: Step)
    requires PhaseOk(w, prepared)
    ensures PhaseOk(Next(w, prepared, s), prepared)
  {
  }

  lemma {:induction false} EveryPointIsSafe(w: World, prepared: seq<Prepared>, run: seq<Step>)
    requires DistinctDirs(prepared) && Initial(w, prepared)
    ensures Inv(After(w, prepared, run), prepared)
  {
    if run != [] {
      var before, s := After(w, prepared, run[..|run| - 1]), run[|run| - 1];
      EveryPointIsSafe(w, prepared, run[..|run| - 1]);
      StepKeepsPhase(before, prepared, s);
      forall j | 0 <= j < |prepared| ensures StoreOk(Next(before, prepared, s), prepared, j) {
        StepKeepsStore(before, prepared, s, j);
      }
    }
  }

  /** At every point the verified bytes are in the store or in a backup, unless others replaced them first. */
  lemma VerifiedBytesAreNeverLost(w: World, prepared: seq<Prepared>, run: seq<Step>, j: nat)
    requires DistinctDirs(prepared) && Initial(w, prepared) && j < |prepared|
    ensures var (v, p) := (After(w, prepared, run), prepared[j]);
      || ReadAs(Content(v.files, StoreFile(p.dir)), p)
      || (exists stamp :: Content(v.files, BackupFile(p.dir, stamp)) == Some(p.original))
      || (p.dir in v.outside && Content(v.files, StoreFile(p.dir)) == v.outside[p.dir])
  {
    EveryPointIsSafe(w, prepared, run);
    assert StoreOk(After(w, prepared, run), prepared, j);
  }

  /** What others wrote in place of the verified bytes is never overwritten. */
  lemma OutsideChangesSurvive(w: World, prepared: seq<Prepared>, run: seq<Step>, j: nat)
    requires DistinctDirs(prepared) && Initial(w, prepared) && j < |prepared|
    requires var v := After(w, prepared, run);
      prepared[j].dir in v.outside && v.outside[prepared[j].dir] != Some(prepared[j].original)
    ensures var v := After(w, prepared, run);
      Content(v.files, StoreFile(prepared[j].dir)) == v.outside[prepared[j].dir]
  {
    EveryPointIsSafe(w, prepared, run);
    assert StoreOk(After(w, prepared, run), prepared, j);
  }

  lemma StopsMoveNoStore(w: World, prepared: seq<Prepared>, s: Step, dir: Dir)
    requires s.Stop?
    ensures Content(Next(w, prepared, s).files, StoreFile(dir)) == Content(w.files, StoreFile(dir))
  {
  }

  lemma OnlyRenamesMoveStores(w: World, prepared: seq<Prepared>, s: Step, dir: Dir)
    requires !s.Edit? && Content(Next(w, prepared, s).files, StoreFile(dir)) != Content(w.files, StoreFile(dir))
    ensures w.at < |prepared| && w.phase.Staged? && prepared[w.at].dir == dir
    ensures Content(Next(w, prepared, s).files, StoreFile(dir)) == Some(EmptyStore(w.phase.t))
  {
    if s.Stop? {
      StopsMoveNoStore(w, prepared, s, dir);
    } else if w.at < |prepared| && w.phase.Staged? {
      RenameMovesOneStore(w, prepared, s.t, dir);
    }
  }

  lemma RenameMovesOneStore(w: World, prepared: seq<Prepared>, t: Instant, dir: Dir)
    requires w.at < |prepared| && w.phase.Staged?
    ensures Content(AdvanceStep(w, prepared, t).files, StoreFile(dir)) ==
      if prepared[w.at].dir == dir then Some(EmptyStore(w.phase.t)) else Content(w.files, StoreFile(dir))
  {
  }

  /**
   * The cutover changes only stores that have jobs, and those only from their verified bytes, with a whole backup in
   * place, and to the empty store.
   */
  lemma OnlyBackedUpStoresAreEmptied(w: World, prepared: seq<Prepared>, run: seq<Step>, s: Step, dir: Dir)
    requires DistinctDirs(prepared) && Initial(w, prepared) && !s.Edit?
    requires var v := After(w, prepared, run);
      Content(Next(v, prepared, s).files, StoreFile(dir)) != Content(v.files, StoreFile(dir))
    ensures var v := After(w, prepared, run);
      && v.at < |prepared| && v.phase.Staged? && prepared[v.at].dir == dir && prepared[v.at].jobIds != []
      && Content(v.files, StoreFile(dir)) == Some(prepared[v.at].original)
      && Content(v.files, BackupFile(dir, v.phase.t.stamp)) == Some(prepared[v.at].original)
      && Content(Next(v, prepared, s).files, StoreFile(dir)) == Some(EmptyStore(v.phase.t))
  {
    EveryPointIsSafe(w, prepared, run);
    OnlyRenamesMoveStores(After(w, prepared, run), prepared, s, dir);
  }

  function Ticks(w: World, prepared: seq<Prepared>, t: Instant, n: nat): World {
    if n == 0 then w else AdvanceStep(Ticks(w, prepared, t, n - 1), prepared, t)
  }

  lemma TwoTicksCheck(w: World, prepared: seq<Prepared>, t: Instant)
    requires w.at < |prepared| && w.phase == Idle && prepared[w.at].jobIds != []
    ensures Ticks(w, prepared, t, 2)
      == w.(phase := if Content(w.files, StoreFile(prepared[w.at].dir)) == Some(prepared[w.at].original) then Checked
        else Stopped)
  {
    assert Ticks(w, prepared, t, 1) == AdvanceStep(Ticks(w, prepared, t, 0), prepared, t);
  }

  /**
   * With nobody else writing, five steps do to a store with jobs what the sequential cutover does, or two refuse it; a
   * store without jobs is passed over.
   */
  lemma AloneIsSequential(w: World, prepared: seq<Prepared>, t: Instant)
    requires w.at < |prepared| && w.phase == Idle
    ensures prepared[w.at].jobIds == [] ==> Ticks(w, prepared, t, 1) == w.(at := w.at + 1)
    ensures prepared[w.at].jobIds != [] ==>
      match CutoverOne(w.files, prepared[w.at], t)
      case Err(_) => Ticks(w, prepared, t, 2) == w.(phase := Stopped)
      case Ok(files) =>
        Ticks(w, prepared, t, 5) == w.(files := files, at := w.at + 1, kept := w.kept[prepared[w.at].dir := t.stamp])
  {
    assert Ticks(w, prepared, t, 1) == AdvanceStep(Ticks(w, prepared, t, 0), prepared, t);
    if prepared[w.at].jobIds != [] {
      TwoTicksCheck(w, prepared, t);
      assert Ticks(w, prepared, t, 3) == AdvanceStep(Ticks(w, prepared, t, 2), prepared, t);
      assert Ticks(w, prepared, t, 4) == AdvanceStep(Ticks(w, prepared, t, 3), prepared, t);
      assert Ticks(w, prepared, t, 5) == AdvanceStep(Ticks(w, prepared, t, 4), prepared, t);
    }
  }

  ghost predicate Undisturbed(run: seq<Step>) {
    forall i :: 0 <= i < |run| ==> run[i].Advance?
  }

  lemma {:induction false} TicksAreARun(w: World, prepared: seq<Prepared>, before: seq<Step>, t: Instant, n: nat)
    returns (run: seq<Step>)
    requires Undisturbed(before)
    ensures Undisturbed(run) && After(w, prepared, run) == Ticks(After(w, prepared, before), prepared, t, n)
  {
    if n == 0 {
      run := before;
    } else {
      var shorter := TicksAreARun(w, prepared, before, t, n - 1);
      run := shorter + [Advance(t)];
      assert run[..|shorter|] == shorter;
    }
  }

  /**
   * What the steps have done, and where they stand, when the sequential cutover has gone through the first `n` stores.
   */
  ghost predicate Matches(w: World, v: World, prepared: seq<Prepared>, clock: nat -> Instant, n: nat)
    requires n <= |prepared|
  {
    var (files, error) := CutoverAll(w.files, prepared[..n], clock);
    v.files == files && if error.Some? then v.phase == Stopped else v.phase == Idle && v.at == n
  }

  lemma OneMoreMatches(w: World, v: World, prepared: seq<Prepared>, clock: nat -> Instant, n: nat) returns (ticks: nat)
    requires n < |prepared| && Matches(w, v, prepared, clock, n)
    ensures Matches(w, Ticks(v, prepared, clock(n), ticks), prepared, clock, n + 1)
  {
    assert prepared[..n + 1][..n] == prepared[..n];
    if v.phase == Stopped {
      ticks := 0;
    } else {
      AloneIsSequential(v, prepared, clock(n));
      ticks := if prepared[n].jobIds == [] then 1 else if CutoverOne(v.files, prepared[n], clock(n)).Ok? then 5 else 2;
    }
  }

  lemma {:induction false} AloneMatches(w: World, prepared: seq<Prepared>, clock: nat -> Instant, n: nat)
    returns (run: seq<Step>)
    requires n <= |prepared| && w.at == 0 && w.phase == Idle
    ensures Undisturbed(run) && Matches(w, After(w, prepared, run), prepared, clock, n)
  {
    if n == 0 {
      run := [];
      assert prepared[..0] == [];
    } else {
      var before := AloneMatches(w, prepared, clock, n - 1);
      var ticks := OneMoreMatches(w, After(w, prepared, before), prepared, clock, n - 1);
      run := TicksAreARun(w, prepared, before, clock(n - 1), ticks);
    }
  }

  lemma PreparedIsInitial(files: Files, parse: Parser, imported: set<string>, found: seq<Found>,
                          prepared: seq<Prepared>)
    requires PreparedAll(files, parse, imported, found) == Ok(prepared)
    ensures Initial(World(files, 0, Idle, map[], map[]), prepared)
  {
    forall j | 0 <= j < |prepared| ensures ReadAs(Content(files, StoreFile(prepared[j].dir)), prepared[j]) {
      PreparedAt(files, parse, imported, found, 0);
      PreparedAt(files, parse, imported, found, j);
    }
  }

  /**
   * The sequential cutover is one run of the protocol: what it prepared is where the protocol starts, and some run in
   * which nobody else writes leaves the files the sequential cutover leaves, stopped if and only if that fails.
   */
  lemma CutoverIsARun(
      files: Files, parse: Parser, imported: set<string>, found: seq<Found>, clock: nat -> Instant,
      prepared: seq<Prepared>)
      returns (run: seq<Step>)
    requires PreparedAll(files, parse, imported, found) == Ok(prepared) && Refusal(prepared).None?
    ensures var w := World(files, 0, Idle, map[], map[]);
      var v := After(w, prepared, run);
      && Initial(w, prepared) && Undisturbed(run)
      && v.files == CutOver(files, parse, imported, found, clock, false).0
      && (v.phase == Stopped <==> CutOver(files, parse, imported, found, clock, false).1.Err?)
  {
    PreparedIsInitial(files, parse, imported, found, prepared);
    run := AloneMatches(World(files, 0, Idle, map[], map[]), prepared, clock, |prepared|);
    assert prepared[..|prepared|] == prepared;
  }

  // --- What a whole run does, and a second run ---

  ghost predicate Untouched(prepared: seq<Prepared>, dir: Dir) {
    forall j :: 0 <= j < |prepared| && prepared[j].jobIds != [] ==> prepared[j].dir != dir
  }

  lemma EmptiedElsewhere(files: Files, p: Prepared, t: Instant, path: Path)
    requires path.dir != p.dir
    ensures Content(Emptied(files, p, t), path) == Content(files, path)
  {
  }

  lemma {:induction false} OtherDirectoriesStay(files: Files, prepared: seq<Prepared>, clock: nat -> Instant,
                                                path: Path)
    requires Untouched(prepared, path.dir)
    ensures Content(CutoverAll(files, prepared, clock).0, path) == Content(files, path)
  {
    if prepared != [] {
      var n := |prepared| - 1;
      var (before, error) := CutoverAll(files, prepared[..n], clock);
      forall j | 0 <= j < n && prepared[..n][j].jobIds != [] ensures prepared[..n][j].dir != path.dir {
        assert prepared[j].dir != path.dir;
      }
      OtherDirectoriesStay(files, prepared[..n], clock, path);
      if prepared[n].jobIds != [] {
        EmptiedElsewhere(before, prepared[n], clock(n), path);
      }
    }
  }

  /** A run that succeeds empties exactly the stores that had jobs, from their verified bytes, which it keeps. */
  lemma {:induction false} EveryStoreWithJobsIsEmptied(files: Files, prepared: seq<Prepared>, clock: nat -> Instant,
                                                       j: nat)
    requires DistinctDirs(prepared) && CutoverAll(files, prepared, clock).1.None? && j < |prepared|
    requires prepared[j].jobIds != []
    ensures var (after, p) := (CutoverAll(files, prepared, clock).0, prepared[j]);
      && Content(files, StoreFile(p.dir)) == Some(p.original)
      && Content(after, StoreFile(p.dir)) == Some(EmptyStore(clock(j)))
      && Content(after, BackupFile(p.dir, clock(j).stamp)) == Some(p.original)
  {
    var n := |prepared| - 1;
    var before, p := CutoverAll(files, prepared[..n], clock).0, prepared[j];
    if j < n {
      EveryStoreWithJobsIsEmptied(files, prepared[..n], clock, j);
      LastLeavesOthers(files, prepared, clock, StoreFile(p.dir));
      LastLeavesOthers(files, prepared, clock, BackupFile(p.dir, clock(j).stamp));
    } else {
      OtherDirectoriesStay(files, prepared[..n], clock, StoreFile(p.dir));
      EmptiedHere(before, p, clock(n));
    }
  }

  lemma EmptiedHere(files: Files, p: Prepared, t: Instant)
    ensures Content(Emptied(files, p, t), StoreFile(p.dir)) == Some(EmptyStore(t))
    ensures Content(Emptied(files, p, t), BackupFile(p.dir, t.stamp)) == Some(p.original)
  {
  }

  lemma LastLeavesOthers(files: Files, prepared: seq<Prepared>, clock: nat -> Instant, path: Path)
    requires prepared != [] && prepared[|prepared| - 1].dir != path.dir && CutoverAll(files, prepared, clock).1.None?
    ensures CutoverAll(files, prepared[..|prepared| - 1], clock).1.None?
    ensures Content(CutoverAll(files, prepared, clock).0, path) ==
            Content(CutoverAll(files, prepared[..|prepared| - 1], clock).0, path)
  {
    var n := |prepared| - 1;
    EmptiedElsewhere(CutoverAll(files, prepared[..n], clock).0, prepared[n], clock(n), path);
  }

  /** The reader finds no job in a store that was emptied. */
  ghost predicate ReadsEmpty(parse: Parser) {
    forall t: string :: parse("{\"jobs\":[],\"updated_at\":\"" + t + "\"}") == Some([])
  }

  lemma EmptyStoreHasNoJobs(files: Files, parse: Parser, dir: Dir, t: Instant)
    requires ReadsEmpty(parse) && Content(files, StoreFile(dir)) == Some(EmptyStore(t))
    ensures JobIds(files, parse, dir) == Ok([])
  {
  }

  lemma SameStoreSameJobs(before: Files, after: Files, parse: Parser, dir: Dir)
    requires Content(after, StoreFile(dir)) == Content(before, StoreFile(dir))
    ensures JobIds(after, parse, dir) == JobIds(before, parse, dir)
  {
  }

  lemma PreparedIds(files: Files, parse: Parser, imported: set<string>, f: Found, p: Prepared)
    requires PreparedStore(files, parse, imported, f) == Ok(p)
    ensures p.dir == f.dir && JobIds(files, parse, f.dir) == Ok(p.jobIds)
  {
  }

  lemma JoblessIsUntouched(prepared: seq<Prepared>, i: nat)
    requires DistinctDirs(prepared) && i < |prepared| && prepared[i].jobIds == []
    ensures Untouched(prepared, prepared[i].dir)
  {
  }

  lemma JobsAreGone(
      files: Files, parse: Parser, imported: set<string>, found: seq<Found>, clock: nat -> Instant,
      prepared: seq<Prepared>, i: nat)
    requires ReadsEmpty(parse) && PreparedAll(files, parse, imported, found) == Ok(prepared) && i < |found|
    requires DistinctDirs(prepared) && CutoverAll(files, prepared, clock).1.None?
    ensures JobIds(CutoverAll(files, prepared, clock).0, parse, found[i].dir) == Ok([])
  {
    PreparedAt(files, parse, imported, found, i);
    PreparedIds(files, parse, imported, found[i], prepared[i]);
    var dir := found[i].dir;
    var after := CutoverAll(files, prepared, clock).0;
    if prepared[i].jobIds == [] {
      JoblessIsUntouched(prepared, i);
      OtherDirectoriesStay(files, prepared, clock, StoreFile(dir));
      SameStoreSameJobs(files, after, parse, dir);
    } else {
      EveryStoreWithJobsIsEmptied(files, prepared, clock, i);
      EmptyStoreHasNoJobs(after, parse, dir, clock(i));
    }
  }

  lemma {:induction false} NothingToPrepare(files: Files, parse: Parser, imported: set<string>, found: seq<Found>)
    requires forall i :: 0 <= i < |found| ==> JobIds(files, parse, found[i].dir) == Ok([])
    ensures var r := PreparedAll(files, parse, imported, found);
      r.Ok? && forall i :: 0 <= i < |r.value| ==> r.value[i].jobIds == [] && r.value[i].unverified == []
  {
    if found != [] {
      NothingToPrepare(files, parse, imported, found[..|found| - 1]);
    }
  }

  lemma {:induction false} NoJobsNoChange(files: Files, prepared: seq<Prepared>, clock: nat -> Instant)
    requires forall i :: 0 <= i < |prepared| ==> prepared[i].jobIds == []
    ensures CutoverAll(files, prepared, clock) == (files, None)
  {
    if prepared != [] {
      NoJobsNoChange(files, prepared[..|prepared| - 1], clock);
    }
  }

  lemma PreparedDirs(files: Files, parse: Parser, imported: set<string>, found: seq<Found>, prepared: seq<Prepared>)
    requires PreparedAll(files, parse, imported, found) == Ok(prepared)
    requires forall i, j :: 0 <= i < j < |found| ==> found[i].dir != found[j].dir
    ensures |prepared| == |found| && DistinctDirs(prepared)
  {
    PreparedAt(files, parse, imported, found, 0);
    forall i | 0 <= i < |prepared| ensures prepared[i].dir == found[i].dir {
      PreparedAt(files, parse, imported, found, i);
    }
  }

  lemma NothingLeftToEmpty(files: Files, parse: Parser, imported: set<string>, found: seq<Found>, clock: nat -> Instant)
    requires forall i :: 0 <= i < |found| ==> JobIds(files, parse, found[i].dir) == Ok([])
    ensures CutOver(files, parse, imported, found, clock, false).0 == files
    ensures CutOver(files, parse, imported, found, clock, false).1.Ok?
  {
    NothingToPrepare(files, parse, imported, found);
    var prepared := PreparedAll(files, parse, imported, found).value;
    RefusedExactlyWhenUnverified(prepared);
    NoJobsNoChange(files, prepared, clock);
  }

  /** Run again after a success, the cutover succeeds and changes no file: no second backup replaces the first. */
  lemma SecondRunChangesNothing(
      files: Files, parse: Parser, imported: set<string>, found: seq<Found>, clock: nat -> Instant,
      later: nat -> Instant)
    requires ReadsEmpty(parse) && (forall i, j :: 0 <= i < j < |found| ==> found[i].dir != found[j].dir)
    requires CutOver(files, parse, imported, found, clock, false).1.Ok?
    ensures var after := CutOver(files, parse, imported, found, clock, false).0;
      CutOver(after, parse, imported, found, later, false).0 == after
        && CutOver(after, parse, imported, found, later, false).1.Ok?
  {
    var prepared := PreparedAll(files, parse, imported, found).value;
    PreparedDirs(files, parse, imported, found, prepared);
    var after := CutoverAll(files, prepared, clock).0;
    forall i | 0 <= i < |found| ensures JobIds(after, parse, found[i].dir) == Ok([]) {
      JobsAreGone(files, parse, imported, found, clock, prepared, i);
    }
    NothingLeftToEmpty(after, parse, imported, found, later);
  }

  // --- A run after one that was stopped ---

  ghost predicate IsEmptied(store: Option<string>) {
    store.Some? && exists t :: store.value == EmptyStore(t)
  }

  ghost predicate NoEdits(run: seq<Step>) {
    forall i :: 0 <= i < |run| ==> !run[i].Edit?
  }

  /** With nobody else writing: each store is as it was, or it has jobs and is empty with its bytes kept. */
  ghost predicate AsPreparedOrEmptied(start: Files, w: World, prepared: seq<Prepared>, j: nat)
    requires j < |prepared|
  {
    var p := prepared[j];
    if j < w.at && p.jobIds != [] then
      && IsEmptied(Content(w.files, StoreFile(p.dir)))
      && exists stamp :: Content(w.files, BackupFile(p.dir, stamp)) == Some(p.original)
    else Content(w.files, StoreFile(p.dir)) == Content(start, StoreFile(p.dir))
  }

  lemma StopKeepsAsPrepared(start: Files, w: World, prepared: seq<Prepared>, s: Step, j: nat)
    requires s.Stop? && j < |prepared| && DistinctDirs(prepared) && PhaseOk(w, prepared)
    requires AsPreparedOrEmptied(start, w, prepared, j)
    ensures AsPreparedOrEmptied(start, Next(w, prepared, s), prepared, j)
  {
    var v := Next(w, prepared, s);
    var p := prepared[j];
    StopsMoveNoStore(w, prepared, s, p.dir);
    if j < w.at && p.jobIds != [] {
      var stamp :| Content(w.files, BackupFile(p.dir, stamp)) == Some(p.original);
      assert Content(v.files, BackupFile(p.dir, stamp)) == Some(p.original);
    }
  }

  lemma RenameEmpties(start: Files, w: World, prepared: seq<Prepared>, t: Instant)
    requires w.at < |prepared| && PhaseOk(w, prepared) && w.phase.Staged?
    ensures AsPreparedOrEmptied(start, AdvanceStep(w, prepared, t), prepared, w.at)
  {
    var v := AdvanceStep(w, prepared, t);
    var p := prepared[w.at];
    assert Content(v.files, StoreFile(p.dir)) == Some(EmptyStore(w.phase.t));
    assert Content(v.files, BackupFile(p.dir, w.phase.t.stamp)) == Some(p.original);
  }

  lemma AdvanceLeavesBackups(w: World, prepared: seq<Prepared>, t: Instant, dir: Dir, stamp: string)
    requires w.at < |prepared| ==> prepared[w.at].dir != dir
    ensures var v := AdvanceStep(w, prepared, t);
      && Content(v.files, BackupFile(dir, stamp)) == Content(w.files, BackupFile(dir, stamp))
      && Content(v.files, StoreFile(dir)) == Content(w.files, StoreFile(dir))
  {
  }

  /** Before its rename no step touches the store in hand. */
  lemma OnlyTheRenameCounts(w: World, prepared: seq<Prepared>, t: Instant)
    requires w.at < |prepared| && !w.phase.Staged?
    ensures var v := AdvanceStep(w, prepared, t);
      && Content(v.files, StoreFile(prepared[w.at].dir)) == Content(w.files, StoreFile(prepared[w.at].dir))
      && (v.at == w.at || (v.at == w.at + 1 && prepared[w.at].jobIds == []))
  {
  }

  lemma AdvanceKeepsAsPrepared(start: Files, w: World, prepared: seq<Prepared>, s: Step, j: nat)
    requires s.Advance? && j < |prepared| && DistinctDirs(prepared) && PhaseOk(w, prepared)
    requires AsPreparedOrEmptied(start, w, prepared, j)
    ensures AsPreparedOrEmptied(start, Next(w, prepared, s), prepared, j)
  {
    var v := Next(w, prepared, s);
    var p := prepared[j];
    if j == w.at {
      if w.phase.Staged? {
        RenameEmpties(start, w, prepared, s.t);
      } else {
        OnlyTheRenameCounts(w, prepared, s.t);
      }
    } else {
      AdvanceLeavesBackups(w, prepared, s.t, p.dir, "");
      if j < w.at && p.jobIds != [] {
        var stamp :| Content(w.files, BackupFile(p.dir, stamp)) == Some(p.original);
        AdvanceLeavesBackups(w, prepared, s.t, p.dir, stamp);
      }
    }
  }

  lemma {:induction false} UndisturbedPoints(w: World, prepared: seq<Prepared>, run: seq<Step>)
    requires DistinctDirs(prepared) && Initial(w, prepared) && w.outside == map[] && NoEdits(run)
    ensures PhaseOk(After(w, prepared, run), prepared)
    ensures forall j :: 0 <= j < |prepared| ==> AsPreparedOrEmptied(w.files, After(w, prepared, run), prepared, j)
  {
    EveryPointIsSafe(w, prepared, run);
    if run != [] {
      var before, s := After(w, prepared, run[..|run| - 1]), run[|run| - 1];
      UndisturbedPoints(w, prepared, run[..|run| - 1]);
      forall j | 0 <= j < |prepared| ensures AsPreparedOrEmptied(w.files, Next(before, prepared, s), prepared, j) {
        if s.Stop? {
          StopKeepsAsPrepared(w.files, before, prepared, s, j);
        } else {
          AdvanceKeepsAsPrepared(w.files, before, prepared, s, j);
        }
      }
    }
  }

  /** The store of `p` in `files`, as a later run prepares it: as before, or without jobs. */
  ghost predicate PreparedAgain(p: Prepared, q: Prepared, store: Option<string>) {
    && q.dir == p.dir && q.profile == p.profile
    && (q == p || (q.jobIds == [] && q.unverified == [] && p.jobIds != [] && IsEmptied(store)))
  }

  lemma SameContentSamePreparation(
      files: Files, later: Files, parse: Parser, imported: set<string>, f: Found, p: Prepared)
    requires PreparedStore(files, parse, imported, f) == Ok(p)
    requires Content(later, StoreFile(f.dir)) == Content(files, StoreFile(f.dir))
    ensures PreparedStore(later, parse, imported, f) == Ok(p)
  {
  }

  lemma EmptiedIsPreparedAgain(files: Files, later: Files, parse: Parser, imported: set<string>, f: Found, p: Prepared)
    requires ReadsEmpty(parse) && PreparedStore(files, parse, imported, f) == Ok(p) && p.jobIds != []
    requires IsEmptied(Content(later, StoreFile(f.dir)))
    ensures PreparedStore(later, parse, imported, f).Ok?
    ensures PreparedAgain(p, PreparedStore(later, parse, imported, f).value, Content(later, StoreFile(f.dir)))
  {
    var t :| Content(later, StoreFile(f.dir)) == Some(EmptyStore(t));
    EmptyStoreHasNoJobs(later, parse, f.dir, t);
  }

  lemma StoreIsPreparedAgain(files: Files, later: Files, parse: Parser, imported: set<string>, f: Found, p: Prepared)
    requires ReadsEmpty(parse) && PreparedStore(files, parse, imported, f) == Ok(p)
    requires Content(later, StoreFile(f.dir)) == Content(files, StoreFile(f.dir))
             || (p.jobIds != [] && IsEmptied(Content(later, StoreFile(f.dir))))
    ensures PreparedStore(later, parse, imported, f).Ok?
    ensures PreparedAgain(p, PreparedStore(later, parse, imported, f).value, Content(later, StoreFile(f.dir)))
  {
    if Content(later, StoreFile(f.dir)) == Content(files, StoreFile(f.dir)) {
      SameContentSamePreparation(files, later, parse, imported, f, p);
    } else {
      EmptiedIsPreparedAgain(files, later, parse, imported, f, p);
    }
  }

  /** Each store that was found is as it was, or had jobs and is empty. */
  ghost predicate KeptOrEmptied(files: Files, later: Files, prepared: seq<Prepared>) {
    forall i :: 0 <= i < |prepared| ==>
      var store := Content(later, StoreFile(prepared[i].dir));
      store == Content(files, StoreFile(prepared[i].dir)) || (prepared[i].jobIds != [] && IsEmptied(store))
  }

  lemma {:induction false} AllArePreparedAgain(
      files: Files, later: Files, parse: Parser, imported: set<string>, found: seq<Found>, prepared: seq<Prepared>)
    requires ReadsEmpty(parse) && PreparedAll(files, parse, imported, found) == Ok(prepared)
    requires KeptOrEmptied(files, later, prepared)
    ensures PreparedAll(later, parse, imported, found).Ok?
    ensures var again := PreparedAll(later, parse, imported, found).value;
      && |again| == |prepared|
      && forall i :: 0 <= i < |prepared| ==>
           PreparedAgain(prepared[i], again[i], Content(later, StoreFile(prepared[i].dir)))
  {
    if found != [] {
      var n := |found| - 1;
      PreparedAt(files, parse, imported, found, n);
      var before := PreparedAll(files, parse, imported, found[..n]).value;
      PreparedAt(files, parse, imported, found[..n], 0);
      assert before == prepared[..n];
      forall i | 0 <= i < n
        ensures var store := Content(later, StoreFile(before[i].dir));
          store == Content(files, StoreFile(before[i].dir)) || (before[i].jobIds != [] && IsEmptied(store))
      {
        assert before[i] == prepared[i];
      }
      AllArePreparedAgain(files, later, parse, imported, found[..n], before);
      PreparedIds(files, parse, imported, found[n], prepared[n]);
      StoreIsPreparedAgain(files, later, parse, imported, found[n], prepared[n]);
    }
  }

  /** A cutover succeeds if every store with jobs holds what it was prepared from. */
  lemma {:induction false} PreparedCutoverSucceeds(files: Files, prepared: seq<Prepared>, clock: nat -> Instant)
    requires DistinctDirs(prepared)
    requires forall i :: 0 <= i < |prepared| && prepared[i].jobIds != [] ==>
      Content(files, StoreFile(prepared[i].dir)) == Some(prepared[i].original)
    ensures CutoverAll(files, prepared, clock).1.None?
  {
    if prepared != [] {
      var n := |prepared| - 1;
      PreparedCutoverSucceeds(files, prepared[..n], clock);
      forall j | 0 <= j < n && prepared[..n][j].jobIds != [] ensures prepared[..n][j].dir != prepared[n].dir {
      }
      OtherDirectoriesStay(files, prepared[..n], clock, StoreFile(prepared[n].dir));
    }
  }

  lemma PreparedHoldsItsBytes(files: Files, parse: Parser, imported: set<string>, f: Found, p: Prepared)
    requires PreparedStore(files, parse, imported, f) == Ok(p) && p.jobIds != []
    ensures Content(files, StoreFile(p.dir)) == Some(p.original)
  {
  }

  lemma FreshCutoverSucceeds(
      files: Files, parse: Parser, imported: set<string>, found: seq<Found>, prepared: seq<Prepared>,
      clock: nat -> Instant)
    requires PreparedAll(files, parse, imported, found) == Ok(prepared) && DistinctDirs(prepared)
    ensures CutoverAll(files, prepared, clock).1.None?
  {
    PreparedAt(files, parse, imported, found, 0);
    forall i | 0 <= i < |prepared| && prepared[i].jobIds != []
      ensures Content(files, StoreFile(prepared[i].dir)) == Some(prepared[i].original)
    {
      PreparedAt(files, parse, imported, found, i);
      PreparedHoldsItsBytes(files, parse, imported, found[i], prepared[i]);
    }
    PreparedCutoverSucceeds(files, prepared, clock);
  }

  lemma NothingRefusedAgain(prepared: seq<Prepared>, again: seq<Prepared>)
    requires Refusal(prepared).None? && |again| == |prepared|
    requires forall i :: 0 <= i < |prepared| ==> again[i] == prepared[i] || again[i].unverified == []
    ensures Refusal(again).None?
  {
    RefusedExactlyWhenUnverified(prepared);
    RefusedExactlyWhenUnverified(again);
  }

  /** The store of `p` is empty in `files`, and a backup holds the bytes it was prepared from. */
  ghost predicate SafelyEmptied(files: Files, p: Prepared) {
    && IsEmptied(Content(files, StoreFile(p.dir)))
    && exists stamp :: Content(files, BackupFile(p.dir, stamp)) == Some(p.original)
  }

  /** What a later cutover makes of a store that was left as it was, or emptied. */
  lemma SecondCutoverFinishes(
      start: Files, later: Files, prepared: seq<Prepared>, again: seq<Prepared>, clock: nat -> Instant, j: nat)
    requires DistinctDirs(again) && |again| == |prepared| && j < |prepared| && CutoverAll(later, again, clock).1.None?
    requires PreparedAgain(prepared[j], again[j], Content(later, StoreFile(prepared[j].dir)))
    requires Content(later, StoreFile(prepared[j].dir)) == Content(start, StoreFile(prepared[j].dir))
             || SafelyEmptied(later, prepared[j])
    requires again[j].jobIds == [] && prepared[j].jobIds != [] ==> SafelyEmptied(later, prepared[j])
    ensures var after := CutoverAll(later, again, clock).0;
      if prepared[j].jobIds != [] then SafelyEmptied(after, prepared[j])
      else Content(after, StoreFile(prepared[j].dir)) == Content(later, StoreFile(prepared[j].dir))
  {
    var p := prepared[j];
    var after := CutoverAll(later, again, clock).0;
    if again[j].jobIds != [] {
      EveryStoreWithJobsIsEmptied(later, again, clock, j);
      assert Content(after, BackupFile(p.dir, clock(j).stamp)) == Some(p.original);
    } else {
      JoblessIsUntouched(again, j);
      OtherDirectoriesStay(later, again, clock, StoreFile(p.dir));
      if p.jobIds != [] {
        var stamp :| Content(later, BackupFile(p.dir, stamp)) == Some(p.original);
        OtherDirectoriesStay(later, again, clock, BackupFile(p.dir, stamp));
        assert Content(after, BackupFile(p.dir, stamp)) == Some(p.original);
      }
    }
  }

  lemma StoppedIsKeptOrEmptied(
      start: Files, parse: Parser, imported: set<string>, found: seq<Found>, prepared: seq<Prepared>, run: seq<Step>)
    requires PreparedAll(start, parse, imported, found) == Ok(prepared) && DistinctDirs(prepared) && NoEdits(run)
    ensures var w := World(start, 0, Idle, map[], map[]);
      var later := After(w, prepared, run).files;
      && KeptOrEmptied(start, later, prepared)
      && forall j :: 0 <= j < |prepared| ==>
           Content(later, StoreFile(prepared[j].dir)) == Content(start, StoreFile(prepared[j].dir))
           || (prepared[j].jobIds != [] && SafelyEmptied(later, prepared[j]))
  {
    var w := World(start, 0, Idle, map[], map[]);
    PreparedIsInitial(start, parse, imported, found, prepared);
    UndisturbedPoints(w, prepared, run);
    var v := After(w, prepared, run);
    forall j | 0 <= j < |prepared|
      ensures Content(v.files, StoreFile(prepared[j].dir)) == Content(start, StoreFile(prepared[j].dir))
              || (prepared[j].jobIds != [] && SafelyEmptied(v.files, prepared[j]))
    {
      assert AsPreparedOrEmptied(start, v, prepared, j);
    }
  }

  /**
   * A cutover stopped at any point, by a crash or a failing or partial write, is finished by running it again: with
   * nobody else writing, the second run succeeds, every store that had jobs ends empty with its bytes in a backup, and
   * every other store is as it was.
   */
  lemma StoppedRunIsFinished(
      start: Files, parse: Parser, imported: set<string>, found: seq<Found>, prepared: seq<Prepared>, run: seq<Step>,
      clock: nat -> Instant)
    requires ReadsEmpty(parse) && forall i, j :: 0 <= i < j < |found| ==> found[i].dir != found[j].dir
    requires PreparedAll(start, parse, imported, found) == Ok(prepared) && Refusal(prepared).None? && NoEdits(run)
    ensures var later := After(World(start, 0, Idle, map[], map[]), prepared, run).files;
      var (after, outcome) := CutOver(later, parse, imported, found, clock, false);
      && outcome.Ok?
      && forall j :: 0 <= j < |prepared| ==>
           if prepared[j].jobIds != [] then SafelyEmptied(after, prepared[j])
           else Content(after, StoreFile(prepared[j].dir)) == Content(start, StoreFile(prepared[j].dir))
  {
    var later := After(World(start, 0, Idle, map[], map[]), prepared, run).files;
    PreparedDirs(start, parse, imported, found, prepared);
    StoppedIsKeptOrEmptied(start, parse, imported, found, prepared, run);
    AllArePreparedAgain(start, later, parse, imported, found, prepared);
    var again := PreparedAll(later, parse, imported, found).value;
    PreparedDirs(later, parse, imported, found, again);
    NothingRefusedAgain(prepared, again);
    FreshCutoverSucceeds(later, parse, imported, found, again, clock);
    forall j | 0 <= j < |prepared|
      ensures var after := CutoverAll(later, again, clock).0;
        if prepared[j].jobIds != [] then SafelyEmptied(after, prepared[j])
        else Content(after, StoreFile(prepared[j].dir)) == Content(start, StoreFile(prepared[j].dir))
    {
      JoblessAgainIsEmptied(start, later, parse, imported, found, prepared, again, j);
      SecondCutoverFinishes(start, later, prepared, again, clock, j);
    }
  }

  /** A store with jobs that is prepared without any the second time had been emptied in between. */
  lemma JoblessAgainIsEmptied(
      start: Files, later: Files, parse: Parser, imported: set<string>, found: seq<Found>, prepared: seq<Prepared>,
      again: seq<Prepared>, j: nat)
    requires PreparedAll(start, parse, imported, found) == Ok(prepared)
    requires PreparedAll(later, parse, imported, found) == Ok(again) && |again| == |prepared| && j < |prepared|
    requires Content(later, StoreFile(prepared[j].dir)) == Content(start, StoreFile(prepared[j].dir))
             || SafelyEmptied(later, prepared[j])
    ensures again[j].jobIds == [] && prepared[j].jobIds != [] ==> SafelyEmptied(later, prepared[j])
  {
    PreparedAt(start, parse, imported, found, j);
    PreparedAt(later, parse, imported, found, j);
    PreparedIds(start, parse, imported, found[j], prepared[j]);
    if Content(later, StoreFile(prepared[j].dir)) == Content(start, StoreFile(prepared[j].dir)) {
      SameContentSamePreparation(start, later, parse, imported, found[j], prepared[j]);
    }
  }
}
