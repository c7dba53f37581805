/**
 * Delivery obligations: src/ledger/service.rs, lines 198-350, and the redelivery loop of src/main.rs, lines 301-366.
 */
module Ledger {
  import opened Prelude

  type Time = int
  type Pid = int
  type Id = string

  const SECOND: Time := 1_000
  const MARKER: string := "♻️ Recovered reply — the gateway restarted during delivery, so this may be a duplicate:\n\n"

  datatype State = Pending | Attempting | Delivered | Failed | Abandoned

  datatype Row = Row(state: State, attempts: nat, owner: Option<Pid>, created: Time, content: string,
    error: Option<string>)

  type Rows = map<Id, Row>

  // --- The statements ---

  function RecordRow(rows: Rows, id: Id, content: string, pid: Pid, now: Time): Rows {
    rows[id := if id in rows then rows[id].(content := content, owner := Some(pid))
               else Row(Pending, 0, Some(pid), now, content, None)]
  }

  function UpdateState(rows: Rows, id: Id, state: State, error: Option<string>): Rows {
    if id in rows then rows[id := rows[id].(state := state, error := error)] else rows
  }

  predicate Recoverable(row: Row) {
    row.state.Pending? || row.state.Attempting? || row.state.Failed?
  }

  predicate OwnedByLive(row: Row, alive: set<Pid>) {
    row.owner.Some? && row.owner.value > 0 && row.owner.value in alive
  }

  /** `num_seconds`, which drops the fraction. */
  function Seconds(duration: Time): int {
    if duration >= 0 then duration / SECOND else -((-duration) / SECOND)
  }

  datatype Limits = Limits(maxAttempts: nat, staleAfter: int)

  predicate GivenUp(row: Row, limits: Limits, now: Time) {
    row.attempts >= limits.maxAttempts || Seconds(now - row.created) > limits.staleAfter
  }

  function AbandonRow(rows: Rows, id: Id): Rows {
    if id in rows then rows[id := rows[id].(state := Abandoned)] else rows
  }

  /** The compare-and-swap on the owner, against the owner the sweep read. */
  predicate CanClaim(rows: Rows, id: Id, read: Option<Pid>, pid: Pid) {
    id in rows && (rows[id].owner.None? || (read.Some? && rows[id].owner == read) || rows[id].owner == Some(pid))
  }

  /** A claim takes a row that nobody owns, that has the owner it was read with, or that is the claimant's own. */
  lemma ClaimTakesFreeRows(rows: Rows, id: Id, read: Option<Pid>, pid: Pid)
    requires id in rows
    ensures CanClaim(rows, id, read, pid) <==>
      rows[id].owner == None || rows[id].owner == read || rows[id].owner == Some(pid)
    ensures var after := ClaimRow(rows, id, pid);
      && after == rows[id := after[id]] && after[id].owner == Some(pid) && after[id].attempts == rows[id].attempts + 1
      && after[id].(owner := rows[id].owner, attempts := rows[id].attempts) == rows[id]
  {
  }

  function ClaimRow(rows: Rows, id: Id, pid: Pid): Rows
    requires id in rows
  {
    rows[id := rows[id].(owner := Some(pid), attempts := rows[id].attempts + 1)]
  }

  // --- One sweep on its own ---

  datatype Found = Found(id: Id, row: Row)

  /** What the select returns: the recoverable rows, oldest first. */
  ghost predicate IsSelection(rows: Rows, found: seq<Found>) {
    && (forall i :: 0 <= i < |found| ==>
      found[i].id in rows && rows[found[i].id] == found[i].row && Recoverable(found[i].row))
    && (forall id :: id in rows && Recoverable(rows[id]) ==> exists i :: 0 <= i < |found| && found[i].id == id)
    && (forall i, j :: 0 <= i < j < |found| ==>
      found[i].id != found[j].id && found[i].row.created <= found[j].row.created)
  }

  /** One iteration over a row as it was read; the claimed row is handed on as read, with the claim applied. */
  function VisitRow(rows: Rows, claimed: seq<Found>, f: Found, pid: Pid, alive: set<Pid>, limits: Limits, now: Time)
    : (Rows, seq<Found>)
  {
    if OwnedByLive(f.row, alive) then (rows, claimed)
    else if GivenUp(f.row, limits, now) then (AbandonRow(rows, f.id), claimed)
    else if CanClaim(rows, f.id, f.row.owner, pid) then
      (ClaimRow(rows, f.id, pid), claimed + [Found(f.id, f.row.(owner := Some(pid), attempts := f.row.attempts + 1))])
    else (rows, claimed)
  }

  function Sweep(rows: Rows, found: seq<Found>, pid: Pid, alive: set<Pid>, limits: Limits,
                 now: Time): (Rows, seq<Found>)
  {
    if found == [] then (rows, [])
    else
      var (before, claimed) := Sweep(rows, found[..|found| - 1], pid, alive, limits, now);
      VisitRow(before, claimed, found[|found| - 1], pid, alive, limits, now)
  }

  function Redelivered(read: State, content: string): string {
    if read.Pending? then content else MARKER + content
  }

  /** A selection in the making: `rest` are the recoverable rows still to be listed. */
  ghost predicate IsSelected(rows: Rows, found: seq<Found>, rest: set<Id>) {
    && (forall id :: id in rest ==> id in rows && Recoverable(rows[id]))
    && (forall i :: 0 <= i < |found| ==>
          found[i].id in rows && found[i].id !in rest && rows[found[i].id] == found[i].row && Recoverable(found[i].row))
    && (forall id :: id in rows && Recoverable(rows[id]) && id !in rest ==>
      exists i :: 0 <= i < |found| && found[i].id == id)
    && (forall i, j :: 0 <= i < j < |found| ==>
      found[i].id != found[j].id && found[i].row.created <= found[j].row.created)
    && (forall i, id :: 0 <= i < |found| && id in rest ==> found[i].row.created <= rows[id].created)
  }

  lemma SelectedStays(rows: Rows, found: seq<Found>, rest: set<Id>, oldest: Id, id: Id)
    requires IsSelected(rows, found, rest) && oldest in rest
    requires id in rows && Recoverable(rows[id]) && id !in rest - {oldest}
    ensures var after := found + [Found(oldest, rows[oldest])]; exists i :: 0 <= i < |after| && after[i].id == id
  {
    var after := found + [Found(oldest, rows[oldest])];
    if id == oldest {
      assert after[|found|].id == id;
    } else {
      var i :| 0 <= i < |found| && found[i].id == id;
      assert after[i].id == id;
    }
  }

  lemma SelectOldest(rows: Rows, found: seq<Found>, rest: set<Id>, oldest: Id)
    requires IsSelected(rows, found, rest) && oldest in rest
    requires forall id :: id in rest ==> rows[oldest].created <= rows[id].created
    ensures IsSelected(rows, found + [Found(oldest, rows[oldest])], rest - {oldest})
  {
    var after := found + [Found(oldest, rows[oldest])];
    forall id | id in rows && Recoverable(rows[id]) && id !in rest - {oldest}
      ensures exists i :: 0 <= i < |after| && after[i].id == id
    {
      SelectedStays(rows, found, rest, oldest, id);
    }
  }

  class DeliveryLedger {
    var rows: Rows
    var outbox: seq<(Id, string)>

    constructor ()
      ensures rows == map[] && outbox == []
    {
      rows, outbox := map[], [];
    }

    method RecordObligation(id: Id, content: string, pid: Pid, now: Time)
      modifies this`rows
      ensures rows == RecordRow(old(rows), id, content, pid, now)
      ensures rows == old(rows)[id := rows[id]] && rows[id].content == content && rows[id].owner == Some(pid)
      ensures id in old(rows) ==>
        rows[id].(content := old(rows)[id].content, owner := old(rows)[id].owner) == old(rows)[id]
      ensures id !in old(rows) ==>
        rows[id].state == Pending && rows[id].attempts == 0 && rows[id].created == now && rows[id].error == None
    {
      if id in rows {
        rows := rows[id := rows[id].(content := content, owner := Some(pid))];
      } else {
        rows := rows[id := Row(Pending, 0, Some(pid), now, content, None)];
      }
    }

    /** `mark_obligation_*`; false is the error return. */
    method MarkObligation(id: Id, state: State, error: Option<string>) returns (found: bool)
      modifies this`rows
      ensures rows == UpdateState(old(rows), id, state, error) && found == (id in old(rows))
    {
      found := id in rows;
      if found {
        rows := rows[id := rows[id].(state := state, error := error)];
      }
    }

    /** The select of the sweep. */
    method QueryRecoverable() returns (found: seq<Found>)
      ensures IsSelection(rows, found)
    {
      found := [];
      var rest := set id | id in rows && Recoverable(rows[id]);
      while rest != {}
        invariant IsSelected(rows, found, rest)
        decreases |rest|
      {
        var oldest := Oldest(rest);
        SelectOldest(rows, found, rest, oldest);
        found, rest := found + [Found(oldest, rows[oldest])], rest - {oldest};
      }
    }

    method Oldest(ids: set<Id>) returns (oldest: Id)
      requires ids <= rows.Keys && ids != {}
      ensures oldest in ids && forall id :: id in ids ==> rows[oldest].created <= rows[id].created
    {
      oldest :| oldest in ids;
      var rest := ids - {oldest};
      while rest != {}
        invariant rest <= ids && oldest in ids
        invariant forall id :: id in ids && id !in rest ==> rows[oldest].created <= rows[id].created
        decreases |rest|
      {
        var id :| id in rest;
        if rows[id].created < rows[oldest].created {
          oldest := id;
        }
        rest := rest - {id};
      }
    }

    method SweepRecoverable(pid: Pid, alive: set<Pid>, limits: Limits, now: Time) returns (claimed: seq<Found>)
      modifies this`rows
      ensures exists found ::
        IsSelection(old(rows), found) && (rows, claimed) == Sweep(old(rows), found, pid, alive, limits, now)
    {
      var found := QueryRecoverable();
      claimed := [];
      for i := 0 to |found|
        invariant (rows, claimed) == Sweep(old(rows), found[..i], pid, alive, limits, now)
      {
        assert found[..i + 1][..i] == found[..i];
        var f := found[i];
        if OwnedByLive(f.row, alive) {
          continue;
        }
        if GivenUp(f.row, limits, now) {
          rows := AbandonRow(rows, f.id);
          continue;
        }
        if CanClaim(rows, f.id, f.row.owner, pid) {
          rows := ClaimRow(rows, f.id, pid);
          claimed := claimed + [Found(f.id, f.row.(owner := Some(pid), attempts := f.row.attempts + 1))];
        }
      }
      assert found[..|found|] == found;
    }

    /** The redelivery loop: mark, dispatch, and conclude each claimed obligation in turn. */
    method Redeliver(claimed: seq<Found>, refusals: map<Id, string>)
      modifies this
      ensures outbox == old(outbox) + Sent(claimed) && rows == Concluded(old(rows), claimed, refusals)
    {
      for i := 0 to |claimed|
        invariant outbox == old(outbox) + Sent(claimed[..i])
        invariant rows == Concluded(old(rows), claimed[..i], refusals)
      {
        assert claimed[..i + 1][..i] == claimed[..i];
        var f := claimed[i];
        var content := if f.row.state.Pending? then f.row.content else MARKER + f.row.content;
        var _ := MarkObligation(f.id, Attempting, None);
        outbox := outbox + [(f.id, content)];
        if f.id in refusals {
          var _ := MarkObligation(f.id, Failed, Some(refusals[f.id]));
        } else {
          var _ := MarkObligation(f.id, Delivered, None);
        }
      }
      assert claimed[..|claimed|] == claimed;
    }

    /** The startup redelivery; `refusals` are the obligations whose dispatch fails, with its error. */
    method RecoverPending(pid: Pid, alive: set<Pid>, now: Time, refusals: map<Id, string>) returns (count: nat)
      modifies this
      ensures exists found ::
        IsSelection(old(rows), found) &&
        var (swept, claimed) := Sweep(old(rows), found, pid, alive, Limits(3, 86_400), now);
        && count == |claimed|
        && outbox == old(outbox) + Sent(claimed)
        && rows == Concluded(swept, claimed, refusals)
      ensures |old(outbox)| <= |outbox| == |old(outbox)| + count && outbox[..|old(outbox)|] == old(outbox)
      ensures rows.Keys == old(rows).Keys
      ensures forall id :: id in old(rows) ==>
        RecoveredAs(old(rows), rows, outbox[|old(outbox)|..], pid, alive, now, refusals, id)
      ensures forall i :: |old(outbox)| <= i < |outbox| ==> outbox[i].0 in old(rows)
      ensures forall i, j :: |old(outbox)| <= i < j < |outbox| ==>
        old(rows)[outbox[i].0].created <= old(rows)[outbox[j].0].created
    {
      ghost var before, queued := rows, outbox;
      var claimed := SweepRecoverable(pid, alive, Limits(3, 86_400), now);
      count := |claimed|;
      Redeliver(claimed, refusals);
      ghost var found :| IsSelection(before, found)
        && Sweep(before, found, pid, alive, Limits(3, 86_400), now).1 == claimed
        && rows == Concluded(Sweep(before, found, pid, alive, Limits(3, 86_400), now).0, claimed, refusals);
      assert outbox[|queued|..] == Sent(claimed);
      RecoveryMeaning(before, found, pid, alive, now, refusals);
    }
  }

  function Sent(claimed: seq<Found>): seq<(Id, string)> {
    seq(|claimed|, i requires 0 <= i < |claimed| => 
      (claimed[i].id, Redelivered(claimed[i].row.state, claimed[i].row.content)))
  }

  function Conclude(rows: Rows, f: Found, refusals: map<Id, string>): Rows {
    var attempting := UpdateState(rows, f.id, Attempting, None);
    if f.id in refusals then UpdateState(attempting, f.id, Failed, Some(refusals[f.id]))
    else UpdateState(attempting, f.id, Delivered, None)
  }

  function Concluded(rows: Rows, claimed: seq<Found>, refusals: map<Id, string>): Rows {
    if claimed == [] then rows
    else Conclude(Concluded(rows, claimed[..|claimed| - 1], refusals), claimed[|claimed| - 1], refusals)
  }

  ghost predicate Lists(found: seq<Found>, id: Id) {
    exists i :: 0 <= i < |found| && found[i].id == id
  }

  lemma ListsSnoc(found: seq<Found>, f: Found, id: Id)
    ensures Lists(found + [f], id) <==> Lists(found, id) || f.id == id
  {
    var more := found + [f];
    assert more[|found|] == f;
    if Lists(found, id) {
      var i :| 0 <= i < |found| && found[i].id == id;
      assert more[i].id == id;
    }
  }

  /** Left to its live owner or not read, given up, or claimed: what became of the row `id`. */
  ghost predicate SweptAs(
      rows: Rows, listed: bool, after: Rows, claimed: seq<Found>, pid: Pid, alive: set<Pid>, limits: Limits, now: Time,
      id: Id)
    requires id in rows
  {
    var row := rows[id];
    && after.Keys == rows.Keys
    && after[id] ==
         (if !listed || OwnedByLive(row, alive) then row
          else if GivenUp(row, limits, now) then row.(state := Abandoned)
          else row.(owner := Some(pid), attempts := row.attempts + 1))
    && (Lists(claimed, id) <==> listed && !OwnedByLive(row, alive) && !GivenUp(row, limits, now))
  }

  lemma VisitOfAnother(
      rows: Rows, listed: bool, before: Rows, claimed: seq<Found>, f: Found, pid: Pid, alive: set<Pid>, limits: Limits,
      now: Time, id: Id)
    requires id in rows && SweptAs(rows, listed, before, claimed, pid, alive, limits, now, id) && f.id != id
    requires f.id in rows
    ensures var (after, taken) := VisitRow(before, claimed, f, pid, alive, limits, now);
      SweptAs(rows, listed, after, taken, pid, alive, limits, now, id)
  {
    ListsSnoc(claimed, Found(f.id, f.row.(owner := Some(pid), attempts := f.row.attempts + 1)), id);
  }

  lemma VisitOfOwn(
      rows: Rows, before: Rows, claimed: seq<Found>, f: Found, pid: Pid, alive: set<Pid>, limits: Limits, now: Time)
    requires f.id in rows && f.row == rows[f.id] && SweptAs(rows, false, before, claimed, pid, alive, limits, now, f.id)
    ensures var (after, taken) := VisitRow(before, claimed, f, pid, alive, limits, now);
      SweptAs(rows, true, after, taken, pid, alive, limits, now, f.id)
  {
    ListsSnoc(claimed, Found(f.id, f.row.(owner := Some(pid), attempts := f.row.attempts + 1)), f.id);
  }

  /** What a sweep without competition does to each row it read, and that it touches no other. */
  lemma {:induction false} SweepMeaning(
      rows: Rows, found: seq<Found>, pid: Pid, alive: set<Pid>, limits: Limits, now: Time, id: Id)
    requires id in rows
    requires forall i :: 0 <= i < |found| ==> found[i].id in rows && rows[found[i].id] == found[i].row
    requires forall i, j :: 0 <= i < j < |found| ==> found[i].id != found[j].id
    ensures var (after, claimed) := Sweep(rows, found, pid, alive, limits, now);
      SweptAs(rows, Lists(found, id), after, claimed, pid, alive, limits, now, id)
  {
    if found != [] {
      var init, f := found[..|found| - 1], found[|found| - 1];
      assert found == init + [f];
      ListsSnoc(init, f, id);
      SweepMeaning(rows, init, pid, alive, limits, now, id);
      var (before, claimed) := Sweep(rows, init, pid, alive, limits, now);
      if f.id == id {
        assert !Lists(init, id);
        VisitOfOwn(rows, before, claimed, f, pid, alive, limits, now);
      } else {
        VisitOfAnother(rows, Lists(init, id), before, claimed, f, pid, alive, limits, now, id);
      }
    }
  }

  // --- What the startup redelivery does ---

  /** Exactly one of the messages is for `id`, and it reads `text`. */
  ghost predicate SentOnce(sent: seq<(Id, string)>, id: Id, text: string) {
    exists i :: 0 <= i < |sent| && sent[i] == (id, text) && forall j :: 0 <= j < |sent| && sent[j].0 == id ==> j == i
  }

  ghost predicate SentNever(sent: seq<(Id, string)>, id: Id) {
    forall j :: 0 <= j < |sent| ==> sent[j].0 != id
  }

  /**
   * What becomes of one row: a closed one, or one of a live owner, is left alone; one that was tried three times, or is
   * more than a day old, is abandoned; any other is taken over, sent once, under the marker unless it was read as
   * pending, and ends delivered, or failed with the error of its dispatch.
   */
  ghost predicate RecoveredAs(
      rows: Rows, after: Rows, sent: seq<(Id, string)>, pid: Pid, alive: set<Pid>, now: Time, refusals: map<Id, string>,
      id: Id)
    requires id in rows
  {
    var row := rows[id];
    && id in after
    && if row.state.Delivered? || row.state.Abandoned?
          || (row.owner.Some? && row.owner.value > 0 && row.owner.value in alive)
       then after[id] == row && SentNever(sent, id)
       else if row.attempts >= 3 || now - row.created >= 86_401_000 then
         after[id] == row.(state := Abandoned) && SentNever(sent, id)
       else
         && SentOnce(sent, id, if row.state.Pending? then row.content else MARKER + row.content)
         && after[id] == Row(if id in refusals then Failed else Delivered, row.attempts + 1, Some(pid), row.created,
                             row.content, if id in refusals then Some(refusals[id]) else None)
  }

  lemma {:induction false} ConcludedRow(rows: Rows, claimed: seq<Found>, refusals: map<Id, string>, id: Id)
    requires id in rows
    ensures id in Concluded(rows, claimed, refusals)
    ensures Concluded(rows, claimed, refusals)[id] ==
      if !Lists(claimed, id) then rows[id]
      else if id in refusals then rows[id].(state := Failed, error := Some(refusals[id]))
      else rows[id].(state := Delivered, error := None)
  {
    if claimed != [] {
      var init, last := claimed[..|claimed| - 1], claimed[|claimed| - 1];
      assert claimed == init + [last];
      ConcludedRow(rows, init, refusals, id);
      ListsSnoc(init, last, id);
    }
  }

  /** Each row is claimed at most once, oldest first, with the state and the content that were read. */
  ghost predicate ClaimedAsRead(rows: Rows, found: seq<Found>, claimed: seq<Found>) {
    && (forall i :: 0 <= i < |claimed| ==>
          && claimed[i].id in rows && Lists(found, claimed[i].id)
          && claimed[i].row.state == rows[claimed[i].id].state && claimed[i].row.content == rows[claimed[i].id].content)
    && forall i, j :: 0 <= i < j < |claimed| ==>
         claimed[i].id != claimed[j].id && rows[claimed[i].id].created <= rows[claimed[j].id].created
  }

  lemma VisitClaimsAsRead(
      rows: Rows, found: seq<Found>, before: Rows, claimed: seq<Found>, f: Found, pid: Pid, alive: set<Pid>,
      limits: Limits, now: Time)
    requires ClaimedAsRead(rows, found, claimed) && !Lists(found, f.id) && f.id in rows && rows[f.id] == f.row
    requires forall id :: id in rows && Lists(found, id) ==> rows[id].created <= f.row.created
    ensures ClaimedAsRead(rows, found + [f], VisitRow(before, claimed, f, pid, alive, limits, now).1)
  {
    forall i | 0 <= i < |claimed| ensures Lists(found + [f], claimed[i].id) {
      ListsSnoc(found, f, claimed[i].id);
    }
    ListsSnoc(found, f, f.id);
  }

  lemma {:induction false} SweepClaimsAsRead(
      rows: Rows, found: seq<Found>, pid: Pid, alive: set<Pid>, limits: Limits, now: Time)
    requires forall i :: 0 <= i < |found| ==> found[i].id in rows && rows[found[i].id] == found[i].row
    requires forall i, j :: 0 <= i < j < |found| ==>
      found[i].id != found[j].id && found[i].row.created <= found[j].row.created
    ensures ClaimedAsRead(rows, found, Sweep(rows, found, pid, alive, limits, now).1)
  {
    if found != [] {
      var init, f := found[..|found| - 1], found[|found| - 1];
      assert found == init + [f];
      SweepClaimsAsRead(rows, init, pid, alive, limits, now);
      var (before, claimed) := Sweep(rows, init, pid, alive, limits, now);
      VisitClaimsAsRead(rows, init, before, claimed, f, pid, alive, limits, now);
    }
  }

  lemma SentOfClaimed(rows: Rows, found: seq<Found>, claimed: seq<Found>, id: Id)
    requires ClaimedAsRead(rows, found, claimed) && id in rows
    ensures if Lists(claimed, id) then
              SentOnce(Sent(claimed), id, if rows[id].state.Pending? then rows[id].content
                else MARKER + rows[id].content)
            else SentNever(Sent(claimed), id)
  {
    if Lists(claimed, id) {
      var i :| 0 <= i < |claimed| && claimed[i].id == id;
      assert Sent(claimed)[i].0 == id;
    }
  }

  lemma TooOld(age: int)
    ensures Seconds(age) > 86_400 <==> age >= 86_401_000
  {
  }

  lemma RecoveryOfOne(
      rows: Rows, found: seq<Found>, pid: Pid, alive: set<Pid>, now: Time, refusals: map<Id, string>, id: Id)
    requires IsSelection(rows, found) && id in rows
    ensures var (swept, claimed) := Sweep(rows, found, pid, alive, Limits(3, 86_400), now);
      RecoveredAs(rows, Concluded(swept, claimed, refusals), Sent(claimed), pid, alive, now, refusals, id)
  {
    var (swept, claimed) := Sweep(rows, found, pid, alive, Limits(3, 86_400), now);
    SweepMeaning(rows, found, pid, alive, Limits(3, 86_400), now, id);
    SweepClaimsAsRead(rows, found, pid, alive, Limits(3, 86_400), now);
    ConcludedRow(swept, claimed, refusals, id);
    SentOfClaimed(rows, found, claimed, id);
    TooOld(now - rows[id].created);
  }

  lemma RecoveryMeaning(
      rows: Rows, found: seq<Found>, pid: Pid, alive: set<Pid>, now: Time, refusals: map<Id, string>)
    requires IsSelection(rows, found)
    ensures var (swept, claimed) := Sweep(rows, found, pid, alive, Limits(3, 86_400), now);
      var after := Concluded(swept, claimed, refusals);
      && after.Keys == rows.Keys
      && (forall id :: id in rows ==> RecoveredAs(rows, after, Sent(claimed), pid, alive, now, refusals, id))
      && (forall i :: 0 <= i < |claimed| ==> Sent(claimed)[i].0 in rows)
      && forall i, j :: 0 <= i < j < |claimed| ==>
           rows[Sent(claimed)[i].0].created <= rows[Sent(claimed)[j].0].created
  {
    var (swept, claimed) := Sweep(rows, found, pid, alive, Limits(3, 86_400), now);
    SweepClaimsAsRead(rows, found, pid, alive, Limits(3, 86_400), now);
    SweepKeepsKeys(rows, found, pid, alive, Limits(3, 86_400), now);
    ConcludedKeepsKeys(swept, claimed, refusals);
    forall id | id in rows
      ensures RecoveredAs(rows, Concluded(swept, claimed, refusals), Sent(claimed), pid, alive, now, refusals, id)
    {
      RecoveryOfOne(rows, found, pid, alive, now, refusals, id);
    }
  }

  lemma {:induction false} SweepKeepsKeys(
      rows: Rows, found: seq<Found>, pid: Pid, alive: set<Pid>, limits: Limits, now: Time)
    ensures Sweep(rows, found, pid, alive, limits, now).0.Keys == rows.Keys
  {
    if found != [] {
      SweepKeepsKeys(rows, found[..|found| - 1], pid, alive, limits, now);
    }
  }

  lemma {:induction false} ConcludedKeepsKeys(rows: Rows, claimed: seq<Found>, refusals: map<Id, string>)
    ensures Concluded(rows, claimed, refusals).Keys == rows.Keys
  {
    if claimed != [] {
      ConcludedKeepsKeys(rows, claimed[..|claimed| - 1], refusals);
    }
  }
}
