/** Coalescing of client-split messages: src/discord/adapter.rs, lines 487-617. */
module Debounce {
  import opened Prelude
  import opened Text

  type Session = string

  datatype Attachment = Attachment(
    id: string, filename: string, url: string, contentType: Option<string>, size: Option<nat>,
    textContent: Option<string>)

  datatype Event = Event(
    id: string, session: Session, platformId: string, deliveryId: Option<string>, content: string,
    attachments: seq<Attachment>, receivedAt: int)

  // --- Coalescing a batch ---

  function NonBlankContents(events: seq<Event>): seq<string> {
    if events == [] then []
    else
      var before := NonBlankContents(events[..|events| - 1]);
      var content := events[|events| - 1].content;
      if Trim(content) == "" then before else before + [content]
  }

  function JoinLines(parts: seq<string>): string {
    if parts == [] then ""
    else if |parts| == 1 then parts[0]
    else JoinLines(parts[..|parts| - 1]) + "\n" + parts[|parts| - 1]
  }

  function Ids(attachments: seq<Attachment>): set<string> {
    set i | 0 <= i < |attachments| :: attachments[i].id
  }

  /** The union: the first attachment of each id, in order of arrival. */
  function FirstOfEachId(attachments: seq<Attachment>): seq<Attachment> {
    if attachments == [] then []
    else
      var n := |attachments| - 1;
      var before := FirstOfEachId(attachments[..n]);
      if attachments[n].id in Ids(before) then before else before + [attachments[n]]
  }

  lemma IdsSnoc(attachments: seq<Attachment>, a: Attachment)
    ensures Ids(attachments + [a]) == Ids(attachments) + {a.id}
  {
    var after := attachments + [a];
    forall id ensures id in Ids(after) <==> id in Ids(attachments) || id == a.id {
      if id in Ids(attachments) {
        var i :| 0 <= i < |attachments| && attachments[i].id == id;
        assert after[i].id == id;
      }
      assert after[|attachments|] == a;
    }
  }

  lemma FirstSnoc(all: seq<Attachment>, a: Attachment)
    ensures FirstOfEachId(all + [a]) == FirstOfEachId(all) + if a.id in Ids(FirstOfEachId(all)) then [] else [a]
  {
    assert (all + [a])[..|all|] == all;
  }

  function AllAttachments(events: seq<Event>): seq<Attachment> {
    if events == [] then [] else AllAttachments(events[..|events| - 1]) + events[|events| - 1].attachments
  }

  function Coalesced(events: seq<Event>): Option<Event> {
    if events == [] then None
    else if |events| == 1 then Some(events[0])
    else Some(Merged(events))
  }

  function Merged(events: seq<Event>): Event
    requires events != []
  {
    var last := events[|events| - 1];
    Event(events[0].id, events[0].session, last.platformId,
          Some(last.deliveryId.GetOr("discord:" + last.platformId)),
          JoinLines(NonBlankContents(events)), FirstOfEachId(AllAttachments(events)), events[0].receivedAt)
  }

  lemma OneMoreEvent(events: seq<Event>, i: nat)
    requires i < |events|
    ensures NonBlankContents(events[..i + 1])
      == NonBlankContents(events[..i]) + if Trim(events[i].content) == "" then [] else [events[i].content]
    ensures AllAttachments(events[..i + 1]) == AllAttachments(events[..i]) + events[i].attachments
  {
    assert events[..i + 1][..i] == events[..i];
  }

  /** The inner loop of the union: the attachments of one event. */
  method AddUnseen(own: seq<Attachment>, ghost before: seq<Attachment>, attachments: seq<Attachment>, seen: set<string>)
    returns (attachments': seq<Attachment>, seen': set<string>)
    requires attachments == FirstOfEachId(before) && seen == Ids(attachments)
    ensures attachments' == FirstOfEachId(before + own) && seen' == Ids(attachments')
  {
    attachments', seen' := attachments, seen;
    assert before + own[..0] == before;
    for j := 0 to |own|
      invariant attachments' == FirstOfEachId(before + own[..j]) && seen' == Ids(attachments')
    {
      assert before + own[..j + 1] == before + own[..j] + [own[j]];
      FirstSnoc(before + own[..j], own[j]);
      IdsSnoc(attachments', own[j]);
      if own[j].id !in seen' {
        attachments', seen' := attachments' + [own[j]], seen' + {own[j].id};
      }
    }
    assert own[..|own|] == own;
  }

  method CoalesceInboundEvents(events: seq<Event>) returns (r: Option<Event>)
    ensures r == Coalesced(events)
  {
    if events == [] {
      return None;
    }
    if |events| == 1 {
      return Some(events[0]);
    }
    var contents: seq<string> := [];
    var attachments: seq<Attachment> := [];
    var seen: set<string> := {};
    for i := 0 to |events|
      invariant contents == NonBlankContents(events[..i])
    {
      OneMoreEvent(events, i);
      if Trim(events[i].content) != "" {
        contents := contents + [events[i].content];
      }
    }
    for i := 0 to |events|
      invariant attachments == FirstOfEachId(AllAttachments(events[..i])) && seen == Ids(attachments)
    {
      OneMoreEvent(events, i);
      attachments, seen := AddUnseen(events[i].attachments, AllAttachments(events[..i]), attachments, seen);
    }
    assert events[..|events|] == events;
    var last := events[|events| - 1];
    var deliveryId := if last.deliveryId.Some? then last.deliveryId else Some("discord:" + last.platformId);
    r := Some(Event(events[0].id, events[0].session, last.platformId, deliveryId, JoinLines(contents), attachments,
                    events[0].receivedAt));
  }

  ghost predicate IsFirst(all: seq<Attachment>, k: int) {
    0 <= k < |all| && forall j :: 0 <= j < k ==> all[j].id != all[k].id
  }

  /** A kept id is one seen before. */
  lemma {:induction false} KeptIds(all: seq<Attachment>)
    ensures Ids(FirstOfEachId(all)) == Ids(all)
  {
    if all != [] {
      var n := |all| - 1;
      KeptIds(all[..n]);
      assert all == all[..n] + [all[n]];
      IdsSnoc(all[..n], all[n]);
      IdsSnoc(FirstOfEachId(all[..n]), all[n]);
    }
  }

  /** `at` are the positions of the first attachment of each id, in order, and `kept` are those attachments. */
  ghost predicate AreFirsts(all: seq<Attachment>, kept: seq<Attachment>, at: seq<int>) {
    && |at| == |kept| && (forall i, j :: 0 <= i < j < |at| ==> at[i] < at[j])
    && (forall i :: 0 <= i < |at| ==> IsFirst(all, at[i]) && kept[i] == all[at[i]])
    && forall k :: IsFirst(all, k) ==> k in at
  }

  lemma FirstsOfOneMore(all: seq<Attachment>, a: Attachment, kept: seq<Attachment>, at: seq<int>)
    requires AreFirsts(all, kept, at)
    ensures a.id in Ids(all) ==> AreFirsts(all + [a], kept, at)
    ensures a.id !in Ids(all) ==> AreFirsts(all + [a], kept + [a], at + [|all|])
  {
    var more := all + [a];
    assert more[|all|] == a && forall j :: 0 <= j < |all| ==> more[j] == all[j];
    forall k | 0 <= k < |all| ensures IsFirst(all, k) <==> IsFirst(more, k) {
      assert more[k] == all[k];
    }
    if a.id in Ids(all) {
      var i :| 0 <= i < |all| && all[i].id == a.id;
      assert more[i].id == a.id;
    }
  }

  /** Every id once, with its first attachment, in the order of first arrival. */
  lemma {:induction false} FirstOfEachIdMeaning(all: seq<Attachment>) returns (at: seq<int>)
    ensures AreFirsts(all, FirstOfEachId(all), at)
  {
    if all == [] {
      at := [];
    } else {
      var n := |all| - 1;
      var before := FirstOfEachIdMeaning(all[..n]);
      KeptIds(all[..n]);
      FirstsOfOneMore(all[..n], all[n], FirstOfEachId(all[..n]), before);
      assert all[..n] + [all[n]] == all;
      at := if all[n].id in Ids(all[..n]) then before else before + [n];
    }
  }

  // --- Coalescing twice ---

  lemma NonBlankSnoc(events: seq<Event>, e: Event)
    ensures NonBlankContents(events + [e]) == NonBlankContents(events) + NonBlankOf(e)
  {
    assert (events + [e])[..|events|] == events;
  }

  function NonBlankOf(e: Event): seq<string> {
    if Trim(e.content) == "" then [] else [e.content]
  }

  ghost predicate NonBlankAdds(a: seq<Event>, b: seq<Event>) {
    NonBlankContents(a + b) == NonBlankContents(a) + NonBlankContents(b)
  }

  lemma NonBlankAddsOne(a: seq<Event>, b: seq<Event>)
    requires b != [] && NonBlankAdds(a, b[..|b| - 1])
    ensures NonBlankAdds(a, b)
  {
    var rest, e := b[..|b| - 1], b[|b| - 1];
    InitAndLast(b);
    NonBlankSnoc(a + rest, e);
    NonBlankSnoc(rest, e);
    Regroup(a, rest, [e]);
    Regroup(NonBlankContents(a), NonBlankContents(rest), NonBlankOf(e));
  }

  lemma {:induction false} NonBlankAppend(a: seq<Event>, b: seq<Event>)
    ensures NonBlankAdds(a, b)
  {
    if b == [] {
      assert a + b == a;
    } else {
      NonBlankAppend(a, b[..|b| - 1]);
      NonBlankAddsOne(a, b);
    }
  }

  lemma AllAttachmentsSnoc(events: seq<Event>, e: Event)
    ensures AllAttachments(events + [e]) == AllAttachments(events) + e.attachments
  {
    assert (events + [e])[..|events|] == events;
  }

  lemma {:induction false} AllAttachmentsAppend(a: seq<Event>, b: seq<Event>)
    ensures AllAttachments(a + b) == AllAttachments(a) + AllAttachments(b)
  {
    if b == [] {
      assert a + b == a;
    } else {
      var rest, e := b[..|b| - 1], b[|b| - 1];
      AllAttachmentsAppend(a, rest);
      AllAttachmentsSnoc(a + rest, e);
      AllAttachmentsSnoc(rest, e);
      assert b == rest + [e];
      Regroup(a, rest, [e]);
      Regroup(AllAttachments(a), AllAttachments(rest), e.attachments);
    }
  }

  lemma {:induction false} JoinLinesAppend(p: seq<string>, q: seq<string>)
    requires p != [] && q != []
    ensures JoinLines(p + q) == JoinLines(p) + "\n" + JoinLines(q)
  {
    var n := |q| - 1;
    assert (p + q)[..|p| + n] == p + q[..n];
    if n == 0 {
      assert p + q[..n] == p;
    } else {
      JoinLinesAppend(p, q[..n]);
      assert JoinLines(p) + "\n" + JoinLines(q[..n]) + "\n" + q[n]
        == JoinLines(p) + "\n" + (JoinLines(q[..n]) + "\n" + q[n]);
    }
  }

  lemma TrimIsEmptyExactlyWhenBlank(s: string)
    ensures Trim(s) == "" <==> Blank(s)
  {
    var k := LeadingBlank(s);
    if k == |s| {
      LeadingBlankUnique(s, k);
    } else {
      assert TrimStart(s)[0] == s[k];
      assert KeptLength(TrimStart(s)) > 0;
    }
  }

  lemma {:induction false} JoinOfNonBlank(events: seq<Event>)
    ensures NonBlankContents(events) != [] ==> Trim(JoinLines(NonBlankContents(events))) != ""
  {
    if events != [] {
      var n := |events| - 1;
      var before := NonBlankContents(events[..n]);
      var content := events[n].content;
      JoinOfNonBlank(events[..n]);
      if Trim(content) != "" && before != [] {
        JoinLinesAppend(before, [content]);
        var head := JoinLines(before) + "\n";
        TrimIsEmptyExactlyWhenBlank(content);
        TrimIsEmptyExactlyWhenBlank(head + content);
        var i :| 0 <= i < |content| && !IsWhitespace(content[i]);
        assert (head + content)[|head| + i] == content[i];
      }
    }
  }

  lemma ContentOfOne(events: seq<Event>)
    requires events != []
    ensures NonBlankContents([Coalesced(events).value]) == JoinedOnce(NonBlankContents(events))
  {
    JoinOfNonBlank(events);
    TrimIsEmptyExactlyWhenBlank("");
    assert |events| == 1 ==> [events[0]] == events;
    var one := [Coalesced(events).value];
    assert one[..0] == [];
  }

  lemma IdsAppend(x: seq<Attachment>, y: seq<Attachment>)
    ensures Ids(x + y) == Ids(x) + Ids(y)
  {
    forall id ensures id in Ids(x + y) <==> id in Ids(x) || id in Ids(y) {
      if id in Ids(x) {
        var i :| 0 <= i < |x| && x[i].id == id;
        assert (x + y)[i].id == id;
      }
      if id in Ids(y) {
        var i :| 0 <= i < |y| && y[i].id == id;
        assert (x + y)[|x| + i].id == id;
      }
    }
  }

  lemma {:induction false} UnionOnTheRight(x: seq<Attachment>, y: seq<Attachment>)
    ensures FirstOfEachId(x + FirstOfEachId(y)) == FirstOfEachId(x + y)
  {
    if y != [] {
      var rest, a := y[..|y| - 1], y[|y| - 1];
      UnionOnTheRight(x, rest);
      assert x + y == (x + rest) + [a];
      FirstSnoc(x + rest, a);
      KeptIds(x + rest);
      KeptIds(rest);
      IdsAppend(x, rest);
      if a.id !in Ids(rest) {
        assert x + FirstOfEachId(y) == (x + FirstOfEachId(rest)) + [a];
        FirstSnoc(x + FirstOfEachId(rest), a);
      }
    }
  }

  lemma {:induction false} UnionOnTheLeft(x: seq<Attachment>, y: seq<Attachment>)
    ensures FirstOfEachId(FirstOfEachId(x) + y) == FirstOfEachId(x + y)
  {
    if y == [] {
      UnionOnTheRight([], x);
      assert [] + x == x && [] + FirstOfEachId(x) == FirstOfEachId(x);
      assert x + y == x && FirstOfEachId(x) + y == FirstOfEachId(x);
    } else {
      var rest, a := y[..|y| - 1], y[|y| - 1];
      UnionOnTheLeft(x, rest);
      assert x + y == (x + rest) + [a] && FirstOfEachId(x) + y == (FirstOfEachId(x) + rest) + [a];
      FirstSnoc(x + rest, a);
      FirstSnoc(FirstOfEachId(x) + rest, a);
    }
  }

  lemma AttachmentsOfOne(events: seq<Event>)
    requires events != []
    ensures var kept := AllAttachments([Coalesced(events).value]);
      kept == AllAttachments(events) || kept == FirstOfEachId(AllAttachments(events))
  {
    assert [Coalesced(events).value][..0] == [];
    assert |events| == 1 ==> events == [events[0]];
  }

  lemma UnionOfParts(p: seq<Attachment>, q: seq<Attachment>, x: seq<Attachment>, y: seq<Attachment>)
    requires (p == x || p == FirstOfEachId(x)) && (q == y || q == FirstOfEachId(y))
    ensures FirstOfEachId(p + q) == FirstOfEachId(x + y)
  {
    UnionOnTheLeft(x, q);
    UnionOnTheRight(x, y);
  }

  lemma AttachmentsOfTwo(a: seq<Event>, b: seq<Event>)
    requires a != [] && b != []
    ensures FirstOfEachId(AllAttachments([Coalesced(a).value, Coalesced(b).value]))
      == FirstOfEachId(AllAttachments(a + b))
  {
    var A, B := [Coalesced(a).value], [Coalesced(b).value];
    AllAttachmentsAppend(a, b);
    AttachmentsOfOne(a);
    AttachmentsOfOne(b);
    UnionOfParts(AllAttachments(A), AllAttachments(B), AllAttachments(a), AllAttachments(b));
    AllAttachmentsAppend(A, B);
    assert [Coalesced(a).value, Coalesced(b).value] == A + B;
  }

  function JoinedOnce(parts: seq<string>): seq<string> {
    if parts == [] then [] else [JoinLines(parts)]
  }

  lemma JoiningTwice(p: seq<string>, q: seq<string>)
    ensures JoinLines(JoinedOnce(p) + JoinedOnce(q)) == JoinLines(p + q)
  {
    if p == [] {
      assert p + q == q && JoinedOnce(p) + JoinedOnce(q) == JoinedOnce(q);
    } else if q == [] {
      assert p + q == p && JoinedOnce(p) + JoinedOnce(q) == JoinedOnce(p);
    } else {
      JoinLinesAppend(p, q);
      JoinLinesAppend([JoinLines(p)], [JoinLines(q)]);
    }
  }

  lemma ContentsOfTwo(a: seq<Event>, b: seq<Event>)
    requires a != [] && b != []
    ensures JoinLines(NonBlankContents([Coalesced(a).value, Coalesced(b).value])) == JoinLines(NonBlankContents(a + b))
  {
    NonBlankAppend([Coalesced(a).value], [Coalesced(b).value]);
    assert [Coalesced(a).value, Coalesced(b).value] == [Coalesced(a).value] + [Coalesced(b).value];
    NonBlankAppend(a, b);
    ContentOfOne(a);
    ContentOfOne(b);
    JoiningTwice(NonBlankContents(a), NonBlankContents(b));
  }

  /** Coalescing two halves of a batch and then the two results is coalescing the batch at once. */
  lemma SplitBatchesCoalesceTheSame(a: seq<Event>, b: seq<Event>)
    requires a != [] && b != []
    ensures Coalesced(a + b) == Coalesced([Coalesced(a).value, Coalesced(b).value])
  {
    AttachmentsOfTwo(a, b);
    ContentsOfTwo(a, b);
    assert (a + b)[|a + b| - 1] == b[|b| - 1] && (a + b)[0] == a[0];
  }

  // --- What a coalesced message is ---

  /** The contents with text, in order: `at` are their positions, which are all there are. */
  ghost predicate TextsAt(events: seq<Event>, texts: seq<string>, at: seq<int>) {
    && |at| == |texts| && (forall i, j :: 0 <= i < j < |at| ==> at[i] < at[j])
    && (forall i :: 0 <= i < |at| ==>
          0 <= at[i] < |events| && !Blank(events[at[i]].content) && texts[i] == events[at[i]].content)
    && forall k :: 0 <= k < |events| && !Blank(events[k].content) ==> k in at
  }

  lemma {:induction false} NonBlankMeaning(events: seq<Event>) returns (at: seq<int>)
    ensures TextsAt(events, NonBlankContents(events), at)
  {
    at := [];
    if events != [] {
      var n := |events| - 1;
      var before := NonBlankMeaning(events[..n]);
      TrimmedAway(events[n].content);
      at := if Blank(events[n].content) then before else before + [n];
      forall k | 0 <= k < |events| && !Blank(events[k].content) ensures k in at {
        if k == n {
          assert at[|before|] == n;
        } else {
          assert events[..n][k] == events[k];
          var i :| 0 <= i < |before| && before[i] == k;
          assert at[i] == k;
        }
      }
    }
  }

  /** Lines joined are one after the other, with a line feed in between. */
  lemma {:induction false} JoinLinesMeaning(a: seq<string>, b: seq<string>)
    ensures JoinLines(a + b) ==
      if a == [] then JoinLines(b) else if b == [] then JoinLines(a) else JoinLines(a) + "\n" + JoinLines(b)
    ensures |a| == 1 ==> JoinLines(a) == a[0]
  {
    if a == [] {
      assert a + b == b;
    } else if b == [] {
      assert a + b == a;
    } else {
      JoinLinesAppend(a, b);
    }
  }

  /**
   * A message coalesced of several: identity, session and arrival of the first, platform id of the last with its
   * delivery id or one made of it, all the texts, and each attachment once.
   */
  lemma CoalescedMeaning(events: seq<Event>) returns (at: seq<int>)
    requires |events| >= 2
    ensures Coalesced(events).Some?
    ensures var (e, first, last) := (Coalesced(events).value, events[0], events[|events| - 1]);
      && e.id == first.id && e.session == first.session && e.receivedAt == first.receivedAt
      && e.platformId == last.platformId
      && e.deliveryId == (if last.deliveryId.Some? then last.deliveryId else Some("discord:" + last.platformId))
      && TextsAt(events, NonBlankContents(events), at) && e.content == JoinLines(NonBlankContents(events))
      && e.attachments == FirstOfEachId(AllAttachments(events))
  {
    at := NonBlankMeaning(events);
  }

  lemma OneOrNone(e: Event)
    ensures Coalesced([]) == None && Coalesced([e]) == Some(e) && AllAttachments([e]) == e.attachments
  {
  }

  // --- The buffer and its timers ---

  datatype Batch = Batch(events: seq<Event>, generation: nat)

  datatype Timer = Timer(session: Session, generation: nat)

  datatype Removal = Removal(session: Session, events: seq<Event>)

  /** `timers` are asleep, in the order they were spawned; `taken` is the history of batches removed. */
  datatype State = State(buffer: map<Session, Batch>, timers: seq<Timer>, taken: seq<Removal>)

  datatype Step = Enqueue(event: Event) | Fire(i: nat) | Cancel(session: Session)

  function Take(s: State, x: Session): State
    requires x in s.buffer
  {
    State(s.buffer - {x}, s.timers, s.taken + [Removal(x, s.buffer[x].events)])
  }

  predicate Flushes(s: State, t: Timer) {
    t.session in s.buffer && s.buffer[t.session].generation == t.generation
  }

  function Next(s: State, step: Step): State {
    match step
    case Enqueue(e) =>
      var b := if e.session in s.buffer then s.buffer[e.session] else Batch([], 0);
      s.(buffer := s.buffer[e.session := Batch(b.events + [e], b.generation + 1)],
         timers := s.timers + [Timer(e.session, b.generation + 1)])
    case Fire(i) =>
      if i >= |s.timers| then s
      else
        var rest := s.(timers := s.timers[..i] + s.timers[i + 1..]);
        if Flushes(s, s.timers[i]) then Take(rest, s.timers[i].session) else rest
    case Cancel(x) => if x in s.buffer then Take(s, x) else s
  }

  class SplitMessageDebouncer {
    var buffer: map<Session, Batch>
    var timers: seq<Timer>
    ghost var taken: seq<Removal>

    ghost function Snapshot(): State
      reads this
    {
      State(buffer, timers, taken)
    }

    constructor ()
      ensures Snapshot() == State(map[], [], [])
    {
      buffer, timers, taken := map[], [], [];
    }

    method Enqueue(event: Event)
      modifies this
      ensures Snapshot() == Next(old(Snapshot()), Step.Enqueue(event))
    {
      var session := event.session;
      if session !in buffer {
        buffer := buffer[session := Batch([], 0)];
      }
      var batch := buffer[session];
      buffer := buffer[session := batch.(events := batch.events + [event], generation := batch.generation + 1)];
      timers := timers + [Timer(session, batch.generation + 1)];
    }

    /** A timer task waking up: what it routes. */
    method Wake(i: nat) returns (routed: Option<Event>)
      requires i < |timers|
      modifies this
      ensures Snapshot() == Next(old(Snapshot()), Fire(i))
      ensures routed
        == if Flushes(old(Snapshot()), old(timers)[i]) then Coalesced(old(buffer)[old(timers)[i].session].events)
           else None
    {
      var timer := timers[i];
      timers := timers[..i] + timers[i + 1..];
      routed := None;
      if timer.session in buffer {
        var batch := buffer[timer.session];
        if batch.generation == timer.generation {
          buffer := buffer - {timer.session};
          taken := taken + [Removal(timer.session, batch.events)];
          routed := CoalesceInboundEvents(batch.events);
        }
      }
    }

    method Cancel(session: Session) returns (events: Option<seq<Event>>)
      modifies this
      ensures Snapshot() == Next(old(Snapshot()), Step.Cancel(session))
      ensures events == if session in old(buffer) then Some(old(buffer)[session].events) else None
    {
      events := None;
      if session in buffer {
        events := Some(buffer[session].events);
        taken := taken + [Removal(session, buffer[session].events)];
        buffer := buffer - {session};
      }
    }
  }

  // --- Every run ---

  function After(run: seq<Step>): State {
    if run == [] then State(map[], [], []) else Next(After(run[..|run| - 1]), run[|run| - 1])
  }

  /** Everything enqueued for a session, in order. */
  function EnqueuedFor(run: seq<Step>, x: Session): seq<Event> {
    if run == [] then []
    else
      var step := run[|run| - 1];
      EnqueuedFor(run[..|run| - 1], x) + if step.Enqueue? && step.event.session == x then [step.event] else []
  }

  /** Everything taken out of the buffer for a session, in order of removal. */
  function TakenFor(taken: seq<Removal>, x: Session): seq<Event> {
    if taken == [] then []
    else
      var last := taken[|taken| - 1];
      TakenFor(taken[..|taken| - 1], x) + if last.session == x then last.events else []
  }

  function BufferedFor(s: State, x: Session): seq<Event> {
    if x in s.buffer then s.buffer[x].events else []
  }

  lemma TakeMoves(s: State, x: Session, y: Session)
    requires x in s.buffer
    ensures TakenFor(Take(s, x).taken, y) + BufferedFor(Take(s, x), y) == TakenFor(s.taken, y) + BufferedFor(s, y)
  {
    assert Take(s, x).taken[..|s.taken|] == s.taken;
  }

  /** All that is accounted for of a session: taken out, or still buffered. */
  function Accounted(s: State, x: Session): seq<Event> {
    TakenFor(s.taken, x) + BufferedFor(s, x)
  }

  function Arriving(step: Step, x: Session): seq<Event> {
    if step.Enqueue? && step.event.session == x then [step.event] else []
  }

  lemma EnqueueAccounts(s: State, e: Event, x: Session)
    ensures Accounted(Next(s, Enqueue(e)), x) == Accounted(s, x) + Arriving(Enqueue(e), x)
  {
    Regroup(TakenFor(s.taken, x), BufferedFor(s, x), Arriving(Enqueue(e), x));
    assert e.session != x ==> BufferedFor(s, x) + [] == BufferedFor(s, x);
  }

  lemma RemovalAccounts(s: State, step: Step, x: Session)
    requires !step.Enqueue?
    ensures Accounted(Next(s, step), x) == Accounted(s, x)
  {
    match step {
      case Fire(i) =>
        if i < |s.timers| && Flushes(s, s.timers[i]) {
          TakeMoves(s.(timers := s.timers[..i] + s.timers[i + 1..]), s.timers[i].session, x);
        }
      case Cancel(y) =>
        if y in s.buffer {
          TakeMoves(s, y, x);
        }
    }
  }

  /** Batches taken out, in order, and then what is still buffered: every event once and in order. */
  lemma {:induction false} NothingIsLostOrRepeated(run: seq<Step>, x: Session)
    ensures Accounted(After(run), x) == EnqueuedFor(run, x)
  {
    if run != [] {
      var s, step := After(run[..|run| - 1]), run[|run| - 1];
      NothingIsLostOrRepeated(run[..|run| - 1], x);
      if step.Enqueue? {
        EnqueueAccounts(s, step.event, x);
      } else {
        RemovalAccounts(s, step, x);
      }
    }
  }

  /** A batch is never empty, its generation counts its events, and a timer of that generation is outstanding. */
  ghost predicate BatchOk(s: State, x: Session)
    requires x in s.buffer
  {
    && s.buffer[x].generation == |s.buffer[x].events| > 0
    && exists i :: 0 <= i < |s.timers| && s.timers[i] == Timer(x, s.buffer[x].generation)
  }

  lemma StepKeepsBatch(s: State, step: Step, x: Session)
    requires x in s.buffer ==> BatchOk(s, x)
    ensures x in Next(s, step).buffer ==> BatchOk(Next(s, step), x)
  {
    var v := Next(s, step);
    if x in v.buffer {
      if step.Enqueue? && step.event.session == x {
        assert v.timers[|s.timers|] == Timer(x, v.buffer[x].generation);
      } else {
        var i :| 0 <= i < |s.timers| && s.timers[i] == Timer(x, s.buffer[x].generation);
        if step.Fire? && step.i < |s.timers| {
          assert i != step.i;
          assert v.timers[if i < step.i then i else i - 1] == s.timers[i];
        } else {
          assert v.timers[i] == s.timers[i];
        }
      }
    }
  }

  lemma {:induction false} EveryBatchHasItsTimer(run: seq<Step>, x: Session)
    requires x in After(run).buffer
    ensures BatchOk(After(run), x)
  {
    if run != [] {
      var before := run[..|run| - 1];
      if x in After(before).buffer {
        EveryBatchHasItsTimer(before, x);
      }
      StepKeepsBatch(After(before), run[|run| - 1], x);
    }
  }

  /** Once the timers have all fired, everything enqueued has been taken out. */
  lemma NothingIsStranded(run: seq<Step>, x: Session)
    requires After(run).timers == []
    ensures x !in After(run).buffer && TakenFor(After(run).taken, x) == EnqueuedFor(run, x)
  {
    if x in After(run).buffer {
      EveryBatchHasItsTimer(run, x);
    }
    NothingIsLostOrRepeated(run, x);
  }

  lemma CancelledBatchLeavesItsTimer(a: Event)
    ensures After([Enqueue(a), Cancel(a.session)]) == State(map[], [Timer(a.session, 1)], [Removal(a.session, [a])])
  {
    AfterSnoc([], Enqueue(a));
    AfterSnoc([Enqueue(a)], Cancel(a.session));
    assert [] + [Enqueue(a)] == [Enqueue(a)] && [Enqueue(a)] + [Cancel(a.session)] == [Enqueue(a), Cancel(a.session)];
    assert Batch([], 0).events + [a] == [a];
    assert After([Enqueue(a)]) == State(map[a.session := Batch([a], 1)], [Timer(a.session, 1)], []);
    assert map[a.session := Batch([a], 1)] - {a.session} == map[];
  }

  lemma EarlierTimerFlushes(s: State, b: Event)
    requires s.buffer == map[] && s.timers == [Timer(b.session, 1)]
    ensures Next(Next(s, Enqueue(b)), Fire(0))
      == State(map[], [Timer(b.session, 1)], s.taken + [Removal(b.session, [b])])
  {
    var t := Timer(b.session, 1);
    var v := Next(s, Enqueue(b));
    assert Batch([], 0).events + [b] == [b];
    assert v.buffer == map[b.session := Batch([b], 1)] && v.timers == [t, t] && v.taken == s.taken;
    assert v.timers[..0] + v.timers[1..] == [t];
    assert map[b.session := Batch([b], 1)] - {b.session} == map[];
  }

  /** Generations restart: the timer of a cancelled batch flushes the next one while its own timer is still asleep. */
  lemma StaleTimerFlushesEarly(a: Event, b: Event)
    requires a.session == b.session
    ensures var run := [Enqueue(a), Cancel(a.session), Enqueue(b), Fire(0)];
      After(run).taken == [Removal(a.session, [a]), Removal(a.session, [b])]
        && After(run).timers == [Timer(a.session, 1)]
  {
    var run := [Enqueue(a), Cancel(a.session)];
    CancelledBatchLeavesItsTimer(a);
    EarlierTimerFlushes(After(run), b);
    AfterSnoc(run, Enqueue(b));
    AfterSnoc(run + [Enqueue(b)], Fire(0));
    assert run + [Enqueue(b)] + [Fire(0)] == [Enqueue(a), Cancel(a.session), Enqueue(b), Fire(0)];
  }

  lemma AfterSnoc(run: seq<Step>, step: Step)
    ensures After(run + [step]) == Next(After(run), step)
  {
    assert (run + [step])[..|run|] == run;
  }

  function GenerationsOf(timers: seq<Timer>, x: Session): seq<nat> {
    if timers == [] then []
    else (if timers[0].session == x then [timers[0].generation] else []) + GenerationsOf(timers[1..], x)
  }

  lemma {:induction false} GenerationsSnoc(timers: seq<Timer>, t: Timer, x: Session)
    ensures GenerationsOf(timers + [t], x) == GenerationsOf(timers, x) + if t.session == x then [t.generation] else []
  {
    if timers == [] {
      assert [] + [t] == [t] && [t][1..] == [];
    } else {
      GenerationsSnoc(timers[1..], t, x);
      assert (timers + [t])[1..] == timers[1..] + [t];
    }
  }

  lemma {:induction false} NoGenerationsNoTimer(timers: seq<Timer>, x: Session, i: int)
    requires GenerationsOf(timers, x) == [] && 0 <= i < |timers|
    ensures timers[i].session != x
  {
    if i > 0 {
      NoGenerationsNoTimer(timers[1..], x, i - 1);
    }
  }

  lemma {:induction false} GenerationHasTimer(timers: seq<Timer>, x: Session) returns (i: nat)
    requires GenerationsOf(timers, x) != []
    ensures i < |timers| && timers[i].session == x
  {
    if timers[0].session == x {
      i := 0;
    } else {
      var k := GenerationHasTimer(timers[1..], x);
      i := k + 1;
    }
  }

  /** Timers wake in the order they were spawned, as equal delays make them. */
  predicate InOrder(run: seq<Step>) {
    forall i :: 0 <= i < |run| && run[i].Fire? ==> run[i].i == 0
  }

  /**
   * How many outstanding timers of `x` are older than its last removal: a step that removes the batch leaves only such.
   */
  function StaleAfter(s: State, step: Step, x: Session, stale: nat): nat {
    var v := Next(s, step);
    if x in s.buffer && x !in v.buffer then |GenerationsOf(v.timers, x)|
    else if step.Fire? && step.i < |s.timers| && s.timers[step.i].session == x && stale > 0 then stale - 1
    else stale
  }

  function Stale(run: seq<Step>, x: Session): nat {
    if run == [] then 0
    else
      var before, step := run[..|run| - 1], run[|run| - 1];
      StaleAfter(After(before), step, x, Stale(before, x))
  }

  ghost predicate LatestUpTo(g: seq<nat>, n: nat) {
    |g| <= n && forall j :: 0 <= j < |g| ==> g[j] == n - |g| + 1 + j
  }

  /** The stale timers come first; the others are those of the latest generations of the batch, and a batch has one. */
  ghost predicate Split(g: seq<nat>, stale: nat, n: nat) {
    stale <= |g| && LatestUpTo(g[stale..], n) && (n > 0 ==> stale < |g|)
  }

  ghost predicate TimersAreSplit(s: State, x: Session, stale: nat) {
    Split(GenerationsOf(s.timers, x), stale, |BufferedFor(s, x)|)
  }

  lemma SplitSnoc(g: seq<nat>, stale: nat, n: nat)
    requires Split(g, stale, n)
    ensures Split(g + [n + 1], stale, n + 1)
  {
    assert (g + [n + 1])[stale..] == g[stale..] + [n + 1];
  }

  lemma EnqueueKeepsSplit(s: State, e: Event, x: Session, stale: nat)
    requires TimersAreSplit(s, x, stale) && (x in s.buffer ==> BatchOk(s, x))
    ensures TimersAreSplit(Next(s, Enqueue(e)), x, StaleAfter(s, Enqueue(e), x, stale))
  {
    var generation := if e.session in s.buffer then s.buffer[e.session].generation + 1 else 1;
    var g := GenerationsOf(s.timers, x);
    GenerationsSnoc(s.timers, Timer(e.session, generation), x);
    if e.session == x {
      SplitSnoc(g, stale, |BufferedFor(s, x)|);
    } else {
      assert g + [] == g;
    }
  }

  /** Once its batch is removed, all outstanding timers of a session are stale. */
  lemma RemovalMakesStale(v: State, x: Session)
    requires x !in v.buffer
    ensures TimersAreSplit(v, x, |GenerationsOf(v.timers, x)|)
  {
    var g := GenerationsOf(v.timers, x);
    assert g[|g|..] == [];
  }

  /** The first of the timers wakes and does not belong to the whole batch: a stale one, or one of an earlier event. */
  lemma SplitTail(g: seq<nat>, stale: nat, n: nat)
    requires g != [] && Split(g, stale, n) && (n > 0 ==> g[0] != n || stale > 0)
    ensures Split(g[1..], if stale > 0 then stale - 1 else 0, n)
  {
    if stale > 0 {
      assert g[1..][stale - 1..] == g[stale..];
    } else {
      assert g[0..] == g && g[1..][0..] == g[1..];
      assert n > 0 && g[0] == n - |g| + 1;
    }
  }

  lemma OwnTimerWakes(s: State, x: Session, stale: nat)
    requires s.timers != [] && s.timers[0].session == x && TimersAreSplit(s, x, stale)
    requires x in s.buffer ==> BatchOk(s, x)
    requires !Flushes(s, s.timers[0])
    ensures Split(GenerationsOf(s.timers[1..], x), if stale > 0 then stale - 1 else 0, |BufferedFor(s, x)|)
  {
    var g := GenerationsOf(s.timers, x);
    assert g[0] == s.timers[0].generation && GenerationsOf(s.timers[1..], x) == g[1..];
    SplitTail(g, stale, |BufferedFor(s, x)|);
  }

  lemma ForeignWakeKeepsSplit(s: State, x: Session, stale: nat)
    requires s.timers != [] && s.timers[0].session != x && TimersAreSplit(s, x, stale)
    ensures TimersAreSplit(Next(s, Fire(0)), x, StaleAfter(s, Fire(0), x, stale))
  {
    var v := Next(s, Fire(0));
    assert s.timers[..0] + s.timers[1..] == s.timers[1..];
    assert BufferedFor(v, x) == BufferedFor(s, x);
    assert GenerationsOf(s.timers, x) == GenerationsOf(s.timers[1..], x);
  }

  lemma WakeKeepsSplit(s: State, x: Session, stale: nat)
    requires s.timers != [] && TimersAreSplit(s, x, stale) && (x in s.buffer ==> BatchOk(s, x))
    ensures TimersAreSplit(Next(s, Fire(0)), x, StaleAfter(s, Fire(0), x, stale))
  {
    var v := Next(s, Fire(0));
    assert s.timers[..0] + s.timers[1..] == s.timers[1..];
    if s.timers[0].session != x {
      ForeignWakeKeepsSplit(s, x, stale);
    } else if Flushes(s, s.timers[0]) {
      RemovalMakesStale(v, x);
    } else {
      OwnTimerWakes(s, x, stale);
    }
  }

  lemma CancelKeepsSplit(s: State, y: Session, x: Session, stale: nat)
    requires TimersAreSplit(s, x, stale)
    ensures TimersAreSplit(Next(s, Cancel(y)), x, StaleAfter(s, Cancel(y), x, stale))
  {
    if y == x && x in s.buffer {
      RemovalMakesStale(Next(s, Cancel(y)), x);
    }
  }

  lemma {:induction false} TimersStaySplit(run: seq<Step>, x: Session)
    requires InOrder(run)
    ensures TimersAreSplit(After(run), x, Stale(run, x))
  {
    if run != [] {
      var before, step := run[..|run| - 1], run[|run| - 1];
      var s := After(before);
      TimersStaySplit(before, x);
      if x in s.buffer {
        EveryBatchHasItsTimer(before, x);
      }
      match step {
        case Enqueue(e) => EnqueueKeepsSplit(s, e, x, Stale(before, x));
        case Fire(_) =>
          if s.timers != [] {
            WakeKeepsSplit(s, x, Stale(before, x));
          }
        case Cancel(y) => CancelKeepsSplit(s, y, x, Stale(before, x));
      }
    }
  }

  /** A flush leaves another timer of the batch asleep exactly when a stale timer came first. */
  lemma SplitFlush(g: seq<nat>, stale: nat, n: nat)
    requires g != [] && Split(g, stale, n) && n > 0 && g[0] == n
    ensures g[1..] != [] <==> stale > 0
  {
    assert stale == 0 ==> g[0..] == g;
  }

  /**
   * With timers waking in order, a batch is flushed early, while a timer of a later event is still asleep, exactly when
   * an outstanding timer of the session is older than its last removal.
   */
  lemma FlushIsEarlyExactlyWhenStale(run: seq<Step>, x: Session)
    requires InOrder(run) && After(run).timers != []
    requires After(run).timers[0].session == x && Flushes(After(run), After(run).timers[0])
    ensures (exists i :: 0 < i < |After(run).timers| && After(run).timers[i].session == x) <==> Stale(run, x) > 0
  {
    var timers := After(run).timers;
    TimersStaySplit(run, x);
    EveryBatchHasItsTimer(run, x);
    assert GenerationsOf(timers, x)[0] == timers[0].generation;
    assert GenerationsOf(timers[1..], x) == GenerationsOf(timers, x)[1..];
    SplitFlush(GenerationsOf(timers, x), Stale(run, x), |BufferedFor(After(run), x)|);
    if GenerationsOf(timers[1..], x) != [] {
      var i := GenerationHasTimer(timers[1..], x);
      assert timers[i + 1].session == x;
    } else {
      forall i | 0 < i < |timers| ensures timers[i].session != x {
        NoGenerationsNoTimer(timers[1..], x, i - 1);
      }
    }
  }

  /** Timers wake in order, and a cancellation of `x` finds nothing buffered. */
  predicate OrderlyFor(run: seq<Step>, x: Session) {
    InOrder(run) && forall i :: 0 <= i < |run| && run[i] == Cancel(x) ==> x !in After(run[..i]).buffer
  }

  lemma OrderlyPrefix(run: seq<Step>, x: Session)
    requires run != [] && OrderlyFor(run, x)
    ensures OrderlyFor(run[..|run| - 1], x)
  {
    var before := run[..|run| - 1];
    forall i | 0 <= i < |before| && before[i] == Cancel(x) ensures x !in After(before[..i]).buffer {
      assert before[..i] == run[..i] && run[i] == Cancel(x);
    }
  }

  lemma {:induction false} OrderlyIsNeverStale(run: seq<Step>, x: Session)
    requires OrderlyFor(run, x)
    ensures Stale(run, x) == 0
  {
    if run != [] {
      var before, step := run[..|run| - 1], run[|run| - 1];
      OrderlyPrefix(run, x);
      OrderlyIsNeverStale(before, x);
      FlushLeavesNothing(before, step, x);
    }
  }

  lemma {:induction false} NoTimerNoGenerations(timers: seq<Timer>, x: Session)
    requires forall i :: 0 <= i < |timers| ==> timers[i].session != x
    ensures GenerationsOf(timers, x) == []
  {
    if timers != [] {
      NoTimerNoGenerations(timers[1..], x);
    }
  }

  lemma OnlyFlushesRemove(s: State, step: Step, x: Session)
    requires x in s.buffer && x !in Next(s, step).buffer && step != Cancel(x) && (step.Fire? ==> step.i == 0)
    ensures step == Fire(0) && s.timers != [] && s.timers[0].session == x && Flushes(s, s.timers[0])
    ensures Next(s, step).timers == s.timers[1..]
  {
    assert s.timers != [] ==> s.timers[..0] + s.timers[1..] == s.timers[1..];
  }

  lemma FlushLeavesNothing(before: seq<Step>, step: Step, x: Session)
    requires InOrder(before) && Stale(before, x) == 0 && (step.Fire? ==> step.i == 0)
    requires step == Cancel(x) ==> x !in After(before).buffer
    ensures StaleAfter(After(before), step, x, 0) == 0
  {
    var s := After(before);
    if x in s.buffer && x !in Next(s, step).buffer {
      OnlyFlushesRemove(s, step, x);
      FlushIsEarlyExactlyWhenStale(before, x);
      var rest := s.timers[1..];
      forall i | 0 <= i < |rest| ensures rest[i].session != x {
        assert rest[i] == s.timers[i + 1];
      }
      NoTimerNoGenerations(rest, x);
    }
  }

  /** Then a batch is flushed only by the timer of its last event: no event joined it during the whole delay. */
  lemma OrderlyFlushesAreQuiet(run: seq<Step>, x: Session, i: nat)
    requires OrderlyFor(run, x) && 0 < i < |After(run).timers|
    requires After(run).timers[0].session == x && Flushes(After(run), After(run).timers[0])
    ensures After(run).timers[i].session != x
  {
    OrderlyIsNeverStale(run, x);
    FlushIsEarlyExactlyWhenStale(run, x);
  }
}
