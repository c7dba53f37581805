/** What a turn says and when it ends, over whole streams of frames: src/agent/omo_backend.rs, lines 381-676. */
module TurnAnswer {
  import opened Prelude
  import opened Text
  import opened TurnLoop

  // --- What the final message reads ---

  /** `a` is before `b` by what stands behind their first `k` characters. */
  predicate FirstDifference(a: string, b: string, k: nat) {
    k <= |a| && k < |b| && a[..k] == b[..k] && (k == |a| || a[k] < b[k])
  }

  /** Lexicographic order: the first difference decides, and a prefix comes first. */
  lemma LessMeaning(a: string, b: string)
    ensures Less(a, b) <==> exists k: nat :: FirstDifference(a, b, k)
  {
    if Less(a, b) {
      var k := LessDiffers(a, b);
    }
    forall k: nat | FirstDifference(a, b, k) ensures Less(a, b) {
      DifferenceIsLess(a, b, k);
    }
  }

  lemma {:induction false} LessDiffers(a: string, b: string) returns (k: nat)
    requires Less(a, b)
    ensures FirstDifference(a, b, k)
  {
    if a == [] || a[0] < b[0] {
      k := 0;
    } else {
      var n := LessDiffers(a[1..], b[1..]);
      k := n + 1;
      assert a[..k] == [a[0]] + a[1..][..n] && b[..k] == [b[0]] + b[1..][..n];
    }
  }

  lemma {:induction false} DifferenceIsLess(a: string, b: string, k: nat)
    requires FirstDifference(a, b, k)
    ensures Less(a, b)
  {
    if k > 0 {
      var n := k - 1;
      assert a[..k][0] == a[0] && b[..k][0] == b[0];
      assert a[1..][..n] == a[..k][1..] && b[1..][..n] == b[..k][1..];
      DifferenceIsLess(a[1..], b[1..], n);
    }
  }

  lemma {:induction false} LessIsTransitive(a: string, b: string, c: string)
    requires Less(a, b) && Less(b, c)
    ensures Less(a, c)
  {
    if a != [] && a[0] == b[0] && b[0] == c[0] {
      LessIsTransitive(a[1..], b[1..], c[1..]);
    }
  }

  lemma {:induction false} LessIsTotal(a: string, b: string)
    ensures Less(a, b) || a == b || Less(b, a)
  {
    if a != [] && b != [] && a[0] == b[0] {
      LessIsTotal(a[1..], b[1..]);
      assert a[1..] == b[1..] ==> a == [a[0]] + a[1..] == [b[0]] + b[1..] == b;
    }
  }

  lemma {:induction false} LessIsStrict(a: string)
    ensures !Less(a, a)
  {
    if a != [] {
      LessIsStrict(a[1..]);
    }
  }

  /** The keys of the ordered map, in order and each with a count. */
  ghost predicate Sorted(counts: seq<Count>) {
    && (forall i, j :: 0 <= i < j < |counts| ==> Less(counts[i].tool, counts[j].tool))
    && forall i :: 0 <= i < |counts| ==> counts[i].n > 0
  }

  lemma {:induction false} BumpKeepsSorted(counts: seq<Count>, tool: string)
    requires Sorted(counts)
    ensures Sorted(Bump(counts, tool))
    ensures forall c :: c in Bump(counts, tool) ==> c.tool == tool || exists d :: d in counts && d.tool == c.tool
  {
    if counts != [] {
      var first, rest := counts[0], counts[1..];
      if Less(tool, first.tool) {
        forall j | 0 <= j < |counts| ensures Less(tool, counts[j].tool) {
          if j > 0 {
            LessIsTransitive(tool, first.tool, counts[j].tool);
          }
        }
      } else if first.tool != tool {
        LessIsTotal(tool, first.tool);
        BumpKeepsSorted(rest, tool);
        forall c | c in Bump(rest, tool) ensures Less(first.tool, c.tool) {
        }
      }
    }
  }

  lemma CountsStaySorted(c: Config, s: State, x: Incoming)
    requires Receive(c, s, x).Running? && Sorted(s.counts)
    ensures Sorted(Receive(c, s, x).state.counts)
  {
    ToolsAfterOne(c, s, x);
    if StartedBy(x).Some? {
      BumpKeepsSorted(s.counts, ToolName(StartedBy(x).value));
    }
  }

  lemma {:induction false} CountsAreSorted(c: Config, incoming: seq<Incoming>)
    requires After(c, incoming).Running?
    ensures Sorted(After(c, incoming).state.counts)
  {
    if incoming != [] {
      var n := |incoming| - 1;
      CountsAreSorted(c, incoming[..n]);
      CountsStaySorted(c, After(c, incoming[..n]).state, incoming[n]);
    }
  }

  lemma {:induction false} CountOfSorted(counts: seq<Count>, i: nat)
    requires Sorted(counts) && i < |counts|
    ensures CountOf(counts, counts[i].tool) == counts[i].n
  {
    if i == 0 {
      var rest := counts[1..];
      LessIsStrict(counts[0].tool);
      forall j | 0 <= j < |rest| ensures rest[j].tool != counts[0].tool {
        assert rest[j] == counts[j + 1];
      }
      AbsentIsNotCounted(rest, counts[0].tool);
    } else {
      LessIsStrict(counts[i].tool);
      CountOfSorted(counts[1..], i - 1);
    }
  }

  lemma {:induction false} AbsentIsNotCounted(counts: seq<Count>, tool: string)
    requires forall j :: 0 <= j < |counts| ==> counts[j].tool != tool
    ensures CountOf(counts, tool) == 0
  {
    if counts != [] {
      AbsentIsNotCounted(counts[1..], tool);
    }
  }

  // --- The badge ---

  ghost predicate Ascending(names: seq<string>) {
    forall i, j :: 0 <= i < j < |names| ==> Less(names[i], names[j])
  }

  function Mention(tool: string, n: nat): string {
    "`" + tool + "`" + if n > 1 then " ×" + Decimal(n) else ""
  }

  /** The names of tools, each with the number of its calls if there are several, separated by commas. */
  function Listing(names: seq<string>, calls: seq<string>): string {
    if names == [] then ""
    else if |names| == 1 then Mention(names[0], multiset(calls)[names[0]])
    else Mention(names[0], multiset(calls)[names[0]]) + ", " + Listing(names[1..], calls)
  }

  /** The badge of these tool calls: their number, and every tool once, in alphabetical order, with its count. */
  ghost predicate IsBadge(badge: string, calls: seq<string>) {
    exists names ::
      && Ascending(names) && (forall t :: t in names <==> t in calls)
      && badge == "-# \U{1F6E0}\U{FE0F} 도구 " + Decimal(|calls|) + "회 실행 (" + Listing(names, calls) + ")"
  }

  function Names(counts: seq<Count>): seq<string> {
    seq(|counts|, i requires 0 <= i < |counts| => counts[i].tool)
  }

  lemma BreakdownMentions(counts: seq<Count>, i: nat)
    requires i < |counts|
    ensures Breakdown(counts)[i] == Mention(counts[i].tool, counts[i].n)
  {
    var tool := "`" + counts[i].tool + "`";
    assert tool + "" == tool;
  }

  lemma BreakdownTail(counts: seq<Count>)
    requires counts != []
    ensures Breakdown(counts)[1..] == Breakdown(counts[1..]) && Names(counts)[1..] == Names(counts[1..])
  {
  }

  lemma {:induction false} BreakdownIsListing(counts: seq<Count>, calls: seq<string>)
    requires forall i :: 0 <= i < |counts| ==> counts[i].n == multiset(calls)[counts[i].tool]
    ensures JoinComma(Breakdown(counts)) == Listing(Names(counts), calls)
  {
    if counts != [] {
      BreakdownIsListing(counts[1..], calls);
      BreakdownTail(counts);
      BreakdownMentions(counts, 0);
    }
  }

  lemma TalliesAreCounts(s: State, items: seq<Item>)
    requires Sorted(s.counts) && forall tool :: Tallied(s, items, tool)
    ensures forall i :: 0 <= i < |s.counts| ==> s.counts[i].n == multiset(ToolCalls(items))[s.counts[i].tool]
    ensures forall t :: t in Names(s.counts) <==> t in ToolCalls(items)
  {
    var calls := ToolCalls(items);
    forall i | 0 <= i < |s.counts| ensures s.counts[i].n == multiset(calls)[s.counts[i].tool] {
      assert Tallied(s, items, s.counts[i].tool);
      CountOfSorted(s.counts, i);
    }
    forall t ensures t in Names(s.counts) <==> t in calls {
      assert Tallied(s, items, t);
      if t !in Names(s.counts) {
        forall j | 0 <= j < |s.counts| ensures s.counts[j].tool != t {
          assert Names(s.counts)[j] == s.counts[j].tool;
        }
        AbsentIsNotCounted(s.counts, t);
      }
    }
  }

  lemma BadgeMeaning(s: State, items: seq<Item>)
    requires Sorted(s.counts) && (forall tool :: Tallied(s, items, tool)) && ToolCalls(items) != []
    ensures IsBadge(Badge(s.counts, s.total), ToolCalls(items))
  {
    var calls := ToolCalls(items);
    TalliesAreCounts(s, items);
    BreakdownIsListing(s.counts, calls);
    assert Tallied(s, items, calls[0]);
    assert calls[0] in Names(s.counts);
    assert Ascending(Names(s.counts));
  }

  // --- The final message ---

  /** The last completed agent message and the deltas after it. */
  function Answer(incoming: seq<Incoming>, k: nat): string
    requires k <= |incoming| && (k > 0 ==> Completed(incoming[k - 1]).Some?)
  {
    (if k == 0 then "" else Completed(incoming[k - 1]).value) + DeltaTexts(incoming[k..])
  }

  /** The answer, or a check mark in its place if it is blank, and behind it the badge of the calls, except for cron. */
  ghost predicate IsFinalText(text: string, cron: bool, answer: string, calls: seq<string>) {
    var body := if Blank(answer) then "✅ Done." else answer;
    if cron || calls == [] then text == body
    else body + "\n\n" <= text && IsBadge(text[|body| + 2..], calls)
  }

  lemma TextBehind(body: string, badge: string)
    ensures body + "\n\n" <= body + "\n\n" + badge && (body + "\n\n" + badge)[|body| + 2..] == badge
  {
  }

  lemma RenderedIsFinalText(cron: bool, s: State, items: seq<Item>)
    requires Sorted(s.counts) && forall tool :: Tallied(s, items, tool)
    ensures IsFinalText(Rendered(cron, s), cron, s.content, ToolCalls(items))
  {
    assert Tallied(s, items, "");
    TrimmedAway(s.content);
    if !cron && ToolCalls(items) != [] {
      BadgeMeaning(s, items);
      TextBehind(if Blank(s.content) then "✅ Done." else s.content, Badge(s.counts, s.total));
    }
  }

  /** The final chunk of a turn, in terms of the frames before it alone, numbered after every chunk before it. */
  lemma FinalChunkIsTheAnswer(c: Config, incoming: seq<Incoming>, x: Incoming, k: nat) returns (text: string)
    requires After(c, incoming).Running? && LastCompletedBefore(incoming, k)
    requires DeliveredFinal(Receive(c, After(c, incoming).state, x).state)
    ensures IsFinalText(text, c.cron, Answer(incoming, k), ToolCalls(StartedItems(incoming)))
    ensures var s := After(c, incoming).state;
      Receive(c, s, x).state.chunks == s.chunks + [Chunk(|s.chunks|, text, true)]
  {
    var s, items := After(c, incoming).state, StartedItems(incoming);
    text := Rendered(c.cron, s);
    FinalChunkShowsTheContent(c, incoming, x);
    ContentIsLastMessageAndLaterDeltas(c, incoming, k);
    CountsAreSorted(c, incoming);
    forall tool ensures Tallied(s, items, tool) {
      ToolCallsAreTallied(c, incoming, tool);
    }
    RenderedIsFinalText(c.cron, s, items);
  }

  /** While the turn runs, each delta with a text, and nothing else, is shown: as the whole answer so far. */
  lemma DeltasShowTheAnswer(c: Config, incoming: seq<Incoming>, x: Incoming, k: nat)
    requires After(c, incoming + [x]).Running? && LastCompletedBefore(incoming + [x], k)
    ensures After(c, incoming).Running?
    ensures After(c, incoming + [x]).state.chunks == After(c, incoming).state.chunks +
      if DeltaText(x) != "" then [Chunk(|After(c, incoming).state.chunks|, Answer(incoming + [x], k), false)] else []
  {
    assert (incoming + [x])[..|incoming|] == incoming;
    ContentIsLastMessageAndLaterDeltas(c, incoming + [x], k);
    EveryTurnIsOpenOrClosed(c, incoming);
    ChunksAfterOne(c, After(c, incoming).state, x);
  }

  lemma ChunksAfterOne(c: Config, s: State, x: Incoming)
    requires Receive(c, s, x).Running?
    ensures var t := Receive(c, s, x).state;
      t.chunks == s.chunks + if DeltaText(x) != "" then [Chunk(s.sequence, t.content, false)] else []
  {
  }

  // --- What a turn remembers ---

  predicate IsAck(x: Incoming) {
    x.what.Text? && x.what.frame.Ack? && x.what.frame.error.None?
  }

  predicate Heard(incoming: seq<Incoming>) {
    exists i :: 0 <= i < |incoming| && IsAck(incoming[i])
  }

  /** When the last text came, or the start. */
  function LastText(incoming: seq<Incoming>): nat {
    if incoming == [] then 0
    else if incoming[|incoming| - 1].what.Text? then incoming[|incoming| - 1].at
    else LastText(incoming[..|incoming| - 1])
  }

  function TurnNamed(x: Incoming): Option<string> {
    if x.what.Text? && (x.what.frame.Ack? || x.what.frame.TurnStarted?) then x.what.frame.turnId else None
  }

  /** The last turn id named by an acknowledgement or a start. */
  function NamedTurn(incoming: seq<Incoming>): Option<string> {
    if incoming == [] then None
    else if TurnNamed(incoming[|incoming| - 1]).Some? then TurnNamed(incoming[|incoming| - 1])
    else NamedTurn(incoming[..|incoming| - 1])
  }

  lemma MemoryAfterOne(c: Config, s: State, x: Incoming)
    requires Receive(c, s, x).Running?
    ensures var t := Receive(c, s, x).state;
      && (t.acknowledged <==> s.acknowledged || IsAck(x))
      && t.lastActivity == (if x.what.Text? then x.at else s.lastActivity)
      && t.turnId == if TurnNamed(x).Some? then TurnNamed(x) else s.turnId
  {
  }

  lemma HeardSnoc(incoming: seq<Incoming>, x: Incoming)
    ensures Heard(incoming + [x]) <==> Heard(incoming) || IsAck(x)
  {
    var more := incoming + [x];
    assert more[|incoming|] == x;
    forall i | 0 <= i < |incoming| ensures more[i] == incoming[i] {
    }
  }

  lemma {:induction false} TurnRemembers(c: Config, incoming: seq<Incoming>)
    requires After(c, incoming).Running?
    ensures var s := After(c, incoming).state;
      (s.acknowledged <==> Heard(incoming)) && s.lastActivity == LastText(incoming) && s.turnId == NamedTurn(incoming)
  {
    if incoming != [] {
      var n := |incoming| - 1;
      TurnRemembers(c, incoming[..n]);
      MemoryAfterOne(c, After(c, incoming[..n]).state, incoming[n]);
      HeardSnoc(incoming[..n], incoming[n]);
      assert incoming[..n] + [incoming[n]] == incoming;
    }
  }

  // --- When a turn ends ---

  /** The message of a turn that is over for this thread, without a failure. */
  predicate Concludes(f: Frame, thread: string) {
    || (f.TurnCompleted? && f.failure.None? && (f.thread.None? || f.thread.value == thread))
    || (f.StatusChanged? && f.thread == Some(thread) && f.idle)
  }

  /**
   * Nothing is late: the acknowledgement if it has not been `heard`, this message after the last text, and the turn,
   * unless it is completed.
   */
  predicate InTime(c: Config, heard: bool, lastText: nat, x: Incoming) {
    (heard || x.at <= 30_000) && x.at - lastText <= c.requestTimeout && !PastItsDeadline(c, x)
  }

  predicate PastItsDeadline(c: Config, x: Incoming) {
    && !(x.what.Text? && x.what.frame.TurnCompleted?)
    && (x.at > c.totalTimeout || (!c.cron && x.at > 300_000))
  }

  lemma ConcludedIsFinished(c: Config, s: State, f: Frame)
    requires Concludes(f, c.thread)
    ensures Handle(c, s, f) == if s.content == "" && s.total == 0 then Running(s) else Finish(c, s)
  {
  }

  lemma OthersDeliverNothing(c: Config, s: State, f: Frame)
    requires !Concludes(f, c.thread) && !f.Delta?
    ensures Handle(c, s, f).state.chunks == s.chunks
  {
  }

  lemma FramesDeliver(c: Config, s: State, f: Frame)
    requires OpenTurn(s)
    ensures DeliveredFinal(Handle(c, s, f).state) <==> Concludes(f, c.thread) && (s.content != "" || s.total > 0)
  {
    if f.Delta? {
      DeltaKeepsOpen(c, s, f.text);
    } else if Concludes(f, c.thread) {
      ConcludedIsFinished(c, s, f);
      FinishSends(c, s);
    } else {
      OthersDeliverNothing(c, s, f);
    }
  }

  lemma ReceiveHandles(c: Config, s: State, x: Incoming)
    requires OpenTurn(s)
    ensures if x.what.Text? && InTime(c, s.acknowledged, s.lastActivity, x)
            then Receive(c, s, x) == Handle(c, s.(lastActivity := x.at), x.what.frame)
            else !DeliveredFinal(Receive(c, s, x).state)
  {
  }

  /**
   * A running turn delivers its final chunk with a message if and only if that comes in time and concludes the turn of
   * this thread, and there has been an answer or a tool call.
   */
  lemma DeliversExactlyWhen(c: Config, incoming: seq<Incoming>, x: Incoming, k: nat)
    requires After(c, incoming).Running? && LastCompletedBefore(incoming, k)
    ensures DeliveredFinal(Receive(c, After(c, incoming).state, x).state) <==>
      && x.what.Text? && InTime(c, Heard(incoming), LastText(incoming), x) && Concludes(x.what.frame, c.thread)
      && (Answer(incoming, k) != "" || ToolCalls(StartedItems(incoming)) != [])
  {
    var s := After(c, incoming).state;
    EveryTurnIsOpenOrClosed(c, incoming);
    TurnRemembers(c, incoming);
    ContentIsLastMessageAndLaterDeltas(c, incoming, k);
    ToolCallsAreTallied(c, incoming, "");
    if x.what.Text? {
      FramesDeliver(c, s.(lastActivity := x.at), x.what.frame);
    }
    ReceiveHandles(c, s, x);
  }

  /** Why a frame fails a turn, if it does, after so many approval requests in a row. */
  function FrameComplaint(c: Config, denials: nat, f: Frame): Option<Reason> {
    match f
    case Ack(Some(error), _) => Some(StartError(error))
    case ApprovalRequest => if denials >= 4 then Some(DenialLoop(denials + 1)) else None
    case TurnCompleted(thread, Some(failure)) =>
      if thread.None? || thread.value == c.thread then Some(TurnFailed(failure)) else None
    case ErrorNotice(true, message) => Some(TurnError(message))
    case _ => None
  }

  /** Why a running turn fails with a message before anything is delivered, the first reason first. */
  function Complaint(c: Config, heard: bool, lastText: nat, denials: nat, x: Incoming): Option<Reason> {
    if x.what.Silence? then Some(Silent)
    else if !heard && x.at > 30_000 then Some(Unacknowledged)
    else if x.at - lastText > c.requestTimeout then Some(Silent)
    else match x.what
      case Broken(error) => Some(StreamError(error))
      case Invalid(error) => Some(InvalidJson(error))
      case Text(frame) =>
        if PastItsDeadline(c, x) then Some(PastDeadline(c.deadlineText)) else FrameComplaint(c, denials, frame)
      case _ => None
  }

  /** The failures are those of the complaints, and come before anything is delivered. */
  ghost predicate FailsFor(p: Progress, complaint: Option<Reason>) {
    if complaint.Some? then p.Ended? && p.result == Err(Llm(complaint.value)) && !DeliveredFinal(p.state)
    else p.Ended? ==> DeliveredFinal(p.state)
  }

  lemma ConcludingFramesFail(c: Config, s: State, f: Frame)
    requires OpenTurn(s) && (f.TurnCompleted? || f.StatusChanged?)
    ensures FailsFor(Handle(c, s, f), FrameComplaint(c, s.denials, f))
  {
    if Concludes(f, c.thread) {
      ConcludedIsFinished(c, s, f);
      FinishSends(c, s);
    }
  }

  lemma OtherFramesFail(c: Config, s: State, f: Frame)
    requires OpenTurn(s) && !f.TurnCompleted? && !f.StatusChanged?
    ensures FailsFor(Handle(c, s, f), FrameComplaint(c, s.denials, f))
  {
  }

  lemma ReceiveFails(c: Config, s: State, x: Incoming)
    requires OpenTurn(s)
    requires x.what.Text? ==>
      FailsFor(Handle(c, s.(lastActivity := x.at), x.what.frame), FrameComplaint(c, s.denials, x.what.frame))
    ensures FailsFor(Receive(c, s, x), Complaint(c, s.acknowledged, s.lastActivity, s.denials, x))
  {
  }

  /** A running turn fails with a message, before it has delivered anything, exactly for these reasons. */
  lemma FailsExactlyWhen(c: Config, incoming: seq<Incoming>, x: Incoming)
    requires After(c, incoming).Running?
    ensures var complaint := Complaint(c, Heard(incoming), LastText(incoming), DenialsInARow(incoming), x);
      FailsFor(Receive(c, After(c, incoming).state, x), complaint)
  {
    var s := After(c, incoming).state;
    EveryTurnIsOpenOrClosed(c, incoming);
    TurnRemembers(c, incoming);
    DenialsAreCounted(c, incoming);
    if x.what.Text? {
      var t, f := s.(lastActivity := x.at), x.what.frame;
      assert OpenTurn(t);
      if f.TurnCompleted? || f.StatusChanged? {
        ConcludingFramesFail(c, t, f);
      } else {
        OtherFramesFail(c, t, f);
      }
    }
    ReceiveFails(c, s, x);
  }

  /** A turn that is past its deadline is interrupted, if its id is known. */
  lemma DeadlineInterrupts(c: Config, incoming: seq<Incoming>, x: Incoming)
    requires After(c, incoming).Running? && x.what.Text? && PastItsDeadline(c, x)
    ensures var s := After(c, incoming).state;
      Receive(c, s, x).Ended? && Receive(c, s, x).result == Err(Llm(PastDeadline(c.deadlineText))) ==>
        Receive(c, s, x).state.interrupts == s.interrupts + if NamedTurn(incoming).Some? then 1 else 0
  {
    TurnRemembers(c, incoming);
  }
}
