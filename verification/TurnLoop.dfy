/**
 * One agent turn over the app-server's frames, and its single retry: src/agent/omo_backend.rs, lines 340-704.
 * Frames are what the loop's branches distinguish; times are milliseconds since the turn started.
 */
module TurnLoop {
  import opened Prelude
  import opened Text

  /** Why the agent failed; `Message` gives the words, which decide the retry. */
  datatype Reason =
    | Setup(text: string)
    | Silent
    | Unacknowledged
    | StreamError(error: string)
    | InvalidJson(error: string)
    | PastDeadline(duration: string)
    | StartError(error: string)
    | DenialLoop(n: nat)
    | TurnFailed(error: string)
    | TurnError(error: string)
    | RowNotWritten(error: string)
    | ClosedEarly

  datatype Error = Llm(reason: Reason) | Database(message: string) | Config(message: string)

  const CONNECTION_CLOSED: string := "connection closed"

  function Message(r: Reason): string {
    match r
    case Setup(text) => text
    case Silent => "timeout during turn streaming"
    case Unacknowledged => "timeout waiting for turn/start acknowledgement from omo app-server"
    case StreamError(error) => "ws streaming error: " + error
    case InvalidJson(error) => "invalid json: " + error
    case PastDeadline(duration) => "turn exceeded total deadline of " + duration + "; turn/interrupt sent"
    case StartError(error) => "turn/start error: " + error
    case DenialLoop(n) => "tool approval denied " + Decimal(n) + " times by gateway policy; turn aborted"
    case TurnFailed(error) => "omo turn failed: " + error
    case TurnError(error) => "omo app-server turn error: " + error
    case RowNotWritten(error) => "ensure session row: " + error
    case ClosedEarly => CONNECTION_CLOSED + " before turn completion"
  }

  /** `name` is the first of `command`, `tool`, `name`, `path` that is present, when it is a string. */
  datatype Item = Item(id: string, kind: Option<string>, name: Option<string>, text: Option<string>)

  datatype Frame =
    | Ack(error: Option<string>, turnId: Option<string>)
    | ApprovalRequest
    | TurnStarted(turnId: Option<string>)
    | ItemStarted(item: Option<Item>)
    | ItemCompleted(item: Option<Item>)
    | Delta(text: Option<string>)
    | TurnCompleted(thread: Option<string>, failure: Option<string>)
    | StatusChanged(thread: Option<string>, idle: bool)
    | ErrorNotice(ofTurn: bool, message: string)
    | Other

  datatype What = Silence | Broken(error: string) | NotText | Invalid(error: string) | Text(frame: Frame)

  datatype Incoming = Incoming(at: nat, what: What)

  datatype Storage = NoPool | Pool(rowError: Option<string>, messageError: Option<string>)

  datatype Config = Config(
    thread: string, cron: bool, requestTimeout: nat, totalTimeout: nat, deadlineText: string,
    ackCommand: Option<string>,
    accepted: bool, storage: Storage)

  datatype Chunk = Chunk(sequence: nat, content: string, isFinal: bool)

  datatype Count = Count(tool: string, n: nat)

  datatype State = State(
    content: string, sequence: nat, counts: seq<Count>, total: nat, started: set<string>, denials: nat,
    turnId: Option<string>, acknowledged: bool, lastActivity: nat,
    chunks: seq<Chunk>, interrupts: nat, persisted: seq<string>, acks: nat)

  const START: State := State("", 0, [], 0, {}, 0, None, false, 0, [], 0, [], 0)

  const APPROVAL_DENIAL_TURN_LIMIT: nat := 5
  const ACKNOWLEDGEMENT_WAIT: nat := 30_000
  const INTERACTIVE_TIMEOUT: nat := 300_000

  datatype Progress = Running(state: State) | Ended(state: State, result: Result<(), Error>)

  function Fails(s: State, reason: Reason): Progress {
    Ended(s, Err(Llm(reason)))
  }

  function Interrupted(s: State): State {
    if s.turnId.Some? then s.(interrupts := s.interrupts + 1) else s
  }

  // --- Tool calls ---

  predicate Less(a: string, b: string) {
    b != [] && (a == [] || a[0] < b[0] || (a[0] == b[0] && Less(a[1..], b[1..])))
  }

  /** `*entry(tool).or_insert(0) += 1` in an ordered map. */
  function Bump(counts: seq<Count>, tool: string): seq<Count> {
    if counts == [] || Less(tool, counts[0].tool) then [Count(tool, 1)] + counts
    else if counts[0].tool == tool then [Count(tool, counts[0].n + 1)] + counts[1..]
    else [counts[0]] + Bump(counts[1..], tool)
  }

  function WordLength(s: string): (n: nat)
    ensures n <= |s|
  {
    if s == "" || IsWhitespace(s[0]) then 0 else 1 + WordLength(s[1..])
  }

  /** `split_whitespace().next().unwrap_or(name)`. */
  function ShortName(name: string): string {
    var s := TrimStart(name);
    if s == "" then name else s[..WordLength(s)]
  }

  /** The name's first word, or the whole of a name without one. */
  lemma {:induction false} ShortNameMeaning(name: string)
    ensures if Blank(name) then ShortName(name) == name
            else
              exists i, j ::
                && 0 <= i < j <= |name| && ShortName(name) == name[i..j] && Blank(name[..i])
                && (forall k :: i <= k < j ==> !IsWhitespace(name[k])) && (j < |name| ==> IsWhitespace(name[j]))
  {
    var i := LeadingBlank(name);
    if i < |name| {
      WordLengthMeaning(name[i..]);
      var j := i + WordLength(name[i..]);
      assert ShortName(name) == name[i..j];
      assert forall k :: i <= k < j ==> name[k] == name[i..][k - i];
      assert j < |name| ==> name[j] == name[i..][j - i];
      assert Blank(name[..i]) && !IsWhitespace(name[i..][0]);
      assert i < j;
    }
  }

  lemma {:induction false} WordLengthMeaning(s: string)
    ensures forall k :: 0 <= k < WordLength(s) ==> !IsWhitespace(s[k])
    ensures WordLength(s) < |s| ==> IsWhitespace(s[WordLength(s)])
    ensures s != "" && !IsWhitespace(s[0]) ==> WordLength(s) > 0
  {
    if s != "" && !IsWhitespace(s[0]) {
      WordLengthMeaning(s[1..]);
    }
  }

  predicate IsTool(item: Item) {
    item.kind.GetOr("") !in {"agentMessage", "userMessage", "reasoning", ""}
  }

  function ToolName(item: Item): string {
    ShortName(item.name.GetOr(item.kind.GetOr("")))
  }

  // --- The final message ---

  function JoinComma(parts: seq<string>): string {
    if parts == [] then "" else if |parts| == 1 then parts[0] else parts[0] + ", " + JoinComma(parts[1..])
  }

  function Breakdown(counts: seq<Count>): seq<string> {
    seq(|counts|, i requires 0 <= i < |counts| =>
      if counts[i].n > 1 then "`" + counts[i].tool + "` ×" + Decimal(counts[i].n) else "`" + counts[i].tool + "`")
  }

  function Badge(counts: seq<Count>, total: nat): string {
    if counts == [] then "-# \U{1F6E0}\U{FE0F} 도구 " + Decimal(total) + "회 실행됨"
    else "-# \U{1F6E0}\U{FE0F} 도구 " + Decimal(total) + "회 실행 (" + JoinComma(Breakdown(counts)) + ")"
  }

  function Rendered(cron: bool, s: State): string {
    var text := if Trim(s.content) == "" then "✅ Done." else s.content;
    if cron || s.total == 0 then text else text + "\n\n" + Badge(s.counts, s.total)
  }

  // --- One frame ---

  function StartItem(s: State, item: Item): State {
    if item.id == "" || item.id in s.started then s
    else
      var t := s.(started := s.started + {item.id});
      if IsTool(item) then t.(total := s.total + 1, counts := Bump(s.counts, ToolName(item))) else t
  }

  function CompleteItem(s: State, item: Item): State {
    if item.kind == Some("agentMessage") && item.text.Some? then s.(content := item.text.value) else s
  }

  /** What stops the writes after the final chunk: the session row first, then the message. */
  function StoreFailure(storage: Storage): Option<Error> {
    match storage
    case NoPool => None
    case Pool(rowError, messageError) =>
      if rowError.Some? then Some(Llm(RowNotWritten(rowError.value)))
      else if messageError.Some? then Some(Database(messageError.value))
      else None
  }

  predicate Acknowledges(c: Config) {
    c.accepted && Trim(c.ackCommand.GetOr("")) != ""
  }

  function FinishWith(c: Config, s: State, rendered: string): Progress {
    var sent := s.(chunks := s.chunks + [Chunk(s.sequence, rendered, true)]);
    var failure := StoreFailure(c.storage);
    if failure.Some? then Ended(sent, Err(failure.value))
    else
      var stored := if c.storage.Pool? then sent.(persisted := s.persisted + [rendered]) else sent;
      Ended(if Acknowledges(c) then stored.(acks := s.acks + 1) else stored, Ok(()))
  }

  function Finish(c: Config, s: State): Progress {
    FinishWith(c, s, Rendered(c.cron, s))
  }

  /** A terminal frame ends the turn only when there is something to show. */
  function Terminal(c: Config, s: State): Progress {
    if s.content == "" && s.total == 0 then Running(s) else Finish(c, s)
  }

  function Denied(s: State): Progress {
    var denied := s.(denials := s.denials + 1);
    if denied.denials >= APPROVAL_DENIAL_TURN_LIMIT then Fails(Interrupted(denied), DenialLoop(denied.denials))
    else Running(denied)
  }

  function Moved(s: State, isStarted: bool, item: Option<Item>): State {
    var t := s.(denials := 0);
    match item
    case None => t
    case Some(i) => if isStarted then StartItem(t, i) else CompleteItem(t, i)
  }

  function Extended(s: State, text: Option<string>): State {
    if text.GetOr("") == "" then s
    else
      var content := s.content + text.value;
      s.(content := content, chunks := s.chunks + [Chunk(s.sequence, content, false)], sequence := s.sequence + 1)
  }

  function Handle(c: Config, s: State, f: Frame): Progress {
    match f
    case Ack(error, turnId) =>
      if error.Some? then Fails(s, StartError(error.value))
      else Running(s.(acknowledged := true, turnId := if turnId.Some? then turnId else s.turnId))
    case ApprovalRequest => Denied(s)
    case TurnStarted(turnId) => Running(s.(denials := 0, turnId := if turnId.Some? then turnId else s.turnId))
    case ItemStarted(item) => Running(Moved(s, true, item))
    case ItemCompleted(item) => Running(Moved(s, false, item))
    case Delta(text) => Running(Extended(s, text))
    case TurnCompleted(thread, failure) =>
      if thread.Some? && thread.value != c.thread then Running(s)
      else if failure.Some? then Fails(s, TurnFailed(failure.value))
      else Terminal(c, s)
    case StatusChanged(thread, idle) => if thread == Some(c.thread) && idle then Terminal(c, s) else Running(s)
    case ErrorNotice(ofTurn, message) => if ofTurn then Fails(s, TurnError(message)) else Running(s)
    case Other => Running(s)
  }

  function Deadline(c: Config): nat {
    if c.cron || c.totalTimeout < INTERACTIVE_TIMEOUT then c.totalTimeout else INTERACTIVE_TIMEOUT
  }

  function Receive(c: Config, s: State, x: Incoming): Progress {
    if x.what.Silence? then Fails(s, Silent)
    else if !s.acknowledged && x.at > ACKNOWLEDGEMENT_WAIT then
      Fails(s, Unacknowledged)
    else if x.at - s.lastActivity > c.requestTimeout then Fails(s, Silent)
    else match x.what
      case Broken(error) => Fails(s, StreamError(error))
      case Invalid(error) => Fails(s.(lastActivity := x.at), InvalidJson(error))
      case Text(frame) =>
        var t := s.(lastActivity := x.at);
        if !frame.TurnCompleted? && x.at > Deadline(c) then
          Fails(Interrupted(t), PastDeadline(c.deadlineText))
        else Handle(c, t, frame)
      case _ => Running(s)
  }

  function After(c: Config, incoming: seq<Incoming>): Progress {
    if incoming == [] then Running(START)
    else
      match After(c, incoming[..|incoming| - 1])
      case Running(s) => Receive(c, s, incoming[|incoming| - 1])
      case ended => ended
  }

  /** The end of the stream without a terminal frame is an error. */
  function Outcome(c: Config, incoming: seq<Incoming>): (State, Result<(), Error>) {
    match After(c, incoming)
    case Running(s) => (s, Err(Llm(ClosedEarly)))
    case Ended(s, result) => (s, result)
  }

  lemma AfterSnoc(c: Config, incoming: seq<Incoming>, i: nat)
    requires i < |incoming|
    ensures After(c, incoming[..i + 1])
      == (if After(c, incoming[..i]).Running? then Receive(c, After(c, incoming[..i]).state, incoming[i])
        else After(c, incoming[..i]))
  {
    assert incoming[..i + 1][..i] == incoming[..i];
  }

  lemma {:induction false} EndedStays(c: Config, incoming: seq<Incoming>, i: nat)
    requires i <= |incoming| && After(c, incoming[..i]).Ended?
    ensures After(c, incoming) == After(c, incoming[..i])
    decreases |incoming| - i
  {
    if i < |incoming| {
      AfterSnoc(c, incoming, i);
      EndedStays(c, incoming, i + 1);
    } else {
      assert incoming[..i] == incoming;
    }
  }

  // --- The loop ---

  class Turn {
    var content: string
    var sequence: nat
    var counts: seq<Count>
    var total: nat
    var started: set<string>
    var denials: nat
    var turnId: Option<string>
    var acknowledged: bool
    var lastActivity: nat
    var chunks: seq<Chunk>
    var interrupts: nat
    var persisted: seq<string>
    var acks: nat

    function Snapshot(): State
      reads this
    {
      State(content, sequence, counts, total, started, denials, turnId, acknowledged, lastActivity,
            chunks, interrupts, persisted, acks)
    }

    constructor ()
      ensures Snapshot() == START
    {
      content, sequence, counts, total, started := "", 0, [], 0, {};
      denials, turnId, acknowledged, lastActivity := 0, None, false, 0;
      chunks, interrupts, persisted, acks := [], 0, [], 0;
    }

    method Interrupt()
      modifies this`interrupts
      ensures Snapshot() == Interrupted(old(Snapshot()))
    {
      if turnId.Some? {
        interrupts := interrupts + 1;
      }
    }

    method EmitChunk(text: string, isFinal: bool)
      modifies this`chunks
      ensures Snapshot() == old(Snapshot()).(chunks := old(chunks) + [Chunk(sequence, text, isFinal)])
    {
      chunks := chunks + [Chunk(sequence, text, isFinal)];
    }

    method HandleItem(isStarted: bool, item: Item)
      modifies this
      ensures Snapshot() == if isStarted then StartItem(old(Snapshot()), item) else CompleteItem(old(Snapshot()), item)
    {
      if isStarted && item.id != "" && item.id !in started {
        started := started + {item.id};
        var kind := item.kind.GetOr("");
        if kind !in {"agentMessage", "userMessage", "reasoning", ""} {
          total := total + 1;
          counts := Bump(counts, ShortName(item.name.GetOr(kind)));
        }
      }
      if !isStarted && item.kind == Some("agentMessage") && item.text.Some? {
        content := item.text.value;
      }
    }

    /** What is written after the final chunk; a failure ends the turn before the acknowledgement. */
    method Persist(c: Config, rendered: string) returns (failure: Option<Error>)
      modifies this`persisted
      ensures failure == StoreFailure(c.storage)
      ensures persisted == if failure.None? && c.storage.Pool? then old(persisted) + [rendered] else old(persisted)
    {
      match c.storage {
        case NoPool => failure := None;
        case Pool(rowError, messageError) =>
          if rowError.Some? {
            return Some(Llm(RowNotWritten(rowError.value)));
          }
          if messageError.Some? {
            return Some(Database(messageError.value));
          }
          persisted, failure := persisted + [rendered], None;
      }
    }

    /** The end of the turn: deliver, persist, acknowledge. */
    method DeliverText(c: Config, rendered: string) returns (result: Result<(), Error>)
      modifies this
      ensures FinishWith(c, old(Snapshot()), rendered) == Ended(Snapshot(), result)
    {
      EmitChunk(rendered, true);
      var failure := Persist(c, rendered);
      if failure.Some? {
        return Err(failure.value);
      }
      if Acknowledges(c) {
        acks := acks + 1;
      }
      result := Ok(());
    }

    method Deliver(c: Config) returns (result: Result<(), Error>)
      modifies this
      ensures Finish(c, old(Snapshot())) == Ended(Snapshot(), result)
    {
      result := DeliverText(c, Rendered(c.cron, Snapshot()));
    }

    method Deny() returns (done: Option<Result<(), Error>>)
      modifies this
      ensures Denied(old(Snapshot())) == if done.Some? then Ended(Snapshot(), done.value) else Running(Snapshot())
    {
      denials := denials + 1;
      if denials >= APPROVAL_DENIAL_TURN_LIMIT {
        Interrupt();
        return Some(Err(Llm(DenialLoop(denials))));
      }
      done := None;
    }

    method AddDelta(text: Option<string>)
      modifies this
      ensures Snapshot() == Extended(old(Snapshot()), text)
    {
      if text.Some? && text.value != "" {
        content := content + text.value;
        EmitChunk(content, false);
        sequence := sequence + 1;
      }
    }

    method MoveItem(isStarted: bool, item: Option<Item>)
      modifies this
      ensures Snapshot() == Moved(old(Snapshot()), isStarted, item)
    {
      denials := 0;
      if item.Some? {
        HandleItem(isStarted, item.value);
      }
    }

    /** One frame; a result ends the turn. */
    method HandleFrame(c: Config, frame: Frame) returns (done: Option<Result<(), Error>>)
      modifies this
      ensures Handle(c, old(Snapshot()), frame)
        == if done.Some? then Ended(Snapshot(), done.value) else Running(Snapshot())
    {
      done := None;
      var terminal := false;
      match frame {
        case Ack(error, id) =>
          if error.Some? {
            return Some(Err(Llm(StartError(error.value))));
          }
          acknowledged := true;
          if id.Some? {
            turnId := id;
          }
        case ApprovalRequest => done := Deny();
        case TurnStarted(id) =>
          denials := 0;
          if id.Some? {
            turnId := id;
          }
        case ItemStarted(item) => MoveItem(true, item);
        case ItemCompleted(item) => MoveItem(false, item);
        case Delta(text) => AddDelta(text);
        case TurnCompleted(thread, failure) =>
          terminal := thread.None? || thread.value == c.thread;
          if terminal && failure.Some? {
            return Some(Err(Llm(TurnFailed(failure.value))));
          }
        case StatusChanged(thread, idle) => terminal := thread == Some(c.thread) && idle;
        case ErrorNotice(ofTurn, message) =>
          if ofTurn {
            return Some(Err(Llm(TurnError(message))));
          }
        case Other =>
      }
      if terminal && (content != "" || total > 0) {
        var result := Deliver(c);
        done := Some(result);
      }
    }

    /** What the loop does with one message; a result ends the turn. */
    method ReceiveOne(c: Config, x: Incoming) returns (done: Option<Result<(), Error>>)
      modifies this
      ensures Receive(c, old(Snapshot()), x)
        == if done.Some? then Ended(Snapshot(), done.value) else Running(Snapshot())
    {
      if x.what.Silence? {
        return Some(Err(Llm(Silent)));
      }
      if !acknowledged && x.at > ACKNOWLEDGEMENT_WAIT {
        return Some(Err(Llm(Unacknowledged)));
      }
      if x.at - lastActivity > c.requestTimeout {
        return Some(Err(Llm(Silent)));
      }
      match x.what {
        case Broken(error) => done := Some(Err(Llm(StreamError(error))));
        case Invalid(error) =>
          lastActivity := x.at;
          done := Some(Err(Llm(InvalidJson(error))));
        case Text(frame) =>
          lastActivity := x.at;
          if !frame.TurnCompleted? && x.at > Deadline(c) {
            Interrupt();
            done := Some(Err(Llm(PastDeadline(c.deadlineText))));
          } else {
            done := HandleFrame(c, frame);
          }
        case _ => done := None;
      }
    }

    method RunOnce(c: Config, incoming: seq<Incoming>) returns (result: Result<(), Error>)
      requires Snapshot() == START
      modifies this
      ensures (Snapshot(), result) == Outcome(c, incoming)
    {
      for i := 0 to |incoming|
        invariant After(c, incoming[..i]) == Running(Snapshot())
      {
        AfterSnoc(c, incoming, i);
        var done := ReceiveOne(c, incoming[i]);
        if done.Some? {
          EndedStays(c, incoming, i + 1);
          return done.value;
        }
      }
      assert incoming[..|incoming|] == incoming;
      result := Err(Llm(ClosedEarly));
    }
  }

  // --- The retry ---

  predicate Contains(s: string, part: string) {
    exists i :: 0 <= i <= |s| && part <= s[i..]
  }

  const CONNECTION_RESET: string := "Connection reset"
  const OS_ERROR_54: string := "os error 54"
  const BROKEN_PIPE: string := "Broken pipe"
  const HANDSHAKE_NOT_FINISHED: string := "Handshake not finished"
  const CONNECTION_REFUSED: string := "Connection refused"
  const OS_ERROR_61: string := "os error 61"
  const FAILED_TO_CONNECT: string := "failed to connect to omo app-server"

  const RETRYABLE: seq<string> := [
    CONNECTION_RESET, OS_ERROR_54, BROKEN_PIPE, CONNECTION_CLOSED, HANDSHAKE_NOT_FINISHED, CONNECTION_REFUSED,
    OS_ERROR_61, FAILED_TO_CONNECT]

  predicate ContainsAny(words: string, parts: seq<string>) {
    exists i :: 0 <= i < |parts| && Contains(words, parts[i])
  }

  predicate IsRetryable(result: Result<(), Error>) {
    result.Err? && result.error.Llm? && ContainsAny(Message(result.error.reason), RETRYABLE)
  }

  function Hits(words: string, parts: seq<string>): seq<bool> {
    seq(|parts|, i requires 0 <= i < |parts| => Contains(words, parts[i]))
  }

  lemma OneOfEight(hits: seq<bool>)
    requires |hits| == 8
    ensures true in hits <==>
      hits[0] || hits[1] || hits[2] || hits[3] || hits[4] || hits[5] || hits[6] || hits[7]
  {
  }

  lemma AnyIsAHit(words: string, parts: seq<string>)
    ensures ContainsAny(words, parts) <==> true in Hits(words, parts)
  {
    forall i | 0 <= i < |parts| ensures Hits(words, parts)[i] == Contains(words, parts[i]) {
    }
  }

  lemma AnyOfEight(
      words: string, parts: seq<string>, a: string, b: string, c: string, d: string, e: string, f: string, g: string,
      h: string)
    requires parts == [a, b, c, d, e, f, g, h]
    ensures ContainsAny(words, parts) <==>
      || Contains(words, a) || Contains(words, b) || Contains(words, c) || Contains(words, d)
      || Contains(words, e) || Contains(words, f) || Contains(words, g) || Contains(words, h)
  {
    AnyIsAHit(words, parts);
    OneOfEight(Hits(words, parts));
  }

  /** What is tried again: a failure of the agent whose words contain one of eight. */
  lemma RetryableExactlyWhen(result: Result<(), Error>)
    ensures IsRetryable(result) <==>
      && result.Err? && result.error.Llm?
      && var words := Message(result.error.reason);
         || Contains(words, CONNECTION_RESET) || Contains(words, OS_ERROR_54) || Contains(words, BROKEN_PIPE)
         || Contains(words, CONNECTION_CLOSED) || Contains(words, HANDSHAKE_NOT_FINISHED)
         || Contains(words, CONNECTION_REFUSED) || Contains(words, OS_ERROR_61) || Contains(words, FAILED_TO_CONNECT)
  {
    if result.Err? && result.error.Llm? {
      AnyOfEight(
        Message(result.error.reason), RETRYABLE, CONNECTION_RESET, OS_ERROR_54, BROKEN_PIPE, CONNECTION_CLOSED,
        HANDSHAKE_NOT_FINISHED, CONNECTION_REFUSED, OS_ERROR_61, FAILED_TO_CONNECT);
    }
  }

  lemma MissingCharacter(text: string, part: string, c: char)
    requires c in part && c !in text
    ensures !Contains(text, part)
  {
    var k :| 0 <= k < |part| && part[k] == c;
    forall i | 0 <= i <= |text| ensures !(part <= text[i..]) {
      assert i + k < |text| ==> text[i..][k] == text[i + k];
    }
  }

  lemma SilenceLacks(c: char)
    requires c in {'C', 'B', 'c', 'H', 'f', '5', '6'}
    ensures c !in Message(Silent)
  {
  }

  lemma PartsHave()
    ensures 'C' in CONNECTION_RESET && 'C' in CONNECTION_REFUSED && 'B' in BROKEN_PIPE
    ensures 'c' in CONNECTION_CLOSED && 'H' in HANDSHAKE_NOT_FINISHED && 'f' in FAILED_TO_CONNECT
    ensures '5' in OS_ERROR_54 && '6' in OS_ERROR_61
  {
    assert CONNECTION_RESET[0] == CONNECTION_REFUSED[0] == 'C' && BROKEN_PIPE[0] == 'B';
    assert CONNECTION_CLOSED[0] == 'c' && HANDSHAKE_NOT_FINISHED[0] == 'H' && FAILED_TO_CONNECT[0] == 'f';
    assert OS_ERROR_54[9] == '5' && OS_ERROR_61[9] == '6';
  }

  lemma LacksAll(words: string)
    requires forall c :: c in {'C', 'B', 'c', 'H', 'f', '5', '6'} ==> c !in words
    ensures !ContainsAny(words, RETRYABLE)
  {
    PartsHave();
    MissingCharacter(words, CONNECTION_RESET, 'C');
    MissingCharacter(words, OS_ERROR_54, '5');
    MissingCharacter(words, BROKEN_PIPE, 'B');
    MissingCharacter(words, CONNECTION_CLOSED, 'c');
    MissingCharacter(words, HANDSHAKE_NOT_FINISHED, 'H');
    MissingCharacter(words, CONNECTION_REFUSED, 'C');
    MissingCharacter(words, OS_ERROR_61, '6');
    MissingCharacter(words, FAILED_TO_CONNECT, 'f');
    AnyOfEight(words, RETRYABLE, CONNECTION_RESET, OS_ERROR_54, BROKEN_PIPE, CONNECTION_CLOSED,
               HANDSHAKE_NOT_FINISHED, CONNECTION_REFUSED, OS_ERROR_61, FAILED_TO_CONNECT);
  }

  /** A turn that fell silent is not tried again. */
  lemma SilenceIsNotRetried()
    ensures !IsRetryable(Err(Llm(Silent)))
  {
    forall c | c in {'C', 'B', 'c', 'H', 'f', '5', '6'} ensures c !in Message(Silent) {
      SilenceLacks(c);
    }
    LacksAll(Message(Silent));
  }

  /** One attempt: the failure before the loop, if any, or what arrives. */
  datatype Attempt = Attempt(setup: Option<Error>, config: Config, incoming: seq<Incoming>)

  function Attempted(a: Attempt): (State, Result<(), Error>) {
    if a.setup.Some? then (START, Err(a.setup.value)) else Outcome(a.config, a.incoming)
  }

  method RunAttempt(a: Attempt) returns (chunks: seq<Chunk>, result: Result<(), Error>)
    ensures chunks == Attempted(a).0.chunks && result == Attempted(a).1
  {
    if a.setup.Some? {
      return [], Err(a.setup.value);
    }
    var turn := new Turn();
    result := turn.RunOnce(a.config, a.incoming);
    chunks := turn.chunks;
  }

  method Run(first: Attempt, second: Attempt) returns (chunks: seq<Chunk>, result: Result<(), Error>)
    ensures (chunks, result) == Retried(first, second)
  {
    chunks, result := RunAttempt(first);
    if IsRetryable(result) {
      var more: seq<Chunk>;
      more, result := RunAttempt(second);
      chunks := chunks + more;
    }
  }

  function Retried(first: Attempt, second: Attempt): (seq<Chunk>, Result<(), Error>) {
    var (s, result) := Attempted(first);
    if IsRetryable(result) then (s.chunks + Attempted(second).0.chunks, Attempted(second).1) else (s.chunks, result)
  }

  // --- What is delivered ---

  function Finals(chunks: seq<Chunk>): nat {
    if chunks == [] then 0 else Finals(chunks[..|chunks| - 1]) + if chunks[|chunks| - 1].isFinal then 1 else 0
  }

  ghost predicate InOrder(chunks: seq<Chunk>) {
    forall i :: 0 <= i < |chunks| ==> chunks[i].sequence == i
  }

  predicate DeliveredFinal(s: State) {
    s.chunks != [] && s.chunks[|s.chunks| - 1].isFinal
  }

  /** Nothing final is out while the turn runs. */
  ghost predicate OpenTurn(s: State) {
    && Finals(s.chunks) == 0 && !DeliveredFinal(s) && s.sequence == |s.chunks| && InOrder(s.chunks)
    && s.persisted == [] && s.acks == 0
  }

  /** A finished turn: the final chunk, its persistence and the acknowledgement. */
  ghost predicate ClosedTurn(c: Config, s: State, result: Result<(), Error>) {
    && InOrder(s.chunks) && Finals(s.chunks) == (if DeliveredFinal(s) then 1 else 0)
    && (result.Ok? ==> DeliveredFinal(s))
    && (DeliveredFinal(s) ==>
          && s.chunks[|s.chunks| - 1].content != ""
          && result == (match c.storage
               case NoPool => Ok(())
               case Pool(rowError, messageError) =>
                 if rowError.Some? then Err(Llm(RowNotWritten(rowError.value)))
                 else if messageError.Some? then Err(Database(messageError.value))
                 else Ok(())))
    && s.persisted == (if result.Ok? && c.storage.Pool? then [s.chunks[|s.chunks| - 1].content] else [])
    && s.acks == (if result.Ok? && c.accepted && Trim(c.ackCommand.GetOr("")) != "" then 1 else 0)
  }

  lemma RenderedIsNotEmpty(cron: bool, s: State)
    ensures Rendered(cron, s) != ""
  {
    assert Trim("") == "";
  }

  lemma FinalsSnoc(chunks: seq<Chunk>, chunk: Chunk)
    ensures Finals(chunks + [chunk]) == Finals(chunks) + if chunk.isFinal then 1 else 0
  {
    assert (chunks + [chunk])[..|chunks|] == chunks;
  }

  lemma FinalChunkCloses(s: State, content: string)
    requires OpenTurn(s)
    ensures var chunks := s.chunks + [Chunk(s.sequence, content, true)]; InOrder(chunks) && Finals(chunks) == 1
  {
    FinalsSnoc(s.chunks, Chunk(s.sequence, content, true));
  }

  lemma FinishWithCloses(c: Config, s: State, rendered: string)
    requires OpenTurn(s) && rendered != ""
    ensures ClosedTurn(c, FinishWith(c, s, rendered).state, FinishWith(c, s, rendered).result)
  {
    FinalChunkCloses(s, rendered);
    var t := FinishWith(c, s, rendered).state;
    assert t.chunks == s.chunks + [Chunk(s.sequence, rendered, true)];
    assert t.chunks[|t.chunks| - 1] == Chunk(s.sequence, rendered, true);
    assert s.persisted + [rendered] == [rendered];
  }

  lemma FinishCloses(c: Config, s: State)
    requires OpenTurn(s)
    ensures ClosedTurn(c, Finish(c, s).state, Finish(c, s).result)
  {
    RenderedIsNotEmpty(c.cron, s);
    FinishWithCloses(c, s, Rendered(c.cron, s));
  }

  lemma PlainChunkKeepsOpen(s: State, content: string)
    requires OpenTurn(s)
    ensures OpenTurn(
      s.(content := content, chunks := s.chunks + [Chunk(s.sequence, content, false)], sequence := s.sequence + 1))
  {
    FinalsSnoc(s.chunks, Chunk(s.sequence, content, false));
  }

  lemma DeltaKeepsOpen(c: Config, s: State, text: Option<string>)
    requires OpenTurn(s)
    ensures Handle(c, s, Delta(text)).Running? && OpenTurn(Handle(c, s, Delta(text)).state)
  {
    if text.Some? {
      PlainChunkKeepsOpen(s, s.content + text.value);
    }
  }

  ghost predicate SameDelivery(s: State, t: State) {
    t.chunks == s.chunks && t.sequence == s.sequence && t.persisted == s.persisted && t.acks == s.acks
  }

  lemma SameDeliveryKeepsOpen(c: Config, s: State, t: State, error: Error)
    requires OpenTurn(s) && SameDelivery(s, t)
    ensures OpenTurn(t) && ClosedTurn(c, t, Err(error))
  {
  }

  /** Nothing delivered in this step, and a failure if it ended the turn. */
  ghost predicate DeliversNothing(s: State, p: Progress) {
    SameDelivery(s, p.state) && (p.Ended? ==> p.result.Err?)
  }

  lemma TerminalFramesDeliverAtTheEnd(c: Config, s: State, f: Frame)
    requires f.TurnCompleted? || f.StatusChanged?
    ensures Handle(c, s, f) == Finish(c, s) || DeliversNothing(s, Handle(c, s, f))
  {
  }

  lemma ItemFramesDeliverNothing(c: Config, s: State, f: Frame)
    requires f.ItemStarted? || f.ItemCompleted?
    ensures DeliversNothing(s, Handle(c, s, f))
  {
  }

  lemma OtherFramesDeliverNothing(c: Config, s: State, f: Frame)
    requires !f.Delta? && !f.TurnCompleted? && !f.StatusChanged? && !f.ItemStarted? && !f.ItemCompleted?
    ensures DeliversNothing(s, Handle(c, s, f))
  {
  }

  /** A frame that adds no text either delivers nothing or ends the turn with its final chunk. */
  lemma FramesDeliverOnlyAtTheEnd(c: Config, s: State, f: Frame)
    requires !f.Delta?
    ensures Handle(c, s, f) == Finish(c, s) || DeliversNothing(s, Handle(c, s, f))
  {
    if f.TurnCompleted? || f.StatusChanged? {
      TerminalFramesDeliverAtTheEnd(c, s, f);
    } else if f.ItemStarted? || f.ItemCompleted? {
      ItemFramesDeliverNothing(c, s, f);
    } else {
      OtherFramesDeliverNothing(c, s, f);
    }
  }

  /** A turn is open while it runs and closed once it has ended. */
  ghost predicate OpenOrClosed(c: Config, p: Progress) {
    if p.Running? then OpenTurn(p.state) else ClosedTurn(c, p.state, p.result)
  }

  lemma DeliveringNothingIsSound(c: Config, s: State, p: Progress)
    requires OpenTurn(s) && DeliversNothing(s, p)
    ensures OpenOrClosed(c, p)
  {
    SameDeliveryKeepsOpen(c, s, p.state, if p.Ended? then p.result.error else Llm(ClosedEarly));
  }

  lemma HandleKeepsOpen(c: Config, s: State, f: Frame)
    requires OpenTurn(s)
    ensures OpenOrClosed(c, Handle(c, s, f))
  {
    if f.Delta? {
      DeltaKeepsOpen(c, s, f.text);
    } else {
      FramesDeliverOnlyAtTheEnd(c, s, f);
      if Handle(c, s, f) == Finish(c, s) {
        FinishCloses(c, s);
      } else {
        DeliveringNothingIsSound(c, s, Handle(c, s, f));
      }
    }
  }

  /** A message is handed on as a frame, or delivers nothing. */
  lemma ReceiveDelivers(c: Config, s: State, x: Incoming)
    ensures (x.what.Text? && Receive(c, s, x) == Handle(c, s.(lastActivity := x.at), x.what.frame))
            || DeliversNothing(s, Receive(c, s, x))
  {
  }

  lemma ReceiveKeepsOpen(c: Config, s: State, x: Incoming)
    requires OpenTurn(s)
    ensures OpenOrClosed(c, Receive(c, s, x))
  {
    ReceiveDelivers(c, s, x);
    if DeliversNothing(s, Receive(c, s, x)) {
      DeliveringNothingIsSound(c, s, Receive(c, s, x));
    } else {
      HandleKeepsOpen(c, s.(lastActivity := x.at), x.what.frame);
    }
  }

  lemma {:induction false} EveryTurnIsOpenOrClosed(c: Config, incoming: seq<Incoming>)
    ensures OpenOrClosed(c, After(c, incoming))
  {
    if incoming != [] {
      var before, x := After(c, incoming[..|incoming| - 1]), incoming[|incoming| - 1];
      EveryTurnIsOpenOrClosed(c, incoming[..|incoming| - 1]);
      if before.Running? {
        ReceiveKeepsOpen(c, before.state, x);
      }
    }
  }

  /** An attempt delivers at most one final chunk, and a failure after it is a failure to store. */
  lemma AttemptDeliversOnce(a: Attempt)
    ensures var (s, result) := Attempted(a);
      && Finals(s.chunks) == (if DeliveredFinal(s) then 1 else 0) && (result.Ok? ==> DeliveredFinal(s))
      && (DeliveredFinal(s) && result.Err? ==>
            && a.config.storage.Pool?
            && (result.error.Database? ||
                 (a.config.storage.rowError.Some?
                   && result == Err(Llm(RowNotWritten(a.config.storage.rowError.value))))))
  {
    if a.setup.None? {
      EveryTurnIsOpenOrClosed(a.config, a.incoming);
    }
  }

  lemma {:induction false} FinalsAppend(a: seq<Chunk>, b: seq<Chunk>)
    ensures Finals(a + b) == Finals(a) + Finals(b)
  {
    if b == [] {
      assert a + b == a;
    } else {
      FinalsAppend(a, b[..|b| - 1]);
      assert (a + b)[..|a + b| - 1] == a + b[..|b| - 1];
    }
  }

  /** Whether the failure to write the session row, reported as an agent failure, reads like a lost connection. */
  predicate RowErrorLooksLost(storage: Storage) {
    storage.Pool? && storage.rowError.Some? && IsRetryable(Err(Llm(RowNotWritten(storage.rowError.value))))
  }

  /**
   * Two final chunks go out exactly when the first attempt had delivered its own, the row could not be written and the
   * database's words read like a lost connection, and the retry delivered too; otherwise at most one does.
   */
  lemma TwoFinalsExactlyWhen(first: Attempt, second: Attempt)
    ensures var n := Finals(Retried(first, second).0);
      && n <= 2
      && (n == 2 <==>
        && DeliveredFinal(Attempted(first).0) && RowErrorLooksLost(first.config.storage)
        && DeliveredFinal(Attempted(second).0))
  {
    AttemptDeliversOnce(first);
    AttemptDeliversOnce(second);
    FinalsAppend(Attempted(first).0.chunks, Attempted(second).0.chunks);
    if first.setup.None? {
      EveryTurnIsOpenOrClosed(first.config, first.incoming);
    }
  }

  lemma EndsWithIsContained(front: string, part: string)
    ensures Contains(front + part, part)
  {
    assert (front + part)[|front|..] == part;
  }

  /** A turn that answers "hi" on a database that fails with the words `error` at its session row. */
  function BrokenRow(error: string): Attempt {
    Attempt(None, Config.Config("t", false, 1_000, 60_000, "", None, true, Pool(Some(error), None)),
            [Incoming(1, Text(Delta(Some("hi")))), Incoming(2, Text(TurnCompleted(None, None)))])
  }

  lemma AfterTwo(c: Config, x: Incoming, y: Incoming, s: State)
    requires Receive(c, START, x) == Running(s)
    ensures After(c, [x, y]) == Receive(c, s, y)
  {
    assert [x, y][..0] == [] && [x, y][..1] == [x] && [x, y][..2] == [x, y];
    AfterSnoc(c, [x, y], 0);
    AfterSnoc(c, [x, y], 1);
  }

  lemma BrokenRowDelivers(error: string)
    ensures DeliveredFinal(Attempted(BrokenRow(error)).0)
    ensures Attempted(BrokenRow(error)).1 == Err(Llm(RowNotWritten(error)))
  {
    var c := BrokenRow(error).config;
    var s := Extended(START.(lastActivity := 1), Some("hi"));
    AfterTwo(c, BrokenRow(error).incoming[0], BrokenRow(error).incoming[1], s);
    assert s.content == "hi";
  }

  /** Two such attempts in a row: the turn that had been delivered is run again, and delivered again. */
  lemma BrokenPipeDeliversTwice()
    ensures Finals(Retried(BrokenRow("Broken pipe"), BrokenRow("Broken pipe")).0) == 2
  {
    var a := BrokenRow("Broken pipe");
    BrokenRowDelivers("Broken pipe");
    EndsWithIsContained("ensure session row: ", "Broken pipe");
    assert RETRYABLE[2] == "Broken pipe";
    assert RowErrorLooksLost(a.config.storage);
    TwoFinalsExactlyWhen(a, a);
  }

  lemma ClosedEarlyIsRetryable()
    ensures IsRetryable(Err(Llm(ClosedEarly)))
  {
    assert RETRYABLE[3] == CONNECTION_CLOSED <= Message(ClosedEarly)[0..];
  }

  /** A connection lost in the middle of the turn is tried again. */
  lemma LostConnectionIsRetried(c: Config, incoming: seq<Incoming>, second: Attempt)
    requires After(c, incoming).Running?
    ensures Retried(Attempt(None, c, incoming), second)
      == (After(c, incoming).state.chunks + Attempted(second).0.chunks, Attempted(second).1)
  {
    ClosedEarlyIsRetryable();
  }

  // --- What the content is ---

  function DeltaText(x: Incoming): string {
    if x.what.Text? && x.what.frame.Delta? then x.what.frame.text.GetOr("") else ""
  }

  function DeltaTexts(incoming: seq<Incoming>): string {
    if incoming == [] then "" else DeltaTexts(incoming[..|incoming| - 1]) + DeltaText(incoming[|incoming| - 1])
  }

  /** The text of a completed agent message. */
  function Completed(x: Incoming): Option<string> {
    if x.what.Text? && x.what.frame.ItemCompleted? && x.what.frame.item.Some?
      && x.what.frame.item.value.kind == Some("agentMessage")
    then x.what.frame.item.value.text else None
  }

  ghost predicate LastCompletedBefore(incoming: seq<Incoming>, k: nat) {
    && k <= |incoming| && (k > 0 ==> Completed(incoming[k - 1]).Some?)
    && forall i :: k <= i < |incoming| ==> Completed(incoming[i]).None?
  }

  lemma ContentAfterOne(c: Config, s: State, x: Incoming)
    requires Receive(c, s, x).Running?
    ensures Receive(c, s, x).state.content
      == if Completed(x).Some? then Completed(x).value else s.content + DeltaText(x)
  {
  }

  lemma ContentOfRun(c: Config, incoming: seq<Incoming>)
    requires incoming != [] && After(c, incoming).Running?
    ensures var (before, x) := (After(c, incoming[..|incoming| - 1]), incoming[|incoming| - 1]);
      && before.Running?
      && After(c, incoming).state.content
        == if Completed(x).Some? then Completed(x).value else before.state.content + DeltaText(x)
  {
    ContentAfterOne(c, After(c, incoming[..|incoming| - 1]).state, incoming[|incoming| - 1]);
  }

  lemma DeltaTextsSnoc(incoming: seq<Incoming>, k: nat)
    requires k < |incoming|
    ensures var n := |incoming| - 1;
      DeltaTexts(incoming[k..]) == DeltaTexts(incoming[..n][k..]) + DeltaText(incoming[n])
  {
    var n := |incoming| - 1;
    assert incoming[k..][..n - k] == incoming[..n][k..];
  }

  ghost predicate ShowsLastAndLater(c: Config, incoming: seq<Incoming>, k: nat)
    requires k <= |incoming| && (k > 0 ==> Completed(incoming[k - 1]).Some?)
  {
    After(c, incoming).state.content
      == (if k == 0 then "" else Completed(incoming[k - 1]).value) + DeltaTexts(incoming[k..])
  }

  lemma LaterDeltaIsShown(c: Config, incoming: seq<Incoming>, k: nat)
    requires k < |incoming| && (k > 0 ==> Completed(incoming[k - 1]).Some?) && After(c, incoming).Running?
    requires Completed(incoming[|incoming| - 1]).None? && ShowsLastAndLater(c, incoming[..|incoming| - 1], k)
    ensures ShowsLastAndLater(c, incoming, k)
  {
    var n := |incoming| - 1;
    var base := if k == 0 then "" else Completed(incoming[k - 1]).value;
    var later, last := DeltaTexts(incoming[..n][k..]), DeltaText(incoming[n]);
    ContentOfRun(c, incoming);
    DeltaTextsSnoc(incoming, k);
    assert After(c, incoming[..n]).state.content == base + later;
    Regroup(base, later, last);
  }

  /** While a turn runs, its content is the last completed agent message and the deltas after it. */
  lemma {:induction false} ContentIsLastMessageAndLaterDeltas(c: Config, incoming: seq<Incoming>, k: nat)
    requires After(c, incoming).Running? && LastCompletedBefore(incoming, k)
    ensures ShowsLastAndLater(c, incoming, k)
  {
    if k == |incoming| {
      assert incoming[k..] == [];
      if incoming != [] {
        ContentOfRun(c, incoming);
      }
    } else {
      var n := |incoming| - 1;
      ContentOfRun(c, incoming);
      assert LastCompletedBefore(incoming[..n], k);
      ContentIsLastMessageAndLaterDeltas(c, incoming[..n], k);
      LaterDeltaIsShown(c, incoming, k);
    }
  }

  lemma OnlyFinishDeliversFinal(c: Config, s: State, f: Frame)
    requires OpenTurn(s) && DeliveredFinal(Handle(c, s, f).state)
    ensures Handle(c, s, f) == Finish(c, s)
  {
    if f.Delta? {
      DeltaKeepsOpen(c, s, f.text);
    } else {
      FramesDeliverOnlyAtTheEnd(c, s, f);
    }
  }

  lemma OnlyFramesDeliver(c: Config, s: State, x: Incoming)
    requires OpenTurn(s) && DeliveredFinal(Receive(c, s, x).state)
    ensures x.what.Text? && Receive(c, s, x) == Handle(c, s.(lastActivity := x.at), x.what.frame)
  {
    ReceiveDelivers(c, s, x);
  }

  lemma FinishSends(c: Config, s: State)
    ensures Finish(c, s).state.chunks == s.chunks + [Chunk(s.sequence, Rendered(c.cron, s), true)]
  {
  }

  lemma RenderingIgnoresActivity(cron: bool, s: State, at: nat)
    ensures Rendered(cron, s.(lastActivity := at)) == Rendered(cron, s)
  {
  }

  /** The final chunk shows the content and the tool counts as they were, numbered after every delta. */
  lemma FinalChunkShowsTheContent(c: Config, incoming: seq<Incoming>, x: Incoming)
    requires After(c, incoming).Running? && DeliveredFinal(Receive(c, After(c, incoming).state, x).state)
    ensures var s := After(c, incoming).state;
      Receive(c, s, x).state.chunks == s.chunks + [Chunk(|s.chunks|, Rendered(c.cron, s), true)]
  {
    EveryTurnIsOpenOrClosed(c, incoming);
    var s := After(c, incoming).state;
    OnlyFramesDeliver(c, s, x);
    OnlyFinishDeliversFinal(c, s.(lastActivity := x.at), x.what.frame);
    FinishSends(c, s.(lastActivity := x.at));
    RenderingIgnoresActivity(c.cron, s, x.at);
  }

  // --- Approvals ---

  predicate IsProgress(x: Incoming) {
    x.what.Text? && (x.what.frame.TurnStarted? || x.what.frame.ItemStarted? || x.what.frame.ItemCompleted?)
  }

  predicate IsApproval(x: Incoming) {
    x.what.Text? && x.what.frame.ApprovalRequest?
  }

  /** The approval requests since the turn or an item last moved. */
  function DenialsInARow(incoming: seq<Incoming>): nat {
    if incoming == [] then 0
    else
      var last := incoming[|incoming| - 1];
      if IsProgress(last) then 0 else DenialsInARow(incoming[..|incoming| - 1]) + if IsApproval(last) then 1 else 0
  }

  lemma DenialsAfterOne(c: Config, s: State, x: Incoming)
    requires Receive(c, s, x).Running?
    ensures Receive(c, s, x).state.denials == if IsProgress(x) then 0 else s.denials + if IsApproval(x) then 1 else 0
    ensures IsApproval(x) ==> Receive(c, s, x).state.denials < APPROVAL_DENIAL_TURN_LIMIT
  {
  }

  lemma {:induction false} DenialsAreCounted(c: Config, incoming: seq<Incoming>)
    requires After(c, incoming).Running?
    ensures After(c, incoming).state.denials == DenialsInARow(incoming) < APPROVAL_DENIAL_TURN_LIMIT
  {
    if incoming != [] {
      var before, x := incoming[..|incoming| - 1], incoming[|incoming| - 1];
      DenialsAreCounted(c, before);
      DenialsAfterOne(c, After(c, before).state, x);
    }
  }

  /** The fifth request in a row, and no earlier one, ends the turn, and interrupts it when its id is known. */
  lemma FifthDenialAborts(c: Config, incoming: seq<Incoming>, x: Incoming)
    requires After(c, incoming).Running? && IsApproval(x)
    requires Receive(c, After(c, incoming).state, Incoming(x.at, Text(Other))).Running?
    ensures var s := After(c, incoming).state; var p := Receive(c, s, x);
      && (p.Ended? <==> DenialsInARow(incoming) == 4)
      && (p.Ended? ==> p.result == Err(Llm(DenialLoop(5)))
                       && p.state.interrupts == s.interrupts + if s.turnId.Some? then 1 else 0)
  {
    DenialsAreCounted(c, incoming);
  }

  // --- Tool calls ---

  function CountOf(counts: seq<Count>, tool: string): nat {
    if counts == [] then 0 else (if counts[0].tool == tool then counts[0].n else 0) + CountOf(counts[1..], tool)
  }

  function Sum(counts: seq<Count>): nat {
    if counts == [] then 0 else counts[0].n + Sum(counts[1..])
  }

  function StartedBy(x: Incoming): Option<Item> {
    if x.what.Text? && x.what.frame.ItemStarted? then x.what.frame.item else None
  }

  function ItemIds(items: seq<Item>): set<string> {
    set i | 0 <= i < |items| :: items[i].id
  }

  /** The items started, each id once. */
  function StartedItems(incoming: seq<Incoming>): seq<Item> {
    if incoming == [] then []
    else
      var before, item := StartedItems(incoming[..|incoming| - 1]), StartedBy(incoming[|incoming| - 1]);
      if item.Some? && item.value.id != "" && item.value.id !in ItemIds(before) then before + [item.value] else before
  }

  /** The short names of the items that are tool calls, in order. */
  function ToolCalls(items: seq<Item>): seq<string> {
    if items == [] then []
    else
      var last := items[|items| - 1];
      var kind := last.kind.GetOr("");
      ToolCalls(items[..|items| - 1])
      + if kind in {"", "agentMessage", "userMessage", "reasoning"} then [] else [ShortName(last.name.GetOr(kind))]
  }

  lemma {:induction false} BumpMeaning(counts: seq<Count>, tool: string, other: string)
    ensures Sum(Bump(counts, tool)) == Sum(counts) + 1
    ensures CountOf(Bump(counts, tool), other) == CountOf(counts, other) + if other == tool then 1 else 0
  {
    if counts != [] && !Less(tool, counts[0].tool) && counts[0].tool != tool {
      BumpMeaning(counts[1..], tool, other);
    }
  }

  lemma ToolsAfterOne(c: Config, s: State, x: Incoming)
    requires Receive(c, s, x).Running?
    ensures var t, u := Receive(c, s, x).state, if StartedBy(x).Some? then StartItem(s, StartedBy(x).value) else s;
      t.started == u.started && t.total == u.total && t.counts == u.counts
  {
  }

  ghost predicate Tallied(s: State, items: seq<Item>, tool: string) {
    && s.total == Sum(s.counts) == |ToolCalls(items)| && CountOf(s.counts, tool) == multiset(ToolCalls(items))[tool]
    && s.started == ItemIds(items)
  }

  lemma StartKeepsTally(s: State, items: seq<Item>, item: Item, tool: string)
    requires Tallied(s, items, tool)
    ensures Tallied(
      StartItem(s, item), if item.id != "" && item.id !in ItemIds(items) then items + [item] else items, tool)
  {
    if item.id != "" && item.id !in ItemIds(items) {
      var more := items + [item];
      BumpMeaning(s.counts, ToolName(item), tool);
      assert more[..|items|] == items;
      assert ItemIds(more) == ItemIds(items) + {item.id} by {
        assert more[|items|] == item && forall i :: 0 <= i < |items| ==> more[i] == items[i];
        forall id ensures id in ItemIds(items) ==> id in ItemIds(more) {
          if i :| 0 <= i < |items| && items[i].id == id {
            assert more[i].id == id;
          }
        }
      }
    }
  }

  /** While a turn runs, the total and the per-tool counts are those of the tool items started, each id once. */
  lemma {:induction false} ToolCallsAreTallied(c: Config, incoming: seq<Incoming>, tool: string)
    requires After(c, incoming).Running?
    ensures Tallied(After(c, incoming).state, StartedItems(incoming), tool)
  {
    if incoming != [] {
      var n := |incoming| - 1;
      var s, items, x := After(c, incoming[..n]).state, StartedItems(incoming[..n]), incoming[n];
      ToolCallsAreTallied(c, incoming[..n], tool);
      ToolsAfterOne(c, s, x);
      if StartedBy(x).Some? {
        StartKeepsTally(s, items, StartedBy(x).value, tool);
      }
    }
  }
}
