/** Splitting Markdown into messages: src/discord/throttler.rs, lines 234-375. */
module Chunker {
  import opened Prelude
  import opened Text

  /** The language of the code fence in force, or none. */
  type Fence = Option<string>

  const FENCE: string := "```"
  const CLOSER: string := "\n```"
  const CLOSING_RESERVE := 4

  // --- scan_fences ---

  /** The first line of a text, with its line feed if it has one (`split_inclusive`). */
  function FirstLine(text: string): (line: string)
    ensures line <= text && (text != [] ==> line != [])
    ensures (forall k :: 0 <= k < |line| - 1 ==> line[k] != '\n') && (line == text || line[|line| - 1] == '\n')
  {
    var n := Find(text, '\n');
    if n < |text| then text[..n + 1] else text
  }

  function ScanLine(line: string, open: Fence): Fence {
    var trimmed := TrimStart(line);
    if FENCE <= trimmed then
      if open.Some? then None else Some(Trim(trimmed[|FENCE|..]))
    else open
  }

  function Scan(text: string, open: Fence): Fence {
    if text == [] then open else
      var line := FirstLine(text);
      Scan(text[|line|..], ScanLine(line, open))
  }

  method ScanFences(text: string, open: Fence) returns (fence: Fence)
    ensures fence == Scan(text, open)
  {
    fence := open;
    var rest := text;
    while rest != []
      invariant Scan(rest, fence) == Scan(text, open)
      decreases |rest|
    {
      var line := FirstLine(rest);
      var trimmed := TrimStart(line);
      if FENCE <= trimmed {
        if fence.Some? {
          fence := None;
        } else {
          fence := Some(Trim(trimmed[|FENCE|..]));
        }
      }
      rest := rest[|line|..];
    }
  }

  /** What follows the backticks of each fence line of a text, in order. */
  function FenceMarks(text: string): seq<string> {
    if text == [] then []
    else
      var line := FirstLine(text);
      var trimmed := TrimStart(line);
      (if "```" <= trimmed then [trimmed[3..]] else []) + FenceMarks(text[|line|..])
  }

  /** The fence behind these fence lines: the last one's, if they are an odd number of lines from outside a fence. */
  function Toggled(marks: seq<string>, open: Fence): Fence {
    if marks == [] then open
    else if (|marks| % 2 == 1) == open.None? then Some(Trim(marks[|marks| - 1]))
    else None
  }

  lemma ToggledCons(mark: string, marks: seq<string>, open: Fence)
    ensures Toggled([mark] + marks, open) == Toggled(marks, if open.Some? then None else Some(Trim(mark)))
  {
  }

  lemma ScanLineToggles(line: string, open: Fence)
    ensures ScanLine(line, open) ==
      if "```" <= TrimStart(line) then (if open.Some? then None else Some(Trim(TrimStart(line)[3..]))) else open
  {
  }

  /**
   * Fence lines open and close in turn: behind an odd number of them, counted from outside a fence, the text is in the
   * fence of the last one, whose language is what that line says after its backticks.
   */
  lemma {:induction false} ScanMeaning(text: string, open: Fence)
    ensures Scan(text, open) == Toggled(FenceMarks(text), open)
    decreases |text|
  {
    if text != [] {
      var line := FirstLine(text);
      var rest, next := text[|line|..], ScanLine(line, open);
      ScanMeaning(rest, next);
      ScanLineToggles(line, open);
      if "```" <= TrimStart(line) {
        ToggledCons(TrimStart(line)[3..], FenceMarks(rest), open);
      } else {
        assert [] + FenceMarks(rest) == FenceMarks(rest);
      }
    }
  }

  // --- preferred_boundary ---

  function Utf8Length(c: char): nat {
    var n := c as int;
    if n < 0x80 then 1 else if n < 0x800 then 2 else if n < 0x1_0000 then 3 else 4
  }

  function ByteLength(s: string): nat {
    if s == [] then 0 else ByteLength(s[..|s| - 1]) + Utf8Length(s[|s| - 1])
  }

  /** The last line feed, or failing that the last whitespace, if it lies in the second half by bytes. */
  function LastNewline(s: string): (i: Option<nat>)
    ensures i.Some? ==> i.value < |s| && s[i.value] == '\n'
    ensures forall j :: (if i.Some? then i.value else -1) < j < |s| ==> s[j] != '\n'
  {
    if s == [] then None else if s[|s| - 1] == '\n' then Some(|s| - 1) else LastNewline(s[..|s| - 1])
  }

  function LastWhitespace(s: string): (i: Option<nat>)
    ensures i.Some? ==> i.value < |s| && IsWhitespace(s[i.value])
    ensures forall j :: (if i.Some? then i.value else -1) < j < |s| ==> !IsWhitespace(s[j])
  {
    if s == [] then None else if IsWhitespace(s[|s| - 1]) then Some(|s| - 1) else LastWhitespace(s[..|s| - 1])
  }

  predicate InSecondHalf(s: string, i: nat)
    requires i <= |s|
  {
    ByteLength(s[..i]) > ByteLength(s) / 2
  }

  function PreferredBoundary(candidate: string): (b: Option<nat>)
    ensures b.Some? ==> 0 < b.value <= |candidate|
  {
    var newline := LastNewline(candidate);
    if newline.Some? && InSecondHalf(candidate, newline.value) then Some(newline.value + 1)
    else
      var blank := LastWhitespace(candidate);
      if blank.Some? && InSecondHalf(candidate, blank.value) then Some(blank.value + 1) else None
  }

  /** The bytes of a character are as many as UTF-8 needs for its code. */
  lemma Utf8LengthMeaning(c: char)
    ensures var (n, k) := (c as int, Utf8Length(c));
      && 1 <= k <= 4
      && (k == 1 <==> n < 0x80) && (k <= 2 <==> n < 0x800) && (k <= 3 <==> n < 0x1_0000)
  {
  }

  /** The second half is counted in bytes. */
  lemma InSecondHalfMeaning(s: string, i: nat)
    requires i <= |s|
    ensures InSecondHalf(s, i) <==> 2 * ByteLength(s[..i]) > ByteLength(s)
    ensures (forall k :: 0 <= k < |s| ==> s[k] as int < 0x80) ==> (InSecondHalf(s, i) <==> 2 * i > |s|)
  {
    if forall k :: 0 <= k < |s| ==> s[k] as int < 0x80 {
      AsciiBytes(s);
      AsciiBytes(s[..i]);
    }
  }

  lemma {:induction false} AsciiBytes(s: string)
    requires forall k :: 0 <= k < |s| ==> s[k] as int < 0x80
    ensures ByteLength(s) == |s|
  {
    if s != [] {
      AsciiBytes(s[..|s| - 1]);
    }
  }

  lemma {:induction false} ByteLengthMonotone(s: string, i: nat, j: nat)
    requires i <= j <= |s|
    ensures ByteLength(s[..i]) <= ByteLength(s[..j])
    decreases j
  {
    if i < j {
      assert s[..j][..j - 1] == s[..j - 1];
      ByteLengthMonotone(s, i, j - 1);
    }
  }

  /**
   * Where a full budget is cut back to: behind the last line feed of the second half if it has one, else behind its
   * last whitespace if it has any; only a second half of one unbroken word is cut at the budget itself.
   */
  lemma PreferredBoundaryMeaning(s: string)
    ensures match PreferredBoundary(s)
      case None => forall i :: 0 <= i < |s| && IsWhitespace(s[i]) ==> !InSecondHalf(s, i)
      case Some(b) =>
        && InSecondHalf(s, b - 1)
        && (if exists i :: 0 <= i < |s| && s[i] == '\n' && InSecondHalf(s, i)
            then s[b - 1] == '\n' && forall j :: b <= j < |s| ==> s[j] != '\n'
            else IsWhitespace(s[b - 1]) && forall j :: b <= j < |s| ==> !IsWhitespace(s[j]))
  {
    var newline, blank := LastNewline(s), LastWhitespace(s);
    forall i | 0 <= i < |s| && s[i] == '\n' ensures InSecondHalf(s, i) ==> InSecondHalf(s, newline.value) {
      ByteLengthMonotone(s, i, newline.value);
    }
    forall i | 0 <= i < |s| && IsWhitespace(s[i]) ensures InSecondHalf(s, i) ==> InSecondHalf(s, blank.value) {
      ByteLengthMonotone(s, i, blank.value);
    }
  }

  // --- chunk_markdown_raw ---

  function TakeChars(s: string, count: nat): (string, string) {
    if count < |s| then (s[..count], s[count..]) else (s, [])
  }

  function Header(index: nat, total: Option<nat>): string {
    match total
    case Some(n) => "(" + Decimal(index) + "/" + Decimal(n) + ")\n"
    case None => ""
  }

  function Opener(reopen: Fence): string {
    match reopen
    case Some(language) => FENCE + language + "\n"
    case None => ""
  }

  function Budget(limit: nat, prefix: nat): nat {
    if limit > prefix + CLOSING_RESERVE then limit - prefix - CLOSING_RESERVE else 0
  }

  /** One chunk: what was added around the piece of the text, and the fence in force before and after it. */
  datatype Cut = Cut(header: string, opener: string, piece: string, closer: string, entry: Fence, exit: Fence,
    budgeted: bool)

  function ChunkText(c: Cut): string {
    c.header + c.opener + c.piece + c.closer
  }

  /** How many of the remaining characters go into a chunk with this budget. */
  function SplitPoint(remaining: string, budget: nat): (n: nat)
    requires remaining != [] && budget > 0
    ensures 0 < n <= |remaining| && n <= budget
    ensures |remaining| <= budget ==> n == |remaining|
  {
    var (candidate, rest) := TakeChars(remaining, budget);
    if rest == [] then |candidate| else PreferredBoundary(candidate).GetOr(|candidate|)
  }

  function NextCut(remaining: string, reopen: Fence, index: nat, limit: nat, total: Option<nat>): (c: Cut)
    requires remaining != [] && limit > 0
    ensures c.piece <= remaining && c.piece != [] && c.entry == reopen
  {
    var header := Header(index, total);
    var opener := Opener(reopen);
    var budget := Budget(limit, |header + opener|);
    if budget == 0 then Cut("", "", TakeChars(remaining, limit).0, "", reopen, None, false)
    else
      var piece := remaining[..SplitPoint(remaining, budget)];
      var fence := Scan(piece, reopen);
      Cut(header, opener, piece, if |remaining| > budget && fence.Some? then CLOSER else "", reopen, fence, true)
  }

  function Cuts(remaining: string, reopen: Fence, index: nat, limit: nat, total: Option<nat>): seq<Cut>
    requires limit > 0
    decreases |remaining|
  {
    if remaining == [] then [] else
      var c := NextCut(remaining, reopen, index, limit, total);
      [c] + Cuts(remaining[|c.piece|..], c.exit, index + 1, limit, total)
  }

  function Texts(cuts: seq<Cut>): seq<string> {
    seq(|cuts|, i requires 0 <= i < |cuts| => ChunkText(cuts[i]))
  }

  function Pieces(cuts: seq<Cut>): seq<string> {
    seq(|cuts|, i requires 0 <= i < |cuts| => cuts[i].piece)
  }

  /** The body of the loop: the text of the next chunk, the characters it used up, and the fence carried on. */
  method CutChunk(remaining: string, reopen: Fence, index: nat, limit: nat, total: Option<nat>)
    returns (chunk: string, used: nat, carried: Fence)
    requires remaining != [] && limit > 0
    ensures var c := NextCut(remaining, reopen, index, limit, total);
      chunk == ChunkText(c) && used == |c.piece| && carried == c.exit
  {
    var prefix := Header(index, total) + Opener(reopen);
    var budget := Budget(limit, |prefix|);
    if budget == 0 {
      chunk := TakeChars(remaining, limit).0;
      used, carried := |chunk|, None;
      UnbudgetedCut(remaining, reopen, index, limit, total);
    } else {
      var splitAt := CutAt(remaining, budget);
      var piece := remaining[..splitAt];
      carried := ScanFences(piece, reopen);
      var closer := if |remaining| > budget && carried.Some? then CLOSER else "";
      chunk, used := prefix + piece + closer, splitAt;
      BudgetedCut(remaining, reopen, index, limit, total, piece, closer);
    }
  }

  /** How much of the rest goes into a chunk: all that fits, cut back to a preferred boundary if there is more. */
  method CutAt(remaining: string, budget: nat) returns (splitAt: nat)
    requires remaining != [] && budget > 0
    ensures splitAt == SplitPoint(remaining, budget)
  {
    var (candidate, rest) := TakeChars(remaining, budget);
    splitAt := |candidate|;
    if rest != [] {
      splitAt := PreferredBoundary(candidate).GetOr(|candidate|);
    }
  }

  lemma UnbudgetedCut(remaining: string, reopen: Fence, index: nat, limit: nat, total: Option<nat>)
    requires remaining != [] && limit > 0 && Budget(limit, |Header(index, total) + Opener(reopen)|) == 0
    ensures var c := NextCut(remaining, reopen, index, limit, total);
      ChunkText(c) == c.piece == TakeChars(remaining, limit).0 && c.exit.None?
  {
    var piece := TakeChars(remaining, limit).0;
    assert "" + "" + piece + "" == piece;
  }

  lemma BudgetedCut(
      remaining: string, reopen: Fence, index: nat, limit: nat, total: Option<nat>, piece: string, closer: string)
    requires remaining != [] && limit > 0 && Budget(limit, |Header(index, total) + Opener(reopen)|) > 0
    requires var budget := Budget(limit, |Header(index, total) + Opener(reopen)|);
      && piece == remaining[..SplitPoint(remaining, budget)]
      && closer == if |remaining| > budget && Scan(piece, reopen).Some? then CLOSER else ""
    ensures var c := NextCut(remaining, reopen, index, limit, total);
      && ChunkText(c) == Header(index, total) + Opener(reopen) + piece + closer
      && c.piece == piece && c.exit == Scan(piece, reopen)
  {
  }

  method ChunkMarkdownRaw(content: string, limit: nat, total: Option<nat>) returns (chunks: seq<string>)
    requires limit > 0
    ensures chunks == Texts(Cuts(content, None, 1, limit, total))
  {
    chunks := [];
    var remaining := content;
    var reopen: Fence := None;
    var index := 1;
    ghost var done: seq<Cut> := [];
    while remaining != []
      invariant done + Cuts(remaining, reopen, index, limit, total) == Cuts(content, None, 1, limit, total)
      invariant chunks == Texts(done)
      decreases |remaining|
    {
      ghost var c := NextCut(remaining, reopen, index, limit, total);
      var chunk, used, carried := CutChunk(remaining, reopen, index, limit, total);
      CutsStep(done, remaining, reopen, index, limit, total);
      TextsSnoc(done, c);
      chunks, done := chunks + [chunk], done + [c];
      remaining, reopen, index := remaining[used..], carried, index + 1;
    }
    assert done + [] == done;
  }

  lemma CutsStep(done: seq<Cut>, remaining: string, reopen: Fence, index: nat, limit: nat, total: Option<nat>)
    requires remaining != [] && limit > 0
    ensures var c := NextCut(remaining, reopen, index, limit, total);
      done + Cuts(remaining, reopen, index, limit, total) ==
      (done + [c]) + Cuts(remaining[|c.piece|..], c.exit, index + 1, limit, total)
  {
  }

  lemma TextsSnoc(done: seq<Cut>, c: Cut)
    ensures Texts(done + [c]) == Texts(done) + [ChunkText(c)]
  {
  }

  // --- Nothing is lost and nothing is too long ---

  lemma {:induction false} PiecesConcatenateToContent(
      content: string, reopen: Fence, index: nat, limit: nat, total: Option<nat>)
    requires limit > 0
    ensures Flatten(Pieces(Cuts(content, reopen, index, limit, total))) == content
    decreases |content|
  {
    if content != [] {
      var c := NextCut(content, reopen, index, limit, total);
      var rest := Cuts(content[|c.piece|..], c.exit, index + 1, limit, total);
      PiecesConcatenateToContent(content[|c.piece|..], c.exit, index + 1, limit, total);
      assert Pieces([c] + rest)[1..] == Pieces(rest);
      assert content == c.piece + content[|c.piece|..];
    }
  }

  /** Every chunk fits the limit, whatever was added to it. */
  lemma {:induction false} ChunksFit(content: string, reopen: Fence, index: nat, limit: nat, total: Option<nat>, i: nat)
    requires limit > 0 && i < |Cuts(content, reopen, index, limit, total)|
    ensures 0 < |ChunkText(Cuts(content, reopen, index, limit, total)[i])| <= limit
    decreases i
  {
    var c := NextCut(content, reopen, index, limit, total);
    if i > 0 {
      ChunksFit(content[|c.piece|..], c.exit, index + 1, limit, total, i - 1);
    }
  }

  // --- Fences across chunks ---

  /** A language as the scanner records it. */
  predicate WellFormed(fence: Fence) {
    fence.Some? ==> Trimmed(fence.value) && '\n' !in fence.value
  }

  predicate EndsLine(s: string) {
    s == [] || s[|s| - 1] == '\n'
  }

  /** Scanning splits at a line boundary. */
  lemma {:induction false} ScanConcat(a: string, b: string, open: Fence)
    requires EndsLine(a)
    ensures Scan(a + b, open) == Scan(b, Scan(a, open))
    decreases |a|
  {
    if a == [] {
      assert a + b == b;
    } else {
      var line := FirstLine(a);
      FirstLineOfConcat(a, b);
      assert (a + b)[|line|..] == a[|line|..] + b;
      ScanConcat(a[|line|..], b, ScanLine(line, open));
    }
  }

  lemma FirstLineOfConcat(a: string, b: string)
    requires a != [] && EndsLine(a)
    ensures FirstLine(a + b) == FirstLine(a)
  {
    FindUnique(a + b, '\n', Find(a, '\n'));
  }

  lemma FenceBeforeLineFeed(t: string)
    ensures FENCE <= t + "\n" <==> FENCE <= t
  {
    if FENCE <= t + "\n" && |t| >= 2 {
      assert (t + "\n")[2] == '`';
    }
  }

  /** A line feed at the end of a line changes nothing about the fence it is. */
  lemma LineFeedIsIrrelevant(line: string, open: Fence)
    requires '\n' !in line
    ensures ScanLine(line + "\n", open) == ScanLine(line, open)
  {
    if Blank(line) {
      assert Blank(line + "\n");
      LeadingBlankUnique(line, |line|);
      LeadingBlankUnique(line + "\n", |line| + 1);
    } else {
      TrimStartAppend(line, "\n");
      var t := TrimStart(line);
      FenceBeforeLineFeed(t);
      if FENCE <= t {
        assert (t + "\n")[3..] == t[3..] + "\n";
        TrimPadding("", t[3..], "\n");
        assert "" + t[3..] + "\n" == t[3..] + "\n";
      }
    }
  }

  lemma ScanOneLine(line: string, open: Fence)
    requires line != [] && forall k :: 0 <= k < |line| - 1 ==> line[k] != '\n'
    ensures Scan(line, open) == ScanLine(line, open)
  {
    FindUnique(line, '\n', if line[|line| - 1] == '\n' then |line| - 1 else |line|);
    assert FirstLine(line) == line && line[|line|..] == [];
  }

  /** Ending the text with a line feed never changes the fence in force. */
  lemma {:induction false} ScanLineFeed(text: string, open: Fence)
    ensures Scan(text + "\n", open) == Scan(text, open)
    decreases |text|
  {
    var n := Find(text, '\n');
    if n < |text| {
      var first, rest := text[..n + 1], text[n + 1..];
      assert text == first + rest && text + "\n" == first + (rest + "\n");
      ScanConcat(first, rest, open);
      ScanConcat(first, rest + "\n", open);
      ScanLineFeed(rest, Scan(first, open));
    } else {
      ScanOneLine(text + "\n", open);
      LineFeedIsIrrelevant(text, open);
      if text == [] {
        assert TrimStart("") == "";
      } else {
        ScanOneLine(text, open);
      }
    }
  }

  lemma FenceLine(open: Fence)
    ensures Scan(FENCE, open) == if open.Some? then None else Some("")
  {
    ScanOneLine(FENCE, open);
    LeadingBlankUnique(FENCE, 0);
    assert TrimStart(FENCE) == FENCE;
  }

  /** The suffix closes the fence that is open at the cut. */
  lemma CloserCloses(piece: string, open: Fence)
    requires Scan(piece, open).Some?
    ensures Scan(piece + CLOSER, open).None?
  {
    var line := piece + "\n";
    assert CLOSER == "\n" + FENCE;
    Regroup(piece, "\n", FENCE);
    ScanConcat(line, FENCE, open);
    ScanLineFeed(piece, open);
    FenceLine(Scan(piece, open));
  }

  lemma OpenerLine(language: string)
    ensures ScanLine(FENCE + language + "\n", None) == Some(Trim(language))
  {
    var line := FENCE + language + "\n";
    assert line[0] == '`';
    LeadingBlankUnique(line, 0);
    assert TrimStart(line) == line && line[..3] == FENCE;
    assert line[3..] == language + "\n";
    TrimPadding("", language, "\n");
    assert "" + language + "\n" == language + "\n";
  }

  /** The prefix line of a chunk opens exactly the fence it was made from. */
  lemma OpenerOpens(fence: Fence)
    requires WellFormed(fence)
    ensures Scan(Opener(fence), None) == fence && EndsLine(Opener(fence))
  {
    if fence.Some? {
      var line := Opener(fence);
      forall k | 0 <= k < |line| - 1 ensures line[k] != '\n' {
        assert line[k] == (FENCE + fence.value)[k];
      }
      ScanOneLine(line, None);
      OpenerLine(fence.value);
      TrimOfTrimmed(fence.value);
    }
  }

  /** A page header is a line of its own that opens no fence. */
  lemma HeaderIsNoFence(index: nat, total: Option<nat>, open: Fence)
    ensures Scan(Header(index, total), open) == open && EndsLine(Header(index, total))
  {
    if total.Some? {
      var header := Header(index, total);
      var n := |header| - 1;
      var bare := "(" + Decimal(index) + "/" + Decimal(total.value) + ")";
      forall k | 0 <= k < n ensures header[k] != '\n' {
        assert header[k] == bare[k];
      }
      ScanOneLine(header, open);
      assert header[0] == '(';
      LeadingBlankUnique(header, 0);
      assert !(FENCE <= header);
    }
  }

  lemma {:induction false} ScanIsWellFormed(text: string, open: Fence)
    requires WellFormed(open)
    ensures WellFormed(Scan(text, open))
    decreases |text|
  {
    if text != [] {
      var line := FirstLine(text);
      ScanLineIsWellFormed(line, open);
      ScanIsWellFormed(text[|line|..], ScanLine(line, open));
    }
  }

  /** Trimming removes the line feed together with the other whitespace: a line has none before its end. */
  lemma TrimmedTailIsWellFormed(tail: string)
    requires forall k :: 0 <= k < |tail| - 1 ==> tail[k] != '\n'
    ensures WellFormed(Some(Trim(tail)))
  {
    TrimIsTrimmed(tail);
    if tail != [] && tail[|tail| - 1] == '\n' {
      var bare := tail[..|tail| - 1];
      assert tail == bare + "\n";
      TrimRightPadding(bare, "\n");
      TrimIsTrimmed(bare);
    }
  }

  lemma ScanLineIsWellFormed(line: string, open: Fence)
    requires WellFormed(open)
    requires forall k :: 0 <= k < |line| - 1 ==> line[k] != '\n'
    ensures WellFormed(ScanLine(line, open))
  {
    var trimmed := TrimStart(line);
    if FENCE <= trimmed && open.None? {
      var k := LeadingBlank(line) + |FENCE|;
      assert trimmed[|FENCE|..] == line[k..];
      TrimmedTailIsWellFormed(line[k..]);
    }
  }

  lemma PrefixEndsLine(index: nat, total: Option<nat>, reopen: Fence)
    requires WellFormed(reopen)
    ensures EndsLine(Header(index, total) + Opener(reopen))
  {
    HeaderIsNoFence(index, total, None);
    OpenerOpens(reopen);
  }

  lemma CutCloser(remaining: string, reopen: Fence, index: nat, limit: nat, total: Option<nat>)
    requires remaining != [] && limit > 0
    ensures var c := NextCut(remaining, reopen, index, limit, total);
      c.budgeted ==>
        && c.header == Header(index, total) && c.opener == Opener(reopen) && c.exit == Scan(c.piece, reopen)
        && (|c.piece| < |remaining| ==> c.closer == if c.exit.Some? then CLOSER else "")
  {
  }

  lemma PrefixedScan(index: nat, total: Option<nat>, reopen: Fence, body: string)
    requires WellFormed(reopen)
    ensures Scan(Header(index, total) + Opener(reopen), None) == reopen
    ensures Scan(Header(index, total) + Opener(reopen) + body, None) == Scan(body, reopen)
  {
    var header, opener := Header(index, total), Opener(reopen);
    HeaderIsNoFence(index, total, None);
    OpenerOpens(reopen);
    ScanConcat(header, opener, None);
    assert EndsLine(header + opener);
    ScanConcat(header + opener, body, None);
  }

  /** A piece that leaves a fence open is closed by the closer, whatever line-ended prefix it stands behind. */
  lemma PrefixedCloser(prefix: string, piece: string)
    requires EndsLine(prefix) && Scan(piece, Scan(prefix, None)).Some?
    ensures Scan(prefix + piece + CLOSER, None).None?
  {
    CloserCloses(piece, Scan(prefix, None));
    ScanConcat(prefix, piece + CLOSER, None);
    Regroup(prefix, piece, CLOSER);
  }

  /** Scanned from scratch, a chunk before its closer stands where the scanner stood at the cut. */
  lemma ChunkReachesExit(remaining: string, reopen: Fence, index: nat, limit: nat, total: Option<nat>)
    requires remaining != [] && limit > 0 && WellFormed(reopen)
    ensures var c := NextCut(remaining, reopen, index, limit, total);
      c.budgeted ==>
        && Scan(c.header + c.opener, None) == c.entry
        && Scan(c.header + c.opener + c.piece, None) == c.exit
        && (|c.piece| < |remaining| ==> Scan(ChunkText(c), None).None?)
  {
    var c := NextCut(remaining, reopen, index, limit, total);
    if c.budgeted {
      PrefixedScan(index, total, reopen, c.piece);
      CutCloser(remaining, reopen, index, limit, total);
      var prefix := c.header + c.opener;
      if c.exit.Some? {
        PrefixEndsLine(index, total, reopen);
        PrefixedCloser(prefix, c.piece);
      } else {
        assert prefix + c.piece + "" == prefix + c.piece;
      }
    }
  }

  /**
   * Fences are balanced chunk by chunk. Every chunk but the last that was built with a budget ends, scanned on its own,
   * outside any fence; and the chunk after it opens, scanned on its own, with exactly the fence in force where the
   * previous one was cut.
   */
  lemma {:induction false} FencesAreBalanced(
      content: string, reopen: Fence, index: nat, limit: nat, total: Option<nat>, i: nat)
    requires limit > 0 && WellFormed(reopen) && i + 1 < |Cuts(content, reopen, index, limit, total)|
    ensures var cuts := Cuts(content, reopen, index, limit, total);
      cuts[i].budgeted ==>
        && Scan(ChunkText(cuts[i]), None).None?
        && (cuts[i + 1].budgeted ==>
              Scan(cuts[i + 1].header + cuts[i + 1].opener, None) ==
              Scan(cuts[i].header + cuts[i].opener + cuts[i].piece, None))
    decreases i
  {
    var c := NextCut(content, reopen, index, limit, total);
    var rest, next := content[|c.piece|..], index + 1;
    var cuts := Cuts(content, reopen, index, limit, total);
    ExitIsWellFormed(content, reopen, index, limit, total);
    CutsUnfold(content, reopen, index, limit, total);
    if i > 0 {
      var before := i - 1;
      FencesAreBalanced(rest, c.exit, next, limit, total, before);
      assert cuts[i] == cuts[1..][before] && cuts[i + 1] == cuts[1..][before + 1];
    } else {
      assert cuts[1..] != [];
      ChunkReachesExit(content, reopen, index, limit, total);
      ChunkReachesExit(rest, c.exit, next, limit, total);
      CutsUnfold(rest, c.exit, next, limit, total);
    }
  }

  lemma ExitIsWellFormed(content: string, reopen: Fence, index: nat, limit: nat, total: Option<nat>)
    requires limit > 0 && content != [] && WellFormed(reopen)
    ensures WellFormed(NextCut(content, reopen, index, limit, total).exit)
  {
    ScanIsWellFormed(NextCut(content, reopen, index, limit, total).piece, reopen);
  }

  /** What the first `k` cuts used up, scanned: first the first piece, then the others. */
  lemma ConsumedScan(cuts: seq<Cut>, k: nat, open: Fence)
    requires 0 < k <= |cuts| && EndsLine(cuts[0].piece)
    ensures Scan(Flatten(Pieces(cuts[..k])), open) ==
            Scan(Flatten(Pieces(cuts[1..][..k - 1])), Scan(cuts[0].piece, open))
  {
    PiecesCons(cuts, k);
    FlattenedScan(cuts[0].piece, Pieces(cuts[1..][..k - 1]), Pieces(cuts[..k]), open);
  }

  predicate CutsAtLineEnds(cuts: seq<Cut>, k: nat)
    requires k <= |cuts|
  {
    forall i :: 0 <= i < k ==> cuts[i].budgeted && EndsLine(cuts[i].piece)
  }

  lemma LineEndsTail(cuts: seq<Cut>, k: nat)
    requires 0 < k < |cuts| && CutsAtLineEnds(cuts, k)
    ensures cuts[0].budgeted && EndsLine(cuts[0].piece) && CutsAtLineEnds(cuts[1..], k - 1)
  {
    forall i | 0 <= i < k - 1 ensures cuts[1..][i].budgeted && EndsLine(cuts[1..][i].piece) {
      assert cuts[1..][i] == cuts[i + 1];
    }
  }

  /**
   * As long as every cut so far fell after a line feed, the fence carried into a chunk is the one the original text
   * has there.
   */
  lemma {:induction false} CarriedFenceIsTheDocuments(
      content: string, reopen: Fence, index: nat, limit: nat, total: Option<nat>, cuts: seq<Cut>, k: nat)
    requires limit > 0 && cuts == Cuts(content, reopen, index, limit, total) && k < |cuts| && CutsAtLineEnds(cuts, k)
    ensures cuts[k].entry == Scan(Flatten(Pieces(cuts[..k])), reopen)
    decreases k
  {
    CutsUnfold(content, reopen, index, limit, total);
    if k == 0 {
      assert Pieces(cuts[..0]) == [];
    } else {
      var c := cuts[0];
      var rest, text, next, before := cuts[1..], content[|c.piece|..], index + 1, k - 1;
      LineEndsTail(cuts, k);
      CarriedFenceIsTheDocuments(text, c.exit, next, limit, total, rest, before);
      CutCloser(content, reopen, index, limit, total);
      ConsumedScan(cuts, k, reopen);
      assert cuts[k] == rest[before];
    }
  }

  lemma CutsUnfold(content: string, reopen: Fence, index: nat, limit: nat, total: Option<nat>)
    requires limit > 0 && content != []
    ensures var c := NextCut(content, reopen, index, limit, total);
      var cuts := Cuts(content, reopen, index, limit, total);
      cuts[0] == c && c.entry == reopen && cuts[1..] == Cuts(content[|c.piece|..], c.exit, index + 1, limit, total)
  {
  }

  lemma PiecesCons(cuts: seq<Cut>, k: nat)
    requires 0 < k <= |cuts|
    ensures Pieces(cuts[..k]) == [cuts[0].piece] + Pieces(cuts[1..][..k - 1])
  {
  }

  lemma FlattenedScan(first: string, rest: seq<string>, whole: seq<string>, open: Fence)
    requires EndsLine(first) && whole == [first] + rest
    ensures Scan(Flatten(whole), open) == Scan(Flatten(rest), Scan(first, open))
  {
    assert whole[1..] == rest;
    ScanConcat(first, Flatten(rest), open);
  }

  // --- Page numbers ---

  // --- What each chunk reads ---

  /** Where the text of a full budget is cut: behind a line feed or a blank of its second half, or at its end. */
  ghost predicate FallsAtBoundary(s: string, n: nat) {
    && 0 < n <= |s|
    && if exists i :: 0 <= i < |s| && s[i] == '\n' && InSecondHalf(s, i) then
         s[n - 1] == '\n' && forall j :: n <= j < |s| ==> s[j] != '\n'
       else if exists i :: 0 <= i < |s| && IsWhitespace(s[i]) && InSecondHalf(s, i) then
         IsWhitespace(s[n - 1]) && forall j :: n <= j < |s| ==> !IsWhitespace(s[j])
       else n == |s|
  }

  /** What stands before the text of a chunk: its page header, and the fence it continues. */
  function Heading(entry: Fence, index: nat, total: Option<nat>): string {
    (if total.Some? then "(" + Decimal(index) + "/" + Decimal(total.value) + ")\n" else "")
    + (if entry.Some? then "```" + entry.value + "\n" else "")
  }

  /**
   * One chunk of the text `remaining`. Without room behind its heading and four characters it is bare text; the last
   * one takes all the rest; any other is cut at a boundary, and closed if that leaves a fence open.
   */
  ghost predicate ReadsAs(c: Cut, index: nat, total: Option<nat>, limit: nat, remaining: string) {
    var heading := Heading(c.entry, index, total);
    if limit <= |heading| + 4 then
      && ChunkText(c) == c.piece == (if |remaining| <= limit then remaining else remaining[..limit])
      && c.exit.None?
    else
      && c.exit == Scan(c.piece, c.entry)
      && if |remaining| <= limit - |heading| - 4 then
           c.piece == remaining && ChunkText(c) == heading + remaining
         else
           && c.piece <= remaining && FallsAtBoundary(remaining[..limit - |heading| - 4], |c.piece|)
           && ChunkText(c) == heading + c.piece + if c.exit.Some? then "\n```" else ""
  }

  lemma SplitFallsAtBoundary(remaining: string, budget: nat)
    requires 0 < budget < |remaining|
    ensures FallsAtBoundary(remaining[..budget], SplitPoint(remaining, budget))
  {
    PreferredBoundaryMeaning(remaining[..budget]);
  }

  lemma HeadingIsPrefix(reopen: Fence, index: nat, total: Option<nat>)
    ensures Header(index, total) + Opener(reopen) == Heading(reopen, index, total)
  {
  }

  lemma BareCutReads(remaining: string, reopen: Fence, index: nat, limit: nat, total: Option<nat>)
    requires remaining != [] && limit > 0 && limit <= |Heading(reopen, index, total)| + 4
    ensures ReadsAs(NextCut(remaining, reopen, index, limit, total), index, total, limit, remaining)
  {
    HeadingIsPrefix(reopen, index, total);
    UnbudgetedCut(remaining, reopen, index, limit, total);
  }

  lemma LastTextReads(c: Cut, index: nat, total: Option<nat>, limit: nat, remaining: string)
    requires |remaining| + |Heading(c.entry, index, total)| + 4 <= limit && remaining != []
    requires c.piece == remaining && c.exit == Scan(c.piece, c.entry)
    requires ChunkText(c) == Heading(c.entry, index, total) + remaining
    ensures ReadsAs(c, index, total, limit, remaining)
  {
  }

  lemma CutTextReads(c: Cut, index: nat, total: Option<nat>, limit: nat, remaining: string, budget: nat)
    requires 0 < budget < |remaining| && limit == |Heading(c.entry, index, total)| + 4 + budget
    requires c.piece <= remaining && FallsAtBoundary(remaining[..budget], |c.piece|) && c.exit == Scan(c.piece, c.entry)
    requires ChunkText(c) == Heading(c.entry, index, total) + c.piece + if c.exit.Some? then CLOSER else ""
    ensures ReadsAs(c, index, total, limit, remaining)
  {
  }

  lemma RoomyCutReads(remaining: string, reopen: Fence, index: nat, limit: nat, total: Option<nat>, budget: nat)
    requires remaining != [] && budget > 0 && limit == |Heading(reopen, index, total)| + 4 + budget
    ensures ReadsAs(NextCut(remaining, reopen, index, limit, total), index, total, limit, remaining)
  {
    HeadingIsPrefix(reopen, index, total);
    var c := NextCut(remaining, reopen, index, limit, total);
    var piece := remaining[..SplitPoint(remaining, budget)];
    if |remaining| > budget {
      SplitFallsAtBoundary(remaining, budget);
      BudgetedCut(remaining, reopen, index, limit, total, piece, if Scan(piece, reopen).Some? then CLOSER else "");
      CutTextReads(c, index, total, limit, remaining, budget);
    } else {
      assert piece == remaining;
      BudgetedCut(remaining, reopen, index, limit, total, piece, "");
      assert Heading(reopen, index, total) + piece + "" == Heading(reopen, index, total) + remaining;
      LastTextReads(c, index, total, limit, remaining);
    }
  }

  lemma CutReads(remaining: string, reopen: Fence, index: nat, limit: nat, total: Option<nat>)
    requires remaining != [] && limit > 0
    ensures ReadsAs(NextCut(remaining, reopen, index, limit, total), index, total, limit, remaining)
  {
    var heading := |Heading(reopen, index, total)|;
    if limit <= heading + 4 {
      BareCutReads(remaining, reopen, index, limit, total);
    } else {
      RoomyCutReads(remaining, reopen, index, limit, total, limit - heading - 4);
    }
  }

  /** The `i`-th chunk reads as it should of the text from there on, and continues the fence of the one before it. */
  ghost predicate ReadsAt(cuts: seq<Cut>, i: nat, reopen: Fence, index: nat, total: Option<nat>, limit: nat) {
    && i < |cuts| && ReadsAs(cuts[i], index, total, limit, Flatten(Pieces(cuts[i..])))
    && cuts[i].entry == if i == 0 then reopen else cuts[i - 1].exit
  }

  lemma ReadsAtTail(cuts: seq<Cut>, i: nat, reopen: Fence, index: nat, total: Option<nat>, limit: nat)
    requires cuts != [] && ReadsAt(cuts[1..], i, cuts[0].exit, index, total, limit)
    ensures ReadsAt(cuts, i + 1, reopen, index, total, limit)
  {
    assert cuts[1..][i..] == cuts[i + 1..];
  }

  lemma FirstReads(content: string, reopen: Fence, index: nat, limit: nat, total: Option<nat>, cuts: seq<Cut>)
    requires content != [] && cuts != [] && cuts[0].entry == reopen
    requires Flatten(Pieces(cuts)) == content && ReadsAs(cuts[0], index, total, limit, content)
    ensures ReadsAt(cuts, 0, reopen, index, total, limit)
  {
    assert cuts[0..] == cuts;
  }

  lemma FirstChunkReads(content: string, reopen: Fence, index: nat, limit: nat, total: Option<nat>)
    requires limit > 0 && content != []
    ensures ReadsAt(Cuts(content, reopen, index, limit, total), 0, reopen, index, total, limit)
  {
    var cuts := Cuts(content, reopen, index, limit, total);
    CutsUnfold(content, reopen, index, limit, total);
    PiecesConcatenateToContent(content, reopen, index, limit, total);
    CutReads(content, reopen, index, limit, total);
    FirstReads(content, reopen, index, limit, total, cuts);
  }

  ghost predicate ReadOff(cuts: seq<Cut>, reopen: Fence, index: nat, total: Option<nat>, limit: nat) {
    forall i: nat, at: nat :: i < |cuts| && at == index + i ==> ReadsAt(cuts, i, reopen, at, total, limit)
  }

  lemma LaterReads(
      cuts: seq<Cut>, tail: seq<Cut>, before: nat, i: nat, at: nat, reopen: Fence, exit: Fence, next: nat,
      total: Option<nat>, limit: nat)
    requires cuts != [] && tail == cuts[1..] && exit == cuts[0].exit && i == before + 1 < |cuts|
    requires ReadOff(tail, exit, next, total, limit) && at == next + before
    ensures ReadsAt(cuts, i, reopen, at, total, limit)
  {
    assert ReadsAt(tail, before, exit, at, total, limit);
    ReadsAtTail(cuts, before, reopen, at, total, limit);
  }

  lemma AnyReads(
      cuts: seq<Cut>, i: nat, at: nat, reopen: Fence, index: nat, next: nat, total: Option<nat>, limit: nat)
    requires i < |cuts| && ReadsAt(cuts, 0, reopen, index, total, limit) && next == index + 1 && at == index + i
    requires ReadOff(cuts[1..], cuts[0].exit, next, total, limit)
    ensures ReadsAt(cuts, i, reopen, at, total, limit)
  {
    if i == 0 {
      assert at == index;
    } else {
      LaterReads(cuts, cuts[1..], i - 1, i, at, reopen, cuts[0].exit, next, total, limit);
    }
  }

  lemma ReadOffCons(cuts: seq<Cut>, reopen: Fence, index: nat, next: nat, total: Option<nat>, limit: nat)
    requires cuts != [] && ReadsAt(cuts, 0, reopen, index, total, limit) && next == index + 1
    requires ReadOff(cuts[1..], cuts[0].exit, next, total, limit)
    ensures ReadOff(cuts, reopen, index, total, limit)
  {
    forall i: nat, at: nat | i < |cuts| && at == index + i ensures ReadsAt(cuts, i, reopen, at, total, limit) {
      AnyReads(cuts, i, at, reopen, index, next, total, limit);
    }
  }

  /**
   * The chunks of a text, one by one: what each reads, of the text that the chunks before it left, and which fence it
   * continues.
   */
  lemma {:induction false} EveryChunkReads(content: string, reopen: Fence, index: nat, limit: nat, total: Option<nat>)
    requires limit > 0
    ensures ReadOff(Cuts(content, reopen, index, limit, total), reopen, index, total, limit)
    decreases |content|
  {
    if content != [] {
      var cuts := Cuts(content, reopen, index, limit, total);
      var rest, next := content[|cuts[0].piece|..], index + 1;
      CutsUnfold(content, reopen, index, limit, total);
      FirstChunkReads(content, reopen, index, limit, total);
      EveryChunkReads(rest, cuts[0].exit, next, limit, total);
      ReadOffCons(cuts, reopen, index, next, total, limit);
    }
  }

  /** A chunk apart from its page header. */
  function Shape(c: Cut): Cut { c.(header := "") }

  lemma CutDependsOnWidthOnly(content: string, reopen: Fence, index: nat, limit: nat, a: nat, b: nat)
    requires limit > 0 && content != [] && |Decimal(a)| == |Decimal(b)|
    ensures Shape(NextCut(content, reopen, index, limit, Some(a)))
      == Shape(NextCut(content, reopen, index, limit, Some(b)))
  {
    assert |Header(index, Some(a)) + Opener(reopen)| == |Header(index, Some(b)) + Opener(reopen)|;
  }

  ghost predicate SameShapes(p: seq<Cut>, q: seq<Cut>) {
    |p| == |q| && forall i :: 0 <= i < |p| ==> Shape(p[i]) == Shape(q[i])
  }

  lemma SameShapesCons(c: Cut, d: Cut, p: seq<Cut>, q: seq<Cut>)
    requires Shape(c) == Shape(d) && SameShapes(p, q)
    ensures SameShapes([c] + p, [d] + q)
  {
  }

  /** Where a text is cut depends on the announced total only through the number of its digits. */
  lemma {:induction false} CutsDependOnWidthOnly(
      content: string, reopen: Fence, index: nat, limit: nat, a: nat, b: nat)
    requires limit > 0 && |Decimal(a)| == |Decimal(b)|
    ensures SameShapes(Cuts(content, reopen, index, limit, Some(a)), Cuts(content, reopen, index, limit, Some(b)))
    decreases |content|
  {
    if content != [] {
      var c := NextCut(content, reopen, index, limit, Some(a));
      var d := NextCut(content, reopen, index, limit, Some(b));
      CutDependsOnWidthOnly(content, reopen, index, limit, a, b);
      CutsDependOnWidthOnly(content[|c.piece|..], c.exit, index + 1, limit, a, b);
      SameShapesCons(c, d, Cuts(content[|c.piece|..], c.exit, index + 1, limit, Some(a)),
                     Cuts(content[|c.piece|..], c.exit, index + 1, limit, Some(b)));
    }
  }

  ghost predicate HasHeader(c: Cut, index: nat, total: nat) {
    if c.budgeted then c.header == Header(index, Some(total)) else c.header == c.opener == c.closer == ""
  }

  lemma CutHasHeader(content: string, reopen: Fence, index: nat, limit: nat, total: nat)
    requires limit > 0 && content != []
    ensures HasHeader(NextCut(content, reopen, index, limit, Some(total)), index, total)
  {
  }

  ghost predicate HeadersFrom(cuts: seq<Cut>, index: nat, total: nat) {
    forall i :: 0 <= i < |cuts| ==> HasHeader(cuts[i], index + i, total)
  }

  lemma HeadersFromCons(c: Cut, rest: seq<Cut>, index: nat, next: nat, total: nat)
    requires HasHeader(c, index, total) && HeadersFrom(rest, next, total) && next == index + 1
    ensures HeadersFrom([c] + rest, index, total)
  {
    var cuts := [c] + rest;
    forall i | 0 <= i < |cuts| ensures HasHeader(cuts[i], index + i, total) {
      if i > 0 {
        assert HasHeader(rest[i - 1], next + (i - 1), total) && next + (i - 1) == index + i;
      }
    }
  }

  lemma {:induction false} AllHeaders(content: string, reopen: Fence, index: nat, limit: nat, total: nat)
    requires limit > 0
    ensures HeadersFrom(Cuts(content, reopen, index, limit, Some(total)), index, total)
    decreases |content|
  {
    if content != [] {
      var c := NextCut(content, reopen, index, limit, Some(total));
      var rest, next := content[|c.piece|..], index + 1;
      CutHasHeader(content, reopen, index, limit, total);
      AllHeaders(rest, c.exit, next, limit, total);
      HeadersFromCons(c, Cuts(rest, c.exit, next, limit, Some(total)), index, next, total);
    }
  }

  /** The text begins with `(i/n)` and a line feed: an opening bracket, two numbers that read as `i` and `n`. */
  ghost predicate Announces(text: string, i: nat, n: nat) {
    exists slash, end ::
      && 1 < slash < end - 1 < |text| - 2 && text[0] == '(' && text[slash] == '/'
      && text[end] == ')' && text[end + 1] == '\n'
      && NumberRead(text[1..slash]) == i && NumberRead(text[slash + 1..end]) == n
  }

  lemma HeaderParts(whole: string, i: string, n: string, text: string)
    requires whole == "(" + i + "/" + n + ")\n" + text
    ensures var slash := 1 + |i|; var end := slash + 1 + |n|;
      && |whole| == end + 2 + |text| && whole[0] == '(' && whole[slash] == '/' && whole[end] == ')'
      && whole[end + 1] == '\n' && whole[1..slash] == i && whole[slash + 1..end] == n
  {
  }

  lemma HeaderAnnounces(index: nat, total: nat, text: string)
    requires text != ""
    ensures Announces(Header(index, Some(total)) + text, index, total)
  {
    var i, n := Decimal(index), Decimal(total);
    DecimalReadsBack(index);
    DecimalReadsBack(total);
    HeaderParts(Header(index, Some(total)) + text, i, n, text);
    NumbersAnnounce(Header(index, Some(total)) + text, i, n, index, total);
  }

  lemma NumbersAnnounce(whole: string, i: string, n: string, index: nat, total: nat)
    requires NumberRead(i) == index && NumberRead(n) == total && i != "" && n != "" && |whole| > |i| + |n| + 4
    requires var slash := 1 + |i|; var end := slash + 1 + |n|;
      && whole[0] == '(' && whole[slash] == '/' && whole[end] == ')' && whole[end + 1] == '\n'
      && whole[1..slash] == i && whole[slash + 1..end] == n
    ensures Announces(whole, index, total)
  {
    var slash := 1 + |i|;
    var end := slash + 1 + |n|;
    assert whole[0] == '(' && whole[slash] == '/' && whole[end] == ')' && whole[end + 1] == '\n';
  }

  /** What a chunk built with a budget announces; any other is its bare text. */
  ghost predicate Numbered(c: Cut, index: nat, total: nat) {
    if c.budgeted then Announces(ChunkText(c), index, total) else ChunkText(c) == c.piece
  }

  lemma HeaderNumbers(c: Cut, index: nat, total: nat)
    requires HasHeader(c, index, total) && c.piece != ""
    ensures Numbered(c, index, total)
  {
    if c.budgeted {
      HeaderAnnounces(index, total, c.opener + c.piece + c.closer);
      assert ChunkText(c) == c.header + (c.opener + c.piece + c.closer);
    } else {
      assert "" + "" + c.piece + "" == c.piece;
    }
  }

  lemma HeadersNumberTheChunks(content: string, reopen: Fence, index: nat, limit: nat, total: nat, i: nat)
    requires limit > 0 && i < |Cuts(content, reopen, index, limit, Some(total))|
    ensures Numbered(Cuts(content, reopen, index, limit, Some(total))[i], index + i, total)
  {
    AllHeaders(content, reopen, index, limit, total);
    PieceIsNotEmpty(content, reopen, index, limit, Some(total), i);
    HeaderNumbers(Cuts(content, reopen, index, limit, Some(total))[i], index + i, total);
  }

  lemma {:induction false} PieceIsNotEmpty(
      content: string, reopen: Fence, index: nat, limit: nat, total: Option<nat>, i: nat)
    requires limit > 0 && i < |Cuts(content, reopen, index, limit, total)|
    ensures Cuts(content, reopen, index, limit, total)[i].piece != ""
    decreases i
  {
    var c := NextCut(content, reopen, index, limit, total);
    if i > 0 {
      PieceIsNotEmpty(content[|c.piece|..], c.exit, index + 1, limit, total, i - 1);
    }
  }

  const ZERO_WIDTH_SPACE: string := "\U{200b}"

  function AllCuts(content: string, limit: nat, total: Option<nat>): seq<Cut>
    requires limit > 0
  {
    Cuts(content, None, 1, limit, total)
  }

  /** The total the last pass announces. */
  function AnnouncedTotal(content: string, limit: nat): nat
    requires limit > 0
  {
    |AllCuts(content, limit, Some(|AllCuts(content, limit, None)|))|
  }

  /** `chunk_markdown_paginated`. */
  function Paginated(content: string, limit: nat, paginate: bool): seq<string> {
    if limit == 0 then []
    else if content == [] then [ZERO_WIDTH_SPACE]
    else if |AllCuts(content, limit, None)| <= 1 || !paginate then Texts(AllCuts(content, limit, None))
    else Texts(AllCuts(content, limit, Some(AnnouncedTotal(content, limit))))
  }

  method ChunkMarkdownPaginated(content: string, limit: nat, paginate: bool) returns (chunks: seq<string>)
    ensures chunks == Paginated(content, limit, paginate)
  {
    if limit == 0 {
      return [];
    }
    if content == [] {
      return [ZERO_WIDTH_SPACE];
    }
    chunks := ChunkMarkdownRaw(content, limit, None);
    if |chunks| <= 1 || !paginate {
      return;
    }
    var total := |chunks|;
    chunks := ChunkMarkdownRaw(content, limit, Some(total));
    if |chunks| != total {
      total := |chunks|;
      chunks := ChunkMarkdownRaw(content, limit, Some(total));
    }
  }

  /** Without pagination, and for a text of one chunk, the chunks are those cut without headers. */
  lemma UnpagedChunks(content: string, limit: nat, paginate: bool)
    ensures limit == 0 ==> Paginated(content, limit, paginate) == []
    ensures limit > 0 && content == "" ==> Paginated(content, limit, paginate) == ["\U{200b}"]
    ensures limit > 0 && content != "" && (!paginate || |Paginated(content, limit, false)| == 1) ==>
      Paginated(content, limit, paginate) == Texts(Cuts(content, None, 1, limit, None))
  {
  }

  /** Pages are announced: more than one chunk, and pagination is on. */
  predicate IsPaged(content: string, limit: nat) {
    limit > 0 && content != [] && |AllCuts(content, limit, None)| > 1
  }

  /**
   * Every header reads `(i/n)` with `i` the position of its chunk and `n` the announced total. Whether `n` is the true
   * number of chunks depends on its number of digits alone: it is if and only if a pass that announces any number `m`
   * of as many digits cuts the text into `n` chunks.
   */
  lemma HeadersAreTruthfulExactlyWhen(content: string, limit: nat, m: nat)
    requires IsPaged(content, limit) && |Decimal(m)| == |Decimal(AnnouncedTotal(content, limit))|
    ensures var n := AnnouncedTotal(content, limit);
      var cuts := AllCuts(content, limit, Some(n));
      && Paginated(content, limit, true) == Texts(cuts)
      && (forall i :: 0 <= i < |cuts| && cuts[i].budgeted ==> Announces(ChunkText(cuts[i]), i + 1, n))
      && (n == |cuts| <==> |AllCuts(content, limit, Some(m))| == n)
  {
    var n := AnnouncedTotal(content, limit);
    var cuts := AllCuts(content, limit, Some(n));
    CutsDependOnWidthOnly(content, None, 1, limit, n, m);
    forall i | 0 <= i < |cuts| && cuts[i].budgeted ensures Announces(ChunkText(cuts[i]), i + 1, n) {
      HeadersNumberTheChunks(content, None, 1, limit, n, i);
      assert Numbered(cuts[i], 1 + i, n);
    }
  }

  /** If the first two passes count totals of equally many digits, every header is the truth. */
  lemma EqualWidthsMakeHeadersTrue(content: string, limit: nat)
    requires IsPaged(content, limit)
    requires |Decimal(|AllCuts(content, limit, None)|)| == |Decimal(AnnouncedTotal(content, limit))|
    ensures var chunks := Paginated(content, limit, true);
      var cuts := AllCuts(content, limit, Some(|chunks|));
      && chunks == Texts(cuts)
      && forall i :: 0 <= i < |chunks| && cuts[i].budgeted ==> Announces(chunks[i], i + 1, |chunks|)
  {
    HeadersAreTruthfulExactlyWhen(content, limit, |AllCuts(content, limit, None)|);
  }

  /** A wrong total of the right width would be put right by one more pass: the count of the chunks is its own count. */
  lemma OneMorePassSettles(content: string, limit: nat)
    requires IsPaged(content, limit)
    requires var n := AnnouncedTotal(content, limit); |Decimal(|AllCuts(content, limit, Some(n))|)| == |Decimal(n)|
    ensures var counted := |Paginated(content, limit, true)|; |AllCuts(content, limit, Some(counted))| == counted
  {
    var n := AnnouncedTotal(content, limit);
    var counted := |AllCuts(content, limit, Some(n))|;
    CutsDependOnWidthOnly(content, None, 1, limit, n, counted);
    HeadersAreTruthfulExactlyWhen(content, limit, n);
  }

  // --- Two passes are not always enough ---

  function Width(n: nat): nat { if n < 10 then 1 else 1 + Width(n / 10) }

  lemma {:induction false} DecimalWidth(n: nat)
    ensures |Decimal(n)| == Width(n)
  {
    if n >= 10 {
      DecimalWidth(n / 10);
    }
  }

  /** A text without whitespace and without fences is cut at the budget, every time. */
  predicate Plain(text: string) {
    forall i :: 0 <= i < |text| ==> text[i] == 'a'
  }

  /** The characters such a text gives to a chunk; `width` is that of the announced total, or none for no header. */
  function PlainUse(index: nat, limit: nat, width: Option<nat>): (used: nat)
    requires limit > 0
    ensures used > 0
  {
    var header := match width case Some(w) => 4 + Width(index) + w case None => 0;
    var budget := Budget(limit, header);
    if budget == 0 then limit else budget
  }

  function PlainCount(length: nat, index: nat, limit: nat, width: Option<nat>): nat
    requires limit > 0
    decreases length
  {
    if length == 0 then 0 else
      var used := PlainUse(index, limit, width);
      if length <= used then 1 else 1 + PlainCount(length - used, index + 1, limit, width)
  }

  lemma {:induction false} PlainHasNoBoundary(text: string)
    requires Plain(text)
    ensures LastNewline(text).None? && LastWhitespace(text).None?
  {
    if text != [] {
      PlainHasNoBoundary(text[..|text| - 1]);
    }
  }

  lemma PlainHasNoFence(text: string)
    requires Plain(text)
    ensures Scan(text, None).None?
  {
    if text != [] {
      ScanOneLine(text, None);
      LeadingBlankUnique(text, 0);
    }
  }

  lemma PlainCut(text: string, index: nat, limit: nat, total: Option<nat>)
    requires limit > 0 && Plain(text) && text != []
    ensures var c := NextCut(text, None, index, limit, total);
      var used := PlainUse(index, limit, match total case Some(n) => Some(Width(n)) case None => None);
      c.exit.None? && |c.piece| == if used < |text| then used else |text|
  {
    var c := NextCut(text, None, index, limit, total);
    DecimalWidth(index);
    if total.Some? {
      DecimalWidth(total.value);
    }
    var budget := Budget(limit, |Header(index, total) + Opener(None)|);
    assert Plain(c.piece);
    PlainHasNoFence(c.piece);
    if budget > 0 {
      PlainHasNoBoundary(TakeChars(text, budget).0);
    }
  }

  lemma {:induction false} PlainCuts(text: string, index: nat, limit: nat, total: Option<nat>)
    requires limit > 0 && Plain(text)
    ensures |Cuts(text, None, index, limit, total)| ==
            PlainCount(|text|, index, limit, match total case Some(n) => Some(Width(n)) case None => None)
    decreases |text|
  {
    if text != [] {
      var c := NextCut(text, None, index, limit, total);
      PlainCut(text, index, limit, total);
      PlainCuts(text[|c.piece|..], index + 1, limit, total);
    }
  }

  /** Twenty-eight letters at a limit of thirteen: the passes count 4, 10 and 19, and the headers announce 10. */
  lemma TwoPassesMayNotConverge()
    ensures exists content ::
      IsPaged(content, 13) && AnnouncedTotal(content, 13) == 10 && |Paginated(content, 13, true)| == 19
  {
    var content := seq(28, _ => 'a');
    PlainCuts(content, 1, 13, None);
    PlainCuts(content, 1, 13, Some(4));
    PlainCuts(content, 1, 13, Some(10));
    CountWithoutHeaders();
    CountWithNarrowHeaders();
    CountWithWideHeaders();
    assert IsPaged(content, 13);
  }

  lemma CountWithoutHeaders()
    ensures PlainCount(28, 1, 13, None) == 4
  {
    PlainRun(28, 1, 13, None, 9, 3);
    PlainTail(4, None);
  }

  lemma SmallWidths(j: nat)
    requires 1 <= j < 20
    ensures Width(j) == if j < 10 then 1 else 2
  {
  }

  lemma CountWithNarrowHeaders()
    ensures PlainCount(28, 1, 13, Some(1)) == 10
  {
    forall j | 1 <= j < 1 + 9 ensures PlainUse(j, 13, Some(1)) == 3 {
      SmallWidths(j);
    }
    PlainRun(28, 1, 13, Some(1), 3, 9);
    PlainTail(10, Some(1));
  }

  lemma CountWithWideHeaders()
    ensures PlainCount(28, 1, 13, Some(2)) == 19
  {
    WideFirstHalf();
    WideSecondHalf();
  }

  lemma WideFirstHalf()
    ensures PlainCount(28, 1, 13, Some(2)) == 9 + PlainCount(10, 10, 13, Some(2))
  {
    forall j | 1 <= j < 1 + 9 ensures PlainUse(j, 13, Some(2)) == 2 {
      SmallWidths(j);
    }
    PlainRun(28, 1, 13, Some(2), 2, 9);
  }

  lemma WideSecondHalf()
    ensures PlainCount(10, 10, 13, Some(2)) == 10
  {
    forall j | 10 <= j < 10 + 9 ensures PlainUse(j, 13, Some(2)) == 1 {
      SmallWidths(j);
    }
    PlainRun(10, 10, 13, Some(2), 1, 9);
    PlainTail(19, Some(2));
  }

  lemma PlainTail(index: nat, width: Option<nat>)
    ensures PlainCount(1, index, 13, width) == 1
  {
  }

  lemma {:induction false} PlainRun(length: nat, index: nat, limit: nat, width: Option<nat>, used: nat, chunks: nat)
    requires limit > 0 && length > chunks * used
    requires forall j :: index <= j < index + chunks ==> PlainUse(j, limit, width) == used
    ensures PlainCount(length, index, limit, width) ==
            chunks + PlainCount(length - chunks * used, index + chunks, limit, width)
    decreases chunks
  {
    if chunks > 0 {
      assert chunks * used == used + (chunks - 1) * used;
      assert (chunks - 1) * used >= 0;
      PlainRun(length - used, index + 1, limit, width, used, chunks - 1);
    }
  }
}
