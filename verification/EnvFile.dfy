/** Environment files read, overlaid and written back: src/migrate/config_import.rs, lines 192-254 and 356-422. */
module EnvFile {
  import opened Prelude
  import opened Text

  datatype EnvLine = Raw(raw: string) | Assignment(key: string, raw: string)

  datatype Document = Document(lines: seq<EnvLine>, values: map<string, string>)

  datatype ParseError = ExpectedKeyValue(line: nat) | EmptyKey(line: nat)

  /** An entry of the ordered map of values to write. */
  datatype Entry = Entry(key: string, value: string)

  // --- Lines ---

  function StripReturn(line: string): string {
    if line != "" && line[|line| - 1] == '\r' then line[..|line| - 1] else line
  }

  /** `str::lines`: a line ends at `\n` or `\r\n`; the last needs no ending. */
  function Lines(text: string): seq<string>
    decreases |text|
  {
    var i := Find(text, '\n');
    if text == "" then []
    else if i == |text| then [text]
    else [StripReturn(text[..i])] + Lines(text[i + 1..])
  }

  function Unlines(lines: seq<string>): string {
    if lines == [] then "" else Unlines(lines[..|lines| - 1]) + (lines[|lines| - 1] + "\n")
  }

  // --- One line ---

  predicate Quoted(value: string) {
    |value| >= 2 && value[0] == value[|value| - 1] && (value[0] == '\'' || value[0] == '"')
  }

  function StripMatchingQuotes(value: string): string {
    if Quoted(value) then value[1..|value| - 1] else value
  }

  datatype Reading = Nothing | Assigns(key: string, value: string) | NoEquals | NoKey

  function ReadTrimmed(line: string): Reading {
    var i := Find(line, '=');
    if line == "" || line[0] == '#' then Nothing
    else if i == |line| then NoEquals
    else if Trim(line[..i]) == "" then NoKey
    else Assigns(Trim(line[..i]), StripMatchingQuotes(Trim(line[i + 1..])))
  }

  function Read(raw: string): Reading {
    ReadTrimmed(Trim(raw))
  }

  function Tagged(raw: string): EnvLine {
    if Read(raw).Assigns? then Assignment(Read(raw).key, raw) else Raw(raw)
  }

  function TaggedAll(raws: seq<string>): seq<EnvLine> {
    seq(|raws|, i requires 0 <= i < |raws| => Tagged(raws[i]))
  }

  /** What the lines assign; a later assignment of a key wins. */
  function Values(raws: seq<string>): map<string, string> {
    if raws == [] then map[] else Assign(Values(raws[..|raws| - 1]), Read(raws[|raws| - 1]))
  }

  function Assign(values: map<string, string>, r: Reading): map<string, string> {
    if r.Assigns? then values[r.key := r.value] else values
  }

  /** The first malformed line. */
  function Defect(raws: seq<string>): Option<ParseError> {
    if raws == [] then None
    else
      var before := Defect(raws[..|raws| - 1]);
      if before.Some? then before else DefectOf(Read(raws[|raws| - 1]), |raws|)
  }

  function DefectOf(r: Reading, line: nat): Option<ParseError> {
    match r
    case NoEquals => Some(ExpectedKeyValue(line))
    case NoKey => Some(EmptyKey(line))
    case _ => None
  }

  function Parsed(contents: string): Result<Document, ParseError> {
    var raws := Lines(contents);
    match Defect(raws)
    case Some(error) => Err(error)
    case None => Ok(Document(TaggedAll(raws), Values(raws)))
  }

  lemma DefectStaysOnce(raws: seq<string>, i: nat, next: nat)
    requires i < |raws| && next == i + 1 && Defect(raws[..i]).Some?
    ensures Defect(raws[..next]) == Defect(raws[..i])
  {
    assert raws[..next][..i] == raws[..i];
  }

  lemma {:induction false} DefectStays(raws: seq<string>, i: nat)
    requires i <= |raws| && Defect(raws[..i]).Some?
    ensures Defect(raws) == Defect(raws[..i])
    decreases |raws| - i
  {
    if i < |raws| {
      var next := i + 1;
      DefectStaysOnce(raws, i, next);
      DefectStays(raws, next);
    } else {
      assert raws[..i] == raws;
    }
  }

  lemma OneMoreTagged(raws: seq<string>, i: nat)
    requires i < |raws|
    ensures TaggedAll(raws[..i + 1]) == TaggedAll(raws[..i]) + [Tagged(raws[i])]
  {
  }

  lemma OneMoreLine(raws: seq<string>, i: nat)
    requires i < |raws| && Defect(raws[..i]).None?
    ensures Values(raws[..i + 1]) == Assign(Values(raws[..i]), Read(raws[i]))
    ensures Defect(raws[..i + 1]) == DefectOf(Read(raws[i]), i + 1)
  {
    var more := raws[..i + 1];
    assert more[..i] == raws[..i] && more[i] == raws[i] && |more| == i + 1;
  }

  method ParseEnvDocument(contents: string) returns (r: Result<Document, ParseError>)
    ensures r == Parsed(contents)
  {
    var lines: seq<EnvLine> := [];
    var values: map<string, string> := map[];
    var raws := Lines(contents);
    for index := 0 to |raws|
      invariant lines == TaggedAll(raws[..index]) && values == Values(raws[..index]) && Defect(raws[..index]).None?
    {
      OneMoreTagged(raws, index);
      OneMoreLine(raws, index);
      var raw := raws[index];
      var line := Trim(raw);
      if line == "" || line[0] == '#' {
        lines := lines + [Raw(raw)];
        continue;
      }
      var at := Find(line, '=');
      if at == |line| {
        DefectStays(raws, index + 1);
        return Err(ExpectedKeyValue(index + 1));
      }
      var key := Trim(line[..at]);
      if key == "" {
        DefectStays(raws, index + 1);
        return Err(EmptyKey(index + 1));
      }
      values := values[key := StripMatchingQuotes(Trim(line[at + 1..]))];
      lines := lines + [Assignment(key, raw)];
    }
    assert raws[..|raws|] == raws;
    r := Ok(Document(lines, values));
  }

  // --- What a line says ---

  /** One pair of equal quotes around a value is taken off, and nothing else. */
  lemma QuotesAreStripped(value: string)
    ensures forall inner: string :: value == "'" + inner + "'" || value == "\"" + inner + "\"" ==>
      StripMatchingQuotes(value) == inner
    ensures (forall inner: string :: value != "'" + inner + "'" && value != "\"" + inner + "\"") ==>
      StripMatchingQuotes(value) == value
  {
    if Quoted(value) {
      var inner := value[1..|value| - 1];
      assert value == [value[0]] + inner + [value[0]];
      assert value == (if value[0] == '\'' then "'" + inner + "'" else "\"" + inner + "\"");
    }
  }

  /**
   * A line: blank or a comment, and it says nothing; without an equals sign, or with no key before the first one, and
   * it is malformed; else an assignment of what stands behind the first equals sign, trimmed and unquoted.
   */
  lemma ReadMeaning(raw: string, before: string, key: string, value: string)
    requires Trim(raw) == before
    ensures Blank(raw) || before[0] == '#' ==> Read(raw) == Nothing
    ensures !Blank(raw) && before[0] != '#' && '=' !in before ==> Read(raw) == NoEquals
    ensures !Blank(raw) && before[0] != '#' && before == key + "=" + value && '=' !in key ==>
      Read(raw) == if Blank(key) then NoKey else Assigns(Trim(key), StripMatchingQuotes(Trim(value)))
  {
    TrimmedAway(raw);
    TrimmedAway(key);
    if before == key + "=" + value && '=' !in key {
      FindUnique(before, '=', |key|);
      assert before[..|key|] == key && before[|key| + 1..] == value;
    }
  }

  /** The first malformed line is the error, with its number from 1 and what is wrong with it. */
  lemma FirstDefectIsReturned(contents: string, i: nat)
    requires i < |Lines(contents)| && (Read(Lines(contents)[i]).NoEquals? || Read(Lines(contents)[i]).NoKey?)
    requires forall k :: 0 <= k < i ==> Read(Lines(contents)[k]).Nothing? || Read(Lines(contents)[k]).Assigns?
    ensures Parsed(contents) ==
      Err(if Read(Lines(contents)[i]).NoEquals? then ExpectedKeyValue(i + 1) else EmptyKey(i + 1))
  {
    var raws, n := Lines(contents), i + 1;
    NoDefectBefore(raws, i);
    OneMoreLine(raws, i);
    DefectStays(raws, n);
  }

  lemma {:induction false} NoDefectBefore(raws: seq<string>, i: nat)
    requires i <= |raws| && forall k :: 0 <= k < i ==> Read(raws[k]).Nothing? || Read(raws[k]).Assigns?
    ensures Defect(raws[..i]).None?
  {
    if i > 0 {
      NoDefectBefore(raws, i - 1);
      OneMoreLine(raws, i - 1);
    }
  }

  /** Without a malformed line everything is kept: each line with its key, and of each key the last value. */
  lemma ParsedMeaning(contents: string, i: nat)
    requires forall k :: 0 <= k < |Lines(contents)| ==>
      Read(Lines(contents)[k]).Nothing? || Read(Lines(contents)[k]).Assigns?
    requires i < |Lines(contents)|
    ensures Parsed(contents).Ok?
    ensures var (document, raw) := (Parsed(contents).value, Lines(contents)[i]);
      && |document.lines| == |Lines(contents)|
      && document.lines[i] == (if Read(raw).Assigns? then Assignment(Read(raw).key, raw) else Raw(raw))
      && (Read(raw).Assigns?
          && (forall k :: i < k < |Lines(contents)| && Read(Lines(contents)[k]).Assigns? ==>
                Read(Lines(contents)[k]).key != Read(raw).key)
          ==> Read(raw).key in document.values && document.values[Read(raw).key] == Read(raw).value)
  {
    var raws := Lines(contents);
    NoDefectBefore(raws, |raws|);
    assert raws[..|raws|] == raws;
    if Read(raws[i]).Assigns? && (forall k :: i < k < |raws| && Read(raws[k]).Assigns? ==>
        Read(raws[k]).key != Read(raws[i]).key) {
      LastValueStands(raws, i);
    }
  }

  function Readings(raws: seq<string>): seq<Reading> {
    seq(|raws|, i requires 0 <= i < |raws| => Read(raws[i]))
  }

  /** `Values`, of lines already read. */
  function Assigned(readings: seq<Reading>): map<string, string> {
    if readings == [] then map[] else Assign(Assigned(readings[..|readings| - 1]), readings[|readings| - 1])
  }

  lemma {:induction false} ValuesAreAssigned(raws: seq<string>)
    ensures Values(raws) == Assigned(Readings(raws))
  {
    if raws != [] {
      var init := raws[..|raws| - 1];
      ValuesAreAssigned(init);
      assert Readings(raws)[..|init|] == Readings(init);
    }
  }

  lemma {:induction false} LastOneStands(readings: seq<Reading>, i: nat)
    requires i < |readings| && readings[i].Assigns?
    requires forall k :: i < k < |readings| && readings[k].Assigns? ==> readings[k].key != readings[i].key
    ensures readings[i].key in Assigned(readings) && Assigned(readings)[readings[i].key] == readings[i].value
  {
    if i < |readings| - 1 {
      LastOneStands(readings[..|readings| - 1], i);
    }
  }

  lemma LastValueStands(raws: seq<string>, i: nat)
    requires i < |raws| && Read(raws[i]).Assigns?
    requires forall k :: i < k < |raws| && Read(raws[k]).Assigns? ==> Read(raws[k]).key != Read(raws[i]).key
    ensures Read(raws[i]).key in Values(raws) && Values(raws)[Read(raws[i]).key] == Read(raws[i]).value
  {
    var readings := Readings(raws);
    forall k | i < k < |raws| && readings[k].Assigns? ensures readings[k].key != readings[i].key {
      assert Read(raws[k]).key != Read(raws[i]).key;
    }
    ValuesAreAssigned(raws);
    LastOneStands(readings, i);
  }

  // --- Overlaying ---

  function Lookup(overlay: seq<Entry>, key: string): Option<string> {
    if overlay == [] then None
    else if overlay[|overlay| - 1].key == key then Some(overlay[|overlay| - 1].value)
    else Lookup(overlay[..|overlay| - 1], key)
  }

  function AsMap(overlay: seq<Entry>): map<string, string> {
    if overlay == [] then map[]
    else AsMap(overlay[..|overlay| - 1])[overlay[|overlay| - 1].key := overlay[|overlay| - 1].value]
  }

  function MergedValues(existing: Option<Document>, overlay: seq<Entry>): map<string, string> {
    (if existing.Some? then existing.value.values else map[]) + AsMap(overlay)
  }

  function Written(e: Entry): string {
    e.key + "=" + e.value
  }

  function OutputLine(line: EnvLine, overlay: seq<Entry>): string {
    if line.Assignment? && Lookup(overlay, line.key).Some? then
      Written(Entry(line.key, Lookup(overlay, line.key).value))
    else line.raw
  }

  function AssignedKeys(lines: seq<EnvLine>): set<string> {
    set i | 0 <= i < |lines| && lines[i].Assignment? :: lines[i].key
  }

  function KeptLines(lines: seq<EnvLine>, overlay: seq<Entry>): seq<string> {
    seq(|lines|, i requires 0 <= i < |lines| => OutputLine(lines[i], overlay))
  }

  function AddedLines(overlay: seq<Entry>, present: set<string>): seq<string> {
    if overlay == [] then []
    else
      var last := overlay[|overlay| - 1];
      AddedLines(overlay[..|overlay| - 1], present) + if last.key in present then [] else [Written(last)]
  }

  /** Every line in its place, overlaid where it assigns an overlaid key, and then the keys the file did not have. */
  function OutputLines(existing: Option<Document>, overlay: seq<Entry>): seq<string> {
    match existing
    case None => AddedLines(overlay, {})
    case Some(document) => KeptLines(document.lines, overlay) + AddedLines(overlay, AssignedKeys(document.lines))
  }

  function Rendered(existing: Option<Document>, overlay: seq<Entry>): string {
    Unlines(OutputLines(existing, overlay))
  }

  lemma UnlinesSnoc(lines: seq<string>, line: string)
    ensures Unlines(lines + [line]) == Unlines(lines) + line + "\n"
  {
    assert (lines + [line])[..|lines|] == lines;
    Regroup(Unlines(lines), line, "\n");
  }

  method RenderEnv(overlay: seq<Entry>) returns (rendered: string)
    ensures rendered == Rendered(None, overlay)
  {
    rendered := "";
    for i := 0 to |overlay|
      invariant rendered == Unlines(AddedLines(overlay[..i], {}))
    {
      assert overlay[..i + 1][..i] == overlay[..i];
      UnlinesSnoc(AddedLines(overlay[..i], {}), Written(overlay[i]));
      rendered := rendered + Written(overlay[i]) + "\n";
    }
    assert overlay[..|overlay|] == overlay;
  }

  lemma {:induction false} LookupKey(overlay: seq<Entry>, i: nat)
    requires i < |overlay|
    ensures Lookup(overlay, overlay[i].key).Some?
  {
    if i < |overlay| - 1 {
      LookupKey(overlay[..|overlay| - 1], i);
    }
  }

  /** The keys written over while the existing lines were copied. */
  function OverlaidKeys(lines: seq<EnvLine>, overlay: seq<Entry>): set<string> {
    set key | key in AssignedKeys(lines) && Lookup(overlay, key).Some?
  }

  lemma AssignedSnoc(lines: seq<EnvLine>, line: EnvLine)
    ensures AssignedKeys(lines + [line]) == AssignedKeys(lines) + if line.Assignment? then {line.key} else {}
  {
    var more := lines + [line];
    assert more[|lines|] == line;
    forall key | key in AssignedKeys(lines) ensures key in AssignedKeys(more) {
      var i :| 0 <= i < |lines| && lines[i].Assignment? && lines[i].key == key;
      assert more[i] == lines[i];
    }
  }

  lemma OneMoreKept(lines: seq<EnvLine>, overlay: seq<Entry>, i: nat)
    requires i < |lines|
    ensures Unlines(KeptLines(lines[..i + 1], overlay))
      == Unlines(KeptLines(lines[..i], overlay)) + OutputLine(lines[i], overlay) + "\n"
    ensures AssignedKeys(lines[..i + 1])
      == AssignedKeys(lines[..i]) + if lines[i].Assignment? then {lines[i].key} else {}
  {
    assert lines[..i + 1] == lines[..i] + [lines[i]];
    AssignedSnoc(lines[..i], lines[i]);
    assert KeptLines(lines[..i + 1], overlay) == KeptLines(lines[..i], overlay) + [OutputLine(lines[i], overlay)];
    UnlinesSnoc(KeptLines(lines[..i], overlay), OutputLine(lines[i], overlay));
  }

  lemma OneMoreAdded(kept: seq<string>, overlay: seq<Entry>, present: set<string>, i: nat)
    requires i < |overlay|
    ensures Unlines(kept + AddedLines(overlay[..i + 1], present))
      == Unlines(kept + AddedLines(overlay[..i], present))
         + if overlay[i].key in present then "" else Written(overlay[i]) + "\n"
  {
    assert overlay[..i + 1][..i] == overlay[..i];
    var added := AddedLines(overlay[..i], present);
    if overlay[i].key in present {
      assert added + [] == added;
    } else {
      Regroup(kept, added, [Written(overlay[i])]);
      UnlinesSnoc(kept + added, Written(overlay[i]));
      Regroup(Unlines(kept + added), Written(overlay[i]), "\n");
    }
  }

  method CopyLines(lines: seq<EnvLine>, overlay: seq<Entry>) returns (rendered: string, overlaid: set<string>)
    ensures rendered == Unlines(KeptLines(lines, overlay)) && overlaid == OverlaidKeys(lines, overlay)
  {
    rendered, overlaid := "", {};
    for i := 0 to |lines|
      invariant rendered == Unlines(KeptLines(lines[..i], overlay)) && overlaid == OverlaidKeys(lines[..i], overlay)
    {
      OneMoreKept(lines, overlay, i);
      match lines[i] {
        case Assignment(key, raw) =>
          var value := Lookup(overlay, key);
          if value.Some? {
            rendered := rendered + (key + "=" + value.value);
            overlaid := overlaid + {key};
          } else {
            rendered := rendered + raw;
          }
        case Raw(raw) => rendered := rendered + raw;
      }
      rendered := rendered + "\n";
    }
    assert lines[..|lines|] == lines;
  }

  method RenderMergedEnv(existing: Option<Document>, overlay: seq<Entry>) returns (rendered: string)
    ensures rendered == Rendered(existing, overlay)
  {
    if existing.None? {
      rendered := RenderEnv(overlay);
      return;
    }
    var lines, overlaid := existing.value.lines, {};
    rendered, overlaid := CopyLines(lines, overlay);
    ghost var kept, present := KeptLines(lines, overlay), AssignedKeys(lines);
    assert kept + AddedLines(overlay[..0], present) == kept;
    for i := 0 to |overlay|
      invariant rendered == Unlines(kept + AddedLines(overlay[..i], present))
    {
      OneMoreAdded(kept, overlay, present, i);
      LookupKey(overlay, i);
      if overlay[i].key !in overlaid {
        rendered := rendered + (Written(overlay[i]) + "\n");
      }
    }
    assert overlay[..|overlay|] == overlay;
  }

  // --- What a written line is read as ---

  predicate GoodKey(key: string) {
    key != "" && Trimmed(key) && key[0] != '#' && '=' !in key && '\n' !in key
  }

  predicate OneLine(value: string) {
    '\n' !in value && '\r' !in value
  }

  predicate Clean(value: string) {
    Trimmed(value) && !Quoted(value)
  }

  lemma TrimEndAfter(head: string, value: string)
    requires head != "" && !IsWhitespace(head[|head| - 1])
    ensures TrimEnd(head + value) == head + TrimEnd(value)
  {
    var k := KeptLength(value);
    var whole := head + value;
    forall i | |head| + k <= i < |whole| ensures IsWhitespace(whole[i]) {
      assert whole[i] == value[i - |head|];
    }
    KeptLengthUnique(whole, |head| + k);
    assert whole[..|head| + k] == head + value[..k];
  }

  lemma TrimOfWritten(e: Entry)
    requires GoodKey(e.key)
    ensures Trim(Written(e)) == e.key + "=" + TrimEnd(e.value)
  {
    LeadingBlankUnique(Written(e), 0);
    TrimEndAfter(e.key + "=", e.value);
  }

  lemma TrimAfterTrimEnd(s: string)
    ensures Trim(TrimEnd(s)) == Trim(s)
  {
    var kept, tail := TrimEnd(s), s[KeptLength(s)..];
    assert s == kept + tail;
    TrimRightPadding(kept, tail);
  }

  lemma PairIsReadAs(key: string, value: string)
    requires GoodKey(key)
    ensures ReadTrimmed(key + "=" + value) == Assigns(key, StripMatchingQuotes(Trim(value)))
  {
    var line := key + "=" + value;
    FindUnique(line, '=', |key|);
    assert line[..|key|] == key && line[|key| + 1..] == value;
    TrimOfTrimmed(key);
  }

  lemma WrittenIsReadAs(e: Entry)
    requires GoodKey(e.key)
    ensures Read(Written(e)) == Assigns(e.key, StripMatchingQuotes(Trim(e.value)))
  {
    TrimOfWritten(e);
    PairIsReadAs(e.key, TrimEnd(e.value));
    TrimAfterTrimEnd(e.value);
  }

  lemma CleanExactlyWhenReadBack(value: string)
    ensures StripMatchingQuotes(Trim(value)) == value <==> Clean(value)
  {
    TrimIsTrimmed(value);
    if Trimmed(value) {
      TrimOfTrimmed(value);
    } else {
      assert Trim(value) != value;
    }
  }

  // --- Reading back what was written ---

  function StripAll(lines: seq<string>): seq<string> {
    seq(|lines|, i requires 0 <= i < |lines| => StripReturn(lines[i]))
  }

  ghost predicate NoNewlines(lines: seq<string>) {
    forall i :: 0 <= i < |lines| ==> '\n' !in lines[i]
  }

  lemma {:induction false} UnlinesCons(line: string, rest: seq<string>)
    ensures Unlines([line] + rest) == line + "\n" + Unlines(rest)
  {
    if rest == [] {
      assert [line] + rest == [line] && [line][..0] == [];
    } else {
      var n := |rest| - 1;
      UnlinesCons(line, rest[..n]);
      assert ([line] + rest)[..|rest|] == [line] + rest[..n];
      Regroup(line + "\n", Unlines(rest[..n]), rest[n] + "\n");
    }
  }

  ghost predicate ReadBackAs(lines: seq<string>) {
    Lines(Unlines(lines)) == StripAll(lines)
  }

  lemma StripAllCons(line: string, rest: seq<string>)
    ensures StripAll([line] + rest) == [StripReturn(line)] + StripAll(rest)
  {
  }

  lemma FirstIsReadBack(line: string, rest: seq<string>)
    requires '\n' !in line && ReadBackAs(rest)
    ensures ReadBackAs([line] + rest)
  {
    UnlinesCons(line, rest);
    FirstLineIs(line, Unlines(rest));
    StripAllCons(line, rest);
  }

  lemma {:induction false} LinesOfUnlines(lines: seq<string>)
    requires NoNewlines(lines)
    ensures ReadBackAs(lines)
  {
    if lines == [] {
      assert Lines("") == [];
    } else {
      LinesOfUnlines(lines[1..]);
      FirstIsReadBack(lines[0], lines[1..]);
      HeadAndTail(lines);
    }
  }

  lemma FirstLineIs(line: string, rest: string)
    requires '\n' !in line
    ensures Lines(line + "\n" + rest) == [StripReturn(line)] + Lines(rest)
  {
    var text := line + "\n" + rest;
    FindUnique(text, '\n', |line|);
    assert text[..|line|] == line && text[|line| + 1..] == rest;
  }

  lemma {:induction false} LinesHaveNoNewline(text: string)
    ensures NoNewlines(Lines(text))
    ensures '\r' !in text ==> forall i :: 0 <= i < |Lines(text)| ==> '\r' !in Lines(text)[i]
    decreases |text|
  {
    var i := Find(text, '\n');
    if i < |text| {
      LinesHaveNoNewline(text[i + 1..]);
    }
  }

  lemma TrimIgnoresReturn(line: string)
    ensures Trim(StripReturn(line)) == Trim(line)
  {
    if line != "" && line[|line| - 1] == '\r' {
      TrimRightPadding(StripReturn(line), "\r");
      assert line == StripReturn(line) + "\r";
    }
  }

  lemma ReadIgnoresReturn(line: string)
    ensures Read(StripReturn(line)) == Read(line)
  {
    TrimIgnoresReturn(line);
  }

  lemma {:induction false} ValuesIgnoreReturns(lines: seq<string>)
    ensures Values(StripAll(lines)) == Values(lines) && (Defect(StripAll(lines)).Some? <==> Defect(lines).Some?)
  {
    if lines != [] {
      var n := |lines| - 1;
      ValuesIgnoreReturns(lines[..n]);
      ReadIgnoresReturn(lines[n]);
      assert StripAll(lines)[..n] == StripAll(lines[..n]);
    }
  }

  ghost predicate GoodOverlay(overlay: seq<Entry>) {
    && (forall i :: 0 <= i < |overlay| ==> GoodKey(overlay[i].key) && OneLine(overlay[i].value))
    && (forall i, j :: 0 <= i < j < |overlay| ==> overlay[i].key != overlay[j].key)
  }

  lemma {:induction false} LookupFinds(overlay: seq<Entry>, key: string)
    ensures match Lookup(overlay, key)
      case Some(value) => exists i :: 0 <= i < |overlay| && overlay[i] == Entry(key, value)
      case None => forall i :: 0 <= i < |overlay| ==> overlay[i].key != key
    ensures key in AsMap(overlay) <==> Lookup(overlay, key).Some?
    ensures key in AsMap(overlay) ==> AsMap(overlay)[key] == Lookup(overlay, key).value
  {
    if overlay != [] && overlay[|overlay| - 1].key != key {
      LookupFinds(overlay[..|overlay| - 1], key);
    }
  }

  lemma LookupOwn(overlay: seq<Entry>, i: nat)
    requires GoodOverlay(overlay) && i < |overlay|
    ensures Lookup(overlay, overlay[i].key) == Some(overlay[i].value)
  {
    LookupFinds(overlay, overlay[i].key);
  }

  /** The value a key is read as, after the overlay is written. */
  function Expected(overlay: seq<Entry>, before: map<string, string>, key: string): Option<string> {
    match Lookup(overlay, key)
    case Some(value) => Some(StripMatchingQuotes(Trim(value)))
    case None => if key in before then Some(before[key]) else None
  }

  function At(values: map<string, string>, key: string): Option<string> {
    if key in values then Some(values[key]) else None
  }

  function Overlaid(r: Reading, overlay: seq<Entry>): Reading {
    if r.Assigns? && Lookup(overlay, r.key).Some? then
      Assigns(r.key, StripMatchingQuotes(Trim(Lookup(overlay, r.key).value)))
    else r
  }

  lemma OutputLineIsReadAs(raw: string, overlay: seq<Entry>)
    requires GoodOverlay(overlay)
    ensures Read(OutputLine(Tagged(raw), overlay)) == Overlaid(Read(raw), overlay)
  {
    if Read(raw).Assigns? {
      LookupFinds(overlay, Read(raw).key);
      if Lookup(overlay, Read(raw).key).Some? {
        WrittenIsReadAs(Entry(Read(raw).key, Lookup(overlay, Read(raw).key).value));
      }
    }
  }

  lemma ReadOneMore(lines: seq<string>)
    requires lines != []
    ensures var (before, last) := (lines[..|lines| - 1], Read(lines[|lines| - 1]));
      && (Defect(lines).None? <==> Defect(before).None? && !last.NoEquals? && !last.NoKey?)
      && Values(lines) == Assign(Values(before), last)
  {
  }

  lemma KeptSnoc(raws: seq<string>, overlay: seq<Entry>)
    requires raws != []
    ensures var (n, kept) := (|raws| - 1, KeptLines(TaggedAll(raws), overlay));
      |kept| == n + 1 && kept[..n] == KeptLines(TaggedAll(raws[..n]), overlay)
        && kept[n] == OutputLine(Tagged(raws[n]), overlay)
  {
  }

  /** `got` gives `key` the overlaid value if `before` assigns it, else none. */
  ghost predicate IsOverlay(got: map<string, string>, before: map<string, string>, overlay: seq<Entry>, key: string) {
    At(got, key) == if key in before then Expected(overlay, before, key) else None
  }

  lemma OverlayOfOneMore(got: map<string, string>, before: map<string, string>, overlay: seq<Entry>, r: Reading,
                         key: string)
    requires IsOverlay(got, before, overlay, key)
    ensures IsOverlay(Assign(got, Overlaid(r, overlay)), Assign(before, r), overlay, key)
  {
  }

  ghost predicate KeptReadAs(kept: seq<string>, raws: seq<string>, overlay: seq<Entry>, key: string) {
    Defect(kept).None? && IsOverlay(Values(kept), Values(raws), overlay, key)
  }

  lemma KeptLineIsReadAs(kept: seq<string>, raws: seq<string>, overlay: seq<Entry>, key: string)
    requires GoodOverlay(overlay) && Defect(raws).None? && raws != [] && kept != []
    requires kept[|kept| - 1] == OutputLine(Tagged(raws[|raws| - 1]), overlay)
    requires KeptReadAs(kept[..|kept| - 1], raws[..|raws| - 1], overlay, key)
    ensures KeptReadAs(kept, raws, overlay, key)
  {
    var r := Read(raws[|raws| - 1]);
    OutputLineIsReadAs(raws[|raws| - 1], overlay);
    OverlayOfOneMore(Values(kept[..|kept| - 1]), Values(raws[..|raws| - 1]), overlay, r, key);
    ReadOneMore(kept);
    ReadOneMore(raws);
  }

  lemma {:induction false} KeptLinesAreReadAs(raws: seq<string>, overlay: seq<Entry>, key: string)
    requires GoodOverlay(overlay) && Defect(raws).None?
    ensures KeptReadAs(KeptLines(TaggedAll(raws), overlay), raws, overlay, key)
  {
    if raws != [] {
      ReadOneMore(raws);
      KeptLinesAreReadAs(raws[..|raws| - 1], overlay, key);
      KeptSnoc(raws, overlay);
      KeptLineIsReadAs(KeptLines(TaggedAll(raws), overlay), raws, overlay, key);
    }
  }

  /** The lines added for `overlay` give `key` its value there, if the file did not assign it. */
  ghost predicate AddedReadAs(kept: seq<string>, added: seq<string>, overlay: seq<Entry>, present: set<string>,
                              key: string)
  {
    && Defect(kept + added).None?
    && At(Values(kept + added), key)
       == if key !in present && Lookup(overlay, key).Some? then
         Some(StripMatchingQuotes(Trim(Lookup(overlay, key).value)))
          else At(Values(kept), key)
  }

  lemma SkippedIsReadAs(kept: seq<string>, added: seq<string>, overlay: seq<Entry>, present: set<string>, key: string)
    requires overlay != [] && overlay[|overlay| - 1].key in present
    requires AddedReadAs(kept, added, overlay[..|overlay| - 1], present, key)
    ensures AddedReadAs(kept, added, overlay, present, key)
  {
  }

  lemma WrittenOneMore(lines: seq<string>, e: Entry)
    requires GoodKey(e.key) && Defect(lines).None?
    ensures Defect(lines + [Written(e)]).None?
    ensures Values(lines + [Written(e)]) == Values(lines)[e.key := StripMatchingQuotes(Trim(e.value))]
  {
    var more := lines + [Written(e)];
    assert more[..|lines|] == lines && more[|lines|] == Written(e);
    WrittenIsReadAs(e);
    ReadOneMore(more);
  }

  lemma AddedOneIsReadAs(kept: seq<string>, added: seq<string>, overlay: seq<Entry>, present: set<string>, key: string)
    requires overlay != [] && overlay[|overlay| - 1].key !in present && GoodKey(overlay[|overlay| - 1].key)
    requires AddedReadAs(kept, added, overlay[..|overlay| - 1], present, key)
    ensures AddedReadAs(kept, added + [Written(overlay[|overlay| - 1])], overlay, present, key)
  {
    var last := overlay[|overlay| - 1];
    Regroup(kept, added, [Written(last)]);
    WrittenOneMore(kept + added, last);
  }

  lemma {:induction false} AddedLinesAreReadAs(kept: seq<string>, overlay: seq<Entry>, present: set<string>,
                                               key: string)
    requires Defect(kept).None? && forall i :: 0 <= i < |overlay| ==> GoodKey(overlay[i].key)
    ensures AddedReadAs(kept, AddedLines(overlay, present), overlay, present, key)
  {
    if overlay == [] {
      assert kept + [] == kept;
    } else {
      var rest, last := overlay[..|overlay| - 1], overlay[|overlay| - 1];
      var added := AddedLines(rest, present);
      AddedLinesAreReadAs(kept, rest, present, key);
      if last.key in present {
        SkippedIsReadAs(kept, added, overlay, present, key);
        assert added + [] == added;
      } else {
        AddedOneIsReadAs(kept, added, overlay, present, key);
      }
    }
  }

  lemma {:induction false} AssignedKeysAreTheValues(raws: seq<string>)
    ensures AssignedKeys(TaggedAll(raws)) == Values(raws).Keys
  {
    if raws != [] {
      var n := |raws| - 1;
      AssignedKeysAreTheValues(raws[..n]);
      ReadOneMore(raws);
      TaggedSnoc(raws);
      AssignedSnoc(TaggedAll(raws[..n]), Tagged(raws[n]));
    }
  }

  lemma TaggedSnoc(raws: seq<string>)
    requires raws != []
    ensures TaggedAll(raws) == TaggedAll(raws[..|raws| - 1]) + [Tagged(raws[|raws| - 1])]
  {
  }

  /** The output lines assign the overlay, as it is read, over what the file assigned. */
  lemma OutputIsReadAs(raws: seq<string>, overlay: seq<Entry>, key: string)
    requires GoodOverlay(overlay) && Defect(raws).None?
    ensures var lines := OutputLines(Some(Document(TaggedAll(raws), Values(raws))), overlay);
      Defect(lines).None? && At(Values(lines), key) == Expected(overlay, Values(raws), key)
  {
    KeptLinesAreReadAs(raws, overlay, key);
    AssignedKeysAreTheValues(raws);
    AddedLinesAreReadAs(KeptLines(TaggedAll(raws), overlay), overlay, AssignedKeys(TaggedAll(raws)), key);
  }

  lemma {:induction false} AddedHaveNoNewlines(overlay: seq<Entry>, present: set<string>)
    requires forall i :: 0 <= i < |overlay| ==> GoodKey(overlay[i].key) && OneLine(overlay[i].value)
    ensures NoNewlines(AddedLines(overlay, present))
  {
    if overlay != [] {
      AddedHaveNoNewlines(overlay[..|overlay| - 1], present);
    }
  }

  lemma OutputHasNoNewlines(raws: seq<string>, overlay: seq<Entry>, values: map<string, string>)
    requires GoodOverlay(overlay) && NoNewlines(raws)
    ensures NoNewlines(OutputLines(Some(Document(TaggedAll(raws), values)), overlay))
  {
    AddedHaveNoNewlines(overlay, AssignedKeys(TaggedAll(raws)));
    var kept := KeptLines(TaggedAll(raws), overlay);
    forall i | 0 <= i < |kept| ensures '\n' !in kept[i] {
      assert kept[i] == OutputLine(Tagged(raws[i]), overlay);
      if Read(raws[i]).Assigns? {
        LookupFinds(overlay, Read(raws[i]).key);
      }
    }
  }

  function Reparsed(contents: string, overlay: seq<Entry>): Result<Document, ParseError>
    requires Parsed(contents).Ok?
  {
    Parsed(Rendered(Some(Parsed(contents).value), overlay))
  }

  lemma RenderedIsReadAs(contents: string, overlay: seq<Entry>, key: string)
    requires Parsed(contents).Ok? && GoodOverlay(overlay)
    ensures var r := Reparsed(contents, overlay);
      r.Ok? && At(r.value.values, key) == Expected(overlay, Parsed(contents).value.values, key)
  {
    var raws := Lines(contents);
    var lines := OutputLines(Some(Parsed(contents).value), overlay);
    OutputIsReadAs(raws, overlay, key);
    LinesHaveNoNewline(contents);
    OutputHasNoNewlines(raws, overlay, Values(raws));
    LinesOfUnlines(lines);
    ValuesIgnoreReturns(lines);
  }

  lemma ExistingReadsBackExactlyWhenClean(contents: string, overlay: seq<Entry>)
    requires Parsed(contents).Ok? && GoodOverlay(overlay)
    ensures Reparsed(contents, overlay).Ok?
    ensures Reparsed(contents, overlay).value.values == MergedValues(Some(Parsed(contents).value), overlay)
      <==> forall i :: 0 <= i < |overlay| ==> Clean(overlay[i].value)
  {
    var merged := MergedValues(Some(Parsed(contents).value), overlay);
    RenderedIsReadAs(contents, overlay, "");
    var got := Reparsed(contents, overlay).value.values;
    forall key ensures At(got, key) == Expected(overlay, Parsed(contents).value.values, key) {
      RenderedIsReadAs(contents, overlay, key);
    }
    forall i | 0 <= i < |overlay|
      ensures At(got, overlay[i].key) == At(merged, overlay[i].key) <==> Clean(overlay[i].value)
    {
      LookupOwn(overlay, i);
      LookupFinds(overlay, overlay[i].key);
      CleanExactlyWhenReadBack(overlay[i].value);
    }
    if forall i :: 0 <= i < |overlay| ==> Clean(overlay[i].value) {
      forall key ensures At(got, key) == At(merged, key) {
        LookupFinds(overlay, key);
      }
      SameAtEveryKey(got, merged);
    }
  }

  /** The document of the file there was, if there was one. */
  function Existing(file: Option<string>): Option<Document>
    requires file.Some? ==> Parsed(file.value).Ok?
  {
    match file
    case None => None
    case Some(contents) => Some(Parsed(contents).value)
  }

  /** A file that was not there is written as an empty one would be. */
  lemma AbsentIsEmpty(overlay: seq<Entry>)
    ensures Parsed("").Ok? && Rendered(None, overlay) == Rendered(Some(Parsed("").value), overlay)
    ensures MergedValues(None, overlay) == MergedValues(Some(Parsed("").value), overlay)
  {
    assert Lines("") == [] && TaggedAll([]) == [] && KeptLines([], overlay) == [] && AssignedKeys([]) == {};
    assert [] + AddedLines(overlay, {}) == AddedLines(overlay, {});
  }

  /**
   * Reading the written file, whether there was one before or not, gives exactly the merged values when, and only when,
   * every overlay value is clean.
   */
  lemma ReadsBackExactlyWhenClean(file: Option<string>, overlay: seq<Entry>)
    requires (file.Some? ==> Parsed(file.value).Ok?) && GoodOverlay(overlay)
    ensures var written := Parsed(Rendered(Existing(file), overlay));
      written.Ok?
      && (written.value.values == MergedValues(Existing(file), overlay)
          <==> forall i :: 0 <= i < |overlay| ==> Clean(overlay[i].value))
  {
    AbsentIsEmpty(overlay);
    ExistingReadsBackExactlyWhenClean(file.GetOr(""), overlay);
  }

  lemma SameAtEveryKey(a: map<string, string>, b: map<string, string>)
    requires forall key :: At(a, key) == At(b, key)
    ensures a == b
  {
    forall key ensures key in a <==> key in b {
      assert At(a, key) == At(b, key);
    }
    forall key | key in a ensures a[key] == b[key] {
      assert At(a, key) == At(b, key);
    }
  }

  // --- Writing again ---

  predicate EndsInReturn(line: string) {
    line != "" && line[|line| - 1] == '\r'
  }

  predicate IsOverlaid(raw: string, overlay: seq<Entry>) {
    Read(raw).Assigns? && Lookup(overlay, Read(raw).key).Some?
  }

  lemma WrittenIsStable(overlay: seq<Entry>, e: Entry)
    requires GoodKey(e.key) && OneLine(e.value) && Lookup(overlay, e.key) == Some(e.value)
    ensures !EndsInReturn(Written(e)) && OutputLine(Tagged(Written(e)), overlay) == Written(e)
  {
    WrittenIsReadAs(e);
    assert e.value != "" ==> Written(e)[|Written(e)| - 1] in e.value;
  }

  lemma OverlaidLineIsStable(raw: string, overlay: seq<Entry>)
    requires GoodOverlay(overlay) && IsOverlaid(raw, overlay)
    ensures var line := OutputLine(Tagged(raw), overlay);
      !EndsInReturn(line) && OutputLine(Tagged(line), overlay) == line
  {
    LookupFinds(overlay, Read(raw).key);
    WrittenIsStable(overlay, Entry(Read(raw).key, Lookup(overlay, Read(raw).key).value));
  }

  lemma PlainLineIsStable(raw: string, overlay: seq<Entry>)
    requires !IsOverlaid(raw, overlay)
    ensures OutputLine(Tagged(raw), overlay) == raw && OutputLine(Tagged(StripReturn(raw)), overlay) == StripReturn(raw)
  {
    ReadIgnoresReturn(raw);
  }

  /** A line written once is written the same again, but for a trailing carriage return. */
  lemma KeptLineIsStable(raw: string, overlay: seq<Entry>)
    requires GoodOverlay(overlay)
    ensures var line := OutputLine(Tagged(raw), overlay);
      && OutputLine(Tagged(StripReturn(line)), overlay) == StripReturn(line)
      && (EndsInReturn(line) <==> !IsOverlaid(raw, overlay) && EndsInReturn(raw))
  {
    if IsOverlaid(raw, overlay) {
      OverlaidLineIsStable(raw, overlay);
    } else {
      PlainLineIsStable(raw, overlay);
    }
  }

  lemma {:induction false} AddedLinesAreWritten(overlay: seq<Entry>, present: set<string>, line: string)
    requires line in AddedLines(overlay, present)
    ensures exists j :: 0 <= j < |overlay| && line == Written(overlay[j])
  {
    var n := |overlay| - 1;
    if line in AddedLines(overlay[..n], present) {
      AddedLinesAreWritten(overlay[..n], present, line);
      var j :| 0 <= j < n && line == Written(overlay[..n][j]);
      assert overlay[..n][j] == overlay[j];
    } else {
      assert line == Written(overlay[n]);
    }
  }

  lemma {:induction false} NothingLeftToAdd(overlay: seq<Entry>, present: set<string>)
    requires forall i :: 0 <= i < |overlay| ==> overlay[i].key in present
    ensures AddedLines(overlay, present) == []
  {
    if overlay != [] {
      NothingLeftToAdd(overlay[..|overlay| - 1], present);
    }
  }

  lemma ReparsedLines(contents: string, overlay: seq<Entry>)
    requires Parsed(contents).Ok? && GoodOverlay(overlay)
    ensures var lines := OutputLines(Some(Parsed(contents).value), overlay);
      Reparsed(contents, overlay) == Ok(Document(TaggedAll(StripAll(lines)), Values(StripAll(lines))))
  {
    var lines := OutputLines(Some(Parsed(contents).value), overlay);
    LinesHaveNoNewline(contents);
    OutputHasNoNewlines(Lines(contents), overlay, Values(Lines(contents)));
    LinesOfUnlines(lines);
    RenderedIsReadAs(contents, overlay, "");
  }

  lemma OverlayIsThere(contents: string, overlay: seq<Entry>)
    requires Parsed(contents).Ok? && GoodOverlay(overlay) && Reparsed(contents, overlay).Ok?
    ensures AddedLines(overlay, AssignedKeys(Reparsed(contents, overlay).value.lines)) == []
  {
    var lines := OutputLines(Some(Parsed(contents).value), overlay);
    ReparsedLines(contents, overlay);
    AssignedKeysAreTheValues(StripAll(lines));
    forall i | 0 <= i < |overlay| ensures overlay[i].key in AssignedKeys(Reparsed(contents, overlay).value.lines) {
      RenderedIsReadAs(contents, overlay, overlay[i].key);
      LookupOwn(overlay, i);
    }
    NothingLeftToAdd(overlay, AssignedKeys(Reparsed(contents, overlay).value.lines));
  }

  /** The second rendering, line by line: the first one without its carriage returns. */
  lemma SecondOutput(contents: string, overlay: seq<Entry>)
    requires Parsed(contents).Ok? && GoodOverlay(overlay)
    ensures Reparsed(contents, overlay).Ok?
    ensures var lines := OutputLines(Some(Parsed(contents).value), overlay);
      OutputLines(Some(Reparsed(contents, overlay).value), overlay) == StripAll(lines)
  {
    var lines := OutputLines(Some(Parsed(contents).value), overlay);
    ReparsedLines(contents, overlay);
    OverlayIsThere(contents, overlay);
    var kept := KeptLines(TaggedAll(StripAll(lines)), overlay);
    forall i | 0 <= i < |lines| ensures kept[i] == StripReturn(lines[i]) {
      OutputLineIsStable(Lines(contents), overlay, Values(Lines(contents)), i);
    }
    assert kept == StripAll(lines) && kept + [] == kept;
  }

  lemma AddedLineIsStable(overlay: seq<Entry>, present: set<string>, line: string)
    requires GoodOverlay(overlay) && line in AddedLines(overlay, present)
    ensures OutputLine(Tagged(StripReturn(line)), overlay) == StripReturn(line) && !EndsInReturn(line)
  {
    AddedLinesAreWritten(overlay, present, line);
    var j :| 0 <= j < |overlay| && line == Written(overlay[j]);
    LookupOwn(overlay, j);
    WrittenIsStable(overlay, overlay[j]);
  }

  lemma OutputLineAt(raws: seq<string>, overlay: seq<Entry>, values: map<string, string>, i: nat)
    requires i < |OutputLines(Some(Document(TaggedAll(raws), values)), overlay)|
    ensures var (line, added) :=
        (OutputLines(Some(Document(TaggedAll(raws), values)), overlay)[i],
          AddedLines(overlay, AssignedKeys(TaggedAll(raws))));
      if i < |raws| then line == OutputLine(Tagged(raws[i]), overlay) else line in added
  {
  }

  lemma OutputLineIsStable(raws: seq<string>, overlay: seq<Entry>, values: map<string, string>, i: nat)
    requires GoodOverlay(overlay) && i < |OutputLines(Some(Document(TaggedAll(raws), values)), overlay)|
    ensures var line := OutputLines(Some(Document(TaggedAll(raws), values)), overlay)[i];
      && OutputLine(Tagged(StripReturn(line)), overlay) == StripReturn(line)
      && (EndsInReturn(line) <==> i < |raws| && !IsOverlaid(raws[i], overlay) && EndsInReturn(raws[i]))
  {
    OutputLineAt(raws, overlay, values, i);
    var line := OutputLines(Some(Document(TaggedAll(raws), values)), overlay)[i];
    if i < |raws| {
      KeptLineIsStable(raws[i], overlay);
    } else {
      AddedLineIsStable(overlay, AssignedKeys(TaggedAll(raws)), line);
    }
  }

  lemma {:induction false} StrippingShortens(lines: seq<string>)
    ensures |Unlines(StripAll(lines))| <= |Unlines(lines)|
    ensures (exists i :: 0 <= i < |lines| && EndsInReturn(lines[i])) ==> |Unlines(StripAll(lines))| < |Unlines(lines)|
  {
    if lines != [] {
      var n := |lines| - 1;
      StrippingShortens(lines[..n]);
      assert StripAll(lines)[..n] == StripAll(lines[..n]);
      if i :| 0 <= i < |lines| && EndsInReturn(lines[i]) {
        assert i < n ==> EndsInReturn(lines[..n][i]);
      }
    }
  }

  lemma StrippingIsNothingExactlyWhen(lines: seq<string>)
    ensures Unlines(StripAll(lines)) == Unlines(lines) <==> forall i :: 0 <= i < |lines| ==> !EndsInReturn(lines[i])
  {
    StrippingShortens(lines);
    if forall i :: 0 <= i < |lines| ==> !EndsInReturn(lines[i]) {
      assert StripAll(lines) == lines;
    }
  }

  lemma ReturnsAreKeptOnes(raws: seq<string>, overlay: seq<Entry>, values: map<string, string>)
    requires GoodOverlay(overlay)
    ensures var lines := OutputLines(Some(Document(TaggedAll(raws), values)), overlay);
      (forall i :: 0 <= i < |lines| ==> !EndsInReturn(lines[i]))
      <==> forall i :: 0 <= i < |raws| && !IsOverlaid(raws[i], overlay) ==> !EndsInReturn(raws[i])
  {
    var lines := OutputLines(Some(Document(TaggedAll(raws), values)), overlay);
    assert |lines| >= |raws|;
    forall i | 0 <= i < |lines|
      ensures EndsInReturn(lines[i]) <==> i < |raws| && !IsOverlaid(raws[i], overlay) && EndsInReturn(raws[i])
    {
      OutputLineIsStable(raws, overlay, values, i);
    }
    forall i | 0 <= i < |raws|
      ensures EndsInReturn(lines[i]) <==> !IsOverlaid(raws[i], overlay) && EndsInReturn(raws[i])
    {
    }
  }

  /** Rendering over its own output changes nothing, exactly when no line kept as it was ends in a carriage return. */
  lemma RenderingTwiceSettlesExactlyWhen(contents: string, overlay: seq<Entry>)
    requires Parsed(contents).Ok? && GoodOverlay(overlay)
    ensures Reparsed(contents, overlay).Ok?
    ensures Rendered(Some(Reparsed(contents, overlay).value), overlay)
      == Rendered(Some(Parsed(contents).value), overlay)
      <==> forall i :: 0 <= i < |Lines(contents)| && !IsOverlaid(Lines(contents)[i], overlay) ==>
        !EndsInReturn(Lines(contents)[i])
  {
    SecondOutput(contents, overlay);
    assert Parsed(contents).value == Document(TaggedAll(Lines(contents)), Values(Lines(contents)));
    StrippingIsNothingExactlyWhen(OutputLines(Some(Parsed(contents).value), overlay));
    ReturnsAreKeptOnes(Lines(contents), overlay, Values(Lines(contents)));
  }

  /** So a file without carriage returns settles at once. */
  lemma RenderingSettles(contents: string, overlay: seq<Entry>)
    requires Parsed(contents).Ok? && GoodOverlay(overlay) && '\r' !in contents
    ensures Reparsed(contents, overlay).Ok?
    ensures Rendered(Some(Reparsed(contents, overlay).value), overlay)
      == Rendered(Some(Parsed(contents).value), overlay)
  {
    RenderingTwiceSettlesExactlyWhen(contents, overlay);
    LinesHaveNoNewline(contents);
  }

  /** And a file that was not there before is a fixed point from the start. */
  lemma NewFileSettles(overlay: seq<Entry>)
    requires GoodOverlay(overlay)
    ensures Parsed(Rendered(None, overlay)).Ok?
    ensures Rendered(Some(Parsed(Rendered(None, overlay)).value), overlay) == Rendered(None, overlay)
  {
    AbsentIsEmpty(overlay);
    RenderingSettles("", overlay);
  }

  /** Every line that assigns no overlaid key is in the written file, at its own place. */
  lemma OtherLinesSurvive(contents: string, overlay: seq<Entry>, i: nat)
    requires Parsed(contents).Ok? && GoodOverlay(overlay) && i < |Lines(contents)|
    requires !IsOverlaid(Lines(contents)[i], overlay)
    ensures var written := Lines(Rendered(Some(Parsed(contents).value), overlay));
      i < |written| && written[i] == StripReturn(Lines(contents)[i])
  {
    var raws := Lines(contents);
    var lines := OutputLines(Some(Parsed(contents).value), overlay);
    OutputLineAt(raws, overlay, Values(raws), i);
    PlainLineIsStable(raws[i], overlay);
    WrittenLines(contents, overlay);
    assert StripAll(lines)[i] == StripReturn(lines[i]);
  }

  lemma WrittenLines(contents: string, overlay: seq<Entry>)
    requires Parsed(contents).Ok? && GoodOverlay(overlay)
    ensures Lines(Rendered(Some(Parsed(contents).value), overlay))
      == StripAll(OutputLines(Some(Parsed(contents).value), overlay))
  {
    LinesHaveNoNewline(contents);
    OutputHasNoNewlines(Lines(contents), overlay, Values(Lines(contents)));
    LinesOfUnlines(OutputLines(Some(Parsed(contents).value), overlay));
  }

  lemma FirstLineIsKept(head: string, rest: string, end: string)
    requires '\n' !in head && !EndsInReturn(head) && Unlines(Lines(rest)) == rest + end
    ensures Unlines(Lines(head + "\n" + rest)) == head + "\n" + rest + end
  {
    FirstLineIs(head, rest);
    UnlinesCons(head, Lines(rest));
    Regroup(head + "\n", rest, end);
  }

  /** The newline `text` lacks at its end. */
  function MissingEnd(text: string): string {
    if text == "" || text[|text| - 1] == '\n' then "" else "\n"
  }

  lemma {:induction false} UntouchedFileIsKept(contents: string)
    requires '\r' !in contents
    ensures Unlines(Lines(contents)) == contents + MissingEnd(contents)
    decreases |contents|
  {
    var i := Find(contents, '\n');
    if contents == "" {
    } else if i < |contents| {
      var rest := contents[i + 1..];
      UntouchedFileIsKept(rest);
      SplitAt(contents, i, '\n');
      FirstLineIsKept(contents[..i], rest, MissingEnd(rest));
      assert MissingEnd(rest) == MissingEnd(contents);
    } else {
      assert Lines(contents) == [contents] && [contents][..0] == [];
    }
  }

  lemma NothingOverlaid(raws: seq<string>)
    ensures KeptLines(TaggedAll(raws), []) == raws
  {
    forall i | 0 <= i < |raws| ensures OutputLine(Tagged(raws[i]), []) == raws[i] {
    }
  }

  /** With nothing to overlay, a file without carriage returns is written as it was, but for a missing last newline. */
  lemma NothingToOverlay(contents: string)
    requires Parsed(contents).Ok? && '\r' !in contents
    ensures Rendered(Some(Parsed(contents).value), []) == contents + MissingEnd(contents)
  {
    UntouchedFileIsKept(contents);
    NothingOverlaid(Lines(contents));
    assert Lines(contents) + [] == Lines(contents);
  }
}
