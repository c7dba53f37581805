/**
 * Reassembly of a provider's streamed reply: src/agent/llm.rs, lines 215-286, 494-650. Packets are sequences of
 * characters and `parse` stands for the JSON parser.
 */
module Stream {
  import opened Prelude
  import opened Text
  import opened Json

  datatype Provider = OpenAi | Anthropic | DeepSeek | Ollama

  datatype Pending = Pending(id: string, name: string, arguments: string, value: Option<Json>)

  datatype ToolCall = ToolCall(id: string, name: string, arguments: Json)

  datatype Error = Transport(message: string) | InvalidArguments(text: string)

  datatype Chunk = Chunk(sequence: nat, content: string, isFinal: bool)

  datatype Packet = Bytes(text: string) | Broken(message: string)

  type Parser = string -> Option<Json>

  // --- One line ---

  const DATA: string := "data:"

  function DataOf(line: string): string {
    if DATA <= line then Trim(line[|DATA|..]) else Trim(line)
  }

  function StreamValue(parse: Parser, line: string): Option<Json> {
    var data := DataOf(line);
    if data == "" || data == "[DONE]" || data[0] == ':' then None else parse(data)
  }

  /** One token of a JSON pointer that is the number 0. */
  function First(v: Option<Json>): Option<Json> {
    match v
    case Some(Arr(items)) => if items == [] then None else Some(items[0])
    case _ => GetPath(v, "0")
  }

  function LineContents(parse: Parser, provider: Provider, line: string): seq<string> {
    var value := StreamValue(parse, line);
    var text := match provider
      case Anthropic => AsStr(GetPath(GetPath(value, "delta"), "text"))
      case Ollama => AsStr(GetPath(GetPath(value, "message"), "content"))
      case _ => AsStr(GetPath(GetPath(First(GetPath(value, "choices")), "delta"), "content"));
    if text.Some? then [text.value] else []
  }

  /** What one element of the stream says about one tool call. */
  datatype Fragment =
    | Begin(id: string, name: string, value: Option<Json>)
    | More(text: string)
    | Delta(newId: Option<string>, nameText: Option<string>, argumentText: Option<string>)

  datatype Indexed = Indexed(index: nat, fragment: Fragment)

  function Apply(p: Pending, f: Fragment): Pending {
    match f
    case Begin(id, name, value) => p.(id := id, name := name, value := value)
    case More(text) => p.(arguments := p.arguments + text)
    case Delta(id, name, arguments) =>
      p.(id := id.GetOr(p.id), name := p.name + name.GetOr(""), arguments := p.arguments + arguments.GetOr(""))
  }

  function OpenAiFragment(item: Json, position: nat): Indexed {
    var function_ := Get(item, "function");
    Indexed(AsU64(Get(item, "index")).GetOr(position),
            Delta(AsStr(Get(item, "id")), AsStr(GetPath(function_, "name")), AsStr(GetPath(function_, "arguments"))))
  }

  function OllamaFragment(item: Json, position: nat): Indexed {
    var function_ := Get(item, "function").GetOr(item);
    Indexed(position,
      Begin(AsStr(Get(item, "id")).GetOr(""), AsStr(Get(function_, "name")).GetOr(""), Get(function_, "arguments")))
  }

  function AnthropicBegin(value: Json): Option<Fragment> {
    var block := Get(value, "content_block");
    if
      && AsStr(Get(value, "type")) == Some("content_block_start")
      && AsStr(GetPath(block, "type")) == Some("tool_use")
    then
      Some(Begin(AsStr(GetPath(block, "id")).GetOr(""), AsStr(GetPath(block, "name")).GetOr(""),
        GetPath(block, "input")))
    else None
  }

  function AnthropicFragments(value: Json): seq<Indexed> {
    var index := AsU64(Get(value, "index")).GetOr(0);
    var begin := AnthropicBegin(value);
    var partial := AsStr(GetPath(Get(value, "delta"), "partial_json"));
    (if begin.Some? then [Indexed(index, begin.value)] else [])
    + if partial.Some? then [Indexed(index, More(partial.value))] else []
  }

  function OllamaFragments(items: seq<Json>): seq<Indexed> {
    seq(|items|, i requires 0 <= i < |items| => OllamaFragment(items[i], i))
  }

  function OpenAiFragments(items: seq<Json>): seq<Indexed> {
    seq(|items|, i requires 0 <= i < |items| => OpenAiFragment(items[i], i))
  }

  function LineFragments(parse: Parser, provider: Provider, line: string): seq<Indexed> {
    var value := StreamValue(parse, line);
    if value.None? then []
    else if provider.Anthropic? then AnthropicFragments(value.value)
    else if provider.Ollama? then
      var items := AsArr(GetPath(GetPath(value, "message"), "tool_calls")).GetOr([]);
      OllamaFragments(items)
    else
      var items := AsArr(GetPath(GetPath(First(GetPath(value, "choices")), "delta"), "tool_calls")).GetOr([]);
      OpenAiFragments(items)
  }

  // --- What the lines of each provider say ---

  /** A data line is read without its prefix and the blanks around it; an end mark and a comment say nothing. */
  lemma DataLineIsRead(parse: Parser, t: string, before: string, behind: string)
    requires Trimmed(t) && t != "" && Blank(before) && Blank(behind)
    ensures StreamValue(parse, "data:" + before + t + behind) ==
      if t == "[DONE]" || t[0] == ':' then None else parse(t)
  {
    var line := "data:" + before + t + behind;
    assert line[|DATA|..] == before + t + behind;
    PaddedTrim(before, t, behind);
  }

  lemma PaddedTrim(before: string, t: string, behind: string)
    requires Trimmed(t) && t != "" && Blank(before) && Blank(behind)
    ensures Trim(before + t + behind) == t
  {
    var s := before + t + behind;
    LeadingBlankUnique(s, |before|);
    assert TrimStart(s) == t + behind;
    KeptLengthUnique(t + behind, |t|);
  }

  function Field(fields: map<string, Json>, key: string): Json {
    if key in fields then fields[key] else Null
  }

  function TextsOf(v: Json): seq<string> {
    if v.Str? then [v.s] else []
  }

  function TextOf(v: Json): Option<string> {
    if v.Str? then Some(v.s) else None
  }

  lemma NoValueSaysNothing(parse: Parser, provider: Provider, line: string)
    requires StreamValue(parse, line).None?
    ensures LineContents(parse, provider, line) == [] && LineFragments(parse, provider, line) == []
  {
  }

  /** The element 0 of a JSON value, as a pointer finds it: the first of a list, or the field `0` of an object. */
  predicate IsFirst(v: Json, first: Json) {
    match v
    case Arr(items) => items != [] && items[0] == first
    case Obj(fields) => "0" in fields && fields["0"] == first
    case _ => false
  }

  /** OpenAI and DeepSeek: the `delta` of the first choice, with `content` and the deltas of `tool_calls`. */
  lemma OpenAiLine(
      parse: Parser, provider: Provider, line: string, fields: map<string, Json>, choice: map<string, Json>,
      delta: map<string, Json>)
    requires provider.OpenAi? || provider.DeepSeek?
    requires StreamValue(parse, line) == Some(Obj(fields)) && IsFirst(Field(fields, "choices"), Obj(choice))
    requires Field(choice, "delta") == Obj(delta)
    ensures LineContents(parse, provider, line) == TextsOf(Field(delta, "content"))
    ensures var fragments := LineFragments(parse, provider, line);
      if Field(delta, "tool_calls").Arr? then
        var calls := Field(delta, "tool_calls").items;
        |fragments| == |calls| && forall i :: 0 <= i < |calls| ==> fragments[i] == OpenAiFragment(calls[i], i)
      else fragments == []
  {
  }

  /** One tool call of such a delta: at its index, or its position without one, whatever of it there is. */
  lemma OpenAiToolCall(call: map<string, Json>, named: map<string, Json>, position: nat)
    requires Field(call, "function") == Obj(named)
    ensures var index := Field(call, "index");
      OpenAiFragment(Obj(call), position) ==
        Indexed(if index.Int? && 0 <= index.n < U64_LIMIT then index.n else position,
                Delta(TextOf(Field(call, "id")), TextOf(Field(named, "name")), TextOf(Field(named, "arguments"))))
  {
  }

  /** Ollama: the `message`, with `content` and whole calls in `tool_calls`, each at its position. */
  lemma OllamaLine(
      parse: Parser, line: string, fields: map<string, Json>, message: map<string, Json>, i: nat)
    requires StreamValue(parse, line) == Some(Obj(fields)) && Field(fields, "message") == Obj(message)
    ensures LineContents(parse, Ollama, line) == TextsOf(Field(message, "content"))
    ensures var (fragments, calls) := (LineFragments(parse, Ollama, line), Field(message, "tool_calls"));
      && |fragments| == (if calls.Arr? then |calls.items| else 0)
      && (i < |fragments| && calls.items[i].Obj? ==>
            var call := calls.items[i].fields;
            var named := if "function" in call then call["function"] else calls.items[i];
            named.Obj? ==>
              fragments[i] == Indexed(i, Begin(TextOf(Field(call, "id")).GetOr(""),
                                               TextOf(Field(named.fields, "name")).GetOr(""),
                                               Get(named, "arguments"))))
  {
  }

  lemma AnthropicStart(fields: map<string, Json>, block: map<string, Json>)
    requires "content_block" in fields ==> fields["content_block"] == Obj(block)
    ensures AnthropicBegin(Obj(fields)) ==
      if "content_block" in fields && Field(fields, "type") == Str("content_block_start")
         && Field(block, "type") == Str("tool_use")
      then Some(Begin(TextOf(Field(block, "id")).GetOr(""), TextOf(Field(block, "name")).GetOr(""),
                      Get(Obj(block), "input")))
      else None
  {
  }

  /** Anthropic: a content block that starts a tool use, and the `delta`, with `text` or more of the arguments. */
  lemma AnthropicLine(
      parse: Parser, line: string, fields: map<string, Json>, block: map<string, Json>, delta: map<string, Json>)
    requires StreamValue(parse, line) == Some(Obj(fields))
    requires "content_block" in fields ==> fields["content_block"] == Obj(block)
    requires "delta" in fields ==> fields["delta"] == Obj(delta)
    ensures LineContents(parse, Anthropic, line) == if "delta" in fields then TextsOf(Field(delta, "text")) else []
    ensures var at, begin := Field(fields, "index"), AnthropicBegin(Obj(fields));
      var index := if at.Int? && 0 <= at.n < U64_LIMIT then at.n else 0;
      var more := if "delta" in fields then Field(delta, "partial_json") else Null;
      LineFragments(parse, Anthropic, line) ==
        (if begin.Some? then [Indexed(index, begin.value)] else [])
        + if more.Str? then [Indexed(index, More(more.s))] else []
  {
    assert LineFragments(parse, Anthropic, line) == AnthropicFragments(Obj(fields));
  }

  // --- The calls being assembled: an ordered map ---

  datatype Entry = Entry(index: nat, call: Pending)

  const FRESH: Pending := Pending("", "", "", None)

  /** `entry(index).or_default()` and then the fragment. */
  function Upsert(calls: seq<Entry>, index: nat, f: Fragment): seq<Entry> {
    if calls == [] || index < calls[0].index then [Entry(index, Apply(FRESH, f))] + calls
    else if calls[0].index == index then [Entry(index, Apply(calls[0].call, f))] + calls[1..]
    else [calls[0]] + Upsert(calls[1..], index, f)
  }

  function ApplyAll(calls: seq<Entry>, fragments: seq<Indexed>): seq<Entry> {
    if fragments == [] then calls
    else
      var last := fragments[|fragments| - 1];
      Upsert(ApplyAll(calls, fragments[..|fragments| - 1]), last.index, last.fragment)
  }

  lemma {:induction false} ApplyAllAppend(calls: seq<Entry>, a: seq<Indexed>, b: seq<Indexed>)
    ensures ApplyAll(calls, a + b) == ApplyAll(ApplyAll(calls, a), b)
  {
    if b == [] {
      assert a + b == a;
    } else {
      ApplyAllAppend(calls, a, b[..|b| - 1]);
      assert (a + b)[..|a + b| - 1] == a + b[..|b| - 1];
    }
  }

  lemma ApplyAllSnoc(calls: seq<Entry>, a: seq<Indexed>, x: Indexed)
    ensures ApplyAll(calls, a + [x]) == Upsert(ApplyAll(calls, a), x.index, x.fragment)
  {
    assert (a + [x])[..|a|] == a;
  }

  method AccumulateAnthropic(value: Json, calls: seq<Entry>) returns (r: seq<Entry>)
    ensures r == ApplyAll(calls, AnthropicFragments(value))
  {
    r := calls;
    var index := AsU64(Get(value, "index")).GetOr(0);
    var begin := AnthropicBegin(value);
    ghost var first := if begin.Some? then [Indexed(index, begin.value)] else [];
    if begin.Some? {
      r := Upsert(r, index, begin.value);
      ApplyAllSnoc(calls, [], Indexed(index, begin.value));
      assert [] + first == first;
    }
    var partial := AsStr(GetPath(Get(value, "delta"), "partial_json"));
    if partial.Some? {
      r := Upsert(r, index, More(partial.value));
      ApplyAllSnoc(calls, first, Indexed(index, More(partial.value)));
    } else {
      assert first + [] == first;
    }
  }

  method AccumulateOllama(items: seq<Json>, calls: seq<Entry>) returns (r: seq<Entry>)
    ensures r == ApplyAll(calls, OllamaFragments(items))
  {
    r := calls;
    ghost var all := OllamaFragments(items);
    for i := 0 to |items|
      invariant r == ApplyAll(calls, all[..i])
    {
      assert all[..i + 1] == all[..i] + [all[i]];
      ApplyAllSnoc(calls, all[..i], all[i]);
      var f := OllamaFragment(items[i], i);
      r := Upsert(r, f.index, f.fragment);
    }
    assert all[..|items|] == all;
  }

  method AccumulateOpenAi(items: seq<Json>, calls: seq<Entry>) returns (r: seq<Entry>)
    ensures r == ApplyAll(calls, OpenAiFragments(items))
  {
    r := calls;
    ghost var all := OpenAiFragments(items);
    for i := 0 to |items|
      invariant r == ApplyAll(calls, all[..i])
    {
      assert all[..i + 1] == all[..i] + [all[i]];
      ApplyAllSnoc(calls, all[..i], all[i]);
      var f := OpenAiFragment(items[i], i);
      r := Upsert(r, f.index, f.fragment);
    }
    assert all[..|items|] == all;
  }

  method AccumulateStreamToolCalls(parse: Parser, provider: Provider, line: string, calls: seq<Entry>)
    returns (r: seq<Entry>)
    ensures r == ApplyAll(calls, LineFragments(parse, provider, line))
  {
    r := calls;
    var value := StreamValue(parse, line);
    if value.None? {
      return;
    }
    match provider {
      case Anthropic => r := AccumulateAnthropic(value.value, calls);
      case Ollama =>
        var items := AsArr(GetPath(GetPath(value, "message"), "tool_calls"));
        if items.Some? {
          r := AccumulateOllama(items.value, calls);
        }
      case _ =>
        var items := AsArr(GetPath(GetPath(First(GetPath(value, "choices")), "delta"), "tool_calls"));
        if items.Some? {
          r := AccumulateOpenAi(items.value, calls);
        }
    }
  }

  function Lookup(calls: seq<Entry>, index: nat): Option<Pending> {
    if calls == [] then None
    else if calls[0].index == index then Some(calls[0].call)
    else Lookup(calls[1..], index)
  }

  ghost predicate Ordered(calls: seq<Entry>) {
    forall i, j :: 0 <= i < j < |calls| ==> calls[i].index < calls[j].index
  }

  lemma {:induction false} UpsertKeepsOrder(calls: seq<Entry>, index: nat, f: Fragment)
    requires Ordered(calls)
    ensures Ordered(Upsert(calls, index, f))
    ensures forall e :: e in Upsert(calls, index, f) ==> e.index == index || e in calls
  {
    if calls != [] && index > calls[0].index {
      UpsertKeepsOrder(calls[1..], index, f);
      var tail := Upsert(calls[1..], index, f);
      forall j | 0 <= j < |tail| ensures calls[0].index < tail[j].index {
        assert tail[j] in tail;
      }
    }
  }

  lemma {:induction false} UpsertMeaning(calls: seq<Entry>, index: nat, f: Fragment, other: nat)
    requires Ordered(calls)
    ensures Lookup(Upsert(calls, index, f), index) == Some(Apply(Lookup(calls, index).GetOr(FRESH), f))
    ensures other != index ==> Lookup(Upsert(calls, index, f), other) == Lookup(calls, other)
  {
    if calls == [] {
    } else if index < calls[0].index {
      LookupAbsent(calls, index);
    } else if index > calls[0].index {
      UpsertMeaning(calls[1..], index, f, other);
    }
  }

  lemma {:induction false} LookupAbsent(calls: seq<Entry>, index: nat)
    requires forall i :: 0 <= i < |calls| ==> calls[i].index != index
    ensures Lookup(calls, index) == None
  {
    if calls != [] {
      LookupAbsent(calls[1..], index);
    }
  }

  function OwnFragments(fragments: seq<Indexed>, index: nat): seq<Fragment> {
    if fragments == [] then []
    else
      var last := fragments[|fragments| - 1];
      OwnFragments(fragments[..|fragments| - 1], index) + if last.index == index then [last.fragment] else []
  }

  function Assembled(own: seq<Fragment>): Pending {
    if own == [] then FRESH else Apply(Assembled(own[..|own| - 1]), own[|own| - 1])
  }

  /** Each call depends only on the fragments of its own index, whatever else the stream interleaves with them. */
  lemma {:induction false} CallsDependOnTheirOwnIndex(fragments: seq<Indexed>, index: nat)
    ensures Ordered(ApplyAll([], fragments))
    ensures var own := OwnFragments(fragments, index);
      Lookup(ApplyAll([], fragments), index) == if own == [] then None else Some(Assembled(own))
  {
    if fragments != [] {
      var before, last := fragments[..|fragments| - 1], fragments[|fragments| - 1];
      CallsDependOnTheirOwnIndex(before, index);
      UpsertKeepsOrder(ApplyAll([], before), last.index, last.fragment);
      UpsertMeaning(ApplyAll([], before), last.index, last.fragment, index);
      var own := OwnFragments(before, index);
      assert (own + [last.fragment])[..|own|] == own && own + [] == own;
    }
  }

  function ArgumentText(f: Fragment): string {
    match f
    case Begin(_, _, _) => ""
    case More(text) => text
    case Delta(_, _, arguments) => arguments.GetOr("")
  }

  function ArgumentTexts(own: seq<Fragment>): string {
    if own == [] then "" else ArgumentTexts(own[..|own| - 1]) + ArgumentText(own[|own| - 1])
  }

  /** The arguments are the texts of the call's fragments, end to end. */
  lemma {:induction false} ArgumentsAreConcatenated(own: seq<Fragment>)
    ensures Assembled(own).arguments == ArgumentTexts(own)
  {
    if own != [] {
      ArgumentsAreConcatenated(own[..|own| - 1]);
    }
  }

  function NameTexts(own: seq<Fragment>): string
    requires forall k :: 0 <= k < |own| ==> own[k].Delta?
  {
    if own == [] then "" else NameTexts(own[..|own| - 1]) + own[|own| - 1].nameText.GetOr("")
  }

  lemma {:induction false} DeltasOnly(own: seq<Fragment>)
    requires forall k :: 0 <= k < |own| ==> own[k].Delta?
    ensures var p := Assembled(own); p.name == NameTexts(own) && p.arguments == ArgumentTexts(own) && p.value.None?
  {
    if own != [] {
      DeltasOnly(own[..|own| - 1]);
    }
  }

  /** Of a call streamed in deltas the name is concatenated too, and the last id given stands. */
  lemma {:induction false} DeltasAssemble(own: seq<Fragment>, i: nat)
    requires (forall k :: 0 <= k < |own| ==> own[k].Delta?) && i <= |own|
    requires (i > 0 ==> own[i - 1].newId.Some?) && forall k :: i <= k < |own| ==> own[k].newId.None?
    ensures Assembled(own)
      == Pending(if i == 0 then "" else own[i - 1].newId.value, NameTexts(own), ArgumentTexts(own), None)
  {
    if own != [] {
      var n := |own| - 1;
      if i <= n {
        DeltasAssemble(own[..n], i);
      } else {
        DeltasOnly(own[..n]);
      }
    }
  }

  /** A call announced and then continued is what was last announced, with all the argument texts end to end. */
  lemma {:induction false} LastBeginStands(own: seq<Fragment>, i: nat)
    requires i < |own| && own[i].Begin? && forall k :: i < k < |own| ==> own[k].More?
    ensures Assembled(own) == Pending(own[i].id, own[i].name, ArgumentTexts(own), own[i].value)
  {
    var n := |own| - 1;
    ArgumentsAreConcatenated(own);
    if i < n {
      LastBeginStands(own[..n], i);
    }
  }

  /** A call announced more than once, as each line of one provider does, keeps the last announcement only. */
  lemma {:induction false} LastAnnouncementWins(own: seq<Fragment>)
    requires own != [] && forall i :: 0 <= i < |own| ==> own[i].Begin?
    ensures var last := own[|own| - 1]; Assembled(own) == Pending(last.id, last.name, "", last.value)
  {
    var before := own[..|own| - 1];
    if before != [] {
      LastAnnouncementWins(before);
    }
  }

  // --- Finishing the calls ---

  function FinishOne(parse: Parser, e: Entry): Result<ToolCall, Error> {
    var arguments :=
      if e.call.arguments == "" then Ok(e.call.value.GetOr(Obj(map[])))
      else match parse(e.call.arguments)
        case Some(v) => Ok(v)
        case None => Err(InvalidArguments(e.call.arguments));
    match arguments
    case Ok(v) => Ok(ToolCall(if e.call.id == "" then "tool-" + Decimal(e.index) else e.call.id, e.call.name, v))
    case Err(error) => Err(error)
  }

  /** `collect` into a `Result`: the first failure in index order, or all the calls. */
  function FinishStreamToolCalls(parse: Parser, calls: seq<Entry>): Result<seq<ToolCall>, Error> {
    if calls == [] then Ok([])
    else match FinishOne(parse, calls[0])
      case Err(error) => Err(error)
      case Ok(call) =>
        match FinishStreamToolCalls(parse, calls[1..])
        case Err(error) => Err(error)
        case Ok(rest) => Ok([call] + rest)
  }

  predicate Complete(parse: Parser, p: Pending) {
    p.arguments == "" || parse(p.arguments).Some?
  }

  /** The call as it was assembled: its index stands in for a missing id, and its value for missing argument text. */
  predicate FinishedAs(parse: Parser, index: nat, p: Pending, call: ToolCall)
    requires Complete(parse, p)
  {
    && call.name == p.name && call.id == (if p.id == "" then "tool-" + Decimal(index) else p.id)
    && call.arguments == if p.arguments != "" then parse(p.arguments).value else p.value.GetOr(Obj(map[]))
  }

  /** All calls in index order, or the failure of the lowest index whose argument text does not parse. */
  lemma {:induction false} FinishedCallsMeaning(parse: Parser, calls: seq<Entry>)
    ensures var r := FinishStreamToolCalls(parse, calls);
      if r.Ok? then
        && |r.value| == |calls|
        && forall i :: 0 <= i < |calls| ==>
          Complete(parse, calls[i].call) && FinishedAs(parse, calls[i].index, calls[i].call, r.value[i])
      else
        exists i ::
          && 0 <= i < |calls| && r == Err(InvalidArguments(calls[i].call.arguments)) && !Complete(parse, calls[i].call)
          && forall j :: 0 <= j < i ==> Complete(parse, calls[j].call)
  {
    if calls != [] && FinishOne(parse, calls[0]).Ok? {
      FinishedCallsMeaning(parse, calls[1..]);
      var r := FinishStreamToolCalls(parse, calls[1..]);
      if r.Err? {
        var i :| 0 <= i < |calls[1..]| && r == Err(InvalidArguments(calls[1..][i].call.arguments))
                 && !Complete(parse, calls[1..][i].call)
                 && forall j :: 0 <= j < i ==> Complete(parse, calls[1..][j].call);
        assert calls[i + 1] == calls[1..][i];
        forall j | 0 <= j < i + 1 ensures Complete(parse, calls[j].call) {
          assert j > 0 ==> calls[j] == calls[1..][j - 1];
        }
      }
    } else if calls != [] {
      assert !Complete(parse, calls[0].call);
    }
  }

  // --- Lines ---

  function Lines(text: string): seq<string>
    decreases |text|
  {
    var i := Find(text, '\n');
    if i == |text| then [] else [text[..i]] + Lines(text[i + 1..])
  }

  function Tail(text: string): string
    decreases |text|
  {
    var i := Find(text, '\n');
    if i == |text| then text else Tail(text[i + 1..])
  }

  ghost predicate Continues(a: string, b: string) {
    Lines(a + b) == Lines(a) + Lines(Tail(a) + b) && Tail(a + b) == Tail(Tail(a) + b)
  }

  lemma ContinuesAfterLine(a: string, i: nat, b: string)
    requires i < |a| && a[i] == '\n' && (forall k :: 0 <= k < i ==> a[k] != '\n') && Continues(a[i + 1..], b)
    ensures Continues(a, b)
  {
    var head, rest := a[..i], a[i + 1..];
    FirstLineOf(a, i);
    FirstLineOf(a + b, i);
    assert (a + b)[..i] == head && (a + b)[i + 1..] == rest + b;
    Regroup([head], Lines(rest), Lines(Tail(rest) + b));
  }

  /** What a packet adds depends only on the unfinished line before it. */
  lemma {:induction false} LinesAppend(a: string, b: string)
    ensures Continues(a, b)
    decreases |a|
  {
    var i := Find(a, '\n');
    if i < |a| {
      LinesAppend(a[i + 1..], b);
      ContinuesAfterLine(a, i, b);
    } else {
      assert Lines(a) == [] && Tail(a) == a;
    }
  }

  lemma FirstLineOf(text: string, i: nat)
    requires i < |text| && text[i] == '\n' && forall k :: 0 <= k < i ==> text[k] != '\n'
    ensures Lines(text) == [text[..i]] + Lines(text[i + 1..]) && Tail(text) == Tail(text[i + 1..])
  {
    FindUnique(text, '\n', i);
  }

  function Unbroken(lines: seq<string>): string {
    if lines == [] then "" else lines[0] + "\n" + Unbroken(lines[1..])
  }

  ghost predicate SplitAtNewlines(text: string, lines: seq<string>, tail: string) {
    && text == Unbroken(lines) + tail
    && '\n' !in tail && forall i :: 0 <= i < |lines| ==> '\n' !in lines[i]
  }

  lemma SplitOnce(text: string, line: string, rest: string, lines: seq<string>, tail: string)
    requires text == line + "\n" + rest && '\n' !in line && SplitAtNewlines(rest, lines, tail)
    ensures SplitAtNewlines(text, [line] + lines, tail)
  {
    var more := [line] + lines;
    assert more[1..] == lines;
    Regroup(line + "\n", Unbroken(lines), tail);
  }

  /** The text is its lines, each with its newline, and the unfinished rest; no newline is left in any of them. */
  lemma {:induction false} LinesMeaning(text: string)
    ensures SplitAtNewlines(text, Lines(text), Tail(text))
    decreases |text|
  {
    var i := Find(text, '\n');
    if i < |text| {
      var line, rest := text[..i], text[i + 1..];
      LinesMeaning(rest);
      assert text == line + "\n" + rest;
      SplitOnce(text, line, rest, Lines(rest), Tail(rest));
    }
  }

  function LineTexts(lines: seq<string>): seq<string> {
    seq(|lines|, i requires 0 <= i < |lines| => TrimEndChar(lines[i], '\r'))
  }

  /** The lines a stream is read as; the rest after the last newline counts when it is not blank. */
  function Payloads(text: string): seq<string> {
    LineTexts(Lines(text)) + if Trim(Tail(text)) != "" then [Trim(Tail(text))] else []
  }

  function AllContents(parse: Parser, provider: Provider, lines: seq<string>): seq<string> {
    if lines == [] then []
    else AllContents(parse, provider, lines[..|lines| - 1]) + LineContents(parse, provider, lines[|lines| - 1])
  }

  function AllFragments(parse: Parser, provider: Provider, lines: seq<string>): seq<Indexed> {
    if lines == [] then []
    else AllFragments(parse, provider, lines[..|lines| - 1]) + LineFragments(parse, provider, lines[|lines| - 1])
  }

  function Numbered(contents: seq<string>): seq<Result<Chunk, Error>> {
    seq(|contents|, i requires 0 <= i < |contents| => Ok(Chunk(i, contents[i], false)))
  }

  // --- The whole stream ---

  function Received(packets: seq<Packet>): string {
    if packets == [] || packets[0].Broken? then "" else packets[0].text + Received(packets[1..])
  }

  function Failure(packets: seq<Packet>): Option<string> {
    if packets == [] then None
    else if packets[0].Broken? then Some(packets[0].message)
    else Failure(packets[1..])
  }

  datatype Output = Output(chunks: seq<Result<Chunk, Error>>, calls: Option<Result<seq<ToolCall>, Error>>)

  /** What the consumer gets for a text, and the failure that cut it off if there was one. */
  function Streamed(parse: Parser, provider: Provider, text: string, failure: Option<string>): Output {
    if failure.Some? then
      Output(Numbered(AllContents(parse, provider, LineTexts(Lines(text)))) + [Err(Transport(failure.value))], None)
    else
      var contents := AllContents(parse, provider, Payloads(text));
      Output(Numbered(contents) + [Ok(Chunk(|contents|, "", true))],
             Some(FinishStreamToolCalls(parse, ApplyAll([], AllFragments(parse, provider, Payloads(text))))))
  }

  lemma {:induction false} ReceivedSnoc(packets: seq<Packet>, i: nat)
    requires i < |packets| && forall j :: 0 <= j <= i ==> packets[j].Bytes?
    ensures Received(packets[..i + 1]) == Received(packets[..i]) + packets[i].text
  {
    if i == 0 {
      assert packets[..1][1..] == [] && packets[..0] == [];
    } else {
      ReceivedSnoc(packets[1..], i - 1);
      assert packets[..i + 1][1..] == packets[1..][..i] && packets[..i][1..] == packets[1..][..i - 1];
    }
  }

  lemma {:induction false} FailureAt(packets: seq<Packet>, i: nat)
    requires i <= |packets| && (forall j :: 0 <= j < i ==> packets[j].Bytes?) && (i < |packets| ==> packets[i].Broken?)
    ensures Received(packets) == Received(packets[..i])
    ensures Failure(packets) == if i < |packets| then Some(packets[i].message) else None
  {
    if i == 0 {
      assert Received(packets[..0]) == "";
    } else {
      FailureAt(packets[1..], i - 1);
      assert packets[..i][1..] == packets[1..][..i - 1] && packets[..i][0] == packets[0];
    }
  }

  ghost predicate ReadSoFar(
      parse: Parser, provider: Provider, lines: seq<string>, chunks: seq<Result<Chunk, Error>>, sequence: nat,
      calls: seq<Entry>)
  {
    && chunks == Numbered(AllContents(parse, provider, lines)) && sequence == |chunks|
    && calls == ApplyAll([], AllFragments(parse, provider, lines))
  }

  lemma OneMoreLine(parse: Parser, provider: Provider, lines: seq<string>, line: string)
    ensures AllContents(parse, provider, lines + [line])
      == AllContents(parse, provider, lines) + LineContents(parse, provider, line)
    ensures ApplyAll([], AllFragments(parse, provider, lines + [line]))
      == ApplyAll(ApplyAll([], AllFragments(parse, provider, lines)), LineFragments(parse, provider, line))
  {
    assert (lines + [line])[..|lines|] == lines;
    ApplyAllAppend([], AllFragments(parse, provider, lines), LineFragments(parse, provider, line));
  }

  /** One line: its chunks sent, its fragments applied. */
  method ReadLine(parse: Parser, provider: Provider, line: string, ghost lines: seq<string>,
                  chunks: seq<Result<Chunk, Error>>, sequence: nat, calls: seq<Entry>)
    returns (chunks': seq<Result<Chunk, Error>>, sequence': nat, calls': seq<Entry>)
    requires ReadSoFar(parse, provider, lines, chunks, sequence, calls)
    ensures ReadSoFar(parse, provider, lines + [line], chunks', sequence', calls')
  {
    OneMoreLine(parse, provider, lines, line);
    calls' := AccumulateStreamToolCalls(parse, provider, line, calls);
    chunks', sequence' :=
      SendContents(LineContents(parse, provider, line), AllContents(parse, provider, lines), chunks, sequence);
  }

  method SendContents(contents: seq<string>, ghost before: seq<string>, chunks: seq<Result<Chunk, Error>>,
                      sequence: nat)
    returns (chunks': seq<Result<Chunk, Error>>, sequence': nat)
    requires chunks == Numbered(before) && sequence == |chunks|
    ensures chunks' == Numbered(before + contents) && sequence' == |chunks'|
  {
    chunks', sequence' := chunks, sequence;
    for i := 0 to |contents|
      invariant chunks' == Numbered(before + contents[..i]) && sequence' == |chunks'|
    {
      chunks' := chunks' + [Ok(Chunk(sequence', contents[i], false))];
      sequence' := sequence' + 1;
    }
    assert contents[..|contents|] == contents;
  }

  /** The inner loop: every complete line of the buffer. */
  method ReadLines(parse: Parser, provider: Provider, text: string, ghost before: seq<string>,
                   chunks: seq<Result<Chunk, Error>>, sequence: nat, calls: seq<Entry>)
    returns (buffer: string, chunks': seq<Result<Chunk, Error>>, sequence': nat, calls': seq<Entry>)
    requires ReadSoFar(parse, provider, LineTexts(before), chunks, sequence, calls)
    ensures buffer == Tail(text)
    ensures ReadSoFar(parse, provider, LineTexts(before + Lines(text)), chunks', sequence', calls')
  {
    buffer, chunks', sequence', calls' := text, chunks, sequence, calls;
    ghost var done := before;
    while Find(buffer, '\n') < |buffer|
      invariant before + Lines(text) == done + Lines(buffer) && Tail(text) == Tail(buffer)
      invariant ReadSoFar(parse, provider, LineTexts(done), chunks', sequence', calls')
      decreases |buffer|
    {
      var index := Find(buffer, '\n');
      var line, rest := buffer[..index], buffer[index + 1..];
      LineTaken(buffer, index, done);
      LineTextsSnoc(done, line);
      chunks', sequence', calls' :=
        ReadLine(parse, provider, TrimEndChar(line, '\r'), LineTexts(done), chunks', sequence', calls');
      done, buffer := done + [line], rest;
    }
    assert done == before + Lines(text);
  }

  lemma LineTaken(buffer: string, index: nat, done: seq<string>)
    requires index < |buffer| && index == Find(buffer, '\n')
    ensures done + Lines(buffer) == done + [buffer[..index]] + Lines(buffer[index + 1..])
    ensures Tail(buffer) == Tail(buffer[index + 1..])
  {
    FirstLineOf(buffer, index);
    Regroup(done, [buffer[..index]], Lines(buffer[index + 1..]));
  }

  lemma LineTextsSnoc(lines: seq<string>, line: string)
    ensures LineTexts(lines + [line]) == LineTexts(lines) + [TrimEndChar(line, '\r')]
  {
  }

  method StreamWithToolCalls(parse: Parser, provider: Provider, packets: seq<Packet>) returns (out: Output)
    ensures out == Streamed(parse, provider, Received(packets), Failure(packets))
  {
    var chunks: seq<Result<Chunk, Error>> := [];
    var sequence, buffer := 0, "";
    var calls: seq<Entry> := [];
    for i := 0 to |packets|
      invariant forall j :: 0 <= j < i ==> packets[j].Bytes?
      invariant buffer == Tail(Received(packets[..i]))
      invariant ReadSoFar(parse, provider, LineTexts(Lines(Received(packets[..i]))), chunks, sequence, calls)
    {
      if packets[i].Broken? {
        FailureAt(packets, i);
        return Output(chunks + [Err(Transport(packets[i].message))], None);
      }
      LinesAppend(Received(packets[..i]), packets[i].text);
      ReceivedSnoc(packets, i);
      buffer := buffer + packets[i].text;
      buffer, chunks, sequence, calls :=
        ReadLines(parse, provider, buffer, Lines(Received(packets[..i])), chunks, sequence, calls);
    }
    FailureAt(packets, |packets|);
    assert packets[..|packets|] == packets;
    ghost var lines := LineTexts(Lines(Received(packets)));
    if Trim(buffer) != "" {
      chunks, sequence, calls := ReadLine(parse, provider, Trim(buffer), lines, chunks, sequence, calls);
    } else {
      assert lines + [] == lines;
    }
    out := Output(chunks + [Ok(Chunk(sequence, "", true))], Some(FinishStreamToolCalls(parse, calls)));
  }

  /** Numbered from 0, and none but the last is final or an error. */
  ghost predicate GapFree(chunks: seq<Result<Chunk, Error>>) {
    && |chunks| > 0
    && (forall i :: 0 <= i < |chunks| && chunks[i].Ok? ==> chunks[i].value.sequence == i)
    && (forall i :: 0 <= i < |chunks| - 1 ==> chunks[i].Ok? && !chunks[i].value.isFinal)
  }

  lemma NumberedThenLast(contents: seq<string>, last: Result<Chunk, Error>)
    requires last.Ok? ==> last.value.sequence == |contents|
    ensures GapFree(Numbered(contents) + [last]) && |Numbered(contents)| == |contents|
  {
  }

  function ContentsOf(parse: Parser, provider: Provider, lines: seq<string>): seq<seq<string>> {
    seq(|lines|, i requires 0 <= i < |lines| => LineContents(parse, provider, lines[i]))
  }

  lemma ContentsOfInit(parse: Parser, provider: Provider, lines: seq<string>)
    requires lines != []
    ensures ContentsOf(parse, provider, lines) ==
      ContentsOf(parse, provider, lines[..|lines| - 1]) + [LineContents(parse, provider, lines[|lines| - 1])]
  {
  }

  /** The contents of all lines, in order. */
  lemma {:induction false} AllContentsMeaning(parse: Parser, provider: Provider, lines: seq<string>)
    ensures AllContents(parse, provider, lines) == Flatten(ContentsOf(parse, provider, lines))
  {
    if lines != [] {
      var init, last := lines[..|lines| - 1], LineContents(parse, provider, lines[|lines| - 1]);
      AllContentsMeaning(parse, provider, init);
      ContentsOfInit(parse, provider, lines);
      FlattenSnoc(ContentsOf(parse, provider, init), last);
    }
  }

  lemma {:induction false} FlattenSnoc<T>(parts: seq<seq<T>>, last: seq<T>)
    ensures Flatten(parts + [last]) == Flatten(parts) + last
  {
    if parts == [] {
      assert parts + [last] == [last] && last + [] == last;
    } else {
      FlattenSnoc(parts[1..], last);
      assert (parts + [last])[1..] == parts[1..] + [last];
    }
  }

  /**
   * Chunks are numbered from 0 without gaps, one for each content of the lines, in order; exactly the last one is
   * final, and it is empty, and only an unbroken stream has one. A broken one ends with its failure, without calls.
   */
  lemma ChunksAreNumbered(parse: Parser, provider: Provider, text: string, failure: Option<string>)
    ensures var out := Streamed(parse, provider, text, failure);
      var lines := if failure.Some? then LineTexts(Lines(text)) else Payloads(text);
      var n := |out.chunks| - 1;
      && GapFree(out.chunks) && n == |AllContents(parse, provider, lines)|
      && (forall i :: 0 <= i < n ==> out.chunks[i].value.content == AllContents(parse, provider, lines)[i])
      && out.chunks[n] == (if failure.Some? then Err(Transport(failure.value)) else Ok(Chunk(n, "", true)))
      && (failure.None? <==> out.calls.Some?)
  {
    var contents := AllContents(parse, provider, if failure.Some? then LineTexts(Lines(text)) else Payloads(text));
    NumberedThenLast(contents, Streamed(parse, provider, text, failure).chunks[|contents|]);
  }

  lemma {:induction false} TrimEndCharDrops(s: string, c: char) returns (pad: string)
    requires IsWhitespace(c)
    ensures TrimEndChar(s, c) + pad == s && Blank(pad)
  {
    if s != [] && s[|s| - 1] == c {
      pad := TrimEndCharDrops(s[..|s| - 1], c);
      pad := pad + [c];
    } else {
      pad := "";
    }
  }

  lemma TrimDropsCarriageReturns(line: string)
    ensures Trim(TrimEndChar(line, '\r')) == Trim(line)
  {
    var pad := TrimEndCharDrops(line, '\r');
    TrimRightPadding(TrimEndChar(line, '\r'), pad);
  }

  lemma CutDataIsNotData(s: string, end: string)
    requires 0 < |s| < |DATA| && Blank(end)
    ensures !(DATA <= s + end)
  {
    if |s + end| >= |DATA| {
      assert DATA[1] == 'a' && DATA[2] == 't' && DATA[3] == 'a' && DATA[4] == ':';
      assert (s + end)[|s|] == end[0] != DATA[|s|];
    }
  }

  lemma TrailingBlanksAreNotData(s: string, end: string)
    requires s != "" && Trimmed(s) && Blank(end)
    ensures DataOf(s + end) == DataOf(s)
  {
    TrimRightPadding(s, end);
    if |s| < |DATA| {
      CutDataIsNotData(s, end);
    } else if DATA <= s + end {
      var rest := s[|DATA|..];
      assert (s + end)[|DATA|..] == rest + end;
      TrimRightPadding(rest, end);
    }
  }

  /** Without leading blanks, `trim` and the removal of `\r` leave the same data. */
  lemma UnpaddedDataIsTheSame(t: string)
    requires t != "" && !IsWhitespace(t[0])
    ensures DataOf(Trim(t)) == DataOf(t)
  {
    var end := UnpaddedSplit(t);
    TrimIsTrimmed(t);
    TrailingBlanksAreNotData(Trim(t), end);
  }

  /** With leading blanks, only `trim` uncovers the prefix. */
  lemma PaddedDataIsTheSameExactlyWhen(line: string, t: string)
    requires t != "" && IsWhitespace(t[0]) && Trim(t) == Trim(line)
    ensures DataOf(Trim(line)) == DataOf(t) <==> !(DATA <= Trim(line))
  {
    assert !(DATA <= t);
    TrimIsTrimmed(line);
    TrimOfTrimmed(Trim(line));
    if DATA <= Trim(line) {
      var rest := Trim(line)[|DATA|..];
      assert |Trim(rest)| <= |rest| < |Trim(line)|;
    }
  }

  /** Removing `\r` from the end of a line with text leaves its beginning, and `trim` does not see it. */
  lemma WithoutReturns(line: string, t: string)
    requires Trim(line) != "" && t == TrimEndChar(line, '\r')
    ensures line != "" && t != "" && t[0] == line[0] && Trim(t) == Trim(line)
  {
    var pad := TrimEndCharDrops(line, '\r');
    TrimDropsCarriageReturns(line);
    assert Trim("") == "";
  }

  /**
   * A stream that ends without its last newline hands the parser the same text for its last line, unless blanks precede
   * `data:`.
   */
  lemma LastDataIsTheSameExactlyWhen(line: string)
    requires Trim(line) != ""
    ensures DataOf(Trim(line)) == DataOf(TrimEndChar(line, '\r')) <==> !(IsWhitespace(line[0]) && DATA <= Trim(line))
  {
    var t := TrimEndChar(line, '\r');
    WithoutReturns(line, t);
    if IsWhitespace(line[0]) {
      PaddedDataIsTheSameExactlyWhen(line, t);
    } else {
      UnpaddedDataIsTheSame(t);
    }
  }

  /** No JSON text begins with `data:`. */
  ghost predicate ReadsJson(parse: Parser) {
    forall text: string :: DATA <= text ==> parse(text) == None
  }

  lemma DataIsNoJson(parse: Parser, data: string)
    requires ReadsJson(parse) && DATA <= data
    ensures parse(data) == None
  {
  }

  lemma SameDataSameValue(parse: Parser, line: string, other: string)
    requires DataOf(line) == DataOf(other)
    ensures StreamValue(parse, line) == StreamValue(parse, other)
  {
  }

  /** Behind blanks the prefix is not seen as one, and what starts with it is not JSON. */
  lemma PaddedDataSaysNothing(parse: Parser, t: string)
    requires t != "" && IsWhitespace(t[0]) && DATA <= Trim(t) && ReadsJson(parse)
    ensures StreamValue(parse, t).None?
  {
    assert t[0] != DATA[0];
    assert DataOf(t) == Trim(t);
    DataIsNoJson(parse, Trim(t));
  }

  /**
   * With its newline a last line with blanks before `data:` says nothing, without it the value of its data: so it is
   * read the same unless there are such blanks and such a value.
   */
  lemma LastLineIsReadTheSameExactlyWhen(parse: Parser, line: string)
    requires Trim(line) != "" && ReadsJson(parse)
    ensures StreamValue(parse, Trim(line)) == StreamValue(parse, TrimEndChar(line, '\r')) <==>
      !(IsWhitespace(line[0]) && DATA <= Trim(line) && StreamValue(parse, Trim(line)).Some?)
  {
    var t := TrimEndChar(line, '\r');
    WithoutReturns(line, t);
    if IsWhitespace(line[0]) && DATA <= Trim(line) {
      PaddedDataSaysNothing(parse, t);
    } else {
      LastDataIsTheSameExactlyWhen(line);
      SameDataSameValue(parse, Trim(line), t);
    }
  }

  /** Nothing but blanks before `data:` makes a difference between a last line with and one without its newline. */
  predicate TailIsPlain(text: string) {
    Tail(text) != "" && IsWhitespace(Tail(text)[0]) ==> !(DATA <= Trim(Tail(text)))
  }

  lemma NewlineEndsTail(text: string)
    ensures Lines(text + "\n") == Lines(text) + [Tail(text)] && Tail(text + "\n") == ""
  {
    LinesAppend(text, "\n");
    LinesMeaning(text);
    FirstLineOf(Tail(text) + "\n", |Tail(text)|);
    assert (Tail(text) + "\n")[..|Tail(text)|] == Tail(text) && (Tail(text) + "\n")[|Tail(text)| + 1..] == "";
    assert Lines("") == [] && Tail("") == "";
    assert [Tail(text)] + [] == [Tail(text)];
  }

  lemma NewlineEndsPayloads(text: string)
    ensures Payloads(text + "\n") == LineTexts(Lines(text)) + [TrimEndChar(Tail(text), '\r')]
    ensures Payloads(text) == LineTexts(Lines(text)) + if Blank(Tail(text)) then [] else [Trim(Tail(text))]
  {
    NewlineEndsTail(text);
    TrimmedAway(Tail(text));
    assert Trim("") == "";
    assert LineTexts(Lines(text) + [Tail(text)]) == LineTexts(Lines(text)) + [TrimEndChar(Tail(text), '\r')];
    assert LineTexts(Lines(text) + [Tail(text)]) + [] == LineTexts(Lines(text) + [Tail(text)]);
  }

  lemma SameValueSaysTheSame(parse: Parser, provider: Provider, line: string, other: string)
    requires StreamValue(parse, line) == StreamValue(parse, other)
    ensures LineContents(parse, provider, line) == LineContents(parse, provider, other)
    ensures LineFragments(parse, provider, line) == LineFragments(parse, provider, other)
  {
  }

  lemma BlankSaysNothing(parse: Parser, provider: Provider, line: string)
    requires Blank(line)
    ensures LineContents(parse, provider, TrimEndChar(line, '\r')) == []
    ensures LineFragments(parse, provider, TrimEndChar(line, '\r')) == []
  {
    var t := TrimEndChar(line, '\r');
    var pad := TrimEndCharDrops(line, '\r');
    assert forall i :: 0 <= i < |t| ==> t[i] == line[i];
    TrimmedAway(t);
    assert DATA[0] == 'd' && !IsWhitespace('d');
    NoValueSaysNothing(parse, provider, t);
  }

  lemma ContentsOfMore(parse: Parser, provider: Provider, lines: seq<string>, last: string)
    ensures AllContents(parse, provider, lines + [last]) ==
      AllContents(parse, provider, lines) + LineContents(parse, provider, last)
    ensures AllFragments(parse, provider, lines + [last]) ==
      AllFragments(parse, provider, lines) + LineFragments(parse, provider, last)
  {
    assert (lines + [last])[..|lines|] == lines;
  }

  /** A stream says the same with and without its last newline, if blanks do not hide a last `data:`. */
  lemma LastNewlineIsOptional(parse: Parser, provider: Provider, text: string)
    requires TailIsPlain(text)
    ensures AllContents(parse, provider, Payloads(text + "\n")) == AllContents(parse, provider, Payloads(text))
    ensures AllFragments(parse, provider, Payloads(text + "\n")) == AllFragments(parse, provider, Payloads(text))
    ensures Streamed(parse, provider, text + "\n", None) == Streamed(parse, provider, text, None)
  {
    var lines, tail := LineTexts(Lines(text)), Tail(text);
    NewlineEndsPayloads(text);
    ContentsOfMore(parse, provider, lines, TrimEndChar(tail, '\r'));
    if Blank(tail) {
      BlankSaysNothing(parse, provider, tail);
      assert lines + [] == lines;
      assert AllContents(parse, provider, lines) + [] == AllContents(parse, provider, lines);
      assert AllFragments(parse, provider, lines) + [] == AllFragments(parse, provider, lines);
    } else {
      TrimmedAway(tail);
      LastDataIsTheSameExactlyWhen(tail);
      SameDataSameValue(parse, Trim(tail), TrimEndChar(tail, '\r'));
      SameValueSaysTheSame(parse, provider, Trim(tail), TrimEndChar(tail, '\r'));
      ContentsOfMore(parse, provider, lines, Trim(tail));
    }
  }
}
