/** The pure helpers of the agent's stream processor: which part of a
    streamed chunk is chat text, which icon a tool gets, and how a chunk
    that carries tool information is summarised. Every helper catches its
    own exceptions; an operation that raises is modelled as None. */
module StreamingProcessor {
  import opened Text
  import opened PyValues

  /** How an f-string shows a value: a string as itself, anything else as
      Python's str() of it, which `strOf` stands for. */
  function Show(v: Value, strOf: Value -> string): string
  {
    if v.Str? then v.s else strOf(v)
  }

  // ----- _extract_text_from_chunk -----

  /** Whether a dict has an entry under `key`. */
  predicate Has(entries: seq<(string, Value)>, key: string)
  {
    Lookup(entries, key).Some?
  }

  /** Events of the agent's own loop, which carry no text. */
  predicate IsLoopMarker(entries: seq<(string, Value)>)
  {
    Has(entries, "init_event_loop") || Has(entries, "start") || Has(entries, "start_event_loop")
  }

  /** Responses that carry the agent's metadata rather than text. */
  predicate IsMetadata(entries: seq<(string, Value)>)
  {
    Has(entries, "agent") || Has(entries, "event_loop_metrics") || Has(entries, "traces") || Has(entries, "spans")
  }

  /** The text of a model stream event: only a content block delta carrying
      `delta.text` has any. Block starts and stops, and everything else,
      yield None; so does any lookup that raises. */
  function EventText(event: Value): (r: Value)
    ensures r != PyNone ==>
      event.Dict? && Has(event.entries, "contentBlockDelta")
      && !Has(event.entries, "contentBlockStart") && !Has(event.entries, "contentBlockStop")
  {
    match In("contentBlockStart", event)
    case None => PyNone
    case Some(start) =>
      if start || In("contentBlockStop", event).value || !In("contentBlockDelta", event).value then PyNone
      else
        match Index(event, "contentBlockDelta")
        case None => PyNone
        case Some(delta) =>
          match In("delta", delta)
          case None => PyNone
          case Some(hasDelta) =>
            if !hasDelta then PyNone
            else
              match Index(delta, "delta")
              case None => PyNone
              case Some(inner) =>
                match In("text", inner)
                case None => PyNone
                case Some(hasText) =>
                  if !hasText then PyNone
                  else
                    match Index(inner, "text")
                    case None => PyNone
                    case Some(text) => text
  }

  /** The line reporting a tool result. */
  function ToolResultLine(toolName: string, success: bool): string
  {
    if success then "✅ **工具 " + toolName + " 执行成功**\n" else "❌ **工具 " + toolName + " 执行失败**\n"
  }

  /** _extract_text_from_chunk: the chat text a streamed chunk carries, or
      None (PyNone). A string is its own text; a dict is tested key by key
      in a fixed order; every other value yields None. */
  function ExtractText(chunk: Value, strOf: Value -> string): (r: Value)
    ensures chunk.Str? ==> r == chunk
    ensures !chunk.Str? && !chunk.Dict? ==> r == PyNone
    ensures chunk.Dict? && IsLoopMarker(chunk.entries) ==> r == PyNone
    ensures chunk.Dict? && !IsLoopMarker(chunk.entries) && Has(chunk.entries, "event") ==>
      r == EventText(Lookup(chunk.entries, "event").value)
  {
    match chunk
    case Str(_) => chunk
    case Dict(entries) =>
      if IsLoopMarker(entries) then PyNone
      else if Has(entries, "event") then EventText(Lookup(entries, "event").value)
      else if Has(entries, "tool_result") then
        var toolResult := Lookup(entries, "tool_result").value;
        match Get(toolResult, "tool_name", Str("未知工具"))
        case None => PyNone
        case Some(toolName) =>
          Str(ToolResultLine(Show(toolName, strOf), Truthy(Get(toolResult, "success", Bool(false)).value)))
      else if IsMetadata(entries) then PyNone
      else if Has(entries, "text") then Lookup(entries, "text").value
      else if Has(entries, "content") then Lookup(entries, "content").value
      else PyNone
    case _ => PyNone
  }

  /** An event yields text only as a dict with no block start or stop whose
      content block delta is a dict holding a dict `delta` with a `text`;
      the text is that entry. */
  lemma EventTextOnlyFromDelta(event: Value)
    requires EventText(event) != PyNone
    ensures event.Dict? && !Has(event.entries, "contentBlockStart") && !Has(event.entries, "contentBlockStop")
    ensures var delta := Lookup(event.entries, "contentBlockDelta");
      delta.Some? && delta.value.Dict? && Has(delta.value.entries, "delta")
      && var inner := Lookup(delta.value.entries, "delta").value;
      inner.Dict? && Lookup(inner.entries, "text") == Some(EventText(event))
  {
  }

  /** A text delta yields its text. */
  lemma DeltaYieldsText(text: Value)
    ensures EventText(Dict([("contentBlockDelta", Dict([("delta", Dict([("text", text)]))]))])) == text
  {
  }

  /** A tool result reports success or failure according to the truth of
      its `success` flag (absent means failure), naming the tool. */
  lemma ToolResultReported(entries: seq<(string, Value)>, result: seq<(string, Value)>, strOf: Value -> string)
    requires !IsLoopMarker(entries) && !Has(entries, "event")
    requires Lookup(entries, "tool_result") == Some(Dict(result))
    ensures var name := Show(Get(Dict(result), "tool_name", Str("未知工具")).value, strOf);
      var success := Lookup(result, "success");
      ExtractText(Dict(entries), strOf)
        == Str(ToolResultLine(name, success.Some? && Truthy(success.value)))
  {
  }

  /** Outside events, tool results and metadata, "text" wins over "content". */
  lemma TextBeforeContent(entries: seq<(string, Value)>, strOf: Value -> string)
    requires !IsLoopMarker(entries) && !Has(entries, "event") && !Has(entries, "tool_result")
    ensures IsMetadata(entries) ==> ExtractText(Dict(entries), strOf) == PyNone
    ensures !IsMetadata(entries) && Has(entries, "text") ==>
      ExtractText(Dict(entries), strOf) == Lookup(entries, "text").value
    ensures !IsMetadata(entries) && !Has(entries, "text") ==>
      ExtractText(Dict(entries), strOf) == (if Has(entries, "content") then Lookup(entries, "content").value else PyNone)
  {
  }

  // ----- _get_tool_icon -----

  /** The keywords tried, in order, and the icon each selects. */
  const IconKeywords: seq<(string, string)> := [
    ("python", "🐍"), ("calculator", "🧮"), ("memory", "🧠"), ("http", "🌐"),
    ("time", "⏰"), ("write", "✏️"), ("editor", "📝")
  ]

  const DefaultIcon := "🔧"

  /** _get_tool_icon: the icon of the first keyword the lower-cased name
      contains. */
  function ToolIcon(toolName: string): (r: string)
    ensures r == DefaultIcon
      || exists k :: k in IconKeywords && k.1 == r && Contains(ToLower(toolName), k.0)
  {
    var lower := ToLower(toolName);
    if Contains(lower, "python") then "🐍"
    else if Contains(lower, "calculator") then "🧮"
    else if Contains(lower, "memory") then "🧠"
    else if Contains(lower, "http") then "🌐"
    else if Contains(lower, "time") then "⏰"
    else if Contains(lower, "write") then "✏️"
    else if Contains(lower, "editor") then "📝"
    else DefaultIcon
  }

  /** Reference definition: scan the keyword table in order. */
  function FirstIcon(table: seq<(string, string)>, lower: string): string
  {
    if table == [] then DefaultIcon
    else if Contains(lower, table[0].0) then table[0].1
    else FirstIcon(table[1..], lower)
  }

  /** The icon is the first matching keyword's, in table order. */
  lemma ToolIconIsFirstMatch(toolName: string)
    ensures ToolIcon(toolName) == FirstIcon(IconKeywords, ToLower(toolName))
  {
    var lower := ToLower(toolName);
    var t := IconKeywords;
    assert t[0] == ("python", "🐍");
    var t1 := [("calculator", "🧮"), ("memory", "🧠"), ("http", "🌐"), ("time", "⏰"), ("write", "✏️"), ("editor", "📝")];
    assert t[1..] == t1;
    var t2 := [("memory", "🧠"), ("http", "🌐"), ("time", "⏰"), ("write", "✏️"), ("editor", "📝")];
    assert t1[1..] == t2;
    var t3 := [("http", "🌐"), ("time", "⏰"), ("write", "✏️"), ("editor", "📝")];
    assert t2[1..] == t3;
    var t4 := [("time", "⏰"), ("write", "✏️"), ("editor", "📝")];
    assert t3[1..] == t4;
    var t5 := [("write", "✏️"), ("editor", "📝")];
    assert t4[1..] == t5;
    assert t5[1..] == [("editor", "📝")];
    assert t5[1..][1..] == [];
    assert FirstIcon(t5[1..], lower) == if Contains(lower, "editor") then "📝" else DefaultIcon;
    assert FirstIcon(t5, lower) == if Contains(lower, "write") then "✏️" else FirstIcon(t5[1..], lower);
    assert FirstIcon(t4, lower) == if Contains(lower, "time") then "⏰" else FirstIcon(t5, lower);
    assert FirstIcon(t3, lower) == if Contains(lower, "http") then "🌐" else FirstIcon(t4, lower);
    assert FirstIcon(t2, lower) == if Contains(lower, "memory") then "🧠" else FirstIcon(t3, lower);
    assert FirstIcon(t1, lower) == if Contains(lower, "calculator") then "🧮" else FirstIcon(t2, lower);
  }

  /** The default icon means no keyword occurs in the lower-cased name. */
  lemma {:induction false} FirstIconDefault(table: seq<(string, string)>, lower: string)
    requires forall k :: 0 <= k < |table| ==> table[k].1 != DefaultIcon
    ensures FirstIcon(table, lower) == DefaultIcon <==> forall k :: 0 <= k < |table| ==> !Contains(lower, table[k].0)
    decreases |table|
  {
    if table != [] {
      FirstIconDefault(table[1..], lower);
      assert forall k :: 1 <= k < |table| ==> table[k] == table[1..][k - 1];
    }
  }

  /** The choice ignores case: a name and its lower-cased form get the
      same icon. */
  lemma ToolIconIgnoresCase(toolName: string)
    ensures ToolIcon(ToLower(toolName)) == ToolIcon(toolName)
  {
    ToLowerIdempotent(toolName);
  }

  // ----- _parse_tool_details -----

  const UnknownTool := "未知工具"

  /** The summary of a tool call: its name and its (cut) JSON input. */
  function ToolUseLine(name: string, formattedInput: string): string
  {
    "   🔧 工具: " + name + "\n   📋 输入:\n```json\n" + formattedInput + "\n```"
  }

  const ResultPrefix := "   ✅ 工具结果: "
  const RawPrefix := "   📋 原始数据: "
  const ErrorPrefix := "   ❌ 解析错误: "

  /** The text of a tool result cut to 500 characters: a string is cut; a
      list or dict is shown whole when it has at most 500 items (distinct
      keys for a dict) and raises
      otherwise (its slice cannot be joined to "..."), as does a value
      without a length. */
  function CutResultText(text: Value, strOf: Value -> string): (r: Option<string>)
    ensures text.Str? ==> r == Some(Truncate(text.s, 500))
    ensures text.List? ==> (r.None? <==> |text.items| > 500)
    ensures text.Dict? && |text.entries| <= 500 ==> r == Some(strOf(text))
    ensures text.PyNone? || text.Bool? || text.Int? ==> r.None?
  {
    match text
    case Str(s) => Some(Truncate(s, 500))
    case _ =>
      match Len(text)
      case None => None
      case Some(n) => if n > 500 then None else Some(strOf(text))
  }

  /** How the scan of a message's content ends. */
  datatype Scan = Raised | Line(text: string) | NoLine

  /** The loop over a message's content: the first tool use, or the first
      tool result with a non-empty result, gives the line. */
  function ScanItems(items: seq<Value>, dumps: Value -> string, strOf: Value -> string): Scan
  {
    if items == [] then NoLine
    else
      var item := items[0];
      if !item.Dict? then ScanItems(items[1..], dumps, strOf)
      else
        var kind := Get(item, "type", PyNone).value;
        if kind == Str("tool_use") then
          var name := Get(item, "name", Str(UnknownTool)).value;
          var input := Get(item, "input", Dict([])).value;
          Line(ToolUseLine(Show(name, strOf), Truncate(dumps(input), 800)))
        else if kind == Str("tool_result") then
          var result := Get(item, "content", List([])).value;
          if !Truthy(result) then ScanItems(items[1..], dumps, strOf)
          else if result.List? then
            match Get(result.items[0], "text", Str("无结果"))
            case None => Raised
            case Some(text) =>
              match CutResultText(text, strOf)
              case None => Raised
              case Some(s) => Line(ResultPrefix + s)
          else Line(ResultPrefix + Truncate(strOf(result), 500))
        else ScanItems(items[1..], dumps, strOf)
  }

  /** The `message` branch: the scan's line, or the raw summary when the
      message has no content or the content holds no tool line. */
  function MessageDetails(chunk: Value, raw: string, dumps: Value -> string, strOf: Value -> string): Option<string>
  {
    match Index(chunk, "message")
    case None => None
    case Some(message) =>
      match In("content", message)
      case None => None
      case Some(hasContent) =>
        if !hasContent then Some(raw)
        else
          match Index(message, "content")
          case None => None
          case Some(content) =>
            match Iterate(content)
            case None => None
            case Some(items) =>
              match ScanItems(items, dumps, strOf)
              case Raised => None
              case Line(text) => Some(text)
              case NoLine => Some(raw)
  }

  /** The `toolUse` branch, or the raw summary when there is none. */
  function ToolUseDetails(chunk: Value, raw: string, dumps: Value -> string, strOf: Value -> string): Option<string>
  {
    match In("toolUse", chunk)
    case None => None
    case Some(hasToolUse) =>
      if !hasToolUse then Some(raw)
      else
        match Index(chunk, "toolUse")
        case None => None
        case Some(info) =>
          match Get(info, "name", Str(UnknownTool))
          case None => None
          case Some(name) => Some(ToolUseLine(Show(name, strOf), Truncate(dumps(Get(info, "input", Dict([])).value), 800)))
  }

  /** The body of _parse_tool_details: Some line, or None when it raises. */
  function Details(chunk: Value, pattern: string, dumps: Value -> string, strOf: Value -> string): Option<string>
  {
    var raw := RawPrefix + Truncate(strOf(chunk), 800);
    var hasMessage := if pattern == "message" then In("message", chunk) else Some(false);
    match hasMessage
    case None => None
    case Some(b) =>
      if b then MessageDetails(chunk, raw, dumps, strOf) else ToolUseDetails(chunk, raw, dumps, strOf)
  }

  /** _parse_tool_details. `dumps` is json.dumps with indentation, `strOf`
      is str(), `errorText` is the message of whatever exception is raised. */
  function ParseToolDetails(chunk: Value, pattern: string, dumps: Value -> string, strOf: Value -> string,
                            errorText: string): (r: string)
    ensures chunk.PyNone? || chunk.Bool? || chunk.Int? ==> r == ErrorPrefix + errorText
    ensures pattern != "message" && chunk.Dict? && !Has(chunk.entries, "toolUse")
      ==> r == RawPrefix + Truncate(strOf(chunk), 800)
  {
    match Details(chunk, pattern, dumps, strOf)
    case Some(line) => line
    case None => ErrorPrefix + errorText
  }

  /** Outside the `message` pattern, the details are those of `toolUse`. */
  lemma DetailsNotMessage(chunk: Value, pattern: string, dumps: Value -> string, strOf: Value -> string)
    requires pattern != "message"
    ensures Details(chunk, pattern, dumps, strOf)
      == ToolUseDetails(chunk, RawPrefix + Truncate(strOf(chunk), 800), dumps, strOf)
  {
  }

  /** A `toolUse` dict gives the tool's line. */
  lemma ToolUseDetailsOfDict(entries: seq<(string, Value)>, info: seq<(string, Value)>, raw: string,
                             dumps: Value -> string, strOf: Value -> string)
    requires Lookup(entries, "toolUse") == Some(Dict(info))
    ensures ToolUseDetails(Dict(entries), raw, dumps, strOf)
      == Some(ToolUseLine(Show(Get(Dict(info), "name", Str(UnknownTool)).value, strOf),
                          Truncate(dumps(Get(Dict(info), "input", Dict([])).value), 800)))
  {
    assert In("toolUse", Dict(entries)) == Some(true);
    assert Index(Dict(entries), "toolUse") == Some(Dict(info));
  }

  /** A chunk with a `toolUse` dict shows the tool's name and its JSON
      input, cut to 800 characters plus "..." when longer. */
  lemma ToolUseInputCut(entries: seq<(string, Value)>, pattern: string, info: seq<(string, Value)>,
                        dumps: Value -> string, strOf: Value -> string, errorText: string)
    requires pattern != "message" && Lookup(entries, "toolUse") == Some(Dict(info))
    ensures var input := dumps(Get(Dict(info), "input", Dict([])).value);
      var name := Show(Get(Dict(info), "name", Str(UnknownTool)).value, strOf);
      exists shown :: ParseToolDetails(Dict(entries), pattern, dumps, strOf, errorText) == ToolUseLine(name, shown)
        && |shown| <= 803
        && (|input| <= 800 ==> shown == input)
        && (|input| > 800 ==> shown == input[..800] + "...")
  {
    var chunk := Dict(entries);
    var input := dumps(Get(Dict(info), "input", Dict([])).value);
    var name := Show(Get(Dict(info), "name", Str(UnknownTool)).value, strOf);
    var shown := Truncate(input, 800);
    DetailsNotMessage(chunk, pattern, dumps, strOf);
    ToolUseDetailsOfDict(entries, info, RawPrefix + Truncate(strOf(chunk), 800), dumps, strOf);
    assert ParseToolDetails(chunk, pattern, dumps, strOf, errorText) == ToolUseLine(name, shown);
    assert |input| > 800 ==> shown == input[..800] + "...";
  }

  /** A dict chunk without tool information is shown raw: str() of it,
      cut to 800 characters plus "..." when longer. */
  lemma RawChunkCut(entries: seq<(string, Value)>, pattern: string, dumps: Value -> string, strOf: Value -> string,
                    errorText: string)
    requires pattern != "message" && !Has(entries, "toolUse")
    ensures var text := strOf(Dict(entries));
      exists shown :: ParseToolDetails(Dict(entries), pattern, dumps, strOf, errorText) == RawPrefix + shown
        && |shown| <= 803
        && (|text| <= 800 ==> shown == text)
        && (|text| > 800 ==> shown == text[..800] + "...")
  {
    var chunk := Dict(entries);
    var text := strOf(chunk);
    var raw := RawPrefix + Truncate(text, 800);
    DetailsNotMessage(chunk, pattern, dumps, strOf);
    assert In("toolUse", chunk) == Some(false);
    assert ParseToolDetails(chunk, pattern, dumps, strOf, errorText) == raw;
    var shown := Truncate(text, 800);
    assert |text| > 800 ==> shown == text[..800] + "...";
  }

  /** An item the scan passes over: not a dict, or a dict that is neither a
      tool use nor a tool result with content. */
  predicate Skipped(item: Value) {
    !item.Dict? ||
    (var kind := Get(item, "type", PyNone).value;
     kind != Str("tool_use")
     && (kind != Str("tool_result") || !Truthy(Get(item, "content", List([])).value)))
  }

  /** A message whose content lists a tool use after only items the scan
      passes over shows that tool's name and its cut JSON input. */
  lemma MessageToolUseShown(items: seq<Value>, i: nat, dumps: Value -> string, strOf: Value -> string)
    requires i < |items| && items[i].Dict? && Get(items[i], "type", PyNone) == Some(Str("tool_use"))
    requires forall j :: 0 <= j < i ==> Skipped(items[j])
    ensures var item := items[i];
      ScanItems(items, dumps, strOf)
        == Line(ToolUseLine(Show(Get(item, "name", Str(UnknownTool)).value, strOf),
                            Truncate(dumps(Get(item, "input", Dict([])).value), 800)))
    decreases i
  {
    if i > 0 {
      MessageToolUseShown(items[1..], i - 1, dumps, strOf);
    }
  }
}
