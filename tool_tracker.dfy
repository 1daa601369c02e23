/** The agent's tool-call tracker: it follows the model's streamed events,
    counts the tools called and turns each step of a call into a line of
    progress text. */
module ToolTracker {
  import opened Text
  import opened PyValues

  // ----- Descriptions and result formatting -----

  /** The tool name without its module prefix: the part after the last ".". */
  function CleanName(toolName: string): string
  {
    if '.' in toolName then
      var parts := Split(toolName, '.');
      parts[|parts| - 1]
    else toolName
  }

  /** The description of each known tool. */
  function KnownDescription(name: string): Option<string>
  {
    if name == "file_read" then Some("📖 读取文件内容")
    else if name == "file_write" then Some("📝 写入文件内容")
    else if name == "editor" then Some("✏️ 编辑文件")
    else if name == "python_repl" then Some("🐍 执行Python代码")
    else if name == "calculator" then Some("🔢 数学计算")
    else if name == "memory" then Some("🧠 记忆存储")
    else if name == "current_time" then Some("⏰ 获取当前时间")
    else if name == "shell" then Some("💻 执行Shell命令")
    else if name == "unity_shell" then Some("🎮 执行Unity Shell命令")
    else if name == "http_request" then Some("🌐 发送HTTP请求")
    else None
  }

  /** _get_tool_description: the known description of the clean name, or a
      generic one naming it. */
  function ToolDescription(toolName: string): string
  {
    var clean := CleanName(toolName);
    match KnownDescription(clean)
    case Some(d) => d
    case None => "🔧 执行工具: " + clean
  }

  /** A module prefix does not change the description. */
  lemma DescriptionIgnoresPrefix(prefix: string, name: string)
    requires '.' !in name
    ensures ToolDescription(prefix + "." + name) == ToolDescription(name)
  {
    CleanNameOfPrefixed(prefix, name);
  }

  lemma CleanNameOfPrefixed(prefix: string, name: string)
    requires '.' !in name
    ensures CleanName(prefix + "." + name) == name == CleanName(name)
  {
    SplitLast(prefix, name, '.');
    assert prefix + "." + name == prefix + ['.'] + name;
    assert (prefix + "." + name)[|prefix|] == '.';
  }

  /** A name no known tool has, with or without prefix, gets the generic
      description naming it. */
  lemma UnknownToolDescription(toolName: string)
    requires KnownDescription(CleanName(toolName)).None?
    ensures ToolDescription(toolName) == "🔧 执行工具: " + CleanName(toolName)
    ensures '.' !in CleanName(toolName)
  {
    if '.' !in toolName {
      SplitNone(toolName, '.');
    }
  }

  /** The lines of a result text, as str.split("\n") gives them. */
  function Lines(text: string): seq<string>
  {
    Split(text, '\n')
  }

  /** _format_tool_result: the result text is cut to 300 characters plus
      "..." first, then summarised according to the tool. */
  function FormatToolResult(toolName: string, resultText: string): string
  {
    var clean := CleanName(toolName);
    var text := Truncate(resultText, 300);
    if clean == "file_read" then
      if StartsWith(text, "Error") then "❌ 文件读取失败: " + text
      else
        var lines := Lines(text);
        if |lines| > 10 then "📖 文件内容 (" + IntToString(|lines|) + "行): " + Take(lines[0], 50) + "..."
        else "📖 文件内容: " + Take(text, 100) + "..."
    else if clean == "file_write" then
      if Contains(ToLower(text), "successfully") || Contains(ToLower(text), "success") then "✅ 文件写入成功"
      else "❌ 文件写入失败: " + text
    else if clean == "python_repl" then
      if !IsPyBlank(text) then "🐍 执行结果: " + text else "🐍 代码执行完成"
    else if clean == "shell" || clean == "unity_shell" then
      if !IsPyBlank(text) then "💻 命令输出: " + text else "💻 命令执行完成"
    else if clean == "calculator" then "🔢 计算结果: " + text
    else if clean == "http_request" then
      if StartsWith(text, "{") || StartsWith(text, "[") then "🌐 HTTP响应: JSON数据 (" + IntToString(|text|) + "字符)"
      else "🌐 HTTP响应: " + Take(text, 100) + "..."
    else text
  }

  lemma TruncateTwice(s: string)
    ensures Truncate(Truncate(s, 300), 300) == Truncate(s, 300)
  {
    if |s| > 300 {
      assert Truncate(s, 300)[..300] == s[..300];
    }
  }

  /** Formatting sees only the first 300 characters: cutting the text
      beforehand changes nothing. */
  lemma FormatSeesTruncation(toolName: string, resultText: string)
    ensures FormatToolResult(toolName, Truncate(resultText, 300)) == FormatToolResult(toolName, resultText)
  {
    TruncateTwice(resultText);
  }

  /** A tool without a special format shows the cut text itself, so a long
      result shows its first 300 characters and "...". */
  lemma FormatOtherTool(toolName: string, resultText: string)
    requires CleanName(toolName) !in {"file_read", "file_write", "python_repl", "shell", "unity_shell", "calculator", "http_request"}
    ensures FormatToolResult(toolName, resultText) == Truncate(resultText, 300)
    ensures |resultText| > 300 ==> FormatToolResult(toolName, resultText) == resultText[..300] + "..."
  {
  }

  lemma NatToStringShort(n: nat)
    requires n < 1000
    ensures |NatToString(n)| <= 3
  {
    if n >= 10 {
      NatToStringShort(n / 10);
    }
  }

  /** Every formatted result is at most 313 characters long: the longest
      label (10 characters) before a cut text of at most 303. */
  lemma FormatToolResultBounded(toolName: string, resultText: string)
    ensures |FormatToolResult(toolName, resultText)| <= 313
  {
    var text := Truncate(resultText, 300);
    assert |text| <= 303;
    var clean := CleanName(toolName);
    if clean == "file_read" && !StartsWith(text, "Error") && |Lines(text)| > 10 {
      NatToStringShort(|Lines(text)|);
    } else if clean == "http_request" {
      NatToStringShort(|text|);
    }
  }

  // ----- Replies -----

  /** The line announcing the `count`-th tool call. */
  function StartReply(count: int, toolName: string, description: string): string
  {
    "\n🔧 **工具调用 #" + IntToString(count) + ": " + toolName + "**\n   " + description + "\n   ⏳ 正在准备参数..."
  }

  const InputReadyReply := "   ⏳ 参数准备完成，开始执行工具..."

  function InputReply(formatted: string): string
  {
    "   📋 参数: " + formatted
  }

  /** The line closing a tool call. When the tool name or the result text is
      not a string, Python's text for it (an exception message caught
      inside the formatter, str() of the value) is `formatOther`. */
  function ResultReply(tool: Value, text: Value, formatOther: (Value, Value) -> string): string
  {
    if tool.Str? && text.Str? then
      "   ✅ 工具执行完成: " + FormatToolResult(tool.s, text.s) + "\n   📋 工具 **" + tool.s + "** 执行结束\n"
    else formatOther(tool, text)
  }

  // ----- The event step, as a function of the tracker's fields -----

  /** The tracker's fields. */
  datatype Tracker = Tracker(currentTool: Value, toolInput: Value, toolOutput: Value, toolCount: int, currentToolId: Value)

  /** The fields after an event, and the text it yields (None for no text). */
  datatype Processed = Processed(tracker: Tracker, reply: Option<string>)

  /** A part of process_event either ends the call or lets the next part run. */
  datatype Section = Continue | Done(result: Processed)

  /** Where the search of a message's content ends: a tool result's text, no
      tool result, or an exception. */
  datatype Search = NotFound | Failed | Found(text: Value)

  /** The first tool result in the message content whose "content" is a
      non-empty list; an item that is not a dict, or a first result element
      that is not one, raises. */
  function FindResult(items: seq<Value>): Search
  {
    if items == [] then NotFound
    else
      match Get(items[0], "type", PyNone)
      case None => Failed
      case Some(kind) =>
        var result := Get(items[0], "content", List([])).value;
        if kind == Str("tool_result") && Truthy(result) && result.List? && |result.items| > 0 then
          match Get(result.items[0], "text", Str("无结果"))
          case None => Failed
          case Some(text) => Found(text)
        else FindResult(items[1..])
  }

  /** A tool result whose first result element is a dict, so its text can
      be read. */
  predicate IsReadableResult(item: Value)
  {
    IsToolResult(item) && Get(item, "content", List([])).value.items[0].Dict?
  }

  /** Whether an item of a message's content is a tool result carrying a
      non-empty result list. */
  predicate IsToolResult(item: Value)
  {
    item.Dict? && Get(item, "type", PyNone) == Some(Str("tool_result"))
    && var result := Get(item, "content", List([])).value;
    result.List? && |result.items| > 0
  }

  /** The search stops at the first tool result, and everything before it
      is a dict that is not one. */
  lemma {:induction false} FindResultFirst(items: seq<Value>) returns (i: nat)
    requires !FindResult(items).NotFound?
    ensures i < |items|
    ensures forall j :: 0 <= j < i ==> items[j].Dict? && !IsToolResult(items[j])
    ensures FindResult(items).Found? ==> IsToolResult(items[i])
    ensures FindResult(items).Failed? ==> !items[i].Dict? || IsToolResult(items[i])
  {
    if Get(items[0], "type", PyNone).None? || IsToolResult(items[0]) {
      i := 0;
    } else {
      var k := FindResultFirst(items[1..]);
      i := k + 1;
      forall j | 0 <= j < i
        ensures items[j].Dict? && !IsToolResult(items[j])
      {
        if j > 0 {
          assert items[j] == items[1..][j - 1];
        }
      }
    }
  }

  /** A list with no tool result in it, made only of dicts, is searched to
      the end. */
  lemma {:induction false} FindResultNone(items: seq<Value>)
    requires forall j :: 0 <= j < |items| ==> items[j].Dict? && !IsToolResult(items[j])
    ensures FindResult(items) == NotFound
  {
    if items != [] {
      FindResultNone(items[1..]);
    }
  }

  /** Lines 27-38: a tool_use block start records the new tool, counts it
      and clears its input and output. */
  function StartSection(t: Tracker, event: Value): Section
  {
    match In("contentBlockStart", event)
    case None => Done(Processed(t, None))
    case Some(present) =>
      if !present then Continue
      else
        match Index(event, "contentBlockStart")
        case None => Done(Processed(t, None))
        case Some(start) =>
          match Get(start, "contentBlock", Dict([]))
          case None => Done(Processed(t, None))
          case Some(block) =>
            match Get(block, "type", PyNone)
            case None => Done(Processed(t, None))
            case Some(kind) =>
              if kind != Str("tool_use") then Continue
              else
                var name := Get(block, "name", Str("未知工具")).value;
                var started := Tracker(name, PyNone, PyNone, t.toolCount + 1, Get(block, "id", Str("")).value);
                if name.Str? then
                  Done(Processed(started, Some(StartReply(started.toolCount, name.s, ToolDescription(name.s)))))
                else Done(Processed(started, None))
  }

  /** Lines 41-49: a delta carrying input is reported while a tool is
      current and the delta names its block. */
  function DeltaSection(t: Tracker, event: Value, formatInput: (Value, Value) -> string): Section
  {
    match In("contentBlockDelta", event)
    case None => Done(Processed(t, None))
    case Some(present) =>
      if !present then Continue
      else
        match Index(event, "contentBlockDelta")
        case None => Done(Processed(t, None))
        case Some(delta) =>
          match Get(delta, "contentBlockIndex", PyNone)
          case None => Done(Processed(t, None))
          case Some(index) =>
            if index == PyNone || !Truthy(t.currentTool) || !In("delta", delta).value then Continue
            else
              var inner := Index(delta, "delta").value;
              match In("input", inner)
              case None => Done(Processed(t, None))
              case Some(hasInput) =>
                if !hasInput then Continue
                else
                  match Index(inner, "input")
                  case None => Done(Processed(t, None))
                  case Some(input) => Done(Processed(t, Some(InputReply(formatInput(t.currentTool, input)))))
  }

  /** Lines 52-54: the end of a block is reported while a tool is current. */
  function StopSection(t: Tracker, event: Value): Section
  {
    match In("contentBlockStop", event)
    case None => Done(Processed(t, None))
    case Some(present) =>
      if present && Truthy(t.currentTool) then Done(Processed(t, Some(InputReadyReply))) else Continue
  }

  /** Lines 57-70: a tool result in a message closes the current tool. */
  function MessageSection(t: Tracker, event: Value, formatOther: (Value, Value) -> string): Section
  {
    match In("message", event)
    case None => Done(Processed(t, None))
    case Some(present) =>
      if !present then Continue
      else
        match Index(event, "message")
        case None => Done(Processed(t, None))
        case Some(message) =>
          match In("content", message)
          case None => Done(Processed(t, None))
          case Some(hasContent) =>
            if !hasContent then Continue
            else
              match Index(message, "content")
              case None => Done(Processed(t, None))
              case Some(contents) =>
                match Iterate(contents)
                case None => Done(Processed(t, None))
                case Some(items) =>
                  match FindResult(items)
                  case NotFound => Continue
                  case Failed => Done(Processed(t, None))
                  case Found(text) =>
                    Done(Processed(t.(currentTool := PyNone), Some(ResultReply(t.currentTool, text, formatOther))))
  }

  /** process_event: the first part that ends the call decides; an event no
      part recognises yields nothing. */
  function Process(t: Tracker, event: Value, formatInput: (Value, Value) -> string,
                   formatOther: (Value, Value) -> string): Processed
  {
    match StartSection(t, event)
    case Done(r) => r
    case Continue =>
      match DeltaSection(t, event, formatInput)
      case Done(r) => r
      case Continue =>
        match StopSection(t, event)
        case Done(r) => r
        case Continue =>
          match MessageSection(t, event, formatOther)
          case Done(r) => r
          case Continue => Processed(t, None)
  }

  // ----- What process_event promises -----

  /** Whether the event opens a tool_use content block. */
  predicate StartsToolUse(event: Value)
  {
    event.Dict? && In("contentBlockStart", event) == Some(true)
    && var start := Index(event, "contentBlockStart").value;
    start.Dict? && var block := Get(start, "contentBlock", Dict([])).value;
    block.Dict? && Get(block, "type", PyNone) == Some(Str("tool_use"))
  }

  /** The tool count goes up by exactly one for a tool_use start and stays
      put for every other event; a start records the block's name and id
      (with their defaults) and clears the input and output. */
  lemma ProcessCounts(t: Tracker, event: Value, formatInput: (Value, Value) -> string,
                      formatOther: (Value, Value) -> string)
    ensures var p := Process(t, event, formatInput, formatOther).tracker;
      p.toolCount == t.toolCount + (if StartsToolUse(event) then 1 else 0)
    ensures StartsToolUse(event) ==>
      var block := Get(Index(event, "contentBlockStart").value, "contentBlock", Dict([])).value;
      Process(t, event, formatInput, formatOther).tracker
        == Tracker(Get(block, "name", Str("未知工具")).value, PyNone, PyNone, t.toolCount + 1, Get(block, "id", Str("")).value)
  {
    if !StartsToolUse(event) {
      NonStartKeepsCount(t, event, formatInput, formatOther);
    }
  }

  lemma NonStartKeepsCount(t: Tracker, event: Value, formatInput: (Value, Value) -> string,
                           formatOther: (Value, Value) -> string)
    requires !StartsToolUse(event)
    ensures var p := Process(t, event, formatInput, formatOther).tracker;
      p == t || p == t.(currentTool := PyNone)
  {
    if event.Dict? && In("contentBlockStart", event) == Some(true) {
      var start := Index(event, "contentBlockStart").value;
      if start.Dict? {
        var block := Get(start, "contentBlock", Dict([])).value;
        assert !block.Dict? || Get(block, "type", PyNone) != Some(Str("tool_use"));
      }
    }
  }

  /** A tool_use start names its tool in the reply when the name is a
      string, and the reply carries the new count. */
  lemma StartReplies(t: Tracker, event: Value, formatInput: (Value, Value) -> string,
                     formatOther: (Value, Value) -> string)
    requires StartsToolUse(event)
    ensures var p := Process(t, event, formatInput, formatOther);
      (p.reply.Some? <==> p.tracker.currentTool.Str?)
      && (p.reply.Some? ==> p.reply.value == StartReply(t.toolCount + 1, p.tracker.currentTool.s, ToolDescription(p.tracker.currentTool.s)))
  {
    StartSectionOfToolUse(t, event);
  }

  lemma StartSectionOfToolUse(t: Tracker, event: Value)
    requires StartsToolUse(event)
    ensures var block := Get(Index(event, "contentBlockStart").value, "contentBlock", Dict([])).value;
      var name := Get(block, "name", Str("未知工具")).value;
      var started := Tracker(name, PyNone, PyNone, t.toolCount + 1, Get(block, "id", Str("")).value);
      StartSection(t, event) == Done(Processed(started,
        if name.Str? then Some(StartReply(started.toolCount, name.s, ToolDescription(name.s))) else None))
  {
  }

  /** Without a current tool, neither input nor the end of a block is
      reported. */
  lemma NoToolNoProgress(t: Tracker, event: Value, formatInput: (Value, Value) -> string)
    requires !Truthy(t.currentTool)
    ensures !(DeltaSection(t, event, formatInput).Done? && DeltaSection(t, event, formatInput).result.reply.Some?)
    ensures StopSection(t, event).Done? ==> StopSection(t, event).result.reply.None?
  {
  }

  /** Input is reported only for a dict event whose `contentBlockDelta` is a
      dict naming its block with a `contentBlockIndex` other than None, and
      only while a tool is current. */
  lemma DeltaNeedsIndex(t: Tracker, event: Value, formatInput: (Value, Value) -> string)
    requires DeltaSection(t, event, formatInput).Done? && DeltaSection(t, event, formatInput).result.reply.Some?
    ensures event.Dict? && Lookup(event.entries, "contentBlockDelta").Some?
    ensures var delta := Lookup(event.entries, "contentBlockDelta").value;
      delta.Dict? && Lookup(delta.entries, "contentBlockIndex").Some?
      && Lookup(delta.entries, "contentBlockIndex").value != PyNone
    ensures Truthy(t.currentTool)
  {
  }

  /** A message whose content holds a tool result closes the current tool:
      it becomes None, nothing else changes, and the reply reports the result. */
  lemma ResultClosesTool(t: Tracker, event: Value, formatInput: (Value, Value) -> string,
                         formatOther: (Value, Value) -> string, items: seq<Value>, i: nat)
    requires event.Dict? && !StartsToolUse(event)
    requires Lookup(event.entries, "contentBlockStart").None? && Lookup(event.entries, "contentBlockDelta").None?
    requires Lookup(event.entries, "contentBlockStop").None?
    requires Index(event, "message").Some? && Index(event, "message").value.Dict?
    requires Index(Index(event, "message").value, "content") == Some(List(items))
    requires i < |items| && IsReadableResult(items[i])
    requires forall j :: 0 <= j < i ==> items[j].Dict? && !IsToolResult(items[j])
    ensures var p := Process(t, event, formatInput, formatOther);
      p.tracker == t.(currentTool := PyNone) && p.reply.Some?
  {
    FindResultSplit(items, i);
  }

  lemma {:induction false} FindResultSplit(items: seq<Value>, i: nat)
    requires i < |items| && IsReadableResult(items[i])
    requires forall j :: 0 <= j < i ==> items[j].Dict? && !IsToolResult(items[j])
    ensures FindResult(items).Found?
    decreases i
  {
    if i > 0 {
      FindResultSplit(items[1..], i - 1);
    }
  }

  /** A dict event with none of the four recognised keys yields nothing and
      changes nothing. */
  lemma UnrecognisedEvent(t: Tracker, event: Value, formatInput: (Value, Value) -> string,
                          formatOther: (Value, Value) -> string)
    requires event.Dict?
    requires Lookup(event.entries, "contentBlockStart").None? && Lookup(event.entries, "contentBlockDelta").None?
    requires Lookup(event.entries, "contentBlockStop").None? && Lookup(event.entries, "message").None?
    ensures Process(t, event, formatInput, formatOther) == Processed(t, None)
  {
  }

  // ----- The tracker object -----

  class ToolTracker {
    var currentTool: Value
    var toolInput: Value
    var toolOutput: Value
    var toolCount: int
    var currentToolId: Value

    function State(): Tracker
      reads this
    {
      Tracker(currentTool, toolInput, toolOutput, toolCount, currentToolId)
    }

    constructor ()
      ensures State() == Tracker(PyNone, PyNone, PyNone, 0, PyNone)
    {
      currentTool := PyNone;
      toolInput := PyNone;
      toolOutput := PyNone;
      toolCount := 0;
      currentToolId := PyNone;
    }

    /** process_event. `formatInput` is _format_tool_input (the argument
        summary, which this model leaves out); `formatOther` is the reply
        Python writes for a non-string tool name or result text. */
    method ProcessEvent(event: Value, formatInput: (Value, Value) -> string, formatOther: (Value, Value) -> string)
      returns (reply: Option<string>)
      modifies this
      ensures Processed(State(), reply) == Process(old(State()), event, formatInput, formatOther)
    {
      var done: bool;
      done, reply := ProcessStart(event);
      if done {
        return;
      }
      done, reply := ProcessDelta(event, formatInput);
      if done {
        return;
      }
      done, reply := ProcessStop(event);
      if done {
        return;
      }
      reply := ProcessMessage(event, formatOther);
    }

    /** Lines 27-38 of process_event. */
    method ProcessStart(event: Value) returns (done: bool, reply: Option<string>)
      modifies this
      ensures StartSection(old(State()), event) == (if done then Done(Processed(State(), reply)) else Continue)
      ensures !done ==> State() == old(State())
    {
      done, reply := true, None;
      var hasStart := In("contentBlockStart", event);
      if hasStart.None? {
        return;
      }
      if !hasStart.value {
        return false, None;
      }
      var start := Index(event, "contentBlockStart");
      if start.None? {
        return;
      }
      var block := Get(start.value, "contentBlock", Dict([]));
      if block.None? {
        return;
      }
      var kind := Get(block.value, "type", PyNone);
      if kind.None? {
        return;
      }
      if kind.value != Str("tool_use") {
        return false, None;
      }
      ghost var started := StartSection(State(), event);
      currentTool := Get(block.value, "name", Str("未知工具")).value;
      currentToolId := Get(block.value, "id", Str("")).value;
      toolCount := toolCount + 1;
      toolInput := PyNone;
      toolOutput := PyNone;
      assert started.Done? && started.result.tracker == State();
      if currentTool.Str? {
        var description := ToolDescription(currentTool.s);
        reply := Some(StartReply(toolCount, currentTool.s, description));
      }
    }

    /** Lines 41-49 of process_event. */
    method ProcessDelta(event: Value, formatInput: (Value, Value) -> string) returns (done: bool, reply: Option<string>)
      ensures DeltaSection(State(), event, formatInput) == (if done then Done(Processed(State(), reply)) else Continue)
    {
      done, reply := true, None;
      var hasDelta := In("contentBlockDelta", event);
      if hasDelta.None? {
        return;
      }
      if !hasDelta.value {
        return false, None;
      }
      var delta := Index(event, "contentBlockDelta");
      if delta.None? {
        return;
      }
      var index := Get(delta.value, "contentBlockIndex", PyNone);
      if index.None? {
        return;
      }
      if index.value == PyNone || !Truthy(currentTool) || !In("delta", delta.value).value {
        return false, None;
      }
      var inner := Index(delta.value, "delta").value;
      var hasInput := In("input", inner);
      if hasInput.None? {
        return;
      }
      if !hasInput.value {
        return false, None;
      }
      var input := Index(inner, "input");
      if input.None? {
        return;
      }
      reply := Some(InputReply(formatInput(currentTool, input.value)));
    }

    /** Lines 52-54 of process_event. */
    method ProcessStop(event: Value) returns (done: bool, reply: Option<string>)
      ensures StopSection(State(), event) == (if done then Done(Processed(State(), reply)) else Continue)
    {
      var hasStop := In("contentBlockStop", event);
      if hasStop.None? {
        return true, None;
      }
      if hasStop.value && Truthy(currentTool) {
        return true, Some(InputReadyReply);
      }
      return false, None;
    }

    /** Lines 57-72 of process_event: the message part, then the final
        `return None` when no part ended the call. */
    method ProcessMessage(event: Value, formatOther: (Value, Value) -> string) returns (reply: Option<string>)
      modifies this
      ensures Processed(State(), reply) ==
        match MessageSection(old(State()), event, formatOther)
        case Done(r) => r
        case Continue => Processed(old(State()), None)
    {
      var hasMessage := In("message", event);
      if hasMessage.None? || !hasMessage.value {
        return None;
      }
      var message := Index(event, "message");
      if message.None? {
        return None;
      }
      var hasContent := In("content", message.value);
      if hasContent.None? || !hasContent.value {
        return None;
      }
      var contents := Index(message.value, "content");
      if contents.None? {
        return None;
      }
      var items := Iterate(contents.value);
      if items.None? {
        return None;
      }
      reply := ReadResults(items.value, formatOther);
    }

    /** The loop over a message's content items (lines 60-70). */
    method ReadResults(items: seq<Value>, formatOther: (Value, Value) -> string) returns (reply: Option<string>)
      modifies this
      ensures FindResult(items).NotFound? || FindResult(items).Failed? ==> reply.None? && State() == old(State())
      ensures FindResult(items).Found? ==>
        State() == old(State()).(currentTool := PyNone)
        && reply == Some(ResultReply(old(currentTool), FindResult(items).text, formatOther))
    {
      var i := 0;
      while i < |items|
        invariant 0 <= i <= |items|
        invariant FindResult(items[i..]) == FindResult(items)
        invariant State() == old(State())
      {
        var kind := Get(items[i], "type", PyNone);
        if kind.None? {
          return None;
        }
        var result := Get(items[i], "content", List([])).value;
        if kind.value == Str("tool_result") && Truthy(result) && result.List? && |result.items| > 0 {
          var text := Get(result.items[0], "text", Str("无结果"));
          if text.None? {
            return None;
          }
          var formatted := ResultReply(currentTool, text.value, formatOther);
          currentTool := PyNone;
          return Some(formatted);
        }
        assert items[i..][1..] == items[i + 1..];
        i := i + 1;
      }
      return None;
    }

    /** reset: forgets the current tool and its input and output; the count
        of tools called stays. */
    method Reset()
      modifies this
      ensures State() == Tracker(PyNone, PyNone, PyNone, old(toolCount), old(currentToolId))
    {
      currentTool := PyNone;
      toolInput := PyNone;
      toolOutput := PyNone;
    }
  }
}
