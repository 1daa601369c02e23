/** The chat window of the editor extension: the message list and the
    streaming state its callbacks update, the reader that fills the MCP
    configuration asset from "mcpServers" JSON, and the JSON preview and
    pretty-printer used when showing tool output. */
module AgentWindow {
  import opened Text
  import opened Language
  import opened McpConfiguration
  import opened AgentWindowParsing

  /** One chat entry; the timestamp the source stores is not modelled. */
  datatype ChatMessage = ChatMessage(content: string, isUser: bool)

  /** The cursor shown after a message that is still streaming. */
  const Cursor := "▌"

  /** All chunks of a stream, concatenated in arrival order. */
  function ConcatChunks(chunks: seq<string>): string {
    if chunks == [] then "" else ConcatChunks(chunks[..|chunks| - 1]) + chunks[|chunks| - 1]
  }

  /** The message OnStreamError shows: certificate and SSL failures get a
      titled message with suggestions, everything else a processing-error
      title; both carry the error text itself. */
  function StreamErrorMessage(error: string, lang: Lang): (r: string)
    ensures Contains(r, error)
    ensures (Contains(error, "SSL") || Contains(error, "certificate")) ==> StartsWith(r, "🔒 **")
    ensures !(Contains(error, "SSL") || Contains(error, "certificate")) ==> StartsWith(r, "❌ **")
  {
    if Contains(error, "SSL") || Contains(error, "certificate") then
      var head := "🔒 **" + GetText(lang, "SSL连接错误", "SSL Connection Error") + "**\n\n";
      var tail := "\n\n💡 **" + GetText(lang, "建议", "Suggestions") + "**：\n- "
        + GetText(lang, "检查网络连接", "Check network connection") + "\n- "
        + GetText(lang, "更新系统证书", "Update system certificates") + "\n- "
        + GetText(lang, "检查防火墙设置", "Check firewall settings");
      OccursInMiddle(head, error, tail);
      ContainsAt(head + error + tail, error, |head|);
      assert (head + error + tail)[..|"🔒 **"|] == "🔒 **";
      head + error + tail
    else
      var head := "❌ **" + GetText(lang, "处理错误", "Processing Error") + "**\n\n";
      OccursInMiddle(head, error, "");
      assert head + error + "" == head + error;
      ContainsAt(head + error, error, |head|);
      assert (head + error)[..|"❌ **"|] == "❌ **";
      head + error
  }

  /** The text OnStreamCancelled appends to a partly streamed answer. */
  function CancelNote(lang: Lang): string {
    "\n\n⚠️ " + GetText(lang, "用户取消了响应", "User cancelled response")
  }

  class AIAgentWindow {
    var userInput: string
    var messages: seq<ChatMessage>
    var isProcessing: bool
    var hasActiveStream: bool
    var currentStreamText: string
    var currentStreamingMessageIndex: int
    var mcpConfig: MCPConfiguration
    /** The chunks received since the current stream began. */
    ghost var streamChunks: seq<string>

    /** The streaming bookkeeping: the text is every chunk received so far;
        the index is -1 or the position of the answer being streamed, which
        shows that text followed by the cursor. */
    ghost predicate Valid()
      reads this
    {
      -1 <= currentStreamingMessageIndex < |messages|
      && currentStreamText == ConcatChunks(streamChunks)
      && (currentStreamingMessageIndex >= 0 ==>
            messages[currentStreamingMessageIndex] == ChatMessage(currentStreamText + Cursor, false))
    }

    constructor (config: MCPConfiguration)
      ensures Valid()
      ensures userInput == "" && messages == [] && !isProcessing && !hasActiveStream
      ensures currentStreamText == "" && currentStreamingMessageIndex == -1 && mcpConfig == config
    {
      userInput := "";
      messages := [];
      isProcessing := false;
      hasActiveStream := false;
      currentStreamText := "";
      currentStreamingMessageIndex := -1;
      mcpConfig := config;
      streamChunks := [];
    }

    // -------------------------------------------------------------------------
    // Sending and the stream callbacks

    /** The part of SendMessage before it awaits the stream: a blank input does
        nothing; otherwise the trimmed input is appended as the user's message,
        the input box is cleared and a new stream is opened. */
    method SendMessage() returns (started: bool, currentInput: string)
      requires Valid()
      modifies this
      ensures Valid()
      ensures started <==> !IsBlank(old(userInput))
      ensures !started ==> unchanged(this)
      ensures started ==>
        messages == old(messages) + [ChatMessage(Trim(old(userInput)), true)]
        && currentInput == old(userInput) && userInput == ""
        && currentStreamText == "" && currentStreamingMessageIndex == -1
        && hasActiveStream && isProcessing && streamChunks == []
        && mcpConfig == old(mcpConfig)
    {
      if IsBlank(userInput) {
        return false, "";
      }
      var trimmed := Trim(userInput);
      messages := messages + [ChatMessage(trimmed, true)];
      currentInput := userInput;
      userInput := "";
      currentStreamText := "";
      currentStreamingMessageIndex := -1;
      hasActiveStream := true;
      isProcessing := true;
      streamChunks := [];
      started := true;
    }

    /** The end of SendMessage, once the stream call has returned: `failure`
        is the message of an exception it threw. An exception appends one
        error message; then, if the stream is still marked as processing, its
        state is reset. */
    method FinishSendMessage(failure: Option<string>)
      requires Valid()
      modifies this
      ensures Valid()
      ensures messages == old(messages) + (if failure.Some? then [ChatMessage("错误: " + failure.value, false)] else [])
      ensures !isProcessing && hasActiveStream == old(hasActiveStream)
      ensures (old(isProcessing) && failure.None?) ==> currentStreamText == "" && currentStreamingMessageIndex == -1
      ensures !(old(isProcessing) && failure.None?) ==>
        currentStreamText == old(currentStreamText) && currentStreamingMessageIndex == old(currentStreamingMessageIndex)
      ensures userInput == old(userInput) && mcpConfig == old(mcpConfig)
    {
      if failure.Some? {
        messages := messages + [ChatMessage("错误: " + failure.value, false)];
        isProcessing := false;
      }
      if isProcessing {
        currentStreamText := "";
        currentStreamingMessageIndex := -1;
        streamChunks := [];
        isProcessing := false;
      }
    }

    /** OnStreamChunkReceived: ignored without an active stream; the first
        chunk appends one empty answer and points the index at it; every chunk
        extends the text and shows it, with the cursor, in that answer. */
    method OnStreamChunkReceived(chunk: string)
      requires Valid()
      modifies this
      ensures Valid()
      ensures !old(hasActiveStream) ==> unchanged(this)
      ensures old(hasActiveStream) ==>
        currentStreamText == old(currentStreamText) + chunk
        && streamChunks == old(streamChunks) + [chunk]
        && hasActiveStream == old(hasActiveStream) && isProcessing == old(isProcessing)
        && userInput == old(userInput) && mcpConfig == old(mcpConfig)
      ensures old(hasActiveStream) && old(currentStreamingMessageIndex) == -1 ==>
        currentStreamingMessageIndex == |old(messages)|
        && messages == old(messages) + [ChatMessage(currentStreamText + Cursor, false)]
      ensures old(hasActiveStream) && old(currentStreamingMessageIndex) != -1 ==>
        currentStreamingMessageIndex == old(currentStreamingMessageIndex)
        && messages == old(messages)[currentStreamingMessageIndex := ChatMessage(currentStreamText + Cursor, false)]
    {
      if !hasActiveStream {
        return;
      }
      if currentStreamingMessageIndex == -1 {
        messages := messages + [ChatMessage("", false)];
        currentStreamingMessageIndex := |messages| - 1;
      }
      currentStreamText := currentStreamText + chunk;
      streamChunks := streamChunks + [chunk];
      if 0 <= currentStreamingMessageIndex < |messages| {
        messages := messages[currentStreamingMessageIndex := ChatMessage(currentStreamText + Cursor, false)];
      }
    }

    /** OnStreamComplete: closes the stream, leaves the streamed answer without
        the cursor, and resets the streaming state. */
    method OnStreamComplete()
      requires Valid()
      modifies this
      ensures Valid()
      ensures !hasActiveStream && !isProcessing
      ensures currentStreamText == "" && currentStreamingMessageIndex == -1
      ensures var i := old(currentStreamingMessageIndex);
        if i >= 0
        then messages == old(messages)[i := ChatMessage(old(currentStreamText), false)]
        else messages == old(messages)
      ensures userInput == old(userInput) && mcpConfig == old(mcpConfig)
    {
      hasActiveStream := false;
      if 0 <= currentStreamingMessageIndex < |messages| {
        messages := messages[currentStreamingMessageIndex := ChatMessage(currentStreamText, false)];
      }
      currentStreamText := "";
      currentStreamingMessageIndex := -1;
      streamChunks := [];
      isProcessing := false;
    }

    /** OnStreamError: closes the stream; the answer being streamed is replaced
        by the error message, or, when there is none, the error message is
        appended as a new answer. */
    method OnStreamError(error: string, lang: Lang)
      requires Valid()
      modifies this
      ensures Valid()
      ensures !hasActiveStream && !isProcessing
      ensures currentStreamText == "" && currentStreamingMessageIndex == -1
      ensures var i := old(currentStreamingMessageIndex);
        var m := ChatMessage(StreamErrorMessage(error, lang), false);
        if i >= 0
        then messages == old(messages)[i := m]
        else messages == old(messages) + [m]
      ensures userInput == old(userInput) && mcpConfig == old(mcpConfig)
    {
      hasActiveStream := false;
      isProcessing := false;
      var errorMessage := StreamErrorMessage(error, lang);
      if 0 <= currentStreamingMessageIndex < |messages| {
        messages := messages[currentStreamingMessageIndex := ChatMessage(errorMessage, false)];
      } else {
        messages := messages + [ChatMessage(errorMessage, false)];
      }
      currentStreamText := "";
      currentStreamingMessageIndex := -1;
      streamChunks := [];
    }

    /** OnStreamCancelled: closes the stream; a partly streamed answer with
        some text gets the cancellation note instead of the cursor; otherwise
        the message list is left alone. */
    method OnStreamCancelled(lang: Lang)
      requires Valid()
      modifies this
      ensures Valid()
      ensures !hasActiveStream && !isProcessing
      ensures currentStreamText == "" && currentStreamingMessageIndex == -1
      ensures var i := old(currentStreamingMessageIndex);
        if i >= 0 && old(currentStreamText) != ""
        then messages == old(messages)[i := ChatMessage(old(currentStreamText) + CancelNote(lang), false)]
        else messages == old(messages)
      ensures userInput == old(userInput) && mcpConfig == old(mcpConfig)
    {
      hasActiveStream := false;
      isProcessing := false;
      if 0 <= currentStreamingMessageIndex < |messages| && currentStreamText != "" {
        messages := messages[currentStreamingMessageIndex := ChatMessage(currentStreamText + CancelNote(lang), false)];
      }
      currentStreamText := "";
      currentStreamingMessageIndex := -1;
      streamChunks := [];
    }

    // -------------------------------------------------------------------------
    // Reading "mcpServers" JSON into the configuration asset

    /** UpdateScriptableObjectFromJson: clears the asset's servers, enables MCP
        and reads the servers of the JSON text into it. */
    method UpdateScriptableObjectFromJson(json: string)
      modifies mcpConfig
      ensures mcpConfig.enableMCP
      ensures mcpConfig.servers == match ParsedServers(json) case None => [] case Some(list) => list
      ensures mcpConfig.maxConcurrentConnections == old(mcpConfig.maxConcurrentConnections)
      ensures mcpConfig.defaultTimeoutSeconds == old(mcpConfig.defaultTimeoutSeconds)
    {
      mcpConfig.servers := [];
      mcpConfig.enableMCP := true;
      var _ := ParseServersFromJson(json);
    }

    /** ParseServersFromJson: finds the "mcpServers" object, matches its braces
        and appends the servers defined inside; false when the object cannot
        be delimited, in which case nothing is appended. */
    method ParseServersFromJson(json: string) returns (ok: bool)
      modifies mcpConfig
      ensures ok <==> ParsedServers(json).Some?
      ensures ok ==> mcpConfig.servers == old(mcpConfig.servers) + ParsedServers(json).value
      ensures !ok ==> mcpConfig.servers == old(mcpConfig.servers)
      ensures mcpConfig.enableMCP == old(mcpConfig.enableMCP)
      ensures mcpConfig.maxConcurrentConnections == old(mcpConfig.maxConcurrentConnections)
      ensures mcpConfig.defaultTimeoutSeconds == old(mcpConfig.defaultTimeoutSeconds)
    {
      var mcpServersStart := IndexOf(json, ServersKey, 0);
      if mcpServersStart == -1 {
        return false;
      }
      var braceStart := IndexOfChar(json, '{', mcpServersStart);
      if braceStart == -1 {
        return false;
      }
      var braceEnd, braceCount := FindMatchingBrace(json, braceStart);
      if braceCount > 0 {
        return false;
      }
      var serversContent := json[braceStart + 1..braceEnd - 1];
      ServersContentOf(json, mcpServersStart, braceStart, braceEnd);
      ok := ParseServerDefinitions(serversContent);
    }

    /** ParseServerDefinitions: walks the object's text, appending one server
        for each `"name": { ... }` definition found; always succeeds. */
    method ParseServerDefinitions(serversContent: string) returns (ok: bool)
      modifies mcpConfig
      ensures ok
      ensures mcpConfig.servers == old(mcpConfig.servers) + ServerDefs(serversContent, 0)
      ensures mcpConfig.enableMCP == old(mcpConfig.enableMCP)
      ensures mcpConfig.maxConcurrentConnections == old(mcpConfig.maxConcurrentConnections)
      ensures mcpConfig.defaultTimeoutSeconds == old(mcpConfig.defaultTimeoutSeconds)
    {
      var c := serversContent;
      var index := 0;
      while index < |c|
        invariant 0 <= index
        invariant mcpConfig.servers + ServerDefs(c, index) == old(mcpConfig.servers) + ServerDefs(c, 0)
        invariant mcpConfig.enableMCP == old(mcpConfig.enableMCP)
        invariant mcpConfig.maxConcurrentConnections == old(mcpConfig.maxConcurrentConnections)
        invariant mcpConfig.defaultTimeoutSeconds == old(mcpConfig.defaultTimeoutSeconds)
        decreases |c| - index
      {
        var stop, definition, next := ScanDefinition(c, index);
        ServerDefsStep(c, index);
        if stop { break; }
        ghost var before := mcpConfig.servers;
        if definition.Some? {
          var (serverName, serverConfigContent) := definition.value;
          var server := CreateServerFromConfig(serverName, serverConfigContent);
          mcpConfig.servers := mcpConfig.servers + [server];
        }
        assert mcpConfig.servers == before + ServerOf(definition);
        assert ServerDefs(c, index) == ServerOf(definition) + ServerDefs(c, next);
        AppendAssoc(before, ServerOf(definition), ServerDefs(c, next));
        index := next;
      }
      ok := true;
    }
  }

  /** One turn of ParseServerDefinitions' loop up to the server it builds:
      finds the next quoted name, the colon and the brace after it; skips a
      name that is not directly followed by its colon; otherwise matches the
      braces and reads the name and the text between them when they close. */
  method ScanDefinition(c: string, index: nat) returns (stop: bool, definition: Option<(string, string)>, next: nat)
    requires index < |c|
    ensures stop <==> NextDefinition(c, index).None?
    ensures !stop ==> NextDefinition(c, index) == Some((definition, next))
  {
    definition, next := None, 0;
    var at := FindDefinition(c, index);
    if at.None? { return true, definition, next; }
    var (nameStart, nameEnd, colonIndex, braceIndex) := at.value;
    definition, next := ReadDefinition(c, nameStart, nameEnd, colonIndex, braceIndex);
    stop := false;
  }

  method ReadDefinition(c: string, nameStart: nat, nameEnd: nat, colonIndex: nat, braceIndex: nat)
    returns (definition: Option<(string, string)>, next: nat)
    requires nameStart < nameEnd < colonIndex < braceIndex < |c| && '"' !in c[nameStart + 1..nameEnd]
    ensures (definition, next) == Definition(c, nameStart, nameEnd, colonIndex, braceIndex)
  {
    definition := None;
    var between := Trim(c[nameEnd + 1..colonIndex]);
    if between != "" {
      return definition, nameEnd + 1;
    }
    var serverName := c[nameStart + 1..nameEnd];
    var configEnd, braceCount := FindMatchingBrace(c, braceIndex);
    if braceCount == 0 {
      var serverConfigContent := c[braceIndex + 1..configEnd - 1];
      definition := Some((serverName, serverConfigContent));
    }
    next := configEnd;
  }

  /** The four searches at the head of ParseServerDefinitions' loop: the
      quotes around the next name, the colon after it and the brace after
      that. */
  method FindDefinition(c: string, index: nat) returns (at: Option<(nat, nat, nat, nat)>)
    requires index < |c|
    ensures at == DefinitionAt(c, index)
  {
    var nameStart := IndexOfChar(c, '"', index);
    if nameStart == -1 { return None; }
    var nameEnd := IndexOfChar(c, '"', nameStart + 1);
    if nameEnd == -1 { return None; }
    var colonIndex := IndexOfChar(c, ':', nameEnd);
    if colonIndex == -1 { return None; }
    var braceIndex := IndexOfChar(c, '{', colonIndex);
    if braceIndex == -1 { return None; }
    at := Some((nameStart, nameEnd, colonIndex, braceIndex));
  }

  /** The brace-matching loop shared by the reader: from the opening brace at
      `braceStart`, the position just after its matching brace and the depth
      left open (zero when it was found). */
  method FindMatchingBrace(s: string, braceStart: nat) returns (braceEnd: nat, braceCount: nat)
    requires braceStart < |s|
    ensures (braceEnd, braceCount) == ScanBraces(s, braceStart + 1, 1)
  {
    braceCount := 1;
    braceEnd := braceStart + 1;
    while braceEnd < |s| && braceCount > 0
      invariant braceStart + 1 <= braceEnd <= |s|
      invariant ScanBraces(s, braceEnd, braceCount) == ScanBraces(s, braceStart + 1, 1)
      decreases |s| - braceEnd
    {
      if s[braceEnd] == '{' {
        braceCount := braceCount + 1;
      } else if s[braceEnd] == '}' {
        braceCount := braceCount - 1;
      }
      braceEnd := braceEnd + 1;
    }
  }

  /** CreateServerFromConfig: a new enabled stdio server with the given name,
      its command, args and environment read from the configuration text. */
  method CreateServerFromConfig(serverName: string, configContent: string) returns (server: ServerConfig)
    ensures server == ServerFromConfig(serverName, configContent)
  {
    server := NewServer().(name := serverName, enabled := true, transportType := Stdio, environmentVariables := []);
    server := server.(command := StringValue(configContent, "command"));
    var args := ExtractArrayValue(configContent, "args");
    server := server.(args := args);
    server := ParseEnvironmentVariables(server, configContent);
  }

  /** ExtractArrayValue: the quoted elements of the array after `"field":`. */
  method ExtractArrayValue(content: string, fieldName: string) returns (result: seq<string>)
    ensures result == ArrayValue(content, fieldName)
  {
    result := [];
    var arrayContent := ArrayContent(content, fieldName);
    if arrayContent.None? {
      return;
    }
    var parts := Split(arrayContent.value, ',');
    var i := 0;
    while i < |parts|
      invariant 0 <= i <= |parts|
      invariant result == QuotedItems(parts[..i])
    {
      QuotedItemsStep(parts, i);
      var trimmed := Trim(parts[i]);
      if StartsWith(trimmed, "\"") && EndsWith(trimmed, "\"") && |trimmed| > 1 {
        result := result + [trimmed[1..|trimmed| - 1]];
      }
      i := i + 1;
    }
    TakeAll(parts);
  }

  /** ParseEnvironmentVariables: appends to the server's environment every
      "key: value" line of the env object whose key is not empty. */
  method ParseEnvironmentVariables(server: ServerConfig, configContent: string) returns (updated: ServerConfig)
    ensures updated == server.(environmentVariables := server.environmentVariables + EnvVars(configContent))
  {
    var envContent := EnvContent(configContent);
    if envContent.None? {
      AppendEmpty(server.environmentVariables);
      return server;
    }
    var lines := NonEmpty(SplitAny(envContent.value, EnvSeparators));
    var added := [];
    var i := 0;
    while i < |lines|
      invariant 0 <= i <= |lines|
      invariant added == EnvEntries(lines[..i])
    {
      EnvEntriesStep(lines, i);
      added := added + EnvEntry(lines[i]);
      i := i + 1;
    }
    TakeAll(lines);
    assert added == EnvVars(configContent);
    updated := server.(environmentVariables := server.environmentVariables + added);
  }
}
