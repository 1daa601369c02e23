# Unity Strands Agent — a Dafny model of its core

The Unity Strands Agent is a Unity editor extension: an AI chat window inside the editor that talks to a
Python agent built on the Strands Agents SDK. Tools are reached through MCP (Model Context Protocol) servers.
This project models the parts of it that hold state and parse text:

- **MCP server configuration** (`McpConfiguration`). The `MCPConfiguration` asset holds a list of servers.
  It filters the enabled ones, validates them, and writes them out as Anthropic-style `mcpServers` JSON.
  JSON string escaping is proved to read back.
- **The chat window** (`AgentWindow`, `AgentWindowParsing`, `AgentWindowFormat`). `AIAgentWindow` handles
  sending a message and the four streaming callbacks (chunk, complete, error, cancelled). It also has a
  hand-written parser that turns `mcpServers` JSON back into server configurations, a JSON pretty-printer
  and a 50-character preview.
- **The setup wizard** (`SetupWizard`). It covers cancel and reset, regenerating the JSON from the asset,
  and the "simple" Anthropic-format parser that recognises an `mcp-unity` server. It also covers the
  quoted-value and `args` array extractors and the serialisable record of a configuration.
- **The streaming handler** (`StreamingHandler`). This is the C# side of a streamed answer. Chunks from the
  Python bridge are queued and drained. The handler forwards text, fires completion or error at most once,
  and handles cancellation, play-mode switches and disposal.
- **The Python side**:
  - `ToolTracker` follows tool-use events and produces progress lines (`tool_tracker.py`).
  - `McpManager` loads the Unity MCP configuration, converts Anthropic format to the internal one and
    reports reload counts (`mcp_manager.py`).
  - `StreamingProcessor` extracts text, tool details and tool icons from stream chunks
    (`streaming_processor.py`).
  - `RecipeCatalog` is the recipe MCP server of the tutorial (`strands_mcp_server.py`).
- **Path configuration** (`PathConfig`). `PathConfiguration` resolves relative and `~/` paths, picks the
  first existing Python executable and SSL certificate, validates the configuration and fills in defaults.

Shared vocabulary lives in `Text` (trimming, searching, splitting, ASCII lower-casing) and `PyValues`, where
Python values are a datatype and a dict is an ordered list of entries whose lookup returns the last binding.
`Language.GetText` models the editor's bilingual text choice.

Where the C# code changes an object's fields, the model is a `class` whose methods say the whole new state.
Where a loop computes a value, the model is a method with a loop, proved equal to a recursive specification
function. The properties are lemmas about those functions.

## Model

| member | source | states |
|---|---|---|
| Language.GetText | demo/02_unity_strands_agent/Editor/LanguageManager.cs:68-71 | the localised text is one of the two texts given |
| McpConfiguration.MCPConfiguration.constructor | 08_unity_strands_agent/Editor/MCPConfiguration.cs:65-73 | a new asset has MCP disabled, 5 concurrent connections, a 30-second timeout and no servers |
| McpConfiguration.MCPConfiguration.GetEnabledServers | 08_unity_strands_agent/Editor/MCPConfiguration.cs:78-89 | the result holds exactly the enabled servers of the list, in list order |
| McpConfiguration.EnabledOfAppend | 08_unity_strands_agent/Editor/MCPConfiguration.cs:78-89 | filtering the enabled servers distributes over concatenation of server lists |
| McpConfiguration.EnabledOfMembers | 08_unity_strands_agent/Editor/MCPConfiguration.cs:78-89 | a server is in the filtered list iff it is in the list and enabled; the filtered list is no longer than the list |
| McpConfiguration.EnabledOfEmpty | 08_unity_strands_agent/Editor/MCPConfiguration.cs:110-116 | no server survives the filter iff every server is disabled |
| McpConfiguration.ServerProblem | 08_unity_strands_agent/Editor/MCPConfiguration.cs:118-148 | a server yields no error message iff it has a name, a command when stdio, and an absolute URL when remote |
| McpConfiguration.FirstProblem | 08_unity_strands_agent/Editor/MCPConfiguration.cs:118-150 | no message iff every server is valid; any message reported is the message of some server of the list |
| McpConfiguration.MCPConfiguration.ValidateConfiguration | 08_unity_strands_agent/Editor/MCPConfiguration.cs:95-153 | disabled MCP is valid with its message; no servers or no enabled server is invalid with its message; otherwise valid iff some server is enabled and every enabled server is valid, with an empty message |
| McpConfiguration.MCPConfiguration.GenerateAnthropicMCPJson | 08_unity_strands_agent/Editor/MCPConfiguration.cs:158-251 | the builder's output is the `mcpServers` document of the enabled servers, in order |
| McpConfiguration.WriteServerBlock | 08_unity_strands_agent/Editor/MCPConfiguration.cs:163-166 | one server's block: the name key as it is, unescaped, then the body, and a comma unless it is the last enabled server |
| McpConfiguration.WriteServerBody | 08_unity_strands_agent/Editor/MCPConfiguration.cs:168-241 | a stdio server writes command, args and env; a remote server writes its mapped transport, its url and, when it has variables, headers |
| McpConfiguration.WriteArgsItems | 08_unity_strands_agent/Editor/MCPConfiguration.cs:174-183 | the args loop writes each escaped argument quoted, comma-separated |
| McpConfiguration.WriteEnvLines | 08_unity_strands_agent/Editor/MCPConfiguration.cs:186-197 | the env loop writes one escaped `"key": "value"` line per variable with a non-empty key |
| McpConfiguration.WriteEnvLine | 08_unity_strands_agent/Editor/MCPConfiguration.cs:187-196 | one variable's line: nothing for an empty key; otherwise the escaped `"key": "value"`, a comma unless it is the last index, and a line break |
| McpConfiguration.EscapeIsPerChar | 08_unity_strands_agent/Editor/MCPConfiguration.cs:256-265 | the chain of five string replacements escapes each character independently |
| McpConfiguration.EscapeRoundTrip | 08_unity_strands_agent/Editor/MCPConfiguration.cs:256-265 | reading the escaped text back as a JSON string body recovers the original, and stops at the closing quote |
| McpConfiguration.EscapeUnescaped | 08_unity_strands_agent/Editor/MCPConfiguration.cs:256-265 | text without backslash, quote, newline, carriage return or tab is written unchanged |
| McpConfiguration.EscapeHasNoLineBreaks | 08_unity_strands_agent/Editor/MCPConfiguration.cs:256-265 | escaped text contains no raw newline, carriage return or tab |
| AgentWindow.StreamErrorMessage | 08_unity_strands_agent/Editor/AIAgentWindow.cs:2246-2254 | the error text is always shown; an SSL or certificate error gets the lock prefix, any other the cross prefix |
| AgentWindow.AIAgentWindow.constructor | 08_unity_strands_agent/Editor/AIAgentWindow.cs:45-51 | an empty input, no messages, not processing, no active stream, no streaming message |
| AgentWindow.AIAgentWindow.SendMessage | 08_unity_strands_agent/Editor/AIAgentWindow.cs:2021-2040 | a blank input changes nothing; otherwise the trimmed input becomes a user message, the input is cleared and a stream is opened |
| AgentWindow.AIAgentWindow.FinishSendMessage | 08_unity_strands_agent/Editor/AIAgentWindow.cs:2060-2082 | a failure appends an error message; processing ends; a stream still marked processing is reset |
| AgentWindow.AIAgentWindow.OnStreamChunkReceived | 08_unity_strands_agent/Editor/AIAgentWindow.cs:2183-2214 | without an active stream nothing changes; otherwise the chunk is appended and one assistant message (created on the first chunk) shows the text with a cursor |
| AgentWindow.AIAgentWindow.OnStreamComplete | 08_unity_strands_agent/Editor/AIAgentWindow.cs:2216-2236 | the streaming message keeps the final text without the cursor, and the stream state is reset |
| AgentWindow.AIAgentWindow.OnStreamError | 08_unity_strands_agent/Editor/AIAgentWindow.cs:2238-2279 | the error message replaces the streaming message, or is appended when there is none, and the stream state is reset |
| AgentWindow.AIAgentWindow.OnStreamCancelled | 08_unity_strands_agent/Editor/AIAgentWindow.cs:2281-2301 | a partly streamed message gets the cancellation note; the stream state is reset |
| AgentWindow.AIAgentWindow.UpdateScriptableObjectFromJson | 08_unity_strands_agent/Editor/AIAgentWindow.cs:2697-2717 | the asset's servers are replaced by the parsed servers (none when the JSON has no `mcpServers`) and MCP is enabled |
| AgentWindow.AIAgentWindow.ParseServersFromJson | 08_unity_strands_agent/Editor/AIAgentWindow.cs:2719-2753 | succeeds iff an `mcpServers` object is found; then the parsed servers are appended, otherwise nothing changes |
| AgentWindow.AIAgentWindow.ParseServerDefinitions | 08_unity_strands_agent/Editor/AIAgentWindow.cs:2755-2811 | the definition loop appends exactly the servers of the specification's definition scan |
| AgentWindow.ScanDefinition | 08_unity_strands_agent/Editor/AIAgentWindow.cs:2759-2808 | one loop iteration: stop iff no further definition, else the definition found and the next position |
| AgentWindow.ReadDefinition | 08_unity_strands_agent/Editor/AIAgentWindow.cs:2776-2807 | reads the name and the brace-matched config text of one definition |
| AgentWindow.FindDefinition | 08_unity_strands_agent/Editor/AIAgentWindow.cs:2762-2773 | finds the quoted name, the colon and the opening brace of the next definition |
| AgentWindow.FindMatchingBrace | 08_unity_strands_agent/Editor/AIAgentWindow.cs:2787-2796 | the brace-counting loop stops where the brace scan says |
| AgentWindow.CreateServerFromConfig | 08_unity_strands_agent/Editor/AIAgentWindow.cs:2813-2839 | the server built from a config text is the specification's server of that text |
| AgentWindow.ExtractArrayValue | 08_unity_strands_agent/Editor/AIAgentWindow.cs:2859-2890 | the array loop keeps exactly the quoted items of the field's array |
| AgentWindow.ParseEnvironmentVariables | 08_unity_strands_agent/Editor/AIAgentWindow.cs:2892-2943 | the variables read from the `env` object are appended to the server's variables |
| AgentWindowParsing.ScanBraces | 08_unity_strands_agent/Editor/AIAgentWindow.cs:2787-2796 | the scan ends in the text; when open braces remain it ran to the end; a match lies past the start |
| AgentWindowParsing.ScanBracesMatch | 08_unity_strands_agent/Editor/AIAgentWindow.cs:2787-2796 | a match ends on a `}` that closes the opening brace, with the depth never falling to zero before it |
| AgentWindowParsing.MatchedContentBalanced | 08_unity_strands_agent/Editor/AIAgentWindow.cs:2730-2742 | the text between an opening brace and its match is brace-balanced |
| AgentWindowParsing.ServersContentSpec | 08_unity_strands_agent/Editor/AIAgentWindow.cs:2724-2742 | no `mcpServers` key means no content; content found is balanced and enclosed by a brace pair of the JSON |
| AgentWindowParsing.StringValueShape | 08_unity_strands_agent/Editor/AIAgentWindow.cs:2841-2857 | a missing field reads as the empty string; a value read never contains a quote |
| AgentWindowParsing.StringValueReadsBack | 08_unity_strands_agent/Editor/AIAgentWindow.cs:2841-2857 | a `"field": "value"` pair written into a text is read back as the value |
| AgentWindowParsing.QuotedItemsFromPieces | 08_unity_strands_agent/Editor/AIAgentWindow.cs:2879-2887 | every item kept is the unquoted form of some trimmed comma-separated piece |
| AgentWindowParsing.QuotedItemsAllQuoted | 08_unity_strands_agent/Editor/AIAgentWindow.cs:2879-2887 | when every piece is a quoted string, all of them are kept, in order |
| AgentWindowParsing.ArrayValue | 08_unity_strands_agent/Editor/AIAgentWindow.cs:2859-2890 | a field without an array reads as an empty list |
| AgentWindowParsing.EnvEntry | 08_unity_strands_agent/Editor/AIAgentWindow.cs:2922-2942 | a line gives at most one variable, with a non-empty key and never secret |
| AgentWindowParsing.EnvVars | 08_unity_strands_agent/Editor/AIAgentWindow.cs:2892-2943 | no `env` object gives no variables; every variable read has a non-empty key and is not secret |
| AgentWindowParsing.EnvEntryReadsBack | 08_unity_strands_agent/Editor/AIAgentWindow.cs:2922-2942 | an entry `"key": "value"` after white space, with a non-empty key free of quotes and colons and a value free of quotes, reads back as exactly that variable, not secret |
| AgentWindowParsing.ReadEnvAt | 08_unity_strands_agent/Editor/AIAgentWindow.cs:2919-2921 | a comma or line break splits what is read into what is read on either side, in order |
| AgentWindowParsing.ReadBlank | 08_unity_strands_agent/Editor/AIAgentWindow.cs:2919-2925 | white space without a line break yields no variable |
| AgentWindowParsing.ScanBraceFree | 08_unity_strands_agent/Editor/AIAgentWindow.cs:2904-2915 | with no brace before the closing one, the brace count reaches zero just past it |
| AgentWindowParsing.EnvContentOf | 08_unity_strands_agent/Editor/AIAgentWindow.cs:2894-2917 | after text with no earlier `"env"` key, the env body is the text between the brace after the key's colon and the closing brace, when the body holds no brace |
| AgentWindowParsing.EnvLinesReadBack | 08_unity_strands_agent/Editor/AIAgentWindow.cs:2919-2942 | the entry lines the configuration writer produces for plain variables read back as those variables, in order |
| AgentWindowParsing.EnvObjectRoundTrip | 08_unity_strands_agent/Editor/AIAgentWindow.cs:2892-2943 | the `"env": {…}` object the configuration writer lays out reads back as the variables written, in order, when each key is non-empty without colon and no key or value holds a quote, backslash, control character, comma or brace |
| AgentWindowParsing.ServerFromConfig | 08_unity_strands_agent/Editor/AIAgentWindow.cs:2813-2839 | a parsed server keeps its name, is enabled and uses stdio |
| AgentWindowParsing.NextDefinition | 08_unity_strands_agent/Editor/AIAgentWindow.cs:2759-2808 | each step moves strictly forward; a server name read contains no quote |
| AgentWindowParsing.ServerDefs | 08_unity_strands_agent/Editor/AIAgentWindow.cs:2755-2811 | every server parsed from the definitions is enabled stdio with a quote-free name |
| AgentWindowParsing.ParsedServers | 08_unity_strands_agent/Editor/AIAgentWindow.cs:2719-2753 | parsing yields servers iff the `mcpServers` object is found |
| AgentWindowFormat.JsonPreview | 08_unity_strands_agent/Editor/AIAgentWindow.cs:1955-1965 | at most 50 characters; short JSON is shown whole, long JSON as its first 47 characters and `...` |
| AgentWindowFormat.FormatJsonString | 08_unity_strands_agent/Editor/AIAgentWindow.cs:1967-2019 | the line-indenting loop produces the specification's formatted text |
| AgentWindowFormat.IndentLine | 08_unity_strands_agent/Editor/AIAgentWindow.cs:1993-2009 | one loop step: the indent shrinks before a closing line, grows after an opening line |
| AgentWindowFormat.ExpandKeepsText | 08_unity_strands_agent/Editor/AIAgentWindow.cs:1977-1984 | the replacement chain only inserts white space |
| AgentWindowFormat.FormatLinesKeepsText | 08_unity_strands_agent/Editor/AIAgentWindow.cs:1990-2010 | re-indenting the lines keeps every non-white character, in order |
| AgentWindowFormat.FormatJsonKeepsText | 08_unity_strands_agent/Editor/AIAgentWindow.cs:1967-2012 | formatting changes only white space: the non-white characters of input and output agree |
| AgentWindowFormat.FormatJsonTrimmed | 08_unity_strands_agent/Editor/AIAgentWindow.cs:2012 | the formatted text starts and ends with a non-white character, or is empty |
| SetupWizard.SetupWizard.constructor | 07_unity_strands_agent/Editor/SetupWizard.cs:24-38 | a new wizard is at step 0 with no status, no progress, no asset and no JSON |
| SetupWizard.SetupWizard.CancelSetup | 07_unity_strands_agent/Editor/SetupWizard.cs:642-648 | cancelling stops processing, sets the cancelled status and rewinds to step 0 |
| SetupWizard.SetupWizard.ResetMCPConfig | 07_unity_strands_agent/Editor/SetupWizard.cs:1400-1413 | with an asset: MCP disabled, 3 connections, 30 seconds, no servers, and the JSON of no servers; the step, status, progress and flags are kept |
| SetupWizard.SetupWizard.UpdateMCPJsonConfig | 07_unity_strands_agent/Editor/SetupWizard.cs:945-951 | the wizard's JSON becomes the document of the asset's enabled servers (kept without an asset); the step, status, progress and flags are kept |
| SetupWizard.SetupWizard.TryParseAnthropicFormat | 07_unity_strands_agent/Editor/SetupWizard.cs:1025-1039 | without `mcpServers` it fails unchanged; otherwise it clears the servers and succeeds iff the `mcp-unity` server is recognised |
| SetupWizard.SetupWizard.TryParseAnthropicFormatSimple | 07_unity_strands_agent/Editor/SetupWizard.cs:1254-1326 | succeeds iff the text contains `mcp-unity`, `node` and `UNITY_PORT`; then that server is appended and MCP enabled |
| SetupWizard.FindPackageArgs | 07_unity_strands_agent/Editor/SetupWizard.cs:1280-1312 | the backward scan for the path's opening quote and the forward search for its closing quote give the argument the package-path rule describes; the server path is used only when the pattern is missing or opens the text |
| SetupWizard.SetupWizard.GenerateJsonConfigFromMCPConfig | 07_unity_strands_agent/Editor/SetupWizard.cs:718-747 | the record carries the asset's settings and one serialised server per server, in order |
| SetupWizard.ExtractQuotedValue | 07_unity_strands_agent/Editor/SetupWizard.cs:1329-1341 | a value read never contains a quote |
| SetupWizard.QuotedValueOfPair | 07_unity_strands_agent/Editor/SetupWizard.cs:1329-1341 | on a `"key": "value"` line the value is read |
| SetupWizard.QuotedValueOfSingle | 07_unity_strands_agent/Editor/SetupWizard.cs:1329-1341 | a line with one quoted string reads as that string |
| SetupWizard.QuotedValueOfUnquoted | 07_unity_strands_agent/Editor/SetupWizard.cs:1329-1341 | a line without quotes reads as the empty string |
| SetupWizard.ParseArgsArray | 07_unity_strands_agent/Editor/SetupWizard.cs:1343-1362 | the splitting loop gives the specification's argument list, and an error when `]` precedes `[` |
| SetupWizard.ArgsArrayUnbracketed | 07_unity_strands_agent/Editor/SetupWizard.cs:1345-1347 | a line without both brackets gives no arguments |
| SetupWizard.ArgsArrayElements | 07_unity_strands_agent/Editor/SetupWizard.cs:1343-1362 | there is one argument per comma plus one; no argument has a comma or an outer quote |
| SetupWizard.ArgsArrayRoundTrip | 07_unity_strands_agent/Editor/SetupWizard.cs:1343-1362 | the args array written for the JSON document is read back as the same arguments |
| SetupWizard.PathStartSpec | 07_unity_strands_agent/Editor/SetupWizard.cs:1285-1289 | the backward search stops just after the nearest quote, or at the start |
| SetupWizard.PackageArgAroundPattern | 07_unity_strands_agent/Editor/SetupWizard.cs:1280-1302 | the package path taken from the JSON contains the server pattern and no quote |
| SetupWizard.McpUnityServerValid | 07_unity_strands_agent/Editor/SetupWizard.cs:1263-1318 | the recognised `mcp-unity` server is an enabled stdio server that passes validation |
| SetupWizard.TransportNameRoundTrip | 07_unity_strands_agent/Editor/SetupWizard.cs:736 | the lower-cased transport name reads back as the same transport |
| SetupWizard.SerializeRoundTrip | 07_unity_strands_agent/Editor/SetupWizard.cs:1723-1746 | the serialised server record converts back to the server, without its environment variables |
| StreamingHandler.StreamingHandler.constructor | demo/unity-strands-agent/Editor/StreamingHandler.cs:16-26 | idle, nothing queued, subscribers present, no events |
| StreamingHandler.StreamingHandler.BeginStreaming | demo/unity-strands-agent/Editor/StreamingHandler.cs:76-88 | refuses while already streaming; otherwise starts, resets completion and announces the start |
| StreamingHandler.StreamingHandler.FinishStreaming | demo/unity-strands-agent/Editor/StreamingHandler.cs:90-130 | a failure is queued and drained, a cancellation is announced, and streaming ends in every case |
| StreamingHandler.StreamingHandler.StopStreaming | demo/unity-strands-agent/Editor/StreamingHandler.cs:135-160 | stopping a stream marks it complete and cancelled and fires no completion or error |
| StreamingHandler.StreamingHandler.OnBridgeChunk | demo/unity-strands-agent/Editor/StreamingHandler.cs:171-187 | a text chunk of a live stream is queued and drained; otherwise it is dropped |
| StreamingHandler.StreamingHandler.OnBridgeComplete | demo/unity-strands-agent/Editor/StreamingHandler.cs:188-204 | the completion of a live stream is queued and drained; otherwise it is dropped |
| StreamingHandler.StreamingHandler.OnBridgeError | demo/unity-strands-agent/Editor/StreamingHandler.cs:205-214 | an error is queued and drained |
| StreamingHandler.StreamingHandler.EnqueueChunk | demo/unity-strands-agent/Editor/StreamingHandler.cs:234-240 | the queue is drained, and the completion and error count grows by those the drain fires |
| StreamingHandler.StreamingHandler.ProcessSingleChunk | demo/unity-strands-agent/Editor/StreamingHandler.cs:245-268 | unless a drain is already running, every queued chunk is handled in order and the queue emptied |
| StreamingHandler.StreamingHandler.ProcessAllQueuedChunks | demo/unity-strands-agent/Editor/StreamingHandler.cs:273-287 | only the non-empty text chunks of the queue are forwarded; no completion or error fires |
| StreamingHandler.StreamingHandler.HandleChunk | demo/unity-strands-agent/Editor/StreamingHandler.cs:293-327 | one chunk is dispatched by type; completion and error fire only while not yet completed |
| StreamingHandler.StreamingHandler.Dispose | demo/unity-strands-agent/Editor/StreamingHandler.cs:332-350 | a running stream is cancelled (its cancellation reported, completed and cancel requested), the queue emptied and the subscribers removed; an idle handler keeps its flags |
| StreamingHandler.StreamingHandler.InterruptStream | demo/unity-strands-agent/Editor/StreamingHandler.cs:40-54 | on leaving a mode the queue is flushed, the warning shown and the stream cancelled, with no completion or error |
| StreamingHandler.StreamingHandler.OnPlayModeStateChanged | demo/unity-strands-agent/Editor/StreamingHandler.cs:35-62 | as written: leaving a mode during a stream flushes the queued text, reports the warning, the cancellation and then completion unconditionally, so one more completion is added to those already fired |
| StreamingHandler.StreamingHandler.OnPlayModeStateChangedGuarded | demo/unity-strands-agent/Editor/StreamingHandler.cs:35-62 | corrected: the same callbacks, with completion reported only if the stream was not completed; afterwards exactly one completion or error has fired since the stream started |
| StreamingHandler.CompletedTwiceOnModeSwitch | demo/unity-strands-agent/Editor/StreamingHandler.cs:54-58 | a stream whose completion was handled and whose mode then switches reports completion twice |
| StreamingHandler.TerminalsAppend | demo/unity-strands-agent/Editor/StreamingHandler.cs:293-327 | completions and errors of two event runs add up |
| StreamingHandler.SinceStartAppend | demo/unity-strands-agent/Editor/StreamingHandler.cs:78-88 | events after the last stream start are extended by later events with no start |
| StreamingHandler.HandleAllNoStart | demo/unity-strands-agent/Editor/StreamingHandler.cs:293-327 | draining the queue never announces a stream start |
| StreamingHandler.HandleAllAtMostOnce | demo/unity-strands-agent/Editor/StreamingHandler.cs:293-327 | draining fires at most one completion or error, and none once completed |
| StreamingHandler.HandleAllExactlyOnce | demo/unity-strands-agent/Editor/StreamingHandler.cs:293-327 | with subscribers, a drain that completes the stream fires exactly one completion or error |
| StreamingHandler.HandleAllInOrder | demo/unity-strands-agent/Editor/StreamingHandler.cs:245-268 | text chunks are forwarded in queue order, and completion is unchanged |
| StreamingHandler.ForwardedOnlyText | demo/unity-strands-agent/Editor/StreamingHandler.cs:273-287 | a flush forwards only non-empty text, at most one event per chunk |
| StreamingHandler.ForwardedNoTerminal | demo/unity-strands-agent/Editor/StreamingHandler.cs:273-287 | a flush fires no completion or error |
| StreamingHandler.InterruptedNoTerminal | demo/unity-strands-agent/Editor/StreamingHandler.cs:319-325 | an interruption chunk fires no completion or error and leaves completion unchanged |
| StreamingHandler.HandleAllOne | demo/unity-strands-agent/Editor/StreamingHandler.cs:245-268 | draining a one-chunk queue handles just that chunk |
| ToolTracker.ToolTracker.constructor | demo/02_unity_strands_agent/Python/tool_tracker.py:15-20 | no current tool, no input or output, zero tools, no tool id |
| ToolTracker.ToolTracker.ProcessEvent | demo/02_unity_strands_agent/Python/tool_tracker.py:22-76 | the reply and new tracker state are those of the specification's event processing |
| ToolTracker.ToolTracker.ProcessStart | demo/02_unity_strands_agent/Python/tool_tracker.py:27-38 | a tool_use block start ends the call with the counted, named tool; any other event passes on with the state unchanged |
| ToolTracker.ToolTracker.ProcessDelta | demo/02_unity_strands_agent/Python/tool_tracker.py:41-49 | input is reported only for a delta that names its block while a tool is current; otherwise the event passes on |
| ToolTracker.ToolTracker.ProcessStop | demo/02_unity_strands_agent/Python/tool_tracker.py:52-54 | the end of a block is reported only while a tool is current |
| ToolTracker.ToolTracker.ProcessMessage | demo/02_unity_strands_agent/Python/tool_tracker.py:57-72 | a message carrying a tool result closes the current tool and reports the result; an event no part recognised yields nothing |
| ToolTracker.ToolTracker.ReadResults | demo/02_unity_strands_agent/Python/tool_tracker.py:60-70 | the first tool result in the message closes the current tool with its formatted reply; no result or a failure changes nothing |
| ToolTracker.ToolTracker.Reset | demo/02_unity_strands_agent/Python/tool_tracker.py:194-198 | the tool, input and output are cleared; the tool count and tool id survive |
| ToolTracker.ProcessCounts | demo/02_unity_strands_agent/Python/tool_tracker.py:27-38 | the tool count grows by one exactly on a tool-use start, which records the tool's name and id |
| ToolTracker.NonStartKeepsCount | demo/02_unity_strands_agent/Python/tool_tracker.py:41-76 | any other event at most clears the current tool |
| ToolTracker.StartReplies | demo/02_unity_strands_agent/Python/tool_tracker.py:27-38 | a tool-use start replies iff the tool name is a string, with the numbered start line and description |
| ToolTracker.DeltaNeedsIndex | demo/02_unity_strands_agent/Python/tool_tracker.py:41-49 | input is reported only for a dict event whose `contentBlockDelta` is a dict with a `contentBlockIndex` other than None, while a tool is current |
| ToolTracker.NoToolNoProgress | demo/02_unity_strands_agent/Python/tool_tracker.py:41-54 | without a current tool, input deltas and block stops give no reply |
| ToolTracker.ResultClosesTool | demo/02_unity_strands_agent/Python/tool_tracker.py:57-70 | a message holding a tool result replies and clears the current tool |
| ToolTracker.UnrecognisedEvent | demo/02_unity_strands_agent/Python/tool_tracker.py:22-72 | an event of no known kind changes nothing and gives no reply |
| ToolTracker.FindResultFirst | demo/02_unity_strands_agent/Python/tool_tracker.py:60-70 | a result found is the first tool result of the list, after only non-result dicts |
| ToolTracker.FindResultNone | demo/02_unity_strands_agent/Python/tool_tracker.py:60-70 | a list of non-result dicts yields no result |
| ToolTracker.FindResultSplit | demo/02_unity_strands_agent/Python/tool_tracker.py:60-70 | a readable result after only non-result dicts is found |
| ToolTracker.DescriptionIgnoresPrefix | demo/02_unity_strands_agent/Python/tool_tracker.py:78-95 | a dotted prefix on the tool name does not change its description |
| ToolTracker.CleanNameOfPrefixed | demo/02_unity_strands_agent/Python/tool_tracker.py:81 | the clean name is the part after the last dot |
| ToolTracker.UnknownToolDescription | demo/02_unity_strands_agent/Python/tool_tracker.py:78-95 | an unknown tool is described generically by its clean name |
| ToolTracker.TruncateTwice | demo/02_unity_strands_agent/Python/tool_tracker.py:148-149 | truncating at 300 characters twice is truncating once |
| ToolTracker.FormatSeesTruncation | demo/02_unity_strands_agent/Python/tool_tracker.py:141-192 | formatting a result depends only on its first 300 characters |
| ToolTracker.FormatOtherTool | demo/02_unity_strands_agent/Python/tool_tracker.py:141-192 | an unlisted tool's result is the truncated text, with `...` past 300 characters |
| ToolTracker.FormatToolResultBounded | demo/02_unity_strands_agent/Python/tool_tracker.py:141-192 | a formatted result is at most 313 characters |
| McpManager.McpManager.constructor | demo/unity-strands-agent/Python/mcp_manager.py:29-33 | no clients, no tools, no configuration |
| McpManager.McpManager.Cleanup | demo/unity-strands-agent/Python/mcp_manager.py:35-61 | clients and tools are dropped; the configuration is kept |
| McpManager.McpManager.ReloadConfig | demo/unity-strands-agent/Python/mcp_manager.py:337-380 | clients and tools are dropped, the configuration is reloaded, and the report counts its servers |
| McpManager.MapTransport | demo/unity-strands-agent/Python/mcp_manager.py:244-251 | only `sse` maps to `sse`; every other hashable transport maps to `streamable_http`; a list or dict, being unhashable, raises |
| McpManager.ConvertServer | demo/unity-strands-agent/Python/mcp_manager.py:219-269 | a converted server starts with its name, enabled flag and description; no later field overrides them |
| McpManager.ConvertAnthropicConfig | demo/unity-strands-agent/Python/mcp_manager.py:213-289 | the conversion loop gives the specification's converted configuration |
| McpManager.ConvertedServersEach | demo/unity-strands-agent/Python/mcp_manager.py:219-269 | conversion fails iff some server fails; otherwise one converted server per entry, in order |
| McpManager.ServerNamedAndEnabled | demo/unity-strands-agent/Python/mcp_manager.py:223-227 | a converted server carries its name and is enabled |
| McpManager.StdioServer | demo/unity-strands-agent/Python/mcp_manager.py:230-238 | a server with a command is stdio, with its args and env (defaults `[]` and `{}`) |
| McpManager.RemoteServer | demo/unity-strands-agent/Python/mcp_manager.py:239-258 | a server with a url and transport is remote, with the mapped transport, its url and a 30-second timeout |
| McpManager.UrlOnlyServer | demo/unity-strands-agent/Python/mcp_manager.py:260-267 | a server with only a url is streamable HTTP with its url and a 30-second timeout |
| McpManager.ConvertedConfigShape | demo/unity-strands-agent/Python/mcp_manager.py:272-277 | the converted configuration has one named, enabled server per entry, MCP enabled iff there are servers, 5 connections |
| McpManager.ConfigPaths | demo/unity-strands-agent/Python/mcp_manager.py:162-176 | with a project root only its configuration file is tried; otherwise four candidates, the bare file first |
| McpManager.FirstExisting | demo/unity-strands-agent/Python/mcp_manager.py:178-198 | the chosen path exists and no earlier candidate does |
| McpManager.LoadUnityMcpConfig | demo/unity-strands-agent/Python/mcp_manager.py:154-211 | the loading loop gives the specification's loaded configuration, including None when the servers cannot be counted |
| McpManager.NoFileMeansDefault | demo/unity-strands-agent/Python/mcp_manager.py:200-207 | when no candidate exists the default configuration is used |
| McpManager.LegacyUnchanged | demo/unity-strands-agent/Python/mcp_manager.py:190-198 | a configuration without `mcpServers` is used as it is |
| McpManager.DispatchFails | demo/unity-strands-agent/Python/mcp_manager.py:190-211 | loading yields None exactly when the content cannot be searched for `mcpServers`, or holds it but is not a dict or its servers have no length (the logged `len` raises) |
| McpManager.EnabledServers | demo/unity-strands-agent/Python/mcp_manager.py:349-362 | the filter fails iff some server is not a dict; it never grows the list |
| McpManager.EnabledServersCount | demo/unity-strands-agent/Python/mcp_manager.py:349-362 | over dicts the enabled servers number as many as the enabled count |
| McpManager.ReportCounts | demo/unity-strands-agent/Python/mcp_manager.py:349-362 | a reload reports all servers and the enabled ones, never more enabled than servers |
| McpManager.ConvertedReportAllEnabled | demo/unity-strands-agent/Python/mcp_manager.py:272-277 | a reload of a converted configuration reports every server enabled |
| McpManager.AllEnabledCount | demo/unity-strands-agent/Python/mcp_manager.py:349-362 | when every server is enabled the enabled count is the server count |
| PathConfig.PathConfiguration.constructor | demo/02_unity_strands_agent/Editor/PathConfiguration.cs:16-50 | the field defaults: empty roots, the default configuration path, `Python`, `/bin/bash`, empty lists |
| PathConfig.Combine | demo/02_unity_strands_agent/Editor/PathConfiguration.cs:57-78 | a relative part is joined under the base; a rooted part or an empty base gives the part; an empty part gives the base |
| PathConfig.AbsolutePath | demo/02_unity_strands_agent/Editor/PathConfiguration.cs:57-78 | empty stays empty; `~/` is taken from home; rooted paths are kept; other paths go under the project root |
| PathConfig.AbsoluteIsRooted | demo/02_unity_strands_agent/Editor/PathConfiguration.cs:57-78 | with a rooted home and project root every resolved path is rooted |
| PathConfig.AbsoluteIdempotent | demo/02_unity_strands_agent/Editor/PathConfiguration.cs:57-78 | resolving a resolved path changes nothing |
| PathConfig.FirstValid | demo/02_unity_strands_agent/Editor/PathConfiguration.cs:342-356 | the chosen candidate exists once resolved |
| PathConfig.FirstValidIsFirst | demo/02_unity_strands_agent/Editor/PathConfiguration.cs:342-356 | no earlier candidate exists |
| PathConfig.ValidPathChoice | demo/02_unity_strands_agent/Editor/PathConfiguration.cs:342-356 | empty when no candidate exists; otherwise the resolved first existing candidate |
| PathConfig.PathConfiguration.FirstExistingPath | demo/02_unity_strands_agent/Editor/PathConfiguration.cs:342-356 | the search loop returns the resolved first existing candidate, or the empty string |
| PathConfig.PathConfiguration.GetValidPythonPath | demo/02_unity_strands_agent/Editor/PathConfiguration.cs:342-356 | the first existing Python executable |
| PathConfig.PathConfiguration.GetValidSslCertPath | demo/02_unity_strands_agent/Editor/PathConfiguration.cs:363-377 | the first existing certificate file |
| PathConfig.PathConfiguration.GetValidSslCertDirectory | demo/02_unity_strands_agent/Editor/PathConfiguration.cs:383-397 | the first existing certificate directory |
| PathConfig.ValidIff | demo/02_unity_strands_agent/Editor/PathConfiguration.cs:114-146 | valid iff the project root is set and exists and, when Python paths are listed, one of them exists |
| PathConfig.ValidationErrorCases | demo/02_unity_strands_agent/Editor/PathConfiguration.cs:114-146 | the missing-Python error appears iff paths are listed and none exists; an empty root is reported |
| PathConfig.PathConfiguration.ValidateConfiguration | demo/02_unity_strands_agent/Editor/PathConfiguration.cs:114-146 | the errors are the specification's errors, and valid iff there are none |
| PathConfig.PathConfiguration.IsValid | demo/02_unity_strands_agent/Editor/PathConfiguration.cs:524-528 | valid iff validation reports no error |
| PathConfig.PathConfiguration.AutoDetectProjectRoot | demo/02_unity_strands_agent/Editor/PathConfiguration.cs:254-259 | the project root becomes the directory that holds the project's Assets folder; no other field changes |
| PathConfig.PathConfiguration.AutoDetectMcpServerPath | demo/02_unity_strands_agent/Editor/PathConfiguration.cs:265-310 | with a project root, a server directory found replaces the path; otherwise it is kept |
| PathConfig.PathConfiguration.AutoDetectAllPaths | demo/02_unity_strands_agent/Editor/PathConfiguration.cs:402-500 | only empty settings are filled with the detected root and the default lists; the rest is kept |
| PathConfig.PathConfiguration.InitializeDefaults | demo/02_unity_strands_agent/Editor/PathConfiguration.cs:152-250 | every setting is reset to its default and the server path is detected |
| StreamingProcessor.ExtractText | 07_unity_strands_agent/Python/streaming_processor.py:543-609 | a string passes through; a non-dict or a loop marker gives nothing; an event gives its delta text |
| StreamingProcessor.EventText | 07_unity_strands_agent/Python/streaming_processor.py:561-580 | text comes only from a dict event holding `contentBlockDelta` and neither `contentBlockStart` nor `contentBlockStop` |
| StreamingProcessor.EventTextOnlyFromDelta | 07_unity_strands_agent/Python/streaming_processor.py:561-580 | event text comes only from a content-block delta's `text`, never from a block start or stop |
| StreamingProcessor.DeltaYieldsText | 07_unity_strands_agent/Python/streaming_processor.py:561-580 | a delta event yields its text |
| StreamingProcessor.ToolResultReported | 07_unity_strands_agent/Python/streaming_processor.py:583-590 | a tool result becomes the result line naming the tool and its success |
| StreamingProcessor.TextBeforeContent | 07_unity_strands_agent/Python/streaming_processor.py:593-602 | metadata gives nothing; otherwise `text` is preferred to `content` |
| StreamingProcessor.ToolIcon | 07_unity_strands_agent/Python/streaming_processor.py:611-630 | the icon is the default one or the icon of a keyword that the lower-cased name contains |
| StreamingProcessor.ToolIconIsFirstMatch | 07_unity_strands_agent/Python/streaming_processor.py:611-630 | the icon is that of the first keyword found in the lower-cased name |
| StreamingProcessor.FirstIconDefault | 07_unity_strands_agent/Python/streaming_processor.py:611-630 | the default icon is used iff no keyword occurs in the name |
| StreamingProcessor.ToolIconIgnoresCase | 07_unity_strands_agent/Python/streaming_processor.py:611-630 | the icon does not depend on the case of the name |
| StreamingProcessor.CutResultText | 07_unity_strands_agent/Python/streaming_processor.py:517-524 | a textual tool result is cut to 500 characters; a list raises iff it has more than 500 items, a dict of at most 500 entries is shown whole, a value without a length raises |
| StreamingProcessor.ToolUseInputCut | 07_unity_strands_agent/Python/streaming_processor.py:525-533 | a `toolUse` chunk shows its name and its input, cut to 800 characters |
| StreamingProcessor.RawChunkCut | 07_unity_strands_agent/Python/streaming_processor.py:536-539 | any other chunk is shown raw, cut to 800 characters |
| StreamingProcessor.ParseToolDetails | 07_unity_strands_agent/Python/streaming_processor.py:500-541 | a None, boolean or integer chunk gives the error line; outside the `message` pattern a dict without `toolUse` is shown raw, cut to 800 characters |
| StreamingProcessor.MessageToolUseShown | 07_unity_strands_agent/Python/streaming_processor.py:503-516 | a `tool_use` item preceded only by items the scan passes over (non-dicts, other types, tool results without content) is shown with its name and input cut to 800 characters |
| RecipeCatalog.CatalogKeysDistinct | 04_strands_mcp/strands_mcp_server.py:25-69 | the catalog has three cuisines with distinct keys |
| RecipeCatalog.ListCuisines | 04_strands_mcp/strands_mcp_server.py:72-80 | one summary per cuisine, in catalog order, with its title and recipe count |
| RecipeCatalog.Find | 04_strands_mcp/strands_mcp_server.py:85-91 | found iff the key is in the catalog, and then it is that key's cuisine |
| RecipeCatalog.Keys | 04_strands_mcp/strands_mcp_server.py:88 | the available cuisine keys, in catalog order |
| RecipeCatalog.GetRecipesByCuisine | 04_strands_mcp/strands_mcp_server.py:83-91 | found iff the lower-cased name is a key; otherwise the error lists all keys |
| RecipeCatalog.GetRecipesIgnoresCase | 04_strands_mcp/strands_mcp_server.py:83-91 | a cuisine is found whatever the case of the name asked for |
| RecipeCatalog.SearchRecipesByIngredient | 04_strands_mcp/strands_mcp_server.py:94-107 | the search loops give the specification's hits, in catalog order |
| RecipeCatalog.HitsAppend | 04_strands_mcp/strands_mcp_server.py:94-107 | the hits of two catalogs add up |
| RecipeCatalog.RecipeHitsMember | 04_strands_mcp/strands_mcp_server.py:98-106 | a hit within a cuisine is exactly a recipe that uses the ingredient |
| RecipeCatalog.HitsMember | 04_strands_mcp/strands_mcp_server.py:94-107 | a hit is exactly a recipe of some cuisine that uses the ingredient |
| RecipeCatalog.HitsBounded | 04_strands_mcp/strands_mcp_server.py:94-107 | no more hits than recipes |
| RecipeCatalog.RecipeHitsBounded | 04_strands_mcp/strands_mcp_server.py:98-106 | within a cuisine, no more hits than recipes |
| RecipeCatalog.EmptyQueryFindsAll | 04_strands_mcp/strands_mcp_server.py:94-107 | the empty query finds every recipe that has an ingredient |
| RecipeCatalog.AllUsedHits | 04_strands_mcp/strands_mcp_server.py:98-106 | when every recipe uses the ingredient, every recipe is a hit |

## Left out

- Rendering (IMGUI layout, scroll positions, progress bars, colours) is left out: it only draws the state modelled here.
- File and asset I/O is left out: chat-history saving, JSON file writes in `UpdateMCPJsonConfig` and `ResetMCPConfig`,
  `AssetDatabase` calls and dialogs. The model keeps the values that would be written.
- Interop with the Python process from C# (`ReloadMCPConfigInPython`, `PythonManager`) is left out: it is a foreign call.
- Tasks, `async` and `CancellationTokenSource` are left out; only the booleans they set and the chunk queue are kept.
  The main-thread dispatch (`ThreadProtection`) and the `process_stream` loop are not modelled either.
- The timestamps of chat messages are left out: they come from the clock.
- The chat window's Clear button and chat-history loading are not modelled. The class invariant assumes the streaming
  message index is either -1 or a valid index.
- `_extract_text_from_chunk` does not model a bytes chunk: Python values here have no bytes.
- Lower-casing is ASCII-only. Python's and C#'s Unicode lower-casing of other letters is not modelled.
- Path handling follows Unix rules. Several host facts become parameters:
  - the relative-path and URI helpers of `PathConfiguration` are not modelled;
  - the directory search of `AutoDetectMCPServerPath` is given as a `found` parameter;
  - `Application.dataPath` is given as the host's project directory.
- Left out of the Python manager:
  - `load_mcp_tools` and `_create_strands_mcp_client` (network clients);
  - the text of the reload error message;
  - JSON floats.
- PyValues.Value: a dict is a list of entries, and repeated keys in it are not merged. Lookups and `len` follow
  Python (the last binding, the distinct keys), but iteration and the per-entry conversions of `McpManager` visit
  a repeated key once per entry, where Python visits it once.
- `json.dumps`, `str()` and `_format_tool_input` are function parameters rather than models.
- The setup wizard's `MCPConfiguration` is modelled by the version at `08_unity_strands_agent/Editor/MCPConfiguration.cs`.
  `07_unity_strands_agent/Editor/MCPConfiguration.cs` is not part of this model.
- The line-based Anthropic parser at `07_unity_strands_agent/Editor/SetupWizard.cs:1041-1183` is not modelled: no
  call reaches it.
- SetupWizard.SetupWizard.TryParseAnthropicFormat: requires a loaded asset; the catch of the null dereference is not modelled.
- SetupWizard.SetupWizard.TryParseAnthropicFormatSimple: requires a loaded asset; the catch of the null dereference is not modelled.
- SetupWizard.SetupWizard.GenerateJsonConfigFromMCPConfig: requires a loaded asset, and states the serialisable record
  rather than the text Unity's JSON serialiser makes of it.
- `Uri.TryCreate` becomes a predicate parameter `isAbsoluteUri`.
- The language detection of `LanguageManager` becomes an explicit `Lang` argument.
- Language.GetText: states only that one of the two texts is returned, since the language is an argument here.
- AgentWindowParsing.EnvObjectRoundTrip: holds only for plain variables. It excludes empty keys (the writer skips
  them, and an empty-key last variable leaves a trailing comma), keys with a colon, and keys or values holding a
  quote, backslash, control character, comma or brace, which the reader splits or keeps escaped. Secret flags are
  not written, so the variables must be non-secret.
- AgentWindowFormat.JsonPreview: lengths count Unicode scalar values, while C#'s `Length` and `Substring` count
  UTF-16 code units. Text with characters outside the Basic Multilingual Plane is cut earlier by C# (30 emoji have
  `Length` 60 and are cut to 47 units and `...`) but kept whole here. A cut inside a surrogate pair cannot be written
  as a Dafny string.
- AgentWindowFormat.FormatJsonString: lines are joined with "\n"; `StringBuilder.AppendLine` writes
  `Environment.NewLine`, which is "\r\n" on Windows.
- C#'s `IndexOf(string)`, `StartsWith(string)` and `EndsWith(string)` (AIAgentWindow.cs:2006 and 2883) without a
  `StringComparison` compare by the current culture. Every search in the model (`Text.IndexOf`, `Text.Contains`,
  `Text.StartsWith`, `Text.EndsWith`) is ordinal.
- AgentWindowFormat.FormatJsonString: the `catch` that returns the input unformatted is not modelled, since the
  string operations used cannot throw.
- StreamingHandler.StreamingHandler.FinishStreaming: subscribers are assumed not to throw. If a callback throws
  while the error chunk queued at `StreamingHandler.cs:224-228` is drained, the exception reaches the `catch` at
  lines 99-111, which fires `OnChunkReceived` and `OnStreamError` again without checking `isCompleted`. The
  at-most-once property (`HandleAllAtMostOnce`, `Valid`) does not cover that path.
- ToolTracker.ToolTracker.ProcessEvent: the `except` branch that returns `None` covers only the operations the model
  can make raise (an operation on a value of the wrong Python type). Exceptions inside the formatting callbacks are
  not modelled.

## Findings

| source | as written | input that shows it | evidently intended | confidence | as-written member | corrected member |
|---|---|---|---|---|---|---|
| demo/unity-strands-agent/Editor/StreamingHandler.cs:54-58 | leaving edit or play mode during a stream sets `isCompleted` and invokes `OnStreamCompleted` without checking whether completion already fired | a stream whose `complete` chunk was handled (completion fired, still streaming) when the editor switches mode | completion and error fire at most once per stream, as `HandleChunk` guards with `isCompleted` | not executed | StreamingHandler.CompletedTwiceOnModeSwitch | StreamingHandler.StreamingHandler.OnPlayModeStateChangedGuarded |
