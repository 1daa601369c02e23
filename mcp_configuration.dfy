/** The MCP server configuration asset: the server records, the enabled-server
    filter, validation, and the hand-written "mcpServers" JSON writer with its
    string escaping. */
module McpConfiguration {
  import opened Text

  datatype Option<T> = None | Some(value: T)

  datatype TransportType = Stdio | StreamableHttp | SSE | HTTP

  datatype EnvironmentVariable = EnvironmentVariable(key: string, value: string, isSecret: bool)

  /** One MCP server record with every field of the asset. */
  datatype ServerConfig = ServerConfig(
    name: string,
    description: string,
    enabled: bool,
    transportType: TransportType,
    command: string,
    args: seq<string>,
    workingDirectory: string,
    httpUrl: string,
    timeoutSeconds: int,
    environmentVariables: seq<EnvironmentVariable>,
    autoRestart: bool,
    maxRetries: int,
    logOutput: bool)

  /** A server record holding the field initialisers of the asset class. */
  function NewServer(): ServerConfig {
    ServerConfig("", "", true, Stdio, "", [], "", "", 30, [], true, 3, false)
  }

  predicate IsRemote(t: TransportType) {
    t == HTTP || t == StreamableHttp || t == SSE
  }

  // ---------------------------------------------------------------------------
  // Enabled-server filter

  /** The enabled servers, in list order. */
  function EnabledOf(servers: seq<ServerConfig>): seq<ServerConfig>
  {
    if servers == [] then []
    else EnabledOf(servers[..|servers| - 1])
         + (if servers[|servers| - 1].enabled then [servers[|servers| - 1]] else [])
  }

  /** The filter distributes over concatenation: together with the one-element
      case it fixes the result as "the enabled servers, order kept". */
  lemma {:induction false} EnabledOfAppend(a: seq<ServerConfig>, b: seq<ServerConfig>)
    ensures EnabledOf(a + b) == EnabledOf(a) + EnabledOf(b)
    decreases |b|
  {
    if b == [] {
      assert a + b == a;
    } else {
      var last := b[|b| - 1];
      assert (a + b)[..|a + b| - 1] == a + b[..|b| - 1];
      EnabledOfAppend(a, b[..|b| - 1]);
      assert (a + b)[|a + b| - 1] == last;
    }
  }

  lemma EnabledOfSingleton(s: ServerConfig)
    ensures EnabledOf([s]) == if s.enabled then [s] else []
  {
    assert [s][..0] == [];
  }

  /** A server is kept exactly when it is in the list and enabled. */
  lemma {:induction false} EnabledOfMembers(servers: seq<ServerConfig>)
    ensures |EnabledOf(servers)| <= |servers|
    ensures forall s :: s in EnabledOf(servers) <==> s in servers && s.enabled
    decreases |servers|
  {
    if servers != [] {
      var init := servers[..|servers| - 1];
      EnabledOfMembers(init);
      assert servers == init + [servers[|servers| - 1]];
    }
  }

  /** No enabled server at all exactly when the filter is empty. */
  lemma EnabledOfEmpty(servers: seq<ServerConfig>)
    ensures EnabledOf(servers) == [] <==> forall i :: 0 <= i < |servers| ==> !servers[i].enabled
  {
    EnabledOfMembers(servers);
    if EnabledOf(servers) == [] {
      forall i | 0 <= i < |servers| ensures !servers[i].enabled {
        assert servers[i] in servers;
      }
    } else {
      assert EnabledOf(servers)[0] in EnabledOf(servers);
    }
  }

  // ---------------------------------------------------------------------------
  // Validation

  datatype Validation = Validation(valid: bool, errorMessage: string)

  const MessageDisabled := "MCP功能未启用"
  const MessageNoServers := "MCP已启用但没有配置任何服务器"
  const MessageNoEnabledServers := "MCP已启用但没有配置任何可用的服务器"
  const MessageEmptyName := "服务器名称不能为空"

  /** What validation demands of one enabled server; `isAbsoluteUri` stands for
      Uri.TryCreate(url, UriKind.Absolute). */
  predicate ServerValid(s: ServerConfig, isAbsoluteUri: string -> bool) {
    s.name != ""
    && (s.transportType == Stdio ==> s.command != "")
    && (IsRemote(s.transportType) ==> s.httpUrl != "" && isAbsoluteUri(s.httpUrl))
  }

  /** The error message for one server, checked in the order of the source. */
  function ServerProblem(s: ServerConfig, isAbsoluteUri: string -> bool): (r: Option<string>)
    ensures r.None? <==> ServerValid(s, isAbsoluteUri)
  {
    if s.name == "" then Some(MessageEmptyName)
    else if s.transportType == Stdio then
      if s.command == "" then Some("服务器 '" + s.name + "' 的命令不能为空") else None
    else if s.httpUrl == "" then Some("服务器 '" + s.name + "' 的HTTP URL不能为空")
    else if !isAbsoluteUri(s.httpUrl) then Some("服务器 '" + s.name + "' 的HTTP URL格式无效")
    else None
  }

  /** The message of the first invalid server, scanning in order. */
  function FirstProblem(servers: seq<ServerConfig>, isAbsoluteUri: string -> bool): (r: Option<string>)
    ensures r.None? <==> forall i :: 0 <= i < |servers| ==> ServerValid(servers[i], isAbsoluteUri)
    ensures r.Some? ==> exists i :: 0 <= i < |servers| && ServerProblem(servers[i], isAbsoluteUri) == r
  {
    if servers == [] then None
    else match ServerProblem(servers[0], isAbsoluteUri)
      case Some(m) => Some(m)
      case None =>
        var rest := FirstProblem(servers[1..], isAbsoluteUri);
        assert forall i :: 1 <= i < |servers| ==> servers[i] == servers[1..][i - 1];
        rest
  }

  // ---------------------------------------------------------------------------
  // String escaping

  /** EscapeJsonString as written: an empty input gives "", otherwise backslash,
      quote, newline, carriage return and tab are replaced, in that order. */
  function EscapeJsonString(str: string): string {
    if str == "" then ""
    else ReplaceChar(ReplaceChar(ReplaceChar(ReplaceChar(ReplaceChar(
           str, '\\', "\\\\"), '"', "\\\""), '\n', "\\n"), '\r', "\\r"), '\t', "\\t")
  }

  /** What the replacement chain does to one character. */
  function EscapeChar(c: char): string {
    if c == '\\' then "\\\\"
    else if c == '"' then "\\\""
    else if c == '\n' then "\\n"
    else if c == '\r' then "\\r"
    else if c == '\t' then "\\t"
    else [c]
  }

  function EscapeEach(s: string): string {
    if s == [] then [] else EscapeChar(s[0]) + EscapeEach(s[1..])
  }

  function Chain(s: string): string {
    ReplaceChar(ReplaceChar(ReplaceChar(ReplaceChar(ReplaceChar(
      s, '\\', "\\\\"), '"', "\\\""), '\n', "\\n"), '\r', "\\r"), '\t', "\\t")
  }

  lemma ChainAppend(a: string, b: string)
    ensures Chain(a + b) == Chain(a) + Chain(b)
  {
    var r1a, r1b := ReplaceChar(a, '\\', "\\\\"), ReplaceChar(b, '\\', "\\\\");
    ReplaceCharAppend(a, b, '\\', "\\\\");
    var r2a, r2b := ReplaceChar(r1a, '"', "\\\""), ReplaceChar(r1b, '"', "\\\"");
    ReplaceCharAppend(r1a, r1b, '"', "\\\"");
    var r3a, r3b := ReplaceChar(r2a, '\n', "\\n"), ReplaceChar(r2b, '\n', "\\n");
    ReplaceCharAppend(r2a, r2b, '\n', "\\n");
    var r4a, r4b := ReplaceChar(r3a, '\r', "\\r"), ReplaceChar(r3b, '\r', "\\r");
    ReplaceCharAppend(r3a, r3b, '\r', "\\r");
    ReplaceCharAppend(r4a, r4b, '\t', "\\t");
  }

  lemma ChainChar(c: char)
    ensures Chain([c]) == EscapeChar(c)
  {
    var r1 := ReplaceChar([c], '\\', "\\\\");
    ReplaceCharSingle(c, '\\', "\\\\");
    var r2 := ReplaceChar(r1, '"', "\\\"");
    if c == '"' {
      ReplaceCharSingle(c, '"', "\\\"");
    } else {
      ReplaceCharAbsent(r1, '"', "\\\"");
    }
    var r3 := ReplaceChar(r2, '\n', "\\n");
    if c == '\n' {
      ReplaceCharSingle(c, '\n', "\\n");
    } else {
      ReplaceCharAbsent(r2, '\n', "\\n");
    }
    var r4 := ReplaceChar(r3, '\r', "\\r");
    if c == '\r' {
      ReplaceCharSingle(c, '\r', "\\r");
    } else {
      ReplaceCharAbsent(r3, '\r', "\\r");
    }
    if c == '\t' {
      ReplaceCharSingle(c, '\t', "\\t");
    } else {
      ReplaceCharAbsent(r4, '\t', "\\t");
    }
  }

  /** Because backslash is replaced first, the chain escapes each character
      independently of its neighbours. */
  lemma {:induction false} EscapeIsPerChar(s: string)
    ensures EscapeJsonString(s) == EscapeEach(s)
    decreases |s|
  {
    if s != [] {
      assert s == [s[0]] + s[1..];
      ChainAppend([s[0]], s[1..]);
      ChainChar(s[0]);
      EscapeIsPerChar(s[1..]);
      if s[1..] == [] {
        assert Chain([]) == [];
      }
    }
  }

  /** A character that standard JSON admits unescaped inside a string or that
      EscapeJsonString escapes: everything but the other control characters. */
  predicate Escapable(c: char) {
    c >= ' ' || c == '\n' || c == '\r' || c == '\t'
  }

  /** The character a JSON escape `\x` stands for. */
  function UnescapeChar(x: char): Option<char> {
    if x == '\\' then Some('\\')
    else if x == '"' then Some('"')
    else if x == '/' then Some('/')
    else if x == 'n' then Some('\n')
    else if x == 'r' then Some('\r')
    else if x == 't' then Some('\t')
    else if x == 'b' then Some('\U{0008}')
    else if x == 'f' then Some('\U{000C}')
    else None
  }

  /** Standard JSON reading of a string body: decodes escapes up to the first
      unescaped quote and gives the decoded text with that quote's index;
      None when the input ends first, a raw control character appears, or an
      escape is unknown. */
  function ReadStringBody(t: string): Option<(string, nat)>
    decreases |t|
  {
    if t == [] then None
    else if t[0] == '"' then Some(("", 0))
    else if t[0] == '\\' then
      if |t| < 2 then None
      else match UnescapeChar(t[1])
        case None => None
        case Some(c) =>
          match ReadStringBody(t[2..])
          case None => None
          case Some(r) => Some(([c] + r.0, r.1 + 2))
    else if t[0] < ' ' then None
    else match ReadStringBody(t[1..])
      case None => None
      case Some(r) => Some(([t[0]] + r.0, r.1 + 1))
  }

  /** Reading back an escaped string stops at the closing quote written after it
      and recovers the original text: the output holds no raw quote, newline,
      carriage return or tab. */
  lemma {:induction false} EscapeRoundTrip(s: string, rest: string)
    requires forall i :: 0 <= i < |s| ==> Escapable(s[i])
    ensures ReadStringBody(EscapeJsonString(s) + "\"" + rest) == Some((s, |EscapeJsonString(s)|))
  {
    EscapeIsPerChar(s);
    EachRoundTrip(s, rest);
  }

  lemma {:induction false} EachRoundTrip(s: string, rest: string)
    requires forall i :: 0 <= i < |s| ==> Escapable(s[i])
    ensures ReadStringBody(EscapeEach(s) + "\"" + rest) == Some((s, |EscapeEach(s)|))
    decreases |s|
  {
    if s == [] {
      assert EscapeEach(s) + "\"" + rest == "\"" + rest;
    } else {
      var c, tail := s[0], s[1..];
      EachRoundTrip(tail, rest);
      var u := EscapeEach(tail) + "\"" + rest;
      AppendAssoc(EscapeChar(c), EscapeEach(tail), "\"");
      AppendAssoc(EscapeChar(c), EscapeEach(tail) + "\"", rest);
      ReadEscapedChar(c, u, tail, |EscapeEach(tail)|);
      assert [c] + tail == s;
    }
  }

  /** Text with no backslash, quote, newline, carriage return or tab: the
      characters EscapeJsonString rewrites. */
  predicate Unescaped(s: string) {
    '\\' !in s && '"' !in s && '\n' !in s && '\r' !in s && '\t' !in s
  }

  /** Escaping leaves such text as it is. */
  lemma {:induction false} EscapeUnescaped(s: string)
    requires Unescaped(s)
    ensures EscapeJsonString(s) == s
  {
    EscapeIsPerChar(s);
    EachUnescaped(s);
  }

  lemma {:induction false} EachUnescaped(s: string)
    requires Unescaped(s)
    ensures EscapeEach(s) == s
    decreases |s|
  {
    if s != [] {
      var c, tail := s[0], s[1..];
      assert s == [c] + tail;
      assert EscapeChar(c) == [c] by { assert c in s; }
      assert Unescaped(tail) by { assert forall x :: x in tail ==> x in s; }
      EachUnescaped(tail);
    }
  }

  /** Reading one escaped character in front of a readable body. */
  lemma ReadEscapedChar(c: char, u: string, tail: string, n: nat)
    requires Escapable(c) && ReadStringBody(u) == Some((tail, n))
    ensures ReadStringBody(EscapeChar(c) + u) == Some(([c] + tail, n + |EscapeChar(c)|))
  {
    if c == '\\' {
      ReadEscapePair('\\', c, u, tail, n);
    } else if c == '"' {
      ReadEscapePair('"', c, u, tail, n);
    } else if c == '\n' {
      ReadEscapePair('n', c, u, tail, n);
    } else if c == '\r' {
      ReadEscapePair('r', c, u, tail, n);
    } else if c == '\t' {
      ReadEscapePair('t', c, u, tail, n);
    } else {
      assert ([c] + u)[1..] == u;
    }
  }

  lemma ReadEscapePair(x: char, c: char, u: string, tail: string, n: nat)
    requires UnescapeChar(x) == Some(c) && ReadStringBody(u) == Some((tail, n))
    ensures ReadStringBody(['\\', x] + u) == Some(([c] + tail, n + 2))
  {
    assert (['\\', x] + u)[2..] == u;
  }

  /** The escaped text contains no raw newline, carriage return or tab. */
  lemma {:induction false} EscapeHasNoLineBreaks(s: string)
    ensures forall i :: 0 <= i < |EscapeJsonString(s)| ==>
      EscapeJsonString(s)[i] != '\n' && EscapeJsonString(s)[i] != '\r' && EscapeJsonString(s)[i] != '\t'
  {
    EscapeIsPerChar(s);
    EachHasNoLineBreaks(s);
  }

  lemma {:induction false} EachHasNoLineBreaks(s: string)
    ensures forall i :: 0 <= i < |EscapeEach(s)| ==>
      EscapeEach(s)[i] != '\n' && EscapeEach(s)[i] != '\r' && EscapeEach(s)[i] != '\t'
    decreases |s|
  {
    if s != [] {
      EachHasNoLineBreaks(s[1..]);
    }
  }

  // ---------------------------------------------------------------------------
  // The "mcpServers" JSON writer

  const JsonHeader := "{\n  \"mcpServers\": {\n"
  const JsonFooter := "  }\n}"

  /** The "transport" value written for a remote server. */
  function TransportName(t: TransportType): string {
    match t
    case SSE => "sse"
    case StreamableHttp => "streamable_http"
    case HTTP => "streamable_http"
    case Stdio => "streamable_http"
  }

  /** The first `n` args items, each quoted, separated by ", ". */
  function ArgsItems(args: seq<string>, n: nat): string
    requires n <= |args|
  {
    if n == 0 then "" else ArgsItems(args, n - 1) + ArgItem(args, n - 1)
  }

  lemma ArgsItemsStep(args: seq<string>, j: nat)
    requires j < |args|
    ensures ArgsItems(args, j + 1) == ArgsItems(args, j) + ArgItem(args, j)
  {
  }

  /** Item `j` of the args array: quoted, then ", " unless it is the last. */
  function ArgItem(args: seq<string>, j: nat): string
    requires j < |args|
  {
    "\"" + EscapeJsonString(args[j]) + "\"" + (if j < |args| - 1 then ", " else "")
  }

  /** The line written for environment entry `j`: nothing for an empty key, and
      a comma whenever `j` is not the last index. */
  function EnvLine(env: seq<EnvironmentVariable>, j: nat): string
    requires j < |env|
  {
    if env[j].key == "" then ""
    else "        \"" + EscapeJsonString(env[j].key) + "\": \"" + EscapeJsonString(env[j].value) + "\""
         + (if j < |env| - 1 then "," else "") + "\n"
  }

  function EnvLines(env: seq<EnvironmentVariable>, n: nat): string
    requires n <= |env|
  {
    if n == 0 then "" else EnvLines(env, n - 1) + EnvLine(env, n - 1)
  }

  lemma EnvLinesStep(env: seq<EnvironmentVariable>, j: nat)
    requires j < |env|
    ensures EnvLines(env, j + 1) == EnvLines(env, j) + EnvLine(env, j)
  {
  }

  /** The lines inside a server's block. */
  function ServerBody(s: ServerConfig): string {
    if s.transportType == Stdio then
      "      \"command\": \"" + EscapeJsonString(s.command) + "\",\n"
      + "      \"args\": [" + ArgsItems(s.args, |s.args|) + "],\n"
      + "      \"env\": {\n" + EnvLines(s.environmentVariables, |s.environmentVariables|) + "      }\n"
    else
      "      \"transport\": \"" + TransportName(s.transportType) + "\",\n"
      + "      \"url\": \"" + EscapeJsonString(s.httpUrl) + "\""
      + (if |s.environmentVariables| > 0
         then ",\n      \"headers\": {\n" + EnvLines(s.environmentVariables, |s.environmentVariables|) + "      }\n"
         else "\n")
  }

  /** Server `i` of `servers` as one `"name": { ... }` block. */
  function ServerBlock(servers: seq<ServerConfig>, i: nat): string
    requires i < |servers|
  {
    "    \"" + servers[i].name + "\": {\n" + ServerBody(servers[i]) + "    }"
    + (if i < |servers| - 1 then "," else "") + "\n"
  }

  function ServerBlocks(servers: seq<ServerConfig>, n: nat): string
    requires n <= |servers|
  {
    if n == 0 then "" else ServerBlocks(servers, n - 1) + ServerBlock(servers, n - 1)
  }

  lemma ServerBlocksStep(servers: seq<ServerConfig>, i: nat)
    requires i < |servers|
    ensures ServerBlocks(servers, i + 1) == ServerBlocks(servers, i) + ServerBlock(servers, i)
  {
  }

  /** The whole document for the given (already filtered) servers. */
  function AnthropicJson(servers: seq<ServerConfig>): string {
    JsonHeader + ServerBlocks(servers, |servers|) + JsonFooter
  }

  /** The configuration asset. */
  class MCPConfiguration {
    var enableMCP: bool
    var maxConcurrentConnections: int
    var defaultTimeoutSeconds: int
    var servers: seq<ServerConfig>

    constructor ()
      ensures !enableMCP && maxConcurrentConnections == 5 && defaultTimeoutSeconds == 30 && servers == []
    {
      enableMCP := false;
      maxConcurrentConnections := 5;
      defaultTimeoutSeconds := 30;
      servers := [];
    }

    /** The enabled servers in list order. */
    method GetEnabledServers() returns (enabledServers: seq<ServerConfig>)
      ensures enabledServers == EnabledOf(servers)
      ensures forall s :: s in enabledServers <==> s in servers && s.enabled
    {
      enabledServers := [];
      var i := 0;
      while i < |servers|
        invariant 0 <= i <= |servers|
        invariant enabledServers == EnabledOf(servers[..i])
      {
        assert servers[..i + 1][..i] == servers[..i];
        if servers[i].enabled {
          enabledServers := enabledServers + [servers[i]];
        }
        i := i + 1;
      }
      assert servers[..i] == servers;
      EnabledOfMembers(servers);
    }

    /** Validation with early returns; `isAbsoluteUri` decides URL syntax. */
    function ValidateConfiguration(isAbsoluteUri: string -> bool): (r: Validation)
      reads this
      ensures !enableMCP ==> r == Validation(true, MessageDisabled)
      ensures enableMCP && servers == [] ==> r == Validation(false, MessageNoServers)
      ensures enableMCP && servers != [] && (forall i :: 0 <= i < |servers| ==> !servers[i].enabled)
        ==> r == Validation(false, MessageNoEnabledServers)
      ensures enableMCP ==>
        (r.valid <==> EnabledOf(servers) != [] && forall s :: s in EnabledOf(servers) ==> ServerValid(s, isAbsoluteUri))
      ensures enableMCP && r.valid ==> r.errorMessage == ""
    {
      EnabledOfEmpty(servers);
      if !enableMCP then Validation(true, MessageDisabled)
      else if servers == [] then Validation(false, MessageNoServers)
      else
        var enabledServers := EnabledOf(servers);
        if enabledServers == [] then Validation(false, MessageNoEnabledServers)
        else match FirstProblem(enabledServers, isAbsoluteUri)
          case Some(m) => Validation(false, m)
          case None =>
            assert forall s :: s in enabledServers ==> ServerValid(s, isAbsoluteUri) by {
              forall s | s in enabledServers ensures ServerValid(s, isAbsoluteUri) {
                var i :| 0 <= i < |enabledServers| && enabledServers[i] == s;
              }
            }
            Validation(true, "")
    }

    /** Writes the "mcpServers" document for the enabled servers. */
    method GenerateAnthropicMCPJson() returns (json: string)
      ensures json == AnthropicJson(EnabledOf(servers))
    {
      var enabledServers := GetEnabledServers();
      var blocks := "";
      var i := 0;
      while i < |enabledServers|
        invariant 0 <= i <= |enabledServers|
        invariant blocks == ServerBlocks(enabledServers, i)
      {
        var block := WriteServerBlock(enabledServers, i);
        ServerBlocksStep(enabledServers, i);
        blocks := blocks + block;
        i := i + 1;
      }
      json := JsonHeader + blocks + JsonFooter;
      assert enabledServers == EnabledOf(servers);
    }
  }

  /** Server `i` as a `"name": { ... }` block, with a comma unless it is the last. */
  method WriteServerBlock(servers: seq<ServerConfig>, i: nat) returns (block: string)
    requires i < |servers|
    ensures block == ServerBlock(servers, i)
  {
    var server := servers[i];
    var body := WriteServerBody(server);
    block := "    \"" + server.name + "\": {\n" + body + "    }";
    if i < |servers| - 1 {
      block := block + ",";
    }
    block := block + "\n";
  }

  /** The body of one server block, written piece by piece as the source does. */
  method WriteServerBody(server: ServerConfig) returns (json: string)
    ensures json == ServerBody(server)
  {
    var env := server.environmentVariables;
    if server.transportType == Stdio {
      var items := WriteArgsItems(server.args);
      var lines := WriteEnvLines(env);
      json := "      \"command\": \"" + EscapeJsonString(server.command) + "\",\n"
        + "      \"args\": [" + items + "],\n"
        + "      \"env\": {\n" + lines + "      }\n";
    } else {
      json := "      \"transport\": \"" + TransportName(server.transportType) + "\",\n"
        + "      \"url\": \"" + EscapeJsonString(server.httpUrl) + "\"";
      if |env| > 0 {
        var lines := WriteEnvLines(env);
        json := json + (",\n      \"headers\": {\n" + lines + "      }\n");
      } else {
        json := json + "\n";
      }
    }
  }

  /** The args array items, quoted and separated by ", ". */
  method WriteArgsItems(args: seq<string>) returns (json: string)
    ensures json == ArgsItems(args, |args|)
  {
    json := "";
    var j := 0;
    while j < |args|
      invariant 0 <= j <= |args|
      invariant json == ArgsItems(args, j)
    {
      var item := ArgItem(args, j);
      ArgsItemsStep(args, j);
      json := json + item;
      j := j + 1;
    }
  }

  /** The environment (or header) entries, one line each. */
  method WriteEnvLines(env: seq<EnvironmentVariable>) returns (json: string)
    ensures json == EnvLines(env, |env|)
  {
    json := "";
    var j := 0;
    while j < |env|
      invariant 0 <= j <= |env|
      invariant json == EnvLines(env, j)
    {
      var line := WriteEnvLine(env, j);
      EnvLinesStep(env, j);
      json := json + line;
      j := j + 1;
    }
  }

  /** Entry `j`: skipped when its key is empty, and followed by a comma
      whenever it is not the last entry. */
  method WriteEnvLine(env: seq<EnvironmentVariable>, j: nat) returns (line: string)
    requires j < |env|
    ensures line == EnvLine(env, j)
  {
    line := "";
    if env[j].key != "" {
      var key, value := EscapeJsonString(env[j].key), EscapeJsonString(env[j].value);
      line := "        \"" + key + "\": \"" + value + "\"";
      if j < |env| - 1 {
        line := line + ",";
      }
      line := line + "\n";
    }
  }
}
