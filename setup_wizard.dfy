/** The MCP part of the setup wizard: the quote- and bracket-splitting
    helpers, the simplified reader of the "mcpServers" text that recognises
    the mcp-unity server, the export record handed to the engine's JSON
    serialiser, and the reset and cancel buttons. */
module SetupWizard {
  import opened Text
  import opened McpConfiguration

  // ---------------------------------------------------------------------------
  // ExtractQuotedValue

  /** The fourth piece of the line split at '"' (the second quoted text) when
      there are at least four pieces, the second piece (the first quoted text)
      when there are two or three, and "" otherwise. */
  function ExtractQuotedValue(line: string): (r: string)
    ensures '"' !in r
  {
    var parts := Split(line, '"');
    if |parts| >= 4 then parts[3] else if |parts| >= 2 then parts[1] else ""
  }

  /** On a `"key": "value"` line the value is read. */
  lemma QuotedValueOfPair(pre: string, key: string, mid: string, value: string, post: string)
    requires '"' !in pre && '"' !in key && '"' !in mid && '"' !in value
    ensures ExtractQuotedValue(pre + "\"" + key + "\"" + mid + "\"" + value + "\"" + post) == value
  {
    var r3 := value + ['"'] + post;
    var r2 := mid + ['"'] + r3;
    var r1 := key + ['"'] + r2;
    assert pre + "\"" + key + "\"" + mid + "\"" + value + "\"" + post == pre + ['"'] + r1;
    SplitAfterAt(pre, r1, '"', 3);
    SplitAfterAt(key, r2, '"', 2);
    SplitAfterAt(mid, r3, '"', 1);
    SplitAfterAt(value, post, '"', 0);
  }

  /** On a line with one quoted text, that text is read. */
  lemma QuotedValueOfSingle(pre: string, value: string, post: string)
    requires '"' !in pre && '"' !in value && '"' !in post
    ensures ExtractQuotedValue(pre + "\"" + value + "\"" + post) == value
  {
    var line := pre + "\"" + value + "\"" + post;
    assert line == pre + ['"'] + (value + ['"'] + post);
    SplitAfter(pre, value + ['"'] + post, '"');
    SplitAfter(value, post, '"');
    SplitNone(post, '"');
  }

  /** A line without quotes gives "". */
  lemma QuotedValueOfUnquoted(line: string)
    requires '"' !in line
    ensures ExtractQuotedValue(line) == ""
  {
    SplitNone(line, '"');
  }

  // ---------------------------------------------------------------------------
  // ParseArgsArray

  /** One array element: trimmed of white space, then of surrounding quotes. */
  function CleanArg(part: string): string {
    TrimChar(Trim(part), '"')
  }

  function CleanArgs(parts: seq<string>): (r: seq<string>)
    ensures |r| == |parts| && forall i :: 0 <= i < |parts| ==> r[i] == CleanArg(parts[i])
  {
    seq(|parts|, i requires 0 <= i < |parts| => CleanArg(parts[i]))
  }

  /** ParseArgsArray: the elements between the first '[' and the first ']'.
      None stands for the exception Substring throws when that ']' comes
      before that '['. */
  function ArgsArray(line: string): Option<seq<string>>
  {
    var startIndex := IndexOfChar(line, '[', 0);
    var endIndex := IndexOfChar(line, ']', 0);
    if startIndex == -1 || endIndex == -1 then Some([])
    else if endIndex < startIndex then None
    else
      var content := line[startIndex + 1..endIndex];
      if Trim(content) == "" then Some([]) else Some(CleanArgs(Split(content, ',')))
  }

  /** ParseArgsArray, filling its result array in a loop. */
  method ParseArgsArray(line: string) returns (r: Option<seq<string>>)
    ensures r == ArgsArray(line)
  {
    var startIndex := IndexOfChar(line, '[', 0);
    var endIndex := IndexOfChar(line, ']', 0);
    if startIndex == -1 || endIndex == -1 {
      return Some([]);
    }
    if endIndex < startIndex {
      return None;
    }
    var arrayContent := line[startIndex + 1..endIndex];
    if Trim(arrayContent) == "" {
      return Some([]);
    }
    var parts := Split(arrayContent, ',');
    var result := new string[|parts|];
    var i := 0;
    while i < |parts|
      invariant 0 <= i <= |parts|
      invariant forall j :: 0 <= j < i ==> result[j] == CleanArg(parts[j])
    {
      result[i] := TrimChar(Trim(parts[i]), '"');
      i := i + 1;
    }
    assert result[..] == CleanArgs(parts);
    r := Some(result[..]);
  }

  /** Without a '[' or without a ']' the array is empty. */
  lemma ArgsArrayUnbracketed(line: string)
    requires '[' !in line || ']' !in line
    ensures ArgsArray(line) == Some([])
  {
  }

  /** When the brackets enclose something that is not blank, there is one
      element per comma plus one, and no element contains a comma or starts
      or ends with a quote. */
  lemma ArgsArrayElements(line: string, xs: seq<string>)
    requires ArgsArray(line) == Some(xs) && xs != []
    ensures var startIndex := IndexOfChar(line, '[', 0);
      var endIndex := IndexOfChar(line, ']', 0);
      0 <= startIndex < endIndex
      && |xs| == CountChar(line[startIndex + 1..endIndex], ',') + 1
    ensures forall i :: 0 <= i < |xs| ==>
      ',' !in xs[i] && (xs[i] == "" || (xs[i][0] != '"' && xs[i][|xs[i]| - 1] != '"'))
  {
    var startIndex := IndexOfChar(line, '[', 0);
    var endIndex := IndexOfChar(line, ']', 0);
    assert startIndex >= 0 && endIndex >= 0 && startIndex != endIndex;
    var parts := Split(line[startIndex + 1..endIndex], ',');
    assert xs == CleanArgs(parts);
    forall i | 0 <= i < |xs|
      ensures ',' !in xs[i] && (xs[i] == "" || (xs[i][0] != '"' && xs[i][|xs[i]| - 1] != '"'))
    {
      TrimCharSpec(Trim(parts[i]), '"');
      TrimCharShrinks(Trim(parts[i]), '"');
      TrimShrinks(parts[i]);
    }
  }

  /** The args array MCPConfiguration writes is read back element for element,
      for arguments that need no escaping and hold no ',' or bracket. */
  lemma ArgsArrayRoundTrip(args: seq<string>)
    requires forall i :: 0 <= i < |args| ==> PlainArg(args[i])
    ensures ArgsArray("[" + ArgsItems(args, |args|) + "]") == Some(args)
  {
    var items := ArgsItems(args, |args|);
    ArgsItemsNoBracket(args, |args|);
    ArgsArrayBracketed(items);
    if args == [] {
      assert items == "";
    } else {
      ArgsItemsPieces(args);
      ArgsItemsStart(args, |args|);
      TrimSpec(items);
      assert !IsBlank(items) by {
        assert !IsWhiteSpace(items[0]);
      }
      CleanPieces(args);
    }
  }

  /** A line that is one bracketed text: its elements are those of the text. */
  lemma ArgsArrayBracketed(items: string)
    requires '[' !in items && ']' !in items
    ensures ArgsArray("[" + items + "]")
      == if Trim(items) == "" then Some([]) else Some(CleanArgs(Split(items, ',')))
  {
    var line := "[" + items + "]";
    assert line == [] + [] + line;
    IndexOfCharAfter([], [], line, '[');
    assert line == [] + ("[" + items) + "]";
    IndexOfCharAfter([], "[" + items, "]", ']');
    assert line[1..|items| + 1] == items;
  }

  /** Cleaning the pieces gives the arguments back. */
  lemma CleanPieces(args: seq<string>)
    requires forall i :: 0 <= i < |args| ==> PlainArg(args[i])
    ensures CleanArgs(ArgPieces(args, |args|)) == args
  {
    var pieces := ArgPieces(args, |args|);
    forall i | 0 <= i < |args| ensures CleanArg(pieces[i]) == args[i] {
      CleanPiece(args[i], Lead(i));
    }
  }

  /** An argument that the writer copies unchanged and the reader splits
      correctly. */
  predicate PlainArg(a: string) {
    forall k :: 0 <= k < |a| ==> PlainChar(a[k])
  }

  predicate PlainChar(c: char) {
    c != '"' && c != '\\' && c != '\n' && c != '\r' && c != '\t' && c != ',' && c != '[' && c != ']'
  }

  lemma PlainArgChars(a: string)
    requires PlainArg(a)
    ensures '"' !in a && '\\' !in a && '\n' !in a && '\r' !in a && '\t' !in a
    ensures ',' !in a && '[' !in a && ']' !in a
  {
  }

  /** Such an argument is written as itself between quotes. */
  lemma PlainArgItem(args: seq<string>, j: nat)
    requires j < |args| && PlainArg(args[j])
    ensures ArgItem(args, j) == Quote(args[j]) + Separator(args, j)
  {
    var a := args[j];
    PlainArgChars(a);
    ReplaceCharAbsent(a, '\\', "\\\\");
    ReplaceCharAbsent(a, '"', "\\\"");
    ReplaceCharAbsent(a, '\n', "\\n");
    ReplaceCharAbsent(a, '\r', "\\r");
    ReplaceCharAbsent(a, '\t', "\\t");
  }

  function Quote(a: string): string {
    "\"" + a + "\""
  }

  /** What the writer puts after item `j`. */
  function Separator(args: seq<string>, j: nat): string {
    if j < |args| - 1 then ", " else ""
  }

  /** What the separator leaves in front of piece `i` once split at ','. */
  function Lead(i: nat): string {
    if i == 0 then "" else " "
  }

  /** The pieces of the first `n` items when split at ','. */
  function ArgPieces(args: seq<string>, n: nat): seq<string>
    requires n <= |args|
  {
    seq(n, i requires 0 <= i < n => Lead(i) + Quote(args[i]))
  }

  lemma TrimShrinks(s: string)
    ensures |Trim(s)| <= |s| && forall c :: c in Trim(s) ==> c in s
  {
    TrimStartSpec(s);
    TrimEndSpec(TrimStart(s));
    var t := TrimStart(s);
    forall c | c in Trim(s) ensures c in s {
      var k :| 0 <= k < |Trim(s)| && Trim(s)[k] == c;
      assert t[k] == c;
      assert s[|s| - |t| + k] == c;
    }
  }

  lemma TrimCharShrinks(s: string, x: char)
    ensures forall c :: c in TrimChar(s, x) ==> c in s
  {
    TrimCharStartSpec(s, x);
    var t := TrimCharStart(s, x);
    TrimCharEndSpec(t, x);
    forall c | c in TrimChar(s, x) ensures c in s {
      var k :| 0 <= k < |TrimChar(s, x)| && TrimChar(s, x)[k] == c;
      assert t[k] == c;
      assert s[|s| - |t| + k] == c;
    }
  }

  lemma ArgsItemsNoBracket(args: seq<string>, n: nat)
    requires n <= |args|
    requires forall i :: 0 <= i < |args| ==> PlainArg(args[i])
    ensures ']' !in ArgsItems(args, n) && '[' !in ArgsItems(args, n)
  {
    if n > 0 {
      var a := args[n - 1];
      ArgsItemsNoBracket(args, n - 1);
      PlainArgItem(args, n - 1);
      assert ']' !in Quote(a) && '[' !in Quote(a) by {
        PlainArgChars(a);
      }
      var tail := Quote(a) + Separator(args, n - 1);
      assert ']' !in tail && '[' !in tail;
      assert ArgsItems(args, n) == ArgsItems(args, n - 1) + tail;
    }
  }

  lemma ArgsItemsStart(args: seq<string>, n: nat)
    requires 0 < n <= |args|
    ensures ArgsItems(args, n) != [] && ArgsItems(args, n)[0] == '"'
  {
    if n > 1 {
      ArgsItemsStart(args, n - 1);
    }
  }

  lemma ArgPiecesSnoc(args: seq<string>, n: nat)
    requires n < |args|
    ensures ArgPieces(args, n + 1) == ArgPieces(args, n) + [Lead(n) + Quote(args[n])]
  {
  }

  /** The items up to `n` + 1 are those up to `n` and the quoted argument `n`
      with its separator. */
  lemma ArgsItemsSnoc(args: seq<string>, n: nat, t: string)
    requires n < |args| && PlainArg(args[n])
    ensures ArgsItems(args, n + 1) + t == ArgsItems(args, n) + (Quote(args[n]) + Separator(args, n) + t)
  {
    PlainArgItem(args, n);
  }

  /** The last item is the quoted argument alone. */
  lemma ArgsItemsLast(args: seq<string>)
    requires args != [] && PlainArg(args[|args| - 1])
    ensures ArgsItems(args, |args|) == ArgsItems(args, |args| - 1) + Quote(args[|args| - 1])
  {
    PlainArgItem(args, |args| - 1);
    AppendEmpty(Quote(args[|args| - 1]));
  }

  /** After the lead of the current piece, a quoted argument and ", " close the
      piece, and the space opens the next one. */
  lemma PieceThenComma(lead: string, a: string, t: string)
    requires ',' !in lead && ',' !in a
    ensures Split(lead + (Quote(a) + ", " + t), ',') == [lead + Quote(a)] + Split(" " + t, ',')
  {
    var piece := lead + Quote(a);
    assert lead + (Quote(a) + ", " + t) == piece + [','] + (" " + t);
    SplitAfter(piece, " " + t, ',');
  }

  /** The last quoted argument is the last piece. */
  lemma LastPiece(lead: string, a: string)
    requires ',' !in lead && ',' !in a
    ensures Split(lead + Quote(a), ',') == [lead + Quote(a)]
  {
    SplitNone(lead + Quote(a), ',');
  }

  /** Splitting the items written so far at ',' gives their pieces, and the
      space after the last separator starts the next piece. */
  lemma {:induction false} ArgsItemsSplit(args: seq<string>, n: nat, t: string)
    requires n < |args|
    requires forall i :: 0 <= i < |args| ==> PlainArg(args[i])
    ensures Split(ArgsItems(args, n) + t, ',') == ArgPieces(args, n) + Split(Lead(n) + t, ',')
    decreases n
  {
    if n > 0 {
      var m := n - 1;
      var a := args[m];
      var pieces := ArgPieces(args, m);
      PlainArgChars(a);
      calc {
        Split(ArgsItems(args, n) + t, ',');
        { ArgsItemsSnoc(args, m, t); }
        Split(ArgsItems(args, m) + (Quote(a) + ", " + t), ',');
        { ArgsItemsSplit(args, m, Quote(a) + ", " + t); }
        pieces + Split(Lead(m) + (Quote(a) + ", " + t), ',');
        { PieceThenComma(Lead(m), a, t); }
        pieces + ([Lead(m) + Quote(a)] + Split(" " + t, ','));
        { AppendAssoc(pieces, [Lead(m) + Quote(a)], Split(" " + t, ',')); }
        (pieces + [Lead(m) + Quote(a)]) + Split(" " + t, ',');
        { ArgPiecesSnoc(args, m); }
        ArgPieces(args, n) + Split(Lead(n) + t, ',');
      }
    } else {
      assert ArgsItems(args, 0) + t == t;
    }
  }

  /** All the items split into one piece per argument. */
  lemma ArgsItemsPieces(args: seq<string>)
    requires args != []
    requires forall i :: 0 <= i < |args| ==> PlainArg(args[i])
    ensures Split(ArgsItems(args, |args|), ',') == ArgPieces(args, |args|)
  {
    var m := |args| - 1;
    var a := args[m];
    ArgsItemsLast(args);
    ArgsItemsSplit(args, m, Quote(a));
    PlainArgChars(a);
    LastPiece(Lead(m), a);
    ArgPiecesSnoc(args, m);
  }

  /** A quoted argument after optional white space cleans back to the argument. */
  lemma CleanPiece(a: string, lead: string)
    requires PlainArg(a) && IsBlank(lead)
    ensures CleanArg(lead + Quote(a)) == a
  {
    var q := Quote(a);
    PlainArgChars(a);
    TrimLeadingBlank(lead, q);
    assert TrimEnd(q) == q;
    assert Trim(lead + q) == q;
    var aq := a + ['"'];
    assert q == ['"'] + aq;
    assert TrimCharStart(q, '"') == TrimCharStart(aq, '"');
    if a == [] {
      assert TrimCharStart(aq, '"') == TrimCharStart([], '"');
    } else {
      assert aq[0] == a[0];
      assert TrimCharStart(aq, '"') == aq;
      assert aq[..|aq| - 1] == a;
      assert TrimCharEnd(aq, '"') == TrimCharEnd(a, '"');
      assert a[|a| - 1] in a;
    }
  }

  lemma {:induction false} TrimLeadingBlank(lead: string, q: string)
    requires IsBlank(lead) && q != [] && !IsWhiteSpace(q[0])
    ensures TrimStart(lead + q) == q
    decreases |lead|
  {
    if lead == [] {
      assert lead + q == q;
    } else {
      assert (lead + q)[1..] == lead[1..] + q;
      TrimLeadingBlank(lead[1..], q);
    }
  }

  // ---------------------------------------------------------------------------
  // TryParseAnthropicFormatSimple: the mcp-unity server

  const PackagePattern := "PackageCache/com.gamelovers.mcp-unity"

  predicate IsQuote(c: char) {
    c == '"' || c == '\''
  }

  /** Where the backward scan from `k` stops: just after the nearest quote
      before `k`, or at 0. */
  function PathStart(s: string, k: nat): nat
    requires k <= |s|
  {
    if k == 0 || IsQuote(s[k - 1]) then k else PathStart(s, k - 1)
  }

  /** The scan stops after a quote or at the start, and passes no quote. */
  lemma {:induction false} PathStartSpec(s: string, k: nat)
    requires k <= |s|
    ensures var r := PathStart(s, k);
      r <= k && (r == 0 || IsQuote(s[r - 1])) && forall j :: r <= j < k ==> !IsQuote(s[j])
    decreases k
  {
    if !(k == 0 || IsQuote(s[k - 1])) {
      PathStartSpec(s, k - 1);
    }
  }

  /** The args of the recognised server: the quoted path around the package
      pattern when the pattern occurs after the first character, otherwise the
      server path the path manager reports (`serverPath`), if any; with
      neither, the default empty args. */
  function PackageArgs(json: string, serverPath: string): seq<string>
  {
    var packageIndex := IndexOf(json, PackagePattern, 0);
    if packageIndex > 0 then
      var pathStartIndex := PathStart(json, packageIndex);
      var pathEndIndex := PathEnd(json, packageIndex);
      if pathEndIndex > pathStartIndex then [json[pathStartIndex..pathEndIndex]] else []
    else if serverPath != "" then [serverPath]
    else []
  }

  /** The first '"' from `k` on, or failing that the first '\''. */
  function PathEnd(json: string, k: nat): int
    requires k <= |json|
  {
    var q := IndexOfChar(json, '"', k);
    if q == -1 then IndexOfChar(json, '\'', k) else q
  }

  /** The server the simplified reader adds. */
  function McpUnityServer(args: seq<string>): ServerConfig {
    NewServer().(
      name := "mcp-unity",
      description := "MCP服务器: mcp-unity",
      enabled := true,
      command := "node",
      transportType := Stdio,
      environmentVariables := [EnvironmentVariable("UNITY_PORT", "8090", false)],
      args := args)
  }

  /** The three markers the simplified reader looks for. */
  predicate IsMcpUnityText(json: string) {
    Contains(json, "mcp-unity") && Contains(json, "node") && Contains(json, "UNITY_PORT")
  }

  lemma PatternUnquoted()
    ensures forall k :: 0 <= k < |PackagePattern| ==> !IsQuote(PackagePattern[k])
  {
  }

  /** A quote found from the start of an unquoted pattern lies after it. */
  lemma QuoteAfterPattern(json: string, pat: string, p: nat, c: char)
    requires OccursAt(json, pat, p) && IsQuote(c)
    requires forall k :: 0 <= k < |pat| ==> !IsQuote(pat[k])
    ensures IndexOfChar(json, c, p) == -1 || p + |pat| <= IndexOfChar(json, c, p)
  {
    forall k | p <= k < p + |pat| ensures json[k] != c {
      assert json[k] == json[p..p + |pat|][k - p];
    }
  }

  lemma SliceContains(json: string, pat: string, p: nat, start: nat, end: nat)
    requires OccursAt(json, pat, p) && start <= p && p + |pat| <= end <= |json|
    ensures Contains(json[start..end], pat)
  {
    var arg := json[start..end];
    forall k | 0 <= k < |pat| ensures arg[p - start + k] == pat[k] {
      assert arg[p - start + k] == json[p + k];
      assert json[p..p + |pat|][k] == json[p + k];
    }
    assert arg[p - start..p - start + |pat|] == pat;
    ContainsAt(arg, pat, p - start);
  }

  lemma SliceUnquoted(json: string, p: nat, start: nat, end: nat)
    requires start <= p <= end <= |json|
    requires forall j :: start <= j < p ==> !IsQuote(json[j])
    requires forall j :: p <= j < end ==> json[j] != '"'
    ensures '"' !in json[start..end]
  {
    var arg := json[start..end];
    forall j | 0 <= j < |arg| ensures arg[j] != '"' {
      assert arg[j] == json[start + j];
    }
  }

  /** The text between the scan's start and the end quote around an unquoted
      pattern contains the pattern and no '"'. */
  lemma ArgAroundPattern(json: string, pat: string, p: nat)
    requires OccursAt(json, pat, p) && p <= |json|
    requires forall k :: 0 <= k < |pat| ==> !IsQuote(pat[k])
    requires PathEnd(json, p) > PathStart(json, p)
    ensures var arg := json[PathStart(json, p)..PathEnd(json, p)];
      Contains(arg, pat) && '"' !in arg
  {
    var start := PathStart(json, p);
    var end := PathEnd(json, p);
    PathStartSpec(json, p);
    IndexOfCharFirst(json, '"', p);
    QuoteAfterPattern(json, pat, p, '"');
    QuoteAfterPattern(json, pat, p, '\'');
    SliceContains(json, pat, p, start, end);
    SliceUnquoted(json, p, start, end);
  }

  /** The path cut out around the package pattern contains the pattern and no
      '"'. */
  lemma PackageArgAroundPattern(json: string, serverPath: string)
    requires IndexOf(json, PackagePattern, 0) > 0
    requires PackageArgs(json, serverPath) != []
    ensures Contains(PackageArgs(json, serverPath)[0], PackagePattern)
    ensures '"' !in PackageArgs(json, serverPath)[0]
  {
    PatternUnquoted();
    ArgAroundPattern(json, PackagePattern, IndexOf(json, PackagePattern, 0));
  }

  /** The recognised server passes MCPConfiguration's validation. */
  lemma McpUnityServerValid(args: seq<string>, isAbsoluteUri: string -> bool)
    ensures McpUnityServer(args).enabled && McpUnityServer(args).transportType == Stdio
    ensures ServerValid(McpUnityServer(args), isAbsoluteUri)
  {
  }

  // ---------------------------------------------------------------------------
  // GenerateJsonConfigFromMCPConfig: the record handed to JsonUtility

  /** MCPTransportType.ToString(). */
  function TransportEnumName(t: TransportType): string {
    match t
    case Stdio => "Stdio"
    case StreamableHttp => "StreamableHttp"
    case SSE => "SSE"
    case HTTP => "HTTP"
  }

  /** The transport whose lower-cased enum name is `name`, if any. */
  function TransportFromName(name: string): Option<TransportType> {
    if name == ToLower(TransportEnumName(Stdio)) then Some(Stdio)
    else if name == ToLower(TransportEnumName(StreamableHttp)) then Some(StreamableHttp)
    else if name == ToLower(TransportEnumName(SSE)) then Some(SSE)
    else if name == ToLower(TransportEnumName(HTTP)) then Some(HTTP)
    else None
  }

  /** The lower-cased names tell the four transports apart (they differ in
      length), so the exported name determines the transport. */
  lemma TransportNameRoundTrip(t: TransportType)
    ensures TransportFromName(ToLower(TransportEnumName(t))) == Some(t)
  {
    ToLowerSpec(TransportEnumName(Stdio));
    ToLowerSpec(TransportEnumName(StreamableHttp));
    ToLowerSpec(TransportEnumName(SSE));
    ToLowerSpec(TransportEnumName(HTTP));
  }

  datatype SerializableServer = SerializableServer(
    name: string,
    description: string,
    enabled: bool,
    transport_type: string,
    command: string,
    args: seq<string>,
    working_directory: string,
    url: string,
    timeout: int,
    auto_restart: bool,
    max_retries: int,
    log_output: bool)

  datatype SerializableConfig = SerializableConfig(
    enable_mcp: bool,
    max_concurrent_connections: int,
    default_timeout_seconds: int,
    servers: seq<SerializableServer>)

  /** One server record as exported. */
  function Serialize(server: ServerConfig): SerializableServer {
    SerializableServer(server.name, server.description, server.enabled,
      ToLower(TransportEnumName(server.transportType)), server.command, server.args,
      server.workingDirectory, server.httpUrl, server.timeoutSeconds,
      server.autoRestart, server.maxRetries, server.logOutput)
  }

  /** Every field of the export can be read back into the server record,
      except the environment variables, which the export leaves out. */
  function Deserialize(s: SerializableServer): Option<ServerConfig> {
    match TransportFromName(s.transport_type)
    case None => None
    case Some(t) => Some(ServerConfig(s.name, s.description, s.enabled, t, s.command, s.args,
      s.working_directory, s.url, s.timeout, [], s.auto_restart, s.max_retries, s.log_output))
  }

  lemma SerializeRoundTrip(server: ServerConfig)
    ensures Deserialize(Serialize(server)) == Some(server.(environmentVariables := []))
  {
    TransportNameRoundTrip(server.transportType);
  }

  /** The argument search of TryParseAnthropicFormatSimple: the quoted path
      around the package pattern, scanned backwards to its opening quote, or
      the server path when the pattern is missing or opens the text. */
  method FindPackageArgs(json: string, serverPath: string) returns (args: seq<string>)
    ensures args == PackageArgs(json, serverPath)
  {
    args := NewServer().args;
    var packageIndex := IndexOf(json, PackagePattern, 0);
    if packageIndex > 0 {
      var pathStartIndex := packageIndex;
      while pathStartIndex > 0 && json[pathStartIndex - 1] != '"' && json[pathStartIndex - 1] != '\''
        invariant 0 <= pathStartIndex <= packageIndex
        invariant PathStart(json, pathStartIndex) == PathStart(json, packageIndex)
      {
        pathStartIndex := pathStartIndex - 1;
      }
      var pathEndIndex := IndexOfChar(json, '"', packageIndex);
      if pathEndIndex == -1 {
        pathEndIndex := IndexOfChar(json, '\'', packageIndex);
      }
      if pathEndIndex > pathStartIndex {
        args := [json[pathStartIndex..pathEndIndex]];
      }
    } else if serverPath != "" {
      args := [serverPath];
    }
  }

  // ---------------------------------------------------------------------------
  // The wizard's state

  const CancelledMessage := "设置已取消"

  class SetupWizard {
    var currentStep: int
    var statusMessage: string
    var progress: real
    var isProcessing: bool
    var setupCompleted: bool
    var mcpConfig: MCPConfiguration?
    var mcpJsonConfig: string

    /** The field initialisers; the configuration asset is loaded later. */
    constructor ()
      ensures currentStep == 0 && statusMessage == "" && progress == 0.0
      ensures !isProcessing && !setupCompleted && mcpConfig == null && mcpJsonConfig == ""
    {
      currentStep := 0;
      statusMessage := "";
      progress := 0.0;
      isProcessing := false;
      setupCompleted := false;
      mcpConfig := null;
      mcpJsonConfig := "";
    }

    /** CancelSetup: back to step 0, idle, with the cancel message. */
    method CancelSetup()
      modifies this
      ensures !isProcessing && statusMessage == CancelledMessage && currentStep == 0 && progress == 0.0
      ensures setupCompleted == old(setupCompleted) && mcpConfig == old(mcpConfig)
      ensures mcpJsonConfig == old(mcpJsonConfig)
    {
      isProcessing := false;
      statusMessage := CancelledMessage;
      currentStep := 0;
      progress := 0.0;
    }

    /** ResetMCPConfig: the configuration goes back to its defaults with no
        servers, and the JSON text is regenerated from it. */
    method ResetMCPConfig()
      modifies this, mcpConfig
      ensures mcpConfig == old(mcpConfig)
      ensures old(mcpConfig) == null ==> mcpJsonConfig == old(mcpJsonConfig)
      ensures mcpConfig != null ==>
        !mcpConfig.enableMCP && mcpConfig.maxConcurrentConnections == 3
        && mcpConfig.defaultTimeoutSeconds == 30 && mcpConfig.servers == []
        && mcpJsonConfig == AnthropicJson([])
      ensures currentStep == old(currentStep) && statusMessage == old(statusMessage) && progress == old(progress)
      ensures isProcessing == old(isProcessing) && setupCompleted == old(setupCompleted)
    {
      if mcpConfig != null {
        mcpConfig.enableMCP := false;
        mcpConfig.maxConcurrentConnections := 3;
        mcpConfig.defaultTimeoutSeconds := 30;
        mcpConfig.servers := [];
        UpdateMCPJsonConfig();
        EnabledOfEmpty([]);
      }
    }

    /** UpdateMCPJsonConfig: regenerates the JSON text from the configuration
        (the copy written to disk is not modelled). */
    method UpdateMCPJsonConfig()
      modifies this
      ensures mcpConfig == old(mcpConfig)
      ensures mcpConfig != null ==> mcpJsonConfig == AnthropicJson(EnabledOf(mcpConfig.servers))
      ensures mcpConfig == null ==> mcpJsonConfig == old(mcpJsonConfig)
      ensures currentStep == old(currentStep) && statusMessage == old(statusMessage) && progress == old(progress)
      ensures isProcessing == old(isProcessing) && setupCompleted == old(setupCompleted)
    {
      if mcpConfig != null {
        mcpJsonConfig := mcpConfig.GenerateAnthropicMCPJson();
      }
    }

    /** TryParseAnthropicFormat up to its unconditional return: a text without
        "mcpServers" is refused and nothing changes; otherwise the server list
        is cleared and the simplified reader decides. */
    method TryParseAnthropicFormat(serverPath: string) returns (ok: bool)
      requires mcpConfig != null
      modifies mcpConfig
      ensures !Contains(mcpJsonConfig, "mcpServers") ==>
        !ok && mcpConfig.servers == old(mcpConfig.servers) && mcpConfig.enableMCP == old(mcpConfig.enableMCP)
      ensures Contains(mcpJsonConfig, "mcpServers") && IsMcpUnityText(mcpJsonConfig) ==>
        ok && mcpConfig.servers == [McpUnityServer(PackageArgs(mcpJsonConfig, serverPath))] && mcpConfig.enableMCP
      ensures Contains(mcpJsonConfig, "mcpServers") && !IsMcpUnityText(mcpJsonConfig) ==>
        !ok && mcpConfig.servers == [] && mcpConfig.enableMCP == old(mcpConfig.enableMCP)
      ensures mcpConfig.maxConcurrentConnections == old(mcpConfig.maxConcurrentConnections)
      ensures mcpConfig.defaultTimeoutSeconds == old(mcpConfig.defaultTimeoutSeconds)
    {
      if !Contains(mcpJsonConfig, "mcpServers") {
        return false;
      }
      mcpConfig.servers := [];
      ok := TryParseAnthropicFormatSimple(serverPath);
    }

    /** TryParseAnthropicFormatSimple: recognises the mcp-unity server by its
        three markers and appends it, with the package path as its argument. */
    method TryParseAnthropicFormatSimple(serverPath: string) returns (ok: bool)
      requires mcpConfig != null
      modifies mcpConfig
      ensures ok == IsMcpUnityText(mcpJsonConfig)
      ensures ok ==> (mcpConfig.servers == old(mcpConfig.servers) + [McpUnityServer(PackageArgs(mcpJsonConfig, serverPath))]
                      && mcpConfig.enableMCP)
      ensures !ok ==> mcpConfig.servers == old(mcpConfig.servers) && mcpConfig.enableMCP == old(mcpConfig.enableMCP)
      ensures mcpConfig.maxConcurrentConnections == old(mcpConfig.maxConcurrentConnections)
      ensures mcpConfig.defaultTimeoutSeconds == old(mcpConfig.defaultTimeoutSeconds)
    {
      var json := mcpJsonConfig;
      if !(Contains(json, "mcp-unity") && Contains(json, "node") && Contains(json, "UNITY_PORT")) {
        return false;
      }
      var args := FindPackageArgs(json, serverPath);
      mcpConfig.servers := mcpConfig.servers + [McpUnityServer(args)];
      mcpConfig.enableMCP := true;
      ok := true;
    }

    /** GenerateJsonConfigFromMCPConfig, up to the call of the engine's JSON
        serialiser: the export record, its server array filled in a loop. */
    method GenerateJsonConfigFromMCPConfig() returns (config: SerializableConfig)
      requires mcpConfig != null
      ensures config.enable_mcp == mcpConfig.enableMCP
      ensures config.max_concurrent_connections == mcpConfig.maxConcurrentConnections
      ensures config.default_timeout_seconds == mcpConfig.defaultTimeoutSeconds
      ensures |config.servers| == |mcpConfig.servers|
      ensures forall i :: 0 <= i < |config.servers| ==> config.servers[i] == Serialize(mcpConfig.servers[i])
    {
      var servers := new SerializableServer[|mcpConfig.servers|];
      var i := 0;
      while i < |mcpConfig.servers|
        invariant 0 <= i <= |mcpConfig.servers|
        invariant forall j :: 0 <= j < i ==> servers[j] == Serialize(mcpConfig.servers[j])
      {
        var server := mcpConfig.servers[i];
        servers[i] := SerializableServer(server.name, server.description, server.enabled,
          ToLower(TransportEnumName(server.transportType)), server.command, server.args,
          server.workingDirectory, server.httpUrl, server.timeoutSeconds,
          server.autoRestart, server.maxRetries, server.logOutput);
        i := i + 1;
      }
      config := SerializableConfig(mcpConfig.enableMCP, mcpConfig.maxConcurrentConnections,
        mcpConfig.defaultTimeoutSeconds, servers[..]);
    }
  }
}
