/** The Python side's MCP manager: it reads the editor's MCP configuration
    file, converts the "mcpServers" format into its own server list, and
    reports what a reload found. Configurations are decoded JSON values;
    every step that raises is caught, so an exception is modelled as the
    value the surrounding handler returns. */
module McpManager {
  import opened Text
  import opened PyValues

  /** The configuration used when no file exists or conversion fails. */
  const DefaultConfig: Value := Dict([
    ("enable_mcp", Bool(false)), ("max_concurrent_connections", Int(3)),
    ("default_timeout_seconds", Int(30)), ("servers", List([]))
  ])

  // ----- _convert_anthropic_config -----

  /** The transport mapping: "sse" stays, the HTTP spellings and every
      other hashable value become "streamable_http"; a list or dict cannot
      be looked up in the mapping and raises. */
  function MapTransport(transport: Value): (r: Option<string>)
    ensures r.None? <==> transport.List? || transport.Dict?
    ensures r.Some? ==> (r.value == "sse" <==> transport == Str("sse"))
    ensures r.Some? ==> r.value in {"sse", "streamable_http"}
  {
    match transport
    case List(_) => None
    case Dict(_) => None
    case Str(s) =>
      if s == "sse" then Some("sse")
      else if s == "streamable_http" || s == "http" || s == "https" then Some("streamable_http")
      else Some("streamable_http")
    case _ => Some("streamable_http")
  }

  /** The entries every converted server starts with. */
  function BaseEntries(name: string): seq<(string, Value)>
  {
    [("name", Str(name)), ("enabled", Bool(true)), ("description", Str("MCP服务器: " + name))]
  }

  /** The stdio fields: the command, its arguments (default []), the
      working directory and the environment taken from "env". */
  function StdioEntries(config: Value): seq<(string, Value)>
    requires config.Dict?
  {
    [("transport_type", Str("stdio")), ("command", Get(config, "command", Str("")).value),
     ("args", Get(config, "args", List([])).value),
     ("working_directory", Get(config, "working_directory", Str("")).value),
     ("env_vars", Get(config, "env", Dict([])).value)]
  }

  /** The remote fields: transport, URL, a 30-second timeout and headers. */
  function RemoteEntries(transport: string, config: Value): seq<(string, Value)>
    requires config.Dict?
  {
    [("transport_type", Str(transport)), ("url", Get(config, "url", Str("")).value), ("timeout", Int(30)),
     ("headers", Get(config, "headers", Dict([])).value)]
  }

  /** One server of the loop, or None when a step raises: a "command"
      makes it stdio; "transport" with "url" maps the transport; "url"
      alone is streamable HTTP; otherwise only the base entries. */
  function ConvertServer(name: string, config: Value): (r: Option<seq<(string, Value)>>)
    ensures r.Some? ==> |r.value| >= 3 && r.value[..3] == BaseEntries(name)
    ensures r.Some? ==> forall j :: 3 <= j < |r.value| ==>
      r.value[j].0 != "name" && r.value[j].0 != "enabled" && r.value[j].0 != "description"
  {
    match In("command", config)
    case None => None
    case Some(hasCommand) =>
      if hasCommand then
        if config.Dict? then Some(BaseEntries(name) + StdioEntries(config)) else None
      else if In("transport", config).value && In("url", config).value then
        if config.Dict? then
          match MapTransport(Get(config, "transport", Str("streamable_http")).value)
          case None => None
          case Some(transport) => Some(BaseEntries(name) + RemoteEntries(transport, config))
        else None
      else if In("url", config).value then
        if config.Dict? then Some(BaseEntries(name) + RemoteEntries("streamable_http", config)) else None
      else Some(BaseEntries(name))
  }

  /** The servers converted from the first entries of "mcpServers", or
      None when one of them raises. */
  function ConvertedServers(entries: seq<(string, Value)>): Option<seq<Value>>
  {
    if entries == [] then Some([])
    else
      match ConvertedServers(entries[..|entries| - 1])
      case None => None
      case Some(servers) =>
        var (name, config) := entries[|entries| - 1];
        match ConvertServer(name, config)
        case None => None
        case Some(server) => Some(servers + [Dict(server)])
  }

  /** The converted configuration: MCP is enabled exactly when some server
      was converted, with at most five connections at once. */
  function ConvertedOf(servers: seq<Value>): Value
  {
    Dict([("enable_mcp", Bool(|servers| > 0)), ("max_concurrent_connections", Int(5)),
          ("default_timeout_seconds", Int(30)), ("servers", List(servers))])
  }

  lemma ConvertedOfFields(servers: seq<Value>)
    ensures var r := ConvertedOf(servers).entries;
      Lookup(r, "enable_mcp") == Some(Bool(|servers| > 0)) && Lookup(r, "max_concurrent_connections") == Some(Int(5))
      && Lookup(r, "servers") == Some(List(servers))
  {
    var r := ConvertedOf(servers).entries;
    LookupAt(r, 0, "enable_mcp");
    LookupAt(r, 1, "max_concurrent_connections");
    LookupAt(r, 3, "servers");
  }

  /** What _convert_anthropic_config returns for a configuration. */
  function Converted(config: Value): Value
  {
    match Get(config, "mcpServers", Dict([]))
    case None => DefaultConfig
    case Some(mcpServers) =>
      if !mcpServers.Dict? then DefaultConfig
      else
        match ConvertedServers(mcpServers.entries)
        case None => DefaultConfig
        case Some(servers) => ConvertedOf(servers)
  }

  /** _convert_anthropic_config: a loop over the "mcpServers" entries,
      appending one converted server per entry. */
  method ConvertAnthropicConfig(config: Value) returns (r: Value)
    ensures r == Converted(config)
  {
    var mcpServers := Get(config, "mcpServers", Dict([]));
    if mcpServers.None? || !mcpServers.value.Dict? {
      return DefaultConfig;
    }
    var entries := mcpServers.value.entries;
    var servers: seq<Value> := [];
    var i := 0;
    while i < |entries|
      invariant 0 <= i <= |entries|
      invariant ConvertedServers(entries[..i]) == Some(servers)
    {
      var (name, serverConfig) := entries[i];
      var server := ConvertServer(name, serverConfig);
      assert entries[..i + 1][..i] == entries[..i];
      if server.None? {
        ConvertedServersEach(entries);
        return DefaultConfig;
      }
      servers := servers + [Dict(server.value)];
      i := i + 1;
    }
    assert entries[..i] == entries;
    return ConvertedOf(servers);
  }

  // ----- What the conversion promises -----

  /** One server per "mcpServers" entry, in order, each the conversion of
      its entry; the conversion fails as a whole exactly when one entry's
      fails. */
  lemma {:induction false} ConvertedServersEach(entries: seq<(string, Value)>)
    ensures ConvertedServers(entries).None? <==>
      exists i :: 0 <= i < |entries| && ConvertServer(entries[i].0, entries[i].1).None?
    ensures ConvertedServers(entries).Some? ==>
      var servers := ConvertedServers(entries).value;
      |servers| == |entries|
      && forall i :: 0 <= i < |entries| ==> servers[i] == Dict(ConvertServer(entries[i].0, entries[i].1).value)
    decreases |entries|
  {
    if entries != [] {
      var init := entries[..|entries| - 1];
      var last := |entries| - 1;
      ConvertedServersEach(init);
      assert forall i :: 0 <= i < |init| ==> init[i] == entries[i];
      if ConvertedServers(init).Some? && ConvertServer(entries[last].0, entries[last].1).Some? {
        var servers := ConvertedServers(entries).value;
        assert servers == ConvertedServers(init).value + [Dict(ConvertServer(entries[last].0, entries[last].1).value)];
      }
    }
  }

  /** Each converted server is named after its key and enabled. */
  lemma ServerNamedAndEnabled(name: string, config: Value)
    requires ConvertServer(name, config).Some?
    ensures var server := ConvertServer(name, config).value;
      Lookup(server, "name") == Some(Str(name)) && Lookup(server, "enabled") == Some(Bool(true))
  {
    var server := ConvertServer(name, config).value;
    assert server[..3] == BaseEntries(name);
    assert server[1].0 == "enabled" && server[2].0 == "description";
    LookupAt(server, 0, "name");
    LookupAt(server, 1, "enabled");
  }

  /** A server with a "command" becomes a stdio server: its arguments
      default to [], its environment comes from "env". */
  lemma StdioServer(name: string, config: seq<(string, Value)>)
    requires Lookup(config, "command").Some?
    ensures var server := ConvertServer(name, Dict(config)).value;
      Lookup(server, "transport_type") == Some(Str("stdio"))
      && Lookup(server, "args") == Get(Dict(config), "args", List([]))
      && Lookup(server, "env_vars") == Get(Dict(config), "env", Dict([]))
  {
    assert In("command", Dict(config)) == Some(true);
    assert ConvertServer(name, Dict(config)) == Some(BaseEntries(name) + StdioEntries(Dict(config)));
    StdioFields(name, Dict(config));
  }

  lemma StdioFields(name: string, c: Value)
    requires c.Dict?
    ensures var server := BaseEntries(name) + StdioEntries(c);
      Lookup(server, "transport_type") == Some(Str("stdio"))
      && Lookup(server, "args") == Get(c, "args", List([]))
      && Lookup(server, "env_vars") == Get(c, "env", Dict([]))
  {
    var server := BaseEntries(name) + StdioEntries(c);
    LookupAt(server, 3, "transport_type");
    LookupAt(server, 5, "args");
    LookupAt(server, 7, "env_vars");
  }

  /** A server with a transport and a URL maps the transport: "sse" to
      "sse", anything else hashable to "streamable_http", with a
      30-second timeout. */
  lemma RemoteServer(name: string, config: seq<(string, Value)>)
    requires Lookup(config, "command").None? && Lookup(config, "url").Some?
    requires Lookup(config, "transport").Some?
    requires !Lookup(config, "transport").value.List? && !Lookup(config, "transport").value.Dict?
    ensures var server := ConvertServer(name, Dict(config)).value;
      var transport := Lookup(config, "transport").value;
      Lookup(server, "transport_type") == Some(Str(if transport == Str("sse") then "sse" else "streamable_http"))
      && Lookup(server, "url") == Lookup(config, "url")
      && Lookup(server, "timeout") == Some(Int(30))
  {
    var c := Dict(config);
    var transport := MapTransport(Lookup(config, "transport").value).value;
    RemoteConverted(name, config);
    RemoteFields(name, transport, c);
  }

  lemma RemoteConverted(name: string, config: seq<(string, Value)>)
    requires Lookup(config, "command").None? && Lookup(config, "url").Some?
    requires Lookup(config, "transport").Some?
    requires !Lookup(config, "transport").value.List? && !Lookup(config, "transport").value.Dict?
    ensures ConvertServer(name, Dict(config))
      == Some(BaseEntries(name) + RemoteEntries(MapTransport(Lookup(config, "transport").value).value, Dict(config)))
  {
    var c := Dict(config);
    assert In("command", c) == Some(false) && In("transport", c) == Some(true) && In("url", c) == Some(true);
    assert Get(c, "transport", Str("streamable_http")) == Lookup(config, "transport");
  }

  lemma RemoteFields(name: string, transport: string, c: Value)
    requires c.Dict?
    ensures var server := BaseEntries(name) + RemoteEntries(transport, c);
      Lookup(server, "transport_type") == Some(Str(transport))
      && Lookup(server, "url") == Get(c, "url", Str(""))
      && Lookup(server, "timeout") == Some(Int(30))
  {
    var server := BaseEntries(name) + RemoteEntries(transport, c);
    LookupAt(server, 3, "transport_type");
    LookupAt(server, 4, "url");
    LookupAt(server, 5, "timeout");
  }

  /** A URL without a transport means streamable HTTP with a 30-second
      timeout. */
  lemma UrlOnlyServer(name: string, config: seq<(string, Value)>)
    requires Lookup(config, "command").None? && Lookup(config, "transport").None?
    requires Lookup(config, "url").Some?
    ensures var server := ConvertServer(name, Dict(config)).value;
      Lookup(server, "transport_type") == Some(Str("streamable_http"))
      && Lookup(server, "url") == Lookup(config, "url")
      && Lookup(server, "timeout") == Some(Int(30))
  {
    assert ConvertServer(name, Dict(config)) == Some(BaseEntries(name) + RemoteEntries("streamable_http", Dict(config)));
    RemoteFields(name, "streamable_http", Dict(config));
  }

  /** The conversion of a configuration whose "mcpServers" all convert:
      one enabled server per key, MCP enabled iff there is a server, five
      connections. */
  lemma ConvertedConfigShape(config: seq<(string, Value)>, mcpServers: seq<(string, Value)>)
    requires Lookup(config, "mcpServers") == Some(Dict(mcpServers))
    requires forall i :: 0 <= i < |mcpServers| ==> ConvertServer(mcpServers[i].0, mcpServers[i].1).Some?
    ensures var r := Converted(Dict(config));
      r.Dict? && Lookup(r.entries, "servers").Some? && Lookup(r.entries, "servers").value.List?
      && var servers := Lookup(r.entries, "servers").value.items;
      |servers| == |mcpServers|
      && Lookup(r.entries, "enable_mcp") == Some(Bool(|mcpServers| > 0))
      && Lookup(r.entries, "max_concurrent_connections") == Some(Int(5))
      && forall i :: 0 <= i < |servers| ==>
           servers[i].Dict? && Lookup(servers[i].entries, "name") == Some(Str(mcpServers[i].0))
           && Lookup(servers[i].entries, "enabled") == Some(Bool(true))
  {
    ConvertedServersEach(mcpServers);
    var servers := ConvertedServers(mcpServers).value;
    assert Converted(Dict(config)) == ConvertedOf(servers);
    ConvertedOfFields(servers);
    forall i | 0 <= i < |servers|
      ensures servers[i].Dict? && Lookup(servers[i].entries, "name") == Some(Str(mcpServers[i].0))
        && Lookup(servers[i].entries, "enabled") == Some(Bool(true))
    {
      ServerNamedAndEnabled(mcpServers[i].0, mcpServers[i].1);
    }
  }

  // ----- _load_unity_mcp_config -----

  const ConfigFile := "Assets/UnityAIAgent/mcp_config.json"

  /** os.path.join of a directory and a relative path. */
  function JoinPath(dir: string, rel: string): string
  {
    if dir == [] || dir[|dir| - 1] == '/' then dir + rel else dir + "/" + rel
  }

  /** The places searched: the file under PROJECT_ROOT_PATH when that is
      set and non-empty, else four paths relative to the working directory. */
  function ConfigPaths(projectRoot: string): (paths: seq<string>)
    ensures projectRoot != "" ==> paths == [JoinPath(projectRoot, ConfigFile)]
    ensures projectRoot == "" ==> |paths| == 4 && paths[0] == ConfigFile
  {
    if projectRoot != "" then [JoinPath(projectRoot, ConfigFile)]
    else [ConfigFile, "../" + ConfigFile, "../../" + ConfigFile, "mcp_config.json"]
  }

  /** `len(raw.get('mcpServers', {}))`, logged before the conversion: None
      when `raw` has no `get` (a string or list) or the value has no length. */
  function ServerCount(raw: Value): Option<nat>
  {
    match Get(raw, "mcpServers", Dict([]))
    case None => None
    case Some(servers) => Len(servers)
  }

  /** The format dispatch: a configuration with "mcpServers" has its
      servers counted and is converted; one without is used as it is (the
      legacy format); a value that cannot be searched for the key, or
      whose servers cannot be counted, raises, and loading yields None. */
  function Dispatch(raw: Value): Value
  {
    match In("mcpServers", raw)
    case None => PyNone
    case Some(isAnthropic) =>
      if !isAnthropic then raw
      else if ServerCount(raw).None? then PyNone
      else Converted(raw)
  }

  /** Loading fails exactly when the content cannot be searched for
      "mcpServers", or holds the key but is not a dict, or is a dict whose
      "mcpServers" value has no length. */
  lemma DispatchFails(raw: Value)
    ensures Dispatch(raw) == PyNone <==>
      raw.PyNone? || raw.Bool? || raw.Int?
      || (In("mcpServers", raw) == Some(true)
          && (!raw.Dict? || var servers := Lookup(raw.entries, "mcpServers").value;
                            servers.PyNone? || servers.Bool? || servers.Int?))
  {
  }

  /** The index of the first existing path, or |paths|. */
  function FirstExisting(paths: seq<string>, exists_: string -> bool): (k: nat)
    ensures k <= |paths| && (k < |paths| ==> exists_(paths[k]))
    ensures forall j :: 0 <= j < k ==> !exists_(paths[j])
  {
    if paths == [] then 0
    else if exists_(paths[0]) then 0
    else 1 + FirstExisting(paths[1..], exists_)
  }

  /** What loading returns: the dispatched content of the first existing
      file (None when it cannot be read or decoded), or the default. */
  function Loaded(projectRoot: string, exists_: string -> bool, parse: string -> Option<Value>): Value
  {
    var paths := ConfigPaths(projectRoot);
    var k := FirstExisting(paths, exists_);
    if k == |paths| then DefaultConfig
    else
      match parse(paths[k])
      case None => PyNone
      case Some(raw) => Dispatch(raw)
  }

  /** _load_unity_mcp_config. `exists_` is os.path.exists; `parse` reads a
      file and decodes its JSON, None when either fails. */
  method LoadUnityMcpConfig(projectRoot: string, exists_: string -> bool, parse: string -> Option<Value>)
    returns (r: Value)
    ensures r == Loaded(projectRoot, exists_, parse)
  {
    var paths := ConfigPaths(projectRoot);
    var i := 0;
    while i < |paths|
      invariant 0 <= i <= |paths|
      invariant FirstExisting(paths[i..], exists_) + i == FirstExisting(paths, exists_)
    {
      if exists_(paths[i]) {
        var raw := parse(paths[i]);
        if raw.None? {
          return PyNone;
        }
        var isAnthropic := In("mcpServers", raw.value);
        if isAnthropic.None? {
          return PyNone;
        }
        if isAnthropic.value {
          var count := ServerCount(raw.value);
          if count.None? {
            return PyNone;
          }
          r := ConvertAnthropicConfig(raw.value);
          return;
        }
        return raw.value;
      }
      assert paths[i..][1..] == paths[i + 1..];
      i := i + 1;
    }
    return DefaultConfig;
  }

  /** Without any configuration file, MCP is off with no servers. */
  lemma NoFileMeansDefault(projectRoot: string, exists_: string -> bool, parse: string -> Option<Value>)
    requires forall p :: !exists_(p)
    ensures Loaded(projectRoot, exists_, parse) == DefaultConfig
  {
  }

  /** A configuration in the legacy format is used unchanged. */
  lemma LegacyUnchanged(entries: seq<(string, Value)>)
    requires Lookup(entries, "mcpServers").None?
    ensures Dispatch(Dict(entries)) == Dict(entries)
  {
  }

  // ----- reload_config -----

  /** What reload_config reports of one server. */
  datatype ServerSummary = ServerSummary(name: Value, transportType: Value, enabled: Value)

  /** The reload report: the counts found, a configuration that failed to
      load, or an exception caught while reading it (whose message the
      report carries, not modelled here). */
  datatype ReloadReport =
    | Reloaded(mcpEnabled: Value, serverCount: nat, enabledServerCount: nat, servers: seq<ServerSummary>)
    | LoadFailed
    | ReloadFailed

  /** The servers whose "enabled" is true, or None when one is not a dict. */
  function EnabledServers(items: seq<Value>): (r: Option<seq<Value>>)
    ensures r.None? <==> exists i :: 0 <= i < |items| && !items[i].Dict?
    ensures r.Some? ==> |r.value| <= |items|
  {
    if items == [] then Some([])
    else if !items[0].Dict? then None
    else
      match EnabledServers(items[1..])
      case None => None
      case Some(rest) =>
        Some((if Truthy(Get(items[0], "enabled", Bool(false)).value) then [items[0]] else []) + rest)
  }

  /** The number of servers whose "enabled" is true. */
  function CountEnabled(items: seq<Value>): nat
    requires forall i :: 0 <= i < |items| ==> items[i].Dict?
  {
    if items == [] then 0
    else (if Truthy(Get(items[0], "enabled", Bool(false)).value) then 1 else 0) + CountEnabled(items[1..])
  }

  function Summary(server: Value): ServerSummary
    requires server.Dict?
  {
    ServerSummary(Get(server, "name", PyNone).value, Get(server, "transport_type", PyNone).value,
                  Get(server, "enabled", PyNone).value)
  }

  /** The report on a loaded configuration. */
  function Report(config: Value): ReloadReport
  {
    if !Truthy(config) then LoadFailed
    else
      match Get(config, "servers", List([]))
      case None => ReloadFailed
      case Some(servers) =>
        match Iterate(servers)
        case None => ReloadFailed
        case Some(items) =>
          match EnabledServers(items)
          case None => ReloadFailed
          case Some(enabled) =>
            Reloaded(Get(config, "enable_mcp", Bool(false)).value, |items|, |enabled|,
                     seq(|items|, i requires 0 <= i < |items| && items[i].Dict? => Summary(items[i])))
  }

  lemma {:induction false} EnabledServersCount(items: seq<Value>)
    requires forall i :: 0 <= i < |items| ==> items[i].Dict?
    ensures EnabledServers(items).Some? && |EnabledServers(items).value| == CountEnabled(items)
    decreases |items|
  {
    if items != [] {
      EnabledServersCount(items[1..]);
    }
  }

  /** server_count is the number of servers and enabled_server_count the
      number of them whose "enabled" is true. */
  lemma ReportCounts(config: seq<(string, Value)>, servers: seq<Value>)
    requires config != [] && Lookup(config, "servers") == Some(List(servers))
    requires forall i :: 0 <= i < |servers| ==> servers[i].Dict?
    ensures var report := Report(Dict(config));
      report.Reloaded? && report.serverCount == |servers| && report.enabledServerCount == CountEnabled(servers)
      && report.enabledServerCount <= report.serverCount
  {
    EnabledServersCount(servers);
  }

  /** After the "mcpServers" conversion every server is enabled, so the
      report counts all of them as enabled, and MCP is on exactly when
      there is one. */
  lemma ConvertedReportAllEnabled(servers: seq<Value>)
    requires forall i :: 0 <= i < |servers| ==> servers[i].Dict? && Lookup(servers[i].entries, "enabled") == Some(Bool(true))
    ensures var report := Report(ConvertedOf(servers));
      report.Reloaded? && report.serverCount == |servers| && report.enabledServerCount == |servers|
      && report.mcpEnabled == Bool(|servers| > 0)
  {
    AllEnabledCount(servers);
    EnabledServersCount(servers);
    ConvertedOfFields(servers);
  }

  lemma {:induction false} AllEnabledCount(servers: seq<Value>)
    requires forall i :: 0 <= i < |servers| ==> servers[i].Dict? && Lookup(servers[i].entries, "enabled") == Some(Bool(true))
    ensures CountEnabled(servers) == |servers|
    decreases |servers|
  {
    if servers != [] {
      AllEnabledCount(servers[1..]);
    }
  }

  // ----- The manager object -----

  /** A connected MCP client or a tool it provides, by identity. */
  type Handle = nat

  class McpManager {
    var mcpClients: seq<Handle>
    var mcpTools: seq<Handle>
    var config: Value

    constructor ()
      ensures mcpClients == [] && mcpTools == [] && config == PyNone
    {
      mcpClients := [];
      mcpTools := [];
      config := PyNone;
    }

    /** cleanup: every client is closed and every tool cleaned up (the
        closing itself is foreign code); both lists end empty. */
    method Cleanup()
      modifies this
      ensures mcpClients == [] && mcpTools == [] && config == old(config)
    {
      mcpClients := [];
      mcpTools := [];
    }

    /** reload_config: cleans up, loads the configuration again, keeps it,
        and reports on it. */
    method ReloadConfig(projectRoot: string, exists_: string -> bool, parse: string -> Option<Value>)
      returns (report: ReloadReport)
      modifies this
      ensures mcpClients == [] && mcpTools == []
      ensures config == Loaded(projectRoot, exists_, parse)
      ensures report == Report(config)
    {
      Cleanup();
      var loaded := LoadUnityMcpConfig(projectRoot, exists_, parse);
      config := loaded;
      report := Report(loaded);
    }
  }
}
