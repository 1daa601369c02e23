/** The editor's path configuration: the project root, the candidate
    locations of the Python executable and of the SSL certificates, and the
    rules that turn a configured path into an absolute one, pick the first
    candidate that exists and validate the configuration. Paths follow the
    Unix rules of .NET's System.IO.Path (the separator is '/', a rooted
    path starts with it). */
module PathConfig {
  import opened Text

  /** What the configuration asks of the machine: the user's home
      directory, the files and directories that exist, and the directory
      holding the project's Assets folder (Path.GetDirectoryName of
      Application.dataPath). */
  datatype Host = Host(home: string, files: set<string>, directories: set<string>, projectDirectory: string)

  /** Path.IsPathRooted. */
  predicate IsRooted(p: string)
  {
    |p| > 0 && p[0] == '/'
  }

  /** Path.Combine of two paths: a rooted or empty second path wins, an
      empty first path gives the second, otherwise they are joined with
      one separator. */
  function Combine(a: string, b: string): (r: string)
    ensures b != "" && !IsRooted(b) && a != "" ==> StartsWith(r, a) && EndsWith(r, b)
    ensures b != "" && (IsRooted(b) || a == "") ==> r == b
    ensures b == "" ==> r == a
  {
    if b == "" then a
    else if a == "" || IsRooted(b) then b
    else if a[|a| - 1] == '/' then a + b
    else a + "/" + b
  }

  /** GetAbsolutePath: "" stays ""; "~/x" is x under the home directory; a
      rooted path stays; a relative path is joined to the project root
      when there is one and kept as it is otherwise. */
  function AbsolutePath(projectRoot: string, home: string, path: string): (r: string)
    ensures path == "" ==> r == ""
    ensures StartsWith(path, "~/") ==> r == Combine(home, path[2..])
    ensures !StartsWith(path, "~/") && (IsRooted(path) || projectRoot == "") ==> r == path
    ensures path != "" && !StartsWith(path, "~/") && !IsRooted(path) && projectRoot != "" ==>
      StartsWith(r, projectRoot) && EndsWith(r, path)
  {
    if path == "" then ""
    else if StartsWith(path, "~/") then Combine(home, path[2..])
    else if IsRooted(path) then path
    else if projectRoot == "" then path
    else Combine(projectRoot, path)
  }

  /** With a rooted project root and home directory every non-empty path
      becomes rooted. */
  lemma AbsoluteIsRooted(projectRoot: string, home: string, path: string)
    requires IsRooted(projectRoot) && IsRooted(home) && path != ""
    ensures IsRooted(AbsolutePath(projectRoot, home, path))
  {
    if StartsWith(path, "~/") {
      var rest := path[2..];
      if rest != "" && !IsRooted(rest) {
        assert Combine(home, rest)[0] == home[0];
      }
    } else if !IsRooted(path) {
      assert Combine(projectRoot, path)[0] == projectRoot[0];
    }
  }

  /** Making a path absolute twice changes nothing more. */
  lemma AbsoluteIdempotent(projectRoot: string, home: string, path: string)
    requires IsRooted(projectRoot) && IsRooted(home)
    ensures var r := AbsolutePath(projectRoot, home, path);
      AbsolutePath(projectRoot, home, r) == r
  {
    if path != "" {
      AbsoluteIsRooted(projectRoot, home, path);
      var r := AbsolutePath(projectRoot, home, path);
    }
  }

  // ----- First existing candidate -----

  /** Whether a configured entry names an existing path. */
  predicate Exists(projectRoot: string, home: string, path: string, existing: set<string>)
  {
    path != "" && AbsolutePath(projectRoot, home, path) in existing
  }

  /** The index of the first entry that exists, or |paths|. */
  function FirstValid(projectRoot: string, home: string, paths: seq<string>, existing: set<string>): (k: nat)
    ensures k <= |paths|
    ensures k < |paths| ==> Exists(projectRoot, home, paths[k], existing)
  {
    if paths == [] then 0
    else if Exists(projectRoot, home, paths[0], existing) then 0
    else 1 + FirstValid(projectRoot, home, paths[1..], existing)
  }

  /** No entry before the one found exists. */
  lemma {:induction false} FirstValidIsFirst(projectRoot: string, home: string, paths: seq<string>, existing: set<string>)
    ensures forall j :: 0 <= j < FirstValid(projectRoot, home, paths, existing) ==>
      !Exists(projectRoot, home, paths[j], existing)
    decreases |paths|
  {
    if paths != [] && !Exists(projectRoot, home, paths[0], existing) {
      FirstValidIsFirst(projectRoot, home, paths[1..], existing);
      assert forall j :: 1 <= j < |paths| ==> paths[j] == paths[1..][j - 1];
    }
  }

  /** The absolute form of the first existing entry, or "". */
  function ValidPath(projectRoot: string, home: string, paths: seq<string>, existing: set<string>): string
  {
    var k := FirstValid(projectRoot, home, paths, existing);
    if k == |paths| then "" else AbsolutePath(projectRoot, home, paths[k])
  }

  /** The lookup answers with an existing path, the first in list order,
      or with "" when no entry exists. */
  lemma ValidPathChoice(projectRoot: string, home: string, paths: seq<string>, existing: set<string>)
    ensures var r := ValidPath(projectRoot, home, paths, existing);
      (forall j :: 0 <= j < |paths| ==> !Exists(projectRoot, home, paths[j], existing)) ==> r == ""
    ensures var r := ValidPath(projectRoot, home, paths, existing);
      (exists j :: 0 <= j < |paths| && Exists(projectRoot, home, paths[j], existing)) ==>
        exists k :: 0 <= k < |paths| && r == AbsolutePath(projectRoot, home, paths[k]) && r in existing
          && forall j :: 0 <= j < k ==> !Exists(projectRoot, home, paths[j], existing)
  {
    FirstValidIsFirst(projectRoot, home, paths, existing);
  }

  // ----- Validation -----

  const EmptyRootError := "项目根目录路径不能为空"
  const NoPythonError := "未找到有效的Python可执行文件"

  function MissingRootError(projectRoot: string): string
  {
    "项目根目录不存在: " + projectRoot
  }

  /** The errors ValidateConfiguration collects, in order: one about the
      project root (empty, or not an existing directory), then one when
      Python candidates are configured but none exists. */
  function ValidationErrors(projectRoot: string, host: Host, pythonPaths: seq<string>): seq<string>
  {
    (if projectRoot == "" then [EmptyRootError]
     else if projectRoot !in host.directories then [MissingRootError(projectRoot)]
     else [])
    + (if |pythonPaths| > 0 && FirstValid(projectRoot, host.home, pythonPaths, host.files) == |pythonPaths|
       then [NoPythonError] else [])
  }

  /** The configuration is valid exactly when the project root is an
      existing directory and either no Python candidate is configured or
      one of them exists. */
  lemma ValidIff(projectRoot: string, host: Host, pythonPaths: seq<string>)
    ensures ValidationErrors(projectRoot, host, pythonPaths) == [] <==>
      projectRoot != "" && projectRoot in host.directories
      && (pythonPaths == [] || exists j :: 0 <= j < |pythonPaths| && Exists(projectRoot, host.home, pythonPaths[j], host.files))
  {
    FirstValidIsFirst(projectRoot, host.home, pythonPaths, host.files);
  }

  /** The Python error is reported exactly when Python candidates are
      configured and none of them exists; an empty root is always an error. */
  lemma ValidationErrorCases(projectRoot: string, host: Host, pythonPaths: seq<string>)
    ensures NoPythonError in ValidationErrors(projectRoot, host, pythonPaths) <==>
      |pythonPaths| > 0 && forall j :: 0 <= j < |pythonPaths| ==> !Exists(projectRoot, host.home, pythonPaths[j], host.files)
    ensures projectRoot == "" ==> EmptyRootError in ValidationErrors(projectRoot, host, pythonPaths)
  {
    FirstValidIsFirst(projectRoot, host.home, pythonPaths, host.files);
    var e := MissingRootError(projectRoot);
    assert e[0] != NoPythonError[0];
  }

  // ----- Defaults -----

  /** The default Python candidates, in search order. */
  const DefaultPythonPaths: seq<string> := seq(40, PythonCandidate)

  /** Candidate `i` of the default Python list. */
  function PythonCandidate(i: int): string
  {
    match i
    case 0 => "/opt/homebrew/bin/python3.11"
    case 1 => "/opt/homebrew/Cellar/python@3.11/3.11.13/bin/python3.11"
    case 2 => "/opt/homebrew/Cellar/python@3.11/3.11.12/bin/python3.11"
    case 3 => "/opt/homebrew/Cellar/python@3.11/3.11.11/bin/python3.11"
    case 4 => "/opt/homebrew/Cellar/python@3.11/3.11.10/bin/python3.11"
    case 5 => "/opt/homebrew/Cellar/python@3.11/3.11.9/bin/python3.11"
    case 6 => "/opt/homebrew/opt/python@3.11/bin/python3.11"
    case 7 => "/opt/homebrew/opt/python@3.11/bin/python3"
    case 8 => "/usr/local/bin/python3.11"
    case 9 => "/usr/local/opt/python@3.11/bin/python3.11"
    case 10 => "/usr/local/opt/python@3.11/bin/python3"
    case 11 => "/usr/local/Cellar/python@3.11/3.11.13/bin/python3.11"
    case 12 => "/usr/local/Cellar/python@3.11/3.11.12/bin/python3.11"
    case 13 => "/usr/local/Cellar/python@3.11/3.11.11/bin/python3.11"
    case 14 => "/usr/local/Cellar/python@3.11/3.11.10/bin/python3.11"
    case 15 => "/usr/local/Cellar/python@3.11/3.11.9/bin/python3.11"
    case 16 => "/opt/local/bin/python3.11"
    case 17 => "/opt/local/Library/Frameworks/Python.framework/Versions/3.11/bin/python3.11"
    case 18 => "~/.pyenv/versions/3.11.13/bin/python"
    case 19 => "~/.pyenv/versions/3.11.12/bin/python"
    case 20 => "~/.pyenv/versions/3.11.11/bin/python"
    case 21 => "~/.pyenv/versions/3.11.10/bin/python"
    case 22 => "~/.pyenv/versions/3.11.9/bin/python"
    case 23 => "~/.pyenv/versions/3.11.8/bin/python"
    case 24 => "~/.pyenv/versions/3.11.7/bin/python"
    case 25 => "~/.pyenv/versions/3.11.6/bin/python"
    case 26 => "~/.pyenv/versions/3.11.5/bin/python"
    case 27 => "~/.pyenv/shims/python3.11"
    case 28 => "/usr/local/bin/python3.11"
    case 29 => "/usr/bin/python3.11"
    case 30 => "/Library/Frameworks/Python.framework/Versions/3.11/bin/python3.11"
    case 31 => "/Library/Frameworks/Python.framework/Versions/3.11/bin/python3"
    case 32 => "~/anaconda3/envs/python311/bin/python"
    case 33 => "~/miniconda3/envs/python311/bin/python"
    case 34 => "~/miniforge3/envs/python311/bin/python"
    case 35 => "/opt/anaconda3/envs/python311/bin/python"
    case 36 => "/opt/miniconda3/envs/python311/bin/python"
    case 37 => "/opt/miniforge3/envs/python311/bin/python"
    case 38 => "/Applications/Python 3.11/python3.11"
    case 39 => "~/Library/Python/3.11/bin/python3.11"
    case _ => ""
  }

  /** The default certificate directories, in search order. */
  const DefaultSslCertDirectories: seq<string> := seq(3, SslCertDirectoryCandidate)

  /** Entry `i` of the default certificate directories. */
  function SslCertDirectoryCandidate(i: int): string
  {
    match i
    case 0 => "/etc/ssl/certs"
    case 1 => "/usr/local/etc/openssl"
    case 2 => "/opt/homebrew/etc/openssl"
    case _ => ""
  }

  /** The default certificate files, in search order. */
  const DefaultSslCertFiles: seq<string> := seq(4, SslCertFileCandidate)

  /** Entry `i` of the default certificate files. */
  function SslCertFileCandidate(i: int): string
  {
    match i
    case 0 => "/etc/ssl/cert.pem"
    case 1 => "/usr/local/etc/openssl/cert.pem"
    case 2 => "/opt/homebrew/etc/openssl/cert.pem"
    case 3 => "/System/Library/OpenSSL/certs/cert.pem"
    case _ => ""
  }

  /** Where diagnostics look for the MCP configuration. */
  const DefaultDiagnosticConfigPaths: seq<string> := seq(3, DiagnosticConfigCandidate)

  /** Entry `i` of the diagnostic configuration paths. */
  function DiagnosticConfigCandidate(i: int): string
  {
    match i
    case 0 => "Assets/UnityAIAgent/mcp_config.json"
    case 1 => "../Assets/UnityAIAgent/mcp_config.json"
    case 2 => "../../Assets/UnityAIAgent/mcp_config.json"
    case _ => ""
  }

  const DefaultMcpConfigPath := "Assets/UnityAIAgent/mcp_config.json"

  // ----- The configuration asset -----

  class PathConfiguration {
    var projectRootPath: string
    var mcpUnityServerPath: string
    var mcpConfigPath: string
    var strandsToolsPath: string
    var unityAgentPythonPath: string
    var pythonExecutablePaths: seq<string>
    var sslCertDirectories: seq<string>
    var sslCertFiles: seq<string>
    var shellExecutablePath: string
    var diagnosticConfigPaths: seq<string>

    /** A new asset holds the field initialisers' values. */
    constructor ()
      ensures projectRootPath == "" && mcpUnityServerPath == "" && strandsToolsPath == ""
      ensures mcpConfigPath == DefaultMcpConfigPath && unityAgentPythonPath == "Python"
      ensures shellExecutablePath == "/bin/bash"
      ensures pythonExecutablePaths == [] && sslCertDirectories == [] && sslCertFiles == []
      ensures diagnosticConfigPaths == []
    {
      projectRootPath := "";
      mcpUnityServerPath := "";
      mcpConfigPath := DefaultMcpConfigPath;
      strandsToolsPath := "";
      unityAgentPythonPath := "Python";
      pythonExecutablePaths := [];
      sslCertDirectories := [];
      sslCertFiles := [];
      shellExecutablePath := "/bin/bash";
      diagnosticConfigPaths := [];
    }

    /** The loop shared by the GetValid* lookups: the absolute form of the
        first non-empty entry that exists, or "". */
    method FirstExistingPath(paths: seq<string>, home: string, existing: set<string>) returns (r: string)
      ensures r == ValidPath(projectRootPath, home, paths, existing)
    {
      var i := 0;
      while i < |paths|
        invariant 0 <= i <= |paths|
        invariant FirstValid(projectRootPath, home, paths[i..], existing) + i
          == FirstValid(projectRootPath, home, paths, existing)
      {
        if paths[i] != "" {
          var absPath := AbsolutePath(projectRootPath, home, paths[i]);
          if absPath in existing {
            return absPath;
          }
        }
        assert paths[i..][1..] == paths[i + 1..];
        i := i + 1;
      }
      return "";
    }

    /** GetValidPythonPath: the first Python candidate that exists as a file. */
    method GetValidPythonPath(host: Host) returns (r: string)
      ensures r == ValidPath(projectRootPath, host.home, pythonExecutablePaths, host.files)
    {
      r := FirstExistingPath(pythonExecutablePaths, host.home, host.files);
    }

    /** GetValidSSLCertPath: the first certificate file that exists. */
    method GetValidSslCertPath(host: Host) returns (r: string)
      ensures r == ValidPath(projectRootPath, host.home, sslCertFiles, host.files)
    {
      r := FirstExistingPath(sslCertFiles, host.home, host.files);
    }

    /** GetValidSSLCertDirectory: the first certificate directory that
        exists. */
    method GetValidSslCertDirectory(host: Host) returns (r: string)
      ensures r == ValidPath(projectRootPath, host.home, sslCertDirectories, host.directories)
    {
      r := FirstExistingPath(sslCertDirectories, host.home, host.directories);
    }

    /** ValidateConfiguration: the verdict is "no errors", and the errors
        are the ones ValidationErrors lists. */
    method ValidateConfiguration(host: Host) returns (isValid: bool, errors: seq<string>)
      ensures errors == ValidationErrors(projectRootPath, host, pythonExecutablePaths)
      ensures isValid <==> errors == []
    {
      errors := [];
      if projectRootPath == "" {
        errors := errors + [EmptyRootError];
      } else if projectRootPath !in host.directories {
        errors := errors + [MissingRootError(projectRootPath)];
      }

      var foundValidPython := false;
      var i := 0;
      while i < |pythonExecutablePaths|
        invariant 0 <= i <= |pythonExecutablePaths|
        invariant !foundValidPython
        invariant FirstValid(projectRootPath, host.home, pythonExecutablePaths[i..], host.files) + i
          == FirstValid(projectRootPath, host.home, pythonExecutablePaths, host.files)
      {
        var pythonPath := pythonExecutablePaths[i];
        if pythonPath != "" && AbsolutePath(projectRootPath, host.home, pythonPath) in host.files {
          foundValidPython := true;
          break;
        }
        assert pythonExecutablePaths[i..][1..] == pythonExecutablePaths[i + 1..];
        i := i + 1;
      }
      assert foundValidPython <==> FirstValid(projectRootPath, host.home, pythonExecutablePaths, host.files) < |pythonExecutablePaths|;

      if |pythonExecutablePaths| > 0 && !foundValidPython {
        errors := errors + [NoPythonError];
      }
      isValid := |errors| == 0;
    }

    /** IsValid: the verdict of ValidateConfiguration. */
    method IsValid(host: Host) returns (r: bool)
      ensures r <==> ValidationErrors(projectRootPath, host, pythonExecutablePaths) == []
    {
      var errors;
      r, errors := ValidateConfiguration(host);
    }

    /** AutoDetectProjectRoot: the project root becomes the directory that
        holds the project's Assets folder. */
    method AutoDetectProjectRoot(host: Host)
      modifies this`projectRootPath
      ensures projectRootPath == host.projectDirectory
    {
      projectRootPath := host.projectDirectory;
    }

    /** AutoDetectMCPServerPath, given what its directory search finds:
        with a project root, a server build found there is recorded. The
        search itself (directory listings and a URI-relative path) is not
        part of this model. */
    method AutoDetectMcpServerPath(found: Option<string>)
      modifies this`mcpUnityServerPath
      ensures mcpUnityServerPath == if projectRootPath != "" && found.Some? then found.value else old(mcpUnityServerPath)
    {
      if projectRootPath == "" {
        return;
      }
      if found.Some? {
        mcpUnityServerPath := found.value;
      }
    }

    /** AutoDetectAllPaths: an empty project root is detected, the server
        path is searched for, and each candidate list is filled with its
        defaults only when it is empty. */
    method AutoDetectAllPaths(host: Host, found: Option<string>)
      modifies this
      ensures projectRootPath == if old(projectRootPath) == "" then host.projectDirectory else old(projectRootPath)
      ensures mcpUnityServerPath == if projectRootPath != "" && found.Some? then found.value else old(mcpUnityServerPath)
      ensures pythonExecutablePaths == if old(pythonExecutablePaths) == [] then DefaultPythonPaths else old(pythonExecutablePaths)
      ensures sslCertFiles == if old(sslCertFiles) == [] then DefaultSslCertFiles else old(sslCertFiles)
      ensures sslCertDirectories == if old(sslCertDirectories) == [] then DefaultSslCertDirectories else old(sslCertDirectories)
      ensures mcpConfigPath == old(mcpConfigPath) && strandsToolsPath == old(strandsToolsPath)
      ensures unityAgentPythonPath == old(unityAgentPythonPath) && shellExecutablePath == old(shellExecutablePath)
      ensures diagnosticConfigPaths == old(diagnosticConfigPaths)
    {
      if projectRootPath == "" {
        AutoDetectProjectRoot(host);
      }
      AutoDetectMcpServerPath(found);
      if |pythonExecutablePaths| == 0 {
        pythonExecutablePaths := DefaultPythonPaths;
      }
      if |sslCertFiles| == 0 {
        sslCertFiles := DefaultSslCertFiles;
      }
      if |sslCertDirectories| == 0 {
        sslCertDirectories := DefaultSslCertDirectories;
      }
    }

    /** InitializeDefaults: the project root is detected, every default is
        written over the current values, then the server path is searched. */
    method InitializeDefaults(host: Host, found: Option<string>)
      modifies this
      ensures projectRootPath == host.projectDirectory
      ensures mcpConfigPath == DefaultMcpConfigPath && unityAgentPythonPath == "Python"
      ensures shellExecutablePath == "/bin/bash"
      ensures pythonExecutablePaths == DefaultPythonPaths && sslCertDirectories == DefaultSslCertDirectories
      ensures sslCertFiles == DefaultSslCertFiles && diagnosticConfigPaths == DefaultDiagnosticConfigPaths
      ensures mcpUnityServerPath == if projectRootPath != "" && found.Some? then found.value else old(mcpUnityServerPath)
      ensures strandsToolsPath == old(strandsToolsPath)
    {
      AutoDetectProjectRoot(host);
      mcpConfigPath := DefaultMcpConfigPath;
      unityAgentPythonPath := "Python";
      shellExecutablePath := "/bin/bash";
      pythonExecutablePaths := DefaultPythonPaths;
      sslCertDirectories := DefaultSslCertDirectories;
      sslCertFiles := DefaultSslCertFiles;
      diagnosticConfigPaths := DefaultDiagnosticConfigPaths;
      AutoDetectMcpServerPath(found);
    }
  }

  datatype Option<T> = None | Some(value: T)
}
