/**
 * The configuration arithmetic of config/config.go: retry and auto-shutdown
 * delays, folder permissions, the log level switch and the `~/` expansion
 * of the drafts folder (with filepath.Join and filepath.Clean for '/').
 * Durations are whole seconds.
 */
module Config {
  import opened Text

  /** The printer section of the YAML configuration. */
  datatype PrinterConfig = PrinterConfig(
    RetryAttempts: int,
    AutoShutdownDelayMinutes: int,
    DraftsFolder: string,
    FontSize: int,
    RetryBaseDelaySeconds: int,
    FolderPermissions: int)

  /** A named print preset: font size, optional font family, and a description for listings. */
  datatype Preset = Preset(FontSize: int, FontFamily: string, Description: string)

  /** The levels of the logger package, in increasing severity. */
  datatype LogLevel = Debug | Info | Warn | Error

  const SecondsPerMinute: int := 60
  const FileModeModulus: int := 0x1_0000_0000

  /** The auto-shutdown delay, in seconds: the configured minutes times sixty. */
  function GetAutoShutdownDelay(p: PrinterConfig): (d: int)
    ensures d % SecondsPerMinute == 0 && d / SecondsPerMinute == p.AutoShutdownDelayMinutes
    ensures p.AutoShutdownDelayMinutes >= 0 ==> d >= 0
  {
    p.AutoShutdownDelayMinutes * SecondsPerMinute
  }

  /** The delay before retry `attempt` (counted from 0), in seconds: linear, base plus index. */
  function GetRetryDelay(p: PrinterConfig, attempt: int): (d: int)
    ensures d - attempt == p.RetryBaseDelaySeconds
  {
    attempt + p.RetryBaseDelaySeconds
  }

  /** Consecutive retries wait one second longer each. */
  lemma RetryDelayStep(p: PrinterConfig, attempt: int)
    ensures GetRetryDelay(p, attempt + 1) == GetRetryDelay(p, attempt) + 1
  {
  }

  /**
   * The whole schedule of retry delays for `a` attempts, retries 0 to a-2:
   * base, base+1, ..., base+a-2.
   */
  function RetrySchedule(p: PrinterConfig): (ds: seq<int>)
    ensures |ds| == if p.RetryAttempts > 1 then p.RetryAttempts - 1 else 0
    ensures forall i :: 0 <= i < |ds| ==> ds[i] == p.RetryBaseDelaySeconds + i
  {
    var n := if p.RetryAttempts > 1 then p.RetryAttempts - 1 else 0;
    seq(n, i requires 0 <= i < n => GetRetryDelay(p, i))
  }

  /** Five attempts with a five-second base wait 5, 6, 7 and 8 seconds. */
  lemma RetryScheduleFiveFive(p: PrinterConfig)
    requires p.RetryAttempts == 5 && p.RetryBaseDelaySeconds == 5
    ensures RetrySchedule(p) == [5, 6, 7, 8]
  {
  }

  /**
   * os.FileMode(p.FolderPermissions): FileMode is a uint32, so the
   * conversion keeps the low 32 bits of the configured int.
   */
  function GetFolderPermissions(p: PrinterConfig): (mode: int)
    ensures 0 <= mode < FileModeModulus
    ensures 0 <= p.FolderPermissions < FileModeModulus ==> mode == p.FolderPermissions
    ensures (mode - p.FolderPermissions) % FileModeModulus == 0
  {
    p.FolderPermissions % FileModeModulus
  }

  /** The logger level named by the configured string, case-insensitively; INFO otherwise. */
  function GetLogLevel(level: string): (l: LogLevel)
    ensures l == Debug <==> ToUpper(level) == "DEBUG"
    ensures l == Warn <==> ToUpper(level) == "WARN"
    ensures l == Error <==> ToUpper(level) == "ERROR"
    ensures l == Info <==> ToUpper(level) !in {"DEBUG", "WARN", "ERROR"}
  {
    match ToUpper(level)
    case "DEBUG" => Debug
    case "INFO" => Info
    case "WARN" => Warn
    case "ERROR" => Error
    case _ => Info
  }

  /** The lower-case name of each level, as written in the configuration file. */
  function LevelName(l: LogLevel): string {
    match l
    case Debug => "debug"
    case Info => "info"
    case Warn => "warn"
    case Error => "error"
  }

  /** Every level is read back from its name, lower- or upper-case. */
  lemma LogLevelRoundTrip(l: LogLevel)
    ensures GetLogLevel(LevelName(l)) == l
    ensures GetLogLevel(ToUpper(LevelName(l))) == l
  {
    var name := LevelName(l);
    assert ToUpper(name) == match l
      case Debug => "DEBUG" case Info => "INFO" case Warn => "WARN" case Error => "ERROR";
    ToUpperIdempotent(name);
  }

  /** Upper-casing the configured string first does not change the level. */
  lemma LogLevelIgnoresCase(level: string)
    ensures GetLogLevel(ToUpper(level)) == GetLogLevel(level)
  {
    ToUpperIdempotent(level);
  }

  /**
   * The lexical resolution at the heart of filepath.Clean: empty and "."
   * elements vanish, ".." removes the element before it unless that is
   * itself a ".." (or, in a rooted path, there is none).
   */
  function Resolve(elems: seq<string>, rooted: bool): (st: seq<string>)
    ensures forall i :: 0 <= i < |st| ==> st[i] != "" && st[i] != "." && st[i] in elems
    ensures rooted ==> forall i :: 0 <= i < |st| ==> st[i] != ".."
    decreases |elems|
  {
    if |elems| == 0 then []
    else
      var st := Resolve(elems[..|elems| - 1], rooted);
      var e := elems[|elems| - 1];
      if e == "" || e == "." then st
      else if e == ".." then
        if |st| > 0 && st[|st| - 1] != ".." then st[..|st| - 1]
        else if rooted then st
        else st + [e]
      else st + [e]
  }

  /**
   * filepath.Clean on '/'-separated paths: the result is never empty, has
   * no empty element (no "//", and no trailing '/' unless it is the root
   * itself), and its elements are those Resolve keeps.
   */
  function Clean(path: string): (r: string)
    ensures r != []
    ensures r == "/" || r[|r| - 1] != '/'
    ensures forall i :: 0 <= i < |r| - 1 ==> !(r[i] == '/' && r[i + 1] == '/')
  {
    if path == [] then "."
    else
      var rooted := path[0] == '/';
      var st := Resolve(Split(path, '/'), rooted);
      if st == [] then (if rooted then "/" else ".")
      else
        JoinElements(st);
        var body := Join(st, "/");
        if rooted then "/" + body else body
  }

  /**
   * Non-empty elements without '/' joined by "/": the path neither starts
   * nor ends with '/' and has no "//".
   */
  lemma {:induction false} JoinElements(parts: seq<string>)
    requires |parts| > 0
    requires forall i :: 0 <= i < |parts| ==> parts[i] != [] && '/' !in parts[i]
    ensures var j := Join(parts, "/"); j != [] && j[0] != '/' && j[|j| - 1] != '/'
    ensures var j := Join(parts, "/"); forall i :: 0 <= i < |j| - 1 ==> !(j[i] == '/' && j[i + 1] == '/')
    decreases |parts|
  {
    var p := parts[0];
    if |parts| > 1 {
      JoinElements(parts[1..]);
      var t := Join(parts[1..], "/");
      var j := Join(parts, "/");
      assert j == p + "/" + t;
      forall i | 0 <= i < |j| - 1
        ensures !(j[i] == '/' && j[i + 1] == '/')
      {
        if i < |p| {
          assert j[i] == p[i];
        } else if i > |p| {
          assert j[i] == t[i - |p| - 1] && j[i + 1] == t[i - |p|];
        }
      }
    } else {
      assert p[0] in p && p[|p| - 1] in p;
    }
  }

  /** Clean keeps a path rooted exactly when it was rooted. */
  lemma CleanKeepsRoot(path: string)
    requires path != []
    ensures Clean(path)[0] == '/' <==> path[0] == '/'
  {
    var rooted := path[0] == '/';
    var elems := Split(path, '/');
    var st := Resolve(elems, rooted);
    if !rooted && st != [] {
      JoinStartsWithFirst(st, "/");
      assert st[0] in elems;
      assert '/' !in st[0];
    }
  }

  /** A join of non-empty parts starts with the first character of the first part. */
  lemma JoinStartsWithFirst(parts: seq<string>, sep: string)
    requires |parts| > 0 && parts[0] != []
    ensures Join(parts, sep) != [] && Join(parts, sep)[0] == parts[0][0]
  {
  }

  /** filepath.Join of two elements: empty elements are ignored and the result is cleaned. */
  function JoinPath(dir: string, name: string): (r: string)
    ensures dir != [] && dir[0] == '/' ==> r != [] && r[0] == '/'
  {
    if dir != [] then (CleanKeepsRoot(dir + "/" + name); Clean(dir + "/" + name))
    else if name != [] then Clean(name)
    else ""
  }

  /**
   * expandPath: a path starting with "~/" is joined onto the home directory;
   * every other path, and every path when the home directory is unknown
   * (an empty `home`, as os.UserHomeDir reports on Unix), is unchanged.
   */
  function ExpandPath(path: string, home: string): (r: string)
    ensures !HasPrefix(path, "~/") || home == [] ==> r == path
    ensures HasPrefix(path, "~/") && home != [] ==> r == JoinPath(home, path[2..])
  {
    if HasPrefix(path, "~/") then
      if home == [] then path else JoinPath(home, path[2..])
    else path
  }

  /** With an absolute home directory, a "~/" path expands to an absolute path. */
  lemma ExpandPathAbsolute(path: string, home: string)
    requires HasPrefix(path, "~/") && home != [] && home[0] == '/'
    ensures ExpandPath(path, home) != [] && ExpandPath(path, home)[0] == '/'
  {
  }

  /** A bare "~" is not expanded. */
  lemma ExpandPathBareTilde(home: string)
    ensures ExpandPath("~", home) == "~"
  {
  }
}
