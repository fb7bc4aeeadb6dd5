/**
 * `KnipStreamConnectionProvider`: where the plugin looks for the Node.js executable and for the
 * `@knip/language-server` entry point, the two process-wide caches of what it found, and the
 * command line it hands to the LSP client.
 *
 * The machine is a `Host` value: the operating system name (`os.name`), the user's home directory, the
 * `PATH` variable, which paths exist, which are executable, and the sub-directories of each
 * directory. Paths are built the way `java.io.File` joins a parent and a child, with the
 * separator of the host.
 */
module ConnectionProvider {
  import opened Wrappers
  import Text

  /** What the search can observe of the machine. */
  datatype Host = Host(
    osName: string,
    userHome: string,
    pathEnv: Option<string>,
    existing: set<string>,
    executable: set<string>,
    subdirs: map<string, set<string>>)

  /** `os.name`, lower-cased, contains `windows`. */
  predicate IsWindowsName(osName: string) {
    Text.Contains(Text.Lower(osName), "windows")
  }

  /** `isWindows`: the host's `os.name` names Windows. */
  predicate IsWindows(h: Host) {
    IsWindowsName(h.osName)
  }

  /**
   * Any OS name with `windows` in it, in any letter case (`Windows 10`, `WINDOWS`), selects
   * the Windows paths.
   */
  lemma WindowsNames(a: string, w: string, b: string)
    requires Text.Lower(w) == "windows"
    ensures IsWindowsName(a + w + b)
  {
    Text.LowerAppend(a + w, b);
    Text.LowerAppend(a, w);
    Text.ContainsInfix(Text.Lower(a), "windows", Text.Lower(b));
  }

  /** Example: `Windows 10` is a Windows host; so is `windows`. */
  lemma WindowsNameExamples()
    ensures IsWindowsName("Windows 10")
    ensures IsWindowsName("windows")
  {
    Text.LowerIs("Windows", "windows");
    WindowsNames("", "Windows", " 10");
    assert "" + "Windows" + " 10" == "Windows 10";
    Text.LowerIs("windows", "windows");
    WindowsNames("", "windows", "");
    assert "" + "windows" + "" == "windows";
  }

  /** `File.separatorChar`. */
  function Sep(h: Host): char {
    if IsWindows(h) then '\\' else '/'
  }

  /** `java.io.File` turns '/' into the native separator on Windows. */
  function Native(h: Host, p: string): string {
    if IsWindows(h) then Text.ReplaceChar(p, '/', '\\') else p
  }

  /** `File(parent, child).absolutePath`, for an absolute parent. */
  function FileOf(h: Host, parent: string, child: string): (r: string)
    ensures |r| > |Native(h, parent)|
    ensures r[|Native(h, parent)|] == Sep(h)
  {
    Native(h, parent) + [Sep(h)] + Native(h, child)
  }

  /** Sub-directories of a directory; none when `listFiles()` gives nothing. */
  function Subdirs(h: Host, dir: string): set<string> {
    if dir in h.subdirs then h.subdirs[dir] else {}
  }

  /** `nodeFile.exists() && nodeFile.canExecute()`. */
  predicate Accepted(h: Host, p: string) {
    p in h.existing && p in h.executable
  }

  function NodeName(h: Host): string {
    if IsWindows(h) then "node.exe" else "node"
  }

  function PathSeparator(h: Host): char {
    if IsWindows(h) then ';' else ':'
  }

  /** The marker that identifies the nvm versions directory among the common paths. */
  const NVM_MARKER: string := ".nvm/versions/node"

  /** `getCommonNodePaths()`. */
  function CommonNodePaths(h: Host): seq<string> {
    var home := h.userHome;
    if IsWindows(h) then
      [ "C:\\Program Files\\nodejs",
        "C:\\Program Files (x86)\\nodejs",
        home + "\\AppData\\Roaming\\nvm",
        home + "\\.volta\\bin",
        home + "\\.fnm",
        home + "\\scoop\\apps\\nodejs\\current" ]
    else
      [ "/usr/local/bin",
        "/usr/bin",
        "/opt/homebrew/bin",
        home + "/.nvm/versions/node",
        home + "/.volta/bin",
        home + "/.fnm/current/bin",
        home + "/.asdf/shims",
        "/usr/local/opt/node/bin",
        "/opt/homebrew/opt/node/bin" ]
  }

  /** The directories listed in `PATH`; an unset `PATH` reads as the empty string. */
  function PathDirs(h: Host): seq<string> {
    Text.Split(h.pathEnv.GetOr(""), PathSeparator(h))
  }

  /** The first directory of `dirs` holding an accepted node executable. */
  function FirstInPath(h: Host, dirs: seq<string>): (r: Option<string>)
    ensures r.None? <==> forall k :: 0 <= k < |dirs| ==> !Accepted(h, FileOf(h, dirs[k], NodeName(h)))
    ensures r.Some? ==> Accepted(h, r.value)
  {
    if dirs == [] then None
    else
      var p := FileOf(h, dirs[0], NodeName(h));
      if Accepted(h, p) then Some(p)
      else
        var r := FirstInPath(h, dirs[1..]);
        assert forall k :: 1 <= k < |dirs| ==> dirs[k] == dirs[1..][k - 1];
        r
  }

  /** What `FirstInPath` finds is the executable of the first accepted directory. */
  lemma {:induction false} FirstInPathIndex(h: Host, dirs: seq<string>)
    requires FirstInPath(h, dirs).Some?
    ensures exists k ::
      && 0 <= k < |dirs|
      && FirstInPath(h, dirs).value == FileOf(h, dirs[k], NodeName(h))
      && (forall j :: 0 <= j < k ==> !Accepted(h, FileOf(h, dirs[j], NodeName(h))))
  {
    var node := NodeName(h);
    if Accepted(h, FileOf(h, dirs[0], node)) {
      assert FirstInPath(h, dirs).value == FileOf(h, dirs[0], node);
    } else {
      var rest := dirs[1..];
      assert FirstInPath(h, dirs) == FirstInPath(h, rest);
      FirstInPathIndex(h, rest);
      var k :| && 0 <= k < |rest|
               && FirstInPath(h, rest).value == FileOf(h, rest[k], node)
               && (forall j :: 0 <= j < k ==> !Accepted(h, FileOf(h, rest[j], node)));
      assert dirs[k + 1] == rest[k];
      forall j | 0 <= j < k + 1
        ensures !Accepted(h, FileOf(h, dirs[j], node))
      {
        if j > 0 { assert dirs[j] == rest[j - 1]; }
      }
    }
  }

  /**
   * The one candidate a common path contributes: for the nvm versions directory, when it
   * exists, `bin/<node>` under its greatest sub-directory only (none when it has none);
   * otherwise `<node>` directly under the path.
   */
  ghost function CommonCandidate(h: Host, base: string): Option<string> {
    if Text.Contains(base, NVM_MARKER) && base in h.existing then
      var dirs := Subdirs(h, base);
      if dirs == {} then None
      else Some(FileOf(h, FileOf(h, base, Text.Greatest(dirs)), "bin/" + NodeName(h)))
    else Some(FileOf(h, base, NodeName(h)))
  }

  /** The first common path whose candidate is accepted. */
  ghost function FirstCommon(h: Host, bases: seq<string>): (r: Option<string>)
    ensures r.Some? ==> Accepted(h, r.value)
    ensures r.None? <==> forall k :: 0 <= k < |bases| ==>
      CommonCandidate(h, bases[k]).None? || !Accepted(h, CommonCandidate(h, bases[k]).value)
  {
    if bases == [] then None
    else
      var c := CommonCandidate(h, bases[0]);
      if c.Some? && Accepted(h, c.value) then c
      else
        var r := FirstCommon(h, bases[1..]);
        assert forall k :: 1 <= k < |bases| ==> bases[k] == bases[1..][k - 1];
        r
  }

  /**
   * What an uncached `findNodePath` returns: `PATH` first, then the common paths, then the bare
   * executable name, trusting it to be on the `PATH` of the spawned process.
   */
  ghost function NodeSearch(h: Host): string {
    match FirstInPath(h, PathDirs(h))
    case Some(p) => p
    case None =>
      match FirstCommon(h, CommonNodePaths(h))
      case Some(p) => p
      case None => NodeName(h)
  }

  /** The search never comes back empty. */
  lemma NodeSearchNonEmpty(h: Host)
    ensures |NodeSearch(h)| > 0
  {
    var a := FirstInPath(h, PathDirs(h));
    if a.Some? {
      var dirs := PathDirs(h);
      FirstInPathIndex(h, dirs);
      var k :| 0 <= k < |dirs| && a.value == FileOf(h, dirs[k], NodeName(h));
    } else {
      var b := FirstCommon(h, CommonNodePaths(h));
      if b.Some? {
        NonEmptyCommon(h, CommonNodePaths(h));
      }
    }
  }

  /** Every candidate of a common path is a joined path, hence non-empty. */
  lemma {:induction false} NonEmptyCommon(h: Host, bases: seq<string>)
    requires FirstCommon(h, bases).Some?
    ensures |FirstCommon(h, bases).value| > 0
  {
    var c := CommonCandidate(h, bases[0]);
    if c.Some? && Accepted(h, c.value) {
      if Text.Contains(bases[0], NVM_MARKER) && bases[0] in h.existing {
        var dirs := Subdirs(h, bases[0]);
        assert c.value == FileOf(h, FileOf(h, bases[0], Text.Greatest(dirs)), "bin/" + NodeName(h));
      } else {
        assert c.value == FileOf(h, bases[0], NodeName(h));
      }
    } else {
      NonEmptyCommon(h, bases[1..]);
    }
  }

  /** When nothing is accepted anywhere, the answer is `node`, or `node.exe` on Windows. */
  lemma NodeFallback(h: Host)
    requires forall k :: 0 <= k < |PathDirs(h)| ==> !Accepted(h, FileOf(h, PathDirs(h)[k], NodeName(h)))
    requires forall k :: 0 <= k < |CommonNodePaths(h)| ==>
      CommonCandidate(h, CommonNodePaths(h)[k]).None? || !Accepted(h, CommonCandidate(h, CommonNodePaths(h)[k]).value)
    ensures NodeSearch(h) == (if IsWindows(h) then "node.exe" else "node")
  {
  }

  /**
   * An accepted node in a `PATH` directory wins over every common path: the answer is the
   * first such directory's executable.
   */
  lemma PathBeforeCommon(h: Host, k: nat)
    requires k < |PathDirs(h)| && Accepted(h, FileOf(h, PathDirs(h)[k], NodeName(h)))
    ensures Accepted(h, NodeSearch(h))
    ensures exists i :: 0 <= i <= k && NodeSearch(h) == FileOf(h, PathDirs(h)[i], NodeName(h))
  {
    var dirs := PathDirs(h);
    var r := FirstInPath(h, dirs);
    FirstInPathIndex(h, dirs);
    var i :| 0 <= i < |dirs| && r.value == FileOf(h, dirs[i], NodeName(h)) &&
      forall j :: 0 <= j < i ==> !Accepted(h, FileOf(h, dirs[j], NodeName(h)));
    assert i <= k;
  }

  /** `@knip/language-server` with the native separator. */
  const PACKAGE_NAME: string := "@knip/language-server"
  const ENTRY_POINT: string := "src/index.js"

  function PackagePath(h: Host): string {
    Text.ReplaceChar(PACKAGE_NAME, '/', Sep(h))
  }

  /** The package's directory is `@knip/language-server`, with `\` for `/` on Windows. */
  lemma PackagePathOnHosts(h: Host)
    ensures !IsWindows(h) ==> PackagePath(h) == "@knip/language-server"
    ensures IsWindows(h) ==> PackagePath(h) == "@knip\\language-server"
  {
  }

  /** `node_modules/<package>/<entry point>` under a prefix. */
  function UnderNodeModules(h: Host, prefix: string): string {
    prefix + "node_modules/" + PackagePath(h) + "/" + ENTRY_POINT
  }

  /** One step of the language server search. */
  datatype Probe =
    /** `File(parent, child)`, or `File(child)` without a parent. */
    | Single(parent: Option<string>, child: string)
    /** Every sub-directory of `File(root, dir)`, in descending order, joined with `suffix`. */
    | Versions(root: string, dir: string, suffix: string)

  /** The file a `Single` probe tests. */
  function SingleFile(h: Host, parent: Option<string>, child: string): string {
    match parent
    case Some(p) => FileOf(h, p, child)
    case None => Native(h, child)
  }

  /** The candidate of version directory `d` of a `Versions` probe. */
  function VersionCandidate(h: Host, base: string, d: string, suffix: string): string {
    FileOf(h, FileOf(h, base, d), suffix)
  }

  /** The version directories of `base` whose candidate exists. */
  ghost function Hits(h: Host, base: string, suffix: string): set<string> {
    set d | d in Subdirs(h, base) && VersionCandidate(h, base, d, suffix) in h.existing
  }

  /**
   * What a probe finds: a single path when it exists; for version directories, the candidate
   * of the greatest directory whose candidate exists (the first hit of the descending scan).
   */
  ghost function ProbeResult(h: Host, p: Probe): Option<string> {
    match p
    case Single(parent, child) =>
      var path := SingleFile(h, parent, child);
      if path in h.existing then Some(path) else None
    case Versions(parent, child, suffix) =>
      var base := FileOf(h, parent, child);
      if base !in h.existing then None
      else
        var hits := Hits(h, base, suffix);
        if hits == {} then None else Some(VersionCandidate(h, base, Text.Greatest(hits), suffix))
  }

  /**
   * The global locations, in search order, after the project's own `node_modules`: Volta, the
   * npm global directories of the platform, every nvm version, pnpm, the two yarn global
   * directories, every fnm version, every asdf version.
   */
  function GlobalProbes(h: Host): seq<Probe> {
    var home := Some(h.userHome);
    var volta := Single(home, ".volta/tools/image/packages/" + PackagePath(h) + "/lib/" + UnderNodeModules(h, ""));
    var nvm := Versions(h.userHome, ".nvm/versions/node", UnderNodeModules(h, "lib/"));
    var pnpm := Single(home, UnderNodeModules(h, ".local/share/pnpm/global/5/"));
    var yarn := Single(home, UnderNodeModules(h, ".yarn/global/"));
    var yarnConfig := Single(home, UnderNodeModules(h, ".config/yarn/global/"));
    var fnm := Versions(h.userHome, ".fnm/node-versions", UnderNodeModules(h, "installation/lib/"));
    var asdf := Versions(h.userHome, ".asdf/installs/nodejs", UnderNodeModules(h, "lib/"));
    if IsWindows(h) then
      [ volta,
        Single(home, UnderNodeModules(h, "AppData/Roaming/npm/")),
        Single(None, UnderNodeModules(h, "C:/Program Files/nodejs/")),
        nvm, pnpm, yarn, yarnConfig, fnm, asdf ]
    else
      [ volta,
        Single(None, UnderNodeModules(h, "/usr/local/lib/")),
        Single(None, UnderNodeModules(h, "/usr/lib/")),
        Single(home, UnderNodeModules(h, ".npm-global/lib/")),
        nvm, pnpm, yarn, yarnConfig, fnm, asdf ]
  }

  /** The probes of `findLanguageServerPath`, in order; the project comes first when it has a base path. */
  function ServerProbes(h: Host, basePath: Option<string>): seq<Probe> {
    match basePath
    case Some(b) => [Single(Some(b), UnderNodeModules(h, ""))] + GlobalProbes(h)
    case None => GlobalProbes(h)
  }

  /** The result of the first probe that finds something. */
  ghost function FirstFound(h: Host, probes: seq<Probe>): Option<string> {
    if probes == [] then None
    else
      var r := ProbeResult(h, probes[0]);
      if r.Some? then r else FirstFound(h, probes[1..])
  }

  /** What an uncached `findLanguageServerPath` returns. */
  ghost function ServerSearch(h: Host, basePath: Option<string>): Option<string> {
    FirstFound(h, ServerProbes(h, basePath))
  }

  /** Whatever a probe finds exists. */
  lemma ProbeResultExists(h: Host, p: Probe)
    ensures ProbeResult(h, p).Some? ==> ProbeResult(h, p).value in h.existing
  {
    if p.Versions? && FileOf(h, p.root, p.dir) in h.existing {
      var hits := Hits(h, FileOf(h, p.root, p.dir), p.suffix);
      if hits != {} {
        var g := Text.Greatest(hits);
        assert g in hits;
      }
    }
  }

  lemma {:induction false} FirstFoundExists(h: Host, probes: seq<Probe>)
    ensures FirstFound(h, probes).Some? ==> FirstFound(h, probes).value in h.existing
  {
    if probes != [] {
      ProbeResultExists(h, probes[0]);
      FirstFoundExists(h, probes[1..]);
    }
  }

  /** The language server search only ever answers with an existing path. */
  lemma ServerSearchExists(h: Host, basePath: Option<string>)
    ensures ServerSearch(h, basePath).Some? ==> ServerSearch(h, basePath).value in h.existing
  {
    FirstFoundExists(h, ServerProbes(h, basePath));
  }

  /** The project's own installation wins over every global one. */
  lemma ProjectInstallFirst(h: Host, b: string)
    requires FileOf(h, b, UnderNodeModules(h, "")) in h.existing
    ensures ServerSearch(h, Some(b)) == Some(FileOf(h, b, UnderNodeModules(h, "")))
  {
  }

  /** Without a base path the project probe is skipped; with one, a missing project install falls through to the global search. */
  lemma ProjectInstallMissing(h: Host, b: string)
    requires FileOf(h, b, UnderNodeModules(h, "")) !in h.existing
    ensures ServerSearch(h, Some(b)) == ServerSearch(h, None)
  {
    var probes := ServerProbes(h, Some(b));
    assert probes[1..] == GlobalProbes(h);
  }

  /**
   * The first hit of a descending scan over `xs` is the greatest hit: the scan and
   * `ProbeResult` agree.
   */
  lemma FirstHitIsGreatest(h: Host, base: string, suffix: string, xs: seq<string>, k: nat)
    requires forall x :: x in Subdirs(h, base) <==> x in xs
    requires forall i, j :: 0 <= i < j < |xs| ==> Text.Less(xs[j], xs[i])
    requires k < |xs| && VersionCandidate(h, base, xs[k], suffix) in h.existing
    requires forall j :: 0 <= j < k ==> VersionCandidate(h, base, xs[j], suffix) !in h.existing
    ensures Text.IsGreatest(xs[k], Hits(h, base, suffix))
  {
    var hits := Hits(h, base, suffix);
    forall y | y in hits && y != xs[k] ensures Text.Less(y, xs[k]) {
      var m :| 0 <= m < |xs| && xs[m] == y;
      assert m > k;
    }
  }

  /** The greatest element of a non-empty set, by one pass over it. */
  method GreatestOf(s: set<string>) returns (g: string)
    requires s != {}
    ensures Text.IsGreatest(g, s)
  {
    g :| g in s;
    var rest := s - {g};
    while rest != {}
      invariant rest <= s && g in s && g !in rest
      invariant forall y :: y in s && y !in rest && y != g ==> Text.Less(y, g)
      decreases |rest|
    {
      var y :| y in rest;
      Text.LessTotal(y, g);
      if Text.Less(g, y) {
        forall z | z in s && z !in rest && z != y
          ensures Text.Less(z, y)
        {
          if z != g { Text.LessTransitive(z, g, y); }
        }
        g := y;
      }
      rest := rest - {y};
    }
  }

  /**
   * `listFiles().filter { it.isDirectory }.sortedDescending()`, on the directory names, in the
   * code-unit order `File.compareTo` uses on Unix hosts.
   */
  method SortedDescending(s: set<string>) returns (xs: seq<string>)
    ensures forall x :: x in s <==> x in xs
    ensures forall i, j :: 0 <= i < j < |xs| ==> Text.Less(xs[j], xs[i])
  {
    var rest := s;
    xs := [];
    while rest != {}
      invariant rest <= s
      invariant forall i :: 0 <= i < |xs| ==> xs[i] in s && xs[i] !in rest
      invariant forall x :: x in s ==> x in xs || x in rest
      invariant forall i, j :: 0 <= i < j < |xs| ==> Text.Less(xs[j], xs[i])
      invariant forall i, y :: 0 <= i < |xs| && y in rest ==> Text.Less(y, xs[i])
      decreases |rest|
    {
      var g := GreatestOf(rest);
      xs := xs + [g];
      rest := rest - {g};
    }
  }

  /** One probe of `findLanguageServerPath`; the version directories are scanned in descending order. */
  method RunProbe(h: Host, p: Probe) returns (r: Option<string>)
    ensures r == ProbeResult(h, p)
  {
    match p
    case Single(parent, child) =>
      var path := SingleFile(h, parent, child);
      r := if path in h.existing then Some(path) else None;
    case Versions(parent, child, suffix) =>
      var base := FileOf(h, parent, child);
      if base !in h.existing {
        return None;
      }
      var xs := SortedDescending(Subdirs(h, base));
      for k := 0 to |xs|
        invariant forall j :: 0 <= j < k ==> VersionCandidate(h, base, xs[j], suffix) !in h.existing
      {
        var c := FileOf(h, FileOf(h, base, xs[k]), suffix);
        if c in h.existing {
          FirstHitIsGreatest(h, base, suffix, xs, k);
          Text.GreatestUnique(xs[k], Text.Greatest(Hits(h, base, suffix)), Hits(h, base, suffix));
          return Some(c);
        }
      }
      forall d | d in Subdirs(h, base) ensures VersionCandidate(h, base, d, suffix) !in h.existing {
        var m :| 0 <= m < |xs| && xs[m] == d;
      }
      assert Hits(h, base, suffix) == {};
      r := None;
  }

  /** The `PATH` loop of `findNodePath`: the first directory holding an accepted executable. */
  method ScanPath(h: Host, dirs: seq<string>) returns (r: Option<string>)
    ensures r == FirstInPath(h, dirs)
  {
    var nodeName := NodeName(h);
    for k := 0 to |dirs|
      invariant forall j :: 0 <= j < k ==> !Accepted(h, FileOf(h, dirs[j], nodeName))
    {
      var nodeFile := FileOf(h, dirs[k], nodeName);
      if nodeFile in h.existing && nodeFile in h.executable {
        FirstInPathAt(h, dirs, k);
        return Some(nodeFile);
      }
    }
    return None;
  }

  /**
   * The common-paths loop of `findNodePath`: for the nvm versions directory, only the
   * greatest version directory is probed; a failed probe moves on to the next common path.
   */
  method ScanCommonPaths(h: Host, bases: seq<string>) returns (r: Option<string>)
    ensures r == FirstCommon(h, bases)
  {
    var nodeName := NodeName(h);
    for k := 0 to |bases|
      invariant forall j :: 0 <= j < k ==>
        CommonCandidate(h, bases[j]).None? || !Accepted(h, CommonCandidate(h, bases[j]).value)
    {
      var base := bases[k];
      if Text.Contains(base, NVM_MARKER) && base in h.existing {
        var versionDirs := Subdirs(h, base);
        if versionDirs != {} {
          var latest := GreatestOf(versionDirs);
          Text.GreatestUnique(latest, Text.Greatest(versionDirs), versionDirs);
          var nodeFile := FileOf(h, FileOf(h, base, latest), "bin/" + nodeName);
          if nodeFile in h.existing && nodeFile in h.executable {
            FirstCommonAt(h, bases, k);
            return Some(nodeFile);
          }
        }
      } else {
        var nodeFile := FileOf(h, base, nodeName);
        if nodeFile in h.existing && nodeFile in h.executable {
          FirstCommonAt(h, bases, k);
          return Some(nodeFile);
        }
      }
    }
    return None;
  }

  /** The probes of `findLanguageServerPath`, run in order until one finds something. */
  method RunProbes(h: Host, probes: seq<Probe>) returns (r: Option<string>)
    ensures r == FirstFound(h, probes)
  {
    for k := 0 to |probes|
      invariant FirstFound(h, probes[k..]) == FirstFound(h, probes)
    {
      var found := RunProbe(h, probes[k]);
      assert probes[k..][1..] == probes[k + 1..];
      if found.Some? {
        return found;
      }
    }
    return None;
  }

  /** The uncached part of `findLanguageServerPath`: every probe, in order. */
  method SearchServer(h: Host, basePath: Option<string>) returns (r: Option<string>)
    ensures r == ServerSearch(h, basePath)
  {
    r := RunProbes(h, ServerProbes(h, basePath));
  }

  /** What `findNodePath` returns given the state of its cache. */
  ghost function ResolvedNode(cached: Option<string>, h: Host): string {
    if cached.Some? then cached.value else NodeSearch(h)
  }

  /** A usable cache entry: present, non-null and still existing. */
  predicate CacheHit(cache: map<Option<string>, Option<string>>, basePath: Option<string>, h: Host) {
    basePath in cache && cache[basePath].Some? && cache[basePath].value in h.existing
  }

  /** What `findLanguageServerPath` returns given the state of its cache. */
  ghost function ResolvedServer(cache: map<Option<string>, Option<string>>, h: Host, basePath: Option<string>): Option<string> {
    if CacheHit(cache, basePath, h) then cache[basePath] else ServerSearch(h, basePath)
  }

  /** The companion object's two caches and the searches that fill them. */
  class PathResolver {
    /** `cachedNodePath`. */
    var cachedNodePath: Option<string>
    /** `languageServerPathCache`, keyed by the project base path (which may be null). */
    var serverPathCache: map<Option<string>, Option<string>>

    constructor()
      ensures cachedNodePath == None && serverPathCache == map[]
    {
      cachedNodePath := None;
      serverPathCache := map[];
    }

    /**
     * `findNodePath`: a cached value is returned as it is, without looking at the machine;
     * otherwise the search runs and its answer, fallback included, is cached.
     */
    method FindNodePath(h: Host) returns (r: string)
      modifies this`cachedNodePath
      ensures r == ResolvedNode(old(cachedNodePath), h)
      ensures cachedNodePath == Some(r)
    {
      if cachedNodePath.Some? {
        return cachedNodePath.value;
      }
      var inPath := ScanPath(h, PathDirs(h));
      if inPath.Some? {
        cachedNodePath := inPath;
        return inPath.value;
      }
      var common := ScanCommonPaths(h, CommonNodePaths(h));
      if common.Some? {
        cachedNodePath := common;
        return common.value;
      }
      var nodeName := NodeName(h);
      cachedNodePath := Some(nodeName);
      return nodeName;
    }

    /**
     * `findLanguageServerPath`: a cached path that still exists is returned without a search;
     * otherwise the search runs and its answer, `None` included, is cached under the key.
     * A stale entry is dropped first, so it never survives; a cached `None` does not stop the
     * next search.
     */
    method FindLanguageServerPath(h: Host, basePath: Option<string>) returns (r: Option<string>)
      modifies this`serverPathCache
      ensures r == ResolvedServer(old(serverPathCache), h, basePath)
      ensures serverPathCache ==
        if CacheHit(old(serverPathCache), basePath, h) then old(serverPathCache)
        else old(serverPathCache)[basePath := r]
    {
      if basePath in serverPathCache && serverPathCache[basePath].Some? {
        var cached := serverPathCache[basePath].value;
        if cached in h.existing {
          return Some(cached);
        }
        serverPathCache := serverPathCache - {basePath};
      }
      r := SearchServer(h, basePath);
      assert (old(serverPathCache) - {basePath})[basePath := r] == old(serverPathCache)[basePath := r];
      serverPathCache := serverPathCache[basePath := r];
    }
  }

  /** The first accepted `PATH` entry found by a scan is what `FirstInPath` names. */
  lemma {:induction false} FirstInPathAt(h: Host, dirs: seq<string>, k: nat)
    requires k < |dirs| && Accepted(h, FileOf(h, dirs[k], NodeName(h)))
    requires forall j :: 0 <= j < k ==> !Accepted(h, FileOf(h, dirs[j], NodeName(h)))
    ensures FirstInPath(h, dirs) == Some(FileOf(h, dirs[k], NodeName(h)))
  {
    if k > 0 {
      FirstInPathAt(h, dirs[1..], k - 1);
    }
  }

  /** The first accepted common candidate found by a scan is what `FirstCommon` names. */
  lemma {:induction false} FirstCommonAt(h: Host, bases: seq<string>, k: nat)
    requires k < |bases| && CommonCandidate(h, bases[k]).Some? && Accepted(h, CommonCandidate(h, bases[k]).value)
    requires forall j :: 0 <= j < k ==>
      CommonCandidate(h, bases[j]).None? || !Accepted(h, CommonCandidate(h, bases[j]).value)
    ensures FirstCommon(h, bases) == CommonCandidate(h, bases[k])
  {
    if k > 0 {
      FirstCommonAt(h, bases[1..], k - 1);
    }
  }

  /** `serverArguments.split(" ").filter { it.isNotBlank() }`. */
  function Tokens(args: string): (r: seq<string>)
  {
    NonBlank(Text.Split(args, ' '))
  }

  function NonBlank(parts: seq<string>): (r: seq<string>)
    ensures forall k :: 0 <= k < |r| ==> !Text.IsBlank(r[k])
    ensures forall k :: 0 <= k < |r| ==> r[k] in parts
  {
    if parts == [] then []
    else (if Text.IsBlank(parts[0]) then [] else [parts[0]]) + NonBlank(parts[1..])
  }

  lemma {:induction false} NonBlankAppend(a: seq<string>, b: seq<string>)
    ensures NonBlank(a + b) == NonBlank(a) + NonBlank(b)
  {
    if a != [] {
      assert (a + b)[1..] == a[1..] + b;
      NonBlankAppend(a[1..], b);
    } else {
      assert a + b == b;
    }
  }

  /** Arguments joined by a space tokenise into the tokens of each side, in order. */
  lemma TokensAppend(a: string, b: string)
    ensures Tokens(a + " " + b) == Tokens(a) + Tokens(b)
  {
    assert a + " " + b == a + [' '] + b;
    Text.SplitAppend(a, b, ' ');
    NonBlankAppend(Text.Split(a, ' '), Text.Split(b, ' '));
  }

  /** Runs of spaces and leading or trailing spaces give no empty tokens. */
  lemma TokensNotBlank(args: string)
    ensures forall k :: 0 <= k < |Tokens(args)| ==> !Text.IsBlank(Tokens(args)[k]) && ' ' !in Tokens(args)[k]
  {
    SplitPiecesHaveNoSeparator(args, ' ');
  }

  /** No piece of a split holds the delimiter. */
  lemma {:induction false} SplitPiecesHaveNoSeparator(s: string, sep: char)
    ensures forall k :: 0 <= k < |Text.Split(s, sep)| ==> sep !in Text.Split(s, sep)[k]
    decreases |s|
  {
    if s != [] {
      SplitPiecesHaveNoSeparator(s[1..], sep);
    }
  }

  /** A blank argument string gives no tokens. */
  lemma TokensOfBlank(args: string)
    requires Text.IsBlank(args)
    ensures Tokens(args) == []
  {
    BlankPiecesAreBlank(args);
    NonBlankOfBlanks(Text.Split(args, ' '));
  }

  lemma {:induction false} BlankPiecesAreBlank(s: string)
    requires Text.IsBlank(s)
    ensures forall k :: 0 <= k < |Text.Split(s, ' ')| ==> Text.IsBlank(Text.Split(s, ' ')[k])
    decreases |s|
  {
    if s != [] {
      BlankPiecesAreBlank(s[1..]);
      var rest := Text.Split(s[1..], ' ');
      if s[0] != ' ' {
        assert Text.IsBlank([s[0]] + rest[0]);
      }
    }
  }

  lemma {:induction false} NonBlankOfBlanks(parts: seq<string>)
    requires forall k :: 0 <= k < |parts| ==> Text.IsBlank(parts[k])
    ensures NonBlank(parts) == []
  {
    if parts != [] {
      NonBlankOfBlanks(parts[1..]);
    }
  }

  /** The script the fallback command runs: it prints an install hint and exits with status 1. */
  const ERROR_SCRIPT: string :=
    "console.error('Error: @knip/language-server package not found. Please install it globally with: npm install -g @knip/language-server'); process.exit(1);"

  /** The command line `init` builds from the node path, the server path (if any) and the arguments. */
  function Commands(node: string, server: Option<string>, args: string): (r: seq<string>)
    ensures |r| >= 2 && r[0] == node
    ensures server.Some? ==> r[1] == server.value && r[2..] == Tokens(args)
    ensures server.None? ==> r == [node, "-e", ERROR_SCRIPT]
  {
    match server
    case Some(path) => [node, path] + Tokens(args)
    case None => [node, "-e", ERROR_SCRIPT]
  }

  /** The value a path setting overrides detection with: itself when it is not blank. */
  function Override(setting: string): Option<string> {
    if Text.IsBlank(setting) then None else Some(setting)
  }

  /** The node executable `init` uses: the setting when it is not blank, else `findNodePath()`. */
  ghost function ChosenNode(setting: string, cached: Option<string>, h: Host): string {
    if Override(setting).Some? then setting else ResolvedNode(cached, h)
  }

  /** The server entry point `init` uses: the setting when it is not blank, else `findLanguageServerPath`. */
  ghost function ChosenServer(setting: string, cache: map<Option<string>, Option<string>>, h: Host,
                              basePath: Option<string>): Option<string> {
    if Override(setting).Some? then Some(setting) else ResolvedServer(cache, h, basePath)
  }

  /** `items.forEach { list.add(it) }`. */
  method AddAll(list: seq<string>, items: seq<string>) returns (r: seq<string>)
    ensures r == list + items
  {
    r := list;
    for k := 0 to |items|
      invariant r == list + items[..k]
    {
      r := r + [items[k]];
    }
    assert items[..|items|] == items;
  }

  /** The list `init` fills: node and server, then each argument token, or the error script. */
  method BuildCommands(nodePath: string, serverPath: Option<string>, serverArguments: string)
    returns (cmds: seq<string>)
    ensures cmds == Commands(nodePath, serverPath, serverArguments)
  {
    cmds := [];
    if serverPath.Some? {
      cmds := cmds + [nodePath];
      cmds := cmds + [serverPath.value];
      cmds := AddAll(cmds, Tokens(serverArguments));
    } else {
      cmds := cmds + [nodePath];
      cmds := cmds + ["-e"];
      cmds := cmds + [ERROR_SCRIPT];
    }
  }

  /** The node executable `init` picks: a non-blank setting, else `findNodePath()`. */
  method ChooseNode(resolver: PathResolver, h: Host, setting: string) returns (nodePath: string)
    modifies resolver`cachedNodePath
    ensures nodePath == ChosenNode(setting, old(resolver.cachedNodePath), h)
    ensures Override(setting).Some? ==> resolver.cachedNodePath == old(resolver.cachedNodePath)
    ensures Override(setting).None? ==> resolver.cachedNodePath == Some(ResolvedNode(old(resolver.cachedNodePath), h))
  {
    if !Text.IsBlank(setting) {
      nodePath := setting;
    } else {
      nodePath := resolver.FindNodePath(h);
    }
  }

  /** The server entry point `init` picks: a non-blank setting, else `findLanguageServerPath`. */
  method ChooseServer(resolver: PathResolver, h: Host, setting: string, basePath: Option<string>)
    returns (serverPath: Option<string>)
    modifies resolver`serverPathCache
    ensures serverPath == ChosenServer(setting, old(resolver.serverPathCache), h, basePath)
    ensures Override(setting).Some? ==> resolver.serverPathCache == old(resolver.serverPathCache)
    ensures Override(setting).None? ==>
      resolver.serverPathCache ==
        if CacheHit(old(resolver.serverPathCache), basePath, h) then old(resolver.serverPathCache)
        else old(resolver.serverPathCache)[basePath := ResolvedServer(old(resolver.serverPathCache), h, basePath)]
  {
    if !Text.IsBlank(setting) {
      serverPath := Some(setting);
    } else {
      serverPath := resolver.FindLanguageServerPath(h, basePath);
    }
  }

  /** The process the LSP client launches: its command and working directory. */
  class KnipStreamConnectionProvider {
    var commands: seq<string>
    var workingDirectory: Option<string>

    /**
     * `init`: a non-blank node path or server path from the settings replaces detection (the
     * resolver is not consulted for it and its cache is left as it was); the command line is
     * `[node, server, tokens...]`, or the error script when no server was found; the working
     * directory is the project base path when there is one. When detection runs, the resolver's
     * caches end as `findNodePath` and `findLanguageServerPath` leave them, so a second provider
     * for the same project finds the answers cached.
     */
    constructor(resolver: PathResolver, h: Host, nodePathSetting: string, serverPathSetting: string,
                serverArguments: string, basePath: Option<string>)
      modifies resolver`cachedNodePath, resolver`serverPathCache
      ensures commands == Commands(
        ChosenNode(nodePathSetting, old(resolver.cachedNodePath), h),
        ChosenServer(serverPathSetting, old(resolver.serverPathCache), h, basePath),
        serverArguments)
      ensures workingDirectory == basePath
      ensures Override(nodePathSetting).Some? ==> resolver.cachedNodePath == old(resolver.cachedNodePath)
      ensures Override(serverPathSetting).Some? ==> resolver.serverPathCache == old(resolver.serverPathCache)
      ensures Override(nodePathSetting).None? ==>
        resolver.cachedNodePath == Some(ResolvedNode(old(resolver.cachedNodePath), h))
      ensures Override(serverPathSetting).None? ==>
        resolver.serverPathCache ==
          if CacheHit(old(resolver.serverPathCache), basePath, h) then old(resolver.serverPathCache)
          else old(resolver.serverPathCache)[basePath := ResolvedServer(old(resolver.serverPathCache), h, basePath)]
    {
      var nodePath := ChooseNode(resolver, h, nodePathSetting);
      var serverPath := ChooseServer(resolver, h, serverPathSetting, basePath);
      var cmds := BuildCommands(nodePath, serverPath, serverArguments);
      commands := cmds;
      workingDirectory := basePath;
    }
  }
}
