/**
 * `KnipLspServerDescriptor`: the process-wide registry of "module graph built" futures, the
 * client that routes the server's `knip.moduleGraphBuilt` notification into it, the command
 * line handed to the IDE's LSP support, and the `workspace/configuration` answer.
 */
module Descriptor {
  import opened Wrappers
  import Text
  import Json
  import ConnectionProvider

  /*
   * Futures are modelled by their completion flag: the registry maps each project path to
   * whether its future is done.
   */

  /** The registry after `getModuleGraphBuiltFuture(key)`: a new, pending future only for a new key. */
  function AfterGet(futures: map<string, bool>, key: string): map<string, bool> {
    if key in futures then futures else futures[key := false]
  }

  /** The registry after `resetModuleGraphBuiltFuture(key)`. */
  function AfterReset(futures: map<string, bool>, key: string): map<string, bool> {
    futures - {key}
  }

  /** The registry after `onModuleGraphBuilt(key)`: only a registered, pending future completes. */
  function AfterBuilt(futures: map<string, bool>, key: string): map<string, bool> {
    if key in futures && !futures[key] then futures[key := true] else futures
  }

  /**
   * The first access creates a pending future; later accesses find the same one, done or not,
   * and no other key is touched.
   */
  lemma GetOrCreate(futures: map<string, bool>, key: string, other: string)
    ensures key in AfterGet(futures, key)
    ensures key !in futures ==> !AfterGet(futures, key)[key]
    ensures key in futures ==> AfterGet(futures, key)[key] == futures[key]
    ensures AfterGet(AfterGet(futures, key), key) == AfterGet(futures, key)
    ensures other != key ==> (other in AfterGet(futures, key) <==> other in futures)
    ensures other != key && other in futures ==> AfterGet(futures, key)[other] == futures[other]
  {
  }

  /** After a reset the next access yields a fresh, pending future; other keys are unchanged. */
  lemma ResetGivesFreshFuture(futures: map<string, bool>, key: string, other: string)
    ensures key !in AfterReset(futures, key)
    ensures !AfterGet(AfterReset(futures, key), key)[key]
    ensures other != key ==> (other in AfterReset(futures, key) <==> other in futures)
    ensures other != key && other in futures ==> AfterReset(futures, key)[other] == futures[other]
  {
  }

  /**
   * The notification completes a registered future and leaves every other future alone;
   * without a registered future it changes nothing, so a later access still finds a pending
   * future: the signal is not remembered. Completing twice is completing once.
   */
  lemma BuiltCompletesRegisteredOnly(futures: map<string, bool>, key: string, other: string)
    ensures key in futures ==> AfterBuilt(futures, key)[key]
    ensures key !in futures ==> AfterBuilt(futures, key) == futures
    ensures key !in futures ==> !AfterGet(AfterBuilt(futures, key), key)[key]
    ensures AfterBuilt(AfterBuilt(futures, key), key) == AfterBuilt(futures, key)
    ensures AfterBuilt(futures, key).Keys == futures.Keys
    ensures other != key && other in futures ==> AfterBuilt(futures, key)[other] == futures[other]
  {
  }

  /** The companion object's `moduleGraphBuiltFutures`. */
  class ModuleGraphFutures {
    var futures: map<string, bool>

    constructor()
      ensures futures == map[]
    {
      futures := map[];
    }

    /** `getModuleGraphBuiltFuture`: `computeIfAbsent`; `done` is the returned future's state. */
    method GetModuleGraphBuiltFuture(projectPath: string) returns (done: bool)
      modifies this
      ensures futures == AfterGet(old(futures), projectPath)
      ensures projectPath in futures && done == futures[projectPath]
    {
      if projectPath !in futures {
        futures := futures[projectPath := false];
      }
      done := futures[projectPath];
    }

    /** `resetModuleGraphBuiltFuture`. */
    method ResetModuleGraphBuiltFuture(projectPath: string)
      modifies this
      ensures futures == AfterReset(old(futures), projectPath)
    {
      futures := futures - {projectPath};
    }

    /** `onModuleGraphBuilt`. */
    method OnModuleGraphBuilt(projectPath: string)
      modifies this
      ensures futures == AfterBuilt(old(futures), projectPath)
    {
      if projectPath in futures {
        var future := futures[projectPath];
        if !future {
          futures := futures[projectPath := true];
        }
      }
    }
  }

  /** The project path `createLsp4jClient` gives the client: the base path, or `""` without one. */
  function ClientProjectPath(basePath: Option<string>): (r: string)
    ensures basePath.Some? ==> r == basePath.value
    ensures basePath.None? ==> r == ""
  {
    basePath.GetOr("")
  }

  /** `KnipLsp4jClient`: forwards `knip.moduleGraphBuilt` under its project path. */
  class KnipLsp4jClient {
    const projectPath: string

    constructor(basePath: Option<string>)
      ensures projectPath == ClientProjectPath(basePath)
    {
      projectPath := ClientProjectPath(basePath);
    }

    method ModuleGraphBuilt(registry: ModuleGraphFutures)
      modifies registry
      ensures registry.futures == AfterBuilt(old(registry.futures), projectPath)
    {
      registry.OnModuleGraphBuilt(projectPath);
    }
  }

  /** The notification of a project without a base path completes the future registered under `""`. */
  lemma NoBasePathRoutesToEmptyKey(futures: map<string, bool>)
    requires "" in futures
    ensures AfterBuilt(futures, ClientProjectPath(None))[""]
  {
  }

  /** `GeneralCommandLine`: executable, parameters and working directory. */
  datatype CommandLine = CommandLine(exePath: string, parameters: seq<string>, workDirectory: Option<string>)

  /** The process arguments, executable first. */
  function Argv(c: CommandLine): seq<string> {
    [c.exePath] + c.parameters
  }

  /** A non-blank setting in preference to detection. */
  function Choose(setting: string, detected: string): (r: string)
    ensures !Text.IsBlank(setting) ==> r == setting
    ensures Text.IsBlank(setting) ==> r == detected
  {
    if !Text.IsBlank(setting) then setting else detected
  }

  /**
   * `createCommandLine`. The resolver is outside this model: `detectedNode` and
   * `detectedServer` are what it would answer, and `askedNode` / `askedServer` say whether it
   * was asked at all. The command line is the one the connection provider builds from the same
   * choices, and the working directory is the base path when there is one.
   */
  method CreateCommandLine(nodePathSetting: string, serverPathSetting: string, serverArguments: string,
                           basePath: Option<string>, detectedNode: string, detectedServer: Option<string>)
    returns (commandLine: CommandLine, askedNode: bool, askedServer: bool)
    ensures askedNode <==> Text.IsBlank(nodePathSetting)
    ensures askedServer <==> Text.IsBlank(serverPathSetting)
    ensures Argv(commandLine) == ConnectionProvider.Commands(
      Choose(nodePathSetting, detectedNode),
      if Text.IsBlank(serverPathSetting) then detectedServer else Some(serverPathSetting),
      serverArguments)
    ensures commandLine.workDirectory == basePath
  {
    var nodePath: string;
    askedNode := Text.IsBlank(nodePathSetting);
    if !askedNode {
      nodePath := nodePathSetting;
    } else {
      nodePath := detectedNode;
    }
    var languageServerPath: Option<string>;
    askedServer := Text.IsBlank(serverPathSetting);
    if !askedServer {
      languageServerPath := Some(serverPathSetting);
    } else {
      languageServerPath := detectedServer;
    }
    commandLine := BuildCommandLine(nodePath, languageServerPath, serverArguments, basePath);
  }

  /**
   * The command line once both paths are known: `node -e <script>` without a server path,
   * otherwise the node executable with the server path and then each argument token added as
   * a parameter.
   */
  method BuildCommandLine(nodePath: string, languageServerPath: Option<string>, serverArguments: string,
                          basePath: Option<string>)
    returns (commandLine: CommandLine)
    ensures Argv(commandLine) == ConnectionProvider.Commands(nodePath, languageServerPath, serverArguments)
    ensures commandLine.workDirectory == basePath
  {
    if languageServerPath.None? {
      commandLine := CommandLine(nodePath, ["-e", ConnectionProvider.ERROR_SCRIPT], basePath);
      return;
    }
    var parameters := [languageServerPath.value];
    var args := ConnectionProvider.Tokens(serverArguments);
    parameters := ConnectionProvider.AddAll(parameters, args);
    commandLine := CommandLine(nodePath, parameters, basePath);
  }

  /*
   * The `workspace/configuration` answer: `KnipWorkspaceConfiguration` and its nested classes,
   * with their fixed values.
   */

  datatype CodeLensConfig = CodeLensConfig(enabled: bool)
  datatype HoverConfig = HoverConfig(enabled: bool, includeImportLocationSnippet: bool, maxSnippets: int, timeout: int)
  datatype QuickFixConfig = QuickFixConfig(enabled: bool)
  datatype HighlightConfig = HighlightConfig(dimExports: bool, dimTypes: bool)
  datatype EditorExportsConfig = EditorExportsConfig(
    codelens: CodeLensConfig, hover: HoverConfig, quickfix: QuickFixConfig, highlight: HighlightConfig)
  datatype EditorConfig = EditorConfig(exports: EditorExportsConfig)
  datatype ImportsConfig = ImportsConfig(enabled: bool)
  datatype ContentionConfig = ContentionConfig(enabled: bool)
  datatype ExportsConfig = ExportsConfig(enabled: bool, contention: ContentionConfig)
  datatype KnipWorkspaceConfiguration = KnipWorkspaceConfiguration(
    enabled: bool, editor: EditorConfig, imports: ImportsConfig, exports: ExportsConfig)

  /** `KnipWorkspaceConfiguration()`: the values its property initialisers give. */
  const DEFAULT_CONFIGURATION: KnipWorkspaceConfiguration :=
    KnipWorkspaceConfiguration(
      true,
      EditorConfig(EditorExportsConfig(
        CodeLensConfig(true),
        HoverConfig(true, true, 5, 5000),
        QuickFixConfig(true),
        HighlightConfig(false, false))),
      ImportsConfig(true),
      ExportsConfig(true, ContentionConfig(true)))

  /** Every `enabled` flag of a configuration. */
  function EnabledFlags(c: KnipWorkspaceConfiguration): seq<bool> {
    [ c.enabled, c.editor.exports.codelens.enabled, c.editor.exports.hover.enabled,
      c.editor.exports.quickfix.enabled, c.imports.enabled, c.exports.enabled,
      c.exports.contention.enabled ]
  }

  /**
   * The defaults: every `enabled` flag is true, hover shows at most 5 snippets with a 5000 ms
   * timeout and includes the import location, and nothing is dimmed.
   */
  lemma ConfigurationDefaults()
    ensures forall i :: 0 <= i < |EnabledFlags(DEFAULT_CONFIGURATION)| ==> EnabledFlags(DEFAULT_CONFIGURATION)[i]
    ensures DEFAULT_CONFIGURATION.editor.exports.hover.maxSnippets == 5
    ensures DEFAULT_CONFIGURATION.editor.exports.hover.timeout == 5000
    ensures DEFAULT_CONFIGURATION.editor.exports.hover.includeImportLocationSnippet
    ensures !DEFAULT_CONFIGURATION.editor.exports.highlight.dimExports
    ensures !DEFAULT_CONFIGURATION.editor.exports.highlight.dimTypes
  {
  }

  /** What `getWorkspaceConfiguration` answers. */
  datatype ConfigurationAnswer = Knip(configuration: KnipWorkspaceConfiguration) | Delegated

  /** `getWorkspaceConfiguration(item)`, on the item's (nullable) section. */
  function GetWorkspaceConfiguration(section: Option<string>): (r: ConfigurationAnswer)
    ensures r.Knip? <==> section == Some("knip")
    ensures r.Knip? ==> r.configuration == DEFAULT_CONFIGURATION
  {
    if section == Some("knip") then Knip(DEFAULT_CONFIGURATION) else Delegated
  }

  /*
   * The JSON form of the configuration, one function per class: each object lists its
   * properties in declaration order.
   */

  function CodeLensJson(c: CodeLensConfig): Json.Json {
    Json.JObject([("enabled", Json.JBool(c.enabled))])
  }

  function HoverJson(c: HoverConfig): Json.Json {
    Json.JObject([
      ("enabled", Json.JBool(c.enabled)),
      ("includeImportLocationSnippet", Json.JBool(c.includeImportLocationSnippet)),
      ("maxSnippets", Json.JInt(c.maxSnippets)),
      ("timeout", Json.JInt(c.timeout))])
  }

  function QuickFixJson(c: QuickFixConfig): Json.Json {
    Json.JObject([("enabled", Json.JBool(c.enabled))])
  }

  function HighlightJson(c: HighlightConfig): Json.Json {
    Json.JObject([("dimExports", Json.JBool(c.dimExports)), ("dimTypes", Json.JBool(c.dimTypes))])
  }

  function EditorExportsJson(c: EditorExportsConfig): Json.Json {
    Json.JObject([
      ("codelens", CodeLensJson(c.codelens)),
      ("hover", HoverJson(c.hover)),
      ("quickfix", QuickFixJson(c.quickfix)),
      ("highlight", HighlightJson(c.highlight))])
  }

  function EditorJson(c: EditorConfig): Json.Json {
    Json.JObject([("exports", EditorExportsJson(c.exports))])
  }

  function ImportsJson(c: ImportsConfig): Json.Json {
    Json.JObject([("enabled", Json.JBool(c.enabled))])
  }

  function ContentionJson(c: ContentionConfig): Json.Json {
    Json.JObject([("enabled", Json.JBool(c.enabled))])
  }

  function ExportsJson(c: ExportsConfig): Json.Json {
    Json.JObject([("enabled", Json.JBool(c.enabled)), ("contention", ContentionJson(c.contention))])
  }

  function ToJson(c: KnipWorkspaceConfiguration): Json.Json {
    Json.JObject([
      ("enabled", Json.JBool(c.enabled)),
      ("editor", EditorJson(c.editor)),
      ("imports", ImportsJson(c.imports)),
      ("exports", ExportsJson(c.exports))])
  }
}
