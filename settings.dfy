/**
 * `KnipSettings` over `KnipSettingsState`: the per-project settings of the plugin. The service
 * mode and the server package reference restart the language services when, and only when,
 * they change; the other properties are stored without a restart.
 */
module Settings {
  import opened Wrappers

  /** `KnipServiceMode`. */
  datatype ServiceMode = Enabled | Disabled

  /**
   * The two calls a changing setter makes, in order: `restartTypeScriptServicesAsync` and
   * `stopAndRestartIfNeeded` for the Knip support provider.
   */
  datatype Effect = RestartTypeScriptServices | StopAndRestartKnipServer

  /** The restart pair that one change requests. */
  const RESTART: seq<Effect> := [RestartTypeScriptServices, StopAndRestartKnipServer]

  /** The default of `serverArguments`, and what the getter reads when nothing is stored. */
  const DEFAULT_SERVER_ARGUMENTS: string := "--stdio"

  class KnipSettings {
    /** `state.innerServiceMode`. */
    var innerServiceMode: ServiceMode
    /** `state.lspServerPackageName`; `None` for a stored null. */
    var lspServerPackageName: Option<string>
    /** `state.serverArguments`. */
    var serverArguments: Option<string>
    /** `state.nodePath`. */
    var nodePath: Option<string>
    /** `state.languageServerPath`. */
    var languageServerPath: Option<string>
    /** The restart calls requested so far, in order. */
    var effects: seq<Effect>

    /**
     * A fresh `KnipSettingsState`: enabled, the default package key, `--stdio`, no node path,
     * no language server path.
     */
    constructor(defaultPackageKey: string)
      ensures innerServiceMode == Enabled
      ensures lspServerPackageName == Some(defaultPackageKey)
      ensures serverArguments == Some(DEFAULT_SERVER_ARGUMENTS)
      ensures nodePath == None && languageServerPath == None
      ensures effects == []
    {
      innerServiceMode := Enabled;
      lspServerPackageName := Some(defaultPackageKey);
      serverArguments := Some(DEFAULT_SERVER_ARGUMENTS);
      nodePath := None;
      languageServerPath := None;
      effects := [];
    }

    /** The getter of `serviceMode`. */
    function ServiceModeValue(): ServiceMode
      reads this
    {
      innerServiceMode
    }

    /**
     * The setter of `serviceMode`: the value is stored, and the restart pair is requested only
     * when it differs from the stored one.
     */
    method SetServiceMode(value: ServiceMode)
      modifies this
      ensures innerServiceMode == value
      ensures effects == old(effects) + (if old(innerServiceMode) != value then RESTART else [])
      ensures lspServerPackageName == old(lspServerPackageName) && serverArguments == old(serverArguments)
      ensures nodePath == old(nodePath) && languageServerPath == old(languageServerPath)
    {
      var changed := innerServiceMode != value;
      innerServiceMode := value;
      if changed {
        effects := effects + RESTART;
      }
    }

    /**
     * The setter of `lspServerPackageRef`, given `extractRefText(value)`: the text is stored,
     * and the restart pair is requested only when it differs from the stored name.
     */
    method SetLspServerPackageRef(refText: string)
      modifies this
      ensures lspServerPackageName == Some(refText)
      ensures effects == old(effects) + (if old(lspServerPackageName) != Some(refText) then RESTART else [])
      ensures innerServiceMode == old(innerServiceMode) && serverArguments == old(serverArguments)
      ensures nodePath == old(nodePath) && languageServerPath == old(languageServerPath)
    {
      var changed := lspServerPackageName != Some(refText);
      lspServerPackageName := Some(refText);
      if changed {
        effects := effects + RESTART;
      }
    }

    /** The getter of `serverArguments`: the stored value, or `--stdio` when none is stored. */
    function ServerArguments(): (r: string)
      reads this
      ensures serverArguments.None? ==> r == DEFAULT_SERVER_ARGUMENTS
      ensures serverArguments.Some? ==> r == serverArguments.value
    {
      serverArguments.GetOr(DEFAULT_SERVER_ARGUMENTS)
    }

    /** The setter of `serverArguments`: stored, never a restart. */
    method SetServerArguments(value: string)
      modifies this
      ensures serverArguments == Some(value) && ServerArguments() == value
      ensures effects == old(effects) && innerServiceMode == old(innerServiceMode)
      ensures lspServerPackageName == old(lspServerPackageName)
      ensures nodePath == old(nodePath) && languageServerPath == old(languageServerPath)
    {
      serverArguments := Some(value);
    }

    /** The legacy `enabled` getter: the service mode is ENABLED. */
    predicate IsEnabled()
      reads this
    {
      innerServiceMode == Enabled
    }

    /**
     * The legacy `enabled` setter, through the `serviceMode` setter: reading `enabled` back
     * gives the value set, and a restart is requested only when the mode changes.
     */
    method SetEnabled(value: bool)
      modifies this
      ensures IsEnabled() == value
      ensures innerServiceMode == (if value then Enabled else Disabled)
      ensures effects == old(effects) + (if old(IsEnabled()) != value then RESTART else [])
      ensures lspServerPackageName == old(lspServerPackageName) && serverArguments == old(serverArguments)
      ensures nodePath == old(nodePath) && languageServerPath == old(languageServerPath)
    {
      SetServiceMode(if value then Enabled else Disabled);
    }

    /** The legacy `nodePath` getter: the stored path, or `""`. */
    function NodePath(): (r: string)
      reads this
      ensures nodePath.None? ==> r == ""
      ensures nodePath.Some? ==> r == nodePath.value
    {
      nodePath.GetOr("")
    }

    /** The legacy `nodePath` setter: stored, never a restart. */
    method SetNodePath(value: string)
      modifies this
      ensures nodePath == Some(value) && NodePath() == value
      ensures effects == old(effects) && innerServiceMode == old(innerServiceMode)
      ensures lspServerPackageName == old(lspServerPackageName) && serverArguments == old(serverArguments)
      ensures languageServerPath == old(languageServerPath)
    {
      nodePath := Some(value);
    }

    /** The legacy `languageServerPath` getter: the stored path, or `""`. */
    function LanguageServerPath(): (r: string)
      reads this
      ensures languageServerPath.None? ==> r == ""
      ensures languageServerPath.Some? ==> r == languageServerPath.value
    {
      languageServerPath.GetOr("")
    }

    /** The legacy `languageServerPath` setter: stored, never a restart. */
    method SetLanguageServerPath(value: string)
      modifies this
      ensures languageServerPath == Some(value) && LanguageServerPath() == value
      ensures effects == old(effects) && innerServiceMode == old(innerServiceMode)
      ensures lspServerPackageName == old(lspServerPackageName) && serverArguments == old(serverArguments)
      ensures nodePath == old(nodePath)
    {
      languageServerPath := Some(value);
    }
  }

  /**
   * Setting the same service mode twice requests at most one restart pair, and exactly one
   * when the mode was different before.
   */
  method SetServiceModeTwice(s: KnipSettings, value: ServiceMode)
    modifies s
    ensures s.innerServiceMode == value
    ensures s.effects == old(s.effects) + (if old(s.innerServiceMode) != value then RESTART else [])
  {
    s.SetServiceMode(value);
    s.SetServiceMode(value);
  }

  /** Fresh settings read as enabled, with `--stdio` and empty paths. */
  method DefaultsRead(defaultPackageKey: string) returns (enabled: bool, args: string, node: string, server: string)
    ensures enabled && args == "--stdio" && node == "" && server == ""
  {
    var s := new KnipSettings(defaultPackageKey);
    enabled := s.IsEnabled();
    args := s.ServerArguments();
    node := s.NodePath();
    server := s.LanguageServerPath();
  }
}
