/**
 * `KnipServices.kt`: the second copy of the supported-file predicate (`KnipFileSupport`), used
 * by the activation rule, and the activation helper.
 */
module Services {
  import Text
  import VirtualFiles
  import Settings
  import SupportProvider

  /** `KnipFileSupport.SUPPORTED_EXTENSIONS`. */
  const SUPPORTED_EXTENSIONS: set<string> := {"js", "jsx", "ts", "tsx", "mjs", "cjs", "mts", "cts"}

  /** `KnipFileSupport.SUPPORTED_FILE_NAMES`. */
  const SUPPORTED_FILE_NAMES: set<string> := {"package.json", "knip.json", "knip.jsonc"}

  /** `KnipFileSupport.isSupportedFile`, on the file's name: exact names, extensions, then Knip configs. */
  predicate IsSupportedFile(fileName: string) {
    if fileName in SUPPORTED_FILE_NAMES then true
    else
      var ext := VirtualFiles.Extension(fileName);
      if ext.Some? && Text.Lower(ext.value) in SUPPORTED_EXTENSIONS then true
      else
        || fileName == "knip.ts" || fileName == "knip.config.ts" || fileName == "knip.config.js"
        || fileName == "knip.config.mjs" || fileName == "knip.config.cjs"
  }

  /** The two copies of the predicate agree on every file name. */
  lemma AgreesWithSupportProvider(fileName: string)
    ensures IsSupportedFile(fileName) == SupportProvider.IsSupportedFile(fileName)
  {
  }

  /** `tsconfig.json` is a `.json` file that is not listed, so it is not supported. */
  lemma TsconfigNotSupported()
    ensures !IsSupportedFile("tsconfig.json")
  {
    SupportProvider.TsconfigExample();
    AgreesWithSupportProvider("tsconfig.json");
  }

  /** `KnipActivationHelper.isProjectContext`: the project plays no part. */
  predicate IsProjectContext<P>(project: P, fileName: string) {
    IsSupportedFile(fileName)
  }

  /** Two projects give the same answer for the same file. */
  lemma ProjectContextIgnoresProject<P>(p: P, q: P, fileName: string)
    ensures IsProjectContext(p, fileName) == IsProjectContext(q, fileName)
    ensures IsProjectContext(p, fileName) == SupportProvider.IsSupportedFile(fileName)
  {
  }

  /** `KnipActivationHelper.isEnabledInSettings`. */
  predicate IsEnabledInSettings(settings: Settings.KnipSettings)
    reads settings
  {
    settings.innerServiceMode == Settings.Enabled
  }

  /** The activation helper and the legacy `enabled` property read the same thing. */
  lemma EnabledInSettingsIsEnabled(settings: Settings.KnipSettings)
    ensures IsEnabledInSettings(settings) == settings.IsEnabled()
    ensures IsEnabledInSettings(settings) <==> settings.ServiceModeValue() != Settings.Disabled
  {
  }
}
