/**
 * `KnipDetectionActivity`: on project start-up, decide whether the project uses Knip, from
 * the names in its root directory and the dependency sections of its `package.json`.
 */
module Detection {
  import opened Wrappers

  const KNIP_PACKAGES: set<string> := {"knip"}
  const KNIP_CONFIG_FILES: set<string> := {"knip.json", "knip.jsonc", "knip.ts", "knip.config.ts", "knip.config.js"}

  /**
   * What parsing `package.json` yields: `None` when reading or parsing fails or the root is not
   * an object; otherwise the root's members, each `Some(keys)` for an object value and `None`
   * for any other value.
   */
  type PackageJson = Option<map<string, Option<set<string>>>>

  /** The project directory IntelliJ guesses: the names of its children and `package.json`'s content. */
  datatype ProjectDir = ProjectDir(children: set<string>, packageJson: PackageJson)

  /** `hasKnipConfigFile`: one of the five configuration file names is a child of the root. */
  predicate HasKnipConfigFile(children: set<string>)
  {
    exists f :: f in KNIP_CONFIG_FILES && f in children
  }

  /** The configuration file names, spelled out. */
  lemma ConfigFileNames(children: set<string>)
    ensures HasKnipConfigFile(children) <==>
      ("knip.json" in children || "knip.jsonc" in children || "knip.ts" in children
       || "knip.config.ts" in children || "knip.config.js" in children)
  {
    if "knip.json" in children { assert "knip.json" in KNIP_CONFIG_FILES; }
    if "knip.jsonc" in children { assert "knip.jsonc" in KNIP_CONFIG_FILES; }
    if "knip.ts" in children { assert "knip.ts" in KNIP_CONFIG_FILES; }
    if "knip.config.ts" in children { assert "knip.config.ts" in KNIP_CONFIG_FILES; }
    if "knip.config.js" in children { assert "knip.config.js" in KNIP_CONFIG_FILES; }
  }

  /** `hasKnipPackage`: only the keys of the dependency object matter, and the one name is `knip`. */
  function HasKnipPackage(dependencies: set<string>): (r: bool)
    ensures r <==> "knip" in dependencies
  {
    assert "knip" in KNIP_PACKAGES;
    exists p :: p in KNIP_PACKAGES && p in dependencies
  }

  /** `Knip` is a key of the object under `section`: the plain reading of "listed as a dependency". */
  predicate Listed(root: map<string, Option<set<string>>>, section: string) {
    section in root && root[section].Some? && "knip" in root[section].value
  }

  /** The section is present but not an object, so `getAsJsonObject` throws. */
  predicate Malformed(root: map<string, Option<set<string>>>, section: string) {
    section in root && root[section].None?
  }

  /**
   * `hasKnipInPackageJson`. `getAsJsonObject` gives null for a missing member and throws for a
   * member that is not an object; the exception ends the whole check with false.
   */
  function HasKnipInPackageJson(dir: ProjectDir): bool {
    if "package.json" !in dir.children then false
    else
      match dir.packageJson
      case None => false
      case Some(root) =>
        if Malformed(root, "dependencies") then false
        else if "dependencies" in root && HasKnipPackage(root["dependencies"].value) then true
        else if Malformed(root, "devDependencies") then false
        else "devDependencies" in root && HasKnipPackage(root["devDependencies"].value)
  }

  /**
   * Against the plain reading: detection never reports Knip that is not listed; Knip listed in
   * `dependencies` is always found; and when neither section is malformed, detection is exactly
   * "listed in `dependencies` or in `devDependencies`". A missing section counts as not
   * listing Knip.
   */
  lemma PackageDetection(dir: ProjectDir)
    requires "package.json" in dir.children && dir.packageJson.Some?
    ensures HasKnipInPackageJson(dir) ==>
      Listed(dir.packageJson.value, "dependencies") || Listed(dir.packageJson.value, "devDependencies")
    ensures Listed(dir.packageJson.value, "dependencies") ==> HasKnipInPackageJson(dir)
    ensures !Malformed(dir.packageJson.value, "dependencies") && !Malformed(dir.packageJson.value, "devDependencies") ==>
      (HasKnipInPackageJson(dir) <==>
        Listed(dir.packageJson.value, "dependencies") || Listed(dir.packageJson.value, "devDependencies"))
  {
  }

  /** A `dependencies` member that is not an object hides Knip listed in `devDependencies`. */
  lemma MalformedDependenciesHideDevDependencies()
    ensures !HasKnipInPackageJson(ProjectDir({"package.json"},
      Some(map["dependencies" := None, "devDependencies" := Some({"knip"})])))
  {
  }

  /** Without `package.json`, or when it does not parse, the package check is false. */
  lemma NoPackageJson(dir: ProjectDir)
    requires "package.json" !in dir.children || dir.packageJson.None?
    ensures !HasKnipInPackageJson(dir)
  {
  }

  /** `isKnipUsedInProject`: no directory means false; a configuration file decides first. */
  function IsKnipUsedInProject(projectDir: Option<ProjectDir>): (r: bool)
    ensures projectDir.None? ==> !r
    ensures projectDir.Some? && HasKnipConfigFile(projectDir.value.children) ==> r
    ensures projectDir.Some? && !HasKnipConfigFile(projectDir.value.children) ==>
      (r <==> HasKnipInPackageJson(projectDir.value))
  {
    match projectDir
    case None => false
    case Some(dir) => HasKnipConfigFile(dir.children) || HasKnipInPackageJson(dir)
  }

  /** A configuration file is decisive whatever `package.json` holds. */
  lemma ConfigFileDecides(children: set<string>, a: PackageJson, b: PackageJson)
    requires HasKnipConfigFile(children)
    ensures IsKnipUsedInProject(Some(ProjectDir(children, a)))
    ensures IsKnipUsedInProject(Some(ProjectDir(children, b)))
  {
  }

  /** What `execute` does: nothing once the suggestion was dismissed, otherwise detect and maybe notify. */
  datatype Outcome = Skipped | Checked(notified: bool)

  /** `execute`, with the application-wide dismissal flag as an input. */
  function Execute(dismissedPluginSuggestion: bool, projectDir: Option<ProjectDir>): (r: Outcome)
    ensures dismissedPluginSuggestion <==> r.Skipped?
    ensures r.Checked? ==> (r.notified <==> IsKnipUsedInProject(projectDir))
  {
    if dismissedPluginSuggestion then Skipped else Checked(IsKnipUsedInProject(projectDir))
  }

  /** The package-key examples: `knip` among other keys is found; other names and `{}` are not. */
  lemma PackageExamples()
    ensures HasKnipPackage({"knip", "typescript"})
    ensures !HasKnipPackage({"typescript", "eslint"})
    ensures !HasKnipPackage({})
    ensures !HasKnipPackage({"@knip/knip"})
  {
  }
}
