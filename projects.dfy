/** How the plugin names a project in its per-project maps. */
module Projects {
  import opened Wrappers

  /** `project.basePath ?: project.name`. */
  function ProjectKey(basePath: Option<string>, projectName: string): (key: string)
    ensures basePath.Some? ==> key == basePath.value
    ensures basePath.None? ==> key == projectName
  {
    basePath.GetOr(projectName)
  }
}
