# Knip plugin core, in Dafny

This project models the core of the Knip plugin for IntelliJ-based IDEs. The plugin's job is to
launch the Knip language server and keep it fed. The model covers:

- **Server launch.** Where the Node.js executable and the `@knip/language-server` entry point
  are found. Two process-wide caches remember what was found. Both the connection provider and
  the server descriptor build the command line from the result.
- **Watched files.** File-system events become `workspace/didChangeWatchedFiles` notifications
  of the Language Server Protocol 3.17 (Created = 1, Changed = 2, Deleted = 3). Editor changes
  are debounced into one save per document.
- **Session state.** The per-project session state is four pieces:
  - the module-graph futures;
  - the "start-up in progress" guard with its 300-poll wait;
  - the client's reaction to server status changes;
  - the support provider's gating of opened files.
- **Pure decisions.**
  - which files are supported or get the Knip icon;
  - whether a project uses Knip;
  - the `workspace/configuration` settings, wrapped and unwrapped;
  - the settings state, where only a real change restarts services.

The machine is a `Host` value: OS, home directory, `PATH`, existing and executable paths, and
sub-directories. Server lists, clocks, request outcomes and the IDE's answers are inputs.
Objects whose fields the plugin updates are classes: the path caches, the futures registry,
the listener and its registry, the start-up guard, the client features and the settings. Each
of their methods is proved against a function of the old state.
`CreateSettings` is a method: each `JsonObject().apply` block is a loop of `add` calls, and
`Json.Build` proves that adding distinct keys lists them in call order.

`isVersionAtLeast` is absent from the plugin's source. The `Versions` module follows its tests
in `src/test/kotlin/com/github/niklaswortmann/knipintellijplugin/lsp/KnipLspServerSupportProviderTest.kt`: split at `.`, a segment that is not all digits counts as 0, and a missing segment
counts as 0.

## Model

| member | source | states |
|---|---|---|
| ConnectionProvider.IsWindowsName | src/main/kotlin/com/github/niklaswortmann/knipintellijplugin/lsp/KnipStreamConnectionProvider.kt:21 | models the test `os.name.lowercase().contains("windows")`; stated by `WindowsNames` |
| ConnectionProvider.IsWindows | src/main/kotlin/com/github/niklaswortmann/knipintellijplugin/lsp/KnipStreamConnectionProvider.kt:21 | models `isWindows` as `IsWindowsName` of the host's `os.name`; stated by `WindowsNames` and `WindowsNameExamples` |
| ConnectionProvider.NodeName | src/main/kotlin/com/github/niklaswortmann/knipintellijplugin/lsp/KnipStreamConnectionProvider.kt:85 | models `nodeName`: `node.exe` on Windows, `node` otherwise |
| ConnectionProvider.PathDirs | src/main/kotlin/com/github/niklaswortmann/knipintellijplugin/lsp/KnipStreamConnectionProvider.kt:88-91 | models `PATH` split at `;` on Windows and `:` otherwise, an unset `PATH` read as empty |
| ConnectionProvider.CommonNodePaths | src/main/kotlin/com/github/niklaswortmann/knipintellijplugin/lsp/KnipStreamConnectionProvider.kt:36-75 | models `getCommonNodePaths`: the Windows list or the Unix list, in source order |
| ConnectionProvider.CommonCandidate | src/main/kotlin/com/github/niklaswortmann/knipintellijplugin/lsp/KnipStreamConnectionProvider.kt:107-134 | models one step of the common-path loop: `bin/<node>` under the greatest nvm version directory, else `<node>` under the path; its use is stated by `FirstCommon` and `ScanCommonPaths` |
| ConnectionProvider.NodeSearch | src/main/kotlin/com/github/niklaswortmann/knipintellijplugin/lsp/KnipStreamConnectionProvider.kt:88-140 | models the uncached `findNodePath` search: `PATH` first, then the common paths, then the bare name; stated by `NodeSearchNonEmpty`, `NodeFallback` and `PathBeforeCommon` |
| ConnectionProvider.WindowsNames | src/main/kotlin/com/github/niklaswortmann/knipintellijplugin/lsp/KnipStreamConnectionProvider.kt:21 | any `os.name` holding `windows` in any letter case, such as `Windows 10`, selects the Windows paths |
| ConnectionProvider.WindowsNameExamples | src/main/kotlin/com/github/niklaswortmann/knipintellijplugin/lsp/KnipStreamConnectionProvider.kt:21 | example: `Windows 10` and `windows` select the Windows paths |
| ConnectionProvider.FileOf | src/main/kotlin/com/github/niklaswortmann/knipintellijplugin/lsp/KnipStreamConnectionProvider.kt:93 | a joined path is longer than its parent and has the host separator right after it |
| ConnectionProvider.FirstInPath | src/main/kotlin/com/github/niklaswortmann/knipintellijplugin/lsp/KnipStreamConnectionProvider.kt:91-103 | the search over `PATH` fails exactly when no entry holds an accepted executable, and otherwise answers an accepted one |
| ConnectionProvider.FirstCommon | src/main/kotlin/com/github/niklaswortmann/knipintellijplugin/lsp/KnipStreamConnectionProvider.kt:107-134 | the search over the common paths fails exactly when no candidate is accepted, and otherwise answers an accepted one |
| ConnectionProvider.FirstInPathIndex | src/main/kotlin/com/github/niklaswortmann/knipintellijplugin/lsp/KnipStreamConnectionProvider.kt:91-103 | the node executable found on `PATH` is the one in the first accepted directory, and no earlier directory holds an accepted executable |
| ConnectionProvider.NodeSearchNonEmpty | src/main/kotlin/com/github/niklaswortmann/knipintellijplugin/lsp/KnipStreamConnectionProvider.kt:77-141 | an uncached `findNodePath` never answers the empty string |
| ConnectionProvider.NonEmptyCommon | src/main/kotlin/com/github/niklaswortmann/knipintellijplugin/lsp/KnipStreamConnectionProvider.kt:107-134 | every candidate a common path contributes is non-empty |
| ConnectionProvider.NodeFallback | src/main/kotlin/com/github/niklaswortmann/knipintellijplugin/lsp/KnipStreamConnectionProvider.kt:137-140 | when no `PATH` entry and no common path is accepted, the answer is `node`, or `node.exe` on Windows |
| ConnectionProvider.PathBeforeCommon | src/main/kotlin/com/github/niklaswortmann/knipintellijplugin/lsp/KnipStreamConnectionProvider.kt:91-134 | an accepted executable in `PATH` entry k wins over every common path: the answer is accepted and comes from an entry at or before k |
| ConnectionProvider.PackagePath | src/main/kotlin/com/github/niklaswortmann/knipintellijplugin/lsp/KnipStreamConnectionProvider.kt:169 | models `PACKAGE_NAME.replace("/", File.separator)`; stated by `PackagePathOnHosts` |
| ConnectionProvider.PackagePathOnHosts | src/main/kotlin/com/github/niklaswortmann/knipintellijplugin/lsp/KnipStreamConnectionProvider.kt:169 | the package directory is `@knip/language-server` on Unix and `@knip\language-server` on Windows |
| ConnectionProvider.GlobalProbes | src/main/kotlin/com/github/niklaswortmann/knipintellijplugin/lsp/KnipStreamConnectionProvider.kt:186-276 | models the global probe list: Volta, the npm globals for the host, nvm, pnpm, the two yarn paths, fnm and asdf, in source order |
| ConnectionProvider.ServerProbes | src/main/kotlin/com/github/niklaswortmann/knipintellijplugin/lsp/KnipStreamConnectionProvider.kt:171-276 | models the full probe list: the project `node_modules` first when there is a base path, then the global probes; stated by `ProjectInstallFirst` and `ProjectInstallMissing` |
| ConnectionProvider.ServerSearch | src/main/kotlin/com/github/niklaswortmann/knipintellijplugin/lsp/KnipStreamConnectionProvider.kt:168-281 | models the uncached `findLanguageServerPath` search as the first probe that finds something; stated by `ServerSearchExists` |
| ConnectionProvider.ProbeResultExists | src/main/kotlin/com/github/niklaswortmann/knipintellijplugin/lsp/KnipStreamConnectionProvider.kt:171-276 | whatever one language-server probe finds exists on the host |
| ConnectionProvider.FirstFoundExists | src/main/kotlin/com/github/niklaswortmann/knipintellijplugin/lsp/KnipStreamConnectionProvider.kt:171-276 | the first successful probe of a sequence answers with an existing path |
| ConnectionProvider.ServerSearchExists | src/main/kotlin/com/github/niklaswortmann/knipintellijplugin/lsp/KnipStreamConnectionProvider.kt:168-281 | `findLanguageServerPath` only ever finds existing paths |
| ConnectionProvider.ProjectInstallFirst | src/main/kotlin/com/github/niklaswortmann/knipintellijplugin/lsp/KnipStreamConnectionProvider.kt:171-183 | an installation in the project's own `node_modules` wins over every global location |
| ConnectionProvider.ProjectInstallMissing | src/main/kotlin/com/github/niklaswortmann/knipintellijplugin/lsp/KnipStreamConnectionProvider.kt:171-183 | without the project installation, the search gives what the global search gives |
| ConnectionProvider.FirstHitIsGreatest | src/main/kotlin/com/github/niklaswortmann/knipintellijplugin/lsp/KnipStreamConnectionProvider.kt:216-228 | in a scan of the version directories in descending order, the first hit is the greatest directory whose candidate exists |
| ConnectionProvider.GreatestOf | src/main/kotlin/com/github/niklaswortmann/knipintellijplugin/lsp/KnipStreamConnectionProvider.kt:113-114 | returns the greatest directory name of a non-empty set, the `firstOrNull` of `sortedDescending` |
| ConnectionProvider.SortedDescending | src/main/kotlin/com/github/niklaswortmann/knipintellijplugin/lsp/KnipStreamConnectionProvider.kt:218 | returns every directory name exactly once, in strictly descending order |
| ConnectionProvider.RunProbe | src/main/kotlin/com/github/niklaswortmann/knipintellijplugin/lsp/KnipStreamConnectionProvider.kt:171-276 | one probe returns the path it tests when that path exists; a version probe returns the candidate of the greatest version directory that has one |
| ConnectionProvider.ScanPath | src/main/kotlin/com/github/niklaswortmann/knipintellijplugin/lsp/KnipStreamConnectionProvider.kt:91-103 | the `PATH` loop returns the first directory holding an executable node that exists, or nothing |
| ConnectionProvider.ScanCommonPaths | src/main/kotlin/com/github/niklaswortmann/knipintellijplugin/lsp/KnipStreamConnectionProvider.kt:107-134 | the common-path loop probes only `bin/<node>` under the greatest nvm version and `<node>` directly under the other paths, and returns the first accepted candidate |
| ConnectionProvider.RunProbes | src/main/kotlin/com/github/niklaswortmann/knipintellijplugin/lsp/KnipStreamConnectionProvider.kt:171-276 | the probes run in order and the first one that finds something decides |
| ConnectionProvider.SearchServer | src/main/kotlin/com/github/niklaswortmann/knipintellijplugin/lsp/KnipStreamConnectionProvider.kt:168-281 | the search visits the project `node_modules` (only with a base path), then Volta, the npm globals, nvm, pnpm, yarn, fnm and asdf |
| ConnectionProvider.PathResolver.constructor | src/main/kotlin/com/github/niklaswortmann/knipintellijplugin/lsp/KnipStreamConnectionProvider.kt:28-31 | both caches start empty |
| ConnectionProvider.PathResolver.FindNodePath | src/main/kotlin/com/github/niklaswortmann/knipintellijplugin/lsp/KnipStreamConnectionProvider.kt:77-141 | a cached node path is returned without searching and never revalidated; otherwise the search result, fallback included, is returned and cached |
| ConnectionProvider.PathResolver.FindLanguageServerPath | src/main/kotlin/com/github/niklaswortmann/knipintellijplugin/lsp/KnipStreamConnectionProvider.kt:154-282 | a cached path that still exists is returned without searching; a stale one is evicted; a cached null does not stop a new search; the answer is cached under the project key |
| ConnectionProvider.FirstInPathAt | src/main/kotlin/com/github/niklaswortmann/knipintellijplugin/lsp/KnipStreamConnectionProvider.kt:91-103 | the first accepted `PATH` entry a scan meets is the search's answer |
| ConnectionProvider.FirstCommonAt | src/main/kotlin/com/github/niklaswortmann/knipintellijplugin/lsp/KnipStreamConnectionProvider.kt:107-134 | the first accepted common candidate a scan meets is the search's answer |
| ConnectionProvider.Tokens | src/main/kotlin/com/github/niklaswortmann/knipintellijplugin/lsp/KnipStreamConnectionProvider.kt:311-312 | models `serverArguments.split(" ").filter { it.isNotBlank() }`; stated by `TokensAppend`, `TokensNotBlank` and `TokensOfBlank` |
| ConnectionProvider.NonBlank | src/main/kotlin/com/github/niklaswortmann/knipintellijplugin/lsp/KnipStreamConnectionProvider.kt:311-312 | the kept tokens are non-blank and come from the split |
| ConnectionProvider.NonBlankAppend | src/main/kotlin/com/github/niklaswortmann/knipintellijplugin/lsp/KnipStreamConnectionProvider.kt:311-312 | filtering blank pieces distributes over concatenation |
| ConnectionProvider.TokensAppend | src/main/kotlin/com/github/niklaswortmann/knipintellijplugin/lsp/KnipStreamConnectionProvider.kt:311-312 | arguments joined by a space give the tokens of each side, in order |
| ConnectionProvider.TokensNotBlank | src/main/kotlin/com/github/niklaswortmann/knipintellijplugin/lsp/KnipStreamConnectionProvider.kt:311-312 | no token is blank or contains a space |
| ConnectionProvider.SplitPiecesHaveNoSeparator | src/main/kotlin/com/github/niklaswortmann/knipintellijplugin/lsp/KnipStreamConnectionProvider.kt:311 | no piece of a split contains the separator |
| ConnectionProvider.TokensOfBlank | src/main/kotlin/com/github/niklaswortmann/knipintellijplugin/lsp/KnipStreamConnectionProvider.kt:311-312 | a blank argument string gives no tokens |
| ConnectionProvider.BlankPiecesAreBlank | src/main/kotlin/com/github/niklaswortmann/knipintellijplugin/lsp/KnipStreamConnectionProvider.kt:311 | splitting a blank string gives only blank pieces |
| ConnectionProvider.NonBlankOfBlanks | src/main/kotlin/com/github/niklaswortmann/knipintellijplugin/lsp/KnipStreamConnectionProvider.kt:312 | filtering only blank pieces leaves nothing |
| ConnectionProvider.Commands | src/main/kotlin/com/github/niklaswortmann/knipintellijplugin/lsp/KnipStreamConnectionProvider.kt:306-324 | argv starts with node; with a server path it is `[node, path] ++ tokens`; without, `[node, "-e", script]` |
| ConnectionProvider.AddAll | src/main/kotlin/com/github/niklaswortmann/knipintellijplugin/lsp/KnipStreamConnectionProvider.kt:313 | the `forEach { add }` loop appends every item in order |
| ConnectionProvider.BuildCommands | src/main/kotlin/com/github/niklaswortmann/knipintellijplugin/lsp/KnipStreamConnectionProvider.kt:306-324 | the mutable `commands` list ends up as `Commands` of the node path, server path and arguments |
| ConnectionProvider.ChooseNode | src/main/kotlin/com/github/niklaswortmann/knipintellijplugin/lsp/KnipStreamConnectionProvider.kt:291-296 | a non-blank node setting is used and the node cache is untouched; otherwise the answer is `findNodePath`'s and the cache ends holding it |
| ConnectionProvider.ChooseServer | src/main/kotlin/com/github/niklaswortmann/knipintellijplugin/lsp/KnipStreamConnectionProvider.kt:299-304 | a non-blank server setting is used and the server cache is untouched; otherwise the answer and the cache are what `findLanguageServerPath` gives and leaves |
| ConnectionProvider.KnipStreamConnectionProvider.constructor | src/main/kotlin/com/github/niklaswortmann/knipintellijplugin/lsp/KnipStreamConnectionProvider.kt:285-336 | a non-blank node or server setting replaces detection and leaves that cache untouched; otherwise the caches end as `FindNodePath` and `FindLanguageServerPath` leave them; the command line is `Commands` of the chosen values; the working directory is the base path |
| Descriptor.AfterGet | src/main/kotlin/com/github/niklaswortmann/knipintellijplugin/lsp/KnipLspServerDescriptor.kt:35-39 | models `computeIfAbsent`: a missing key gets a pending future; stated by `GetOrCreate` |
| Descriptor.AfterReset | src/main/kotlin/com/github/niklaswortmann/knipintellijplugin/lsp/KnipLspServerDescriptor.kt:44-46 | models `remove`; stated by `ResetGivesFreshFuture` |
| Descriptor.AfterBuilt | src/main/kotlin/com/github/niklaswortmann/knipintellijplugin/lsp/KnipLspServerDescriptor.kt:51-57 | models `onModuleGraphBuilt`: only a registered, pending future completes; stated by `BuiltCompletesRegisteredOnly` |
| Descriptor.GetOrCreate | src/main/kotlin/com/github/niklaswortmann/knipintellijplugin/lsp/KnipLspServerDescriptor.kt:35-39 | a first access creates a pending future; later accesses keep it; other keys are untouched; a second get changes nothing |
| Descriptor.ResetGivesFreshFuture | src/main/kotlin/com/github/niklaswortmann/knipintellijplugin/lsp/KnipLspServerDescriptor.kt:44-46 | after a reset the key is gone, the next get gives a pending future, and other keys are unchanged |
| Descriptor.BuiltCompletesRegisteredOnly | src/main/kotlin/com/github/niklaswortmann/knipintellijplugin/lsp/KnipLspServerDescriptor.kt:51-57 | only a registered future completes; with none registered the registry is unchanged and a later get is still pending; completing twice is completing once |
| Descriptor.ModuleGraphFutures.constructor | src/main/kotlin/com/github/niklaswortmann/knipintellijplugin/lsp/KnipLspServerDescriptor.kt:30 | the registry starts empty |
| Descriptor.ModuleGraphFutures.GetModuleGraphBuiltFuture | src/main/kotlin/com/github/niklaswortmann/knipintellijplugin/lsp/KnipLspServerDescriptor.kt:35-39 | the registry becomes `AfterGet` of the old one, and the returned state is the stored one |
| Descriptor.ModuleGraphFutures.ResetModuleGraphBuiltFuture | src/main/kotlin/com/github/niklaswortmann/knipintellijplugin/lsp/KnipLspServerDescriptor.kt:44-46 | the registry becomes `AfterReset` of the old one |
| Descriptor.ModuleGraphFutures.OnModuleGraphBuilt | src/main/kotlin/com/github/niklaswortmann/knipintellijplugin/lsp/KnipLspServerDescriptor.kt:51-57 | the registry becomes `AfterBuilt` of the old one |
| Descriptor.ClientProjectPath | src/main/kotlin/com/github/niklaswortmann/knipintellijplugin/lsp/KnipLspServerDescriptor.kt:60-62 | the client's project path is the base path, or `""` without one |
| Descriptor.KnipLsp4jClient.constructor | src/main/kotlin/com/github/niklaswortmann/knipintellijplugin/lsp/KnipLspServerDescriptor.kt:223-226 | the client keeps `ClientProjectPath` of the base path |
| Descriptor.KnipLsp4jClient.ModuleGraphBuilt | src/main/kotlin/com/github/niklaswortmann/knipintellijplugin/lsp/KnipLspServerDescriptor.kt:233-236 | the notification completes the future under the client's project path |
| Descriptor.NoBasePathRoutesToEmptyKey | src/main/kotlin/com/github/niklaswortmann/knipintellijplugin/lsp/KnipLspServerDescriptor.kt:60-62 | a project without a base path completes the future registered under `""` |
| Descriptor.Choose | src/main/kotlin/com/github/niklaswortmann/knipintellijplugin/lsp/KnipLspServerDescriptor.kt:72-77 | a non-blank setting wins over detection |
| Descriptor.CreateCommandLine | src/main/kotlin/com/github/niklaswortmann/knipintellijplugin/lsp/KnipLspServerDescriptor.kt:68-118 | detection is asked exactly when the setting is blank; the argv is the connection provider's `Commands` of the chosen paths; the working directory is the base path |
| Descriptor.BuildCommandLine | src/main/kotlin/com/github/niklaswortmann/knipintellijplugin/lsp/KnipLspServerDescriptor.kt:91-114 | without a server path, `node -e <script>`; otherwise node, the path, then each argument token as a parameter; the working directory is the base path |
| Descriptor.ToJson | src/main/kotlin/com/github/niklaswortmann/knipintellijplugin/lsp/KnipLspServerDescriptor.kt:154-206 | models the Gson form of `KnipWorkspaceConfiguration`, its fields as keys in declaration order; stated by the `LanguageClient` level lemmas and `CreateSettings` |
| Descriptor.ConfigurationDefaults | src/main/kotlin/com/github/niklaswortmann/knipintellijplugin/lsp/KnipLspServerDescriptor.kt:154-206 | every `enabled` flag is true, hover has 5 snippets, a 5000 ms timeout and the import snippet, and nothing is dimmed |
| Descriptor.GetWorkspaceConfiguration | src/main/kotlin/com/github/niklaswortmann/knipintellijplugin/lsp/KnipLspServerDescriptor.kt:142-147 | the Knip configuration is returned exactly for section `knip`; every other section is delegated |
| Json.Lookup | src/main/kotlin/com/github/niklaswortmann/knipintellijplugin/lsp/KnipLanguageClient.kt:25-68 | a lookup fails exactly when the key is absent, and otherwise returns a value stored under it |
| Json.Put | src/main/kotlin/com/github/niklaswortmann/knipintellijplugin/lsp/KnipLanguageClient.kt:25-63 | `add` appends a new key and keeps the length when the key exists |
| Json.LookupPut | src/main/kotlin/com/github/niklaswortmann/knipintellijplugin/lsp/KnipLanguageClient.kt:25-63 | after `add`, the key holds the new value and every other key keeps its old one |
| Json.LookupFirst | src/main/kotlin/com/github/niklaswortmann/knipintellijplugin/lsp/KnipLanguageClient.kt:25-68 | a lookup finds the first member with the key |
| Json.Build | src/main/kotlin/com/github/niklaswortmann/knipintellijplugin/lsp/KnipLanguageClient.kt:25-63 | an `apply` block adding distinct keys builds the object with those members in call order |
| LanguageClient.CreateSettings | src/main/kotlin/com/github/niklaswortmann/knipintellijplugin/lsp/KnipLanguageClient.kt:24-69 | the settings are `{knip: ...}` holding exactly the JSON form of the default `KnipWorkspaceConfiguration`, the same values the descriptor answers with |
| LanguageClient.KnipSectionFound | src/main/kotlin/com/github/niklaswortmann/knipintellijplugin/lsp/KnipLanguageClient.kt:66-68 | the single top-level key is `knip`, its value is an object, and looking up `knip` finds the configuration |
| LanguageClient.EditorExportsKeys | src/main/kotlin/com/github/niklaswortmann/knipintellijplugin/lsp/KnipLanguageClient.kt:31-48 | `editor.exports` has the keys `codelens`, `hover`, `quickfix` and `highlight`, in that order |
| LanguageClient.HoverValues | src/main/kotlin/com/github/niklaswortmann/knipintellijplugin/lsp/KnipLanguageClient.kt:35-40 | the hover object carries the configured snippet flag, snippet count and timeout |
| LanguageClient.HighlightValues | src/main/kotlin/com/github/niklaswortmann/knipintellijplugin/lsp/KnipLanguageClient.kt:44-47 | the highlight object carries the two configured dimming flags |
| LanguageClient.GetPathStep | src/main/kotlin/com/github/niklaswortmann/knipintellijplugin/lsp/KnipLanguageClient.kt:25-68 | following a path goes through the child the first key names |
| LanguageClient.EditorLevel | src/main/kotlin/com/github/niklaswortmann/knipintellijplugin/lsp/KnipLanguageClient.kt:30-49 | the configuration object holds the editor object under `editor` |
| LanguageClient.ExportsLevel | src/main/kotlin/com/github/niklaswortmann/knipintellijplugin/lsp/KnipLanguageClient.kt:31-48 | the editor object holds the exports object under `exports` |
| LanguageClient.QuickfixLevel | src/main/kotlin/com/github/niklaswortmann/knipintellijplugin/lsp/KnipLanguageClient.kt:41-43 | the exports object holds the quickfix object under `quickfix` |
| LanguageClient.EnabledLevel | src/main/kotlin/com/github/niklaswortmann/knipintellijplugin/lsp/KnipLanguageClient.kt:42 | the quickfix object holds its flag under `enabled` |
| LanguageClient.QuickfixEnabledPresent | src/main/kotlin/com/github/niklaswortmann/knipintellijplugin/lsp/KnipLanguageClient.kt:30-43 | the path `knip.editor.exports.quickfix.enabled` is present for every configuration, and is `true` in the one sent |
| FileChangeListener.ShouldIgnoreFile | src/main/kotlin/com/github/niklaswortmann/knipintellijplugin/lsp/KnipFileChangeListener.kt:204-207 | models `shouldIgnoreFile`; stated by `IgnoredAnywhere` |
| FileChangeListener.IsWatchedFile | src/main/kotlin/com/github/niklaswortmann/knipintellijplugin/lsp/KnipFileChangeListener.kt:213-228 | models `isWatchedFile`; stated by `WatchedExtension` and `UnwatchedWithoutExtension` |
| FileChangeListener.InScope | src/main/kotlin/com/github/niklaswortmann/knipintellijplugin/lsp/KnipFileChangeListener.kt:133-143 | models the per-event filters: a base path, the path under it, not ignored, and watched; stated by `Translate`, `NoBasePathNoEvents` and `SiblingPrefixInside` |
| FileChangeListener.IgnoredAnywhere | src/main/kotlin/com/github/niklaswortmann/knipintellijplugin/lsp/KnipFileChangeListener.kt:204-207 | a path with an ignored fragment anywhere in it is ignored |
| FileChangeListener.WatchedExtension | src/main/kotlin/com/github/niklaswortmann/knipintellijplugin/lsp/KnipFileChangeListener.kt:213-228 | a file whose extension lower-cases to a watched one is watched |
| FileChangeListener.UnwatchedWithoutExtension | src/main/kotlin/com/github/niklaswortmann/knipintellijplugin/lsp/KnipFileChangeListener.kt:213-228 | a file with no extension and an unlisted name is not watched |
| FileChangeListener.ToFileUri | src/main/kotlin/com/github/niklaswortmann/knipintellijplugin/lsp/KnipFileChangeListener.kt:277-279 | the URI is `file://` followed by the path |
| FileChangeListener.FileUriInjective | src/main/kotlin/com/github/niklaswortmann/knipintellijplugin/lsp/KnipFileChangeListener.kt:277-279 | distinct paths give distinct URIs |
| FileChangeListener.RenamedFrom | src/main/kotlin/com/github/niklaswortmann/knipintellijplugin/lsp/KnipFileChangeListener.kt:155-160 | the old path of a rename is parent, `/`, old name; `null/` without a parent |
| FileChangeListener.Translate | src/main/kotlin/com/github/niklaswortmann/knipintellijplugin/lsp/KnipFileChangeListener.kt:133-170 | an event contributes nothing exactly when it has no file, is out of scope, or is an unreported kind; the last entry is the file's own; a two-entry result is Deleted first, from a move or rename |
| FileChangeListener.FileEventsOf | src/main/kotlin/com/github/niklaswortmann/knipintellijplugin/lsp/KnipFileChangeListener.kt:131-172 | models the batch `after` builds, each event's entries in event order; stated by `FileEventsAppend` and `NoBasePathNoEvents` |
| FileChangeListener.FileEventsAppend | src/main/kotlin/com/github/niklaswortmann/knipintellijplugin/lsp/KnipFileChangeListener.kt:131-172 | the batch of two event lists is the two batches concatenated, in order |
| FileChangeListener.NoBasePathNoEvents | src/main/kotlin/com/github/niklaswortmann/knipintellijplugin/lsp/KnipFileChangeListener.kt:136 | a project without a base path reports nothing |
| FileChangeListener.MoveReportsDeleteThenCreate | src/main/kotlin/com/github/niklaswortmann/knipintellijplugin/lsp/KnipFileChangeListener.kt:149-153 | a move reports Deleted(old) immediately followed by Created(new) |
| FileChangeListener.RenameReportsDeleteThenCreate | src/main/kotlin/com/github/niklaswortmann/knipintellijplugin/lsp/KnipFileChangeListener.kt:155-165 | a rename in scope reports Deleted of the parent path joined with the old name, then Created of the new path |
| FileChangeListener.OtherPropertyUnreported | src/main/kotlin/com/github/niklaswortmann/knipintellijplugin/lsp/KnipFileChangeListener.kt:156-166 | a change of any property other than the name reports nothing, whatever the file and base path |
| FileChangeListener.RenameExample | src/main/kotlin/com/github/niklaswortmann/knipintellijplugin/lsp/KnipFileChangeListener.kt:155-160 | example: renaming `a.ts` to `b.ts` reports the old path `/p/src/a.ts`, or `null/a.ts` without a parent |
| FileChangeListener.SiblingPrefixInside | src/main/kotlin/com/github/niklaswortmann/knipintellijplugin/lsp/KnipFileChangeListener.kt:137 | example: the base-path test is a string prefix, so `/p2/a.ts` counts as inside `/p` |
| FileChangeListener.RunningIndices | src/main/kotlin/com/github/niklaswortmann/knipintellijplugin/lsp/KnipFileChangeListener.kt:186-190 | exactly the Running servers among the first `bound`, in list order |
| FileChangeListener.Reach | src/main/kotlin/com/github/niklaswortmann/knipintellijplugin/lsp/KnipFileChangeListener.kt:185-198 | the server loop stops at the failing server or after the last one |
| FileChangeListener.SendDidChangeWatchedFiles | src/main/kotlin/com/github/niklaswortmann/knipintellijplugin/lsp/KnipFileChangeListener.kt:182-199 | every Running server before the failure gets the notification, in list order |
| FileChangeListener.KnipFileChangeListener.constructor | src/main/kotlin/com/github/niklaswortmann/knipintellijplugin/lsp/KnipFileChangeListener.kt:49-67 | a new listener is not disposed and has no pending saves |
| FileChangeListener.KnipFileChangeListener.DocumentChanged | src/main/kotlin/com/github/niklaswortmann/knipintellijplugin/lsp/KnipFileChangeListener.kt:73-102 | for a tracked file, the document's pending save is cancelled and replaced by one new task; otherwise, or once disposed, nothing changes; the debounce invariant is kept |
| FileChangeListener.KnipFileChangeListener.FireSaveTask | src/main/kotlin/com/github/niklaswortmann/knipintellijplugin/lsp/KnipFileChangeListener.kt:90-121 | a cancelled task does nothing; a scheduled one removes its own entry and asks for a save exactly when nothing is disposed and the document is unsaved |
| FileChangeListener.KnipFileChangeListener.After | src/main/kotlin/com/github/niklaswortmann/knipintellijplugin/lsp/KnipFileChangeListener.kt:127-177 | once disposed, nothing; otherwise the batch is `FileEventsOf` the events; an empty batch is not sent; a non-empty one goes to the Running servers |
| FileChangeListener.KnipFileChangeListener.Dispose | src/main/kotlin/com/github/niklaswortmann/knipintellijplugin/lsp/KnipFileChangeListener.kt:230-233 | the listener is disposed |
| FileChangeListener.OneScheduledSavePerDocument | src/main/kotlin/com/github/niklaswortmann/knipintellijplugin/lsp/KnipFileChangeListener.kt:90-101 | under the debounce invariant no two scheduled saves are for the same document |
| FileChangeListener.TypingBurst | src/main/kotlin/com/github/niklaswortmann/knipintellijplugin/lsp/KnipFileChangeListener.kt:90-101 | a burst of edits leaves exactly one scheduled save for the document, the last one |
| FileChangeListener.ListenerRegistry.constructor | src/main/kotlin/com/github/niklaswortmann/knipintellijplugin/lsp/KnipFileChangeListener.kt:284 | the registry starts empty |
| FileChangeListener.ListenerRegistry.Register | src/main/kotlin/com/github/niklaswortmann/knipintellijplugin/lsp/KnipFileChangeListener.kt:290-295 | one listener per project key: an existing one is returned unchanged, otherwise a new one is stored |
| FileChangeListener.ListenerRegistry.Unregister | src/main/kotlin/com/github/niklaswortmann/knipintellijplugin/lsp/KnipFileChangeListener.kt:300-303 | the project's listener is removed and disposed, its pending saves and scheduled task left as they were |
| Projects.ProjectKey | src/main/kotlin/com/github/niklaswortmann/knipintellijplugin/lsp/KnipServerStartupActivity.kt:30 | the key is the base path, or the project name without one |
| StartupHandler.Launches | src/main/kotlin/com/github/niklaswortmann/knipintellijplugin/lsp/KnipServerStartupActivity.kt:33-36 | models the `putIfAbsent` test; stated by `GuardCycle` and `InitiateStartup` |
| StartupHandler.AfterInitiate | src/main/kotlin/com/github/niklaswortmann/knipintellijplugin/lsp/KnipServerStartupActivity.kt:33 | models `putIfAbsent`; stated by `GuardCycle` |
| StartupHandler.AfterRemove | src/main/kotlin/com/github/niklaswortmann/knipintellijplugin/lsp/KnipServerStartupActivity.kt:41-44 | models `remove` in `finally` and in `clearStartupState`; stated by `GuardCycle` |
| StartupHandler.GuardCycle | src/main/kotlin/com/github/niklaswortmann/knipintellijplugin/lsp/KnipServerStartupActivity.kt:29-47 | a second start-up while one is in progress launches nothing; after removal the next one launches; other keys are independent |
| Servers.FirstRunning | src/main/kotlin/com/github/niklaswortmann/knipintellijplugin/lsp/KnipServerStartupActivity.kt:62-64 | the index of the first Running server, or none exactly when no server is Running |
| Servers.PollForRunningServer | src/main/kotlin/com/github/niklaswortmann/knipintellijplugin/lsp/KnipServerStartupActivity.kt:53-76 | at most 300 polls; it stops at the first poll that sees a Running server; a timeout means no poll saw one |
| StartupHandler.WaitForServerAndStart | src/main/kotlin/com/github/niklaswortmann/knipintellijplugin/lsp/KnipServerStartupActivity.kt:52-77 | the start command goes once, to the first Running server of the first poll that has one; after 300 empty polls nothing is sent |
| StartupHandler.SendKnipStartCommand | src/main/kotlin/com/github/niklaswortmann/knipintellijplugin/lsp/KnipServerStartupActivity.kt:82-92 | a failure is caught: the outcome is Caught exactly when the request throws |
| StartupHandler.KnipServerStartupHandler.constructor | src/main/kotlin/com/github/niklaswortmann/knipintellijplugin/lsp/KnipServerStartupActivity.kt:23 | the guard starts empty |
| StartupHandler.KnipServerStartupHandler.InitiateStartup | src/main/kotlin/com/github/niklaswortmann/knipintellijplugin/lsp/KnipServerStartupActivity.kt:29-36 | a sequence is launched exactly when the key was free, and the key is claimed |
| StartupHandler.KnipServerStartupHandler.RunStartup | src/main/kotlin/com/github/niklaswortmann/knipintellijplugin/lsp/KnipServerStartupActivity.kt:38-46 | the key is released whatever the outcome |
| StartupHandler.KnipServerStartupHandler.ClearStartupState | src/main/kotlin/com/github/niklaswortmann/knipintellijplugin/lsp/KnipServerStartupActivity.kt:98-101 | the project's key is removed |
| StartupHandler.InitiateTwice | src/main/kotlin/com/github/niklaswortmann/knipintellijplugin/lsp/KnipServerStartupActivity.kt:33-36 | two start-ups in a row launch at most one sequence |
| StartupHandler.RestartThenInitiate | src/main/kotlin/com/github/niklaswortmann/knipintellijplugin/actions/RestartKnipServerAction.kt:21 | after `clearStartupState` the next start-up launches |
| ClientFeatures.Finish | src/main/kotlin/com/github/niklaswortmann/knipintellijplugin/lsp/KnipClientFeatures.kt:138-141 | models `finishProgress`; stated by `FinishIdempotent` |
| ClientFeatures.WithMessage | src/main/kotlin/com/github/niklaswortmann/knipintellijplugin/lsp/KnipClientFeatures.kt:129-133 | models `updateProgressMessage`; used by `UpdateProgressMessage` |
| ClientFeatures.StartSession | src/main/kotlin/com/github/niklaswortmann/knipintellijplugin/lsp/KnipClientFeatures.kt:150-186 | models `startKnipSession`, including a failed `initializedServer` whose `thenAccept` block never runs; stated by `StatusTransitions` and `InitFailedKeepsWaiting` |
| ClientFeatures.OnStatus | src/main/kotlin/com/github/niklaswortmann/knipintellijplugin/lsp/KnipClientFeatures.kt:60-79 | models `handleServerStatusChanged`; stated by `StatusTransitions` and `NoWrapperNeverStarts` |
| ClientFeatures.CountDown | src/main/kotlin/com/github/niklaswortmann/knipintellijplugin/lsp/KnipClientFeatures.kt:140 | the latch counts down by one and stops at zero |
| ClientFeatures.FinishIdempotent | src/main/kotlin/com/github/niklaswortmann/knipintellijplugin/lsp/KnipClientFeatures.kt:138-141 | finishing marks the analysis complete and opens the latch; finishing twice is finishing once |
| ClientFeatures.StatusTransitions | src/main/kotlin/com/github/niklaswortmann/knipintellijplugin/lsp/KnipClientFeatures.kt:60-186 | stopping or stopped ends the session and completes the progress; a repeated `started` does nothing; `starting` without a wrapper does nothing; with a wrapper every start outcome except a failed initialisation completes the progress; a failed initialisation leaves the progress as it was; only success starts the session |
| ClientFeatures.InitFailedKeepsWaiting | src/main/kotlin/com/github/niklaswortmann/knipintellijplugin/lsp/KnipClientFeatures.kt:85-186 | when `initializedServer` fails after `starting`, the analysis stays incomplete and the latch stays at 1 until `stopped` finishes the progress |
| ClientFeatures.NoWrapperNeverStarts | src/main/kotlin/com/github/niklaswortmann/knipintellijplugin/lsp/KnipClientFeatures.kt:60-79 | without a wrapper no sequence of status changes starts a session or creates the latch |
| ClientFeatures.LifecycleExample | src/main/kotlin/com/github/niklaswortmann/knipintellijplugin/lsp/KnipClientFeatures.kt:60-79 | starting, started, stopping, stopped of a successful session |
| ClientFeatures.KnipClientFeatures.constructor | src/main/kotlin/com/github/niklaswortmann/knipintellijplugin/lsp/KnipClientFeatures.kt:45-54 | the flags start false, with no latch and no indicator |
| ClientFeatures.KnipClientFeatures.FinishProgress | src/main/kotlin/com/github/niklaswortmann/knipintellijplugin/lsp/KnipClientFeatures.kt:138-141 | the new state is `Finish` of the old one |
| ClientFeatures.KnipClientFeatures.ShowStartupProgress | src/main/kotlin/com/github/niklaswortmann/knipintellijplugin/lsp/KnipClientFeatures.kt:85-91 | without a wrapper nothing changes; otherwise the analysis is reset and a latch of one is created |
| ClientFeatures.KnipClientFeatures.UpdateProgressMessage | src/main/kotlin/com/github/niklaswortmann/knipintellijplugin/lsp/KnipClientFeatures.kt:129-133 | only a shown indicator takes the message |
| ClientFeatures.KnipClientFeatures.StartKnipSession | src/main/kotlin/com/github/niklaswortmann/knipintellijplugin/lsp/KnipClientFeatures.kt:150-186 | the new state is `StartSession` of the old: every outcome except a failed `initializedServer` finishes the progress, a failed one leaves it running, and only success marks the session started |
| ClientFeatures.KnipClientFeatures.HandleServerStatusChanged | src/main/kotlin/com/github/niklaswortmann/knipintellijplugin/lsp/KnipClientFeatures.kt:60-79 | the new state is `OnStatus` of the old state, the status and the start outcome |
| ClientFeatures.KnipClientFeatures.RunProgress | src/main/kotlin/com/github/niklaswortmann/knipintellijplugin/lsp/KnipClientFeatures.kt:98-116 | the wait ends at the first check that sees the analysis complete or the indicator cancelled, and then the indicator is released |
| ClientFeatures.CancelProgress | src/main/kotlin/com/github/niklaswortmann/knipintellijplugin/lsp/KnipClientFeatures.kt:118-121 | cancelling is `finishProgress`: the analysis counts as complete and the latch counts down, releasing the waiter; the session flag and the indicator text are unchanged |
| SupportProvider.IsSupportedFile | src/main/kotlin/com/github/niklaswortmann/knipintellijplugin/lsp/KnipLspServerSupportProvider.kt:178-203 | models `isSupportedFile`; stated by `SupportedIff` |
| SupportProvider.SupportedIff | src/main/kotlin/com/github/niklaswortmann/knipintellijplugin/lsp/KnipLspServerSupportProvider.kt:178-203 | a file is supported exactly when its name is listed or its extension is supported in any letter case |
| SupportProvider.ExtensionCaseInsensitive | src/main/kotlin/com/github/niklaswortmann/knipintellijplugin/lsp/KnipLspServerSupportProvider.kt:180-190 | extensions match case-insensitively |
| SupportProvider.OtherExtensionUnsupported | src/main/kotlin/com/github/niklaswortmann/knipintellijplugin/lsp/KnipLspServerSupportProvider.kt:202 | any other extension of an unlisted name is not supported |
| SupportProvider.SupportedNameExamples | src/main/kotlin/com/github/niklaswortmann/knipintellijplugin/lsp/KnipLspServerSupportProvider.kt:171-199 | the listed names are supported |
| SupportProvider.MixedCaseExtensionExample | src/main/kotlin/com/github/niklaswortmann/knipintellijplugin/lsp/KnipLspServerSupportProvider.kt:180 | `app.Tsx` is supported |
| SupportProvider.TsconfigExample | src/main/kotlin/com/github/niklaswortmann/knipintellijplugin/lsp/KnipLspServerSupportProvider.kt:202 | `tsconfig.json` is not supported |
| SupportProvider.NameCaseExample | src/main/kotlin/com/github/niklaswortmann/knipintellijplugin/lsp/KnipLspServerSupportProvider.kt:183-185 | names match case-sensitively: `Package.json` is not supported |
| SupportProvider.DocumentExample | src/main/kotlin/com/github/niklaswortmann/knipintellijplugin/lsp/KnipLspServerSupportProvider.kt:202 | `readme.md` is not supported |
| SupportProvider.IconFilesAreSupported | src/main/kotlin/com/github/niklaswortmann/knipintellijplugin/lsp/KnipLspServerSupportProvider.kt:178-203 | every file with the Knip icon also starts the server |
| SupportProvider.FileOpened | src/main/kotlin/com/github/niklaswortmann/knipintellijplugin/lsp/KnipLspServerSupportProvider.kt:33-52 | nothing when disabled; otherwise a supported file starts the server and the session flow |
| SupportProvider.NoDeduplication | src/main/kotlin/com/github/niklaswortmann/knipintellijplugin/lsp/KnipLspServerSupportProvider.kt:45-50 | opening n supported files launches the session flow n times |
| SupportProvider.WaitForServerReady | src/main/kotlin/com/github/niklaswortmann/knipintellijplugin/lsp/KnipLspServerSupportProvider.kt:101-125 | returns at the first poll that sees a Running server, or after 300 polls without one |
| SupportProvider.SendKnipStartRequest | src/main/kotlin/com/github/niklaswortmann/knipintellijplugin/lsp/KnipLspServerSupportProvider.kt:131-156 | one request per server whatever its state; a failing server does not stop the others |
| SupportProvider.StartKnipSessionWithProgress | src/main/kotlin/com/github/niklaswortmann/knipintellijplugin/lsp/KnipLspServerSupportProvider.kt:68-95 | the wait, then the start request to every server, even after a timeout |
| Services.IsSupportedFile | src/main/kotlin/com/github/niklaswortmann/knipintellijplugin/lsp/KnipServices.kt:81-106 | models the services copy of `isSupportedFile`; stated by `AgreesWithSupportProvider` |
| Services.IsProjectContext | src/main/kotlin/com/github/niklaswortmann/knipintellijplugin/lsp/KnipServices.kt:117-119 | models `isProjectContext`; stated by `ProjectContextIgnoresProject` |
| Services.IsEnabledInSettings | src/main/kotlin/com/github/niklaswortmann/knipintellijplugin/lsp/KnipServices.kt:124-126 | models `isEnabledInSettings`; stated by `EnabledInSettingsIsEnabled` |
| Services.AgreesWithSupportProvider | src/main/kotlin/com/github/niklaswortmann/knipintellijplugin/lsp/KnipServices.kt:81-106 | the two supported-file predicates agree on every file |
| Services.TsconfigNotSupported | src/main/kotlin/com/github/niklaswortmann/knipintellijplugin/lsp/KnipServices.kt:86-91 | `tsconfig.json` is not supported |
| Services.ProjectContextIgnoresProject | src/main/kotlin/com/github/niklaswortmann/knipintellijplugin/lsp/KnipServices.kt:117-119 | `isProjectContext` ignores the project and equals `isSupportedFile` |
| Services.EnabledInSettingsIsEnabled | src/main/kotlin/com/github/niklaswortmann/knipintellijplugin/lsp/KnipServices.kt:124-126 | `isEnabledInSettings` holds exactly when the service mode is ENABLED |
| Settings.KnipSettings.IsEnabled | src/main/kotlin/com/github/niklaswortmann/knipintellijplugin/settings/KnipSettings.kt:62-64 | models the `enabled` getter; stated by `SetEnabled` and `DefaultsRead` |
| Settings.KnipSettings.constructor | src/main/kotlin/com/github/niklaswortmann/knipintellijplugin/settings/KnipSettings.kt:79-86 | the defaults: ENABLED, the default package key, `--stdio`, no node path, no server path |
| Settings.KnipSettings.SetServiceMode | src/main/kotlin/com/github/niklaswortmann/knipintellijplugin/settings/KnipSettings.kt:32-41 | the mode is stored; the restart pair is requested exactly when it changes |
| Settings.KnipSettings.SetLspServerPackageRef | src/main/kotlin/com/github/niklaswortmann/knipintellijplugin/settings/KnipSettings.kt:43-53 | the reference text is stored; a restart happens exactly when it changes |
| Settings.KnipSettings.ServerArguments | src/main/kotlin/com/github/niklaswortmann/knipintellijplugin/settings/KnipSettings.kt:55-56 | reads `--stdio` when nothing is stored |
| Settings.KnipSettings.SetServerArguments | src/main/kotlin/com/github/niklaswortmann/knipintellijplugin/settings/KnipSettings.kt:57-58 | stored, without a restart |
| Settings.KnipSettings.SetEnabled | src/main/kotlin/com/github/niklaswortmann/knipintellijplugin/settings/KnipSettings.kt:62-64 | reading `enabled` back gives the value set; a restart only when the mode changes |
| Settings.KnipSettings.NodePath | src/main/kotlin/com/github/niklaswortmann/knipintellijplugin/settings/KnipSettings.kt:66-67 | reads `""` when unset |
| Settings.KnipSettings.SetNodePath | src/main/kotlin/com/github/niklaswortmann/knipintellijplugin/settings/KnipSettings.kt:66-68 | stored, without a restart |
| Settings.KnipSettings.LanguageServerPath | src/main/kotlin/com/github/niklaswortmann/knipintellijplugin/settings/KnipSettings.kt:70-71 | reads `""` when unset |
| Settings.KnipSettings.SetLanguageServerPath | src/main/kotlin/com/github/niklaswortmann/knipintellijplugin/settings/KnipSettings.kt:70-72 | stored, without a restart |
| Settings.SetServiceModeTwice | src/main/kotlin/com/github/niklaswortmann/knipintellijplugin/settings/KnipSettings.kt:32-41 | setting the same mode twice restarts at most once |
| Settings.DefaultsRead | src/main/kotlin/com/github/niklaswortmann/knipintellijplugin/settings/KnipSettings.kt:79-86 | fresh settings read as enabled, `--stdio`, and empty paths |
| Detection.HasKnipConfigFile | src/main/kotlin/com/github/niklaswortmann/knipintellijplugin/startup/KnipDetectionActivity.kt:78-82 | models `hasKnipConfigFile`; stated by `ConfigFileNames` |
| Detection.HasKnipInPackageJson | src/main/kotlin/com/github/niklaswortmann/knipintellijplugin/startup/KnipDetectionActivity.kt:87-111 | models `hasKnipInPackageJson`; stated by `PackageDetection`, `MalformedDependenciesHideDevDependencies` and `NoPackageJson` |
| Detection.ConfigFileNames | src/main/kotlin/com/github/niklaswortmann/knipintellijplugin/startup/KnipDetectionActivity.kt:35-82 | a configuration file is detected exactly when one of the five names is a child |
| Detection.HasKnipPackage | src/main/kotlin/com/github/niklaswortmann/knipintellijplugin/startup/KnipDetectionActivity.kt:116-120 | only the key `knip` counts |
| Detection.PackageDetection | src/main/kotlin/com/github/niklaswortmann/knipintellijplugin/startup/KnipDetectionActivity.kt:87-111 | detection reports only Knip that is listed; Knip in `dependencies` is always found; with no malformed section, detection is exactly "listed in either section" |
| Detection.MalformedDependenciesHideDevDependencies | src/main/kotlin/com/github/niklaswortmann/knipintellijplugin/startup/KnipDetectionActivity.kt:95-110 | a non-object `dependencies` hides Knip in `devDependencies` |
| Detection.NoPackageJson | src/main/kotlin/com/github/niklaswortmann/knipintellijplugin/startup/KnipDetectionActivity.kt:87-110 | no `package.json`, or one that does not parse, gives false |
| Detection.IsKnipUsedInProject | src/main/kotlin/com/github/niklaswortmann/knipintellijplugin/startup/KnipDetectionActivity.kt:57-73 | no directory gives false; a configuration file decides first; otherwise the package check decides |
| Detection.ConfigFileDecides | src/main/kotlin/com/github/niklaswortmann/knipintellijplugin/startup/KnipDetectionActivity.kt:61-64 | a configuration file is decisive whatever `package.json` holds |
| Detection.Execute | src/main/kotlin/com/github/niklaswortmann/knipintellijplugin/startup/KnipDetectionActivity.kt:38-52 | a dismissed suggestion skips detection; otherwise the notification is sent exactly when Knip is used |
| Detection.PackageExamples | src/main/kotlin/com/github/niklaswortmann/knipintellijplugin/startup/KnipDetectionActivity.kt:116-120 | `knip` among other keys is found; other names and the empty object are not |
| IconProvider.IsKnipConfigFile | src/main/kotlin/com/github/niklaswortmann/knipintellijplugin/KnipFileIconProvider.kt:42-44 | models `isKnipConfigFile`; stated by `ConfigPatternsAccepted` and `OtherNamesRejected` |
| IconProvider.ConfigPatternsAccepted | src/main/kotlin/com/github/niklaswortmann/knipintellijplugin/KnipFileIconProvider.kt:31-44 | exactly eight names get the icon, each of them listed |
| IconProvider.OtherNamesRejected | src/main/kotlin/com/github/niklaswortmann/knipintellijplugin/KnipFileIconProvider.kt:42-44 | other project files, near misses, other letter cases and the empty name get no icon |
| Versions.IsVersionAtLeast | src/test/kotlin/com/github/niklaswortmann/knipintellijplugin/lsp/KnipLspServerSupportProviderTest.kt:67-147 | models `isVersionAtLeast` as its tests describe it; stated by the order lemmas and the examples below |
| Versions.Reflexive | src/test/kotlin/com/github/niklaswortmann/knipintellijplugin/lsp/KnipLspServerSupportProviderTest.kt:67-72 | every version is at least itself |
| Versions.Total | src/test/kotlin/com/github/niklaswortmann/knipintellijplugin/lsp/KnipLspServerSupportProviderTest.kt:74-111 | any two versions are ordered one way or the other |
| Versions.Transitive | src/test/kotlin/com/github/niklaswortmann/knipintellijplugin/lsp/KnipLspServerSupportProviderTest.kt:74-111 | the order is transitive |
| Versions.TrailingZero | src/test/kotlin/com/github/niklaswortmann/knipintellijplugin/lsp/KnipLspServerSupportProviderTest.kt:113-119 | a missing segment counts as 0 |
| Versions.NonNumericBelow | src/test/kotlin/com/github/niklaswortmann/knipintellijplugin/lsp/KnipLspServerSupportProviderTest.kt:136-140 | a version with only zero or non-numeric segments is below any version with a positive segment |
| Versions.NonNumericSegment | src/test/kotlin/com/github/niklaswortmann/knipintellijplugin/lsp/KnipLspServerSupportProviderTest.kt:142-147 | a segment with a non-digit counts as 0 |
| Versions.ShorterVersionExample | src/test/kotlin/com/github/niklaswortmann/knipintellijplugin/lsp/KnipLspServerSupportProviderTest.kt:115 | example: `1.1` is at least `1.0.0` |
| Versions.MissingPatchExample | src/test/kotlin/com/github/niklaswortmann/knipintellijplugin/lsp/KnipLspServerSupportProviderTest.kt:118 | example: `1.0` is not at least `1.0.1` |
| Versions.EmptyVersionExample | src/test/kotlin/com/github/niklaswortmann/knipintellijplugin/lsp/KnipLspServerSupportProviderTest.kt:139 | example: the empty version is not at least `1.0.0` |
| Versions.NumericOrderExample | src/test/kotlin/com/github/niklaswortmann/knipintellijplugin/lsp/KnipLspServerSupportProviderTest.kt:78 | example: segments compare as numbers, `10.0.0` is at least `9.9.9` |
| Text.IsWhitespace | src/main/kotlin/com/github/niklaswortmann/knipintellijplugin/lsp/KnipStreamConnectionProvider.kt:291 | the characters `isBlank` counts as blank |
| Text.IsBlank | src/main/kotlin/com/github/niklaswortmann/knipintellijplugin/lsp/KnipStreamConnectionProvider.kt:291 | models `isBlank`, the negation of the `isNotBlank` tests at lines 291, 299 and 312; stated by `TokensNotBlank` and `TokensOfBlank` |
| Text.Lower | src/main/kotlin/com/github/niklaswortmann/knipintellijplugin/lsp/KnipStreamConnectionProvider.kt:21 | models `lowercase()` on `A`-`Z`: same length, each letter mapped by `LowerChar` |
| Text.Split | src/main/kotlin/com/github/niklaswortmann/knipintellijplugin/lsp/KnipStreamConnectionProvider.kt:89-91 | models `split` on one character, keeping empty pieces; at least one piece, and `Join` gives the input back (`JoinSplit`) |
| Text.JoinSplit | src/main/kotlin/com/github/niklaswortmann/knipintellijplugin/lsp/KnipStreamConnectionProvider.kt:91 | joining the pieces of a split with the separator gives back the string |
| Text.Less | src/main/kotlin/com/github/niklaswortmann/knipintellijplugin/lsp/KnipStreamConnectionProvider.kt:218 | models `compareTo < 0` in code-unit order, the order `sortedDescending` uses on Unix; stated by `LessIrreflexive`, `LessTransitive` and `LessTotal` |
| Text.LessIrreflexive | src/main/kotlin/com/github/niklaswortmann/knipintellijplugin/lsp/KnipStreamConnectionProvider.kt:218 | no name is below itself |
| Text.LessTransitive | src/main/kotlin/com/github/niklaswortmann/knipintellijplugin/lsp/KnipStreamConnectionProvider.kt:218 | the order is transitive |
| Text.LessTotal | src/main/kotlin/com/github/niklaswortmann/knipintellijplugin/lsp/KnipStreamConnectionProvider.kt:218 | of two distinct names one is below the other |
| VirtualFiles.Extension | src/main/kotlin/com/github/niklaswortmann/knipintellijplugin/lsp/KnipLspServerSupportProvider.kt:180 | the extension is the text after the last `.`, and is absent exactly when the name has no `.` |
| VirtualFiles.ExtensionOf | src/main/kotlin/com/github/niklaswortmann/knipintellijplugin/lsp/KnipLspServerSupportProvider.kt:180 | the extension of `base.ext` is `ext` |

## Left out

- File system, environment and OS: `File.exists`, `canExecute`, `listFiles`, `System.getenv`
  and `os.name` are fields of `Host`. `File.absolutePath` normalisation is not modelled:
  paths are joined by string concatenation with the host separator.
- Process spawning, LSP transport, JSON-RPC and `LspServerManager` are left out. The argv is a
  `seq<string>`, server lists are input sequences of states, and a request's success or
  failure is an input.
- Timing and concurrency are left out: coroutines, `delay`, `Alarm`, `invokeLater`,
  `CountDownLatch` waits, `CompletableFuture` callbacks and `ConcurrentHashMap` atomicity.
  - Polls are a bounded loop over observations.
  - Debouncing is a task table plus an explicit "fire" step.
  - Futures are completion flags.
  - The asynchronous `thenAccept` chain of `startKnipSession` is one step with its outcome as
    an input.
- `extractEndpoint` is JVM reflection over proxies, so whether an endpoint is found is an input.
- Gson parsing of `package.json` is abstracted. What it yields is either nothing or the
  root's members, each an object's key set or "not an object".
- `KnipNodeResolver` is not part of this model. `createCommandLine` takes its answers as
  inputs and records whether it was asked.
- `KnipLspServerDescriptor.COMMAND_START` is not part of this model; the start command is
  opaque.
- `BaseState` string normalisation of stored settings is not modelled. A stored value is kept
  as given, and a stored null is `None`.
- `Text.Lower` folds only `A`-`Z`. Unicode case mapping and UTF-16 are not modelled.
- Exceptions are modelled only for the error paths the core catches:
  - a non-object dependency section in detection;
  - a throwing start request;
  - a throwing server notification.
  The caught failures of the node and server probes (a `SecurityException` in the `PATH` loop, an
  error in a common path or in the project `node_modules` check) are covered by `Host`: a probe
  that would throw reads as a missing file, and the search moves on. Logging is left out.
- Notification UI, the dismiss action and icon loading are left out; the dismissal flag is an
  input to `Detection.Execute`.
- The detection tests expect `@knip/knip` to be detected. The source lists only `knip`, and
  the model follows the source (`Detection.PackageExamples`).
- The class comment of the detection activity names three configuration files. The code lists
  five, and the model follows the code.
- ClientFeatures.FinishIdempotent: assumes the latch count is at most 1, which
  `showStartupProgress` guarantees because it only ever creates `CountDownLatch(1)`.
- ClientFeatures.KnipClientFeatures.RunProgress: the observations are inputs. Interruption of
  the wait is not modelled.
- Descriptor.ModuleGraphFutures: a future is only its completion flag. Callers holding an old
  future after a reset are not modelled.
- ConnectionProvider.SortedDescending: orders directory names by code units. That is
  `File.compareTo` on Unix hosts. On Windows, `File.compareTo` compares paths ignoring case, and
  the stable sort keeps listing order for names equal up to case; the model uses the code-unit
  order there too. So `V2` sorts below `v1` in the model and above it in the plugin.
- ConnectionProvider.RunProbe: on Windows, a version probe (nvm, fnm or asdf) returns the
  candidate of the greatest version directory by code units, not case-insensitively, for the
  reason given for `SortedDescending`. The nvm branch of the node search is unaffected: only the
  Unix common paths hold the nvm path.
- ConnectionProvider.ServerSearch: inherits that Windows ordering gap through its version
  probes. On Unix hosts it is the plugin's search; on Windows it can differ only when the
  version directory names mix upper- and lower-case letters.
- LanguageClient.CreateSettings: a method rather than a function, because each `apply` block
  fills a fresh object step by step. Its result is stated as a value and used by the lemmas.
