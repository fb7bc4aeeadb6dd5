/**
 * `KnipFileChangeListener`: turns the IDE's file-system events into
 * `workspace/didChangeWatchedFiles` notifications for the running Knip servers, and debounces
 * editor changes into one save per document after typing pauses. The companion object keeps
 * one listener per project.
 */
module FileChangeListener {
  import opened Wrappers
  import Text
  import VirtualFiles
  import Servers
  import opened Projects

  /** Path fragments whose files are never reported. */
  const IGNORED_PATHS: set<string> :=
    {"/node_modules/", "/.git/", "/dist/", "/build/", "/.idea/", "/coverage/", "/.next/", "/.nuxt/", "/out/"}

  /** Extensions reported, compared with the lower-cased extension. */
  const WATCHED_EXTENSIONS: set<string> := {"js", "jsx", "ts", "tsx", "mjs", "cjs", "mts", "cts", "json"}

  /** File names reported whatever their extension. */
  const WATCHED_FILE_NAMES: set<string> :=
    {"package.json", "tsconfig.json", "jsconfig.json", "knip.json", "knip.jsonc", "knip.ts",
     "knip.config.ts", "knip.config.js"}

  /** `VirtualFile.PROP_NAME`. */
  const PROP_NAME: string := "name"

  /** The debounce delay of editor changes, in milliseconds. */
  const DEBOUNCE_DELAY_MS: nat := 1000

  /** `shouldIgnoreFile`: the path contains one of the ignored fragments. */
  predicate ShouldIgnoreFile(path: string) {
    exists p :: p in IGNORED_PATHS && Text.Contains(path, p)
  }

  /** Any path with an ignored fragment in it is ignored, wherever the fragment is. */
  lemma IgnoredAnywhere(before: string, fragment: string, after: string)
    requires fragment in IGNORED_PATHS
    ensures ShouldIgnoreFile(before + fragment + after)
  {
    Text.ContainsInfix(before, fragment, after);
  }

  /** `isWatchedFile`: a watched extension in any letter case, or a watched file name. */
  predicate IsWatchedFile(file: VirtualFiles.VFile) {
    var ext := VirtualFiles.Extension(file.name);
    (ext.Some? && Text.Lower(ext.value) in WATCHED_EXTENSIONS) || file.name in WATCHED_FILE_NAMES
  }

  /** `base.ext` is watched when `ext` lower-cases to a watched extension. */
  lemma WatchedExtension(path: string, base: string, ext: string, parentPath: Option<string>)
    requires '.' !in ext && Text.Lower(ext) in WATCHED_EXTENSIONS
    ensures IsWatchedFile(VirtualFiles.VFile(path, base + "." + ext, parentPath))
  {
    VirtualFiles.ExtensionOf(base, ext);
  }

  /** A name with no '.' and not in the name list is not watched. */
  lemma UnwatchedWithoutExtension(file: VirtualFiles.VFile)
    requires '.' !in file.name && file.name !in WATCHED_FILE_NAMES
    ensures !IsWatchedFile(file)
  {
  }

  /** `String.toFileUri()`: the path after `file://`. */
  function ToFileUri(path: string): (uri: string)
    ensures |uri| == |path| + 7 && uri[..7] == "file://" && uri[7..] == path
  {
    "file://" + path
  }

  /** The file URI gives back its path: distinct paths give distinct URIs. */
  lemma FileUriInjective(p: string, q: string)
    requires ToFileUri(p) == ToFileUri(q)
    ensures p == q
  {
    assert p == ToFileUri(p)[7..];
  }

  /** A file the listener reports on: inside the project, not ignored, and watched. */
  predicate InScope(file: VirtualFiles.VFile, basePath: Option<string>) {
    basePath.Some? && Text.StartsWith(file.path, basePath.value)
    && !ShouldIgnoreFile(file.path) && IsWatchedFile(file)
  }

  /** The kinds of `VFileEvent` the listener tells apart. */
  datatype EventKind =
    | Create
    | Delete
    | ContentChange
    | Move(oldPath: string)
    | Copy
    /** `oldValue` as `toString` renders it. */
    | PropertyChange(propertyName: string, oldValue: string)
    | OtherEvent

  /** A `VFileEvent`; `file` is `None` when `event.file` is null. */
  datatype VfsEvent = VfsEvent(file: Option<VirtualFiles.VFile>, kind: EventKind)

  /** `FileChangeType` of LSP. */
  datatype FileChangeType = Created | Changed | Deleted

  /** `FileEvent(uri, type)` of LSP. */
  datatype FileEvent = FileEvent(uri: string, changeType: FileChangeType)

  /**
   * The old path of a renamed file: the parent's path, `/` and the old name. Kotlin renders a
   * missing parent as `null`.
   */
  function RenamedFrom(file: VirtualFiles.VFile, oldName: string): (oldPath: string)
    ensures file.parentPath.Some? ==> oldPath == file.parentPath.value + "/" + oldName
    ensures file.parentPath.None? ==> oldPath == "null/" + oldName
  {
    file.parentPath.GetOr("null") + "/" + oldName
  }

  /** The change type an event kind reports for the file itself. */
  function ChangeTypeOf(kind: EventKind): FileChangeType {
    match kind
    case ContentChange => Changed
    case Delete => Deleted
    case _ => Created
  }

  /** The kinds that report nothing: a property other than the name, or any other event. */
  predicate Unreported(kind: EventKind) {
    kind.OtherEvent? || (kind.PropertyChange? && kind.propertyName != PROP_NAME)
  }

  /**
   * What one VFS event adds to the batch. A move and a rename report the old path as Deleted
   * before the new path as Created; only the new file passes the filters.
   */
  function Translate(e: VfsEvent, basePath: Option<string>): (r: seq<FileEvent>)
    ensures r == [] <==> e.file.None? || !InScope(e.file.value, basePath) || Unreported(e.kind)
    ensures r != [] ==> r[|r| - 1] == FileEvent(ToFileUri(e.file.value.path), ChangeTypeOf(e.kind))
    ensures |r| == 2 ==> r[0].changeType == Deleted && (e.kind.Move? || e.kind.PropertyChange?)
    ensures |r| <= 2
  {
    match e.file
    case None => []
    case Some(file) =>
      if !InScope(file, basePath) then []
      else
        var uri := ToFileUri(file.path);
        match e.kind
        case Create => [FileEvent(uri, Created)]
        case Delete => [FileEvent(uri, Deleted)]
        case ContentChange => [FileEvent(uri, Changed)]
        case Move(oldPath) => [FileEvent(ToFileUri(oldPath), Deleted), FileEvent(uri, Created)]
        case Copy => [FileEvent(uri, Created)]
        case PropertyChange(name, oldValue) =>
          if name == PROP_NAME then [FileEvent(ToFileUri(RenamedFrom(file, oldValue)), Deleted), FileEvent(uri, Created)]
          else []
        case OtherEvent => []
  }

  /** The batch a list of VFS events produces: each event's contribution, in event order. */
  function FileEventsOf(events: seq<VfsEvent>, basePath: Option<string>): seq<FileEvent> {
    if events == [] then []
    else FileEventsOf(events[..|events| - 1], basePath) + Translate(events[|events| - 1], basePath)
  }

  /** Batches compose: the events of two lists are the events of the first, then those of the second. */
  lemma {:induction false} FileEventsAppend(a: seq<VfsEvent>, b: seq<VfsEvent>, basePath: Option<string>)
    ensures FileEventsOf(a + b, basePath) == FileEventsOf(a, basePath) + FileEventsOf(b, basePath)
    decreases |b|
  {
    if b == [] {
      assert a + b == a;
    } else {
      var b' := b[..|b| - 1];
      assert (a + b)[..|a + b| - 1] == a + b';
      assert (a + b)[|a + b| - 1] == b[|b| - 1];
      FileEventsAppend(a, b', basePath);
    }
  }

  /** Nothing is reported for a project without a base path. */
  lemma {:induction false} NoBasePathNoEvents(events: seq<VfsEvent>)
    ensures FileEventsOf(events, None) == []
    decreases |events|
  {
    if events != [] {
      NoBasePathNoEvents(events[..|events| - 1]);
    }
  }

  /** A move inside the project reports the old path Deleted, then the new one Created. */
  lemma MoveReportsDeleteThenCreate(file: VirtualFiles.VFile, oldPath: string, basePath: Option<string>)
    requires InScope(file, basePath)
    ensures Translate(VfsEvent(Some(file), Move(oldPath)), basePath)
         == [FileEvent(ToFileUri(oldPath), Deleted), FileEvent(ToFileUri(file.path), Created)]
  {
  }

  /**
   * A rename inside the project reports the old path, the parent's path joined with the old
   * name, Deleted, then the new one Created.
   */
  lemma RenameReportsDeleteThenCreate(file: VirtualFiles.VFile, oldName: string, basePath: Option<string>)
    requires InScope(file, basePath)
    ensures Translate(VfsEvent(Some(file), PropertyChange(PROP_NAME, oldName)), basePath)
         == [FileEvent(ToFileUri(RenamedFrom(file, oldName)), Deleted), FileEvent(ToFileUri(file.path), Created)]
  {
    var kind := PropertyChange(PROP_NAME, oldName);
    assert kind.propertyName == PROP_NAME;
    var oldPath := RenamedFrom(file, oldName);
    assert Translate(VfsEvent(Some(file), kind), basePath)
        == [FileEvent(ToFileUri(oldPath), Deleted), FileEvent(ToFileUri(file.path), Created)];
  }

  /** A change of any property other than the name reports nothing. */
  lemma OtherPropertyUnreported(file: VirtualFiles.VFile, name: string, oldValue: string, basePath: Option<string>)
    requires name != PROP_NAME
    ensures Translate(VfsEvent(Some(file), PropertyChange(name, oldValue)), basePath) == []
  {
  }

  /** Example: renaming `a.ts` to `b.ts` under `/p/src`. */
  lemma RenameExample()
    ensures RenamedFrom(VirtualFiles.VFile("/p/src/b.ts", "b.ts", Some("/p/src")), "a.ts") == "/p/src/a.ts"
    ensures RenamedFrom(VirtualFiles.VFile("/b.ts", "b.ts", None), "a.ts") == "null/a.ts"
  {
  }

  /**
   * Example: the base-path test is a plain string prefix: a sibling directory whose name extends the
   * project's, such as `/p2` for `/p`, counts as inside the project.
   */
  lemma SiblingPrefixInside()
    ensures Text.StartsWith("/p2/a.ts", "/p")
  {
  }

  /** The indices of the Running servers among the first `bound`, in list order. */
  function RunningIndices(servers: seq<Servers.ServerState>, bound: nat): (r: seq<nat>)
    requires bound <= |servers|
    ensures forall k: nat :: k in r <==> k < bound && servers[k] == Servers.Running
    ensures forall i, j :: 0 <= i < j < |r| ==> r[i] < r[j]
    ensures forall i :: 0 <= i < |r| ==> r[i] < bound
  {
    if bound == 0 then []
    else RunningIndices(servers, bound - 1) + (if servers[bound - 1] == Servers.Running then [bound - 1] else [])
  }

  /** Where the loop over the servers stops: at the failing server, or after the last one. */
  function Reach(servers: seq<Servers.ServerState>, failAt: Option<nat>): (n: nat)
    ensures n <= |servers|
  {
    if failAt.Some? && failAt.value < |servers| then failAt.value else |servers|
  }

  /**
   * `sendDidChangeWatchedFilesNotification`: each Running server gets the batch, in list order;
   * an exception at server `failAt` is logged and ends the loop.
   */
  method SendDidChangeWatchedFiles(servers: seq<Servers.ServerState>, failAt: Option<nat>) returns (notified: seq<nat>)
    ensures notified == RunningIndices(servers, Reach(servers, failAt))
  {
    notified := [];
    var k := 0;
    while k < |servers|
      invariant k <= Reach(servers, failAt)
      invariant notified == RunningIndices(servers, k)
    {
      if failAt == Some(k) {
        return;
      }
      if servers[k] == Servers.Running {
        notified := notified + [k];
      }
      k := k + 1;
    }
  }

  /** The identity of an open `Document`. */
  type DocumentId = nat

  /** A save the debounce task asks for: the document, which the IDE then writes to disk. */
  datatype SaveRequest = SaveRequest(document: DocumentId)

  class KnipFileChangeListener {
    /** `project.basePath`. */
    const projectBasePath: Option<string>
    var isDisposed: bool
    /** `pendingDocuments`: the save task scheduled for each document. */
    var pendingDocuments: map<DocumentId, nat>
    /** The document each save task was created for. */
    var taskDocuments: map<nat, DocumentId>
    /** The save tasks the alarm still holds. */
    var scheduled: set<nat>
    /** The identity the next save task gets. */
    var nextTask: nat

    /**
     * The debounce invariant: every pending document has exactly one scheduled task, made for
     * it, and every scheduled task is the pending task of its document.
     */
    predicate Valid()
      reads this
    {
      && (forall d :: d in pendingDocuments ==>
            pendingDocuments[d] in scheduled && pendingDocuments[d] in taskDocuments
            && taskDocuments[pendingDocuments[d]] == d)
      && (forall t :: t in scheduled ==>
            t in taskDocuments && taskDocuments[t] in pendingDocuments && pendingDocuments[taskDocuments[t]] == t)
      && (forall t :: t in taskDocuments ==> t < nextTask)
    }

    constructor(basePath: Option<string>)
      ensures Valid()
      ensures projectBasePath == basePath && !isDisposed
      ensures pendingDocuments == map[] && scheduled == {}
    {
      projectBasePath := basePath;
      isDisposed := false;
      pendingDocuments := map[];
      taskDocuments := map[];
      scheduled := {};
      nextTask := 0;
    }

    /** The file of an edited document is one the listener watches. */
    predicate Tracks(file: Option<VirtualFiles.VFile>) {
      file.Some? && InScope(file.value, projectBasePath)
    }

    /**
     * `documentChanged`: for a watched file of the project, cancel the document's pending save
     * and schedule a new one; otherwise, or once disposed, nothing changes.
     */
    method DocumentChanged(document: DocumentId, file: Option<VirtualFiles.VFile>)
      requires Valid()
      modifies this`pendingDocuments, this`taskDocuments, this`scheduled, this`nextTask
      ensures Valid()
      ensures old(isDisposed) || !Tracks(file) ==>
        && pendingDocuments == old(pendingDocuments) && scheduled == old(scheduled)
        && taskDocuments == old(taskDocuments) && nextTask == old(nextTask)
      ensures !old(isDisposed) && Tracks(file) ==>
        && pendingDocuments == old(pendingDocuments)[document := old(nextTask)]
        && scheduled == (if document in old(pendingDocuments) then old(scheduled) - {old(pendingDocuments)[document]}
                         else old(scheduled)) + {old(nextTask)}
        && taskDocuments == old(taskDocuments)[old(nextTask) := document]
        && nextTask == old(nextTask) + 1
    {
      if isDisposed || !Tracks(file) {
        return;
      }
      if document in pendingDocuments {
        scheduled := scheduled - {pendingDocuments[document]};
      }
      var saveTask := nextTask;
      nextTask := nextTask + 1;
      taskDocuments := taskDocuments[saveTask := document];
      pendingDocuments := pendingDocuments[document := saveTask];
      scheduled := scheduled + {saveTask};
    }

    /**
     * The alarm runs save task `task`. A cancelled task does not run. A scheduled one asks for a
     * save when neither the listener nor the project is disposed and the document is still
     * unsaved, and then forgets its document.
     */
    method FireSaveTask(task: nat, projectDisposed: bool, unsaved: bool) returns (save: Option<SaveRequest>)
      requires Valid()
      modifies this`pendingDocuments, this`scheduled
      ensures Valid()
      ensures task !in old(scheduled) ==> save.None? && pendingDocuments == old(pendingDocuments) && scheduled == old(scheduled)
      ensures task in old(scheduled) ==>
        && scheduled == old(scheduled) - {task}
        && pendingDocuments == old(pendingDocuments) - {taskDocuments[task]}
        && (save.Some? <==> !isDisposed && !projectDisposed && unsaved)
        && (save.Some? ==> save.value.document == taskDocuments[task])
    {
      save := None;
      if task !in scheduled {
        return;
      }
      scheduled := scheduled - {task};
      var document := taskDocuments[task];
      if !isDisposed && !projectDisposed && unsaved {
        save := Some(SaveRequest(document));
      }
      pendingDocuments := pendingDocuments - {document};
    }

    /**
     * `after`: the batch the events produce, in event order; once disposed nothing. A non-empty
     * batch goes to the servers `notified`; an empty one is not sent.
     */
    method After(events: seq<VfsEvent>, servers: seq<Servers.ServerState>, failAt: Option<nat>)
      returns (fileEvents: seq<FileEvent>, notified: seq<nat>)
      ensures isDisposed ==> fileEvents == [] && notified == []
      ensures !isDisposed ==> fileEvents == FileEventsOf(events, projectBasePath)
      ensures fileEvents == [] ==> notified == []
      ensures fileEvents != [] ==> notified == RunningIndices(servers, Reach(servers, failAt))
    {
      fileEvents := [];
      notified := [];
      if isDisposed {
        return;
      }
      for k := 0 to |events|
        invariant fileEvents == FileEventsOf(events[..k], projectBasePath)
      {
        assert events[..k + 1][..k] == events[..k];
        var event := events[k];
        if event.file.None? {
          continue;
        }
        var file := event.file.value;
        if projectBasePath.None? {
          continue;
        }
        if !Text.StartsWith(file.path, projectBasePath.value) {
          continue;
        }
        if ShouldIgnoreFile(file.path) {
          continue;
        }
        if !IsWatchedFile(file) {
          continue;
        }
        var changeType: FileChangeType;
        match event.kind {
          case Create => changeType := Created;
          case Delete => changeType := Deleted;
          case ContentChange => changeType := Changed;
          case Move(oldPath) =>
            fileEvents := fileEvents + [FileEvent(ToFileUri(oldPath), Deleted)];
            changeType := Created;
          case Copy => changeType := Created;
          case PropertyChange(name, oldValue) =>
            if name == PROP_NAME {
              fileEvents := fileEvents + [FileEvent(ToFileUri(RenamedFrom(file, oldValue)), Deleted)];
              changeType := Created;
            } else {
              continue;
            }
          case OtherEvent => continue;
        }
        fileEvents := fileEvents + [FileEvent(ToFileUri(file.path), changeType)];
      }
      assert events[..|events|] == events;
      if fileEvents != [] {
        notified := SendDidChangeWatchedFiles(servers, failAt);
      }
    }

    /** `dispose`. */
    method Dispose()
      modifies this`isDisposed
      ensures isDisposed
    {
      isDisposed := true;
    }
  }

  /** Under the debounce invariant no two scheduled saves are for the same document. */
  lemma OneScheduledSavePerDocument(l: KnipFileChangeListener, t: nat, t': nat)
    requires l.Valid()
    requires t in l.scheduled && t' in l.scheduled && l.taskDocuments[t] == l.taskDocuments[t']
    ensures t == t'
  {
  }

  /**
   * A burst of edits to one document leaves exactly one scheduled save for it, the one made by
   * the last edit; the cancelled tasks no longer run.
   */
  method TypingBurst(l: KnipFileChangeListener, document: DocumentId, file: Option<VirtualFiles.VFile>, edits: nat)
    requires l.Valid() && !l.isDisposed && l.Tracks(file) && edits >= 1
    modifies l
    ensures l.Valid()
    ensures document in l.pendingDocuments && l.pendingDocuments[document] == l.nextTask - 1
    ensures forall t :: t in l.scheduled && l.taskDocuments[t] == document ==> t == l.nextTask - 1
  {
    var k := 0;
    while k < edits
      invariant l.Valid() && !l.isDisposed
      invariant k >= 1 ==> document in l.pendingDocuments && l.pendingDocuments[document] == l.nextTask - 1
    {
      l.DocumentChanged(document, file);
      k := k + 1;
    }
  }

  /** The companion object's `activeListeners`, keyed by base path or, without one, project name. */
  class ListenerRegistry {
    var activeListeners: map<string, KnipFileChangeListener>

    constructor()
      ensures activeListeners == map[]
    {
      activeListeners := map[];
    }

    /** `register`: `getOrPut` a listener under the project's key; one listener per project. */
    method Register(basePath: Option<string>, projectName: string) returns (listener: KnipFileChangeListener)
      modifies this
      ensures var key := ProjectKey(basePath, projectName);
        && key in activeListeners && listener == activeListeners[key]
        && (key in old(activeListeners) ==> listener == old(activeListeners)[key] && activeListeners == old(activeListeners))
        && (key !in old(activeListeners) ==>
              fresh(listener) && listener.Valid() && !listener.isDisposed && listener.projectBasePath == basePath
              && activeListeners == old(activeListeners)[key := listener])
    {
      var key := ProjectKey(basePath, projectName);
      if key in activeListeners {
        listener := activeListeners[key];
      } else {
        listener := new KnipFileChangeListener(basePath);
        activeListeners := activeListeners[key := listener];
      }
    }

    /** `unregister`: remove the project's listener and dispose it. */
    method Unregister(basePath: Option<string>, projectName: string)
      modifies this, if ProjectKey(basePath, projectName) in activeListeners
                     then {activeListeners[ProjectKey(basePath, projectName)]} else {}
      ensures activeListeners == old(activeListeners) - {ProjectKey(basePath, projectName)}
      ensures ProjectKey(basePath, projectName) in old(activeListeners) ==>
        && old(activeListeners)[ProjectKey(basePath, projectName)].isDisposed
        && old(activeListeners)[ProjectKey(basePath, projectName)].pendingDocuments == old(activeListeners[ProjectKey(basePath, projectName)].pendingDocuments)
        && old(activeListeners)[ProjectKey(basePath, projectName)].taskDocuments == old(activeListeners[ProjectKey(basePath, projectName)].taskDocuments)
        && old(activeListeners)[ProjectKey(basePath, projectName)].scheduled == old(activeListeners[ProjectKey(basePath, projectName)].scheduled)
        && old(activeListeners)[ProjectKey(basePath, projectName)].nextTask == old(activeListeners[ProjectKey(basePath, projectName)].nextTask)
    {
      var key := ProjectKey(basePath, projectName);
      if key in activeListeners {
        var listener := activeListeners[key];
        activeListeners := activeListeners - {key};
        listener.Dispose();
      }
    }
  }
}
