/**
 * `KnipLspServerSupportProvider`: which files start the Knip server, what opening a file
 * triggers, and the startup flow it launches (wait for a Running server, then send `knip.start`
 * to every server).
 */
module SupportProvider {
  import opened Wrappers
  import Text
  import VirtualFiles
  import IconProvider
  import Servers

  /** `SUPPORTED_EXTENSIONS`, compared with the lower-cased extension. */
  const SUPPORTED_EXTENSIONS: set<string> := {"js", "jsx", "ts", "tsx", "mjs", "cjs", "mts", "cts"}

  /** `SUPPORTED_FILE_NAMES`, compared exactly. */
  const SUPPORTED_FILE_NAMES: set<string> := {"package.json", "knip.json", "knip.jsonc"}

  /** The Knip configuration names checked one by one after the extension check. */
  const KNIP_CONFIG_NAMES: set<string> :=
    {"knip.ts", "knip.config.ts", "knip.config.js", "knip.config.mjs", "knip.config.cjs"}

  /** `isSupportedFile(file)`, on the file's name. */
  predicate IsSupportedFile(fileName: string) {
    if fileName in SUPPORTED_FILE_NAMES then true
    else
      var ext := VirtualFiles.Extension(fileName);
      if ext.Some? && Text.Lower(ext.value) in SUPPORTED_EXTENSIONS then true
      else fileName in KNIP_CONFIG_NAMES
  }

  /** `name` is `base.ext` where `ext` is a supported extension in some letter case. */
  ghost predicate HasSupportedExtension(name: string) {
    exists base, ext :: name == base + "." + ext && '.' !in ext && Text.Lower(ext) in SUPPORTED_EXTENSIONS
  }

  /**
   * A file is supported exactly when its name is one of the listed names or its last
   * dot-separated part is a supported extension, whatever its letter case.
   */
  lemma SupportedIff(name: string)
    ensures IsSupportedFile(name) <==>
      name in SUPPORTED_FILE_NAMES || name in KNIP_CONFIG_NAMES || HasSupportedExtension(name)
  {
    var ext := VirtualFiles.Extension(name);
    if ext.Some? && Text.Lower(ext.value) in SUPPORTED_EXTENSIONS {
      var b :| name == b + "." + ext.value;
      assert HasSupportedExtension(name);
    }
    if HasSupportedExtension(name) {
      var base, e :| name == base + "." + e && '.' !in e && Text.Lower(e) in SUPPORTED_EXTENSIONS;
      VirtualFiles.ExtensionOf(base, e);
    }
  }

  /** Extensions are compared case-insensitively: `app.JS`, `app.TS`, `app.Tsx` are supported. */
  lemma ExtensionCaseInsensitive(base: string, ext: string)
    requires '.' !in ext && Text.Lower(ext) in SUPPORTED_EXTENSIONS
    ensures IsSupportedFile(base + "." + ext)
  {
    VirtualFiles.ExtensionOf(base, ext);
  }

  /** `base.ext` is not supported when `ext`, lower-cased, is not a supported extension. */
  lemma OtherExtensionUnsupported(name: string, base: string, ext: string)
    requires name == base + "." + ext && '.' !in ext && Text.Lower(ext) !in SUPPORTED_EXTENSIONS
    requires name !in SUPPORTED_FILE_NAMES && name !in KNIP_CONFIG_NAMES
    ensures !IsSupportedFile(name)
  {
    VirtualFiles.ExtensionOf(base, ext);
  }

  /** The listed configuration and manifest names are supported. */
  lemma SupportedNameExamples(name: string)
    requires name in SUPPORTED_FILE_NAMES + KNIP_CONFIG_NAMES
    ensures IsSupportedFile(name)
  {
  }

  /** A mixed-case extension of a supported kind is supported: `app.Tsx`. */
  lemma MixedCaseExtensionExample()
    ensures IsSupportedFile("app.Tsx")
  {
    assert VirtualFiles.Extension("app.Tsx") == Some("Tsx");
    assert Text.Lower("Tsx") == "tsx";
  }

  /** A TypeScript project file other than the listed names is not supported: `tsconfig.json`. */
  lemma TsconfigExample()
    ensures !IsSupportedFile("tsconfig.json")
  {
    Text.LowerIs("json", "json");
    OtherExtensionUnsupported("tsconfig.json", "tsconfig", "json");
  }

  /** Names are compared case-sensitively: `Package.json` is not supported. */
  lemma NameCaseExample()
    ensures !IsSupportedFile("Package.json")
  {
    Text.LowerIs("json", "json");
    OtherExtensionUnsupported("Package.json", "Package", "json");
  }

  /** A document is not supported: `readme.md`. */
  lemma DocumentExample()
    ensures !IsSupportedFile("readme.md")
  {
    Text.LowerIs("md", "md");
    OtherExtensionUnsupported("readme.md", "readme", "md");
  }

  /** Every file that gets the Knip icon also starts the Knip server. */
  lemma IconFilesAreSupported(name: string)
    requires IconProvider.IsKnipConfigFile(name)
    ensures IsSupportedFile(name)
  {
    if name == "knip.js" {
      Text.LowerIs("js", "js");
      ExtensionCaseInsensitive("knip", "js");
    }
  }

  /** What `fileOpened` asks the IDE to do. */
  datatype Action = EnsureServerStarted | StartSessionWithProgress

  /**
   * `fileOpened`: nothing when Knip is disabled in the settings; otherwise, for a supported
   * file, start the server and launch the session flow. Every such open launches the flow
   * again: there is no de-duplication here.
   */
  function FileOpened(enabled: bool, fileName: string): (actions: seq<Action>)
    ensures !enabled ==> actions == []
    ensures enabled && IsSupportedFile(fileName) ==> actions == [EnsureServerStarted, StartSessionWithProgress]
    ensures enabled && !IsSupportedFile(fileName) ==> actions == []
  {
    if !enabled then []
    else if IsSupportedFile(fileName) then [EnsureServerStarted, StartSessionWithProgress]
    else []
  }

  /** Opening files one after the other: each open contributes its own actions, in order. */
  function FilesOpened(enabled: bool, fileNames: seq<string>): seq<Action> {
    if fileNames == [] then []
    else FileOpened(enabled, fileNames[0]) + FilesOpened(enabled, fileNames[1..])
  }

  /** Opening `n` supported files launches the session flow `n` times. */
  lemma {:induction false} NoDeduplication(enabled: bool, fileNames: seq<string>)
    requires enabled && forall k :: 0 <= k < |fileNames| ==> IsSupportedFile(fileNames[k])
    ensures |FilesOpened(enabled, fileNames)| == 2 * |fileNames|
    ensures forall k :: 0 <= k < |fileNames| ==> FilesOpened(enabled, fileNames)[2 * k + 1] == StartSessionWithProgress
  {
    if fileNames != [] {
      NoDeduplication(enabled, fileNames[1..]);
      var rest := FilesOpened(enabled, fileNames[1..]);
      assert FilesOpened(enabled, fileNames) == [EnsureServerStarted, StartSessionWithProgress] + rest;
      forall k | 0 <= k < |fileNames|
        ensures FilesOpened(enabled, fileNames)[2 * k + 1] == StartSessionWithProgress
      {
        if k > 0 {
          assert FilesOpened(enabled, fileNames)[2 * k + 1] == rest[2 * (k - 1) + 1];
        }
      }
    }
  }

  /**
   * `waitForServerReady`: returns as soon as some server is Running (`ready`), or after 300
   * polls of 100 ms without one.
   */
  method WaitForServerReady(serversAt: nat -> seq<Servers.ServerState>) returns (ready: Option<nat>, polls: nat)
    ensures polls <= Servers.MAX_POLLS
    ensures ready.Some? ==> ready.value + 1 == polls && Servers.Running in serversAt(ready.value)
    ensures forall p :: 0 <= p < polls - 1 ==> Servers.Running !in serversAt(p)
    ensures ready.None? ==> polls == Servers.MAX_POLLS && forall p :: 0 <= p < polls ==> Servers.Running !in serversAt(p)
  {
    var outcome;
    outcome, polls := Servers.PollForRunningServer(serversAt);
    ready := if outcome.Ready? then Some(outcome.poll) else None;
  }

  /** The per-server result of sending `knip.start`. */
  datatype SendResult = Sent | Failed

  /**
   * `sendKnipStartRequest`: one request per server, whatever its state; a server whose request
   * throws (`failing`) is logged and the loop goes on with the next one.
   */
  method SendKnipStartRequest(servers: seq<Servers.ServerState>, failing: set<nat>) returns (results: seq<SendResult>)
    ensures |results| == |servers|
    ensures forall k :: 0 <= k < |servers| ==> results[k] == (if k in failing then Failed else Sent)
  {
    results := [];
    for k := 0 to |servers|
      invariant |results| == k
      invariant forall j :: 0 <= j < k ==> results[j] == (if j in failing then Failed else Sent)
    {
      results := results + [if k in failing then Failed else Sent];
    }
  }

  /**
   * `startKnipSessionWithProgress`: the two progress steps in order. The start request goes
   * to every server in `serversAtSend` even when the wait timed out.
   */
  method StartKnipSessionWithProgress(
    serversAt: nat -> seq<Servers.ServerState>, serversAtSend: seq<Servers.ServerState>, failing: set<nat>)
    returns (ready: Option<nat>, results: seq<SendResult>)
    ensures ready.Some? ==> Servers.Running in serversAt(ready.value)
    ensures ready.None? ==> forall p :: 0 <= p < Servers.MAX_POLLS ==> Servers.Running !in serversAt(p)
    ensures |results| == |serversAtSend|
    ensures forall k :: 0 <= k < |serversAtSend| ==> (results[k] == Sent <==> k !in failing)
  {
    var polls;
    ready, polls := WaitForServerReady(serversAt);
    results := SendKnipStartRequest(serversAtSend, failing);
  }
}
