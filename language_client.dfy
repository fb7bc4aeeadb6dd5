/**
 * `KnipLanguageClient.createSettings`: the settings object the IDE's LSP support searches
 * for the `knip` section of a `workspace/configuration` request.
 */
module LanguageClient {
  import opened Wrappers
  import opened Json
  import Descriptor

  /**
   * `createSettings()`: each `JsonObject().apply { ... }` block adds its properties in turn, and
   * the result wraps the settings under the single key `knip`. They are exactly the JSON form of
   * the workspace configuration the descriptor answers with, so both routes give the server the
   * same values.
   */
  method CreateSettings() returns (settings: Json)
    ensures settings == JObject([("knip", Descriptor.ToJson(Descriptor.DEFAULT_CONFIGURATION))])
  {
    var codelens := Build([("enabled", JBool(true))]);
    var hover := Build([
      ("enabled", JBool(true)),
      ("includeImportLocationSnippet", JBool(true)),
      ("maxSnippets", JInt(5)),
      ("timeout", JInt(5000))]);
    var quickfix := Build([("enabled", JBool(true))]);
    var highlight := Build([("dimExports", JBool(false)), ("dimTypes", JBool(false))]);
    var exports := Build([("codelens", codelens), ("hover", hover), ("quickfix", quickfix), ("highlight", highlight)]);
    var editor := Build([("exports", exports)]);
    var imports := Build([("enabled", JBool(true))]);
    var contention := Build([("enabled", JBool(true))]);
    var exportsSection := Build([("enabled", JBool(true)), ("contention", contention)]);
    var knipSettings := Build([("enabled", JBool(true)), ("editor", editor), ("imports", imports), ("exports", exportsSection)]);
    settings := Build([("knip", knipSettings)]);
  }

  /**
   * The settings have the single top-level key `knip`, whose value is an object, and LSP4IJ's
   * lookup of the section `knip` finds the configuration.
   */
  lemma KnipSectionFound(c: Descriptor.KnipWorkspaceConfiguration)
    ensures Keys([("knip", Descriptor.ToJson(c))]) == ["knip"]
    ensures Descriptor.ToJson(c).JObject?
    ensures Get(JObject([("knip", Descriptor.ToJson(c))]), "knip") == Some(Descriptor.ToJson(c))
  {
    LookupFirst([("knip", Descriptor.ToJson(c))], 0);
  }

  /** `editor.exports` holds `codelens`, `hover`, `quickfix` and `highlight`, in that order. */
  lemma EditorExportsKeys(c: Descriptor.EditorExportsConfig)
    ensures Keys(Descriptor.EditorExportsJson(c).members) == ["codelens", "hover", "quickfix", "highlight"]
  {
  }

  /* The hover fields are proved one lookup per lemma; `HoverValues` gathers them. */
  lemma HoverSnippetFlag(c: Descriptor.HoverConfig)
    ensures Get(Descriptor.HoverJson(c), "includeImportLocationSnippet") == Some(JBool(c.includeImportLocationSnippet))
  {
    LookupFirst(Descriptor.HoverJson(c).members, 1);
  }

  lemma HoverSnippetCount(c: Descriptor.HoverConfig)
    ensures Get(Descriptor.HoverJson(c), "maxSnippets") == Some(JInt(c.maxSnippets))
  {
    LookupFirst(Descriptor.HoverJson(c).members, 2);
  }

  lemma HoverTimeout(c: Descriptor.HoverConfig)
    ensures Get(Descriptor.HoverJson(c), "timeout") == Some(JInt(c.timeout))
  {
    LookupFirst(Descriptor.HoverJson(c).members, 3);
  }

  /** The hover object carries the configuration's snippet flag, snippet count and timeout. */
  lemma HoverValues(c: Descriptor.HoverConfig)
    ensures Get(Descriptor.HoverJson(c), "includeImportLocationSnippet") == Some(JBool(c.includeImportLocationSnippet))
    ensures Get(Descriptor.HoverJson(c), "maxSnippets") == Some(JInt(c.maxSnippets))
    ensures Get(Descriptor.HoverJson(c), "timeout") == Some(JInt(c.timeout))
  {
    HoverSnippetFlag(c);
    HoverSnippetCount(c);
    HoverTimeout(c);
  }

  /** The highlight object carries the configuration's two dimming flags. */
  lemma HighlightValues(c: Descriptor.HighlightConfig)
    ensures Get(Descriptor.HighlightJson(c), "dimExports") == Some(JBool(c.dimExports))
    ensures Get(Descriptor.HighlightJson(c), "dimTypes") == Some(JBool(c.dimTypes))
  {
    LookupFirst(Descriptor.HighlightJson(c).members, 0);
    LookupFirst(Descriptor.HighlightJson(c).members, 1);
  }

  /** One step of a path: the rest is followed from the child the first key names. */
  lemma GetPathStep(j: Json, key: string, rest: seq<string>, child: Json)
    requires Get(j, key) == Some(child)
    ensures GetPath(j, [key] + rest) == GetPath(child, rest)
  {
    assert ([key] + rest)[0] == key && ([key] + rest)[1..] == rest;
  }

  /** Each level of the configuration's JSON form holds the next under its own key. */
  lemma EditorLevel(c: Descriptor.KnipWorkspaceConfiguration)
    ensures Get(Descriptor.ToJson(c), "editor") == Some(Descriptor.EditorJson(c.editor))
  {
    LookupFirst(Descriptor.ToJson(c).members, 1);
  }

  lemma ExportsLevel(c: Descriptor.EditorConfig)
    ensures Get(Descriptor.EditorJson(c), "exports") == Some(Descriptor.EditorExportsJson(c.exports))
  {
    LookupFirst(Descriptor.EditorJson(c).members, 0);
  }

  lemma QuickfixLevel(c: Descriptor.EditorExportsConfig)
    ensures Get(Descriptor.EditorExportsJson(c), "quickfix") == Some(Descriptor.QuickFixJson(c.quickfix))
  {
    LookupFirst(Descriptor.EditorExportsJson(c).members, 2);
  }

  lemma EnabledLevel(c: Descriptor.QuickFixConfig)
    ensures Get(Descriptor.QuickFixJson(c), "enabled") == Some(JBool(c.enabled))
  {
    LookupFirst(Descriptor.QuickFixJson(c).members, 0);
  }

  /**
   * The server reads `editor.exports.quickfix.enabled` without a null check: under the `knip`
   * section the path is present for every configuration, and holds `true` in the one sent.
   */
  lemma QuickfixEnabledPresent(c: Descriptor.KnipWorkspaceConfiguration)
    ensures GetPath(JObject([("knip", Descriptor.ToJson(c))]), ["knip", "editor", "exports", "quickfix", "enabled"])
         == Some(JBool(c.editor.exports.quickfix.enabled))
    ensures c == Descriptor.DEFAULT_CONFIGURATION ==>
      GetPath(JObject([("knip", Descriptor.ToJson(c))]), ["knip", "editor", "exports", "quickfix", "enabled"])
         == Some(JBool(true))
  {
    var knip := Descriptor.ToJson(c);
    var editor := Descriptor.EditorJson(c.editor);
    var exports := Descriptor.EditorExportsJson(c.editor.exports);
    var quickfix := Descriptor.QuickFixJson(c.editor.exports.quickfix);
    EditorLevel(c);
    ExportsLevel(c.editor);
    QuickfixLevel(c.editor.exports);
    EnabledLevel(c.editor.exports.quickfix);
    GetPathStep(quickfix, "enabled", [], JBool(c.editor.exports.quickfix.enabled));
    GetPathStep(exports, "quickfix", ["enabled"], quickfix);
    GetPathStep(editor, "exports", ["quickfix", "enabled"], exports);
    GetPathStep(knip, "editor", ["exports", "quickfix", "enabled"], editor);
    KnipSectionFound(c);
    GetPathStep(JObject([("knip", knip)]), "knip", ["editor", "exports", "quickfix", "enabled"], knip);
  }
}
