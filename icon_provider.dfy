/** `KnipFileIconProvider`: which file names get the Knip icon. */
module IconProvider {

  /** `KNIP_CONFIG_PATTERNS`. */
  const KNIP_CONFIG_PATTERNS: set<string> := {
    "knip.json", "knip.jsonc", "knip.ts", "knip.js",
    "knip.config.ts", "knip.config.js", "knip.config.mjs", "knip.config.cjs"
  }

  /** `isKnipConfigFile`: exact, case-sensitive membership in the pattern set. */
  predicate IsKnipConfigFile(fileName: string) {
    fileName in KNIP_CONFIG_PATTERNS
  }

  /** The pattern set has eight distinct names, and each of them gets the icon. */
  lemma ConfigPatternsAccepted()
    ensures |KNIP_CONFIG_PATTERNS| == 8
    ensures IsKnipConfigFile("knip.json") && IsKnipConfigFile("knip.jsonc")
    ensures IsKnipConfigFile("knip.ts") && IsKnipConfigFile("knip.js")
    ensures IsKnipConfigFile("knip.config.ts") && IsKnipConfigFile("knip.config.js")
    ensures IsKnipConfigFile("knip.config.mjs") && IsKnipConfigFile("knip.config.cjs")
  {
    assert "knip.json" != "knip.jsonc";
  }

  /** Other project files, near misses, other letter cases and the empty name get no icon. */
  lemma OtherNamesRejected()
    ensures !IsKnipConfigFile("package.json") && !IsKnipConfigFile("tsconfig.json")
    ensures !IsKnipConfigFile("eslint.config.js") && !IsKnipConfigFile("vite.config.ts")
    ensures !IsKnipConfigFile("index.ts") && !IsKnipConfigFile("app.js")
    ensures !IsKnipConfigFile("knip.yaml") && !IsKnipConfigFile("knip.config.yaml")
    ensures !IsKnipConfigFile("myknip.json") && !IsKnipConfigFile("knip-config.json")
    ensures !IsKnipConfigFile("knip_config.ts")
    ensures !IsKnipConfigFile("Knip.json") && !IsKnipConfigFile("KNIP.JSON")
    ensures !IsKnipConfigFile("Knip.config.ts") && !IsKnipConfigFile("")
  {
  }
}
