/**
 * The deploy script's file filter: a path is left out of the upload when
 * any ignore pattern matches it.
 */
module Deploy {
  import opened Text

  const IgnorePatterns: seq<string> := [
    "node_modules", ".git", "dist", ".DS_Store", "server/public",
    ".cache", ".config", ".local", ".upm", "scripts/",
    ".replit", "replit.nix", "generated-icon.png",
    "*.tar.gz", ".breakpoints", ".data"]

  /**
   * One pattern: `*.ext` matches paths ending in `.ext`; any other pattern
   * matches paths that contain it anywhere.
   */
  predicate PatternMatches(path: string, pattern: string) {
    if StartsWith(pattern, "*.") then EndsWith(path, pattern[1..])
    else Contains(path, pattern)
  }

  /** Some pattern of the list matches the path. */
  predicate IgnoredBy(path: string, patterns: seq<string>) {
    exists i :: 0 <= i < |patterns| && PatternMatches(path, patterns[i])
  }

  /** `shouldIgnore`: the patterns are tried in order and the first match answers true. */
  method ShouldIgnore(path: string) returns (r: bool)
    ensures r <==> IgnoredBy(path, IgnorePatterns)
  {
    var i := 0;
    while i < |IgnorePatterns|
      invariant 0 <= i <= |IgnorePatterns|
      invariant forall j :: 0 <= j < i ==> !PatternMatches(path, IgnorePatterns[j])
    {
      var pattern := IgnorePatterns[i];
      if StartsWith(pattern, "*.") {
        var ext := pattern[1..];
        if EndsWith(path, ext) {
          return true;
        }
      } else if Contains(path, pattern) {
        return true;
      }
      i := i + 1;
    }
    return false;
  }

  /** A pattern not starting with `*` that the path contains makes the path ignored. */
  lemma PlainPatternIgnored(path: string, k: nat)
    requires k < |IgnorePatterns| && IgnorePatterns[k] != [] && IgnorePatterns[k][0] != '*'
    requires Contains(path, IgnorePatterns[k])
    ensures IgnoredBy(path, IgnorePatterns)
  {
    assert !StartsWith(IgnorePatterns[k], "*.");
    assert PatternMatches(path, IgnorePatterns[k]);
  }

  /** Where the tooling patterns sit in the list. */
  lemma ToolingPatterns()
    ensures IgnorePatterns[0] == "node_modules" && IgnorePatterns[1] == ".git" && IgnorePatterns[2] == "dist"
    ensures IgnorePatterns[9] == "scripts/"
  {
  }

  /** Paths mentioning `node_modules`, `.git`, `dist` or `scripts/` anywhere are ignored. */
  lemma ToolingIgnored(path: string)
    requires Contains(path, "node_modules") || Contains(path, ".git") || Contains(path, "dist") || Contains(path, "scripts/")
    ensures IgnoredBy(path, IgnorePatterns)
  {
    ToolingPatterns();
    if Contains(path, "node_modules") {
      PlainPatternIgnored(path, 0);
    } else if Contains(path, ".git") {
      PlainPatternIgnored(path, 1);
    } else if Contains(path, "dist") {
      PlainPatternIgnored(path, 2);
    } else {
      PlainPatternIgnored(path, 9);
    }
  }

  /** The one extension pattern: archives ending in `.tar.gz` are ignored wherever they are. */
  lemma ArchivesIgnored(path: string)
    requires EndsWith(path, ".tar.gz")
    ensures IgnoredBy(path, IgnorePatterns)
  {
    assert StartsWith(IgnorePatterns[13], "*.");
    assert IgnorePatterns[13][1..] == ".tar.gz";
    assert PatternMatches(path, IgnorePatterns[13]);
  }

  /** Substring matching reaches further than names: `.github/` and `.gitignore` contain `.git`. */
  lemma SubstringReachesFurther()
    ensures IgnoredBy(".github/workflows/ci.yml", IgnorePatterns)
    ensures IgnoredBy(".gitignore", IgnorePatterns)
  {
    ContainsAt(".github/workflows/ci.yml", ".git", 0);
    ContainsAt(".gitignore", ".git", 0);
    ToolingIgnored(".github/workflows/ci.yml");
    ToolingIgnored(".gitignore");
  }
}
