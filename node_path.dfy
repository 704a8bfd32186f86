/**
 * The two functions of Node's POSIX `path` module the server applies to
 * file names: `basename` and `extname`.
 */
module NodePath {

  /** The path without the run of `/` at its end. */
  function StripTrailingSlashes(s: string): (r: string)
    ensures r <= s
    ensures r == [] || r[|r| - 1] != '/'
    ensures forall i :: |r| <= i < |s| ==> s[i] == '/'
    decreases |s|
  {
    if s != [] && s[|s| - 1] == '/' then StripTrailingSlashes(s[..|s| - 1]) else s
  }

  /** The text after the last `/`, or all of `s` when it has none. */
  function AfterLastSlash(s: string): (r: string)
    ensures '/' !in r
    ensures |r| <= |s| && r == s[|s| - |r|..]
    ensures |r| < |s| ==> s[|s| - |r| - 1] == '/'
    decreases |s|
  {
    if s == [] || s[|s| - 1] == '/' then []
    else AfterLastSlash(s[..|s| - 1]) + [s[|s| - 1]]
  }

  /** `s.lastIndexOf(c)`. */
  function LastIndexOf(s: string, c: char): (r: int)
    ensures -1 <= r < |s|
    ensures r >= 0 ==> s[r] == c
    ensures forall j :: r < j < |s| ==> s[j] != c
    decreases |s|
  {
    if s == [] then -1
    else if s[|s| - 1] == c then |s| - 1
    else LastIndexOf(s[..|s| - 1], c)
  }

  /** `path.basename(p)`: the last component, trailing separators ignored. */
  function Basename(p: string): (r: string)
    ensures '/' !in r
  {
    AfterLastSlash(StripTrailingSlashes(p))
  }

  /**
   * `path.extname(p)`: the last component from its last `.` on; empty when
   * it has no `.`, when its only `.` is its first character, or when it is `..`.
   */
  function Extname(p: string): (r: string)
    ensures r == [] || (r[0] == '.' && '.' !in r[1..])
    ensures '/' !in r
  {
    var base := Basename(p);
    var d := LastIndexOf(base, '.');
    if d <= 0 || base == ".." then ""
    else
      assert forall c :: c in base[d..][1..] ==> c in base[d + 1..];
      base[d..]
  }

  /** A name with no `/` in it is its own basename. */
  lemma BasenameOfPlainName(name: string)
    requires '/' !in name && (name == [] || name[|name| - 1] != '/')
    ensures Basename(name) == name
  {
    var s := StripTrailingSlashes(name);
    assert forall i :: 0 <= i < |name| ==> name[i] != '/';
  }

  /** The basename is the tail of the path once trailing separators are dropped. */
  lemma BasenameIsTail(p: string)
    ensures var s := StripTrailingSlashes(p); var b := Basename(p);
      |b| <= |s| && s[|s| - |b|..] == b
  {
  }

  /**
   * A non-empty stem without `/`, followed by a `.` and at least one more
   * character that is neither `.` nor `/`, has exactly that extension.
   */
  lemma ExtnameOfStem(stem: string, ext: string)
    requires stem != [] && '/' !in stem
    requires |ext| >= 2 && ext[0] == '.' && '.' !in ext[1..] && '/' !in ext
    ensures Extname(stem + ext) == ext
  {
    var name := stem + ext;
    assert '/' !in name by {
      forall i | 0 <= i < |name| ensures name[i] != '/' {
        if i < |stem| { assert name[i] == stem[i]; } else { assert name[i] == ext[i - |stem|]; }
      }
    }
    assert name[|name| - 1] == ext[|ext| - 1];
    BasenameOfPlainName(name);
    var d := LastIndexOf(name, '.');
    assert name[|stem|] == '.';
    forall j | |stem| < j < |name| ensures name[j] != '.' {
      assert name[j] == ext[j - |stem|] && ext[j - |stem|] in ext[1..];
    }
    assert d == |stem|;
    assert |name| >= 3;
    assert name[d..] == ext;
  }

  /** A name whose only `.` is its first character, such as `.png`, has no extension. */
  lemma DotfileHasNoExtension(name: string)
    requires '/' !in name && |name| >= 1 && name[0] == '.' && '.' !in name[1..]
    ensures Extname(name) == ""
  {
    BasenameOfPlainName(name);
    forall j | 0 < j < |name| ensures name[j] != '.' {
      assert name[j] in name[1..];
    }
  }
}
