/**
 * Scheme classification and the string derivations the editor's navigation
 * actions apply to a resource: the display name, the synthetic tab id, the
 * URIs handed to the language server and the workspace-relative paths.
 */
module Resources {
  import opened Wrappers

  // The scheme tokens; they must match the language servers' own URI schemes.
  const INMEMORY: string := "inmemory"
  const CSHARP_METADATA: string := "omnisharp-metadata"
  const JDT: string := "jdt"

  /** Prefix that marks a tab id as synthetic (not backed by a workspace file). */
  const FAKE_PREFIX: string := "fake_"

  /** The two literals removed from a decoded omnisharp-metadata URI. */
  const METADATA_MARKER: string := "[metadata] "
  const METADATA_SCHEME_PREFIX: string := "omnisharp-metadata://"

  const FILE_SCHEME_PREFIX: string := "file://"

  const WORKSPACE_ROOT_PREFIX: string := "/data/coding-ide-home/workspace/"
  const WORKSPACE_ROOT_SUFFIX: string := "/working-dir"

  predicate StartsWith(s: string, prefix: string) {
    |prefix| <= |s| && s[..|prefix|] == prefix
  }

  predicate EndsWith(s: string, suffix: string) {
    |suffix| <= |s| && s[|s| - |suffix|..] == suffix
  }

  /** How a navigation target is handled, decided by its scheme alone. */
  datatype Kind = InMemory | Jdt | OmnisharpMetadata | RealPath

  /**
   * Every scheme other than the three tokens is a real workspace path, so the
   * classification is total and never fails.
   */
  function Classify(scheme: string): (k: Kind)
    ensures k == InMemory <==> scheme == INMEMORY
    ensures k == Jdt <==> scheme == JDT
    ensures k == OmnisharpMetadata <==> scheme == CSHARP_METADATA
    ensures k == RealPath <==> scheme !in {INMEMORY, JDT, CSHARP_METADATA}
  {
    if scheme == INMEMORY then InMemory
    else if scheme == JDT then Jdt
    else if scheme == CSHARP_METADATA then OmnisharpMetadata
    else RealPath
  }

  /**
   * A resource as the editor hands it over: its scheme and path, the
   * pre-computed canonical form `_formatted` (absent or empty when none was
   * computed) and the text of `toString()`.
   */
  datatype Resource = Resource(scheme: string, path: string, formatted: Option<string>, text: string)

  /**
   * `p.split('/').pop()`: the longest suffix of `p` that holds no `/`.
   */
  function LastSegment(p: string): (seg: string)
    ensures '/' !in seg
    ensures EndsWith(p, seg)
    ensures |seg| < |p| ==> p[|p| - |seg| - 1] == '/'
    decreases |p|
  {
    if p == [] then []
    else if p[|p| - 1] == '/' then []
    else
      var q := p[..|p| - 1];
      assert p == q + [p[|p| - 1]];
      LastSegment(q) + [p[|p| - 1]]
  }

  /** Whatever directory part precedes it, the segment after the last `/` is found. */
  lemma {:induction false} LastSegmentOfJoin(dir: string, seg: string)
    requires '/' !in seg
    ensures LastSegment(dir + "/" + seg) == seg
    decreases |seg|
  {
    if seg != [] {
      var init := seg[..|seg| - 1];
      var c := seg[|seg| - 1];
      assert seg == init + [c];
      var p := dir + "/" + seg;
      assert p[..|p| - 1] == dir + "/" + init;
      assert p[|p| - 1] == c;
      LastSegmentOfJoin(dir, init);
    } else {
      var p := dir + "/";
      assert p[|p| - 1] == '/';
    }
  }

  /**
   * The display name of a decompiled class: a file name ending in `class`
   * has those five letters replaced by `java`; any other name is kept.
   */
  function JdtName(fileName: string): (name: string)
    ensures EndsWith(fileName, "class") ==>
      |name| == |fileName| - 1 && EndsWith(name, "java") && name[..|name| - 4] == fileName[..|fileName| - 5]
    ensures !EndsWith(fileName, "class") ==> name == fileName
  {
    if EndsWith(fileName, "class") then fileName[..|fileName| - 5] + "java" else fileName
  }

  lemma JdtNameOfClassFile(stem: string)
    ensures JdtName(stem + "class") == stem + "java"
  {
  }

  /** The synthetic tab id `fake_<name>`; the name is recovered by dropping the prefix. */
  function SyntheticTabId(name: string): (id: string)
    ensures StartsWith(id, FAKE_PREFIX)
    ensures id[|FAKE_PREFIX|..] == name
  {
    FAKE_PREFIX + name
  }

  /** Distinct names never share a synthetic tab id. */
  lemma SyntheticTabIdInjective(a: string, b: string)
    ensures SyntheticTabId(a) == SyntheticTabId(b) <==> a == b
  {
  }

  /** The URI of a decompiled-class fetch: `_formatted` when it is set, else `toString()`. */
  function JdtFetchUri(r: Resource): (uri: string)
    ensures r.formatted.Some? && r.formatted.value != [] ==> uri == r.formatted.value
    ensures r.formatted.None? || r.formatted.value == [] ==> uri == r.text
  {
    if r.formatted.None? || r.formatted.value == [] then r.text else r.formatted.value
  }

  predicate OccursAt(s: string, pat: string, i: nat) {
    i + |pat| <= |s| && s[i..i + |pat|] == pat
  }

  /** The first position at or after `from` where `pat` occurs in `s`. */
  function IndexFrom(s: string, pat: string, from: nat): (r: Option<nat>)
    requires from <= |s|
    ensures r.Some? ==> from <= r.value && OccursAt(s, pat, r.value)
    ensures r.Some? ==> forall j :: from <= j < r.value ==> !OccursAt(s, pat, j)
    ensures r.None? ==> forall j :: from <= j <= |s| ==> !OccursAt(s, pat, j)
    decreases |s| - from
  {
    if OccursAt(s, pat, from) then Some(from)
    else if from == |s| then None
    else IndexFrom(s, pat, from + 1)
  }

  /** `s.indexOf(pat)`, with `None` for JavaScript's `-1`. */
  function IndexOf(s: string, pat: string): (r: Option<nat>)
    ensures r.Some? ==> OccursAt(s, pat, r.value) && forall j :: 0 <= j < r.value ==> !OccursAt(s, pat, j)
    ensures r.None? ==> forall j :: 0 <= j <= |s| ==> !OccursAt(s, pat, j)
  {
    IndexFrom(s, pat, 0)
  }

  /**
   * `s.replace(pat, '')` for a string pattern: the first occurrence is cut
   * out, and putting `pat` back at that position restores `s`.
   */
  function RemoveFirst(s: string, pat: string): (r: string)
    ensures IndexOf(s, pat).None? ==> r == s
    ensures IndexOf(s, pat).Some? ==>
      var i := IndexOf(s, pat).value;
      |r| == |s| - |pat| && i <= |r| && s == r[..i] + pat + r[i..]
  {
    match IndexOf(s, pat)
    case None => s
    case Some(i) =>
      var r := s[..i] + s[i + |pat|..];
      assert r[..i] == s[..i] && r[i..] == s[i + |pat|..];
      assert s == s[..i] + s[i..i + |pat|] + s[i + |pat|..];
      r
  }

  /**
   * The omnisharp fetch URI: the decoded `toString()` text with the first
   * `[metadata] ` and then the first `omnisharp-metadata://` removed.
   */
  function CleanMetadataUri(decoded: string): (uri: string)
    ensures IndexOf(decoded, METADATA_MARKER).None? && IndexOf(decoded, METADATA_SCHEME_PREFIX).None? ==> uri == decoded
    ensures IndexOf(decoded, METADATA_MARKER).Some? ==> |uri| <= |decoded| - |METADATA_MARKER|
    ensures |decoded| - |uri| in {0, |METADATA_MARKER|, |METADATA_SCHEME_PREFIX|, |METADATA_MARKER| + |METADATA_SCHEME_PREFIX|}
  {
    RemoveFirst(RemoveFirst(decoded, METADATA_MARKER), METADATA_SCHEME_PREFIX)
  }

  /** When `pat` occurs at `i` and nowhere before it, `indexOf` finds `i`. */
  lemma IndexOfIsFirst(s: string, pat: string, i: nat)
    requires OccursAt(s, pat, i)
    requires forall j :: 0 <= j < i ==> !OccursAt(s, pat, j)
    ensures IndexOf(s, pat) == Some(i)
  {
  }

  /**
   * A decoded metadata URI of the shape the C# server issues,
   * `omnisharp-metadata://[metadata] <rest>`, is reduced to `<rest>`.
   */
  lemma CleanMetadataUriStripsPrefixes(rest: string)
    ensures CleanMetadataUri(METADATA_SCHEME_PREFIX + METADATA_MARKER + rest) == rest
  {
    var s := METADATA_SCHEME_PREFIX + METADATA_MARKER + rest;
    var n := |METADATA_SCHEME_PREFIX|;
    assert s[n..n + |METADATA_MARKER|] == METADATA_MARKER;
    forall j | 0 <= j < n
      ensures !OccursAt(s, METADATA_MARKER, j)
    {
      assert s[j] == METADATA_SCHEME_PREFIX[j] != '[';
    }
    IndexOfIsFirst(s, METADATA_MARKER, n);
    var t := RemoveFirst(s, METADATA_MARKER);
    assert t == METADATA_SCHEME_PREFIX + rest by {
      assert s == t[..n] + METADATA_MARKER + t[n..];
      assert t[..n] == s[..n] == METADATA_SCHEME_PREFIX;
      assert t[n..] == s[n + |METADATA_MARKER|..] == rest;
    }
    assert OccursAt(t, METADATA_SCHEME_PREFIX, 0);
    IndexOfIsFirst(t, METADATA_SCHEME_PREFIX, 0);
    var u := RemoveFirst(t, METADATA_SCHEME_PREFIX);
    assert t == u[..0] + METADATA_SCHEME_PREFIX + u[0..];
  }

  /** `s.substring(start)` for a non-negative start: empty once start passes the end. */
  function SubstringFrom(s: string, start: nat): (r: string)
    ensures start <= |s| ==> s[..start] + r == s
    ensures start >= |s| ==> r == []
  {
    if start <= |s| then s[start..] else []
  }

  /**
   * The path `openFile` receives for a real path: `path` with as many leading
   * characters dropped as the workspace root has. When the path lies under
   * the root, root and relative path concatenate back to the path.
   */
  function RelativePath(path: string, root: string): (rel: string)
    ensures StartsWith(path, root) ==> root + rel == path
    ensures EndsWith(path, rel)
    ensures |rel| == if |root| <= |path| then |path| - |root| else 0
  {
    SubstringFrom(path, |root|)
  }

  /**
   * The debugger's variant: a path that starts with `file://` loses as many
   * characters as `file://<root>` has, any other path as many as the root has.
   */
  function DebuggerRelativePath(path: string, root: string): (rel: string)
    ensures StartsWith(path, FILE_SCHEME_PREFIX + root) ==> FILE_SCHEME_PREFIX + root + rel == path
    ensures !StartsWith(path, FILE_SCHEME_PREFIX) && StartsWith(path, root) ==> root + rel == path
    ensures StartsWith(path, FILE_SCHEME_PREFIX) ==> rel == SubstringFrom(path, |FILE_SCHEME_PREFIX| + |root|)
    ensures !StartsWith(path, FILE_SCHEME_PREFIX) ==> rel == RelativePath(path, root)
    ensures EndsWith(path, rel)
  {
    var cut := if StartsWith(path, FILE_SCHEME_PREFIX) then FILE_SCHEME_PREFIX + root else root;
    SubstringFrom(path, |cut|)
  }

  /** The workspace root of a space; the space key is recovered from between the fixed parts. */
  function WorkspaceRoot(spaceKey: string): (root: string)
    ensures |root| == |WORKSPACE_ROOT_PREFIX| + |spaceKey| + |WORKSPACE_ROOT_SUFFIX|
    ensures StartsWith(root, WORKSPACE_ROOT_PREFIX) && EndsWith(root, WORKSPACE_ROOT_SUFFIX)
    ensures root[|WORKSPACE_ROOT_PREFIX|..|root| - |WORKSPACE_ROOT_SUFFIX|] == spaceKey
  {
    WORKSPACE_ROOT_PREFIX + spaceKey + WORKSPACE_ROOT_SUFFIX
  }

  /** The configuration values the actions read. */
  datatype Config = Config(spaceKey: string, workspaceUri: string, mainLanguage: string)

  /**
   * The initialisation step that fixes the workspace root once a space key
   * is known; before that the configuration is left as it is.
   */
  function InitWorkspace(cfg: Config): (r: Config)
    ensures r.spaceKey == cfg.spaceKey && r.mainLanguage == cfg.mainLanguage
    ensures cfg.spaceKey != [] ==> r.workspaceUri == WorkspaceRoot(cfg.spaceKey)
    ensures cfg.spaceKey == [] ==> r == cfg
  {
    if cfg.spaceKey != [] then cfg.(workspaceUri := WorkspaceRoot(cfg.spaceKey)) else cfg
  }

  /** Initialisation happens once: repeating it changes nothing. */
  lemma InitWorkspaceIdempotent(cfg: Config)
    ensures InitWorkspace(InitWorkspace(cfg)) == InitWorkspace(cfg)
  {
  }
}
