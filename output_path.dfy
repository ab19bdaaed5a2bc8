/** The output file of line 203 of `main`:
    `os.path.join(folder, profile_url.rstrip('/').split('/')[-1] + "_comments.json")`. */
module OutputPath {

  const SUFFIX := "_comments.json"

  /** `s.rstrip('/')`: `s` without its trailing slashes. */
  function RStripSlashes(s: string): (r: string)
    ensures r <= s
    ensures r == [] || r[|r| - 1] != '/'
    ensures forall i :: |r| <= i < |s| ==> s[i] == '/'
  {
    if s != [] && s[|s| - 1] == '/' then RStripSlashes(s[..|s| - 1]) else s
  }

  /** `s.split('/')[-1]`: what follows the last slash, or all of `s` when it has none. */
  function LastSegment(s: string): (r: string)
    ensures '/' !in r
    ensures |r| <= |s| && r == s[|s| - |r|..]
    ensures |r| == |s| || s[|s| - |r| - 1] == '/'
  {
    if s == [] || s[|s| - 1] == '/' then [] else LastSegment(s[..|s| - 1]) + [s[|s| - 1]]
  }

  /** The profile's name as the file name uses it. */
  function ProfileName(profileUrl: string): string {
    LastSegment(RStripSlashes(profileUrl))
  }

  /** The name of the JSON file a profile's comments are saved to. */
  function FileName(profileUrl: string): (r: string)
    ensures |r| >= |SUFFIX| && r[|r| - |SUFFIX|..] == SUFFIX
    ensures '/' !in r[..|r| - |SUFFIX|] && '/' !in r
  {
    var name := ProfileName(profileUrl);
    assert (name + SUFFIX)[..|name|] == name;
    name + SUFFIX
  }

  /** `os.path.join(a, b)` for two POSIX path components. */
  function Join(a: string, b: string): (r: string)
    ensures b != [] && b[0] == '/' ==> r == b
    ensures !(b != [] && b[0] == '/') ==>
              && a <= r && |r| >= |a| + |b| && r[|r| - |b|..] == b
              && r[|a|..|r| - |b|] in {"", "/"}
              && (r[|a|..|r| - |b|] == "/" <==> a != [] && a[|a| - 1] != '/')
  {
    if b != [] && b[0] == '/' then b
    else if a == [] || a[|a| - 1] == '/' then
      assert (a + b)[|a|..|a|] == "";
      a + b
    else
      assert (a + "/" + b)[|a|..|a| + 1] == "/";
      a + "/" + b
  }

  /** The path the comments of `profileUrl` are written to inside the run folder. */
  function OutputFile(folder: string, profileUrl: string): string {
    Join(folder, FileName(profileUrl))
  }

  /** The output file always lies directly inside the run folder: the file name has no slash,
      so `join` never discards the folder and never adds a directory level. */
  lemma OutputFileInFolder(folder: string, profileUrl: string)
    ensures var path := OutputFile(folder, profileUrl);
            var name := FileName(profileUrl);
            && folder <= path
            && |path| >= |folder| + |name| && path[|path| - |name|..] == name
            && path[|folder|..|path| - |name|] in {"", "/"}
  {
  }

  lemma {:induction false} RStripTrailing(s: string, slashes: string)
    requires forall i :: 0 <= i < |slashes| ==> slashes[i] == '/'
    ensures RStripSlashes(s + slashes) == RStripSlashes(s)
  {
    if slashes == [] {
      assert s + slashes == s;
    } else {
      var t := s + slashes;
      assert t[..|t| - 1] == s + slashes[..|slashes| - 1];
      RStripTrailing(s, slashes[..|slashes| - 1]);
    }
  }

  /** URLs that differ only in trailing slashes are saved to the same file. */
  lemma TrailingSlashesIgnored(profileUrl: string, slashes: string)
    requires forall i :: 0 <= i < |slashes| ==> slashes[i] == '/'
    ensures FileName(profileUrl + slashes) == FileName(profileUrl)
  {
    RStripTrailing(profileUrl, slashes);
  }

  lemma {:induction false} LastSegmentAfterSlash(prefix: string, name: string)
    requires '/' !in name
    ensures LastSegment(prefix + "/" + name) == name
  {
    var s := prefix + "/" + name;
    if name == [] {
      assert s[|s| - 1] == '/';
    } else {
      assert s[..|s| - 1] == prefix + "/" + name[..|name| - 1];
      assert name[|name| - 1] in name;
      LastSegmentAfterSlash(prefix, name[..|name| - 1]);
      assert name == name[..|name| - 1] + [name[|name| - 1]];
    }
  }

  /** A profile URL `prefix/name/`, with or without the final slash, is saved to
      `name_comments.json`. */
  lemma ProfileUrlFileName(prefix: string, name: string, slashes: string)
    requires name != [] && '/' !in name
    requires forall i :: 0 <= i < |slashes| ==> slashes[i] == '/'
    ensures FileName(prefix + "/" + name + slashes) == name + SUFFIX
  {
    TrailingSlashesIgnored(prefix + "/" + name, slashes);
    var s := prefix + "/" + name;
    assert s[|s| - 1] == name[|name| - 1];
    assert name[|name| - 1] in name;
    assert RStripSlashes(s) == s;
    LastSegmentAfterSlash(prefix, name);
  }

  /** Two profiles share an output file exactly when their URLs end in the same name. */
  lemma SameFileIffSameName(url1: string, url2: string)
    ensures FileName(url1) == FileName(url2) <==> ProfileName(url1) == ProfileName(url2)
  {
  }
}
