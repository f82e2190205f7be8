/** The fixed locations the build script writes to, built the way it builds
    them, with `os.path.join` (POSIX flavour, setup.py:43, 145-151, 221). */
module Paths {
  import Strings

  /** `posixpath.join(a, b)`: an absolute `b` replaces `a`; otherwise a `/`
      goes between them unless `a` is empty or already ends in one. */
  function JoinPath(a: string, b: string): string {
    if |b| > 0 && b[0] == '/' then b
    else if a == "" || a[|a| - 1] == '/' then a + b
    else a + "/" + b
  }

  /** The joined path ends with `b`. A relative `b` goes behind `a`'s
      directory prefix: `a` stays in front, followed by one `/` exactly when
      `a` is non-empty and does not already end in one. An absolute `b`
      replaces `a`. */
  lemma JoinPathSpec(a: string, b: string)
    ensures EndsWith(JoinPath(a, b), b)
    ensures !IsAbsolute(b) ==> JoinPath(a, b) == DirPrefix(a) + b
    ensures !IsAbsolute(b) ==>
      var r := JoinPath(a, b);
      && |a| <= |r| && r[..|a|] == a
      && (|r| == |a| + 1 + |b| <==> a != "" && a[|a| - 1] != '/')
      && (|r| == |a| + 1 + |b| ==> r[|a|] == '/')
      && (|r| != |a| + 1 + |b| ==> |r| == |a| + |b|)
    ensures IsAbsolute(b) ==> JoinPath(a, b) == b
  {
  }

  /** `s.endswith(t)`. */
  predicate EndsWith(s: string, t: string) {
    |t| <= |s| && s[|s| - |t|..] == t
  }

  /** A path that `os.path.join` does not put behind the one before it. */
  predicate IsAbsolute(b: string) {
    |b| > 0 && b[0] == '/'
  }

  /** `os.path.join(a, *segments)`: joins from the left. */
  function JoinPaths(a: string, segments: seq<string>): string
    decreases |segments|
  {
    if segments == [] then a else JoinPaths(JoinPath(a, segments[0]), segments[1..])
  }

  /** What `os.path.join` puts in front of a relative segment of `a`. */
  function DirPrefix(a: string): string {
    if a == "" || a[|a| - 1] == '/' then a else a + "/"
  }

  /** A plain relative path segment: non-empty, no slash at either end. */
  predicate IsPlainSegment(b: string) {
    |b| > 0 && b[0] != '/' && b[|b| - 1] != '/'
  }

  /** Joining plain segments onto `a` is `a`'s directory prefix followed by
      the segments separated by single slashes. */
  lemma {:induction false} JoinPlainSegments(a: string, segments: seq<string>)
    requires |segments| >= 1
    requires forall x :: 0 <= x < |segments| ==> IsPlainSegment(segments[x])
    ensures JoinPaths(a, segments) == DirPrefix(a) + Strings.Join("/", segments)
    decreases |segments|
  {
    var first := JoinPath(a, segments[0]);
    assert first == DirPrefix(a) + segments[0];
    if |segments| > 1 {
      JoinPlainSegments(first, segments[1..]);
      assert DirPrefix(first) == DirPrefix(a) + segments[0] + "/";
    }
  }

  /** `versioneer.versionfile_source`. */
  const VersionFileSource: string := "src/leap/bitmask/_version.py"

  /** `_reqpath` in `copy_reqs`. */
  const ReqsSegments: seq<string> := ["leap", "bitmask", "util", "reqs.txt"]

  /** The manifest target of `copy_reqs(path, withsrc)`: it is
      `path/[src/]leap/bitmask/util/reqs.txt`, with the `src/` segment
      present exactly when `withsrc` is set. */
  function ReqsPath(path: string, withsrc: bool): (r: string)
    ensures r == DirPrefix(path) + (if withsrc then "src/" else "") + "leap/bitmask/util/reqs.txt"
  {
    if withsrc then
      SrcReqsJoined(path);
      JoinPaths(path, ["src"] + ReqsSegments)
    else
      ReqsJoined(path);
      JoinPaths(path, ReqsSegments)
  }

  /** `os.path.join(path, *_reqpath)`, written out. */
  lemma ReqsJoined(path: string)
    ensures JoinPaths(path, ReqsSegments) == DirPrefix(path) + "" + "leap/bitmask/util/reqs.txt"
  {
    ReqsSegmentsJoined();
    JoinPlainSegments(path, ReqsSegments);
    assert DirPrefix(path) + "" + "leap/bitmask/util/reqs.txt" == DirPrefix(path) + "leap/bitmask/util/reqs.txt";
  }

  /** `os.path.join(path, 'src', *_reqpath)`, written out. */
  lemma SrcReqsJoined(path: string)
    ensures JoinPaths(path, ["src"] + ReqsSegments) == DirPrefix(path) + "src/" + "leap/bitmask/util/reqs.txt"
  {
    var segments := ["src"] + ReqsSegments;
    ReqsSegmentsJoined();
    assert segments[1..] == ReqsSegments;
    assert Strings.Join("/", segments) == "src" + "/" + "leap/bitmask/util/reqs.txt";
    JoinPlainSegments(path, segments);
  }

  /** The hash file of `hash_binaries`, relative to the working directory. */
  function BinariesPath(): (r: string)
    ensures r == "src/leap/bitmask/_binaries.py"
  {
    BinariesJoined();
    JoinPaths("src", ["leap", "bitmask", "_binaries.py"])
  }

  /** `_reqpath` joined with slashes. */
  lemma ReqsSegmentsJoined()
    ensures Strings.Join("/", ReqsSegments) == "leap/bitmask/util/reqs.txt"
  {
    var last := ["reqs.txt"];
    assert Strings.Join("/", last) == "reqs.txt";
    JoinFront("/", "util", last);
    JoinFront("/", "bitmask", ["util"] + last);
    JoinFront("/", "leap", ["bitmask"] + (["util"] + last));
    assert ReqsSegments == ["leap"] + (["bitmask"] + (["util"] + last));
  }

  /** Joining with one more part in front. */
  lemma JoinFront(sep: string, x: string, xs: seq<string>)
    requires |xs| >= 1
    ensures Strings.Join(sep, [x] + xs) == x + sep + Strings.Join(sep, xs)
  {
    assert ([x] + xs)[1..] == xs;
  }

  /** `os.path.join('src', 'leap', 'bitmask', '_binaries.py')`, written out. */
  lemma BinariesJoined()
    ensures JoinPaths("src", ["leap", "bitmask", "_binaries.py"]) == "src/leap/bitmask/_binaries.py"
  {
    var s := ["leap", "bitmask", "_binaries.py"];
    assert s[1..] == ["bitmask", "_binaries.py"];
    assert s[1..][1..] == ["_binaries.py"];
    assert s[1..][1..][1..] == [];
    assert JoinPath("src", "leap") == "src/leap";
    assert JoinPath("src/leap", "bitmask") == "src/leap/bitmask";
    assert JoinPath("src/leap/bitmask", "_binaries.py") == "src/leap/bitmask/_binaries.py";
  }

  /** The two manifest targets of one root differ, so `build` and `sdist`
      cannot overwrite each other's manifest in one tree. */
  lemma ReqsPathsDiffer(path: string)
    ensures ReqsPath(path, true) != ReqsPath(path, false)
  {
  }
}
