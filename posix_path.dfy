/**
 * The two pieces of Node's `path` module the route calls when it turns an uploaded file's
 * name into a public URL path: the POSIX `basename` and the POSIX `join` of the image
 * directory with one file name.
 */
module PosixPath {

  /** `p` without the run of `/` at its end. */
  function StripTrailingSlashes(p: string): (r: string)
    ensures |r| <= |p| && r == p[..|r|]
    ensures forall k | |r| <= k < |p| :: p[k] == '/'
    ensures r == [] || r[|r| - 1] != '/'
    decreases |p|
  {
    if |p| > 0 && p[|p| - 1] == '/' then StripTrailingSlashes(p[..|p| - 1]) else p
  }

  /** What follows the last `/` of `p` (all of `p` when it has none). */
  function LastSegment(p: string): (r: string)
    ensures |r| <= |p| && r == p[|p| - |r|..]
    ensures '/' !in r
    ensures |r| < |p| ==> p[|p| - |r| - 1] == '/'
    decreases |p|
  {
    if |p| == 0 || p[|p| - 1] == '/' then [] else LastSegment(p[..|p| - 1]) + [p[|p| - 1]]
  }

  /**
   * `path.basename(p)` on POSIX: trailing separators are ignored and the last remaining
   * component is returned; a path made only of `/` (or the empty path) has the empty basename.
   */
  function Basename(p: string): (r: string)
    ensures '/' !in r
    ensures r == [] <==> forall k | 0 <= k < |p| :: p[k] == '/'
    ensures '/' !in p ==> r == p
    ensures var s := StripTrailingSlashes(p);
            |r| <= |s| && r == s[|s| - |r|..] && (|r| < |s| ==> s[|s| - |r| - 1] == '/')
  {
    var stripped := StripTrailingSlashes(p);
    var r := LastSegment(stripped);
    assert r == [] <==> stripped == [] by {
      if stripped != [] { assert LastSegment(stripped) != []; }
    }
    assert '/' !in p ==> stripped == p;
    r
  }

  /** A single path segment, as `Basename` produces when it is not empty. */
  predicate IsSegment(s: string) {
    s != [] && '/' !in s
  }

  const ImageDir: string := "/schoolImages"

  /**
   * `path.posix.join("/schoolImages", seg)` for one segment: the two are joined with `/` and
   * the result normalised, so `.` stays in the directory and `..` climbs to its parent `/`.
   */
  function JoinImageDir(seg: string): (r: string)
    requires IsSegment(seg)
    ensures |r| > 0 && r[0] == '/'
  {
    if seg == "." then ImageDir
    else if seg == ".." then "/"
    else ImageDir + "/" + seg
  }

  /** The joined path of an ordinary file name has exactly the prefix's two separators. */
  lemma JoinImageDirSeparators(seg: string)
    requires IsSegment(seg) && seg != "." && seg != ".."
    ensures var r := JoinImageDir(seg);
            |r| == |ImageDir| + 1 + |seg| &&
            r[..|ImageDir| + 1] == "/schoolImages/" &&
            r[|ImageDir| + 1..] == seg &&
            forall k | |ImageDir| + 1 <= k < |r| :: r[k] != '/'
  {
    var r := JoinImageDir(seg);
    assert r[|ImageDir| + 1..] == seg;
    forall k | |ImageDir| + 1 <= k < |r| ensures r[k] != '/' {
      assert r[k] == seg[k - |ImageDir| - 1];
    }
  }
}
