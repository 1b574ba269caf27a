/**
 * The path helpers of both variants: `get_directory` (a `dirname` that
 * first strips trailing slashes) and `get_filename_from_url` (the text
 * after the last slash).
 */
module Paths {
  import opened CStrings

  predicate AllSlashes(s: Str) {
    forall i :: 0 <= i < |s| ==> s[i] == '/'
  }

  /** The path with its trailing slashes removed, never removing the first character. */
  function StripTrailingSlashes(p: Str): (r: Str)
    requires p != []
    ensures r != [] && r <= p
    decreases |p|
  {
    if |p| > 1 && p[|p| - 1] == '/' then StripTrailingSlashes(p[..|p| - 1]) else p
  }

  /** What `get_directory` returns for `path`. */
  function DirName(path: Str): (r: Str)
    ensures r != []
  {
    if path == [] then "."
    else
      var t := StripTrailingSlashes(path);
      match LastIndex(t, '/')
      case None => "."
      case Some(k) => if k == 0 then "/" else t[..k]
  }

  /** `get_directory`: the copy is truncated in place by writing NULs, here by shortening it. */
  method GetDirectory(path: Str) returns (dir: Str)
    ensures dir == DirName(path)
  {
    if |path| == 0 {
      return ".";
    }
    var temp := path;
    var end := |temp| - 1;
    while end > 0 && temp[end] == '/'
      invariant 0 <= end < |temp| && temp == path[..end + 1]
      invariant StripTrailingSlashes(temp) == StripTrailingSlashes(path)
      decreases end
    {
      assert temp[..end] == temp[..|temp| - 1];
      temp := temp[..end];
      end := end - 1;
    }
    var lastSlash := LastIndex(temp, '/');
    if lastSlash.None? {
      return ".";
    } else if lastSlash.value == 0 {
      temp := temp[..1];
    } else {
      temp := temp[..lastSlash.value];
    }
    dir := temp;
  }

  lemma {:induction false} StripKeepsHead(p: Str, q: Str)
    requires p != [] && AllSlashes(q)
    requires |p| == 1 || p[|p| - 1] != '/'
    ensures StripTrailingSlashes(p + q) == p
    decreases |q|
  {
    if q != [] {
      var pq := p + q;
      assert pq[..|pq| - 1] == p + q[..|q| - 1];
      StripKeepsHead(p, q[..|q| - 1]);
    }
  }

  /** Without any slash the directory is "." (the empty path included). */
  lemma NoSlashIsDot(path: Str)
    requires '/' !in path
    ensures DirName(path) == "."
  {
    if path != [] {
      var t := StripTrailingSlashes(path);
      assert forall k :: 0 <= k < |t| ==> t[k] == path[k];
    }
  }

  /** A path made of slashes only is the root. */
  lemma {:induction false} SlashesAreRoot(path: Str)
    requires path != [] && AllSlashes(path)
    ensures DirName(path) == "/"
  {
    StripKeepsHead(path[..1], path[1..]);
    assert path[..1] + path[1..] == path;
  }

  /** The directory of `base/name` is `base`: how the log and download directories are found. */
  lemma DirNameOfJoin(base: Str, name: Str)
    requires base != [] && name != [] && '/' !in name
    ensures DirName(base + "/" + name) == base
  {
    var p := base + "/" + name;
    StripKeepsHead(p, []);
    assert p + [] == p;
    assert p[|base|] == '/';
    assert forall k :: |base| < k < |p| ==> p[k] == name[k - |base| - 1];
    assert LastIndex(p, '/') == Some(|base|);
    assert p[..|base|] == base;
  }

  /**
   * Every result other than "." and "/" is a proper prefix of the input that
   * ends right before a slash, so it is never longer than the input; that
   * slash is the last one of the path once its trailing slashes are stripped.
   */
  lemma DirNameShape(path: Str)
    ensures var r := DirName(path);
      r == "." || r == "/" || (|r| < |path| && r == path[..|r|] && path[|r|] == '/')
    ensures var r := DirName(path);
      path != [] && r != "." && r != "/" ==>
        var t := StripTrailingSlashes(path);
        |r| < |t| && t[|r|] == '/' && '/' !in t[|r| + 1..]
  {
    if path != [] {
      var t := StripTrailingSlashes(path);
      match LastIndex(t, '/')
      case None =>
      case Some(k) =>
        if k > 0 {
          assert t[..k] == path[..k];
        }
    }
  }

  /** `get_filename_from_url`: the text after the last slash, absent when there is none or it is empty. */
  function FilenameFromUrl(url: Str): (r: Option<Str>)
    ensures r.Some? ==> r.value != [] && '/' !in r.value
    ensures r.Some? ==> exists k :: 0 <= k < |url| && url[k] == '/' && url[k + 1..] == r.value
    ensures r.None? <==> '/' !in url || url[|url| - 1] == '/'
  {
    match LastIndex(url, '/')
    case None => None
    case Some(k) =>
      if k + 1 == |url| then None
      else Some(url[k + 1..])
  }
}
