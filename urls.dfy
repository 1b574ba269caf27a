/**
 * Which paths the full library treats as remote (`starts_with`,
 * `starts_with_any` over `https://`, `http://`, `ftp://`) and where a
 * download is stored (the path composition in `download`).
 */
module Urls {
  import opened CStrings
  import Paths
  import ShellVars

  const URL_PREFIXES: seq<Str> := ["https://", "http://", "ftp://"]

  /** `strncmp(a, b, n) == 0` for strings holding at least `n` characters. */
  function SameFirst(a: Str, b: Str, n: nat): (r: bool)
    requires n <= |a| && n <= |b|
    ensures r <==> a[..n] == b[..n]
    decreases n
  {
    if n == 0 then true
    else a[0] == b[0] && SameFirst(a[1..], b[1..], n - 1)
  }

  /** `starts_with`: false for a string shorter than the prefix, else a comparison of the prefix's length. */
  function StartsWith(s: Str, prefix: Str): (r: bool)
    ensures r <==> prefix <= s
    ensures |s| < |prefix| ==> !r
  {
    if |s| < |prefix| then false else SameFirst(s, prefix, |prefix|)
  }

  /** The URL test: some prefix of the list starts the string. */
  predicate IsUrl(s: Str) {
    exists i :: 0 <= i < |URL_PREFIXES| && StartsWith(s, URL_PREFIXES[i])
  }

  /** `starts_with_any`: the prefixes tried in order until one matches. */
  method StartsWithAny(s: Str, prefixes: seq<Str>) returns (r: bool)
    ensures r <==> exists i :: 0 <= i < |prefixes| && prefixes[i] <= s
  {
    var i := 0;
    while i < |prefixes|
      invariant i <= |prefixes|
      invariant forall j :: 0 <= j < i ==> !(prefixes[j] <= s)
    {
      if StartsWith(s, prefixes[i]) {
        return true;
      }
      i := i + 1;
    }
    return false;
  }

  method IsRemote(path: Str) returns (r: bool)
    ensures r <==> IsUrl(path)
  {
    r := StartsWithAny(path, URL_PREFIXES);
  }

  /** A path is remote exactly when it starts with one of the three schemes. */
  lemma IsUrlIff(s: Str)
    ensures IsUrl(s) <==> "https://" <= s || "http://" <= s || "ftp://" <= s
  {
    if "https://" <= s {
      assert StartsWith(s, URL_PREFIXES[0]);
    } else if "http://" <= s {
      assert StartsWith(s, URL_PREFIXES[1]);
    } else if "ftp://" <= s {
      assert StartsWith(s, URL_PREFIXES[2]);
    }
  }

  /** Absolute and relative file paths are never remote. */
  lemma LocalPathsAreLocal(s: Str)
    requires s == [] || s[0] == '/' || s[0] == '.'
    ensures !IsUrl(s)
  {
    IsUrlIff(s);
  }

  /** A scheme without its `//`, or any string shorter than six characters, is not remote. */
  lemma ShortIsLocal(s: Str)
    requires |s| < 6 || s == "http:/" || s == "https:"
    ensures !IsUrl(s)
  {
    IsUrlIff(s);
  }

  // ---------------------------------------------------------------------
  // The download target.

  const DOWNLOAD_BASE_VAR := "VDI_DOWNLOAD_BASE"
  const USERNAME_ERROR := "USERNAME_ERROR"
  const DEFAULT_FILENAME := "default_filename"
  /** `snprintf(path, MAX_PATH_LEN-1, ...)` with `MAX_PATH_LEN` = `PATH_MAX`. */
  const BASE_BUFFER := 4095

  /** `VDI_DOWNLOAD_BASE` as set (not expanded), else `/tmp/<user>/vdi/downloads`. */
  function DownloadBase(env: ShellVars.Env, user: Option<Str>): Str {
    if DOWNLOAD_BASE_VAR in env then env[DOWNLOAD_BASE_VAR]
    else Truncate("/tmp/" + user.GetOr(USERNAME_ERROR) + "/vdi/downloads", BASE_BUFFER)
  }

  /** The name after the URL's last slash, else `<pid>.<epoch>.default_filename`. */
  function LocalFilename(url: Str, pid: int, epoch: int): Str {
    match Paths.FilenameFromUrl(url)
    case Some(name) => name
    case None => Decimal(pid) + "." + Decimal(epoch) + "." + DEFAULT_FILENAME
  }

  /** The three `strcat`s: base, `/`, file name. */
  function DownloadTarget(env: ShellVars.Env, user: Option<Str>, url: Str, pid: int, epoch: int): Str {
    DownloadBase(env, user) + "/" + LocalFilename(url, pid, epoch)
  }

  /** The local file name is never empty and never holds a slash. */
  lemma LocalFilenameShape(url: Str, pid: int, epoch: int)
    ensures var name := LocalFilename(url, pid, epoch);
      name != [] && '/' !in name
  {
    if Paths.FilenameFromUrl(url).None? {
      var name := Decimal(pid) + "." + Decimal(epoch) + "." + DEFAULT_FILENAME;
      assert forall k :: 0 <= k < |name| ==> name[k] != '/';
    }
  }

  /** The URL's own file name is used when it has one after its last slash. */
  lemma NamedUrl(base: Str, name: Str, pid: int, epoch: int)
    requires name != [] && '/' !in name
    ensures LocalFilename(base + "/" + name, pid, epoch) == name
  {
    var url := base + "/" + name;
    assert url[|base|] == '/';
    assert forall k :: |base| < k < |url| ==> url[k] == name[k - |base| - 1];
    assert LastIndex(url, '/') == Some(|base|);
    assert url[|base| + 1..] == name;
  }

  /**
   * The directory `download` makes sure of, `get_directory` of the target, is
   * the download base whenever the base is not empty.
   */
  lemma TargetDirectory(env: ShellVars.Env, user: Option<Str>, url: Str, pid: int, epoch: int)
    requires DownloadBase(env, user) != []
    ensures Paths.DirName(DownloadTarget(env, user, url, pid, epoch)) == DownloadBase(env, user)
  {
    LocalFilenameShape(url, pid, epoch);
    Paths.DirNameOfJoin(DownloadBase(env, user), LocalFilename(url, pid, epoch));
  }

  /** Without `VDI_DOWNLOAD_BASE` and with a known user the base is that user's directory under /tmp. */
  lemma DefaultBase(env: ShellVars.Env, user: Str)
    requires DOWNLOAD_BASE_VAR !in env && |user| < 4000
    ensures DownloadBase(env, Some(user)) == "/tmp/" + user + "/vdi/downloads"
    ensures DownloadBase(env, Some(user)) != []
  {
  }
}
