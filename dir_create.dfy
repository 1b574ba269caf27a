/**
 * The two `create_dir` functions. The full library's walks every `/` after
 * the first character, making each missing prefix (mode 0700) and then the
 * whole path, and fails at the first prefix that exists but is not a
 * directory. The logger's handles one level only: an existing directory is
 * success, an existing non-directory failure, and `mkdir` (mode 0755) is
 * tried only when `stat` failed with `ENOENT`.
 */
module DirCreate {
  import opened CStrings
  import opened FileSys
  import Paths

  /** `char temp_path[MAX_PATH_LEN]` (`PATH_MAX`). */
  const PATH_MAX := 4096

  // ---------------------------------------------------------------------
  // create_dir of the full library (recursive).

  /** One prefix: fine if it is a directory, made if `stat` finds nothing. */
  function EnsureDir(fs: Entries, p: Str): (bool, Entries) {
    match Stat(fs, p)
    case Found(n) => (n.Dir?, fs)
    case Missing(_) => Mkdir(fs, p, 0x1C0)
  }

  /** The loop from the slash search at `from` on, then the whole path. */
  function WalkFrom(fs: Entries, t: Str, from: nat): (bool, Entries)
    requires from <= |t|
    decreases |t| - from
  {
    match IndexFrom(t, from, '/')
    case Some(k) =>
      var (ok, fs1) := EnsureDir(fs, t[..k]);
      if !ok then (false, fs1) else WalkFrom(fs1, t, k + 1)
    case None => EnsureDir(fs, t)
  }

  /** The path as `strncpy` leaves it in the buffer. */
  function Copied(path: Str): Str {
    Truncate(path, PATH_MAX)
  }

  /** Where the search for slashes starts: one past the first character. */
  function FirstFrom(t: Str): nat {
    if t == [] then 0 else 1
  }

  function CreateDirTree(fs: Entries, path: Str): (int, Entries) {
    var t := Copied(path);
    var (ok, fs') := WalkFrom(fs, t, FirstFrom(t));
    (if ok then 0 else -1, fs')
  }

  method CreateDir(fsys: FileSystem, pathname: Str) returns (r: int)
    modifies fsys
    ensures (r, fsys.entries) == CreateDirTree(old(fsys.entries), pathname)
  {
    var temp := Truncate(pathname, PATH_MAX);
    var from := FirstFrom(temp);
    var p := IndexFrom(temp, from, '/');
    while p.Some?
      invariant from <= |temp| && p == IndexFrom(temp, from, '/')
      invariant WalkFrom(fsys.entries, temp, from) == WalkFrom(old(fsys.entries), temp, FirstFrom(temp))
      decreases |temp| - from
    {
      var ok := MakeIfMissing(fsys, temp[..p.value]);
      if !ok {
        return -1;
      }
      from := p.value + 1;
      p := IndexFrom(temp, from, '/');
    }
    var ok := MakeIfMissing(fsys, temp);
    return if ok then 0 else -1;
  }

  /** The `stat`, then `mkdir` when nothing is there, of one prefix; `ENOTDIR` when a non-directory is. */
  method MakeIfMissing(fsys: FileSystem, p: Str) returns (ok: bool)
    modifies fsys
    ensures (ok, fsys.entries) == EnsureDir(old(fsys.entries), p)
  {
    var st := fsys.StatOf(p);
    if st.Missing? {
      var made := fsys.MakeDir(p, 0x1C0);
      return made == 0;
    }
    // errno = ENOTDIR when this is false
    return st.node.Dir?;
  }

  /** The slash positions the loop visits: every `/` after the first character. */
  predicate Visited(t: Str, k: nat) {
    1 <= k < |t| && t[k] == '/'
  }

  lemma EnsureDirGrows(fs: Entries, p: Str)
    ensures AddsOnlyDirs(fs, EnsureDir(fs, p).1)
    ensures EnsureDir(fs, p).0 ==> IsDir(EnsureDir(fs, p).1, p)
  {
  }

  lemma {:induction false} WalkGrows(fs: Entries, t: Str, from: nat)
    requires from <= |t|
    ensures AddsOnlyDirs(fs, WalkFrom(fs, t, from).1)
    decreases |t| - from
  {
    EnsureDirGrows(fs, t);
    match IndexFrom(t, from, '/')
    case Some(k) =>
      EnsureDirGrows(fs, t[..k]);
      var (ok, fs1) := EnsureDir(fs, t[..k]);
      if ok {
        WalkGrows(fs1, t, k + 1);
        AddsOnlyDirsTrans(fs, fs1, WalkFrom(fs1, t, k + 1).1);
      }
    case None =>
  }

  /** `create_dir` never removes or changes an entry, and adds only directories. */
  lemma CreateDirAddsOnlyDirs(fs: Entries, path: Str)
    ensures AddsOnlyDirs(fs, CreateDirTree(fs, path).1)
  {
    WalkGrows(fs, Copied(path), FirstFrom(Copied(path)));
  }

  lemma {:induction false} WalkSuccess(fs: Entries, t: Str, from: nat)
    requires from <= |t| && WalkFrom(fs, t, from).0
    ensures IsDir(WalkFrom(fs, t, from).1, t)
    ensures forall k :: from <= k < |t| && t[k] == '/' ==> IsDir(WalkFrom(fs, t, from).1, t[..k])
    decreases |t| - from
  {
    IndexFromFirst(t, from, '/');
    match IndexFrom(t, from, '/')
    case Some(k) =>
      var fs1 := EnsureDir(fs, t[..k]).1;
      var fs' := WalkFrom(fs1, t, k + 1).1;
      EnsureDirGrows(fs, t[..k]);
      WalkSuccess(fs1, t, k + 1);
      WalkGrows(fs1, t, k + 1);
      StatKept(fs1, fs', t[..k]);
      forall j | from <= j < |t| && t[j] == '/' ensures IsDir(fs', t[..j]) {
        if j != k {
          assert k + 1 <= j;
        }
      }
    case None =>
      EnsureDirGrows(fs, t);
  }

  /** On success the whole path and every prefix ending before a visited slash are directories. */
  lemma CreateDirSuccess(fs: Entries, path: Str)
    requires CreateDirTree(fs, path).0 == 0
    ensures var (t, fs') := (Copied(path), CreateDirTree(fs, path).1);
      IsDir(fs', t) && forall k: nat :: Visited(t, k) ==> IsDir(fs', t[..k])
  {
    var t := Copied(path);
    WalkSuccess(fs, t, FirstFrom(t));
  }

  lemma {:induction false} WalkOverDirs(fs: Entries, t: Str, from: nat)
    requires from <= |t| && IsDir(fs, t)
    requires forall k :: from <= k < |t| && t[k] == '/' ==> IsDir(fs, t[..k])
    ensures WalkFrom(fs, t, from) == (true, fs)
    decreases |t| - from
  {
    match IndexFrom(t, from, '/')
    case Some(k) =>
      WalkOverDirs(fs, t, k + 1);
    case None =>
  }

  /** A second call after a successful one succeeds and changes nothing. */
  lemma CreateDirIdempotent(fs: Entries, path: Str)
    requires CreateDirTree(fs, path).0 == 0
    ensures CreateDirTree(CreateDirTree(fs, path).1, path) == (0, CreateDirTree(fs, path).1)
  {
    var t := Copied(path);
    var fs' := CreateDirTree(fs, path).1;
    CreateDirSuccess(fs, path);
    WalkOverDirs(fs', t, FirstFrom(t));
  }

  lemma {:induction false} WalkBlocked(fs: Entries, t: Str, from: nat, j: nat)
    requires from <= j <= |t|
    requires j < |t| ==> t[j] == '/'
    requires IsFile(fs, t[..j])
    ensures !WalkFrom(fs, t, from).0
    decreases |t| - from
  {
    assert j == |t| ==> t[..j] == t;
    IndexFromFirst(t, from, '/');
    match IndexFrom(t, from, '/')
    case Some(k) =>
      var (ok, fs1) := EnsureDir(fs, t[..k]);
      if ok {
        assert k != j;
        assert k < j;
        EnsureDirGrows(fs, t[..k]);
        StatKept(fs, fs1, t[..j]);
        WalkBlocked(fs1, t, k + 1, j);
      }
    case None =>
      assert j == |t|;
  }

  /** `EnsureDir` adds no entry but the one its path names. */
  lemma EnsureDirAddsAtMost(fs: Entries, p: Str)
    ensures forall key :: key in EnsureDir(fs, p).1 && key !in fs ==> key == Key(p)
  {
  }

  lemma {:induction false} WalkBlockedMakes(fs: Entries, t: Str, from: nat, j: nat)
    requires from <= j <= |t|
    requires j < |t| ==> t[j] == '/'
    requires IsFile(fs, t[..j])
    ensures forall key :: key in WalkFrom(fs, t, from).1 && key !in fs ==>
      exists i :: from <= i < j && t[i] == '/' && key == Key(t[..i])
    decreases |t| - from
  {
    assert j == |t| ==> t[..j] == t;
    IndexFromFirst(t, from, '/');
    match IndexFrom(t, from, '/')
    case Some(k) =>
      var (ok, fs1) := EnsureDir(fs, t[..k]);
      if k != j {
        assert k < j;
        EnsureDirAddsAtMost(fs, t[..k]);
        var fs' := WalkFrom(fs, t, from).1;
        if ok {
          EnsureDirGrows(fs, t[..k]);
          StatKept(fs, fs1, t[..j]);
          WalkBlockedMakes(fs1, t, k + 1, j);
        }
        forall key | key in fs' && key !in fs
          ensures exists i :: from <= i < j && t[i] == '/' && key == Key(t[..i])
        {
          if key in fs1 {
            assert from <= k < j && t[k] == '/' && key == Key(t[..k]);
          }
        }
      }
    case None =>
      assert j == |t|;
  }

  /**
   * A visited prefix, or the path itself, that is a regular file makes
   * `create_dir` fail, and the walk stops there: every directory it made
   * is a prefix before that one.
   */
  lemma CreateDirBlockedByFile(fs: Entries, path: Str, j: nat)
    requires var t := Copied(path); (Visited(t, j) || j == |t|) && IsFile(fs, t[..j])
    ensures CreateDirTree(fs, path).0 == -1
    ensures var (t, fs') := (Copied(path), CreateDirTree(fs, path).1);
      forall key :: key in fs' && key !in fs ==> exists i: nat :: Visited(t, i) && i < j && key == Key(t[..i])
  {
    var t := Copied(path);
    var fs' := CreateDirTree(fs, path).1;
    WalkBlocked(fs, t, FirstFrom(t), j);
    WalkBlockedMakes(fs, t, FirstFrom(t), j);
    forall key | key in fs' && key !in fs
      ensures exists i: nat :: Visited(t, i) && i < j && key == Key(t[..i])
    {
      var i :| FirstFrom(t) <= i < j && t[i] == '/' && key == Key(t[..i]);
      assert Visited(t, i);
    }
  }

  /** The parent of the first prefix: the root for an absolute path, else the working directory. */
  function Root(path: Str): Str
    requires path != []
  {
    if path[0] == '/' then "/" else "."
  }

  /** The parent `mkdir` needs for the prefix ending at `k` is the root or a prefix before an earlier slash. */
  lemma DirNameOfPrefix(t: Str, k: nat)
    requires 1 <= k <= |t|
    ensures Paths.DirName(t[..k]) == Root(t) ||
      exists m :: 1 <= m < k && t[m] == '/' && Paths.DirName(t[..k]) == t[..m]
  {
    var p := t[..k];
    var s := Paths.StripTrailingSlashes(p);
    assert s == p[..|s|];
    assert s[0] == t[0];
    match LastIndex(s, '/')
    case None =>
      assert s[0] in s;
    case Some(m) =>
      if m > 0 {
        assert s[..m] == t[..m] && s[m] == t[m];
      }
  }

  /** A prefix that is not a regular file, under a directory, is made or found. */
  lemma EnsureDirSucceeds(fs: Entries, p: Str)
    requires p != [] && !IsFile(fs, p) && IsDir(fs, Paths.DirName(p))
    ensures EnsureDir(fs, p).0
  {
  }

  /** With the root and every earlier visited prefix directories, the prefix ending at `k` is made or found. */
  lemma PrefixReady(fs: Entries, t: Str, k: nat)
    requires 1 <= k <= |t| && IsDir(fs, Root(t)) && !IsFile(fs, t[..k])
    requires forall i :: 1 <= i < k && t[i] == '/' ==> IsDir(fs, t[..i])
    ensures EnsureDir(fs, t[..k]).0
  {
    DirNameOfPrefix(t, k);
    EnsureDirSucceeds(fs, t[..k]);
  }

  lemma {:induction false} WalkSucceeds(fs: Entries, t: Str, from: nat)
    requires t != [] && 1 <= from <= |t| && IsDir(fs, Root(t)) && !IsFile(fs, t)
    requires forall i :: 1 <= i < from && t[i] == '/' ==> IsDir(fs, t[..i])
    requires forall i :: from <= i < |t| && t[i] == '/' ==> !IsFile(fs, t[..i])
    ensures WalkFrom(fs, t, from).0
    decreases |t| - from
  {
    IndexFromFirst(t, from, '/');
    match IndexFrom(t, from, '/')
    case Some(k) =>
      PrefixReady(fs, t, k);
      var fs1 := EnsureDir(fs, t[..k]).1;
      EnsureDirGrows(fs, t[..k]);
      StatKept(fs, fs1, Root(t));
      forall i | 1 <= i < k + 1 && t[i] == '/' ensures IsDir(fs1, t[..i]) {
        if i < k {
          StatKept(fs, fs1, t[..i]);
        }
      }
      forall i | k + 1 <= i < |t| && t[i] == '/' ensures !IsFile(fs1, t[..i]) {
        if IsFile(fs1, t[..i]) {
          FileKept(fs, fs1, t[..i]);
        }
      }
      if IsFile(fs1, t) {
        FileKept(fs, fs1, t);
      }
      WalkSucceeds(fs1, t, k + 1);
    case None =>
      assert t[..|t|] == t;
      PrefixReady(fs, t, |t|);
  }

  /**
   * The converse of `CreateDirBlockedByFile`: with the root (or the working
   * directory) a directory, and neither a visited prefix nor the path a
   * regular file, `create_dir` succeeds.
   */
  lemma CreateDirSucceeds(fs: Entries, path: Str)
    requires path != [] && IsDir(fs, Root(path))
    requires var t := Copied(path); !IsFile(fs, t) && forall k: nat :: Visited(t, k) ==> !IsFile(fs, t[..k])
    ensures CreateDirTree(fs, path).0 == 0
  {
    var t := Copied(path);
    assert t != [] && t[0] == path[0];
    WalkSucceeds(fs, t, 1);
  }

  // ---------------------------------------------------------------------
  // create_dir of the logger (one level).

  function CreateDirOneLevel(fs: Entries, p: Str): (int, Entries) {
    match Stat(fs, p)
    case Found(n) => (if n.Dir? then EXIT_SUCCESS else EXIT_FAILURE, fs)
    case Missing(errno) =>
      if errno == ENOENT then
        var (ok, fs') := Mkdir(fs, p, 0x1ED);
        (if ok then EXIT_SUCCESS else EXIT_FAILURE, fs')
      else (EXIT_FAILURE, fs)
  }

  method CreateDirSingle(fsys: FileSystem, pathname: Str) returns (r: int)
    modifies fsys
    ensures (r, fsys.entries) == CreateDirOneLevel(old(fsys.entries), pathname)
  {
    var st := fsys.StatOf(pathname);
    if st.Found? {
      return if st.node.Dir? then EXIT_SUCCESS else EXIT_FAILURE;
    }
    if st.errno == ENOENT {
      var made := fsys.MakeDir(pathname, 0x1ED);
      return if made == 0 then EXIT_SUCCESS else EXIT_FAILURE;
    }
    return EXIT_FAILURE;
  }

  /**
   * Success exactly when the path is a directory afterwards; at most one
   * directory is made, and only where `stat` reported `ENOENT`.
   */
  lemma OneLevelMeaning(fs: Entries, p: Str)
    ensures var (r, fs') := CreateDirOneLevel(fs, p);
      (r == EXIT_SUCCESS <==> IsDir(fs', p)) &&
      (r == EXIT_SUCCESS || r == EXIT_FAILURE) &&
      (fs' == fs || (Stat(fs, p) == Missing(ENOENT) && fs' == fs[Key(p) := Dir(0x1ED)]))
  {
  }

  /** A second call after a successful one succeeds and changes nothing. */
  lemma OneLevelIdempotent(fs: Entries, p: Str)
    requires CreateDirOneLevel(fs, p).0 == EXIT_SUCCESS
    ensures CreateDirOneLevel(CreateDirOneLevel(fs, p).1, p) == (EXIT_SUCCESS, CreateDirOneLevel(fs, p).1)
  {
    OneLevelMeaning(fs, p);
  }

  /** Only the last level is made: a missing parent is not created. */
  lemma OneLevelNeedsParent(fs: Entries, p: Str)
    requires !IsDir(fs, Paths.DirName(p)) && !IsDir(fs, p)
    ensures CreateDirOneLevel(fs, p) == (EXIT_FAILURE, fs)
  {
  }
}
