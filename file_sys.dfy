/**
 * The part of the file system the library touches, as an abstract map from
 * path to node: `stat`, `mkdir`, opening the log for appending and writing
 * a downloaded file. Paths that differ only in trailing slashes name the
 * same entry. These are the operating system's operations, which the
 * library calls; they are the environment of the model, not its subject.
 */
module FileSys {
  import opened CStrings
  import Paths

  const ENOENT := 2
  const EEXIST := 17
  const ENOTDIR := 20
  const EISDIR := 21
  /** `EXIT_SUCCESS` and `EXIT_FAILURE` of `<stdlib.h>`. */
  const EXIT_SUCCESS := 0
  const EXIT_FAILURE := 1
  /** `0640`, the mode both libraries create their log file with. */
  const LOG_FILE_MODE := 0x1A0

  datatype Node = Dir(mode: nat) | File(mode: nat, content: Str)

  type Entries = map<Str, Node>

  datatype StatResult = Found(node: Node) | Missing(errno: nat)

  /** The entry a path names: trailing slashes do not change it. */
  function Key(p: Str): Str {
    if p == [] then [] else Paths.StripTrailingSlashes(p)
  }

  /** Some proper ancestor of `p` is a regular file. */
  predicate UnderFile(fs: Entries, p: Str)
    decreases |p|
  {
    var d := Paths.DirName(p);
    |d| < |p| && ((Key(d) in fs && fs[Key(d)].File?) || UnderFile(fs, d))
  }

  /** `stat`: the node, or `ENOTDIR` below a regular file and `ENOENT` otherwise. */
  function Stat(fs: Entries, p: Str): StatResult {
    if p != [] && Key(p) in fs then Found(fs[Key(p)])
    else if p != [] && UnderFile(fs, p) then Missing(ENOTDIR)
    else Missing(ENOENT)
  }

  predicate IsDir(fs: Entries, p: Str) {
    Stat(fs, p).Found? && Stat(fs, p).node.Dir?
  }

  predicate IsFile(fs: Entries, p: Str) {
    Stat(fs, p).Found? && Stat(fs, p).node.File?
  }

  /** `mkdir`: a new empty directory in an existing directory. */
  function Mkdir(fs: Entries, p: Str, mode: nat): (bool, Entries) {
    if p != [] && Key(p) !in fs && IsDir(fs, Paths.DirName(p)) then (true, fs[Key(p) := Dir(mode)])
    else (false, fs)
  }

  /** `open(p, O_WRONLY | O_CREAT | O_APPEND, mode)`: an existing file, or a new empty one. */
  function OpenAppend(fs: Entries, p: Str, mode: nat): (bool, Entries) {
    if IsFile(fs, p) then (true, fs)
    else if p != [] && Key(p) !in fs && IsDir(fs, Paths.DirName(p)) then (true, fs[Key(p) := File(mode, [])])
    else (false, fs)
  }

  /** `write` on a descriptor opened for appending: the bytes go to the end of the file. */
  function Append(fs: Entries, p: Str, data: Str): Entries {
    if IsFile(fs, p) then fs[Key(p) := File(fs[Key(p)].mode, fs[Key(p)].content + data)] else fs
  }

  /** `fopen(p, "wb")`: the file, emptied, or a new one; a directory cannot be opened. */
  function OpenTruncate(fs: Entries, p: Str, mode: nat): (Option<nat>, Entries) {
    if IsFile(fs, p) then (None, fs[Key(p) := File(fs[Key(p)].mode, [])])
    else if IsDir(fs, p) then (Some(EISDIR), fs)
    else if p != [] && IsDir(fs, Paths.DirName(p)) then (None, fs[Key(p) := File(mode, [])])
    else (Some(if p != [] && UnderFile(fs, p) then ENOTDIR else ENOENT), fs)
  }

  /** The content of a regular file, empty for anything else. */
  function Content(fs: Entries, p: Str): Str {
    if IsFile(fs, p) then fs[Key(p)].content else []
  }

  /** Nothing is removed or changed, and what is added is a directory. */
  predicate AddsOnlyDirs(fs: Entries, fs': Entries) {
    (forall k :: k in fs ==> k in fs' && fs'[k] == fs[k]) &&
    (forall k :: k in fs' && k !in fs ==> fs'[k].Dir?)
  }

  lemma AddsOnlyDirsTrans(a: Entries, b: Entries, c: Entries)
    requires AddsOnlyDirs(a, b) && AddsOnlyDirs(b, c)
    ensures AddsOnlyDirs(a, c)
  {
  }

  /** What `stat` finds stays found, with the same node. */
  lemma StatKept(fs: Entries, fs': Entries, p: Str)
    requires AddsOnlyDirs(fs, fs') && Stat(fs, p).Found?
    ensures Stat(fs', p) == Stat(fs, p)
  {
  }

  /** A regular file after only directories were added was there before. */
  lemma FileKept(fs: Entries, fs': Entries, p: Str)
    requires AddsOnlyDirs(fs, fs') && IsFile(fs', p)
    ensures IsFile(fs, p)
  {
  }

  /** The file system the process runs in. */
  class FileSystem {
    var entries: Entries

    constructor (initial: Entries)
      ensures entries == initial
    {
      entries := initial;
    }

    function StatOf(p: Str): StatResult
      reads this
    {
      Stat(entries, p)
    }

    method MakeDir(p: Str, mode: nat) returns (r: int)
      modifies this
      ensures (r == 0, entries) == Mkdir(old(entries), p, mode)
      ensures r == 0 || r == -1
    {
      var ok;
      ok, entries := Mkdir(entries, p, mode).0, Mkdir(entries, p, mode).1;
      r := if ok then 0 else -1;
    }

    method OpenForAppend(p: Str, mode: nat) returns (ok: bool)
      modifies this
      ensures (ok, entries) == OpenAppend(old(entries), p, mode)
    {
      ok, entries := OpenAppend(entries, p, mode).0, OpenAppend(entries, p, mode).1;
    }

    method Write(p: Str, data: Str)
      modifies this
      ensures entries == Append(old(entries), p, data)
    {
      entries := Append(entries, p, data);
    }

    method OpenForWriting(p: Str, mode: nat) returns (err: Option<nat>)
      modifies this
      ensures (err, entries) == OpenTruncate(old(entries), p, mode)
    {
      err, entries := OpenTruncate(entries, p, mode).0, OpenTruncate(entries, p, mode).1;
    }
  }
}
