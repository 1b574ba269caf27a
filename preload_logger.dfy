/**
 * The logging-only library (`vdi_logger.so`) as process state: the two
 * lazily resolved pointers `actual_open` and `actual_write`, the
 * show-log-path flag, what it printed, and the file system. Each of its
 * four wrappers logs the call name and arguments and then forwards the
 * call, unchanged, to the function `dlsym` gives it on that call.
 */
module PreloadLogger {
  import opened CStrings
  import opened FileSys
  import opened OpenFlags
  import opened Symbols
  import opened Calls
  import ShellVars
  import Paths
  import DirCreate
  import LogPath
  import LogFormat

  const OPEN_NAME := "open"
  const WRITE_NAME := "write"

  /**
   * What one call finds: the `O_*` values, the environment and the pid, as
   * that call reads them. The library reads them afresh on every call, so
   * each call of the class below is given its own.
   */
  datatype Setting = Setting(k: Constants, env: ShellVars.Env, pid: int)

  function LogPathOf(s: Setting): Str {
    LogPath.LogPathOf(LogPath.Logger, s.env, s.pid)
  }

  /** The line printed to standard output on the first call. */
  function Banner(path: Str): Str {
    "vdi_logger.so: using log file '" + path + "'\n"
  }

  // ---------------------------------------------------------------------
  // The show-once flag.

  /** One `log_call` on the flag and the printed lines. */
  function ShowStep(show: bool, printed: seq<Str>, path: Str): (bool, seq<Str>) {
    if show then (false, printed + [Banner(path)]) else (show, printed)
  }

  /** A run of `log_call`s with the log paths they computed. */
  function ShowRun(show: bool, printed: seq<Str>, paths: seq<Str>): (bool, seq<Str>)
    decreases |paths|
  {
    if paths == [] then (show, printed)
    else
      var (show1, printed1) := ShowStep(show, printed, paths[0]);
      ShowRun(show1, printed1, paths[1..])
  }

  /** From the initial state, any run of one call or more prints the banner once, for the first call's path, and clears the flag. */
  lemma ShowOnce(paths: seq<Str>)
    requires paths != []
    ensures ShowRun(true, [], paths) == (false, [Banner(paths[0])])
  {
    assert [] + [Banner(paths[0])] == [Banner(paths[0])];
    QuietAfter([Banner(paths[0])], paths[1..]);
  }

  lemma {:induction false} QuietAfter(printed: seq<Str>, paths: seq<Str>)
    ensures ShowRun(false, printed, paths) == (false, printed)
    decreases |paths|
  {
    if paths != [] {
      QuietAfter(printed, paths[1..]);
    }
  }

  // ---------------------------------------------------------------------
  // log_call.

  /**
   * The outcome of `log_call`: its result, the file system after it, and
   * whether it got as far as resolving `actual_write`.
   */
  function LogCallSpec(s: Setting, fs: Entries, func: Str, args: seq<Str>): (int, Entries, bool) {
    var path := LogPathOf(s);
    var (made, fs1) := DirCreate.CreateDirOneLevel(fs, Paths.DirName(path));
    if made != EXIT_SUCCESS then (EXIT_FAILURE, fs1, false)
    else
      var (isOpen, fs2) := OpenAppend(fs1, path, LOG_FILE_MODE);
      if !isOpen then (EXIT_FAILURE, fs2, false)
      else (EXIT_SUCCESS, Append(fs2, path, LogFormat.CallLine(func, args)), true)
  }

  /** The pointers after `log_call`: `actual_open` looked up first, `actual_write` only once the line is ready. */
  function SlotsAfter(slots: Slots, linker: map<Str, Addr>, reachedWrite: bool): Slots {
    var s1 := Resolve(slots, linker, OPEN_NAME);
    if reachedWrite then Resolve(s1, linker, WRITE_NAME) else s1
  }

  /**
   * A successful `log_call` appends exactly the call line to the log; a
   * failed one writes nothing, and changes at most the one directory the
   * single-level `create_dir` makes.
   */
  lemma LogCallAppends(s: Setting, fs: Entries, func: Str, args: seq<Str>)
    ensures var (r, fs', wrote) := LogCallSpec(s, fs, func, args);
      (r == EXIT_SUCCESS || r == EXIT_FAILURE) && (wrote <==> r == EXIT_SUCCESS) &&
      (r == EXIT_SUCCESS ==>
        IsFile(fs', LogPathOf(s)) &&
        Content(fs', LogPathOf(s)) == Content(fs, LogPathOf(s)) + LogFormat.CallLine(func, args)) &&
      (r == EXIT_FAILURE ==> fs' == DirCreate.CreateDirOneLevel(fs, Paths.DirName(LogPathOf(s))).1)
  {
    var path := LogPathOf(s);
    var dir := Paths.DirName(path);
    var fs1 := DirCreate.CreateDirOneLevel(fs, dir).1;
    KeptFile(fs, dir, path);
    AppendOpened(fs1, path, LogFormat.CallLine(func, args));
  }

  /** Opening for appending and writing adds the data after what the file held. */
  lemma AppendOpened(fs: Entries, path: Str, data: Str)
    ensures var (isOpen, fs1) := OpenAppend(fs, path, LOG_FILE_MODE);
      isOpen ==> IsFile(Append(fs1, path, data), path) && Content(Append(fs1, path, data), path) == Content(fs, path) + data
    ensures !OpenAppend(fs, path, LOG_FILE_MODE).0 ==> OpenAppend(fs, path, LOG_FILE_MODE).1 == fs
  {
  }

  /** The single-level `create_dir` leaves every regular file as it was. */
  lemma KeptFile(fs: Entries, dir: Str, p: Str)
    ensures var fs' := DirCreate.CreateDirOneLevel(fs, dir).1;
      (IsFile(fs', p) <==> IsFile(fs, p)) && Content(fs', p) == Content(fs, p)
  {
    var fs' := DirCreate.CreateDirOneLevel(fs, dir).1;
    if Stat(fs, dir) == Missing(ENOENT) {
      var (ok, fs1) := Mkdir(fs, dir, 0x1ED);
      assert AddsOnlyDirs(fs, fs1);
      assert fs' == fs1;
      if IsFile(fs, p) {
        StatKept(fs, fs1, p);
      }
    }
  }

  /** The logger makes only the last level: with the log directory's parent missing, it fails and changes nothing. */
  lemma MissingParentFails(s: Setting, fs: Entries, func: Str, args: seq<Str>)
    requires !IsDir(fs, Paths.DirName(Paths.DirName(LogPathOf(s)))) && !IsDir(fs, Paths.DirName(LogPathOf(s)))
    ensures LogCallSpec(s, fs, func, args) == (EXIT_FAILURE, fs, false)
  {
    DirCreate.OneLevelNeedsParent(fs, Paths.DirName(LogPathOf(s)));
  }

  /** `actual_open` and `actual_write`, once set, are never looked up again; a NULL one is looked up at most once per call. */
  lemma PointersSettle(slots: Slots, linker: map<Str, Addr>, reachedWrite: bool)
    ensures var s' := SlotsAfter(slots, linker, reachedWrite);
      Slot(s', OPEN_NAME) == (if Slot(slots, OPEN_NAME) != NULL then Slot(slots, OPEN_NAME) else Next(linker, OPEN_NAME)) &&
      Slot(s', WRITE_NAME) == (if Slot(slots, WRITE_NAME) != NULL || !reachedWrite then Slot(slots, WRITE_NAME) else Next(linker, WRITE_NAME)) &&
      forall n :: n != OPEN_NAME && n != WRITE_NAME ==> Slot(s', n) == Slot(slots, n)
  {
  }

  /** With both pointers set, a call leaves them as they are. */
  lemma SettledStaysSettled(slots: Slots, linker: map<Str, Addr>, reachedWrite: bool)
    requires Slot(slots, OPEN_NAME) != NULL && Slot(slots, WRITE_NAME) != NULL
    ensures SlotsAfter(slots, linker, reachedWrite) == slots
  {
    SetIsKept(slots, linker, OPEN_NAME);
    SetIsKept(slots, linker, WRITE_NAME);
  }

  // ---------------------------------------------------------------------
  // The wrappers.

  /** The four calls this library wraps. */
  predicate Wrapped(c: Call) {
    c.Open? || c.Open64? || c.OpenAt? || c.Fopen?
  }

  /**
   * The call the wrapper makes: the function `dlsym` returns for its name
   * on this call, with the arguments as given.
   */
  function ForwardOf(linker: map<Str, Addr>, k: Constants, c: Call): (Addr, seq<Value>) {
    (Next(linker, c.Name()), Forwarded(k, c))
  }

  /**
   * Whatever `log_call` returns, the call is forwarded with its own path;
   * `open` passes the mode exactly when it logged it, as does `openat`.
   */
  lemma AlwaysForwarded(linker: map<Str, Addr>, k: Constants, c: Call)
    requires Wrapped(c)
    ensures ForwardOf(linker, k, c).1[PathIndex(c)] == Text(c.path)
    ensures |ForwardOf(linker, k, c).1| == |LoggedArgs(k, c)|
    ensures c.Open? ==> (|ForwardOf(linker, k, c).1| == 3 <==> Creates(k, c.flags))
    ensures c.OpenAt? ==> (|ForwardOf(linker, k, c).1| == 4 <==> Creates(k, c.flags))
  {
    LoggedMatchesForwarded(k, c);
    ArgumentCounts(k, c);
  }

  // ---------------------------------------------------------------------
  // The library in a process.

  class Library {
    const linker: map<Str, Addr>
    const fsys: FileSystem
    var slots: Slots
    var showLogPath: bool
    var printed: seq<Str>

    constructor (linker: map<Str, Addr>, fsys: FileSystem)
      ensures this.linker == linker && this.fsys == fsys
      ensures slots == map[] && showLogPath && printed == []
    {
      this.linker := linker;
      this.fsys := fsys;
      slots := map[];
      showLogPath := true;
      printed := [];
    }

    method LogCall(setting: Setting, func: Str, args: seq<Str>) returns (r: int)
      requires LogPath.ExpansionsFit(LogPath.Logger, setting.env)
      modifies this, fsys
      ensures r == LogCallSpec(setting, old(fsys.entries), func, args).0
      ensures fsys.entries == LogCallSpec(setting, old(fsys.entries), func, args).1
      ensures slots == SlotsAfter(old(slots), linker, LogCallSpec(setting, old(fsys.entries), func, args).2)
      ensures (showLogPath, printed) == ShowStep(old(showLogPath), old(printed), LogPathOf(setting))
    {
      ResolveSlot(OPEN_NAME);
      var logPath := ShowLogPath(setting);
      var wrote;
      r, wrote := AppendLine(setting, logPath, func, args);
      if wrote {
        ResolveSlot(WRITE_NAME);
      }
    }

    /** The log path, printed on the first call only. */
    method ShowLogPath(setting: Setting) returns (logPath: Str)
      requires LogPath.ExpansionsFit(LogPath.Logger, setting.env)
      modifies this
      ensures logPath == LogPathOf(setting) && slots == old(slots)
      ensures (showLogPath, printed) == ShowStep(old(showLogPath), old(printed), logPath)
    {
      logPath := LogPath.GetLogPath(LogPath.Logger, setting.env, setting.pid);
      if showLogPath {
        printed := printed + [Banner(logPath)];
        showLogPath := false;
      }
    }

    /** `if (actual_x == NULL) actual_x = dlsym(RTLD_NEXT, "x");` */
    method ResolveSlot(name: Str)
      modifies this
      ensures slots == Resolve(old(slots), linker, name)
      ensures showLogPath == old(showLogPath) && printed == old(printed)
    {
      if Slot(slots, name) == NULL {
        slots := slots[name := Next(linker, name)];
      }
    }

    /** From `get_directory` on: the directory, the open, the line and the write. */
    method AppendLine(setting: Setting, logPath: Str, func: Str, args: seq<Str>) returns (r: int, wrote: bool)
      requires logPath == LogPathOf(setting)
      modifies fsys
      ensures (r, fsys.entries, wrote) == LogCallSpec(setting, old(fsys.entries), func, args)
    {
      var logDir := Paths.GetDirectory(logPath);
      var made := DirCreate.CreateDirSingle(fsys, logDir);
      if made != EXIT_SUCCESS {
        return EXIT_FAILURE, false;
      }
      var isOpen := fsys.OpenForAppend(logPath, LOG_FILE_MODE);
      if !isOpen {
        return EXIT_FAILURE, false;
      }
      var line, _ := LogFormat.BuildCallLine(func, args);
      fsys.Write(logPath, line);
      return EXIT_SUCCESS, true;
    }

    /** One wrapped call: log it, ignore how logging went, forward it unchanged. */
    method Intercept(setting: Setting, c: Call) returns (addr: Addr, args: seq<Value>)
      requires Wrapped(c) && LogPath.ExpansionsFit(LogPath.Logger, setting.env)
      modifies this, fsys
      ensures (addr, args) == ForwardOf(linker, setting.k, c)
      ensures fsys.entries == LogCallSpec(setting, old(fsys.entries), c.Name(), LoggedArgs(setting.k, c)).1
      ensures slots == SlotsAfter(old(slots), linker, LogCallSpec(setting, old(fsys.entries), c.Name(), LoggedArgs(setting.k, c)).2)
      ensures (showLogPath, printed) == ShowStep(old(showLogPath), old(printed), LogPathOf(setting))
    {
      var logged := LogArgs(setting.k, c);
      var _ := LogCall(setting, c.Name(), logged);
      addr := Next(linker, c.Name());
      args := Forwarded(setting.k, c);
    }
  }
}
