/**
 * The full library (`vdi.so`) as process state: the `actual_*` pointers the
 * load-time constructor resolves, the show-log-path flag, `errno`, and the
 * file system. `log_call` appends one context line per intercepted call;
 * a call on a URL is first downloaded and then redirected to the local copy.
 * What the process learns from the operating system (ids, clocks, host
 * lookups, `/proc` files, the user record) is the `Process` input, and the
 * outcome of the curl transfer is an input of each call.
 */
module Wrapper {
  import opened CStrings
  import opened FileSys
  import opened OpenFlags
  import opened Symbols
  import opened Calls
  import ShellVars
  import Paths
  import Urls
  import DirCreate
  import LogPath
  import LogFormat
  import HostInfo
  import Cmdline
  import ProcStat

  /** `0666`, what `fopen(..., "wb")` creates a file with. */
  const DOWNLOAD_FILE_MODE := 0x1B6
  /** `MAX_STRING_LEN - 1`, the size given to `snprintf` for the columns. */
  const STRING_SIZE := 1023
  /** `MAX_PATH_LEN`, the size of the download target buffer. */
  const PATH_SIZE := 4096

  const UTC_ERROR := "UTC_ERROR"
  const READLINK_ERROR := "READLINK_ERROR"
  const GETCWD_ERROR := "GETCWD_ERROR"
  const USERNAME_ERROR := "USERNAME_ERROR"
  const USERHOME_ERROR := "USERHOME_ERROR"
  const PROGRAM_START_TIME_ERROR := "PROGRAM_START_TIME_ERROR"
  const PROGRAM_ELAPSED_TIME_ERROR := "PROGRAM_ELAPSED_TIME_ERROR"
  const STARTTIME_SEPARATOR := "%%"

  /** The pointers the constructor resolves, in its order. */
  const REAL_FUNCTIONS: seq<Str> :=
    ["fclose", "fopen64", "fopenat", "fopen", "freopen", "fwrite", "write", "open64", "openat", "open"]

  /** The password record: user name and home directory. */
  datatype Account = Account(name: Str, home: Str)

  /**
   * What the process is told by the system. `None` is a failed call. `now`
   * is `time(NULL)` and `utc` its `strftime` rendering; `downloadNow` is
   * the later `time(NULL)` that `download` takes for a default file name;
   * `startEpoch` and `startUtc` are what the start ticks convert to;
   * `bootMicros` is the `CLOCK_BOOTTIME` reading in microseconds.
   */
  datatype Process = Process(
    pid: int, ppid: int, pgid: int,
    now: int, utc: Option<Str>, downloadNow: int,
    net: HostInfo.Network,
    account: Option<Account>,
    exe: Option<Str>,
    cmdline: Option<Str>,
    stat: Option<Str>,
    startEpoch: int, startUtc: Str,
    ticksPerSecond: nat, bootMicros: Option<int>,
    cwd: Option<Str>)

  /** The stat scan ends (field 22 is followed by a space, or the scan stops earlier) and the clock rate is positive. */
  predicate Valid(p: Process) {
    (p.stat.Some? ==> ProcStat.ScanFrom(ProcStat.CString(p.stat.value[..ProcStat.ReadLength(|p.stat.value|)]), 0, 0) != ProcStat.Hangs) &&
    p.ticksPerSecond > 0
  }

  /** C division, which truncates toward zero. */
  function CDiv(a: int, b: int): int
    requires b > 0
  {
    if a >= 0 then a / b else -((-a) / b)
  }

  // ---------------------------------------------------------------------
  // The context columns.

  function TimeColumn(now: int, utc: Option<Str>): Str {
    Truncate(Decimal(now) + "::" + (if now == -1 then UTC_ERROR else utc.GetOr(UTC_ERROR)), STRING_SIZE)
  }

  function IdsColumn(pid: int, ppid: int, pgid: int): Str {
    Truncate(Decimal(pid) + LogFormat.COLUMN_SEPARATOR + Decimal(ppid) + LogFormat.COLUMN_SEPARATOR + Decimal(pgid), STRING_SIZE)
  }

  /** `readlink` into a `MAX_PATH_LEN` buffer, leaving room for the terminator. */
  function ExeColumn(exe: Option<Str>): Str {
    match exe
    case None => READLINK_ERROR
    case Some(target) => Truncate(target, PATH_SIZE)
  }

  function StartColumn(p: Process, ticks: int): Str {
    if ticks == -1 then PROGRAM_START_TIME_ERROR
    else Truncate(Decimal(p.startEpoch) + STARTTIME_SEPARATOR + p.startUtc, STRING_SIZE)
  }

  function ElapsedColumn(p: Process, ticks: int): Str
    requires p.ticksPerSecond > 0
  {
    if ticks == -1 || p.bootMicros.None? then PROGRAM_ELAPSED_TIME_ERROR
    else Truncate(Decimal(p.bootMicros.value - CDiv(ticks * 1000000, p.ticksPerSecond)), STRING_SIZE)
  }

  function ContextOf(p: Process): LogFormat.Context
    requires Valid(p)
  {
    var ticks := ProcStat.StartTime(p.stat);
    LogFormat.Context(
      TimeColumn(p.now, p.utc),
      HostInfo.HostColumn(p.net),
      if p.account.Some? then p.account.value.name else USERNAME_ERROR,
      if p.account.Some? then p.account.value.home else USERHOME_ERROR,
      IdsColumn(p.pid, p.ppid, p.pgid),
      p.cwd.GetOr(GETCWD_ERROR),
      ExeColumn(p.exe),
      Cmdline.ProgramArgs(p.cmdline),
      StartColumn(p, ticks),
      ElapsedColumn(p, ticks))
  }

  /** The column-gathering part of `log_call`. */
  method BuildContext(p: Process) returns (ctx: LogFormat.Context)
    requires Valid(p)
    ensures ctx == ContextOf(p)
  {
    var time := TimeColumn(p.now, p.utc);
    var host, _ := HostInfo.BuildHostColumn(p.net);
    var user, home := USERNAME_ERROR, USERHOME_ERROR;
    if p.account.Some? {
      user, home := p.account.value.name, p.account.value.home;
    }
    var ids := IdsColumn(p.pid, p.ppid, p.pgid);
    var exe := ExeColumn(p.exe);
    var args := Cmdline.GetProgramArgs(p.cmdline);
    var ticks := ProcStat.GetProcessStartTime(p.stat);
    var start := StartColumn(p, ticks);
    var elapsed := ElapsedColumn(p, ticks);
    var cwd := p.cwd.GetOr(GETCWD_ERROR);
    ctx := LogFormat.Context(time, host, user, home, ids, cwd, exe, args, start, elapsed);
  }

  /** The ids column is three decimal numbers separated by single spaces. */
  lemma IdsColumnSplits(pid: int, ppid: int, pgid: int)
    requires |Decimal(pid)| + |Decimal(ppid)| + |Decimal(pgid)| + 2 < STRING_SIZE
    ensures Split(IdsColumn(pid, ppid, pgid), ' ') == [Decimal(pid), Decimal(ppid), Decimal(pgid)]
  {
    var ds := [Decimal(pid), Decimal(ppid), Decimal(pgid)];
    NoSpaceInDecimal(pid);
    NoSpaceInDecimal(ppid);
    NoSpaceInDecimal(pgid);
    HostInfo.JoinThree(Decimal(pid), Decimal(ppid), Decimal(pgid), " ");
    SplitJoin(ds, ' ');
  }

  lemma NoSpaceInDecimal(i: int)
    ensures ' ' !in Decimal(i)
  {
  }

  /** The arguments column never holds a space or a tab, so it stays one column of the line. */
  lemma ArgsColumnIsOneColumn(p: Process)
    requires Valid(p)
    ensures ' ' !in ContextOf(p).args && '\t' !in ContextOf(p).args
  {
    Cmdline.ProgramArgsNoBlanks(p.cmdline);
  }

  /** When the start time cannot be read, both time columns carry their error markers. */
  lemma StartUnknown(p: Process)
    requires Valid(p) && ProcStat.StartTime(p.stat) == -1
    ensures ContextOf(p).start == PROGRAM_START_TIME_ERROR
    ensures ContextOf(p).elapsed == PROGRAM_ELAPSED_TIME_ERROR
  {
  }

  /** A process without a readable `/proc/<pid>/stat` logs both time errors. */
  lemma NoStatFile(p: Process)
    requires Valid(p) && p.stat.None?
    ensures ContextOf(p).start == PROGRAM_START_TIME_ERROR && ContextOf(p).elapsed == PROGRAM_ELAPSED_TIME_ERROR
  {
    StartUnknown(p);
  }

  // ---------------------------------------------------------------------
  // log_call, download and the interception, as functions of the state.

  /**
   * What one call finds: the `O_*` values, and the environment and the
   * process as that call reads them. The library reads them afresh on every
   * call, so each call of the class below is given its own.
   */
  datatype Setting = Setting(k: Constants, env: ShellVars.Env, proc: Process)

  function LogPathOf(s: Setting): Str {
    LogPath.LogPathOf(LogPath.Full, s.env, s.proc.pid)
  }

  /** `log_call`: make sure of the log directory, open the log for appending, append the line. */
  function LogCallSpec(s: Setting, fs: Entries, func: Str, args: seq<Str>): (int, Entries)
    requires Valid(s.proc)
  {
    var path := LogPathOf(s);
    var (made, fs1) := DirCreate.CreateDirTree(fs, Paths.DirName(path));
    if made != 0 then (EXIT_FAILURE, fs1)
    else
      var (isOpen, fs2) := OpenAppend(fs1, path, LOG_FILE_MODE);
      if !isOpen then (EXIT_FAILURE, fs2)
      else (EXIT_SUCCESS, Append(fs2, path, LogFormat.ContextLine(ContextOf(s.proc), func, args)))
  }

  /** Adding directories leaves every regular file as it was. */
  lemma FilesKept(fs: Entries, fs': Entries, p: Str)
    requires AddsOnlyDirs(fs, fs')
    ensures IsFile(fs', p) <==> IsFile(fs, p)
    ensures Content(fs', p) == Content(fs, p)
  {
    if IsFile(fs, p) {
      StatKept(fs, fs', p);
    }
  }

  /**
   * A successful `log_call` leaves the log file holding what it held
   * before and then exactly one new line; a failed one writes nothing and
   * at most leaves directories it made.
   */
  lemma LogCallAppends(s: Setting, fs: Entries, func: Str, args: seq<Str>)
    requires Valid(s.proc)
    ensures var (r, fs') := LogCallSpec(s, fs, func, args);
      (r == EXIT_SUCCESS || r == EXIT_FAILURE) &&
      (r == EXIT_SUCCESS ==>
        IsFile(fs', LogPathOf(s)) &&
        Content(fs', LogPathOf(s)) == Content(fs, LogPathOf(s)) + LogFormat.ContextLine(ContextOf(s.proc), func, args)) &&
      (r == EXIT_FAILURE ==> AddsOnlyDirs(fs, fs'))
  {
    var path := LogPathOf(s);
    var (made, fs1) := DirCreate.CreateDirTree(fs, Paths.DirName(path));
    DirCreate.CreateDirAddsOnlyDirs(fs, Paths.DirName(path));
    if made == 0 {
      FilesKept(fs, fs1, path);
      var (isOpen, fs2) := OpenAppend(fs1, path, LOG_FILE_MODE);
      if isOpen {
        assert Content(fs2, path) == Content(fs1, path);
        assert IsFile(fs2, path);
      }
    }
  }

  /** With the directory of the log missing and not creatable, `log_call` fails before opening the log. */
  lemma LogDirFailureStopsEarly(s: Setting, fs: Entries, func: Str, args: seq<Str>)
    requires Valid(s.proc)
    requires DirCreate.CreateDirTree(fs, Paths.DirName(LogPathOf(s))).0 != 0
    ensures LogCallSpec(s, fs, func, args) == (EXIT_FAILURE, DirCreate.CreateDirTree(fs, Paths.DirName(LogPathOf(s))).1)
    ensures !IsFile(fs, LogPathOf(s)) ==> !IsFile(LogCallSpec(s, fs, func, args).1, LogPathOf(s))
  {
    DirCreate.CreateDirAddsOnlyDirs(fs, Paths.DirName(LogPathOf(s)));
    FilesKept(fs, DirCreate.CreateDirTree(fs, Paths.DirName(LogPathOf(s))).1, LogPathOf(s));
  }

  /** The curl transfer: no handle, or a perform with the bytes it delivered and its result code. */
  datatype Transfer = NoHandle | Perform(data: Str, code: nat)

  function User(p: Process): Option<Str> {
    if p.account.Some? then Some(p.account.value.name) else None
  }

  function Target(s: Setting, url: Str): Str {
    Urls.DownloadTarget(s.env, User(s.proc), url, s.proc.pid, s.proc.downloadNow)
  }

  /** The target fits the `MAX_PATH_LEN` buffer the three `strcat`s write into unchecked. */
  predicate TargetFits(s: Setting, url: Str) {
    |Target(s, url)| < PATH_SIZE
  }

  /**
   * `download`: 1 when the target directory cannot be made, the `errno` of
   * a failed `fopen`, the curl code of a failed transfer, else 0.
   */
  function DownloadSpec(s: Setting, fs: Entries, url: Str, t: Transfer): (int, Entries) {
    var target := Target(s, url);
    var (made, fs1) := DirCreate.CreateDirTree(fs, Paths.DirName(target));
    if made != 0 then (EXIT_FAILURE, fs1) else Store(fs1, target, t)
  }

  /** The part after the directory exists: open the target for writing and let curl fill it. */
  function Store(fs: Entries, target: Str, t: Transfer): (int, Entries) {
    match t
    case NoHandle => (0, fs)
    case Perform(data, code) =>
      var (err, fs1) := OpenTruncate(fs, target, DOWNLOAD_FILE_MODE);
      if err.Some? then (err.value, fs1)
      else (code, Append(fs1, target, data))
  }

  lemma TargetNotEmpty(s: Setting, url: Str)
    ensures Target(s, url) != []
  {
    var base := Urls.DownloadBase(s.env, User(s.proc));
    assert |Target(s, url)| >= |base + "/"| > 0;
  }

  /** Storing a completed transfer leaves the target a file with exactly the bytes received; a failed `fopen` reports a nonzero `errno`. */
  lemma StoreResult(fs: Entries, target: Str, data: Str, code: nat)
    requires target != []
    ensures var (r, fs') := Store(fs, target, Perform(data, code));
      (r == 0 ==> IsFile(fs', target) && Content(fs', target) == data) &&
      (code != 0 ==> r != 0)
  {
    var (err, fs1) := OpenTruncate(fs, target, DOWNLOAD_FILE_MODE);
    if err.None? {
      assert IsFile(fs1, target) && Content(fs1, target) == [];
    }
  }

  /** A transfer that completes leaves the target a file holding exactly the bytes received. */
  lemma DownloadStoresData(s: Setting, fs: Entries, url: Str, data: Str)
    requires DownloadSpec(s, fs, url, Perform(data, 0)).0 == 0
    ensures var fs' := DownloadSpec(s, fs, url, Perform(data, 0)).1;
      IsFile(fs', Target(s, url)) && Content(fs', Target(s, url)) == data
  {
    var target := Target(s, url);
    TargetNotEmpty(s, url);
    var fs1 := DirCreate.CreateDirTree(fs, Paths.DirName(target)).1;
    StoreResult(fs1, target, data, 0);
  }

  /** Without a curl handle the download reports success yet stores nothing. */
  lemma NoHandleStoresNothing(s: Setting, fs: Entries, url: Str)
    ensures var (r, fs') := DownloadSpec(s, fs, url, NoHandle);
      (r == 0 <==> DirCreate.CreateDirTree(fs, Paths.DirName(Target(s, url))).0 == 0) &&
      AddsOnlyDirs(fs, fs')
  {
    DirCreate.CreateDirAddsOnlyDirs(fs, Paths.DirName(Target(s, url)));
  }

  /** A nonzero curl code fails the download even though the file was opened. */
  lemma TransferFailure(s: Setting, fs: Entries, url: Str, data: Str, code: nat)
    requires code != 0
    ensures DownloadSpec(s, fs, url, Perform(data, code)).0 != 0
  {
    var target := Target(s, url);
    TargetNotEmpty(s, url);
    var fs1 := DirCreate.CreateDirTree(fs, Paths.DirName(target)).1;
    StoreResult(fs1, target, data, code);
  }

  /** What the wrapper does after logging: a real call with these arguments, or a refusal. */
  datatype Reply = Forward(addr: Addr, args: seq<Value>) | Refused(result: int)

  /** -1 for the `open` family, NULL for the `fopen` family. */
  function FailureResult(c: Call): int {
    if c.Open? || c.Open64? || c.OpenAt? then -1 else 0
  }

  /** The decision after `log_call`, whose result is not looked at. */
  function Route(s: Setting, slots: Slots, fs: Entries, c: Call, t: Transfer): (Reply, Entries) {
    if !Urls.IsUrl(c.path) then (Forward(Slot(slots, c.Name()), Forwarded(s.k, c)), fs)
    else
      var (d, fs1) := DownloadSpec(s, fs, c.path, t);
      if d == 0 then (Forward(Slot(slots, c.Name()), Forwarded(s.k, c.WithPath(Target(s, c.path)))), fs1)
      else (Refused(FailureResult(c)), fs1)
  }

  function InterceptSpec(s: Setting, slots: Slots, fs: Entries, c: Call, t: Transfer): (Reply, Entries)
    requires Valid(s.proc)
  {
    var (_, fs1) := LogCallSpec(s, fs, c.Name(), LoggedArgs(s.k, c));
    Route(s, slots, fs1, c, t)
  }

  /** A local path goes to the real function unchanged, whether or not the call could be logged. */
  lemma LocalPathForwarded(s: Setting, slots: Slots, fs: Entries, c: Call, t: Transfer)
    requires Valid(s.proc) && !Urls.IsUrl(c.path)
    ensures InterceptSpec(s, slots, fs, c, t) == (Forward(Slot(slots, c.Name()), Forwarded(s.k, c)), LogCallSpec(s, fs, c.Name(), LoggedArgs(s.k, c)).1)
    ensures Forwarded(s.k, c)[PathIndex(c)] == Text(c.path)
  {
    LoggedMatchesForwarded(s.k, c);
  }

  /** A URL whose download fails is refused with -1 or NULL; the real function is not called. */
  lemma FailedDownloadRefused(s: Setting, slots: Slots, fs: Entries, c: Call, t: Transfer)
    requires Valid(s.proc) && Urls.IsUrl(c.path)
    requires DownloadSpec(s, LogCallSpec(s, fs, c.Name(), LoggedArgs(s.k, c)).1, c.path, t).0 != 0
    ensures InterceptSpec(s, slots, fs, c, t).0 == Refused(FailureResult(c))
    ensures c.Fopen? || c.Fopen64? || c.Freopen? || c.Fopenat? <==> InterceptSpec(s, slots, fs, c, t).0.result == 0
  {
  }

  /** A URL whose download succeeds is opened at the download target, every other argument as given. */
  lemma DownloadedRedirected(s: Setting, slots: Slots, fs: Entries, c: Call, t: Transfer)
    requires Valid(s.proc) && Urls.IsUrl(c.path)
    requires DownloadSpec(s, LogCallSpec(s, fs, c.Name(), LoggedArgs(s.k, c)).1, c.path, t).0 == 0
    ensures var reply := InterceptSpec(s, slots, fs, c, t).0;
      reply.Forward? && reply.addr == Slot(slots, c.Name()) &&
      |reply.args| == |Forwarded(s.k, c)| &&
      reply.args[PathIndex(c)] == Text(Target(s, c.path)) &&
      forall i :: 0 <= i < |reply.args| && i != PathIndex(c) ==> reply.args[i] == Forwarded(s.k, c)[i]
  {
    RedirectKeepsRest(s.k, c, Target(s, c.path));
  }

  /** The log records the path as the program gave it, the URL and not the download target. */
  lemma LogShowsGivenPath(s: Setting, fs: Entries, c: Call)
    requires Valid(s.proc)
    ensures var args := LoggedArgs(s.k, c);
      PathIndex(c) < |args| && args[PathIndex(c)] == Truncate(c.path, ARG_SIZE)
  {
    LoggedMatchesForwarded(s.k, c);
  }

  /** After the constructor every real function the linker knows is available to forward to. */
  lemma LoadedPointers(slots: Slots, linker: map<Str, Addr>, c: Call)
    requires Slot(slots, c.Name()) == NULL
    ensures Slot(ResolveAll(slots, linker, REAL_FUNCTIONS), c.Name()) == Next(linker, c.Name())
  {
    ResolveAllSlot(slots, linker, REAL_FUNCTIONS, c.Name());
    assert c.Name() in REAL_FUNCTIONS;
  }

  // ---------------------------------------------------------------------
  // The library in a process.

  class Library {
    const linker: map<Str, Addr>
    const fsys: FileSystem
    var slots: Slots
    var showLogPath: bool
    var errno: int

    constructor (linker: map<Str, Addr>, fsys: FileSystem, errno: int)
      ensures this.linker == linker && this.fsys == fsys
      ensures slots == map[] && showLogPath && this.errno == errno
    {
      this.linker := linker;
      this.fsys := fsys;
      slots := map[];
      showLogPath := true;
      this.errno := errno;
    }

    /** `library_load`: every pointer still NULL is looked up. */
    method LibraryLoad()
      modifies this
      ensures slots == ResolveAll(old(slots), linker, REAL_FUNCTIONS)
      ensures showLogPath == old(showLogPath) && errno == old(errno)
    {
      ghost var slots0 := slots;
      assert REAL_FUNCTIONS[..0] == [];
      ResolveSlot(REAL_FUNCTIONS[0]);  // fclose
      ResolveAllSnoc(slots0, linker, REAL_FUNCTIONS, 0);
      assert slots == ResolveAll(slots0, linker, REAL_FUNCTIONS[..1]);
      ResolveSlot(REAL_FUNCTIONS[1]);  // fopen64
      ResolveAllSnoc(slots0, linker, REAL_FUNCTIONS, 1);
      assert slots == ResolveAll(slots0, linker, REAL_FUNCTIONS[..2]);
      ResolveSlot(REAL_FUNCTIONS[2]);  // fopenat
      ResolveAllSnoc(slots0, linker, REAL_FUNCTIONS, 2);
      assert slots == ResolveAll(slots0, linker, REAL_FUNCTIONS[..3]);
      ResolveSlot(REAL_FUNCTIONS[3]);  // fopen
      ResolveAllSnoc(slots0, linker, REAL_FUNCTIONS, 3);
      assert slots == ResolveAll(slots0, linker, REAL_FUNCTIONS[..4]);
      ResolveSlot(REAL_FUNCTIONS[4]);  // freopen
      ResolveAllSnoc(slots0, linker, REAL_FUNCTIONS, 4);
      assert slots == ResolveAll(slots0, linker, REAL_FUNCTIONS[..5]);
      ResolveSlot(REAL_FUNCTIONS[5]);  // fwrite
      ResolveAllSnoc(slots0, linker, REAL_FUNCTIONS, 5);
      assert slots == ResolveAll(slots0, linker, REAL_FUNCTIONS[..6]);
      ResolveSlot(REAL_FUNCTIONS[6]);  // write
      ResolveAllSnoc(slots0, linker, REAL_FUNCTIONS, 6);
      assert slots == ResolveAll(slots0, linker, REAL_FUNCTIONS[..7]);
      ResolveSlot(REAL_FUNCTIONS[7]);  // open64
      ResolveAllSnoc(slots0, linker, REAL_FUNCTIONS, 7);
      assert slots == ResolveAll(slots0, linker, REAL_FUNCTIONS[..8]);
      ResolveSlot(REAL_FUNCTIONS[8]);  // openat
      ResolveAllSnoc(slots0, linker, REAL_FUNCTIONS, 8);
      assert slots == ResolveAll(slots0, linker, REAL_FUNCTIONS[..9]);
      ResolveSlot(REAL_FUNCTIONS[9]);  // open
      ResolveAllSnoc(slots0, linker, REAL_FUNCTIONS, 9);
      assert slots == ResolveAll(slots0, linker, REAL_FUNCTIONS[..10]);
      ResolveAllWhole(slots0, linker, REAL_FUNCTIONS);
    }

    /** `if (actual_x == NULL) actual_x = dlsym(RTLD_NEXT, "x");` */
    method ResolveSlot(name: Str)
      modifies this
      ensures slots == Resolve(old(slots), linker, name)
      ensures showLogPath == old(showLogPath) && errno == old(errno)
    {
      if Slot(slots, name) == NULL {
        slots := slots[name := Next(linker, name)];
      }
    }

    method LogCall(setting: Setting, func: Str, args: seq<Str>) returns (r: int)
      requires Valid(setting.proc) && LogPath.ExpansionsFit(LogPath.Full, setting.env)
      modifies this, fsys
      ensures (r, fsys.entries) == LogCallSpec(setting, old(fsys.entries), func, args)
      ensures !showLogPath && slots == old(slots) && errno == old(errno)
    {
      var logPath := LogPath.GetLogPath(LogPath.Full, setting.env, setting.proc.pid);
      if showLogPath {
        showLogPath := false;
      }
      var logDir := Paths.GetDirectory(logPath);
      var made := DirCreate.CreateDir(fsys, logDir);
      if made != 0 {
        return EXIT_FAILURE;
      }
      var isOpen := fsys.OpenForAppend(logPath, LOG_FILE_MODE);
      if !isOpen {
        return EXIT_FAILURE;
      }
      var ctx := BuildContext(setting.proc);
      var line, _ := LogFormat.BuildContextLine(ctx, func, args);
      fsys.Write(logPath, line);
      return EXIT_SUCCESS;
    }

    method Download(setting: Setting, url: Str, t: Transfer) returns (r: int)
      requires TargetFits(setting, url)
      modifies fsys
      ensures (r, fsys.entries) == DownloadSpec(setting, old(fsys.entries), url, t)
    {
      var base := Urls.DownloadBase(setting.env, User(setting.proc));
      var name := Urls.LocalFilename(url, setting.proc.pid, setting.proc.downloadNow);
      var target := base + "/" + name;
      var dir := Paths.GetDirectory(target);
      var made := DirCreate.CreateDir(fsys, dir);
      if made != 0 {
        return EXIT_FAILURE;
      }
      if t.NoHandle? {
        return 0;
      }
      var err := fsys.OpenForWriting(target, DOWNLOAD_FILE_MODE);
      if err.Some? {
        return err.value;
      }
      fsys.Write(target, t.data);
      return t.code;
    }

    /** One intercepted call: log it, then forward it, redirect it, or refuse it. */
    method Intercept(setting: Setting, c: Call, t: Transfer) returns (reply: Reply)
      requires Valid(setting.proc) && LogPath.ExpansionsFit(LogPath.Full, setting.env)
      requires Urls.IsUrl(c.path) ==> TargetFits(setting, c.path)
      modifies this, fsys
      ensures (reply, fsys.entries) == InterceptSpec(setting, old(slots), old(fsys.entries), c, t)
      ensures errno == if reply.Refused? then ENOENT else old(errno)
      ensures !showLogPath && slots == old(slots)
    {
      var args := LogArgs(setting.k, c);
      var _ := LogCall(setting, c.Name(), args);
      reply := Dispatch(setting, c, t);
    }

    /** After `log_call`: a URL is downloaded and opened at its target, or refused; a local path is forwarded. */
    method Dispatch(setting: Setting, c: Call, t: Transfer) returns (reply: Reply)
      requires Urls.IsUrl(c.path) ==> TargetFits(setting, c.path)
      modifies this, fsys
      ensures (reply, fsys.entries) == Route(setting, slots, old(fsys.entries), c, t)
      ensures errno == if reply.Refused? then ENOENT else old(errno)
      ensures showLogPath == old(showLogPath) && slots == old(slots)
    {
      var remote := Urls.IsRemote(c.path);
      if !remote {
        return Forward(Slot(slots, c.Name()), Forwarded(setting.k, c));
      }
      var d := Download(setting, c.path, t);
      if d != 0 {
        errno := ENOENT;
        return Refused(FailureResult(c));
      }
      return Forward(Slot(slots, c.Name()), Forwarded(setting.k, c.WithPath(Target(setting, c.path))));
    }
  }
}
