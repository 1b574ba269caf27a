/**
 * `get_log_path` of both variants: the expanded log directory (`VDI_LOG_DIR`,
 * else `${HOME}/.vdi/logs`), a slash, the file prefix (`VDI_LOG_FILE_PREFIX`
 * expanded, else `vdi_log.` as is) and the process id. The full library adds
 * `.log` and has 4096-byte buffers; the logger adds nothing and has 1024-byte
 * buffers.
 */
module LogPath {
  import opened CStrings
  import opened ShellVars
  import Paths

  datatype Variant = Full | Logger {
    /** What follows the pid in the file name. */
    function Suffix(): Str {
      if Full? then ".log" else ""
    }

    /** `MAX_PATH_LEN`, the size given to `snprintf` for the path. */
    function PathSize(): nat {
      if Full? then 4096 else 1024
    }

    /** `MAX_BUFFER_SIZE`, the unchecked buffer `expand_shell_vars` writes into. */
    function ExpandSize(): nat {
      if Full? then 4096 else 1024
    }
  }

  const LOG_DIR_VAR := "VDI_LOG_DIR"
  const DEFAULT_LOG_DIR := "${HOME}/.vdi/logs"
  const PREFIX_VAR := "VDI_LOG_FILE_PREFIX"
  const DEFAULT_PREFIX := "vdi_log."

  /** The text expanded for the directory. */
  function DirSource(env: Env): Str {
    if LOG_DIR_VAR in env then env[LOG_DIR_VAR] else DEFAULT_LOG_DIR
  }

  function LogDir(env: Env): Str {
    Expand(env, DirSource(env))
  }

  /** Only a prefix taken from the environment is expanded. */
  function Prefix(env: Env): Str {
    if PREFIX_VAR in env then Expand(env, env[PREFIX_VAR]) else DEFAULT_PREFIX
  }

  function FileName(v: Variant, env: Env, pid: int): Str {
    Prefix(env) + Decimal(pid) + v.Suffix()
  }

  function LogPathOf(v: Variant, env: Env, pid: int): Str {
    Truncate(LogDir(env) + "/" + Prefix(env) + Decimal(pid) + v.Suffix(), v.PathSize())
  }

  /** The expansions and the names in them fit the buffers `expand_shell_vars` writes into without a bound check. */
  predicate ExpansionsFit(v: Variant, env: Env) {
    |LogDir(env)| < v.ExpandSize() && NamesFit(DirSource(env), v.ExpandSize()) &&
    (PREFIX_VAR in env ==> |Expand(env, env[PREFIX_VAR])| < v.ExpandSize() && NamesFit(env[PREFIX_VAR], v.ExpandSize()))
  }

  method GetLogPath(v: Variant, env: Env, pid: int) returns (logPath: Str)
    requires ExpansionsFit(v, env)
    ensures logPath == LogPathOf(v, env, pid)
    ensures |logPath| < v.PathSize()
  {
    var source := DEFAULT_LOG_DIR;
    if LOG_DIR_VAR in env {
      source := env[LOG_DIR_VAR];
    }
    assert source == DirSource(env);
    var dir := ExpandShellVars(env, source, v.ExpandSize());
    var prefix := DEFAULT_PREFIX;
    if PREFIX_VAR in env {
      prefix := ExpandShellVars(env, env[PREFIX_VAR], v.ExpandSize());
    }
    assert prefix == Prefix(env);
    logPath := Truncate(dir + "/" + prefix + Decimal(pid) + v.Suffix(), v.PathSize());
  }

  /** With neither variable set: `$HOME/.vdi/logs/vdi_log.<pid>`, plus `.log` in the full library. */
  lemma DefaultLogPath(v: Variant, env: Env, pid: int)
    requires LOG_DIR_VAR !in env && PREFIX_VAR !in env
    requires |Lookup(env, "HOME")| + 40 + |Decimal(pid)| < v.PathSize()
    ensures LogPathOf(v, env, pid) == Lookup(env, "HOME") + "/.vdi/logs" + "/" + "vdi_log." + Decimal(pid) + v.Suffix()
  {
    DefaultLogDir(env);
  }

  /** A prefix from the environment without `$` is used verbatim. */
  lemma PlainPrefix(env: Env)
    requires PREFIX_VAR in env && '$' !in env[PREFIX_VAR]
    ensures Prefix(env) == env[PREFIX_VAR]
  {
    NoDollarUnchanged(env, env[PREFIX_VAR]);
  }

  /**
   * The directory `log_call` makes sure of (`get_directory` of the log path)
   * is the expanded log directory, when that is not empty, the prefix holds
   * no slash and nothing is cut off.
   */
  lemma LogDirectoryOfPath(v: Variant, env: Env, pid: int)
    requires LogDir(env) != [] && '/' !in Prefix(env)
    requires |LogDir(env) + "/" + FileName(v, env, pid)| < v.PathSize()
    ensures Paths.DirName(LogPathOf(v, env, pid)) == LogDir(env)
  {
    FileNameNoSlash(v, env, pid);
    Regroup(LogDir(env), Prefix(env), Decimal(pid), v.Suffix());
    Paths.DirNameOfJoin(LogDir(env), FileName(v, env, pid));
  }

  lemma FileNameNoSlash(v: Variant, env: Env, pid: int)
    requires '/' !in Prefix(env)
    ensures '/' !in FileName(v, env, pid)
  {
    var name := FileName(v, env, pid);
    assert forall k :: 0 <= k < |name| ==> name[k] != '/';
  }

  lemma Regroup(a: Str, b: Str, c: Str, d: Str)
    ensures a + "/" + b + c + d == a + "/" + (b + c + d)
  {
  }

  /** The two variants differ only in the `.log` suffix while nothing is cut off. */
  lemma VariantsDiffer(env: Env, pid: int)
    requires |LogDir(env) + "/" + Prefix(env) + Decimal(pid) + ".log"| < 1024
    ensures LogPathOf(Full, env, pid) == LogPathOf(Logger, env, pid) + ".log"
  {
  }
}
