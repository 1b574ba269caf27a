# vdi: an `LD_PRELOAD` audit shim, modelled in Dafny

The system is a pair of preload libraries that wrap the open family of the C
library: `open`, `open64`, `openat`, `fopen`, `fopen64`, `fopenat` and `freopen`.
Each wrapped call appends one audit line to a per-process log file. The call
is then passed on to the real function, which is found with `dlsym(RTLD_NEXT, …)`.

- `vdi.so` (`src/vdi_wrapper/vdi.c`) is the full library. Its log line begins
  with ten context columns: the time, host, user, home, ids, working directory,
  executable, arguments, start time and elapsed time. It also treats a path that
  starts with `https://`, `http://` or `ftp://` as remote. It downloads the file
  to a local target and redirects the call there. If the download fails, the
  call is refused with `ENOENT`.
- `vdi_logger.so` (`src/ld-preload/vdi_logger.c`) is the logging-only library.
  Its line is only the function name and its arguments. It prints the log path
  once, and it resolves `actual_open` and `actual_write` lazily.

The model is organised one module per concern, in the order the code builds on it:

| module | file | what it holds |
|---|---|---|
| `CStrings` | c_strings.dfy | C strings as `seq<char>`, `strcat`-with-separator (`Join`) and its inverse, `strchr`/`strrchr`, `snprintf` truncation, `%d`/`%o` with their parsers |
| `Paths` | paths.dfy | `get_directory`, `get_filename_from_url` |
| `ShellVars` | shell_vars.dfy | `expand_shell_vars` (one copy; the two files' versions differ only in buffer size) |
| `OpenFlags` | open_flags.dfy | `map_flags_to_strings`, the `"%d::%s"` flags and `"%d::0%o"` mode arguments |
| `ProcStat` | proc_stat.dfy | the field-22 parser of `get_process_start_time` |
| `StatFields` | stat_fields.dfy | what that parser makes of a line of well-formed fields |
| `Cmdline` | cmdline.dfy | the argument rewrite of `/proc/<pid>/cmdline` |
| `FileSys` | file_sys.dfy | the file system as a map from path to node (the environment, not the subject) |
| `DirCreate` | dir_create.dfy | both `create_dir` functions |
| `Urls` | urls.dfy | `starts_with`, `starts_with_any`, the download target in `download` |
| `LogPath` | log_path.dfy | `get_log_path` of both variants |
| `LogFormat` | log_format.dfy | the log-line assembly of both variants |
| `HostInfo` | host_info.dfy | the `host//fqdn//ips` column |
| `Symbols` | symbols.dfy | the `actual_*` pointers, looked up only while NULL |
| `Calls` | calls.dfy | the intercepted calls: logged and forwarded arguments |
| `Wrapper` | wrapper.dfy | `vdi.so` as a class: `library_load`, `log_call`, `download`, the interception |
| `PreloadLogger` | preload_logger.dfy | `vdi_logger.so` as a class: `log_call`, the show-once flag, the wrappers |

The code changes values step by step. Those steps are methods with loops or
with updates to a class's fields. Each method is proved equal to a
specification function, and the lemmas state what that function means. The
operating system's answers are inputs of the model: the environment, the pid,
clocks, host lookups, the `/proc` files, the password record, the linker's
answers and the outcome of a curl transfer. Both libraries read the
environment and the process afresh on every call. So each call of a library
object is given its own `Setting`, and only the pointers, the show flag,
`errno` and the file system persist from call to call.

## Model

| member | source | states |
|---|---|---|
| CStrings.Truncate | src/vdi_wrapper/vdi.c:1020-1022 | `snprintf` into `size` bytes keeps a prefix of the text: the whole text when it fits, else exactly its first `size - 1` characters |
| CStrings.IndexFrom | src/vdi_wrapper/vdi.c:504 | `strchr`: a found index is an occurrence at or after the start |
| CStrings.IndexFromFirst | src/vdi_wrapper/vdi.c:504 | the occurrence found is the first one after the start; none found means the character does not occur there |
| CStrings.LastIndex | src/vdi_wrapper/vdi.c:243 | `strrchr`: an occurrence with none after it; none found means the character does not occur |
| CStrings.SplitJoin | src/vdi_wrapper/vdi.c:871-901 | pieces joined by a one-character separator they do not contain are recovered by splitting at it |
| CStrings.JoinSnoc | src/vdi_wrapper/vdi.c:895-900 | one more `strcat` of separator and piece extends the joined text by exactly those |
| CStrings.DecimalRoundTrip | src/vdi_wrapper/vdi.c:1143 | reading back the `%d` rendering gives the integer, negative ones included |
| CStrings.OctalRoundTrip | src/vdi_wrapper/vdi.c:1143 | reading back the `%o` rendering gives the number |
| Paths.GetDirectory | src/vdi_wrapper/vdi.c:251-289 | the strip-and-truncate walk over a copy returns `DirName(path)` |
| Paths.NoSlashIsDot | src/vdi_wrapper/vdi.c:252-276 | an empty path, or one without `/`, gives `"."` |
| Paths.SlashesAreRoot | src/vdi_wrapper/vdi.c:262-279 | a path of slashes only gives `"/"`: the leading slash is never stripped |
| Paths.StripKeepsHead | src/vdi_wrapper/vdi.c:262-267 | stripping removes exactly the trailing run of slashes |
| Paths.DirNameShape | src/vdi_wrapper/vdi.c:262-283 | the result is `"."`, `"/"`, or a proper prefix of the path that ends right before a slash, and that slash is the last one once trailing slashes are stripped |
| Paths.DirNameOfJoin | src/vdi_wrapper/vdi.c:270-283 | the directory of `base/name` is `base` for a slash-free name |
| Paths.FilenameFromUrl | src/vdi_wrapper/vdi.c:242-249 | the text after the last `/`, non-empty and slash-free; none exactly when there is no `/` or the path ends in `/` |
| ShellVars.ExpandShellVars | src/vdi_wrapper/vdi.c:394-432 | the `src`/`dest` pointer walk produces `Expand(env, str)`, given that the expansion fits the unchecked buffer |
| ShellVars.ShortTextNamesFit | src/vdi_wrapper/vdi.c:398-416 | a text shorter than the `varname` buffer cannot hold a name that overflows it |
| ShellVars.ReadVarName | src/vdi_wrapper/vdi.c:401-417 | after a `$`, the name read and the characters consumed are those of the `$NAME`, `${NAME}` or `${NAME` token |
| ShellVars.ReadName | src/vdi_wrapper/vdi.c:404-416 | the name loops copy exactly the longest run of name characters |
| ShellVars.TokenAt | src/vdi_wrapper/vdi.c:401-417 | a name run after `$` or `${`, and a `}` when braced, is the token `Expand` reads |
| ShellVars.LiteralStep | src/vdi_wrapper/vdi.c:424-426 | copying one character that is not `$` keeps the output plus the expansion of the rest unchanged |
| ShellVars.VariableStep | src/vdi_wrapper/vdi.c:418-424 | appending the value of a `$` token keeps the output plus the expansion of the rest unchanged |
| ShellVars.CopyValue | src/vdi_wrapper/vdi.c:419-424 | the value is appended after what was written |
| ShellVars.NameRun | src/ld-preload/vdi_logger.c:80-89 | the name is the longest run of alphanumerics and `_` |
| ShellVars.NoDollarUnchanged | src/ld-preload/vdi_logger.c:74-102 | text without `$` is returned unchanged |
| ShellVars.LiteralPrefix | src/ld-preload/vdi_logger.c:99-101 | a `$`-free head is copied verbatim and expansion continues behind it |
| ShellVars.PlainVariable | src/ld-preload/vdi_logger.c:86-98 | `$NAME` is replaced by the value, or nothing when unset |
| ShellVars.BracedVariable | src/ld-preload/vdi_logger.c:78-98 | `${NAME}` is replaced by the value and the brace consumed |
| ShellVars.UnclosedBrace | src/ld-preload/vdi_logger.c:83-85 | `${NAME` without `}` keeps the following character |
| ShellVars.NoDollarLeft | src/ld-preload/vdi_logger.c:68-106 | when no value holds `$`, the expansion holds none |
| ShellVars.Idempotent | src/ld-preload/vdi_logger.c:68-106 | when no value holds `$`, expanding twice is expanding once |
| ShellVars.DefaultLogDir | src/ld-preload/vdi_logger.c:25 | `${HOME}/.vdi/logs` expands to the home directory followed by `/.vdi/logs` |
| OpenFlags.MapFlagsToStrings | src/vdi_wrapper/vdi.c:922-1000 | the twelve `strcat` blocks produce `FlagsText(k, flags)` |
| OpenFlags.AppendIfSet | src/vdi_wrapper/vdi.c:926-931 | one block appends the name, with `+` before it unless the buffer is empty, exactly when its bits are set |
| OpenFlags.TestInOrder | src/vdi_wrapper/vdi.c:926-999 | the blocks in sequence give the `+`-join of the set names in table order |
| OpenFlags.TableNames | src/vdi_wrapper/vdi.c:926-999 | the twelve names are distinct, non-empty and free of `+` |
| OpenFlags.NameListedIff | src/vdi_wrapper/vdi.c:926-999 | a name is in the rendering iff all its bits are set |
| OpenFlags.NoStrayPlus | src/vdi_wrapper/vdi.c:927-929 | no leading, trailing or doubled `+` |
| OpenFlags.FlagsTextShape | src/vdi_wrapper/vdi.c:922-1000 | the rendering is well formed and splits at `+` back into the set names |
| OpenFlags.RdonlyAlwaysFirst | src/vdi_wrapper/vdi.c:926-931 | with Linux values (`O_RDONLY` = 0) every rendering starts with `O_RDONLY` |
| OpenFlags.ModeArgRoundTrip | src/vdi_wrapper/vdi.c:1143 | both halves of `"%d::0%o"` read back to the mode |
| ProcStat.GetProcessStartTime | src/vdi_wrapper/vdi.c:469-531 | the function returns `StartTime(stat)`: -1 for a missing or empty file, else the scan's result |
| ProcStat.ParseStartTime | src/vdi_wrapper/vdi.c:486-528 | the `ptr`/`num` loop returns the value of the scan `ScanFrom(s, 0, 0)` |
| ProcStat.ScanOneField | src/vdi_wrapper/vdi.c:490-520 | one loop pass advances to the next field head without changing the outcome, or stops where the outcome is decided |
| ProcStat.ScanParenField | src/vdi_wrapper/vdi.c:491-500 | a `(` field runs to the first `)`; without one the loop breaks with `num = 0`, reporting -1 |
| ProcStat.ScanPlainField | src/vdi_wrapper/vdi.c:501-515 | a regular field runs to the next space; field 22 stops the loop with the NUL written at that space |
| ProcStat.SkipSpacesFrom | src/vdi_wrapper/vdi.c:517-520 | the space-skipping loop stops at the first non-space |
| ProcStat.CString | src/vdi_wrapper/vdi.c:486-490 | the scanned text is the buffer up to its first NUL |
| ProcStat.ReadLength | src/vdi_wrapper/vdi.c:479 | corrected: at most 4095 bytes are read, leaving room for the terminator |
| ProcStat.TerminatorFits | src/vdi_wrapper/vdi.c:479-486 | corrected: for every file of 4095 bytes or more, 4095 bytes are read, the terminator index is inside the buffer, and the start time is that of the first 4095 bytes |
| ProcStat.TerminatorOverrunsAsWritten | src/vdi_wrapper/vdi.c:479-486 | as written, the terminator index is the buffer size, one past its end, exactly for files of 4096 bytes or more |
| ProcStat.ParenStep | src/vdi_wrapper/vdi.c:491-520 | a `(` field closed by its first `)` counts once, and scanning goes on after the spaces behind it |
| ProcStat.PlainStep | src/vdi_wrapper/vdi.c:501-520 | a regular field up to its space is field 22, or counts once with scanning going on after the spaces |
| StatFields.ScanField | src/vdi_wrapper/vdi.c:490-520 | a well-formed field followed by one space counts once and scanning continues after it |
| StatFields.HeadStep | src/vdi_wrapper/vdi.c:490-520 | in a line of fields separated by single spaces, the scan moves from one field to the next, counting one |
| StatFields.FieldTwentyTwoStep | src/vdi_wrapper/vdi.c:484-524 | a field before field 22 is passed over on the way to field 22 |
| StatFields.LastField | src/vdi_wrapper/vdi.c:503-510 | field 22, followed by a space, stops the loop with exactly its text |
| StatFields.FieldTwentyTwo | src/vdi_wrapper/vdi.c:484-524 | for well-formed fields, the scan returns `atoll` of field 22 |
| StatFields.StartTimeOfWellFormed | src/vdi_wrapper/vdi.c:484-524 | a stat line of 22 well-formed fields, the last one plain, gives `atoll` of field 22 |
| StatFields.TooFewFieldsFrom | src/vdi_wrapper/vdi.c:522-528 | fields that run out before field 22 give -1, from any point of the scan |
| StatFields.TooFewFields | src/vdi_wrapper/vdi.c:522-528 | fewer than 22 fields gives -1 |
| ProcStat.UnclosedParen | src/vdi_wrapper/vdi.c:493-498 | a `(` with no `)` gives -1 |
| StatFields.FirstCloseParen | src/vdi_wrapper/vdi.c:493 | `(a)b)` counts as two fields: the `(` field ends at the first `)` |
| ProcStat.LastFieldWithoutSpaceHangs | src/vdi_wrapper/vdi.c:504-507 | a last regular field with no space after it makes the loop spin forever |
| Cmdline.GetProgramArgs | src/vdi_wrapper/vdi.c:755-787 | the column is `PROGRAM_ARGS_ERROR` for a missing or empty file, else the rewrite, which holds no space or tab |
| Cmdline.ProgramArgsNoBlanks | src/vdi_wrapper/vdi.c:755-787 | the column never holds a space or a tab, the error marker included |
| Cmdline.RewriteArgs | src/vdi_wrapper/vdi.c:770-785 | the byte loop produces `Rewrite(buf)`, and its write index stays within twice the input plus the terminator |
| Cmdline.NoBlanks | src/vdi_wrapper/vdi.c:774-785 | the rewrite never holds a space, a tab or a NUL |
| Cmdline.RewriteOfArgv | src/vdi_wrapper/vdi.c:774-785 | a kernel argument vector becomes the arguments with blanks turned into `##`, joined by `%%` |
| Cmdline.RewriteLastNul | src/vdi_wrapper/vdi.c:775 | the final NUL adds no separator |
| Cmdline.RewriteFits | src/vdi_wrapper/vdi.c:770 | corrected: two bytes per input byte plus one suffice for the output |
| Cmdline.ArgsOverflowAsWritten | src/vdi_wrapper/vdi.c:770-785 | as written, 2048 spaces overrun the 4096-byte output |
| DirCreate.CreateDir | src/vdi_wrapper/vdi.c:203-240 | the slash walk with NULs written in the copy gives `CreateDirTree` |
| DirCreate.MakeIfMissing | src/vdi_wrapper/vdi.c:211-222 | one prefix: `stat`, then `mkdir` (0700) when `stat` fails, failure when it is not a directory; the result and file system are `EnsureDir` |
| DirCreate.EnsureDirGrows | src/vdi_wrapper/vdi.c:211-222 | one prefix step only adds a directory, and on success the prefix is a directory |
| DirCreate.CreateDirAddsOnlyDirs | src/vdi_wrapper/vdi.c:203-240 | nothing is removed or changed; only directories are added |
| DirCreate.CreateDirSuccess | src/vdi_wrapper/vdi.c:209-239 | on success the path and every prefix before a visited slash are directories |
| DirCreate.CreateDirIdempotent | src/vdi_wrapper/vdi.c:203-240 | after a success, a second call succeeds and changes nothing |
| DirCreate.CreateDirBlockedByFile | src/vdi_wrapper/vdi.c:217-237 | a visited prefix, or the path, that is a regular file makes it return -1, and every directory made is a prefix before that one |
| DirCreate.CreateDirSucceeds | src/vdi_wrapper/vdi.c:209-239 | with the root (or working directory) a directory and neither a visited prefix nor the path a regular file, it returns 0 |
| DirCreate.CreateDirSingle | src/ld-preload/vdi_logger.c:42-66 | the `stat`/`mkdir` branches give `CreateDirOneLevel` |
| DirCreate.OneLevelMeaning | src/ld-preload/vdi_logger.c:42-66 | success iff the path is a directory after; at most one `mkdir` (0755), and only after `ENOENT` |
| DirCreate.OneLevelIdempotent | src/ld-preload/vdi_logger.c:42-66 | after a success, a second call succeeds and changes nothing |
| DirCreate.OneLevelNeedsParent | src/ld-preload/vdi_logger.c:56-61 | with the parent missing the call fails and changes nothing |
| Urls.SameFirst | src/vdi_wrapper/vdi.c:1005 | `strncmp(...) == 0` iff the first `n` characters agree |
| Urls.StartsWith | src/vdi_wrapper/vdi.c:1002-1006 | true iff the prefix is a prefix; false for a shorter string |
| Urls.StartsWithAny | src/vdi_wrapper/vdi.c:1008-1015 | true iff some listed prefix starts the string |
| Urls.IsRemote | src/vdi_wrapper/vdi.c:1240 | the URL test over the three prefixes |
| Urls.IsUrlIff | src/vdi_wrapper/vdi.c:74-79 | remote iff the path starts with `https://`, `http://` or `ftp://` |
| Urls.LocalPathsAreLocal | src/vdi_wrapper/vdi.c:1251-1253 | empty, absolute and `.`-relative paths are never remote |
| Urls.ShortIsLocal | src/vdi_wrapper/vdi.c:1003-1005 | strings shorter than six characters, or a scheme without `//`, are not remote |
| Urls.LocalFilenameShape | src/vdi_wrapper/vdi.c:330-340 | the local file name is non-empty and slash-free |
| Urls.NamedUrl | src/vdi_wrapper/vdi.c:330 | a URL with a name after its last slash stores under that name |
| Urls.TargetDirectory | src/vdi_wrapper/vdi.c:341-350 | the directory `download` makes is the download base |
| Urls.DefaultBase | src/vdi_wrapper/vdi.c:314-328 | without `VDI_DOWNLOAD_BASE` the base is `/tmp/<user>/vdi/downloads` |
| LogPath.GetLogPath | src/vdi_wrapper/vdi.c:447-467 | the path is `LogPathOf` and fits `MAX_PATH_LEN` |
| LogPath.DefaultLogPath | src/ld-preload/vdi_logger.c:161-181 | with neither variable set: `$HOME/.vdi/logs/vdi_log.<pid>` (plus `.log` in `vdi.so`) |
| LogPath.PlainPrefix | src/ld-preload/vdi_logger.c:172-177 | a prefix from the environment without `$` is used as is |
| LogPath.LogDirectoryOfPath | src/ld-preload/vdi_logger.c:192 | the directory `log_call` ensures is the expanded log directory |
| LogPath.VariantsDiffer | src/ld-preload/vdi_logger.c:179 | the two variants differ only in the `.log` suffix |
| LogFormat.BuildCallLine | src/ld-preload/vdi_logger.c:207-234 | the `strcat` pass builds `CallLine`, and the length pass computes its length plus one |
| LogFormat.BuildContextLine | src/vdi_wrapper/vdi.c:834-901 | the `strcat` pass builds `ContextLine`, and the length pass computes its length plus one |
| LogFormat.AppendCall | src/vdi_wrapper/vdi.c:856-900 | the function name and arguments are appended joined by single spaces, and the length follows |
| LogFormat.CallLength | src/vdi_wrapper/vdi.c:856-865 | the length pass adds exactly the length of the name and arguments joined by single spaces |
| LogFormat.CallText | src/vdi_wrapper/vdi.c:889-899 | the `strcat` pass appends the name and arguments joined by single spaces, none trailing |
| LogFormat.ContextThenCall | src/vdi_wrapper/vdi.c:871-901 | the full line is the ten context columns, a space, and the logger's line |
| LogFormat.OneNewline | src/ld-preload/vdi_logger.c:234 | the only newline is the last character when no column holds one |
| LogFormat.LineSplits | src/vdi_wrapper/vdi.c:871-901 | columns without spaces are recovered by splitting at spaces |
| LogFormat.NoTrailingSpace | src/ld-preload/vdi_logger.c:225-233 | no space precedes the newline |
| LogFormat.NoArgs | src/ld-preload/vdi_logger.c:224-234 | with no arguments the line is the name and the newline |
| HostInfo.FindName | src/vdi_wrapper/vdi.c:604-617 | the `getnameinfo` loop returns the first resolved name, else `FQHN_NOT_RESOLVED_ERROR` |
| HostInfo.FirstName | src/vdi_wrapper/vdi.c:604-617 | the result is the error marker iff no address resolves, or the first resolved name is that marker |
| HostInfo.FirstNameAt | src/vdi_wrapper/vdi.c:608-611 | the first resolved address supplies the name |
| HostInfo.InterfaceEntries | src/vdi_wrapper/vdi.c:638-663 | non-empty entries, exactly as many as there are usable (`AF_INET`/`AF_INET6` with a numeric host) interfaces |
| HostInfo.UsableListed | src/vdi_wrapper/vdi.c:638-663 | every usable interface contributes its entry, at the index counting the usable interfaces before it, so list order is kept |
| HostInfo.JoinInterfaces | src/vdi_wrapper/vdi.c:634-664 | the interface loop gives the `//`-join of the entries |
| HostInfo.EntriesTagged | src/vdi_wrapper/vdi.c:638-662 | every entry comes from a usable interface |
| HostInfo.AddressEntries | src/vdi_wrapper/vdi.c:688 | corrected: one `IPvN%%<address>` entry per address, cut as `snprintf(buffer, MAX_STRING_LEN-1, …)` cuts it |
| HostInfo.AddressTexts | src/vdi_wrapper/vdi.c:692 | as written: the bare address per address |
| HostInfo.JoinAddresses | src/vdi_wrapper/vdi.c:667-694 | corrected: the fallback loop joins the tagged entries with `//` |
| HostInfo.JoinAddressesAsWritten | src/vdi_wrapper/vdi.c:667-694 | as written: the loop joins the bare addresses |
| HostInfo.JoinNonEmptyIsJoin | src/vdi_wrapper/vdi.c:658-661 | "separator unless still empty" is the plain join for non-empty pieces |
| HostInfo.BuildHostColumn | src/vdi_wrapper/vdi.c:702-714 | corrected: the length pass and the `strcat` pass give the corrected `HostColumn`, with the length matching |
| HostInfo.CorrectedAgrees | src/vdi_wrapper/vdi.c:587-714 | with a host name, and with interfaces or no fallback addresses, the corrected column is the source's |
| HostInfo.NoHostnameCorrected | src/vdi_wrapper/vdi.c:588-589 | corrected: a failed `gethostname` gives `HOSTNAME_ERROR//FQHN_ERROR//IP_ADDRESS_ERROR` |
| HostInfo.NoHostnameCrashesAsWritten | src/vdi_wrapper/vdi.c:621-707 | as written: a failed `gethostname` leaves the name and address texts NULL before `strlen` |
| HostInfo.FallbackTagAsWritten | src/vdi_wrapper/vdi.c:687-692 | as written the fallback entry is the bare address; corrected it carries `IPv4%%` |
| HostInfo.EntriesShaped | src/vdi_wrapper/vdi.c:655-657 | corrected: both address sources give entries starting `IPv4%%` or `IPv6%%` |
| Symbols.Resolve | src/ld-preload/vdi_logger.c:184-186 | a set pointer is kept and a NULL one takes the linker's answer; no other pointer changes |
| Symbols.SetIsKept | src/ld-preload/vdi_logger.c:184-186 | a set pointer is never looked up again |
| Symbols.ResolveIdempotent | src/ld-preload/vdi_logger.c:238-240 | a second lookup changes nothing |
| Symbols.FirstAnswerStays | src/ld-preload/vdi_logger.c:184-186 | the first non-NULL answer stays whatever later linkers answer |
| Symbols.ResolveAllSlot | src/vdi_wrapper/vdi.c:126-155 | after the lookups, each listed pointer is its old value if set, else the linker's; others unchanged |
| Symbols.ResolveAllSnoc | src/vdi_wrapper/vdi.c:126-155 | one more lookup after a prefix of the names extends `ResolveAll` by that name |
| Calls.ModeTail | src/vdi_wrapper/vdi.c:1226-1234 | the mode is logged only with `O_CREAT` |
| Calls.LoggedArgs | src/vdi_wrapper/vdi.c:1220-1234 | each logged argument is its rendering cut to 1022 characters |
| Calls.LogArgs | src/vdi_wrapper/vdi.c:1220-1234 | the `snprintf` calls fill the argument array with `LoggedArgs` |
| Calls.RawArgs | src/vdi_wrapper/vdi.c:1020-1022 | each call's renderings, per wrapper, before the cut |
| Calls.FlagsArgOf | src/vdi_wrapper/vdi.c:1222 | `"%d::%s"` of the flags and `map_flags_to_strings` |
| Calls.ArgumentCounts | src/ld-preload/vdi_logger.c:377-407 | `open` logs 3 arguments iff `O_CREAT`, else 2; `openat` 4 or 3; `open64` 3 |
| Calls.LoggedMatchesForwarded | src/ld-preload/vdi_logger.c:398-403 | the real function gets as many arguments as were logged, the mode iff it was logged, and the path in place |
| Calls.LoggedMode | src/ld-preload/vdi_logger.c:421 | the logged mode reads back to the mode that is forwarded |
| Calls.ModeLast | src/ld-preload/vdi_logger.c:414-429 | with `O_CREAT` the mode is the last argument both logged and forwarded |
| Calls.RedirectKeepsRest | src/vdi_wrapper/vdi.c:1238-1259 | redirecting changes only the path argument |
| Wrapper.BuildContext | src/vdi_wrapper/vdi.c:554-832 | corrected host column: the column gathering gives `ContextOf(p)` |
| Wrapper.IdsColumnSplits | src/vdi_wrapper/vdi.c:737-738 | the ids column is `pid ppid pgid`, three decimals split by single spaces |
| Wrapper.ArgsColumnIsOneColumn | src/vdi_wrapper/vdi.c:774-785 | the arguments column holds no space or tab |
| Wrapper.StartUnknown | src/vdi_wrapper/vdi.c:792-797 | an unreadable start time gives both time error markers |
| Wrapper.NoStatFile | src/vdi_wrapper/vdi.c:474-476 | without a stat file both time columns are error markers |
| Wrapper.LogCallAppends | src/vdi_wrapper/vdi.c:533-920 | success appends exactly the context line to the log; failure only adds directories |
| Wrapper.LogDirFailureStopsEarly | src/vdi_wrapper/vdi.c:539-546 | a log directory that cannot be made fails before the log is opened |
| Wrapper.TargetNotEmpty | src/vdi_wrapper/vdi.c:341-345 | the download target is never empty |
| Wrapper.StoreResult | src/vdi_wrapper/vdi.c:364-391 | a completed transfer leaves the target holding exactly the bytes received; a failed transfer is nonzero |
| Wrapper.DownloadStoresData | src/vdi_wrapper/vdi.c:305-392 | a successful download leaves the target a file with the received bytes |
| Wrapper.NoHandleStoresNothing | src/vdi_wrapper/vdi.c:363-391 | without a curl handle, success depends only on the directory, and only directories are added |
| Wrapper.TransferFailure | src/vdi_wrapper/vdi.c:380-384 | a nonzero curl code fails the download |
| Wrapper.LocalPathForwarded | src/vdi_wrapper/vdi.c:1251-1259 | a local path is forwarded unchanged whatever `log_call` returned |
| Wrapper.FailedDownloadRefused | src/vdi_wrapper/vdi.c:1244-1250 | a failed download refuses with -1, or NULL for the `fopen` family, without calling the real function |
| Wrapper.DownloadedRedirected | src/vdi_wrapper/vdi.c:1244-1256 | a downloaded URL is opened at the target with every other argument as given |
| Wrapper.LogShowsGivenPath | src/vdi_wrapper/vdi.c:1220-1235 | the log records the path the program gave, not the target |
| Wrapper.LoadedPointers | src/vdi_wrapper/vdi.c:118-156 | after the constructor each wrapped function's pointer is the linker's answer |
| Wrapper.Library.constructor | src/vdi_wrapper/vdi.c:23-91 | all pointers NULL and the show flag set |
| Wrapper.Library.ResolveSlot | src/vdi_wrapper/vdi.c:126-128 | a pointer still NULL takes `dlsym`'s answer, a set one is kept, the other pointers unchanged |
| Wrapper.Library.LibraryLoad | src/vdi_wrapper/vdi.c:118-156 | pointers become `ResolveAll` over the ten names in the constructor's order |
| Wrapper.Library.LogCall | src/vdi_wrapper/vdi.c:533-920 | corrected host column: result and file system follow `LogCallSpec`; the show flag is cleared; pointers and `errno` kept |
| Wrapper.Library.Download | src/vdi_wrapper/vdi.c:305-392 | result and file system follow `DownloadSpec` |
| Wrapper.Library.Intercept | src/vdi_wrapper/vdi.c:1214-1260 | reply and file system follow `InterceptSpec`; `errno` becomes `ENOENT` iff the call is refused |
| Wrapper.Library.Dispatch | src/vdi_wrapper/vdi.c:1238-1259 | reply and file system follow `Route`: a URL is downloaded then redirected or refused with `errno` set to `ENOENT`, a local path is forwarded |
| PreloadLogger.ShowOnce | src/ld-preload/vdi_logger.c:188-191 | from the start, any run of calls prints the banner once, with the first path |
| PreloadLogger.QuietAfter | src/ld-preload/vdi_logger.c:188-191 | once the flag is clear nothing more is printed |
| PreloadLogger.LogCallAppends | src/ld-preload/vdi_logger.c:183-256 | success appends exactly the call line and reaches the `write` lookup; failure leaves only what `create_dir` did |
| PreloadLogger.AppendOpened | src/ld-preload/vdi_logger.c:200-243 | opening for appending and writing puts the line after the old content |
| PreloadLogger.KeptFile | src/ld-preload/vdi_logger.c:194 | the single-level `create_dir` leaves every regular file as it was |
| PreloadLogger.MissingParentFails | src/ld-preload/vdi_logger.c:194-199 | with the parent of the log directory missing, `log_call` fails and changes nothing |
| PreloadLogger.PointersSettle | src/ld-preload/vdi_logger.c:184-240 | `actual_open` is looked up on every call while NULL; `actual_write` only when the line is written |
| PreloadLogger.SettledStaysSettled | src/ld-preload/vdi_logger.c:184-240 | with both pointers set, a call leaves them unchanged |
| PreloadLogger.AlwaysForwarded | src/ld-preload/vdi_logger.c:339-433 | every wrapper forwards with its own path and argument count, whatever logging did |
| PreloadLogger.Library.constructor | src/ld-preload/vdi_logger.c:14-30 | both pointers NULL, the flag set, nothing printed |
| PreloadLogger.Library.LogCall | src/ld-preload/vdi_logger.c:183-256 | result, file system and pointers follow `LogCallSpec` and `SlotsAfter`; the banner follows `ShowStep` |
| PreloadLogger.Library.ShowLogPath | src/ld-preload/vdi_logger.c:187-191 | the path is `get_log_path`'s, and the banner with it is printed only while the show flag is set, which it then clears |
| PreloadLogger.Library.ResolveSlot | src/ld-preload/vdi_logger.c:184-186 | a pointer still NULL takes `dlsym`'s answer, a set one is kept, the other pointers unchanged |
| PreloadLogger.Library.AppendLine | src/ld-preload/vdi_logger.c:192-243 | directory, open and write follow `LogCallSpec` |
| PreloadLogger.Library.Intercept | src/ld-preload/vdi_logger.c:406-433 | the call is forwarded to `dlsym`'s answer with its own arguments, after logging |

## Left out

- `dlsym`, the dynamic linker and the destructor: the linker is a map from name to address. Calling through a NULL pointer (a name the linker does not know) is not modelled.
- The libcurl transfer and `write_data`: the transfer's outcome (`NoHandle`, or the bytes and the result code) is an input.
- `gethostname`, `getaddrinfo`, `getnameinfo`, `getifaddrs`, `inet_ntop` and `getpwuid`: their answers are fields of `HostInfo.Network` and `Wrapper.Process`.
- `time`, `gmtime`, `strftime`, `sysinfo`, `sysconf`, `clock_gettime` and `convert_ticks_to_epoch_and_utc`: their results are inputs (`now`, `utc`, `downloadNow`, `startEpoch`, `startUtc`, `ticksPerSecond`, `bootMicros`).
- `fread`, `readlink` and `getcwd`: the contents of `/proc/<pid>/stat`, `/proc/<pid>/cmdline`, `/proc/<pid>/exe` and the working directory are inputs.
- `debug`, `perror`, the debug level read from the environment, and the stderr output: not modelled.
- The races on the global pointers and the flag: calls are modelled one at a time.
- Memory: `malloc`/`free`/`strdup` leaks, and `download` handing out the address of a stack buffer through `*local_path`. The model passes the target string by value.
- Process umask: modes are stored as requested. The result of `actual_write` and `close` is ignored in the source and not modelled; a write always lands.
- `errno` of the real calls: only the `ENOENT` of a refused call is modelled.
- `freopen`'s stream argument: its `%p` rendering is an input string.
- Integer widths: `time_t`, `pid_t` and `long long` are unbounded integers. `atoll` overflow is not modelled, and neither is `int` truncation of the start epoch or the `long` products in the elapsed time. The `flags` and `mode` arguments are 32-bit values printed signed by `%d`.
- Characters: a `char` stands for one byte, so the buffer bounds count characters as bytes. `isalnum` is that of the C locale. Multibyte text and other locales are not modelled.
- Path names: paths that differ only in trailing slashes name the same entry. `.`, `..` and repeated slashes are not normalised.
- ShellVars.ExpandShellVars: requires that the expansion fits the 4096-byte (`vdi.so`) or 1024-byte (`vdi_logger.so`) output buffer, and that every variable name fits the `varname` buffer of the same size (`NamesFit`); the source writes both without a bound check.
- LogPath.GetLogPath: requires `ExpansionsFit` (both bounds, for the directory and the prefix) for the same reason; the `snprintf` into the path buffer is modelled as truncation.
- PreloadLogger.Library.LogCall, PreloadLogger.Library.ShowLogPath, PreloadLogger.Library.Intercept: require `ExpansionsFit` because they call `get_log_path`, for the reason on the `LogPath.GetLogPath` line.
- Wrapper.Library.Download: requires that the target fits the `MAX_PATH_LEN` buffer that the three unchecked `strcat`s write into.
- Wrapper.Library.Dispatch, Wrapper.Library.Intercept: require the same `TargetFits` because they call `download_file`, for the reason on the `Wrapper.Library.Download` line.
- Wrapper.Library.LogCall, Wrapper.Library.Intercept: also require `ExpansionsFit` (for `get_log_path`, see the `LogPath.GetLogPath` line), and `Intercept` requires `Valid` because it calls `log_call` (see the `Wrapper.Library.LogCall` line on `Valid`).
- Wrapper.Library.LogCall: requires `Valid`, that is, a stat scan that ends (the source loops forever otherwise) and a positive clock rate. The 1024-byte `ip_string_tmp` buffer of the host column is not bounded in the model.
- ProcStat.GetProcessStartTime: requires that the scan ends. A last regular field without a following space hangs the loop, and `ProcStat.LastFieldWithoutSpaceHangs` exhibits that case.
- ProcStat.GetProcessStartTime: reads at most 4095 bytes (`ReadLength`), where the source reads up to 4096 and then writes the terminator one past the buffer; the out-of-bounds write is not modelled (see Findings).
- Cmdline.GetProgramArgs: returns the whole rewrite, where the source writes it into a 4096-byte `malloc` without a bound check and overruns it once the rewrite reaches 4096 characters, e.g. for 2048 blanks; `Wrapper.BuildContext` uses this unbounded column. The overrun is not modelled (see Findings).
- HostInfo.BuildHostColumn: builds the corrected host column (`HostInfo.HostColumn`), not the one vdi.c:587-714 builds as written. The fallback entries carry their `IPv4%%`/`IPv6%%` tag, where the source appends the bare address (Findings row for vdi.c:687-692). Without a host name the column holds the error markers, where the source passes NULL to `strlen` (Findings row for vdi.c:588-707). `HostInfo.CorrectedAgrees` states where the two columns coincide.
- Wrapper.BuildContext: its host column is the corrected one, for the reasons on the `HostInfo.BuildHostColumn` line.
- Wrapper.Library.LogCall: the context line it appends holds the corrected host column, for the reasons on the `HostInfo.BuildHostColumn` line.
- Wrapper.Library.Intercept: uses the corrected host column (`HostInfo.HostColumn`) and the corrected read length, not the as-written ones listed under Findings.
- The `O_*` values are a parameter (`OpenFlags.Constants`), with `OpenFlags.LINUX` as one instance.

## Findings

| source | as written | input that shows it | evidently intended | confidence | as-written member | corrected member |
|---|---|---|---|---|---|---|
| src/vdi_wrapper/vdi.c:479-486 | `fread` may fill all 4096 bytes, then `buffer[length] = '\0'` writes at index 4096 | a `/proc/<pid>/stat` of 4096 bytes or more | read at most `sizeof(buffer) - 1` bytes | not executed | ProcStat.TerminatorOverrunsAsWritten | ProcStat.TerminatorFits |
| src/vdi_wrapper/vdi.c:770-785 | the output buffer has 4096 bytes, but each input byte may become two characters | a command line of 2048 spaces: 4096 characters plus the terminator | size the output as twice the input plus one | not executed | Cmdline.ArgsOverflowAsWritten | Cmdline.RewriteFits |
| src/vdi_wrapper/vdi.c:687-692 | the fallback builds `IPv4%%<addr>` in `buffer` but appends the bare `ipstr` | no interface list and one IPv4 address `a`: the entry is `a`, not `IPv4%%a` | append `buffer`, as the interface branch does | not executed | HostInfo.FallbackTagAsWritten | HostInfo.JoinAddresses |
| src/vdi_wrapper/vdi.c:588-707 | a failed `gethostname` leaves `fqhn_string` and `ip_string` NULL, then `strlen` reads them | `gethostname` failing | error markers in both places | not executed | HostInfo.NoHostnameCrashesAsWritten | HostInfo.NoHostnameCorrected |
