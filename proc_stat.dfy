/**
 * `get_process_start_time`: field 22 (`starttime`, in clock ticks since
 * boot) of `/proc/<pid>/stat`. Fields are separated by runs of spaces, and
 * a field that starts with `(` runs to the first `)` (the command name may
 * hold spaces). The file content is an input; a failed `fopen` is `None`.
 */
module ProcStat {
  import opened CStrings

  /** The field holding the start time. */
  const START_TIME_FIELD := 22
  /** `MAX_BUFFER_SIZE`, the size of the read buffer. */
  const BUFFER_SIZE := 4096

  /**
   * Where the scan ends: field 22 found at `s[start..end]` (the text
   * `atoll` reads once the NUL is written at `end`), the `-1` error, or a
   * loop that never ends.
   */
  datatype Outcome = Field22(start: nat, end: nat) | NotFound | Hangs

  /** Index of the first non-space at or after `i`. */
  function SkipSpaces(s: Str, i: nat): (r: nat)
    requires i <= |s|
    ensures i <= r <= |s|
    ensures r < |s| ==> s[r] != ' '
    decreases |s| - i
  {
    if i < |s| && s[i] == ' ' then SkipSpaces(s, i + 1) else i
  }

  /** `isspace` in the C locale. */
  predicate IsSpace(c: char) {
    c == ' ' || c == '\t' || c == '\n' || c == '\U{000B}' || c == '\U{000C}' || c == '\r'
  }

  /** Length of the leading run of decimal digits. */
  function DigitRun(s: Str): (n: nat)
    ensures n <= |s|
    ensures forall i :: 0 <= i < n ==> IsDigitIn(s[i], 10)
    ensures n < |s| ==> !IsDigitIn(s[n], 10)
  {
    if s != [] && IsDigitIn(s[0], 10) then 1 + DigitRun(s[1..]) else 0
  }

  /** `atoll`: leading white space, an optional sign, then the longest run of digits. */
  function AtoLL(s: Str): int
    decreases |s|
  {
    if s != [] && IsSpace(s[0]) then AtoLL(s[1..])
    else if s != [] && s[0] == '-' then -ParseDigits(s[1..][..DigitRun(s[1..])], 10)
    else if s != [] && s[0] == '+' then ParseDigits(s[1..][..DigitRun(s[1..])], 10)
    else ParseDigits(s[..DigitRun(s)], 10)
  }

  /**
   * The parser loop from a loop head: `ptr` is where `ptr` points in the
   * buffer `s` and `num` the fields counted so far.
   */
  function ScanFrom(s: Str, ptr: nat, num: nat): (r: Outcome)
    requires ptr <= |s|
    ensures r.Field22? ==> ptr <= r.start <= r.end <= |s|
    decreases |s| - ptr
  {
    if ptr == |s| then
      if num == START_TIME_FIELD then Field22(ptr, ptr) else NotFound
    else if s[ptr] == '(' then
      match IndexFrom(s, ptr, ')')
      case None => NotFound
      case Some(e) => ScanFrom(s, SkipSpaces(s, e + 1), num + 1)
    else
      match IndexFrom(s, ptr, ' ')
      case None => Hangs
      case Some(e) =>
        if num + 1 == START_TIME_FIELD then Field22(ptr, e)
        else ScanFrom(s, SkipSpaces(s, e), num + 1)
  }

  /** The `long long` the function returns for a scan that ends. */
  function ResultOf(s: Str, o: Outcome): int
    requires !o.Hangs? && (o.Field22? ==> o.start <= o.end <= |s|)
  {
    if o.Field22? then AtoLL(s[o.start..o.end]) else -1
  }

  /** The loop of `get_process_start_time` over the NUL-terminated buffer `s`. */
  method ParseStartTime(s: Str) returns (r: int)
    requires '\0' !in s
    requires ScanFrom(s, 0, 0) != Hangs
    ensures r == ResultOf(s, ScanFrom(s, 0, 0))
  {
    var ptr := 0;
    var num := 0;
    var stop := |s|;
    var done := false;
    while ptr < |s| && !done
      invariant ptr <= stop <= |s|
      invariant !done ==> stop == |s| && ScanFrom(s, ptr, num) == ScanFrom(s, 0, 0)
      invariant done ==> ScanFrom(s, 0, 0) == if num == START_TIME_FIELD then Field22(ptr, stop) else NotFound
      decreases |s| - ptr, if done then 0 else 1
    {
      ptr, num, stop, done := ScanOneField(s, ptr, num);
    }
    if !done {
      assert s[ptr..stop] == [];
    }
    if num == START_TIME_FIELD {
      r := AtoLL(s[ptr..stop]);
    } else {
      r := -1;
    }
  }

  /**
   * One pass of the loop body: a `(` field or a regular field, then the
   * trailing spaces. `done` is the `break` taken on a missing `)` or at
   * field 22, where `stop` marks the NUL written after it.
   */
  method ScanOneField(s: Str, ptr0: nat, num0: nat) returns (ptr: nat, num: nat, stop: nat, done: bool)
    requires ptr0 < |s| && ScanFrom(s, ptr0, num0) != Hangs
    ensures ptr <= stop <= |s|
    ensures !done ==> ptr0 < ptr && stop == |s| && ScanFrom(s, ptr, num) == ScanFrom(s, ptr0, num0)
    ensures done ==> ptr == ptr0
    ensures done ==> ScanFrom(s, ptr0, num0) == if num == START_TIME_FIELD then Field22(ptr, stop) else NotFound
  {
    if s[ptr0] == '(' {
      ptr, num, done := ScanParenField(s, ptr0, num0);
      stop := |s|;
    } else {
      ptr, num, stop, done := ScanPlainField(s, ptr0, num0);
    }
    if !done {
      ptr := SkipSpacesFrom(s, ptr);
    }
  }

  /** The `(` branch: up to the first `)`, or a `break` with `num = 0` when there is none. */
  method ScanParenField(s: Str, ptr0: nat, num0: nat) returns (ptr: nat, num: nat, done: bool)
    requires ptr0 < |s| && s[ptr0] == '('
    ensures ptr0 <= ptr <= |s|
    ensures !done ==> ptr0 < ptr && ScanFrom(s, SkipSpaces(s, ptr), num) == ScanFrom(s, ptr0, num0)
    ensures done ==> ptr == ptr0 && num == 0 && ScanFrom(s, ptr0, num0) == NotFound
  {
    var end := IndexFrom(s, ptr0, ')');
    if end.None? {
      return ptr0, 0, true;
    }
    return end.value + 1, num0 + 1, false;
  }

  /** The regular branch: up to the next space, stopping at field 22. */
  method ScanPlainField(s: Str, ptr0: nat, num0: nat) returns (ptr: nat, num: nat, stop: nat, done: bool)
    requires ptr0 < |s| && s[ptr0] != '(' && ScanFrom(s, ptr0, num0) != Hangs
    ensures ptr0 <= ptr <= stop <= |s|
    ensures !done ==> stop == |s| && ptr0 < SkipSpaces(s, ptr) && ScanFrom(s, SkipSpaces(s, ptr), num) == ScanFrom(s, ptr0, num0)
    ensures done ==> ptr == ptr0 && num == START_TIME_FIELD && ScanFrom(s, ptr0, num0) == Field22(ptr, stop)
  {
    ptr, num, stop, done := ptr0, num0 + 1, |s|, false;
    var end := IndexFrom(s, ptr, ' ');
    if end.Some? {
      if num == START_TIME_FIELD {
        stop := end.value;
        done := true;
        return;
      }
      ptr := end.value;
    }
  }

  /** The `while (*ptr == ' ') ptr++;` loop. */
  method SkipSpacesFrom(s: Str, start: nat) returns (ptr: nat)
    requires start <= |s|
    ensures ptr == SkipSpaces(s, start)
  {
    ptr := start;
    while ptr < |s| && s[ptr] == ' '
      invariant start <= ptr <= |s|
      invariant SkipSpaces(s, ptr) == SkipSpaces(s, start)
    {
      ptr := ptr + 1;
    }
  }

  /** The C string held in a buffer: everything before the first NUL. */
  function CString(buf: Str): (r: Str)
    ensures r <= buf && '\0' !in r
  {
    IndexFromFirst(buf, 0, '\0');
    match IndexFrom(buf, 0, '\0')
    case None => buf
    case Some(i) => buf[..i]
  }

  /** How many bytes `fread` puts into the buffer, before the terminator is written. */
  function ReadLength(fileSize: nat): (n: nat)
    ensures n <= fileSize && n < BUFFER_SIZE
    ensures fileSize < BUFFER_SIZE ==> n == fileSize
  {
    if fileSize < BUFFER_SIZE - 1 then fileSize else BUFFER_SIZE - 1
  }

  /** The same count as the source computes it: up to the whole buffer. */
  function ReadLengthAsWritten(fileSize: nat): nat {
    if fileSize < BUFFER_SIZE then fileSize else BUFFER_SIZE
  }

  /** The whole function over the file content, for a scan that ends. */
  function StartTime(stat: Option<Str>): int
    requires stat.Some? ==> ScanFrom(CString(stat.value[..ReadLength(|stat.value|)]), 0, 0) != Hangs
  {
    match stat
    case None => -1
    case Some(content) =>
      if ReadLength(|content|) == 0 then -1
      else ResultOf(CString(content[..ReadLength(|content|)]), ScanFrom(CString(content[..ReadLength(|content|)]), 0, 0))
  }

  /**
   * With one byte kept for the terminator, `buffer[length] = '\0'` stays
   * inside the buffer for every file size, and a file of 4095 bytes or
   * more is read as its first 4095 bytes: the scan sees exactly those.
   */
  lemma TerminatorFits(stat: Str)
    requires |stat| >= BUFFER_SIZE - 1
    requires ScanFrom(CString(stat[..BUFFER_SIZE - 1]), 0, 0) != Hangs
    ensures ReadLength(|stat|) == BUFFER_SIZE - 1 < BUFFER_SIZE
    ensures var head := stat[..BUFFER_SIZE - 1]; head[..ReadLength(|head|)] == head
    ensures StartTime(Some(stat)) == StartTime(Some(stat[..BUFFER_SIZE - 1]))
  {
    assert stat[..BUFFER_SIZE - 1][..BUFFER_SIZE - 1] == stat[..BUFFER_SIZE - 1];
  }

  /** As written, the terminator index is the buffer size, one past its end, exactly for files of 4096 bytes or more. */
  lemma TerminatorOverrunsAsWritten(fileSize: nat)
    ensures ReadLengthAsWritten(fileSize) == BUFFER_SIZE <==> fileSize >= BUFFER_SIZE
    ensures fileSize < BUFFER_SIZE ==> ReadLengthAsWritten(fileSize) == ReadLength(fileSize)
  {
  }

  /** `get_process_start_time` with the file read as an input. */
  method GetProcessStartTime(stat: Option<Str>) returns (r: int)
    requires stat.Some? ==> ScanFrom(CString(stat.value[..ReadLength(|stat.value|)]), 0, 0) != Hangs
    ensures r == StartTime(stat)
  {
    if stat.None? {
      return -1;
    }
    var length := ReadLength(|stat.value|);
    if length == 0 {
      return -1;
    }
    r := ParseStartTime(CString(stat.value[..length]));
  }

  /** The `(` branch of one loop pass: the first `)` is just before `next`. */
  lemma {:induction false} ParenStep(s: Str, ptr: nat, num: nat, next: nat)
    requires ptr < next <= |s| && s[ptr] == '(' && IndexFrom(s, ptr, ')') == Some(next - 1)
    ensures ScanFrom(s, ptr, num) == ScanFrom(s, SkipSpaces(s, next), num + 1)
  {
  }

  /** The regular branch up to the space at `e`. */
  lemma {:induction false} PlainStep(s: Str, ptr: nat, num: nat, e: nat)
    requires ptr < |s| && s[ptr] != '(' && IndexFrom(s, ptr, ' ') == Some(e)
    ensures ptr <= e < |s|
    ensures ScanFrom(s, ptr, num) ==
      if num + 1 == START_TIME_FIELD then Field22(ptr, e) else ScanFrom(s, SkipSpaces(s, e), num + 1)
  {
  }

  /** A `(` without a closing `)` reports `-1`, whatever was counted. */
  lemma UnclosedParen(t: Str, num: nat)
    requires t != [] && t[0] == '(' && ')' !in t
    ensures ScanFrom(t, 0, num) == NotFound
  {
  }

  /** The last field without a trailing space makes the loop spin forever. */
  lemma LastFieldWithoutSpaceHangs(t: Str, num: nat)
    requires t != [] && t[0] != '(' && ' ' !in t
    ensures ScanFrom(t, 0, num) == Hangs
  {
  }
}
