/**
 * The program-arguments column of the vdi.c log line: the bytes of
 * `/proc/<pid>/cmdline` (the arguments, each followed by a NUL) rewritten
 * so that they fit in one space-separated column. A NUL that still has two
 * bytes after it becomes the argument separator `%%`, a space or a tab
 * becomes `##`, and every other byte is copied.
 */
module Cmdline {
  import opened CStrings

  const ARG_SEPARATOR := "%%"
  const WHITESPACE_SUBSTITUTE := "##"
  const PROGRAM_ARGS_ERROR := "PROGRAM_ARGS_ERROR"
  /** `char buffer[MAX_BUFFER_SIZE]`: `fread` takes at most this many bytes. */
  const READ_SIZE := 4096
  /** `malloc(MAX_BUFFER_SIZE)`: the size of the output buffer as written. */
  const OUTPUT_SIZE_AS_WRITTEN := 4096

  predicate IsBlank(c: char) {
    c == ' ' || c == '\t'
  }

  /**
   * The visible C string built so far, and whether the write index `pas_len`
   * has moved past its terminator (a NUL copied near the end of the buffer).
   */
  datatype Out = Out(text: Str, terminated: bool)

  /** One iteration of the loop, on byte `c` at index `i` of a buffer of `len` bytes. */
  function Step(o: Out, c: char, i: nat, len: nat): Out {
    if c == '\0' && i + 2 < len then Out(o.text + ARG_SEPARATOR, o.terminated)
    else if IsBlank(c) then Out(o.text + WHITESPACE_SUBSTITUTE, o.terminated)
    else if o.terminated then o
    else if c == '\0' then Out(o.text, true)
    else Out(o.text + [c], false)
  }

  /** The loop over the first `|b|` bytes of a buffer of `len` bytes. */
  function Run(b: Str, len: nat): Out
    decreases |b|
  {
    if b == [] then Out([], false)
    else Step(Run(b[..|b| - 1], len), b[|b| - 1], |b| - 1, len)
  }

  function Rewrite(buf: Str): Str {
    Run(buf, |buf|).text
  }

  /**
   * The rewrite loop over a buffer that `fread` filled. `used` is the final
   * `pas_len`, the index at which the last terminator was written.
   */
  method RewriteArgs(buf: Str) returns (args: Str, used: nat)
    ensures args == Rewrite(buf)
    ensures |args| <= used
    ensures used + 1 <= ArgsCapacity(|buf|)
  {
    args := [];
    var pasLen := 0;
    var i := 0;
    while i < |buf|
      invariant i <= |buf|
      invariant |args| <= pasLen <= 2 * i
      invariant Run(buf[..i], |buf|) == Out(args, pasLen > |args|)
    {
      assert buf[..i + 1][..i] == buf[..i];
      var c := buf[i];
      if c == '\0' && i + 2 < |buf| {
        args := args + ARG_SEPARATOR;
        pasLen := pasLen + |ARG_SEPARATOR|;
      } else if c == ' ' || c == '\t' {
        args := args + WHITESPACE_SUBSTITUTE;
        pasLen := pasLen + |WHITESPACE_SUBSTITUTE|;
      } else {
        // the byte lands at pas_len, which is the end of the visible string
        // until a NUL has been copied there
        if pasLen == |args| && c != '\0' {
          args := args + [c];
        }
        pasLen := pasLen + 1;
      }
      i := i + 1;
    }
    assert buf[..i] == buf;
    used := pasLen;
  }

  /** The rewritten arguments of a process, or the error text when the file is unreadable or empty. */
  function ProgramArgs(cmdline: Option<Str>): Str {
    match cmdline
    case None => PROGRAM_ARGS_ERROR
    case Some(content) =>
      var buf := if |content| <= READ_SIZE then content else content[..READ_SIZE];
      if buf == [] then PROGRAM_ARGS_ERROR else Rewrite(buf)
  }

  method GetProgramArgs(cmdline: Option<Str>) returns (r: Str)
    ensures r == ProgramArgs(cmdline)
    ensures r != PROGRAM_ARGS_ERROR ==> ' ' !in r && '\t' !in r
  {
    if cmdline.None? {
      return PROGRAM_ARGS_ERROR;
    }
    var length := if |cmdline.value| <= READ_SIZE then |cmdline.value| else READ_SIZE;
    var buf := cmdline.value[..length];
    assert |cmdline.value| <= READ_SIZE ==> buf == cmdline.value;
    if length == 0 {
      return PROGRAM_ARGS_ERROR;
    }
    var used;
    r, used := RewriteArgs(buf);
    NoBlanks(buf);
  }

  // ---------------------------------------------------------------------
  // What the rewrite means.

  /** The rewrite of a single byte when no terminator gets in the way. */
  function SubstChar(c: char): Str {
    if c == '\0' then ARG_SEPARATOR
    else if IsBlank(c) then WHITESPACE_SUBSTITUTE
    else [c]
  }

  /** The byte-by-byte substitution, the reference the loop is compared with. */
  function Subst(s: Str): Str
    decreases |s|
  {
    if s == [] then [] else Subst(s[..|s| - 1]) + SubstChar(s[|s| - 1])
  }

  lemma {:induction false} SubstAppend(a: Str, b: Str)
    ensures Subst(a + b) == Subst(a) + Subst(b)
    decreases |b|
  {
    if b == [] {
      assert a + b == a;
    } else {
      assert (a + b)[..|a + b| - 1] == a + b[..|b| - 1];
      assert (a + b)[|a + b| - 1] == b[|b| - 1];
      SubstAppend(a, b[..|b| - 1]);
    }
  }

  /**
   * Every NUL of `p` that the loop reaches has two more bytes after it in the
   * buffer: the loop over `p` is the plain substitution.
   */
  lemma {:induction false} RunIsSubst(p: Str, len: nat)
    requires forall i :: 0 <= i < |p| && p[i] == '\0' ==> i + 2 < len
    ensures Run(p, len) == Out(Subst(p), false)
    decreases |p|
  {
    if p != [] {
      RunIsSubst(p[..|p| - 1], len);
    }
  }

  /** The output never holds a space, a tab or a NUL. */
  lemma {:induction false} NoBlanksRun(b: Str, len: nat)
    ensures ' ' !in Run(b, len).text && '\t' !in Run(b, len).text && '\0' !in Run(b, len).text
    decreases |b|
  {
    if b != [] {
      NoBlanksRun(b[..|b| - 1], len);
    }
  }

  lemma NoBlanks(buf: Str)
    ensures ' ' !in Rewrite(buf) && '\t' !in Rewrite(buf) && '\0' !in Rewrite(buf)
  {
    NoBlanksRun(buf, |buf|);
  }

  /** The arguments column, error text included, never holds a space or a tab. */
  lemma ProgramArgsNoBlanks(cmdline: Option<Str>)
    ensures ' ' !in ProgramArgs(cmdline) && '\t' !in ProgramArgs(cmdline)
  {
    if cmdline.Some? {
      var content := cmdline.value;
      var buf := if |content| <= READ_SIZE then content else content[..READ_SIZE];
      if buf != [] {
        NoBlanks(buf);
      }
    }
  }

  /** A NUL-terminated argument vector, as the kernel lays it out. */
  function Flat(args: seq<Str>): Str
    decreases |args|
  {
    if args == [] then [] else Flat(args[..|args| - 1]) + args[|args| - 1] + "\0"
  }

  function SubstAll(args: seq<Str>): seq<Str>
    ensures |SubstAll(args)| == |args|
    decreases |args|
  {
    if args == [] then [] else SubstAll(args[..|args| - 1]) + [Subst(args[|args| - 1])]
  }

  /** The NULs between arguments are separators: Flat without its last NUL is a Join. */
  lemma {:induction false} FlatIsJoin(args: seq<Str>)
    requires args != []
    ensures Flat(args) == Join(args, "\0") + "\0"
    decreases |args|
  {
    var n := |args|;
    if n > 1 {
      FlatIsJoin(args[..n - 1]);
      JoinSnoc(args[..n - 1], args[n - 1], "\0");
      assert args[..n - 1] + [args[n - 1]] == args;
    } else {
      assert Flat(args[..0]) == [];
    }
  }

  lemma {:induction false} SubstJoin(args: seq<Str>)
    requires args != []
    ensures Subst(Join(args, "\0")) == Join(SubstAll(args), ARG_SEPARATOR)
    decreases |args|
  {
    var n := |args|;
    if n > 1 {
      var init := args[..n - 1];
      SubstJoin(init);
      JoinSnoc(init, args[n - 1], "\0");
      assert init + [args[n - 1]] == args;
      SubstAppend(Join(init, "\0") + "\0", args[n - 1]);
      SubstAppend(Join(init, "\0"), "\0");
      assert Subst("\0") == Subst([]) + SubstChar('\0');
      JoinSnoc(SubstAll(init), Subst(args[n - 1]), ARG_SEPARATOR);
      assert SubstAll(init) + [Subst(args[n - 1])] == SubstAll(args);
    } else {
      assert SubstAll(args) == [Subst(args[0])];
    }
  }

  /**
   * The rewrite of a command line whose arguments hold no NUL and whose last
   * argument is not empty: each argument with its blanks substituted, joined
   * by `%%`.
   */
  lemma RewriteOfArgv(args: seq<Str>)
    requires args != [] && args[|args| - 1] != []
    requires forall k :: 0 <= k < |args| ==> '\0' !in args[k]
    ensures Rewrite(Flat(args)) == Join(SubstAll(args), ARG_SEPARATOR)
  {
    FlatIsJoin(args);
    var j := Join(args, "\0");
    JoinLast(args, "\0");
    var last := args[|args| - 1];
    assert last[|last| - 1] in last;
    RewriteLastNul(j);
    SubstJoin(args);
  }

  /** A buffer ending in a non-NUL byte and one NUL: the loop substitutes everything before the NUL. */
  lemma RewriteLastNul(j: Str)
    requires |j| > 0 && j[|j| - 1] != '\0'
    ensures Rewrite(j + "\0") == Subst(j)
  {
    var buf := j + "\0";
    var n := |buf|;
    var p := j[..|j| - 1];
    assert buf[..n - 1] == j;
    assert j[..|j| - 1] == p;
    RunIsSubst(p, n);
    assert Run(j, n) == Step(Out(Subst(p), false), j[|j| - 1], |j| - 1, n);
    assert Subst(j) == Subst(p) + SubstChar(j[|j| - 1]);
  }

  // ---------------------------------------------------------------------
  // The size of the output buffer.

  /** Each byte turns into at most two characters. */
  lemma {:induction false} RunLength(b: Str, len: nat)
    ensures |Run(b, len).text| <= 2 * |b|
    decreases |b|
  {
    if b != [] {
      RunLength(b[..|b| - 1], len);
    }
  }

  /** The output buffer the rewrite needs: two characters per byte and a terminator. */
  function ArgsCapacity(len: nat): nat {
    2 * len + 1
  }

  lemma RewriteFits(buf: Str)
    ensures |Rewrite(buf)| + 1 <= ArgsCapacity(|buf|)
  {
    RunLength(buf, |buf|);
  }

  function Blanks(n: nat): (r: Str)
    ensures |r| == n && forall k :: 0 <= k < n ==> r[k] == ' '
  {
    seq(n, k => ' ')
  }

  lemma {:induction false} SubstBlanks(n: nat)
    ensures Subst(Blanks(n)) == seq(2 * n, k => '#')
    decreases n
  {
    if n > 0 {
      assert Blanks(n)[..n - 1] == Blanks(n - 1);
      SubstBlanks(n - 1);
    }
  }

  /**
   * As written the output buffer has 4096 bytes: a command line of 2048
   * spaces, well within what `fread` takes, is rewritten to 4096 characters
   * whose terminator lands past the end of the buffer.
   */
  lemma ArgsOverflowAsWritten()
    ensures var buf := Blanks(2048);
      |buf| <= READ_SIZE && |Rewrite(buf)| + 1 > OUTPUT_SIZE_AS_WRITTEN
  {
    var buf := Blanks(2048);
    RunIsSubst(buf, |buf|);
    SubstBlanks(2048);
  }
}
