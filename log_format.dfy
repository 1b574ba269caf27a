/**
 * The audit line `log_call` writes. The logger's line is the function name
 * and its arguments separated by single spaces, then one newline; the full
 * library puts ten context columns in front. Both first add up the length
 * the line will need, then build it with `strcat`.
 */
module LogFormat {
  import opened CStrings

  const COLUMN_SEPARATOR := " "
  const NEW_LINE := "\n"

  /** A line of columns: single spaces between them, one newline at the end. */
  function Line(columns: seq<Str>): Str {
    Join(columns, COLUMN_SEPARATOR) + NEW_LINE
  }

  /** The logger's line: the function name, then its arguments. */
  function CallLine(func: Str, args: seq<Str>): Str {
    Line([func] + args)
  }

  /** The context the full library writes before the function name, column by column. */
  datatype Context = Context(
    time: Str, host: Str, user: Str, home: Str, ids: Str,
    cwd: Str, exe: Str, args: Str, start: Str, elapsed: Str)
  {
    function Columns(): (cs: seq<Str>)
      ensures |cs| == 10
    {
      [time, host, user, home, ids, cwd, exe, args, start, elapsed]
    }
  }

  /** The full library's line. */
  function ContextLine(ctx: Context, func: Str, args: seq<Str>): Str {
    Line(ctx.Columns() + [func] + args)
  }

  /**
   * The common tail of both `log_call`s: the length pass and the `strcat`
   * pass over the function name and its arguments, after `line` (of
   * precomputed length `len`).
   */
  method AppendCall(line0: Str, len0: nat, func: Str, args: seq<Str>) returns (line: Str, len: nat)
    requires len0 == |line0|
    ensures line == line0 + Join([func] + args, COLUMN_SEPARATOR)
    ensures len == |line|
  {
    len := CallLength(len0, func, args);
    line := CallText(line0, func, args);
  }

  /** The length pass: the name, then each argument, separators only between them. */
  method CallLength(len0: nat, func: Str, args: seq<Str>) returns (len: nat)
    ensures len == len0 + |Join([func] + args, COLUMN_SEPARATOR)|
  {
    len := len0 + |func|;
    if |args| > 0 {
      len := len + |COLUMN_SEPARATOR|;
    }
    var i := 0;
    while i < |args|
      invariant i <= |args|
      invariant len == len0 + |Join([func] + args[..i], COLUMN_SEPARATOR)| + (if i < |args| then 1 else 0)
    {
      JoinSnoc([func] + args[..i], args[i], COLUMN_SEPARATOR);
      assert [func] + args[..i + 1] == ([func] + args[..i]) + [args[i]];
      len := len + |args[i]|;
      if i < |args| - 1 {
        len := len + |COLUMN_SEPARATOR|;
      }
      i := i + 1;
    }
    assert args[..i] == args;
  }

  /** The `strcat` pass: the name, then each argument, separators only between them. */
  method CallText(line0: Str, func: Str, args: seq<Str>) returns (line: Str)
    ensures line == line0 + Join([func] + args, COLUMN_SEPARATOR)
  {
    line := line0 + func;
    if |args| > 0 {
      line := line + COLUMN_SEPARATOR;
    }
    var i := 0;
    while i < |args|
      invariant i <= |args|
      invariant line == line0 + Join([func] + args[..i], COLUMN_SEPARATOR) + (if i < |args| then COLUMN_SEPARATOR else "")
    {
      JoinSnoc([func] + args[..i], args[i], COLUMN_SEPARATOR);
      assert [func] + args[..i + 1] == ([func] + args[..i]) + [args[i]];
      line := line + args[i];
      if i < |args| - 1 {
        line := line + COLUMN_SEPARATOR;
      }
      i := i + 1;
    }
    assert args[..i] == args;
  }

  /**
   * The logger's line. `len` is `log_string_len`, the size asked of
   * `malloc`: the line and its terminator.
   */
  method BuildCallLine(func: Str, args: seq<Str>) returns (line: Str, len: nat)
    ensures line == CallLine(func, args)
    ensures len == |line| + 1
  {
    line, len := AppendCall([], 0, func, args);
    line := line + NEW_LINE;
    len := len + |NEW_LINE| + 1;
  }

  /** The full library's line: each context column followed by a space, then the call. */
  method BuildContextLine(ctx: Context, func: Str, args: seq<Str>) returns (line: Str, len: nat)
    ensures line == ContextLine(ctx, func, args)
    ensures len == |line| + 1
  {
    var columns := ctx.Columns();
    line, len := [], 0;
    var i := 0;
    while i < |columns|
      invariant i <= |columns|
      invariant len == |line|
      invariant line == Prefixed(columns[..i])
    {
      assert columns[..i + 1][..i] == columns[..i];
      line := line + columns[i] + COLUMN_SEPARATOR;
      len := len + |columns[i]| + |COLUMN_SEPARATOR|;
      i := i + 1;
    }
    assert columns[..i] == columns;
    line, len := AppendCall(line, len, func, args);
    line := line + NEW_LINE;
    len := len + |NEW_LINE| + 1;
    ContextThenCall(ctx, func, args);
  }

  /** Columns each followed by a separator. */
  function Prefixed(cs: seq<Str>): Str
    decreases |cs|
  {
    if cs == [] then [] else Prefixed(cs[..|cs| - 1]) + cs[|cs| - 1] + COLUMN_SEPARATOR
  }

  lemma {:induction false} PrefixedJoin(cs: seq<Str>, rest: seq<Str>)
    requires rest != []
    ensures Prefixed(cs) + Join(rest, COLUMN_SEPARATOR) == Join(cs + rest, COLUMN_SEPARATOR)
    decreases |cs|
  {
    if cs == [] {
      assert cs + rest == rest;
    } else {
      var init := cs[..|cs| - 1];
      var last := cs[|cs| - 1];
      assert cs + rest == init + ([last] + rest);
      PrefixedJoin(init, [last] + rest);
      assert ([last] + rest)[1..] == rest;
      assert Join([last] + rest, COLUMN_SEPARATOR) == last + COLUMN_SEPARATOR + Join(rest, COLUMN_SEPARATOR);
      calc {
        Prefixed(cs) + Join(rest, COLUMN_SEPARATOR);
        Prefixed(init) + last + COLUMN_SEPARATOR + Join(rest, COLUMN_SEPARATOR);
        Prefixed(init) + Join([last] + rest, COLUMN_SEPARATOR);
      }
    }
  }

  /** The full library's line is its context columns, a space, and the logger's line. */
  lemma ContextThenCall(ctx: Context, func: Str, args: seq<Str>)
    ensures ContextLine(ctx, func, args) == Prefixed(ctx.Columns()) + CallLine(func, args)
    ensures ContextLine(ctx, func, args) == Join(ctx.Columns(), COLUMN_SEPARATOR) + COLUMN_SEPARATOR + CallLine(func, args)
  {
    PrefixedJoin(ctx.Columns(), [func] + args);
    assert ctx.Columns() + [func] + args == ctx.Columns() + ([func] + args);
    PrefixedJoin(ctx.Columns()[..9], [ctx.elapsed]);
    assert ctx.Columns()[..9] + [ctx.elapsed] == ctx.Columns();
    assert Prefixed(ctx.Columns()) == Prefixed(ctx.Columns()[..9]) + ctx.elapsed + COLUMN_SEPARATOR;
  }

  /** The only newline of a line is its last character, when no column holds one. */
  lemma OneNewline(columns: seq<Str>)
    requires columns != []
    requires forall k :: 0 <= k < |columns| ==> '\n' !in columns[k]
    ensures var l := Line(columns); |l| >= 1 && l[|l| - 1] == '\n' && '\n' !in l[..|l| - 1]
  {
    JoinAvoids(columns, COLUMN_SEPARATOR, '\n');
    var l := Line(columns);
    assert l[..|l| - 1] == Join(columns, COLUMN_SEPARATOR);
  }

  /** Columns without spaces are recovered by splitting the line at its spaces. */
  lemma LineSplits(columns: seq<Str>)
    requires columns != []
    requires forall k :: 0 <= k < |columns| ==> ' ' !in columns[k]
    ensures var l := Line(columns); Split(l[..|l| - 1], ' ') == columns
  {
    var l := Line(columns);
    assert l[..|l| - 1] == Join(columns, COLUMN_SEPARATOR);
    SplitJoin(columns, ' ');
  }

  /** The character before the newline is the last column's own last character, never an added space. */
  lemma NoTrailingSpace(func: Str, args: seq<Str>)
    requires var cs := [func] + args; cs[|cs| - 1] != [] && cs[|cs| - 1][|cs[|cs| - 1]| - 1] != ' '
    ensures var l := CallLine(func, args); |l| >= 2 && l[|l| - 2] != ' '
  {
    var cs := [func] + args;
    JoinLast(cs, COLUMN_SEPARATOR);
    var l := CallLine(func, args);
    assert l[|l| - 2] == Join(cs, COLUMN_SEPARATOR)[|Join(cs, COLUMN_SEPARATOR)| - 1];
  }

  /** Without arguments the logger's line is the function name and the newline. */
  lemma NoArgs(func: Str)
    ensures CallLine(func, []) == func + "\n"
  {
    assert [func] + [] == [func];
  }
}
