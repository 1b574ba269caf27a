/**
 * `expand_shell_vars`: `$NAME` and `${NAME}` replaced by the value of the
 * environment variable NAME, or by nothing when it is unset. NAME is the
 * longest run of alphanumerics and underscores after the `$` (or `${`);
 * the closing brace is consumed only when it is there. The process
 * environment (`getenv`) is the map `env`.
 */
module ShellVars {
  import opened CStrings

  type Env = map<Str, Str>

  predicate IsNameChar(c: char) {
    IsAlnum(c) || c == '_'
  }

  /** `getenv`: the value, or nothing when the variable is unset. */
  function Lookup(env: Env, name: Str): Str {
    if name in env then env[name] else ""
  }

  /** Length of the longest prefix of `s` made of name characters. */
  function NameRun(s: Str): (n: nat)
    ensures n <= |s|
    ensures forall i :: 0 <= i < n ==> IsNameChar(s[i])
    ensures n < |s| ==> !IsNameChar(s[n])
  {
    if s != [] && IsNameChar(s[0]) then 1 + NameRun(s[1..]) else 0
  }

  lemma NameRunIs(s: Str, n: nat)
    requires n <= |s|
    requires forall i :: 0 <= i < n ==> IsNameChar(s[i])
    requires n < |s| ==> !IsNameChar(s[n])
    ensures NameRun(s) == n
  {
  }

  /**
   * For `s` starting with `$`: the variable name and the length of the whole
   * `$NAME`, `${NAME}` or `${NAME` token.
   */
  function VarToken(s: Str): (t: (Str, nat))
    requires s != [] && s[0] == '$'
    ensures 1 <= t.1 <= |s|
  {
    if |s| > 1 && s[1] == '{' then
      var end := 2 + NameRun(s[2..]);
      (s[2..end], if end < |s| && s[end] == '}' then end + 1 else end)
    else
      var end := 1 + NameRun(s[1..]);
      (s[1..end], end)
  }

  /** The text `expand_shell_vars` produces for `s`. */
  function Expand(env: Env, s: Str): Str
    decreases |s|
  {
    if s == [] then []
    else if s[0] != '$' then [s[0]] + Expand(env, s[1..])
    else
      var t := VarToken(s);
      Lookup(env, t.0) + Expand(env, s[t.1..])
  }

  /** Where the name of the token at `at` starts: after `$`, or after `${`. */
  function NameStart(str: Str, at: nat): nat
    requires at < |str|
  {
    if at + 1 < |str| && str[at + 1] == '{' then at + 2 else at + 1
  }

  /** A name read from `NameStart` up to `end`, where no name character follows, is the token's name. */
  lemma TokenAt(str: Str, at: nat, end: nat)
    requires at < |str| && str[at] == '$'
    requires NameStart(str, at) <= end <= |str|
    requires NameRun(str[NameStart(str, at)..]) == end - NameStart(str, at)
    ensures VarToken(str[at..]).0 == str[NameStart(str, at)..end]
    ensures VarToken(str[at..]).1 + at ==
      if NameStart(str, at) == at + 2 && end < |str| && str[end] == '}' then end + 1 else end
  {
    var s := str[at..];
    if at + 1 < |str| && str[at + 1] == '{' {
      assert |s| > 1 && s[1] == '{';
      assert s[2..] == str[at + 2..];
      assert s[2..end - at] == str[at + 2..end];
      assert end < |str| ==> s[end - at] == str[end];
    } else {
      assert !(|s| > 1 && s[1] == '{');
      assert s[1..] == str[at + 1..];
      assert s[1..end - at] == str[at + 1..end];
    }
  }

  /** The copy loop of the name: name characters from `start` on. */
  method ReadName(str: Str, start: nat) returns (varname: Str, end: nat)
    requires start <= |str|
    ensures start <= end <= |str| && varname == str[start..end]
    ensures NameRun(str[start..]) == end - start
  {
    end := start;
    varname := [];
    while end < |str| && str[end] != '}' && IsNameChar(str[end])
      invariant start <= end <= |str|
      invariant varname == str[start..end]
      invariant forall i :: start <= i < end ==> IsNameChar(str[i])
    {
      varname := varname + [str[end]];
      end := end + 1;
      assert str[start..end] == str[start..end - 1] + [str[end - 1]];
    }
    NameRunIs(str[start..], end - start);
  }

  /** The name-reading part of the pointer walk, from the `$` at `at`. */
  method ReadVarName(str: Str, at: nat) returns (varname: Str, src: nat)
    requires at < |str| && str[at] == '$'
    ensures at < src <= |str|
    ensures (varname, src - at) == VarToken(str[at..])
  {
    src := at + 1;
    var braced := src < |str| && str[src] == '{';
    if braced {
      src := src + 1;
    }
    assert src == NameStart(str, at);
    varname, src := ReadName(str, src);
    TokenAt(str, at, src);
    if braced && src < |str| && str[src] == '}' {
      src := src + 1;
    }
  }

  /** One character that is not `$` is copied. */
  lemma LiteralAt(env: Env, str: Str, src: nat)
    requires src < |str| && str[src] != '$'
    ensures Expand(env, str[src..]) == [str[src]] + Expand(env, str[src + 1..])
  {
    assert str[src..][1..] == str[src + 1..];
  }

  /** The token at `at` is replaced by the variable's value. */
  lemma VariableAt(env: Env, str: Str, at: nat, varname: Str, src: nat)
    requires at < src <= |str| && str[at] == '$'
    requires (varname, src - at) == VarToken(str[at..])
    ensures Expand(env, str[at..]) == Lookup(env, varname) + Expand(env, str[src..])
  {
    assert str[at..][src - at..] == str[src..];
  }

  lemma LiteralStep(env: Env, str: Str, src: nat, dest: Str)
    requires src < |str| && str[src] != '$'
    ensures (dest + [str[src]]) + Expand(env, str[src + 1..]) == dest + Expand(env, str[src..])
  {
    LiteralAt(env, str, src);
    Associative(dest, [str[src]], Expand(env, str[src + 1..]));
  }

  lemma VariableStep(env: Env, str: Str, at: nat, varname: Str, src: nat, dest: Str)
    requires at < src <= |str| && str[at] == '$'
    requires (varname, src - at) == VarToken(str[at..])
    ensures (dest + Lookup(env, varname)) + Expand(env, str[src..]) == dest + Expand(env, str[at..])
  {
    VariableAt(env, str, at, varname, src);
    Associative(dest, Lookup(env, varname), Expand(env, str[src..]));
  }

  lemma Associative(a: Str, b: Str, c: Str)
    ensures (a + b) + c == a + (b + c)
  {
  }

  /** The `while (*value) *dest++ = *value++;` copy. */
  method CopyValue(dest: Str, value: Str) returns (r: Str)
    ensures r == dest + value
  {
    r := dest;
    var k := 0;
    while k < |value|
      invariant 0 <= k <= |value|
      invariant r == dest + value[..k]
    {
      r := r + [value[k]];
      k := k + 1;
    }
    assert value[..k] == value;
  }

  /** Every name the walk reads from `str`, with its NUL, fits a `varname` buffer of `capacity` bytes. */
  predicate NamesFit(str: Str, capacity: nat)
    decreases |str|
  {
    if str == [] then true
    else if str[0] != '$' then NamesFit(str[1..], capacity)
    else |VarToken(str).0| < capacity && NamesFit(str[VarToken(str).1..], capacity)
  }

  /** A text shorter than the buffer holds no name too long for it. */
  lemma {:induction false} ShortTextNamesFit(str: Str, capacity: nat)
    requires |str| < capacity
    ensures NamesFit(str, capacity)
    decreases |str|
  {
    if str != [] {
      if str[0] != '$' {
        ShortTextNamesFit(str[1..], capacity);
      } else {
        ShortTextNamesFit(str[VarToken(str).1..], capacity);
      }
    }
  }

  /**
   * The pointer walk of `expand_shell_vars` over two stack buffers of
   * `capacity` bytes (4096 in the full variant, 1024 in the logger): the
   * output and `varname`. The source writes both without a bound check, so
   * the expansion and every name, each with its terminating NUL, must fit:
   * that is this method's precondition.
   */
  method ExpandShellVars(env: Env, str: Str, capacity: nat) returns (r: Str)
    requires |Expand(env, str)| < capacity && NamesFit(str, capacity)
    ensures r == Expand(env, str)
    ensures |r| < capacity
  {
    var src := 0;
    var dest: Str := [];
    while src < |str|
      invariant 0 <= src <= |str|
      invariant dest + Expand(env, str[src..]) == Expand(env, str)
    {
      if str[src] == '$' {
        ghost var at := src;
        var varname;
        varname, src := ReadVarName(str, src);
        var value := Lookup(env, varname);
        VariableStep(env, str, at, varname, src, dest);
        dest := CopyValue(dest, value);
      } else {
        LiteralStep(env, str, src, dest);
        dest := dest + [str[src]];
        src := src + 1;
      }
    }
    assert str[src..] == [];
    r := dest;
  }

  /** Text without `$` is returned unchanged. */
  lemma {:induction false} NoDollarUnchanged(env: Env, s: Str)
    requires '$' !in s
    ensures Expand(env, s) == s
    decreases |s|
  {
    if s != [] {
      NoDollarUnchanged(env, s[1..]);
    }
  }

  /** A `$`-free head is copied verbatim and expansion continues behind it. */
  lemma {:induction false} LiteralPrefix(env: Env, a: Str, b: Str)
    requires '$' !in a
    ensures Expand(env, a + b) == a + Expand(env, b)
    decreases |a|
  {
    if a == [] {
      assert a + b == b;
    } else {
      assert a[0] in a;
      assert (a + b)[0] == a[0];
      assert (a + b)[1..] == a[1..] + b;
      assert Expand(env, a + b) == [a[0]] + Expand(env, a[1..] + b);
      LiteralPrefix(env, a[1..], b);
      calc {
        Expand(env, a + b);
        [a[0]] + (a[1..] + Expand(env, b));
        ([a[0]] + a[1..]) + Expand(env, b);
        { assert [a[0]] + a[1..] == a; }
        a + Expand(env, b);
      }
    }
  }

  /** `$NAME` followed by a character that cannot continue NAME. */
  lemma PlainVariable(env: Env, name: Str, rest: Str)
    requires forall i :: 0 <= i < |name| ==> IsNameChar(name[i])
    requires rest == [] || !IsNameChar(rest[0])
    requires name == [] ==> rest == [] || rest[0] != '{'
    ensures Expand(env, "$" + name + rest) == Lookup(env, name) + Expand(env, rest)
  {
    var s := "$" + name + rest;
    assert s[1..] == name + rest;
    NameRunIs(name + rest, |name|);
    assert s[1..1 + |name|] == name;
    assert s[1 + |name|..] == rest;
  }

  /** `${NAME}`: the closing brace is consumed. */
  lemma BracedVariable(env: Env, name: Str, rest: Str)
    requires forall i :: 0 <= i < |name| ==> IsNameChar(name[i])
    ensures Expand(env, "${" + name + "}" + rest) == Lookup(env, name) + Expand(env, rest)
  {
    var s := "${" + name + "}" + rest;
    assert s[2..] == name + "}" + rest;
    NameRunIs(s[2..], |name|);
    assert s[2..2 + |name|] == name;
    assert s[3 + |name|..] == rest;
  }

  /** `${NAME` without its closing brace: the next character is kept. */
  lemma UnclosedBrace(env: Env, name: Str, rest: Str)
    requires forall i :: 0 <= i < |name| ==> IsNameChar(name[i])
    requires rest != [] && rest[0] != '}' && !IsNameChar(rest[0])
    ensures Expand(env, "${" + name + rest) == Lookup(env, name) + Expand(env, rest)
  {
    var s := "${" + name + rest;
    assert s[2..] == name + rest;
    NameRunIs(s[2..], |name|);
    assert s[2..2 + |name|] == name;
    assert s[2 + |name|..] == rest;
  }

  /** When no value holds a `$`, the expansion holds none. */
  lemma {:induction false} NoDollarLeft(env: Env, s: Str)
    requires forall n :: n in env ==> '$' !in env[n]
    ensures '$' !in Expand(env, s)
    decreases |s|
  {
    if s == [] {
    } else if s[0] != '$' {
      NoDollarLeft(env, s[1..]);
    } else {
      NoDollarLeft(env, s[VarToken(s).1..]);
    }
  }

  /** Expanding twice is expanding once, when no value holds a `$`. */
  lemma Idempotent(env: Env, s: Str)
    requires forall n :: n in env ==> '$' !in env[n]
    ensures Expand(env, Expand(env, s)) == Expand(env, s)
  {
    NoDollarLeft(env, s);
    NoDollarUnchanged(env, Expand(env, s));
  }

  /** The default log directory of both variants. */
  lemma DefaultLogDir(env: Env)
    ensures Expand(env, "${HOME}/.vdi/logs") == Lookup(env, "HOME") + "/.vdi/logs"
  {
    var name, tail := "HOME", "/.vdi/logs";
    assert "${HOME}/.vdi/logs" == "${" + name + "}" + tail;
    assert '$' !in tail by {
      assert tail == ['/'] + ['.', 'v', 'd', 'i'] + ['/', 'l', 'o', 'g', 's'];
    }
    BracedVariable(env, name, tail);
    NoDollarUnchanged(env, tail);
  }
}
