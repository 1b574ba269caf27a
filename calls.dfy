/**
 * The intercepted calls: the arguments each one logs (every one written
 * with `snprintf(..., MAX_STRING_LEN-1, ...)`) and the argument list it
 * passes on to the real function. `open` and `openat` read their mode
 * argument, log it and pass it on only when `O_CREAT` is in the flags;
 * `open64` always does.
 */
module Calls {
  import opened CStrings
  import opened OpenFlags

  /** `MAX_STRING_LEN - 1`, the size given to `snprintf` for each logged argument. */
  const ARG_SIZE := 1023

  datatype Call =
    | Open(path: Str, flags: bv32, mode: bv32)
    | Open64(path: Str, flags: bv32, mode: bv32)
    | OpenAt(dirfd: int, path: Str, flags: bv32, mode: bv32)
    | Fopen(path: Str, fmode: Str)
    | Fopen64(path: Str, fmode: Str)
    /** `stream` is the `%p` rendering of the stream pointer. */
    | Freopen(path: Str, fmode: Str, stream: Str)
    | Fopenat(dirfd: int, path: Str, fmode: Str)
  {
    /** `__func__` of the wrapper. */
    function Name(): Str {
      match this
      case Open(_, _, _) => "open"
      case Open64(_, _, _) => "open64"
      case OpenAt(_, _, _, _) => "openat"
      case Fopen(_, _) => "fopen"
      case Fopen64(_, _) => "fopen64"
      case Freopen(_, _, _) => "freopen"
      case Fopenat(_, _, _) => "fopenat"
    }

    /** The same call on another path. */
    function WithPath(p: Str): (c: Call)
      ensures c.path == p && c.Name() == Name()
    {
      this.(path := p)
    }
  }

  /** An argument as the real function receives it. */
  datatype Value = Int(i: int) | Text(s: Str)

  /** `flags & O_CREAT`, a C truth value. */
  predicate Creates(k: Constants, flags: bv32) {
    flags & k.creat != 0
  }

  /** Whether the mode argument is read and passed on. */
  predicate PassesMode(k: Constants, c: Call) {
    c.Open64? || ((c.Open? || c.OpenAt?) && Creates(k, c.flags))
  }

  /** The logged mode, present only with `O_CREAT`. */
  function ModeTail(k: Constants, flags: bv32, mode: bv32): (r: seq<Str>)
    ensures |r| == if Creates(k, flags) then 1 else 0
  {
    if Creates(k, flags) then [ModeArg(mode)] else []
  }

  function Untruncated(k: Constants, c: Call): seq<Str> {
    match c
    case Open(p, f, m) => [p, FlagsArg(k, f)] + ModeTail(k, f, m)
    case Open64(p, f, m) => [p, FlagsArg(k, f), ModeArg(m)]
    case OpenAt(d, p, f, m) => [Decimal(d), p, FlagsArg(k, f)] + ModeTail(k, f, m)
    case Fopen(p, m) => [p, m]
    case Fopen64(p, m) => [p, m]
    case Freopen(p, m, s) => [p, m, s]
    case Fopenat(d, p, m) => [Decimal(d), p, m]
  }

  /** The logged arguments, each cut to the `snprintf` size. */
  function LoggedArgs(k: Constants, c: Call): (args: seq<Str>)
    ensures |args| == |Untruncated(k, c)|
    ensures forall i :: 0 <= i < |args| ==> args[i] == Truncate(Untruncated(k, c)[i], ARG_SIZE)
  {
    var u := Untruncated(k, c);
    seq(|u|, i requires 0 <= i < |u| => Truncate(u[i], ARG_SIZE))
  }

  /** The `snprintf` calls that fill the argument array, the flags rendered by `map_flags_to_strings`. */
  method LogArgs(k: Constants, c: Call) returns (args: seq<Str>)
    ensures args == LoggedArgs(k, c)
  {
    var u := RawArgs(k, c);
    args := seq(|u|, i requires 0 <= i < |u| => Truncate(u[i], ARG_SIZE));
  }

  method RawArgs(k: Constants, c: Call) returns (u: seq<Str>)
    ensures u == Untruncated(k, c)
  {
    match c {
      case Open(p, f, m) =>
        var flagsArg := FlagsArgOf(k, f);
        u := [p, flagsArg] + ModeTail(k, f, m);
      case Open64(p, f, m) =>
        var flagsArg := FlagsArgOf(k, f);
        u := [p, flagsArg, ModeArg(m)];
      case OpenAt(d, p, f, m) =>
        var flagsArg := FlagsArgOf(k, f);
        u := [Decimal(d), p, flagsArg] + ModeTail(k, f, m);
      case Fopen(p, m) => u := [p, m];
      case Fopen64(p, m) => u := [p, m];
      case Freopen(p, m, s) => u := [p, m, s];
      case Fopenat(d, p, m) => u := [Decimal(d), p, m];
    }
  }

  /** `snprintf(..., "%d::%s", flags, map_flags_to_strings(flags))`, before the cut. */
  method FlagsArgOf(k: Constants, flags: bv32) returns (r: Str)
    ensures r == FlagsArg(k, flags)
  {
    var names := MapFlagsToStrings(k, flags);
    r := Decimal(Signed(flags)) + "::" + names;
  }

  /** The arguments the real function is called with, on the path it is given. */
  function Forwarded(k: Constants, c: Call): seq<Value> {
    match c
    case Open(p, f, m) => [Text(p), Int(Signed(f))] + (if Creates(k, f) then [Int(m as int)] else [])
    case Open64(p, f, m) => [Text(p), Int(Signed(f)), Int(m as int)]
    case OpenAt(d, p, f, m) => [Int(d), Text(p), Int(Signed(f))] + (if Creates(k, f) then [Int(m as int)] else [])
    case Fopen(p, m) => [Text(p), Text(m)]
    case Fopen64(p, m) => [Text(p), Text(m)]
    case Freopen(p, m, s) => [Text(p), Text(m), Text(s)]
    case Fopenat(d, p, m) => [Int(d), Text(p), Text(m)]
  }

  /** Where the path sits in the argument list: after the directory descriptor for the `at` calls. */
  function PathIndex(c: Call): nat {
    if c.OpenAt? || c.Fopenat? then 1 else 0
  }

  /** `open` logs three arguments exactly when `O_CREAT` is set, else two; `openat` four or three. */
  lemma ArgumentCounts(k: Constants, c: Call)
    ensures c.Open? ==> (|LoggedArgs(k, c)| == 3 <==> Creates(k, c.flags)) && 2 <= |LoggedArgs(k, c)| <= 3
    ensures c.OpenAt? ==> (|LoggedArgs(k, c)| == 4 <==> Creates(k, c.flags)) && 3 <= |LoggedArgs(k, c)| <= 4
    ensures c.Open64? ==> |LoggedArgs(k, c)| == 3
  {
  }

  /**
   * The real function receives as many arguments as were logged, the mode
   * among them exactly when it was logged, and the given path in the
   * logged path's place.
   */
  lemma LoggedMatchesForwarded(k: Constants, c: Call)
    ensures |Forwarded(k, c)| == |LoggedArgs(k, c)|
    ensures PassesMode(k, c) <==> |Forwarded(k, c)| == (if c.OpenAt? then 4 else 3) && (c.Open? || c.Open64? || c.OpenAt?)
    ensures Forwarded(k, c)[PathIndex(c)] == Text(c.path)
    ensures LoggedArgs(k, c)[PathIndex(c)] == Truncate(c.path, ARG_SIZE)
  {
  }

  /** The logged mode is the `"<decimal>::0<octal>"` rendering, from which both readings give back the mode. */
  lemma LoggedMode(k: Constants, c: Call)
    requires PassesMode(k, c)
    ensures var a := LoggedArgs(k, c); a[|a| - 1] == Truncate(ModeArg(c.mode), ARG_SIZE)
    ensures Forwarded(k, c)[|Forwarded(k, c)| - 1] == Int(c.mode as int)
    ensures ParseModeArg(ModeArg(c.mode)) == (Signed(c.mode), c.mode as int)
  {
    ModeLast(k, c);
    ModeArgRoundTrip(c.mode);
  }

  /** The mode is the last rendering and the last forwarded argument. */
  lemma ModeLast(k: Constants, c: Call)
    requires PassesMode(k, c)
    ensures var u := Untruncated(k, c); u != [] && u[|u| - 1] == ModeArg(c.mode)
    ensures Forwarded(k, c)[|Forwarded(k, c)| - 1] == Int(c.mode as int)
  {
    match c
    case Open(p, f, m) =>
      assert ModeTail(k, f, m) == [ModeArg(m)];
    case Open64(p, f, m) =>
    case OpenAt(d, p, f, m) =>
      assert ModeTail(k, f, m) == [ModeArg(m)];
  }

  /** Redirecting a call changes only its path, in the forwarded list as well. */
  lemma RedirectKeepsRest(k: Constants, c: Call, p: Str)
    ensures |Forwarded(k, c.WithPath(p))| == |Forwarded(k, c)|
    ensures forall i :: 0 <= i < |Forwarded(k, c)| && i != PathIndex(c) ==> Forwarded(k, c.WithPath(p))[i] == Forwarded(k, c)[i]
    ensures Forwarded(k, c.WithPath(p))[PathIndex(c)] == Text(p)
  {
  }
}
