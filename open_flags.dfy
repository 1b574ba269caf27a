/**
 * How both variants render the `flags` and `mode` arguments of the open
 * family for the log: `map_flags_to_strings` names every flag whose bits
 * are all set, in a fixed order, joined by `+`; the logged argument is
 * `"%d::%s"` of the flags and that text, and the mode is `"%d::0%o"`.
 * The `O_*` values are platform constants and are parameters here.
 */
module OpenFlags {
  import opened CStrings

  datatype Constants = Constants(
    rdonly: bv32, wronly: bv32, rdwr: bv32, creat: bv32, excl: bv32, noctty: bv32,
    trunc: bv32, append: bv32, nonblock: bv32, dsync: bv32, sync: bv32, rsync: bv32)

  /** The values on Linux (x86-64 and most other architectures); O_RSYNC equals O_SYNC there. */
  const LINUX := Constants(0, 1, 2, 0x40, 0x80, 0x100, 0x200, 0x400, 0x800, 0x1000, 0x101000, 0x101000)

  /** The names in the order `map_flags_to_strings` tests them, with their bits. */
  function Table(k: Constants): (t: seq<(Str, bv32)>)
    ensures |t| == 12
  {
    [("O_RDONLY", k.rdonly), ("O_WRONLY", k.wronly), ("O_RDWR", k.rdwr),
     ("O_CREAT", k.creat), ("O_EXCL", k.excl), ("O_NOCTTY", k.noctty),
     ("O_TRUNC", k.trunc), ("O_APPEND", k.append), ("O_NONBLOCK", k.nonblock),
     ("O_DSYNC", k.dsync), ("O_SYNC", k.sync), ("O_RSYNC", k.rsync)]
  }

  /** `(flags & bit) == bit`: every bit of `bit` is set (always true for a zero `bit`). */
  predicate IsSet(flags: bv32, bit: bv32) {
    flags & bit == bit
  }

  /** The names of the table entries whose bits are set, in table order. */
  function SetNames(flags: bv32, table: seq<(Str, bv32)>): seq<Str>
  {
    if table == [] then []
    else
      var last := table[|table| - 1];
      SetNames(flags, table[..|table| - 1]) + (if IsSet(flags, last.1) then [last.0] else [])
  }

  /** Names are non-empty, hold no `+`, and are pairwise distinct. */
  predicate GoodNames(table: seq<(Str, bv32)>) {
    (forall i :: 0 <= i < |table| ==> table[i].0 != [] && '+' !in table[i].0) &&
    (forall i, j :: 0 <= i < j < |table| ==> table[i].0 != table[j].0)
  }

  lemma TableNames(k: Constants)
    ensures GoodNames(Table(k))
  {
  }

  lemma {:induction false} SetNamesGood(flags: bv32, table: seq<(Str, bv32)>)
    requires PlusFree(table)
    ensures forall i :: 0 <= i < |SetNames(flags, table)| ==>
      SetNames(flags, table)[i] != [] && '+' !in SetNames(flags, table)[i]
    decreases |table|
  {
    if table != [] {
      SetNamesGood(flags, table[..|table| - 1]);
    }
  }

  /** Names are non-empty and hold no `+`. */
  predicate PlusFree(table: seq<(Str, bv32)>) {
    forall i :: 0 <= i < |table| ==> table[i].0 != [] && '+' !in table[i].0
  }

  lemma SetNamesStep(flags: bv32, table: seq<(Str, bv32)>, i: nat)
    requires i < |table|
    ensures SetNames(flags, table[..i + 1]) ==
      SetNames(flags, table[..i]) + (if IsSet(flags, table[i].1) then [table[i].0] else [])
  {
    assert table[..i + 1][..i] == table[..i];
  }

  /** One `if ((flags & O_X) == O_X) { ... strcat }` block of `map_flags_to_strings`. */
  method AppendIfSet(buffer: Str, flags: bv32, table: seq<(Str, bv32)>, i: nat) returns (r: Str)
    requires i < |table| && PlusFree(table)
    requires buffer == Join(SetNames(flags, table[..i]), "+")
    ensures r == Join(SetNames(flags, table[..i + 1]), "+")
  {
    SetNamesStep(flags, table, i);
    var names := SetNames(flags, table[..i]);
    r := buffer;
    if flags & table[i].1 == table[i].1 {
      SetNamesGood(flags, table[..i]);
      JoinEmpty(names, "+");
      if |r| > 0 {
        r := r + "+";
        JoinSnoc(names, table[i].0, "+");
      } else {
        assert names + [table[i].0] == [table[i].0];
      }
      r := r + table[i].0;
    } else {
      assert names + [] == names;
    }
  }

  /** `map_flags_to_strings`: the twelve tests in their fixed order. */
  method MapFlagsToStrings(k: Constants, flags: bv32) returns (buffer: Str)
    ensures buffer == FlagsText(k, flags)
  {
    TablePlusFree(k);
    buffer := TestInOrder(flags, Table(k));
    assert Table(k)[..12] == Table(k);
  }

  lemma TablePlusFree(k: Constants)
    ensures PlusFree(Table(k))
  {
  }

  /** The body of `map_flags_to_strings` over the twelve table entries. */
  method TestInOrder(flags: bv32, t: seq<(Str, bv32)>) returns (buffer: Str)
    requires |t| == 12 && PlusFree(t)
    ensures buffer == Join(SetNames(flags, t[..12]), "+")
  {
    assert t[..0] == [];
    buffer := "";
    buffer := AppendIfSet(buffer, flags, t, 0);   // O_RDONLY
    buffer := AppendIfSet(buffer, flags, t, 1);   // O_WRONLY
    buffer := AppendIfSet(buffer, flags, t, 2);   // O_RDWR
    buffer := AppendIfSet(buffer, flags, t, 3);   // O_CREAT
    buffer := AppendIfSet(buffer, flags, t, 4);   // O_EXCL
    buffer := AppendIfSet(buffer, flags, t, 5);   // O_NOCTTY
    buffer := AppendIfSet(buffer, flags, t, 6);   // O_TRUNC
    buffer := AppendIfSet(buffer, flags, t, 7);   // O_APPEND
    buffer := AppendIfSet(buffer, flags, t, 8);   // O_NONBLOCK
    buffer := AppendIfSet(buffer, flags, t, 9);   // O_DSYNC
    buffer := AppendIfSet(buffer, flags, t, 10);  // O_SYNC
    buffer := AppendIfSet(buffer, flags, t, 11);  // O_RSYNC
  }

  /** The text `map_flags_to_strings` returns. */
  function FlagsText(k: Constants, flags: bv32): Str {
    Join(SetNames(flags, Table(k)), "+")
  }

  /** A name appears iff its bits are all set. */
  lemma {:induction false} NameListedIff(flags: bv32, table: seq<(Str, bv32)>, i: nat)
    requires GoodNames(table) && i < |table|
    ensures table[i].0 in SetNames(flags, table) <==> IsSet(flags, table[i].1)
    decreases |table|
  {
    var init := table[..|table| - 1];
    assert GoodNames(init);
    if i < |table| - 1 {
      NameListedIff(flags, init, i);
      assert table[|table| - 1].0 != table[i].0;
    } else {
      NamesFrom(flags, init);
      assert forall j :: 0 <= j < |init| ==> init[j].0 != table[i].0;
    }
  }

  lemma {:induction false} NamesFrom(flags: bv32, table: seq<(Str, bv32)>)
    ensures forall x :: x in SetNames(flags, table) ==> exists j :: 0 <= j < |table| && table[j].0 == x
    decreases |table|
  {
    if table != [] {
      var init := table[..|table| - 1];
      NamesFrom(flags, init);
      forall x | x in SetNames(flags, table)
        ensures exists j :: 0 <= j < |table| && table[j].0 == x
      {
        if x in SetNames(flags, init) {
          var j :| 0 <= j < |init| && init[j].0 == x;
          assert table[j].0 == x;
        } else {
          assert table[|table| - 1].0 == x;
        }
      }
    }
  }

  /** The names are joined by single `+`: none leading, trailing or doubled. */
  lemma {:induction false} NoStrayPlus(xs: seq<Str>)
    requires forall i :: 0 <= i < |xs| ==> xs[i] != [] && '+' !in xs[i]
    ensures var s := Join(xs, "+");
      s == [] || (s[0] != '+' && s[|s| - 1] != '+' &&
                  forall i :: 0 <= i < |s| - 1 ==> !(s[i] == '+' && s[i + 1] == '+'))
    decreases |xs|
  {
    if |xs| > 1 {
      NoStrayPlus(xs[1..]);
      var s := Join(xs, "+");
      var tail := Join(xs[1..], "+");
      JoinEmpty(xs[1..], "+");
      assert s == xs[0] + "+" + tail;
      assert xs[0][|xs[0]| - 1] in xs[0];
      forall i | 0 <= i < |s| - 1
        ensures !(s[i] == '+' && s[i + 1] == '+')
      {
        if i < |xs[0]| - 1 {
          assert s[i] == xs[0][i];
        } else if i == |xs[0]| - 1 {
          assert s[i] == xs[0][i];
        } else if i == |xs[0]| {
          assert s[i + 1] == tail[0];
        } else {
          assert s[i] == tail[i - |xs[0]| - 1] && s[i + 1] == tail[i - |xs[0]|];
        }
      }
    } else if |xs| == 1 {
      assert xs[0][0] in xs[0] && xs[0][|xs[0]| - 1] in xs[0];
      assert forall i :: 0 <= i < |xs[0]| ==> xs[0][i] in xs[0];
    }
  }

  /** The rendering is well formed and splits back into the set names. */
  lemma FlagsTextShape(k: Constants, flags: bv32)
    ensures var s := FlagsText(k, flags);
      s == [] || (s[0] != '+' && s[|s| - 1] != '+' &&
                  forall i :: 0 <= i < |s| - 1 ==> !(s[i] == '+' && s[i + 1] == '+'))
    ensures SetNames(flags, Table(k)) != [] ==> Split(FlagsText(k, flags), '+') == SetNames(flags, Table(k))
  {
    TableNames(k);
    SetNamesGood(flags, Table(k));
    NoStrayPlus(SetNames(flags, Table(k)));
    if SetNames(flags, Table(k)) != [] {
      SplitJoin(SetNames(flags, Table(k)), '+');
    }
  }

  /** On Linux O_RDONLY is 0, so it is always named, and named first. */
  lemma RdonlyAlwaysFirst(flags: bv32)
    ensures "O_RDONLY" <= FlagsText(LINUX, flags)
  {
    var t := Table(LINUX);
    var names := SetNames(flags, t);
    assert t[..1][..0] == [];
    assert SetNames(flags, t[..1]) == ["O_RDONLY"];
    SetNamesPrefix(flags, t, 1);
    TableNames(LINUX);
    SetNamesGood(flags, t);
    assert names[0] == "O_RDONLY";
    if |names| > 1 {
      assert FlagsText(LINUX, flags) == names[0] + "+" + Join(names[1..], "+");
    }
  }

  lemma {:induction false} SetNamesPrefix(flags: bv32, table: seq<(Str, bv32)>, n: nat)
    requires n <= |table|
    ensures SetNames(flags, table[..n]) <= SetNames(flags, table)
    decreases |table| - n
  {
    if n < |table| {
      SetNamesPrefix(flags, table, n + 1);
      assert table[..n + 1][..n] == table[..n];
    } else {
      assert table[..n] == table;
    }
  }

  /** `int` reading of a 32-bit value, as `%d` prints it. */
  function Signed(v: bv32): int {
    if v as int < 0x8000_0000 then v as int else v as int - 0x1_0000_0000
  }

  /** The logged flags argument, `"%d::%s"`. */
  function FlagsArg(k: Constants, flags: bv32): Str {
    Decimal(Signed(flags)) + "::" + FlagsText(k, flags)
  }

  /** The logged mode argument, `"%d::0%o"`. */
  function ModeArg(mode: bv32): Str {
    Decimal(Signed(mode)) + "::0" + Octal(mode as nat)
  }

  /** Reads a mode argument back: the decimal part, then the octal part. */
  function ParseModeArg(s: Str): (int, int) {
    match IndexFrom(s, 0, ':')
    case None => (0, 0)
    case Some(i) => (ParseDecimal(s[..i]), if i + 3 <= |s| then ParseDigits(s[i + 3..], 8) else 0)
  }

  /** Both renderings in the mode argument carry the mode. */
  lemma ModeArgRoundTrip(mode: bv32)
    ensures ParseModeArg(ModeArg(mode)) == (Signed(mode), mode as int)
  {
    var d := Decimal(Signed(mode));
    var s := ModeArg(mode);
    assert forall j :: 0 <= j < |d| ==> s[j] == d[j];
    DecimalHasNoColon(Signed(mode));
    assert forall j :: 0 <= j < |d| ==> s[j] != ':';
    IndexFromIs(s, 0, ':', |d|);
    assert s[..|d|] == d;
    assert s[|d| + 3..] == Octal(mode as nat);
    DecimalRoundTrip(Signed(mode));
    OctalRoundTrip(mode as nat);
  }

  lemma DecimalHasNoColon(i: int)
    ensures ':' !in Decimal(i)
  {
    var d := Digits(if i < 0 then -i else i, 10);
    assert forall k :: 0 <= k < |d| ==> IsDigitIn(d[k], 10);
  }
}
