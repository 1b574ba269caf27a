/**
 * The string toolkit shared by both variants of the preload library:
 * C strings as character sequences, `strcat` with a separator (Join) and
 * its inverse (Split), `strrchr`/`strchr`, `snprintf` truncation and the
 * `%d` / `%o` renderings with the parsers that read them back.
 */
module CStrings {

  type Str = seq<char>

  datatype Option<T> = None | Some(value: T) {
    function GetOr(default: T): T {
      if Some? then value else default
    }
  }

  /** `isalnum` in the C locale. */
  predicate IsAlnum(c: char) {
    'a' <= c <= 'z' || 'A' <= c <= 'Z' || '0' <= c <= '9'
  }

  /** The elements of `xs` with `sep` between neighbours (strcat in a loop). */
  function Join(xs: seq<Str>, sep: Str): Str
  {
    if |xs| == 0 then []
    else if |xs| == 1 then xs[0]
    else xs[0] + sep + Join(xs[1..], sep)
  }

  /** Index of the first `c` at or after `from` (`strchr`), if any. */
  function IndexFrom(s: Str, from: nat, c: char): (r: Option<nat>)
    requires from <= |s|
    ensures r.Some? ==> from <= r.value < |s| && s[r.value] == c
    decreases |s| - from
  {
    if from == |s| then None
    else if s[from] == c then Some(from)
    else IndexFrom(s, from + 1, c)
  }

  /** No `c` lies between `from` and the one found, nor after `from` when none is found. */
  lemma {:induction false} IndexFromFirst(s: Str, from: nat, c: char)
    requires from <= |s|
    ensures IndexFrom(s, from, c).Some? ==> forall k :: from <= k < IndexFrom(s, from, c).value ==> s[k] != c
    ensures IndexFrom(s, from, c).None? ==> forall k :: from <= k < |s| ==> s[k] != c
    decreases |s| - from
  {
    if from < |s| && s[from] != c {
      IndexFromFirst(s, from + 1, c);
    }
  }

  /** The first `c` at or after `from` is at `i`. */
  lemma {:induction false} IndexFromIs(s: Str, from: nat, c: char, i: nat)
    requires from <= i < |s| && s[i] == c
    requires forall k :: from <= k < i ==> s[k] != c
    ensures IndexFrom(s, from, c) == Some(i)
    decreases i - from
  {
    if from < i {
      IndexFromIs(s, from + 1, c, i);
    }
  }

  /** Index of the last `c` in `s` (`strrchr`), if any. */
  function LastIndex(s: Str, c: char): (r: Option<nat>)
    ensures r.Some? ==> r.value < |s| && s[r.value] == c
    ensures r.Some? ==> forall k :: r.value < k < |s| ==> s[k] != c
    ensures r.None? ==> c !in s
  {
    if |s| == 0 then None
    else if s[|s| - 1] == c then Some(|s| - 1)
    else LastIndex(s[..|s| - 1], c)
  }

  /** The pieces of `s` between the occurrences of `c`. */
  function Split(s: Str, c: char): (r: seq<Str>)
    ensures |r| >= 1
    decreases |s|
  {
    match IndexFrom(s, 0, c)
    case None => [s]
    case Some(i) => [s[..i]] + Split(s[i + 1..], c)
  }

  lemma {:induction false} SplitJoin(xs: seq<Str>, c: char)
    requires |xs| >= 1
    requires forall i :: 0 <= i < |xs| ==> c !in xs[i]
    ensures Split(Join(xs, [c]), c) == xs
    decreases |xs|
  {
    if |xs| > 1 {
      var s := Join(xs, [c]);
      var tail := Join(xs[1..], [c]);
      assert s == xs[0] + [c] + tail;
      assert s[|xs[0]|] == c;
      assert forall k :: 0 <= k < |xs[0]| ==> s[k] == xs[0][k];
      assert forall k :: 0 <= k < |xs[0]| ==> s[k] != c;
      IndexFromIs(s, 0, c, |xs[0]|);
      assert s[..|xs[0]|] == xs[0];
      assert s[|xs[0]| + 1..] == tail;
      SplitJoin(xs[1..], c);
    }
  }

  /** Every character of `Join(xs, sep)` comes from an element or from `sep`. */
  lemma {:induction false} JoinAvoids(xs: seq<Str>, sep: Str, c: char)
    requires c !in sep
    requires forall i :: 0 <= i < |xs| ==> c !in xs[i]
    ensures c !in Join(xs, sep)
    decreases |xs|
  {
    if |xs| > 1 {
      JoinAvoids(xs[1..], sep, c);
    }
  }

  lemma {:induction false} JoinEmpty(xs: seq<Str>, sep: Str)
    requires forall i :: 0 <= i < |xs| ==> xs[i] != []
    ensures Join(xs, sep) == [] <==> xs == []
    decreases |xs|
  {
    if |xs| > 1 {
      JoinEmpty(xs[1..], sep);
    }
  }

  /** Appending one element: the step every strcat loop takes. */
  lemma {:induction false} JoinSnoc(xs: seq<Str>, x: Str, sep: Str)
    requires |xs| >= 1
    ensures Join(xs + [x], sep) == Join(xs, sep) + sep + x
    decreases |xs|
  {
    if |xs| == 1 {
      assert xs + [x] == [xs[0], x];
    } else {
      assert (xs + [x])[1..] == xs[1..] + [x];
      JoinSnoc(xs[1..], x, sep);
    }
  }

  /** The last character of a Join is the last character of the last element. */
  lemma {:induction false} JoinLast(xs: seq<Str>, sep: Str)
    requires xs != [] && xs[|xs| - 1] != []
    ensures var j := Join(xs, sep); |j| > 0 && j[|j| - 1] == xs[|xs| - 1][|xs[|xs| - 1]| - 1]
    decreases |xs|
  {
    if |xs| > 1 {
      JoinLast(xs[1..], sep);
      assert xs[1..][|xs| - 2] == xs[|xs| - 1];
    }
  }

  /** `snprintf` into a buffer of `size` bytes keeps at most `size - 1` characters. */
  function Truncate(s: Str, size: nat): (r: Str)
    requires size >= 1
    ensures |r| < size && r <= s
    ensures |s| < size ==> r == s
    ensures |r| == if |s| < size then |s| else size - 1
  {
    if |s| < size then s else s[..size - 1]
  }

  function DigitChar(d: nat): char
    requires d < 10
  {
    "0123456789"[d]
  }

  function DigitValue(c: char): int {
    c as int - '0' as int
  }

  lemma DigitCharValue(d: nat)
    requires d < 10
    ensures DigitValue(DigitChar(d)) == d
  {
    assert "0123456789"[d] as int == '0' as int + d;
  }

  predicate IsDigitIn(c: char, base: nat) {
    0 <= DigitValue(c) < base
  }

  /** The digits of `n` in `base` (8 or 10), most significant first, no leading zero. */
  function Digits(n: nat, base: nat): (r: Str)
    requires base == 8 || base == 10
    ensures |r| >= 1
    ensures forall i :: 0 <= i < |r| ==> IsDigitIn(r[i], base)
    decreases n
  {
    if n < base then [DigitChar(n)]
    else
      var q := if base == 8 then n / 8 else n / 10;
      var d := if base == 8 then n % 8 else n % 10;
      Digits(q, base) + [DigitChar(d)]
  }

  /** The value of a string of digits in `base` (the reading direction of `strtol`). */
  function ParseDigits(s: Str, base: nat): int
    decreases |s|
  {
    if s == [] then 0 else ParseDigits(s[..|s| - 1], base) * base + DigitValue(s[|s| - 1])
  }

  lemma {:induction false} ParseDigitsOfDigits(n: nat, base: nat)
    requires base == 8 || base == 10
    ensures ParseDigits(Digits(n, base), base) == n
    decreases n
  {
    if n >= base {
      var s := Digits(n, base);
      if base == 8 {
        assert s[..|s| - 1] == Digits(n / 8, 8);
        ParseDigitsOfDigits(n / 8, 8);
        DigitCharValue(n % 8);
      } else {
        assert s[..|s| - 1] == Digits(n / 10, 10);
        ParseDigitsOfDigits(n / 10, 10);
        DigitCharValue(n % 10);
      }
    } else {
      DigitCharValue(n);
    }
  }

  /** `%d`: an optional minus sign and the decimal digits. */
  function Decimal(i: int): (r: Str)
    ensures |r| >= 1 && ' ' !in r && '/' !in r && '\n' !in r
  {
    var d := Digits(if i < 0 then -i else i, 10);
    assert forall k :: 0 <= k < |d| ==> IsDigitIn(d[k], 10);
    if i < 0 then "-" + d else d
  }

  /** `%o`: the octal digits. */
  function Octal(n: nat): Str {
    Digits(n, 8)
  }

  function ParseDecimal(s: Str): int {
    if |s| > 0 && s[0] == '-' then -ParseDigits(s[1..], 10) else ParseDigits(s, 10)
  }

  lemma DecimalRoundTrip(i: int)
    ensures ParseDecimal(Decimal(i)) == i
  {
    var d := Digits(if i < 0 then -i else i, 10);
    ParseDigitsOfDigits(if i < 0 then -i else i, 10);
    if i < 0 {
      assert Decimal(i)[1..] == d;
    } else {
      assert DigitValue(d[0]) >= 0;
    }
  }

  lemma OctalRoundTrip(n: nat)
    ensures ParseDigits(Octal(n), 8) == n
  {
    ParseDigitsOfDigits(n, 8);
  }
}
