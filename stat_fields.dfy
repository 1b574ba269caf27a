/**
 * What the `/proc/<pid>/stat` loop computes on a line of well-formed
 * fields, each followed by one space: plain fields and one `(comm)` field
 * count one each, and the start time is `atoll` of field 22.
 */
module StatFields {
  import opened CStrings
  import opened ProcStat

  /** A plain field: non-empty, no space, not starting with `(`. */
  predicate PlainField(f: Str) {
    f != [] && ' ' !in f && f[0] != '('
  }

  /** The `(comm)` field: one `(`, a text without `)`, then `)`. */
  predicate ParenField(f: Str) {
    |f| >= 2 && f[0] == '(' && f[|f| - 1] == ')' && ')' !in f[..|f| - 1]
  }

  predicate Field(f: Str) {
    PlainField(f) || ParenField(f)
  }

  /** Fields each followed by one space, as the kernel writes them. */
  function Fields(fs: seq<Str>): Str {
    if fs == [] then [] else fs[0] + " " + Fields(fs[1..])
  }

  /** `Fields(fs)` at `p` in `s`: the first field, its space, then the other fields. */
  lemma {:induction false} FieldsAt(s: Str, p: nat, fs: seq<Str>)
    requires fs != [] && p + |Fields(fs)| <= |s| && s[p..p + |Fields(fs)|] == Fields(fs)
    ensures |Fields(fs)| == |fs[0]| + 1 + |Fields(fs[1..])|
    ensures s[p..p + |fs[0]|] == fs[0] && s[p + |fs[0]|] == ' '
    ensures s[p + |fs[0]| + 1..p + |Fields(fs)|] == Fields(fs[1..])
  {
    var F, f := Fields(fs), fs[0];
    assert F == f + " " + Fields(fs[1..]);
    assert forall k :: 0 <= k < |F| ==> s[p + k] == F[k] by {
      forall k | 0 <= k < |F| ensures s[p + k] == F[k] {
        assert s[p..p + |F|][k] == s[p + k];
      }
    }
    assert s[p + |f|] == F[|f|];
    assert forall k :: 0 <= k < |f| ==> s[p + k] == F[k] == f[k];
    assert s[p..p + |f|] == f;
    var R := Fields(fs[1..]);
    forall j | 0 <= j < |R| ensures s[p + |f| + 1..p + |F|][j] == R[j] {
      assert s[p + |f| + 1..p + |F|][j] == s[p + |f| + 1 + j] == F[|f| + 1 + j];
    }
  }

  /** The first character of a field is never a space. */
  lemma {:induction false} FieldsStart(fs: seq<Str>)
    requires fs != [] && Field(fs[0])
    ensures Fields(fs) != [] && Fields(fs)[0] == fs[0][0] != ' '
  {
    assert Fields(fs) == fs[0] + " " + Fields(fs[1..]);
    if PlainField(fs[0]) {
      assert fs[0][0] in fs[0];
    }
  }

  /** Where a field followed by one space ends, and where the next one begins. */
  lemma {:induction false} FieldEnd(s: Str, p: nat, f: Str)
    requires Field(f)
    requires p + |f| < |s| && s[p..p + |f|] == f && s[p + |f|] == ' '
    requires p + |f| + 1 == |s| || s[p + |f| + 1] != ' '
    ensures s[p] == f[0] && (s[p] == '(' <==> ParenField(f))
    ensures PlainField(f) ==> IndexFrom(s, p, ' ') == Some(p + |f|)
    ensures ParenField(f) ==> IndexFrom(s, p, ')') == Some(p + |f| - 1)
    ensures SkipSpaces(s, p + |f|) == p + |f| + 1
  {
    assert forall k :: p <= k < p + |f| ==> s[k] == s[p..p + |f|][k - p] == f[k - p];
    var q := p + |f| + 1;
    assert SkipSpaces(s, q) == q;
    if PlainField(f) {
      assert forall k :: p <= k < p + |f| ==> s[k] != ' ' by {
        forall k | p <= k < p + |f| ensures s[k] != ' ' {
          assert f[k - p] in f;
        }
      }
      IndexFromIs(s, p, ' ', p + |f|);
    } else {
      assert forall k :: p <= k < p + |f| - 1 ==> s[k] != ')' by {
        forall k | p <= k < p + |f| - 1 ensures s[k] != ')' {
          assert f[k - p] in f[..|f| - 1];
        }
      }
      IndexFromIs(s, p, ')', p + |f| - 1);
    }
  }

  /** A field followed by one space counts once, and scanning goes on behind it. */
  lemma {:induction false} ScanField(s: Str, p: nat, f: Str, num: nat)
    requires Field(f) && num + 1 != START_TIME_FIELD
    requires p + |f| < |s| && s[p..p + |f|] == f && s[p + |f|] == ' '
    requires p + |f| + 1 == |s| || s[p + |f| + 1] != ' '
    ensures ScanFrom(s, p, num) == ScanFrom(s, p + |f| + 1, num + 1)
  {
    FieldEnd(s, p, f);
    FieldStep(s, p, p + |f|, num, ParenField(f));
  }

  /** One loop pass over a field that ends at `end`, a single space following it. */
  lemma {:induction false} FieldStep(s: Str, p: nat, end: nat, num: nat, paren: bool)
    requires p < end < |s| && num + 1 != START_TIME_FIELD
    requires paren ==> s[p] == '(' && IndexFrom(s, p, ')') == Some(end - 1)
    requires !paren ==> s[p] != '(' && IndexFrom(s, p, ' ') == Some(end)
    requires SkipSpaces(s, end) == end + 1
    ensures ScanFrom(s, p, num) == ScanFrom(s, end + 1, num + 1)
  {
    if paren {
      ParenStep(s, p, num, end);
    } else {
      PlainStep(s, p, num, end);
    }
  }

  /** Each field of `fs` at its place from `p` on, followed by one space. */
  predicate LaidOut(s: Str, p: nat, fs: seq<Str>)
    decreases |fs|
  {
    fs == [] ||
    (Field(fs[0]) && p + |fs[0]| < |s| && s[p..p + |fs[0]|] == fs[0] && s[p + |fs[0]|] == ' ' &&
     LaidOut(s, p + |fs[0]| + 1, fs[1..]))
  }

  /** `Fields(fs)` written at `p` lays its fields out one after the other. */
  lemma {:induction false} FieldsLaidOut(s: Str, p: nat, fs: seq<Str>)
    requires forall i :: 0 <= i < |fs| ==> Field(fs[i])
    requires p + |Fields(fs)| <= |s| && s[p..p + |Fields(fs)|] == Fields(fs)
    ensures LaidOut(s, p, fs)
    decreases |fs|
  {
    if fs != [] {
      FieldsAt(s, p, fs);
      FieldsLaidOut(s, p + |fs[0]| + 1, fs[1..]);
    }
  }

  /** The field after a laid-out field does not start with a space. */
  lemma NextNotSpace(s: Str, p: nat, fs: seq<Str>)
    requires fs != [] && LaidOut(s, p, fs)
    ensures p < |s| && s[p] != ' '
  {
    assert s[p] == s[p..p + |fs[0]|][0];
    if PlainField(fs[0]) {
      assert fs[0][0] in fs[0];
    }
  }

  /** The field after `fs[0]` starts at `p + |fs[0]| + 1`, or the text ends there. */
  lemma HeadStep(s: Str, p: nat, fs: seq<Str>, num: nat)
    requires fs != [] && LaidOut(s, p, fs) && num + 1 != START_TIME_FIELD
    requires fs[1..] != [] || p + |fs[0]| + 1 == |s|
    ensures ScanFrom(s, p, num) == ScanFrom(s, p + |fs[0]| + 1, num + 1)
  {
    if fs[1..] != [] {
      NextNotSpace(s, p + |fs[0]| + 1, fs[1..]);
    }
    ScanField(s, p, fs[0], num);
  }

  /** Where the text after the laid-out fields `fs` begins. */
  function After(p: nat, fs: seq<Str>): nat
    decreases |fs|
  {
    if fs == [] then p else After(p + |fs[0]| + 1, fs[1..])
  }

  /** Where the last of the laid-out fields `fs` begins. */
  function LastStart(p: nat, fs: seq<Str>): nat
    requires fs != []
    decreases |fs|
  {
    if |fs| == 1 then p else LastStart(p + |fs[0]| + 1, fs[1..])
  }

  /**
   * The start time is field 22: for well-formed fields (each plain, or
   * parenthesised with no `)` inside) from `p` on, the scan stops at the
   * last one, field 22.
   */
  lemma {:induction false} FieldTwentyTwo(s: Str, p: nat, fs: seq<Str>, num: nat)
    requires num < START_TIME_FIELD && |fs| == START_TIME_FIELD - num
    requires LaidOut(s, p, fs) && PlainField(fs[|fs| - 1])
    ensures ScanFrom(s, p, num) == Field22(LastStart(p, fs), LastStart(p, fs) + |fs[|fs| - 1]|)
    decreases |fs|, 1
  {
    if |fs| == 1 {
      LastField(s, p, fs[0], num);
    } else {
      FieldTwentyTwoStep(s, p, fs, num);
    }
  }

  /** Before field 22: one field, then field 22 from the next field on. */
  lemma {:induction false} FieldTwentyTwoStep(s: Str, p: nat, fs: seq<Str>, num: nat)
    requires num + 1 < START_TIME_FIELD && |fs| == START_TIME_FIELD - num
    requires LaidOut(s, p, fs) && PlainField(fs[|fs| - 1])
    ensures ScanFrom(s, p, num) == Field22(LastStart(p, fs), LastStart(p, fs) + |fs[|fs| - 1]|)
    decreases |fs|, 0
  {
    var q := p + |fs[0]| + 1;
    LastStartStep(p, fs);
    HeadStep(s, p, fs, num);
    FieldTwentyTwo(s, q, fs[1..], num + 1);
  }

  lemma LastStartStep(p: nat, fs: seq<Str>)
    requires |fs| > 1
    ensures LastStart(p, fs) == LastStart(p + |fs[0]| + 1, fs[1..])
    ensures fs[1..][|fs[1..]| - 1] == fs[|fs| - 1]
  {
  }

  /** Field 22, a plain field followed by a space, stops the loop. */
  lemma LastField(s: Str, p: nat, f: Str, num: nat)
    requires PlainField(f) && num + 1 == START_TIME_FIELD
    requires p + |f| < |s| && s[p..p + |f|] == f && s[p + |f|] == ' '
    ensures ScanFrom(s, p, num) == Field22(p, p + |f|)
  {
    assert forall k :: p <= k < p + |f| ==> s[k] != ' ' by {
      forall k | p <= k < p + |f| ensures s[k] != ' ' {
        assert s[k] == s[p..p + |f|][k - p];
        assert f[k - p] in f;
      }
    }
    assert s[p] == s[p..p + |f|][0];
    IndexFromIs(s, p, ' ', p + |f|);
    PlainStep(s, p, num, p + |f|);
  }

  /** The last laid-out field sits at `LastStart`. */
  lemma {:induction false} LastFieldText(s: Str, p: nat, fs: seq<Str>)
    requires fs != [] && LaidOut(s, p, fs)
    ensures LastStart(p, fs) + |fs[|fs| - 1]| <= |s|
    ensures s[LastStart(p, fs)..LastStart(p, fs) + |fs[|fs| - 1]|] == fs[|fs| - 1]
    decreases |fs|
  {
    if |fs| > 1 {
      LastFieldText(s, p + |fs[0]| + 1, fs[1..]);
    }
  }

  /** The fields take `|Fields(fs)|` characters. */
  lemma {:induction false} AfterFields(p: nat, fs: seq<Str>)
    ensures After(p, fs) == p + |Fields(fs)|
    decreases |fs|
  {
    if fs != [] {
      assert |Fields(fs)| == |fs[0]| + 1 + |Fields(fs[1..])|;
      AfterFields(p + |fs[0]| + 1, fs[1..]);
    }
  }

  /** A stat line whose field 22 is well formed and followed by a space yields `atoll` of field 22. */
  lemma StartTimeOfWellFormed(fs: seq<Str>, rest: Str)
    requires |fs| == START_TIME_FIELD
    requires forall i :: 0 <= i < |fs| ==> Field(fs[i])
    requires PlainField(fs[21])
    ensures ScanFrom(Fields(fs) + rest, 0, 0).Field22?
    ensures ResultOf(Fields(fs) + rest, ScanFrom(Fields(fs) + rest, 0, 0)) == AtoLL(fs[21])
  {
    var s := Fields(fs) + rest;
    assert s[0..|Fields(fs)|] == Fields(fs);
    FieldsLaidOut(s, 0, fs);
    FieldTwentyTwo(s, 0, fs, 0);
    LastFieldText(s, 0, fs);
  }

  /** Fewer than 22 well-formed fields up to the end, from `p` on: `-1`. */
  lemma {:induction false} TooFewFieldsFrom(s: Str, p: nat, fs: seq<Str>, num: nat)
    requires num + |fs| < START_TIME_FIELD
    requires LaidOut(s, p, fs) && After(p, fs) == |s|
    ensures ScanFrom(s, p, num) == NotFound
    decreases |fs|
  {
    if fs == [] {
      assert ScanFrom(s, p, num) == ScanFrom(s, |s|, num);
    } else {
      var q := p + |fs[0]| + 1;
      assert After(p, fs) == After(q, fs[1..]);
      if fs[1..] == [] {
        assert After(q, fs[1..]) == q;
      }
      HeadStep(s, p, fs, num);
      TooFewFieldsFrom(s, q, fs[1..], num + 1);
      assert ScanFrom(s, p, num) == NotFound;
    }
  }

  /** A stat line of fewer than 22 well-formed fields: the function reports `-1`. */
  lemma TooFewFields(fs: seq<Str>)
    requires |fs| < START_TIME_FIELD
    requires forall i :: 0 <= i < |fs| ==> Field(fs[i])
    ensures ScanFrom(Fields(fs), 0, 0) == NotFound
  {
    assert Fields(fs)[0..|Fields(fs)|] == Fields(fs);
    FieldsLaidOut(Fields(fs), 0, fs);
    AfterFields(0, fs);
    TooFewFieldsFrom(Fields(fs), 0, fs, 0);
  }

  /** The `(` field ends at the FIRST `)`: `(a)b)` counts as two fields, and scanning goes on at index 6. */
  lemma FirstCloseParen(rest: Str, num: nat)
    requires num + 1 != START_TIME_FIELD && num + 2 != START_TIME_FIELD
    requires rest == [] || rest[0] != ' '
    ensures ScanFrom("(a)b) " + rest, 0, num) == ScanFrom("(a)b) " + rest, 6, num + 2)
  {
    var t := "(a)b) " + rest;
    IndexFromIs(t, 0, ')', 2);
    ParenStep(t, 0, num, 3);
    assert SkipSpaces(t, 3) == 3;
    IndexFromIs(t, 3, ' ', 5);
    PlainStep(t, 3, num + 1, 5);
    assert t[6..] == rest;
    assert SkipSpaces(t, 6) == 6;
    assert SkipSpaces(t, 5) == 6;
  }

}
