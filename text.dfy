/** The Python `str` operations the directive is built from: `split`, `join`,
    `strip`, `lstrip`, `replace`, `str(int)` and `int(str)`, with CPython's
    semantics for the inputs the directive gives them. */
module Text {
  import opened Errors

  // ---------------------------------------------------------------------
  // Characters

  /** The ASCII characters for which `str.isspace()` is true. */
  predicate IsSpace(c: char) {
    c == ' ' || '\t' <= c <= '\r' || '\U{1C}' <= c <= '\U{1F}'
  }

  predicate IsDigit(c: char) {
    '0' <= c <= '9'
  }

  predicate AllDigits(s: string) {
    forall i :: 0 <= i < |s| ==> IsDigit(s[i])
  }

  predicate StartsWith(s: string, prefix: string) {
    |prefix| <= |s| && s[..|prefix|] == prefix
  }

  predicate EndsWith(s: string, suffix: string) {
    |suffix| <= |s| && s[|s| - |suffix|..] == suffix
  }

  /** `t` occurs in `s` starting at index `i`. */
  predicate OccursAt(s: string, t: string, i: nat) {
    i + |t| <= |s| && s[i..i + |t|] == t
  }

  /** `t in s` for strings. */
  predicate Contains(s: string, t: string) {
    exists i: nat | i <= |s| :: OccursAt(s, t, i)
  }

  /** `s.find(c)`, with "not found" as `|s|` instead of -1. */
  function IndexOf(s: string, c: char): (i: nat)
    ensures i <= |s|
    ensures i < |s| ==> s[i] == c
    ensures forall k :: 0 <= k < i ==> s[k] != c
  {
    if |s| == 0 then 0
    else if s[0] == c then 0
    else 1 + IndexOf(s[1..], c)
  }

  /** `s.rfind(c)`: the last index holding `c`, or -1. */
  function RFind(s: string, c: char): (i: int)
    ensures -1 <= i < |s|
    ensures 0 <= i ==> s[i] == c
    ensures forall k :: i < k < |s| ==> s[k] != c
  {
    if |s| == 0 then -1
    else if s[|s| - 1] == c then |s| - 1
    else RFind(s[..|s| - 1], c)
  }

  // ---------------------------------------------------------------------
  // strip / lstrip

  /** `s.lstrip()`. */
  function LStripSpace(s: string): string {
    if |s| > 0 && IsSpace(s[0]) then LStripSpace(s[1..]) else s
  }

  /** `s.rstrip()`. */
  function RStripSpace(s: string): string {
    if |s| > 0 && IsSpace(s[|s| - 1]) then RStripSpace(s[..|s| - 1]) else s
  }

  /** `s.strip()`. */
  function Strip(s: string): string {
    RStripSpace(LStripSpace(s))
  }

  /** `s.lstrip(c)` for a single character `c`. */
  function LStripChar(s: string, c: char): (r: string)
    ensures |r| <= |s| && r == s[|s| - |r|..]
    ensures r == [] || r[0] != c
    ensures forall i :: 0 <= i < |s| - |r| ==> s[i] == c
  {
    if |s| > 0 && s[0] == c then LStripChar(s[1..], c) else s
  }

  /** Stripping a string that neither starts nor ends with whitespace leaves it as it is. */
  lemma StripUnpadded(s: string)
    requires s == [] || (!IsSpace(s[0]) && !IsSpace(s[|s| - 1]))
    ensures Strip(s) == s
  {
  }

  // ---------------------------------------------------------------------
  // split / join

  /** `s.split(sep)` for a one-character separator: never empty, and no
      piece contains the separator. */
  function Split(s: string, sep: char): (parts: seq<string>)
    ensures |parts| >= 1
    ensures forall i :: 0 <= i < |parts| ==> sep !in parts[i]
    decreases |s|
  {
    if |s| == 0 then [""]
    else
      var rest := Split(s[1..], sep);
      if s[0] == sep then [""] + rest
      else [[s[0]] + rest[0]] + rest[1..]
  }

  /** `sep.join(parts)`. */
  function Join(parts: seq<string>, sep: string): string {
    if |parts| == 0 then ""
    else if |parts| == 1 then parts[0]
    else parts[0] + sep + Join(parts[1..], sep)
  }

  /** Splitting a prefix free of the separator only extends the first piece. */
  lemma {:induction false} SplitPrefix(a: string, b: string, sep: char)
    requires sep !in a
    ensures Split(a + b, sep) == [a + Split(b, sep)[0]] + Split(b, sep)[1..]
    decreases |a|
  {
    if a == [] {
      assert a + b == b;
      var parts := Split(b, sep);
      assert a + parts[0] == parts[0];
      assert [parts[0]] + parts[1..] == parts;
    } else {
      assert (a + b)[1..] == a[1..] + b;
      SplitPrefix(a[1..], b, sep);
      assert [a[0]] + (a[1..] + Split(b, sep)[0]) == a + Split(b, sep)[0];
    }
  }

  /** A separator-free string is a single piece. */
  lemma SplitNoSeparator(a: string, sep: char)
    requires sep !in a
    ensures Split(a, sep) == [a]
  {
    SplitPrefix(a, "", sep);
    assert a + "" == a;
  }

  /** Splitting distributes over a separator: the pieces of `a + sep + b` are
      the pieces of `a` followed by the pieces of `b`. */
  lemma {:induction false} SplitAtSeparator(a: string, b: string, sep: char)
    ensures Split(a + [sep] + b, sep) == Split(a, sep) + Split(b, sep)
    decreases |a|
  {
    if a == [] {
      assert a + [sep] + b == [sep] + b;
      assert ([sep] + b)[1..] == b;
    } else {
      assert (a + [sep] + b)[1..] == a[1..] + [sep] + b;
      SplitAtSeparator(a[1..], b, sep);
    }
  }

  /** `sep.join(parts).split(sep) == parts` when no part holds the separator. */
  lemma {:induction false} SplitJoin(parts: seq<string>, sep: char)
    requires |parts| >= 1
    requires forall i :: 0 <= i < |parts| ==> sep !in parts[i]
    ensures Split(Join(parts, [sep]), sep) == parts
    decreases |parts|
  {
    if |parts| == 1 {
      SplitNoSeparator(parts[0], sep);
    } else {
      SplitJoin(parts[1..], sep);
      SplitAtSeparator(parts[0], Join(parts[1..], [sep]), sep);
      SplitNoSeparator(parts[0], sep);
      assert [parts[0]] + parts[1..] == parts;
    }
  }

  /** `sep.join(s.split(sep)) == s`. */
  lemma {:induction false} JoinSplit(s: string, sep: char)
    ensures Join(Split(s, sep), [sep]) == s
    decreases |s|
  {
    if |s| > 0 {
      var rest := Split(s[1..], sep);
      JoinSplit(s[1..], sep);
      if s[0] == sep {
        assert ([""] + rest)[1..] == rest;
        assert s == [sep] + s[1..];
      } else if |rest| == 1 {
        assert s == [s[0]] + s[1..];
      } else {
        var parts := [[s[0]] + rest[0]] + rest[1..];
        assert parts[1..] == rest[1..];
        assert Join(rest, [sep]) == rest[0] + [sep] + Join(rest[1..], [sep]);
        assert s == [s[0]] + s[1..];
      }
    }
  }

  /** Right cancellation: equal strings with a common suffix have equal prefixes. */
  lemma CancelRight(x: string, y: string, t: string)
    requires x + t == y + t
    ensures x == y
  {
    assert |x| == |y|;
    assert x == (x + t)[..|x|];
    assert y == (y + t)[..|y|];
  }

  /** Left cancellation: equal strings with a common prefix have equal suffixes. */
  lemma CancelLeft(t: string, x: string, y: string)
    requires t + x == t + y
    ensures x == y
  {
    assert x == (t + x)[|t|..];
    assert y == (t + y)[|t|..];
  }

  /** A join detects a change of any single part: if replacing part `i` by
      `x` and by `y` gives the same joined string, then `x == y`. */
  lemma {:induction false} JoinReplaceInjective(parts: seq<string>, i: nat, x: string, y: string, sep: string)
    requires i < |parts|
    requires Join(parts[i := x], sep) == Join(parts[i := y], sep)
    ensures x == y
    decreases |parts|
  {
    if |parts| == 1 {
    } else if i == 0 {
      assert parts[i := x][1..] == parts[1..] == parts[i := y][1..];
      assert x + sep + Join(parts[1..], sep) == x + (sep + Join(parts[1..], sep));
      assert y + sep + Join(parts[1..], sep) == y + (sep + Join(parts[1..], sep));
      CancelRight(x, y, sep + Join(parts[1..], sep));
    } else {
      assert parts[i := x][1..] == parts[1..][i - 1 := x];
      assert parts[i := y][1..] == parts[1..][i - 1 := y];
      CancelLeft(parts[0] + sep, Join(parts[1..][i - 1 := x], sep), Join(parts[1..][i - 1 := y], sep));
      JoinReplaceInjective(parts[1..], i - 1, x, y, sep);
    }
  }

  /** Joining two non-empty lists is joining each and putting a separator between. */
  lemma {:induction false} JoinAppend(xs: seq<string>, ys: seq<string>, sep: string)
    requires |xs| >= 1 && |ys| >= 1
    ensures Join(xs + ys, sep) == Join(xs, sep) + sep + Join(ys, sep)
    decreases |xs|
  {
    if |xs| == 1 {
      assert (xs + ys)[1..] == ys;
    } else {
      assert (xs + ys)[1..] == xs[1..] + ys;
      JoinAppend(xs[1..], ys, sep);
    }
  }

  /** A separator inside one part can move into its neighbour without
      changing the joined string. */
  lemma JoinMovesSeparator(head: seq<string>, c: string, d: string, e: string, tail: seq<string>, sep: string)
    requires |head| >= 1
    ensures Join(head + ([c + sep + d, e] + tail), sep) == Join(head + ([c, d + sep + e] + tail), sep)
  {
    var m1 := [c + sep + d, e] + tail;
    var m2 := [c, d + sep + e] + tail;
    JoinAppend(head, m1, sep);
    JoinAppend(head, m2, sep);
    var r1 := [e] + tail;
    var r2 := [d + sep + e] + tail;
    assert m1[1..] == r1 && m2[1..] == r2;
    if tail == [] {
      assert Join(m1, sep) == (c + sep + d) + sep + e;
      assert Join(m2, sep) == c + sep + (d + sep + e);
      Regroup(c, d, e, sep);
    } else {
      assert r1[1..] == tail && r2[1..] == tail;
      var j := Join(tail, sep);
      assert Join(m1, sep) == (c + sep + d) + sep + (e + sep + j);
      assert Join(m2, sep) == c + sep + ((d + sep + e) + sep + j);
      Regroup(c, d, e + sep + j, sep);
      Regroup(d, e, j, sep);
    }
  }

  lemma Regroup(x: string, y: string, z: string, sep: string)
    ensures (x + sep + y) + sep + z == x + sep + (y + sep + z)
  {
  }

  /** Changing one part to a different string changes the joined string. */
  lemma JoinReplaceDistinct(parts: seq<string>, i: nat, x: string, y: string, sep: string)
    requires i < |parts| && x != y
    ensures Join(parts[i := x], sep) != Join(parts[i := y], sep)
  {
    if Join(parts[i := x], sep) == Join(parts[i := y], sep) {
      JoinReplaceInjective(parts, i, x, y, sep);
      assert false;
    }
  }

  // ---------------------------------------------------------------------
  // replace

  /** `s.replace(pat, v)`: every non-overlapping occurrence of `pat`, scanned
      left to right, is replaced by `v`. */
  function ReplaceAll(s: string, pat: string, v: string): string
    requires |pat| > 0
    decreases |s|
  {
    if |s| < |pat| then s
    else if s[..|pat|] == pat then v + ReplaceAll(s[|pat|..], pat, v)
    else [s[0]] + ReplaceAll(s[1..], pat, v)
  }

  /** Replacing a pattern that does not occur changes nothing. */
  lemma {:induction false} ReplaceAbsent(s: string, pat: string, v: string)
    requires |pat| > 0
    requires !Contains(s, pat)
    ensures ReplaceAll(s, pat, v) == s
    decreases |s|
  {
    if |s| >= |pat| {
      assert !OccursAt(s, pat, 0);
      assert s[..|pat|] != pat;
      forall i: nat ensures !OccursAt(s[1..], pat, i) {
        if OccursAt(s[1..], pat, i) {
          assert s[1..][i..i + |pat|] == s[i + 1..i + 1 + |pat|];
          assert OccursAt(s, pat, i + 1);
        }
      }
      ReplaceAbsent(s[1..], pat, v);
      assert s == [s[0]] + s[1..];
    }
  }

  /** Replacing a pattern by itself changes nothing. */
  lemma {:induction false} ReplaceBySelf(s: string, pat: string)
    requires |pat| > 0
    ensures ReplaceAll(s, pat, pat) == s
    decreases |s|
  {
    if |s| >= |pat| {
      if s[..|pat|] == pat {
        ReplaceBySelf(s[|pat|..], pat);
        assert s == s[..|pat|] + s[|pat|..];
      } else {
        ReplaceBySelf(s[1..], pat);
        assert s == [s[0]] + s[1..];
      }
    }
  }

  /** A leading occurrence is replaced and the scan continues after it. */
  lemma ReplaceLeading(pat: string, rest: string, v: string)
    requires |pat| > 0
    ensures ReplaceAll(pat + rest, pat, v) == v + ReplaceAll(rest, pat, v)
  {
    assert (pat + rest)[..|pat|] == pat;
    assert (pat + rest)[|pat|..] == rest;
  }

  /** A pattern cannot occur in a string lacking its first character. */
  lemma AbsentWithoutFirstChar(s: string, pat: string)
    requires |pat| > 0 && pat[0] !in s
    ensures !Contains(s, pat)
  {
    forall i: nat | i <= |s|
      ensures !OccursAt(s, pat, i)
    {
      if i + |pat| <= |s| {
        assert s[i..i + |pat|][0] == s[i];
      }
    }
  }

  /** Dropping the first character shifts the positions without an
      occurrence down by one. */
  lemma NoOccurrenceShift(s: string, pat: string, n: nat)
    requires 1 <= n <= |s|
    requires forall k :: 0 <= k < n ==> !OccursAt(s, pat, k)
    ensures forall k :: 0 <= k < n - 1 ==> !OccursAt(s[1..], pat, k)
  {
    forall k | 0 <= k < n - 1
      ensures !OccursAt(s[1..], pat, k)
    {
      assert !OccursAt(s, pat, k + 1);
      if k + |pat| <= |s| - 1 {
        assert s[1..][k..k + |pat|] == s[k + 1..k + 1 + |pat|];
      }
    }
  }

  /** Where no occurrence starts, the first character is copied and the
      scan moves on by one. */
  lemma ReplaceSkips(s: string, pat: string, v: string)
    requires |pat| > 0 && |pat| <= |s| && !OccursAt(s, pat, 0)
    ensures ReplaceAll(s, pat, v) == [s[0]] + ReplaceAll(s[1..], pat, v)
  {
    assert s[0..|pat|] == s[..|pat|];
  }

  /** A prefix in which no occurrence of the pattern starts is kept, the
      occurrence after it replaced, and the scan goes on after it. */
  lemma {:induction false} ReplaceAfterPrefix(pre: string, pat: string, rest: string, v: string)
    requires |pat| > 0
    requires forall k :: 0 <= k < |pre| ==> !OccursAt(pre + pat, pat, k)
    ensures ReplaceAll(pre + pat + rest, pat, v) == pre + v + ReplaceAll(rest, pat, v)
    decreases |pre|
  {
    if pre == [] {
      assert pre + pat + rest == pat + rest;
      ReplaceLeading(pat, rest, v);
    } else {
      var whole := pre + pat;
      var s := whole + rest;
      var tail := ReplaceAll(rest, pat, v);
      assert ReplaceAll(s, pat, v) == [s[0]] + ReplaceAll(s[1..], pat, v) by {
        assert !OccursAt(whole, pat, 0);
        assert s[0..|pat|] == whole[0..|pat|];
        ReplaceSkips(s, pat, v);
      }
      assert ReplaceAll(s[1..], pat, v) == pre[1..] + v + tail by {
        NoOccurrenceShift(whole, pat, |pre|);
        assert whole[1..] == pre[1..] + pat;
        ReplaceAfterPrefix(pre[1..], pat, rest, v);
        assert s[1..] == pre[1..] + pat + rest;
      }
      assert s == pre + pat + rest;
      assert [s[0]] + (pre[1..] + v + tail) == pre + v + tail;
    }
  }

  /** Every separator of a joined string is replaced when the pieces lack
      the pattern's first character: `sep.join(ps).replace(sep, v) == v.join(ps)`. */
  lemma {:induction false} ReplaceJoin(pieces: seq<string>, pat: string, v: string)
    requires |pat| > 0 && |pieces| >= 1
    requires forall i :: 0 <= i < |pieces| ==> pat[0] !in pieces[i]
    ensures ReplaceAll(Join(pieces, pat), pat, v) == Join(pieces, v)
    decreases |pieces|
  {
    if |pieces| == 1 {
      AbsentWithoutFirstChar(pieces[0], pat);
      ReplaceAbsent(pieces[0], pat, v);
    } else {
      var rest := Join(pieces[1..], pat);
      forall k | 0 <= k < |pieces[0]|
        ensures !OccursAt(pieces[0] + pat, pat, k)
      {
        assert (pieces[0] + pat)[k] == pieces[0][k];
      }
      ReplaceAfterPrefix(pieces[0], pat, rest, v);
      ReplaceJoin(pieces[1..], pat, v);
    }
  }

  // ---------------------------------------------------------------------
  // str(int) and int(str)

  function DigitChar(d: nat): (c: char)
    requires d < 10
    ensures IsDigit(c)
  {
    (('0' as int) + d) as char
  }

  function DigitValue(c: char): (d: nat)
    requires IsDigit(c)
    ensures d < 10 && DigitChar(d) == c
  {
    (c as int) - ('0' as int)
  }

  /** `str(n)` for a non-negative integer: decimal digits without leading zeros. */
  function NatToString(n: nat): (s: string)
    ensures |s| >= 1 && AllDigits(s)
    ensures |s| == 1 || s[0] != '0'
  {
    if n < 10 then [DigitChar(n)] else NatToString(n / 10) + [DigitChar(n % 10)]
  }

  /** The value of a string of decimal digits (0 for the empty string). */
  function DecimalValue(s: string): nat
    requires AllDigits(s)
  {
    if |s| == 0 then 0 else DecimalValue(s[..|s| - 1]) * 10 + DigitValue(s[|s| - 1])
  }

  /** `int(s)` restricted to plain decimal digits: `None` stands for the
      `ValueError` Python raises, e.g. on the empty string. */
  function ParseNat(s: string): Option<nat> {
    if |s| >= 1 && AllDigits(s) then Some(DecimalValue(s)) else None
  }

  /** `int(str(n)) == n`. */
  lemma {:induction false} ParseNatToString(n: nat)
    ensures ParseNat(NatToString(n)) == Some(n)
  {
    if n >= 10 {
      ParseNatToString(n / 10);
      var s := NatToString(n);
      assert s[..|s| - 1] == NatToString(n / 10);
      assert DigitValue(s[|s| - 1]) == n % 10;
      assert DecimalValue(s) == (n / 10) * 10 + n % 10;
    }
  }

  /** `str` is injective on non-negative integers: distinct numbers print
      differently. */
  lemma NatToStringDistinct(a: nat, b: nat)
    requires a != b
    ensures NatToString(a) != NatToString(b)
  {
    ParseNatToString(a);
    ParseNatToString(b);
  }

  /** `str(b)` for a Python bool. */
  function BoolToString(b: bool): (s: string)
    ensures s == "True" || s == "False"
    ensures b <==> s == "True"
  {
    if b then "True" else "False"
  }
}
