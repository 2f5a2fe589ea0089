/** String helpers shared by the dashboard model: the few pieces of Python's
    `str` behaviour the core relies on (`isdigit`, `int`, `str`, `split`,
    `join`, slicing and the ordering `sorted` uses), written over `seq<char>`. */
module Text {

  predicate IsDigit(c: char) { '0' <= c <= '9' }

  /** Every character is an ASCII digit (the empty string included). */
  predicate AllDigits(s: string) { forall i :: 0 <= i < |s| ==> IsDigit(s[i]) }

  /** Python's `str.isdigit` restricted to ASCII: non-empty and all digits. */
  predicate IsDigitString(s: string) { |s| > 0 && AllDigits(s) }

  function DigitValue(c: char): (d: nat)
    requires IsDigit(c)
    ensures d < 10
  {
    (c as int) - ('0' as int)
  }

  function DigitChar(d: nat): (c: char)
    requires d < 10
    ensures IsDigit(c) && DigitValue(c) == d
  {
    (('0' as int) + d) as char
  }

  /** The value of a decimal digit string, as Python's `int` reads it
      (leading zeros allowed, the empty string read as 0). */
  function DigitsValue(s: string): (v: nat)
    requires AllDigits(s)
  {
    if s == [] then 0 else 10 * DigitsValue(s[..|s| - 1]) + DigitValue(s[|s| - 1])
  }

  lemma DigitsValueSnoc(s: string, c: char)
    requires AllDigits(s) && IsDigit(c)
    ensures AllDigits(s + [c]) && DigitsValue(s + [c]) == 10 * DigitsValue(s) + DigitValue(c)
  {
    assert (s + [c])[..|s|] == s;
  }

  /** Python's `str(n)` for a non-negative integer: shortest decimal form. */
  function NatToString(n: nat): (r: string)
    ensures IsDigitString(r) && DigitsValue(r) == n
    ensures r[0] == '0' ==> r == "0"
  {
    if n < 10 then [DigitChar(n)]
    else
      var prefix := NatToString(n / 10);
      DigitsValueSnoc(prefix, DigitChar(n % 10));
      prefix + [DigitChar(n % 10)]
  }

  /** Python's `str(i)` for any integer. */
  function IntToString(i: int): (r: string)
    ensures i >= 0 ==> r == NatToString(i)
    ensures i < 0 ==> r == "-" + NatToString(-i)
  {
    if i < 0 then "-" + NatToString(-i) else NatToString(i)
  }

  /** Python's `sep.join(parts)`. */
  function Join(sep: string, parts: seq<string>): string
  {
    if |parts| == 0 then ""
    else if |parts| == 1 then parts[0]
    else parts[0] + sep + Join(sep, parts[1..])
  }

  /** Python's `s.split(sep)` for a one-character separator: the maximal
      separator-free pieces, empty ones included; splitting "" gives [""]. */
  function Split(s: string, sep: char): (r: seq<string>)
    ensures |r| >= 1
  {
    if s == [] then [[]]
    else if s[0] == sep then [[]] + Split(s[1..], sep)
    else
      var rest := Split(s[1..], sep);
      [[s[0]] + rest[0]] + rest[1..]
  }

  /** The pieces hold no separator, and joining them with it gives `s` back. */
  lemma {:induction false} SplitPieces(s: string, sep: char)
    ensures var r := Split(s, sep);
      (forall i :: 0 <= i < |r| ==> sep !in r[i]) && Join([sep], r) == s
  {
    if s != [] {
      SplitPieces(s[1..], sep);
      var rest := Split(s[1..], sep);
      var r := Split(s, sep);
      if s[0] == sep {
        assert s == [sep] + s[1..];
        assert forall i :: 1 <= i < |r| ==> r[i] == rest[i - 1];
      } else {
        assert s == [s[0]] + s[1..];
        assert forall i :: 1 <= i < |r| ==> r[i] == rest[i];
      }
    }
  }

  /** The strings a list holds, as a set. */
  function Elements(xs: seq<string>): set<string>
  {
    set x | x in xs
  }

  /** How many times `c` occurs in `s`. */
  function Occurrences(s: string, c: char): nat
  {
    if s == [] then 0 else (if s[0] == c then 1 else 0) + Occurrences(s[1..], c)
  }

  /** One piece more than there are separators. */
  lemma {:induction false} SplitLength(s: string, sep: char)
    ensures |Split(s, sep)| == Occurrences(s, sep) + 1
  {
    if s != [] {
      SplitLength(s[1..], sep);
    }
  }

  /** Splitting a separator-free string leaves it whole. */
  lemma {:induction false} SplitNoSeparator(s: string, sep: char)
    requires sep !in s
    ensures Split(s, sep) == [s]
  {
    if s != [] {
      assert sep !in s[1..];
      SplitNoSeparator(s[1..], sep);
      assert s == [s[0]] + s[1..];
    }
  }

  /** Splitting peels off a separator-free first piece. */
  lemma {:induction false} SplitPrefix(a: string, rest: string, sep: char)
    requires sep !in a
    ensures Split(a + [sep] + rest, sep) == [a] + Split(rest, sep)
  {
    var s := a + [sep] + rest;
    if a == [] {
      assert s[1..] == rest;
    } else {
      assert s[0] == a[0] && s[1..] == a[1..] + [sep] + rest;
      assert sep !in a[1..];
      SplitPrefix(a[1..], rest, sep);
      assert [a[0]] + a[1..] == a;
    }
  }

  /** Two separator-free pieces around one separator split back apart. */
  lemma SplitAround(a: string, b: string, sep: char)
    requires sep !in a && sep !in b
    ensures Split(a + [sep] + b, sep) == [a, b]
  {
    SplitPrefix(a, b, sep);
    SplitNoSeparator(b, sep);
  }

  /** `split` undoes `join` when no piece holds the separator. */
  lemma {:induction false} SplitJoin(parts: seq<string>, sep: char)
    requires |parts| >= 1
    requires forall i :: 0 <= i < |parts| ==> sep !in parts[i]
    ensures Split(Join([sep], parts), sep) == parts
  {
    if |parts| == 1 {
      SplitNoSeparator(parts[0], sep);
    } else {
      SplitJoin(parts[1..], sep);
      SplitPrefix(parts[0], Join([sep], parts[1..]), sep);
      assert parts == [parts[0]] + parts[1..];
    }
  }

  /** Python's `s.split(sep)[-1]`: the text after the last separator. */
  function LastField(s: string, sep: char): (r: string)
    ensures sep !in r
    ensures |r| <= |s| && s[|s| - |r|..] == r
    ensures |s| == |r| || s[|s| - |r| - 1] == sep
  {
    LastFieldIsSuffix(s, sep);
    SplitPieces(s, sep);
    var parts := Split(s, sep);
    parts[|parts| - 1]
  }

  lemma {:induction false} LastFieldIsSuffix(s: string, sep: char)
    ensures LastPieceShape(s, sep)
  {
    if s != [] {
      LastFieldIsSuffix(s[1..], sep);
      var rest := Split(s[1..], sep);
      if s[0] == sep {
        LastPieceAfterSep(s, sep);
      } else if |rest| == 1 {
        LastPieceWhole(s, sep);
      } else {
        LastPieceOfRest(s, sep);
      }
    }
  }

  /** The last piece of a split is a suffix of the text, preceded by the
      separator unless it is the whole text, which it is exactly when
      there is one piece. */
  predicate LastPieceShape(s: string, sep: char)
  {
    var parts := Split(s, sep);
    var r := parts[|parts| - 1];
    |r| <= |s| && s[|s| - |r|..] == r && (|s| == |r| || s[|s| - |r| - 1] == sep) &&
    (|parts| == 1 ==> r == s) && (|parts| > 1 ==> |r| < |s|)
  }

  lemma LastPieceAfterSep(s: string, sep: char)
    requires s != [] && s[0] == sep && LastPieceShape(s[1..], sep)
    ensures LastPieceShape(s, sep)
  {
    var rest := Split(s[1..], sep);
    var last := rest[|rest| - 1];
    assert s[1..][|s| - 1 - |last|..] == last;
    assert Split(s, sep) == [[]] + rest;
  }

  lemma LastPieceWhole(s: string, sep: char)
    requires s != [] && s[0] != sep && |Split(s[1..], sep)| == 1 && LastPieceShape(s[1..], sep)
    ensures LastPieceShape(s, sep)
  {
    var rest := Split(s[1..], sep);
    assert Split(s, sep) == [[s[0]] + rest[0]];
    assert s == [s[0]] + s[1..];
  }

  lemma LastPieceOfRest(s: string, sep: char)
    requires s != [] && s[0] != sep && |Split(s[1..], sep)| > 1 && LastPieceShape(s[1..], sep)
    ensures LastPieceShape(s, sep)
  {
    var rest := Split(s[1..], sep);
    var last := rest[|rest| - 1];
    assert s[1..][|s| - 1 - |last|..] == last;
    assert Split(s, sep) == [[s[0]] + rest[0]] + rest[1..];
  }

  /** Python's slice `s[:n]` for n >= 0: at most the first n characters. */
  function TakePrefix(s: string, n: nat): (r: string)
    ensures |r| == if |s| < n then |s| else n
    ensures r <= s
  {
    if |s| < n then s else s[..n]
  }

  predicate StartsWith(s: string, prefix: string) { |prefix| <= |s| && s[..|prefix|] == prefix }

  predicate EndsWith(s: string, suffix: string) { |suffix| <= |s| && s[|s| - |suffix|..] == suffix }

  lemma StartsWithOne(s: string, c: char)
    ensures StartsWith(s, [c]) <==> |s| > 0 && s[0] == c
  {
    if |s| > 0 && s[0] != c {
      assert s[..1][0] != c;
    }
  }

  lemma EndsWithOne(s: string, c: char)
    ensures EndsWith(s, [c]) <==> |s| > 0 && s[|s| - 1] == c
  {
    if |s| > 0 && s[|s| - 1] != c {
      assert s[|s| - 1..][0] != c;
    }
  }

  /** Does `part` occur somewhere inside `s`? */
  predicate Contains(s: string, part: string)
  {
    exists i :: 0 <= i <= |s| - |part| && OccursAt(s, part, i)
  }

  predicate OccursAt(s: string, part: string, i: int)
  {
    0 <= i <= |s| - |part| && s[i..i + |part|] == part
  }

  lemma ContainsMiddle(a: string, part: string, b: string)
    ensures Contains(a + part + b, part)
  {
    var s := a + part + b;
    assert OccursAt(s, part, |a|);
  }

  /** What occurs in `x` occurs in `a + x`. */
  lemma ContainsAfter(a: string, x: string, p: string)
    requires Contains(x, p)
    ensures Contains(a + x, p)
  {
    var i :| 0 <= i <= |x| - |p| && OccursAt(x, p, i);
    assert (a + x)[|a| + i..|a| + i + |p|] == x[i..i + |p|];
    assert OccursAt(a + x, p, |a| + i);
  }

  /** What occurs in `x` occurs in `x + b`. */
  lemma ContainsBefore(x: string, b: string, p: string)
    requires Contains(x, p)
    ensures Contains(x + b, p)
  {
    var i :| 0 <= i <= |x| - |p| && OccursAt(x, p, i);
    assert (x + b)[i..i + |p|] == x[i..i + |p|];
    assert OccursAt(x + b, p, i);
  }

  /** Python's ordering of strings: lexicographic by code point, a proper
      prefix first. */
  predicate LessEq(a: string, b: string)
  {
    a == [] || (b != [] && (a[0] < b[0] || (a[0] == b[0] && LessEq(a[1..], b[1..]))))
  }

  lemma {:induction false} LessEqTotal(a: string, b: string)
    ensures LessEq(a, b) || LessEq(b, a)
  {
    if a != [] && b != [] && a[0] == b[0] {
      LessEqTotal(a[1..], b[1..]);
    }
  }

  lemma {:induction false} LessEqAntisymmetric(a: string, b: string)
    requires LessEq(a, b) && LessEq(b, a)
    ensures a == b
  {
    if a != [] && b != [] {
      LessEqAntisymmetric(a[1..], b[1..]);
      assert a == [a[0]] + a[1..] && b == [b[0]] + b[1..];
    }
  }

  lemma {:induction false} LessEqTransitive(a: string, b: string, c: string)
    requires LessEq(a, b) && LessEq(b, c)
    ensures LessEq(a, c)
  {
    if a != [] && b != [] && c != [] && a[0] == b[0] && b[0] == c[0] {
      LessEqTransitive(a[1..], b[1..], c[1..]);
    }
  }

  predicate Sorted(xs: seq<string>)
  {
    forall i, j :: 0 <= i < j < |xs| ==> LessEq(xs[i], xs[j])
  }

  /** Insert `x` into a sorted list, before the first element above it. */
  function Insert(x: string, xs: seq<string>): (r: seq<string>)
    requires Sorted(xs)
    ensures Sorted(r)
    ensures multiset(r) == multiset(xs) + multiset{x}
  {
    if xs == [] then [x]
    else if LessEq(x, xs[0]) then
      InsertFront(x, xs);
      [x] + xs
    else
      var rest := Insert(x, xs[1..]);
      InsertBehind(x, xs, rest);
      [xs[0]] + rest
  }

  lemma InsertFront(x: string, xs: seq<string>)
    requires Sorted(xs) && xs != [] && LessEq(x, xs[0])
    ensures Sorted([x] + xs)
  {
    assert forall j :: 0 <= j < |xs| ==> LessEq(xs[0], xs[j]) by {
      forall j | 0 <= j < |xs| ensures LessEq(xs[0], xs[j]) {
        if j == 0 { LessEqReflexive(xs[0]); }
      }
    }
    LessEqTransitiveAll(x, xs);
  }

  lemma InsertBehind(x: string, xs: seq<string>, rest: seq<string>)
    requires Sorted(xs) && xs != [] && !LessEq(x, xs[0])
    requires Sorted(rest) && multiset(rest) == multiset(xs[1..]) + multiset{x}
    ensures Sorted([xs[0]] + rest)
    ensures multiset([xs[0]] + rest) == multiset(xs) + multiset{x}
  {
    LessEqTotal(x, xs[0]);
    assert xs == [xs[0]] + xs[1..];
    forall j | 0 <= j < |rest| ensures LessEq(xs[0], rest[j]) {
      var y := rest[j];
      assert y in multiset(rest);
      assert y in multiset(xs[1..]) || y == x;
      if y != x {
        var k :| 0 <= k < |xs[1..]| && xs[1..][k] == y;
        assert xs[k + 1] == y;
      }
    }
  }

  lemma LessEqReflexive(a: string)
    ensures LessEq(a, a)
  {
  }

  lemma LessEqTransitiveAll(x: string, xs: seq<string>)
    requires xs != [] && LessEq(x, xs[0])
    requires forall j :: 0 <= j < |xs| ==> LessEq(xs[0], xs[j])
    ensures forall j :: 0 <= j < |xs| ==> LessEq(x, xs[j])
  {
    forall j | 0 <= j < |xs| ensures LessEq(x, xs[j]) {
      LessEqTransitive(x, xs[0], xs[j]);
    }
  }

  /** Python's `sorted` on a list of strings (an insertion sort). */
  function SortStrings(xs: seq<string>): (r: seq<string>)
    ensures Sorted(r)
    ensures multiset(r) == multiset(xs)
  {
    if xs == [] then []
    else
      assert xs == [xs[0]] + xs[1..];
      Insert(xs[0], SortStrings(xs[1..]))
  }
}
