/**
 The handful of Python `str` operations the usage engine relies on: `in` (substring search),
 `split(sep)`, `strip()`, the ordering `sorted` uses on strings, `str(int)` and the `:02d`
 format, and ASCII digits.
 */
module Text {
  import opened Wrappers

  /** Python's `str.isspace()`: the characters `strip()` removes. */
  predicate IsSpace(c: char) {
    c == '\t' || c == '\n' || c == '\U{000B}' || c == '\U{000C}' || c == '\r'
    || ('\U{001C}' <= c <= '\U{001F}') || c == ' '
    || c == '\U{0085}' || c == '\U{00A0}' || c == '\U{1680}'
    || ('\U{2000}' <= c <= '\U{200A}') || c == '\U{2028}' || c == '\U{2029}'
    || c == '\U{202F}' || c == '\U{205F}' || c == '\U{3000}'
  }

  function StripLeft(s: string): (r: string)
    ensures |r| <= |s| && r == s[|s| - |r|..]
    ensures r == [] || !IsSpace(r[0])
    ensures forall i | 0 <= i < |s| - |r| :: IsSpace(s[i])
  {
    if |s| > 0 && IsSpace(s[0]) then StripLeft(s[1..]) else s
  }

  function StripRight(s: string): (r: string)
    ensures |r| <= |s| && r == s[..|r|]
    ensures r == [] || !IsSpace(r[|r| - 1])
    ensures forall i | |r| <= i < |s| :: IsSpace(s[i])
  {
    if |s| > 0 && IsSpace(s[|s| - 1]) then StripRight(s[..|s| - 1]) else s
  }

  /** `s.strip()`: drop leading and trailing whitespace. */
  function Strip(s: string): string {
    StripRight(StripLeft(s))
  }

  /** True when `sep` occurs in `s` at position `i`. */
  predicate OccursAt(s: string, sep: string, i: int) {
    0 <= i && i + |sep| <= |s| && s[i..i + |sep|] == sep
  }

  /** An occurrence at `i >= 1` is an occurrence at `i - 1` in the string without its first
      character. */
  lemma OccursShift(s: string, sep: string, i: int)
    requires 1 <= i && |s| >= 1
    ensures OccursAt(s, sep, i) <==> OccursAt(s[1..], sep, i - 1)
  {
    if i + |sep| <= |s| {
      assert s[1..][i - 1..i - 1 + |sep|] == s[i..i + |sep|];
    }
  }

  /** The leftmost position where `sep` occurs in `s` (Python `s.find(sep)`, None for -1). */
  function IndexOf(s: string, sep: string): (r: Option<nat>)
    requires |sep| > 0
    ensures r.Some? ==> OccursAt(s, sep, r.value)
    ensures r.Some? ==> forall i | 0 <= i < r.value :: !OccursAt(s, sep, i)
    ensures r.None? ==> forall i :: !OccursAt(s, sep, i)
    decreases |s|
  {
    if |s| < |sep| then None
    else if s[..|sep|] == sep then Some(0)
    else
      var t := IndexOf(s[1..], sep);
      assert forall i | 1 <= i :: OccursAt(s, sep, i) == OccursAt(s[1..], sep, i - 1) by {
        forall i | 1 <= i ensures OccursAt(s, sep, i) == OccursAt(s[1..], sep, i - 1) {
          OccursShift(s, sep, i);
        }
      }
      assert !OccursAt(s, sep, 0);
      if t.None? then None else Some(t.value + 1)
  }

  /** Python's `sep in s`. */
  predicate Contains(s: string, sep: string)
    requires |sep| > 0
  {
    IndexOf(s, sep).Some?
  }

  /** Python's `s.split(sep)`: cut at every leftmost, non-overlapping occurrence of `sep`. */
  function Split(s: string, sep: string): (parts: seq<string>)
    requires |sep| > 0
    ensures |parts| >= 1
    decreases |s|
  {
    match IndexOf(s, sep)
    case None => [s]
    case Some(i) => [s[..i]] + Split(s[i + |sep|..], sep)
  }

  /** Python's `sep.join(parts)`. */
  function Join(parts: seq<string>, sep: string): string {
    if |parts| == 0 then ""
    else if |parts| == 1 then parts[0]
    else parts[0] + sep + Join(parts[1..], sep)
  }

  /** A string is the part before an occurrence of `sep`, `sep`, and the part after it. */
  lemma CutAt(s: string, sep: string, i: int)
    requires OccursAt(s, sep, i)
    ensures s == s[..i] + sep + s[i + |sep|..]
  {
    assert s[..i] + s[i..i + |sep|] + s[i + |sep|..] == s;
  }

  lemma JoinCons(a: string, tail: seq<string>, sep: string)
    requires |tail| >= 1
    ensures Join([a] + tail, sep) == a + sep + Join(tail, sep)
  {
    assert ([a] + tail)[1..] == tail;
  }

  /** Splitting loses nothing: joining the parts back with the separator gives the string. */
  lemma {:induction false} JoinSplit(s: string, sep: string)
    requires |sep| > 0
    ensures Join(Split(s, sep), sep) == s
    decreases |s|
  {
    match IndexOf(s, sep)
    case None =>
    case Some(i) =>
      var rest := s[i + |sep|..];
      JoinSplit(rest, sep);
      JoinCons(s[..i], Split(rest, sep), sep);
      CutAt(s, sep, i);
  }

  /** The separator occurs exactly when the split has more than one part. */
  lemma SplitMany(s: string, sep: string)
    requires |sep| > 0
    ensures Contains(s, sep) <==> |Split(s, sep)| >= 2
  {
  }

  /** An occurrence in a prefix is an occurrence in the whole string, ending within the prefix. */
  lemma PrefixOccurs(s: string, sep: string, n: int, j: int)
    requires 0 <= n <= |s| && |sep| > 0
    ensures OccursAt(s[..n], sep, j) ==> OccursAt(s, sep, j) && j < n
  {
    if OccursAt(s[..n], sep, j) {
      assert s[..n][j..j + |sep|] == s[j..j + |sep|];
    }
  }

  /** No part of a split contains the separator. */
  lemma {:induction false} SplitPartsFree(s: string, sep: string, k: nat)
    requires |sep| > 0 && k < |Split(s, sep)|
    ensures !Contains(Split(s, sep)[k], sep)
    decreases |s|
  {
    match IndexOf(s, sep)
    case None =>
    case Some(i) =>
      var rest := s[i + |sep|..];
      var parts := Split(s, sep);
      assert parts == [s[..i]] + Split(rest, sep);
      if k == 0 {
        assert parts[0] == s[..i];
        forall j ensures !OccursAt(s[..i], sep, j) {
          PrefixOccurs(s, sep, i, j);
        }
      } else {
        assert k - 1 < |Split(rest, sep)| && parts[k] == Split(rest, sep)[k - 1];
        SplitPartsFree(rest, sep, k - 1);
      }
  }

  /** When the single character `c` does not occur in `a`, splitting `a + [c] + b` at `c` yields
      `a` followed by the parts of `b`. */
  lemma SplitCharCons(a: string, c: char, b: string)
    requires c !in a
    ensures Split(a + [c] + b, [c]) == [a] + Split(b, [c])
  {
    var s := a + [c] + b;
    assert OccursAt(s, [c], |a|) by {
      assert s[|a|..|a| + 1] == [c];
    }
    forall i | 0 <= i < |a| ensures !OccursAt(s, [c], i) {
      assert s[i..i + 1] == [a[i]];
    }
    assert IndexOf(s, [c]) == Some(|a|);
    assert s[..|a|] == a;
    assert s[|a| + 1..] == b;
  }

  /** A string without the single character `c` is not split by it. */
  lemma SplitCharNone(a: string, c: char)
    requires c !in a
    ensures Split(a, [c]) == [a]
  {
    forall i | 0 <= i && i + 1 <= |a| ensures !OccursAt(a, [c], i) {
      assert a[i..i + 1] == [a[i]];
    }
  }

  /** The order Python `sorted` puts strings in: code point by code point, a proper prefix first. */
  predicate StrLess(a: string, b: string)
    decreases |a|
  {
    if |a| == 0 then |b| > 0
    else if |b| == 0 then false
    else if a[0] != b[0] then a[0] < b[0]
    else StrLess(a[1..], b[1..])
  }

  lemma {:induction false} StrLessIrreflexive(a: string)
    ensures !StrLess(a, a)
    decreases |a|
  {
    if |a| > 0 {
      StrLessIrreflexive(a[1..]);
    }
  }

  lemma {:induction false} StrLessTransitive(a: string, b: string, c: string)
    requires StrLess(a, b) && StrLess(b, c)
    ensures StrLess(a, c)
    decreases |a|
  {
    if |a| > 0 && |b| > 0 && |c| > 0 && a[0] == b[0] && b[0] == c[0] {
      StrLessTransitive(a[1..], b[1..], c[1..]);
    }
  }

  lemma {:induction false} StrLessTotal(a: string, b: string)
    requires a != b
    ensures StrLess(a, b) || StrLess(b, a)
    decreases |a|
  {
    if |a| > 0 && |b| > 0 && a[0] == b[0] {
      assert a == [a[0]] + a[1..] && b == [b[0]] + b[1..];
      StrLessTotal(a[1..], b[1..]);
    }
  }

  lemma {:induction false} StrLessAsymmetric(a: string, b: string)
    requires StrLess(a, b)
    ensures !StrLess(b, a)
    decreases |a|
  {
    if |a| > 0 && |b| > 0 && a[0] == b[0] {
      StrLessAsymmetric(a[1..], b[1..]);
    }
  }

  /** Strictly ascending in Python's string order (so also free of duplicates). */
  predicate StrictlySorted(xs: seq<string>) {
    forall i, j | 0 <= i < j < |xs| :: StrLess(xs[i], xs[j])
  }

  predicate Distinct(xs: seq<string>) {
    forall i, j | 0 <= i < j < |xs| :: xs[i] != xs[j]
  }

  lemma SortedCons(x: string, xs: seq<string>)
    requires StrictlySorted(xs) && forall y | y in xs :: StrLess(x, y)
    ensures StrictlySorted([x] + xs)
  {
    var r := [x] + xs;
    forall i, j | 0 <= i < j < |r| ensures StrLess(r[i], r[j]) {
      if i == 0 {
        assert r[j] in xs;
      } else {
        assert r[i] == xs[i - 1] && r[j] == xs[j - 1];
      }
    }
  }

  /** Inserting a new string into a sorted list at its place. */
  function InsertSorted(x: string, xs: seq<string>): (r: seq<string>)
    requires StrictlySorted(xs) && x !in xs
    ensures |r| == |xs| + 1 && StrictlySorted(r)
    ensures forall y :: y in r <==> y == x || y in xs
  {
    if |xs| == 0 then [x]
    else if StrLess(x, xs[0]) then
      assert forall y | y in xs :: StrLess(x, y) by {
        forall y | y in xs ensures StrLess(x, y) {
          var j :| 0 <= j < |xs| && xs[j] == y;
          if j > 0 {
            StrLessTransitive(x, xs[0], xs[j]);
          }
        }
      }
      SortedCons(x, xs);
      [x] + xs
    else
      StrLessTotal(x, xs[0]);
      var t := InsertSorted(x, xs[1..]);
      assert forall y | y in t :: StrLess(xs[0], y) by {
        forall y | y in t ensures StrLess(xs[0], y) {
          if y != x {
            var j :| 0 <= j < |xs[1..]| && xs[1..][j] == y;
            assert xs[j + 1] == y;
          }
        }
      }
      SortedCons(xs[0], t);
      assert xs == [xs[0]] + xs[1..];
      [xs[0]] + t
  }

  /** Python's `sorted` on a list of distinct strings. */
  function SortStrings(xs: seq<string>): (r: seq<string>)
    requires Distinct(xs)
    ensures |r| == |xs| && StrictlySorted(r)
    ensures forall y :: y in r <==> y in xs
  {
    if |xs| == 0 then []
    else
      var p := xs[..|xs| - 1];
      var x := xs[|xs| - 1];
      assert x !in p by {
        forall i | 0 <= i < |p| ensures p[i] != x {
          assert p[i] == xs[i];
        }
      }
      assert xs == p + [x];
      InsertSorted(x, SortStrings(p))
  }

  /** Two strictly sorted lists with the same elements are the same list: the sorted order of
      a set of keys does not depend on the order they were collected in. */
  lemma {:induction false} SortedUnique(a: seq<string>, b: seq<string>)
    requires StrictlySorted(a) && StrictlySorted(b)
    requires forall y :: y in a <==> y in b
    ensures a == b
    decreases |a|
  {
    assert |a| > 0 ==> a[0] in b;
    assert |b| > 0 ==> b[0] in a;
    if |a| > 0 && |b| > 0 {
      assert a[0] in b && b[0] in a;
      if a[0] != b[0] {
        var i :| 0 <= i < |b| && b[i] == a[0];
        var j :| 0 <= j < |a| && a[j] == b[0];
        StrLessAsymmetric(a[0], a[j]);
        assert false;
      }
      forall y ensures y in a[1..] <==> y in b[1..] {
        if y in a[1..] {
          var i :| 0 <= i < |a[1..]| && a[1..][i] == y;
          assert StrLess(a[0], a[i + 1]);
          StrLessIrreflexive(y);
          assert y in b;
          var j :| 0 <= j < |b| && b[j] == y;
          assert j != 0;
          assert b[1..][j - 1] == y;
        }
        if y in b[1..] {
          var i :| 0 <= i < |b[1..]| && b[1..][i] == y;
          assert StrLess(b[0], b[i + 1]);
          StrLessIrreflexive(y);
          assert y in a;
          var j :| 0 <= j < |a| && a[j] == y;
          assert j != 0;
          assert a[1..][j - 1] == y;
        }
      }
      SortedUnique(a[1..], b[1..]);
      assert a == [a[0]] + a[1..] && b == [b[0]] + b[1..];
    }
  }
  /** A single string sorts to itself. */
  lemma SortSingleton(x: string)
    ensures SortStrings([x]) == [x]
  {
    SortedUnique(SortStrings([x]), [x]);
  }


  predicate IsDigit(c: char) {
    '0' <= c <= '9'
  }

  function DigitValue(c: char): (n: nat)
    requires IsDigit(c)
    ensures n < 10
  {
    (c as int) - ('0' as int)
  }

  function DigitChar(n: nat): (c: char)
    requires n < 10
    ensures IsDigit(c) && DigitValue(c) == n
  {
    ((n + '0' as int) as char)
  }

  predicate AllDigits(s: string) {
    forall i | 0 <= i < |s| :: IsDigit(s[i])
  }

  /** The number a string of decimal digits denotes, read left to right. */
  function DigitsValue(s: string): nat
    requires AllDigits(s)
  {
    if |s| == 0 then 0 else DigitsValue(s[..|s| - 1]) * 10 + DigitValue(s[|s| - 1])
  }

  /** The decimal digits of `n`, as Python's `str` writes a non-negative int: they denote `n`,
      and there is no leading zero. */
  function NatToString(n: nat): (s: string)
    ensures |s| >= 1 && AllDigits(s)
    ensures DigitsValue(s) == n
    ensures |s| > 1 ==> s[0] != '0'
    ensures |s| == 1 <==> n < 10
  {
    if n < 10 then [DigitChar(n)]
    else
      var p := NatToString(n / 10);
      var s := p + [DigitChar(n % 10)];
      assert s[..|s| - 1] == p;
      s
  }

  /** Python's `str(n)` for an int: a minus sign exactly for a negative number, then the digits
      of its magnitude. */
  function IntToString(n: int): (s: string)
    ensures |s| >= 1 && (s[0] == '-' <==> n < 0)
    ensures forall i | 1 <= i < |s| :: IsDigit(s[i])
    ensures n >= 0 ==> AllDigits(s) && DigitsValue(s) == n
    ensures n < 0 ==> |s| >= 2 && AllDigits(s[1..]) && DigitsValue(s[1..]) == -n
  {
    if n < 0 then
      var s := "-" + NatToString(-n);
      assert s[1..] == NatToString(-n);
      s
    else NatToString(n)
  }

  /** `str` is one-to-one on ints. */
  lemma IntToStringInjective(a: int, b: int)
    requires IntToString(a) == IntToString(b)
    ensures a == b
  {
    if a < 0 {
      assert IntToString(a)[1..] == IntToString(b)[1..];
    }
  }

  /** Python's `f"{n:02d}"`: for 0..9 a zero and the digit, otherwise `str(n)`. */
  function Pad2(n: int): (s: string)
    ensures |s| >= 2
    ensures n >= 0 ==> AllDigits(s) && DigitsValue(s) == n
    ensures 0 <= n < 10 <==> s[0] == '0'
    ensures 0 <= n < 10 ==> |s| == 2
    ensures n >= 10 || n < 0 ==> s == IntToString(n)
  {
    if 0 <= n < 10 then
      var s := "0" + NatToString(n);
      assert s[..1] == "0" && s[..|s| - 1] == "0";
      s
    else IntToString(n)
  }

  /** The `:02d` field is one-to-one too. */
  lemma Pad2Injective(a: int, b: int)
    requires Pad2(a) == Pad2(b)
    ensures a == b
  {
    if a < 0 || b < 0 {
      IntToStringInjective(a, b);
    }
  }

  /** The two-digit field `%m`, `%d` and `%y` write for a value in 0..99. */
  function TwoDigits(n: nat): (s: string)
    requires n < 100
    ensures |s| == 2 && IsDigit(s[0]) && IsDigit(s[1])
    ensures DigitValue(s[0]) * 10 + DigitValue(s[1]) == n
  {
    [DigitChar(n / 10), DigitChar(n % 10)]
  }
}
