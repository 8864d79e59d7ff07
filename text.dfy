/**
 * String primitives that the backend (Rust) and the command-line wrapper
 * (Python) rely on: substring search and replacement, whitespace trimming,
 * splitting text into lines, decimal formatting of integers and the
 * code-point order that Python's `sorted` uses on strings.
 *
 * A `string` is a sequence of Unicode scalar values, as both `&str` in Rust
 * and `str` in Python are.
 */
module Text {

  // ---------------------------------------------------------------------
  // Substrings
  // ---------------------------------------------------------------------

  /** `pre` is a prefix of `s` (Python `str.startswith`). */
  predicate StartsWith(s: string, pre: string) {
    |pre| <= |s| && s[..|pre|] == pre
  }

  /** `pat` occurs somewhere in `s` (Rust `str::contains`, Python `in` on `str`). */
  predicate Contains(s: string, pat: string)
    decreases |s|
  {
    StartsWith(s, pat) || (s != [] && Contains(s[1..], pat))
  }

  /** Every string contains itself. */
  lemma ContainsItself(s: string)
    ensures Contains(s, s)
  {
    assert s[..|s|] == s;
  }

  /** An occurrence at position `k` is an occurrence. */
  lemma {:induction false} ContainsAt(s: string, pat: string, k: nat)
    requires k <= |s| && StartsWith(s[k..], pat)
    ensures Contains(s, pat)
    decreases k
  {
    if k == 0 {
      assert s[0..] == s;
    } else {
      assert s[1..][k - 1..] == s[k..];
      ContainsAt(s[1..], pat, k - 1);
    }
  }

  /** Whatever holds `a + b` holds `b`. */
  lemma {:induction false} ContainsTail(s: string, a: string, b: string)
    ensures Contains(s, a + b) ==> Contains(s, b)
    decreases |s|
  {
    if StartsWith(s, a + b) {
      assert s[|a|..][..|b|] == (a + b)[|a|..] == b;
      ContainsAt(s, b, |a|);
    } else if s != [] {
      ContainsTail(s[1..], a, b);
    }
  }

  /** A one-character pattern occurs exactly when the character does. */
  lemma {:induction false} ContainsChar(s: string, c: char)
    ensures Contains(s, [c]) <==> c in s
    decreases |s|
  {
    if s != [] {
      ContainsChar(s[1..], c);
      assert s == [s[0]] + s[1..];
    }
  }

  /**
   * Replaces the non-overlapping occurrences of `pat`, scanning from the
   * left, by `rep` (Rust `str::replace`, Python `str.replace`).
   */
  function Replace(s: string, pat: string, rep: string): string
    requires pat != []
    decreases |s|
  {
    if s == [] then []
    else if StartsWith(s, pat) then rep + Replace(s[|pat|..], pat, rep)
    else [s[0]] + Replace(s[1..], pat, rep)
  }

  /** Replacing a pattern that does not occur changes nothing. */
  lemma {:induction false} ReplaceAbsent(s: string, pat: string, rep: string)
    requires pat != [] && !Contains(s, pat)
    ensures Replace(s, pat, rep) == s
    decreases |s|
  {
    if s != [] {
      ReplaceAbsent(s[1..], pat, rep);
      assert s == [s[0]] + s[1..];
    }
  }

  /** Removing a one-character pattern removes every occurrence of that character. */
  lemma {:induction false} RemoveCharLeavesNone(s: string, c: char)
    ensures c !in Replace(s, [c], [])
    decreases |s|
  {
    if s != [] {
      RemoveCharLeavesNone(s[1..], c);
    }
  }

  /** Removing a pattern never makes a string longer. */
  lemma {:induction false} RemoveShortens(s: string, pat: string)
    requires pat != []
    ensures |Replace(s, pat, [])| <= |s|
    decreases |s|
  {
    if s != [] {
      if StartsWith(s, pat) {
        RemoveShortens(s[|pat|..], pat);
      } else {
        RemoveShortens(s[1..], pat);
      }
    }
  }

  /** A prefix that holds no first character of `pat` passes through a replacement unchanged. */
  lemma {:induction false} ReplaceSkips(x: string, y: string, pat: string, rep: string)
    requires pat != [] && pat[0] !in x
    ensures Replace(x + y, pat, rep) == x + Replace(y, pat, rep)
    decreases |x|
  {
    if x != [] {
      assert (x + y)[0] == x[0];
      assert (x + y)[1..] == x[1..] + y;
      ReplaceSkips(x[1..], y, pat, rep);
    } else {
      assert x + y == y;
    }
  }

  /** An occurrence at the very start is replaced, and the scan resumes after it. */
  lemma ReplaceAtStart(y: string, pat: string, rep: string)
    requires pat != []
    ensures Replace(pat + y, pat, rep) == rep + Replace(y, pat, rep)
  {
    assert (pat + y)[..|pat|] == pat;
    assert (pat + y)[|pat|..] == y;
  }

  /** The first occurrence of `pat`, behind a prefix free of its first character, is replaced. */
  lemma ReplaceFirst(x: string, y: string, pat: string, rep: string)
    requires pat != [] && pat[0] !in x
    ensures Replace(x + (pat + y), pat, rep) == x + (rep + Replace(y, pat, rep))
  {
    ReplaceSkips(x, pat + y, pat, rep);
    ReplaceAtStart(y, pat, rep);
  }

  /** A string free of the first character of `pat` is left as it is. */
  lemma ReplaceNone(x: string, pat: string, rep: string)
    requires pat != [] && pat[0] !in x
    ensures Replace(x, pat, rep) == x
  {
    ReplaceSkips(x, [], pat, rep);
    assert x + [] == x;
  }

  /** A character that does not start an occurrence is kept. */
  lemma ReplaceMiss(c: char, y: string, pat: string, rep: string)
    requires pat != [] && !StartsWith([c] + y, pat)
    ensures Replace([c] + y, pat, rep) == [c] + Replace(y, pat, rep)
  {
    assert ([c] + y)[1..] == y;
  }

  /**
   * Regrouping a concatenation, stated for any element type so that the
   * verifier need not compare the elements themselves.
   */
  lemma ConcatAssociative<T>(a: seq<T>, b: seq<T>, c: seq<T>)
    ensures a + (b + c) == (a + b) + c
  {
  }

  /** The empty sequence is the unit of concatenation, stated for any element type. */
  lemma ConcatEmpty<T>(s: seq<T>)
    ensures s + [] == s && [] + s == s
  {
  }

  /** Every string of `items` behind `prefix` (a `format!` or f-string applied to each). */
  function Prefixed(prefix: string, items: seq<string>): seq<string> {
    seq(|items|, k requires 0 <= k < |items| => prefix + items[k])
  }

  /** The strings that a longer pattern cannot occur in. */
  lemma {:induction false} TooShortToContain(s: string, pat: string)
    requires |s| < |pat|
    ensures !Contains(s, pat)
    decreases |s|
  {
    if s != [] {
      TooShortToContain(s[1..], pat);
    }
  }

  /** Replacing a pattern longer than the text changes nothing. */
  lemma ReplaceTooShort(s: string, pat: string, rep: string)
    requires pat != [] && |s| < |pat|
    ensures Replace(s, pat, rep) == s
  {
    TooShortToContain(s, pat);
    ReplaceAbsent(s, pat, rep);
  }

  // ---------------------------------------------------------------------
  // Whitespace
  // ---------------------------------------------------------------------

  /** Rust's `char::is_whitespace`: the Unicode White_Space property. */
  predicate IsRustWhitespace(c: char) {
    ('\t' <= c <= '\r') || c == ' ' || c == '\U{85}' || c == '\U{A0}'
    || c == '\U{1680}' || ('\U{2000}' <= c <= '\U{200A}')
    || c == '\U{2028}' || c == '\U{2029}' || c == '\U{202F}'
    || c == '\U{205F}' || c == '\U{3000}'
  }

  /**
   * Python's `str.isspace` on one character: the White_Space characters
   * plus the four information separators U+001C to U+001F.
   */
  predicate IsPythonWhitespace(c: char) {
    IsRustWhitespace(c) || ('\U{1C}' <= c <= '\U{1F}')
  }

  /** Drops the longest prefix made of `isSpace` characters. */
  function TrimStart(s: string, isSpace: char -> bool): string
    decreases |s|
  {
    if s != [] && isSpace(s[0]) then TrimStart(s[1..], isSpace) else s
  }

  /** Drops the longest suffix made of `isSpace` characters. */
  function TrimEnd(s: string, isSpace: char -> bool): string
    decreases |s|
  {
    if s != [] && isSpace(s[|s| - 1]) then TrimEnd(s[..|s| - 1], isSpace) else s
  }

  /** Both ends: Rust `str::trim` with `IsRustWhitespace`, Python `str.strip()` with `IsPythonWhitespace`. */
  function Trim(s: string, isSpace: char -> bool): string {
    TrimEnd(TrimStart(s, isSpace), isSpace)
  }

  /** A string that starts and ends with a non-space character. */
  predicate IsTrimmed(s: string, isSpace: char -> bool) {
    s == [] || (!isSpace(s[0]) && !isSpace(s[|s| - 1]))
  }

  /** Every character of `w` is a space. */
  predicate AllSpace(w: string, isSpace: char -> bool) {
    forall k :: 0 <= k < |w| ==> isSpace(w[k])
  }

  /** `TrimStart` keeps a suffix, drops only spaces, and keeps a non-space first character. */
  lemma {:induction false} TrimStartSpec(s: string, isSpace: char -> bool)
    ensures var r := TrimStart(s, isSpace);
      && |r| <= |s| && r == s[|s| - |r|..]
      && (r != [] ==> !isSpace(r[0]))
      && AllSpace(s[..|s| - |r|], isSpace)
    decreases |s|
  {
    if s != [] && isSpace(s[0]) {
      TrimStartSpec(s[1..], isSpace);
      var r := TrimStart(s[1..], isSpace);
      var w, w' := s[..|s| - |r|], s[1..][..|s| - 1 - |r|];
      forall k | 0 <= k < |w| ensures isSpace(w[k]) {
        if k > 0 {
          assert w[k] == s[k] == w'[k - 1];
        }
      }
    }
  }

  /** `TrimEnd` keeps a prefix, drops only spaces, and keeps a non-space last character. */
  lemma {:induction false} TrimEndSpec(s: string, isSpace: char -> bool)
    ensures var r := TrimEnd(s, isSpace);
      && |r| <= |s| && r == s[..|r|]
      && (r != [] ==> !isSpace(r[|r| - 1]))
      && AllSpace(s[|r|..], isSpace)
    decreases |s|
  {
    if s != [] && isSpace(s[|s| - 1]) {
      var s' := s[..|s| - 1];
      TrimEndSpec(s', isSpace);
      var r := TrimEnd(s', isSpace);
      var w, w' := s[|r|..], s'[|r|..];
      forall k | 0 <= k < |w| ensures isSpace(w[k]) {
        if k < |w'| {
          assert w[k] == w'[k];
        } else {
          assert w[k] == s[|s| - 1];
        }
      }
    }
  }

  /**
   * A prefix `r` of a suffix `t` of `s`, with only spaces cut on either
   * side and non-space ends, is a trimmed contiguous run of `s`.
   */
  lemma ContiguousRun(s: string, t: string, r: string, isSpace: char -> bool)
    requires |t| <= |s| && t == s[|s| - |t|..]
    requires t != [] ==> !isSpace(t[0])
    requires AllSpace(s[..|s| - |t|], isSpace)
    requires |r| <= |t| && r == t[..|r|]
    requires r != [] ==> !isSpace(r[|r| - 1])
    requires AllSpace(t[|r|..], isSpace)
    ensures var a := |s| - |t|;
      && IsTrimmed(r, isSpace)
      && 0 <= a <= a + |r| <= |s| && r == s[a..a + |r|]
      && AllSpace(s[..a], isSpace) && AllSpace(s[a + |r|..], isSpace)
  {
    var a := |s| - |t|;
    if r != [] {
      assert r[0] == t[0];
    }
    forall k | 0 <= k < |r| ensures r[k] == s[a + k] {
      assert r[k] == t[k];
    }
    assert s[a + |r|..] == t[|r|..];
  }

  /**
   * Trimming leaves a trimmed string made of a contiguous run of the
   * original, with only spaces cut from either side.
   */
  lemma TrimSpec(s: string, isSpace: char -> bool)
    ensures var r := Trim(s, isSpace);
      var a := |s| - |TrimStart(s, isSpace)|;
      && IsTrimmed(r, isSpace)
      && 0 <= a <= a + |r| <= |s| && r == s[a..a + |r|]
      && AllSpace(s[..a], isSpace) && AllSpace(s[a + |r|..], isSpace)
  {
    var t := TrimStart(s, isSpace);
    TrimStartSpec(s, isSpace);
    TrimEndSpec(t, isSpace);
    ContiguousRun(s, t, TrimEnd(t, isSpace), isSpace);
  }

  /** Every character left by trimming was in the original. */
  lemma TrimKeepsCharacters(s: string, isSpace: char -> bool)
    ensures forall c :: c in Trim(s, isSpace) ==> c in s
  {
    TrimSpec(s, isSpace);
    var r := Trim(s, isSpace);
    var a := |s| - |TrimStart(s, isSpace)|;
    forall c | c in r ensures c in s {
      var k :| 0 <= k < |r| && r[k] == c;
      assert s[a + k] == c;
    }
  }

  /** Trimming keeps exactly the padded text: `Trim(w + p) == p` for blank `w` and trimmed `p`. */
  lemma {:induction false} TrimPadded(w: string, p: string, isSpace: char -> bool)
    requires forall k :: 0 <= k < |w| ==> isSpace(w[k])
    requires IsTrimmed(p, isSpace)
    ensures Trim(w + p, isSpace) == p
    decreases |w|
  {
    if w == [] {
      assert w + p == p;
    } else {
      assert (w + p)[1..] == w[1..] + p;
      TrimPadded(w[1..], p, isSpace);
    }
  }

  // ---------------------------------------------------------------------
  // Lines
  // ---------------------------------------------------------------------

  /** Index of the first line feed in `s`, or `|s|` when there is none. */
  function LineEnd(s: string): (i: nat)
    ensures i <= |s|
    ensures i < |s| ==> s[i] == '\n'
    ensures forall k :: 0 <= k < i ==> s[k] != '\n'
    decreases |s|
  {
    if s == [] || s[0] == '\n' then 0 else 1 + LineEnd(s[1..])
  }

  /** Drops one trailing carriage return. */
  function DropCR(l: string): string {
    if l != [] && l[|l| - 1] == '\r' then l[..|l| - 1] else l
  }

  /**
   * Rust's `str::lines`: the text is cut after every line feed; a piece
   * that ended with a line feed loses it and then one carriage return
   * before it; a last piece without a line feed is kept as it is; an empty
   * text has no lines and a final line feed opens no extra line.
   */
  function Lines(s: string): (r: seq<string>)
    ensures r == [] <==> s == []
    ensures forall k :: 0 <= k < |r| ==> '\n' !in r[k]
    decreases |s|
  {
    if s == [] then []
    else
      var i := LineEnd(s);
      if i == |s| then [s]
      else [DropCR(s[..i])] + Lines(s[i + 1..])
  }

  /** Text as written by a sequence of Python `print` calls: every line followed by a line feed. */
  function JoinLines(ls: seq<string>): string {
    if ls == [] then [] else ls[0] + "\n" + JoinLines(ls[1..])
  }

  /** A line that `JoinLines` and `Lines` carry unchanged: no line feed, no trailing carriage return. */
  predicate IsPlainLine(l: string) {
    '\n' !in l && (l == [] || l[|l| - 1] != '\r')
  }

  /** A line without a line feed, followed by one, is split off first. */
  lemma SplitFirstLine(l: string, rest: string)
    requires '\n' !in l
    ensures Lines(l + ("\n" + rest)) == [DropCR(l)] + Lines(rest)
  {
    var s := l + ("\n" + rest);
    assert s[|l|] == '\n';
    assert forall k :: 0 <= k < |l| ==> s[k] == l[k];
    assert LineEnd(s) == |l|;
    assert s[..|l|] == l;
    assert s[|l| + 1..] == rest;
  }

  /** Splitting printed lines gives the lines back. */
  lemma {:induction false} LinesOfJoin(ls: seq<string>)
    requires forall k :: 0 <= k < |ls| ==> IsPlainLine(ls[k])
    ensures Lines(JoinLines(ls)) == ls
    decreases |ls|
  {
    if ls != [] {
      var l := ls[0];
      assert IsPlainLine(l);
      assert JoinLines(ls) == l + ("\n" + JoinLines(ls[1..]));
      SplitFirstLine(l, JoinLines(ls[1..]));
      assert DropCR(l) == l;
      LinesOfJoin(ls[1..]);
      assert ls == [l] + ls[1..];
    }
  }

  // ---------------------------------------------------------------------
  // Decimal numbers
  // ---------------------------------------------------------------------

  predicate IsDigit(c: char) { '0' <= c <= '9' }

  function DigitChar(d: nat): (c: char)
    requires d < 10
    ensures IsDigit(c) && c as int - '0' as int == d
  {
    ('0' as int + d) as char
  }

  /** `n` in base ten without leading zeros, as Rust's `{}` and Python's `str` print it. */
  function NatToDecimal(n: nat): (r: string)
    ensures r != [] && forall k :: 0 <= k < |r| ==> IsDigit(r[k])
    ensures r[0] == '0' ==> n == 0
    decreases n
  {
    if n < 10 then [DigitChar(n)] else NatToDecimal(n / 10) + [DigitChar(n % 10)]
  }

  /** `n` in base ten with a leading minus sign when negative. */
  function IntToDecimal(n: int): string {
    if n < 0 then "-" + NatToDecimal(-n) else NatToDecimal(n)
  }

  /** The value of a string of decimal digits. */
  function DigitsValue(s: string): nat
    requires forall k :: 0 <= k < |s| ==> IsDigit(s[k])
  {
    if s == [] then 0
    else
      assert IsDigit(s[|s| - 1]);
      10 * DigitsValue(s[..|s| - 1]) + (s[|s| - 1] as int - '0' as int)
  }

  /** The reading of a decimal integer: an optional minus sign followed by digits. */
  function ParseDecimal(s: string): int
    requires s != [] && (forall k :: 0 < k < |s| ==> IsDigit(s[k]))
    requires IsDigit(s[0]) || s[0] == '-'
  {
    if s[0] == '-' then 0 - DigitsValue(s[1..]) else DigitsValue(s)
  }

  lemma {:induction false} NatToDecimalRoundTrip(n: nat)
    ensures DigitsValue(NatToDecimal(n)) == n
    decreases n
  {
    if n >= 10 {
      NatToDecimalRoundTrip(n / 10);
      var s := NatToDecimal(n);
      assert s[..|s| - 1] == NatToDecimal(n / 10);
    }
  }

  /** The decimal text of an integer reads back as that integer. */
  lemma IntToDecimalRoundTrip(n: int)
    ensures var s := IntToDecimal(n);
      s != [] && (forall k :: 0 < k < |s| ==> IsDigit(s[k])) && (IsDigit(s[0]) || s[0] == '-')
      && ParseDecimal(s) == n
  {
    if n < 0 {
      NatToDecimalRoundTrip(-n);
      assert IntToDecimal(n)[1..] == NatToDecimal(-n);
    } else {
      NatToDecimalRoundTrip(n);
    }
  }

  // ---------------------------------------------------------------------
  // Ordering strings by code point (Python's `<=` on `str`)
  // ---------------------------------------------------------------------

  /** `a` comes no later than `b`: compare code points left to right; a proper prefix comes first. */
  predicate LexLeq(a: string, b: string)
    decreases |a|
  {
    a == [] || (b != [] && (a[0] < b[0] || (a[0] == b[0] && LexLeq(a[1..], b[1..]))))
  }

  lemma {:induction false} LexLeqReflexive(a: string)
    ensures LexLeq(a, a)
    decreases |a|
  {
    if a != [] {
      LexLeqReflexive(a[1..]);
    }
  }

  lemma {:induction false} LexLeqTotal(a: string, b: string)
    ensures LexLeq(a, b) || LexLeq(b, a)
    decreases |a|
  {
    if a != [] && b != [] && a[0] == b[0] {
      LexLeqTotal(a[1..], b[1..]);
    }
  }

  lemma {:induction false} LexLeqTransitive(a: string, b: string, c: string)
    requires LexLeq(a, b) && LexLeq(b, c)
    ensures LexLeq(a, c)
    decreases |a|
  {
    if a != [] && a[0] == b[0] && b[0] == c[0] {
      LexLeqTransitive(a[1..], b[1..], c[1..]);
    }
  }

  lemma {:induction false} LexLeqAntisymmetric(a: string, b: string)
    requires LexLeq(a, b) && LexLeq(b, a)
    ensures a == b
    decreases |a|
  {
    if a != [] {
      LexLeqAntisymmetric(a[1..], b[1..]);
      assert a == [a[0]] + a[1..] && b == [b[0]] + b[1..];
    }
  }

  predicate Sorted(s: seq<string>) {
    forall i, j :: 0 <= i < j < |s| ==> LexLeq(s[i], s[j])
  }

  /** A string no greater than every element of a sorted sequence can go in front of it. */
  lemma ConsSorted(h: string, rest: seq<string>)
    requires Sorted(rest)
    requires forall j :: 0 <= j < |rest| ==> LexLeq(h, rest[j])
    ensures Sorted([h] + rest)
  {
    var r := [h] + rest;
    forall i, j | 0 <= i < j < |r| ensures LexLeq(r[i], r[j]) {
      assert r[j] == rest[j - 1];
      if i > 0 {
        assert r[i] == rest[i - 1];
      }
    }
  }

  /** A string below the head of a sorted sequence is below all of it. */
  lemma BelowHead(x: string, s: seq<string>)
    requires Sorted(s) && s != [] && LexLeq(x, s[0])
    ensures forall j :: 0 <= j < |s| ==> LexLeq(x, s[j])
  {
    forall j | 0 < j < |s| ensures LexLeq(x, s[j]) {
      LexLeqTransitive(x, s[0], s[j]);
    }
  }

  /** The head of a sorted `[h] + tail` is below every element of `tail` with `x` added. */
  lemma BelowInserted(h: string, tail: seq<string>, x: string, rest: seq<string>)
    requires Sorted([h] + tail) && LexLeq(h, x)
    requires multiset(rest) == multiset(tail) + multiset{x}
    ensures forall j :: 0 <= j < |rest| ==> LexLeq(h, rest[j])
  {
    forall j | 0 <= j < |rest| ensures LexLeq(h, rest[j]) {
      assert rest[j] in multiset(rest);
      if rest[j] != x {
        assert rest[j] in multiset(tail);
        var m :| 0 <= m < |tail| && tail[m] == rest[j];
        var ht := [h] + tail;
        assert ht[0] == h && ht[m + 1] == rest[j];
        assert LexLeq(ht[0], ht[m + 1]);
      }
    }
  }

  /** Puts `x` into a sorted sequence at its place. */
  function Insert(x: string, s: seq<string>): (r: seq<string>)
    requires Sorted(s)
    ensures Sorted(r) && multiset(r) == multiset(s) + multiset{x}
    decreases |s|
  {
    if s == [] then [x]
    else if LexLeq(x, s[0]) then
      BelowHead(x, s);
      ConsSorted(x, s);
      [x] + s
    else
      assert s == [s[0]] + s[1..];
      var rest := Insert(x, s[1..]);
      LexLeqTotal(x, s[0]);
      BelowInserted(s[0], s[1..], x, rest);
      ConsSorted(s[0], rest);
      [s[0]] + rest
  }

  /** Python's `sorted` on a list of strings: insertion sort by `LexLeq`. */
  function Sort(s: seq<string>): (r: seq<string>)
    ensures Sorted(r) && multiset(r) == multiset(s)
    decreases |s|
  {
    if s == [] then []
    else
      assert s == [s[0]] + s[1..];
      Insert(s[0], Sort(s[1..]))
  }

  /** The head of a sorted sequence comes no later than any of its elements. */
  lemma HeadIsLeast(s: seq<string>, x: string)
    requires Sorted(s) && x in s
    ensures LexLeq(s[0], x)
  {
    var i :| 0 <= i < |s| && s[i] == x;
    if i == 0 { LexLeqReflexive(x); }
  }

  /** Two sequences with the same elements and the same head have tails with the same elements. */
  lemma SameTails<T>(a: seq<T>, b: seq<T>)
    requires a != [] && b != [] && a[0] == b[0] && multiset(a) == multiset(b)
    ensures multiset(a[1..]) == multiset(b[1..])
  {
    assert a == [a[0]] + a[1..] && b == [b[0]] + b[1..];
    var ma, mb := multiset(a[1..]), multiset(b[1..]);
    assert multiset(a) == multiset{a[0]} + ma;
    assert multiset(b) == multiset{a[0]} + mb;
    forall e ensures ma[e] == mb[e] {
      assert (multiset{a[0]} + ma)[e] == (multiset{a[0]} + mb)[e];
    }
  }

  /** The tail of a sorted sequence is sorted. */
  lemma SortedTail(a: seq<string>)
    requires Sorted(a) && a != []
    ensures Sorted(a[1..])
  {
    forall i, j | 0 <= i < j < |a| - 1 ensures LexLeq(a[1..][i], a[1..][j]) {
      assert a[1..][i] == a[i + 1] && a[1..][j] == a[j + 1];
    }
  }

  /** Two sorted arrangements of the same strings start with the same string. */
  lemma SameHeads(a: seq<string>, b: seq<string>)
    requires Sorted(a) && Sorted(b) && multiset(a) == multiset(b) && a != [] && b != []
    ensures a[0] == b[0]
  {
    assert a[0] in multiset(b) && b[0] in multiset(a);
    HeadIsLeast(b, a[0]);
    HeadIsLeast(a, b[0]);
    LexLeqAntisymmetric(a[0], b[0]);
  }

  /** A sorted arrangement of a multiset of strings is unique. */
  lemma {:induction false} SortedUnique(a: seq<string>, b: seq<string>)
    requires Sorted(a) && Sorted(b) && multiset(a) == multiset(b)
    ensures a == b
    decreases |a|
  {
    assert |a| == |multiset(a)| == |b|;
    if a != [] {
      SameHeads(a, b);
      SameTails(a, b);
      SortedTail(a);
      SortedTail(b);
      SortedUnique(a[1..], b[1..]);
      assert a == [a[0]] + a[1..] && b == [b[0]] + b[1..];
    }
  }
}
