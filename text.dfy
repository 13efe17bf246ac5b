/**
 * The handful of Python string operations the analysers use, on `seq<char>`:
 * ASCII `lower()`, the substring test `p in s`, `strip()`, `split(c)`,
 * `sep.join(parts)`, `startswith` and the non-overlapping `count`.
 */
module Text {

  /** `c.lower()` for ASCII letters; every other character is left alone. */
  function LowerChar(c: char): char {
    if 'A' <= c <= 'Z' then (c as int + 32) as char else c
  }

  /** `s.lower()`, character by character. */
  function ToLower(s: string): (r: string)
    ensures |r| == |s|
    ensures forall i :: 0 <= i < |s| ==> r[i] == LowerChar(s[i])
  {
    if s == [] then [] else [LowerChar(s[0])] + ToLower(s[1..])
  }

  lemma ToLowerAppend(a: string, b: string)
    ensures ToLower(a + b) == ToLower(a) + ToLower(b)
  {
    var ab, whole, parts := a + b, ToLower(a + b), ToLower(a) + ToLower(b);
    forall i | 0 <= i < |ab| ensures whole[i] == parts[i] {
      if i < |a| {
        assert ab[i] == a[i] && parts[i] == ToLower(a)[i];
      } else {
        assert ab[i] == b[i - |a|] && parts[i] == ToLower(b)[i - |a|];
      }
    }
  }

  /** Lower-casing twice is lower-casing once. */
  lemma ToLowerIdempotent(s: string)
    ensures ToLower(ToLower(s)) == ToLower(s)
  {
    assert |ToLower(ToLower(s))| == |ToLower(s)|;
    forall i | 0 <= i < |s| ensures ToLower(ToLower(s))[i] == ToLower(s)[i] { }
  }

  /** `sum(1 for w in words if w in text)`: how many of `words` occur in `text`. */
  function CountContained(words: seq<string>, text: string): (n: nat)
    ensures n <= |words|
    ensures n == 0 <==> forall k :: 0 <= k < |words| ==> !Contains(text, words[k])
  {
    if words == [] then 0
    else
      var rest := CountContained(words[1..], text);
      assert forall k :: 1 <= k < |words| ==> words[k] == words[1..][k - 1];
      (if Contains(text, words[0]) then 1 else 0) + rest
  }

  /** `s.startswith(p)`. */
  predicate StartsWith(s: string, p: string) {
    |p| <= |s| && s[..|p|] == p
  }

  /** `p` occurs in `s` starting at position `i`. */
  predicate OccursAt(s: string, p: string, i: int) {
    0 <= i && i + |p| <= |s| && s[i..i + |p|] == p
  }

  /** Python's `p in s` for strings. */
  predicate Contains(s: string, p: string) {
    exists i | 0 <= i <= |s| :: OccursAt(s, p, i)
  }

  /** Python's `any(k in s for k in keywords)`. */
  predicate ContainsAny(s: string, keywords: seq<string>) {
    exists k :: k in keywords && Contains(s, k)
  }

  /** A substring of `s` is a substring of anything `s` is embedded in. */
  lemma ContainsInContext(a: string, s: string, b: string, p: string)
    requires Contains(s, p)
    ensures Contains(a + s + b, p)
  {
    var i :| 0 <= i <= |s| && OccursAt(s, p, i);
    var t := a + s + b;
    assert t[|a| + i..|a| + i + |p|] == s[i..i + |p|];
    assert OccursAt(t, p, |a| + i);
  }

  lemma ContainsAnyInContext(a: string, s: string, b: string, keywords: seq<string>)
    requires ContainsAny(s, keywords)
    ensures ContainsAny(a + s + b, keywords)
  {
    var k :| k in keywords && Contains(s, k);
    ContainsInContext(a, s, b, k);
  }

  lemma ContainsSingleChar(s: string, c: char)
    ensures Contains(s, [c]) <==> c in s
  {
    if c in s {
      var i :| 0 <= i < |s| && s[i] == c;
      assert s[i..i + 1] == [c];
      assert OccursAt(s, [c], i);
    }
    if Contains(s, [c]) {
      var i :| 0 <= i <= |s| && OccursAt(s, [c], i);
      assert s[i] == s[i..i + 1][0];
    }
  }

  /** Python's `c.isspace()` on the ASCII range. */
  predicate IsSpace(c: char) {
    c == ' ' || c == '\t' || c == '\n' || c == '\r' || c == '\U{0B}' || c == '\U{0C}'
    || c == '\U{1C}' || c == '\U{1D}' || c == '\U{1E}' || c == '\U{1F}'
  }

  /** Python's `c.isdigit()` on the ASCII range. */
  predicate IsDigit(c: char) {
    '0' <= c <= '9'
  }

  /** The number of whitespace characters `s` starts with. */
  function LeadingSpaces(s: string): (n: nat)
    ensures n <= |s|
    ensures forall i :: 0 <= i < n ==> IsSpace(s[i])
    ensures n < |s| ==> !IsSpace(s[n])
  {
    if s != [] && IsSpace(s[0]) then 1 + LeadingSpaces(s[1..]) else 0
  }

  /** The number of whitespace characters `s` ends with. */
  function TrailingSpaces(s: string): (n: nat)
    ensures n <= |s|
    ensures forall i :: |s| - n <= i < |s| ==> IsSpace(s[i])
    ensures n < |s| ==> !IsSpace(s[|s| - n - 1])
  {
    if s != [] && IsSpace(s[|s| - 1]) then 1 + TrailingSpaces(s[..|s| - 1]) else 0
  }

  /** `s.strip()`: drops leading and trailing whitespace and nothing else. */
  function Strip(s: string): (r: string)
    ensures r == [] <==> forall i :: 0 <= i < |s| ==> IsSpace(s[i])
    ensures r != [] ==> LeadingSpaces(s) + |r| + TrailingSpaces(s) == |s|
                        && r == s[LeadingSpaces(s)..LeadingSpaces(s) + |r|]
    ensures r != [] ==> !IsSpace(r[0]) && !IsSpace(r[|r| - 1])
  {
    var lo := LeadingSpaces(s);
    if lo == |s| then []
    else
      var hi := |s| - TrailingSpaces(s);
      assert lo < hi;
      s[lo..hi]
  }

  /** A string with no whitespace at either end is its own strip. */
  lemma StripTrimmed(s: string)
    requires s != [] && !IsSpace(s[0]) && !IsSpace(s[|s| - 1])
    ensures Strip(s) == s
  {
    assert LeadingSpaces(s) == 0;
    assert TrailingSpaces(s) == 0;
    assert s[0..|s|] == s;
  }

  /** `s.split(c)`: the pieces between occurrences of `c`; always at least one piece. */
  function Split(s: string, c: char): (r: seq<string>)
    ensures |r| >= 1
  {
    if s == [] then [[]]
    else if s[0] == c then [[]] + Split(s[1..], c)
    else var rest := Split(s[1..], c); [[s[0]] + rest[0]] + rest[1..]
  }

  /** No piece of a split contains the separator. */
  lemma {:induction false} SplitPiecesFree(s: string, c: char)
    ensures forall k :: 0 <= k < |Split(s, c)| ==> c !in Split(s, c)[k]
  {
    if s != [] {
      SplitPiecesFree(s[1..], c);
    }
  }

  /** A string without the separator splits into itself alone. */
  lemma {:induction false} SplitNoSeparator(s: string, c: char)
    requires c !in s
    ensures Split(s, c) == [s]
  {
    if s != [] {
      assert c !in s[1..];
      SplitNoSeparator(s[1..], c);
      assert [s[0]] + s[1..] == s;
    }
  }

  /** Splitting distributes over a separator occurrence. */
  lemma {:induction false} SplitAtSeparator(a: string, c: char, b: string)
    ensures Split(a + [c] + b, c) == Split(a, c) + Split(b, c)
  {
    if a == [] {
      assert a + [c] + b == [c] + b;
      assert ([c] + b)[1..] == b;
    } else {
      assert (a + [c] + b)[0] == a[0];
      assert (a + [c] + b)[1..] == a[1..] + [c] + b;
      SplitAtSeparator(a[1..], c, b);
    }
  }

  /** The number of pieces is one more than the number of separators. */
  lemma {:induction false} SplitLength(s: string, c: char)
    ensures |Split(s, c)| == CountChar(s, c) + 1
  {
    if s != [] {
      SplitLength(s[1..], c);
    }
  }

  /** Occurrences of the character `c` in `s`. */
  function CountChar(s: string, c: char): nat {
    if s == [] then 0 else (if s[0] == c then 1 else 0) + CountChar(s[1..], c)
  }

  /** `sep.join(parts)`. */
  function Join(sep: string, parts: seq<string>): string {
    if parts == [] then []
    else if |parts| == 1 then parts[0]
    else parts[0] + sep + Join(sep, parts[1..])
  }

  /**
   * Python's `s.count(p)`: occurrences found scanning from the left, each search
   * resuming after the previous match, so they never overlap. The empty string
   * is found `|s| + 1` times.
   */
  function CountOccurrences(s: string, p: string): nat
    decreases |s|
  {
    if |p| == 0 then |s| + 1
    else if |s| < |p| then 0
    else if s[..|p|] == p then 1 + CountOccurrences(s[|p|..], p)
    else CountOccurrences(s[1..], p)
  }

  /** Dropping the first character never increases the count ... */
  lemma {:induction false} CountDropFirst(s: string, p: string)
    requires |p| > 0 && |s| > 0
    ensures CountOccurrences(s[1..], p) <= CountOccurrences(s, p)
    decreases |s|, 1
  {
    if |s| < |p| {
    } else if s[..|p|] == p {
      CountWithin(s, p, 1);
    } else {
    }
  }

  /** ... nor does dropping any prefix. */
  lemma {:induction false} CountSuffix(s: string, p: string, a: nat, b: nat)
    requires |p| > 0 && a <= b <= |s|
    ensures CountOccurrences(s[b..], p) <= CountOccurrences(s[a..], p)
    decreases |s| - a, 2, b - a
  {
    if a < b {
      assert s[a..][1..] == s[a + 1..];
      CountDropFirst(s[a..], p);
      CountSuffix(s, p, a + 1, b);
    }
  }

  /** After a match at the front, restarting anywhere inside it gains at most that one match. */
  lemma {:induction false} CountWithin(s: string, p: string, k: nat)
    requires |p| > 0 && |p| <= |s| && s[..|p|] == p && 1 <= k <= |p|
    ensures CountOccurrences(s[k..], p) <= 1 + CountOccurrences(s[|p|..], p)
    decreases |s|, 0, |p| - k
  {
    if k == |p| {
    } else if |s[k..]| < |p| {
    } else if s[k..][..|p|] == p {
      assert s[k..][|p|..] == s[k + |p|..];
      CountSuffix(s, p, |p|, k + |p|);
    } else {
      assert s[k..][1..] == s[k + 1..];
      CountWithin(s, p, k + 1);
    }
  }

  /** A match at position `i` is counted, together with everything counted after it. */
  lemma {:induction false} CountAtLeastFrom(s: string, p: string, i: nat)
    requires |p| > 0 && OccursAt(s, p, i)
    ensures CountOccurrences(s, p) >= 1 + CountOccurrences(s[i + |p|..], p)
    decreases i
  {
    if s[..|p|] == p {
      CountAfterFront(s, p, i);
    } else {
      OccursInTail(s, p, i);
      CountAtLeastFrom(s[1..], p, i - 1);
      var whole, tail, after := CountOccurrences(s, p), CountOccurrences(s[1..], p), CountOccurrences(s[i + |p|..], p);
      assert whole == tail && tail >= 1 + after;
    }
  }

  /** With a match at the front, what is counted after position `i + |p|` is counted after the front match. */
  lemma CountAfterFront(s: string, p: string, i: nat)
    requires |p| > 0 && |p| <= |s| && s[..|p|] == p && i + |p| <= |s|
    ensures CountOccurrences(s, p) >= 1 + CountOccurrences(s[i + |p|..], p)
  {
    var rest, after := CountOccurrences(s[|p|..], p), CountOccurrences(s[i + |p|..], p);
    assert CountOccurrences(s, p) == 1 + rest;
    CountSuffix(s, p, |p|, i + |p|);
    assert after <= rest;
  }

  /** A match past the front is a match in the tail, one position earlier, with the same rest after it. */
  lemma OccursInTail(s: string, p: string, i: nat)
    requires |p| > 0 && OccursAt(s, p, i) && s[..|p|] != p
    ensures i > 0 && OccursAt(s[1..], p, i - 1) && s[1..][i - 1 + |p|..] == s[i + |p|..]
    ensures CountOccurrences(s, p) == CountOccurrences(s[1..], p)
  {
    assert i > 0 by {
      assert s[0..|p|] == s[..|p|];
    }
    assert s[1..][i - 1..i - 1 + |p|] == s[i..i + |p|];
  }

  /** The first match the count takes: the leftmost occurrence. */
  lemma {:induction false} CountPositiveHasMatch(s: string, p: string) returns (i: nat)
    requires |p| > 0 && CountOccurrences(s, p) > 0
    ensures OccursAt(s, p, i) && CountOccurrences(s, p) == 1 + CountOccurrences(s[i + |p|..], p)
    decreases |s|
  {
    if s[..|p|] == p {
      i := 0;
      var whole, rest := CountOccurrences(s, p), CountOccurrences(s[|p|..], p);
      assert whole == 1 + rest;
      assert s[0..|p|] == s[..|p|];
    } else {
      var t := s[1..];
      var whole, tail := CountOccurrences(s, p), CountOccurrences(t, p);
      assert whole == tail;
      var j := CountPositiveHasMatch(t, p);
      MatchInTail(s, p, j);
      i := j + 1;
    }
  }

  /** A match in the tail is a match one position later in the whole, with the same rest after it. */
  lemma MatchInTail(s: string, p: string, j: nat)
    requires s != [] && OccursAt(s[1..], p, j)
    ensures OccursAt(s, p, j + 1) && s[1..][j + |p|..] == s[j + 1 + |p|..]
  {
    assert s[1..][j..j + |p|] == s[j + 1..j + 1 + |p|];
  }

  /** A count of two or more means two occurrences that do not overlap ... */
  lemma CountTwoHasDisjointMatches(s: string, p: string) returns (i: nat, j: nat)
    requires |p| > 0 && CountOccurrences(s, p) >= 2
    ensures OccursAt(s, p, i) && OccursAt(s, p, j) && i + |p| <= j
  {
    i := CountPositiveHasMatch(s, p);
    var t := s[i + |p|..];
    var k := CountPositiveHasMatch(t, p);
    assert t[k..k + |p|] == s[i + |p| + k..i + |p| + k + |p|];
    j := i + |p| + k;
  }

  /** ... and two occurrences that do not overlap give a count of two or more. */
  lemma DisjointMatchesCountTwo(s: string, p: string, i: nat, j: nat)
    requires |p| > 0 && OccursAt(s, p, i) && OccursAt(s, p, j) && i + |p| <= j
    ensures CountOccurrences(s, p) >= 2
  {
    var t := s[i + |p|..];
    assert t[j - i - |p|..j - i - |p| + |p|] == s[j..j + |p|];
    CountAtLeastFrom(t, p, j - i - |p|);
    CountAtLeastFrom(s, p, i);
  }
}
