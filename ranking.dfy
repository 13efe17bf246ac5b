/**
 * Ordering of records by a descending lexicographic key, as SQL's
 * `ORDER BY a DESC, b DESC` and Python's `sorted(..., reverse=True)` do.
 * A missing secondary value (SQL NULL) ranks below every present one.
 */
module Ranking {
  import opened Wrappers

  datatype Key = Key(primary: int, secondary: Option<int>)

  predicate SecondaryAbove(a: Option<int>, b: Option<int>) {
    a.Some? && (b.None? || a.value > b.value)
  }

  /** `a` ranks strictly above `b`. */
  predicate Above(a: Key, b: Key) {
    a.primary > b.primary || (a.primary == b.primary && SecondaryAbove(a.secondary, b.secondary))
  }

  lemma AboveTransitive(a: Key, b: Key, c: Key)
    requires Above(a, b) && Above(b, c)
    ensures Above(a, c)
  {
  }

  /** Keys no one of which is above the other are equal. */
  lemma AboveTotal(a: Key, b: Key)
    ensures Above(a, b) || Above(b, a) || a == b
  {
  }

  /** No element ranks above an element placed before it. */
  predicate SortedDesc<T>(s: seq<T>, key: T -> Key) {
    forall i, j :: 0 <= i < j < |s| ==> !Above(key(s[j]), key(s[i]))
  }

  /** Places `x` after every element it does not rank above, so equal keys keep their arrival order. */
  function Insert<T>(s: seq<T>, x: T, key: T -> Key): (r: seq<T>)
    ensures |r| == |s| + 1
    ensures multiset(r) == multiset(s) + multiset{x}
    ensures forall e :: e in r ==> e == x || e in s
  {
    if s == [] then [x]
    else if Above(key(x), key(s[0])) then [x] + s
    else
      assert s == [s[0]] + s[1..];
      [s[0]] + Insert(s[1..], x, key)
  }

  /** Inserting into a sorted sequence keeps it sorted. */
  lemma {:induction false} InsertKeepsSorted<T>(s: seq<T>, x: T, key: T -> Key)
    requires SortedDesc(s, key)
    ensures SortedDesc(Insert(s, x, key), key)
    decreases |s|
  {
    if s != [] && Above(key(x), key(s[0])) {
      var r := [x] + s;
      forall i, j | 0 <= i < j < |r| ensures !Above(key(r[j]), key(r[i])) {
        if i == 0 {
          assert r[j] == s[j - 1];
          assert j == 1 || !Above(key(s[j - 1]), key(s[0]));
        } else {
          assert r[i] == s[i - 1] && r[j] == s[j - 1];
        }
      }
    } else if s != [] {
      var tail := Insert(s[1..], x, key);
      InsertKeepsSorted(s[1..], x, key);
      var r := [s[0]] + tail;
      forall i, j | 0 <= i < j < |r| ensures !Above(key(r[j]), key(r[i])) {
        if i == 0 {
          var e := tail[j - 1];
          assert e in tail && r[j] == e;
          if e != x {
            var k :| 0 <= k < |s[1..]| && s[1..][k] == e;
            assert s[k + 1] == e;
          }
        } else {
          assert r[i] == tail[i - 1] && r[j] == tail[j - 1];
        }
      }
    }
  }

  /** Stable sort by descending key: insertion of each element in input order. */
  function SortDesc<T>(s: seq<T>, key: T -> Key): (r: seq<T>)
    ensures |r| == |s|
    ensures multiset(r) == multiset(s)
    ensures SortedDesc(r, key)
  {
    if s == [] then []
    else
      var init := s[..|s| - 1];
      assert s == init + [s[|s| - 1]];
      InsertKeepsSorted(SortDesc(init, key), s[|s| - 1], key);
      Insert(SortDesc(init, key), s[|s| - 1], key)
  }

  /** The elements of `s` whose key is `v`, in order. */
  function KeyFilter<T>(s: seq<T>, key: T -> Key, v: Key): seq<T> {
    if s == [] then [] else (if key(s[0]) == v then [s[0]] else []) + KeyFilter(s[1..], key, v)
  }

  lemma {:induction false} KeyFilterAppend<T>(a: seq<T>, b: seq<T>, key: T -> Key, v: Key)
    ensures KeyFilter(a + b, key, v) == KeyFilter(a, key, v) + KeyFilter(b, key, v)
    decreases |a|
  {
    if a == [] {
      assert a + b == b;
    } else {
      assert (a + b)[0] == a[0] && (a + b)[1..] == a[1..] + b;
      KeyFilterAppend(a[1..], b, key, v);
    }
  }

  lemma {:induction false} KeyFilterNone<T>(s: seq<T>, key: T -> Key, v: Key)
    requires forall e :: e in s ==> key(e) != v
    ensures KeyFilter(s, key, v) == []
    decreases |s|
  {
    if s != [] {
      assert forall e :: e in s[1..] ==> e in s;
      KeyFilterNone(s[1..], key, v);
    }
  }

  lemma KeyFilterCons<T>(x: T, s: seq<T>, key: T -> Key, v: Key)
    ensures KeyFilter([x] + s, key, v) == (if key(x) == v then [x] else []) + KeyFilter(s, key, v)
  {
    assert ([x] + s)[0] == x && ([x] + s)[1..] == s;
  }

  /** Nothing in a sorted sequence shares the key of an element ranked above its head. */
  lemma AboveHeadUnmatched<T>(s: seq<T>, x: T, key: T -> Key)
    requires SortedDesc(s, key) && s != [] && Above(key(x), key(s[0]))
    ensures forall e :: e in s ==> key(e) != key(x)
  {
    forall e | e in s ensures key(e) != key(x) {
      var k :| 0 <= k < |s| && s[k] == e;
      assert k == 0 || !Above(key(s[k]), key(s[0]));
    }
  }

  /** A head kept in front of both sides keeps a filter equation that holds behind it. */
  lemma KeyFilterConsStep<T>(head: T, rest: seq<T>, tail: seq<T>, key: T -> Key, v: Key, xs: seq<T>)
    requires KeyFilter(tail, key, v) == KeyFilter(rest, key, v) + xs
    ensures KeyFilter([head] + tail, key, v) == KeyFilter([head] + rest, key, v) + xs
  {
    var hs := if key(head) == v then [head] else [];
    KeyFilterCons(head, tail, key, v);
    KeyFilterCons(head, rest, key, v);
    assert hs + (KeyFilter(rest, key, v) + xs) == (hs + KeyFilter(rest, key, v)) + xs;
  }

  /** Inserting into a sorted sequence puts `x` after every element with its key. */
  lemma {:induction false} InsertStable<T>(s: seq<T>, x: T, key: T -> Key, v: Key)
    requires SortedDesc(s, key)
    ensures KeyFilter(Insert(s, x, key), key, v) == KeyFilter(s, key, v) + (if key(x) == v then [x] else [])
    decreases |s|
  {
    var xs := if key(x) == v then [x] else [];
    if s == [] {
      assert Insert(s, x, key) == [x] + [];
      KeyFilterCons(x, [], key, v);
      assert KeyFilter(Insert(s, x, key), key, v) == xs + [];
    } else if Above(key(x), key(s[0])) {
      var fs := KeyFilter(s, key, v);
      assert Insert(s, x, key) == [x] + s;
      KeyFilterCons(x, s, key, v);
      if key(x) == v {
        AboveHeadUnmatched(s, x, key);
        KeyFilterNone(s, key, v);
      }
      assert xs + fs == fs + xs;
    } else {
      assert SortedDesc(s[1..], key);
      InsertStable(s[1..], x, key, v);
      assert Insert(s, x, key) == [s[0]] + Insert(s[1..], x, key);
      KeyFilterConsStep(s[0], s[1..], Insert(s[1..], x, key), key, v, xs);
      assert [s[0]] + s[1..] == s;
    }
  }

  /** Filtering `init + [last]` is filtering `init`, then `last` if it has the key. */
  lemma KeyFilterSnoc<T>(init: seq<T>, last: T, key: T -> Key, v: Key)
    ensures KeyFilter(init + [last], key, v) == KeyFilter(init, key, v) + (if key(last) == v then [last] else [])
  {
    KeyFilterAppend(init, [last], key, v);
    KeyFilterCons(last, [], key, v);
    assert [last] + [] == [last];
  }

  /** The sort is stable: elements with equal keys keep their input order. */
  lemma {:induction false} SortDescStable<T>(s: seq<T>, key: T -> Key, v: Key)
    ensures KeyFilter(SortDesc(s, key), key, v) == KeyFilter(s, key, v)
    decreases |s|
  {
    if s != [] {
      var init, last := s[..|s| - 1], s[|s| - 1];
      var sortedInit := SortDesc(init, key);
      assert SortDesc(s, key) == Insert(sortedInit, last, key);
      SortDescStable(init, key, v);
      InsertStable(sortedInit, last, key, v);
      KeyFilterSnoc(init, last, key, v);
      assert init + [last] == s;
    }
  }

  /** Cutting a sequence short keeps a prefix of each key's elements. */
  lemma KeyFilterPrefix<T>(a: seq<T>, b: seq<T>, key: T -> Key, v: Key)
    requires a <= b
    ensures KeyFilter(a, key, v) <= KeyFilter(b, key, v)
  {
    assert b == a + b[|a|..];
    KeyFilterAppend(a, b[|a|..], key, v);
  }

  /** The first `limit` elements; SQLite reads a negative `LIMIT` as no limit at all. */
  function Limit<T>(s: seq<T>, limit: int): (r: seq<T>)
    ensures 0 <= limit ==> |r| == if limit < |s| then limit else |s|
    ensures limit < 0 ==> r == s
    ensures r <= s
    ensures multiset(r) <= multiset(s)
  {
    if limit < 0 || limit >= |s| then s
    else
      assert s == s[..limit] + s[limit..];
      assert multiset(s) == multiset(s[..limit]) + multiset(s[limit..]);
      s[..limit]
  }

  /** What a limit cuts off from a sorted sequence ranks above nothing it keeps. */
  lemma LimitKeepsTop<T>(s: seq<T>, key: T -> Key, limit: int, x: T)
    requires SortedDesc(s, key) && x in s && x !in Limit(s, limit)
    ensures forall y :: y in Limit(s, limit) ==> !Above(key(x), key(y))
  {
    var r := Limit(s, limit);
    var j :| 0 <= j < |s| && s[j] == x;
    forall y | y in r ensures !Above(key(x), key(y)) {
      var i :| 0 <= i < |r| && r[i] == y;
      assert s[i] == y;
    }
  }
}
