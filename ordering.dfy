/** The two orders the reports sort by: Python's order on `str` (used by
    `sorted` on component names), and a stable sort by a numeric key with the
    largest key first (`sorted(..., key=..., reverse=True)`, and the
    `order by ... desc` of a query). */
module Ordering {

  // ---- Python's order on strings ----

  /** `a <= b` on Python strings: lexicographic by code point. */
  predicate LexLe(a: string, b: string)
    decreases |a|
  {
    |a| == 0 || (|b| > 0 && (a[0] < b[0] || (a[0] == b[0] && LexLe(a[1..], b[1..]))))
  }

  lemma {:induction false} LexLeTotal(a: string, b: string)
    ensures LexLe(a, b) || LexLe(b, a)
    decreases |a|
  {
    if |a| > 0 && |b| > 0 && a[0] == b[0] {
      LexLeTotal(a[1..], b[1..]);
    }
  }

  lemma {:induction false} LexLeTrans(a: string, b: string, c: string)
    requires LexLe(a, b) && LexLe(b, c)
    ensures LexLe(a, c)
    decreases |a|
  {
    if |a| > 0 && a[0] == b[0] && b[0] == c[0] {
      LexLeTrans(a[1..], b[1..], c[1..]);
    }
  }

  predicate SortedAsc(s: seq<string>) {
    forall i, j :: 0 <= i < j < |s| ==> LexLe(s[i], s[j])
  }

  /** Inserts `x` before the first element it does not exceed. */
  function InsertAsc(x: string, s: seq<string>): (r: seq<string>)
    ensures multiset(r) == multiset(s) + multiset{x}
    decreases |s|
  {
    if |s| == 0 then [x]
    else if LexLe(x, s[0]) then [x] + s
    else
      assert s == [s[0]] + s[1..];
      [s[0]] + InsertAsc(x, s[1..])
  }

  /** Python's `sorted` on a list of strings. */
  function SortAsc(s: seq<string>): (r: seq<string>)
    ensures multiset(r) == multiset(s)
    decreases |s|
  {
    if |s| == 0 then []
    else
      assert s == [s[0]] + s[1..];
      InsertAsc(s[0], SortAsc(s[1..]))
  }

  lemma {:induction false} InsertAscSorted(x: string, s: seq<string>)
    requires SortedAsc(s)
    ensures SortedAsc(InsertAsc(x, s))
    decreases |s|
  {
    if |s| == 0 {
    } else if LexLe(x, s[0]) {
      forall j | 0 < j < |s|
        ensures LexLe(x, s[j])
      {
        LexLeTrans(x, s[0], s[j]);
      }
    } else {
      LexLeTotal(x, s[0]);
      InsertAscSorted(x, s[1..]);
      var t := InsertAsc(x, s[1..]);
      forall j | 0 <= j < |t|
        ensures LexLe(s[0], t[j])
      {
        assert t[j] in multiset(t);
        if t[j] != x {
          assert t[j] in multiset(s[1..]);
          var k :| 0 <= k < |s[1..]| && s[1..][k] == t[j];
          assert s[1 + k] == t[j];
        }
      }
    }
  }

  /** `sorted` returns an ascending permutation of its input. */
  lemma {:induction false} SortAscSorted(s: seq<string>)
    ensures SortedAsc(SortAsc(s)) && multiset(SortAsc(s)) == multiset(s)
    decreases |s|
  {
    if |s| > 0 {
      SortAscSorted(s[1..]);
      InsertAscSorted(s[0], SortAsc(s[1..]));
    }
  }

  // ---- Stable sort by a numeric key, largest first ----

  predicate SortedDesc<T>(key: T -> real, s: seq<T>) {
    forall i, j :: 0 <= i < j < |s| ==> key(s[i]) >= key(s[j])
  }

  /** Inserts `x` before the first element whose key does not exceed its own,
      so that `x` precedes the equal-keyed elements that came after it in the
      input: the sort below keeps the input order among equal keys. */
  function InsertDesc<T(==)>(key: T -> real, x: T, s: seq<T>): (r: seq<T>)
    ensures multiset(r) == multiset(s) + multiset{x}
    decreases |s|
  {
    if |s| == 0 then [x]
    else if key(s[0]) <= key(x) then [x] + s
    else
      assert s == [s[0]] + s[1..];
      [s[0]] + InsertDesc(key, x, s[1..])
  }

  function SortDesc<T(==)>(key: T -> real, s: seq<T>): (r: seq<T>)
    ensures multiset(r) == multiset(s)
    decreases |s|
  {
    if |s| == 0 then []
    else
      assert s == [s[0]] + s[1..];
      InsertDesc(key, s[0], SortDesc(key, s[1..]))
  }

  lemma {:induction false} InsertDescSorted<T>(key: T -> real, x: T, s: seq<T>)
    requires SortedDesc(key, s)
    ensures SortedDesc(key, InsertDesc(key, x, s))
    decreases |s|
  {
    if |s| > 0 && key(s[0]) > key(x) {
      InsertDescSorted(key, x, s[1..]);
      var t := InsertDesc(key, x, s[1..]);
      forall j | 0 <= j < |t|
        ensures key(s[0]) >= key(t[j])
      {
        assert t[j] in multiset(t);
        if t[j] != x {
          assert t[j] in multiset(s[1..]);
          var k :| 0 <= k < |s[1..]| && s[1..][k] == t[j];
          assert s[1 + k] == t[j];
        }
      }
    }
  }

  /** The sort returns a permutation of its input, largest key first. */
  lemma {:induction false} SortDescSorted<T>(key: T -> real, s: seq<T>)
    ensures SortedDesc(key, SortDesc(key, s)) && multiset(SortDesc(key, s)) == multiset(s)
    decreases |s|
  {
    if |s| > 0 {
      SortDescSorted(key, s[1..]);
      InsertDescSorted(key, s[0], SortDesc(key, s[1..]));
    }
  }
}
